// The server's side of the chat bridge and its ticket buttons: the chat
// history sent to web clients, the relay of Discord messages to them, the
// gate on messages the web clients send, and ticket creation, closing,
// reopening and deletion over the `tickets` table.
module ServerRelay {
  import opened Wrappers
  import opened Text
  import opened Db
  import opened ChatParse

  // ---- Discord to the web ----

  /** A message of the Minecraft channel as the Discord client delivers it; `attachments` are the attachment URLs in order. */
  datatype DiscordMessage = DiscordMessage(
    authorId: string,
    authorBot: bool,
    username: string,
    displayName: Option<string>,
    content: string,
    attachments: seq<string>)

  /** `/^`<[^<>]+>`/`: the content opens with a backticked "<name>" whose name holds no angle bracket. */
  predicate McTagged(content: string)
  {
    |content| >= 2 && content[0] == '`' && content[1] == '<' &&
    var k := IndexOf(content[2..], '>');
    k >= 1 && 2 + k + 1 < |content| && content[2 + k + 1] == '`' && '<' !in content[2..2 + k]
  }

  /** `msg.member?.displayName || msg.author.username`. */
  function NameOf(m: DiscordMessage): string
  {
    if m.displayName.Some? && m.displayName.value != "" then m.displayName.value else m.username
  }

  /** `msg.attachments?.first()?.url || null`. */
  function FirstImage(m: DiscordMessage): (r: Option<string>)
    ensures r.Some? ==> m.attachments != [] && r.value != "" && r.value == m.attachments[0]
  {
    if m.attachments != [] && m.attachments[0] != "" then Some(m.attachments[0]) else None
  }

  /** The history keeps every human message, every web-bot message and other bots' messages in the game's "`<name>`" format. */
  predicate KeptInHistory(m: DiscordMessage, webBotId: string)
  {
    !m.authorBot || m.authorId == webBotId || McTagged(m.content)
  }

  /** A history entry: the web bot's text as it is, anyone else's prefixed with "[name]: ". */
  function HistoryEntry(m: DiscordMessage, webBotId: string): ChatMessage
  {
    var text := if m.authorId == webBotId then m.content else "[" + NameOf(m) + "]: " + m.content;
    Record(Some(text), FirstImage(m), None)
  }

  /** `fetchDiscordChatHistory` on the fetched messages, newest first as Discord returns them: oldest first, filtered, mapped. */
  function History(fetched: seq<DiscordMessage>, webBotId: string): seq<ChatMessage>
  {
    if fetched == [] then []
    else
      History(fetched[1..], webBotId)
      + (if KeptInHistory(fetched[0], webBotId) then [HistoryEntry(fetched[0], webBotId)] else [])
  }

  /** An entry is in the history exactly when it comes from a kept message. */
  lemma {:induction false} HistoryMembers(fetched: seq<DiscordMessage>, webBotId: string, e: ChatMessage)
    ensures e in History(fetched, webBotId) <==>
            exists i :: 0 <= i < |fetched| && KeptInHistory(fetched[i], webBotId) && e == HistoryEntry(fetched[i], webBotId)
  {
    if fetched != [] {
      HistoryMembers(fetched[1..], webBotId, e);
      if e in History(fetched[1..], webBotId) {
        var i :| 0 <= i < |fetched[1..]| && KeptInHistory(fetched[1..][i], webBotId) && e == HistoryEntry(fetched[1..][i], webBotId);
        assert fetched[i + 1] == fetched[1..][i];
      }
      if exists i :: 0 <= i < |fetched| && KeptInHistory(fetched[i], webBotId) && e == HistoryEntry(fetched[i], webBotId) {
        var i :| 0 <= i < |fetched| && KeptInHistory(fetched[i], webBotId) && e == HistoryEntry(fetched[i], webBotId);
        if i > 0 {
          assert fetched[1..][i - 1] == fetched[i];
        }
      }
    }
  }

  /** The history never grows past what was fetched, and an older message comes before every newer one. */
  lemma {:induction false} HistoryOrder(newer: seq<DiscordMessage>, older: DiscordMessage, webBotId: string)
    ensures History(newer + [older], webBotId) == (if KeptInHistory(older, webBotId) then [HistoryEntry(older, webBotId)] else []) + History(newer, webBotId)
    ensures |History(newer, webBotId)| <= |newer|
  {
    if newer != [] {
      assert (newer + [older])[1..] == newer[1..] + [older];
      HistoryOrder(newer[1..], older, webBotId);
    }
  }

  /** The `messageCreate` relay: what the server broadcasts to web clients for a Discord message, if anything. */
  function LiveRelay(m: DiscordMessage, inChannel: bool, webBotId: string): Option<ChatMessage>
  {
    if !inChannel || m.authorId == webBotId then None
    else if Trim(m.content) == "" && m.attachments == [] then None
    else Some(Record(Some("[" + NameOf(m) + "]: " + m.content), FirstImage(m), None))
  }

  /** A live message and its later history entry agree, for every author but the web bot; the web bot's own messages are never relayed live. */
  lemma RelayMatchesHistory(m: DiscordMessage, webBotId: string)
    requires m.authorId != webBotId && (Trim(m.content) != "" || m.attachments != [])
    ensures LiveRelay(m, true, webBotId) == Some(HistoryEntry(m, webBotId))
    ensures LiveRelay(m.(authorId := webBotId), true, webBotId) == None
  {
  }

  /** Another bot's message outside the game's "`<name>`" format is relayed live but has no history entry. */
  lemma OtherBotsLiveOnly(m: DiscordMessage, webBotId: string)
    requires m.authorBot && m.authorId != webBotId && !McTagged(m.content) && (Trim(m.content) != "" || m.attachments != [])
    ensures LiveRelay(m, true, webBotId).Some?
    ensures History([m], webBotId) == []
  {
  }

  /** A message with blank text and no attachment, or from outside the channel, is not relayed. */
  lemma RelaySkipsEmpty(m: DiscordMessage, inChannel: bool, webBotId: string)
    ensures LiveRelay(m, inChannel, webBotId).Some? <==> inChannel && m.authorId != webBotId && (Trim(m.content) != "" || m.attachments != [])
  {
  }

  const ServerBotName := "Createrington"

  /** The server bot's "[Createrington]: " prefix, and the space after it, are dropped by the cleaning step. */
  lemma CleanedServerLine(inner: string)
    requires |inner| > 0 && !IsSpace(inner[0]) && !IsSpace(inner[|inner| - 1]) && inner[0] != '['
    ensures Cleaned("[" + ServerBotName + "]: " + inner) == inner
  {
    ServerPrefixed(inner);
    TrimStartSpaced(" ", inner);
    TrimKeeps(inner);
  }

  /** The bot's line starts with the prefix, followed by a space and the inner text. */
  lemma ServerPrefixed(inner: string)
    ensures var text := "[" + ServerBotName + "]: " + inner;
            StartsWith(text, ServerPrefix) && text[|ServerPrefix|..] == " " + inner
  {
  }

  /** A game chat line relayed into Discord by the server's bot, as "`<name>` text", reaches the web history as a Minecraft message from that player. */
  lemma GameLineInHistory(m: DiscordMessage, webBotId: string, n: string, t: string)
    requires m.authorId != webBotId && NameOf(m) == ServerBotName && m.attachments == []
    requires PlainName(n) && PlainText(t) && '>' !in t && m.content == "`<" + n + ">` " + t
    ensures MessageParts(HistoryEntry(m, webBotId)) == Parts(Minecraft, n, Shown(Waypoints(t)), None)
  {
    var inner := "`<" + n + ">` " + t;
    assert HistoryEntry(m, webBotId) == Record(Some("[" + ServerBotName + "]: " + inner), None, None);
    assert inner[|inner| - 1] == t[|t| - 1];
    ServerLineParts(inner);
    QuotedNameIsMinecraft(n, t, None);
  }

  lemma ServerLineParts(inner: string)
    requires |inner| > 1 && inner[0] == '`' && !IsSpace(inner[|inner| - 1])
    ensures MessageParts(Record(Some("[" + ServerBotName + "]: " + inner), None, None)) == MessageParts(Record(Some(inner), None, None))
  {
    CleanedServerLine(inner);
    CleanedKeeps(inner);
  }

  // ---- The web to Discord ----

  const RelayCooldownMs := 10000

  /** What a `sendChatMessage` event leads to. */
  datatype RelayOutcome =
    | MissingField   // no message or no token: dropped, nothing recorded
    | CoolingDown    // within 10 s of this socket's last accepted send
    | BadToken       // unknown or expired token, after the cooldown was recorded
    | QueryFailed    // the token query threw: logged, nothing sent, after the cooldown was recorded
    | Relayed(text: string, delivered: bool)  // broadcast to the web clients; `delivered` says whether it reached Discord

  /** A token row that `expires_at > NOW()` accepts. */
  predicate TokenValid(tokens: map<string, ChatToken>, token: string, now: int)
  {
    token in tokens && tokens[token].expiresAt > now
  }

  /**
   * The `sendChatMessage` handler on the per-socket cooldown map; `now` is
   * both the server's and the database's clock. `queryFails` says whether
   * the token query throws; `delivered` whether the WebChatBot's guild
   * fetch, channel lookup and send reach Discord. `sendToMinecraftChat`
   * catches and logs its own failures, so the broadcast follows either way.
   */
  function Relay(cooldowns: map<string, int>, socketId: string, message: string, token: string, authorName: string,
                 tokens: map<string, ChatToken>, now: int, queryFails: bool, delivered: bool): (map<string, int>, RelayOutcome)
  {
    var lastSent := if socketId in cooldowns then cooldowns[socketId] else 0;
    if message == "" || token == "" then (cooldowns, MissingField)
    else if now - lastSent < RelayCooldownMs then (cooldowns, CoolingDown)
    else
      var cooldowns' := cooldowns[socketId := now];
      if token == "admin" then
        (cooldowns', Relayed("<" + (if authorName != "" then authorName else "web") + "> " + message, delivered))
      else if queryFails then (cooldowns', QueryFailed)
      else if !TokenValid(tokens, token, now) then (cooldowns', BadToken)
      else
        var displayName := if authorName != "" then authorName else tokens[token].discordName;
        (cooldowns', Relayed("<" + displayName + "> " + message, delivered))
  }

  /** What the web clients receive for a relayed message. */
  function Broadcast(text: string): ChatMessage
  {
    Record(Some(text), None, Some("web"))
  }

  /** A message without text or token is dropped and leaves the cooldown map as it was. */
  lemma MissingFieldUntouched(cooldowns: map<string, int>, socketId: string, message: string, token: string, authorName: string,
                              tokens: map<string, ChatToken>, now: int, queryFails: bool, delivered: bool)
    requires message == "" || token == ""
    ensures Relay(cooldowns, socketId, message, token, authorName, tokens, now, queryFails, delivered) == (cooldowns, MissingField)
  {
  }

  /**
   * A message is broadcast exactly when both fields are present, the
   * socket's cooldown has passed, and the token is "admin" or its query
   * succeeds and finds it valid; it reaches Discord exactly when it is
   * broadcast and the WebChatBot's send goes through. Every attempt past
   * the cooldown check records the time, whatever happens next.
   */
  lemma RelayRule(cooldowns: map<string, int>, socketId: string, message: string, token: string, authorName: string,
                  tokens: map<string, ChatToken>, now: int, queryFails: bool, delivered: bool)
    ensures var lastSent := if socketId in cooldowns then cooldowns[socketId] else 0;
            var passed := message != "" && token != "" && now - lastSent >= RelayCooldownMs;
            var (c', o) := Relay(cooldowns, socketId, message, token, authorName, tokens, now, queryFails, delivered);
            && (o.Relayed? <==> passed && (token == "admin" || (!queryFails && TokenValid(tokens, token, now))))
            && (o.Relayed? ==> o.delivered == delivered)
            && (o.QueryFailed? <==> passed && token != "admin" && queryFails)
            && (o.BadToken? <==> passed && token != "admin" && !queryFails && !TokenValid(tokens, token, now))
            && (o.Relayed? || o.BadToken? || o.QueryFailed? ==> c' == cooldowns[socketId := now])
            && (o.MissingField? || o.CoolingDown? ==> c' == cooldowns)
  {
  }

  /** A rejected token still uses up the socket's cooldown: a valid message from the same socket within 10 s is refused. */
  lemma RejectedTokenConsumesCooldown(cooldowns: map<string, int>, socketId: string, message: string, bad: string, good: string,
                                      authorName: string, tokens: map<string, ChatToken>, now: int, later: int, delivered: bool)
    requires message != "" && bad != "" && bad != "admin" && !TokenValid(tokens, bad, now) && good != ""
    requires (if socketId in cooldowns then now - cooldowns[socketId] else now) >= RelayCooldownMs
    requires now <= later < now + RelayCooldownMs
    ensures var (c1, o1) := Relay(cooldowns, socketId, message, bad, authorName, tokens, now, false, delivered);
            o1 == BadToken && Relay(c1, socketId, message, good, authorName, tokens, later, false, delivered).1 == CoolingDown
  {
  }

  /** The relayed line is "<name> message", where the name the client sent wins over the token's Discord name, and "web" stands in for an admin without one. */
  lemma DisplayNameRule(cooldowns: map<string, int>, socketId: string, message: string, token: string, authorName: string,
                        tokens: map<string, ChatToken>, now: int, queryFails: bool, delivered: bool)
    ensures var (_, o) := Relay(cooldowns, socketId, message, token, authorName, tokens, now, queryFails, delivered);
            o.Relayed? ==>
              o.text == "<" + (if authorName != "" then authorName
                               else if token == "admin" then "web"
                               else tokens[token].discordName) + "> " + message
  {
  }

  /** A relayed line with a plain name and text reaches the web clients as a web message showing the escaped name. */
  lemma RelayedShowsAsWeb(displayName: string, message: string)
    requires PlainName(displayName) && PlainText(message)
    ensures MessageParts(Broadcast("<" + displayName + "> " + message)) == Parts(Web, "web", Shown("&lt;" + displayName + "&gt; " + message), None)
  {
    UnquotedNameIsWeb(displayName, message, None, Some("web"));
  }

  /** The web chat relay's per-socket cooldown map. */
  class ChatRelay {
    var messageCooldowns: map<string, int>

    constructor ()
      ensures messageCooldowns == map[]
    {
      messageCooldowns := map[];
    }

    /** `sendChatMessage`; `Relayed(text, delivered)` means `text` went to every web client, and to Discord when `delivered`. */
    method SendChatMessage(socketId: string, message: string, token: string, authorName: string, tokens: map<string, ChatToken>, now: int,
                           queryFails: bool, delivered: bool)
      returns (o: RelayOutcome)
      modifies this
      ensures (messageCooldowns, o) == Relay(old(messageCooldowns), socketId, message, token, authorName, tokens, now, queryFails, delivered)
    {
      var lastSent := if socketId in messageCooldowns then messageCooldowns[socketId] else 0;
      if message == "" || token == "" {
        return MissingField;
      }
      if now - lastSent < RelayCooldownMs {
        return CoolingDown;
      }
      messageCooldowns := messageCooldowns[socketId := now];
      var displayName := if authorName != "" then authorName else "web";
      if token != "admin" {
        if queryFails {
          return QueryFailed;
        }
        if !(token in tokens && tokens[token].expiresAt > now) {
          return BadToken;
        }
        displayName := if authorName != "" then authorName else tokens[token].discordName;
      }
      o := Relayed("<" + displayName + "> " + message, delivered);
    }
  }

  // ---- Tickets ----

  /** The first ticket of `user` that is not deleted, if any. */
  function LiveTicket(tickets: seq<Ticket>, user: string): (r: Option<nat>)
    ensures r.Some? ==> r.value < |tickets| && tickets[r.value].discordId == user && tickets[r.value].status != Deleted
    ensures r.None? ==> forall i :: 0 <= i < |tickets| ==> tickets[i].discordId != user || tickets[i].status == Deleted
  {
    if tickets == [] then None
    else if tickets[0].discordId == user && tickets[0].status != Deleted then Some(0)
    else match LiveTicket(tickets[1..], user)
      case None => None
      case Some(i) => Some(i + 1)
  }

  /** `ticket-` and the number padded with zeros to four digits. */
  function TicketName(n: int): string
  {
    "ticket-" + PadStart(IntToString(n), 4, '0')
  }

  /** What "create_ticket" answers: a pointer to the live ticket, the new ticket, or the catch's "Failed to create ticket". */
  datatype TicketOutcome = AlreadyOpen(channelId: string) | Created(number: int, name: string, mcName: string) | CreateFailed

  /** The step of "create_ticket" that throws, if any; the `catch` keeps whatever was written before it. */
  datatype CreateStep =
    | Lookup         // the query for a live ticket
    | Counter        // the users lookup, the counter read or the counter update
    | ChannelCreate  // `guild.channels.create`, after the counter was raised
    | Insert         // the INSERT, after the counter was raised and the channel created
    | Welcome        // the welcome message or the reply, after the row was inserted

  /** The ticket desk's invariant: numbers are distinct and none exceeds the counter, and nobody has two tickets that are not deleted. */
  predicate TicketsValid(tickets: seq<Ticket>, counter: int)
  {
    && (forall i :: 0 <= i < |tickets| ==> tickets[i].number <= counter)
    && (forall i, j :: 0 <= i < j < |tickets| ==> tickets[i].number != tickets[j].number)
    && (forall i, j :: 0 <= i < j < |tickets| && tickets[i].discordId == tickets[j].discordId ==>
          tickets[i].status == Deleted || tickets[j].status == Deleted)
  }

  /** `user` has a ticket that is not deleted. */
  predicate HasLiveTicket(tickets: seq<Ticket>, user: string)
  {
    exists i :: 0 <= i < |tickets| && tickets[i].discordId == user && tickets[i].status != Deleted
  }

  /** The open ticket row "create_ticket" inserts for number `n`. */
  function NewTicket(n: int, user: string, linkedName: Option<string>, channelId: string): Ticket
  {
    Ticket(n, user, if linkedName.Some? && linkedName.value != "" then linkedName.value else "Unknown", channelId, Open, None)
  }

  /**
   * The "create_ticket" button on the tickets table and counter;
   * `linkedName` is the first linked Minecraft name the users lookup
   * returns, `channelId` the new channel, and `fail` the step that throws.
   */
  function CreateTicket(tickets: seq<Ticket>, counter: int, user: string, linkedName: Option<string>, channelId: string,
                        fail: Option<CreateStep>): (seq<Ticket>, int, TicketOutcome)
  {
    if fail == Some(Lookup) then (tickets, counter, CreateFailed)
    else match LiveTicket(tickets, user)
    case Some(i) => (tickets, counter, AlreadyOpen(tickets[i].channelId))
    case None =>
      var n := counter + 1;
      var row := NewTicket(n, user, linkedName, channelId);
      if fail == Some(Counter) then (tickets, counter, CreateFailed)
      else if fail == Some(ChannelCreate) || fail == Some(Insert) then (tickets, n, CreateFailed)
      else if fail == Some(Welcome) then (tickets + [row], n, CreateFailed)
      else (tickets + [row], n, Created(n, TicketName(n), row.mcName))
  }

  /** Without a failure, a user with a ticket that is not deleted is sent to it and nothing changes; otherwise a new open ticket takes the next number. */
  lemma CreateRule(tickets: seq<Ticket>, counter: int, user: string, linkedName: Option<string>, channelId: string, fail: Option<CreateStep>)
    ensures var (t', c', o) := CreateTicket(tickets, counter, user, linkedName, channelId, fail);
            && (o.AlreadyOpen? <==> fail != Some(Lookup) && HasLiveTicket(tickets, user))
            && (o.AlreadyOpen? ==> t' == tickets && c' == counter)
            && (o.Created? <==> fail.None? && !HasLiveTicket(tickets, user))
            && (o.Created? ==> c' == counter + 1 && o.number == counter + 1 && t' == tickets + [Ticket(counter + 1, user, o.mcName, channelId, Open, None)])
  {
    var t := LiveTicket(tickets, user);
    if t.Some? {
      assert tickets[t.value].discordId == user && tickets[t.value].status != Deleted;
    } else {
      assert !HasLiveTicket(tickets, user);
      if fail.Some? {
        match fail.value
        case Lookup =>
        case Counter =>
        case ChannelCreate =>
        case Insert =>
        case Welcome =>
      }
    }
  }

  /**
   * A failing step keeps what was written before it: nothing before the
   * counter update, a raised counter without a row when the channel or the
   * INSERT fails, and the whole ticket when only the welcome fails.
   */
  lemma CreateFailureRule(tickets: seq<Ticket>, counter: int, user: string, linkedName: Option<string>, channelId: string, step: CreateStep)
    requires LiveTicket(tickets, user).None?
    ensures var (t', c', o) := CreateTicket(tickets, counter, user, linkedName, channelId, Some(step));
            && o == CreateFailed
            && (step == Lookup || step == Counter ==> t' == tickets && c' == counter)
            && (step == ChannelCreate || step == Insert ==> t' == tickets && c' == counter + 1)
            && (step == Welcome ==> t' == tickets + [NewTicket(counter + 1, user, linkedName, channelId)] && c' == counter + 1)
  {
  }

  /** After the channel or the INSERT fails, a retry that succeeds takes the number after the one the failure used up. */
  lemma FailedCreateSkipsNumber(tickets: seq<Ticket>, counter: int, user: string, linkedName: Option<string>, channelId: string, step: CreateStep)
    requires LiveTicket(tickets, user).None? && (step == ChannelCreate || step == Insert)
    ensures var (t1, c1, _) := CreateTicket(tickets, counter, user, linkedName, channelId, Some(step));
            var (t2, c2, o2) := CreateTicket(t1, c1, user, linkedName, channelId, None);
            && o2.Created? && o2.number == counter + 2 && c2 == counter + 2
            && t2 == tickets + [NewTicket(counter + 2, user, linkedName, channelId)]
  {
  }

  /** Creating a ticket keeps numbers distinct and each user to one live ticket, whichever step fails. */
  lemma CreateKeepsValid(tickets: seq<Ticket>, counter: int, user: string, linkedName: Option<string>, channelId: string, fail: Option<CreateStep>)
    requires TicketsValid(tickets, counter)
    ensures var (t', c', _) := CreateTicket(tickets, counter, user, linkedName, channelId, fail);
            TicketsValid(t', c')
  {
    var (t', c', _) := CreateTicket(tickets, counter, user, linkedName, channelId, fail);
    if fail != Some(Lookup) && LiveTicket(tickets, user).None? && |t'| > |tickets| {
      AppendValid(tickets, counter, NewTicket(counter + 1, user, linkedName, channelId));
    }
  }

  /** A row numbered past the counter, for a user whose rows are all deleted, can be appended. */
  lemma AppendValid(tickets: seq<Ticket>, counter: int, row: Ticket)
    requires TicketsValid(tickets, counter) && row.number == counter + 1
    requires forall i :: 0 <= i < |tickets| ==> tickets[i].discordId != row.discordId || tickets[i].status == Deleted
    ensures TicketsValid(tickets + [row], counter + 1)
  {
    var t' := tickets + [row];
    forall i | 0 <= i < |tickets|
      ensures t'[i] == tickets[i]
    {
    }
  }

  /** Ticket 7 is "ticket-0007", ticket 12345 keeps all its digits. */
  lemma TicketNames()
    ensures TicketName(7) == "ticket-0007"
    ensures TicketName(12345) == "ticket-12345"
  {
    ShortTicketName();
    LongTicketName();
  }

  lemma ShortTicketName()
    ensures TicketName(7) == "ticket-0007"
  {
    assert IntToString(7) == "7";
    assert PadStart("7", 4, '0') == "0007";
  }

  lemma LongTicketName()
    ensures TicketName(12345) == "ticket-12345"
  {
    assert NatToString(1) == "1";
    assert NatToString(12) == "12";
    assert NatToString(123) == "123";
    assert NatToString(1234) == "1234";
    assert NatToString(12345) == "12345";
  }

  /** `UPDATE tickets SET … WHERE channel_id = c`: every row of the channel changed by `f`. */
  function UpdateChannel(tickets: seq<Ticket>, channelId: string, status: Option<TicketStatus>, adminMessageId: Option<string>): (r: seq<Ticket>)
    ensures |r| == |tickets|
    ensures forall i :: 0 <= i < |tickets| && tickets[i].channelId != channelId ==> r[i] == tickets[i]
    ensures forall i :: 0 <= i < |tickets| && tickets[i].channelId == channelId ==>
              r[i] == tickets[i].(status := status.GetOr(tickets[i].status),
                                  adminMessageId := if adminMessageId.Some? then adminMessageId else tickets[i].adminMessageId)
  {
    if tickets == [] then []
    else
      var t := tickets[0];
      var t' := if t.channelId == channelId
                then t.(status := status.GetOr(t.status), adminMessageId := if adminMessageId.Some? then adminMessageId else t.adminMessageId)
                else t;
      [t'] + UpdateChannel(tickets[1..], channelId, status, adminMessageId)
  }

  /** The first ticket row of a channel. */
  function ChannelTicket(tickets: seq<Ticket>, channelId: string): (r: Option<nat>)
    ensures r.Some? ==> r.value < |tickets| && tickets[r.value].channelId == channelId
    ensures r.None? ==> forall i :: 0 <= i < |tickets| ==> tickets[i].channelId != channelId
  {
    if tickets == [] then None
    else if tickets[0].channelId == channelId then Some(0)
    else match ChannelTicket(tickets[1..], channelId)
      case None => None
      case Some(i) => Some(i + 1)
  }

  /** Deleting a ticket and closing one keep the desk's invariant. */
  lemma DeleteAndCloseKeepValid(tickets: seq<Ticket>, counter: int, channelId: string, adminMessageId: string)
    requires TicketsValid(tickets, counter)
    ensures TicketsValid(UpdateChannel(tickets, channelId, Some(Deleted), None), counter)
    ensures TicketsValid(UpdateChannel(tickets, channelId, None, Some(adminMessageId)), counter)
  {
    UpdateKeepsOwners(tickets, channelId, Some(Deleted), None);
    RewriteKeepsValid(tickets, counter, UpdateChannel(tickets, channelId, Some(Deleted), None));
    UpdateKeepsOwners(tickets, channelId, None, Some(adminMessageId));
    RewriteKeepsValid(tickets, counter, UpdateChannel(tickets, channelId, None, Some(adminMessageId)));
  }

  /** Reopening a channel none of whose rows is deleted keeps the desk's invariant. */
  lemma ReopenKeepsValid(tickets: seq<Ticket>, counter: int, channelId: string)
    requires TicketsValid(tickets, counter)
    requires forall i :: 0 <= i < |tickets| && tickets[i].channelId == channelId ==> tickets[i].status != Deleted
    ensures TicketsValid(UpdateChannel(tickets, channelId, Some(Open), None), counter)
  {
    var r := UpdateChannel(tickets, channelId, Some(Open), None);
    forall i | 0 <= i < |tickets|
      ensures r[i].number == tickets[i].number && r[i].discordId == tickets[i].discordId && (tickets[i].status == Deleted ==> r[i].status == Deleted)
    {
    }
    RewriteKeepsValid(tickets, counter, r);
  }

  /**
   * Reopening a deleted ticket's channel (its button still works until the
   * channel goes, five seconds later or never if that fails) can give the
   * owner a second live ticket when they opened a new one meanwhile.
   */
  lemma ReopenRevivesDeleted()
    ensures var tickets := [Ticket(1, "u", "Steve", "chA", Deleted, None), Ticket(2, "u", "Steve", "chB", Open, None)];
            TicketsValid(tickets, 2) && !TicketsValid(UpdateChannel(tickets, "chA", Some(Open), None), 2)
  {
    var tickets := [Ticket(1, "u", "Steve", "chA", Deleted, None), Ticket(2, "u", "Steve", "chB", Open, None)];
    var r := UpdateChannel(tickets, "chA", Some(Open), None);
    assert r[0].status == Open && r[1].status == Open && r[0].discordId == r[1].discordId;
  }

  /** A channel update leaves numbers and owners alone and never revives a deleted row unless it sets a status other than deleted. */
  lemma UpdateKeepsOwners(tickets: seq<Ticket>, channelId: string, status: Option<TicketStatus>, adminMessageId: Option<string>)
    requires status.None? || status == Some(Deleted)
    ensures var r := UpdateChannel(tickets, channelId, status, adminMessageId);
            forall i :: 0 <= i < |tickets| ==>
              r[i].number == tickets[i].number && r[i].discordId == tickets[i].discordId && (tickets[i].status == Deleted ==> r[i].status == Deleted)
  {
    var r := UpdateChannel(tickets, channelId, status, adminMessageId);
    forall i | 0 <= i < |tickets|
      ensures r[i].number == tickets[i].number && r[i].discordId == tickets[i].discordId && (tickets[i].status == Deleted ==> r[i].status == Deleted)
    {
      if tickets[i].channelId == channelId {
        assert r[i] == tickets[i].(status := status.GetOr(tickets[i].status), adminMessageId := if adminMessageId.Some? then adminMessageId else tickets[i].adminMessageId);
      }
    }
  }

  /** Rewriting rows without touching numbers or owners, and without reviving deleted rows, keeps the invariant. */
  lemma RewriteKeepsValid(tickets: seq<Ticket>, counter: int, r: seq<Ticket>)
    requires TicketsValid(tickets, counter) && |r| == |tickets|
    requires forall i :: 0 <= i < |tickets| ==>
               r[i].number == tickets[i].number && r[i].discordId == tickets[i].discordId && (tickets[i].status == Deleted ==> r[i].status == Deleted)
    ensures TicketsValid(r, counter)
  {
  }

  /** The ticket buttons over the database's `tickets` table and counter. */
  class TicketDesk {
    const db: Database

    constructor (db: Database)
      ensures this.db == db
    {
      this.db := db;
    }

    /** "create_ticket", where `fail` is the step that throws, if any. */
    method Create(user: string, linkedName: Option<string>, channelId: string, fail: Option<CreateStep>) returns (o: TicketOutcome)
      modifies db`tickets, db`ticketCounter
      ensures (db.tickets, db.ticketCounter, o) == CreateTicket(old(db.tickets), old(db.ticketCounter), user, linkedName, channelId, fail)
      ensures TicketsValid(old(db.tickets), old(db.ticketCounter)) ==> TicketsValid(db.tickets, db.ticketCounter)
    {
      if fail == Some(Lookup) {
        return CreateFailed;
      }
      var existing := LiveTicket(db.tickets, user);
      if existing.Some? {
        return AlreadyOpen(db.tickets[existing.value].channelId);
      }
      if fail == Some(Counter) {
        return CreateFailed;
      }
      var mcName := if linkedName.Some? && linkedName.value != "" then linkedName.value else "Unknown";
      var ticketNumber := db.ticketCounter + 1;
      var ticketName := TicketName(ticketNumber);
      var row := Ticket(ticketNumber, user, mcName, channelId, Open, None);
      if TicketsValid(db.tickets, db.ticketCounter) {
        AppendValid(db.tickets, db.ticketCounter, row);
      }
      db.ticketCounter := ticketNumber;
      if fail == Some(ChannelCreate) || fail == Some(Insert) {
        return CreateFailed;
      }
      db.tickets := db.tickets + [row];
      if fail == Some(Welcome) {
        return CreateFailed;
      }
      o := Created(ticketNumber, ticketName, mcName);
    }

    /** "confirm_close_ticket": the owner loses sight of the channel (not modelled) and the admin panel's message id is stored; the status stays as it was. */
    method Close(channelId: string, adminMessageId: string)
      modifies db`tickets
      ensures db.tickets == UpdateChannel(old(db.tickets), channelId, None, Some(adminMessageId))
    {
      db.tickets := UpdateChannel(db.tickets, channelId, None, Some(adminMessageId));
    }

    /** "reopen_ticket": with a known owner the channel's rows are set open again; `reopened` says whether there was one. */
    method Reopen(channelId: string) returns (reopened: bool)
      modifies db`tickets
      ensures var t := ChannelTicket(old(db.tickets), channelId);
              reopened <==> t.Some? && old(db.tickets)[t.value].discordId != ""
      ensures db.tickets == if reopened then UpdateChannel(old(db.tickets), channelId, Some(Open), None) else old(db.tickets)
      ensures TicketsValid(old(db.tickets), old(db.ticketCounter))
              && (forall i :: 0 <= i < |old(db.tickets)| && old(db.tickets)[i].channelId == channelId ==> old(db.tickets)[i].status != Deleted)
              ==> TicketsValid(db.tickets, db.ticketCounter)
    {
      if TicketsValid(db.tickets, db.ticketCounter)
         && forall i :: 0 <= i < |db.tickets| && db.tickets[i].channelId == channelId ==> db.tickets[i].status != Deleted {
        ReopenKeepsValid(db.tickets, db.ticketCounter, channelId);
      }
      var t := ChannelTicket(db.tickets, channelId);
      if t.None? || db.tickets[t.value].discordId == "" {
        return false;
      }
      db.tickets := UpdateChannel(db.tickets, channelId, Some(Open), None);
      reopened := true;
    }

    /** "delete_ticket": the channel's rows are marked deleted (the channel itself goes five seconds later). */
    method Delete(channelId: string)
      modifies db`tickets
      ensures db.tickets == UpdateChannel(old(db.tickets), channelId, Some(Deleted), None)
      ensures TicketsValid(old(db.tickets), old(db.ticketCounter)) ==> TicketsValid(db.tickets, db.ticketCounter)
    {
      if TicketsValid(db.tickets, db.ticketCounter) {
        DeleteAndCloseKeepValid(db.tickets, db.ticketCounter, channelId, "");
      }
      db.tickets := UpdateChannel(db.tickets, channelId, Some(Deleted), None);
    }
  }
}
