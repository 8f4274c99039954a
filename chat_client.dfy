// The sending and receiving side of the two chat pages: a ten-second send
// cooldown counted down once a second, what a send emits (an image upload
// or a socket message, with the public user's stored token or the admin's
// fixed one), and which incoming messages are appended to the list.
module ChatClient {
  import opened Wrappers
  import opened Text
  import opened ChatParse

  const CooldownMs := 10000

  /** Who sends: the public page with the token and name it stored after verification, or the admin page with the signed-in admin's name, if known. */
  datatype Sender = Public(token: Option<string>, userName: Option<string>) | Admin(adminName: Option<string>)

  /** `adminUser?.name || "admin"` on the admin page, the stored name on the public one. */
  function AuthorName(who: Sender): Option<string>
  {
    match who
    case Public(_, name) => name
    case Admin(name) => if name.Some? && name.value != "" then name else Some("admin")
  }

  function Token(who: Sender): Option<string>
  {
    match who
    case Public(token, _) => token
    case Admin(_) => Some("admin")
  }

  /** What a send hands to the server: an image upload with its caption, or a socket chat message. */
  datatype Outgoing =
    | Upload(caption: string, authorName: Option<string>)
    | Emit(message: string, token: Option<string>, authorName: Option<string>)

  datatype SendOutcome = CoolingDown(remainingSeconds: int) | NothingToSend | Sent(out: Outgoing)

  datatype ChatState = ChatState(messages: seq<ChatMessage>, input: string, imageAttached: bool, lastSent: int, cooldownRemaining: int)

  /** `Math.ceil(10 - elapsedMs / 1000)` for an elapsed time under ten seconds. */
  function RemainingSeconds(elapsedMs: int): (r: int)
    requires elapsedMs < CooldownMs
    ensures (r - 1) * 1000 < CooldownMs - elapsedMs <= r * 1000
    ensures r >= 1
    ensures elapsedMs >= 0 ==> r <= 10
  {
    (CooldownMs - elapsedMs + 999) / 1000
  }

  /** `sendMessage` at time `now` (milliseconds). */
  function Send(s: ChatState, now: int, who: Sender): (ChatState, SendOutcome)
  {
    var elapsed := now - s.lastSent;
    if elapsed < CooldownMs then
      var r := RemainingSeconds(elapsed);
      (s.(cooldownRemaining := r), CoolingDown(r))
    else if IsBlank(s.input) && !s.imageAttached then (s, NothingToSend)
    else
      var out := if s.imageAttached then Upload(Trim(s.input), AuthorName(who))
                 else Emit(Trim(s.input), Token(who), AuthorName(who));
      (s.(lastSent := now, cooldownRemaining := 0, input := "", imageAttached := false), Sent(out))
  }

  /** One tick of the countdown interval. */
  function Tick(c: int): (r: int)
    ensures r >= 0
    ensures c > 0 ==> r == c - 1
    ensures c <= 0 ==> r == 0
  {
    if c - 1 > 0 then c - 1 else 0
  }

  function Ticks(c: int, n: nat): int
  {
    if n == 0 then c else Tick(Ticks(c, n - 1))
  }

  /** `handleChatMessage`: a message is listed when its text is not blank or it carries an image. */
  predicate Listed(m: ChatMessage)
  {
    !IsBlank(RawText(m)) || ImageOf(m).Some?
  }

  function Received(s: ChatState, m: ChatMessage): ChatState
  {
    if Listed(m) then s.(messages := s.messages + [m]) else s
  }

  /** A send within ten seconds of the last one is refused with the whole seconds still to wait, and only the countdown changes. */
  lemma CooldownRule(s: ChatState, now: int, who: Sender)
    requires now - s.lastSent < CooldownMs
    ensures var (s', o) := Send(s, now, who);
            && o.CoolingDown?
            && (o.remainingSeconds - 1) * 1000 < CooldownMs - (now - s.lastSent) <= o.remainingSeconds * 1000
            && s' == s.(cooldownRemaining := o.remainingSeconds)
  {
  }

  /** Once the cooldown has passed, blank input with no image sends nothing and keeps the time of the last send. */
  lemma BlankNotSent(s: ChatState, now: int, who: Sender)
    requires now - s.lastSent >= CooldownMs && IsBlank(s.input) && !s.imageAttached
    ensures Send(s, now, who) == (s, NothingToSend)
  {
  }

  /** A send goes out exactly when the cooldown has passed and there is text or an image; it carries the trimmed text, restarts the cooldown and clears the input. */
  lemma SendRule(s: ChatState, now: int, who: Sender)
    ensures var (s', o) := Send(s, now, who);
            && (o.Sent? <==> now - s.lastSent >= CooldownMs && (!IsBlank(s.input) || s.imageAttached))
            && (o.Sent? ==> s'.lastSent == now && s'.cooldownRemaining == 0 && s'.input == "" && !s'.imageAttached && s'.messages == s.messages)
            && (o.Sent? ==> (o.out.Upload? <==> s.imageAttached))
            && (o.Sent? && o.out.Upload? ==> o.out.caption == Trim(s.input))
            && (o.Sent? && o.out.Emit? ==> o.out.message == Trim(s.input) && o.out.message != "")
  {
  }

  /** The admin page always sends the fixed token "admin" and a non-empty name. */
  lemma AdminSendsAsAdmin(s: ChatState, now: int, name: Option<string>)
    ensures var (_, o) := Send(s, now, Admin(name));
            o.Sent? && o.out.Emit? ==> o.out.token == Some("admin") && o.out.authorName.Some? && o.out.authorName.value != ""
  {
  }

  /** Two sends less than ten seconds apart: the second is refused. */
  lemma NoTwoSendsWithinCooldown(s: ChatState, now: int, later: int, who: Sender)
    requires now <= later < now + CooldownMs
    ensures var (s', o) := Send(s, now, who);
            o.Sent? ==> Send(s', later, who).1.CoolingDown?
  {
  }

  /** After `n` ticks the countdown has gone down by `n`, stopping at zero. */
  lemma {:induction false} TicksCountDown(c: int, n: nat)
    requires c >= 0
    ensures Ticks(c, n) == if c - n > 0 then c - n else 0
  {
    if n > 0 {
      TicksCountDown(c, n - 1);
    }
  }

  /** Receiving only ever appends, and appends exactly the listed messages. */
  lemma ReceiveRule(s: ChatState, m: ChatMessage)
    ensures var s' := Received(s, m);
            && s.messages <= s'.messages
            && (|s'.messages| == |s.messages| + 1 <==> Listed(m))
            && (Listed(m) ==> s'.messages[|s.messages|] == m)
  {
  }

  /** A message without text or image, or with blank text and no image, is not listed. */
  lemma EmptyNotListed(text: string, image: Option<string>)
    requires IsBlank(text) && (image.None? || image == Some(""))
    ensures !Listed(Plain(text)) && !Listed(Record(Some(text), image, None)) && !Listed(Record(None, image, None)) && !Listed(Other)
  {
    assert AllSpace("");
    assert IsBlank("");
    assert ImageOf(Record(Some(text), image, None)) == None;
    assert ImageOf(Record(None, image, None)) == None;
  }

  /** The state one chat page keeps. */
  class ChatPage {
    var messages: seq<ChatMessage>
    var input: string
    var imageAttached: bool
    var lastSent: int
    var cooldownRemaining: int

    constructor ()
      ensures State() == ChatState([], "", false, 0, 0)
    {
      messages, input, imageAttached, lastSent, cooldownRemaining := [], "", false, 0, 0;
    }

    function State(): ChatState
      reads this
    {
      ChatState(messages, input, imageAttached, lastSent, cooldownRemaining)
    }

    /** The input box's change handler. */
    method Type(text: string)
      modifies this
      ensures State() == old(State()).(input := text)
    {
      input := text;
    }

    /** The file picker: an image is attached to the next send. */
    method AttachImage()
      modifies this
      ensures State() == old(State()).(imageAttached := true)
    {
      imageAttached := true;
    }

    /** `sendMessage`. */
    method SendMessage(now: int, who: Sender) returns (o: SendOutcome)
      modifies this
      ensures (State(), o) == Send(old(State()), now, who)
    {
      ghost var s := State();
      var secondsSinceLast := now - lastSent;
      if secondsSinceLast < CooldownMs {
        cooldownRemaining := RemainingSeconds(secondsSinceLast);
        assert State() == s.(cooldownRemaining := cooldownRemaining);
        return CoolingDown(cooldownRemaining);
      }
      if IsBlank(input) && !imageAttached {
        assert State() == s;
        return NothingToSend;
      }
      var message := Trim(input);
      if imageAttached {
        o := Sent(Upload(message, AuthorName(who)));
      } else {
        o := Sent(Emit(message, Token(who), AuthorName(who)));
      }
      lastSent, cooldownRemaining, input, imageAttached := now, 0, "", false;
      assert State() == s.(lastSent := now, cooldownRemaining := 0, input := "", imageAttached := false);
    }

    /** One firing of the countdown interval. */
    method TickCooldown()
      modifies this
      ensures State() == old(State()).(cooldownRemaining := Tick(old(cooldownRemaining)))
    {
      cooldownRemaining := if cooldownRemaining - 1 > 0 then cooldownRemaining - 1 else 0;
    }

    /** `handleChatMessage`. */
    method HandleChatMessage(m: ChatMessage)
      modifies this
      ensures State() == Received(old(State()), m)
    {
      if !Listed(m) {
        return;
      }
      messages := messages + [m];
    }

    /** `handleChatHistory`: the server's history replaces the list, unfiltered. */
    method HandleChatHistory(history: seq<ChatMessage>)
      modifies this
      ensures State() == old(State()).(messages := history)
    {
      messages := history;
    }
  }
}
