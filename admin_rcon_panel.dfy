// The admin page's command panel: the console (its own bounded log merged with
// the page's by time), the colour class of each log line, the player-name
// autocomplete and the vanish toggle's three RCON round trips.
module AdminRconPanel {
  import opened Wrappers
  import opened Text
  import opened Sequences
  import opened AdminPanel
  import Forms

  const Warning := "⚠️"
  const Cross := "❌"
  const Check := "✅"
  const Hourglass := "⏳"
  const RunningText := "Running..."

  datatype Kind = ErrorLine | SuccessLine | RunningLine | PlainLine

  /** `renderLog`'s class: an error marker wins over a success mark, which wins over a running one. */
  function Classify(text: string): Kind
  {
    if Contains(text, Warning) || Contains(text, Cross) then ErrorLine
    else if Contains(text, Check) then SuccessLine
    else if Contains(text, Hourglass) || Contains(text, RunningText) then RunningLine
    else PlainLine
  }

  /** An error marker anywhere makes the line an error, whatever else it holds. */
  lemma ErrorWins(a: string, b: string)
    ensures Classify(a + Warning + b) == ErrorLine
    ensures Classify(a + Cross + b) == ErrorLine
  {
    ContainsPlaced(a, Warning, b);
    ContainsPlaced(a, Cross, b);
  }

  /** A line opening with the check mark is a success unless an error marker follows. */
  lemma SuccessMarked(rest: string)
    requires !Contains(rest, Warning) && !Contains(rest, Cross)
    ensures Classify(Check + rest) == SuccessLine
  {
    ContainsAfterChar(Check[0], rest, Warning);
    ContainsAfterChar(Check[0], rest, Cross);
    assert Check + rest == [Check[0]] + rest;
    ContainsPlaced([], Check, rest);
    assert [] + Check + rest == Check + rest;
  }

  /** A line opening with the hourglass is running unless an error or success marker follows. */
  lemma RunningMarked(rest: string)
    requires !Contains(rest, Warning) && !Contains(rest, Cross) && !Contains(rest, Check)
    ensures Classify(Hourglass + rest) == RunningLine
  {
    ContainsAfterChar(Hourglass[0], rest, Warning);
    ContainsAfterChar(Hourglass[0], rest, Cross);
    ContainsAfterChar(Hourglass[0], rest, Check);
    assert Hourglass + rest == [Hourglass[0]] + rest;
    ContainsPlaced([], Hourglass, rest);
    assert [] + Hourglass + rest == Hourglass + rest;
  }

  /** The autocomplete list: the names holding the typed text, ignoring case, in the list's order. */
  function Suggestions(names: seq<string>, input: string): seq<string>
  {
    Filter(names, (n: string) => ContainsIgnoreCase(n, input))
  }

  /** Exactly the names holding the input are offered, and an empty input offers them all. */
  lemma SuggestionsRule(names: seq<string>, input: string, n: string)
    ensures n in names ==> (n in Suggestions(names, input) <==> ContainsIgnoreCase(n, input))
    ensures forall s | s in Suggestions(names, input) :: ContainsIgnoreCase(s, input)
    ensures input == "" ==> Suggestions(names, input) == names
  {
    var keep := (m: string) => ContainsIgnoreCase(m, input);
    FilterKeepsAll(names, keep, n);
    if input == "" {
      assert ToLower(input) == "";
      forall i | 0 <= i < |names| ensures keep(names[i]) {
        assert StartsWith(ToLower(names[i]), "");
      }
      FilterKeepsEverything(names, keep);
    }
  }

  predicate SortedByTime(s: seq<LogEntry>)
  {
    forall i, j | 0 <= i < j < |s| :: s[i].time <= s[j].time
  }

  /** In a sorted list no later entry is older than the head, nor is a newer entry put among them. */
  lemma HeadNotNewer(s: seq<LogEntry>, e: LogEntry, rest: seq<LogEntry>)
    requires s != [] && e.time > s[0].time
    requires multiset(rest) == multiset(s[1..]) + multiset{e}
    ensures SortedByTime(s) ==> forall x | x in multiset(rest) :: x.time >= s[0].time
  {
    if SortedByTime(s) {
      forall x | x in multiset(rest) ensures x.time >= s[0].time {
        if x != e {
          assert x in multiset(s[1..]);
          var k :| 0 <= k < |s[1..]| && s[1..][k] == x;
          assert s[k + 1] == x;
        }
      }
    }
  }

  /** Puts `e` before the first entry not older than it. */
  function InsertByTime(e: LogEntry, s: seq<LogEntry>): (r: seq<LogEntry>)
    ensures multiset(r) == multiset(s) + multiset{e}
  {
    if s == [] || e.time <= s[0].time then [e] + s
    else
      assert s == [s[0]] + s[1..];
      [s[0]] + InsertByTime(e, s[1..])
  }

  /** Inserting into a sorted list keeps it sorted. */
  lemma {:induction false} InsertSorted(e: LogEntry, s: seq<LogEntry>)
    requires SortedByTime(s)
    ensures SortedByTime(InsertByTime(e, s))
  {
    if s == [] || e.time <= s[0].time {
      assert forall j | 0 <= j < |s| :: s[0].time <= s[j].time;
    } else {
      var rest := InsertByTime(e, s[1..]);
      InsertSorted(e, s[1..]);
      HeadNotNewer(s, e, rest);
      var r := [s[0]] + rest;
      forall i, j | 0 <= i < j < |r| ensures r[i].time <= r[j].time {
        if i == 0 {
          assert r[j] in multiset(rest);
        }
      }
    }
  }

  /** `.sort((a, b) => a.time - b.time)`: the same entries, oldest first. */
  function SortByTime(s: seq<LogEntry>): (r: seq<LogEntry>)
    ensures multiset(r) == multiset(s)
    ensures SortedByTime(r)
  {
    if s == [] then []
    else
      assert s == [s[0]] + s[1..];
      var t := SortByTime(s[1..]);
      InsertSorted(s[0], t);
      InsertByTime(s[0], t)
  }

  /** `mergedLogs`: the panel's and the page's entries, by time, the newest fifty. */
  function MergedLogs(local: seq<LogEntry>, parent: seq<LogEntry>): seq<LogEntry>
  {
    LastN(SortByTime(local + parent), LogCap)
  }

  /** The console shows at most fifty entries, oldest first, all of them when there are no more, and an entry left out is never newer than one shown. */
  lemma MergedRule(local: seq<LogEntry>, parent: seq<LogEntry>)
    ensures var r := MergedLogs(local, parent);
            && |r| <= LogCap
            && SortedByTime(r)
            && multiset(r) <= multiset(local + parent)
            && (|local + parent| <= LogCap ==> multiset(r) == multiset(local + parent))
            && (forall x, y | x in multiset(local + parent) - multiset(r) && y in r :: x.time <= y.time)
  {
    var all := local + parent;
    var sorted := SortByTime(all);
    var r := MergedLogs(local, parent);
    var k := |sorted| - |r|;
    SuffixOfSorted(sorted, k);
    assert r == sorted[k..];
    assert multiset(sorted) == multiset(all);
    forall x: LogEntry, y: LogEntry | x in multiset(all) - multiset(r) && y in r
      ensures x.time <= y.time
    {
      assert x in multiset(sorted) - multiset(sorted[k..]);
    }
  }

  /** A suffix of a sorted list is sorted, holds part of its entries, and no entry before it is newer than one in it. */
  lemma SuffixOfSorted(sorted: seq<LogEntry>, k: nat)
    requires SortedByTime(sorted) && k <= |sorted|
    ensures SortedByTime(sorted[k..])
    ensures multiset(sorted) == multiset(sorted[..k]) + multiset(sorted[k..])
    ensures forall x, y | x in multiset(sorted) - multiset(sorted[k..]) && y in sorted[k..] :: x.time <= y.time
  {
    var front, back := sorted[..k], sorted[k..];
    assert multiset(sorted) == multiset(front) + multiset(back) by {
      assert sorted == front + back;
    }
    FrontNotNewer(sorted, k);
  }

  lemma FrontNotNewer(sorted: seq<LogEntry>, k: nat)
    requires SortedByTime(sorted) && k <= |sorted|
    requires multiset(sorted) == multiset(sorted[..k]) + multiset(sorted[k..])
    ensures forall x, y | x in multiset(sorted) - multiset(sorted[k..]) && y in sorted[k..] :: x.time <= y.time
  {
    var front, back := sorted[..k], sorted[k..];
    forall x, y | x in multiset(sorted) - multiset(back) && y in back
      ensures x.time <= y.time
    {
      assert x in multiset(front);
      var i :| 0 <= i < k && front[i] == x;
      var j :| 0 <= j < |back| && back[j] == y;
      assert sorted[i] == x && sorted[k + j] == y;
    }
  }

  /** An RCON route's JSON answer. */
  datatype RconReply = RconReply(response: Option<string>, error: Option<string>)

  /** `(data.response || data.error || "")`. */
  function ReplyText(r: RconReply): string
  {
    if !Forms.Falsy(r.response) then r.response.value
    else if !Forms.Falsy(r.error) then r.error.value
    else ""
  }

  /** `/no player (was )?found/i`. */
  predicate NoPlayerFound(text: string)
  {
    Contains(ToLower(text), "no player found") || Contains(ToLower(text), "no player was found")
  }

  /** `(verifyData.response || "")`. */
  function ResponseText(r: RconReply): string
  {
    if Forms.Falsy(r.response) then "" else r.response.value
  }

  const CheckingStatus := Hourglass + " Checking vanish status..."
  const MustBeOnline := Warning + " You must be online in Minecraft to use the vanish toggle."
  const SendingToggle := Hourglass + " Sending vanish toggle..."
  const CouldNotVerify := Warning + " Could not verify vanish state. You might be offline."
  const UnexpectedError := Cross + " Unexpected error occurred."

  function VanishDone(vanished: bool): string
  {
    Check + (if vanished then " Vanish enabled." else " Vanish disabled.")
  }

  /** What one press of the toggle does: the RCON commands sent, the console lines, the new switch state and the state saved. */
  datatype VanishStep = VanishStep(commands: seq<string>, messages: seq<string>, vanished: Option<bool>)

  /** `toggleVanish`; each reply is None when its request or JSON failed, and `saveOk` says whether saving the state succeeded. */
  function ToggleVanish(mcName: string, check: Option<RconReply>, toggle: Option<RconReply>, verify: Option<RconReply>, saveOk: bool): (r: VanishStep)
    ensures |r.messages| >= 2
  {
    var get, flip := "/v get " + mcName, "/v toggle " + mcName;
    if check.None? then VanishStep([get], [CheckingStatus, UnexpectedError], None)
    else if NoPlayerFound(ReplyText(check.value)) then VanishStep([get], [CheckingStatus, MustBeOnline], None)
    else if toggle.None? then VanishStep([get, flip], [CheckingStatus, SendingToggle, UnexpectedError], None)
    else if verify.None? then VanishStep([get, flip, get], [CheckingStatus, SendingToggle, UnexpectedError], None)
    else
      var text := ResponseText(verify.value);
      if NoPlayerFound(text) then VanishStep([get, flip, get], [CheckingStatus, SendingToggle, CouldNotVerify], None)
      else
        var v := Contains(ToLower(text), "currently vanished");
        VanishStep([get, flip, get], [CheckingStatus, SendingToggle, VanishDone(v)] + (if saveOk then [] else [UnexpectedError]), Some(v))
  }

  /** The toggle is sent only when the first check found the player; the switch changes only after a verifying `/v get` that found the player, and then shows whether that reply says "currently vanished". */
  lemma VanishToggleRule(mcName: string, check: Option<RconReply>, toggle: Option<RconReply>, verify: Option<RconReply>, saveOk: bool)
    ensures var step := ToggleVanish(mcName, check, toggle, verify, saveOk);
            && step.commands[0] == "/v get " + mcName
            && (("/v toggle " + mcName) in step.commands <==> check.Some? && !NoPlayerFound(ReplyText(check.value)))
            && (step.vanished.Some? <==>
                  && check.Some? && !NoPlayerFound(ReplyText(check.value)) && toggle.Some? && verify.Some?
                  && !NoPlayerFound(ResponseText(verify.value)))
            && (step.vanished.Some? ==> step.vanished.value == Contains(ToLower(ResponseText(verify.value)), "currently vanished"))
            && step.messages[0] == CheckingStatus
  {
    var get, flip := "/v get " + mcName, "/v toggle " + mcName;
    assert get != flip by {
      assert get[3] == 'g' && flip[3] == 't';
    }
  }

  /** Plain ASCII text holds none of the emoji markers. */
  lemma AsciiHasNoMarker(s: string)
    requires forall i | 0 <= i < |s| :: s[i] as int < 128
    ensures !Contains(s, Warning) && !Contains(s, Cross) && !Contains(s, Check)
  {
    ContainsNeedsFirst(s, Warning);
    ContainsNeedsFirst(s, Cross);
    ContainsNeedsFirst(s, Check);
  }

  lemma CheckingIsRunning()
    ensures Classify(CheckingStatus) == RunningLine
  {
    var rest := " Checking vanish status...";
    assert forall i | 0 <= i < |rest| :: rest[i] as int < 128;
    AsciiHasNoMarker(rest);
    RunningMarked(rest);
  }

  lemma FailuresAreErrors()
    ensures Classify(MustBeOnline) == ErrorLine
    ensures Classify(CouldNotVerify) == ErrorLine
    ensures Classify(UnexpectedError) == ErrorLine
  {
    var online, unverified, unexpected := " You must be online in Minecraft to use the vanish toggle.",
      " Could not verify vanish state. You might be offline.", " Unexpected error occurred.";
    ErrorWins([], online);
    assert [] + Warning + online == MustBeOnline;
    ErrorWins([], unverified);
    assert [] + Warning + unverified == CouldNotVerify;
    ErrorWins([], unexpected);
    assert [] + Cross + unexpected == UnexpectedError;
  }

  lemma DoneIsSuccess(v: bool)
    ensures Classify(VanishDone(v)) == SuccessLine
  {
    var rest := if v then " Vanish enabled." else " Vanish disabled.";
    assert forall i | 0 <= i < |rest| :: rest[i] as int < 128;
    AsciiHasNoMarker(rest);
    SuccessMarked(rest);
  }

  /** The press's console lines: a running line first, and an error line last unless the state was set and saved. */
  lemma VanishMessagesKinds(mcName: string, check: Option<RconReply>, toggle: Option<RconReply>, verify: Option<RconReply>, saveOk: bool)
    ensures var step := ToggleVanish(mcName, check, toggle, verify, saveOk);
            && Classify(step.messages[0]) == RunningLine
            && (step.vanished.Some? && saveOk ==> Classify(step.messages[|step.messages| - 1]) == SuccessLine)
            && (!(step.vanished.Some? && saveOk) ==> Classify(step.messages[|step.messages| - 1]) == ErrorLine)
  {
    var step := ToggleVanish(mcName, check, toggle, verify, saveOk);
    VanishEnds(mcName, check, toggle, verify, saveOk);
    CheckingIsRunning();
    FailuresAreErrors();
    if step.vanished.Some? && saveOk {
      DoneIsSuccess(step.vanished.value);
    }
  }

  /** The first line is the status check; the last is the outcome, or the failure that stopped the press. */
  lemma VanishEnds(mcName: string, check: Option<RconReply>, toggle: Option<RconReply>, verify: Option<RconReply>, saveOk: bool)
    ensures var step := ToggleVanish(mcName, check, toggle, verify, saveOk);
            var last := step.messages[|step.messages| - 1];
            && step.messages[0] == CheckingStatus
            && (step.vanished.Some? && saveOk ==> last == VanishDone(step.vanished.value))
            && (!(step.vanished.Some? && saveOk) ==> last == MustBeOnline || last == CouldNotVerify || last == UnexpectedError)
  {
  }

  /** The console entries for `messages`, all logged at `now`. */
  function Stamped(messages: seq<string>, now: int): (r: seq<LogEntry>)
    ensures |r| == |messages|
    ensures forall i | 0 <= i < |r| :: r[i] == LogEntry(messages[i], now)
  {
    seq(|messages|, i requires 0 <= i < |messages| => LogEntry(messages[i], now))
  }

  lemma StampedCons(messages: seq<string>, now: int)
    requires messages != []
    ensures Stamped(messages, now) == [LogEntry(messages[0], now)] + Stamped(messages[1..], now)
  {
  }

  lemma StampedAfter(before: seq<LogEntry>, messages: seq<string>, now: int)
    requires messages != []
    ensures before + [LogEntry(messages[0], now)] + Stamped(messages[1..], now) == before + Stamped(messages, now)
  {
    StampedCons(messages, now);
  }

  /** `sendCommand`'s console lines: "Running..." and then the reply's text, or "No response" when it has none; a request that fails stops after the first line. */
  function CommandLines(reply: Option<RconReply>): (r: seq<string>)
    ensures r != [] && r[0] == RunningText
    ensures |r| == 2 <==> reply.Some?
    ensures reply.Some? && ReplyText(reply.value) != "" ==> r[1] == ReplyText(reply.value)
    ensures reply.Some? && ReplyText(reply.value) == "" ==> r[1] == "No response"
  {
    if reply.None? then [RunningText]
    else [RunningText, if ReplyText(reply.value) == "" then "No response" else ReplyText(reply.value)]
  }

  /** A command's first line is a running line. */
  lemma CommandStartsRunning(reply: Option<RconReply>)
    ensures Classify(CommandLines(reply)[0]) == RunningLine
  {
    var s := RunningText;
    assert forall i | 0 <= i < |s| :: s[i] as int < 128;
    AsciiHasNoMarker(s);
    ContainsPlaced([], s, []);
    assert [] + s + [] == s;
  }

  /** The panel's console state. */
  class Console {
    var consoleOpen: bool
    var consoleLogs: seq<LogEntry>
    /** The length of the page's log list when last seen. */
    var prevLogsLength: nat
    var isVanished: Option<bool>
    ghost var history: seq<LogEntry>

    ghost predicate Valid()
      reads this
    {
      consoleLogs == LastN(history, LogCap)
    }

    constructor ()
      ensures Valid() && !consoleOpen && consoleLogs == [] && prevLogsLength == 0 && isVanished.None? && history == []
    {
      consoleOpen, consoleLogs, prevLogsLength, isVanished := false, [], 0, None;
      history := [];
    }

    /** The effect on the page's log list: the console opens when the list grew. */
    method OnLogs(logs: seq<LogEntry>)
      modifies this`consoleOpen, this`prevLogsLength
      ensures consoleOpen == (old(consoleOpen) || |logs| > old(prevLogsLength))
      ensures prevLogsLength == |logs|
    {
      if |logs| > prevLogsLength {
        consoleOpen := true;
      }
      prevLogsLength := |logs|;
    }

    /** `appendLog`: opens the console and keeps the newest fifty entries. */
    method AppendLog(message: string, now: int)
      requires Valid()
      modifies this`consoleOpen, this`consoleLogs, this`history
      ensures Valid() && consoleOpen
      ensures history == old(history) + [LogEntry(message, now)]
      ensures consoleLogs == AppendBounded(old(consoleLogs), LogEntry(message, now), LogCap)
    {
      AppendBoundedKeepsNewest(history, LogEntry(message, now), LogCap);
      consoleOpen := true;
      consoleLogs := LastN(consoleLogs, LogCap - 1) + [LogEntry(message, now)];
      history := history + [LogEntry(message, now)];
    }

    /** `appendLog` for each message in turn. */
    method LogAll(messages: seq<string>, now: int)
      requires Valid()
      modifies this`consoleOpen, this`consoleLogs, this`history
      ensures Valid()
      ensures consoleOpen == (old(consoleOpen) || |messages| > 0)
      ensures history == old(history) + Stamped(messages, now)
    {
      if messages != [] {
        ghost var before := history;
        AppendLog(messages[0], now);
        LogAll(messages[1..], now);
        StampedAfter(before, messages, now);
      }
    }

    /** `sendCommand`: both lines are logged at `now`; `reply` is None when the request or its JSON failed. */
    method SendCommand(reply: Option<RconReply>, now: int)
      requires Valid()
      modifies this`consoleOpen, this`consoleLogs, this`history
      ensures Valid() && consoleOpen
      ensures history == old(history) + Stamped(CommandLines(reply), now)
    {
      LogAll(CommandLines(reply), now);
    }

    /** One press of the vanish switch; every line is logged at `now`. */
    method ToggleVanishPressed(mcName: string, check: Option<RconReply>, toggle: Option<RconReply>, verify: Option<RconReply>, saveOk: bool, now: int)
      returns (step: VanishStep)
      requires Valid()
      modifies this`consoleOpen, this`consoleLogs, this`history, this`isVanished
      ensures Valid() && consoleOpen
      ensures step == ToggleVanish(mcName, check, toggle, verify, saveOk)
      ensures history == old(history) + Stamped(step.messages, now)
      ensures isVanished == if step.vanished.Some? then step.vanished else old(isVanished)
    {
      step := ToggleVanish(mcName, check, toggle, verify, saveOk);
      LogAll(step.messages, now);
      if step.vanished.Some? {
        isVanished := step.vanished;
      }
    }
  }
}
