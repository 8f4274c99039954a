// The in-game day vote run through the Discord relay channel: a ".day"
// message relayed by the server's bot opens a 30-second vote, each player
// counts once with "1" (yes) or "2" (no), and the vote's end sets the day
// on a majority and starts a cooldown either way.
module VoteDay {
  import opened Wrappers
  import opened Text
  import opened Durations

  const SuccessCooldownMs := 577100
  const FailCooldownMs := 3 * 60 * 1000

  /** "`<name>`" at the start of `s`: the name (everything up to the first ">", at least one character) and the text after the closing backtick. */
  function TaggedName(s: string): (r: Option<(string, string)>)
    ensures r.Some? ==> |r.value.0| > 0 && '>' !in r.value.0 && s == "`<" + r.value.0 + ">`" + r.value.1
  {
    if |s| < 2 || s[0] != '`' || s[1] != '<' then None
    else
      var k := IndexOf(s[2..], '>');
      if k < 1 || 2 + k + 1 >= |s| || s[2 + k + 1] != '`' then None
      else
        var name, rest := s[2..2 + k], s[2 + k + 2..];
        assert s == "`<" + name + ">`" + rest;
        Some((name, rest))
  }

  /** Every "`<name>`" prefix is recognised, so the parse is exact. */
  lemma TaggedNameComplete(name: string, rest: string)
    requires |name| > 0 && '>' !in name
    ensures TaggedName("`<" + name + ">`" + rest) == Some((name, rest))
  {
    var s := "`<" + name + ">`" + rest;
    assert s[2..][..|name|] == name && s[2..][|name|] == '>';
    var k := IndexOf(s[2..], '>');
    assert k == |name|;
    assert s[2..2 + k] == name && s[2 + k + 2..] == rest;
  }

  /** `/^`<[^>]+>`\s*\.day$/i` on the trimmed message. */
  predicate IsDayCommand(content: string)
  {
    match TaggedName(Trim(content))
    case None => false
    case Some((_, rest)) => EqualsIgnoreCase(TrimStart(rest), ".day")
  }

  lemma DayWord(space: string)
    requires space == "" || space == " "
    ensures EqualsIgnoreCase(TrimStart(space + ".Day"), ".day")
  {
    TrimStartSpaced(space, ".Day");
  }

  /** A relayed ".day", in any letter case and with or without a space after the tag, is a day command. */
  lemma DayCommandRecognised(name: string, space: string)
    requires |name| > 0 && '>' !in name && (space == "" || space == " ")
    ensures IsDayCommand("`<" + name + ">`" + space + ".Day")
  {
    var rest := space + ".Day";
    var s := "`<" + name + ">`" + rest;
    assert "`<" + name + ">`" + space + ".Day" == s;
    assert Trim(s) == s by {
      assert s[0] == '`' && s[|s| - 1] == 'y';
      TrimKeeps(s);
    }
    TaggedNameComplete(name, rest);
    DayWord(space);
  }

  /** `/^`<([^>]+)>`\s*(1|2)$/`: the voter and whether the vote is a yes. */
  function ParseVote(content: string): (r: Option<(string, bool)>)
    ensures r.Some? ==> |r.value.0| > 0 && '>' !in r.value.0
  {
    match TaggedName(content)
    case None => None
    case Some((name, rest)) =>
      if TrimStart(rest) == "1" then Some((name, true))
      else if TrimStart(rest) == "2" then Some((name, false))
      else None
  }

  /** A "1" or "2" after the tag, with or without a space, is a vote for that name. */
  lemma VoteMessages(name: string, space: string, yes: bool)
    requires |name| > 0 && '>' !in name && (space == "" || space == " ")
    ensures ParseVote("`<" + name + ">`" + space + (if yes then "1" else "2")) == Some((name, yes))
  {
    var digit := if yes then "1" else "2";
    var rest := space + digit;
    assert "`<" + name + ">`" + space + digit == "`<" + name + ">`" + rest;
    TaggedNameComplete(name, rest);
    TrimStartSpaced(space, digit);
  }

  datatype VoteState = VoteState(active: bool, cooldownUntil: int, yes: nat, no: nat, voters: set<string>)

  const Idle := VoteState(false, 0, 0, 0, {})

  /** Every counted vote belongs to exactly one voter. */
  predicate Consistent(s: VoteState)
  {
    s.yes + s.no == |s.voters|
  }

  datatype TriggerOutcome = Ignored | Busy | Wait(remainingMs: int, text: string) | Started

  /** A message of the configured bot in the game channel is a trigger when it is a day command. */
  predicate IsTrigger(fromChannel: bool, fromBot: bool, content: string)
  {
    fromChannel && fromBot && IsDayCommand(content)
  }

  /** A message in the game channel, given as whether it is a trigger. */
  function Triggered(s: VoteState, trigger: bool, now: int): (VoteState, TriggerOutcome)
  {
    if !trigger then (s, Ignored)
    else if s.active then (s, Busy)
    else if s.cooldownUntil > now then (s, Wait(s.cooldownUntil - now, MinutesSecondsText(s.cooldownUntil - now)))
    else (s.(active := true, yes := 0, no := 0, voters := {}), Started)
  }

  /** A message the vote's collector receives, given as whether the bot sent it and its parsed vote. */
  function Collected(s: VoteState, fromBot: bool, vote: Option<(string, bool)>): VoteState
  {
    if !fromBot || vote.None? then s
    else
      var (name, yes) := vote.value;
      if name in s.voters then s
      else if yes then s.(yes := s.yes + 1, voters := s.voters + {name})
      else s.(no := s.no + 1, voters := s.voters + {name})
  }

  datatype Verdict = Passed | Tie | Rejected

  /** The collector's end: the verdict, and the state with the vote closed and the cooldown started at `now`. */
  function Ended(s: VoteState, now: int): (VoteState, Verdict)
  {
    var verdict := if s.yes > s.no then Passed else if s.yes == s.no then Tie else Rejected;
    var cooldown := if verdict == Passed then SuccessCooldownMs else FailCooldownMs;
    (s.(active := false, cooldownUntil := now + cooldown), verdict)
  }

  /** A vote starts exactly on a day command while no vote runs and the cooldown has passed; it starts with no votes and leaves the cooldown deadline alone. */
  lemma StartRule(s: VoteState, trigger: bool, now: int)
    ensures var (s', o) := Triggered(s, trigger, now);
            && (o == Started <==> trigger && !s.active && s.cooldownUntil <= now)
            && (o == Started ==> s'.active && s'.yes == 0 && s'.no == 0 && s'.voters == {} && s'.cooldownUntil == s.cooldownUntil)
            && (o != Started ==> s' == s)
  {
  }

  /** A day command during the cooldown reports the time left, which is positive, and changes nothing. */
  lemma CooldownRefuses(s: VoteState, now: int)
    requires !s.active && s.cooldownUntil > now
    ensures var (s', o) := Triggered(s, true, now);
            s' == s && o.Wait? && o.remainingMs > 0 && o.remainingMs == s.cooldownUntil - now
  {
  }

  /** Collecting keeps each counted vote tied to one voter, never takes a vote back and leaves the vote's status and cooldown alone. */
  lemma CollectRule(s: VoteState, fromBot: bool, vote: Option<(string, bool)>)
    requires Consistent(s)
    ensures var s' := Collected(s, fromBot, vote);
            && Consistent(s')
            && s'.active == s.active && s'.cooldownUntil == s.cooldownUntil
            && s.voters <= s'.voters && s.yes <= s'.yes && s.no <= s'.no
  {
  }

  /** A new voter's valid vote is counted once, on its own side; a known voter's is not counted again. */
  lemma CollectCountsOnce(s: VoteState, name: string, yes: bool)
    ensures var s' := Collected(s, true, Some((name, yes)));
            && (name in s.voters ==> s' == s)
            && (name !in s.voters ==>
                  && s'.voters == s.voters + {name}
                  && s'.yes == (if yes then s.yes + 1 else s.yes)
                  && s'.no == (if yes then s.no else s.no + 1))
  {
  }

  /** Replaying the same voter's message again never changes the tally. */
  lemma RepeatVoteIgnored(s: VoteState, vote: Option<(string, bool)>)
    ensures Collected(Collected(s, true, vote), true, vote) == Collected(s, true, vote)
  {
  }

  /** The vote passes only on a strict majority, and the cooldown runs from the end: 577 100 ms after a pass, 180 000 ms after a tie or a loss. */
  lemma EndRule(s: VoteState, now: int)
    ensures var (s', v) := Ended(s, now);
            && !s'.active
            && (v == Passed <==> s.yes > s.no)
            && (v == Tie <==> s.yes == s.no)
            && s'.cooldownUntil == now + (if s.yes > s.no then 577100 else 180000)
            && s'.cooldownUntil > now
  {
  }

  class VoteDayManager {
    var voteActive: bool
    var voteCooldownUntil: int
    var yes: nat
    var no: nat
    var voters: set<string>

    constructor ()
      ensures State() == Idle
    {
      voteActive, voteCooldownUntil, yes, no, voters := false, 0, 0, 0, {};
    }

    function State(): VoteState
      reads this
    {
      VoteState(voteActive, voteCooldownUntil, yes, no, voters)
    }

    /** The `messageCreate` handler. */
    method OnMessage(fromChannel: bool, fromBot: bool, content: string, now: int) returns (o: TriggerOutcome)
      modifies this
      ensures (State(), o) == Triggered(old(State()), IsTrigger(fromChannel, fromBot, content), now)
    {
      var trigger := IsTrigger(fromChannel, fromBot, content);
      o := Trigger(trigger, now);
    }

    /** The handler once the message is known to be a trigger or not. */
    method Trigger(trigger: bool, now: int) returns (o: TriggerOutcome)
      modifies this
      ensures (State(), o) == Triggered(old(State()), trigger, now)
    {
      if !trigger {
        return Ignored;
      }
      if voteActive {
        return Busy;
      }
      if voteCooldownUntil > now {
        var remaining := voteCooldownUntil - now;
        return Wait(remaining, MinutesSecondsText(remaining));
      }
      voteActive := true;
      yes, no := 0, 0;
      voters := {};
      o := Started;
    }

    /** The collector's `collect` handler. */
    method OnCollect(fromBot: bool, content: string)
      modifies this
      ensures State() == Collected(old(State()), fromBot, ParseVote(content))
      ensures Consistent(old(State())) ==> Consistent(State())
    {
      var voteMatch := ParseVote(content);
      Count(fromBot, voteMatch);
    }

    /** The handler once the message's vote is parsed. */
    method Count(fromBot: bool, voteMatch: Option<(string, bool)>)
      modifies this
      ensures State() == Collected(old(State()), fromBot, voteMatch)
      ensures Consistent(old(State())) ==> Consistent(State())
    {
      if !fromBot || voteMatch.None? {
        return;
      }
      var (username, isYes) := voteMatch.value;
      if username in voters {
        return;
      }
      if isYes {
        yes := yes + 1;
      } else {
        no := no + 1;
      }
      voters := voters + {username};
    }

    /** The collector's `end` handler; `setDay` says whether the day is set. */
    method OnEnd(now: int) returns (verdict: Verdict, setDay: bool)
      modifies this
      ensures (State(), verdict) == Ended(old(State()), now)
      ensures setDay <==> verdict == Passed
    {
      var cooldown := FailCooldownMs;
      if yes > no {
        verdict, setDay := Passed, true;
        cooldown := SuccessCooldownMs;
      } else if yes == no {
        verdict, setDay := Tie, false;
      } else {
        verdict, setDay := Rejected, false;
      }
      voteActive := false;
      voteCooldownUntil := now + cooldown;
    }
  }
}
