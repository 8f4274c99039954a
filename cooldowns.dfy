// The cooldowns of the Discord bot's commands. Each keeps, per user (or per
// channel and user, or once for everyone), the time of the last accepted use
// and refuses a new one while the window since then has not passed. The
// commands read the stored time in three slightly different ways, modelled
// here one by one.
module Cooldowns {
  import opened Durations

  const TenMinutesMs := 10 * 60 * 1000
  const OneHourMs := 60 * 60 * 1000
  const OneDayMs := 24 * 60 * 60 * 1000

  datatype Decision = Accepted | Refused(remainingMs: int)

  /** `now - last < window` refuses, reporting what is left of the window. */
  function Decide(last: int, now: int, window: int): (d: Decision)
    ensures d.Refused? <==> now - last < window
    ensures d.Refused? ==> d.remainingMs > 0 && d.remainingMs + (now - last) == window
  {
    if now - last < window then Refused(window - (now - last)) else Accepted
  }

  /** `map.get(key) || 0` then `Decide`: a user never seen counts as having used the command at time 0. */
  function DecideOrZero(uses: map<string, int>, key: string, now: int, window: int): Decision
  {
    Decide(if key in uses then uses[key] else 0, now, window)
  }

  /** `map.has(key) && now - map.get(key) < window`: a user never seen is always accepted. */
  function DecideIfPresent(uses: map<string, int>, key: string, now: int, window: int): Decision
  {
    if key in uses then Decide(uses[key], now, window) else Accepted
  }

  /** `lastUsed && now - lastUsed < window`: a stored time of 0 counts as never used. */
  function DecideIfTruthy(uses: map<string, int>, key: string, now: int, window: int): Decision
  {
    if key in uses && uses[key] != 0 then Decide(uses[key], now, window) else Accepted
  }

  /** The refusal's "M minute(s) S second(s)". */
  function RefusalText(remainingMs: int): MinSec
  {
    MinutesSeconds(remainingMs)
  }

  /** The three readings agree once the clock is past one window from zero; before that only the first refuses a user it has never seen. */
  lemma ReadingsAgree(uses: map<string, int>, key: string, now: int, window: int)
    ensures now >= window ==> DecideOrZero(uses, key, now, window) == DecideIfPresent(uses, key, now, window) == DecideIfTruthy(uses, key, now, window)
    ensures key !in uses ==> DecideIfPresent(uses, key, now, window) == Accepted && DecideIfTruthy(uses, key, now, window) == Accepted
    ensures key !in uses ==> (DecideOrZero(uses, key, now, window).Refused? <==> now < window)
  {
  }

  /** A refusal never reports more than the whole window when the clock has not gone back, and its minutes and seconds never exceed the wait. */
  lemma RefusalBounded(last: int, now: int, window: int)
    requires last <= now
    ensures var d := Decide(last, now, window);
            d.Refused? ==> 0 < d.remainingMs <= window
                           && RefusalText(d.remainingMs).minutes * 60000 + RefusalText(d.remainingMs).seconds * 1000 <= d.remainingMs
  {
  }

  /** After an accepted use at `now`, every reading refuses the same key until the window has passed, and accepts it again from then on. */
  lemma RecordedUseBlocks(uses: map<string, int>, key: string, now: int, later: int, window: int)
    requires now != 0 && now <= later
    ensures var uses' := uses[key := now];
            && (later < now + window ==>
                  && DecideOrZero(uses', key, later, window) == Refused(window - (later - now))
                  && DecideIfPresent(uses', key, later, window) == Refused(window - (later - now))
                  && DecideIfTruthy(uses', key, later, window) == Refused(window - (later - now)))
            && (later >= now + window ==>
                  DecideOrZero(uses', key, later, window) == DecideIfPresent(uses', key, later, window) == DecideIfTruthy(uses', key, later, window) == Accepted)
  {
  }

  /** The per-key store of a command: last accepted use per key. */
  class CooldownMap {
    var uses: map<string, int>

    constructor ()
      ensures uses == map[]
    {
      uses := map[];
    }

    /** Check with `get(key) || 0` and record `now` at once on acceptance (ip.js, map.js, stats-category.js). */
    method Use(key: string, now: int, window: int) returns (d: Decision)
      modifies this
      ensures d == DecideOrZero(old(uses), key, now, window)
      ensures uses == if d.Accepted? then old(uses)[key := now] else old(uses)
    {
      var lastUsed := if key in uses then uses[key] else 0;
      var remaining := window - (now - lastUsed);
      if remaining > 0 {
        return Refused(remaining);
      }
      uses := uses[key := now];
      d := Accepted;
    }

    /** Check with `has(key)` and record `now` at once on acceptance (stats-guide.js). */
    method UseIfPresent(key: string, now: int, window: int) returns (d: Decision)
      modifies this
      ensures d == DecideIfPresent(old(uses), key, now, window)
      ensures uses == if d.Accepted? then old(uses)[key := now] else old(uses)
    {
      if key in uses && now - uses[key] < window {
        return Refused(window - (now - uses[key]));
      }
      uses := uses[key := now];
      d := Accepted;
    }

    /** `set(key, now)` for the commands that record a use only once it has succeeded. */
    method Record(key: string, now: int)
      modifies this
      ensures uses == old(uses)[key := now]
    {
      uses := uses[key := now];
    }
  }

  /** A cooldown shared by everyone: the time of the last accepted use, 0 before the first. */
  class GlobalCooldown {
    var last: int

    constructor ()
      ensures last == 0
    {
      last := 0;
    }

    method Record(now: int)
      modifies this
      ensures last == now
    {
      last := now;
    }
  }
}
