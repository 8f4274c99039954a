// The public "Online Players" panel: the player list split into those online
// and those offline, each offline player with a "last seen ... ago" phrase.
module OnlinePlayers {
  import opened Wrappers
  import opened Text
  import opened Durations
  import opened Sequences

  /** An entry of `/api/players`. */
  datatype PlayerRow = PlayerRow(id: string, name: string, online: bool, lastSeen: Option<int>)

  function Online(players: seq<PlayerRow>): seq<PlayerRow>
  {
    Filter(players, (p: PlayerRow) => p.online)
  }

  function Offline(players: seq<PlayerRow>): seq<PlayerRow>
  {
    Filter(players, (p: PlayerRow) => !p.online)
  }

  /** The two lists split the players: every player is in exactly one of them, as often as in the input, and each list keeps the input's order. */
  lemma PartitionRule(players: seq<PlayerRow>, more: seq<PlayerRow>, p: PlayerRow)
    ensures multiset(Online(players)) + multiset(Offline(players)) == multiset(players)
    ensures p in players ==> (p in Online(players) <==> p.online) && (p in Offline(players) <==> !p.online)
    ensures forall q | q in Online(players) :: q.online
    ensures forall q | q in Offline(players) :: !q.online
    ensures Online(players + more) == Online(players) + Online(more)
    ensures Offline(players + more) == Offline(players) + Offline(more)
  {
    var on, off := (q: PlayerRow) => q.online, (q: PlayerRow) => !q.online;
    FilterPartition(players, on, off);
    FilterKeepsAll(players, on, p);
    FilterKeepsAll(players, off, p);
    FilterConcat(players, more, on);
    FilterConcat(players, more, off);
  }

  datatype TimeUnit = Seconds | Minutes | Hours | Days

  function UnitMs(u: TimeUnit): int
  {
    match u
    case Seconds => 1000
    case Minutes => 60000
    case Hours => 3600000
    case Days => 86400000
  }

  function UnitName(u: TimeUnit): string
  {
    match u
    case Seconds => "second"
    case Minutes => "minute"
    case Hours => "hour"
    case Days => "day"
  }

  /** `formatTimeAgo`'s choice: whole seconds under a minute, then whole minutes, hours and days, each by flooring the previous count. */
  function TimeAgo(diffMs: int): (int, TimeUnit)
  {
    var seconds := diffMs / 1000;
    if seconds < 60 then (seconds, Seconds)
    else
      var minutes := seconds / 60;
      if minutes < 60 then (minutes, Minutes)
      else
        var hours := minutes / 60;
        if hours < 24 then (hours, Hours)
        else (hours / 24, Days)
  }

  /** The phrase: seconds always plural, the other units singular only for exactly one. */
  function TimeAgoText(diffMs: int): string
  {
    var (n, u) := TimeAgo(diffMs);
    if u == Seconds then IntToString(n) + " seconds ago"
    else Counted(n, UnitName(u)) + " ago"
  }

  /** The unit is the largest that fits below the next threshold, and the count is the elapsed time floored to that unit. */
  lemma TimeAgoRule(diffMs: int)
    requires diffMs >= 0
    ensures var (n, u) := TimeAgo(diffMs);
            && (u == Seconds <==> diffMs < 60000)
            && (u == Minutes <==> 60000 <= diffMs < 3600000)
            && (u == Hours <==> 3600000 <= diffMs < 86400000)
            && (u == Days <==> 86400000 <= diffMs)
            && n * UnitMs(u) <= diffMs < (n + 1) * UnitMs(u)
  {
  }

  /** The phrase is the count, the unit (with an "s" except for exactly one minute, hour or day) and "ago". */
  lemma TimeAgoWording(diffMs: int)
    ensures var (n, u) := TimeAgo(diffMs);
            TimeAgoText(diffMs) == IntToString(n) + " " + UnitName(u) + (if u != Seconds && n == 1 then "" else "s") + " ago"
  {
    var (n, u) := TimeAgo(diffMs);
    var num, name := IntToString(n), UnitName(u);
    if u == Seconds {
      assert TimeAgoText(diffMs) == num + " seconds ago";
      assert " seconds ago" == " " + name + "s" + " ago";
      Regroup(num, " ", name + "s", " ago");
    } else {
      assert TimeAgoText(diffMs) == Counted(n, name) + " ago";
      var plural := if n == 1 then "" else "s";
      assert (if n != 1 then name + "s" else name) == name + plural;
      Regroup(num, " ", name + plural, " ago");
    }
  }

  /** Concatenation regrouped: the proof's only step about sequences. */
  lemma Regroup(a: string, b: string, c: string, d: string)
    ensures a + b + c + d == a + (b + c + d) && (a + b + c) + d == a + b + c + d
  {
  }
}
