// The Discord commands that read the `users` table: /list (who is online),
// /top-playtime (the ten most active players) and /playtime (one player's
// total), with their cooldowns and their replies.
module PlaytimeCommands {
  import opened Wrappers
  import opened Text
  import opened Db
  import opened Durations
  import opened Cooldowns

  /** `Math.ceil(ms / 60000)`: the whole minutes still to wait, rounded up. */
  function CeilMinutes(ms: int): (r: int)
    requires ms > 0
    ensures (r - 1) * 60000 < ms <= r * 60000
    ensures r >= 1
  {
    (ms + 59999) / 60000
  }

  datatype ListReply = ListWait(minutes: int) | ListFailed | NobodyOnline | Online(count: nat, lines: seq<string>)

  /** /list: `names` is the query's result (`None` when it failed); a use is recorded only after the query succeeded. */
  function List(uses: map<string, int>, userId: string, now: int, names: Option<seq<string>>): (map<string, int>, ListReply)
  {
    match DecideIfTruthy(uses, userId, now, TenMinutesMs)
    case Refused(ms) => (uses, ListWait(CeilMinutes(ms)))
    case Accepted =>
      if names.None? then (uses, ListFailed)
      else if names.value == [] then (uses[userId := now], NobodyOnline)
      else (uses[userId := now], Online(|names.value|, seq(|names.value|, i requires 0 <= i < |names.value| => "- " + names.value[i])))
  }

  /** A refusal reports whole minutes rounded up and changes nothing; a failed query consumes nothing; otherwise the use is recorded and every online player gets one line, in the query's order. */
  lemma ListRule(uses: map<string, int>, userId: string, now: int, names: Option<seq<string>>)
    ensures var (uses', r) := List(uses, userId, now, names);
            && (r.ListWait? ==> uses' == uses && r.minutes >= 1
                                && (r.minutes - 1) * 60000 < TenMinutesMs - (now - uses[userId]) <= r.minutes * 60000)
            && (r.ListFailed? ==> uses' == uses)
            && (r.NobodyOnline? || r.Online? ==> uses' == uses[userId := now] && names.Some?)
            && (r.NobodyOnline? <==> !r.ListWait? && names == Some([]))
            && (r.Online? ==> r.count == |names.value| && |r.lines| == r.count
                              && forall i | 0 <= i < r.count :: r.lines[i] == "- " + names.value[i])
  {
  }

  /** The /list handler. */
  method ListCommand(cd: CooldownMap, userId: string, now: int, names: Option<seq<string>>) returns (r: ListReply)
    modifies cd
    ensures (cd.uses, r) == List(old(cd.uses), userId, now, names)
  {
    var lastUsed := if userId in cd.uses then cd.uses[userId] else 0;
    if lastUsed != 0 && now - lastUsed < TenMinutesMs {
      return ListWait(CeilMinutes(TenMinutesMs - (now - lastUsed)));
    }
    if names.None? {
      return ListFailed;
    }
    cd.Record(userId, now);
    if names.value == [] {
      return NobodyOnline;
    }
    var playerList := seq(|names.value|, i requires 0 <= i < |names.value| => "- " + names.value[i]);
    r := Online(|names.value|, playerList);
  }

  /** A row of the /top-playtime query: a name and a play time in seconds. */
  datatype Player = Player(name: string, playTimeSeconds: int)

  /** "#n", the name and "Hh Mm". */
  datatype RankLine = RankLine(rank: int, name: string, time: HourMin)

  datatype TopReply = TopWait(time: MinSec) | TopFailed | NoPlaytimeData | Top(lines: seq<RankLine>)

  function RankLines(players: seq<Player>): seq<RankLine>
  {
    seq(|players|, i requires 0 <= i < |players| => RankLine(i + 1, players[i].name, HoursMinutes(players[i].playTimeSeconds)))
  }

  /** /top-playtime: one ten-minute cooldown for everyone, started before the query runs; `players` is the query's result, `None` when it failed. */
  function TopPlaytime(last: int, now: int, players: Option<seq<Player>>): (int, TopReply)
  {
    match Decide(last, now, TenMinutesMs)
    case Refused(ms) => (last, TopWait(MinutesSeconds(ms)))
    case Accepted =>
      if players.None? then (now, TopFailed)
      else if players.value == [] then (now, NoPlaytimeData)
      else (now, Top(RankLines(players.value)))
  }

  /** Any accepted use starts the cooldown, even one whose query fails; ranks count from 1 in the query's order and each time is split into whole hours and minutes. */
  lemma TopPlaytimeRule(last: int, now: int, players: Option<seq<Player>>)
    ensures var (last', r) := TopPlaytime(last, now, players);
            && (r.TopWait? <==> TenMinutesMs - (now - last) > 0)
            && (r.TopWait? ==> last' == last)
            && (!r.TopWait? ==> last' == now)
            && (r.Top? ==> |r.lines| == |players.value|)
            && (r.Top? ==>
                  forall i | 0 <= i < |r.lines| ::
                    && r.lines[i].rank == i + 1
                    && r.lines[i].name == players.value[i].name
                    && (players.value[i].playTimeSeconds >= 0 ==>
                          r.lines[i].time.hours * 3600 + r.lines[i].time.minutes * 60 <= players.value[i].playTimeSeconds
                          < r.lines[i].time.hours * 3600 + r.lines[i].time.minutes * 60 + 60))
  {
  }

  /** The first use after start-up is accepted once the clock is past ten minutes from zero. */
  lemma TopPlaytimeFirstUse(now: int, players: Option<seq<Player>>)
    requires now >= TenMinutesMs
    ensures !TopPlaytime(0, now, players).1.TopWait?
  {
  }

  method TopPlaytimeCommand(gc: GlobalCooldown, now: int, players: Option<seq<Player>>) returns (r: TopReply)
    modifies gc
    ensures (gc.last, r) == TopPlaytime(old(gc.last), now, players)
  {
    var remaining := TenMinutesMs - (now - gc.last);
    if remaining > 0 {
      return TopWait(MinutesSeconds(remaining));
    }
    gc.Record(now);
    if players.None? {
      return TopFailed;
    }
    if players.value == [] {
      return NoPlaytimeData;
    }
    r := Top(RankLines(players.value));
  }

  /** The WHERE clause of /playtime's query: the name ignoring case when one is given, else the caller's Discord id. */
  predicate Selects(callerId: string, requestedName: Option<string>, row: User)
  {
    if requestedName.Some? && requestedName.value != "" then EqualsIgnoreCase(row.name, requestedName.value)
    else row.discordId == Some(callerId)
  }

  datatype PlaytimeReply = NoSuchPlayer(name: string) | NotLinked | NoPlaytimeYet(name: string) | Played(name: string, time: HourMin)

  /** /playtime on the rows its query returned; the first row answers. */
  function Playtime(requestedName: Option<string>, rows: seq<User>): PlaytimeReply
  {
    if rows == [] then
      if requestedName.Some? && requestedName.value != "" then NoSuchPlayer(requestedName.value) else NotLinked
    else
      var row := rows[0];
      if row.playTimeSeconds.None? || row.playTimeSeconds.value == 0 then NoPlaytimeYet(row.name)
      else Played(row.name, HoursMinutes(row.playTimeSeconds.value))
  }

  /** With a name the lookup ignores letter case, without one it goes by the caller's Discord id; an unknown name and an unlinked account get different replies; a missing or zero time is "not recorded yet"; a positive time is shown in whole hours and minutes. */
  lemma PlaytimeRule(callerId: string, requestedName: Option<string>, rows: seq<User>)
    requires forall i | 0 <= i < |rows| :: Selects(callerId, requestedName, rows[i])
    ensures var r := Playtime(requestedName, rows);
            && (r.NoSuchPlayer? <==> rows == [] && requestedName.Some? && requestedName.value != "")
            && (r.NotLinked? <==> rows == [] && (requestedName.None? || requestedName.value == ""))
            && (r.NoPlaytimeYet? <==> rows != [] && (rows[0].playTimeSeconds.None? || rows[0].playTimeSeconds == Some(0)))
            && (r.Played? ==> rows[0].playTimeSeconds.Some? && rows[0].playTimeSeconds.value != 0)
            && (r.Played? && rows[0].playTimeSeconds.value > 0 ==>
                  var s := rows[0].playTimeSeconds.value;
                  r.time.hours * 3600 + r.time.minutes * 60 <= s < r.time.hours * 3600 + r.time.minutes * 60 + 60)
            && (r.Played? || r.NoPlaytimeYet? ==>
                  if requestedName.Some? && requestedName.value != "" then EqualsIgnoreCase(r.name, requestedName.value)
                  else rows[0].discordId == Some(callerId))
  {
  }
}
