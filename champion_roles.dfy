// The two single-holder roles the bot hands out: the stat champion (most
// first places, shown on a self-refreshing board) and the top player (most
// playtime). Each update takes the role from every other holder, gives it to
// the leader if missing, and announces only when something changed.
module ChampionRoles {
  import opened Wrappers
  import opened Text
  import opened Db
  import opened Durations
  import opened Cooldowns
  import StatsCommands
  import Forms

  /** The board's text: one labelled line per row, or "No data found." when the query returned none. */
  function BoardText(rows: seq<StatsCommands.Row>): string
  {
    if rows == [] then "No data found." else Join(StatsCommands.Lines(rows, StatsCommands.CategoryLine), "\n")
  }

  /** An empty result shows the placeholder; otherwise the board opens with the gold medal and the leader's name. */
  lemma BoardRule(rows: seq<StatsCommands.Row>)
    ensures rows == [] ==> BoardText(rows) == "No data found."
    ensures rows != [] ==> StartsWith(BoardText(rows), "🥇 **" + rows[0].name + "** — " + rows[0].value)
  {
    if rows != [] {
      var lines := StatsCommands.Lines(rows, StatsCommands.CategoryLine);
      assert lines[0] == "🥇 **" + rows[0].name + "** — " + rows[0].value;
      JoinStartsWithFirst(lines, "\n");
    }
  }

  /** Every holder of the role that is not `keep` loses it, and `keep` gets it; `changed` says whether any removal or addition happened. */
  function Reconciled(holders: set<string>, keep: string): (set<string>, bool)
  {
    ({keep}, holders != {keep})
  }

  /** A guild role and the members holding it. */
  class GuildRole {
    var holders: set<string>

    constructor (initial: set<string>)
      ensures holders == initial
    {
      holders := initial;
    }

    /** The removal loop over `members`, then the addition for `keep`; every holder is among `members`. */
    method Reconcile(keep: string, members: seq<string>) returns (changed: bool)
      requires holders <= set m | m in members
      modifies this
      ensures holders == {keep}
      ensures changed <==> old(holders) != {keep}
    {
      changed := false;
      for i := 0 to |members|
        invariant holders == old(holders) - (set j | 0 <= j < i && members[j] != keep :: members[j])
        invariant changed <==> exists j | 0 <= j < i :: members[j] in old(holders) && members[j] != keep
      {
        var member := members[i];
        if member in holders && member != keep {
          holders := holders - {member};
          changed := true;
        }
      }
      assert holders == old(holders) * {keep} by {
        forall m | m in old(holders) && m != keep ensures m !in holders {
          var j :| 0 <= j < |members| && members[j] == m;
        }
      }
      if keep !in holders {
        holders := holders + {keep};
        changed := true;
      }
      assert changed <==> old(holders) != {keep} by {
        if keep in old(holders) && old(holders) != {keep} {
          var m :| m in old(holders) && m != keep;
          var j :| 0 <= j < |members| && members[j] == m;
          assert members[j] in old(holders) && members[j] != keep;
        }
        if keep in old(holders) && old(holders) == {keep} {
          assert !exists j | 0 <= j < |members| :: members[j] in old(holders) && members[j] != keep;
        }
      }
    }
  }

  /** The board's top row: its Discord id, when the player is linked, and its count of first places. */
  datatype Leader = Leader(discordId: Option<string>, name: string, count: int)

  /** The champion role after an update: nothing changes without a linked leader, a role or a fetchable leader member; otherwise the leader alone holds it. */
  function ChampionUpdate(holders: set<string>, top: Option<Leader>, roleExists: bool, topIsMember: bool): (set<string>, bool)
  {
    if top.None? || Forms.Falsy(top.value.discordId) || !roleExists || !topIsMember then (holders, false)
    else Reconciled(holders, top.value.discordId.value)
  }

  /** Without a linked leader nothing changes; otherwise only the leader keeps the role, and the announcement goes out exactly when a removal or an addition happened. */
  lemma ChampionRule(holders: set<string>, top: Option<Leader>, roleExists: bool, topIsMember: bool)
    ensures var (holders', announced) := ChampionUpdate(holders, top, roleExists, topIsMember);
            && (top.None? || Forms.Falsy(top.value.discordId) ==> holders' == holders && !announced)
            && (top.Some? && !Forms.Falsy(top.value.discordId) && roleExists && topIsMember ==>
                  holders' == {top.value.discordId.value} && (announced <==> holders != holders'))
            && (announced ==> holders != holders')
  {
  }

  /** The refusal's reply names `MessageFlags`, which the service does not import, so it throws before anything is sent; the refresh time is left alone either way. */
  datatype RefreshOutcome = RefreshRefused(remainingMs: int) | Refreshed

  /** The refresh button: ten minutes shared by everyone, recorded before the board is rebuilt. */
  function Refresh(last: int, now: int): (int, RefreshOutcome)
  {
    match Decide(last, now, TenMinutesMs)
    case Refused(ms) => (last, RefreshRefused(ms))
    case Accepted => (now, Refreshed)
  }

  lemma RefreshRule(last: int, now: int)
    ensures var (last', o) := Refresh(last, now);
            && (o.Refreshed? <==> now - last >= TenMinutesMs)
            && (o.Refreshed? ==> last' == now)
            && (o.RefreshRefused? ==> last' == last && 0 < o.remainingMs)
  {
  }

  /** The refresh button's handler on the board's shared cooldown. */
  method RefreshButton(gc: GlobalCooldown, now: int) returns (o: RefreshOutcome)
    modifies gc
    ensures (gc.last, o) == Refresh(old(gc.last), now)
  {
    var d := Decide(gc.last, now, TenMinutesMs);
    if d.Refused? {
      return RefreshRefused(d.remainingMs);
    }
    gc.Record(now);
    o := Refreshed;
  }

  /** The linked users, the only ones the top-player query looks at. */
  predicate Linked(u: User)
  {
    u.discordId.Some?
  }

  /** The row `ORDER BY play_time_seconds DESC LIMIT 1` can return: Postgres sorts NULL first in a descending order, so a linked user without a time comes before every time. */
  predicate TopRowAsWritten(users: map<string, User>, u: string)
  {
    && u in users && Linked(users[u])
    && (|| users[u].playTimeSeconds.None?
        || forall v | v in users && Linked(users[v]) ::
             users[v].playTimeSeconds.Some? && users[v].playTimeSeconds.value <= users[u].playTimeSeconds.value)
  }

  /** The row meant: a linked user with a recorded time no other linked user's time exceeds. */
  predicate TopRow(users: map<string, User>, u: string)
  {
    && u in users && Linked(users[u]) && users[u].playTimeSeconds.Some?
    && forall v | v in users && Linked(users[v]) && users[v].playTimeSeconds.Some? ::
         users[v].playTimeSeconds.value <= users[u].playTimeSeconds.value
  }

  /** A linked user with no recorded time is taken as the top player over one with 100 hours. */
  lemma NullTimeTopsAsWritten()
    ensures var users := map["a" := User("Alex", Some("1"), false, None, None, None),
                             "s" := User("Steve", Some("2"), false, None, None, Some(360000))];
            TopRowAsWritten(users, "a") && !TopRow(users, "a") && TopRow(users, "s")
  {
  }

  /** When every linked user has a recorded time the two readings pick the same rows, and the meant one always shows a real maximum. */
  lemma TopRowsAgreeWithoutNulls(users: map<string, User>, u: string)
    requires forall v | v in users && Linked(users[v]) :: users[v].playTimeSeconds.Some?
    ensures TopRowAsWritten(users, u) <==> TopRow(users, u)
    ensures TopRow(users, u) ==> forall v | v in users && Linked(users[v]) :: users[v].playTimeSeconds.value <= users[u].playTimeSeconds.value
  {
  }

  /** The top player's role after an update; `top` is the leader's Discord id and seconds played, and `topIsMember` whether the guild's member fetch finds the leader. */
  function TopPlayerUpdate(holders: set<string>, top: Option<(string, int)>, roleExists: bool, topIsMember: bool): (set<string>, Option<HourMin>)
  {
    if top.None? || !roleExists || !topIsMember then (holders, None)
    else
      var (id, seconds) := top.value;
      ({id}, if id in holders then None else Some(HoursMinutes(seconds)))
  }

  /** Without linked users, without the role or with a leader who has left the guild nothing changes; otherwise only the leader keeps the role, and the announcement, in whole hours and minutes, goes out exactly when the leader did not hold it yet. */
  lemma TopPlayerRule(holders: set<string>, top: Option<(string, int)>, roleExists: bool, topIsMember: bool)
    ensures var (holders', announcement) := TopPlayerUpdate(holders, top, roleExists, topIsMember);
            && (top.None? || !roleExists || !topIsMember ==> holders' == holders && announcement.None?)
            && (top.Some? && roleExists && topIsMember ==> holders' == {top.value.0})
            && (top.Some? && roleExists && topIsMember ==> (announcement.Some? <==> top.value.0 !in holders))
            && (announcement.Some? && top.value.1 >= 0 ==>
                  announcement.value.hours * 3600 + announcement.value.minutes * 60 <= top.value.1
                  < announcement.value.hours * 3600 + announcement.value.minutes * 60 + 60)
  {
  }

  /** `assignTopPlayerRole` on the guild's role, with the top row chosen as meant; `topIsMember` is the outcome of the leader's member fetch, which throws for a user who left the guild. */
  method AssignTopPlayerRole(role: GuildRole, users: map<string, User>, top: Option<string>, roleExists: bool, topIsMember: bool, holderList: seq<string>)
    returns (announcement: Option<HourMin>)
    requires top.Some? ==> TopRow(users, top.value)
    requires role.holders <= set m | m in holderList
    modifies role
    ensures var leader := if top.Some? then Some((users[top.value].discordId.value, users[top.value].playTimeSeconds.value)) else None;
            (role.holders, announcement) == TopPlayerUpdate(old(role.holders), leader, roleExists, topIsMember)
  {
    if top.None? || !roleExists {
      return None;
    }
    var topId := users[top.value].discordId.value;
    var seconds := users[top.value].playTimeSeconds.value;
    if !topIsMember {
      return None;
    }
    var held := topId in role.holders;
    var _ := role.Reconcile(topId, holderList);
    announcement := if held then None else Some(HoursMinutes(seconds));
  }

  /** The champion part of `updateLeaderboard` on the guild's role; `members` lists the whole guild. */
  method UpdateChampion(role: GuildRole, top: Option<Leader>, roleExists: bool, members: seq<string>) returns (announced: bool)
    requires role.holders <= set m | m in members
    modifies role
    ensures (role.holders, announced) == ChampionUpdate(old(role.holders), top, roleExists, top.Some? && top.value.discordId.Some? && top.value.discordId.value in members)
  {
    if top.None? || Forms.Falsy(top.value.discordId) || !roleExists {
      return false;
    }
    var topId := top.value.discordId.value;
    if topId !in members {
      return false;
    }
    announced := role.Reconcile(topId, members);
  }
}
