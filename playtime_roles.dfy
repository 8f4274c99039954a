// Playtime rank roles: the half-open hour bands of the nine tiers, and the
// pass over linked users that moves each guild member to the role of the
// band their playtime falls in.
module PlaytimeRoles {
  import opened Wrappers

  datatype Bound = Hours(hours: int) | Infinity

  /** A rank: members with `minHours <= hours < maxHours` of playtime hold it. */
  datatype RoleTier = RoleTier(name: string, minHours: int, maxHours: Bound)

  const RoleTiers: seq<RoleTier> := [
    RoleTier("Stone", 0, Hours(20)),
    RoleTier("Copper", 20, Hours(40)),
    RoleTier("Iron", 40, Hours(60)),
    RoleTier("Gold", 60, Hours(100)),
    RoleTier("Diamond", 100, Hours(200)),
    RoleTier("Crimson", 200, Hours(300)),
    RoleTier("Silver", 300, Hours(400)),
    RoleTier("Electrum", 400, Hours(1000)),
    RoleTier("Tyrian", 1000, Infinity)
  ]

  predicate InTier(h: real, t: RoleTier)
  {
    t.minHours as real <= h && (t.maxHours.Infinity? || h < t.maxHours.hours as real)
  }

  /** The bands follow one another without gap or overlap, and the last is unbounded. */
  predicate Contiguous(ts: seq<RoleTier>)
  {
    && |ts| > 0
    && ts[|ts| - 1].maxHours.Infinity?
    && forall i :: 0 <= i < |ts| - 1 ==> ts[i].maxHours == Hours(ts[i + 1].minHours) && ts[i].minHours < ts[i + 1].minHours
  }

  /** `Array.prototype.find` over the tiers from position `k` on. */
  function FirstTier(ts: seq<RoleTier>, h: real, k: nat): (r: Option<nat>)
    requires k <= |ts|
    decreases |ts| - k
    ensures r.Some? ==> k <= r.value < |ts| && InTier(h, ts[r.value])
    ensures r.Some? ==> forall j :: k <= j < r.value ==> !InTier(h, ts[j])
    ensures r.None? ==> forall j :: k <= j < |ts| ==> !InTier(h, ts[j])
  {
    if k == |ts| then None
    else if InTier(h, ts[k]) then Some(k)
    else FirstTier(ts, h, k + 1)
  }

  function HoursOf(seconds: int): real
  {
    seconds as real / 3600.0
  }

  /** The index of the tier a playtime of `seconds` earns, if any. */
  function TargetTier(seconds: int): (r: Option<nat>)
    ensures r.Some? ==> r.value < |RoleTiers| && InTier(HoursOf(seconds), RoleTiers[r.value])
  {
    FirstTier(RoleTiers, HoursOf(seconds), 0)
  }

  lemma RoleTiersContiguous()
    ensures Contiguous(RoleTiers) && RoleTiers[0].minHours == 0
  {
    forall i | 0 <= i < |RoleTiers| - 1
      ensures RoleTiers[i].maxHours == Hours(RoleTiers[i + 1].minHours) && RoleTiers[i].minHours < RoleTiers[i + 1].minHours
    {
      if i == 0 {
      } else if i == 1 {
      } else if i == 2 {
      } else if i == 3 {
      } else if i == 4 {
      } else if i == 5 {
      } else if i == 6 {
      } else {
        assert i == 7;
      }
    }
  }

  /** In contiguous bands, an upper bound lies at or below every later lower bound. */
  lemma {:induction false} BoundsIncrease(ts: seq<RoleTier>, i: nat, j: nat)
    requires Contiguous(ts) && i < j < |ts|
    ensures ts[i].maxHours.Hours? && ts[i].maxHours.hours <= ts[j].minHours
    decreases j - i
  {
    assert ts[i].maxHours == Hours(ts[i + 1].minHours);
    if i + 1 < j {
      assert ts[i + 1].maxHours == Hours(ts[i + 2].minHours) && ts[i + 1].minHours < ts[i + 2].minHours;
      BoundsIncrease(ts, i + 1, j);
    }
  }

  /** No hour count lies in two bands. */
  lemma BandsDisjoint(ts: seq<RoleTier>, h: real, i: nat, j: nat)
    requires Contiguous(ts) && i < |ts| && j < |ts|
    requires InTier(h, ts[i]) && InTier(h, ts[j])
    ensures i == j
  {
    if i < j {
      BoundsIncrease(ts, i, j);
    } else if j < i {
      BoundsIncrease(ts, j, i);
    }
  }

  /** Every hour count at or above the band of position `k` lies in some band from `k` on. */
  lemma {:induction false} BandsCover(ts: seq<RoleTier>, h: real, k: nat)
    requires Contiguous(ts) && k < |ts| && ts[k].minHours as real <= h
    ensures FirstTier(ts, h, k).Some?
    decreases |ts| - k
  {
    if k < |ts| - 1 && !InTier(h, ts[k]) {
      BandsCover(ts, h, k + 1);
    }
  }

  /** A playtime earns a tier exactly when it is not negative, and then that tier is the only band containing it. */
  lemma TargetTierUnique(seconds: int)
    ensures TargetTier(seconds).Some? <==> seconds >= 0
    ensures seconds >= 0 ==> forall i :: 0 <= i < |RoleTiers| && InTier(HoursOf(seconds), RoleTiers[i]) ==> i == TargetTier(seconds).value
  {
    RoleTiersContiguous();
    var h := HoursOf(seconds);
    if seconds >= 0 {
      BandsCover(RoleTiers, h, 0);
      forall i | 0 <= i < |RoleTiers| && InTier(h, RoleTiers[i])
        ensures i == TargetTier(seconds).value
      {
        BandsDisjoint(RoleTiers, h, i, TargetTier(seconds).value);
      }
    } else {
      assert !InTier(h, RoleTiers[0]);
      if TargetTier(seconds).Some? {
        BoundsIncrease(RoleTiers, 0, TargetTier(seconds).value);
      }
    }
  }

  /** The bands are half-open: exactly 20 hours is Copper, a second less is Stone. */
  lemma TierBoundaries()
    ensures TargetTier(20 * 3600) == Some(1)
    ensures TargetTier(20 * 3600 - 1) == Some(0)
    ensures TargetTier(1000 * 3600) == Some(8)
  {
    TierOf(20 * 3600, 1);
    TierOf(20 * 3600 - 1, 0);
    TierOf(1000 * 3600, 8);
  }

  /** A playtime inside band `i` earns tier `i`. */
  lemma TierOf(seconds: int, i: nat)
    requires i < |RoleTiers| && seconds >= 0 && InTier(HoursOf(seconds), RoleTiers[i])
    ensures TargetTier(seconds) == Some(i)
  {
    TargetTierUnique(seconds);
  }

  /** A row of the users query: only linked users with a recorded playtime are selected. */
  datatype Row = Row(name: string, discordId: string, playTimeSeconds: int)

  /** A rank-up message posted to the hall-of-fame channel. */
  datatype Announcement = Announcement(memberId: string, tier: string)

  /** Guild members (those that can be fetched) with the role ids they hold, and the channel's messages. */
  datatype GuildState = GuildState(memberRoles: map<string, set<string>>, announcements: seq<Announcement>)

  function IdSet(ids: seq<string>): set<string>
  {
    set i | 0 <= i < |ids| :: ids[i]
  }

  predicate Distinct(ids: seq<string>)
  {
    forall i, j :: 0 <= i < j < |ids| ==> ids[i] != ids[j]
  }

  /** One iteration of the loop. `tierIds` are the role ids of the tiers, `canAnnounce` whether the hall-of-fame channel is a text channel. */
  function Step(g: GuildState, row: Row, tierIds: seq<string>, isInitial: bool, canAnnounce: bool): GuildState
    requires |tierIds| == |RoleTiers|
  {
    if row.discordId !in g.memberRoles then g
    else match TargetTier(row.playTimeSeconds)
      case None => g
      case Some(t) =>
        var held := g.memberRoles[row.discordId];
        if tierIds[t] in held then g
        else
          var roles := g.memberRoles[row.discordId := held - IdSet(tierIds) + {tierIds[t]}];
          var posts := if !isInitial && canAnnounce
                       then g.announcements + [Announcement(row.discordId, RoleTiers[t].name)]
                       else g.announcements;
          GuildState(roles, posts)
  }

  function StepAll(g: GuildState, rows: seq<Row>, tierIds: seq<string>, isInitial: bool, canAnnounce: bool): GuildState
    requires |tierIds| == |RoleTiers|
  {
    if rows == [] then g
    else Step(StepAll(g, rows[..|rows| - 1], tierIds, isInitial, canAnnounce), rows[|rows| - 1], tierIds, isInitial, canAnnounce)
  }

  /** A user who is not a member of the guild, or whose playtime is negative, changes nothing. */
  lemma StepSkips(g: GuildState, row: Row, tierIds: seq<string>, isInitial: bool, canAnnounce: bool)
    requires |tierIds| == |RoleTiers|
    requires row.discordId !in g.memberRoles || row.playTimeSeconds < 0
    ensures Step(g, row, tierIds, isInitial, canAnnounce) == g
  {
    TargetTierUnique(row.playTimeSeconds);
  }

  /** A member already holding the target role is left as is, whatever other tier roles they hold. */
  lemma StepKeepsHolder(g: GuildState, row: Row, tierIds: seq<string>, isInitial: bool, canAnnounce: bool, t: nat)
    requires |tierIds| == |RoleTiers| && row.discordId in g.memberRoles
    requires TargetTier(row.playTimeSeconds) == Some(t) && tierIds[t] in g.memberRoles[row.discordId]
    ensures Step(g, row, tierIds, isInitial, canAnnounce) == g
  {
  }

  /** Otherwise the member ends with the target as their only tier role, keeps every other role, nobody else changes, and one announcement is posted exactly when the run is not the initial one and the channel takes text. */
  lemma StepMovesMember(g: GuildState, row: Row, tierIds: seq<string>, isInitial: bool, canAnnounce: bool, t: nat)
    requires |tierIds| == |RoleTiers| && Distinct(tierIds) && row.discordId in g.memberRoles
    requires TargetTier(row.playTimeSeconds) == Some(t) && tierIds[t] !in g.memberRoles[row.discordId]
    ensures var g' := Step(g, row, tierIds, isInitial, canAnnounce);
            var held := g.memberRoles[row.discordId];
            && g'.memberRoles.Keys == g.memberRoles.Keys
            && g'.memberRoles[row.discordId] * IdSet(tierIds) == {tierIds[t]}
            && g'.memberRoles[row.discordId] - IdSet(tierIds) == held - IdSet(tierIds)
            && (forall m :: m in g.memberRoles && m != row.discordId ==> g'.memberRoles[m] == g.memberRoles[m])
            && g'.announcements == g.announcements + (if !isInitial && canAnnounce then [Announcement(row.discordId, RoleTiers[t].name)] else [])
  {
    assert tierIds[t] in IdSet(tierIds);
  }

  /** A whole pass never posts during the initial run. */
  lemma {:induction false} InitialPassIsSilent(g: GuildState, rows: seq<Row>, tierIds: seq<string>, canAnnounce: bool)
    requires |tierIds| == |RoleTiers|
    ensures StepAll(g, rows, tierIds, true, canAnnounce).announcements == g.announcements
  {
    if rows != [] {
      InitialPassIsSilent(g, rows[..|rows| - 1], tierIds, canAnnounce);
    }
  }

  /** A pass leaves the membership alone and touches only members that some row names. */
  lemma {:induction false} PassTouchesOnlyListed(g: GuildState, rows: seq<Row>, tierIds: seq<string>, isInitial: bool, canAnnounce: bool, m: string)
    requires |tierIds| == |RoleTiers| && m in g.memberRoles
    requires forall i :: 0 <= i < |rows| ==> rows[i].discordId != m
    ensures var g' := StepAll(g, rows, tierIds, isInitial, canAnnounce);
            g'.memberRoles.Keys == g.memberRoles.Keys && g'.memberRoles[m] == g.memberRoles[m]
  {
    if rows != [] {
      PassTouchesOnlyListed(g, rows[..|rows| - 1], tierIds, isInitial, canAnnounce, m);
    }
  }

  class Guild {
    var memberRoles: map<string, set<string>>
    var announcements: seq<Announcement>

    constructor (memberRoles: map<string, set<string>>)
      ensures this.memberRoles == memberRoles && announcements == []
    {
      this.memberRoles := memberRoles;
      announcements := [];
    }

    function State(): GuildState
      reads this
    {
      GuildState(memberRoles, announcements)
    }

    /** `assignPlaytimeRole` over the rows of the users query. */
    method AssignPlaytimeRoles(rows: seq<Row>, tierIds: seq<string>, isInitial: bool, canAnnounce: bool)
      requires |tierIds| == |RoleTiers|
      modifies this
      ensures State() == StepAll(old(State()), rows, tierIds, isInitial, canAnnounce)
    {
      var i := 0;
      while i < |rows|
        invariant 0 <= i <= |rows|
        invariant State() == StepAll(old(State()), rows[..i], tierIds, isInitial, canAnnounce)
      {
        assert rows[..i + 1][..i] == rows[..i];
        var user := rows[i];
        i := i + 1;
        if user.discordId !in memberRoles {
          continue;
        }
        var targetTier := TargetTier(user.playTimeSeconds);
        if targetTier.None? {
          continue;
        }
        var t := targetTier.value;
        var held := memberRoles[user.discordId];
        if tierIds[t] in held {
          continue;
        }
        memberRoles := memberRoles[user.discordId := held - IdSet(tierIds) + {tierIds[t]}];
        if !isInitial && canAnnounce {
          announcements := announcements + [Announcement(user.discordId, RoleTiers[t].name)];
        }
      }
      assert rows[..|rows|] == rows;
    }
  }
}
