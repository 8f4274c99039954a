// Auto-click earnings credited for the time a player was away: the elapsed
// time is capped by the offline-earnings level, turned into clicks at the
// auto-clicker rate, into points at the tool's per-click value, and into one
// weighted material draw per ten clicks.
module OfflineEarnings {
  import opened Wrappers
  import opened GameTables

  /** Offline time caps, in minutes, for offline-earnings levels 1 to 10. */
  const OfflineCapMinutes: seq<int> := [30, 60, 90, 120, 180, 240, 360, 480, 600, 720]

  /** Absences whose capped length is below this many milliseconds earn nothing. */
  const MinOfflineMs: int := 10000

  datatype Earnings = Earnings(points: real, materials: multiset<string>, minutes: int)

  /**
   * What `calculateOfflineEarnings` returns: `null`, an earnings object, or
   * (for an offline level above 10, whose cap is undefined) an object whose
   * numbers are all NaN.
   */
  datatype Outcome = NoEarnings | Earned(earnings: Earnings) | NotANumber

  /** `currentTime - new Date(logoutTime).getTime()`; a null logout time is the epoch. */
  function ElapsedMs(logoutTime: Option<int>, currentTime: int): int
  {
    currentTime - logoutTime.GetOr(0)
  }

  function CapMs(offlineLevel: int): (r: int)
    requires 1 <= offlineLevel <= |OfflineCapMinutes|
    ensures r == OfflineEarningsUpgrades[offlineLevel - 1].capMinutes * 60000
  {
    OfflineCapMinutes[offlineLevel - 1] * 60 * 1000
  }

  function Min(a: int, b: int): int
  {
    if a <= b then a else b
  }

  /** `autoClickerUpgrades[level - 1]?.rate || 1`. */
  function ClickRate(autoClickLevel: int): (r: real)
    ensures r > 0.0
    ensures 1 <= autoClickLevel <= |AutoClickerUpgrades| ==> r == AutoClickerUpgrades[autoClickLevel - 1].rate
  {
    if 1 <= autoClickLevel <= |AutoClickerUpgrades| then AutoClickerUpgrades[autoClickLevel - 1].rate else 1.0
  }

  /** `Math.floor((cappedMs / 1000) * rate)`. */
  function Clicks(cappedMs: int, rate: real): int
  {
    ((cappedMs as real / 1000.0) * rate).Floor
  }

  /** `clicks * (valuePerClick[tool] || 0)`. */
  function PointsFor(clicks: int, tool: string): real
  {
    clicks as real * (if tool in ValuePerClick then ValuePerClick[tool] else 0.0)
  }

  /** `materialDrops[tool] || []`. */
  function DropsFor(tool: string): seq<Drop>
  {
    if tool in MaterialDrops then MaterialDrops[tool] else []
  }

  /** Draw `r` is covered by the running total after entry `j`. */
  predicate Reached(drops: seq<Drop>, r: real, j: nat)
    requires j < |drops|
  {
    r <= CumChance(drops, j + 1)
  }

  /** The drop chosen by scanning from entry `k`: the first entry whose running total reaches the draw. */
  function PickFrom(drops: seq<Drop>, r: real, k: nat): Option<string>
    requires k <= |drops|
    decreases |drops| - k
  {
    if k == |drops| then None
    else if Reached(drops, r, k) then Some(drops[k].name)
    else PickFrom(drops, r, k + 1)
  }

  /** The material one draw `r` awards, or nothing when it exceeds every running total. */
  function PickDrop(drops: seq<Drop>, r: real): Option<string>
  {
    PickFrom(drops, r, 0)
  }

  /** The materials awarded by the first `n` draws. */
  function DrawDrops(drops: seq<Drop>, draw: nat -> real, n: nat): multiset<string>
  {
    if n == 0 then multiset{}
    else
      var earlier := DrawDrops(drops, draw, n - 1);
      match PickDrop(drops, draw(n - 1))
      case None => earlier
      case Some(name) => earlier + multiset{name}
  }

  /** The whole computation of `calculateOfflineEarnings`, the draws given by `draw`. */
  function Calculate(logoutTime: Option<int>, currentTime: int, autoClickLevel: int,
                     offlineLevel: int, tool: string, draw: nat -> real): Outcome
  {
    if autoClickLevel < 1 || offlineLevel < 1 then NoEarnings
    else if offlineLevel > |OfflineCapMinutes| then NotANumber
    else
      var cappedMs := Min(ElapsedMs(logoutTime, currentTime), CapMs(offlineLevel));
      if cappedMs < MinOfflineMs then NoEarnings
      else
        var clicks := Clicks(cappedMs, ClickRate(autoClickLevel));
        Earned(Earnings(PointsFor(clicks, tool), DrawDrops(DropsFor(tool), draw, clicks / 10), cappedMs / 60000))
  }

  /** The draw loop: `blockBreaks` draws, each awarding one unit of the first drop whose running chance reaches it. */
  method SampleDrops(drops: seq<Drop>, draw: nat -> real, blockBreaks: int) returns (materials: multiset<string>)
    ensures materials == DrawDrops(drops, draw, if blockBreaks < 0 then 0 else blockBreaks)
  {
    materials := multiset{};
    ghost var n: nat := if blockBreaks < 0 then 0 else blockBreaks;
    var i: nat := 0;
    while i < blockBreaks
      invariant i <= n
      invariant materials == DrawDrops(drops, draw, i)
    {
      var picked := PickOne(drops, draw(i));
      DrawStep(drops, draw, i, picked);
      if picked.Some? {
        materials := materials + multiset{picked.value};
      }
      i := i + 1;
    }
  }

  /** One more draw adds the material it picks, if any. */
  lemma DrawStep(drops: seq<Drop>, draw: nat -> real, n: nat, picked: Option<string>)
    requires picked == PickDrop(drops, draw(n))
    ensures DrawDrops(drops, draw, n + 1)
            == if picked.Some? then DrawDrops(drops, draw, n) + multiset{picked.value} else DrawDrops(drops, draw, n)
  {
  }

  /** One draw's inner loop: the running total grows entry by entry until it reaches `rand`, and that entry is awarded. */
  method PickOne(drops: seq<Drop>, rand: real) returns (picked: Option<string>)
    ensures picked == PickDrop(drops, rand)
  {
    var cumulative := 0.0;
    var j := 0;
    while j < |drops|
      invariant 0 <= j <= |drops|
      invariant cumulative == CumChance(drops, j)
      invariant PickDrop(drops, rand) == PickFrom(drops, rand, j)
    {
      cumulative := cumulative + drops[j].chance;
      if rand <= cumulative {
        return Some(drops[j].name);
      }
      j := j + 1;
    }
    return None;
  }

  /** `calculateOfflineEarnings`, with `Math.random()` replaced by `draw(0)`, `draw(1)`, ... */
  method CalculateOfflineEarnings(logoutTime: Option<int>, currentTime: int, autoClickLevel: int,
                                  offlineLevel: int, tool: string, draw: nat -> real) returns (r: Outcome)
    ensures r == Calculate(logoutTime, currentTime, autoClickLevel, offlineLevel, tool, draw)
  {
    if autoClickLevel < 1 || offlineLevel < 1 {
      return NoEarnings;
    }
    if offlineLevel > |OfflineCapMinutes| {
      return NotANumber;
    }
    var elapsedMs := ElapsedMs(logoutTime, currentTime);
    var cappedMs := Min(elapsedMs, CapMs(offlineLevel));
    if cappedMs < MinOfflineMs {
      return NoEarnings;
    }
    var rate := ClickRate(autoClickLevel);
    var clicks := Clicks(cappedMs, rate);
    var points := PointsFor(clicks, tool);
    var drops := DropsFor(tool);
    var blockBreaks := clicks / 10;
    var materials := SampleDrops(drops, draw, blockBreaks);
    r := Earned(Earnings(points, materials, cappedMs / 60000));
  }

  /** No earnings unless both the auto-clicker and the offline-earnings upgrade have been bought. */
  lemma NothingWithoutUpgrades(logoutTime: Option<int>, currentTime: int, autoClickLevel: int,
                               offlineLevel: int, tool: string, draw: nat -> real)
    requires autoClickLevel < 1 || offlineLevel < 1
    ensures Calculate(logoutTime, currentTime, autoClickLevel, offlineLevel, tool, draw) == NoEarnings
  {
  }

  /**
   * For an existing offline level, the credited time is the elapsed time cut
   * at the level's cap; nothing is credited below 10 seconds (a clock that went
   * backwards included), and the reported minutes never exceed the cap.
   */
  lemma CreditedTimeIsCapped(logoutTime: Option<int>, currentTime: int, autoClickLevel: int,
                             offlineLevel: int, tool: string, draw: nat -> real)
    requires autoClickLevel >= 1 && 1 <= offlineLevel <= 10
    ensures var cappedMs := Min(ElapsedMs(logoutTime, currentTime), OfflineCapMinutes[offlineLevel - 1] * 60000);
            var r := Calculate(logoutTime, currentTime, autoClickLevel, offlineLevel, tool, draw);
            (r == NoEarnings <==> cappedMs < 10000)
            && (r.Earned? ==> 0 <= r.earnings.minutes <= OfflineCapMinutes[offlineLevel - 1]
                              && r.earnings.minutes * 60000 <= cappedMs < (r.earnings.minutes + 1) * 60000)
  {
  }

  /** An offline level above the ten that exist yields the NaN object, not null. */
  lemma UnknownOfflineLevelIsNaN(logoutTime: Option<int>, currentTime: int, autoClickLevel: int,
                                 offlineLevel: int, tool: string, draw: nat -> real)
    requires autoClickLevel >= 1 && offlineLevel > 10
    ensures Calculate(logoutTime, currentTime, autoClickLevel, offlineLevel, tool, draw) == NotANumber
  {
  }

  /** A null logout time counts from the epoch, so any present-day clock credits the whole cap. */
  lemma NullLogoutCreditsWholeCap(currentTime: int, autoClickLevel: int, offlineLevel: int,
                                  tool: string, draw: nat -> real)
    requires autoClickLevel >= 1 && 1 <= offlineLevel <= 10
    requires currentTime >= 720 * 60000
    ensures var r := Calculate(None, currentTime, autoClickLevel, offlineLevel, tool, draw);
            r.Earned? && r.earnings.minutes == OfflineCapMinutes[offlineLevel - 1]
  {
  }

  /** Any absence at least as long as the cap earns exactly what an absence of exactly the cap earns. */
  lemma LongAbsencesEarnTheSame(logoutTime: Option<int>, currentTime: int, autoClickLevel: int,
                                offlineLevel: int, tool: string, draw: nat -> real)
    requires autoClickLevel >= 1 && 1 <= offlineLevel <= 10
    requires ElapsedMs(logoutTime, currentTime) >= OfflineCapMinutes[offlineLevel - 1] * 60000
    ensures Calculate(logoutTime, currentTime, autoClickLevel, offlineLevel, tool, draw)
         == Calculate(Some(0), OfflineCapMinutes[offlineLevel - 1] * 60000, autoClickLevel, offlineLevel, tool, draw)
  {
  }

  lemma ClicksGrow(c1: int, c2: int, rate: real)
    requires c1 <= c2 && rate >= 0.0
    ensures Clicks(c1, rate) <= Clicks(c2, rate)
  {
    var a, b := c1 as real / 1000.0, c2 as real / 1000.0;
    assert a <= b;
    assert a * rate <= b * rate;
  }

  lemma PointsGrow(k1: int, k2: int, tool: string)
    requires k1 <= k2
    ensures PointsFor(k1, tool) <= PointsFor(k2, tool)
  {
    var value := if tool in ValuePerClick then ValuePerClick[tool] else 0.0;
    assert value >= 0.0;
    assert k1 as real * value <= k2 as real * value;
  }

  /** Later draws only add to what earlier ones awarded. */
  lemma {:induction false} DrawDropsGrow(drops: seq<Drop>, draw: nat -> real, m: nat, n: nat)
    requires m <= n
    ensures DrawDrops(drops, draw, m) <= DrawDrops(drops, draw, n)
    decreases n
  {
    if m < n {
      DrawDropsGrow(drops, draw, m, n - 1);
    }
  }

  /**
   * Earnings grow with the time away, up to the cap: a longer absence never
   * earns fewer points, fewer minutes or fewer materials (for the same draws).
   */
  lemma EarningsGrowWithAbsence(t1: int, t2: int, currentTime: int, autoClickLevel: int,
                                offlineLevel: int, tool: string, draw: nat -> real)
    requires t2 <= t1
    ensures var r1 := Calculate(Some(t1), currentTime, autoClickLevel, offlineLevel, tool, draw);
            var r2 := Calculate(Some(t2), currentTime, autoClickLevel, offlineLevel, tool, draw);
            r1.Earned? ==> (r2.Earned?
              && r1.earnings.points <= r2.earnings.points
              && r1.earnings.minutes <= r2.earnings.minutes
              && r1.earnings.materials <= r2.earnings.materials)
  {
    var r1 := Calculate(Some(t1), currentTime, autoClickLevel, offlineLevel, tool, draw);
    if r1.Earned? {
      var cap := CapMs(offlineLevel);
      var c1 := Min(currentTime - t1, cap);
      var c2 := Min(currentTime - t2, cap);
      var rate := ClickRate(autoClickLevel);
      ClicksGrow(c1, c2, rate);
      var k1 := Clicks(c1, rate);
      var k2 := Clicks(c2, rate);
      PointsGrow(k1, k2, tool);
      assert k1 / 10 <= k2 / 10;
      DrawDropsGrow(DropsFor(tool), draw, k1 / 10, k2 / 10);
      assert r1 == Earned(Earnings(PointsFor(k1, tool), DrawDrops(DropsFor(tool), draw, k1 / 10), c1 / 60000));
    }
  }

  /** Each draw awards at most one unit, and only of a material the table lists. */
  lemma {:induction false} DrawDropsBounded(drops: seq<Drop>, draw: nat -> real, n: nat)
    ensures |DrawDrops(drops, draw, n)| <= n
    ensures forall m :: m in DrawDrops(drops, draw, n) ==> exists k :: 0 <= k < |drops| && drops[k].name == m
  {
    if n > 0 {
      DrawDropsBounded(drops, draw, n - 1);
      PickFromListed(drops, draw(n - 1), 0);
    }
  }

  lemma {:induction false} PickFromListed(drops: seq<Drop>, r: real, k: nat)
    requires k <= |drops|
    ensures PickFrom(drops, r, k).Some? ==> exists j :: k <= j < |drops| && drops[j].name == PickFrom(drops, r, k).value
    decreases |drops| - k
  {
    if k < |drops| && !Reached(drops, r, k) {
      PickFromListed(drops, r, k + 1);
    }
  }

  /**
   * A draw awards the first entry whose running total of chances reaches it,
   * and nothing exactly when the draw exceeds every running total.
   */
  lemma {:induction false} PickDropIsFirstReached(drops: seq<Drop>, r: real, k: nat)
    requires k <= |drops|
    ensures PickFrom(drops, r, k) == None <==> forall j :: k <= j < |drops| ==> !Reached(drops, r, j)
    ensures PickFrom(drops, r, k).Some? ==>
              exists j :: k <= j < |drops| && Reached(drops, r, j) && drops[j].name == PickFrom(drops, r, k).value
                          && forall i :: k <= i < j ==> !Reached(drops, r, i)
    decreases |drops| - k
  {
    if k < |drops| && !Reached(drops, r, k) {
      PickDropIsFirstReached(drops, r, k + 1);
      var p := PickFrom(drops, r, k + 1);
      if p.Some? {
        var j :| k + 1 <= j < |drops| && Reached(drops, r, j) && drops[j].name == p.value
                 && forall i :: k + 1 <= i < j ==> !Reached(drops, r, i);
        assert forall i :: k <= i < j ==> !Reached(drops, r, i);
      }
    }
  }

  /**
   * With a table whose chances sum to 1 (wooden to iron) every draw in [0, 1)
   * awards something, so exactly one material per ten clicks is credited.
   */
  lemma {:induction false} CompleteTableAlwaysAwards(drops: seq<Drop>, draw: nat -> real, n: nat)
    requires ChanceSum(drops) == 1.0
    requires forall i: nat :: draw(i) < 1.0
    ensures |DrawDrops(drops, draw, n)| == n
  {
    if n > 0 {
      CompleteTableAlwaysAwards(drops, draw, n - 1);
      CumChanceIsChanceSum(drops);
      assert |drops| > 0;
      assert Reached(drops, draw(n - 1), |drops| - 1);
      PickDropIsFirstReached(drops, draw(n - 1), 0);
      assert PickDrop(drops, draw(n - 1)).Some?;
    }
  }

  /** Earned materials are at most one per ten credited clicks, all from the tool's drop table. */
  lemma EarnedMaterialsBounded(logoutTime: Option<int>, currentTime: int, autoClickLevel: int,
                               offlineLevel: int, tool: string, draw: nat -> real)
    ensures var r := Calculate(logoutTime, currentTime, autoClickLevel, offlineLevel, tool, draw);
            r.Earned? ==>
              var clicks := Clicks(Min(ElapsedMs(logoutTime, currentTime), CapMs(offlineLevel)), ClickRate(autoClickLevel));
              |r.earnings.materials| <= clicks / 10
              && forall m :: m in r.earnings.materials ==> tool in MaterialDrops && exists k :: 0 <= k < |MaterialDrops[tool]| && MaterialDrops[tool][k].name == m
  {
    var r := Calculate(logoutTime, currentTime, autoClickLevel, offlineLevel, tool, draw);
    if r.Earned? {
      var clicks := Clicks(Min(ElapsedMs(logoutTime, currentTime), CapMs(offlineLevel)), ClickRate(autoClickLevel));
      DrawDropsBounded(DropsFor(tool), draw, clicks / 10);
    }
  }

  /** A tool without a per-click value earns no points; the bare hand, having no drop table, earns no materials. */
  lemma ToolsWithoutTables(logoutTime: Option<int>, currentTime: int, autoClickLevel: int,
                           offlineLevel: int, tool: string, draw: nat -> real)
    ensures var r := Calculate(logoutTime, currentTime, autoClickLevel, offlineLevel, tool, draw);
            r.Earned? ==> (tool !in ValuePerClick ==> r.earnings.points == 0.0)
                          && (tool !in MaterialDrops ==> r.earnings.materials == multiset{})
  {
    var r := Calculate(logoutTime, currentTime, autoClickLevel, offlineLevel, tool, draw);
    if r.Earned? && tool !in MaterialDrops {
      var clicks := Clicks(Min(ElapsedMs(logoutTime, currentTime), CapMs(offlineLevel)), ClickRate(autoClickLevel));
      DrawDropsBounded([], draw, clicks / 10);
    }
  }

  /** Thirty minutes away with the first auto-clicker and a wooden pickaxe: 900 clicks, so 900 points and 30 minutes. */
  lemma WoodenHalfHourExample(draw: nat -> real)
    ensures var r := Calculate(Some(0), 30 * 60000, 1, 1, "wooden", draw);
            r.Earned? && r.earnings.points == 900.0 && r.earnings.minutes == 30
  {
    assert ClickRate(1) == 0.5;
    assert Clicks(1800000, 0.5) == 900;
  }
}
