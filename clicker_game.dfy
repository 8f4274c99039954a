// The in-browser rules of the clicker game: building and upgrading the
// furnace, buying pickaxes in tier order, the auto-clicker and offline
// upgrades, topping up the coal reserve, buying materials, queueing ore for
// smelting and the live smelt tick, and the shop and inventory tab arrows.
// React state setters become assignments to the fields of `Game`; each
// method is specified by a function on the `Progress` value of its fields.
module ClickerGame {
  import opened Wrappers
  import opened GameTables
  import GameData

  /** The saved part of the game's state, as a value. */
  datatype Progress = Progress(
    points: real,
    tool: string,
    inventory: seq<string>,
    materials: map<string, int>,
    autoClickLevel: int,
    offlineEarningsLevel: int,
    furnaceLevel: int,
    coalReserve: real,
    smeltingQueue: seq<string>,
    smeltAmounts: map<string, int>)

  /** The state the page starts from before a save is loaded. */
  const Initial := Progress(0.0, "hand", ["hand"], map[], 0, 0, 0, 0.0, [], map[])

  // ---------------------------------------------------------------------
  // Price lists

  /** Every count in the map is non-negative. */
  predicate NonNegative(m: map<string, int>)
  {
    forall k :: k in m ==> m[k] >= 0
  }

  /** `Object.entries(cost).every(([mat, amt]) => (materials[mat] || 0) >= amt)`. */
  predicate Affordable(m: map<string, int>, c: Cost)
  {
    forall i :: 0 <= i < |c| ==> Count(m, c[i].0) >= c[i].1
  }

  /** No material appears twice in a price list. */
  predicate DistinctKeys(c: Cost)
  {
    forall i, j :: 0 <= i < j < |c| ==> c[i].0 != c[j].0
  }

  /** The total amount of `k` a price list asks for. */
  function CostOf(c: Cost, k: string): int
  {
    if c == [] then 0
    else CostOf(c[..|c| - 1], k) + (if c[|c| - 1].0 == k then c[|c| - 1].1 else 0)
  }

  /** The copied map after `for (const [mat, amt] of Object.entries(cost)) updated[mat] -= amt`. */
  function Deduct(m: map<string, int>, c: Cost): map<string, int>
  {
    if c == [] then m
    else
      var d := Deduct(m, c[..|c| - 1]);
      var (k, a) := c[|c| - 1];
      d[k := Count(d, k) - a]
  }

  /** Paying a price list lowers each material by what the list asks for it, and nothing else. */
  lemma {:induction false} DeductCounts(m: map<string, int>, c: Cost)
    ensures forall k :: Count(Deduct(m, c), k) == Count(m, k) - CostOf(c, k)
  {
    if c != [] {
      DeductCounts(m, c[..|c| - 1]);
    }
  }

  /** In a list without repeats, the amount asked for a listed material is its entry. */
  lemma {:induction false} CostOfListed(c: Cost, i: nat)
    requires DistinctKeys(c) && i < |c|
    ensures CostOf(c, c[i].0) == c[i].1
  {
    var init := c[..|c| - 1];
    if i < |c| - 1 {
      assert init[i] == c[i];
      CostOfListed(init, i);
    } else {
      CostOfUnlisted(init, c[i].0);
    }
  }

  /** A material that is not listed costs nothing. */
  lemma {:induction false} CostOfUnlisted(c: Cost, k: string)
    requires forall i :: 0 <= i < |c| ==> c[i].0 != k
    ensures CostOf(c, k) == 0
  {
    if c != [] {
      CostOfUnlisted(c[..|c| - 1], k);
    }
  }

  /** Paying an affordable price list without repeats leaves no count negative. */
  lemma PayingKeepsCountsNonNegative(m: map<string, int>, c: Cost)
    requires NonNegative(m) && Affordable(m, c) && DistinctKeys(c)
    ensures NonNegative(Deduct(m, c))
    ensures forall i :: 0 <= i < |c| ==> Count(Deduct(m, c), c[i].0) == Count(m, c[i].0) - c[i].1
  {
    DeductCounts(m, c);
    forall k ensures Count(Deduct(m, c), k) >= 0 {
      if i :| 0 <= i < |c| && c[i].0 == k {
        CostOfListed(c, i);
      } else {
        CostOfUnlisted(c, k);
      }
    }
    forall i | 0 <= i < |c| ensures Count(Deduct(m, c), c[i].0) == Count(m, c[i].0) - c[i].1 {
      CostOfListed(c, i);
    }
  }

  /** Paying a price list that does not mention `k` leaves `k` as it was. */
  lemma PayingKeepsUnlisted(m: map<string, int>, c: Cost, k: string)
    requires forall i :: 0 <= i < |c| ==> c[i].0 != k
    ensures Count(Deduct(m, c), k) == Count(m, k)
  {
    DeductCounts(m, c);
    CostOfUnlisted(c, k);
  }

  /** A price list without repeats that never asks for smeltable ore. */
  predicate Clean(c: Cost)
  {
    DistinctKeys(c) && forall i :: 0 <= i < |c| ==> c[i].0 !in SmeltingRecipes
  }

  /** The materials the price lists ask for, in the order every list names them. */
  const PriceOrder: seq<string> := ["cobble_stone", "copper_ingot", "iron_ingot", "gold_ingot", "diamond", "netherite_ingot"]

  /** The price materials are distinct and none of them is a smeltable ore. */
  lemma PriceOrderClean()
    ensures forall a, b :: 0 <= a < b < |PriceOrder| ==> PriceOrder[a] != PriceOrder[b]
    ensures forall a :: 0 <= a < |PriceOrder| ==> PriceOrder[a] !in SmeltingRecipes
  {
    assert PriceOrder[0][2] != PriceOrder[1][2];
    assert PriceOrder[2][0] != PriceOrder[3][0];
  }

  /** A list whose materials sit at strictly increasing positions of the price order is clean. */
  lemma CleanInOrder(c: Cost, pos: seq<int>)
    requires |pos| == |c|
    requires forall i :: 0 <= i < |c| ==> 0 <= pos[i] < |PriceOrder| && c[i].0 == PriceOrder[pos[i]]
    requires forall i, j :: 0 <= i < j < |pos| ==> pos[i] < pos[j]
    ensures Clean(c)
  {
    PriceOrderClean();
  }

  /** Every tool's price list is clean. */
  lemma ToolPriceListsClean(t: string)
    ensures Clean(MaterialCostOf(t))
  {
    var c := MaterialCostOf(t);
    if t !in ToolMaterialCosts {
    } else if t == "stone" {
      CleanInOrder(c, [0]);
    } else if t == "copper" {
      CleanInOrder(c, [0, 1]);
    } else if t == "iron" {
      CleanInOrder(c, [0, 1, 2]);
    } else if t == "gold" {
      CleanInOrder(c, [0, 1, 2, 3]);
    } else if t == "diamond" {
      CleanInOrder(c, [0, 1, 2, 3, 4]);
    } else {
      assert t == "netherite";
      CleanInOrder(c, [0, 1, 2, 3, 4, 5]);
    }
  }

  /** Every auto-clicker tier's price list is clean. */
  lemma AutoClickerPriceListsClean(level: int)
    ensures Clean(NextAutoClickCost(level))
  {
    var c := NextAutoClickCost(level);
    if level == 0 || level == 1 {
      CleanInOrder(c, [0, 1]);
    } else if level == 2 {
      CleanInOrder(c, [0, 2]);
    } else if level == 3 {
      CleanInOrder(c, [0, 3]);
    } else if level == 4 {
      CleanInOrder(c, [0, 4]);
    } else if level == 5 {
      CleanInOrder(c, [0, 5]);
    }
  }

  /** Every offline-earnings tier's price list is clean. */
  lemma OfflinePriceListsClean(level: int)
    requires 0 <= level < |OfflineEarningsUpgrades|
    ensures Clean(OfflineEarningsUpgrades[level].cost)
  {
    if level < 4 {
      OfflineLowListsClean(level);
    } else {
      OfflineHighListsClean(level);
    }
  }

  lemma OfflineLowListsClean(level: int)
    requires 0 <= level < 4
    ensures Clean(OfflineEarningsUpgrades[level].cost)
  {
    var c := OfflineEarningsUpgrades[level].cost;
    if level == 0 {
      CleanInOrder(c, [0, 1]);
    } else if level == 1 {
      CleanInOrder(c, [0, 1, 2]);
    } else {
      CleanInOrder(c, [0, 2, 3]);
    }
  }

  lemma OfflineHighListsClean(level: int)
    requires 4 <= level < |OfflineEarningsUpgrades|
    ensures Clean(OfflineEarningsUpgrades[level].cost)
  {
    var c := OfflineEarningsUpgrades[level].cost;
    if level == 4 {
      CleanInOrder(c, [0, 4]);
    } else {
      CleanInOrder(c, [0, 4, 5]);
    }
  }

  /** Paying a clean, affordable price list keeps the invariant's material conditions. */
  lemma PayingCleanList(m: map<string, int>, q: seq<string>, c: Cost)
    requires Clean(c) && Affordable(m, c) && NonNegative(m) && QueueCovered(m, q)
    ensures NonNegative(Deduct(m, c)) && QueueCovered(Deduct(m, c), q)
  {
    PayingKeepsCountsNonNegative(m, c);
    forall ore | ore in SmeltingRecipes ensures Count(Deduct(m, c), ore) == Count(m, ore) {
      PayingKeepsUnlisted(m, c, ore);
    }
  }

  // ---------------------------------------------------------------------
  // The smelting queue

  /** `Array(n).fill(x)`. */
  function Repeat(x: string, n: nat): (r: seq<string>)
    ensures |r| == n
  {
    if n == 0 then [] else Repeat(x, n - 1) + [x]
  }

  lemma {:induction false} RepeatCounts(x: string, n: nat, y: string)
    ensures multiset(Repeat(x, n))[y] == if x == y then n else 0
    ensures forall i :: 0 <= i < n ==> Repeat(x, n)[i] == x
  {
    if n > 0 {
      RepeatCounts(x, n - 1, y);
    }
  }

  /** `smeltingQueue.filter((item) => item === ore).length`. */
  function InQueue(q: seq<string>, ore: string): nat
  {
    multiset(q)[ore]
  }

  /** Every queued ore is backed by enough ore in the materials: the queue never waits for ore. */
  predicate QueueCovered(m: map<string, int>, q: seq<string>)
  {
    forall ore :: ore in SmeltingRecipes ==> InQueue(q, ore) * SmeltingRecipes[ore].inputAmount <= Count(m, ore)
  }

  /** The game's invariant. */
  predicate Inv(p: Progress)
  {
    && 0 <= p.furnaceLevel <= 8
    && p.coalReserve >= 0.0
    && p.points >= 0.0
    && NonNegative(p.materials)
    && p.autoClickLevel >= 0
    && 0 <= p.offlineEarningsLevel <= |OfflineEarningsUpgrades|
    && p.tool in p.inventory
    && QueueCovered(p.materials, p.smeltingQueue)
  }

  lemma InitialInv()
    ensures Inv(Initial)
  {
  }

  // ---------------------------------------------------------------------
  // Furnace

  const MaxFurnaceLevel := 8

  function FurnaceCobbleCost(level: int): int
  {
    20 + level * 10
  }

  /** `1 + Math.floor(level / 2)`. */
  function FurnaceCoalCost(level: int): int
  {
    1 + level / 2
  }

  predicate CanUpgradeFurnace(p: Progress)
  {
    p.furnaceLevel < MaxFurnaceLevel
    && Count(p.materials, "cobble_stone") >= FurnaceCobbleCost(p.furnaceLevel)
    && Count(p.materials, "coal") >= FurnaceCoalCost(p.furnaceLevel)
  }

  /** `upgradeFurnace`. */
  function FurnaceUpgraded(p: Progress): (q: Progress)
    ensures Inv(p) ==> Inv(q)
  {
    if !CanUpgradeFurnace(p) then p
    else
      var cobble := Count(p.materials, "cobble_stone") - FurnaceCobbleCost(p.furnaceLevel);
      var coal := Count(p.materials, "coal") - FurnaceCoalCost(p.furnaceLevel);
      p.(materials := p.materials["cobble_stone" := cobble]["coal" := coal],
         furnaceLevel := p.furnaceLevel + 1)
  }

  /** At level 8 nothing changes; below it, the upgrade takes exactly its price and raises the level by one. */
  lemma FurnaceUpgradeEffect(p: Progress)
    ensures p.furnaceLevel >= MaxFurnaceLevel ==> FurnaceUpgraded(p) == p
    ensures var q := FurnaceUpgraded(p);
            if CanUpgradeFurnace(p) then
              && q.furnaceLevel == p.furnaceLevel + 1
              && Count(q.materials, "cobble_stone") == Count(p.materials, "cobble_stone") - (20 + 10 * p.furnaceLevel)
              && Count(q.materials, "coal") == Count(p.materials, "coal") - (1 + p.furnaceLevel / 2)
              && (forall k :: k != "cobble_stone" && k != "coal" ==> Count(q.materials, k) == Count(p.materials, k))
              && q == p.(materials := q.materials, furnaceLevel := q.furnaceLevel)
            else q == p
  {
  }

  // ---------------------------------------------------------------------
  // Tools

  /** `Math.max(...inventory.map((item) => toolOrder.indexOf(item)))`; `None` is the `-Infinity` of an empty inventory. */
  function MaxTier(inv: seq<string>): (r: Option<int>)
    ensures r.None? <==> inv == []
    ensures r.Some? ==> (forall i :: 0 <= i < |inv| ==> Tier(inv[i]) <= r.value)
  {
    if inv == [] then None
    else
      var front := inv[..|inv| - 1];
      var init := MaxTier(front);
      var t := Tier(inv[|inv| - 1]);
      var m := if init.Some? && init.value > t then init.value else t;
      MaxTierStep(inv, front, init, m);
      Some(m)
  }

  /** The bound extends from all but the last tool to the whole inventory. */
  lemma MaxTierStep(inv: seq<string>, front: seq<string>, init: Option<int>, m: int)
    requires inv != [] && front == inv[..|inv| - 1]
    requires init.Some? ==> (forall i :: 0 <= i < |front| ==> Tier(front[i]) <= init.value)
    requires init.None? ==> front == []
    requires Tier(inv[|inv| - 1]) <= m && (init.Some? ==> init.value <= m)
    ensures forall i :: 0 <= i < |inv| ==> Tier(inv[i]) <= m
  {
    forall i | 0 <= i < |inv| ensures Tier(inv[i]) <= m {
      if i < |inv| - 1 {
        assert front[i] == inv[i];
      }
    }
  }

  /** `newTier > currentMaxTier`. */
  predicate AboveTiers(t: int, max: Option<int>)
  {
    max.None? || t > max.value
  }

  /** `toolMaterialCosts[t] || {}`. */
  function MaterialCostOf(t: string): Cost
  {
    if t in ToolMaterialCosts then ToolMaterialCosts[t] else []
  }

  /** The condition under which `handleUpgrade(t)` buys `t`. */
  predicate CanBuyTool(p: Progress, t: string)
  {
    t in ToolCosts
    && p.points >= ToolCosts[t] as real
    && AboveTiers(Tier(t), MaxTier(p.inventory))
    && Affordable(p.materials, MaterialCostOf(t))
  }

  /** `handleUpgrade(t)`: pay points and materials, equip the tool and add it to the inventory. */
  function ToolBought(p: Progress, t: string): (q: Progress)
    ensures Inv(p) ==> Inv(q)
  {
    if !CanBuyTool(p, t) then p
    else
      var c := MaterialCostOf(t);
      assert Inv(p) ==> NonNegative(Deduct(p.materials, c)) && QueueCovered(Deduct(p.materials, c), p.smeltingQueue) by {
        if Inv(p) {
          ToolPriceListsClean(t);
          PayingCleanList(p.materials, p.smeltingQueue, c);
        }
      }
      p.(materials := Deduct(p.materials, c), points := p.points - ToolCosts[t] as real,
         tool := t, inventory := p.inventory + [t])
  }

  /** A purchase needs the points, a tier above everything owned and the materials; it then takes exactly its price. */
  lemma ToolPurchaseEffect(p: Progress, t: string)
    ensures var q := ToolBought(p, t);
            if CanBuyTool(p, t) then
              && q.points == p.points - ToolCosts[t] as real
              && q.tool == t && q.inventory == p.inventory + [t]
              && (forall k :: Count(q.materials, k) == Count(p.materials, k) - CostOf(MaterialCostOf(t), k))
              && q == p.(points := q.points, tool := t, inventory := q.inventory, materials := q.materials)
            else q == p
    ensures CanBuyTool(p, t) ==> t in ToolOrder && t !in p.inventory
  {
    if CanBuyTool(p, t) {
      DeductCounts(p.materials, MaterialCostOf(t));
    }
  }

  /** The shop's lock: a tool is unlocked when its tier is at most one above the best owned. */
  predicate Unlocked(inv: seq<string>, t: string)
  {
    var m := MaxTier(inv);
    m.Some? && Tier(t) <= m.value + 1
  }

  /** One shop button: which tool, whether it shows as unlocked, whether it can be pressed. */
  datatype ShopEntry = ShopEntry(tool: string, unlocked: bool, enabled: bool)

  function EntryFor(p: Progress, t: string): ShopEntry
    requires t in ToolCosts
  {
    var u := Unlocked(p.inventory, t);
    ShopEntry(t, u, u && p.points >= ToolCosts[t] as real)
  }

  /** The positions from `i` on of the entries of `order` that are not in `inv`, in increasing order. */
  function Unowned(order: seq<string>, inv: seq<string>, i: nat): (r: seq<nat>)
    requires i <= |order|
    ensures forall k :: 0 <= k < |r| ==> i <= r[k] < |order| && order[r[k]] !in inv
    ensures forall j, k :: 0 <= j < k < |r| ==> r[j] < r[k]
    ensures forall j :: i <= j < |order| && order[j] !in inv ==> j in r
    decreases |order| - i
  {
    if i == |order| then []
    else if order[i] in inv then Unowned(order, inv, i + 1)
    else [i] + Unowned(order, inv, i + 1)
  }

  /** `toolOrder.filter((name) => !inventory.includes(name)).map(...)`. */
  function Shop(p: Progress): seq<ShopEntry>
  {
    var u := Unowned(ToolOrder, p.inventory, 0);
    ToolsArePriced();
    seq(|u|, k requires 0 <= k < |u| => EntryFor(p, ToolOrder[u[k]]))
  }

  /** The shop's buttons: one per unowned tool, in tool order. */
  lemma ShopEntriesAt(p: Progress)
    ensures var u := Unowned(ToolOrder, p.inventory, 0);
            |Shop(p)| == |u| &&
            forall k :: 0 <= k < |u| ==> Shop(p)[k].tool == ToolOrder[u[k]] && Tier(Shop(p)[k].tool) == u[k]
  {
    ToolOrderTiers();
  }

  /** The positions `Unowned` picks name exactly the entries of `order` that are not in `inv`. */
  lemma UnownedNamesAll(order: seq<string>, inv: seq<string>, t: string)
    ensures var u := Unowned(order, inv, 0);
            (exists k :: 0 <= k < |u| && order[u[k]] == t) <==> t in order && t !in inv
  {
    var u := Unowned(order, inv, 0);
    if t in order && t !in inv {
      var j :| 0 <= j < |order| && order[j] == t;
      var k :| 0 <= k < |u| && u[k] == j;
    }
  }

  /** The shop lists exactly the unowned tools. */
  lemma ShopListsUnownedTools(p: Progress, t: string)
    ensures (exists k :: 0 <= k < |Shop(p)| && Shop(p)[k].tool == t) <==> t in ToolOrder && t !in p.inventory
  {
    ShopEntriesAt(p);
    UnownedNamesAll(ToolOrder, p.inventory, t);
  }

  /** The shop keeps the tool order; a button is unlocked when its tool is at most one tier above the best owned, and enabled when also affordable in points. */
  lemma ShopOrderAndLocks(p: Progress)
    ensures forall j, k :: 0 <= j < k < |Shop(p)| ==> Tier(Shop(p)[j].tool) < Tier(Shop(p)[k].tool)
    ensures forall k :: 0 <= k < |Shop(p)| ==>
              && Shop(p)[k].tool in ToolCosts
              && Shop(p)[k].unlocked == Unlocked(p.inventory, Shop(p)[k].tool)
              && Shop(p)[k].enabled == (Shop(p)[k].unlocked && p.points >= ToolCosts[Shop(p)[k].tool] as real)
  {
    ShopEntriesAt(p);
    ToolsArePriced();
  }

  /** The inventory the shop builds: the hand followed by the first tools of the tool order. */
  predicate IsChain(inv: seq<string>)
  {
    1 <= |inv| <= |ToolOrder| + 1 && inv == ["hand"] + ToolOrder[..|inv| - 1]
  }

  lemma {:induction false} ChainMaxTier(inv: seq<string>)
    requires IsChain(inv)
    ensures MaxTier(inv) == Some(|inv| - 2)
  {
    if |inv| > 1 {
      var init := inv[..|inv| - 1];
      assert init == ["hand"] + ToolOrder[..|init| - 1];
      ChainMaxTier(init);
      assert inv[|inv| - 1] == ToolOrder[|inv| - 2];
      TierAt(|inv| - 2);
    } else {
      assert inv == ["hand"];
      HandTier();
    }
  }

  lemma ChainGrows(inv: seq<string>, t: string)
    requires IsChain(inv) && Tier(t) == |inv| - 1
    ensures IsChain(inv + [t])
  {
    var n := |inv| - 1;
    assert t == ToolOrder[n];
    PrefixStep(inv, ToolOrder, n);
  }

  /** Appending the next entry of `order` to the hand and a prefix of `order` gives the hand and a prefix one longer. */
  lemma PrefixStep(inv: seq<string>, order: seq<string>, n: nat)
    requires n < |order| && inv == ["hand"] + order[..n]
    ensures inv + [order[n]] == ["hand"] + order[..n + 1]
  {
    assert order[..n + 1] == order[..n] + [order[n]];
  }

  /** Buying from the shop always takes the next tier, so the inventory stays the hand plus a prefix of the tool order. */
  lemma ShopPurchaseExtendsChain(p: Progress, t: string)
    requires IsChain(p.inventory) && Unlocked(p.inventory, t) && CanBuyTool(p, t)
    ensures |p.inventory| <= |ToolOrder| && t == ToolOrder[|p.inventory| - 1]
    ensures IsChain(ToolBought(p, t).inventory)
  {
    ChainMaxTier(p.inventory);
    var n := |p.inventory| - 1;
    assert Tier(t) == n;
    ChainGrows(p.inventory, t);
  }

  // ---------------------------------------------------------------------
  // Upgrades

  /** `autoClickerUpgrades[autoClickLevel]?.cost || {}`. */
  function NextAutoClickCost(level: int): Cost
  {
    if 0 <= level < |AutoClickerUpgrades| then AutoClickerUpgrades[level].cost else []
  }

  /** The auto-clicker button is shown while the next tier exists. */
  predicate AutoClickerOffered(p: Progress)
  {
    0 <= p.autoClickLevel < |AutoClickerUpgrades|
  }

  /** `handleAutoclickerUpgrade`. */
  function AutoClickerUpgraded(p: Progress): (q: Progress)
    ensures Inv(p) ==> Inv(q)
  {
    var c := NextAutoClickCost(p.autoClickLevel);
    if !Affordable(p.materials, c) then p
    else
      assert Inv(p) ==> NonNegative(Deduct(p.materials, c)) && QueueCovered(Deduct(p.materials, c), p.smeltingQueue) by {
        if Inv(p) {
          AutoClickerPriceListsClean(p.autoClickLevel);
          PayingCleanList(p.materials, p.smeltingQueue, c);
        }
      }
      p.(materials := Deduct(p.materials, c), autoClickLevel := p.autoClickLevel + 1)
  }

  /** An offered upgrade takes the next tier's price and raises the level by one, never past the table. */
  lemma AutoClickerUpgradeEffect(p: Progress)
    requires AutoClickerOffered(p)
    ensures var q := AutoClickerUpgraded(p);
            if Affordable(p.materials, AutoClickerUpgrades[p.autoClickLevel].cost) then
              && q.autoClickLevel == p.autoClickLevel + 1 <= |AutoClickerUpgrades|
              && (forall k :: Count(q.materials, k) == Count(p.materials, k) - CostOf(AutoClickerUpgrades[p.autoClickLevel].cost, k))
            else q == p
  {
    DeductCounts(p.materials, AutoClickerUpgrades[p.autoClickLevel].cost);
  }

  /** Past the last tier the handler's empty price list is always affordable. */
  lemma AutoClickerPastTableIsFree(p: Progress)
    requires p.autoClickLevel >= |AutoClickerUpgrades|
    ensures AutoClickerUpgraded(p) == p.(autoClickLevel := p.autoClickLevel + 1)
  {
  }

  /** The offline-earnings button's condition: unlocked by the auto-clicker, a next tier, and its price. */
  predicate CanUpgradeOffline(p: Progress)
  {
    p.autoClickLevel >= 1
    && 0 <= p.offlineEarningsLevel < |OfflineEarningsUpgrades|
    && Affordable(p.materials, OfflineEarningsUpgrades[p.offlineEarningsLevel].cost)
  }

  /** The offline-earnings upgrade button. */
  function OfflineUpgraded(p: Progress): (q: Progress)
    ensures Inv(p) ==> Inv(q)
  {
    if !CanUpgradeOffline(p) then p
    else
      var c := OfflineEarningsUpgrades[p.offlineEarningsLevel].cost;
      assert Inv(p) ==> NonNegative(Deduct(p.materials, c)) && QueueCovered(Deduct(p.materials, c), p.smeltingQueue) by {
        if Inv(p) {
          OfflinePriceListsClean(p.offlineEarningsLevel);
          PayingCleanList(p.materials, p.smeltingQueue, c);
        }
      }
      p.(materials := Deduct(p.materials, c), offlineEarningsLevel := p.offlineEarningsLevel + 1)
  }

  /** Without an auto-clicker or without the price nothing changes; otherwise the level rises by one for exactly its price. */
  lemma OfflineUpgradeEffect(p: Progress)
    ensures p.autoClickLevel < 1 ==> OfflineUpgraded(p) == p
    ensures var q := OfflineUpgraded(p);
            if CanUpgradeOffline(p) then
              && q.offlineEarningsLevel == p.offlineEarningsLevel + 1 <= |OfflineEarningsUpgrades|
              && (forall k :: Count(q.materials, k) == Count(p.materials, k) - CostOf(OfflineEarningsUpgrades[p.offlineEarningsLevel].cost, k))
            else q == p
  {
    if CanUpgradeOffline(p) {
      DeductCounts(p.materials, OfflineEarningsUpgrades[p.offlineEarningsLevel].cost);
    }
  }

  // ---------------------------------------------------------------------
  // Coal and materials

  /** "+ Add Coal (x1)": one coal from the materials becomes two units of reserve. */
  function CoalAdded(p: Progress): (q: Progress)
    ensures Inv(p) ==> Inv(q)
  {
    if Count(p.materials, "coal") >= 1
    then p.(materials := p.materials["coal" := Count(p.materials, "coal") - 1], coalReserve := p.coalReserve + 2.0)
    else p
  }

  lemma CoalAddedEffect(p: Progress)
    ensures var q := CoalAdded(p);
            if Count(p.materials, "coal") >= 1 then
              && Count(q.materials, "coal") == Count(p.materials, "coal") - 1
              && q.coalReserve == p.coalReserve + 2.0
              && (forall k :: k != "coal" ==> Count(q.materials, k) == Count(p.materials, k))
            else q == p
  {
  }

  /** An item of the materials shop: key, label, unit price in points and the slider's maximum. */
  datatype ShopMaterial = ShopMaterial(name: string, caption: string, cost: int, maxAmount: int)

  const MaterialShop: seq<ShopMaterial> := [
    ShopMaterial("cobble_stone", "Cobblestone", 20, 100),
    ShopMaterial("coal", "Coal", 50, 50)]

  /** `materialAmounts[name] || 1`. */
  function AmountOrOne(amounts: map<string, int>, name: string): int
  {
    if name in amounts && amounts[name] != 0 then amounts[name] else 1
  }

  /** The buy button: `amt` units for `amt * cost` points, when the points suffice. */
  function MaterialBought(p: Progress, item: ShopMaterial, amt: int): (q: Progress)
    ensures Inv(p) && amt >= 0 ==> Inv(q)
  {
    var cost := amt * item.cost;
    if p.points >= cost as real
    then p.(points := p.points - cost as real,
            materials := p.materials[item.name := Count(p.materials, item.name) + amt])
    else p
  }

  lemma MaterialPurchaseEffect(p: Progress, k: nat, amt: int)
    requires k < |MaterialShop| && 1 <= amt <= MaterialShop[k].maxAmount
    ensures var item := MaterialShop[k];
            var q := MaterialBought(p, item, amt);
            if p.points >= (amt * item.cost) as real then
              && q.points == p.points - (amt * item.cost) as real
              && Count(q.materials, item.name) == Count(p.materials, item.name) + amt
              && (forall m :: m != item.name ==> Count(q.materials, m) == Count(p.materials, m))
            else q == p
    ensures (amt * MaterialShop[k].cost) <= 2500
  {
  }

  // ---------------------------------------------------------------------
  // Smelting

  /** The slider's maximum: ore not already queued, in whole batches, capped by the coal reserve. */
  function MaxSmelt(p: Progress, ore: string): int
    requires ore in SmeltingRecipes
  {
    var input := SmeltingRecipes[ore].inputAmount;
    var available := Count(p.materials, ore) - InQueue(p.smeltingQueue, ore) * input;
    Min(available / input, (p.coalReserve * 4.0).Floor)
  }

  function Min(a: int, b: int): int
  {
    if a <= b then a else b
  }

  /** `Math.min(smeltAmounts[ore] || 0, maxAmount)`. */
  function SelectedAmount(p: Progress, ore: string): int
    requires ore in SmeltingRecipes
  {
    Min(Count(p.smeltAmounts, ore), MaxSmelt(p, ore))
  }

  /** The Smelt button is enabled: a positive selection and the coal it would need. */
  predicate CanSmelt(p: Progress, ore: string)
    requires ore in SmeltingRecipes
  {
    var n := SelectedAmount(p, ore);
    n > 0 && p.coalReserve >= n as real * 0.25
  }

  /** The Smelt button: queue the selected number of copies of `ore` and reset its slider. */
  function Enqueued(p: Progress, ore: string): (q: Progress)
    requires ore in SmeltingRecipes && CanSmelt(p, ore)
  {
    var n := SelectedAmount(p, ore);
    if Count(p.materials, ore) >= n * SmeltingRecipes[ore].inputAmount && p.coalReserve >= n as real * 0.25
    then p.(smeltingQueue := p.smeltingQueue + Repeat(ore, n), smeltAmounts := p.smeltAmounts[ore := 0])
    else p
  }

  lemma MulMono(x: int, y: int, b: int)
    requires x <= y && b >= 0
    ensures x * b <= y * b
  {
  }

  /** An enabled Smelt button always queues: it appends exactly the selection, at most the slider's maximum, burns no coal, and leaves every queued ore backed by ore in stock. */
  lemma EnqueueEffect(p: Progress, ore: string)
    requires ore in SmeltingRecipes && CanSmelt(p, ore)
    ensures var n := SelectedAmount(p, ore);
            var q := Enqueued(p, ore);
            && 0 < n <= MaxSmelt(p, ore)
            && n <= (p.coalReserve * 4.0).Floor
            && q.smeltingQueue == p.smeltingQueue + Repeat(ore, n)
            && Count(q.smeltAmounts, ore) == 0
            && q == p.(smeltingQueue := q.smeltingQueue, smeltAmounts := q.smeltAmounts)
            && InQueue(q.smeltingQueue, ore) * SmeltingRecipes[ore].inputAmount <= Count(p.materials, ore)
  {
    var n := SelectedAmount(p, ore);
    var input := SmeltingRecipes[ore].inputAmount;
    var k := InQueue(p.smeltingQueue, ore);
    var available := Count(p.materials, ore) - k * input;
    MulMono(n, available / input, input);
    assert (available / input) * input <= available;
    MulMono(0, k, input);
    RepeatCounts(ore, n, ore);
  }

  /** Queueing keeps the invariant. */
  lemma EnqueueKeepsInv(p: Progress, ore: string)
    requires Inv(p) && ore in SmeltingRecipes && CanSmelt(p, ore)
    ensures Inv(Enqueued(p, ore))
  {
    EnqueueEffect(p, ore);
    var n := SelectedAmount(p, ore);
    forall o | o in SmeltingRecipes && o != ore
      ensures InQueue(Enqueued(p, ore).smeltingQueue, o) == InQueue(p.smeltingQueue, o)
    {
      RepeatCounts(ore, n, o);
    }
  }

  /** The live smelt timer runs only with a built furnace, a non-empty queue and a quarter coal. */
  predicate SmelterRunning(p: Progress)
  {
    p.furnaceLevel != 0 && |p.smeltingQueue| > 0 && p.coalReserve >= 0.25
  }

  /** One firing of the live smelt timer. */
  function Ticked(p: Progress): (q: Progress)
    requires SmelterRunning(p)
  {
    var ore := p.smeltingQueue[0];
    var rest := p.smeltingQueue[1..];
    if ore !in SmeltingRecipes then p.(smeltingQueue := rest)
    else
      var r := SmeltingRecipes[ore];
      if Count(p.materials, ore) < r.inputAmount || p.coalReserve < 0.25 then p
      else
        p.(materials := p.materials[ore := Count(p.materials, ore) - r.inputAmount]
                                   [r.output := Count(p.materials, r.output) + r.amount],
           coalReserve := p.coalReserve - 0.25,
           smeltingQueue := rest)
  }

  /** The tick takes from the front only: the queue loses its head or stays as it was, and a successful smelt is the catch-up loop's step. */
  lemma TickEffect(p: Progress)
    requires SmelterRunning(p)
    ensures var q := Ticked(p);
            var ore := p.smeltingQueue[0];
            && (q.smeltingQueue == p.smeltingQueue[1..] || q == p)
            && (ore !in SmeltingRecipes ==> q == p.(smeltingQueue := p.smeltingQueue[1..]))
            && (ore in SmeltingRecipes && Count(p.materials, ore) < SmeltingRecipes[ore].inputAmount ==> q == p)
            && (ore in SmeltingRecipes && Count(p.materials, ore) >= SmeltingRecipes[ore].inputAmount ==>
                  var s := GameData.SmeltOne(GameData.Smelting(p.materials, p.coalReserve, map[]), ore);
                  q == p.(materials := s.materials, coalReserve := s.coal, smeltingQueue := p.smeltingQueue[1..]))
  {
  }

  /** The tick keeps the invariant; with the invariant, the head ore is always in stock. */
  lemma TickKeepsInv(p: Progress)
    requires Inv(p) && SmelterRunning(p)
    ensures Inv(Ticked(p))
    ensures p.smeltingQueue[0] in SmeltingRecipes ==> Ticked(p).smeltingQueue == p.smeltingQueue[1..]
  {
    var q := p.smeltingQueue;
    var ore := q[0];
    if ore in SmeltingRecipes {
      CoveredAfterSmelt(p.materials, q);
      var r := SmeltingRecipes[ore];
      var m' := p.materials[ore := Count(p.materials, ore) - r.inputAmount][r.output := Count(p.materials, r.output) + r.amount];
      TickedSmelts(p);
      InvKeptBy(p, p.(materials := m', coalReserve := p.coalReserve - 0.25, smeltingQueue := q[1..]));
    } else {
      CoveredAfterDrop(p.materials, q);
      InvKeptBy(p, p.(smeltingQueue := q[1..]));
    }
  }

  /** A tick on a head ore in stock smelts it: the ore's input goes, its output arrives, a quarter coal burns and the head leaves the queue. */
  lemma TickedSmelts(p: Progress)
    requires SmelterRunning(p) && p.smeltingQueue[0] in SmeltingRecipes
    requires Count(p.materials, p.smeltingQueue[0]) >= SmeltingRecipes[p.smeltingQueue[0]].inputAmount
    ensures var ore := p.smeltingQueue[0];
            var r := SmeltingRecipes[ore];
            Ticked(p) == p.(materials := p.materials[ore := Count(p.materials, ore) - r.inputAmount][r.output := Count(p.materials, r.output) + r.amount],
                            coalReserve := p.coalReserve - 0.25, smeltingQueue := p.smeltingQueue[1..])
  {
  }

  /** The invariant survives a step that changes only the materials, the coal reserve and the queue, when those stay sound. */
  lemma InvKeptBy(p: Progress, t: Progress)
    requires Inv(p)
    requires t == p.(materials := t.materials, coalReserve := t.coalReserve, smeltingQueue := t.smeltingQueue)
    requires t.coalReserve >= 0.0 && NonNegative(t.materials) && QueueCovered(t.materials, t.smeltingQueue)
    ensures Inv(t)
  {
  }

  /** Dropping the queue's head keeps every queued ore backed. */
  lemma CoveredAfterDrop(m: map<string, int>, q: seq<string>)
    requires q != [] && QueueCovered(m, q)
    ensures QueueCovered(m, q[1..])
  {
    DropHeadCounts(q);
    forall o | o in SmeltingRecipes
      ensures InQueue(q[1..], o) * SmeltingRecipes[o].inputAmount <= Count(m, o)
    {
      RecipeAt(o);
      MulMono(InQueue(q[1..], o), InQueue(q, o), SmeltingRecipes[o].inputAmount);
    }
  }

  /** Smelting the queue's head: its ore is in stock, and taking the input and adding the output keeps the counts non-negative and the rest of the queue backed. */
  lemma CoveredAfterSmelt(m: map<string, int>, q: seq<string>)
    requires q != [] && q[0] in SmeltingRecipes && QueueCovered(m, q) && NonNegative(m)
    ensures var ore := q[0];
            var r := SmeltingRecipes[ore];
            var m' := m[ore := Count(m, ore) - r.inputAmount][r.output := Count(m, r.output) + r.amount];
            && Count(m, ore) >= r.inputAmount
            && NonNegative(m')
            && QueueCovered(m', q[1..])
  {
    var ore := q[0];
    var r := SmeltingRecipes[ore];
    var m' := m[ore := Count(m, ore) - r.inputAmount][r.output := Count(m, r.output) + r.amount];
    RecipeAt(ore);
    MulMono(1, InQueue(q, ore), r.inputAmount);
    DropHeadCounts(q);
    forall o | o in SmeltingRecipes
      ensures InQueue(q[1..], o) * SmeltingRecipes[o].inputAmount <= Count(m', o)
    {
      RecipeAt(o);
      assert o != r.output;
      MulMono(InQueue(q[1..], o), InQueue(q, o), SmeltingRecipes[o].inputAmount);
    }
  }

  /** Dropping the head of a queue lowers its count by one and leaves every other count alone. */
  lemma DropHeadCounts(q: seq<string>)
    requires q != []
    ensures forall o :: InQueue(q[1..], o) == InQueue(q, o) - (if o == q[0] then 1 else 0)
  {
    assert q == [q[0]] + q[1..];
  }

  // ---------------------------------------------------------------------
  // Tabs

  const ShopTabs: seq<string> := ["tools", "upgrades", "materials", "loot"]

  /** `tabs.indexOf(t)`. */
  function ShopTabIndex(t: string): (r: int)
    ensures -1 <= r < |ShopTabs|
    ensures r >= 0 ==> ShopTabs[r] == t
    ensures r == -1 <==> t !in ShopTabs
  {
    if t == "tools" then 0 else if t == "upgrades" then 1 else if t == "materials" then 2
    else if t == "loot" then 3 else -1
  }

  /** The shop's left arrow: `tabs[(currentIndex + 1) % tabs.length]`. */
  function ShopTabLeft(t: string): string
  {
    ShopTabs[(ShopTabIndex(t) + 1) % |ShopTabs|]
  }

  /** The shop's right arrow: `tabs[(currentIndex - 1 + tabs.length) % tabs.length]`. */
  function ShopTabRight(t: string): string
  {
    ShopTabs[(ShopTabIndex(t) - 1 + |ShopTabs|) % |ShopTabs|]
  }

  /** The arrows undo each other, the left arrow walks forward through the list, and four presses come back. */
  lemma ShopTabsRotate(t: string)
    requires t in ShopTabs
    ensures ShopTabRight(ShopTabLeft(t)) == t && ShopTabLeft(ShopTabRight(t)) == t
    ensures ShopTabIndex(ShopTabLeft(t)) == (ShopTabIndex(t) + 1) % 4
    ensures ShopTabLeft(ShopTabLeft(ShopTabLeft(ShopTabLeft(t)))) == t
  {
    var i := ShopTabIndex(t);
    var a, b, c := (i + 1) % 4, (i + 2) % 4, (i + 3) % 4;
    assert (a + 3) % 4 == i && (c + 1) % 4 == i && (a + 1) % 4 == b && (b + 1) % 4 == c;
    LeftAt(i);
    LeftAt(a);
    LeftAt(b);
    LeftAt(c);
    RightAt(i);
    RightAt(a);
    ShopTabIndexAt(a);
  }

  lemma LeftAt(i: int)
    requires 0 <= i < |ShopTabs|
    ensures ShopTabLeft(ShopTabs[i]) == ShopTabs[(i + 1) % 4]
  {
    ShopTabIndexAt(i);
  }

  lemma RightAt(i: int)
    requires 0 <= i < |ShopTabs|
    ensures ShopTabRight(ShopTabs[i]) == ShopTabs[(i + 3) % 4]
  {
    ShopTabIndexAt(i);
  }

  /** Each tab's index is its position in the list. */
  lemma ShopTabIndexAt(j: int)
    requires 0 <= j < |ShopTabs|
    ensures ShopTabIndex(ShopTabs[j]) == j
  {
  }

  /** An unknown tab is left for "tools" by the left arrow and for "materials" by the right one. */
  lemma ShopTabsRecover(t: string)
    requires t !in ShopTabs
    ensures ShopTabLeft(t) == "tools" && ShopTabRight(t) == "materials"
  {
  }

  function InventoryTabLeft(t: string): string
  {
    if t == "materials" then "tools" else "materials"
  }

  function InventoryTabRight(t: string): string
  {
    if t == "tools" then "materials" else "tools"
  }

  /** Both inventory arrows switch between the two tabs. */
  lemma InventoryTabsToggle(t: string)
    requires t == "tools" || t == "materials"
    ensures InventoryTabLeft(t) == InventoryTabRight(t) != t
    ensures InventoryTabLeft(t) in {"tools", "materials"}
  {
  }

  // ---------------------------------------------------------------------
  // Saving and loading

  /** A list of strings as a JSON array. */
  function StringArray(items: seq<string>): (r: GameData.Json)
    ensures r.JArray? && GameData.AllStrings(r.items) && GameData.Strings(r.items) == items
  {
    var r := GameData.JArray(seq(|items|, i requires 0 <= i < |items| => GameData.JString(items[i])));
    assert GameData.Strings(r.items) == items;
    r
  }

  /** A map of counts as a JSON object of numbers. */
  function CountObject(m: map<string, int>): (r: GameData.Json)
    ensures GameData.IsCountObject(r) && GameData.Counts(r) == m
  {
    var r := GameData.JObject(map k | k in m :: GameData.JNumber(m[k] as real));
    assert GameData.Counts(r) == m;
    r
  }

  /** The body the page posts every five seconds and on unload: its whole progress, offline-earnings level included. */
  function Payload(p: Progress): GameData.SaveBody
  {
    GameData.SaveBody(
      GameData.JNumber(p.points), GameData.JString(p.tool), StringArray(p.inventory), CountObject(p.materials),
      GameData.JNumber(p.autoClickLevel as real), GameData.JNumber(p.furnaceLevel as real), GameData.JNumber(p.coalReserve),
      StringArray(p.smeltingQueue), CountObject(p.smeltAmounts), GameData.JNumber(p.offlineEarningsLevel as real))
  }

  /**
   * The progress the page takes from a loaded save. The row's lists and
   * maps are never `null`, so the `|| ["hand"]`, `|| []`, `|| {}` and
   * `|| 0` fallbacks leave every field as loaded.
   */
  function Restored(row: GameData.GameRow): Progress
  {
    Progress(row.points, row.tool, row.inventory, row.materials, row.autoClickLevel, row.offlineEarningsLevel,
             row.furnaceLevel, row.coalReserve, row.smeltingQueue, row.smeltAmounts)
  }

  /** What the page saves passes the route's checks, and loading the stored row gives the page back the same progress. */
  lemma SavedProgressRestored(existing: Option<GameData.GameRow>, p: Progress, now: int)
    ensures GameData.ValidSaveBody(Payload(p)) && GameData.Storable(Payload(p))
    ensures Restored(GameData.Save(existing, Payload(p), now)) == p
  {
    var b := Payload(p);
    assert GameData.IsIntegral(b.offlineEarningsLevel);
    GameData.SaveStoresProgress(existing, b, now);
  }

  /** As written, the save drops the offline-earnings level, so a reload gives back the level stored before. */
  lemma SavedProgressRestoredAsWritten(existing: GameData.GameRow, p: Progress, now: int)
    ensures Restored(GameData.SaveAsWritten(Some(existing), Payload(p), now)) == p.(offlineEarningsLevel := existing.offlineEarningsLevel)
  {
    SavedProgressRestored(Some(existing), p, now);
  }

  /** A Smelt slider moved to a positive value within its maximum selects that value and enables the Smelt button. */
  lemma SmeltSliderEnables(p: Progress, ore: string, v: int)
    requires ore in SmeltingRecipes && 0 < v <= MaxSmelt(p, ore)
    ensures var q := p.(smeltAmounts := p.smeltAmounts[ore := v]);
            SelectedAmount(q, ore) == v && CanSmelt(q, ore)
  {
    var q := p.(smeltAmounts := p.smeltAmounts[ore := v]);
    assert MaxSmelt(q, ore) == MaxSmelt(p, ore);
    assert v as real <= p.coalReserve * 4.0;
  }

  // ---------------------------------------------------------------------
  // The page

  /** `for (const [mat, amt] of Object.entries(cost)) updated[mat] -= amt` on a copy of the materials. */
  method PayFrom(materials: map<string, int>, cost: Cost) returns (updated: map<string, int>)
    ensures updated == Deduct(materials, cost)
    ensures forall k :: Count(updated, k) == Count(materials, k) - CostOf(cost, k)
  {
    updated := materials;
    var i := 0;
    while i < |cost|
      invariant 0 <= i <= |cost|
      invariant updated == Deduct(materials, cost[..i])
    {
      assert cost[..i + 1][..i] == cost[..i];
      var (mat, amt) := cost[i];
      updated := updated[mat := Count(updated, mat) - amt];
      i := i + 1;
    }
    assert cost[..|cost|] == cost;
    DeductCounts(materials, cost);
  }

  /** The game page's state: the saved progress plus the tab and slider selections. */
  class Game {
    var points: real
    var tool: string
    var inventory: seq<string>
    var materials: map<string, int>
    var autoClickLevel: int
    var offlineEarningsLevel: int
    var furnaceLevel: int
    var coalReserve: real
    var smeltingQueue: seq<string>
    var smeltAmounts: map<string, int>
    var materialAmounts: map<string, int>
    var shopTab: string
    var inventoryTab: string

    function State(): Progress
      reads this
    {
      Progress(points, tool, inventory, materials, autoClickLevel, offlineEarningsLevel, furnaceLevel,
               coalReserve, smeltingQueue, smeltAmounts)
    }

    /** Every material slider that was moved holds a value of at least 1, its minimum. */
    predicate SlidersValid()
      reads this
    {
      forall name | name in materialAmounts :: materialAmounts[name] >= 1
    }

    constructor ()
      ensures State() == Initial && Inv(State())
      ensures materialAmounts == map[] && shopTab == "tools" && inventoryTab == "tools" && SlidersValid()
    {
      points, tool, inventory, materials := 0.0, "hand", ["hand"], map[];
      autoClickLevel, offlineEarningsLevel, furnaceLevel, coalReserve := 0, 0, 0, 0.0;
      smeltingQueue, smeltAmounts := [], map[];
      materialAmounts, shopTab, inventoryTab := map[], "tools", "tools";
    }

    /** `upgradeFurnace`. */
    method UpgradeFurnace()
      modifies this`materials, this`furnaceLevel
      ensures State() == FurnaceUpgraded(old(State()))
      ensures Inv(old(State())) ==> Inv(State())
    {
      if furnaceLevel >= MaxFurnaceLevel {
        return;
      }
      var cobbleCost := FurnaceCobbleCost(furnaceLevel);
      var coalCost := FurnaceCoalCost(furnaceLevel);
      if Count(materials, "cobble_stone") >= cobbleCost && Count(materials, "coal") >= coalCost {
        materials := materials["cobble_stone" := Count(materials, "cobble_stone") - cobbleCost]
                              ["coal" := Count(materials, "coal") - coalCost];
        furnaceLevel := furnaceLevel + 1;
      }
    }

    /** `handleUpgrade(newTool)`. */
    method HandleUpgrade(newTool: string)
      modifies this`points, this`materials, this`tool, this`inventory
      ensures State() == ToolBought(old(State()), newTool)
      ensures Inv(old(State())) ==> Inv(State())
    {
      ghost var s := State();
      var currentMaxTier := MaxTier(inventory);
      var newTier := Tier(newTool);
      var materialCost := MaterialCostOf(newTool);
      var hasEnoughMaterials := Affordable(materials, materialCost);
      if newTool in ToolCosts && points >= ToolCosts[newTool] as real
         && AboveTiers(newTier, currentMaxTier) && hasEnoughMaterials {
        var paid := PayFrom(materials, materialCost);
        materials, points, tool, inventory := paid, points - ToolCosts[newTool] as real, newTool, inventory + [newTool];
        assert State() == ToolBought(s, newTool);
      } else {
        assert State() == ToolBought(s, newTool);
      }
    }

    /** `handleAutoclickerUpgrade`. */
    method AutoclickerUpgrade()
      modifies this`materials, this`autoClickLevel
      ensures State() == AutoClickerUpgraded(old(State()))
      ensures Inv(old(State())) ==> Inv(State())
    {
      var cost := NextAutoClickCost(autoClickLevel);
      if !Affordable(materials, cost) {
        return;
      }
      materials := PayFrom(materials, cost);
      autoClickLevel := autoClickLevel + 1;
    }

    /** The offline-earnings upgrade button. */
    method OfflineUpgrade()
      modifies this`materials, this`offlineEarningsLevel
      ensures State() == OfflineUpgraded(old(State()))
      ensures Inv(old(State())) ==> Inv(State())
    {
      var locked := autoClickLevel < 1;
      var canAfford := 0 <= offlineEarningsLevel < |OfflineEarningsUpgrades|
                       && Affordable(materials, OfflineEarningsUpgrades[offlineEarningsLevel].cost);
      if locked || !canAfford {
        return;
      }
      materials := PayFrom(materials, OfflineEarningsUpgrades[offlineEarningsLevel].cost);
      offlineEarningsLevel := offlineEarningsLevel + 1;
    }

    /** "+ Add Coal (x1)". */
    method AddCoal()
      modifies this`materials, this`coalReserve
      ensures State() == CoalAdded(old(State()))
      ensures Inv(old(State())) ==> Inv(State())
    {
      if Count(materials, "coal") >= 1 {
        materials := materials["coal" := Count(materials, "coal") - 1];
        coalReserve := coalReserve + 2.0;
      }
    }

    /** The buy button of the `k`-th item of the materials shop. */
    method BuyMaterial(k: nat)
      requires k < |MaterialShop|
      modifies this`points, this`materials
      ensures State() == MaterialBought(old(State()), MaterialShop[k], AmountOrOne(materialAmounts, MaterialShop[k].name))
      ensures Inv(old(State())) && SlidersValid() ==> Inv(State())
    {
      var item := MaterialShop[k];
      var amt := AmountOrOne(materialAmounts, item.name);
      var cost := amt * item.cost;
      if points >= cost as real {
        points := points - cost as real;
        materials := materials[item.name := Count(materials, item.name) + amt];
      }
    }

    /** The `k`-th material's slider moved to `v`, between 1 and the item's maximum. */
    method SetMaterialAmount(k: nat, v: int)
      requires k < |MaterialShop| && 1 <= v <= MaterialShop[k].maxAmount
      modifies this`materialAmounts
      ensures materialAmounts == old(materialAmounts)[MaterialShop[k].name := v]
      ensures AmountOrOne(materialAmounts, MaterialShop[k].name) == v
      ensures old(SlidersValid()) ==> SlidersValid()
    {
      materialAmounts := materialAmounts[MaterialShop[k].name := v];
    }

    /** The Smelt slider of `ore` moved to `v`; the slider is disabled when the ore's maximum is 0, and otherwise runs from 0 to `Math.max(1, maximum)`. */
    method SetSmeltAmount(ore: string, v: int)
      requires ore in SmeltingRecipes && MaxSmelt(State(), ore) != 0
      requires 0 <= v <= (if MaxSmelt(State(), ore) < 1 then 1 else MaxSmelt(State(), ore))
      modifies this`smeltAmounts
      ensures smeltAmounts == old(smeltAmounts)[ore := v]
      ensures State() == old(State()).(smeltAmounts := smeltAmounts)
      ensures 0 < v <= MaxSmelt(State(), ore) ==> SelectedAmount(State(), ore) == v && CanSmelt(State(), ore)
      ensures Inv(old(State())) ==> Inv(State())
    {
      ghost var before := State();
      if 0 < v <= MaxSmelt(before, ore) {
        SmeltSliderEnables(before, ore, v);
      }
      smeltAmounts := smeltAmounts[ore := v];
      assert State() == before.(smeltAmounts := before.smeltAmounts[ore := v]);
    }

    /** The load of the save: a found save replaces the whole progress; `null` (no save yet) leaves the page as it was. */
    method LoadSave(resp: GameData.LoadResponse)
      modifies this`points, this`tool, this`inventory, this`materials, this`autoClickLevel, this`offlineEarningsLevel,
               this`furnaceLevel, this`coalReserve, this`smeltingQueue, this`smeltAmounts
      ensures resp.Found? ==> State() == Restored(resp.loaded.row)
      ensures !resp.Found? ==> State() == old(State())
    {
      if !resp.Found? {
        return;
      }
      var data := resp.loaded.row;
      offlineEarningsLevel, points, tool, inventory, materials := data.offlineEarningsLevel, data.points, data.tool, data.inventory, data.materials;
      autoClickLevel, furnaceLevel, coalReserve, smeltingQueue, smeltAmounts :=
        data.autoClickLevel, data.furnaceLevel, data.coalReserve, data.smeltingQueue, data.smeltAmounts;
    }

    /** The Smelt button of a listed ore (listed when some of it is in stock, enabled by `CanSmelt`). */
    method Enqueue(ore: string)
      requires ore in SmeltingRecipes && Count(materials, ore) != 0 && CanSmelt(State(), ore)
      modifies this`smeltingQueue, this`smeltAmounts
      ensures State() == Enqueued(old(State()), ore)
      ensures Inv(old(State())) ==> Inv(State())
    {
      ghost var before := State();
      var selectedAmount := SelectedAmount(State(), ore);
      var requiredOre := selectedAmount * SmeltingRecipes[ore].inputAmount;
      var requiredCoal := selectedAmount as real * 0.25;
      if Count(materials, ore) >= requiredOre && coalReserve >= requiredCoal {
        smeltingQueue := smeltingQueue + Repeat(ore, selectedAmount);
        smeltAmounts := smeltAmounts[ore := 0];
      }
      if Inv(before) {
        EnqueueKeepsInv(before, ore);
      }
    }

    /** One firing of the live smelt timer, which runs only while `SmelterRunning` holds. */
    method SmeltTick()
      requires SmelterRunning(State())
      modifies this`materials, this`coalReserve, this`smeltingQueue
      ensures State() == Ticked(old(State()))
      ensures Inv(old(State())) ==> Inv(State())
    {
      ghost var before := State();
      if Inv(before) {
        TickKeepsInv(before);
      }
      var ore := smeltingQueue[0];
      var rest := smeltingQueue[1..];
      if ore !in SmeltingRecipes {
        smeltingQueue := rest;
        assert State() == before.(smeltingQueue := rest);
        return;
      }
      var recipe := SmeltingRecipes[ore];
      var hasEnoughOre := Count(materials, ore) >= recipe.inputAmount;
      var hasEnoughCoal := coalReserve >= 0.25;
      if !hasEnoughOre || !hasEnoughCoal {
        assert State() == before;
        return;
      }
      TickedSmelts(before);
      materials, coalReserve, smeltingQueue :=
        materials[ore := Count(materials, ore) - recipe.inputAmount][recipe.output := Count(materials, recipe.output) + recipe.amount],
        coalReserve - 0.25, rest;
    }

    /** Clicking an owned pickaxe in the inventory equips it. */
    method Equip(item: string)
      requires item in inventory && item != "hand"
      modifies this`tool
      ensures tool == item
      ensures Inv(old(State())) ==> Inv(State())
    {
      tool := item;
    }

    method ShopArrowLeft()
      modifies this`shopTab
      ensures shopTab == ShopTabLeft(old(shopTab))
    {
      shopTab := ShopTabLeft(shopTab);
    }

    method ShopArrowRight()
      modifies this`shopTab
      ensures shopTab == ShopTabRight(old(shopTab))
    {
      shopTab := ShopTabRight(shopTab);
    }

    method InventoryArrowLeft()
      modifies this`inventoryTab
      ensures inventoryTab == InventoryTabLeft(old(inventoryTab))
    {
      inventoryTab := InventoryTabLeft(inventoryTab);
    }

    method InventoryArrowRight()
      modifies this`inventoryTab
      ensures inventoryTab == InventoryTabRight(old(inventoryTab))
    {
      inventoryTab := InventoryTabRight(inventoryTab);
    }
  }
}
