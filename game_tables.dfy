// The clicker game's fixed tables: tool prices, material prices, drop
// tables, display names, auto-clicker and offline-earnings upgrade tiers,
// per-click values, the tool order, and the server's smelting recipes.
module GameTables {

  /** A price list: material name and amount, in the order the literal lists them. */
  type Cost = seq<(string, int)>

  datatype Drop = Drop(name: string, chance: real)

  datatype AutoClickerUpgrade = AutoClickerUpgrade(rate: real, cost: Cost)

  datatype OfflineUpgrade = OfflineUpgrade(level: nat, cost: Cost, capMinutes: nat)

  datatype Recipe = Recipe(output: string, amount: int, inputAmount: int)

  const ToolCosts: map<string, int> := map[
    "wooden" := 100, "stone" := 500, "copper" := 2500, "iron" := 10000,
    "gold" := 50000, "diamond" := 200000, "netherite" := 1000000]

  const ToolMaterialCosts: map<string, Cost> := map[
    "stone" := [("cobble_stone", 100)],
    "copper" := [("cobble_stone", 200), ("copper_ingot", 25)],
    "iron" := [("cobble_stone", 300), ("copper_ingot", 40), ("iron_ingot", 25)],
    "gold" := [("cobble_stone", 500), ("copper_ingot", 75), ("iron_ingot", 50), ("gold_ingot", 20)],
    "diamond" := [("cobble_stone", 700), ("copper_ingot", 100), ("iron_ingot", 75), ("gold_ingot", 50),
                  ("diamond", 10)],
    "netherite" := [("cobble_stone", 1000), ("copper_ingot", 150), ("iron_ingot", 100), ("gold_ingot", 75),
                    ("diamond", 25), ("netherite_ingot", 5)]]

  const MaterialDrops: map<string, seq<Drop>> := map[
    "wooden" := [Drop("cobble_stone", 0.75), Drop("coal", 0.2), Drop("copper_ore", 0.05)],
    "stone" := [Drop("cobble_stone", 0.74), Drop("coal", 0.2), Drop("copper_ore", 0.06)],
    "copper" := [Drop("cobble_stone", 0.715), Drop("coal", 0.2), Drop("copper_ore", 0.07),
                 Drop("iron_ore", 0.015)],
    "iron" := [Drop("cobble_stone", 0.685), Drop("coal", 0.2), Drop("copper_ore", 0.08),
               Drop("iron_ore", 0.02), Drop("gold_ore", 0.015)],
    "gold" := [Drop("cobble_stone", 0.635), Drop("coal", 0.2), Drop("copper_ore", 0.09),
               Drop("iron_ore", 0.03), Drop("gold_ore", 0.025), Drop("diamond", 0.005)],
    "diamond" := [Drop("cobble_stone", 0.58), Drop("coal", 0.2), Drop("copper_ore", 0.1),
                  Drop("iron_ore", 0.035), Drop("gold_ore", 0.035), Drop("diamond", 0.005),
                  Drop("netherite_ore", 0.001)],
    "netherite" := [Drop("cobble_stone", 0.5825), Drop("coal", 0.2), Drop("copper_ore", 0.11),
                    Drop("iron_ore", 0.035), Drop("gold_ore", 0.035), Drop("diamond", 0.0075),
                    Drop("netherite_ore", 0.001)]]

  const MaterialNames: map<string, string> := map[
    "cobble_stone" := "Cobblestone", "copper_ore" := "Copper Ore", "iron_ore" := "Iron Ore",
    "gold_ore" := "Gold Ore", "diamond" := "Diamond", "netherite_ore" := "Netherite Ore",
    "coal" := "Coal", "copper_ingot" := "Copper Ingot", "iron_ingot" := "Iron Ingot",
    "gold_ingot" := "Gold Ingot", "netherite_ingot" := "Netherite Ingot"]

  const AutoClickerUpgrades: seq<AutoClickerUpgrade> := [
    AutoClickerUpgrade(0.5, [("cobble_stone", 200), ("copper_ingot", 1)]),
    AutoClickerUpgrade(1.0, [("cobble_stone", 500), ("copper_ingot", 3)]),
    AutoClickerUpgrade(2.0, [("cobble_stone", 1000), ("iron_ingot", 10)]),
    AutoClickerUpgrade(3.5, [("cobble_stone", 2000), ("gold_ingot", 5)]),
    AutoClickerUpgrade(5.0, [("cobble_stone", 5000), ("diamond", 2)]),
    AutoClickerUpgrade(7.5, [("cobble_stone", 10000), ("netherite_ingot", 1)])]

  const ValuePerClick: map<string, real> := map[
    "hand" := 0.5, "wooden" := 1.0, "stone" := 2.0, "copper" := 4.0, "iron" := 8.0,
    "gold" := 16.0, "diamond" := 32.0, "netherite" := 64.0]

  const ToolOrder: seq<string> := ["wooden", "stone", "copper", "iron", "gold", "diamond", "netherite"]

  const OfflineEarningsUpgrades: seq<OfflineUpgrade> := [
    OfflineUpgrade(1, [("cobble_stone", 500), ("copper_ingot", 5)], 30),
    OfflineUpgrade(2, [("cobble_stone", 1000), ("copper_ingot", 15), ("iron_ingot", 5)], 60),
    OfflineUpgrade(3, [("cobble_stone", 2000), ("iron_ingot", 20), ("gold_ingot", 5)], 90),
    OfflineUpgrade(4, [("cobble_stone", 3000), ("iron_ingot", 40), ("gold_ingot", 20)], 120),
    OfflineUpgrade(5, [("cobble_stone", 5000), ("diamond", 5)], 180),
    OfflineUpgrade(6, [("cobble_stone", 7500), ("diamond", 10), ("netherite_ingot", 1)], 240),
    OfflineUpgrade(7, [("cobble_stone", 10000), ("diamond", 15), ("netherite_ingot", 2)], 360),
    OfflineUpgrade(8, [("cobble_stone", 15000), ("diamond", 25), ("netherite_ingot", 4)], 480),
    OfflineUpgrade(9, [("cobble_stone", 20000), ("diamond", 35), ("netherite_ingot", 6)], 600),
    OfflineUpgrade(10, [("cobble_stone", 30000), ("diamond", 50), ("netherite_ingot", 10)], 720)]

  /** The smelting recipes of the game-data route (the browser's own copy is not part of this model). */
  const SmeltingRecipes: map<string, Recipe> := map[
    "copper_ore" := Recipe("copper_ingot", 1, 1),
    "iron_ore" := Recipe("iron_ingot", 1, 1),
    "gold_ore" := Recipe("gold_ingot", 1, 1),
    "netherite_ore" := Recipe("netherite_ingot", 1, 4)]

  /** `m[k] || 0` on a count map: a missing key counts as zero. */
  function Count(m: map<string, int>, k: string): int
  {
    if k in m then m[k] else 0
  }

  /** `toolOrder.indexOf(t)`: the tier of a tool, -1 for "hand" and for anything unknown. */
  function Tier(t: string): (r: int)
    ensures -1 <= r < |ToolOrder|
    ensures r >= 0 ==> ToolOrder[r] == t
    ensures r == -1 <==> t !in ToolOrder
  {
    TierFrom(t, 0)
  }

  function TierFrom(t: string, i: nat): (r: int)
    requires i <= |ToolOrder|
    ensures -1 <= r < |ToolOrder|
    ensures r >= 0 ==> i <= r && ToolOrder[r] == t && t !in ToolOrder[i..r]
    ensures r == -1 <==> t !in ToolOrder[i..]
    decreases |ToolOrder| - i
  {
    if i == |ToolOrder| then -1
    else if ToolOrder[i] == t then i
    else TierFrom(t, i + 1)
  }

  /** A recipe takes and gives at least one unit, and its output is no ore of another recipe. */
  lemma RecipeAt(ore: string)
    requires ore in SmeltingRecipes
    ensures SmeltingRecipes[ore].inputAmount >= 1 && SmeltingRecipes[ore].amount >= 1
    ensures SmeltingRecipes[ore].output !in SmeltingRecipes
  {
  }

  /** Every tool of the tool order has a point price; every tool after the wooden pickaxe also has a material price list, and the wooden one has none. */
  lemma ToolsArePriced()
    ensures forall i :: 0 <= i < |ToolOrder| ==> ToolOrder[i] in ToolCosts
    ensures forall i :: 1 <= i < |ToolOrder| ==> ToolOrder[i] in ToolMaterialCosts
    ensures ToolOrder[0] == "wooden" && "wooden" !in ToolMaterialCosts
  {
  }

  /** Each tool's tier is its position in the tool order. */
  lemma ToolOrderTiers()
    ensures forall i :: 0 <= i < |ToolOrder| ==> Tier(ToolOrder[i]) == i
    ensures Tier("hand") == -1
  {
    forall i | 0 <= i < |ToolOrder| ensures Tier(ToolOrder[i]) == i {
      TierAt(i);
    }
    HandTier();
  }

  /** The tool at position `i` of the tool order has tier `i`. */
  lemma TierAt(i: int)
    requires 0 <= i < |ToolOrder|
    ensures Tier(ToolOrder[i]) == i
  {
    ToolOrderDistinct();
    var r := Tier(ToolOrder[i]);
    assert ToolOrder[r] == ToolOrder[i];
  }

  /** The bare hand is no tool of the tool order. */
  lemma HandTier()
    ensures Tier("hand") == -1
  {
    assert "hand"[0] != "copper"[0] && "hand"[0] != "iron"[0] && "hand"[0] != "gold"[0];
    assert "hand" !in ToolOrder;
  }

  /** No tool appears twice in the tool order. */
  lemma ToolOrderDistinct()
    ensures forall a, b :: 0 <= a < b < |ToolOrder| ==> ToolOrder[a] != ToolOrder[b]
  {
    assert ToolOrder[0][0] != ToolOrder[2][0];
    assert ToolOrder[3][0] != ToolOrder[4][0];
  }

  /** Sum of the chances of the first `k` entries of a drop table: the running total the draw loop keeps. */
  function CumChance(drops: seq<Drop>, k: nat): real
    requires k <= |drops|
  {
    if k == 0 then 0.0 else CumChance(drops, k - 1) + drops[k - 1].chance
  }

  /** Sum of the chances from entry `i` to the end of a drop table. */
  function ChanceSumFrom(drops: seq<Drop>, i: nat): real
    decreases |drops| - i
  {
    if i >= |drops| then 0.0 else drops[i].chance + ChanceSumFrom(drops, i + 1)
  }

  /** Sum of all the chances of a drop table. */
  function ChanceSum(drops: seq<Drop>): real
  {
    ChanceSumFrom(drops, 0)
  }

  /** The running total over the whole table is the table's sum. */
  lemma {:induction false} CumChanceIsChanceSum(drops: seq<Drop>)
    ensures CumChance(drops, |drops|) == ChanceSum(drops)
  {
    var k := 0;
    while k < |drops|
      invariant k <= |drops|
      invariant CumChance(drops, k) + ChanceSumFrom(drops, k) == ChanceSum(drops)
    {
      k := k + 1;
    }
  }

  predicate Priced(c: Cost)
  {
    forall i :: 0 <= i < |c| ==> c[i].0 in MaterialNames && c[i].1 > 0
  }

  /** The tools are seven, priced in strictly increasing order along the tool order. */
  lemma ToolCostsIncrease()
    ensures |ToolOrder| == 7
    ensures forall t :: t in ToolOrder <==> t in ToolCosts
    ensures forall i, j :: 0 <= i < j < |ToolOrder| ==> ToolCosts[ToolOrder[i]] < ToolCosts[ToolOrder[j]]
  {
  }

  /** Each tool in the order earns twice the previous one per click, from 1 to 64; the bare hand earns 0.5. */
  lemma ValuePerClickDoubles()
    ensures ValuePerClick["hand"] == 0.5
    ensures forall t :: t in ToolOrder ==> t in ValuePerClick
    ensures ValuePerClick[ToolOrder[0]] == 1.0 && ValuePerClick[ToolOrder[6]] == 64.0
    ensures forall i :: 0 < i < |ToolOrder| ==> ValuePerClick[ToolOrder[i]] == 2.0 * ValuePerClick[ToolOrder[i - 1]]
  {
  }

  /** Every tool has a drop table of positive chances; the chances sum to exactly 1 up to iron and stay below 1 above it. */
  lemma DropTablesWellFormed()
    ensures forall t :: t in ToolOrder ==> t in MaterialDrops
    ensures forall t, i :: t in MaterialDrops && 0 <= i < |MaterialDrops[t]| ==> MaterialDrops[t][i].chance > 0.0
    ensures forall i :: 0 <= i < 4 ==> ChanceSum(MaterialDrops[ToolOrder[i]]) == 1.0
    ensures forall i :: 4 <= i < 7 ==> ChanceSum(MaterialDrops[ToolOrder[i]]) < 1.0
  {
    assert ChanceSum(MaterialDrops["wooden"]) == 1.0;
    assert ChanceSum(MaterialDrops["stone"]) == 1.0;
    assert ChanceSum(MaterialDrops["copper"]) == 1.0;
    assert ChanceSum(MaterialDrops["iron"]) == 1.0;
    assert ChanceSum(MaterialDrops["gold"]) == 0.985;
    assert ChanceSum(MaterialDrops["diamond"]) == 0.956;
    assert ChanceSum(MaterialDrops["netherite"]) == 0.971;
  }

  /** Six auto-clicker levels with strictly increasing click rates 0.5, 1, 2, 3.5, 5, 7.5. */
  lemma AutoClickerRatesIncrease()
    ensures |AutoClickerUpgrades| == 6
    ensures AutoClickerUpgrades[0].rate == 0.5 && AutoClickerUpgrades[5].rate == 7.5
    ensures forall i, j :: 0 <= i < j < |AutoClickerUpgrades| ==> AutoClickerUpgrades[i].rate < AutoClickerUpgrades[j].rate
  {
  }

  /** Ten offline-earnings levels, numbered from 1 in order, whose caps strictly increase. */
  lemma OfflineUpgradesOrdered()
    ensures |OfflineEarningsUpgrades| == 10
    ensures forall i :: 0 <= i < |OfflineEarningsUpgrades| ==> OfflineEarningsUpgrades[i].level == i + 1
    ensures forall i, j :: 0 <= i < j < |OfflineEarningsUpgrades| ==>
      OfflineEarningsUpgrades[i].capMinutes < OfflineEarningsUpgrades[j].capMinutes
  {
  }

  /** Every material a drop table awards has a display name. */
  lemma DroppedMaterialsAreNamed()
    ensures forall t, i :: t in MaterialDrops && 0 <= i < |MaterialDrops[t]| ==> MaterialDrops[t][i].name in MaterialNames
  {
  }

  /** Every price list asks for named materials in positive amounts. */
  lemma PricedMaterialsAreNamed()
    ensures forall t :: t in ToolMaterialCosts ==> Priced(ToolMaterialCosts[t])
    ensures forall i :: 0 <= i < |AutoClickerUpgrades| ==> Priced(AutoClickerUpgrades[i].cost)
    ensures forall i :: 0 <= i < |OfflineEarningsUpgrades| ==> Priced(OfflineEarningsUpgrades[i].cost)
    ensures forall o :: o in SmeltingRecipes ==> o in MaterialNames && SmeltingRecipes[o].output in MaterialNames
  {
    forall t | t in ToolMaterialCosts ensures Priced(ToolMaterialCosts[t]) {
      ToolPriceNamed(t);
    }
    forall i | 0 <= i < |AutoClickerUpgrades| ensures Priced(AutoClickerUpgrades[i].cost) {
      AutoClickerPriceNamed(i);
    }
    forall i | 0 <= i < |OfflineEarningsUpgrades| ensures Priced(OfflineEarningsUpgrades[i].cost) {
      OfflinePriceNamed(i);
    }
    RecipesNamed();
  }

  lemma ToolPriceNamed(t: string)
    requires t in ToolMaterialCosts
    ensures Priced(ToolMaterialCosts[t])
  {
    if t == "stone" {
    } else if t == "copper" {
    } else if t == "iron" {
    } else if t == "gold" {
    } else if t == "diamond" {
    } else {
      assert t == "netherite";
    }
  }

  lemma AutoClickerPriceNamed(i: int)
    requires 0 <= i < |AutoClickerUpgrades|
    ensures Priced(AutoClickerUpgrades[i].cost)
  {
    assert i in {0, 1, 2, 3, 4, 5};
  }

  lemma OfflinePriceNamed(i: int)
    requires 0 <= i < |OfflineEarningsUpgrades|
    ensures Priced(OfflineEarningsUpgrades[i].cost)
  {
    assert i in {0, 1, 2, 3, 4, 5, 6, 7, 8, 9};
  }

  lemma RecipesNamed()
    ensures forall o :: o in SmeltingRecipes ==> o in MaterialNames && SmeltingRecipes[o].output in MaterialNames
  {
  }
}
