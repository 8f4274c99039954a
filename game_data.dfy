// The `/game-data` routes: loading a save (offline smelting catch-up, then
// offline auto-click earnings), saving it (body check and upsert), and the
// logout stamp that marks when the player left.
module GameData {
  import opened Wrappers
  import opened GameTables
  import opened OfflineEarnings
  import Forms

  function Min3(a: int, b: int, c: int): (r: int)
    ensures r <= a && r <= b && r <= c
    ensures r == a || r == b || r == c
  {
    if a <= b && a <= c then a else if b <= c then b else c
  }

  /** One row of the `clicker_game_data` table; times are milliseconds. */
  datatype GameRow = GameRow(
    points: real,
    tool: string,
    inventory: seq<string>,
    materials: map<string, int>,
    autoClickLevel: int,
    offlineEarningsLevel: int,
    furnaceLevel: int,
    coalReserve: real,
    smeltingQueue: seq<string>,
    smeltAmounts: map<string, int>,
    lastLogoutAt: Option<int>,
    updatedAt: int)

  // ---------------------------------------------------------------------
  // Offline smelting catch-up
  // ---------------------------------------------------------------------

  /** The furnace-side state the catch-up loop updates: materials, coal reserve and the per-output summary. */
  datatype Smelting = Smelting(materials: map<string, int>, coal: real, summary: map<string, int>)

  /** One iteration of the catch-up loop on a dequeued ore; an ore without a recipe changes nothing. */
  function SmeltOne(s: Smelting, ore: string): Smelting
  {
    if ore !in SmeltingRecipes then s
    else
      var r := SmeltingRecipes[ore];
      var m := s.materials[ore := Count(s.materials, ore) - r.inputAmount];
      Smelting(m[r.output := Count(m, r.output) + r.amount], s.coal - 0.25,
               s.summary[r.output := Count(s.summary, r.output) + r.amount])
  }

  /** The loop run over `ores`, front to back. */
  function SmeltAll(s: Smelting, ores: seq<string>): Smelting
  {
    if ores == [] then s else SmeltOne(SmeltAll(s, ores[..|ores| - 1]), ores[|ores| - 1])
  }

  /** How many of `ores` have a recipe, i.e. how many quarter-coals they burn. */
  function KnownCount(ores: seq<string>): (n: nat)
    ensures n <= |ores|
  {
    if ores == [] then 0
    else KnownCount(ores[..|ores| - 1]) + (if ores[|ores| - 1] in SmeltingRecipes then 1 else 0)
  }

  /** Units of material `m` that smelting `ores` takes as input. */
  function Consumed(ores: seq<string>, m: string): int
  {
    if ores == [] then 0
    else
      var o := ores[|ores| - 1];
      Consumed(ores[..|ores| - 1], m) + (if o == m && o in SmeltingRecipes then SmeltingRecipes[o].inputAmount else 0)
  }

  /** Units of material `m` that smelting `ores` outputs. */
  function Produced(ores: seq<string>, m: string): int
  {
    if ores == [] then 0
    else
      var o := ores[|ores| - 1];
      Produced(ores[..|ores| - 1], m)
      + (if o in SmeltingRecipes && SmeltingRecipes[o].output == m then SmeltingRecipes[o].amount else 0)
  }

  /** The material keys that smelting `ores` writes: each known ore and its output. */
  function Touched(ores: seq<string>): set<string>
  {
    if ores == [] then {}
    else
      var o := ores[|ores| - 1];
      Touched(ores[..|ores| - 1]) + (if o in SmeltingRecipes then {o, SmeltingRecipes[o].output} else {})
  }

  /** The catch-up condition: a built furnace, something queued and at least a quarter coal. */
  predicate CatchUpRuns(level: int, queue: seq<string>, coal: real)
  {
    level > 0 && |queue| > 0 && coal >= 0.25
  }

  /** `Math.min(queue.length, Math.floor(elapsed / (5000 / level)), Math.floor(coal / 0.25))`. */
  function ToSmeltCount(queueLength: int, elapsed: int, level: int, coal: real): int
    requires level > 0
  {
    Min3(queueLength, (elapsed * level) / 5000, (coal * 4.0).Floor)
  }

  /** What catch-up leaves: the furnace state and the unconsumed rest of the queue. */
  function CatchUpResult(materials: map<string, int>, coal: real, queue: seq<string>, level: int, elapsed: int): (Smelting, seq<string>)
  {
    if CatchUpRuns(level, queue, coal) then
      var k := ToSmeltCount(|queue|, elapsed, level, coal);
      var n := if k < 0 then 0 else k;
      (SmeltAll(Smelting(materials, coal, map[]), queue[..n]), queue[n..])
    else (Smelting(materials, coal, map[]), queue)
  }

  /** The catch-up loop of the load route, dequeuing from the front. */
  method CatchUp(materials: map<string, int>, coal: real, queue: seq<string>, level: int, elapsed: int)
    returns (after: Smelting, rest: seq<string>)
    ensures (after, rest) == CatchUpResult(materials, coal, queue, level, elapsed)
  {
    after := Smelting(materials, coal, map[]);
    rest := queue;
    if level > 0 && |rest| > 0 && coal >= 0.25 {
      var toSmeltCount := Min3(|rest|, (elapsed * level) / 5000, (coal * 4.0).Floor);
      var i := 0;
      while i < toSmeltCount
        invariant 0 <= i && (i <= toSmeltCount || i == 0)
        invariant rest == queue[i..]
        invariant after == SmeltAll(Smelting(materials, coal, map[]), queue[..i])
      {
        var ore := rest[0];
        rest := rest[1..];
        after := SmeltStep(after, ore);
        SmeltAllStep(Smelting(materials, coal, map[]), queue, i);
        i := i + 1;
      }
    }
  }

  /** One pass of the catch-up loop's body: a known ore is swapped for its output and burns a quarter coal. */
  method SmeltStep(s: Smelting, ore: string) returns (t: Smelting)
    ensures t == SmeltOne(s, ore)
  {
    t := s;
    if ore in SmeltingRecipes {
      var r := SmeltingRecipes[ore];
      var m := s.materials[ore := Count(s.materials, ore) - r.inputAmount];
      m := m[r.output := Count(m, r.output) + r.amount];
      t := Smelting(m, s.coal - 0.25, s.summary[r.output := Count(s.summary, r.output) + r.amount]);
    }
  }

  /** Smelting one more ore of a queue's prefix is one more step of the loop. */
  lemma SmeltAllStep(s: Smelting, queue: seq<string>, i: nat)
    requires i < |queue|
    ensures SmeltAll(s, queue[..i + 1]) == SmeltOne(SmeltAll(s, queue[..i]), queue[i])
  {
    assert queue[..i + 1][..i] == queue[..i];
  }

  /**
   * Smelting a run of ores changes each material by what the run outputs minus
   * what it takes in, burns a quarter coal per known ore, adds the outputs to
   * the summary, and writes no key other than the known ores and their outputs.
   */
  lemma {:induction false} SmeltAllEffect(s: Smelting, ores: seq<string>)
    ensures var r := SmeltAll(s, ores);
            && (forall m :: Count(r.materials, m) == Count(s.materials, m) - Consumed(ores, m) + Produced(ores, m))
            && (forall m :: Count(r.summary, m) == Count(s.summary, m) + Produced(ores, m))
            && r.coal == s.coal - 0.25 * KnownCount(ores) as real
            && r.materials.Keys == s.materials.Keys + Touched(ores)
  {
    if ores != [] {
      var front, o := ores[..|ores| - 1], ores[|ores| - 1];
      SmeltAllEffect(s, front);
      SmeltOneEffect(SmeltAll(s, front), o);
    }
  }

  /** One loop iteration: the ore loses its input amount, the output gains its amount, and a quarter coal burns, all only for an ore with a recipe. */
  lemma SmeltOneEffect(t: Smelting, o: string)
    ensures var r := SmeltOne(t, o);
            && (forall m :: Count(r.materials, m) == Count(t.materials, m)
                 - (if o == m && o in SmeltingRecipes then SmeltingRecipes[o].inputAmount else 0)
                 + (if o in SmeltingRecipes && SmeltingRecipes[o].output == m then SmeltingRecipes[o].amount else 0))
            && (forall m :: Count(r.summary, m) == Count(t.summary, m)
                 + (if o in SmeltingRecipes && SmeltingRecipes[o].output == m then SmeltingRecipes[o].amount else 0))
            && r.coal == t.coal - (if o in SmeltingRecipes then 0.25 else 0.0)
            && r.materials.Keys == t.materials.Keys + (if o in SmeltingRecipes then {o, SmeltingRecipes[o].output} else {})
  {
  }

  /**
   * When catch-up runs it consumes exactly the first
   * min(queue length, floor(elapsed * level / 5000), floor(coal / 0.25)) entries
   * (none for a negative elapsed time), returns the rest of the queue in order,
   * and never drives the coal reserve below zero.
   */
  lemma CatchUpConsumesPrefix(materials: map<string, int>, coal: real, queue: seq<string>, level: int, elapsed: int)
    requires CatchUpRuns(level, queue, coal)
    ensures var (after, rest) := CatchUpResult(materials, coal, queue, level, elapsed);
            var n := |queue| - |rest|;
            && queue == queue[..n] + rest
            && (elapsed >= 0 ==> n == Min3(|queue|, elapsed * level / 5000, (coal * 4.0).Floor))
            && (elapsed < 0 ==> n == 0)
            && n <= (coal * 4.0).Floor
            && after.coal == coal - 0.25 * KnownCount(queue[..n]) as real
            && after.coal >= 0.0
  {
    var k := ToSmeltCount(|queue|, elapsed, level, coal);
    var n := if k < 0 then 0 else k;
    SmeltAllEffect(Smelting(materials, coal, map[]), queue[..n]);
    assert queue == queue[..n] + queue[n..];
    if elapsed >= 0 {
      assert elapsed * level >= 0;
    } else {
      assert elapsed * level < 0;
    }
    var used := KnownCount(queue[..n]);
    assert used as real <= coal * 4.0;
  }

  /** Without a built furnace, an empty queue or a quarter coal, nothing is smelted and the summary is empty. */
  lemma CatchUpIdle(materials: map<string, int>, coal: real, queue: seq<string>, level: int, elapsed: int)
    requires !CatchUpRuns(level, queue, coal)
    ensures CatchUpResult(materials, coal, queue, level, elapsed) == (Smelting(materials, coal, map[]), queue)
  {
  }

  /** Level 1, five seconds, one coal and one queued copper ore with two in stock: one ingot comes out. */
  lemma CatchUpExample()
    ensures var (after, rest) := CatchUpResult(map["copper_ore" := 2], 1.0, ["copper_ore"], 1, 5000);
            rest == [] && after.coal == 0.75
            && after.materials == map["copper_ore" := 1, "copper_ingot" := 1]
            && after.summary == map["copper_ingot" := 1]
  {
    assert ToSmeltCount(1, 5000, 1, 1.0) == 1;
    assert ["copper_ore"][..1] == ["copper_ore"];
    assert ["copper_ore"][..1][..0] == [];
  }

  // ---------------------------------------------------------------------
  // Crediting offline earnings
  // ---------------------------------------------------------------------

  /** The materials map with each earned material added to its count, in whatever order the entries are visited. */
  method CreditMaterials(materials: map<string, int>, earned: multiset<string>) returns (credited: map<string, int>)
    ensures forall m :: Count(credited, m) == Count(materials, m) + earned[m]
    ensures credited.Keys == materials.Keys + (set m | m in earned)
    ensures credited == Credited(materials, earned)
  {
    credited := materials;
    var rest := earned;
    while rest != multiset{}
      invariant rest <= earned
      invariant forall m :: rest[m] == 0 || rest[m] == earned[m]
      invariant forall m :: Count(credited, m) == Count(materials, m) + earned[m] - rest[m]
      invariant credited.Keys == materials.Keys + (set m | m in earned && rest[m] == 0)
      decreases |rest|
    {
      var mat :| mat in rest;
      var amt := rest[mat];
      credited := credited[mat := Count(credited, mat) + amt];
      rest := rest[mat := 0];
    }
    CreditedExactly(credited, materials, earned);
  }

  /** A map with the credited counts and keys is the credited map. */
  lemma CreditedExactly(c: map<string, int>, materials: map<string, int>, earned: multiset<string>)
    requires forall m :: Count(c, m) == Count(materials, m) + earned[m]
    requires c.Keys == materials.Keys + (set m | m in earned)
    ensures c == Credited(materials, earned)
  {
    var r := Credited(materials, earned);
    forall m | m in c.Keys
      ensures c[m] == r[m]
    {
      assert Count(c, m) == Count(r, m);
    }
  }

  /** The credited map as a value, for use in specifications. */
  function Credited(materials: map<string, int>, earned: multiset<string>): (r: map<string, int>)
    ensures forall m :: Count(r, m) == Count(materials, m) + earned[m]
    ensures r.Keys == materials.Keys + (set m | m in earned)
  {
    var keys := materials.Keys + (set m | m in earned);
    map m | m in keys :: Count(materials, m) + earned[m]
  }

  // ---------------------------------------------------------------------
  // GET /game-data
  // ---------------------------------------------------------------------

  /** The instant catch-up measures from: the last logout, or the last save when no logout is recorded. */
  function LastActivity(row: GameRow): int
  {
    row.lastLogoutAt.GetOr(row.updatedAt)
  }

  /** Offline earnings as the route computes them: from `last_logout_at`, a null one counting from the epoch. */
  function EarningsAsWritten(row: GameRow, now: int, draw: nat -> real): Outcome
  {
    Calculate(row.lastLogoutAt, now, row.autoClickLevel, row.offlineEarningsLevel, row.tool, draw)
  }

  /** Offline earnings credited only for a recorded logout (see the findings in the README). */
  function OfflineCredit(row: GameRow, now: int, draw: nat -> real): Outcome
  {
    if row.lastLogoutAt.None? then NoEarnings
    else Calculate(row.lastLogoutAt, now, row.autoClickLevel, row.offlineEarningsLevel, row.tool, draw)
  }

  /** What a load returns to the browser: the row with updated fields, the smelting summary and the earnings. */
  datatype Loaded = Loaded(row: GameRow, offlineSmelted: map<string, int>, offlineEarned: Option<Earnings>)

  datatype LoadResponse = Unauthorized | NoSave | Found(loaded: Loaded) | LoadFailed

  /** Catch-up applied to a row, measured from its last activity. */
  function CatchUpOf(row: GameRow, now: int): (Smelting, seq<string>)
  {
    CatchUpResult(row.materials, row.coalReserve, row.smeltingQueue, row.furnaceLevel, now - LastActivity(row))
  }

  /** The row as the catch-up write leaves it: smelted state and a fresh logout stamp, or untouched when catch-up did not run. */
  function StoredAfterCatchUp(row: GameRow, now: int): GameRow
  {
    var (after, rest) := CatchUpOf(row, now);
    if CatchUpRuns(row.furnaceLevel, row.smeltingQueue, row.coalReserve)
    then row.(materials := after.materials, coalReserve := after.coal, smeltingQueue := rest, lastLogoutAt := Some(now))
    else row
  }

  /** The row as the response shows it before earnings: smelted materials, coal and queue. */
  function ShownAfterCatchUp(row: GameRow, now: int): GameRow
  {
    var (after, rest) := CatchUpOf(row, now);
    row.(materials := after.materials, coalReserve := after.coal, smeltingQueue := rest)
  }

  /** The response and the stored row, once the earnings outcome is known. */
  function FinishLoad(row: GameRow, now: int, earnings: Outcome): (LoadResponse, GameRow)
  {
    var shown := ShownAfterCatchUp(row, now);
    var stored := StoredAfterCatchUp(row, now);
    var summary := CatchUpOf(row, now).0.summary;
    match earnings
    case NoEarnings => (Found(Loaded(shown, summary, None)), stored)
    case NotANumber => (LoadFailed, stored)
    case Earned(e) =>
      var materials := Credited(shown.materials, e.materials);
      (Found(Loaded(shown.(points := row.points + e.points, materials := materials), summary, Some(e))),
       stored.(points := row.points + e.points, materials := materials, lastLogoutAt := None))
  }

  /** The load of an existing row: the response and the row as stored afterwards. */
  function LoadGame(row: GameRow, now: int, draw: nat -> real): (LoadResponse, GameRow)
  {
    FinishLoad(row, now, OfflineCredit(row, now, draw))
  }

  /**
   * A load credits earned points and materials on top of the smelted state and
   * clears the logout stamp; with nothing earned the points stay and no
   * earnings are reported.
   */
  lemma LoadCreditsEarnings(row: GameRow, now: int, draw: nat -> real)
    ensures var (resp, stored) := LoadGame(row, now, draw);
            var (after, rest) := CatchUpResult(row.materials, row.coalReserve, row.smeltingQueue, row.furnaceLevel, now - LastActivity(row));
            match OfflineCredit(row, now, draw)
            case Earned(e) =>
              resp.Found? && resp.loaded.offlineEarned == Some(e)
              && resp.loaded.row.points == row.points + e.points == stored.points
              && (forall m :: Count(resp.loaded.row.materials, m) == Count(after.materials, m) + e.materials[m])
              && stored.materials == resp.loaded.row.materials
              && stored.lastLogoutAt == None
              && resp.loaded.row.smeltingQueue == rest && resp.loaded.offlineSmelted == after.summary
            case NoEarnings =>
              resp.Found? && resp.loaded.offlineEarned == None
              && resp.loaded.row.points == row.points == stored.points
              && resp.loaded.row.materials == after.materials
            case NotANumber => resp == LoadFailed
  {
    match OfflineCredit(row, now, draw)
    case Earned(e) =>
      assert LoadGame(row, now, draw) == FinishLoad(row, now, Earned(e));
      EarnedLoad(row, now, e);
    case NoEarnings =>
      assert LoadGame(row, now, draw) == FinishLoad(row, now, NoEarnings);
      IdleLoad(row, now);
    case NotANumber =>
  }

  lemma EarnedLoad(row: GameRow, now: int, e: Earnings)
    ensures var (resp, stored) := FinishLoad(row, now, Earned(e));
            var (after, rest) := CatchUpOf(row, now);
            && resp.Found? && resp.loaded.offlineEarned == Some(e)
            && resp.loaded.row.points == row.points + e.points == stored.points
            && (forall m :: Count(resp.loaded.row.materials, m) == Count(after.materials, m) + e.materials[m])
            && stored.materials == resp.loaded.row.materials
            && stored.lastLogoutAt == None
            && resp.loaded.row.smeltingQueue == rest && resp.loaded.offlineSmelted == after.summary
  {
    var (after, rest) := CatchUpOf(row, now);
    assert ShownAfterCatchUp(row, now) == row.(materials := after.materials, coalReserve := after.coal, smeltingQueue := rest);
  }

  lemma IdleLoad(row: GameRow, now: int)
    ensures var (resp, stored) := FinishLoad(row, now, NoEarnings);
            var (after, rest) := CatchUpOf(row, now);
            && resp.Found? && resp.loaded.offlineEarned == None
            && resp.loaded.row.points == row.points == stored.points
            && resp.loaded.row.materials == after.materials
  {
    var (after, rest) := CatchUpOf(row, now);
    assert ShownAfterCatchUp(row, now) == row.(materials := after.materials, coalReserve := after.coal, smeltingQueue := rest);
  }

  /** Earnings are credited at most once per recorded logout: the row a crediting load stores earns nothing more. */
  lemma EarningsCreditedOncePerLogout(row: GameRow, now: int, later: int, draw: nat -> real, draw2: nat -> real)
    requires LoadGame(row, now, draw).0.Found? && LoadGame(row, now, draw).0.loaded.offlineEarned.Some?
    ensures OfflineCredit(LoadGame(row, now, draw).1, later, draw2) == NoEarnings
  {
  }

  /** As written, a row with no logout stamp is credited the whole cap on every load. */
  lemma NullLogoutCreditedAsWritten(row: GameRow, now: int, draw: nat -> real)
    requires row.lastLogoutAt == None && row.autoClickLevel == 1 && row.offlineEarningsLevel == 1
    requires now >= 720 * 60000
    ensures EarningsAsWritten(row, now, draw).Earned?
    ensures EarningsAsWritten(row, now, draw).earnings.minutes == 30
    ensures OfflineCredit(row, now, draw) == NoEarnings
  {
  }

  // ---------------------------------------------------------------------
  // POST /game-data and POST /game-logout
  // ---------------------------------------------------------------------

  /** A JSON value as the body parser yields it; `Absent` is a missing property. */
  datatype Json = Absent | JNull | JBool(b: bool) | JNumber(n: real) | JString(s: string)
                | JArray(items: seq<Json>) | JObject(fields: map<string, Json>)

  /** The save body's properties. */
  datatype SaveBody = SaveBody(
    points: Json, tool: Json, inventory: Json, materials: Json, autoClickLevel: Json,
    furnaceLevel: Json, coalReserve: Json, smeltingQueue: Json, smeltAmounts: Json,
    offlineEarningsLevel: Json)

  /** `typeof v === "object"`: true of objects, arrays and null. */
  predicate IsObjectType(v: Json)
  {
    v.JObject? || v.JArray? || v.JNull?
  }

  /** The route's body check; anything else is answered with 400. */
  predicate ValidSaveBody(b: SaveBody)
  {
    b.furnaceLevel.JNumber? && b.coalReserve.JNumber? && b.inventory.JArray? && b.smeltingQueue.JArray?
    && IsObjectType(b.smeltAmounts)
  }

  predicate IsIntegral(v: Json)
  {
    v.JNumber? && v.n.Floor as real == v.n
  }

  predicate AllStrings(items: seq<Json>)
  {
    forall i :: 0 <= i < |items| ==> items[i].JString?
  }

  function Strings(items: seq<Json>): (r: seq<string>)
    requires AllStrings(items)
    ensures |r| == |items| && forall i :: 0 <= i < |items| ==> r[i] == items[i].s
  {
    if items == [] then [] else [items[0].s] + Strings(items[1..])
  }

  predicate IsCountObject(v: Json)
  {
    v.JObject? && forall k :: k in v.fields ==> IsIntegral(v.fields[k])
  }

  function Counts(v: Json): map<string, int>
    requires IsCountObject(v)
  {
    map k | k in v.fields :: v.fields[k].n.Floor
  }

  /**
   * The body's values fit the typed row the model stores: integral counts and
   * levels, string lists, numeric points and coal. The table's column types are
   * not part of this model; any other body is taken to make the write fail.
   */
  predicate Storable(b: SaveBody)
  {
    b.points.JNumber? && b.tool.JString? && b.inventory.JArray? && AllStrings(b.inventory.items)
    && IsCountObject(b.materials) && IsIntegral(b.autoClickLevel) && IsIntegral(b.furnaceLevel)
    && b.coalReserve.JNumber? && b.smeltingQueue.JArray? && AllStrings(b.smeltingQueue.items)
    && (IsCountObject(b.smeltAmounts) || b.smeltAmounts.JNull?)
  }

  /** The upsert as written: every saved column except the offline-earnings level and the logout stamp. */
  function SaveAsWritten(existing: Option<GameRow>, b: SaveBody, now: int): GameRow
    requires Storable(b)
  {
    GameRow(
      b.points.n, b.tool.s, Strings(b.inventory.items), Counts(b.materials), b.autoClickLevel.n.Floor,
      if existing.Some? then existing.value.offlineEarningsLevel else 0,
      b.furnaceLevel.n.Floor, b.coalReserve.n, Strings(b.smeltingQueue.items),
      if b.smeltAmounts.JNull? then map[] else Counts(b.smeltAmounts),
      if existing.Some? then existing.value.lastLogoutAt else Some(now),
      now)
  }

  /** The offline-earnings level the body carries, when it is an integer. */
  function SavedOfflineLevel(existing: Option<GameRow>, b: SaveBody): int
  {
    if IsIntegral(b.offlineEarningsLevel) then b.offlineEarningsLevel.n.Floor
    else if existing.Some? then existing.value.offlineEarningsLevel else 0
  }

  /** The upsert with the offline-earnings level stored as well (see the findings in the README). */
  function Save(existing: Option<GameRow>, b: SaveBody, now: int): GameRow
    requires Storable(b)
  {
    SaveAsWritten(existing, b, now).(offlineEarningsLevel := SavedOfflineLevel(existing, b))
  }

  /** Every saved field is stored as sent; a new row gets a logout stamp, an existing one keeps its own. */
  lemma SaveStoresProgress(existing: Option<GameRow>, b: SaveBody, now: int)
    requires Storable(b) && IsIntegral(b.offlineEarningsLevel)
    ensures var r := Save(existing, b, now);
            r.points == b.points.n && r.tool == b.tool.s && r.coalReserve == b.coalReserve.n
            && |r.inventory| == |b.inventory.items| && |r.smeltingQueue| == |b.smeltingQueue.items|
            && (forall i | 0 <= i < |b.inventory.items| :: r.inventory[i] == b.inventory.items[i].s)
            && (forall i | 0 <= i < |b.smeltingQueue.items| :: r.smeltingQueue[i] == b.smeltingQueue.items[i].s)
            && r.furnaceLevel as real == b.furnaceLevel.n && r.autoClickLevel as real == b.autoClickLevel.n
            && r.offlineEarningsLevel as real == b.offlineEarningsLevel.n
            && (forall k :: k in b.materials.fields <==> k in r.materials)
            && (forall k | k in b.materials.fields :: r.materials[k] as real == b.materials.fields[k].n)
            && (b.smeltAmounts.JNull? ==> r.smeltAmounts == map[])
            && (b.smeltAmounts.JObject? ==>
                  (forall k :: k in b.smeltAmounts.fields <==> k in r.smeltAmounts)
                  && forall k | k in b.smeltAmounts.fields :: r.smeltAmounts[k] as real == b.smeltAmounts.fields[k].n)
            && r.updatedAt == now
            && r.lastLogoutAt == (if existing.Some? then existing.value.lastLogoutAt else Some(now))
  {
  }

  /** As written, the offline-earnings level a save carries is dropped: the stored level stays what it was. */
  lemma OfflineLevelDroppedAsWritten(existing: GameRow, b: SaveBody, now: int)
    requires Storable(b) && b.offlineEarningsLevel == JNumber(3.0) && existing.offlineEarningsLevel == 0
    ensures SaveAsWritten(Some(existing), b, now).offlineEarningsLevel == 0
    ensures Save(Some(existing), b, now).offlineEarningsLevel == 3
  {
  }

  datatype SaveResponse = SaveUnauthorized | InvalidGameData | Saved | SaveFailed

  /** The table of saves, keyed by Discord id. */
  class GameStore {
    var rows: map<string, GameRow>

    constructor ()
      ensures rows == map[]
    {
      rows := map[];
    }

    /** GET /game-data for the session cookie `session`, at time `now`; a missing or empty cookie is refused. */
    method Load(session: Option<string>, now: int, draw: nat -> real) returns (resp: LoadResponse)
      modifies this
      ensures Forms.Falsy(session) ==> resp == Unauthorized && rows == old(rows)
      ensures !Forms.Falsy(session) && session.value !in old(rows) ==> resp == NoSave && rows == old(rows)
      ensures !Forms.Falsy(session) && session.value in old(rows) ==>
                var (expected, stored) := LoadGame(old(rows)[session.value], now, draw);
                resp == expected && rows == old(rows)[session.value := stored]
    {
      if Forms.Falsy(session) {
        return Unauthorized;
      }
      var id := session.value;
      if id !in rows {
        return NoSave;
      }
      var data, shown, summary := CatchUpRow(id, now);
      var earnings := NoEarnings;
      if data.lastLogoutAt.Some? {
        earnings := CalculateOfflineEarnings(data.lastLogoutAt, now, data.autoClickLevel,
                                             data.offlineEarningsLevel, data.tool, draw);
      }
      assert earnings == OfflineCredit(data, now, draw);
      resp := CreditEarnings(id, data, now, shown, summary, earnings);
    }

    /** The earnings part of a load: the response, and on earnings the credited row with its logout stamp cleared. */
    method CreditEarnings(id: string, data: GameRow, now: int, shown: GameRow, summary: map<string, int>, earnings: Outcome)
      returns (resp: LoadResponse)
      requires id in rows && rows[id] == StoredAfterCatchUp(data, now)
      requires shown == ShownAfterCatchUp(data, now) && summary == CatchUpOf(data, now).0.summary
      modifies this
      ensures id in rows && (resp, rows[id]) == FinishLoad(data, now, earnings) && rows == old(rows)[id := rows[id]]
    {
      match earnings {
        case NoEarnings =>
          resp := Found(Loaded(shown, summary, None));
        case NotANumber =>
          resp := LoadFailed;
        case Earned(e) =>
          var materials := CreditMaterials(shown.materials, e.materials);
          rows := rows[id := rows[id].(points := data.points + e.points, materials := materials, lastLogoutAt := None)];
          resp := Found(Loaded(shown.(points := data.points + e.points, materials := materials), summary, Some(e)));
      }
    }

    /** The catch-up part of a load: the row's queue is smelted for the time away and, when that ran, stored with a fresh logout stamp. */
    method CatchUpRow(id: string, now: int) returns (data: GameRow, shown: GameRow, summary: map<string, int>)
      requires id in rows
      modifies this
      ensures data == old(rows)[id]
      ensures rows == old(rows)[id := StoredAfterCatchUp(data, now)]
      ensures shown == ShownAfterCatchUp(data, now) && summary == CatchUpOf(data, now).0.summary
    {
      data := rows[id];
      var after, queue := CatchUp(data.materials, data.coalReserve, data.smeltingQueue, data.furnaceLevel, now - LastActivity(data));
      if CatchUpRuns(data.furnaceLevel, data.smeltingQueue, data.coalReserve) {
        rows := rows[id := data.(materials := after.materials, coalReserve := after.coal,
                                 smeltingQueue := queue, lastLogoutAt := Some(now))];
      }
      shown := data.(materials := after.materials, coalReserve := after.coal, smeltingQueue := queue);
      summary := after.summary;
    }

    /** POST /game-data. */
    method Store(session: Option<string>, body: SaveBody, now: int) returns (resp: SaveResponse)
      modifies this
      ensures Forms.Falsy(session) ==> resp == SaveUnauthorized && rows == old(rows)
      ensures !Forms.Falsy(session) && !ValidSaveBody(body) ==> resp == InvalidGameData && rows == old(rows)
      ensures !Forms.Falsy(session) && ValidSaveBody(body) && !Storable(body) ==> resp == SaveFailed && rows == old(rows)
      ensures !Forms.Falsy(session) && ValidSaveBody(body) && Storable(body) ==>
                resp == Saved
                && rows == old(rows)[session.value := Save(if session.value in old(rows) then Some(old(rows)[session.value]) else None, body, now)]
    {
      if Forms.Falsy(session) {
        return SaveUnauthorized;
      }
      if !ValidSaveBody(body) {
        return InvalidGameData;
      }
      if !Storable(body) {
        return SaveFailed;
      }
      var id := session.value;
      var existing := if id in rows then Some(rows[id]) else None;
      rows := rows[id := Save(existing, body, now)];
      resp := Saved;
    }

    /** POST /game-logout: stamp the logout time of the session's row, if there is one; 401 for a missing or empty cookie. */
    method Logout(session: Option<string>, now: int) returns (status: int)
      modifies this
      ensures Forms.Falsy(session) ==> status == 401 && rows == old(rows)
      ensures !Forms.Falsy(session) ==> status == 204
      ensures !Forms.Falsy(session) && session.value in old(rows) ==>
                rows == old(rows)[session.value := old(rows)[session.value].(lastLogoutAt := Some(now))]
      ensures !Forms.Falsy(session) && session.value !in old(rows) ==> rows == old(rows)
    {
      if Forms.Falsy(session) {
        return 401;
      }
      var id := session.value;
      if id in rows {
        rows := rows[id := rows[id].(lastLogoutAt := Some(now))];
      }
      status := 204;
    }
  }
}
