# Createrington community site: a verified model

Createrington is a Minecraft community server. This project models the core of its website and Discord bot:

- **The clicker game.** The browser-side rules are furnace, tool, auto-clicker and offline-earnings upgrades, coal refill, the materials shop, the smelting queue and the live smelt tick. On the server, loading a save runs the offline smelting catch-up and credits auto-click earnings. The save and logout routes store progress and the logout stamp.
- **Playtime.** The session tracker opens and closes play sessions. Playtime tier roles, the top-player role and the stat-champion role are each held by one member at a time.
- **Community features.** This covers the day-vote listener and the stats download and import. It also covers the two chat pages: the message classifier, the waypoint links, the send cooldown and the incoming-message filter. The server's chat relay and its support tickets are included.
- **Guards and cooldowns.** This covers the waitlist and application forms, the admin routes' authorisation ladder, the onboarding chain (/verify, /register, /link), the leaderboard and playtime commands with their cooldowns, and the admin page's console, log colouring, autocomplete and vanish toggle.

Database tables are maps, sets and sequences, held by one `Db.Database` object. Handlers that change a table are methods that modify only the fields they write. Query results, Discord and RCON answers, the Mojang lookup, the clock and random draws are parameters. Each timer tick or incoming event is one method call. Pure rules are functions, and the lemmas beside them state what the source promises. Each stateful handler is proved equal to a specification function, and that function's properties are proved as lemmas.

## Model

| member | source | states |
|---|---|---|
| GameTables.Tier | client/src/components/clickerGame/data/toolData.js:124-132 | a tool's tier is its index in the tool order, -1 for the bare hand or an unknown name |
| GameTables.TierFrom | client/src/components/clickerGame/data/toolData.js:124-132 | the index search from position i finds the first match at or after i, or -1 |
| GameTables.ToolsArePriced | client/src/components/clickerGame/data/toolData.js:1-36 | every tool of the tool order has a point price; every tool after the wooden pickaxe also has a material price list, and the wooden pickaxe, first in the order, has none |
| GameTables.ToolOrderTiers | client/src/components/clickerGame/data/toolData.js:124-132 | each of the seven tools sits at its own position, wooden first and netherite last |
| GameTables.CumChanceIsChanceSum | server/utils/calculateOfflineEarnings.js:35-38 | the running total the draw loop keeps, taken over a whole drop table, is the table's total chance |
| GameTables.ToolCostsIncrease | client/src/components/clickerGame/data/toolData.js:1-9 | the seven tool prices strictly increase along the tool order |
| GameTables.ValuePerClickDoubles | client/src/components/clickerGame/data/toolData.js:113-122 | each tool earns twice the previous one per click, from 1 to 64, and the bare hand earns 0.5 |
| GameTables.DropTablesWellFormed | client/src/components/clickerGame/data/toolData.js:38-88 | every drop chance is positive; each table sums to exactly 1 up to iron and to less than 1 above it |
| GameTables.AutoClickerRatesIncrease | client/src/components/clickerGame/data/toolData.js:104-111 | six auto-clicker levels with strictly increasing rates 0.5, 1, 2, 3.5, 5 and 7.5 |
| GameTables.OfflineUpgradesOrdered | client/src/components/clickerGame/data/toolData.js:134-223 | ten offline-earnings levels, numbered 1 to 10 in order, whose caps strictly increase |
| GameTables.DroppedMaterialsAreNamed | client/src/components/clickerGame/data/toolData.js:38-102 | every material a drop table awards has a display name |
| GameTables.PricedMaterialsAreNamed | client/src/components/clickerGame/data/toolData.js:11-223 | every tool, auto-clicker and offline-earnings price list asks for named materials, in positive amounts, and every smelting recipe turns a named material into a named material |
| OfflineEarnings.CapMs | server/utils/calculateOfflineEarnings.js:16-20 | the cap for levels 1 to 10 is that level's cap in the upgrade table, in milliseconds |
| OfflineEarnings.ClickRate | server/utils/calculateOfflineEarnings.js:24 | the rate is always positive, and for a bought level it is that level's auto-clicker rate |
| OfflineEarnings.SampleDrops | server/utils/calculateOfflineEarnings.js:31-43 | the draw loop awards exactly what the draw specification awards for the number of block breaks |
| OfflineEarnings.PickOne | server/utils/calculateOfflineEarnings.js:35-41 | one draw's inner loop awards what the pick specification awards: the first entry whose running total reaches the draw, or nothing when none does |
| OfflineEarnings.CalculateOfflineEarnings | server/utils/calculateOfflineEarnings.js:7-50 | the method returns what the earnings specification gives for the same inputs and draws |
| OfflineEarnings.NothingWithoutUpgrades | server/utils/calculateOfflineEarnings.js:14 | no auto-clicker or no offline upgrade means null |
| OfflineEarnings.CreditedTimeIsCapped | server/utils/calculateOfflineEarnings.js:16-48 | the credited time is the elapsed time cut at the cap; nothing is credited below 10 seconds; the reported minutes never exceed the cap |
| OfflineEarnings.UnknownOfflineLevelIsNaN | server/utils/calculateOfflineEarnings.js:16-20 | an offline level above 10 has no cap and gives the NaN object, not null |
| OfflineEarnings.NullLogoutCreditsWholeCap | server/utils/calculateOfflineEarnings.js:19-20 | a null logout time counts from the epoch, so a present-day clock credits the whole cap |
| OfflineEarnings.LongAbsencesEarnTheSame | server/utils/calculateOfflineEarnings.js:20 | any absence at least as long as the cap earns exactly what an absence of exactly the cap earns |
| OfflineEarnings.ClicksGrow | server/utils/calculateOfflineEarnings.js:25 | more credited time never gives fewer clicks |
| OfflineEarnings.PointsGrow | server/utils/calculateOfflineEarnings.js:26 | more clicks never give fewer points |
| OfflineEarnings.DrawDropsGrow | server/utils/calculateOfflineEarnings.js:33-43 | later draws only add to what earlier draws awarded |
| OfflineEarnings.EarningsGrowWithAbsence | server/utils/calculateOfflineEarnings.js:19-49 | with the same draws, a longer absence never earns fewer points, minutes or materials |
| OfflineEarnings.DrawDropsBounded | server/utils/calculateOfflineEarnings.js:33-43 | each draw awards at most one unit, and only of a material the table lists |
| OfflineEarnings.PickFromListed | server/utils/calculateOfflineEarnings.js:36-41 | a pick is always a name from the table |
| OfflineEarnings.PickDropIsFirstReached | server/utils/calculateOfflineEarnings.js:35-41 | a draw awards the first entry whose running total reaches it, and nothing exactly when no running total does |
| OfflineEarnings.CompleteTableAlwaysAwards | server/utils/calculateOfflineEarnings.js:31-43 | with a table summing to 1 and draws below 1, every block break awards exactly one material |
| OfflineEarnings.EarnedMaterialsBounded | server/utils/calculateOfflineEarnings.js:28-43 | at most one material per ten credited clicks, all from the tool's drop table |
| OfflineEarnings.ToolsWithoutTables | server/utils/calculateOfflineEarnings.js:26-28 | a tool without a per-click value earns no points, and the bare hand earns no materials |
| OfflineEarnings.WoodenHalfHourExample | server/utils/calculateOfflineEarnings.js:7-50 | thirty minutes away with the first auto-clicker and a wooden pickaxe gives 900 clicks, 900 points and 30 minutes |
| GameData.KnownCount | server/routes/gameData.js:49-57 | the number of ores with a recipe, which is the number of quarter-coals burnt, is at most the run's length |
| GameData.CatchUp | server/routes/gameData.js:43-58 | the dequeuing loop leaves exactly the materials, coal, summary and queue rest the catch-up specification gives |
| GameData.SmeltStep | server/routes/gameData.js:50-57 | one pass of the loop body is one step of the catch-up specification: a known ore becomes its output and burns a quarter coal, an unknown one changes nothing |
| GameData.SmeltAllEffect | server/routes/gameData.js:49-57 | each material changes by its output minus its input; a quarter coal burns per known ore; outputs are added to the summary; no other key is written |
| GameData.CatchUpConsumesPrefix | server/routes/gameData.js:43-113 | catch-up consumes exactly the first min(queue length, floor(elapsed·level/5000), floor(coal/0.25)) entries and returns the rest in order; coal never goes below zero |
| GameData.CatchUpIdle | server/routes/gameData.js:43 | without a built furnace, a queued ore or a quarter coal, everything is returned unchanged and the summary is empty |
| GameData.CatchUpExample | server/tests/gameData.test.js:71-99 | level 1, five seconds, one coal and one queued copper ore: the queue empties and three quarters of the coal remain |
| GameData.CreditMaterials | server/routes/gameData.js:86-93 | each material's count grows by exactly what was earned of it; the keys are the old ones plus the earned ones |
| GameData.Credited | server/routes/gameData.js:86-93 | the same credit stated as a value: counts add up, keys are the union |
| GameData.LoadCreditsEarnings | server/routes/gameData.js:29-116 | a crediting load adds the earned points and materials on top of the smelted state, clears the logout stamp and reports the earnings; without earnings the points stay and none are reported; the NaN outcome (an offline level above 10) answers as a failed load; this is the corrected load of the first Findings row |
| GameData.EarningsCreditedOncePerLogout | server/routes/gameData.js:86-100 | the row a crediting load stores earns nothing more on any later load |
| GameData.NullLogoutCreditedAsWritten | server/routes/gameData.js:76-84 | as written, a row with no logout stamp earns the whole cap on every load, while the corrected credit gives nothing |
| GameData.Strings | server/routes/gameData.js:140-150 | an array of strings maps to the same strings, element by element |
| GameData.SaveStoresProgress | server/routes/gameData.js:124-172 | every saved field is stored as sent: points, tool, coal and the three levels (the offline-earnings level included) by value, the inventory and smelting queue element by element, every material count and every smelt amount by key and value (a `null` smelt-amount object as an empty one); a new row gets a logout stamp and an existing row keeps its own |
| GameData.OfflineLevelDroppedAsWritten | server/routes/gameData.js:156-172 | as written, the upsert drops the offline-earnings level a save carries: the stored level stays what it was |
| GameData.GameStore.Load | server/routes/gameData.js:10-122 | 401 for a missing or empty cookie, null for a missing row; otherwise the response and the stored row are those of the corrected load specification (first Findings row) |
| GameData.GameStore.CatchUpRow | server/routes/gameData.js:28-74 | the smelted materials, coal, queue and summary are the catch-up specification's for the time away; the row is rewritten, with a fresh logout stamp, exactly when catch-up runs, and no other row changes |
| GameData.GameStore.CreditEarnings | server/routes/gameData.js:86-116 | the response and the stored row are the corrected load specification's for the earnings outcome (the NaN outcome answering as a failed load), and no other row changes |
| GameData.GameStore.Store | server/routes/gameData.js:124-193 | 401 for a missing or empty cookie and 400 for a malformed body, each with no change; a body that does not fit the model's typed row fails with no change; otherwise the row becomes the corrected saved row (second Findings row) |
| GameData.GameStore.Logout | server/routes/gameData.js:195-214 | 401 for a missing or empty cookie; otherwise 204, with only the session's row given a fresh logout stamp if it exists |
| ClickerGame.DeductCounts | client/src/components/clickerGame/ClickerGame.jsx:318-324 | paying a price list lowers every material by the total the list asks for it and leaves every other count as it was |
| ClickerGame.CostOfListed | client/src/components/clickerGame/ClickerGame.jsx:318-324 | in a price list without repeated materials, the amount deducted for a listed material is its own entry |
| ClickerGame.CostOfUnlisted | client/src/components/clickerGame/ClickerGame.jsx:318-324 | a material a price list does not name is not deducted |
| ClickerGame.PayingKeepsCountsNonNegative | client/src/components/clickerGame/ClickerGame.jsx:313-324 | paying an affordable price list without repeats leaves no material count negative and lowers each listed one by its amount |
| ClickerGame.PayingKeepsUnlisted | client/src/components/clickerGame/ClickerGame.jsx:318-324 | a material the price list does not mention keeps its count |
| ClickerGame.ToolPriceListsClean | client/src/components/clickerGame/data/toolData.js:11-36 | no tool's material price repeats a material or asks for a smeltable ore |
| ClickerGame.AutoClickerPriceListsClean | client/src/components/clickerGame/data/toolData.js:104-111 | no auto-clicker tier's price repeats a material or asks for a smeltable ore |
| ClickerGame.OfflinePriceListsClean | client/src/components/clickerGame/data/toolData.js:134-223 | no offline-earnings tier's price repeats a material or asks for a smeltable ore |
| ClickerGame.PayingCleanList | client/src/components/clickerGame/ClickerGame.jsx:313-324 | paying such a clean, affordable price keeps all counts non-negative and every queued ore still backed by ore in stock |
| ClickerGame.Repeat | client/src/components/clickerGame/ClickerGame.jsx:1455 | `Array(n).fill(x)` has length n |
| ClickerGame.RepeatCounts | client/src/components/clickerGame/ClickerGame.jsx:1455 | `Array(n).fill(x)` holds n copies of x and nothing else |
| ClickerGame.InitialInv | client/src/components/clickerGame/ClickerGame.jsx:30-52 | the state the page starts from (0 points, the bare hand, no materials, empty queue, no coal) satisfies the game invariant |
| ClickerGame.FurnaceUpgraded | client/src/components/clickerGame/ClickerGame.jsx:56-72 | the furnace upgrade preserves the game invariant |
| ClickerGame.FurnaceUpgradeEffect | client/src/components/clickerGame/ClickerGame.jsx:56-72 | at level 8 nothing changes; below it the upgrade happens exactly when 20+10·level cobblestone and 1+⌊level/2⌋ coal are owned, takes exactly those, and raises the level by one |
| ClickerGame.MaxTier | client/src/components/clickerGame/ClickerGame.jsx:608-610 | the best owned tier is absent exactly for an empty inventory and otherwise bounds every owned item's tier |
| ClickerGame.ToolBought | client/src/components/clickerGame/ClickerGame.jsx:604-632 | buying a tool preserves the game invariant |
| ClickerGame.ToolPurchaseEffect | client/src/components/clickerGame/ClickerGame.jsx:604-632 | the purchase happens exactly when the points, a tier above every owned tool and the materials are there; it then takes the point price and the material price, equips the tool and appends it to the inventory; otherwise nothing changes; a bought tool is always a new tool of the tool order |
| ClickerGame.Unowned | client/src/components/clickerGame/ClickerGame.jsx:644-645 | the filter picks, in increasing order, exactly the positions of the tool order whose tool is not owned |
| ClickerGame.ShopEntriesAt | client/src/components/clickerGame/ClickerGame.jsx:644-660 | the k-th shop button is the k-th unowned tool, with its lock and enabled state |
| ClickerGame.UnownedNamesAll | client/src/components/clickerGame/ClickerGame.jsx:644-645 | a name is picked by the filter exactly when it is in the tool order and not owned |
| ClickerGame.ShopListsUnownedTools | client/src/components/clickerGame/ClickerGame.jsx:644-660 | the shop shows a button for a tool exactly when the tool is in the tool order and not owned |
| ClickerGame.ShopOrderAndLocks | client/src/components/clickerGame/ClickerGame.jsx:644-660 | the shop keeps the tool order; a button is unlocked exactly when its tier is at most one above the best owned, and enabled exactly when unlocked and affordable in points |
| ClickerGame.ChainMaxTier | client/src/components/clickerGame/ClickerGame.jsx:608-610 | for the hand followed by the first tools of the tool order, the best tier is the number of tools minus one |
| ClickerGame.ChainGrows | client/src/components/clickerGame/ClickerGame.jsx:629 | appending the next tool of the tool order keeps the inventory such a chain |
| ClickerGame.ShopPurchaseExtendsChain | client/src/components/clickerGame/ClickerGame.jsx:604-660 | a purchase from an unlocked shop button always buys the next tier, so the inventory stays the hand plus a prefix of the tool order |
| ClickerGame.AutoClickerUpgraded | client/src/components/clickerGame/ClickerGame.jsx:310-330 | the auto-clicker upgrade preserves the game invariant |
| ClickerGame.AutoClickerUpgradeEffect | client/src/components/clickerGame/ClickerGame.jsx:310-330 | while a next tier is offered, the upgrade happens exactly when its price is affordable, takes exactly that price and raises the level by one, never past the table |
| ClickerGame.AutoClickerPastTableIsFree | client/src/components/clickerGame/ClickerGame.jsx:313 | past the last tier the handler's empty price list is always affordable, so the level rises for nothing |
| ClickerGame.OfflineUpgraded | client/src/components/clickerGame/ClickerGame.jsx:1008-1031 | the offline-earnings upgrade preserves the game invariant |
| ClickerGame.OfflineUpgradeEffect | client/src/components/clickerGame/ClickerGame.jsx:1008-1031 | without an auto-clicker, a next tier or its price nothing changes; otherwise the level rises by one for exactly that tier's price |
| ClickerGame.CoalAdded | client/src/components/clickerGame/ClickerGame.jsx:1340-1354 | adding coal preserves the game invariant |
| ClickerGame.CoalAddedEffect | client/src/components/clickerGame/ClickerGame.jsx:1340-1354 | with at least one coal, one coal leaves the materials and the reserve grows by two; otherwise nothing changes |
| ClickerGame.MaterialBought | client/src/components/clickerGame/ClickerGame.jsx:1143-1156 | buying a non-negative amount of a material preserves the game invariant |
| ClickerGame.MaterialPurchaseEffect | client/src/components/clickerGame/ClickerGame.jsx:1083-1156 | the buy button adds amt of the material for amt·price points exactly when the points suffice, and otherwise changes nothing; no purchase costs more than 2500 points |
| ClickerGame.EnqueueEffect | client/src/components/clickerGame/ClickerGame.jsx:1370-1467 | an enabled Smelt button always queues: it appends exactly the selected number of copies of the ore, at most the slider's maximum, burns no coal and resets the slider |
| ClickerGame.EnqueueKeepsInv | client/src/components/clickerGame/ClickerGame.jsx:1370-1467 | queueing keeps every queued ore backed by ore in stock and the rest of the invariant |
| ClickerGame.TickEffect | client/src/components/clickerGame/ClickerGame.jsx:174-200 | the smelt timer takes from the front of the queue only: an ore without a recipe is dropped; an ore in stock with a quarter coal is smelted as the offline catch-up's step; otherwise nothing changes |
| ClickerGame.TickKeepsInv | client/src/components/clickerGame/ClickerGame.jsx:156-204 | the smelt timer keeps the invariant, and under the invariant the head ore is always in stock, so a known head is always consumed |
| ClickerGame.ShopTabIndex | client/src/components/clickerGame/ClickerGame.jsx:898-899 | the index search finds the tab's position, or -1 exactly for a name that is not a tab |
| ClickerGame.ShopTabsRotate | client/src/components/clickerGame/ClickerGame.jsx:894-918 | the two shop arrows undo each other, the ◀ arrow moves one tab forward, and four presses come back |
| ClickerGame.ShopTabsRecover | client/src/components/clickerGame/ClickerGame.jsx:894-918 | from an unknown tab, ◀ goes to "tools" and ▶ to "materials" |
| ClickerGame.InventoryTabsToggle | client/src/components/clickerGame/ClickerGame.jsx:1504-1524 | both inventory arrows switch between the tools and the materials tab |
| ClickerGame.PayFrom | client/src/components/clickerGame/ClickerGame.jsx:318-324 | the deducting loop computes the price deduction: every count falls by what the list asks for it |
| ClickerGame.StringArray | client/src/components/clickerGame/ClickerGame.jsx:752-769 | a list of strings becomes a JSON array of those strings, which the save reads back element by element |
| ClickerGame.CountObject | client/src/components/clickerGame/ClickerGame.jsx:752-769 | a map of counts becomes a JSON object of integral numbers, which the save reads back as the same map |
| ClickerGame.SavedProgressRestored | client/src/components/clickerGame/ClickerGame.jsx:107-131 | the body the page posts (lines 752-763) passes the save route's checks, and loading the row the corrected save stores gives the page back exactly the progress it saved |
| ClickerGame.SavedProgressRestoredAsWritten | server/routes/gameData.js:156-172 | with the upsert as written, a reload gives back everything the page saved except the offline-earnings level, which stays what the row held before |
| ClickerGame.SmeltSliderEnables | client/src/components/clickerGame/ClickerGame.jsx:1370-1419 | a Smelt slider moved to a positive value within the ore's maximum selects exactly that value and enables the Smelt button |
| ClickerGame.Game.constructor | client/src/components/clickerGame/ClickerGame.jsx:30-52 | the page starts from the initial progress, which satisfies the invariant, with both tabs on "tools" |
| ClickerGame.Game.UpgradeFurnace | client/src/components/clickerGame/ClickerGame.jsx:56-72 | the page's state becomes the furnace-upgrade specification's, and the invariant is kept |
| ClickerGame.Game.HandleUpgrade | client/src/components/clickerGame/ClickerGame.jsx:604-632 | the page's state becomes the tool-purchase specification's, and the invariant is kept |
| ClickerGame.Game.AutoclickerUpgrade | client/src/components/clickerGame/ClickerGame.jsx:312-330 | the page's state becomes the auto-clicker specification's, and the invariant is kept |
| ClickerGame.Game.OfflineUpgrade | client/src/components/clickerGame/ClickerGame.jsx:1019-1031 | the page's state becomes the offline-upgrade specification's, and the invariant is kept |
| ClickerGame.Game.AddCoal | client/src/components/clickerGame/ClickerGame.jsx:1340-1354 | the page's state becomes the add-coal specification's, and the invariant is kept |
| ClickerGame.Game.BuyMaterial | client/src/components/clickerGame/ClickerGame.jsx:1143-1156 | the page's state becomes the material-purchase specification's for the slider's amount (1 when unset), and the invariant is kept while every moved slider holds at least 1 |
| ClickerGame.Game.SetMaterialAmount | client/src/components/clickerGame/ClickerGame.jsx:1116-1137 | moving a material slider to a value between 1 and the item's maximum stores that value, which the buy button then uses, and keeps every moved slider at least 1 |
| ClickerGame.Game.SetSmeltAmount | client/src/components/clickerGame/ClickerGame.jsx:1405-1419 | moving a Smelt slider stores the value and changes nothing else; a positive value within the ore's maximum becomes the selection and enables the Smelt button; the invariant is kept |
| ClickerGame.Game.LoadSave | client/src/components/clickerGame/ClickerGame.jsx:107-131 | a found save replaces the whole progress with the loaded row's fields; a `null` answer (no save yet) leaves the page as it was |
| ClickerGame.Game.Enqueue | client/src/components/clickerGame/ClickerGame.jsx:1443-1462 | the page's state becomes the enqueue specification's, and the invariant is kept |
| ClickerGame.Game.SmeltTick | client/src/components/clickerGame/ClickerGame.jsx:174-200 | the page's state becomes the smelt-tick specification's, and the invariant is kept |
| ClickerGame.Game.Equip | client/src/components/clickerGame/ClickerGame.jsx:1536-1540 | clicking an owned tool equips it and changes nothing else |
| ClickerGame.Game.ShopArrowLeft | client/src/components/clickerGame/ClickerGame.jsx:894-903 | the shop tab moves as the ◀ arrow's rotation says |
| ClickerGame.Game.ShopArrowRight | client/src/components/clickerGame/ClickerGame.jsx:909-918 | the shop tab moves as the ▶ arrow's rotation says |
| ClickerGame.Game.InventoryArrowLeft | client/src/components/clickerGame/ClickerGame.jsx:1504-1510 | the inventory tab switches as the ◀ arrow says |
| ClickerGame.Game.InventoryArrowRight | client/src/components/clickerGame/ClickerGame.jsx:1517-1523 | the inventory tab switches as the ▶ arrow says |
| PlaytimeTracker.UpsertAllKeys | server/services/playtimeTracker.js:15-32 | the upserts add a row for each listed player that had none and remove no row |
| PlaytimeTracker.UpsertAllOthers | server/services/playtimeTracker.js:15-32 | the upserts leave the row of an unlisted player as it was, and create none for it |
| PlaytimeTracker.UpsertAllListed | server/services/playtimeTracker.js:15-32 | a listed player ends online, seen now, under the last name listed for it, with the session kept if it was online with an open session and otherwise started now; playtime and Discord link are kept (defaults for a new row) |
| PlaytimeTracker.SyncOpensSessions | server/services/playtimeTracker.js:15-57 | after a sync every listed player is online with an open session, kept if one was open and otherwise started now |
| PlaytimeTracker.SyncClosesAbsentSessions | server/services/playtimeTracker.js:34-57 | an unlisted player with an open session goes offline, seen now, with the session's length added to the playtime (NULL stays NULL) and no session; one without a session is untouched |
| PlaytimeTracker.SyncKeys | server/services/playtimeTracker.js:15-57 | a sync adds only the rows of new listed players and removes none |
| PlaytimeTracker.ClosingIsIdempotent | server/services/playtimeTracker.js:34-57 | closing absent sessions a second time changes nothing, so no session is counted twice |
| PlaytimeTracker.EmptyListClosesAll | server/services/playtimeTracker.js:48-57 | with nobody online, the second form of the update closes every open session |
| PlaytimeTracker.SyncPlayers | server/services/playtimeTracker.js:9-69 | the method's upsert loop and bulk close leave the users table as the sync specification says |
| PlaytimeRoles.FirstTier | server/services/assignPlaytimeRoles.js:83-86 | the search returns the first band from position k containing the hours, and none only when no later band contains them |
| PlaytimeRoles.TargetTier | server/services/assignPlaytimeRoles.js:77-86 | a found tier's band contains the player's hours |
| PlaytimeRoles.RoleTiersContiguous | server/services/assignPlaytimeRoles.js:7-62 | the nine bands start at 0 hours, follow one another without gap or overlap, and the last is unbounded |
| PlaytimeRoles.BoundsIncrease | server/services/assignPlaytimeRoles.js:7-62 | in contiguous bands every upper bound lies at or below every later lower bound |
| PlaytimeRoles.BandsDisjoint | server/services/assignPlaytimeRoles.js:83-86 | no hour count lies in two bands |
| PlaytimeRoles.BandsCover | server/services/assignPlaytimeRoles.js:83-86 | every hour count at or above a band's lower bound lies in some band from there on |
| PlaytimeRoles.TargetTierUnique | server/services/assignPlaytimeRoles.js:77-88 | a playtime earns a tier exactly when it is not negative, and that tier is the only band containing it |
| PlaytimeRoles.TierBoundaries | server/services/assignPlaytimeRoles.js:7-86 | the bands are half-open: 20 h is Copper, a second less is Stone, 1000 h is Tyrian |
| PlaytimeRoles.StepSkips | server/services/assignPlaytimeRoles.js:78-88 | a user who is not a guild member, or whose playtime earns no tier, changes nothing |
| PlaytimeRoles.StepKeepsHolder | server/services/assignPlaytimeRoles.js:90-91 | a member already holding the target role is left as is |
| PlaytimeRoles.StepMovesMember | server/services/assignPlaytimeRoles.js:93-118 | otherwise the member ends with the target as their only tier role and keeps every other role, nobody else changes, and one rank-up message is posted exactly when the run is not the initial one and the channel takes text |
| PlaytimeRoles.InitialPassIsSilent | server/services/assignPlaytimeRoles.js:107 | the initial pass never posts in the hall of fame |
| PlaytimeRoles.PassTouchesOnlyListed | server/services/assignPlaytimeRoles.js:76-119 | a pass leaves the guild's membership alone and changes only members some row names |
| PlaytimeRoles.Guild.constructor | server/services/assignPlaytimeRoles.js:72-74 | the guild starts with the given members' roles and no announcements |
| PlaytimeRoles.Guild.AssignPlaytimeRoles | server/services/assignPlaytimeRoles.js:64-123 | the loop over the rows leaves the guild as the per-row specification applied in order says |
| Durations.JsRem | server/discord/listeners/voteDayManager.js:11 | JavaScript's remainder by a positive divisor lies strictly between -b and b and takes the dividend's sign |
| Durations.MinutesSeconds | server/discord/listeners/voteDayManager.js:9-11 | for a non-negative duration, minutes and seconds (under 60) account for the milliseconds to within one second |
| Durations.HoursMinutes | server/discord/commands/playtime.js:59-60 | for a non-negative playtime, hours and minutes (under 60) account for the seconds to within one minute |
| Durations.MinutesSecondsWording | server/discord/listeners/voteDayManager.js:12-14 | a count of exactly one is singular, any other count plural ("1 minute 1 second", "2 minutes 2 seconds") |
| VoteDay.TaggedName | server/discord/listeners/voteDayManager.js:26-56 | a recognised "`<name>`" prefix splits the text into a non-empty name without ">" and the rest |
| VoteDay.TaggedNameComplete | server/discord/listeners/voteDayManager.js:26-56 | every "`<name>`" prefix with such a name is recognised, with exactly that name and rest |
| VoteDay.DayWord | server/discord/listeners/voteDayManager.js:26 | ".Day" after an optional space matches ".day" ignoring letter case |
| VoteDay.DayCommandRecognised | server/discord/listeners/voteDayManager.js:25-26 | a relayed ".day" in any letter case, with or without a space after the tag, is a day command |
| VoteDay.ParseVote | server/discord/listeners/voteDayManager.js:56-60 | a parsed vote carries a non-empty voter name without ">" |
| VoteDay.VoteMessages | server/discord/listeners/voteDayManager.js:56-65 | "1" or "2" after the tag, with or without a space, is a yes or no vote for that name |
| VoteDay.StartRule | server/discord/listeners/voteDayManager.js:21-51 | a vote starts exactly on a day command while no vote runs and the cooldown has passed, with no votes and no voters; in every other case the state is unchanged |
| VoteDay.CooldownRefuses | server/discord/listeners/voteDayManager.js:33-40 | a day command during the cooldown reports the positive time left and changes nothing |
| VoteDay.CollectRule | server/discord/listeners/voteDayManager.js:53-68 | collecting keeps the counts tied one-to-one to the voters, never takes a vote back and leaves status and cooldown alone |
| VoteDay.CollectCountsOnce | server/discord/listeners/voteDayManager.js:59-67 | a new voter's vote is counted once on its own side; a known voter's is ignored |
| VoteDay.RepeatVoteIgnored | server/discord/listeners/voteDayManager.js:62 | replaying a voter's message never changes the tally |
| VoteDay.EndRule | server/discord/listeners/voteDayManager.js:70-91 | the vote passes exactly on a strict majority and ties exactly on equal counts; the vote closes and the cooldown ends 577 100 ms after a pass and 180 000 ms after a tie or loss |
| VoteDay.VoteDayManager.constructor | server/discord/listeners/voteDayManager.js:1-4 | no vote runs, no cooldown, no votes and no voters |
| VoteDay.VoteDayManager.OnMessage | server/discord/listeners/voteDayManager.js:21-51 | the handler's new state and reply are the trigger specification's, for the trigger test on channel, author and text |
| VoteDay.VoteDayManager.Trigger | server/discord/listeners/voteDayManager.js:30-51 | the state and reply are the trigger specification's |
| VoteDay.VoteDayManager.OnCollect | server/discord/listeners/voteDayManager.js:53-68 | the new state is the collect specification's for the parsed message, and the counts stay tied to the voters |
| VoteDay.VoteDayManager.Count | server/discord/listeners/voteDayManager.js:59-67 | the new state is the collect specification's for an already parsed vote, and the counts stay tied to the voters |
| VoteDay.VoteDayManager.OnEnd | server/discord/listeners/voteDayManager.js:70-91 | the state and verdict are the end specification's, and the day is set exactly on a pass |
| StatsSync.FlattenTypeRows | server/utils/syncAndImportStats.js:21-27 | a row comes out of one stat type exactly for each of its pairs other than the playtime stat, value unchanged |
| StatsSync.FlattenRows | server/utils/syncAndImportStats.js:18-30 | a row is emitted exactly when it is a pair of the file other than `minecraft:custom`/`minecraft:play_time`, with its value unchanged |
| StatsSync.FlattenAppends | server/utils/syncAndImportStats.js:18-30 | flattening keeps the file's order: the rows of earlier stat types come first |
| StatsSync.FlattenStats | server/utils/syncAndImportStats.js:18-30 | the nested pushing loops produce exactly the flattened rows |
| StatsSync.MirrorCountBounded | server/utils/syncAndImportStats.js:78-91 | the download count never exceeds the number of listed files |
| StatsSync.MirrorKeepsOthers | server/utils/syncAndImportStats.js:80-91 | the local directory gains exactly the listed names, and unlisted files keep their size |
| StatsSync.MirrorFetchesAll | server/utils/syncAndImportStats.js:80-91 | with distinct names, every listed file ends up local with its remote size |
| StatsSync.SecondMirrorFetchesNothing | server/utils/syncAndImportStats.js:84-86 | mirroring the same listing a second time downloads nothing |
| StatsSync.NothingToFetch | server/utils/syncAndImportStats.js:84-86 | when every listed file is already local with the same size, nothing changes and nothing is counted |
| StatsSync.DownloadStats | server/utils/syncAndImportStats.js:77-91 | the download loop leaves the directory and count the mirroring specification gives |
| StatsSync.BaseName | server/utils/syncAndImportStats.js:99 | for a name ending in ".json" other than ".json" itself, the UUID is the name without that suffix |
| StatsSync.UpsertedEffect | server/utils/syncAndImportStats.js:47-55 | each row's key ends up holding the value of its last row, and no key of another player is added, removed or changed |
| StatsSync.UnknownPlayersNotImported | server/utils/syncAndImportStats.js:34-102 | no stat of a player missing from the users table is ever written, whatever the directory holds and wherever the upserts fail |
| StatsSync.OtherFilesSkipped | server/utils/syncAndImportStats.js:95-97 | a file not ending in ".json" changes nothing |
| StatsSync.ImportStats | server/utils/syncAndImportStats.js:95-102 | the import loop leaves `player_stats` as the import specification over the listing says, with each file's failing upsert, if any |
| StatsSync.UpsertRows | server/utils/syncAndImportStats.js:47-55 | the insert loop leaves `player_stats` as the upsert specification says for the rows before the failing upsert, or all rows |
| StatsSync.ImportStatsFromFile | server/utils/syncAndImportStats.js:32-61 | one listed file is skipped unless it ends in ".json", and otherwise imported as the file specification says |
| StatsSync.Written | server/utils/syncAndImportStats.js:47-60 | the rows written before a failing upsert are a prefix of the file's rows, and all of them without a failure |
| StatsSync.FailedUpsertKeepsEarlierRows | server/utils/syncAndImportStats.js:47-60 | a failing upsert keeps the keys of the file's earlier rows and writes no key that only later rows name |
| StatsSync.UpsertedKeys | server/utils/syncAndImportStats.js:47-55 | the upserts add exactly the keys their rows name |
| ChatParse.SpacedRestFitsTrimmed | client/src/components/ServerChat.jsx:242-254 | the tail `\s*(.*)$` fits exactly when no line break follows the leading white space |
| ChatParse.LazyEnd | client/src/components/ServerChat.jsx:242-277 | the lazy group `(.+?)` ends at the first end where the rest of the pattern fits, never across a line break, and fails only when no such end exists |
| ChatParse.LazyEndAt | client/src/components/ServerChat.jsx:242 | the lazy group ends at the first fitting end |
| ChatParse.MatchAt | client/src/components/ServerChat.jsx:242-277 | the match's two groups are the text up to the first place where the pattern can close and the tail after the closing text |
| ChatParse.FitsFirstAt | client/src/components/ServerChat.jsx:242 | the first closing place is the first fitting end |
| ChatParse.NoMatch | client/src/components/ServerChat.jsx:242-277 | where the pattern can close nowhere, there is no match |
| ChatParse.Fields | client/src/components/ServerChat.jsx:30 | n `:`-terminated fields hold no ":" and come from the text |
| ChatParse.WordRun | client/src/components/ServerChat.jsx:30 | `[\w-]+` takes the longest run of word characters and dashes |
| ChatParse.WaypointAt | client/src/components/ServerChat.jsx:30 | a recognised waypoint has three coordinates that are integers or "~" and an "Internal-" dimension, and the match consumes text |
| ChatParse.TargetRule | client/src/components/ServerChat.jsx:31-47 | the world is the Nether exactly when the dimension names "nether", else the End exactly when it names "end", else the overworld; "~" coordinates become 0, 64, 0 and others are kept |
| ChatParse.NoWaypointUnchanged | client/src/components/ServerChat.jsx:28-52 | text without a waypoint is shown unchanged |
| ChatParse.NamedMatch | client/src/components/ServerChat.jsx:242-277 | a plain name followed by the closing text and a fitting tail is captured whole |
| ChatParse.Pieces | client/src/components/ServerChat.jsx:242 | where the name, closing text and rest sit in a built line |
| ChatParse.SpacedText | client/src/components/ServerChat.jsx:242 | one space before plain text: the tail fits and captures the text |
| ChatParse.CleanedKeeps | client/src/components/ServerChat.jsx:238 | a line starting with "<", "[" (not "[C") or a backtick and not ending in space is left alone by the prefix removal and trim |
| ChatParse.WebLineParts | client/src/components/ServerChat.jsx:242 | "<name> text" matches the web pattern with the name and the text as its groups |
| ChatParse.WebGroups | client/src/components/ServerChat.jsx:242 | the web pattern's groups are the name and the text |
| ChatParse.UnquotedNameIsWeb | client/src/components/ServerChat.jsx:225-251 | "<name> text" from a web author (the default) is a web message shown as "&lt;name&gt; text" |
| ChatParse.DiscordLineMatch | client/src/components/ServerChat.jsx:254 | "[name]: text" matches the Discord pattern with the name and the text as its groups |
| ChatParse.DiscordGroups | client/src/components/ServerChat.jsx:254 | the Discord pattern's groups are the name and the text |
| ChatParse.DiscordLineParts | client/src/components/ServerChat.jsx:253-264 | "[name]: text" from a non-web author is a Discord message from that name, except that "WebChatBot" and "Web" read as web |
| ChatParse.QuotedNotNameOnly | client/src/components/ServerChat.jsx:267 | "`<name>` text" never fits the name-only pattern when the text holds no ">" |
| ChatParse.QuotedMatch | client/src/components/ServerChat.jsx:277 | "`<name>` text" fits the Minecraft pattern with the name and the text as its groups |
| ChatParse.QuotedGroups | client/src/components/ServerChat.jsx:277 | the Minecraft pattern's groups are the name and the text |
| ChatParse.QuotedNameIsMinecraft | client/src/components/ServerChat.jsx:225-285 | "`<name>` text" is a Minecraft message from that name with waypoints linked, whatever the author type |
| ChatParse.UnquotedNotNameOnly | client/src/components/ServerChat.jsx:267 | "<name> text" never fits the name-only pattern when the text holds no ">" |
| ChatParse.UnquotedGameGroups | client/src/components/ServerChat.jsx:277 | with the optional backtick absent, the Minecraft pattern's groups are the name and the text |
| ChatParse.UnquotedGameMatch | client/src/components/ServerChat.jsx:277 | "<name> text" fits the Minecraft pattern too |
| ChatParse.UnquotedFromElsewhereIsMinecraft | client/src/components/ServerChat.jsx:225-285 | the same "<name> text" from a non-web author reads as a Minecraft message |
| ChatParse.FindName | client/src/components/ServerChat.jsx:55-57 | the lookup returns the first key equal to the name ignoring case, and none only when no key matches |
| ChatParse.PlayerUuidIgnoresCase | client/src/components/ServerChat.jsx:54-61 | the UUID lookup does not depend on the name's case, and a name nobody matches gets Steve's UUID |
| ChatParse.FindSameIgnoringCase | client/src/components/ServerChat.jsx:55-57 | names equal ignoring case find the same key |
| ChatParse.AdminLookupsDifferOnCase | client/src/components/AdminChat.jsx:57-62 | the admin chat's UUID lookup ignores case but its online check (the page's lines 251-252) does not: "steve" finds Steve's UUID yet is not online |
| ChatClient.RemainingSeconds | client/src/components/ServerChat.jsx:176-181 | the wait shown is the remaining time rounded up to whole seconds, between 1 and 10 |
| ChatClient.Tick | client/src/components/ServerChat.jsx:216-223 | one countdown tick lowers a positive count by one and never goes below zero |
| ChatClient.CooldownRule | client/src/components/ServerChat.jsx:176-181 | a send within ten seconds of the last is refused with the seconds still to wait, and only the countdown changes |
| ChatClient.BlankNotSent | client/src/components/ServerChat.jsx:184 | blank input with no image sends nothing and changes nothing |
| ChatClient.SendRule | client/src/components/ServerChat.jsx:174-214 | a send goes out exactly when the cooldown has passed and there is text or an image; it is an upload exactly when an image is attached, carries the trimmed text, restarts the cooldown and clears the input |
| ChatClient.AdminSendsAsAdmin | client/src/components/AdminChat.jsx:166-173 | the admin page always sends the token "admin" and a non-empty author name |
| ChatClient.NoTwoSendsWithinCooldown | client/src/components/ServerChat.jsx:174-187 | after a send, a second one within ten seconds is refused |
| ChatClient.TicksCountDown | client/src/components/ServerChat.jsx:216-223 | after n ticks the countdown has gone down by n, stopping at zero |
| ChatClient.ReceiveRule | client/src/components/ServerChat.jsx:98-108 | receiving only appends, and appends exactly the listed message |
| ChatClient.EmptyNotListed | client/src/components/ServerChat.jsx:98-106 | a message with blank text and no image is not listed |
| ChatClient.ChatPage.constructor | client/src/components/ServerChat.jsx:11-14 | the page starts with no messages, empty input, no image, no last send and no countdown |
| ChatClient.ChatPage.Type | client/src/components/ServerChat.jsx:446-449 | typing replaces the input and nothing else |
| ChatClient.ChatPage.AttachImage | client/src/components/ServerChat.jsx:455-461 | choosing a file attaches an image and changes nothing else |
| ChatClient.ChatPage.SendMessage | client/src/components/ServerChat.jsx:174-214 | the page's state and the send's outcome are the send specification's |
| ChatClient.ChatPage.TickCooldown | client/src/components/ServerChat.jsx:216-223 | one interval firing applies one countdown tick |
| ChatClient.ChatPage.HandleChatMessage | client/src/components/ServerChat.jsx:98-108 | the page's state becomes the receive specification's |
| ChatClient.ChatPage.HandleChatHistory | client/src/components/ServerChat.jsx:110-117 | the history replaces the message list, unfiltered |
| ServerRelay.FirstImage | server/server.js:216 | the image is the first attachment's URL when there is a non-empty one, and none otherwise |
| ServerRelay.HistoryMembers | server/server.js:184-224 | an entry is in the history exactly when it is the entry of a fetched message kept by the filter: a human's, the web bot's, or another bot's in the game's "`<name>`" format |
| ServerRelay.HistoryOrder | server/server.js:201-221 | the history lists messages oldest first (an older message comes before every newer one) and is never longer than what was fetched |
| ServerRelay.RelayMatchesHistory | server/server.js:184-224 | for every author but the web bot, the live relay of a message equals the history entry the message gets when the history keeps it; the web bot's own messages are never relayed live |
| ServerRelay.OtherBotsLiveOnly | server/server.js:203-212 | another bot's message outside the game's "`<name>`" format is relayed live but has no history entry |
| ServerRelay.RelaySkipsEmpty | server/server.js:671-679 | a message is relayed live exactly when it is in the game channel, not from the web bot, and has text or an attachment |
| ServerRelay.CleanedServerLine | client/src/components/ServerChat.jsx:238 | the server bot's "[Createrington]: " prefix and the space after it are removed by the cleaning step |
| ServerRelay.GameLineInHistory | server/server.js:213-219 | a game chat line relayed into Discord by the server bot as "`<name>` text" reaches the web history as a Minecraft message from that player |
| ServerRelay.ServerLineParts | client/src/components/ServerChat.jsx:238 | a server-bot line is classified as its inner text would be |
| ServerRelay.MissingFieldUntouched | server/server.js:700-709 | a message without text or token is dropped and leaves the cooldown map as it was |
| ServerRelay.RelayRule | server/server.js:700-748 | a message is broadcast exactly when both fields are present, the socket's ten-second cooldown has passed, and the token is "admin" or its query succeeds and finds it unexpired; it reaches Discord exactly when it is broadcast and the WebChatBot's send succeeds (a failing send is swallowed, lines 231-245); a throwing token query or a rejected token sends nothing; every attempt past the cooldown check records its time, the others leave the map alone |
| ServerRelay.RejectedTokenConsumesCooldown | server/server.js:711-729 | a rejected token still uses up the cooldown: a valid message from the same socket within ten seconds is refused |
| ServerRelay.DisplayNameRule | server/server.js:719-735 | the relayed line is "<name> message", where the name the client sent wins over the token's Discord name, and "web" stands in for an admin without one |
| ServerRelay.RelayedShowsAsWeb | server/server.js:735-745 | a relayed line with a plain name and text reaches web clients as a web message showing the escaped name |
| ServerRelay.ChatRelay.constructor | server/server.js:86 | the cooldown map starts empty |
| ServerRelay.ChatRelay.SendChatMessage | server/server.js:700-748 | the cooldown map and the outcome are the relay specification's, for the given token-query and Discord-send outcomes |
| ServerRelay.LiveTicket | server/server.js:293-296 | the lookup finds a ticket of the user that is not deleted, or none only when the user has no such ticket |
| ServerRelay.CreateRule | server/server.js:288-347 | without a failing step, a user with a ticket that is not deleted is pointed to it and nothing changes; otherwise the counter rises by one and a new open ticket with that number is appended; it is pointed to the live ticket whenever the first query succeeds |
| ServerRelay.CreateFailureRule | server/server.js:288-382 | a throwing step answers "Failed to create ticket" and keeps what was written before it: nothing before the counter update, the raised counter without a row when the channel or the INSERT fails, the whole ticket when only the welcome fails |
| ServerRelay.FailedCreateSkipsNumber | server/server.js:315-347 | after the channel or the INSERT fails, the next successful create takes the number after the used-up one |
| ServerRelay.CreateKeepsValid | server/server.js:288-347 | creating a ticket, whichever step fails, keeps ticket numbers distinct and at most the counter, and each user with at most one live ticket |
| ServerRelay.TicketNames | server/server.js:317 | ticket 7 is named "ticket-0007" and ticket 12345 keeps all its digits |
| ServerRelay.UpdateChannel | server/server.js:452-544 | an update by channel changes exactly the rows of that channel, and only the columns it sets |
| ServerRelay.ChannelTicket | server/server.js:474-489 | the lookup finds a row of the channel, or none only when the channel has no row |
| ServerRelay.DeleteAndCloseKeepValid | server/server.js:404-551 | deleting and closing a ticket keep the ticket desk's invariant |
| ServerRelay.ReopenKeepsValid | server/server.js:490-504 | reopening a channel none of whose rows is deleted keeps the desk's invariant |
| ServerRelay.ReopenRevivesDeleted | server/server.js:490-551 | reopening a deleted ticket's channel, whose button works until the channel goes five seconds later, can leave its owner with two live tickets |
| ServerRelay.TicketDesk.constructor | server/server.js:288 | the desk works on the given database |
| ServerRelay.TicketDesk.Create | server/server.js:288-382 | the tickets and counter become the create specification's for the step that fails, if any; no other table is written (the frame names only those two), and the invariant is kept |
| ServerRelay.TicketDesk.Close | server/server.js:404-460 | the channel's rows get the admin panel's message id and their status stays as it was; only the tickets table is written |
| ServerRelay.TicketDesk.Reopen | server/server.js:470-530 | the rows are set open exactly when the channel's first row has an owner, otherwise nothing changes; the invariant is kept when no row of the channel is deleted |
| ServerRelay.TicketDesk.Delete | server/server.js:532-551 | the channel's rows are marked deleted, and the invariant is kept |
| Forms.OrNull | server/routes/forms.js:29-30 | `value \|\| null` is NULL exactly for a missing or empty answer, and otherwise the answer itself |
| Forms.ApplyRule | server/routes/forms.js:11-32 | the required answers are stored as sent; an empty or missing optional answer becomes NULL and any other is kept |
| Forms.Apply | server/routes/forms.js:11-43 | exactly one row, the one the rule describes, is appended to `applications` |
| Forms.ValidEmailParts | server/routes/forms.js:59-62 | every accepted address splits into a local part, "@", a host, "." and a last part, none empty and none holding white space or "@" |
| Forms.EmailAccepted | server/routes/forms.js:59-62 | conversely every such address is accepted, whatever dots the host holds |
| Forms.EmailExamples | server/routes/forms.js:59-62 | "test@example.com" is accepted; "a@b", "@b.c", "a b@c.d" and "a@b." are refused |
| Forms.WaitlistLadder | server/routes/forms.js:46-95 | the checks run in order (a missing field, the e-mail's shape, a taken e-mail, a taken Discord name, both ignoring case), each refusal leaves the table alone, and a sign-up succeeds only past all of them |
| Forms.AddedRow | server/routes/forms.js:97-107 | a successful sign-up adds exactly one row under the serial's next id, holding the e-mail and Discord name as sent and no invite token |
| Forms.SecondSignUpRefused | server/routes/forms.js:73-83 | signing the same e-mail up again, in any letter case, is refused as taken |
| Forms.ListedOnceAdded | server/routes/forms.js:73-77 | a row just written is found by the case-insensitive e-mail lookup |
| Forms.JoinKeepsValid | server/routes/forms.js:46-117 | a sign-up keeps the waitlist's invariant: ids below the serial, and no two rows sharing an e-mail or a Discord name up to letter case |
| Forms.WaitList | server/routes/forms.js:46-117 | the waitlist, the serial and the outcome are the sign-up specification's, and the invariant is kept |
| AdminRoutes.GateRule | server/routes/admin.js:87-97 | a request gets through exactly when its cookie names an admin (the lookup of server/services/admin.js:7-15); no cookie is refused as unauthorised and a non-admin as not an admin |
| AdminRoutes.Validate | server/routes/admin.js:17-33 | the reply says valid exactly when the cookie names an admin, with status 400 without a cookie and 200 otherwise |
| AdminRoutes.MeRule | server/routes/admin.js:49-80 | a non-admin is refused with 403; an admin gets the `users` rows carrying the id exactly when there are some, and 404 otherwise |
| AdminRoutes.SilentQueries | server/routes/admin.js:105 | "/v get" in any letter case, alone or followed by a space, is a silent vanish query |
| AdminRoutes.LoudCommands | server/routes/admin.js:105 | "/v getter", "/v list", " /v get Steve" and "/v ge" are not silent |
| AdminRoutes.AdminMcName | server/routes/admin.js:104 | the logged name is never empty, and is the linked name whenever that is not empty |
| AdminRoutes.RconLogRule | server/routes/admin.js:83-138 | a command is logged exactly when an admin ran it, it reached the server and it is not a vanish query, as one entry with the admin's id, in-game name and command; the reply carries the server's response exactly when an admin's command reached the server |
| AdminRoutes.SetVanishRule | server/routes/admin.js:204-251 | the guards run in order (cookie, a boolean value, admin, server reply "no player found" in any case); the update succeeds exactly past all of them, and then changes only the caller's flag and nobody's admin rights |
| AdminRoutes.VanishReadBack | server/routes/admin.js:171-243 | after a successful update, GET /admin/vanish-status returns the value just set |
| AdminRoutes.SendInviteRule | server/routes/admin.js:254-356 | an entry already invited keeps its token; a token is stored exactly when an admin invites an uninvited existing entry and the mail goes out, on that entry alone, keeping its e-mail and name |
| AdminRoutes.SendInviteKeepsValid | server/routes/admin.js:344-347 | sending an invite keeps the waitlist's invariant |
| AdminRoutes.RconRoute | server/routes/admin.js:83-138 | `rcon_logs` and the reply are the RCON specification's |
| AdminRoutes.SetVanishRoute | server/routes/admin.js:204-251 | `admins` and the reply are the vanish-update specification's |
| AdminRoutes.SendInviteRoute | server/routes/admin.js:254-356 | the waitlist and the reply are the invite specification's, and the waitlist's invariant is kept |
| Cooldowns.Decide | server/discord/commands/ip.js:22-26 | a use is refused exactly when less than the window has passed since the last, and the refusal reports the positive time left, which completes the window |
| Cooldowns.ReadingsAgree | server/discord/commands/stats-guide.js:27-29 | the three readings of a stored time (here, and in server/discord/commands/ip.js:23 and server/discord/commands/list.js:16-17) agree once the clock is one window past zero; a user never seen is accepted by the `has` and truthy readings and refused by `get \|\| 0` only within the first window |
| Cooldowns.RefusalBounded | server/discord/commands/ip.js:24-28 | a refusal never reports more than the window when the clock has not gone back, and its minutes and seconds never exceed the wait |
| Cooldowns.RecordedUseBlocks | server/discord/commands/ip.js:22-35 | after a use recorded at `now`, every reading refuses the key with the exact time left until the window has passed, and accepts it again from then on |
| Cooldowns.CooldownMap.constructor | server/discord/commands/ip.js:13 | the store starts empty |
| Cooldowns.CooldownMap.Use | server/discord/commands/ip.js:20-35 | the decision is the `get \|\| 0` reading, and exactly an accepted use is recorded |
| Cooldowns.CooldownMap.UseIfPresent | server/discord/commands/stats-guide.js:24-41 | the decision is the `has` reading, and exactly an accepted use is recorded |
| Cooldowns.CooldownMap.Record | server/discord/commands/list.js:32 | the key's last use becomes now, and no other key changes |
| Cooldowns.GlobalCooldown.constructor | server/discord/commands/top-playtime.js:8 | the shared cooldown starts at time 0 |
| Cooldowns.GlobalCooldown.Record | server/discord/commands/top-playtime.js:28 | the shared last use becomes now |
| StatsCommands.StripNamespace | server/discord/commands/stats.js:56 | the result is the input, or the input is the game namespace followed by the result; an input that starts with the namespace always loses it |
| StatsCommands.StatType | server/discord/commands/stats.js:46-56 | the stored statistic type always starts with the game namespace |
| StatsCommands.CategoryType | server/discord/commands/stats-category.js:36-41 | the stored category always starts with the game namespace |
| StatsCommands.NamespacedKeeps | server/discord/commands/stats.js:46-56 | a lower-cased name without trailing white space, once namespaced, is unchanged by trimming and lower-casing |
| StatsCommands.StatTypeIdempotent | server/discord/commands/stats.js:46-56 | normalising a type that was already normalised changes nothing |
| StatsCommands.BareTypeNamespaced | server/discord/commands/stats.js:46-56 | a type without white space or namespace, such as "Mined", becomes the namespace followed by its lower-cased form |
| StatsCommands.StatKeyShape | server/discord/commands/stats.js:50-59 | a stored key has no white space, is lower-cased and always contains ":" |
| StatsCommands.StatKeyIdempotent | server/discord/commands/stats.js:50-59 | normalising a key that was already normalised changes nothing |
| StatsCommands.NamespacedKeyKept | server/discord/commands/stats.js:57-59 | a normal-form key that already names a namespace, such as "create:mechanical_pump", is kept as it is |
| StatsCommands.BareKeyNamespaced | server/discord/commands/stats.js:57-59 | a normal-form key without ":" is put in the game namespace |
| StatsCommands.Capitalized | server/discord/commands/stats.js:81-84 | same length; the first character upper-cased and the rest unchanged |
| StatsCommands.Pretty | server/discord/commands/stats.js:81-87 | the display name is as long as the last ":" segment and contains neither ":" nor "_" |
| StatsCommands.PrettyOfNamespaced | server/discord/commands/stats.js:81-87 | the display name of "ns:name" is name with "_" read as a space and its first letter upper-cased |
| StatsCommands.StatsMedal | server/discord/commands/stats.js:89-95 | a row gets a non-empty medal exactly when it is among the first five |
| StatsCommands.CategoryLabel | server/discord/commands/stats-category.js:68-74 | a label is never empty; the first three rows get a medal and every later row "#" followed by its one-based rank |
| StatsCommands.Lines | server/discord/commands/stats-category.js:69-76 | one line per row, line i built from row i, in query order |
| StatsCommands.StatsLinesRule | server/discord/commands/stats.js:89-97 | every /stats line starts with its row's medal, and only the first five rows have one |
| StatsCommands.StatsCooldownRule | server/discord/commands/stats.js:5-44 | the spam channel never waits and never records a use; elsewhere a one-hour cooldown keyed by channel and user is refused with a positive wait and no change, or accepted, records the time before the query and looks up the normalised type and key |
| StatsCommands.StatsCommand | server/discord/commands/stats.js:31-59 | the handler changes the cooldown store and replies as the /stats rule says |
| StatsCommands.CategoryRule | server/discord/commands/stats-category.js:18-41 | a use within ten minutes of the user's last use (a missing one counting as 0) is refused with a positive wait and no change; otherwise the use is recorded before the query and the normalised category is looked up |
| StatsCommands.CategoryCommand | server/discord/commands/stats-category.js:18-41 | the handler records a use per user before the query, after a ten-minute cooldown, and looks up the normalised category |
| StatsCommands.ChampionsRule | server/discord/commands/stats-champions.js:15-68 | a board is shown exactly when the shared hour has passed and the query returned rows; only then is the time recorded; a refusal reports the rest of the hour |
| StatsCommands.ChampionsCommand | server/discord/commands/stats-champions.js:15-75 | the handler changes the shared cooldown and replies as the champions rule says |
| StatsInfo.FirstIndex | server/discord/commands/stats-info.js:49-53 | the position of the first row of a type: that row has the type and no earlier row does |
| StatsInfo.FirstIndexExtended | server/discord/commands/stats-info.js:49-53 | appending a row does not move the first row of a type already seen |
| StatsInfo.FirstIndexNew | server/discord/commands/stats-info.js:49-53 | the first row of a new type is the row just appended |
| StatsInfo.HasTypeExtended | server/discord/commands/stats-info.js:49-53 | after appending a row a type has been seen exactly when it had been before or is the new row's |
| StatsInfo.KeysOfAbsent | server/discord/commands/stats-info.js:49-53 | a type no row has has no keys |
| StatsInfo.KeysOfExtended | server/discord/commands/stats-info.js:49-53 | appending a row adds its key to the end of its own type's list and to no other |
| StatsInfo.PushWellFormed | server/discord/commands/stats-info.js:51 | one loop step keeps every type listed once and the dictionary's keys equal to the listed ones |
| StatsInfo.PushListsMatch | server/discord/commands/stats-info.js:51-52 | one loop step keeps each list equal to its type's keys in query order |
| StatsInfo.PushFirstSeenOrder | server/discord/commands/stats-info.js:51 | one loop step keeps the types in the order of their first row |
| StatsInfo.PushDescribes | server/discord/commands/stats-info.js:50-53 | one loop step turns a description of a prefix into a description of the prefix and one more row |
| StatsInfo.GroupedDescribes | server/discord/commands/stats-info.js:49-53 | the grouping lists exactly the types met, each once, in order of first appearance, and each type's keys in query order |
| StatsInfo.GroupRows | server/discord/commands/stats-info.js:49-53 | the loop's dictionary is the grouping of the rows and so has every property above |
| StatsInfo.InfoCooldownRule | server/discord/commands/stats-info.js:23-73 | a first use is never refused; an export is sent exactly when the day has passed, the query succeeded and the file was delivered; only then is the time recorded, and the export describes the rows |
| StatsInfo.InfoCommand | server/discord/commands/stats-info.js:23-73 | the handler changes the cooldown store and replies as the /stats-info rule says |
| PlaytimeCommands.CeilMinutes | server/discord/commands/list.js:18 | the whole minutes still to wait, rounded up: at least one, and the wait lies in the last of them |
| PlaytimeCommands.ListRule | server/discord/commands/list.js:11-46 | a refusal reports the wait in whole minutes rounded up and changes nothing; a failed query records nothing; otherwise the use is recorded after the query, and every online player gets one "- name" line in query order |
| PlaytimeCommands.ListCommand | server/discord/commands/list.js:11-52 | the handler changes the cooldown store and replies as the /list rule says |
| PlaytimeCommands.TopPlaytimeRule | server/discord/commands/top-playtime.js:8-54 | a use is refused exactly while part of the shared ten minutes remains; every accepted use, even one whose query fails, records the time; ranks count from 1 in query order and each time is split into whole hours and minutes |
| PlaytimeCommands.TopPlaytimeFirstUse | server/discord/commands/top-playtime.js:8-19 | with the last use starting at zero, the first use ten minutes or more after zero is accepted |
| PlaytimeCommands.TopPlaytimeCommand | server/discord/commands/top-playtime.js:15-65 | the handler changes the shared cooldown and replies as the /top-playtime rule says |
| PlaytimeCommands.PlaytimeRule | server/discord/commands/playtime.js:18-65 | with a name the lookup ignores case, without one it uses the caller's Discord id; an unknown name and an unlinked account get different replies; a missing or zero time is "not recorded yet"; a positive time is shown as whole hours and minutes |
| ChampionRoles.BoardRule | server/services/statsChampionsBoard.js:30-40 | an empty result shows "No data found."; otherwise the board opens with the gold medal, the leader's name and count |
| ChampionRoles.GuildRole.constructor | server/services/statsChampionsBoard.js:129 | the role starts with the given holders |
| ChampionRoles.GuildRole.Reconcile | server/services/statsChampionsBoard.js:130-144 | after the removal loop and the addition the leader alone holds the role, and the change flag is set exactly when the holders were not already just the leader |
| ChampionRoles.ChampionRule | server/services/statsChampionsBoard.js:108-146 | without a leader with a Discord id nothing changes and nothing is announced; with one, a role and a fetchable member, the leader alone keeps the role and the announcement goes out exactly when the holders changed |
| ChampionRoles.RefreshRule | server/services/statsChampionsBoard.js:178-192 | the refresh button works exactly when ten minutes (the constant at lines 10-11) have passed since the last refresh and then records the time; a refusal reports a positive wait and records nothing |
| ChampionRoles.RefreshButton | server/services/statsChampionsBoard.js:171-193 | the handler changes the shared refresh time and replies as the refresh rule says |
| ChampionRoles.UpdateChampion | server/services/statsChampionsBoard.js:108-146 | the guild's champion role after the update is what the champion rule gives, with the member fetch succeeding exactly for guild members |
| ChampionRoles.NullTimeTopsAsWritten | server/services/assignTopTplayerRole.js:8-14 | the query as written ranks a linked user with no recorded time above one with 100 hours |
| ChampionRoles.TopRowsAgreeWithoutNulls | server/services/assignTopTplayerRole.js:8-14 | when every linked user has a time the written and the intended choice of top row agree, and the intended one has a time no linked user exceeds |
| ChampionRoles.TopPlayerRule | server/services/assignTopTplayerRole.js:16-61 | without linked users, without the role, or when the leader's member fetch fails because they left the guild, nothing changes and nothing is announced; otherwise the leader alone keeps the role, and the announcement, in whole hours and minutes, goes out exactly when the leader did not hold it yet |
| ChampionRoles.AssignTopPlayerRole | server/services/assignTopTplayerRole.js:6-65 | the guild's top-player role and the announcement are what the top-player rule gives for the intended top row and the outcome of the leader's member fetch |
| Onboarding.VerifyRule | server/discord/commands/verify.js:18-61 | a member without the unverified role is refused, then an unknown token; refusals change nothing; success deletes exactly the token's waitlist rows and records the Discord id as verified |
| Onboarding.TokenSingleUse | server/discord/commands/verify.js:35-48 | after a successful /verify the same token is unknown to anyone |
| Onboarding.VerifyKeepsWaitlistValid | server/discord/commands/verify.js:48 | deleting the token's rows keeps the waitlist's e-mails and Discord names unique |
| Onboarding.LinkRule | server/discord/commands/link.js:18-50 | a Discord id already on a row is refused; a name with no unlinked row is refused; refusals change nothing; success puts the Discord id on exactly the unlinked rows of that name and changes no other row or column |
| Onboarding.LinkKeepsOneLinkPerAccount | server/discord/commands/link.js:23-38 | with unique Minecraft names, /link keeps every Discord id on at most one user row |
| Onboarding.RegisterRule | server/discord/commands/register.js:26-155 | the guards in order: unverified role, verified id, a Mojang lookup and UUID query that do not throw, a Mojang profile, a UUID not yet in users; each refusal changes nothing; success (no step throws) whitelists the proper name, inserts an offline user row under the UUID, spends the verification and swaps the unverified role for the player role |
| Onboarding.RegisterFailureRule | server/discord/commands/register.js:60-160 | a step that throws keeps what the steps before it wrote, in the order whitelist, user row, verification, unverified role; the player role is never given |
| Onboarding.FailedRegisterIsStuck | server/discord/commands/register.js:126-137 | after a failure once the verification was spent, a retry is refused as not verified, or as not eligible once the unverified role is gone, and changes nothing |
| Onboarding.FailedDeleteBlocksSameAccount | server/discord/commands/register.js:120-128 | after a failure between the insert and the deletion, a retry with the same account is refused as already registered |
| Onboarding.RegisterOnce | server/discord/commands/register.js:31-137 | a second /register after a successful one is refused and changes nothing |
| Onboarding.VerifyThenRegister | server/discord/commands/verify.js:48-55 | after a successful /verify, /register of an existing Minecraft account not yet in users succeeds |
| Onboarding.RegisterKeepsOneLinkPerAccount | server/discord/commands/register.js:120-124 | when the member has no linked row yet, registering keeps every Discord id on at most one row |
| Onboarding.Member.constructor | server/discord/commands/register.js:29-33 | the member starts with the given unverified and player roles |
| Onboarding.Whitelist.constructor | server/discord/commands/register.js:107-113 | the whitelist starts empty |
| Onboarding.Whitelist.Add | server/discord/commands/register.js:112 | `whitelist add` adds exactly the name |
| Onboarding.VerifyCommand | server/discord/commands/verify.js:18-69 | the handler changes the waitlist and verified ids as the /verify rule says and keeps the waitlist valid |
| Onboarding.LinkCommand | server/discord/commands/link.js:18-58 | the handler changes the users table as the /link rule says and keeps one row per Discord id when names are unique |
| Onboarding.RegisterCommand | server/discord/commands/register.js:26-168 | the handler changes the tables, the member's roles and the whitelist as the /register rule says, stopping after the writes that precede the step that throws |
| OnlinePlayers.PartitionRule | client/src/components/OnlinePlayers.jsx:45-46 | the online and offline lists split the players: each player is in exactly the list its flag says, as often as in the input, and both lists keep the input's order |
| OnlinePlayers.TimeAgoRule | client/src/components/OnlinePlayers.jsx:32-43 | seconds below one minute, minutes below one hour, hours below one day, days after that; the count is the elapsed time floored to that unit |
| OnlinePlayers.TimeAgoWording | client/src/components/OnlinePlayers.jsx:36-42 | the phrase is the count, the unit, an "s" except for exactly one minute, hour or day (seconds always plural), and "ago" |
| AdminPanel.PlaytimeShown | client/src/components/AdminPanel.jsx:117-120 | a missing time shows 0h 0m; a recorded time is split into whole hours and whole minutes that together stay within a minute of it |
| AdminPanel.ViewRule | client/src/components/AdminPanel.jsx:97-103 | the panel shows exactly when the session was checked and allowed and the admin is loaded; "Loading..." while unchecked or allowed without an admin |
| AdminPanel.Panel.constructor | client/src/components/AdminPanel.jsx:13-17 | not allowed, not checked, no admin, nobody online and an empty log |
| AdminPanel.Panel.OnValidate | client/src/components/AdminPanel.jsx:23-42 | the check is done afterwards either way; a valid session is allowed in and anything else, a failed request included, sends the visitor home |
| AdminPanel.Panel.OnMe | client/src/components/AdminPanel.jsx:44-63 | a row with a name becomes the admin shown; anything else sends the admin home and keeps the rest of the state |
| AdminPanel.Panel.OnPlayers | client/src/components/AdminPanel.jsx:65-85 | the online list becomes the players flagged online, a missing list read as empty |
| AdminPanel.Panel.AppendLog | client/src/components/AdminPanel.jsx:18 | the log keeps the newest fifty entries of everything appended, the new one last |
| AdminPanel.SignIn | client/src/components/AdminPanel.jsx:23-103 | a valid session and a named admin show the panel for that admin and nobody is sent home; an invalid session shows nothing and sends the visitor home |
| AdminRconPanel.ErrorWins | client/src/components/AdminRconPanel.jsx:87-100 | a line holding a warning or cross mark anywhere is an error line, whatever else it holds |
| AdminRconPanel.SuccessMarked | client/src/components/AdminRconPanel.jsx:87-100 | a line opening with the check mark and holding no error mark is a success line |
| AdminRconPanel.RunningMarked | client/src/components/AdminRconPanel.jsx:87-100 | a line opening with the hourglass and holding no error or success mark is a running line |
| AdminRconPanel.SuggestionsRule | client/src/components/AdminRconPanel.jsx:224-225 | a listed name is offered exactly when it contains the typed text ignoring case; every offer does; an empty input offers the whole list |
| AdminRconPanel.InsertByTime | client/src/components/AdminRconPanel.jsx:435-436 | inserting adds exactly the one entry |
| AdminRconPanel.InsertSorted | client/src/components/AdminRconPanel.jsx:435-436 | inserting into a time-ordered list keeps it ordered |
| AdminRconPanel.SortByTime | client/src/components/AdminRconPanel.jsx:435-436 | the sort returns the same entries, oldest first |
| AdminRconPanel.MergedRule | client/src/components/AdminRconPanel.jsx:435-437 | the console shows at most fifty entries drawn from both lists, oldest first, all of them when there are no more than fifty, and no entry left out is newer than one shown |
| AdminRconPanel.ToggleVanish | client/src/components/AdminRconPanel.jsx:313-391 | every press logs at least the opening line and an outcome line |
| AdminRconPanel.VanishToggleRule | client/src/components/AdminRconPanel.jsx:313-391 | the first command is `/v get`; the toggle is sent exactly when the first check found the player; the switch changes exactly when the verifying `/v get` found the player, and then shows whether its reply says "currently vanished" |
| AdminRconPanel.CheckingIsRunning | client/src/components/AdminRconPanel.jsx:314 | the opening "Checking vanish status..." line shows as running |
| AdminRconPanel.FailuresAreErrors | client/src/components/AdminRconPanel.jsx:333-388 | the three failure lines show as errors |
| AdminRconPanel.DoneIsSuccess | client/src/components/AdminRconPanel.jsx:377 | the "Vanish enabled/disabled." line shows as a success |
| AdminRconPanel.VanishMessagesKinds | client/src/components/AdminRconPanel.jsx:313-391 | a press's first line is running; its last line is a success exactly when the state was set and saved, and an error otherwise |
| AdminRconPanel.CommandLines | client/src/components/AdminRconPanel.jsx:417-429 | "Running..." first, then, when a reply came, its response or error text, or "No response" when it has neither |
| AdminRconPanel.CommandStartsRunning | client/src/components/AdminRconPanel.jsx:418 | a command's first line shows as running |
| AdminRconPanel.Console.constructor | client/src/components/AdminRconPanel.jsx:265-275 | the console starts closed and empty, with no vanish state known |
| AdminRconPanel.Console.OnLogs | client/src/components/AdminRconPanel.jsx:278-287 | the console opens when the page's log list grew since last seen, and the new length is remembered |
| AdminRconPanel.Console.AppendLog | client/src/components/AdminRconPanel.jsx:289-295 | the console opens and keeps the newest fifty entries of everything appended, the new one last |
| AdminRconPanel.Console.LogAll | client/src/components/AdminRconPanel.jsx:289-295 | appending several lines one by one adds all of them, in order, to what was logged |
| AdminRconPanel.Console.SendCommand | client/src/components/AdminRconPanel.jsx:417-429 | the command's lines are logged in order and the console opens |
| AdminRconPanel.Console.ToggleVanishPressed | client/src/components/AdminRconPanel.jsx:313-391 | the press logs the toggle rule's lines in order and sets the switch only when the rule gives a new state |
| GameData.GameStore.constructor | server/routes/gameData.js:10-11 | the store of saves starts empty |
| Sequences.LastN | client/src/components/AdminRconPanel.jsx:437 | `slice(-n)`: the last n elements, or all when there are fewer |
| Sequences.LastNOfLastN | client/src/components/AdminRconPanel.jsx:292 | keeping the last n of the last m ≥ n is keeping the last n |
| Sequences.AppendBounded | client/src/components/AdminRconPanel.jsx:291-294 | the bounded append ends with the new entry and never exceeds the cap |
| Sequences.AppendBoundedKeepsNewest | client/src/components/AdminRconPanel.jsx:291-294 | a buffer holding the newest fifty of a history still holds the newest fifty after the append: only the oldest entry can be lost |
| Sequences.FilterPartition | client/src/components/OnlinePlayers.jsx:45-46 | a filter and its complement together hold each element exactly as often as the input |
| Text.Trim | client/src/components/ServerChat.jsx:184 | `trim()`: no white space at either end, and empty exactly for an all-white-space input |
| Text.TrimIsSlice | client/src/components/ServerChat.jsx:184 | `trim()` removes only a white-space prefix and a white-space suffix: the result is the slice of the input between them |
| Text.ToLower | server/discord/commands/stats.js:46-49 | `toLowerCase()` character by character on the ASCII range, same length |
| Text.PadStart | server/server.js:317 | `padStart(width, c)`: exactly the width long when the input is shorter, otherwise the input; it ends with the input and every character before it is `c` |

## Left out

- Rendering, styling, the 3D skin viewer and animations: no rule of the game depends on them.
- Timers (`setInterval`, `setTimeout`): each tick or event is one method call (`SmeltTick`, `TickCooldown`, `OnCollect`, the playtime sync pass). How often they fire is not modelled.
- Postgres, discord.js, RCON, SFTP, e-mail, socket.io and the Mojang lookup:
  - Tables are fields of `Db.Database`.
  - What a query, a guild fetch, an RCON command or the Mojang lookup returns is a parameter.
  - A failed query, fetch or RCON command is a `None` or failure parameter where the model covers it: the step that throws for /register and ticket creation, the failing upsert of each stats file, the token query and the Discord send of the web relay. Elsewhere a throw inside a `catch` that only logs is not modelled.
  - Role, member and channel fetches in the role services are parameters. So are the files of the stats server.
- Concurrency: two near-simultaneous loads of a save can both credit the catch-up. Two sign-ups can race past the waitlist's duplicate checks. The model runs one request at a time. So the 404 of GET /admin/vanish-status, which needs a concurrent delete, is not modelled.
- `Math.random`: the offline-earnings draws are a function `draw: nat -> real` into [0, 1). The hand click's 50% chance and /register's `randomDelay` are left out. The progress messages /register edits in between are left out too.
- Manual clicks and the live auto-clicker tick in the browser are left out. They only add points at the per-click value, and the listed properties do not mention them. The offline credit of auto-clicks is modelled.
- Floating point: rates, per-click values, drop chances and the coal reserve are exact `real`s. The coal reserve is a `real`, not a count of quarter units, because the save route accepts any number; `floor(coal / 0.25)` is written `(coal * 4).Floor`. IEEE rounding in `5000 / level` and in the running sums of drop chances is not reproduced.
- ClickerGame.Game.LoadSave: a 401 or 500 answer is a JSON object, so the page would set every field from it and get `undefined`; the model leaves the state as it was. The `offline_earned` and `offline_smelted` notices are not modelled.
- ServerRelay.TicketDesk.Reopen: keeps the desk's invariant only when no row of the channel is deleted. Reopening a deleted ticket's channel during the five seconds before it goes (or for good if deleting the channel fails) can leave its owner with two live tickets, as `ServerRelay.ReopenRevivesDeleted` shows; the model, like the source, does not prevent it.
- `VoteDay`: a rejected `message.channel.send` when a vote starts (server/discord/listeners/voteDayManager.js:48), or a throwing `setDayCallback` at the end (line 77), leaves `voteActive` true for good, so no later vote can start. Neither throw is modelled. The listener is not registered (server/server.js:141 is commented out).
- ChampionRoles.AssignTopPlayerRole: takes the intended top row, with NULL playtimes last, where the source's ORDER BY puts them first (third Findings row); the as-written choice is `ChampionRoles.NullTimeTopsAsWritten`.
- PlaytimeTracker.SyncClosesAbsentSessions, PlaytimeTracker.SyncPlayers and `PlaytimeTracker.ClosedSession`: the clock counts whole seconds, and a closed session adds `now - sessionStart` to the playtime. The source adds `EXTRACT(EPOCH FROM (NOW() - session_start))` (server/services/playtimeTracker.js:40 and :53), a fractional number of seconds at microsecond precision; those fractions, and whatever the playtime column does with them (rounding or accumulating), are not modelled.
- `toFixed`, `toLocaleString` and `Date` rendering: counts are carried as numbers or pre-rendered strings.
- `OnlinePlayers.TimeAgo` takes the elapsed milliseconds rather than a timestamp and the clock.
- `Text.ToLower` folds ASCII letters only. JavaScript's full Unicode case mapping is not modelled. This affects the case-insensitive lookups in the chat pages, /playtime, the waitlist duplicate checks and the autocomplete.
- `ChatParse`: `.` in the source's regular expressions is read as "any character but a line break". Messages are taken to be single-line. The Markdown rendering of the fallback branch is done by the Markdown library; the model keeps its source text (`ChatParse.Markdown`).
- GameData.GameStore.Load, GameData.LoadGame, GameData.LoadCreditsEarnings, GameData.GameStore.Store and GameData.Save model the corrected routes of the first two Findings rows, as the rest of the model does: a row without a logout stamp earns nothing, where the source counts from the epoch, and the save stores the offline-earnings level, which the source drops. The routes as written are `GameData.NullLogoutCreditedAsWritten`, `GameData.EarningsAsWritten`, `GameData.OfflineLevelDroppedAsWritten` and `GameData.SaveAsWritten`.
- GameData.GameStore.CreditEarnings: with an offline level above 10, the source adds `NaN` to the points and runs the UPDATE. Whether Postgres then stores `NaN` or refuses the write depends on the column type, which is not part of this model. The model answers a failed load and keeps the catch-up's write. As written this case does not arise, because the save never stores the offline level (second Findings row).
- GameData.LoadCreditsEarnings: states the same failed-load guess for the `NaN` outcome as `GameData.GameStore.CreditEarnings`.
- GameData.Storable: the `jsonb` and number columns accept any JSON and fractional points. The model stores a typed row, so it takes a body with other JSON values, or non-integral counts and levels, to make the write fail (500). The source may store such a body.
- `GameData.CatchUp`: a queued ore whose material count is missing makes the source compute `NaN`. The model counts a missing material as 0.
- The client's own furnace recipe table is not part of this model. The server's recipes (server/routes/gameData.js:14-19) stand in for it in `ClickerGame.SmeltTick` and the enqueue bound.
- `Db.PlayTimeDefault`: a row inserted without `play_time_seconds` is given 0. The schema that fixes this default is not part of this model.
- `Onboarding.LinkKeepsOneLinkPerAccount` assumes Minecraft names are unique among user rows. The source's UPDATE would put one Discord id on every unlinked row of that name.
- `Onboarding.RegisterKeepsOneLinkPerAccount` assumes the member has no linked row yet. /register itself never checks this.
- `Onboarding.LinkRule`: the "already linked" reply quotes the linked name, and the model does not keep it. Staff notifications are a flag (`Onboarding.StaffNotified`), not their text. The clean-up of the verify channel's messages is left out.
- `AdminRconPanel.Console.ToggleVanishPressed` stamps every console line of one press with the same `now`. In the source each `appendLog` reads the clock again.
- `AdminRconPanel.MergedRule` does not state the order among entries with equal times. The source's sort is stable, and `SortByTime` keeps equal entries in input order, but no lemma says so.
- `AdminRconPanel`: the switch's initial state read from `/api/admin/vanish-status` and the name read from `/api/admin/me` on mount are left out. The `output` line that mirrors the console and the buttons that only build an RCON command string for `sendCommand` are left out too.
- `OnlinePlayers.PartitionRule` takes `online` as a boolean. The source splits on JavaScript truthiness.
- `AdminPanel.PlaytimeShown` states the split into hours and minutes only for a non-negative time.
- Routes and pages outside the modelled core are left out: /admin/users, the waitlist listing, admin logout, the OAuth callback and the image upload. So are the thin glue services (logging, e-mail, whitelist helpers, the token command).
- Error paths that use an undefined name:
  - /register's `catch` reads the undefined `err` (register.js:160). `Onboarding.RegisterFailed` is that path: no reply and no staff notification, and the writes of the steps before the failing one stay.
  - /stats-champions' `catch` reads the undefined `err` (stats-champions.js:73). `StatsCommands.Failed` is that path: no reply, and the shared time is not recorded.
  - The top-player service's `catch` calls `logError`, which it does not import (assignTopTplayerRole.js:63). The only failure modelled there is the leader's member fetch, and it changes nothing.
  - The champions board's refusal reply names `MessageFlags`, which it does not import (statsChampionsBoard.js:185-186). `ChampionRoles.RefreshRefused` is that path: the throw sends no message, and the refresh time is not recorded.

## Findings

| source | as written | input that shows it | evidently intended | confidence | as-written member | corrected member |
|---|---|---|---|---|---|---|
| server/routes/gameData.js:76-100 | a load that credits offline earnings sets `last_logout_at` to NULL, and the next load passes that NULL to the earnings calculation, which counts from time 0 and so credits the whole cap again | a save with auto-clicker and offline levels 1, loaded twice with no logout between: the second load credits 30 minutes of clicks again | earnings only for time since a recorded logout, so at most once per logout | medium, not executed | GameData.NullLogoutCreditedAsWritten | GameData.EarningsCreditedOncePerLogout |
| server/routes/gameData.js:156-172 | the save's upsert never writes `offline_earnings_level`, though the page sends it | an existing row at level 0 saved with `offline_earnings_level: 3` keeps level 0 | the level the player bought is stored with the rest of the progress | high, not executed | GameData.OfflineLevelDroppedAsWritten | GameData.SaveStoresProgress |
| server/services/assignTopTplayerRole.js:8-14 | `ORDER BY play_time_seconds DESC` puts NULL first in Postgres, so a linked user with no recorded time is taken as the top player | two linked users, one with no time and one with 360000 seconds: the role goes to the first | the linked user with the most recorded playtime | medium, not executed | ChampionRoles.NullTimeTopsAsWritten | ChampionRoles.TopRowsAgreeWithoutNulls |
