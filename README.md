# Beyond Bell space shooter: rules and leaderboard

This project models the rules layer of the Beyond Bell browser space shooter
(`SpaceShooterGame`) and the rules of its leaderboard server.

The game keeps a player with health, a shield, speed and a fire rate, plus an
inventory of four crafting materials and tokens. It also keeps lists of
bullets, targets, entangled target pairs, obstacles, dropped items and
explosion particles. Every animation frame while in play, the frame does the
following, in order:

- fires automatically when the weapon is automatic and the mouse button is held;
- advances the clock and the level, one level per 30 seconds;
- moves the player and regenerates the shield;
- moves every bullet, killing the first target (or whole pair) it touches;
- moves targets, pairs, obstacles, items and particles, and drops the dead ones;
- applies obstacle contact damage to the shield first, then to health, ending the game at 0 health;
- credits picked-up items;
- spawns new targets and obstacles once their intervals have passed.

Outside play, the player can craft equipment from materials and buy stat
upgrades for tokens. Keys open and close the crafting panel, the shop and
the leaderboard, choose a mode and restart after game over. A finished game
is merged into a local top-ten list.

The server keeps a JSON file of at most fifty ranked entries.

- `POST /api/leaderboard` validates a name, score and level, then upserts the player's record (a better result only). It ranks the list, keeps the best fifty and reports the entry and its rank.
- `GET /api/leaderboard` returns the ten best entries and the count.
- `GET /api/leaderboard/top` returns the best score and level.

Modules: `Catalog` holds the stat tables and recipes. `Rules` holds the
arithmetic: level curve, spawn intervals, prices, damage, regeneration,
collision and cooldown. `Sweeps` is the "update then filter" pass. `Entities`
covers what one tick does to each kind of object. `Progression` is the stat
block and inventory. `Control` is the screen state machine and the high-score
check. `Ranking` is the leaderboard order, the stable sort, the upsert and the prefix `Take`.
`Text` is `trim`. `Game` is the game object, the class
`SpaceShooter`. `Server` is the class `LeaderboardStore`.

Fire rates are integers in tenths of a shot per second, so 0.5 shots/s is 5
and an upgrade of +0.2 is +2. Health, shield, positions and time are `real`,
because regeneration adds `regen * dt`. Randomness, the wall clock and the
aiming trigonometry are parameters: draws in [0, 1), `now` in milliseconds,
and the aimed bullet velocities.

Behaviour of the code that one might not expect, each case tied to the
lines that produce it. The model follows the code in each case.

- A ship swap (game.js:860-863, commented "Keep speed upgrades") carries the speed upgrades over as `speed - 150`, not as the distance from the previous ship's baseline. Speed can therefore drop below the new baseline: `Progression.TankTwiceLosesSpeed` shows that crafting the tank twice from the start leaves speed 50 with baseline 100. So "speed never falls below its baseline" is not an invariant of the game, and it is not part of `StatsValid`.
- Closing the leaderboard always returns to play, even when it was opened from game over: the game-over alternative at game.js:780 is tested while the state is the leaderboard, so it never applies. Toggling crafting from game over opens the crafting panel (game.js:760-769).
- `reset` (game.js:386-411) restores speed, fire rate, health and shield. It keeps maximum health, the inventory, the equipment and the spawn intervals.
- An unknown upgrade name still takes the tokens: `upgradeStat` debits before its `switch` (game.js:875-883).
- The high-score check calls a result new when either the score or the level beats the stored entry (game.js:1399).
- The server looks a player up by the trimmed name (server.js:103) but stores the trimmed name cut to 20 characters (server.js:106). So a player whose trimmed name is longer than 20 characters never finds their record again and gets a new entry on every submission (`Server.LongNamesAlwaysAppend`).

## Model

| member | source | states |
|---|---|---|
| `Catalog.Ship` | bell-game/game.js:65-70 | a ship's stats exist exactly for the four ship names, with positive speed and health |
| `Catalog.Weapon` | bell-game/game.js:71-77 | a weapon's stats exist exactly for the five weapon names, with positive fire rate and damage |
| `Catalog.Shield` | bell-game/game.js:78-83 | a shield's stats exist exactly for the four shield names, with non-negative capacity and regeneration |
| `Catalog.RecipeFor` | bell-game/game.js:44-61 | every recipe crafts an item the stat tables know, costs only materials (never tokens) and asks a positive amount of each |
| `Rules.LevelAt` | bell-game/game.js:519 | the level is the number of the 30-second period the play time falls in, at least 1 |
| `Rules.LevelAtMonotone` | bell-game/game.js:516-521 | more play time never gives a lower level |
| `Rules.TargetSpawnInterval` | bell-game/game.js:522 | the target spawn interval is never below 500 ms and at most 2000 ms |
| `Rules.ObstacleSpawnInterval` | bell-game/game.js:523 | the obstacle spawn interval is never below 1000 ms and at most 3000 ms |
| `Rules.SpawnIntervalsShrink` | bell-game/game.js:520-523 | a higher level never spawns targets or obstacles more slowly |
| `Rules.ObstacleSize` | bell-game/game.js:380 | an obstacle of level `level` has size `20 + 2 * level` |
| `Rules.ObstacleDamage` | bell-game/game.js:383 | an obstacle of level `level` deals `10 + 2 * level` damage |
| `Rules.ObstacleSpeed` | bell-game/game.js:354-373 | an obstacle of level `level` crosses the canvas at `100 + 20 * level` pixels per second |
| `Rules.ObstaclesScaleWithLevel` | bell-game/game.js:345-385 | obstacles of a higher level are at least as big, as fast and as harmful, and all three are positive |
| `Rules.TokenDrop` | bell-game/game.js:480 | a kill pays between 1 and `level` tokens |
| `Rules.TokenDropMonotone` | bell-game/game.js:480 | a higher level never pays fewer tokens per kill |
| `Rules.UpgradeCostsRiseByFive` | bell-game/game.js:1009-1031 | one purchase of speed (+30), fire rate (+2 tenths) or health (+25) raises that price by exactly 5, with fire rate counted in exact tenths |
| `Rules.UpgradeCostsMonotone` | bell-game/game.js:1009-1031 | prices never fall while the stats only grow |
| `Rules.SpeedUpgradeCost` | bell-game/game.js:1009 | 10 plus 5 per whole 30 of speed above the baseline: a multiple of 5, at least 10 when speed is not below the baseline |
| `Rules.FireRateUpgradeCost` | bell-game/game.js:1010 | 15 plus 5 per whole 2 tenths of fire rate above the baseline: a multiple of 5, at least 15 when the rate is not below the baseline |
| `Rules.HealthUpgradeCost` | bell-game/game.js:1011 | 20 plus 5 per whole 25 of maximum health above 100: a multiple of 5, at least 20 from 100 up |
| `Rules.AbsorbDamage` | bell-game/game.js:660-670 | the shield takes the hit first and the excess spills to health; neither rises or goes below 0, and together they lose `min(damage, shield + health)` |
| `Rules.AbsorbDamageExample` | bell-game/game.js:662-667 | damage 30 on shield 20 and health 100 leaves shield 0 and health 90 |
| `Rules.AbsorbAllLoss` | bell-game/game.js:654-688 | any run of hits keeps shield and health non-negative, and they lose exactly the total damage, capped by what they had |
| `Rules.AbsorbAllShrinks` | bell-game/game.js:654-688 | a run of hits never raises the shield or the health |
| `Rules.RegenShield` | bell-game/game.js:558-564 | a shield below its maximum grows but never past it; a full shield is unchanged |
| `Rules.CollidesSymmetric` | bell-game/game.js:738-743 | the collision test does not depend on argument order |
| `Rules.CoincidentCentresCollide` | bell-game/game.js:738-743 | two objects at the same point always collide, the fallback radius of 10 for a zero size included |
| `Rules.Radius` | bell-game/game.js:742 | the collision radius: the size, or the fallback 10 when the size is 0 |
| `Rules.Collides` | bell-game/game.js:738-743 | `checkCollision` on squared distances, with a size of 0 read as radius 10 (`size || 10`) |
| `Rules.CollidesIsDistanceTest` | bell-game/game.js:738-743 | for the true distance between the centres, the squared test collides exactly when that distance is below the sum of the radii |
| `Rules.CooldownShrinksWithRate` | bell-game/game.js:418-426 | a higher effective fire rate never makes the player wait longer |
| `Rules.CooldownOver` | bell-game/game.js:419-426 | the cooldown has passed when the elapsed time covers 10000 / rate ms, rate in tenths; never for a zero rate |
| `Rules.CooldownIsQuotientTest` | bell-game/game.js:419-426 | for every non-zero rate the integer test is exactly `elapsed >= 1000 / (rate / 10)` |
| `Sweeps.Sweep` | bell-game/game.js:621-627 | the filter pass returns at most as many elements as it was given, all passing the keep test |
| `Sweeps.Filter` | bell-game/game.js:718-724 | the filter loop with an updating callback computes exactly the sweep |
| `Sweeps.SweepKeepsSurvivors` | bell-game/game.js:621-627 | every element whose update passes the keep test is in the result |
| `Sweeps.SweepOnlySteps` | bell-game/game.js:689-691 | every element of the result is the update of some input element |
| `Entities.MoveTarget` | bell-game/game.js:621-626 | a target moves by its velocity times `dt` and each velocity component is kept or reversed; size and health are kept |
| `Entities.TargetAlive` | bell-game/game.js:626 | a target is kept while its health is above 0 |
| `Entities.MovePair` | bell-game/game.js:629-651 | both members move and bounce as single targets; sizes are kept and the pair lives after the move exactly when it lived before |
| `Entities.PairAlive` | bell-game/game.js:650 | a pair is kept while either member's health is above 0 |
| `Entities.ObstacleContact` | bell-game/game.js:654-659 | an obstacle touches the player when `checkCollision` holds for its moved position |
| `Entities.MoveObstacle` | bell-game/game.js:654-674 | an obstacle touching the player is stopped and shrunk to size 0; any other obstacle just moves; damage is kept |
| `Entities.ObstacleKept` | bell-game/game.js:689-691 | an obstacle is kept while its size is positive and it is less than 50 pixels outside the canvas |
| `Entities.ContactDamages` | bell-game/game.js:659-660 | at most one damage per obstacle, all non-negative when the obstacles' damages are |
| `Entities.FatalIffDead` | bell-game/game.js:676-677 | a tick's hits end the game exactly when the player was hit and health ends at 0 or below |
| `Entities.Fatal` | bell-game/game.js:676-677 | the game ends when some contact, in list order, leaves health at 0 or below |
| `Entities.AbsorbedBounds` | bell-game/game.js:662-670 | obstacle hits keep shield and health between 0 and their starting values |
| `Entities.AbsorbedIsAbsorbAll` | bell-game/game.js:654-688 | the obstacle loop absorbs exactly the touching obstacles' damages in list order |
| `Entities.ContactBurstsCount` | bell-game/game.js:671 | ten particles for every obstacle that hits the player |
| `Entities.KeptObstaclesHarmless` | bell-game/game.js:689-691 | the obstacles kept never heal, when none did before |
| `Entities.CollideAll` | bell-game/game.js:654-691 | the obstacle loop as a fold over the list: each obstacle moved, its contact absorbed and exploded, and the survivors kept |
| `Entities.CollideAllMeans` | bell-game/game.js:654-691 | the obstacle loop's state is the sweep of the obstacles, the absorbed hits, the contact explosions and whether a hit was fatal |
| `Entities.MoveItem` | bell-game/game.js:694-713 | an item keeps its kind, ages by `dt`, and is marked collected exactly when it touches the player |
| `Entities.ItemContact` | bell-game/game.js:710 | an item touches the player when `checkCollision` holds for its moved position, the item's radius being 10 |
| `Entities.ItemKept` | bell-game/game.js:715 | an item is kept while it is uncollected and its lifetime is above 0 |
| `Entities.Pickups` | bell-game/game.js:710-713 | at most one pickup per item |
| `Entities.CollectedItemsLeave` | bell-game/game.js:710-715 | every item kept is uncollected, alive, and one the player did not touch |
| `Entities.Burst` | bell-game/game.js:745-758 | an explosion is ten particles at its point, each living 0.5 s |
| `Entities.AgeParticle` | bell-game/game.js:718-724 | a particle loses `dt` of its lifetime and survives the tick exactly when it had more than `dt` left |
| `Entities.ParticleAlive` | bell-game/game.js:723 | a particle is kept while its lifetime is above 0 |
| `Entities.Advance` | bell-game/game.js:568-571 | a bullet moves and ages by `dt`; velocity, size and damage are kept, and its lifetime never grows |
| `Entities.HitsTarget` | bell-game/game.js:596 | a bullet hits a target when `checkCollision` holds between them |
| `Entities.HitsPair` | bell-game/game.js:574-577 | a bullet hits a pair when it touches either member |
| `Entities.OutOfBounds` | bell-game/game.js:608-609 | a bullet has left the canvas when it is left of 0, right of the width, above 0 or below the height |
| `Entities.FirstTargetHit` | bell-game/game.js:595-605 | the index of the first target the bullet touches, dead or alive, or -1 exactly when it touches none |
| `Entities.FirstPairHit` | bell-game/game.js:573-593 | the index of the first pair either of whose members the bullet touches, or -1 exactly when none |
| `Entities.FateOf` | bell-game/game.js:572-617 | a moved bullet kills the first target (or pair, in pair mode) it touches; otherwise it misses when out of bounds with lifetime left, burns out with no lifetime, or flies on |
| `Entities.FatesExclusive` | bell-game/game.js:588-616 | a scoring bullet never also counts as a miss, and neither a scoring nor a missing bullet stays in flight |
| `Entities.TouchScores` | bell-game/game.js:595-604 | a bullet touching a target in single-target mode always scores and never misses |
| `Entities.TargetsAfter` | bell-game/game.js:595-598 | killing targets in place never changes the number of targets |
| `Entities.PairsAfter` | bell-game/game.js:577-585 | killing pairs in place never changes the number of pairs |
| `Entities.TargetsAfterKills` | bell-game/game.js:595-598 | after the bullet phase exactly the targets some bullet hit have health 0, and the rest are unchanged |
| `Entities.PairsAfterKills` | bell-game/game.js:577-585 | after the bullet phase exactly the pairs some bullet hit have both members at health 0, and the rest are unchanged |
| `Entities.KilledTargetsStillHit` | bell-game/game.js:595-597 | earlier kills do not change which target a later bullet hits first |
| `Entities.KilledPairsStillHit` | bell-game/game.js:573-577 | earlier kills do not change which pair, or which member, a later bullet hits first |
| `Entities.DropSite` | bell-game/game.js:581-598 | loot drops at the target hit or, in pair mode, at member `a` when it was touched and otherwise at member `b` |
| `Entities.BlastSite` | bell-game/game.js:587-599 | a kill explodes at the target hit, or at the bullet when it hit a pair |
| `Entities.KillBurstsCount` | bell-game/game.js:587-599 | ten particles for every kill |
| `Ranking.Outranks` | bell-game/server/server.js:50-56 | the sort comparator of the server and of game.js:1464-1467: a higher score, or the same score and a higher level, sorts first |
| `Ranking.Insert` | bell-game/server/server.js:49-57 | inserting one entry adds exactly one element |
| `Ranking.SortByRank` | bell-game/server/server.js:49-57 | the stable insertion sort by `Outranks` (score descending, then level descending), keeping the length; order, permutation and stability are proved by the `SortByRank*` lemmas |
| `Ranking.InsertPermutes` | bell-game/server/server.js:49-57 | insertion adds the entry and loses nothing |
| `Ranking.InsertSorted` | bell-game/server/server.js:49-57 | inserting into a ranked list keeps it ranked |
| `Ranking.SortByRankPermutes` | bell-game/server/server.js:49-57 | the sorted list is a permutation of the input |
| `Ranking.SortByRankSorted` | bell-game/server/server.js:49-57 | the sorted list is ordered by score, then level, both descending |
| `Ranking.SortByRankKeepsSorted` | bell-game/server/server.js:49-57 | a list already in rank order is left exactly as it is |
| `Ranking.Ties` | bell-game/server/server.js:49-57 | the entries with one score and level, in list order: drawn from the list, all with that key |
| `Ranking.InsertKeepsTies` | bell-game/server/server.js:49-57 | an inserted entry comes after every entry with the same score and level, and their order is kept |
| `Ranking.SortByRankStable` | bell-game/server/server.js:49-57 | the sort is stable: for every score and level, the entries holding them keep their input order |
| `Ranking.Take` | bell-game/server/server.js:65 | `slice(0, n)` of a list and `substring(0, n)` of a name: a prefix of at most `n` elements, the whole sequence when it is short enough |
| `Ranking.TakeSorted` | bell-game/server/server.js:128-129 | a prefix of a ranked list is ranked and holds only entries of that list |
| `Ranking.FindByName` | bell-game/server/server.js:103 | `findIndex` by name: the first index holding the name, or -1 exactly when no entry has it |
| `Ranking.MergeBest` | bell-game/game.js:1450-1462 | the local upsert: the first entry with the name gets the higher score and level and the new date, or a new entry is appended; the list grows by at most one |
| `Ranking.SortLeaderboard` | bell-game/server/server.js:49-57 | sorting the array in place leaves the stable rank order of its contents |
| `Ranking.InsertAt` | bell-game/server/server.js:49-57 | one insertion step of the in-place sort places the element into the ranked prefix and leaves the rest of the array alone |
| `Ranking.MergeBestKeepsBest` | bell-game/game.js:1450-1462 | after the local upsert the player's entry holds at least the submitted and the stored score and level; other entries are kept; the list grows only for a new name |
| `Ranking.MergedHoldsPlayer` | bell-game/game.js:1450-1462 | the merged list holds an entry for the player with at least the submitted score and level |
| `Ranking.TopTenOfMerged` | bell-game/game.js:1464-1469 | the ten best are ranked entries of the list, and a list of at most ten keeps them all |
| `Ranking.LocalBoardKeepsBest` | bell-game/game.js:1449-1471 | the local board keeps at most ten ranked entries drawn from the merged list; when those fit, the player's entry with at least the submitted score and level is among them |
| `Control.CraftingToggled` | bell-game/game.js:760-769 | the crafting key returns to play exactly from the crafting panel and opens it from every other state, game over included |
| `Control.ShopToggled` | bell-game/game.js:912-924 | the shop key returns to play exactly from the shop and opens it from every other state |
| `Control.LeaderboardToggled` | bell-game/game.js:775-787 | the leaderboard key returns to play exactly from the leaderboard and opens it from every other state |
| `Control.PanelsReturnToPlay` | bell-game/game.js:760-787 | opening then closing a panel lands in play, so a round trip from game over does not return to game over |
| `Control.KeyCommand` | bell-game/game.js:172-199 | Space fires only in play and does nothing else; R restarts only after game over |
| `Control.StateAfter` | bell-game/game.js:172-199 | the screen state after a command: play after a restart, the panel toggles' states, unchanged otherwise |
| `Control.KeysGateTransitions` | bell-game/game.js:177-199 | Escape resumes play from an open panel and changes nothing elsewhere; R changes nothing except after game over, where it starts a new game |
| `Control.CheckNewHighScore` | bell-game/game.js:1387-1405 | a missing player name, and only that, asks for a name |
| `Control.MergedResultNotNew` | bell-game/game.js:1387-1405 | once a result is merged into the local list, the same result is no longer new |
| `Control.FirstResultIsNew` | bell-game/game.js:1393-1397 | a name with no entry always has a new high score |
| `Progression.Debit` | bell-game/game.js:848-850 | paying a recipe keeps every resource counter |
| `Progression.DebitExact` | bell-game/game.js:842-850 | paying an affordable recipe lowers each of its materials by exactly its cost, leaves tokens and every other counter alone, and leaves no counter negative |
| `Progression.SwapShip` | bell-game/game.js:854-863 | a ship swap sets maximum health and base speed from the ship, caps health, keeps `speed - 150` as the upgrades, and changes nothing else |
| `Progression.SwapShield` | bell-game/game.js:864-868 | a shield swap fills the shield to the new capacity and changes nothing else |
| `Progression.SwapsKeepStatsValid` | bell-game/game.js:852-869 | swapping in any catalog ship or shield keeps health and shield within their maxima |
| `Progression.TankTwiceLosesSpeed` | bell-game/game.js:860-863 | crafting the tank twice from the start leaves speed 50, below its baseline 100 |
| `Progression.SwapFromBasicKeepsUpgrades` | bell-game/game.js:861-863 | swapping from a basic-speed baseline keeps every bought speed upgrade |
| `Progression.Upgraded` | bell-game/game.js:883-897 | speed +30, fire rate +0.2, or maximum and current health +25, and nothing else; an unknown name changes no stat; a valid stat block stays valid |
| `Progression.UpgradeRaisesItsPrice` | bell-game/game.js:1009-1031 | with fire rate counted in exact tenths, buying an upgrade raises its own price by exactly 5 and leaves the other two prices alone |
| `Progression.ShopPrices` | bell-game/game.js:1009-1031 | the three prices the shop shows for a stat block, from the three cost rules |
| `Progression.InitialPrices` | bell-game/game.js:1009-1031 | a fresh game's prices are 10, 15 and 20 tokens |
| `Progression.Restarted` | bell-game/game.js:400-404 | a restart sets speed and fire rate to their baselines and health and shield to their maxima, keeping maxima, baselines and damage |
| `Progression.RestartedIdempotent` | bell-game/game.js:387-404 | restarting twice equals restarting once, and a valid stat block stays valid |
| `Text.IsSpace` | bell-game/server/server.js:79 | the characters `trim` strips: the ECMAScript WhiteSpace and LineTerminator sets |
| `Text.TrimStart` | bell-game/server/server.js:79 | the result is a suffix of the input after only white space, and it does not start with white space |
| `Text.TrimEnd` | bell-game/server/server.js:79 | the result is a prefix of the input followed by only white space, and it does not end with white space |
| `Text.Trim` | bell-game/server/server.js:103 | `trim` yields the slice between a white-space head and a white-space tail, and it neither starts nor ends with white space |
| `Text.TrimEmptyIffAllSpace` | bell-game/server/server.js:79 | a name trims to the empty string exactly when it is all white space |
| `Text.TrimIdempotent` | bell-game/server/server.js:103-106 | trimming twice equals trimming once |
| `Game.NewObstacle` | bell-game/game.js:378-384 | a spawned obstacle has the level's size and damage |
| `Game.ScaledDraw` | bell-game/game.js:334-335 | a random draw scaled to a range lies in the range |
| `Game.NewTarget` | bell-game/game.js:333-341 | a single target at a random point inside the margins, with a random slow velocity, size 15 and one hit point |
| `Game.NewPair` | bell-game/game.js:322-331 | a pair: the first member 100 pixels inside the edges, the second within 75 pixels of it on each axis, each with its own random velocity |
| `Game.TargetWave` | bell-game/game.js:311-317 | a wave of `n` targets, the `k`-th being the new target of draw `k` |
| `Game.PairWave` | bell-game/game.js:311-317 | a wave of `n` pairs, the `k`-th being the new pair of draw `k` |
| `Game.TargetSpawnsInside` | bell-game/game.js:333-341 | on a large enough canvas a new target lies at least 50 pixels inside the left, top and right edges and 150 above the bottom, with one hit point |
| `Game.PairSpawnsInside` | bell-game/game.js:322-331 | a new pair's first member lies 100 pixels inside every edge and its second member within 75 pixels on each axis |
| `Game.ObstacleEntersCanvas` | bell-game/game.js:348-376 | a new obstacle starts 20 pixels beyond one edge heading inwards, inside the kept band, with positive damage |
| `Game.NearCanvasKept` | bell-game/game.js:689-691 | an obstacle with a size within 20 pixels of the canvas survives the obstacle filter |
| `Game.DroppedItem` | bell-game/game.js:465-476 | a dropped item is one of the four materials, never tokens, uncollected, with 5 seconds to live |
| `Game.EffectiveFireRate` | bell-game/game.js:418 | the upgraded fire rate is never below the weapon's own rate |
| `Game.Fires` | bell-game/game.js:419-426 | a shot goes off when an automatic weapon has the button held (any other weapon always) and the cooldown of the effective rate is over |
| `Game.Volley` | bell-game/game.js:434-442 | a volley is `spread` bullets, or one when there is no spread, all from the player with the weapon's damage, size 5 and lifetime 2 |
| `Game.TopSpeed` | bell-game/game.js:527-528 | the ship's speed plus the upgrades is never below the ship's speed |
| `Game.Clamp` | bell-game/game.js:554-555 | the clamped value lies in the range, and a value already inside is unchanged |
| `Game.Steered` | bell-game/game.js:530-555 | after moving, the player stays its size inside the canvas, keeping size and shot time |
| `Game.IdleStaysPut` | bell-game/game.js:554-555 | without direction keys a player inside the canvas stays where it is |
| `Game.OppositeKeysCancel` | bell-game/game.js:530-552 | all four direction keys held together cancel out |
| `Game.PickUp` | bell-game/game.js:694-713 | one item moves, and on contact its material's counter rises by one; no other counter changes |
| `Game.CollectItems` | bell-game/game.js:694-715 | the item loop keeps exactly the sweep of the items and adds each material's pickups to its counter |
| `Game.HasMaterials` | bell-game/game.js:842-846 | the materials check succeeds exactly when every material of the recipe is in stock |
| `Game.PayFor` | bell-game/game.js:848-850 | the payment loop computes exactly the debit of the recipe |
| `Game.Explosion` | bell-game/game.js:745-758 | the explosion loop creates exactly the ten particles of a burst |
| `Game.KillLoot` | bell-game/game.js:581-598 | at most one item per kill, each a material, never tokens, uncollected |
| `Game.KillsKeepFates` | bell-game/game.js:572-606 | the kills so far do not change a later bullet's fate, drop site or blast site |
| `Game.FlyAll` | bell-game/game.js:566-618 | the bullet loop as a fold over the list: each bullet advanced and struck against the targets as the earlier bullets left them, with its kill, miss, loot and explosion |
| `Game.FlyAllMeans` | bell-game/game.js:567-618 | the bullet loop's state is the sweep of bullets in flight, the targets and pairs with exactly the tick's kills, the counts of kills and misses, and the kills' loot and explosions |
| `Game.Strike` | bell-game/game.js:572-616 | one moved bullet kills the first target or whole pair it touches, dropping loot and exploding; otherwise its fate is a miss, burning out or flying on |
| `Game.FlyStep` | bell-game/game.js:567-618 | the loop body for one bullet computes exactly one step of the bullet pass |
| `Game.FlyBullets` | bell-game/game.js:567-618 | the bullet loop computes exactly the bullet pass over all bullets |
| `Game.CollideStep` | bell-game/game.js:654-688 | the loop body for one obstacle computes exactly one step of the obstacle pass |
| `Game.CollideObstacles` | bell-game/game.js:654-691 | the obstacle loop computes exactly the obstacle pass over all obstacles |
| `Game.SpaceShooter.constructor` | bell-game/game.js:11-110 | a new game: individual mode, level 1, in play, initial stats, basic ship and weapon, no shield, empty inventory and collections, zero counters, intervals 2000 and 3000, player at the origin |
| `Game.SpaceShooter.Resize` | bell-game/game.js:152-163 | the canvas takes the window size and the player is recentred 100 pixels above the bottom |
| `Game.SpaceShooter.SetMode` | bell-game/game.js:282-283 | the mode becomes the chosen one |
| `Game.SpaceShooter.ToggleCrafting` | bell-game/game.js:760-769 | the state becomes the crafting toggle of the old state |
| `Game.SpaceShooter.ToggleShop` | bell-game/game.js:912-924 | the state becomes the shop toggle of the old state |
| `Game.SpaceShooter.ToggleLeaderboard` | bell-game/game.js:775-787 | the state becomes the leaderboard toggle of the old state |
| `Game.SpaceShooter.Craft` | bell-game/game.js:838-873 | crafting succeeds exactly when the recipe exists and is affordable; a failure changes nothing; a success debits exactly the recipe and equips the item, swapping the ship's or shield's stats |
| `Game.SpaceShooter.UpgradeStat` | bell-game/game.js:875-902 | an upgrade succeeds exactly when tokens cover the cost; a failure changes nothing; a success takes exactly `cost` tokens and applies the upgrade |
| `Game.SpaceShooter.ShopOffer` | bell-game/game.js:1009-1031 | the shop shows the three prices of the current stats, with fire rate counted in exact tenths |
| `Game.SpaceShooter.Reset` | bell-game/game.js:387-412 | level 1, in play, every collection and counter emptied, the stats restarted, and the game's invariant kept |
| `Game.SpaceShooter.RestartClock` | bell-game/game.js:388-399 | level 1, in play, clock and counters at zero |
| `Game.SpaceShooter.ClearEntities` | bell-game/game.js:390-395 | every collection emptied |
| `Game.SpaceShooter.RestoreStats` | bell-game/game.js:400-404 | the stats restarted, still valid |
| `Game.SpaceShooter.SpawnTarget` | bell-game/game.js:319-343 | one target is appended, or one pair in pair mode; nothing on a canvas without area |
| `Game.SpaceShooter.SpawnInitialTargets` | bell-game/game.js:311-317 | the opening wave appends exactly `3 + level` new targets, or pairs in pair mode, the `k`-th built from draw `k`; nothing on a canvas without area |
| `Game.SpaceShooter.SpawnObstacle` | bell-game/game.js:345-385 | one obstacle of the current level is appended; nothing on a canvas without width |
| `Game.SpaceShooter.Shoot` | bell-game/game.js:414-443 | a volley fires exactly when the button rule for automatic weapons and the cooldown allow; it stamps the shot time and appends the volley, and otherwise nothing changes |
| `Game.SpaceShooter.AdvanceClock` | bell-game/game.js:516-524 | time moves on by `dt`, the level follows the clock and never drops, and the spawn intervals are retuned only when it rises |
| `Game.SpaceShooter.MovePlayer` | bell-game/game.js:526-555 | the player moves at the ship's speed plus the upgrades along the held keys, clamped to the canvas |
| `Game.SpaceShooter.RegenerateShield` | bell-game/game.js:557-564 | only the shield changes, by one tick of regeneration of the equipped shield |
| `Game.SpaceShooter.UpdateBullets` | bell-game/game.js:566-618 | the bullet phase leaves the outcome of the bullet pass, with 10 points, a hit and the level's tokens per kill, and a miss per missing bullet |
| `Game.SpaceShooter.ResolveBullets` | bell-game/game.js:567-618 | the entity part of the bullet phase is the bullet pass |
| `Game.SpaceShooter.Tally` | bell-game/game.js:588-612 | the counters of the bullet phase: score +10, hits +1 and tokens by the level's drop per kill, misses by the misses |
| `Game.SpaceShooter.UpdateTargets` | bell-game/game.js:620-651 | targets and pairs become their sweeps: moved, and the dead ones dropped |
| `Game.SpaceShooter.UpdateParticles` | bell-game/game.js:717-724 | particles age and spent ones are dropped |
| `Game.SpaceShooter.UpdateObstacles` | bell-game/game.js:653-691 | obstacles become their sweep; shield and health absorb the contacts in order, only downwards; contacts explode; the game ends exactly on a fatal hit, with health 0 |
| `Game.SpaceShooter.UpdateItems` | bell-game/game.js:693-715 | items become their sweep and each material rises by its pickups |
| `Game.SpaceShooter.ScheduleTarget` | bell-game/game.js:726-731 | once the interval has passed, the spawn time is stamped and exactly the new target built from the draw is appended, or the new pair in pair mode, or nothing on a canvas without area; before that nothing changes |
| `Game.SpaceShooter.ScheduleObstacle` | bell-game/game.js:732-735 | an obstacle spawns and the spawn time is stamped exactly when the interval has passed |
| `Game.SpaceShooter.SpawnOnSchedule` | bell-game/game.js:726-735 | scheduled spawning keeps the game's invariant |
| `Game.SpaceShooter.ControlPhase` | bell-game/game.js:508-564 | time moves on by `dt`, the level never drops, and of the stats only the shield changes |
| `Game.SpaceShooter.ShotPhase` | bell-game/game.js:566-618 | hits, misses and tokens never go down, and the score stays ten points per hit |
| `Game.SpaceShooter.HazardPhase` | bell-game/game.js:620-724 | tokens never fall; only health and shield change, health never rises, and the state changes only to game over at 0 health |
| `Game.SpaceShooter.CombatPhase` | bell-game/game.js:620-691 | only health and shield change, health never rises, and the state changes only to game over at 0 health |
| `Game.SpaceShooter.PickupPhase` | bell-game/game.js:693-724 | pickups keep the inventory valid and never lower tokens |
| `Game.SpaceShooter.EntityPhase` | bell-game/game.js:566-724 | the game's invariant is kept, counters only rise, health never rises, and the game ends only at 0 health |
| `Game.SpaceShooter.Frame` | bell-game/game.js:505-736 | a frame in play keeps the invariant, moves time on by `dt`, never lowers the level, hits, misses or tokens, keeps ten points per hit, never raises health, keeps maximum health, speed and fire rate, and leaves play only for game over at 0 health |
| `Game.SpaceShooter.Update` | bell-game/game.js:505-506 | outside play a frame changes nothing; in play it is a frame |
| `Game.SpaceShooter.HandleKey` | bell-game/game.js:172-199 | a key press takes the state machine's transition; Space in play fires exactly as a shot does, stamping the shot time and appending the volley; R after game over resets the level, counters, clock, collections and stats; every other key changes only the state or the mode; inventory, equipment, spawn timers and the board are never touched |
| `Game.SpaceShooter.SubmitScoreLocal` | bell-game/game.js:1449-1471 | the local board becomes the ten best of the upserted list in rank order |
| `Server.Validate` | bell-game/server/server.js:79-98 | a request is accepted exactly when the name is a non-blank string, the score a number at least 0 and the level a number at least 1; the first failing check decides the error |
| `Server.Improves` | bell-game/server/server.js:114-115 | a submission replaces a stored record only with a higher score, or the same score and a higher level |
| `Server.Merge` | bell-game/server/server.js:100-125 | lookup by the trimmed name; the entry named by it cut to 20 characters; a new name is appended; a stored record is replaced only by a better result, with the higher score and level; otherwise the list is kept and the stored score and level are reported |
| `Server.MergeChangesOnlyForBetter` | bell-game/server/server.js:112-121 | only the player's record can change, and only for a better result; afterwards it holds the larger score and at least its old level |
| `Server.MergeKeepsNamesShort` | bell-game/server/server.js:106 | names of at most 20 characters stay so after a merge |
| `Server.LongNamesAlwaysAppend` | bell-game/server/server.js:103-106 | a trimmed name longer than 20 characters never finds its stored record and is appended again |
| `Server.RankInRange` | bell-game/server/server.js:136 | the reported rank lies between 1 and the length of the ranked merged list |
| `Server.RankBeyondFiftyIsDropped` | bell-game/server/server.js:128-136 | a rank beyond 50 names an entry the stored top fifty does not hold |
| `Server.HeadIsBest` | bell-game/server/server.js:147-163 | the head of a ranked list has the best score, and the best level among that score |
| `Server.StoredListValid` | bell-game/server/server.js:128-131 | the stored top fifty of a merged list is ranked, at most 50 long, with short names |
| `Server.Ranked` | bell-game/server/server.js:49-57 | sorting a list read from the file gives its stable rank order |
| `Server.Upsert` | bell-game/server/server.js:100-125 | the imperative upsert computes exactly the merge |
| `Server.Submit` | bell-game/server/server.js:127-136 | the accepted path stores the best fifty of the ranked merge and reports the entry and its rank, keeping the file valid |
| `Server.LeaderboardStore.constructor` | bell-game/server/server.js:24-26 | a new store holds an empty list |
| `Server.LeaderboardStore.ReadSorted` | bell-game/server/server.js:63-64 | reading gives the file's entries in rank order |
| `Server.LeaderboardStore.Post` | bell-game/server/server.js:75-144 | a refused request answers 400 and keeps the file; an accepted one stores the ranked top fifty and reports the entry and its rank when the write succeeds, else 500 with the file kept; the file stays ranked, at most 50 long, with short names |
| `Server.LeaderboardStore.GetLeaderboard` | bell-game/server/server.js:62-72 | the ten best entries in rank order, drawn from the file, and the file's full length; on a valid file, its first ten |
| `Server.LeaderboardStore.GetTop` | bell-game/server/server.js:147-163 | (0, 1) for an empty file; otherwise the score and level of an entry that no entry outranks |

## Left out

- Drawing, the DOM, panel visibility, the theory panel and `updateStats` are not modelled: they are presentation only. The panel toggles assume their panel element exists; the early return when it is missing is not modelled.
- Game.Steered and Game.SpaceShooter.MovePlayer: the S-key retreat away from the mouse (game.js:537-546) is not modelled. It needs a square root.
- Entities.MovePair: the pull that keeps a pair's members within 200 pixels of each other (game.js:636-643) is not modelled. It needs `atan2`, `cos` and `sin`.
- Entities.MoveItem: item homing towards the player (game.js:702-708) is not modelled. It needs a square root.
- Particle velocities and fading alpha are not modelled. Particles only age, which is all the filter reads.
- Bullet aiming is a parameter: `aim(i)` is the already-scaled velocity of the volley's `i`-th bullet. This includes the spread angles and the ensemble jitter.
- `Math.random` is a parameter: spawn draws, the obstacle side as an integer 0 to 3, drop rolls.
- `Date.now` and `performance.now` are a parameter `now`; `deltaTime` is a parameter `dt`, which must be at least 0. The 0.1 s cap of the game loop and `requestAnimationFrame` are not modelled.
- Game.SpaceShooter.Reset: the opening wave of `3 + level` targets that `reset` and the constructor schedule on a 100 ms timer is left to the caller, as `SpawnInitialTargets`.
- Game.SpaceShooter.Frame, Game.SpaceShooter.ControlPhase, Game.SpaceShooter.ShotPhase, Game.SpaceShooter.HazardPhase, Game.SpaceShooter.CombatPhase, Game.SpaceShooter.PickupPhase, Game.SpaceShooter.EntityPhase and Game.SpaceShooter.SpawnOnSchedule: the frame and its phase wrappers state the invariant and the monotone quantities of the frame, not its full new state. The full new state of each phase is stated by `Shoot`, `AdvanceClock`, `MovePlayer`, `RegenerateShield`, `UpdateBullets`, `UpdateTargets`, `UpdateObstacles`, `UpdateItems`, `UpdateParticles`, `ScheduleTarget` and `ScheduleObstacle`.
- The delayed score submission after game over is not modelled, nor the name prompt (`showNameInput`) or `submitScore`'s network call and its fallback to the local board. They are timers, prompts and network I/O. `Control.CheckNewHighScore` returns the decision the check takes.
- `localStorage`, `fetch` (`loadLeaderboardFromServer`, `loadTopScores`) and the player-name storage are not modelled: they are I/O.
- Server I/O is not modelled: express routing, the body parser, `app.listen`, the health route and the file system. Reading is the store's `file`. Whether the write succeeds is the `saved` parameter. An unreadable or unparsable file, which the server reads as an empty list, is not modelled.
- The ISO date of an entry is a parameter `date`.
- Server.Validate: a JSON number is modelled as an integer. Fractional scores and levels are not modelled.
- Game.SpaceShooter.ShopOffer, Rules.FireRateUpgradeCost, Progression.ShopPrices, Rules.UpgradeCostsRiseByFive and Progression.UpgradeRaisesItsPrice: the fire-rate price is computed on exact tenths. In the source, fire rate is a double and the shop floors `(fireRate - baseFireRate) / 0.2`. After n purchases of +0.2 from 0.5 that quotient is just below n (0.9999999999999998 after the first), so for the first few purchases the source offers and charges 5 tokens less than the model: 15, 15, 20, 25, … instead of 15, 20, 25, 30, …. The model does not capture that rounding, so "each purchase raises the fire-rate price by 5" holds of the model, not of the source.
- Progression.Upgraded and Game.SpaceShooter.UpgradeStat: fire rate is counted in tenths, so floating-point rounding of repeated `+= 0.2` is not modelled.
- Text: `trim` is modelled over the ECMAScript white-space and line-terminator characters on `char` values. UTF-16 surrogate pairs are not distinguished.
- Ranking.Take: when it cuts a name to 20 as `substring(0, 20)` does, it counts `char` values, not UTF-16 code units.
- bell-game/convert_audio.js and bell-game/config.js are not part of this model. They hold no game or leaderboard logic.
