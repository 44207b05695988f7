# Castle Wars: a verified model of the battle and economy engine

Castle Wars is a two-player terminal game. Each player has a castle at one
end of a road DISTANCE = 70 cells long. The player's castle is on cell 0 and
the computer's is on cell DISTANCE + 1. Players buy spawns and upgrades with
gold. Every few turns each spawn produces a unit, and the new units walk
towards the enemy castle as an army. An army fights the first enemy army it
meets, or the enemy castle once it is in reach. Land income is paid for the
road up to a side's furthest army. The game ends when a castle has no health
left.

This project models the engine's core in Dafny: the combat rules, the
armies, the player economy, the computer player's weighted random decisions,
and the turn loop. Each piece is proved against a specification.

The modules follow the program's structure:

- `Options` (options.dfy) holds the `Option` datatype.
- `Constants` (constants.dfy) holds the numeric constants and the
  price/delta/cost tables. The attribute names that the program reaches
  through `__dict__` become the enumerations `UnitAttr`, `CastleAttr` and
  `Action`.
- `Combat` (combat.dfy) holds the arithmetic shared by units and castles:
  - damage clamped at zero;
  - regeneration clamped at the maximum;
  - the castle's one-tenth mitigation;
  - the attack-rate accumulator of `Unit.attack`, where one hit costs
    ATTACK_RATE.
- `Lines` (lines.dfy) holds `put_substr_in_position`, with Python's
  clamping slices written out.
- `Strategy` (strategy.dfy) holds the computer player's pure functions:
  - `convert_percentage`: a stable sort by percentage, then running totals;
  - `build_computer_strategy`;
  - `random_choice`, with the draw given as an argument;
  - `choose_strategy` and its tables.
- `Entities` (entities.dfy) holds the objects that the game changes in place.
  They are classes with the source's fields:
  - `Unit`, `Castle`, `Army` and `Player`;
  - `Rng`, the random source, which is a stream of draws supplied by the
    caller;
  - the pure helpers `get_enemy_army_in_position` and `Army.hp`.
- `Ai` (ai.dfy) holds the computer's turn: `computer_action`,
  `is_enough_gold` and the `make_turn` loop.
- `Game` (game.dfy) holds the `CastleWars` class, with these operations:
  - the spawn counter;
  - income;
  - the tick in which armies target, fight, march and merge;
  - the game-over verdict;
  - `finish_turn`.

  The ghost predicate `Valid` says that every reference between armies,
  units and castles stays inside the game. Every tick and turn preserves it.

### Where the model follows the code rather than the prose

- **Spawn cadence.** The help text says units spawn "once per 3 turns"
  (SPAWN_RATE_IN_TURNS). The counter in `CastleWars.spawn_units` resets to 0
  on a spawn turn and counts up to 3 before the next one. So spawns happen
  once every 4 turns. `Game.SpawnTurns` proves the period is
  SPAWN_RATE_IN_TURNS + 1.
- **Attack rate.** The attack rate is not reset after a hit. `Unit.attack`
  subtracts ATTACK_RATE per hit, and the `while … else` branch adds the
  attack speed on every call.
- **Castle hp upgrade.** Upgrading the castle's hp raises its current health
  as well as its maximum.
- **Castle regeneration.** The `regen` argument of `Castle.__init__` is
  ignored, and regeneration starts at 0.
- **Docstring example of `convert_percentage`.** The docstring maps 15 to
  `unit_attack_speed` and 35 to `unit_hp`. Python's stable sort keeps the
  three 10% entries in table order (hp, dmg, attack speed). So the code maps
  15 to `unit_hp` and 35 to `unit_attack_speed`, and `Strategy.ConvertExample`
  proves that mapping. The repository's test compares only the keys, which
  agree.
- **`random.choice` includes dead units.** Random picks draw from every unit
  of the target army, including dead ones that have not been removed yet.
- **Same-cell targeting.** When `Army.get_target` finds an enemy army on the
  army's own cell, it leaves the units' targets alone.
- **Mutating a list while iterating it.** `move_armies` iterates over a
  side's armies while a merge removes one of them. `Game.CastleWars.SideStep`
  mirrors this with an index that moves on by one after every army. The
  army that slid into the removed army's place waits for the next tick.

## Model

| member | source | states |
|---|---|---|
| Constants.MinOf | castle_wars.py:943 | `min(prices)`: the result is an element of the list and no element is smaller |
| Constants.MinPriceIs100 | castle_wars.py:940-943 | the minimum of computer_action's price list (spawn, unit upgrades, castle upgrades) is 100 |
| Constants.EveryCostAtLeast100 | constants.py:71-78 | every COSTS entry is at least 100 |
| Constants.CheapestPriceIs100 | constants.py:37-60 | the cheapest price is 100, the income upgrade's, and no action costs less |
| Constants.NothingAffordableBelowMinPrice | castle_wars.py:940-944 | holding less than the cheapest price is the same as affording no action of COSTS |
| Constants.StartPosition | constants.py:62 | the player's castle and armies start on cell 0, the computer's on cell DISTANCE + 1, the two ends of the road |
| Constants.Movement | constants.py:63 | each side walks one cell a step, and DISTANCE + 1 steps from its own castle reach the enemy's |
| Constants.Cost | constants.py:71-78 | each COSTS entry is the price of what the action buys: SPAWN_COST, the unit upgrade price of its attribute, or the castle upgrade price of its attribute |
| Constants.SpawnRateInTicks | constants.py:15-17 | SPAWN_RATE = TIME_TICKS_PER_TURN · SPAWN_RATE_IN_TURNS = 45 |
| Combat.AfterDamage | castle_wars.py:192-202 | health after a hit is never negative; for non-negative health and damage it falls by exactly min(damage, hp) |
| Combat.AfterRegen | castle_wars.py:204-209 | health at or above the maximum is unchanged; below it, it rises by regen or stops at the maximum, never past it, and never falls for regen ≥ 0 |
| Combat.CastleDamageTaken | castle_wars.py:264-272 | a castle takes strictly between 0 and the damage for a positive hit, and exactly 1 for a zero hit |
| Combat.CastleMitigationExamples | castle_wars.py:264-276 | a castle takes 1 from a zero hit, 10 from a hit of 100, and damage/10 from any positive hit |
| Combat.AfterDamageTwice | castle_wars.py:192-202 | two clamped hits equal one clamped hit of their sum |
| Combat.DamagedTimesClosedForm | castle_wars.py:604-606 | k hits of `damage` in a row equal one clamped hit of k · damage |
| Combat.RegenedTimesBounds | castle_wars.py:753-757 | with regen ≥ 0, any number of regenerations never lowers health, never passes a maximum it started below, and leaves health above the maximum alone |
| Combat.RegenedTimesCompose | castle_wars.py:753-757 | regenerating a times and then b times is regenerating a + b times |
| Combat.StartRate | castle_wars.py:610-615 | the starting accumulator is max(ATTACK_RATE, attack_speed) |
| Combat.HitsIsFloor | castle_wars.py:604-608 | with accumulator r ≥ 0 the attack loop hits ⌊r/5⌋ times and leaves r − 5·⌊r/5⌋, in [0, 5) |
| Combat.BasicUnitHitsPerTurn | constants.py:126-130 | an unupgraded unit hits exactly TIME_TICKS_PER_TURN // ATTACK_RATE = 3 times in one turn of fighting |
| Combat.HitsConserveRate | castle_wars.py:604-608 | over any number of fight ticks, ATTACK_RATE times the hits made plus the accumulator left equals the starting accumulator plus the attack speed added each tick |
| Combat.RateOverTicksLast | castle_wars.py:604-608 | one more fight tick at the end of a run applies one more attack to the accumulator the run left |
| Combat.FiveTickCycle | castle_wars.py:604-608 | for any multiple n of five ticks, a speed-one unit with a full accumulator hits n/5 times and ends with the full accumulator again |
| Lines.SliceBound | castle_wars.py:63 | Python slice bounds: negative bounds count from the end, and both ends are clamped to the length |
| Lines.ClampPosition | castle_wars.py:61-62 | for a non-empty line the position is clamped into 0..len−1 and kept when already inside; an empty line gives −1 |
| Lines.PutSubstrInPosition | castle_wars.py:50-64 | an empty line becomes the picture; otherwise the result is at least as long as the line and keeps it up to the clamped position |
| Lines.WindowReplaced | castle_wars.py:50-64 | when the picture fits from a non-negative position, the length is preserved and exactly the window holds the picture |
| Lines.OnlyWindowChanges | castle_wars.py:50-64 | with the same precondition, every character outside the window is unchanged |
| Lines.OverflowExtends | castle_wars.py:61-63 | for every picture, position and non-empty line: a picture that reaches the end is written whole at the clamped position and the line grows instead of being cut; a non-empty picture placed past the end replaces the last character onward; a picture placed before 0 is written at the start, over as many characters as it has |
| Lines.OverflowExample | castle_wars.py:61-63 | "ab" at 9 on "...." gives "...ab"; "ab" at −3 gives "ab.." |
| Strategy.NoRepeatsIsDistinct | castle_wars.py:863-927 | the entry-by-entry check of a table decides whether each action is listed once (as dict keys are) |
| Strategy.ListsIsMembership | castle_wars.py:863-927 | the entry-by-entry search finds an action exactly when a later entry names it |
| Strategy.InsertByPercent | castle_wars.py:818 | insertion adds one entry |
| Strategy.InsertByPercentAddsEntry | castle_wars.py:818 | insertion is a permutation of the table plus the new entry, and adds its share to the total |
| Strategy.InsertKeepsSorted | castle_wars.py:818 | insertion keeps a table sorted by percentage |
| Strategy.SortByPercent | castle_wars.py:818 | sorting keeps the length |
| Strategy.SortByPercentIsSortedPermutation | castle_wars.py:818 | `sorted(percentage, key=percentage.get)` is ordered by percentage, is a permutation of the table and has the same total |
| Strategy.InsertByPercentStable | castle_wars.py:818 | insertion puts the new entry before every entry of its percentage and keeps the order among entries of any other percentage |
| Strategy.SortByPercentStable | castle_wars.py:818 | the sort is stable: for every percentage, the entries carrying it keep their table order |
| Strategy.SortExample | test_castle_wars.py:9-16 | the test table sorts stably: regen 5, then hp, dmg, attack speed at 10 in table order, then income 30, then spawn 35 |
| Strategy.Assign | castle_wars.py:820 | `strategy[number] = action` with keys never above `number`: the table grows by at most one entry, the new pair is last, and no key passes `number` |
| Strategy.AssignKeepsPrefix | castle_wars.py:820 | assigning keeps every earlier entry and keeps the keys ascending |
| Strategy.AccumulateFailsPast100 | castle_wars.py:818-825 | the conversion loop exits exactly when the final running total passes 100 |
| Strategy.AccumulateKeysBounded | castle_wars.py:818-820 | no key passes the final running total |
| Strategy.AccumulateLastKey | castle_wars.py:818-820 | the last key is the final running total |
| Strategy.AccumulateAscending | castle_wars.py:818-820 | keys stay strictly ascending |
| Strategy.AccumulateActions | castle_wars.py:818-820 | every pair produced names an action of the table |
| Strategy.ConvertPercentage | castle_wars.py:816-826 | convert_percentage exits exactly when the table sums past 100, and otherwise its keys strictly ascend, which is the order random_choice reads them in |
| Strategy.ConvertPercentageKeys | castle_wars.py:816-826 | every key is at most the table's total, and for a non-empty table the largest key equals it |
| Strategy.ConvertPercentageActions | castle_wars.py:816-826 | every converted action is one of the table's |
| Strategy.AccumulatePositive | castle_wars.py:816-826 | with positive shares no key repeats: the result is exactly the running totals, one per sorted entry |
| Strategy.RunningKey | castle_wars.py:819-820 | the i-th key is the sum of the shares up to sorted entry i, and maps to that entry's action |
| Strategy.ConvertExample | test_castle_wars.py:9-16 | the test table converts to keys 5, 15, 25, 35, 65, 100 (regen, hp, dmg, attack speed, income, spawn) |
| Strategy.AccumulateExample | test_castle_wars.py:9-16 | the running totals of the sorted test table are those keys |
| Strategy.Affordable | castle_wars.py:843-847 | filtering never lengthens the table |
| Strategy.AffordableSpec | castle_wars.py:843-848 | exactly the entries whose COSTS the gold covers are kept, so their total is at most the table's |
| Strategy.AffordableKeepsAll | castle_wars.py:843-848 | a table whose every action is affordable is kept whole |
| Strategy.BuildComputerStrategy | castle_wars.py:829-849 | the returned total never exceeds the table's, the program exits exactly when that total passes 100, and otherwise the keys ascend |
| Strategy.BuildComputerStrategyIsAffordablePart | castle_wars.py:829-849 | for a table summing to ≤ 100 the strategy exists, lists only affordable actions of the table, has keys within the returned total, and its largest key is that total (the affordable share sum) |
| Strategy.StrategyListsAffordableActions | castle_wars.py:829-849 | for any table, every action of the strategy is one of the table's and one the gold pays for |
| Strategy.BuildExampleRich | test_castle_wars.py:18-27 | with 200 gold the whole test table is kept and the total is 100 |
| Strategy.BuildExamplePoor | test_castle_wars.py:29-33 | with 100 gold the spawn drops out and the total is 65 |
| Strategy.RandomChoice | castle_wars.py:775-788 | returns the action of the first key, in ascending order, not below the draw; None exactly when every key is below it |
| Strategy.PickAt | castle_wars.py:786-788 | a draw at most key i and above every earlier key selects entry i |
| Strategy.DrawSelectsAffordableAction | castle_wars.py:785-788 | a draw in 1..total always selects an action, which is in the table and which the gold pays for |
| Strategy.DrawPicksEntry | castle_wars.py:785-826 | with positive shares, sorted entry i is chosen by exactly the draws above the running total before it and up to its own, so each action owns its share of the draws |
| Strategy.IncomeOnly | castle_wars.py:910-911 | the not-a-spawn-turn table `{'income': 100}` has the shape of every chosen table |
| Strategy.PoorTable | castle_wars.py:868-870 | the income < 500 table lists income first, with positive shares |
| Strategy.PoorTableTotal | castle_wars.py:868-870 | it sums to 100 |
| Strategy.PoorTableDistinct | castle_wars.py:868-870 | it lists each action once |
| Strategy.ModestTable | castle_wars.py:871-873 | the income < 5000 table lists income first, with positive shares |
| Strategy.ModestTableTotal | castle_wars.py:871-873 | it sums to 100 |
| Strategy.ModestTableDistinct | castle_wars.py:871-873 | it lists each action once |
| Strategy.WealthyTable | castle_wars.py:874-876 | the income < 10000 table lists income first, with positive shares |
| Strategy.WealthyTableTotal | castle_wars.py:874-876 | it sums to 100 |
| Strategy.WealthyTableDistinct | castle_wars.py:874-876 | it lists each action once |
| Strategy.WeakUnitsTable | castle_wars.py:877-879 | the unit_hp_lvl < 4 table lists income second, with positive shares |
| Strategy.WeakUnitsTableTotal | castle_wars.py:877-879 | it sums to 100 |
| Strategy.WeakUnitsTableDistinct | castle_wars.py:877-879 | it lists each action once |
| Strategy.ManySpawnsTable | castle_wars.py:880-883 | the spawns > 2 table lists income second, with positive shares |
| Strategy.ManySpawnsTableTotal | castle_wars.py:880-883 | it sums to 100 |
| Strategy.ManySpawnsTableDistinct | castle_wars.py:880-883 | it lists each action once |
| Strategy.DefaultTable | castle_wars.py:863-864 | the opening table lists income second, with positive shares |
| Strategy.DefaultTableTotal | castle_wars.py:863-864 | it sums to 100 |
| Strategy.DefaultTableDistinct | castle_wars.py:863-864 | it lists each action once |
| Strategy.EnemyAbove200 | castle_wars.py:892-895 | the enemy level > 200 table lists income second, with positive shares |
| Strategy.EnemyAbove200Total | castle_wars.py:892-895 | it sums to 100 |
| Strategy.EnemyAbove200Distinct | castle_wars.py:892-895 | it lists each action once |
| Strategy.EnemyAbove500 | castle_wars.py:896-899 | the enemy level > 500 table lists income second, with positive shares |
| Strategy.EnemyAbove500Total | castle_wars.py:896-899 | it sums to 100 |
| Strategy.EnemyAbove500Distinct | castle_wars.py:896-899 | it lists each action once |
| Strategy.EnemyAbove1000 | castle_wars.py:900-903 | the enemy level > 1000 table lists income second, with positive shares |
| Strategy.EnemyAbove1000Total | castle_wars.py:900-903 | it sums to 100 |
| Strategy.EnemyAbove1000Distinct | castle_wars.py:900-903 | it lists each action once |
| Strategy.EnemyAbove2000 | castle_wars.py:904-907 | the enemy level > 2000 table lists income second, with positive shares |
| Strategy.EnemyAbove2000Total | castle_wars.py:904-907 | it sums to 100 |
| Strategy.EnemyAbove2000Distinct | castle_wars.py:904-907 | it lists each action once |
| Strategy.CastleScratched | castle_wars.py:914-917 | the castle hp < CASTLE_HP table lists income second, with positive shares |
| Strategy.CastleScratchedTotal | castle_wars.py:914-917 | it sums to 100 |
| Strategy.CastleScratchedDistinct | castle_wars.py:914-917 | it lists each action once |
| Strategy.CastleDamaged | castle_wars.py:918-922 | the castle hp < 0.9 · CASTLE_HP table lists income second, with positive shares |
| Strategy.CastleDamagedTotal | castle_wars.py:918-922 | it sums to 100 |
| Strategy.CastleDamagedDistinct | castle_wars.py:918-922 | it lists each action once |
| Strategy.CastleCritical | castle_wars.py:923-927 | the castle hp < 0.4 · CASTLE_HP table lists income second, with positive shares |
| Strategy.CastleCriticalTotal | castle_wars.py:923-927 | it sums to 100 |
| Strategy.CastleCriticalDistinct | castle_wars.py:923-927 | it lists each action once |
| Strategy.SpawnOnlyShape | castle_wars.py:866-867 | the spawn-only table `{'spawn': 100}` has the shape of every chosen table |
| Strategy.BaseStrategy | castle_wars.py:863-883 | the elif chain (first match wins) always yields a table summing to 100 with distinct, positive entries |
| Strategy.EnemyLevelStrategy | castle_wars.py:886-907 | the overriding ifs for the enemy's level (the highest threshold passed wins) keep that shape |
| Strategy.RescueStrategy | castle_wars.py:913-927 | the castle-rescue overrides, with thresholds taken from the constant CASTLE_HP, keep that shape |
| Strategy.ChooseStrategy | castle_wars.py:851-928 | every table choose_strategy returns sums to exactly 100, so the exit at line 821 is unreachable; each action is listed once with a positive share; and income is listed unless the table is spawn-only |
| Strategy.BaseSpawnOnly | castle_wars.py:866-867 | the elif chain yields the spawn-only table exactly when there are no spawns |
| Strategy.EnemyLevelSpawnOnly | castle_wars.py:892-907 | the enemy-level override never yields the spawn-only table itself |
| Strategy.RescueSpawnOnly | castle_wars.py:914-927 | the rescue override never yields the spawn-only table itself |
| Strategy.SpawnOnlyChosenExactly | castle_wars.py:851-928 | choose_strategy returns the spawn-only table iff spawns = 0, the enemy level ≤ 200, turns_to_spawn ≤ 0 and the castle hp ≥ CASTLE_HP |
| Strategy.AffordableKeepsShare | castle_wars.py:843-848 | an affordable entry's share counts towards the affordable total |
| Strategy.AffordableEmptyOnlyForSpawnOnly | castle_wars.py:843-849 | with at least the cheapest price in hand, a chosen table leaves nothing affordable iff it is spawn-only and the gold is below SPAWN_COST |
| Entities.Rng.Below | castle_wars.py:689 | a random index below n from the next draw; one draw is consumed |
| Entities.Unit.constructor | castle_wars.py:565-578 | full health at the maximum, the given stats, no target, and the accumulator at max(ATTACK_RATE, attack_speed) ≥ ATTACK_RATE |
| Entities.Unit.HasTarget | castle_wars.py:580-586 | with non-negative target health, a unit has a target exactly when its target has health above 0 |
| Entities.Unit.GetDamage | castle_wars.py:192-202 | hp becomes the clamped health after the hit |
| Entities.Unit.Regenerate | castle_wars.py:204-209 | hp becomes the clamped health after regenerating |
| Entities.Unit.Attack | castle_wars.py:596-608 | it fails (None target) exactly when there is no target and the accumulator is full, changing nothing. Otherwise the target takes `Hits(r)` = ⌊r/5⌋ hits (castle hits mitigated), and the accumulator becomes r − 5·⌊r/5⌋ + attack_speed |
| Entities.Unit.RefreshAttackRate | castle_wars.py:610-615 | the accumulator is reset to max(ATTACK_RATE, attack_speed) |
| Entities.Castle.constructor | castle_wars.py:216-226 | hp and max hp as given, the given damage, position and direction, and regeneration, income and target all zero or none |
| Entities.Castle.GetDamage | castle_wars.py:264-276 | hp falls by the mitigated damage, clamped at 0 |
| Entities.Castle.Regenerate | castle_wars.py:204-209 | hp becomes the clamped health after regenerating |
| Entities.Castle.GetTarget | castle_wars.py:236-253 | the target becomes the first enemy army on the castle's cell, else the first on the cell in front, else none; the answer says whether one was found |
| Entities.Castle.Aim | castle_wars.py:228-253 | a castle that holds a target aims at it; otherwise at an enemy army on its cell or the next, and at none only when no enemy army stands on either |
| Entities.Castle.Attack | castle_wars.py:255-261 | each unit of the target takes the castle's damage once per time it is listed, dead units included; a target left with total hp 0 is dropped; without a target nothing happens |
| Entities.HitEach | castle_wars.py:258-259 | each unit of the list takes the damage as many times as it is listed |
| Entities.FirstAt | castle_wars.py:76-79 | the index of the first army on the position; no earlier army stands there |
| Entities.EnemyArmyAt | castle_wars.py:66-80 | null exactly when no army stands on the position; otherwise the first army that does |
| Entities.AliveMembers | castle_wars.py:735-737 | a unit is kept exactly when it is listed and has hp > 0 |
| Entities.AliveDeadPartition | castle_wars.py:735-740 | the units kept and the units counted dead together make up the list |
| Entities.SumHp | castle_wars.py:758-768 | with no negative health the sum is never negative, and it is 0 exactly when every unit has hp 0 |
| Entities.Army.constructor | castle_wars.py:622-637 | the army gets a copy of the units, speed 1 with units and 0 without, no target, and its enemy and enemy castle |
| Entities.Army.Hp | castle_wars.py:758-768 | an army's hp is never negative, and it is 0 exactly when every unit is dead |
| Entities.ReachableAfterSteps | castle_wars.py:656-662 | an army that has walked k cells from its own castle finds the enemy castle reachable exactly when k ≥ DISTANCE |
| Entities.Army.HasTarget | castle_wars.py:664-672 | a target with hp 0 is dropped first; the answer is whether a target remains |
| Entities.Army.Move | castle_wars.py:639-641 | the position moves by movement · speed |
| Entities.Army.TargetRandomMembers | castle_wars.py:686-689 | every unit targets a random member of the pool (dead ones included), one draw each; an empty pool raises only when there are units to retarget, and then no target changes |
| Entities.Army.TargetCastle | castle_wars.py:690-693 | every unit targets the castle |
| Entities.Army.GetTarget | castle_wars.py:674-696 | in priority order: (1) an enemy army on the same cell, with unit targets untouched; (2) else one on position + movement, and every unit targets a random member of it (raising on an empty army); (3) else the enemy castle if within one cell, and every unit targets it; (4) else no target and False |
| Entities.Army.CopyTarget | castle_wars.py:698-711 | units aim at a random member of the other army's target army, or at its castle; with no target they keep their own |
| Entities.Army.RefreshUnitsTarget | castle_wars.py:713-720 | when the army has a target, exactly the units without a live target that do not aim at a castle get a random member of the target army; the others keep theirs. It raises iff such a unit exists and the target is a castle or an empty army |
| Entities.Army.RefreshAttackRate | castle_wars.py:722-725 | every unit's accumulator is reset |
| Entities.Army.GiveGoldReward | castle_wars.py:745-751 | the enemy's gold and gold earned grow by the reward |
| Entities.Army.RemoveDeadUnits | castle_wars.py:728-743 | exactly the units with hp > 0 stay, in order; the dead count is returned; the enemy's gold and gold earned grow by the dead units' summed rewards, and its kills by the count |
| Entities.Army.RegenUnits | castle_wars.py:753-757 | every unit regenerates once per time it is listed |
| Entities.PerUnitAttr.With | castle_wars.py:410-411 | one unit attribute is replaced and all the others are kept |
| Entities.PerCastleAttr.With | castle_wars.py:429-430 | one castle attribute is replaced and all the others are kept |
| Entities.SpawnCount | castle_wars.py:327-332 | no more units than spawns, and none without spawns |
| Entities.SpawnCountPaid | castle_wars.py:327-332 | the units spawned are paid for out of the gold, and the loop stops early only when the gold left is below the unit price |
| Entities.SpawnCountIsMin | castle_wars.py:315-333 | with a positive price and non-negative gold, min(spawns, gold // unit_price) units are spawned and gold stays ≥ 0 |
| Entities.PurchaseKeepsGold | castle_wars.py:387-394 | a purchase that is not refused never overdraws non-negative gold; 'max' leaves gold % price |
| Entities.RemoveFirst | castle_wars.py:345 | list.remove: one occurrence fewer of the element when present, the list unchanged otherwise, and no new elements |
| Entities.FirstCollision | castle_wars.py:353-356 | the index of the first other army on the same cell; no earlier army qualifies |
| Entities.WithUnitsMembers | castle_wars.py:358-361 | an army survives exactly when it was listed and has units |
| Entities.WithUnitsShorter | castle_wars.py:358-361 | removing empty armies never lengthens the list |
| Entities.Player.constructor | castle_wars.py:283-313 | starting gold, no income, spawns, kills, deaths or armies; base unit stats, price and reward; no levels |
| Entities.Player.AddGold | castle_wars.py:364-371 | gold and gold earned both grow by the amount |
| Entities.Player.SpawnUnits | castle_wars.py:315-333 | SpawnCount(spawns, gold, unit_price) fresh, distinct units with the player's current stats and reward; gold falls by unit_price per unit |
| Entities.Player.UnionArmies | castle_wars.py:335-345 | the mover's units adopt the survivor's target; they are appended to the survivor, and the mover leaves the list (one army fewer). A failed random pick raises before anything moves |
| Entities.Player.CheckArmiesCollision | castle_wars.py:347-356 | the army merges into the first other own army on its cell, if there is one; otherwise nothing changes; no other army's units change |
| Entities.Player.RemoveDeadArmies | castle_wars.py:358-361 | exactly the armies with units stay, in order |
| Entities.Player.BuildSpawn | castle_wars.py:381-394 | a count the gold cannot pay changes nothing; otherwise spawns grow by the count (gold // SPAWN_COST for 'max') and gold falls by SPAWN_COST per spawn |
| Entities.Player.UpgradeUnitsAttr | castle_wars.py:396-414 | all or nothing: the level grows by the count, the stat by delta · count, gold falls by price · count, and unit price and kill reward each rise by the count; a refused count changes nothing |
| Entities.Player.UpgradeCastleAttr | castle_wars.py:416-436 | all or nothing: the level and the player's record grow, gold falls by price · count, and the castle's own attribute rises; income also raises the player's income, and hp raises the castle's current and maximum health |
| Ai.Chosen | castle_wars.py:886-890 | choose_strategy on the computer's state, with the enemy level the sum of its hp, dmg, attack speed and regen levels, always yields a well-formed table |
| Ai.EnemyUnitLevelCounts | castle_wars.py:886-890 | every level the enemy buys in hp, damage, attack speed or regeneration raises the level the computer reads by one; speed levels do not count |
| Ai.NothingAffordableIffDrawFails | castle_wars.py:940-950 | with the cheapest price in hand, nothing of the chosen table is affordable iff there are no spawns, the enemy level ≤ 200, it is a spawn turn, the castle is whole, and the gold is below SPAWN_COST |
| Ai.Decide | castle_wars.py:944-950 | an action drawn is one of the table's and the gold pays for it |
| Ai.DecideIsAffordable | castle_wars.py:946-950 | a draw yields an action iff something is affordable, and that action is in the table and paid for by the gold |
| Ai.Perform | castle_wars.py:951-968 | each action calls the matching purchase once. When the gold covers its COSTS entry, the whole post-state is `Bought`: that price is paid, a spawn adds one spawn building, a unit upgrade adds a level, its delta, and one UPGRADE_GOLD_REWARD to price and reward, and a castle upgrade adds a level and its delta to the record and the castle (income and maximum health too); every other field is kept. Otherwise nothing changes |
| Ai.BuyDrawn | castle_wars.py:946-968 | the action bought is `Decide` of the table, the gold and the next draw; it is in the table and affordable; the post-state is `Bought` for it; one draw is used |
| Ai.Draw | castle_wars.py:944-949 | the choice is `Decide` of the table, the gold and the next draw; it is an affordable action of the table; one draw is used |
| Ai.ComputerAction | castle_wars.py:930-969 | below the cheapest price nothing is done; it raises exactly in the nothing-affordable state, changing nothing; otherwise the action is `Decide` of the chosen table, the gold and the next draw, it is affordable, and the post-state is `Bought` for it |
| Ai.MakeTurn | castle_wars.py:976-986 | the loop ends, since each action spends at least 100 gold; on a normal exit the gold is below the cheapest price or no longer enough; gold never grows and never goes below zero from a non-negative start |
| Ai.IsEnoughGold | castle_wars.py:971-974 | the integer test gold + (income · turns + 1) > spawns · price holds exactly when gold + income · turns ≥ spawns · price |
| Game.NextSpawnRate | castle_wars.py:1060-1078 | the counter restarts from 0 exactly on a spawn turn, and stays within 0..SPAWN_RATE_IN_TURNS |
| Game.RateAtTurnClosedForm | castle_wars.py:1005 | from its initial SPAWN_RATE_IN_TURNS, the counter after n turns is (n + 3) mod 4 |
| Game.SpawnTurns | castle_wars.py:1060-1078 | spawns happen exactly on the turns divisible by SPAWN_RATE_IN_TURNS + 1 = 4 |
| Game.TurnsToSpawnCountdown | castle_wars.py:1222 | the computer's turns-to-spawn lies in 0..3, is 0 exactly on spawn turns, and counts down 3, 2, 1, 0 |
| Game.PlayerFront | castle_wars.py:1153-1156 | the player's front is never negative |
| Game.PlayerFrontIsMax | castle_wars.py:1153-1156 | the player's front is at least every army's position and is either 0 or some army's position: the maximum of 0 and the positions |
| Game.ComputerFront | castle_wars.py:1159-1162 | the computer's front is never past DISTANCE + 1 |
| Game.ComputerLand | castle_wars.py:1168 | the computer's land is never negative |
| Game.ComputerFrontIsMin | castle_wars.py:1159-1168 | the computer's front is at most every army's position and is either DISTANCE + 1 or some army's position; its land covers every army |
| Game.HighestPosition | castle_wars.py:1153-1156 | the loop computes the player's front |
| Game.LowestPosition | castle_wars.py:1159-1162 | the loop computes the computer's front |
| Game.LandWithinRoad | castle_wars.py:1151-1172 | with armies on the road, each side's land lies in 0..DISTANCE + 1, and a side with no armies holds none |
| Game.CastleWars.constructor | castle_wars.py:993-1005 | castles on cells 0 and DISTANCE + 1 facing each other with CASTLE_HP; starting gold; no armies; the counter at SPAWN_RATE_IN_TURNS; a valid game |
| Game.CastleWars.GameOver | castle_wars.py:1200-1208 | the player loses iff their castle has hp 0 (checked first), wins iff only the computer's castle has hp 0, and the game goes on iff neither does |
| Game.CastleWars.AddGoldAsIncome | castle_wars.py:1080-1084 | each player's gold and gold earned grow by their income |
| Game.CastleWars.SpawnArmy | castle_wars.py:1061-1076 | a side's spawned units, if any, form one new army at its start cell moving its way, holding SpawnCount units with no target; gold falls by their price |
| Game.CastleWars.Enlist | castle_wars.py:1065-1076 | the new army is appended to the side's list and joins the game |
| Game.CastleWars.SpawnUnits | castle_wars.py:1058-1078 | on a spawn turn each side pays for its SpawnCount units and gains one army exactly when that count is positive, and the counter restarts; otherwise it only counts up, with no army and no gold changed; the game stays valid |
| Game.CastleWars.SetIncome | castle_wars.py:1151-1172 | afterwards the player's income is its castle income + LAND_INCOME · its front, and the computer's is its castle income + LAND_INCOME · (DISTANCE − front + 1) |
| Game.CastleWars.FightTick | castle_wars.py:1174-1182 | every unit of the army attacks, once per listing, and the units are then retargeted: each unit's accumulator ends as after that many fight ticks (`RateOverTicks`); unless an attack or a pick raised, every reference stays inside the game |
| Game.CastleWars.Strike | castle_wars.py:1180-1181 | each unit attacks once per listing, in list order: its accumulator ends as `RateOverTicks` of its listings from where it started, unless an attack raised |
| Game.CastleWars.Retarget | castle_wars.py:1182 | refresh_units_target run inside the game keeps every unit's new target inside it |
| Game.CastleWars.ArmyStep | castle_wars.py:1098-1107 | an army whose target army is alive, or which finds a target, fights: it stays on its cell and each unit's accumulator advances one fight tick per listing. Otherwise it marches by movement · speed and every accumulator is reset to max(ATTACK_RATE, attack_speed). Its side's list stays or loses exactly that army by merging |
| Game.CastleWars.Engage | castle_wars.py:1100-1102 | a live target army is kept without a draw; otherwise the new target is the one `TargetFound` gives (an enemy army on the cell, then on the next, then the castle in reach, else none). The answer says whether the army has a target, and only a random pick from an empty army raises |
| Game.CastleWars.PreferArmy | castle_wars.py:1100-1101 | a live target army is kept without a draw; otherwise the target is dropped or becomes the one `TargetFound` gives; the search result itself is unchanged |
| Game.CastleWars.DropDeadTarget | castle_wars.py:1100 | a target with hp 0 is dropped and any other is kept; the answer says whether a target remains; the game stays valid |
| Game.CastleWars.Seek | castle_wars.py:1101-1102 | the target becomes the one `TargetFound` gives and the answer says whether there is one; only a random pick from an empty army raises |
| Game.CastleWars.March | castle_wars.py:1104-1107 | the army moves by movement · speed, every unit's accumulator is reset to max(ATTACK_RATE, attack_speed), and the list stays or loses exactly the moved army |
| Game.CastleWars.Merge | castle_wars.py:1107 | the merge keeps the game valid, and the list stays or loses exactly the army |
| Game.CastleWars.CastleStep | castle_wars.py:1117-1118 | the castle attacks the army it aims at (`Aim`: the target it holds, else the first enemy army on its cell or the next). Without one nothing changes. With one, each unit of that army takes the castle's damage once per listing, clamped at 0, no other unit changes, and a target left with hp 0 is dropped |
| Game.CastleWars.TakeAim | castle_wars.py:1117 | the castle's target becomes `Aim`: the one it held, else the one get_target finds; the answer says whether there is one, and it is an army of the game |
| Game.CastleWars.SideStep | castle_wars.py:1091-1118 | every army of a side moves in list order, then its castle; no army joins the list |
| Game.CastleWars.Purge | castle_wars.py:1120-1125 | every army left was listed before and has units, all of them alive; every live unit of a listed army is still in its army; the side's new deaths equal the foe's new kills |
| Game.CastleWars.PurgeArmy | castle_wars.py:1121-1124 | only live units stay in the army and every live one stays; the side's new deaths equal the foe's new kills |
| Game.CastleWars.DropDead | castle_wars.py:1123-1124 | only live units stay, and the foe's kills grow by the dead count |
| Game.CastleWars.DropEmpty | castle_wars.py:1125 | exactly the armies with units stay |
| Game.CastleWars.MoveArmies | castle_wars.py:1086-1125 | after a tick the game is valid, every army has units and all of them are alive, and each side's new deaths equal the other side's new kills |
| Game.CastleWars.PlayTicks | castle_wars.py:1135-1141 | the verdict returned is the game-over check of the final state; when the game goes on, the incomes are those set from the fronts of the final armies; every army has units; each side's new deaths equal the other side's new kills |
| Game.CastleWars.RegenArmy | castle_wars.py:1145-1147 | every unit of the game regenerates exactly as many times as the army lists it (`RegenedTimes`); with regen ≥ 0 none loses health and none passes a maximum it was below |
| Game.CastleWars.RegenSide | castle_wars.py:1144-1149 | every unit regenerates exactly as many times as the side's armies list it, and the castle regenerates once |
| Game.CastleWars.RegenerateAll | castle_wars.py:1143-1149 | each castle regenerates once; each unit regenerates as many times as the player's armies list it and then as many times as the computer's do, which `Combat.RegenedTimesCompose` makes one run over both counts; with regen ≥ 0 no unit loses health or passes a maximum it was below |
| Game.CastleWars.BeginTurn | castle_wars.py:1132-1133 | income is paid into gold and gold earned, then the counter moves once; on a spawn turn each side pays for SpawnCount units out of the gold after income and gains one army exactly when that count is positive, otherwise the armies stay; the game stays valid and every army or unit in it is old or newly spawned |
| Game.CastleWars.FinishTurn | castle_wars.py:1127-1149 | the counter moves once; the game stays valid; a verdict means its castle's hp is 0; when the game goes on, every army has units and each side's income matches its current front or land, ready for the next turn; the kill/death ledger balances |
| Game.CastleWars.PlayOut | castle_wars.py:1135-1149 | the ticks and the closing regeneration: a verdict means its castle's hp is 0; when the game goes on every army has units and each side's income matches its front or land; the ledger balances |
| Game.CastleWars.EndTurn | castle_wars.py:1143-1149 | regeneration keeps the game valid and leaves each side's front and land as they were |

## Left out

- Terminal input/output and the user interface are not modelled. That covers
  `help`, `exit`, `not_enough_gold`'s message (only its "nothing changes"
  effect is kept), `Player.prompt`, `player_action`, `Player.make_turn`,
  `PlayerView` and its `show_upgrades`, `draw_game_field`, `put_in_position`,
  `Army.draw`, `print_status`, `print_short_help`, `draw_scene`, `start`,
  `os.system` and `time.sleep`.
- `game_over` is not modelled. It prints a message and exits; the model
  instead returns the verdict from `GameOver`, and `PlayTicks` stops at it.
- The income line and the health lines (string building in `set_income` and
  `move_armies`) are not modelled, since they only feed the display.
  `put_substr_in_position` itself is modelled.
- The `GameStats` decorators and class-level dictionaries are not modelled.
  They hold statistics only, and `show_statistics` prints them.
  `prettify_number` and the help strings of constants.py are left out too.
- The `name` and `owner` fields are not modelled. They only select pictures
  and statistics keys.
- Randomness is not drawn inside the model. `random.choice(xs)` is
  `xs[d % |xs|]` and `random.randint(1, n)` is `1 + d % n`, where each `d` is
  the next draw of a caller-supplied stream (`Rng.draws`).
- Floating point is modelled as exact reals. This covers health, damage,
  attack speed, CASTLE_RECEIVE_DAMAGE and the 0.9/0.4 rescue thresholds; the
  only difference from the program is IEEE rounding.
- Exceptions are modelled as an `ok` result that is false, not as
  preconditions. They come from `None.get_damage`, `random.choice([])`, a
  castle's missing `units`, and `randint(1, 0)`.
- Game.CastleWars.FightTick: on the raising paths (`ok` false) the model
  does not promise `Valid`, because the program ends there. It states each
  unit's accumulator but not the hits each target takes, which
  `Entities.Unit.Attack` states per attack, nor the new targets, which
  `Entities.Army.RefreshUnitsTarget` states.
- Game.CastleWars.MoveArmies: the ledger is stated for kills and deaths
  only; the kill rewards paid in gold are stated per army by
  `Entities.Army.RemoveDeadUnits`. Which armies survive the merges is
  stated per army by `ArmyStep` and `Entities.Player.CheckArmiesCollision`,
  not for the whole tick.
- Game.CastleWars.Retarget: promises only validity; the new targets are
  stated by `Entities.Army.RefreshUnitsTarget`.
- Game.CastleWars.SideStep: promises validity and that no army joins the
  list, not the moves of each army one by one, which `ArmyStep` states.
- Game.CastleWars.FinishTurn: the income paid and the spawns are stated by
  `BeginTurn`, not by FinishTurn itself, since the battle that follows also
  moves gold through kill rewards.
- Entities.Player.UnionArmies: requires that the two armies differ and that
  the mover is in the list. `check_armies_collision`, its only caller,
  guarantees both.
- Entities.Player.BuildSpawn, Entities.Player.UpgradeUnitsAttr and
  Entities.Player.UpgradeCastleAttr: a negative numeric count is not
  modelled, since `Count` holds a natural number. In the program such a
  count passes the gold check and refunds gold (castle_wars.py:387-391,
  405-408, 424-427).
- The body of `convert_percentage` that exits the program on a running total
  above 100 is modelled as `None`. `Strategy.ChooseStrategy` shows the
  computer never reaches it.
