/** The computer player's turn (AIPlayer.computer_action, is_enough_gold and
    make_turn): it picks a table of percentages for the situation, keeps
    the affordable part, draws a weighted random action and buys it once,
    and repeats while it expects to have the gold for its next spawn. */
module Ai {
  import opened Options
  import opened Constants
  import opened Strategy
  import opened Entities

  /** The enemy's summed unit upgrade levels as the computer reads them:
      hp, damage, attack speed and regeneration (speed is not counted). */
  function EnemyUnitLevel(lvl: PerUnitAttr<int>): int {
    lvl.hp + lvl.dmg + lvl.attackSpeed + lvl.regen
  }

  /** Every level the enemy buys in a counted attribute raises the level
      the computer reads by one; levels of speed do not change it. */
  lemma EnemyUnitLevelCounts(lvl: PerUnitAttr<int>, attr: UnitAttr, c: int)
    ensures EnemyUnitLevel(lvl.With(attr, lvl.Get(attr) + c))
            == EnemyUnitLevel(lvl) + (if attr.Speed? then 0 else c)
  {
    var after := lvl.With(attr, lvl.Get(attr) + c);
    assert after.hp == after.Get(UnitAttr.Hp) && after.dmg == after.Get(UnitAttr.Dmg);
    assert after.attackSpeed == after.Get(UnitAttr.AttackSpeed) && after.regen == after.Get(UnitAttr.Regen);
  }

  /** choose_strategy on the state of the computer `p` and its enemy. */
  function Chosen(p: Player, enemy: Player, turnsToSpawn: int): (t: Table)
    reads p, p.castle, enemy
    ensures ChosenTableShape(t)
    ensures DistinctActions(t)
  {
    ChooseStrategy(p.spawns, p.income, p.unitLvl.hp, EnemyUnitLevel(enemy.unitLvl),
                   turnsToSpawn, p.castle.hp)
  }

  /** The state in which computer_action cannot draw: it holds the cheapest
      price, yet the chosen table is the spawn-only one and a spawn is out of
      reach, so randint(1, 0) raises. */
  predicate DrawFails(p: Player, enemy: Player, turnsToSpawn: int)
    reads p, p.castle, enemy
  {
    MinPrice() <= p.gold < SPAWN_COST && p.spawns == 0 &&
    EnemyUnitLevel(enemy.unitLvl) <= 200 && turnsToSpawn <= 0 && p.castle.hp >= CASTLE_HP
  }

  /** The draw can fail only in the DrawFails state: with the cheapest price
      in hand, nothing of the chosen table is affordable exactly then. */
  lemma NothingAffordableIffDrawFails(p: Player, enemy: Player, turnsToSpawn: int)
    requires p.gold >= MinPrice()
    ensures Total(Affordable(Chosen(p, enemy, turnsToSpawn), p.gold)) == 0
        <==> DrawFails(p, enemy, turnsToSpawn)
  {
    var t := Chosen(p, enemy, turnsToSpawn);
    AffordableEmptyOnlyForSpawnOnly(t, p.gold);
    SpawnOnlyChosenExactly(p.spawns, p.income, p.unitLvl.hp, EnemyUnitLevel(enemy.unitLvl),
                           turnsToSpawn, p.castle.hp);
  }

  /** The action computer_action buys with the table `t`, the gold in
      hand and the raw draw `r`: random_choice over the converted affordable
      table with randint(1, total) taken as 1 + r % total; None when that
      randint has no value to give. */
  function Decide(t: Table, gold: int, r: nat): (d: Option<Action>)
    ensures d.Some? ==> d.value in Actions(t) && Cost(d.value) <= gold
  {
    var (strategy, total) := BuildComputerStrategy(t, gold);
    StrategyListsAffordableActions(t, gold);
    if strategy.Some? && total > 0 then RandomChoice(strategy.value, 1 + r % total) else None
  }

  /** With a table of choose_strategy, a draw yields an action exactly when
      something is affordable, and that action is one of the table's and
      one the gold pays for. */
  lemma DecideIsAffordable(t: Table, gold: int, r: nat)
    requires ChosenTableShape(t)
    ensures Decide(t, gold, r).Some? <==> Total(Affordable(t, gold)) > 0
    ensures Decide(t, gold, r).Some? ==>
      Decide(t, gold, r).value in Actions(t) && Cost(Decide(t, gold, r).value) <= gold
  {
    BuildComputerStrategyIsAffordablePart(t, gold);
    var total := BuildComputerStrategy(t, gold).1;
    if total > 0 {
      DrawSelectsAffordableAction(t, gold, 1 + r % total);
    }
  }

  /** AIPlayer.is_enough_gold: the gold in hand plus the income until the
      next spawn (and one) exceeds what the spawns will cost. */
  predicate IsEnoughGold(p: Player, turnsToSpawn: int): (b: bool)
    reads p
    ensures b <==> p.gold + p.income * turnsToSpawn >= p.spawns * p.unitPrice
  {
    p.gold + (p.income * turnsToSpawn + 1) > p.spawns * p.unitPrice
  }

  /** The effect of one successful purchase of `a` on the player and its
      castle: COSTS[a] is paid; a spawn adds a spawn building; a unit
      upgrade adds a level and its delta to the attribute and makes units
      one gold dearer and one gold more rewarding; a castle upgrade adds a
      level and its delta to the record and to the castle (an income
      upgrade to the income too, an hp upgrade to the maximum as well).
      Every other field keeps its value. */
  twostate predicate Bought(p: Player, a: Action)
    reads p, p.castle
  {
    && p.gold == old(p.gold) - Cost(a)
    && p.spawns == old(p.spawns) + (if a.Spawn? then 1 else 0)
    && (if a.IsUnitUpgrade() then
          var attr := a.UnitAttribute();
          && p.unitLvl == old(p.unitLvl).With(attr, old(p.unitLvl).Get(attr) + 1)
          && p.unitStat == old(p.unitStat).With(attr, old(p.unitStat).Get(attr) + UnitUpgrade(attr))
          && p.unitPrice == old(p.unitPrice) + UPGRADE_GOLD_REWARD
          && p.unitGoldReward == old(p.unitGoldReward) + UPGRADE_GOLD_REWARD
        else
          && p.unitLvl == old(p.unitLvl) && p.unitStat == old(p.unitStat)
          && p.unitPrice == old(p.unitPrice) && p.unitGoldReward == old(p.unitGoldReward))
    && (if !a.Spawn? && !a.IsUnitUpgrade() then
          var attr := a.CastleAttribute();
          var d := CastleUpgrade(attr);
          && p.castleLvl == old(p.castleLvl).With(attr, old(p.castleLvl).Get(attr) + 1)
          && p.castleStat == old(p.castleStat).With(attr, old(p.castleStat).Get(attr) + d)
          && p.income == old(p.income) + (if attr.Income? then d else 0)
          && p.castle.income == old(p.castle.income) + (if attr.Income? then d else 0)
          && p.castle.dmg == old(p.castle.dmg) + (if attr.Dmg? then d as real else 0.0)
          && p.castle.regen == old(p.castle.regen) + (if attr.Regen? then d as real else 0.0)
          && p.castle.hp == old(p.castle.hp) + (if attr.Hp? then d as real else 0.0)
          && p.castle.maxHp == old(p.castle.maxHp) + (if attr.Hp? then d as real else 0.0)
        else
          && p.castleLvl == old(p.castleLvl) && p.castleStat == old(p.castleStat)
          && p.income == old(p.income) && unchanged(p.castle))
  }

  /** One purchase of `a`, as computer_action dispatches it: build_spawn()
      or upgrade_*_attr(attr) with the default count of one. When the gold
      covers COSTS[a] the purchase takes place in full; otherwise nothing
      changes. */
  method Perform(p: Player, a: Action)
    modifies p`spawns, p`gold, p`unitLvl, p`unitStat, p`unitPrice, p`unitGoldReward
    modifies p`castleLvl, p`castleStat, p`income
    modifies p.castle`income, p.castle`dmg, p.castle`regen, p.castle`hp, p.castle`maxHp
    ensures old(p.gold) < Cost(a) ==> unchanged(p, p.castle)
    ensures old(p.gold) >= Cost(a) ==> Bought(p, a)
  {
    if a.Spawn? {
      p.BuildSpawn(Times(1));
    } else if a.IsUnitUpgrade() {
      p.UpgradeUnitsAttr(a.UnitAttribute(), Times(1));
    } else {
      p.UpgradeCastleAttr(a.CastleAttribute(), Times(1));
    }
  }

  /** AIPlayer.computer_action: below the cheapest price nothing is done
      (`acted` is false); otherwise the action drawn from the affordable
      part of the chosen table is bought once. The draw is randint(1, total)
      from `rng`; with an affordable total of zero it raises, which `ok ==
      false` reports with nothing changed. */
  method ComputerAction(p: Player, enemy: Player, turnsToSpawn: int, rng: Rng)
    returns (acted: bool, ok: bool, choice: Option<Action>)
    modifies p`spawns, p`gold, p`unitLvl, p`unitStat, p`unitPrice, p`unitGoldReward
    modifies p`castleLvl, p`castleStat, p`income
    modifies p.castle`income, p.castle`dmg, p.castle`regen, p.castle`hp, p.castle`maxHp
    modifies rng`used
    ensures !ok <==> old(DrawFails(p, enemy, turnsToSpawn))
    ensures !ok ==> unchanged(p, p.castle, rng)
    ensures ok ==> (acted <==> old(p.gold) >= MinPrice())
    ensures !acted ==> unchanged(p, p.castle, rng) && choice.None?
    ensures acted && ok ==>
      && choice == Decide(old(Chosen(p, enemy, turnsToSpawn)), old(p.gold), rng.draws(old(rng.used)))
      && choice.Some?
      && Cost(choice.value) <= old(p.gold)
      && Bought(p, choice.value)
      && rng.used == old(rng.used) + 1
  {
    choice := None;
    if p.gold < MinPrice() {
      return false, true, None;
    }
    var t := Chosen(p, enemy, turnsToSpawn);
    NothingAffordableIffDrawFails(p, enemy, turnsToSpawn);
    if Total(Affordable(t, p.gold)) == 0 {
      return true, false, None;
    }
    choice := BuyDrawn(p, t, rng);
    acted, ok := true, true;
  }

  /** The draw and the purchase of computer_action once something of the
      table `t` is affordable: randint(1, total) from `rng`, random_choice
      over the converted affordable table, and one purchase of the chosen
      action, which the gold pays for. */
  method BuyDrawn(p: Player, t: Table, rng: Rng) returns (choice: Option<Action>)
    requires ChosenTableShape(t) && Total(Affordable(t, p.gold)) > 0
    modifies p`spawns, p`gold, p`unitLvl, p`unitStat, p`unitPrice, p`unitGoldReward
    modifies p`castleLvl, p`castleStat, p`income
    modifies p.castle`income, p.castle`dmg, p.castle`regen, p.castle`hp, p.castle`maxHp
    modifies rng`used
    ensures choice == Decide(t, old(p.gold), rng.draws(old(rng.used)))
    ensures choice.Some? && choice.value in Actions(t) && Cost(choice.value) <= old(p.gold)
    ensures Bought(p, choice.value)
    ensures rng.used == old(rng.used) + 1
  {
    choice := Draw(t, p.gold, rng);
    Perform(p, choice.value);
  }

  /** The draw of computer_action: randint(1, total) from `rng` and
      random_choice over the converted table of the actions `gold` affords. */
  method Draw(t: Table, gold: int, rng: Rng) returns (choice: Option<Action>)
    requires ChosenTableShape(t) && Total(Affordable(t, gold)) > 0
    modifies rng`used
    ensures choice == Decide(t, gold, rng.draws(old(rng.used)))
    ensures choice.Some? && choice.value in Actions(t) && Cost(choice.value) <= gold
    ensures rng.used == old(rng.used) + 1
  {
    var (strategy, total) := BuildComputerStrategy(t, gold);
    BuildComputerStrategyIsAffordablePart(t, gold);
    var k := rng.Below(total);
    var draw := 1 + k;
    ghost var r := rng.draws(old(rng.used));
    DecideIsAffordable(t, gold, r);
    choice := RandomChoice(strategy.value, draw);
    assert choice == Decide(t, gold, r);
  }

  /** AIPlayer.make_turn: actions follow one another while the computer
      expects enough gold for its next spawn, and stop when it is below the
      cheapest price. Each action spends at least the cheapest price, 100
      gold, which is why the loop ends. On a normal exit the gold is below
      the cheapest price or no longer enough; it never goes below zero from
      a non-negative start and never grows. */
  method MakeTurn(p: Player, enemy: Player, turnsToSpawn: int, rng: Rng) returns (ok: bool)
    modifies p`spawns, p`gold, p`unitLvl, p`unitStat, p`unitPrice, p`unitGoldReward
    modifies p`castleLvl, p`castleStat, p`income
    modifies p.castle`income, p.castle`dmg, p.castle`regen, p.castle`hp, p.castle`maxHp
    modifies rng`used
    ensures ok ==> !IsEnoughGold(p, turnsToSpawn) || p.gold < MinPrice()
    ensures p.gold <= old(p.gold)
    ensures old(p.gold) >= 0 ==> p.gold >= 0
  {
    CheapestPriceIs100();
    while IsEnoughGold(p, turnsToSpawn)
      invariant p.gold <= old(p.gold)
      invariant old(p.gold) >= 0 ==> p.gold >= 0
      decreases if p.gold < 0 then 0 else p.gold
    {
      ghost var before := p.gold;
      var acted, fine, choice := ComputerAction(p, enemy, turnsToSpawn, rng);
      if !fine {
        return false;
      }
      if !acted {
        return true;
      }
      assert Cost(choice.value) >= 100;
      assert 0 <= p.gold < before;
    }
    ok := true;
  }
}
