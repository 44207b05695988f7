/** The game flow (CastleWars): the spawn cadence, income, the tick in
    which armies move, fight and merge, the game-over check, and the end of
    a turn that strings these together. */
module Game {
  import opened Constants
  import opened Combat
  import opened Entities

  // ---------------------------------------------------------------------
  // Spawn cadence

  /** CastleWars.spawn_units' counter: at SPAWN_RATE_IN_TURNS the armies
      spawn and it restarts from zero, otherwise it counts up by one. */
  function NextSpawnRate(rate: nat): (r: nat)
    ensures rate <= SPAWN_RATE_IN_TURNS ==> r <= SPAWN_RATE_IN_TURNS
    ensures r == 0 <==> rate == SPAWN_RATE_IN_TURNS
  {
    if rate == SPAWN_RATE_IN_TURNS then 0 else rate + 1
  }

  /** The counter as the `turns`-th end of turn finds it, in a game that
      starts with the counter at SPAWN_RATE_IN_TURNS. */
  function RateAtTurn(turns: nat): nat {
    if turns == 0 then SPAWN_RATE_IN_TURNS else NextSpawnRate(RateAtTurn(turns - 1))
  }

  /** The counter cycles with period SPAWN_RATE_IN_TURNS + 1. */
  lemma {:induction false} RateAtTurnClosedForm(turns: nat)
    ensures RateAtTurn(turns) == (turns + SPAWN_RATE_IN_TURNS) % (SPAWN_RATE_IN_TURNS + 1)
  {
    if turns > 0 {
      RateAtTurnClosedForm(turns - 1);
    }
  }

  /** Armies spawn at the ends of turns 0, 4, 8, ...: once every
      SPAWN_RATE_IN_TURNS + 1 turns, since the counter restarts from zero
      and must count back up to SPAWN_RATE_IN_TURNS. */
  lemma SpawnTurns(turns: nat)
    ensures RateAtTurn(turns) == SPAWN_RATE_IN_TURNS <==> turns % (SPAWN_RATE_IN_TURNS + 1) == 0
  {
    RateAtTurnClosedForm(turns);
  }

  /** The "turns to spawn" the computer is handed, SPAWN_RATE_IN_TURNS minus
      the counter, counts down 3, 2, 1, 0 and is zero exactly on the turns
      that end with a spawn. */
  lemma TurnsToSpawnCountdown(turns: nat)
    ensures 0 <= SPAWN_RATE_IN_TURNS - RateAtTurn(turns) <= SPAWN_RATE_IN_TURNS
    ensures SPAWN_RATE_IN_TURNS - RateAtTurn(turns) == 0 <==> turns % (SPAWN_RATE_IN_TURNS + 1) == 0
    ensures SPAWN_RATE_IN_TURNS - RateAtTurn(turns + 1) ==
      if SPAWN_RATE_IN_TURNS - RateAtTurn(turns) == 0 then SPAWN_RATE_IN_TURNS
      else SPAWN_RATE_IN_TURNS - RateAtTurn(turns) - 1
  {
    RateAtTurnClosedForm(turns);
    RateAtTurnClosedForm(turns + 1);
  }

  // ---------------------------------------------------------------------
  // Land income

  /** The furthest cell the player's armies hold: the greatest position,
      counted from zero. */
  function PlayerFront(armies: seq<Army>): (m: int)
    reads armies
    ensures m >= 0
  {
    if |armies| == 0 then 0
    else
      var m := PlayerFront(armies[..|armies| - 1]);
      var last := armies[|armies| - 1];
      if last.position > m then last.position else m
  }

  /** The furthest cell the computer's armies hold, walking towards zero:
      the smallest position, counted from DISTANCE + 1. */
  function ComputerFront(armies: seq<Army>): (m: int)
    reads armies
    ensures m <= DISTANCE + 1
  {
    if |armies| == 0 then DISTANCE + 1
    else
      var m := ComputerFront(armies[..|armies| - 1]);
      var last := armies[|armies| - 1];
      if last.position < m then last.position else m
  }

  /** The land the computer holds: the cells from its front to its castle. */
  function ComputerLand(armies: seq<Army>): (n: int)
    reads armies
    ensures n >= 0
  {
    DISTANCE - ComputerFront(armies) + 1
  }

  /** The player's front is the greatest position of its armies: none
      stands beyond it, and it is either 0 or held by one of them. */
  lemma {:induction false} PlayerFrontIsMax(armies: seq<Army>)
    ensures forall a :: a in armies ==> a.position <= PlayerFront(armies)
    ensures PlayerFront(armies) == 0 || exists a :: a in armies && a.position == PlayerFront(armies)
  {
    if |armies| > 0 {
      var init := armies[..|armies| - 1];
      PlayerFrontIsMax(init);
      assert armies == init + [armies[|armies| - 1]];
    }
  }

  /** The computer's front is the smallest position of its armies: none
      stands before it, it is either DISTANCE + 1 or held by one of them,
      and so the computer's land reaches every one of its armies. */
  lemma {:induction false} ComputerFrontIsMin(armies: seq<Army>)
    ensures forall a :: a in armies ==> ComputerFront(armies) <= a.position
    ensures ComputerFront(armies) == DISTANCE + 1 || exists a :: a in armies && a.position == ComputerFront(armies)
    ensures forall a :: a in armies ==> ComputerLand(armies) >= DISTANCE - a.position + 1
  {
    if |armies| > 0 {
      var init := armies[..|armies| - 1];
      ComputerFrontIsMin(init);
      assert armies == init + [armies[|armies| - 1]];
    }
  }

  /** set_income's first loop: the highest position of the player's
      armies, starting from zero. */
  method HighestPosition(armies: seq<Army>) returns (highest: int)
    ensures highest == PlayerFront(armies)
  {
    highest := 0;
    var i := 0;
    while i < |armies|
      invariant 0 <= i <= |armies|
      invariant highest == PlayerFront(armies[..i])
    {
      assert armies[..i + 1][..i] == armies[..i];
      if armies[i].position > highest {
        highest := armies[i].position;
      }
      i := i + 1;
    }
    assert armies[..i] == armies;
  }

  /** set_income's second loop: the lowest position of the computer's
      armies, starting from DISTANCE + 1. */
  method LowestPosition(armies: seq<Army>) returns (lowest: int)
    ensures lowest == ComputerFront(armies)
  {
    lowest := DISTANCE + 1;
    var i := 0;
    while i < |armies|
      invariant 0 <= i <= |armies|
      invariant lowest == ComputerFront(armies[..i])
    {
      assert armies[..i + 1][..i] == armies[..i];
      if armies[i].position < lowest {
        lowest := armies[i].position;
      }
      i := i + 1;
    }
    assert armies[..i] == armies;
  }

  /** While the armies stand on the road (cells 0 to DISTANCE + 1), each
      side's land is at most the whole road, and with no armies a side holds
      no land. */
  lemma LandWithinRoad(mine: seq<Army>, theirs: seq<Army>)
    requires forall a :: a in mine ==> 0 <= a.position <= DISTANCE + 1
    requires forall a :: a in theirs ==> 0 <= a.position <= DISTANCE + 1
    ensures 0 <= PlayerFront(mine) <= DISTANCE + 1
    ensures 0 <= ComputerLand(theirs) <= DISTANCE + 1
    ensures |mine| == 0 ==> PlayerFront(mine) == 0
    ensures |theirs| == 0 ==> ComputerLand(theirs) == 0
  {
    PlayerFrontIsMax(mine);
    ComputerFrontIsMin(theirs);
  }

  // ---------------------------------------------------------------------
  // Regeneration

  /** How many times `u` is listed over the armies of a side: the number
      of times the end of a turn regenerates it. */
  function Listings(armies: seq<Army>, u: Unit): nat
    reads Fleet(armies)`units
  {
    if |armies| == 0 then 0
    else Listings(armies[..|armies| - 1], u) + multiset(armies[|armies| - 1].units)[u]
  }

  /** The target an army would find depends on positions alone. */
  /** Two rounds of regeneration, `a` times and then `b` times, are one
      of `n == a + b` times. */
  lemma RegenedInSteps(h0: real, h1: real, h2: real, maxHp: real, regen: real, a: nat, b: nat, n: nat)
    requires h1 == RegenedTimes(h0, maxHp, regen, a)
    requires h2 == RegenedTimes(h1, maxHp, regen, b)
    requires n == a + b
    ensures h2 == RegenedTimes(h0, maxHp, regen, n)
  {
    RegenedTimesCompose(h0, maxHp, regen, a, b);
  }

  /** A run of `k` attacks followed by one more is a run of `n == k + 1`
      attacks. */
  lemma AttackedInSteps(r0: real, r1: real, r2: real, attackSpeed: real, k: nat, n: nat)
    requires r1 == RateOverTicks(k, r0, attackSpeed)
    requires r2 == RateAfterAttack(r1, attackSpeed)
    requires n == k + 1
    ensures r2 == RateOverTicks(n, r0, attackSpeed)
  {
    RateOverTicksLast(k, r0, attackSpeed);
  }

  // ---------------------------------------------------------------------
  // The game

  /** The outcome of check_game_over: the game goes on, or it ends. */
  datatype Verdict = Continue | PlayerLost | PlayerWon

  /** CastleWars: the two players and their castles, the random source and
      the spawn counter. The ghost sets hold every army and unit the game
      has created; Valid says that all the references between them stay
      inside the game. */
  class CastleWars {
    const playerCastle: Castle
    const computerCastle: Castle
    const player: Player
    const computer: Player
    const rng: Rng
    var spawnRate: nat
    ghost var armies: set<Army>
    ghost var units: set<Unit>

    function Castles(): set<Castle> {
      {playerCastle, computerCastle}
    }

    /** `p` plays against `foe`. */
    predicate Sides(p: Player, foe: Player) {
      (p == player && foe == computer) || (p == computer && foe == player)
    }

    ghost predicate Valid()
      reads this`armies, this`units, player`armies, computer`armies, armies`target, armies`units
      reads units`target, playerCastle`target, computerCastle`target
    {
      && player != computer && playerCastle != computerCastle
      && player.castle == playerCastle && computer.castle == computerCastle
      && (forall a :: a in player.armies ==> a in armies && a.enemy == computer && a.enemyCastle == computerCastle)
      && (forall a :: a in computer.armies ==> a in armies && a.enemy == player && a.enemyCastle == playerCastle)
      && (forall a :: a in armies ==> a.target.Armies() <= armies && a.target.Castles() <= Castles())
      && (forall a, u :: a in armies && u in a.units ==> u in units)
      && (forall u :: u in units ==> u.target.Units() <= units && u.target.Castles() <= Castles())
      && (playerCastle.target != null ==> playerCastle.target in armies)
      && (computerCastle.target != null ==> computerCastle.target in armies)
    }

    /** Valid speaks of lists, membership and targets only: a step that
        leaves those alone, except for aiming the castles inside the game,
        keeps it. */
    twostate lemma ValidKept()
      requires old(Valid())
      requires unchanged(this, player, computer)
      requires forall a :: a in armies ==> a.target == old(a.target) && a.units == old(a.units)
      requires forall u :: u in units ==> u.target == old(u.target)
      requires playerCastle.target != null ==> playerCastle.target in armies
      requires computerCastle.target != null ==> computerCastle.target in armies
      ensures Valid()
    {
    }

    /** CastleWars.__init__: the player's castle on cell 0 facing up the
        road, the computer's on DISTANCE + 1 facing down, two fresh players
        and the counter at SPAWN_RATE_IN_TURNS, so the first turn spawns. */
    constructor (draws: nat -> nat)
      ensures Valid()
      ensures playerCastle.position == StartPosition(PlayerSide) && playerCastle.direction == 1
      ensures computerCastle.position == StartPosition(ComputerSide) && computerCastle.direction == -1
      ensures playerCastle.hp == CASTLE_HP && computerCastle.hp == CASTLE_HP
      ensures player.gold == GOLD && computer.gold == GOLD
      ensures player.armies == [] && computer.armies == []
      ensures spawnRate == SPAWN_RATE_IN_TURNS
    {
      var pc := new Castle(CASTLE_HP, 0.0, 0.0, 0, 1);
      var cc := new Castle(CASTLE_HP, 0.0, 0.0, DISTANCE + 1, -1);
      playerCastle := pc;
      computerCastle := cc;
      player := new Player(pc);
      computer := new Player(cc);
      rng := new Rng(draws);
      spawnRate := SPAWN_RATE_IN_TURNS;
      armies := {};
      units := {};
    }

    /** The game-over check: the player loses when their castle has no
        health left, which is looked at first; otherwise the player wins
        when the computer's castle has none. */
    function GameOver(): (v: Verdict)
      reads playerCastle`hp, computerCastle`hp
      ensures v == PlayerLost <==> playerCastle.hp == 0.0
      ensures v == PlayerWon <==> playerCastle.hp != 0.0 && computerCastle.hp == 0.0
      ensures v == Continue <==> playerCastle.hp != 0.0 && computerCastle.hp != 0.0
    {
      if playerCastle.hp == 0.0 then PlayerLost
      else if computerCastle.hp == 0.0 then PlayerWon
      else Continue
    }

    /** CastleWars.add_gold_as_income: each player is paid their income. */
    method AddGoldAsIncome()
      requires player != computer
      modifies player`gold, player`goldEarned, computer`gold, computer`goldEarned
      ensures player.gold == old(player.gold) + player.income
      ensures player.goldEarned == old(player.goldEarned) + player.income
      ensures computer.gold == old(computer.gold) + computer.income
      ensures computer.goldEarned == old(computer.goldEarned) + computer.income
    {
      player.AddGold(player.income);
      computer.AddGold(computer.income);
    }

    /** One side's part of spawn_units: the units its spawns pay for, set
        on the road as a new army at the side's start cell, walking the
        side's way towards the foe's castle; nothing when no unit is paid
        for. */
    method SpawnArmy(p: Player, foe: Player, side: Side)
      requires Valid() && Sides(p, foe) && (side == PlayerSide <==> p == player)
      modifies this`armies, this`units, p`gold, p`armies
      ensures Valid()
      ensures p.gold == old(p.gold) - p.unitPrice * SpawnCount(p.spawns, old(p.gold), p.unitPrice)
      ensures SpawnCount(p.spawns, old(p.gold), p.unitPrice) == 0 ==> p.armies == old(p.armies)
      ensures SpawnCount(p.spawns, old(p.gold), p.unitPrice) > 0 ==>
        && |p.armies| == |old(p.armies)| + 1
        && p.armies[..|old(p.armies)|] == old(p.armies)
        && var a := p.armies[|old(p.armies)|];
        && fresh(a) && a.position == StartPosition(side) && a.movement == Movement(side)
        && |a.units| == SpawnCount(p.spawns, old(p.gold), p.unitPrice)
        && a.target == NoArmyTarget
      ensures forall a :: a in armies ==> a in old(armies) || fresh(a)
      ensures forall u :: u in units ==> u in old(units) || fresh(u)
    {
      var us := p.SpawnUnits();
      if |us| > 0 {
        Enlist(p, foe, side, us);
      }
    }

    /** The new army of spawn_units, appended to the side's list. */
    method Enlist(p: Player, foe: Player, side: Side, us: seq<Unit>)
      requires Valid() && Sides(p, foe)
      requires forall u :: u in us ==> u.target == NoUnitTarget
      modifies this`armies, this`units, p`armies
      ensures Valid()
      ensures |p.armies| == |old(p.armies)| + 1 && p.armies[..|old(p.armies)|] == old(p.armies)
      ensures var a := p.armies[|old(p.armies)|];
        && fresh(a) && a.position == StartPosition(side) && a.movement == Movement(side)
        && a.units == us && a.target == NoArmyTarget
      ensures armies == old(armies) + {p.armies[|old(p.armies)|]}
      ensures units == old(units) + Members(us)
    {
      var a := new Army(StartPosition(side), Movement(side), us, foe.castle, foe);
      units := units + Members(us);
      armies := armies + {a};
      p.armies := p.armies + [a];
    }

    /** CastleWars.spawn_units: when the counter has reached
        SPAWN_RATE_IN_TURNS, first the player and then the computer spawn
        and the counter restarts; otherwise it only counts up. */
    method SpawnUnits()
      requires Valid()
      modifies this`spawnRate, this`armies, this`units, player`gold, player`armies
      modifies computer`gold, computer`armies
      ensures Valid()
      ensures spawnRate == NextSpawnRate(old(spawnRate))
      ensures old(spawnRate) != SPAWN_RATE_IN_TURNS ==>
        player.armies == old(player.armies) && computer.armies == old(computer.armies) &&
        player.gold == old(player.gold) && computer.gold == old(computer.gold)
      ensures old(spawnRate) == SPAWN_RATE_IN_TURNS ==>
        player.gold == old(player.gold) - player.unitPrice * SpawnCount(player.spawns, old(player.gold), player.unitPrice) &&
        computer.gold == old(computer.gold) - computer.unitPrice * SpawnCount(computer.spawns, old(computer.gold), computer.unitPrice)
      ensures old(spawnRate) == SPAWN_RATE_IN_TURNS ==>
        |player.armies| == |old(player.armies)| + (if SpawnCount(player.spawns, old(player.gold), player.unitPrice) > 0 then 1 else 0) &&
        |computer.armies| == |old(computer.armies)| + (if SpawnCount(computer.spawns, old(computer.gold), computer.unitPrice) > 0 then 1 else 0)
      ensures forall a :: a in armies ==> a in old(armies) || fresh(a)
      ensures forall u :: u in units ==> u in old(units) || fresh(u)
    {
      if spawnRate == SPAWN_RATE_IN_TURNS {
        SpawnArmy(player, computer, PlayerSide);
        SpawnArmy(computer, player, ComputerSide);
        spawnRate := 0;
      } else {
        spawnRate := spawnRate + 1;
      }
    }

    /** CastleWars.set_income: each side earns its castle income plus
        LAND_INCOME for every cell of land up to its furthest army. */
    method SetIncome()
      requires player != computer
      modifies player`income, computer`income
      ensures player.income == player.castleStat.income + LAND_INCOME * PlayerFront(player.armies)
      ensures computer.income == computer.castleStat.income + LAND_INCOME * ComputerLand(computer.armies)
    {
      var highest := HighestPosition(player.armies);
      var lowest := LowestPosition(computer.armies);
      var land := DISTANCE - lowest + 1;
      assert land == ComputerLand(computer.armies);
      player.income := player.castleStat.income + LAND_INCOME * highest;
      computer.income := computer.castleStat.income + LAND_INCOME * land;
      assert PlayerFront(player.armies) == highest;
      assert ComputerLand(computer.armies) == land;
    }

    // -------------------------------------------------------------------
    // One tick of the battle

    /** CastleWars.fight_tick: every unit of the army attacks, then the
        units that lost their target pick a new one. An attack with no
        target, or a pick among no units, raises: `ok` is false. A unit
        listed k times attacks k times, so its accumulator goes through k
        attacks. */
    method FightTick(army: Army) returns (ok: bool)
      requires Valid() && army in armies
      modifies units`attackRate, units`hp, Castles()`hp, units`target, rng`used
      ensures ok ==> Valid()
      ensures ok ==> forall u :: u in army.units ==>
        u.attackRate == RateOverTicks(multiset(army.units)[u], old(u.attackRate), u.attackSpeed)
    {
      ok := Strike(army);
      if ok {
        ok := Retarget(army);
      }
    }

    /** The attacks of fight_tick: the army's units attack in list order,
        and one that raises stops the tick. */
    method Strike(army: Army) returns (ok: bool)
      requires forall u :: u in army.units ==>
        u in units && u.target.Units() <= units && u.target.Castles() <= Castles()
      modifies units`attackRate, units`hp, Castles()`hp
      ensures ok ==> forall u :: u in army.units ==>
        u.attackRate == RateOverTicks(multiset(army.units)[u], old(u.attackRate), u.attackSpeed)
    {
      var i := 0;
      while i < |army.units|
        invariant 0 <= i <= |army.units|
        invariant forall u :: u in army.units ==>
          u.attackRate == RateOverTicks(multiset(army.units[..i])[u], old(u.attackRate), u.attackSpeed)
      {
        var w := army.units[i];
        label before:
        var fine := w.Attack();
        if !fine {
          return false;
        }
        assert army.units[..i + 1] == army.units[..i] + [w];
        assert multiset(army.units[..i + 1]) == multiset(army.units[..i]) + multiset{w};
        forall u | u in army.units
          ensures u.attackRate == RateOverTicks(multiset(army.units[..i + 1])[u], old(u.attackRate), u.attackSpeed)
        {
          if u == w {
            AttackedInSteps(old(u.attackRate), old@before(u.attackRate), u.attackRate, u.attackSpeed,
                            multiset(army.units[..i])[u], multiset(army.units[..i + 1])[u]);
          } else {
            assert u.attackRate == old@before(u.attackRate);
          }
        }
        i := i + 1;
      }
      assert army.units[..i] == army.units;
      ok := true;
    }

    /** Army.refresh_units_target inside the game: new unit targets are
        members of the army's target army. */
    method Retarget(army: Army) returns (ok: bool)
      requires Valid() && army in armies
      modifies Members(army.units)`target, rng`used
      ensures Valid()
    {
      ok := army.RefreshUnitsTarget(rng);
    }

    /** One army's move in move_armies: it fights when it has a target or
        finds one, and marches otherwise. A raise inside (`ok` false) ends
        the game. */
    method ArmyStep(p: Player, foe: Player, army: Army) returns (ok: bool)
      requires Valid() && Sides(p, foe) && army in p.armies
      modifies p`armies, armies`target, armies`position, armies`units
      modifies units`target, units`attackRate, units`hp, Castles()`hp, rng`used
      ensures ok ==> Valid()
      ensures ok ==> p.armies == old(p.armies) || p.armies == RemoveFirst(old(p.armies), army)
      ensures !ok ==> p.armies == old(p.armies)
      ensures ok && ((old(army.target).FightArmy? && old(army.TargetHp()) != 0.0) ||
                     old(army.TargetFound(foe.armies)) != NoArmyTarget) ==>
        && army.position == old(army.position)
        && forall u :: u in old(army.units) ==>
             u.attackRate == RateOverTicks(multiset(old(army.units))[u], old(u.attackRate), u.attackSpeed)
      ensures ok && !(old(army.target).FightArmy? && old(army.TargetHp()) != 0.0) &&
              old(army.TargetFound(foe.armies)) == NoArmyTarget ==>
        && army.position == old(army.position) + army.movement * army.speed
        && forall u :: u in old(army.units) ==> u.attackRate == StartRate(u.attackSpeed)
    {
      var has;
      has, ok := Engage(foe, army);
      if !ok {
        return;
      }
      if has {
        ok := FightTick(army);
      } else {
        ok := March(p, army);
      }
    }

    /** The targeting part of an army's move: an army besieging a castle
        first looks for an enemy army to fight instead; then a dead target
        is dropped and an army without one looks for one. `has` tells
        whether the army now has a target. */
    method Engage(foe: Player, army: Army) returns (has: bool, ok: bool)
      requires Valid() && foe in {player, computer} && army in armies
      requires army.enemy == foe && army.enemyCastle == foe.castle
      modifies army`target, Members(army.units)`target, rng`used
      ensures ok ==> Valid()
      ensures ok ==> (has <==> army.target != NoArmyTarget)
      ensures old(army.target).FightArmy? && old(army.TargetHp()) != 0.0 ==>
        ok && has && army.target == old(army.target) && rng.used == old(rng.used)
      ensures ok && !(old(army.target).FightArmy? && old(army.TargetHp()) != 0.0) ==>
        army.target == old(army.TargetFound(foe.armies))
      ensures (old(EnemyArmyAt(army.position, foe.armies)) != null ||
               !old(army.TargetFound(foe.armies)).FightArmy?) ==> ok
    {
      ok := PreferArmy(foe, army);
      if !ok {
        return false, false;
      }
      has := DropDeadTarget(army, foe.armies);
      if !has {
        has, ok := Seek(foe, army);
      }
    }

    /** The first check of an army's move: a dead target is dropped, and an
        army besieging a castle looks for an enemy army instead. A live
        enemy army stays the target; otherwise the army ends with no target
        or with the one get_target finds. */
    method PreferArmy(foe: Player, army: Army) returns (ok: bool)
      requires Valid() && foe in {player, computer} && army in armies
      requires army.enemy == foe && army.enemyCastle == foe.castle
      modifies army`target, Members(army.units)`target, rng`used
      ensures ok ==> Valid()
      ensures old(army.target).FightArmy? && old(army.TargetHp()) != 0.0 ==>
        ok && army.target == old(army.target) && rng.used == old(rng.used) &&
        army.TargetHp() == old(army.TargetHp())
      ensures ok && !(old(army.target).FightArmy? && old(army.TargetHp()) != 0.0) ==>
        army.target == NoArmyTarget || army.target == old(army.TargetFound(foe.armies))
      ensures (old(EnemyArmyAt(army.position, foe.armies)) != null ||
               !old(army.TargetFound(foe.armies)).FightArmy?) ==> ok
      ensures army.TargetFound(foe.armies) == old(army.TargetFound(foe.armies))
    {
      ok := true;
      var has := DropDeadTarget(army, foe.armies);
      if old(army.target).FightArmy? && old(army.TargetHp()) != 0.0 {
        var a := army.target.army;
        assert a.units == old(a.units);
        assert forall u :: u in Members(a.units) ==> u.hp == old(u.hp);
      }
      if has && army.target.SiegeCastle? {
        var inSight;
        inSight, ok := Seek(foe, army);
      }
      army.SearchKept(foe.armies);
    }

    /** Army.has_target inside the game: a dead target is dropped. */
    method DropDeadTarget(army: Army, ghost enemies: seq<Army>) returns (has: bool)
      requires Valid() && army in armies
      modifies army`target
      ensures Valid()
      ensures army.TargetFound(enemies) == old(army.TargetFound(enemies))
      ensures army.target == (if old(army.target) != NoArmyTarget && old(army.TargetHp()) == 0.0
                              then NoArmyTarget else old(army.target))
      ensures has <==> army.target != NoArmyTarget
    {
      has := army.HasTarget();
      army.SearchKept(enemies);
    }

    /** Army.get_target inside the game: the target found is an enemy army
        of the game or the enemy castle, and the units aim inside the
        game. */
    method Seek(foe: Player, army: Army) returns (found: bool, ok: bool)
      requires Valid() && foe in {player, computer} && army in armies
      requires army.enemy == foe && army.enemyCastle == foe.castle
      modifies army`target, Members(army.units)`target, rng`used
      ensures ok ==> Valid()
      ensures army.target == old(army.TargetFound(foe.armies))
      ensures found <==> army.target != NoArmyTarget
      ensures (old(EnemyArmyAt(army.position, foe.armies)) != null ||
               !old(army.TargetFound(foe.armies)).FightArmy?) ==> ok
    {
      found, ok := army.GetTarget(foe.armies, rng);
    }

    /** The marching part of an army's move: one step forward, the units'
        attack rates reset, and a merge into a friendly army now on the
        same cell. */
    method March(p: Player, army: Army) returns (ok: bool)
      requires Valid() && p in {player, computer} && army in p.armies
      modifies army`position, Members(army.units)`attackRate, Members(army.units)`target
      modifies Fleet(p.armies)`units, p`armies, rng`used
      ensures army.position == old(army.position) + army.movement * army.speed
      ensures forall u :: u in old(army.units) ==> u.attackRate == StartRate(u.attackSpeed)
      ensures ok ==> Valid()
      ensures ok ==> p.armies == old(p.armies) || p.armies == RemoveFirst(old(p.armies), army)
      ensures !ok ==> p.armies == old(p.armies)
    {
      army.Move();
      army.RefreshAttackRate();
      assert Valid();
      ok := Merge(p, army);
    }

    /** Player.check_armies_collision inside the game: the merged units
        join an army of the game and aim inside it. */
    method Merge(p: Player, army: Army) returns (ok: bool)
      requires Valid() && p in {player, computer} && army in p.armies
      modifies Members(army.units)`target, Fleet(p.armies)`units, p`armies, rng`used
      ensures ok ==> Valid()
      ensures ok ==> p.armies == old(p.armies) || p.armies == RemoveFirst(old(p.armies), army)
      ensures !ok ==> p.armies == old(p.armies)
    {
      var merged;
      merged, ok := p.CheckArmiesCollision(army, rng);
    }

    /** The castle's part of move_armies: a castle with a target, or one
        that finds an enemy army on or next to it, hits every unit of that
        army. */
    method CastleStep(castle: Castle, foe: Player)
      requires Valid() && castle in Castles() && foe in {player, computer}
      modifies castle`target, units`hp
      ensures Valid()
      ensures old(castle.Aim(foe.armies)) == null ==>
        castle.target == null && forall u :: u in units ==> u.hp == old(u.hp)
      ensures var a := old(castle.Aim(foe.armies));
        a != null ==>
          && (forall u :: u in old(a.units) ==>
                u.hp == DamagedTimes(old(u.hp), castle.dmg, multiset(old(a.units))[u]))
          && (forall u :: u in units && u !in old(a.units) ==> u.hp == old(u.hp))
          && castle.target == if a.Hp() == 0.0 then null else a
    {
      var has := TakeAim(castle, foe);
      if has {
        castle.Attack();
      }
      ValidKept();
    }

    /** The castle's choice of target in move_armies: the one it holds,
        else the first enemy army on its cell or the next. */
    method TakeAim(castle: Castle, foe: Player) returns (has: bool)
      requires Valid() && castle in Castles() && foe in {player, computer}
      modifies castle`target
      ensures castle.target == old(castle.Aim(foe.armies))
      ensures has <==> castle.target != null
      ensures castle.target != null ==> castle.target in armies
    {
      has := castle.HasTarget();
      if !has {
        has := castle.GetTarget(foe.armies);
      }
    }

    /** One side's part of move_armies: each of its armies in list order
        makes its move, then its castle. As with a Python list iterated
        while it shrinks, the index goes on by one after an army merged
        away, so the army that moved into its place waits for the next
        tick. */
    method SideStep(p: Player, foe: Player) returns (ok: bool)
      requires Valid() && Sides(p, foe)
      modifies p`armies, armies`target, armies`position, armies`units
      modifies units`target, units`attackRate, units`hp, Castles()`hp, Castles()`target, rng`used
      ensures ok ==> Valid()
      ensures forall a :: a in p.armies ==> a in old(p.armies)
    {
      var i := 0;
      while i < |p.armies|
        invariant Valid()
        invariant forall a :: a in p.armies ==> a in old(p.armies)
        decreases |p.armies| - i
      {
        ok := ArmyStep(p, foe, p.armies[i]);
        if !ok {
          return;
        }
        i := i + 1;
      }
      CastleStep(p.castle, foe);
      ok := true;
    }

    /** The clean-up of move_armies for one side: each army drops its dead
        units (the foe collects their kill rewards and counts the kills,
        the side counts its deaths), then the armies left with no units
        leave the list. */
    method Purge(p: Player, foe: Player)
      requires Valid() && Sides(p, foe)
      modifies Fleet(p.armies)`units, p`armies, p`deaths, foe`gold, foe`goldEarned, foe`kills
      ensures Valid()
      ensures forall a :: a in p.armies ==> a in old(p.armies) && |a.units| > 0
      ensures forall a, u :: a in p.armies && u in a.units ==> u.hp > 0.0
      ensures forall a, u :: a in old(p.armies) && u in old(a.units) && u.hp > 0.0 ==>
        a in p.armies && u in a.units
      ensures p.deaths - old(p.deaths) == foe.kills - old(foe.kills) >= 0
    {
      var i := 0;
      while i < |p.armies|
        invariant 0 <= i <= |p.armies| && p.armies == old(p.armies)
        invariant Valid()
        invariant forall j, u :: 0 <= j < i && u in p.armies[j].units ==> u.hp > 0.0
        invariant forall a, u :: a in old(p.armies) && u in old(a.units) && u.hp > 0.0 ==> u in a.units
        invariant p.deaths - old(p.deaths) == foe.kills - old(foe.kills) >= 0
      {
        PurgeArmy(p, foe, p.armies[i]);
        i := i + 1;
      }
      DropEmpty(p);
    }

    /** One army of the clean-up: its dead units leave it, and the side's
        new deaths are the foe's new kills. */
    method PurgeArmy(p: Player, foe: Player, army: Army)
      requires Valid() && Sides(p, foe) && army in p.armies
      modifies army`units, p`deaths, foe`gold, foe`goldEarned, foe`kills
      ensures Valid()
      ensures forall u :: u in army.units ==> u.hp > 0.0
      ensures forall u :: u in old(army.units) && u.hp > 0.0 ==> u in army.units
      ensures p.deaths - old(p.deaths) == foe.kills - old(foe.kills) >= 0
    {
      var dead := DropDead(p, foe, army);
      p.deaths := p.deaths + dead;
    }

    /** Army.remove_dead_units inside the game: the army keeps only units
        with health, and the foe counts the dead as kills. */
    method DropDead(p: Player, foe: Player, army: Army) returns (dead: nat)
      requires Valid() && Sides(p, foe) && army in p.armies
      modifies army`units, foe`gold, foe`goldEarned, foe`kills
      ensures Valid()
      ensures army.units == old(Alive(army.units))
      ensures forall u :: u in army.units <==> u in old(army.units) && u.hp > 0.0
      ensures dead == old(DeadCount(army.units))
      ensures foe.gold == old(foe.gold) + old(DeadReward(army.units))
      ensures foe.goldEarned == old(foe.goldEarned) + old(DeadReward(army.units))
      ensures foe.kills == old(foe.kills) + dead
    {
      dead := army.RemoveDeadUnits();
    }

    /** Player.remove_dead_armies inside the game. */
    method DropEmpty(p: Player)
      requires Valid() && p in {player, computer}
      modifies p`armies
      ensures Valid()
      ensures forall a :: a in p.armies <==> a in old(p.armies) && |a.units| > 0
    {
      p.RemoveDeadArmies();
    }

    /** CastleWars.move_armies: the player's side moves, then the
        computer's, then both clean up. Afterwards every listed army has
        units, all of them alive, and each side's new deaths are exactly
        the other side's new kills. */
    method MoveArmies() returns (ok: bool)
      requires Valid()
      modifies player`armies, computer`armies, player`deaths, computer`deaths
      modifies player`kills, computer`kills, player`gold, computer`gold
      modifies player`goldEarned, computer`goldEarned
      modifies armies`target, armies`position, armies`units
      modifies units`target, units`attackRate, units`hp, Castles()`hp, Castles()`target, rng`used
      ensures ok ==> Valid()
      ensures ok ==> forall a :: a in player.armies ==> |a.units| > 0
      ensures ok ==> forall a :: a in computer.armies ==> |a.units| > 0
      ensures ok ==> forall a, u :: a in player.armies && u in a.units ==> u.hp > 0.0
      ensures ok ==> forall a, u :: a in computer.armies && u in a.units ==> u.hp > 0.0
      ensures ok ==> player.deaths - old(player.deaths) == computer.kills - old(computer.kills) >= 0
      ensures ok ==> computer.deaths - old(computer.deaths) == player.kills - old(player.kills) >= 0
    {
      ok := SideStep(player, computer);
      if !ok {
        return;
      }
      ok := SideStep(computer, player);
      if !ok {
        return;
      }
      Purge(player, computer);
      Purge(computer, player);
    }

    // -------------------------------------------------------------------
    // A whole turn

    /** The ticks of finish_turn: up to TIME_TICKS_PER_TURN times the armies
        move, the game-over check runs and the incomes are set. A verdict
        other than Continue ends the game at once (the program exits). */
    method PlayTicks() returns (ok: bool, verdict: Verdict)
      requires Valid()
      modifies player`armies, computer`armies, player`deaths, computer`deaths
      modifies player`kills, computer`kills, player`gold, computer`gold
      modifies player`goldEarned, computer`goldEarned, player`income, computer`income
      modifies armies`target, armies`position, armies`units
      modifies units`target, units`attackRate, units`hp, Castles()`hp, Castles()`target, rng`used
      ensures ok ==> Valid() && verdict == GameOver()
      ensures ok && verdict == Continue ==>
        && player.income == player.castleStat.income + LAND_INCOME * PlayerFront(player.armies)
        && computer.income == computer.castleStat.income + LAND_INCOME * ComputerLand(computer.armies)
      ensures ok ==> forall a :: a in player.armies ==> |a.units| > 0
      ensures ok ==> forall a :: a in computer.armies ==> |a.units| > 0
      ensures ok ==> player.deaths - old(player.deaths) == computer.kills - old(computer.kills) >= 0
      ensures ok ==> computer.deaths - old(computer.deaths) == player.kills - old(player.kills) >= 0
    {
      ok, verdict := true, Continue;
      var tick := 0;
      while tick < TIME_TICKS_PER_TURN
        invariant Valid() && verdict == Continue
        invariant tick > 0 ==> verdict == GameOver()
        invariant tick > 0 ==>
          && player.income == player.castleStat.income + LAND_INCOME * PlayerFront(player.armies)
          && computer.income == computer.castleStat.income + LAND_INCOME * ComputerLand(computer.armies)
        invariant tick > 0 ==> forall a :: a in player.armies ==> |a.units| > 0
        invariant tick > 0 ==> forall a :: a in computer.armies ==> |a.units| > 0
        invariant player.deaths - old(player.deaths) == computer.kills - old(computer.kills) >= 0
        invariant computer.deaths - old(computer.deaths) == player.kills - old(player.kills) >= 0
      {
        ok := MoveArmies();
        if !ok {
          return;
        }
        verdict := GameOver();
        if verdict != Continue {
          return;
        }
        SetIncome();
        tick := tick + 1;
      }
    }

    /** Army.regen_units inside the game: with a non-negative regeneration
        no unit loses health, and none is lifted past its maximum. */
    method RegenArmy(army: Army)
      modifies Members(army.units)`hp
      ensures forall u :: u in units ==>
        u.hp == RegenedTimes(old(u.hp), u.maxHp, u.regen, multiset(army.units)[u])
      ensures forall u :: u in units && u.regen >= 0.0 ==> old(u.hp) <= u.hp
      ensures forall u :: u in units && u.regen >= 0.0 && old(u.hp) <= u.maxHp ==> u.hp <= u.maxHp
    {
      army.RegenUnits();
      forall u | u in units
        ensures u.hp == RegenedTimes(old(u.hp), u.maxHp, u.regen, multiset(army.units)[u])
      {
        if u !in army.units {
          assert multiset(army.units)[u] == 0;
        }
      }
      forall u | u in units && u.regen >= 0.0
        ensures old(u.hp) <= u.hp && (old(u.hp) <= u.maxHp ==> u.hp <= u.maxHp)
      {
        if u in army.units {
          RegenedTimesBounds(old(u.hp), u.maxHp, u.regen, multiset(army.units)[u]);
        }
      }
    }

    /** One side's part of the end of finish_turn: every army's units
        regenerate, then the castle does. */
    method RegenSide(p: Player)
      requires forall a, u :: a in p.armies && u in a.units ==> u in units
      modifies units`hp, p.castle`hp
      ensures p.castle.hp == AfterRegen(old(p.castle.hp), p.castle.maxHp, p.castle.regen)
      ensures forall u :: u in units ==>
        u.hp == RegenedTimes(old(u.hp), u.maxHp, u.regen, old(Listings(p.armies, u)))
    {
      var i := 0;
      while i < |p.armies|
        modifies units`hp
        invariant 0 <= i <= |p.armies|
        invariant forall u :: u in units ==>
          u.hp == RegenedTimes(old(u.hp), u.maxHp, u.regen, old(Listings(p.armies[..i], u)))
      {
        label before:
        RegenArmy(p.armies[i]);
        forall u | u in units
          ensures u.hp == RegenedTimes(old(u.hp), u.maxHp, u.regen, old(Listings(p.armies[..i + 1], u)))
        {
          assert p.armies[..i + 1][..i] == p.armies[..i];
          RegenedInSteps(old(u.hp), old@before(u.hp), u.hp, u.maxHp, u.regen,
                         old(Listings(p.armies[..i], u)), multiset(p.armies[i].units)[u],
                         old(Listings(p.armies[..i + 1], u)));
        }
        i := i + 1;
      }
      assert p.armies[..i] == p.armies;
      p.castle.Regenerate();
    }

    /** CastleWars.finish_turn: income is paid, the spawn counter moves
        (spawning when due), the ticks are played, and when the game goes on
        both sides regenerate. Over the turn each side's new deaths are the
        other side's new kills. */
    method FinishTurn() returns (ok: bool, verdict: Verdict)
      requires Valid()
      modifies this`spawnRate, this`armies, this`units
      modifies player`armies, computer`armies, player`deaths, computer`deaths
      modifies player`kills, computer`kills, player`gold, computer`gold
      modifies player`goldEarned, computer`goldEarned, player`income, computer`income
      modifies armies`target, armies`position, armies`units
      modifies units`target, units`attackRate, units`hp, Castles()`hp, Castles()`target, rng`used
      ensures spawnRate == NextSpawnRate(old(spawnRate))
      ensures ok ==> Valid()
      ensures ok && verdict == Continue ==>
        && player.income == player.castleStat.income + LAND_INCOME * PlayerFront(player.armies)
        && computer.income == computer.castleStat.income + LAND_INCOME * ComputerLand(computer.armies)
      ensures ok && verdict == PlayerLost ==> playerCastle.hp == 0.0
      ensures ok && verdict == PlayerWon ==> playerCastle.hp != 0.0 && computerCastle.hp == 0.0
      ensures ok && verdict == Continue ==> forall a :: a in player.armies ==> |a.units| > 0
      ensures ok && verdict == Continue ==> forall a :: a in computer.armies ==> |a.units| > 0
      ensures ok ==> player.deaths - old(player.deaths) == computer.kills - old(computer.kills) >= 0
      ensures ok ==> computer.deaths - old(computer.deaths) == player.kills - old(player.kills) >= 0
    {
      BeginTurn();
      ok, verdict := PlayOut();
    }

    /** The rest of finish_turn once income and spawning are done: the
        ticks are played, and when the game goes on both sides regenerate,
        which leaves every army where it stood. */
    method PlayOut() returns (ok: bool, verdict: Verdict)
      requires Valid()
      modifies player`armies, computer`armies, player`deaths, computer`deaths
      modifies player`kills, computer`kills, player`gold, computer`gold
      modifies player`goldEarned, computer`goldEarned, player`income, computer`income
      modifies armies`target, armies`position, armies`units
      modifies units`target, units`attackRate, units`hp, Castles()`hp, Castles()`target, rng`used
      ensures ok ==> Valid()
      ensures ok && verdict == Continue ==>
        && player.income == player.castleStat.income + LAND_INCOME * PlayerFront(player.armies)
        && computer.income == computer.castleStat.income + LAND_INCOME * ComputerLand(computer.armies)
      ensures ok && verdict == PlayerLost ==> playerCastle.hp == 0.0
      ensures ok && verdict == PlayerWon ==> playerCastle.hp != 0.0 && computerCastle.hp == 0.0
      ensures ok && verdict == Continue ==> forall a :: a in player.armies ==> |a.units| > 0
      ensures ok && verdict == Continue ==> forall a :: a in computer.armies ==> |a.units| > 0
      ensures ok ==> player.deaths - old(player.deaths) == computer.kills - old(computer.kills) >= 0
      ensures ok ==> computer.deaths - old(computer.deaths) == player.kills - old(player.kills) >= 0
    {
      ok, verdict := PlayTicks();
      if ok && verdict == Continue {
        EndTurn();
      }
    }

    /** The regeneration that closes finish_turn, which moves no army and
        so leaves each side's front and land as they were. */
    method EndTurn()
      requires Valid()
      modifies units`hp, Castles()`hp
      ensures Valid()
      ensures PlayerFront(player.armies) == old(PlayerFront(player.armies))
      ensures ComputerLand(computer.armies) == old(ComputerLand(computer.armies))
    {
      ghost var pf := PlayerFront(player.armies);
      ghost var cl := ComputerLand(computer.armies);
      RegenerateAll();
      assert PlayerFront(player.armies) == pf;
      assert ComputerLand(computer.armies) == cl;
    }

    /** The start of finish_turn: income is paid, then the spawn counter
        moves and armies spawn when due. */
    method BeginTurn()
      requires Valid()
      modifies this`spawnRate, this`armies, this`units, player`gold, player`goldEarned, player`armies
      modifies computer`gold, computer`goldEarned, computer`armies
      ensures Valid()
      ensures spawnRate == NextSpawnRate(old(spawnRate))
      ensures player.goldEarned == old(player.goldEarned) + player.income
      ensures computer.goldEarned == old(computer.goldEarned) + computer.income
      ensures old(spawnRate) != SPAWN_RATE_IN_TURNS ==>
        && player.gold == old(player.gold) + player.income
        && computer.gold == old(computer.gold) + computer.income
        && player.armies == old(player.armies) && computer.armies == old(computer.armies)
      ensures old(spawnRate) == SPAWN_RATE_IN_TURNS ==>
        var pn := SpawnCount(player.spawns, old(player.gold) + player.income, player.unitPrice);
        var cn := SpawnCount(computer.spawns, old(computer.gold) + computer.income, computer.unitPrice);
        && player.gold == old(player.gold) + player.income - player.unitPrice * pn
        && computer.gold == old(computer.gold) + computer.income - computer.unitPrice * cn
        && |player.armies| == |old(player.armies)| + (if pn > 0 then 1 else 0)
        && |computer.armies| == |old(computer.armies)| + (if cn > 0 then 1 else 0)
      ensures forall a :: a in armies ==> a in old(armies) || fresh(a)
      ensures forall u :: u in units ==> u in old(units) || fresh(u)
    {
      AddGoldAsIncome();
      SpawnUnits();
    }

    /** The end of finish_turn: the player's side regenerates, then the
        computer's. */
    method RegenerateAll()
      requires player.castle == playerCastle && computer.castle == computerCastle && playerCastle != computerCastle
      requires forall a, u :: a in player.armies && u in a.units ==> u in units
      requires forall a, u :: a in computer.armies && u in a.units ==> u in units
      modifies units`hp, Castles()`hp
      ensures playerCastle.hp == AfterRegen(old(playerCastle.hp), playerCastle.maxHp, playerCastle.regen)
      ensures computerCastle.hp == AfterRegen(old(computerCastle.hp), computerCastle.maxHp, computerCastle.regen)
      ensures forall u :: u in units ==>
        u.hp == RegenedTimes(RegenedTimes(old(u.hp), u.maxHp, u.regen, old(Listings(player.armies, u))),
                             u.maxHp, u.regen, old(Listings(computer.armies, u)))
      ensures forall u :: u in units && u.regen >= 0.0 ==> old(u.hp) <= u.hp
      ensures forall u :: u in units && u.regen >= 0.0 && old(u.hp) <= u.maxHp ==> u.hp <= u.maxHp
    {
      RegenSide(player);
      label between:
      assert forall a :: a in Fleet(computer.armies) ==> a.units == old(a.units);
      assert forall u :: u in units ==> Listings(computer.armies, u) == old(Listings(computer.armies, u));
      RegenSide(computer);
      forall u | u in units && u.regen >= 0.0
        ensures old(u.hp) <= u.hp && (old(u.hp) <= u.maxHp ==> u.hp <= u.maxHp)
      {
        RegenedTimesBounds(old(u.hp), u.maxHp, u.regen, old(Listings(player.armies, u)));
        RegenedTimesBounds(old@between(u.hp), u.maxHp, u.regen, old(Listings(computer.armies, u)));
      }
    }
  }
}
