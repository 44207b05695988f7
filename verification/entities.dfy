/** The objects of a battle: units, castles, armies and players, with the
    methods that change them in place. Army, Player and Castle refer to one
    another, so they share one module. */
module Entities {
  import opened Constants
  import opened Combat

  // ---------------------------------------------------------------------
  // Randomness

  /** The source of random.choice and random.randint: a stream of draws
      supplied from outside, consumed one draw per call. */
  class Rng {
    const draws: nat -> nat
    var used: nat

    constructor (draws: nat -> nat)
      ensures this.draws == draws && used == 0
    {
      this.draws := draws;
      used := 0;
    }

    /** An index below `n`: the next draw reduced modulo `n`. */
    method Below(n: nat) returns (i: nat)
      requires n > 0
      modifies this`used
      ensures i < n && i == draws(old(used)) % n
      ensures used == old(used) + 1
    {
      i := draws(used) % n;
      used := used + 1;
    }
  }

  // ---------------------------------------------------------------------
  // Targets

  /** What a unit hits: nothing yet, an enemy unit, or the enemy castle. */
  datatype UnitTarget = NoUnitTarget | HitUnit(unit: Unit) | HitCastle(castle: Castle)
  {
    function Units(): set<Unit> {
      if HitUnit? then {unit} else {}
    }

    function Castles(): set<Castle> {
      if HitCastle? then {castle} else {}
    }
  }

  /** What an army fights: nothing, an enemy army, or the enemy castle. */
  datatype ArmyTarget = NoArmyTarget | FightArmy(army: Army) | SiegeCastle(castle: Castle)
  {
    function Armies(): set<Army> {
      if FightArmy? then {army} else {}
    }

    function Castles(): set<Castle> {
      if SiegeCastle? then {castle} else {}
    }
  }

  /** The units of a list, as a set (a frame). */
  function Members(us: seq<Unit>): set<Unit> {
    set u | u in us
  }

  // ---------------------------------------------------------------------
  // Units

  /** A soldier: health that is damaged and regenerated, the stats it was
      spawned with, and an attack-rate accumulator. */
  class Unit {
    var hp: real
    const maxHp: real
    const dmg: real
    const speed: real
    const attackSpeed: real
    const regen: real
    const goldReward: int
    var attackRate: real
    var target: UnitTarget

    /** Unit.__init__: full health, no target, and the accumulator at
        max(ATTACK_RATE, attack speed) so that a fresh unit hits at once. */
    constructor (hp: real, dmg: real, speed: real, attackSpeed: real, regen: real, goldReward: int)
      ensures this.hp == hp && maxHp == hp && this.dmg == dmg && this.speed == speed
      ensures this.attackSpeed == attackSpeed && this.regen == regen && this.goldReward == goldReward
      ensures attackRate == StartRate(attackSpeed) && attackRate >= ATTACK_RATE
      ensures target == NoUnitTarget
    {
      this.hp := hp;
      maxHp := hp;
      this.dmg := dmg;
      this.speed := speed;
      this.attackSpeed := attackSpeed;
      this.regen := regen;
      this.goldReward := goldReward;
      attackRate := StartRate(attackSpeed);
      target := NoUnitTarget;
    }

    /** The health of what the unit targets (zero when it has no target). */
    function TargetHp(): real
      reads this, target.Units()`hp, target.Castles()`hp
    {
      match target
      case NoUnitTarget => 0.0
      case HitUnit(u) => u.hp
      case HitCastle(c) => c.hp
    }

    /** Unit.has_target: a target whose health is not zero; as health never
        goes below zero, that is a target with health left. */
    predicate HasTarget(): (b: bool)
      reads this, target.Units()`hp, target.Castles()`hp
      ensures TargetHp() >= 0.0 ==> (b <==> TargetHp() > 0.0)
    {
      target != NoUnitTarget && TargetHp() != 0.0
    }

    /** The units Army.refresh_units_target gives a new target: those
        without a live target that are not aiming at a castle. */
    predicate NeedsNewTarget()
      reads this, target.Units()`hp, target.Castles()`hp
    {
      !HasTarget() && !target.HitCastle?
    }

    /** Unit.get_damage (GameObject.get_damage). */
    method GetDamage(damage: real)
      modifies this`hp
      ensures hp == AfterDamage(old(hp), damage)
    {
      hp := hp - damage;
      if hp < 0.0 {
        hp := 0.0;
      }
    }

    /** Unit.regenerate (GameObject.regenerate). */
    method Regenerate()
      modifies this`hp
      ensures hp == AfterRegen(old(hp), maxHp, regen)
    {
      if hp < maxHp {
        hp := hp + regen;
        if hp > maxHp {
          hp := maxHp;
        }
      }
    }

    /** Unit.attack: while the accumulator holds ATTACK_RATE, hit the target
        and spend ATTACK_RATE; then (the loop's else branch, reached on every
        call) add the attack speed. With no target and a full accumulator the
        first hit dereferences None: `ok` is false and nothing has changed. */
    method Attack() returns (ok: bool)
      modifies this`attackRate, target.Units()`hp, target.Castles()`hp
      ensures ok <==> !(target == NoUnitTarget && old(attackRate) >= ATTACK_RATE)
      ensures !ok ==> attackRate == old(attackRate)
      ensures ok ==> attackRate == RateAfterAttack(old(attackRate), attackSpeed)
      ensures ok && target.HitUnit? ==>
        target.unit.hp == DamagedTimes(old(target.unit.hp), dmg, Hits(old(attackRate)))
      ensures ok && target.HitCastle? ==>
        target.castle.hp == DamagedTimes(old(target.castle.hp), CastleDamageTaken(dmg), Hits(old(attackRate)))
    {
      if target == NoUnitTarget && attackRate >= ATTACK_RATE {
        return false;
      }
      ghost var k: nat := 0;
      while attackRate >= ATTACK_RATE
        invariant attackRate == old(attackRate) - ATTACK_RATE * k as real
        invariant Hits(old(attackRate)) == k + Hits(attackRate)
        invariant target.HitUnit? ==> target.unit.hp == DamagedTimes(old(target.unit.hp), dmg, k)
        invariant target.HitCastle? ==>
          target.castle.hp == DamagedTimes(old(target.castle.hp), CastleDamageTaken(dmg), k)
        decreases Hits(attackRate)
      {
        match target {
          case HitUnit(u) => u.GetDamage(dmg);
          case HitCastle(c) => c.GetDamage(dmg);
        }
        assert Hits(attackRate) == 1 + Hits(attackRate - ATTACK_RATE);
        attackRate := attackRate - ATTACK_RATE;
        k := k + 1;
      }
      attackRate := attackRate + attackSpeed;
      ok := true;
    }

    /** Unit.refresh_attack_rate: back to max(ATTACK_RATE, attack speed). */
    method RefreshAttackRate()
      modifies this`attackRate
      ensures attackRate == StartRate(attackSpeed)
    {
      attackRate := if ATTACK_RATE > attackSpeed then ATTACK_RATE else attackSpeed;
    }
  }

  // ---------------------------------------------------------------------
  // Castles

  /** A player's castle: it takes mitigated damage, regenerates, and hits
      every unit of an enemy army standing on or next to it. */
  class Castle {
    var hp: real
    var maxHp: real
    const position: int
    var dmg: real
    var regen: real
    var income: int
    const direction: int
    var target: Army?

    /** Castle.__init__: the `regen` argument is ignored and regeneration
        starts at zero. */
    constructor (hp: real, dmg: real, regen: real, position: int, direction: int)
      ensures this.hp == hp && maxHp == hp && this.dmg == dmg && this.regen == 0.0
      ensures this.position == position && this.direction == direction
      ensures income == 0 && target == null
    {
      this.hp := hp;
      maxHp := hp;
      this.position := position;
      this.dmg := dmg;
      this.regen := 0.0;
      income := 0;
      this.direction := direction;
      target := null;
    }

    /** Castle.get_damage: a tenth of the damage, or one point when that is
        zero, taken off and clamped at zero. */
    method GetDamage(damage: real)
      modifies this`hp
      ensures hp == AfterDamage(old(hp), CastleDamageTaken(damage))
    {
      var d := damage * CASTLE_RECEIVE_DAMAGE;
      if d == 0.0 {
        d := 1.0;
      }
      hp := hp - d;
      if hp < 0.0 {
        hp := 0.0;
      }
    }

    /** Castle.regenerate (GameObject.regenerate). */
    method Regenerate()
      modifies this`hp
      ensures hp == AfterRegen(old(hp), maxHp, regen)
    {
      if hp < maxHp {
        hp := hp + regen;
        if hp > maxHp {
          hp := maxHp;
        }
      }
    }

    /** Castle.has_target: any target at all, alive or not. */
    predicate HasTarget()
      reads this
    {
      target != null
    }

    /** The army the castle's move attacks: the target it holds, or else the
        one get_target finds, on the castle's cell or the cell in front; null
        when there is none. */
    function Aim(enemyArmies: seq<Army>): (a: Army?)
      reads this, Fleet(enemyArmies)`position
      ensures HasTarget() ==> a == target
      ensures !HasTarget() && a != null ==>
        a in enemyArmies && (a.position == position || a.position == position + direction)
      ensures !HasTarget() && a == null ==> forall j :: 0 <= j < |enemyArmies| ==>
        enemyArmies[j].position != position && enemyArmies[j].position != position + direction
    {
      if HasTarget() then target
      else if EnemyArmyAt(position, enemyArmies) != null then EnemyArmyAt(position, enemyArmies)
      else EnemyArmyAt(position + direction, enemyArmies)
    }

    /** Castle.get_target: the first enemy army on the castle's cell, else
        the first on the cell in front of it; the answer is whether one was
        found. */
    method GetTarget(enemyArmies: seq<Army>) returns (found: bool)
      modifies this`target
      ensures target == if old(EnemyArmyAt(position, enemyArmies)) != null
                        then old(EnemyArmyAt(position, enemyArmies))
                        else old(EnemyArmyAt(position + direction, enemyArmies))
      ensures found <==> target != null
    {
      target := EnemyArmyAt(position, enemyArmies);
      if target == null {
        target := EnemyArmyAt(position + direction, enemyArmies);
      }
      found := target != null;
    }

    /** Castle.attack: every unit of the target army, dead or alive, takes
        the castle's damage (a unit listed twice, twice); a target left with
        no health is dropped. */
    method Attack()
      modifies this`target, (if target == null then {} else Members(target.units))`hp
      ensures old(target) == null ==> target == null
      ensures old(target) != null ==> forall u :: u in old(target.units) ==>
        u.hp == DamagedTimes(old(u.hp), dmg, multiset(old(target.units))[u])
      ensures old(target) != null ==> target == if old(target).Hp() == 0.0 then null else old(target)
    {
      var a := target;
      if a != null {
        HitEach(a.units, dmg);
        if a.Hp() == 0.0 {
          target := null;
        }
      }
    }
  }

  /** The loop of Castle.attack: each listed unit takes `damage` once per
      time it is listed. */
  method HitEach(us: seq<Unit>, damage: real)
    modifies Members(us)`hp
    ensures forall u :: u in us ==> u.hp == DamagedTimes(old(u.hp), damage, multiset(us)[u])
  {
    var i := 0;
    while i < |us|
      invariant 0 <= i <= |us|
      invariant forall u :: u in us ==> u.hp == DamagedTimes(old(u.hp), damage, multiset(us[..i])[u])
    {
      var u := us[i];
      label before:
      u.GetDamage(damage);
      assert us[..i + 1] == us[..i] + [u];
      forall w | w in us
        ensures w.hp == DamagedTimes(old(w.hp), damage, multiset(us[..i + 1])[w])
      {
        if w != u {
          assert w.hp == old@before(w.hp);
          assert multiset(us[..i + 1])[w] == multiset(us[..i])[w];
        }
      }
      i := i + 1;
    }
    assert us[..i] == us;
  }

  // ---------------------------------------------------------------------
  // Looking up armies

  /** The armies of a list, as a set (a frame). */
  function Fleet(armies: seq<Army>): set<Army> {
    set a | a in armies
  }

  /** The index of the first army of the list standing on `position`, or
      the length of the list when none does. */
  function FirstAt(position: int, armies: seq<Army>): (k: nat)
    reads Fleet(armies)`position
    ensures k <= |armies|
    ensures forall j :: 0 <= j < k ==> armies[j].position != position
    ensures k < |armies| ==> armies[k].position == position
    decreases |armies|
  {
    if |armies| == 0 then 0
    else if armies[0].position == position then 0
    else 1 + FirstAt(position, armies[1..])
  }

  /** get_enemy_army_in_position: the first army on `position`, or null. */
  function EnemyArmyAt(position: int, armies: seq<Army>): (r: Army?)
    reads Fleet(armies)`position
    ensures r == null <==> forall j :: 0 <= j < |armies| ==> armies[j].position != position
    ensures r != null ==> exists k :: 0 <= k < |armies| && r == armies[k] && r.position == position &&
                                      forall j :: 0 <= j < k ==> armies[j].position != position
  {
    var k := FirstAt(position, armies);
    if k < |armies| then armies[k] else null
  }

  /** The summed health of a list of units (Army.hp). */
  function SumHp(us: seq<Unit>): (s: real)
    reads Members(us)`hp
    ensures (forall i :: 0 <= i < |us| ==> us[i].hp >= 0.0) ==>
      s >= 0.0 && (s == 0.0 <==> forall i :: 0 <= i < |us| ==> us[i].hp == 0.0)
  {
    if |us| == 0 then 0.0 else SumHp(us[..|us| - 1]) + us[|us| - 1].hp
  }

  /** The units of a list with health above zero, in their order. */
  function Alive(us: seq<Unit>): seq<Unit>
    reads Members(us)`hp
  {
    if |us| == 0 then []
    else
      var last := us[|us| - 1];
      Alive(us[..|us| - 1]) + (if last.hp > 0.0 then [last] else [])
  }

  /** How many units of a list have no health left. */
  function DeadCount(us: seq<Unit>): nat
    reads Members(us)`hp
  {
    if |us| == 0 then 0
    else DeadCount(us[..|us| - 1]) + (if us[|us| - 1].hp > 0.0 then 0 else 1)
  }

  /** The summed kill rewards of the units of a list with no health left. */
  function DeadReward(us: seq<Unit>): int
    reads Members(us)`hp
  {
    if |us| == 0 then 0
    else
      var last := us[|us| - 1];
      DeadReward(us[..|us| - 1]) + (if last.hp > 0.0 then 0 else last.goldReward)
  }

  /** A unit is kept by Alive exactly when it is listed and has health. */
  lemma {:induction false} AliveMembers(us: seq<Unit>, u: Unit)
    ensures u in Alive(us) <==> u in us && u.hp > 0.0
  {
    if |us| > 0 {
      AliveMembers(us[..|us| - 1], u);
      assert us == us[..|us| - 1] + [us[|us| - 1]];
    }
  }

  /** Every listed unit is either kept alive or counted dead. */
  lemma {:induction false} AliveDeadPartition(us: seq<Unit>)
    ensures |Alive(us)| + DeadCount(us) == |us|
  {
    if |us| > 0 {
      AliveDeadPartition(us[..|us| - 1]);
    }
  }

  // ---------------------------------------------------------------------
  // Armies

  /** A group of units walking along the road, fighting together. */
  class Army {
    var position: int
    const movement: int
    var units: seq<Unit>
    const speed: int
    var target: ArmyTarget
    const enemyCastle: Castle
    const enemy: Player

    /** Army.__init__: a copy of the units; speed one with units, zero
        without. */
    constructor (position: int, movement: int, units: seq<Unit>, enemyCastle: Castle, enemy: Player)
      ensures this.position == position && this.movement == movement && this.units == units
      ensures speed == (if |units| > 0 then 1 else 0)
      ensures target == NoArmyTarget && this.enemyCastle == enemyCastle && this.enemy == enemy
    {
      this.position := position;
      this.movement := movement;
      this.units := units;
      speed := if |units| > 0 then 1 else 0;
      target := NoArmyTarget;
      this.enemyCastle := enemyCastle;
      this.enemy := enemy;
    }

    /** Army.hp: the summed health of the units. With no negative health
        it is never negative, and it is zero exactly when every unit is
        dead. */
    function Hp(): (h: real)
      reads this`units, Members(units)`hp
      ensures (forall u :: u in units ==> u.hp >= 0.0) ==>
        h >= 0.0 && (h == 0.0 <==> forall u :: u in units ==> u.hp == 0.0)
    {
      SumHp(units)
    }

    /** The health of what the army fights (zero without a target). */
    function TargetHp(): real
      reads this`target, target.Armies()`units, target.Castles()`hp
      reads (if target.FightArmy? then Members(target.army.units) else {})`hp
    {
      match target
      case NoArmyTarget => 0.0
      case FightArmy(a) => a.Hp()
      case SiegeCastle(c) => c.hp
    }

    /** Army.has_target: a target whose health has reached zero is dropped
        first; the answer is whether a target remains. */
    method HasTarget() returns (has: bool)
      modifies this`target
      ensures target == (if old(target) != NoArmyTarget && old(TargetHp()) == 0.0
                         then NoArmyTarget else old(target))
      ensures has <==> target != NoArmyTarget
    {
      if target != NoArmyTarget && TargetHp() == 0.0 {
        target := NoArmyTarget;
      }
      has := target != NoArmyTarget;
    }

    /** Army.move: one step of `movement` times the speed. */
    method Move()
      modifies this`position
      ensures position == old(position) + movement * speed
    {
      position := position + movement * speed;
    }

    /** Army.is_enemy_castle_reachable: the enemy castle is on this cell or
        the next one. */
    predicate IsEnemyCastleReachable()
      reads this`position
    {
      -1 <= position - enemyCastle.position <= 1
    }

    /** Every unit targets a member of `pool` drawn at random; the pool
        includes units that are already dead. random.choice on an empty
        pool raises, which `ok == false` reports (only when there is a unit
        to retarget). */
    method TargetRandomMembers(pool: seq<Unit>, rng: Rng) returns (ok: bool)
      modifies Members(units)`target, rng`used
      ensures ok <==> |units| == 0 || |pool| > 0
      ensures ok ==> forall u :: u in units ==> u.target.HitUnit? && u.target.unit in pool
      ensures ok ==> rng.used == old(rng.used) + |units|
      ensures !ok ==> forall u :: u in units ==> u.target == old(u.target)
    {
      if |units| > 0 && |pool| == 0 {
        return false;
      }
      var i := 0;
      while i < |units|
        invariant 0 <= i <= |units|
        invariant forall u :: u in units[..i] ==> u.target.HitUnit? && u.target.unit in pool
        invariant rng.used == old(rng.used) + i
      {
        var k := rng.Below(|pool|);
        units[i].target := HitUnit(pool[k]);
        assert units[..i + 1] == units[..i] + [units[i]];
        i := i + 1;
      }
      assert units[..i] == units;
      ok := true;
    }

    /** Every unit targets the castle `c`. */
    method TargetCastle(c: Castle)
      modifies Members(units)`target
      ensures forall u :: u in units ==> u.target == HitCastle(c)
    {
      var i := 0;
      while i < |units|
        invariant 0 <= i <= |units|
        invariant forall u :: u in units[..i] ==> u.target == HitCastle(c)
      {
        units[i].target := HitCastle(c);
        assert units[..i + 1] == units[..i] + [units[i]];
        i := i + 1;
      }
      assert units[..i] == units;
    }

    /** The target Army.get_target settles on: the first enemy army on this
        cell, else the first on the next cell, else the enemy castle when
        it is in reach, else none. */
    function TargetFound(enemyArmies: seq<Army>): ArmyTarget
      reads this`position, Fleet(enemyArmies)`position
    {
      if EnemyArmyAt(position, enemyArmies) != null then FightArmy(EnemyArmyAt(position, enemyArmies))
      else if EnemyArmyAt(position + movement, enemyArmies) != null
      then FightArmy(EnemyArmyAt(position + movement, enemyArmies))
      else if IsEnemyCastleReachable() then SiegeCastle(enemyCastle)
      else NoArmyTarget
    }

    /** The search depends on positions only. */
    twostate lemma SearchKept(enemyArmies: seq<Army>)
      requires position == old(position)
      requires forall a :: a in enemyArmies ==> a.position == old(a.position)
      ensures TargetFound(enemyArmies) == old(TargetFound(enemyArmies))
    {
    }

    /** Army.get_target: an enemy army on this very cell (the units keep
        their targets), else one on the next cell (every unit targets a
        random member of it), else the enemy castle when it is in reach
        (every unit targets the castle), else nothing. */
    method GetTarget(enemyArmies: seq<Army>, rng: Rng) returns (found: bool, ok: bool)
      modifies this`target, Members(units)`target, rng`used
      ensures target == old(TargetFound(enemyArmies)) && (found <==> target != NoArmyTarget)
      ensures old(EnemyArmyAt(position, enemyArmies)) != null ==>
        ok && found && target == FightArmy(old(EnemyArmyAt(position, enemyArmies))) &&
        forall u :: u in units ==> u.target == old(u.target)
      ensures old(EnemyArmyAt(position, enemyArmies)) == null &&
              old(EnemyArmyAt(position + movement, enemyArmies)) != null ==>
        var ahead := old(EnemyArmyAt(position + movement, enemyArmies));
        target == FightArmy(ahead) && found &&
        (ok <==> |units| == 0 || |ahead.units| > 0) &&
        (ok ==> forall u :: u in units ==> u.target.HitUnit? && u.target.unit in ahead.units) &&
        (!ok ==> forall u :: u in units ==> u.target == old(u.target))
      ensures old(EnemyArmyAt(position, enemyArmies)) == null &&
              old(EnemyArmyAt(position + movement, enemyArmies)) == null &&
              old(IsEnemyCastleReachable()) ==>
        ok && found && target == SiegeCastle(enemyCastle) &&
        forall u :: u in units ==> u.target == HitCastle(enemyCastle)
      ensures old(EnemyArmyAt(position, enemyArmies)) == null &&
              old(EnemyArmyAt(position + movement, enemyArmies)) == null &&
              !old(IsEnemyCastleReachable()) ==>
        ok && !found && target == NoArmyTarget &&
        forall u :: u in units ==> u.target == old(u.target)
    {
      var here := EnemyArmyAt(position, enemyArmies);
      ok := true;
      if here != null {
        target := FightArmy(here);
      } else {
        var ahead := EnemyArmyAt(position + movement, enemyArmies);
        if ahead != null {
          target := FightArmy(ahead);
          ok := TargetRandomMembers(ahead.units, rng);
        } else if IsEnemyCastleReachable() {
          target := SiegeCastle(enemyCastle);
          TargetCastle(enemyCastle);
        } else {
          target := NoArmyTarget;
        }
      }
      found := target != NoArmyTarget;
    }

    /** Army.copy_target: on joining another army, the units aim at a random
        member of that army's enemy army, or at its castle; with no target
        they keep their own. */
    method CopyTarget(other: ArmyTarget, rng: Rng) returns (ok: bool)
      modifies Members(units)`target, rng`used
      ensures other.FightArmy? ==> (ok <==> |units| == 0 || |other.army.units| > 0)
      ensures other.FightArmy? && ok ==>
        forall u :: u in units ==> u.target.HitUnit? && u.target.unit in other.army.units
      ensures other.SiegeCastle? ==> ok && forall u :: u in units ==> u.target == HitCastle(other.castle)
      ensures other == NoArmyTarget ==> ok && forall u :: u in units ==> u.target == old(u.target)
      ensures !ok ==> forall u :: u in units ==> u.target == old(u.target)
    {
      ok := true;
      match other {
        case FightArmy(a) =>
          ok := TargetRandomMembers(a.units, rng);
        case SiegeCastle(c) =>
          TargetCastle(c);
        case NoArmyTarget =>
      }
    }

    /** Army.refresh_units_target: when the army has a target, each unit
        without a live target that is not aiming at a castle gets a random
        member of the target army (dead members included). When that target
        is a castle the lookup of its units raises, and so does a draw from
        an empty army: `ok` is false. */
    method RefreshUnitsTarget(rng: Rng) returns (ok: bool)
      modifies Members(units)`target, rng`used
      ensures ok <==> target == NoArmyTarget ||
                      (forall u :: u in units ==> !old(u.NeedsNewTarget())) ||
                      (target.FightArmy? && |target.army.units| > 0)
      ensures ok && target.FightArmy? ==> forall u :: u in units ==>
        if old(u.NeedsNewTarget()) then u.target.HitUnit? && u.target.unit in target.army.units
        else u.target == old(u.target)
      ensures ok && !target.FightArmy? ==> forall u :: u in units ==> u.target == old(u.target)
      ensures forall u :: u in units ==>
        (u.target == old(u.target) ||
         (target.FightArmy? && u.target.HitUnit? && u.target.unit in target.army.units))
    {
      if target == NoArmyTarget {
        return true;
      }
      var i := 0;
      while i < |units|
        invariant 0 <= i <= |units|
        invariant forall u :: u in units ==>
          u.target == old(u.target) ||
          (old(u.NeedsNewTarget()) && target.FightArmy? && u.target.HitUnit? && u.target.unit in target.army.units)
        invariant forall u :: u in units[..i] ==>
          !old(u.NeedsNewTarget()) || (target.FightArmy? && u.target.HitUnit? && u.target.unit in target.army.units)
      {
        var u := units[i];
        if u.NeedsNewTarget() {
          if target.SiegeCastle? || |target.army.units| == 0 {
            return false;
          }
          var k := rng.Below(|target.army.units|);
          u.target := HitUnit(target.army.units[k]);
        }
        assert units[..i + 1] == units[..i] + [u];
        i := i + 1;
      }
      assert units[..i] == units;
      ok := true;
    }

    /** Army.refresh_attack_rate: every unit's accumulator is reset. */
    method RefreshAttackRate()
      modifies Members(units)`attackRate
      ensures forall u :: u in units ==> u.attackRate == StartRate(u.attackSpeed)
    {
      var i := 0;
      while i < |units|
        invariant 0 <= i <= |units|
        invariant forall u :: u in units[..i] ==> u.attackRate == StartRate(u.attackSpeed)
      {
        units[i].RefreshAttackRate();
        assert units[..i + 1] == units[..i] + [units[i]];
        i := i + 1;
      }
      assert units[..i] == units;
    }

    /** Army.give_gold_reward: the enemy player is paid for a kill. */
    method GiveGoldReward(amount: int)
      modifies enemy`gold, enemy`goldEarned
      ensures enemy.gold == old(enemy.gold) + amount
      ensures enemy.goldEarned == old(enemy.goldEarned) + amount
    {
      enemy.AddGold(amount);
    }

    /** Army.remove_dead_units: the units with health left stay, in order;
        each dead one pays its reward to the enemy, who is also credited
        with the kills; the number of dead is returned. */
    method RemoveDeadUnits() returns (dead: nat)
      modifies this`units, enemy`gold, enemy`goldEarned, enemy`kills
      ensures units == old(Alive(units))
      ensures forall u :: u in units <==> u in old(units) && u.hp > 0.0
      ensures dead == old(DeadCount(units))
      ensures enemy.gold == old(enemy.gold) + old(DeadReward(units))
      ensures enemy.goldEarned == old(enemy.goldEarned) + old(DeadReward(units))
      ensures enemy.kills == old(enemy.kills) + dead
    {
      var alive: seq<Unit> := [];
      dead := 0;
      var i := 0;
      while i < |units|
        invariant 0 <= i <= |units| && units == old(units)
        invariant alive == old(Alive(units[..i])) && dead == old(DeadCount(units[..i]))
        invariant forall u :: u in alive <==> u in units[..i] && u.hp > 0.0
        invariant enemy.gold == old(enemy.gold) + old(DeadReward(units[..i]))
        invariant enemy.goldEarned == old(enemy.goldEarned) + old(DeadReward(units[..i]))
        invariant enemy.kills == old(enemy.kills)
      {
        var u := units[i];
        assert units[..i + 1] == units[..i] + [u];
        assert u.hp == old(u.hp);
        if u.hp > 0.0 {
          alive := alive + [u];
        } else {
          GiveGoldReward(u.goldReward);
          dead := dead + 1;
        }
        i := i + 1;
      }
      assert units[..i] == units;
      units := alive;
      enemy.kills := enemy.kills + dead;
    }

    /** Army.regen_units: every unit regenerates once per time it is
        listed. */
    method RegenUnits()
      modifies Members(units)`hp
      ensures forall u :: u in units ==>
        u.hp == RegenedTimes(old(u.hp), u.maxHp, u.regen, multiset(units)[u])
    {
      var i := 0;
      while i < |units|
        invariant 0 <= i <= |units|
        invariant forall u :: u in units ==>
          u.hp == RegenedTimes(old(u.hp), u.maxHp, u.regen, multiset(units[..i])[u])
      {
        var u := units[i];
        label before:
        u.Regenerate();
        assert units[..i + 1] == units[..i] + [u];
        forall w | w in units
          ensures w.hp == RegenedTimes(old(w.hp), w.maxHp, w.regen, multiset(units[..i + 1])[w])
        {
          if w != u {
            assert w.hp == old@before(w.hp);
            assert multiset(units[..i + 1])[w] == multiset(units[..i])[w];
          }
        }
        i := i + 1;
      }
      assert units[..i] == units;
    }
  }

  /** An army of `side` that has walked `k` cells from its own castle
      toward the enemy's finds the enemy castle reachable exactly when it
      is at most one cell short of it: after DISTANCE steps or more. */
  lemma ReachableAfterSteps(army: Army, side: Side, k: int)
    requires army.enemyCastle.position == StartPosition(side.Enemy())
    requires army.position == StartPosition(side) + k * Movement(side)
    requires 0 <= k <= DISTANCE + 1
    ensures army.IsEnemyCastleReachable() <==> k >= DISTANCE
  {
    assert army.position - army.enemyCastle.position == (k - (DISTANCE + 1)) * Movement(side);
  }

  // ---------------------------------------------------------------------
  // Players

  /** One value per unit attribute: the `unit_<attr>` and
      `unit_<attr>_lvl` fields that the program reaches by name. */
  datatype PerUnitAttr<T> = PerUnitAttr(hp: T, dmg: T, speed: T, attackSpeed: T, regen: T)
  {
    function Get(attr: UnitAttr): T {
      match attr
      case Hp => hp
      case Dmg => dmg
      case Speed => speed
      case AttackSpeed => attackSpeed
      case Regen => regen
    }

    /** The record with one attribute replaced and the others kept. */
    function With(attr: UnitAttr, v: T): (r: PerUnitAttr<T>)
      ensures r.Get(attr) == v
      ensures forall b: UnitAttr :: b != attr ==> r.Get(b) == Get(b)
    {
      match attr
      case Hp => this.(hp := v)
      case Dmg => this.(dmg := v)
      case Speed => this.(speed := v)
      case AttackSpeed => this.(attackSpeed := v)
      case Regen => this.(regen := v)
    }
  }

  /** One value per castle attribute: the `castle_<attr>` and
      `castle_<attr>_lvl` fields of a player. */
  datatype PerCastleAttr<T> = PerCastleAttr(income: T, dmg: T, regen: T, hp: T)
  {
    function Get(attr: CastleAttr): T {
      match attr
      case Income => income
      case Dmg => dmg
      case Regen => regen
      case Hp => hp
    }

    /** The record with one attribute replaced and the others kept. */
    function With(attr: CastleAttr, v: T): (r: PerCastleAttr<T>)
      ensures r.Get(attr) == v
      ensures forall b: CastleAttr :: b != attr ==> r.Get(b) == Get(b)
    {
      match attr
      case Income => this.(income := v)
      case Dmg => this.(dmg := v)
      case Regen => this.(regen := v)
      case Hp => this.(hp := v)
    }
  }

  /** How many purchases a command asks for: a number, or 'max'. */
  datatype Count = Times(n: nat) | Max

  /** The number of purchases carried out: 'max' buys as many as the gold
      pays for (floor division, as Python's //). */
  function Resolve(count: Count, gold: int, price: nat): int
    requires price > 0
  {
    match count
    case Times(n) => n
    case Max => gold / price
  }

  /** A numeric count the gold cannot pay for is refused; 'max' is never
      refused. */
  predicate Refused(count: Count, gold: int, price: nat) {
    count.Times? && gold < price * count.n
  }

  /** The number of units Player.spawn_units creates: one per spawn, in
      turn, while the gold still pays the unit price. */
  function SpawnCount(spawns: int, gold: int, price: int): (n: nat)
    ensures spawns <= 0 ==> n == 0
    ensures n <= (if spawns < 0 then 0 else spawns)
    decreases spawns
  {
    if spawns <= 0 || gold < price then 0 else 1 + SpawnCount(spawns - 1, gold - price, price)
  }

  /** With a non-negative price, the units spawned are paid for out of the
      gold, and the loop stops early only when the gold left is below the
      price: every spawn produces a unit, or the gold runs out. */
  lemma {:induction false} SpawnCountPaid(spawns: nat, gold: int, price: nat)
    ensures price * SpawnCount(spawns, gold, price) <= gold || SpawnCount(spawns, gold, price) == 0
    ensures SpawnCount(spawns, gold, price) == spawns ||
            gold - price * SpawnCount(spawns, gold, price) < price
  {
    if spawns > 0 && gold >= price {
      SpawnCountPaid(spawns - 1, gold - price, price);
      var n := SpawnCount(spawns - 1, gold - price, price);
      assert price * (n + 1) == price * n + price;
    }
  }

  /** With a positive price and no debt the number of units spawned is
      min(spawns, gold // price). */
  lemma SpawnCountIsMin(spawns: nat, gold: nat, price: nat)
    requires price > 0
    ensures SpawnCount(spawns, gold, price) == if spawns < gold / price then spawns else gold / price
    ensures gold - price * SpawnCount(spawns, gold, price) >= 0
  {
    var n := SpawnCount(spawns, gold, price);
    SpawnCountPaid(spawns, gold, price);
    var q := gold / price;
    assert gold == price * q + gold % price;
    if n < spawns {
      assert price * n <= gold < price * n + price;
      QuotientUnique(gold, price, n);
    } else {
      assert n == spawns;
      assert price * n <= gold;
      QuotientAtLeast(gold, price, n);
    }
  }

  /** The only n with price * n <= gold < price * (n + 1) is gold / price. */
  lemma QuotientUnique(gold: nat, price: nat, n: nat)
    requires price > 0 && price * n <= gold < price * n + price
    ensures gold / price == n
  {
    var q := gold / price;
    assert gold == price * q + gold % price && gold % price < price;
    if q < n {
      assert price * (q + 1) == price * q + price;
      MulMonotone(price, q + 1, n);
    }
    assert price * q < price * (n + 1);
    MulCancel(price, q, n + 1);
  }

  /** A multiple of the price within the gold is at most gold / price. */
  lemma QuotientAtLeast(gold: nat, price: nat, n: nat)
    requires price > 0 && price * n <= gold
    ensures n <= gold / price
  {
    var q := gold / price;
    assert gold == price * q + gold % price && gold % price < price;
    if q < n {
      assert price * (q + 1) == price * q + price;
      MulMonotone(price, q + 1, n);
    }
  }

  lemma MulCancel(p: nat, a: nat, b: nat)
    requires p > 0 && p * a < p * b
    ensures a < b
  {
    if a >= b {
      MulMonotone(p, b, a);
    }
  }

  lemma MulMonotone(p: nat, a: nat, b: nat)
    requires a <= b
    ensures p * a <= p * b
  {
    assert p * b == p * a + p * (b - a);
  }

  /** list.remove: the list without the first occurrence of `x`. */
  function RemoveFirst<T(==)>(s: seq<T>, x: T): (r: seq<T>)
    ensures x in s ==> |r| == |s| - 1 && multiset(r) == multiset(s) - multiset{x}
    ensures x !in s ==> r == s
    ensures forall y :: y in r ==> y in s
  {
    if |s| == 0 then s
    else if s[0] == x then
      assert s == [s[0]] + s[1..];
      s[1..]
    else
      var rest := RemoveFirst(s[1..], x);
      assert s == [s[0]] + s[1..];
      [s[0]] + rest
  }

  /** The index of the first army of the list other than `army` standing on
      its cell, or the length of the list when there is none. */
  function FirstCollision(army: Army, armies: seq<Army>): (k: nat)
    reads army`position, Fleet(armies)`position
    ensures k <= |armies|
    ensures forall j :: 0 <= j < k ==> armies[j] == army || armies[j].position != army.position
    ensures k < |armies| ==> armies[k] != army && armies[k].position == army.position
    decreases |armies|
  {
    if |armies| == 0 then 0
    else if armies[0] != army && armies[0].position == army.position then 0
    else 1 + FirstCollision(army, armies[1..])
  }

  /** The armies of a list that still have units, in their order. */
  function WithUnits(armies: seq<Army>): (r: seq<Army>)
    reads Fleet(armies)`units
  {
    if |armies| == 0 then []
    else (if |armies[0].units| > 0 then [armies[0]] else []) + WithUnits(armies[1..])
  }

  /** An army survives remove_dead_armies exactly when it was listed and
      has units left. */
  lemma {:induction false} WithUnitsMembers(armies: seq<Army>, a: Army)
    ensures a in WithUnits(armies) <==> a in armies && |a.units| > 0
    decreases |armies|
  {
    if |armies| > 0 {
      WithUnitsMembers(armies[1..], a);
      assert armies == [armies[0]] + armies[1..];
    }
  }

  /** Removing the empty armies never lengthens the list. */
  lemma {:induction false} WithUnitsShorter(armies: seq<Army>)
    ensures |WithUnits(armies)| <= |armies|
    decreases |armies|
  {
    if |armies| > 0 {
      WithUnitsShorter(armies[1..]);
    }
  }

  /** A purchase that is not refused never overdraws gold that was not
      negative, and 'max' leaves less than one more purchase's worth. */
  lemma PurchaseKeepsGold(count: Count, gold: int, price: nat)
    requires price > 0 && gold >= 0 && !Refused(count, gold, price)
    ensures 0 <= gold - price * Resolve(count, gold, price)
    ensures count == Max ==> gold - price * Resolve(count, gold, price) == gold % price < price
  {
    if count == Max {
      assert gold == price * (gold / price) + gold % price;
    }
  }

  /** A side of the game: gold and income, spawns, the armies on the road,
      and the levels bought for units and for the castle. */
  class Player {
    var gold: int
    var goldEarned: int
    var income: int
    var spawns: int
    var kills: int
    var deaths: int
    const castle: Castle
    var armies: seq<Army>
    var unitStat: PerUnitAttr<real>
    var unitLvl: PerUnitAttr<int>
    var unitPrice: int
    var unitGoldReward: int
    var castleStat: PerCastleAttr<int>
    var castleLvl: PerCastleAttr<int>

    /** Player.__init__: starting gold, no spawns, no armies, base unit
        stats and no levels. */
    constructor (castle: Castle)
      ensures this.castle == castle
      ensures gold == GOLD && goldEarned == GOLD && income == 0
      ensures spawns == 0 && kills == 0 && deaths == 0 && armies == []
      ensures unitStat == PerUnitAttr(UNIT_HP, UNIT_DMG, UNIT_SPD, UNIT_ATSPD, UNIT_REGEN)
      ensures unitLvl == PerUnitAttr(0, 0, 0, 0, 0)
      ensures unitPrice == UNIT_PRICE && unitGoldReward == REWARD_FOR_KILLING
      ensures castleStat == PerCastleAttr(0, 0, 0, CASTLE_HP_POINTS)
      ensures castleLvl == PerCastleAttr(0, 0, 0, 0)
    {
      this.castle := castle;
      gold := GOLD;
      goldEarned := GOLD;
      income := 0;
      spawns := 0;
      kills := 0;
      deaths := 0;
      armies := [];
      unitStat := PerUnitAttr(UNIT_HP, UNIT_DMG, UNIT_SPD, UNIT_ATSPD, UNIT_REGEN);
      unitLvl := PerUnitAttr(0, 0, 0, 0, 0);
      unitPrice := UNIT_PRICE;
      unitGoldReward := REWARD_FOR_KILLING;
      castleStat := PerCastleAttr(0, 0, 0, CASTLE_HP_POINTS);
      castleLvl := PerCastleAttr(0, 0, 0, 0);
    }

    /** Player.add_gold: both the purse and the total earned grow. */
    method AddGold(amount: int)
      modifies this`gold, this`goldEarned
      ensures gold == old(gold) + amount && goldEarned == old(goldEarned) + amount
    {
      gold := gold + amount;
      goldEarned := goldEarned + amount;
    }
    /** A unit as spawn_units creates it: the player's current unit stats
        and kill reward, no target, and a full accumulator. */
    ghost predicate Spawned(u: Unit)
      reads this, u
    {
      u.hp == unitStat.hp && u.maxHp == unitStat.hp && u.dmg == unitStat.dmg &&
      u.speed == unitStat.speed && u.attackSpeed == unitStat.attackSpeed &&
      u.regen == unitStat.regen && u.goldReward == unitGoldReward &&
      u.target == NoUnitTarget && u.attackRate == StartRate(unitStat.attackSpeed)
    }

    /** Player.spawn_units: one unit per spawn with the player's current
        unit stats, each paid for in turn; the first spawn the gold does not
        pay for ends the loop. */
    method SpawnUnits() returns (units: seq<Unit>)
      modifies this`gold
      ensures |units| == SpawnCount(spawns, old(gold), unitPrice)
      ensures gold == old(gold) - unitPrice * |units|
      ensures forall i, j :: 0 <= i < j < |units| ==> units[i] != units[j]
      ensures forall u :: u in units ==> fresh(u) && Spawned(u)
    {
      units := [];
      var k := 0;
      while k < spawns
        invariant 0 <= k && (spawns > 0 ==> k <= spawns) && |units| == k
        invariant gold == old(gold) - unitPrice * k
        invariant SpawnCount(spawns, old(gold), unitPrice) == k + SpawnCount(spawns - k, gold, unitPrice)
        invariant forall i, j :: 0 <= i < j < |units| ==> units[i] != units[j]
        invariant forall u :: u in units ==> fresh(u) && Spawned(u)
      {
        if gold < unitPrice {
          break;
        }
        var u := new Unit(unitStat.hp, unitStat.dmg, unitStat.speed, unitStat.attackSpeed,
                          unitStat.regen, unitGoldReward);
        units := units + [u];
        gold := gold - unitPrice;
        k := k + 1;
      }
    }

    /** Player.union_armies: the moving army's units aim like the army they
        join, are appended to it, and the moving army leaves the list. A
        failed random pick (a target army with no units) raises before
        anything moves. */
    method UnionArmies(army1: Army, army2: Army, rng: Rng) returns (ok: bool)
      requires army1 != army2 && army1 in armies
      modifies Members(army1.units)`target, army2`units, this`armies, rng`used
      ensures ok <==> !army2.target.FightArmy? || |army1.units| == 0 || old(|army2.target.army.units|) > 0
      ensures ok ==> army2.units == old(army2.units) + army1.units
      ensures ok ==> armies == RemoveFirst(old(armies), army1)
      ensures ok ==> |armies| == |old(armies)| - 1
      ensures ok && army2.target.FightArmy? ==>
        forall u :: u in army1.units ==> u.target.HitUnit? && u.target.unit in old(army2.target.army.units)
      ensures ok && army2.target.SiegeCastle? ==>
        forall u :: u in army1.units ==> u.target == HitCastle(army2.target.castle)
      ensures !ok ==> army2.units == old(army2.units) && armies == old(armies)
      ensures !ok || army2.target == NoArmyTarget ==>
        forall u :: u in army1.units ==> u.target == old(u.target)
    {
      ok := army1.CopyTarget(army2.target, rng);
      if !ok {
        return;
      }
      var i := 0;
      while i < |army1.units|
        invariant 0 <= i <= |army1.units|
        invariant army2.units == old(army2.units) + army1.units[..i]
        modifies army2`units
      {
        army2.units := army2.units + [army1.units[i]];
        assert army1.units[..i + 1] == army1.units[..i] + [army1.units[i]];
        i := i + 1;
      }
      assert army1.units[..i] == army1.units;
      armies := RemoveFirst(armies, army1);
    }

    /** Player.check_armies_collision: the army joins the first other army
        of the player standing on its cell, if there is one. */
    method CheckArmiesCollision(army: Army, rng: Rng) returns (merged: bool, ok: bool)
      requires army in armies
      modifies Members(army.units)`target, Fleet(armies)`units, this`armies, rng`used
      ensures merged <==> old(FirstCollision(army, armies)) < |old(armies)|
      ensures !merged ==> ok && armies == old(armies)
      ensures !merged ==> forall a :: a in armies ==> a.units == old(a.units)
      ensures merged && ok ==>
        var other := old(armies)[old(FirstCollision(army, armies))];
        other.units == old(other.units) + army.units &&
        armies == RemoveFirst(old(armies), army)
      ensures merged && !ok ==> armies == old(armies)
      ensures forall a :: a in old(armies) ==>
        (a.units == old(a.units) ||
         (merged && ok && a == old(armies)[old(FirstCollision(army, armies))] &&
          a.units == old(a.units) + army.units))
      ensures merged ==>
        var other := old(armies)[old(FirstCollision(army, armies))];
        forall u :: u in army.units ==>
          (u.target == old(u.target) ||
           (other.target.FightArmy? && u.target.HitUnit? && u.target.unit in old(other.target.army.units)) ||
           (other.target.SiegeCastle? && u.target == HitCastle(other.target.castle)))
      ensures !merged ==> forall u :: u in army.units ==> u.target == old(u.target)
    {
      var k := FirstCollision(army, armies);
      if k < |armies| {
        merged := true;
        ok := UnionArmies(army, armies[k], rng);
      } else {
        merged := false;
        ok := true;
      }
    }

    /** Player.remove_dead_armies: only the armies with units stay. */
    method RemoveDeadArmies()
      modifies this`armies
      ensures armies == old(WithUnits(armies))
      ensures forall a :: a in armies <==> a in old(armies) && |a.units| > 0
    {
      forall a: Army ensures a in WithUnits(armies) <==> a in armies && |a.units| > 0 {
        WithUnitsMembers(armies, a);
      }
      armies := WithUnits(armies);
    }

    /** Player.build_spawn: buy `count` spawns at SPAWN_COST each, or as
        many as the gold pays for; a numeric count the gold cannot pay for
        changes nothing. */
    method BuildSpawn(count: Count)
      modifies this`spawns, this`gold
      ensures Refused(count, old(gold), SPAWN_COST) ==> spawns == old(spawns) && gold == old(gold)
      ensures !Refused(count, old(gold), SPAWN_COST) ==>
        var c := Resolve(count, old(gold), SPAWN_COST);
        spawns == old(spawns) + c && gold == old(gold) - SPAWN_COST * c
    {
      var c: int;
      match count {
        case Max =>
          c := gold / SPAWN_COST;
        case Times(n) =>
          if gold < SPAWN_COST * n {
            return;
          }
          c := n;
      }
      spawns := spawns + c;
      gold := gold - SPAWN_COST * c;
    }

    /** Player.upgrade_units_attr: `count` levels of one unit attribute (or
        as many as the gold pays for); each level adds its delta to the
        stat, costs the attribute's price, and makes units one gold dearer
        and one gold more rewarding to kill. A refused count changes
        nothing. */
    method UpgradeUnitsAttr(attr: UnitAttr, count: Count)
      modifies this`unitLvl, this`unitStat, this`gold, this`unitPrice, this`unitGoldReward
      ensures Refused(count, old(gold), UnitUpgradePrice(attr)) ==>
        unitLvl == old(unitLvl) && unitStat == old(unitStat) && gold == old(gold) &&
        unitPrice == old(unitPrice) && unitGoldReward == old(unitGoldReward)
      ensures !Refused(count, old(gold), UnitUpgradePrice(attr)) ==>
        var c := Resolve(count, old(gold), UnitUpgradePrice(attr));
        unitLvl == old(unitLvl).With(attr, old(unitLvl).Get(attr) + c) &&
        unitStat == old(unitStat).With(attr, old(unitStat).Get(attr) + UnitUpgrade(attr) * c as real) &&
        gold == old(gold) - UnitUpgradePrice(attr) * c &&
        unitPrice == old(unitPrice) + c * UPGRADE_GOLD_REWARD &&
        unitGoldReward == old(unitGoldReward) + c * UPGRADE_GOLD_REWARD
    {
      var price := UnitUpgradePrice(attr);
      var c: int;
      match count {
        case Max =>
          c := gold / price;
        case Times(n) =>
          if gold < price * n {
            return;
          }
          c := n;
      }
      unitLvl := unitLvl.With(attr, unitLvl.Get(attr) + c);
      unitStat := unitStat.With(attr, unitStat.Get(attr) + UnitUpgrade(attr) * c as real);
      gold := gold - price * c;
      unitPrice := unitPrice + c * UPGRADE_GOLD_REWARD;
      unitGoldReward := unitGoldReward + c * UPGRADE_GOLD_REWARD;
    }

    /** Player.upgrade_castle_attr: `count` levels of one castle attribute
        (or as many as the gold pays for). The player's record and the
        castle's own attribute both grow by the delta; an income upgrade
        also raises the player's income, and an hp upgrade raises the
        castle's maximum as well as its current health. A refused count
        changes nothing. */
    method UpgradeCastleAttr(attr: CastleAttr, count: Count)
      modifies this`castleLvl, this`castleStat, this`gold, this`income
      modifies castle`income, castle`dmg, castle`regen, castle`hp, castle`maxHp
      ensures Refused(count, old(gold), CastleUpgradePrice(attr)) ==>
        castleLvl == old(castleLvl) && castleStat == old(castleStat) && gold == old(gold) &&
        income == old(income) && castle.income == old(castle.income) && castle.dmg == old(castle.dmg) &&
        castle.regen == old(castle.regen) && castle.hp == old(castle.hp) && castle.maxHp == old(castle.maxHp)
      ensures !Refused(count, old(gold), CastleUpgradePrice(attr)) ==>
        var c := Resolve(count, old(gold), CastleUpgradePrice(attr));
        var d := CastleUpgrade(attr) * c;
        castleLvl == old(castleLvl).With(attr, old(castleLvl).Get(attr) + c) &&
        castleStat == old(castleStat).With(attr, old(castleStat).Get(attr) + d) &&
        gold == old(gold) - CastleUpgradePrice(attr) * c &&
        income == old(income) + (if attr.Income? then d else 0) &&
        castle.income == old(castle.income) + (if attr.Income? then d else 0) &&
        castle.dmg == old(castle.dmg) + (if attr.Dmg? then d as real else 0.0) &&
        castle.regen == old(castle.regen) + (if attr.Regen? then d as real else 0.0) &&
        castle.hp == old(castle.hp) + (if attr.Hp? then d as real else 0.0) &&
        castle.maxHp == old(castle.maxHp) + (if attr.Hp? then d as real else 0.0)
    {
      var price := CastleUpgradePrice(attr);
      var c: int;
      match count {
        case Max =>
          c := gold / price;
        case Times(n) =>
          if gold < price * n {
            return;
          }
          c := n;
      }
      var d := CastleUpgrade(attr) * c;
      castleLvl := castleLvl.With(attr, castleLvl.Get(attr) + c);
      castleStat := castleStat.With(attr, castleStat.Get(attr) + d);
      gold := gold - price * c;
      match attr {
        case Income =>
          castle.income := castle.income + d;
          income := income + d;
        case Dmg =>
          castle.dmg := castle.dmg + d as real;
        case Regen =>
          castle.regen := castle.regen + d as real;
        case Hp =>
          castle.hp := castle.hp + d as real;
          castle.maxHp := castle.maxHp + d as real;
      }
    }
  }
}
