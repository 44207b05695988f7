/** The arithmetic of fighting shared by units and castles: health that is
    clamped when damaged or regenerated, the castle's damage mitigation, and
    the attack-rate accumulator that decides how often a unit hits. */
module Combat {
  import opened Constants

  function Min(a: real, b: real): real {
    if a <= b then a else b
  }

  /** Health after one hit of `damage` (GameObject.get_damage): never below
      zero, and lowered by exactly the damage or the whole health. */
  function AfterDamage(hp: real, damage: real): (r: real)
    ensures r >= 0.0
    ensures hp >= 0.0 && damage >= 0.0 ==> hp - r == Min(damage, hp)
    ensures damage >= 0.0 ==> r <= hp || hp < 0.0
  {
    if hp - damage < 0.0 then 0.0 else hp - damage
  }

  /** Health after regenerating (GameObject.regenerate): untouched once at or
      above the maximum, otherwise raised by `regen` but never past it. */
  function AfterRegen(hp: real, maxHp: real, regen: real): (r: real)
    ensures hp >= maxHp ==> r == hp
    ensures hp < maxHp ==> r <= maxHp
    ensures hp < maxHp && regen >= 0.0 ==> hp <= r
    ensures hp < maxHp ==> r == hp + regen || r == maxHp
  {
    if hp < maxHp then
      if hp + regen > maxHp then maxHp else hp + regen
    else hp
  }

  /** The damage a castle actually takes from a hit of `damage`
      (Castle.get_damage): a tenth of it, or one point for a zero hit. */
  function CastleDamageTaken(damage: real): (r: real)
    ensures damage > 0.0 ==> 0.0 < r < damage
    ensures damage >= 0.0 ==> r > 0.0
    ensures damage == 0.0 ==> r == 1.0
  {
    var mitigated := damage * CASTLE_RECEIVE_DAMAGE;
    if mitigated == 0.0 then 1.0 else mitigated
  }

  /** A castle takes exactly one point from a zero hit and ten from a
      hundred. */
  lemma CastleMitigationExamples()
    ensures CastleDamageTaken(0.0) == 1.0
    ensures CastleDamageTaken(100.0) == 10.0
    ensures forall d: real :: d > 0.0 ==> CastleDamageTaken(d) == d / 10.0
  {
  }

  /** Health after `k` hits of `damage` in a row. */
  function DamagedTimes(hp: real, damage: real, k: nat): real {
    if k == 0 then hp else AfterDamage(DamagedTimes(hp, damage, k - 1), damage)
  }

  /** Health after regenerating `k` times in a row. */
  function RegenedTimes(hp: real, maxHp: real, regen: real, k: nat): real {
    if k == 0 then hp else AfterRegen(RegenedTimes(hp, maxHp, regen, k - 1), maxHp, regen)
  }

  /** Regenerating `a` times and then `b` times is regenerating `a + b`
      times: the turns of regeneration of a unit listed in several armies
      add up. */
  lemma {:induction false} RegenedTimesCompose(hp: real, maxHp: real, regen: real, a: nat, b: nat)
    ensures RegenedTimes(RegenedTimes(hp, maxHp, regen, a), maxHp, regen, b)
            == RegenedTimes(hp, maxHp, regen, a + b)
    decreases b
  {
    if b > 0 {
      RegenedTimesCompose(hp, maxHp, regen, a, b - 1);
    }
  }

  /** With a non-negative regeneration, regenerating any number of times
      never lowers health, never lifts it past the maximum when it started
      at or below it, and leaves health above the maximum alone. */
  lemma {:induction false} RegenedTimesBounds(hp: real, maxHp: real, regen: real, k: nat)
    requires regen >= 0.0
    ensures hp <= RegenedTimes(hp, maxHp, regen, k)
    ensures hp <= maxHp ==> RegenedTimes(hp, maxHp, regen, k) <= maxHp
    ensures hp >= maxHp ==> RegenedTimes(hp, maxHp, regen, k) == hp
  {
    if k > 0 {
      RegenedTimesBounds(hp, maxHp, regen, k - 1);
    }
  }

  /** Two hits in a row take off their sum, clamped at zero. */
  lemma AfterDamageTwice(hp: real, first: real, second: real)
    requires hp >= 0.0 && first >= 0.0 && second >= 0.0
    ensures AfterDamage(AfterDamage(hp, first), second) == AfterDamage(hp, first + second)
  {
  }

  /** `k` hits in a row take off `k` times the damage, clamped at zero. */
  lemma {:induction false} DamagedTimesClosedForm(hp: real, damage: real, k: nat, total: real)
    requires hp >= 0.0 && damage >= 0.0 && total == k as real * damage
    ensures DamagedTimes(hp, damage, k) == AfterDamage(hp, total)
  {
    if k > 0 {
      var before := total - damage;
      OneMoreHit(k, damage);
      assert before == (k - 1) as real * damage && before >= 0.0;
      DamagedTimesClosedForm(hp, damage, k - 1, before);
      assert DamagedTimes(hp, damage, k) == AfterDamage(AfterDamage(hp, before), damage);
      AfterDamageTwice(hp, before, damage);
    }
  }

  /** `k` hits of a non-negative damage add up to one more hit than `k - 1`. */
  lemma OneMoreHit(k: nat, damage: real)
    requires k > 0 && damage >= 0.0
    ensures (k - 1) as real * damage >= 0.0
    ensures k as real * damage == (k - 1) as real * damage + damage
  {
  }

  /** The attack rate a fresh or disengaged unit starts with
      (Unit.__init__ and Unit.refresh_attack_rate). */
  function StartRate(attackSpeed: real): (r: real)
    ensures r >= ATTACK_RATE && r >= attackSpeed
    ensures r == ATTACK_RATE || r == attackSpeed
  {
    if ATTACK_RATE > attackSpeed then ATTACK_RATE else attackSpeed
  }

  /** How many times Unit.attack's loop hits with the accumulator at
      `rate`: one hit per ATTACK_RATE held. */
  function Hits(rate: real): nat
    decreases if rate < 0.0 then 0 else rate.Floor
  {
    if rate < ATTACK_RATE then 0 else 1 + Hits(rate - ATTACK_RATE)
  }

  /** The number of hits is the accumulator divided by ATTACK_RATE, rounded
      down, and what is left over is below ATTACK_RATE. */
  lemma {:induction false} HitsIsFloor(rate: real)
    requires rate >= 0.0
    ensures Hits(rate) == (rate / ATTACK_RATE).Floor
    ensures 0.0 <= rate - ATTACK_RATE * Hits(rate) as real < ATTACK_RATE
  {
    if rate >= ATTACK_RATE {
      HitsIsFloor(rate - ATTACK_RATE);
      assert (rate - ATTACK_RATE) / ATTACK_RATE == rate / ATTACK_RATE - 1.0;
    }
  }

  /** The accumulator after one call of Unit.attack: every hit spends
      ATTACK_RATE and the attack speed is added once at the end. */
  function RateAfterAttack(rate: real, attackSpeed: real): real {
    rate - ATTACK_RATE * Hits(rate) as real + attackSpeed
  }

  /** Hits a unit makes in `ticks` consecutive fight ticks. */
  function HitsOverTicks(ticks: nat, rate: real, attackSpeed: real): nat {
    if ticks == 0 then 0
    else Hits(rate) + HitsOverTicks(ticks - 1, RateAfterAttack(rate, attackSpeed), attackSpeed)
  }

  /** The accumulator after `ticks` consecutive fight ticks. */
  function RateOverTicks(ticks: nat, rate: real, attackSpeed: real): real {
    if ticks == 0 then rate
    else RateOverTicks(ticks - 1, RateAfterAttack(rate, attackSpeed), attackSpeed)
  }

  /** One more tick at the end of a run applies one more attack to the
      accumulator the run left. */
  lemma {:induction false} RateOverTicksLast(ticks: nat, rate: real, attackSpeed: real)
    ensures RateOverTicks(ticks + 1, rate, attackSpeed)
            == RateAfterAttack(RateOverTicks(ticks, rate, attackSpeed), attackSpeed)
    decreases ticks
  {
    if ticks > 0 {
      RateOverTicksLast(ticks - 1, RateAfterAttack(rate, attackSpeed), attackSpeed);
    }
  }

  /** Nothing is lost over a run of fight ticks: every hit spends
      ATTACK_RATE of what the start and the attack speed per tick put in,
      and the rest is left in the accumulator. */
  lemma {:induction false} HitsConserveRate(ticks: nat, rate: real, attackSpeed: real)
    ensures ATTACK_RATE * HitsOverTicks(ticks, rate, attackSpeed) as real
              + RateOverTicks(ticks, rate, attackSpeed)
            == rate + ticks as real * attackSpeed
    decreases ticks
  {
    if ticks > 0 {
      HitsConserveRate(ticks - 1, RateAfterAttack(rate, attackSpeed), attackSpeed);
    }
  }

  /** A unit with no upgrades hits TIME_TICKS_PER_TURN / ATTACK_RATE = 3
      times in one turn of fighting. */
  lemma {:induction false} BasicUnitHitsPerTurn()
    ensures HitsOverTicks(TIME_TICKS_PER_TURN, StartRate(UNIT_ATSPD), UNIT_ATSPD) == 3
  {
    assert StartRate(UNIT_ATSPD) == 5.0;
    FiveTickCycle(TIME_TICKS_PER_TURN, UNIT_ATSPD);
  }

  /** Five ticks starting from a full accumulator of a speed-one unit give
      exactly one hit and return to the full accumulator. */
  lemma {:induction false} FiveTickCycle(n: nat, s: real)
    requires s == 1.0 && n % 5 == 0
    ensures HitsOverTicks(n, 5.0, s) == n / 5
    ensures RateOverTicks(n, 5.0, s) == 5.0
    decreases n
  {
    if n > 0 {
      FiveTickCycle(n - 5, s);
      assert Hits(5.0) == 1 && RateAfterAttack(5.0, s) == 1.0;
      assert Hits(1.0) == 0 && RateAfterAttack(1.0, s) == 2.0;
      assert Hits(2.0) == 0 && RateAfterAttack(2.0, s) == 3.0;
      assert Hits(3.0) == 0 && RateAfterAttack(3.0, s) == 4.0;
      assert Hits(4.0) == 0 && RateAfterAttack(4.0, s) == 5.0;
      assert HitsOverTicks(n, 5.0, s) == 1 + HitsOverTicks(n - 1, 1.0, s);
      assert HitsOverTicks(n - 1, 1.0, s) == HitsOverTicks(n - 2, 2.0, s);
      assert HitsOverTicks(n - 2, 2.0, s) == HitsOverTicks(n - 3, 3.0, s);
      assert HitsOverTicks(n - 3, 3.0, s) == HitsOverTicks(n - 4, 4.0, s);
      assert HitsOverTicks(n - 4, 4.0, s) == HitsOverTicks(n - 5, 5.0, s);
      assert RateOverTicks(n, 5.0, s) == RateOverTicks(n - 1, 1.0, s);
      assert RateOverTicks(n - 1, 1.0, s) == RateOverTicks(n - 2, 2.0, s);
      assert RateOverTicks(n - 2, 2.0, s) == RateOverTicks(n - 3, 3.0, s);
      assert RateOverTicks(n - 3, 3.0, s) == RateOverTicks(n - 4, 4.0, s);
      assert RateOverTicks(n - 4, 4.0, s) == RateOverTicks(n - 5, 5.0, s);
    }
  }
}
