/**
 * The combat-resolution engine: from a valid query it derives both sides'
 * effective formations and attacks, the damage each fleet takes, and the
 * forces left after one round.
 */
module Battle {
  import opened Wrappers
  import opened Arith
  import opened Units
  import opened Fleets
  import opened Queries

  datatype ReportAlly = ReportAlly(
    formation: Formation,
    damagePerFleet: nat,
    fleetForces: AllyFleetForces)

  datatype ReportEnemy = ReportEnemy(
    formation: Formation,
    damagePerFleet: nat,
    fleetForces: EnemyFleetForces,
    guardForce: FleetForce)

  datatype Report = Report(ally: ReportAlly, enemy: ReportEnemy)

  const DAMAGE_PER_FLEET_MAX: nat := 100
  /** Largest force that the mercy kill wipes out; the guard survives at exactly this value. */
  const MERCY_KILL_FORCE: nat := 8
  const YANG_ENEMY_BONUS: nat := 10

  /**
   * Attack before the Yang adjustment: hundreds of (clamped) force times
   * the formation matchup coefficient. For a clamped force this lies
   * between one and sixteen times the coefficient.
   */
  function CalcAttackRaw(attackForce: nat, formationUs: Formation, formationThem: Formation): (r: nat)
    ensures r % AttackCoef(formationUs, formationThem) == 0
    ensures r / AttackCoef(formationUs, formationThem) == attackForce / 100
    ensures ATTACK_FORCE_MIN <= attackForce <= ATTACK_FORCE_MAX ==>
      AttackCoef(formationUs, formationThem) <= r <= 16 * AttackCoef(formationUs, formationThem)
  {
    var coef := AttackCoef(formationUs, formationThem);
    assert (attackForce / 100 * coef) % coef == 0 && (attackForce / 100 * coef) / coef == attackForce / 100 by {
      MultipleModZero(attackForce / 100, coef);
    }
    attackForce / 100 * coef
  }

  /** More force never yields less raw attack in the same matchup. */
  lemma CalcAttackRawMonotone(f1: nat, f2: nat, formationUs: Formation, formationThem: Formation)
    requires f1 <= f2
    ensures CalcAttackRaw(f1, formationUs, formationThem) <= CalcAttackRaw(f2, formationUs, formationThem)
  {
    DivMonoNumerator(f1, f2, 100);
    var coef := AttackCoef(formationUs, formationThem);
    assert (f2 / 100) * coef - (f1 / 100) * coef == (f2 / 100 - f1 / 100) * coef;
  }

  /** A matchup with a larger coefficient never yields less raw attack from the same force. */
  lemma CalcAttackRawMonotoneCoef(attackForce: nat, us1: Formation, them1: Formation, us2: Formation, them2: Formation)
    requires AttackCoef(us1, them1) <= AttackCoef(us2, them2)
    ensures CalcAttackRaw(attackForce, us1, them1) <= CalcAttackRaw(attackForce, us2, them2)
  {
    MulMonoLeft(AttackCoef(us1, them1), AttackCoef(us2, them2), attackForce / 100);
  }

  /** Yang is in play unless the ally chose formation 5 (the chosen one, not the effective one). */
  predicate YangApplies(q: Query) {
    q.enemy.hasYang && q.ally.formation != FORMATION_5
  }

  /** The ally's raw attack; its clamped force is at most 1100, hence the factor 11. */
  function RawAllyAttack(q: Query): (r: nat)
    requires IsValid(q)
    ensures AttackCoef(AllyFormationModified(q.ally), EnemyFormationModified(q.enemy)) <= r
         <= 11 * AttackCoef(AllyFormationModified(q.ally), EnemyFormationModified(q.enemy))
  {
    CalcAttackRaw(AllyAttackForceClamped(q.ally), AllyFormationModified(q.ally), EnemyFormationModified(q.enemy))
  }

  /** The enemy's raw attack, with the effective formations the other way round. */
  function RawEnemyAttack(q: Query): (r: nat)
    requires IsValid(q)
    ensures AttackCoef(EnemyFormationModified(q.enemy), AllyFormationModified(q.ally)) <= r
         <= 16 * AttackCoef(EnemyFormationModified(q.enemy), AllyFormationModified(q.ally))
  {
    CalcAttackRaw(EnemyAttackForceClamped(q.enemy), EnemyFormationModified(q.enemy), AllyFormationModified(q.ally))
  }

  /**
   * Final attacks (ally, enemy). Under Yang the ally's raw attack is halved
   * plus one, which never raises it, and the enemy's gains 10; otherwise
   * both stay raw.
   */
  function CalcAttacks(q: Query): (r: (nat, nat))
    requires IsValid(q)
    ensures YangApplies(q) ==> r.0 == RawAllyAttack(q) / 2 + 1 && r.1 == RawEnemyAttack(q) + YANG_ENEMY_BONUS
    ensures !YangApplies(q) ==> r.0 == RawAllyAttack(q) && r.1 == RawEnemyAttack(q)
    ensures 1 <= r.0 <= RawAllyAttack(q) && RawEnemyAttack(q) <= r.1
    ensures r.0 <= 55 && 1 <= r.1 <= 90
  {
    var allyAttack := RawAllyAttack(q);
    var enemyAttack := RawEnemyAttack(q);
    if YangApplies(q) then (allyAttack / 2 + 1, enemyAttack + YANG_ENEMY_BONUS)
    else (allyAttack, enemyAttack)
  }

  /**
   * Damage every fleet of a side with `fleetCountUs` standing fleets takes
   * from an opponent attack of `attackThem`: a hundredth-scaled share
   * floor(100 * attack / (12 * count)), capped at 100. The cap is hit
   * exactly when the attack reaches 12 per standing fleet.
   */
  function CalcDamagePerFleet(attackThem: nat, fleetCountUs: nat): (r: nat)
    requires fleetCountUs >= 1
    ensures r <= DAMAGE_PER_FLEET_MAX
    ensures r == DAMAGE_PER_FLEET_MAX <==> attackThem >= 12 * fleetCountUs
    ensures r < DAMAGE_PER_FLEET_MAX ==>
      12 * fleetCountUs * r <= 100 * attackThem < 12 * fleetCountUs * r + 12 * fleetCountUs
  {
    CappedQuotient(100 * attackThem, 12 * fleetCountUs, DAMAGE_PER_FLEET_MAX)
  }

  /** A larger opponent attack never deals less damage per fleet. */
  lemma CalcDamagePerFleetMonotoneAttack(a1: nat, a2: nat, fleetCountUs: nat)
    requires a1 <= a2 && fleetCountUs >= 1
    ensures CalcDamagePerFleet(a1, fleetCountUs) <= CalcDamagePerFleet(a2, fleetCountUs)
  {
    DivMonoNumerator(100 * a1, 100 * a2, 12 * fleetCountUs);
  }

  /** More standing fleets to share the blow never raise the damage per fleet. */
  lemma CalcDamagePerFleetAntitoneCount(attackThem: nat, c1: nat, c2: nat)
    requires 1 <= c1 <= c2
    ensures CalcDamagePerFleet(attackThem, c2) <= CalcDamagePerFleet(attackThem, c1)
  {
    DivAntiMonoDenominator(100 * attackThem, 12 * c1, 12 * c2);
  }

  /**
   * A fleet after taking `damage`: saturating loss, and a fleet left with
   * 8 or less is wiped out. The range check on the result cannot fail.
   */
  function DamageFleet(fleetForce: FleetForce, damage: nat): (r: FleetForce)
    ensures r <= fleetForce
    ensures r == 0 <==> fleetForce <= damage + MERCY_KILL_FORCE
    ensures r != 0 ==> r == fleetForce - damage && r > MERCY_KILL_FORCE
  {
    var x := SaturatingSub(fleetForce, damage);
    var x := if x <= MERCY_KILL_FORCE then 0 else x;
    NewFleetForce(x).Extract()
  }

  /**
   * The guard after taking `damage`: like a fleet, but only a remainder
   * strictly below 8 is wiped out, so a guard left at exactly 8 survives.
   */
  function DamageGuard(guardForce: FleetForce, damage: nat): (r: FleetForce)
    ensures r <= guardForce
    ensures r == 0 <==> guardForce < damage + MERCY_KILL_FORCE
    ensures r != 0 ==> r == guardForce - damage && r >= MERCY_KILL_FORCE
  {
    var x := SaturatingSub(guardForce, damage);
    var x := if x < MERCY_KILL_FORCE then 0 else x;
    NewFleetForce(x).Extract()
  }

  /** Heavier damage never leaves a fleet stronger, so never spares one it would kill. */
  lemma DamageFleetAntitone(fleetForce: FleetForce, d1: nat, d2: nat)
    requires d1 <= d2
    ensures DamageFleet(fleetForce, d2) <= DamageFleet(fleetForce, d1)
    ensures DamageGuard(fleetForce, d2) <= DamageGuard(fleetForce, d1)
  {
  }

  /** A stronger fleet never ends weaker under the same damage. */
  lemma DamageFleetMonotone(f1: FleetForce, f2: FleetForce, damage: nat)
    requires f1 <= f2
    ensures DamageFleet(f1, damage) <= DamageFleet(f2, damage)
    ensures DamageGuard(f1, damage) <= DamageGuard(f2, damage)
  {
  }

  /** The one place the two thresholds differ: a remainder of exactly 8. */
  lemma MercyKillAsymmetry(damage: nat)
    requires damage + MERCY_KILL_FORCE <= FLEET_FORCE_MAX
    ensures DamageFleet(damage + MERCY_KILL_FORCE, damage) == 0
    ensures DamageGuard(damage + MERCY_KILL_FORCE, damage) == MERCY_KILL_FORCE
  {
  }

  /**
   * Every fleet of a side takes the same damage, slot by slot: the result
   * has the same length, and slot i is decided by slot i alone.
   */
  function DamageFleets(fleetForces: seq<FleetForce>, damage: nat): (r: seq<FleetForce>)
    ensures |r| == |fleetForces|
    ensures forall i :: 0 <= i < |r| ==>
      && r[i] <= fleetForces[i]
      && (r[i] == 0 <==> fleetForces[i] <= damage + MERCY_KILL_FORCE)
      && (r[i] != 0 ==> r[i] == fleetForces[i] - damage && r[i] > MERCY_KILL_FORCE)
  {
    seq(|fleetForces|, i requires 0 <= i < |fleetForces| => DamageFleet(fleetForces[i], damage))
  }

  /** Two sides that agree on slot i agree on it after the same damage. */
  lemma DamageFleetsLocal(s1: seq<FleetForce>, s2: seq<FleetForce>, damage: nat, i: nat)
    requires i < |s1| && i < |s2| && s1[i] == s2[i]
    ensures DamageFleets(s1, damage)[i] == DamageFleets(s2, damage)[i]
  {
  }

  function DamageAlly(fleetForces: AllyFleetForces, damage: nat): (r: AllyFleetForces)
    ensures forall i :: 0 <= i < ALLY_FLEET_COUNT ==>
      && r[i] <= fleetForces[i]
      && (r[i] == 0 <==> fleetForces[i] <= damage + MERCY_KILL_FORCE)
      && (r[i] != 0 ==> r[i] == fleetForces[i] - damage && r[i] > MERCY_KILL_FORCE)
  {
    DamageFleets(fleetForces, damage)
  }

  function DamageEnemy(fleetForces: EnemyFleetForces, guardForce: FleetForce, damage: nat): (r: (EnemyFleetForces, FleetForce))
    ensures forall i :: 0 <= i < ENEMY_FLEET_COUNT ==>
      && r.0[i] <= fleetForces[i]
      && (r.0[i] == 0 <==> fleetForces[i] <= damage + MERCY_KILL_FORCE)
      && (r.0[i] != 0 ==> r.0[i] == fleetForces[i] - damage && r.0[i] > MERCY_KILL_FORCE)
    ensures r.1 <= guardForce
    ensures r.1 == 0 <==> guardForce < damage + MERCY_KILL_FORCE
    ensures r.1 != 0 ==> r.1 == guardForce - damage && r.1 >= MERCY_KILL_FORCE
  {
    (DamageFleets(fleetForces, damage), DamageGuard(guardForce, damage))
  }

  /**
   * One combat round. `None` exactly for an invalid query; otherwise each
   * side fights in its chosen formation or the collapsed one, takes at
   * most 100 per fleet from the other's final attack, and keeps no
   * fleet at 1..8 and no guard at 1..7.
   */
  function BattleSimulate(q: Query): (r: Option<Report>)
    ensures r.None? <==> !IsValid(q)
    ensures r.Some? ==>
      && (r.value.ally.formation == q.ally.formation || r.value.ally.formation == FORMATION_0)
      && (r.value.enemy.formation == q.enemy.formation || r.value.enemy.formation == FORMATION_0)
      && r.value.ally.damagePerFleet <= DAMAGE_PER_FLEET_MAX
      && r.value.enemy.damagePerFleet <= DAMAGE_PER_FLEET_MAX
    ensures r.Some? ==>
      && r.value.ally.formation == AllyFormationModified(q.ally)
      && r.value.enemy.formation == EnemyFormationModified(q.enemy)
      && r.value.ally.damagePerFleet == CalcDamagePerFleet(CalcAttacks(q).1, AllyFleetCount(q.ally))
      && r.value.enemy.damagePerFleet == CalcDamagePerFleet(CalcAttacks(q).0, EnemyFleetCount(q.enemy))
    ensures r.Some? ==> forall i :: 0 <= i < ALLY_FLEET_COUNT ==>
      && r.value.ally.fleetForces[i] <= q.ally.fleetForces[i]
      && (r.value.ally.fleetForces[i] == 0 <==>
          q.ally.fleetForces[i] <= r.value.ally.damagePerFleet + MERCY_KILL_FORCE)
      && (r.value.ally.fleetForces[i] != 0 ==>
          r.value.ally.fleetForces[i] == q.ally.fleetForces[i] - r.value.ally.damagePerFleet &&
          r.value.ally.fleetForces[i] > MERCY_KILL_FORCE)
    ensures r.Some? ==> forall i :: 0 <= i < ENEMY_FLEET_COUNT ==>
      && r.value.enemy.fleetForces[i] <= q.enemy.fleetForces[i]
      && (r.value.enemy.fleetForces[i] == 0 <==>
          q.enemy.fleetForces[i] <= r.value.enemy.damagePerFleet + MERCY_KILL_FORCE)
      && (r.value.enemy.fleetForces[i] != 0 ==>
          r.value.enemy.fleetForces[i] == q.enemy.fleetForces[i] - r.value.enemy.damagePerFleet &&
          r.value.enemy.fleetForces[i] > MERCY_KILL_FORCE)
    ensures r.Some? ==>
      && r.value.enemy.guardForce <= q.enemy.guardForce
      && (r.value.enemy.guardForce == 0 <==>
          q.enemy.guardForce < r.value.enemy.damagePerFleet + MERCY_KILL_FORCE)
      && (r.value.enemy.guardForce != 0 ==>
          r.value.enemy.guardForce == q.enemy.guardForce - r.value.enemy.damagePerFleet &&
          r.value.enemy.guardForce >= MERCY_KILL_FORCE)
  {
    if !IsValid(q) then None
    else
      var allyFormation := AllyFormationModified(q.ally);
      var enemyFormation := EnemyFormationModified(q.enemy);
      var (allyAttack, enemyAttack) := CalcAttacks(q);
      var allyDamagePerFleet := CalcDamagePerFleet(enemyAttack, AllyFleetCount(q.ally));
      var enemyDamagePerFleet := CalcDamagePerFleet(allyAttack, EnemyFleetCount(q.enemy));
      var allyFleetForces := DamageAlly(q.ally.fleetForces, allyDamagePerFleet);
      var (enemyFleetForces, enemyGuardForce) :=
        DamageEnemy(q.enemy.fleetForces, q.enemy.guardForce, enemyDamagePerFleet);
      Some(Report(
        ReportAlly(allyFormation, allyDamagePerFleet, allyFleetForces),
        ReportEnemy(enemyFormation, enemyDamagePerFleet, enemyFleetForces, enemyGuardForce)))
  }

  /**
   * Switching Yang on changes nothing when the ally chose formation 5;
   * otherwise it turns the ally's attack into half plus one and adds 10
   * to the enemy's, everything else being equal.
   */
  lemma YangToggle(q: Query)
    requires IsValid(q)
    ensures var off := CalcAttacks(SetEnemyHasYang(q, false));
      var on := CalcAttacks(SetEnemyHasYang(q, true));
      if q.ally.formation == FORMATION_5 then on == off
      else on.0 == off.0 / 2 + 1 && on.1 == off.1 + YANG_ENEMY_BONUS
  {
  }

  /**
   * Yang never helps the ally: with it on, each ally fleet takes at least
   * as much damage and ends no stronger, and each enemy unit takes at most
   * as much and ends no weaker.
   */
  lemma YangHurtsAlly(q: Query)
    requires IsValid(q)
    ensures var off := BattleSimulate(SetEnemyHasYang(q, false)).value;
      var on := BattleSimulate(SetEnemyHasYang(q, true)).value;
      && off.ally.damagePerFleet <= on.ally.damagePerFleet
      && on.enemy.damagePerFleet <= off.enemy.damagePerFleet
      && (forall i :: 0 <= i < ALLY_FLEET_COUNT ==> on.ally.fleetForces[i] <= off.ally.fleetForces[i])
      && (forall i :: 0 <= i < ENEMY_FLEET_COUNT ==> off.enemy.fleetForces[i] <= on.enemy.fleetForces[i])
      && off.enemy.guardForce <= on.enemy.guardForce
  {
    var qOff := SetEnemyHasYang(q, false);
    var qOn := SetEnemyHasYang(q, true);
    YangToggle(q);
    var attOff := CalcAttacks(qOff);
    var attOn := CalcAttacks(qOn);
    assert attOn.0 <= attOff.0 && attOff.1 <= attOn.1;
    var allyCount := AllyFleetCount(q.ally);
    var enemyCount := EnemyFleetCount(q.enemy);
    assert AllyFleetCount(qOn.ally) == allyCount && AllyFleetCount(qOff.ally) == allyCount;
    assert EnemyFleetCount(qOn.enemy) == enemyCount && EnemyFleetCount(qOff.enemy) == enemyCount;
    CalcDamagePerFleetMonotoneAttack(attOff.1, attOn.1, allyCount);
    CalcDamagePerFleetMonotoneAttack(attOn.0, attOff.0, enemyCount);
    var allyDamageOff := CalcDamagePerFleet(attOff.1, allyCount);
    var allyDamageOn := CalcDamagePerFleet(attOn.1, allyCount);
    var enemyDamageOff := CalcDamagePerFleet(attOff.0, enemyCount);
    var enemyDamageOn := CalcDamagePerFleet(attOn.0, enemyCount);
    forall i | 0 <= i < ALLY_FLEET_COUNT
      ensures DamageFleet(q.ally.fleetForces[i], allyDamageOn) <= DamageFleet(q.ally.fleetForces[i], allyDamageOff)
    {
      DamageFleetAntitone(q.ally.fleetForces[i], allyDamageOff, allyDamageOn);
    }
    forall i | 0 <= i < ENEMY_FLEET_COUNT
      ensures DamageFleet(q.enemy.fleetForces[i], enemyDamageOff) <= DamageFleet(q.enemy.fleetForces[i], enemyDamageOn)
    {
      DamageFleetAntitone(q.enemy.fleetForces[i], enemyDamageOn, enemyDamageOff);
    }
    DamageFleetAntitone(q.enemy.guardForce, enemyDamageOn, enemyDamageOff);
  }

  /**
   * At a fixed count, more force never yields less raw attack against a
   * fixed opponent formation, even when the extra force undoes a collapse.
   */
  lemma RawAttackMonotoneForce(fleetCount: nat, f1: nat, f2: nat, formation: Formation, them: Formation)
    requires fleetCount >= 1 && f1 <= f2
    ensures CalcAttackRaw(ClampAttackForce(f1), ModifyFormation(fleetCount, f1, formation), them)
         <= CalcAttackRaw(ClampAttackForce(f2), ModifyFormation(fleetCount, f2, formation), them)
  {
    var m1 := ModifyFormation(fleetCount, f1, formation);
    var m2 := ModifyFormation(fleetCount, f2, formation);
    ModifyFormationMoreForceCoef(fleetCount, f1, f2, formation, them);
    ClampAttackForceMonotone(f1, f2);
    CalcAttackRawMonotone(ClampAttackForce(f1), ClampAttackForce(f2), m1, them);
    CalcAttackRawMonotoneCoef(ClampAttackForce(f2), m1, them, m2, them);
  }

  /**
   * Reinforcing a standing enemy fleet raises the enemy's final attack.
   * The enemy count stays the same, the force can only grow, and so the
   * enemy's formation can only come out of a collapse, which never lowers
   * its coefficient; the ally's formation does not depend on the enemy.
   */
  lemma EnemyReinforcementRaisesAttack(q: Query, idx: nat, f: FleetForce)
    requires IsValid(q) && idx < ENEMY_FLEET_COUNT
    requires q.enemy.fleetForces[idx] != 0 && q.enemy.fleetForces[idx] <= f
    ensures IsValid(SetEnemyFleetForce(q, idx, f))
    ensures CalcAttacks(q).1 <= CalcAttacks(SetEnemyFleetForce(q, idx, f)).1
  {
    var q2 := SetEnemyFleetForce(q, idx, f);
    CountActiveReplace(q.enemy.fleetForces, idx, f);
    SumForcesReplace(q.enemy.fleetForces, idx, f);
    var count := EnemyFleetCount(q.enemy);
    assert EnemyFleetCount(q2.enemy) == count;
    var f1 := EnemyAttackForce(q.enemy);
    var f2 := EnemyAttackForce(q2.enemy);
    assert f1 <= f2;
    var allyFormation := AllyFormationModified(q.ally);
    assert AllyFormationModified(q2.ally) == allyFormation;
    RawAttackMonotoneForce(count, f1, f2, q.enemy.formation, allyFormation);
    assert RawEnemyAttack(q) <= RawEnemyAttack(q2);
    assert YangApplies(q) == YangApplies(q2);
  }

  /**
   * Reinforcing a standing enemy fleet never lowers the damage each ally
   * fleet takes, and leaves no ally fleet stronger. A reinforcement that
   * stands up a new fleet changes the count and carries no such promise.
   */
  lemma EnemyReinforcementHurtsAlly(q: Query, idx: nat, f: FleetForce)
    requires IsValid(q) && idx < ENEMY_FLEET_COUNT
    requires q.enemy.fleetForces[idx] != 0 && q.enemy.fleetForces[idx] <= f
    ensures IsValid(SetEnemyFleetForce(q, idx, f))
    ensures var before := BattleSimulate(q).value;
      var after := BattleSimulate(SetEnemyFleetForce(q, idx, f)).value;
      && before.ally.damagePerFleet <= after.ally.damagePerFleet
      && forall i :: 0 <= i < ALLY_FLEET_COUNT ==> after.ally.fleetForces[i] <= before.ally.fleetForces[i]
  {
    var q2 := SetEnemyFleetForce(q, idx, f);
    EnemyReinforcementRaisesAttack(q, idx, f);
    var count := AllyFleetCount(q.ally);
    assert AllyFleetCount(q2.ally) == count;
    CalcDamagePerFleetMonotoneAttack(CalcAttacks(q).1, CalcAttacks(q2).1, count);
    var d1 := CalcDamagePerFleet(CalcAttacks(q).1, count);
    var d2 := CalcDamagePerFleet(CalcAttacks(q2).1, count);
    forall i | 0 <= i < ALLY_FLEET_COUNT
      ensures DamageFleet(q.ally.fleetForces[i], d2) <= DamageFleet(q.ally.fleetForces[i], d1)
    {
      DamageFleetAntitone(q.ally.fleetForces[i], d1, d2);
    }
  }

  /**
   * Reinforcing a standing ally fleet never lowers the ally's final attack:
   * the same argument over the rested force, whether or not the fleet is
   * fatigued.
   */
  lemma AllyReinforcementRaisesAttack(q: Query, idx: nat, f: FleetForce)
    requires IsValid(q) && idx < ALLY_FLEET_COUNT
    requires q.ally.fleetForces[idx] != 0 && q.ally.fleetForces[idx] <= f
    ensures IsValid(SetAllyFleetForce(q, idx, f))
    ensures CalcAttacks(q).0 <= CalcAttacks(SetAllyFleetForce(q, idx, f)).0
  {
    var q2 := SetAllyFleetForce(q, idx, f);
    CountActiveReplace(q.ally.fleetForces, idx, f);
    SumRestedReplace(q.ally.fleetForces, q.ally.fleetIsTireds, idx, f);
    var count := AllyFleetCount(q.ally);
    assert AllyFleetCount(q2.ally) == count;
    var f1 := AllyAttackForce(q.ally);
    var f2 := AllyAttackForce(q2.ally);
    assert f1 <= f2;
    var enemyFormation := EnemyFormationModified(q.enemy);
    assert EnemyFormationModified(q2.enemy) == enemyFormation;
    RawAttackMonotoneForce(count, f1, f2, q.ally.formation, enemyFormation);
    assert RawAllyAttack(q) <= RawAllyAttack(q2);
    assert YangApplies(q) == YangApplies(q2);
  }

  /**
   * Reinforcing a standing ally fleet never lowers the damage each enemy
   * fleet and the guard take, and leaves no enemy unit stronger.
   */
  lemma AllyReinforcementHurtsEnemy(q: Query, idx: nat, f: FleetForce)
    requires IsValid(q) && idx < ALLY_FLEET_COUNT
    requires q.ally.fleetForces[idx] != 0 && q.ally.fleetForces[idx] <= f
    ensures IsValid(SetAllyFleetForce(q, idx, f))
    ensures var before := BattleSimulate(q).value;
      var after := BattleSimulate(SetAllyFleetForce(q, idx, f)).value;
      && before.enemy.damagePerFleet <= after.enemy.damagePerFleet
      && (forall i :: 0 <= i < ENEMY_FLEET_COUNT ==> after.enemy.fleetForces[i] <= before.enemy.fleetForces[i])
      && after.enemy.guardForce <= before.enemy.guardForce
  {
    var q2 := SetAllyFleetForce(q, idx, f);
    AllyReinforcementRaisesAttack(q, idx, f);
    var count := EnemyFleetCount(q.enemy);
    assert EnemyFleetCount(q2.enemy) == count;
    CalcDamagePerFleetMonotoneAttack(CalcAttacks(q).0, CalcAttacks(q2).0, count);
    var d1 := CalcDamagePerFleet(CalcAttacks(q).0, count);
    var d2 := CalcDamagePerFleet(CalcAttacks(q2).0, count);
    forall i | 0 <= i < ENEMY_FLEET_COUNT
      ensures DamageFleet(q.enemy.fleetForces[i], d2) <= DamageFleet(q.enemy.fleetForces[i], d1)
    {
      DamageFleetAntitone(q.enemy.fleetForces[i], d1, d2);
    }
    DamageFleetAntitone(q.enemy.guardForce, d1, d2);
  }
}
