/**
 * The input of one combat round: the ally side (11 fleets with fatigue
 * flags and a chosen formation) and the enemy side (15 fleets, a garrison
 * or "guard" fleet, a formation and the Yang commander flag), with the
 * per-side quantities the engine derives from them.
 */
module Queries {
  import opened Arith
  import opened Units
  import opened Fleets

  const ALLY_FLEET_COUNT: nat := 11
  const ENEMY_FLEET_COUNT: nat := 15

  const ATTACK_FORCE_MIN: nat := 100
  const ATTACK_FORCE_MAX: nat := 1600

  type AllyFleetForces = s: seq<FleetForce> | |s| == ALLY_FLEET_COUNT
    witness [0, 0, 0, 0, 0, 0, 0, 0, 0, 0, 0]
  type AllyFleetIsTireds = s: seq<bool> | |s| == ALLY_FLEET_COUNT
    witness [false, false, false, false, false, false, false, false, false, false, false]
  type EnemyFleetForces = s: seq<FleetForce> | |s| == ENEMY_FLEET_COUNT
    witness [0, 0, 0, 0, 0, 0, 0, 0, 0, 0, 0, 0, 0, 0, 0]

  /** `n` empty fleet slots. */
  function EmptyForces(n: nat): (s: seq<FleetForce>)
    ensures |s| == n && forall i :: 0 <= i < n ==> s[i] == 0
  {
    seq(n, _ => 0)
  }

  /** `n` fatigue flags, all off. */
  function NoneTired(n: nat): (s: seq<bool>)
    ensures |s| == n && forall i :: 0 <= i < n ==> !s[i]
  {
    seq(n, _ => false)
  }

  const ALLY_EMPTY: AllyFleetForces := EmptyForces(ALLY_FLEET_COUNT)
  const ALLY_RESTED: AllyFleetIsTireds := NoneTired(ALLY_FLEET_COUNT)
  const ENEMY_EMPTY: EnemyFleetForces := EmptyForces(ENEMY_FLEET_COUNT)

  datatype QueryAlly = QueryAlly(
    fleetForces: AllyFleetForces,
    fleetIsTireds: AllyFleetIsTireds,
    formation: Formation)

  datatype QueryEnemy = QueryEnemy(
    fleetForces: EnemyFleetForces,
    guardForce: FleetForce,
    formation: Formation,
    hasYang: bool)

  datatype Query = Query(ally: QueryAlly, enemy: QueryEnemy)

  /** The ally side can fight when one of its fleets is standing. */
  predicate AllyIsValid(a: QueryAlly)
    ensures AllyIsValid(a) <==> CountActive(a.fleetForces) >= 1
  {
    CountActivePositive(a.fleetForces);
    AnyActive(a.fleetForces)
  }

  /** The enemy side can fight when its guard or one of its fleets is standing. */
  predicate EnemyIsValid(e: QueryEnemy)
    ensures EnemyIsValid(e) <==> e.guardForce != 0 || CountActive(e.fleetForces) >= 1
  {
    CountActivePositive(e.fleetForces);
    e.guardForce != 0 || AnyActive(e.fleetForces)
  }

  /** A battle needs both sides able to fight. */
  predicate IsValid(q: Query)
    ensures IsValid(q) <==>
      CountActive(q.ally.fleetForces) >= 1 &&
      (q.enemy.guardForce != 0 || CountActive(q.enemy.fleetForces) >= 1)
  {
    AllyIsValid(q.ally) && EnemyIsValid(q.enemy)
  }

  /** Standing ally fleets; fatigued fleets are counted too. */
  function AllyFleetCount(a: QueryAlly): (n: nat)
    ensures n <= ALLY_FLEET_COUNT
    ensures n >= 1 <==> AllyIsValid(a)
  {
    CountActivePositive(a.fleetForces);
    CountActive(a.fleetForces)
  }

  /** Standing enemy fleets, plus one for a standing guard. */
  function EnemyFleetCount(e: QueryEnemy): (n: nat)
    ensures CountActive(e.fleetForces) <= n <= CountActive(e.fleetForces) + 1
    ensures n == CountActive(e.fleetForces) + 1 <==> e.guardForce != 0
    ensures n <= ENEMY_FLEET_COUNT + 1
    ensures n >= 1 <==> EnemyIsValid(e)
  {
    CountActivePositive(e.fleetForces);
    var countActive := CountActive(e.fleetForces);
    var countGuard := if e.guardForce == 0 then 0 else 1;
    countActive + countGuard
  }

  /** Force of the rested ally fleets; fatigued ones do not attack. */
  function AllyAttackForce(a: QueryAlly): (f: nat)
    ensures f <= SumForces(a.fleetForces)
    ensures f <= FLEET_FORCE_MAX * ALLY_FLEET_COUNT
  {
    SumRested(a.fleetForces, a.fleetIsTireds)
  }

  /**
   * With no fleet fatigued the ally attacks with its whole force; with
   * every fleet fatigued it attacks with none.
   */
  lemma AllyAttackForceFatigue(a: QueryAlly)
    ensures (forall i :: 0 <= i < ALLY_FLEET_COUNT ==> !a.fleetIsTireds[i]) ==> AllyAttackForce(a) == SumForces(a.fleetForces)
    ensures (forall i :: 0 <= i < ALLY_FLEET_COUNT ==> a.fleetIsTireds[i]) ==> AllyAttackForce(a) == 0
  {
    if forall i :: 0 <= i < ALLY_FLEET_COUNT ==> !a.fleetIsTireds[i] {
      SumRestedNoneTired(a.fleetForces, a.fleetIsTireds);
    }
    if forall i :: 0 <= i < ALLY_FLEET_COUNT ==> a.fleetIsTireds[i] {
      SumRestedAllTired(a.fleetForces, a.fleetIsTireds);
    }
  }

  /**
   * Force of every enemy fleet plus the guard, which always attacks. It is
   * zero exactly when the enemy side is invalid, and each standing unit
   * contributes between 1 and 100.
   */
  function EnemyAttackForce(e: QueryEnemy): (f: nat)
    ensures e.guardForce <= f <= ATTACK_FORCE_MAX
    ensures EnemyFleetCount(e) <= f <= FLEET_FORCE_MAX * EnemyFleetCount(e)
    ensures f == 0 <==> !EnemyIsValid(e)
  {
    SumBetweenCounts(e.fleetForces);
    var forceActive := SumForces(e.fleetForces);
    forceActive + e.guardForce
  }

  /** Clamp a side's attack force into [100, 1600]. */
  function ClampAttackForce(attackForce: nat): (r: nat)
    ensures ATTACK_FORCE_MIN <= r <= ATTACK_FORCE_MAX
    ensures ATTACK_FORCE_MIN <= attackForce <= ATTACK_FORCE_MAX ==> r == attackForce
    ensures attackForce < ATTACK_FORCE_MIN ==> r == ATTACK_FORCE_MIN
    ensures attackForce > ATTACK_FORCE_MAX ==> r == ATTACK_FORCE_MAX
  {
    if attackForce < ATTACK_FORCE_MIN then ATTACK_FORCE_MIN
    else if attackForce > ATTACK_FORCE_MAX then ATTACK_FORCE_MAX
    else attackForce
  }

  /** Clamping never lowers a larger force below a smaller one's clamp. */
  lemma ClampAttackForceMonotone(f1: nat, f2: nat)
    requires f1 <= f2
    ensures ClampAttackForce(f1) <= ClampAttackForce(f2)
  {
  }

  function AllyAttackForceClamped(a: QueryAlly): (r: nat)
    ensures ATTACK_FORCE_MIN <= r <= FLEET_FORCE_MAX * ALLY_FLEET_COUNT
    ensures AllyAttackForce(a) >= ATTACK_FORCE_MIN ==> r == AllyAttackForce(a)
    ensures AllyAttackForce(a) < ATTACK_FORCE_MIN ==> r == ATTACK_FORCE_MIN
  {
    ClampAttackForce(AllyAttackForce(a))
  }

  function EnemyAttackForceClamped(e: QueryEnemy): (r: nat)
    ensures ATTACK_FORCE_MIN <= r <= ATTACK_FORCE_MAX
    ensures EnemyAttackForce(e) >= ATTACK_FORCE_MIN ==> r == EnemyAttackForce(e)
    ensures EnemyAttackForce(e) < ATTACK_FORCE_MIN ==> r == ATTACK_FORCE_MIN
  {
    ClampAttackForce(EnemyAttackForce(e))
  }

  /**
   * The formation a side actually fights in: the chosen one, unless its
   * attack force (capped at 1600, not raised to 100) divided by ten times
   * the standing fleets is at most 3, i.e. is below 40 per standing fleet,
   * in which case it collapses to formation 0. A zero fleet count would
   * divide by zero, so the caller must supply a standing fleet.
   */
  function ModifyFormation(fleetCount: nat, attackForce: nat, formation: Formation): (r: Formation)
    requires fleetCount >= 1
    ensures r == formation || r == FORMATION_0
    ensures Min(attackForce, ATTACK_FORCE_MAX) < 40 * fleetCount ==> r == FORMATION_0
    ensures Min(attackForce, ATTACK_FORCE_MAX) >= 40 * fleetCount ==> r == formation
  {
    var numer := Min(attackForce, ATTACK_FORCE_MAX);
    var denom := 10 * fleetCount;
    DivAtMostIff(numer, denom, 3);
    if numer / denom <= 3 then FORMATION_0 else formation
  }

  /** A collapse at some force persists at every smaller force. */
  lemma ModifyFormationCollapseMonotone(fleetCount: nat, f1: nat, f2: nat, formation: Formation)
    requires fleetCount >= 1 && f1 <= f2
    requires ModifyFormation(fleetCount, f2, formation) == FORMATION_0
    ensures ModifyFormation(fleetCount, f1, formation) == FORMATION_0
  {
  }

  /**
   * At a fixed count, more force never lowers the multiplier the modified
   * formation earns against a given opponent: it can only undo a collapse.
   */
  lemma ModifyFormationMoreForceCoef(fleetCount: nat, f1: nat, f2: nat, formation: Formation, them: Formation)
    requires fleetCount >= 1 && f1 <= f2
    ensures AttackCoef(ModifyFormation(fleetCount, f1, formation), them)
         <= AttackCoef(ModifyFormation(fleetCount, f2, formation), them)
  {
    var m1 := ModifyFormation(fleetCount, f1, formation);
    var m2 := ModifyFormation(fleetCount, f2, formation);
    if m1 != m2 {
      assert m1 == FORMATION_0;
      CollapseNeverRaisesCoef(m2, them);
    }
  }

  /** Spreading the same force over more standing fleets can only cause a collapse. */
  lemma ModifyFormationCollapseMoreFleets(c1: nat, c2: nat, attackForce: nat, formation: Formation)
    requires 1 <= c1 <= c2
    requires ModifyFormation(c1, attackForce, formation) == FORMATION_0
    ensures ModifyFormation(c2, attackForce, formation) == FORMATION_0
  {
  }

  /**
   * The ally collapses when its rested force, before the raise to 100, is
   * below 40 per standing fleet, fatigued fleets included in the count.
   */
  function AllyFormationModified(a: QueryAlly): (r: Formation)
    requires AllyIsValid(a)
    ensures r == a.formation || r == FORMATION_0
    ensures AllyAttackForce(a) < 40 * AllyFleetCount(a) ==> r == FORMATION_0
    ensures AllyAttackForce(a) >= 40 * AllyFleetCount(a) ==> r == a.formation
  {
    ModifyFormation(AllyFleetCount(a), AllyAttackForce(a), a.formation)
  }

  /** The enemy collapses when its force, guard included, is below 40 per standing unit. */
  function EnemyFormationModified(e: QueryEnemy): (r: Formation)
    requires EnemyIsValid(e)
    ensures r == e.formation || r == FORMATION_0
    ensures EnemyAttackForce(e) < 40 * EnemyFleetCount(e) ==> r == FORMATION_0
    ensures EnemyAttackForce(e) >= 40 * EnemyFleetCount(e) ==> r == e.formation
  {
    ModifyFormation(EnemyFleetCount(e), EnemyAttackForce(e), e.formation)
  }

  /**
   * Fatigued fleets are counted but do not attack: an ally whose every
   * fleet is fatigued always fights in formation 0.
   */
  lemma AllyAllTiredCollapses(a: QueryAlly)
    requires AllyIsValid(a)
    requires forall i :: 0 <= i < ALLY_FLEET_COUNT ==> a.fleetIsTireds[i]
    ensures AllyFormationModified(a) == FORMATION_0
  {
    AllyAttackForceFatigue(a);
  }

  /** Slot 0 at full force, every other slot empty, nobody fatigued, formation 1. */
  function DefaultQueryAlly(): (a: QueryAlly)
    ensures a.fleetForces[0] == FLEET_FORCE_MAX
    ensures forall i :: 1 <= i < ALLY_FLEET_COUNT ==> a.fleetForces[i] == 0
    ensures forall i :: 0 <= i < ALLY_FLEET_COUNT ==> !a.fleetIsTireds[i]
    ensures a.formation == FORMATION_1
    ensures AllyIsValid(a) && AllyFleetCount(a) == 1
  {
    var fleetForces := ALLY_EMPTY[0 := FLEET_FORCE_MAX];
    assert fleetForces[0] != 0;
    CountActiveNone(fleetForces[1..]);
    QueryAlly(fleetForces, ALLY_RESTED, FORMATION_1)
  }

  /** Every fleet empty, the guard at full force, formation 1, no Yang. */
  function DefaultQueryEnemy(): (e: QueryEnemy)
    ensures forall i :: 0 <= i < ENEMY_FLEET_COUNT ==> e.fleetForces[i] == 0
    ensures e.guardForce == FLEET_FORCE_MAX
    ensures e.formation == FORMATION_1 && !e.hasYang
    ensures EnemyIsValid(e) && EnemyFleetCount(e) == 1
  {
    CountActiveNone(ENEMY_EMPTY);
    QueryEnemy(ENEMY_EMPTY, FLEET_FORCE_MAX, FORMATION_1, false)
  }

  function DefaultQuery(): (q: Query)
    ensures IsValid(q)
  {
    Query(DefaultQueryAlly(), DefaultQueryEnemy())
  }

  function AllyFleetForceAt(q: Query, idx: nat): FleetForce
    requires idx < ALLY_FLEET_COUNT
  {
    q.ally.fleetForces[idx]
  }

  function AllyFleetIsTiredAt(q: Query, idx: nat): bool
    requires idx < ALLY_FLEET_COUNT
  {
    q.ally.fleetIsTireds[idx]
  }

  function EnemyFleetForceAt(q: Query, idx: nat): FleetForce
    requires idx < ENEMY_FLEET_COUNT
  {
    q.enemy.fleetForces[idx]
  }

  /** Replaces ally slot `idx` and nothing else. */
  function SetAllyFleetForce(q: Query, idx: nat, fleetForce: FleetForce): (r: Query)
    requires idx < ALLY_FLEET_COUNT
    ensures AllyFleetForceAt(r, idx) == fleetForce
    ensures forall j :: 0 <= j < ALLY_FLEET_COUNT && j != idx ==> AllyFleetForceAt(r, j) == AllyFleetForceAt(q, j)
    ensures r.ally.fleetIsTireds == q.ally.fleetIsTireds && r.ally.formation == q.ally.formation
    ensures r.enemy == q.enemy
    ensures fleetForce != 0 ==> AllyIsValid(r.ally)
  {
    var r := q.(ally := q.ally.(fleetForces := q.ally.fleetForces[idx := fleetForce]));
    assert r.ally.fleetForces[idx] == fleetForce;
    r
  }

  /** Replaces ally fatigue flag `idx` and nothing else. */
  function SetAllyFleetIsTired(q: Query, idx: nat, isTired: bool): (r: Query)
    requires idx < ALLY_FLEET_COUNT
    ensures AllyFleetIsTiredAt(r, idx) == isTired
    ensures forall j :: 0 <= j < ALLY_FLEET_COUNT && j != idx ==> AllyFleetIsTiredAt(r, j) == AllyFleetIsTiredAt(q, j)
    ensures r.ally.fleetForces == q.ally.fleetForces && r.ally.formation == q.ally.formation
    ensures r.enemy == q.enemy
  {
    q.(ally := q.ally.(fleetIsTireds := q.ally.fleetIsTireds[idx := isTired]))
  }

  /**
   * Fatiguing a fleet keeps it in the count (it still takes damage) but
   * withdraws exactly its force from the force the ally attacks with.
   */
  lemma TiringWithdrawsFleetForce(q: Query, idx: nat)
    requires idx < ALLY_FLEET_COUNT
    ensures AllyFleetCount(SetAllyFleetIsTired(q, idx, true).ally) == AllyFleetCount(q.ally)
    ensures AllyFleetCount(SetAllyFleetIsTired(q, idx, false).ally) == AllyFleetCount(q.ally)
    ensures AllyAttackForce(SetAllyFleetIsTired(q, idx, false).ally)
         == AllyAttackForce(SetAllyFleetIsTired(q, idx, true).ally) + q.ally.fleetForces[idx]
  {
    SumRestedSetFlag(q.ally.fleetForces, q.ally.fleetIsTireds, idx);
  }

  function SetAllyFormation(q: Query, formation: Formation): (r: Query)
    ensures r.ally.formation == formation
    ensures r.ally.fleetForces == q.ally.fleetForces && r.ally.fleetIsTireds == q.ally.fleetIsTireds
    ensures r.enemy == q.enemy
  {
    q.(ally := q.ally.(formation := formation))
  }

  /** Replaces enemy slot `idx` and nothing else. */
  function SetEnemyFleetForce(q: Query, idx: nat, fleetForce: FleetForce): (r: Query)
    requires idx < ENEMY_FLEET_COUNT
    ensures EnemyFleetForceAt(r, idx) == fleetForce
    ensures forall j :: 0 <= j < ENEMY_FLEET_COUNT && j != idx ==> EnemyFleetForceAt(r, j) == EnemyFleetForceAt(q, j)
    ensures r.enemy.guardForce == q.enemy.guardForce && r.enemy.formation == q.enemy.formation
    ensures r.enemy.hasYang == q.enemy.hasYang
    ensures r.ally == q.ally
    ensures fleetForce != 0 ==> EnemyIsValid(r.enemy)
  {
    var r := q.(enemy := q.enemy.(fleetForces := q.enemy.fleetForces[idx := fleetForce]));
    assert r.enemy.fleetForces[idx] == fleetForce;
    r
  }

  function SetEnemyGuardForce(q: Query, fleetForce: FleetForce): (r: Query)
    ensures r.enemy.guardForce == fleetForce
    ensures r.enemy.fleetForces == q.enemy.fleetForces && r.enemy.formation == q.enemy.formation
    ensures r.enemy.hasYang == q.enemy.hasYang
    ensures r.ally == q.ally
    ensures fleetForce != 0 ==> EnemyIsValid(r.enemy)
  {
    q.(enemy := q.enemy.(guardForce := fleetForce))
  }

  function SetEnemyFormation(q: Query, formation: Formation): (r: Query)
    ensures r.enemy.formation == formation
    ensures r.enemy.fleetForces == q.enemy.fleetForces && r.enemy.guardForce == q.enemy.guardForce
    ensures r.enemy.hasYang == q.enemy.hasYang
    ensures r.ally == q.ally
  {
    q.(enemy := q.enemy.(formation := formation))
  }

  function SetEnemyHasYang(q: Query, hasYang: bool): (r: Query)
    ensures r.enemy.hasYang == hasYang
    ensures r.enemy.fleetForces == q.enemy.fleetForces && r.enemy.guardForce == q.enemy.guardForce
    ensures r.enemy.formation == q.enemy.formation
    ensures r.ally == q.ally
  {
    q.(enemy := q.enemy.(hasYang := hasYang))
  }
}
