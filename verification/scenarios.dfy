/** Whole rounds worked out on concrete queries. */
module Scenarios {
  import opened Wrappers
  import opened Units
  import opened Fleets
  import opened Queries
  import opened Battle

  /** One full-strength fleet in slot 0, the rest empty. */
  function AllySingle(): (s: AllyFleetForces)
    ensures s[0] == FLEET_FORCE_MAX && forall i :: 1 <= i < ALLY_FLEET_COUNT ==> s[i] == 0
    ensures CountActive(s) == 1 && SumForces(s) == FLEET_FORCE_MAX
  {
    var s: AllyFleetForces := ALLY_EMPTY[0 := FLEET_FORCE_MAX];
    assert forall i :: 0 <= i < |s[1..]| ==> s[1..][i] == 0 by {
      forall i | 0 <= i < |s[1..]| ensures s[1..][i] == 0 {
        assert s[1..][i] == ALLY_EMPTY[i + 1];
      }
    }
    CountActiveNone(s[1..]);
    SumForcesNone(s[1..]);
    s
  }

  function EnemySingle(): (s: EnemyFleetForces)
    ensures s[0] == FLEET_FORCE_MAX && forall i :: 1 <= i < ENEMY_FLEET_COUNT ==> s[i] == 0
    ensures CountActive(s) == 1 && SumForces(s) == FLEET_FORCE_MAX
  {
    var s: EnemyFleetForces := ENEMY_EMPTY[0 := FLEET_FORCE_MAX];
    assert forall i :: 0 <= i < |s[1..]| ==> s[1..][i] == 0 by {
      forall i | 0 <= i < |s[1..]| ensures s[1..][i] == 0 {
        assert s[1..][i] == ENEMY_EMPTY[i + 1];
      }
    }
    CountActiveNone(s[1..]);
    SumForcesNone(s[1..]);
    s
  }

  /** One full ally fleet in slot 0 and a full opponent, each side attacking with 4, lose 33. */
  lemma AllySingleTakes33()
    ensures CalcDamagePerFleet(4, 1) == 33
    ensures DamageAlly(AllySingle(), 33) == AllySingle()[0 := 67]
  {
    var r := DamageAlly(AllySingle(), 33);
    assert forall i :: 1 <= i < ALLY_FLEET_COUNT ==> r[i] == 0;
    assert r[0] == 67;
  }

  lemma DefaultAllyForce()
    ensures DefaultQuery().ally.fleetForces == AllySingle()
    ensures AllyAttackForce(DefaultQuery().ally) == FLEET_FORCE_MAX
  {
    var q := DefaultQuery();
    SumRestedNoneTired(q.ally.fleetForces, q.ally.fleetIsTireds);
  }

  lemma DefaultEnemyForce()
    ensures DefaultQuery().enemy.fleetForces == ENEMY_EMPTY
    ensures EnemyAttackForce(DefaultQuery().enemy) == FLEET_FORCE_MAX
  {
    SumForcesNone(DefaultQuery().enemy.fleetForces);
  }

  lemma DefaultAttacks()
    ensures AllyFormationModified(DefaultQuery().ally) == FORMATION_1
    ensures EnemyFormationModified(DefaultQuery().enemy) == FORMATION_1
    ensures CalcAttacks(DefaultQuery()) == (4, 4)
  {
    DefaultAllyForce();
    DefaultEnemyForce();
  }

  lemma EnemyEmptyAfter(damage: nat)
    ensures DamageEnemy(ENEMY_EMPTY, FLEET_FORCE_MAX, damage).0 == ENEMY_EMPTY
  {
    var e := DamageEnemy(ENEMY_EMPTY, FLEET_FORCE_MAX, damage);
    assert forall i :: 0 <= i < ENEMY_FLEET_COUNT ==> e.0[i] == 0;
  }

  /**
   * The default query: one full ally fleet against the full guard, both in
   * formation 1. Each side attacks with 1 * 4, so each takes 400 / 12 = 33
   * and both the ally fleet and the guard end at 67.
   */
  lemma DefaultBattle()
    ensures BattleSimulate(DefaultQuery()) == Some(Report(
      ReportAlly(FORMATION_1, 33, AllySingle()[0 := 67]),
      ReportEnemy(FORMATION_1, 33, ENEMY_EMPTY, 67)))
  {
    DefaultAllyForce();
    DefaultEnemyForce();
    DefaultAttacks();
    AllySingleTakes33();
    EnemyEmptyAfter(33);
  }

  /** One full fleet on each side, no guard, formation 1, no Yang. */
  function MirrorQuery(): Query {
    Query(
      QueryAlly(AllySingle(), ALLY_RESTED, FORMATION_1),
      QueryEnemy(EnemySingle(), 0, FORMATION_1, false))
  }

  lemma MirrorForces()
    ensures AllyFleetCount(MirrorQuery().ally) == 1 && EnemyFleetCount(MirrorQuery().enemy) == 1
    ensures AllyAttackForce(MirrorQuery().ally) == FLEET_FORCE_MAX
    ensures EnemyAttackForce(MirrorQuery().enemy) == FLEET_FORCE_MAX
  {
    var q := MirrorQuery();
    SumRestedNoneTired(q.ally.fleetForces, q.ally.fleetIsTireds);
  }

  lemma MirrorAttacks()
    ensures AllyFormationModified(MirrorQuery().ally) == FORMATION_1
    ensures EnemyFormationModified(MirrorQuery().enemy) == FORMATION_1
    ensures CalcAttacks(MirrorQuery()) == (4, 4)
  {
    MirrorForces();
  }

  lemma EnemySingleTakes33()
    ensures DamageEnemy(EnemySingle(), 0, 33) == (EnemySingle()[0 := 67], 0)
  {
    var e := DamageEnemy(EnemySingle(), 0, 33);
    var expected := EnemySingle()[0 := 67];
    assert e.0 == expected by {
      assert forall i :: 0 <= i < ENEMY_FLEET_COUNT ==> e.0[i] == expected[i];
    }
    assert e.1 == 0;
  }

  /**
   * Mirror battle: both sides deal and take the same 33, and each side's
   * single fleet ends at 67.
   */
  lemma MirrorBattle()
    ensures BattleSimulate(MirrorQuery()) == Some(Report(
      ReportAlly(FORMATION_1, 33, AllySingle()[0 := 67]),
      ReportEnemy(FORMATION_1, 33, EnemySingle()[0 := 67], 0)))
  {
    MirrorForces();
    MirrorAttacks();
    AllySingleTakes33();
    EnemySingleTakes33();
  }

  /** The default query with the Yang flag switched on. */
  function YangQuery(): Query {
    SetEnemyHasYang(DefaultQuery(), true)
  }

  lemma YangQueryShape()
    ensures YangQuery().ally == DefaultQuery().ally
    ensures YangQuery().ally.fleetForces == AllySingle()
    ensures YangQuery().enemy.fleetForces == ENEMY_EMPTY
    ensures YangQuery().enemy.guardForce == FLEET_FORCE_MAX
    ensures EnemyAttackForce(YangQuery().enemy) == FLEET_FORCE_MAX
    ensures AllyFleetCount(YangQuery().ally) == 1 && EnemyFleetCount(YangQuery().enemy) == 1
  {
    DefaultEnemyForce();
    CountActiveNone(ENEMY_EMPTY);
  }

  lemma YangAttacks()
    ensures AllyFormationModified(YangQuery().ally) == FORMATION_1
    ensures EnemyFormationModified(YangQuery().enemy) == FORMATION_1
    ensures CalcAttacks(YangQuery()) == (3, 14)
  {
    DefaultAllyForce();
    YangQueryShape();
    var q := YangQuery();
    assert RawAllyAttack(q) == 4 && RawEnemyAttack(q) == 4;
  }

  lemma AllySingleTakes100()
    ensures CalcDamagePerFleet(14, 1) == 100
    ensures DamageAlly(AllySingle(), 100) == ALLY_EMPTY
  {
    var r := DamageAlly(AllySingle(), 100);
    assert forall i :: 0 <= i < ALLY_FLEET_COUNT ==> r[i] == 0;
  }

  lemma GuardTakes25()
    ensures CalcDamagePerFleet(3, 1) == 25
    ensures DamageEnemy(ENEMY_EMPTY, FLEET_FORCE_MAX, 25) == (ENEMY_EMPTY, 75)
  {
    EnemyEmptyAfter(25);
  }

  /**
   * The default query with Yang on: the ally's attack drops from 4 to 3
   * and the enemy's rises from 4 to 14, so the ally fleet takes the capped
   * 100 and is destroyed while the guard takes 300 / 12 = 25.
   */
  lemma YangBattle()
    ensures BattleSimulate(YangQuery()) == Some(Report(
      ReportAlly(FORMATION_1, 100, ALLY_EMPTY),
      ReportEnemy(FORMATION_1, 25, ENEMY_EMPTY, 75)))
  {
    YangQueryShape();
    YangAttacks();
    AllySingleTakes100();
    GuardTakes25();
  }

  /** One rested ally fleet of 30 in formation 3. */
  function WeakAlly(): QueryAlly {
    QueryAlly(ALLY_EMPTY[0 := 30], ALLY_RESTED, 3)
  }

  /**
   * The collapse test looks at the force before it is raised to 100: a
   * lone fleet of 30 attacks as if it had 100, yet 30 is below 40 per
   * fleet, so it fights in formation 0.
   */
  lemma WeakAllyCollapses()
    ensures AllyIsValid(WeakAlly())
    ensures AllyAttackForceClamped(WeakAlly()) == ATTACK_FORCE_MIN
    ensures AllyFormationModified(WeakAlly()) == FORMATION_0
  {
    var a := WeakAlly();
    assert a.fleetForces[0] != 0;
    CountActiveNone(a.fleetForces[1..]);
    SumForcesNone(a.fleetForces[1..]);
    SumRestedNoneTired(a.fleetForces, a.fleetIsTireds);
    assert AllyAttackForce(a) == 30 && AllyFleetCount(a) == 1;
  }

  /** 100 force over four standing fleets gives 100 / 40 = 2, at most 3: formation 3 collapses. */
  lemma CollapseExample()
    ensures ModifyFormation(4, 100, 3) == FORMATION_0
    ensures ModifyFormation(1, 100, 3) == 3
  {
  }

  /** One full ally fleet in formation 1 against one full enemy fleet in formation 4, no guard, no Yang. */
  function LoneEnemyQuery(): Query {
    Query(
      QueryAlly(AllySingle(), ALLY_RESTED, FORMATION_1),
      QueryEnemy(EnemySingle(), 0, 4, false))
  }

  /** The full enemy fleet of 100 with four fleets of force 1 standing beside it. */
  function EnemyWithStragglers(): (s: EnemyFleetForces)
    ensures s[0] == FLEET_FORCE_MAX && s[1] == 1 && s[2] == 1 && s[3] == 1 && s[4] == 1
    ensures forall i :: 5 <= i < ENEMY_FLEET_COUNT ==> s[i] == 0
  {
    EnemySingle()[1 := 1][2 := 1][3 := 1][4 := 1]
  }

  /** Five standing fleets. */
  lemma EnemyWithStragglersCount()
    ensures CountActive(EnemyWithStragglers()) == 5
  {
    var s0 := EnemySingle();
    var s1 := s0[1 := 1];
    var s2 := s1[2 := 1];
    var s3 := s2[3 := 1];
    assert s0[1] == 0 && s1[2] == 0 && s2[3] == 0 && s3[4] == 0;
    CountActiveReplace(s0, 1, 1);
    CountActiveReplace(s1, 2, 1);
    CountActiveReplace(s2, 3, 1);
    CountActiveReplace(s3, 4, 1);
    assert EnemyWithStragglers() == s3[4 := 1];
  }

  /** 104 force between them. */
  lemma EnemyWithStragglersSum()
    ensures SumForces(EnemyWithStragglers()) == 104
  {
    var s0 := EnemySingle();
    var s1 := s0[1 := 1];
    var s2 := s1[2 := 1];
    var s3 := s2[3 := 1];
    assert s0[1] == 0 && s1[2] == 0 && s2[3] == 0 && s3[4] == 0;
    SumForcesReplace(s0, 1, 1);
    SumForcesReplace(s1, 2, 1);
    SumForcesReplace(s2, 3, 1);
    SumForcesReplace(s3, 4, 1);
    assert EnemyWithStragglers() == s3[4 := 1];
  }

  /** The lone enemy fleet joined by four stragglers of force 1. */
  function StragglerQuery(): Query {
    LoneEnemyQuery().(enemy := LoneEnemyQuery().enemy.(fleetForces := EnemyWithStragglers()))
  }

  lemma LoneEnemyAttacks()
    ensures AllyFleetCount(LoneEnemyQuery().ally) == 1
    ensures AllyFormationModified(LoneEnemyQuery().ally) == FORMATION_1
    ensures EnemyFormationModified(LoneEnemyQuery().enemy) == 4
    ensures CalcAttacks(LoneEnemyQuery()).1 == 4
  {
    var q := LoneEnemyQuery();
    SumRestedNoneTired(q.ally.fleetForces, q.ally.fleetIsTireds);
    assert AllyFormationModified(q.ally) == FORMATION_1;
    assert EnemyAttackForce(q.enemy) == FLEET_FORCE_MAX;
  }

  lemma StragglerForces()
    ensures StragglerQuery().ally == LoneEnemyQuery().ally
    ensures EnemyFleetCount(StragglerQuery().enemy) == 5
    ensures EnemyAttackForce(StragglerQuery().enemy) == 104
    ensures EnemyFormationModified(StragglerQuery().enemy) == FORMATION_0
  {
    EnemyWithStragglersCount();
    EnemyWithStragglersSum();
  }

  lemma StragglerAttacks()
    ensures AllyFleetCount(StragglerQuery().ally) == 1
    ensures CalcAttacks(StragglerQuery()).1 == 1
  {
    LoneEnemyAttacks();
    StragglerForces();
    var q := StragglerQuery();
    assert AllyFormationModified(q.ally) == FORMATION_1;
    assert EnemyAttackForceClamped(q.enemy) == 104;
  }

  lemma LoneEnemyAllyDamage()
    ensures BattleSimulate(LoneEnemyQuery()).value.ally.damagePerFleet == 33
  {
    LoneEnemyAttacks();
    AllySingleTakes33();
    assert IsValid(LoneEnemyQuery());
  }

  lemma StragglerAllyDamage()
    ensures BattleSimulate(StragglerQuery()).value.ally.damagePerFleet == 8
  {
    StragglerAttacks();
    assert CalcDamagePerFleet(1, 1) == 8;
    assert IsValid(StragglerQuery());
  }

  /**
   * Why reinforcement is only monotone at a fixed count: four stragglers
   * of force 1 raise the enemy's force from 100 to 104 but its count from
   * 1 to 5, so 104 is below 40 per fleet and formation 4 collapses. The
   * enemy's attack drops from 4 to 1, and the lone ally fleet takes 8
   * instead of 33.
   */
  lemma StragglersWeakenEnemy()
    ensures EnemyAttackForce(LoneEnemyQuery().enemy) < EnemyAttackForce(StragglerQuery().enemy)
    ensures EnemyFormationModified(LoneEnemyQuery().enemy) == 4
    ensures EnemyFormationModified(StragglerQuery().enemy) == FORMATION_0
    ensures BattleSimulate(LoneEnemyQuery()).value.ally.damagePerFleet == 33
    ensures BattleSimulate(StragglerQuery()).value.ally.damagePerFleet == 8
  {
    LoneEnemyAttacks();
    StragglerForces();
    LoneEnemyAllyDamage();
    StragglerAllyDamage();
  }
}
