/** The two bounded scalars of the game: a fleet's force and a formation. */
module Units {
  import opened Wrappers

  const FLEET_FORCE_MIN: nat := 0
  const FLEET_FORCE_MAX: nat := 100

  /** Troop strength of one fleet; zero means the fleet is destroyed or absent. */
  type FleetForce = x: nat | FLEET_FORCE_MIN <= x <= FLEET_FORCE_MAX

  const FORMATION_MIN: nat := 0
  const FORMATION_MAX: nat := 7

  /** One of the eight tactical stances; 0 is the collapsed stance. */
  type Formation = x: nat | FORMATION_MIN <= x <= FORMATION_MAX

  const FORMATION_0: Formation := 0
  const FORMATION_1: Formation := 1
  const FORMATION_5: Formation := 5

  /** The range-checked constructor: rejects anything above 100. */
  function NewFleetForce(inner: nat): (r: Option<FleetForce>)
    ensures r.Some? <==> inner <= FLEET_FORCE_MAX
    ensures r.Some? ==> r.value == inner
  {
    if inner <= FLEET_FORCE_MAX then Some(inner) else None
  }

  /** The range-checked constructor: rejects anything above 7. */
  function NewFormation(inner: nat): (r: Option<Formation>)
    ensures r.Some? <==> inner <= FORMATION_MAX
    ensures r.Some? ==> r.value == inner
  {
    if inner <= FORMATION_MAX then Some(inner) else None
  }

  /** Row = own formation, column = opponent's formation. */
  const COEF_TABLE: seq<seq<nat>> := [
    [3, 1, 1, 1, 1, 1, 1, 1],
    [5, 4, 3, 5, 4, 2, 2, 4],
    [5, 3, 2, 3, 4, 2, 1, 3],
    [5, 3, 3, 4, 4, 4, 3, 5],
    [5, 4, 2, 4, 5, 4, 5, 5],
    [5, 4, 3, 3, 3, 3, 2, 2],
    [5, 2, 3, 3, 3, 1, 1, 3],
    [5, 4, 4, 2, 5, 5, 3, 5]
  ]

  /**
   * Attack multiplier of formation `us` facing formation `them`. Every
   * entry lies in [1, 5]; the collapsed formation 0 scores 3 against
   * itself and 1 against anything else, while every other formation
   * scores the maximum 5 against a collapsed opponent.
   */
  function AttackCoef(us: Formation, them: Formation): (c: nat)
    ensures 1 <= c <= 5
    ensures us == FORMATION_0 ==> c == (if them == FORMATION_0 then 3 else 1)
    ensures us != FORMATION_0 && them == FORMATION_0 ==> c == 5
  {
    COEF_TABLE[us][them]
  }

  /**
   * Collapsing never raises one's own multiplier: against any opponent,
   * row 0 of the table is never above any other row.
   */
  lemma CollapseNeverRaisesCoef(us: Formation, them: Formation)
    ensures AttackCoef(FORMATION_0, them) <= AttackCoef(us, them)
  {
  }
}
