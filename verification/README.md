# LoghBattle combat engine, modelled in Dafny

This project models the combat-resolution engine of LoghBattle, a calculator
for one round of fleet combat in a turn-based strategy game (`src/battle.rs`).
A `Query` holds the ally side (11 fleet forces, 11 fatigue flags and a chosen
formation) and the enemy side (15 fleet forces, a garrison or "guard" force, a
formation and the Yang commander flag). `battle_simulate` returns nothing for an
invalid query. Otherwise it returns a `Report` with each side's effective
formation, the damage each of its fleets took, and the forces left afterwards.

The steps of one round:

1. The validity gate: some ally fleet is standing, and the guard or some enemy fleet is standing.
2. Counting standing fleets. The enemy count includes a standing guard; the ally count includes fatigued fleets.
3. Summing the attack force. Fatigued ally fleets are left out; the enemy guard is always in.
4. Clamping the attack force into [100, 1600].
5. Collapse to formation 0 when the force (capped at 1600, not raised to 100) divided by ten times the standing fleets is at most 3, i.e. below 40 per standing fleet.
6. The 8 x 8 formation coefficient table.
7. The Yang adjustment. It uses the ally's chosen formation, not the effective one.
8. Damage per fleet, `min(100, 100 * attack / (12 * count))`.
9. Saturating damage with the mercy kill. A fleet left at 8 or less is destroyed. The guard is destroyed only below 8.

Modules, one file each:

- `Wrappers`: the `Option` the engine returns. `Extract` requires `Some?` and is the model of Rust's `expect`.
- `Arith`: min, saturating subtraction, a capped quotient, and floor-division facts.
- `Units`: `FleetForce` (0..100) and `Formation` (0..7) as subset types, their range-checked constructors, and the coefficient table.
- `Fleets`: counting and summing over a sequence of fleet forces.
- `Queries`: the query records, validity, counts, attack forces, clamping, formation collapse, defaults, accessors and setters.
- `Battle`: the attacks, damage, damage application and `BattleSimulate`.
- `Scenarios`: complete rounds worked out on concrete queries.

The `ArrayVec`s are sequences whose length the type fixes (11 or 15). Rust's
`u32` is `nat`. No intermediate value can wrap a `u32`. Force sums are at most
1600. The final attacks are at most 55 (ally) and 90 (enemy), so
`100 * attack` is at most 9000. Counts are at most 16, so `u32_from_usize` is
the identity.

`modify_formation` (src/battle.rs:306-308) and `calc_damage_per_fleet`
(src/battle.rs:82) divide by the fleet count without a guard, and a zero
divisor panics. So `ModifyFormation` and
`CalcDamagePerFleet` require a count of at least 1. `AllyFleetCount` and
`EnemyFleetCount` prove that a valid query always has one, so
`BattleSimulate` never reaches the division by zero.

Reinforcing a side never weakens it, as long as its count of standing fleets
stays the same. The force can only grow, so a collapse can only be undone.
Formation 0 scores no more than any other formation. Adding new standing
fleets is different: it can cause a collapse, and `Scenarios.StragglersWeakenEnemy`
works out such a case.

## Model

Two predicates are plain definitions without a contract of their own; the
rows below use them. `Battle.YangApplies` is the condition of
src/battle.rs:63: Yang is on and the ally's chosen formation is not 5.
`Fleets.AnyActive` is the `any` test of src/battle.rs:220 and 279: some
fleet has nonzero force.

| member | source | states |
|---|---|---|
| `Units.NewFleetForce` | src/battle.rs:374-378 | yields a force exactly when the value is at most 100, and then carries that value |
| `Units.NewFormation` | src/battle.rs:420-424 | yields a formation exactly when the value is at most 7, and then carries that value |
| `Units.AttackCoef` | src/battle.rs:427-442 | defined for all 64 pairs; every entry is in [1, 5]; formation 0 scores 3 against itself and 1 against any other; any other formation scores 5 against formation 0 |
| `Units.CollapseNeverRaisesCoef` | src/battle.rs:427-442 | against any opponent, formation 0 never scores more than any other formation |
| `Fleets.CountActive` | src/battle.rs:198-200 | the number of standing fleets never exceeds the number of slots |
| `Fleets.CountActiveReplace` | src/battle.rs:198-200 | replacing one fleet's force swaps its standing for the new force's in the count; a standing fleet given another nonzero force keeps the count |
| `Fleets.CountActivePositive` | src/battle.rs:219-221 | the count of standing fleets is positive exactly when some fleet has nonzero force (the `any` test of validity) |
| `Fleets.SumForces` | src/battle.rs:268-273 | the total force of n fleets is at most 100 n |
| `Fleets.SumForcesReplace` | src/battle.rs:268-273 | replacing one fleet's force swaps the old force for the new one in the total |
| `Fleets.SumBetweenCounts` | src/battle.rs:267-276 | the total force lies between the number of standing fleets and 100 times that number |
| `Fleets.SumRested` | src/battle.rs:213-217 | leaving out fatigued fleets never gives more than the total force |
| `Fleets.SumRestedNoneTired` | src/battle.rs:213-217 | with no fleet fatigued, the rested force is the total force |
| `Fleets.SumRestedAllTired` | src/battle.rs:213-217 | with every fleet fatigued, the rested force is 0 |
| `Fleets.SumRestedMoreTired` | src/battle.rs:213-217 | fatiguing more fleets never raises the rested force |
| `Fleets.SumRestedSetFlag` | src/battle.rs:213-217 | clearing one fatigue flag adds exactly that fleet's force to the rested sum |
| `Fleets.SumRestedReplace` | src/battle.rs:213-217 | replacing one fleet's force swaps the old force for the new one in the rested total if that fleet is rested, and changes nothing if it is fatigued |
| `Queries.AllyIsValid` | src/battle.rs:219-221 | the ally side is valid exactly when at least one of its fleets is standing |
| `Queries.EnemyIsValid` | src/battle.rs:278-280 | the enemy side is valid exactly when the guard or at least one fleet is standing |
| `Queries.IsValid` | src/battle.rs:184-186 | a query is valid exactly when both sides are: a standing ally fleet, and a standing enemy guard or fleet |
| `Queries.AllyFleetCount` | src/battle.rs:198-200 | at most 11; at least 1 exactly when the ally side is valid |
| `Queries.EnemyFleetCount` | src/battle.rs:249-254 | the standing enemy fleets plus one exactly when the guard is nonzero; at most 16; at least 1 exactly when the enemy side is valid |
| `Queries.AllyAttackForce` | src/battle.rs:213-217 | at most the side's total force, and at most 1100 |
| `Queries.AllyAttackForceFatigue` | src/battle.rs:213-217 | no fatigue means the whole force attacks; all fatigued means none does |
| `Queries.EnemyAttackForce` | src/battle.rs:267-276 | at least the guard and at most 1600; between the enemy count and 100 times it; zero exactly when the enemy side is invalid |
| `Queries.ClampAttackForce` | src/battle.rs:299-301 | the result is in [100, 1600]: the input itself when in range, else the nearer bound |
| `Queries.ClampAttackForceMonotone` | src/battle.rs:299-301 | clamping preserves order |
| `Queries.AllyAttackForceClamped` | src/battle.rs:203-205 | in [100, 1100]; equal to the rested force once that reaches 100, and exactly 100 below that |
| `Queries.EnemyAttackForceClamped` | src/battle.rs:257-259 | in [100, 1600]; equal to the enemy force once that reaches 100, and exactly 100 below that |
| `Queries.ModifyFormation` | src/battle.rs:304-313 | the result is the chosen formation or 0; it is 0 when `min(force, 1600)` is below 40 per standing fleet (quotient by 10 n at most 3), and the chosen one otherwise |
| `Queries.ModifyFormationCollapseMonotone` | src/battle.rs:304-313 | a collapse at some force also happens at every smaller force |
| `Queries.ModifyFormationCollapseMoreFleets` | src/battle.rs:304-313 | a collapse with some fleet count also happens with every larger count |
| `Queries.ModifyFormationMoreForceCoef` | src/battle.rs:304-313 | at a fixed count, more force never lowers the coefficient the modified formation earns against a given opponent |
| `Queries.AllyFormationModified` | src/battle.rs:208-210 | formation 0 when the rested force, not raised to 100, is below 40 per standing fleet with fatigued fleets counted; the chosen formation otherwise |
| `Queries.EnemyFormationModified` | src/battle.rs:262-264 | formation 0 when the enemy force, guard included, is below 40 per standing unit, guard included; the chosen formation otherwise |
| `Queries.AllyAllTiredCollapses` | src/battle.rs:208-217 | an ally whose every fleet is fatigued always fights in formation 0 |
| `Queries.DefaultQueryAlly` | src/battle.rs:224-237 | slot 0 at 100, the rest 0, nobody fatigued, formation 1; valid with one standing fleet |
| `Queries.DefaultQueryEnemy` | src/battle.rs:283-296 | every fleet 0, guard 100, formation 1, no Yang; valid with one standing unit |
| `Queries.DefaultQuery` | src/battle.rs:121-125 | the default query is valid |
| `Queries.SetAllyFleetForce` | src/battle.rs:132-134 | reading slot idx back gives the new force; every other slot and field is unchanged; a nonzero force makes the ally side valid |
| `Queries.SetAllyFleetIsTired` | src/battle.rs:140-142 | reading flag idx back gives the new flag; everything else is unchanged |
| `Queries.TiringWithdrawsFleetForce` | src/battle.rs:198-217 | setting or clearing a fatigue flag leaves the ally count unchanged; the rested attack force with the flag clear is the one with it set plus that fleet's force |
| `Queries.SetAllyFormation` | src/battle.rs:148-150 | only the ally formation changes |
| `Queries.SetEnemyFleetForce` | src/battle.rs:156-158 | reading slot idx back gives the new force; everything else is unchanged; a nonzero force makes the enemy side valid |
| `Queries.SetEnemyGuardForce` | src/battle.rs:164-166 | only the guard changes; a nonzero guard makes the enemy side valid |
| `Queries.SetEnemyFormation` | src/battle.rs:172-174 | only the enemy formation changes |
| `Queries.SetEnemyHasYang` | src/battle.rs:180-182 | only the Yang flag changes |
| `Battle.CalcAttackRaw` | src/battle.rs:72-76 | the coefficient times the number of whole hundreds of force (a multiple of it, with that quotient); for a clamped force, between 1 and 16 times the coefficient |
| `Battle.CalcAttackRawMonotone` | src/battle.rs:72-76 | more force never gives less raw attack in the same matchup |
| `Battle.CalcAttackRawMonotoneCoef` | src/battle.rs:72-76 | a matchup with a larger coefficient never gives less raw attack from the same force |
| `Battle.RawAttackMonotoneForce` | src/battle.rs:72-76 | at a fixed count, more force never gives less raw attack against a fixed opponent formation, even when it undoes a collapse |
| `Battle.RawAllyAttack` | src/battle.rs:54-60 | the ally's raw attack is between its coefficient and 11 times it |
| `Battle.RawEnemyAttack` | src/battle.rs:57-61 | the enemy's raw attack is between its coefficient and 16 times it |
| `Battle.CalcAttacks` | src/battle.rs:53-69 | with Yang and a chosen ally formation other than 5, the ally gets raw / 2 + 1 and the enemy raw + 10; otherwise both stay raw; the ally never gains and the enemy never loses; at most 55 and 90 |
| `Battle.CalcDamagePerFleet` | src/battle.rs:79-83 | at most 100; exactly 100 when the attack reaches 12 per fleet; below the cap it is the largest r with 12 n r at most 100 times the attack |
| `Battle.CalcDamagePerFleetMonotoneAttack` | src/battle.rs:79-83 | a larger opponent attack never deals less damage per fleet |
| `Battle.CalcDamagePerFleetAntitoneCount` | src/battle.rs:79-83 | more standing fleets never take more damage each |
| `Battle.DamageFleet` | src/battle.rs:89-93 | never above the input; 0 exactly when the input is at most damage + 8; otherwise input minus damage, above 8; the `expect` cannot fail |
| `Battle.DamageGuard` | src/battle.rs:112-116 | never above the input; 0 exactly when the input is below damage + 8; otherwise input minus damage, at least 8; the `expect` cannot fail |
| `Battle.DamageFleetAntitone` | src/battle.rs:86-119 | heavier damage never leaves a fleet or guard stronger, so it never spares one a lighter blow would kill |
| `Battle.DamageFleetMonotone` | src/battle.rs:86-119 | a stronger fleet or guard never ends weaker under the same damage |
| `Battle.MercyKillAsymmetry` | src/battle.rs:86-119 | a remainder of exactly 8 destroys a fleet but leaves the guard at 8 |
| `Battle.DamageFleets` | src/battle.rs:87-94 | same length; slot by slot, the fleet law of `DamageFleet` |
| `Battle.DamageFleetsLocal` | src/battle.rs:87-94 | output slot i depends only on input slot i and the damage |
| `Battle.DamageAlly` | src/battle.rs:86-95 | all 11 ally slots follow the fleet law: none ends in 1..8, none rises, zero stays zero |
| `Battle.DamageEnemy` | src/battle.rs:98-119 | all 15 enemy slots follow the fleet law; the guard follows the guard law |
| `Battle.BattleSimulate` | src/battle.rs:17-50 | `None` exactly for an invalid query; otherwise each side reports its modified formation (the chosen one or 0) and takes, as damage per fleet, the capped quotient of the opponent's final attack (after Yang) over its own standing count, at most 100; each reported fleet is 0 exactly when its input force is at most the reported damage to its side plus 8, and otherwise is its input minus that damage, above 8; the reported guard is 0 exactly when it was below the enemy damage plus 8, and otherwise is its input minus that damage, at least 8 |
| `Battle.YangToggle` | src/battle.rs:63-66 | switching Yang on changes no attack when the ally chose formation 5; otherwise the ally's attack becomes half plus one and the enemy's gains 10 |
| `Battle.YangHurtsAlly` | src/battle.rs:17-66 | with Yang on, every ally fleet takes at least as much damage and ends no stronger; every enemy fleet and the guard take at most as much and end no weaker |
| `Battle.EnemyReinforcementRaisesAttack` | src/battle.rs:53-69 | raising the force of a standing enemy fleet keeps the query valid and never lowers the enemy's final attack |
| `Battle.EnemyReinforcementHurtsAlly` | src/battle.rs:17-50 | raising the force of a standing enemy fleet never lowers the damage per ally fleet and leaves no ally fleet stronger |
| `Battle.AllyReinforcementRaisesAttack` | src/battle.rs:53-69 | raising the force of a standing ally fleet, fatigued or not, keeps the query valid and never lowers the ally's final attack |
| `Battle.AllyReinforcementHurtsEnemy` | src/battle.rs:17-50 | raising the force of a standing ally fleet never lowers the damage per enemy fleet and leaves no enemy fleet and no guard stronger |
| `Scenarios.DefaultBattle` | src/battle.rs:17-50 | the default query: both sides in formation 1 deal 33; the ally fleet and the guard end at 67 |
| `Scenarios.MirrorBattle` | src/battle.rs:17-50 | one full fleet each, no guard: both take 33 and both fleets end at 67 |
| `Scenarios.YangBattle` | src/battle.rs:63-66 | Yang on the default query turns attacks 4/4 into 3/14; the ally fleet takes the capped 100 and is destroyed; the guard takes 25 |
| `Scenarios.WeakAllyCollapses` | src/battle.rs:203-210 | a lone fleet of 30 attacks as if it had 100 but still collapses, because the collapse test uses the force before the raise |
| `Scenarios.CollapseExample` | src/battle.rs:304-313 | force 100 over 4 fleets collapses formation 3; over 1 fleet it keeps it |
| `Scenarios.StragglersWeakenEnemy` | src/battle.rs:17-50 | a lone enemy fleet of 100 in formation 4 deals 33 to a lone ally fleet; adding four fleets of force 1 raises the force to 104 but the count to 5, so formation 4 collapses and the ally fleet takes only 8 |

## Left out

- Parsing from text (`FromStr`, src/battle.rs:393-401 and 445-453) is left out. It delegates to the standard integer parser and wraps errors in `anyhow`. Only the range checks (`NewFleetForce`, `NewFormation`) are modelled.
- `Display` (src/battle.rs:403-407 and 455-459) is left out. It is formatting only.
- The web front end (`src/web.rs`) is not part of this model. It only calls the setters and `battle_simulate` and renders the result.
- `util::u32_from_usize` is not part of this model. Counts are at most 16, so it is taken as the identity.
- `ArrayVec` capacity handling is left out. The fixed lengths 11 and 15 are part of the sequence types.
- The getters of `Query` and `Report` are field selections on the records. Only the indexed query getters are written out, because the setter contracts use them.
- `FleetForce::zero`, `is_zero`, `inner` and the `MIN`/`MAX` constants become the literal 0, comparisons with 0, and the bounds of the subset types.
- Rust panics are modelled as preconditions: an index outside 0..10 or 0..14 in a setter, and a zero fleet count in a division.
- `u32` wrap-around is not modelled. The bounds above show that no value comes near 2^32.
