/** Aggregates over a side's sequence of fleet forces. */
module Fleets {
  import opened Units

  /** Number of fleets still standing (nonzero force). */
  function CountActive(s: seq<FleetForce>): (n: nat)
    ensures n <= |s|
  {
    if |s| == 0 then 0
    else (if s[0] == 0 then 0 else 1) + CountActive(s[1..])
  }

  /** Some fleet still has nonzero force. */
  predicate AnyActive(s: seq<FleetForce>) {
    exists i :: 0 <= i < |s| && s[i] != 0
  }

  /** Total force of every fleet. */
  function SumForces(s: seq<FleetForce>): (total: nat)
    ensures total <= FLEET_FORCE_MAX * |s|
  {
    if |s| == 0 then 0 else s[0] + SumForces(s[1..])
  }

  /** Total force of the fleets whose parallel fatigue flag is off. */
  function SumRested(s: seq<FleetForce>, tired: seq<bool>): (total: nat)
    requires |s| == |tired|
    ensures total <= SumForces(s)
  {
    if |s| == 0 then 0
    else (if tired[0] then 0 else s[0]) + SumRested(s[1..], tired[1..])
  }

  /** The count is positive exactly when some fleet is standing. */
  lemma {:induction false} CountActivePositive(s: seq<FleetForce>)
    ensures CountActive(s) > 0 <==> AnyActive(s)
  {
    if |s| > 0 {
      CountActivePositive(s[1..]);
      if s[0] == 0 && AnyActive(s) {
        var i :| 0 <= i < |s| && s[i] != 0;
        assert s[1..][i - 1] != 0;
      }
      if AnyActive(s[1..]) {
        var i :| 0 <= i < |s[1..]| && s[1..][i] != 0;
        assert s[i + 1] != 0;
      }
    }
  }

  /** Each standing fleet contributes between 1 and 100 to the total. */
  lemma {:induction false} SumBetweenCounts(s: seq<FleetForce>)
    ensures CountActive(s) <= SumForces(s) <= FLEET_FORCE_MAX * CountActive(s)
  {
    if |s| > 0 {
      SumBetweenCounts(s[1..]);
    }
  }

  /** With no fatigued fleet, every fleet's force counts. */
  lemma {:induction false} SumRestedNoneTired(s: seq<FleetForce>, tired: seq<bool>)
    requires |s| == |tired|
    requires forall i :: 0 <= i < |tired| ==> !tired[i]
    ensures SumRested(s, tired) == SumForces(s)
  {
    if |s| > 0 {
      assert forall i :: 0 <= i < |tired[1..]| ==> !tired[1..][i] by {
        forall i | 0 <= i < |tired[1..]| ensures !tired[1..][i] {
          assert tired[1..][i] == tired[i + 1];
        }
      }
      SumRestedNoneTired(s[1..], tired[1..]);
    }
  }

  /** With every fleet fatigued, nothing counts. */
  lemma {:induction false} SumRestedAllTired(s: seq<FleetForce>, tired: seq<bool>)
    requires |s| == |tired|
    requires forall i :: 0 <= i < |tired| ==> tired[i]
    ensures SumRested(s, tired) == 0
  {
    if |s| > 0 {
      assert forall i :: 0 <= i < |tired[1..]| ==> tired[1..][i] by {
        forall i | 0 <= i < |tired[1..]| ensures tired[1..][i] {
          assert tired[1..][i] == tired[i + 1];
        }
      }
      SumRestedAllTired(s[1..], tired[1..]);
    }
  }

  /** No standing fleet in an all-empty sequence. */
  lemma {:induction false} CountActiveNone(s: seq<FleetForce>)
    requires forall i :: 0 <= i < |s| ==> s[i] == 0
    ensures CountActive(s) == 0
  {
    if |s| > 0 {
      assert forall i :: 0 <= i < |s[1..]| ==> s[1..][i] == 0 by {
        forall i | 0 <= i < |s[1..]| ensures s[1..][i] == 0 {
          assert s[1..][i] == s[i + 1];
        }
      }
      CountActiveNone(s[1..]);
    }
  }

  /** An all-empty sequence has no force. */
  lemma {:induction false} SumForcesNone(s: seq<FleetForce>)
    requires forall i :: 0 <= i < |s| ==> s[i] == 0
    ensures SumForces(s) == 0
  {
    if |s| > 0 {
      assert forall i :: 0 <= i < |s[1..]| ==> s[1..][i] == 0 by {
        forall i | 0 <= i < |s[1..]| ensures s[1..][i] == 0 {
          assert s[1..][i] == s[i + 1];
        }
      }
      SumForcesNone(s[1..]);
    }
  }

  /** Fatiguing more fleets never raises the rested force. */
  lemma {:induction false} SumRestedMoreTired(s: seq<FleetForce>, t1: seq<bool>, t2: seq<bool>)
    requires |s| == |t1| == |t2|
    requires forall i :: 0 <= i < |s| && t1[i] ==> t2[i]
    ensures SumRested(s, t2) <= SumRested(s, t1)
  {
    if |s| > 0 {
      assert forall i :: 0 <= i < |s[1..]| && t1[1..][i] ==> t2[1..][i] by {
        forall i | 0 <= i < |s[1..]| && t1[1..][i] ensures t2[1..][i] {
          assert t1[1..][i] == t1[i + 1] && t2[1..][i] == t2[i + 1];
        }
      }
      SumRestedMoreTired(s[1..], t1[1..], t2[1..]);
    }
  }

  /** Clearing fatigue flag `idx` adds exactly fleet `idx`'s force to the rested sum. */
  lemma {:induction false} SumRestedSetFlag(s: seq<FleetForce>, t: seq<bool>, idx: nat)
    requires |s| == |t|
    requires idx < |s|
    ensures SumRested(s, t[idx := false]) == SumRested(s, t[idx := true]) + s[idx]
  {
    if idx == 0 {
      assert t[0 := false][1..] == t[1..] == t[0 := true][1..];
    } else {
      assert t[idx := false][1..] == t[1..][idx - 1 := false];
      assert t[idx := true][1..] == t[1..][idx - 1 := true];
      SumRestedSetFlag(s[1..], t[1..], idx - 1);
    }
  }

  /**
   * Replacing fleet `idx` swaps its standing for the new force's in the
   * count; in particular a standing fleet given another nonzero force
   * keeps the count.
   */
  lemma {:induction false} CountActiveReplace(s: seq<FleetForce>, idx: nat, f: FleetForce)
    requires idx < |s|
    ensures CountActive(s[idx := f]) + (if s[idx] == 0 then 0 else 1)
         == CountActive(s) + (if f == 0 then 0 else 1)
  {
    if idx == 0 {
      assert s[0 := f][1..] == s[1..];
    } else {
      assert s[idx := f][1..] == s[1..][idx - 1 := f];
      CountActiveReplace(s[1..], idx - 1, f);
    }
  }

  /** Replacing fleet `idx` swaps its old force for the new one in the total. */
  lemma {:induction false} SumForcesReplace(s: seq<FleetForce>, idx: nat, f: FleetForce)
    requires idx < |s|
    ensures SumForces(s[idx := f]) + s[idx] == SumForces(s) + f
  {
    if idx == 0 {
      assert s[0 := f][1..] == s[1..];
    } else {
      assert s[idx := f][1..] == s[1..][idx - 1 := f];
      SumForcesReplace(s[1..], idx - 1, f);
    }
  }

  /**
   * Replacing fleet `idx` swaps its old force for the new one in the rested
   * total when the fleet is rested, and changes nothing when it is fatigued.
   */
  lemma {:induction false} SumRestedReplace(s: seq<FleetForce>, t: seq<bool>, idx: nat, f: FleetForce)
    requires |s| == |t| && idx < |s|
    ensures SumRested(s[idx := f], t) + (if t[idx] then 0 else s[idx])
         == SumRested(s, t) + (if t[idx] then 0 else f)
  {
    if idx == 0 {
      assert s[0 := f][1..] == s[1..];
    } else {
      assert s[idx := f][1..] == s[1..][idx - 1 := f];
      assert t[1..][idx - 1] == t[idx];
      SumRestedReplace(s[1..], t[1..], idx - 1, f);
    }
  }
}
