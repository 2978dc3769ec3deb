/** Unsigned helpers and facts about floor division on naturals. */
module Arith {

  function Min(a: nat, b: nat): (r: nat)
    ensures r <= a && r <= b
    ensures r == a || r == b
  {
    if a <= b then a else b
  }

  /** Unsigned subtraction that stops at zero instead of wrapping. */
  function SaturatingSub(a: nat, b: nat): (r: nat)
    ensures r <= a
    ensures b <= a ==> r + b == a
    ensures a <= b ==> r == 0
  {
    if b <= a then a - b else 0
  }

  /** The quotient is the largest multiplier of `d` that fits under `n`. */
  lemma QuotientBracket(n: nat, d: nat)
    requires d > 0
    ensures d * (n / d) <= n < d * (n / d) + d
  {
    assert n == d * (n / d) + n % d;
  }

  /**
   * `n / d` capped at `cap`: below the cap it is the largest multiplier of
   * `d` fitting under `n`, and the cap is hit exactly when `n` reaches
   * `d * cap`.
   */
  function CappedQuotient(n: nat, d: nat, cap: nat): (r: nat)
    requires d > 0
    ensures r <= cap
    ensures r == cap <==> n >= d * cap
    ensures r < cap ==> d * r <= n < d * r + d
  {
    QuotientBracket(n, d);
    DivAtLeastIff(n, d, cap);
    Min(n / d, cap)
  }

  /** Any multiplier that fits under `a` is at most the quotient. */
  lemma DivLowerBound(a: nat, d: nat, q: nat)
    requires d > 0 && d * q <= a
    ensures q <= a / d
  {
    var k := a / d;
    assert a == d * k + a % d;
    if q > k {
      assert d * q >= d * (k + 1) by {
        assert d * q - d * (k + 1) == d * (q - (k + 1));
      }
    }
  }

  /** The quotient is below any multiplier that overshoots `a`. */
  lemma DivUpperBound(a: nat, d: nat, q: nat)
    requires d > 0 && a < d * q
    ensures a / d < q
  {
    var k := a / d;
    assert a == d * k + a % d;
  }

  /** `a / d <= k` holds exactly when `a` is below `d * (k + 1)`. */
  lemma DivAtMostIff(a: nat, d: nat, k: nat)
    requires d > 0
    ensures a / d <= k <==> a < d * (k + 1)
  {
    if a < d * (k + 1) {
      DivUpperBound(a, d, k + 1);
    } else {
      DivLowerBound(a, d, k + 1);
    }
  }

  /** `a / d >= k` holds exactly when `a` reaches `d * k`. */
  lemma DivAtLeastIff(a: nat, d: nat, k: nat)
    requires d > 0
    ensures a / d >= k <==> a >= d * k
  {
    if a >= d * k {
      DivLowerBound(a, d, k);
    } else {
      DivUpperBound(a, d, k);
    }
  }

  lemma DivMonoNumerator(a: nat, b: nat, d: nat)
    requires a <= b && d > 0
    ensures a / d <= b / d
  {
    var k := a / d;
    assert d * k <= a by {
      assert a == d * k + a % d;
    }
    DivLowerBound(b, d, k);
  }

  /** A multiple of `c` leaves no remainder. */
  lemma MultipleModZero(k: nat, c: nat)
    requires c > 0
    ensures (k * c) % c == 0 && (k * c) / c == k
  {
    DivAtLeastIff(k * c, c, k);
    DivAtMostIff(k * c, c, k);
    assert (k * c) / c == k;
    assert k * c == c * ((k * c) / c) + (k * c) % c;
  }

  lemma MulMonoLeft(x: nat, y: nat, k: nat)
    requires x <= y
    ensures x * k <= y * k
  {
    assert y * k == x * k + (y - x) * k;
  }

  lemma DivAntiMonoDenominator(a: nat, d1: nat, d2: nat)
    requires 0 < d1 <= d2
    ensures a / d2 <= a / d1
  {
    var k := a / d2;
    QuotientBracket(a, d2);
    MulMonoLeft(d1, d2, k);
    DivLowerBound(a, d1, k);
  }
}
