/**
 * The integer percentages the dashboards display: JavaScript's
 * `Math.round(part / whole * 100)` computed exactly on naturals.
 */
module Numbers {
  /** `Math.round(part / whole * 100)` for a positive `whole`, in exact arithmetic; 0 otherwise. */
  function RoundPercent(part: nat, whole: nat): (p: nat)
    ensures whole == 0 ==> p == 0
    ensures part <= whole ==> p <= 100
    ensures whole > 0 && part == whole ==> p == 100
    ensures part == 0 ==> p == 0
    ensures whole > 0 ==> NearestPercent(part, whole, p)
  {
    if whole == 0 then 0
    else
      RoundBounds(part, whole);
      RoundNearest(part, whole);
      (200 * part + whole) / (2 * whole)
  }

  /**
   * `p` is the integer nearest to `100 * part / whole`, a half rounded up:
   * `p - 1/2 <= 100 * part / whole < p + 1/2`, multiplied out by `2 * whole`.
   */
  predicate NearestPercent(part: nat, whole: nat, p: nat) {
    2 * whole * p <= 200 * part + whole < 2 * whole * (p + 1)
  }

  /** At most one percentage is nearest, so `NearestPercent` pins the value down. */
  lemma NearestPercentUnique(part: nat, whole: nat, p: nat, q: nat)
    requires whole > 0 && NearestPercent(part, whole, p) && NearestPercent(part, whole, q)
    ensures p == q
  {
    var d := 2 * whole;
    if p < q {
      assert d * p <= 200 * part + whole < d * (p + 1);
      assert d * q <= 200 * part + whole;
      MulCancel(d, q, p + 1);
    } else if q < p {
      assert d * q <= 200 * part + whole < d * (q + 1);
      assert d * p <= 200 * part + whole;
      MulCancel(d, p, q + 1);
    }
  }

  lemma RoundNearest(part: nat, whole: nat)
    requires whole > 0
    ensures NearestPercent(part, whole, (200 * part + whole) / (2 * whole))
  {
    var n, d := 200 * part + whole, 2 * whole;
    var q := n / d;
    assert n == d * q + n % d && 0 <= n % d < d;
    assert d * (q + 1) == d * q + d;
  }

  lemma RoundBounds(part: nat, whole: nat)
    requires whole > 0
    ensures part <= whole ==> (200 * part + whole) / (2 * whole) <= 100
    ensures part == whole ==> (200 * part + whole) / (2 * whole) == 100
    ensures part == 0 ==> (200 * part + whole) / (2 * whole) == 0
  {
    if part <= whole {
      DivAtMost(200 * part + whole, 2 * whole, 100);
    }
    if part == whole {
      DivExact(200 * part + whole, 2 * whole, 100, whole);
    }
    if part == 0 {
      DivExact(whole, 2 * whole, 0, whole);
    }
  }

  lemma {:induction false} MulCancel(d: nat, a: nat, b: nat)
    requires d > 0 && d * a < d * b
    ensures a < b
    decreases a
  {
    if a > 0 && b > 0 {
      assert d * (a - 1) == d * a - d;
      assert d * (b - 1) == d * b - d;
      MulCancel(d, a - 1, b - 1);
    }
  }

  lemma DivAtMost(x: nat, d: nat, q: nat)
    requires d > 0 && x < d * (q + 1)
    ensures x / d <= q
  {
    assert d * (x / d) <= x;
    MulCancel(d, x / d, q + 1);
  }

  lemma DivExact(x: nat, d: nat, q: nat, r: nat)
    requires d > 0 && r < d && x == d * q + r
    ensures x / d == q
  {
    var k := x / d;
    assert x == d * k + x % d && x % d < d;
    assert d * (k + 1) == d * k + d;
    assert d * (q + 1) == d * q + d;
    MulCancel(d, k, q + 1);
    MulCancel(d, q, k + 1);
  }
}
