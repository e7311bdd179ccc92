/** JavaScript's `Math.round` on the exact ratios the scorers form.

    `Math.round(x)` is `floor(x + 1/2)`: halves round up. For the ratios that
    occur (counts over small totals) the floating-point quotient lands on the
    same integer as the exact one, so the model computes on exact rationals. */
module Rounding {

  /** `Math.round(x)` on an exact real. */
  function RoundHalfUp(x: real): int {
    (x + 0.5).Floor
  }

  /** `Math.round(n / d)` in integer arithmetic: the integer nearest to the
      quotient, halves going up. */
  function RoundRatio(n: nat, d: nat): (r: nat)
    requires d > 0
    ensures d * (2 * r) <= 2 * n + d < d * (2 * r + 2)
  {
    (2 * n + d) / (2 * d)
  }

  /** The integer formula agrees with `Math.round` on the exact quotient. */
  lemma RoundRatioIsRoundHalfUp(n: nat, d: nat)
    requires d > 0
    ensures RoundRatio(n, d) == RoundHalfUp(n as real / d as real)
  {
    var r := RoundRatio(n, d);
    RatioBoundsAsReals(n, d, r);
    ShiftedQuotientFloor(n as real, d as real, r);
  }

  /** The integer bounds on `r`, read over the reals. */
  lemma RatioBoundsAsReals(n: nat, d: nat, r: int)
    requires d * (2 * r) <= 2 * n + d < d * (2 * r + 2)
    ensures r as real * d as real <= n as real + 0.5 * d as real < (r + 1) as real * d as real
  {
    assert d * (2 * r) == 2 * (d * r);
    assert d * (2 * r + 2) == 2 * (d * (r + 1));
    IntProductAsReal(d, r);
    IntProductAsReal(d, r + 1);
  }

  /** If `r * d <= n + d / 2 < (r + 1) * d` then `n / d + 1/2` has floor `r`. */
  lemma ShiftedQuotientFloor(n: real, d: real, r: int)
    requires d > 0.0
    requires r as real * d <= n + 0.5 * d < (r + 1) as real * d
    ensures (n / d + 0.5).Floor == r
  {
    var q := n / d;
    assert q * d == n;
    assert (q + 0.5 - r as real) * d == n + 0.5 * d - r as real * d;
    assert ((r + 1) as real - (q + 0.5)) * d == (r + 1) as real * d - (n + 0.5 * d);
    SignOfProduct(q + 0.5 - r as real, d);
    SignOfProduct((r + 1) as real - (q + 0.5), d);
    assert r as real <= q + 0.5 < (r + 1) as real;
  }

  lemma IntProductAsReal(a: int, b: int)
    ensures (a * b) as real == a as real * b as real
  {
  }

  /** A product with a positive factor has the sign of the other factor. */
  lemma SignOfProduct(a: real, d: real)
    requires d > 0.0
    ensures a * d >= 0.0 ==> a >= 0.0
    ensures a * d > 0.0 ==> a > 0.0
  {
    if a < 0.0 {
      assert a * d < 0.0;
    }
  }

  function Max1(t: nat): (r: nat)
    ensures r >= 1 && r >= t
    ensures t > 0 ==> r == t
  {
    if t > 1 then t else 1
  }

  /** `Math.round((correct / Math.max(total, 1)) * 100)`. */
  function Percent(correct: nat, total: nat): nat {
    RoundRatio(100 * correct, Max1(total))
  }

  /** A percentage of a share is a score in [0, 100]; no answers score 0 and all correct scores 100. */
  lemma PercentBounds(correct: nat, total: nat)
    requires correct <= total
    ensures 0 <= Percent(correct, total) <= 100
    ensures total == 0 ==> Percent(correct, total) == 0
    ensures total > 0 && correct == total ==> Percent(correct, total) == 100
    ensures Percent(correct, total) == 0 <==> 200 * correct < Max1(total)
  {
    var d := Max1(total);
    var r := Percent(correct, total);
    assert d * (2 * r) <= 200 * correct + d <= d * 201;
    MulCancel(d, 2 * r, 201);
    if total > 0 && correct == total {
      assert d * 201 < d * (2 * r + 2);
      if 2 * r + 2 <= 201 {
        MulMono(d, 2 * r + 2, 201);
      }
    }
    if r != 0 {
      MulMono(d, 2, 2 * r);
    } else {
      assert 200 * correct + d < d * 2;
    }
  }

  /** A higher count never lowers the percentage. */
  lemma PercentMonotone(c1: nat, c2: nat, total: nat)
    requires c1 <= c2
    ensures Percent(c1, total) <= Percent(c2, total)
  {
    var d := Max1(total);
    var r1, r2 := Percent(c1, total), Percent(c2, total);
    assert d * (2 * r1) <= 200 * c1 + d <= 200 * c2 + d < d * (2 * r2 + 2);
    MulCancel(d, 2 * r1, 2 * r2 + 2);
  }

  lemma MulMono(d: nat, x: nat, y: nat)
    requires x <= y
    ensures d * x <= d * y
  {
    assert d * y == d * x + d * (y - x);
  }

  lemma MulCancel(d: nat, x: nat, y: nat)
    requires d > 0 && d * x <= d * y
    ensures x <= y
  {
    if x > y {
      assert d * (y + 1) == d * y + d;
      MulMono(d, y + 1, x);
    }
  }

  /** `Math.round((a + b + c) / 3)`. */
  function Mean3(a: nat, b: nat, c: nat): nat {
    RoundRatio(a + b + c, 3)
  }

  /** `Math.round((a + b + c + e) / 4)`. */
  function Mean4(a: nat, b: nat, c: nat, e: nat): nat {
    RoundRatio(a + b + c + e, 4)
  }

  /** The rounded mean lies between the smallest and the largest input. */
  lemma Mean3Between(a: nat, b: nat, c: nat, lo: nat, hi: nat)
    requires lo <= a <= hi && lo <= b <= hi && lo <= c <= hi
    ensures lo <= Mean3(a, b, c) <= hi
  {
  }

  lemma Mean4Between(a: nat, b: nat, c: nat, e: nat, lo: nat, hi: nat)
    requires lo <= a <= hi && lo <= b <= hi && lo <= c <= hi && lo <= e <= hi
    ensures lo <= Mean4(a, b, c, e) <= hi
  {
  }
}
