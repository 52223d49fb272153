/** JavaScript's `Math.round` on a rational number, and two small
    arithmetic helpers. */
module Rounding {

  /** `Math.round(n / d)` for a positive denominator (Math.round is
      floor(x + 0.5)); never negative for a non-negative numerator. */
  function Round(n: int, d: int): (r: int)
    requires d > 0
    ensures n >= 0 ==> r >= 0
  {
    (2 * n + d) / (2 * d)
  }

  /** `Round(n, d)` is the integer nearest to n / d, exact halves going up. */
  lemma RoundIsNearest(n: int, d: int)
    requires d > 0
    ensures var r := Round(n, d); 2 * d * r - d <= 2 * n < 2 * d * r + d
  {
  }

  /** Cancelling a positive factor from both sides of `<=`. */
  lemma MulCancel(t: int, x: int, y: int)
    requires t > 0 && t * x <= t * y
    ensures x <= y
  {
    assert t * (x - y) <= 0;
  }

  function Max(a: int, b: int): (m: int)
    ensures m >= a && m >= b && (m == a || m == b)
  {
    if a >= b then a else b
  }
}
