/**
 * JavaScript's numeric helpers on exact reals. Numbers are modelled as `real`
 * (no IEEE-754 rounding error), and `Math.round` as `Floor(x + 1/2)`, which is
 * JavaScript's rule: round to the nearest integer, halves towards +infinity.
 */
module JsMath {

  /** `Math.round(x)`. */
  function Round(x: real): (r: int)
    ensures x - 0.5 < r as real <= x + 0.5
  {
    (x + 0.5).Floor
  }

  /** `Math.round` gives the nearest integer, halves going up. */
  lemma RoundIsNearest(x: real)
    ensures Round(x) as real <= x + 0.5 < Round(x) as real + 1.0
  {
  }

  /** `Math.min(a, b)`. */
  function Min(a: real, b: real): (r: real)
    ensures r <= a && r <= b && (r == a || r == b)
  {
    if a <= b then a else b
  }

  /** `Math.max(a, b)`. */
  function Max(a: real, b: real): (r: real)
    ensures r >= a && r >= b && (r == a || r == b)
  {
    if a >= b then a else b
  }

  /** A value that is an integer. */
  predicate IsIntegral(x: real)
  {
    x == x.Floor as real
  }

  /** Rounding an integer gives it back. */
  lemma RoundOfInt(n: int)
    ensures Round(n as real) == n
  {
  }

  lemma RoundOfIntegral(x: real)
    requires IsIntegral(x)
    ensures Round(x) as real == x
  {
    RoundOfInt(x.Floor);
  }

  /** Rounding is monotone. */
  lemma RoundMonotone(x: real, y: real)
    requires x <= y
    ensures Round(x) <= Round(y)
  {
  }

  /** A value between two integers rounds to a value between them. */
  lemma RoundBetween(x: real, lo: int, hi: int)
    requires lo as real <= x <= hi as real
    ensures lo <= Round(x) <= hi
  {
    RoundMonotone(lo as real, x);
    RoundMonotone(x, hi as real);
    RoundOfInt(lo);
    RoundOfInt(hi);
  }

  /** Scaling a non-negative value by a factor in [0, 1] keeps it in [0, itself]. */
  lemma ScaleDown(s: real, f: real)
    requires 0.0 <= s && 0.0 <= f <= 1.0
    ensures 0.0 <= s * f <= s
  {
    assert s - s * f == s * (1.0 - f);
  }
}
