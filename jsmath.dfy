/**
 * `Math.round` and `Math.ceil` applied to the exact quotient of two
 * integers, as the pages apply them to percentages and day counts.
 */
module JsMath {

  /**
   * `Math.round(n / d)` for d > 0: the integer nearest to n / d, a half
   * rounded up (towards +infinity, as `Math.round` does).
   */
  function RoundDiv(n: int, d: int): (r: int)
    requires d > 0
    ensures 2 * r * d - d <= 2 * n < 2 * r * d + d
  {
    var q := (2 * n + d) / (2 * d);
    assert 2 * n + d == q * (2 * d) + (2 * n + d) % (2 * d);
    q
  }

  /** `Math.ceil(n / d)` for d > 0: the least integer not below n / d. */
  function CeilDiv(n: int, d: int): (r: int)
    requires d > 0
    ensures (r - 1) * d < n <= r * d
  {
    var q := (n + d - 1) / d;
    assert n + d - 1 == q * d + (n + d - 1) % d;
    q
  }

  /** Multiplying by a positive factor preserves a strict order, read backwards. */
  lemma CancelPositiveFactor(a: int, b: int, d: int)
    requires d > 0 && a * d < b * d
    ensures a < b
  {
  }

  /** A rounded quotient is the only integer within half a unit of n / d. */
  lemma RoundDivUnique(n: int, d: int, r: int)
    requires d > 0
    requires 2 * r * d - d <= 2 * n < 2 * r * d + d
    ensures RoundDiv(n, d) == r
  {
    var q := RoundDiv(n, d);
    assert (2 * q - 1) * d < (2 * r + 1) * d;
    CancelPositiveFactor(2 * q - 1, 2 * r + 1, d);
    assert (2 * r - 1) * d < (2 * q + 1) * d;
    CancelPositiveFactor(2 * r - 1, 2 * q + 1, d);
  }
}
