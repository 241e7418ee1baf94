/** `Math.round` on a quotient, as exact integer arithmetic. */
module Numbers {

  /**
   * `Math.round(n / d)` for a positive `d`: the integer nearest to n/d, a half
   * rounding up. The contract is the definition of that integer.
   */
  function RoundHalfUp(n: int, d: int): (r: int)
    requires d > 0
    ensures 2 * d * r <= 2 * n + d < 2 * d * (r + 1)
  {
    (2 * n + d) / (2 * d)
  }

  lemma MulMonotone(a: int, b: int, c: int)
    requires a >= 0 && b <= c
    ensures a * b <= a * c
  {
  }

  /** Rounding a quotient that lies between two integers stays between them. */
  lemma RoundHalfUpBetween(n: int, d: int, lo: int, hi: int)
    requires d > 0 && d * lo <= n <= d * hi
    ensures lo <= RoundHalfUp(n, d) <= hi
  {
    var r := RoundHalfUp(n, d);
    if r > hi {
      MulMonotone(2 * d, hi + 1, r);
    }
    if r < lo {
      MulMonotone(2 * d, r + 1, lo);
    }
  }
}
