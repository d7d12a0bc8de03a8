/** Python's `round(x, 2)` on percentages, held as integers in hundredths. */
module Rounding {
  /** `round(n / d, 2)` in hundredths: the integer nearest to n / d, halves rounded up. */
  function RoundDiv(n: int, d: int): (r: int)
    requires d > 0
    ensures -d <= 2 * (n - d * r) < d
  {
    (2 * n + d) / (2 * d)
  }
}
