/** Parts-per-billion fractions (`Perbill`), as far as the runtime's core uses
    them: building one from a percentage or from a ratio, and scaling an
    integer by one. The library's rounding internals are not part of this
    model: `FromRational` and `MulFloor` round down, which is stated as an
    assumption about that library rather than derived from it. */
module Perbill {
  import opened Base

  /** One whole, in parts per billion. */
  const ACCURACY: nat := 1_000_000_000

  /** A fraction between zero and one whole, as a number of billionths. */
  type Perbill = parts: nat | parts <= 1_000_000_000

  /** `Perbill::from_percent`: percentages above 100 are clamped to one whole. */
  function FromPercent(percent: nat): (r: Perbill)
    ensures percent <= 100 ==> r * 100 == percent * ACCURACY
    ensures percent >= 100 ==> r == ACCURACY
  {
    (if percent < 100 then percent else 100) * 10_000_000
  }

  /** Scaling `n <= d` by `s / d` gives at most `s`, and strictly less when `n < d`. */
  lemma ScaledQuotientBound(n: nat, d: nat, s: nat)
    requires 0 < d && n <= d
    ensures (n * s) / d <= s
    ensures n < d && s > 0 ==> (n * s) / d < s
  {
    var k := (n * s) / d;
    FloorDivBounds(n * s, d);
    MulLeft(n, d, s);
    assert k * d <= s * d;
    MulCancel(k, s, d);
    if n < d && s > 0 {
      MulLeftStrict(n, d, s);
      assert k * d < s * d;
    }
  }

  /** `Perbill::from_rational(n, d)`: the fraction `n / d` rounded down to whole
      billionths; a zero denominator or a ratio above one gives one whole. */
  function FromRational(n: nat, d: nat): (r: Perbill)
    ensures d == 0 || n > d ==> r == ACCURACY
    ensures 0 < d && n <= d ==> r * d <= n * ACCURACY < (r + 1) * d
    ensures 0 < d && n < d ==> r < ACCURACY
  {
    if d == 0 || n > d then ACCURACY
    else
      ScaledQuotientBound(n, d, ACCURACY);
      FloorDivBounds(n * ACCURACY, d);
      (n * ACCURACY) / d
  }

  /** `ratio * x` for an unsigned 64-bit `x`, rounding down. */
  function MulFloor(ratio: Perbill, x: u64): (r: u64)
    ensures r <= x
    ensures r * ACCURACY <= ratio * x < (r + 1) * ACCURACY
  {
    MulLeft(ratio, ACCURACY, x);
    ScaledQuotientBound(ratio, ACCURACY, x);
    FloorDivBounds(ratio * x, ACCURACY);
    (ratio * x) / ACCURACY
  }
}
