/** The runtime's weight-to-fee polynomial (`WeightToFee::polynomial`).

    The fee is a degree-1 polynomial in the reference-time component of a
    weight. Its coefficient is the ratio `p / q`, where `p` is a tenth of a
    milli-unit and `q` is a hundred times the base weight of an extrinsic; it
    is stored as an integer part plus a per-billion fraction so that no
    precision is lost to the integer division. The base extrinsic weight is
    defined outside the runtime's core and is a parameter here. */
module WeightToFee {
  import opened Base
  import opened Perbill
  import Constants

  /** One term of a fee polynomial: `(coeffInteger + coeffFrac) * x^degree`,
      subtracted when `negative`. */
  datatype WeightToFeeCoefficient = WeightToFeeCoefficient(
    coeffInteger: u128,
    coeffFrac: Perbill,
    negative: bool,
    degree: u8)

  /** The coefficient's numerator: a tenth of a milli-unit. */
  const FEE_NUMERATOR: u128 := Constants.MILLI_UNIT / 10

  /** The coefficient's denominator for a base extrinsic reference time; the
      widening to 128 bits makes the product overflow-free. */
  function FeeDenominator(extrinsicBaseRefTime: u64): (q: u128)
    ensures extrinsicBaseRefTime > 0 ==> q >= 100
    ensures q / 100 == extrinsicBaseRefTime && q % 100 == 0
  {
    100 * extrinsicBaseRefTime
  }

  /** The degree-1 term with coefficient `p / q`, split into the integer
      quotient and the remainder as a per-billion fraction. */
  function RatioCoefficient(p: u128, q: u128): (c: WeightToFeeCoefficient)
    requires q > 0
    ensures c.degree == 1 && !c.negative
    ensures c.coeffInteger * q + p % q == p
    ensures c.coeffInteger * q <= p < (c.coeffInteger + 1) * q
    ensures c.coeffFrac < ACCURACY
    ensures c.coeffFrac * q <= (p % q) * ACCURACY < (c.coeffFrac + 1) * q
  {
    FloorDivBounds(p, q);
    WeightToFeeCoefficient(
      coeffInteger := p / q,
      coeffFrac := FromRational(p % q, q),
      negative := false,
      degree := 1)
  }

  /** The runtime's fee polynomial. A zero base extrinsic weight would make
      the integer division panic. */
  function Polynomial(extrinsicBaseRefTime: u64): (r: seq<WeightToFeeCoefficient>)
    requires extrinsicBaseRefTime > 0
    ensures |r| == 1
    ensures r[0].degree == 1 && !r[0].negative
    ensures var p, q := FEE_NUMERATOR, FeeDenominator(extrinsicBaseRefTime);
      && r[0].coeffInteger * q + p % q == p
      && r[0].coeffFrac * q <= (p % q) * ACCURACY < (r[0].coeffFrac + 1) * q
  {
    [RatioCoefficient(FEE_NUMERATOR, FeeDenominator(extrinsicBaseRefTime))]
  }

  /** The coefficient's value in billionths, `coeffInteger * 10^9 + coeffFrac`. */
  function CoefficientInBillionths(c: WeightToFeeCoefficient): nat {
    c.coeffInteger * ACCURACY + c.coeffFrac
  }

  /** Together, the integer part and the fraction are `p / q` rounded down to
      whole billionths: the split loses less than one billionth. */
  lemma CoefficientIsRatioInBillionths(extrinsicBaseRefTime: u64)
    requires extrinsicBaseRefTime > 0
    ensures var p, q := FEE_NUMERATOR, FeeDenominator(extrinsicBaseRefTime);
      var k := CoefficientInBillionths(Polynomial(extrinsicBaseRefTime)[0]);
      k * q <= p * ACCURACY < (k + 1) * q
  {
  }
}
