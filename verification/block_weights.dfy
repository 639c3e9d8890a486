/** The runtime's per-class block weight limits (`RuntimeBlockWeights`).

    A block may spend at most `MAXIMUM_BLOCK_WEIGHT`: two seconds of
    reference time and the relay chain's maximum proof size. `Normal` calls
    may fill the block up to `NORMAL_DISPATCH_RATIO` (75%) of that; the
    `Operational` class may fill the whole block and has the remainder
    reserved for it, so that operational calls are included even when normal
    calls have used up their share.

    Multiplying a weight component by a `Perbill` is done by a library whose
    rounding is not part of this model, so it is a parameter `mul`; the
    properties below need only that the product never exceeds the factor it
    scales. `MulFloor` is one such multiplication. */
module BlockWeights {
  import opened Base
  import opened Primitives
  import opened Perbill

  /** Reference-time units in one second of execution. */
  const WEIGHT_REF_TIME_PER_SECOND: u64 := 1_000_000_000_000

  /** Unsigned 64-bit multiplication that saturates at the maximum. */
  function SaturatingMul(a: u64, b: u64): (r: u64)
    ensures r == a * b <==> a * b < U64_LIMIT
    ensures r != a * b ==> r == U64_MAX
  {
    if a * b < U64_LIMIT then a * b else U64_MAX
  }

  /** The maximum weight of a block, for the relay chain's maximum proof size
      `maxPovSize` (a 32-bit constant widened to 64 bits). */
  function MaximumBlockWeight(maxPovSize: u32): (r: Weight)
    ensures r.refTime == 2 * WEIGHT_REF_TIME_PER_SECOND
    ensures r.proofSize == maxPovSize
  {
    Weight(SaturatingMul(WEIGHT_REF_TIME_PER_SECOND, 2), maxPovSize)
  }

  /** The share of a block open to `Normal` calls. */
  const NORMAL_DISPATCH_RATIO: Perbill := FromPercent(75)

  /** A multiplication of a 64-bit integer by a `Perbill`. */
  type PerbillMul = (Perbill, u64) -> u64

  /** `ratio * w`, component by component. */
  function Scale(mul: PerbillMul, ratio: Perbill, w: Weight): Weight {
    Weight(mul(ratio, w.refTime), mul(ratio, w.proofSize))
  }

  /** `a - b` on weights, component by component. It must not underflow, so
      `b` must not exceed `a`. */
  function WeightSub(a: Weight, b: Weight): (r: Weight)
    requires WeightLe(b, a)
    ensures r.refTime + b.refTime == a.refTime
    ensures r.proofSize + b.proofSize == a.proofSize
  {
    Weight(a.refTime - b.refTime, a.proofSize - b.proofSize)
  }

  /** The limits the runtime sets per dispatch class. */
  datatype ClassLimits = ClassLimits(
    normalMaxTotal: Weight,
    operationalMaxTotal: Weight,
    operationalReserved: Weight)

  /** The runtime's class limits for a maximum block weight `maxBlock`. */
  function RuntimeClassLimits(mul: PerbillMul, maxBlock: Weight): (r: ClassLimits)
    requires forall ratio, x :: mul(ratio, x) <= x
    ensures r.normalMaxTotal == Scale(mul, NORMAL_DISPATCH_RATIO, maxBlock)
    ensures r.operationalMaxTotal == maxBlock
    ensures r.normalMaxTotal.refTime + r.operationalReserved.refTime == maxBlock.refTime
    ensures r.normalMaxTotal.proofSize + r.operationalReserved.proofSize == maxBlock.proofSize
    ensures WeightLe(r.normalMaxTotal, r.operationalMaxTotal)
  {
    var normal := Scale(mul, NORMAL_DISPATCH_RATIO, maxBlock);
    ClassLimits(
      normalMaxTotal := normal,
      operationalMaxTotal := maxBlock,
      operationalReserved := WeightSub(maxBlock, normal))
  }

  /** With rounding down, the normal class gets 1.5 seconds of the block's two,
      the operational reserve the remaining half second, and the proof size is
      split three to one up to rounding. */
  lemma RuntimeLimitsRoundingDown(maxPovSize: u32)
    ensures var maxBlock := MaximumBlockWeight(maxPovSize);
      var r := RuntimeClassLimits(MulFloor, maxBlock);
      && r.normalMaxTotal.refTime == 1_500_000_000_000
      && r.operationalReserved.refTime == 500_000_000_000
      && r.normalMaxTotal.proofSize * 4 <= 3 * maxPovSize < (r.normalMaxTotal.proofSize + 1) * 4
  {
  }
}
