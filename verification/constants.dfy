/** The runtime's time and currency constants.

    Time is counted in blocks. The number of blocks per minute, hour and day is
    derived from the target block time; the derivation casts the block time to
    the 32-bit block-number type and divides, so it rounds down. */
module Constants {
  import opened Base

  /** Target block time, in milliseconds. */
  const MILLI_SECS_PER_BLOCK: u64 := 6000

  /** Slot duration used by block production; equal to the block time. */
  const SLOT_DURATION: u64 := MILLI_SECS_PER_BLOCK

  /** Milliseconds in a minute and in a day. */
  const MILLIS_PER_MINUTE: nat := 60_000
  const MILLIS_PER_HOUR: nat := 3_600_000
  const MILLIS_PER_DAY: nat := 86_400_000

  /** Rust's `x as u32` on a `u64`: keeps the low 32 bits. */
  function AsBlockNumber(x: u64): (r: u32)
    ensures x < U32_LIMIT ==> r == x
    ensures (x - r) % U32_LIMIT == 0
  {
    x % U32_LIMIT
  }

  /** Blocks per minute for a block time of `msPerBlock` milliseconds. A block
      time whose low 32 bits are zero would divide by zero. */
  function MinutesFor(msPerBlock: u64): (r: u32)
    requires AsBlockNumber(msPerBlock) > 0
    ensures r * AsBlockNumber(msPerBlock) <= MILLIS_PER_MINUTE < (r + 1) * AsBlockNumber(msPerBlock)
  {
    var b := AsBlockNumber(msPerBlock);
    FloorDivBounds(MILLIS_PER_MINUTE, b);
    MILLIS_PER_MINUTE / b
  }

  /** Blocks per hour: sixty minutes' worth, which never lasts longer than an hour. */
  function HoursFor(msPerBlock: u64): (r: u32)
    requires AsBlockNumber(msPerBlock) > 0
    ensures r == 60 * MinutesFor(msPerBlock)
    ensures r * AsBlockNumber(msPerBlock) <= MILLIS_PER_HOUR
  {
    MinutesFor(msPerBlock) * 60
  }

  /** Blocks per day: twenty-four hours' worth, which never lasts longer than a day. */
  function DaysFor(msPerBlock: u64): (r: u32)
    requires AsBlockNumber(msPerBlock) > 0
    ensures r == 24 * HoursFor(msPerBlock)
    ensures r * AsBlockNumber(msPerBlock) <= MILLIS_PER_DAY
  {
    HoursFor(msPerBlock) * 24
  }

  /** A day's worth of blocks never lasts longer than a day of block times,
      and lasts exactly a day when the block time divides a minute. The block
      time here is the one the source divides by: the low 32 bits of
      `msPerBlock`. */
  lemma {:induction false} DayOfBlocksFitsInADay(msPerBlock: u64)
    requires AsBlockNumber(msPerBlock) > 0
    ensures DaysFor(msPerBlock) * AsBlockNumber(msPerBlock) <= MILLIS_PER_DAY
    ensures MILLIS_PER_MINUTE % AsBlockNumber(msPerBlock) == 0 ==>
              DaysFor(msPerBlock) * AsBlockNumber(msPerBlock) == MILLIS_PER_DAY
  {
    var b := AsBlockNumber(msPerBlock);
    var m := MinutesFor(msPerBlock);
    assert DaysFor(msPerBlock) * b == 1440 * (m * b);
    if MILLIS_PER_MINUTE % b == 0 {
      FloorDivBounds(MILLIS_PER_MINUTE, b);
    }
  }

  /** The cast to the 32-bit block number wraps: a block time of 2^32 + 1 ms
      is divided as if it were 1 ms, so a "day" of such blocks lasts far
      longer than a day. */
  lemma WrappedBlockTimeOutlastsADay()
    ensures AsBlockNumber(0x1_0000_0001) == 1
    ensures DaysFor(0x1_0000_0001) == 86_400_000
    ensures DaysFor(0x1_0000_0001) * 0x1_0000_0001 > MILLIS_PER_DAY
  {
  }

  const MINUTES: u32 := MinutesFor(MILLI_SECS_PER_BLOCK)
  const HOURS: u32 := HoursFor(MILLI_SECS_PER_BLOCK)
  const DAYS: u32 := DaysFor(MILLI_SECS_PER_BLOCK)

  /** The 6-second block time gives 10 blocks a minute, 600 an hour and
      14 400 a day, and the slot duration is the block time. */
  lemma TimeUnits()
    ensures MINUTES == 10 && HOURS == 600 && DAYS == 14_400
    ensures SLOT_DURATION == MILLI_SECS_PER_BLOCK
    ensures DAYS * MILLI_SECS_PER_BLOCK == MILLIS_PER_DAY
  {
  }

  /** Balances are counted in indivisible units; one `UNIT` is 10^12 of them. */
  const UNIT: u128 := 1_000_000_000_000
  const MILLI_UNIT: u128 := 1_000_000_000
  const MICRO_UNIT: u128 := 1_000_000

  /** The smallest balance an account may hold. */
  const EXISTENTIAL_DEPOSIT: u128 := MILLI_UNIT

  /** Each step of the unit ladder is a factor of one thousand, and the
      existential deposit is one milli-unit. */
  lemma UnitLadder()
    ensures UNIT == 1000 * MILLI_UNIT == 1_000_000 * MICRO_UNIT
    ensures MILLI_UNIT == 1000 * MICRO_UNIT
    ensures EXISTENTIAL_DEPOSIT == MILLI_UNIT
  {
  }
}
