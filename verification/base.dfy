/** Machine integers, byte strings and the Option/Result wrappers that the
    runtime's types are built from.

    Rust's fixed-width integers are modelled as subset types of `nat`, so every
    arithmetic result that is stored in one of them must be shown to fit: an
    overflow in the source becomes a verification error here, and a
    wrap-around or saturation the source performs on purpose is written out. */
module Base {

  const U32_LIMIT: nat := 0x1_0000_0000
  const U64_LIMIT: nat := 0x1_0000_0000_0000_0000

  type u8 = x: nat | x < 0x100
  type u32 = x: nat | x < 0x1_0000_0000
  type u64 = x: nat | x < 0x1_0000_0000_0000_0000
  type u128 = x: nat | x < 0x1_0000_0000_0000_0000_0000_0000_0000_0000

  const U64_MAX: u64 := 0xFFFF_FFFF_FFFF_FFFF

  type Bytes = seq<u8>

  /** A 20-byte Ethereum address (`H160`). */
  type H160 = s: Bytes | |s| == 20 witness seq(20, _ => 0)

  /** A 32-byte native account identifier (`AccountId32`). */
  type AccountId = s: Bytes | |s| == 32 witness seq(32, _ => 0)

  /** Rust's `Option`. */
  datatype Option<+T> = None | Some(value: T)

  /** Rust's `Result`. */
  datatype Result<+T, +E> = Ok(value: T) | Err(error: E)

  /** A factor of at least one does not shrink a natural number. */
  lemma MulAtLeastOne(k: nat, d: nat)
    requires d >= 1
    ensures k <= k * d
  {
  }

  /** Multiplication by a natural number is monotone. */
  lemma {:induction false} MulLeft(a: nat, b: nat, c: nat)
    requires a <= b
    ensures a * c <= b * c
  {
    assert b * c == a * c + (b - a) * c;
  }

  /** Multiplication by a positive natural number is strictly monotone. */
  lemma {:induction false} MulLeftStrict(a: nat, b: nat, c: nat)
    requires a < b && c > 0
    ensures a * c < b * c
  {
    assert b * c == a * c + (b - a) * c;
    MulAtLeastOne(c, b - a);
    assert c * (b - a) == (b - a) * c;
  }

  /** A positive factor can be cancelled from both sides of `<=` and `<`. */
  lemma {:induction false} MulCancel(a: nat, b: nat, c: nat)
    requires c > 0
    ensures a * c <= b * c ==> a <= b
    ensures a * c < b * c ==> a < b
  {
    if a > b {
      MulLeftStrict(b, a, c);
    } else if a == b {
    } else {
      MulLeftStrict(a, b, c);
    }
  }

  /** Euclidean division of naturals: the quotient rounds down and never
      exceeds the dividend. */
  lemma {:induction false} FloorDivBounds(n: nat, d: nat)
    requires d > 0
    ensures n == (n / d) * d + n % d && n % d < d
    ensures (n / d) * d <= n < (n / d + 1) * d
    ensures n / d <= n
  {
    var k, m := n / d, n % d;
    assert n == k * d + m;
    assert (k + 1) * d == k * d + d;
    MulAtLeastOne(k, d);
  }
}
