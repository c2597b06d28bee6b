/** Fixed-width integer ranges, keys and the failure-compatible wrappers shared by every module. */
module Common {

  /** An unsigned 8-bit value. */
  type byte = x: int | 0 <= x < 256

  const U64_LIMIT: int := 0x1_0000_0000_0000_0000
  const I64_MIN: int := -0x8000_0000_0000_0000
  const I64_MAX: int := 0x7fff_ffff_ffff_ffff

  /** Rust's `u64`. */
  type u64 = x: int | 0 <= x < 0x1_0000_0000_0000_0000

  /** Rust's `i64`. */
  type i64 = x: int | -0x8000_0000_0000_0000 <= x <= 0x7fff_ffff_ffff_ffff

  /** A 32-byte public key (`Pubkey`). */
  type Pubkey = s: seq<byte> | |s| == 32 witness seq(32, _ => 0)

  /** The all-zero key, `Pubkey::default()`. */
  const ZERO_KEY: Pubkey := [0, 0, 0, 0, 0, 0, 0, 0, 0, 0, 0, 0, 0, 0, 0, 0,
                            0, 0, 0, 0, 0, 0, 0, 0, 0, 0, 0, 0, 0, 0, 0, 0]

  datatype Option<+T> = None | Some(value: T)

  datatype Result<+T, +E> = Ok(value: T) | Err(error: E)

  /** `u64::saturating_sub`. */
  function SaturatingSub(a: nat, b: nat): (r: nat)
    ensures a <= b ==> r == 0
    ensures b < a ==> r + b == a
  {
    if a <= b then 0 else a - b
  }

  function Max(a: int, b: int): (r: int)
    ensures r >= a && r >= b && (r == a || r == b)
  {
    if a < b then b else a
  }

  /** Wraps an integer into the `i64` range, as two's-complement addition does in a release build. */
  function WrapI64(x: int): (r: i64)
    ensures (r - x) % U64_LIMIT == 0
    ensures I64_MIN <= x <= I64_MAX ==> r == x
  {
    var m := (x - I64_MIN) % U64_LIMIT;
    m + I64_MIN
  }

  /** Integer division rounding toward zero, as Rust's `/` on signed integers does. */
  function TruncDiv(a: int, d: int): (q: int)
    requires d > 0
    ensures a >= 0 ==> q * d <= a < q * d + d
    ensures a < 0 ==> q * d - d < a <= q * d
  {
    if a >= 0 then a / d else -((-a) / d)
  }
}
