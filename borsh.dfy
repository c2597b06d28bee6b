/**
 * The fixed-width part of the Borsh wire format used by the program: little-endian
 * integers, raw 32-byte keys, and readers that consume a prefix and return the rest.
 */
module Borsh {
  import opened Common

  /** 256 to the power `n`. */
  function Pow256(n: nat): (p: nat)
    ensures p >= 1
  {
    if n == 0 then 1 else 256 * Pow256(n - 1)
  }

  lemma Pow256Of8()
    ensures Pow256(8) == U64_LIMIT
  {
  }

  /** The low `n` bytes of `x`, least significant first. */
  function LeBytes(x: nat, n: nat): (b: seq<byte>)
    ensures |b| == n
  {
    if n == 0 then [] else [x % 256] + LeBytes(x / 256, n - 1)
  }

  /** The unsigned value of a little-endian byte string. */
  function FromLe(b: seq<byte>): (x: nat)
    ensures x < Pow256(|b|)
  {
    if b == [] then 0 else b[0] + 256 * FromLe(b[1..])
  }

  lemma {:induction false} FromLeOfLeBytes(x: nat, n: nat)
    requires x < Pow256(n)
    ensures FromLe(LeBytes(x, n)) == x
  {
    if n > 0 {
      var b := LeBytes(x, n);
      assert x / 256 < Pow256(n - 1);
      FromLeOfLeBytes(x / 256, n - 1);
      assert b[1..] == LeBytes(x / 256, n - 1);
    }
  }

  lemma {:induction false} LeBytesOfFromLe(b: seq<byte>)
    ensures LeBytes(FromLe(b), |b|) == b
  {
    if b != [] {
      var x := FromLe(b);
      assert x % 256 == b[0] && x / 256 == FromLe(b[1..]);
      LeBytesOfFromLe(b[1..]);
    }
  }

  /** Encoding of a `u64`: 8 bytes, little-endian. */
  function EncodeU64(x: u64): (b: seq<byte>)
    ensures |b| == 8
  {
    LeBytes(x, 8)
  }

  /** Encoding of an `i64`: the two's-complement bit pattern, 8 bytes, little-endian (`to_le_bytes`). */
  function EncodeI64(x: i64): (b: seq<byte>)
    ensures |b| == 8
  {
    LeBytes(if x < 0 then x + U64_LIMIT else x, 8)
  }

  function DecodeU64(b: seq<byte>): (x: u64)
    requires |b| == 8
  {
    Pow256Of8();
    FromLe(b)
  }

  function DecodeI64(b: seq<byte>): (x: i64)
    requires |b| == 8
  {
    var u := DecodeU64(b);
    if u > I64_MAX then u - U64_LIMIT else u
  }

  lemma U64RoundTrip(x: u64)
    ensures DecodeU64(EncodeU64(x)) == x
  {
    Pow256Of8();
    FromLeOfLeBytes(x, 8);
  }

  lemma I64RoundTrip(x: i64)
    ensures DecodeI64(EncodeI64(x)) == x
  {
    Pow256Of8();
    FromLeOfLeBytes(if x < 0 then x + U64_LIMIT else x, 8);
  }

  lemma U64Bytes(b: seq<byte>)
    requires |b| == 8
    ensures EncodeU64(DecodeU64(b)) == b
  {
    LeBytesOfFromLe(b);
  }

  lemma I64Bytes(b: seq<byte>)
    requires |b| == 8
    ensures EncodeI64(DecodeI64(b)) == b
  {
    LeBytesOfFromLe(b);
  }

  /** `to_le_bytes` on `i64` is injective: two dates with the same bytes are the same date. */
  lemma EncodeI64Injective(x: i64, y: i64)
    ensures EncodeI64(x) == EncodeI64(y) ==> x == y
  {
    I64RoundTrip(x);
    I64RoundTrip(y);
  }

  /** Reads one byte. */
  function ReadU8(b: seq<byte>): (r: Option<(byte, seq<byte>)>)
    ensures r.Some? <==> |b| >= 1
    ensures r.Some? ==> [r.value.0] + r.value.1 == b
  {
    if |b| < 1 then None else Some((b[0], b[1..]))
  }

  /** Reads a 32-byte key. */
  function ReadPubkey(b: seq<byte>): (r: Option<(Pubkey, seq<byte>)>)
    ensures r.Some? <==> |b| >= 32
    ensures r.Some? ==> r.value.0 + r.value.1 == b
  {
    if |b| < 32 then None else Some((b[..32], b[32..]))
  }

  /** Reads a little-endian `u64`. */
  function ReadU64(b: seq<byte>): (r: Option<(u64, seq<byte>)>)
    ensures r.Some? <==> |b| >= 8
    ensures r.Some? ==> EncodeU64(r.value.0) + r.value.1 == b
  {
    if |b| < 8 then None
    else
      U64Bytes(b[..8]);
      Some((DecodeU64(b[..8]), b[8..]))
  }

  /** Reads a little-endian `i64`. */
  function ReadI64(b: seq<byte>): (r: Option<(i64, seq<byte>)>)
    ensures r.Some? <==> |b| >= 8
    ensures r.Some? ==> EncodeI64(r.value.0) + r.value.1 == b
  {
    if |b| < 8 then None
    else
      I64Bytes(b[..8]);
      Some((DecodeI64(b[..8]), b[8..]))
  }

  lemma ReadU8Of(x: byte, rest: seq<byte>)
    ensures ReadU8([x] + rest) == Some((x, rest))
  {
    assert ([x] + rest)[1..] == rest;
  }

  lemma ReadPubkeyOf(k: Pubkey, rest: seq<byte>)
    ensures ReadPubkey(k + rest) == Some((k, rest))
  {
    assert (k + rest)[..32] == k;
    assert (k + rest)[32..] == rest;
  }

  lemma ReadU64Of(x: u64, rest: seq<byte>)
    ensures ReadU64(EncodeU64(x) + rest) == Some((x, rest))
  {
    var b := EncodeU64(x) + rest;
    assert b[..8] == EncodeU64(x);
    assert b[8..] == rest;
    U64RoundTrip(x);
  }

  lemma ReadI64Of(x: i64, rest: seq<byte>)
    ensures ReadI64(EncodeI64(x) + rest) == Some((x, rest))
  {
    var b := EncodeI64(x) + rest;
    assert b[..8] == EncodeI64(x);
    assert b[8..] == rest;
    I64RoundTrip(x);
  }
}
