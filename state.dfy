/**
 * The persisted position record (`LysergicTokenizerState`) and its Borsh layout: the fields
 * in declaration order, each fixed-width, so the encoding always has the same length.
 */
module State {
  import opened Common
  import opened Errors
  import Borsh

  datatype TokenizerState = TokenizerState(
    bump: byte,
    authority: Pubkey,
    principalTokenMint: Pubkey,
    yieldTokenMint: Pubkey,
    underlyingMint: Pubkey,
    underlyingVault: Pubkey,
    expiryDate: i64,
    fixedApy: u64)

  /** `LYSERGIC_TOKENIZER_STATE_SIZE`: one byte, five keys and two 8-byte integers. */
  const STATE_SIZE: nat := 1 + 32 + 32 + 32 + 32 + 32 + 8 + 8

  /** Byte offset of `expiry_date` in the encoding. */
  const EXPIRY_OFFSET: nat := 1 + 5 * 32

  /** `BorshSerialize`: the fields concatenated in declaration order. */
  function Serialize(s: TokenizerState): (b: seq<byte>)
    ensures |b| == STATE_SIZE
    ensures b[0] == s.bump
    ensures b[1..33] == s.authority && b[33..65] == s.principalTokenMint
    ensures b[65..97] == s.yieldTokenMint && b[97..129] == s.underlyingMint
    ensures b[129..161] == s.underlyingVault
    ensures b[EXPIRY_OFFSET..EXPIRY_OFFSET + 8] == Borsh.EncodeI64(s.expiryDate)
    ensures b[169..177] == Borsh.EncodeU64(s.fixedApy)
  {
    [s.bump] + s.authority + s.principalTokenMint + s.yieldTokenMint + s.underlyingMint
      + s.underlyingVault + Borsh.EncodeI64(s.expiryDate) + Borsh.EncodeU64(s.fixedApy)
  }

  /**
   * `try_from_slice`: reads every field in order; too few bytes or bytes left over are
   * rejected (the Borsh I/O error surfaces as `BorshIoError`).
   */
  function Deserialize(b: seq<byte>): (r: Result<TokenizerState, ProgramError>)
    ensures r.Ok? <==> |b| == STATE_SIZE
    ensures r.Err? ==> r.error == BorshIoError
  {
    if |b| != STATE_SIZE then Err(BorshIoError)
    else
      Ok(TokenizerState(
        b[0], b[1..33], b[33..65], b[65..97], b[97..129], b[129..161],
        Borsh.DecodeI64(b[161..169]), Borsh.DecodeU64(b[169..177])))
  }

  /** Decoding an encoded state gives the state back. */
  lemma {:induction false} DeserializeSerialize(s: TokenizerState)
    ensures Deserialize(Serialize(s)) == Ok(s)
  {
    var b := Serialize(s);
    Borsh.I64RoundTrip(s.expiryDate);
    Borsh.U64RoundTrip(s.fixedApy);
    assert b[161..169] == Borsh.EncodeI64(s.expiryDate);
    assert b[169..177] == Borsh.EncodeU64(s.fixedApy);
  }

  /** Every 177-byte string is the encoding of exactly the state it decodes to. */
  lemma {:induction false} SerializeDeserialize(b: seq<byte>)
    requires |b| == STATE_SIZE
    ensures Serialize(Deserialize(b).value) == b
  {
    var s := Deserialize(b).value;
    Borsh.I64Bytes(b[161..169]);
    Borsh.U64Bytes(b[169..177]);
    var e := Serialize(s);
    assert e[0] == b[0];
    assert e[1..33] == b[1..33] && e[33..65] == b[33..65] && e[65..97] == b[65..97];
    assert e[97..129] == b[97..129] && e[129..161] == b[129..161];
    assert e[161..169] == b[161..169] && e[169..177] == b[169..177];
    assert e == e[..1] + e[1..33] + e[33..65] + e[65..97] + e[97..129] + e[129..161] + e[161..169] + e[169..177];
    assert b == b[..1] + b[1..33] + b[33..65] + b[65..97] + b[97..129] + b[129..161] + b[161..169] + b[169..177];
  }

  /** The size constant is 177, and the expiry date is the 8 bytes after byte 161. */
  lemma StateSizeValue()
    ensures STATE_SIZE == 177 && EXPIRY_OFFSET == 161
  {
  }

  /** Two states with equal encodings are equal. */
  lemma {:induction false} SerializeInjective(s1: TokenizerState, s2: TokenizerState)
    ensures Serialize(s1) == Serialize(s2) ==> s1 == s2
  {
    DeserializeSerialize(s1);
    DeserializeSerialize(s2);
  }
}
