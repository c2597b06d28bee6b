/**
 * Address derivation of the second crate (`program/src/lib.rs`): the program id is the
 * crate's own id, every seed list starts with a domain separator, and each function
 * returns the bump seed with the address.
 */
module ProgramDerivation {
  import opened Common
  import Borsh
  import Derivation

  /** The position seeds: "tokenizer", the mint key, then the expiry date as eight little-endian bytes. */
  function TokenizerSeeds(underlyingMint: Pubkey, expiryDate: i64): (seeds: seq<seq<byte>>)
    ensures |seeds| == 3 && seeds[0] == [0x74, 0x6F, 0x6B, 0x65, 0x6E, 0x69, 0x7A, 0x65, 0x72] && seeds[1] == underlyingMint
    ensures |seeds[2]| == 8 && Borsh.DecodeI64(seeds[2]) == expiryDate
  {
    Borsh.I64RoundTrip(expiryDate);
    [Derivation.Ascii("tokenizer"), underlyingMint, Borsh.EncodeI64(expiryDate)]
  }

  /** The principal mint seeds: "principal", then the position key. */
  function PrincipalSeeds(tokenizer: Pubkey): (seeds: seq<seq<byte>>)
    ensures |seeds| == 2 && seeds[0] == [0x70, 0x72, 0x69, 0x6E, 0x63, 0x69, 0x70, 0x61, 0x6C] && seeds[1] == tokenizer
  {
    [Derivation.Ascii("principal"), tokenizer]
  }

  /** The yield mint seeds: "yield", then the position key. */
  function YieldSeeds(tokenizer: Pubkey): (seeds: seq<seq<byte>>)
    ensures |seeds| == 2 && seeds[0] == [0x79, 0x69, 0x65, 0x6C, 0x64] && seeds[1] == tokenizer
  {
    [Derivation.Ascii("yield"), tokenizer]
  }

  /** `get_tokenizer_address(underlying_mint, expiry_date)`, derived under `crate::id()` (`programId`). */
  function GetTokenizerAddress(find: Derivation.Finder, programId: Pubkey, underlyingMint: Pubkey, expiryDate: i64): (pda: Derivation.Pda)
    ensures pda == find([Derivation.Ascii("tokenizer"), underlyingMint, Borsh.EncodeI64(expiryDate)], programId)
  {
    find(TokenizerSeeds(underlyingMint, expiryDate), programId)
  }

  /** `get_principal_mint_address(tokenizer_address)`. */
  function GetPrincipalMintAddress(find: Derivation.Finder, programId: Pubkey, tokenizer: Pubkey): (pda: Derivation.Pda)
    ensures pda == find([Derivation.Ascii("principal"), tokenizer], programId)
  {
    find(PrincipalSeeds(tokenizer), programId)
  }

  /** `get_yield_mint_address(tokenizer_address)`. */
  function GetYieldMintAddress(find: Derivation.Finder, programId: Pubkey, tokenizer: Pubkey): (pda: Derivation.Pda)
    ensures pda == find([Derivation.Ascii("yield"), tokenizer], programId)
  {
    find(YieldSeeds(tokenizer), programId)
  }

  /** Different expiry dates (or mints) give different position seed lists. */
  lemma {:induction false} TokenizerSeedsInjective(m1: Pubkey, e1: i64, m2: Pubkey, e2: i64)
    ensures TokenizerSeeds(m1, e1) == TokenizerSeeds(m2, e2) ==> m1 == m2 && e1 == e2
  {
    if TokenizerSeeds(m1, e1) == TokenizerSeeds(m2, e2) {
      assert TokenizerSeeds(m1, e1)[1] == TokenizerSeeds(m2, e2)[1];
      assert TokenizerSeeds(m1, e1)[2] == TokenizerSeeds(m2, e2)[2];
      Borsh.EncodeI64Injective(e1, e2);
    }
  }

  /** The "principal" and "yield" separators keep the two mint seed lists apart for every position. */
  lemma PrincipalYieldSeedsDiffer(t1: Pubkey, t2: Pubkey)
    ensures PrincipalSeeds(t1) != YieldSeeds(t2)
  {
    assert PrincipalSeeds(t1)[0][0] == 112 && YieldSeeds(t2)[0][0] == 121;
  }

  /** A position whose principal and yield mints share an address exhibits a collision of `find`. */
  lemma {:induction false} MintAddressClashIsCollision(find: Derivation.Finder, programId: Pubkey, underlyingMint: Pubkey, expiryDate: i64)
    ensures var t := GetTokenizerAddress(find, programId, underlyingMint, expiryDate).address;
            GetPrincipalMintAddress(find, programId, t).address == GetYieldMintAddress(find, programId, t).address ==>
              Derivation.Collision(find, PrincipalSeeds(t), YieldSeeds(t), programId)
  {
    var t := GetTokenizerAddress(find, programId, underlyingMint, expiryDate).address;
    PrincipalYieldSeedsDiffer(t, t);
  }

  /** Two different (mint, expiry) pairs that share a position address exhibit a collision of `find`. */
  lemma {:induction false} TokenizerAddressClashIsCollision(find: Derivation.Finder, programId: Pubkey, m1: Pubkey, e1: i64, m2: Pubkey, e2: i64)
    ensures (m1, e1) != (m2, e2) &&
            GetTokenizerAddress(find, programId, m1, e1).address == GetTokenizerAddress(find, programId, m2, e2).address ==>
              Derivation.Collision(find, TokenizerSeeds(m1, e1), TokenizerSeeds(m2, e2), programId)
  {
    TokenizerSeedsInjective(m1, e1, m2, e2);
  }
}
