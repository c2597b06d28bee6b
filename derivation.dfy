/**
 * Address derivation of the on-chain crate (`src/lib.rs`). Every address is
 * `Pubkey::find_program_address(seeds, program_id)`; that hash is not part of this model, so each
 * derivation takes it as a parameter (`Finder`) and the seed lists are what is reasoned about.
 * Here the program id is a parameter of each function, and the seeds carry no domain prefix
 * for the position and put the position key first for the two mints.
 */
module Derivation {
  import opened Common
  import Borsh

  /** A program-derived address and its bump seed, as `find_program_address` returns them. */
  datatype Pda = Pda(address: Pubkey, bump: byte)

  /** `Pubkey::find_program_address`: a deterministic function of the seed list and the program id. */
  type Finder = (seq<seq<byte>>, Pubkey) -> Pda

  /** The bytes of an ASCII string literal (`b"..."`). */
  function Ascii(s: string): (b: seq<byte>)
    ensures |b| == |s|
    ensures forall i :: 0 <= i < |s| ==> b[i] == (s[i] as int) % 256
  {
    if s == [] then [] else [(s[0] as int) % 256] + Ascii(s[1..])
  }

  /** The position seeds: the mint key, then the expiry date as eight little-endian bytes. */
  function TokenizerSeeds(underlyingMint: Pubkey, expiryDate: i64): (seeds: seq<seq<byte>>)
    ensures |seeds| == 2 && seeds[0] == underlyingMint
    ensures |seeds[1]| == 8 && Borsh.DecodeI64(seeds[1]) == expiryDate
  {
    Borsh.I64RoundTrip(expiryDate);
    [underlyingMint, Borsh.EncodeI64(expiryDate)]
  }

  /** The principal mint seeds: the position key, then the nine bytes of "principal". */
  function PrincipalSeeds(tokenizer: Pubkey): (seeds: seq<seq<byte>>)
    ensures |seeds| == 2 && seeds[0] == tokenizer && seeds[1] == [0x70, 0x72, 0x69, 0x6E, 0x63, 0x69, 0x70, 0x61, 0x6C]
  {
    [tokenizer, Ascii("principal")]
  }

  /** The yield mint seeds: the position key, then the five bytes of "yield". */
  function YieldSeeds(tokenizer: Pubkey): (seeds: seq<seq<byte>>)
    ensures |seeds| == 2 && seeds[0] == tokenizer && seeds[1] == [0x79, 0x69, 0x65, 0x6C, 0x64]
  {
    [tokenizer, Ascii("yield")]
  }

  /** `get_tokenizer_address(program_id, underlying_mint, expiry_date)`. */
  function GetTokenizerAddress(find: Finder, programId: Pubkey, underlyingMint: Pubkey, expiryDate: i64): (k: Pubkey)
    ensures k == find([underlyingMint, Borsh.EncodeI64(expiryDate)], programId).address
  {
    find(TokenizerSeeds(underlyingMint, expiryDate), programId).address
  }

  /** `get_principal_mint_address(program_id, tokenizer_address)`. */
  function GetPrincipalMintAddress(find: Finder, programId: Pubkey, tokenizer: Pubkey): (k: Pubkey)
    ensures k == find([tokenizer, Ascii("principal")], programId).address
  {
    find(PrincipalSeeds(tokenizer), programId).address
  }

  /** `get_yield_mint_address(program_id, tokenizer_address)`. */
  function GetYieldMintAddress(find: Finder, programId: Pubkey, tokenizer: Pubkey): (k: Pubkey)
    ensures k == find([tokenizer, Ascii("yield")], programId).address
  {
    find(YieldSeeds(tokenizer), programId).address
  }

  /**
   * Two different seed lists that `find` maps to one address under one program id. A 32-byte
   * address space cannot keep every pair of seed lists apart, so the address-level facts below
   * are stated as: a clash of addresses exhibits such a collision.
   */
  predicate Collision(find: Finder, s1: seq<seq<byte>>, s2: seq<seq<byte>>, programId: Pubkey)
  {
    s1 != s2 && find(s1, programId).address == find(s2, programId).address
  }

  /** The position seeds determine the mint and the expiry date they were built from. */
  lemma {:induction false} TokenizerSeedsInjective(m1: Pubkey, e1: i64, m2: Pubkey, e2: i64)
    ensures TokenizerSeeds(m1, e1) == TokenizerSeeds(m2, e2) ==> m1 == m2 && e1 == e2
  {
    if TokenizerSeeds(m1, e1) == TokenizerSeeds(m2, e2) {
      assert TokenizerSeeds(m1, e1)[1] == TokenizerSeeds(m2, e2)[1];
      Borsh.EncodeI64Injective(e1, e2);
    }
  }

  /** The principal and yield seed lists differ whatever the two position keys are. */
  lemma PrincipalYieldSeedsDiffer(t1: Pubkey, t2: Pubkey)
    ensures PrincipalSeeds(t1) != YieldSeeds(t2)
  {
    assert |PrincipalSeeds(t1)[1]| == 9 && |YieldSeeds(t2)[1]| == 5;
  }

  /** No position seed list equals a mint seed list: the second seed is 8 bytes, not 9 or 5. */
  lemma TokenizerSeedsDisjointFromMintSeeds(m: Pubkey, e: i64, t: Pubkey)
    ensures TokenizerSeeds(m, e) != PrincipalSeeds(t)
    ensures TokenizerSeeds(m, e) != YieldSeeds(t)
  {
    assert |TokenizerSeeds(m, e)[1]| == 8;
    assert |PrincipalSeeds(t)[1]| == 9 && |YieldSeeds(t)[1]| == 5;
  }

  /**
   * A position whose principal and yield mints share an address, or two different (mint,
   * expiry) pairs that share a position address, each exhibit a collision of `find` between
   * two different seed lists.
   */
  lemma {:induction false} AddressClashIsCollision(find: Finder, programId: Pubkey, m1: Pubkey, e1: i64, m2: Pubkey, e2: i64)
    ensures var t := GetTokenizerAddress(find, programId, m1, e1);
            GetPrincipalMintAddress(find, programId, t) == GetYieldMintAddress(find, programId, t) ==>
              Collision(find, PrincipalSeeds(t), YieldSeeds(t), programId)
    ensures (m1, e1) != (m2, e2) &&
            GetTokenizerAddress(find, programId, m1, e1) == GetTokenizerAddress(find, programId, m2, e2) ==>
              Collision(find, TokenizerSeeds(m1, e1), TokenizerSeeds(m2, e2), programId)
  {
    var t := GetTokenizerAddress(find, programId, m1, e1);
    PrincipalYieldSeedsDiffer(t, t);
    TokenizerSeedsInjective(m1, e1, m2, e2);
  }
}
