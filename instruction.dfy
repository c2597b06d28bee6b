/**
 * The instruction enum of the on-chain crate (`LysergicTokenizerInstruction`), its Borsh
 * encoding, and the client-side builders that pair an encoded variant with the fixed list of
 * account metas the variant's documentation describes.
 */
module Instruction {
  import opened Common
  import Borsh
  import opened Expiry

  datatype TokenizerInstruction =
    | InitializeLysergicTokenizer(underlyingVault: Pubkey, underlyingMint: Pubkey,
                                  principalTokenMint: Pubkey, yieldTokenMint: Pubkey, expiry: Term)
    | InitializeMints(underlyingMint: Pubkey, expiry: Term)
    | InitializeTokenizerAndMints(underlyingVault: Pubkey, underlyingMint: Pubkey,
                                  principalTokenMint: Pubkey, yieldTokenMint: Pubkey, expiry: Term)
    | DepositUnderlying(amount: u64)
    | TokenizePrincipal(amount: u64)
    | TokenizeYield(amount: u64)
    | DepositAndTokenize(amount: u64)
    | RedeemPrincipalAndYield(amount: u64)
    | RedeemPrincipalOnly(principalAmount: u64)
    | BurnPrincipalToken(amount: u64)
    | ClaimYield(yieldAmount: u64)
    | BurnYieldToken(amount: u64)

  // ---------------------------------------------------------------------------------------
  // Borsh encoding of `Expiry`: a one-byte variant index.

  function TermTag(t: Term): (b: byte)
    ensures b < 3
  {
    match t
    case TwelveMonths => 0
    case EighteenMonths => 1
    case TwentyFourMonths => 2
  }

  function EncodeTerm(t: Term): (b: seq<byte>)
    ensures |b| == 1
  {
    [TermTag(t)]
  }

  /** Reads an `Expiry`; a variant index of 3 or more is rejected. */
  function ReadTerm(b: seq<byte>): (r: Option<(Term, seq<byte>)>)
    ensures r.Some? <==> |b| >= 1 && b[0] < 3
    ensures r.Some? ==> EncodeTerm(r.value.0) + r.value.1 == b
  {
    if |b| < 1 then None
    else if b[0] == 0 then Some((TwelveMonths, b[1..]))
    else if b[0] == 1 then Some((EighteenMonths, b[1..]))
    else if b[0] == 2 then Some((TwentyFourMonths, b[1..]))
    else None
  }

  lemma ReadTermOf(t: Term, rest: seq<byte>)
    ensures ReadTerm(EncodeTerm(t) + rest) == Some((t, rest))
  {
    assert (EncodeTerm(t) + rest)[1..] == rest;
  }

  // ---------------------------------------------------------------------------------------
  // Borsh encoding of the instruction: a one-byte variant index, then the fields in order.

  /** The variant index (declaration order). */
  function Tag(i: TokenizerInstruction): (t: byte)
    ensures t < 12
  {
    match i
    case InitializeLysergicTokenizer(_, _, _, _, _) => 0
    case InitializeMints(_, _) => 1
    case InitializeTokenizerAndMints(_, _, _, _, _) => 2
    case DepositUnderlying(_) => 3
    case TokenizePrincipal(_) => 4
    case TokenizeYield(_) => 5
    case DepositAndTokenize(_) => 6
    case RedeemPrincipalAndYield(_) => 7
    case RedeemPrincipalOnly(_) => 8
    case BurnPrincipalToken(_) => 9
    case ClaimYield(_) => 10
    case BurnYieldToken(_) => 11
  }

  /** The bytes after the variant index. */
  function EncodeFields(i: TokenizerInstruction): seq<byte>
  {
    match i
    case InitializeLysergicTokenizer(v, m, p, y, e) => v + (m + (p + (y + EncodeTerm(e))))
    case InitializeMints(m, e) => m + EncodeTerm(e)
    case InitializeTokenizerAndMints(v, m, p, y, e) => v + (m + (p + (y + EncodeTerm(e))))
    case DepositUnderlying(a) => Borsh.EncodeU64(a)
    case TokenizePrincipal(a) => Borsh.EncodeU64(a)
    case TokenizeYield(a) => Borsh.EncodeU64(a)
    case DepositAndTokenize(a) => Borsh.EncodeU64(a)
    case RedeemPrincipalAndYield(a) => Borsh.EncodeU64(a)
    case RedeemPrincipalOnly(a) => Borsh.EncodeU64(a)
    case BurnPrincipalToken(a) => Borsh.EncodeU64(a)
    case ClaimYield(a) => Borsh.EncodeU64(a)
    case BurnYieldToken(a) => Borsh.EncodeU64(a)
  }

  /** `BorshSerialize` of the instruction. */
  function Encode(i: TokenizerInstruction): (b: seq<byte>)
    ensures |b| >= 1 && b[0] == Tag(i)
    ensures |b| == 1 + |EncodeFields(i)|
  {
    [Tag(i)] + EncodeFields(i)
  }

  /** The four keys and the expiry shared by the two initialize variants. */
  function ReadInitFields(b: seq<byte>): (r: Option<(Pubkey, Pubkey, Pubkey, Pubkey, Term, seq<byte>)>)
    ensures r.Some? ==> var (v, m, p, y, e, rest) := r.value; v + (m + (p + (y + (EncodeTerm(e) + rest)))) == b
  {
    match Borsh.ReadPubkey(b)
    case None => None
    case Some((v, b1)) =>
      match Borsh.ReadPubkey(b1)
      case None => None
      case Some((m, b2)) =>
        match Borsh.ReadPubkey(b2)
        case None => None
        case Some((p, b3)) =>
          match Borsh.ReadPubkey(b3)
          case None => None
          case Some((y, b4)) =>
            match ReadTerm(b4)
            case None => None
            case Some((e, b5)) => Some((v, m, p, y, e, b5))
  }

  /** Reads the fields of the variant with index `tag`, returning the bytes left over. */
  function ReadFields(tag: byte, b: seq<byte>): (r: Option<(TokenizerInstruction, seq<byte>)>)
    ensures r.Some? ==> Tag(r.value.0) == tag && EncodeFields(r.value.0) + r.value.1 == b
  {
    if tag == 0 || tag == 2 then
      match ReadInitFields(b)
      case None => None
      case Some((v, m, p, y, e, rest)) =>
        var i := if tag == 0 then InitializeLysergicTokenizer(v, m, p, y, e)
                 else InitializeTokenizerAndMints(v, m, p, y, e);
        assert EncodeFields(i) + rest == v + (m + (p + (y + (EncodeTerm(e) + rest))));
        Some((i, rest))
    else if tag == 1 then
      match Borsh.ReadPubkey(b)
      case None => None
      case Some((m, b1)) =>
        match ReadTerm(b1)
        case None => None
        case Some((e, rest)) => Some((InitializeMints(m, e), rest))
    else if tag < 12 then
      match Borsh.ReadU64(b)
      case None => None
      case Some((a, rest)) => Some((AmountVariant(tag, a), rest))
    else None
  }

  /** The single-amount variant with index `tag`. */
  function AmountVariant(tag: byte, a: u64): (i: TokenizerInstruction)
    requires 3 <= tag < 12
    ensures Tag(i) == tag && EncodeFields(i) == Borsh.EncodeU64(a)
  {
    if tag == 3 then DepositUnderlying(a)
    else if tag == 4 then TokenizePrincipal(a)
    else if tag == 5 then TokenizeYield(a)
    else if tag == 6 then DepositAndTokenize(a)
    else if tag == 7 then RedeemPrincipalAndYield(a)
    else if tag == 8 then RedeemPrincipalOnly(a)
    else if tag == 9 then BurnPrincipalToken(a)
    else if tag == 10 then ClaimYield(a)
    else BurnYieldToken(a)
  }

  /** `try_from_slice`: a known variant index, its fields, and no bytes left over. */
  function Decode(b: seq<byte>): (r: Option<TokenizerInstruction>)
    ensures r.Some? ==> Encode(r.value) == b
  {
    match Borsh.ReadU8(b)
    case None => None
    case Some((tag, rest)) =>
      match ReadFields(tag, rest)
      case None => None
      case Some((i, left)) => if left == [] then Some(i) else None
  }

  /** Encoding followed by decoding gives the instruction back, for every variant. */
  lemma {:induction false} DecodeEncode(i: TokenizerInstruction)
    ensures Decode(Encode(i)) == Some(i)
  {
    if i.InitializeLysergicTokenizer? || i.InitializeTokenizerAndMints? {
      DecodeEncodeInit(i);
    } else if i.InitializeMints? {
      DecodeEncodeMints(i);
    } else {
      DecodeEncodeAmount(i);
    }
  }

  lemma {:induction false} DecodeEncodeInit(i: TokenizerInstruction)
    requires i.InitializeLysergicTokenizer? || i.InitializeTokenizerAndMints?
    ensures Decode(Encode(i)) == Some(i)
  {
    var f := EncodeFields(i);
    Borsh.ReadU8Of(Tag(i), f);
    InitFieldsOf(i.underlyingVault, i.underlyingMint, i.principalTokenMint, i.yieldTokenMint, i.expiry, []);
    assert EncodeTerm(i.expiry) + [] == EncodeTerm(i.expiry);
  }

  lemma {:induction false} DecodeEncodeMints(i: TokenizerInstruction)
    requires i.InitializeMints?
    ensures Decode(Encode(i)) == Some(i)
  {
    var f := EncodeFields(i);
    Borsh.ReadU8Of(Tag(i), f);
    Borsh.ReadPubkeyOf(i.underlyingMint, EncodeTerm(i.expiry));
    ReadTermOf(i.expiry, []);
    assert EncodeTerm(i.expiry) + [] == EncodeTerm(i.expiry);
  }

  lemma {:induction false} DecodeEncodeAmount(i: TokenizerInstruction)
    requires Tag(i) >= 3
    ensures Decode(Encode(i)) == Some(i)
  {
    var f := EncodeFields(i);
    Borsh.ReadU8Of(Tag(i), f);
    var a := AmountOf(i);
    Borsh.ReadU64Of(a, []);
    assert f + [] == f;
  }

  /** The amount carried by a single-amount variant. */
  function AmountOf(i: TokenizerInstruction): (a: u64)
    requires Tag(i) >= 3
    ensures AmountVariant(Tag(i), a) == i && EncodeFields(i) == Borsh.EncodeU64(a)
  {
    match i
    case DepositUnderlying(a) => a
    case TokenizePrincipal(a) => a
    case TokenizeYield(a) => a
    case DepositAndTokenize(a) => a
    case RedeemPrincipalAndYield(a) => a
    case RedeemPrincipalOnly(a) => a
    case BurnPrincipalToken(a) => a
    case ClaimYield(a) => a
    case BurnYieldToken(a) => a
  }

  lemma InitFieldsOf(v: Pubkey, m: Pubkey, p: Pubkey, y: Pubkey, e: Term, rest: seq<byte>)
    ensures ReadInitFields(v + (m + (p + (y + (EncodeTerm(e) + rest))))) == Some((v, m, p, y, e, rest))
  {
    ReadTermOf(e, rest);
    Borsh.ReadPubkeyOf(y, EncodeTerm(e) + rest);
    Borsh.ReadPubkeyOf(p, y + (EncodeTerm(e) + rest));
    Borsh.ReadPubkeyOf(m, p + (y + (EncodeTerm(e) + rest)));
    Borsh.ReadPubkeyOf(v, m + (p + (y + (EncodeTerm(e) + rest))));
  }

  /** Distinct instructions have distinct encodings. */
  lemma {:induction false} EncodeInjective(i: TokenizerInstruction, j: TokenizerInstruction)
    ensures Encode(i) == Encode(j) ==> i == j
  {
    DecodeEncode(i);
    DecodeEncode(j);
  }

  /** Bytes with trailing garbage after a valid encoding are rejected. */
  lemma {:induction false} DecodeRejectsTrailing(i: TokenizerInstruction, extra: seq<byte>)
    requires extra != []
    ensures Decode(Encode(i) + extra) == None
  {
  }

  // ---------------------------------------------------------------------------------------
  // Builders.

  /** `AccountMeta`: a key with its signer and writable flags. */
  datatype AccountMeta = AccountMeta(pubkey: Pubkey, isSigner: bool, isWritable: bool)

  /** `Instruction`: the program to call, the account metas and the encoded data. */
  datatype Instr = Instr(programId: Pubkey, accounts: seq<AccountMeta>, data: seq<byte>)

  /** The fixed program ids the builders refer to (`crate::id()`, `spl_token::id()`, ...). */
  datatype Ids = Ids(program: Pubkey, token: Pubkey, system: Pubkey, associatedToken: Pubkey)

  /** `AccountMeta::new`. */
  function Writable(k: Pubkey, signer: bool): AccountMeta { AccountMeta(k, signer, true) }

  /** `AccountMeta::new_readonly`. */
  function ReadOnly(k: Pubkey): AccountMeta { AccountMeta(k, false, false) }

  /** The keys of the metas, in order. */
  function Keys(metas: seq<AccountMeta>): (ks: seq<Pubkey>)
  {
    seq(|metas|, i requires 0 <= i < |metas| => metas[i].pubkey)
  }

  /** The signer flag of each meta, in order. */
  function SignerFlags(metas: seq<AccountMeta>): (fs: seq<bool>)
  {
    seq(|metas|, i requires 0 <= i < |metas| => metas[i].isSigner)
  }

  /** The writable flag of each meta, in order. */
  function WritableFlags(metas: seq<AccountMeta>): (fs: seq<bool>)
  {
    seq(|metas|, i requires 0 <= i < |metas| => metas[i].isWritable)
  }

  /** `Instruction::new_with_borsh(crate::id(), &variant, metas)`. */
  function NewWithBorsh(ids: Ids, i: TokenizerInstruction, metas: seq<AccountMeta>): (r: Result<Instr, ()>)
    ensures r.Ok? && r.value.programId == ids.program && r.value.accounts == metas
    ensures r.value.data == Encode(i)
  {
    Ok(Instr(ids.program, metas, Encode(i)))
  }

  function InitLysergicTokenizer(ids: Ids, tokenizer: Pubkey, authority: Pubkey, vault: Pubkey,
                                 mint: Pubkey, principalMint: Pubkey, yieldMint: Pubkey, expiry: Term): (r: Result<Instr, ()>)
    ensures r.Ok? && r.value.programId == ids.program
    ensures r.value.data == Encode(InitializeLysergicTokenizer(vault, mint, principalMint, yieldMint, expiry))
    ensures Keys(r.value.accounts) == [tokenizer, authority, vault, mint, ids.token, ids.system]
    ensures SignerFlags(r.value.accounts) == [false, true, false, false, false, false]
    ensures WritableFlags(r.value.accounts) == [true, true, true, false, false, false]
  {
    var metas := [Writable(tokenizer, false), Writable(authority, true), Writable(vault, false),
                  ReadOnly(mint), ReadOnly(ids.token), ReadOnly(ids.system)];
    NewWithBorsh(ids, InitializeLysergicTokenizer(vault, mint, principalMint, yieldMint, expiry), metas)
  }

  function InitMints(ids: Ids, tokenizer: Pubkey, authority: Pubkey, principalMint: Pubkey,
                     yieldMint: Pubkey, mint: Pubkey, expiry: Term): (r: Result<Instr, ()>)
    ensures r.Ok? && r.value.programId == ids.program
    ensures r.value.data == Encode(InitializeMints(mint, expiry))
    ensures Keys(r.value.accounts) == [tokenizer, authority, principalMint, yieldMint, ids.token]
    ensures SignerFlags(r.value.accounts) == [false, true, false, false, false]
    ensures WritableFlags(r.value.accounts) == [true, true, true, true, false]
  {
    var metas := [Writable(tokenizer, false), Writable(authority, true), Writable(principalMint, false),
                  Writable(yieldMint, false), ReadOnly(ids.token)];
    NewWithBorsh(ids, InitializeMints(mint, expiry), metas)
  }

  function InitTokenizerAndMints(ids: Ids, tokenizer: Pubkey, authority: Pubkey, vault: Pubkey, mint: Pubkey,
                                 principalMint: Pubkey, yieldMint: Pubkey, expiry: Term): (r: Result<Instr, ()>)
    ensures r.Ok? && r.value.programId == ids.program
    ensures r.value.data == Encode(InitializeTokenizerAndMints(vault, mint, principalMint, yieldMint, expiry))
    ensures Keys(r.value.accounts) == [tokenizer, authority, vault, mint, principalMint, yieldMint, ids.token, ids.system]
    ensures SignerFlags(r.value.accounts) == [false, true, false, false, false, false, false, false]
    ensures WritableFlags(r.value.accounts) == [true, true, true, false, true, true, false, false]
  {
    var metas := [Writable(tokenizer, false), Writable(authority, true), Writable(vault, false), ReadOnly(mint),
                  Writable(principalMint, false), Writable(yieldMint, false), ReadOnly(ids.token), ReadOnly(ids.system)];
    NewWithBorsh(ids, InitializeTokenizerAndMints(vault, mint, principalMint, yieldMint, expiry), metas)
  }

  function DepositUnderlyingIx(ids: Ids, tokenizer: Pubkey, vault: Pubkey, user: Pubkey,
                               userUnderlying: Pubkey, amount: u64): (r: Result<Instr, ()>)
    ensures r.Ok? && r.value.programId == ids.program
    ensures r.value.data == Encode(DepositUnderlying(amount))
    ensures Keys(r.value.accounts) == [tokenizer, vault, user, userUnderlying, ids.token, ids.associatedToken]
    ensures SignerFlags(r.value.accounts) == [false, false, true, false, false, false]
    ensures WritableFlags(r.value.accounts) == [true, true, true, true, false, false]
  {
    var metas := [Writable(tokenizer, false), Writable(vault, false), Writable(user, true),
                  Writable(userUnderlying, false), ReadOnly(ids.token), ReadOnly(ids.associatedToken)];
    NewWithBorsh(ids, DepositUnderlying(amount), metas)
  }

  function TokenizePrincipalIx(ids: Ids, tokenizer: Pubkey, principalMint: Pubkey, user: Pubkey,
                               userPrincipal: Pubkey, amount: u64): (r: Result<Instr, ()>)
    ensures r.Ok? && r.value.programId == ids.program
    ensures r.value.data == Encode(TokenizePrincipal(amount))
    ensures Keys(r.value.accounts) == [tokenizer, principalMint, user, userPrincipal, ids.token, ids.associatedToken]
    ensures SignerFlags(r.value.accounts) == [false, false, true, false, false, false]
    ensures WritableFlags(r.value.accounts) == [true, true, true, true, false, false]
  {
    var metas := [Writable(tokenizer, false), Writable(principalMint, false), Writable(user, true),
                  Writable(userPrincipal, false), ReadOnly(ids.token), ReadOnly(ids.associatedToken)];
    NewWithBorsh(ids, TokenizePrincipal(amount), metas)
  }

  function TokenizeYieldIx(ids: Ids, tokenizer: Pubkey, yieldMint: Pubkey, user: Pubkey,
                           userYield: Pubkey, amount: u64): (r: Result<Instr, ()>)
    ensures r.Ok? && r.value.programId == ids.program
    ensures r.value.data == Encode(TokenizeYield(amount))
    ensures Keys(r.value.accounts) == [tokenizer, yieldMint, user, userYield, ids.token]
    ensures SignerFlags(r.value.accounts) == [false, false, true, false, false]
    ensures WritableFlags(r.value.accounts) == [true, true, true, true, false]
  {
    var metas := [Writable(tokenizer, false), Writable(yieldMint, false), Writable(user, true),
                  Writable(userYield, false), ReadOnly(ids.token)];
    NewWithBorsh(ids, TokenizeYield(amount), metas)
  }

  function DepositAndTokenizeIx(ids: Ids, tokenizer: Pubkey, vault: Pubkey, principalMint: Pubkey,
                                yieldMint: Pubkey, user: Pubkey, userUnderlying: Pubkey,
                                userPrincipal: Pubkey, userYield: Pubkey, amount: u64): (r: Result<Instr, ()>)
    ensures r.Ok? && r.value.programId == ids.program
    ensures r.value.data == Encode(DepositAndTokenize(amount))
    ensures Keys(r.value.accounts) == [tokenizer, vault, principalMint, yieldMint, user, userUnderlying,
                                       userPrincipal, userYield, ids.token, ids.associatedToken]
    ensures SignerFlags(r.value.accounts) == [false, false, false, false, true, false, false, false, false, false]
    ensures WritableFlags(r.value.accounts) == [true, true, true, true, true, true, true, true, false, false]
  {
    var metas := [Writable(tokenizer, false), Writable(vault, false), Writable(principalMint, false),
                  Writable(yieldMint, false), Writable(user, true), Writable(userUnderlying, false),
                  Writable(userPrincipal, false), Writable(userYield, false),
                  ReadOnly(ids.token), ReadOnly(ids.associatedToken)];
    NewWithBorsh(ids, DepositAndTokenize(amount), metas)
  }

  function RedeemPrincipalOnlyIx(ids: Ids, tokenizer: Pubkey, vault: Pubkey, mint: Pubkey,
                                 principalMint: Pubkey, user: Pubkey, userUnderlying: Pubkey,
                                 userPrincipal: Pubkey, principalAmount: u64): (r: Result<Instr, ()>)
    ensures r.Ok? && r.value.programId == ids.program
    ensures r.value.data == Encode(RedeemPrincipalOnly(principalAmount))
    ensures Keys(r.value.accounts) == [tokenizer, vault, mint, principalMint, user, userUnderlying,
                                       userPrincipal, ids.token, ids.associatedToken]
    ensures SignerFlags(r.value.accounts) == [false, false, false, false, true, false, false, false, false]
    ensures WritableFlags(r.value.accounts) == [true, true, false, true, true, true, true, false, false]
  {
    var metas := [Writable(tokenizer, false), Writable(vault, false), ReadOnly(mint),
                  Writable(principalMint, false), Writable(user, true), Writable(userUnderlying, false),
                  Writable(userPrincipal, false), ReadOnly(ids.token), ReadOnly(ids.associatedToken)];
    NewWithBorsh(ids, RedeemPrincipalOnly(principalAmount), metas)
  }

  function RedeemPrincipalAndYieldIx(ids: Ids, tokenizer: Pubkey, yieldMint: Pubkey, vault: Pubkey,
                                     mint: Pubkey, principalMint: Pubkey, user: Pubkey, userUnderlying: Pubkey,
                                     userPrincipal: Pubkey, userYield: Pubkey, amount: u64): (r: Result<Instr, ()>)
    ensures r.Ok? && r.value.programId == ids.program
    ensures r.value.data == Encode(RedeemPrincipalAndYield(amount))
    ensures Keys(r.value.accounts) == [tokenizer, vault, mint, principalMint, yieldMint, user,
                                       userUnderlying, userPrincipal, userYield, ids.token]
    ensures SignerFlags(r.value.accounts) == [false, false, false, false, false, true, false, false, false, false]
    ensures WritableFlags(r.value.accounts) == [true, true, false, true, true, true, true, true, true, false]
  {
    var metas := [Writable(tokenizer, false), Writable(vault, false), ReadOnly(mint),
                  Writable(principalMint, false), Writable(yieldMint, false), Writable(user, true),
                  Writable(userUnderlying, false), Writable(userPrincipal, false),
                  Writable(userYield, false), ReadOnly(ids.token)];
    NewWithBorsh(ids, RedeemPrincipalAndYield(amount), metas)
  }

  function ClaimYieldIx(ids: Ids, tokenizer: Pubkey, vault: Pubkey, yieldMint: Pubkey, user: Pubkey,
                        userUnderlying: Pubkey, userYield: Pubkey, yieldAmount: u64): (r: Result<Instr, ()>)
    ensures r.Ok? && r.value.programId == ids.program
    ensures r.value.data == Encode(ClaimYield(yieldAmount))
    ensures Keys(r.value.accounts) == [tokenizer, vault, yieldMint, user, userUnderlying, userYield, ids.token]
    ensures SignerFlags(r.value.accounts) == [false, false, false, true, false, false, false]
    ensures WritableFlags(r.value.accounts) == [true, true, true, true, true, true, false]
  {
    var metas := [Writable(tokenizer, false), Writable(vault, false), Writable(yieldMint, false),
                  Writable(user, true), Writable(userUnderlying, false), Writable(userYield, false),
                  ReadOnly(ids.token)];
    NewWithBorsh(ids, ClaimYield(yieldAmount), metas)
  }

  function BurnPrincipalTokenIx(ids: Ids, tokenizer: Pubkey, principalMint: Pubkey, user: Pubkey,
                                userPrincipal: Pubkey, amount: u64): (r: Result<Instr, ()>)
    ensures r.Ok? && r.value.programId == ids.program
    ensures r.value.data == Encode(BurnPrincipalToken(amount))
    ensures Keys(r.value.accounts) == [tokenizer, principalMint, user, userPrincipal, ids.token, ids.associatedToken]
    ensures SignerFlags(r.value.accounts) == [false, false, true, false, false, false]
    ensures WritableFlags(r.value.accounts) == [true, true, true, true, false, false]
  {
    var metas := [Writable(tokenizer, false), Writable(principalMint, false), Writable(user, true),
                  Writable(userPrincipal, false), ReadOnly(ids.token), ReadOnly(ids.associatedToken)];
    NewWithBorsh(ids, BurnPrincipalToken(amount), metas)
  }

  function BurnYieldTokenIx(ids: Ids, tokenizer: Pubkey, yieldMint: Pubkey, user: Pubkey,
                            userYield: Pubkey, amount: u64): (r: Result<Instr, ()>)
    ensures r.Ok? && r.value.programId == ids.program
    ensures r.value.data == Encode(BurnYieldToken(amount))
    ensures Keys(r.value.accounts) == [tokenizer, yieldMint, user, userYield, ids.token]
    ensures SignerFlags(r.value.accounts) == [false, false, true, false, false]
    ensures WritableFlags(r.value.accounts) == [true, true, true, true, false]
  {
    var metas := [Writable(tokenizer, false), Writable(yieldMint, false), Writable(user, true),
                  Writable(userYield, false), ReadOnly(ids.token)];
    NewWithBorsh(ids, BurnYieldToken(amount), metas)
  }
}
