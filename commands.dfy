/**
 * The instruction variants the processor dispatches on, in the order of its match arms. They
 * differ from the enum the instruction module declares: both initialize variants carry a
 * `fixed_apy`, there is `RedeemMaturePrincipal` instead of `RedeemPrincipalOnly`, and three
 * field-less terminate variants replace the two burn variants. The variant index is the
 * position of the arm, Borsh-encoded as one byte.
 */
module Commands {
  import opened Common
  import Borsh
  import opened Expiry
  import Instruction

  datatype Command =
    | InitializeLysergicTokenizer(underlyingVault: Pubkey, underlyingMint: Pubkey,
                                  principalTokenMint: Pubkey, yieldTokenMint: Pubkey,
                                  expiry: Term, fixedApy: u64)
    | InitializeMints(underlyingMint: Pubkey, expiry: Term)
    | InitializeTokenizerAndMints(underlyingVault: Pubkey, underlyingMint: Pubkey,
                                  principalTokenMint: Pubkey, yieldTokenMint: Pubkey,
                                  expiry: Term, fixedApy: u64)
    | DepositUnderlying(amount: u64)
    | TokenizePrincipal(amount: u64)
    | TokenizeYield(amount: u64)
    | DepositAndTokenize(amount: u64)
    | RedeemPrincipalAndYield(amount: u64)
    | RedeemMaturePrincipal(principalAmount: u64)
    | ClaimYield(yieldAmount: u64)
    | Terminate
    | TerminateLysergicTokenizer
    | TerminateMints

  function Tag(c: Command): (t: byte)
    ensures t < 13
  {
    match c
    case InitializeLysergicTokenizer(_, _, _, _, _, _) => 0
    case InitializeMints(_, _) => 1
    case InitializeTokenizerAndMints(_, _, _, _, _, _) => 2
    case DepositUnderlying(_) => 3
    case TokenizePrincipal(_) => 4
    case TokenizeYield(_) => 5
    case DepositAndTokenize(_) => 6
    case RedeemPrincipalAndYield(_) => 7
    case RedeemMaturePrincipal(_) => 8
    case ClaimYield(_) => 9
    case Terminate => 10
    case TerminateLysergicTokenizer => 11
    case TerminateMints => 12
  }

  /** The bytes after the variant index. */
  function EncodeFields(c: Command): seq<byte>
  {
    match c
    case InitializeLysergicTokenizer(v, m, p, y, e, apy) =>
      v + (m + (p + (y + (Instruction.EncodeTerm(e) + Borsh.EncodeU64(apy)))))
    case InitializeMints(m, e) => m + Instruction.EncodeTerm(e)
    case InitializeTokenizerAndMints(v, m, p, y, e, apy) =>
      v + (m + (p + (y + (Instruction.EncodeTerm(e) + Borsh.EncodeU64(apy)))))
    case DepositUnderlying(a) => Borsh.EncodeU64(a)
    case TokenizePrincipal(a) => Borsh.EncodeU64(a)
    case TokenizeYield(a) => Borsh.EncodeU64(a)
    case DepositAndTokenize(a) => Borsh.EncodeU64(a)
    case RedeemPrincipalAndYield(a) => Borsh.EncodeU64(a)
    case RedeemMaturePrincipal(a) => Borsh.EncodeU64(a)
    case ClaimYield(a) => Borsh.EncodeU64(a)
    case Terminate => []
    case TerminateLysergicTokenizer => []
    case TerminateMints => []
  }

  function Encode(c: Command): (b: seq<byte>)
    ensures |b| >= 1 && b[0] == Tag(c)
  {
    [Tag(c)] + EncodeFields(c)
  }

  /** The single-amount variant with index `tag`. */
  function AmountVariant(tag: byte, a: u64): (c: Command)
    requires 3 <= tag < 10
    ensures Tag(c) == tag && EncodeFields(c) == Borsh.EncodeU64(a)
  {
    if tag == 3 then DepositUnderlying(a)
    else if tag == 4 then TokenizePrincipal(a)
    else if tag == 5 then TokenizeYield(a)
    else if tag == 6 then DepositAndTokenize(a)
    else if tag == 7 then RedeemPrincipalAndYield(a)
    else if tag == 8 then RedeemMaturePrincipal(a)
    else ClaimYield(a)
  }

  /** The amount carried by a single-amount variant. */
  function AmountOf(c: Command): (a: u64)
    requires 3 <= Tag(c) < 10
    ensures AmountVariant(Tag(c), a) == c && EncodeFields(c) == Borsh.EncodeU64(a)
  {
    match c
    case DepositUnderlying(a) => a
    case TokenizePrincipal(a) => a
    case TokenizeYield(a) => a
    case DepositAndTokenize(a) => a
    case RedeemPrincipalAndYield(a) => a
    case RedeemMaturePrincipal(a) => a
    case ClaimYield(a) => a
  }

  /** Reads the fields of one of the two initialize variants. */
  function ReadInitCommand(tag: byte, b: seq<byte>): (r: Option<(Command, seq<byte>)>)
    requires tag == 0 || tag == 2
    ensures r.Some? ==> Tag(r.value.0) == tag && EncodeFields(r.value.0) + r.value.1 == b
  {
    match Instruction.ReadInitFields(b)
    case None => None
    case Some((v, m, p, y, e, b1)) =>
      match Borsh.ReadU64(b1)
      case None => None
      case Some((apy, rest)) =>
        var c := if tag == 0 then InitializeLysergicTokenizer(v, m, p, y, e, apy)
                 else InitializeTokenizerAndMints(v, m, p, y, e, apy);
        assert EncodeFields(c) + rest
            == v + (m + (p + (y + (Instruction.EncodeTerm(e) + (Borsh.EncodeU64(apy) + rest)))));
        Some((c, rest))
  }

  /** Reads the fields of `InitializeMints`. */
  function ReadMintsCommand(b: seq<byte>): (r: Option<(Command, seq<byte>)>)
    ensures r.Some? ==> Tag(r.value.0) == 1 && EncodeFields(r.value.0) + r.value.1 == b
  {
    match Borsh.ReadPubkey(b)
    case None => None
    case Some((m, b1)) =>
      match Instruction.ReadTerm(b1)
      case None => None
      case Some((e, rest)) => Some((InitializeMints(m, e), rest))
  }

  /** Reads the fields of the variant with index `tag`, returning the bytes left over. */
  function ReadFields(tag: byte, b: seq<byte>): (r: Option<(Command, seq<byte>)>)
    ensures r.Some? ==> Tag(r.value.0) == tag && EncodeFields(r.value.0) + r.value.1 == b
  {
    if tag == 0 || tag == 2 then ReadInitCommand(tag, b)
    else if tag == 1 then ReadMintsCommand(b)
    else if tag < 10 then
      match Borsh.ReadU64(b)
      case None => None
      case Some((a, rest)) => Some((AmountVariant(tag, a), rest))
    else if tag == 10 then Some((Terminate, b))
    else if tag == 11 then Some((TerminateLysergicTokenizer, b))
    else if tag == 12 then Some((TerminateMints, b))
    else None
  }

  /** `try_from_slice`: a known variant index, its fields, and no bytes left over. */
  function Decode(b: seq<byte>): (r: Option<Command>)
    ensures r.Some? ==> Encode(r.value) == b
  {
    match Borsh.ReadU8(b)
    case None => None
    case Some((tag, rest)) =>
      match ReadFields(tag, rest)
      case None => None
      case Some((c, left)) => if left == [] then Some(c) else None
  }

  /** Encoding followed by decoding gives the command back, for every variant. */
  lemma {:induction false} DecodeEncode(c: Command)
    ensures Decode(Encode(c)) == Some(c)
  {
    if c.InitializeLysergicTokenizer? || c.InitializeTokenizerAndMints? {
      DecodeEncodeInit(c);
    } else if c.InitializeMints? {
      DecodeEncodeMints(c);
    } else if Tag(c) < 10 {
      DecodeEncodeAmount(c);
    } else {
      Borsh.ReadU8Of(Tag(c), []);
    }
  }

  lemma {:induction false} DecodeEncodeInit(c: Command)
    requires c.InitializeLysergicTokenizer? || c.InitializeTokenizerAndMints?
    ensures Decode(Encode(c)) == Some(c)
  {
    var apy := Borsh.EncodeU64(c.fixedApy);
    var f := EncodeFields(c);
    Instruction.InitFieldsOf(c.underlyingVault, c.underlyingMint, c.principalTokenMint,
                             c.yieldTokenMint, c.expiry, apy);
    assert Instruction.ReadInitFields(f)
        == Some((c.underlyingVault, c.underlyingMint, c.principalTokenMint, c.yieldTokenMint, c.expiry, apy));
    Borsh.ReadU64Of(c.fixedApy, []);
    assert apy + [] == apy;
    assert ReadFields(Tag(c), f) == Some((c, []));
    Borsh.ReadU8Of(Tag(c), f);
  }

  lemma {:induction false} DecodeEncodeMints(c: Command)
    requires c.InitializeMints?
    ensures Decode(Encode(c)) == Some(c)
  {
    Borsh.ReadU8Of(Tag(c), EncodeFields(c));
    Borsh.ReadPubkeyOf(c.underlyingMint, Instruction.EncodeTerm(c.expiry));
    Instruction.ReadTermOf(c.expiry, []);
    assert Instruction.EncodeTerm(c.expiry) + [] == Instruction.EncodeTerm(c.expiry);
  }

  lemma {:induction false} DecodeEncodeAmount(c: Command)
    requires 3 <= Tag(c) < 10
    ensures Decode(Encode(c)) == Some(c)
  {
    var f := EncodeFields(c);
    Borsh.ReadU8Of(Tag(c), f);
    Borsh.ReadU64Of(AmountOf(c), []);
    assert f + [] == f;
  }

  /** The encoded length of each variant, fixed by its index. */
  function EncodedLength(tag: byte): nat
  {
    if tag == 0 || tag == 2 then 1 + 4 * 32 + 1 + 8
    else if tag == 1 then 1 + 32 + 1
    else if tag < 10 then 1 + 8
    else 1
  }

  /** Whatever decodes has exactly the length its variant index calls for. */
  lemma {:induction false} DecodedLength(b: seq<byte>)
    ensures Decode(b).Some? ==> |b| >= 1 && |b| == EncodedLength(b[0])
  {
    if Decode(b).Some? {
      var c := Decode(b).value;
      assert Encode(c) == b;
    }
  }

  /**
   * How the processor reads bytes built by the instruction module's encoder: the variants with
   * the same index and layout decode to the processor's variant of that index (a client's
   * `BurnPrincipalToken` arrives as `ClaimYield`, its `RedeemPrincipalOnly` as
   * `RedeemMaturePrincipal`), and the others are rejected.
   */
  lemma {:induction false} ClientEncodingAsDecoded(i: Instruction.TokenizerInstruction)
    ensures i.InitializeMints? ==> Decode(Instruction.Encode(i)) == Some(InitializeMints(i.underlyingMint, i.expiry))
    ensures i.DepositUnderlying? ==> Decode(Instruction.Encode(i)) == Some(DepositUnderlying(i.amount))
    ensures i.TokenizePrincipal? ==> Decode(Instruction.Encode(i)) == Some(TokenizePrincipal(i.amount))
    ensures i.TokenizeYield? ==> Decode(Instruction.Encode(i)) == Some(TokenizeYield(i.amount))
    ensures i.DepositAndTokenize? ==> Decode(Instruction.Encode(i)) == Some(DepositAndTokenize(i.amount))
    ensures i.RedeemPrincipalAndYield? ==> Decode(Instruction.Encode(i)) == Some(RedeemPrincipalAndYield(i.amount))
    ensures i.RedeemPrincipalOnly? ==> Decode(Instruction.Encode(i)) == Some(RedeemMaturePrincipal(i.principalAmount))
    ensures i.BurnPrincipalToken? ==> Decode(Instruction.Encode(i)) == Some(ClaimYield(i.amount))
    ensures i.InitializeLysergicTokenizer? || i.InitializeTokenizerAndMints? || i.ClaimYield? || i.BurnYieldToken?
            ==> Decode(Instruction.Encode(i)) == None
  {
    var b := Instruction.Encode(i);
    if i.InitializeLysergicTokenizer? || i.InitializeTokenizerAndMints? || i.ClaimYield? || i.BurnYieldToken? {
      DecodedLength(b);
    } else {
      var c: Command := match i
        case InitializeMints(m, e) => InitializeMints(m, e)
        case DepositUnderlying(a) => DepositUnderlying(a)
        case TokenizePrincipal(a) => TokenizePrincipal(a)
        case TokenizeYield(a) => TokenizeYield(a)
        case DepositAndTokenize(a) => DepositAndTokenize(a)
        case RedeemPrincipalAndYield(a) => RedeemPrincipalAndYield(a)
        case RedeemPrincipalOnly(a) => RedeemMaturePrincipal(a)
        case BurnPrincipalToken(a) => ClaimYield(a);
      assert Encode(c) == b;
      DecodeEncode(c);
    }
  }
}
