/**
 * `TokenizerError` of the second crate: the same twelve variants as `LysergicTokenizerError`
 * in the same order, and three more. It converts to `ProgramError::Custom(variant index)` too.
 */
module TokenizerErrors {
  import opened Common
  import Errors

  /** The error enum of `program/src/error.rs`, in declaration order. */
  datatype TokenizerError =
    | InvalidInstruction
    | TokenizerAlreadyInitialized
    | TokenizerNotInitialized
    | InvalidUserAccount
    | IncorrectTokenizerAddress
    | InvalidExpiryDate
    | IncorrectVaultAddress
    | IncorrectUnderlyingMintAddress
    | IncorrectPrincipalMintAddress
    | IncorrectYieldMintAddress
    | ExpiryDateElapsed
    | ExpiryDateNotElapsed
    | Unauthorised
    | InsufficientFunds
    | VaultNotEmpty

  function TokenizerCode(e: TokenizerError): (c: nat)
    ensures c < 15
  {
    match e
    case InvalidInstruction => 0
    case TokenizerAlreadyInitialized => 1
    case TokenizerNotInitialized => 2
    case InvalidUserAccount => 3
    case IncorrectTokenizerAddress => 4
    case InvalidExpiryDate => 5
    case IncorrectVaultAddress => 6
    case IncorrectUnderlyingMintAddress => 7
    case IncorrectPrincipalMintAddress => 8
    case IncorrectYieldMintAddress => 9
    case ExpiryDateElapsed => 10
    case ExpiryDateNotElapsed => 11
    case Unauthorised => 12
    case InsufficientFunds => 13
    case VaultNotEmpty => 14
  }

  function TokenizerFromCode(c: nat): (e: Option<TokenizerError>)
    ensures e.Some? <==> c < 15
    ensures e.Some? ==> TokenizerCode(e.value) == c
  {
    if c == 0 then Some(InvalidInstruction)
    else if c == 1 then Some(TokenizerAlreadyInitialized)
    else if c == 2 then Some(TokenizerNotInitialized)
    else if c == 3 then Some(InvalidUserAccount)
    else if c == 4 then Some(IncorrectTokenizerAddress)
    else if c == 5 then Some(InvalidExpiryDate)
    else if c == 6 then Some(IncorrectVaultAddress)
    else if c == 7 then Some(IncorrectUnderlyingMintAddress)
    else if c == 8 then Some(IncorrectPrincipalMintAddress)
    else if c == 9 then Some(IncorrectYieldMintAddress)
    else if c == 10 then Some(ExpiryDateElapsed)
    else if c == 11 then Some(ExpiryDateNotElapsed)
    else if c == 12 then Some(Unauthorised)
    else if c == 13 then Some(InsufficientFunds)
    else if c == 14 then Some(VaultNotEmpty)
    else None
  }

  /** `impl From<TokenizerError> for ProgramError`. */
  function TokenizerToProgramError(e: TokenizerError): (p: Errors.ProgramError)
    ensures p.Custom? && TokenizerFromCode(p.code) == Some(e)
  {
    TokenizerCodeRoundTrip(e);
    Errors.Custom(TokenizerCode(e))
  }

  lemma TokenizerCodeRoundTrip(e: TokenizerError)
    ensures TokenizerFromCode(TokenizerCode(e)) == Some(e)
  {
  }

  lemma {:induction false} TokenizerCodeInjective(a: TokenizerError, b: TokenizerError)
    ensures TokenizerCode(a) == TokenizerCode(b) ==> a == b
  {
    TokenizerCodeRoundTrip(a);
    TokenizerCodeRoundTrip(b);
  }

  /** The variants the two crates share sit at the same index, so they surface as the same custom code. */
  function Shared(e: Errors.LysergicTokenizerError): TokenizerError
  {
    match e
    case InvalidInstruction => InvalidInstruction
    case TokenizerAlreadyInitialized => TokenizerAlreadyInitialized
    case TokenizerNotInitialized => TokenizerNotInitialized
    case InvalidUserAccount => InvalidUserAccount
    case IncorrectTokenizerAddress => IncorrectTokenizerAddress
    case InvalidExpiryDate => InvalidExpiryDate
    case IncorrectVaultAddress => IncorrectVaultAddress
    case IncorrectUnderlyingMintAddress => IncorrectUnderlyingMintAddress
    case IncorrectPrincipalMintAddress => IncorrectPrincipalMintAddress
    case IncorrectYieldMintAddress => IncorrectYieldMintAddress
    case ExpiryDateElapsed => ExpiryDateElapsed
    case ExpiryDateNotElapsed => ExpiryDateNotElapsed
  }

  lemma SharedVariantsAgree(e: Errors.LysergicTokenizerError)
    ensures TokenizerToProgramError(Shared(e)) == Errors.ToProgramError(e)
  {
  }

  lemma TokenizerOnlyCodes()
    ensures TokenizerToProgramError(ExpiryDateNotElapsed) == Errors.Custom(11)
    ensures TokenizerToProgramError(Unauthorised) == Errors.Custom(12)
    ensures TokenizerToProgramError(InsufficientFunds) == Errors.Custom(13)
    ensures TokenizerToProgramError(VaultNotEmpty) == Errors.Custom(14)
  {
  }

  /** The three variants only this crate declares use codes that no `LysergicTokenizerError` uses. */
  lemma TokenizerOnlyCodesAreFresh(e: TokenizerError)
    requires e == Unauthorised || e == InsufficientFunds || e == VaultNotEmpty
    ensures forall s: Errors.LysergicTokenizerError :: TokenizerCode(e) != Errors.Code(s)
  {
  }
}
