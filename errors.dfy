/**
 * Errors. `ProgramError` is the platform's error channel; each program error enum is a
 * flat list of variants that converts to `ProgramError::Custom(variant index)`.
 */
module Errors {
  import opened Common

  /** The platform's `ProgramError`, reduced to the variants this program can raise or receive. */
  datatype ProgramError =
    | Custom(code: nat)
    | InvalidArgument
    | InvalidInstructionData
    | InvalidAccountData
    | UninitializedAccount
    | NotEnoughAccountKeys
    | MissingRequiredSignature
    | IncorrectProgramId
    | BorshIoError
      /** The program panicked (an out-of-range slice); the platform aborts the transaction. */
    | ProgramFailedToComplete

  /** `LysergicTokenizerError` of the on-chain crate, in declaration order. */
  datatype LysergicTokenizerError =
    | InvalidInstruction
    | TokenizerAlreadyInitialized
    | TokenizerNotInitialized
    | InvalidUserAccount
    | IncorrectTokenizerAddress
    | InvalidExpiryDate
    | IncorrectVaultAddress
    | IncorrectUnderlyingMintAddress
    | IncorrectPrincipalMintAddress
    | IncorrectYieldMintAddress
    | ExpiryDateElapsed
    | ExpiryDateNotElapsed

  /** `e as u32`: the position of the variant in the declaration. */
  function Code(e: LysergicTokenizerError): (c: nat)
    ensures c < 12
  {
    match e
    case InvalidInstruction => 0
    case TokenizerAlreadyInitialized => 1
    case TokenizerNotInitialized => 2
    case InvalidUserAccount => 3
    case IncorrectTokenizerAddress => 4
    case InvalidExpiryDate => 5
    case IncorrectVaultAddress => 6
    case IncorrectUnderlyingMintAddress => 7
    case IncorrectPrincipalMintAddress => 8
    case IncorrectYieldMintAddress => 9
    case ExpiryDateElapsed => 10
    case ExpiryDateNotElapsed => 11
  }

  /** The derived `FromPrimitive`: the variant at a given index, if any. */
  function FromCode(c: nat): (e: Option<LysergicTokenizerError>)
    ensures e.Some? <==> c < 12
    ensures e.Some? ==> Code(e.value) == c
  {
    if c == 0 then Some(InvalidInstruction)
    else if c == 1 then Some(TokenizerAlreadyInitialized)
    else if c == 2 then Some(TokenizerNotInitialized)
    else if c == 3 then Some(InvalidUserAccount)
    else if c == 4 then Some(IncorrectTokenizerAddress)
    else if c == 5 then Some(InvalidExpiryDate)
    else if c == 6 then Some(IncorrectVaultAddress)
    else if c == 7 then Some(IncorrectUnderlyingMintAddress)
    else if c == 8 then Some(IncorrectPrincipalMintAddress)
    else if c == 9 then Some(IncorrectYieldMintAddress)
    else if c == 10 then Some(ExpiryDateElapsed)
    else if c == 11 then Some(ExpiryDateNotElapsed)
    else None
  }

  /** `impl From<LysergicTokenizerError> for ProgramError`. */
  function ToProgramError(e: LysergicTokenizerError): (p: ProgramError)
    ensures p.Custom? && FromCode(p.code) == Some(e)
  {
    CodeRoundTrip(e);
    Custom(Code(e))
  }

  /** Two program errors converted from different variants are different. */
  lemma {:induction false} ToProgramErrorInjective(a: LysergicTokenizerError, b: LysergicTokenizerError)
    ensures ToProgramError(a) == ToProgramError(b) ==> a == b
  {
  }

  lemma CodeRoundTrip(e: LysergicTokenizerError)
    ensures FromCode(Code(e)) == Some(e)
  {
  }

  /** Distinct variants never share a custom code. */
  lemma {:induction false} CodeInjective(a: LysergicTokenizerError, b: LysergicTokenizerError)
    ensures Code(a) == Code(b) ==> a == b
  {
    CodeRoundTrip(a);
    CodeRoundTrip(b);
  }

  lemma CodesOfNamedVariants()
    ensures ToProgramError(InvalidInstruction) == Custom(0)
    ensures ToProgramError(TokenizerAlreadyInitialized) == Custom(1)
    ensures ToProgramError(ExpiryDateElapsed) == Custom(10)
    ensures ToProgramError(ExpiryDateNotElapsed) == Custom(11)
  {
  }
}
