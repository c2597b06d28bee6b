/**
 * What each instruction handler of the processor does, as a function from the ledger before
 * to the ledger after, or to the error the transaction fails with. Each handler is split into
 * its checks (which read accounts and the stored position record and change nothing) and the
 * cross-program calls it then makes, in order; the first failing call fails the whole
 * instruction.
 *
 * Accounts are passed as a list of keys with their signer flags; what the runtime knows about
 * each key (owner, lamports, data, token balances) is read from the ledger.
 */
module Handlers {
  import opened Common
  import opened Errors
  import opened State
  import opened Expiry
  import opened Ledger
  import Derivation
  import Commands

  /** An entry of the instruction's account list. */
  datatype AccountInfo = AccountInfo(key: Pubkey, isSigner: bool)

  /** Which of the two position tokens a tokenize call mints. */
  datatype Side = PrincipalSide | YieldSide

  /** `RedemptionMode`: `Mature` redemption is only open after the expiry date. */
  datatype RedemptionMode = Mature | PrincipalYield

  /** Lamports the position account must still receive: the rent minimum (at least one) less what it holds. */
  function RequiredLamports(rentMinimum: nat, current: nat): (r: nat)
    ensures current >= Max(rentMinimum, 1) ==> r == 0
    ensures current < Max(rentMinimum, 1) ==> current + r == Max(rentMinimum, 1)
  {
    SaturatingSub(Max(rentMinimum, 1), current)
  }

  /**
   * `try_from_slice(&data[..LYSERGIC_TOKENIZER_STATE_SIZE])`: slicing data shorter than the
   * record aborts the program; any 177 bytes decode.
   */
  function ReadState(w: World, k: Pubkey): (r: Result<TokenizerState, ProgramError>)
    ensures r.Ok? <==> |Data(w, k)| >= STATE_SIZE
    ensures r.Err? ==> r.error == ProgramFailedToComplete
    ensures r.Ok? ==> Serialize(r.value) == Data(w, k)[..STATE_SIZE]
  {
    var d := Data(w, k);
    if |d| < STATE_SIZE then Err(ProgramFailedToComplete)
    else
      SerializeDeserialize(d[..STATE_SIZE]);
      match Deserialize(d[..STATE_SIZE])
      case Err(e) => Err(e)
      case Ok(s) => Ok(s)
  }

  /** `state.serialize(&mut data[..])`: overwrites the start of the account's data with the record. */
  function WriteState(env: Env, w: World, k: Pubkey, s: TokenizerState): (r: Result<World, ProgramError>)
    ensures r.Ok? <==> |Data(w, k)| >= STATE_SIZE
    ensures r.Ok? ==> r.value.tokens == w.tokens && r.value.mints == w.mints
  {
    var d := Data(w, k);
    if |d| < STATE_SIZE then Err(BorshIoError)
    else Ok(SetAccount(w, k, Account(Owner(env, w, k), Lamports(w, k), Serialize(s) + d[STATE_SIZE..])))
  }

  /** The record `initialize` writes: the bump and authority fields are left at zero. */
  function InitialState(principal: Pubkey, yieldMint: Pubkey, underlyingMint: Pubkey,
                        underlyingVault: Pubkey, expiryDate: i64, fixedApy: u64): TokenizerState
  {
    TokenizerState(0, ZERO_KEY, principal, yieldMint, underlyingMint, underlyingVault, expiryDate, fixedApy)
  }

  // ---------------------------------------------------------------------------------------
  // process_initialize_lysergic_tokenizer

  /**
   * Every account and key check of `process_initialize_lysergic_tokenizer` for the expiry
   * date `d`: the position key is derived from the authority key, the mint and `d`; the
   * authority signs; the vault is the position's associated account of the mint; the mint
   * account is the mint; the two mint keys are derived for the mint with the position key in
   * the program-id place; and the last two accounts are the token and system programs.
   */
  predicate InitializeAccountsOk(env: Env, a: seq<AccountInfo>, principal: Pubkey, yieldMint: Pubkey,
                                 underlyingMint: Pubkey, d: i64)
  {
    && |a| >= 6
    && a[0].key == Derivation.GetTokenizerAddress(env.find, a[1].key, underlyingMint, d)
    && a[1].isSigner
    && a[2].key == env.assoc(a[0].key, underlyingMint)
    && a[3].key == underlyingMint
    && principal == Derivation.GetPrincipalMintAddress(env.find, a[0].key, underlyingMint)
    && yieldMint == Derivation.GetYieldMintAddress(env.find, a[0].key, underlyingMint)
    && a[4].key == env.tokenProgramId
    && a[5].key == env.systemProgramId
  }

  /**
   * The checks of `process_initialize_lysergic_tokenizer`, in order, returning the expiry date.
   * Accounts: position, authority, vault, underlying mint, token program, system program.
   */
  function InitializeChecks(env: Env, w: World, a: seq<AccountInfo>, principal: Pubkey, yieldMint: Pubkey,
                            underlyingMint: Pubkey, expiry: Term): (r: Result<i64, ProgramError>)
    ensures r.Ok? ==> Some(r.value) == ToExpiryDate(expiry, env.now)
    ensures r.Ok? <==> ToExpiryDate(expiry, env.now).Some? &&
                       InitializeAccountsOk(env, a, principal, yieldMint, underlyingMint, ToExpiryDate(expiry, env.now).value) &&
                       Owner(env, w, a[0].key) != env.programId
    ensures r == Err(ToProgramError(TokenizerAlreadyInitialized)) <==>
              ToExpiryDate(expiry, env.now).Some? &&
              InitializeAccountsOk(env, a, principal, yieldMint, underlyingMint, ToExpiryDate(expiry, env.now).value) &&
              Owner(env, w, a[0].key) == env.programId
  {
    if |a| < 6 then Err(NotEnoughAccountKeys)
    else
      var tok, auth, vault, mintAccount, tokenProgram, systemProgram := a[0], a[1], a[2], a[3], a[4], a[5];
      match ToExpiryDate(expiry, env.now)
      case None => Err(ToProgramError(InvalidExpiryDate))
      case Some(expiryDate) =>
        if tok.key != Derivation.GetTokenizerAddress(env.find, auth.key, underlyingMint, expiryDate) then
          Err(ToProgramError(IncorrectTokenizerAddress))
        else if !auth.isSigner then Err(MissingRequiredSignature)
        else if vault.key != env.assoc(tok.key, underlyingMint) then Err(ToProgramError(IncorrectVaultAddress))
        else if underlyingMint != mintAccount.key then Err(ToProgramError(IncorrectUnderlyingMintAddress))
        else if principal != Derivation.GetPrincipalMintAddress(env.find, tok.key, underlyingMint) then
          Err(ToProgramError(IncorrectPrincipalMintAddress))
        else if yieldMint != Derivation.GetYieldMintAddress(env.find, tok.key, underlyingMint) then
          Err(ToProgramError(IncorrectYieldMintAddress))
        else if tokenProgram.key != env.tokenProgramId then Err(IncorrectProgramId)
        else if systemProgram.key != env.systemProgramId then Err(IncorrectProgramId)
        else if Owner(env, w, tok.key) == env.programId then Err(ToProgramError(TokenizerAlreadyInitialized))
        else Ok(expiryDate)
  }

  /**
   * `process_initialize_lysergic_tokenizer(principal, yield, underlying_mint, underlying_vault,
   * expiry, fixed_apy)`: after the checks, creates the position account funded to the rent
   * minimum and owned by the program, creates the associated token account of the vault key,
   * and writes the record.
   */
  function InitializeTokenizer(env: Env, w: World, a: seq<AccountInfo>, principal: Pubkey, yieldMint: Pubkey,
                               underlyingMint: Pubkey, underlyingVault: Pubkey, expiry: Term,
                               fixedApy: u64): (r: Result<World, ProgramError>)
    ensures r.Ok? ==> InitializeChecks(env, w, a, principal, yieldMint, underlyingMint, expiry).Ok?
  {
    match InitializeChecks(env, w, a, principal, yieldMint, underlyingMint, expiry)
    case Err(e) => Err(e)
    case Ok(expiryDate) =>
      var tok, auth, vault, tokenProgram := a[0], a[1], a[2], a[4];
      var lamports := RequiredLamports(env.rentMinimum, Lamports(w, tok.key));
      match CreateAccount(env, w, auth.key, auth.isSigner, tok.key, tok.isSigner, lamports, STATE_SIZE, env.programId)
      case Err(e) => Err(e)
      case Ok(w1) =>
        match CreateAssociatedAccount(env, w1, auth.key, auth.isSigner, vault.key, underlyingMint, tokenProgram.key)
        case Err(e) => Err(e)
        case Ok(w2) =>
          WriteState(env, w2, tok.key,
                     InitialState(principal, yieldMint, underlyingMint, underlyingVault, expiryDate, fixedApy))
  }

  // ---------------------------------------------------------------------------------------
  // process_initialize_mints

  /**
   * The checks of `process_initialize_mints`. Accounts: position, authority, underlying mint,
   * principal mint, yield mint, token program. An initialized position is checked against its
   * record; an uninitialized one against the derived mint addresses.
   */
  function InitializeMintsChecks(env: Env, w: World, a: seq<AccountInfo>, underlyingMint: Pubkey,
                                 expiry: Term): (r: Result<(), ProgramError>)
    ensures r.Ok? ==> |a| >= 6 && a[1].isSigner && a[5].key == env.tokenProgramId && ToExpiryDate(expiry, env.now).Some?
    ensures r.Ok? ==> a[0].key == Derivation.GetTokenizerAddress(env.find, a[5].key, underlyingMint,
                                                                 ToExpiryDate(expiry, env.now).value)
    ensures r.Ok? && Owner(env, w, a[0].key) == env.programId ==>
              && ReadState(w, a[0].key).Ok?
              && var s := ReadState(w, a[0].key).value;
              && s.principalTokenMint == a[3].key && s.yieldTokenMint == a[4].key
              && s.underlyingMint == a[2].key && Some(s.expiryDate) == ToExpiryDate(expiry, env.now)
              && s.underlyingVault == env.assoc(a[0].key, s.underlyingMint)
    ensures r.Ok? && Owner(env, w, a[0].key) != env.programId ==>
              && a[3].key == Derivation.GetPrincipalMintAddress(env.find, a[5].key, a[0].key)
              && a[4].key == Derivation.GetYieldMintAddress(env.find, a[5].key, a[0].key)
  {
    if |a| < 6 then Err(NotEnoughAccountKeys)
    else
      var tok, auth, mintAccount, principalMint, yieldMint, tokenProgram := a[0], a[1], a[2], a[3], a[4], a[5];
      match ToExpiryDate(expiry, env.now)
      case None => Err(ToProgramError(InvalidExpiryDate))
      case Some(expiryDate) =>
        if tok.key != Derivation.GetTokenizerAddress(env.find, tokenProgram.key, underlyingMint, expiryDate) then
          Err(ToProgramError(IncorrectTokenizerAddress))
        else if !auth.isSigner then Err(MissingRequiredSignature)
        else if tokenProgram.key != env.tokenProgramId then Err(IncorrectProgramId)
        else if Owner(env, w, tok.key) == env.programId then
          match ReadState(w, tok.key)
          case Err(e) => Err(e)
          case Ok(s) =>
            if s.principalTokenMint != principalMint.key then Err(ToProgramError(IncorrectPrincipalMintAddress))
            else if s.yieldTokenMint != yieldMint.key then Err(ToProgramError(IncorrectYieldMintAddress))
            else if s.underlyingMint != mintAccount.key then Err(ToProgramError(IncorrectUnderlyingMintAddress))
            else if s.expiryDate != expiryDate then Err(ToProgramError(InvalidExpiryDate))
            else if s.underlyingVault != env.assoc(tok.key, s.underlyingMint) then Err(ToProgramError(IncorrectVaultAddress))
            else Ok(())
        else if principalMint.key != Derivation.GetPrincipalMintAddress(env.find, tokenProgram.key, tok.key) then
          Err(ToProgramError(IncorrectPrincipalMintAddress))
        else if yieldMint.key != Derivation.GetYieldMintAddress(env.find, tokenProgram.key, tok.key) then
          Err(ToProgramError(IncorrectYieldMintAddress))
        else Ok(())
  }

  /** `process_initialize_mints`: both mints initialized with the position as authority and six decimals. */
  function InitializeMints(env: Env, w: World, a: seq<AccountInfo>, underlyingMint: Pubkey, expiry: Term): (r: Result<World, ProgramError>)
    ensures r.Ok? ==> InitializeMintsChecks(env, w, a, underlyingMint, expiry).Ok?
  {
    match InitializeMintsChecks(env, w, a, underlyingMint, expiry)
    case Err(e) => Err(e)
    case Ok(_) =>
      var tok, principalMint, yieldMint, tokenProgram := a[0], a[3], a[4], a[5];
      match InitializeMint(env, w, tokenProgram.key, principalMint.key, tok.key, 6)
      case Err(e) => Err(e)
      case Ok(w1) => InitializeMint(env, w1, tokenProgram.key, yieldMint.key, tok.key, 6)
  }

  // ---------------------------------------------------------------------------------------
  // process_initialize_tokenizer_and_mints

  /**
   * `process_initialize_tokenizer_and_mints`: nine accounts; the position is initialized with
   * the accounts (position, authority, vault, token program, associated-token program, system
   * program) and the mints with the five accounts (position, underlying mint, principal mint,
   * yield mint, token program).
   */
  function InitializeTokenizerAndMints(env: Env, w: World, a: seq<AccountInfo>, underlyingVault: Pubkey,
                                       underlyingMint: Pubkey, principal: Pubkey, yieldMint: Pubkey,
                                       expiry: Term, fixedApy: u64): (r: Result<World, ProgramError>)
    ensures |a| < 9 ==> r == Err(NotEnoughAccountKeys)
    ensures r.Ok? ==> |a| >= 9 && InitializeChecks(env, w, [a[0], a[1], a[2], a[6], a[7], a[8]], principal,
                                                   yieldMint, underlyingMint, expiry).Ok?
  {
    if |a| < 9 then Err(NotEnoughAccountKeys)
    else
      var tokenizerAccounts := [a[0], a[1], a[2], a[6], a[7], a[8]];
      var mintAccounts := [a[0], a[3], a[4], a[5], a[6]];
      match InitializeTokenizer(env, w, tokenizerAccounts, principal, yieldMint, underlyingMint,
                                underlyingVault, expiry, fixedApy)
      case Err(e) => Err(e)
      case Ok(w1) => InitializeMints(env, w1, mintAccounts, underlyingMint, expiry)
  }

  // ---------------------------------------------------------------------------------------
  // process_deposit_underlying

  /**
   * The checks of `process_deposit_underlying`; the record is read before the owner check.
   * Accounts: position, vault, user, user's underlying token account, token program.
   */
  function DepositChecks(env: Env, w: World, a: seq<AccountInfo>): (r: Result<TokenizerState, ProgramError>)
    ensures r.Ok? ==> |a| >= 5 && ReadState(w, a[0].key) == Ok(r.value)
    ensures r.Ok? ==> Owner(env, w, a[0].key) == env.programId && a[1].key == r.value.underlyingVault
    ensures r.Ok? ==> a[2].isSigner && a[3].key == env.assoc(a[2].key, r.value.underlyingMint)
    ensures r.Ok? ==> a[4].key == env.tokenProgramId
  {
    if |a| < 5 then Err(NotEnoughAccountKeys)
    else
      var tok, vault, user, userUnderlying, tokenProgram := a[0], a[1], a[2], a[3], a[4];
      match ReadState(w, tok.key)
      case Err(e) => Err(e)
      case Ok(s) =>
        if Owner(env, w, tok.key) != env.programId then Err(ToProgramError(TokenizerNotInitialized))
        else if vault.key != s.underlyingVault then Err(ToProgramError(IncorrectVaultAddress))
        else if !user.isSigner then Err(MissingRequiredSignature)
        else if userUnderlying.key != env.assoc(user.key, s.underlyingMint) then Err(ToProgramError(InvalidUserAccount))
        else if tokenProgram.key != env.tokenProgramId then Err(IncorrectProgramId)
        else Ok(s)
  }

  /** `process_deposit_underlying`: the user moves `amount` underlying tokens into the vault. */
  function DepositUnderlying(env: Env, w: World, a: seq<AccountInfo>, amount: u64): (r: Result<World, ProgramError>)
    ensures r.Ok? ==> DepositChecks(env, w, a).Ok?
  {
    match DepositChecks(env, w, a)
    case Err(e) => Err(e)
    case Ok(_) => Transfer(env, w, a[4].key, a[3].key, a[1].key, a[2].key, a[2].isSigner, amount)
  }

  // ---------------------------------------------------------------------------------------
  // process_tokenize_principal / process_tokenize_yield

  function SideMint(s: TokenizerState, side: Side): Pubkey
  {
    match side
    case PrincipalSide => s.principalTokenMint
    case YieldSide => s.yieldTokenMint
  }

  function SideMintError(side: Side): LysergicTokenizerError
  {
    match side
    case PrincipalSide => IncorrectPrincipalMintAddress
    case YieldSide => IncorrectYieldMintAddress
  }

  /**
   * The checks of `process_tokenize_principal` (`side` = principal) and
   * `process_tokenize_yield`. Accounts: position, the side's mint, user, user's token account
   * for that mint, token program.
   */
  function TokenizeChecks(env: Env, w: World, a: seq<AccountInfo>, side: Side): (r: Result<TokenizerState, ProgramError>)
    ensures r.Ok? ==> |a| >= 5 && ReadState(w, a[0].key) == Ok(r.value)
    ensures r.Ok? ==> Owner(env, w, a[0].key) == env.programId && r.value.expiryDate >= env.now
    ensures r.Ok? ==> a[1].key == SideMint(r.value, side) && a[3].key == env.assoc(a[2].key, SideMint(r.value, side))
    ensures r.Ok? ==> a[4].key == env.tokenProgramId
  {
    if |a| < 5 then Err(NotEnoughAccountKeys)
    else
      var tok, mintAccount, user, userToken, tokenProgram := a[0], a[1], a[2], a[3], a[4];
      if Owner(env, w, tok.key) != env.programId then Err(ToProgramError(TokenizerNotInitialized))
      else
        match ReadState(w, tok.key)
        case Err(e) => Err(e)
        case Ok(s) =>
          if s.expiryDate < env.now then Err(ToProgramError(ExpiryDateElapsed))
          else if mintAccount.key != SideMint(s, side) then Err(ToProgramError(SideMintError(side)))
          else if userToken.key != env.assoc(user.key, SideMint(s, side)) then Err(ToProgramError(InvalidUserAccount))
          else if tokenProgram.key != env.tokenProgramId then Err(IncorrectProgramId)
          else Ok(s)
  }

  /**
   * Creates a user's token account when the key is not yet owned by the token program: the
   * system program account (`system`, when the list has one) must be the system program, and
   * the associated account is requested with the account's own key as wallet and the user's key
   * in the token-program position.
   */
  function EnsureTokenAccount(env: Env, w: World, system: Option<AccountInfo>, user: AccountInfo,
                              account: Pubkey, mint: Pubkey, tokenProgram: Pubkey): (r: Result<World, ProgramError>)
    ensures Owner(env, w, account) == tokenProgram ==> r == Ok(w)
    ensures Owner(env, w, account) != tokenProgram && r.Ok? ==>
              system.Some? && user.key == env.tokenProgramId && user.isSigner
    ensures r.Ok? ==> r.value.mints == w.mints && forall k :: k in w.tokens ==> k in r.value.tokens && r.value.tokens[k] == w.tokens[k]
    ensures r.Ok? ==> r.value.tokens.Keys <= w.tokens.Keys + {env.assoc(account, mint)}
    ensures r.Ok? ==> forall k :: Balance(r.value, k) == Balance(w, k)
  {
    if Owner(env, w, account) == tokenProgram then Ok(w)
    else match system
      case None => Err(NotEnoughAccountKeys)
      case Some(s) =>
        if s.key != env.systemProgramId then Err(IncorrectProgramId)
        else CreateAssociatedAccount(env, w, user.key, user.isSigner, account, mint, user.key)
  }

  /** The optional account at `i`, for handlers that take it only when they need it. */
  function Nth(a: seq<AccountInfo>, i: nat): (r: Option<AccountInfo>)
    ensures r.Some? <==> i < |a|
    ensures r.Some? ==> r.value == a[i]
  {
    if i < |a| then Some(a[i]) else None
  }

  /**
   * `process_tokenize_principal` / `process_tokenize_yield`: creates the user's token account
   * if needed (the system program is a sixth, optional account), then mints `amount` of the
   * side's token to it, signed by the position.
   */
  function Tokenize(env: Env, w: World, a: seq<AccountInfo>, side: Side, amount: u64): (r: Result<World, ProgramError>)
    ensures r.Ok? ==> TokenizeChecks(env, w, a, side).Ok?
  {
    match TokenizeChecks(env, w, a, side)
    case Err(e) => Err(e)
    case Ok(s) =>
      var tok, mintAccount, user, userToken, tokenProgram := a[0], a[1], a[2], a[3], a[4];
      match EnsureTokenAccount(env, w, Nth(a, 5), user, userToken.key, SideMint(s, side), tokenProgram.key)
      case Err(e) => Err(e)
      case Ok(w1) => MintTo(env, w1, tokenProgram.key, mintAccount.key, userToken.key, tok.key, true, amount)
  }

  // ---------------------------------------------------------------------------------------
  // process_deposit_and_tokenize

  /**
   * `process_deposit_and_tokenize`: nine accounts (position, vault, principal mint, yield mint,
   * user, user's underlying, principal and yield token accounts, token program); a deposit,
   * then principal and yield tokenization of the same amount, each with a five-account list.
   */
  function DepositAndTokenize(env: Env, w: World, a: seq<AccountInfo>, amount: u64): (r: Result<World, ProgramError>)
    ensures |a| < 9 ==> r == Err(NotEnoughAccountKeys)
    ensures r.Ok? ==> |a| >= 9 && DepositChecks(env, w, [a[0], a[1], a[4], a[5], a[8]]).Ok?
  {
    if |a| < 9 then Err(NotEnoughAccountKeys)
    else
      var depositAccounts := [a[0], a[1], a[4], a[5], a[8]];
      var principalAccounts := [a[0], a[2], a[4], a[6], a[8]];
      var yieldAccounts := [a[0], a[3], a[4], a[7], a[8]];
      match DepositUnderlying(env, w, depositAccounts, amount)
      case Err(e) => Err(e)
      case Ok(w1) =>
        match Tokenize(env, w1, principalAccounts, PrincipalSide, amount)
        case Err(e) => Err(e)
        case Ok(w2) => Tokenize(env, w2, yieldAccounts, YieldSide, amount)
  }

  // ---------------------------------------------------------------------------------------
  // process_redeem_principal / process_claim_yield

  /**
   * The calls shared by principal redemption and yield claims: create the user's underlying
   * token account if needed, transfer `amount` from the vault to the user's position-token
   * account signed by the position, then burn `amount` of that account's tokens.
   */
  function Payout(env: Env, w: World, system: Option<AccountInfo>, tok: Pubkey, vault: Pubkey, mintAccount: Pubkey,
                  user: AccountInfo, userUnderlying: Pubkey, userToken: Pubkey, underlyingMint: Pubkey,
                  tokenProgram: Pubkey, amount: u64): (r: Result<World, ProgramError>)
    ensures r.Ok? ==> user.isSigner && Supply(r.value, mintAccount) + amount == Supply(w, mintAccount)
  {
    match EnsureTokenAccount(env, w, system, user, userUnderlying, underlyingMint, tokenProgram)
    case Err(e) => Err(e)
    case Ok(w1) =>
      match Transfer(env, w1, tokenProgram, vault, userToken, tok, true, amount)
      case Err(e) => Err(e)
      case Ok(w2) => Burn(env, w2, tokenProgram, userToken, mintAccount, user.key, user.isSigner, amount)
  }

  /** The keys a redemption checks against the record and the derived user accounts. */
  predicate RedeemAccounts(env: Env, a: seq<AccountInfo>, s: TokenizerState)
    requires |a| >= 9
  {
    && a[1].key == s.underlyingVault && a[2].key == s.underlyingMint
    && a[3].key == s.principalTokenMint
    && a[5].key == env.assoc(a[4].key, s.underlyingMint)
    && a[6].key == env.assoc(a[4].key, s.principalTokenMint)
    && a[7].key == env.tokenProgramId
  }

  /**
   * The checks of `process_redeem_principal`. Accounts: position, vault, underlying mint,
   * principal mint, user, user's underlying and principal token accounts, token program,
   * system program.
   */
  function RedeemChecks(env: Env, w: World, a: seq<AccountInfo>, mode: RedemptionMode): (r: Result<TokenizerState, ProgramError>)
    ensures r.Ok? ==> |a| >= 9 && ReadState(w, a[0].key) == Ok(r.value)
    ensures r.Ok? ==> Owner(env, w, a[0].key) == env.programId && (mode == Mature ==> r.value.expiryDate < env.now)
    ensures r.Ok? ==> RedeemAccounts(env, a, r.value)
  {
    if |a| < 9 then Err(NotEnoughAccountKeys)
    else
      var tok, vault, mintAccount, principalMint, user := a[0], a[1], a[2], a[3], a[4];
      var userUnderlying, userPrincipal, tokenProgram := a[5], a[6], a[7];
      if Owner(env, w, tok.key) != env.programId then Err(ToProgramError(TokenizerNotInitialized))
      else
        match ReadState(w, tok.key)
        case Err(e) => Err(e)
        case Ok(s) =>
          if mode == Mature && s.expiryDate >= env.now then Err(ToProgramError(ExpiryDateNotElapsed))
          else if vault.key != s.underlyingVault then Err(ToProgramError(IncorrectVaultAddress))
          else if mintAccount.key != s.underlyingMint then Err(ToProgramError(IncorrectUnderlyingMintAddress))
          else if principalMint.key != s.principalTokenMint then Err(ToProgramError(IncorrectPrincipalMintAddress))
          else if userUnderlying.key != env.assoc(user.key, s.underlyingMint) then Err(ToProgramError(InvalidUserAccount))
          else if userPrincipal.key != env.assoc(user.key, s.principalTokenMint) then Err(ToProgramError(InvalidUserAccount))
          else if tokenProgram.key != env.tokenProgramId then Err(IncorrectProgramId)
          else Ok(s)
  }

  /** `process_redeem_principal(accounts, mode, amount)`. */
  function RedeemPrincipal(env: Env, w: World, a: seq<AccountInfo>, mode: RedemptionMode, amount: u64): (r: Result<World, ProgramError>)
    ensures r.Ok? ==> RedeemChecks(env, w, a, mode).Ok?
  {
    match RedeemChecks(env, w, a, mode)
    case Err(e) => Err(e)
    case Ok(s) =>
      Payout(env, w, Some(a[8]), a[0].key, a[1].key, a[3].key, a[4], a[5].key, a[6].key, s.underlyingMint, a[7].key, amount)
  }

  /**
   * The checks of `process_claim_yield`; there is no expiry check. Accounts: position, vault,
   * underlying mint, yield mint, user, user's underlying and yield token accounts, token
   * program, and optionally the system program.
   */
  function ClaimChecks(env: Env, w: World, a: seq<AccountInfo>): (r: Result<TokenizerState, ProgramError>)
    ensures r.Ok? ==> |a| >= 8 && ReadState(w, a[0].key) == Ok(r.value)
    ensures r.Ok? ==> Owner(env, w, a[0].key) == env.programId
    ensures r.Ok? ==> a[1].key == r.value.underlyingVault && a[3].key == r.value.yieldTokenMint
    ensures r.Ok? ==> a[5].key == env.assoc(a[4].key, r.value.underlyingMint)
    ensures r.Ok? ==> a[6].key == env.assoc(a[4].key, r.value.yieldTokenMint) && a[7].key == env.tokenProgramId
  {
    if |a| < 8 then Err(NotEnoughAccountKeys)
    else
      var tok, vault, yieldMint, user := a[0], a[1], a[3], a[4];
      var userUnderlying, userYield, tokenProgram := a[5], a[6], a[7];
      if Owner(env, w, tok.key) != env.programId then Err(ToProgramError(TokenizerNotInitialized))
      else
        match ReadState(w, tok.key)
        case Err(e) => Err(e)
        case Ok(s) =>
          if vault.key != s.underlyingVault then Err(ToProgramError(IncorrectVaultAddress))
          else if yieldMint.key != s.yieldTokenMint then Err(ToProgramError(IncorrectYieldMintAddress))
          else if userUnderlying.key != env.assoc(user.key, s.underlyingMint) then Err(ToProgramError(InvalidUserAccount))
          else if userYield.key != env.assoc(user.key, s.yieldTokenMint) then Err(ToProgramError(InvalidUserAccount))
          else if tokenProgram.key != env.tokenProgramId then Err(IncorrectProgramId)
          else Ok(s)
  }

  /** `process_claim_yield(accounts, amount)`. */
  function ClaimYield(env: Env, w: World, a: seq<AccountInfo>, amount: u64): (r: Result<World, ProgramError>)
    ensures r.Ok? ==> ClaimChecks(env, w, a).Ok?
  {
    match ClaimChecks(env, w, a)
    case Err(e) => Err(e)
    case Ok(s) =>
      Payout(env, w, Nth(a, 8), a[0].key, a[1].key, a[3].key, a[4], a[5].key, a[6].key, s.underlyingMint, a[7].key, amount)
  }

  /**
   * `process_redeem_principal_and_yield`: ten accounts; redemption gets the seven accounts
   * (position, vault, underlying mint, principal mint, user, user's principal token account,
   * token program), then the yield claim gets eight.
   */
  function RedeemPrincipalAndYield(env: Env, w: World, a: seq<AccountInfo>, amount: u64): (r: Result<World, ProgramError>)
    ensures |a| < 10 ==> r == Err(NotEnoughAccountKeys)
    ensures r.Ok? ==> |a| >= 10 && RedeemChecks(env, w, [a[0], a[1], a[2], a[3], a[5], a[7], a[9]], PrincipalYield).Ok?
  {
    if |a| < 10 then Err(NotEnoughAccountKeys)
    else
      var redeemAccounts := [a[0], a[1], a[2], a[3], a[5], a[7], a[9]];
      var claimAccounts := [a[0], a[1], a[2], a[4], a[5], a[6], a[8], a[9]];
      match RedeemPrincipal(env, w, redeemAccounts, PrincipalYield, amount)
      case Err(e) => Err(e)
      case Ok(w1) => ClaimYield(env, w1, claimAccounts, amount)
  }

  // ---------------------------------------------------------------------------------------
  // process_terminate*

  /**
   * `process_terminate_lysergic_tokenizer`: accounts position, authority, vault, token program,
   * system program. After the expiry date, closes the vault to the authority, transfers the
   * position's lamports to the authority, then hands the account back to the system program
   * with no data.
   */
  function TerminateTokenizer(env: Env, w: World, a: seq<AccountInfo>): (r: Result<World, ProgramError>)
    ensures |a| < 5 ==> r == Err(NotEnoughAccountKeys)
    ensures |a| >= 5 && ReadState(w, a[0].key).Err? ==> r == Err(ReadState(w, a[0].key).error)
    ensures |a| >= 5 && ReadState(w, a[0].key).Ok? && ReadState(w, a[0].key).value.expiryDate >= env.now ==>
              r == Err(ToProgramError(ExpiryDateNotElapsed))
    ensures r.Ok? ==> |a| >= 5 && ReadState(w, a[0].key).Ok? && ReadState(w, a[0].key).value.expiryDate < env.now
    ensures r.Ok? ==> Owner(env, r.value, a[0].key) == env.systemProgramId && Data(r.value, a[0].key) == []
  {
    if |a| < 5 then Err(NotEnoughAccountKeys)
    else
      var tok, auth, vault, tokenProgram := a[0], a[1], a[2], a[3];
      match ReadState(w, tok.key)
      case Err(e) => Err(e)
      case Ok(s) =>
        if s.expiryDate >= env.now then Err(ToProgramError(ExpiryDateNotElapsed))
        else
          match CloseAccount(env, w, tokenProgram.key, vault.key, auth.key, tok.key, true)
          case Err(e) => Err(e)
          case Ok(w1) =>
            match SystemTransfer(env, w1, tok.key, true, auth.key, Lamports(w1, tok.key))
            case Err(e) => Err(e)
            case Ok(w2) => Ok(SetAccount(w2, tok.key, Account(env.systemProgramId, Lamports(w2, tok.key), [])))
  }

  /**
   * `process_terminate_mints`: accounts position, authority, principal mint, yield mint, token
   * program, system program. After the expiry date, closes both mint accounts to the authority
   * and transfers zero lamports from the position to the authority.
   */
  function TerminateMints(env: Env, w: World, a: seq<AccountInfo>): (r: Result<World, ProgramError>)
    ensures |a| < 6 ==> r == Err(NotEnoughAccountKeys)
    ensures |a| >= 6 && ReadState(w, a[0].key).Err? ==> r == Err(ReadState(w, a[0].key).error)
    ensures |a| >= 6 && ReadState(w, a[0].key).Ok? && ReadState(w, a[0].key).value.expiryDate >= env.now ==>
              r == Err(ToProgramError(ExpiryDateNotElapsed))
    ensures r.Ok? ==> |a| >= 6 && ReadState(w, a[0].key).Ok? && ReadState(w, a[0].key).value.expiryDate < env.now
  {
    if |a| < 6 then Err(NotEnoughAccountKeys)
    else
      var tok, auth, principalMint, yieldMint, tokenProgram := a[0], a[1], a[2], a[3], a[4];
      match ReadState(w, tok.key)
      case Err(e) => Err(e)
      case Ok(s) =>
        if s.expiryDate >= env.now then Err(ToProgramError(ExpiryDateNotElapsed))
        else
          match CloseAccount(env, w, tokenProgram.key, principalMint.key, auth.key, tok.key, true)
          case Err(e) => Err(e)
          case Ok(w1) =>
            match CloseAccount(env, w1, tokenProgram.key, yieldMint.key, auth.key, tok.key, true)
            case Err(e) => Err(e)
            case Ok(w2) => SystemTransfer(env, w2, tok.key, true, auth.key, 0)
  }

  /**
   * `process_terminate`: seven accounts (position, authority, vault, principal mint, yield
   * mint, token program, system program); the mints are terminated with the five accounts
   * (position, authority, vault, token program, system program), then the position with six.
   */
  function Terminate(env: Env, w: World, a: seq<AccountInfo>): (r: Result<World, ProgramError>)
    ensures |a| < 7 ==> r == Err(NotEnoughAccountKeys)
    ensures r.Ok? ==> |a| >= 7 && ReadState(w, a[0].key).Ok? && ReadState(w, a[0].key).value.expiryDate < env.now
  {
    if |a| < 7 then Err(NotEnoughAccountKeys)
    else
      var tokenizerAccounts := [a[0], a[1], a[2], a[5], a[6]];
      var mintAccounts := [a[0], a[1], a[3], a[4], a[5], a[6]];
      match TerminateMints(env, w, tokenizerAccounts)
      case Err(e) => Err(e)
      case Ok(w1) => TerminateTokenizer(env, w1, mintAccounts)
  }

  // ---------------------------------------------------------------------------------------
  // process

  /**
   * The dispatch of `process`. The initialize variant's four keys are passed by position to a
   * handler whose parameters are declared in a different order (principal, yield, underlying
   * mint, vault).
   */
  function Dispatch(env: Env, w: World, a: seq<AccountInfo>, c: Commands.Command): (r: Result<World, ProgramError>)
    ensures c.InitializeLysergicTokenizer? && r.Ok? ==>
              InitializeChecks(env, w, a, c.underlyingVault, c.underlyingMint, c.principalTokenMint, c.expiry).Ok?
    ensures c.InitializeMints? && r.Ok? ==> InitializeMintsChecks(env, w, a, c.underlyingMint, c.expiry).Ok?
    ensures c.DepositUnderlying? && r.Ok? ==> DepositChecks(env, w, a).Ok?
    ensures c.TokenizePrincipal? && r.Ok? ==> TokenizeChecks(env, w, a, PrincipalSide).Ok?
    ensures c.TokenizeYield? && r.Ok? ==> TokenizeChecks(env, w, a, YieldSide).Ok?
    ensures c.RedeemMaturePrincipal? && r.Ok? ==> RedeemChecks(env, w, a, Mature).Ok?
    ensures c.ClaimYield? && r.Ok? ==> ClaimChecks(env, w, a).Ok?
    ensures (c.InitializeTokenizerAndMints? || c.RedeemPrincipalAndYield? || c.Terminate?) && |a| < 7 ==>
              r == Err(NotEnoughAccountKeys)
  {
    match c
    case InitializeLysergicTokenizer(v, m, p, y, e, apy) => InitializeTokenizer(env, w, a, v, m, p, y, e, apy)
    case InitializeMints(m, e) => InitializeMints(env, w, a, m, e)
    case InitializeTokenizerAndMints(v, m, p, y, e, apy) => InitializeTokenizerAndMints(env, w, a, v, m, p, y, e, apy)
    case DepositUnderlying(n) => DepositUnderlying(env, w, a, n)
    case TokenizePrincipal(n) => Tokenize(env, w, a, PrincipalSide, n)
    case TokenizeYield(n) => Tokenize(env, w, a, YieldSide, n)
    case DepositAndTokenize(n) => DepositAndTokenize(env, w, a, n)
    case RedeemPrincipalAndYield(n) => RedeemPrincipalAndYield(env, w, a, n)
    case RedeemMaturePrincipal(n) => RedeemPrincipal(env, w, a, Mature, n)
    case ClaimYield(n) => ClaimYield(env, w, a, n)
    case Terminate => Terminate(env, w, a)
    case TerminateLysergicTokenizer => TerminateTokenizer(env, w, a)
    case TerminateMints => TerminateMints(env, w, a)
  }

  /** `process`: the program id is checked, then the data decoded, then the handler run. */
  function Process(env: Env, w: World, programId: Pubkey, a: seq<AccountInfo>, data: seq<byte>): (r: Result<World, ProgramError>)
    ensures programId != env.programId ==> r == Err(IncorrectProgramId)
    ensures programId == env.programId && Commands.Decode(data) == None ==> r == Err(InvalidInstructionData)
  {
    if programId != env.programId then Err(IncorrectProgramId)
    else
      match Commands.Decode(data)
      case None => Err(InvalidInstructionData)
      case Some(c) => Dispatch(env, w, a, c)
  }
}
