/**
 * The processor as it runs: a ledger whose accounts the handlers change call by call. Each
 * handler runs its checks, then makes its cross-program calls one after the other, each of
 * which updates the ledger in place; when a call fails, the transaction's changes are
 * discarded and the ledger is as it was before the instruction. Each method commits the
 * matching `Handlers` function on purpose: the function is the specification the properties
 * are proved about, and the method's `Settled` contract proves it ends exactly as that function
 * says.
 */
module Processor {
  import opened Common
  import opened Errors
  import opened State
  import opened Expiry
  import opened Ledger
  import Handlers
  import Commands

  type AccountInfo = Handlers.AccountInfo

  /**
   * How an instruction ended, against what its handler function says: on success the ledger
   * is the function's result; on failure the error is the function's and the ledger is
   * unchanged.
   */
  predicate Settled(before: World, r: Result<(), ProgramError>, after: World, expected: Result<World, ProgramError>)
  {
    match expected
    case Ok(w) => r == Ok(()) && after == w
    case Err(e) => r == Err(e) && after == before
  }

  class Chain {
    var accounts: map<Pubkey, Account>
    var tokens: map<Pubkey, TokenAccount>
    var mints: map<Pubkey, Mint>

    /** The ledger as a value. */
    function Snapshot(): World
      reads this
    {
      World(accounts, tokens, mints)
    }

    constructor (w: World)
      ensures Snapshot() == w
    {
      accounts, tokens, mints := w.accounts, w.tokens, w.mints;
    }

    /** Replaces the ledger, as a cross-program call's effects or a rollback do. */
    method Commit(w: World)
      modifies this
      ensures Snapshot() == w
    {
      accounts, tokens, mints := w.accounts, w.tokens, w.mints;
    }

    /** One cross-program call: its effects are applied when it succeeds; otherwise nothing changes. */
    method Step(call: Result<World, ProgramError>) returns (r: Result<(), ProgramError>)
      modifies this
      ensures call.Ok? ==> r == Ok(()) && Snapshot() == call.value
      ensures call.Err? ==> r == Err(call.error) && Snapshot() == old(Snapshot())
    {
      if call.Ok? {
        Commit(call.value);
        r := Ok(());
      } else {
        r := Err(call.error);
      }
    }

    /** `process_initialize_lysergic_tokenizer`. */
    method InitializeTokenizer(env: Env, a: seq<AccountInfo>, principal: Pubkey, yieldMint: Pubkey,
                               underlyingMint: Pubkey, underlyingVault: Pubkey, expiry: Term, fixedApy: u64)
      returns (r: Result<(), ProgramError>)
      modifies this
      ensures Settled(old(Snapshot()), r, Snapshot(),
                      Handlers.InitializeTokenizer(env, old(Snapshot()), a, principal, yieldMint, underlyingMint,
                                                   underlyingVault, expiry, fixedApy))
    {
      var before := Snapshot();
      var checks := Handlers.InitializeChecks(env, before, a, principal, yieldMint, underlyingMint, expiry);
      if checks.Err? {
        return Err(checks.error);
      }
      var tok, auth, vault, tokenProgram := a[0], a[1], a[2], a[4];
      var lamports := Handlers.RequiredLamports(env.rentMinimum, Lamports(before, tok.key));
      r := Step(CreateAccount(env, Snapshot(), auth.key, auth.isSigner, tok.key, tok.isSigner, lamports, STATE_SIZE, env.programId));
      if r.Ok? {
        r := Step(CreateAssociatedAccount(env, Snapshot(), auth.key, auth.isSigner, vault.key, underlyingMint, tokenProgram.key));
      }
      if r.Ok? {
        var record := Handlers.InitialState(principal, yieldMint, underlyingMint, underlyingVault, checks.value, fixedApy);
        r := Step(Handlers.WriteState(env, Snapshot(), tok.key, record));
      }
      if r.Err? {
        Commit(before);
      }
    }

    /** `process_initialize_mints`. */
    method InitializeMints(env: Env, a: seq<AccountInfo>, underlyingMint: Pubkey, expiry: Term)
      returns (r: Result<(), ProgramError>)
      modifies this
      ensures Settled(old(Snapshot()), r, Snapshot(), Handlers.InitializeMints(env, old(Snapshot()), a, underlyingMint, expiry))
    {
      var before := Snapshot();
      var checks := Handlers.InitializeMintsChecks(env, before, a, underlyingMint, expiry);
      if checks.Err? {
        return Err(checks.error);
      }
      var tok, principalMint, yieldMint, tokenProgram := a[0], a[3], a[4], a[5];
      r := Step(InitializeMint(env, Snapshot(), tokenProgram.key, principalMint.key, tok.key, 6));
      if r.Ok? {
        r := Step(InitializeMint(env, Snapshot(), tokenProgram.key, yieldMint.key, tok.key, 6));
      }
      if r.Err? {
        Commit(before);
      }
    }

    /** `process_initialize_tokenizer_and_mints`. */
    method InitializeTokenizerAndMints(env: Env, a: seq<AccountInfo>, underlyingVault: Pubkey, underlyingMint: Pubkey,
                                       principal: Pubkey, yieldMint: Pubkey, expiry: Term, fixedApy: u64)
      returns (r: Result<(), ProgramError>)
      modifies this
      ensures Settled(old(Snapshot()), r, Snapshot(),
                      Handlers.InitializeTokenizerAndMints(env, old(Snapshot()), a, underlyingVault, underlyingMint,
                                                           principal, yieldMint, expiry, fixedApy))
    {
      if |a| < 9 {
        return Err(NotEnoughAccountKeys);
      }
      var before := Snapshot();
      var tokenizerAccounts := [a[0], a[1], a[2], a[6], a[7], a[8]];
      var mintAccounts := [a[0], a[3], a[4], a[5], a[6]];
      r := InitializeTokenizer(env, tokenizerAccounts, principal, yieldMint, underlyingMint, underlyingVault, expiry, fixedApy);
      if r.Ok? {
        r := InitializeMints(env, mintAccounts, underlyingMint, expiry);
      }
      if r.Err? {
        Commit(before);
      }
    }

    /** `process_deposit_underlying`. */
    method DepositUnderlying(env: Env, a: seq<AccountInfo>, amount: u64) returns (r: Result<(), ProgramError>)
      modifies this
      ensures Settled(old(Snapshot()), r, Snapshot(), Handlers.DepositUnderlying(env, old(Snapshot()), a, amount))
    {
      var checks := Handlers.DepositChecks(env, Snapshot(), a);
      if checks.Err? {
        return Err(checks.error);
      }
      r := Step(Transfer(env, Snapshot(), a[4].key, a[3].key, a[1].key, a[2].key, a[2].isSigner, amount));
    }

    /** `process_tokenize_principal` and `process_tokenize_yield`. */
    method Tokenize(env: Env, a: seq<AccountInfo>, side: Handlers.Side, amount: u64) returns (r: Result<(), ProgramError>)
      modifies this
      ensures Settled(old(Snapshot()), r, Snapshot(), Handlers.Tokenize(env, old(Snapshot()), a, side, amount))
    {
      var before := Snapshot();
      var checks := Handlers.TokenizeChecks(env, before, a, side);
      if checks.Err? {
        return Err(checks.error);
      }
      var tok, mintAccount, user, userToken, tokenProgram := a[0], a[1], a[2], a[3], a[4];
      var mint := Handlers.SideMint(checks.value, side);
      r := Step(Handlers.EnsureTokenAccount(env, Snapshot(), Handlers.Nth(a, 5), user, userToken.key, mint, tokenProgram.key));
      if r.Ok? {
        r := Step(MintTo(env, Snapshot(), tokenProgram.key, mintAccount.key, userToken.key, tok.key, true, amount));
      }
      if r.Err? {
        Commit(before);
      }
    }

    /** `process_deposit_and_tokenize`. */
    method DepositAndTokenize(env: Env, a: seq<AccountInfo>, amount: u64) returns (r: Result<(), ProgramError>)
      modifies this
      ensures Settled(old(Snapshot()), r, Snapshot(), Handlers.DepositAndTokenize(env, old(Snapshot()), a, amount))
    {
      if |a| < 9 {
        return Err(NotEnoughAccountKeys);
      }
      var before := Snapshot();
      r := DepositUnderlying(env, [a[0], a[1], a[4], a[5], a[8]], amount);
      if r.Ok? {
        r := Tokenize(env, [a[0], a[2], a[4], a[6], a[8]], Handlers.PrincipalSide, amount);
      }
      if r.Ok? {
        r := Tokenize(env, [a[0], a[3], a[4], a[7], a[8]], Handlers.YieldSide, amount);
      }
      if r.Err? {
        Commit(before);
      }
    }

    /** The calls shared by principal redemption and yield claims. */
    method Payout(env: Env, system: Option<AccountInfo>, tok: Pubkey, vault: Pubkey, mintAccount: Pubkey,
                  user: AccountInfo, userUnderlying: Pubkey, userToken: Pubkey, underlyingMint: Pubkey,
                  tokenProgram: Pubkey, amount: u64) returns (r: Result<(), ProgramError>)
      modifies this
      ensures Settled(old(Snapshot()), r, Snapshot(),
                      Handlers.Payout(env, old(Snapshot()), system, tok, vault, mintAccount, user, userUnderlying,
                                      userToken, underlyingMint, tokenProgram, amount))
    {
      var before := Snapshot();
      r := Step(Handlers.EnsureTokenAccount(env, Snapshot(), system, user, userUnderlying, underlyingMint, tokenProgram));
      if r.Ok? {
        r := Step(Transfer(env, Snapshot(), tokenProgram, vault, userToken, tok, true, amount));
      }
      if r.Ok? {
        r := Step(Burn(env, Snapshot(), tokenProgram, userToken, mintAccount, user.key, user.isSigner, amount));
      }
      if r.Err? {
        Commit(before);
      }
    }

    /** `process_redeem_principal`. */
    method RedeemPrincipal(env: Env, a: seq<AccountInfo>, mode: Handlers.RedemptionMode, amount: u64)
      returns (r: Result<(), ProgramError>)
      modifies this
      ensures Settled(old(Snapshot()), r, Snapshot(), Handlers.RedeemPrincipal(env, old(Snapshot()), a, mode, amount))
    {
      var checks := Handlers.RedeemChecks(env, Snapshot(), a, mode);
      if checks.Err? {
        return Err(checks.error);
      }
      r := Payout(env, Some(a[8]), a[0].key, a[1].key, a[3].key, a[4], a[5].key, a[6].key,
                  checks.value.underlyingMint, a[7].key, amount);
    }

    /** `process_claim_yield`. */
    method ClaimYield(env: Env, a: seq<AccountInfo>, amount: u64) returns (r: Result<(), ProgramError>)
      modifies this
      ensures Settled(old(Snapshot()), r, Snapshot(), Handlers.ClaimYield(env, old(Snapshot()), a, amount))
    {
      var checks := Handlers.ClaimChecks(env, Snapshot(), a);
      if checks.Err? {
        return Err(checks.error);
      }
      r := Payout(env, Handlers.Nth(a, 8), a[0].key, a[1].key, a[3].key, a[4], a[5].key, a[6].key,
                  checks.value.underlyingMint, a[7].key, amount);
    }

    /** `process_redeem_principal_and_yield`. */
    method RedeemPrincipalAndYield(env: Env, a: seq<AccountInfo>, amount: u64) returns (r: Result<(), ProgramError>)
      modifies this
      ensures Settled(old(Snapshot()), r, Snapshot(), Handlers.RedeemPrincipalAndYield(env, old(Snapshot()), a, amount))
    {
      if |a| < 10 {
        return Err(NotEnoughAccountKeys);
      }
      var before := Snapshot();
      var redeemAccounts := [a[0], a[1], a[2], a[3], a[5], a[7], a[9]];
      var claimAccounts := [a[0], a[1], a[2], a[4], a[5], a[6], a[8], a[9]];
      r := RedeemPrincipal(env, redeemAccounts, Handlers.PrincipalYield, amount);
      // The claim's calls, taken as one step on the ledger the redemption left; a failed
      // redemption passes its error on.
      var claim := if r.Ok? then Handlers.ClaimYield(env, Snapshot(), claimAccounts, amount) else Err(r.error);
      r := Step(claim);
      if r.Err? {
        Commit(before);
      }
    }

    /** `process_terminate_lysergic_tokenizer`. */
    method TerminateTokenizer(env: Env, a: seq<AccountInfo>) returns (r: Result<(), ProgramError>)
      modifies this
      ensures Settled(old(Snapshot()), r, Snapshot(), Handlers.TerminateTokenizer(env, old(Snapshot()), a))
    {
      if |a| < 5 {
        return Err(NotEnoughAccountKeys);
      }
      var before := Snapshot();
      var tok, auth, vault, tokenProgram := a[0], a[1], a[2], a[3];
      var record := Handlers.ReadState(before, tok.key);
      if record.Err? {
        return Err(record.error);
      }
      if record.value.expiryDate >= env.now {
        return Err(ToProgramError(ExpiryDateNotElapsed));
      }
      r := Step(CloseAccount(env, Snapshot(), tokenProgram.key, vault.key, auth.key, tok.key, true));
      if r.Ok? {
        r := Step(SystemTransfer(env, Snapshot(), tok.key, true, auth.key, Lamports(Snapshot(), tok.key)));
      }
      if r.Ok? {
        Commit(SetAccount(Snapshot(), tok.key, Account(env.systemProgramId, Lamports(Snapshot(), tok.key), [])));
      } else {
        Commit(before);
      }
    }

    /** `process_terminate_mints`. */
    method TerminateMints(env: Env, a: seq<AccountInfo>) returns (r: Result<(), ProgramError>)
      modifies this
      ensures Settled(old(Snapshot()), r, Snapshot(), Handlers.TerminateMints(env, old(Snapshot()), a))
    {
      if |a| < 6 {
        return Err(NotEnoughAccountKeys);
      }
      var before := Snapshot();
      var tok, auth, principalMint, yieldMint, tokenProgram := a[0], a[1], a[2], a[3], a[4];
      var record := Handlers.ReadState(before, tok.key);
      if record.Err? {
        return Err(record.error);
      }
      if record.value.expiryDate >= env.now {
        return Err(ToProgramError(ExpiryDateNotElapsed));
      }
      r := Step(CloseAccount(env, Snapshot(), tokenProgram.key, principalMint.key, auth.key, tok.key, true));
      if r.Ok? {
        r := Step(CloseAccount(env, Snapshot(), tokenProgram.key, yieldMint.key, auth.key, tok.key, true));
      }
      if r.Ok? {
        r := Step(SystemTransfer(env, Snapshot(), tok.key, true, auth.key, 0));
      }
      if r.Err? {
        Commit(before);
      }
    }

    /** `process_terminate`. */
    method Terminate(env: Env, a: seq<AccountInfo>) returns (r: Result<(), ProgramError>)
      modifies this
      ensures Settled(old(Snapshot()), r, Snapshot(), Handlers.Terminate(env, old(Snapshot()), a))
    {
      if |a| < 7 {
        return Err(NotEnoughAccountKeys);
      }
      var before := Snapshot();
      var tokenizerAccounts := [a[0], a[1], a[2], a[5], a[6]];
      var mintAccounts := [a[0], a[1], a[3], a[4], a[5], a[6]];
      r := TerminateMints(env, tokenizerAccounts);
      // The position's termination, taken as one step on the ledger the mints step left; a
      // failed mints step passes its error on.
      var termination := if r.Ok? then Handlers.TerminateTokenizer(env, Snapshot(), mintAccounts) else Err(r.error);
      r := Step(termination);
      if r.Err? {
        Commit(before);
      }
    }

    /** The handler a decoded instruction selects. */
    method Dispatch(env: Env, a: seq<AccountInfo>, c: Commands.Command) returns (r: Result<(), ProgramError>)
      modifies this
      ensures Settled(old(Snapshot()), r, Snapshot(), Handlers.Dispatch(env, old(Snapshot()), a, c))
    {
      ghost var w := Snapshot();
      match c {
        case InitializeLysergicTokenizer(v, m, p, y, e, apy) =>
          assert Handlers.Dispatch(env, w, a, c) == Handlers.InitializeTokenizer(env, w, a, v, m, p, y, e, apy);
          r := InitializeTokenizer(env, a, v, m, p, y, e, apy);
        case InitializeMints(m, e) =>
          assert Handlers.Dispatch(env, w, a, c) == Handlers.InitializeMints(env, w, a, m, e);
          r := InitializeMints(env, a, m, e);
        case InitializeTokenizerAndMints(v, m, p, y, e, apy) =>
          assert Handlers.Dispatch(env, w, a, c) == Handlers.InitializeTokenizerAndMints(env, w, a, v, m, p, y, e, apy);
          r := InitializeTokenizerAndMints(env, a, v, m, p, y, e, apy);
        case DepositUnderlying(n) =>
          assert Handlers.Dispatch(env, w, a, c) == Handlers.DepositUnderlying(env, w, a, n);
          r := DepositUnderlying(env, a, n);
        case TokenizePrincipal(n) =>
          assert Handlers.Dispatch(env, w, a, c) == Handlers.Tokenize(env, w, a, Handlers.PrincipalSide, n);
          r := Tokenize(env, a, Handlers.PrincipalSide, n);
        case TokenizeYield(n) =>
          assert Handlers.Dispatch(env, w, a, c) == Handlers.Tokenize(env, w, a, Handlers.YieldSide, n);
          r := Tokenize(env, a, Handlers.YieldSide, n);
        case DepositAndTokenize(n) =>
          assert Handlers.Dispatch(env, w, a, c) == Handlers.DepositAndTokenize(env, w, a, n);
          r := DepositAndTokenize(env, a, n);
        case RedeemPrincipalAndYield(n) =>
          assert Handlers.Dispatch(env, w, a, c) == Handlers.RedeemPrincipalAndYield(env, w, a, n);
          r := RedeemPrincipalAndYield(env, a, n);
        case RedeemMaturePrincipal(n) =>
          assert Handlers.Dispatch(env, w, a, c) == Handlers.RedeemPrincipal(env, w, a, Handlers.Mature, n);
          r := RedeemPrincipal(env, a, Handlers.Mature, n);
        case ClaimYield(n) =>
          assert Handlers.Dispatch(env, w, a, c) == Handlers.ClaimYield(env, w, a, n);
          r := ClaimYield(env, a, n);
        case Terminate =>
          assert Handlers.Dispatch(env, w, a, c) == Handlers.Terminate(env, w, a);
          r := Terminate(env, a);
        case TerminateLysergicTokenizer =>
          assert Handlers.Dispatch(env, w, a, c) == Handlers.TerminateTokenizer(env, w, a);
          r := TerminateTokenizer(env, a);
        case TerminateMints =>
          assert Handlers.Dispatch(env, w, a, c) == Handlers.TerminateMints(env, w, a);
          r := TerminateMints(env, a);
      }
    }

    /** `process`: the entry point of every instruction. */
    method Process(env: Env, programId: Pubkey, a: seq<AccountInfo>, data: seq<byte>) returns (r: Result<(), ProgramError>)
      modifies this
      ensures Settled(old(Snapshot()), r, Snapshot(), Handlers.Process(env, old(Snapshot()), programId, a, data))
    {
      if programId != env.programId {
        return Err(IncorrectProgramId);
      }
      var decoded := Commands.Decode(data);
      if decoded.None? {
        return Err(InvalidInstructionData);
      }
      r := Dispatch(env, a, decoded.value);
    }
  }
}
