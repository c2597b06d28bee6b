/**
 * What the handlers guarantee, stated over the ledger before and after a successful
 * instruction: which balances, supplies and records change and by how much, when the
 * instruction is refused, and how bytes built by a client reach a handler.
 */
module HandlerProperties {
  import opened Common
  import opened Errors
  import opened State
  import opened Expiry
  import opened Ledger
  import opened Handlers
  import Commands
  import Instruction

  /** A ledger that differs only in balances and supplies keeps every account's data, owner and lamports. */
  lemma KeepsAccounts(env: Env, w: World, w': World, k: Pubkey)
    requires BalancesOnlyDiffer(w, w')
    ensures Data(w', k) == Data(w, k) && Owner(env, w', k) == Owner(env, w, k)
    ensures Lamports(w', k) == Lamports(w, k) && ReadState(w', k) == ReadState(w, k)
  {
  }

  /** A key whose data holds a position record is neither a token account nor a mint. */
  lemma RecordIsPlainAccount(w: World, k: Pubkey)
    requires ReadState(w, k).Ok?
    ensures k !in w.tokens && k !in w.mints && k in w.accounts
  {
  }

  // ---------------------------------------------------------------------------------------
  // Initialization.

  /** Writing a record into an account sized for it makes the account read back that record. */
  lemma {:induction false} WriteStateReadBack(env: Env, w: World, k: Pubkey, s: TokenizerState)
    requires k !in w.tokens && k !in w.mints && |Data(w, k)| == STATE_SIZE
    ensures WriteState(env, w, k, s).Ok?
    ensures var w' := WriteState(env, w, k, s).value;
            ReadState(w', k) == Ok(s) && Owner(env, w', k) == Owner(env, w, k) && Lamports(w', k) == Lamports(w, k)
  {
    DeserializeSerialize(s);
    assert Serialize(s) + Data(w, k)[STATE_SIZE..] == Serialize(s);
  }

  /**
   * The two calls before the record is written: the position account is created owned by
   * the program with room for the record and the rent minimum, and the vault key's associated
   * account is created beside it.
   */
  lemma {:induction false} InitializeCreatesAccounts(env: Env, w: World, a: seq<AccountInfo>, underlyingMint: Pubkey, w2: World)
    requires |a| >= 6
    requires var lamports := RequiredLamports(env.rentMinimum, Lamports(w, a[0].key));
             CreateAccount(env, w, a[1].key, a[1].isSigner, a[0].key, a[0].isSigner, lamports, STATE_SIZE, env.programId).Ok?
    requires var lamports := RequiredLamports(env.rentMinimum, Lamports(w, a[0].key));
             var w1 := CreateAccount(env, w, a[1].key, a[1].isSigner, a[0].key, a[0].isSigner, lamports, STATE_SIZE, env.programId).value;
             CreateAssociatedAccount(env, w1, a[1].key, a[1].isSigner, a[2].key, underlyingMint, a[4].key) == Ok(w2)
    ensures a[0].key !in w2.tokens && a[0].key !in w2.mints && |Data(w2, a[0].key)| == STATE_SIZE
    ensures Owner(env, w2, a[0].key) == env.programId && Lamports(w2, a[0].key) == Max(env.rentMinimum, 1)
    ensures w2.mints == w.mints
    ensures w2.tokens == w.tokens[env.assoc(a[2].key, underlyingMint) := TokenAccount(underlyingMint, a[2].key, 0)]
  {
    var tok, auth := a[0], a[1];
    var lamports := RequiredLamports(env.rentMinimum, Lamports(w, tok.key));
    var w1 := CreateAccount(env, w, auth.key, auth.isSigner, tok.key, tok.isSigner, lamports, STATE_SIZE, env.programId).value;
    assert Lamports(w, tok.key) == 0;
    assert auth.key != tok.key;
    assert InUse(env, w1, tok.key);
  }

  /**
   * A successful initialization leaves the position account owned by the program, funded to
   * the rent minimum and holding the record built from the arguments; the only token account
   * it creates is the associated account of the vault key, and no mint changes.
   */
  lemma {:induction false} InitializeWritesRecord(env: Env, w: World, a: seq<AccountInfo>, principal: Pubkey,
                                                  yieldMint: Pubkey, underlyingMint: Pubkey, underlyingVault: Pubkey,
                                                  expiry: Term, fixedApy: u64)
    requires InitializeTokenizer(env, w, a, principal, yieldMint, underlyingMint, underlyingVault, expiry, fixedApy).Ok?
    ensures var w' := InitializeTokenizer(env, w, a, principal, yieldMint, underlyingMint, underlyingVault, expiry, fixedApy).value;
            var date := InitializeChecks(env, w, a, principal, yieldMint, underlyingMint, expiry).value;
            && Owner(env, w', a[0].key) == env.programId
            && ReadState(w', a[0].key) == Ok(InitialState(principal, yieldMint, underlyingMint, underlyingVault, date, fixedApy))
            && Lamports(w', a[0].key) == Max(env.rentMinimum, 1)
            && w'.mints == w.mints
            && w'.tokens == w.tokens[env.assoc(a[2].key, underlyingMint) := TokenAccount(underlyingMint, a[2].key, 0)]
  {
    var date := InitializeChecks(env, w, a, principal, yieldMint, underlyingMint, expiry).value;
    var lamports := RequiredLamports(env.rentMinimum, Lamports(w, a[0].key));
    var w1 := CreateAccount(env, w, a[1].key, a[1].isSigner, a[0].key, a[0].isSigner, lamports, STATE_SIZE, env.programId).value;
    var w2 := CreateAssociatedAccount(env, w1, a[1].key, a[1].isSigner, a[2].key, underlyingMint, a[4].key).value;
    InitializeCreatesAccounts(env, w, a, underlyingMint, w2);
    var s := InitialState(principal, yieldMint, underlyingMint, underlyingVault, date, fixedApy);
    WriteStateReadBack(env, w2, a[0].key, s);
  }

  /**
   * A position is initialized at most once: after a successful initialization, any further
   * initialization naming the same position account fails, whatever its other accounts and
   * arguments.
   */
  lemma {:induction false} InitializeOnlyOnce(env: Env, w: World, a: seq<AccountInfo>, principal: Pubkey,
                                              yieldMint: Pubkey, underlyingMint: Pubkey, underlyingVault: Pubkey,
                                              expiry: Term, fixedApy: u64,
                                              env2: Env, a2: seq<AccountInfo>, principal2: Pubkey, yieldMint2: Pubkey,
                                              underlyingMint2: Pubkey, underlyingVault2: Pubkey, expiry2: Term, fixedApy2: u64)
    requires InitializeTokenizer(env, w, a, principal, yieldMint, underlyingMint, underlyingVault, expiry, fixedApy).Ok?
    requires env2.programId == env.programId && |a2| >= 1 && a2[0].key == a[0].key
    ensures var w' := InitializeTokenizer(env, w, a, principal, yieldMint, underlyingMint, underlyingVault, expiry, fixedApy).value;
            InitializeTokenizer(env2, w', a2, principal2, yieldMint2, underlyingMint2, underlyingVault2, expiry2, fixedApy2).Err?
  {
    var w' := InitializeTokenizer(env, w, a, principal, yieldMint, underlyingMint, underlyingVault, expiry, fixedApy).value;
    InitializeWritesRecord(env, w, a, principal, yieldMint, underlyingMint, underlyingVault, expiry, fixedApy);
    RecordIsPlainAccount(w', a[0].key);
    assert Owner(env2, w', a2[0].key) == env.programId;
  }

  /**
   * The position key is a derived address, which no private key signs for, and the position
   * is created with a plain `invoke`, so the runtime never marks it as signing. Without that
   * signature initialization always fails: after the checks pass, an unfunded position is
   * refused for the missing signature (a funded one is refused as already in use).
   */
  lemma InitializeNeedsPositionSignature(env: Env, w: World, a: seq<AccountInfo>, principal: Pubkey,
                                         yieldMint: Pubkey, underlyingMint: Pubkey, underlyingVault: Pubkey,
                                         expiry: Term, fixedApy: u64)
    requires |a| >= 1 && !a[0].isSigner
    ensures InitializeTokenizer(env, w, a, principal, yieldMint, underlyingMint, underlyingVault, expiry, fixedApy).Err?
    ensures InitializeChecks(env, w, a, principal, yieldMint, underlyingMint, expiry).Ok? &&
            Lamports(w, a[0].key) == 0 && a[0].key !in w.tokens && a[0].key !in w.mints ==>
              InitializeTokenizer(env, w, a, principal, yieldMint, underlyingMint, underlyingVault, expiry, fixedApy) ==
                Err(MissingRequiredSignature)
  {
  }

  /**
   * The first failing initialize check decides the error, whatever the later accounts hold:
   * the position key, the signature, the vault key, the mint account, the principal and yield
   * mint keys, the token program and the system program, in that order; an already initialized
   * position is refused only once every one of them passes. The expiry date is always
   * computable, so InvalidExpiryDate is never the answer.
   */
  lemma InitializeCheckOrder(env: Env, w: World, a: seq<AccountInfo>, principal: Pubkey, yieldMint: Pubkey,
                             underlyingMint: Pubkey, expiry: Term)
    requires |a| >= 6
    ensures var r, d := InitializeChecks(env, w, a, principal, yieldMint, underlyingMint, expiry),
                        ToExpiryDate(expiry, env.now).value;
            var s1 := a[0].key == Derivation.GetTokenizerAddress(env.find, a[1].key, underlyingMint, d);
            var s2 := s1 && a[1].isSigner;
            var s3 := s2 && a[2].key == env.assoc(a[0].key, underlyingMint);
            var s4 := s3 && a[3].key == underlyingMint;
            var s5 := s4 && principal == Derivation.GetPrincipalMintAddress(env.find, a[0].key, underlyingMint);
            var s6 := s5 && yieldMint == Derivation.GetYieldMintAddress(env.find, a[0].key, underlyingMint);
            var s7 := s6 && a[4].key == env.tokenProgramId;
            var s8 := s7 && a[5].key == env.systemProgramId;
            && r != Err(ToProgramError(InvalidExpiryDate))
            && (!s1 ==> r == Err(ToProgramError(IncorrectTokenizerAddress)))
            && (s1 && !s2 ==> r == Err(MissingRequiredSignature))
            && (s2 && !s3 ==> r == Err(ToProgramError(IncorrectVaultAddress)))
            && (s3 && !s4 ==> r == Err(ToProgramError(IncorrectUnderlyingMintAddress)))
            && (s4 && !s5 ==> r == Err(ToProgramError(IncorrectPrincipalMintAddress)))
            && (s5 && !s6 ==> r == Err(ToProgramError(IncorrectYieldMintAddress)))
            && (s6 && !s8 ==> r == Err(IncorrectProgramId))
            && (s8 && Owner(env, w, a[0].key) == env.programId ==> r == Err(ToProgramError(TokenizerAlreadyInitialized)))
            && (s8 && Owner(env, w, a[0].key) != env.programId ==> r == Ok(d))
  {
  }

  /**
   * The mints step initializes exactly the two named mint accounts, which must be distinct,
   * with the position as their authority, no supply and six decimals; nothing else changes.
   */
  lemma {:induction false} InitializeMintsCreatesBoth(env: Env, w: World, a: seq<AccountInfo>, underlyingMint: Pubkey, expiry: Term)
    requires InitializeMints(env, w, a, underlyingMint, expiry).Ok?
    ensures var w' := InitializeMints(env, w, a, underlyingMint, expiry).value;
            && a[3].key != a[4].key
            && a[3].key in w.mints && !w.mints[a[3].key].initialized
            && a[4].key in w.mints && !w.mints[a[4].key].initialized
            && w'.mints == w.mints[a[3].key := Mint(true, a[0].key, 0, 6)][a[4].key := Mint(true, a[0].key, 0, 6)]
            && w'.accounts == w.accounts && w'.tokens == w.tokens
  {
    var w1 := InitializeMint(env, w, a[5].key, a[3].key, a[0].key, 6).value;
    assert w1.mints[a[3].key].initialized;
  }

  /**
   * The combined initialization never succeeds: the mints step receives five accounts where
   * it needs six, so once the position step has succeeded the instruction fails for want of
   * accounts.
   */
  lemma InitializeTokenizerAndMintsFails(env: Env, w: World, a: seq<AccountInfo>, underlyingVault: Pubkey,
                                         underlyingMint: Pubkey, principal: Pubkey, yieldMint: Pubkey,
                                         expiry: Term, fixedApy: u64)
    ensures InitializeTokenizerAndMints(env, w, a, underlyingVault, underlyingMint, principal, yieldMint, expiry, fixedApy).Err?
    ensures |a| >= 9 &&
            InitializeTokenizer(env, w, [a[0], a[1], a[2], a[6], a[7], a[8]], principal, yieldMint, underlyingMint,
                                underlyingVault, expiry, fixedApy).Ok? ==>
            InitializeTokenizerAndMints(env, w, a, underlyingVault, underlyingMint, principal, yieldMint, expiry, fixedApy)
              == Err(NotEnoughAccountKeys)
  {
  }

  // ---------------------------------------------------------------------------------------
  // Dispatch.

  /** Bytes encoding a processor instruction reach the handler of that instruction. */
  lemma {:induction false} ProcessEncoded(env: Env, w: World, a: seq<AccountInfo>, c: Commands.Command)
    ensures Process(env, w, env.programId, a, Commands.Encode(c)) == Dispatch(env, w, a, c)
  {
    Commands.DecodeEncode(c);
  }

  /**
   * The initialize instruction's keys land in the record shifted: the field encoded first
   * (`underlying_vault`) is stored as the principal mint, the second as the yield mint, the
   * third is checked against the underlying-mint account and stored as the underlying mint,
   * and the fourth is stored as the vault.
   */
  lemma {:induction false} InitializeDispatchSwapsKeys(env: Env, w: World, a: seq<AccountInfo>, v: Pubkey, m: Pubkey,
                                                       p: Pubkey, y: Pubkey, e: Term, apy: u64)
    requires Process(env, w, env.programId, a, Commands.Encode(Commands.InitializeLysergicTokenizer(v, m, p, y, e, apy))).Ok?
    ensures var w' := Process(env, w, env.programId, a, Commands.Encode(Commands.InitializeLysergicTokenizer(v, m, p, y, e, apy))).value;
            && |a| >= 6 && a[3].key == p && a[2].key == env.assoc(a[0].key, p)
            && ReadState(w', a[0].key).Ok?
            && ReadState(w', a[0].key).value.principalTokenMint == v
            && ReadState(w', a[0].key).value.yieldTokenMint == m
            && ReadState(w', a[0].key).value.underlyingMint == p
            && ReadState(w', a[0].key).value.underlyingVault == y
            && ReadState(w', a[0].key).value.fixedApy == apy
  {
    ProcessEncoded(env, w, a, Commands.InitializeLysergicTokenizer(v, m, p, y, e, apy));
    InitializeWritesRecord(env, w, a, v, m, p, y, e, apy);
  }

  /**
   * What the processor does with the set-up, deposit and tokenize instructions a client
   * encodes: the index and layout agree, so each runs the processor's handler of that index.
   */
  lemma {:induction false} ClientInstructionsAsProcessed(env: Env, w: World, a: seq<AccountInfo>, i: Instruction.TokenizerInstruction)
    ensures var r := Process(env, w, env.programId, a, Instruction.Encode(i));
            && (i.InitializeMints? ==> r == InitializeMints(env, w, a, i.underlyingMint, i.expiry))
            && (i.DepositUnderlying? ==> r == DepositUnderlying(env, w, a, i.amount))
            && (i.TokenizePrincipal? ==> r == Tokenize(env, w, a, PrincipalSide, i.amount))
            && (i.TokenizeYield? ==> r == Tokenize(env, w, a, YieldSide, i.amount))
  {
    Commands.ClientEncodingAsDecoded(i);
  }

  /**
   * What the processor does with the client's combined, redeem and burn instructions: the
   * first two run the handler of the same index, the client's principal-only redemption runs
   * the mature redemption, and its burn of principal tokens runs a yield claim.
   */
  lemma {:induction false} ClientRedeemInstructionsAsProcessed(env: Env, w: World, a: seq<AccountInfo>, i: Instruction.TokenizerInstruction)
    ensures var r := Process(env, w, env.programId, a, Instruction.Encode(i));
            && (i.DepositAndTokenize? ==> r == DepositAndTokenize(env, w, a, i.amount))
            && (i.RedeemPrincipalAndYield? ==> r == RedeemPrincipalAndYield(env, w, a, i.amount))
            && (i.RedeemPrincipalOnly? ==> r == RedeemPrincipal(env, w, a, Mature, i.principalAmount))
            && (i.BurnPrincipalToken? ==> r == ClaimYield(env, w, a, i.amount))
  {
    Commands.ClientEncodingAsDecoded(i);
  }

  /** The client's initialize variants, its yield claim and its yield burn are refused as invalid data. */
  lemma {:induction false} ClientInstructionsRefused(env: Env, w: World, a: seq<AccountInfo>, i: Instruction.TokenizerInstruction)
    requires i.InitializeLysergicTokenizer? || i.InitializeTokenizerAndMints? || i.ClaimYield? || i.BurnYieldToken?
    ensures Process(env, w, env.programId, a, Instruction.Encode(i)) == Err(InvalidInstructionData)
  {
    Commands.ClientEncodingAsDecoded(i);
  }

  // ---------------------------------------------------------------------------------------
  // Deposit and tokenization.

  /**
   * A deposit moves exactly `amount` from the signer's own account into the vault, which
   * holds the same mint; no other balance, no supply and no record changes.
   */
  lemma {:induction false} DepositMovesUnderlying(env: Env, w: World, a: seq<AccountInfo>, amount: u64)
    requires DepositUnderlying(env, w, a, amount).Ok?
    ensures var w' := DepositUnderlying(env, w, a, amount).value;
            && a[3].key in w.tokens && w.tokens[a[3].key].owner == a[2].key && a[2].isSigner
            && a[1].key in w.tokens && w.tokens[a[1].key].mint == w.tokens[a[3].key].mint
            && (a[1].key != a[3].key ==>
                  Balance(w', a[1].key) == Balance(w, a[1].key) + amount &&
                  Balance(w', a[3].key) == Balance(w, a[3].key) - amount)
            && (forall k :: k != a[1].key && k != a[3].key ==> Balance(w', k) == Balance(w, k))
            && (forall m :: Supply(w', m) == Supply(w, m))
            && BalancesOnlyDiffer(w, w')
  {
    TransferMovesAmount(env, w, a[4].key, a[3].key, a[1].key, a[2].key, a[2].isSigner, amount);
  }

  /** A deposit does not depend on the clock. */
  lemma DepositIgnoresClock(env: Env, w: World, a: seq<AccountInfo>, amount: u64, t: i64)
    ensures DepositUnderlying(env.(now := t), w, a, amount) == DepositUnderlying(env, w, a, amount)
  {
  }

  /** Creating a user's token account leaves every position record where it was. */
  lemma {:induction false} EnsureTokenAccountKeepsRecord(env: Env, w: World, system: Option<AccountInfo>, user: AccountInfo,
                                                         account: Pubkey, mint: Pubkey, tokenProgram: Pubkey, k: Pubkey)
    requires EnsureTokenAccount(env, w, system, user, account, mint, tokenProgram).Ok?
    requires ReadState(w, k).Ok?
    ensures var w' := EnsureTokenAccount(env, w, system, user, account, mint, tokenProgram).value;
            ReadState(w', k) == ReadState(w, k) && Owner(env, w', k) == Owner(env, w, k)
  {
    var w' := EnsureTokenAccount(env, w, system, user, account, mint, tokenProgram).value;
    if w' != w {
      RecordIsPlainAccount(w, k);
      assert InUse(env, w, k);
      assert env.assoc(account, mint) != k;
      assert Data(w', k) == Data(w, k);
    }
  }

  /**
   * Tokenizing mints exactly `amount` of the side's token, whose mint authority is the
   * position, into the user's account for it: that mint's supply and that account's balance
   * rise by `amount`, and nothing else does. When the user's account was not yet a token
   * account, the call only succeeds if a sixth account was passed and the user's key is the
   * token program's.
   */
  lemma {:induction false} TokenizeMintsToUser(env: Env, w: World, a: seq<AccountInfo>, side: Side, amount: u64)
    requires Tokenize(env, w, a, side, amount).Ok?
    ensures var w' := Tokenize(env, w, a, side, amount).value;
            var s := TokenizeChecks(env, w, a, side).value;
            && a[1].key == SideMint(s, side) && a[1].key in w.mints && w.mints[a[1].key].authority == a[0].key
            && Supply(w', a[1].key) == Supply(w, a[1].key) + amount
            && Balance(w', a[3].key) == Balance(w, a[3].key) + amount
            && (forall k :: k != a[3].key ==> Balance(w', k) == Balance(w, k))
            && (forall m :: m != a[1].key ==> Supply(w', m) == Supply(w, m))
            && ReadState(w', a[0].key) == ReadState(w, a[0].key) && Owner(env, w', a[0].key) == Owner(env, w, a[0].key)
            && (Owner(env, w, a[3].key) != env.tokenProgramId ==> |a| >= 6 && a[2].key == env.tokenProgramId)
  {
    var s := TokenizeChecks(env, w, a, side).value;
    var w1 := EnsureTokenAccount(env, w, Nth(a, 5), a[2], a[3].key, SideMint(s, side), a[4].key).value;
    EnsureTokenAccountKeepsRecord(env, w, Nth(a, 5), a[2], a[3].key, SideMint(s, side), a[4].key, a[0].key);
    MintToRaisesBoth(env, w1, a[4].key, a[1].key, a[3].key, a[0].key, true, amount);
    KeepsAccounts(env, w1, Tokenize(env, w, a, side, amount).value, a[0].key);
  }

  /**
   * For an initialized position with a readable record, the expiry gate of tokenizing comes
   * before any account check: the checks answer ExpiryDateElapsed exactly when the expiry date
   * has passed, whichever side is minted, and so does the instruction once it has passed.
   */
  lemma TokenizeExpiryGate(env: Env, w: World, a: seq<AccountInfo>, side: Side, amount: u64)
    requires |a| >= 5 && Owner(env, w, a[0].key) == env.programId && ReadState(w, a[0].key).Ok?
    ensures TokenizeChecks(env, w, a, side) == Err(ToProgramError(ExpiryDateElapsed)) <==>
              ReadState(w, a[0].key).value.expiryDate < env.now
    ensures ReadState(w, a[0].key).value.expiryDate < env.now ==>
              Tokenize(env, w, a, side, amount) == Err(ToProgramError(ExpiryDateElapsed))
  {
  }

  /**
   * Dispatched initialize-and-mints succeeds only when the position checks pass on its first
   * six-account sub-list, with the keys in their declared roles (no swap in this variant).
   */
  lemma DispatchedInitializeAndMintsNeedsChecks(env: Env, w: World, a: seq<AccountInfo>, v: Pubkey, m: Pubkey,
                                                p: Pubkey, y: Pubkey, e: Term, apy: u64)
    ensures Dispatch(env, w, a, Commands.InitializeTokenizerAndMints(v, m, p, y, e, apy)).Ok? ==>
              |a| >= 9 && InitializeChecks(env, w, [a[0], a[1], a[2], a[6], a[7], a[8]], p, y, m, e).Ok?
  {
  }

  /** Dispatched deposit-and-tokenize succeeds only when the deposit checks pass on its deposit sub-list. */
  lemma DispatchedDepositAndTokenizeNeedsChecks(env: Env, w: World, a: seq<AccountInfo>, n: u64)
    ensures Dispatch(env, w, a, Commands.DepositAndTokenize(n)).Ok? ==>
              |a| >= 9 && DepositChecks(env, w, [a[0], a[1], a[4], a[5], a[8]]).Ok?
  {
  }

  /** Dispatched redeem-principal-and-yield succeeds only when the redemption checks pass on its sub-list. */
  lemma DispatchedRedeemPrincipalAndYieldNeedsChecks(env: Env, w: World, a: seq<AccountInfo>, n: u64)
    ensures Dispatch(env, w, a, Commands.RedeemPrincipalAndYield(n)).Ok? ==>
              |a| >= 10 && RedeemChecks(env, w, [a[0], a[1], a[2], a[3], a[5], a[7], a[9]], PrincipalYield).Ok?
  {
  }

  /** The three dispatched terminate variants succeed only on a readable record whose expiry date has passed. */
  lemma DispatchedTerminateNeedsExpiredRecord(env: Env, w: World, a: seq<AccountInfo>, c: Commands.Command)
    requires c.Terminate? || c.TerminateLysergicTokenizer? || c.TerminateMints?
    ensures Dispatch(env, w, a, c).Ok? ==>
              |a| >= 5 && ReadState(w, a[0].key).Ok? && ReadState(w, a[0].key).value.expiryDate < env.now
  {
  }

  /**
   * Deposit-and-tokenize stops at the first failing step and passes its error on: a failed
   * deposit is the answer; after a deposit, a failed principal tokenize is the answer; after
   * both, the yield tokenize on the ledger they left decides the outcome.
   */
  lemma DepositAndTokenizeStopsAtFirstError(env: Env, w: World, a: seq<AccountInfo>, amount: u64)
    ensures |a| >= 9 ==>
              var r := DepositAndTokenize(env, w, a, amount);
              var d := DepositUnderlying(env, w, [a[0], a[1], a[4], a[5], a[8]], amount);
              && (d.Err? ==> r == Err(d.error))
              && (d.Ok? ==>
                    var p := Tokenize(env, d.value, [a[0], a[2], a[4], a[6], a[8]], PrincipalSide, amount);
                    && (p.Err? ==> r == Err(p.error))
                    && (p.Ok? ==> r == Tokenize(env, p.value, [a[0], a[3], a[4], a[7], a[8]], YieldSide, amount)))
  {
  }

  /**
   * Tokens are only minted into an account the token program already holds, or into one whose
   * key is its own associated address: the account that would be created is the associated
   * account of the user's token-account key, not that key.
   */
  lemma {:induction false} TokenizeNeedsExistingAccount(env: Env, w: World, a: seq<AccountInfo>, side: Side, amount: u64)
    requires TokenizeChecks(env, w, a, side).Ok?
    requires a[3].key !in w.tokens
    requires env.assoc(a[3].key, SideMint(TokenizeChecks(env, w, a, side).value, side)) != a[3].key
    ensures Tokenize(env, w, a, side, amount).Err?
  {
    var s := TokenizeChecks(env, w, a, side).value;
    var e := EnsureTokenAccount(env, w, Nth(a, 5), a[2], a[3].key, SideMint(s, side), a[4].key);
    if e.Ok? {
      assert a[3].key !in e.value.tokens;
    }
  }

  /**
   * Deposit-and-tokenize, on distinct token accounts and mints: the vault gains `amount` from
   * the user's underlying account, and the principal and yield supplies and the user's
   * principal and yield balances each rise by `amount`; nothing else changes balance and the
   * record stays as it was.
   */
  lemma {:induction false} DepositAndTokenizeEffects(env: Env, w: World, a: seq<AccountInfo>, amount: u64)
    requires DepositAndTokenize(env, w, a, amount).Ok?
    requires a[1].key != a[5].key && a[1].key != a[6].key && a[1].key != a[7].key
    requires a[5].key != a[6].key && a[5].key != a[7].key && a[6].key != a[7].key && a[2].key != a[3].key
    ensures var w' := DepositAndTokenize(env, w, a, amount).value;
            && Balance(w', a[1].key) == Balance(w, a[1].key) + amount
            && Balance(w', a[5].key) == Balance(w, a[5].key) - amount
            && Balance(w', a[6].key) == Balance(w, a[6].key) + amount
            && Balance(w', a[7].key) == Balance(w, a[7].key) + amount
            && (forall k :: k != a[1].key && k != a[5].key && k != a[6].key && k != a[7].key ==> Balance(w', k) == Balance(w, k))
            && Supply(w', a[2].key) == Supply(w, a[2].key) + amount
            && Supply(w', a[3].key) == Supply(w, a[3].key) + amount
            && (forall m :: m != a[2].key && m != a[3].key ==> Supply(w', m) == Supply(w, m))
            && ReadState(w', a[0].key) == ReadState(w, a[0].key)
  {
    var depositAccounts := [a[0], a[1], a[4], a[5], a[8]];
    var principalAccounts := [a[0], a[2], a[4], a[6], a[8]];
    var yieldAccounts := [a[0], a[3], a[4], a[7], a[8]];
    DepositAndTokenizeSteps(env, w, a, amount);
    var w1 := DepositUnderlying(env, w, depositAccounts, amount).value;
    DepositMovesUnderlying(env, w, depositAccounts, amount);
    KeepsAccounts(env, w, w1, a[0].key);
    TokenizeBothSides(env, w1, a, amount);
  }

  /** Deposit-and-tokenize succeeds exactly when its three steps do, one after the other. */
  lemma {:induction false} DepositAndTokenizeSteps(env: Env, w: World, a: seq<AccountInfo>, amount: u64)
    requires DepositAndTokenize(env, w, a, amount).Ok?
    ensures |a| >= 9 && DepositUnderlying(env, w, [a[0], a[1], a[4], a[5], a[8]], amount).Ok?
    ensures var w1 := DepositUnderlying(env, w, [a[0], a[1], a[4], a[5], a[8]], amount).value;
            && Tokenize(env, w1, [a[0], a[2], a[4], a[6], a[8]], PrincipalSide, amount).Ok?
            && var w2 := Tokenize(env, w1, [a[0], a[2], a[4], a[6], a[8]], PrincipalSide, amount).value;
               Tokenize(env, w2, [a[0], a[3], a[4], a[7], a[8]], YieldSide, amount) == DepositAndTokenize(env, w, a, amount)
  {
  }

  /** The two tokenize steps of deposit-and-tokenize, on distinct accounts and mints. */
  lemma {:induction false} TokenizeBothSides(env: Env, w1: World, a: seq<AccountInfo>, amount: u64)
    requires |a| >= 9 && a[6].key != a[7].key && a[2].key != a[3].key
    requires Tokenize(env, w1, [a[0], a[2], a[4], a[6], a[8]], PrincipalSide, amount).Ok?
    requires var w2 := Tokenize(env, w1, [a[0], a[2], a[4], a[6], a[8]], PrincipalSide, amount).value;
             Tokenize(env, w2, [a[0], a[3], a[4], a[7], a[8]], YieldSide, amount).Ok?
    ensures var w2 := Tokenize(env, w1, [a[0], a[2], a[4], a[6], a[8]], PrincipalSide, amount).value;
            var w' := Tokenize(env, w2, [a[0], a[3], a[4], a[7], a[8]], YieldSide, amount).value;
            && Balance(w', a[6].key) == Balance(w1, a[6].key) + amount
            && Balance(w', a[7].key) == Balance(w1, a[7].key) + amount
            && (forall k :: k != a[6].key && k != a[7].key ==> Balance(w', k) == Balance(w1, k))
            && Supply(w', a[2].key) == Supply(w1, a[2].key) + amount
            && Supply(w', a[3].key) == Supply(w1, a[3].key) + amount
            && (forall m :: m != a[2].key && m != a[3].key ==> Supply(w', m) == Supply(w1, m))
            && ReadState(w', a[0].key) == ReadState(w1, a[0].key)
  {
    var principalAccounts := [a[0], a[2], a[4], a[6], a[8]];
    var yieldAccounts := [a[0], a[3], a[4], a[7], a[8]];
    var w2 := Tokenize(env, w1, principalAccounts, PrincipalSide, amount).value;
    TokenizeMintsToUser(env, w1, principalAccounts, PrincipalSide, amount);
    TokenizeMintsToUser(env, w2, yieldAccounts, YieldSide, amount);
  }

  // ---------------------------------------------------------------------------------------
  // Redemption and yield claims.

  /**
   * The payout moves `amount` from the vault, which the position owns, into the user's
   * position-token account and burns the same amount from it: the vault loses `amount`, the
   * user's position-token balance ends where it began, the token's supply falls by `amount`,
   * and the vault must hold the position token's mint. No existing account changes mint or owner.
   */
  lemma {:induction false} PayoutEffects(env: Env, w: World, system: Option<AccountInfo>, tok: Pubkey, vault: Pubkey,
                                         mintAccount: Pubkey, user: AccountInfo, userUnderlying: Pubkey, userToken: Pubkey,
                                         underlyingMint: Pubkey, tokenProgram: Pubkey, amount: u64)
    requires Payout(env, w, system, tok, vault, mintAccount, user, userUnderlying, userToken, underlyingMint, tokenProgram, amount).Ok?
    ensures var w' := Payout(env, w, system, tok, vault, mintAccount, user, userUnderlying, userToken, underlyingMint, tokenProgram, amount).value;
            && vault in w'.tokens && w'.tokens[vault].mint == mintAccount && w'.tokens[vault].owner == tok
            && userToken in w'.tokens && w'.tokens[userToken].owner == user.key && user.isSigner
            && (vault != userToken ==>
                  Balance(w', vault) == Balance(w, vault) - amount && Balance(w', userToken) == Balance(w, userToken))
            && (forall k :: k != vault && k != userToken ==> Balance(w', k) == Balance(w, k))
            && Supply(w', mintAccount) == Supply(w, mintAccount) - amount
            && (forall m :: m != mintAccount ==> Supply(w', m) == Supply(w, m))
            && (forall k :: k in w.tokens ==>
                  k in w'.tokens && w'.tokens[k].mint == w.tokens[k].mint && w'.tokens[k].owner == w.tokens[k].owner)
  {
    var w1 := EnsureTokenAccount(env, w, system, user, userUnderlying, underlyingMint, tokenProgram).value;
    TransferMovesAmount(env, w1, tokenProgram, vault, userToken, tok, true, amount);
    var w2 := Transfer(env, w1, tokenProgram, vault, userToken, tok, true, amount).value;
    BurnLowersBoth(env, w2, tokenProgram, userToken, mintAccount, user.key, user.isSigner, amount);
  }

  /**
   * A principal redemption pays out of the vault into the user's principal-token account and
   * burns it there: the vault must hold the principal mint (a vault that holds the underlying
   * mint makes every redemption fail), the user's underlying balance does not change, and the
   * principal supply falls by `amount`.
   */
  lemma {:induction false} RedeemPaysNoUnderlying(env: Env, w: World, a: seq<AccountInfo>, mode: RedemptionMode, amount: u64)
    requires RedeemPrincipal(env, w, a, mode, amount).Ok?
    ensures var w' := RedeemPrincipal(env, w, a, mode, amount).value;
            var s := RedeemChecks(env, w, a, mode).value;
            && (a[1].key in w.tokens ==> w.tokens[a[1].key].mint == s.principalTokenMint)
            && (a[1].key != a[6].key ==>
                  Balance(w', a[1].key) == Balance(w, a[1].key) - amount && Balance(w', a[6].key) == Balance(w, a[6].key))
            && (a[5].key != a[1].key && a[5].key != a[6].key ==> Balance(w', a[5].key) == Balance(w, a[5].key))
            && Supply(w', s.principalTokenMint) == Supply(w, s.principalTokenMint) - amount
  {
    var s := RedeemChecks(env, w, a, mode).value;
    PayoutEffects(env, w, Some(a[8]), a[0].key, a[1].key, a[3].key, a[4], a[5].key, a[6].key, s.underlyingMint, a[7].key, amount);
  }

  /**
   * Mature redemption differs from the principal-and-yield mode only in its gate, which comes
   * right after the record is read and before any account check: before the expiry date has
   * passed it is refused with ExpiryDateNotElapsed whatever the accounts are; afterwards it
   * gives exactly what the principal-and-yield mode gives, error or success.
   */
  lemma {:induction false} MatureRedemptionGate(env: Env, w: World, a: seq<AccountInfo>, amount: u64)
    requires |a| >= 9 && Owner(env, w, a[0].key) == env.programId && ReadState(w, a[0].key).Ok?
    ensures var s := ReadState(w, a[0].key).value;
            s.expiryDate >= env.now ==>
              && RedeemChecks(env, w, a, Mature) == Err(ToProgramError(ExpiryDateNotElapsed))
              && RedeemPrincipal(env, w, a, Mature, amount) == Err(ToProgramError(ExpiryDateNotElapsed))
    ensures var s := ReadState(w, a[0].key).value;
            s.expiryDate < env.now ==>
              && RedeemChecks(env, w, a, Mature) == RedeemChecks(env, w, a, PrincipalYield)
              && RedeemPrincipal(env, w, a, Mature, amount) == RedeemPrincipal(env, w, a, PrincipalYield, amount)
  {
  }

  /** Tokenizing and mature redemption of one position are never both open at the same moment. */
  lemma TokenizeAndMatureRedeemExclusive(env: Env, w: World, a: seq<AccountInfo>, b: seq<AccountInfo>, side: Side)
    requires |a| >= 1 && |b| >= 1 && a[0].key == b[0].key
    ensures !(TokenizeChecks(env, w, a, side).Ok? && RedeemChecks(env, w, b, Mature).Ok?)
  {
  }

  /**
   * A yield claim pays out of the vault into the user's yield-token account and burns it
   * there: the vault must hold the yield mint, the user's underlying balance does not change,
   * and the yield supply falls by `amount`.
   */
  lemma {:induction false} ClaimPaysNoUnderlying(env: Env, w: World, a: seq<AccountInfo>, amount: u64)
    requires ClaimYield(env, w, a, amount).Ok?
    ensures var w' := ClaimYield(env, w, a, amount).value;
            var s := ClaimChecks(env, w, a).value;
            && (a[1].key in w.tokens ==> w.tokens[a[1].key].mint == s.yieldTokenMint)
            && (a[1].key != a[6].key ==>
                  Balance(w', a[1].key) == Balance(w, a[1].key) - amount && Balance(w', a[6].key) == Balance(w, a[6].key))
            && (a[5].key != a[1].key && a[5].key != a[6].key ==> Balance(w', a[5].key) == Balance(w, a[5].key))
            && Supply(w', s.yieldTokenMint) == Supply(w, s.yieldTokenMint) - amount
  {
    var s := ClaimChecks(env, w, a).value;
    PayoutEffects(env, w, Nth(a, 8), a[0].key, a[1].key, a[3].key, a[4], a[5].key, a[6].key, s.underlyingMint, a[7].key, amount);
  }

  /** A yield claim does not depend on the clock: it is open before and after the expiry date. */
  lemma {:induction false} ClaimIgnoresClock(env: Env, w: World, a: seq<AccountInfo>, amount: u64, t: i64)
    ensures ClaimYield(env.(now := t), w, a, amount) == ClaimYield(env, w, a, amount)
  {
    var env' := env.(now := t);
    assert ClaimChecks(env', w, a) == ClaimChecks(env, w, a);
    var c := ClaimChecks(env, w, a);
    if c.Ok? {
      var s := c.value;
      PayoutIgnoresClock(env, w, Nth(a, 8), a[0].key, a[1].key, a[3].key, a[4], a[5].key, a[6].key, s.underlyingMint, a[7].key, amount, t);
    }
  }

  lemma {:induction false} PayoutIgnoresClock(env: Env, w: World, system: Option<AccountInfo>, tok: Pubkey, vault: Pubkey,
                                              mintAccount: Pubkey, user: AccountInfo, userUnderlying: Pubkey, userToken: Pubkey,
                                              underlyingMint: Pubkey, tokenProgram: Pubkey, amount: u64, t: i64)
    ensures Payout(env.(now := t), w, system, tok, vault, mintAccount, user, userUnderlying, userToken, underlyingMint, tokenProgram, amount)
         == Payout(env, w, system, tok, vault, mintAccount, user, userUnderlying, userToken, underlyingMint, tokenProgram, amount)
  {
    var env' := env.(now := t);
    assert EnsureTokenAccount(env', w, system, user, userUnderlying, underlyingMint, tokenProgram)
        == EnsureTokenAccount(env, w, system, user, userUnderlying, underlyingMint, tokenProgram);
  }

  /**
   * The combined redemption never succeeds: the redemption step receives seven accounts where
   * it needs nine.
   */
  lemma RedeemPrincipalAndYieldFails(env: Env, w: World, a: seq<AccountInfo>, amount: u64)
    ensures RedeemPrincipalAndYield(env, w, a, amount) == Err(NotEnoughAccountKeys)
  {
  }

  // ---------------------------------------------------------------------------------------
  // Termination.

  /**
   * Terminating a position never succeeds: the position account carries the record, and the
   * system program refuses to transfer lamports out of an account with data; once the vault is
   * closed the failure is `InvalidArgument`.
   */
  lemma {:induction false} TerminateTokenizerFails(env: Env, w: World, a: seq<AccountInfo>)
    ensures TerminateTokenizer(env, w, a).Err?
    ensures |a| >= 5 && ReadState(w, a[0].key).Ok? && ReadState(w, a[0].key).value.expiryDate < env.now &&
            CloseAccount(env, w, a[3].key, a[2].key, a[1].key, a[0].key, true).Ok? ==>
            TerminateTokenizer(env, w, a) == Err(InvalidArgument)
  {
    if |a| >= 5 && ReadState(w, a[0].key).Ok? {
      RecordIsPlainAccount(w, a[0].key);
      var c := CloseAccount(env, w, a[3].key, a[2].key, a[1].key, a[0].key, true);
      if c.Ok? {
        assert Data(c.value, a[0].key) == Data(w, a[0].key);
        SystemTransferFromDataAccountFails(env, c.value, a[0].key, true, a[1].key, Lamports(c.value, a[0].key));
      }
    }
  }

  /**
   * Terminating the mints never succeeds. The close of a mint is refused, since `CloseAccount`
   * accepts only token accounts; if both closes succeed, the zero-lamport transfer out of the
   * position account is refused because the account carries data.
   */
  lemma {:induction false} TerminateMintsFails(env: Env, w: World, a: seq<AccountInfo>)
    ensures TerminateMints(env, w, a).Err?
  {
    if |a| >= 6 && ReadState(w, a[0].key).Ok? {
      RecordIsPlainAccount(w, a[0].key);
      var c1 := CloseAccount(env, w, a[4].key, a[2].key, a[1].key, a[0].key, true);
      if c1.Ok? {
        var c2 := CloseAccount(env, c1.value, a[4].key, a[3].key, a[1].key, a[0].key, true);
        if c2.Ok? {
          assert Data(c2.value, a[0].key) == Data(w, a[0].key);
          SystemTransferFromDataAccountFails(env, c2.value, a[0].key, true, a[1].key, 0);
        }
      }
    }
  }

  /** The combined termination never succeeds: the mints step receives five accounts where it needs six. */
  lemma TerminateFails(env: Env, w: World, a: seq<AccountInfo>)
    ensures Terminate(env, w, a) == Err(NotEnoughAccountKeys)
  {
  }
}
