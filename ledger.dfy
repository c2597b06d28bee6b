/**
 * The abstract ledger the processor runs against, and the effects of the cross-program calls
 * it makes: SPL token `transfer`, `mint_to`, `burn`, `close_account` and `initialize_mint`,
 * associated-token-account creation, and the system program's `create_account` and `transfer`.
 * Each call is a function from the ledger before to the ledger after, or to the error the
 * callee returns; the checks run in the order the callee runs them.
 */
module Ledger {
  import opened Common
  import opened Errors
  import Derivation

  /** An initialized SPL token account: its mint, the wallet that owns it, and its balance. */
  datatype TokenAccount = TokenAccount(mint: Pubkey, owner: Pubkey, amount: u64)

  /**
   * An SPL mint account. `initialized` is false for a mint account that has been allocated
   * for the token program but not yet set up by `initialize_mint`.
   */
  datatype Mint = Mint(initialized: bool, authority: Pubkey, supply: u64, decimals: byte)

  /** Any other account: the program that owns it, its lamports and its data. */
  datatype Account = Account(owner: Pubkey, lamports: nat, data: seq<byte>)

  /** Every account of the cluster, by key. A key in none of the maps is an empty system account. */
  datatype World = World(accounts: map<Pubkey, Account>, tokens: map<Pubkey, TokenAccount>, mints: map<Pubkey, Mint>)

  /**
   * What one instruction sees of its runtime: the program ids, the address hash and the
   * associated-token-address function, the rent-exempt minimum for a position account and
   * the clock's unix timestamp.
   */
  datatype Env = Env(
    programId: Pubkey,
    tokenProgramId: Pubkey,
    systemProgramId: Pubkey,
    find: Derivation.Finder,
    assoc: (Pubkey, Pubkey) -> Pubkey,
    rentMinimum: u64,
    now: i64)

  /** Data lengths of the token program's account layouts. */
  const TOKEN_ACCOUNT_LEN: nat := 165
  const MINT_LEN: nat := 82

  /** `TokenError` codes, as `ProgramError::Custom`. */
  const INSUFFICIENT_FUNDS: ProgramError := Custom(1)
  const INVALID_MINT: ProgramError := Custom(2)
  const MINT_MISMATCH: ProgramError := Custom(3)
  const OWNER_MISMATCH: ProgramError := Custom(4)
  const ALREADY_IN_USE: ProgramError := Custom(6)
  const NON_NATIVE_HAS_BALANCE: ProgramError := Custom(11)
  const OVERFLOW: ProgramError := Custom(14)

  /** `SystemError` codes, as `ProgramError::Custom`. */
  const ACCOUNT_ALREADY_IN_USE: ProgramError := Custom(0)
  const RESULT_WITH_NEGATIVE_LAMPORTS: ProgramError := Custom(1)

  /** The program that owns an account. */
  function Owner(env: Env, w: World, k: Pubkey): Pubkey
  {
    if k in w.tokens || k in w.mints then env.tokenProgramId
    else if k in w.accounts then w.accounts[k].owner
    else env.systemProgramId
  }

  /** The data of an account; token accounts and mints are represented by their length only. */
  function Data(w: World, k: Pubkey): (d: seq<byte>)
    ensures k in w.tokens ==> |d| == TOKEN_ACCOUNT_LEN
    ensures k !in w.tokens && k in w.mints ==> |d| == MINT_LEN
  {
    if k in w.tokens then seq(TOKEN_ACCOUNT_LEN, _ => 0)
    else if k in w.mints then seq(MINT_LEN, _ => 0)
    else if k in w.accounts then w.accounts[k].data
    else []
  }

  /** The lamports of an account outside the token program (token-account rent is not tracked). */
  function Lamports(w: World, k: Pubkey): nat
  {
    if k in w.tokens || k in w.mints || k !in w.accounts then 0 else w.accounts[k].lamports
  }

  /** A token balance, zero for a key that is not a token account. */
  function Balance(w: World, k: Pubkey): nat
  {
    if k in w.tokens then w.tokens[k].amount else 0
  }

  /** A mint's supply, zero for a key that is not a mint. */
  function Supply(w: World, m: Pubkey): nat
  {
    if m in w.mints then w.mints[m].supply else 0
  }

  /** Replaces the owner, lamports and data of a non-token account. */
  function SetAccount(w: World, k: Pubkey, a: Account): (w': World)
    ensures w'.tokens == w.tokens && w'.mints == w.mints
  {
    w.(accounts := w.accounts[k := a])
  }

  // ---------------------------------------------------------------------------------------
  // Token program.

  /**
   * `spl_token::instruction::transfer` and the token program's handling of it: the program id
   * is checked when the instruction is built; then funds, mint agreement and the owner's
   * signature; a transfer to itself changes nothing; the credit may not overflow.
   */
  function Transfer(env: Env, w: World, program: Pubkey, source: Pubkey, destination: Pubkey,
                    authority: Pubkey, signed: bool, amount: u64): (r: Result<World, ProgramError>)
    ensures r.Ok? ==> program == env.tokenProgramId && source in w.tokens && destination in w.tokens
    ensures r.Ok? ==> amount <= w.tokens[source].amount && w.tokens[source].mint == w.tokens[destination].mint
    ensures r.Ok? ==> authority == w.tokens[source].owner && signed
    ensures r.Ok? ==> r.value.accounts == w.accounts && r.value.mints == w.mints
  {
    if program != env.tokenProgramId then Err(IncorrectProgramId)
    else if source !in w.tokens || destination !in w.tokens then Err(InvalidAccountData)
    else
      var s, d := w.tokens[source], w.tokens[destination];
      if s.amount < amount then Err(INSUFFICIENT_FUNDS)
      else if s.mint != d.mint then Err(MINT_MISMATCH)
      else if authority != s.owner then Err(OWNER_MISMATCH)
      else if !signed then Err(MissingRequiredSignature)
      else if source == destination then Ok(w)
      else if d.amount + amount >= U64_LIMIT then Err(OVERFLOW)
      else
        Ok(w.(tokens := w.tokens[source := s.(amount := s.amount - amount)]
                                [destination := d.(amount := d.amount + amount)]))
  }

  /** `mint_to`: the destination must hold the mint, the mint authority must sign. */
  function MintTo(env: Env, w: World, program: Pubkey, mint: Pubkey, destination: Pubkey,
                  authority: Pubkey, signed: bool, amount: u64): (r: Result<World, ProgramError>)
    ensures r.Ok? ==> program == env.tokenProgramId && destination in w.tokens && mint in w.mints
    ensures r.Ok? ==> w.tokens[destination].mint == mint && w.mints[mint].initialized
    ensures r.Ok? ==> authority == w.mints[mint].authority && signed
    ensures r.Ok? ==> r.value.accounts == w.accounts
  {
    if program != env.tokenProgramId then Err(IncorrectProgramId)
    else if destination !in w.tokens then Err(InvalidAccountData)
    else
      var d := w.tokens[destination];
      if d.mint != mint then Err(MINT_MISMATCH)
      else if mint !in w.mints then Err(InvalidAccountData)
      else
        var m := w.mints[mint];
        if !m.initialized then Err(UninitializedAccount)
        else if authority != m.authority then Err(OWNER_MISMATCH)
        else if !signed then Err(MissingRequiredSignature)
        else if d.amount + amount >= U64_LIMIT || m.supply + amount >= U64_LIMIT then Err(OVERFLOW)
        else
          Ok(w.(tokens := w.tokens[destination := d.(amount := d.amount + amount)],
                mints := w.mints[mint := m.(supply := m.supply + amount)]))
  }

  /** `burn`: funds, mint agreement, then the owner's signature. */
  function Burn(env: Env, w: World, program: Pubkey, account: Pubkey, mint: Pubkey,
                authority: Pubkey, signed: bool, amount: u64): (r: Result<World, ProgramError>)
    ensures r.Ok? ==> program == env.tokenProgramId && account in w.tokens && mint in w.mints
    ensures r.Ok? ==> amount <= w.tokens[account].amount && w.tokens[account].mint == mint
    ensures r.Ok? ==> authority == w.tokens[account].owner && signed
    ensures r.Ok? ==> r.value.accounts == w.accounts
  {
    if program != env.tokenProgramId then Err(IncorrectProgramId)
    else if account !in w.tokens || mint !in w.mints then Err(InvalidAccountData)
    else
      var s, m := w.tokens[account], w.mints[mint];
      if !m.initialized then Err(UninitializedAccount)
      else if s.amount < amount then Err(INSUFFICIENT_FUNDS)
      else if s.mint != mint then Err(MINT_MISMATCH)
      else if authority != s.owner then Err(OWNER_MISMATCH)
      else if !signed then Err(MissingRequiredSignature)
      else if m.supply < amount then Err(OVERFLOW)
      else
        Ok(w.(tokens := w.tokens[account := s.(amount := s.amount - amount)],
              mints := w.mints[mint := m.(supply := m.supply - amount)]))
  }

  /**
   * `close_account`: only an empty token account closes, on its owner's signature; the
   * account disappears (its rent lamports, which are not tracked, go to `destination`).
   */
  function CloseAccount(env: Env, w: World, program: Pubkey, account: Pubkey, destination: Pubkey,
                        authority: Pubkey, signed: bool): (r: Result<World, ProgramError>)
    ensures r.Ok? ==> program == env.tokenProgramId && account in w.tokens && account != destination
    ensures r.Ok? ==> w.tokens[account].amount == 0 && authority == w.tokens[account].owner && signed
    ensures r.Ok? ==> r.value == w.(tokens := w.tokens - {account})
  {
    if program != env.tokenProgramId then Err(IncorrectProgramId)
    else if account == destination || account !in w.tokens then Err(InvalidAccountData)
    else
      var t := w.tokens[account];
      if t.amount != 0 then Err(NON_NATIVE_HAS_BALANCE)
      else if authority != t.owner then Err(OWNER_MISMATCH)
      else if !signed then Err(MissingRequiredSignature)
      else Ok(w.(tokens := w.tokens - {account}))
  }

  /** `initialize_mint` with no freeze authority: sets up an allocated, uninitialized mint account. */
  function InitializeMint(env: Env, w: World, program: Pubkey, mint: Pubkey, authority: Pubkey,
                          decimals: byte): (r: Result<World, ProgramError>)
    ensures r.Ok? <==> program == env.tokenProgramId && mint in w.mints && !w.mints[mint].initialized
    ensures r.Ok? ==> r.value == w.(mints := w.mints[mint := Mint(true, authority, 0, decimals)])
    ensures r.Err? && program == env.tokenProgramId && mint in w.mints ==> r.error == ALREADY_IN_USE
  {
    if program != env.tokenProgramId then Err(IncorrectProgramId)
    else if mint !in w.mints then Err(InvalidAccountData)
    else if w.mints[mint].initialized then Err(ALREADY_IN_USE)
    else Ok(w.(mints := w.mints[mint := Mint(true, authority, 0, decimals)]))
  }

  /** An account that holds lamports, data, or is owned by a program other than the system program. */
  predicate InUse(env: Env, w: World, k: Pubkey)
  {
    k in w.tokens || k in w.mints || Lamports(w, k) > 0 || Data(w, k) != [] || Owner(env, w, k) != env.systemProgramId
  }

  /**
   * `create_associated_token_account(funder, wallet, mint, token_program)`: creates the token
   * account at `assoc(wallet, mint)`, owned by `wallet`, with a zero balance.
   */
  function CreateAssociatedAccount(env: Env, w: World, funder: Pubkey, funderSigned: bool,
                                   wallet: Pubkey, mint: Pubkey, tokenProgram: Pubkey): (r: Result<World, ProgramError>)
    ensures r.Ok? ==> tokenProgram == env.tokenProgramId && funderSigned
    ensures r.Ok? ==> var k := env.assoc(wallet, mint);
                      k !in w.tokens && k !in w.mints && mint in w.mints && w.mints[mint].initialized &&
                      r.value.tokens == w.tokens[k := TokenAccount(mint, wallet, 0)] && r.value.mints == w.mints
  {
    var k := env.assoc(wallet, mint);
    if tokenProgram != env.tokenProgramId then Err(IncorrectProgramId)
    else if InUse(env, w, k) then Err(ACCOUNT_ALREADY_IN_USE)
    else if !funderSigned then Err(MissingRequiredSignature)
    else if mint !in w.mints || !w.mints[mint].initialized then Err(INVALID_MINT)
    else Ok(World(w.accounts - {k}, w.tokens[k := TokenAccount(mint, wallet, 0)], w.mints))
  }

  // ---------------------------------------------------------------------------------------
  // System program.

  /**
   * `system_instruction::create_account(from, to, lamports, space, owner)`: `to` must be unused
   * and sign, `from` must sign, carry no data and hold the lamports.
   */
  function CreateAccount(env: Env, w: World, from: Pubkey, fromSigned: bool, to: Pubkey, toSigned: bool,
                         lamports: nat, space: nat, owner: Pubkey): (r: Result<World, ProgramError>)
    ensures r.Ok? ==> !InUse(env, w, to) && toSigned && fromSigned && Data(w, from) == [] && lamports <= Lamports(w, from)
    ensures r.Ok? ==> r.value.tokens == w.tokens && r.value.mints == w.mints
    ensures r.Ok? ==> Owner(env, r.value, to) == owner && Data(r.value, to) == seq(space, _ => 0)
    ensures r.Ok? && from != to ==> Lamports(r.value, to) == lamports && Lamports(r.value, from) == Lamports(w, from) - lamports
  {
    if Lamports(w, to) > 0 || to in w.tokens || to in w.mints then Err(ACCOUNT_ALREADY_IN_USE)
    else if !toSigned then Err(MissingRequiredSignature)
    else if Data(w, to) != [] || Owner(env, w, to) != env.systemProgramId then Err(ACCOUNT_ALREADY_IN_USE)
    else if !fromSigned then Err(MissingRequiredSignature)
    else if Data(w, from) != [] then Err(InvalidArgument)
    else if Lamports(w, from) < lamports then Err(RESULT_WITH_NEGATIVE_LAMPORTS)
    else
      var payer := Account(Owner(env, w, from), Lamports(w, from) - lamports, []);
      var w1 := SetAccount(w, from, payer);
      Ok(SetAccount(w1, to, Account(owner, Lamports(w1, to) + lamports, seq(space, _ => 0))))
  }

  /** `system_instruction::transfer`: `from` must sign, carry no data and hold the lamports. */
  function SystemTransfer(env: Env, w: World, from: Pubkey, fromSigned: bool, to: Pubkey, lamports: nat): (r: Result<World, ProgramError>)
    ensures r.Ok? ==> fromSigned && Data(w, from) == [] && lamports <= Lamports(w, from)
    ensures r.Ok? ==> r.value.tokens == w.tokens && r.value.mints == w.mints
  {
    if !fromSigned then Err(MissingRequiredSignature)
    else if Data(w, from) != [] then Err(InvalidArgument)
    else if Lamports(w, from) < lamports then Err(RESULT_WITH_NEGATIVE_LAMPORTS)
    else
      var w1 := SetAccount(w, from, Account(Owner(env, w, from), Lamports(w, from) - lamports, []));
      if to in w1.tokens || to in w1.mints then Ok(w1)
      else Ok(SetAccount(w1, to, Account(Owner(env, w1, to), Lamports(w1, to) + lamports, Data(w1, to))))
  }

  /**
   * `w'` differs from `w` at most in token balances and mint supplies: the same accounts, the
   * same token accounts with the same mints and owners, the same mints with the same
   * authorities.
   */
  predicate BalancesOnlyDiffer(w: World, w': World)
  {
    && w'.accounts == w.accounts && w'.tokens.Keys == w.tokens.Keys && w'.mints.Keys == w.mints.Keys
    && (forall k :: k in w.tokens ==> w'.tokens[k].mint == w.tokens[k].mint && w'.tokens[k].owner == w.tokens[k].owner)
    && (forall m :: m in w.mints ==>
          w'.mints[m].initialized == w.mints[m].initialized && w'.mints[m].authority == w.mints[m].authority)
  }

  // ---------------------------------------------------------------------------------------
  // What the calls promise about balances and supplies.

  /** A transfer between two accounts moves exactly `amount` and touches no other balance or supply. */
  lemma TransferMovesAmount(env: Env, w: World, program: Pubkey, source: Pubkey, destination: Pubkey,
                            authority: Pubkey, signed: bool, amount: u64)
    requires Transfer(env, w, program, source, destination, authority, signed, amount).Ok?
    ensures var w' := Transfer(env, w, program, source, destination, authority, signed, amount).value;
            (source != destination ==>
               Balance(w', source) == Balance(w, source) - amount &&
               Balance(w', destination) == Balance(w, destination) + amount) &&
            (source == destination ==> w' == w) &&
            Balance(w', source) + Balance(w', destination) == Balance(w, source) + Balance(w, destination) &&
            (forall k :: k != source && k != destination ==> Balance(w', k) == Balance(w, k)) &&
            (forall m :: Supply(w', m) == Supply(w, m)) &&
            w'.tokens.Keys == w.tokens.Keys &&
            BalancesOnlyDiffer(w, w')
  {
  }

  /** Minting raises the mint's supply and the destination's balance by `amount`, and nothing else. */
  lemma MintToRaisesBoth(env: Env, w: World, program: Pubkey, mint: Pubkey, destination: Pubkey,
                         authority: Pubkey, signed: bool, amount: u64)
    requires MintTo(env, w, program, mint, destination, authority, signed, amount).Ok?
    ensures var w' := MintTo(env, w, program, mint, destination, authority, signed, amount).value;
            Supply(w', mint) == Supply(w, mint) + amount &&
            Balance(w', destination) == Balance(w, destination) + amount &&
            (forall k :: k != destination ==> Balance(w', k) == Balance(w, k)) &&
            (forall m :: m != mint ==> Supply(w', m) == Supply(w, m)) &&
            w'.tokens.Keys == w.tokens.Keys && w'.mints.Keys == w.mints.Keys &&
            BalancesOnlyDiffer(w, w')
  {
  }

  /** Burning lowers the account's balance and the mint's supply by `amount`, and nothing else. */
  lemma BurnLowersBoth(env: Env, w: World, program: Pubkey, account: Pubkey, mint: Pubkey,
                       authority: Pubkey, signed: bool, amount: u64)
    requires Burn(env, w, program, account, mint, authority, signed, amount).Ok?
    ensures var w' := Burn(env, w, program, account, mint, authority, signed, amount).value;
            Supply(w', mint) == Supply(w, mint) - amount &&
            Balance(w', account) == Balance(w, account) - amount &&
            (forall k :: k != account ==> Balance(w', k) == Balance(w, k)) &&
            (forall m :: m != mint ==> Supply(w', m) == Supply(w, m)) &&
            w'.tokens.Keys == w.tokens.Keys && w'.mints.Keys == w.mints.Keys &&
            BalancesOnlyDiffer(w, w')
  {
  }

  /** A transfer out of a data-carrying account never succeeds, whatever the amount. */
  lemma SystemTransferFromDataAccountFails(env: Env, w: World, from: Pubkey, fromSigned: bool, to: Pubkey, lamports: nat)
    requires Data(w, from) != []
    ensures SystemTransfer(env, w, from, fromSigned, to, lamports).Err?
  {
  }
}
