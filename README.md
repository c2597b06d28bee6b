# Lysergic tokenizer — a Dafny model

The lysergic tokenizer is a Solana program that splits a deposit of an underlying SPL token
into a principal token (PT) and a yield token (YT) with a fixed expiry date. One *position*
(the "lysergic tokenizer" account, a program-derived address) binds together:

- an underlying mint and the vault, which is the associated token account of the position;
- a PT mint and a YT mint;
- an expiry date (a day boundary) and a fixed APY.

Users deposit underlying tokens and mint PT and YT against the position. After expiry they
redeem PT. At any time they claim yield by burning YT. The authority terminates the position
after expiry.

This project models the program in Dafny:

- **`Processor.Chain`** (processor.dfy) models the processor. It is a class whose fields are
  the ledger the program sees: plain accounts (owner, lamports, data), SPL token accounts and
  SPL mints. Each `process_*` handler is a method.
  - Each method runs the handler's checks in the source's order, then applies the
    cross-program calls one after another.
  - An error in any step puts the ledger back as it was, like the runtime discarding a
    failed transaction.
  - Each method is proved to leave exactly the ledger that the pure function of the same
    name in `Handlers` (handlers.dfy) computes, and to return the same error.
- **`HandlerProperties`** (properties.dfy) proves what those functions guarantee:
  - balance and supply deltas;
  - the expiry gates;
  - that a position can be initialized only once;
  - that composite handlers fail;
  - how client-built bytes reach a handler.
- **`Ledger`** (ledger.dfy) holds the token-program, associated-token-program and
  system-program calls the handlers make, as pure functions on the ledger that either fail
  with the callee's error or return the new ledger.
- **`Commands`** (commands.dfy) is the instruction type the processor matches on, with its
  Borsh layout.
- **`Instruction`** (instruction.dfy) is the client-side instruction enum, its Borsh layout and
  its builders.
- **`State`** is the persisted position record.
- **`Expiry`** is the expiry terms and day-boundary arithmetic.
- **`Derivation`** and **`ProgramDerivation`** are the seed lists of the two address-derivation
  variants.
- **`Errors`** and **`TokenizerErrors`** are the two error enums and their codes.
- **`Borsh`** holds the little-endian integer encodings.

## Model

| member | source | states |
|---|---|---|
| Borsh.FromLeOfLeBytes | src/state.rs:16-17 | reading back `n` little-endian bytes of a value below 256^n gives the value |
| Borsh.LeBytesOfFromLe | src/state.rs:16-17 | every byte string is the little-endian encoding of the number it denotes |
| Borsh.U64RoundTrip | src/state.rs:17 | a `u64` field decodes to the value encoded |
| Borsh.I64RoundTrip | src/state.rs:16 | an `i64` field (two's complement) decodes to the value encoded |
| Borsh.U64Bytes | src/state.rs:17 | every 8-byte string is the encoding of the `u64` it decodes to |
| Borsh.I64Bytes | src/state.rs:16 | every 8-byte string is the encoding of the `i64` it decodes to |
| Borsh.EncodeI64Injective | src/state.rs:16 | different expiry dates have different encodings |
| Borsh.ReadU8 | src/instruction.rs:13 | reading a variant index succeeds iff a byte is left, and splits the input exactly |
| Borsh.ReadPubkey | src/instruction.rs:13 | reading a key succeeds iff 32 bytes are left, and splits the input exactly |
| Borsh.ReadU64 | src/instruction.rs:13 | reading a `u64` succeeds iff 8 bytes are left; the bytes read are the value's encoding |
| Borsh.ReadI64 | src/state.rs:16 | reading an `i64` succeeds iff 8 bytes are left; the bytes read are the value's encoding |
| Common.SaturatingSub | src/processor.rs:185-188 | `saturating_sub`: 0 when the subtrahend is at least the minuend, otherwise the exact difference |
| Common.Max | src/processor.rs:185-187 | `max`: at least both arguments and equal to one of them |
| Common.WrapI64 | program/src/lib.rs:66 | the `i64` sum `ts + expiry_seconds` wraps: it is congruent to the exact sum modulo 2^64, and equal to it whenever the exact sum fits in an `i64` |
| Common.TruncDiv | program/src/lib.rs:67 | Rust's `/` on a positive divisor rounds toward zero: the floor of the quotient for a non-negative dividend, the ceiling for a negative one |
| Errors.Code | src/error.rs:13-38 | the twelve variants have codes below 12 |
| Errors.FromCode | src/error.rs:13-38 | exactly the codes 0..11 name a variant, and that variant has that code |
| Errors.ToProgramError | src/error.rs:41-45 | converting gives `Custom(code)`, and that code gives the variant back |
| Errors.ToProgramErrorInjective | src/error.rs:41-45 | different variants become different program errors |
| Errors.CodeRoundTrip | src/error.rs:41-45 | the variant index decodes back to the variant |
| Errors.CodeInjective | src/error.rs:13-38 | different variants have different codes |
| Errors.CodesOfNamedVariants | src/error.rs:15-37 | InvalidInstruction is `Custom(0)`, TokenizerAlreadyInitialized `Custom(1)`, ExpiryDateElapsed `Custom(10)`, ExpiryDateNotElapsed `Custom(11)` |
| TokenizerErrors.TokenizerCode | program/src/error.rs:13-44 | the fifteen variants have codes below 15 |
| TokenizerErrors.TokenizerFromCode | program/src/error.rs:13-44 | exactly the codes 0..14 name a variant, and that variant has that code |
| TokenizerErrors.TokenizerToProgramError | program/src/error.rs:46-50 | converting gives `Custom(code)` of the variant |
| TokenizerErrors.TokenizerCodeRoundTrip | program/src/error.rs:46-50 | the variant index decodes back to the variant |
| TokenizerErrors.TokenizerCodeInjective | program/src/error.rs:13-44 | different variants have different codes |
| TokenizerErrors.SharedVariantsAgree | program/src/error.rs:14-37 | the twelve variants shared with src/error.rs have the same codes in both enums |
| TokenizerErrors.TokenizerOnlyCodes | program/src/error.rs:36-43 | ExpiryDateNotElapsed is 11, Unauthorised 12, InsufficientFunds 13, VaultNotEmpty 14 |
| TokenizerErrors.TokenizerOnlyCodesAreFresh | program/src/error.rs:38-43 | the three added variants use codes no variant of src/error.rs uses |
| Expiry.ToSeconds | program/src/lib.rs:44-50 | twelve, eighteen and twenty-four months of 2628000 seconds: positive and at most two years |
| Expiry.FromI64 | program/src/lib.rs:51-58 | accepts exactly 12, 18 and 24, returning the term of that many months; InvalidArgument otherwise |
| Expiry.FromI64OfMonths | src/lib.rs:60-74 | each term's month count converts back to that term |
| Expiry.FromI64ToSeconds | src/lib.rs:60-74 | an accepted month count lasts `months * 2628000` seconds |
| Expiry.ToExpiryDate | program/src/lib.rs:64-69 | always returns a value, and the value is a multiple of 86400 |
| Expiry.ExpiryDateBounds | program/src/lib.rs:65-68 | for a non-negative sum `ts + secs`, the date is the start of that UTC day: `r <= ts + secs < r + 86400` |
| Expiry.ExpiryDateMonotone | program/src/lib.rs:66-68 | a later timestamp never gives an earlier expiry date |
| Expiry.ExpiryDateSameDay | program/src/lib.rs:66-68 | timestamps whose end falls on the same day give the same expiry date |
| Derivation.Ascii | src/lib.rs:31-47 | a byte-string literal has one byte per character, each the character's code |
| Derivation.TokenizerSeeds | src/lib.rs:20-24 | the position seeds are the mint key and eight bytes that decode to the expiry date, with no prefix |
| Derivation.PrincipalSeeds | src/lib.rs:27-37 | the principal mint seeds are the position key followed by the bytes of "principal", 0x70 0x72 0x69 0x6E 0x63 0x69 0x70 0x61 0x6C |
| Derivation.YieldSeeds | src/lib.rs:40-50 | the yield mint seeds are the position key followed by the bytes of "yield", 0x79 0x69 0x65 0x6C 0x64 |
| Derivation.GetTokenizerAddress | src/lib.rs:20-24 | the position key is the address `find` gives for (mint, little-endian expiry date) under the program id passed in |
| Derivation.GetPrincipalMintAddress | src/lib.rs:27-37 | the principal mint key is the address `find` gives for (position, "principal") under the program id passed in |
| Derivation.GetYieldMintAddress | src/lib.rs:40-50 | the yield mint key is the address `find` gives for (position, "yield") under the program id passed in |
| Derivation.TokenizerSeedsInjective | src/lib.rs:20-24 | the position seed list (mint bytes, little-endian expiry date, no prefix) determines the mint and the expiry date |
| Derivation.PrincipalYieldSeedsDiffer | src/lib.rs:27-50 | the principal seed list (position, "principal") never equals a yield seed list (position, "yield") |
| Derivation.TokenizerSeedsDisjointFromMintSeeds | src/lib.rs:20-50 | no position seed list equals a mint seed list |
| Derivation.AddressClashIsCollision | src/lib.rs:20-50 | if a position's PT and YT mints share an address, or two different (mint, expiry) pairs share a position address, then `find` maps two different seed lists to one address |
| ProgramDerivation.TokenizerSeeds | program/src/lib.rs:15-22 | the position seeds are the bytes of "tokenizer" (0x74 0x6F 0x6B 0x65 0x6E 0x69 0x7A 0x65 0x72), the mint key and eight bytes that decode to the expiry date |
| ProgramDerivation.PrincipalSeeds | program/src/lib.rs:25-28 | the principal mint seeds are the bytes of "principal" (0x70 0x72 0x69 0x6E 0x63 0x69 0x70 0x61 0x6C) followed by the position key |
| ProgramDerivation.YieldSeeds | program/src/lib.rs:31-34 | the yield mint seeds are the bytes of "yield" (0x79 0x69 0x65 0x6C 0x64) followed by the position key |
| ProgramDerivation.GetTokenizerAddress | program/src/lib.rs:15-22 | the position is what `find` gives for ("tokenizer", mint, little-endian expiry date) under the program's own id |
| ProgramDerivation.GetPrincipalMintAddress | program/src/lib.rs:25-28 | the principal mint is what `find` gives for ("principal", position) under the program's own id |
| ProgramDerivation.GetYieldMintAddress | program/src/lib.rs:31-34 | the yield mint is what `find` gives for ("yield", position) under the program's own id |
| ProgramDerivation.TokenizerSeedsInjective | program/src/lib.rs:15-22 | the seed list ("tokenizer", mint, expiry date) determines the mint and the expiry date |
| ProgramDerivation.PrincipalYieldSeedsDiffer | program/src/lib.rs:25-34 | the ("principal", position) and ("yield", position) seed lists always differ |
| ProgramDerivation.MintAddressClashIsCollision | program/src/lib.rs:15-34 | if a position's PT and YT mint addresses coincide, `find` maps two different seed lists to one address |
| ProgramDerivation.TokenizerAddressClashIsCollision | program/src/lib.rs:15-22 | if two different (mint, expiry) pairs share a position address, `find` maps two different seed lists to one address |
| State.Serialize | src/state.rs:6-18 | the record is exactly STATE_SIZE bytes, fields in declaration order at fixed offsets, expiry date at offset 161 |
| State.Deserialize | src/state.rs:6-18 | decoding succeeds iff the input is exactly STATE_SIZE bytes, otherwise BorshIoError |
| State.DeserializeSerialize | src/state.rs:8 | serializing then deserializing gives the record back |
| State.SerializeDeserialize | src/state.rs:8 | every STATE_SIZE-byte string is the serialization of the record it decodes to |
| State.StateSizeValue | src/state.rs:6 | STATE_SIZE is 177 (not the 184 its comment says) and the expiry date sits at offset 161 |
| State.SerializeInjective | src/state.rs:8-18 | different records have different serializations |
| Instruction.TermTag | src/instruction.rs:13 | an `Expiry` variant index is below 3 |
| Instruction.ReadTerm | src/instruction.rs:13 | an `Expiry` index is read iff a byte below 3 is present, and the input splits exactly |
| Instruction.ReadTermOf | src/instruction.rs:13 | an encoded `Expiry` reads back with the rest untouched |
| Instruction.Tag | src/instruction.rs:13-217 | the twelve variants have indices below 12 |
| Instruction.Encode | src/instruction.rs:13-14 | the encoding starts with the variant index, followed by the fields |
| Instruction.ReadInitFields | src/instruction.rs:25-36 | the four keys and the `Expiry` of an initialize variant, read in declaration order |
| Instruction.ReadFields | src/instruction.rs:13-217 | the fields read for an index belong to a variant with that index, and they re-encode to exactly the bytes consumed |
| Instruction.AmountVariant | src/instruction.rs:87-216 | each single-amount index has a variant whose fields are the amount's eight bytes |
| Instruction.Decode | src/instruction.rs:13-14 | whatever decodes re-encodes to exactly the input (`try_from_slice` consumes every byte) |
| Instruction.DecodeEncode | src/instruction.rs:13-14 | encoding then decoding gives the instruction back, for every variant |
| Instruction.DecodeEncodeInit | src/instruction.rs:25-76 | the round trip for the two initialize variants |
| Instruction.DecodeEncodeMints | src/instruction.rs:47-52 | the round trip for InitializeMints |
| Instruction.DecodeEncodeAmount | src/instruction.rs:87-216 | the round trip for the nine single-amount variants |
| Instruction.AmountOf | src/instruction.rs:87-216 | the amount of a single-amount variant is the value its fields encode |
| Instruction.InitFieldsOf | src/instruction.rs:25-36 | encoded initialize fields read back with the rest untouched |
| Instruction.EncodeInjective | src/instruction.rs:13-14 | different instructions have different encodings |
| Instruction.DecodeRejectsTrailing | src/instruction.rs:13-14 | an encoding followed by extra bytes does not decode |
| Instruction.NewWithBorsh | src/instruction.rs:229-231 | the instruction targets the program id, carries the metas unchanged and the variant's encoding |
| Instruction.InitLysergicTokenizer | src/instruction.rs:220-247 | six metas, position/authority/vault writable, authority at 1 the only signer, fields carried unchanged |
| Instruction.InitMints | src/instruction.rs:250-272 | five metas, authority the only signer, token program read-only |
| Instruction.InitTokenizerAndMints | src/instruction.rs:275-304 | eight metas, authority the only signer, underlying mint and programs read-only |
| Instruction.DepositUnderlyingIx | src/instruction.rs:307-326 | six metas, user at 2 the only signer, token and associated-token programs read-only, amount carried |
| Instruction.TokenizePrincipalIx | src/instruction.rs:329-348 | six metas, user the only signer, amount carried |
| Instruction.TokenizeYieldIx | src/instruction.rs:351-369 | five metas, user the only signer, amount carried |
| Instruction.DepositAndTokenizeIx | src/instruction.rs:372-399 | ten metas, user at 4 the only signer, amount carried |
| Instruction.RedeemPrincipalOnlyIx | src/instruction.rs:402-427 | nine metas, user the only signer, underlying mint read-only |
| Instruction.RedeemPrincipalAndYieldIx | src/instruction.rs:430-458 | ten metas, user at 5 the only signer, underlying mint at 2 read-only |
| Instruction.ClaimYieldIx | src/instruction.rs:461-483 | seven metas, user the only signer, amount carried |
| Instruction.BurnPrincipalTokenIx | src/instruction.rs:486-505 | six metas, user the only signer, amount carried |
| Instruction.BurnYieldTokenIx | src/instruction.rs:508-526 | five metas, user the only signer, amount carried |
| Commands.Tag | src/processor.rs:39-102 | the thirteen variants the processor matches on have indices below 13, in match-arm order |
| Commands.Encode | src/processor.rs:35-37 | the encoding starts with the variant index |
| Commands.AmountVariant | src/processor.rs:75-96 | each single-amount index has a variant whose fields are the amount's eight bytes |
| Commands.AmountOf | src/processor.rs:75-96 | the amount of a single-amount variant is the value its fields encode |
| Commands.ReadInitCommand | src/processor.rs:40-74 | the fields read for an initialize index re-encode to exactly the bytes consumed |
| Commands.ReadMintsCommand | src/processor.rs:56-59 | the fields read for InitializeMints re-encode to exactly the bytes consumed |
| Commands.ReadFields | src/processor.rs:39-102 | the fields read for an index belong to a variant with that index and re-encode to the bytes consumed |
| Commands.Decode | src/processor.rs:35-37 | whatever decodes re-encodes to exactly the input |
| Commands.DecodeEncode | src/processor.rs:35-37 | encoding then decoding gives the command back, for every variant |
| Commands.DecodeEncodeInit | src/processor.rs:40-74 | the round trip for the two initialize variants |
| Commands.DecodeEncodeMints | src/processor.rs:56-59 | the round trip for InitializeMints |
| Commands.DecodeEncodeAmount | src/processor.rs:75-96 | the round trip for the seven single-amount variants |
| Commands.DecodedLength | src/processor.rs:35-37 | whatever decodes has exactly the length its variant index calls for |
| Commands.ClientEncodingAsDecoded | src/processor.rs:35-102 | under the assumed arm order, client bytes with a shared index and layout decode to the processor's variant of that index; a client BurnPrincipalToken arrives as ClaimYield and RedeemPrincipalOnly as RedeemMaturePrincipal; the other four are refused |
| Ledger.Data | src/processor.rs:281 | a token account's data is 165 bytes, a mint's 82 |
| Ledger.SetAccount | src/processor.rs:1041-1042 | changing a plain account leaves token accounts and mints alone |
| Ledger.Transfer | src/processor.rs:439-454 | a token transfer succeeds only under the token program, between accounts of one mint, within the balance, authorized by the source owner's signature; other accounts and mints are untouched |
| Ledger.MintTo | src/processor.rs:522-538 | minting succeeds only into an account of that initialized mint, signed by its authority |
| Ledger.Burn | src/processor.rs:823-838 | burning succeeds only within the balance of an account of that mint, signed by its owner |
| Ledger.CloseAccount | src/processor.rs:1005-1020 | closing succeeds only on an empty token account, signed by its owner, and removes exactly that account |
| Ledger.InitializeMint | src/processor.rs:322-345 | succeeds iff the mint is uninitialized; it becomes initialized with the given authority, no supply and the given decimals |
| Ledger.CreateAssociatedAccount | src/processor.rs:210-225 | succeeds only under the token program with a signing funder, and creates an empty account at the wallet's associated address |
| Ledger.CreateAccount | src/processor.rs:191-204 | succeeds only for an unused, signing target funded by a signing, data-free payer; the target gets the owner, zeroed space and the lamports |
| Ledger.SystemTransfer | src/processor.rs:1022-1037 | succeeds only from a signing, data-free account holding enough lamports |
| Ledger.TransferMovesAmount | src/processor.rs:439-454 | the source loses and the destination gains exactly `amount`; no other balance or supply changes |
| Ledger.MintToRaisesBoth | src/processor.rs:522-538 | supply and the destination balance each rise by `amount`; nothing else changes |
| Ledger.BurnLowersBoth | src/processor.rs:823-838 | supply and the account balance each fall by `amount`; nothing else changes |
| Ledger.SystemTransferFromDataAccountFails | src/processor.rs:1022-1037 | a lamport transfer out of an account that carries data always fails |
| Handlers.RequiredLamports | src/processor.rs:185-188 | `max(rent_min, 1)` saturating-minus the current lamports: never negative, zero once the account holds that much, otherwise tops it up exactly |
| Handlers.ReadState | src/processor.rs:408-412 | reading the first STATE_SIZE bytes succeeds iff the data is that long (a short slice fails the program), and the record read is what those bytes encode |
| Handlers.WriteState | src/processor.rs:236-237 | writing the record needs STATE_SIZE bytes of data and touches no token account or mint |
| Handlers.InitializeChecks | src/processor.rs:124-242 | the checks pass iff every account check passes (derived position key, signing authority, the position's associated vault, the named mint, the PT and YT mint keys derived for the mint with the position key as program id, the token and system programs) and the position is not yet owned by the program; they answer TokenizerAlreadyInitialized iff every account check passes and the position is owned by the program; success returns the computed expiry date |
| Handlers.InitializeTokenizer | src/processor.rs:105-243 | initialize succeeds only when its checks pass |
| Handlers.InitializeMintsChecks | src/processor.rs:258-318 | passing the checks means a signing authority, the token program and the position key derived under the token program's key; for an initialized position, a readable record naming these PT, YT and underlying mints, this expiry date and the position's associated vault; otherwise PT and YT mint keys derived from the position under the token program's key |
| Handlers.InitializeMints | src/processor.rs:245-346 | initializing the mints succeeds only when its checks pass |
| Handlers.InitializeTokenizerAndMints | src/processor.rs:348-398 | with fewer than nine accounts it fails with NotEnoughAccountKeys; it succeeds only when the position checks pass on its first six-account sub-list |
| Handlers.DepositChecks | src/processor.rs:400-435 | passing the checks means a program-owned position, the recorded vault, a signing user whose underlying account is their associated account, and the token program |
| Handlers.DepositUnderlying | src/processor.rs:400-457 | deposit succeeds only when its checks pass |
| Handlers.TokenizeChecks | src/processor.rs:459-494 | passing the checks means a program-owned position not yet expired (`now == expiry` still passes), the recorded PT or YT mint, and the user's associated account of that mint |
| Handlers.EnsureTokenAccount | src/processor.rs:497-520 | an account the token program owns is left alone; otherwise creation needs the system program and a signing user, adds at most the associated account, and keeps every existing account and balance |
| Handlers.Nth | src/processor.rs:497-503 | the optional trailing account is present iff the list is long enough |
| Handlers.Tokenize | src/processor.rs:459-624 | tokenizing succeeds only when its checks pass |
| Handlers.DepositAndTokenize | src/processor.rs:626-667 | with fewer than nine accounts it fails with NotEnoughAccountKeys; it succeeds only when the deposit checks pass on its deposit sub-list |
| Handlers.RedeemChecks | src/processor.rs:717-778 | passing the checks means a program-owned position, the recorded vault and mints, the user's associated accounts, and, in Mature mode, an expiry date before now |
| Handlers.RedeemPrincipal | src/processor.rs:717-841 | redemption succeeds only when its checks pass |
| Handlers.ClaimChecks | src/processor.rs:843-889 | passing the checks means a program-owned position, the recorded vault and YT mint, and the user's associated accounts; there is no expiry test |
| Handlers.ClaimYield | src/processor.rs:843-954 | a claim succeeds only when its checks pass |
| Handlers.Payout | src/processor.rs:781-838 | a payout succeeds only for a signing user, and then the position token's supply has fallen by exactly `amount` |
| Handlers.RedeemPrincipalAndYield | src/processor.rs:669-711 | with fewer than ten accounts it fails with NotEnoughAccountKeys; it succeeds only when the redemption checks pass on its seven-account sub-list |
| Handlers.TerminateTokenizer | src/processor.rs:989-1045 | fewer than five accounts fail with NotEnoughAccountKeys, an unreadable record with the read error, an unexpired position with ExpiryDateNotElapsed; success needs five accounts and an expired, readable record, and would leave the position with the system program and no data |
| Handlers.TerminateMints | src/processor.rs:1047-1114 | fewer than six accounts fail with NotEnoughAccountKeys, an unreadable record with the read error, an unexpired position with ExpiryDateNotElapsed; success needs six accounts and an expired, readable record |
| Handlers.Terminate | src/processor.rs:956-987 | with fewer than seven accounts it fails with NotEnoughAccountKeys; it succeeds only on a readable record whose expiry date has passed |
| Handlers.Dispatch | src/processor.rs:39-102 | each variant whose handler has its own checks function succeeds only when those checks pass; the initialize variant is checked with the vault key as PT mint, the mint as YT mint and the PT mint as underlying mint; the composites fail with fewer than seven accounts |
| Handlers.Process | src/processor.rs:30-37 | a foreign program id fails with IncorrectProgramId before decoding; undecodable data fails with InvalidInstructionData |
| HandlerProperties.KeepsAccounts | src/processor.rs:439-454 | a ledger that differs only in balances and supplies keeps every account's data, owner, lamports and record |
| HandlerProperties.RecordIsPlainAccount | src/processor.rs:408-412 | a readable record lives in a plain account, not a token account or mint |
| HandlerProperties.WriteStateReadBack | src/processor.rs:236-237 | a written record reads back unchanged, and the account keeps its owner and lamports |
| HandlerProperties.InitializeCreatesAccounts | src/processor.rs:183-225 | after creation the position is a plain account of 177 bytes owned by the program with `max(rent, 1)` lamports; the token accounts gain only the vault key's associated account, empty; mints are unchanged |
| HandlerProperties.InitializeWritesRecord | src/processor.rs:183-238 | a successful initialize leaves the position owned by the program, with the rent lamports and the record holding the supplied keys, the computed expiry date and the APY; only the vault's associated account is added |
| HandlerProperties.InitializeOnlyOnce | src/processor.rs:183-242 | once a position is initialized, initializing it again fails |
| HandlerProperties.InitializeNeedsPositionSignature | src/processor.rs:183-204 | without the position's own signature initialize always fails, with MissingRequiredSignature for an unfunded position whose checks pass |
| HandlerProperties.InitializeCheckOrder | src/processor.rs:124-242 | the first failing check decides the error: position key, signature, vault, mint account, PT mint, YT mint, token program, system program; with all passing, an owned position gives TokenizerAlreadyInitialized and any other gives the expiry date; InvalidExpiryDate never occurs |
| HandlerProperties.InitializeMintsCreatesBoth | src/processor.rs:320-345 | both mint accounts are distinct and were uninitialized; both become mints with the position as authority, no supply and six decimals; nothing else changes |
| HandlerProperties.InitializeTokenizerAndMintsFails | src/processor.rs:348-398 | the composite always fails; when its initialize step passes, it fails with NotEnoughAccountKeys |
| HandlerProperties.ProcessEncoded | src/processor.rs:30-102 | processing the encoding of a command under the program id runs that command's handler |
| HandlerProperties.InitializeDispatchSwapsKeys | src/processor.rs:40-112 | the initialize dispatch passes the vault, mint, PT mint and YT mint positionally, so the record stores the vault key as principal mint, the mint as yield mint, the PT mint as underlying mint and the YT mint as vault |
| HandlerProperties.ClientInstructionsAsProcessed | src/processor.rs:56-84 | under the assumed arm order, a client's InitializeMints, DepositUnderlying and TokenizePrincipal/Yield run the processor handlers of the same name |
| HandlerProperties.ClientRedeemInstructionsAsProcessed | src/processor.rs:84-93 | under the assumed arm order, a client's DepositAndTokenize and RedeemPrincipalAndYield run those handlers; RedeemPrincipalOnly runs mature redemption and BurnPrincipalToken runs the yield claim |
| HandlerProperties.ClientInstructionsRefused | src/processor.rs:35-37 | under the assumed arm order, a client's initialize, initialize-and-mints, ClaimYield and BurnYieldToken bytes are refused with InvalidInstructionData |
| HandlerProperties.DepositMovesUnderlying | src/processor.rs:437-454 | a deposit moves exactly `amount` from the signer's account to the vault, both of one mint; no other balance or supply changes, and there is no expiry check |
| HandlerProperties.DepositIgnoresClock | src/processor.rs:400-457 | a deposit's outcome does not depend on the clock |
| HandlerProperties.EnsureTokenAccountKeepsRecord | src/processor.rs:497-520 | creating a user's token account keeps the position's record and owner |
| HandlerProperties.TokenizeMintsToUser | src/processor.rs:522-538 | tokenizing raises the PT (or YT) supply and the user's balance by `amount`, mints under the position's authority, changes no other balance and keeps the record |
| HandlerProperties.TokenizeExpiryGate | src/processor.rs:465-478 | for an initialized position with a readable record, the checks answer ExpiryDateElapsed iff the expiry date has passed, before any account check; after it, tokenizing fails with that error |
| HandlerProperties.TokenizeNeedsExistingAccount | src/processor.rs:497-520 | the account creation makes the associated account of the user's token account key, so a missing token account that is not its own associated address makes tokenizing fail |
| HandlerProperties.DepositAndTokenizeEffects | src/processor.rs:626-667 | on distinct accounts the vault, PT supply, YT supply and user's PT and YT balances each rise by `amount`, the user's underlying falls by `amount`, nothing else moves |
| HandlerProperties.DepositAndTokenizeStopsAtFirstError | src/processor.rs:626-667 | for every input with nine accounts: a failed deposit is the answer; after it, a failed principal tokenize is the answer; after both, the yield tokenize decides |
| HandlerProperties.DispatchedInitializeAndMintsNeedsChecks | src/processor.rs:60-75 | the dispatched initialize-and-mints succeeds only when the position checks pass on its first sub-list, with the keys in their declared roles |
| HandlerProperties.DispatchedDepositAndTokenizeNeedsChecks | src/processor.rs:85-87 | the dispatched deposit-and-tokenize succeeds only when the deposit checks pass on its deposit sub-list |
| HandlerProperties.DispatchedRedeemPrincipalAndYieldNeedsChecks | src/processor.rs:88-90 | the dispatched redeem-principal-and-yield succeeds only when the redemption checks pass on its sub-list |
| HandlerProperties.DispatchedTerminateNeedsExpiredRecord | src/processor.rs:97-101 | the three dispatched terminate variants succeed only on a readable record whose expiry date has passed |
| HandlerProperties.DepositAndTokenizeSteps | src/processor.rs:660-664 | deposit, then tokenize principal, then tokenize yield run on the sub-lists with the same amount |
| HandlerProperties.TokenizeBothSides | src/processor.rs:662-664 | the two tokenize steps raise both supplies and both user balances by `amount` |
| HandlerProperties.PayoutEffects | src/processor.rs:781-838 | the payout transfers from the vault, signed by the position, into the user's PT/YT account, then burns from it: the vault loses `amount`, the user's position-token balance ends where it started, the supply falls by `amount` |
| HandlerProperties.RedeemPaysNoUnderlying | src/processor.rs:805-838 | redemption only succeeds with a vault of the PT mint; the vault and PT supply fall by `amount` and the user's underlying balance does not change |
| HandlerProperties.MatureRedemptionGate | src/processor.rs:726-778 | for an initialized position with a readable record, mature redemption before the expiry date fails with ExpiryDateNotElapsed whatever the accounts; after it, checks and redemption give exactly what principal-and-yield mode gives |
| HandlerProperties.TokenizeAndMatureRedeemExclusive | src/processor.rs:476-745 | no clock reading lets the same position both tokenize and redeem at maturity |
| HandlerProperties.ClaimPaysNoUnderlying | src/processor.rs:918-951 | a claim only succeeds with a vault of the YT mint; the vault and YT supply fall by `amount` and the user's underlying balance does not change |
| HandlerProperties.ClaimIgnoresClock | src/processor.rs:843-954 | a claim's outcome does not depend on the clock |
| HandlerProperties.PayoutIgnoresClock | src/processor.rs:781-838 | the payout steps do not depend on the clock |
| HandlerProperties.RedeemPrincipalAndYieldFails | src/processor.rs:669-711 | the composite always fails with NotEnoughAccountKeys |
| HandlerProperties.TerminateTokenizerFails | src/processor.rs:989-1045 | terminating a position always fails; once the vault is closed it fails with InvalidArgument, because the lamport transfer comes from an account holding data |
| HandlerProperties.TerminateMintsFails | src/processor.rs:1047-1114 | terminating the mints always fails: the close of a key that is not a token account (a mint) is refused, and if both closes succeed the transfer out of the data-carrying position account is refused |
| HandlerProperties.TerminateFails | src/processor.rs:956-987 | the composite always fails with NotEnoughAccountKeys |
| Processor.Chain.constructor | src/processor.rs:30 | the chain starts from the given ledger |
| Processor.Chain.Commit | src/processor.rs:30 | the fields become the given ledger |
| Processor.Chain.Step | src/processor.rs:191-204 | a successful call's ledger is installed; an error leaves the fields unchanged |
| Processor.Chain.InitializeTokenizer | src/processor.rs:105-243 | the ledger becomes what `Handlers.InitializeTokenizer` computes, or stays as it was with the same error |
| Processor.Chain.InitializeMints | src/processor.rs:245-346 | as `Handlers.InitializeMints`, all or nothing |
| Processor.Chain.InitializeTokenizerAndMints | src/processor.rs:348-398 | as `Handlers.InitializeTokenizerAndMints`, all or nothing |
| Processor.Chain.DepositUnderlying | src/processor.rs:400-457 | as `Handlers.DepositUnderlying`, all or nothing |
| Processor.Chain.Tokenize | src/processor.rs:459-624 | as `Handlers.Tokenize`, all or nothing |
| Processor.Chain.DepositAndTokenize | src/processor.rs:626-667 | as `Handlers.DepositAndTokenize`: a failing later step rolls back the earlier ones |
| Processor.Chain.Payout | src/processor.rs:781-838 | as `Handlers.Payout`, all or nothing |
| Processor.Chain.RedeemPrincipal | src/processor.rs:717-841 | as `Handlers.RedeemPrincipal`, all or nothing |
| Processor.Chain.ClaimYield | src/processor.rs:843-954 | as `Handlers.ClaimYield`, all or nothing |
| Processor.Chain.RedeemPrincipalAndYield | src/processor.rs:669-711 | as `Handlers.RedeemPrincipalAndYield`: a failing claim rolls back the redemption |
| Processor.Chain.TerminateTokenizer | src/processor.rs:989-1045 | as `Handlers.TerminateTokenizer`, all or nothing |
| Processor.Chain.TerminateMints | src/processor.rs:1047-1114 | as `Handlers.TerminateMints`, all or nothing |
| Processor.Chain.Terminate | src/processor.rs:956-987 | as `Handlers.Terminate`: a failing second step rolls back the first |
| Processor.Chain.Dispatch | src/processor.rs:39-102 | as `Handlers.Dispatch`, all or nothing |
| Processor.Chain.Process | src/processor.rs:30-103 | as `Handlers.Process`, all or nothing |

## How the model follows the code

In these places the model does what the code does, not what the names suggest:

- **Initialize dispatch.** The dispatch passes (vault, mint, PT mint, YT mint) to a handler
  declared as (PT mint, YT mint, underlying mint, vault). The stored record therefore swaps
  those roles (`HandlerProperties.InitializeDispatchSwapsKeys`).
- **Derivation program ids.** The processor calls the `src/lib.rs` derivations, whose first
  parameter is the program id:
  - initialize derives the position under the authority's key, and the mints under the
    position's key;
  - initialize-mints derives under the token program's key.
- **Token-account creation.** The creation of a missing user account passes the account's own
  key as the wallet and the user's key as the token program. It therefore succeeds only when
  the user *is* the token program, and the account it creates is the associated account of
  that key.
- **Payout destination.** Redemption and claims transfer from the vault to the user's PT or YT
  account, not to the underlying account. A transfer needs one mint on both sides, so they
  succeed only when the vault holds the PT or YT mint, and the user's underlying balance never
  changes.
- **Composite handlers.** The composites pass account sub-lists shorter than the handlers they
  call require:
  - initialize-and-mints;
  - redeem-principal-and-yield;
  - terminate, which also swaps its two sub-lists.

  All three always fail.
- **Terminate steps.** Both terminate handlers close token-program accounts and then transfer
  lamports out of the position account with the system program. That account holds the record,
  and the system program refuses a transfer from an account with data, so neither handler can
  succeed. In `TerminateMints` the first refusal usually comes earlier: `close_account` accepts
  only token accounts, so the close of a mint is refused; if both closes succeed, the transfer
  out of the data-carrying position account is refused.
- **Record and enum mismatches.**
  - The record written by initialize leaves `bump` and `authority` at zero; the code builds it
    without them.
  - The processor's instruction enum (fixed APY, mature redemption, three terminate variants)
    is not the one in `src/instruction.rs`. `Commands` gives it its own Borsh layout, one
    variant-index byte in match-arm order.
- **Accounts passed to the calls.** The runtime refuses a cross-program call whose instruction
  names an account the caller did not pass. The model does not track these lists. Four calls
  name an account they are not given:
  - `initialize_mint` (src/processor.rs:322-343) is given the mint and the token program, but
    not the rent sysvar;
  - the redemption and claim transfers (src/processor.rs:805-819, 918-932) are not given the
    destination, the user's PT or YT account;
  - the tokenize account creation (src/processor.rs:505-517) is not given the mint or the system
    program;
  - initialize's associated-account creation (src/processor.rs:209-225) is not given the
    created address, the associated account of the vault key.

  `HandlerProperties.InitializeMintsCreatesBoth`, `PayoutEffects`, `RedeemPaysNoUnderlying` and
  `ClaimPaysNoUnderlying` therefore describe outcomes the runtime refuses before the callee runs.
- **Initialize signature.** The position key is a program-derived address, which has no
  private key. `create_account` for it is made with a plain `invoke`, not `invoke_signed`
  (src/processor.rs:191-204), so the position never signs and initialize fails on chain
  (`HandlerProperties.InitializeNeedsPositionSignature`). `InitializeWritesRecord`,
  `InitializeOnlyOnce` and `InitializeDispatchSwapsKeys` describe the outcome for a position
  account that signs, which the runtime does not produce for a derived address.

## Left out

- The clock is the `now` parameter of `Ledger.Env`. The wall-clock `to_expiry_date` of `src/lib.rs` (chrono, `Utc::now`) is replaced by the timestamp version of `program/src/lib.rs`, which rounds the same sum toward zero to a multiple of 86400: down to the start of the day for a non-negative sum, up for a negative one.
- The rent minimum is the `rentMinimum` parameter. A failing `Rent::get` or `Clock::get` is not modelled.
- `find_program_address` and `get_associated_token_address` are opaque function parameters (`find`, `assoc`). Nothing about hashing is assumed: where two addresses could coincide, the model proves only that a coincidence is a collision of `find` between two different seed lists.
- The account lists passed to `invoke` and `invoke_signed` are not modelled, so the runtime's refusal of a call that names an account not passed (`initialize_mint`, the redemption and claim transfers, the tokenize and initialize associated-account creations) is not modelled.
- The signer seeds of `invoke_signed` are not modelled: a signed call is treated as signed by the position.
- Writable flags, rent exemption of token accounts, token-account lamports, SPL delegates, frozen accounts, multisig authorities and native SOL accounts are not modelled.
- Handlers.TerminateTokenizer: the `try_borrow()` error branch on the position's lamports (src/processor.rs:1027-1030) is not modelled; nothing in the handler holds a borrow of those lamports at that point, and the system transfer right after it always fails.
- The Borsh I/O error of `serialize` into a too-short buffer is modelled as a failed write; panics from slicing a short account are modelled as ProgramFailedToComplete.
- Lamports are unbounded naturals; overflow of lamport sums in the system program is not modelled. Token balances and supplies are `u64`, and an overflowing mint fails.
- cli/src/main.rs (RPC client, key files, printing) and program/src/entrypoint.rs (a forwarding entry point) are not part of this model.
- The AMM initializer and the swap commands the CLI declares (cli/src/main.rs:49, `unimplemented!()` at cli/src/main.rs:241 and 513-515) have no on-chain code and are not modelled.
- Commands.Tag: the processor's enum is not declared in `src/instruction.rs`, so its Borsh variant indices are an assumption: the match-arm order of src/processor.rs:40-96 gives the indices, and `fixed_apy` is the last field of the initialize variants.
- Common.WrapI64: the wrap-around models a release build without `overflow-checks`; with them the addition in program/src/lib.rs:66 panics instead, and the build profile is not part of this model.
