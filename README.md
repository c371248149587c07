# txhookmagick transfer hook, modelled in Dafny

The program is a token-2022 transfer hook for one mint. On every transfer of
that mint the token-2022 program calls the hook with the transfer-hook
interface's `Execute { amount }` instruction. The hook takes a fee of one
percent of the amount and splits it three ways: half is burned from the
source account, a quarter is swapped on a constant-product pool, and the
remainder is sent to the pool as a "deposit". Before any transfer can run,
an `initialize_extra_account_meta_list` instruction publishes, once per mint,
the list of extra accounts that the token-2022 program must pass on each
`Execute`.

The model follows the program file `programs/txhookmagick/src/lib.rs`, part
by part:

- `types.dfy` (module `Types`) holds bytes, `u64` amounts as a subset type,
  32-byte addresses, the program errors and `Result`.
- `le_bytes.dfy` (module `LeBytes`) holds `u64::to_le_bytes` and
  `u64::from_le_bytes` over unbounded naturals, with both round trips.
- `fee.dfy` (module `Fee`) holds the fee split. It is compared with an
  independent description in which every share is a floor and the deposit
  absorbs the rounding.
- `accounts.dfy` (module `Accounts`) holds the two account structs, with
  fields in declaration order, and the instruction descriptors passed to
  `invoke_signed`.
- `dispatch.dfy` (module `Dispatch`) holds the `fallback` entry point. It
  unpacks the interface instruction and forwards only `Execute`, with the
  amount as its eight little-endian bytes.
- `orchestrator.dfy` (module `Orchestrator`) holds `transfer_hook`. `Plan`
  lists the three sub-calls it builds: burn, swap, deposit. `Run` issues
  them one after another and returns at the first failure, as the `?` after
  each `invoke_signed` does. A `Runtime` class carries the log of issued
  sub-calls, and the `TransferHook` and `Fallback` methods are proved equal
  to the functional traces.
- `extra_metas.dfy` (module `ExtraMetas`) holds the extra-account-meta
  publisher. It covers the 15 records and how they resolve to the account
  structs. It also covers write-once storage keyed by the seeds
  ("extra-account-metas", mint), as a pure function and as a class whose
  method updates the stored map. It also holds the initialisation as the
  code writes it, with the metadata account created twice.

The model keeps these behaviours of the program as it is written:

- The "deposit" sub-call carries a `SwapBaseInput` payload, just like the
  swap.
- Both pool calls ask for a minimum output of 0.
- Both payloads are the Borsh bytes of the two `u64` fields alone
  (`SwapBaseInput { .. }.try_to_vec()`, lines 85-89 and 143-147). They carry
  no pool-program instruction discriminator, so the pool program does not
  read them as a `SwapBaseInput` instruction. The model keeps the payload as
  the record of those two fields.
- The burn names the source account's owner as its signing authority. Yet
  the program signs only with the delegate's seeds.
- The burn builder accepts either token program id, token-2022's or the
  legacy one's, as the field `token_program_2022` (an `Interface` of token
  programs) does.

The list built at lines 198-227 has 15 records. It starts with the mint and
includes the system program. The accounts the transfer-hook interface
assembles for `Execute` are the five fixed ones followed by one per record,
and Anchor binds the `TransferHook` struct to them by position. Because of
the leading mint, the field `vault_1_mint` receives the mint, and every
later field receives the account meant for the field before it. The delegate field, for example, receives
`vault_1_mint`, so its seeds constraint fails unless the pool's accounts
coincide. The first row of "## Findings" records this.

The initialisation creates the metadata account twice: once by the `init`
constraint (lines 273-279) and once by the handler's `create_account`
(lines 242-254). The second creation finds the first one's account, and the
system program refuses it with AccountAlreadyInUse, so as written every
initialisation fails. The second row of "## Findings" records this. The
storage class and the write-once lemmas model a single creation, that of
the `init` constraint.

External programs are not modelled: token-2022's burn, the pool's swap and
the system program's account creation. A sub-call is modelled by its
descriptor, meaning program id, account metas, payload and signer seeds. Its
outcome is whatever a `respond` function answers, given the sub-calls issued
before it. Address derivation is a `derive` parameter from seeds to
address, and a PDA bump is a `bump` parameter.

## Model

| member | source | states |
|---|---|---|
| Fee.SplitMeetsDescription | programs/txhookmagick/src/lib.rs:26-32 | the computed split meets the floor description: fee is amount/100, burn is fee/2 and swap is fee/4, each given by its division bounds, and the three shares add up to the fee, so the deposit's subtraction never underflows; no share exceeds the amount; the swap is at most the burn and at most the deposit |
| Fee.SplitUnique | programs/txhookmagick/src/lib.rs:26-32 | exactly one split meets the floor description, and it is the one computed |
| Fee.DepositIsRemainder | programs/txhookmagick/src/lib.rs:28-32 | the deposit is the swapped quarter plus the rounding dust of the two floors, (fee mod 4 + 1) / 2, so it exceeds the swap by at most 2 |
| Fee.SmallAmountsPayNothing | programs/txhookmagick/src/lib.rs:26-32 | an amount below 100 pays no fee and no share |
| Fee.SplitMonotone | programs/txhookmagick/src/lib.rs:26-30 | a larger amount never gives a smaller fee, burn or swap |
| Fee.SplitOfHundred | programs/txhookmagick/src/lib.rs:26-32 | 100 splits as fee 1, burn 0, swap 0, deposit 1 |
| Fee.SplitOfThousand | programs/txhookmagick/src/lib.rs:26-32 | 1000 splits as fee 10, burn 5, swap 2, deposit 3 |
| Fee.SplitOfTwoHundredFifty | programs/txhookmagick/src/lib.rs:26-32 | 250 splits as fee 2, burn 1, swap 0, deposit 1 |
| Fee.SplitOfFiveHundred | programs/txhookmagick/src/lib.rs:26-32 | 500 splits as fee 5, burn 2, swap 1, deposit 2 |
| LeBytes.ToLeBytes | programs/txhookmagick/src/lib.rs:187 | to_le_bytes gives 8 bytes that read back, little-endian, as the amount |
| LeBytes.FromLeBytes | programs/txhookmagick/src/lib.rs:181 | from_le_bytes of 8 bytes is the u64 whose to_le_bytes they are |
| LeBytes.DecodeEncode | programs/txhookmagick/src/lib.rs:187 | reading back the n little-endian bytes of a number below 256^n gives the number |
| LeBytes.EncodeDecode | programs/txhookmagick/src/lib.rs:187 | encoding the number a byte string reads as gives back the byte string |
| LeBytes.LeRoundTrip | programs/txhookmagick/src/lib.rs:187 | from_le_bytes(to_le_bytes(x)) is x for every u64 |
| LeBytes.LeBytesRoundTrip | programs/txhookmagick/src/lib.rs:187 | every 8-byte string is to_le_bytes of the u64 it reads as |
| LeBytes.ToLeBytesInjective | programs/txhookmagick/src/lib.rs:187 | two amounts have the same bytes if and only if they are equal |
| LeBytes.ToLeBytesExample | programs/txhookmagick/src/lib.rs:187 | the least significant byte comes first: 500 is f4 01 00 00 00 00 00 00 |
| Dispatch.Unpack | programs/txhookmagick/src/lib.rs:181 | every failure is InvalidInstructionData; the result is Execute exactly when the data has 16 bytes or more and starts with the Execute discriminator; the decoded amount's bytes are bytes 8 to 16 |
| Dispatch.Forward | programs/txhookmagick/src/lib.rs:181-193 | the fallback forwards something exactly when the payload is a complete Execute, and then it forwards exactly the amount's 8 bytes; otherwise it fails with InvalidInstructionData |
| Dispatch.ForwardExecute | programs/txhookmagick/src/lib.rs:185-190 | an Execute payload with any trailing bytes forwards the amount's 8 bytes, which read back as the amount |
| Dispatch.ForwardRejectsOtherInstructions | programs/txhookmagick/src/lib.rs:192 | any other discriminator is rejected with InvalidInstructionData |
| Dispatch.ForwardRejectsShortExecute | programs/txhookmagick/src/lib.rs:181 | a payload shorter than 16 bytes is rejected with InvalidInstructionData |
| Accounts.SamePoolKeys | programs/txhookmagick/src/lib.rs:268-327 | over the same pool, the initialisation struct from vault_1_mint on lists the same addresses in the same order as the hook struct (lines 331-394) from vault_1_mint on, and both hold the same mint |
| Accounts.WritableMeta | programs/txhookmagick/src/lib.rs:59-140 | `AccountMeta::new(key, is_signer)` names the key, signs as given and is writable |
| Accounts.ReadonlyMeta | programs/txhookmagick/src/lib.rs:34-41 | `AccountMeta::new_readonly(key, is_signer)`, which the burn builder uses for its authority, names the key, signs as given and is read-only |
| Orchestrator.DelegateSignerSeeds | programs/txhookmagick/src/lib.rs:43-45 | the signer seeds are "delegate" followed by the delegate's one-byte bump |
| Orchestrator.BurnInstruction | programs/txhookmagick/src/lib.rs:34-41 | the builder succeeds exactly when it is given token-2022's or the legacy token program's id, and otherwise fails with IncorrectProgramId; on success the burn goes to the id it was given, with the source account and mint writable, the owner as a read-only signer, and the burn amount |
| Orchestrator.DelegateSignedMetas | programs/txhookmagick/src/lib.rs:58-83 | the account list names the given addresses in order, all writable, with only the first (the delegate) a signer |
| Orchestrator.SwapInstructionShape | programs/txhookmagick/src/lib.rs:55-89 | SwapInstruction goes to the pool program with 12 writable accounts in source order, from the delegate to vault_1_mint, only the delegate signing, and a SwapBaseInput of the swap share with minimum output 0 |
| Orchestrator.DepositInstructionShape | programs/txhookmagick/src/lib.rs:112-147 | DepositInstruction goes to the pool program with 13 writable accounts in source order: the LP token account at 3, the legacy token program at 8 before token-2022 at 9, the LP mint last, only the delegate signing; its data is a SwapBaseInput of the deposit share with minimum output 0 |
| Orchestrator.Plan | programs/txhookmagick/src/lib.rs:24-167 | the hook plans sub-calls exactly when the token program is one the burn builder accepts, and then exactly three |
| Orchestrator.PlanShape | programs/txhookmagick/src/lib.rs:24-167 | the hook plans sub-calls exactly when the token program is token-2022's or the legacy one's, and otherwise fails with IncorrectProgramId before issuing anything; the plan is three calls signed with the delegate seeds: the burn of the burn share to the given token program with the owner as signer, then the swap, then the deposit |
| Orchestrator.Run | programs/txhookmagick/src/lib.rs:47-167 | the calls issued are a prefix of the planned calls; all of them are issued when the run succeeds, and at least one when it fails |
| Orchestrator.RunAllSucceed | programs/txhookmagick/src/lib.rs:47-172 | when every call is answered Ok, every call is issued and the run succeeds |
| Orchestrator.RunStopsAtFirstFailure | programs/txhookmagick/src/lib.rs:47-167 | when call k is the first to fail, exactly calls 0 to k are issued and the run fails with call k's error |
| Orchestrator.RunOfThree | programs/txhookmagick/src/lib.rs:47-172 | a run of three calls ends at the first failing answer with the calls up to it issued, and succeeds with all three issued when none fails |
| Orchestrator.HookTraceBounds | programs/txhookmagick/src/lib.rs:24-172 | HookTrace, what one invocation does, issues at most three sub-calls, and all three when it succeeds |
| Orchestrator.HookIssuesThreeWhenAllSucceed | programs/txhookmagick/src/lib.rs:24-172 | when all three sub-calls succeed the hook succeeds, having issued exactly the burn of the burn share, the swap of the swap share and the deposit of the deposit share |
| Orchestrator.HookStopsAtFirstFailure | programs/txhookmagick/src/lib.rs:47-167 | the first failing sub-call ends the invocation: it and the calls before it are issued, none after, and its error is returned |
| Orchestrator.HookRejectsOtherTokenProgram | programs/txhookmagick/src/lib.rs:34-41 | with a program that is neither token program nothing is issued and the result is IncorrectProgramId |
| Orchestrator.FallbackTraceBounds | programs/txhookmagick/src/lib.rs:176-194 | FallbackTrace, what one fallback does, issues at most three sub-calls whatever the payload |
| Orchestrator.FallbackRejectsNonExecute | programs/txhookmagick/src/lib.rs:181-193 | a payload that is not a complete Execute issues nothing and fails with InvalidInstructionData |
| Orchestrator.FallbackRunsHookOnAmount | programs/txhookmagick/src/lib.rs:185-190 | an Execute payload runs the hook on exactly its amount |
| Orchestrator.PlannedAccountsAreFields | programs/txhookmagick/src/lib.rs:34-167 | every account a planned sub-call names is a field of the TransferHook struct (lines 331-394) |
| Orchestrator.HookFieldsArePassed | programs/txhookmagick/src/lib.rs:198-227 | over the same pool, every field of the TransferHook struct is among the accounts the interface passes to Execute |
| Orchestrator.SubCallAccountsArePassed | programs/txhookmagick/src/lib.rs:34-167 | every account that any planned sub-call names is among the accounts the interface passes to Execute: the five fixed ones and the published records (lines 198-227); this is membership only, not the position Anchor binds by |
| Orchestrator.Runtime.constructor | programs/txhookmagick/src/lib.rs:47-52 | a fresh runtime has issued nothing |
| Orchestrator.Runtime.InvokeSigned | programs/txhookmagick/src/lib.rs:47-52 | invoke_signed appends the call to the log whatever its outcome, and returns the runtime's answer given the earlier calls |
| Orchestrator.InvokeInOrder | programs/txhookmagick/src/lib.rs:47-167 | the three invoke_signed(...)? append to the log exactly the calls of the run up to its first failure, and return the run's outcome |
| Orchestrator.TransferHook | programs/txhookmagick/src/lib.rs:24-173 | the handler appends to the log exactly the sub-calls of the trace the plan and the answers determine, and returns that trace's outcome |
| Orchestrator.Fallback | programs/txhookmagick/src/lib.rs:176-194 | the fallback appends to the log exactly the sub-calls of the hook run on the forwarded amount, or nothing when the payload is rejected, and returns that outcome |
| ExtraMetas.NewWithPubkey | programs/txhookmagick/src/lib.rs:200-225 | `ExtraAccountMeta::new_with_pubkey` gives a fixed-key record with the flags as given |
| ExtraMetas.NewWithSeeds | programs/txhookmagick/src/lib.rs:203-209 | a seed record is built exactly when its packed recipe fits in 32 bytes, and otherwise fails with SeedConfigsTooLarge |
| ExtraMetas.DelegateRecordBuilds | programs/txhookmagick/src/lib.rs:203-209 | the delegate record, from the single literal "delegate", neither signer nor writable, is always built, so its `?` never returns early |
| ExtraMetas.PublishedList | programs/txhookmagick/src/lib.rs:198-227 | the list has 15 records, and only the last, the authority, signs |
| ExtraMetas.PublishedListShape | programs/txhookmagick/src/lib.rs:198-227 | 15 records: the delegate recipe at index 2, neither signer nor writable; the authority last, signer and read-only; every other record a fixed key, writable and not a signer |
| ExtraMetas.ListFollowsInitializeStruct | programs/txhookmagick/src/lib.rs:198-227 | the records resolve, in order, to the initialisation struct's fields (lines 268-327) from mint to authority, when the delegate is the address derived from "delegate" |
| ExtraMetas.ListFollowsTransferHookStruct | programs/txhookmagick/src/lib.rs:198-227 | over the same pool, the records after the leading mint resolve, in order, to the hook struct's fields (lines 352-392) from vault_1_mint to authority |
| ExtraMetas.ExecuteAccounts | programs/txhookmagick/src/lib.rs:331-349 | the Execute accounts are the five fixed accounts, in struct order, followed by the resolution of each record, in order |
| ExtraMetas.BindTransferHook | programs/txhookmagick/src/lib.rs:331-394 | binding by position gives the struct whose fields, in declaration order, are the first 19 accounts |
| ExtraMetas.ExecuteAccountsRepeatMint | programs/txhookmagick/src/lib.rs:200 | with the list as written, the Execute accounts are one more than the hook struct's fields, and position 5 holds the mint a second time |
| ExtraMetas.PositionalBindingShifts | programs/txhookmagick/src/lib.rs:198-227 | with the list as written, binding by position shifts every field from vault_1_mint on by one record: vault_1_mint gets the mint, delegate gets vault_1_mint, token_program_2022 gets the delegate, system_program gets the LP mint and authority gets the system program |
| ExtraMetas.PositionalBindingNeedsCollapse | programs/txhookmagick/src/lib.rs:198-227 | the positional binding gives back the transfer's own context only if vault_1_mint is the mint and the delegate is vault_1_mint |
| ExtraMetas.IntendedList | programs/txhookmagick/src/lib.rs:198-227 | the list without its leading mint has 14 records, one per struct field after the fixed five |
| ExtraMetas.IntendedListBindsHook | programs/txhookmagick/src/lib.rs:198-227 | with the intended list, the Execute accounts are exactly the TransferHook struct's fields (lines 331-394) in order, and binding them by position gives back the transfer's context |
| ExtraMetas.MetaListSeedsInjective | programs/txhookmagick/src/lib.rs:273-279 | two mints have the same metadata account seeds if and only if they are the same mint |
| ExtraMetas.CreateAccount | programs/txhookmagick/src/lib.rs:242-254 | create_account is refused with AccountAlreadyInUse exactly when an account already exists at the address; otherwise the address holds a new empty account |
| ExtraMetas.InitializeAsWrittenAlwaysFails | programs/txhookmagick/src/lib.rs:242-279 | as written, with the init constraint's creation followed by the handler's create_account, every initialisation fails with AccountAlreadyInUse and leaves storage unchanged |
| ExtraMetas.Initialize | programs/txhookmagick/src/lib.rs:273-279 | with the single creation of the init constraint, initialisation succeeds exactly when no metadata account exists for the mint, and then stores the published list under its seeds; otherwise it fails with AccountAlreadyInUse and changes nothing |
| ExtraMetas.SecondInitializeFails | programs/txhookmagick/src/lib.rs:273-279 | write-once: the first initialisation for a mint succeeds; a second one for that mint fails with AccountAlreadyInUse, whatever its accounts, and the first list stays stored |
| ExtraMetas.InitializeKeepsOtherMints | programs/txhookmagick/src/lib.rs:234-260 | an initialisation for one mint neither creates, removes nor changes the list of any other mint |
| ExtraMetas.MetaListStore.constructor | programs/txhookmagick/src/lib.rs:273-279 | before any initialisation no metadata account exists |
| ExtraMetas.MetaListStore.InitializeExtraAccountMetaList | programs/txhookmagick/src/lib.rs:195-263 | the stored map and the outcome are those of the single-creation initialisation; when the account already exists the call fails with AccountAlreadyInUse and changes nothing |

## Findings

| source | as written | input that shows it | evidently intended | confidence | as-written member | corrected member |
|---|---|---|---|---|---|---|
| programs/txhookmagick/src/lib.rs:200 | the list of lines 198-227 starts with a record for the mint, which the interface already passes as its second fixed account; binding the Execute accounts to the TransferHook struct by position shifts every field from vault_1_mint on by one | any pool whose vault_1_mint differs from the mint: the struct's vault_1_mint field receives the mint and its delegate field receives vault_1_mint, which fails the delegate's seeds constraint | the records after the five fixed accounts are the struct's fields from vault_1_mint to authority, in order | high for the shift, medium for Anchor's rejection; not executed | ExtraMetas.PositionalBindingShifts | ExtraMetas.IntendedListBindsHook |
| programs/txhookmagick/src/lib.rs:242-254 | the handler calls create_account for the metadata account that the init constraint of lines 273-279 has already created | any first initialisation for a mint: the second creation is refused with AccountAlreadyInUse and the instruction is rolled back | the account is created once, by the init constraint, and the list is then written into it | medium; not executed | ExtraMetas.InitializeAsWrittenAlwaysFails | ExtraMetas.Initialize |

## Left out

- PDA derivation and bump search are not modelled. Addresses derived from seeds come from a `derive` parameter, and the bumps Anchor finds (`ctx.bumps`) are parameters too.
- Anchor's account validation is left out: owner, mint, address and seeds constraints, and account deserialisation. Only the constraints the properties need become preconditions: the delegate's seeds and the two structs describing the same pool. Binding by position is modelled (`BindTransferHook`), but the constraints are not checked on the bound accounts.
- Anchor's own 8-byte discriminator dispatch, which sends unknown instructions to `fallback`, is not modelled. `fallback`'s `program_id` and `accounts` are passed through unchanged, so the model passes the hook's context directly.
- The token-2022 burn, the pool's swap and the system program are external programs. Their effects on balances are not modelled. A sub-call's outcome comes from the runtime's `respond` function.
- The `AccountInfo` slices given to `invoke_signed` are not modelled. Their order does not affect a sub-call, since the runtime matches them to the instruction's metas by address.
- Transaction rollback after a failed sub-call is left out. The log records the sub-calls issued, not their lasting effects.
- The Borsh bytes of the pool payloads (`try_to_vec`) are not modelled. Serialising a two-`u64` record cannot fail, so the payload is kept as a record. The missing pool-program discriminator is described above, not modelled as bytes.
- Orchestrator.BurnInstruction: covers only the program-id check and the no-multisig form that line 39 uses. Token-2022's other argument checks are not modelled.
- `ExtraAccountMetaList::size_of`, the rent computation and the byte layout written by `ExtraAccountMetaList::init` are left out. Storage holds the list of records itself.
- The double creation of the metadata account (lines 242-254 after the `init` constraint of lines 273-279) is modelled only by `InitializeAsWritten`, and by its lemma that every such call fails. `Initialize`, `SecondInitializeFails`, `InitializeKeepsOtherMints` and `MetaListStore` model the `init` constraint's single creation. The rent payment is not modelled.
- Dispatch.Unpack: the payloads of the interface's initialise and update instructions are kept as raw bytes, and their own decoding errors are not modelled. For such a discriminator followed by a malformed payload, for example one with fewer than 4 length bytes, the source's `unpack` fails with its slice-decoding error, and `fallback` returns that error through the `?` of line 181.
- Dispatch.Forward: for an initialise or update discriminator with a malformed payload, the model returns InvalidInstructionData where the source returns the slice-decoding error of `unpack`.
- Dispatch.ForwardRejectsOtherInstructions: states InvalidInstructionData also for initialise and update discriminators with a malformed payload, for which the source's error code is the slice-decoding error.
- Dispatch.ForwardRejectsShortExecute: states InvalidInstructionData also for short initialise and update payloads, for which the source's error code is the slice-decoding error.
- Orchestrator.FallbackRejectsNonExecute: states InvalidInstructionData also for malformed initialise and update payloads, for which the source's error code differs. That no sub-call is issued still holds.
- The log message of line 171 is I/O and is left out.
- The error codes of the external programs are kept as an opaque `External(code)`. The token-2022, legacy token and pool program ids and the interface discriminators are opaque constants, not their byte values.
- The test file `tests/txhookmagick.ts` is an empty scaffold and has nothing to model.
