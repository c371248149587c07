/**
 * The extra-account-meta publisher (`initialize_extra_account_meta_list`,
 * lines 195-263, with the `init` constraint of lines 273-279). It builds the
 * fixed list of records that tells the token-2022 program which further
 * accounts to pass on every `Execute`, and stores it once per mint under the
 * seeds ("extra-account-metas", mint).
 */
module ExtraMetas {
  import opened Types
  import opened Accounts

  /** A seed of a derived address; the list uses only literal seeds. */
  datatype Seed = Literal(bytes: seq<Byte>)

  /** Where a record's address comes from: a fixed key or a derivation recipe. */
  datatype AddressConfig = FixedKey(key: Pubkey) | FromSeeds(seeds: seq<Seed>)

  /** One `ExtraAccountMeta` record. */
  datatype ExtraAccountMeta = ExtraAccountMeta(address: AddressConfig, isSigner: bool, isWritable: bool)

  /** The seed prefix of the metadata account, `b"extra-account-metas"`. */
  const EXTRA_ACCOUNT_METAS_SEED: seq<Byte> := Ascii("extra-account-metas")

  /** A record's address configuration holds at most 32 bytes. */
  const ADDRESS_CONFIG_LENGTH: nat := 32

  /** `ExtraAccountMeta::new_with_pubkey`. */
  function NewWithPubkey(key: Pubkey, isSigner: bool, isWritable: bool): (m: ExtraAccountMeta)
    ensures m.address == FixedKey(key) && m.isSigner == isSigner && m.isWritable == isWritable
  {
    ExtraAccountMeta(FixedKey(key), isSigner, isWritable)
  }

  /** Bytes a packed seed recipe takes: a type tag and a length byte per literal, then its bytes. */
  function PackedLength(seeds: seq<Seed>): nat {
    if seeds == [] then 0 else 2 + |seeds[0].bytes| + PackedLength(seeds[1..])
  }

  /** `ExtraAccountMeta::new_with_seeds`: fails when the recipe does not fit. */
  function NewWithSeeds(seeds: seq<Seed>, isSigner: bool, isWritable: bool): (r: Result<ExtraAccountMeta>)
    ensures r.Success? <==> PackedLength(seeds) <= ADDRESS_CONFIG_LENGTH
    ensures r.Success? ==> r.value == ExtraAccountMeta(FromSeeds(seeds), isSigner, isWritable)
    ensures r.Failure? ==> r.error == SeedConfigsTooLarge
  {
    if PackedLength(seeds) > ADDRESS_CONFIG_LENGTH then Failure(SeedConfigsTooLarge)
    else Success(ExtraAccountMeta(FromSeeds(seeds), isSigner, isWritable))
  }

  /** The recipe of the delegated authority: the single literal seed "delegate". */
  function DelegateRecipe(): seq<Seed> {
    [Literal(DELEGATE_SEED)]
  }

  /** The delegate record of lines 203-209: derived from "delegate", neither signer nor writable. */
  const DELEGATE_META: ExtraAccountMeta := ExtraAccountMeta(FromSeeds(DelegateRecipe()), false, false)

  /**
   * The one record whose construction can fail is built: its recipe packs
   * into 10 of the 32 bytes, so the `?` at line 209 never returns early.
   */
  lemma DelegateRecordBuilds()
    ensures NewWithSeeds(DelegateRecipe(), false, false) == Success(DELEGATE_META)
  {
  }

  /** The records built at lines 198-227, in order. */
  function PublishedList(ctx: InitializeAccounts): (l: seq<ExtraAccountMeta>)
    ensures |l| == 15
    ensures forall i :: 0 <= i < |l| ==> (l[i].isSigner <==> i == 14)
  {
    [
      NewWithPubkey(ctx.mint, false, true),
      NewWithPubkey(ctx.vault1Mint, false, true),
      DELEGATE_META,
      NewWithPubkey(ctx.tokenProgram2022, false, true),
      NewWithPubkey(ctx.ammConfig, false, true),
      NewWithPubkey(ctx.poolState, false, true),
      NewWithPubkey(ctx.ownerLpToken, false, true),
      NewWithPubkey(ctx.token0Account, false, true),
      NewWithPubkey(ctx.token1Account, false, true),
      NewWithPubkey(ctx.token0Vault, false, true),
      NewWithPubkey(ctx.token1Vault, false, true),
      NewWithPubkey(ctx.tokenProgram, false, true),
      NewWithPubkey(ctx.lpMint, false, true),
      NewWithPubkey(ctx.systemProgram, false, true),
      NewWithPubkey(ctx.authority, true, false)
    ]
  }

  /**
   * The list has 15 records, and its flags are: the delegate recipe at
   * index 2 neither signs nor is written, the authority at the end signs
   * and is read-only, and every other record is a fixed key that is
   * writable and does not sign.
   */
  lemma PublishedListShape(ctx: InitializeAccounts)
    ensures var l := PublishedList(ctx);
      && |l| == 15
      && l[2] == ExtraAccountMeta(FromSeeds([Literal(DELEGATE_SEED)]), false, false)
      && l[14] == ExtraAccountMeta(FixedKey(ctx.authority), true, false)
      && forall i :: 0 <= i < 15 && i != 2 && i != 14 ==>
           l[i].address.FixedKey? && !l[i].isSigner && l[i].isWritable
  {
  }

  /** The address a record stands for, given the program's address derivation. */
  function Resolve(m: ExtraAccountMeta, derive: seq<seq<Byte>> -> Pubkey): Pubkey {
    match m.address
    case FixedKey(k) => k
    case FromSeeds(seeds) => derive(SeedBytes(seeds))
  }

  function SeedBytes(seeds: seq<Seed>): (r: seq<seq<Byte>>)
    ensures |r| == |seeds|
    ensures forall i :: 0 <= i < |seeds| ==> r[i] == seeds[i].bytes
  {
    seq(|seeds|, i requires 0 <= i < |seeds| => seeds[i].bytes)
  }

  function ResolveAll(metas: seq<ExtraAccountMeta>, derive: seq<seq<Byte>> -> Pubkey): (r: seq<Pubkey>)
    ensures |r| == |metas|
    ensures forall i :: 0 <= i < |metas| ==> r[i] == Resolve(metas[i], derive)
  {
    seq(|metas|, i requires 0 <= i < |metas| => Resolve(metas[i], derive))
  }

  /**
   * The records name, in order, the fields of `InitializeExtraAccountMetaList`
   * from `mint` to `authority` (everything but the payer and the metadata
   * account itself), provided the delegate is the address derived from
   * "delegate", as its `seeds` constraint demands.
   */
  lemma ListFollowsInitializeStruct(ctx: InitializeAccounts, derive: seq<seq<Byte>> -> Pubkey)
    requires ctx.delegate == derive([DELEGATE_SEED])
    ensures ResolveAll(PublishedList(ctx), derive) == ctx.Keys()[2..]
  {
    PublishedListShape(ctx);
    var l := PublishedList(ctx);
    assert SeedBytes([Literal(DELEGATE_SEED)]) == [DELEGATE_SEED];
    assert Resolve(l[2], derive) == ctx.delegate;
  }

  /**
   * Positional correspondence: with its leading `mint` record removed, the
   * list resolves to the `TransferHook` fields from `vault_1_mint` to
   * `authority`, in declaration order, for a transfer over the same pool.
   */
  lemma ListFollowsTransferHookStruct(
    init: InitializeAccounts, hook: TransferHookAccounts, derive: seq<seq<Byte>> -> Pubkey)
    requires SamePool(init, hook)
    requires hook.delegate == derive([DELEGATE_SEED])
    ensures ResolveAll(PublishedList(init)[1..], derive) == hook.Keys()[5..]
  {
    ListFollowsInitializeStruct(init, derive);
    var r := ResolveAll(PublishedList(init), derive);
    assert ResolveAll(PublishedList(init)[1..], derive) == r[1..];
    SamePoolKeys(init, hook);
  }

  /**
   * The accounts of an `Execute` as the transfer-hook interface assembles
   * them: source, mint, destination, owner and the metadata account, then
   * one account per published record, in order.
   */
  function ExecuteAccounts(hook: TransferHookAccounts, metas: seq<ExtraAccountMeta>,
                           derive: seq<seq<Byte>> -> Pubkey): (r: seq<Pubkey>)
    ensures |r| == 5 + |metas|
    ensures r[..5] == hook.Keys()[..5]
    ensures r[5..] == ResolveAll(metas, derive)
  {
    hook.Keys()[..5] + ResolveAll(metas, derive)
  }

  /**
   * With the list as written, the assembled accounts are one longer than
   * the `TransferHook` struct, and position 5, where the struct declares
   * `vault_1_mint`, holds the mint a second time.
   */
  lemma ExecuteAccountsRepeatMint(
    init: InitializeAccounts, hook: TransferHookAccounts, derive: seq<seq<Byte>> -> Pubkey)
    requires SamePool(init, hook)
    ensures var a := ExecuteAccounts(hook, PublishedList(init), derive);
      |a| == |hook.Keys()| + 1 && a[5] == hook.mint && a[1] == hook.mint
  {
    PublishedListShape(init);
  }

  /**
   * How Anchor binds the `TransferHook` struct: field by field, from the
   * accounts of the instruction in order.
   */
  function BindTransferHook(keys: seq<Pubkey>): (ctx: TransferHookAccounts)
    requires |keys| >= 19
    ensures ctx.Keys() == keys[..19]
  {
    TransferHookAccounts(keys[0], keys[1], keys[2], keys[3], keys[4], keys[5], keys[6], keys[7],
                         keys[8], keys[9], keys[10], keys[11], keys[12], keys[13], keys[14],
                         keys[15], keys[16], keys[17], keys[18])
  }

  /**
   * With the list as written, binding the `Execute` accounts by position
   * shifts every field from `vault_1_mint` on by one record: the struct's
   * `vault_1_mint` receives the mint, its `delegate` receives `vault_1_mint`,
   * its `token_program_2022` the delegate, and so on to `authority`, which
   * receives the system program.
   */
  lemma PositionalBindingShifts(
    init: InitializeAccounts, hook: TransferHookAccounts, derive: seq<seq<Byte>> -> Pubkey)
    requires SamePool(init, hook)
    requires hook.delegate == derive([DELEGATE_SEED])
    ensures var bound := BindTransferHook(ExecuteAccounts(hook, PublishedList(init), derive));
      && bound.Keys()[5..] == init.Keys()[2..16]
      && bound.vault1Mint == init.mint
      && bound.delegate == init.vault1Mint
      && bound.tokenProgram2022 == init.delegate
      && bound.systemProgram == init.lpMint
      && bound.authority == init.systemProgram
  {
    var a := ExecuteAccounts(hook, PublishedList(init), derive);
    ListFollowsInitializeStruct(init, derive);
    assert a[5..20] == init.Keys()[2..];
    assert a[..19][5..] == a[5..19];
  }

  /**
   * The binding gives back the transfer's own context only when the
   * pool's accounts collapse: the `vault_1_mint` would have to be the mint
   * and the delegate would have to be `vault_1_mint`.
   */
  lemma PositionalBindingNeedsCollapse(
    init: InitializeAccounts, hook: TransferHookAccounts, derive: seq<seq<Byte>> -> Pubkey)
    requires SamePool(init, hook)
    requires hook.delegate == derive([DELEGATE_SEED])
    requires BindTransferHook(ExecuteAccounts(hook, PublishedList(init), derive)) == hook
    ensures hook.vault1Mint == hook.mint && hook.delegate == hook.vault1Mint
  {
    PositionalBindingShifts(init, hook, derive);
  }

  /** The list without its leading mint record: one record per struct field after the fixed five. */
  function IntendedList(ctx: InitializeAccounts): (l: seq<ExtraAccountMeta>)
    ensures |l| == 14
  {
    PublishedList(ctx)[1..]
  }

  /**
   * With the intended list, the `Execute` accounts are exactly the
   * `TransferHook` struct's fields in declaration order, so binding them by
   * position gives back the transfer's context.
   */
  lemma IntendedListBindsHook(
    init: InitializeAccounts, hook: TransferHookAccounts, derive: seq<seq<Byte>> -> Pubkey)
    requires SamePool(init, hook)
    requires hook.delegate == derive([DELEGATE_SEED])
    ensures ExecuteAccounts(hook, IntendedList(init), derive) == hook.Keys()
    ensures BindTransferHook(ExecuteAccounts(hook, IntendedList(init), derive)) == hook
  {
    ListFollowsTransferHookStruct(init, hook, derive);
    var a := ExecuteAccounts(hook, IntendedList(init), derive);
    assert a == a[..5] + a[5..];
    assert hook.Keys() == hook.Keys()[..5] + hook.Keys()[5..];
  }

  /** The storage the metadata lives in: a list per derived address, keyed by its seeds. */
  function MetaListSeeds(mint: Pubkey): seq<seq<Byte>> {
    [EXTRA_ACCOUNT_METAS_SEED, mint.bytes]
  }

  /** Distinct mints have distinct metadata accounts. */
  lemma MetaListSeedsInjective(a: Pubkey, b: Pubkey)
    ensures MetaListSeeds(a) == MetaListSeeds(b) <==> a == b
  {
  }

  type Storage = map<seq<seq<Byte>>, seq<ExtraAccountMeta>>

  datatype InitResult = InitResult(outcome: Outcome, storage: Storage)

  /**
   * The system program's `create_account` at a derived address: refused
   * when an account already exists there; otherwise the address holds a new,
   * empty account and no other address changes.
   */
  function CreateAccount(storage: Storage, key: seq<seq<Byte>>): (r: Result<Storage>)
    ensures r.Success? <==> key !in storage
    ensures r.Failure? ==> r.error == AccountAlreadyInUse
    ensures r.Success? ==> r.value == storage[key := []]
  {
    if key in storage then Failure(AccountAlreadyInUse) else Success(storage[key := []])
  }

  /**
   * `initialize_extra_account_meta_list` as written: the `init` constraint
   * (lines 273-279) creates the metadata account, then the handler calls
   * `create_account` for the same address again (lines 242-254) before
   * writing the list (lines 257-260). A failure rolls the whole
   * instruction back.
   */
  function InitializeAsWritten(storage: Storage, ctx: InitializeAccounts): InitResult {
    var key := MetaListSeeds(ctx.mint);
    match CreateAccount(storage, key)
    case Failure(e) => InitResult(Err(e), storage)
    case Success(created) =>
      match CreateAccount(created, key)
      case Failure(e) => InitResult(Err(e), storage)
      case Success(again) => InitResult(Ok, again[key := PublishedList(ctx)])
  }

  /**
   * As written, every initialisation fails: the second creation finds the
   * account the first one made. Nothing is ever published.
   */
  lemma InitializeAsWrittenAlwaysFails(storage: Storage, ctx: InitializeAccounts)
    ensures InitializeAsWritten(storage, ctx) == InitResult(Err(AccountAlreadyInUse), storage)
  {
  }

  /**
   * One call of `initialize_extra_account_meta_list` with a single creation
   * of the metadata account, that of the `init` constraint: it fails when
   * the account already exists; otherwise the account is created and the
   * list written into it.
   */
  function Initialize(storage: Storage, ctx: InitializeAccounts): (r: InitResult)
    ensures r.outcome.Ok? <==> MetaListSeeds(ctx.mint) !in storage
    ensures r.outcome.Err? ==> r.outcome.error == AccountAlreadyInUse && r.storage == storage
    ensures r.outcome.Ok? ==> MetaListSeeds(ctx.mint) in r.storage
                              && r.storage[MetaListSeeds(ctx.mint)] == PublishedList(ctx)
  {
    var key := MetaListSeeds(ctx.mint);
    if key in storage then InitResult(Err(AccountAlreadyInUse), storage)
    else InitResult(Ok, storage[key := PublishedList(ctx)])
  }

  /**
   * Write-once: a second initialisation for the same mint fails, whatever
   * accounts it is given, and leaves the first list in place.
   */
  lemma SecondInitializeFails(storage: Storage, first: InitializeAccounts, second: InitializeAccounts)
    requires MetaListSeeds(first.mint) !in storage
    requires second.mint == first.mint
    ensures var once := Initialize(storage, first);
      && once.outcome == Ok
      && Initialize(once.storage, second) == InitResult(Err(AccountAlreadyInUse), once.storage)
      && Initialize(once.storage, second).storage[MetaListSeeds(first.mint)] == PublishedList(first)
  {
  }

  /** Publishing for one mint leaves the lists of every other mint as they were. */
  lemma InitializeKeepsOtherMints(storage: Storage, ctx: InitializeAccounts, other: Pubkey)
    requires other != ctx.mint
    ensures var after := Initialize(storage, ctx).storage;
      && (MetaListSeeds(other) in after <==> MetaListSeeds(other) in storage)
      && (MetaListSeeds(other) in storage ==> after[MetaListSeeds(other)] == storage[MetaListSeeds(other)])
  {
    MetaListSeedsInjective(other, ctx.mint);
    var key, k := MetaListSeeds(ctx.mint), MetaListSeeds(other);
    assert k != key;
    if key !in storage {
      var list := PublishedList(ctx);
      assert Initialize(storage, ctx).storage == storage[key := list];
    }
  }

  /** The metadata accounts the program owns, updated in place by each initialisation. */
  class MetaListStore {
    var storage: Storage

    constructor ()
      ensures storage == map[]
    {
      storage := map[];
    }

    /** `initialize_extra_account_meta_list` for the mint and pool of ctx. */
    method InitializeExtraAccountMetaList(ctx: InitializeAccounts) returns (r: Outcome)
      modifies this
      ensures Initialize(old(storage), ctx) == InitResult(r, storage)
      ensures old(MetaListSeeds(ctx.mint) in storage) ==> r == Err(AccountAlreadyInUse) && storage == old(storage)
    {
      var key := MetaListSeeds(ctx.mint);
      // The `init` constraint: the account must not exist yet.
      if key in storage {
        return Err(AccountAlreadyInUse);
      }
      storage := storage[key := PublishedList(ctx)];
      r := Ok;
    }
  }
}
