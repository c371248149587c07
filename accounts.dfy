/**
 * The account contexts of the two instructions (the `TransferHook` and
 * `InitializeExtraAccountMetaList` structs, whose field order is the order
 * in which Anchor reads accounts from the instruction), and the
 * instruction descriptors the hook passes to `invoke_signed`.
 */
module Accounts {
  import opened Types

  /** The token-2022 program id (`spl_token_2022::id()`), an opaque address. */
  const TOKEN_2022_PROGRAM_ID: Pubkey

  /** The legacy SPL Token program id (`spl_token::id()`), an opaque address. */
  const TOKEN_PROGRAM_ID: Pubkey

  /**
   * The ids the token-2022 instruction builders accept
   * (`check_spl_token_program_account`): token-2022's and the legacy one's.
   */
  predicate IsTokenProgram(id: Pubkey) {
    id == TOKEN_2022_PROGRAM_ID || id == TOKEN_PROGRAM_ID
  }

  /** The constant-product pool program id (`cp_swap::id()`), an opaque address. */
  const CP_SWAP_PROGRAM_ID: Pubkey

  /** The seed of the delegated authority, `b"delegate"`. */
  const DELEGATE_SEED: seq<Byte> := Ascii("delegate")

  /** The accounts of `transfer_hook`, in declaration order. */
  datatype TransferHookAccounts = TransferHookAccounts(
    sourceToken: Pubkey,
    mint: Pubkey,
    destinationToken: Pubkey,
    owner: Pubkey,
    extraAccountMetaList: Pubkey,
    vault1Mint: Pubkey,
    delegate: Pubkey,
    tokenProgram2022: Pubkey,
    ammConfig: Pubkey,
    poolState: Pubkey,
    ownerLpToken: Pubkey,
    token0Account: Pubkey,
    token1Account: Pubkey,
    token0Vault: Pubkey,
    token1Vault: Pubkey,
    tokenProgram: Pubkey,
    lpMint: Pubkey,
    systemProgram: Pubkey,
    authority: Pubkey)
  {
    /** The addresses in field order: the positions Anchor expects them at. */
    function Keys(): seq<Pubkey> {
      [sourceToken, mint, destinationToken, owner, extraAccountMetaList,
       vault1Mint, delegate, tokenProgram2022, ammConfig, poolState,
       ownerLpToken, token0Account, token1Account, token0Vault, token1Vault,
       tokenProgram, lpMint, systemProgram, authority]
    }
  }

  /** The accounts of `initialize_extra_account_meta_list`, in declaration order. */
  datatype InitializeAccounts = InitializeAccounts(
    payer: Pubkey,
    extraAccountMetaList: Pubkey,
    mint: Pubkey,
    vault1Mint: Pubkey,
    delegate: Pubkey,
    tokenProgram2022: Pubkey,
    ammConfig: Pubkey,
    poolState: Pubkey,
    ownerLpToken: Pubkey,
    token0Account: Pubkey,
    token1Account: Pubkey,
    token0Vault: Pubkey,
    token1Vault: Pubkey,
    tokenProgram: Pubkey,
    lpMint: Pubkey,
    systemProgram: Pubkey,
    authority: Pubkey)
  {
    function Keys(): seq<Pubkey> {
      [payer, extraAccountMetaList, mint, vault1Mint, delegate,
       tokenProgram2022, ammConfig, poolState, ownerLpToken, token0Account,
       token1Account, token0Vault, token1Vault, tokenProgram, lpMint,
       systemProgram, authority]
    }
  }

  /**
   * The two contexts describe the same pool: every account both structs
   * declare is the same address in both. The metadata published with the
   * first context is meant to resolve, at transfer time, to the second.
   */
  predicate SamePool(init: InitializeAccounts, hook: TransferHookAccounts) {
    && init.mint == hook.mint
    && init.vault1Mint == hook.vault1Mint
    && init.delegate == hook.delegate
    && init.tokenProgram2022 == hook.tokenProgram2022
    && init.ammConfig == hook.ammConfig
    && init.poolState == hook.poolState
    && init.ownerLpToken == hook.ownerLpToken
    && init.token0Account == hook.token0Account
    && init.token1Account == hook.token1Account
    && init.token0Vault == hook.token0Vault
    && init.token1Vault == hook.token1Vault
    && init.tokenProgram == hook.tokenProgram
    && init.lpMint == hook.lpMint
    && init.systemProgram == hook.systemProgram
    && init.authority == hook.authority
  }

  /**
   * Two contexts over the same pool list the shared accounts in the same
   * order: the initialisation struct from `vault_1_mint` on is the hook
   * struct from `vault_1_mint` on.
   */
  lemma SamePoolKeys(init: InitializeAccounts, hook: TransferHookAccounts)
    requires SamePool(init, hook)
    ensures init.Keys()[3..] == hook.Keys()[5..]
    ensures init.Keys()[2] == hook.Keys()[1] == hook.mint
  {
  }

  /** One entry of an instruction's account list. */
  datatype AccountMeta = AccountMeta(pubkey: Pubkey, isSigner: bool, isWritable: bool)

  /** `AccountMeta::new(key, is_signer)`: always writable. */
  function WritableMeta(key: Pubkey, isSigner: bool): (m: AccountMeta)
    ensures m.pubkey == key && m.isSigner == isSigner && m.isWritable
  {
    AccountMeta(key, isSigner, true)
  }

  /** `AccountMeta::new_readonly(key, is_signer)`. */
  function ReadonlyMeta(key: Pubkey, isSigner: bool): (m: AccountMeta)
    ensures m.pubkey == key && m.isSigner == isSigner && !m.isWritable
  {
    AccountMeta(key, isSigner, false)
  }

  /** The addresses named by an account list, in order. */
  function MetaKeys(metas: seq<AccountMeta>): (r: seq<Pubkey>)
    ensures |r| == |metas|
    ensures forall i :: 0 <= i < |metas| ==> r[i] == metas[i].pubkey
  {
    seq(|metas|, i requires 0 <= i < |metas| => metas[i].pubkey)
  }

  /** An instruction's data, as a record rather than its serialised bytes. */
  datatype Payload =
    | Burn(amount: U64)                                         // token-2022 `Burn`
    | SwapBaseInput(amountIn: U64, minimumAmountOut: U64)      // cp_swap `SwapBaseInput`

  /** The `Instruction` passed to `invoke_signed`. */
  datatype Instruction = Instruction(programId: Pubkey, accounts: seq<AccountMeta>, data: Payload)
}
