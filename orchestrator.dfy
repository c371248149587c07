/**
 * The sub-call orchestrator (`transfer_hook`, lines 24-173) and the
 * fallback entry point that feeds it (lines 176-194). The handler splits
 * the fee, builds three instructions and issues them with `invoke_signed`
 * in the order burn, swap, deposit, returning at the first one that fails.
 * The called programs are outside the model: a sub-call is its descriptor,
 * and its outcome is whatever the runtime answers.
 */
module Orchestrator {
  import opened Types
  import opened LeBytes
  import opened Fee
  import opened Accounts
  import opened Dispatch
  import opened ExtraMetas

  /** An `invoke_signed` call: the instruction and the seeds the program signs with. */
  datatype SubCall = SubCall(ix: Instruction, signerSeeds: seq<seq<Byte>>)

  /** The signer seeds of lines 43-45: `b"delegate"` and the delegate's bump. */
  function DelegateSignerSeeds(bump: Byte): (r: seq<seq<Byte>>)
    ensures |r| == 2 && r[0] == DELEGATE_SEED && r[1] == [bump]
  {
    [DELEGATE_SEED, [bump]]
  }

  /**
   * `spl_token_2022::instruction::burn` with no multisig signers, as line 39
   * passes: refuses any program id but token-2022's and the legacy token
   * program's; otherwise the instruction goes to the id it was given, the
   * source account and the mint are writable and the authority is a
   * read-only signer.
   */
  function BurnInstruction(tokenProgramId: Pubkey, account: Pubkey, mint: Pubkey, authority: Pubkey,
                           amount: U64): (r: Result<Instruction>)
    ensures r.Success? <==> IsTokenProgram(tokenProgramId)
    ensures r.Failure? ==> r.error == IncorrectProgramId
    ensures r.Success? ==>
      && r.value.programId == tokenProgramId
      && r.value.data == Burn(amount)
      && r.value.accounts == [AccountMeta(account, false, true), AccountMeta(mint, false, true),
                              AccountMeta(authority, true, false)]
  {
    if !IsTokenProgram(tokenProgramId) then Failure(IncorrectProgramId)
    else
      Success(Instruction(tokenProgramId,
        [WritableMeta(account, false), WritableMeta(mint, false), ReadonlyMeta(authority, true)],
        Burn(amount)))
  }

  /**
   * The account list of a pool call: every account writable (`AccountMeta::new`),
   * only the first, the delegate, a signer.
   */
  function DelegateSignedMetas(keys: seq<Pubkey>): (metas: seq<AccountMeta>)
    ensures |metas| == |keys| && MetaKeys(metas) == keys
    ensures forall i :: 0 <= i < |keys| ==> metas[i].isWritable && (metas[i].isSigner <==> i == 0)
  {
    seq(|keys|, i requires 0 <= i < |keys| => WritableMeta(keys[i], i == 0))
  }

  /** The accounts of the swap, lines 58-84, in order. */
  function SwapAccountKeys(ctx: TransferHookAccounts): seq<Pubkey> {
    [ctx.delegate, ctx.authority, ctx.ammConfig, ctx.poolState,
     ctx.token0Account, ctx.token1Account, ctx.token0Vault, ctx.token1Vault,
     ctx.tokenProgram2022, ctx.tokenProgram, ctx.mint, ctx.vault1Mint]
  }

  /** The accounts of the deposit, lines 115-142, in order. */
  function DepositAccountKeys(ctx: TransferHookAccounts): seq<Pubkey> {
    [ctx.delegate, ctx.authority, ctx.poolState, ctx.ownerLpToken,
     ctx.token0Account, ctx.token1Account, ctx.token0Vault, ctx.token1Vault,
     ctx.tokenProgram, ctx.tokenProgram2022, ctx.mint, ctx.vault1Mint, ctx.lpMint]
  }

  /** The swap of lines 55-89; `SwapInstructionShape` states what it contains. */
  function SwapInstruction(ctx: TransferHookAccounts, amountIn: U64): Instruction {
    Instruction(CP_SWAP_PROGRAM_ID, DelegateSignedMetas(SwapAccountKeys(ctx)), SwapBaseInput(amountIn, 0))
  }

  /** The "deposit" of lines 112-147; `DepositInstructionShape` states what it contains. */
  function DepositInstruction(ctx: TransferHookAccounts, amountIn: U64): Instruction {
    Instruction(CP_SWAP_PROGRAM_ID, DelegateSignedMetas(DepositAccountKeys(ctx)), SwapBaseInput(amountIn, 0))
  }

  /**
   * The swap goes to the pool program with twelve writable accounts, from
   * the delegate to `vault_1_mint`, of which only the delegate (index 0)
   * signs; it swaps amountIn with no minimum output.
   */
  lemma SwapInstructionShape(ctx: TransferHookAccounts, amountIn: U64)
    ensures var ix := SwapInstruction(ctx, amountIn);
      && ix.programId == CP_SWAP_PROGRAM_ID
      && |ix.accounts| == 12 && MetaKeys(ix.accounts) == SwapAccountKeys(ctx)
      && ix.accounts[0].pubkey == ctx.delegate && ix.accounts[11].pubkey == ctx.vault1Mint
      && (forall i :: 0 <= i < |ix.accounts| ==>
            ix.accounts[i].isWritable && (ix.accounts[i].isSigner <==> i == 0))
      && ix.data == SwapBaseInput(amountIn, 0)
  {
  }

  /**
   * The deposit goes to the pool program with thirteen writable accounts:
   * the LP token account at index 3, the legacy token program (index 8)
   * before token-2022 (index 9), the LP mint last, the delegate the only
   * signer; its data is a `SwapBaseInput` of amountIn with no minimum output.
   */
  lemma DepositInstructionShape(ctx: TransferHookAccounts, amountIn: U64)
    ensures var ix := DepositInstruction(ctx, amountIn);
      && ix.programId == CP_SWAP_PROGRAM_ID
      && |ix.accounts| == 13 && MetaKeys(ix.accounts) == DepositAccountKeys(ctx)
      && ix.accounts[0].pubkey == ctx.delegate && ix.accounts[3].pubkey == ctx.ownerLpToken
      && ix.accounts[8].pubkey == ctx.tokenProgram && ix.accounts[9].pubkey == ctx.tokenProgram2022
      && ix.accounts[12].pubkey == ctx.lpMint
      && (forall i :: 0 <= i < |ix.accounts| ==>
            ix.accounts[i].isWritable && (ix.accounts[i].isSigner <==> i == 0))
      && ix.data == SwapBaseInput(amountIn, 0)
  {
  }

  /**
   * The sub-calls `transfer_hook` issues for amount, in order, or the error
   * of the burn builder (line 41), which fails before anything is issued.
   */
  function Plan(ctx: TransferHookAccounts, bump: Byte, amount: U64): (r: Result<seq<SubCall>>)
    ensures r.Success? <==> IsTokenProgram(ctx.tokenProgram2022)
    ensures r.Success? ==> |r.value| == 3
  {
    var s := Split(amount);
    var seeds := DelegateSignerSeeds(bump);
    match BurnInstruction(ctx.tokenProgram2022, ctx.sourceToken, ctx.mint, ctx.owner, s.burn)
    case Failure(e) => Failure(e)
    case Success(burn) =>
      Success([SubCall(burn, seeds),
               SubCall(SwapInstruction(ctx, s.swap), seeds),
               SubCall(DepositInstruction(ctx, s.deposit), seeds)])
  }

  /**
   * Three sub-calls, in the order burn, swap, deposit, all signed with the
   * delegate's seeds, unless the burn builder refuses the token program.
   * The burn names the owner as its (signing) authority although the
   * program signs only for the delegate; the deposit carries a
   * `SwapBaseInput`.
   */
  lemma PlanShape(ctx: TransferHookAccounts, bump: Byte, amount: U64)
    ensures var r := Plan(ctx, bump, amount);
      && (r.Success? <==> IsTokenProgram(ctx.tokenProgram2022))
      && (r.Failure? ==> r.error == IncorrectProgramId)
      && (r.Success? ==>
            var s := Split(amount);
            && |r.value| == 3
            && (forall i :: 0 <= i < 3 ==> r.value[i].signerSeeds == DelegateSignerSeeds(bump))
            && r.value[0].ix.programId == ctx.tokenProgram2022
            && r.value[0].ix.data == Burn(s.burn)
            && r.value[0].ix.accounts == [AccountMeta(ctx.sourceToken, false, true),
                                          AccountMeta(ctx.mint, false, true),
                                          AccountMeta(ctx.owner, true, false)]
            && r.value[1].ix == SwapInstruction(ctx, s.swap)
            && r.value[2].ix == DepositInstruction(ctx, s.deposit))
  {
  }

  /** What the runtime answers to a sub-call, given the sub-calls issued before it. */
  type Responder = (seq<SubCall>, SubCall) -> Outcome

  /** The sub-calls an invocation issued and how it ended. */
  datatype Trace = Trace(issued: seq<SubCall>, outcome: Outcome)

  /** Whether the i-th of calls succeeds when issued after history and the calls before it. */
  predicate Answers(respond: Responder, history: seq<SubCall>, calls: seq<SubCall>, i: nat)
    requires i < |calls|
  {
    respond(history + calls[..i], calls[i]).Ok?
  }

  /**
   * Issuing calls one after another with `?`: the calls issued are a prefix
   * of calls, and all of them when the run succeeds.
   */
  function Run(history: seq<SubCall>, calls: seq<SubCall>, respond: Responder): (t: Trace)
    ensures |t.issued| <= |calls| && t.issued == calls[..|t.issued|]
    ensures t.outcome.Ok? ==> t.issued == calls
    ensures t.outcome.Err? ==> |t.issued| > 0
    decreases |calls|
  {
    if calls == [] then Trace([], Ok)
    else
      var o := respond(history, calls[0]);
      if o.Err? then Trace([calls[0]], o)
      else
        var rest := Run(history + [calls[0]], calls[1..], respond);
        Trace([calls[0]] + rest.issued, rest.outcome)
  }

  /** The answer to a later call, seen from the run that starts one call later. */
  lemma AnswersShift(respond: Responder, history: seq<SubCall>, calls: seq<SubCall>, i: nat)
    requires i + 1 < |calls|
    ensures (history + [calls[0]]) + calls[1..][..i] == history + calls[..i + 1]
    ensures Answers(respond, history + [calls[0]], calls[1..], i) == Answers(respond, history, calls, i + 1)
  {
  }

  /** When every call succeeds, all are issued and the run succeeds. */
  lemma {:induction false} RunAllSucceed(history: seq<SubCall>, calls: seq<SubCall>, respond: Responder)
    requires forall i :: 0 <= i < |calls| ==> Answers(respond, history, calls, i)
    ensures Run(history, calls, respond) == Trace(calls, Ok)
    decreases |calls|
  {
    if calls != [] {
      assert Answers(respond, history, calls, 0);
      assert history + calls[..0] == history;
      forall i | 0 <= i < |calls| - 1
        ensures Answers(respond, history + [calls[0]], calls[1..], i)
      {
        AnswersShift(respond, history, calls, i);
      }
      RunAllSucceed(history + [calls[0]], calls[1..], respond);
      assert [calls[0]] + calls[1..] == calls;
    }
  }

  /**
   * When call k is the first to fail, exactly calls 0..k are issued, none
   * after it, and the run fails with call k's error.
   */
  lemma {:induction false} RunStopsAtFirstFailure(history: seq<SubCall>, calls: seq<SubCall>,
                                                  respond: Responder, k: nat)
    requires k < |calls|
    requires forall i :: 0 <= i < k ==> Answers(respond, history, calls, i)
    requires !Answers(respond, history, calls, k)
    ensures Run(history, calls, respond) == Trace(calls[..k + 1], respond(history + calls[..k], calls[k]))
    decreases k
  {
    assert history + calls[..0] == history;
    if k == 0 {
      assert calls[..1] == [calls[0]];
    } else {
      assert Answers(respond, history, calls, 0);
      forall i | 0 <= i < k - 1
        ensures Answers(respond, history + [calls[0]], calls[1..], i)
      {
        AnswersShift(respond, history, calls, i);
      }
      AnswersShift(respond, history, calls, k - 1);
      RunStopsAtFirstFailure(history + [calls[0]], calls[1..], respond, k - 1);
      assert [calls[0]] + calls[1..][..k] == calls[..k + 1];
    }
  }

  /** A run of three calls, answer by answer: the shape of `transfer_hook`'s three `?`s. */
  lemma RunOfThree(history: seq<SubCall>, a: SubCall, b: SubCall, c: SubCall, respond: Responder)
    ensures var ra, rb, rc := respond(history, a), respond(history + [a], b), respond(history + [a, b], c);
      Run(history, [a, b, c], respond) ==
        if ra.Err? then Trace([a], ra)
        else if rb.Err? then Trace([a, b], rb)
        else if rc.Err? then Trace([a, b, c], rc)
        else Trace([a, b, c], Ok)
  {
    var h1, h2 := history + [a], history + [a, b];
    assert h1 + [b] == h2;
    assert [c][1..] == [];
    assert Run(h2 + [c], [], respond) == Trace([], Ok);
    var t3 := Run(h2, [c], respond);
    assert [b, c][1..] == [c];
    var t2 := Run(h1, [b, c], respond);
    assert respond(h1, b).Ok? ==> t2 == Trace([b] + t3.issued, t3.outcome);
    assert [a, b, c][1..] == [b, c];
  }

  /** What one invocation of `transfer_hook` does. */
  function HookTrace(history: seq<SubCall>, ctx: TransferHookAccounts, bump: Byte, amount: U64,
                     respond: Responder): Trace
  {
    match Plan(ctx, bump, amount)
    case Failure(e) => Trace([], Err(e))
    case Success(calls) => Run(history, calls, respond)
  }

  /** An invocation issues at most the three planned calls, and all three when it succeeds. */
  lemma HookTraceBounds(history: seq<SubCall>, ctx: TransferHookAccounts, bump: Byte, amount: U64,
                        respond: Responder)
    ensures var t := HookTrace(history, ctx, bump, amount, respond);
      && |t.issued| <= 3
      && (t.outcome.Ok? ==> |t.issued| == 3)
  {
  }

  /** What one invocation of `fallback` does. */
  function FallbackTrace(history: seq<SubCall>, data: seq<Byte>, ctx: TransferHookAccounts, bump: Byte,
                         respond: Responder): Trace
  {
    match Forward(data)
    case Failure(e) => Trace([], Err(e))
    case Success(bytes) => HookTrace(history, ctx, bump, FromLeBytes(bytes), respond)
  }

  /** A `fallback` issues at most three calls, whatever the payload. */
  lemma FallbackTraceBounds(history: seq<SubCall>, data: seq<Byte>, ctx: TransferHookAccounts, bump: Byte,
                            respond: Responder)
    ensures var t := FallbackTrace(history, data, ctx, bump, respond);
      |t.issued| <= 3
  {
    if Forward(data).Success? {
      HookTraceBounds(history, ctx, bump, FromLeBytes(Forward(data).value), respond);
    }
  }

  /**
   * Exactly three sub-calls, burn then swap then deposit, when every one
   * succeeds; the hook then succeeds.
   */
  lemma HookIssuesThreeWhenAllSucceed(history: seq<SubCall>, ctx: TransferHookAccounts, bump: Byte,
                                      amount: U64, respond: Responder)
    requires IsTokenProgram(ctx.tokenProgram2022)
    requires forall i :: 0 <= i < 3 ==> Answers(respond, history, Plan(ctx, bump, amount).value, i)
    ensures var t := HookTrace(history, ctx, bump, amount, respond);
      && t.outcome == Ok
      && |t.issued| == 3
      && t.issued[0].ix.data == Burn(Split(amount).burn)
      && t.issued[1].ix == SwapInstruction(ctx, Split(amount).swap)
      && t.issued[2].ix == DepositInstruction(ctx, Split(amount).deposit)
  {
    PlanShape(ctx, bump, amount);
    RunAllSucceed(history, Plan(ctx, bump, amount).value, respond);
  }

  /**
   * The first failing sub-call ends the invocation: the calls before it and
   * it are issued, none after it, and its error is the result.
   */
  lemma HookStopsAtFirstFailure(history: seq<SubCall>, ctx: TransferHookAccounts, bump: Byte,
                                amount: U64, respond: Responder, k: nat)
    requires IsTokenProgram(ctx.tokenProgram2022)
    requires k < 3
    requires forall i :: 0 <= i < k ==> Answers(respond, history, Plan(ctx, bump, amount).value, i)
    requires !Answers(respond, history, Plan(ctx, bump, amount).value, k)
    ensures var calls := Plan(ctx, bump, amount).value;
            var t := HookTrace(history, ctx, bump, amount, respond);
      && t.issued == calls[..k + 1]
      && t.outcome == respond(history + calls[..k], calls[k])
      && t.outcome.Err?
  {
    PlanShape(ctx, bump, amount);
    RunStopsAtFirstFailure(history, Plan(ctx, bump, amount).value, respond, k);
  }

  /** A program that is neither token program fails the burn builder: nothing is issued. */
  lemma HookRejectsOtherTokenProgram(history: seq<SubCall>, ctx: TransferHookAccounts, bump: Byte,
                                     amount: U64, respond: Responder)
    requires !IsTokenProgram(ctx.tokenProgram2022)
    ensures HookTrace(history, ctx, bump, amount, respond) == Trace([], Err(IncorrectProgramId))
  {
  }

  /** A payload that is not `Execute` issues no sub-call and fails. */
  lemma FallbackRejectsNonExecute(history: seq<SubCall>, data: seq<Byte>, ctx: TransferHookAccounts,
                                  bump: Byte, respond: Responder)
    requires |data| < 16 || data[..8] != EXECUTE_DISCRIMINATOR
    ensures FallbackTrace(history, data, ctx, bump, respond) == Trace([], Err(InvalidInstructionData))
  {
  }

  /** `Execute { amount }` runs the hook on exactly that amount. */
  lemma FallbackRunsHookOnAmount(history: seq<SubCall>, amount: U64, trailing: seq<Byte>,
                                 ctx: TransferHookAccounts, bump: Byte, respond: Responder)
    ensures FallbackTrace(history, EXECUTE_DISCRIMINATOR + ToLeBytes(amount) + trailing, ctx, bump, respond)
            == HookTrace(history, ctx, bump, amount, respond)
  {
    ForwardExecute(amount, trailing);
  }

  /**
   * Every account a sub-call names is among the accounts the runtime
   * passes to `Execute`, that is the five fixed ones followed by the
   * published records. This is membership only: which struct field each
   * account is bound to is a matter of position (see
   * `ExtraMetas.PositionalBindingShifts`).
   */
  lemma SubCallAccountsArePassed(init: InitializeAccounts, hook: TransferHookAccounts,
                                 derive: seq<seq<Byte>> -> Pubkey, bump: Byte, amount: U64)
    requires SamePool(init, hook)
    requires hook.delegate == derive([DELEGATE_SEED])
    requires IsTokenProgram(hook.tokenProgram2022)
    ensures var passed := ExecuteAccounts(hook, PublishedList(init), derive);
      forall c, j :: c in Plan(hook, bump, amount).value && 0 <= j < |c.ix.accounts| ==>
        c.ix.accounts[j].pubkey in passed
  {
    PlannedAccountsAreFields(hook, bump, amount);
    HookFieldsArePassed(init, hook, derive);
  }

  /** Every account a planned sub-call names is a field of the `TransferHook` struct. */
  lemma PlannedAccountsAreFields(ctx: TransferHookAccounts, bump: Byte, amount: U64)
    requires IsTokenProgram(ctx.tokenProgram2022)
    ensures forall c, j :: c in Plan(ctx, bump, amount).value && 0 <= j < |c.ix.accounts| ==>
      c.ix.accounts[j].pubkey in ctx.Keys()
  {
    var s := Split(amount);
    PlanShape(ctx, bump, amount);
    SwapInstructionShape(ctx, s.swap);
    DepositInstructionShape(ctx, s.deposit);
    var calls := Plan(ctx, bump, amount).value;
    forall c, j | c in calls && 0 <= j < |c.ix.accounts|
      ensures c.ix.accounts[j].pubkey in ctx.Keys()
    {
      assert MetaKeys(c.ix.accounts)[j] == c.ix.accounts[j].pubkey;
    }
  }

  /** Every field of the `TransferHook` struct is among the accounts passed to `Execute`. */
  lemma HookFieldsArePassed(init: InitializeAccounts, hook: TransferHookAccounts,
                            derive: seq<seq<Byte>> -> Pubkey)
    requires SamePool(init, hook)
    requires hook.delegate == derive([DELEGATE_SEED])
    ensures forall key :: key in hook.Keys() ==> key in ExecuteAccounts(hook, PublishedList(init), derive)
  {
    var passed := ExecuteAccounts(hook, PublishedList(init), derive);
    ListFollowsTransferHookStruct(init, hook, derive);
    assert passed[6..] == hook.Keys()[5..];
  }

  /** With a token program, an invocation is the run of the three planned calls. */
  lemma HookTraceIsRun(history: seq<SubCall>, ctx: TransferHookAccounts, bump: Byte, amount: U64,
                       respond: Responder)
    requires IsTokenProgram(ctx.tokenProgram2022)
    ensures var s, seeds := Split(amount), DelegateSignerSeeds(bump);
      var burn := BurnInstruction(ctx.tokenProgram2022, ctx.sourceToken, ctx.mint, ctx.owner, s.burn);
      HookTrace(history, ctx, bump, amount, respond) ==
        Run(history, [SubCall(burn.value, seeds),
                      SubCall(SwapInstruction(ctx, s.swap), seeds),
                      SubCall(DepositInstruction(ctx, s.deposit), seeds)], respond)
  {
  }

  /** The runtime seen from the hook: the sub-calls issued so far and how it answers. */
  class Runtime {
    var log: seq<SubCall>
    const respond: Responder

    constructor (respond: Responder)
      ensures log == [] && this.respond == respond
    {
      log := [];
      this.respond := respond;
    }

    /** `invoke_signed`: the call is issued whatever its outcome. */
    method InvokeSigned(call: SubCall) returns (r: Outcome)
      modifies this
      ensures log == old(log) + [call]
      ensures r == respond(old(log), call)
    {
      r := respond(log, call);
      log := log + [call];
    }
  }

  /**
   * The three `invoke_signed(...)?` of lines 47-167: each call is issued in
   * turn, and the first failure is returned before the next call is made.
   */
  method InvokeInOrder(rt: Runtime, first: SubCall, second: SubCall, third: SubCall) returns (r: Outcome)
    modifies rt
    ensures var t := Run(old(rt.log), [first, second, third], rt.respond);
      rt.log == old(rt.log) + t.issued && r == t.outcome
  {
    ghost var history := rt.log;
    RunOfThree(history, first, second, third, rt.respond);
    r := rt.InvokeSigned(first);
    if r.Err? {
      return;
    }
    r := rt.InvokeSigned(second);
    if r.Err? {
      return;
    }
    assert rt.log == history + [first, second];
    r := rt.InvokeSigned(third);
  }

  /** `transfer_hook`: split, build, then burn, swap and deposit with early return. */
  method TransferHook(rt: Runtime, ctx: TransferHookAccounts, bump: Byte, amount: U64) returns (r: Outcome)
    modifies rt
    ensures var t := HookTrace(old(rt.log), ctx, bump, amount, rt.respond);
      rt.log == old(rt.log) + t.issued && r == t.outcome
  {
    var split := Split(amount);
    var burn := BurnInstruction(ctx.tokenProgram2022, ctx.sourceToken, ctx.mint, ctx.owner, split.burn);
    if burn.Failure? {
      HookRejectsOtherTokenProgram(rt.log, ctx, bump, amount, rt.respond);
      return Err(burn.error);
    }
    var seeds := DelegateSignerSeeds(bump);
    HookTraceIsRun(rt.log, ctx, bump, amount, rt.respond);
    r := InvokeInOrder(rt, SubCall(burn.value, seeds),
                           SubCall(SwapInstruction(ctx, split.swap), seeds),
                           SubCall(DepositInstruction(ctx, split.deposit), seeds));
  }

  /** `fallback`: only `Execute` reaches the hook, with its amount read back from the forwarded bytes. */
  method Fallback(rt: Runtime, data: seq<Byte>, ctx: TransferHookAccounts, bump: Byte) returns (r: Outcome)
    modifies rt
    ensures var t := FallbackTrace(old(rt.log), data, ctx, bump, rt.respond);
      rt.log == old(rt.log) + t.issued && r == t.outcome
  {
    var forwarded := Forward(data);
    if forwarded.Failure? {
      return Err(forwarded.error);
    }
    var amount := FromLeBytes(forwarded.value);
    r := TransferHook(rt, ctx, bump, amount);
  }
}
