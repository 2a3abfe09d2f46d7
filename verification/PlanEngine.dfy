/**
 * The constant-product engine: three phase entry points over one evaluator. The engine trusts only
 * the phase's callback signer, its own recomputation of the closure, and its state sequence.
 */
module PlanEngine {
  import opened Base
  import opened Bindings
  import opened Keys
  import opened Ledger
  import opened Errors
  import opened Capabilities
  import FixedMath
  import Wire

  const MODE_ACCEPT: byte := 0
  const MODE_ZERO_OUTPUT: byte := 5
  const MODE_OVERSIZED_OUTPUT: byte := 6
  const MODE_LATE_COMMIT_FAILURE: byte := 11
  const LAST_MODE: byte := 11
  const NO_COMPLETED_PHASE: byte := 255

  const HELPER_PAYLOAD_TAG: byte := 1

  /** Return data: who set it, and the receipt its bytes decode to, if they decode. */
  datatype ReturnData = ReturnData(setter: Key, receipt: Option<Receipt>)

  datatype PhaseCall = PhaseCall(
    entry: byte, state: AccountMeta, callback: AccountMeta, closure: seq<AccountMeta>, request: Request)

  /**
   * What a call meets outside the engine's own code: the helper program's write (`None` when the
   * helper fails), and whatever bytes a hostile receipt mode leaves as return data.
   */
  datatype Surroundings = Surroundings(helper: Option<Data>, hostile: Option<ReturnData>)

  datatype PhaseResult = PhaseResult(store: Store, returned: Option<ReturnData>)

  function CallMetas(call: PhaseCall): (metas: seq<AccountMeta>)
    ensures |metas| == 2 + |call.closure|
  {
    [call.state, call.callback] + call.closure
  }

  /** The requests the wire decoder accepts. */
  predicate ValidRequest(r: Request) {
    ValidateExecutionBinding(r.binding, ZERO).Ok? && r.executionDigest == Sha(ExecutionPreimage(r.binding))
  }

  /** What `initialize` stores. */
  predicate InitialState(s: EngineState) {
    && s.revision != 0 && s.lpFeeBps < 10_000 && KnownTiming(s.timingMode)
    && s.sequence == 0 && s.lastIntentDigest == ZERO && s.lastPhaseContextDigest == ZERO
    && s.lastExecutionDigest == ZERO
    && s.lastAmountOut == 0 && s.lastPhase == NO_COMPLETED_PHASE && s.mode == MODE_ACCEPT
  }

  // ---- Account privileges ----

  function ClosureVerdict(infos: seq<AccountInfo>, phase: byte, i: nat): Result<(), EngineError>
    requires 2 <= i < |infos|
  {
    if infos[i].isSigner then Err(OpaqueSignerInEngine)
    else if infos[i].key == infos[1].key then Err(AliasedCallbackAuthority)
    else if phase == PHASE_PREPARE && infos[i].isWritable then Err(PrepareCapabilityWritable)
    else Ok(())
  }

  /** The first failing closure position from `i` on. */
  function ClosureScan(infos: seq<AccountInfo>, phase: byte, i: nat): Result<(), EngineError>
    requires 2 <= i <= |infos|
    decreases |infos| - i
  {
    if i == |infos| then Ok(()) else
    var _ :- ClosureVerdict(infos, phase, i);
    ClosureScan(infos, phase, i + 1)
  }

  function FixedPrivileges(infos: seq<AccountInfo>, phase: byte): Result<(), EngineError>
    requires |infos| >= 2 && KnownPhase(phase)
  {
    var state, callback := infos[0], infos[1];
    if state.executable then Err(InvalidEngineState)
    else if state.isSigner then Err(EngineStateSigner)
    else if !callback.isSigner || callback.isWritable || callback.executable then Err(InvalidCallbackPrivileges)
    else if state.key == callback.key then Err(AliasedCallbackAuthority)
    else if phase == PHASE_PREPARE && state.isWritable then Err(PrepareStateMustBeReadOnly)
    else if phase != PHASE_PREPARE && !state.isWritable then Err(MutationStateMustBeWritable)
    else ClosureScan(infos, phase, 2)
  }

  method ValidateFixedAccountPrivileges(infos: seq<AccountInfo>, phase: byte) returns (r: Result<(), EngineError>)
    requires |infos| >= 2 && KnownPhase(phase)
    ensures r == FixedPrivileges(infos, phase)
  {
    var state, callback := infos[0], infos[1];
    :- Need(!state.executable, InvalidEngineState);
    :- Need(!state.isSigner, EngineStateSigner);
    :- Need(callback.isSigner && !callback.isWritable && !callback.executable, InvalidCallbackPrivileges);
    :- Need(state.key != callback.key, AliasedCallbackAuthority);
    if phase == PHASE_PREPARE {
      :- Need(!state.isWritable, PrepareStateMustBeReadOnly);
    } else {
      :- Need(state.isWritable, MutationStateMustBeWritable);
    }
    for index := 2 to |infos|
      invariant ClosureScan(infos, phase, 2) == ClosureScan(infos, phase, index)
    {
      var account := infos[index];
      :- Need(!account.isSigner, OpaqueSignerInEngine);
      :- Need(account.key != callback.key, AliasedCallbackAuthority);
      if phase == PHASE_PREPARE {
        :- Need(!account.isWritable, PrepareCapabilityWritable);
      }
    }
    return Ok(());
  }

  lemma {:induction false} ClosureScanAccepts(infos: seq<AccountInfo>, phase: byte, i: nat)
    requires 2 <= i <= |infos|
    ensures ClosureScan(infos, phase, i).Ok? <==> forall j :: i <= j < |infos| ==> ClosureVerdict(infos, phase, j).Ok?
    decreases |infos| - i
  {
    if i < |infos| {
      ClosureScanAccepts(infos, phase, i + 1);
    }
  }

  // ---- Price, helper, receipt ----

  /** The quoted output, as the engine's mode reports it. */
  function PricedOutput(s: EngineState, b: Execution): Result<u64, EngineError> {
    match FixedMath.QuoteExactIn(b.accountedInputBefore, b.accountedOutputBefore, b.amountIn, s.lpFeeBps)
    case Err(e) => Err(Quote(e))
    case Ok(quote) =>
      Ok(if s.mode == MODE_ZERO_OUTPUT then 0 else if s.mode == MODE_OVERSIZED_OUTPUT then U64_MAX else quote.amountOut)
  }

  function HelperAmount(payload: seq<byte>): Result<nat, EngineError>
    requires |payload| > 0
  {
    if |payload| == 1 then Ok(1)
    else if |payload| == 9 || |payload| == MAX_OPAQUE_PAYLOAD_LEN then Ok(Wire.FromLe(payload[1..9]))
    else Err(InvalidHelperPayload)
  }

  /** `maybe_invoke_helper`: the accounts the optional nested call writes. */
  function HelperWrites(infos: seq<AccountInfo>, payload: seq<byte>, helper: Option<Data>): Result<Store, EngineError>
    requires |infos| >= 2
  {
    if |payload| == 0 || payload[0] != HELPER_PAYLOAD_TAG then Ok(map[]) else
    :- Need(2 <= |infos| - 2 <= MAX_OPAQUE_ACCOUNTS, InvalidHelperCapabilityClosure);
    var program, target := infos[2], infos[3];
    :- Need(program.executable && !program.isWritable && !program.isSigner, InvalidHelperProgram);
    :- Need(program.key == HELPER_PROGRAM, InvalidHelperProgram);
    :- Need(target.isWritable && !target.isSigner && !target.executable, InvalidHelperState);
    :- Need(target.owner == program.key, InvalidHelperState);
    :- Need(program.key != target.key && program.key != infos[1].key && target.key != infos[1].key
            && program.key != infos[0].key && target.key != infos[0].key, InvalidHelperCapabilityClosure);
    var amount :- HelperAmount(payload);
    :- Need(amount > 0, InvalidHelperPayload);
    :- Need(helper.Some?, HelperFailed);
    Ok(map[target.key := Account(HELPER_PROGRAM, false, helper.value)])
  }

  function AfterHelper(w: Store, infos: seq<AccountInfo>, b: Execution, helper: Option<Data>)
    : Result<Store, EngineError>
    requires |infos| >= 2 && b.payloadLen <= MAX_OPAQUE_PAYLOAD_LEN
  {
    var writes :- HelperWrites(infos, b.payload[..b.payloadLen], helper);
    Ok(w + writes)
  }

  /** `emit_receipt`: the honest receipt in the modes that send it, anything at all in the others. */
  function Emitted(mode: byte, receipt: Receipt, hostile: Option<ReturnData>): Option<ReturnData> {
    if mode == MODE_ACCEPT || mode == MODE_ZERO_OUTPUT || mode == MODE_OVERSIZED_OUTPUT
       || mode == MODE_LATE_COMMIT_FAILURE
    then Some(ReturnData(PLAN_ENGINE, Some(receipt)))
    else hostile
  }

  // ---- The evaluator ----

  /** Every check before the price: the live state, or the first failure. */
  function Authenticated(w: Store, call: PhaseCall): Result<EngineState, EngineError> {
    var b := call.request.binding;
    if !ValidRequest(call.request) then Err(InvalidRequestEncoding) else
    :- Need(b.phase == call.entry, EntrypointPhaseMismatch);
    :- Need(|call.closure| <= MAX_OPAQUE_ACCOUNTS, TooManyCapabilities);
    :- Need(|call.closure| == b.opaqueAccountCount, CapabilityCountMismatch);
    var infos := Presented(w, CallMetas(call));
    var _ :- FixedPrivileges(infos, b.phase);
    :- Need(IsPlanState(w, call.state.key), InvalidEngineState);
    var s := PlanStateAt(w, call.state.key);
    :- Need(s.mode <= LAST_MODE, InvalidMode);
    :- Need(s.market == b.market, MarketMismatch);
    :- Need(s.revision == b.engineRevision, RevisionMismatch);
    :- Need(ValidatePhaseForTiming(s.timingMode, b.phase).Ok?, EngineError.InvalidPhaseForTiming);
    :- Need(s.sequence == b.preSequence, SequenceMismatch);
    :- Need(call.callback.key == CallbackPda(PLAN_ENGINE, call.state.key, b.market, b.domain, b.intentDigest, b.phase),
            WrongCallbackAuthority);
    :- Need(Sha(CapabilityPreimage(PLAN_ENGINE, ObservedDescriptors(infos))) == b.phaseCapabilityHash,
            CapabilityHashMismatch);
    Ok(s)
  }

  /** The state a completed TRANSITION or COMMIT stores. */
  function Advanced(s: EngineState, r: Request, amountOut: u64): EngineState
    requires s.sequence < U64_MAX
  {
    s.(sequence := s.sequence + 1, lastIntentDigest := r.binding.intentDigest,
       lastPhaseContextDigest := r.binding.phaseContextDigest, lastExecutionDigest := r.executionDigest,
       lastAmountOut := amountOut, lastPhase := r.binding.phase)
  }

  function ReceiptFor(r: Request, amountOut: u64, sequence: u64): Receipt {
    EngineReceipt(r.binding.phase, r.binding.intentDigest, r.executionDigest, amountOut, sequence)
  }

  /** What one entry-point call does to the store and to the return-data slot. */
  function Evaluated(w: Store, call: PhaseCall, around: Surroundings): Result<PhaseResult, EngineError> {
    var s :- Authenticated(w, call);
    var b := call.request.binding;
    var amountOut :- PricedOutput(s, b);
    if b.phase == PHASE_PREPARE then
      Ok(PhaseResult(w, Emitted(s.mode, ReceiptFor(call.request, amountOut, s.sequence), around.hostile)))
    else
      var helped :- AfterHelper(w, Presented(w, CallMetas(call)), b, around.helper);
      :- Need(s.sequence < U64_MAX, SequenceOverflow);
      var s' := Advanced(s, call.request, amountOut);
      :- Need(!(s.mode == MODE_LATE_COMMIT_FAILURE && b.phase == PHASE_COMMIT), DeliberateLateCommitFailure);
      Ok(PhaseResult(helped[call.state.key := PlanEntry(s')],
                     Emitted(s.mode, ReceiptFor(call.request, amountOut, s'.sequence), around.hostile)))
  }

  /** `evaluate_phase`, updating the stored state field by field. A failure aborts the whole instruction. */
  method EvaluatePhase(bank: Bank, call: PhaseCall, around: Surroundings)
    returns (r: Result<Option<ReturnData>, EngineError>)
    modifies bank
    ensures match Evaluated(old(bank.accounts), call, around)
            case Ok(done) => r == Ok(done.returned) && bank.accounts == done.store
            case Err(e) => r == Err(e)
  {
    hide PricedOutput, AfterHelper, ObservedDescriptors, FixedPrivileges, Emitted, Presented, ReceiptFor;
    var request := call.request;
    var binding := request.binding;
    :- Need(ValidRequest(request), InvalidRequestEncoding);
    :- Need(binding.phase == call.entry, EntrypointPhaseMismatch);
    :- Need(|call.closure| <= MAX_OPAQUE_ACCOUNTS, TooManyCapabilities);
    :- Need(|call.closure| == binding.opaqueAccountCount, CapabilityCountMismatch);
    var infos := Presented(bank.accounts, CallMetas(call));
    var _ :- ValidateFixedAccountPrivileges(infos, binding.phase);
    :- Need(IsPlanState(bank.accounts, call.state.key), InvalidEngineState);
    var state := PlanStateAt(bank.accounts, call.state.key);
    :- Need(state.mode <= LAST_MODE, InvalidMode);
    :- Need(state.market == binding.market, MarketMismatch);
    :- Need(state.revision == binding.engineRevision, RevisionMismatch);
    :- Need(ValidatePhaseForTiming(state.timingMode, binding.phase).Ok?, EngineError.InvalidPhaseForTiming);
    :- Need(state.sequence == binding.preSequence, SequenceMismatch);
    :- Need(call.callback.key
            == CallbackPda(PLAN_ENGINE, call.state.key, binding.market, binding.domain, binding.intentDigest,
                           binding.phase),
            WrongCallbackAuthority);
    :- Need(Sha(CapabilityPreimage(PLAN_ENGINE, ObservedDescriptors(infos))) == binding.phaseCapabilityHash,
            CapabilityHashMismatch);
    var amountOut :- PricedOutput(state, binding);
    var receiptSequence := state.sequence;
    if binding.phase != PHASE_PREPARE {
      var helped :- AfterHelper(bank.accounts, infos, binding, around.helper);
      bank.accounts := helped;
      :- Need(state.sequence < U64_MAX, SequenceOverflow);
      state := state.(sequence := state.sequence + 1);
      state := state.(lastIntentDigest := binding.intentDigest);
      state := state.(lastPhaseContextDigest := binding.phaseContextDigest);
      state := state.(lastExecutionDigest := request.executionDigest);
      state := state.(lastAmountOut := amountOut);
      state := state.(lastPhase := binding.phase);
      bank.accounts := bank.accounts[call.state.key := PlanEntry(state)];
      :- Need(!(state.mode == MODE_LATE_COMMIT_FAILURE && binding.phase == PHASE_COMMIT), DeliberateLateCommitFailure);
      receiptSequence := state.sequence;
    }
    return Ok(Emitted(state.mode, ReceiptFor(request, amountOut, receiptSequence), around.hostile));
  }

  /** `set_mode` by the state's authority. */
  function ModeSet(w: Store, state: Key, authority: Key, mode: byte): Result<Store, EngineError> {
    if !IsPlanState(w, state) then Err(InvalidEngineState)
    else if PlanStateAt(w, state).authority != authority then Err(InvalidAuthority)
    else if mode > LAST_MODE then Err(InvalidMode)
    else Ok(w[state := PlanEntry(PlanStateAt(w, state).(mode := mode))])
  }

  // ---- What a call can and cannot change ----

  /** An authenticated call carries its phase's callback signer and a state of this engine. */
  lemma AuthenticatedCall(w: Store, call: PhaseCall)
    requires Authenticated(w, call).Ok?
    ensures KnownPhase(call.entry) && call.request.binding.phase == call.entry
    ensures ValidRequest(call.request) && call.request.binding.payloadLen <= MAX_OPAQUE_PAYLOAD_LEN
    ensures SignerIn(CallMetas(call), call.callback.key)
    ensures call.callback.key.CallbackPda? && call.callback.key.engineProgram == PLAN_ENGINE
    ensures IsPlanState(w, call.state.key) && Authenticated(w, call).value == PlanStateAt(w, call.state.key)
    ensures call.entry != PHASE_PREPARE ==> WritableIn(CallMetas(call), call.state.key)
  {
    hide ObservedDescriptors, ClosureScan;
    var metas := CallMetas(call);
    var infos := Presented(w, metas);
    assert infos[1].isSigner == SignerIn(metas, call.callback.key);
    assert infos[0].isWritable == WritableIn(metas, call.state.key);
  }

  /** The helper changes at most the second closure account, which it owns. */
  lemma HelperEffect(w: Store, metas: seq<AccountMeta>, b: Execution, helper: Option<Data>)
    requires |metas| >= 2 && b.payloadLen <= MAX_OPAQUE_PAYLOAD_LEN
    requires AfterHelper(w, Presented(w, metas), b, helper).Ok?
    ensures var w' := AfterHelper(w, Presented(w, metas), b, helper).value;
            w' == w || (&& |metas| >= 4 && w' == w[metas[3].key := w'[metas[3].key]]
                        && WritableIn(metas, metas[3].key) && OwnerOf(w, metas[3].key) == HELPER_PROGRAM
                        && metas[3].key != metas[0].key && !Executable(w, metas[3].key)
                        && w'[metas[3].key].owner == HELPER_PROGRAM && !w'[metas[3].key].executable)
  {
    hide HelperAmount;
    if AfterHelper(w, Presented(w, metas), b, helper).value == w {
    } else {
      assert w + map[] == w;
      assert Presented(w, metas)[3].isWritable == WritableIn(metas, metas[3].key);
    }
  }

  /**
   * A call succeeds only under the callback address of its own phase, state, market, domain and
   * intent, present as a signer; it changes only its state and one helper account that both the
   * caller's list and the helper program own up to, and it advances the sequence by one.
   */
  lemma EvaluationEffect(w: Store, call: PhaseCall, around: Surroundings)
    requires Evaluated(w, call, around).Ok?
    ensures SignerIn(CallMetas(call), call.callback.key)
    ensures call.callback.key.CallbackPda? && call.callback.key.engineProgram == PLAN_ENGINE
    ensures IsPlanState(w, call.state.key)
    ensures var w' := Evaluated(w, call, around).value.store;
            && (forall k :: k != call.state.key && !SameAt(w, w', k) ==>
                  && WritableIn(CallMetas(call), k) && OwnerOf(w, k) == HELPER_PROGRAM
                  && k in w' && w'[k].owner == HELPER_PROGRAM)
            && IsPlanState(w', call.state.key)
            && PlanStateAt(w', call.state.key).mode == PlanStateAt(w, call.state.key).mode
            && PlanStateAt(w', call.state.key).sequence
               == PlanStateAt(w, call.state.key).sequence + (if call.entry == PHASE_PREPARE then 0 else 1)
            && (call.entry != PHASE_PREPARE ==> WritableIn(CallMetas(call), call.state.key))
            && (call.entry == PHASE_PREPARE ==> w' == w)
  {
    hide Authenticated, PricedOutput, AfterHelper, ValidRequest, Emitted;
    AuthenticatedCall(w, call);
    if call.entry != PHASE_PREPARE {
      HelperEffect(w, CallMetas(call), call.request.binding, around.helper);
    }
  }
}
