/**
 * The constant-product engine's entry points without reference to how they are evaluated: exactly which
 * calls succeed, and exactly what a successful one leaves in the store and in the return data.
 */
module Evaluations {
  import opened Base
  import opened Bindings
  import opened Keys
  import opened Ledger
  import opened Errors
  import opened Capabilities
  import opened PlanEngine
  import FixedMath
  import Wire

  // ---- Which calls are authentic ----

  /** The request decodes: a known phase, a context exactly in COMMIT, bounded counts, zero padding, its own digest. */
  predicate WellEncoded(r: Request) {
    var b := r.binding;
    && (b.phase == PHASE_TRANSITION || b.phase == PHASE_PREPARE || b.phase == PHASE_COMMIT)
    && (b.phaseContextDigest != ZERO <==> b.phase == PHASE_COMMIT)
    && b.opaqueAccountCount <= 8 && b.payloadLen <= 128
    && (forall i :: b.payloadLen <= i < 128 ==> b.payload[i] == 0)
    && r.executionDigest == Sha(ExecutionPreimage(b))
  }

  /** State, callback and closure hold the privileges of the phase, united over repeated positions. */
  predicate Privileged(w: Store, call: PhaseCall, phase: byte) {
    var metas, state, callback := CallMetas(call), call.state.key, call.callback.key;
    && !Executable(w, state) && !SignerIn(metas, state) && (WritableIn(metas, state) <==> phase != PHASE_PREPARE)
    && SignerIn(metas, callback) && !WritableIn(metas, callback) && !Executable(w, callback) && state != callback
    && forall i :: 0 <= i < |call.closure| ==>
         && !SignerIn(metas, call.closure[i].key) && call.closure[i].key != callback
         && (phase == PHASE_PREPARE ==> !WritableIn(metas, call.closure[i].key))
  }

  /** What the engine sees at an address of its account list. */
  function Seen(w: Store, metas: seq<AccountMeta>, k: Key): Descriptor {
    CapabilityDescriptor(k, OwnerOf(w, k), WritableIn(metas, k), SignerIn(metas, k), Executable(w, k))
  }

  /** The committed digest is of what the engine sees: its state, then the closure, the callback left out. */
  predicate SeesCommitted(w: Store, call: PhaseCall, committed: Digest) {
    && committed.Sha? && committed.preimage.CapabilityPreimage? && committed.preimage.engineProgram == PLAN_ENGINE
    && var ds := committed.preimage.descriptors;
    && |ds| == 1 + |call.closure| && ds[0] == Seen(w, CallMetas(call), call.state.key)
    && forall i :: 0 <= i < |call.closure| ==> ds[i + 1] == Seen(w, CallMetas(call), call.closure[i].key)
  }

  predicate Authentic(w: Store, call: PhaseCall) {
    var b, k := call.request.binding, call.state.key;
    && WellEncoded(call.request) && b.phase == call.entry && |call.closure| == b.opaqueAccountCount
    && Privileged(w, call, b.phase)
    && IsPlanState(w, k)
    && var s := PlanStateAt(w, k);
    && s.mode <= 11 && s.market == b.market && s.revision == b.engineRevision && s.sequence == b.preSequence
    && (|| (s.timingMode == TIMING_SINGLE && b.phase == PHASE_TRANSITION)
        || (s.timingMode == TIMING_PREPARE_COMMIT && (b.phase == PHASE_PREPARE || b.phase == PHASE_COMMIT)))
    && call.callback.key == CallbackPda(PLAN_ENGINE, k, b.market, b.domain, b.intentDigest, b.phase)
    && SeesCommitted(w, call, b.phaseCapabilityHash)
  }

  lemma PrivilegedExactly(w: Store, call: PhaseCall, phase: byte)
    requires KnownPhase(phase)
    ensures FixedPrivileges(Presented(w, CallMetas(call)), phase).Ok? <==> Privileged(w, call, phase)
  {
    hide ClosureScan;
    var metas := CallMetas(call);
    var infos := Presented(w, metas);
    ClosureScanAccepts(infos, phase, 2);
    forall i | 0 <= i < |call.closure|
      ensures ClosureVerdict(infos, phase, i + 2).Ok? <==>
                && !SignerIn(metas, call.closure[i].key) && call.closure[i].key != call.callback.key
                && (phase == PHASE_PREPARE ==> !WritableIn(metas, call.closure[i].key))
    {
      assert metas[i + 2] == call.closure[i];
    }
    forall j | 2 <= j < |infos| ensures metas[j] == call.closure[j - 2] {
    }
    assert infos[0].key == call.state.key && infos[1].key == call.callback.key;
    if Privileged(w, call, phase) {
      forall j | 2 <= j < |infos| ensures ClosureVerdict(infos, phase, j).Ok? {
        assert ClosureVerdict(infos, phase, (j - 2) + 2).Ok?;
      }
    }
  }

  lemma SeenExactly(w: Store, call: PhaseCall, committed: Digest)
    ensures Sha(CapabilityPreimage(PLAN_ENGINE, ObservedDescriptors(Presented(w, CallMetas(call))))) == committed <==>
              SeesCommitted(w, call, committed)
  {
    var metas := CallMetas(call);
    var infos := Presented(w, metas);
    var os := ObservedDescriptors(infos);
    assert os[0] == Seen(w, metas, call.state.key);
    forall i | 0 <= i < |call.closure| ensures os[i + 1] == Seen(w, metas, call.closure[i].key) {
      assert metas[i + 2] == call.closure[i];
    }
    if SeesCommitted(w, call, committed) {
      assert committed.preimage.descriptors == os;
    }
  }

  lemma AuthenticExactly(w: Store, call: PhaseCall)
    ensures Authenticated(w, call).Ok? <==> Authentic(w, call)
    ensures Authenticated(w, call).Ok? ==> Authenticated(w, call).value == PlanStateAt(w, call.state.key)
  {
    hide FixedPrivileges, Privileged, ObservedDescriptors, SeesCommitted, Presented, CallMetas,
         ValidateExecutionBinding, ValidatePhaseForTiming;
    var b := call.request.binding;
    BindingValidExactly(b, ZERO);
    SeenExactly(w, call, b.phaseCapabilityHash);
    if KnownPhase(b.phase) {
      PrivilegedExactly(w, call, b.phase);
    }
    if IsPlanState(w, call.state.key) {
      PhaseFitsExactly(PlanStateAt(w, call.state.key).timingMode, b.phase);
    }
  }

  // ---- The helper ----

  /** The payload begins with the helper's tag. */
  predicate CallsHelper(b: Execution) {
    0 < b.payloadLen && b.payload[0] == 1
  }

  /**
   * The helper's call goes through: the closure begins with the helper program, executable and read-only,
   * and a writable account it owns, neither of them a fixed role; the amount is given and positive; and
   * the helper itself does not fail.
   */
  predicate HelperServes(w: Store, call: PhaseCall, helper: Option<Data>) {
    var b, metas := call.request.binding, CallMetas(call);
    && 2 <= |call.closure| <= 8
    && var program, target := call.closure[0].key, call.closure[1].key;
    && program == HELPER_PROGRAM && Executable(w, program) && !WritableIn(metas, program) && !SignerIn(metas, program)
    && OwnerOf(w, target) == HELPER_PROGRAM && WritableIn(metas, target) && !SignerIn(metas, target)
    && !Executable(w, target)
    && program != target && program != call.state.key && target != call.state.key
    && program != call.callback.key && target != call.callback.key
    && (b.payloadLen == 1 || ((b.payloadLen == 9 || b.payloadLen == 128) && Wire.Word(b.payload, 1) > 0))
    && helper.Some?
  }

  lemma AmountExactly(payload: FixedPayload, length: nat)
    requires 0 < length <= 128
    ensures var amount := HelperAmount(payload[..length]);
            && (amount.Ok? <==> length == 1 || length == 9 || length == 128)
            && (amount.Ok? ==> amount.value == if length == 1 then 1 else Wire.Word(payload, 1))
  {
    if length >= 9 {
      var s := payload[1..9];
      assert payload[..length][1..9] == s;
      Wire.WordValue(s);
      assert s[0] == payload[1] && s[1] == payload[2] && s[2] == payload[3] && s[3] == payload[4];
      assert s[4] == payload[5] && s[5] == payload[6] && s[6] == payload[7] && s[7] == payload[8];
    }
  }

  /** The helper is called exactly when the payload is tagged, and then its write is the account's content. */
  lemma HelperExactly(w: Store, call: PhaseCall, helper: Option<Data>)
    requires call.request.binding.payloadLen <= 128
    ensures var b := call.request.binding;
            var helped := AfterHelper(w, Presented(w, CallMetas(call)), b, helper);
            && (helped.Ok? <==> !CallsHelper(b) || HelperServes(w, call, helper))
            && (helped.Ok? ==>
                  helped.value == if CallsHelper(b)
                                  then w[call.closure[1].key := Account(HELPER_PROGRAM, false, helper.value)]
                                  else w)
  {
    hide HelperAmount, Wire.Word;
    var b, metas := call.request.binding, CallMetas(call);
    var infos := Presented(w, metas);
    assert infos[0].key == call.state.key && infos[1].key == call.callback.key;
    if CallsHelper(b) {
      AmountExactly(b.payload, b.payloadLen);
      if |call.closure| >= 2 {
        assert metas[2] == call.closure[0] && metas[3] == call.closure[1];
      }
    } else {
      assert w + map[] == w;
    }
  }

  // ---- The call as a whole ----

  /** The price of a call, whatever the mode makes of it. */
  function Priced(w: Store, call: PhaseCall): Result<FixedMath.CpmmQuote, FixedMath.MathError>
    requires IsPlanState(w, call.state.key)
  {
    var b := call.request.binding;
    FixedMath.QuoteExactIn(b.accountedInputBefore, b.accountedOutputBefore, b.amountIn,
                           PlanStateAt(w, call.state.key).lpFeeBps)
  }

  /** What a mode reports of a quoted output: nothing in mode 5, everything in mode 6. */
  function Reported(mode: byte, quoted: u64): u64 {
    if mode == 5 then 0 else if mode == 6 then U64_MAX else quoted
  }

  /** A call succeeds when it is authentic and priced, and outside PREPARE when helper, sequence and mode allow. */
  predicate Goes(w: Store, call: PhaseCall, around: Surroundings) {
    && Authentic(w, call) && Priced(w, call).Ok?
    && (call.entry != PHASE_PREPARE ==>
          && (CallsHelper(call.request.binding) ==> HelperServes(w, call, around.helper))
          && PlanStateAt(w, call.state.key).sequence < U64_MAX
          && !(PlanStateAt(w, call.state.key).mode == 11 && call.entry == PHASE_COMMIT))
  }

  /** The state after a call, field by field. */
  predicate StateAfter(s: EngineState, s': EngineState, r: Request, amountOut: u64) {
    && s'.authority == s.authority && s'.market == s.market && s'.revision == s.revision && s'.lpFeeBps == s.lpFeeBps
    && s'.timingMode == s.timingMode && s'.mode == s.mode && s'.sequence == s.sequence + 1
    && s'.lastIntentDigest == r.binding.intentDigest && s'.lastPhaseContextDigest == r.binding.phaseContextDigest
    && s'.lastExecutionDigest == r.executionDigest && s'.lastAmountOut == amountOut && s'.lastPhase == r.binding.phase
  }

  /** What it leaves: in PREPARE nothing, else the stepped state, the helper's write if tagged, and no more. */
  ghost predicate Leaves(w: Store, w': Store, call: PhaseCall, around: Surroundings, amountOut: u64)
    requires IsPlanState(w, call.state.key)
  {
    if call.entry == PHASE_PREPARE then w' == w else
    && IsPlanState(w', call.state.key) && !w'[call.state.key].executable
    && StateAfter(PlanStateAt(w, call.state.key), PlanStateAt(w', call.state.key), call.request, amountOut)
    && (CallsHelper(call.request.binding) ==>
          && |call.closure| >= 2 && around.helper.Some? && call.closure[1].key in w'
          && w'[call.closure[1].key] == Account(HELPER_PROGRAM, false, around.helper.value))
    && forall k :: k != call.state.key && !(CallsHelper(call.request.binding) && k == call.closure[1].key) ==>
         SameAt(w, w', k)
  }

  /** What it returns: in modes 0, 5, 6 and 11 its receipt, in the others anything at all. */
  predicate Returns(returned: Option<ReturnData>, s: EngineState, call: PhaseCall, around: Surroundings,
                    amountOut: u64) {
    if s.mode == 0 || s.mode == 5 || s.mode == 6 || s.mode == 11 then
      && returned.Some? && returned.value.setter == PLAN_ENGINE && returned.value.receipt.Some?
      && var receipt := returned.value.receipt.value;
      && receipt.phase == call.entry && receipt.intentDigest == call.request.binding.intentDigest
      && receipt.executionDigest == call.request.executionDigest && receipt.amountOut == amountOut
      && receipt.stateSequence == s.sequence + (if call.entry == PHASE_PREPARE then 0 else 1)
    else returned == around.hostile
  }

  /** An entry-point call, exactly. */
  lemma EvaluatedExactly(w: Store, call: PhaseCall, around: Surroundings)
    ensures Evaluated(w, call, around).Ok? <==> Goes(w, call, around)
    ensures Evaluated(w, call, around).Ok? ==>
              var done, s := Evaluated(w, call, around).value, PlanStateAt(w, call.state.key);
              var amountOut := Reported(s.mode, Priced(w, call).value.amountOut);
              && Leaves(w, done.store, call, around, amountOut) && Returns(done.returned, s, call, around, amountOut)
  {
    hide Authenticated, Authentic, AfterHelper, HelperServes, Presented, CallMetas, FixedMath.QuoteExactIn;
    AuthenticExactly(w, call);
    if Authenticated(w, call).Ok? {
      AuthenticShape(w, call);
      HelperExactly(w, call, around.helper);
      if CallsHelper(call.request.binding) && HelperServes(w, call, around.helper) {
        HelperTarget(w, call, around.helper);
      }
    }
  }

  lemma AuthenticShape(w: Store, call: PhaseCall)
    requires Authentic(w, call)
    ensures IsPlanState(w, call.state.key) && call.request.binding.phase == call.entry
    ensures call.request.binding.payloadLen <= 128
  {
    hide Privileged, SeesCommitted;
  }

  lemma HelperTarget(w: Store, call: PhaseCall, helper: Option<Data>)
    requires HelperServes(w, call, helper)
    ensures |call.closure| >= 2 && call.closure[1].key != call.state.key && helper.Some?
  {
    hide CallMetas, Wire.Word;
  }

  // ---- What a failing call reports ----

  /** What is wrong with the privileges of a call refused for this reason. */
  predicate PrivilegeFault(w: Store, call: PhaseCall, phase: byte, fault: EngineError) {
    var metas, state, callback := CallMetas(call), call.state.key, call.callback.key;
    match fault
    case InvalidEngineState => Executable(w, state)
    case EngineStateSigner => SignerIn(metas, state)
    case InvalidCallbackPrivileges =>
      !SignerIn(metas, callback) || WritableIn(metas, callback) || Executable(w, callback)
    case AliasedCallbackAuthority =>
      state == callback || exists i :: 0 <= i < |call.closure| && call.closure[i].key == callback
    case PrepareStateMustBeReadOnly => phase == PHASE_PREPARE && WritableIn(metas, state)
    case MutationStateMustBeWritable => phase != PHASE_PREPARE && !WritableIn(metas, state)
    case OpaqueSignerInEngine => exists i :: 0 <= i < |call.closure| && SignerIn(metas, call.closure[i].key)
    case PrepareCapabilityWritable =>
      phase == PHASE_PREPARE && exists i :: 0 <= i < |call.closure| && WritableIn(metas, call.closure[i].key)
    case _ => false
  }

  /** The failure of the scan is the failure of a position. */
  lemma {:induction false} ClosureScanFaults(infos: seq<AccountInfo>, phase: byte, i: nat)
    requires 2 <= i <= |infos| && ClosureScan(infos, phase, i).Err?
    ensures exists j :: i <= j < |infos| && ClosureVerdict(infos, phase, j) == ClosureScan(infos, phase, i)
    decreases |infos| - i
  {
    if ClosureVerdict(infos, phase, i).Ok? {
      ClosureScanFaults(infos, phase, i + 1);
    } else {
      assert ClosureVerdict(infos, phase, i) == ClosureScan(infos, phase, i);
    }
  }

  lemma PrivilegesFaulted(w: Store, call: PhaseCall, phase: byte)
    requires KnownPhase(phase)
    ensures var verdict := FixedPrivileges(Presented(w, CallMetas(call)), phase);
            verdict.Err? ==> PrivilegeFault(w, call, phase, verdict.error)
  {
    hide ClosureScan, SignerIn, WritableIn;
    var metas := CallMetas(call);
    var infos := Presented(w, metas);
    assert infos[0].key == call.state.key && infos[1].key == call.callback.key;
    if ClosureScan(infos, phase, 2).Err? {
      ClosureScanFaults(infos, phase, 2);
      var j :| 2 <= j < |infos| && ClosureVerdict(infos, phase, j) == ClosureScan(infos, phase, 2);
      assert metas[j] == call.closure[j - 2];
    }
  }

  /** And with the request, the state, the callback or the committed list. */
  predicate AuthenticFault(w: Store, call: PhaseCall, fault: EngineError) {
    var b, k := call.request.binding, call.state.key;
    || PrivilegeFault(w, call, b.phase, fault)
    || (fault == InvalidRequestEncoding && !WellEncoded(call.request))
    || (fault == EntrypointPhaseMismatch && b.phase != call.entry)
    || (fault == TooManyCapabilities && |call.closure| > 8)
    || (fault == CapabilityCountMismatch && |call.closure| != b.opaqueAccountCount)
    || (fault == InvalidEngineState && !IsPlanState(w, k))
    || (fault == CapabilityHashMismatch && !SeesCommitted(w, call, b.phaseCapabilityHash))
    || (&& fault == WrongCallbackAuthority
        && call.callback.key != CallbackPda(PLAN_ENGINE, k, b.market, b.domain, b.intentDigest, b.phase))
    || (&& IsPlanState(w, k)
        && var s := PlanStateAt(w, k);
        || (fault == InvalidMode && s.mode > 11)
        || (fault == MarketMismatch && s.market != b.market)
        || (fault == RevisionMismatch && s.revision != b.engineRevision)
        || (fault == SequenceMismatch && s.sequence != b.preSequence)
        || (&& fault == EngineError.InvalidPhaseForTiming
            && !(|| (s.timingMode == TIMING_SINGLE && b.phase == PHASE_TRANSITION)
                 || (s.timingMode == TIMING_PREPARE_COMMIT && (b.phase == PHASE_PREPARE || b.phase == PHASE_COMMIT)))))
  }

  lemma AuthenticFaulted(w: Store, call: PhaseCall)
    ensures Authenticated(w, call).Err? ==> AuthenticFault(w, call, Authenticated(w, call).error)
  {
    hide FixedPrivileges, PrivilegeFault, ObservedDescriptors, SeesCommitted, Presented, CallMetas,
         ValidateExecutionBinding, ValidatePhaseForTiming;
    var b := call.request.binding;
    BindingValidExactly(b, ZERO);
    SeenExactly(w, call, b.phaseCapabilityHash);
    if KnownPhase(b.phase) {
      PrivilegesFaulted(w, call, b.phase);
    }
    if IsPlanState(w, call.state.key) {
      PhaseFitsExactly(PlanStateAt(w, call.state.key).timingMode, b.phase);
    }
  }

  /** What is wrong with a helper's call. */
  predicate HelperFault(w: Store, call: PhaseCall, helper: Option<Data>, fault: EngineError) {
    var b, metas := call.request.binding, CallMetas(call);
    && CallsHelper(b)
    && if |call.closure| < 2 || |call.closure| > 8 then fault == InvalidHelperCapabilityClosure else
       var program, target := call.closure[0].key, call.closure[1].key;
       || (&& fault == InvalidHelperProgram
           && (program != HELPER_PROGRAM || !Executable(w, program) || WritableIn(metas, program)
               || SignerIn(metas, program)))
       || (&& fault == InvalidHelperState
           && (OwnerOf(w, target) != program || !WritableIn(metas, target) || SignerIn(metas, target)
               || Executable(w, target)))
       || (&& fault == InvalidHelperCapabilityClosure
           && (program == target || program == call.state.key || target == call.state.key
               || program == call.callback.key || target == call.callback.key))
       || (&& fault == InvalidHelperPayload && b.payloadLen != 1
           && !((b.payloadLen == 9 || b.payloadLen == 128) && Wire.Word(b.payload, 1) > 0))
       || (fault == HelperFailed && helper == None)
  }

  lemma PresentedAt(w: Store, call: PhaseCall)
    ensures var metas, infos := CallMetas(call), Presented(w, CallMetas(call));
            && infos[0].key == call.state.key && infos[1].key == call.callback.key
            && forall i :: 0 <= i < |call.closure| && 0 <= i < 2 ==>
                 && infos[i + 2].key == call.closure[i].key && infos[i + 2].owner == OwnerOf(w, call.closure[i].key)
                 && infos[i + 2].executable == Executable(w, call.closure[i].key)
                 && infos[i + 2].isSigner == SignerIn(metas, call.closure[i].key)
                 && infos[i + 2].isWritable == WritableIn(metas, call.closure[i].key)
  {
    hide SignerIn, WritableIn;
  }

  lemma HelperFaulted(w: Store, call: PhaseCall, helper: Option<Data>)
    requires call.request.binding.payloadLen <= 128
    ensures var b := call.request.binding;
            var helped := AfterHelper(w, Presented(w, CallMetas(call)), b, helper);
            helped.Err? ==> HelperFault(w, call, helper, helped.error)
  {
    hide HelperAmount, Wire.Word, SignerIn, WritableIn, Presented, CallMetas, OwnerOf, Executable;
    var b := call.request.binding;
    PresentedAt(w, call);
    if CallsHelper(b) {
      AmountExactly(b.payload, b.payloadLen);
      AmountFaulted(b.payload, b.payloadLen);
      if |call.closure| >= 2 {
        assert call.closure[0].key == Presented(w, CallMetas(call))[0 + 2].key;
        assert call.closure[1].key == Presented(w, CallMetas(call))[1 + 2].key;
      }
    }
  }

  lemma AmountFaulted(payload: FixedPayload, length: nat)
    requires 0 < length <= 128
    ensures HelperAmount(payload[..length]).Err? ==> HelperAmount(payload[..length]).error == InvalidHelperPayload
  {
  }

  /** The fault that each failing call reports: authenticity first, then price, helper, sequence and mode. */
  predicate EngineFault(w: Store, call: PhaseCall, around: Surroundings, fault: EngineError) {
    if !Authentic(w, call) then AuthenticFault(w, call, fault)
    else if Priced(w, call).Err? then fault == Quote(Priced(w, call).error)
    else
      && call.entry != PHASE_PREPARE
      && if CallsHelper(call.request.binding) && !HelperServes(w, call, around.helper) then
           HelperFault(w, call, around.helper, fault)
         else if PlanStateAt(w, call.state.key).sequence == U64_MAX then fault == SequenceOverflow
         else
           && fault == DeliberateLateCommitFailure && PlanStateAt(w, call.state.key).mode == 11
           && call.entry == PHASE_COMMIT
  }

  lemma EvaluatedFaulted(w: Store, call: PhaseCall, around: Surroundings)
    ensures Evaluated(w, call, around).Err? ==> EngineFault(w, call, around, Evaluated(w, call, around).error)
  {
    hide Authenticated, Authentic, AuthenticFault, AfterHelper, HelperServes, HelperFault, Presented, CallMetas,
         FixedMath.QuoteExactIn;
    AuthenticExactly(w, call);
    AuthenticFaulted(w, call);
    if Authenticated(w, call).Ok? {
      AuthenticShape(w, call);
      HelperExactly(w, call, around.helper);
      HelperFaulted(w, call, around.helper);
    }
  }

  /** Setting the probe mode, exactly: the state's authority, a mode up to 11, and nothing but the mode. */
  lemma ModeSetExactly(w: Store, state: Key, authority: Key, mode: byte)
    ensures ModeSet(w, state, authority, mode).Ok? <==>
              IsPlanState(w, state) && PlanStateAt(w, state).authority == authority && mode <= 11
    ensures ModeSet(w, state, authority, mode).Ok? ==>
              var w' := ModeSet(w, state, authority, mode).value;
              && IsPlanState(w', state) && PlanStateAt(w', state) == PlanStateAt(w, state).(mode := mode)
              && forall k :: k != state ==> SameAt(w, w', k)
    ensures ModeSet(w, state, authority, mode).Err? ==>
              match ModeSet(w, state, authority, mode).error
              case InvalidEngineState => !IsPlanState(w, state)
              case InvalidAuthority => IsPlanState(w, state) && PlanStateAt(w, state).authority != authority
              case InvalidMode => mode > 11
              case _ => false
  {
  }
}
