/** How an execution moves engine state: exactly one sequence step of the one state it names. */
module Sequence {
  import opened Base
  import opened Bindings
  import opened Keys
  import opened Ledger
  import opened Capabilities
  import opened PlanEngine
  import opened Runtime
  import opened Core
  import opened Frames
  import opened ExecuteInstruction

  /** A state of the constant-product engine, without the probe mode. */
  function Progress(s: EngineState): EngineState { s.(mode := MODE_ACCEPT) }

  /** What initialization fixed for good. */
  predicate SameTerms(s: EngineState, s': EngineState) {
    && s'.authority == s.authority && s'.market == s.market && s'.revision == s.revision
    && s'.lpFeeBps == s.lpFeeBps && s'.timingMode == s.timingMode
  }

  /** A state as it is initialized: sound terms, no completed phase. */
  predicate Initialized(s: EngineState) {
    && 0 < s.revision && s.lpFeeBps < 10_000 && s.timingMode <= 1 && s.sequence == 0
    && s.lastIntentDigest == ZERO && s.lastPhaseContextDigest == ZERO && s.lastExecutionDigest == ZERO
    && s.lastAmountOut == 0 && s.lastPhase == 255
  }

  function SequenceAt(w: Store, k: Key): nat {
    if IsPlanState(w, k) then PlanStateAt(w, k).sequence else 0
  }

  /** A completed phase of the constant-product engine stepped from the state it found. */
  lemma PlanPhase(v: Store, e: Envelope, adm: Admission, request: Request, outcome: EngineOutcome)
    requires e.engineProgram.key == PLAN_ENGINE && Phase(v, e, adm, request, outcome).Ok?
    ensures var v' := Phase(v, e, adm, request, outcome).value.0;
            && IsPlanState(v, e.engineState.key) && IsPlanState(v', e.engineState.key)
            && PlanStateAt(v, e.engineState.key).market == request.binding.market
            && PlanStateAt(v, e.engineState.key).sequence == request.binding.preSequence
            && PlanStateAt(v', e.engineState.key).sequence
               == PlanStateAt(v, e.engineState.key).sequence + (if request.binding.phase == PHASE_PREPARE then 0 else 1)
            && SameTerms(PlanStateAt(v, e.engineState.key), PlanStateAt(v', e.engineState.key))
  {
    hide Evaluated, ReceiptFrom, ReceiptBinds, PhaseMetas, PhaseDescriptors, ObservedDescriptors, FixedPrivileges,
         CallbackFor;
    var call := CallFor(e, adm, request);
    assert call.state.key == e.engineState.key && call.entry == request.binding.phase by { CallLayout(e, adm,
        request); }
    EvaluationEffect(v, call, outcome.around);
    AuthenticatedState(v, call, outcome.around);
    EvaluatedTerms(v, call, outcome.around);
  }

  lemma EvaluatedTerms(w: Store, call: PhaseCall, around: Surroundings)
    requires Evaluated(w, call, around).Ok?
    ensures var w' := Evaluated(w, call, around).value.store;
            && IsPlanState(w, call.state.key) && IsPlanState(w', call.state.key)
            && SameTerms(PlanStateAt(w, call.state.key), PlanStateAt(w', call.state.key))
  {
    hide PricedOutput, AfterHelper, Emitted, Presented, ObservedDescriptors, FixedPrivileges;
  }

  lemma AuthenticatedState(w: Store, call: PhaseCall, around: Surroundings)
    requires Evaluated(w, call, around).Ok?
    ensures IsPlanState(w, call.state.key)
    ensures PlanStateAt(w, call.state.key).market == call.request.binding.market
    ensures PlanStateAt(w, call.state.key).sequence == call.request.binding.preSequence
  {
    hide PricedOutput, AfterHelper, Emitted, Advanced, Presented, ObservedDescriptors, FixedPrivileges;
  }

  /** The engine state's own entry is written by the engine's call and by nothing else. */
  lemma StateEntry(w: Store, final: Store, ix: ExecuteIx, adm: Admission, amountOut: u64)
    requires Admitted(w, ix, adm) && CanAccount(w, ix.e, ix.args.amountIn, adm.fee, amountOut)
    ensures SameAt(final, Accounted(w, final, ix.e, ix.args.amountIn, adm.fee, amountOut), ix.e.engineState.key)
  {
    hide Admitted;
    StateOwner(w, ix, adm);
  }

  lemma StateEntrySettled(w: Store, w1: Store, ix: ExecuteIx, adm: Admission, amountOut: u64)
    requires Admitted(w, ix, adm) && CanSettle(w, ix.e, ix.args.amountIn, adm.fee, amountOut)
    requires CanSettle(w1, ix.e, ix.args.amountIn, adm.fee, amountOut)
    ensures SameAt(w1, Settled(w1, ix.e, ix.args.amountIn, adm.fee, amountOut), ix.e.engineState.key)
  {
    hide Admitted, CanSettle, Settled;
    StateOwner(w, ix, adm);
    SettledFrame(w, w1, ix.e, ix.args.amountIn, adm.fee, amountOut, ix.e.engineState.key);
  }

  lemma SettledFrame(w: Store, w1: Store, e: Envelope, amountIn: u64, fee: u64, amountOut: u64, k: Key)
    requires CanSettle(w, e, amountIn, fee, amountOut) && CanSettle(w1, e, amountIn, fee, amountOut)
    requires OwnerOf(w, k) != TOKEN_PROGRAM
    ensures SameAt(w1, Settled(w1, e, amountIn, fee, amountOut), k)
  {
  }

  /** The admitted market's engine state, when it is the constant-product engine's, steps exactly once. */
  lemma ExecutionSteps(w: Store, ix: ExecuteIx, slot: u64, primary: EngineOutcome, commit: EngineOutcome)
    requires Inv(w) && ExecuteSpec(w, ix, slot, primary, commit).Ok? && ix.e.engineProgram.key == PLAN_ENGINE
    ensures var w', k := ExecuteSpec(w, ix, slot, primary, commit).value.store, ix.e.engineState.key;
            && IsPlanState(w, k) && IsPlanState(w', k)
            && PlanStateAt(w, k).market == ix.e.market.key
            && PlanStateAt(w, k).sequence == ix.args.expectedEngineSequence
            && PlanStateAt(w', k).sequence == ix.args.expectedEngineSequence + 1
            && SameTerms(PlanStateAt(w, k), PlanStateAt(w', k))
  {
    hide Admit, Inv, Admitted, CanSettle, CanAccount, Guarded, Constrained, Settled, Accounted, Phase, RequestFor,
         SettlementDigest;
    var adm, e, k := Admit(w, ix, slot).value, ix.e, ix.e.engineState.key;
    AdmissionFacts(w, ix, slot);
    AdmittedShape(w, ix, adm);
    AdmittedTiming(w, ix, adm);
    PrimaryFacts(w, ix, adm, primary);
    var (w1, receipt) := Primary(w, ix, adm, primary).value;
    var settled := Settled(w1, e, ix.args.amountIn, adm.fee, receipt.amountOut);
    SettledTokens(w1, e, ix.args.amountIn, adm.fee, receipt.amountOut);
    var final := Closing(w, settled, ix, adm, receipt, commit).value;
    StateEntry(w, final, ix, adm, receipt.amountOut);
    var request := RequestFor(w, ix, adm, adm.phase, ZERO, ix.args.expectedEngineSequence);
    RequestShape(w, ix, adm, adm.phase, ZERO, ix.args.expectedEngineSequence);
    PlanPhase(w, e, adm, request, primary);
    StateEntrySettled(w, w1, ix, adm, receipt.amountOut);
    if ix.args.timingMode == TIMING_PREPARE_COMMIT {
      var context := SettlementDigest(w, settled, ix, adm, receipt, request);
      RequestShape(w, ix, adm, PHASE_COMMIT, context, receipt.stateSequence);
      PlanPhase(settled, e, adm, RequestFor(w, ix, adm, PHASE_COMMIT, context, receipt.stateSequence), commit);
    }
  }

  lemma RequestShape(w: Store, ix: ExecuteIx, adm: Admission, phase: byte, context: Digest, preSequence: u64)
    requires Constrained(w, ix.e) && |ix.args.opaquePayload| <= MAX_OPAQUE_PAYLOAD_LEN
    requires |ix.closure| <= MAX_OPAQUE_ACCOUNTS
    ensures var b := RequestFor(w, ix, adm, phase, context, preSequence).binding;
            && b.phase == phase && b.market == ix.e.market.key && b.preSequence == preSequence
            && b.phaseContextDigest == context
  {
  }

  /** Every other state of the engine keeps its progress, and a new state starts as initialized. */
  lemma ExecutionSparesStates(w: Store, ix: ExecuteIx, slot: u64, primary: EngineOutcome, commit: EngineOutcome, k: Key)
    requires Inv(w) && ExecuteSpec(w, ix, slot, primary, commit).Ok?
    requires !(ix.e.engineProgram.key == PLAN_ENGINE && k == ix.e.engineState.key)
    ensures var w' := ExecuteSpec(w, ix, slot, primary, commit).value.store;
            && (IsPlanState(w, k) ==> IsPlanState(w', k) && Progress(PlanStateAt(w', k)) == Progress(PlanStateAt(w, k)))
            && (!IsPlanState(w, k) && IsPlanState(w', k) ==> Initialized(PlanStateAt(w', k)))
  {
    hide ExecuteSpec, Admit, Inv, Admitted, CanSettle, CanAccount, Guarded, Predicted;
    ExecutionEffect(w, ix, slot, primary, commit);
    var x, adm := ExecuteSpec(w, ix, slot, primary, commit).value, Admit(w, ix, slot).value;
    var v := Predicted(w, ix, x.fee, x.amountOut);
    PredictedStates(w, ix, x.fee, x.amountOut, k);
    GuardedSparesStates(v, x.store, ix.e, ix.closure, k);
  }

  lemma PredictedStates(w: Store, ix: ExecuteIx, fee: u64, amountOut: u64, k: Key)
    requires CanSettle(w, ix.e, ix.args.amountIn, fee, amountOut)
    requires CanAccount(w, ix.e, ix.args.amountIn, fee, amountOut)
    ensures IsPlanState(w, k) || IsPlanState(Predicted(w, ix, fee, amountOut), k) ==>
              SameAt(w, Predicted(w, ix, fee, amountOut), k)
  {
  }

  lemma GuardedSparesStates(v: Store, w': Store, e: Envelope, closure: seq<AccountMeta>, k: Key)
    requires Guarded(v, w', e, closure) && !(e.engineProgram.key == PLAN_ENGINE && k == e.engineState.key)
    ensures IsPlanState(v, k) ==> IsPlanState(w', k) && Progress(PlanStateAt(w', k)) == Progress(PlanStateAt(v, k))
    ensures !IsPlanState(v, k) && IsPlanState(w', k) ==> Initialized(PlanStateAt(w', k))
  {
    hide EnvelopeKeys;
    assert SameAt(v, w', k) || WithinReach(v, w', e, closure, k);
  }
}
