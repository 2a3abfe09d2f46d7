/**
 * Executions with the accepting constant-product engine: exactly when they succeed, exactly what they
 * leave, and that PREPARE/COMMIT and TRANSITION are the same trade.
 */
module Honest {
  import opened Base
  import opened Bindings
  import opened Keys
  import opened Ledger
  import opened Errors
  import opened Capabilities
  import opened PlanEngine
  import opened Runtime
  import opened Core
  import opened Frames
  import FixedMath

  // ---- One phase ----

  /** The engine would price and accept this request from this state. */
  predicate EngineReady(s: EngineState, b: Execution) {
    && s.market == b.market && s.revision == b.engineRevision
    && ValidatePhaseForTiming(s.timingMode, b.phase).Ok?
    && s.sequence == b.preSequence && (b.phase != PHASE_PREPARE ==> s.sequence < U64_MAX)
    && FixedMath.QuoteExactIn(b.accountedInputBefore, b.accountedOutputBefore, b.amountIn, s.lpFeeBps).Ok?
  }

  function Quoted(s: EngineState, b: Execution): u64
    requires EngineReady(s, b)
  {
    FixedMath.QuoteExactIn(b.accountedInputBefore, b.accountedOutputBefore, b.amountIn, s.lpFeeBps).value.amountOut
  }

  /** The stores an execution calls the engine on: same owners, same executables. */
  ghost predicate SameShape(w: Store, v: Store) {
    forall k :: OwnerOf(v, k) == OwnerOf(w, k) && Executable(v, k) == Executable(w, k)
  }

  lemma SelfShape(w: Store)
    ensures SameShape(w, w)
  {
  }

  lemma SettledShape(w: Store, e: Envelope, amountIn: u64, fee: u64, amountOut: u64)
    requires Inv(w) && CanSettle(w, e, amountIn, fee, amountOut)
    ensures SameShape(w, Settled(w, e, amountIn, fee, amountOut))
  {
    hide MarketOk, SupplyOk, TokenOk;
    var v := Settled(w, e, amountIn, fee, amountOut);
    forall k ensures OwnerOf(v, k) == OwnerOf(w, k) && Executable(v, k) == Executable(w, k) {
      assert k in w ==> Placed(k, w[k]);
    }
  }

  /** A digest somebody hashed is never the all-zero digest. */
  lemma ContextNonzero(w: Store, settled: Store, ix: ExecuteIx, adm: Admission, primary: Receipt, request: Request)
    requires Constrained(w, ix.e) && CanAccount(w, ix.e, ix.args.amountIn, adm.fee, primary.amountOut)
    requires IsToken(settled, ix.e.source.key) && IsToken(settled, ix.e.destination.key)
    requires IsToken(settled, ix.e.vaultA.key) && IsToken(settled, ix.e.vaultB.key)
    requires IsToken(settled, ix.e.feeVault.key)
    ensures SettlementDigest(w, settled, ix, adm, primary, request) != ZERO
  {
    hide Constrained;
  }

  predicate Accepting(w: Store, e: Envelope) {
    && e.engineProgram.key == PLAN_ENGINE && IsPlanState(w, e.engineState.key)
    && PlanStateAt(w, e.engineState.key).mode == MODE_ACCEPT
  }

  predicate PhaseOf(adm: Admission, phase: byte) {
    phase == adm.phase || (phase == PHASE_COMMIT && adm.phase == PHASE_PREPARE)
  }

  /** Everything the engine sees of a call, in either phase. */
  function Seen(v: Store, e: Envelope, adm: Admission, request: Request): (infos: seq<AccountInfo>)
    ensures |infos| >= 2
  {
    Presented(v, CallMetas(CallFor(e, adm, request)))
  }

  lemma SameShapeLoads(w: Store, v: Store, metas: seq<AccountMeta>)
    requires SameShape(w, v)
    ensures Loaded(v, metas) == Loaded(w, metas)
  {
    assert forall i :: 0 <= i < |metas| ==> InfoOf(v, metas[i]) == InfoOf(w, metas[i]);
  }

  /** What the engine observes is what the program committed to: state, callback and closure alike. */
  lemma SeenAsCommitted(w: Store, v: Store, ix: ExecuteIx, adm: Admission, request: Request)
    requires Admitted(w, ix, adm) && SameShape(w, v) && PhaseOf(adm, request.binding.phase)
    ensures ObservedDescriptors(Seen(v, ix.e, adm, request))
         == PhaseDescriptors(ix.e.engineState.key, ix.e.engineProgram.key, adm.opaques,
                             request.binding.phase != PHASE_PREPARE)
  {
    hide OpaqueDescriptors, NoDuplicates, MarketOk, RebuiltIntent, EnvelopeKeys, PhaseDescriptors, PhaseMetas, CallFor,
         ObservedDescriptors, Presented, Constrained, CapabilityHash;
    var e, phase := ix.e, request.binding.phase;
    CallLayout(e, adm, request);
    StateOwner(w, ix, adm);
    CallbackRole(w, ix, adm, phase);
    SameShapeLoads(w, v, ix.closure);
    StateNotExecutable(w, ix, adm);
    CapabilityAgreement(v, ix.closure, EnvelopeKeys(e), e.engineState.key, CallbackFor(e, adm.intent, phase),
                        phase != PHASE_PREPARE);
  }

  lemma StateNotExecutable(w: Store, ix: ExecuteIx, adm: Admission)
    requires Admitted(w, ix, adm)
    ensures !Executable(w, ix.e.engineState.key)
  {
  }

  lemma CallbackRole(w: Store, ix: ExecuteIx, adm: Admission, phase: byte)
    requires Admitted(w, ix, adm) && PhaseOf(adm, phase)
    ensures ix.e.engineState.key in EnvelopeKeys(ix.e) && CallbackFor(ix.e, adm.intent, phase) in EnvelopeKeys(ix.e)
    ensures ix.e.engineState.key != CallbackFor(ix.e, adm.intent, phase)
  {
    hide OpaqueDescriptors, MarketOk, RebuiltIntent, PhaseDescriptors, CapabilityHash, IntentDigest;
    var keys := EnvelopeKeys(ix.e);
    assert keys[11] == ix.e.engineState.key && keys[13] == ix.e.primaryCallback.key;
    assert keys[14] == ix.e.commitCallback.key;
  }

  /** The infos of a call, role by role. */
  lemma SeenRoles(w: Store, v: Store, ix: ExecuteIx, adm: Admission, request: Request)
    requires Admitted(w, ix, adm) && NoProgramData(w) && SameShape(w, v) && PhaseOf(adm, request.binding.phase)
    ensures var infos, e, phase := Seen(v, ix.e, adm, request), ix.e, request.binding.phase;
            && |infos| == 2 + |ix.closure|
            && infos[0] == AccountInfo(e.engineState.key, false, phase != PHASE_PREPARE, e.engineProgram.key, false)
            && infos[1].key == CallbackFor(e, adm.intent, phase) && infos[1].isSigner && !infos[1].isWritable
            && !infos[1].executable
            && (forall i :: 2 <= i < |infos| ==>
                  && infos[i] == AccountInfo(adm.opaques[i - 2].key, false,
                                             phase != PHASE_PREPARE && adm.opaques[i - 2].isWritable,
                                             adm.opaques[i - 2].owner, adm.opaques[i - 2].isExecutable)
                  && infos[i].key !in EnvelopeKeys(e))
  {
    hide OpaqueDescriptors, NoDuplicates, MarketOk, RebuiltIntent, EnvelopeKeys, PhaseDescriptors, PhaseMetas, CallFor,
         Presented, Constrained, CapabilityHash, IntentDigest;
    var e, phase := ix.e, request.binding.phase;
    AcceptedClosure(w, ix.closure, EnvelopeKeys(e));
    CallLayout(e, adm, request);
    SeenAsCommitted(w, v, ix, adm, request);
    CallbackRole(w, ix, adm, phase);
    SeenDescriptors(v, ix.e, adm, request);
    CallbackSeen(w, v, ix, adm, request);
  }

  /** Reading the infos back from the observed descriptors. */
  lemma SeenDescriptors(v: Store, e: Envelope, adm: Admission, request: Request)
    requires ObservedDescriptors(Seen(v, e, adm, request))
          == PhaseDescriptors(e.engineState.key, e.engineProgram.key, adm.opaques,
                              request.binding.phase != PHASE_PREPARE)
    ensures var infos, phase := Seen(v, e, adm, request), request.binding.phase;
            && |infos| == 2 + |adm.opaques|
            && infos[0] == AccountInfo(e.engineState.key, false, phase != PHASE_PREPARE, e.engineProgram.key, false)
            && forall i :: 2 <= i < |infos| ==>
                 infos[i] == AccountInfo(adm.opaques[i - 2].key,
                                         if phase == PHASE_PREPARE then false else adm.opaques[i - 2].isSigner,
                                         phase != PHASE_PREPARE && adm.opaques[i - 2].isWritable,
                                         adm.opaques[i - 2].owner, adm.opaques[i - 2].isExecutable)
  {
    var infos, phase := Seen(v, e, adm, request), request.binding.phase;
    CallLayout(e, adm, request);
    var ds := PhaseDescriptors(e.engineState.key, e.engineProgram.key, adm.opaques, phase != PHASE_PREPARE);
    hide CallFor, PhaseDescriptors, PhaseMetas;
    var os := ObservedDescriptors(infos);
    assert os[0] == Observed(infos[0]);
    assert ds[0] == CapabilityDescriptor(e.engineState.key, e.engineProgram.key, phase != PHASE_PREPARE, false,
                                         false) by {
      PhaseDescriptorsAt(e, adm, phase, 0);
    }
    forall i | 2 <= i < |infos|
      ensures infos[i] == AccountInfo(adm.opaques[i - 2].key,
                                      if phase == PHASE_PREPARE then false else adm.opaques[i - 2].isSigner,
                                      phase != PHASE_PREPARE && adm.opaques[i - 2].isWritable,
                                      adm.opaques[i - 2].owner, adm.opaques[i - 2].isExecutable)
    {
      assert os[i - 1] == Observed(infos[i]);
      PhaseDescriptorsAt(e, adm, phase, i - 1);
    }
  }

  lemma PhaseDescriptorsAt(e: Envelope, adm: Admission, phase: byte, i: nat)
    requires i < 1 + |adm.opaques|
    ensures PhaseDescriptors(e.engineState.key, e.engineProgram.key, adm.opaques, phase != PHASE_PREPARE)[i]
         == if i == 0
            then CapabilityDescriptor(e.engineState.key, e.engineProgram.key, phase != PHASE_PREPARE, false, false)
            else if phase != PHASE_PREPARE then adm.opaques[i - 1] else ReadOnly(adm.opaques[i - 1])
  {
  }

  lemma CallbackSeen(w: Store, v: Store, ix: ExecuteIx, adm: Admission, request: Request)
    requires Admitted(w, ix, adm) && NoProgramData(w) && SameShape(w, v) && PhaseOf(adm, request.binding.phase)
    ensures var infos, e, phase := Seen(v, ix.e, adm, request), ix.e, request.binding.phase;
            && infos[1].key == CallbackFor(e, adm.intent, phase) && infos[1].isSigner
            && !infos[1].isWritable && !infos[1].executable
  {
    hide OpaqueDescriptors, NoDuplicates, MarketOk, RebuiltIntent, EnvelopeKeys, PhaseDescriptors, PhaseMetas, CallFor,
         Constrained, CapabilityHash, IntentDigest;
    var e, phase := ix.e, request.binding.phase;
    CallLayout(e, adm, request);
    LentAccounts(w, ix, adm, request);
    CallbackRole(w, ix, adm, phase);
    var metas := CallMetas(CallFor(e, adm, request));
    var callback := CallbackFor(e, adm.intent, phase);
    assert metas[1] == AccountMeta(callback, true, false);
    assert SignerIn(metas, callback);
    assert !Executable(w, callback) by {
      assert callback in w ==> Placed(callback, w[callback]);
    }
    assert Executable(v, callback) == Executable(w, callback);
  }

  /** No closure account of a call plays a fixed role or asks for more than its phase allows. */
  lemma ClosurePrivileges(w: Store, v: Store, ix: ExecuteIx, adm: Admission, request: Request)
    requires Admitted(w, ix, adm) && NoProgramData(w) && SameShape(w, v) && PhaseOf(adm, request.binding.phase)
    requires KnownPhase(request.binding.phase)
    ensures ClosureScan(Seen(v, ix.e, adm, request), request.binding.phase, 2).Ok?
  {
    hide Admitted, Seen, EnvelopeKeys, NoProgramData, SameShape, CallbackFor, ClosureScan, PhaseOf;
    SeenRoles(w, v, ix, adm, request);
    CallbackRole(w, ix, adm, request.binding.phase);
    var infos := Seen(v, ix.e, adm, request);
    forall j | 2 <= j < |infos| ensures ClosureVerdict(infos, request.binding.phase, j).Ok? {
      assert infos[j].key !in EnvelopeKeys(ix.e);
    }
    ClosureScanAccepts(infos, request.binding.phase, 2);
  }

  /** The engine's privilege checks pass on every call the program builds. */
  lemma PrivilegesHold(w: Store, v: Store, ix: ExecuteIx, adm: Admission, request: Request)
    requires Admitted(w, ix, adm) && NoProgramData(w) && SameShape(w, v) && PhaseOf(adm, request.binding.phase)
    ensures KnownPhase(request.binding.phase) && FixedPrivileges(Seen(v, ix.e, adm, request), request.binding.phase).Ok?
  {
    AdmittedPhases(w, ix, adm);
    hide Admitted, Seen, EnvelopeKeys, NoProgramData, SameShape, CallbackFor, ClosureScan, ClosureVerdict;
    SeenRoles(w, v, ix, adm, request);
    CallbackRole(w, ix, adm, request.binding.phase);
    ClosurePrivileges(w, v, ix, adm, request);
  }

  lemma AdmittedPhases(w: Store, ix: ExecuteIx, adm: Admission)
    requires Admitted(w, ix, adm)
    ensures adm.phase == PHASE_TRANSITION || adm.phase == PHASE_PREPARE
    ensures adm.phase == PHASE_TRANSITION <==> ix.args.timingMode == TIMING_SINGLE
  {
  }

  /** Every request the program builds decodes, and carries the closure's size, hash and callback. */
  lemma RequestHolds(w: Store, ix: ExecuteIx, adm: Admission, phase: byte, context: Digest, preSequence: u64)
    requires Constrained(w, ix.e) && |ix.args.opaquePayload| <= MAX_OPAQUE_PAYLOAD_LEN
    requires |ix.closure| <= MAX_OPAQUE_ACCOUNTS
    requires KnownPhase(phase) && (context != ZERO <==> phase == PHASE_COMMIT)
    ensures var r := RequestFor(w, ix, adm, phase, context, preSequence);
            && ValidRequest(r) && r.binding.opaqueAccountCount == |ix.closure|
            && r.binding.phase == phase && r.binding.preSequence == preSequence
            && r.binding.intentDigest == IntentDigest(adm.intent)
            && r.binding.market == ix.e.market.key && r.binding.domain == ix.e.domain.key
            && r.binding.phaseCapabilityHash
               == CapabilityHash(ix.e.engineProgram.key,
                    PhaseDescriptors(ix.e.engineState.key, ix.e.engineProgram.key, adm.opaques, phase != PHASE_PREPARE))
            && r.binding.payloadLen == |ix.args.opaquePayload|
            && r.binding.payload[..r.binding.payloadLen] == ix.args.opaquePayload
  {
    hide PhaseDescriptors, Constrained;
  }

  lemma ClosureCount(w: Store, ix: ExecuteIx, adm: Admission)
    requires Admitted(w, ix, adm)
    ensures |adm.opaques| == |ix.closure|
  {
    AcceptedClosure(w, ix.closure, EnvelopeKeys(ix.e));
  }

  /** A phase's request, with its well-formedness. */
  predicate Requested(w: Store, ix: ExecuteIx, adm: Admission, phase: byte, context: Digest, preSequence: u64,
                      r: Request) {
    && Constrained(w, ix.e) && |ix.args.opaquePayload| <= MAX_OPAQUE_PAYLOAD_LEN && |ix.closure| <= MAX_OPAQUE_ACCOUNTS
    && (context != ZERO <==> phase == PHASE_COMMIT)
    && r == RequestFor(w, ix, adm, phase, context, preSequence)
  }

  /** A call whose account list, encoding and hash are in order. */
  predicate InOrder(v: Store, call: PhaseCall) {
    var b, infos := call.request.binding, Presented(v, CallMetas(call));
    && ValidRequest(call.request) && b.phase == call.entry
    && |call.closure| == b.opaqueAccountCount && |call.closure| <= MAX_OPAQUE_ACCOUNTS
    && KnownPhase(b.phase) && FixedPrivileges(infos, b.phase).Ok?
    && call.callback.key == CallbackPda(PLAN_ENGINE, call.state.key, b.market, b.domain, b.intentDigest, b.phase)
    && CapabilityHash(PLAN_ENGINE, ObservedDescriptors(infos)) == b.phaseCapabilityHash
  }

  /** Such a call authenticates exactly when market, revision, timing and sequence match. */
  lemma InOrderAuthenticates(v: Store, call: PhaseCall)
    requires InOrder(v, call) && IsPlanState(v, call.state.key) && PlanStateAt(v, call.state.key).mode <= LAST_MODE
    ensures var s, b := PlanStateAt(v, call.state.key), call.request.binding;
            Authenticated(v, call).Ok? <==>
              && s.market == b.market && s.revision == b.engineRevision
              && ValidatePhaseForTiming(s.timingMode, b.phase).Ok? && s.sequence == b.preSequence
    ensures Authenticated(v, call).Ok? ==> Authenticated(v, call).value == PlanStateAt(v, call.state.key)
  {
    hide ValidRequest, FixedPrivileges, ObservedDescriptors, Presented, ValidatePhaseForTiming, CallMetas;
  }

  /** Every call the program builds is in order: encoding, privileges, callback and capability checks pass. */
  lemma CallsInOrder(w: Store, v: Store, ix: ExecuteIx, adm: Admission, phase: byte, context: Digest,
                     preSequence: u64, r: Request)
    requires Admitted(w, ix, adm) && NoProgramData(w) && SameShape(w, v) && PhaseOf(adm, phase)
    requires Requested(w, ix, adm, phase, context, preSequence, r) && ix.e.engineProgram.key == PLAN_ENGINE
    ensures InOrder(v, CallFor(ix.e, adm, r)) && CallFor(ix.e, adm, r).state.key == ix.e.engineState.key
    ensures CallFor(ix.e, adm, r).request == r && CallFor(ix.e, adm, r).entry == phase
    ensures r.binding.phase == phase && r.binding.preSequence == preSequence
  {
    AdmittedPhases(w, ix, adm);
    hide Admitted, EnvelopeKeys, NoProgramData, SameShape, FixedPrivileges, ObservedDescriptors, PhaseDescriptors,
         PhaseMetas, CallFor, RequestFor, Constrained, Presented, ValidRequest, CapabilityHash, IntentDigest, CallMetas;
    RequestHolds(w, ix, adm, phase, context, preSequence);
    CallLayout(ix.e, adm, r);
    ClosureCount(w, ix, adm);
    PrivilegesHold(w, v, ix, adm, r);
    SeenAsCommitted(w, v, ix, adm, r);
    CallRequest(ix.e, adm, r);
  }

  lemma CallRequest(e: Envelope, adm: Admission, r: Request)
    ensures CallFor(e, adm, r).request == r && CallFor(e, adm, r).entry == r.binding.phase
  {
  }

  function HelperFor(v: Store, e: Envelope, adm: Admission, r: Request, helper: Option<Data>)
    : Result<Store, EngineError>
    requires ValidRequest(r)
  {
    ValidRequestPayload(r);
    HelperWrites(Seen(v, e, adm, r), r.binding.payload[..r.binding.payloadLen], helper)
  }

  /** The store and receipt of a completed phase. */
  predicate PhaseLeaves(v: Store, e: Envelope, r: Request, writes: Store, done: (Store, Receipt)) {
    && IsPlanState(v, e.engineState.key)
    && var s := PlanStateAt(v, e.engineState.key);
    && EngineReady(s, r.binding)
    && done.1 == ReceiptFor(r, Quoted(s, r.binding), s.sequence + (if r.binding.phase == PHASE_PREPARE then 0 else 1))
    && done.0 == (if r.binding.phase == PHASE_PREPARE then v
                  else (v + writes)[e.engineState.key := PlanEntry(Advanced(s, r, Quoted(s, r.binding)))])
  }

  /** A phase of the accepting engine: exactly when it succeeds, and exactly what it leaves. */
  lemma HonestPhase(w: Store, v: Store, ix: ExecuteIx, adm: Admission, phase: byte, context: Digest, preSequence: u64,
                    r: Request, outcome: EngineOutcome)
    requires Admitted(w, ix, adm) && NoProgramData(w) && SameShape(w, v) && PhaseOf(adm, phase)
    requires Requested(w, ix, adm, phase, context, preSequence, r) && Accepting(v, ix.e)
    ensures ValidRequest(r) && r.binding.phase == phase
    ensures Phase(v, ix.e, adm, r, outcome).Ok? <==>
              && EngineReady(PlanStateAt(v, ix.e.engineState.key), r.binding)
              && (phase != PHASE_PREPARE ==> HelperFor(v, ix.e, adm, r, outcome.around.helper).Ok?)
    ensures Phase(v, ix.e, adm, r, outcome).Err? ==> Phase(v, ix.e, adm, r, outcome).error.EngineFailed?
    ensures Phase(v, ix.e, adm, r, outcome).Ok? ==>
              PhaseLeaves(v, ix.e, r,
                          if phase == PHASE_PREPARE then map[]
                            else HelperFor(v, ix.e, adm, r, outcome.around.helper).value,
                          Phase(v, ix.e, adm, r, outcome).value)
  {
    hide Admitted, EnvelopeKeys, NoProgramData, SameShape, CallFor, Constrained, Presented, ValidRequest, Authenticated,
         Requested, HelperWrites, ValidatePhaseForTiming, InOrder;
    CallsInOrder(w, v, ix, adm, phase, context, preSequence, r);
    var call := CallFor(ix.e, adm, r);
    InOrderAuthenticates(v, call);
    InOrderValid(v, call);
    ValidRequestPayload(r);
  }

  lemma InOrderValid(v: Store, call: PhaseCall)
    requires InOrder(v, call)
    ensures ValidRequest(call.request)
  {
  }

  lemma ValidRequestPayload(r: Request)
    requires ValidRequest(r)
    ensures r.binding.payloadLen <= MAX_OPAQUE_PAYLOAD_LEN && KnownPhase(r.binding.phase)
  {
  }
}
