/**
 * Whole executions with the accepting constant-product engine: exactly when they succeed, exactly what
 * they leave, that PREPARE/COMMIT and TRANSITION are the same trade, and the product they never lower.
 */
module Trades {
  import opened Base
  import opened Bindings
  import opened Keys
  import opened Ledger
  import opened Errors
  import opened Capabilities
  import opened PlanEngine
  import opened Runtime
  import opened Core
  import opened Frames
  import opened ExecuteInstruction
  import opened Sequence
  import opened Honest
  import FixedMath
  import PathMath
  import Receipts

  // ---- When a trade succeeds ----

  /** The account list the helper sees, whichever phase invokes it. */
  function ClosureInfos(e: Envelope, opaques: seq<Descriptor>): (infos: seq<AccountInfo>)
    ensures |infos| == 2 + |opaques|
  {
    [AccountInfo(e.engineState.key, false, true, e.engineProgram.key, false),
     AccountInfo(e.commitCallback.key, true, false, SYSTEM_PROGRAM, false)]
    + seq(|opaques|, i requires 0 <= i < |opaques| =>
        AccountInfo(opaques[i].key, false, opaques[i].isWritable, opaques[i].owner, opaques[i].isExecutable))
  }

  /** The callback's own address matters to the helper checks only if a helper account aliases it. */
  lemma HelperAgrees(infos: seq<AccountInfo>, infos': seq<AccountInfo>, payload: seq<byte>, helper: Option<Data>)
    requires |infos| == |infos'| >= 2 && infos[0].key == infos'[0].key && infos[2..] == infos'[2..]
    requires forall i :: 2 <= i < |infos| ==> infos[i].key != infos[1].key && infos[i].key != infos'[1].key
    ensures HelperWrites(infos, payload, helper) == HelperWrites(infos', payload, helper)
  {
    if |infos| >= 4 {
      assert infos[2] == infos[2..][0] == infos'[2..][0] == infos'[2];
      assert infos[3] == infos[2..][1] == infos'[2..][1] == infos'[3];
    }
  }

  function Helped(e: Envelope, adm: Admission, payload: seq<byte>, helper: Option<Data>): Result<Store, EngineError> {
    HelperWrites(ClosureInfos(e, adm.opaques), payload, helper)
  }

  lemma HelperIsHelped(w: Store, v: Store, ix: ExecuteIx, adm: Admission, phase: byte, context: Digest,
                       preSequence: u64,
                       r: Request, helper: Option<Data>)
    requires Admitted(w, ix, adm) && NoProgramData(w) && SameShape(w, v) && PhaseOf(adm, phase)
    requires phase != PHASE_PREPARE
    requires Requested(w, ix, adm, phase, context, preSequence, r)
    requires ValidRequest(r) && r.binding.phase == phase
    requires KnownPhase(phase)
    ensures HelperFor(v, ix.e, adm, r, helper) == Helped(ix.e, adm, ix.args.opaquePayload, helper)
  {
    hide Admitted, EnvelopeKeys, NoProgramData, SameShape, Seen, Constrained, ValidRequest, HelperWrites, RequestFor,
         CallbackFor;
    SeenRoles(w, v, ix, adm, r);
    RequestHolds(w, ix, adm, phase, context, preSequence);
    ClosureCount(w, ix, adm);
    CommitRole(w, ix, adm);
    CallbackRole(w, ix, adm, phase);
    var infos, canonical := Seen(v, ix.e, adm, r), ClosureInfos(ix.e, adm.opaques);
    forall i | 2 <= i < |infos|
      ensures infos[i] == canonical[i] && infos[i].key != infos[1].key && infos[i].key != canonical[1].key
    {
      assert infos[i].key !in EnvelopeKeys(ix.e);
    }
    assert infos[2..] == canonical[2..];
    HelperAgrees(infos, canonical, ix.args.opaquePayload, helper);
  }

  lemma CommitRole(w: Store, ix: ExecuteIx, adm: Admission)
    requires Admitted(w, ix, adm)
    ensures ix.e.commitCallback.key in EnvelopeKeys(ix.e)
  {
    hide Admitted;
    assert EnvelopeKeys(ix.e)[14] == ix.e.commitCallback.key;
  }

  /** The conditions beyond admission under which the accepting engine's trade goes through. */
  predicate TradeReady(w: Store, ix: ExecuteIx, adm: Admission, helper: Option<Data>)
    requires Constrained(w, ix.e) && IsPlanState(w, ix.e.engineState.key)
  {
    var s, d, args := PlanStateAt(w, ix.e.engineState.key), DomainAt(w, ix.e.domain.key), ix.args;
    var quote := FixedMath.QuoteExactIn(d.accountedA, d.accountedB, args.amountIn, s.lpFeeBps);
    && s.market == ix.e.market.key && s.revision == MarketAt(w, ix.e.market.key).engineRevision
    && s.timingMode == args.timingMode && s.sequence == args.expectedEngineSequence < U64_MAX
    && quote.Ok? && args.minOutputCredit <= quote.value.amountOut
    && Helped(ix.e, adm, args.opaquePayload, helper).Ok?
  }

  /** The quoted output of a trade. */
  function TradeOutput(w: Store, ix: ExecuteIx): u64
    requires Constrained(w, ix.e) && IsPlanState(w, ix.e.engineState.key)
  {
    var s, d := PlanStateAt(w, ix.e.engineState.key), DomainAt(w, ix.e.domain.key);
    match FixedMath.QuoteExactIn(d.accountedA, d.accountedB, ix.args.amountIn, s.lpFeeBps)
    case Ok(quote) => quote.amountOut
    case Err(_) => 0
  }

  function EffectiveHelper(ix: ExecuteIx, primary: EngineOutcome, commit: EngineOutcome): Option<Data> {
    if ix.args.timingMode == TIMING_SINGLE then primary.around.helper else commit.around.helper
  }

  function PrimaryRequest(w: Store, ix: ExecuteIx, adm: Admission): Request
    requires Constrained(w, ix.e) && |ix.args.opaquePayload| <= MAX_OPAQUE_PAYLOAD_LEN
    requires |ix.closure| <= MAX_OPAQUE_ACCOUNTS
  {
    RequestFor(w, ix, adm, adm.phase, ZERO, ix.args.expectedEngineSequence)
  }

  predicate Tradable(w: Store, ix: ExecuteIx, adm: Admission, amountOut: u64) {
    && Constrained(w, ix.e) && |ix.args.opaquePayload| <= MAX_OPAQUE_PAYLOAD_LEN && |ix.closure| <= MAX_OPAQUE_ACCOUNTS
    && CanSettle(w, ix.e, ix.args.amountIn, adm.fee, amountOut)
    && CanAccount(w, ix.e, ix.args.amountIn, adm.fee, amountOut)
    && IsPlanState(w, ix.e.engineState.key) && PlanStateAt(w, ix.e.engineState.key).sequence < U64_MAX
  }

  /** The request whose completion the engine state records: TRANSITION, or COMMIT over the settled balances. */
  function FinalRequest(w: Store, ix: ExecuteIx, adm: Admission, amountOut: u64): Request
    requires Tradable(w, ix, adm, amountOut)
  {
    hide Constrained, RequestFor, CanSettle, CanAccount;
    var request := PrimaryRequest(w, ix, adm);
    if ix.args.timingMode != TIMING_PREPARE_COMMIT then request else
    var settled := Settled(w, ix.e, ix.args.amountIn, adm.fee, amountOut);
    SettledTokens(w, ix.e, ix.args.amountIn, adm.fee, amountOut);
    var receipt := ReceiptFor(request, amountOut, ix.args.expectedEngineSequence);
    RequestFor(w, ix, adm, PHASE_COMMIT, SettlementDigest(w, settled, ix, adm, receipt, request),
               ix.args.expectedEngineSequence)
  }

  /** The store a trade leaves: settlement, the helper's write, the engine's step, accounting. */
  function TradeStore(w: Store, ix: ExecuteIx, adm: Admission, amountOut: u64, writes: Store): Store
    requires Tradable(w, ix, adm, amountOut)
  {
    hide Constrained, RequestFor;
    var e, amountIn := ix.e, ix.args.amountIn;
    var s := PlanStateAt(w, e.engineState.key);
    Accounted(w,
      (Settled(w, e, amountIn, adm.fee, amountOut) + writes)
        [e.engineState.key := PlanEntry(Advanced(s, FinalRequest(w, ix, adm, amountOut), amountOut))],
      e, amountIn, adm.fee, amountOut)
  }

  /** What a helper may write is no account that settlement touches. */
  lemma WritesAvoidTokens(w: Store, ix: ExecuteIx, adm: Admission, helper: Option<Data>)
    requires Admitted(w, ix, adm) && Helped(ix.e, adm, ix.args.opaquePayload, helper).Ok?
    ensures forall k :: k in Helped(ix.e, adm, ix.args.opaquePayload, helper).value ==>
              && OwnerOf(w, k) == HELPER_PROGRAM && k != ix.e.engineState.key
              && Helped(ix.e, adm, ix.args.opaquePayload, helper).value[k].owner == HELPER_PROGRAM
              && !Helped(ix.e, adm, ix.args.opaquePayload, helper).value[k].executable && !Executable(w, k)
  {
    hide OpaqueDescriptors, NoDuplicates, MarketOk, RebuiltIntent, EnvelopeKeys, PhaseDescriptors, Constrained,
         CapabilityHash, CallbackFor, IntentDigest, HelperAmount;
    AcceptedClosure(w, ix.closure, EnvelopeKeys(ix.e));
  }

  lemma StepKeepsTokens(w: Store, e: Envelope, amountIn: u64, fee: u64, amountOut: u64, writes: Store, k: Key,
                        a: Account)
    requires CanSettle(w, e, amountIn, fee, amountOut)
    requires (forall j :: j in writes ==> OwnerOf(w, j) != TOKEN_PROGRAM) && OwnerOf(w, k) != TOKEN_PROGRAM
    ensures CanSettle((w + writes)[k := a], e, amountIn, fee, amountOut)
    ensures forall j :: j in SettlementKeys(e) ==>
              && j !in writes && j != k && IsToken(w, j)
              && IsToken((w + writes)[k := a], j) && TokenAt((w + writes)[k := a], j) == TokenAt(w, j)
  {
  }

  /** Settlement after the engine's step is the engine's step after settlement. */
  lemma StepsCommute(w: Store, e: Envelope, amountIn: u64, fee: u64, amountOut: u64, writes: Store, k: Key, a: Account)
    requires CanSettle(w, e, amountIn, fee, amountOut)
    requires (forall j :: j in writes ==> OwnerOf(w, j) != TOKEN_PROGRAM) && OwnerOf(w, k) != TOKEN_PROGRAM
    ensures var w1 := (w + writes)[k := a];
            && CanSettle(w1, e, amountIn, fee, amountOut)
            && Settled(w1, e, amountIn, fee, amountOut) == (Settled(w, e, amountIn, fee, amountOut) + writes)[k := a]
  {
    StepKeepsTokens(w, e, amountIn, fee, amountOut, writes, k, a);
    hide CanSettle;
    SettledFits(w, e, amountIn, fee, amountOut);
    var s1 := TokenEntry(Spent(TokenAt(w, e.source.key), amountIn + fee).(delegate := None, delegatedAmount := 0));
    var s2 := TokenEntry(Credited(TokenAt(w, e.vaultA.key), amountIn));
    var s3 := TokenEntry(Credited(TokenAt(w, e.feeVault.key), fee));
    var s4 := TokenEntry(Spent(TokenAt(w, e.vaultB.key), amountOut));
    var s5 := TokenEntry(Credited(TokenAt(w, e.destination.key), amountOut));
    UpdatePasses(w, writes, k, a, e.source.key, s1);
    UpdatePasses(w[e.source.key := s1], writes, k, a, e.vaultA.key, s2);
    UpdatePasses(w[e.source.key := s1][e.vaultA.key := s2], writes, k, a, e.feeVault.key, s3);
    UpdatePasses(w[e.source.key := s1][e.vaultA.key := s2][e.feeVault.key := s3], writes, k, a, e.vaultB.key, s4);
    UpdatePasses(w[e.source.key := s1][e.vaultA.key := s2][e.feeVault.key := s3][e.vaultB.key := s4], writes, k, a,
                 e.destination.key, s5);
  }

  /** An update of an untouched account passes through the engine's writes. */
  lemma UpdatePasses(w: Store, writes: Store, k: Key, a: Account, j: Key, b: Account)
    requires j !in writes && j != k
    ensures (w + writes)[k := a][j := b] == (w[j := b] + writes)[k := a]
  {
  }

  lemma SettledFits(w: Store, e: Envelope, amountIn: u64, fee: u64, amountOut: u64)
    requires CanSettle(w, e, amountIn, fee, amountOut)
    ensures IsToken(w, e.source.key) && IsToken(w, e.vaultA.key) && IsToken(w, e.vaultB.key)
    ensures IsToken(w, e.feeVault.key) && IsToken(w, e.destination.key)
    ensures amountIn + fee <= TokenAt(w, e.source.key).amount && amountOut <= TokenAt(w, e.vaultB.key).amount
    ensures TokenAt(w, e.vaultA.key).amount + amountIn <= U64_MAX && TokenAt(w, e.feeVault.key).amount + fee <= U64_MAX
    ensures TokenAt(w, e.destination.key).amount + amountOut <= U64_MAX
  {
  }

  lemma QuoteOutput(w: Store, ix: ExecuteIx)
    requires Constrained(w, ix.e) && IsPlanState(w, ix.e.engineState.key)
    requires FixedMath.QuoteExactIn(DomainAt(w, ix.e.domain.key).accountedA,
                                    DomainAt(w, ix.e.domain.key).accountedB, ix.args.amountIn,
                                    PlanStateAt(w, ix.e.engineState.key).lpFeeBps).Ok?
    ensures 0 < TradeOutput(w, ix) < DomainAt(w, ix.e.domain.key).accountedB
  {
    var s, d := PlanStateAt(w, ix.e.engineState.key), DomainAt(w, ix.e.domain.key);
    PathMath.QuoteMeaning(d.accountedA, d.accountedB, ix.args.amountIn, s.lpFeeBps);
  }

  /** What the engine's readiness means for a request the program builds. */
  lemma ReadyMeans(w: Store, ix: ExecuteIx, adm: Admission, phase: byte, context: Digest, r: Request)
    requires Requested(w, ix, adm, phase, context, ix.args.expectedEngineSequence, r)
    requires IsPlanState(w, ix.e.engineState.key)
    requires KnownPhase(phase) && KnownTiming(ix.args.timingMode)
    requires (phase == PHASE_TRANSITION) == (ix.args.timingMode == TIMING_SINGLE)
    ensures var s, d := PlanStateAt(w, ix.e.engineState.key), DomainAt(w, ix.e.domain.key);
            EngineReady(s, r.binding) <==>
              && s.market == ix.e.market.key && s.revision == MarketAt(w, ix.e.market.key).engineRevision
              && s.timingMode == ix.args.timingMode && s.sequence == ix.args.expectedEngineSequence
              && (phase != PHASE_PREPARE ==> s.sequence < U64_MAX)
              && FixedMath.QuoteExactIn(d.accountedA, d.accountedB, ix.args.amountIn, s.lpFeeBps).Ok?
    ensures EngineReady(PlanStateAt(w, ix.e.engineState.key), r.binding) ==>
              Quoted(PlanStateAt(w, ix.e.engineState.key), r.binding) == TradeOutput(w, ix)
  {
    hide Constrained, PhaseDescriptors;
  }

  // ---- The two routes ----

  lemma InvPlaces(w: Store)
    requires Inv(w)
    ensures NoProgramData(w)
  {
  }

  /** The readiness of the primary phase: everything but a COMMIT's own conditions. */
  predicate PrimaryReady(w: Store, ix: ExecuteIx)
    requires Constrained(w, ix.e) && IsPlanState(w, ix.e.engineState.key)
  {
    var s, d, args := PlanStateAt(w, ix.e.engineState.key), DomainAt(w, ix.e.domain.key), ix.args;
    var quote := FixedMath.QuoteExactIn(d.accountedA, d.accountedB, args.amountIn, s.lpFeeBps);
    && s.market == ix.e.market.key && s.revision == MarketAt(w, ix.e.market.key).engineRevision
    && s.timingMode == args.timingMode && s.sequence == args.expectedEngineSequence
    && quote.Ok? && args.minOutputCredit <= quote.value.amountOut
  }

  /** The engine's step, as it stands in the store before accounting. */
  function Stepped(w: Store, v: Store, e: Envelope, r: Request, amountOut: u64, writes: Store): Store
    requires IsPlanState(w, e.engineState.key) && PlanStateAt(w, e.engineState.key).sequence < U64_MAX
  {
    (v + writes)[e.engineState.key := PlanEntry(Advanced(PlanStateAt(w, e.engineState.key), r, amountOut))]
  }

  /** What the primary phase comes to. */
  predicate PrimaryResult(w: Store, ix: ExecuteIx, adm: Admission, helped: Result<Store, EngineError>,
                          r: Result<(Store, Receipt), CoreError>)
    requires Constrained(w, ix.e) && |ix.args.opaquePayload| <= MAX_OPAQUE_PAYLOAD_LEN
    requires |ix.closure| <= MAX_OPAQUE_ACCOUNTS
    requires IsPlanState(w, ix.e.engineState.key)
  {
    hide Constrained, RequestFor;
    var single, s := ix.args.timingMode == TIMING_SINGLE, PlanStateAt(w, ix.e.engineState.key);
    && (r.Ok? <==> PrimaryReady(w, ix) && (single ==> s.sequence < U64_MAX && helped.Ok?))
    && (r.Err? ==> r.error.EngineFailed? || r.error == OutputBelowUserMinimum)
    && (r.Ok? && single ==>
          && r.value.1 == ReceiptFor(PrimaryRequest(w, ix, adm), TradeOutput(w, ix), s.sequence + 1)
          && r.value.0 == Stepped(w, w, ix.e, PrimaryRequest(w, ix, adm), TradeOutput(w, ix), helped.value))
    && (r.Ok? && !single ==>
          r.value.1 == ReceiptFor(PrimaryRequest(w, ix, adm), TradeOutput(w, ix), s.sequence) && r.value.0 == w)
  }

  /** TRANSITION or PREPARE with the accepting engine. */
  lemma PrimaryTrade(w: Store, ix: ExecuteIx, adm: Admission, outcome: EngineOutcome)
    requires Inv(w) && Admitted(w, ix, adm) && Accepting(w, ix.e)
    requires Constrained(w, ix.e) && |ix.args.opaquePayload| <= MAX_OPAQUE_PAYLOAD_LEN
    requires |ix.closure| <= MAX_OPAQUE_ACCOUNTS
    ensures PrimaryResult(w, ix, adm, Helped(ix.e, adm, ix.args.opaquePayload, outcome.around.helper),
                          Primary(w, ix, adm, outcome))
  {
    hide Inv, Admitted, Phase, RequestFor, Constrained, HelperWrites, NoProgramData, SameShape, Helped, HelperFor,
         ValidRequest;
    InvPlaces(w);
    SelfShape(w);
    AdmittedPhases(w, ix, adm);
    AdmittedTiming(w, ix, adm);
    var r := PrimaryRequest(w, ix, adm);
    HonestPhase(w, w, ix, adm, adm.phase, ZERO, ix.args.expectedEngineSequence, r, outcome);
    ReadyMeans(w, ix, adm, adm.phase, ZERO, r);
    if adm.phase == PHASE_TRANSITION {
      HelperIsHelped(w, w, ix, adm, adm.phase, ZERO, ix.args.expectedEngineSequence, r, outcome.around.helper);
    }
    if EngineReady(PlanStateAt(w, ix.e.engineState.key), r.binding) {
      QuoteOutput(w, ix);
    }
  }

  lemma SettledState(w: Store, ix: ExecuteIx, adm: Admission, amountOut: u64)
    requires Inv(w) && Admitted(w, ix, adm) && CanSettle(w, ix.e, ix.args.amountIn, adm.fee, amountOut)
    ensures var v := Settled(w, ix.e, ix.args.amountIn, adm.fee, amountOut);
            SameShape(w, v) && SameAt(w, v, ix.e.engineState.key)
  {
    hide Inv, Admitted, CanSettle, Settled, SameShape;
    StateEntrySettled(w, w, ix, adm, amountOut);
    SettledShape(w, ix.e, ix.args.amountIn, adm.fee, amountOut);
  }

  /** COMMIT with the accepting engine, after its own PREPARE: it can fail only in the engine, never on the output. */
  lemma CommitTrade(w: Store, ix: ExecuteIx, adm: Admission, receipt: Receipt, outcome: EngineOutcome)
    requires Inv(w) && Admitted(w, ix, adm) && Accepting(w, ix.e) && ix.args.timingMode == TIMING_PREPARE_COMMIT
    requires Constrained(w, ix.e) && |ix.args.opaquePayload| <= MAX_OPAQUE_PAYLOAD_LEN
    requires |ix.closure| <= MAX_OPAQUE_ACCOUNTS
    requires PrimaryReady(w, ix)
    requires CanSettle(w, ix.e, ix.args.amountIn, adm.fee, receipt.amountOut)
    requires CanAccount(w, ix.e, ix.args.amountIn, adm.fee, receipt.amountOut)
    requires receipt == ReceiptFor(PrimaryRequest(w, ix, adm), TradeOutput(w, ix),
                                   PlanStateAt(w, ix.e.engineState.key).sequence)
    requires var v := Settled(w, ix.e, ix.args.amountIn, adm.fee, receipt.amountOut);
             && IsToken(v, ix.e.source.key) && IsToken(v, ix.e.destination.key)
             && IsToken(v, ix.e.vaultA.key) && IsToken(v, ix.e.vaultB.key) && IsToken(v, ix.e.feeVault.key)
    ensures var v := Settled(w, ix.e, ix.args.amountIn, adm.fee, receipt.amountOut);
            var s, helped := PlanStateAt(w, ix.e.engineState.key),
                Helped(ix.e, adm, ix.args.opaquePayload, outcome.around.helper);
            var r := Closing(w, v, ix, adm, receipt, outcome);
            && (r.Ok? <==> s.sequence < U64_MAX && helped.Ok?)
            && (r.Err? ==> r.error.EngineFailed?)
            && (r.Ok? ==>
                  r.value == Stepped(w, v, ix.e, FinalRequest(w, ix, adm, receipt.amountOut), receipt.amountOut,
                                     helped.value))
  {
    hide Inv, Admitted, Phase, RequestFor, Constrained, HelperWrites, NoProgramData, SameShape, Helped, HelperFor,
         ValidRequest, CanSettle, CanAccount, Settled, SettlementDigest;
    var v := Settled(w, ix.e, ix.args.amountIn, adm.fee, receipt.amountOut);
    InvPlaces(w);
    SettledState(w, ix, adm, receipt.amountOut);
    AdmittedPhases(w, ix, adm);
    AdmittedTiming(w, ix, adm);
    var request := PrimaryRequest(w, ix, adm);
    var context := SettlementDigest(w, v, ix, adm, receipt, request);
    ContextNonzero(w, v, ix, adm, receipt, request);
    var r := RequestFor(w, ix, adm, PHASE_COMMIT, context, receipt.stateSequence);
    HonestPhase(w, v, ix, adm, PHASE_COMMIT, context, receipt.stateSequence, r, outcome);
    ReadyMeans(w, ix, adm, PHASE_COMMIT, context, r);
    HelperIsHelped(w, v, ix, adm, PHASE_COMMIT, context, receipt.stateSequence, r, outcome.around.helper);
  }

  /** What an execution with the accepting engine comes to. */
  ghost predicate TradeResult(w: Store, ix: ExecuteIx, adm: Admission, helper: Option<Data>, r: Result<Executed,
                              CoreError>)
    requires Admitted(w, ix, adm) && IsPlanState(w, ix.e.engineState.key)
  {
    hide HelperWrites;
    AdmittedShape(w, ix, adm);
    var out, helped := TradeOutput(w, ix), Helped(ix.e, adm, ix.args.opaquePayload, helper);
    && (r.Ok? <==> TradeReady(w, ix, adm, helper))
    && (r.Err? ==> r.error.EngineFailed? || r.error == OutputBelowUserMinimum)
    && (r.Ok? ==>
          && Tradable(w, ix, adm, out) && helped.Ok?
          && r.value == Executed(TradeStore(w, ix, adm, out, helped.value), adm.fee, out))
  }

  /**
   * The accepting engine's executions, exactly: after admission they succeed if and only if the trade
   * is ready, they leave exactly the trade's store, and they fail only in the engine or on the user's
   * minimum. In particular COMMIT never disagrees with PREPARE about the output.
   */
  lemma TradeExactly(w: Store, ix: ExecuteIx, slot: u64, primary: EngineOutcome, commit: EngineOutcome)
    requires Inv(w) && Admit(w, ix, slot).Ok? && Accepting(w, ix.e)
    ensures Admitted(w, ix, Admit(w, ix, slot).value)
    ensures TradeResult(w, ix, Admit(w, ix, slot).value, EffectiveHelper(ix, primary, commit),
                        ExecuteSpec(w, ix, slot, primary, commit))
  {
    hide Inv, Admit, Admitted, Constrained, Primary, Closing, CanSettle, CanAccount, Settled, Accounted, Helped,
         RequestFor, Guarded, FinalRequest;
    var adm := Admit(w, ix, slot).value;
    AdmissionFacts(w, ix, slot);
    AdmittedShape(w, ix, adm);
    AdmittedTiming(w, ix, adm);
    PrimaryTrade(w, ix, adm, primary);
    if Primary(w, ix, adm, primary).Ok? {
      PrimaryFacts(w, ix, adm, primary);
      var (w1, receipt) := Primary(w, ix, adm, primary).value;
      SettledTokens(w1, ix.e, ix.args.amountIn, adm.fee, receipt.amountOut);
      if ix.args.timingMode == TIMING_PREPARE_COMMIT {
        CommitTrade(w, ix, adm, receipt, commit);
      } else {
        SingleCloses(w, ix, adm, receipt, w1, Helped(ix.e, adm, ix.args.opaquePayload, primary.around.helper), commit);
      }
    }
  }

  lemma SingleCloses(w: Store, ix: ExecuteIx, adm: Admission, receipt: Receipt, w1: Store, helped: Result<Store,
                     EngineError>, commit: EngineOutcome)
    requires Admitted(w, ix, adm) && ix.args.timingMode == TIMING_SINGLE
    requires Tradable(w, ix, adm, receipt.amountOut)
    requires CanSettle(w1, ix.e, ix.args.amountIn, adm.fee, receipt.amountOut)
    requires helped.Ok? && (exists helper :: helped == Helped(ix.e, adm, ix.args.opaquePayload, helper))
    requires w1 == Stepped(w, w, ix.e, PrimaryRequest(w, ix, adm), receipt.amountOut, helped.value)
    requires var s := Settled(w1, ix.e, ix.args.amountIn, adm.fee, receipt.amountOut);
             && IsToken(s, ix.e.source.key) && IsToken(s, ix.e.destination.key)
             && IsToken(s, ix.e.vaultA.key) && IsToken(s, ix.e.vaultB.key) && IsToken(s, ix.e.feeVault.key)
    ensures var s := Settled(w1, ix.e, ix.args.amountIn, adm.fee, receipt.amountOut);
            && Closing(w, s, ix, adm, receipt, commit) == Result.Ok(s)
            && s == Stepped(w, Settled(w, ix.e, ix.args.amountIn, adm.fee, receipt.amountOut), ix.e,
                            FinalRequest(w, ix, adm, receipt.amountOut), receipt.amountOut, helped.value)
  {
    hide Admitted, Constrained, CanSettle, CanAccount, Settled, Helped, RequestFor;
    var helper :| helped == Helped(ix.e, adm, ix.args.opaquePayload, helper);
    WritesAvoidTokens(w, ix, adm, helper);
    StateOwner(w, ix, adm);
    StepsCommute(w, ix.e, ix.args.amountIn, adm.fee, receipt.amountOut, helped.value, ix.e.engineState.key,
                 PlanEntry(Advanced(PlanStateAt(w, ix.e.engineState.key), PrimaryRequest(w, ix, adm),
                                    receipt.amountOut)));
  }

  // ---- The evidence a COMMIT leaves ----

  /** The settlement the digest speaks of is the one that happened: books before and after, five balances after. */
  predicate Evidence(b: SettlementBinding<Digest>, w: Store, v: Store, ix: ExecuteIx, fee: nat, amountOut: nat) {
    var e := ix.e;
    && IsDomain(w, e.domain.key) && IsDomain(v, e.domain.key) && IsFeeLedger(w, e.feeLedger.key)
    && IsFeeLedger(v, e.feeLedger.key)
    && IsToken(v, e.source.key) && IsToken(v, e.destination.key) && IsToken(v, e.vaultA.key) && IsToken(v, e.vaultB.key)
    && IsToken(v, e.feeVault.key)
    && b.amountIn == ix.args.amountIn && b.amountOut == amountOut && b.protocolFee == fee
    && b.totalInputDebit == ix.args.amountIn + fee
    && b.accountedInputBefore == DomainAt(w, e.domain.key).accountedA
    && b.accountedInputAfter == DomainAt(v, e.domain.key).accountedA
    && b.accountedOutputBefore == DomainAt(w, e.domain.key).accountedB
    && b.accountedOutputAfter == DomainAt(v, e.domain.key).accountedB
    && b.accountedFeeBefore == FeeLedgerAt(w, e.feeLedger.key).accountedFeeA
    && b.accountedFeeAfter == FeeLedgerAt(v, e.feeLedger.key).accountedFeeA
    && b.observedSourceAfter == TokenAt(v, e.source.key).amount
    && b.observedDestinationAfter == TokenAt(v, e.destination.key).amount
    && b.observedInputVaultAfter == TokenAt(v, e.vaultA.key).amount
    && b.observedOutputVaultAfter == TokenAt(v, e.vaultB.key).amount
    && b.observedFeeVaultAfter == TokenAt(v, e.feeVault.key).amount
  }

  /** It follows the PREPARE that happened: of the same intent, of what that call said and of what it was answered. */
  predicate Follows(b: SettlementBinding<Digest>, w: Store, ix: ExecuteIx, adm: Admission, amountOut: nat) {
    && amountOut <= U64_MAX && b.intentDigest == Sha(IntentPreimage(adm.intent))
    && b.primaryExecutionDigest.Sha? && b.primaryExecutionDigest.preimage.ExecutionPreimage?
    && var prepare := EngineRequest(b.primaryExecutionDigest.preimage.execution, b.primaryExecutionDigest);
    && Receipts.Says(w, ix, adm, prepare, PHASE_PREPARE, ZERO, ix.args.expectedEngineSequence)
    && b.primaryReceiptDigest
       == Sha(ReceiptPreimage(EngineReceipt(PHASE_PREPARE, b.intentDigest, b.primaryExecutionDigest, amountOut,
                                            ix.args.expectedEngineSequence)))
  }

  /**
   * After a PREPARE/COMMIT trade the engine state records the digest of the settlement that happened: the
   * books and balances it was shown before Core updated its accounting are the final ones, and the intent,
   * request and receipt it names are those of the PREPARE call.
   */
  lemma CommitRecordsSettlement(w: Store, ix: ExecuteIx, slot: u64, primary: EngineOutcome, commit: EngineOutcome)
    requires Inv(w) && ExecuteSpec(w, ix, slot, primary, commit).Ok? && Accepting(w, ix.e)
    requires ix.args.timingMode == TIMING_PREPARE_COMMIT
    ensures var x := ExecuteSpec(w, ix, slot, primary, commit).value;
            && IsPlanState(x.store, ix.e.engineState.key)
            && var context := PlanStateAt(x.store, ix.e.engineState.key).lastPhaseContextDigest;
            && context.Sha? && context.preimage.SettlementPreimage?
            && Evidence(context.preimage.settlement, w, x.store, ix, x.fee, x.amountOut)
            && Admit(w, ix, slot).Ok?
            && Follows(context.preimage.settlement, w, ix, Admit(w, ix, slot).value, x.amountOut)
  {
    hide Inv, ExecuteSpec, Admit, Admitted, TradeStore, Tradable, TradeReady, TradeOutput, Helped, Evidence, Follows,
         Constrained;
    ExecutionEffect(w, ix, slot, primary, commit);
    TradeExactly(w, ix, slot, primary, commit);
    var adm, x := Admit(w, ix, slot).value, ExecuteSpec(w, ix, slot, primary, commit).value;
    AdmittedShape(w, ix, adm);
    var helped := Helped(ix.e, adm, ix.args.opaquePayload, EffectiveHelper(ix, primary, commit));
    WritesAvoidTokens(w, ix, adm, EffectiveHelper(ix, primary, commit));
    TradeEvidence(w, ix, adm, x.amountOut, helped.value);
  }

  /** The settlement binding a COMMIT carries, by name. */
  function Carried(r: Request): Option<SettlementBinding<Digest>> {
    var context := r.binding.phaseContextDigest;
    if context.Sha? && context.preimage.SettlementPreimage? then Some(context.preimage.settlement) else None
  }

  lemma FinalContext(w: Store, ix: ExecuteIx, adm: Admission, out: u64)
    requires Tradable(w, ix, adm, out) && ix.args.timingMode == TIMING_PREPARE_COMMIT
    ensures var e, s := ix.e, Settled(w, ix.e, ix.args.amountIn, adm.fee, out);
            var d, f := DomainAt(w, e.domain.key), FeeLedgerAt(w, e.feeLedger.key);
            && IsToken(s, e.source.key) && IsToken(s, e.destination.key) && IsToken(s, e.vaultA.key)
            && IsToken(s, e.vaultB.key)
            && IsToken(s, e.feeVault.key)
            && Carried(FinalRequest(w, ix, adm, out)).Some?
            && var b := Carried(FinalRequest(w, ix, adm, out)).value;
            && b.amountIn == ix.args.amountIn && b.amountOut == out && b.protocolFee == adm.fee
            && b.totalInputDebit == adm.total
            && b.accountedInputBefore == d.accountedA && b.accountedInputAfter == d.accountedA + ix.args.amountIn
            && b.accountedOutputBefore == d.accountedB && b.accountedOutputAfter == d.accountedB - out
            && b.accountedFeeBefore == f.accountedFeeA && b.accountedFeeAfter == f.accountedFeeA + adm.fee
            && b.observedSourceAfter == TokenAt(s, e.source.key).amount
            && b.observedDestinationAfter == TokenAt(s, e.destination.key).amount
            && b.observedInputVaultAfter == TokenAt(s, e.vaultA.key).amount
            && b.observedOutputVaultAfter == TokenAt(s, e.vaultB.key).amount
            && b.observedFeeVaultAfter == TokenAt(s, e.feeVault.key).amount
  {
    hide Constrained, Settled, CanSettle, PhaseDescriptors, IntentDigest;
    SettledTokens(w, ix.e, ix.args.amountIn, adm.fee, out);
  }

  lemma PrimaryContext(w: Store, ix: ExecuteIx, adm: Admission, out: u64)
    requires Admitted(w, ix, adm) && Tradable(w, ix, adm, out) && ix.args.timingMode == TIMING_PREPARE_COMMIT
    ensures Carried(FinalRequest(w, ix, adm, out)).Some?
    ensures Follows(Carried(FinalRequest(w, ix, adm, out)).value, w, ix, adm, out)
  {
    hide Admitted, Constrained, Settled, CanSettle, CanAccount, RequestFor, CallFor, Receipts.Says, Receipts.Addresses;
    SettledTokens(w, ix.e, ix.args.amountIn, adm.fee, out);
    Receipts.AdmittedPhase(w, ix, adm);
    Receipts.RequestSays(w, ix, adm, PHASE_PREPARE, ZERO, ix.args.expectedEngineSequence);
    Receipts.RequestWords(w, ix, adm, PHASE_PREPARE, ZERO, ix.args.expectedEngineSequence);
    var request := PrimaryRequest(w, ix, adm);
    Receipts.CallEntry(ix.e, adm, request);
    var receipt := ReceiptFor(request, out, ix.args.expectedEngineSequence);
    var settled := Settled(w, ix.e, ix.args.amountIn, adm.fee, out);
    Receipts.RequestWords(w, ix, adm, PHASE_COMMIT, SettlementDigest(w, settled, ix, adm, receipt, request),
                          ix.args.expectedEngineSequence);
  }

  /** The three entries Core and the engine write in a trade. */
  lemma TradeRecords(w: Store, ix: ExecuteIx, adm: Admission, out: u64, writes: Store)
    requires Tradable(w, ix, adm, out)
    requires OwnerOf(w, ix.e.domain.key) == CORE && OwnerOf(w, ix.e.feeLedger.key) == CORE
    requires ix.e.domain.key != ix.e.feeLedger.key
    ensures var v, e := TradeStore(w, ix, adm, out, writes), ix.e;
            && IsPlanState(v, e.engineState.key)
            && PlanStateAt(v, e.engineState.key).lastPhaseContextDigest == FinalRequest(w, ix, adm,
                out).binding.phaseContextDigest
            && IsDomain(v, e.domain.key) && IsFeeLedger(v, e.feeLedger.key)
            && DomainAt(v, e.domain.key).accountedA == DomainAt(w, e.domain.key).accountedA + ix.args.amountIn
            && DomainAt(v, e.domain.key).accountedB == DomainAt(w, e.domain.key).accountedB - out
            && FeeLedgerAt(v, e.feeLedger.key).accountedFeeA == FeeLedgerAt(w, e.feeLedger.key).accountedFeeA + adm.fee
  {
    hide Constrained, Settled, CanSettle, FinalRequest;
  }

  lemma TradeEvidence(w: Store, ix: ExecuteIx, adm: Admission, out: u64, writes: Store)
    requires Admitted(w, ix, adm) && Tradable(w, ix, adm, out) && ix.args.timingMode == TIMING_PREPARE_COMMIT
    requires forall k :: k in writes ==> OwnerOf(w, k) == HELPER_PROGRAM
    ensures var v := TradeStore(w, ix, adm, out, writes);
            && IsPlanState(v, ix.e.engineState.key)
            && var context := PlanStateAt(v, ix.e.engineState.key).lastPhaseContextDigest;
            && context.Sha? && context.preimage.SettlementPreimage?
            && Evidence(context.preimage.settlement, w, v, ix, adm.fee, out)
            && Follows(context.preimage.settlement, w, ix, adm, out)
  {
    hide Admitted, Constrained, Settled, CanSettle, CanAccount, TradeStore, FinalRequest, Follows;
    PrimaryContext(w, ix, adm, out);
    SettlementRoles(w, ix, adm);
    FinalContext(w, ix, adm, out);
    TradeRecords(w, ix, adm, out, writes);
    TradeTokens(w, ix, adm, out, writes, ix.e.source.key);
    TradeTokens(w, ix, adm, out, writes, ix.e.destination.key);
    TradeTokens(w, ix, adm, out, writes, ix.e.vaultA.key);
    TradeTokens(w, ix, adm, out, writes, ix.e.vaultB.key);
    TradeTokens(w, ix, adm, out, writes, ix.e.feeVault.key);
  }

  /** Neither the helper, the engine's step nor accounting writes a token account. */
  lemma TradeTokens(w: Store, ix: ExecuteIx, adm: Admission, out: u64, writes: Store, k: Key)
    requires Tradable(w, ix, adm, out) && IsToken(w, k) && (forall j :: j in writes ==> OwnerOf(w, j) == HELPER_PROGRAM)
    ensures k in Settled(w, ix.e, ix.args.amountIn, adm.fee, out) ==>
              k in TradeStore(w, ix, adm, out, writes)
              && TradeStore(w, ix, adm, out, writes)[k] == Settled(w, ix.e, ix.args.amountIn, adm.fee, out)[k]
  {
    hide Constrained, Settled, CanSettle, FinalRequest;
  }
}
