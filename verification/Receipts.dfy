/**
 * What an execution asks of its engine and what it takes for an answer: exactly which engine calls, with
 * exactly which requests and receipts, an admitted execution succeeds on, whatever the engine.
 */
module Receipts {
  import opened Base
  import opened Bindings
  import opened Keys
  import opened Ledger
  import opened Errors
  import opened Capabilities
  import opened PlanEngine
  import opened Runtime
  import opened Core
  import opened Frames
  import opened ExecuteInstruction

  // ---- The two calls ----

  predicate Sized(w: Store, ix: ExecuteIx) {
    Constrained(w, ix.e) && |ix.args.opaquePayload| <= MAX_OPAQUE_PAYLOAD_LEN && |ix.closure| <= MAX_OPAQUE_ACCOUNTS
  }

  /** The TRANSITION or PREPARE call. */
  function PrimaryCall(w: Store, ix: ExecuteIx, adm: Admission): PhaseCall
    requires Sized(w, ix)
  {
    CallFor(ix.e, adm, RequestFor(w, ix, adm, adm.phase, ZERO, ix.args.expectedEngineSequence))
  }

  predicate Settles(w: Store, w1: Store, ix: ExecuteIx, fee: u64, amountOut: u64) {
    && CanSettle(w1, ix.e, ix.args.amountIn, fee, amountOut) && CanAccount(w, ix.e, ix.args.amountIn, fee, amountOut)
  }

  /** The COMMIT call, over the balances settled after `w1` for the output of the primary receipt. */
  function CommitCall(w: Store, w1: Store, ix: ExecuteIx, adm: Admission, receipt: Receipt): PhaseCall
    requires Sized(w, ix) && Settles(w, w1, ix, adm.fee, receipt.amountOut)
  {
    hide Constrained, CanAccount, RequestFor;
    SettledTokens(w1, ix.e, ix.args.amountIn, adm.fee, receipt.amountOut);
    var settled := Settled(w1, ix.e, ix.args.amountIn, adm.fee, receipt.amountOut);
    var request := RequestFor(w, ix, adm, adm.phase, ZERO, ix.args.expectedEngineSequence);
    CallFor(ix.e, adm, RequestFor(w, ix, adm, PHASE_COMMIT, SettlementDigest(w, settled, ix, adm, receipt, request),
                                  receipt.stateSequence))
  }

  /** Whom a call addresses, with which accounts: state and closure writable as the phase has it, one signer. */
  predicate Addresses(ix: ExecuteIx, adm: Admission, call: PhaseCall, phase: byte) {
    var e := ix.e;
    && call.entry == phase
    && call.state == AccountMeta(e.engineState.key, false, phase != PHASE_PREPARE)
    && call.callback.isSigner && !call.callback.isWritable
    && call.callback.key == CallbackPda(e.engineProgram.key, e.engineState.key, e.market.key, e.domain.key,
                                        Sha(IntentPreimage(adm.intent)), phase)
    && |call.closure| == |adm.opaques|
    && forall i :: 0 <= i < |call.closure| ==>
         && call.closure[i].key == adm.opaques[i].key && !call.closure[i].isSigner
         && (call.closure[i].isWritable <==> phase != PHASE_PREPARE && adm.opaques[i].isWritable)
  }

  /** And what it says, word by word: the trade, over the records as they stood when the instruction began. */
  predicate Says(w: Store, ix: ExecuteIx, adm: Admission, request: Request, phase: byte, context: Digest,
                 preSequence: u64) {
    var e, b := ix.e, request.binding;
    && IsMarket(w, e.market.key) && IsDomain(w, e.domain.key) && IsFeeLedger(w, e.feeLedger.key)
    && request.executionDigest == Sha(ExecutionPreimage(b))
    && b.phase == phase && b.intentDigest == Sha(IntentPreimage(adm.intent)) && b.phaseContextDigest == context
    && b.preSequence == preSequence
    && b.market == e.market.key && b.domain == e.domain.key
    && b.engineRevision == MarketAt(w, e.market.key).engineRevision
    && b.amountIn == ix.args.amountIn && b.protocolFee == adm.fee
    && b.accountedInputBefore == DomainAt(w, e.domain.key).accountedA
    && b.accountedOutputBefore == DomainAt(w, e.domain.key).accountedB
    && b.accountedFeeBefore == FeeLedgerAt(w, e.feeLedger.key).accountedFeeA
    && Committed(e, adm.opaques, b.authorizedCapabilityHash, true)
    && Committed(e, adm.opaques, b.phaseCapabilityHash, phase != PHASE_PREPARE)
    && b.opaqueAccountCount == |ix.closure| && b.payloadLen == |ix.args.opaquePayload| <= 128
    && b.payload[..b.payloadLen] == ix.args.opaquePayload
    && forall i :: b.payloadLen <= i < 128 ==> b.payload[i] == 0
  }

  /** The digest is of the engine state and the vetted closure, writable only if the phase is authorized to write. */
  predicate Committed(e: Envelope, opaques: seq<Descriptor>, digest: Digest, authorized: bool) {
    && digest.Sha? && digest.preimage.CapabilityPreimage? && digest.preimage.engineProgram == e.engineProgram.key
    && var ds := digest.preimage.descriptors;
    && |ds| == 1 + |opaques|
    && ds[0] == CapabilityDescriptor(e.engineState.key, e.engineProgram.key, authorized, false, false)
    && forall i :: 0 <= i < |opaques| ==>
         ds[i + 1] == CapabilityDescriptor(opaques[i].key, opaques[i].owner, authorized && opaques[i].isWritable,
                                           false, opaques[i].isExecutable)
  }

  /** The settlement a COMMIT is told of: the trade, both digests of the primary phase, the books and the balances. */
  predicate Attests(b: SettlementBinding<Digest>, w: Store, settled: Store, ix: ExecuteIx, adm: Admission,
                    primary: PhaseCall, receipt: Receipt) {
    var e := ix.e;
    && IsDomain(w, e.domain.key) && IsFeeLedger(w, e.feeLedger.key) && IsToken(settled, e.source.key)
    && IsToken(settled, e.destination.key) && IsToken(settled, e.vaultA.key) && IsToken(settled, e.vaultB.key)
    && IsToken(settled, e.feeVault.key)
    && var d, f := DomainAt(w, e.domain.key), FeeLedgerAt(w, e.feeLedger.key);
    && b.intentDigest == Sha(IntentPreimage(adm.intent))
    && b.primaryExecutionDigest == primary.request.executionDigest
    && b.primaryReceiptDigest == Sha(ReceiptPreimage(receipt))
    && b.amountIn == ix.args.amountIn && b.amountOut == receipt.amountOut && b.protocolFee == adm.fee
    && b.totalInputDebit == adm.total
    && b.accountedInputBefore == d.accountedA && b.accountedInputAfter == d.accountedA + ix.args.amountIn
    && b.accountedOutputBefore == d.accountedB && b.accountedOutputAfter == d.accountedB - receipt.amountOut
    && b.accountedFeeBefore == f.accountedFeeA && b.accountedFeeAfter == f.accountedFeeA + adm.fee
    && b.observedSourceAfter == TokenAt(settled, e.source.key).amount
    && b.observedDestinationAfter == TokenAt(settled, e.destination.key).amount
    && b.observedInputVaultAfter == TokenAt(settled, e.vaultA.key).amount
    && b.observedOutputVaultAfter == TokenAt(settled, e.vaultB.key).amount
    && b.observedFeeVaultAfter == TokenAt(settled, e.feeVault.key).amount
  }

  lemma CommittedExactly(e: Envelope, opaques: seq<Descriptor>, authorized: bool)
    requires forall i :: 0 <= i < |opaques| ==> !opaques[i].isSigner
    ensures Committed(e, opaques,
                      CapabilityHash(e.engineProgram.key,
                                     PhaseDescriptors(e.engineState.key, e.engineProgram.key, opaques, authorized)),
                      authorized)
  {
  }

  lemma VettedUnsigned(w: Store, ix: ExecuteIx, adm: Admission)
    requires Admitted(w, ix, adm)
    ensures forall i :: 0 <= i < |adm.opaques| ==> !adm.opaques[i].isSigner
  {
    hide OpaqueDescriptors, Loaded, Constrained, MarketOk, NoDuplicates, EnvelopeKeys, RebuiltIntent, PhaseDescriptors;
    AcceptedClosure(w, ix.closure, EnvelopeKeys(ix.e));
  }

  lemma ConstrainedRecords(w: Store, e: Envelope)
    requires Constrained(w, e)
    ensures IsMarket(w, e.market.key) && IsDomain(w, e.domain.key) && IsFeeLedger(w, e.feeLedger.key)
  {
  }

  /** Every request the program makes addresses its engine so, and says so. */
  lemma RequestSays(w: Store, ix: ExecuteIx, adm: Admission, phase: byte, context: Digest, preSequence: u64)
    requires Sized(w, ix) && Admitted(w, ix, adm)
    ensures var request := RequestFor(w, ix, adm, phase, context, preSequence);
            && Addresses(ix, adm, CallFor(ix.e, adm, request), phase)
            && Says(w, ix, adm, CallFor(ix.e, adm, request).request, phase, context, preSequence)
  {
    hide Constrained, Admitted, PhaseDescriptors, PhaseMetas, CallFor, RequestFor, Committed, CapabilityHash, CallMetas;
    var request := RequestFor(w, ix, adm, phase, context, preSequence);
    ConstrainedRecords(w, ix.e);
    RequestWords(w, ix, adm, phase, context, preSequence);
    CallLayout(ix.e, adm, request);
    CallEntry(ix.e, adm, request);
    VettedUnsigned(w, ix, adm);
    CommittedExactly(ix.e, adm.opaques, true);
    CommittedExactly(ix.e, adm.opaques, phase != PHASE_PREPARE);
    AdmittedHash(w, ix, adm);
  }

  lemma AdmittedHash(w: Store, ix: ExecuteIx, adm: Admission)
    requires Admitted(w, ix, adm)
    ensures adm.authorized == PhaseDescriptors(ix.e.engineState.key, ix.e.engineProgram.key, adm.opaques, true)
  {
  }

  lemma CallEntry(e: Envelope, adm: Admission, request: Request)
    ensures CallFor(e, adm, request).entry == request.binding.phase && CallFor(e, adm, request).request == request
  {
  }

  lemma RequestWords(w: Store, ix: ExecuteIx, adm: Admission, phase: byte, context: Digest, preSequence: u64)
    requires Sized(w, ix)
    ensures var r, e := RequestFor(w, ix, adm, phase, context, preSequence), ix.e;
            var b, d := r.binding, DomainAt(w, e.domain.key);
            && r.executionDigest == Sha(ExecutionPreimage(b))
            && b.phase == phase && b.intentDigest == Sha(IntentPreimage(adm.intent)) && b.preSequence == preSequence
            && b.phaseContextDigest == context
            && b.market == e.market.key && b.domain == e.domain.key
            && b.engineRevision == MarketAt(w, e.market.key).engineRevision
            && b.amountIn == ix.args.amountIn && b.protocolFee == adm.fee
            && b.accountedInputBefore == d.accountedA && b.accountedOutputBefore == d.accountedB
            && b.accountedFeeBefore == FeeLedgerAt(w, e.feeLedger.key).accountedFeeA
            && b.authorizedCapabilityHash == CapabilityHash(e.engineProgram.key, adm.authorized)
            && b.phaseCapabilityHash
               == CapabilityHash(e.engineProgram.key,
                    PhaseDescriptors(e.engineState.key, e.engineProgram.key, adm.opaques, phase != PHASE_PREPARE))
            && b.opaqueAccountCount == |ix.closure| && b.payloadLen == |ix.args.opaquePayload|
            && b.payload[..b.payloadLen] == ix.args.opaquePayload
            && forall i :: b.payloadLen <= i < 128 ==> b.payload[i] == 0
  {
    hide Constrained, PhaseDescriptors, CapabilityHash;
    var payload := ix.args.opaquePayload;
    var padded := Padded(payload);
    forall i | |payload| <= i < 128 ensures padded[i] == 0 {
      assert padded[i] == padded[|payload|..][i - |payload|];
    }
  }

  // ---- The answers ----

  /** The receipt that a call's return data carries, when the engine set it and it decodes. */
  function Answer(done: PhaseResult, program: Key): Option<Receipt> {
    if done.returned.Some? && done.returned.value.setter == program then done.returned.value.receipt else None
  }

  /** The call went through and its return data is the engine's receipt for exactly this call. */
  predicate Answered(called: Result<PhaseResult, EngineError>, program: Key, call: PhaseCall) {
    && called.Ok? && Answer(called.value, program).Some?
    && var receipt := Answer(called.value, program).value;
    && receipt.phase == call.entry && receipt.intentDigest == call.request.binding.intentDigest
    && receipt.executionDigest == Sha(ExecutionPreimage(call.request.binding))
  }

  /** The receipt of an answered call. */
  function ReceiptOf(called: Result<PhaseResult, EngineError>, program: Key, call: PhaseCall): Receipt
    requires Answered(called, program, call)
  {
    Answer(called.value, program).value
  }

  /** The primary answer is acceptable: the sequence moved as the phase moves it, the output is within bounds. */
  predicate Acceptable(receipt: Receipt, ix: ExecuteIx, phase: byte, accountedB: u64) {
    && (phase == PHASE_PREPARE ==> receipt.stateSequence == ix.args.expectedEngineSequence)
    && (phase != PHASE_PREPARE ==>
          ix.args.expectedEngineSequence < U64_MAX && receipt.stateSequence == ix.args.expectedEngineSequence + 1)
    && 0 < receipt.amountOut && ix.args.minOutputCredit <= receipt.amountOut <= accountedB
  }

  /** What is wrong with return data as an answer to a call, if anything is. */
  function Misbinds(returned: Option<ReturnData>, program: Key, call: PhaseCall): Option<CoreError> {
    match returned
    case None => Some(MissingEngineReceipt)
    case Some(ReturnData(setter, receipt)) =>
      if setter != program then Some(InvalidEngineReceiptSetter)
      else match receipt
        case None => Some(InvalidEngineReceipt)
        case Some(answer) =>
          if answer.phase != call.entry then Some(EngineReceiptPhaseMismatch)
          else if answer.intentDigest != call.request.binding.intentDigest then Some(EngineReceiptIntentMismatch)
          else if answer.executionDigest != Sha(ExecutionPreimage(call.request.binding)) then
            Some(EngineReceiptExecutionMismatch)
          else None
  }

  /** What is wrong with an engine call that fails an execution for this reason. */
  predicate CallFault(called: Result<PhaseResult, EngineError>, program: Key, call: PhaseCall, fault: CoreError) {
    match called
    case Err(e) => fault == EngineFailed(e)
    case Ok(done) => Misbinds(done.returned, program, call) == Some(fault)
  }

  lemma AnsweredExactly(called: Result<PhaseResult, EngineError>, program: Key, call: PhaseCall)
    ensures Answered(called, program, call) <==> called.Ok? && Misbinds(called.value.returned, program, call) == None
  {
  }

  /** What is wrong with a primary receipt refused for this reason. */
  predicate Unacceptable(receipt: Receipt, ix: ExecuteIx, phase: byte, accountedB: u64, fault: CoreError) {
    match fault
    case PrepareSequenceChanged => phase == PHASE_PREPARE && receipt.stateSequence != ix.args.expectedEngineSequence
    case ArithmeticOverflow => phase != PHASE_PREPARE && ix.args.expectedEngineSequence == U64_MAX
    case TransitionSequenceMismatch =>
      phase != PHASE_PREPARE && receipt.stateSequence != ix.args.expectedEngineSequence + 1
    case ZeroAmount => receipt.amountOut == 0
    case OutputBelowUserMinimum => receipt.amountOut < ix.args.minOutputCredit
    case InsufficientAccountedLiquidity => receipt.amountOut > accountedB
    case _ => false
  }

  lemma AcceptableExactly(receipt: Receipt, ix: ExecuteIx, phase: byte, accountedB: u64)
    ensures var sequence := SequenceVerdict(phase, ix.args.expectedEngineSequence, receipt.stateSequence);
            var output := OutputVerdict(receipt.amountOut, ix.args.minOutputCredit, accountedB);
            && (sequence.Ok? && output.Ok? <==> Acceptable(receipt, ix, phase, accountedB))
            && (sequence.Err? ==> Unacceptable(receipt, ix, phase, accountedB, sequence.error))
            && (output.Err? ==> Unacceptable(receipt, ix, phase, accountedB, output.error))
  {
  }

  /** And what is wrong with a primary phase, or with COMMIT after it. */
  predicate PrimaryFault(called: Result<PhaseResult, EngineError>, program: Key, call: PhaseCall, ix: ExecuteIx,
                         accountedB: u64, fault: CoreError) {
    if Answered(called, program, call)
    then Unacceptable(ReceiptOf(called, program, call), ix, call.entry, accountedB, fault)
    else CallFault(called, program, call, fault)
  }

  predicate Unrepeated(receipt: Receipt, primary: Receipt, fault: CoreError) {
    || (fault == CommitOutputMismatch && receipt.amountOut != primary.amountOut)
    || (fault == CoreError.ArithmeticOverflow && primary.stateSequence == U64_MAX)
    || (fault == CommitSequenceMismatch && receipt.stateSequence != primary.stateSequence + 1)
  }

  predicate CommitFault(called: Result<PhaseResult, EngineError>, program: Key, call: PhaseCall, primary: Receipt,
                        fault: CoreError) {
    if Answered(called, program, call)
    then Unrepeated(ReceiptOf(called, program, call), primary, fault)
    else CallFault(called, program, call, fault)
  }

  lemma PhaseExactly(w: Store, e: Envelope, adm: Admission, request: Request, outcome: EngineOutcome)
    requires request.executionDigest == Sha(ExecutionPreimage(request.binding))
    ensures var call, program := CallFor(e, adm, request), e.engineProgram.key;
            var called, done := InvokeEngine(w, program, call, outcome), Phase(w, e, adm, request, outcome);
            && (done.Ok? <==> Answered(called, program, call))
            && (done.Ok? ==> done.value == (called.value.store, ReceiptOf(called, program, call)))
            && (done.Err? ==> CallFault(called, program, call, done.error))
  {
    hide InvokeEngine, CallFor;
    CallEntry(e, adm, request);
  }

  lemma PrimaryExactly(w: Store, ix: ExecuteIx, adm: Admission, outcome: EngineOutcome)
    requires Sized(w, ix) && Admitted(w, ix, adm)
    ensures var call, program := PrimaryCall(w, ix, adm), ix.e.engineProgram.key;
            var called := InvokeEngine(w, program, call, outcome);
            && (Primary(w, ix, adm, outcome).Ok? <==>
                  && Answered(called, program, call)
                  && Acceptable(ReceiptOf(called, program, call), ix, adm.phase,
                                DomainAt(w, ix.e.domain.key).accountedB))
            && (Primary(w, ix, adm, outcome).Ok? ==>
                  Primary(w, ix, adm, outcome).value == (called.value.store, ReceiptOf(called, program, call)))
            && (Primary(w, ix, adm, outcome).Err? ==>
                  PrimaryFault(called, program, call, ix, DomainAt(w, ix.e.domain.key).accountedB,
                               Primary(w, ix, adm, outcome).error))
  {
    hide Constrained, Admitted, InvokeEngine, RequestFor, CallFor, Phase, Answered, ReceiptOf, CallFault,
         SequenceVerdict, OutputVerdict, Acceptable, Unacceptable;
    var request := RequestFor(w, ix, adm, adm.phase, ZERO, ix.args.expectedEngineSequence);
    RequestWords(w, ix, adm, adm.phase, ZERO, ix.args.expectedEngineSequence);
    CallEntry(ix.e, adm, request);
    PhaseExactly(w, ix.e, adm, request, outcome);
    ConstrainedRecords(w, ix.e);
    if Phase(w, ix.e, adm, request, outcome).Ok? {
      AcceptableExactly(Phase(w, ix.e, adm, request, outcome).value.1, ix, adm.phase,
                        DomainAt(w, ix.e.domain.key).accountedB);
    }
  }

  /** The COMMIT answer repeats the output and moves the sequence by one. */
  predicate Repeats(receipt: Receipt, primary: Receipt) {
    receipt.amountOut == primary.amountOut && primary.stateSequence < U64_MAX
    && receipt.stateSequence == primary.stateSequence + 1
  }

  lemma CommitExactly(w: Store, w1: Store, ix: ExecuteIx, adm: Admission, primary: Receipt, outcome: EngineOutcome)
    requires Sized(w, ix) && Settles(w, w1, ix, adm.fee, primary.amountOut)
    requires ix.args.timingMode == TIMING_PREPARE_COMMIT
    requires var s := Settled(w1, ix.e, ix.args.amountIn, adm.fee, primary.amountOut);
             && IsToken(s, ix.e.source.key) && IsToken(s, ix.e.destination.key)
             && IsToken(s, ix.e.vaultA.key) && IsToken(s, ix.e.vaultB.key) && IsToken(s, ix.e.feeVault.key)
    ensures var settled := Settled(w1, ix.e, ix.args.amountIn, adm.fee, primary.amountOut);
            var call, program := CommitCall(w, w1, ix, adm, primary), ix.e.engineProgram.key;
            var called := InvokeEngine(settled, program, call, outcome);
            var closed := Closing(w, settled, ix, adm, primary, outcome);
            && (closed.Ok? <==> Answered(called, program, call) && Repeats(ReceiptOf(called, program, call), primary))
            && (closed.Ok? ==> closed.value == called.value.store)
            && (closed.Err? ==> CommitFault(called, program, call, primary, closed.error))
  {
    hide Constrained, InvokeEngine, RequestFor, CallFor, Settled, CanSettle, CanAccount, SettlementDigest, Phase,
         Answered, ReceiptOf, CallFault;
    var settled := Settled(w1, ix.e, ix.args.amountIn, adm.fee, primary.amountOut);
    var request := RequestFor(w, ix, adm, adm.phase, ZERO, ix.args.expectedEngineSequence);
    var context := SettlementDigest(w, settled, ix, adm, primary, request);
    RequestWords(w, ix, adm, PHASE_COMMIT, context, primary.stateSequence);
    PhaseExactly(settled, ix.e, adm, RequestFor(w, ix, adm, PHASE_COMMIT, context, primary.stateSequence), outcome);
  }

  // ---- The execution ----

  /** The primary call of an admitted execution, as it came out. */
  function Called(w: Store, ix: ExecuteIx, adm: Admission, outcome: EngineOutcome): Result<PhaseResult, EngineError>
    requires Sized(w, ix)
  {
    InvokeEngine(w, ix.e.engineProgram.key, PrimaryCall(w, ix, adm), outcome)
  }

  /** And the COMMIT call over the balances settled after it. */
  function CalledAgain(w: Store, w1: Store, ix: ExecuteIx, adm: Admission, receipt: Receipt, outcome: EngineOutcome)
    : Result<PhaseResult, EngineError>
    requires Sized(w, ix) && Settles(w, w1, ix, adm.fee, receipt.amountOut)
  {
    InvokeEngine(Settled(w1, ix.e, ix.args.amountIn, adm.fee, receipt.amountOut), ix.e.engineProgram.key,
                 CommitCall(w, w1, ix, adm, receipt), outcome)
  }

  /** The primary call is answered, acceptably. */
  predicate PrimaryAnswered(w: Store, ix: ExecuteIx, adm: Admission, outcome: EngineOutcome)
    requires Sized(w, ix)
  {
    hide Constrained, InvokeEngine, PrimaryCall;
    ConstrainedRecords(w, ix.e);
    var called, program, call := Called(w, ix, adm, outcome), ix.e.engineProgram.key, PrimaryCall(w, ix, adm);
    && Answered(called, program, call)
    && Acceptable(ReceiptOf(called, program, call), ix, adm.phase, DomainAt(w, ix.e.domain.key).accountedB)
  }

  function PrimaryReceipt(w: Store, ix: ExecuteIx, adm: Admission, outcome: EngineOutcome): Receipt
    requires Sized(w, ix) && PrimaryAnswered(w, ix, adm, outcome)
  {
    ReceiptOf(Called(w, ix, adm, outcome), ix.e.engineProgram.key, PrimaryCall(w, ix, adm))
  }

  /** In PREPARE/COMMIT the COMMIT call is answered too, and its receipt repeats the primary one. */
  predicate CommitAnswered(w: Store, w1: Store, ix: ExecuteIx, adm: Admission, receipt: Receipt, outcome: EngineOutcome)
    requires Sized(w, ix) && Settles(w, w1, ix, adm.fee, receipt.amountOut)
  {
    var called, call := CalledAgain(w, w1, ix, adm, receipt, outcome), CommitCall(w, w1, ix, adm, receipt);
    Answered(called, ix.e.engineProgram.key, call) && Repeats(ReceiptOf(called, ix.e.engineProgram.key, call), receipt)
  }

  lemma SettlesAfter(w: Store, ix: ExecuteIx, adm: Admission, outcome: EngineOutcome)
    requires Inv(w) && Sized(w, ix) && Admitted(w, ix, adm) && PrimaryAnswered(w, ix, adm, outcome)
    ensures Called(w, ix, adm, outcome).Ok?
    ensures Settles(w, Called(w, ix, adm, outcome).value.store, ix, adm.fee,
                    PrimaryReceipt(w, ix, adm, outcome).amountOut)
  {
    hide Inv, Constrained, Admitted, InvokeEngine, PrimaryCall, Primary, CanSettle, CanAccount, Acceptable;
    PrimaryExactly(w, ix, adm, outcome);
    PrimaryFacts(w, ix, adm, outcome);
  }

  /** What an answered execution comes to. */
  ghost predicate Comes(w: Store, ix: ExecuteIx, adm: Admission, primary: EngineOutcome, commit: EngineOutcome,
                        r: Result<Executed, CoreError>)
    requires Inv(w) && Sized(w, ix) && Admitted(w, ix, adm)
  {
    hide Inv, Constrained, Admitted, InvokeEngine, PrimaryCall, CommitCall, Settled, CanSettle, CanAccount, Answered,
         PrimaryAnswered, CommitAnswered, PrimaryFault, CommitFault;
    ConstrainedRecords(w, ix.e);
    if !PrimaryAnswered(w, ix, adm, primary) then
      r.Err? && PrimaryFault(Called(w, ix, adm, primary), ix.e.engineProgram.key, PrimaryCall(w, ix, adm), ix,
                             DomainAt(w, ix.e.domain.key).accountedB, r.error)
    else
    SettlesAfter(w, ix, adm, primary);
    var receipt, w1 := PrimaryReceipt(w, ix, adm, primary), Called(w, ix, adm, primary).value.store;
    var settled := Settled(w1, ix.e, ix.args.amountIn, adm.fee, receipt.amountOut);
    if ix.args.timingMode != TIMING_PREPARE_COMMIT then
      r == Result.Ok(Executed(Accounted(w, settled, ix.e, ix.args.amountIn, adm.fee, receipt.amountOut), adm.fee,
                              receipt.amountOut))
    else if !CommitAnswered(w, w1, ix, adm, receipt, commit) then
      r.Err? && CommitFault(CalledAgain(w, w1, ix, adm, receipt, commit), ix.e.engineProgram.key,
                            CommitCall(w, w1, ix, adm, receipt), receipt, r.error)
    else
      var final := Committing(w, w1, ix, adm, receipt, commit);
      r == Result.Ok(Executed(Accounted(w, final, ix.e, ix.args.amountIn, adm.fee, receipt.amountOut), adm.fee,
                              receipt.amountOut))
  }

  /** The store COMMIT leaves. */
  function Committing(w: Store, w1: Store, ix: ExecuteIx, adm: Admission, receipt: Receipt,
                      outcome: EngineOutcome): Store
    requires Sized(w, ix) && Settles(w, w1, ix, adm.fee, receipt.amountOut)
    requires CommitAnswered(w, w1, ix, adm, receipt, outcome)
  {
    CalledAgain(w, w1, ix, adm, receipt, outcome).value.store
  }

  /**
   * Executions under any engine, exactly. An admitted execution succeeds if and only if its TRANSITION or
   * PREPARE call goes through and is answered, by the market's engine, with an acceptable receipt for that
   * very call, and in PREPARE/COMMIT the COMMIT call over the settled balances is so answered as well, by a
   * receipt that repeats the output.
   */
  lemma ExecutesExactly(w: Store, ix: ExecuteIx, slot: u64, primary: EngineOutcome, commit: EngineOutcome)
    requires Inv(w)
    ensures Admit(w, ix, slot).Err? ==> ExecuteSpec(w, ix, slot, primary, commit) == Err(Admit(w, ix, slot).error)
    ensures Admit(w, ix, slot).Ok? ==>
              && Sized(w, ix) && Admitted(w, ix, Admit(w, ix, slot).value)
              && Comes(w, ix, Admit(w, ix, slot).value, primary, commit, ExecuteSpec(w, ix, slot, primary, commit))
  {
    hide Inv, Constrained, Admit, Admitted, InvokeEngine, PrimaryCall, CommitCall, Settled, CanSettle, CanAccount,
         Primary, Closing, Answered, PrimaryAnswered, Accounted, Acceptable, Repeats;
    if Admit(w, ix, slot).Ok? {
      var adm := Admit(w, ix, slot).value;
      AdmissionFacts(w, ix, slot);
      AdmittedShape(w, ix, adm);
      PrimaryIsAnswered(w, ix, adm, primary);
      if Primary(w, ix, adm, primary).Ok? {
        PrimaryFacts(w, ix, adm, primary);
        var (w1, receipt) := Primary(w, ix, adm, primary).value;
        SettledTokens(w1, ix.e, ix.args.amountIn, adm.fee, receipt.amountOut);
        if ix.args.timingMode == TIMING_PREPARE_COMMIT {
          CommitExactly(w, w1, ix, adm, receipt, commit);
        } else {
          NothingCloses(w, ix, adm, receipt, w1, commit);
        }
      }
    }
  }

  lemma PrimaryIsAnswered(w: Store, ix: ExecuteIx, adm: Admission, outcome: EngineOutcome)
    requires Sized(w, ix) && Admitted(w, ix, adm)
    ensures Primary(w, ix, adm, outcome).Ok? <==> PrimaryAnswered(w, ix, adm, outcome)
    ensures Primary(w, ix, adm, outcome).Ok? ==>
              && Called(w, ix, adm, outcome).Ok?
              && Primary(w, ix, adm, outcome).value
                 == (Called(w, ix, adm, outcome).value.store, PrimaryReceipt(w, ix, adm, outcome))
    ensures IsDomain(w, ix.e.domain.key)
    ensures Primary(w, ix, adm, outcome).Err? ==>
              PrimaryFault(Called(w, ix, adm, outcome), ix.e.engineProgram.key, PrimaryCall(w, ix, adm), ix,
                           DomainAt(w, ix.e.domain.key).accountedB, Primary(w, ix, adm, outcome).error)
  {
    ConstrainedRecords(w, ix.e);
    hide Constrained, Admitted, InvokeEngine, PrimaryCall, Primary, Acceptable;
    PrimaryExactly(w, ix, adm, outcome);
  }

  lemma NothingCloses(w: Store, ix: ExecuteIx, adm: Admission, receipt: Receipt, w1: Store, outcome: EngineOutcome)
    requires Sized(w, ix) && Settles(w, w1, ix, adm.fee, receipt.amountOut)
    requires ix.args.timingMode != TIMING_PREPARE_COMMIT
    requires var s := Settled(w1, ix.e, ix.args.amountIn, adm.fee, receipt.amountOut);
             && IsToken(s, ix.e.source.key) && IsToken(s, ix.e.destination.key)
             && IsToken(s, ix.e.vaultA.key) && IsToken(s, ix.e.vaultB.key) && IsToken(s, ix.e.feeVault.key)
    ensures var s := Settled(w1, ix.e, ix.args.amountIn, adm.fee, receipt.amountOut);
            Closing(w, s, ix, adm, receipt, outcome) == Result.Ok(s)
  {
    hide Constrained, CanSettle, CanAccount, Settled;
  }

  // ---- What the calls say ----

  lemma PrimarySays(w: Store, ix: ExecuteIx, adm: Admission)
    requires Sized(w, ix) && Admitted(w, ix, adm)
    ensures Addresses(ix, adm, PrimaryCall(w, ix, adm), adm.phase)
    ensures Says(w, ix, adm, PrimaryCall(w, ix, adm).request, adm.phase, ZERO, ix.args.expectedEngineSequence)
  {
    hide Constrained, Admitted, RequestFor, CallFor, Says, Addresses;
    RequestSays(w, ix, adm, adm.phase, ZERO, ix.args.expectedEngineSequence);
  }

  /** COMMIT is told, by digest, of the settlement that just happened and of the primary phase it follows. */
  lemma CommitSays(w: Store, w1: Store, ix: ExecuteIx, adm: Admission, receipt: Receipt)
    requires Sized(w, ix) && Admitted(w, ix, adm) && Settles(w, w1, ix, adm.fee, receipt.amountOut)
    ensures Addresses(ix, adm, CommitCall(w, w1, ix, adm, receipt), PHASE_COMMIT)
    ensures var request := CommitCall(w, w1, ix, adm, receipt).request;
            var context := request.binding.phaseContextDigest;
            && Says(w, ix, adm, request, PHASE_COMMIT, context, receipt.stateSequence)
            && context.Sha? && context.preimage.SettlementPreimage?
            && Attests(context.preimage.settlement, w,
                       Settled(w1, ix.e, ix.args.amountIn, adm.fee, receipt.amountOut), ix,
                       adm, PrimaryCall(w, ix, adm), receipt)
  {
    hide Constrained, Admitted, RequestFor, CallFor, Says, Addresses, Settled, CanSettle, SettlementDigest, Attests;
    SettledTokens(w1, ix.e, ix.args.amountIn, adm.fee, receipt.amountOut);
    var settled := Settled(w1, ix.e, ix.args.amountIn, adm.fee, receipt.amountOut);
    var request := RequestFor(w, ix, adm, adm.phase, ZERO, ix.args.expectedEngineSequence);
    var context := SettlementDigest(w, settled, ix, adm, receipt, request);
    RequestSays(w, ix, adm, PHASE_COMMIT, context, receipt.stateSequence);
    CallEntry(ix.e, adm, request);
    SaidContext(w, ix, adm, CommitCall(w, w1, ix, adm, receipt).request, context, receipt.stateSequence);
    DigestAttests(w, settled, ix, adm, receipt, request);
  }

  lemma SaidContext(w: Store, ix: ExecuteIx, adm: Admission, request: Request, context: Digest, preSequence: u64)
    requires Says(w, ix, adm, request, PHASE_COMMIT, context, preSequence)
    ensures request.binding.phaseContextDigest == context
  {
    hide Committed;
  }

  lemma DigestAttests(w: Store, settled: Store, ix: ExecuteIx, adm: Admission, receipt: Receipt, request: Request)
    requires Sized(w, ix) && CanAccount(w, ix.e, ix.args.amountIn, adm.fee, receipt.amountOut)
    requires IsToken(settled, ix.e.source.key) && IsToken(settled, ix.e.destination.key)
    requires IsToken(settled, ix.e.vaultA.key) && IsToken(settled, ix.e.vaultB.key)
    requires IsToken(settled, ix.e.feeVault.key)
    requires PrimaryCall(w, ix, adm).request == request
    ensures var context := SettlementDigest(w, settled, ix, adm, receipt, request);
            && context.Sha? && context.preimage.SettlementPreimage?
            && Attests(context.preimage.settlement, w, settled, ix, adm, PrimaryCall(w, ix, adm), receipt)
  {
    ConstrainedRecords(w, ix.e);
    hide Constrained, PrimaryCall;
  }

  // ---- What follows for the receipts ----

  /** The call went through, and its return data is the engine's receipt for this phase, intent and request. */
  predicate Bound(called: Result<PhaseResult, EngineError>, ix: ExecuteIx, adm: Admission, call: PhaseCall, phase: byte,
                  amountOut: u64) {
    && called.Ok? && called.value.returned.Some? && called.value.returned.value.setter == ix.e.engineProgram.key
    && called.value.returned.value.receipt.Some?
    && var receipt := called.value.returned.value.receipt.value;
    && receipt.phase == phase && receipt.intentDigest == Sha(IntentPreimage(adm.intent))
    && receipt.executionDigest == Sha(ExecutionPreimage(call.request.binding)) && receipt.amountOut == amountOut
  }

  lemma CallSays(w: Store, ix: ExecuteIx, adm: Admission, call: PhaseCall, phase: byte, context: Digest,
                 preSequence: u64)
    requires Addresses(ix, adm, call, phase) && Says(w, ix, adm, call.request, phase, context, preSequence)
    ensures call.entry == phase && call.request.binding.intentDigest == Sha(IntentPreimage(adm.intent))
  {
    hide Committed;
  }

  lemma AdmittedPhase(w: Store, ix: ExecuteIx, adm: Admission)
    requires Admitted(w, ix, adm)
    ensures adm.phase == if ix.args.timingMode == TIMING_SINGLE then PHASE_TRANSITION else PHASE_PREPARE
  {
  }

  /**
   * Whatever the engine, each receipt a successful execution settled on was set by the market's engine for
   * that very call: its phase, the rebuilt intent, and the digest of the request the call carried.
   */
  lemma ReceiptsBind(w: Store, ix: ExecuteIx, slot: u64, primary: EngineOutcome, commit: EngineOutcome)
    requires Inv(w) && ExecuteSpec(w, ix, slot, primary, commit).Ok?
    ensures Admit(w, ix, slot).Ok? && Sized(w, ix) && Admitted(w, ix, Admit(w, ix, slot).value)
    ensures var x, adm := ExecuteSpec(w, ix, slot, primary, commit).value, Admit(w, ix, slot).value;
            var phase := if ix.args.timingMode == TIMING_SINGLE then PHASE_TRANSITION else PHASE_PREPARE;
            Bound(Called(w, ix, adm, primary), ix, adm, PrimaryCall(w, ix, adm), phase, x.amountOut)
    ensures ix.args.timingMode == TIMING_PREPARE_COMMIT ==>
              var x, adm := ExecuteSpec(w, ix, slot, primary, commit).value, Admit(w, ix, slot).value;
              && PrimaryAnswered(w, ix, adm, primary)
              && var w1, receipt := Called(w, ix, adm, primary).value.store, PrimaryReceipt(w, ix, adm, primary);
              && Settles(w, w1, ix, adm.fee, receipt.amountOut)
              && Bound(CalledAgain(w, w1, ix, adm, receipt, commit), ix, adm, CommitCall(w, w1, ix, adm, receipt),
                       PHASE_COMMIT, x.amountOut)
  {
    hide Inv, Constrained, Admit, Admitted, InvokeEngine, PrimaryCall, CommitCall, Settled, CanSettle, CanAccount,
         Accounted, Says, Addresses, ExecuteSpec;
    ExecutesAdmitted(w, ix, slot, primary, commit);
    ExecutesExactly(w, ix, slot, primary, commit);
    var adm := Admit(w, ix, slot).value;
    AdmittedPhase(w, ix, adm);
    PrimarySays(w, ix, adm);
    CallSays(w, ix, adm, PrimaryCall(w, ix, adm), adm.phase, ZERO, ix.args.expectedEngineSequence);
    SettlesAfter(w, ix, adm, primary);
    if ix.args.timingMode == TIMING_PREPARE_COMMIT {
      var w1, receipt := Called(w, ix, adm, primary).value.store, PrimaryReceipt(w, ix, adm, primary);
      CommitSays(w, w1, ix, adm, receipt);
      var call := CommitCall(w, w1, ix, adm, receipt);
      CallSays(w, ix, adm, call, PHASE_COMMIT, call.request.binding.phaseContextDigest, receipt.stateSequence);
    }
  }

  /** And an execution whose primary answer is of another setter, phase, intent or request fails, saying so. */
  lemma MisboundFails(w: Store, ix: ExecuteIx, slot: u64, primary: EngineOutcome, commit: EngineOutcome)
    requires Inv(w) && Admit(w, ix, slot).Ok? && Sized(w, ix)
    requires Called(w, ix, Admit(w, ix, slot).value, primary).Ok?
    ensures var adm, r := Admit(w, ix, slot).value, ExecuteSpec(w, ix, slot, primary, commit);
            Misbinds(Called(w, ix, adm, primary).value.returned, ix.e.engineProgram.key,
                     PrimaryCall(w, ix, adm)).Some? ==>
              r == Err(Misbinds(Called(w, ix, adm, primary).value.returned, ix.e.engineProgram.key,
                                PrimaryCall(w, ix, adm)).value)
  {
    hide Inv, Constrained, Admit, Admitted, InvokeEngine, PrimaryCall, CommitCall, Settled, CanSettle, CanAccount,
         Answered, Accounted, Misbinds;
    var adm := Admit(w, ix, slot).value;
    ExecutesExactly(w, ix, slot, primary, commit);
    AnsweredExactly(Called(w, ix, adm, primary), ix.e.engineProgram.key, PrimaryCall(w, ix, adm));
  }

  /** Nor does a misbound COMMIT answer pass. */
  lemma MisboundCommitFails(w: Store, ix: ExecuteIx, slot: u64, primary: EngineOutcome, commit: EngineOutcome)
    requires Inv(w) && Admit(w, ix, slot).Ok? && Sized(w, ix) && ix.args.timingMode == TIMING_PREPARE_COMMIT
    requires Admitted(w, ix, Admit(w, ix, slot).value) && PrimaryAnswered(w, ix, Admit(w, ix, slot).value, primary)
    ensures var adm := Admit(w, ix, slot).value;
            && Called(w, ix, adm, primary).Ok?
            && var w1, receipt := Called(w, ix, adm, primary).value.store, PrimaryReceipt(w, ix, adm, primary);
            && Settles(w, w1, ix, adm.fee, receipt.amountOut)
            && var again, call := CalledAgain(w, w1, ix, adm, receipt, commit), CommitCall(w, w1, ix, adm, receipt);
            && (again.Ok? && Misbinds(again.value.returned, ix.e.engineProgram.key, call).Some? ==>
                  ExecuteSpec(w, ix, slot, primary, commit)
                  == Err(Misbinds(again.value.returned, ix.e.engineProgram.key, call).value))
  {
    hide Inv, Constrained, Admit, Admitted, InvokeEngine, PrimaryCall, CommitCall, Settled, CanSettle, CanAccount,
         Answered, PrimaryAnswered, Accounted, Misbinds;
    var adm := Admit(w, ix, slot).value;
    SettlesAfter(w, ix, adm, primary);
    var w1, receipt := Called(w, ix, adm, primary).value.store, PrimaryReceipt(w, ix, adm, primary);
    ExecutesExactly(w, ix, slot, primary, commit);
    AnsweredExactly(CalledAgain(w, w1, ix, adm, receipt, commit), ix.e.engineProgram.key,
                    CommitCall(w, w1, ix, adm, receipt));
  }
}
