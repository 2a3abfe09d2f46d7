/**
 * The settlement program's instructions as it runs them: cached accounts, checks in their order, token
 * transfers, reloads, exact-delta checks, accounting last. Each is proved equal to its specification.
 */
module Program {
  import opened Base
  import opened Bindings
  import opened Keys
  import opened Ledger
  import opened Errors
  import opened Capabilities
  import opened PlanEngine
  import opened Runtime
  import opened Core
  import opened Frames
  import opened ExecuteInstruction
  import opened Honest
  import opened Instructions
  import opened Validation
  import Failures
  import FixedMath
  import PathMath

  // ---- Admission ----

  lemma AdmissionHalves(w: Store, ix: ExecuteIx, slot: u64)
    ensures RolesVerdict(w, ix, slot).Err? ==> Admit(w, ix, slot) == Err(RolesVerdict(w, ix, slot).error)
    ensures RolesVerdict(w, ix, slot).Ok? ==>
              && Constrained(w, ix.e) && ix.args.amountIn > 0
              && |ix.args.opaquePayload| <= MAX_OPAQUE_PAYLOAD_LEN
              && Admit(w, ix, slot) == AuthorityVerdict(w, ix, RolesVerdict(w, ix, slot).value)
  {
    hide Constrained, OpaqueDescriptors, PhaseDescriptors, Loaded, EnvelopeVerdict, RebuiltIntent, EnvelopeKeys,
         AmountVerdict;
  }

  method CheckRoles(w: Store, ix: ExecuteIx, slot: u64) returns (r: Result<byte, CoreError>)
    requires Inv(w)
    ensures r == RolesVerdict(w, ix, slot)
  {
    hide Inv, EnvelopeKeys, NoDuplicates, EnvelopeVerdict, ValidateExecutionEnvelope, Constrained, Load;
    :- Need(Constrained(w, ix.e), AccountConstraint);
    :- Need(|ix.args.opaquePayload| <= MAX_OPAQUE_PAYLOAD_LEN, OpaquePayloadTooLarge);
    var phase :- PrimaryPhase(ix.args.timingMode);
    :- Need(ix.args.amountIn > 0, CoreError.ZeroAmount);
    :- Need(slot <= ix.args.expiresAtSlot, RequestExpired);
    var distinct := EnsureDistinctRoles(EnvelopeKeys(ix.e));
    ConstrainedParts(w, ix.e);
    DuplicatesRejected(w, ix.e);
    var _ :- distinct;
    EnvelopeChecksReduce(w, ix.e);
    var _ :- ValidateExecutionEnvelope(w, Load(w, ix.e), ix.e);
    return Ok(phase);
  }

  /** Everything the execute handler checks before it calls the engine. It changes nothing. */
  method AdmitExecution(w: Store, ix: ExecuteIx, slot: u64) returns (r: Result<Admission, CoreError>)
    requires Inv(w)
    ensures r == Admit(w, ix, slot)
  {
    hide Inv, EnvelopeKeys, OpaqueDescriptors, PhaseDescriptors, Loaded, RolesVerdict, Constrained, RebuiltIntent,
         FixedMath.FeeCeil, Admit;
    AdmissionHalves(w, ix, slot);
    var phase :- CheckRoles(w, ix, slot);
    var e, args := ix.e, ix.args;
    ConstrainedParts(w, e);
    FeeRate(w, e);
    var source, domain := TokenAt(w, e.source.key), DomainAt(w, e.domain.key);

    PathMath.FeeIsCeiling(args.amountIn, PROTOCOL_FEE_BPS);
    var computed := FixedMath.FeeCeil(args.amountIn, MarketAt(w, e.market.key).feeBps);
    if computed.Err? {
      return Err(CoreError.ArithmeticOverflow);
    }
    var fee := computed.value;
    :- Need(fee <= args.maxProtocolFee, ProtocolFeeAboveUserMaximum);
    var total :- Add64(args.amountIn, fee, CoreError.ArithmeticOverflow);
    :- Need(total <= args.maxTotalInputDebit, TotalDebitAboveUserMaximum);
    :- Need(source.amount >= total, InsufficientUserSourceBalance);
    :- Need(domain.accountedB >= args.minOutputCredit, InsufficientAccountedLiquidity);

    var opaques :- ValidateOpaqueCapabilities(Loaded(w, ix.closure), EnvelopeKeys(e));
    var authorized := CapabilityDescriptors(e.engineState.key, OwnerOf(w, e.engineState.key), opaques, true);
    var capabilityHash := CapabilityHash(e.engineProgram.key, authorized);
    :- Need(capabilityHash == args.expectedCapabilityHash, CapabilityHashExpectationMismatch);
    var intent := RebuiltIntent(w, ix, fee, capabilityHash);
    var spendAuthority := SpendPda(e.source.key, IntentDigest(intent));
    :- Need(e.spendAuthority.key == spendAuthority, InvalidSpendAuthority);
    var _ :- ValidateDelegatedSpendSource(source, e.mintA.key, spendAuthority, total);
    :- Need(e.primaryCallback.key == CallbackFor(e, intent, phase), InvalidCallbackAuthority);
    :- Need(e.commitCallback.key == CallbackFor(e, intent, PHASE_COMMIT), InvalidCallbackAuthority);
    return Ok(Admission(phase, fee, total, opaques, authorized, intent));
  }

  lemma ConstrainedParts(w: Store, e: Envelope)
    requires Constrained(w, e)
    ensures IsMint(w, e.mintA.key) && IsMint(w, e.mintB.key)
    ensures IsToken(w, e.source.key) && TokenAt(w, e.source.key).mint == e.mintA.key
    ensures IsDomain(w, e.domain.key) && IsMarket(w, e.market.key)
    ensures OwnerOf(w, e.engineState.key) == e.engineProgram.key
  {
  }

  lemma DuplicatesRejected(w: Store, e: Envelope)
    ensures !NoDuplicates(EnvelopeKeys(e)) ==> EnvelopeVerdict(w, e) == Err(DuplicateAccountRole)
  {
    hide NoDuplicates, EnvelopeKeys;
  }

  lemma FeeRate(w: Store, e: Envelope)
    requires Inv(w) && Constrained(w, e)
    ensures MarketAt(w, e.market.key).feeBps == PROTOCOL_FEE_BPS
  {
    assert MarketOk(w, e.market.key);
  }

  // ---- The engine CPI ----

  /** The runtime's dispatch of an engine call. */
  method CallEngine(bank: Bank, program: Key, call: PhaseCall, outcome: EngineOutcome)
    returns (r: Result<Option<ReturnData>, EngineError>)
    modifies bank
    ensures match InvokeEngine(old(bank.accounts), program, call, outcome)
            case Ok(done) => r == Ok(done.returned) && bank.accounts == done.store
            case Err(e) => r == Err(e)
  {
    hide Evaluated, RunNested, LegalWrites;
    if program == PLAN_ENGINE {
      r := EvaluatePhase(bank, call, outcome.around);
    } else {
      var done :- InvokeEngine(bank.accounts, program, call, outcome);
      bank.accounts := done.store;
      r := Ok(done.returned);
    }
  }

  /** Every account of a phase's call is among the ones supplied, with the privileges the call needs. */
  lemma PhaseProvided(w: Store, v: Store, ix: ExecuteIx, adm: Admission, phase: byte)
    requires Admitted(w, ix, adm) && SameShape(w, v) && PhaseOf(adm, phase)
    ensures var ds := PhaseDescriptors(ix.e.engineState.key, ix.e.engineProgram.key, adm.opaques,
                                       phase != PHASE_PREPARE)[1..];
            |ds| == |ix.closure| && forall i :: 0 <= i < |ds| ==> Provided(Loaded(v, ix.closure), ds[i])
  {
    hide OpaqueDescriptors, NoDuplicates, MarketOk, RebuiltIntent, EnvelopeKeys, PhaseDescriptors, PhaseMetas,
         Presented, Constrained, CapabilityHash, ObservedDescriptors, Provided;
    StateOwner(w, ix, adm);
    CallbackRole(w, ix, adm, phase);
    SameShapeLoads(w, v, ix.closure);
    StateNotExecutable(w, ix, adm);
    AcceptedClosure(v, ix.closure, EnvelopeKeys(ix.e));
    CapabilityAgreement(v, ix.closure, EnvelopeKeys(ix.e), ix.e.engineState.key,
                        CallbackFor(ix.e, adm.intent, phase), phase != PHASE_PREPARE);
    var all := PhaseDescriptors(ix.e.engineState.key, ix.e.engineProgram.key, adm.opaques, phase != PHASE_PREPARE);
    assert forall i :: 0 <= i < |all[1..]| ==> all[1..][i] == all[i + 1];
  }

  /** `invoke_engine_phase`: one engine CPI under the phase's callback, and the receipt it returns. */
  method InvokeEnginePhase(bank: Bank, ghost w: Store, ix: ExecuteIx, ghost adm: Admission,
                           descriptors: seq<Descriptor>,
                           request: Request, callback: Key, outcome: EngineOutcome)
    returns (r: Result<Receipt, CoreError>)
    requires Admitted(w, ix, adm) && SameShape(w, bank.accounts) && PhaseOf(adm, request.binding.phase)
    requires callback == CallbackFor(ix.e, adm.intent, request.binding.phase)
    requires descriptors == PhaseDescriptors(ix.e.engineState.key, ix.e.engineProgram.key, adm.opaques,
                                             request.binding.phase != PHASE_PREPARE)[1..]
    modifies bank
    ensures match InvokeEngine(old(bank.accounts), ix.e.engineProgram.key, CallFor(ix.e, adm, request), outcome)
            case Ok(done) => r == ReceiptFrom(ix.e.engineProgram.key, done.returned) && bank.accounts == done.store
            case Err(error) => r == Err(EngineFailed(error))
  {
    hide Admitted, SameShape, Provided, Loaded, PhaseMetas, PhaseDescriptors, InvokeEngine, CallbackFor, EnvelopeKeys;
    PhaseProvided(w, bank.accounts, ix, adm, request.binding.phase);
    var writable := request.binding.phase != PHASE_PREPARE;
    var built := BuildPhaseMetas(ix.e.engineState.key, callback, Loaded(bank.accounts, ix.closure), descriptors,
                                 writable);
    if built.Err? {
      return Err(ErrorOf(built, InvalidWireEncoding));
    }
    var metas := built.value;
    var call := PhaseCall(request.binding.phase, metas[0], metas[1], metas[2..], request);
    assert call == CallFor(ix.e, adm, request);
    var called := CallEngine(bank, ix.e.engineProgram.key, call, outcome);
    if called.Err? {
      return Err(EngineFailed(called.error));
    }
    var returned := called.value;
    :- Need(returned.Some?, MissingEngineReceipt);
    :- Need(returned.value.setter == ix.e.engineProgram.key, InvalidEngineReceiptSetter);
    :- Need(returned.value.receipt.Some?, InvalidEngineReceipt);
    return Ok(returned.value.receipt.value);
  }

  // ---- Settlement ----

  /** What settlement relies on: the cached balances are live, the roles are distinct, the delegate exact. */
  ghost predicate Settleable(w: Store, c: Cache, e: Envelope, amountIn: u64, fee: u64, amountOut: u64) {
    && CanSettle(w, e, amountIn, fee, amountOut) && amountIn > 0 && fee > 0
    && c.source == TokenAt(w, e.source.key) && c.destination == TokenAt(w, e.destination.key)
    && c.vaultA == TokenAt(w, e.vaultA.key) && c.vaultB == TokenAt(w, e.vaultB.key)
    && c.feeVault == TokenAt(w, e.feeVault.key)
    && c.source.mint == e.mintA.key == c.vaultA.mint == c.feeVault.mint
    && c.vaultB.mint == e.mintB.key == c.destination.mint
    && e.mintA.key != e.mintB.key
    && c.source.delegate == Some(e.spendAuthority.key) && c.source.delegatedAmount == amountIn + fee
    && c.vaultA.delegate == None && c.vaultB.delegate == None && c.feeVault.delegate == None
    && c.vaultB.owner == e.domain.key
    && e.vaultA.key != e.feeVault.key && e.vaultB.key != e.destination.key
  }

  /** The three transfers, one at a time. */
  lemma TransfersSettle(w: Store, c: Cache, e: Envelope, amountIn: u64, fee: u64, amountOut: u64)
    requires Settleable(w, c, e, amountIn, fee, amountOut)
    ensures var r1 := Transferred(w, e.source.key, e.mintA.key, e.vaultA.key, e.spendAuthority.key, amountIn);
            && r1.Ok?
            && var r2 := Transferred(r1.value, e.source.key, e.mintA.key, e.feeVault.key, e.spendAuthority.key, fee);
            && r2.Ok?
            && Transferred(r2.value, e.vaultB.key, e.mintB.key, e.destination.key, e.domain.key, amountOut)
               == Result.Ok(Settled(w, e, amountIn, fee, amountOut))
  {
    var t := TokenAt(w, e.source.key);
    assert e.source.key != e.vaultA.key && e.source.key != e.feeVault.key && e.source.key != e.vaultB.key;
    assert e.destination.key != e.vaultA.key && e.destination.key != e.feeVault.key;
    assert e.destination.key != e.source.key;
    var w1 := Transferred(w, e.source.key, e.mintA.key, e.vaultA.key, e.spendAuthority.key, amountIn).value;
    assert w1 == w[e.source.key := TokenEntry(t.(amount := t.amount - amountIn, delegatedAmount := fee))]
                  [e.vaultA.key := TokenEntry(Credited(c.vaultA, amountIn))];
    var w2 := Transferred(w1, e.source.key, e.mintA.key, e.feeVault.key, e.spendAuthority.key, fee).value;
    assert w2 == w[e.source.key := TokenEntry(Spent(t, amountIn + fee).(delegate := None, delegatedAmount := 0))]
                  [e.vaultA.key := TokenEntry(Credited(c.vaultA, amountIn))]
                  [e.feeVault.key := TokenEntry(Credited(c.feeVault, fee))];
  }

  /**
   * `settle_authenticated_intent`: two pieces of the delegate's allowance, the output, then five exact
   * deltas against the balances cached before the engine ran. Given the cache, none of them can fail.
   */
  method SettleAuthenticatedIntent(bank: Bank, c: Cache, e: Envelope, amountIn: u64, fee: u64, total: u64,
                                   amountOut: u64)
    returns (r: Result<(), CoreError>)
    requires Settleable(bank.accounts, c, e, amountIn, fee, amountOut) && total == amountIn + fee
    modifies bank
    ensures r == Ok(()) && bank.accounts == Settled(old(bank.accounts), e, amountIn, fee, amountOut)
  {
    hide Transferred, Settled;
    ghost var w := bank.accounts;
    TransfersSettle(w, c, e, amountIn, fee, amountOut);
    var t1 := bank.TransferChecked(e.source.key, e.mintA.key, e.vaultA.key, e.spendAuthority.key, amountIn);
    if t1.Err? {
      return Err(TokenProgramFailed(ErrorOf(t1, InvalidState)));
    }
    var t2 := bank.TransferChecked(e.source.key, e.mintA.key, e.feeVault.key, e.spendAuthority.key, fee);
    if t2.Err? {
      return Err(TokenProgramFailed(ErrorOf(t2, InvalidState)));
    }
    var t3 := bank.TransferChecked(e.vaultB.key, e.mintB.key, e.destination.key, e.domain.key, amountOut);
    if t3.Err? {
      return Err(TokenProgramFailed(ErrorOf(t3, InvalidState)));
    }
    assert bank.accounts == Settled(w, e, amountIn, fee, amountOut);
    SettledBalances(w, c, e, amountIn, fee, amountOut);
    var source, destination := TokenAt(bank.accounts, e.source.key), TokenAt(bank.accounts, e.destination.key);
    var vaultA, vaultB := TokenAt(bank.accounts, e.vaultA.key), TokenAt(bank.accounts, e.vaultB.key);
    var feeVault := TokenAt(bank.accounts, e.feeVault.key);
    var deltas := ExactDeltas(c, source, destination, vaultA, vaultB, feeVault, amountIn, fee, total, amountOut);
    if deltas.Err? {
      return deltas;
    }
    if source.delegate != None || source.delegatedAmount != 0 {
      return Err(SpendDelegateNotCleared);
    }
    return Ok(());
  }

  function ExactDeltas(
      c: Cache, source: TokenAccount, destination: TokenAccount, vaultA: TokenAccount, vaultB: TokenAccount,
      feeVault: TokenAccount, amountIn: u64, fee: u64, total: u64, amountOut: u64)
    : Result<(), CoreError>
  {
    var _ :- ExactDebit(c.source.amount, source.amount, total, UnexpectedSourceDebit);
    var _ :- ExactCredit(c.vaultA.amount, vaultA.amount, amountIn, UnexpectedVaultCredit);
    var _ :- ExactCredit(c.feeVault.amount, feeVault.amount, fee, UnexpectedFeeVaultCredit);
    var _ :- ExactDebit(c.vaultB.amount, vaultB.amount, amountOut, UnexpectedVaultDebit);
    ExactCredit(c.destination.amount, destination.amount, amountOut, UnexpectedDestinationCredit)
  }

  /** The five deltas, exactly. */
  lemma DeltasExactly(
      c: Cache, source: TokenAccount, destination: TokenAccount, vaultA: TokenAccount, vaultB: TokenAccount,
      feeVault: TokenAccount, amountIn: u64, fee: u64, total: u64, amountOut: u64)
    ensures ExactDeltas(c, source, destination, vaultA, vaultB, feeVault, amountIn, fee, total, amountOut).Ok? <==>
              && source.amount == c.source.amount - total && vaultA.amount == c.vaultA.amount + amountIn
              && feeVault.amount == c.feeVault.amount + fee && vaultB.amount == c.vaultB.amount - amountOut
              && destination.amount == c.destination.amount + amountOut
  {
  }

  lemma SettledBalances(w: Store, c: Cache, e: Envelope, amountIn: u64, fee: u64, amountOut: u64)
    requires Settleable(w, c, e, amountIn, fee, amountOut)
    ensures var s := Settled(w, e, amountIn, fee, amountOut);
            && IsToken(s, e.source.key) && IsToken(s, e.destination.key) && IsToken(s, e.vaultA.key)
            && IsToken(s, e.vaultB.key) && IsToken(s, e.feeVault.key)
            && ExactDeltas(c, TokenAt(s, e.source.key), TokenAt(s, e.destination.key), TokenAt(s, e.vaultA.key),
                           TokenAt(s, e.vaultB.key), TokenAt(s, e.feeVault.key),
                           amountIn, fee, amountIn + fee, amountOut) == Ok(())
            && TokenAt(s, e.source.key).delegate == None && TokenAt(s, e.source.key).delegatedAmount == 0
  {
    assert e.source.key != e.vaultA.key && e.source.key != e.feeVault.key && e.source.key != e.vaultB.key;
  }

  // ---- The execute handler ----

  /** TRANSITION or PREPARE and the checks on its receipt. */
  method RunPrimary(bank: Bank, w: Store, ix: ExecuteIx, adm: Admission, request: Request, outcome: EngineOutcome)
    returns (r: Result<Receipt, CoreError>)
    requires bank.accounts == w && Inv(w) && Admitted(w, ix, adm)
    requires Constrained(w, ix.e) && |ix.args.opaquePayload| <= MAX_OPAQUE_PAYLOAD_LEN
    requires |ix.closure| <= MAX_OPAQUE_ACCOUNTS
    requires request == RequestFor(w, ix, adm, adm.phase, ZERO, ix.args.expectedEngineSequence)
    modifies bank
    ensures match Primary(w, ix, adm, outcome)
            case Ok(done) => r == Ok(done.1) && bank.accounts == done.0
            case Err(e) => r == Err(e)
  {
    hide Inv, Admitted, Constrained, RequestFor, CallFor, InvokeEngine, PhaseDescriptors, CallbackFor, SameShape,
         SequenceVerdict;
    ConstrainedParts(w, ix.e);
    PrimaryCallback(w, ix, adm);
    SelfShape(w);
    StateOwner(w, ix, adm);
    RequestPhase(w, ix, adm, adm.phase, ZERO, ix.args.expectedEngineSequence);
    var descriptors := CapabilityDescriptors(ix.e.engineState.key, OwnerOf(bank.accounts, ix.e.engineState.key),
                                             adm.opaques, adm.phase != PHASE_PREPARE);
    var receipt :- InvokeEnginePhase(bank, w, ix, adm, descriptors[1..], request, ix.e.primaryCallback.key, outcome);
    var _ :- ReceiptBinds(receipt, request);
    var _ :- SequenceVerdict(adm.phase, ix.args.expectedEngineSequence, receipt.stateSequence);
    var _ :- OutputVerdict(receipt.amountOut, ix.args.minOutputCredit, DomainAt(w, ix.e.domain.key).accountedB);
    return Ok(receipt);
  }

  lemma PrimaryCallback(w: Store, ix: ExecuteIx, adm: Admission)
    requires Admitted(w, ix, adm)
    ensures ix.e.primaryCallback.key == CallbackFor(ix.e, adm.intent, adm.phase)
    ensures ix.e.commitCallback.key == CallbackFor(ix.e, adm.intent, PHASE_COMMIT)
  {
  }

  /** COMMIT over the settled balances and the checks on its receipt. */
  method RunCommit(bank: Bank, ghost w: Store, ix: ExecuteIx, adm: Admission, request: Request, primary: Receipt,
                   outcome: EngineOutcome)
    returns (r: Result<(), CoreError>)
    requires Admitted(w, ix, adm) && SameShape(w, bank.accounts) && adm.phase == PHASE_PREPARE
    requires Constrained(w, ix.e) && |ix.args.opaquePayload| <= MAX_OPAQUE_PAYLOAD_LEN
    requires |ix.closure| <= MAX_OPAQUE_ACCOUNTS
    requires request.binding.phase == PHASE_COMMIT
    modifies bank
    ensures forall context: Digest ::
              request == RequestFor(w, ix, adm, PHASE_COMMIT, context, primary.stateSequence) ==>
              match Commit(w, old(bank.accounts), ix, adm, primary, context, outcome)
              case Ok(final) => r == Ok(()) && bank.accounts == final
              case Err(e) => r == Err(e)
  {
    hide Admitted, Constrained, RequestFor, CallFor, InvokeEngine, PhaseDescriptors, CallbackFor;
    PrimaryCallback(w, ix, adm);
    StateOwner(w, ix, adm);
    AuthorizedDescriptors(w, ix, adm);
    var descriptors := CapabilityDescriptors(ix.e.engineState.key, OwnerOf(bank.accounts, ix.e.engineState.key),
                                             adm.opaques, true);
    if CapabilityHash(ix.e.engineProgram.key, descriptors) != CapabilityHash(ix.e.engineProgram.key, adm.authorized) {
      return Err(CapabilityHashExpectationMismatch);
    }
    var receipt :- InvokeEnginePhase(bank, w, ix, adm, descriptors[1..], request, ix.e.commitCallback.key, outcome);
    var _ :- ReceiptBinds(receipt, request);
    :- Need(receipt.amountOut == primary.amountOut, CommitOutputMismatch);
    :- Need(primary.stateSequence < U64_MAX, CoreError.ArithmeticOverflow);
    :- Need(receipt.stateSequence == primary.stateSequence + 1, CommitSequenceMismatch);
    return Ok(());
  }

  lemma AuthorizedDescriptors(w: Store, ix: ExecuteIx, adm: Admission)
    requires Admitted(w, ix, adm)
    ensures adm.authorized == PhaseDescriptors(ix.e.engineState.key, ix.e.engineProgram.key, adm.opaques, true)
  {
  }

  /** The cached balances are still true after the primary phase, whatever the engine did in it. */
  lemma CacheHolds(w: Store, w1: Store, ix: ExecuteIx, adm: Admission, amountOut: u64)
    requires Inv(w) && Admitted(w, ix, adm) && Constrained(w, ix.e) && Guarded(w, w1, ix.e, ix.closure)
    requires CanSettle(w1, ix.e, ix.args.amountIn, adm.fee, amountOut)
    ensures Settleable(w1, Load(w, ix.e), ix.e, ix.args.amountIn, adm.fee, amountOut)
    ensures ix.args.amountIn + adm.fee == adm.total
  {
    SpendRoles(w, ix, adm);
    hide Inv, Admitted, Constrained, Guarded;
    SettlementRoles(w, ix, adm);
    GuardedTokens(w, w1, ix.e, ix.closure);
  }

  lemma SpendRoles(w: Store, ix: ExecuteIx, adm: Admission)
    requires Admitted(w, ix, adm)
    ensures IsToken(w, ix.e.source.key) && ix.args.amountIn > 0 && ix.args.amountIn + adm.fee == adm.total
    ensures TokenAt(w, ix.e.source.key).delegate == Some(ix.e.spendAuthority.key)
    ensures TokenAt(w, ix.e.source.key).delegatedAmount == adm.total
  {
  }

  /** Every request encodes: its binding is always well-formed. */
  lemma Encodes(w: Store, ix: ExecuteIx, adm: Admission, phase: byte, context: Digest, preSequence: u64)
    requires Constrained(w, ix.e) && |ix.args.opaquePayload| <= MAX_OPAQUE_PAYLOAD_LEN
    requires |ix.closure| <= MAX_OPAQUE_ACCOUNTS
    requires KnownPhase(phase) && (context != ZERO <==> phase == PHASE_COMMIT)
    ensures ValidateExecutionBinding(RequestFor(w, ix, adm, phase, context, preSequence).binding, ZERO).Ok?
    ensures RequestFor(w, ix, adm, phase, context, preSequence).binding.phase == phase
  {
    hide Constrained, PhaseDescriptors;
  }

  /** The handler up to and including COMMIT: accounting is still as it was. */
  method AuthenticateAndSettle(bank: Bank, ix: ExecuteIx, adm: Admission, primary: EngineOutcome, commit: EngineOutcome)
    returns (r: Result<u64, CoreError>)
    requires Inv(bank.accounts) && Admitted(bank.accounts, ix, adm)
    modifies bank
    ensures match BeforeBooks(old(bank.accounts), ix, adm, primary, commit)
            case Ok(done) => r == Ok(done.1) && bank.accounts == done.0
            case Err(e) => r == Err(e)
  {
    hide Inv, Admitted, Constrained, RequestFor, Primary, Commit, CanSettle, CanAccount, Settled, Guarded, Settleable,
         SameShape, Load, SettlementDigest, ValidateExecutionBinding;
    var w := bank.accounts;
    AdmittedShape(w, ix, adm);
    AdmittedPhases(w, ix, adm);
    var c := Load(w, ix.e);
    var request := RequestFor(w, ix, adm, adm.phase, ZERO, ix.args.expectedEngineSequence);
    Encodes(w, ix, adm, adm.phase, ZERO, ix.args.expectedEngineSequence);
    if ValidateExecutionBinding(request.binding, ZERO).Err? {
      return Err(InvalidWireEncoding);
    }
    var receipt :- RunPrimary(bank, w, ix, adm, request, primary);
    PrimaryFacts(w, ix, adm, primary);
    CacheHolds(w, bank.accounts, ix, adm, receipt.amountOut);
    ghost var w1 := bank.accounts;
    AccountingFits(w, ix.e, ix.args.amountIn, adm.fee, receipt.amountOut);
    var postA := Add64(DomainAt(w, ix.e.domain.key).accountedA, ix.args.amountIn, CoreError.ArithmeticOverflow);
    var postB := Sub64(DomainAt(w, ix.e.domain.key).accountedB, receipt.amountOut, CoreError.ArithmeticOverflow);
    var postFee := Add64(FeeLedgerAt(w, ix.e.feeLedger.key).accountedFeeA, adm.fee, CoreError.ArithmeticOverflow);
    if postA.Err? || postB.Err? || postFee.Err? {
      return Err(CoreError.ArithmeticOverflow);
    }
    SettledTokens(w1, ix.e, ix.args.amountIn, adm.fee, receipt.amountOut);
    var settled := SettleAuthenticatedIntent(bank, c, ix.e, ix.args.amountIn, adm.fee, adm.total, receipt.amountOut);
    if settled.Err? {
      return Err(ErrorOf(settled, SpendDelegateNotCleared));
    }
    if ix.args.timingMode == TIMING_PREPARE_COMMIT {
      var context := SettlementDigest(w, bank.accounts, ix, adm, receipt, request);
      var commitRequest := RequestFor(w, ix, adm, PHASE_COMMIT, context, receipt.stateSequence);
      ContextNonzero(w, bank.accounts, ix, adm, receipt, request);
      Encodes(w, ix, adm, PHASE_COMMIT, context, receipt.stateSequence);
      if ValidateExecutionBinding(commitRequest.binding, ZERO).Err? {
        return Err(InvalidWireEncoding);
      }
      SettledShape(w, ix.e, ix.args.amountIn, adm.fee, receipt.amountOut);
      var committed := RunCommit(bank, w, ix, adm, commitRequest, receipt, commit);
      var _ :- committed;
    }
    return Ok(receipt.amountOut);
  }

  /** The specification up to accounting: the final store but for the books, and the output. */
  ghost function BeforeBooks(w: Store, ix: ExecuteIx, adm: Admission, primary: EngineOutcome, commit: EngineOutcome)
    : Result<(Store, u64), CoreError>
    requires Inv(w) && Admitted(w, ix, adm)
  {
    hide Primary, Closing, Inv, Admitted, CanSettle, CanAccount, Guarded, Constrained, Settled;
    AdmittedShape(w, ix, adm);
    var first :- Primary(w, ix, adm, primary);
    PrimaryFacts(w, ix, adm, primary);
    var settled := Settled(first.0, ix.e, ix.args.amountIn, adm.fee, first.1.amountOut);
    SettledTokens(first.0, ix.e, ix.args.amountIn, adm.fee, first.1.amountOut);
    var final :- Closing(w, settled, ix, adm, first.1, commit);
    Ok((final, first.1.amountOut))
  }

  /** The handler. Accounting is assigned last, from the records cached at the start. */
  method HandleExecute(bank: Bank, ix: ExecuteIx, slot: u64, primary: EngineOutcome, commit: EngineOutcome)
    returns (r: Result<(u64, u64), CoreError>)
    requires Inv(bank.accounts)
    modifies bank
    ensures match ExecuteSpec(old(bank.accounts), ix, slot, primary, commit)
            case Ok(x) => r == Ok((x.fee, x.amountOut)) && bank.accounts == x.store
            case Err(e) => r == Err(e)
    ensures r.Err? ==> !Failures.Redundant(r.error)
  {
    hide Inv, Admit, Admitted, Constrained, Primary, Closing, CanSettle, CanAccount, Settled, Guarded, Load,
         Failures.Redundant;
    var w := bank.accounts;
    Failures.RedundantChecksNeverFire(w, ix, slot, primary, commit);
    var adm :- AdmitExecution(w, ix, slot);
    AdmissionFacts(w, ix, slot);
    AdmittedShape(w, ix, adm);
    ConstrainedParts(w, ix.e);
    LedgerLoaded(w, ix.e);
    var domain, feeLedger := DomainAt(w, ix.e.domain.key), FeeLedgerAt(w, ix.e.feeLedger.key);
    var amountOut :- AuthenticateAndSettle(bank, ix, adm, primary, commit);
    PrimaryFacts(w, ix, adm, primary);
    AccountingFits(w, ix.e, ix.args.amountIn, adm.fee, amountOut);
    domain := domain.(accountedA := domain.accountedA + ix.args.amountIn);
    domain := domain.(accountedB := domain.accountedB - amountOut);
    feeLedger := feeLedger.(accountedFeeA := feeLedger.accountedFeeA + adm.fee);
    bank.accounts := bank.accounts[ix.e.domain.key := DomainEntry(domain)];
    bank.accounts := bank.accounts[ix.e.feeLedger.key := FeeLedgerEntry(feeLedger)];
    return Ok((adm.fee, amountOut));
  }

  lemma LedgerLoaded(w: Store, e: Envelope)
    requires Constrained(w, e)
    ensures IsFeeLedger(w, e.feeLedger.key)
  {
  }

  lemma AccountingFits(w: Store, e: Envelope, amountIn: u64, fee: u64, amountOut: u64)
    requires CanAccount(w, e, amountIn, fee, amountOut)
    ensures IsDomain(w, e.domain.key) && IsFeeLedger(w, e.feeLedger.key)
    ensures DomainAt(w, e.domain.key).accountedA + amountIn <= U64_MAX
    ensures amountOut <= DomainAt(w, e.domain.key).accountedB
    ensures FeeLedgerAt(w, e.feeLedger.key).accountedFeeA + fee <= U64_MAX
  {
  }

  /** The instruction as the runtime commits it: a failing instruction restores the accounts. */
  method Execute(bank: Bank, ix: ExecuteIx, slot: u64, primary: EngineOutcome, commit: EngineOutcome)
    returns (r: Result<(u64, u64), CoreError>)
    requires Inv(bank.accounts)
    modifies bank
    ensures match ExecuteSpec(old(bank.accounts), ix, slot, primary, commit)
            case Ok(x) => r == Ok((x.fee, x.amountOut)) && bank.accounts == x.store
            case Err(e) => r == Err(e) && bank.accounts == old(bank.accounts)
    ensures r.Err? ==> !Failures.Redundant(r.error)
  {
    hide Inv, ExecuteSpec, Failures.Redundant;
    var before := bank.accounts;
    r := HandleExecute(bank, ix, slot, primary, commit);
    if r.Err? {
      bank.accounts := before;
    }
  }

  // ---- Initialize ----

  /** `handle_initialize_market_domain_v0`: every check, then six fresh accounts. */
  method Initialize(bank: Bank, ix: InitializeIx) returns (r: Result<(), CoreError>)
    modifies bank
    ensures match InitializeSpec(old(bank.accounts), ix)
            case Ok(w) => r == Ok(()) && bank.accounts == w
            case Err(e) => r == Err(e) && bank.accounts == old(bank.accounts)
  {
    hide NoDuplicates, InitializeKeys;
    :- Need(InitializeConstrained(bank.accounts, ix), AccountConstraint);
    :- Need(ix.remaining == 0, UnexpectedRemainingAccounts);
    DistinctInitialize(ix);
    var _ :- EnsureDistinctRoles(InitializeKeys(ix));
    if ix.mintA.key == ix.mintB.key {
      return Err(IdenticalMints);
    }
    :- Need(ix.engineRevision != 0, InvalidEngineRevision);
    var _ :- ClassicMintVerdict(bank.accounts, ix.mintA.key);
    var _ :- ClassicMintVerdict(bank.accounts, ix.mintB.key);
    :- Need(Executable(bank.accounts, ix.engineProgram.key), EngineProgramNotExecutable);
    :- Need(!ix.engineProgram.isWritable, UnexpectedWritablePrivilege);
    if ix.engineProgram.key == CORE {
      return Err(CoreCannotBeEngine);
    }
    :- Need(!Executable(bank.accounts, ix.engineState.key), EngineStateExecutable);
    :- Need(OwnerOf(bank.accounts, ix.engineState.key) == ix.engineProgram.key, InvalidEngineStateOwner);
    :- Need(!ix.mintA.isWritable && !ix.mintB.isWritable && !ix.tokenProgram.isWritable && !ix.systemProgram.isWritable,
            UnexpectedWritablePrivilege);
    bank.accounts := bank.accounts[ix.market.key := Account(CORE, false, MarketData(Market(
      EXPERIMENT_VERSION, ix.initializer.key, ix.marketId, ix.engineProgram.key, ix.engineState.key, ix.engineRevision,
      ix.mintA.key, ix.mintB.key, PROTOCOL_FEE_BPS, FEE_POLICY_REVISION)))];
    bank.accounts := bank.accounts[ix.domain.key := DomainEntry(Domain(
      EXPERIMENT_VERSION, ix.market.key, ix.engineProgram.key, ix.engineState.key, ix.engineRevision, 0, 0))];
    bank.accounts :=
      bank.accounts[ix.feeLedger.key := FeeLedgerEntry(FeeLedger(EXPERIMENT_VERSION, ix.market.key, ix.mintA.key, 0))];
    bank.accounts := bank.accounts[ix.vaultA.key := EmptyVault(ix.mintA.key, ix.domain.key)];
    bank.accounts := bank.accounts[ix.vaultB.key := EmptyVault(ix.mintB.key, ix.domain.key)];
    bank.accounts := bank.accounts[ix.feeVault.key := EmptyVault(ix.mintA.key, ix.feeLedger.key)];
    return Ok(());
  }

  lemma DistinctInitialize(ix: InitializeIx)
    ensures NoDuplicates(InitializeKeys(ix)) ==> ix.mintA.key != ix.mintB.key && ix.engineProgram.key != CORE
  {
    var keys := InitializeKeys(ix);
    assert keys[4] == ix.mintA.key && keys[5] == ix.mintB.key && keys[9] == ix.engineProgram.key && keys[13] == CORE;
  }

  // ---- Deposit ----

  /** Everything the deposit handler checks before it moves tokens. It changes nothing. */
  method CheckDeposit(w: Store, ix: DepositIx) returns (r: Result<(), CoreError>)
    requires Inv(w)
    ensures r == DepositVerdict(w, ix)
  {
    hide Inv, NoDuplicates, DepositKeys;
    :- Need(DepositConstrained(w, ix), AccountConstraint);
    :- Need(ix.remaining == 0, UnexpectedRemainingAccounts);
    :- Need(ix.amount > 0, CoreError.ZeroAmount);
    var _ :- EnsureDistinctRoles(DepositKeys(ix));
    var market, domain := MarketAt(w, ix.market.key), DomainAt(w, ix.domain.key);
    RecordsHold(w, ix);
    var records := ValidateMarketDomain(ix.market.key, market, ix.domain.key, domain);
    if records.Err? {
      return records;
    }
    var _ :- ClassicMintVerdict(w, ix.mint.key);
    :- Need(!ix.market.isWritable && !ix.mint.isWritable && !ix.tokenProgram.isWritable, UnexpectedWritablePrivilege);
    :- Need(ix.assetIndex == ASSET_A || ix.assetIndex == ASSET_B, UnsupportedAssetIndex);
    var expectedMint := if ix.assetIndex == ASSET_A then market.mintA else market.mintB;
    :- Need(ix.mint.key == expectedMint, InvalidTokenMint);
    :- Need(ix.vault.key == VaultPda(ix.domain.key, ix.assetIndex), InvalidDomainVault);
    SourceHolds(w, ix.source.key);
    var _ :- ValidateProtectedTokenAccount(TokenAt(w, ix.source.key), expectedMint, ix.provider.key);
    assert DepositVerdict(w, ix).Ok?;
    DepositChecksReduce(w, ix);
    var vault := ValidateProtectedTokenAccount(TokenAt(w, ix.vault.key), expectedMint, ix.domain.key);
    if vault.Err? {
      return vault;
    }
    var covered := RequireRawCoversAccounted(TokenAt(w, ix.vault.key).amount, AccountedOf(domain, ix.assetIndex));
    if covered.Err? {
      return covered;
    }
    return Ok(());
  }

  lemma RecordsHold(w: Store, ix: DepositIx)
    requires Inv(w) && DepositConstrained(w, ix)
    ensures ValidateMarketDomain(ix.market.key, MarketAt(w, ix.market.key), ix.domain.key,
                                 DomainAt(w, ix.domain.key)).Ok?
  {
    assert MarketOk(w, ix.market.key);
  }

  lemma SourceHolds(w: Store, k: Key)
    requires Inv(w) && IsToken(w, k)
    ensures TokenAt(w, k).delegate == None ==> TokenAt(w, k).delegatedAmount == 0
  {
    assert TokenOk(w, k);
  }

  /** `handle_deposit_v0`: transfer, reload, exact deltas, then the accounting. */
  method Deposit(bank: Bank, ix: DepositIx) returns (r: Result<(), CoreError>)
    requires Inv(bank.accounts)
    modifies bank
    ensures match DepositSpec(old(bank.accounts), ix)
            case Ok(w) => r == Ok(()) && bank.accounts == w
            case Err(e) => r == Err(e) && bank.accounts == old(bank.accounts)
  {
    hide Inv, DepositVerdict, WithAccounted;
    var before := bank.accounts;
    var _ :- CheckDeposit(before, ix);
    DepositRoles(before, ix);
    var domain := DomainAt(before, ix.domain.key);
    var source, vault := TokenAt(before, ix.source.key), TokenAt(before, ix.vault.key);
    var accounted :- Add64(AccountedOf(domain, ix.assetIndex), ix.amount, CoreError.ArithmeticOverflow);
    var moved := bank.TransferChecked(ix.source.key, ix.mint.key, ix.vault.key, ix.provider.key, ix.amount);
    if moved.Err? {
      return Err(TokenProgramFailed(moved.error));
    }
    var sourceAfter, vaultAfter := TokenAt(bank.accounts, ix.source.key), TokenAt(bank.accounts, ix.vault.key);
    if ExactDebit(source.amount, sourceAfter.amount, ix.amount, UnexpectedSourceDebit).Err? {
      return Err(UnexpectedSourceDebit);
    }
    if ExactCredit(vault.amount, vaultAfter.amount, ix.amount, UnexpectedVaultCredit).Err? {
      return Err(UnexpectedVaultCredit);
    }
    domain := WithAccounted(domain, ix.assetIndex, accounted);
    bank.accounts := bank.accounts[ix.domain.key := DomainEntry(domain)];
    return Ok(());
  }

  // ---- Authorize ----

  /** `handle_authorize_spend_v0`: approve, reload, and recheck what the token program recorded. */
  method AuthorizeSpend(bank: Bank, ix: AuthorizeIx, slot: u64) returns (r: Result<(), CoreError>)
    requires Inv(bank.accounts)
    modifies bank
    ensures match AuthorizeSpec(old(bank.accounts), ix, slot)
            case Ok(w) => r == Ok(()) && bank.accounts == w
            case Err(e) => r == Err(e) && bank.accounts == old(bank.accounts)
  {
    hide Inv, AuthorizeVerdict;
    var before := bank.accounts;
    var debit :- CheckAuthorize(before, ix, slot);
    AuthorizeFacts(before, ix, slot);
    var spendAuthority := SpendPda(ix.source.key, IntentDigest(ix.binding.value));
    var approved := bank.ApproveChecked(ix.source.key, ix.mint.key, spendAuthority, ix.user.key, debit);
    if approved.Err? {
      return Err(TokenProgramFailed(ErrorOf(approved, InvalidState)));
    }
    var after := TokenAt(bank.accounts, ix.source.key);
    if after.amount != TokenAt(before, ix.source.key).amount {
      return Err(SourceBalanceChangedDuringAuthorization);
    }
    if after.delegate != Some(spendAuthority) {
      return Err(InvalidSpendAuthority);
    }
    if after.delegatedAmount != debit {
      return Err(DelegatedAmountMismatch);
    }
    return Ok(());
  }

  /** Everything the authorize handler checks before it approves: the exact debit, or the first failure. */
  method CheckAuthorize(w: Store, ix: AuthorizeIx, slot: u64) returns (r: Result<u64, CoreError>)
    requires Inv(w)
    ensures r == AuthorizeVerdict(w, ix, slot)
  {
    hide Inv, NoDuplicates, AuthorizeKeys;
    :- Need(AuthorizeConstrained(w, ix), AccountConstraint);
    :- Need(ix.topLevel, DirectInvocationRequired);
    :- Need(ix.remaining == 0, UnexpectedRemainingAccounts);
    :- Need(ix.binding.Some? && KnownTiming(ix.binding.value.timingMode), InvalidWireEncoding);
    var b := ix.binding.value;
    :- Need(b.coreProgram == CORE, IntentCoreProgramMismatch);
    :- Need(b.amountIn > 0, CoreError.ZeroAmount);
    :- Need(b.protocolFee <= b.maxProtocolFee, ProtocolFeeAboveUserMaximum);
    var debit :- Add64(b.amountIn, b.protocolFee, CoreError.ArithmeticOverflow);
    :- Need(debit <= b.maxTotalInputDebit, TotalDebitAboveUserMaximum);
    :- Need(slot <= b.expiresAtSlot, RequestExpired);
    var _ :- EnsureDistinctRoles(AuthorizeKeys(ix));
    :- Need(b.userAuthority == ix.user.key, IntentUserAuthorityMismatch);
    :- Need(b.userInput == ix.source.key, IntentUserInputMismatch);
    :- Need(b.mintIn == ix.mint.key, IntentInputMintMismatch);
    :- Need(b.tokenProgram == ix.tokenProgram.key, IntentTokenProgramMismatch);
    :- Need(!ix.mint.isWritable && !ix.spendAuthority.isWritable
            && !ix.tokenProgram.isWritable, UnexpectedWritablePrivilege);
    :- Need(!ix.source.isSigner && !ix.mint.isSigner && !ix.spendAuthority.isSigner && !ix.tokenProgram.isSigner,
            UnexpectedSignerPrivilege);
    :- Need(!Executable(w, ix.spendAuthority.key), InvalidSpendAuthority);
    :- Need(ix.spendAuthority.key == SpendPda(ix.source.key, IntentDigest(b)), InvalidSpendAuthority);
    var _ :- ClassicMintVerdict(w, ix.mint.key);
    var source := TokenAt(w, ix.source.key);
    SourceHolds(w, ix.source.key);
    var _ :- ValidateUserSourceBeforeAuthorization(source, ix.mint.key, ix.user.key);
    :- Need(source.amount >= debit, InsufficientUserSourceBalance);
    return Ok(debit);
  }
}
