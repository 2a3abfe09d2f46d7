/** The execute instruction as one function of the store, and what a successful execution changes. */
module ExecuteInstruction {
  import opened Base
  import opened Bindings
  import opened Keys
  import opened Ledger
  import opened Errors
  import opened Capabilities
  import opened Runtime
  import opened Core
  import opened Frames

  datatype Executed = Executed(store: Store, fee: u64, amountOut: u64)

  /** COMMIT when the timing asks for it, over the settled balances. */
  function Closing(w: Store, settled: Store, ix: ExecuteIx, adm: Admission, receipt: Receipt, outcome: EngineOutcome)
    : Result<Store, CoreError>
    requires Constrained(w, ix.e) && |ix.args.opaquePayload| <= MAX_OPAQUE_PAYLOAD_LEN
    requires |ix.closure| <= MAX_OPAQUE_ACCOUNTS
    requires CanAccount(w, ix.e, ix.args.amountIn, adm.fee, receipt.amountOut)
    requires IsToken(settled, ix.e.source.key) && IsToken(settled, ix.e.destination.key)
    requires IsToken(settled, ix.e.vaultA.key) && IsToken(settled, ix.e.vaultB.key)
    requires IsToken(settled, ix.e.feeVault.key)
  {
    hide Phase, RequestFor;
    if ix.args.timingMode != TIMING_PREPARE_COMMIT then Ok(settled) else
    var request := RequestFor(w, ix, adm, adm.phase, ZERO, ix.args.expectedEngineSequence);
    Commit(w, settled, ix, adm, receipt, SettlementDigest(w, settled, ix, adm, receipt, request), outcome)
  }

  /** The primary phase leaves the balances that admission saw, and settlement is possible from there. */
  lemma PrimaryFacts(w: Store, ix: ExecuteIx, adm: Admission, outcome: EngineOutcome)
    requires Inv(w) && Admitted(w, ix, adm) && Primary(w, ix, adm, outcome).Ok?
    ensures var (w1, receipt) := Primary(w, ix, adm, outcome).value;
            && Guarded(w, w1, ix.e, ix.closure) && (adm.phase == PHASE_PREPARE ==> w1 == w)
            && 0 < receipt.amountOut <= DomainAt(w, ix.e.domain.key).accountedB
            && ix.args.minOutputCredit <= receipt.amountOut
            && CanAccount(w, ix.e, ix.args.amountIn, adm.fee, receipt.amountOut)
            && CanSettle(w, ix.e, ix.args.amountIn, adm.fee, receipt.amountOut)
            && CanSettle(w1, ix.e, ix.args.amountIn, adm.fee, receipt.amountOut)
  {
    hide Phase, Admitted, SequenceVerdict, Guarded, MarketOk, SupplyOk, TokenOk, CanAccount;
    AdmittedShape(w, ix, adm);
    var request := RequestFor(w, ix, adm, adm.phase, ZERO, ix.args.expectedEngineSequence);
    var (w1, receipt) := Primary(w, ix, adm, outcome).value;
    EngineFrame(w, w, ix, adm, request, outcome);
    SettlementFits(w, ix, adm, receipt.amountOut);
    GuardedTokens(w, w1, ix.e, ix.closure);
  }

  lemma AdmittedShape(w: Store, ix: ExecuteIx, adm: Admission)
    requires Admitted(w, ix, adm)
    ensures Constrained(w, ix.e) && |ix.args.opaquePayload| <= MAX_OPAQUE_PAYLOAD_LEN
    ensures |ix.closure| <= MAX_OPAQUE_ACCOUNTS
  {
  }

  lemma GuardedTokens(w: Store, w': Store, e: Envelope, closure: seq<AccountMeta>)
    requires Guarded(w, w', e, closure)
    ensures forall k :: IsToken(w, k) ==> SameAt(w, w', k)
  {
    hide SameAt, WithinReach;
    forall k | IsToken(w, k) ensures SameAt(w, w', k) {
      assert SameAt(w, w', k) || WithinReach(w, w', e, closure, k);
      NotOwned(w, w', e, closure, k);
    }
  }

  lemma NotOwned(w: Store, w': Store, e: Envelope, closure: seq<AccountMeta>, k: Key)
    ensures WithinReach(w, w', e, closure, k) ==> OwnerOf(w, k) != CORE && OwnerOf(w, k) != TOKEN_PROGRAM
  {
  }

  /**
   * One execution. The primary and commit outcomes are whatever the engine chooses to do in its two
   * calls; every check that the invariant makes redundant is absent.
   */
  ghost function ExecuteSpec(w: Store, ix: ExecuteIx, slot: u64, primary: EngineOutcome, commit: EngineOutcome)
    : Result<Executed, CoreError>
    requires Inv(w)
  {
    hide Admit, Primary, Closing, Inv, Admitted, CanSettle, CanAccount, Guarded, Constrained, Settled, Accounted;
    var adm :- Admit(w, ix, slot);
    AdmissionFacts(w, ix, slot);
    AdmittedShape(w, ix, adm);
    var first :- Primary(w, ix, adm, primary);
    PrimaryFacts(w, ix, adm, primary);
    var settled := Settled(first.0, ix.e, ix.args.amountIn, adm.fee, first.1.amountOut);
    SettledTokens(first.0, ix.e, ix.args.amountIn, adm.fee, first.1.amountOut);
    var final :- Closing(w, settled, ix, adm, first.1, commit);
    Ok(Executed(Accounted(w, final, ix.e, ix.args.amountIn, adm.fee, first.1.amountOut), adm.fee, first.1.amountOut))
  }

  lemma SettledTokens(w: Store, e: Envelope, amountIn: u64, fee: u64, amountOut: u64)
    requires CanSettle(w, e, amountIn, fee, amountOut)
    ensures var s := Settled(w, e, amountIn, fee, amountOut);
            && IsToken(s, e.source.key) && IsToken(s, e.destination.key)
            && IsToken(s, e.vaultA.key) && IsToken(s, e.vaultB.key) && IsToken(s, e.feeVault.key)
  {
  }

  // ---- What a successful execution changes ----

  /** The store settlement and accounting alone would leave, had the engine written nothing. */
  function Predicted(w: Store, ix: ExecuteIx, fee: u64, amountOut: u64): Store
    requires CanSettle(w, ix.e, ix.args.amountIn, fee, amountOut)
    requires CanAccount(w, ix.e, ix.args.amountIn, fee, amountOut)
  {
    Accounted(w, Settled(w, ix.e, ix.args.amountIn, fee, amountOut), ix.e, ix.args.amountIn, fee, amountOut)
  }

  /** Writing the same entries over both sides of an engine call keeps the engine within reach. */
  lemma GuardedUnderUpdates(w: Store, w1: Store, v: Store, v1: Store, e: Envelope, closure: seq<AccountMeta>,
                            written: set<Key>)
    requires Guarded(w, w1, e, closure)
    requires forall k :: k in written ==> SameAt(v, v1, k)
    requires forall k :: k !in written ==> SameAt(w, v, k) && SameAt(w1, v1, k)
    requires forall k :: IsMint(w, k) ==> IsMint(v, k)
    ensures Guarded(v, v1, e, closure)
  {
    hide EnvelopeKeys;
    forall k ensures SameAt(v, v1, k) || WithinReach(v, v1, e, closure, k) {
      assert SameAt(w, w1, k) || WithinReach(w, w1, e, closure, k);
      if k !in written {
        assert SameAt(w, v, k) && SameAt(w1, v1, k);
      }
    }
  }

  function SettlementKeys(e: Envelope): set<Key> {
    {e.source.key, e.destination.key, e.vaultA.key, e.vaultB.key, e.feeVault.key}
  }

  /** Settling on either side of an engine call comes to the same. */
  lemma SettlementCommutes(w: Store, w1: Store, e: Envelope, closure: seq<AccountMeta>, amountIn: u64, fee: u64,
                           amountOut: u64)
    requires Guarded(w, w1, e, closure)
    requires CanSettle(w, e, amountIn, fee, amountOut) && CanSettle(w1, e, amountIn, fee, amountOut)
    ensures Guarded(Settled(w, e, amountIn, fee, amountOut), Settled(w1, e, amountIn, fee, amountOut), e, closure)
  {
    hide Guarded, WithinReach;
    GuardedTokens(w, w1, e, closure);
    var v, v1 := Settled(w, e, amountIn, fee, amountOut), Settled(w1, e, amountIn, fee, amountOut);
    forall k | k in SettlementKeys(e) ensures SameAt(v, v1, k) {
      assert SameAt(w, w1, k);
    }
    GuardedUnderUpdates(w, w1, v, v1, e, closure, SettlementKeys(e));
  }

  lemma AccountingCommutes(c: Store, w: Store, w1: Store, e: Envelope, closure: seq<AccountMeta>, amountIn: u64,
                           fee: u64, amountOut: u64)
    requires Guarded(w, w1, e, closure) && CanAccount(c, e, amountIn, fee, amountOut)
    requires !IsMint(w, e.domain.key) && !IsMint(w, e.feeLedger.key)
    ensures Guarded(Accounted(c, w, e, amountIn, fee, amountOut), Accounted(c, w1, e, amountIn, fee, amountOut), e,
                    closure)
  {
    hide Guarded, CanAccount;
    var v, v1 := Accounted(c, w, e, amountIn, fee, amountOut), Accounted(c, w1, e, amountIn, fee, amountOut);
    assert SameAt(v, v1, e.domain.key) && SameAt(v, v1, e.feeLedger.key);
    GuardedUnderUpdates(w, w1, v, v1, e, closure, {e.domain.key, e.feeLedger.key});
  }

  /**
   * Success changes the predicted accounts to the predicted values, and otherwise only what lies
   * within the engine's reach. PREPARE/COMMIT and TRANSITION differ in nothing else.
   */
  lemma ExecutionEffect(w: Store, ix: ExecuteIx, slot: u64, primary: EngineOutcome, commit: EngineOutcome)
    requires Inv(w) && ExecuteSpec(w, ix, slot, primary, commit).Ok?
    ensures Admit(w, ix, slot).Ok? && Admitted(w, ix, Admit(w, ix, slot).value)
    ensures var x := ExecuteSpec(w, ix, slot, primary, commit).value;
            && x.fee == Admit(w, ix, slot).value.fee
            && 0 < x.amountOut <= DomainAt(w, ix.e.domain.key).accountedB && ix.args.minOutputCredit <= x.amountOut
            && CanSettle(w, ix.e, ix.args.amountIn, x.fee, x.amountOut)
            && CanAccount(w, ix.e, ix.args.amountIn, x.fee, x.amountOut)
            && Guarded(Predicted(w, ix, x.fee, x.amountOut), x.store, ix.e, ix.closure)
  {
    hide Admit, Primary, Closing, Inv, Admitted, CanSettle, CanAccount, Guarded, Constrained, Settled, Accounted;
    var adm := Admit(w, ix, slot).value;
    var e, amountIn := ix.e, ix.args.amountIn;
    AdmissionFacts(w, ix, slot);
    AdmittedShape(w, ix, adm);
    PrimaryFacts(w, ix, adm, primary);
    var (w1, receipt) := Primary(w, ix, adm, primary).value;
    var settled := Settled(w1, e, amountIn, adm.fee, receipt.amountOut);
    SettledTokens(w1, e, amountIn, adm.fee, receipt.amountOut);
    var final := Closing(w, settled, ix, adm, receipt, commit).value;
    SettlementCommutes(w, w1, e, ix.closure, amountIn, adm.fee, receipt.amountOut);
    var base := Settled(w, e, amountIn, adm.fee, receipt.amountOut);
    ClosingEffect(w, w1, ix, adm, receipt, commit);
    CoreKeysAreNoMints(w, e, amountIn, adm.fee, receipt.amountOut);
    AccountingCommutes(w, base, final, e, ix.closure, amountIn, adm.fee, receipt.amountOut);
  }

  lemma ExecutesAdmitted(w: Store, ix: ExecuteIx, slot: u64, primary: EngineOutcome, commit: EngineOutcome)
    requires Inv(w)
    ensures ExecuteSpec(w, ix, slot, primary, commit).Ok? ==> Admit(w, ix, slot).Ok?
  {
    hide Inv, Admit, ExecuteSpec;
    if ExecuteSpec(w, ix, slot, primary, commit).Ok? {
      ExecutionEffect(w, ix, slot, primary, commit);
    }
  }

  lemma CoreKeysAreNoMints(w: Store, e: Envelope, amountIn: u64, fee: u64, amountOut: u64)
    requires CanSettle(w, e, amountIn, fee, amountOut) && CanAccount(w, e, amountIn, fee, amountOut)
    ensures var s := Settled(w, e, amountIn, fee, amountOut);
            !IsMint(s, e.domain.key) && !IsMint(s, e.feeLedger.key)
  {
  }

  /** The engine is called to effect once: in TRANSITION, or in COMMIT after a PREPARE that changed nothing. */
  lemma ClosingEffect(w: Store, w1: Store, ix: ExecuteIx, adm: Admission, receipt: Receipt, outcome: EngineOutcome)
    requires Inv(w) && Admitted(w, ix, adm) && Guarded(w, w1, ix.e, ix.closure)
    requires adm.phase == PHASE_PREPARE ==> w1 == w
    requires Constrained(w, ix.e) && |ix.args.opaquePayload| <= MAX_OPAQUE_PAYLOAD_LEN
    requires |ix.closure| <= MAX_OPAQUE_ACCOUNTS
    requires CanSettle(w, ix.e, ix.args.amountIn, adm.fee, receipt.amountOut)
    requires CanSettle(w1, ix.e, ix.args.amountIn, adm.fee, receipt.amountOut)
    requires CanAccount(w, ix.e, ix.args.amountIn, adm.fee, receipt.amountOut)
    requires var s := Settled(w1, ix.e, ix.args.amountIn, adm.fee, receipt.amountOut);
             && IsToken(s, ix.e.source.key) && IsToken(s, ix.e.destination.key)
             && IsToken(s, ix.e.vaultA.key) && IsToken(s, ix.e.vaultB.key) && IsToken(s, ix.e.feeVault.key)
             && Closing(w, s, ix, adm, receipt, outcome).Ok?
    ensures var s := Settled(w1, ix.e, ix.args.amountIn, adm.fee, receipt.amountOut);
            Guarded(Settled(w, ix.e, ix.args.amountIn, adm.fee, receipt.amountOut),
                    Closing(w, s, ix, adm, receipt, outcome).value, ix.e, ix.closure)
  {
    hide Phase, CanSettle, CanAccount, Guarded, Constrained, Settled, Admitted, Inv, RequestFor, SettlementDigest;
    var s := Settled(w1, ix.e, ix.args.amountIn, adm.fee, receipt.amountOut);
    AdmittedTiming(w, ix, adm);
    if ix.args.timingMode == TIMING_PREPARE_COMMIT {
      var request := RequestFor(w, ix, adm, adm.phase, ZERO, ix.args.expectedEngineSequence);
      var context := SettlementDigest(w, s, ix, adm, receipt, request);
      SettledOwners(w, ix.e, ix.args.amountIn, adm.fee, receipt.amountOut);
      RequestPhase(w, ix, adm, PHASE_COMMIT, context, receipt.stateSequence);
      EngineFrame(w, s, ix, adm, RequestFor(w, ix, adm, PHASE_COMMIT, context, receipt.stateSequence), outcome);
    } else {
      SettlementCommutes(w, w1, ix.e, ix.closure, ix.args.amountIn, adm.fee, receipt.amountOut);
    }
  }

  lemma AdmittedTiming(w: Store, ix: ExecuteIx, adm: Admission)
    requires Admitted(w, ix, adm)
    ensures ix.args.timingMode == TIMING_PREPARE_COMMIT <==> adm.phase == PHASE_PREPARE
    ensures KnownTiming(ix.args.timingMode)
  {
  }

  lemma RequestPhase(w: Store, ix: ExecuteIx, adm: Admission, phase: byte, context: Digest, preSequence: u64)
    requires Constrained(w, ix.e) && |ix.args.opaquePayload| <= MAX_OPAQUE_PAYLOAD_LEN
    requires |ix.closure| <= MAX_OPAQUE_ACCOUNTS
    ensures RequestFor(w, ix, adm, phase, context, preSequence).binding.phase == phase
  {
  }

  lemma SettledOwners(w: Store, e: Envelope, amountIn: u64, fee: u64, amountOut: u64)
    requires Inv(w) && CanSettle(w, e, amountIn, fee, amountOut)
    ensures var s := Settled(w, e, amountIn, fee, amountOut);
            NoProgramData(s) && forall k :: OwnerOf(s, k) == OwnerOf(w, k)
  {
    hide MarketOk, SupplyOk, TokenOk;
    var s := Settled(w, e, amountIn, fee, amountOut);
    forall k | k in s ensures Placed(k, s[k]) {
      assert k in w && Placed(k, w[k]);
    }
  }

  // ---- The footprint of a successful execution ----

  /** The accounts that settlement, accounting and the engine's own step may write. */
  predicate Writes(e: Envelope, k: Key) {
    k in SettlementKeys(e) || k == e.domain.key || k == e.feeLedger.key || k == e.engineState.key
  }

  /**
   * Whatever the engine does, a successful execution changes no account outside its own account list:
   * only the five balances, the two records, the engine state, and closure accounts the caller lent
   * writable. Every other envelope role, and every account not in the transaction, is as it was.
   */
  lemma ExecutionFootprint(w: Store, ix: ExecuteIx, slot: u64, primary: EngineOutcome, commit: EngineOutcome, k: Key)
    requires Inv(w) && ExecuteSpec(w, ix, slot, primary, commit).Ok?
    requires !SameAt(w, ExecuteSpec(w, ix, slot, primary, commit).value.store, k)
    ensures Writes(ix.e, k) || (WritableIn(ix.closure, k) && k !in EnvelopeKeys(ix.e))
  {
    hide ExecuteSpec, Inv, Admit, Admitted, CanSettle, CanAccount, Guarded, Predicted, EnvelopeKeys;
    ExecutionEffect(w, ix, slot, primary, commit);
    var x := ExecuteSpec(w, ix, slot, primary, commit).value;
    var v := Predicted(w, ix, x.fee, x.amountOut);
    if !Writes(ix.e, k) {
      PredictedElsewhere(w, ix, x.fee, x.amountOut, k);
      GuardedAt(v, x.store, ix.e, ix.closure, k);
    }
  }

  lemma PredictedElsewhere(w: Store, ix: ExecuteIx, fee: u64, amountOut: u64, k: Key)
    requires CanSettle(w, ix.e, ix.args.amountIn, fee, amountOut)
    requires CanAccount(w, ix.e, ix.args.amountIn, fee, amountOut)
    requires !Writes(ix.e, k)
    ensures SameAt(w, Predicted(w, ix, fee, amountOut), k)
  {
  }

  lemma GuardedAt(v: Store, w': Store, e: Envelope, closure: seq<AccountMeta>, k: Key)
    requires Guarded(v, w', e, closure)
    ensures SameAt(v, w', k) || WithinReach(v, w', e, closure, k)
  {
  }
}
