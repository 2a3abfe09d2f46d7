/**
 * What an untrusted engine call leaves alone, and why settlement after it cannot fail: balances
 * cached before the call are still true, and the sums they enter fit their machine words.
 */
module Frames {
  import opened Base
  import opened Bindings
  import opened Keys
  import opened Ledger
  import opened Capabilities
  import opened PlanEngine
  import opened Runtime
  import opened Core

  /** What admission has established, in the terms the rest of the proof uses. */
  ghost predicate Admitted(w: Store, ix: ExecuteIx, adm: Admission) {
    var e, args := ix.e, ix.args;
    && Constrained(w, e) && MarketOk(w, e.market.key) && NoDuplicates(EnvelopeKeys(e))
    && Executable(w, e.engineProgram.key) && !Executable(w, e.engineState.key)
    && |args.opaquePayload| <= MAX_OPAQUE_PAYLOAD_LEN && |ix.closure| <= MAX_OPAQUE_ACCOUNTS
    && KnownTiming(args.timingMode) && PrimaryPhase(args.timingMode) == Ok(adm.phase)
    && args.amountIn > 0 && adm.fee == FeeOf(args.amountIn) && adm.total == args.amountIn + adm.fee
    && adm.total <= TokenAt(w, e.source.key).amount
    && OpaqueDescriptors(Loaded(w, ix.closure), EnvelopeKeys(e)) == Ok(adm.opaques)
    && adm.authorized == PhaseDescriptors(e.engineState.key, e.engineProgram.key, adm.opaques, true)
    && CapabilityHash(e.engineProgram.key, adm.authorized) == args.expectedCapabilityHash
    && adm.intent == RebuiltIntent(w, ix, adm.fee, args.expectedCapabilityHash)
    && e.spendAuthority.key == SpendPda(e.source.key, IntentDigest(adm.intent))
    && TokenAt(w, e.source.key).delegate == Some(e.spendAuthority.key)
    && TokenAt(w, e.source.key).delegatedAmount == adm.total
    && e.primaryCallback.key == CallbackFor(e, adm.intent, adm.phase)
    && e.commitCallback.key == CallbackFor(e, adm.intent, PHASE_COMMIT)
  }

  lemma AdmissionFacts(w: Store, ix: ExecuteIx, slot: u64)
    requires Inv(w) && Admit(w, ix, slot).Ok?
    ensures Admitted(w, ix, Admit(w, ix, slot).value)
    ensures TokenAt(w, ix.e.source.key).closeAuthority == None
    ensures ix.args.minOutputCredit <= DomainAt(w, ix.e.domain.key).accountedB
    ensures slot <= ix.args.expiresAtSlot
    ensures Admit(w, ix, slot).value.fee <= ix.args.maxProtocolFee
    ensures Admit(w, ix, slot).value.total <= ix.args.maxTotalInputDebit
  {
    hide OpaqueDescriptors, Loaded, PhaseDescriptors, MarketOk, FeeOf, RebuiltIntent, CallbackFor, CapabilityHash,
         NoDuplicates, EnvelopeKeys, UnexpectedlyWritable, UnexpectedlySigned;
    assert MarketOk(w, ix.e.market.key);
    OpaqueCount(w, ix.closure, EnvelopeKeys(ix.e));
  }

  lemma OpaqueCount(w: Store, closure: seq<AccountMeta>, fixedKeys: seq<Key>)
    ensures OpaqueDescriptors(Loaded(w, closure), fixedKeys).Ok? ==> |closure| <= MAX_OPAQUE_ACCOUNTS
  {
    if OpaqueDescriptors(Loaded(w, closure), fixedKeys).Ok? {
      AcceptedClosure(w, closure, fixedKeys);
    }
  }

  /** The account list of a phase's call, position by position. */
  lemma CallLayout(e: Envelope, adm: Admission, request: Request)
    ensures var call, phase := CallFor(e, adm, request), request.binding.phase;
            && call.state == AccountMeta(e.engineState.key, false, phase != PHASE_PREPARE)
            && call.callback == AccountMeta(CallbackFor(e, adm.intent, phase), true, false)
            && |call.closure| == |adm.opaques|
            && (forall i :: 0 <= i < |call.closure| ==>
                  call.closure[i]
                  == AccountMeta(adm.opaques[i].key, false, phase != PHASE_PREPARE && adm.opaques[i].isWritable))
            && CallMetas(call) == PhaseMetas(e.engineState.key, CallbackFor(e, adm.intent, phase),
                 PhaseDescriptors(e.engineState.key, e.engineProgram.key, adm.opaques,
                                  phase != PHASE_PREPARE)[1..], phase != PHASE_PREPARE)
  {
    var phase := request.binding.phase;
    var ds := PhaseDescriptors(e.engineState.key, e.engineProgram.key, adm.opaques, phase != PHASE_PREPARE);
    assert forall i :: 0 <= i < |adm.opaques| ==> ds[1..][i] == ds[i + 1];
  }

  /** A closure account lent writable is one the transaction lists as writable, and no protected one. */
  lemma LentFromClosure(w: Store, ix: ExecuteIx, adm: Admission, i: nat)
    requires Admitted(w, ix, adm) && i < |adm.opaques| && adm.opaques[i].isWritable
    ensures WritableIn(ix.closure, adm.opaques[i].key) && adm.opaques[i].key !in EnvelopeKeys(ix.e)
    ensures OwnerOf(w, adm.opaques[i].key) != CORE && OwnerOf(w, adm.opaques[i].key) != TOKEN_PROGRAM
  {
    hide EnvelopeKeys, OpaqueDescriptors, Constrained, MarketOk, NoDuplicates, RebuiltIntent, PhaseDescriptors, Loaded,
         CapabilityHash, IntentDigest, WritableIn;
    AcceptedClosure(w, ix.closure, EnvelopeKeys(ix.e));
  }

  /** The engine sees one signer, its own phase's callback, and may write its state and the vetted closure only. */
  lemma LentAccounts(w: Store, ix: ExecuteIx, adm: Admission, request: Request)
    requires Admitted(w, ix, adm)
    ensures SignedBy(ix.e.engineProgram.key, CallFor(ix.e, adm, request))
    ensures CallFor(ix.e, adm, request).state.key == ix.e.engineState.key
    ensures forall k :: WritableIn(CallMetas(CallFor(ix.e, adm, request)), k) ==>
              && request.binding.phase != PHASE_PREPARE
              && (k == ix.e.engineState.key
                  || (&& WritableIn(ix.closure, k) && k !in EnvelopeKeys(ix.e)
                      && OwnerOf(w, k) != CORE && OwnerOf(w, k) != TOKEN_PROGRAM))
  {
    hide Admitted, EnvelopeKeys, CallFor, PhaseMetas, PhaseDescriptors, IntentDigest;
    var e := ix.e;
    CallLayout(e, adm, request);
    var call := CallFor(e, adm, request);
    var metas := CallMetas(call);
    forall i | 2 <= i < |metas| ensures metas[i] == call.closure[i - 2] {
    }
    forall k | WritableIn(metas, k)
      ensures request.binding.phase != PHASE_PREPARE
      ensures || k == e.engineState.key
              || (&& WritableIn(ix.closure, k) && k !in EnvelopeKeys(e)
                  && OwnerOf(w, k) != CORE && OwnerOf(w, k) != TOKEN_PROGRAM)
    {
      var i :| 0 <= i < |metas| && metas[i].key == k && metas[i].isWritable;
      if i >= 2 {
        LentFromClosure(w, ix, adm, i - 2);
      }
    }
  }

  /**
   * The engine's whole reach: its own state and the closure accounts it was lent writable, no other
   * fixed account, nothing the settlement program or the token program owns.
   */
  predicate WithinReach(w: Store, w': Store, e: Envelope, closure: seq<AccountMeta>, k: Key) {
    && (k == e.engineState.key || (WritableIn(closure, k) && k !in EnvelopeKeys(e)))
    && OwnerOf(w, k) != CORE && OwnerOf(w, k) != TOKEN_PROGRAM
    && Reached(w, w', e.engineProgram.key, e.engineState.key, k)
  }

  ghost predicate Guarded(w: Store, w': Store, e: Envelope, closure: seq<AccountMeta>) {
    forall k :: SameAt(w, w', k) || WithinReach(w, w', e, closure, k)
  }

  ghost predicate NoProgramData(w: Store) {
    forall k :: k in w ==> Placed(k, w[k])
  }

  /**
   * Whatever the engine does with what it is lent, the call stays within its reach, and a PREPARE call
   * changes nothing at all. `v` is the store the call meets, `w` the one admission looked at.
   */
  lemma EngineFrame(w: Store, v: Store, ix: ExecuteIx, adm: Admission, request: Request, outcome: EngineOutcome)
    requires Admitted(w, ix, adm) && NoProgramData(v)
    requires forall k :: OwnerOf(v, k) == OwnerOf(w, k)
    requires Phase(v, ix.e, adm, request, outcome).Ok?
    ensures Guarded(v, Phase(v, ix.e, adm, request, outcome).value.0, ix.e, ix.closure)
    ensures request.binding.phase == PHASE_PREPARE ==> Phase(v, ix.e, adm, request, outcome).value.0 == v
  {
    hide Admitted, InvokeEngine, EnvelopeKeys, CallFor, CallMetas, Reached, SignedBy, ReceiptFrom, ReceiptBinds;
    var e := ix.e;
    var call := CallFor(e, adm, request);
    LentAccounts(w, ix, adm, request);
    assert forall k :: IsPlanState(v, k) ==> Placed(k, v[k]);
    EngineReach(v, e.engineProgram.key, call, outcome);
    if request.binding.phase == PHASE_PREPARE {
      ReadOnlyCall(v, e.engineProgram.key, call, outcome);
    }
    StateOwner(w, ix, adm);
  }

  lemma StateOwner(w: Store, ix: ExecuteIx, adm: Admission)
    requires Admitted(w, ix, adm)
    ensures OwnerOf(w, ix.e.engineState.key) == ix.e.engineProgram.key != CORE
    ensures ix.e.engineProgram.key != TOKEN_PROGRAM
  {
  }

  // ---- Settlement cannot fail ----

  /** Supply bounds every sum that settlement forms, so once the amounts are guarded none of them fails. */
  lemma SettlementFits(w: Store, ix: ExecuteIx, adm: Admission, amountOut: u64)
    requires Inv(w) && Admitted(w, ix, adm) && amountOut <= DomainAt(w, ix.e.domain.key).accountedB
    ensures CanSettle(w, ix.e, ix.args.amountIn, adm.fee, amountOut)
    ensures CanAccount(w, ix.e, ix.args.amountIn, adm.fee, amountOut)
  {
    hide Admitted, NoDuplicates, Total;
    var e := ix.e;
    SettlementRoles(w, ix, adm);
    PairFits(w, e.source.key, e.vaultA.key);
    PairFits(w, e.source.key, e.feeVault.key);
    PairFits(w, e.vaultB.key, e.destination.key);
  }

  /** The five settlement accounts are five accounts, and the three vaults are solvent. */
  lemma SettlementRoles(w: Store, ix: ExecuteIx, adm: Admission)
    requires Admitted(w, ix, adm)
    ensures var e := ix.e;
            && IsMarket(w, e.market.key)
            && IsToken(w, e.source.key) && IsToken(w, e.destination.key)
            && TokenAt(w, e.source.key).mint == e.mintA.key && TokenAt(w, e.destination.key).mint == e.mintB.key
            && e.mintA.key == MarketAt(w, e.market.key).mintA && e.mintB.key == MarketAt(w, e.market.key).mintB
            && e.mintA.key != e.mintB.key
            && e.domain.key == DomainPda(e.market.key) && e.feeLedger.key == LedgerOf(w, e.market.key)
            && IsDomain(w, e.domain.key) && IsFeeLedger(w, e.feeLedger.key)
            && e.vaultA.key == VaultA(e.market.key) && e.vaultB.key == VaultB(e.market.key)
            && e.feeVault.key == FeeVault(w, e.market.key)
            && VaultOk(w, e.vaultA.key, e.mintA.key, e.domain.key, DomainAt(w, e.domain.key).accountedA)
            && VaultOk(w, e.vaultB.key, e.mintB.key, e.domain.key, DomainAt(w, e.domain.key).accountedB)
            && VaultOk(w, e.feeVault.key, e.mintA.key, e.feeLedger.key, FeeLedgerAt(w, e.feeLedger.key).accountedFeeA)
            && e.destination.key != e.vaultB.key
            && TokenAt(w, e.source.key).delegate.Some?
            && adm.total <= TokenAt(w, e.source.key).amount && ix.args.amountIn + adm.fee == adm.total
            && 1 <= adm.fee
  {
    hide OpaqueDescriptors, PhaseDescriptors, RebuiltIntent;
    var keys := EnvelopeKeys(ix.e);
    assert keys[6] == ix.e.destination.key && keys[8] == ix.e.vaultB.key;
  }

  /** Two accounts of one mint hold at most its supply between them. */
  lemma PairFits(w: Store, j: Key, k: Key)
    requires Inv(w) && IsToken(w, j) && IsToken(w, k) && j != k && TokenAt(w, j).mint == TokenAt(w, k).mint
    ensures TokenAt(w, j).amount + TokenAt(w, k).amount <= U64_MAX
  {
    hide Total, MarketOk;
    var mint := TokenAt(w, j).mint;
    assert TokenOk(w, j);
    assert SupplyOk(w, mint);
    PairBounded(w, j, k, mint);
  }
}
