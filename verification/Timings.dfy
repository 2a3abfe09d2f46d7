/**
 * PREPARE/COMMIT refines TRANSITION: the same trade, offered under either timing, succeeds from the same
 * stores and leaves the same balances, accounting, cleared delegate, sequence and last amount.
 */
module Timings {
  import opened Base
  import opened Bindings
  import opened Keys
  import opened Ledger
  import opened Capabilities
  import opened PlanEngine
  import opened Runtime
  import opened Core
  import opened Frames
  import opened ExecuteInstruction
  import opened Honest
  import opened Trades

  /** An address that exists only as a spend or callback authority. */
  predicate Special(k: Key) {
    k.SpendPda? || k.CallbackPda?
  }

  /** The envelope names the spend and callback addresses of the intent it amounts to. */
  predicate Named(w: Store, ix: ExecuteIx) {
    && Constrained(w, ix.e) && ix.args.amountIn > 0 && KnownTiming(ix.args.timingMode)
    && var intent := RebuiltIntent(w, ix, FeeOf(ix.args.amountIn), ix.args.expectedCapabilityHash);
    && ix.e.spendAuthority.key == SpendPda(ix.e.source.key, IntentDigest(intent))
    && var phase := if ix.args.timingMode == TIMING_SINGLE then PHASE_TRANSITION else PHASE_PREPARE;
    && ix.e.primaryCallback.key == CallbackFor(ix.e, intent, phase)
    && ix.e.commitCallback.key == CallbackFor(ix.e, intent, PHASE_COMMIT)
  }

  /** Two envelopes that differ in the three derived authorities only. */
  predicate SameEnvelope(e: Envelope, e': Envelope) {
    && e == e'.(spendAuthority := e.spendAuthority, primaryCallback := e.primaryCallback,
                commitCallback := e.commitCallback)
    && e'.spendAuthority == e.spendAuthority.(key := e'.spendAuthority.key)
    && e'.primaryCallback == e.primaryCallback.(key := e'.primaryCallback.key)
    && e'.commitCallback == e.commitCallback.(key := e'.commitCallback.key)
  }

  /** Two stores that differ in the engine's timing and in which spend address the source delegates to. */
  predicate SameButTiming(w: Store, w': Store, state: Key, source: Key, delegate: Key, delegate': Key, k: Key) {
    if k == state then
      && IsPlanState(w, k) && IsPlanState(w', k) && PlanStateAt(w, k).timingMode == TIMING_SINGLE
      && w'[k] == w[k].(data := EngineData(PlanStateAt(w, k).(timingMode := TIMING_PREPARE_COMMIT)))
    else if k == source then
      && IsToken(w, k) && IsToken(w', k) && TokenAt(w, k).delegate == Some(delegate)
      && w'[k] == w[k].(data := TokenData(TokenAt(w, k).(delegate := Some(delegate'))))
    else SameAt(w, w', k)
  }

  /** One of an envelope's three derived authorities. */
  predicate DerivedKey(e: Envelope, k: Key) {
    k == e.spendAuthority.key || k == e.primaryCallback.key || k == e.commitCallback.key
  }

  /** The same trade offered as TRANSITION and as PREPARE/COMMIT, each under its own authorization. */
  ghost predicate Twins(w: Store, ix: ExecuteIx, w': Store, ix': ExecuteIx) {
    && ix.args.timingMode == TIMING_SINGLE && ix'.args == ix.args.(timingMode := TIMING_PREPARE_COMMIT)
    && ix'.closure == ix.closure
    && (forall i :: 0 <= i < |ix.closure| ==>
        !DerivedKey(ix.e, ix.closure[i].key) && !DerivedKey(ix'.e, ix.closure[i].key))
    && SameEnvelope(ix.e, ix'.e) && Named(w, ix) && Named(w', ix') && Accepting(w, ix.e)
    && forall k :: SameButTiming(w, w', ix.e.engineState.key, ix.e.source.key, ix.e.spendAuthority.key,
                                 ix'.e.spendAuthority.key, k)
  }

  // ---- Admission does not depend on the timing ----

  predicate Derived(i: int) { 12 <= i <= 14 }

  /** The derived authorities never clash with another role or with each other. */
  lemma DerivedNeverClash(w: Store, ix: ExecuteIx)
    requires NoProgramData(w) && Named(w, ix) && ix.e.engineProgram.key.Plain? && ix.e.engineState.key in w
    ensures forall i, j :: 0 <= i < j < 17 && (Derived(i) || Derived(j)) ==>
              EnvelopeKeys(ix.e)[i] != EnvelopeKeys(ix.e)[j]
    ensures forall i :: 0 <= i < 17 ==> (Special(EnvelopeKeys(ix.e)[i]) <==> Derived(i))
  {
    hide RebuiltIntent, IntentDigest, FeeOf;
    RolesPlaced(w, ix.e);
    var keys := EnvelopeKeys(ix.e);
    forall i | 0 <= i < 17 ensures Special(keys[i]) <==> Derived(i) {
    }
    assert keys[12] == ix.e.spendAuthority.key && keys[13] == ix.e.primaryCallback.key;
    assert keys[14] == ix.e.commitCallback.key;
  }

  lemma RolesPlaced(w: Store, e: Envelope)
    requires NoProgramData(w) && Constrained(w, e)
    ensures !Special(e.mintA.key) && !Special(e.mintB.key) && !Special(e.source.key) && !Special(e.destination.key)
    ensures e.engineState.key in w ==> !Special(e.engineState.key)
  {
    assert Placed(e.mintA.key, w[e.mintA.key]) && Placed(e.mintB.key, w[e.mintB.key]);
    assert Placed(e.source.key, w[e.source.key]) && Placed(e.destination.key, w[e.destination.key]);
    assert e.engineState.key in w ==> Placed(e.engineState.key, w[e.engineState.key]);
  }

  /** Distinctness and closure aliasing come out the same for both envelopes. */
  lemma RolesAgree(w: Store, ix: ExecuteIx, w': Store, ix': ExecuteIx)
    requires NoProgramData(w) && NoProgramData(w') && Twins(w, ix, w', ix')
    ensures NoDuplicates(EnvelopeKeys(ix.e)) <==> NoDuplicates(EnvelopeKeys(ix'.e))
    ensures forall k :: !DerivedKey(ix.e, k) && !DerivedKey(ix'.e, k) ==>
              (k in EnvelopeKeys(ix.e) <==> k in EnvelopeKeys(ix'.e))
  {
    hide Named, EnvelopeKeys, NoProgramData;
    DerivedRoles(ix.e);
    DerivedRoles(ix'.e);
    TwinStates(w, ix, w', ix');
    DerivedNeverClash(w, ix);
    DerivedNeverClash(w', ix');
    RestOfKeys(ix.e, ix'.e);
    var keys, keys' := EnvelopeKeys(ix.e), EnvelopeKeys(ix'.e);
    forall i, j | 0 <= i < j < 17 ensures keys[i] == keys[j] <==> keys'[i] == keys'[j] {
    }
  }

  lemma TwinStates(w: Store, ix: ExecuteIx, w': Store, ix': ExecuteIx)
    requires Twins(w, ix, w', ix')
    ensures ix.e.engineState.key in w && ix.e.engineState.key in w' && ix'.e.engineState.key == ix.e.engineState.key
    ensures ix.e.engineProgram.key == PLAN_ENGINE == ix'.e.engineProgram.key
    ensures SameEnvelope(ix.e, ix'.e) && Named(w, ix) && Named(w', ix')
  {
    assert SameButTiming(w, w', ix.e.engineState.key, ix.e.source.key, ix.e.spendAuthority.key,
                         ix'.e.spendAuthority.key, ix.e.engineState.key);
  }

  lemma DerivedRoles(e: Envelope)
    ensures forall i :: 0 <= i < 17 && Derived(i) ==> DerivedKey(e, EnvelopeKeys(e)[i])
  {
  }

  lemma RestOfKeys(e: Envelope, e': Envelope)
    requires SameEnvelope(e, e')
    ensures forall i :: 0 <= i < 17 && !Derived(i) ==> EnvelopeKeys(e)[i] == EnvelopeKeys(e')[i]
  {
  }

  /** The two stores look alike to everything that reads owners, executables, mints and books. */
  lemma TwinStores(w: Store, ix: ExecuteIx, w': Store, ix': ExecuteIx)
    requires Twins(w, ix, w', ix')
    ensures SameShape(w, w')
    ensures IsPlanState(w, ix.e.engineState.key) && IsPlanState(w', ix.e.engineState.key)
    ensures PlanStateAt(w', ix.e.engineState.key)
         == PlanStateAt(w, ix.e.engineState.key).(timingMode := TIMING_PREPARE_COMMIT)
    ensures PlanStateAt(w, ix.e.engineState.key).timingMode == TIMING_SINGLE
    ensures forall k :: k != ix.e.source.key && k != ix.e.engineState.key ==> SameAt(w, w', k)
    ensures IsToken(w, ix.e.source.key) && IsToken(w', ix.e.source.key)
    ensures TokenAt(w', ix.e.source.key) == TokenAt(w, ix.e.source.key).(delegate := Some(ix'.e.spendAuthority.key))
    ensures TokenAt(w, ix.e.source.key).delegate == Some(ix.e.spendAuthority.key)
  {
    hide Named;
    NamedSource(w, ix);
    forall k ensures OwnerOf(w', k) == OwnerOf(w, k) && Executable(w', k) == Executable(w, k)
             ensures k != ix.e.source.key && k != ix.e.engineState.key ==> SameAt(w, w', k) {
      assert SameButTiming(w, w', ix.e.engineState.key, ix.e.source.key, ix.e.spendAuthority.key,
                           ix'.e.spendAuthority.key, k);
    }
    var k := ix.e.source.key;
    assert SameButTiming(w, w', ix.e.engineState.key, k, ix.e.spendAuthority.key, ix'.e.spendAuthority.key, k);
    k := ix.e.engineState.key;
    assert SameButTiming(w, w', k, ix.e.source.key, ix.e.spendAuthority.key, ix'.e.spendAuthority.key, k);
  }

  lemma NamedSource(w: Store, ix: ExecuteIx)
    requires Named(w, ix)
    ensures Constrained(w, ix.e) && IsToken(w, ix.e.source.key)
  {
  }

  lemma {:induction false} ScanAgrees(infos: seq<AccountInfo>, keys: seq<Key>, keys': seq<Key>, n: nat)
    requires n <= |infos| && forall i :: 0 <= i < |infos| ==> (infos[i].key in keys <==> infos[i].key in keys')
    ensures OpaqueScan(infos, keys, n) == OpaqueScan(infos, keys', n)
  {
    if n > 0 {
      ScanAgrees(infos, keys, keys', n - 1);
      assert infos[n - 1].key in keys <==> infos[n - 1].key in keys';
      hide AnyWritable, AnySigner;
      assert OpaqueVerdict(infos, keys, n - 1) == OpaqueVerdict(infos, keys', n - 1);
    }
  }

  lemma ClosuresAgree(w: Store, ix: ExecuteIx, w': Store, ix': ExecuteIx)
    requires NoProgramData(w) && NoProgramData(w') && Twins(w, ix, w', ix')
    ensures OpaqueDescriptors(Loaded(w, ix.closure), EnvelopeKeys(ix.e))
         == OpaqueDescriptors(Loaded(w', ix'.closure), EnvelopeKeys(ix'.e))
  {
    hide EnvelopeKeys, NoProgramData, NoDuplicates, SameEnvelope, Named, Accepting, SameButTiming, SameShape;
    RolesAgree(w, ix, w', ix');
    TwinStores(w, ix, w', ix');
    SameShapeLoads(w, w', ix.closure);
    var infos := Loaded(w, ix.closure);
    forall i | 0 <= i < |infos| ensures infos[i].key in EnvelopeKeys(ix.e) <==> infos[i].key in EnvelopeKeys(ix'.e) {
      assert !DerivedKey(ix.e, ix.closure[i].key) && !DerivedKey(ix'.e, ix.closure[i].key);
    }
    ScanAgrees(infos, EnvelopeKeys(ix.e), EnvelopeKeys(ix'.e), |infos|);
  }

  lemma EnvelopesAgree(w: Store, ix: ExecuteIx, w': Store, ix': ExecuteIx)
    requires NoProgramData(w) && NoProgramData(w') && Twins(w, ix, w', ix')
    ensures EnvelopeVerdict(w, ix.e).Ok? <==> EnvelopeVerdict(w', ix'.e).Ok?
  {
    hide EnvelopeKeys, NoDuplicates, Named;
    RolesAgree(w, ix, w', ix');
    TwinStates(w, ix, w', ix');
    TwinStores(w, ix, w', ix');
    NamedDerived(w, ix);
    NamedDerived(w', ix');
    assert ix.e.spendAuthority.key in w ==> Placed(ix.e.spendAuthority.key, w[ix.e.spendAuthority.key]);
    assert ix'.e.spendAuthority.key in w' ==> Placed(ix'.e.spendAuthority.key, w'[ix'.e.spendAuthority.key]);
    assert ix.e.primaryCallback.key in w ==> Placed(ix.e.primaryCallback.key, w[ix.e.primaryCallback.key]);
    assert ix'.e.primaryCallback.key in w' ==> Placed(ix'.e.primaryCallback.key, w'[ix'.e.primaryCallback.key]);
    assert ix.e.commitCallback.key in w ==> Placed(ix.e.commitCallback.key, w[ix.e.commitCallback.key]);
    assert ix'.e.commitCallback.key in w' ==> Placed(ix'.e.commitCallback.key, w'[ix'.e.commitCallback.key]);
  }

  lemma NamedDerived(w: Store, ix: ExecuteIx)
    requires Named(w, ix)
    ensures Special(ix.e.spendAuthority.key) && Special(ix.e.primaryCallback.key) && Special(ix.e.commitCallback.key)
  {
    hide Constrained, RebuiltIntent;
  }

  /** The part of admission that a named envelope leaves open. */
  predicate Open(w: Store, ix: ExecuteIx, slot: u64)
    requires Constrained(w, ix.e) && ix.args.amountIn > 0
  {
    var e, args, t := ix.e, ix.args, TokenAt(w, ix.e.source.key);
    var amounts := AmountVerdict(args, t.amount, DomainAt(w, e.domain.key).accountedB);
    var opaques := OpaqueDescriptors(Loaded(w, ix.closure), EnvelopeKeys(e));
    && |args.opaquePayload| <= MAX_OPAQUE_PAYLOAD_LEN && slot <= args.expiresAtSlot && EnvelopeVerdict(w, e).Ok?
    && amounts.Ok? && opaques.Ok?
    && CapabilityHash(e.engineProgram.key,
                      PhaseDescriptors(e.engineState.key, e.engineProgram.key, opaques.value, true))
       == args.expectedCapabilityHash
    && t.delegate == Some(e.spendAuthority.key) && t.delegatedAmount == amounts.value.1 && t.closeAuthority == None
  }

  lemma AdmitsWhenOpen(w: Store, ix: ExecuteIx, slot: u64)
    requires Named(w, ix)
    ensures Constrained(w, ix.e) && ix.args.amountIn > 0
    ensures Admit(w, ix, slot).Ok? <==> Open(w, ix, slot)
    ensures Admit(w, ix, slot).Ok? ==>
              var adm := Admit(w, ix, slot).value;
              && adm.fee == FeeOf(ix.args.amountIn)
              && OpaqueDescriptors(Loaded(w, ix.closure), EnvelopeKeys(ix.e)) == Result.Ok(adm.opaques)
  {
    hide Constrained, OpaqueDescriptors, Loaded, PhaseDescriptors, EnvelopeVerdict, RebuiltIntent, FeeOf, EnvelopeKeys,
         CapabilityHash;
  }

  /** Both offers are admitted, or neither. */
  lemma AdmissionsAgree(w: Store, ix: ExecuteIx, w': Store, ix': ExecuteIx, slot: u64)
    requires NoProgramData(w) && NoProgramData(w') && Twins(w, ix, w', ix')
    ensures Admit(w, ix, slot).Ok? <==> Admit(w', ix', slot).Ok?
    ensures Admit(w, ix, slot).Ok? ==>
              var adm, adm' := Admit(w, ix, slot).value, Admit(w', ix', slot).value;
              adm'.fee == adm.fee && adm'.opaques == adm.opaques
  {
    hide NoProgramData, Named, Admit, EnvelopeVerdict, OpaqueDescriptors, Loaded, EnvelopeKeys, PhaseDescriptors,
         CapabilityHash, FeeOf, SameButTiming, Accepting;
    AdmitsWhenOpen(w, ix, slot);
    AdmitsWhenOpen(w', ix', slot);
    TwinStores(w, ix, w', ix');
    ClosuresAgree(w, ix, w', ix');
    EnvelopesAgree(w, ix, w', ix');
    TwinBooks(w, ix, w', ix');
  }

  lemma TwinBooks(w: Store, ix: ExecuteIx, w': Store, ix': ExecuteIx)
    requires Twins(w, ix, w', ix') && Constrained(w, ix.e) && Constrained(w', ix'.e)
    ensures DomainAt(w', ix'.e.domain.key) == DomainAt(w, ix.e.domain.key)
    ensures FeeLedgerAt(w', ix'.e.feeLedger.key) == FeeLedgerAt(w, ix.e.feeLedger.key)
    ensures MarketAt(w', ix'.e.market.key) == MarketAt(w, ix.e.market.key)
  {
    hide Named, SameButTiming;
    TwinStores(w, ix, w', ix');
    assert SameAt(w, w', ix.e.domain.key) && SameAt(w, w', ix.e.feeLedger.key) && SameAt(w, w', ix.e.market.key);
  }

  // ---- The trades agree ----

  lemma HelpersAgree(w: Store, ix: ExecuteIx, w': Store, ix': ExecuteIx, adm: Admission, adm': Admission,
                     helper: Option<Data>)
    requires Twins(w, ix, w', ix') && Admitted(w, ix, adm) && adm'.opaques == adm.opaques
    ensures Helped(ix'.e, adm', ix'.args.opaquePayload, helper) == Helped(ix.e, adm, ix.args.opaquePayload, helper)
  {
    hide Named, EnvelopeKeys, HelperWrites, SameButTiming, Admitted;
    NamedDerived(w, ix);
    NamedDerived(w', ix');
    OpaqueKeys(w, ix, adm);
    var infos, infos' := ClosureInfos(ix.e, adm.opaques), ClosureInfos(ix'.e, adm'.opaques);
    forall i | 2 <= i < |infos| ensures infos[i].key != infos[1].key && infos[i].key != infos'[1].key {
      assert !DerivedKey(ix.e, ix.closure[i - 2].key) && !DerivedKey(ix'.e, ix.closure[i - 2].key);
    }
    assert infos[2..] == infos'[2..];
    HelperAgrees(infos, infos', ix.args.opaquePayload, helper);
  }

  lemma OpaqueKeys(w: Store, ix: ExecuteIx, adm: Admission)
    requires Admitted(w, ix, adm)
    ensures |adm.opaques| == |ix.closure| && forall i :: 0 <= i < |adm.opaques| ==>
        adm.opaques[i].key == ix.closure[i].key
  {
    AcceptedClosure(w, ix.closure, EnvelopeKeys(ix.e));
  }

  /** An engine state up to its configured timing and the digests and phase of its last call. */
  function Economic(s: EngineState): EngineState {
    s.(timingMode := TIMING_SINGLE, lastIntentDigest := ZERO, lastPhaseContextDigest := ZERO,
       lastExecutionDigest := ZERO, lastPhase := 0)
  }

  /** The same trade has happened: every account agrees, and the engine state in all but its last call's identity. */
  ghost predicate SameTrade(v: Store, v': Store, state: Key) {
    && (forall k :: k != state ==> SameAt(v, v', k))
    && IsPlanState(v, state) && IsPlanState(v', state)
    && Economic(PlanStateAt(v', state)) == Economic(PlanStateAt(v, state))
  }

  /** Accounting over an engine step over a settlement: each key from the last writer. */
  lemma StoresAgree(w: Store, ix: ExecuteIx, w': Store, ix': ExecuteIx, adm: Admission, adm': Admission, out: u64,
                    writes: Store)
    requires Twins(w, ix, w', ix') && Admitted(w, ix, adm) && Admitted(w', ix', adm') && adm'.fee == adm.fee
    requires Tradable(w, ix, adm, out) && Tradable(w', ix', adm', out)
    requires forall k :: k in writes ==> OwnerOf(w, k) == HELPER_PROGRAM && k != ix.e.engineState.key
    ensures SameTrade(TradeStore(w, ix, adm, out, writes), TradeStore(w', ix', adm', out, writes), ix.e.engineState.key)
    ensures TradeSettles(TradeStore(w, ix, adm, out, writes), ix, out)
  {
    hide Admitted, Named, FinalRequest, Constrained, VaultOk, SameButTiming, SameShape, CanSettle, CanAccount, Settled,
         Twins, TradeStore, TradeSettles;
    TwinStates(w, ix, w', ix');
    TwinTokens(w, ix, w', ix', adm);
    TwinStores(w, ix, w', ix');
    AdmittedShape(w, ix, adm);
    AdmittedShape(w', ix', adm');
    TwinBooks(w, ix, w', ix');
    TwinTrades(w, ix, w', ix');
    SettlementsAgree(w, ix, w', ix', adm.fee, out);
    StepsAgree(w, ix, w', ix', adm, adm', out, writes);
    TradeEntries(w, ix, adm, out, writes);
  }

  /** The engine state and the source after a trade. */
  predicate TradeSettles(v: Store, ix: ExecuteIx, out: u64) {
    && IsPlanState(v, ix.e.engineState.key) && PlanStateAt(v, ix.e.engineState.key).lastAmountOut == out
    && IsToken(v, ix.e.source.key) && TokenAt(v, ix.e.source.key).delegate == None
    && TokenAt(v, ix.e.source.key).delegatedAmount == 0
  }

  lemma TradeEntries(w: Store, ix: ExecuteIx, adm: Admission, out: u64, writes: Store)
    requires Admitted(w, ix, adm) && Tradable(w, ix, adm, out)
    requires forall k :: k in writes ==> OwnerOf(w, k) == HELPER_PROGRAM && k != ix.e.engineState.key
    ensures TradeSettles(TradeStore(w, ix, adm, out, writes), ix, out)
  {
    hide Admitted, FinalRequest, Constrained;
    StateOwner(w, ix, adm);
    SettlementRoles(w, ix, adm);
    var v, source, state := TradeStore(w, ix, adm, out, writes), ix.e.source.key, ix.e.engineState.key;
    assert state != ix.e.domain.key && state != ix.e.feeLedger.key;
    assert source !in writes && source != state && source != ix.e.domain.key && source != ix.e.feeLedger.key;
    assert v[source] == Settled(w, ix.e, ix.args.amountIn, adm.fee, out)[source];
  }

  lemma StepsAgree(w: Store, ix: ExecuteIx, w': Store, ix': ExecuteIx, adm: Admission, adm': Admission, out: u64,
                   writes: Store)
    requires Tradable(w, ix, adm, out) && Tradable(w', ix', adm', out) && adm'.fee == adm.fee
    requires SameEnvelope(ix.e, ix'.e) && ix'.args.amountIn == ix.args.amountIn
    requires ix.e.domain.key != ix.e.engineState.key && ix.e.feeLedger.key != ix.e.engineState.key
    requires DomainAt(w', ix'.e.domain.key) == DomainAt(w, ix.e.domain.key)
    requires FeeLedgerAt(w', ix'.e.feeLedger.key) == FeeLedgerAt(w, ix.e.feeLedger.key)
    requires PlanStateAt(w', ix.e.engineState.key)
         == PlanStateAt(w, ix.e.engineState.key).(timingMode := TIMING_PREPARE_COMMIT)
    requires var v, v' := Settled(w, ix.e, ix.args.amountIn, adm.fee, out), Settled(w', ix'.e, ix'.args.amountIn,
        adm'.fee, out);
             forall k :: k != ix.e.engineState.key ==> SameAt(v, v', k)
    ensures SameTrade(TradeStore(w, ix, adm, out, writes), TradeStore(w', ix', adm', out, writes), ix.e.engineState.key)
  {
    hide CanSettle, Settled, FinalRequest, Constrained;
    var v, v' := Settled(w, ix.e, ix.args.amountIn, adm.fee, out), Settled(w', ix'.e, ix'.args.amountIn, adm'.fee, out);
    var x, x' := TradeStore(w, ix, adm, out, writes), TradeStore(w', ix', adm', out, writes);
    assert ix'.e.domain == ix.e.domain && ix'.e.feeLedger == ix.e.feeLedger && ix'.e.engineState == ix.e.engineState;
    forall k | k != ix.e.engineState.key ensures SameAt(x, x', k) {
      assert SameAt(v, v', k);
    }
  }

  /** The four settlement accounts besides the source are other accounts, and the same in both stores. */
  predicate OthersSame(w: Store, w': Store, e: Envelope) {
    && e.vaultA.key != e.source.key && SameAt(w, w', e.vaultA.key) && e.vaultB.key != e.source.key
    && SameAt(w, w', e.vaultB.key)
    && e.feeVault.key != e.source.key && SameAt(w, w', e.feeVault.key)
    && e.destination.key != e.source.key && SameAt(w, w', e.destination.key)
  }

  lemma TwinTokens(w: Store, ix: ExecuteIx, w': Store, ix': ExecuteIx, adm: Admission)
    requires Twins(w, ix, w', ix') && Admitted(w, ix, adm)
    ensures OthersSame(w, w', ix.e)
    ensures ix.e.domain.key != ix.e.engineState.key && ix.e.feeLedger.key != ix.e.engineState.key
    ensures ix.e.source.key != ix.e.engineState.key
  {
    hide Admitted, Named, SameButTiming;
    SettlementRoles(w, ix, adm);
    TwinStores(w, ix, w', ix');
  }

  lemma SettlementsAgree(w: Store, ix: ExecuteIx, w': Store, ix': ExecuteIx, fee: u64, out: u64)
    requires CanSettle(w, ix.e, ix.args.amountIn, fee, out) && CanSettle(w', ix'.e, ix'.args.amountIn, fee, out)
    requires SameEnvelope(ix.e, ix'.e) && ix'.args.amountIn == ix.args.amountIn
    requires TokenAt(w', ix.e.source.key)
         == TokenAt(w, ix.e.source.key).(delegate := TokenAt(w', ix.e.source.key).delegate)
    requires OthersSame(w, w', ix.e)
    requires forall k :: k != ix.e.source.key && k != ix.e.engineState.key ==> SameAt(w, w', k)
    ensures var v, v' := Settled(w, ix.e, ix.args.amountIn, fee, out), Settled(w', ix'.e, ix'.args.amountIn, fee, out);
            forall k :: k != ix.e.engineState.key ==> SameAt(v, v', k)
  {
    var e, e' := ix.e, ix'.e;
    var v, v' := Settled(w, e, ix.args.amountIn, fee, out), Settled(w', e', ix'.args.amountIn, fee, out);
    assert e'.source == e.source && e'.vaultA == e.vaultA && e'.vaultB == e.vaultB && e'.feeVault == e.feeVault
        && e'.destination == e.destination;
    forall k | k != e.engineState.key ensures SameAt(v, v', k) {
      if k != e.source.key {
        assert SameAt(w, w', k);
      }
    }
  }

  lemma ReadinessAgrees(w: Store, ix: ExecuteIx, w': Store, ix': ExecuteIx, adm: Admission, adm': Admission,
                        helper: Option<Data>)
    requires Twins(w, ix, w', ix') && Admitted(w, ix, adm) && Constrained(w, ix.e) && Constrained(w', ix'.e)
    requires adm'.opaques == adm.opaques
    requires IsPlanState(w, ix.e.engineState.key) && IsPlanState(w', ix'.e.engineState.key)
    ensures TradeReady(w, ix, adm, helper) <==> TradeReady(w', ix', adm', helper)
    ensures TradeOutput(w', ix') == TradeOutput(w, ix)
  {
    hide Constrained, Named, SameButTiming, Admitted, Helped;
    TwinStores(w, ix, w', ix');
    TwinBooks(w, ix, w', ix');
    HelpersAgree(w, ix, w', ix', adm, adm', helper);
  }

  /**
   * PREPARE/COMMIT refines TRANSITION. With an accepting engine the two routes succeed from the same
   * stores, for the same fee and output, and leave the same balances, accounting, cleared delegate,
   * engine sequence and last amount.
   */
  lemma TimingsAgree(w: Store, ix: ExecuteIx, w': Store, ix': ExecuteIx, slot: u64,
                     p: EngineOutcome, c: EngineOutcome, p': EngineOutcome, c': EngineOutcome)
    requires Inv(w) && Inv(w') && Twins(w, ix, w', ix') && c'.around.helper == p.around.helper
    ensures var single, twoPhase := ExecuteSpec(w, ix, slot, p, c), ExecuteSpec(w', ix', slot, p', c');
            && (single.Ok? <==> twoPhase.Ok?)
            && (single.Ok? ==>
                  && twoPhase.value.fee == single.value.fee && twoPhase.value.amountOut == single.value.amountOut
                  && SameTrade(single.value.store, twoPhase.value.store, ix.e.engineState.key)
                  && TradeSettles(single.value.store, ix, single.value.amountOut))
  {
    hide Inv, Admit, Admitted, Twins, Constrained, Tradable, TradeStore, Helped, TradeReady, TradeOutput, ExecuteSpec,
         SameTrade, TradeSettles;
    InvPlaces(w);
    InvPlaces(w');
    TwinTrades(w, ix, w', ix');
    AdmissionsAgree(w, ix, w', ix', slot);
    ExecutesAdmitted(w, ix, slot, p, c);
    ExecutesAdmitted(w', ix', slot, p', c');
    if Admit(w, ix, slot).Ok? {
      var adm, adm', helper := Admit(w, ix, slot).value, Admit(w', ix', slot).value, p.around.helper;
      TradeExactly(w, ix, slot, p, c);
      TradeExactly(w', ix', slot, p', c');
      AdmittedShape(w, ix, adm);
      AdmittedShape(w', ix', adm');
      ReadinessAgrees(w, ix, w', ix', adm, adm', helper);
      HelpersAgree(w, ix, w', ix', adm, adm', helper);
      if TradeReady(w, ix, adm, helper) {
        WritesAvoidTokens(w, ix, adm, helper);
        StoresAgree(w, ix, w', ix', adm, adm', TradeOutput(w, ix),
                    Helped(ix.e, adm, ix.args.opaquePayload, helper).value);
      }
    }
  }

  lemma TwinTrades(w: Store, ix: ExecuteIx, w': Store, ix': ExecuteIx)
    requires Twins(w, ix, w', ix')
    ensures ix.args.timingMode == TIMING_SINGLE && ix'.args.timingMode == TIMING_PREPARE_COMMIT
    ensures Accepting(w, ix.e) && Accepting(w', ix'.e) && ix'.args.opaquePayload == ix.args.opaquePayload
    ensures ix'.e.engineState.key == ix.e.engineState.key && ix'.args.amountIn == ix.args.amountIn
  {
    hide Named, SameButTiming, SameShape;
    TwinStores(w, ix, w', ix');
    TwinStates(w, ix, w', ix');
  }
}
