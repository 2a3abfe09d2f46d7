/** A call forwarded by the router is the direct call. */
module Routing {
  import opened Base
  import opened Bindings
  import opened Keys
  import opened Ledger
  import opened Capabilities
  import opened Runtime
  import opened Core
  import opened Frames
  import opened ExecuteInstruction

  function EnvelopeOf(metas: seq<AccountMeta>): Envelope
    requires |metas| == 16
  {
    Envelope(metas[0], metas[1], metas[2], metas[3], metas[4], metas[5], metas[6], metas[7], metas[8], metas[9],
             metas[10], metas[11], metas[12], metas[13], metas[14], metas[15])
  }

  /** `forward_core`: the whole account list, every position carrying the union of its key's privileges. */
  function Routed(ix: ExecuteIx): ExecuteIx {
    var metas := NormalizedMetas(EnvelopeMetas(ix.e) + ix.closure);
    ExecuteIx(EnvelopeOf(metas[..16]), metas[16..], ix.args)
  }

  /** No role aliases another, and no closure position aliases a role. */
  predicate AliasFree(ix: ExecuteIx) {
    && (forall i, j :: 0 <= i < j < 16 ==> EnvelopeMetas(ix.e)[i].key != EnvelopeMetas(ix.e)[j].key)
    && (forall i, j :: 0 <= i < 16 && 0 <= j < |ix.closure| ==> EnvelopeMetas(ix.e)[i].key != ix.closure[j].key)
  }

  lemma RoutedShape(ix: ExecuteIx)
    requires AliasFree(ix)
    ensures Routed(ix) == ix.(closure := NormalizedMetas(ix.closure))
  {
    hide NormalizedMetas;
    NormalizingRestricts(EnvelopeMetas(ix.e), ix.closure);
    var metas := EnvelopeMetas(ix.e) + NormalizedMetas(ix.closure);
    assert metas[..16] == EnvelopeMetas(ix.e) && metas[16..] == NormalizedMetas(ix.closure);
  }

  lemma NormalizedKeys(metas: seq<AccountMeta>)
    ensures forall i :: 0 <= i < |metas| ==> NormalizedMetas(metas)[i].key == metas[i].key
  {
    forall i | 0 <= i < |metas| ensures NormalizedMetas(metas)[i].key == metas[i].key {
      NormalizedAt(metas, i);
    }
  }

  lemma EnvelopeOfMetas(metas: seq<AccountMeta>)
    requires |metas| == 16
    ensures EnvelopeMetas(EnvelopeOf(metas)) == metas
  {
  }

  /** The roles of an envelope are its sixteen metas' keys and the program. */
  lemma KeysOfMetas(e: Envelope)
    ensures forall i :: 0 <= i < 16 ==> EnvelopeKeys(e)[i] == EnvelopeMetas(e)[i].key
    ensures EnvelopeKeys(e)[16] == CORE
  {
  }

  /** The routed list names the same keys, position by position. */
  lemma RoutedKeys(ix: ExecuteIx)
    ensures EnvelopeKeys(Routed(ix).e) == EnvelopeKeys(ix.e)
    ensures |Routed(ix).closure| == |ix.closure|
    ensures forall i :: 0 <= i < |ix.closure| ==> Routed(ix).closure[i].key == ix.closure[i].key
  {
    hide NormalizedMetas, EnvelopeMetas, EnvelopeKeys, EnvelopeOf;
    var all := EnvelopeMetas(ix.e) + ix.closure;
    var metas := NormalizedMetas(all);
    NormalizedKeys(all);
    EnvelopeOfMetas(metas[..16]);
    KeysOfMetas(ix.e);
    KeysOfMetas(Routed(ix).e);
    forall i | 0 <= i < 17 ensures EnvelopeKeys(Routed(ix).e)[i] == EnvelopeKeys(ix.e)[i] {
      if i < 16 {
        assert metas[..16][i] == metas[i] && all[i] == EnvelopeMetas(ix.e)[i];
      }
    }
    forall i | 0 <= i < |ix.closure| ensures Routed(ix).closure[i].key == ix.closure[i].key {
      assert metas[16..][i] == metas[16 + i] && all[16 + i] == ix.closure[i];
    }
  }

  lemma AcceptedIsAliasFree(w: Store, ix: ExecuteIx)
    requires NoDuplicates(EnvelopeKeys(ix.e)) && OpaqueDescriptors(Loaded(w, ix.closure), EnvelopeKeys(ix.e)).Ok?
    ensures AliasFree(ix)
  {
    AcceptedClosure(w, ix.closure, EnvelopeKeys(ix.e));
    hide OpaqueDescriptors, Loaded;
    var keys := EnvelopeKeys(ix.e);
    forall i | 0 <= i < 16 ensures keys[i] == EnvelopeMetas(ix.e)[i].key {
    }
    hide EnvelopeKeys, EnvelopeMetas;
    forall i, j | 0 <= i < 16 && 0 <= j < |ix.closure| ensures EnvelopeMetas(ix.e)[i].key != ix.closure[j].key {
      assert keys[i] in keys;
    }
  }

  /** Admission reads the closure only through its united privileges, its keys and its length. */
  lemma AdmissionIgnoresRouting(w: Store, ix: ExecuteIx, slot: u64)
    ensures Admit(w, ix.(closure := NormalizedMetas(ix.closure)), slot) == Admit(w, ix, slot)
  {
    hide Constrained, OpaqueDescriptors, Loaded, NormalizedMetas, PhaseDescriptors, EnvelopeVerdict, AmountVerdict,
         EnvelopeKeys, DelegateVerdict;
    RoutedClosureSame(w, ix.closure, EnvelopeKeys(ix.e));
  }

  lemma RequestsIgnoreRouting(w: Store, ix: ExecuteIx, adm: Admission)
    requires Constrained(w, ix.e) && |ix.args.opaquePayload| <= MAX_OPAQUE_PAYLOAD_LEN
    requires |ix.closure| <= MAX_OPAQUE_ACCOUNTS
    ensures forall phase: byte, context: Digest, sequence: u64 ::
              RequestFor(w, ix.(closure := NormalizedMetas(ix.closure)), adm, phase, context, sequence)
              == RequestFor(w, ix, adm, phase, context, sequence)
  {
    hide Constrained, NormalizedMetas, PhaseDescriptors;
  }

  lemma ClosingIgnoresRouting(w: Store, settled: Store, ix: ExecuteIx, adm: Admission, receipt: Receipt,
                              outcome: EngineOutcome)
    requires Constrained(w, ix.e) && |ix.args.opaquePayload| <= MAX_OPAQUE_PAYLOAD_LEN
    requires |ix.closure| <= MAX_OPAQUE_ACCOUNTS
    requires CanAccount(w, ix.e, ix.args.amountIn, adm.fee, receipt.amountOut)
    requires IsToken(settled, ix.e.source.key) && IsToken(settled, ix.e.destination.key)
    requires IsToken(settled, ix.e.vaultA.key) && IsToken(settled, ix.e.vaultB.key)
    requires IsToken(settled, ix.e.feeVault.key)
    ensures Closing(w, settled, ix.(closure := NormalizedMetas(ix.closure)), adm, receipt, outcome)
         == Closing(w, settled, ix, adm, receipt, outcome)
  {
    hide Constrained, NormalizedMetas, RequestFor, Phase, CanAccount;
    var ix' := ix.(closure := NormalizedMetas(ix.closure));
    RequestsIgnoreRouting(w, ix, adm);
    var request := RequestFor(w, ix, adm, adm.phase, ZERO, ix.args.expectedEngineSequence);
    var context := SettlementDigest(w, settled, ix, adm, receipt, request);
    assert RequestFor(w, ix', adm, adm.phase, ZERO, ix.args.expectedEngineSequence) == request;
    assert RequestFor(w, ix', adm, PHASE_COMMIT, context, receipt.stateSequence)
        == RequestFor(w, ix, adm, PHASE_COMMIT, context, receipt.stateSequence);
  }

  lemma PrimaryIgnoresRouting(w: Store, ix: ExecuteIx, adm: Admission, outcome: EngineOutcome)
    requires Constrained(w, ix.e) && |ix.args.opaquePayload| <= MAX_OPAQUE_PAYLOAD_LEN
    requires |ix.closure| <= MAX_OPAQUE_ACCOUNTS
    ensures Primary(w, ix.(closure := NormalizedMetas(ix.closure)), adm, outcome) == Primary(w, ix, adm, outcome)
  {
    hide Constrained, NormalizedMetas, RequestFor, Phase;
    RequestsIgnoreRouting(w, ix, adm);
    assert RequestFor(w, ix.(closure := NormalizedMetas(ix.closure)), adm, adm.phase, ZERO,
                      ix.args.expectedEngineSequence)
        == RequestFor(w, ix, adm, adm.phase, ZERO, ix.args.expectedEngineSequence);
  }

  lemma ExecutionIgnoresNormalization(w: Store, ix: ExecuteIx, slot: u64, primary: EngineOutcome, commit: EngineOutcome)
    requires Inv(w)
    ensures ExecuteSpec(w, ix.(closure := NormalizedMetas(ix.closure)), slot, primary, commit)
         == ExecuteSpec(w, ix, slot, primary, commit)
  {
    hide Inv, Admit, Admitted, Constrained, NormalizedMetas, Primary, Closing, CanSettle, CanAccount, Guarded, Settled,
         Accounted;
    AdmissionIgnoresRouting(w, ix, slot);
    if Admit(w, ix, slot).Ok? {
      var adm := Admit(w, ix, slot).value;
      AdmissionFacts(w, ix, slot);
      AdmittedShape(w, ix, adm);
      PrimaryIgnoresRouting(w, ix, adm, primary);
      if Primary(w, ix, adm, primary).Ok? {
        PrimaryFacts(w, ix, adm, primary);
        var (w1, receipt) := Primary(w, ix, adm, primary).value;
        SettledTokens(w1, ix.e, ix.args.amountIn, adm.fee, receipt.amountOut);
        ClosingIgnoresRouting(w, Settled(w1, ix.e, ix.args.amountIn, adm.fee, receipt.amountOut), ix, adm, receipt,
                              commit);
      }
    }
  }

  /**
   * Direct equals routed. On an alias-free envelope the routed call has the same outcome as the direct
   * one, error for error and store for store.
   */
  lemma RoutedEqualsDirect(w: Store, ix: ExecuteIx, slot: u64, primary: EngineOutcome, commit: EngineOutcome)
    requires Inv(w) && AliasFree(ix)
    ensures ExecuteSpec(w, Routed(ix), slot, primary, commit) == ExecuteSpec(w, ix, slot, primary, commit)
  {
    hide Inv, ExecuteSpec, AliasFree;
    RoutedShape(ix);
    ExecutionIgnoresNormalization(w, ix, slot, primary, commit);
  }

  lemma AdmittedRoles(w: Store, ix: ExecuteIx, adm: Admission)
    requires Admitted(w, ix, adm)
    ensures NoDuplicates(EnvelopeKeys(ix.e)) && OpaqueDescriptors(Loaded(w, ix.closure), EnvelopeKeys(ix.e)).Ok?
  {
  }

  /**
   * On every envelope and closure whatever: the routed call succeeds exactly when the direct one does, with
   * the same result.
   */
  lemma RoutedSucceedsAlike(w: Store, ix: ExecuteIx, slot: u64, primary: EngineOutcome, commit: EngineOutcome)
    requires Inv(w)
    ensures ExecuteSpec(w, Routed(ix), slot, primary, commit).Ok? <==> ExecuteSpec(w, ix, slot, primary, commit).Ok?
    ensures ExecuteSpec(w, ix, slot, primary, commit).Ok? ==>
              ExecuteSpec(w, Routed(ix), slot, primary, commit) == ExecuteSpec(w, ix, slot, primary, commit)
  {
    hide Inv, ExecuteSpec, Admit, Admitted, AliasFree, NoDuplicates, EnvelopeKeys, OpaqueDescriptors, Loaded, Routed;
    if ExecuteSpec(w, ix, slot, primary, commit).Ok? {
      ExecutionEffect(w, ix, slot, primary, commit);
      AdmittedRoles(w, ix, Admit(w, ix, slot).value);
      AcceptedIsAliasFree(w, ix);
      RoutedEqualsDirect(w, ix, slot, primary, commit);
    } else if ExecuteSpec(w, Routed(ix), slot, primary, commit).Ok? {
      ExecutionEffect(w, Routed(ix), slot, primary, commit);
      AdmittedRoles(w, Routed(ix), Admit(w, Routed(ix), slot).value);
      AcceptedIsAliasFree(w, Routed(ix));
      RoutedAliasing(ix);
      RoutedEqualsDirect(w, ix, slot, primary, commit);
    }
  }

  /** Normalizing introduces and removes no aliasing. */
  lemma RoutedAliasing(ix: ExecuteIx)
    requires AliasFree(Routed(ix))
    ensures AliasFree(ix)
  {
    hide Routed;
    RoutedKeys(ix);
    KeysOfMetas(ix.e);
    KeysOfMetas(Routed(ix).e);
  }
}
