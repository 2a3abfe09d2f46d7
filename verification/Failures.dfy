/** What a failing execution can report, and what it never does. */
module Failures {
  import opened Base
  import opened Bindings
  import opened Keys
  import opened Ledger
  import opened Errors
  import opened Capabilities
  import opened Runtime
  import opened Core
  import opened Frames
  import opened ExecuteInstruction

  /**
   * Checks that the invariant makes redundant: record and vault checks, token failures, exact deltas, the
   * cleared delegate.
   */
  predicate Redundant(e: CoreError) {
    || e.SpendDelegateNotCleared? || e.VaultBelowAccountedBalance? || e.TokenProgramFailed?
    || e.UnexpectedSourceDebit? || e.UnexpectedDestinationCredit?
    || e.UnexpectedVaultCredit? || e.UnexpectedVaultDebit? || e.UnexpectedFeeVaultCredit?
    || e.InvalidMarket? || e.InvalidDomain? || e.InvalidDomainAdmission? || e.InvalidDomainVault?
    || e.InvalidFeeLedger? || e.InvalidFeeVault? || e.InvalidFeePolicy? || e.InvalidEngineRevision?
    || e.InvalidEngineStateOwner? || e.CoreCannotBeEngine?
    || e.InvalidTokenMint? || e.InvalidTokenAuthority? || e.TokenDelegateUnsupported? || e.InvalidDelegatedAmount?
    || e.OpaqueNormalizedPrivilegeUnavailable? || e.InvalidWireEncoding?
  }

  /** What the engine's call and its receipt can be blamed for. */
  predicate CallFailure(e: CoreError) {
    || e.EngineFailed? || e.MissingEngineReceipt? || e.InvalidEngineReceiptSetter? || e.InvalidEngineReceipt?
    || e.EngineReceiptPhaseMismatch? || e.EngineReceiptIntentMismatch? || e.EngineReceiptExecutionMismatch?
  }

  predicate PrimaryFailure(e: CoreError) {
    || CallFailure(e) || e.PrepareSequenceChanged? || e.TransitionSequenceMismatch? || e == CoreError.ArithmeticOverflow
    || e == CoreError.ZeroAmount || e.OutputBelowUserMinimum? || e.InsufficientAccountedLiquidity?
  }

  predicate CommitFailure(e: CoreError, receipt: Receipt) {
    || CallFailure(e) || e.CommitOutputMismatch? || e.CommitSequenceMismatch?
    || (e == CoreError.ArithmeticOverflow && receipt.stateSequence == U64_MAX)
  }

  lemma {:induction false} ScanFailures(infos: seq<AccountInfo>, fixedKeys: seq<Key>, n: nat)
    requires n <= |infos|
    ensures OpaqueScan(infos, fixedKeys, n).Err? ==> !Redundant(OpaqueScan(infos, fixedKeys, n).error)
  {
    if n > 0 {
      ScanFailures(infos, fixedKeys, n - 1);
    }
  }

  lemma RolesFailures(w: Store, ix: ExecuteIx, slot: u64)
    ensures RolesVerdict(w, ix, slot).Err? ==> !Redundant(RolesVerdict(w, ix, slot).error)
    ensures RolesVerdict(w, ix, slot).Ok? ==> Constrained(w, ix.e) && ix.args.amountIn > 0
  {
    hide Constrained, EnvelopeKeys, NoDuplicates, UnexpectedlyWritable, UnexpectedlySigned;
  }

  lemma SpendFailures(w: Store, ix: ExecuteIx, phase: byte, fee: u64, total: u64, opaques: seq<Descriptor>)
    requires Constrained(w, ix.e)
    ensures SpendVerdict(w, ix, phase, fee, total, opaques).Err? ==>
              !Redundant(SpendVerdict(w, ix, phase, fee, total, opaques).error)
  {
    hide Constrained, PhaseDescriptors, RebuiltIntent, CallbackFor, CapabilityHash, IntentDigest;
  }

  lemma AuthorityFailures(w: Store, ix: ExecuteIx, phase: byte)
    requires Constrained(w, ix.e) && ix.args.amountIn > 0
    ensures AuthorityVerdict(w, ix, phase).Err? ==> !Redundant(AuthorityVerdict(w, ix, phase).error)
  {
    hide Constrained, OpaqueScan, Loaded, EnvelopeKeys, FeeOf, SpendVerdict;
    var infos, opaques := Loaded(w, ix.closure), OpaqueDescriptors(Loaded(w, ix.closure), EnvelopeKeys(ix.e));
    ScanFailures(infos, EnvelopeKeys(ix.e), |infos|);
    var fee := FeeOf(ix.args.amountIn);
    if opaques.Ok? && ix.args.amountIn + fee <= U64_MAX {
      SpendFailures(w, ix, phase, fee, ix.args.amountIn + fee, opaques.value);
    }
  }

  lemma AdmissionFailures(w: Store, ix: ExecuteIx, slot: u64)
    ensures Admit(w, ix, slot).Err? ==> !Redundant(Admit(w, ix, slot).error)
  {
    hide Constrained, RolesVerdict, AuthorityVerdict, Redundant;
    RolesFailures(w, ix, slot);
    if RolesVerdict(w, ix, slot).Ok? {
      AuthorityFailures(w, ix, RolesVerdict(w, ix, slot).value);
    }
  }

  lemma PrimaryFailures(w: Store, ix: ExecuteIx, adm: Admission, outcome: EngineOutcome)
    requires Constrained(w, ix.e) && |ix.args.opaquePayload| <= MAX_OPAQUE_PAYLOAD_LEN
    requires |ix.closure| <= MAX_OPAQUE_ACCOUNTS
    ensures Primary(w, ix, adm, outcome).Err? ==> PrimaryFailure(Primary(w, ix, adm, outcome).error)
  {
    hide Constrained, InvokeEngine, RequestFor, CallFor;
  }

  lemma CommitFailures(w: Store, settled: Store, ix: ExecuteIx, adm: Admission, primary: Receipt, context: Digest,
                       outcome: EngineOutcome)
    requires Constrained(w, ix.e) && |ix.args.opaquePayload| <= MAX_OPAQUE_PAYLOAD_LEN
    requires |ix.closure| <= MAX_OPAQUE_ACCOUNTS
    ensures Commit(w, settled, ix, adm, primary, context, outcome).Err? ==>
              CommitFailure(Commit(w, settled, ix, adm, primary, context, outcome).error, primary)
  {
    hide Constrained, InvokeEngine, RequestFor, CallFor;
  }

  /** The primary phase of an admitted execution goes through and its receipt is accepted. */
  predicate Accepts(w: Store, ix: ExecuteIx, adm: Admission, outcome: EngineOutcome) {
    && Constrained(w, ix.e) && |ix.args.opaquePayload| <= MAX_OPAQUE_PAYLOAD_LEN && |ix.closure| <= MAX_OPAQUE_ACCOUNTS
    && Primary(w, ix, adm, outcome).Ok?
  }

  function AcceptedReceipt(w: Store, ix: ExecuteIx, adm: Admission, outcome: EngineOutcome): Receipt
    requires Accepts(w, ix, adm, outcome)
  {
    Primary(w, ix, adm, outcome).value.1
  }

  /**
   * Settlement itself never fails: once the primary receipt is accepted, a single-phase execution
   * succeeds, and a two-phase one can fail only by its COMMIT call, its receipt or an exhausted sequence.
   */
  lemma SettlementNeverFails(w: Store, ix: ExecuteIx, slot: u64, primary: EngineOutcome, commit: EngineOutcome)
    requires Inv(w) && Admit(w, ix, slot).Ok? && Admitted(w, ix, Admit(w, ix, slot).value)
    requires Accepts(w, ix, Admit(w, ix, slot).value, primary)
    ensures var r := ExecuteSpec(w, ix, slot, primary, commit);
            r.Err? ==>
              && ix.args.timingMode == TIMING_PREPARE_COMMIT
              && CommitFailure(r.error, AcceptedReceipt(w, ix, Admit(w, ix, slot).value, primary))
  {
    hide Inv, Admit, Admitted, Primary, Commit, CanSettle, CanAccount, Constrained, Settled, Accounted, RequestFor,
         SettlementDigest, CommitFailure;
    var adm := Admit(w, ix, slot).value;
    AdmittedShape(w, ix, adm);
    PrimaryFacts(w, ix, adm, primary);
    var (w1, receipt) := Primary(w, ix, adm, primary).value;
    var settled := Settled(w1, ix.e, ix.args.amountIn, adm.fee, receipt.amountOut);
    SettledTokens(w1, ix.e, ix.args.amountIn, adm.fee, receipt.amountOut);
    var request := RequestFor(w, ix, adm, adm.phase, ZERO, ix.args.expectedEngineSequence);
    CommitFailures(w, settled, ix, adm, receipt, SettlementDigest(w, settled, ix, adm, receipt, request), commit);
  }

  lemma EngineFailuresOnly(e: CoreError)
    ensures PrimaryFailure(e) || (exists receipt :: CommitFailure(e, receipt)) ==> !Redundant(e)
  {
  }

  /** From a store that meets the invariant no execution reports a redundant check, whatever the engine does. */
  lemma RedundantChecksNeverFire(w: Store, ix: ExecuteIx, slot: u64, primary: EngineOutcome, commit: EngineOutcome)
    requires Inv(w)
    ensures ExecuteSpec(w, ix, slot, primary, commit).Err? ==>
              !Redundant(ExecuteSpec(w, ix, slot, primary, commit).error)
  {
    hide Inv, Admit, Admitted, Primary, Closing, CanSettle, CanAccount, Constrained, Settled, Accounted, Redundant,
         PrimaryFailure, CommitFailure, Guarded;
    AdmissionFailures(w, ix, slot);
    if Admit(w, ix, slot).Ok? {
      var adm := Admit(w, ix, slot).value;
      AdmissionFacts(w, ix, slot);
      AdmittedShape(w, ix, adm);
      PrimaryFailures(w, ix, adm, primary);
      if Primary(w, ix, adm, primary).Err? {
        EngineFailuresOnly(Primary(w, ix, adm, primary).error);
      } else {
        SettlementNeverFails(w, ix, slot, primary, commit);
        var r := ExecuteSpec(w, ix, slot, primary, commit);
        if r.Err? {
          EngineFailuresOnly(r.error);
        }
      }
    }
  }
}
