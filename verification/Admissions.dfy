/**
 * Admission without its verdicts: exactly which executions reach the engine, what admission fixes for
 * them, and the fault that each refusal names.
 */
module Admissions {
  import opened Base
  import opened Bindings
  import opened Keys
  import opened Ledger
  import opened Errors
  import opened Capabilities
  import opened Core
  import PathMath

  // ---- The closure ----

  /** A closure address nobody signs for, no fixed role, not the program's, and writable only if safely so. */
  predicate Opaque(w: Store, closure: seq<AccountMeta>, fixedKeys: seq<Key>, k: Key) {
    && !SignerIn(closure, k) && k !in fixedKeys && OwnerOf(w, k) != CORE
    && (WritableIn(closure, k) ==>
          !Executable(w, k) && OwnerOf(w, k) != TOKEN_PROGRAM && OwnerOf(w, k) != TOKEN_2022_PROGRAM)
  }

  predicate ClosureOpaque(w: Store, closure: seq<AccountMeta>, fixedKeys: seq<Key>) {
    |closure| <= 8 && forall i :: 0 <= i < |closure| ==> Opaque(w, closure, fixedKeys, closure[i].key)
  }

  /** What is wrong with a closure address refused for this reason. */
  predicate OpaqueFault(w: Store, closure: seq<AccountMeta>, fixedKeys: seq<Key>, k: Key, fault: CoreError) {
    match fault
    case OpaqueSignerForbidden => SignerIn(closure, k)
    case OpaqueFixedRoleAlias => k in fixedKeys
    case OpaqueCoreOwnedAccount => OwnerOf(w, k) == CORE
    case OpaqueExecutableWritable => WritableIn(closure, k) && Executable(w, k)
    case OpaqueProtectedTokenAccountWritable =>
      WritableIn(closure, k) && (OwnerOf(w, k) == TOKEN_PROGRAM || OwnerOf(w, k) == TOKEN_2022_PROGRAM)
    case _ => false
  }

  predicate ClosureFault(w: Store, closure: seq<AccountMeta>, fixedKeys: seq<Key>, fault: CoreError) {
    || (fault == TooManyOpaqueAccounts && |closure| > 8)
    || exists i :: 0 <= i < |closure| && OpaqueFault(w, closure, fixedKeys, closure[i].key, fault)
  }

  lemma PositionExactly(w: Store, closure: seq<AccountMeta>, fixedKeys: seq<Key>, i: nat)
    requires i < |closure|
    ensures var verdict := OpaqueVerdict(Loaded(w, closure), fixedKeys, i);
            && (verdict.Ok? <==> Opaque(w, closure, fixedKeys, closure[i].key))
            && (verdict.Err? ==> OpaqueFault(w, closure, fixedKeys, closure[i].key, verdict.error))
  {
    hide SignerIn, WritableIn, AnySigner, AnyWritable;
    LoadedFlags(w, closure, closure[i].key);
  }

  /** The failure of a list is the failure of one of its positions. */
  lemma {:induction false} ScanFaults(w: Store, closure: seq<AccountMeta>, fixedKeys: seq<Key>, n: nat)
    requires n <= |closure| && OpaqueScan(Loaded(w, closure), fixedKeys, n).Err?
    ensures exists i ::
              0 <= i < n
              && OpaqueFault(w, closure, fixedKeys, closure[i].key, OpaqueScan(Loaded(w, closure), fixedKeys, n).error)
  {
    hide OpaqueVerdict, OpaqueFault;
    if OpaqueScan(Loaded(w, closure), fixedKeys, n - 1).Err? {
      ScanFaults(w, closure, fixedKeys, n - 1);
    } else {
      PositionExactly(w, closure, fixedKeys, n - 1);
    }
  }

  /** Closures, exactly: at most eight accounts, each of them opaque with its privileges united. */
  lemma ClosuresExactly(w: Store, closure: seq<AccountMeta>, fixedKeys: seq<Key>)
    ensures var opaques := OpaqueDescriptors(Loaded(w, closure), fixedKeys);
            && (opaques.Ok? <==> ClosureOpaque(w, closure, fixedKeys))
            && (opaques.Err? ==> ClosureFault(w, closure, fixedKeys, opaques.error))
  {
    hide OpaqueVerdict, OpaqueScan, Opaque, OpaqueFault;
    var infos := Loaded(w, closure);
    ScanAccepts(infos, fixedKeys, |infos|);
    forall i | 0 <= i < |closure|
      ensures OpaqueVerdict(infos, fixedKeys, i).Ok? <==> Opaque(w, closure, fixedKeys, closure[i].key)
    {
      PositionExactly(w, closure, fixedKeys, i);
    }
    if OpaqueScan(infos, fixedKeys, |infos|).Err? {
      ScanFaults(w, closure, fixedKeys, |closure|);
    }
  }

  // ---- The envelope ----

  predicate Holds(w: Store, k: Key, mint: Key) {
    IsToken(w, k) && TokenAt(w, k).mint == mint
  }

  /** The sixteen accounts are the market's own, in the kinds, mints and authorities the instruction declares. */
  predicate Declared(w: Store, e: Envelope) {
    && IsMarket(w, e.market.key)
    && var m := MarketAt(w, e.market.key);
    && e.market.key == MarketPda(m.initializer, m.marketId)
    && IsDomain(w, e.domain.key) && e.domain.key == DomainPda(e.market.key)
    && IsFeeLedger(w, e.feeLedger.key) && e.feeLedger.key == FeeLedgerPda(e.market.key, m.mintA)
    && IsMint(w, m.mintA) && e.mintA.key == m.mintA && IsMint(w, m.mintB) && e.mintB.key == m.mintB
    && Holds(w, e.source.key, m.mintA) && Holds(w, e.destination.key, m.mintB)
    && Holds(w, e.vaultA.key, m.mintA) && e.vaultA.key == VaultPda(e.domain.key, 0)
    && TokenAt(w, e.vaultA.key).owner == e.domain.key
    && Holds(w, e.vaultB.key, m.mintB) && e.vaultB.key == VaultPda(e.domain.key, 1)
    && TokenAt(w, e.vaultB.key).owner == e.domain.key
    && Holds(w, e.feeVault.key, m.mintA) && e.feeVault.key == FeeVaultPda(e.feeLedger.key)
    && TokenAt(w, e.feeVault.key).owner == e.feeLedger.key
    && e.engineProgram.key == m.engineProgram && e.engineState.key == m.engineState
    && OwnerOf(w, m.engineState) == m.engineProgram && e.tokenProgram.key == TOKEN_PROGRAM
    && e.domain.isWritable && e.feeLedger.isWritable && e.source.isWritable && e.destination.isWritable
    && e.vaultA.isWritable && e.vaultB.isWritable && e.feeVault.isWritable && e.engineState.isWritable
  }

  predicate RolesDiffer(e: Envelope) {
    NoDuplicates([e.market.key, e.domain.key, e.feeLedger.key, e.mintA.key, e.mintB.key, e.source.key,
                  e.destination.key, e.vaultA.key, e.vaultB.key, e.feeVault.key, e.engineProgram.key,
                  e.engineState.key, e.spendAuthority.key, e.primaryCallback.key, e.commitCallback.key,
                  e.tokenProgram.key, CORE])
  }

  predicate ReadsOnly(e: Envelope) {
    && !e.market.isWritable && !e.mintA.isWritable && !e.mintB.isWritable && !e.engineProgram.isWritable
    && !e.spendAuthority.isWritable && !e.primaryCallback.isWritable && !e.commitCallback.isWritable
    && !e.tokenProgram.isWritable
  }

  predicate SignsNothing(e: Envelope) {
    && !e.market.isSigner && !e.domain.isSigner && !e.feeLedger.isSigner && !e.mintA.isSigner && !e.mintB.isSigner
    && !e.source.isSigner && !e.destination.isSigner && !e.vaultA.isSigner && !e.vaultB.isSigner
    && !e.feeVault.isSigner && !e.engineProgram.isSigner && !e.engineState.isSigner && !e.spendAuthority.isSigner
    && !e.primaryCallback.isSigner && !e.commitCallback.isSigner && !e.tokenProgram.isSigner
  }

  predicate EnvelopeInOrder(w: Store, e: Envelope) {
    && RolesDiffer(e) && ReadsOnly(e) && SignsNothing(e) && Executable(w, e.engineProgram.key)
    && !Executable(w, e.engineState.key) && !Executable(w, e.spendAuthority.key)
    && !Executable(w, e.primaryCallback.key) && !Executable(w, e.commitCallback.key)
  }

  predicate EnvelopeFault(w: Store, e: Envelope, fault: CoreError) {
    match fault
    case DuplicateAccountRole => !RolesDiffer(e)
    case EngineProgramNotExecutable => !Executable(w, e.engineProgram.key)
    case EngineStateExecutable => Executable(w, e.engineState.key)
    case UnexpectedWritablePrivilege => !ReadsOnly(e)
    case UnexpectedSignerPrivilege => !SignsNothing(e)
    case InvalidSpendAuthority => Executable(w, e.spendAuthority.key)
    case InvalidCallbackAuthority => Executable(w, e.primaryCallback.key) || Executable(w, e.commitCallback.key)
    case _ => false
  }

  lemma DeclaredExactly(w: Store, e: Envelope)
    ensures Constrained(w, e) <==> Declared(w, e)
  {
  }

  lemma EnvelopeFlags(e: Envelope)
    ensures NoDuplicates(EnvelopeKeys(e)) <==> RolesDiffer(e)
    ensures UnexpectedlyWritable(e) <==> !ReadsOnly(e)
    ensures UnexpectedlySigned(e) <==> !SignsNothing(e)
  {
    hide NoDuplicates;
  }

  lemma EnvelopesExactly(w: Store, e: Envelope)
    ensures EnvelopeVerdict(w, e).Ok? <==> EnvelopeInOrder(w, e)
    ensures EnvelopeVerdict(w, e).Err? ==> EnvelopeFault(w, e, EnvelopeVerdict(w, e).error)
  {
    hide NoDuplicates, EnvelopeKeys, RolesDiffer, ReadsOnly, SignsNothing, UnexpectedlyWritable, UnexpectedlySigned;
    EnvelopeFlags(e);
  }

  // ---- The amounts ----

  /** `fee` is three thousandths of the input, rounded up. */
  predicate IsFee(amountIn: u64, fee: u64) {
    (fee - 1) * 10_000 < amountIn * 30 <= fee * 10_000
  }

  predicate AmountsFit(args: Args, fee: u64, sourceAmount: u64, accountedB: u64) {
    && fee <= args.maxProtocolFee && args.amountIn + fee <= args.maxTotalInputDebit
    && args.amountIn + fee <= sourceAmount && args.minOutputCredit <= accountedB
  }

  predicate AmountFault(args: Args, fee: u64, sourceAmount: u64, accountedB: u64, fault: CoreError) {
    match fault
    case ProtocolFeeAboveUserMaximum => fee > args.maxProtocolFee
    case ArithmeticOverflow => args.amountIn + fee > U64_MAX
    case TotalDebitAboveUserMaximum => args.amountIn + fee > args.maxTotalInputDebit
    case InsufficientUserSourceBalance => sourceAmount < args.amountIn + fee
    case InsufficientAccountedLiquidity => accountedB < args.minOutputCredit
    case _ => false
  }

  lemma FeeExactly(amountIn: u64, fee: u64)
    requires amountIn > 0
    ensures IsFee(amountIn, fee) <==> fee == FeeOf(amountIn)
  {
    PathMath.FeeIsCeiling(amountIn, PROTOCOL_FEE_BPS);
  }

  lemma AmountsExactly(args: Args, sourceAmount: u64, accountedB: u64)
    requires args.amountIn > 0
    ensures var amounts, fee := AmountVerdict(args, sourceAmount, accountedB), FeeOf(args.amountIn);
            && IsFee(args.amountIn, fee)
            && (amounts.Ok? <==> AmountsFit(args, fee, sourceAmount, accountedB))
            && (amounts.Ok? ==> amounts.value == (fee, args.amountIn + fee))
            && (amounts.Err? ==> AmountFault(args, fee, sourceAmount, accountedB, amounts.error))
  {
    FeeExactly(args.amountIn, FeeOf(args.amountIn));
    hide FeeOf, IsFee;
  }

  // ---- The intent and its authorities ----

  /** The intent says what the execution is about to do, word by word. */
  predicate Tells(b: Intent, w: Store, ix: ExecuteIx, fee: u64)
    requires Declared(w, ix.e)
  {
    var e, args, m := ix.e, ix.args, MarketAt(w, ix.e.market.key);
    && b.timingMode == args.timingMode && b.coreProgram == CORE
    && b.market == e.market.key && b.domain == e.domain.key && b.engineProgram == e.engineProgram.key
    && b.engineState == e.engineState.key && b.userAuthority == TokenAt(w, e.source.key).owner
    && b.userInput == e.source.key && b.userOutput == e.destination.key
    && b.mintIn == e.mintA.key && b.mintOut == e.mintB.key
    && b.domainInputVault == e.vaultA.key && b.domainOutputVault == e.vaultB.key
    && b.protocolFeeVault == e.feeVault.key && b.feeLedger == e.feeLedger.key && b.tokenProgram == e.tokenProgram.key
    && b.engineRevision == m.engineRevision && b.feePolicyRevision == m.feePolicyRevision
    && b.amountIn == args.amountIn && b.protocolFee == fee && b.maxTotalInputDebit == args.maxTotalInputDebit
    && b.minOutputCredit == args.minOutputCredit && b.maxProtocolFee == args.maxProtocolFee
    && b.expiresAtSlot == args.expiresAtSlot && b.authorizationNonce == args.authorizationNonce
    && b.authorizedCapabilityHash == args.expectedCapabilityHash
    && b.payloadHash == Sha(PayloadPreimage(args.opaquePayload))
  }

  /** The spend address is of the source and of an intent that tells this execution. */
  predicate Addressed(w: Store, ix: ExecuteIx, fee: u64)
    requires Declared(w, ix.e)
  {
    && ix.e.spendAuthority.key.SpendPda? && ix.e.spendAuthority.key.source == ix.e.source.key
    && ix.e.spendAuthority.key.intent.Sha? && ix.e.spendAuthority.key.intent.preimage.IntentPreimage?
    && Tells(ix.e.spendAuthority.key.intent.preimage.intent, w, ix, fee)
  }

  /** The callback addresses are of the same intent, for the primary phase and for COMMIT. */
  predicate CalledBack(e: Envelope, intent: Digest, timingMode: byte) {
    && e.primaryCallback.key == CallbackPda(e.engineProgram.key, e.engineState.key, e.market.key, e.domain.key, intent,
                                            if timingMode == 0 then 0 else 1)
    && e.commitCallback.key == CallbackPda(e.engineProgram.key, e.engineState.key, e.market.key, e.domain.key,
                                           intent, 2)
  }

  /** And the source delegates exactly the total to the spend address. */
  predicate Delegates(t: TokenAccount, spendAuthority: Key, total: nat) {
    t.delegate == Some(spendAuthority) && t.delegatedAmount == total && t.closeAuthority == None
  }

  predicate DelegateFault(t: TokenAccount, spendAuthority: Key, total: nat, fault: CoreError) {
    match fault
    case InvalidSpendAuthority => t.delegate != Some(spendAuthority)
    case DelegatedAmountMismatch => t.delegatedAmount != total
    case TokenCloseAuthorityUnsupported => t.closeAuthority != None
    case _ => false
  }

  /** The committed hash is of the engine state and the closure, with the privileges united and authorized. */
  predicate HashCommitted(w: Store, ix: ExecuteIx) {
    var digest, e := ix.args.expectedCapabilityHash, ix.e;
    && digest.Sha? && digest.preimage.CapabilityPreimage? && digest.preimage.engineProgram == e.engineProgram.key
    && var ds := digest.preimage.descriptors;
    && |ds| == 1 + |ix.closure|
    && ds[0] == CapabilityDescriptor(e.engineState.key, e.engineProgram.key, true, false, false)
    && forall i :: 0 <= i < |ix.closure| ==> ds[i + 1] == United(w, ix.closure, ix.closure[i].key)
  }

  /** A closure address with its privileges united over the list. */
  function United(w: Store, closure: seq<AccountMeta>, k: Key): Descriptor {
    CapabilityDescriptor(k, OwnerOf(w, k), WritableIn(closure, k), false, Executable(w, k))
  }

  lemma OpaquesUnited(w: Store, ix: ExecuteIx)
    ensures var opaques := OpaqueDescriptors(Loaded(w, ix.closure), EnvelopeKeys(ix.e));
            opaques.Ok? ==>
              && |opaques.value| == |ix.closure|
              && forall i :: 0 <= i < |ix.closure| ==> opaques.value[i] == United(w, ix.closure, ix.closure[i].key)
  {
    hide OpaqueDescriptors, Loaded, EnvelopeKeys;
    if OpaqueDescriptors(Loaded(w, ix.closure), EnvelopeKeys(ix.e)).Ok? {
      AcceptedClosure(w, ix.closure, EnvelopeKeys(ix.e));
    }
  }

  lemma HashesExactly(w: Store, ix: ExecuteIx, opaques: seq<Descriptor>)
    requires |opaques| == |ix.closure|
    requires forall i :: 0 <= i < |ix.closure| ==> opaques[i] == United(w, ix.closure, ix.closure[i].key)
    ensures CapabilityHash(ix.e.engineProgram.key,
                           PhaseDescriptors(ix.e.engineState.key, ix.e.engineProgram.key, opaques, true))
            == ix.args.expectedCapabilityHash
            <==> HashCommitted(w, ix)
  {
    hide United;
    var ds := PhaseDescriptors(ix.e.engineState.key, ix.e.engineProgram.key, opaques, true);
    forall i | 0 <= i < |ix.closure| ensures ds[i + 1] == United(w, ix.closure, ix.closure[i].key) {
    }
    if HashCommitted(w, ix) {
      assert ix.args.expectedCapabilityHash.preimage.descriptors == ds;
    }
  }

  lemma AddressedExactly(w: Store, ix: ExecuteIx, fee: u64)
    requires Declared(w, ix.e) && Constrained(w, ix.e)
    ensures var intent := RebuiltIntent(w, ix, fee, ix.args.expectedCapabilityHash);
            && Tells(intent, w, ix, fee)
            && (ix.e.spendAuthority.key == SpendPda(ix.e.source.key, IntentDigest(intent)) <==>
                  Addressed(w, ix, fee))
  {
    hide Constrained, Declared;
  }

  lemma CallbacksExactly(e: Envelope, intent: Intent, timingMode: byte)
    ensures CalledBack(e, IntentDigest(intent), timingMode) <==>
              && e.primaryCallback.key == CallbackFor(e, intent, if timingMode == 0 then 0 else 1)
              && e.commitCallback.key == CallbackFor(e, intent, PHASE_COMMIT)
  {
  }

  lemma DelegatesExactly(t: TokenAccount, spendAuthority: Key, total: u64)
    ensures var verdict := DelegateVerdict(t, spendAuthority, total);
            && (verdict.Ok? <==> Delegates(t, spendAuthority, total))
            && (verdict.Err? ==> DelegateFault(t, spendAuthority, total, verdict.error))
  {
  }

  // ---- Admission ----

  /** The envelope, the arguments and the closure are in order. */
  predicate Presentable(w: Store, ix: ExecuteIx, slot: u64) {
    && Declared(w, ix.e) && |ix.args.opaquePayload| <= 128 && ix.args.timingMode <= 1 && 0 < ix.args.amountIn
    && slot <= ix.args.expiresAtSlot && EnvelopeInOrder(w, ix.e)
  }

  /** And so are amounts, hash and authorities, for a fee. */
  predicate Authorized(w: Store, ix: ExecuteIx, fee: u64)
    requires Declared(w, ix.e)
  {
    && IsFee(ix.args.amountIn, fee)
    && AmountsFit(ix.args, fee, TokenAt(w, ix.e.source.key).amount, DomainAt(w, ix.e.domain.key).accountedB)
    && ClosureOpaque(w, ix.closure, EnvelopeKeys(ix.e)) && HashCommitted(w, ix) && Addressed(w, ix, fee)
    && Delegates(TokenAt(w, ix.e.source.key), ix.e.spendAuthority.key, ix.args.amountIn + fee)
    && CalledBack(ix.e, ix.e.spendAuthority.key.intent, ix.args.timingMode)
  }

  /** What admission fixes: fee, total, the closure's united descriptors, and the intent of the spend address. */
  predicate Fixes(w: Store, ix: ExecuteIx, adm: Admission)
    requires Declared(w, ix.e)
  {
    && adm.phase == (if ix.args.timingMode == 0 then 0 else 1) && adm.total == ix.args.amountIn + adm.fee
    && |adm.opaques| == |ix.closure|
    && (forall i :: 0 <= i < |ix.closure| ==> adm.opaques[i] == United(w, ix.closure, ix.closure[i].key))
    && ix.e.spendAuthority.key == SpendPda(ix.e.source.key, Sha(IntentPreimage(adm.intent)))
    && ix.args.expectedCapabilityHash == Sha(CapabilityPreimage(ix.e.engineProgram.key, adm.authorized))
  }

  predicate SpendFault(w: Store, ix: ExecuteIx, fee: u64, fault: CoreError)
    requires Declared(w, ix.e)
  {
    || DelegateFault(TokenAt(w, ix.e.source.key), ix.e.spendAuthority.key, ix.args.amountIn + fee, fault)
    || (fault == CapabilityHashExpectationMismatch && !HashCommitted(w, ix))
    || (fault == InvalidSpendAuthority && !Addressed(w, ix, fee))
    || (&& fault == InvalidCallbackAuthority && Addressed(w, ix, fee)
        && !CalledBack(ix.e, ix.e.spendAuthority.key.intent, ix.args.timingMode))
  }

  predicate AuthorityFault(w: Store, ix: ExecuteIx, fee: u64, fault: CoreError)
    requires Declared(w, ix.e)
  {
    || AmountFault(ix.args, fee, TokenAt(w, ix.e.source.key).amount, DomainAt(w, ix.e.domain.key).accountedB, fault)
    || ClosureFault(w, ix.closure, EnvelopeKeys(ix.e), fault)
    || SpendFault(w, ix, fee, fault)
  }

  predicate RolesFault(w: Store, ix: ExecuteIx, slot: u64, fault: CoreError) {
    || EnvelopeFault(w, ix.e, fault)
    || match fault
       case AccountConstraint => !Declared(w, ix.e)
       case OpaquePayloadTooLarge => |ix.args.opaquePayload| > 128
       case UnsupportedTimingMode => ix.args.timingMode > 1
       case ZeroAmount => ix.args.amountIn == 0
       case RequestExpired => slot > ix.args.expiresAtSlot
       case _ => false
  }

  lemma PresentableExactly(w: Store, ix: ExecuteIx, slot: u64)
    ensures var phase := RolesVerdict(w, ix, slot);
            && (phase.Ok? <==> Presentable(w, ix, slot))
            && (phase.Ok? ==> phase.value == if ix.args.timingMode == 0 then 0 else 1)
            && (phase.Err? ==> RolesFault(w, ix, slot, phase.error))
  {
    hide Constrained, Declared, EnvelopeVerdict, EnvelopeInOrder, EnvelopeFault;
    DeclaredExactly(w, ix.e);
    EnvelopesExactly(w, ix.e);
  }

  lemma DeclaredKinds(w: Store, e: Envelope)
    requires Declared(w, e)
    ensures IsMarket(w, e.market.key) && IsToken(w, e.source.key) && IsDomain(w, e.domain.key)
  {
  }

  lemma AuthorizedExactly(w: Store, ix: ExecuteIx, phase: byte)
    requires Declared(w, ix.e) && Constrained(w, ix.e) && ix.args.amountIn > 0
    requires phase == if ix.args.timingMode == 0 then 0 else 1
    ensures var adm, fee := AuthorityVerdict(w, ix, phase), FeeOf(ix.args.amountIn);
            && (adm.Ok? <==> Authorized(w, ix, fee))
            && (adm.Ok? ==> adm.value.fee == fee && Fixes(w, ix, adm.value) && Tells(adm.value.intent, w, ix, fee))
  {
    hide Constrained, Declared, AmountVerdict, AmountsFit, AmountFault, IsFee, FeeOf, OpaqueDescriptors, Loaded,
         EnvelopeKeys, ClosureOpaque, ClosureFault, PhaseDescriptors, HashCommitted, Addressed, Tells, RebuiltIntent,
         United, DelegateVerdict, Delegates, DelegateFault, CalledBack, CallbackFor;
    var fee := FeeOf(ix.args.amountIn);
    DeclaredKinds(w, ix.e);
    AmountsExactly(ix.args, TokenAt(w, ix.e.source.key).amount, DomainAt(w, ix.e.domain.key).accountedB);
    ClosuresExactly(w, ix.closure, EnvelopeKeys(ix.e));
    OpaquesUnited(w, ix);
    var opaques := OpaqueDescriptors(Loaded(w, ix.closure), EnvelopeKeys(ix.e));
    if opaques.Ok? {
      HashesExactly(w, ix, opaques.value);
    }
    var intent := RebuiltIntent(w, ix, fee, ix.args.expectedCapabilityHash);
    AddressedExactly(w, ix, fee);
    if ix.args.amountIn + fee <= U64_MAX {
      DelegatesExactly(TokenAt(w, ix.e.source.key), ix.e.spendAuthority.key, ix.args.amountIn + fee);
    }
    CallbacksExactly(ix.e, intent, ix.args.timingMode);
  }

  lemma SpendFaulted(w: Store, ix: ExecuteIx, phase: byte, fee: u64, opaques: seq<Descriptor>)
    requires Declared(w, ix.e) && Constrained(w, ix.e) && ix.args.amountIn + fee <= U64_MAX
    requires phase == if ix.args.timingMode == 0 then 0 else 1
    requires |opaques| == |ix.closure|
    requires forall i :: 0 <= i < |ix.closure| ==> opaques[i] == United(w, ix.closure, ix.closure[i].key)
    ensures var adm := SpendVerdict(w, ix, phase, fee, ix.args.amountIn + fee, opaques);
            adm.Err? ==> SpendFault(w, ix, fee, adm.error)
  {
    hide Constrained, Declared, PhaseDescriptors, HashCommitted, Addressed, Tells, RebuiltIntent, United,
         DelegateVerdict, Delegates, DelegateFault, CalledBack, CallbackFor, IntentDigest, CapabilityHash;
    DeclaredKinds(w, ix.e);
    HashesExactly(w, ix, opaques);
    AddressedExactly(w, ix, fee);
    DelegatesExactly(TokenAt(w, ix.e.source.key), ix.e.spendAuthority.key, ix.args.amountIn + fee);
    CallbacksExactly(ix.e, RebuiltIntent(w, ix, fee, ix.args.expectedCapabilityHash), ix.args.timingMode);
  }

  lemma AuthorityFaulted(w: Store, ix: ExecuteIx, phase: byte)
    requires Declared(w, ix.e) && Constrained(w, ix.e) && ix.args.amountIn > 0
    requires phase == if ix.args.timingMode == 0 then 0 else 1
    ensures var adm := AuthorityVerdict(w, ix, phase);
            adm.Err? ==> AuthorityFault(w, ix, FeeOf(ix.args.amountIn), adm.error)
  {
    hide Constrained, Declared, AmountVerdict, AmountsFit, AmountFault, IsFee, FeeOf, OpaqueDescriptors, Loaded,
         EnvelopeKeys, ClosureOpaque, ClosureFault, SpendVerdict, SpendFault, United;
    DeclaredKinds(w, ix.e);
    var fee, sourceAmount := FeeOf(ix.args.amountIn), TokenAt(w, ix.e.source.key).amount;
    var amounts := AmountVerdict(ix.args, sourceAmount, DomainAt(w, ix.e.domain.key).accountedB);
    AmountsExactly(ix.args, sourceAmount, DomainAt(w, ix.e.domain.key).accountedB);
    var opaques := OpaqueDescriptors(Loaded(w, ix.closure), EnvelopeKeys(ix.e));
    ClosuresExactly(w, ix.closure, EnvelopeKeys(ix.e));
    OpaquesUnited(w, ix);
    if amounts.Ok? && opaques.Ok? {
      SpendFaulted(w, ix, phase, fee, opaques.value);
    }
  }

  /**
   * Admission, exactly: an execution reaches its engine if and only if envelope, arguments, closure, amounts
   * and authorities are in order, all of it for the one fee there is.
   */
  lemma AdmitsExactly(w: Store, ix: ExecuteIx, slot: u64, fee: u64)
    requires ix.args.amountIn > 0 ==> IsFee(ix.args.amountIn, fee)
    ensures Admit(w, ix, slot).Ok? <==> Presentable(w, ix, slot) && Authorized(w, ix, fee)
    ensures Admit(w, ix, slot).Ok? ==>
              var adm := Admit(w, ix, slot).value;
              adm.fee == fee && Fixes(w, ix, adm) && Tells(adm.intent, w, ix, fee)
    ensures Admit(w, ix, slot).Err? ==>
              var fault := Admit(w, ix, slot).error;
              RolesFault(w, ix, slot, fault) || (Declared(w, ix.e) && AuthorityFault(w, ix, fee, fault))
  {
    hide Constrained, Declared, RolesVerdict, AuthorityVerdict, Authorized, AuthorityFault, RolesFault, IsFee, FeeOf,
         Fixes, Tells, EnvelopeInOrder;
    DeclaredExactly(w, ix.e);
    PresentableExactly(w, ix, slot);
    if Presentable(w, ix, slot) {
      FeeExactly(ix.args.amountIn, fee);
      AuthorizedExactly(w, ix, if ix.args.timingMode == 0 then 0 else 1);
      AuthorityFaulted(w, ix, if ix.args.timingMode == 0 then 0 else 1);
    }
  }
}
