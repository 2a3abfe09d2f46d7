/**
 * The settlement program's instructions as functions of the store, and the invariant of the store.
 * These specifications leave out every check that the invariant makes redundant; module Program
 * keeps all of them and shows that the two agree, so the checks left out here can never fire.
 */
module Core {
  import opened Base
  import opened Bindings
  import opened Keys
  import opened Ledger
  import opened Errors
  import opened Capabilities
  import opened PlanEngine
  import opened Runtime
  import FixedMath
  import PathMath

  // ---- The invariant ----

  function VaultA(market: Key): Key { VaultPda(DomainPda(market), ASSET_A) }
  function VaultB(market: Key): Key { VaultPda(DomainPda(market), ASSET_B) }

  function LedgerOf(w: Store, market: Key): Key
    requires IsMarket(w, market)
  {
    FeeLedgerPda(market, MarketAt(w, market).mintA)
  }

  function FeeVault(w: Store, market: Key): Key
    requires IsMarket(w, market)
  {
    FeeVaultPda(LedgerOf(w, market))
  }

  /** A mint whose accounts nobody can freeze. */
  predicate MintOk(w: Store, mint: Key) {
    IsMint(w, mint) && !w[mint].data.hasFreezeAuthority && mint != NATIVE_MINT
  }

  /** A vault holds at least what it accounts for, and nobody but its authority can move or close it. */
  predicate VaultOk(w: Store, vault: Key, mint: Key, authority: Key, accounted: nat) {
    && IsToken(w, vault)
    && TokenAt(w, vault) == TokenAccount(mint, authority, TokenAt(w, vault).amount, None, 0, None)
    && accounted <= TokenAt(w, vault).amount
  }

  predicate DomainMatches(w: Store, market: Key)
    requires IsMarket(w, market)
  {
    var m := MarketAt(w, market);
    && IsDomain(w, DomainPda(market))
    && var d := DomainAt(w, DomainPda(market));
       d == Domain(EXPERIMENT_VERSION, market, m.engineProgram, m.engineState, m.engineRevision, d.accountedA,
                   d.accountedB)
  }

  predicate FeeLedgerMatches(w: Store, market: Key)
    requires IsMarket(w, market)
  {
    && IsFeeLedger(w, LedgerOf(w, market))
    && var f := FeeLedgerAt(w, LedgerOf(w, market));
       f == FeeLedger(EXPERIMENT_VERSION, market, MarketAt(w, market).mintA, f.accountedFeeA)
  }

  /** A market with its domain, fee ledger and three solvent vaults. */
  predicate MarketOk(w: Store, market: Key)
    requires IsMarket(w, market)
  {
    var m := MarketAt(w, market);
    && market == MarketPda(m.initializer, m.marketId)
    && m.version == EXPERIMENT_VERSION && m.feeBps == PROTOCOL_FEE_BPS && m.feePolicyRevision == FEE_POLICY_REVISION
    && m.engineProgram != CORE && m.engineProgram != TOKEN_PROGRAM
    && m.mintA != m.mintB && MintOk(w, m.mintA) && MintOk(w, m.mintB)
    && DomainMatches(w, market) && FeeLedgerMatches(w, market)
    && var d := DomainAt(w, DomainPda(market));
    && VaultOk(w, VaultA(market), m.mintA, DomainPda(market), d.accountedA)
    && VaultOk(w, VaultB(market), m.mintB, DomainPda(market), d.accountedB)
    && VaultOk(w, FeeVault(w, market), m.mintA, LedgerOf(w, market), FeeLedgerAt(w, LedgerOf(w, market)).accountedFeeA)
  }

  /** Nobody holds an account at a spend or callback address, and program data is never executable. */
  predicate Placed(k: Key, a: Account) {
    && !k.SpendPda? && !k.CallbackPda?
    && (a.owner == CORE || a.owner == TOKEN_PROGRAM || a.owner == PLAN_ENGINE ==> !a.executable)
  }

  predicate TokenOk(w: Store, k: Key)
    requires IsToken(w, k)
  {
    IsMint(w, TokenAt(w, k).mint) && (TokenAt(w, k).delegate == None ==> TokenAt(w, k).delegatedAmount == 0)
  }

  ghost predicate SupplyOk(w: Store, mint: Key)
    requires IsMint(w, mint)
  {
    Total(w, mint) == w[mint].data.supply
  }

  /** The invariant of every run. */
  ghost predicate Inv(w: Store) {
    && (forall k :: k in w ==> Placed(k, w[k]))
    && (forall k :: IsToken(w, k) ==> TokenOk(w, k))
    && (forall k :: IsMint(w, k) ==> SupplyOk(w, k))
    && (forall k :: IsMarket(w, k) ==> MarketOk(w, k))
  }

  // ---- The execute instruction's inputs ----

  datatype Args = Args(
    amountIn: u64, maxTotalInputDebit: u64, minOutputCredit: u64, maxProtocolFee: u64, expiresAtSlot: u64,
    authorizationNonce: Digest, expectedEngineSequence: u64, timingMode: byte, expectedCapabilityHash: Digest,
    opaquePayload: seq<byte>)

  datatype Envelope = Envelope(
    market: AccountMeta, domain: AccountMeta, feeLedger: AccountMeta, mintA: AccountMeta, mintB: AccountMeta,
    source: AccountMeta, destination: AccountMeta, vaultA: AccountMeta, vaultB: AccountMeta, feeVault: AccountMeta,
    engineProgram: AccountMeta, engineState: AccountMeta, spendAuthority: AccountMeta,
    primaryCallback: AccountMeta, commitCallback: AccountMeta, tokenProgram: AccountMeta)

  datatype ExecuteIx = ExecuteIx(e: Envelope, closure: seq<AccountMeta>, args: Args)

  function EnvelopeMetas(e: Envelope): (metas: seq<AccountMeta>)
    ensures |metas| == 16
  {
    [e.market, e.domain, e.feeLedger, e.mintA, e.mintB, e.source, e.destination, e.vaultA, e.vaultB, e.feeVault,
     e.engineProgram, e.engineState, e.spendAuthority, e.primaryCallback, e.commitCallback, e.tokenProgram]
  }

  /** The sixteen envelope addresses and the program itself: the roles that may not alias. */
  function EnvelopeKeys(e: Envelope): (keys: seq<Key>)
    ensures |keys| == 17
  {
    [e.market.key, e.domain.key, e.feeLedger.key, e.mintA.key, e.mintB.key, e.source.key, e.destination.key,
     e.vaultA.key, e.vaultB.key, e.feeVault.key, e.engineProgram.key, e.engineState.key, e.spendAuthority.key,
     e.primaryCallback.key, e.commitCallback.key, e.tokenProgram.key, CORE]
  }

  /** Anchor's constraints on the envelope: address, owner, type, mint, authority and mutability. */
  predicate Constrained(w: Store, e: Envelope) {
    && IsMarket(w, e.market.key)
    && var m := MarketAt(w, e.market.key);
    && e.market.key == MarketPda(m.initializer, m.marketId)
    && e.domain.isWritable && IsDomain(w, e.domain.key) && e.domain.key == DomainPda(e.market.key)
    && e.feeLedger.isWritable && IsFeeLedger(w, e.feeLedger.key)
    && e.feeLedger.key == FeeLedgerPda(e.market.key, e.mintA.key)
    && e.mintA.key == m.mintA && IsMint(w, e.mintA.key)
    && e.mintB.key == m.mintB && IsMint(w, e.mintB.key)
    && e.source.isWritable && IsToken(w, e.source.key) && TokenAt(w, e.source.key).mint == e.mintA.key
    && e.destination.isWritable && IsToken(w, e.destination.key) && TokenAt(w, e.destination.key).mint == e.mintB.key
    && ConstrainedVault(w, e.vaultA, VaultPda(e.domain.key, ASSET_A), e.mintA.key, e.domain.key)
    && ConstrainedVault(w, e.vaultB, VaultPda(e.domain.key, ASSET_B), e.mintB.key, e.domain.key)
    && ConstrainedVault(w, e.feeVault, FeeVaultPda(e.feeLedger.key), e.mintA.key, e.feeLedger.key)
    && e.engineProgram.key == m.engineProgram
    && e.engineState.isWritable && e.engineState.key == m.engineState
    && OwnerOf(w, e.engineState.key) == m.engineProgram
    && e.tokenProgram.key == TOKEN_PROGRAM
  }

  predicate ConstrainedVault(w: Store, vault: AccountMeta, address: Key, mint: Key, authority: Key) {
    && vault.isWritable && vault.key == address && IsToken(w, vault.key)
    && TokenAt(w, vault.key).mint == mint && TokenAt(w, vault.key).owner == authority
  }

  predicate UnexpectedlyWritable(e: Envelope) {
    || e.market.isWritable || e.mintA.isWritable || e.mintB.isWritable || e.engineProgram.isWritable
    || e.spendAuthority.isWritable || e.primaryCallback.isWritable || e.commitCallback.isWritable
    || e.tokenProgram.isWritable
  }

  predicate UnexpectedlySigned(e: Envelope) {
    || e.market.isSigner || e.domain.isSigner || e.feeLedger.isSigner || e.mintA.isSigner || e.mintB.isSigner
    || e.source.isSigner || e.destination.isSigner || e.vaultA.isSigner || e.vaultB.isSigner || e.feeVault.isSigner
    || e.engineProgram.isSigner || e.engineState.isSigner || e.spendAuthority.isSigner
    || e.primaryCallback.isSigner || e.commitCallback.isSigner || e.tokenProgram.isSigner
  }

  // ---- Admission: every check before the engine is called ----

  function PrimaryPhase(timingMode: byte): Result<byte, CoreError> {
    if timingMode == TIMING_SINGLE then Ok(PHASE_TRANSITION)
    else if timingMode == TIMING_PREPARE_COMMIT then Ok(PHASE_PREPARE)
    else Err(CoreError.UnsupportedTimingMode)
  }

  /** The protocol fee of a market: at least one unit, at most the input. */
  function FeeOf(amountIn: u64): (fee: u64)
    requires amountIn > 0
    ensures 1 <= fee <= amountIn
    ensures FixedMath.FeeCeil(amountIn, PROTOCOL_FEE_BPS) == Ok(fee)
  {
    PathMath.FeeIsCeiling(amountIn, PROTOCOL_FEE_BPS);
    FixedMath.FeeCeil(amountIn, PROTOCOL_FEE_BPS).value
  }

  function EnvelopeVerdict(w: Store, e: Envelope): Result<(), CoreError> {
    if !NoDuplicates(EnvelopeKeys(e)) then Err(DuplicateAccountRole)
    else if !Executable(w, e.engineProgram.key) then Err(EngineProgramNotExecutable)
    else if Executable(w, e.engineState.key) then Err(EngineStateExecutable)
    else if UnexpectedlyWritable(e) then Err(UnexpectedWritablePrivilege)
    else if UnexpectedlySigned(e) then Err(UnexpectedSignerPrivilege)
    else if Executable(w, e.spendAuthority.key) then Err(InvalidSpendAuthority)
    else if Executable(w, e.primaryCallback.key) || Executable(w, e.commitCallback.key) then
      Err(InvalidCallbackAuthority)
    else Ok(())
  }

  /** What admission fixes for the rest of the instruction. */
  datatype Admission = Admission(
    phase: byte, fee: u64, total: u64, opaques: seq<Descriptor>, authorized: seq<Descriptor>, intent: Intent)

  /** The 27-field intent the instruction rebuilds from what it observes. */
  function RebuiltIntent(w: Store, ix: ExecuteIx, fee: u64, capabilityHash: Digest): Intent
    requires Constrained(w, ix.e)
  {
    var e, args := ix.e, ix.args;
    var m := MarketAt(w, e.market.key);
    IntentBinding(
      args.timingMode, CORE, e.market.key, e.domain.key, e.engineProgram.key, e.engineState.key,
      TokenAt(w, e.source.key).owner, e.source.key, e.destination.key, e.mintA.key, e.mintB.key,
      e.vaultA.key, e.vaultB.key, e.feeVault.key, e.feeLedger.key, e.tokenProgram.key,
      m.engineRevision, m.feePolicyRevision, args.amountIn, fee,
      args.maxTotalInputDebit, args.minOutputCredit, args.maxProtocolFee, args.expiresAtSlot,
      args.authorizationNonce, capabilityHash, Sha(PayloadPreimage(args.opaquePayload)))
  }

  function IntentDigest(intent: Intent): Digest { Sha(IntentPreimage(intent)) }

  function CapabilityHash(program: Key, ds: seq<Descriptor>): Digest { Sha(CapabilityPreimage(program, ds)) }

  function CallbackFor(e: Envelope, intent: Intent, phase: byte): Key {
    CallbackPda(e.engineProgram.key, e.engineState.key, e.market.key, e.domain.key, IntentDigest(intent), phase)
  }

  function DelegateVerdict(t: TokenAccount, spendAuthority: Key, total: u64): Result<(), CoreError> {
    if t.delegate != Some(spendAuthority) then Err(InvalidSpendAuthority)
    else if t.delegatedAmount != total then Err(DelegatedAmountMismatch)
    else if t.closeAuthority != None then Err(TokenCloseAuthorityUnsupported)
    else Ok(())
  }

  /** The guards on the amounts: the fee and the total debit, or the first violated bound. */
  function AmountVerdict(args: Args, sourceAmount: u64, accountedB: u64): Result<(u64, u64), CoreError>
    requires args.amountIn > 0
  {
    var fee := FeeOf(args.amountIn);
    if fee > args.maxProtocolFee then Err(ProtocolFeeAboveUserMaximum)
    else if args.amountIn + fee > U64_MAX then Err(ArithmeticOverflow)
    else if args.amountIn + fee > args.maxTotalInputDebit then Err(TotalDebitAboveUserMaximum)
    else if sourceAmount < args.amountIn + fee then Err(InsufficientUserSourceBalance)
    else if accountedB < args.minOutputCredit then Err(InsufficientAccountedLiquidity)
    else Ok((fee, args.amountIn + fee))
  }

  /** The first half of admission: constraints, arguments, envelope; the primary phase they select. */
  function RolesVerdict(w: Store, ix: ExecuteIx, slot: u64): Result<byte, CoreError> {
    if !Constrained(w, ix.e) then Err(AccountConstraint) else
    :- Need(|ix.args.opaquePayload| <= MAX_OPAQUE_PAYLOAD_LEN, OpaquePayloadTooLarge);
    var phase :- PrimaryPhase(ix.args.timingMode);
    :- Need(ix.args.amountIn > 0, CoreError.ZeroAmount);
    :- Need(slot <= ix.args.expiresAtSlot, RequestExpired);
    var _ :- EnvelopeVerdict(w, ix.e);
    Ok(phase)
  }

  /** The authorities of the rebuilt intent: spend address, delegate and callbacks, under the committed closure. */
  function SpendVerdict(w: Store, ix: ExecuteIx, phase: byte, fee: u64, total: u64, opaques: seq<Descriptor>)
    : Result<Admission, CoreError>
    requires Constrained(w, ix.e)
  {
    var e, args := ix.e, ix.args;
    var authorized := PhaseDescriptors(e.engineState.key, e.engineProgram.key, opaques, true);
    var capabilityHash := CapabilityHash(e.engineProgram.key, authorized);
    if capabilityHash != args.expectedCapabilityHash then Err(CapabilityHashExpectationMismatch) else
    var intent := RebuiltIntent(w, ix, fee, capabilityHash);
    var spendAuthority := SpendPda(e.source.key, IntentDigest(intent));
    :- Need(e.spendAuthority.key == spendAuthority, InvalidSpendAuthority);
    var _ :- DelegateVerdict(TokenAt(w, e.source.key), spendAuthority, total);
    :- Need(e.primaryCallback.key == CallbackFor(e, intent, phase), InvalidCallbackAuthority);
    :- Need(e.commitCallback.key == CallbackFor(e, intent, PHASE_COMMIT), InvalidCallbackAuthority);
    Ok(Admission(phase, fee, total, opaques, authorized, intent))
  }

  /** The second half: amounts, closure and authorities. */
  function AuthorityVerdict(w: Store, ix: ExecuteIx, phase: byte): Result<Admission, CoreError>
    requires Constrained(w, ix.e) && ix.args.amountIn > 0
  {
    var e, source := ix.e, TokenAt(w, ix.e.source.key);
    var amounts :- AmountVerdict(ix.args, source.amount, DomainAt(w, e.domain.key).accountedB);
    var opaques :- OpaqueDescriptors(Loaded(w, ix.closure), EnvelopeKeys(e));
    SpendVerdict(w, ix, phase, amounts.0, amounts.1, opaques)
  }

  function Admit(w: Store, ix: ExecuteIx, slot: u64): Result<Admission, CoreError> {
    var phase :- RolesVerdict(w, ix, slot);
    AuthorityVerdict(w, ix, phase)
  }

  // ---- The engine phases ----

  /** The request of a phase, from the accounting cached when the instruction began. */
  function RequestFor(w: Store, ix: ExecuteIx, adm: Admission, phase: byte, context: Digest, preSequence: u64): Request
    requires Constrained(w, ix.e) && |ix.args.opaquePayload| <= MAX_OPAQUE_PAYLOAD_LEN
    requires |ix.closure| <= MAX_OPAQUE_ACCOUNTS
  {
    var e, args := ix.e, ix.args;
    var d := DomainAt(w, e.domain.key);
    var b := ExecutionBinding(
      phase, IntentDigest(adm.intent), context, e.market.key, e.domain.key, MarketAt(w, e.market.key).engineRevision,
      args.amountIn, adm.fee, d.accountedA, d.accountedB, FeeLedgerAt(w, e.feeLedger.key).accountedFeeA, preSequence,
      CapabilityHash(e.engineProgram.key, adm.authorized),
      CapabilityHash(e.engineProgram.key,
                     PhaseDescriptors(e.engineState.key, e.engineProgram.key, adm.opaques, phase != PHASE_PREPARE)),
      |ix.closure|, |args.opaquePayload|, Padded(args.opaquePayload));
    EngineRequest(b, Sha(ExecutionPreimage(b)))
  }

  /** The engine CPI of a phase: the state, the phase's callback as signer, the closure positions. */
  function CallFor(e: Envelope, adm: Admission, request: Request): PhaseCall {
    var phase := request.binding.phase;
    var metas := PhaseMetas(e.engineState.key, CallbackFor(e, adm.intent, phase),
      PhaseDescriptors(e.engineState.key, e.engineProgram.key, adm.opaques,
                       phase != PHASE_PREPARE)[1..], phase != PHASE_PREPARE);
    PhaseCall(phase, metas[0], metas[1], metas[2..], request)
  }

  /** The return data as the caller reads it. */
  function ReceiptFrom(program: Key, returned: Option<ReturnData>): Result<Receipt, CoreError> {
    match returned
    case None => Err(MissingEngineReceipt)
    case Some(data) =>
      if data.setter != program then Err(InvalidEngineReceiptSetter)
      else if data.receipt == None then Err(InvalidEngineReceipt)
      else Ok(data.receipt.value)
  }

  function ReceiptBinds(receipt: Receipt, request: Request): Result<(), CoreError> {
    if receipt.phase != request.binding.phase then Err(EngineReceiptPhaseMismatch)
    else if receipt.intentDigest != request.binding.intentDigest then Err(EngineReceiptIntentMismatch)
    else if receipt.executionDigest != request.executionDigest then Err(EngineReceiptExecutionMismatch)
    else Ok(())
  }

  /** One engine phase: the store it leaves and the receipt bound to its request. */
  function Phase(w: Store, e: Envelope, adm: Admission, request: Request, outcome: EngineOutcome)
    : Result<(Store, Receipt), CoreError>
  {
    match InvokeEngine(w, e.engineProgram.key, CallFor(e, adm, request), outcome)
    case Err(error) => Err(EngineFailed(error))
    case Ok(done) =>
      var receipt :- ReceiptFrom(e.engineProgram.key, done.returned);
      var _ :- ReceiptBinds(receipt, request);
      Ok((done.store, receipt))
  }

  function SequenceVerdict(phase: byte, expected: u64, actual: u64): Result<(), CoreError> {
    if phase == PHASE_PREPARE then
      if actual == expected then Ok(()) else Err(PrepareSequenceChanged)
    else if expected == U64_MAX then Err(ArithmeticOverflow)
    else if actual == expected + 1 then Ok(()) else Err(TransitionSequenceMismatch)
  }

  function OutputVerdict(amountOut: u64, minimum: u64, liquidity: u64): Result<(), CoreError> {
    if amountOut == 0 then Err(CoreError.ZeroAmount)
    else if amountOut < minimum then Err(OutputBelowUserMinimum)
    else if amountOut > liquidity then Err(InsufficientAccountedLiquidity)
    else Ok(())
  }

  /** TRANSITION or PREPARE, and every check on its receipt. */
  function Primary(w: Store, ix: ExecuteIx, adm: Admission, outcome: EngineOutcome): Result<(Store, Receipt), CoreError>
    requires Constrained(w, ix.e) && |ix.args.opaquePayload| <= MAX_OPAQUE_PAYLOAD_LEN
    requires |ix.closure| <= MAX_OPAQUE_ACCOUNTS
  {
    hide InvokeEngine;
    var done :- Phase(w, ix.e, adm, RequestFor(w, ix, adm, adm.phase, ZERO, ix.args.expectedEngineSequence), outcome);
    var _ :- SequenceVerdict(adm.phase, ix.args.expectedEngineSequence, done.1.stateSequence);
    var _ :- OutputVerdict(done.1.amountOut, ix.args.minOutputCredit, DomainAt(w, ix.e.domain.key).accountedB);
    Ok(done)
  }

  /** COMMIT, and every check on its receipt against the primary one. */
  function Commit(w: Store, settled: Store, ix: ExecuteIx, adm: Admission, primary: Receipt, context: Digest,
                  outcome: EngineOutcome)
    : Result<Store, CoreError>
    requires Constrained(w, ix.e) && |ix.args.opaquePayload| <= MAX_OPAQUE_PAYLOAD_LEN
    requires |ix.closure| <= MAX_OPAQUE_ACCOUNTS
  {
    hide InvokeEngine;
    var done :- Phase(settled, ix.e, adm, RequestFor(w, ix, adm, PHASE_COMMIT, context, primary.stateSequence),
                      outcome);
    :- Need(done.1.amountOut == primary.amountOut, CommitOutputMismatch);
    :- Need(primary.stateSequence < U64_MAX, ArithmeticOverflow);
    :- Need(done.1.stateSequence == primary.stateSequence + 1, CommitSequenceMismatch);
    Ok(done.0)
  }

  // ---- Settlement ----

  predicate CanSettle(w: Store, e: Envelope, amountIn: u64, fee: u64, amountOut: u64) {
    && IsToken(w, e.source.key) && amountIn + fee <= TokenAt(w, e.source.key).amount
    && IsToken(w, e.vaultA.key) && TokenAt(w, e.vaultA.key).amount + amountIn <= U64_MAX
    && IsToken(w, e.feeVault.key) && TokenAt(w, e.feeVault.key).amount + fee <= U64_MAX
    && IsToken(w, e.vaultB.key) && amountOut <= TokenAt(w, e.vaultB.key).amount
    && IsToken(w, e.destination.key) && TokenAt(w, e.destination.key).amount + amountOut <= U64_MAX
  }

  function Credited(t: TokenAccount, amount: u64): TokenAccount
    requires t.amount + amount <= U64_MAX
  {
    t.(amount := t.amount + amount)
  }

  function Spent(t: TokenAccount, amount: u64): TokenAccount
    requires amount <= t.amount
  {
    t.(amount := t.amount - amount)
  }

  /** The five balances after settlement; the spent delegate is gone. */
  function Settled(w: Store, e: Envelope, amountIn: u64, fee: u64, amountOut: u64): Store
    requires CanSettle(w, e, amountIn, fee, amountOut)
  {
    w[e.source.key := TokenEntry(Spent(TokenAt(w, e.source.key),
                                       amountIn + fee).(delegate := None, delegatedAmount := 0))]
     [e.vaultA.key := TokenEntry(Credited(TokenAt(w, e.vaultA.key), amountIn))]
     [e.feeVault.key := TokenEntry(Credited(TokenAt(w, e.feeVault.key), fee))]
     [e.vaultB.key := TokenEntry(Spent(TokenAt(w, e.vaultB.key), amountOut))]
     [e.destination.key := TokenEntry(Credited(TokenAt(w, e.destination.key), amountOut))]
  }

  predicate CanAccount(w: Store, e: Envelope, amountIn: u64, fee: u64, amountOut: u64) {
    && IsDomain(w, e.domain.key) && IsFeeLedger(w, e.feeLedger.key)
    && DomainAt(w, e.domain.key).accountedA + amountIn <= U64_MAX && amountOut <= DomainAt(w, e.domain.key).accountedB
    && FeeLedgerAt(w, e.feeLedger.key).accountedFeeA + fee <= U64_MAX
  }

  /** The accounting cached in `w`, moved on and written over the final store. */
  function Accounted(w: Store, final: Store, e: Envelope, amountIn: u64, fee: u64, amountOut: u64): Store
    requires CanAccount(w, e, amountIn, fee, amountOut)
  {
    var d, f := DomainAt(w, e.domain.key), FeeLedgerAt(w, e.feeLedger.key);
    final[e.domain.key :=
            DomainEntry(d.(accountedA := d.accountedA + amountIn, accountedB := d.accountedB - amountOut))]
         [e.feeLedger.key := FeeLedgerEntry(f.(accountedFeeA := f.accountedFeeA + fee))]
  }

  /** The digest that COMMIT carries: accounting before and after, and the five observed balances. */
  function SettlementDigest(w: Store, settled: Store, ix: ExecuteIx, adm: Admission, primary: Receipt,
                            request: Request): Digest
    requires Constrained(w, ix.e)
    requires CanAccount(w, ix.e, ix.args.amountIn, adm.fee, primary.amountOut)
    requires IsToken(settled, ix.e.source.key) && IsToken(settled, ix.e.destination.key)
    requires IsToken(settled, ix.e.vaultA.key) && IsToken(settled, ix.e.vaultB.key)
    requires IsToken(settled, ix.e.feeVault.key)
  {
    var e, args := ix.e, ix.args;
    var d, f := DomainAt(w, e.domain.key), FeeLedgerAt(w, e.feeLedger.key);
    Sha(SettlementPreimage(SettlementBinding(
      IntentDigest(adm.intent), request.executionDigest, Sha(ReceiptPreimage(primary)),
      args.amountIn, primary.amountOut, adm.fee, adm.total,
      d.accountedA, d.accountedB, f.accountedFeeA,
      d.accountedA + args.amountIn, d.accountedB - primary.amountOut, f.accountedFeeA + adm.fee,
      TokenAt(settled, e.source.key).amount, TokenAt(settled, e.destination.key).amount,
      TokenAt(settled, e.vaultA.key).amount, TokenAt(settled, e.vaultB.key).amount,
      TokenAt(settled, e.feeVault.key).amount)))
  }
}
