/**
 * What an authorization is good for, over whole runs: the exact intent it names, at most once, and the
 * engine sequence that makes two executions of one expected sequence impossible.
 */
module Replay {
  import opened Base
  import opened Bindings
  import opened Keys
  import opened Ledger
  import opened PlanEngine
  import opened Runtime
  import opened Core
  import opened Frames
  import opened ExecuteInstruction
  import opened Invariants
  import opened Instructions
  import opened Wallets
  import opened Lifecycle
  import opened Safety
  import opened Sequence
  import opened Runs
  import opened Books
  import opened Trades

  // ---- Sequence ----

  ghost function HitsOver(w: Store, steps: seq<Step>, k: Key): nat
    requires Inv(w)
    decreases |steps|
  {
    if steps == [] then 0 else (if Hits(w, steps[0], k) then 1 else 0) + HitsOver(Next(w, steps[0]), steps[1..], k)
  }

  /** The engine sequence counts the successful executions through the state, over any run whatever. */
  lemma {:induction false} SequenceCounts(w: Store, steps: seq<Step>, k: Key)
    requires Inv(w)
    ensures SequenceAt(Run(w, steps), k) == SequenceAt(w, k) + HitsOver(w, steps, k)
    decreases |steps|
  {
    hide Inv, Next, Hits;
    if steps != [] {
      StepProgress(w, steps[0], k);
      SequenceCounts(Next(w, steps[0]), steps[1..], k);
    }
  }

  /** Two executions through one state, however far apart, cannot both expect the same sequence. */
  lemma NoSequenceReplay(w: Store, first: Step, between: seq<Step>, second: Step, k: Key)
    requires Inv(w) && Hits(w, first, k)
    requires Hits(Run(Next(w, first), between), second, k)
    ensures first.execute.args.expectedEngineSequence < second.execute.args.expectedEngineSequence
  {
    hide Inv, Next, Run;
    StepProgress(w, first, k);
    SequenceCounts(Next(w, first), between, k);
    StepProgress(Run(Next(w, first), between), second, k);
  }

  /**
   * An engine state keeps its progress over a run exactly when the run has no successful execution
   * through it. Every such execution names the market the state is bound to, whichever market asks.
   */
  lemma {:induction false} ProgressExactly(w: Store, steps: seq<Step>, k: Key)
    requires Inv(w) && IsPlanState(w, k)
    ensures IsPlanState(Run(w, steps), k)
    ensures Progress(PlanStateAt(Run(w, steps), k)) == Progress(PlanStateAt(w, k)) <==> HitsOver(w, steps, k) == 0
    decreases |steps|
  {
    hide Inv, Next, Hits;
    SequenceCounts(w, steps, k);
    if steps != [] {
      StepProgress(w, steps[0], k);
      ProgressExactly(Next(w, steps[0]), steps[1..], k);
    }
  }

  // ---- Exactly when a state advances, by its guard ----

  /**
   * What a caller can check of an execution before making it: admission's own checks, that the envelope
   * names this state, and that the state's binding, timing and sequence, the quote, the user's minimum
   * and the helper are in order.
   */
  ghost predicate Ready(w: Store, step: Step, k: Key)
    requires Inv(w)
  {
    && step.Execute? && step.execute.e.engineState.key == k
    && Constrained(w, step.execute.e) && step.execute.e.engineProgram.key == PLAN_ENGINE && IsPlanState(w, k)
    && Admit(w, step.execute, step.slot).Ok?
    && TradeReady(w, step.execute, Admit(w, step.execute, step.slot).value,
                  EffectiveHelper(step.execute, step.primary, step.commit))
  }

  /** An execution through the state meets it in its accepting mode. */
  predicate AcceptingAt(w: Store, step: Step, k: Key)
    requires IsPlanState(w, k)
  {
    step.Execute? && step.execute.e.engineState.key == k ==> PlanStateAt(w, k).mode == MODE_ACCEPT
  }

  /** A step advances an accepting state exactly when the guard says so, and then the state's market asked. */
  lemma AdvancesWhenReady(w: Store, step: Step, k: Key)
    requires Inv(w) && IsPlanState(w, k) && AcceptingAt(w, step, k)
    ensures IsPlanState(Next(w, step), k)
    ensures Progress(PlanStateAt(Next(w, step), k)) != Progress(PlanStateAt(w, k)) <==> Ready(w, step, k)
    ensures Ready(w, step, k) ==> Participant(step) == Some(PlanStateAt(w, k).market)
    ensures Hits(w, step, k) <==> Ready(w, step, k)
  {
    hide Inv, Admit, Admitted, Constrained, ExecuteSpec, TradeReady;
    StepProgress(w, step, k);
    if step.Execute? {
      var ix, slot, primary, commit := step.execute, step.slot, step.primary, step.commit;
      ExecutesAdmitted(w, ix, slot, primary, commit);
      if Admit(w, ix, slot).Ok? && ix.e.engineProgram.key == PLAN_ENGINE && ix.e.engineState.key == k {
        AdmissionFacts(w, ix, slot);
        AdmittedIntent(w, ix, Admit(w, ix, slot).value);
        TradeExactly(w, ix, slot, primary, commit);
        ReadyMarket(w, ix, Admit(w, ix, slot).value, EffectiveHelper(ix, primary, commit));
      }
    }
  }

  lemma ReadyMarket(w: Store, ix: ExecuteIx, adm: Admission, helper: Option<Data>)
    requires Constrained(w, ix.e) && IsPlanState(w, ix.e.engineState.key)
    ensures TradeReady(w, ix, adm, helper) ==> PlanStateAt(w, ix.e.engineState.key).market == ix.e.market.key
  {
    hide Constrained, Helped;
  }

  ghost predicate AcceptingOver(w: Store, steps: seq<Step>, k: Key)
    requires Inv(w) && IsPlanState(w, k)
    decreases |steps|
  {
    steps != [] ==>
      && AcceptingAt(w, steps[0], k)
      && IsPlanState(Next(w, steps[0]), k) && AcceptingOver(Next(w, steps[0]), steps[1..], k)
  }

  ghost predicate EverReady(w: Store, steps: seq<Step>, k: Key)
    requires Inv(w)
    decreases |steps|
  {
    steps != [] && (Ready(w, steps[0], k) || EverReady(Next(w, steps[0]), steps[1..], k))
  }

  /**
   * The exact condition, over any run: an accepting state's progress is lost if and only if some step of
   * the run is, when its turn comes, a ready execution through it.
   */
  lemma {:induction false} ProgressByGuard(w: Store, steps: seq<Step>, k: Key)
    requires Inv(w) && IsPlanState(w, k) && AcceptingOver(w, steps, k)
    ensures IsPlanState(Run(w, steps), k)
    ensures Progress(PlanStateAt(Run(w, steps), k)) != Progress(PlanStateAt(w, k)) <==> EverReady(w, steps, k)
  {
    hide Inv, Next, Hits, Ready, AcceptingAt;
    ProgressExactly(w, steps, k);
    HitsWhenReady(w, steps, k);
  }

  lemma {:induction false} HitsWhenReady(w: Store, steps: seq<Step>, k: Key)
    requires Inv(w) && IsPlanState(w, k) && AcceptingOver(w, steps, k)
    ensures HitsOver(w, steps, k) > 0 <==> EverReady(w, steps, k)
    decreases |steps|
  {
    hide Inv, Next, Hits, Ready, AcceptingAt;
    if steps != [] {
      AdvancesWhenReady(w, steps[0], k);
      HitsWhenReady(Next(w, steps[0]), steps[1..], k);
    }
  }

  // ---- Delegation ----

  /** The source currently delegates to the spend address of this intent digest. */
  predicate Live(w: Store, source: Key, intent: Digest) {
    IsToken(w, source) && TokenAt(w, source).delegate == Some(SpendPda(source, intent))
  }

  function Allowance(w: Store, source: Key, intent: Digest): nat {
    if Live(w, source, intent) then TokenAt(w, source).delegatedAmount else 0
  }

  /** The amount a step approves for this intent's spend address, if it does. */
  ghost function Approval(w: Store, step: Step, source: Key, intent: Digest): Option<nat>
    requires Inv(w)
  {
    if !Succeeds(w, step) then None else
    match step
    case Authorize(ix, slot) =>
      if ix.source.key == source && ix.spendAuthority.key == SpendPda(source, intent)
      then Some(AuthorizeVerdict(w, ix, slot).value) else None
    case Token(Approve(s, _, delegate, _, amount)) =>
      if s == source && delegate == SpendPda(source, intent) then Some(amount) else None
    case _ => None
  }

  /** The total debit of a successful execution of this intent from this source. */
  ghost function Debit(w: Store, step: Step, source: Key, intent: Digest): Option<nat>
    requires Inv(w)
  {
    if step.Execute? && Succeeds(w, step) && step.execute.e.source.key == source
       && Admit(w, step.execute, step.slot).Ok?
       && IntentDigest(Admit(w, step.execute, step.slot).value.intent) == intent
    then Some(Admit(w, step.execute, step.slot).value.total) else None
  }

  function Count(o: Option<nat>): nat { if o.Some? then 1 else 0 }
  function Amount(o: Option<nat>): nat { if o.Some? then o.value else 0 }
  function One(b: bool): nat { if b then 1 else 0 }

  /**
   * A step after which the account is the same delegation by the same owner, or none. To an ordinary
   * delegate the allowance may have shrunk; to a spend address it is the same.
   */
  predicate DelegateFades(w: Store, w': Store, k: Key) {
    IsToken(w', k) && TokenAt(w', k).delegate.Some? ==>
      && IsToken(w, k)
      && var t, t' := TokenAt(w, k), TokenAt(w', k);
      && t'.delegate == t.delegate && t'.owner == t.owner && t'.mint == t.mint
      && (t.delegate.value.SpendPda? ==> t'.delegatedAmount == t.delegatedAmount)
  }

  lemma InitializeDelegates(w: Store, ix: InitializeIx, k: Key)
    requires InitializeSpec(w, ix).Ok?
    ensures DelegateFades(w, InitializeSpec(w, ix).value, k)
  {
    hide InitializeSpec, Created, CreatedKeys, Placed, TokenOk;
    InitializeFacts(w, ix);
    CreatedFrame(w, ix);
    assert k in w ==> SameAt(w, Created(w, ix), k);
  }

  lemma DepositDelegates(w: Store, ix: DepositIx, k: Key)
    requires Inv(w) && DepositSpec(w, ix).Ok?
    ensures DelegateFades(w, DepositSpec(w, ix).value, k)
  {
    hide Inv, DepositSpec, DepositVerdict, WithAccounted;
    DepositEffect(w, ix);
    DepositRoles(w, ix);
    if k != ix.source.key && k != ix.vault.key && k != ix.domain.key {
      assert SameAt(w, DepositSpec(w, ix).value, k);
    }
  }

  lemma ExecutionDelegates(w: Store, ix: ExecuteIx, slot: u64, primary: EngineOutcome, commit: EngineOutcome, k: Key)
    requires Inv(w) && ExecuteSpec(w, ix, slot, primary, commit).Ok?
    ensures DelegateFades(w, ExecuteSpec(w, ix, slot, primary, commit).value.store, k)
  {
    hide Inv, ExecuteSpec, Admit, FeeOf, SettlementKeys, IntentDigest;
    ExecutionTokens(w, ix, slot, primary, commit, k);
  }

  lemma AuthorizeDelegates(w: Store, ix: AuthorizeIx, slot: u64, k: Key)
    requires AuthorizeSpec(w, ix, slot).Ok? && ix.source.key != k
    ensures DelegateFades(w, AuthorizeSpec(w, ix, slot).value, k)
  {
    hide AuthorizeVerdict;
    AuthorizeFacts(w, ix, slot);
  }

  lemma TokenDelegates(w: Store, op: TokenOp, k: Key)
    requires Applied(w, op).Some? && !(op.Approve? && op.source == k)
    ensures DelegateFades(w, Applied(w, op).value, k)
  {
  }

  /** A debit uses up the live delegate and all of its allowance, and an approval alone renews them. */
  predicate Spends(w: Store, w': Store, debit: Option<nat>, approval: Option<nat>, source: Key, intent: Digest) {
    && Count(debit) + One(Live(w', source, intent)) <= Count(approval) + One(Live(w, source, intent))
    && Amount(debit) + Allowance(w', source, intent) <= Amount(approval) + Allowance(w, source, intent)
    && (debit.Some? ==>
          && Live(w, source, intent) && debit.value == Allowance(w, source, intent)
          && IsToken(w', source) && TokenAt(w', source).delegate == None
          && TokenAt(w, source).amount == TokenAt(w', source).amount + debit.value)
  }

  /** Where the delegation stays or ends, nothing is spent under it. */
  lemma FadingSpendsNothing(w: Store, w': Store, source: Key, intent: Digest)
    requires DelegateFades(w, w', source)
    ensures Spends(w, w', None, None, source, intent)
  {
  }

  lemma StillSelf(w: Store, k: Key)
    ensures DelegateFades(w, w, k)
  {
  }

  lemma OutsideDelegates(w: Store, w': Store, k: Key)
    requires forall j :: Outside(w, w', j)
    ensures DelegateFades(w, w', k)
  {
    hide Outside;
    OutsideToken(w, w', k);
  }

  lemma ApproveSpends(w: Store, op: TokenOp, intent: Digest)
    requires op.Approve? && Applied(w, op).Some?
    ensures Spends(w, Applied(w, op).value, None,
                   if op.delegate == SpendPda(op.source, intent) then Some(op.amount) else None, op.source, intent)
  {
  }

  /** Nobody can spend under the program's spend address but the program. */
  lemma TokenSpends(w: Store, op: TokenOp, source: Key, intent: Digest)
    requires Applied(w, op).Some?
    ensures var approval := if op.Approve? && op.source == source && op.delegate == SpendPda(source, intent)
                            then Some(op.amount) else None;
            Spends(w, Applied(w, op).value, None, approval, source, intent)
  {
    hide Applied, Spends, DelegateFades;
    if op.Approve? && op.source == source {
      ApproveSpends(w, op, intent);
    } else {
      TokenDelegates(w, op, source);
      FadingSpendsNothing(w, Applied(w, op).value, source, intent);
    }
  }

  lemma StepSpends(w: Store, step: Step, source: Key, intent: Digest)
    requires Inv(w)
    ensures Spends(w, Next(w, step), Debit(w, step, source, intent), Approval(w, step, source, intent), source, intent)
  {
    hide Inv, InitializeSpec, DepositSpec, AuthorizeSpec, ExecuteSpec, Applied, DirectCall, LegalExternal, Admit,
         AuthorizeVerdict, Spends, IntentDigest, DelegateFades;
    if Attempt(w, step).Some? {
      var w' := Attempt(w, step).value;
      match step
      case Initialize(ix) => InitializeDelegates(w, ix, source); FadingSpendsNothing(w, w', source, intent);
      case Deposit(ix) => DepositDelegates(w, ix, source); FadingSpendsNothing(w, w', source, intent);
      case Authorize(ix, slot) => AuthorizeSpends(w, ix, slot, source, intent);
      case Execute(ix, slot, primary, commit) => ExecuteSpends(w, ix, slot, primary, commit, source, intent);
      case Token(op) => TokenSpends(w, op, source, intent);
      case Engine(call) =>
        DirectCallOutside(w, call);
        OutsideDelegates(w, w', source);
        FadingSpendsNothing(w, w', source, intent);
      case External(writes) =>
        ExternalOutside(w, writes);
        OutsideDelegates(w, w', source);
        FadingSpendsNothing(w, w', source, intent);
    } else {
      StillSelf(w, source);
      FadingSpendsNothing(w, w, source, intent);
    }
  }

  lemma AuthorizeSpends(w: Store, ix: AuthorizeIx, slot: u64, source: Key, intent: Digest)
    requires AuthorizeSpec(w, ix, slot).Ok?
    ensures AuthorizeVerdict(w, ix, slot).Ok?
    ensures var w' := AuthorizeSpec(w, ix, slot).value;
            if ix.source.key == source && ix.spendAuthority.key == SpendPda(source, intent)
            then && Live(w', source, intent)
                 && Spends(w, w', None, Some(AuthorizeVerdict(w, ix, slot).value), source, intent)
            else Spends(w, w', None, None, source, intent)
  {
    hide AuthorizeVerdict;
    AuthorizeFacts(w, ix, slot);
  }

  lemma ExecuteSpends(w: Store, ix: ExecuteIx, slot: u64, primary: EngineOutcome, commit: EngineOutcome,
                      source: Key, intent: Digest)
    requires Inv(w) && ExecuteSpec(w, ix, slot, primary, commit).Ok?
    ensures Admit(w, ix, slot).Ok?
    ensures var x, adm := ExecuteSpec(w, ix, slot, primary, commit).value, Admit(w, ix, slot).value;
            var debit := if source == ix.e.source.key && IntentDigest(adm.intent) == intent then Some(adm.total)
              else None;
            Spends(w, x.store, debit, None, source, intent)
  {
    hide Inv, ExecuteSpec, Admit, FeeOf, SettlementKeys, IntentDigest;
    ExecutionTokens(w, ix, slot, primary, commit, source);
    AdmittedTotal(w, ix, slot);
  }

  lemma AdmittedTotal(w: Store, ix: ExecuteIx, slot: u64)
    requires Inv(w) && Admit(w, ix, slot).Ok?
    ensures ix.args.amountIn > 0 && Admit(w, ix, slot).value.total == ix.args.amountIn + FeeOf(ix.args.amountIn)
  {
    hide Admit;
    AdmissionFacts(w, ix, slot);
  }

  ghost function ApprovalsOver(w: Store, steps: seq<Step>, source: Key, intent: Digest): nat
    requires Inv(w)
    decreases |steps|
  {
    if steps == [] then 0
    else Count(Approval(w, steps[0], source, intent)) + ApprovalsOver(Next(w, steps[0]), steps[1..], source, intent)
  }

  ghost function ExecutionsOver(w: Store, steps: seq<Step>, source: Key, intent: Digest): nat
    requires Inv(w)
    decreases |steps|
  {
    if steps == [] then 0
    else Count(Debit(w, steps[0], source, intent)) + ExecutionsOver(Next(w, steps[0]), steps[1..], source, intent)
  }

  ghost function ApprovedOver(w: Store, steps: seq<Step>, source: Key, intent: Digest): nat
    requires Inv(w)
    decreases |steps|
  {
    if steps == [] then 0
    else Amount(Approval(w, steps[0], source, intent)) + ApprovedOver(Next(w, steps[0]), steps[1..], source, intent)
  }

  ghost function DebitedOver(w: Store, steps: seq<Step>, source: Key, intent: Digest): nat
    requires Inv(w)
    decreases |steps|
  {
    if steps == [] then 0
    else Amount(Debit(w, steps[0], source, intent)) + DebitedOver(Next(w, steps[0]), steps[1..], source, intent)
  }

  /**
   * One-shot spending. Over any run, an intent executes at most as often as its spend address was
   * approved (counting a delegate already live at the start), and debits at most what was approved.
   */
  lemma {:induction false} OneShotSpending(w: Store, steps: seq<Step>, source: Key, intent: Digest)
    requires Inv(w)
    ensures var w' := Run(w, steps);
            && ExecutionsOver(w, steps, source, intent) + One(Live(w', source, intent))
               <= ApprovalsOver(w, steps, source, intent) + One(Live(w, source, intent))
            && DebitedOver(w, steps, source, intent) + Allowance(w', source, intent)
               <= ApprovedOver(w, steps, source, intent) + Allowance(w, source, intent)
    decreases |steps|
  {
    hide Inv, Next, Approval, Debit, Live, Allowance;
    if steps != [] {
      StepSpends(w, steps[0], source, intent);
      OneShotSpending(Next(w, steps[0]), steps[1..], source, intent);
    }
  }

  // ---- Agreement between authorization and execution ----

  /** Under a delegate installed for an intent, execution rebuilds that intent in all 27 fields. */
  lemma DelegateNamesIntent(w: Store, b: Intent, ix: ExecuteIx, slot: u64, primary: EngineOutcome,
                            commit: EngineOutcome)
    requires Inv(w) && Live(w, ix.e.source.key, IntentDigest(b))
    requires ExecuteSpec(w, ix, slot, primary, commit).Ok?
    ensures Constrained(w, ix.e) && b.amountIn == ix.args.amountIn > 0
    ensures b == RebuiltIntent(w, ix, FeeOf(b.amountIn), ix.args.expectedCapabilityHash)
    ensures b.protocolFee == FeeOf(b.amountIn)
    ensures slot <= b.expiresAtSlot
  {
    hide Inv, ExecuteSpec, Admit, Live, IntentDigest;
    ExecutionTokens(w, ix, slot, primary, commit, ix.e.source.key);
    AdmissionFacts(w, ix, slot);
    var adm := Admit(w, ix, slot).value;
    AdmittedIntent(w, ix, adm);
    assert IntentDigest(b) == IntentDigest(adm.intent) by { LiveDelegate(w, ix.e.source.key, IntentDigest(b)); }
    DigestNames(b, adm.intent);
  }

  /** What the user signed for, word by word, against what an execution did. */
  ghost predicate Honoured(b: Intent, w: Store, w': Store, ix: ExecuteIx, slot: u64, amountOut: nat) {
    && b.coreProgram == CORE && b.tokenProgram == TOKEN_PROGRAM && slot <= b.expiresAtSlot
    && IsMarket(w, b.market) && IsMarket(w', b.market) && MarketOk(w, b.market) && MarketOk(w', b.market)
    && var m := MarketAt(w, b.market);
    && b.domain == DomainPda(b.market) && b.engineProgram == m.engineProgram && b.engineState == m.engineState
    && b.engineRevision == m.engineRevision && b.feePolicyRevision == m.feePolicyRevision
    && b.mintIn == m.mintA && b.mintOut == m.mintB
    && b.domainInputVault == VaultA(b.market) && b.domainOutputVault == VaultB(b.market)
    && b.protocolFeeVault == FeeVault(w, b.market) && b.feeLedger == LedgerOf(w, b.market)
    && b.protocolFee <= b.maxProtocolFee && b.amountIn + b.protocolFee <= b.maxTotalInputDebit
    && b.minOutputCredit <= amountOut
    // The user's accounts.
    && IsToken(w, b.userInput) && IsToken(w', b.userInput) && IsToken(w, b.userOutput) && IsToken(w', b.userOutput)
    && TokenAt(w, b.userInput).owner == b.userAuthority && TokenAt(w, b.userInput).mint == b.mintIn
    && TokenAt(w', b.userInput).amount == TokenAt(w, b.userInput).amount - (b.amountIn + b.protocolFee)
    && TokenAt(w', b.userOutput).amount == TokenAt(w, b.userOutput).amount + amountOut
    // The market's.
    && Moved(w, w', b.market, b.amountIn, b.protocolFee, amountOut)
    // The execution's own terms.
    && b.timingMode == ix.args.timingMode && b.authorizationNonce == ix.args.authorizationNonce
    && b.authorizedCapabilityHash == ix.args.expectedCapabilityHash
    && b.payloadHash == Sha(PayloadPreimage(ix.args.opaquePayload))
  }

  /**
   * An authorization is honoured to the letter: under a delegate installed for an intent, a successful
   * execution, whatever the engine, debits and credits exactly the accounts it names by the amounts it
   * names, within its bounds, on its market, before its expiry.
   */
  lemma AuthorizationHonoured(w: Store, b: Intent, ix: ExecuteIx, slot: u64, primary: EngineOutcome,
                              commit: EngineOutcome)
    requires Inv(w) && Live(w, ix.e.source.key, IntentDigest(b))
    requires ExecuteSpec(w, ix, slot, primary, commit).Ok?
    ensures var x := ExecuteSpec(w, ix, slot, primary, commit).value;
            Honoured(b, w, x.store, ix, slot, x.amountOut)
  {
    hide Inv, ExecuteSpec, Admit, Admitted, Live, IntentDigest, FeeOf, MarketOk, CanSettle, CanAccount, Guarded,
         Predicted, VaultOk;
    DelegateNamesIntent(w, b, ix, slot, primary, commit);
    ExecutionKeepsInv(w, ix, slot, primary, commit);
    ExecutionEffect(w, ix, slot, primary, commit);
    AdmissionFacts(w, ix, slot);
    ExecutionTokens(w, ix, slot, primary, commit, ix.e.source.key);
    ExecutionTokens(w, ix, slot, primary, commit, ix.e.destination.key);
    SettlementRoles(w, ix, Admit(w, ix, slot).value);
    AdmittedIntent(w, ix, Admit(w, ix, slot).value);
    ConstrainedEngine(w, ix.e);
  }

  lemma ConstrainedEngine(w: Store, e: Envelope)
    requires Constrained(w, e)
    ensures IsMarket(w, e.market.key) && e.tokenProgram.key == TOKEN_PROGRAM
    ensures e.engineProgram.key == MarketAt(w, e.market.key).engineProgram
    ensures e.engineState.key == MarketAt(w, e.market.key).engineState
  {
  }

  lemma LiveDelegate(w: Store, source: Key, intent: Digest)
    requires Live(w, source, intent)
    ensures IsToken(w, source) && TokenAt(w, source).delegate == Some(SpendPda(source, intent))
  {
  }

  lemma DigestNames(b: Intent, b': Intent)
    requires IntentDigest(b) == IntentDigest(b')
    ensures b == b'
  {
  }

  lemma AdmittedIntent(w: Store, ix: ExecuteIx, adm: Admission)
    requires Admitted(w, ix, adm)
    ensures Constrained(w, ix.e) && ix.args.amountIn > 0
    ensures adm.intent == RebuiltIntent(w, ix, FeeOf(ix.args.amountIn), ix.args.expectedCapabilityHash)
    ensures adm.intent.amountIn == ix.args.amountIn && adm.intent.protocolFee == FeeOf(ix.args.amountIn)
    ensures adm.intent.expiresAtSlot == ix.args.expiresAtSlot
  {
  }

  /**
   * Authorize, then anything at all but another approval on that source, then execute: what executes
   * is exactly the authorized binding, at exactly the authorized debit.
   */
  lemma AuthorizedThenExecuted(w: Store, a: AuthorizeIx, slot: u64, between: seq<Step>, ix: ExecuteIx, slot': u64,
                               primary: EngineOutcome, commit: EngineOutcome)
    requires Inv(w) && AuthorizeSpec(w, a, slot).Ok? && ix.e.source.key == a.source.key
    requires Succeeds(w, Authorize(a, slot))
    requires NeverApproves(Next(w, Authorize(a, slot)), between, a.source.key)
    requires var v := Run(Next(w, Authorize(a, slot)), between);
             ExecuteSpec(v, ix, slot', primary, commit).Ok?
    ensures a.binding.Some?
    ensures var v, b := Run(Next(w, Authorize(a, slot)), between), a.binding.value;
            && Constrained(v, ix.e) && ix.args.amountIn > 0
            && b == RebuiltIntent(v, ix, FeeOf(ix.args.amountIn), ix.args.expectedCapabilityHash)
            && AuthorizeVerdict(w, a, slot) == Result.Ok(ix.args.amountIn + FeeOf(ix.args.amountIn))
            && slot' <= b.expiresAtSlot
  {
    hide Inv, AuthorizeVerdict, ExecuteSpec, Run, Attempt, Next, NeverApproves, FeeOf, RebuiltIntent, IntentDigest,
         Constrained, Admit, IntentRoles, SettlementKeys, Spends, TokenAfter;
    AuthorizeFacts(w, a, slot);
    var b := a.binding.value;
    var w1 := Next(w, Authorize(a, slot));
    assert w1 == AuthorizeSpec(w, a, slot).value by { NextAuthorize(w, a, slot); }
    AuthorizeSpends(w, a, slot, a.source.key, IntentDigest(b));
    OnlyThisDelegate(w1, between, a.source.key, IntentDigest(b));
    var v := Run(w1, between);
    ExecutionTokens(v, ix, slot', primary, commit, ix.e.source.key);
    DelegateNamesIntent(v, b, ix, slot', primary, commit);
  }

  lemma NextAuthorize(w: Store, a: AuthorizeIx, slot: u64)
    requires Inv(w) && AuthorizeSpec(w, a, slot).Ok?
    ensures Next(w, Authorize(a, slot)) == AuthorizeSpec(w, a, slot).value
  {
    hide Inv, AuthorizeSpec;
  }

  /** No step of the run approves a delegate on this source. */
  ghost predicate NeverApproves(w: Store, steps: seq<Step>, source: Key)
    requires Inv(w)
    decreases |steps|
  {
    steps != [] ==>
      && !(steps[0].Authorize? && Succeeds(w, steps[0]) && steps[0].authorize.source.key == source)
      && !(steps[0].Token? && Succeeds(w, steps[0]) && steps[0].op.Approve? && steps[0].op.source == source)
      && NeverApproves(Next(w, steps[0]), steps[1..], source)
  }

  /** The only delegate the source can have is this intent's spend address. */
  predicate NoOther(w: Store, source: Key, intent: Digest) {
    IsToken(w, source) && TokenAt(w, source).delegate.Some? ==> Live(w, source, intent)
  }

  /** Without an approval a delegation can only stay as it is or end. */
  lemma StepFades(w: Store, step: Step, source: Key)
    requires Inv(w) && NeverApproves(w, [step], source)
    ensures DelegateFades(w, Next(w, step), source)
  {
    hide Inv, InitializeSpec, DepositSpec, AuthorizeSpec, ExecuteSpec, Applied, DirectCall, LegalExternal,
         AuthorizeVerdict, Admit;
    if Attempt(w, step).Some? {
      var w' := Attempt(w, step).value;
      match step
      case Initialize(ix) => InitializeDelegates(w, ix, source);
      case Deposit(ix) => DepositDelegates(w, ix, source);
      case Authorize(ix, slot) => AuthorizeDelegates(w, ix, slot, source);
      case Execute(ix, slot, primary, commit) => ExecutionDelegates(w, ix, slot, primary, commit, source);
      case Token(op) => TokenDelegates(w, op, source);
      case Engine(call) => DirectCallOutside(w, call); OutsideDelegates(w, w', source);
      case External(writes) => ExternalOutside(w, writes); OutsideDelegates(w, w', source);
    }
  }

  /** Over a run without an approval a delegation is at the end what it was at the start, or gone. */
  lemma {:induction false} DelegationStands(w: Store, steps: seq<Step>, source: Key)
    requires Inv(w) && NeverApproves(w, steps, source)
    ensures DelegateFades(w, Run(w, steps), source)
    decreases |steps|
  {
    hide Inv, Next;
    if steps != [] {
      assert NeverApproves(w, [steps[0]], source);
      StepFades(w, steps[0], source);
      DelegationStands(Next(w, steps[0]), steps[1..], source);
    }
  }

  lemma OnlyThisDelegate(w: Store, steps: seq<Step>, source: Key, intent: Digest)
    requires Inv(w) && NoOther(w, source, intent) && NeverApproves(w, steps, source)
    ensures NoOther(Run(w, steps), source, intent)
  {
    hide Inv, Run, NeverApproves;
    DelegationStands(w, steps, source);
  }

  /** An intent whose fee is not the protocol's rounded-up fee can be authorized but never executed. */
  lemma MispricedNeverExecutes(w: Store, b: Intent, ix: ExecuteIx, slot: u64, primary: EngineOutcome,
                               commit: EngineOutcome)
    requires Inv(w) && Live(w, ix.e.source.key, IntentDigest(b))
    requires b.amountIn == 0 || b.protocolFee != FeeOf(b.amountIn)
    ensures ExecuteSpec(w, ix, slot, primary, commit).Err?
  {
    hide Inv, ExecuteSpec, Live, FeeOf;
    if ExecuteSpec(w, ix, slot, primary, commit).Ok? {
      DelegateNamesIntent(w, b, ix, slot, primary, commit);
    }
  }
}
