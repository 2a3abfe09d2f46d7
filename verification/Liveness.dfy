/**
 * What an authorization brings about: an intent that was authorized and is neither executed, revoked
 * nor replaced executes, after any run, exactly when what it left open at authorization is in order.
 */
module Liveness {
  import opened Base
  import opened Bindings
  import opened Keys
  import opened Ledger
  import opened Capabilities
  import opened PlanEngine
  import opened Runtime
  import opened Core
  import opened Frames
  import opened ExecuteInstruction
  import opened Instructions
  import opened Runs
  import opened Honest
  import opened Trades
  import opened Timings
  import opened Replay
  import FixedMath

  /** The envelope is named by the intent, and what the execution observes rebuilds it, fee included. */
  predicate Presents(w: Store, ix: ExecuteIx, b: Intent) {
    && Named(w, ix)
    && b == RebuiltIntent(w, ix, FeeOf(ix.args.amountIn), ix.args.expectedCapabilityHash)
  }

  /** The account list is in order: payload size, envelope, closure and the committed capability hash. */
  predicate ListInOrder(w: Store, ix: ExecuteIx) {
    var opaques := OpaqueDescriptors(Loaded(w, ix.closure), EnvelopeKeys(ix.e));
    && |ix.args.opaquePayload| <= MAX_OPAQUE_PAYLOAD_LEN && EnvelopeVerdict(w, ix.e).Ok? && opaques.Ok?
    && CapabilityHash(ix.e.engineProgram.key,
                      PhaseDescriptors(ix.e.engineState.key, ix.e.engineProgram.key, opaques.value, true))
       == ix.args.expectedCapabilityHash
  }

  /** The engine is in step with the market and the request, and quotes at least the user's minimum. */
  predicate EngineServes(w: Store, ix: ExecuteIx, opaques: seq<Descriptor>, helper: Option<Data>)
    requires Constrained(w, ix.e) && IsPlanState(w, ix.e.engineState.key)
  {
    var s, d, args := PlanStateAt(w, ix.e.engineState.key), DomainAt(w, ix.e.domain.key), ix.args;
    var quote := FixedMath.QuoteExactIn(d.accountedA, d.accountedB, args.amountIn, s.lpFeeBps);
    && s.market == ix.e.market.key && s.revision == MarketAt(w, ix.e.market.key).engineRevision
    && s.timingMode == args.timingMode && s.sequence == args.expectedEngineSequence < U64_MAX
    && quote.Ok? && args.minOutputCredit <= quote.value.amountOut
    && HelperWrites(ClosureInfos(ix.e, opaques), args.opaquePayload, helper).Ok?
  }

  /** What authorization leaves open: the accounts, the expiry, the user's funds, the engine and its price. */
  predicate Fulfillable(w: Store, ix: ExecuteIx, slot: u64, helper: Option<Data>)
    requires Constrained(w, ix.e) && IsPlanState(w, ix.e.engineState.key) && ix.args.amountIn > 0
  {
    var t := TokenAt(w, ix.e.source.key);
    && ListInOrder(w, ix) && slot <= ix.args.expiresAtSlot
    && ix.args.amountIn + FeeOf(ix.args.amountIn) <= t.amount && t.closeAuthority == None
    && EngineServes(w, ix, OpaqueDescriptors(Loaded(w, ix.closure), EnvelopeKeys(ix.e)).value, helper)
  }

  /** The delegate is the intent's own, for its exact debit. */
  predicate Granted(w: Store, source: Key, b: Intent) {
    && Live(w, source, IntentDigest(b))
    && TokenAt(w, source).delegatedAmount == b.amountIn + b.protocolFee
  }

  /** The bounds an authorized intent has been held to. */
  predicate WithinBounds(b: Intent) {
    b.protocolFee <= b.maxProtocolFee && b.amountIn + b.protocolFee <= b.maxTotalInputDebit
  }

  lemma PresentsNamed(w: Store, ix: ExecuteIx, b: Intent)
    requires Presents(w, ix, b)
    ensures Named(w, ix) && Constrained(w, ix.e) && ix.args.amountIn > 0
    ensures b.amountIn == ix.args.amountIn && b.protocolFee == FeeOf(ix.args.amountIn)
    ensures b.maxProtocolFee == ix.args.maxProtocolFee && b.maxTotalInputDebit == ix.args.maxTotalInputDebit
    ensures ix.e.spendAuthority.key == SpendPda(ix.e.source.key, IntentDigest(b)) && b.userInput == ix.e.source.key
  {
    hide Constrained, FeeOf;
  }

  /** Of admission, a granted and presented intent leaves open what the user and the accounts must still provide. */
  lemma GrantedOpens(w: Store, ix: ExecuteIx, b: Intent, slot: u64)
    requires Presents(w, ix, b) && Granted(w, ix.e.source.key, b) && WithinBounds(b)
    requires Constrained(w, ix.e) && ix.args.amountIn > 0
    ensures Open(w, ix, slot) <==>
              && ListInOrder(w, ix) && slot <= ix.args.expiresAtSlot
              && ix.args.amountIn + FeeOf(ix.args.amountIn) <= TokenAt(w, ix.e.source.key).amount
              && TokenAt(w, ix.e.source.key).closeAuthority == None
              && ix.args.minOutputCredit <= DomainAt(w, ix.e.domain.key).accountedB
  {
    hide Presents, Named, Constrained, OpaqueDescriptors, Loaded, EnvelopeKeys, PhaseDescriptors, CapabilityHash,
         EnvelopeVerdict, IntentDigest, FeeOf;
    PresentsNamed(w, ix, b);
  }

  lemma ServesWhenReady(w: Store, ix: ExecuteIx, adm: Admission, helper: Option<Data>)
    requires Constrained(w, ix.e) && IsPlanState(w, ix.e.engineState.key)
    ensures TradeReady(w, ix, adm, helper) <==> EngineServes(w, ix, adm.opaques, helper)
  {
    hide Constrained, HelperWrites, ClosureInfos, FixedMath.QuoteExactIn;
  }

  lemma ServedFromBooks(w: Store, ix: ExecuteIx, opaques: seq<Descriptor>, helper: Option<Data>)
    requires Constrained(w, ix.e) && IsPlanState(w, ix.e.engineState.key)
    requires EngineServes(w, ix, opaques, helper)
    ensures ix.args.minOutputCredit <= DomainAt(w, ix.e.domain.key).accountedB
  {
    hide Constrained, HelperWrites, ClosureInfos, FixedMath.QuoteExactIn;
    QuoteOutput(w, ix);
  }

  lemma ClosureAccepted(w: Store, ix: ExecuteIx)
    requires ListInOrder(w, ix)
    ensures OpaqueDescriptors(Loaded(w, ix.closure), EnvelopeKeys(ix.e)).Ok?
  {
    hide OpaqueDescriptors, Loaded, EnvelopeKeys, PhaseDescriptors, EnvelopeVerdict;
  }

  /** A granted, presented intent executes exactly when the rest is in order. */
  lemma FulfilledExactly(w: Store, b: Intent, ix: ExecuteIx, slot: u64, primary: EngineOutcome, commit: EngineOutcome)
    requires Inv(w) && Presents(w, ix, b) && Accepting(w, ix.e)
    requires Granted(w, ix.e.source.key, b) && WithinBounds(b)
    ensures Constrained(w, ix.e) && IsPlanState(w, ix.e.engineState.key) && ix.args.amountIn > 0
    ensures ExecuteSpec(w, ix, slot, primary, commit).Ok? <==>
              Fulfillable(w, ix, slot, EffectiveHelper(ix, primary, commit))
  {
    hide Inv, Presents, Named, Admit, Admitted, ExecuteSpec, Constrained, Open, TradeReady, EngineServes, ListInOrder,
         OpaqueDescriptors, Loaded, EnvelopeKeys, EffectiveHelper, FeeOf, Granted;
    PresentsNamed(w, ix, b);
    GrantedOpens(w, ix, b, slot);
    AdmitsWhenOpen(w, ix, slot);
    ExecutesAdmitted(w, ix, slot, primary, commit);
    var helper := EffectiveHelper(ix, primary, commit);
    if Admit(w, ix, slot).Ok? {
      TradeExactly(w, ix, slot, primary, commit);
      ServesWhenReady(w, ix, Admit(w, ix, slot).value, helper);
    }
    if Fulfillable(w, ix, slot, helper) {
      ClosureAccepted(w, ix);
      ServedFromBooks(w, ix, OpaqueDescriptors(Loaded(w, ix.closure), EnvelopeKeys(ix.e)).value, helper);
    }
  }

  // ---- Over runs ----

  /** A market's record never changes. */
  lemma {:induction false} RecordStands(w: Store, steps: seq<Step>, m: Key)
    requires Inv(w) && IsMarket(w, m)
    ensures IsMarket(Run(w, steps), m) && MarketAt(Run(w, steps), m) == MarketAt(w, m)
    decreases |steps|
  {
    hide Inv, Next;
    if steps != [] {
      StepRecord(w, steps[0], m);
      RecordStands(Next(w, steps[0]), steps[1..], m);
    }
  }

  lemma StepRecord(w: Store, step: Step, m: Key)
    requires Inv(w) && IsMarket(w, m)
    ensures IsMarket(Next(w, step), m) && MarketAt(Next(w, step), m) == MarketAt(w, m)
  {
    hide Inv, Attempt;
    if Attempt(w, step).Some? {
      StepOrderly(w, step);
    }
  }

  /** Right after authorization the delegate is the intent's own for its exact debit, by the same owner. */
  lemma AuthorizationGrants(w: Store, a: AuthorizeIx, slot: u64)
    requires Inv(w) && AuthorizeSpec(w, a, slot).Ok?
    ensures a.binding.Some? && WithinBounds(a.binding.value)
    ensures var w1, b := Next(w, Authorize(a, slot)), a.binding.value;
            && Granted(w1, a.source.key, b)
            && IsToken(w, a.source.key) && TokenAt(w1, a.source.key).owner == TokenAt(w, a.source.key).owner
  {
    NextAuthorize(w, a, slot);
    AuthorizeFacts(w, a, slot);
    hide Inv, AuthorizeVerdict, IntentDigest, IntentRoles, Next;
  }

  /** And it stays so, by the same owner, for as long as the delegate lives and nobody approves another. */
  lemma GrantStands(w: Store, a: AuthorizeIx, slot: u64, between: seq<Step>)
    requires Inv(w) && AuthorizeSpec(w, a, slot).Ok? && a.binding.Some?
    requires NeverApproves(Next(w, Authorize(a, slot)), between, a.source.key)
    requires Live(Run(Next(w, Authorize(a, slot)), between), a.source.key, IntentDigest(a.binding.value))
    ensures var v := Run(Next(w, Authorize(a, slot)), between);
            && Granted(v, a.source.key, a.binding.value)
            && IsToken(w, a.source.key) && TokenAt(v, a.source.key).owner == TokenAt(w, a.source.key).owner
  {
    hide Inv, Next, Run, AuthorizeSpec, NeverApproves, IntentDigest;
    AuthorizationGrants(w, a, slot);
    DelegationStands(Next(w, Authorize(a, slot)), between, a.source.key);
  }

  /** What an intent said truly of the store when it was authorized it still says truly when it executes. */
  lemma PresentationStands(w: Store, v: Store, ix: ExecuteIx, b: Intent)
    requires Presents(w, ix, b) && Constrained(v, ix.e)
    requires MarketAt(v, ix.e.market.key) == MarketAt(w, ix.e.market.key)
    requires TokenAt(v, ix.e.source.key).owner == TokenAt(w, ix.e.source.key).owner
    ensures Presents(v, ix, b)
  {
    hide FeeOf, IntentDigest;
  }

  /**
   * Authorize an intent that says of the store what an execution will observe, the fee included. Then,
   * after any run at all in which nobody approves another delegate on the source, if the delegate is still
   * there (the intent was neither executed nor revoked) and the accounts are still of the kinds the envelope
   * demands, it executes with the accepting engine if and only if the account list is in order, it has not
   * expired, the user still has the funds and no close authority, and the engine is in step and quotes the
   * user's minimum. Nothing else anybody did in between can stop it.
   */
  lemma AuthorizedExecutesExactly(w: Store, a: AuthorizeIx, slot: u64, between: seq<Step>, ix: ExecuteIx, slot': u64,
                                  primary: EngineOutcome, commit: EngineOutcome)
    requires Inv(w) && AuthorizeSpec(w, a, slot).Ok? && a.binding.Some?
    requires ix.e.source.key == a.source.key && Presents(w, ix, a.binding.value)
    requires NeverApproves(Next(w, Authorize(a, slot)), between, a.source.key)
    requires var v := Run(Next(w, Authorize(a, slot)), between);
             && Live(v, a.source.key, IntentDigest(a.binding.value))
             && Constrained(v, ix.e) && Accepting(v, ix.e)
    ensures ix.args.amountIn > 0
    ensures var v := Run(Next(w, Authorize(a, slot)), between);
            && IsPlanState(v, ix.e.engineState.key)
            && (ExecuteSpec(v, ix, slot', primary, commit).Ok? <==>
                  Fulfillable(v, ix, slot', EffectiveHelper(ix, primary, commit)))
  {
    hide Inv, Next, Run, AuthorizeSpec, NeverApproves, IntentDigest, Presents, Constrained, ExecuteSpec, Fulfillable,
         EffectiveHelper, Granted, Accepting, Live;
    var b, w1 := a.binding.value, Next(w, Authorize(a, slot));
    var v := Run(w1, between);
    AuthorizationGrants(w, a, slot);
    GrantStands(w, a, slot, between);
    PresentsNamed(w, ix, b);
    ConstrainedMarket(w, ix.e);
    StepRecord(w, Authorize(a, slot), ix.e.market.key);
    RecordStands(w1, between, ix.e.market.key);
    PresentationStands(w, v, ix, b);
    FulfilledExactly(v, b, ix, slot', primary, commit);
  }

  lemma ConstrainedMarket(w: Store, e: Envelope)
    requires Constrained(w, e)
    ensures IsMarket(w, e.market.key)
  {
  }
}
