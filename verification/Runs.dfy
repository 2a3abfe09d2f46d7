/**
 * Whole runs: settlement instructions, token instructions by anybody, engine calls and arbitrary
 * writes by other programs, interleaved in any order. A failing step leaves the store as it was.
 */
module Runs {
  import opened Base
  import opened Keys
  import opened Ledger
  import opened Errors
  import opened Capabilities
  import opened PlanEngine
  import opened Runtime
  import opened Core
  import opened ExecuteInstruction
  import opened Invariants
  import opened Instructions
  import opened Wallets
  import opened Lifecycle
  import opened Safety
  import opened Sequence

  datatype Step =
    | Initialize(init: InitializeIx)
    | Deposit(deposit: DepositIx)
    | Authorize(authorize: AuthorizeIx, slot: u64)
    | Execute(execute: ExecuteIx, slot: u64, primary: EngineOutcome, commit: EngineOutcome)
    | Token(op: TokenOp)
    | Engine(call: NestedCall)
    | External(writes: Store)

  /** A direct call of the constant-product engine, carrying only signatures people can give. */
  predicate DirectSigners(metas: seq<AccountMeta>) {
    forall i :: 0 <= i < |metas| ==> (metas[i].isSigner ==> metas[i].key.Plain?)
  }

  function DirectCall(w: Store, call: NestedCall): Option<Store> {
    match call
    case NestedPhase(phase, around) =>
      if !DirectSigners(CallMetas(phase)) then None else
      (match Evaluated(w, phase, around) case Ok(done) => Some(done.store) case Err(_) => None)
    case NestedSetMode(state, authority, mode) =>
      if !authority.Plain? then None else
      (match ModeSet(w, state, authority, mode) case Ok(w') => Some(w') case Err(_) => None)
  }

  /** Writes by programs outside the model: never to accounts of the three modelled programs. */
  predicate LegalExternal(w: Store, writes: Store) {
    forall k :: k in writes ==>
      && OwnerOf(w, k) != CORE && OwnerOf(w, k) != TOKEN_PROGRAM && OwnerOf(w, k) != PLAN_ENGINE
      && (k in w || k.Plain?)
      && (writes[k].owner == CORE ==> writes[k].data.OpaqueData? && !writes[k].executable)
      && (writes[k].owner == TOKEN_PROGRAM ==>
            (writes[k].data.OpaqueData? || FreshToken(w, writes[k])) && !writes[k].executable)
      && (writes[k].owner == PLAN_ENGINE ==>
            (writes[k].data.OpaqueData? || FreshEngineState(writes[k])) && !writes[k].executable)
  }

  function OfCore(r: Result<Store, CoreError>): Option<Store> {
    if r.Ok? then Some(r.value) else None
  }

  ghost function Attempt(w: Store, step: Step): Option<Store>
    requires Inv(w)
  {
    match step
    case Initialize(ix) => OfCore(InitializeSpec(w, ix))
    case Deposit(ix) => OfCore(DepositSpec(w, ix))
    case Authorize(ix, slot) => OfCore(AuthorizeSpec(w, ix, slot))
    case Execute(ix, slot, primary, commit) =>
      var r := ExecuteSpec(w, ix, slot, primary, commit);
      if r.Ok? then Some(r.value.store) else None
    case Token(op) => Applied(w, op)
    case Engine(call) => DirectCall(w, call)
    case External(writes) => if LegalExternal(w, writes) then Some(w + writes) else None
  }

  /** The market an instruction names as its participant. */
  function Participant(step: Step): Option<Key> {
    match step
    case Initialize(ix) => Some(ix.market.key)
    case Deposit(ix) => Some(ix.market.key)
    case Execute(ix, _, _, _) => Some(ix.e.market.key)
    case _ => None
  }

  // ---- Steps outside the settlement program ----

  /** Nobody but the settlement program can make the constant-product engine evaluate anything. */
  lemma DirectPhaseFails(w: Store, call: PhaseCall, around: Surroundings)
    ensures DirectCall(w, NestedPhase(call, around)) == None
  {
    hide Authenticated, PricedOutput, AfterHelper;
    if DirectSigners(CallMetas(call)) && Evaluated(w, call, around).Ok? {
      AuthenticatedCall(w, call);
    }
  }

  lemma DirectCallOutside(w: Store, call: NestedCall)
    requires DirectCall(w, call).Some?
    ensures call.NestedSetMode?
    ensures forall k :: Outside(w, DirectCall(w, call).value, k)
    ensures var w' := DirectCall(w, call).value;
            forall k ::
              || SameAt(w, w', k)
              || (&& IsPlanState(w, k) && IsPlanState(w', k)
                  && Progress(PlanStateAt(w', k)) == Progress(PlanStateAt(w, k)))
  {
    hide Evaluated;
    if call.NestedPhase? {
      DirectPhaseFails(w, call.call, call.around);
    }
  }

  lemma ExternalOutside(w: Store, writes: Store)
    requires LegalExternal(w, writes)
    ensures forall k :: Outside(w, w + writes, k)
  {
  }

  // ---- Every step ----

  /** What one successful step means for every market. */
  ghost predicate Orderly(w: Store, w': Store, step: Step) {
    && Inv(w')
    && (forall m :: IsMarket(w, m) ==> IsMarket(w', m) && MarketAt(w', m) == MarketAt(w, m))
    && (forall m :: IsMarket(w', m) && !IsMarket(w, m) ==> step.Initialize? && Participant(step) == Some(m))
    && (forall m :: IsMarket(w, m) && Participant(step) != Some(m) ==> Untouched(w, w', m))
  }

  lemma StepOrderly(w: Store, step: Step)
    requires Inv(w) && Attempt(w, step).Some?
    ensures Orderly(w, Attempt(w, step).value, step)
  {
    hide Inv, InitializeSpec, DepositSpec, AuthorizeSpec, ExecuteSpec, Applied, DirectCall, Untouched, Outside, Moved,
         Locked, MarketOk;
    var w' := Attempt(w, step).value;
    match step
    case Initialize(ix) => InitializeKeepsInv(w, ix); UntouchedRecords(w, w', None);
    case Deposit(ix) =>
      DepositKeepsInv(w, ix);
      DepositMarket(w, ix);
      UntouchedRecords(w, w', Some(ix.market.key));
    case Authorize(ix, slot) => AuthorizeKeepsInv(w, ix, slot); UntouchedRecords(w, w', None);
    case Execute(ix, slot, primary, commit) =>
      ExecutionKeepsInv(w, ix, slot, primary, commit);
      MovedRecord(w, w', ix.e.market.key, ix.args.amountIn, ExecuteSpec(w, ix, slot, primary, commit).value.fee,
                  ExecuteSpec(w, ix, slot, primary, commit).value.amountOut);
      UntouchedRecords(w, w', Some(ix.e.market.key));
    case Token(op) => AppliedKeepsInv(w, op); UntouchedRecords(w, w', None);
    case Engine(call) => DirectCallOutside(w, call); OutsideKeepsInv(w, w'); UntouchedRecords(w, w', None);
    case External(writes) => ExternalOutside(w, writes); OutsideKeepsInv(w, w'); UntouchedRecords(w, w', None);
  }

  lemma MovedRecord(w: Store, w': Store, p: Key, amountIn: nat, fee: nat, amountOut: nat)
    requires IsMarket(w, p) && MarketOk(w, p) && IsMarket(w', p) && MarketOk(w', p)
    requires Moved(w, w', p, amountIn, fee, amountOut)
    ensures MarketAt(w', p) == MarketAt(w, p)
  {
  }

  lemma UntouchedRecords(w: Store, w': Store, except: Option<Key>)
    requires forall m :: IsMarket(w, m) && except != Some(m) ==> Untouched(w, w', m)
    ensures forall m :: IsMarket(w, m) && except != Some(m) ==> IsMarket(w', m) && MarketAt(w', m) == MarketAt(w, m)
  {
  }

  ghost function Next(w: Store, step: Step): (w': Store)
    requires Inv(w)
    ensures Inv(w')
  {
    hide Attempt, Inv, Orderly;
    match Attempt(w, step)
    case None => w
    case Some(w') =>
      StepOrderly(w, step);
      OrderlyInv(w, w', step);
      w'
  }

  lemma OrderlyInv(w: Store, w': Store, step: Step)
    requires Orderly(w, w', step)
    ensures Inv(w')
  {
  }

  /** The store a run ends in. The result satisfies the invariant because every step keeps it. */
  ghost function Run(w: Store, steps: seq<Step>): (w': Store)
    requires Inv(w)
    ensures Inv(w')
    decreases |steps|
  {
    if steps == [] then w else Run(Next(w, steps[0]), steps[1..])
  }

  ghost predicate Succeeds(w: Store, step: Step)
    requires Inv(w)
  {
    Attempt(w, step).Some?
  }
}
