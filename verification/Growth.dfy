/** The constant product over whole runs, and splitting a trade over successive executions. */
module Growth {
  import opened Base
  import opened Keys
  import opened Ledger
  import opened Runtime
  import opened Core
  import opened Frames
  import opened ExecuteInstruction
  import opened Invariants
  import opened Instructions
  import opened Lifecycle
  import opened Safety
  import opened Honest
  import opened Trades
  import opened Runs
  import opened Books
  import FixedMath
  import PathMath

  /** The product of a market's accounted reserves. */
  function Product(w: Store, m: Key): nat
    requires IsMarket(w, m) && MarketOk(w, m)
  {
    Accounts(w, m, PotA) * Accounts(w, m, PotB)
  }

  predicate Funded(w: Store, m: Key)
    requires IsMarket(w, m) && MarketOk(w, m)
  {
    Accounts(w, m, PotA) > 0 && Accounts(w, m, PotB) > 0
  }

  /** Whenever the run executes on the market with success, its engine is the accepting constant-product one. */
  ghost predicate AcceptingThroughout(w: Store, steps: seq<Step>, m: Key)
    requires Inv(w)
    decreases |steps|
  {
    steps != [] ==>
      && (steps[0].Execute? && Participant(steps[0]) == Some(m) && Succeeds(w, steps[0]) ==>
            Accepting(w, steps[0].execute.e))
      && AcceptingThroughout(Next(w, steps[0]), steps[1..], m)
  }

  /** One accepted execution: the quote's output, the product no lower, both reserves still positive. */
  lemma ExecutionGrows(w: Store, ix: ExecuteIx, slot: u64, primary: EngineOutcome, commit: EngineOutcome)
    requires Inv(w) && ExecuteSpec(w, ix, slot, primary, commit).Ok? && Accepting(w, ix.e)
    ensures var x, m := ExecuteSpec(w, ix, slot, primary, commit).value, ix.e.market.key;
            && IsMarket(w, m) && MarketOk(w, m) && IsMarket(x.store, m) && MarketOk(x.store, m)
            && FixedMath.QuoteExactIn(Accounts(w, m, PotA), Accounts(w, m, PotB), ix.args.amountIn,
                                      PlanStateAt(w, ix.e.engineState.key).lpFeeBps).Ok?
            && x.amountOut == FixedMath.QuoteExactIn(Accounts(w, m, PotA), Accounts(w, m, PotB), ix.args.amountIn,
                                                     PlanStateAt(w, ix.e.engineState.key).lpFeeBps).value.amountOut
            && Product(w, m) <= Product(x.store, m) && Funded(w, m) && Funded(x.store, m)
  {
    hide Inv, ExecuteSpec, Admit, Admitted, TradeStore, Tradable, Helped, MarketOk, Untouched, FixedMath.QuoteExactIn;
    ExecutionEffect(w, ix, slot, primary, commit);
    ExecutionKeepsInv(w, ix, slot, primary, commit);
    TradeExactly(w, ix, slot, primary, commit);
    var adm, m := Admit(w, ix, slot).value, ix.e.market.key;
    AdmittedShape(w, ix, adm);
    BooksOf(w, ix, adm);
    var d, s := DomainAt(w, ix.e.domain.key), PlanStateAt(w, ix.e.engineState.key);
    PathMath.ProductNeverFalls(d.accountedA, d.accountedB, ix.args.amountIn, s.lpFeeBps);
    PathMath.QuoteMeaning(d.accountedA, d.accountedB, ix.args.amountIn, s.lpFeeBps);
    QuoteOutput(w, ix);
    MovedBooks(w, ExecuteSpec(w, ix, slot, primary, commit).value.store, m, ix.args.amountIn,
               ExecuteSpec(w, ix, slot, primary, commit).value.fee,
               ExecuteSpec(w, ix, slot, primary, commit).value.amountOut);
  }

  lemma BooksOf(w: Store, ix: ExecuteIx, adm: Admission)
    requires Admitted(w, ix, adm)
    ensures IsMarket(w, ix.e.market.key) && MarketOk(w, ix.e.market.key) && Constrained(w, ix.e)
    ensures Accounts(w, ix.e.market.key, PotA) == DomainAt(w, ix.e.domain.key).accountedA
    ensures Accounts(w, ix.e.market.key, PotB) == DomainAt(w, ix.e.domain.key).accountedB
  {
  }

  lemma MovedBooks(w: Store, w': Store, p: Key, amountIn: nat, fee: nat, amountOut: nat)
    requires IsMarket(w, p) && MarketOk(w, p) && IsMarket(w', p) && MarketOk(w', p)
    requires Moved(w, w', p, amountIn, fee, amountOut)
    ensures Accounts(w', p, PotA) == Accounts(w, p, PotA) + amountIn
    ensures Accounts(w', p, PotB) == Accounts(w, p, PotB) - amountOut
  {
  }

  lemma DepositGrows(w: Store, ix: DepositIx)
    requires Inv(w) && DepositSpec(w, ix).Ok?
    ensures var w', m := DepositSpec(w, ix).value, ix.market.key;
            && IsMarket(w, m) && MarketOk(w, m) && IsMarket(w', m) && MarketOk(w', m)
            && Product(w, m) <= Product(w', m) && (Funded(w, m) ==> Funded(w', m))
  {
    hide Inv, DepositSpec, DomainMatches, FeeLedgerMatches, VaultOk;
    DepositMarket(w, ix);
    var w', m := DepositSpec(w, ix).value, ix.market.key;
    MulMono(Accounts(w, m, PotA), Accounts(w', m, PotA), Accounts(w, m, PotB));
    MulMono(Accounts(w, m, PotB), Accounts(w', m, PotB), Accounts(w', m, PotA));
  }

  lemma StepGrows(w: Store, step: Step, m: Key)
    requires Inv(w) && IsMarket(w, m) && MarketOk(w, m)
    requires step.Execute? && Participant(step) == Some(m) && Succeeds(w, step) ==> Accepting(w, step.execute.e)
    ensures IsMarket(Next(w, step), m) && MarketOk(Next(w, step), m)
    ensures Product(w, m) <= Product(Next(w, step), m)
    ensures Funded(w, m) ==> Funded(Next(w, step), m)
  {
    hide Inv, InitializeSpec, DepositSpec, AuthorizeSpec, ExecuteSpec, DirectCall, LegalExternal, Untouched, MarketOk,
         Accepting, Product, Funded;
    if Attempt(w, step).Some? {
      var w' := Attempt(w, step).value;
      StepOrderly(w, step);
      InvMarket(w', m);
      if Participant(step) != Some(m) {
        UntouchedGrows(w, w', m);
      } else {
        match step
        case Initialize(ix) => InitializeKeepsInv(w, ix);
        case Deposit(ix) => DepositGrows(w, ix);
        case Execute(ix, slot, primary, commit) => ExecutionGrows(w, ix, slot, primary, commit);
      }
    }
  }

  lemma UntouchedGrows(w: Store, w': Store, m: Key)
    requires IsMarket(w, m) && MarketOk(w, m) && Untouched(w, w', m) && IsMarket(w', m) && MarketOk(w', m)
    ensures Product(w', m) == Product(w, m) && (Funded(w, m) ==> Funded(w', m))
  {
    UntouchedBooks(w, w', m, PotA);
    UntouchedBooks(w, w', m, PotB);
  }

  /**
   * The constant-product invariant over runs. While the market's own executions use an accepting engine,
   * deposits, executions in either timing, and everything anybody else does never lower the product of
   * its accounted reserves, and reserves once positive stay positive.
   */
  lemma {:induction false} ProductNeverFallsOverRuns(w: Store, steps: seq<Step>, m: Key)
    requires Inv(w) && IsMarket(w, m) && MarketOk(w, m) && AcceptingThroughout(w, steps, m)
    ensures IsMarket(Run(w, steps), m) && MarketOk(Run(w, steps), m)
    ensures Product(w, m) <= Product(Run(w, steps), m)
    ensures Funded(w, m) ==> Funded(Run(w, steps), m)
    decreases |steps|
  {
    hide Inv, Next, MarketOk, Product, Funded, Accepting, Participant;
    if steps != [] {
      StepGrows(w, steps[0], m);
      ProductNeverFallsOverRuns(Next(w, steps[0]), steps[1..], m);
    }
  }

  // ---- Splitting a trade over a run ----

  /** A successful execution of the market. */
  ghost predicate IsTrade(w: Store, step: Step, m: Key)
    requires Inv(w)
  {
    step.Execute? && step.execute.e.market.key == m && Succeeds(w, step)
  }

  /** Whatever succeeds in the market's name is an execution with the accepting engine. */
  ghost predicate OnlyTrades(w: Store, step: Step, m: Key)
    requires Inv(w)
  {
    Participant(step) == Some(m) && Succeeds(w, step) ==> step.Execute? && Accepting(w, step.execute.e)
  }

  /**
   * A run in which the market itself only trades. Its steps may be interleaved with anything else:
   * authorizations, approvals, donations, deposits and trades elsewhere, and attempts that fail.
   */
  ghost predicate Trading(w: Store, steps: seq<Step>, m: Key)
    requires Inv(w)
    decreases |steps|
  {
    steps != [] ==> OnlyTrades(w, steps[0], m) && Trading(Next(w, steps[0]), steps[1..], m)
  }

  /** The market's engine state is the constant-product engine's and bound to the market. */
  predicate Bound(w: Store, m: Key) {
    && IsMarket(w, m) && IsPlanState(w, MarketAt(w, m).engineState)
    && PlanStateAt(w, MarketAt(w, m).engineState).market == m
  }

  function LpFee(w: Store, m: Key): u16
    requires Bound(w, m)
  {
    PlanStateAt(w, MarketAt(w, m).engineState).lpFeeBps
  }

  ghost function Paid(w: Store, step: Step, m: Key): Executed
    requires Inv(w) && IsTrade(w, step, m)
  {
    ExecuteSpec(w, step.execute, step.slot, step.primary, step.commit).value
  }

  /** The inputs of the market's successful executions, in order. */
  ghost function InputsOver(w: Store, steps: seq<Step>, m: Key): seq<u64>
    requires Inv(w)
    decreases |steps|
  {
    if steps == [] then [] else
    (if IsTrade(w, steps[0], m) then [steps[0].execute.args.amountIn] else [])
        + InputsOver(Next(w, steps[0]), steps[1..], m)
  }

  /** What they paid out in total. */
  ghost function OutputsOver(w: Store, steps: seq<Step>, m: Key): nat
    requires Inv(w)
    decreases |steps|
  {
    if steps == [] then 0 else
    (if IsTrade(w, steps[0], m) then Paid(w, steps[0], m).amountOut else 0)
        + OutputsOver(Next(w, steps[0]), steps[1..], m)
  }

  /** And the protocol fees they owed in total. */
  ghost function FeesOver(w: Store, steps: seq<Step>, m: Key): nat
    requires Inv(w)
    decreases |steps|
  {
    if steps == [] then 0 else
    (if IsTrade(w, steps[0], m) then Paid(w, steps[0], m).fee else 0) + FeesOver(Next(w, steps[0]), steps[1..], m)
  }

  /** An accepted trade keeps the engine's fee and binding. */
  lemma TradeKeepsTerms(w: Store, ix: ExecuteIx, adm: Admission, out: u64, writes: Store)
    requires Admitted(w, ix, adm) && Tradable(w, ix, adm, out)
    ensures var v, k := TradeStore(w, ix, adm, out, writes), ix.e.engineState.key;
            && IsPlanState(v, k) && PlanStateAt(v, k).lpFeeBps == PlanStateAt(w, k).lpFeeBps
            && PlanStateAt(v, k).market == PlanStateAt(w, k).market
  {
    hide Admitted, FinalRequest, Constrained, CanSettle, Settled;
    StateOwner(w, ix, adm);
  }

  /** The execution's engine state is the one its market is bound to. */
  lemma BoundState(w: Store, ix: ExecuteIx, adm: Admission)
    requires Admitted(w, ix, adm)
    ensures IsMarket(w, ix.e.market.key) && ix.e.engineState.key == MarketAt(w, ix.e.market.key).engineState
  {
  }

  lemma MovedMarket(w: Store, w': Store, p: Key, amountIn: nat, fee: nat, amountOut: nat)
    requires IsMarket(w, p) && MarketOk(w, p) && IsMarket(w', p) && MarketOk(w', p)
    requires Moved(w, w', p, amountIn, fee, amountOut)
    ensures MarketAt(w', p) == MarketAt(w, p)
  {
  }

  /** One step of the path: it leaves the market with these reserves, still bound, at the same fee. */
  predicate Steps(w: Store, w': Store, m: Key, amountIn: nat, amountOut: nat)
    requires IsMarket(w, m) && MarketOk(w, m) && Bound(w, m)
  {
    && IsMarket(w', m) && MarketOk(w', m) && Bound(w', m) && LpFee(w', m) == LpFee(w, m)
    && Accounts(w', m, PotA) == Accounts(w, m, PotA) + amountIn
    && Accounts(w', m, PotB) == Accounts(w, m, PotB) - amountOut
  }

  /** A trade pays the quote of the reserves it finds and leaves the next ones. */
  lemma TradeStep(w: Store, step: Step, m: Key)
    requires Inv(w) && IsTrade(w, step, m) && OnlyTrades(w, step, m) && IsMarket(w, m) && MarketOk(w, m) && Bound(w, m)
    ensures step.execute.args.amountIn > 0 && Paid(w, step, m).fee == FeeOf(step.execute.args.amountIn)
    ensures PathMath.Pays(Accounts(w, m, PotA), Accounts(w, m, PotB), step.execute.args.amountIn, LpFee(w, m))
         == Some(Paid(w, step, m).amountOut)
    ensures Steps(w, Next(w, step), m, step.execute.args.amountIn, Paid(w, step, m).amountOut)
  {
    hide Inv, ExecuteSpec, Admit, Admitted, TradeStore, Tradable, Helped, MarketOk, Untouched, FixedMath.QuoteExactIn,
         PathMath.Pays, FeeOf, Moved;
    var ix, slot, p, c := step.execute, step.slot, step.primary, step.commit;
    var x := ExecuteSpec(w, ix, slot, p, c).value;
    ExecutionGrows(w, ix, slot, p, c);
    ExecutionEffect(w, ix, slot, p, c);
    ExecutionKeepsInv(w, ix, slot, p, c);
    ExecutionTokens(w, ix, slot, p, c, ix.e.source.key);
    var adm := Admit(w, ix, slot).value;
    MovedBooks(w, x.store, m, ix.args.amountIn, x.fee, x.amountOut);
    MovedMarket(w, x.store, m, ix.args.amountIn, x.fee, x.amountOut);
    TradeExactly(w, ix, slot, p, c);
    AdmittedShape(w, ix, adm);
    BoundState(w, ix, adm);
    TradeKeepsTerms(w, ix, adm, x.amountOut, Helped(ix.e, adm, ix.args.opaquePayload, EffectiveHelper(ix, p, c)).value);
  }

  /** Any other step leaves the market's reserves, binding and fee as they are. */
  lemma QuietStep(w: Store, step: Step, m: Key)
    requires Inv(w) && !IsTrade(w, step, m) && OnlyTrades(w, step, m) && IsMarket(w, m) && MarketOk(w, m) && Bound(w, m)
    ensures Steps(w, Next(w, step), m, 0, 0)
  {
    hide Inv, MarketOk, Untouched, Attempt, Accepting;
    if Attempt(w, step).Some? {
      StepIsolates(w, step, m);
      InvMarket(Next(w, step), m);
      UntouchedBooks(w, Next(w, step), m, PotA);
      UntouchedBooks(w, Next(w, step), m, PotB);
    }
  }

  /** Amounts and fees as the path of quotes from these reserves has them. */
  predicate OnPath(x: u64, y: u64, lpFee: u16, inputs: seq<u64>, outputs: nat, fees: nat) {
    && PathMath.PathQuotes(x, y, inputs, lpFee) && outputs == PathMath.PathOutput(x, y, inputs, lpFee)
    && (forall i :: 0 <= i < |inputs| ==> FixedMath.FeeCeil(inputs[i], PROTOCOL_FEE_BPS).Ok?)
    && fees == PathMath.PathFees(inputs, PROTOCOL_FEE_BPS)
  }

  lemma PathExtends(x: u64, y: u64, lpFee: u16, first: u64, out: u64, rest: seq<u64>, outputs: nat, fees: nat)
    requires first > 0 && PathMath.Pays(x, y, first, lpFee) == Some(out)
    requires OnPath(x + first, y - out, lpFee, rest, outputs, fees)
    ensures OnPath(x, y, lpFee, [first] + rest, out + outputs, FeeOf(first) + fees)
  {
    hide PathMath.Pays, FixedMath.FeeCeil;
    var inputs := [first] + rest;
    assert inputs[1..] == rest;
  }

  lemma TradeTallies(w: Store, steps: seq<Step>, m: Key)
    requires Inv(w) && steps != [] && IsTrade(w, steps[0], m)
    ensures var rest, trade := Next(w, steps[0]), steps[0];
            && trade.Execute?
            && InputsOver(w, steps, m) == [trade.execute.args.amountIn] + InputsOver(rest, steps[1..], m)
            && OutputsOver(w, steps, m) == Paid(w, trade, m).amountOut + OutputsOver(rest, steps[1..], m)
            && FeesOver(w, steps, m) == Paid(w, trade, m).fee + FeesOver(rest, steps[1..], m)
  {
    hide Inv, Next, Paid, Succeeds;
  }

  lemma QuietTallies(w: Store, steps: seq<Step>, m: Key)
    requires Inv(w) && steps != [] && !IsTrade(w, steps[0], m)
    ensures InputsOver(w, steps, m) == InputsOver(Next(w, steps[0]), steps[1..], m)
    ensures OutputsOver(w, steps, m) == OutputsOver(Next(w, steps[0]), steps[1..], m)
    ensures FeesOver(w, steps, m) == FeesOver(Next(w, steps[0]), steps[1..], m)
  {
    hide Inv, Next, Paid, IsTrade;
  }

  /** The market's executions walk the path of quotes from its accounted reserves, whatever happens in between. */
  lemma {:induction false} TradesFollowPath(w: Store, steps: seq<Step>, m: Key)
    requires Inv(w) && IsMarket(w, m) && MarketOk(w, m) && Bound(w, m) && Trading(w, steps, m)
    ensures OnPath(Accounts(w, m, PotA), Accounts(w, m, PotB), LpFee(w, m),
                   InputsOver(w, steps, m), OutputsOver(w, steps, m), FeesOver(w, steps, m))
    decreases |steps|
  {
    hide Inv, Next, OnlyTrades, MarketOk, Paid, IsTrade, LpFee, PathMath.Pays, FeeOf, Accounts, Bound;
    if steps == [] {
    } else {
      hide OnPath, InputsOver, OutputsOver, FeesOver;
      if IsTrade(w, steps[0], m) {
        TradeTallies(w, steps, m);
        TradeStep(w, steps[0], m);
        TradesFollowPath(Next(w, steps[0]), steps[1..], m);
        PathExtends(Accounts(w, m, PotA), Accounts(w, m, PotB), LpFee(w, m), steps[0].execute.args.amountIn,
                    Paid(w, steps[0], m).amountOut, InputsOver(Next(w, steps[0]), steps[1..], m),
                    OutputsOver(Next(w, steps[0]), steps[1..], m), FeesOver(Next(w, steps[0]), steps[1..], m));
      } else {
        QuietTallies(w, steps, m);
        QuietStep(w, steps[0], m);
        TradesFollowPath(Next(w, steps[0]), steps[1..], m);
      }
    }
  }

  /**
   * Splitting a trade never helps, however the parts are spread over a run: over one account with
   * authorizations between them, over several, with anything else in between. The single trade of the
   * summed input would quote at the reserves the run began with, pay at least the total output, and owe
   * at most the total fees.
   */
  lemma SplittingExecutionsNeverHelps(w: Store, steps: seq<Step>, m: Key)
    requires Inv(w) && IsMarket(w, m) && MarketOk(w, m) && Bound(w, m) && Trading(w, steps, m)
    requires InputsOver(w, steps, m) != []
    ensures var x, y, total := Accounts(w, m, PotA), Accounts(w, m, PotB), PathMath.Sum(InputsOver(w, steps, m));
            && 0 < total && x + total <= U64_MAX
            && FixedMath.QuoteExactIn(x, y, total, LpFee(w, m)).Ok?
            && OutputsOver(w, steps, m) <= FixedMath.QuoteExactIn(x, y, total, LpFee(w, m)).value.amountOut
            && FeeOf(total) <= FeesOver(w, steps, m)
  {
    hide Inv, MarketOk, Trading, LpFee, Bound, FixedMath.QuoteExactIn, FixedMath.FeeCeil, Accounts, OutputsOver,
         FeesOver, InputsOver, PathMath.PathQuotes, PathMath.PathOutput, PathMath.PathFees, PathMath.Sum,
         FixedMath.Effective, FixedMath.Output;
    TradesFollowPath(w, steps, m);
    var inputs := InputsOver(w, steps, m);
    PathMath.SplittingNeverHelps(Accounts(w, m, PotA), Accounts(w, m, PotB), inputs, LpFee(w, m));
    PathMath.QuoteMeaning(Accounts(w, m, PotA), Accounts(w, m, PotB), PathMath.Sum(inputs), LpFee(w, m));
    PathMath.SplittingNeverSavesFees(inputs, PROTOCOL_FEE_BPS);
  }
}
