/** Solvency, conservation and isolation over whole runs. */
module Books {
  import opened Base
  import opened Keys
  import opened Ledger
  import opened Runtime
  import opened Core
  import opened Frames
  import opened ExecuteInstruction
  import opened Invariants
  import opened Instructions
  import opened Wallets
  import opened Lifecycle
  import opened Safety
  import opened Sequence
  import opened Runs

  // ---- Slack ----

  /** What a token instruction credits to an account nobody can spend from. */
  function GiftTo(op: TokenOp, k: Key): nat {
    match op
    case Transfer(from, _, to, _, amount) => if to == k && from != k then amount else 0
    case MintTo(_, to, amount) => if to == k then amount else 0
    case _ => 0
  }

  /** Credits that no accounting entry matches: donations, and outputs sent to a vault as recipient. */
  ghost function Unaccounted(w: Store, step: Step, k: Key): nat
    requires Inv(w)
  {
    if !Succeeds(w, step) then 0 else
    match step
    case Token(op) => GiftTo(op, k)
    case Execute(ix, slot, primary, commit) =>
      if ix.e.destination.key == k then ExecuteSpec(w, ix, slot, primary, commit).value.amountOut else 0
    case _ => 0
  }

  ghost function UnaccountedOver(w: Store, steps: seq<Step>, k: Key): nat
    requires Inv(w)
    decreases |steps|
  {
    if steps == [] then 0 else Unaccounted(w, steps[0], k) + UnaccountedOver(Next(w, steps[0]), steps[1..], k)
  }

  lemma LockedReceives(w: Store, op: TokenOp, k: Key)
    requires Applied(w, op).Some? && IsToken(w, k) && Locked(TokenAt(w, k))
    ensures IsToken(Applied(w, op).value, k)
    ensures TokenAt(Applied(w, op).value, k).amount == TokenAt(w, k).amount + GiftTo(op, k)
  {
    hide Debited;
    match op
    case Transfer(from, _, _, authority, amount) =>
      if Debited(TokenAt(w, from), authority, amount).Ok? {
        DebitedOk(TokenAt(w, from), authority, amount);
      }
    case Burn(from, _, authority, amount) => DebitedOk(TokenAt(w, from), authority, amount);
    case _ =>
  }

  lemma PotLocked(w: Store, m: Key, pot: Pot)
    requires IsMarket(w, m) && MarketOk(w, m)
    ensures IsToken(w, PotKey(w, m, pot)) && Locked(TokenAt(w, PotKey(w, m, pot)))
    ensures Accounts(w, m, pot) <= Held(w, m, pot)
  {
  }

  /** Books of an untouched market. */
  lemma UntouchedBooks(w: Store, w': Store, m: Key, pot: Pot)
    requires IsMarket(w, m) && MarketOk(w, m) && Untouched(w, w', m) && IsMarket(w', m) && MarketOk(w', m)
    ensures PotKey(w', m, pot) == PotKey(w, m, pot) && Accounts(w', m, pot) == Accounts(w, m, pot)
    ensures Held(w', m, pot) == TokenAt(w', PotKey(w, m, pot)).amount >= Held(w, m, pot)
  {
  }

  lemma TokenSlack(w: Store, op: TokenOp, m: Key, pot: Pot)
    requires Inv(w) && Applied(w, op).Some? && IsMarket(w, m) && MarketOk(w, m)
    ensures var w' := Applied(w, op).value;
            && IsMarket(w', m) && MarketOk(w', m)
            && Slack(w', m, pot) == Slack(w, m, pot) + GiftTo(op, PotKey(w, m, pot))
  {
    hide Inv, Applied, MarketOk, Untouched, Locked, GiftTo;
    AppliedKeepsInv(w, op);
    var w' := Applied(w, op).value;
    InvMarket(w', m);
    UntouchedBooks(w, w', m, pot);
    PotLocked(w, m, pot);
    LockedReceives(w, op, PotKey(w, m, pot));
  }

  /** Two markets share no vault. */
  lemma PotsDiffer(w: Store, m: Key, pot: Pot, p: Key, pot': Pot)
    requires IsMarket(w, m) && IsMarket(w, p) && m != p
    ensures PotKey(w, m, pot) != PotKey(w, p, pot')
  {
  }

  lemma ExecutionSlack(w: Store, ix: ExecuteIx, slot: u64, primary: EngineOutcome, commit: EngineOutcome, m: Key,
                       pot: Pot)
    requires Inv(w) && ExecuteSpec(w, ix, slot, primary, commit).Ok? && IsMarket(w, m) && MarketOk(w, m)
    ensures var x := ExecuteSpec(w, ix, slot, primary, commit).value;
            && IsMarket(x.store, m) && MarketOk(x.store, m)
            && Slack(x.store, m, pot)
               == Slack(w, m, pot) + (if ix.e.destination.key == PotKey(w, m, pot) then x.amountOut else 0)
  {
    hide Inv, ExecuteSpec, MarketOk, Untouched, Admitted, CanSettle, CanAccount, Guarded, Predicted, Admit;
    ExecutionKeepsInv(w, ix, slot, primary, commit);
    ExecutionEffect(w, ix, slot, primary, commit);
    var x, p := ExecuteSpec(w, ix, slot, primary, commit).value, ix.e.market.key;
    SettlementRoles(w, ix, Admit(w, ix, slot).value);
    InvMarket(x.store, m);
    PotLocked(w, m, pot);
    if m == p {
      OwnPots(w, ix, pot);
      MovedSlack(w, x.store, p, ix.args.amountIn, x.fee, x.amountOut, pot);
    } else {
      UntouchedBooks(w, x.store, m, pot);
      ExecutionTokens(w, ix, slot, primary, commit, PotKey(w, m, pot));
      PotsDiffer(w, m, pot, p, PotA);
      PotsDiffer(w, m, pot, p, PotB);
      PotsDiffer(w, m, pot, p, PotFee);
      VaultAfter(w, x.store, ix, x.fee, x.amountOut, PotKey(w, m, pot));
    }
  }

  lemma VaultAfter(w: Store, w': Store, ix: ExecuteIx, fee: nat, amountOut: nat, k: Key)
    requires IsToken(w, k) && TokenAfter(w, w', ix, fee, amountOut, k) && TokenAt(w, k).delegate == None
    requires IsToken(w, ix.e.source.key) && TokenAt(w, ix.e.source.key).delegate.Some?
    requires k != ix.e.vaultA.key && k != ix.e.vaultB.key && k != ix.e.feeVault.key
    ensures TokenAt(w', k).amount == TokenAt(w, k).amount + (if ix.e.destination.key == k then amountOut else 0)
  {
  }

  /** The recipient is never one of the participating market's own vaults. */
  lemma OwnPots(w: Store, ix: ExecuteIx, pot: Pot)
    requires var e := ix.e;
             && IsMarket(w, e.market.key) && MarketOk(w, e.market.key)
             && IsToken(w, e.destination.key) && TokenAt(w, e.destination.key).mint == e.mintB.key
             && e.mintB.key == MarketAt(w, e.market.key).mintB
             && e.vaultB.key == VaultB(e.market.key) && e.destination.key != e.vaultB.key
    ensures ix.e.destination.key != PotKey(w, ix.e.market.key, pot)
  {
  }

  lemma MovedSlack(w: Store, w': Store, p: Key, amountIn: nat, fee: nat, amountOut: nat, pot: Pot)
    requires IsMarket(w, p) && MarketOk(w, p) && IsMarket(w', p) && MarketOk(w', p)
    requires Moved(w, w', p, amountIn, fee, amountOut)
    ensures Slack(w', p, pot) == Slack(w, p, pot)
  {
  }

  lemma DepositSlack(w: Store, ix: DepositIx, m: Key, pot: Pot)
    requires Inv(w) && DepositSpec(w, ix).Ok? && IsMarket(w, m) && MarketOk(w, m)
    ensures var w' := DepositSpec(w, ix).value;
            IsMarket(w', m) && MarketOk(w', m) && Slack(w', m, pot) == Slack(w, m, pot)
  {
    hide Inv, DepositSpec, Untouched;
    DepositKeepsInv(w, ix);
    DepositMarket(w, ix);
    var w' := DepositSpec(w, ix).value;
    InvMarket(w', m);
    if m != ix.market.key {
      DepositOthers(w, ix, m);
      UntouchedBooks(w, w', m, pot);
    }
  }

  /** A step that leaves every token account as it is leaves every market's slack. */
  lemma QuietSlack(w: Store, w': Store, m: Key, pot: Pot)
    requires IsMarket(w, m) && MarketOk(w, m) && Untouched(w, w', m) && IsMarket(w', m) && MarketOk(w', m)
    requires IsToken(w, PotKey(w, m, pot)) ==> SameAt(w, w', PotKey(w, m, pot))
    ensures Slack(w', m, pot) == Slack(w, m, pot)
  {
    UntouchedBooks(w, w', m, pot);
  }

  /** One step: slack grows by exactly the unaccounted credits. */
  lemma StepSlack(w: Store, step: Step, m: Key, pot: Pot)
    requires Inv(w) && IsMarket(w, m) && MarketOk(w, m)
    ensures IsMarket(Next(w, step), m) && MarketOk(Next(w, step), m)
    ensures PotKey(Next(w, step), m, pot) == PotKey(w, m, pot)
    ensures Slack(Next(w, step), m, pot) == Slack(w, m, pot) + Unaccounted(w, step, PotKey(w, m, pot))
  {
    hide Inv, InitializeSpec, DepositSpec, AuthorizeSpec, ExecuteSpec, Applied, DirectCall, Untouched, Outside,
         MarketOk, Locked;
    if Attempt(w, step).Some? {
      var w' := Attempt(w, step).value;
      StepOrderly(w, step);
      InvMarket(w', m);
      PotLocked(w, m, pot);
      match step
      case Initialize(ix) =>
        InitializeKeepsInv(w, ix);
        CreatedKeeps(w, ix, PotKey(w, m, pot));
        QuietSlack(w, w', m, pot);
      case Deposit(ix) => DepositSlack(w, ix, m, pot);
      case Authorize(ix, slot) =>
        AuthorizeKeepsInv(w, ix, slot);
        AuthorizePermitted(w, ix, slot);
        QuietSlack(w, w', m, pot);
      case Execute(ix, slot, primary, commit) => ExecutionSlack(w, ix, slot, primary, commit, m, pot);
      case Token(op) => TokenSlack(w, op, m, pot);
      case Engine(call) => DirectCallOutside(w, call); OutsideKeepsInv(w, w'); QuietSlack(w, w', m, pot);
      case External(writes) => ExternalOutside(w, writes); OutsideKeepsInv(w, w'); QuietSlack(w, w', m, pot);
    }
  }

  lemma CreatedKeeps(w: Store, ix: InitializeIx, k: Key)
    requires InitializeSpec(w, ix).Ok? && k in w
    ensures SameAt(w, InitializeSpec(w, ix).value, k)
  {
    hide InitializeSpec, Created;
    InitializeFacts(w, ix);
    CreatedFrame(w, ix);
  }

  /**
   * Solvency over all runs. Under any interleaving, every vault of every market holds at least what it
   * accounts for, has no delegate and no close authority, and the excess is exactly what it held in
   * excess at the start plus the credits no accounting entry matches.
   */
  lemma {:induction false} Solvency(w: Store, steps: seq<Step>, m: Key, pot: Pot)
    requires Inv(w) && IsMarket(w, m) && MarketOk(w, m)
    ensures var w' := Run(w, steps);
            && IsMarket(w', m) && MarketOk(w', m) && PotKey(w', m, pot) == PotKey(w, m, pot)
            && Accounts(w', m, pot) <= Held(w', m, pot)
            && Locked(TokenAt(w', PotKey(w, m, pot)))
            && Held(w', m, pot) - Accounts(w', m, pot)
               == Held(w, m, pot) - Accounts(w, m, pot) + UnaccountedOver(w, steps, PotKey(w, m, pot))
    decreases |steps|
  {
    hide Inv, Next, MarketOk, Locked, Unaccounted, PotKey, Held, Accounts;
    if steps == [] {
      PotLocked(w, m, pot);
    } else {
      StepSlack(w, steps[0], m, pot);
      Solvency(Next(w, steps[0]), steps[1..], m, pot);
      PotLocked(w, m, pot);
    }
  }

  // ---- Conservation ----

  function Minted(op: TokenOp, mint: Key): int {
    match op
    case MintTo(m, _, amount) => if m == mint then amount else 0
    case Burn(_, m, _, amount) => var n: int := amount; if m == mint then -n else 0
    case _ => 0
  }

  ghost function MintedOver(w: Store, steps: seq<Step>, mint: Key): int
    requires Inv(w)
    decreases |steps|
  {
    if steps == [] then 0 else
    (if steps[0].Token? && Succeeds(w, steps[0]) then Minted(steps[0].op, mint) else 0)
    + MintedOver(Next(w, steps[0]), steps[1..], mint)
  }

  lemma TokenConserves(w: Store, op: TokenOp, mint: Key)
    requires Inv(w) && Applied(w, op).Some?
    ensures Total(Applied(w, op).value, mint) == Total(w, mint) + Minted(op, mint)
  {
    hide Inv, Debited, Total;
    var w' := Applied(w, op).value;
    match op
    case Transfer(from, m, to, authority, amount) => TransferConserves(w, from, m, to, authority, amount, mint);
    case MintTo(m, to, amount) =>
      var entry := MintEntry(w[m].data.supply + amount, w[m].data.hasFreezeAuthority);
      TotalUpdate(w, m, entry, mint);
      TotalUpdate(w[m := entry], to, TokenEntry(Credited(TokenAt(w, to), amount)), mint);
    case Burn(from, m, authority, amount) =>
      DebitedOk(TokenAt(w, from), authority, amount);
      var entry := MintEntry(w[m].data.supply - amount, w[m].data.hasFreezeAuthority);
      TotalUpdate(w, m, entry, mint);
      TotalUpdate(w[m := entry], from, TokenEntry(Debited(TokenAt(w, from), authority, amount).value), mint);
    case Approve(source, _, _, _, _) => TotalUpdate(w, source, w'[source], mint);
    case Revoke(source, _) => TotalUpdate(w, source, w'[source], mint);
    case SetOwner(source, _, _) => TotalUpdate(w, source, w'[source], mint);
    case SetCloseAuthority(source, _, _) => TotalUpdate(w, source, w'[source], mint);
    case OpenAccount(account, _, _) => TotalUpdate(w, account, w'[account], mint);
    case CloseAccount(account, _) => TotalSplit(w, account, mint);
    case OpenMint(m, _) => TotalUpdate(w, m, w'[m], mint);
  }

  lemma CreatedConserves(w: Store, ix: InitializeIx, mint: Key)
    requires InitializeSpec(w, ix).Ok?
    ensures Total(InitializeSpec(w, ix).value, mint) == Total(w, mint)
  {
    hide InitializeSpec, Created, TokenOk, Placed;
    InitializeFacts(w, ix);
    CreatedFrame(w, ix);
    var w' := Created(w, ix);
    forall k ensures HoldingAt(w, k, mint) == HoldingAt(w', k, mint) {
      assert k in w ==> SameAt(w, w', k);
    }
    TotalFrame(w, w', mint);
  }

  lemma StepConserves(w: Store, step: Step, mint: Key)
    requires Inv(w)
    ensures Total(Next(w, step), mint)
         == Total(w, mint) + (if step.Token? && Succeeds(w, step) then Minted(step.op, mint) else 0)
  {
    hide Inv, InitializeSpec, DepositSpec, AuthorizeSpec, ExecuteSpec, Applied, DirectCall, Outside, Total, Minted;
    if Attempt(w, step).Some? {
      var w' := Attempt(w, step).value;
      match step
      case Initialize(ix) => CreatedConserves(w, ix, mint);
      case Deposit(ix) => DepositConserves(w, ix, mint);
      case Authorize(ix, slot) => AuthorizeConserves(w, ix, slot, mint);
      case Execute(ix, slot, primary, commit) => ExecutionConserves(w, ix, slot, primary, commit, mint);
      case Token(op) => TokenConserves(w, op, mint);
      case Engine(call) => DirectCallOutside(w, call); OutsideConserves(w, w', mint);
      case External(writes) => ExternalOutside(w, writes); OutsideConserves(w, w', mint);
    }
  }

  lemma AuthorizeConserves(w: Store, ix: AuthorizeIx, slot: u64, mint: Key)
    requires Inv(w) && AuthorizeSpec(w, ix, slot).Ok?
    ensures Total(AuthorizeSpec(w, ix, slot).value, mint) == Total(w, mint)
  {
    hide Inv, Total, AuthorizeVerdict;
    AuthorizeFacts(w, ix, slot);
    TotalUpdate(w, ix.source.key, AuthorizeSpec(w, ix, slot).value[ix.source.key], mint);
  }

  /** Over any run a mint's balances change only by what was minted and burned, and still sum to its supply. */
  lemma {:induction false} Conservation(w: Store, steps: seq<Step>, mint: Key)
    requires Inv(w)
    ensures Total(Run(w, steps), mint) == Total(w, mint) + MintedOver(w, steps, mint)
    ensures IsMint(Run(w, steps), mint) ==> Total(Run(w, steps), mint) == Run(w, steps)[mint].data.supply <= U64_MAX
    decreases |steps|
  {
    hide Next, Total, Minted, MarketOk;
    if steps != [] {
      StepConserves(w, steps[0], mint);
      Conservation(Next(w, steps[0]), steps[1..], mint);
    } else {
      assert IsMint(w, mint) ==> SupplyOk(w, mint);
    }
  }

  // ---- Engine progress and isolation ----

  /** A successful execution through this state of the constant-product engine. */
  ghost predicate Hits(w: Store, step: Step, k: Key)
    requires Inv(w)
  {
    && step.Execute? && Succeeds(w, step)
    && step.execute.e.engineProgram.key == PLAN_ENGINE && step.execute.e.engineState.key == k
  }

  /** One step: a hit advances the sequence by one from the expected value; nothing else moves it. */
  lemma StepProgress(w: Store, step: Step, k: Key)
    requires Inv(w)
    ensures Hits(w, step, k) ==>
              && IsPlanState(w, k) && IsPlanState(Next(w, step), k)
              && PlanStateAt(w, k).market == step.execute.e.market.key
              && PlanStateAt(w, k).sequence == step.execute.args.expectedEngineSequence
              && PlanStateAt(Next(w, step), k).sequence == step.execute.args.expectedEngineSequence + 1
              && SameTerms(PlanStateAt(w, k), PlanStateAt(Next(w, step), k))
    ensures !Hits(w, step, k) && IsPlanState(w, k) ==>
              IsPlanState(Next(w, step), k) && Progress(PlanStateAt(Next(w, step), k)) == Progress(PlanStateAt(w, k))
    ensures !IsPlanState(w, k) && IsPlanState(Next(w, step), k) ==> Initialized(PlanStateAt(Next(w, step), k))
  {
    hide Inv, InitializeSpec, DepositSpec, AuthorizeSpec, ExecuteSpec, Applied, DirectCall, Outside, LegalExternal;
    if Attempt(w, step).Some? {
      match step
      case Initialize(ix) => InitializeStates(w, ix, k);
      case Deposit(ix) => DepositStates(w, ix, k);
      case Authorize(ix, slot) => AuthorizeStates(w, ix, slot, k);
      case Execute(ix, slot, primary, commit) =>
        if ix.e.engineProgram.key == PLAN_ENGINE && k == ix.e.engineState.key {
          ExecutionSteps(w, ix, slot, primary, commit);
        } else {
          ExecutionSparesStates(w, ix, slot, primary, commit, k);
        }
      case Token(op) => TokenStates(w, op, k);
      case Engine(call) => DirectCallOutside(w, call);
      case External(writes) => ExternalStates(w, writes, k);
    }
  }

  lemma ExternalStates(w: Store, writes: Store, k: Key)
    requires LegalExternal(w, writes)
    ensures IsPlanState(w, k) ==> SameAt(w, w + writes, k)
    ensures !IsPlanState(w, k) && IsPlanState(w + writes, k) ==> Initialized(PlanStateAt(w + writes, k))
  {
  }

  lemma InitializeStates(w: Store, ix: InitializeIx, k: Key)
    requires InitializeSpec(w, ix).Ok?
    ensures IsPlanState(w, k) || IsPlanState(InitializeSpec(w, ix).value, k) ==>
              SameAt(w, InitializeSpec(w, ix).value, k)
  {
    hide InitializeSpec;
    InitializeFacts(w, ix);
  }

  lemma DepositStates(w: Store, ix: DepositIx, k: Key)
    requires Inv(w) && DepositSpec(w, ix).Ok?
    ensures IsPlanState(w, k) || IsPlanState(DepositSpec(w, ix).value, k) ==> SameAt(w, DepositSpec(w, ix).value, k)
  {
    hide Inv, DepositSpec, DepositVerdict, WithAccounted;
    DepositEffect(w, ix);
    if k != ix.source.key && k != ix.vault.key && k != ix.domain.key {
      assert SameAt(w, DepositSpec(w, ix).value, k);
    }
  }

  lemma AuthorizeStates(w: Store, ix: AuthorizeIx, slot: u64, k: Key)
    requires AuthorizeSpec(w, ix, slot).Ok?
    ensures IsPlanState(w, k) || IsPlanState(AuthorizeSpec(w, ix, slot).value, k) ==>
              SameAt(w, AuthorizeSpec(w, ix, slot).value, k)
  {
    hide AuthorizeVerdict;
    AuthorizeFacts(w, ix, slot);
  }

  lemma TokenStates(w: Store, op: TokenOp, k: Key)
    requires Applied(w, op).Some?
    ensures IsPlanState(w, k) || IsPlanState(Applied(w, op).value, k) ==> SameAt(w, Applied(w, op).value, k)
  {
    hide Debited;
  }

  /**
   * The terms of an engine state are fixed when it is initialized: over any run an existing state keeps
   * authority, market, revision, LP fee and timing, and a state that appears has sound ones.
   */
  lemma {:induction false} TermsStand(w: Store, steps: seq<Step>, k: Key)
    requires Inv(w)
    ensures IsPlanState(w, k) ==>
              IsPlanState(Run(w, steps), k) && SameTerms(PlanStateAt(w, k), PlanStateAt(Run(w, steps), k))
    ensures !IsPlanState(w, k) && IsPlanState(Run(w, steps), k) ==>
              var s := PlanStateAt(Run(w, steps), k);
              0 < s.revision && s.lpFeeBps < 10_000 && s.timingMode <= 1
    decreases |steps|
  {
    hide Inv, Next, Hits;
    if steps != [] {
      StepProgress(w, steps[0], k);
      TermsStand(Next(w, steps[0]), steps[1..], k);
    }
  }

  /**
   * Market isolation. A run that never names the market as a participant leaves its record, domain and
   * fee ledger unchanged, leaves no vault smaller, and makes no progress in the engine state bound to
   * it, even when its vaults receive other markets' outputs.
   */
  lemma {:induction false} Isolation(w: Store, steps: seq<Step>, m: Key)
    requires Inv(w) && IsMarket(w, m)
    requires forall i :: 0 <= i < |steps| ==> Participant(steps[i]) != Some(m)
    ensures IsMarket(Run(w, steps), m) && Untouched(w, Run(w, steps), m)
    ensures var k := MarketAt(w, m).engineState;
            IsPlanState(w, k) && PlanStateAt(w, k).market == m ==>
              IsPlanState(Run(w, steps), k) && Progress(PlanStateAt(Run(w, steps), k)) == Progress(PlanStateAt(w, k))
    decreases |steps|
  {
    hide Inv, Untouched, Next, Participant, Hits;
    if steps == [] {
      InvMarket(w, m);
      UntouchedSelf(w, m);
    } else {
      StepIsolates(w, steps[0], m);
      Isolation(Next(w, steps[0]), steps[1..], m);
      UntouchedTrans(w, Next(w, steps[0]), Run(w, steps), m);
    }
  }

  lemma UntouchedSelf(w: Store, m: Key)
    requires IsMarket(w, m) && MarketOk(w, m)
    ensures Untouched(w, w, m)
  {
  }

  lemma StepIsolates(w: Store, step: Step, m: Key)
    requires Inv(w) && IsMarket(w, m) && Participant(step) != Some(m)
    ensures IsMarket(Next(w, step), m) && Untouched(w, Next(w, step), m) && MarketAt(Next(w, step), m) == MarketAt(w, m)
    ensures var k := MarketAt(w, m).engineState;
            IsPlanState(w, k) && PlanStateAt(w, k).market == m ==>
              IsPlanState(Next(w, step), k) && Progress(PlanStateAt(Next(w, step), k)) == Progress(PlanStateAt(w, k))
  {
    hide Inv, Untouched, Attempt;
    if Attempt(w, step).Some? {
      StepOrderly(w, step);
    } else {
      InvMarket(w, m);
      UntouchedSelf(w, m);
    }
    StepProgress(w, step, MarketAt(w, m).engineState);
  }
}
