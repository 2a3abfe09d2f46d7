/**
 * One small market and one trade on it: a store that meets the invariant and an execution that succeeds
 * there, so the theorems about successful executions are about something.
 */
module Example {
  import opened Base
  import opened Bindings
  import opened Keys
  import opened Ledger
  import opened Capabilities
  import opened PlanEngine
  import opened Runtime
  import opened Core
  import opened Frames
  import opened ExecuteInstruction
  import opened Trades
  import opened Sequence
  import opened Instructions
  import opened Lifecycle
  import opened Runs
  import Executors
  import Honest
  import Liveness
  import PathMath
  import Replay
  import Timings

  const MINT_A := Plain(10)
  const MINT_B := Plain(11)
  const STATE := Plain(12)
  const FOUNDER := Plain(13)
  const USER := Plain(14)
  const SOURCE := Plain(15)
  const DESTINATION := Plain(16)
  const LOADER := Plain(17)
  const MARKET := MarketPda(FOUNDER, 0)
  const DOMAIN := DomainPda(MARKET)
  const LEDGER := FeeLedgerPda(MARKET, MINT_A)
  const VAULT_A := VaultPda(DOMAIN, ASSET_A)
  const VAULT_B := VaultPda(DOMAIN, ASSET_B)
  const FEE_VAULT := FeeVaultPda(LEDGER)

  function ExampleHash(): Digest {
    CapabilityHash(PLAN_ENGINE, PhaseDescriptors(STATE, PLAN_ENGINE, [], true))
  }

  /** Sell 100 of A, fee 1, for at least 50 of B. */
  function ExampleIntent(): Intent {
    IntentBinding(
      TIMING_SINGLE, CORE, MARKET, DOMAIN, PLAN_ENGINE, STATE, USER, SOURCE, DESTINATION, MINT_A, MINT_B,
      VAULT_A, VAULT_B, FEE_VAULT, LEDGER, TOKEN_PROGRAM, 1, FEE_POLICY_REVISION, 100, 1,
      101, 50, 1, 1000, Raw(7), ExampleHash(), Sha(PayloadPreimage([])))
  }

  function ExampleState(): EngineState {
    EngineState(FOUNDER, MARKET, 1, 30, TIMING_SINGLE, 0, ZERO, ZERO, ZERO, 0, NO_COMPLETED_PHASE, MODE_ACCEPT)
  }

  function Holder(mint: Key, owner: Key, amount: u64): Account {
    TokenEntry(TokenAccount(mint, owner, amount, None, 0, None))
  }

  function ExampleSource(): Account {
    TokenEntry(TokenAccount(MINT_A, USER, 200, Some(SpendPda(SOURCE, IntentDigest(ExampleIntent()))), 101, None))
  }

  /** The records, then the token accounts. */
  function ExampleRecords(): Store {
    map[][MINT_A := MintEntry(1200, false)][MINT_B := MintEntry(1000, false)]
         [PLAN_ENGINE := Account(LOADER, true, OpaqueData(0))][STATE := PlanEntry(ExampleState())]
         [MARKET := Account(CORE, false, MarketData(Market(
            EXPERIMENT_VERSION, FOUNDER, 0, PLAN_ENGINE, STATE, 1, MINT_A, MINT_B, PROTOCOL_FEE_BPS,
            FEE_POLICY_REVISION)))]
         [DOMAIN := DomainEntry(Domain(EXPERIMENT_VERSION, MARKET, PLAN_ENGINE, STATE, 1, 1000, 1000))]
         [LEDGER := FeeLedgerEntry(FeeLedger(EXPERIMENT_VERSION, MARKET, MINT_A, 0))]
  }

  function ExampleStore(): Store {
    ExampleRecords()
      [VAULT_A := Holder(MINT_A, DOMAIN, 1000)][VAULT_B := Holder(MINT_B, DOMAIN, 1000)]
      [FEE_VAULT := Holder(MINT_A, LEDGER, 0)][SOURCE := ExampleSource()][DESTINATION := Holder(MINT_B, USER, 0)]
  }

  lemma ExampleTotals(mint: Key)
    requires mint == MINT_A || mint == MINT_B
    ensures Total(ExampleStore(), mint) == if mint == MINT_A then 1200 else 1000
  {
    hide Total, ExampleIntent, ExampleState;
    var r := ExampleRecords();
    forall k ensures HoldingAt(r, k, mint) == 0 {
    }
    TotalZero(r, mint);
    var w1 := r[VAULT_A := Holder(MINT_A, DOMAIN, 1000)];
    var w2 := w1[VAULT_B := Holder(MINT_B, DOMAIN, 1000)];
    var w3 := w2[FEE_VAULT := Holder(MINT_A, LEDGER, 0)];
    var w4 := w3[SOURCE := ExampleSource()];
    TotalUpdate(r, VAULT_A, Holder(MINT_A, DOMAIN, 1000), mint);
    TotalUpdate(w1, VAULT_B, Holder(MINT_B, DOMAIN, 1000), mint);
    TotalUpdate(w2, FEE_VAULT, Holder(MINT_A, LEDGER, 0), mint);
    TotalUpdate(w3, SOURCE, ExampleSource(), mint);
    TotalUpdate(w4, DESTINATION, Holder(MINT_B, USER, 0), mint);
  }

  lemma OnlyMarket()
    ensures forall k :: IsMarket(ExampleStore(), k) ==> k == MARKET
  {
    hide ExampleIntent, ExampleState;
  }

  lemma ExampleMarket()
    ensures IsMarket(ExampleStore(), MARKET) && MarketOk(ExampleStore(), MARKET)
    ensures forall k :: IsMarket(ExampleStore(), k) ==> k == MARKET
  {
    hide ExampleIntent, ExampleState, ExampleSource;
    OnlyMarket();
  }

  lemma ExampleAccounts()
    ensures forall k :: k in ExampleStore() ==> Placed(k, ExampleStore()[k])
    ensures forall k :: IsToken(ExampleStore(), k) ==> TokenOk(ExampleStore(), k)
    ensures forall k :: IsMint(ExampleStore(), k) ==> k == MINT_A || k == MINT_B
    ensures IsMint(ExampleStore(), MINT_A) && ExampleStore()[MINT_A].data.supply == 1200
    ensures IsMint(ExampleStore(), MINT_B) && ExampleStore()[MINT_B].data.supply == 1000
  {
    hide ExampleIntent, ExampleState;
  }

  lemma ExampleInvariant()
    ensures Inv(ExampleStore())
  {
    hide Total, ExampleStore, MarketOk, Placed, TokenOk;
    ExampleAccounts();
    ExampleMarket();
    forall k | IsMint(ExampleStore(), k) ensures SupplyOk(ExampleStore(), k) {
      ExampleTotals(k);
    }
  }

  function Lent(k: Key): AccountMeta { AccountMeta(k, false, true) }
  function Shown(k: Key): AccountMeta { AccountMeta(k, false, false) }

  function ExampleEnvelope(): Envelope {
    var digest := IntentDigest(ExampleIntent());
    Envelope(
      Shown(MARKET), Lent(DOMAIN), Lent(LEDGER), Shown(MINT_A), Shown(MINT_B), Lent(SOURCE), Lent(DESTINATION),
      Lent(VAULT_A), Lent(VAULT_B), Lent(FEE_VAULT), Shown(PLAN_ENGINE), Lent(STATE), Shown(SpendPda(SOURCE, digest)),
      Shown(CallbackPda(PLAN_ENGINE, STATE, MARKET, DOMAIN, digest, PHASE_TRANSITION)),
      Shown(CallbackPda(PLAN_ENGINE, STATE, MARKET, DOMAIN, digest, PHASE_COMMIT)), Shown(TOKEN_PROGRAM))
  }

  function ExampleIx(): ExecuteIx {
    ExecuteIx(ExampleEnvelope(), [], Args(100, 101, 50, 1, 1000, Raw(7), 0, TIMING_SINGLE, ExampleHash(), []))
  }

  /** Which role of the example a key plays. */
  function RoleOf(k: Key): int {
    match k
    case MarketPda(_, _) => 0
    case DomainPda(_) => 1
    case FeeLedgerPda(_, _) => 2
    case VaultPda(_, asset) => if asset == ASSET_A then 7 else 8
    case FeeVaultPda(_) => 9
    case SpendPda(_, _) => 12
    case CallbackPda(_, _, _, _, _, phase) => if phase == PHASE_COMMIT then 14 else 13
    case Plain(id) =>
      if id == 10 then 3 else if id == 11 then 4 else if id == 15 then 5 else if id == 16 then 6
      else if id == 5 then 10 else if id == 12 then 11 else if id == 2 then 15 else 16
  }

  lemma ExampleRoles()
    ensures NoDuplicates(EnvelopeKeys(ExampleEnvelope()))
  {
    hide ExampleIntent;
    var keys := EnvelopeKeys(ExampleEnvelope());
    assert RoleOf(keys[0]) == 0 && RoleOf(keys[1]) == 1 && RoleOf(keys[2]) == 2 && RoleOf(keys[3]) == 3;
    assert RoleOf(keys[4]) == 4;
    assert RoleOf(keys[5]) == 5 && RoleOf(keys[6]) == 6 && RoleOf(keys[7]) == 7 && RoleOf(keys[8]) == 8;
    assert RoleOf(keys[9]) == 9;
    assert RoleOf(keys[10]) == 10 && RoleOf(keys[11]) == 11 && RoleOf(keys[12]) == 12 && RoleOf(keys[13]) == 13;
    assert RoleOf(keys[14]) == 14 && RoleOf(keys[15]) == 15 && RoleOf(keys[16]) == 16;
    hide RoleOf, ExampleEnvelope;
    assert forall i :: 0 <= i < 17 ==> RoleOf(keys[i]) == i;
  }

  /** A store that has the example's accounts, whatever else it has. */
  ghost predicate Extends(w: Store) {
    Inv(w) && forall k :: k in ExampleStore() ==> SameAt(ExampleStore(), w, k)
  }

  lemma ExtendsAt(w: Store)
    requires Extends(w)
    ensures IsMarket(w, MARKET) && w[MARKET] == ExampleStore()[MARKET]
    ensures IsDomain(w, DOMAIN)
    ensures DomainAt(w, DOMAIN) == Domain(EXPERIMENT_VERSION, MARKET, PLAN_ENGINE, STATE, 1, 1000, 1000)
    ensures IsFeeLedger(w, LEDGER) && IsMint(w, MINT_A) && IsMint(w, MINT_B)
    ensures IsToken(w, SOURCE) && w[SOURCE] == ExampleSource()
    ensures IsToken(w, DESTINATION) && w[DESTINATION] == Holder(MINT_B, USER, 0)
    ensures IsToken(w, VAULT_A) && w[VAULT_A] == Holder(MINT_A, DOMAIN, 1000)
    ensures IsToken(w, VAULT_B) && w[VAULT_B] == Holder(MINT_B, DOMAIN, 1000)
    ensures IsToken(w, FEE_VAULT) && w[FEE_VAULT] == Holder(MINT_A, LEDGER, 0)
    ensures Executable(w, PLAN_ENGINE) && IsPlanState(w, STATE) && PlanStateAt(w, STATE) == ExampleState()
    ensures !Executable(w, STATE)
  {
    hide Inv, ExampleIntent, ExampleState, Extends;
    ExtendsOne(w, MARKET);
    ExtendsOne(w, DOMAIN);
    ExtendsOne(w, LEDGER);
    ExtendsOne(w, MINT_A);
    ExtendsOne(w, MINT_B);
    ExtendsOne(w, SOURCE);
    ExtendsOne(w, DESTINATION);
    ExtendsOne(w, VAULT_A);
    ExtendsOne(w, VAULT_B);
    ExtendsOne(w, FEE_VAULT);
    ExtendsOne(w, PLAN_ENGINE);
    ExtendsOne(w, STATE);
  }

  lemma ExtendsOne(w: Store, k: Key)
    requires Extends(w) && k in ExampleStore()
    ensures SameAt(ExampleStore(), w, k)
  {
  }

  lemma ExampleConstrained(w: Store)
    requires Extends(w)
    ensures Constrained(w, ExampleEnvelope())
    ensures RebuiltIntent(w, ExampleIx(), 1, ExampleHash()) == ExampleIntent()
    ensures TokenAt(w, SOURCE) == ExampleSource().data.token
    ensures IsPlanState(w, STATE) && PlanStateAt(w, STATE) == ExampleState()
    ensures DomainAt(w, DOMAIN).accountedA == 1000 && DomainAt(w, DOMAIN).accountedB == 1000
    ensures MarketAt(w, MARKET).engineRevision == 1
  {
    ExtendsAt(w);
    hide Extends, ExampleHash, IntentDigest, ExampleState;
  }

  lemma ExampleExecutables(w: Store)
    requires Extends(w)
    ensures EnvelopeVerdict(w, ExampleEnvelope()) == Result.Ok(())
  {
    ExtendsAt(w);
    DerivedAbsent(w);
    hide EnvelopeKeys, ExampleIntent, ExampleState, NoDuplicates, Extends, ExampleStore;
    ExampleRoles();
  }

  lemma DerivedAbsent(w: Store)
    requires Extends(w)
    ensures forall k: Key :: k.SpendPda? || k.CallbackPda? ==> k !in w
  {
    hide ExampleStore;
    forall k: Key | k.SpendPda? || k.CallbackPda? ensures k !in w {
      assert k in w ==> Placed(k, w[k]);
    }
  }

  lemma ExampleFee()
    ensures FeeOf(100) == 1
  {
    PathMath.FeeIsCeiling(100, PROTOCOL_FEE_BPS);
  }

  /** The trade is named by the authorization the source carries, and admitted. */
  lemma ExampleAdmitted(w: Store, slot: u64)
    requires Extends(w) && slot <= 1000
    ensures Admit(w, ExampleIx(), slot).Ok?
  {
    hide Extends, Constrained, EnvelopeVerdict, EnvelopeKeys, ExampleIntent, ExampleState, RebuiltIntent,
         PhaseDescriptors, IntentDigest, FeeOf;
    ExampleConstrained(w);
    ExampleExecutables(w);
    ExampleFee();
    var ix := ExampleIx();
    assert Loaded(w, ix.closure) == [];
    assert OpaqueDescriptors([], EnvelopeKeys(ix.e)) == Result.Ok([]);
  }

  lemma NoHelper(adm: Admission, helper: Option<Data>)
    ensures Helped(ExampleEnvelope(), adm, [], helper).Ok?
  {
    hide ClosureInfos;
  }

  /** Past admission, the quote is 90 and nothing else stands in the way. */
  lemma ExampleReady(w: Store, adm: Admission, helper: Option<Data>)
    requires Extends(w)
    ensures Constrained(w, ExampleEnvelope()) && IsPlanState(w, STATE)
    ensures TradeReady(w, ExampleIx(), adm, helper) && TradeOutput(w, ExampleIx()) == 90
  {
    hide Extends, Constrained, ExampleIntent, ExampleStore, ExampleHash, ClosureInfos, IntentDigest, Helped;
    ExampleConstrained(w);
    NoHelper(adm, helper);
    PathMath.QuoteSucceeds(1000, 1000, 100, 30);
    PathMath.QuoteMeaning(1000, 1000, 100, 30);
  }

  /** Wherever the example's accounts exist, its trade succeeds, for a fee of 1 and an output of 90. */
  lemma ExampleTrades(w: Store, slot: u64, primary: EngineOutcome, commit: EngineOutcome)
    requires Extends(w) && slot <= 1000
    ensures Inv(w) && ExecuteSpec(w, ExampleIx(), slot, primary, commit).Ok?
    ensures ExecuteSpec(w, ExampleIx(), slot, primary, commit).value.fee == 1
    ensures ExecuteSpec(w, ExampleIx(), slot, primary, commit).value.amountOut == 90
  {
    ExtendsInv(w);
    hide Extends, Inv, Admit, Admitted, Constrained, ExecuteSpec, TradeStore, Tradable, ExampleIntent, FeeOf,
         ExampleHash, ExampleStore, TradeReady, TradeOutput, Helped, IntentDigest;
    ExampleAdmitted(w, slot);
    ExampleConstrained(w);
    ExampleFee();
    var ix := ExampleIx();
    var adm := Admit(w, ix, slot).value;
    ExampleReady(w, adm, EffectiveHelper(ix, primary, commit));
    TradeExactly(w, ix, slot, primary, commit);
    AdmittedFee(w, ix, adm);
  }

  lemma ExtendsInv(w: Store)
    requires Extends(w)
    ensures Inv(w)
  {
  }

  lemma AdmittedFee(w: Store, ix: ExecuteIx, adm: Admission)
    requires Admitted(w, ix, adm)
    ensures ix.args.amountIn > 0 && adm.fee == FeeOf(ix.args.amountIn)
  {
  }

  /** The store meets the invariant, and the trade on it succeeds. */
  lemma ExampleTrade(slot: u64, primary: EngineOutcome, commit: EngineOutcome)
    requires slot <= 1000
    ensures Inv(ExampleStore()) && ExecuteSpec(ExampleStore(), ExampleIx(), slot, primary, commit).Ok?
    ensures ExecuteSpec(ExampleStore(), ExampleIx(), slot, primary, commit).value == Executed(
              ExecuteSpec(ExampleStore(), ExampleIx(), slot, primary, commit).value.store, 1, 90)
  {
    hide Inv, ExecuteSpec, ExampleStore, ExampleIx;
    ExampleInvariant();
    ExampleTrades(ExampleStore(), slot, primary, commit);
  }

  lemma StoreExtends()
    requires Inv(ExampleStore())
    ensures Extends(ExampleStore())
  {
  }

  lemma ExampleOwner(w: Store)
    requires Extends(w)
    ensures ExampleIx().e.source.key == SOURCE && IsToken(w, SOURCE) && TokenAt(w, SOURCE).owner.Plain?
    ensures Honest.Accepting(w, ExampleIx().e)
  {
    hide Extends, ExampleStore, IntentDigest, ExampleHash;
    ExtendsAt(w);
  }

  /** Nor is the comparison of the executors about nothing: this trade is in step, and its owner could have made it. */
  lemma ExampleInStep(slot: u64, primary: EngineOutcome, commit: EngineOutcome)
    requires slot <= 1000
    ensures Executors.InStep(ExampleStore(), ExampleIx(), EffectiveHelper(ExampleIx(), primary, commit))
    ensures IsToken(ExampleStore(), ExampleIx().e.source.key)
    ensures Executors.OwnerAccepts(ExampleStore(), ExampleIx(), slot)
  {
    hide Inv, ExecuteSpec, ExampleStore, ExampleIx, Executors.InStep, Executors.OwnerAccepts, Extends;
    ExampleTrade(slot, primary, commit);
    StoreExtends();
    ExampleOwner(ExampleStore());
    Executors.SucceedsExactly(ExampleStore(), ExampleIx(), slot, primary, commit);
  }

  // ---- A shared engine state ----

  const SECOND := MarketPda(FOUNDER, 1)

  /** A second market over the same mints that names the first market's engine state. */
  function SecondIx(): InitializeIx {
    var domain, ledger := DomainPda(SECOND), FeeLedgerPda(SECOND, MINT_A);
    InitializeIx(
      AccountMeta(FOUNDER, true, true), Lent(SECOND), Lent(domain), Lent(ledger), Shown(MINT_A), Shown(MINT_B),
      Lent(VaultPda(domain, ASSET_A)), Lent(VaultPda(domain, ASSET_B)), Lent(FeeVaultPda(ledger)),
      Shown(PLAN_ENGINE), Shown(STATE), Shown(TOKEN_PROGRAM), Shown(SYSTEM_PROGRAM), 0, 1, 1)
  }

  function SecondRole(k: Key): int {
    match k
    case MarketPda(_, _) => 1
    case DomainPda(_) => 2
    case FeeLedgerPda(_, _) => 3
    case VaultPda(_, asset) => if asset == ASSET_A then 6 else 7
    case FeeVaultPda(_) => 8
    case Plain(id) =>
      if id == 13 then 0 else if id == 10 then 4 else if id == 11 then 5 else if id == 5 then 9 else if id == 12 then 10
      else if id == 2 then 11 else if id == 1 then 12 else 13
    case _ => 14
  }

  lemma SecondRoles()
    ensures NoDuplicates(InitializeKeys(SecondIx()))
  {
    var keys := InitializeKeys(SecondIx());
    assert SecondRole(keys[0]) == 0 && SecondRole(keys[1]) == 1 && SecondRole(keys[2]) == 2 && SecondRole(keys[3]) == 3;
    assert SecondRole(keys[4]) == 4 && SecondRole(keys[5]) == 5 && SecondRole(keys[6]) == 6 && SecondRole(keys[7]) == 7;
    assert SecondRole(keys[8]) == 8 && SecondRole(keys[9]) == 9 && SecondRole(keys[10]) == 10;
    assert SecondRole(keys[11]) == 11;
    assert SecondRole(keys[12]) == 12 && SecondRole(keys[13]) == 13;
    hide SecondRole, SecondIx;
    assert forall i :: 0 <= i < 14 ==> SecondRole(keys[i]) == i;
  }

  lemma SecondInitializes()
    ensures InitializeSpec(ExampleStore(), SecondIx()) == Result.Ok(Created(ExampleStore(), SecondIx()))
  {
    hide Created, InitializeKeys, NoDuplicates, ExampleIntent, ExampleState, ExampleStore, Extends, Inv;
    ExampleInvariant();
    StoreExtends();
    ExtendsAt(ExampleStore());
    SecondAbsent();
    SecondRoles();
    ExampleSupplies();
  }

  lemma SecondAbsent()
    ensures var ix, w := SecondIx(), ExampleStore();
            && ix.market.key !in w && ix.domain.key !in w && ix.feeLedger.key !in w
            && ix.vaultA.key !in w && ix.vaultB.key !in w && ix.feeVault.key !in w
  {
    hide ExampleIntent, ExampleState;
  }

  lemma ExampleSupplies()
    ensures ExampleStore()[MINT_A] == MintEntry(1200, false) && ExampleStore()[MINT_B] == MintEntry(1000, false)
  {
    hide ExampleIntent, ExampleState;
  }

  /**
   * Isolation of engine progress fails for a state bound to another market: this run names only the
   * first market, and the state that the second market is bound to advances all the same.
   */
  lemma SharedStateAdvances(primary: EngineOutcome, commit: EngineOutcome)
    ensures Inv(ExampleStore()) && InitializeSpec(ExampleStore(), SecondIx()).Ok?
    ensures var w, step := Created(ExampleStore(), SecondIx()), Step.Execute(ExampleIx(), 0, primary, commit);
            && Inv(w) && IsMarket(w, SECOND) && Participant(step) != Some(SECOND)
            && IsPlanState(w, MarketAt(w, SECOND).engineState)
            && IsPlanState(Next(w, step), MarketAt(w, SECOND).engineState)
            && PlanStateAt(w, MarketAt(w, SECOND).engineState).sequence == 0
            && PlanStateAt(Next(w, step), MarketAt(w, SECOND).engineState).sequence == 1
  {
    ExampleInvariant();
    SecondInitializes();
    hide Inv, ExampleStore, Created, ExecuteSpec, InitializeSpec, ExampleIntent, PhaseDescriptors, Extends, Next,
         SecondIx, ExampleHash, IntentDigest;
    SecondNamesState();
    var w := Created(ExampleStore(), SecondIx());
    SecondExtends();
    ExtendsAt(w);
    ExampleTrades(w, 0, primary, commit);
    ExecutionSteps(w, ExampleIx(), 0, primary, commit);
    NextExecute(w, ExampleIx(), 0, primary, commit);
  }

  lemma NextExecute(w: Store, ix: ExecuteIx, slot: u64, primary: EngineOutcome, commit: EngineOutcome)
    requires Inv(w) && ExecuteSpec(w, ix, slot, primary, commit).Ok?
    ensures Next(w, Step.Execute(ix, slot, primary, commit)) == ExecuteSpec(w, ix, slot, primary, commit).value.store
  {
    hide Inv, ExecuteSpec;
  }

  lemma SecondExtends()
    ensures Inv(ExampleStore()) && Extends(Created(ExampleStore(), SecondIx()))
  {
    ExampleInvariant();
    SecondInitializes();
    hide Inv, ExampleStore, Created, InitializeSpec;
    InitializeKeepsInv(ExampleStore(), SecondIx());
    InitializeFacts(ExampleStore(), SecondIx());
    CreatedFrame(ExampleStore(), SecondIx());
  }

  lemma SecondNamesState()
    ensures IsMarket(Created(ExampleStore(), SecondIx()), SECOND)
    ensures MarketAt(Created(ExampleStore(), SecondIx()), SECOND).engineState == STATE
  {
    hide ExampleStore;
  }

  // ---- An authorization that can never execute ----

  /** The example's intent at twice the protocol fee. */
  function MispricedIntent(): Intent {
    ExampleIntent().(protocolFee := 2, maxProtocolFee := 2, maxTotalInputDebit := 102)
  }

  /** The user's own authorization of an intent. */
  function AuthorizationOf(b: Intent): AuthorizeIx {
    AuthorizeIx(AccountMeta(USER, true, false), Lent(SOURCE), Shown(MINT_A), Shown(SpendPda(SOURCE, IntentDigest(b))),
                Shown(TOKEN_PROGRAM), 0, true, Some(b))
  }

  function BeforeAuthorization(): Store {
    ExampleStore()[SOURCE := Holder(MINT_A, USER, 200)]
  }

  lemma AuthorizationRoles(b: Intent)
    ensures NoDuplicates(AuthorizeKeys(AuthorizationOf(b)))
  {
    var keys := AuthorizeKeys(AuthorizationOf(b));
    assert keys == [USER, SOURCE, MINT_A, SpendPda(SOURCE, IntentDigest(b)), TOKEN_PROGRAM, CORE];
  }

  /** It is authorized although its fee is not the protocol's, and no execution under it can succeed. */
  lemma MispricedIsAuthorized(slot: u64)
    requires slot <= 1000
    ensures AuthorizeSpec(BeforeAuthorization(), AuthorizationOf(MispricedIntent()), slot).Ok?
    ensures MispricedIntent().protocolFee != FeeOf(MispricedIntent().amountIn)
  {
    hide NoDuplicates, AuthorizeKeys, ExampleHash, ExampleState, FeeOf;
    AuthorizationRoles(MispricedIntent());
    ExampleFee();
  }

  // ---- The priced intent ----

  lemma BeforeIsUndelegated()
    ensures Inv(BeforeAuthorization())
    ensures BeforeAuthorization() == Executors.Undelegated(ExampleStore(), SOURCE)
  {
    hide Inv, ExampleIntent, ExampleState;
    ExampleInvariant();
    Executors.UndelegatedKeepsInv(ExampleStore(), SOURCE);
  }

  /** Authorizing the priced intent leaves exactly the example's store. */
  lemma PricedIsAuthorized(slot: u64)
    requires slot <= 1000
    ensures AuthorizeSpec(BeforeAuthorization(), AuthorizationOf(ExampleIntent()), slot) == Result.Ok(ExampleStore())
  {
    hide NoDuplicates, AuthorizeKeys, ExampleHash, ExampleState;
    AuthorizationRoles(ExampleIntent());
    var w := BeforeAuthorization();
    assert w[SOURCE := ExampleSource()] == ExampleStore();
  }

  /** The intent says truly what the execution observes, before its authorization and after. */
  lemma ExamplePresents(slot: u64)
    requires slot <= 1000
    ensures Liveness.Presents(BeforeAuthorization(), ExampleIx(), ExampleIntent())
  {
    hide Inv, ExampleStore, BeforeAuthorization, ExampleIntent, Constrained, Extends, Admit, Executors.Undelegated,
         FeeOf, Liveness.Presents;
    ExampleInvariant();
    StoreExtends();
    var w, ix := ExampleStore(), ExampleIx();
    ExampleConstrained(w);
    Executors.UndelegatedConstrained(w, ix.e);
    BeforeIsUndelegated();
    ExtendsAt(w);
    SourceKeepsOwner(w);
    PresentsAfter(slot);
    Liveness.PresentationStands(w, BeforeAuthorization(), ix, ExampleIntent());
  }

  lemma SourceKeepsOwner(w: Store)
    requires IsToken(w, SOURCE) && IsMarket(w, MARKET)
    ensures TokenAt(Executors.Undelegated(w, SOURCE), SOURCE).owner == TokenAt(w, SOURCE).owner
    ensures MarketAt(Executors.Undelegated(w, SOURCE), MARKET) == MarketAt(w, MARKET)
  {
  }

  lemma PresentsAfter(slot: u64)
    requires slot <= 1000 && Extends(ExampleStore())
    ensures Liveness.Presents(ExampleStore(), ExampleIx(), ExampleIntent())
  {
    hide Inv, ExampleStore, ExampleIntent, Constrained, Extends, Admit, Admitted, FeeOf, Timings.Named, ExampleHash;
    var w, ix := ExampleStore(), ExampleIx();
    ExampleLive(w);
    ExampleAdmitted(w, slot);
    ExtendsInv(w);
    AdmissionFacts(w, ix, slot);
    Executors.AdmittedIsNamed(w, ix, Admit(w, ix, slot).value);
    ExampleConstrained(w);
    ExampleFee();
  }

  lemma ExampleLive(w: Store)
    requires Extends(w)
    ensures Replay.Live(w, SOURCE, IntentDigest(ExampleIntent()))
    ensures ExampleIx().e.source.key == SOURCE && ExampleIx().args.amountIn == 100
    ensures Constrained(w, ExampleIx().e) && IsPlanState(w, ExampleIx().e.engineState.key)
  {
    ExampleConstrained(w);
    hide Extends, ExampleStore, IntentDigest, ExampleHash, ExampleIntent, Constrained, ExampleState;
  }

  /** A run of no steps, after the authorization. */
  lemma NothingBetween(slot: u64)
    requires slot <= 1000 && Inv(BeforeAuthorization())
    ensures var w1 := Next(BeforeAuthorization(), Authorize(AuthorizationOf(ExampleIntent()), slot));
            w1 == ExampleStore() == Run(w1, []) && Replay.NeverApproves(w1, [], SOURCE)
  {
    PricedIsAuthorized(slot);
    hide Inv, ExampleStore, BeforeAuthorization, AuthorizationOf, ExampleIntent, AuthorizeSpec, Next;
    Replay.NextAuthorize(BeforeAuthorization(), AuthorizationOf(ExampleIntent()), slot);
  }

  /** The whole way: the priced intent is authorized, and all that it leaves open is in order. */
  lemma ExampleFulfillable(slot: u64, slot': u64, primary: EngineOutcome, commit: EngineOutcome)
    requires slot <= 1000 && slot' <= 1000
    ensures Inv(BeforeAuthorization())
    ensures AuthorizeSpec(BeforeAuthorization(), AuthorizationOf(ExampleIntent()), slot) == Result.Ok(ExampleStore())
    ensures Liveness.Presents(BeforeAuthorization(), ExampleIx(), ExampleIntent())
    ensures Constrained(ExampleStore(), ExampleIx().e) && IsPlanState(ExampleStore(), ExampleIx().e.engineState.key)
    ensures ExampleIx().args.amountIn > 0
    ensures Liveness.Fulfillable(ExampleStore(), ExampleIx(), slot', EffectiveHelper(ExampleIx(), primary, commit))
  {
    hide Inv, ExampleStore, BeforeAuthorization, ExampleIx, ExampleIntent, AuthorizeSpec, Constrained, ExecuteSpec,
         Liveness.Presents, Liveness.Fulfillable, EffectiveHelper, Extends, Next, Run, Replay.NeverApproves,
         Replay.Live, Honest.Accepting, IntentDigest;
    BeforeIsUndelegated();
    PricedIsAuthorized(slot);
    ExamplePresents(slot);
    NothingBetween(slot);
    ExampleTrade(slot', primary, commit);
    StoreExtends();
    ExampleOwner(ExampleStore());
    ExampleLive(ExampleStore());
    Liveness.AuthorizedExecutesExactly(BeforeAuthorization(), AuthorizationOf(ExampleIntent()), slot, [], ExampleIx(),
                                       slot', primary, commit);
  }
}
