/** What every successful execution keeps, gives and takes, whatever the engine did. */
module Safety {
  import opened Base
  import opened Keys
  import opened Ledger
  import opened Runtime
  import opened Core
  import opened Frames
  import opened ExecuteInstruction
  import opened Invariants

  /** The vault of a market that a balance and its accounting live in. */
  datatype Pot = PotA | PotB | PotFee

  function PotKey(w: Store, market: Key, pot: Pot): Key
    requires IsMarket(w, market)
  {
    match pot
    case PotA => VaultA(market)
    case PotB => VaultB(market)
    case PotFee => FeeVault(w, market)
  }

  function Held(w: Store, market: Key, pot: Pot): u64
    requires IsMarket(w, market) && MarketOk(w, market)
  {
    TokenAt(w, PotKey(w, market, pot)).amount
  }

  function Accounts(w: Store, market: Key, pot: Pot): u64
    requires IsMarket(w, market) && MarketOk(w, market)
  {
    match pot
    case PotA => DomainAt(w, DomainPda(market)).accountedA
    case PotB => DomainAt(w, DomainPda(market)).accountedB
    case PotFee => FeeLedgerAt(w, LedgerOf(w, market)).accountedFeeA
  }

  /** What a vault holds beyond what it accounts for. */
  function Slack(w: Store, market: Key, pot: Pot): nat
    requires IsMarket(w, market) && MarketOk(w, market)
  {
    Held(w, market, pot) - Accounts(w, market, pot)
  }

  lemma UntouchedTrans(w: Store, v: Store, w': Store, m: Key)
    requires IsMarket(w, m) && Untouched(w, v, m) && IsMarket(v, m) && Untouched(v, w', m)
    ensures Untouched(w, w', m)
  {
  }

  /**
   * Any successful execution, in either timing and under any engine: the invariant survives, the
   * participating market moves by exactly the input, the fee and the output, every other market is
   * left alone, and no market appears or disappears.
   */
  lemma ExecutionKeepsInv(w: Store, ix: ExecuteIx, slot: u64, primary: EngineOutcome, commit: EngineOutcome)
    requires Inv(w) && ExecuteSpec(w, ix, slot, primary, commit).Ok?
    ensures var x, p := ExecuteSpec(w, ix, slot, primary, commit).value, ix.e.market.key;
            && Inv(x.store)
            && (forall m :: IsMarket(x.store, m) <==> IsMarket(w, m))
            && (forall m :: IsMarket(w, m) && m != p ==> Untouched(w, x.store, m))
            && IsMarket(w, p) && MarketOk(w, p) && IsMarket(x.store, p) && MarketOk(x.store, p)
            && Moved(w, x.store, p, ix.args.amountIn, x.fee, x.amountOut)
  {
    hide ExecuteSpec, Inv, Admitted, CanSettle, CanAccount, Guarded, Predicted, MarketOk, Untouched, Outside, MintsKept,
         Moved;
    ExecutionEffect(w, ix, slot, primary, commit);
    var x, p := ExecuteSpec(w, ix, slot, primary, commit).value, ix.e.market.key;
    var adm := Admit(w, ix, slot).value;
    var v := Predicted(w, ix, x.fee, x.amountOut);
    PredictedKeepsInv(w, ix, adm, x.amountOut);
    PredictedFrame(w, ix, x.fee, x.amountOut);
    ParticipantMoves(w, ix, adm, x.amountOut);
    GuardedIsOutside(v, x.store, ix.e, ix.closure);
    OutsideKeepsInv(v, x.store);
    InvMarket(x.store, p);
    MovedTrans(w, v, x.store, p, ix.args.amountIn, x.fee, x.amountOut);
    forall m | IsMarket(w, m) && m != p ensures Untouched(w, x.store, m) {
      InvMarket(w, m);
      OthersUntouched(w, ix, adm, x.amountOut, m);
      assert IsMarket(v, m);
      UntouchedTrans(w, v, x.store, m);
    }
  }

  lemma InvMarket(w: Store, m: Key)
    requires Inv(w) && IsMarket(w, m)
    ensures MarketOk(w, m)
  {
  }

  lemma MovedTrans(w: Store, v: Store, w': Store, p: Key, amountIn: nat, fee: nat, amountOut: nat)
    requires IsMarket(w, p) && MarketOk(w, p) && IsMarket(v, p) && MarketOk(v, p) && IsMarket(w', p) && MarketOk(w', p)
    requires Moved(w, v, p, amountIn, fee, amountOut) && Untouched(v, w', p)
    requires forall k :: IsToken(v, k) ==> SameAt(v, w', k)
    ensures Moved(w, w', p, amountIn, fee, amountOut)
  {
    assert IsToken(v, VaultA(p)) && IsToken(v, VaultB(p)) && IsToken(v, FeeVault(v, p));
  }

  /** An execution moves balances between accounts of a mint and creates none. */
  lemma ExecutionConserves(w: Store, ix: ExecuteIx, slot: u64, primary: EngineOutcome, commit: EngineOutcome, mint: Key)
    requires Inv(w) && ExecuteSpec(w, ix, slot, primary, commit).Ok?
    ensures Total(ExecuteSpec(w, ix, slot, primary, commit).value.store, mint) == Total(w, mint)
  {
    hide ExecuteSpec, Inv, Admitted, CanSettle, CanAccount, Guarded, Predicted, Outside, Total;
    ExecutionEffect(w, ix, slot, primary, commit);
    var x := ExecuteSpec(w, ix, slot, primary, commit).value;
    var v := Predicted(w, ix, x.fee, x.amountOut);
    PredictedConserves(w, ix, Admit(w, ix, slot).value, x.amountOut, mint);
    GuardedIsOutside(v, x.store, ix.e, ix.closure);
    OutsideConserves(v, x.store, mint);
  }

  lemma OutsideConserves(w: Store, w': Store, mint: Key)
    requires forall k :: Outside(w, w', k)
    ensures Total(w', mint) == Total(w, mint)
  {
    forall k ensures HoldingAt(w, k, mint) == HoldingAt(w', k, mint) {
      assert Outside(w, w', k);
    }
    TotalFrame(w, w', mint);
  }

  /** One token account across an execution. */
  predicate TokenAfter(w: Store, w': Store, ix: ExecuteIx, fee: nat, amountOut: nat, k: Key) {
    && (IsToken(w, k) ==> IsToken(w', k))
    && (IsToken(w', k) && !IsToken(w, k) ==> TokenAt(w', k).delegate == None && TokenAt(w', k).amount == 0)
    && (IsToken(w, k) ==>
          var t, t' := TokenAt(w, k), TokenAt(w', k);
          && (k == ix.e.source.key ==>
                && t'.amount == t.amount - (ix.args.amountIn + fee)
                && t' == t.(amount := t'.amount, delegate := None, delegatedAmount := 0))
          && (k != ix.e.source.key ==> t' == t.(amount := t'.amount))
          && (k !in SettlementKeys(ix.e) ==> t' == t)
          && (k == ix.e.destination.key ==> t'.amount == t.amount + amountOut))
  }

  lemma PredictedToken(w: Store, ix: ExecuteIx, adm: Admission, amountOut: u64, k: Key)
    requires Admitted(w, ix, adm)
    requires CanSettle(w, ix.e, ix.args.amountIn, adm.fee, amountOut)
    requires CanAccount(w, ix.e, ix.args.amountIn, adm.fee, amountOut)
    ensures TokenAfter(w, Predicted(w, ix, adm.fee, amountOut), ix, adm.fee, amountOut, k)
  {
    hide Admitted, Predicted, CanSettle, CanAccount;
    SettlementRoles(w, ix, adm);
    var v := Predicted(w, ix, adm.fee, amountOut);
    PredictedEntries(w, ix, adm, amountOut);
    PredictedFrame(w, ix, adm.fee, amountOut);
    PredictedTokensExist(w, ix, adm, amountOut);
    if k !in SettlementKeys(ix.e) {
      assert SameAt(w, v, k) || k == ix.e.domain.key || k == ix.e.feeLedger.key;
    }
  }

  /**
   * Every token account after an execution: the source lost exactly its allowance and its delegate,
   * the recipient gained the output, the vaults moved by the settlement, everything else is the same.
   */
  lemma ExecutionTokens(w: Store, ix: ExecuteIx, slot: u64, primary: EngineOutcome, commit: EngineOutcome, k: Key)
    requires Inv(w) && ExecuteSpec(w, ix, slot, primary, commit).Ok?
    ensures IsToken(w, ix.e.source.key) && Admit(w, ix, slot).Ok? && ix.args.amountIn > 0
    ensures TokenAt(w, ix.e.source.key).delegate
         == Some(SpendPda(ix.e.source.key, IntentDigest(Admit(w, ix, slot).value.intent)))
    ensures TokenAt(w, ix.e.source.key).delegatedAmount == ix.args.amountIn + FeeOf(ix.args.amountIn)
    ensures var x := ExecuteSpec(w, ix, slot, primary, commit).value;
            x.fee == FeeOf(ix.args.amountIn) && TokenAfter(w, x.store, ix, x.fee, x.amountOut, k)
  {
    hide ExecuteSpec, Inv, Guarded, Predicted, Outside, CanSettle, CanAccount, Admitted, Admit;
    ExecutionEffect(w, ix, slot, primary, commit);
    var x := ExecuteSpec(w, ix, slot, primary, commit).value;
    var adm := Admit(w, ix, slot).value;
    SpendFacts(w, ix, adm);
    var v := Predicted(w, ix, x.fee, x.amountOut);
    PredictedToken(w, ix, adm, x.amountOut, k);
    PredictedTokensExist(w, ix, adm, x.amountOut);
    GuardedIsOutside(v, x.store, ix.e, ix.closure);
    OutsideToken(v, x.store, k);
  }

  lemma SpendFacts(w: Store, ix: ExecuteIx, adm: Admission)
    requires Admitted(w, ix, adm)
    ensures IsToken(w, ix.e.source.key) && ix.args.amountIn > 0
    ensures TokenAt(w, ix.e.source.key).delegate == Some(SpendPda(ix.e.source.key, IntentDigest(adm.intent)))
    ensures TokenAt(w, ix.e.source.key).delegatedAmount == ix.args.amountIn + FeeOf(ix.args.amountIn) == adm.total
    ensures adm.fee == FeeOf(ix.args.amountIn)
  {
  }

  lemma PredictedTokensExist(w: Store, ix: ExecuteIx, adm: Admission, amountOut: u64)
    requires Admitted(w, ix, adm)
    requires CanSettle(w, ix.e, ix.args.amountIn, adm.fee, amountOut)
    requires CanAccount(w, ix.e, ix.args.amountIn, adm.fee, amountOut)
    ensures var v := Predicted(w, ix, adm.fee, amountOut);
            forall k :: IsToken(v, k) <==> IsToken(w, k)
  {
    hide Admitted;
    SettlementRoles(w, ix, adm);
  }

  lemma OutsideToken(w: Store, w': Store, k: Key)
    requires forall j :: Outside(w, w', j)
    ensures IsToken(w, k) ==> SameAt(w, w', k)
    ensures IsToken(w', k) && !IsToken(w, k) ==> TokenAt(w', k).delegate == None && TokenAt(w', k).amount == 0
  {
    assert Outside(w, w', k);
  }
}
