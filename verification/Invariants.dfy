/** The invariant is kept by settlement and by everything other programs can do. */
module Invariants {
  import opened Base
  import opened Keys
  import opened Ledger
  import opened Capabilities
  import opened Runtime
  import opened Core
  import opened Frames
  import opened ExecuteInstruction

  // ---- What leaves a market alone ----

  predicate MintsKept(w: Store, w': Store, k: Key) {
    IsMint(w, k) ==> IsMint(w', k) && w'[k].data.hasFreezeAuthority == w[k].data.hasFreezeAuthority
  }

  /** A vault that at most received something. */
  predicate VaultGrows(w: Store, w': Store, vault: Key) {
    && IsToken(w, vault) && IsToken(w', vault)
    && TokenAt(w', vault) == TokenAt(w, vault).(amount := TokenAt(w', vault).amount)
    && TokenAt(w, vault).amount <= TokenAt(w', vault).amount
  }

  /** The market's record, domain and fee ledger are the same, and none of its vaults is smaller. */
  predicate Untouched(w: Store, w': Store, market: Key)
    requires IsMarket(w, market)
  {
    && SameAt(w, w', market) && SameAt(w, w', DomainPda(market)) && SameAt(w, w', LedgerOf(w, market))
    && VaultGrows(w, w', VaultA(market)) && VaultGrows(w, w', VaultB(market)) && VaultGrows(w, w', FeeVault(w, market))
  }

  lemma UntouchedStaysOk(w: Store, w': Store, market: Key)
    requires IsMarket(w, market) && MarketOk(w, market) && Untouched(w, w', market)
    requires forall k :: MintsKept(w, w', k)
    ensures IsMarket(w', market) && MarketOk(w', market) && MarketAt(w', market) == MarketAt(w, market)
  {
    var m := MarketAt(w, market);
    assert MintsKept(w, w', m.mintA) && MintsKept(w, w', m.mintB);
  }

  // ---- What happens outside the settlement and token programs ----

  /**
   * All that other programs can do to an account: nothing to what the settlement and token programs
   * own, and nothing that creates balances or settlement records.
   */
  predicate Outside(w: Store, w': Store, k: Key) {
    || SameAt(w, w', k)
    || (&& OwnerOf(w, k) != CORE && OwnerOf(w, k) != TOKEN_PROGRAM && k in w' && (k in w || k.Plain?)
        && (w'[k].owner == CORE ==> w'[k].data.OpaqueData?)
        && (w'[k].owner == TOKEN_PROGRAM ==> w'[k].data.OpaqueData? || FreshToken(w, w'[k]))
        && (w'[k].owner == CORE || w'[k].owner == TOKEN_PROGRAM || w'[k].owner == PLAN_ENGINE ==> !w'[k].executable))
  }

  lemma GuardedIsOutside(w: Store, w': Store, e: Envelope, closure: seq<AccountMeta>)
    requires Guarded(w, w', e, closure)
    ensures forall k :: Outside(w, w', k)
  {
    hide EnvelopeKeys;
    forall k ensures Outside(w, w', k) {
      assert SameAt(w, w', k) || WithinReach(w, w', e, closure, k);
    }
  }

  lemma OutsideKeepsInv(w: Store, w': Store)
    requires Inv(w) && forall k :: Outside(w, w', k)
    ensures Inv(w')
    ensures forall m :: IsMarket(w', m) <==> IsMarket(w, m)
    ensures forall m :: IsMarket(w, m) ==> Untouched(w, w', m)
    ensures forall k :: MintsKept(w, w', k)
    ensures forall k :: IsToken(w, k) ==> SameAt(w, w', k)
  {
    hide MarketOk, SupplyOk, Untouched, TokenOk, Placed;
    forall k | k in w' ensures Placed(k, w'[k]) {
      assert Outside(w, w', k);
      assert k in w ==> Placed(k, w[k]);
      OutsidePlaced(w, w', k);
    }
    forall k | IsToken(w, k) ensures SameAt(w, w', k) {
      assert Outside(w, w', k);
    }
    forall k ensures IsMint(w, k) <==> IsMint(w', k)
             ensures MintsKept(w, w', k)
             ensures IsMint(w, k) ==> w'[k] == w[k] {
      assert Outside(w, w', k);
    }
    forall k | IsToken(w', k) ensures TokenOk(w', k) {
      assert Outside(w, w', k);
      assert IsToken(w, k) ==> TokenOk(w, k);
      OutsideTokenOk(w, w', k);
    }
    forall k | IsMint(w', k) ensures SupplyOk(w', k) {
      assert SupplyOk(w, k);
      forall j ensures HoldingAt(w, j, k) == HoldingAt(w', j, k) {
        assert Outside(w, w', j);
      }
      TotalFrame(w, w', k);
      assert SupplyOk(w', k) by { SameSupply(w, w', k); }
    }
    forall m ensures IsMarket(w', m) <==> IsMarket(w, m)
             ensures IsMarket(w, m) ==> Untouched(w, w', m) && MarketOk(w', m) {
      assert Outside(w, w', m);
      if IsMarket(w, m) {
        assert MarketOk(w, m);
        OutsideUntouched(w, w', m);
        UntouchedStaysOk(w, w', m);
      }
    }
  }

  lemma OutsidePlaced(w: Store, w': Store, k: Key)
    requires Outside(w, w', k) && k in w' && (k in w ==> Placed(k, w[k]))
    ensures Placed(k, w'[k])
  {
  }

  lemma OutsideTokenOk(w: Store, w': Store, k: Key)
    requires Outside(w, w', k) && IsToken(w', k) && (IsToken(w, k) ==> TokenOk(w, k))
    requires forall j :: IsMint(w, j) ==> IsMint(w', j)
    ensures TokenOk(w', k)
  {
  }

  lemma SameSupply(w: Store, w': Store, mint: Key)
    requires IsMint(w, mint) && IsMint(w', mint) && w[mint].data.supply == w'[mint].data.supply
    requires SupplyOk(w, mint) && Total(w, mint) == Total(w', mint)
    ensures SupplyOk(w', mint)
  {
  }

  lemma OutsideUntouched(w: Store, w': Store, m: Key)
    requires IsMarket(w, m) && MarketOk(w, m) && forall k :: Outside(w, w', k)
    ensures Untouched(w, w', m)
  {
    assert Outside(w, w', m) && Outside(w, w', DomainPda(m)) && Outside(w, w', LedgerOf(w, m));
    assert Outside(w, w', VaultA(m)) && Outside(w, w', VaultB(m)) && Outside(w, w', FeeVault(w, m));
  }

  // ---- Settlement ----

  /** Settlement moves balances between accounts and creates none. */
  lemma SettlementConserves(w: Store, ix: ExecuteIx, adm: Admission, amountOut: u64, mint: Key)
    requires Inv(w) && Admitted(w, ix, adm)
    requires CanSettle(w, ix.e, ix.args.amountIn, adm.fee, amountOut)
    ensures Total(Settled(w, ix.e, ix.args.amountIn, adm.fee, amountOut), mint) == Total(w, mint)
  {
    hide Admitted, Inv, Total;
    SettlementRoles(w, ix, adm);
    var e, amountIn, fee := ix.e, ix.args.amountIn, adm.fee;
    var a1 := TokenEntry(Spent(TokenAt(w, e.source.key), amountIn + fee).(delegate := None, delegatedAmount := 0));
    var a2 := TokenEntry(Credited(TokenAt(w, e.vaultA.key), amountIn));
    var a3 := TokenEntry(Credited(TokenAt(w, e.feeVault.key), fee));
    var a4 := TokenEntry(Spent(TokenAt(w, e.vaultB.key), amountOut));
    var a5 := TokenEntry(Credited(TokenAt(w, e.destination.key), amountOut));
    var w1 := w[e.source.key := a1];
    var w2 := w1[e.vaultA.key := a2];
    var w3 := w2[e.feeVault.key := a3];
    var w4 := w3[e.vaultB.key := a4];
    TotalUpdate(w, e.source.key, a1, mint);
    TotalUpdate(w1, e.vaultA.key, a2, mint);
    TotalUpdate(w2, e.feeVault.key, a3, mint);
    TotalUpdate(w3, e.vaultB.key, a4, mint);
    TotalUpdate(w4, e.destination.key, a5, mint);
  }

  lemma PredictedConserves(w: Store, ix: ExecuteIx, adm: Admission, amountOut: u64, mint: Key)
    requires Inv(w) && Admitted(w, ix, adm)
    requires CanSettle(w, ix.e, ix.args.amountIn, adm.fee, amountOut)
    requires CanAccount(w, ix.e, ix.args.amountIn, adm.fee, amountOut)
    ensures Total(Predicted(w, ix, adm.fee, amountOut), mint) == Total(w, mint)
  {
    hide Admitted, Inv, Total;
    SettlementConserves(w, ix, adm, amountOut, mint);
    var s, v := Settled(w, ix.e, ix.args.amountIn, adm.fee, amountOut), Predicted(w, ix, adm.fee, amountOut);
    forall k ensures HoldingAt(s, k, mint) == HoldingAt(v, k, mint) {
    }
    TotalFrame(s, v, mint);
  }

  /** Each account keeps its kind; mints, market records and all but the seven accounts stay as they were. */
  predicate KindKept(w: Store, v: Store, e: Envelope, k: Key) {
    && (k in v <==> k in w)
    && (IsMint(w, k) <==> IsMint(v, k)) && (IsMint(w, k) ==> v[k] == w[k])
    && (IsMarket(w, k) <==> IsMarket(v, k)) && (IsMarket(w, k) ==> v[k] == w[k])
    && (IsToken(w, k) <==> IsToken(v, k))
    && (k !in SettlementKeys(e) && k != e.domain.key && k != e.feeLedger.key ==> SameAt(w, v, k))
  }

  lemma PredictedKind(w: Store, ix: ExecuteIx, fee: u64, amountOut: u64, k: Key)
    requires CanSettle(w, ix.e, ix.args.amountIn, fee, amountOut)
    requires CanAccount(w, ix.e, ix.args.amountIn, fee, amountOut)
    ensures KindKept(w, Predicted(w, ix, fee, amountOut), ix.e, k)
  {
  }

  lemma PredictedFrame(w: Store, ix: ExecuteIx, fee: u64, amountOut: u64)
    requires CanSettle(w, ix.e, ix.args.amountIn, fee, amountOut)
    requires CanAccount(w, ix.e, ix.args.amountIn, fee, amountOut)
    ensures var v := Predicted(w, ix, fee, amountOut);
            && (forall k :: IsMint(w, k) <==> IsMint(v, k)) && (forall k :: IsMint(w, k) ==> v[k] == w[k])
            && (forall k :: IsMarket(w, k) <==> IsMarket(v, k)) && (forall k :: IsMarket(w, k) ==> v[k] == w[k])
            && (forall k :: k in v <==> k in w)
            && (forall k :: k !in SettlementKeys(ix.e) && k != ix.e.domain.key && k != ix.e.feeLedger.key ==>
                SameAt(w, v, k))
  {
    hide CanSettle, CanAccount, Predicted, SettlementKeys, SameAt;
    var v := Predicted(w, ix, fee, amountOut);
    forall k ensures (IsMint(w, k) <==> IsMint(v, k)) && (IsMint(w, k) ==> v[k] == w[k])
             ensures (IsMarket(w, k) <==> IsMarket(v, k)) && (IsMarket(w, k) ==> v[k] == w[k])
             ensures k in v <==> k in w
             ensures k !in SettlementKeys(ix.e) && k != ix.e.domain.key && k != ix.e.feeLedger.key ==> SameAt(w, v, k) {
      PredictedKind(w, ix, fee, amountOut, k);
    }
  }

  /** A market whose seven accounts moved together by an input, a fee and an output. */
  predicate Moved(w: Store, v: Store, p: Key, amountIn: nat, fee: nat, amountOut: nat)
    requires IsMarket(w, p) && MarketOk(w, p) && IsMarket(v, p) && MarketOk(v, p)
  {
    && MarketAt(v, p) == MarketAt(w, p)
    && DomainAt(v, DomainPda(p)).accountedA == DomainAt(w, DomainPda(p)).accountedA + amountIn
    && DomainAt(v, DomainPda(p)).accountedB == DomainAt(w, DomainPda(p)).accountedB - amountOut
    && FeeLedgerAt(v, LedgerOf(v, p)).accountedFeeA == FeeLedgerAt(w, LedgerOf(w, p)).accountedFeeA + fee
    && TokenAt(v, VaultA(p)).amount == TokenAt(w, VaultA(p)).amount + amountIn
    && TokenAt(v, VaultB(p)).amount == TokenAt(w, VaultB(p)).amount - amountOut
    && TokenAt(v, FeeVault(v, p)).amount == TokenAt(w, FeeVault(w, p)).amount + fee
  }

  lemma MovedByEntries(w: Store, v: Store, p: Key, d: Domain, f: FeeLedger, a: TokenAccount, b: TokenAccount,
                       c: TokenAccount,
                       amountIn: u64, fee: u64, amountOut: u64)
    requires IsMarket(w, p) && MarketOk(w, p) && SameAt(w, v, p) && forall k :: MintsKept(w, v, k)
    requires d == DomainAt(w, DomainPda(p)) && f == FeeLedgerAt(w, LedgerOf(w, p))
    requires a == TokenAt(w, VaultA(p)) && b == TokenAt(w, VaultB(p)) && c == TokenAt(w, FeeVault(w, p))
    requires d.accountedA + amountIn <= U64_MAX && amountOut <= d.accountedB && f.accountedFeeA + fee <= U64_MAX
    requires a.amount + amountIn <= U64_MAX && c.amount + fee <= U64_MAX && amountOut <= b.amount
    requires && DomainPda(p) in v
             && v[DomainPda(p)]
                == DomainEntry(d.(accountedA := d.accountedA + amountIn, accountedB := d.accountedB - amountOut))
    requires LedgerOf(w, p) in v && v[LedgerOf(w, p)] == FeeLedgerEntry(f.(accountedFeeA := f.accountedFeeA + fee))
    requires VaultA(p) in v && v[VaultA(p)] == TokenEntry(Credited(a, amountIn))
    requires FeeVault(w, p) in v && v[FeeVault(w, p)] == TokenEntry(Credited(c, fee))
    requires VaultB(p) in v && v[VaultB(p)] == TokenEntry(Spent(b, amountOut))
    ensures IsMarket(v, p) && MarketOk(v, p) && Moved(w, v, p, amountIn, fee, amountOut)
  {
    var m := MarketAt(w, p);
    assert MintsKept(w, v, m.mintA) && MintsKept(w, v, m.mintB);
  }

  /** The participating market moves exactly by the input, the fee and the output. */
  lemma ParticipantMoves(w: Store, ix: ExecuteIx, adm: Admission, amountOut: u64)
    requires Admitted(w, ix, adm)
    requires CanSettle(w, ix.e, ix.args.amountIn, adm.fee, amountOut)
    requires CanAccount(w, ix.e, ix.args.amountIn, adm.fee, amountOut)
    ensures var v, p := Predicted(w, ix, adm.fee, amountOut), ix.e.market.key;
            && IsMarket(w, p) && MarketOk(w, p) && IsMarket(v, p) && MarketOk(v, p)
            && Moved(w, v, p, ix.args.amountIn, adm.fee, amountOut)
  {
    hide Admitted, Predicted, MarketOk, VaultOk;
    AdmittedMarket(w, ix, adm);
    SettlementRoles(w, ix, adm);
    PredictedFrame(w, ix, adm.fee, amountOut);
    PredictedEntries(w, ix, adm, amountOut);
    var e := ix.e;
    var v := Predicted(w, ix, adm.fee, amountOut);
    assert forall k :: MintsKept(w, v, k);
    MovedByEntries(w, v, e.market.key, DomainAt(w, e.domain.key), FeeLedgerAt(w, e.feeLedger.key),
                   TokenAt(w, e.vaultA.key), TokenAt(w, e.vaultB.key), TokenAt(w, e.feeVault.key),
                   ix.args.amountIn, adm.fee, amountOut);
  }

  lemma AdmittedMarket(w: Store, ix: ExecuteIx, adm: Admission)
    requires Admitted(w, ix, adm)
    ensures IsMarket(w, ix.e.market.key) && MarketOk(w, ix.e.market.key)
  {
  }

  predicate SevenEntries(w: Store, v: Store, e: Envelope, amountIn: u64, fee: u64, amountOut: u64)
    requires CanSettle(w, e, amountIn, fee, amountOut) && CanAccount(w, e, amountIn, fee, amountOut)
  {
    var d, f := DomainAt(w, e.domain.key), FeeLedgerAt(w, e.feeLedger.key);
    && e.domain.key in v
    && v[e.domain.key] == DomainEntry(d.(accountedA := d.accountedA + amountIn, accountedB := d.accountedB - amountOut))
    && e.feeLedger.key in v && v[e.feeLedger.key] == FeeLedgerEntry(f.(accountedFeeA := f.accountedFeeA + fee))
    && e.source.key in v
    && v[e.source.key] == TokenEntry(Spent(TokenAt(w, e.source.key),
                                           amountIn + fee).(delegate := None, delegatedAmount := 0))
    && e.vaultA.key in v && v[e.vaultA.key] == TokenEntry(Credited(TokenAt(w, e.vaultA.key), amountIn))
    && e.feeVault.key in v && v[e.feeVault.key] == TokenEntry(Credited(TokenAt(w, e.feeVault.key), fee))
    && e.vaultB.key in v && v[e.vaultB.key] == TokenEntry(Spent(TokenAt(w, e.vaultB.key), amountOut))
    && e.destination.key in v && v[e.destination.key] == TokenEntry(Credited(TokenAt(w, e.destination.key), amountOut))
  }

  /** The seven predicted entries. */
  lemma PredictedEntries(w: Store, ix: ExecuteIx, adm: Admission, amountOut: u64)
    requires Admitted(w, ix, adm)
    requires CanSettle(w, ix.e, ix.args.amountIn, adm.fee, amountOut)
    requires CanAccount(w, ix.e, ix.args.amountIn, adm.fee, amountOut)
    ensures SevenEntries(w, Predicted(w, ix, adm.fee, amountOut), ix.e, ix.args.amountIn, adm.fee, amountOut)
  {
    hide Admitted;
    SettlementRoles(w, ix, adm);
  }

  /** A vault of another market: grown by the output if it was the recipient, otherwise the same. */
  lemma OtherVault(w: Store, ix: ExecuteIx, adm: Admission, amountOut: u64, vault: Key, mint: Key, authority: Key,
                   accounted: nat)
    requires Admitted(w, ix, adm)
    requires CanSettle(w, ix.e, ix.args.amountIn, adm.fee, amountOut)
    requires CanAccount(w, ix.e, ix.args.amountIn, adm.fee, amountOut)
    requires VaultOk(w, vault, mint, authority, accounted)
    requires vault != ix.e.vaultA.key && vault != ix.e.vaultB.key && vault != ix.e.feeVault.key
    ensures var v := Predicted(w, ix, adm.fee, amountOut);
            && VaultGrows(w, v, vault)
            && TokenAt(v, vault).amount
               == TokenAt(w, vault).amount + (if vault == ix.e.destination.key then amountOut else 0)
  {
    hide Admitted, CanSettle, CanAccount, Predicted;
    SettlementRoles(w, ix, adm);
    PredictedEntries(w, ix, adm, amountOut);
    PredictedFrame(w, ix, adm.fee, amountOut);
    if vault != ix.e.destination.key {
      assert vault != ix.e.source.key && vault != ix.e.domain.key && vault != ix.e.feeLedger.key;
      assert SameAt(w, Predicted(w, ix, adm.fee, amountOut), vault);
    }
  }

  /** Every other market is left alone, even when one of its vaults receives the output. */
  lemma OthersUntouched(w: Store, ix: ExecuteIx, adm: Admission, amountOut: u64, m: Key)
    requires Admitted(w, ix, adm) && IsMarket(w, m) && MarketOk(w, m) && m != ix.e.market.key
    requires CanSettle(w, ix.e, ix.args.amountIn, adm.fee, amountOut)
    requires CanAccount(w, ix.e, ix.args.amountIn, adm.fee, amountOut)
    ensures Untouched(w, Predicted(w, ix, adm.fee, amountOut), m)
  {
    hide Admitted, CanSettle, CanAccount, Predicted;
    SettlementRoles(w, ix, adm);
    PredictedFrame(w, ix, adm.fee, amountOut);
    var d := DomainAt(w, DomainPda(m));
    OtherVault(w, ix, adm, amountOut, VaultA(m), MarketAt(w, m).mintA, DomainPda(m), d.accountedA);
    OtherVault(w, ix, adm, amountOut, VaultB(m), MarketAt(w, m).mintB, DomainPda(m), d.accountedB);
    OtherVault(w, ix, adm, amountOut, FeeVault(w, m), MarketAt(w, m).mintA, LedgerOf(w, m),
               FeeLedgerAt(w, LedgerOf(w, m)).accountedFeeA);
  }

  /** An entry whose holder, mint and delegate rules survive. */
  lemma EntryTokens(w: Store, v: Store, k: Key)
    requires k in w && k in v && (forall j :: IsMint(w, j) ==> IsMint(v, j))
    requires || SameAt(w, v, k)
             || (IsDomain(w, k) && IsDomain(v, k) && !v[k].executable)
             || (IsFeeLedger(w, k) && IsFeeLedger(v, k) && !v[k].executable)
             || (&& IsToken(w, k) && IsToken(v, k) && !v[k].executable && TokenAt(v, k).mint == TokenAt(w, k).mint
                 && (TokenAt(v, k).delegate == None ==>
                     TokenAt(v, k).delegatedAmount == 0 || TokenAt(w, k).delegate == None)
                 && (TokenAt(w, k).delegate == None ==> TokenAt(v, k).delegatedAmount == TokenAt(w, k).delegatedAmount))
    ensures IsToken(v, k) == IsToken(w, k)
    ensures Placed(k, w[k]) ==> Placed(k, v[k])
    ensures IsToken(w, k) && TokenOk(w, k) ==> TokenOk(v, k)
  {
  }

  lemma PredictedTokens(w: Store, ix: ExecuteIx, adm: Admission, amountOut: u64, k: Key)
    requires Admitted(w, ix, adm) && k in w
    requires CanSettle(w, ix.e, ix.args.amountIn, adm.fee, amountOut)
    requires CanAccount(w, ix.e, ix.args.amountIn, adm.fee, amountOut)
    ensures var v := Predicted(w, ix, adm.fee, amountOut);
            && k in v
            && IsToken(v, k) == IsToken(w, k)
            && (Placed(k, w[k]) ==> Placed(k, v[k]))
            && (IsToken(w, k) && TokenOk(w, k) ==> TokenOk(v, k))
  {
    hide Admitted, Predicted, Placed, TokenOk, VaultOk, LedgerOf, FeeVault;
    SettlementRoles(w, ix, adm);
    PredictedFrame(w, ix, adm.fee, amountOut);
    PredictedEntries(w, ix, adm, amountOut);
    EntryTokens(w, Predicted(w, ix, adm.fee, amountOut), k);
  }

  lemma PredictedKeepsInv(w: Store, ix: ExecuteIx, adm: Admission, amountOut: u64)
    requires Inv(w) && Admitted(w, ix, adm)
    requires CanSettle(w, ix.e, ix.args.amountIn, adm.fee, amountOut)
    requires CanAccount(w, ix.e, ix.args.amountIn, adm.fee, amountOut)
    ensures Inv(Predicted(w, ix, adm.fee, amountOut))
  {
    hide Admitted, CanSettle, CanAccount, Predicted, MarketOk, TokenOk, SupplyOk, Placed, Untouched;
    var v := Predicted(w, ix, adm.fee, amountOut);
    PredictedFrame(w, ix, adm.fee, amountOut);
    forall k | k in v ensures Placed(k, v[k]) {
      assert Placed(k, w[k]);
      PredictedTokens(w, ix, adm, amountOut, k);
    }
    forall k | IsToken(v, k) ensures TokenOk(v, k) {
      PredictedTokens(w, ix, adm, amountOut, k);
      assert TokenOk(w, k);
    }
    forall k | IsMint(v, k) ensures SupplyOk(v, k) {
      assert SupplyOk(w, k);
      PredictedConserves(w, ix, adm, amountOut, k);
      SameSupply(w, v, k);
    }
    forall m | IsMarket(v, m) ensures MarketOk(v, m) {
      assert MarketOk(w, m);
      if m == ix.e.market.key {
        ParticipantMoves(w, ix, adm, amountOut);
      } else {
        OthersUntouched(w, ix, adm, amountOut, m);
        UntouchedStaysOk(w, v, m);
      }
    }
  }
}
