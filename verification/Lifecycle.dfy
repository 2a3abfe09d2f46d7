/** Creating, funding and authorizing: each keeps the invariant and leaves every other market alone. */
module Lifecycle {
  import opened Base
  import opened Keys
  import opened Ledger
  import opened Core
  import opened Invariants
  import opened Instructions
  import opened Wallets

  // ---- Initialize ----

  function CreatedKeys(ix: InitializeIx): set<Key> {
    {ix.market.key, ix.domain.key, ix.feeLedger.key, ix.vaultA.key, ix.vaultB.key, ix.feeVault.key}
  }

  /** A created account is well placed and no mint; if it is a token account it is empty and delegates to nobody. */
  predicate FreshEntry(v: Store, k: Key) {
    && k in v && Placed(k, v[k]) && !IsMint(v, k)
    && (IsToken(v, k) ==> TokenOk(v, k) && TokenAt(v, k).amount == 0 && TokenAt(v, k).delegate == None)
  }

  lemma CreatedFrame(w: Store, ix: InitializeIx)
    requires InitializeConstrained(w, ix)
    ensures forall k :: k in w ==> SameAt(w, Created(w, ix), k)
    ensures forall k :: k !in w ==> (k in Created(w, ix) <==> k in CreatedKeys(ix))
    ensures forall k :: k in Created(w, ix) && k !in w ==> FreshEntry(Created(w, ix), k)
  {
    hide FreshEntry;
    forall k | k in Created(w, ix) && k !in w ensures FreshEntry(Created(w, ix), k) {
      CreatedEntry(w, ix, k);
    }
  }

  lemma CreatedEntry(w: Store, ix: InitializeIx, k: Key)
    requires InitializeConstrained(w, ix) && k in Created(w, ix) && k !in w
    ensures FreshEntry(Created(w, ix), k)
  {
  }

  /** A successful initialization admits an ordinary pair of mints and a foreign engine. */
  lemma InitializeFacts(w: Store, ix: InitializeIx)
    requires InitializeSpec(w, ix).Ok?
    ensures InitializeConstrained(w, ix) && InitializeSpec(w, ix).value == Created(w, ix)
    ensures MintOk(w, ix.mintA.key) && MintOk(w, ix.mintB.key) && ix.mintA.key != ix.mintB.key
    ensures ix.engineProgram.key != CORE && ix.engineProgram.key != TOKEN_PROGRAM
  {
    var keys := InitializeKeys(ix);
    assert keys[4] == ix.mintA.key && keys[5] == ix.mintB.key && keys[9] == ix.engineProgram.key;
    assert keys[11] == ix.tokenProgram.key && keys[13] == CORE;
  }

  /** The new market starts solvent, with nothing accounted and nothing held. */
  lemma CreatedMarket(w: Store, ix: InitializeIx)
    requires InitializeSpec(w, ix).Ok?
    ensures var w' := InitializeSpec(w, ix).value;
            && IsMarket(w', ix.market.key) && MarketOk(w', ix.market.key)
            && DomainAt(w', DomainPda(ix.market.key)).accountedA == 0
            && DomainAt(w', DomainPda(ix.market.key)).accountedB == 0
            && FeeLedgerAt(w', LedgerOf(w', ix.market.key)).accountedFeeA == 0
            && TokenAt(w', VaultA(ix.market.key)).amount == 0 && TokenAt(w', VaultB(ix.market.key)).amount == 0
            && TokenAt(w', FeeVault(w', ix.market.key)).amount == 0
  {
    hide InitializeSpec;
    InitializeFacts(w, ix);
  }

  lemma InitializeKeepsInv(w: Store, ix: InitializeIx)
    requires Inv(w) && InitializeSpec(w, ix).Ok?
    ensures var w' := InitializeSpec(w, ix).value;
            && Inv(w')
            && (forall m :: IsMarket(w', m) <==> IsMarket(w, m) || m == ix.market.key) && !IsMarket(w, ix.market.key)
            && (forall m :: IsMarket(w, m) ==> Untouched(w, w', m))
  {
    hide InitializeSpec, MarketOk, SupplyOk, TokenOk, Placed, Created, CreatedKeys, Untouched;
    InitializeFacts(w, ix);
    CreatedFrame(w, ix);
    CreatedMarket(w, ix);
    var w' := Created(w, ix);
    forall k ensures MintsKept(w, w', k) && (IsMint(w', k) ==> IsMint(w, k) && w'[k] == w[k]) {
      assert k in w ==> SameAt(w, w', k);
    }
    forall k | k in w' ensures Placed(k, w'[k]) {
      assert k in w ==> SameAt(w, w', k) && Placed(k, w[k]);
    }
    forall k | IsToken(w', k) ensures TokenOk(w', k) {
      if k in w {
        assert SameAt(w, w', k) && TokenOk(w, k);
        SameTokenOk(w, w', k);
      }
    }
    forall mint | IsMint(w', mint) ensures SupplyOk(w', mint) {
      assert SupplyOk(w, mint);
      forall k ensures HoldingAt(w, k, mint) == HoldingAt(w', k, mint) {
        assert k in w ==> SameAt(w, w', k);
      }
      TotalFrame(w, w', mint);
      SameSupply(w, w', mint);
    }
    forall m ensures IsMarket(w', m) <==> IsMarket(w, m) || m == ix.market.key
             ensures IsMarket(w, m) ==> Untouched(w, w', m)
             ensures IsMarket(w', m) ==> MarketOk(w', m) {
      if IsMarket(w, m) {
        assert MarketOk(w, m);
        ExistingUntouched(w, w', m);
        UntouchedStaysOk(w, w', m);
      } else if IsMarket(w', m) {
        CreatedMarkets(w, ix, m);
      }
    }
  }

  lemma SameTokenOk(w: Store, w': Store, k: Key)
    requires SameAt(w, w', k) && IsToken(w, k) && TokenOk(w, k) && forall j :: MintsKept(w, w', j)
    ensures TokenOk(w', k)
  {
    assert MintsKept(w, w', TokenAt(w, k).mint);
  }

  lemma CreatedMarkets(w: Store, ix: InitializeIx, m: Key)
    requires InitializeConstrained(w, ix) && IsMarket(Created(w, ix), m) && !IsMarket(w, m)
    ensures m == ix.market.key
  {
  }

  lemma ExistingUntouched(w: Store, w': Store, m: Key)
    requires IsMarket(w, m) && MarketOk(w, m) && forall k :: k in w ==> SameAt(w, w', k)
    ensures Untouched(w, w', m)
  {
    assert SameAt(w, w', m) && SameAt(w, w', DomainPda(m)) && SameAt(w, w', LedgerOf(w, m));
    assert SameAt(w, w', VaultA(m)) && SameAt(w, w', VaultB(m)) && SameAt(w, w', FeeVault(w, m));
  }

  // ---- Deposit ----

  /** What a deposit changes: the source, one vault, and that vault's accounting. */
  lemma DepositEffect(w: Store, ix: DepositIx)
    requires Inv(w) && DepositSpec(w, ix).Ok?
    ensures DepositVerdict(w, ix).Ok? && DepositConstrained(w, ix)
    ensures var w' := DepositSpec(w, ix).value;
            var d, a := DomainAt(w, ix.domain.key), AccountedOf(DomainAt(w, ix.domain.key), ix.assetIndex);
            && ix.amount <= TokenAt(w, ix.source.key).amount && a + ix.amount <= U64_MAX
            && TokenAt(w, ix.vault.key).amount + ix.amount <= U64_MAX
            && ix.source.key in w' && w'[ix.source.key] == TokenEntry(Spent(TokenAt(w, ix.source.key), ix.amount))
            && ix.vault.key in w' && w'[ix.vault.key] == TokenEntry(Credited(TokenAt(w, ix.vault.key), ix.amount))
            && ix.domain.key in w' && w'[ix.domain.key] == DomainEntry(WithAccounted(d, ix.assetIndex, a + ix.amount))
            && forall k :: k != ix.source.key && k != ix.vault.key && k != ix.domain.key ==> SameAt(w, w', k)
  {
    hide Inv, DepositVerdict, WithAccounted;
    DepositRoles(w, ix);
  }

  lemma DepositConserves(w: Store, ix: DepositIx, mint: Key)
    requires Inv(w) && DepositSpec(w, ix).Ok?
    ensures Total(DepositSpec(w, ix).value, mint) == Total(w, mint)
  {
    hide Inv, DepositVerdict, WithAccounted, Total;
    DepositRoles(w, ix);
    var a1 := TokenEntry(Spent(TokenAt(w, ix.source.key), ix.amount));
    var a2 := TokenEntry(Credited(TokenAt(w, ix.vault.key), ix.amount));
    var d := DomainAt(w, ix.domain.key);
    var a3 := DomainEntry(WithAccounted(d, ix.assetIndex, AccountedOf(d, ix.assetIndex) + ix.amount));
    var w1 := w[ix.source.key := a1];
    var w2 := w1[ix.vault.key := a2];
    TotalUpdate(w, ix.source.key, a1, mint);
    TotalUpdate(w1, ix.vault.key, a2, mint);
    TotalUpdate(w2, ix.domain.key, a3, mint);
  }

  /** The funded market: one balance and its accounting move together, the rest stays. */
  lemma DepositMarket(w: Store, ix: DepositIx)
    requires Inv(w) && DepositSpec(w, ix).Ok?
    ensures var w', p := DepositSpec(w, ix).value, ix.market.key;
            var a := if ix.assetIndex == ASSET_A then ix.amount else 0;
            var b := if ix.assetIndex == ASSET_A then 0 else ix.amount;
            && IsMarket(w, p) && MarketOk(w, p) && IsMarket(w', p) && MarketOk(w', p)
            && MarketAt(w', p) == MarketAt(w, p)
            && DomainAt(w', DomainPda(p)).accountedA == DomainAt(w, DomainPda(p)).accountedA + a
            && DomainAt(w', DomainPda(p)).accountedB == DomainAt(w, DomainPda(p)).accountedB + b
            && SameAt(w, w', LedgerOf(w, p)) && SameAt(w, w', FeeVault(w, p))
            && TokenAt(w', VaultA(p)).amount == TokenAt(w, VaultA(p)).amount + a
            && TokenAt(w', VaultB(p)).amount == TokenAt(w, VaultB(p)).amount + b
  {
    hide Inv, DepositSpec, DepositVerdict;
    DepositEffect(w, ix);
    DepositRoles(w, ix);
    var w', p := DepositSpec(w, ix).value, ix.market.key;
    var m := MarketAt(w, p);
    assert SameAt(w, w', p) && SameAt(w, w', LedgerOf(w, p)) && SameAt(w, w', FeeVault(w, p));
    assert SameAt(w, w', m.mintA) && SameAt(w, w', m.mintB);
    assert SameAt(w, w', if ix.assetIndex == ASSET_A then VaultB(p) else VaultA(p));
  }

  lemma DepositOthers(w: Store, ix: DepositIx, m: Key)
    requires Inv(w) && DepositSpec(w, ix).Ok? && IsMarket(w, m) && MarketOk(w, m) && m != ix.market.key
    ensures Untouched(w, DepositSpec(w, ix).value, m)
    ensures var w' := DepositSpec(w, ix).value;
            SameAt(w, w', VaultA(m)) && SameAt(w, w', VaultB(m)) && SameAt(w, w', FeeVault(w, m))
  {
    hide Inv, DepositSpec, DepositVerdict;
    DepositEffect(w, ix);
    DepositRoles(w, ix);
    var w' := DepositSpec(w, ix).value;
    assert SameAt(w, w', m) && SameAt(w, w', DomainPda(m)) && SameAt(w, w', LedgerOf(w, m));
    assert SameAt(w, w', VaultA(m)) && SameAt(w, w', VaultB(m)) && SameAt(w, w', FeeVault(w, m));
  }

  lemma DepositKeepsInv(w: Store, ix: DepositIx)
    requires Inv(w) && DepositSpec(w, ix).Ok?
    ensures var w' := DepositSpec(w, ix).value;
            && Inv(w')
            && (forall m :: IsMarket(w', m) <==> IsMarket(w, m))
            && (forall m :: IsMarket(w, m) && m != ix.market.key ==> Untouched(w, w', m))
  {
    hide DepositSpec, MarketOk, SupplyOk, TokenOk, Placed, Untouched, DepositVerdict, WithAccounted;
    DepositEffect(w, ix);
    DepositRoles(w, ix);
    DepositMarket(w, ix);
    var w' := DepositSpec(w, ix).value;
    forall k ensures MintsKept(w, w', k) && (IsMint(w', k) ==> IsMint(w, k) && w'[k] == w[k])
             ensures IsMarket(w', k) <==> IsMarket(w, k) {
      if k != ix.source.key && k != ix.vault.key && k != ix.domain.key {
        assert SameAt(w, w', k);
      }
    }
    forall k | k in w' ensures Placed(k, w'[k]) && (IsToken(w', k) ==> TokenOk(w', k)) {
      assert k in w by {
        if k != ix.source.key && k != ix.vault.key && k != ix.domain.key {
          assert SameAt(w, w', k);
        }
      }
      assert Placed(k, w[k]) && (IsToken(w, k) ==> TokenOk(w, k));
      DepositTokens(w, ix, k);
    }
    forall mint | IsMint(w', mint) ensures SupplyOk(w', mint) {
      assert SupplyOk(w, mint);
      DepositConserves(w, ix, mint);
      SameSupply(w, w', mint);
    }
    forall m | IsMarket(w, m) && m != ix.market.key ensures Untouched(w, w', m) && MarketOk(w', m) {
      assert MarketOk(w, m);
      DepositOthers(w, ix, m);
      UntouchedStaysOk(w, w', m);
    }
  }

  lemma DepositTokens(w: Store, ix: DepositIx, k: Key)
    requires Inv(w) && DepositSpec(w, ix).Ok? && k in w && k in DepositSpec(w, ix).value
    requires forall j :: MintsKept(w, DepositSpec(w, ix).value, j)
    requires Placed(k, w[k]) && (IsToken(w, k) ==> TokenOk(w, k))
    ensures Placed(k, DepositSpec(w, ix).value[k])
    ensures IsToken(DepositSpec(w, ix).value, k) ==> TokenOk(DepositSpec(w, ix).value, k)
  {
    hide Inv, DepositSpec, DepositVerdict, VaultOk, ProtectedVerdict, MarketOk;
    DepositEffect(w, ix);
    DepositRoles(w, ix);
    var w' := DepositSpec(w, ix).value;
    assert k != ix.source.key && k != ix.vault.key && k != ix.domain.key ==> SameAt(w, w', k);
    if IsToken(w, k) {
      assert MintsKept(w, w', TokenAt(w, k).mint);
    }
  }

  // ---- Authorize ----

  lemma AuthorizeKeepsInv(w: Store, ix: AuthorizeIx, slot: u64)
    requires Inv(w) && AuthorizeSpec(w, ix, slot).Ok?
    ensures var w' := AuthorizeSpec(w, ix, slot).value;
            && Inv(w')
            && (forall m :: IsMarket(w', m) <==> IsMarket(w, m))
            && (forall m :: IsMarket(w, m) ==> Untouched(w, w', m))
            && (forall k :: k != ix.source.key ==> SameAt(w, w', k))
            && !Locked(TokenAt(w, ix.source.key))
  {
    AuthorizePermitted(w, ix, slot);
    hide Inv, Permitted, SupplyOk, Untouched, Locked, AuthorizeSpec;
    PermittedKeepsInv(w, AuthorizeSpec(w, ix, slot).value);
  }

  lemma AuthorizePermitted(w: Store, ix: AuthorizeIx, slot: u64)
    requires Inv(w) && AuthorizeSpec(w, ix, slot).Ok?
    ensures AuthorizeVerdict(w, ix, slot).Ok? && AuthorizeConstrained(w, ix)
    ensures var w' := AuthorizeSpec(w, ix, slot).value;
            && (forall k :: Permitted(w, w', k)) && (forall k :: IsMint(w', k) ==> SupplyOk(w', k))
            && (forall k :: k != ix.source.key ==> SameAt(w, w', k)) && !Locked(TokenAt(w, ix.source.key))
  {
    hide MarketOk, Total, AuthorizeVerdict, IntentVerdict, IntentRoles;
    AuthorizeFacts(w, ix, slot);
    var w' := AuthorizeSpec(w, ix, slot).value;
    assert TokenOk(w, ix.source.key);
    forall mint | IsMint(w', mint) ensures SupplyOk(w', mint) {
      assert SupplyOk(w, mint);
      TotalUpdate(w, ix.source.key, w'[ix.source.key], mint);
    }
  }
}
