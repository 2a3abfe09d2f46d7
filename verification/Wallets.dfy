/**
 * What anybody may do with ordinary token accounts between settlement instructions, and the proof
 * that none of it, and neither depositing nor authorizing, disturbs the invariant.
 */
module Wallets {
  import opened Base
  import opened Keys
  import opened Ledger
  import opened Core
  import opened Invariants

  /** Token instructions. Every authority is an ordinary signer; mint authority is anybody's. */
  datatype TokenOp =
    | Transfer(from: Key, mint: Key, to: Key, authority: Key, amount: u64)
    | Approve(source: Key, mint: Key, delegate: Key, authority: Key, amount: u64)
    | Revoke(source: Key, authority: Key)
    | SetOwner(source: Key, authority: Key, newOwner: Key)
    | SetCloseAuthority(source: Key, authority: Key, closeAuthority: Option<Key>)
    | MintTo(mint: Key, to: Key, amount: u64)
    | Burn(from: Key, mint: Key, authority: Key, amount: u64)
    | OpenAccount(account: Key, mint: Key, holder: Key)
    | CloseAccount(account: Key, authority: Key)
    | OpenMint(mint: Key, freeze: bool)

  function OfResult(r: Result<Store, TokenError>): Option<Store> {
    if r.Ok? then Some(r.value) else None
  }

  /** The store after a token instruction, `None` when it fails. */
  function Applied(w: Store, op: TokenOp): Option<Store> {
    match op
    case Transfer(from, mint, to, authority, amount) =>
      if !authority.Plain? then None else OfResult(Transferred(w, from, mint, to, authority, amount))
    case Approve(source, mint, delegate, authority, amount) =>
      if !authority.Plain? then None else OfResult(Approved(w, source, mint, delegate, authority, amount))
    case Revoke(source, authority) =>
      if !Owns(w, source, authority) then None
      else Some(w[source := TokenEntry(TokenAt(w, source).(delegate := None, delegatedAmount := 0))])
    case SetOwner(source, authority, newOwner) =>
      if !Owns(w, source, authority) then None
      else Some(w[source := TokenEntry(TokenAt(w, source).(owner := newOwner, delegate := None, delegatedAmount := 0))])
    case SetCloseAuthority(source, authority, closeAuthority) =>
      if !MayClose(w, source, authority) then None
      else Some(w[source := TokenEntry(TokenAt(w, source).(closeAuthority := closeAuthority))])
    case MintTo(mint, to, amount) =>
      if !IsMint(w, mint) || !IsToken(w, to) || TokenAt(w, to).mint != mint || w[mint].data.supply + amount > U64_MAX
         || TokenAt(w, to).amount + amount > U64_MAX then None
      else Some(w[mint := MintEntry(w[mint].data.supply + amount, w[mint].data.hasFreezeAuthority)]
                 [to := TokenEntry(Credited(TokenAt(w, to), amount))])
    case Burn(from, mint, authority, amount) =>
      if !authority.Plain? || !IsMint(w, mint) || !IsToken(w, from) || TokenAt(w, from).mint != mint
         || w[mint].data.supply < amount || Debited(TokenAt(w, from), authority, amount).Err? then None
      else Some(w[mint := MintEntry(w[mint].data.supply - amount, w[mint].data.hasFreezeAuthority)]
                 [from := TokenEntry(Debited(TokenAt(w, from), authority, amount).value)])
    case OpenAccount(account, mint, holder) =>
      if account in w || !account.Plain? || !IsMint(w, mint) then None
      else Some(w[account := TokenEntry(TokenAccount(mint, holder, 0, None, 0, None))])
    case CloseAccount(account, authority) =>
      if !MayClose(w, account, authority) || TokenAt(w, account).amount != 0 then None else Some(w - {account})
    case OpenMint(mint, freeze) =>
      if mint in w || !mint.Plain? then None else Some(w[mint := MintEntry(0, freeze)])
  }

  predicate Owns(w: Store, source: Key, authority: Key) {
    authority.Plain? && IsToken(w, source) && TokenAt(w, source).owner == authority
  }

  predicate MayClose(w: Store, source: Key, authority: Key) {
    && authority.Plain? && IsToken(w, source)
    && var t := TokenAt(w, source);
    && authority == (if t.closeAuthority.Some? then t.closeAuthority.value else t.owner)
  }

  // ---- Steps that respect locked accounts keep the invariant ----

  /** Held by a derived address, with no delegate and no close authority: what every vault is. */
  predicate Locked(t: TokenAccount) {
    !t.owner.Plain? && t.delegate == None && t.closeAuthority == None
  }

  /** What a token step may do to one account. */
  predicate Permitted(w: Store, w': Store, k: Key) {
    || SameAt(w, w', k)
    || (k in w' && !w'[k].executable && IsMint(w, k) && IsMint(w', k)
        && w'[k].data.hasFreezeAuthority == w[k].data.hasFreezeAuthority)
    || (k in w' && !w'[k].executable && k !in w && k.Plain? && (IsMint(w', k) || (IsToken(w', k) && TokenOk(w', k))))
    || (IsToken(w, k) && k !in w' && !Locked(TokenAt(w, k)))
    || (&& IsToken(w, k) && IsToken(w', k) && !w'[k].executable && TokenOk(w', k)
        && (Locked(TokenAt(w, k)) ==> VaultGrows(w, w', k)))
  }

  lemma PermittedKeepsInv(w: Store, w': Store)
    requires Inv(w) && (forall k :: Permitted(w, w', k)) && (forall k :: IsMint(w', k) ==> SupplyOk(w', k))
    ensures Inv(w')
    ensures forall m :: IsMarket(w', m) <==> IsMarket(w, m)
    ensures forall m :: IsMarket(w, m) ==> Untouched(w, w', m)
  {
    hide MarketOk, SupplyOk, Untouched, TokenOk, Placed, Permitted;
    forall k | k in w' ensures Placed(k, w'[k]) {
      assert Permitted(w, w', k);
      assert k in w ==> Placed(k, w[k]);
      PermittedPlaced(w, w', k);
    }
    forall k ensures MintsKept(w, w', k) {
      assert Permitted(w, w', k);
      PermittedMint(w, w', k);
    }
    forall k | IsToken(w', k) ensures TokenOk(w', k) {
      assert Permitted(w, w', k);
      assert IsToken(w, k) ==> TokenOk(w, k);
      PermittedTokenOk(w, w', k);
    }
    forall m ensures IsMarket(w', m) <==> IsMarket(w, m)
             ensures IsMarket(w, m) ==> Untouched(w, w', m) && MarketOk(w', m) {
      assert Permitted(w, w', m);
      PermittedCore(w, w', m);
      if IsMarket(w, m) {
        assert MarketOk(w, m);
        PermittedUntouched(w, w', m);
        UntouchedStaysOk(w, w', m);
      }
    }
  }

  lemma PermittedPlaced(w: Store, w': Store, k: Key)
    requires Permitted(w, w', k) && k in w' && (k in w ==> Placed(k, w[k]))
    ensures Placed(k, w'[k])
  {
  }

  lemma PermittedMint(w: Store, w': Store, k: Key)
    requires Permitted(w, w', k)
    ensures MintsKept(w, w', k)
  {
  }

  lemma PermittedTokenOk(w: Store, w': Store, k: Key)
    requires Permitted(w, w', k) && IsToken(w', k) && (IsToken(w, k) ==> TokenOk(w, k))
    requires forall j :: MintsKept(w, w', j)
    ensures TokenOk(w', k)
  {
    if IsToken(w, k) {
      assert MintsKept(w, w', TokenAt(w, k).mint);
    }
  }

  /** Token steps reach nothing the settlement program owns. */
  lemma PermittedCore(w: Store, w': Store, k: Key)
    requires Permitted(w, w', k)
    ensures (k in w && w[k].owner == CORE) || (k in w' && w'[k].owner == CORE) ==> SameAt(w, w', k)
  {
  }

  lemma PermittedUntouched(w: Store, w': Store, m: Key)
    requires IsMarket(w, m) && MarketOk(w, m) && forall k :: Permitted(w, w', k)
    ensures Untouched(w, w', m)
  {
    hide TokenOk;
    assert Permitted(w, w', m) && Permitted(w, w', DomainPda(m)) && Permitted(w, w', LedgerOf(w, m));
    assert Permitted(w, w', VaultA(m)) && Permitted(w, w', VaultB(m)) && Permitted(w, w', FeeVault(w, m));
  }

  // ---- Every token instruction is permitted ----

  lemma DebitedOk(t: TokenAccount, authority: Key, amount: u64)
    requires Debited(t, authority, amount).Ok?
    ensures var d := Debited(t, authority, amount).value;
            && d.mint == t.mint && d.owner == t.owner && d.amount == t.amount - amount
            && ((t.delegate == None ==> t.delegatedAmount == 0) ==> (d.delegate == None ==> d.delegatedAmount == 0))
    ensures authority.Plain? ==> !Locked(t)
  {
  }

  lemma AppliedPermitted(w: Store, op: TokenOp)
    requires Inv(w) && Applied(w, op).Some?
    ensures forall k :: Permitted(w, Applied(w, op).value, k)
  {
    hide MarketOk, SupplyOk, Debited, Total;
    match op
    case Transfer(from, mint, to, authority, amount) =>
      if Debited(TokenAt(w, from), authority, amount).Ok? {
        DebitedOk(TokenAt(w, from), authority, amount);
        assert TokenOk(w, from) && TokenOk(w, to);
      }
    case Burn(from, mint, authority, amount) =>
      DebitedOk(TokenAt(w, from), authority, amount);
      assert TokenOk(w, from);
    case MintTo(mint, to, amount) => assert TokenOk(w, to);
    case Approve(source, _, _, _, _) => assert TokenOk(w, source);
    case Revoke(source, _) => assert TokenOk(w, source);
    case SetOwner(source, _, _) => assert TokenOk(w, source);
    case SetCloseAuthority(source, _, _) => assert TokenOk(w, source);
    case OpenAccount(_, _, _) =>
    case CloseAccount(_, _) =>
    case OpenMint(_, _) =>
  }

  /** Only minting and burning change a mint's total, and they change its supply alike. */
  lemma AppliedSupply(w: Store, op: TokenOp, mint: Key)
    requires Inv(w) && Applied(w, op).Some? && IsMint(Applied(w, op).value, mint)
    ensures SupplyOk(Applied(w, op).value, mint)
  {
    hide MarketOk, Total, Debited, Placed;
    var w' := Applied(w, op).value;
    if IsMint(w, mint) {
      assert SupplyOk(w, mint);
    }
    match op
    case Transfer(from, m, to, authority, amount) => TransferConserves(w, from, m, to, authority, amount, mint);
    case MintTo(m, to, amount) =>
      var entry := MintEntry(w[m].data.supply + amount, w[m].data.hasFreezeAuthority);
      TotalUpdate(w, m, entry, mint);
      TotalUpdate(w[m := entry], to, TokenEntry(Credited(TokenAt(w, to), amount)), mint);
    case Burn(from, m, authority, amount) =>
      DebitedOk(TokenAt(w, from), authority, amount);
      var entry := MintEntry(w[m].data.supply - amount, w[m].data.hasFreezeAuthority);
      TotalUpdate(w, m, entry, mint);
      TotalUpdate(w[m := entry], from, TokenEntry(Debited(TokenAt(w, from), authority, amount).value), mint);
    case Approve(source, _, _, _, _) => TotalUpdate(w, source, w'[source], mint);
    case Revoke(source, _) => TotalUpdate(w, source, w'[source], mint);
    case SetOwner(source, _, _) => TotalUpdate(w, source, w'[source], mint);
    case SetCloseAuthority(source, _, _) => TotalUpdate(w, source, w'[source], mint);
    case OpenAccount(account, _, _) => TotalUpdate(w, account, w'[account], mint);
    case CloseAccount(account, _) => TotalSplit(w, account, mint);
    case OpenMint(m, _) =>
      TotalUpdate(w, m, w'[m], mint);
      if m == mint {
        NoMintNoTokens(w, mint);
      }
  }

  lemma NoMintNoTokens(w: Store, mint: Key)
    requires Inv(w) && !IsMint(w, mint)
    ensures Total(w, mint) == 0
  {
    hide MarketOk, SupplyOk, Total;
    forall k ensures HoldingAt(w, k, mint) == 0 {
      assert IsToken(w, k) ==> TokenOk(w, k);
    }
    TotalZero(w, mint);
  }

  /** No token instruction of anybody's harms a market; a vault can at most receive. */
  lemma AppliedKeepsInv(w: Store, op: TokenOp)
    requires Inv(w) && Applied(w, op).Some?
    ensures var w' := Applied(w, op).value;
            && Inv(w')
            && (forall m :: IsMarket(w', m) <==> IsMarket(w, m))
            && (forall m :: IsMarket(w, m) ==> Untouched(w, w', m))
  {
    hide Applied, Inv, Permitted, SupplyOk, Untouched;
    var w' := Applied(w, op).value;
    AppliedPermitted(w, op);
    forall mint | IsMint(w', mint) ensures SupplyOk(w', mint) {
      AppliedSupply(w, op, mint);
    }
    PermittedKeepsInv(w, w');
  }
}
