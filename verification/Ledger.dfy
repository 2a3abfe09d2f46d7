/**
 * The account store and the classic token program: balances, delegates, and the totals they keep.
 */
module Ledger {
  import opened Base
  import opened Keys

  const PROTOCOL_FEE_BPS: u16 := 30
  const FEE_POLICY_REVISION: u64 := 0
  const EXPERIMENT_VERSION: byte := 0

  datatype Market = Market(
    version: byte, initializer: Key, marketId: nat, engineProgram: Key, engineState: Key, engineRevision: u64,
    mintA: Key, mintB: Key, feeBps: u16, feePolicyRevision: u64)

  datatype Domain = Domain(
    version: byte, market: Key, engineProgram: Key, engineState: Key, engineRevision: u64,
    accountedA: u64, accountedB: u64)

  datatype FeeLedger = FeeLedger(version: byte, market: Key, mintA: Key, accountedFeeA: u64)

  datatype TokenAccount = TokenAccount(
    mint: Key, owner: Key, amount: u64, delegate: Option<Key>, delegatedAmount: u64, closeAuthority: Option<Key>)

  datatype EngineState = EngineState(
    authority: Key, market: Key, revision: u64, lpFeeBps: u16, timingMode: byte, sequence: u64,
    lastIntentDigest: Digest, lastPhaseContextDigest: Digest, lastExecutionDigest: Digest,
    lastAmountOut: u64, lastPhase: byte, mode: byte)

  datatype Data =
    | MarketData(market: Market)
    | DomainData(domain: Domain)
    | FeeLedgerData(feeLedger: FeeLedger)
    | TokenData(token: TokenAccount)
    | MintData(supply: u64, hasFreezeAuthority: bool)
    | EngineData(state: EngineState)
    | OpaqueData(content: nat)

  datatype Account = Account(owner: Key, executable: bool, data: Data)

  /** Every account that exists, by address. */
  type Store = map<Key, Account>

  /** An absent account belongs to the system program. */
  function OwnerOf(w: Store, k: Key): Key {
    if k in w then w[k].owner else SYSTEM_PROGRAM
  }

  predicate Executable(w: Store, k: Key) {
    k in w && w[k].executable
  }

  /** The account at `k`, or its absence, is the same in both stores. */
  predicate SameAt(w: Store, w': Store, k: Key) {
    if k in w then k in w' && w[k] == w'[k] else k !in w'
  }

  predicate IsMarket(w: Store, k: Key) { k in w && w[k].owner == CORE && w[k].data.MarketData? }
  predicate IsDomain(w: Store, k: Key) { k in w && w[k].owner == CORE && w[k].data.DomainData? }
  predicate IsFeeLedger(w: Store, k: Key) { k in w && w[k].owner == CORE && w[k].data.FeeLedgerData? }
  predicate IsToken(w: Store, k: Key) { k in w && w[k].owner == TOKEN_PROGRAM && w[k].data.TokenData? }
  predicate IsMint(w: Store, k: Key) { k in w && w[k].owner == TOKEN_PROGRAM && w[k].data.MintData? }
  predicate IsPlanState(w: Store, k: Key) { k in w && w[k].owner == PLAN_ENGINE && w[k].data.EngineData? }

  function MarketAt(w: Store, k: Key): Market requires IsMarket(w, k) { w[k].data.market }
  function DomainAt(w: Store, k: Key): Domain requires IsDomain(w, k) { w[k].data.domain }
  function FeeLedgerAt(w: Store, k: Key): FeeLedger requires IsFeeLedger(w, k) { w[k].data.feeLedger }
  function TokenAt(w: Store, k: Key): TokenAccount requires IsToken(w, k) { w[k].data.token }
  function PlanStateAt(w: Store, k: Key): EngineState requires IsPlanState(w, k) { w[k].data.state }

  function TokenEntry(t: TokenAccount): Account { Account(TOKEN_PROGRAM, false, TokenData(t)) }
  function DomainEntry(d: Domain): Account { Account(CORE, false, DomainData(d)) }
  function FeeLedgerEntry(f: FeeLedger): Account { Account(CORE, false, FeeLedgerData(f)) }
  function MintEntry(supply: u64, freeze: bool): Account { Account(TOKEN_PROGRAM, false, MintData(supply, freeze)) }
  function PlanEntry(e: EngineState): Account { Account(PLAN_ENGINE, false, EngineData(e)) }

  // ---- The classic token program ----

  datatype TokenError = InvalidAccount | InsufficientFunds | MintMismatch | OwnerMismatch | Overflow | InvalidState

  /**
   * Debit `amount` on behalf of `authority`: the delegate spends its allowance and is cleared when
   * the allowance reaches zero; otherwise the authority must be the owner.
   */
  function Debited(t: TokenAccount, authority: Key, amount: u64): Result<TokenAccount, TokenError> {
    if t.amount < amount then Err(InsufficientFunds)
    else if t.delegate == Some(authority) then
      if t.delegatedAmount < amount then Err(InsufficientFunds)
      else
        var left := t.delegatedAmount - amount;
        Ok(t.(amount := t.amount - amount, delegatedAmount := left, delegate := if left == 0 then None else t.delegate))
    else if t.owner == authority then Ok(t.(amount := t.amount - amount))
    else Err(OwnerMismatch)
  }

  /** `TransferChecked`. */
  function Transferred(w: Store, from: Key, mint: Key, to: Key, authority: Key, amount: u64)
    : Result<Store, TokenError>
  {
    if !IsToken(w, from) || !IsToken(w, to) then Err(InvalidAccount)
    else if TokenAt(w, from).mint != mint || TokenAt(w, to).mint != mint then Err(MintMismatch)
    else
      var debited :- Debited(TokenAt(w, from), authority, amount);
      if from == to then Ok(w) else
      var credit := TokenAt(w, to).amount + amount;
      if credit > U64_MAX then Err(Overflow)
      else Ok(w[from := TokenEntry(debited)][to := TokenEntry(TokenAt(w, to).(amount := credit))])
  }

  /** `ApproveChecked` by the owner. */
  function Approved(w: Store, source: Key, mint: Key, delegate: Key, owner: Key, amount: u64)
    : Result<Store, TokenError>
  {
    if !IsToken(w, source) then Err(InvalidAccount)
    else if TokenAt(w, source).mint != mint then Err(MintMismatch)
    else if TokenAt(w, source).owner != owner then Err(OwnerMismatch)
    else Ok(w[source := TokenEntry(TokenAt(w, source).(delegate := Some(delegate), delegatedAmount := amount))])
  }

  /** Who may move the amount: the delegate within its allowance, and otherwise the owner. */
  predicate MayMove(t: TokenAccount, authority: Key, amount: u64) {
    if t.delegate == Some(authority) then amount <= t.delegatedAmount else t.owner == authority
  }

  /**
   * Transfers, exactly: between two accounts of the mint, by whoever may move the amount, when the funds
   * are there and the sum fits; each refusal names a fault that is there.
   */
  lemma TransfersExactly(w: Store, from: Key, mint: Key, to: Key, authority: Key, amount: u64)
    ensures var r := Transferred(w, from, mint, to, authority, amount);
            && (r.Ok? <==>
                  && IsToken(w, from) && IsToken(w, to)
                  && TokenAt(w, from).mint == mint && TokenAt(w, to).mint == mint
                  && amount <= TokenAt(w, from).amount && MayMove(TokenAt(w, from), authority, amount)
                  && (from == to || TokenAt(w, to).amount + amount <= U64_MAX))
            && (r.Err? ==>
                  match r.error
                  case InvalidAccount => !IsToken(w, from) || !IsToken(w, to)
                  case MintMismatch =>
                    && IsToken(w, from) && IsToken(w, to)
                    && (TokenAt(w, from).mint != mint || TokenAt(w, to).mint != mint)
                  case InsufficientFunds =>
                    && IsToken(w, from)
                    && (TokenAt(w, from).amount < amount
                        || (&& TokenAt(w, from).delegate == Some(authority)
                            && TokenAt(w, from).delegatedAmount < amount))
                  case OwnerMismatch =>
                    && IsToken(w, from) && TokenAt(w, from).delegate != Some(authority)
                    && TokenAt(w, from).owner != authority
                  case Overflow => IsToken(w, to) && TokenAt(w, to).amount + amount > U64_MAX
                  case InvalidState => false)
  {
  }

  /** What a transfer leaves: a spending delegate loses the amount of its allowance, and is gone with the last of it. */
  lemma TransferLeaves(w: Store, from: Key, mint: Key, to: Key, authority: Key, amount: u64)
    requires Transferred(w, from, mint, to, authority, amount).Ok?
    ensures var w' := Transferred(w, from, mint, to, authority, amount).value;
            && IsToken(w, from) && IsToken(w, to)
            && (from == to ==> w' == w)
            && (from != to ==>
                  && var t, u := TokenAt(w, from), TokenAt(w, to);
                  && IsToken(w', from) && IsToken(w', to) && !w'[from].executable && !w'[to].executable
                  && var t' := TokenAt(w', from);
                  && u.amount + amount <= U64_MAX && TokenAt(w', to) == u.(amount := u.amount + amount)
                  && t'.amount == t.amount - amount && t'.mint == t.mint && t'.owner == t.owner
                  && t'.closeAuthority == t.closeAuthority
                  && t'.delegatedAmount == t.delegatedAmount - (if t.delegate == Some(authority) then amount else 0)
                  && t'.delegate
                     == (if t.delegate == Some(authority) && t.delegatedAmount == amount then None else t.delegate)
                  && forall k :: k != from && k != to ==> SameAt(w, w', k))
  {
  }

  /** Approvals, exactly: the owner of an account of the mint replaces its delegate and allowance, and nothing else. */
  lemma ApprovesExactly(w: Store, source: Key, mint: Key, delegate: Key, owner: Key, amount: u64)
    ensures var r := Approved(w, source, mint, delegate, owner, amount);
            && (r.Ok? <==> IsToken(w, source) && TokenAt(w, source).mint == mint && TokenAt(w, source).owner == owner)
            && (r.Ok? ==>
                  && var t := TokenAt(w, source);
                  && IsToken(r.value, source) && !r.value[source].executable
                  && TokenAt(r.value, source)
                     == TokenAccount(t.mint, t.owner, t.amount, Some(delegate), amount, t.closeAuthority)
                  && forall k :: k != source ==> SameAt(w, r.value, k))
            && (r.Err? ==>
                  match r.error
                  case InvalidAccount => !IsToken(w, source)
                  case MintMismatch => IsToken(w, source) && TokenAt(w, source).mint != mint
                  case OwnerMismatch => IsToken(w, source) && TokenAt(w, source).owner != owner
                  case _ => false)
  {
  }

  /** The accounts as the token program and the two settlement programs share them. */
  class Bank {
    var accounts: Store

    constructor (accounts: Store)
      ensures this.accounts == accounts
    {
      this.accounts := accounts;
    }

    method TransferChecked(from: Key, mint: Key, to: Key, authority: Key, amount: u64)
      returns (r: Result<(), TokenError>)
      modifies this
      ensures match Transferred(old(accounts), from, mint, to, authority, amount)
              case Ok(w) => r == Ok(()) && accounts == w
              case Err(e) => r == Err(e) && accounts == old(accounts)
    {
      if !IsToken(accounts, from) || !IsToken(accounts, to) {
        return Err(InvalidAccount);
      }
      :- Need(TokenAt(accounts, from).mint == mint && TokenAt(accounts, to).mint == mint, MintMismatch);
      var debited :- Debited(TokenAt(accounts, from), authority, amount);
      if from == to {
        return Ok(());
      }
      var destination := TokenAt(accounts, to);
      :- Need(destination.amount + amount <= U64_MAX, Overflow);
      accounts := accounts[from := TokenEntry(debited)];
      accounts := accounts[to := TokenEntry(destination.(amount := destination.amount + amount))];
      return Ok(());
    }

    method ApproveChecked(source: Key, mint: Key, delegate: Key, owner: Key, amount: u64)
      returns (r: Result<(), TokenError>)
      modifies this
      ensures match Approved(old(accounts), source, mint, delegate, owner, amount)
              case Ok(w) => r == Ok(()) && accounts == w
              case Err(e) => r == Err(e) && accounts == old(accounts)
    {
      if !IsToken(accounts, source) {
        return Err(InvalidAccount);
      }
      var t := TokenAt(accounts, source);
      :- Need(t.mint == mint, MintMismatch);
      :- Need(t.owner == owner, OwnerMismatch);
      accounts := accounts[source := TokenEntry(t.(delegate := Some(delegate), delegatedAmount := amount))];
      return Ok(());
    }
  }

  // ---- Totals ----

  /** What an account contributes to the balances of a mint. */
  function Holding(a: Account, mint: Key): nat {
    if a.owner == TOKEN_PROGRAM && a.data.TokenData? && a.data.token.mint == mint then a.data.token.amount else 0
  }

  function HoldingAt(w: Store, k: Key, mint: Key): nat {
    if k in w then Holding(w[k], mint) else 0
  }

  /** The sum of a mint's balances over the whole store. */
  ghost function Total(w: Store, mint: Key): nat
    decreases |w|
  {
    if w == map[] then 0 else
    var k :| k in w;
    Holding(w[k], mint) + Total(w - {k}, mint)
  }

  /** The sum does not depend on the order it is taken in. */
  lemma {:induction false} TotalSplit(w: Store, k: Key, mint: Key)
    requires k in w
    ensures Total(w, mint) == Holding(w[k], mint) + Total(w - {k}, mint)
    decreases |w|
  {
    var j :| j in w && Total(w, mint) == Holding(w[j], mint) + Total(w - {j}, mint);
    if j != k {
      TotalSplit(w - {j}, k, mint);
      TotalSplit(w - {k}, j, mint);
      assert w - {j} - {k} == w - {k} - {j};
    }
  }

  lemma TotalUpdate(w: Store, k: Key, a: Account, mint: Key)
    ensures Total(w[k := a], mint) + HoldingAt(w, k, mint) == Total(w, mint) + Holding(a, mint)
  {
    TotalSplit(w[k := a], k, mint);
    assert w[k := a] - {k} == w - {k};
    if k in w {
      TotalSplit(w, k, mint);
    } else {
      assert w - {k} == w;
    }
  }

  lemma {:induction false} TotalZero(w: Store, mint: Key)
    requires forall k :: HoldingAt(w, k, mint) == 0
    ensures Total(w, mint) == 0
    decreases |w|
  {
    if w != map[] {
      var k :| k in w;
      TotalSplit(w, k, mint);
      assert HoldingAt(w, k, mint) == 0;
      forall j ensures HoldingAt(w - {k}, j, mint) == 0 {
        assert HoldingAt(w, j, mint) == 0;
      }
      TotalZero(w - {k}, mint);
    }
  }

  /** Two stores whose accounts hold the same amounts of a mint have the same total. */
  lemma {:induction false} TotalFrame(w: Store, w': Store, mint: Key)
    requires forall k :: HoldingAt(w, k, mint) == HoldingAt(w', k, mint)
    ensures Total(w, mint) == Total(w', mint)
    decreases |w|
  {
    if w == map[] {
      forall j ensures HoldingAt(w', j, mint) == 0 {
        assert HoldingAt(w, j, mint) == HoldingAt(w', j, mint);
      }
      TotalZero(w', mint);
    } else {
      var k :| k in w;
      var v, v' := w - {k}, w' - {k};
      forall j ensures HoldingAt(v, j, mint) == HoldingAt(v', j, mint) {
        assert HoldingAt(w, j, mint) == HoldingAt(w', j, mint);
      }
      TotalFrame(v, v', mint);
      TotalSplit(w, k, mint);
      assert HoldingAt(w, k, mint) == HoldingAt(w', k, mint);
      if k in w' {
        TotalSplit(w', k, mint);
      } else {
        assert v' == w';
      }
    }
  }

  /** Two accounts never hold more than the whole. */
  lemma PairBounded(w: Store, j: Key, k: Key, mint: Key)
    requires j != k
    ensures HoldingAt(w, j, mint) + HoldingAt(w, k, mint) <= Total(w, mint)
  {
    if j in w {
      TotalSplit(w, j, mint);
      if k in w {
        TotalSplit(w - {j}, k, mint);
      }
    } else if k in w {
      TotalSplit(w, k, mint);
    }
  }

  /** A transfer moves balance and creates none. */
  lemma TransferConserves(w: Store, from: Key, mint: Key, to: Key, authority: Key, amount: u64, m: Key)
    requires Transferred(w, from, mint, to, authority, amount).Ok?
    ensures Total(Transferred(w, from, mint, to, authority, amount).value, m) == Total(w, m)
  {
    if from != to {
      var debited := TokenEntry(Debited(TokenAt(w, from), authority, amount).value);
      var credited := TokenEntry(TokenAt(w, to).(amount := TokenAt(w, to).amount + amount));
      TotalUpdate(w, from, debited, m);
      TotalUpdate(w[from := debited], to, credited, m);
    }
  }
}
