/**
 * The two predecessor executors without their specifications: whatever the engine replied, exactly which
 * trades each of them settles, and exactly what it leaves.
 */
module Predecessors {
  import opened Base
  import opened Keys
  import opened Ledger
  import opened Capabilities
  import opened Core
  import opened Executors
  import opened Admissions

  /** Five balances and three books move by the trade, over what the engine wrote; nothing else changes. */
  ghost predicate TradeLeaves(w: Store, w': Store, writes: Store, e: Envelope, amountIn: u64, fee: u64,
                              amountOut: u64) {
    && IsToken(w, e.source.key) && IsToken(w, e.destination.key) && IsToken(w, e.vaultA.key)
    && IsToken(w, e.vaultB.key) && IsToken(w, e.feeVault.key)
    && IsToken(w', e.source.key) && IsToken(w', e.destination.key) && IsToken(w', e.vaultA.key)
    && IsToken(w', e.vaultB.key) && IsToken(w', e.feeVault.key)
    && TokenAt(w', e.source.key)
       == TokenAt(w, e.source.key).(amount := TokenAt(w', e.source.key).amount)
    && TokenAt(w', e.destination.key)
       == TokenAt(w, e.destination.key).(amount := TokenAt(w', e.destination.key).amount)
    && TokenAt(w', e.vaultA.key) == TokenAt(w, e.vaultA.key).(amount := TokenAt(w', e.vaultA.key).amount)
    && TokenAt(w', e.vaultB.key) == TokenAt(w, e.vaultB.key).(amount := TokenAt(w', e.vaultB.key).amount)
    && TokenAt(w', e.feeVault.key) == TokenAt(w, e.feeVault.key).(amount := TokenAt(w', e.feeVault.key).amount)
    && TokenAt(w', e.source.key).amount == TokenAt(w, e.source.key).amount - amountIn - fee
    && TokenAt(w', e.destination.key).amount == TokenAt(w, e.destination.key).amount + amountOut
    && TokenAt(w', e.vaultA.key).amount == TokenAt(w, e.vaultA.key).amount + amountIn
    && TokenAt(w', e.vaultB.key).amount == TokenAt(w, e.vaultB.key).amount - amountOut
    && TokenAt(w', e.feeVault.key).amount == TokenAt(w, e.feeVault.key).amount + fee
    && IsDomain(w, e.domain.key) && IsFeeLedger(w, e.feeLedger.key)
    && IsDomain(w', e.domain.key) && IsFeeLedger(w', e.feeLedger.key)
    && var d, f, d', f' := DomainAt(w, e.domain.key), FeeLedgerAt(w, e.feeLedger.key), DomainAt(w', e.domain.key),
                           FeeLedgerAt(w', e.feeLedger.key);
    && d' == d.(accountedA := d'.accountedA, accountedB := d'.accountedB)
    && f' == f.(accountedFeeA := f'.accountedFeeA)
    && d'.accountedA == d.accountedA + amountIn && d'.accountedB == d.accountedB - amountOut
    && f'.accountedFeeA == f.accountedFeeA + fee
    && forall k :: k !in TradeKeys(e) ==> SameAt(w + writes, w', k)
  }

  function TradeKeys(e: Envelope): set<Key> {
    {e.source.key, e.destination.key, e.vaultA.key, e.vaultB.key, e.feeVault.key, e.domain.key, e.feeLedger.key}
  }

  /** The token half. */
  lemma PaidExactly(v: Store, e: Envelope, user: Key, amountIn: u64, fee: u64, amountOut: u64)
    requires Payable(v, e, user) && CanSettle(v, e, amountIn, fee, amountOut)
    ensures var s := Settled(v, e, amountIn, fee, amountOut);
            && IsToken(s, e.source.key) && IsToken(s, e.destination.key) && IsToken(s, e.vaultA.key)
            && IsToken(s, e.vaultB.key) && IsToken(s, e.feeVault.key)
            && TokenAt(s, e.source.key) == Spent(TokenAt(v, e.source.key), amountIn + fee)
            && TokenAt(s, e.destination.key) == Credited(TokenAt(v, e.destination.key), amountOut)
            && TokenAt(s, e.vaultA.key) == Credited(TokenAt(v, e.vaultA.key), amountIn)
            && TokenAt(s, e.vaultB.key) == Spent(TokenAt(v, e.vaultB.key), amountOut)
            && TokenAt(s, e.feeVault.key) == Credited(TokenAt(v, e.feeVault.key), fee)
            && forall k :: k !in TradeKeys(e) ==> SameAt(v, s, k)
  {
  }

  /** And the books. */
  lemma BookedExactly(w: Store, s: Store, e: Envelope, amountIn: u64, fee: u64, amountOut: u64)
    requires CanAccount(w, e, amountIn, fee, amountOut) && e.domain.key != e.feeLedger.key
    ensures var v, d, f := Accounted(w, s, e, amountIn, fee, amountOut), DomainAt(w, e.domain.key),
                           FeeLedgerAt(w, e.feeLedger.key);
            && IsDomain(v, e.domain.key) && IsFeeLedger(v, e.feeLedger.key)
            && DomainAt(v, e.domain.key) == d.(accountedA := d.accountedA
                                               + amountIn, accountedB := d.accountedB - amountOut)
            && FeeLedgerAt(v, e.feeLedger.key) == f.(accountedFeeA := f.accountedFeeA + fee)
            && forall k :: k != e.domain.key && k != e.feeLedger.key ==> SameAt(s, v, k)
  {
  }

  lemma TradedExactly(w: Store, e: Envelope, user: Key, closure: seq<AccountMeta>, reply: Reply, amountIn: u64,
                      fee: u64, amountOut: u64)
    requires Validated(w, e, user) && Vetted(w, closure) && Lent(w, e, closure, reply)
    requires CanSettle(w + reply.writes, e, amountIn, fee, amountOut) && CanAccount(w, e, amountIn, fee, amountOut)
    ensures TradeLeaves(w, Traded(w, reply.writes, e, amountIn, fee, amountOut), reply.writes, e, amountIn, fee,
                        amountOut)
  {
    ReplyFrame(w, e, user, closure, reply);
    TradeFits(w, e, user, closure, reply, amountIn, fee, amountOut);
    hide Validated, Vetted, Lent, Settled, CanSettle, Accounted;
    var v := w + reply.writes;
    assert IsToken(w, e.source.key) && IsToken(w, e.destination.key) && IsToken(w, e.vaultA.key)
           && IsToken(w, e.vaultB.key) && IsToken(w, e.feeVault.key) by { ValidatedRoles(w, e, user); }
    PaidExactly(v, e, user, amountIn, fee, amountOut);
    hide Payable;
    var s := Settled(v, e, amountIn, fee, amountOut);
    BookedExactly(w, s, e, amountIn, fee, amountOut);
    var t := Traded(w, reply.writes, e, amountIn, fee, amountOut);
    TokenAlike(w, v, s, t, e, e.source.key);
    TokenAlike(w, v, s, t, e, e.destination.key);
    TokenAlike(w, v, s, t, e, e.vaultA.key);
    TokenAlike(w, v, s, t, e, e.vaultB.key);
    TokenAlike(w, v, s, t, e, e.feeVault.key);
  }

  lemma TokenAlike(w: Store, v: Store, s: Store, t: Store, e: Envelope, k: Key)
    requires IsToken(w, k) && SameAt(w, v, k) && IsToken(s, k) && IsDomain(w, e.domain.key)
    requires IsFeeLedger(w, e.feeLedger.key)
    requires forall j :: j != e.domain.key && j != e.feeLedger.key ==> SameAt(s, t, j)
    ensures IsToken(v, k) && TokenAt(v, k) == TokenAt(w, k) && IsToken(t, k) && TokenAt(t, k) == TokenAt(s, k)
  {
    assert SameAt(s, t, k);
  }

  /** What both executors ask of a trade, for the one fee there is. */
  predicate Sound(w: Store, e: Envelope, args: Args, slot: u64, fee: u64, amountOut: u64)
    requires IsToken(w, e.source.key) && IsDomain(w, e.domain.key)
  {
    && 0 < args.amountIn && slot <= args.expiresAtSlot && IsFee(args.amountIn, fee) && fee <= args.maxProtocolFee
    && args.amountIn + fee <= args.maxTotalInputDebit && args.amountIn + fee <= TokenAt(w, e.source.key).amount
    && 0 < amountOut && args.minOutputCredit <= amountOut <= DomainAt(w, e.domain.key).accountedB
  }

  lemma SuppliedSound(w: Store, e: Envelope, user: Key, args: Args, amountOut: u64, slot: u64, reply: Reply)
    requires Validated(w, e, user) && Lent(w, e, [], reply)
    ensures IsToken(w, e.source.key) && IsDomain(w, e.domain.key)
    ensures CallerSupplied(w, e, user, args, amountOut, slot, reply).Ok? <==>
              args.amountIn > 0 && Sound(w, e, args, slot, FeeOf(args.amountIn), amountOut) && reply.verdict.Ok?
  {
    NothingLent(w);
    TradeFits(w, e, user, [], reply, args.amountIn, FeeOrZero(args.amountIn), amountOut);
    hide Validated, Lent, Vetted, CanSettle, FeeOf, IsFee, Traded;
    if args.amountIn > 0 {
      FeeExactly(args.amountIn, FeeOf(args.amountIn));
    }
  }

  /** The caller-supplied executor, exactly: the caller's output, unless the engine vetoes it. */
  lemma SuppliedExactly(w: Store, e: Envelope, user: Key, args: Args, amountOut: u64, slot: u64, reply: Reply, fee: u64)
    requires Validated(w, e, user) && Lent(w, e, [], reply) && (args.amountIn > 0 ==> IsFee(args.amountIn, fee))
    ensures IsToken(w, e.source.key) && IsDomain(w, e.domain.key)
    ensures var r := CallerSupplied(w, e, user, args, amountOut, slot, reply);
            && (r.Ok? <==> Sound(w, e, args, slot, fee, amountOut) && reply.verdict.Ok?)
            && (r.Ok? ==> TradeLeaves(w, r.value, reply.writes, e, args.amountIn, fee, amountOut))
  {
    NothingLent(w);
    SuppliedSound(w, e, user, args, amountOut, slot, reply);
    TradeFits(w, e, user, [], reply, args.amountIn, fee, amountOut);
    hide Validated, Lent, Vetted, CanSettle, CanAccount, FeeOf, IsFee, Traded, TradeLeaves;
    if args.amountIn > 0 {
      FeeExactly(args.amountIn, fee);
    }
    if CallerSupplied(w, e, user, args, amountOut, slot, reply).Ok? {
      TradedExactly(w, e, user, [], reply, args.amountIn, fee, amountOut);
    }
  }

  /** The engine-generated executor, exactly: the engine's output, within the user's bounds and the books. */
  lemma GeneratedExactly(w: Store, e: Envelope, user: Key, args: Args, slot: u64, closure: seq<AccountMeta>,
                         reply: Reply,
                         fee: u64)
    requires Validated(w, e, user) && Vetted(w, closure) && Lent(w, e, closure, reply)
    requires args.amountIn > 0 ==> IsFee(args.amountIn, fee)
    ensures IsToken(w, e.source.key) && IsDomain(w, e.domain.key)
    ensures var r := EngineGenerated(w, e, user, args, slot, closure, reply);
            && (r.Ok? <==> reply.verdict.Ok? && Sound(w, e, args, slot, fee, reply.verdict.value))
            && (r.Ok? ==> TradeLeaves(w, r.value, reply.writes, e, args.amountIn, fee, reply.verdict.value))
  {
    TradeFits(w, e, user, closure, reply, args.amountIn, fee, if reply.verdict.Ok? then reply.verdict.value else 0);
    hide Validated, Lent, Vetted, CanSettle, FeeOf, IsFee, Traded, TradeLeaves, AmountVerdict;
    if args.amountIn > 0 {
      FeeExactly(args.amountIn, fee);
      AmountsExactly(args, TokenAt(w, e.source.key).amount, DomainAt(w, e.domain.key).accountedB);
    }
    if EngineGenerated(w, e, user, args, slot, closure, reply).Ok? {
      TradedExactly(w, e, user, closure, reply, args.amountIn, fee, reply.verdict.value);
    }
  }
}
