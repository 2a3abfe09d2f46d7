/**
 * Three generations of one settlement step. The caller-supplied executor is told the output, the
 * engine-generated one asks its engine, the routed one spends by delegate; on the same books, input,
 * output and bounds their economic guards admit the same trades and leave the same balances.
 */
module Executors {
  import opened Base
  import opened Bindings
  import opened Keys
  import opened Ledger
  import opened Errors
  import opened Capabilities
  import opened PlanEngine
  import opened Runtime
  import opened Core
  import opened Frames
  import opened ExecuteInstruction
  import opened Invariants
  import opened Validation
  import opened Honest
  import opened Trades
  import opened Timings
  import FixedMath

  // ---- What the predecessors validate, and what their engines may do ----

  /** The validated envelope of a predecessor executor: the user owns the source outright. */
  ghost predicate Validated(w: Store, e: Envelope, user: Key) {
    && Inv(w) && Constrained(w, e) && e.destination.key != e.vaultB.key && user.Plain?
    && var t := TokenAt(w, e.source.key);
    && t.owner == user && t.delegate == None && t.delegatedAmount == 0 && t.closeAuthority == None
  }

  /**
   * A predecessor's engine call: what it wrote, and the output it accepted or whatever its failure,
   * return data or receipt made of it. The caller-supplied executor ignores the output.
   */
  datatype Reply = Reply(writes: Store, verdict: Result<u64, CoreError>)

  /** The closure is vetted: nothing writable in it belongs to the settlement or the token program. */
  ghost predicate Vetted(w: Store, closure: seq<AccountMeta>) {
    forall k :: WritableIn(closure, k) ==> OwnerOf(w, k) != CORE && OwnerOf(w, k) != TOKEN_PROGRAM
  }

  /** Which is what the opaque-account checks establish. */
  lemma AcceptedIsVetted(w: Store, closure: seq<AccountMeta>, fixedKeys: seq<Key>)
    requires OpaqueDescriptors(Loaded(w, closure), fixedKeys).Ok?
    ensures Vetted(w, closure)
  {
    hide OpaqueDescriptors, Loaded;
    AcceptedClosure(w, closure, fixedKeys);
    forall k | WritableIn(closure, k) ensures OwnerOf(w, k) != CORE && OwnerOf(w, k) != TOKEN_PROGRAM {
      var i :| 0 <= i < |closure| && closure[i].key == k && closure[i].isWritable;
      assert OpaqueDescriptors(Loaded(w, closure), fixedKeys).value[i].key == k;
    }
  }

  lemma NothingLent(w: Store)
    ensures Vetted(w, [])
  {
  }

  /** The call wrote its state and closure accounts lent writable, and those only lawfully. */
  predicate Lent(w: Store, e: Envelope, closure: seq<AccountMeta>, reply: Reply) {
    forall k :: k in reply.writes ==>
      && (k == e.engineState.key || WritableIn(closure, k))
      && (LegalWrite(w, k, reply.writes[k])
          || (k == e.engineState.key && reply.writes[k].owner == e.engineProgram.key && !reply.writes[k].executable))
  }

  /** The settlement accounts as the transfers need them. */
  predicate Payable(w: Store, e: Envelope, user: Key) {
    && IsToken(w, e.source.key) && IsToken(w, e.destination.key)
    && IsToken(w, e.vaultA.key) && IsToken(w, e.vaultB.key) && IsToken(w, e.feeVault.key)
    && var source, destination := TokenAt(w, e.source.key), TokenAt(w, e.destination.key);
    && var a, b, c := TokenAt(w, e.vaultA.key), TokenAt(w, e.vaultB.key), TokenAt(w, e.feeVault.key);
    && source.mint == a.mint == c.mint == e.mintA.key && destination.mint == b.mint == e.mintB.key
    && e.mintA.key != e.mintB.key
    && source.owner == user && source.delegate == None && source.delegatedAmount == 0
    && b.owner == e.domain.key && b.delegate == None && e.destination.key != e.vaultB.key
    && e.source.key != e.vaultA.key && e.source.key != e.feeVault.key && e.vaultA.key != e.feeVault.key
    && source.amount + a.amount <= U64_MAX && source.amount + c.amount <= U64_MAX
    && b.amount + destination.amount <= U64_MAX
  }

  /** Supply bounds every sum, so a validated envelope is payable and solvent. */
  lemma ValidatedRoles(w: Store, e: Envelope, user: Key)
    requires Validated(w, e, user)
    ensures Payable(w, e, user)
    ensures IsMarket(w, e.market.key) && MarketAt(w, e.market.key).feeBps == PROTOCOL_FEE_BPS
    ensures e.engineProgram.key != CORE && e.engineProgram.key != TOKEN_PROGRAM
    ensures OwnerOf(w, e.engineState.key) == e.engineProgram.key
    ensures IsDomain(w, e.domain.key) && IsFeeLedger(w, e.feeLedger.key)
    ensures DomainAt(w, e.domain.key).accountedA <= TokenAt(w, e.vaultA.key).amount
    ensures DomainAt(w, e.domain.key).accountedB <= TokenAt(w, e.vaultB.key).amount
    ensures FeeLedgerAt(w, e.feeLedger.key).accountedFeeA <= TokenAt(w, e.feeVault.key).amount
  {
    ValidatedVaults(w, e, user);
    hide Inv, Constrained, MarketOk;
    PairFits(w, e.source.key, e.vaultA.key);
    PairFits(w, e.source.key, e.feeVault.key);
    PairFits(w, e.vaultB.key, e.destination.key);
  }

  lemma ValidatedVaults(w: Store, e: Envelope, user: Key)
    requires Validated(w, e, user)
    ensures IsMarket(w, e.market.key) && MarketAt(w, e.market.key).feeBps == PROTOCOL_FEE_BPS
    ensures e.engineProgram.key != CORE && e.engineProgram.key != TOKEN_PROGRAM
    ensures OwnerOf(w, e.engineState.key) == e.engineProgram.key
    ensures IsToken(w, e.source.key) && IsToken(w, e.destination.key)
    ensures IsDomain(w, e.domain.key) && IsFeeLedger(w, e.feeLedger.key)
    ensures e.mintA.key != e.mintB.key
    ensures TokenAt(w, e.source.key).mint == e.mintA.key && TokenAt(w, e.destination.key).mint == e.mintB.key
    ensures VaultOk(w, e.vaultA.key, e.mintA.key, e.domain.key, DomainAt(w, e.domain.key).accountedA)
    ensures VaultOk(w, e.vaultB.key, e.mintB.key, e.domain.key, DomainAt(w, e.domain.key).accountedB)
    ensures VaultOk(w, e.feeVault.key, e.mintA.key, e.feeLedger.key, FeeLedgerAt(w, e.feeLedger.key).accountedFeeA)
    ensures e.source.key != e.vaultA.key && e.source.key != e.feeVault.key && e.vaultA.key != e.feeVault.key
    ensures TokenAt(w, e.source.key).owner == user && TokenAt(w, e.source.key).delegate == None
    ensures TokenAt(w, e.source.key).delegatedAmount == 0
  {
    hide SupplyOk, TokenOk;
    assert MarketOk(w, e.market.key);
  }

  /** Whatever the engine did, the balances cached before it are still true. */
  lemma ReplyFrame(w: Store, e: Envelope, user: Key, closure: seq<AccountMeta>, reply: Reply)
    requires Validated(w, e, user) && Vetted(w, closure) && Lent(w, e, closure, reply)
    ensures var v := w + reply.writes;
            && (forall k :: IsToken(w, k) ==> SameAt(w, v, k)) && Payable(v, e, user)
  {
    ValidatedRoles(w, e, user);
    hide Validated;
    forall k | IsToken(w, k) ensures k !in reply.writes {
    }
  }

  lemma PayableSettles(w: Store, e: Envelope, user: Key, amountIn: u64, fee: u64, amountOut: u64)
    requires Payable(w, e, user)
    requires amountIn + fee <= TokenAt(w, e.source.key).amount && amountOut <= TokenAt(w, e.vaultB.key).amount
    ensures CanSettle(w, e, amountIn, fee, amountOut)
  {
  }

  /** The store a settled trade leaves: the engine's writes, five balances and three accounting fields. */
  function Traded(w: Store, writes: Store, e: Envelope, amountIn: u64, fee: u64, amountOut: u64): Store
    requires CanSettle(w + writes, e, amountIn, fee, amountOut) && CanAccount(w, e, amountIn, fee, amountOut)
  {
    Accounted(w, Settled(w + writes, e, amountIn, fee, amountOut), e, amountIn, fee, amountOut)
  }

  /** Once source and liquidity suffice, settling after the engine's call cannot fail. */
  lemma TradeFits(w: Store, e: Envelope, user: Key, closure: seq<AccountMeta>, reply: Reply, amountIn: u64,
                  fee: u64, amountOut: u64)
    requires Validated(w, e, user) && Vetted(w, closure) && Lent(w, e, closure, reply)
    ensures IsToken(w, e.source.key) && IsDomain(w, e.domain.key) && IsFeeLedger(w, e.feeLedger.key)
    ensures amountIn + fee <= TokenAt(w, e.source.key).amount && amountOut <= DomainAt(w, e.domain.key).accountedB ==>
              CanSettle(w + reply.writes, e, amountIn, fee, amountOut) && CanAccount(w, e, amountIn, fee, amountOut)
  {
    ValidatedRoles(w, e, user);
    ReplyFrame(w, e, user, closure, reply);
    hide Validated, Lent, CanSettle;
    var v := w + reply.writes;
    if amountIn + fee <= TokenAt(w, e.source.key).amount && amountOut <= DomainAt(w, e.domain.key).accountedB {
      assert SameAt(w, v, e.source.key) && SameAt(w, v, e.vaultB.key);
      PayableSettles(v, e, user, amountIn, fee, amountOut);
    }
  }

  function FeeOrZero(amountIn: u64): u64 {
    if amountIn > 0 then FeeOf(amountIn) else 0
  }

  // ---- The caller-supplied executor ----

  /** Its economic guards in their order; the source balance is only found out by the token program. */
  ghost function CallerSupplied(w: Store, e: Envelope, user: Key, args: Args, amountOut: u64, slot: u64, reply: Reply)
    : Result<Store, CoreError>
    requires Validated(w, e, user) && Lent(w, e, [], reply)
  {
    hide Validated, Lent, CanSettle, CanAccount;
    TradeFits(w, e, user, [], reply, args.amountIn, FeeOrZero(args.amountIn), amountOut);
    var d, f := DomainAt(w, e.domain.key), FeeLedgerAt(w, e.feeLedger.key);
    if args.amountIn == 0 || amountOut == 0 then Err(CoreError.ZeroAmount)
    else if slot > args.expiresAtSlot then Err(RequestExpired)
    else if amountOut < args.minOutputCredit then Err(OutputBelowUserMinimum)
    else if d.accountedB < amountOut then Err(InsufficientAccountedLiquidity)
    else
      var fee := FeeOf(args.amountIn);
      if fee > args.maxProtocolFee then Err(ProtocolFeeAboveUserMaximum)
      else if args.amountIn + fee > U64_MAX then Err(CoreError.ArithmeticOverflow)
      else if args.amountIn + fee > args.maxTotalInputDebit then Err(TotalDebitAboveUserMaximum)
      else if d.accountedA + args.amountIn > U64_MAX || f.accountedFeeA + fee > U64_MAX then
        Err(CoreError.ArithmeticOverflow)
      else
        var _ :- reply.verdict;
        if TokenAt(w, e.source.key).amount < args.amountIn + fee then Err(TokenProgramFailed(InsufficientFunds))
        else Ok(Traded(w, reply.writes, e, args.amountIn, fee, amountOut))
  }

  // ---- The engine-generated executor ----

  /** Its economic guards in their order; the output is what its engine's receipt says. */
  ghost function EngineGenerated(w: Store, e: Envelope, user: Key, args: Args, slot: u64, closure: seq<AccountMeta>,
                                 reply: Reply)
    : Result<Store, CoreError>
    requires Validated(w, e, user) && Vetted(w, closure) && Lent(w, e, closure, reply)
  {
    hide Validated, Lent, CanSettle, CanAccount, Vetted;
    TradeFits(w, e, user, closure, reply, args.amountIn, FeeOrZero(args.amountIn),
              if reply.verdict.Ok? then reply.verdict.value else 0);
    var d, f := DomainAt(w, e.domain.key), FeeLedgerAt(w, e.feeLedger.key);
    if args.amountIn == 0 then Err(CoreError.ZeroAmount)
    else if slot > args.expiresAtSlot then Err(RequestExpired)
    else
      var amounts :- AmountVerdict(args, TokenAt(w, e.source.key).amount, d.accountedB);
      var amountOut :- reply.verdict;
      var _ :- OutputVerdict(amountOut, args.minOutputCredit, d.accountedB);
      Ok(Traded(w, reply.writes, e, args.amountIn, amounts.0, amountOut))
  }

  // ---- Both settle alike ----

  /** The user's own transfers leave the same balances as the delegate's, or fail for funds. */
  lemma OwnerTransfersSettle(w: Store, e: Envelope, user: Key, amountIn: u64, fee: u64, amountOut: u64)
    requires Payable(w, e, user) && amountOut <= TokenAt(w, e.vaultB.key).amount
    ensures var enough := amountIn + fee <= TokenAt(w, e.source.key).amount;
            var r1 := Transferred(w, e.source.key, e.mintA.key, e.vaultA.key, user, amountIn);
            var r2 := if r1.Err? then r1
              else Transferred(r1.value, e.source.key, e.mintA.key, e.feeVault.key, user, fee);
            var r3 := if r2.Err? then r2
                      else Transferred(r2.value, e.vaultB.key, e.mintB.key, e.destination.key, e.domain.key, amountOut);
            && (enough ==>
                  && CanSettle(w, e, amountIn, fee, amountOut)
                  && r3 == Ok(Settled(w, e, amountIn, fee, amountOut)))
            && (!enough ==> r3 == Err(InsufficientFunds))
  {
    var t := TokenAt(w, e.source.key);
    if amountIn <= t.amount {
      var w1 := Transferred(w, e.source.key, e.mintA.key, e.vaultA.key, user, amountIn).value;
      assert w1 == w[e.source.key := TokenEntry(Spent(t, amountIn))]
                    [e.vaultA.key := TokenEntry(Credited(TokenAt(w, e.vaultA.key), amountIn))];
      if amountIn + fee <= t.amount {
        var w2 := Transferred(w1, e.source.key, e.mintA.key, e.feeVault.key, user, fee).value;
        assert w2 == w[e.source.key := TokenEntry(Spent(t, amountIn + fee))]
                      [e.vaultA.key := TokenEntry(Credited(TokenAt(w, e.vaultA.key), amountIn))]
                      [e.feeVault.key := TokenEntry(Credited(TokenAt(w, e.feeVault.key), fee))];
        assert Spent(t, amountIn + fee) == Spent(t, amountIn + fee).(delegate := None, delegatedAmount := 0);
      }
    }
  }

  datatype Balances = Balances(source: u64, destination: u64, vaultA: u64, vaultB: u64, feeVault: u64)

  function LoadBalances(w: Store, e: Envelope): Balances
    requires IsToken(w, e.source.key) && IsToken(w, e.destination.key)
    requires IsToken(w, e.vaultA.key) && IsToken(w, e.vaultB.key) && IsToken(w, e.feeVault.key)
  {
    Balances(TokenAt(w, e.source.key).amount, TokenAt(w, e.destination.key).amount, TokenAt(w, e.vaultA.key).amount,
             TokenAt(w, e.vaultB.key).amount, TokenAt(w, e.feeVault.key).amount)
  }

  function Deltas(before: Balances, after: Balances, amountIn: u64, fee: u64, amountOut: u64): Result<(), CoreError>
    requires amountIn + fee <= U64_MAX
  {
    var _ :- ExactDebit(before.source, after.source, amountIn + fee, UnexpectedSourceDebit);
    var _ :- ExactCredit(before.vaultA, after.vaultA, amountIn, UnexpectedVaultCredit);
    var _ :- ExactCredit(before.feeVault, after.feeVault, fee, UnexpectedFeeVaultCredit);
    var _ :- ExactDebit(before.vaultB, after.vaultB, amountOut, UnexpectedVaultDebit);
    ExactCredit(before.destination, after.destination, amountOut, UnexpectedDestinationCredit)
  }

  /** The five deltas, exactly. */
  lemma DeltasExactly(before: Balances, after: Balances, amountIn: u64, fee: u64, amountOut: u64)
    requires amountIn + fee <= U64_MAX
    ensures Deltas(before, after, amountIn, fee, amountOut).Ok? <==>
              && after.source == before.source - amountIn - fee && after.vaultA == before.vaultA + amountIn
              && after.feeVault == before.feeVault + fee && after.vaultB == before.vaultB - amountOut
              && after.destination == before.destination + amountOut
  {
  }

  lemma UserDeltas(w: Store, e: Envelope, user: Key, amountIn: u64, fee: u64, amountOut: u64)
    requires Payable(w, e, user) && CanSettle(w, e, amountIn, fee, amountOut)
    ensures var s := Settled(w, e, amountIn, fee, amountOut);
            && IsToken(s, e.source.key) && IsToken(s, e.destination.key)
            && IsToken(s, e.vaultA.key) && IsToken(s, e.vaultB.key) && IsToken(s, e.feeVault.key)
            && amountIn + fee <= U64_MAX
            && Deltas(LoadBalances(w, e), LoadBalances(s, e), amountIn, fee, amountOut) == Ok(())
  {
  }

  /** The token half both predecessors share: three transfers signed by the user and the domain, five exact deltas. */
  method SettleForUser(bank: Bank, before: Balances, e: Envelope, user: Key, amountIn: u64, fee: u64, amountOut: u64)
    returns (r: Result<(), CoreError>)
    requires Payable(bank.accounts, e, user) && before == LoadBalances(bank.accounts, e)
    requires amountOut <= TokenAt(bank.accounts, e.vaultB.key).amount && amountIn + fee <= U64_MAX
    modifies bank
    ensures if amountIn + fee <= TokenAt(old(bank.accounts), e.source.key).amount
            then && CanSettle(old(bank.accounts), e, amountIn, fee, amountOut)
                 && r == Ok(()) && bank.accounts == Settled(old(bank.accounts), e, amountIn, fee, amountOut)
            else r == Err(TokenProgramFailed(InsufficientFunds))
  {
    hide Transferred, Settled, CanSettle;
    ghost var w := bank.accounts;
    OwnerTransfersSettle(w, e, user, amountIn, fee, amountOut);
    var t1 := bank.TransferChecked(e.source.key, e.mintA.key, e.vaultA.key, user, amountIn);
    if t1.Err? {
      return Err(TokenProgramFailed(t1.error));
    }
    var t2 := bank.TransferChecked(e.source.key, e.mintA.key, e.feeVault.key, user, fee);
    if t2.Err? {
      return Err(TokenProgramFailed(t2.error));
    }
    var t3 := bank.TransferChecked(e.vaultB.key, e.mintB.key, e.destination.key, e.domain.key, amountOut);
    if t3.Err? {
      return Err(TokenProgramFailed(ErrorOf(t3, InvalidState)));
    }
    UserDeltas(w, e, user, amountIn, fee, amountOut);
    var deltas := Deltas(before, LoadBalances(bank.accounts, e), amountIn, fee, amountOut);
    if deltas.Err? {
      return deltas;
    }
    return Ok(());
  }

  /** The store a predecessor meets after its engine's call, with the balances it cached before it. */
  lemma CachedBalances(w: Store, e: Envelope, user: Key, closure: seq<AccountMeta>, reply: Reply)
    requires Validated(w, e, user) && Vetted(w, closure) && Lent(w, e, closure, reply)
    ensures Payable(w, e, user) && Payable(w + reply.writes, e, user)
    ensures IsToken(w, e.source.key) && IsToken(w, e.destination.key)
    ensures IsToken(w, e.vaultA.key) && IsToken(w, e.vaultB.key) && IsToken(w, e.feeVault.key)
    ensures var v := w + reply.writes;
            && IsToken(v, e.source.key) && IsToken(v, e.destination.key)
            && IsToken(v, e.vaultA.key) && IsToken(v, e.vaultB.key) && IsToken(v, e.feeVault.key)
    ensures LoadBalances(w + reply.writes, e) == LoadBalances(w, e)
    ensures TokenAt(w + reply.writes, e.source.key) == TokenAt(w, e.source.key)
    ensures DomainAt(w, e.domain.key).accountedB <= TokenAt(w + reply.writes, e.vaultB.key).amount
  {
    ValidatedRoles(w, e, user);
    ReplyFrame(w, e, user, closure, reply);
    hide Validated, Lent, Vetted;
    var v := w + reply.writes;
    assert SameAt(w, v, e.source.key) && SameAt(w, v, e.destination.key) && SameAt(w, v, e.vaultA.key);
    assert SameAt(w, v, e.vaultB.key) && SameAt(w, v, e.feeVault.key);
  }

  /** The caller-supplied executor from its first economic guard on: the engine may veto but not reprice. */
  method ExecuteCallerSupplied(bank: Bank, e: Envelope, user: Key, args: Args, amountOut: u64, slot: u64, reply: Reply)
    returns (r: Result<(), CoreError>)
    requires Validated(bank.accounts, e, user) && Lent(bank.accounts, e, [], reply)
    modifies bank
    ensures match CallerSupplied(old(bank.accounts), e, user, args, amountOut, slot, reply)
            case Ok(w) => r == Ok(()) && bank.accounts == w
            case Err(error) => r == Err(error)
  {
    hide Validated, CanSettle, CanAccount, Settled, FixedMath.FeeCeil, Payable, Lent, FeeOf;
    var w := bank.accounts;
    ValidatedRoles(w, e, user);
    NothingLent(w);
    CachedBalances(w, e, user, [], reply);
    var domain, feeLedger, before := DomainAt(w, e.domain.key), FeeLedgerAt(w, e.feeLedger.key), LoadBalances(w, e);
    :- Need(args.amountIn > 0 && amountOut > 0, CoreError.ZeroAmount);
    :- Need(slot <= args.expiresAtSlot, RequestExpired);
    :- Need(amountOut >= args.minOutputCredit, OutputBelowUserMinimum);
    :- Need(domain.accountedB >= amountOut, InsufficientAccountedLiquidity);
    var fee := FeeOf(args.amountIn);
    :- Need(fee <= args.maxProtocolFee, ProtocolFeeAboveUserMaximum);
    var total :- Add64(args.amountIn, fee, CoreError.ArithmeticOverflow);
    :- Need(total <= args.maxTotalInputDebit, TotalDebitAboveUserMaximum);
    var postA :- Add64(domain.accountedA, args.amountIn, CoreError.ArithmeticOverflow);
    var postB := domain.accountedB - amountOut;
    var postFee :- Add64(feeLedger.accountedFeeA, fee, CoreError.ArithmeticOverflow);
    bank.accounts := bank.accounts + reply.writes;
    var _ :- reply.verdict;
    var _ :- SettleForUser(bank, before, e, user, args.amountIn, fee, amountOut);
    bank.accounts := bank.accounts[e.domain.key := DomainEntry(domain.(accountedA := postA, accountedB := postB))];
    bank.accounts := bank.accounts[e.feeLedger.key := FeeLedgerEntry(feeLedger.(accountedFeeA := postFee))];
    return Ok(());
  }

  /** The engine-generated executor from its first economic guard on: the output is the engine's. */
  method ExecuteEngineGenerated(bank: Bank, e: Envelope, user: Key, args: Args, slot: u64,
                                ghost closure: seq<AccountMeta>, reply: Reply)
    returns (r: Result<(), CoreError>)
    requires Validated(bank.accounts, e, user) && Vetted(bank.accounts, closure)
    requires Lent(bank.accounts, e, closure, reply)
    modifies bank
    ensures match EngineGenerated(old(bank.accounts), e, user, args, slot, closure, reply)
            case Ok(w) => r == Ok(()) && bank.accounts == w
            case Err(error) => r == Err(error)
  {
    hide Validated, CanSettle, Settled, FixedMath.FeeCeil, Payable, Lent, Vetted, FeeOf;
    var w := bank.accounts;
    ValidatedRoles(w, e, user);
    CachedBalances(w, e, user, closure, reply);
    var domain, feeLedger, before := DomainAt(w, e.domain.key), FeeLedgerAt(w, e.feeLedger.key), LoadBalances(w, e);
    :- Need(args.amountIn > 0, CoreError.ZeroAmount);
    :- Need(slot <= args.expiresAtSlot, RequestExpired);
    var fee := FeeOf(args.amountIn);
    :- Need(fee <= args.maxProtocolFee, ProtocolFeeAboveUserMaximum);
    var total :- Add64(args.amountIn, fee, CoreError.ArithmeticOverflow);
    :- Need(total <= args.maxTotalInputDebit, TotalDebitAboveUserMaximum);
    :- Need(before.source >= total, InsufficientUserSourceBalance);
    :- Need(domain.accountedB >= args.minOutputCredit, InsufficientAccountedLiquidity);
    TradeFits(w, e, user, closure, reply, args.amountIn, fee, 0);
    var postA := Add64(domain.accountedA, args.amountIn, CoreError.ArithmeticOverflow);
    var postFee := Add64(feeLedger.accountedFeeA, fee, CoreError.ArithmeticOverflow);
    if postA.Err? || postFee.Err? {
      return Err(CoreError.ArithmeticOverflow);
    }
    bank.accounts := bank.accounts + reply.writes;
    var amountOut :- reply.verdict;
    :- Need(amountOut > 0, CoreError.ZeroAmount);
    :- Need(amountOut >= args.minOutputCredit, OutputBelowUserMinimum);
    :- Need(amountOut <= domain.accountedB, InsufficientAccountedLiquidity);
    var postB := domain.accountedB - amountOut;
    var settled := SettleForUser(bank, before, e, user, args.amountIn, fee, amountOut);
    if settled.Err? {
      return settled;
    }
    bank.accounts :=
      bank.accounts[e.domain.key := DomainEntry(domain.(accountedA := postA.value, accountedB := postB))];
    bank.accounts := bank.accounts[e.feeLedger.key := FeeLedgerEntry(feeLedger.(accountedFeeA := postFee.value))];
    return Ok(());
  }

  // ---- The same trades, the same books ----

  /**
   * The predecessors admit the same trades: with an engine that accepts the output, one succeeds exactly
   * when the other does, and they leave the same store but for what either engine wrote. Their errors differ.
   */
  lemma PredecessorsAgree(w: Store, e: Envelope, user: Key, args: Args, amountOut: u64, slot: u64, supplied: Reply,
                          closure: seq<AccountMeta>, generated: Reply)
    requires Validated(w, e, user) && Lent(w, e, [], supplied) && supplied.verdict.Ok?
    requires Vetted(w, closure) && Lent(w, e, closure, generated) && generated.verdict == Ok(amountOut)
    ensures var c := CallerSupplied(w, e, user, args, amountOut, slot, supplied);
            var g := EngineGenerated(w, e, user, args, slot, closure, generated);
            && (c.Ok? <==> g.Ok?)
            && (c.Ok? ==> forall k :: k !in supplied.writes && k !in generated.writes ==> SameAt(c.value, g.value, k))
            && (c.Ok? && supplied.writes == generated.writes ==> c == g)
  {
    hide Validated, Lent, Traded, CanSettle, Vetted, FeeOf;
    NothingLent(w);
    TradeFits(w, e, user, [], supplied, args.amountIn, FeeOrZero(args.amountIn), amountOut);
    TradeFits(w, e, user, closure, generated, args.amountIn, FeeOrZero(args.amountIn), amountOut);
    if EngineGenerated(w, e, user, args, slot, closure, generated).Ok? {
      TradedAlike(w, e, user, closure, supplied, generated, args.amountIn, FeeOrZero(args.amountIn), amountOut);
    }
  }

  lemma TradedAlike(w: Store, e: Envelope, user: Key, closure: seq<AccountMeta>, supplied: Reply, generated: Reply,
                    amountIn: u64, fee: u64, amountOut: u64)
    requires Validated(w, e, user) && Lent(w, e, [], supplied) && Vetted(w, closure) && Lent(w, e, closure, generated)
    requires CanSettle(w + supplied.writes, e, amountIn, fee, amountOut)
    requires CanSettle(w + generated.writes, e, amountIn, fee, amountOut)
    requires CanAccount(w, e, amountIn, fee, amountOut)
    ensures forall k :: k !in supplied.writes && k !in generated.writes ==>
              SameAt(Traded(w, supplied.writes, e, amountIn, fee, amountOut),
                     Traded(w, generated.writes, e, amountIn, fee, amountOut), k)
  {
    CachedBalances(w, e, user, [], supplied);
    CachedBalances(w, e, user, closure, generated);
    ReplyFrame(w, e, user, [], supplied);
    ReplyFrame(w, e, user, closure, generated);
    hide Validated, Lent, Vetted, CanSettle;
    var s, g := w + supplied.writes, w + generated.writes;
    assert SameAt(w, s, e.source.key) && SameAt(w, s, e.destination.key) && SameAt(w, s, e.vaultA.key);
    assert SameAt(w, s, e.vaultB.key) && SameAt(w, s, e.feeVault.key);
    assert SameAt(w, g, e.source.key) && SameAt(w, g, e.destination.key) && SameAt(w, g, e.vaultA.key);
    assert SameAt(w, g, e.vaultB.key) && SameAt(w, g, e.feeVault.key);
  }

  /** Where the order shows: short of funds, one executor says so itself and the other learns it late. */
  lemma BalanceIsCheckedLate(w: Store, e: Envelope, user: Key, args: Args, amountOut: u64, slot: u64, supplied: Reply,
                             closure: seq<AccountMeta>, generated: Reply)
    requires Validated(w, e, user) && Lent(w, e, [], supplied) && Vetted(w, closure) && Lent(w, e, closure, generated)
    requires EngineGenerated(w, e, user, args, slot, closure, generated) == Err(InsufficientUserSourceBalance)
    requires generated.verdict != Err(InsufficientUserSourceBalance) && supplied.verdict.Ok?
    ensures var late := CallerSupplied(w, e, user, args, amountOut, slot, supplied);
            && late.Err? && late.error != InsufficientUserSourceBalance
            && (amountOut > 0 && args.minOutputCredit <= amountOut <= DomainAt(w, e.domain.key).accountedB ==>
                  late.error == TokenProgramFailed(InsufficientFunds) || late.error == CoreError.ArithmeticOverflow)
  {
    hide Validated, Traded, Lent, CanSettle, CanAccount, Vetted, FeeOf;
    NothingLent(w);
    TradeFits(w, e, user, [], supplied, args.amountIn, FeeOrZero(args.amountIn), amountOut);
  }

  /** The store before the user authorized: the same, but for the source's delegate. */
  function Undelegated(w: Store, source: Key): Store
    requires IsToken(w, source)
  {
    w[source := TokenEntry(TokenAt(w, source).(delegate := None, delegatedAmount := 0))]
  }

  lemma UndelegatedKeepsInv(w: Store, source: Key)
    requires Inv(w) && IsToken(w, source) && TokenAt(w, source).delegate.Some?
    ensures Inv(Undelegated(w, source))
  {
    hide SupplyOk, MarketOk, TokenOk, Total;
    var v := Undelegated(w, source);
    assert Placed(source, w[source]);
    forall k | IsToken(v, k) ensures TokenOk(v, k) {
      assert TokenOk(w, k);
      UndelegatedToken(w, source, k);
    }
    forall mint | IsMint(v, mint) ensures SupplyOk(v, mint) {
      assert SupplyOk(w, mint);
      TotalUpdate(w, source, v[source], mint);
      SameSupply(w, v, mint);
    }
    forall m | IsMarket(v, m) ensures MarketOk(v, m) {
      assert MarketOk(w, m);
      UndelegatedMarket(w, source, m);
    }
  }

  lemma UndelegatedToken(w: Store, source: Key, k: Key)
    requires IsToken(w, source) && IsToken(w, k) && TokenOk(w, k)
    ensures TokenOk(Undelegated(w, source), k)
  {
  }

  lemma UndelegatedMarket(w: Store, source: Key, m: Key)
    requires IsToken(w, source) && TokenAt(w, source).delegate.Some? && IsMarket(w, m) && MarketOk(w, m)
    ensures IsMarket(Undelegated(w, source), m) && MarketOk(Undelegated(w, source), m)
  {
  }

  lemma BoundsHold(w: Store, ix: ExecuteIx, adm: Admission)
    requires Admitted(w, ix, adm)
    ensures ix.args.amountIn > 0 && adm.fee == FeeOf(ix.args.amountIn) && adm.total == ix.args.amountIn + adm.fee
    ensures IsToken(w, ix.e.source.key) && adm.total <= TokenAt(w, ix.e.source.key).amount
  {
  }

  lemma UndelegatedIsValidated(w: Store, ix: ExecuteIx, adm: Admission)
    requires Inv(w) && Admitted(w, ix, adm) && TokenAt(w, ix.e.source.key).closeAuthority == None
    requires TokenAt(w, ix.e.source.key).owner.Plain?
    ensures IsToken(w, ix.e.source.key)
    ensures Validated(Undelegated(w, ix.e.source.key), ix.e, TokenAt(w, ix.e.source.key).owner)
  {
    AdmittedShape(w, ix, adm);
    hide Inv, Admitted;
    SettlementRoles(w, ix, adm);
    UndelegatedKeepsInv(w, ix.e.source.key);
    UndelegatedConstrained(w, ix.e);
  }

  lemma UndelegatedConstrained(w: Store, e: Envelope)
    requires Constrained(w, e)
    ensures Constrained(Undelegated(w, e.source.key), e)
  {
  }

  lemma UndelegatedBooks(w: Store, ix: ExecuteIx, adm: Admission)
    requires Admitted(w, ix, adm)
    ensures var w0, e := Undelegated(w, ix.e.source.key), ix.e;
            && IsDomain(w0, e.domain.key) && DomainAt(w0, e.domain.key) == DomainAt(w, e.domain.key)
            && IsFeeLedger(w0, e.feeLedger.key) && FeeLedgerAt(w0, e.feeLedger.key) == FeeLedgerAt(w, e.feeLedger.key)
            && IsToken(w0, e.source.key) && TokenAt(w0, e.source.key).amount == TokenAt(w, e.source.key).amount
  {
    hide Admitted;
    SettlementRoles(w, ix, adm);
  }

  /** Settling from the undelegated source leaves what settling by delegate leaves. */
  lemma UndelegatedTrade(w: Store, ix: ExecuteIx, adm: Admission, amountOut: u64)
    requires Admitted(w, ix, adm)
    requires var w0 := Undelegated(w, ix.e.source.key);
             && CanSettle(w, ix.e, ix.args.amountIn, adm.fee, amountOut)
             && CanAccount(w, ix.e, ix.args.amountIn, adm.fee, amountOut)
             && CanSettle(w0, ix.e, ix.args.amountIn, adm.fee, amountOut)
             && CanAccount(w0, ix.e, ix.args.amountIn, adm.fee, amountOut)
    ensures Undelegated(w, ix.e.source.key) + Accepts(amountOut).writes == Undelegated(w, ix.e.source.key)
    ensures Traded(Undelegated(w, ix.e.source.key), Accepts(amountOut).writes, ix.e, ix.args.amountIn, adm.fee,
                   amountOut)
         == Predicted(w, ix, adm.fee, amountOut)
  {
    hide Admitted;
    SettlementRoles(w, ix, adm);
    UndelegatedBooks(w, ix, adm);
    var w0, e := Undelegated(w, ix.e.source.key), ix.e;
    assert Settled(w0, e, ix.args.amountIn, adm.fee, amountOut) == Settled(w, e, ix.args.amountIn, adm.fee, amountOut);
  }

  // ---- The routed executor against its predecessors ----

  /** An engine that writes nothing and accepts the output. */
  function Accepts(amountOut: u64): Reply {
    Reply(map[], Ok(amountOut))
  }

  lemma AcceptsLent(w: Store, e: Envelope, closure: seq<AccountMeta>, amountOut: u64)
    ensures Lent(w, e, closure, Accepts(amountOut)) && w + Accepts(amountOut).writes == w
    ensures Vetted(w, [])
  {
  }

  /** The engine-generated executor's verdict on the trade, from the source before it was delegated. */
  ghost function FromOwner(w: Store, ix: ExecuteIx, amountOut: u64, slot: u64): Result<Store, CoreError>
    requires IsToken(w, ix.e.source.key)
    requires Validated(Undelegated(w, ix.e.source.key), ix.e, TokenAt(w, ix.e.source.key).owner)
  {
    hide Validated, EngineGenerated;
    AcceptsLent(Undelegated(w, ix.e.source.key), ix.e, [], amountOut);
    EngineGenerated(Undelegated(w, ix.e.source.key), ix.e, TokenAt(w, ix.e.source.key).owner, ix.args, slot, [],
                    Accepts(amountOut))
  }

  /** The caller-supplied executor's verdict on the same. */
  ghost function FromCaller(w: Store, ix: ExecuteIx, amountOut: u64, slot: u64): Result<Store, CoreError>
    requires IsToken(w, ix.e.source.key)
    requires Validated(Undelegated(w, ix.e.source.key), ix.e, TokenAt(w, ix.e.source.key).owner)
  {
    hide Validated, CallerSupplied;
    AcceptsLent(Undelegated(w, ix.e.source.key), ix.e, [], amountOut);
    CallerSupplied(Undelegated(w, ix.e.source.key), ix.e, TokenAt(w, ix.e.source.key).owner, ix.args, amountOut,
                   slot, Accepts(amountOut))
  }

  lemma CallersAgree(w: Store, ix: ExecuteIx, amountOut: u64, slot: u64)
    requires IsToken(w, ix.e.source.key)
    requires Validated(Undelegated(w, ix.e.source.key), ix.e, TokenAt(w, ix.e.source.key).owner)
    ensures FromCaller(w, ix, amountOut, slot).Ok? <==> FromOwner(w, ix, amountOut, slot).Ok?
    ensures FromCaller(w, ix, amountOut, slot).Ok? ==>
              FromCaller(w, ix, amountOut, slot) == FromOwner(w, ix, amountOut, slot)
  {
    hide Validated, CallerSupplied, EngineGenerated, Vetted, Lent, Undelegated;
    var w0, user := Undelegated(w, ix.e.source.key), TokenAt(w, ix.e.source.key).owner;
    AcceptsLent(w0, ix.e, [], amountOut);
    PredecessorsAgree(w0, ix.e, user, ix.args, amountOut, slot, Accepts(amountOut), [], Accepts(amountOut));
  }

  /**
   * The routed executor refines its predecessors. Whenever a routed execution succeeds, under any
   * engine and in either timing, both predecessors would have accepted the same input, output and
   * bounds from the owner's undelegated source, and they leave the same store, up to what lay within
   * the engine's reach.
   */
  lemma RoutedRefinesPredecessors(w: Store, ix: ExecuteIx, slot: u64, primary: EngineOutcome, commit: EngineOutcome)
    requires Inv(w) && ExecuteSpec(w, ix, slot, primary, commit).Ok?
    requires IsToken(w, ix.e.source.key) && TokenAt(w, ix.e.source.key).owner.Plain?
    ensures var x := ExecuteSpec(w, ix, slot, primary, commit).value;
            && Validated(Undelegated(w, ix.e.source.key), ix.e, TokenAt(w, ix.e.source.key).owner)
            && FromOwner(w, ix, x.amountOut, slot).Ok?
            && FromCaller(w, ix, x.amountOut, slot) == FromOwner(w, ix, x.amountOut, slot)
            && Guarded(FromOwner(w, ix, x.amountOut, slot).value, x.store, ix.e, ix.closure)
  {
    hide Inv, Admit, ExecuteSpec, Admitted, CanSettle, CanAccount, Guarded, Predicted, Constrained, Validated, Traded,
         Undelegated, FeeOf, Vetted, Lent;
    ExecutionEffect(w, ix, slot, primary, commit);
    AdmissionFacts(w, ix, slot);
    var x, adm := ExecuteSpec(w, ix, slot, primary, commit).value, Admit(w, ix, slot).value;
    UndelegatedIsValidated(w, ix, adm);
    BoundsHold(w, ix, adm);
    UndelegatedBooks(w, ix, adm);
    var w0 := Undelegated(w, ix.e.source.key);
    AcceptsLent(w0, ix.e, [], x.amountOut);
    TradeFits(w0, ix.e, TokenAt(w, ix.e.source.key).owner, [], Accepts(x.amountOut), ix.args.amountIn, adm.fee,
              x.amountOut);
    UndelegatedTrade(w, ix, adm, x.amountOut);
    CallersAgree(w, ix, x.amountOut, slot);
  }

  /**
   * Everything about a routed execution that is not an economic guard: the named envelope's own checks,
   * the exact delegate, and an accepting engine that is in step and has a price.
   */
  ghost predicate InStep(w: Store, ix: ExecuteIx, helper: Option<Data>) {
    && Named(w, ix) && Accepting(w, ix.e)
    && |ix.args.opaquePayload| <= MAX_OPAQUE_PAYLOAD_LEN && EnvelopeVerdict(w, ix.e).Ok?
    && var opaques := OpaqueDescriptors(Loaded(w, ix.closure), EnvelopeKeys(ix.e));
    && opaques.Ok?
    && CapabilityHash(ix.e.engineProgram.key,
                      PhaseDescriptors(ix.e.engineState.key, ix.e.engineProgram.key, opaques.value, true))
       == ix.args.expectedCapabilityHash
    && var t := TokenAt(w, ix.e.source.key);
    && t.delegate == Some(ix.e.spendAuthority.key) && t.delegatedAmount == ix.args.amountIn + FeeOf(ix.args.amountIn)
    && t.closeAuthority == None && t.owner.Plain?
    && var s, d := PlanStateAt(w, ix.e.engineState.key), DomainAt(w, ix.e.domain.key);
    && s.market == ix.e.market.key && s.revision == MarketAt(w, ix.e.market.key).engineRevision
    && s.timingMode == ix.args.timingMode && s.sequence == ix.args.expectedEngineSequence < U64_MAX
    && FixedMath.QuoteExactIn(d.accountedA, d.accountedB, ix.args.amountIn, s.lpFeeBps).Ok?
    && HelperWrites(ClosureInfos(ix.e, opaques.value), ix.args.opaquePayload, helper).Ok?
  }

  /** The economic guards that routed admission shares with the engine-generated executor. */
  predicate EconomicGuards(w: Store, ix: ExecuteIx, slot: u64)
    requires Constrained(w, ix.e) && ix.args.amountIn > 0
  {
    && slot <= ix.args.expiresAtSlot
    && AmountVerdict(ix.args, TokenAt(w, ix.e.source.key).amount, DomainAt(w, ix.e.domain.key).accountedB).Ok?
  }

  lemma OpenExactly(w: Store, ix: ExecuteIx, slot: u64, helper: Option<Data>)
    requires InStep(w, ix, helper)
    ensures Constrained(w, ix.e) && ix.args.amountIn > 0
    ensures Open(w, ix, slot) <==> EconomicGuards(w, ix, slot)
  {
    NamedAndPriced(w, ix, helper);
    hide Named, EnvelopeVerdict, OpaqueDescriptors, Loaded, EnvelopeKeys, PhaseDescriptors, CapabilityHash, FeeOf,
         Constrained, HelperWrites, ClosureInfos, FixedMath.QuoteExactIn, Accepting;
  }

  /** What such an execution still has to pass is exactly its economic guards. */
  lemma OnlyEconomicsLeft(w: Store, ix: ExecuteIx, slot: u64, helper: Option<Data>)
    requires InStep(w, ix, helper)
    ensures Constrained(w, ix.e) && ix.args.amountIn > 0
    ensures Admit(w, ix, slot).Ok? <==> EconomicGuards(w, ix, slot)
    ensures Admit(w, ix, slot).Ok? ==>
              OpaqueDescriptors(Loaded(w, ix.closure), EnvelopeKeys(ix.e))
                   == Result.Ok(Admit(w, ix, slot).value.opaques)
  {
    NamedAndPriced(w, ix, helper);
    hide InStep, Named, Admit, Open, OpaqueDescriptors, Loaded, EnvelopeKeys, FeeOf, Constrained, EconomicGuards;
    OpenExactly(w, ix, slot, helper);
    AdmitsWhenOpen(w, ix, slot);
  }

  lemma HasPrice(w: Store, ix: ExecuteIx, helper: Option<Data>)
    requires InStep(w, ix, helper)
    ensures Constrained(w, ix.e) && IsPlanState(w, ix.e.engineState.key)
    ensures 0 < TradeOutput(w, ix) < DomainAt(w, ix.e.domain.key).accountedB
  {
    NamedAndPriced(w, ix, helper);
    hide Named, EnvelopeVerdict, OpaqueDescriptors, Loaded, EnvelopeKeys, PhaseDescriptors, CapabilityHash, FeeOf,
         Constrained, HelperWrites, ClosureInfos, FixedMath.QuoteExactIn;
    QuoteOutput(w, ix);
  }

  /** And of its trade, only the user's minimum. */
  lemma OnlyMinimumLeft(w: Store, ix: ExecuteIx, adm: Admission, helper: Option<Data>)
    requires InStep(w, ix, helper)
    requires OpaqueDescriptors(Loaded(w, ix.closure), EnvelopeKeys(ix.e)) == Result.Ok(adm.opaques)
    ensures Constrained(w, ix.e) && IsPlanState(w, ix.e.engineState.key)
    ensures TradeReady(w, ix, adm, helper) <==> ix.args.minOutputCredit <= TradeOutput(w, ix)
  {
    NamedAndPriced(w, ix, helper);
    hide Named, EnvelopeVerdict, OpaqueDescriptors, Loaded, EnvelopeKeys, PhaseDescriptors, CapabilityHash, FeeOf,
         Constrained, HelperWrites, ClosureInfos, FixedMath.QuoteExactIn;
  }

  lemma NamedAndPriced(w: Store, ix: ExecuteIx, helper: Option<Data>)
    requires InStep(w, ix, helper)
    ensures Constrained(w, ix.e) && Named(w, ix) && ix.args.amountIn > 0
  {
  }

  lemma GeneratedExactly(w: Store, e: Envelope, user: Key, args: Args, slot: u64, amountOut: u64)
    requires Validated(w, e, user) && Lent(w, e, [], Accepts(amountOut)) && Vetted(w, [])
    ensures IsToken(w, e.source.key) && IsDomain(w, e.domain.key)
    ensures EngineGenerated(w, e, user, args, slot, [], Accepts(amountOut)).Ok? <==>
              && args.amountIn > 0 && slot <= args.expiresAtSlot
              && AmountVerdict(args, TokenAt(w, e.source.key).amount, DomainAt(w, e.domain.key).accountedB).Ok?
              && OutputVerdict(amountOut, args.minOutputCredit, DomainAt(w, e.domain.key).accountedB).Ok?
  {
    hide Validated, Lent, Vetted, Traded, AmountVerdict, CanSettle, CanAccount, FeeOf;
    TradeFits(w, e, user, [], Accepts(amountOut), args.amountIn, FeeOrZero(args.amountIn), amountOut);
  }

  /** The engine-generated executor accepts a priced trade exactly on the same guards and the user's minimum. */
  lemma OwnerAcceptsExactly(w: Store, ix: ExecuteIx, slot: u64, helper: Option<Data>)
    requires Inv(w) && InStep(w, ix, helper)
    ensures Constrained(w, ix.e) && IsPlanState(w, ix.e.engineState.key) && ix.args.amountIn > 0
    ensures Validated(Undelegated(w, ix.e.source.key), ix.e, TokenAt(w, ix.e.source.key).owner)
    ensures FromOwner(w, ix, TradeOutput(w, ix), slot).Ok? <==>
              EconomicGuards(w, ix, slot) && ix.args.minOutputCredit <= TradeOutput(w, ix)
  {
    hide Inv, InStep, Named, Constrained, Validated, EngineGenerated, Undelegated, TradeOutput, Vetted, Lent,
         AmountVerdict, FeeOf;
    HasPrice(w, ix, helper);
    InStepValidated(w, ix, helper);
    OwnerBooks(w, ix, helper);
    NamedAndPriced(w, ix, helper);
    var w0 := Undelegated(w, ix.e.source.key);
    AcceptsLent(w0, ix.e, [], TradeOutput(w, ix));
    GeneratedExactly(w0, ix.e, TokenAt(w, ix.e.source.key).owner, ix.args, slot, TradeOutput(w, ix));
  }

  /**
   * Equivalent economic guards. With everything else in order and an accepting engine, the routed
   * executor accepts a trade if and only if the engine-generated one, and so the caller-supplied one,
   * accepts the same input, bounds and output from the owner's undelegated source; and then all three
   * leave the same balances and books, up to what lay within the engine's reach.
   */
  lemma GuardsEquivalent(w: Store, ix: ExecuteIx, slot: u64, primary: EngineOutcome, commit: EngineOutcome)
    requires Inv(w) && InStep(w, ix, EffectiveHelper(ix, primary, commit))
    ensures Constrained(w, ix.e) && IsPlanState(w, ix.e.engineState.key)
    ensures Validated(Undelegated(w, ix.e.source.key), ix.e, TokenAt(w, ix.e.source.key).owner)
    ensures var r, out := ExecuteSpec(w, ix, slot, primary, commit), TradeOutput(w, ix);
            && (r.Ok? <==> FromOwner(w, ix, out, slot).Ok?)
            && (r.Ok? <==> FromCaller(w, ix, out, slot).Ok?)
            && (r.Ok? ==>
                  && r.value.amountOut == out && FromCaller(w, ix, out, slot) == FromOwner(w, ix, out, slot)
                  && Guarded(FromOwner(w, ix, out, slot).value, r.value.store, ix.e, ix.closure))
  {
    var helper := EffectiveHelper(ix, primary, commit);
    OwnerAcceptsExactly(w, ix, slot, helper);
    OnlyEconomicsLeft(w, ix, slot, helper);
    InStepAccepting(w, ix, helper);
    hide Inv, InStep, Admit, Admitted, ExecuteSpec, Constrained, Validated, Undelegated, TradeReady, TradeOutput,
         Guarded, Tradable, TradeStore, Helped, EffectiveHelper, FromCaller, FromOwner, EconomicGuards, Accepting,
         OpaqueDescriptors, Loaded, EnvelopeKeys;
    ExecutesAdmitted(w, ix, slot, primary, commit);
    CallersAgree(w, ix, TradeOutput(w, ix), slot);
    if Admit(w, ix, slot).Ok? {
      OnlyMinimumLeft(w, ix, Admit(w, ix, slot).value, helper);
      TradeExactly(w, ix, slot, primary, commit);
    }
    if ExecuteSpec(w, ix, slot, primary, commit).Ok? {
      RoutedRefinesPredecessors(w, ix, slot, primary, commit);
    }
  }

  lemma InStepAccepting(w: Store, ix: ExecuteIx, helper: Option<Data>)
    requires InStep(w, ix, helper)
    ensures Accepting(w, ix.e) && IsToken(w, ix.e.source.key) && TokenAt(w, ix.e.source.key).owner.Plain?
  {
  }

  lemma InStepValidated(w: Store, ix: ExecuteIx, helper: Option<Data>)
    requires Inv(w) && InStep(w, ix, helper)
    ensures IsToken(w, ix.e.source.key)
    ensures Validated(Undelegated(w, ix.e.source.key), ix.e, TokenAt(w, ix.e.source.key).owner)
  {
    NamedAndPriced(w, ix, helper);
    InStepRoles(w, ix, helper);
    hide Inv, InStep, Constrained;
    UndelegatedKeepsInv(w, ix.e.source.key);
    UndelegatedConstrained(w, ix.e);
  }

  lemma InStepRoles(w: Store, ix: ExecuteIx, helper: Option<Data>)
    requires InStep(w, ix, helper)
    ensures ix.e.destination.key != ix.e.vaultB.key
    ensures var t := TokenAt(w, ix.e.source.key);
            t.delegate.Some? && t.closeAuthority == None && t.owner.Plain?
  {
    hide OpaqueDescriptors, PhaseDescriptors, HelperWrites, Named, FixedMath.QuoteExactIn;
    var keys := EnvelopeKeys(ix.e);
    assert keys[6] == ix.e.destination.key && keys[8] == ix.e.vaultB.key;
  }

  lemma OwnerBooks(w: Store, ix: ExecuteIx, helper: Option<Data>)
    requires InStep(w, ix, helper)
    ensures var w0, e := Undelegated(w, ix.e.source.key), ix.e;
            && IsDomain(w0, e.domain.key) && DomainAt(w0, e.domain.key) == DomainAt(w, e.domain.key)
            && IsToken(w0, e.source.key) && TokenAt(w0, e.source.key).amount == TokenAt(w, e.source.key).amount
  {
    NamedAndPriced(w, ix, helper);
    hide InStep;
  }

  // ---- Being in step is necessary too ----

  lemma AdmittedIsNamed(w: Store, ix: ExecuteIx, adm: Admission)
    requires Admitted(w, ix, adm)
    ensures Named(w, ix)
  {
    hide MarketOk, OpaqueDescriptors, Loaded, PhaseDescriptors, NoDuplicates, EnvelopeKeys, IntentDigest, FeeOf;
  }

  lemma OpenAndReady(w: Store, ix: ExecuteIx, slot: u64, adm: Admission, helper: Option<Data>)
    requires Named(w, ix) && Accepting(w, ix.e) && Constrained(w, ix.e) && ix.args.amountIn > 0
    requires Open(w, ix, slot) && TradeReady(w, ix, adm, helper) && TokenAt(w, ix.e.source.key).owner.Plain?
    requires OpaqueDescriptors(Loaded(w, ix.closure), EnvelopeKeys(ix.e)) == Result.Ok(adm.opaques)
    ensures InStep(w, ix, helper)
  {
    hide Named, EnvelopeVerdict, OpaqueDescriptors, Loaded, EnvelopeKeys, PhaseDescriptors, CapabilityHash, FeeOf,
         Constrained, HelperWrites, ClosureInfos, FixedMath.QuoteExactIn;
  }

  /** The engine-generated executor, called by the owner before delegating, would accept the quoted trade. */
  ghost predicate OwnerAccepts(w: Store, ix: ExecuteIx, slot: u64)
    requires IsToken(w, ix.e.source.key)
  {
    && Constrained(w, ix.e) && IsPlanState(w, ix.e.engineState.key)
    && Validated(Undelegated(w, ix.e.source.key), ix.e, TokenAt(w, ix.e.source.key).owner)
    && FromOwner(w, ix, TradeOutput(w, ix), slot).Ok?
  }

  /**
   * An execution with the accepting engine succeeds if and only if it is in step and the engine-generated
   * executor accepts the priced trade from the owner's undelegated source.
   */
  lemma SucceedsExactly(w: Store, ix: ExecuteIx, slot: u64, primary: EngineOutcome, commit: EngineOutcome)
    requires Inv(w) && Accepting(w, ix.e)
    requires IsToken(w, ix.e.source.key) && TokenAt(w, ix.e.source.key).owner.Plain?
    ensures ExecuteSpec(w, ix, slot, primary, commit).Ok? <==>
              InStep(w, ix, EffectiveHelper(ix, primary, commit)) && OwnerAccepts(w, ix, slot)
  {
    hide Inv, Admit, Admitted, ExecuteSpec, Constrained, InStep, Open, TradeReady, Accepting, Named, Validated,
         FromOwner, TradeOutput, EffectiveHelper, OpaqueDescriptors, Loaded, EnvelopeKeys, Undelegated, Guarded,
         FromCaller;
    var helper := EffectiveHelper(ix, primary, commit);
    if ExecuteSpec(w, ix, slot, primary, commit).Ok? {
      ExecutesAdmitted(w, ix, slot, primary, commit);
      var adm := Admit(w, ix, slot).value;
      AdmissionFacts(w, ix, slot);
      AdmittedIsNamed(w, ix, adm);
      AdmitsWhenOpen(w, ix, slot);
      TradeExactly(w, ix, slot, primary, commit);
      OpenAndReady(w, ix, slot, adm, helper);
    }
    if InStep(w, ix, helper) {
      GuardsEquivalent(w, ix, slot, primary, commit);
    }
  }
}
