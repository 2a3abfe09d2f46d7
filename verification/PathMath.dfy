/** What the integer quote and fee guarantee beyond one call: monotonicity, and whole paths of trades. */
module PathMath {
  import opened Base
  import opened FixedMath

  /** The fee is the ceiling of the exact proportion, and fails only where that ceiling needs more than 64 bits. */
  lemma FeeIsCeiling(amount: u64, feeBps: u16)
    ensures var r := FeeCeil(amount, feeBps);
            if amount == 0 then r == Err(ZeroAmount)
            else if feeBps == 0 then r == Err(ArithmeticOverflow)
            else if amount * feeBps > U64_MAX * 10_000 then r == Err(IntegerConversionFailed)
            else r.Ok? && 1 <= r.value && (r.value - 1) * 10_000 < amount * feeBps <= r.value * 10_000
    ensures 0 < amount && 0 < feeBps <= 10_000 ==>
              FeeCeil(amount, feeBps).Ok? && FeeCeil(amount, feeBps).value <= amount
  {
    if amount > 0 && feeBps > 0 {
      ProductFits128(amount, feeBps);
      assert amount * feeBps > 0;
      MulMono(amount, U64_MAX, feeBps);
      MulMono(feeBps, 0x1_0000, U64_MAX);
      if feeBps <= 10_000 {
        MulMono(feeBps, 10_000, amount);
        MulMono(amount, U64_MAX, 10_000);
      }
    }
  }

  /** What a successful quote means, free of machine arithmetic. */
  lemma QuoteMeaning(reserveIn: u64, reserveOut: u64, grossInput: u64, lpFeeBps: u16)
    requires QuoteExactIn(reserveIn, reserveOut, grossInput, lpFeeBps).Ok?
    ensures reserveIn > 0 && reserveOut > 0 && grossInput > 0 && lpFeeBps < 10_000 && reserveIn + grossInput <= U64_MAX
    ensures var q := QuoteExactIn(reserveIn, reserveOut, grossInput, lpFeeBps).value;
            && q.effectiveInput == Effective(grossInput, lpFeeBps)
            && 0 < q.effectiveInput <= grossInput
            && q.lpFeeRetained == grossInput - q.effectiveInput
            && q.amountOut == Output(reserveIn, reserveOut, q.effectiveInput)
            && 0 < q.amountOut < reserveOut
  {
    QuoteRefinesIndependentModel(reserveIn, reserveOut, grossInput, lpFeeBps);
    hide QuoteExactIn;
    EffectiveInputFits(grossInput, lpFeeBps);
    OutputBelowReserve(reserveIn, reserveOut, Effective(grossInput, lpFeeBps));
  }

  /** The converse: the whole success condition of the quote. */
  lemma QuoteSucceeds(reserveIn: u64, reserveOut: u64, grossInput: u64, lpFeeBps: u16)
    requires reserveIn > 0 && reserveOut > 0 && lpFeeBps < 10_000 && reserveIn + grossInput <= U64_MAX
    requires Effective(grossInput, lpFeeBps) > 0
    requires Output(reserveIn, reserveOut, Effective(grossInput, lpFeeBps)) > 0
    ensures QuoteExactIn(reserveIn, reserveOut, grossInput, lpFeeBps).Ok?
  {
    QuoteRefinesIndependentModel(reserveIn, reserveOut, grossInput, lpFeeBps);
    hide QuoteExactIn;
    EffectiveInputFits(grossInput, lpFeeBps);
    OutputBelowReserve(reserveIn, reserveOut, Effective(grossInput, lpFeeBps));
  }

  lemma EffectiveMono(gross: nat, gross': nat, fee: nat, fee': nat)
    requires gross <= gross' && fee' <= fee < 10_000
    ensures Effective(gross, fee) <= Effective(gross', fee')
  {
    MulMono(gross, gross', 10_000 - fee);
    MulMono(10_000 - fee, 10_000 - fee', gross');
    DivBounds(gross * (10_000 - fee), 10_000);
    DivIsLargest(gross' * (10_000 - fee'), 10_000, Effective(gross, fee));
  }

  /** Output grows with the output reserve and the priced input, and falls with the input reserve. */
  lemma OutputMono(x: nat, y: nat, e: nat, x': nat, y': nat, e': nat)
    requires 0 < x' <= x && y <= y' && e <= e'
    ensures Output(x, y, e) <= Output(x', y', e')
  {
    var q := Output(x, y, e);
    DivBounds(y * e, x + e);
    OutputAtMost(x, y, e);
    // q * (x' + e') <= y' * e', because q <= y and q * (x + e) <= y * e.
    MulMono(x', x, q);
    MulMono(q, y, e' - e);
    assert q * (x' + e') == q * x' + q * e + q * (e' - e);
    assert q * (x + e) == q * x + q * e;
    assert y * e + y * (e' - e) == y * e';
    MulMono(y, y', e');
    DivIsLargest(y' * e', x' + e', q);
  }

  lemma OutputAtMost(x: nat, y: nat, e: nat)
    requires x > 0
    ensures Output(x, y, e) <= y
  {
    if y > 0 {
      OutputBelowReserve(x, y, e);
    } else {
      assert 0 * e == 0;
    }
  }

  /**
   * If a trade quotes, then a trade that is at least as favourable in every argument quotes too,
   * and pays at least as much.
   */
  lemma QuoteMonotone(x: u64, y: u64, gross: u64, fee: u16, x': u64, y': u64, gross': u64, fee': u16)
    requires QuoteExactIn(x, y, gross, fee).Ok?
    requires 0 < x' <= x && y <= y' && gross <= gross' && fee' <= fee
    ensures x' + gross' <= U64_MAX <==> QuoteExactIn(x', y', gross', fee').Ok?
    ensures QuoteExactIn(x', y', gross', fee').Ok? ==>
              QuoteExactIn(x, y, gross, fee).value.amountOut <= QuoteExactIn(x', y', gross', fee').value.amountOut
  {
    QuoteMeaning(x, y, gross, fee);
    EffectiveMono(gross, gross', fee, fee');
    OutputMono(x, y, Effective(gross, fee), x', y', Effective(gross', fee'));
    if x' + gross' <= U64_MAX {
      QuoteSucceeds(x', y', gross', fee');
    }
    if QuoteExactIn(x', y', gross', fee').Ok? {
      QuoteMeaning(x', y', gross', fee');
    }
  }

  /** The reserves after settling the gross input never have a smaller product. */
  lemma ProductNeverFalls(x: u64, y: u64, gross: u64, fee: u16)
    requires QuoteExactIn(x, y, gross, fee).Ok?
    ensures var out := QuoteExactIn(x, y, gross, fee).value.amountOut;
            out < y && x * y <= (x + gross) * (y - out)
  {
    QuoteMeaning(x, y, gross, fee);
    hide QuoteExactIn, Effective;
    var e := Effective(gross, fee);
    var out := Output(x, y, e);
    DivBounds(y * e, x + e);
    ProductStep(x, y, e, gross, out);
  }

  lemma ProductStep(x: nat, y: nat, e: nat, gross: nat, out: nat)
    requires e <= gross && out <= y && out * (x + e) <= y * e
    ensures x * y <= (x + gross) * (y - out)
  {
    MulMono(x + e, x + gross, y - out);
    calc {
      (x + e) * (y - out);
      (x + e) * y - (x + e) * out;
      x * y + e * y - out * (x + e);
    }
  }

  // ---- Paths: a list of exact-input trades, each settled into the reserves before the next ----

  function Sum(trades: seq<nat>): nat {
    if trades == [] then 0 else trades[0] + Sum(trades[1..])
  }

  /** What one trade pays, if it quotes. */
  function Pays(x: u64, y: u64, gross: u64, fee: u16): (out: Option<u64>)
    ensures out.Some? <==> QuoteExactIn(x, y, gross, fee).Ok?
    ensures out.Some? ==> out.value == QuoteExactIn(x, y, gross, fee).value.amountOut
    ensures out.Some? ==> out.value < y && x + gross <= U64_MAX
  {
    var q := QuoteExactIn(x, y, gross, fee);
    if q.Err? then None else
    QuoteMeaning(x, y, gross, fee);
    Some(q.value.amountOut)
  }

  /** Every trade of the path quotes at the reserves its predecessors leave. */
  predicate PathQuotes(x: u64, y: u64, trades: seq<u64>, fee: u16)
    decreases |trades|
  {
    trades == [] ||
    var out := Pays(x, y, trades[0], fee);
    out.Some? && PathQuotes(x + trades[0], y - out.value, trades[1..], fee)
  }

  function PathOutput(x: u64, y: u64, trades: seq<u64>, fee: u16): nat
    requires PathQuotes(x, y, trades, fee)
    decreases |trades|
  {
    if trades == [] then 0 else
    var out := Pays(x, y, trades[0], fee).value;
    out + PathOutput(x + trades[0], y - out, trades[1..], fee)
  }

  /** The one step of the splitting theorem: merging the first trade into the rest only helps. */
  lemma MergeTwo(x: nat, y: nat, e1: nat, gross1: nat, e2: nat, e: nat)
    requires x > 0 && e1 <= gross1 && e1 + e2 <= e
    requires Output(x, y, e1) <= y
    ensures Output(x, y, e1) + Output(x + gross1, y - Output(x, y, e1), e2) <= Output(x, y, e)
  {
    var o1 := Output(x, y, e1);
    var y1 := y - o1;
    OutputMono(x + gross1, y1, e2, x + e1, y1, e2);
    var o2 := Output(x + e1, y1, e2);
    DivBounds(y * e1, x + e1);
    DivBounds(y1 * e2, x + e1 + e2);
    assert (o1 + o2) * (x + (e1 + e2)) == o1 * (x + e1) + o1 * e2 + o2 * (x + e1 + e2);
    assert o1 * e2 + y1 * e2 == y * e2;
    assert y * e1 + y * e2 == y * (e1 + e2);
    DivIsLargest(y * (e1 + e2), x + (e1 + e2), o1 + o2);
    OutputMono(x, y, e1 + e2, x, y, e);
  }

  lemma EffectiveSuperadditive(a: nat, b: nat, fee: nat)
    requires fee < 10_000
    ensures Effective(a, fee) + Effective(b, fee) <= Effective(a + b, fee)
  {
    DivBounds(a * (10_000 - fee), 10_000);
    DivBounds(b * (10_000 - fee), 10_000);
    assert (a + b) * (10_000 - fee) == a * (10_000 - fee) + b * (10_000 - fee);
    DivIsLargest((a + b) * (10_000 - fee), 10_000, Effective(a, fee) + Effective(b, fee));
  }

  /**
   * Splitting never helps: whenever every trade of a path quotes, the single trade of the summed
   * input quotes as well and pays at least the path's total output.
   */
  lemma {:induction false} SplittingNeverHelps(x: u64, y: u64, trades: seq<u64>, fee: u16)
    requires trades != [] && PathQuotes(x, y, trades, fee)
    ensures x + Sum(trades) <= U64_MAX
    ensures QuoteExactIn(x, y, Sum(trades), fee).Ok?
    ensures PathOutput(x, y, trades, fee) <= QuoteExactIn(x, y, Sum(trades), fee).value.amountOut
    decreases |trades|
  {
    hide Pays, QuoteExactIn, Output, Effective;
    var first, rest := trades[0], trades[1..];
    QuoteMeaning(x, y, first, fee);
    var out := QuoteExactIn(x, y, first, fee).value.amountOut;
    if rest == [] {
      assert Sum(trades) == first;
    } else {
      SplittingNeverHelps(x + first, y - out, rest, fee);
      QuoteMeaning(x + first, y - out, Sum(rest), fee);
      EffectiveSuperadditive(first, Sum(rest), fee);
      MergeTwo(x, y, Effective(first, fee), first, Effective(Sum(rest), fee), Effective(first + Sum(rest), fee));
      QuoteSucceeds(x, y, first + Sum(rest), fee);
      QuoteMeaning(x, y, first + Sum(rest), fee);
    }
  }

  function PathFees(trades: seq<u64>, feeBps: u16): nat
    requires forall i :: 0 <= i < |trades| ==> FeeCeil(trades[i], feeBps).Ok?
  {
    if trades == [] then 0 else FeeCeil(trades[0], feeBps).value + PathFees(trades[1..], feeBps)
  }

  lemma {:induction false} PathFeesCover(trades: seq<u64>, feeBps: u16)
    requires forall i :: 0 <= i < |trades| ==> FeeCeil(trades[i], feeBps).Ok?
    ensures Sum(trades) * feeBps <= PathFees(trades, feeBps) * 10_000
  {
    hide FeeCeil;
    if trades != [] {
      FeeIsCeiling(trades[0], feeBps);
      PathFeesCover(trades[1..], feeBps);
      assert Sum(trades) * feeBps == trades[0] * feeBps + Sum(trades[1..]) * feeBps;
    }
  }

  /** Nor does splitting save protocol fees. */
  lemma SplittingNeverSavesFees(trades: seq<u64>, feeBps: u16)
    requires 0 < Sum(trades) <= U64_MAX && feeBps > 0
    requires forall i :: 0 <= i < |trades| ==> FeeCeil(trades[i], feeBps).Ok?
    ensures FeeCeil(Sum(trades), feeBps).Ok? ==> FeeCeil(Sum(trades), feeBps).value <= PathFees(trades, feeBps)
    ensures PathFees(trades, feeBps) <= U64_MAX ==> FeeCeil(Sum(trades), feeBps).Ok?
  {
    hide FeeCeil;
    PathFeesCover(trades, feeBps);
    FeeIsCeiling(Sum(trades), feeBps);
  }

  /** Along a path the product of the reserves never falls and both reserves stay positive. */
  lemma {:induction false} PathProductNeverFalls(x: u64, y: u64, trades: seq<u64>, fee: u16)
    requires PathQuotes(x, y, trades, fee)
    ensures trades != [] ==> x + Sum(trades) <= U64_MAX
    ensures x * y <= (x + Sum(trades)) * (y - PathOutput(x, y, trades, fee))
    ensures trades != [] ==> PathOutput(x, y, trades, fee) < y
    decreases |trades|
  {
    hide Pays, QuoteExactIn, Output, Effective;
    if trades != [] {
      QuoteMeaning(x, y, trades[0], fee);
      ProductNeverFalls(x, y, trades[0], fee);
      PathProductNeverFalls(x + trades[0], y - QuoteExactIn(x, y, trades[0], fee).value.amountOut, trades[1..], fee);
    }
  }
}
