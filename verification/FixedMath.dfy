/** The integer pricing core: the rounded-up protocol fee and the two-floor constant-product quote. */
module FixedMath {
  import opened Base

  const BASIS_POINTS_DENOMINATOR: u128 := 10_000

  datatype MathError =
    | ZeroAmount
    | ZeroReserve
    | ZeroInput
    | InvalidLpFeeBps
    | EffectiveInputZero
    | OutputAmountZero
    | OutputReserveExceeded
    | ArithmeticOverflow
    | IntegerConversionFailed

  datatype CpmmQuote = CpmmQuote(effectiveInput: u64, lpFeeRetained: u64, amountOut: u64)

  function FeeCeil(amount: u64, feeBps: u16): Result<u64, MathError>
  {
    if amount == 0 then Err(ZeroAmount) else
    :- Need(feeBps > 0, ArithmeticOverflow);
    var product :- Mul128(amount, feeBps, ArithmeticOverflow);
    var numerator :- Add128(product, BASIS_POINTS_DENOMINATOR - 1, ArithmeticOverflow);
    var fee :- Div128(numerator, BASIS_POINTS_DENOMINATOR, ArithmeticOverflow);
    Narrow64(fee, IntegerConversionFailed)
  }

  function QuoteExactIn(reserveIn: u64, reserveOut: u64, grossInput: u64, lpFeeBps: u16): Result<CpmmQuote, MathError>
  {
    if reserveIn == 0 || reserveOut == 0 then Err(ZeroReserve) else
    :- Need(grossInput > 0, ZeroInput);
    var retainedBps :- Sub128(BASIS_POINTS_DENOMINATOR, lpFeeBps, InvalidLpFeeBps);
    :- Need(retainedBps > 0, InvalidLpFeeBps);
    var _ :- Add64(reserveIn, grossInput, ArithmeticOverflow);
    var retained :- Mul128(grossInput, retainedBps, ArithmeticOverflow);
    var effective128 :- Div128(retained, BASIS_POINTS_DENOMINATOR, ArithmeticOverflow);
    var effectiveInput :- Narrow64(effective128, IntegerConversionFailed);
    :- Need(effectiveInput > 0, EffectiveInputZero);
    var numerator :- Mul128(reserveOut, effectiveInput, ArithmeticOverflow);
    var denominator :- Add128(reserveIn, effectiveInput, ArithmeticOverflow);
    var out128 :- Div128(numerator, denominator, ArithmeticOverflow);
    var amountOut :- Narrow64(out128, IntegerConversionFailed);
    :- Need(amountOut > 0, OutputAmountZero);
    :- Need(amountOut < reserveOut, OutputReserveExceeded);
    var lpFeeRetained :- Sub64(grossInput, effectiveInput, ArithmeticOverflow);
    Ok(CpmmQuote(effectiveInput, lpFeeRetained, amountOut))
  }

  /** The first floor: the part of the input that prices the trade. */
  function Effective(grossInput: nat, lpFeeBps: nat): nat
    requires lpFeeBps < 10_000
  {
    grossInput * (10_000 - lpFeeBps) / 10_000
  }

  /** The second floor: the constant-product output. */
  function Output(reserveIn: nat, reserveOut: nat, effectiveInput: nat): nat
    requires reserveIn > 0
  {
    reserveOut * effectiveInput / (reserveIn + effectiveInput)
  }

  lemma EffectiveInputFits(grossInput: nat, lpFeeBps: nat)
    requires lpFeeBps < 10_000
    ensures Effective(grossInput, lpFeeBps) <= grossInput
  {
    MulMono(10_000 - lpFeeBps, 10_000, grossInput);
    DivBounds(grossInput * (10_000 - lpFeeBps), 10_000);
  }

  /** The wide model of the same quote: unbounded arithmetic with truncating casts. */
  function IndependentQuote(reserveIn: u64, reserveOut: u64, grossInput: u64, lpFeeBps: u16): Option<CpmmQuote> {
    if reserveIn == 0 || reserveOut == 0 || grossInput == 0 || lpFeeBps >= 10_000
       || reserveIn + grossInput > U64_MAX then None
    else
      var effectiveInput := Truncate64(Effective(grossInput, lpFeeBps));
      assert effectiveInput <= grossInput by { EffectiveInputFits(grossInput, lpFeeBps); }
      if effectiveInput == 0 then None else
      var amountOut := Truncate64(Output(reserveIn, reserveOut, effectiveInput));
      if amountOut == 0 || amountOut >= reserveOut then None
      else Some(CpmmQuote(effectiveInput, grossInput - effectiveInput, amountOut))
  }

  /** The pool never gives out its whole reserve. */
  lemma OutputBelowReserve(reserveIn: nat, reserveOut: nat, effectiveInput: nat)
    requires reserveIn > 0 && reserveOut > 0
    ensures Output(reserveIn, reserveOut, effectiveInput) < reserveOut
  {
    DivIsLargest(reserveOut * effectiveInput, reserveIn + effectiveInput, reserveOut);
    assert reserveOut * (reserveIn + effectiveInput) == reserveOut * reserveIn + reserveOut * effectiveInput;
    assert reserveOut * reserveIn > 0;
  }

  lemma ProductFits128(a: u64, b: u64)
    ensures a * b <= U128_MAX
  {
    MulMono(a, U64_MAX, b);
    MulMono(b, U64_MAX, U64_MAX);
  }

  /** The guards a quote passes before any of its arithmetic. */
  predicate Quotable(reserveIn: u64, reserveOut: u64, grossInput: u64, lpFeeBps: u16) {
    reserveIn > 0 && reserveOut > 0 && grossInput > 0 && lpFeeBps < 10_000 && reserveIn + grossInput <= U64_MAX
  }

  /** What a quotable trade comes to when each floor is positive, and which floor is to blame when one is not. */
  predicate ByFloors(reserveIn: u64, reserveOut: u64, grossInput: u64, lpFeeBps: u16, r: Result<CpmmQuote, MathError>)
    requires Quotable(reserveIn, reserveOut, grossInput, lpFeeBps)
  {
    var e := Effective(grossInput, lpFeeBps);
    && e <= grossInput
    && var out := Output(reserveIn, reserveOut, e);
    && out < reserveOut
    && r == if e == 0 then Err(EffectiveInputZero)
            else if out == 0 then Err(OutputAmountZero)
            else Ok(CpmmQuote(e, grossInput - e, out))
  }

  lemma QuoteGuarded(reserveIn: u64, reserveOut: u64, grossInput: u64, lpFeeBps: u16)
    requires !Quotable(reserveIn, reserveOut, grossInput, lpFeeBps)
    ensures QuoteExactIn(reserveIn, reserveOut, grossInput, lpFeeBps)
            == if reserveIn == 0 || reserveOut == 0 then Err(ZeroReserve)
               else if grossInput == 0 then Err(ZeroInput)
               else if lpFeeBps >= 10_000 then Err(InvalidLpFeeBps)
               else Err(ArithmeticOverflow)
    ensures IndependentQuote(reserveIn, reserveOut, grossInput, lpFeeBps) == None
  {
    hide Effective, Output;
  }

  lemma FloorsFit(reserveIn: u64, reserveOut: u64, grossInput: u64, lpFeeBps: u16)
    requires Quotable(reserveIn, reserveOut, grossInput, lpFeeBps)
    ensures Effective(grossInput, lpFeeBps) <= grossInput
    ensures Output(reserveIn, reserveOut, Effective(grossInput, lpFeeBps)) < reserveOut
  {
    hide Effective, Output;
    EffectiveInputFits(grossInput, lpFeeBps);
    OutputBelowReserve(reserveIn, reserveOut, Effective(grossInput, lpFeeBps));
  }

  /** The checked steps of the first floor never fail. */
  lemma FirstFloor(grossInput: u64, lpFeeBps: u16)
    requires lpFeeBps < 10_000
    ensures Sub128(BASIS_POINTS_DENOMINATOR, lpFeeBps, InvalidLpFeeBps) == Ok(10_000 - lpFeeBps)
    ensures var retained := Mul128(grossInput, 10_000 - lpFeeBps, ArithmeticOverflow);
            && retained.Ok?
            && Div128(retained.value, BASIS_POINTS_DENOMINATOR,
                      ArithmeticOverflow) == Ok(Effective(grossInput, lpFeeBps))
  {
    ProductFits128(grossInput, 10_000 - lpFeeBps);
  }

  /** Nor do those of the second. */
  lemma SecondFloor(reserveIn: u64, reserveOut: u64, effectiveInput: u64)
    requires reserveIn > 0
    ensures Add128(reserveIn, effectiveInput, ArithmeticOverflow) == Ok(reserveIn + effectiveInput)
    ensures var numerator := Mul128(reserveOut, effectiveInput, ArithmeticOverflow);
            && numerator.Ok?
            && Div128(numerator.value, reserveIn + effectiveInput, ArithmeticOverflow)
               == Ok(Output(reserveIn, reserveOut, effectiveInput))
  {
    ProductFits128(reserveOut, effectiveInput);
  }

  lemma QuoteByFloors(reserveIn: u64, reserveOut: u64, grossInput: u64, lpFeeBps: u16)
    requires Quotable(reserveIn, reserveOut, grossInput, lpFeeBps)
    ensures ByFloors(reserveIn, reserveOut, grossInput, lpFeeBps,
                     QuoteExactIn(reserveIn, reserveOut, grossInput, lpFeeBps))
  {
    hide Effective, Output, Sub128, Mul128, Add128, Div128;
    FloorsFit(reserveIn, reserveOut, grossInput, lpFeeBps);
    FirstFloor(grossInput, lpFeeBps);
    SecondFloor(reserveIn, reserveOut, Effective(grossInput, lpFeeBps));
  }

  lemma ModelByFloors(reserveIn: u64, reserveOut: u64, grossInput: u64, lpFeeBps: u16)
    requires Quotable(reserveIn, reserveOut, grossInput, lpFeeBps)
    ensures var e := Effective(grossInput, lpFeeBps);
            && e <= grossInput
            && var out := Output(reserveIn, reserveOut, e);
            && out < reserveOut
            && IndependentQuote(reserveIn, reserveOut, grossInput, lpFeeBps)
               == if e == 0 || out == 0 then None else Some(CpmmQuote(e, grossInput - e, out))
  {
    hide Effective, Output;
    FloorsFit(reserveIn, reserveOut, grossInput, lpFeeBps);
  }

  /**
   * The checked implementation and the wide reference model agree on every input, and every
   * rejection has exactly one cause: no conversion, width or reserve check ever fires.
   */
  lemma QuoteRefinesIndependentModel(reserveIn: u64, reserveOut: u64, grossInput: u64, lpFeeBps: u16)
    ensures QuoteExactIn(reserveIn, reserveOut, grossInput, lpFeeBps)
            == if reserveIn == 0 || reserveOut == 0 then Err(ZeroReserve)
               else if grossInput == 0 then Err(ZeroInput)
               else if lpFeeBps >= 10_000 then Err(InvalidLpFeeBps)
               else if reserveIn + grossInput > U64_MAX then Err(ArithmeticOverflow)
               else if Effective(grossInput, lpFeeBps) == 0 then Err(EffectiveInputZero)
               else match IndependentQuote(reserveIn, reserveOut, grossInput, lpFeeBps)
                 case None => Err(OutputAmountZero)
                 case Some(quote) => Ok(quote)
    ensures IndependentQuote(reserveIn, reserveOut, grossInput, lpFeeBps).Some?
            <==> QuoteExactIn(reserveIn, reserveOut, grossInput, lpFeeBps).Ok?
  {
    hide QuoteExactIn, IndependentQuote, Effective, Output;
    if Quotable(reserveIn, reserveOut, grossInput, lpFeeBps) {
      QuoteByFloors(reserveIn, reserveOut, grossInput, lpFeeBps);
      ModelByFloors(reserveIn, reserveOut, grossInput, lpFeeBps);
    } else {
      QuoteGuarded(reserveIn, reserveOut, grossInput, lpFeeBps);
    }
  }
}
