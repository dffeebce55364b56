/** The discounting pricer of a forward rate agreement: future value under
    the three settlement conventions, present value, par rate, cash flows and
    point sensitivities, all closed-form in the forward rate and the discount
    factor of the payment date. */
module FraPricer {
  import opened Basics
  import opened Sensitivities
  import opened RatesProviders
  import opened RealArith
  import IborInterpolated

  /** How the settlement amount paid at the start of the period is discounted. */
  datatype FraDiscountingMethod = ISDA | NONE | AFMA

  /** How the floating rate of the period is observed: one Ibor index, or
      the interpolation of two. */
  datatype RateObservation =
    | IborRateObservation(index: Index, fixingDate: Date)
    | InterpolatedRateObservation(interpolated: IborInterpolated.IborInterpolatedRateObservation)

  /** A FRA with its schedule resolved. The notional is signed by the buy/sell direction. */
  datatype ExpandedFra = ExpandedFra(
    paymentDate: Date,
    startDate: Date,
    endDate: Date,
    yearFraction: real,
    fixedRate: real,
    floatingRate: RateObservation,
    currency: Currency,
    notional: real,
    discounting: FraDiscountingMethod)

  /** The rate observation function the pricer is given: the observed rate of
      an accrual period and its point sensitivity. */
  datatype RateObservationFn = RateObservationFn(
    rate: (RateObservation, Date, Date, ImmutableRatesProvider) -> real,
    rateSensitivity: (RateObservation, Date, Date, ImmutableRatesProvider) -> PointSensitivities)

  /** One projected payment: its date, its future value, the discount factor
      of its date and its present value. */
  datatype CashFlow = CashFlow(paymentDate: Date, futureValue: CurrencyAmount, discountFactor: real,
                               presentValue: CurrencyAmount)

  /** A FRA that pays before the valuation date has settled and is worth nothing. */
  predicate Settled(fra: ExpandedFra, prov: ImmutableRatesProvider) {
    fra.paymentDate < prov.valuationDate
  }

  /** The forward rate of the FRA's accrual period. */
  function ForwardRate(fra: ExpandedFra, obsFn: RateObservationFn, prov: ImmutableRatesProvider): real {
    obsFn.rate(fra.floatingRate, fra.startDate, fra.endDate, prov)
  }

  /** No denominator of the convention's unit amount is zero. */
  predicate AmountDefined(m: FraDiscountingMethod, yf: real, fixedRate: real, fwd: real) {
    match m
    case ISDA => 1.0 + yf * fwd != 0.0
    case NONE => true
    case AFMA => 1.0 + yf * fwd != 0.0 && 1.0 + yf * fixedRate != 0.0
  }

  /** No denominator of the convention's derivative is zero. */
  predicate DerivativeDefined(m: FraDiscountingMethod, yf: real, fwd: real) {
    m == NONE || 1.0 + yf * fwd != 0.0
  }

  /** The future value of a unit notional at forward rate `fwd`. */
  function UnitAmount(m: FraDiscountingMethod, yf: real, fixedRate: real, fwd: real): real
    requires AmountDefined(m, yf, fixedRate, fwd)
  {
    match m
    case ISDA => yf * (fwd - fixedRate) / (1.0 + yf * fwd)
    case NONE => yf * (fwd - fixedRate)
    case AFMA => -(1.0 / (1.0 + yf * fwd) - 1.0 / (1.0 + yf * fixedRate))
  }

  /** The derivative of the unit amount in the forward rate. */
  function UnitDerivative(m: FraDiscountingMethod, yf: real, fixedRate: real, fwd: real): real
    requires DerivativeDefined(m, yf, fwd)
  {
    match m
    case ISDA => yf * (1.0 + yf * fixedRate) / (1.0 + yf * fwd) / (1.0 + yf * fwd)
    case NONE => yf
    case AFMA => yf / (1.0 + yf * fwd) / (1.0 + yf * fwd)
  }

  /** The slope of the unit amount between forward rates `f` and `g`. */
  function UnitSlope(m: FraDiscountingMethod, yf: real, fixedRate: real, f: real, g: real): real
    requires DerivativeDefined(m, yf, f) && DerivativeDefined(m, yf, g)
  {
    match m
    case ISDA => yf * (1.0 + yf * fixedRate) / (1.0 + yf * f) / (1.0 + yf * g)
    case NONE => yf
    case AFMA => yf / (1.0 + yf * f) / (1.0 + yf * g)
  }

  /** The future value of the FRA at forward rate `fwd`: the notional times the unit amount. */
  function ValueAt(fra: ExpandedFra, fwd: real): real
    requires AmountDefined(fra.discounting, fra.yearFraction, fra.fixedRate, fwd)
  {
    fra.notional * UnitAmount(fra.discounting, fra.yearFraction, fra.fixedRate, fwd)
  }

  /** The derivative of the future value in the forward rate at `fwd`. */
  function ValueDerivative(fra: ExpandedFra, fwd: real): real
    requires DerivativeDefined(fra.discounting, fra.yearFraction, fwd)
  {
    fra.notional * UnitDerivative(fra.discounting, fra.yearFraction, fra.fixedRate, fwd)
  }

  /** The derivative of the present value in the forward rate at `fwd`, given the discount factor `df`. */
  function PresentValueDerivative(fra: ExpandedFra, fwd: real, df: real): real
    requires DerivativeDefined(fra.discounting, fra.yearFraction, fwd)
  {
    ValueDerivative(fra, fwd) * df
  }

  /** The rate sensitivity the observation function reports for the FRA's accrual period. */
  function RateSensitivity(fra: ExpandedFra, obsFn: RateObservationFn, prov: ImmutableRatesProvider): PointSensitivities {
    obsFn.rateSensitivity(fra.floatingRate, fra.startDate, fra.endDate, prov)
  }

  /** `futureValue`: zero once settled; otherwise the notional times the
      convention's unit amount at the forward rate. */
  function FutureValue(fra: ExpandedFra, obsFn: RateObservationFn, prov: ImmutableRatesProvider): (r: Result<CurrencyAmount>)
    ensures r.Success? ==> r.value.currency == fra.currency
    ensures Settled(fra, prov) ==> r == Success(Zero(fra.currency))
    ensures !Settled(fra, prov) ==>
      (r.Success? <==> AmountDefined(fra.discounting, fra.yearFraction, fra.fixedRate, ForwardRate(fra, obsFn, prov)))
    ensures !Settled(fra, prov) && r.Failure? ==> r.error == DivisionByZero
    ensures !Settled(fra, prov) && r.Success? ==> r.value.amount == ValueAt(fra, ForwardRate(fra, obsFn, prov))
  {
    if Settled(fra, prov) then Success(Zero(fra.currency))
    else
      var f := ForwardRate(fra, obsFn, prov);
      if !AmountDefined(fra.discounting, fra.yearFraction, fra.fixedRate, f) then Failure(DivisionByZero)
      else Success(CurrencyAmount(fra.currency, ValueAt(fra, f)))
  }

  /** `presentValue`: zero once settled, without reading any curve; otherwise
      the future value times the discount factor of the payment date. */
  function PresentValue(fra: ExpandedFra, obsFn: RateObservationFn, prov: ImmutableRatesProvider): (r: Result<CurrencyAmount>)
    ensures r.Success? ==> r.value.currency == fra.currency
    ensures Settled(fra, prov) ==> r == Success(Zero(fra.currency))
    ensures !Settled(fra, prov) ==>
      (r.Success? <==> FutureValue(fra, obsFn, prov).Success? && fra.currency in prov.discountCurves)
    ensures !Settled(fra, prov) && FutureValue(fra, obsFn, prov).Failure? ==> r == FutureValue(fra, obsFn, prov)
    ensures !Settled(fra, prov) && FutureValue(fra, obsFn, prov).Success? && fra.currency !in prov.discountCurves ==>
      r == Failure(MissingDiscountCurve(fra.currency))
    ensures !Settled(fra, prov) && r.Success? ==>
      r.value.amount == FutureValue(fra, obsFn, prov).value.amount
                        * DiscountFactor(prov, fra.currency, fra.paymentDate).value
  {
    if Settled(fra, prov) then Success(Zero(fra.currency))
    else
      match FutureValue(fra, obsFn, prov)
      case Failure(e) => Failure(e)
      case Success(fv) =>
        match DiscountFactor(prov, fra.currency, fra.paymentDate)
        case Failure(e) => Failure(e)
        case Success(df) => Success(CurrencyAmount(fra.currency, fv.amount * df))
  }

  /** `parRate`: the fixed rate that zeroes the value, the forward rate of the period. */
  function ParRate(fra: ExpandedFra, obsFn: RateObservationFn, prov: ImmutableRatesProvider): real {
    ForwardRate(fra, obsFn, prov)
  }

  /** `futureValueSensitivity`: none once settled; otherwise the rate
      sensitivity scaled by the derivative of the future value. */
  function FutureValueSensitivity(fra: ExpandedFra, obsFn: RateObservationFn, prov: ImmutableRatesProvider)
    : (r: Result<PointSensitivities>)
    ensures Settled(fra, prov) ==> r == Success([])
    ensures !Settled(fra, prov) ==>
      (r.Success? <==> DerivativeDefined(fra.discounting, fra.yearFraction, ForwardRate(fra, obsFn, prov)))
    ensures !Settled(fra, prov) && r.Success? ==>
      r.value == MultipliedBy(RateSensitivity(fra, obsFn, prov), ValueDerivative(fra, ForwardRate(fra, obsFn, prov)))
  {
    if Settled(fra, prov) then Success([])
    else
      var f := ForwardRate(fra, obsFn, prov);
      if !DerivativeDefined(fra.discounting, fra.yearFraction, f) then Failure(DivisionByZero)
      else Success(MultipliedBy(RateSensitivity(fra, obsFn, prov), ValueDerivative(fra, f)))
  }

  /** `presentValueSensitivity`: none once settled; otherwise the rate
      sensitivity scaled by the discounted derivative, followed by the
      zero-rate sensitivity of the payment date scaled by the future value. */
  function PresentValueSensitivity(fra: ExpandedFra, obsFn: RateObservationFn, prov: ImmutableRatesProvider)
    : (r: Result<PointSensitivities>)
    ensures Settled(fra, prov) ==> r == Success([])
    ensures !Settled(fra, prov) ==>
      (r.Success? <==> && AmountDefined(fra.discounting, fra.yearFraction, fra.fixedRate, ForwardRate(fra, obsFn, prov))
                       && DerivativeDefined(fra.discounting, fra.yearFraction, ForwardRate(fra, obsFn, prov))
                       && fra.currency in prov.discountCurves)
    ensures !Settled(fra, prov) && r.Success? ==>
      var f := ForwardRate(fra, obsFn, prov);
      var dfs := GetDiscountFactors(prov, fra.currency).value;
      r.value == CombinedWith(MultipliedBy(RateSensitivity(fra, obsFn, prov), PresentValueDerivative(fra, f, FactorAt(dfs, fra.paymentDate))),
                              MultipliedBy([ZeroRatePointSensitivity(dfs, fra.paymentDate)], ValueAt(fra, f)))
  {
    if Settled(fra, prov) then Success([])
    else
      var f := ForwardRate(fra, obsFn, prov);
      if !AmountDefined(fra.discounting, fra.yearFraction, fra.fixedRate, f)
         || !DerivativeDefined(fra.discounting, fra.yearFraction, f) then Failure(DivisionByZero)
      else
        var discounting := GetDiscountFactors(prov, fra.currency);
        if discounting.Failure? then Failure(discounting.error)
        else
          var dfs := discounting.value;
          var rateSens := MultipliedBy(RateSensitivity(fra, obsFn, prov), PresentValueDerivative(fra, f, FactorAt(dfs, fra.paymentDate)));
          var discSens := MultipliedBy([ZeroRatePointSensitivity(dfs, fra.paymentDate)], ValueAt(fra, f));
          Success(CombinedWith(rateSens, discSens))
  }

  /** `cashFlows`: the single payment of the FRA at its payment date, worth
      its future value, discounted by the currency's curve at that date. The
      curve is read even once the FRA has settled. */
  function CashFlows(fra: ExpandedFra, obsFn: RateObservationFn, prov: ImmutableRatesProvider): (r: Result<seq<CashFlow>>)
    ensures r.Success? <==> FutureValue(fra, obsFn, prov).Success? && fra.currency in prov.discountCurves
    ensures FutureValue(fra, obsFn, prov).Failure? ==> r == Failure(FutureValue(fra, obsFn, prov).error)
    ensures FutureValue(fra, obsFn, prov).Success? && fra.currency !in prov.discountCurves ==>
      r == Failure(MissingDiscountCurve(fra.currency))
    ensures r.Success? ==>
      && |r.value| == 1
      && r.value[0].paymentDate == fra.paymentDate
      && r.value[0].futureValue.currency == fra.currency
      && r.value[0].futureValue == FutureValue(fra, obsFn, prov).value
      && r.value[0].discountFactor == DiscountFactor(prov, fra.currency, fra.paymentDate).value
      && r.value[0].presentValue.currency == fra.currency
      && r.value[0].presentValue.amount == r.value[0].futureValue.amount * r.value[0].discountFactor
    ensures r.Success? && !Settled(fra, prov) ==> r.value[0].presentValue == PresentValue(fra, obsFn, prov).value
  {
    match FutureValue(fra, obsFn, prov)
    case Failure(e) => Failure(e)
    case Success(fv) =>
      match DiscountFactor(prov, fra.currency, fra.paymentDate)
      case Failure(e) => Failure(e)
      case Success(df) =>
        Success([CashFlow(fra.paymentDate, fv, df, CurrencyAmount(fra.currency, fv.amount * df))])
  }

  // ---------------------------------------------------------------------
  // Trade-level pricing

  /** A FRA product before expansion: the terms a trader agrees. */
  datatype Fra = Fra(
    buySell: BuySell,
    currency: Currency,
    notional: real,
    startDate: Date,
    endDate: Date,
    fixedRate: real,
    index: Index,
    indexInterpolated: Option<Index>,
    discounting: FraDiscountingMethod)

  /** A trade in a FRA. */
  datatype FraTrade = FraTrade(tradeInfo: TradeInfo, product: Fra)

  /** `Fra.expand()`: the schedule and day-count resolution, supplied from outside the model. */
  type FraExpansion = Fra -> ExpandedFra

  /** The trade pricer: the product pricer applied to the expanded product. */
  function TradeFutureValue(trade: FraTrade, expand: FraExpansion, obsFn: RateObservationFn,
                            prov: ImmutableRatesProvider): Result<CurrencyAmount> {
    FutureValue(expand(trade.product), obsFn, prov)
  }

  function TradePresentValue(trade: FraTrade, expand: FraExpansion, obsFn: RateObservationFn,
                             prov: ImmutableRatesProvider): Result<CurrencyAmount> {
    PresentValue(expand(trade.product), obsFn, prov)
  }

  function TradeFutureValueSensitivity(trade: FraTrade, expand: FraExpansion, obsFn: RateObservationFn,
                                       prov: ImmutableRatesProvider): Result<PointSensitivities> {
    FutureValueSensitivity(expand(trade.product), obsFn, prov)
  }

  function TradePresentValueSensitivity(trade: FraTrade, expand: FraExpansion, obsFn: RateObservationFn,
                                        prov: ImmutableRatesProvider): Result<PointSensitivities> {
    PresentValueSensitivity(expand(trade.product), obsFn, prov)
  }

  function TradeCashFlows(trade: FraTrade, expand: FraExpansion, obsFn: RateObservationFn,
                          prov: ImmutableRatesProvider): Result<seq<CashFlow>> {
    CashFlows(expand(trade.product), obsFn, prov)
  }

  // ---------------------------------------------------------------------
  // Properties

  /** The same FRA with another fixed rate. */
  function WithFixedRate(fra: ExpandedFra, fixedRate: real): (r: ExpandedFra)
    ensures r.fixedRate == fixedRate
    ensures r.(fixedRate := fra.fixedRate) == fra
  {
    fra.(fixedRate := fixedRate)
  }

  /** An observation function reporting the rate `g` for every period, with the sensitivities of `obsFn`. */
  function WithForwardRate(obsFn: RateObservationFn, g: real): (r: RateObservationFn)
    ensures forall o, s, e, p :: r.rate(o, s, e, p) == g
    ensures r.rateSensitivity == obsFn.rateSensitivity
  {
    RateObservationFn((o: RateObservation, s: Date, e: Date, p: ImmutableRatesProvider) => g, obsFn.rateSensitivity)
  }

  /** At a fixed rate equal to the forward rate, the unit amount is defined
      whenever `1 + yf * f` is not zero, and under ISDA and AFMA only then. */
  lemma AmountDefinedAtPar(m: FraDiscountingMethod, yf: real, f: real)
    ensures 1.0 + yf * f != 0.0 ==> AmountDefined(m, yf, f, f)
    ensures m != NONE ==> (AmountDefined(m, yf, f, f) <==> 1.0 + yf * f != 0.0)
  {
    match m {
      case ISDA =>
      case NONE =>
      case AFMA =>
    }
  }

  /** At a fixed rate equal to the forward rate, every convention's unit amount is zero. */
  lemma UnitAmountAtPar(m: FraDiscountingMethod, yf: real, f: real)
    requires AmountDefined(m, yf, f, f)
    ensures UnitAmount(m, yf, f, f) == 0.0
  {
    match m {
      case ISDA =>
        assert f - f == 0.0;
      case NONE =>
        assert f - f == 0.0;
      case AFMA =>
    }
  }

  /** Repricing with the fixed rate set to the par rate gives a future value
      and a present value of zero, under ISDA, NONE and AFMA alike; the
      future value is defined whenever `1 + yf * f` is not zero. */
  lemma ParRateZeroesValue(fra: ExpandedFra, obsFn: RateObservationFn, prov: ImmutableRatesProvider)
    ensures var par := WithFixedRate(fra, ParRate(fra, obsFn, prov));
      && ParRate(fra, obsFn, prov) == ForwardRate(fra, obsFn, prov)
      && (FutureValue(par, obsFn, prov).Success? ==> FutureValue(par, obsFn, prov).value.amount == 0.0)
      && (PresentValue(par, obsFn, prov).Success? ==> PresentValue(par, obsFn, prov).value.amount == 0.0)
      && (1.0 + fra.yearFraction * ForwardRate(fra, obsFn, prov) != 0.0 ==> FutureValue(par, obsFn, prov).Success?)
  {
    var par := WithFixedRate(fra, ParRate(fra, obsFn, prov));
    assert par.fixedRate == ForwardRate(fra, obsFn, prov);
    assert ForwardRate(par, obsFn, prov) == ForwardRate(fra, obsFn, prov);
    AmountDefinedAtPar(fra.discounting, fra.yearFraction, ForwardRate(fra, obsFn, prov));
    if !Settled(par, prov) {
      var m, yf, f := par.discounting, par.yearFraction, ForwardRate(par, obsFn, prov);
      assert FutureValue(par, obsFn, prov).Success? <==> AmountDefined(m, yf, f, f);
      if 1.0 + fra.yearFraction * ForwardRate(fra, obsFn, prov) != 0.0 {
        assert AmountDefined(fra.discounting, fra.yearFraction, ForwardRate(fra, obsFn, prov), ForwardRate(fra, obsFn, prov));
        assert m == fra.discounting && yf == fra.yearFraction && f == ForwardRate(fra, obsFn, prov);
        assert AmountDefined(m, yf, f, f);
        assert FutureValue(par, obsFn, prov).Success?;
      }
      if AmountDefined(m, yf, f, f) {
        UnitAmountAtPar(m, yf, f);
        assert ValueAt(par, f) == par.notional * 0.0;
      }
    }
  }

  /** The slope of the future value between forward rates `f` and `g`. */
  function ValueSlope(fra: ExpandedFra, f: real, g: real): real
    requires DerivativeDefined(fra.discounting, fra.yearFraction, f)
    requires DerivativeDefined(fra.discounting, fra.yearFraction, g)
  {
    fra.notional * UnitSlope(fra.discounting, fra.yearFraction, fra.fixedRate, f, g)
  }

  /** Under ISDA the unit amount moves by the slope times the move of the forward rate. */
  lemma IsdaSecant(yf: real, k: real, f: real, g: real)
    requires 1.0 + yf * f != 0.0 && 1.0 + yf * g != 0.0
    ensures UnitAmount(ISDA, yf, k, g) - UnitAmount(ISDA, yf, k, f) == UnitSlope(ISDA, yf, k, f, g) * (g - f)
  {
    var a, b := 1.0 + yf * f, 1.0 + yf * g;
    var x, y := yf * (g - k), yf * (f - k);
    var s, q := yf * (1.0 + yf * k), g - f;
    assert UnitAmount(ISDA, yf, k, g) == x / b;
    assert UnitAmount(ISDA, yf, k, f) == y / a;
    assert UnitSlope(ISDA, yf, k, f, g) == s / a / b;
    CrossNumerator(yf, k, f, g, x, y, a, b, s, q);
    QuotientSecant(x, y, a, b, s, q);
  }

  /** Under AFMA the unit amount moves by the slope times the move of the forward rate. */
  lemma AfmaSecant(yf: real, k: real, f: real, g: real)
    requires 1.0 + yf * f != 0.0 && 1.0 + yf * g != 0.0 && 1.0 + yf * k != 0.0
    ensures UnitAmount(AFMA, yf, k, g) - UnitAmount(AFMA, yf, k, f) == UnitSlope(AFMA, yf, k, f, g) * (g - f)
  {
    var a, b := 1.0 + yf * f, 1.0 + yf * g;
    var one, q := 1.0, g - f;
    assert UnitAmount(AFMA, yf, k, g) - UnitAmount(AFMA, yf, k, f) == one / a - one / b;
    assert UnitSlope(AFMA, yf, k, f, g) == yf / a / b;
    QuotientDifference(one, one, b, a);
    assert one * b - one * a == yf * q;
    QuotientFactor(yf, q, b, a);
    assert yf / b / a == yf / a / b;
  }

  /** The future value moves between two forward rates by the slope times the
      move, and the slope between a rate and itself is the derivative: the
      derivative is exact (Carathéodory's form of differentiability). */
  lemma ValueSecant(fra: ExpandedFra, f: real, g: real)
    requires AmountDefined(fra.discounting, fra.yearFraction, fra.fixedRate, f)
    requires AmountDefined(fra.discounting, fra.yearFraction, fra.fixedRate, g)
    ensures DerivativeDefined(fra.discounting, fra.yearFraction, f)
    ensures DerivativeDefined(fra.discounting, fra.yearFraction, g)
    ensures ValueAt(fra, g) - ValueAt(fra, f) == ValueSlope(fra, f, g) * (g - f)
    ensures ValueSlope(fra, f, f) == ValueDerivative(fra, f)
  {
    var m, yf, k, n := fra.discounting, fra.yearFraction, fra.fixedRate, fra.notional;
    var ug, uf, s := UnitAmount(m, yf, k, g), UnitAmount(m, yf, k, f), UnitSlope(m, yf, k, f, g);
    match m
    case NONE =>
      assert ug - uf == s * (g - f);
    case ISDA =>
      IsdaSecant(yf, k, f, g);
    case AFMA =>
      AfmaSecant(yf, k, f, g);
    assert n * ug - n * uf == (n * s) * (g - f);
  }

  /** A FRA that has settled is worth nothing and has no sensitivities,
      whatever the forward rate and the curves. */
  lemma SettledFraIsWorthless(fra: ExpandedFra, obsFn: RateObservationFn, prov: ImmutableRatesProvider)
    requires Settled(fra, prov)
    ensures FutureValue(fra, obsFn, prov) == Success(CurrencyAmount(fra.currency, 0.0))
    ensures PresentValue(fra, obsFn, prov) == Success(CurrencyAmount(fra.currency, 0.0))
    ensures FutureValueSensitivity(fra, obsFn, prov) == Success([])
    ensures PresentValueSensitivity(fra, obsFn, prov) == Success([])
    ensures CashFlows(fra, obsFn, prov).Success? <==> fra.currency in prov.discountCurves
    ensures CashFlows(fra, obsFn, prov).Success? ==>
      && CashFlows(fra, obsFn, prov).value[0].futureValue == CurrencyAmount(fra.currency, 0.0)
      && CashFlows(fra, obsFn, prov).value[0].presentValue.amount == 0.0
  {
  }

  /** The observation reports the unit sensitivity of the FRA's index at its fixing date. */
  predicate UnitRateSensitivity(fra: ExpandedFra, obsFn: RateObservationFn, prov: ImmutableRatesProvider) {
    && fra.floatingRate.IborRateObservation?
    && RateSensitivity(fra, obsFn, prov) == UnitIborSensitivity(fra.floatingRate.index, fra.floatingRate.fixingDate)
  }

  /** With a unit rate sensitivity, the future value sensitivity is one entry
      on the FRA's index at its fixing date, worth the derivative of the
      future value; between forward rates the future value moves by the
      slope times the move. */
  lemma FutureValueSensitivityIsDerivative(fra: ExpandedFra, obsFn: RateObservationFn, prov: ImmutableRatesProvider, g: real)
    requires !Settled(fra, prov) && UnitRateSensitivity(fra, obsFn, prov)
    requires AmountDefined(fra.discounting, fra.yearFraction, fra.fixedRate, ForwardRate(fra, obsFn, prov))
    requires AmountDefined(fra.discounting, fra.yearFraction, fra.fixedRate, g)
    ensures var f := ForwardRate(fra, obsFn, prov);
      && DerivativeDefined(fra.discounting, fra.yearFraction, f)
      && DerivativeDefined(fra.discounting, fra.yearFraction, g)
      && FutureValueSensitivity(fra, obsFn, prov) ==
           Success([IborRateSensitivity(fra.floatingRate.index, fra.floatingRate.fixingDate, ValueDerivative(fra, f))])
      && FutureValue(fra, WithForwardRate(obsFn, g), prov).value.amount - FutureValue(fra, obsFn, prov).value.amount
           == ValueSlope(fra, f, g) * (g - f)
      && ValueSlope(fra, f, f) == ValueDerivative(fra, f)
  {
    var f := ForwardRate(fra, obsFn, prov);
    ValueSecant(fra, f, g);
    ValueSecant(fra, f, f);
    var sens := FutureValueSensitivity(fra, obsFn, prov).value;
    assert |sens| == 1;
    assert sens[0] == IborRateSensitivity(fra.floatingRate.index, fra.floatingRate.fixingDate, ValueDerivative(fra, f) * 1.0);
    assert sens == [sens[0]];
    assert ForwardRate(fra, WithForwardRate(obsFn, g), prov) == g;
  }

  /** With a unit rate sensitivity and a known discount curve, the present
      value sensitivity is exactly two entries in this order: the rate entry,
      worth the derivative of the future value times the discount factor, on
      the index at its fixing date; then the zero-rate entry on the currency
      at the payment date, worth the future value times the curve's own
      zero-rate sensitivity `-t * df`. */
  lemma PresentValueSensitivityEntries(fra: ExpandedFra, obsFn: RateObservationFn, prov: ImmutableRatesProvider)
    requires !Settled(fra, prov) && UnitRateSensitivity(fra, obsFn, prov)
    requires fra.currency in prov.discountCurves
    requires AmountDefined(fra.discounting, fra.yearFraction, fra.fixedRate, ForwardRate(fra, obsFn, prov))
    ensures DerivativeDefined(fra.discounting, fra.yearFraction, ForwardRate(fra, obsFn, prov))
    ensures FutureValue(fra, obsFn, prov).Success? && DiscountFactor(prov, fra.currency, fra.paymentDate).Success?
    ensures PresentValueSensitivity(fra, obsFn, prov).Success?
    ensures |PresentValueSensitivity(fra, obsFn, prov).value| == 2
    ensures PresentValueSensitivity(fra, obsFn, prov).value[0] ==
      IborRateSensitivity(fra.floatingRate.index, fra.floatingRate.fixingDate,
        PresentValueDerivative(fra, ForwardRate(fra, obsFn, prov), DiscountFactor(prov, fra.currency, fra.paymentDate).value))
    ensures PresentValueSensitivity(fra, obsFn, prov).value[1] ==
      ZeroRateSensitivity(fra.currency, fra.paymentDate,
        FutureValue(fra, obsFn, prov).value.amount
        * (-RelativeTime(prov, fra.paymentDate) * DiscountFactor(prov, fra.currency, fra.paymentDate).value))
  {
    var f := ForwardRate(fra, obsFn, prov);
    ValueSecant(fra, f, f);
    DiscountFactorThroughView(prov, fra.currency, fra.paymentDate);
    var dfs := GetDiscountFactors(prov, fra.currency).value;
    var df, t := FactorAt(dfs, fra.paymentDate), DiscountTime(dfs, fra.paymentDate);
    var r := PresentValueSensitivity(fra, obsFn, prov).value;
    var fv := ValueAt(fra, f);
    assert FutureValue(fra, obsFn, prov).value.amount == fv;
    assert r[0] == IborRateSensitivity(fra.floatingRate.index, fra.floatingRate.fixingDate, PresentValueDerivative(fra, f, df) * 1.0);
    assert r[1] == ZeroRateSensitivity(fra.currency, fra.paymentDate, fv * (-t * df));
  }

  /** The present value moves between forward rates `f` and `g` by the slope
      of the future value times the discount factor times the move. */
  lemma PresentValueSecant(fra: ExpandedFra, obsFn: RateObservationFn, prov: ImmutableRatesProvider, g: real)
    requires !Settled(fra, prov) && fra.currency in prov.discountCurves
    requires AmountDefined(fra.discounting, fra.yearFraction, fra.fixedRate, ForwardRate(fra, obsFn, prov))
    requires AmountDefined(fra.discounting, fra.yearFraction, fra.fixedRate, g)
    ensures DerivativeDefined(fra.discounting, fra.yearFraction, ForwardRate(fra, obsFn, prov))
    ensures DerivativeDefined(fra.discounting, fra.yearFraction, g)
    ensures PresentValue(fra, obsFn, prov).Success? && PresentValue(fra, WithForwardRate(obsFn, g), prov).Success?
    ensures PresentValue(fra, WithForwardRate(obsFn, g), prov).value.amount - PresentValue(fra, obsFn, prov).value.amount
              == ValueSlope(fra, ForwardRate(fra, obsFn, prov), g)
                 * DiscountFactor(prov, fra.currency, fra.paymentDate).value
                 * (g - ForwardRate(fra, obsFn, prov))
  {
    var f := ForwardRate(fra, obsFn, prov);
    var df := DiscountFactor(prov, fra.currency, fra.paymentDate).value;
    ValueSecant(fra, f, g);
    assert ForwardRate(fra, WithForwardRate(obsFn, g), prov) == g;
    var vg, vf, s := ValueAt(fra, g), ValueAt(fra, f), ValueSlope(fra, f, g);
    assert vg * df - vf * df == (vg - vf) * df;
    assert (s * (g - f)) * df == s * df * (g - f);
  }

  /** The trade pricer agrees with the product pricer on the expanded product, measure by measure. */
  lemma TradePricerMatchesProductPricer(trade: FraTrade, expand: FraExpansion, obsFn: RateObservationFn,
                                        prov: ImmutableRatesProvider)
    ensures var fra := expand(trade.product);
      && TradeFutureValue(trade, expand, obsFn, prov) == FutureValue(fra, obsFn, prov)
      && TradePresentValue(trade, expand, obsFn, prov) == PresentValue(fra, obsFn, prov)
      && TradeFutureValueSensitivity(trade, expand, obsFn, prov) == FutureValueSensitivity(fra, obsFn, prov)
      && TradePresentValueSensitivity(trade, expand, obsFn, prov) == PresentValueSensitivity(fra, obsFn, prov)
      && TradeCashFlows(trade, expand, obsFn, prov) == CashFlows(fra, obsFn, prov)
  {
  }
}
