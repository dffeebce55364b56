/** The immutable rates provider: a snapshot of the market at one valuation
    date, queried by currency, index and data type. It is built once and only
    read afterwards. */
module RatesProviders {
  import opened Basics
  import opened Sensitivities

  /** A yield curve, seen only through its discount factor at a relative time `t` (in years). */
  datatype Curve = Curve(name: string, discountFactor: real -> real)

  /** A historical fixing series: an ordered map from date to fixed rate. */
  type TimeSeries = map<Date, real>

  /** An ordered pair of currencies: one unit of `base` is worth `fxRate` units of `counter`. */
  datatype CurrencyPair = CurrencyPair(base: Currency, counter: Currency)

  /** A matrix of quoted FX rates, one entry per quoted ordered pair. */
  datatype FxMatrix = FxMatrix(rates: map<CurrencyPair, real>)

  /** A well-formed matrix: positive rates, no pair of a currency with itself,
      and a pair quoted both ways holds reciprocal rates. */
  ghost predicate FxMatrixValid(fx: FxMatrix) {
    forall p :: p in fx.rates ==>
      && fx.rates[p] > 0.0
      && p.base != p.counter
      && (CurrencyPair(p.counter, p.base) in fx.rates ==>
            fx.rates[CurrencyPair(p.counter, p.base)] * fx.rates[p] == 1.0)
  }

  /** `FxMatrix.of(base, counter, rate)`: a matrix quoting one pair. */
  function FxMatrixOf(base: Currency, counter: Currency, rate: real): (fx: FxMatrix)
    requires base != counter && rate > 0.0
    ensures FxMatrixValid(fx)
    ensures fx.rates.Keys == {CurrencyPair(base, counter)}
    ensures fx.rates[CurrencyPair(base, counter)] == rate
  {
    FxMatrix(map[CurrencyPair(base, counter) := rate])
  }

  /** The FX rate from `base` to `counter`: 1 for a currency with itself, the
      quoted rate, or the reciprocal of the opposite quote. */
  function MatrixFxRate(fx: FxMatrix, base: Currency, counter: Currency): (r: Result<real>)
    ensures base == counter ==> r == Success(1.0)
    ensures base != counter && CurrencyPair(base, counter) in fx.rates ==>
              r == Success(fx.rates[CurrencyPair(base, counter)])
    ensures base != counter && CurrencyPair(base, counter) !in fx.rates
              && CurrencyPair(counter, base) in fx.rates && fx.rates[CurrencyPair(counter, base)] != 0.0 ==>
              r == Success(1.0 / fx.rates[CurrencyPair(counter, base)])
    ensures r.Failure? <==>
              base != counter && CurrencyPair(base, counter) !in fx.rates
              && (CurrencyPair(counter, base) in fx.rates ==> fx.rates[CurrencyPair(counter, base)] == 0.0)
    ensures r.Failure? && CurrencyPair(counter, base) !in fx.rates ==> r.error == MissingFxRate(base, counter)
  {
    var quoted, opposite := CurrencyPair(base, counter), CurrencyPair(counter, base);
    if base == counter then Success(1.0)
    else if quoted in fx.rates then Success(fx.rates[quoted])
    else if opposite !in fx.rates then Failure(MissingFxRate(base, counter))
    else if fx.rates[opposite] == 0.0 then Failure(DivisionByZero)
    else Success(1.0 / fx.rates[opposite])
  }

  /** A typed side-data value: the name of its run-time class, the names of
      every class and interface that class extends or implements, and its content. */
  datatype DataValue = DataValue(runtimeType: string, supertypes: set<string>, content: string)

  /** `type.isInstance(value)`: the value's class is the type or one of its subtypes. */
  predicate IsInstanceOf(v: DataValue, t: string) {
    v.runtimeType == t || t in v.supertypes
  }

  /** The snapshot itself. */
  datatype ImmutableRatesProvider = ImmutableRatesProvider(
    valuationDate: Date,
    fxMatrix: FxMatrix,
    discountCurves: map<Currency, Curve>,
    indexCurves: map<Index, Curve>,
    timeSeries: map<Index, TimeSeries>,
    additionalData: map<string, DataValue>,
    dayCount: DayCount)

  /** What the builder collects before `build()`. */
  datatype ProviderBuilder = ProviderBuilder(
    valuationDate: Date,
    fxMatrix: FxMatrix,
    discountCurves: map<Currency, Curve>,
    indexCurves: map<Index, Curve>,
    timeSeries: map<Index, TimeSeries>,
    additionalData: map<string, DataValue>,
    dayCount: DayCount)

  /** A builder holding only a valuation date and a day count; every map empty. */
  function EmptyBuilder(valuationDate: Date, dayCount: DayCount): (b: ProviderBuilder)
    ensures b.valuationDate == valuationDate && b.dayCount == dayCount
    ensures b.fxMatrix.rates == map[] && b.discountCurves == map[] && b.indexCurves == map[]
    ensures b.timeSeries == map[] && b.additionalData == map[]
  {
    ProviderBuilder(valuationDate, FxMatrix(map[]), map[], map[], map[], map[], dayCount)
  }

  /** Every side-data value is an instance of the type it is keyed by. */
  predicate AdditionalDataValid(data: map<string, DataValue>) {
    forall t :: t in data ==> IsInstanceOf(data[t], t)
  }

  /** `build()`: rejects side data keyed by a type its value is not an
      instance of, otherwise keeps every field exactly as given. */
  function Build(b: ProviderBuilder): (r: Result<ImmutableRatesProvider>)
    ensures r.Success? <==> AdditionalDataValid(b.additionalData)
    ensures r.Failure? ==> r.error == InvalidAdditionalData
    ensures r.Success? ==>
      && r.value.valuationDate == b.valuationDate
      && r.value.fxMatrix == b.fxMatrix
      && r.value.discountCurves == b.discountCurves
      && r.value.indexCurves == b.indexCurves
      && r.value.timeSeries == b.timeSeries
      && r.value.additionalData == b.additionalData
      && r.value.dayCount == b.dayCount
  {
    if AdditionalDataValid(b.additionalData) then
      Success(ImmutableRatesProvider(b.valuationDate, b.fxMatrix, b.discountCurves, b.indexCurves,
                                     b.timeSeries, b.additionalData, b.dayCount))
    else Failure(InvalidAdditionalData)
  }

  /** `data(type)`: the side-data value stored for a type, which is an
      instance of that type; a type with nothing stored fails. */
  function Data(p: ImmutableRatesProvider, dataType: string): (r: Result<DataValue>)
    ensures r.Success? <==> dataType in p.additionalData
    ensures r.Success? ==> r.value == p.additionalData[dataType]
    ensures r.Failure? ==> r.error == MissingAdditionalData(dataType)
    ensures r.Success? && AdditionalDataValid(p.additionalData) ==> IsInstanceOf(r.value, dataType)
  {
    if dataType in p.additionalData then Success(p.additionalData[dataType])
    else Failure(MissingAdditionalData(dataType))
  }

  /** Signed time, in years of `dayCount`, from `valuationDate` to `date`:
      negative for a date before the valuation date. */
  function RelativeYearFraction(dayCount: DayCount, valuationDate: Date, date: Date): real {
    if date < valuationDate then -dayCount.yearFraction(date, valuationDate)
    else dayCount.yearFraction(valuationDate, date)
  }

  /** `relativeTime(date)`: the signed time from the provider's valuation date. */
  function RelativeTime(p: ImmutableRatesProvider, date: Date): real {
    RelativeYearFraction(p.dayCount, p.valuationDate, date)
  }

  /** The discount factors of one currency: its curve read at relative times. */
  datatype DiscountFactors = ZeroRateDiscountFactors(
    currency: Currency, valuationDate: Date, dayCount: DayCount, curve: Curve)

  /** Time in years from the discount factors' valuation date to `date`. */
  function DiscountTime(dfs: DiscountFactors, date: Date): real {
    RelativeYearFraction(dfs.dayCount, dfs.valuationDate, date)
  }

  /** The discount factor at `date`. */
  function FactorAt(dfs: DiscountFactors, date: Date): real {
    dfs.curve.discountFactor(DiscountTime(dfs, date))
  }

  /** The sensitivity of the discount factor at `date` to the zero rate `z` of
      the curve, for `df = exp(-z t)`: `d df / d z = -t df`. */
  function ZeroRatePointSensitivity(dfs: DiscountFactors, date: Date): (r: PointSensitivity)
    ensures r.ZeroRateSensitivity? && r.currency == dfs.currency && r.date == date
    ensures DiscountTime(dfs, date) == 0.0 ==> r.sensitivity == 0.0
    ensures FactorAt(dfs, date) > 0.0 && DiscountTime(dfs, date) > 0.0 ==> r.sensitivity < 0.0
  {
    ZeroRateSensitivity(dfs.currency, date, -DiscountTime(dfs, date) * FactorAt(dfs, date))
  }

  /** `discountFactors(currency)`: the view of a known currency's curve; an unknown currency fails. */
  function GetDiscountFactors(p: ImmutableRatesProvider, currency: Currency): (r: Result<DiscountFactors>)
    ensures r.Success? <==> currency in p.discountCurves
    ensures r.Failure? ==> r.error == MissingDiscountCurve(currency)
    ensures r.Success? ==>
      && r.value.currency == currency
      && r.value.curve == p.discountCurves[currency]
      && r.value.valuationDate == p.valuationDate
      && r.value.dayCount == p.dayCount
  {
    if currency in p.discountCurves then
      Success(ZeroRateDiscountFactors(currency, p.valuationDate, p.dayCount, p.discountCurves[currency]))
    else Failure(MissingDiscountCurve(currency))
  }

  /** `discountFactor(currency, date)`: the currency's curve read at the
      relative time of `date`; an unknown currency fails. */
  function DiscountFactor(p: ImmutableRatesProvider, currency: Currency, date: Date): (r: Result<real>)
    ensures r.Success? <==> currency in p.discountCurves
    ensures r.Failure? ==> r.error == MissingDiscountCurve(currency)
    ensures r.Success? ==> r.value == p.discountCurves[currency].discountFactor(RelativeTime(p, date))
  {
    match GetDiscountFactors(p, currency)
    case Success(dfs) => Success(FactorAt(dfs, date))
    case Failure(e) => Failure(e)
  }

  /** `fxRate(base, counter)`, read from the provider's FX matrix. */
  function FxRate(p: ImmutableRatesProvider, base: Currency, counter: Currency): Result<real> {
    MatrixFxRate(p.fxMatrix, base, counter)
  }

  /** `fxRate(pair)`: the same rate as the two-currency form. */
  function FxRateOfPair(p: ImmutableRatesProvider, pair: CurrencyPair): (r: Result<real>)
    ensures r == FxRate(p, pair.base, pair.counter)
  {
    FxRate(p, pair.base, pair.counter)
  }

  /** The stored fixings of an index, or none when nothing is stored. */
  function TimeSeriesOf(p: ImmutableRatesProvider, index: Index): (ts: TimeSeries)
    ensures index in p.timeSeries ==> ts == p.timeSeries[index]
    ensures index !in p.timeSeries ==> ts == map[]
  {
    if index in p.timeSeries then p.timeSeries[index] else map[]
  }

  /** The view of one index returned by the index-rate lookups. */
  datatype IndexRates =
    | IborIndexRates(index: Index, valuationDate: Date, timeSeries: TimeSeries, curve: Curve)
    | OvernightIndexRates(index: Index, valuationDate: Date, timeSeries: TimeSeries, curve: Curve)
    | FxIndexRates(index: Index, valuationDate: Date, timeSeries: TimeSeries, fxMatrix: FxMatrix,
                   baseDiscountFactors: DiscountFactors, counterDiscountFactors: DiscountFactors)

  /** `iborIndexRates(index)`: the index with its fixings and forward curve; no curve fails. */
  function GetIborIndexRates(p: ImmutableRatesProvider, index: Index): (r: Result<IndexRates>)
    ensures r.Success? <==> index in p.indexCurves
    ensures r.Failure? ==> r.error == MissingIndexCurve(index)
    ensures r.Success? ==>
      r.value.IborIndexRates? && r.value.index == index && r.value.curve == p.indexCurves[index]
    ensures r.Success? && index in p.timeSeries ==> r.value.timeSeries == p.timeSeries[index]
  {
    if index in p.indexCurves then
      Success(IborIndexRates(index, p.valuationDate, TimeSeriesOf(p, index), p.indexCurves[index]))
    else Failure(MissingIndexCurve(index))
  }

  /** `overnightIndexRates(index)`: as for an Ibor index. */
  function GetOvernightIndexRates(p: ImmutableRatesProvider, index: Index): (r: Result<IndexRates>)
    ensures r.Success? <==> index in p.indexCurves
    ensures r.Failure? ==> r.error == MissingIndexCurve(index)
    ensures r.Success? ==>
      r.value.OvernightIndexRates? && r.value.index == index && r.value.curve == p.indexCurves[index]
    ensures r.Success? && index in p.timeSeries ==> r.value.timeSeries == p.timeSeries[index]
  {
    if index in p.indexCurves then
      Success(OvernightIndexRates(index, p.valuationDate, TimeSeriesOf(p, index), p.indexCurves[index]))
    else Failure(MissingIndexCurve(index))
  }

  /** `fxIndexRates(index)`: the index with its fixings, the provider's FX
      matrix and the discount factors of both currencies of its pair; a
      missing curve for either currency fails, the base currency checked first. */
  function GetFxIndexRates(p: ImmutableRatesProvider, index: Index): (r: Result<IndexRates>)
    requires index.FxIndex?
    ensures r.Success? <==> index.base in p.discountCurves && index.counter in p.discountCurves
    ensures index.base !in p.discountCurves ==> r == Failure(MissingDiscountCurve(index.base))
    ensures index.base in p.discountCurves && index.counter !in p.discountCurves ==>
      r == Failure(MissingDiscountCurve(index.counter))
    ensures r.Success? ==>
      && r.value.FxIndexRates? && r.value.index == index && r.value.fxMatrix == p.fxMatrix
      && r.value.valuationDate == p.valuationDate
      && r.value.baseDiscountFactors == GetDiscountFactors(p, index.base).value
      && r.value.counterDiscountFactors == GetDiscountFactors(p, index.counter).value
    ensures r.Success? && index in p.timeSeries ==> r.value.timeSeries == p.timeSeries[index]
  {
    match GetDiscountFactors(p, index.base)
    case Failure(e) => Failure(e)
    case Success(baseDfs) =>
      match GetDiscountFactors(p, index.counter)
      case Failure(e) => Failure(e)
      case Success(counterDfs) =>
        Success(FxIndexRates(index, p.valuationDate, TimeSeriesOf(p, index), p.fxMatrix, baseDfs, counterDfs))
  }

  // ---------------------------------------------------------------------
  // Properties of the snapshot

  /** Building keeps the valuation date, time series and day count, and a
      builder with side data of the wrong type is rejected. */
  lemma BuildKeepsFields(b: ProviderBuilder)
    requires AdditionalDataValid(b.additionalData)
    ensures Build(b).Success?
    ensures var p := Build(b).value;
      p.valuationDate == b.valuationDate && p.timeSeries == b.timeSeries && p.dayCount == b.dayCount
  {
  }

  /** A built provider answers `data(type)` for a stored type with a value of
      that type, and fails for every type with nothing stored. */
  lemma {:induction false} BuiltDataIsTyped(b: ProviderBuilder, dataType: string)
    requires Build(b).Success?
    ensures Data(Build(b).value, dataType).Success? ==> IsInstanceOf(Data(Build(b).value, dataType).value, dataType)
    ensures dataType !in b.additionalData ==> Data(Build(b).value, dataType).Failure?
  {
  }

  /** Side data may be keyed by any type its value is an instance of: adding
      a value under its own class or under one of its supertypes keeps a
      valid builder valid, and adding it under a type it is not an instance
      of makes the builder fail. */
  lemma AddingDataChecksInstance(b: ProviderBuilder, t: string, v: DataValue)
    requires AdditionalDataValid(b.additionalData)
    ensures var added := b.(additionalData := b.additionalData[t := v]);
      Build(added).Success? <==> IsInstanceOf(v, t)
  {
    var data := b.additionalData[t := v];
    if !IsInstanceOf(v, t) {
      assert t in data && !IsInstanceOf(data[t], t);
    }
  }

  /** `fxRate(c, c) = 1` and `fxRate(b, a) = 1 / fxRate(a, b)` on a well-formed
      matrix, whichever way the pair is quoted; both directions fail together. */
  lemma FxRateInverse(p: ImmutableRatesProvider, a: Currency, b: Currency)
    requires FxMatrixValid(p.fxMatrix)
    ensures FxRate(p, a, a) == Success(1.0)
    ensures FxRate(p, a, b).Success? <==> FxRate(p, b, a).Success?
    ensures FxRate(p, a, b).Success? ==>
      FxRate(p, a, b).value > 0.0 && FxRate(p, b, a).value == 1.0 / FxRate(p, a, b).value
  {
    var fx := p.fxMatrix;
    var ab, ba := CurrencyPair(a, b), CurrencyPair(b, a);
    if a != b {
      if ab in fx.rates {
        assert fx.rates[ab] > 0.0;
        if ba in fx.rates {
          assert fx.rates[ba] * fx.rates[ab] == 1.0;
        }
      } else if ba in fx.rates {
        assert fx.rates[ba] > 0.0;
      }
    }
  }

  /** The sign of the relative time follows the side of the valuation date
      the date is on, for any day count whose year fractions of ordered dates
      are non-negative and zero on the same day. */
  lemma RelativeTimeSign(p: ImmutableRatesProvider, date: Date)
    requires forall d1: Date, d2: Date :: d1 <= d2 ==> p.dayCount.yearFraction(d1, d2) >= 0.0
    requires forall d: Date :: p.dayCount.yearFraction(d, d) == 0.0
    ensures date > p.valuationDate ==> RelativeTime(p, date) >= 0.0
    ensures date < p.valuationDate ==> RelativeTime(p, date) <= 0.0
    ensures date == p.valuationDate ==> RelativeTime(p, date) == 0.0
  {
    if date < p.valuationDate {
      assert p.dayCount.yearFraction(date, p.valuationDate) >= 0.0;
    } else {
      assert p.dayCount.yearFraction(p.valuationDate, date) >= 0.0;
    }
  }

  /** `relativeTime(d)` is `yearFraction(valuation, d)` on or after the
      valuation date and `-yearFraction(d, valuation)` before it. */
  lemma RelativeTimeCases(p: ImmutableRatesProvider, date: Date)
    ensures date >= p.valuationDate ==> RelativeTime(p, date) == p.dayCount.yearFraction(p.valuationDate, date)
    ensures date < p.valuationDate ==> RelativeTime(p, date) == -p.dayCount.yearFraction(date, p.valuationDate)
  {
  }

  /** The discount factor read through the currency's view agrees with the provider's own lookup. */
  lemma DiscountFactorThroughView(p: ImmutableRatesProvider, currency: Currency, date: Date)
    requires currency in p.discountCurves
    ensures GetDiscountFactors(p, currency).Success?
    ensures DiscountFactor(p, currency, date) == Success(FactorAt(GetDiscountFactors(p, currency).value, date))
    ensures DiscountTime(GetDiscountFactors(p, currency).value, date) == RelativeTime(p, date)
  {
  }
}
