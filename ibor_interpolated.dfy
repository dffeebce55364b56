/** The interpolated Ibor rate observation: the rate of a period whose length
    lies between two index tenors, blended from a short and a long index by
    day-count weights, and its sensitivity to the two index rates. */
module IborInterpolated {
  import opened Basics
  import opened Sensitivities
  import opened RealArith

  /** Two Ibor indices of different tenor, both fixed on `fixingDate`. */
  datatype IborInterpolatedRateObservation =
    IborInterpolatedRateObservation(shortIndex: Index, longIndex: Index, fixingDate: Date)

  /** The date rules of Ibor indices, supplied from outside the model:
      `calculateEffectiveFromFixing` and `calculateMaturityFromEffective`. */
  datatype IndexDateRules = IndexDateRules(
    effectiveFromFixing: (Index, Date) -> Date,
    maturityFromEffective: (Index, Date) -> Date)

  /** What the rates provider reports for an index at a fixing date: the rate
      and the sensitivity of that rate (`IborIndexRates.rate` and `pointSensitivity`). */
  datatype IndexRateSource = IndexRateSource(
    rate: (Index, Date) -> real,
    pointSensitivity: (Index, Date) -> PointSensitivities)

  /** Day counts from the fixing date to the two index maturities and to the accrual end. */
  datatype InterpolationDays = InterpolationDays(daysShort: int, daysLong: int, daysCoupon: int)

  /** The linear interpolation weights of the short and the long index. */
  datatype Weights = Weights(short: real, long: real)

  /** Both maturities are measured from the short index's effective date,
      all three day counts from the fixing date. */
  function DaysOf(obs: IborInterpolatedRateObservation, accrualEndDate: Date, rules: IndexDateRules): InterpolationDays {
    var fixingStartDate := rules.effectiveFromFixing(obs.shortIndex, obs.fixingDate);
    var fixingEndShort := rules.maturityFromEffective(obs.shortIndex, fixingStartDate);
    var fixingEndLong := rules.maturityFromEffective(obs.longIndex, fixingStartDate);
    InterpolationDays(fixingEndShort - obs.fixingDate, fixingEndLong - obs.fixingDate, accrualEndDate - obs.fixingDate)
  }

  /** `w_short = (days_long - days_cpn) / (days_long - days_short)` and
      `w_long = (days_cpn - days_short) / (days_long - days_short)`; two equal
      maturities leave the weights undefined. */
  function WeightsOf(d: InterpolationDays): (r: Result<Weights>)
    ensures r.Failure? <==> d.daysLong == d.daysShort
    ensures r.Failure? ==> r.error == DivisionByZero
    ensures r.Success? ==>
      && r.value.short * (d.daysLong - d.daysShort) as real == (d.daysLong - d.daysCoupon) as real
      && r.value.long * (d.daysLong - d.daysShort) as real == (d.daysCoupon - d.daysShort) as real
  {
    if d.daysLong == d.daysShort then Failure(DivisionByZero)
    else
      var span := (d.daysLong - d.daysShort) as real;
      Success(Weights((d.daysLong - d.daysCoupon) as real / span, (d.daysCoupon - d.daysShort) as real / span))
  }

  /** The weights of an observation for an accrual period ending on `accrualEndDate`. */
  function ObservationWeights(obs: IborInterpolatedRateObservation, accrualEndDate: Date, rules: IndexDateRules): Result<Weights> {
    WeightsOf(DaysOf(obs, accrualEndDate, rules))
  }

  /** `rate`: the weighted blend of the two index rates at the fixing date. */
  function Rate(obs: IborInterpolatedRateObservation, accrualStartDate: Date, accrualEndDate: Date,
                rules: IndexDateRules, source: IndexRateSource): (r: Result<real>)
    ensures r.Success? <==> ObservationWeights(obs, accrualEndDate, rules).Success?
    ensures r.Failure? ==> r.error == DivisionByZero
    ensures r.Success? ==>
      var w := ObservationWeights(obs, accrualEndDate, rules).value;
      r.value == w.short * source.rate(obs.shortIndex, obs.fixingDate) + w.long * source.rate(obs.longIndex, obs.fixingDate)
  {
    match ObservationWeights(obs, accrualEndDate, rules)
    case Failure(e) => Failure(e)
    case Success(w) =>
      Success(w.short * source.rate(obs.shortIndex, obs.fixingDate) + w.long * source.rate(obs.longIndex, obs.fixingDate))
  }

  /** `rateSensitivity`: the short index's sensitivity scaled by its weight,
      followed by the long index's scaled by its weight. */
  function RateSensitivity(obs: IborInterpolatedRateObservation, accrualStartDate: Date, accrualEndDate: Date,
                           rules: IndexDateRules, source: IndexRateSource): (r: Result<PointSensitivities>)
    ensures r.Success? <==> ObservationWeights(obs, accrualEndDate, rules).Success?
    ensures r.Success? ==>
      var w := ObservationWeights(obs, accrualEndDate, rules).value;
      var shortSens := source.pointSensitivity(obs.shortIndex, obs.fixingDate);
      var longSens := source.pointSensitivity(obs.longIndex, obs.fixingDate);
      && |r.value| == |shortSens| + |longSens|
      && r.value[..|shortSens|] == MultipliedBy(shortSens, w.short)
      && r.value[|shortSens|..] == MultipliedBy(longSens, w.long)
  {
    match ObservationWeights(obs, accrualEndDate, rules)
    case Failure(e) => Failure(e)
    case Success(w) =>
      Success(CombinedWith(
        MultipliedBy(source.pointSensitivity(obs.shortIndex, obs.fixingDate), w.short),
        MultipliedBy(source.pointSensitivity(obs.longIndex, obs.fixingDate), w.long)))
  }

  /** A source whose rate for `index` at `date` is moved by `shift`; all else is as in `source`. */
  function Bumped(source: IndexRateSource, index: Index, date: Date, shift: real): (r: IndexRateSource)
    ensures r.rate(index, date) == source.rate(index, date) + shift
    ensures forall i, d :: (i, d) != (index, date) ==> r.rate(i, d) == source.rate(i, d)
    ensures r.pointSensitivity == source.pointSensitivity
  {
    IndexRateSource(
      (i: Index, d: Date) => if i == index && d == date then source.rate(i, d) + shift else source.rate(i, d),
      source.pointSensitivity)
  }

  // ---------------------------------------------------------------------
  // Properties

  /** The two weights sum to one whenever the maturities differ. */
  lemma WeightsSumToOne(d: InterpolationDays)
    requires d.daysLong != d.daysShort
    ensures WeightsOf(d).Success?
    ensures WeightsOf(d).value.short + WeightsOf(d).value.long == 1.0
  {
    var w := WeightsOf(d).value;
    var span := (d.daysLong - d.daysShort) as real;
    assert w.short * span == (d.daysLong - d.daysCoupon) as real;
    assert w.long * span == (d.daysCoupon - d.daysShort) as real;
    assert (w.short + w.long) * span == w.short * span + w.long * span;
    CancelFactor(w.short + w.long, 1.0, span);
  }

  /** With the accrual end between the two maturities, both weights lie in [0, 1]. */
  lemma WeightsInUnitInterval(d: InterpolationDays)
    requires d.daysShort < d.daysLong && d.daysShort <= d.daysCoupon <= d.daysLong
    ensures WeightsOf(d).Success?
    ensures 0.0 <= WeightsOf(d).value.short <= 1.0 && 0.0 <= WeightsOf(d).value.long <= 1.0
  {
    var w := WeightsOf(d).value;
    var span := (d.daysLong - d.daysShort) as real;
    WeightsSumToOne(d);
    ScaledNonNegative(w.short, span, (d.daysLong - d.daysCoupon) as real);
    ScaledNonNegative(w.long, span, (d.daysCoupon - d.daysShort) as real);
  }

  /** When the accrual end falls between the two index maturities, the
      interpolated rate lies between the two index rates. */
  lemma RateBetweenIndexRates(obs: IborInterpolatedRateObservation, accrualStartDate: Date, accrualEndDate: Date,
                              rules: IndexDateRules, source: IndexRateSource)
    requires var d := DaysOf(obs, accrualEndDate, rules);
      d.daysShort < d.daysLong && d.daysShort <= d.daysCoupon <= d.daysLong
    ensures Rate(obs, accrualStartDate, accrualEndDate, rules, source).Success?
    ensures var r := Rate(obs, accrualStartDate, accrualEndDate, rules, source).value;
      var a, b := source.rate(obs.shortIndex, obs.fixingDate), source.rate(obs.longIndex, obs.fixingDate);
      (if a <= b then a else b) <= r <= (if a <= b then b else a)
  {
    var d := DaysOf(obs, accrualEndDate, rules);
    WeightsInUnitInterval(d);
    WeightsSumToOne(d);
    var w := WeightsOf(d).value;
    BlendBetween(w.short, w.long, source.rate(obs.shortIndex, obs.fixingDate), source.rate(obs.longIndex, obs.fixingDate));
  }

  /** When each index reports the unit sensitivity at the fixing date, the
      rate sensitivity is exactly `[short: w_short, long: w_long]`. */
  lemma UnitSensitivitiesGiveTwoEntries(obs: IborInterpolatedRateObservation, accrualStartDate: Date,
                                        accrualEndDate: Date, rules: IndexDateRules, source: IndexRateSource)
    requires ObservationWeights(obs, accrualEndDate, rules).Success?
    requires source.pointSensitivity(obs.shortIndex, obs.fixingDate) == UnitIborSensitivity(obs.shortIndex, obs.fixingDate)
    requires source.pointSensitivity(obs.longIndex, obs.fixingDate) == UnitIborSensitivity(obs.longIndex, obs.fixingDate)
    ensures var w := ObservationWeights(obs, accrualEndDate, rules).value;
      RateSensitivity(obs, accrualStartDate, accrualEndDate, rules, source) ==
        Success([IborRateSensitivity(obs.shortIndex, obs.fixingDate, w.short),
                 IborRateSensitivity(obs.longIndex, obs.fixingDate, w.long)])
  {
    var w := ObservationWeights(obs, accrualEndDate, rules).value;
    var r := RateSensitivity(obs, accrualStartDate, accrualEndDate, rules, source).value;
    var shortPart := MultipliedBy(UnitIborSensitivity(obs.shortIndex, obs.fixingDate), w.short);
    var longPart := MultipliedBy(UnitIborSensitivity(obs.longIndex, obs.fixingDate), w.long);
    assert shortPart == [IborRateSensitivity(obs.shortIndex, obs.fixingDate, w.short)] by {
      assert shortPart[0] == IborRateSensitivity(obs.shortIndex, obs.fixingDate, w.short * 1.0);
    }
    assert longPart == [IborRateSensitivity(obs.longIndex, obs.fixingDate, w.long)] by {
      assert longPart[0] == IborRateSensitivity(obs.longIndex, obs.fixingDate, w.long * 1.0);
    }
    assert |UnitIborSensitivity(obs.shortIndex, obs.fixingDate)| == 1;
    assert r[..1] == shortPart;
    assert r[1..] == longPart;
    assert r == r[..1] + r[1..];
    assert r == [IborRateSensitivity(obs.shortIndex, obs.fixingDate, w.short),
                 IborRateSensitivity(obs.longIndex, obs.fixingDate, w.long)];
  }

  /** Moving the short index rate by `shift` moves the interpolated rate by
      exactly `w_short * shift` (the rate is linear in each index rate). */
  lemma ShortRateShiftIsWeighted(obs: IborInterpolatedRateObservation, accrualStartDate: Date, accrualEndDate: Date,
                                 rules: IndexDateRules, source: IndexRateSource, shift: real)
    requires obs.shortIndex != obs.longIndex
    requires ObservationWeights(obs, accrualEndDate, rules).Success?
    ensures var bumped := Bumped(source, obs.shortIndex, obs.fixingDate, shift);
      Rate(obs, accrualStartDate, accrualEndDate, rules, bumped).value ==
        Rate(obs, accrualStartDate, accrualEndDate, rules, source).value
          + ObservationWeights(obs, accrualEndDate, rules).value.short * shift
  {
    var w := ObservationWeights(obs, accrualEndDate, rules).value;
    var bumped := Bumped(source, obs.shortIndex, obs.fixingDate, shift);
    assert bumped.rate(obs.longIndex, obs.fixingDate) == source.rate(obs.longIndex, obs.fixingDate);
    assert w.short * (source.rate(obs.shortIndex, obs.fixingDate) + shift)
        == w.short * source.rate(obs.shortIndex, obs.fixingDate) + w.short * shift;
  }

  /** Moving the long index rate by `shift` moves the interpolated rate by exactly `w_long * shift`. */
  lemma LongRateShiftIsWeighted(obs: IborInterpolatedRateObservation, accrualStartDate: Date, accrualEndDate: Date,
                                rules: IndexDateRules, source: IndexRateSource, shift: real)
    requires obs.shortIndex != obs.longIndex
    requires ObservationWeights(obs, accrualEndDate, rules).Success?
    ensures var bumped := Bumped(source, obs.longIndex, obs.fixingDate, shift);
      Rate(obs, accrualStartDate, accrualEndDate, rules, bumped).value ==
        Rate(obs, accrualStartDate, accrualEndDate, rules, source).value
          + ObservationWeights(obs, accrualEndDate, rules).value.long * shift
  {
    var w := ObservationWeights(obs, accrualEndDate, rules).value;
    var bumped := Bumped(source, obs.longIndex, obs.fixingDate, shift);
    assert bumped.rate(obs.shortIndex, obs.fixingDate) == source.rate(obs.shortIndex, obs.fixingDate);
    assert w.long * (source.rate(obs.longIndex, obs.fixingDate) + shift)
        == w.long * source.rate(obs.longIndex, obs.fixingDate) + w.long * shift;
  }

  /** The central difference of the rate in each index rate, for any bump
      `eps`, equals that index's entry of the rate sensitivity. */
  lemma CentralDifferenceMatchesSensitivity(obs: IborInterpolatedRateObservation, accrualStartDate: Date,
                                            accrualEndDate: Date, rules: IndexDateRules, source: IndexRateSource,
                                            eps: real)
    requires eps != 0.0 && obs.shortIndex != obs.longIndex
    requires ObservationWeights(obs, accrualEndDate, rules).Success?
    requires source.pointSensitivity(obs.shortIndex, obs.fixingDate) == UnitIborSensitivity(obs.shortIndex, obs.fixingDate)
    requires source.pointSensitivity(obs.longIndex, obs.fixingDate) == UnitIborSensitivity(obs.longIndex, obs.fixingDate)
    ensures var sens := RateSensitivity(obs, accrualStartDate, accrualEndDate, rules, source).value;
      var rate := (s: IndexRateSource) => Rate(obs, accrualStartDate, accrualEndDate, rules, s).value;
      && |sens| == 2
      && 0.5 * (rate(Bumped(source, obs.shortIndex, obs.fixingDate, eps))
                - rate(Bumped(source, obs.shortIndex, obs.fixingDate, -eps))) / eps == sens[0].sensitivity
      && 0.5 * (rate(Bumped(source, obs.longIndex, obs.fixingDate, eps))
                - rate(Bumped(source, obs.longIndex, obs.fixingDate, -eps))) / eps == sens[1].sensitivity
  {
    var w := ObservationWeights(obs, accrualEndDate, rules).value;
    var base := Rate(obs, accrualStartDate, accrualEndDate, rules, source).value;
    UnitSensitivitiesGiveTwoEntries(obs, accrualStartDate, accrualEndDate, rules, source);
    ShortRateShiftIsWeighted(obs, accrualStartDate, accrualEndDate, rules, source, eps);
    ShortRateShiftIsWeighted(obs, accrualStartDate, accrualEndDate, rules, source, -eps);
    LongRateShiftIsWeighted(obs, accrualStartDate, accrualEndDate, rules, source, eps);
    LongRateShiftIsWeighted(obs, accrualStartDate, accrualEndDate, rules, source, -eps);
    assert (base + w.short * eps) - (base + w.short * -eps) == 2.0 * w.short * eps;
    assert 0.5 * (2.0 * w.short * eps) / eps == w.short;
    assert (base + w.long * eps) - (base + w.long * -eps) == 2.0 * w.long * eps;
    assert 0.5 * (2.0 * w.long * eps) / eps == w.long;
  }
}
