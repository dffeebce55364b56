# Strata rates core in Dafny

A model of five pieces of the OpenGamma Strata analytics library, written over
real numbers, with the properties the code and its tests promise proved.

- **Interpolated Ibor observation** (`ibor_interpolated.dfy`, module `IborInterpolated`).
  The rate of a period that falls between two Ibor tenors is a blend of the
  short and the long index rates. The short weight is
  `(days_long - days_cpn) / (days_long - days_short)` and the long weight is
  `(days_cpn - days_short) / (days_long - days_short)`. All day counts run
  from the fixing date. Both maturities are taken from the short index's
  effective date. The point sensitivity is the short entry followed by the long one.
- **Discounting FRA pricer** (`fra_pricer.dfy`, module `FraPricer`).
  - Future value under the ISDA, NONE and AFMA conventions.
  - Present value: the future value times the discount factor of the payment date.
  - Par rate, cash flows, and the future-value and present-value point sensitivities.
  - A FRA whose payment date is before the valuation date is worth zero. The model also gives it empty sensitivities; see "Left out".
  - The trade pricer is the product pricer applied to the expanded product.
- **Immutable rates provider** (`rates_provider.dfy`, module `RatesProviders`).
  A snapshot of the market at one valuation date:
  - discount curves by currency, index curves and fixing time series by index;
  - an FX matrix;
  - typed side data;
  - a day count for the signed relative time.
  Lookups for a missing currency, index or data type fail.
- **FRA calculation function** (`fra_function.dfy`, module `FraFunction`).
  `requirements` collects the FRA's indices into a set, then derives the
  curve, fixing and currency requirements from that set. `execute` applies a
  per-scenario measure to every scenario, in order.
- **Term deposit convention** (`term_deposit.dfy`, module `TermDeposits`).
  - The builder rejects a missing currency, day count or spot date offset.
  - The business day adjustment is optional and reads back as "no adjustment" when unset.
  - `toTrade` comes in two overloads: one from explicit dates and one from a deposit period.

Shared value types live in `basics.dfy` (`Basics`). Point sensitivities and
their scaling and concatenation live in `sensitivities.dfy` (`Sensitivities`).
Small lemmas of real arithmetic live in `real_arith.dfy` (`RealArith`).

Several things are parameters of the model rather than parts of it:
- day-count year fractions;
- index effective and maturity dates;
- curve discount factors;
- business-day date shifts;
- calendar period addition;
- `Fra.expand()`;
- the rate observation function the FRA pricer is given.

Java signals an unknown currency, index or data type, or a wrong argument
order, by throwing an exception. Here the provider lookups, the builders and
`toTrade` return a `Result`, and the exception becomes `Failure(error)`. The
index-rate source and the rate observation function are total parameters
(see "Left out"). A denominator that Java
would divide by zero (giving an IEEE infinity or NaN) is a
`Failure(DivisionByZero)` in the model.

The repricing step of the par-rate tests for NONE and AFMA
(`DiscountingFraProductPricerTest.java` lines 468-480 and 499-511) builds a
fresh `Fra` without setting its discounting method. It therefore reprices
under the `Fra` default, not under the convention named in the test.
`FraPricer.ParRateZeroesValue` proves the zero present value for all three
conventions, so the tested property holds either way.

## Model

| member | source | states |
|---|---|---|
| IborInterpolated.WeightsOf | modules/pricer/src/test/java/com/opengamma/strata/pricer/impl/rate/ForwardIborInterpolatedRateObservationFnTest.java:56-60 | fails exactly when the long and short maturities coincide; otherwise each weight times `days_long - days_short` equals its numerator (`days_long - days_cpn` for short, `days_cpn - days_short` for long) |
| IborInterpolated.Rate | modules/pricer/src/test/java/com/opengamma/strata/pricer/impl/rate/ForwardIborInterpolatedRateObservationFnTest.java:53-63 | succeeds exactly when the weights exist; the rate is `w_short * rate_short + w_long * rate_long` with both index rates read at the fixing date |
| IborInterpolated.RateSensitivity | modules/pricer/src/test/java/com/opengamma/strata/pricer/impl/rate/ForwardIborInterpolatedRateObservationFnTest.java:77-89 | the short index's sensitivities scaled by `w_short`, followed by the long index's scaled by `w_long`, in that order |
| IborInterpolated.Bumped | modules/pricer/src/test/java/com/opengamma/strata/pricer/impl/rate/ForwardIborInterpolatedRateObservationFnTest.java:108-128 | a market that moves one index rate at one date by `shift` and leaves every other rate and all sensitivities unchanged |
| IborInterpolated.WeightsSumToOne | modules/pricer/src/test/java/com/opengamma/strata/pricer/impl/rate/ForwardIborInterpolatedRateObservationFnTest.java:59-60 | when the maturities differ, the two weights sum to 1 |
| IborInterpolated.WeightsInUnitInterval | modules/pricer/src/test/java/com/opengamma/strata/pricer/impl/rate/ForwardIborInterpolatedRateObservationFnTest.java:59-60 | when the coupon end lies between the two maturities, both weights lie in [0, 1] |
| IborInterpolated.RateBetweenIndexRates | modules/pricer/src/test/java/com/opengamma/strata/pricer/impl/rate/ForwardIborInterpolatedRateObservationFnTest.java:59-61 | when the coupon end lies between the two maturities, the blended rate lies between the two index rates |
| IborInterpolated.UnitSensitivitiesGiveTwoEntries | modules/pricer/src/test/java/com/opengamma/strata/pricer/impl/rate/ForwardIborInterpolatedRateObservationFnTest.java:85-89 | with unit index sensitivities, the result is exactly `[short index at fixing date: w_short, long index at fixing date: w_long]` |
| IborInterpolated.ShortRateShiftIsWeighted | modules/pricer/src/test/java/com/opengamma/strata/pricer/impl/rate/ForwardIborInterpolatedRateObservationFnTest.java:130-132 | moving the short index rate by `shift` moves the blended rate by `w_short * shift` |
| IborInterpolated.LongRateShiftIsWeighted | modules/pricer/src/test/java/com/opengamma/strata/pricer/impl/rate/ForwardIborInterpolatedRateObservationFnTest.java:134-136 | moving the long index rate by `shift` moves the blended rate by `w_long * shift` |
| IborInterpolated.CentralDifferenceMatchesSensitivity | modules/pricer/src/test/java/com/opengamma/strata/pricer/impl/rate/ForwardIborInterpolatedRateObservationFnTest.java:130-139 | the central difference `0.5 * (rate(up) - rate(down)) / eps` of each index rate equals that index's sensitivity entry, exactly and for every non-zero `eps` |
| Sensitivities.PointSensitivity.Scaled | modules/pricer/src/test/java/com/opengamma/strata/pricer/impl/rate/ForwardIborInterpolatedRateObservationFnTest.java:83-84 | the same risk factor (kind, index or currency, and date) with the sensitivity multiplied by the factor |
| Sensitivities.MultipliedBy | modules/pricer/src/test/java/com/opengamma/strata/pricer/impl/rate/ForwardIborInterpolatedRateObservationFnTest.java:85-87 | same length; entry `k` is entry `k` of the input scaled by the factor |
| Sensitivities.CombinedWith | modules/pricer/src/test/java/com/opengamma/strata/pricer/impl/rate/ForwardIborInterpolatedRateObservationFnTest.java:87 | the first list followed by the second, lengths adding up |
| Sensitivities.UnitIborSensitivity | modules/pricer/src/test/java/com/opengamma/strata/pricer/rate/fra/DiscountingFraProductPricerTest.java:213 | a single Ibor entry on the given index and fixing date with sensitivity 1 |
| Sensitivities.MultipliedByTwice | modules/pricer/src/test/java/com/opengamma/strata/pricer/rate/fra/DiscountingFraProductPricerTest.java:322-331 | scaling by `a` and then by `b` is scaling by `a * b` |
| FraPricer.FutureValue | modules/pricer/src/test/java/com/opengamma/strata/pricer/rate/fra/DiscountingFraProductPricerTest.java:62 | zero in the FRA currency when settled; otherwise fails exactly when a convention denominator is zero, and is the notional times the convention's unit amount at the forward rate |
| FraPricer.PresentValue | modules/pricer/src/test/java/com/opengamma/strata/pricer/rate/fra/DiscountingFraProductPricerTest.java:138-141 | zero when settled; otherwise succeeds exactly when the future value does and the currency has a curve (a missing curve fails with that currency), and equals future value times discount factor |
| FraPricer.FutureValueSensitivity | modules/pricer/src/test/java/com/opengamma/strata/pricer/rate/fra/DiscountingFraProductPricerTest.java:219-228 | empty when settled; otherwise the observation's rate sensitivity scaled by the derivative of the future value at the forward rate |
| FraPricer.PresentValueSensitivity | modules/pricer/src/test/java/com/opengamma/strata/pricer/rate/fra/DiscountingFraProductPricerTest.java:322-331 | empty when settled; otherwise fails exactly on a zero denominator or a missing curve; on success, the rate sensitivity scaled by the discounted derivative followed by the curve's zero-rate sensitivity at the payment date scaled by the future value |
| FraPricer.CashFlows | modules/pricer/src/test/java/com/opengamma/strata/pricer/rate/fra/DiscountingFraProductPricerTest.java:518-541 | succeeds exactly when the future value does and the FRA currency has a discount curve, propagating a future-value failure and failing with that currency on a missing curve; on success exactly one cash flow, at the payment date, in the FRA currency, worth the future value, carrying the curve's discount factor at the payment date and a present value equal to future value times that factor (the present value itself when unsettled) |
| FraPricer.WithFixedRate | modules/pricer/src/test/java/com/opengamma/strata/pricer/rate/fra/DiscountingFraProductPricerTest.java:440-448 | the FRA with only its fixed rate replaced |
| FraPricer.WithForwardRate | modules/pricer/src/test/java/com/opengamma/strata/pricer/rate/fra/DiscountingFraProductPricerTest.java:549-562 | an observation function reporting the given rate for every period, with the original sensitivities |
| FraPricer.AmountDefinedAtPar | modules/pricer/src/test/java/com/opengamma/strata/pricer/rate/fra/DiscountingFraProductPricerTest.java:438-450 | at the par rate the convention amount exists whenever `1 + yf * f != 0`, and for ISDA and AFMA exactly then |
| FraPricer.UnitAmountAtPar | modules/pricer/src/test/java/com/opengamma/strata/pricer/rate/fra/DiscountingFraProductPricerTest.java:438-450 | at the par rate each convention's unit amount is 0 |
| FraPricer.ParRateZeroesValue | modules/pricer/src/test/java/com/opengamma/strata/pricer/rate/fra/DiscountingFraProductPricerTest.java:438-450 | the par rate is the forward rate; repricing at the par rate gives future and present value 0 under ISDA, NONE and AFMA, and the future value exists whenever `1 + yf * f != 0` |
| FraPricer.IsdaSecant | modules/pricer/src/test/java/com/opengamma/strata/pricer/rate/fra/DiscountingFraProductPricerTest.java:62 | the ISDA amount `yf (f - K) / (1 + yf f)` moves between forward rates `f` and `g` by `yf (1 + yf K) / ((1 + yf f)(1 + yf g))` times `g - f` |
| FraPricer.AfmaSecant | modules/pricer/src/test/java/com/opengamma/strata/pricer/rate/fra/DiscountingFraProductPricerTest.java:106 | the AFMA amount `-(1/(1 + yf f) - 1/(1 + yf K))` moves between `f` and `g` by `yf / ((1 + yf f)(1 + yf g))` times `g - f` |
| FraPricer.ValueSecant | modules/pricer/src/test/java/com/opengamma/strata/pricer/rate/fra/DiscountingFraProductPricerTest.java:549-562 | for every convention, the future value moves between two forward rates by the slope times the move, and the slope at coinciding rates is the derivative the sensitivity uses |
| FraPricer.SettledFraIsWorthless | modules/pricer/src/test/java/com/opengamma/strata/pricer/rate/fra/DiscountingFraProductPricerTest.java:113-121 | a FRA paying before the valuation date has future and present value 0 and no sensitivities; its cash flows succeed exactly when the currency has a curve, and then hold one flow with future and present value 0 |
| FraPricer.FutureValueSensitivityIsDerivative | modules/pricer/src/test/java/com/opengamma/strata/pricer/rate/fra/DiscountingFraProductPricerTest.java:219-228 | with a unit rate sensitivity, exactly one entry on the FRA index at its fixing date, worth the derivative of the future value; the future value's change between forward rates is the slope times the move, and the slope at coinciding rates is that derivative |
| FraPricer.PresentValueSensitivityEntries | modules/pricer/src/test/java/com/opengamma/strata/pricer/rate/fra/DiscountingFraProductPricerTest.java:322-331 | with a unit rate sensitivity, exactly two entries: first the index at its fixing date worth derivative times discount factor, then the currency at the payment date worth future value times `-t * df` |
| FraPricer.PresentValueSecant | modules/pricer/src/test/java/com/opengamma/strata/pricer/rate/fra/DiscountingFraProductPricerTest.java:564-582 | the present value moves between forward rates `f` and `g` by the future value's slope times the discount factor times `g - f` |
| FraPricer.TradePricerMatchesProductPricer | modules/pricer/src/test/java/com/opengamma/strata/pricer/rate/fra/DiscountingFraProductPricerTest.java:66-67 | future value, present value, both sensitivities and cash flows of a trade equal those of its expanded product |
| RatesProviders.FxMatrixOf | modules/pricer/src/test/java/com/opengamma/strata/pricer/rate/ImmutableRatesProviderTest.java:42-43 | a well-formed matrix quoting exactly the one given pair at the given rate |
| RatesProviders.MatrixFxRate | modules/pricer/src/test/java/com/opengamma/strata/pricer/rate/ImmutableRatesProviderTest.java:146-154 | 1 for a currency with itself, the quote for a quoted pair, the reciprocal of the opposite quote otherwise; fails exactly when neither direction has a usable quote |
| RatesProviders.EmptyBuilder | modules/pricer/src/test/java/com/opengamma/strata/pricer/rate/ImmutableRatesProviderTest.java:207-210 | a builder with the given valuation date and day count and every map empty |
| RatesProviders.Build | modules/pricer/src/test/java/com/opengamma/strata/pricer/rate/ImmutableRatesProviderTest.java:85-103 | succeeds exactly when every side-data value is an instance of its key's type (its own runtime type or one of its supertypes), copying every field; otherwise fails with invalid side data |
| RatesProviders.AddingDataChecksInstance | modules/pricer/src/test/java/com/opengamma/strata/pricer/rate/ImmutableRatesProviderTest.java:97-103 | adding one side-data entry to valid side data builds exactly when the value is an instance of its key's type |
| RatesProviders.Data | modules/pricer/src/test/java/com/opengamma/strata/pricer/rate/ImmutableRatesProviderTest.java:106-115 | the stored value for a present type (an instance of that type when the data is valid); a missing type fails naming that type |
| RatesProviders.ZeroRatePointSensitivity | modules/pricer/src/test/java/com/opengamma/strata/pricer/rate/fra/DiscountingFraProductPricerTest.java:309-311 | a zero-rate entry keyed by the curve's currency and the date; zero at time 0 and negative for a positive discount factor at a positive time |
| RatesProviders.GetDiscountFactors | modules/pricer/src/test/java/com/opengamma/strata/pricer/rate/ImmutableRatesProviderTest.java:118-125 | succeeds exactly for a currency with a curve, with that currency, curve, valuation date and day count; otherwise fails with the missing currency |
| RatesProviders.DiscountFactor | modules/pricer/src/test/java/com/opengamma/strata/pricer/rate/ImmutableRatesProviderTest.java:128-143 | succeeds exactly for a currency with a curve, returning the curve's factor at the relative time; an unknown currency fails with that currency |
| RatesProviders.FxRateOfPair | modules/pricer/src/test/java/com/opengamma/strata/pricer/rate/ImmutableRatesProviderTest.java:156-163 | the pair form equals the two-currency form |
| RatesProviders.TimeSeriesOf | modules/pricer/src/test/java/com/opengamma/strata/pricer/rate/ImmutableRatesProviderTest.java:166-177 | the stored fixings of an index, or an empty series when none are stored |
| RatesProviders.GetIborIndexRates | modules/pricer/src/test/java/com/opengamma/strata/pricer/rate/ImmutableRatesProviderTest.java:180-190 | succeeds exactly for an index with a curve, carrying that index, its forward curve and its stored fixings; otherwise fails with the missing index |
| RatesProviders.GetOvernightIndexRates | modules/pricer/src/test/java/com/opengamma/strata/pricer/rate/ImmutableRatesProviderTest.java:193-203 | the overnight view: same contract as the Ibor view |
| RatesProviders.GetFxIndexRates | modules/pricer/src/test/java/com/opengamma/strata/pricer/rate/ImmutableRatesProviderTest.java:166-177 | succeeds exactly when both the base and the counter currency have a discount curve, failing first with a missing base and then with a missing counter; on success an FX view carrying the index, the valuation date, the provider's FX matrix, the index's stored fixings and the discount-factor views of both currencies |
| RatesProviders.BuildKeepsFields | modules/pricer/src/test/java/com/opengamma/strata/pricer/rate/ImmutableRatesProviderTest.java:85-95 | building valid data succeeds and keeps valuation date, time series and day count |
| RatesProviders.BuiltDataIsTyped | modules/pricer/src/test/java/com/opengamma/strata/pricer/rate/ImmutableRatesProviderTest.java:106-115 | every value a built provider returns from `data(type)` is an instance of that type, and a type the builder was not given fails |
| RatesProviders.FxRateInverse | modules/pricer/src/test/java/com/opengamma/strata/pricer/rate/ImmutableRatesProviderTest.java:146-154 | on a well-formed matrix, `fxRate(c, c) = 1`; both directions succeed together, with a positive rate whose reverse is its reciprocal |
| RatesProviders.RelativeTimeSign | modules/pricer/src/test/java/com/opengamma/strata/pricer/rate/ImmutableRatesProviderTest.java:206-215 | relative time is non-negative after, non-positive before and zero on the valuation date |
| RatesProviders.RelativeTimeCases | modules/pricer/src/test/java/com/opengamma/strata/pricer/rate/ImmutableRatesProviderTest.java:211-214 | `yearFraction(valuation, d)` on or after the valuation date, `-yearFraction(d, valuation)` before it |
| RatesProviders.DiscountFactorThroughView | modules/pricer/src/test/java/com/opengamma/strata/pricer/rate/ImmutableRatesProviderTest.java:118-134 | the currency's discount-factor view gives the same factor and the same relative time as the provider's own lookup |
| FraFunction.Requirements | modules/function-beta/src/main/java/com/opengamma/strata/function/rate/fra/AbstractFraFunction.java:78-102 | the requirements built by adding the indices to a set one at a time equal the FRA's specified requirements, read from the product only |
| FraFunction.FraIndicesContents | modules/function-beta/src/main/java/com/opengamma/strata/function/rate/fra/AbstractFraFunction.java:81-83 | the index set holds the FRA index and the interpolated index and nothing else; size 2 when the interpolated index is present and different, else 1 |
| FraFunction.TimeSeriesKeysOnePerIndex | modules/function-beta/src/main/java/com/opengamma/strata/function/rate/fra/AbstractFraFunction.java:85-88 | the fixing requirements are exactly one `IndexRateKey` per distinct index |
| FraFunction.SingleValueKeysAreCurves | modules/function-beta/src/main/java/com/opengamma/strata/function/rate/fra/AbstractFraFunction.java:90-98 | the single-value requirements are the index-curve keys of the distinct indices plus exactly one discounting key, for the FRA currency; size is the index count plus one |
| FraFunction.OutputCurrencyIsFraCurrency | modules/function-beta/src/main/java/com/opengamma/strata/function/rate/fra/AbstractFraFunction.java:100 | the output currencies are exactly the FRA currency |
| FraFunction.Execute | modules/function-beta/src/main/java/com/opengamma/strata/function/rate/fra/AbstractFraFunction.java:106-111 | one result per scenario; result `i` is the measure of the expanded product on scenario `i` |
| FraFunction.ExecuteIsPerScenario | modules/function-beta/src/main/java/com/opengamma/strata/function/rate/fra/AbstractFraFunction.java:107-110 | two market-data sets that agree on scenario `i` give the same result `i` |
| FraFunction.ExecuteDistributesOverScenarios | modules/function-beta/src/main/java/com/opengamma/strata/function/rate/fra/AbstractFraFunction.java:107-111 | the results of concatenated scenario lists are the concatenated results, in order |
| TermDeposits.EmptyConventionBuilder | modules/finance/src/main/java/com/opengamma/strata/finance/rate/deposit/TermDepositConvention.java:221-223 | a builder with no field set |
| TermDeposits.ToBuilder | modules/finance/src/main/java/com/opengamma/strata/finance/rate/deposit/TermDepositConvention.java:294-296 | a builder holding every field of the convention |
| TermDeposits.Build | modules/finance/src/main/java/com/opengamma/strata/finance/rate/deposit/TermDepositConvention.java:229-236 | succeeds exactly when currency, day count and spot date offset are set, naming the first missing one in that order, and copies every field including the optional adjustment |
| TermDeposits.GetBusinessDayAdjustment | modules/finance/src/main/java/com/opengamma/strata/finance/rate/deposit/TermDepositConvention.java:103-105 | the stored adjustment when present, otherwise no adjustment |
| TermDeposits.ToTrade | modules/finance/src/main/java/com/opengamma/strata/finance/rate/deposit/TermDepositConvention.java:172-195 | fails exactly when the trade date is after the start date (equal allowed); otherwise dated on the trade date, with the convention's currency, day count and raw adjustment and the given direction, notional, rate and dates |
| TermDeposits.ToTradeFromPeriod | modules/finance/src/main/java/com/opengamma/strata/finance/rate/deposit/TermDepositConvention.java:142-151 | succeeds exactly when the spot date is not before the trade date; start date is the spot date, end date the spot date plus the period |
| TermDeposits.BuildToBuilderRoundTrip | modules/finance/src/main/java/com/opengamma/strata/finance/rate/deposit/TermDepositConvention.java:229-236 | building from `toBuilder` gives back the same convention |
| TermDeposits.AdjustmentIsOptional | modules/finance/src/main/java/com/opengamma/strata/finance/rate/deposit/TermDepositConvention.java:71-72 | a builder without the adjustment builds, the adjustment stays unset, and the getter reads no adjustment |
| TermDeposits.PeriodOverloadDelegates | modules/finance/src/main/java/com/opengamma/strata/finance/rate/deposit/TermDepositConvention.java:149-151 | the period overload equals the date overload at the spot date and the spot date plus the period |
| TermDeposits.ForwardSpotOffsetNeverFails | modules/finance/src/main/java/com/opengamma/strata/finance/rate/deposit/TermDepositConvention.java:149-151 | with a spot offset that never moves a date backwards, the period overload always succeeds, dated on the trade date |
| TermDeposits.TradeAdjustmentMatchesGetter | modules/finance/src/main/java/com/opengamma/strata/finance/rate/deposit/TermDepositConvention.java:191 | the trade keeps the raw stored adjustment, whose defaulted reading is the convention's getter |

## Left out

- `toScenarioResult` and automatic currency conversion in `execute`: results are returned as a plain sequence. Conversion lives in code that is not part of this model.
- `DefaultSingleCalculationMarketData` and `MarketDataRatesProvider`: each scenario is given directly as a rates provider.
- `Fra.expand()`, the index date rules, day-count arithmetic, calendar period addition and business-day shifts are parameters. Their own rules are not modelled.
- Curves are seen only through their discount factor at a time. Forward-rate computation from an index curve is not modelled.
- FX cross rates through a third currency: only direct and reciprocal quotes are modelled.
- `toTemplate`: it only wraps the convention and a period in a template that is not part of this model.
- `TermDeposit`'s own construction checks (for example the start date not after the end date) belong to a class that is not part of this model.
- Java `double` arithmetic: all amounts are exact reals. A zero denominator is a `Failure(DivisionByZero)` where Java would produce an infinity or NaN.
- The discount-curve bump of the finite-difference helper (`dscSensitivity`, which multiplies the discount factor by an exponential): the model has no exponential. The zero-rate entry is stated directly through `-t * df` in FraPricer.PresentValueSensitivityEntries.
- Java bean machinery (meta-beans, `equals`, `hashCode`, `toString`, serialization).
- IborInterpolated.CentralDifferenceMatchesSensitivity, ShortRateShiftIsWeighted, LongRateShiftIsWeighted: they require the two indices to differ. With one index on both legs the bump moves both legs at once.
- FraPricer.ParRateZeroesValue: the tests reprice a newly built `Fra` through expansion. The lemma reprices the expanded FRA with only its fixed rate replaced.
- FraPricer.FutureValueSensitivity, FraPricer.PresentValueSensitivity: an empty sensitivity for a settled FRA is a choice of this model. The tests cover only the value of a settled FRA, and the pricer's own source is not part of this model.
- FraPricer.CashFlows: a settled FRA still needs a discount curve for its currency, because the discount factor of the cash flow is looked up in every case.
- Missing index curves inside the rate source: `IndexRateSource` and the rate observation function are total parameters. A missing index curve therefore cannot make IborInterpolated.Rate, FraPricer.FutureValue or the sensitivities fail; only the provider lookups can.
- Sensitivities.IborRateSensitivity: it has no currency field. In Strata the currency of an Ibor sensitivity is the index's currency, taken from the index when the sensitivity is built.
