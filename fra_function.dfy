/** The calculation function for FRA trades: the market data a FRA needs,
    and the fan-out of a per-scenario measure over every scenario. */
module FraFunction {
  import opened Basics
  import opened RatesProviders
  import opened FraPricer

  /** The keys under which market data is requested. */
  datatype MarketDataKey =
    /** The fixings (time series) of an index. */
    | IndexRateKey(index: Index)
    /** The forward curve of an index. */
    | IndexCurveKey(index: Index)
    /** The discounting curve of a currency. */
    | DiscountingCurveKey(currency: Currency)

  /** What the function asks of the market-data system before it runs. */
  datatype CalculationRequirements = CalculationRequirements(
    singleValueRequirements: set<MarketDataKey>,
    timeSeriesRequirements: set<MarketDataKey>,
    outputCurrencies: set<Currency>)

  /** The distinct indices a FRA observes: its index, and its interpolated index when it has one. */
  function FraIndices(fra: Fra): set<Index> {
    {fra.index} + (if fra.indexInterpolated.Some? then {fra.indexInterpolated.value} else {})
  }

  /** One fixing key per index. */
  function IndexRateKeys(indices: set<Index>): set<MarketDataKey> {
    set i | i in indices :: IndexRateKey(i)
  }

  /** One forward-curve key per index. */
  function IndexCurveKeys(indices: set<Index>): set<MarketDataKey> {
    set i | i in indices :: IndexCurveKey(i)
  }

  /** The requirements of a FRA: curves for its indices and its currency,
      fixings for its indices, and results in its currency. */
  function FraRequirements(fra: Fra): CalculationRequirements {
    var indices := FraIndices(fra);
    CalculationRequirements(
      IndexCurveKeys(indices) + {DiscountingCurveKey(fra.currency)},
      IndexRateKeys(indices),
      {fra.currency})
  }

  /** `requirements`: collects the indices into a set one at a time, then
      derives the keys from it. Only the trade's product is read. */
  method Requirements(trade: FraTrade) returns (r: CalculationRequirements)
    ensures r == FraRequirements(trade.product)
  {
    var fra := trade.product;
    var indices: set<Index> := {};
    indices := indices + {fra.index};
    if fra.indexInterpolated.Some? {
      indices := indices + {fra.indexInterpolated.value};
    }
    var indexRateKeys := set i | i in indices :: IndexRateKey(i);
    var indexCurveKeys := set i | i in indices :: IndexCurveKey(i);
    var discountingCurveKeys := {DiscountingCurveKey(fra.currency)};
    r := CalculationRequirements(indexCurveKeys + discountingCurveKeys, indexRateKeys, {fra.currency});
  }

  /** The index set holds the FRA's index and its interpolated index and
      nothing else, so it has one element, or two when the interpolated
      index is present and different. */
  lemma FraIndicesContents(fra: Fra)
    ensures forall i :: i in FraIndices(fra) <==>
      i == fra.index || (fra.indexInterpolated.Some? && i == fra.indexInterpolated.value)
    ensures |FraIndices(fra)| == (if fra.indexInterpolated.Some? && fra.indexInterpolated.value != fra.index then 2 else 1)
  {
    if fra.indexInterpolated.Some? && fra.indexInterpolated.value != fra.index {
      assert FraIndices(fra) == {fra.index, fra.indexInterpolated.value};
    } else {
      assert FraIndices(fra) == {fra.index};
    }
  }

  /** The fixing requirements are exactly one `IndexRateKey` per distinct index. */
  lemma TimeSeriesKeysOnePerIndex(fra: Fra)
    ensures forall k :: k in FraRequirements(fra).timeSeriesRequirements <==>
      k.IndexRateKey? && k.index in FraIndices(fra)
    ensures |FraRequirements(fra).timeSeriesRequirements| == |FraIndices(fra)|
  {
    FraIndicesContents(fra);
    var keys := FraRequirements(fra).timeSeriesRequirements;
    if fra.indexInterpolated.Some? && fra.indexInterpolated.value != fra.index {
      assert FraIndices(fra) == {fra.index, fra.indexInterpolated.value};
      assert keys == {IndexRateKey(fra.index), IndexRateKey(fra.indexInterpolated.value)};
    } else {
      assert FraIndices(fra) == {fra.index};
      assert keys == {IndexRateKey(fra.index)};
    }
  }

  /** The curve requirements are one `IndexCurveKey` per distinct index and
      exactly one discounting key, for the FRA's currency. */
  lemma SingleValueKeysAreCurves(fra: Fra)
    ensures forall k :: k in FraRequirements(fra).singleValueRequirements <==>
      (k.IndexCurveKey? && k.index in FraIndices(fra)) || k == DiscountingCurveKey(fra.currency)
    ensures forall k :: k in FraRequirements(fra).singleValueRequirements && k.DiscountingCurveKey? ==>
      k.currency == fra.currency
    ensures |FraRequirements(fra).singleValueRequirements| == |FraIndices(fra)| + 1
  {
    FraIndicesContents(fra);
    var keys := FraRequirements(fra).singleValueRequirements;
    var d := DiscountingCurveKey(fra.currency);
    if fra.indexInterpolated.Some? && fra.indexInterpolated.value != fra.index {
      assert FraIndices(fra) == {fra.index, fra.indexInterpolated.value};
      assert keys == {IndexCurveKey(fra.index), IndexCurveKey(fra.indexInterpolated.value), d};
    } else {
      assert FraIndices(fra) == {fra.index};
      assert keys == {IndexCurveKey(fra.index), d};
    }
  }

  /** Results are reported in the FRA's currency only. */
  lemma OutputCurrencyIsFraCurrency(fra: Fra)
    ensures FraRequirements(fra).outputCurrencies == {fra.currency}
    ensures |FraRequirements(fra).outputCurrencies| == 1
  {
  }

  // ---------------------------------------------------------------------
  // Execution over scenarios

  /** The market data of every scenario, each already presented as a rates provider. */
  datatype CalculationMarketData = CalculationMarketData(scenarios: seq<ImmutableRatesProvider>)
  {
    function ScenarioCount(): nat {
      |scenarios|
    }
  }

  /** `execute`: expands the product once and applies the per-scenario
      measure to each scenario in index order. */
  function Execute<T>(trade: FraTrade, marketData: CalculationMarketData, expand: FraExpansion,
                      perScenario: (ExpandedFra, ImmutableRatesProvider) -> T): (r: seq<T>)
    ensures |r| == marketData.ScenarioCount()
    ensures forall i :: 0 <= i < |r| ==> r[i] == perScenario(expand(trade.product), marketData.scenarios[i])
  {
    var product := expand(trade.product);
    seq(marketData.ScenarioCount(), i requires 0 <= i < marketData.ScenarioCount() => perScenario(product, marketData.scenarios[i]))
  }

  /** Result `i` depends on scenario `i` only: two market-data sets that agree
      on a scenario give the same result for it, whatever their other
      scenarios and however many there are. */
  lemma ExecuteIsPerScenario<T>(trade: FraTrade, a: CalculationMarketData, b: CalculationMarketData, expand: FraExpansion,
                                perScenario: (ExpandedFra, ImmutableRatesProvider) -> T, i: nat)
    requires i < a.ScenarioCount() && i < b.ScenarioCount()
    requires a.scenarios[i] == b.scenarios[i]
    ensures Execute(trade, a, expand, perScenario)[i] == Execute(trade, b, expand, perScenario)[i]
  {
  }

  /** Adding scenarios at the end leaves the results of the earlier ones as
      they were, and appends the results of the new ones. */
  lemma ExecuteDistributesOverScenarios<T>(trade: FraTrade, a: seq<ImmutableRatesProvider>, b: seq<ImmutableRatesProvider>,
                                           expand: FraExpansion, perScenario: (ExpandedFra, ImmutableRatesProvider) -> T)
    ensures Execute(trade, CalculationMarketData(a + b), expand, perScenario)
      == Execute(trade, CalculationMarketData(a), expand, perScenario)
         + Execute(trade, CalculationMarketData(b), expand, perScenario)
  {
    var whole := Execute(trade, CalculationMarketData(a + b), expand, perScenario);
    var left := Execute(trade, CalculationMarketData(a), expand, perScenario);
    var right := Execute(trade, CalculationMarketData(b), expand, perScenario);
    assert |whole| == |left + right|;
    forall i | 0 <= i < |whole| ensures whole[i] == (left + right)[i] {
      if i < |a| {
        assert (a + b)[i] == a[i];
      } else {
        assert (a + b)[i] == b[i - |a|];
      }
    }
  }
}
