/** The market convention for term deposits: how a trade date, a deposit
    period and the trade's economics become a term deposit trade. */
module TermDeposits {
  import opened Basics

  /** A business day adjustment: a rolling convention applied against a holiday calendar. */
  datatype BusinessDayAdjustment = BusinessDayAdjustment(convention: string, calendar: string)

  /** The adjustment that leaves every date as it is. */
  const NoAdjustment := BusinessDayAdjustment("NoAdjust", "NoHolidays")

  /** A shift of a date by a number of business days. Its holiday arithmetic is supplied from outside the model. */
  datatype DaysAdjustment = DaysAdjustment(name: string, adjust: Date -> Date)

  /** A period of years, months and days. */
  datatype Period = Period(years: int, months: int, days: int)

  /** Calendar addition of a period to a date (`LocalDate.plus(Period)`), supplied from outside the model. */
  type PeriodAddition = (Date, Period) -> Date

  /** A validated term deposit convention. The business day adjustment is optional. */
  datatype TermDepositConvention = TermDepositConvention(
    currency: Currency,
    businessDayAdjustment: Option<BusinessDayAdjustment>,
    dayCount: DayCount,
    spotDateOffset: DaysAdjustment)

  /** The builder: every field may still be unset. */
  datatype ConventionBuilder = ConventionBuilder(
    currency: Option<Currency>,
    businessDayAdjustment: Option<BusinessDayAdjustment>,
    dayCount: Option<DayCount>,
    spotDateOffset: Option<DaysAdjustment>)

  /** `builder()`: nothing set. */
  function EmptyConventionBuilder(): (b: ConventionBuilder)
    ensures b.currency.None? && b.businessDayAdjustment.None? && b.dayCount.None? && b.spotDateOffset.None?
  {
    ConventionBuilder(None, None, None, None)
  }

  /** `toBuilder()`: a builder holding the convention's fields. */
  function ToBuilder(c: TermDepositConvention): (b: ConventionBuilder)
    ensures b.currency == Some(c.currency) && b.dayCount == Some(c.dayCount) && b.spotDateOffset == Some(c.spotDateOffset)
    ensures b.businessDayAdjustment == c.businessDayAdjustment
  {
    ConventionBuilder(Some(c.currency), c.businessDayAdjustment, Some(c.dayCount), Some(c.spotDateOffset))
  }

  /** `build()`: the constructor checks that currency, day count and spot
      date offset are set, in that order, and copies every field. */
  function Build(b: ConventionBuilder): (r: Result<TermDepositConvention>)
    ensures r.Success? <==> b.currency.Some? && b.dayCount.Some? && b.spotDateOffset.Some?
    ensures b.currency.None? ==> r == Failure(MissingField("currency"))
    ensures b.currency.Some? && b.dayCount.None? ==> r == Failure(MissingField("dayCount"))
    ensures b.currency.Some? && b.dayCount.Some? && b.spotDateOffset.None? ==> r == Failure(MissingField("spotDateOffset"))
    ensures r.Success? ==>
      && Some(r.value.currency) == b.currency
      && r.value.businessDayAdjustment == b.businessDayAdjustment
      && Some(r.value.dayCount) == b.dayCount
      && Some(r.value.spotDateOffset) == b.spotDateOffset
  {
    if b.currency.None? then Failure(MissingField("currency"))
    else if b.dayCount.None? then Failure(MissingField("dayCount"))
    else if b.spotDateOffset.None? then Failure(MissingField("spotDateOffset"))
    else Success(TermDepositConvention(b.currency.value, b.businessDayAdjustment, b.dayCount.value, b.spotDateOffset.value))
  }

  /** `getBusinessDayAdjustment`: the stored adjustment, or no adjustment when none is stored. */
  function GetBusinessDayAdjustment(c: TermDepositConvention): (r: BusinessDayAdjustment)
    ensures c.businessDayAdjustment.Some? ==> r == c.businessDayAdjustment.value
    ensures c.businessDayAdjustment.None? ==> r == NoAdjustment
  {
    if c.businessDayAdjustment.Some? then c.businessDayAdjustment.value else NoAdjustment
  }

  /** A term deposit: the principal is exchanged at the start date and repaid
      with interest at the end date. The notional is unsigned; the direction
      is the buy/sell flag. */
  datatype TermDeposit = TermDeposit(
    buySell: BuySell,
    currency: Currency,
    notional: real,
    startDate: Date,
    endDate: Date,
    businessDayAdjustment: Option<BusinessDayAdjustment>,
    rate: real,
    dayCount: DayCount)

  /** A trade in a term deposit. */
  datatype TermDepositTrade = TermDepositTrade(tradeInfo: TradeInfo, product: TermDeposit)

  /** `toTrade` from explicit dates: fails when the trade date is after the
      start date; otherwise a trade dated `tradeDate` whose product takes the
      convention's currency, day count and raw (undefaulted) business day
      adjustment, and the given direction, notional, rate and dates. */
  function ToTrade(c: TermDepositConvention, tradeDate: Date, startDate: Date, endDate: Date,
                   buySell: BuySell, notional: real, rate: real): (r: Result<TermDepositTrade>)
    ensures r.Success? <==> tradeDate <= startDate
    ensures r.Failure? ==> r.error == DatesOutOfOrder("tradeDate", "startDate")
    ensures r.Success? ==>
      && r.value.tradeInfo.tradeDate == Some(tradeDate)
      && r.value.product.buySell == buySell
      && r.value.product.currency == c.currency
      && r.value.product.notional == notional
      && r.value.product.startDate == startDate
      && r.value.product.endDate == endDate
      && r.value.product.businessDayAdjustment == c.businessDayAdjustment
      && r.value.product.rate == rate
      && r.value.product.dayCount == c.dayCount
  {
    if tradeDate > startDate then Failure(DatesOutOfOrder("tradeDate", "startDate"))
    else
      Success(TermDepositTrade(
        TradeInfo(Some(tradeDate)),
        TermDeposit(buySell, c.currency, notional, startDate, endDate, c.businessDayAdjustment, rate, c.dayCount)))
  }

  /** `toTrade` from a deposit period: the start date is the spot date of the
      trade date, the end date the start date plus the period. */
  function ToTradeFromPeriod(c: TermDepositConvention, tradeDate: Date, depositPeriod: Period, plus: PeriodAddition,
                             buySell: BuySell, notional: real, rate: real): (r: Result<TermDepositTrade>)
    ensures r.Success? <==> tradeDate <= c.spotDateOffset.adjust(tradeDate)
    ensures r.Success? ==>
      && r.value.product.startDate == c.spotDateOffset.adjust(tradeDate)
      && r.value.product.endDate == plus(c.spotDateOffset.adjust(tradeDate), depositPeriod)
  {
    var startDate := c.spotDateOffset.adjust(tradeDate);
    var endDate := plus(startDate, depositPeriod);
    ToTrade(c, tradeDate, startDate, endDate, buySell, notional, rate)
  }

  // ---------------------------------------------------------------------
  // Properties

  /** A convention rebuilt from its own builder is the same convention. */
  lemma BuildToBuilderRoundTrip(c: TermDepositConvention)
    ensures Build(ToBuilder(c)) == Success(c)
  {
  }

  /** The business day adjustment is optional: a builder with the three
      required fields builds whether or not the adjustment is set, and the
      absent adjustment reads back as no adjustment. */
  lemma AdjustmentIsOptional(currency: Currency, dayCount: DayCount, spotDateOffset: DaysAdjustment)
    ensures var b := ConventionBuilder(Some(currency), None, Some(dayCount), Some(spotDateOffset));
      && Build(b).Success?
      && GetBusinessDayAdjustment(Build(b).value) == NoAdjustment
      && Build(b).value.businessDayAdjustment.None?
  {
  }

  /** The period overload is the date overload applied to the spot date and
      the spot date plus the period. */
  lemma PeriodOverloadDelegates(c: TermDepositConvention, tradeDate: Date, depositPeriod: Period, plus: PeriodAddition,
                                buySell: BuySell, notional: real, rate: real)
    ensures var startDate := c.spotDateOffset.adjust(tradeDate);
      ToTradeFromPeriod(c, tradeDate, depositPeriod, plus, buySell, notional, rate)
        == ToTrade(c, tradeDate, startDate, plus(startDate, depositPeriod), buySell, notional, rate)
  {
  }

  /** A spot date offset that never moves a date backwards makes the period
      overload always succeed, with the trade dated on the trade date. */
  lemma ForwardSpotOffsetNeverFails(c: TermDepositConvention, tradeDate: Date, depositPeriod: Period, plus: PeriodAddition,
                                    buySell: BuySell, notional: real, rate: real)
    requires forall d: Date :: c.spotDateOffset.adjust(d) >= d
    ensures ToTradeFromPeriod(c, tradeDate, depositPeriod, plus, buySell, notional, rate).Success?
    ensures ToTradeFromPeriod(c, tradeDate, depositPeriod, plus, buySell, notional, rate).value.tradeInfo.tradeDate
              == Some(tradeDate)
  {
  }

  /** The trade keeps the stored adjustment, so its defaulted reading agrees
      with the convention's getter. */
  lemma TradeAdjustmentMatchesGetter(c: TermDepositConvention, tradeDate: Date, startDate: Date, endDate: Date,
                                     buySell: BuySell, notional: real, rate: real)
    requires tradeDate <= startDate
    ensures var adj := ToTrade(c, tradeDate, startDate, endDate, buySell, notional, rate).value.product.businessDayAdjustment;
      (if adj.Some? then adj.value else NoAdjustment) == GetBusinessDayAdjustment(c)
  {
  }
}
