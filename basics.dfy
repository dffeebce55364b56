/** Value types shared by every part of the rates model: dates, currencies,
    indices, day counts, amounts, and the failure-carrying result type. */
module Basics {

  /** A date, as a count of days since the epoch (`LocalDate.toEpochDay`). */
  type Date = int

  /** An ISO currency, identified by its three-letter code. */
  datatype Currency = Currency(code: string)

  /** A rate index: an Ibor index (fixing over a tenor), an overnight index,
      or an FX index fixing the rate of one currency pair. */
  datatype Index =
    | IborIndex(name: string)
    | OvernightIndex(name: string)
    | FxIndex(name: string, base: Currency, counter: Currency)

  /** A day count convention. Its year-fraction arithmetic is supplied from outside the model. */
  datatype DayCount = DayCount(name: string, yearFraction: (Date, Date) -> real)

  /** An amount of money in one currency. */
  datatype CurrencyAmount = CurrencyAmount(currency: Currency, amount: real)

  /** The zero amount in a currency. */
  function Zero(currency: Currency): (r: CurrencyAmount)
    ensures r.currency == currency && r.amount == 0.0
  {
    CurrencyAmount(currency, 0.0)
  }

  /** The direction of a trade. */
  datatype BuySell = Buy | Sell

  /** Trade details other than the product; here only the trade date. */
  datatype TradeInfo = TradeInfo(tradeDate: Option<Date>)

  datatype Option<+T> = None | Some(value: T)

  /** The reasons an operation of the model can fail. */
  datatype Error =
    | MissingDiscountCurve(currency: Currency)
    | MissingIndexCurve(index: Index)
    | MissingFxRate(base: Currency, counter: Currency)
    | MissingAdditionalData(dataType: string)
    | InvalidAdditionalData
    | MissingField(field: string)
    | DatesOutOfOrder(first: string, second: string)
    | DivisionByZero

  /** Either a value or the reason it could not be produced. */
  datatype Result<+T> = Success(value: T) | Failure(error: Error)
}
