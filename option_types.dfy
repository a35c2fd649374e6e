/**
 * The records the pricing components exchange (components/types.ts).
 *
 * Fields that the source holds as decimal strings produced by `toFixed` (the prices, the
 * delta and the volatility percentage of a calculation result) are modelled by the decimal
 * value the string spells; `parseFloat` of such a string gives that value back.
 */
module OptionTypes {

  /** The six scalar inputs of a Black-Scholes calculation. */
  datatype OptionInputs = OptionInputs(
    stockPrice: real,
    strikePrice: real,
    interestRate: real,
    dividendYield: real,
    timeToExpiration: real,
    volatility: real)

  /**
   * The result of one calculation. `impliedVolatility` is the number in front of the `%`
   * sign of the source's string; `timestamp` is an ISO date string supplied by the caller.
   */
  datatype CalculationResult = CalculationResult(
    callOptionPrice: real,
    putOptionPrice: real,
    impliedVolatility: real,
    delta: real,
    timestamp: string)

  /** One row of the volatility sweep; `volatility` is in percent. */
  datatype HeatMapData = HeatMapData(volatility: real, callPrice: real, putPrice: real, delta: real)

  datatype OptionKind = Call | Put

  datatype Action = Buy | Sell | Hold

  datatype Confidence = High | Medium | Low

  /** A recommendation of the server action; the free-text `reason` is not modelled. */
  datatype OptionRecommendation = OptionRecommendation(
    kind: OptionKind,
    action: Action,
    confidence: Confidence,
    theoreticalPrice: real,
    marketPrice: real,
    priceDifference: real)
}
