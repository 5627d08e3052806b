/** The parameter records shared by the validator and the pricing code
    (sos_programs/common/src/types.rs). Every f64 field is a `real`, every i64 an `int`. */
module Types {
  /** The four positions an option account can describe. */
  datatype OptionType = LongCall | ShortCall | LongPut | ShortPut {
    /** The writer's side; the pricing code gives these no formula of their own. */
    predicate IsShort() {
      ShortCall? || ShortPut?
    }
  }

  /** Sensitivities of the price to spot (delta, gamma), time (theta),
      volatility (vega) and rate (rho). */
  datatype OptionGreeks = OptionGreeks(delta: real, theta: real, gamma: real, vega: real, rho: real)

  /** Contract terms. `initialTimeToExpiry` holds the absolute expiry timestamp in
      seconds (the validator reads the same field under the name `time_until_expiry`). */
  datatype OptionParams = OptionParams(
    optionType: OptionType,
    strikePrice: real,
    initialTimeToExpiry: int,
    creationPrice: real,
    greeks: OptionGreeks)

  /** Market statistics of the underlying token. */
  datatype TokenParams = TokenParams(
    spotPrice: real,
    historicalVolatility: real,
    riskFreeRate: real,
    timestamp: int)

  /** Market-wide context of one valuation. */
  datatype MarketParams = MarketParams(
    usdcRiskFreeRate: real,
    timeInYears: real,
    currentTimestamp: int)

  /** All-zero greeks, as a freshly built option carries before pricing. */
  const NoGreeks := OptionGreeks(0.0, 0.0, 0.0, 0.0, 0.0)
}
