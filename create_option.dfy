/** The pricing core of the create_option instruction (sos_programs/option_create/src/lib.rs):
    validate the parameters, and only on acceptance compute the creation price and greeks. */
module CreateOption {
  import opened Types
  import opened Numerics
  import opened Constants
  import opened ValidateOption
  import opened BlackScholes

  /** What the instruction stores on success, or the validator's error. */
  datatype Creation = Created(creationPrice: real, greeks: OptionGreeks) | Rejected(error: OptionError)

  /** Accepted parameters put the pricing formulas in their domain: the time to expiry
      lies in [1/365, 1] years, strike, spot and volatility are positive (volatility at
      least 1%), the rate is non-negative, and with sound primitives sigma sqrt(tau) > 0. */
  lemma AcceptedImpliesPricingDomain(p: Primitives, option: OptionParams, token: TokenParams, market: MarketParams)
    requires ValidateOptionParameters(option, token, market) == Ok
    ensures var tau := Tau(option, market);
      && 1.0 / 365.0 <= tau <= 1.0
      && option.strikePrice > 0.0
      && token.spotPrice > 0.0
      && token.historicalVolatility >= MinVolatility
      && token.riskFreeRate >= 0.0
    ensures Sound(p) ==>
      && PricingDomain(p, option, token, market)
      && token.historicalVolatility * p.sqrt(Tau(option, market)) > 0.0
  {
    WindowsNonEmpty();
    YearConstants();
    if Sound(p) {
      ScaledVolatilityPositive(p, option, token, market);
    }
  }

  /** Validate, then price. A rejection carries the validator's error; an acceptance
      carries the price and greeks of the pricing functions, which are then defined. */
  function CreateOption(p: Primitives, option: OptionParams, token: TokenParams, market: MarketParams): (r: Creation)
    requires Sound(p)
    ensures r.Rejected? <==> ValidateOptionParameters(option, token, market).Err?
    ensures r.Rejected? ==> r.error == ValidateOptionParameters(option, token, market).error
    ensures r.Created? ==>
      && PricingDomain(p, option, token, market)
      && r.creationPrice == CalcOptionPrice(p, option, token, market)
      && r.greeks == CalcGreeks(p, option, token, market)
  {
    match ValidateOptionParameters(option, token, market)
    case Err(e) => Rejected(e)
    case Ok =>
      AcceptedImpliesPricingDomain(p, option, token, market);
      Created(CalcOptionPrice(p, option, token, market), CalcGreeks(p, option, token, market))
  }
}
