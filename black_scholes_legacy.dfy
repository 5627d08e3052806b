/** The older pricing module (sos_programs/common/src/utils.rs). It differs from
    BlackScholes in three ways: it exposes an expiry check, it factors d2 into its
    own function, and its long-put price is the negated long-call price. */
module BlackScholesLegacy {
  import opened Types
  import opened Numerics
  import BlackScholes
  import ValidateOption

  /** An option is expired once the current time reaches its expiry, which is exactly
      when no positive time to expiry is left. */
  function IsOptionExpired(initialExpiry: int, currentTimestamp: int): (expired: bool)
    ensures expired <==> !(BlackScholes.CalcTimeToExpiry(initialExpiry, currentTimestamp) > 0.0)
  {
    currentTimestamp >= initialExpiry
  }

  /** Same conversion as the current module's. */
  function CalcTimeToExpiry(initialExpiry: int, currentTimestamp: int): (tau: real)
    ensures tau == BlackScholes.CalcTimeToExpiry(initialExpiry, currentTimestamp)
  {
    var secondsInAYear := 31_536_000.0;
    var timeDifference := initialExpiry - currentTimestamp;
    timeDifference as real / secondsInAYear
  }

  /** Same d1 as the current module's. */
  function CalcD1(p: Primitives, spotPrice: real, strikePrice: real, riskFreeRate: real,
                  volatility: real, timeToExpiry: real): (d1: real)
    requires strikePrice != 0.0 && volatility * p.sqrt(timeToExpiry) != 0.0
    ensures d1 == BlackScholes.CalcD1(p, spotPrice, strikePrice, riskFreeRate, volatility, timeToExpiry)
  {
    var numerator := p.ln(spotPrice / strikePrice) + (riskFreeRate + 0.5 * volatility * volatility) * timeToExpiry;
    var denominator := volatility * p.sqrt(timeToExpiry);
    numerator / denominator
  }

  /** d2 = d1 - sigma sqrt(tau); strictly below d1 for a positive volatility and time. */
  function CalcD2(p: Primitives, d1: real, volatility: real, timeToExpiry: real): (d2: real)
    ensures d2 == BlackScholes.D2FromD1(p, d1, volatility, timeToExpiry)
    ensures Sound(p) && volatility > 0.0 && timeToExpiry > 0.0 ==> d2 < d1
  {
    d1 - volatility * p.sqrt(timeToExpiry)
  }

  /** Option price as this module writes it: the long call agrees with the current
      module, the short types are 0.0, and the long put is N(d2) K e^(-r tau) - N(d1) S. */
  function CalcOptionPrice(p: Primitives, option: OptionParams, token: TokenParams, market: MarketParams): (price: real)
    requires BlackScholes.PricingDomain(p, option, token, market)
    ensures option.optionType.IsShort() ==> price == 0.0
    ensures option.optionType == LongCall ==> price == BlackScholes.CalcOptionPrice(p, option, token, market)
  {
    BlackScholes.ScaledVolatilityPositive(p, option, token, market);
    var d1 := CalcD1(p, token.spotPrice, option.strikePrice, token.riskFreeRate, token.historicalVolatility,
                     CalcTimeToExpiry(option.initialTimeToExpiry, market.currentTimestamp));
    var d2 := CalcD2(p, d1, token.historicalVolatility,
                     CalcTimeToExpiry(option.initialTimeToExpiry, market.currentTimestamp));
    var nd1 := p.normalCdf(d1);
    var nd2 := p.normalCdf(d2);
    match option.optionType
    case LongCall =>
      nd1 * token.spotPrice
      - nd2 * option.strikePrice
        * BlackScholes.Discount(p, token.riskFreeRate, CalcTimeToExpiry(option.initialTimeToExpiry, market.currentTimestamp))
    case LongPut =>
      nd2 * option.strikePrice
        * BlackScholes.Discount(p, token.riskFreeRate, CalcTimeToExpiry(option.initialTimeToExpiry, market.currentTimestamp))
      - nd1 * token.spotPrice
    case _ => 0.0
  }

  /** The greeks, with the same formulas as the current module (see
      `LegacyGreeksMatchCurrent`): delta, theta and rho are 0.0 for the short types. */
  function CalcGreeks(p: Primitives, option: OptionParams, token: TokenParams, market: MarketParams): (greeks: OptionGreeks)
    requires BlackScholes.PricingDomain(p, option, token, market)
    ensures option.optionType.IsShort() ==> greeks.delta == 0.0 && greeks.theta == 0.0 && greeks.rho == 0.0
  {
    BlackScholes.DivisorsPositive(p, token.spotPrice, token.historicalVolatility,
                                  CalcTimeToExpiry(option.initialTimeToExpiry, market.currentTimestamp));
    var timeToExpiry := CalcTimeToExpiry(option.initialTimeToExpiry, market.currentTimestamp);
    var d1 := CalcD1(p, token.spotPrice, option.strikePrice, token.riskFreeRate, token.historicalVolatility, timeToExpiry);
    var d2 := CalcD2(p, d1, token.historicalVolatility, timeToExpiry);
    var nd1 := p.normalCdf(d1);
    var npd1 := p.normalPdf(d1);
    var delta :=
      match option.optionType
      case LongCall => nd1
      case LongPut => nd1 - 1.0
      case _ => 0.0;
    var gamma := npd1 / (token.spotPrice * token.historicalVolatility * p.sqrt(timeToExpiry));
    var theta :=
      match option.optionType
      case LongCall =>
        -(token.spotPrice * npd1 * token.historicalVolatility) / (2.0 * p.sqrt(timeToExpiry))
        - token.riskFreeRate * option.strikePrice * BlackScholes.Discount(p, token.riskFreeRate, timeToExpiry) * p.normalCdf(d2)
      case LongPut =>
        -(token.spotPrice * npd1 * token.historicalVolatility) / (2.0 * p.sqrt(timeToExpiry))
        + token.riskFreeRate * option.strikePrice * BlackScholes.Discount(p, token.riskFreeRate, timeToExpiry) * (1.0 - p.normalCdf(d2))
      case _ => 0.0;
    var vega := token.spotPrice * npd1 * p.sqrt(timeToExpiry);
    var rho :=
      match option.optionType
      case LongCall => option.strikePrice * p.exp(timeToExpiry) * p.normalCdf(d2)
      case LongPut => -option.strikePrice * p.exp(timeToExpiry) * (1.0 - p.normalCdf(d2))
      case _ => 0.0;
    OptionGreeks(delta, theta, gamma, vega, rho)
  }

  /** Both modules compute the same five greeks for every input and option type:
      the LongPut delta is the LongCall delta minus one, gamma and vega are shared by
      all types, and rho carries e^(tau) in both. */
  lemma LegacyGreeksMatchCurrent(p: Primitives, option: OptionParams, token: TokenParams, market: MarketParams)
    requires BlackScholes.PricingDomain(p, option, token, market)
    ensures CalcGreeks(p, option, token, market) == BlackScholes.CalcGreeks(p, option, token, market)
  {
    BlackScholes.DivisorsPositive(p, token.spotPrice, token.historicalVolatility,
                                  CalcTimeToExpiry(option.initialTimeToExpiry, market.currentTimestamp));
    var legacy := CalcGreeks(p, option, token, market);
    assert legacy.delta == BlackScholes.Delta(p, option.optionType,
      CalcD1(p, token.spotPrice, option.strikePrice, token.riskFreeRate, token.historicalVolatility,
             CalcTimeToExpiry(option.initialTimeToExpiry, market.currentTimestamp)));
    assert legacy.gamma == BlackScholes.Gamma(p, token.spotPrice, token.historicalVolatility,
      CalcTimeToExpiry(option.initialTimeToExpiry, market.currentTimestamp),
      CalcD1(p, token.spotPrice, option.strikePrice, token.riskFreeRate, token.historicalVolatility,
             CalcTimeToExpiry(option.initialTimeToExpiry, market.currentTimestamp)));
    assert legacy.vega == BlackScholes.Vega(p, token.spotPrice,
      CalcTimeToExpiry(option.initialTimeToExpiry, market.currentTimestamp),
      CalcD1(p, token.spotPrice, option.strikePrice, token.riskFreeRate, token.historicalVolatility,
             CalcTimeToExpiry(option.initialTimeToExpiry, market.currentTimestamp)));
  }

  /** The expiry check and the validator's first guard are complementary: an option is
      expired exactly when validation stops at InvalidExpiryTimestamp. */
  lemma ExpiredIffFirstGuardFails(option: OptionParams, token: TokenParams, market: MarketParams)
    ensures IsOptionExpired(option.initialTimeToExpiry, market.currentTimestamp)
        <==> ValidateOption.ValidateOptionParameters(option, token, market) == ValidateOption.Err(ValidateOption.InvalidExpiryTimestamp)
  {
  }

  /** This module's long-put price is the long-call price negated. */
  lemma LegacyPutIsNegatedCall(p: Primitives, option: OptionParams, token: TokenParams, market: MarketParams)
    requires BlackScholes.PricingDomain(p, option, token, market)
    ensures CalcOptionPrice(p, option.(optionType := LongPut), token, market)
         == -CalcOptionPrice(p, option.(optionType := LongCall), token, market)
  {
  }

  /** An at-the-money one-year option: spot and strike 100, 20% volatility, 5% rate. */
  function AtTheMoneyOption(): OptionParams {
    OptionParams(LongCall, 100.0, 31_536_000, 0.0, NoGreeks)
  }

  function AtTheMoneyToken(): TokenParams {
    TokenParams(100.0, 0.2, 0.05, 0)
  }

  function AtTheMoneyMarket(): MarketParams {
    MarketParams(0.05, 1.0, 0)
  }

  /** Put-call parity fails for this module's put: on the at-the-money option, with the
      sound step-function primitives (N(d1) = N(d2) = 1, e^(-r tau) = 0.95), call minus
      put is 10 while S - K e^(-r tau) is 5. The current module satisfies parity for all
      sound primitives (BlackScholes.PutCallParity). */
  lemma LegacyPutBreaksParity()
    ensures var p, o, t, m := StepPrimitives(), AtTheMoneyOption(), AtTheMoneyToken(), AtTheMoneyMarket();
      && BlackScholes.PricingDomain(p, o, t, m)
      && CalcOptionPrice(p, o.(optionType := LongCall), t, m) - CalcOptionPrice(p, o.(optionType := LongPut), t, m)
         != t.spotPrice - o.strikePrice * BlackScholes.Discount(p, t.riskFreeRate, CalcTimeToExpiry(o.initialTimeToExpiry, m.currentTimestamp))
  {
    var p, o, t, m := StepPrimitives(), AtTheMoneyOption(), AtTheMoneyToken(), AtTheMoneyMarket();
    var tau := CalcTimeToExpiry(o.initialTimeToExpiry, m.currentTimestamp);
    assert tau == 1.0;
    var d1 := CalcD1(p, t.spotPrice, o.strikePrice, t.riskFreeRate, t.historicalVolatility, tau);
    assert d1 == 0.35;
    assert CalcD2(p, d1, t.historicalVolatility, tau) == 0.15;
    assert BlackScholes.Discount(p, t.riskFreeRate, tau) == 0.95;
    assert CalcOptionPrice(p, o.(optionType := LongCall), t, m) == 5.0;
  }
}
