/** Black-Scholes price and greeks as the option-creation program calls them
    (sos_programs/common/src/utils/mod.rs). The transcendental primitives are the
    parameter `p` (see module Numerics); only the arithmetic and the case structure
    over option types are modelled, exactly as written. */
module BlackScholes {
  import opened Types
  import opened Numerics
  import Constants

  /** Years between the current time and the expiry, on a 365-day year. */
  function CalcTimeToExpiry(initialExpiry: int, currentTimestamp: int): (tau: real)
    ensures tau * (Constants.SecondsInYear as real) == (initialExpiry - currentTimestamp) as real
    ensures tau > 0.0 <==> initialExpiry > currentTimestamp
  {
    var secondsInAYear := 31_536_000.0;
    var timeDiff := initialExpiry - currentTimestamp;
    timeDiff as real / secondsInAYear
  }

  /** d1 = [ln(S/K) + (r + sigma^2/2) tau] / (sigma sqrt(tau)). The divisions are only
      defined for a non-zero strike and a non-zero sigma sqrt(tau). */
  function CalcD1(p: Primitives, spotPrice: real, strikePrice: real, riskFreeRate: real,
                  volatility: real, timeToExpiry: real): (d1: real)
    requires strikePrice != 0.0 && volatility * p.sqrt(timeToExpiry) != 0.0
    ensures d1 * (volatility * p.sqrt(timeToExpiry))
         == p.ln(spotPrice / strikePrice) + (riskFreeRate + 0.5 * volatility * volatility) * timeToExpiry
  {
    var numerator := p.ln(spotPrice / strikePrice) + (riskFreeRate + 0.5 * volatility * volatility) * timeToExpiry;
    var denominator := volatility * p.sqrt(timeToExpiry);
    numerator / denominator
  }

  /** d2 = d1 - sigma sqrt(tau), which both pricing functions compute inline; with a
      positive volatility and time to expiry it lies strictly below d1. */
  function D2FromD1(p: Primitives, d1: real, volatility: real, timeToExpiry: real): (d2: real)
    ensures Sound(p) && volatility > 0.0 && timeToExpiry > 0.0 ==> d2 < d1
  {
    d1 - volatility * p.sqrt(timeToExpiry)
  }

  /** The discount factor e^(-r tau). */
  function Discount(p: Primitives, riskFreeRate: real, timeToExpiry: real): real {
    p.exp(-riskFreeRate * timeToExpiry)
  }

  /** The inputs on which the formulas are defined: sound primitives, positive spot,
      strike and volatility, and an expiry strictly after the current time. The
      validator's acceptance establishes it (CreateOption.AcceptedImpliesPricingDomain). */
  ghost predicate PricingDomain(p: Primitives, option: OptionParams, token: TokenParams, market: MarketParams) {
    && Sound(p)
    && token.spotPrice > 0.0
    && option.strikePrice > 0.0
    && token.historicalVolatility > 0.0
    && option.initialTimeToExpiry > market.currentTimestamp
  }

  /** For a positive spot, volatility and time to expiry, the divisors of the formulas
      (sqrt(tau), sigma sqrt(tau) and S sigma sqrt(tau)) are positive. */
  lemma DivisorsPositive(p: Primitives, spotPrice: real, volatility: real, timeToExpiry: real)
    requires Sound(p) && spotPrice > 0.0 && volatility > 0.0 && timeToExpiry > 0.0
    ensures p.sqrt(timeToExpiry) > 0.0
    ensures volatility * p.sqrt(timeToExpiry) > 0.0
    ensures spotPrice * volatility * p.sqrt(timeToExpiry) > 0.0
  {
  }

  /** Within the pricing domain tau is positive and so are the divisors of the formulas. */
  lemma ScaledVolatilityPositive(p: Primitives, option: OptionParams, token: TokenParams, market: MarketParams)
    requires PricingDomain(p, option, token, market)
    ensures var tau := CalcTimeToExpiry(option.initialTimeToExpiry, market.currentTimestamp);
      && tau > 0.0 && p.sqrt(tau) > 0.0
      && token.historicalVolatility * p.sqrt(tau) > 0.0
      && token.spotPrice * token.historicalVolatility * p.sqrt(tau) > 0.0
  {
    DivisorsPositive(p, token.spotPrice, token.historicalVolatility,
                     CalcTimeToExpiry(option.initialTimeToExpiry, market.currentTimestamp));
  }

  /** The time to expiry, d1 and d2 of the given parameters, as both pricing functions compute them. */
  function Tau(option: OptionParams, market: MarketParams): real {
    CalcTimeToExpiry(option.initialTimeToExpiry, market.currentTimestamp)
  }

  function D1(p: Primitives, option: OptionParams, token: TokenParams, market: MarketParams): real
    requires PricingDomain(p, option, token, market)
  {
    ScaledVolatilityPositive(p, option, token, market);
    CalcD1(p, token.spotPrice, option.strikePrice, token.riskFreeRate, token.historicalVolatility, Tau(option, market))
  }

  function D2(p: Primitives, option: OptionParams, token: TokenParams, market: MarketParams): real
    requires PricingDomain(p, option, token, market)
  {
    D2FromD1(p, D1(p, option, token, market), token.historicalVolatility, Tau(option, market))
  }

  /** Option price. Long call and long put follow the Black-Scholes formulas; both short
      types fall through to 0.0 (there is no mirrored short-position convention). */
  function CalcOptionPrice(p: Primitives, option: OptionParams, token: TokenParams, market: MarketParams): (price: real)
    requires PricingDomain(p, option, token, market)
    ensures option.optionType.IsShort() ==> price == 0.0
  {
    var timeToExpiry := Tau(option, market);
    var d1 := D1(p, option, token, market);
    var d2 := D2(p, option, token, market);
    var nd1 := p.normalCdf(d1);
    var nd2 := p.normalCdf(d2);
    match option.optionType
    case LongCall =>
      nd1 * token.spotPrice - nd2 * option.strikePrice * Discount(p, token.riskFreeRate, timeToExpiry)
    case LongPut =>
      var nNegD1 := p.normalCdf(-d1);
      var nNegD2 := p.normalCdf(-d2);
      option.strikePrice * Discount(p, token.riskFreeRate, timeToExpiry) * nNegD2 - token.spotPrice * nNegD1
    case _ => 0.0
  }

  /** Delta: N(d1) for a long call, N(d1) - 1 for a long put, 0.0 for the short types.
      With N a probability, the long-call delta lies in [0, 1] and the long-put delta in [-1, 0]. */
  function Delta(p: Primitives, optionType: OptionType, d1: real): (delta: real)
    ensures optionType.IsShort() ==> delta == 0.0
    ensures Sound(p) && optionType == LongCall ==> 0.0 <= delta <= 1.0
    ensures Sound(p) && optionType == LongPut ==> -1.0 <= delta <= 0.0
  {
    match optionType
    case LongCall => p.normalCdf(d1)
    case LongPut => p.normalCdf(d1) - 1.0
    case _ => 0.0
  }

  /** Gamma: n(d1) / (S sigma sqrt(tau)), one expression for every option type.
      It scales the density by the divisor, and is never negative when the divisor is positive. */
  function Gamma(p: Primitives, spotPrice: real, volatility: real, timeToExpiry: real, d1: real): (gamma: real)
    requires spotPrice * volatility * p.sqrt(timeToExpiry) != 0.0
    ensures gamma * (spotPrice * volatility * p.sqrt(timeToExpiry)) == p.normalPdf(d1)
    ensures Sound(p) && spotPrice * volatility * p.sqrt(timeToExpiry) > 0.0 ==> gamma >= 0.0
  {
    p.normalPdf(d1) / (spotPrice * volatility * p.sqrt(timeToExpiry))
  }

  /** Theta: the decay term -S n(d1) sigma / (2 sqrt(tau)), minus r K e^(-r tau) N(d2) for a
      long call, plus r K e^(-r tau) (1 - N(d2)) for a long put; 0.0 for the short types. */
  function Theta(p: Primitives, optionType: OptionType, spotPrice: real, strikePrice: real, riskFreeRate: real,
                 volatility: real, timeToExpiry: real, d1: real, d2: real): (theta: real)
    requires p.sqrt(timeToExpiry) != 0.0
    ensures optionType.IsShort() ==> theta == 0.0
  {
    match optionType
    case LongCall =>
      -(spotPrice * p.normalPdf(d1) * volatility) / (2.0 * p.sqrt(timeToExpiry))
      - riskFreeRate * strikePrice * Discount(p, riskFreeRate, timeToExpiry) * p.normalCdf(d2)
    case LongPut =>
      -(spotPrice * p.normalPdf(d1) * volatility) / (2.0 * p.sqrt(timeToExpiry))
      + riskFreeRate * strikePrice * Discount(p, riskFreeRate, timeToExpiry) * (1.0 - p.normalCdf(d2))
    case _ => 0.0
  }

  /** Vega: S n(d1) sqrt(tau), one expression for every option type; never negative
      for a non-negative spot and a positive time to expiry. */
  function Vega(p: Primitives, spotPrice: real, timeToExpiry: real, d1: real): (vega: real)
    ensures Sound(p) && spotPrice >= 0.0 && timeToExpiry > 0.0 ==> vega >= 0.0
  {
    spotPrice * p.normalPdf(d1) * p.sqrt(timeToExpiry)
  }

  /** Rho as written: K e^(tau) N(d2) for a long call and -K e^(tau) (1 - N(d2)) for a long
      put, 0.0 for the short types. The exponent is the time to expiry alone -- no -r
      factor and no tau multiplier -- where the textbook has K tau e^(-r tau) N(d2). */
  function Rho(p: Primitives, optionType: OptionType, strikePrice: real, timeToExpiry: real, d2: real): (rho: real)
    ensures optionType.IsShort() ==> rho == 0.0
  {
    match optionType
    case LongCall => strikePrice * p.exp(timeToExpiry) * p.normalCdf(d2)
    case LongPut => -strikePrice * p.exp(timeToExpiry) * (1.0 - p.normalCdf(d2))
    case _ => 0.0
  }

  /** The five greeks at the time to expiry, d1 and d2 that the price also uses. */
  function CalcGreeks(p: Primitives, option: OptionParams, token: TokenParams, market: MarketParams): (greeks: OptionGreeks)
    requires PricingDomain(p, option, token, market)
    ensures option.optionType.IsShort() ==> greeks.delta == 0.0 && greeks.theta == 0.0 && greeks.rho == 0.0
  {
    ScaledVolatilityPositive(p, option, token, market);
    var timeToExpiry := Tau(option, market);
    var d1 := D1(p, option, token, market);
    var d2 := D2(p, option, token, market);
    OptionGreeks(
      Delta(p, option.optionType, d1),
      Theta(p, option.optionType, token.spotPrice, option.strikePrice, token.riskFreeRate,
            token.historicalVolatility, timeToExpiry, d1, d2),
      Gamma(p, token.spotPrice, token.historicalVolatility, timeToExpiry, d1),
      Vega(p, token.spotPrice, timeToExpiry, d1),
      Rho(p, option.optionType, option.strikePrice, timeToExpiry, d2))
  }

  /** The bounds of the duration window in years: the longest option (one year) has a
      time to expiry of exactly 1, the shortest (one day) exactly 1/365. */
  lemma TimeToExpiryInYears(initialExpiry: int, currentTimestamp: int)
    ensures initialExpiry - currentTimestamp == Constants.MinOptionDuration ==>
      CalcTimeToExpiry(initialExpiry, currentTimestamp) * 365.0 == 1.0
    ensures initialExpiry - currentTimestamp == Constants.MaxOptionDuration ==>
      CalcTimeToExpiry(initialExpiry, currentTimestamp) == 1.0
  {
  }

  /** Put-call parity: with N(-x) = 1 - N(x), the long-call price minus the long-put
      price is S - K e^(-r tau). */
  lemma PutCallParity(p: Primitives, option: OptionParams, token: TokenParams, market: MarketParams)
    requires PricingDomain(p, option, token, market)
    ensures CalcOptionPrice(p, option.(optionType := LongCall), token, market)
          - CalcOptionPrice(p, option.(optionType := LongPut), token, market)
         == token.spotPrice - option.strikePrice * Discount(p, token.riskFreeRate, Tau(option, market))
  {
    var d1, d2 := D1(p, option, token, market), D2(p, option, token, market);
    CdfReflection(p, d1);
    CdfReflection(p, d2);
  }

  /** The long-put delta is the long-call delta minus one, and the long-call delta is a
      probability, so it lies in [0, 1] and the long-put delta in [-1, 0]. */
  lemma DeltaPutCallOffset(p: Primitives, option: OptionParams, token: TokenParams, market: MarketParams)
    requires PricingDomain(p, option, token, market)
    ensures var call := CalcGreeks(p, option.(optionType := LongCall), token, market);
            var put := CalcGreeks(p, option.(optionType := LongPut), token, market);
      && put.delta == call.delta - 1.0
      && 0.0 <= call.delta <= 1.0
      && -1.0 <= put.delta <= 0.0
  {
  }

  /** Gamma and vega do not depend on the option type, short types included. */
  lemma GammaVegaShared(p: Primitives, option: OptionParams, token: TokenParams, market: MarketParams, other: OptionType)
    requires PricingDomain(p, option, token, market)
    ensures var g := CalcGreeks(p, option, token, market);
            var h := CalcGreeks(p, option.(optionType := other), token, market);
      g.gamma == h.gamma && g.vega == h.vega
  {
  }

  /** Both long thetas share the decay term; they differ by exactly r K e^(-r tau). */
  lemma ThetaPutCallGap(p: Primitives, option: OptionParams, token: TokenParams, market: MarketParams)
    requires PricingDomain(p, option, token, market)
    ensures CalcGreeks(p, option.(optionType := LongPut), token, market).theta
          - CalcGreeks(p, option.(optionType := LongCall), token, market).theta
         == token.riskFreeRate * option.strikePrice * Discount(p, token.riskFreeRate, Tau(option, market))
  {
  }

  /** The long-put rho is the long-call rho minus K e^(tau): the exponent is the time to
      expiry alone, as written, so the gap does not depend on the rate. */
  lemma RhoPutCallGap(p: Primitives, option: OptionParams, token: TokenParams, market: MarketParams)
    requires PricingDomain(p, option, token, market)
    ensures CalcGreeks(p, option.(optionType := LongPut), token, market).rho
         == CalcGreeks(p, option.(optionType := LongCall), token, market).rho
            - option.strikePrice * p.exp(Tau(option, market))
  {
  }

  /** Price and greeks evaluate N at the same d1 and d2: the long-call price is
      delta S minus the N(d2) factor that rho carries, rescaled from e^(tau) to e^(-r tau). */
  lemma PriceAndGreeksShareD1D2(p: Primitives, option: OptionParams, token: TokenParams, market: MarketParams)
    requires PricingDomain(p, option, token, market)
    ensures var call := option.(optionType := LongCall);
            var g := CalcGreeks(p, call, token, market);
            var tau := Tau(option, market);
      CalcOptionPrice(p, call, token, market) * p.exp(tau)
        == g.delta * token.spotPrice * p.exp(tau) - g.rho * Discount(p, token.riskFreeRate, tau)
  {
  }

  /** d1 depends on spot and strike only through their ratio: scaling both by the
      same positive factor leaves it unchanged. */
  lemma D1DependsOnMoneyness(p: Primitives, spotPrice: real, strikePrice: real, riskFreeRate: real,
                             volatility: real, timeToExpiry: real, c: real)
    requires strikePrice != 0.0 && volatility * p.sqrt(timeToExpiry) != 0.0 && c > 0.0
    ensures CalcD1(p, c * spotPrice, c * strikePrice, riskFreeRate, volatility, timeToExpiry)
         == CalcD1(p, spotPrice, strikePrice, riskFreeRate, volatility, timeToExpiry)
  {
    assert (c * spotPrice) / (c * strikePrice) == spotPrice / strikePrice;
  }
}
