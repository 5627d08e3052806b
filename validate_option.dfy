/** The option-parameter validator (sos_programs/option_create/src/instructions/validate_option.rs):
    six guards checked in a fixed order, the first one that fails deciding the error. */
module ValidateOption {
  import opened Constants
  import opened Types

  /** The error tags of sos_programs/option_create/src/errors.rs. The validator attaches
      payloads to the first two; the declared variants carry none, so neither does the model. */
  datatype OptionError =
    | InvalidExpiryTimestamp
    | InvalidStrikePrice
    | InvalidVolatility
    | InvalidSpotPrice
    | InvalidRiskFreeRate
    | InvalidDuration

  /** `Ok(())` or the error the validator returns. */
  datatype Outcome = Ok | Err(error: OptionError)

  /** Accepts exactly the parameters that pass all six guards; on a failure the
      tag of the first failing guard is returned (see `FirstFailingGuardWins`). */
  function ValidateOptionParameters(option: OptionParams, token: TokenParams, market: MarketParams): (r: Outcome)
    ensures r == Ok <==>
      && option.initialTimeToExpiry > market.currentTimestamp
      && option.strikePrice >= MinStrikePrice
      && MinOptionDuration <= option.initialTimeToExpiry - market.currentTimestamp <= MaxOptionDuration
      && MinVolatility <= token.historicalVolatility <= MaxVolatility
      && token.spotPrice > 0.0
      && token.riskFreeRate >= 0.0
  {
    if !(option.initialTimeToExpiry > market.currentTimestamp) then
      Err(InvalidExpiryTimestamp)
    else if !(option.strikePrice >= MinStrikePrice) then
      Err(InvalidStrikePrice)
    else
      var duration := option.initialTimeToExpiry - market.currentTimestamp;
      if !(duration >= MinOptionDuration && duration <= MaxOptionDuration) then
        Err(InvalidDuration)
      else if !(token.historicalVolatility >= MinVolatility && token.historicalVolatility <= MaxVolatility) then
        Err(InvalidVolatility)
      else if !(token.spotPrice > 0.0) then
        Err(InvalidSpotPrice)
      else if !(token.riskFreeRate >= 0.0) then
        Err(InvalidRiskFreeRate)
      else
        Ok
  }

  /** The six guard conditions, listed in the order the validator checks them. */
  function Guards(option: OptionParams, token: TokenParams, market: MarketParams): seq<bool> {
    var duration := option.initialTimeToExpiry - market.currentTimestamp;
    [ option.initialTimeToExpiry > market.currentTimestamp,
      option.strikePrice >= MinStrikePrice,
      MinOptionDuration <= duration <= MaxOptionDuration,
      MinVolatility <= token.historicalVolatility <= MaxVolatility,
      token.spotPrice > 0.0,
      token.riskFreeRate >= 0.0 ]
  }

  /** The error each guard reports, in the same order as `Guards`. */
  const GuardErrors: seq<OptionError> := [
    InvalidExpiryTimestamp,
    InvalidStrikePrice,
    InvalidDuration,
    InvalidVolatility,
    InvalidSpotPrice,
    InvalidRiskFreeRate
  ]

  /** Guard `i` is the first one in `guards` that does not hold. */
  ghost predicate FirstFailing(guards: seq<bool>, i: int) {
    0 <= i < |guards| && !guards[i] && forall j :: 0 <= j < i ==> guards[j]
  }

  /** Reference reading of the validator: it accepts iff every guard holds, and
      otherwise it reports exactly the error of the first failing guard. */
  lemma FirstFailingGuardWins(option: OptionParams, token: TokenParams, market: MarketParams)
    ensures var g := Guards(option, token, market);
      ValidateOptionParameters(option, token, market) == Ok <==> forall i :: 0 <= i < |g| ==> g[i]
    ensures var g := Guards(option, token, market);
      ValidateOptionParameters(option, token, market).Err? ==>
        exists i :: FirstFailing(g, i) && ValidateOptionParameters(option, token, market).error == GuardErrors[i]
    ensures var g := Guards(option, token, market);
      forall i :: FirstFailing(g, i) ==> ValidateOptionParameters(option, token, market) == Err(GuardErrors[i])
  {
    var g := Guards(option, token, market);
    var r := ValidateOptionParameters(option, token, market);
    if r.Err? {
      var i := if !g[0] then 0 else if !g[1] then 1 else if !g[2] then 2
               else if !g[3] then 3 else if !g[4] then 4 else 5;
      assert FirstFailing(g, i) && r.error == GuardErrors[i];
    }
  }

  /** An expiry that is not strictly in the future is reported as such, whatever the
      other parameters are; in particular it outranks a zero strike price. */
  lemma PastExpiryOutranksEverything(option: OptionParams, token: TokenParams, market: MarketParams)
    requires option.initialTimeToExpiry <= market.currentTimestamp
    ensures ValidateOptionParameters(option, token, market) == Err(InvalidExpiryTimestamp)
    ensures ValidateOptionParameters(option.(strikePrice := 0.0), token, market) == Err(InvalidExpiryTimestamp)
  {
  }

  /** The outcome reads only expiry, strike, volatility, spot price, rate and the
      current timestamp: option type, creation price, greeks, the token timestamp,
      the USDC rate and `time_in_years` never change it. */
  lemma OutcomeIgnoresUnreadFields(
    option1: OptionParams, token1: TokenParams, market1: MarketParams,
    option2: OptionParams, token2: TokenParams, market2: MarketParams)
    requires option1.initialTimeToExpiry == option2.initialTimeToExpiry
    requires option1.strikePrice == option2.strikePrice
    requires token1.historicalVolatility == token2.historicalVolatility
    requires token1.spotPrice == token2.spotPrice
    requires token1.riskFreeRate == token2.riskFreeRate
    requires market1.currentTimestamp == market2.currentTimestamp
    ensures ValidateOptionParameters(option1, token1, market1) == ValidateOptionParameters(option2, token2, market2)
  {
  }

  /** The parameters of the validator's test fixture, valued at time `now`:
      a one-day at-the-money long call on a token priced 100 with 20% volatility and a 5% rate. */
  function FixtureOption(now: int): OptionParams {
    OptionParams(LongCall, 100.0, now + 86_400, 0.0, NoGreeks)
  }

  function FixtureToken(now: int): TokenParams {
    TokenParams(100.0, 0.2, 0.05, now)
  }

  function FixtureMarket(now: int): MarketParams {
    MarketParams(0.05, 1.0, now)
  }

  /** The validator's test cases, for every current time rather than one fixed one. */
  lemma FixtureOutcomes(now: int)
    ensures var o, t, m := FixtureOption(now), FixtureToken(now), FixtureMarket(now);
      && ValidateOptionParameters(o, t, m) == Ok
      && ValidateOptionParameters(o.(initialTimeToExpiry := now - 1000), t, m) == Err(InvalidExpiryTimestamp)
      && ValidateOptionParameters(o.(strikePrice := 0.0), t, m) == Err(InvalidStrikePrice)
      && ValidateOptionParameters(o, t.(historicalVolatility := 1.5), m) == Err(InvalidVolatility)
  {
  }

  /** Boundary behaviour of the guards: the expiry comparison is strict, both duration
      bounds are inclusive, a zero spot price is rejected and a zero rate is accepted. */
  lemma BoundaryOutcomes(now: int)
    ensures var o, t, m := FixtureOption(now), FixtureToken(now), FixtureMarket(now);
      && ValidateOptionParameters(o.(initialTimeToExpiry := now), t, m) == Err(InvalidExpiryTimestamp)
      && ValidateOptionParameters(o.(initialTimeToExpiry := now + 86_399), t, m) == Err(InvalidDuration)
      && ValidateOptionParameters(o.(initialTimeToExpiry := now + 500_000), t, m) == Ok
      && ValidateOptionParameters(o.(initialTimeToExpiry := now + 86_400), t, m) == Ok
      && ValidateOptionParameters(o.(initialTimeToExpiry := now + 31_536_000), t, m) == Ok
      && ValidateOptionParameters(o.(initialTimeToExpiry := now + 31_536_001), t, m) == Err(InvalidDuration)
      && ValidateOptionParameters(o, t.(spotPrice := 0.0), m) == Err(InvalidSpotPrice)
      && ValidateOptionParameters(o, t.(riskFreeRate := 0.0), m) == Ok
      && ValidateOptionParameters(o, t.(riskFreeRate := -0.01), m) == Err(InvalidRiskFreeRate)
  {
  }
}
