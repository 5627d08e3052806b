# Solana Options Standard: option validation and Black-Scholes pricing, in Dafny

This project models the pricing core of the option-creation program. The program first
validates the parameters of a new option with six guards, checked in a fixed order. It
then prices the option and computes its five greeks with the Black-Scholes closed form.

- `constants.dfy` (module `Constants`): the configured bounds. These are seconds per
  year, the duration window, the volatility window and the minimum strike. The windows
  are fixed constants, not values passed to the validator.
- `types.dfy` (module `Types`): the parameter records (`OptionParams`, `TokenParams`,
  `MarketParams`), `OptionType` and `OptionGreeks`. An `f64` is a `real` and an `i64`
  is an `int`.
- `numerics.dfy` (module `Numerics`): the foreign floating-point primitives. These are
  `ln`, `exp`, `sqrt` and the standard normal `cdf`/`pdf`. They form a record of total
  `real -> real` functions that every pricing function takes as a parameter. The ghost
  predicate `Sound` holds the only facts assumed about them: N(x) lies in [0, 1],
  N(x) + N(-x) = 1, the density n(x) is never negative, and sqrt(t) > 0 for t > 0.
- `validate_option.dfy` (module `ValidateOption`): the validator. Its result is `Ok` or
  `Err(tag)`, with the error tags of the program's error enum.
- `black_scholes.dfy` (module `BlackScholes`): the pricing module that the instruction
  imports (`common/src/utils/mod.rs`).
- `black_scholes_legacy.dfy` (module `BlackScholesLegacy`): the older duplicate
  (`common/src/utils.rs`). It adds the expiry check and a separate d2 function, and it
  has a different long-put formula.
- `create_option.dfy` (module `CreateOption`): the validate-then-price order of the
  create-option instruction. Acceptance puts the formulas in their domain.

The validator reads `option_params.time_until_expiry`, but the record field is
`initial_time_to_expiry`, and the instruction fills that field with the absolute expiry
timestamp. Both names are the one field `initialTimeToExpiry`, holding the expiry time.

Where the code departs from the textbook Black-Scholes model, the model follows the code:
- the short types are not mirrored: their price, delta, theta and rho are 0.0, and
  their gamma and vega are the long formulas;
- rho is K·e^(τ)·N(d2), with the time to expiry alone in the exponent; the textbook
  has K·τ·e^(−rτ)·N(d2);

## Model

| member | source | states |
|---|---|---|
| `Constants.YearConstants` | sos_programs/option_create/src/constants.rs:1-3 | SECONDS_IN_YEAR is 365·24·60·60. MAX_OPTION_DURATION equals it, and MIN_OPTION_DURATION is 1/365 of it. |
| `Constants.WindowsNonEmpty` | sos_programs/option_create/src/constants.rs:2-6 | 0 < MIN_OPTION_DURATION < MAX_OPTION_DURATION, 0 < MIN_VOLATILITY < MAX_VOLATILITY, and MIN_STRIKE_PRICE > 0. |
| `ValidateOption.ValidateOptionParameters` | sos_programs/option_create/src/instructions/validate_option.rs:9-66 | The result is `Ok` exactly when all six conditions hold: expiry > now, strike ≥ MIN_STRIKE_PRICE, MIN ≤ expiry − now ≤ MAX duration, MIN ≤ σ ≤ MAX volatility, spot > 0 and rate ≥ 0. |
| `ValidateOption.FirstFailingGuardWins` | sos_programs/option_create/src/instructions/validate_option.rs:15-62 | Against the list of the six guards in checking order: the result is `Ok` iff every guard holds. Any error is the tag of some first failing guard, and every first failing guard determines the error. |
| `ValidateOption.PastExpiryOutranksEverything` | sos_programs/option_create/src/instructions/validate_option.rs:15-36 | An expiry at or before the current time gives `InvalidExpiryTimestamp` whatever else is wrong, a zero strike included. |
| `ValidateOption.OutcomeIgnoresUnreadFields` | sos_programs/option_create/src/instructions/validate_option.rs:9-65 | Two inputs with the same expiry, strike, volatility, spot, rate and current time get the same outcome. Option type, creation price, greeks, token timestamp, USDC rate and time_in_years have no effect. |
| `ValidateOption.FixtureOutcomes` | sos_programs/option_create/tests/validation_tests.rs:12-99 | At every current time, the test fixture is accepted. Expiry 1000 s in the past gives `InvalidExpiryTimestamp`, strike 0.0 gives `InvalidStrikePrice`, and volatility 1.5 gives `InvalidVolatility`. |
| `ValidateOption.BoundaryOutcomes` | sos_programs/option_create/src/instructions/validate_option.rs:15-62 | Expiry equal to now is rejected because the comparison is strict. Both duration bounds are inclusive (one day and one year are accepted, one second outside is `InvalidDuration`), and 500 000 s is accepted. Spot 0.0 gives `InvalidSpotPrice`, rate 0.0 is accepted, and a negative rate gives `InvalidRiskFreeRate`. |
| `BlackScholes.CalcTimeToExpiry` | sos_programs/common/src/utils/mod.rs:114-118 | τ·SECONDS_IN_YEAR is exactly expiry − now, and τ > 0 iff expiry > now. |
| `BlackScholes.TimeToExpiryInYears` | sos_programs/common/src/utils/mod.rs:114-118 | The duration window in years: MAX_OPTION_DURATION (one year) to expiry gives τ = 1, and MIN_OPTION_DURATION (one day) gives τ = 1/365. |
| `BlackScholes.CalcD1` | sos_programs/common/src/utils/mod.rs:120-131 | d1·(σ·√τ) = ln(S/K) + (r + σ²/2)·τ. The divisions are exact when K ≠ 0 and σ·√τ ≠ 0. |
| `BlackScholes.D1DependsOnMoneyness` | sos_programs/common/src/utils/mod.rs:120-131 | d1 depends on S and K only through S/K: scaling both by a positive factor leaves d1 unchanged. |
| `BlackScholes.D2FromD1` | sos_programs/common/src/utils/mod.rs:66 | d2 = d1 − σ√τ lies strictly below d1 for σ > 0 and τ > 0 with sound primitives. |
| `BlackScholes.DivisorsPositive` | sos_programs/common/src/utils/mod.rs:79 | For S > 0, σ > 0 and τ > 0 with sound primitives, √τ, σ·√τ and the gamma divisor S·σ·√τ are all positive. |
| `BlackScholes.ScaledVolatilityPositive` | sos_programs/common/src/utils/mod.rs:127-130 | In the pricing domain, τ > 0, √τ > 0 and σ·√τ > 0, so every division in price and greeks is defined. |
| `BlackScholes.CalcOptionPrice` | sos_programs/common/src/utils/mod.rs:15-50 | ShortCall and ShortPut are priced at 0.0. |
| `BlackScholes.PutCallParity` | sos_programs/common/src/utils/mod.rs:36-46 | With N(−x) = 1 − N(x), LongCall price − LongPut price = S − K·e^(−rτ). |
| `BlackScholes.CalcGreeks` | sos_programs/common/src/utils/mod.rs:53-112 | For ShortCall and ShortPut, delta, theta and rho are 0.0. |
| `BlackScholes.Delta` | sos_programs/common/src/utils/mod.rs:73-77 | Delta is 0.0 for the short types. With N in [0, 1], a LongCall delta lies in [0, 1] and a LongPut delta in [−1, 0], for every d1. |
| `BlackScholes.Gamma` | sos_programs/common/src/utils/mod.rs:79 | Gamma times the divisor S·σ·√τ is n(d1), and gamma is never negative when the divisor is positive. It is one expression for every option type (see `BlackScholes.GammaVegaShared`). The legacy copy at utils.rs:102 is covered by `BlackScholesLegacy.LegacyGreeksMatchCurrent`. |
| `BlackScholes.Theta` | sos_programs/common/src/utils/mod.rs:81-95 | Theta is 0.0 for the short types. The long types share the decay term (see `BlackScholes.ThetaPutCallGap`). |
| `BlackScholes.Vega` | sos_programs/common/src/utils/mod.rs:97 | Vega is never negative for S ≥ 0 and τ > 0. It is one expression for every option type (see `BlackScholes.GammaVegaShared`). The legacy copy at utils.rs:120 is covered by `BlackScholesLegacy.LegacyGreeksMatchCurrent`. |
| `BlackScholes.Rho` | sos_programs/common/src/utils/mod.rs:99-103 | Rho is 0.0 for the short types. The long types use K·e^τ, as written (see `BlackScholes.RhoPutCallGap`). |
| `BlackScholes.DeltaPutCallOffset` | sos_programs/common/src/utils/mod.rs:73-77 | LongPut delta = LongCall delta − 1. With N in [0, 1], the LongCall delta lies in [0, 1] and the LongPut delta lies in [−1, 0]. |
| `BlackScholes.GammaVegaShared` | sos_programs/common/src/utils/mod.rs:79-97 | Gamma and vega are the same for every option type, the short ones included. |
| `BlackScholes.ThetaPutCallGap` | sos_programs/common/src/utils/mod.rs:81-95 | Both thetas share the decay term: LongPut theta − LongCall theta = r·K·e^(−rτ). |
| `BlackScholes.RhoPutCallGap` | sos_programs/common/src/utils/mod.rs:99-103 | LongPut rho = LongCall rho − K·e^(τ). The exponent is τ alone, with no −r factor, as written. |
| `BlackScholes.PriceAndGreeksShareD1D2` | sos_programs/common/src/utils/mod.rs:20-66 | Price and greeks evaluate N at the same d1 and d2: LongCall price·e^τ = delta·S·e^τ − rho·e^(−rτ). |
| `BlackScholesLegacy.IsOptionExpired` | sos_programs/common/src/utils.rs:140-145 | For every pair of timestamps, the option is expired iff no positive time to expiry is left, that is, iff now ≥ expiry. |
| `BlackScholesLegacy.ExpiredIffFirstGuardFails` | sos_programs/common/src/utils.rs:140-145 | Expired iff the validator stops at its first guard with `InvalidExpiryTimestamp`. |
| `BlackScholesLegacy.CalcTimeToExpiry` | sos_programs/common/src/utils.rs:55-62 | Equal to the current module's (expiry − now)/31_536_000 for all timestamps. |
| `BlackScholesLegacy.CalcD1` | sos_programs/common/src/utils.rs:158-168 | Equal to the current module's d1, which is the documented formula (ln(S/K) + (r + σ²/2)τ)/(σ√τ). |
| `BlackScholesLegacy.CalcD2` | sos_programs/common/src/utils.rs:173-179 | d2 = d1 − σ√τ, as in the current module, and it is strictly below d1 for σ > 0 and τ > 0. |
| `BlackScholesLegacy.CalcOptionPrice` | sos_programs/common/src/utils.rs:10-45 | Short types are priced at 0.0. The LongCall price equals the current module's. |
| `BlackScholesLegacy.LegacyPutIsNegatedCall` | sos_programs/common/src/utils.rs:36-42 | This module's LongPut price is the negated LongCall price, N(d2)·K·e^(−rτ) − N(d1)·S. |
| `BlackScholesLegacy.LegacyPutBreaksParity` | sos_programs/common/src/utils.rs:40-42 | For some sound primitives and an at-the-money one-year option, call − put ≠ S − K·e^(−rτ). |
| `BlackScholesLegacy.CalcGreeks` | sos_programs/common/src/utils.rs:67-137 | For short types, delta, theta and rho are 0.0. |
| `BlackScholesLegacy.LegacyGreeksMatchCurrent` | sos_programs/common/src/utils.rs:67-137 | All five greeks equal the current module's for every input and type. So LongPut delta = LongCall delta − 1, gamma and vega are shared, and LongPut rho = LongCall rho − K·e^τ here too. |
| `CreateOption.AcceptedImpliesPricingDomain` | sos_programs/option_create/src/instructions/validate_option.rs:15-62 | Acceptance gives τ ∈ [1/365, 1], K > 0, S > 0, σ ≥ 0.01 and r ≥ 0. With sound primitives it also gives the pricing domain and σ·√τ > 0. |
| `CreateOption.CreateOption` | sos_programs/option_create/src/lib.rs:67-76 | The instruction rejects with exactly the validator's error. Otherwise the pricing functions are defined, and the stored price and greeks are theirs. |

## Findings

| source | as written | input that shows it | evidently intended | confidence | as-written member | corrected member |
|---|---|---|---|---|---|---|
| sos_programs/common/src/utils.rs:40-42 | LongPut price = N(d2)·K·e^(−rτ) − N(d1)·S, the LongCall price negated | S = K = 100, σ = 0.2, r = 0.05, expiry one year ahead. With the standard normal CDF, call − put = 2·call ≈ 20.90, while S − K·e^(−rτ) ≈ 4.88. The model shows the same gap with a sound step-function CDF. | N(−d2)·K·e^(−rτ) − N(−d1)·S, which satisfies put-call parity. The pricing module that the instruction imports has this formula. | high; not executed | `BlackScholesLegacy.LegacyPutBreaksParity` | `BlackScholes.PutCallParity` |

## Left out

- `BlackScholes.CalcOptionPrice`, `BlackScholes.CalcGreeks`, the legacy pricing functions and `CalcD1` are defined only inside their domain. That domain is positive spot, strike, volatility and time to expiry, or non-zero divisors for `CalcD1`. Outside it the f64 code returns NaN, an infinity, or a finite value with no financial meaning. For example, a negative volatility gives a finite price and a negative gamma, and a zero spot gives a finite price with a NaN gamma. The model leaves the result undefined there. The validator's acceptance establishes the domain.
- Concrete values of `ln`, `exp`, `sqrt` and the statrs normal CDF and PDF: these are foreign floating-point code and are parameters here. Any consequence of their actual values is out of reach. This includes the test assertions price > 0, delta > 0, theta < 0 and rho > 0, and the strict forms of gamma > 0 and vega > 0; only gamma ≥ 0 and vega ≥ 0 follow from the non-negative density.
- f64 semantics (rounding, NaN, infinities): prices, rates and volatilities are exact reals. A NaN input fails every validator guard in the code, but the model has no NaN. The constant 0.000001 is the exact decimal, not its nearest double.
- i64 overflow in `expiry − now`: timestamps are unbounded integers.
- The `msg!` logging of the validator (validate_option.rs:14, 18, 26, 30, 64): it only writes to the program log, and no result depends on it.
- The Anchor plumbing of `create_option`: the Clock sysvar read, `msg!` logging, account initialisation and storage, `OptionStatus`, and the account size constant. Only the validate-then-price order is modelled.
- Error payloads: the validator builds the first two errors with fields, but the declared variants have none. Errors are plain tags.
- The private helper `normal_cdf` in the legacy module is unused by the code, and it is the CDF primitive itself.
- The TypeScript SDK, its example and the TypeScript tests are not modelled. This includes the `ExtremeStrikePrice` error that one test expects and that the program does not declare. The `sos-programs/` scaffolding (hello-world programs, an older type file, a non-compiling stub) is also left out.
- Short-position mirroring and a textbook rho are not modelled, because the code does neither.
