/** Configured bounds of the option-creation program (sos_programs/option_create/src/constants.rs).
    Timestamps and durations are integer seconds; volatilities and prices are reals. */
module Constants {
  /** A 365-day year in seconds, with no leap adjustment. */
  const SecondsInYear: int := 31_536_000
  /** Shortest accepted option life: one day. */
  const MinOptionDuration: int := 86_400
  /** Longest accepted option life: one year. */
  const MaxOptionDuration: int := 31_536_000
  /** Annualized volatility window, as fractions (1.0 is 100%). */
  const MaxVolatility: real := 1.0
  const MinVolatility: real := 0.01
  /** Smallest accepted strike price. */
  const MinStrikePrice: real := 0.000001

  /** The year constant is 365 days of 24 hours, and the duration ceiling is exactly
      one such year, so an accepted duration never exceeds one year of pricing time. */
  lemma YearConstants()
    ensures SecondsInYear == 365 * 24 * 60 * 60
    ensures MaxOptionDuration == SecondsInYear
    ensures MinOptionDuration * 365 == SecondsInYear
  {
  }

  /** Each configured window is non-empty, and its lower end is positive, so
      everything the validator accepts is strictly positive. */
  lemma WindowsNonEmpty()
    ensures 0 < MinOptionDuration < MaxOptionDuration
    ensures 0.0 < MinVolatility < MaxVolatility
    ensures MinStrikePrice > 0.0
  {
  }
}
