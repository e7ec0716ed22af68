/** The settings the money path reads, as its validators leave them. */
module Config {
  import opened Decimal28

  /** A non-negative decimal: coef / 10^scale. */
  datatype Decimal = Decimal(coef: nat, scale: nat)

  function Value(d: Decimal): (q: Q)
    ensures q.den > 0
  {
    Q(d.coef, Pow10(d.scale))
  }

  /** Roubles are whole kopecks, USDT whole 10^-8 parts, times whole microseconds. */
  datatype Settings = Settings(
    depositMin: int,
    depositMax: int,
    commissionPercent: Decimal,
    rate: Decimal,
    staleSeconds: int,
    backoffSeconds: int,
    holdMinutes: int
  )

  const SECOND: int := 1_000_000
  const MINUTE: int := 60 * SECOND

  /** What the settings validators enforce. */
  predicate Validated(s: Settings) {
    && s.rate.coef > 0
    && s.commissionPercent.coef < 100 * Pow10(s.commissionPercent.scale)
    && 0 < s.depositMin <= s.depositMax
  }

  /** The largest amount the deposit request schema lets through, in kopecks. */
  const SCHEMA_MAX: int := 10_000_000_000

  /** A commission percent of at most 11 digits. */
  predicate ShortPercent(s: Settings) {
    s.commissionPercent.coef < Pow10(11)
  }

  /** A rate of at most 11 digits and at least one rouble per USDT. */
  predicate ShortRate(s: Settings) {
    s.rate.coef < Pow10(11) && Pow10(s.rate.scale) <= s.rate.coef
  }
}
