/** Tuning constants of the engine (config/index.ts). */
module Config {

  /** Attempts a queued job gets before it is dead-lettered. */
  const MaxRetries: nat := 3

  /** Base delay of the exponential retry backoff, in milliseconds. */
  const BackoffDelayMs: nat := 2000

  /** Relative spread of a quote around the pair's base price. */
  const PriceVariance: real := 0.05
}
