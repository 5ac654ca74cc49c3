/** Instants and durations in nanoseconds, as Go's time package counts them. */
module Clock {
  type Time = int

  const MINUTE: int := 60_000_000_000
  const HOUR: int := 60 * MINUTE
  const DAY: int := 24 * HOUR

  const PAYMENT_TIMEOUT: int := 5 * MINUTE
  const HOLD_DURATION: int := HOUR
  const FREE_CANCEL_WINDOW: int := 2 * MINUTE
  const DEFAULT_TTL: int := 24 * HOUR
}
