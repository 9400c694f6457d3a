/** Instants and durations in nanoseconds; 0 is Go's zero time. */
module Clock {
  type Time = int

  const SECOND: int := 1_000_000_000
  const MINUTE: int := 60 * SECOND
  const HOUR: int := 60 * MINUTE
  const DAY: int := 24 * HOUR
}
