/** Times and durations are whole microseconds, the resolution of Python's datetime. */
module Clock {
  const SECOND := 1_000_000
  const HOUR := 3600 * SECOND
}
