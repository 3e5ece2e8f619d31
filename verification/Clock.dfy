/** Instants and the days they fall on. */
module Clock {

  /** Nanoseconds, in UTC, from the first midnight of year 0. */
  type Instant = int

  const MINUTE: int := 60_000_000_000
  const HOUR: int := 3_600_000_000_000
  const DAY: int := 86_400_000_000_000

  function DayOf(t: Instant): int {
    t / DAY
  }
}
