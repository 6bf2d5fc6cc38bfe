/** Go's `time` values as both backends keep them: an instant is a count of
    Unix nanoseconds and a duration a count of nanoseconds. */
module GoTime {
  const NanosPerMilli: int := 1_000_000
  const NanosPerSecond: int := 1_000_000_000

  /** The zero `time.Time`, 0001-01-01 00:00:00 UTC. */
  const ZeroTime: int := -62135596800 * NanosPerSecond

  /** `Time.UnixMilli`: whole milliseconds, rounded down. */
  function UnixMilli(t: int): (ms: int)
    ensures ms * NanosPerMilli <= t < (ms + 1) * NanosPerMilli
  {
    t / NanosPerMilli
  }

  /** `Time.Unix`: whole seconds, rounded down. */
  function UnixSeconds(t: int): (secs: int)
    ensures secs * NanosPerSecond <= t < (secs + 1) * NanosPerSecond
  {
    t / NanosPerSecond
  }

  /** `int(d.Seconds())`: whole seconds, the fraction dropped toward zero. */
  function DurationSeconds(d: int): (secs: int)
    ensures d >= 0 ==> secs * NanosPerSecond <= d < (secs + 1) * NanosPerSecond
    ensures d < 0 ==> (secs - 1) * NanosPerSecond < d <= secs * NanosPerSecond
  {
    if d >= 0 then d / NanosPerSecond else -((-d) / NanosPerSecond)
  }
}
