// Go's time.Time reduced to the comparisons the model needs: an instant is a count
// of nanoseconds since Go's zero time (January 1, year 1, 00:00:00 UTC), so the zero
// value is 0 and Before, After and Equal are integer comparisons.
module GoTime {

  type Time = int

  /** The zero value time.Time{}. */
  const Zero: Time := 0

  /** Seconds between Go's zero time and the Unix epoch. */
  const UnixToInternal: int := 62135596800

  const NanosPerSecond: int := 1000000000

  /** time.Unix(sec, 0) */
  function UnixSeconds(sec: int): Time
  {
    (sec + UnixToInternal) * NanosPerSecond
  }

  /** t.Before(u): strictly earlier, so no instant is before itself. */
  function Before(t: Time, u: Time): (r: bool)
    ensures r ==> t != u
  {
    t < u
  }

  /** t.After(u): After is Before with the instants swapped. */
  function After(t: Time, u: Time): (r: bool)
    ensures r <==> Before(u, t)
  {
    t > u
  }

  /** Durations are nanosecond counts, as in Go. */
  type Duration = int

  /** t.Add(d): a positive duration moves the instant later, a negative one earlier. */
  function AddDuration(t: Time, d: Duration): (r: Time)
    ensures Before(t, r) <==> d > 0
    ensures Before(r, t) <==> d < 0
  {
    t + d
  }

  /** The instant a Unix-seconds field decodes to carries no fraction of a second. */
  lemma UnixSecondsWhole(sec: int)
    ensures (UnixSeconds(sec) - Zero) % NanosPerSecond == 0
    ensures (UnixSeconds(sec) - Zero) / NanosPerSecond - UnixToInternal == sec
  {
  }
}
