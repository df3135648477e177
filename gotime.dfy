/**
 * The parts of Go's integer and `time` arithmetic the token cache relies on.
 * An instant is the number of nanoseconds since Go's zero Time
 * (January 1, year 1, UTC), so the zero value of a `time.Time` field is 0
 * and every wall-clock reading is a natural number. A `time.Duration` is an
 * int64 count of nanoseconds.
 */
module GoTime {

  const MinInt64: int := -0x8000_0000_0000_0000
  const MaxInt64: int := 0x7fff_ffff_ffff_ffff
  const TwoTo64: int := 0x1_0000_0000_0000_0000

  type Int64 = x: int | MinInt64 <= x <= MaxInt64

  /** `time.Second`: one second in nanoseconds. */
  const Second: int := 1_000_000_000

  /** The largest whole number of seconds a Duration can hold. */
  const MaxSeconds: int := 9_223_372_036

  /** Two's-complement wrap-around of an int64 multiplication or addition. */
  function Wrap(x: int): (r: Int64)
    ensures MinInt64 <= x <= MaxInt64 ==> r == x
    ensures MaxInt64 < x <= MaxInt64 + TwoTo64 ==> r == x - TwoTo64
    ensures MinInt64 - TwoTo64 <= x < MinInt64 ==> r == x + TwoTo64
  {
    (x - MinInt64) % TwoTo64 + MinInt64
  }

  /** `time.Duration(n) * time.Second`, which wraps around on overflow. */
  function Seconds(n: Int64): (d: Int64)
    ensures -MaxSeconds <= n <= MaxSeconds ==> d == n * Second
    ensures MaxSeconds < n <= 2 * MaxSeconds + 1 ==> d == n * Second - TwoTo64
    ensures -(2 * MaxSeconds + 1) <= n < -MaxSeconds ==> d == n * Second + TwoTo64
  {
    Wrap(n * Second)
  }

  /** A number of seconds that fits converts exactly and keeps its sign. */
  lemma SecondsExact(n: Int64)
    requires -MaxSeconds <= n <= MaxSeconds
    ensures Seconds(n) == n * Second
    ensures n > 0 ==> Seconds(n) > 0
  {
  }

  /** One second more than fits wraps around to a negative Duration. */
  lemma SecondsOverflow()
    ensures Seconds(MaxSeconds + 1) < 0
  {
  }

  /**
   * `time.Until(t)` read at instant `now`, i.e. `t.Sub(now)`: the difference
   * in nanoseconds, saturated to the Duration range. The saturation keeps
   * the sign, so only whether `t` lies after `now` decides a comparison
   * with zero.
   */
  function Until(t: int, now: int): (d: Int64)
    ensures d > 0 <==> t > now
    ensures d == 0 <==> t == now
    ensures MinInt64 <= t - now <= MaxInt64 ==> d == t - now
  {
    if t - now > MaxInt64 then MaxInt64
    else if t - now < MinInt64 then MinInt64
    else t - now
  }

  /** `t.Add(d)`, which `time.Until` read at `t` undoes; the model does not bound the year range of `time.Time`. */
  function Add(t: int, d: Int64): (r: int)
    ensures Until(r, t) == d
  {
    t + d
  }
}
