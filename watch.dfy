/** How long an audit session stays on a video: the duration fallback and the
    watch interval chosen by the type of the watch budget. */
module WatchTime {

  /** The `max_duration` budget. Python picks the branch by the value's type:
      an `int` is a number of seconds, a `float` a fraction of the video length. */
  datatype Budget = Seconds(n: int) | Fraction(p: real)

  /** `max_duration > 0`. */
  predicate Positive(b: Budget)
  {
    match b
    case Seconds(n) => n > 0
    case Fraction(p) => p > 0.0
  }

  /** `max_duration >= 0`. */
  predicate NonNegative(b: Budget)
  {
    match b
    case Seconds(n) => n >= 0
    case Fraction(p) => p >= 0.0
  }

  /** What reading the `duration` attribute of the video element produced:
      no value (None or the empty string), a value `float` cannot parse or a
      driver error, or a number. */
  datatype DurationRead = Missing | Unreadable | Reported(value: real)

  const DefaultLength: real := 180.0

  /** The video length used for the interval: the reported duration, or three
      minutes when it is missing, unreadable or zero. */
  function VideoLength(d: DurationRead): real
  {
    match d
    case Reported(v) => if v == 0.0 then DefaultLength else v
    case _ => DefaultLength
  }

  /** Python's `int(x)` on a float: truncation toward zero. */
  function Trunc(x: real): (r: int)
    ensures x >= 0.0 ==> r as real <= x < r as real + 1.0
    ensures x < 0.0 ==> r as real - 1.0 < x <= r as real
  {
    if x >= 0.0 then x.Floor else -((-x).Floor)
  }

  /** The float product `video_len * max_duration`. */
  function Portion(len: real, p: real): real
  {
    len * p
  }

  /** The watch interval: `int(len * p)` for a fraction, `min(len, n) - 1` for seconds. */
  function WaitTime(len: real, b: Budget): real
  {
    match b
    case Fraction(p) => Trunc(Portion(len, p)) as real
    case Seconds(n) => (if len <= n as real then len else n as real) - 1.0
  }

  /** The time actually slept: `max(wait_time, 0)`. */
  function Sleep(w: real): (s: real)
    ensures s >= 0.0 && s >= w
    ensures s == w || s == 0.0
  {
    if w >= 0.0 then w else 0.0
  }

  /** The interval a collection hop waits: the budget rule on the fallback length
      when the budget is positive, and 0 when it is 0. */
  function HopWait(b: Budget, d: DurationRead): real
  {
    if Positive(b) then WaitTime(VideoLength(d), b) else 0.0
  }

  /** A missing, unreadable or zero duration becomes 180; any other reported value is kept. */
  lemma DurationFallback(d: DurationRead)
    ensures VideoLength(d) != 0.0
    ensures !d.Reported? || d.value == 0.0 ==> VideoLength(d) == DefaultLength
    ensures d.Reported? && d.value != 0.0 ==> VideoLength(d) == d.value
  {
  }

  /** A fractional budget waits the whole number of seconds in `len * p`, rounded toward zero. */
  lemma FractionInterval(len: real, p: real)
    requires len >= 0.0 && p >= 0.0
    ensures var w := WaitTime(len, Fraction(p));
      0.0 <= w <= len * p < w + 1.0 && w == (Trunc(len * p)) as real
      && Sleep(w) == w
  {
    ProductNonNegative(len, p);
  }

  lemma ProductNonNegative(a: real, b: real)
    requires a >= 0.0 && b >= 0.0
    ensures a * b >= 0.0
  {
  }

  /** A budget in seconds waits one second less than the shorter of the video and the
      budget; the sleep is never longer than the budget minus one, nor than the video. */
  lemma SecondsInterval(len: real, n: int)
    requires len >= 0.0
    ensures var w := WaitTime(len, Seconds(n));
      w + 1.0 <= len && w + 1.0 <= n as real
      && (w + 1.0 == len || w + 1.0 == n as real)
      && (n >= 1 ==> Sleep(w) <= n as real - 1.0)
      && Sleep(w) <= len
  {
  }

  /** In a collection hop a zero budget waits nothing, and a positive budget waits what
      watching a seed would wait on the same duration. */
  lemma HopWaitRule(b: Budget, d: DurationRead)
    requires NonNegative(b)
    ensures !Positive(b) ==> HopWait(b, d) == 0.0 && Sleep(HopWait(b, d)) == 0.0
    ensures Positive(b) ==> HopWait(b, d) == WaitTime(VideoLength(d), b)
  {
  }
}
