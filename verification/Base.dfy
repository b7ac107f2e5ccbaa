/** Instants, whole-second storage and optional values, shared by every module. */
module Base {
  datatype Option<+T> = None | Some(value: T)

  /** Nanoseconds on one shared clock. Go's zero Time is 0. */
  type Instant = int

  /** Nanoseconds. */
  type Duration = int

  const SECOND: Duration := 1_000_000_000
  const MINUTE: Duration := 60 * SECOND
  const HOUR: Duration := 60 * MINUTE
  const ZERO_TIME: Instant := 0

  /** What survives RFC3339 formatting: the whole second at or before `t`. */
  function WholeSecond(t: Instant): (r: Instant)
    ensures r <= t < r + SECOND
    ensures r % SECOND == 0
    ensures t % SECOND == 0 ==> r == t
  {
    t - t % SECOND
  }

  function StoredTime(t: Option<Instant>): Option<Instant> {
    match t
    case None => None
    case Some(v) => Some(WholeSecond(v))
  }

  function Max(a: int, b: int): int {
    if a < b then b else a
  }
}
