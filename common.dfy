/** Shared vocabulary: optional values, JavaScript number coercions, the
    injected clock and the rounding functions of `Math`. */
module Common {

  datatype Option<+T> = None | Some(value: T)

  /** Milliseconds in a day, the divisor every date difference uses. */
  const MsPerDay: int := 1000 * 60 * 60 * 24

  /** An hour of the local clock, as `toTimeString()` renders it. */
  type Hour = h: int | 0 <= h < 24

  /** The injected clock: `Date.now()` in milliseconds since the epoch and the
      hour of the local time of day at that instant. */
  datatype Now = Now(ms: int, localHour: Hour)

  /** The day number of the UTC calendar date of an instant, which is what
      `toISOString().split('T')[0]` names; `new Date(day)` is `day * MsPerDay`. */
  function UtcDay(ms: int): (d: int)
    ensures d * MsPerDay <= ms < (d + 1) * MsPerDay
  {
    ms / MsPerDay
  }

  /** The period a usage frequency is quoted per; `OtherPeriod` is any stored
      value outside 'day' | 'week' | 'month'. */
  datatype Period = Day | Week | Month | OtherPeriod

  /** A JSON number field that may be missing: `Absent` stands for
      `undefined`, `null` and `NaN`, the falsy values other than 0. */
  datatype Num = Absent | Num(v: real)

  /** `x || d` on a number: a truthy number is kept, 0 and absent become `d`. */
  function OrDefault(x: Num, d: real): (r: real)
    ensures x.Num? && x.v != 0.0 ==> r == x.v
    ensures (x.Absent? || x.v == 0.0) ==> r == d
  {
    if x.Num? && x.v != 0.0 then x.v else d
  }

  /** `Math.round`: half-way values go up. */
  function Round(x: real): (r: int)
    ensures r as real - 0.5 <= x < r as real + 0.5
  {
    (x + 0.5).Floor
  }

  /** `Math.ceil`. */
  function Ceil(x: real): (r: int)
    ensures x <= r as real < x + 1.0
  {
    -((-x).Floor)
  }

  function Min(a: real, b: real): (r: real)
    ensures r <= a && r <= b && (r == a || r == b)
  {
    if a <= b then a else b
  }

  function MaxInt(a: int, b: int): (r: int)
    ensures r >= a && r >= b && (r == a || r == b)
  {
    if a >= b then a else b
  }
}
