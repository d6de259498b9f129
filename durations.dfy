/**
 * Go's fixed-width integers and `time.Duration`, written out so that the
 * truncating division and the int64 wrap-around of the lock code are explicit.
 */
module Durations {

  const MinInt64: int := -0x8000_0000_0000_0000
  const MaxInt64: int := 0x7fff_ffff_ffff_ffff

  /** Go's `int64` (and `int`, which is 64 bits wide on the platforms the lock targets). */
  newtype Int64 = x: int | -0x8000_0000_0000_0000 <= x <= 0x7fff_ffff_ffff_ffff

  /** `time.Duration`: a signed count of nanoseconds. */
  type Duration = Int64

  const Millisecond: Duration := 1_000_000
  const Second: Duration := 1_000_000_000

  function Abs(x: int): nat { if x < 0 then -x else x }

  /**
   * `Duration.Milliseconds()`: the duration as an integer millisecond count. Go divides by 1e6
   * truncating toward zero, so a negative duration rounds up, unlike Dafny's Euclidean `/`.
   */
  function Milliseconds(d: Duration): (ms: Int64)
    ensures Abs(ms as int) * 1_000_000 <= Abs(d as int) < (Abs(ms as int) + 1) * 1_000_000
    ensures ms > 0 <==> d >= Millisecond
    ensures ms < 0 <==> d <= -Millisecond
  {
    if d >= 0 then (d as int / 1_000_000) as Int64 else (-(-(d as int) / 1_000_000)) as Int64
  }

  /** Go's `x -= 1` on a 64-bit integer: two's-complement wrap-around at the bottom of the range. */
  function Dec(x: Int64): (r: Int64)
    ensures (x as int - 1 - r as int) % 0x1_0000_0000_0000_0000 == 0
  {
    if x as int == MinInt64 then MaxInt64 as Int64 else x - 1
  }
}
