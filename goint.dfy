/** Go's fixed-width signed integers, as far as the plugin uses them:
    the int64 range and two's-complement wrap-around on subtraction. */
module GoInt {

  const MinInt64: int := -0x8000_0000_0000_0000
  const MaxInt64: int := 0x7fff_ffff_ffff_ffff
  const TwoTo64: int := 0x1_0000_0000_0000_0000

  type Int64 = x: int | MinInt64 <= x <= MaxInt64

  /** `a - b` on Go int64 operands: the mathematical difference when it
      fits, otherwise that difference wrapped around by 2^64. */
  function Sub64(a: Int64, b: Int64): (r: Int64)
    ensures MinInt64 <= a - b <= MaxInt64 ==> r == a - b
    ensures (a - b - r) % TwoTo64 == 0
  {
    var d := a - b;
    if d > MaxInt64 then d - TwoTo64
    else if d < MinInt64 then d + TwoTo64
    else d
  }
}
