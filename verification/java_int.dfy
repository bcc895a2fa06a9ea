/** Java's fixed-width integers. The model's integers are unbounded, so the
    32-bit wrap-around of `int` arithmetic is written out here. */
module JavaInt {

  const INT_MIN: int := -0x8000_0000
  const INT_MAX: int := 0x7fff_ffff
  const LONG_MAX: int := 0x7fff_ffff_ffff_ffff

  /** A value of Java's `int`. */
  type Int32 = x: int | INT_MIN <= x <= INT_MAX

  /** A wall-clock reading in milliseconds since the epoch, as `Date.getTime()`
      returns it for any instant after 1970. */
  type Millis = t: int | 0 <= t <= LONG_MAX

  /** Two's-complement reduction of an exact result into the `int` range. */
  function Wrap(x: int): (r: Int32)
    ensures INT_MIN <= x <= INT_MAX ==> r == x
    ensures (x - r) % 0x1_0000_0000 == 0
  {
    (x - INT_MIN) % 0x1_0000_0000 + INT_MIN
  }

  /** `x + 1` (or `++x`) on an `int`. */
  function Inc(x: Int32): (r: Int32)
    ensures x < INT_MAX ==> r == x + 1
    ensures x == INT_MAX ==> r == INT_MIN
  {
    Wrap(x + 1)
  }

  /** `x - 1` (or `x--`) on an `int`. */
  function Dec(x: Int32): (r: Int32)
    ensures INT_MIN < x ==> r == x - 1
    ensures x == INT_MIN ==> r == INT_MAX
  {
    Wrap(x - 1)
  }
}
