/**
  Java's fixed-width integer types, and the narrowing casts and bit operators
  the audio path of the Android module uses, stated on Dafny's unbounded `int`.

  A signed right shift `x >> k` of a Java integer is floor division by 2^k;
  Dafny's `/` with a positive divisor rounds the same way, so the models below
  write `x >> k` as `x / 2^k` with the power written out.
*/
module JavaInts {

  /** Java `byte`: 8-bit two's complement. */
  type JByte = x: int | -0x80 <= x < 0x80

  /** Java `short`: 16-bit two's complement. */
  type JShort = x: int | -0x8000 <= x < 0x8000

  /** Java `int`: 32-bit two's complement. */
  type JInt = x: int | -0x8000_0000 <= x < 0x8000_0000

  const TWO_POW_32: int := 0x1_0000_0000

  /** The cast `(byte) x`: keeps the low 8 bits of `x` and reads them as a signed byte. */
  function ToByte(x: int): (b: JByte)
    ensures (x - b) % 0x100 == 0
    ensures -0x80 <= x < 0x80 ==> b == x
  {
    var u := x % 0x100;
    if u < 0x80 then u else u - 0x100
  }

  /** The cast `(int) x` of a `long`, and equally the wrap-around of 32-bit `int` arithmetic. */
  function ToInt(x: int): (r: JInt)
    ensures (x - r) % TWO_POW_32 == 0
    ensures -0x8000_0000 <= x < 0x8000_0000 ==> r == x
  {
    var u := x % TWO_POW_32;
    if u < 0x8000_0000 then u else u - TWO_POW_32
  }

  /**
    `a ^ m` where `m` is a sign mask, the value `x >> 31` of some `int` x:
    all zero bits (0) or all one bits (-1).  XOR with all ones is bitwise
    complement, which in two's complement is `-1 - a`.
  */
  function XorSignMask(a: int, m: int): (r: int)
    requires m == 0 || m == -1
    ensures r == 0 <==> a == m
    ensures r == a <==> m == 0
  {
    if m == 0 then a else -1 - a
  }

  /** Two integers that differ by a multiple of 2^32 wrap to the same `int`. */
  lemma ToIntCongruent(x: int, y: int, k: int)
    requires x == y + k * TWO_POW_32
    ensures ToInt(x) == ToInt(y)
  {
    assert x % TWO_POW_32 == y % TWO_POW_32;
  }
}
