/** The C integer types of libapmidg and the conversions it relies on. */
module CTypes {

  const TWO_31: int := 0x8000_0000
  const TWO_32: int := 0x1_0000_0000
  const TWO_64: int := 0x1_0000_0000_0000_0000

  type Uint8 = x: int | 0 <= x < 0x100
  type Uint32 = x: int | 0 <= x < 0x1_0000_0000
  type Uint64 = x: int | 0 <= x < 0x1_0000_0000_0000_0000
  type Int32 = x: int | -0x8000_0000 <= x < 0x8000_0000

  /** `uint64_t` 2^64 - 1: what `*p = -1` stores through a `uint64_t *`. */
  const U64_MAX: Uint64 := 0xFFFF_FFFF_FFFF_FFFF

  /** `a - b` on `uint64_t`: the difference modulo 2^64. */
  function SubU64(a: Uint64, b: Uint64): (r: Uint64)
    ensures (r + b) % TWO_64 == a
    ensures a >= b ==> r == a - b
    ensures a < b ==> r == a - b + TWO_64
  {
    if a >= b then a - b else a - b + TWO_64
  }

  /** The usual arithmetic conversion of an `int` compared against a `uint32_t`. */
  function IntToU32(x: Int32): (r: Uint32)
    ensures x >= 0 ==> r == x
    ensures x < 0 ==> r == x + TWO_32 && r >= TWO_31
  {
    if x >= 0 then x else x + TWO_32
  }

  /** `(int)u` for a `uint32_t u`: values above INT_MAX wrap to negatives. */
  function U32ToInt(u: Uint32): (r: Int32)
    ensures IntToU32(r) == u
  {
    if u < TWO_31 then u else u - TWO_32
  }

  /** C's `/` on `int`, which truncates toward zero (Dafny's `/` is Euclidean). */
  function CDiv(a: int, b: int): (q: int)
    requires b > 0
    ensures a >= 0 ==> q == a / b
    ensures a < 0 ==> q == -((-a) / b)
    ensures q > 0 ==> a >= b
  {
    if a >= 0 then a / b else -((-a) / b)
  }
}
