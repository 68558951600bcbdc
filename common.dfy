/**
 * Shared vocabulary of the model: optional values, results with an error,
 * and the fixed-width unsigned integers the C++ sources use.
 */
module Common {

  datatype Option<+T> = None | Some(value: T)

  datatype Result<+T, +E> = Ok(value: T) | Err(error: E)

  const TWO_32: int := 0x1_0000_0000
  const INT_MAX: int := 0x7fff_ffff
  const INT_MIN: int := -0x8000_0000

  type uint8 = x: int | 0 <= x < 0x100
  type uint32 = x: int | 0 <= x < 0x1_0000_0000
  type uint64 = x: int | 0 <= x < 0x1_0000_0000_0000_0000
  type int32 = x: int | INT_MIN <= x <= INT_MAX

  /** `static_cast<int>(u)` for a 32-bit unsigned value (two's complement). */
  function AsInt32(u: uint32): (r: int)
    ensures INT_MIN <= r <= INT_MAX
    ensures r >= 0 <==> u <= INT_MAX
    ensures r >= 0 ==> r == u
  {
    if u <= INT_MAX then u else u - TWO_32
  }

  /** Conversion to a 32-bit unsigned value: reduction modulo 2^32. */
  function Wrap32(n: int): (r: uint32)
    ensures 0 <= n < TWO_32 ==> r == n
  {
    n % TWO_32
  }

  function Min(a: int, b: int): int { if a <= b then a else b }
}
