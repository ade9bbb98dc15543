/** Fixed-width C integer types, C's truncating division, and the
    success-or-error-code result shared by the firmware modules. */
module CTypes {

  type uint8 = x: int | 0 <= x < 0x100
  type uint16 = x: int | 0 <= x < 0x1_0000
  type int16 = x: int | -0x8000 <= x < 0x8000
  type uint32 = x: int | 0 <= x < 0x1_0000_0000

  /** A value that may be absent (a NULL pointer, a missing answer). */
  datatype Option<T> = None | Some(value: T)

  /** An operation that either yields a value or fails with a (negative) C error code. */
  datatype Result<T> = Ok(value: T) | Err(code: int)

  /** C's integer division by a positive divisor: the quotient is truncated
      toward zero, so the remainder takes the sign of the dividend. */
  function TruncDiv(a: int, b: int): (q: int)
    requires b > 0
    ensures 0 <= a ==> 0 <= q && 0 <= a - q * b < b
    ensures a < 0 ==> q <= 0 && -b < a - q * b <= 0
  {
    if a >= 0 then a / b else -((-a) / b)
  }

  lemma MulMonotone(a: int, b: int, c: int)
    requires a <= b && 0 <= c
    ensures a * c <= b * c
  {
  }

  lemma DivMonotone(a: int, b: int, d: int)
    requires 0 <= a <= b && d > 0
    ensures a / d <= b / d
  {
    if a / d > b / d {
      MulMonotone(b / d + 1, a / d, d);
    }
  }

  /** A non-negative dividend at most d * k gives a quotient at most k. */
  lemma DivAtMost(a: int, d: int, k: int)
    requires 0 <= a <= d * k && d > 0
    ensures a / d <= k
  {
    if a / d > k {
      MulMonotone(k + 1, a / d, d);
    }
  }
}
