/**
 * Java-language building blocks shared by the models: nullable references as
 * Option, thrown exceptions as Result/Outcome, Java's 32-bit `int` arithmetic
 * and its signed `byte`.
 */
module JavaLang {

  /** A Java reference that may be null. */
  datatype Option<+T> = None | Some(value: T)

  /** A call that returns a value or throws the exception `error`. */
  datatype Result<+T, +E> = Success(value: T) | Failure(error: E)

  /** A `void` call that returns normally or throws the exception `error`. */
  datatype Outcome<+E> = Pass | Fail(error: E)

  const INT_MIN: int := -0x8000_0000
  const INT_MAX: int := 0x7FFF_FFFF
  const TWO_TO_THE_32: int := 0x1_0000_0000

  /** Java's `int`. */
  type int32 = x: int | INT_MIN <= x <= INT_MAX

  /** Java's signed 8-bit `byte`. */
  type byte = b: int | -128 <= b < 128

  /** The value a Java `int` expression takes when the exact result is `x`:
      two's-complement wrap-around to 32 bits. */
  function Int32(x: int): (r: int)
    ensures INT_MIN <= r <= INT_MAX
    ensures (x - r) % TWO_TO_THE_32 == 0
    ensures INT_MIN <= x <= INT_MAX ==> r == x
  {
    var m := x % TWO_TO_THE_32;
    if m > INT_MAX then m - TWO_TO_THE_32 else m
  }
}
