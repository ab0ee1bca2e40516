/** Small failure-carrying datatypes and the Java integer range used across the model. */
module Wrappers {

  /** Java's `null`-or-value, and `java.util.Optional`. */
  datatype Option<+T> = None | Some(value: T)

  /** A value or the exception the source would throw instead. */
  datatype Result<+T, +E> = Success(value: T) | Failure(error: E) {
    predicate IsFailure() { Failure? }
    function PropagateFailure<U>(): Result<U, E>
      requires Failure?
    {
      Failure(error)
    }
    function Extract(): T
      requires Success?
    {
      value
    }
  }

  /** A `void` operation that either returns or throws. */
  datatype Outcome<+E> = Pass | Fail(error: E)

  /** The unchecked Java exceptions the value model throws. */
  datatype Exception =
    | IllegalArgumentException(message: string)
    | IllegalStateException(message: string)

  const INT_MIN: int := -0x8000_0000
  const INT_MAX: int := 0x7FFF_FFFF

  /** Java `int`. */
  newtype int32 = x: int | INT_MIN <= x <= INT_MAX

  /** Decimal digits of a natural number, as `Integer.toString` writes them. */
  function NatToString(n: nat): (s: string)
    ensures |s| > 0
    ensures forall i :: 0 <= i < |s| ==> '0' <= s[i] <= '9'
  {
    var d := [(('0' as int) + n % 10) as char];
    if n < 10 then d else NatToString(n / 10) + d
  }

  /** `String.valueOf(int)`: an optional minus sign, then the digits. */
  function IntToString(i: int): (s: string)
    ensures |s| > 0
    ensures (i < 0) == (s[0] == '-')
  {
    if i < 0 then "-" + NatToString(-i) else NatToString(i)
  }
}
