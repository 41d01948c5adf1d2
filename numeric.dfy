/** The C++ numeric primitives the interpreter relies on, stated on Dafny's
    unbounded `int` and exact `real`: the 32-bit `int` range, truncating
    integer division, `round` from <cmath> and the epsilon test `is_zero`. */
module Numeric {

  const IntMin: int := -0x8000_0000
  const IntMax: int := 0x7FFF_FFFF

  /** The values of a 32-bit C++ `int`. */
  predicate InInt32(x: int) {
    IntMin <= x <= IntMax
  }

  function Abs(x: int): nat {
    if x < 0 then -x else x
  }

  /** C++ `a / b` on `int`: the quotient truncated toward zero, so the
      remainder `a - q * b` is smaller than the divisor and never has the
      opposite sign of the dividend. */
  function TruncDiv(a: int, b: int): (q: int)
    requires b != 0
    ensures Abs(a - q * b) < Abs(b)
    ensures a - q * b == 0 || (a - q * b < 0 <==> a < 0)
  {
    if a >= 0 then
      if b > 0 then a / b else -(a / -b)
    else
      if b > 0 then -((-a) / b) else (-a) / (-b)
  }

  /** std::numeric_limits<double>::epsilon(), that is 2^-52. */
  const Epsilon: real := 1.0 / 4503599627370496.0

  /** `Expr::is_zero`: strictly inside the band (-epsilon, epsilon). */
  predicate IsZero(v: real) {
    v < Epsilon && v > -Epsilon
  }

  /** `round` from <cmath>: the nearest integer, halfway cases away from zero. */
  function Round(x: real): (r: int)
    ensures x >= 0.0 ==> r as real - 0.5 <= x < r as real + 0.5
    ensures x < 0.0 ==> r as real - 0.5 < x <= r as real + 0.5
  {
    if x >= 0.0 then (x + 0.5).Floor else -((0.5 - x).Floor)
  }

  /** The C++ conversion of a double to an integer: truncation toward zero. */
  function Trunc(x: real): (n: int)
    ensures x >= 0.0 ==> n as real <= x < n as real + 1.0
    ensures x < 0.0 ==> n as real - 1.0 < x <= n as real
  {
    if x >= 0.0 then x.Floor else -((-x).Floor)
  }
}
