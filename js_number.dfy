/**
 * The parts of ECMAScript number arithmetic that the placement code relies
 * on, stated over the mathematical reals: the remainder operator `%`, which
 * truncates its quotient toward zero, and `Math.round`, which rounds to the
 * nearest integer with halves going up.
 */
module JsNumber {

  /** Rounds toward zero, as `%` does with its quotient. */
  function Trunc(x: real): (n: int)
    ensures x >= 0.0 ==> n as real <= x < n as real + 1.0
    ensures x < 0.0 ==> n as real - 1.0 < x <= n as real
  {
    if x >= 0.0 then x.Floor else -((-x).Floor)
  }

  /** `a % b` for a positive divisor: the remainder takes the sign of `a`. */
  function Rem(a: real, b: real): (r: real)
    requires b > 0.0
    ensures -b < r < b
    ensures a >= 0.0 ==> 0.0 <= r
    ensures a <= 0.0 ==> r <= 0.0
    ensures exists n: int :: a == Multiple(b, n) + r
  {
    var q := a / b;
    var t := Trunc(q);
    assert b * q == a;
    assert a == Multiple(b, t) + (a - b * t as real);
    if q >= 0.0 then
      TruncScaledUp(a, b, q, t);
      a - b * t as real
    else
      TruncScaledDown(a, b, q, t);
      a - b * t as real
  }

  /** `n` whole copies of `b`. */
  function Multiple(b: real, n: int): real
  {
    b * n as real
  }

  /** `Math.round(x)`: the integer nearest to `x`, a half rounding up. */
  function Round(x: real): (n: int)
    ensures n as real - 0.5 <= x < n as real + 0.5
  {
    (x + 0.5).Floor
  }

  /** A non-negative quotient `q = a / b` truncated to `t` leaves a remainder in `[0, b)`. */
  lemma TruncScaledUp(a: real, b: real, q: real, t: int)
    requires b > 0.0 && a == b * q
    requires t as real <= q < t as real + 1.0
    ensures 0.0 <= a - b * t as real < b
  {
    var f := q - t as real;
    assert a - b * t as real == b * f;
    MulMonotone(0.0, f, b);
    MulStrict(f, 1.0, b);
  }

  /** A negative quotient `q = a / b` truncated to `t` leaves a remainder in `(-b, 0]`. */
  lemma TruncScaledDown(a: real, b: real, q: real, t: int)
    requires b > 0.0 && a == b * q
    requires t as real - 1.0 < q <= t as real
    ensures -b < a - b * t as real <= 0.0
  {
    var f := q - t as real;
    assert a - b * t as real == b * f;
    MulMonotone(f, 0.0, b);
    MulStrict(-1.0, f, b);
  }

  lemma MulMonotone(x: real, y: real, b: real)
    requires b > 0.0 && x <= y
    ensures b * x <= b * y
  {
  }

  lemma MulStrict(x: real, y: real, b: real)
    requires b > 0.0 && x < y
    ensures b * x < b * y
  {
  }

  /** `x.Floor` is the one integer `m` with `m <= x < m + 1`. */
  lemma FloorUnique(x: real, m: int)
    requires m as real <= x < m as real + 1.0
    ensures x.Floor == m
  {
  }
}
