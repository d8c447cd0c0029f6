/** Numeric building blocks shared by the model: the java.lang.Math and WPILib
    MathUtil operations the robot code calls, Java's truncating integer division
    and remainder, 32-bit int wrap-around and the saturating double-to-int cast.
    Doubles are modelled as mathematical reals (no rounding, no NaN, no infinity). */
module JavaMath {

  /** WPILib's Pair<Double, Double>. */
  datatype Pair = Pair(first: real, second: real)

  const INT_MIN: int := -0x8000_0000
  const INT_MAX: int := 0x7fff_ffff

  /** Math.signum on a real argument. */
  function Signum(x: real): (r: real)
    ensures r == 1.0 || r == 0.0 || r == -1.0
    ensures (r > 0.0 <==> x > 0.0) && (r < 0.0 <==> x < 0.0)
  {
    if x > 0.0 then 1.0 else if x < 0.0 then -1.0 else 0.0
  }

  /** Math.abs on a real argument. */
  function Abs(x: real): (r: real)
    ensures r >= 0.0 && (r == x || r == -x)
  {
    if x < 0.0 then -x else x
  }

  /** Math.max on reals. */
  function Max(a: real, b: real): (r: real)
    ensures r >= a && r >= b && (r == a || r == b)
  {
    if a >= b then a else b
  }

  /** Math.min on reals. */
  function Min(a: real, b: real): (r: real)
    ensures r <= a && r <= b && (r == a || r == b)
  {
    if a <= b then a else b
  }

  /** WPILib MathUtil.clamp(value, low, high), which is max(low, min(value, high)):
      when the bounds are crossed (low > high) it answers low. */
  function Clamp(value: real, low: real, high: real): (r: real)
    ensures low <= high ==> low <= r <= high
    ensures low <= value <= high ==> r == value
    ensures low > high ==> r == low
    ensures value < low ==> r == low
    ensures low <= high <= value ==> r == high
  {
    var m := if value <= high then value else high;
    if low >= m then low else m
  }

  /** A value is its sign times its magnitude. */
  lemma SignumTimesAbs(x: real)
    ensures Signum(x) * Abs(x) == x
    ensures Signum(x) * x == Abs(x)
  {
  }

  /** Math.abs on an int argument (no overflow: the model never takes |INT_MIN|). */
  function IntAbs(n: int): (r: nat)
    ensures r == n || r == -n
    ensures r >= n && r >= -n
  {
    if n < 0 then -n else n
  }

  /** Java's int `/`: the quotient is truncated toward zero. */
  function JavaDiv(a: int, b: int): (q: int)
    requires b != 0
    ensures IntAbs(q) == IntAbs(a) / IntAbs(b)
    ensures a >= 0 && b > 0 ==> q == a / b
  {
    var ua: int, ub: int := IntAbs(a), IntAbs(b);
    DivRem(ua, ub);
    var q0: int := ua / ub;
    if (a < 0) == (b < 0) then q0 else -q0
  }

  /** Java's int `%`: the remainder takes the sign of the dividend. */
  function JavaRem(a: int, b: int): (r: int)
    requires b != 0
    ensures a == JavaDiv(a, b) * b + r
    ensures IntAbs(r) < IntAbs(b)
    ensures a >= 0 ==> 0 <= r
    ensures a <= 0 ==> r <= 0
    ensures a >= 0 && b > 0 ==> r == a % b
  {
    var ua: int, ub: int := IntAbs(a), IntAbs(b);
    DivRem(ua, ub);
    var q: int := JavaDiv(a, b);
    var q0: int := ua / ub;
    assert q * b == (if a < 0 then -(q0 * ub) else q0 * ub) by {
      if (a < 0) == (b < 0) {
        assert q == q0;
        if b < 0 { assert ub == -b; } else { assert ub == b; }
      } else {
        assert q == -q0;
        if b < 0 { assert ub == -b; } else { assert ub == b; }
      }
    }
    if a < 0 then -(ua % ub) else ua % ub
  }

  /** Euclidean division of naturals, spelled out for the solver. */
  lemma DivRem(ua: int, ub: int)
    requires ua >= 0 && ub > 0
    ensures ua == (ua / ub) * ub + ua % ub && 0 <= ua % ub < ub
    ensures ua / ub >= 0
  {
  }

  /** The int result of an int operation whose mathematical value is n:
      two's-complement wrap-around into [INT_MIN, INT_MAX]. */
  function Wrap32(n: int): (r: int)
    ensures INT_MIN <= r <= INT_MAX
    ensures INT_MIN <= n <= INT_MAX ==> r == n
  {
    (n - INT_MIN) % 0x1_0000_0000 + INT_MIN
  }

  /** The Java narrowing cast `(int) x` of a double: truncation toward zero,
      saturating at the ends of the int range. */
  function ToInt(x: real): (r: int)
    ensures INT_MIN <= r <= INT_MAX
    ensures x >= 0.0 ==> r >= 0
    ensures 0.0 <= x < INT_MAX as real ==> r as real <= x < r as real + 1.0
    ensures INT_MIN as real < x <= 0.0 ==> r as real - 1.0 < x <= r as real
    ensures x >= INT_MAX as real ==> r == INT_MAX
    ensures x <= INT_MIN as real ==> r == INT_MIN
  {
    var t := if x >= 0.0 then x.Floor else -((-x).Floor);
    if t < INT_MIN then INT_MIN else if t > INT_MAX then INT_MAX else t
  }
}

/** The exceptions the modelled code throws, as values. */
module Exceptions {

  datatype Error =
    | IllegalArgument        // java.lang.IllegalArgumentException
    | IndexOutOfBounds       // java.lang.IndexOutOfBoundsException
    | Arithmetic             // java.lang.ArithmeticException (int division by zero)

  datatype Result<+T> = Ok(value: T) | Err(error: Error)

  /** How a void method ends: normally, or by throwing. */
  datatype Outcome = Done | Thrown(error: Error)
}
