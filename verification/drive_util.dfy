/** The current drive-input shaping helpers (DriveUtil): a smooth deadband,
    sign-preserving squaring, the curvature turn term and normalisation of a
    left/right pair by the larger magnitude. */
module DriveUtil {
  import opened JavaMath

  /** Deadband with a smooth ramp: zero inside the band, outside it the ramp
      smoothing / (1 - deadband) * (|x| - deadband), clamped to [0, |x|] and
      given the sign of x. The result never has a larger magnitude than x and
      never the opposite sign. */
  function ProcessDeadband(x: real, deadband: real, smoothing: real): (r: real)
    requires deadband != 1.0
    ensures Abs(x) < deadband ==> r == 0.0
    ensures Abs(r) <= Abs(x)
    ensures r == 0.0 || Signum(r) == Signum(x)
  {
    var positiveX := Abs(x);
    if positiveX < deadband then 0.0
    else Clamp((smoothing / (1.0 - deadband)) * (positiveX - deadband), 0.0, positiveX) * Signum(x)
  }

  /** Outside the band, the result is the ramp value while it is below |x|
      and saturates at x itself once the ramp reaches |x|. */
  lemma ProcessDeadbandOutsideBand(x: real, deadband: real, smoothing: real)
    requires 0.0 <= deadband < 1.0 && smoothing > 0.0 && Abs(x) > deadband
    ensures ProcessDeadband(x, deadband, smoothing) != 0.0
    ensures Signum(ProcessDeadband(x, deadband, smoothing)) == Signum(x)
    ensures smoothing / (1.0 - deadband) * (Abs(x) - deadband) >= Abs(x) ==>
              ProcessDeadband(x, deadband, smoothing) == x
    ensures smoothing / (1.0 - deadband) * (Abs(x) - deadband) < Abs(x) ==>
              Abs(ProcessDeadband(x, deadband, smoothing)) == smoothing / (1.0 - deadband) * (Abs(x) - deadband)
  {
    var k := smoothing / (1.0 - deadband);
    assert k > 0.0 by { PositiveQuotient(smoothing, 1.0 - deadband); }
    var ramp := k * (Abs(x) - deadband);
    assert ramp > 0.0 by { PositiveProduct(k, Abs(x) - deadband); }
    var c := Clamp(ramp, 0.0, Abs(x));
    assert c == (if ramp <= Abs(x) then ramp else Abs(x));
    assert c > 0.0;
    assert ProcessDeadband(x, deadband, smoothing) == c * Signum(x);
    if x > 0.0 {
      assert c * Signum(x) == c;
    } else {
      assert c * Signum(x) == -c;
    }
  }

  lemma PositiveProduct(a: real, b: real)
    requires a > 0.0 && b > 0.0
    ensures a * b > 0.0
  {
  }

  lemma PositiveQuotient(a: real, b: real)
    requires a > 0.0 && b > 0.0
    ensures a / b > 0.0
  {
    assert (a / b) * b == a;
  }

  /** The deadband is an odd function of x. */
  lemma ProcessDeadbandIsOdd(x: real, deadband: real, smoothing: real)
    requires deadband != 1.0
    ensures ProcessDeadband(-x, deadband, smoothing) == -ProcessDeadband(x, deadband, smoothing)
  {
    assert Abs(-x) == Abs(x);
    assert Signum(-x) == -Signum(x);
  }

  /** At the edge of the band the ramp starts from zero, so there is no jump
      when the input crosses it. */
  lemma ProcessDeadbandContinuousAtEdge(x: real, deadband: real, smoothing: real)
    requires deadband != 1.0 && Abs(x) == deadband
    ensures ProcessDeadband(x, deadband, smoothing) == 0.0
  {
  }

  /** The values the unit tests pin (exact over the reals). */
  lemma ProcessDeadbandTestValues()
    ensures ProcessDeadband(0.0, 0.5, 1.0) == 0.0
    ensures ProcessDeadband(0.15, 0.25, 1.0) == 0.0
    ensures ProcessDeadband(0.3, 0.1, 1.5) == 0.3
    ensures ProcessDeadband(0.15, 0.1, 2.0) == 1.0 / 9.0
    ensures ProcessDeadband(0.8, 0.1, 1.0) == 7.0 / 9.0
  {
    assert 1.5 / (1.0 - 0.1) * (0.3 - 0.1) > 0.3;
  }

  /** Squares a value and keeps its sign: magnitude x*x, sign of x. On
      [-1, 1] it never grows the magnitude. */
  function SquareInput(x: real): (r: real)
    ensures Abs(r) == x * x
    ensures Signum(r) == Signum(x)
    ensures Abs(x) <= 1.0 ==> Abs(r) <= Abs(x)
  {
    SquareMagnitude(x);
    SignedSquare(x);
    Signum(x) * (x * x)
  }

  lemma SignedSquare(x: real)
    ensures x > 0.0 ==> Signum(x) * (x * x) == x * x > 0.0
    ensures x < 0.0 ==> Signum(x) * (x * x) == -(x * x) < 0.0
    ensures x == 0.0 ==> Signum(x) * (x * x) == 0.0
    ensures Signum(Signum(x) * (x * x)) == Signum(x)
  {
    SquareMagnitude(x);
    if x > 0.0 {
      assert Signum(x) == 1.0;
    } else if x < 0.0 {
      assert Signum(x) == -1.0;
      assert Signum(x) * (x * x) < 0.0;
    }
  }

  lemma SquareMagnitude(x: real)
    ensures x * x >= 0.0
    ensures x != 0.0 ==> x * x > 0.0
    ensures Abs(x) <= 1.0 ==> x * x <= Abs(x)
  {
    if x != 0.0 {
      assert x * x == Abs(x) * Abs(x);
      PositiveProduct(Abs(x), Abs(x));
    }
    if Abs(x) <= 1.0 {
      SquareAtMostAbs(x);
    }
  }

  /** On [-1, 1] the square is at most the magnitude. */
  lemma SquareAtMostAbs(x: real)
    requires Abs(x) <= 1.0
    ensures x * x <= Abs(x)
  {
    var a := Abs(x);
    MulLeftMono(a, a, 1.0);
    assert a * a <= a;
    assert x * x == a * a;
  }

  lemma MulLeftMono(k: real, x: real, y: real)
    requires k >= 0.0 && x <= y
    ensures k * x <= k * y
  {
    assert k * y - k * x == k * (y - x);
  }

  /** Squaring is odd, and its fixed points are exactly -1, 0 and 1. */
  lemma SquareInputFixedPoints(x: real)
    ensures SquareInput(-x) == -SquareInput(x)
    ensures SquareInput(x) == x <==> (x == -1.0 || x == 0.0 || x == 1.0)
  {
    assert (-x) * (-x) == x * x;
    if SquareInput(x) == x && x != 0.0 {
      if x > 0.0 {
        assert x * (x - 1.0) == 0.0;
        ZeroProduct(x, x - 1.0);
      } else {
        assert -(x * x) == x;
        assert x * (-x - 1.0) == 0.0;
        ZeroProduct(x, -x - 1.0);
      }
    }
  }

  lemma ZeroProduct(a: real, b: real)
    requires a * b == 0.0
    ensures a == 0.0 || b == 0.0
  {
  }

  /** Curvature turn term: turn authority scaled by the speed magnitude, plus trim. */
  function ConstantCurvature(speed: real, turn: real, trim: real): (r: real)
    ensures turn >= 0.0 ==> r >= trim
    ensures turn <= 0.0 ==> r <= trim
    ensures Abs(speed) <= 1.0 ==> trim - Abs(turn) <= r <= trim + Abs(turn)
  {
    CurvatureTerm(Abs(speed), turn);
    Abs(speed) * turn + trim
  }

  /** A non-negative magnitude m times the turn keeps the sign of the turn,
      and does not exceed it in magnitude while m is at most 1. */
  lemma CurvatureTerm(m: real, turn: real)
    requires m >= 0.0
    ensures turn >= 0.0 ==> m * turn >= 0.0
    ensures turn <= 0.0 ==> m * turn <= 0.0
    ensures m <= 1.0 ==> -Abs(turn) <= m * turn <= Abs(turn)
  {
    if turn > 0.0 {
      MulLeftMono(m, 0.0, turn);
      if m <= 1.0 {
        MulLeftMono(turn, m, 1.0);
      }
    } else if turn < 0.0 {
      MulLeftMono(m, turn, 0.0);
      if m <= 1.0 {
        MulLeftMono(-turn, m, 1.0);
        assert m * turn == -((-turn) * m);
      }
    }
  }

  /** Driving backwards turns the same way as driving forwards, and at rest
      only the trim remains. */
  lemma ConstantCurvatureProperties(speed: real, turn: real, trim: real)
    ensures ConstantCurvature(-speed, turn, trim) == ConstantCurvature(speed, turn, trim)
    ensures ConstantCurvature(0.0, turn, trim) == trim
    ensures Abs(ConstantCurvature(speed, turn, trim) - trim) == Abs(speed) * Abs(turn)
  {
    assert Abs(-speed) == Abs(speed);
    if turn < 0.0 {
      assert Abs(speed) * turn == -(Abs(speed) * Abs(turn));
    }
  }

  /** Values the unit tests pin, including a reverse drive that turns the
      same way as forward. */
  lemma ConstantCurvatureTestValues()
    ensures ConstantCurvature(0.0, 1.0, 0.0) == 0.0
    ensures ConstantCurvature(1.0, 1.0, 0.0) == 1.0
    ensures ConstantCurvature(0.5, 0.5, 0.5) == 0.75
    ensures ConstantCurvature(0.0, 1.0, 0.5) == 0.5
    ensures ConstantCurvature(0.1, 1.0, 0.25) == 0.35
    ensures ConstantCurvature(1.0, -0.5, 0.0) == -0.5
    ensures ConstantCurvature(-1.0, -0.5, 0.0) == -0.5
  {
    CurvatureAtRest();
    CurvatureForward();
    CurvatureForwardAndReverse();
  }

  lemma CurvatureAtRest()
    ensures ConstantCurvature(0.0, 1.0, 0.0) == 0.0
    ensures ConstantCurvature(0.0, 1.0, 0.5) == 0.5
  {
  }

  lemma CurvatureForward()
    ensures ConstantCurvature(1.0, 1.0, 0.0) == 1.0
    ensures ConstantCurvature(0.5, 0.5, 0.5) == 0.75
  {
  }

  lemma CurvatureForwardAndReverse()
    ensures ConstantCurvature(0.1, 1.0, 0.25) == 0.35
    ensures ConstantCurvature(1.0, -0.5, 0.0) == -0.5
    ensures ConstantCurvature(-1.0, -0.5, 0.0) == -0.5
  {
  }

  /** Scales a pair so that neither exceeds magnitude 1: unchanged when the
      larger magnitude m is at most 1, otherwise both divided by m, which keeps
      their signs and ratio and puts the larger one at exactly +-1. */
  function NormalizeValues(first: real, second: real): (r: Pair)
    ensures Abs(r.first) <= 1.0 && Abs(r.second) <= 1.0
    ensures Max(Abs(first), Abs(second)) <= 1.0 ==> r == Pair(first, second)
    ensures Max(Abs(first), Abs(second)) > 1.0 ==> Max(Abs(r.first), Abs(r.second)) == 1.0
    ensures Signum(r.first) == Signum(first) && Signum(r.second) == Signum(second)
    ensures r.first * second == r.second * first
  {
    var m := Max(Abs(first), Abs(second));
    var factor := if m > 1.0 then 1.0 / m else 1.0;
    ScaledByMax(first, second, m, factor);
    Pair(first * factor, second * factor)
  }

  lemma ScaledByMax(first: real, second: real, m: real, factor: real)
    requires m == Max(Abs(first), Abs(second))
    requires factor == if m > 1.0 then 1.0 / m else 1.0
    ensures factor > 0.0
    ensures Abs(first * factor) <= 1.0 && Abs(second * factor) <= 1.0
    ensures m > 1.0 ==> Max(Abs(first * factor), Abs(second * factor)) == 1.0
    ensures Signum(first * factor) == Signum(first) && Signum(second * factor) == Signum(second)
  {
    if m > 1.0 {
      assert factor * m == 1.0;
      ScaledMagnitude(first, factor, m);
      ScaledMagnitude(second, factor, m);
    }
  }

  lemma ScaledMagnitude(v: real, factor: real, m: real)
    requires m > 0.0 && factor * m == 1.0 && Abs(v) <= m
    ensures factor > 0.0
    ensures Abs(v * factor) == Abs(v) * factor <= 1.0
    ensures Abs(v) == m ==> Abs(v * factor) == 1.0
    ensures Signum(v * factor) == Signum(v)
  {
    assert factor > 0.0;
    assert Abs(v) * factor <= m * factor;
    if v < 0.0 {
      assert v * factor < 0.0;
      assert Abs(v * factor) == (-v) * factor;
    } else if v > 0.0 {
      assert v * factor > 0.0;
    }
  }

  /** The pairs the unit tests pin. */
  lemma NormalizeValuesTestValues()
    ensures NormalizeValues(0.25, 0.25) == Pair(0.25, 0.25)
    ensures NormalizeValues(0.0, 0.0) == Pair(0.0, 0.0)
    ensures NormalizeValues(-1.0, -1.0) == Pair(-1.0, -1.0)
    ensures NormalizeValues(1.0, 1.5) == Pair(1.0 / 1.5, 1.0)
    ensures NormalizeValues(1.4, 2.3) == Pair(1.4 / 2.3, 1.0)
    ensures NormalizeValues(1.2, 0.5) == Pair(1.0, 0.5 / 1.2)
    ensures NormalizeValues(-1.6, 0.3) == Pair(-1.0, 0.3 / 1.6)
  {
  }
}
