/** The older drive-input helpers (DriveHelper): a point-slope deadband, the
    signed square, a curvature term without the absolute value of the speed,
    and a normalisation that only looks at positive overflow. Each is related
    below to its successor in DriveUtil. */
module DriveHelper {
  import opened JavaMath
  import DriveUtil

  /** Deadband by the point-slope line through (deadband, 0) and (1, 1):
      zero inside the band, (val - sign(val) * deadband) / (1 - deadband)
      outside it. The line starts at zero on the edge of the band. */
  function ProcessDeadband(val: real, deadband: real): (r: real)
    requires deadband != 1.0
    ensures Abs(val) < deadband ==> r == 0.0
    ensures Abs(val) == deadband ==> r == 0.0
  {
    SignumTimesAbs(val);
    if Abs(val) < deadband then 0.0
    else (1.0 / (1.0 - deadband)) * (val + (-Signum(val) * deadband))
  }

  /** The old deadband is odd in its input. */
  lemma ProcessDeadbandIsOdd(val: real, deadband: real)
    requires deadband != 1.0
    ensures ProcessDeadband(-val, deadband) == -ProcessDeadband(val, deadband)
  {
    assert Abs(-val) == Abs(val);
    assert Signum(-val) == -Signum(val);
    var k := 1.0 / (1.0 - deadband);
    assert k * (-val + (-Signum(-val) * deadband)) == -(k * (val + (-Signum(val) * deadband)));
  }

  /** For a band below 1, outside the band the result keeps the sign of the
      input and its magnitude is (|val| - deadband) / (1 - deadband). */
  lemma ProcessDeadbandOutsideBand(val: real, deadband: real)
    requires deadband < 1.0 && Abs(val) >= deadband && val != 0.0
    ensures Abs(ProcessDeadband(val, deadband)) == (Abs(val) - deadband) / (1.0 - deadband)
    ensures Abs(val) > deadband ==> Signum(ProcessDeadband(val, deadband)) == Signum(val)
  {
    var k := 1.0 / (1.0 - deadband);
    var y := if val > 0.0 then val - deadband else val + deadband;
    assert ProcessDeadband(val, deadband) == k * y;
    assert Abs(y) == Abs(val) - deadband;
    ProductSign(k, y);
    assert Abs(k * y) == k * Abs(y);
    DivAsProduct(Abs(y), 1.0 - deadband);
  }

  /** Multiplying by a positive k keeps sign and scales magnitude. */
  lemma ProductSign(k: real, y: real)
    requires k > 0.0
    ensures y > 0.0 ==> k * y > 0.0
    ensures y < 0.0 ==> k * y < 0.0
    ensures y == 0.0 ==> k * y == 0.0
    ensures Abs(k * y) == k * Abs(y)
  {
    if y < 0.0 {
      assert k * (-y) > 0.0;
      assert k * (-y) == -(k * y);
    } else if y > 0.0 {
      assert k * y > 0.0;
    }
  }

  /** Multiplying by the reciprocal is dividing. */
  lemma DivAsProduct(y: real, c: real)
    requires c > 0.0
    ensures (1.0 / c) > 0.0 && (1.0 / c) * y == y / c
  {
  }

  /** For a band below 1, full deflection stays full deflection. */
  lemma ProcessDeadbandFullDeflection(deadband: real)
    requires deadband < 1.0
    ensures ProcessDeadband(1.0, deadband) == 1.0 && ProcessDeadband(-1.0, deadband) == -1.0
  {
    var k := 1.0 / (1.0 - deadband);
    assert k * (1.0 - deadband) == 1.0 by {
      assert 1.0 - deadband > 0.0;
    }
    OutsideBand(1.0, deadband);
    OutsideBand(-1.0, deadband);
    assert k * (-1.0 + deadband) == -(k * (1.0 - deadband));
  }

  /** Outside the band the old deadband is the point-slope line. */
  lemma OutsideBand(val: real, deadband: real)
    requires deadband != 1.0 && Abs(val) >= deadband
    ensures ProcessDeadband(val, deadband) == (1.0 / (1.0 - deadband)) * (val - Signum(val) * deadband)
  {
    assert val + (-Signum(val) * deadband) == val - Signum(val) * deadband;
  }

  /** On the joystick range [-1, 1] and a band in [0, 1), the old deadband is
      the new one with smoothing 1: there the ramp never reaches the clamp. */
  lemma ProcessDeadbandAgreesWithDriveUtil(val: real, deadband: real)
    requires 0.0 <= deadband < 1.0 && Abs(val) <= 1.0
    ensures ProcessDeadband(val, deadband) == DriveUtil.ProcessDeadband(val, deadband, 1.0)
  {
    if Abs(val) >= deadband {
      NewDeadbandOnRamp(val, deadband);
      OldDeadbandOnRamp(val, deadband);
    }
  }

  lemma NewDeadbandOnRamp(val: real, deadband: real)
    requires 0.0 <= deadband < 1.0 && deadband <= Abs(val) <= 1.0
    ensures DriveUtil.ProcessDeadband(val, deadband, 1.0) == (1.0 / (1.0 - deadband)) * (Abs(val) - deadband) * Signum(val)
  {
    RampBelowInput(Abs(val), deadband);
  }

  lemma OldDeadbandOnRamp(val: real, deadband: real)
    requires 0.0 <= deadband < 1.0 && deadband <= Abs(val)
    ensures ProcessDeadband(val, deadband) == (1.0 / (1.0 - deadband)) * (Abs(val) - deadband) * Signum(val)
  {
    var k := 1.0 / (1.0 - deadband);
    OutsideBand(val, deadband);
    assert val - Signum(val) * deadband == Signum(val) * (Abs(val) - deadband) by {
      if val < 0.0 {
        assert Signum(val) == -1.0 && Abs(val) == -val;
      } else if val > 0.0 {
        assert Signum(val) == 1.0 && Abs(val) == val;
      }
    }
    assert k * (Signum(val) * (Abs(val) - deadband)) == k * (Abs(val) - deadband) * Signum(val);
  }

  /** (a - d) / (1 - d) lies in [0, a] when d <= a <= 1 and 0 <= d < 1. */
  lemma RampBelowInput(a: real, deadband: real)
    requires 0.0 <= deadband < 1.0 && deadband <= a <= 1.0
    ensures 0.0 <= (1.0 / (1.0 - deadband)) * (a - deadband) <= a
  {
    var k := 1.0 / (1.0 - deadband);
    assert k > 0.0;
    assert deadband * a <= deadband * 1.0 by { MulMono(deadband, a, 1.0); }
    assert a - deadband <= a * (1.0 - deadband);
    MulMono(k, a - deadband, a * (1.0 - deadband));
    assert k * (a * (1.0 - deadband)) == a * (k * (1.0 - deadband));
    assert k * (1.0 - deadband) == 1.0;
    MulMono(k, 0.0, a - deadband);
  }

  lemma MulMono(k: real, x: real, y: real)
    requires k >= 0.0 && x <= y
    ensures k * x <= k * y
  {
    assert k * y - k * x == k * (y - x);
  }

  /** Signed square: magnitude val * val with the sign of val. */
  function SquareInput(val: real): (r: real)
    ensures Abs(r) == val * val
    ensures Signum(r) == Signum(val)
  {
    DriveUtil.SquareMagnitude(val);
    DriveUtil.SignedSquare(val);
    Signum(val) * (val * val)
  }

  /** The old square is odd and is the same function as the new one. */
  lemma SquareInputIsOddAndAgrees(val: real)
    ensures SquareInput(-val) == -SquareInput(val)
    ensures SquareInput(val) == DriveUtil.SquareInput(val)
  {
    assert (-val) * (-val) == val * val;
  }

  /** Curvature term without the absolute value: turn * speed + trim. */
  function ConstantCurvature(speed: real, turn: real, trim: real): (r: real)
    ensures speed >= 0.0 && turn >= 0.0 ==> r >= trim
    ensures speed >= 0.0 && turn <= 0.0 ==> r <= trim
    ensures speed <= 0.0 && turn >= 0.0 ==> r <= trim
    ensures speed <= 0.0 && turn <= 0.0 ==> r >= trim
    ensures Abs(speed) <= 1.0 ==> trim - Abs(turn) <= r <= trim + Abs(turn)
  {
    DriveUtil.CurvatureTerm(Abs(speed), turn);
    assert turn * speed == if speed >= 0.0 then Abs(speed) * turn else -(Abs(speed) * turn);
    turn * speed + trim
  }

  /** Negating the speed negates the turn part, so driving backwards turns
      the other way; at rest only the trim remains. Compared with DriveUtil,
      the two agree for a non-negative speed and mirror around the trim for
      a negative one. */
  lemma ConstantCurvatureAgainstDriveUtil(speed: real, turn: real, trim: real)
    ensures ConstantCurvature(-speed, turn, trim) - trim == -(ConstantCurvature(speed, turn, trim) - trim)
    ensures ConstantCurvature(0.0, turn, trim) == trim
    ensures speed >= 0.0 ==> ConstantCurvature(speed, turn, trim) == DriveUtil.ConstantCurvature(speed, turn, trim)
    ensures speed < 0.0 ==> ConstantCurvature(speed, turn, trim) == 2.0 * trim - DriveUtil.ConstantCurvature(speed, turn, trim)
  {
    assert turn * (-speed) == -(turn * speed);
    assert DriveUtil.ConstantCurvature(speed, turn, trim) == Abs(speed) * turn + trim;
    if speed >= 0.0 {
      assert Abs(speed) == speed;
      assert Abs(speed) * turn == turn * speed;
    } else {
      assert Abs(speed) == -speed;
      assert (-speed) * turn == -(turn * speed);
    }
  }

  /** Scales both values by 1/first when first > 1, otherwise by 1/second
      when second > 1, otherwise leaves them. The ratio and signs survive;
      the value that was checked and found above 1 lands on exactly 1. */
  function NormalizeValues(first: real, second: real): (r: Pair)
    ensures first <= 1.0 && second <= 1.0 ==> r == Pair(first, second)
    ensures first > 1.0 ==> r.first == 1.0
    ensures first <= 1.0 && second > 1.0 ==> r.second == 1.0
    ensures r.first * second == r.second * first
    ensures Signum(r.first) == Signum(first) && Signum(r.second) == Signum(second)
  {
    var factor := ScaleFactor(first, second);
    PositiveScale(first, factor);
    PositiveScale(second, factor);
    Pair(first * factor, second * factor)
  }

  /** The factor NormalizeValues scales by. */
  function ScaleFactor(first: real, second: real): (factor: real)
    ensures factor > 0.0
  {
    if first > 1.0 then 1.0 / first else if second > 1.0 then 1.0 / second else 1.0
  }

  /** NormalizeValues multiplies both values by ScaleFactor. */
  lemma NormalizeValuesScales(first: real, second: real)
    ensures NormalizeValues(first, second) == Pair(first * ScaleFactor(first, second), second * ScaleFactor(first, second))
  {
  }

  lemma PositiveScale(v: real, factor: real)
    requires factor > 0.0
    ensures Signum(v * factor) == Signum(v)
  {
    if v > 0.0 {
      assert v * factor > 0.0;
    } else if v < 0.0 {
      assert v * factor < 0.0;
    }
  }

  /** As written, a larger second value is not brought into range when the
      first is checked first, and values below -1 are never scaled. */
  lemma NormalizeValuesCanExceedOne()
    ensures NormalizeValues(1.2, 2.4) == Pair(1.0, 2.0)
    ensures NormalizeValues(-3.0, 0.5) == Pair(-3.0, 0.5)
  {
  }

  /** Where the old normalisation sees the larger value (both non-negative,
      and second not larger whenever first is above 1), it agrees with the
      new one. */
  lemma NormalizeValuesAgreesWithDriveUtil(first: real, second: real)
    requires first >= 0.0 && second >= 0.0
    requires first > 1.0 ==> second <= first
    ensures NormalizeValues(first, second) == DriveUtil.NormalizeValues(first, second)
  {
    var m := Max(Abs(first), Abs(second));
    assert Abs(first) == first && Abs(second) == second;
    var f := if first > 1.0 then 1.0 / first else if second > 1.0 then 1.0 / second else 1.0;
    assert m > 1.0 ==> 1.0 / m == f;
    assert m <= 1.0 ==> f == 1.0;
    var a, b := NormalizeValues(first, second), DriveUtil.NormalizeValues(first, second);
    assert a.first == first * f && a.second == second * f;
    assert b.first == first * f && b.second == second * f;
  }
}
