/** The robot's own teleop drive command (commands/driving): the same
    pipeline as the configurable command, with its settings taken from the
    Drive constants, except that slow mode and squaring exclude each other:
    a slow cycle scales the inputs and skips the square. Joystick readings,
    the slow button and the clock are parameters of Execute; the calls made
    on the drive subsystem are recorded as a trace of effects. */
module ConstantsDriveCommand {
  import opened JavaMath
  import DriveUtil
  import DriveHelper
  import opened SlewRateLimiting
  import ConfiguredDriveCommand

  const SPEED_ADJUSTMENT: real := 0.75
  const TURN_ADJUSTMENT: real := 0.5
  const TRIM_ADJUSTMENT: real := 0.23
  const JOYSTICK_DEADBAND: real := 0.07
  const SLEW_RATE: real := 1.5
  const SLOW_SPEED: real := 0.2

  /** The Drive constants as a configuration of the configurable command. */
  function AsConfig(squareInputs: bool): ConfiguredDriveCommand.DriveConfig
  {
    ConfiguredDriveCommand.DriveConfig(SPEED_ADJUSTMENT, TURN_ADJUSTMENT, TRIM_ADJUSTMENT,
                                       SLOW_SPEED, squareInputs, SLEW_RATE, JOYSTICK_DEADBAND)
  }

  /** The point-slope deadband with the constant band 0.07: zero inside the
      band, full deflection kept, and the same as the configurable command's
      deadband under the Drive constants. */
  function ProcessDeadband(val: real): (r: real)
    ensures Abs(val) < JOYSTICK_DEADBAND ==> r == 0.0
    ensures Abs(val) == 1.0 ==> r == val
    ensures forall square: bool :: r == ConfiguredDriveCommand.ProcessDeadband(AsConfig(square), val)
  {
    DriveHelper.ProcessDeadbandFullDeflection(JOYSTICK_DEADBAND);
    DriveHelper.ProcessDeadband(val, JOYSTICK_DEADBAND)
  }

  /** The power factor: 1/left if left > 1, else 1/right if right > 1, else 1. */
  function FindSpeed(left: real, right: real): (p: real)
    ensures 0.0 < p <= 1.0
    ensures left > 1.0 ==> left * p == 1.0
    ensures left <= 1.0 && right > 1.0 ==> right * p == 1.0
    ensures left <= 1.0 && right <= 1.0 ==> p == 1.0
  {
    if left > 1.0 then 1.0 / left
    else if right > 1.0 then 1.0 / right
    else 1.0
  }

  /** findSpeed is the configurable command's normalizeSpeed: the factor is
      in (0, 1] and brings the side it checked to exactly 1. */
  lemma FindSpeedIsNormalizeSpeed(left: real, right: real)
    ensures FindSpeed(left, right) == ConfiguredDriveCommand.NormalizeSpeed(left, right)
    ensures 0.0 < FindSpeed(left, right) <= 1.0
    ensures left > 1.0 ==> left * FindSpeed(left, right) == 1.0
    ensures left <= 1.0 && right > 1.0 ==> right * FindSpeed(left, right) == 1.0
  {
    assert FindSpeed(left, right) == ConfiguredDriveCommand.NormalizeSpeed(left, right);
  }

  /** One axis before the gain: the deadband, then either the slow factor
      (slow held) or the signed square (squaring on and not slow). */
  function ShapeAxis(squareInputs: bool, slow: bool, x: real): (r: real)
    ensures Abs(x) < JOYSTICK_DEADBAND ==> r == 0.0
    ensures Abs(x) == 1.0 && !slow ==> r == x
    ensures Abs(x) == 1.0 && slow ==> r == SLOW_SPEED * x
  {
    var v := ProcessDeadband(x);
    if slow then SLOW_SPEED * v
    else if squareInputs then DriveUtil.SquareInput(v)
    else v
  }

  /** Outside a slow-and-squared cycle the two commands shape an axis alike.
      In a slow-and-squared cycle this command only scales by the slow
      factor while the configurable one scales and then squares: at full
      deflection the results are 0.2 and 0.04. */
  lemma ShapeAxisAgainstConfigured(squareInputs: bool, slow: bool, x: real)
    ensures !(slow && squareInputs) ==>
              ShapeAxis(squareInputs, slow, x) == ConfiguredDriveCommand.ShapeAxis(AsConfig(squareInputs), slow, x)
    ensures slow ==> ShapeAxis(squareInputs, slow, x) == SLOW_SPEED * ShapeAxis(false, false, x)
    ensures ShapeAxis(true, true, 1.0) == 0.2 && ConfiguredDriveCommand.ShapeAxis(AsConfig(true), true, 1.0) == 0.04
  {
    assert ProcessDeadband(1.0) == 1.0;
  }

  /** The three axes after shaping and their gains, ready for the limiter. */
  function Shaped(squareInputs: bool, slow: bool, speed: real, turn: real, trim: real): (r: ConfiguredDriveCommand.Axes)
    ensures Abs(speed) < JOYSTICK_DEADBAND ==> r.speed == 0.0
    ensures Abs(turn) < JOYSTICK_DEADBAND && Abs(trim) < JOYSTICK_DEADBAND ==> r.turn == 0.0 && r.trim == 0.0
    ensures !slow && speed == 1.0 ==> r.speed == SPEED_ADJUSTMENT
  {
    ConfiguredDriveCommand.Axes(
      ShapeAxis(squareInputs, slow, speed) * SPEED_ADJUSTMENT,
      ShapeAxis(squareInputs, slow, turn) * TURN_ADJUSTMENT,
      ShapeAxis(squareInputs, slow, trim) * TRIM_ADJUSTMENT)
  }

  /** The curvature and power-factor steps of execute, on the limited speed. */
  method MixSpeeds(speed: real, turn: real, trim: real) returns (left: real, right: real)
    ensures Pair(left, right) == ConfiguredDriveCommand.Mix(speed, turn, trim)
  {
    var curvature := turn * speed + trim;
    var powerFactor := FindSpeed(speed - curvature, speed + curvature);
    FindSpeedIsNormalizeSpeed(speed - curvature, speed + curvature);
    left := (speed - curvature) * powerFactor;
    right := (speed + curvature) * powerFactor;
  }

  /** The calls the command makes on the drive subsystem. */
  datatype Effect = SetPower(left: real, right: real) | Stop

  class ButterySmoothDriveCommand {
    const squareInputs: bool
    const limiterNormal: DynamicSlewRateLimiter
    var effects: seq<Effect>

    /** limiterNormal is WPILib's SlewRateLimiter built from the constant
        slew rate: the same rate away from and toward zero. */
    ghost predicate Valid()
    {
      forall t :: limiterNormal.increasingRateLimit(t) == SLEW_RATE && limiterNormal.decreasingRateLimit(t) == SLEW_RATE
    }

    constructor (squareInputs: bool, now: real)
      ensures this.squareInputs == squareInputs && Valid() && effects == []
      ensures fresh(limiterNormal) && limiterNormal.prevVal == 0.0 && limiterNormal.prevTime == now
    {
      this.squareInputs := squareInputs;
      limiterNormal := new DynamicSlewRateLimiter(_ => SLEW_RATE, _ => SLEW_RATE, now);
      effects := [];
    }

    /** One cycle: shape the three readings, limit the speed, mix, and set
        the drive power. */
    method Execute(speedInput: real, turnInput: real, trimInput: real, slow: bool, now: real) returns (left: real, right: real)
      requires Valid()
      modifies this, limiterNormal
      ensures var s := Shaped(squareInputs, slow, speedInput, turnInput, trimInput);
              limiterNormal.prevVal == Step(old(limiterNormal.prevVal), now - old(limiterNormal.prevTime), SLEW_RATE, SLEW_RATE, s.speed)
              && limiterNormal.prevTime == now
              && Pair(left, right) == ConfiguredDriveCommand.Mix(limiterNormal.prevVal, s.turn, s.trim)
      ensures effects == old(effects) + [SetPower(left, right)]
    {
      var shaped := Shaped(squareInputs, slow, speedInput, turnInput, trimInput);
      left, right := LimitAndMix(shaped.speed, shaped.turn, shaped.trim, now);
    }

    /** The second half of execute: slew-limit the shaped speed, apply the
        curvature term, scale by the power factor and set the drive power. */
    method LimitAndMix(speed: real, turn: real, trim: real, now: real) returns (left: real, right: real)
      requires Valid()
      modifies this, limiterNormal
      ensures limiterNormal.prevVal == Step(old(limiterNormal.prevVal), now - old(limiterNormal.prevTime), SLEW_RATE, SLEW_RATE, speed)
      ensures limiterNormal.prevTime == now
      ensures Pair(left, right) == ConfiguredDriveCommand.Mix(limiterNormal.prevVal, turn, trim)
      ensures effects == old(effects) + [SetPower(left, right)]
    {
      assert limiterNormal.increasingRateLimit(now) == SLEW_RATE && limiterNormal.decreasingRateLimit(now) == SLEW_RATE;
      var limited := limiterNormal.Calculate(speed, now);
      left, right := MixSpeeds(limited.value, turn, trim);
      effects := effects + [SetPower(left, right)];
    }

    /** Stops the drive, interrupted or not. */
    method End(interrupted: bool)
      modifies this
      ensures effects == old(effects) + [Stop]
    {
      effects := effects + [Stop];
    }
  }
}
