/** The configurable teleop drive command (lib/drive/ButterySmoothDriveCommand):
    each cycle it reads speed, turn and trim from the joystick, applies the
    deadband, slow mode, optional squaring and the gains, slew-limits the
    speed, mixes in the curvature turn and scales the left/right pair by a
    power factor before handing it to the speed consumer. The joystick
    readings, the slow button and the clock are parameters of Execute; what
    the command hands to its consumers is recorded as a trace of effects. */
module ConfiguredDriveCommand {
  import opened JavaMath
  import DriveUtil
  import DriveHelper
  import opened SlewRateLimiting

  /** The DriveConfig record. */
  datatype DriveConfig = DriveConfig(
    speedAdjustment: real,
    turnAdjustment: real,
    trimAdjustment: real,
    slowSpeed: real,
    squareInputs: bool,
    slewRate: real,
    joystickDeadband: real)

  /** The command's private deadband: the point-slope deadband of the old
      drive helper, with the configured band. Inside the band it answers 0
      and full deflection stays full deflection. */
  function ProcessDeadband(config: DriveConfig, val: real): (r: real)
    requires config.joystickDeadband != 1.0
    ensures Abs(val) < config.joystickDeadband ==> r == 0.0
    ensures config.joystickDeadband < 1.0 && Abs(val) == 1.0 ==> r == val
  {
    if config.joystickDeadband < 1.0 then
      DriveHelper.ProcessDeadbandFullDeflection(config.joystickDeadband);
      DriveHelper.ProcessDeadband(val, config.joystickDeadband)
    else
      DriveHelper.ProcessDeadband(val, config.joystickDeadband)
  }

  /** The power factor: 1/left if left > 1, else 1/right if right > 1, else
      1. It is always in (0, 1], and brings the side it checked to exactly 1. */
  function NormalizeSpeed(left: real, right: real): (p: real)
    ensures 0.0 < p <= 1.0
    ensures left > 1.0 ==> left * p == 1.0
    ensures left <= 1.0 && right > 1.0 ==> right * p == 1.0
    ensures left <= 1.0 && right <= 1.0 ==> p == 1.0
  {
    if left > 1.0 then 1.0 / left
    else if right > 1.0 then 1.0 / right
    else 1.0
  }

  /** Scaling a pair by its power factor is the old drive helper's
      normalisation of that pair. */
  lemma NormalizeSpeedIsNormalizeValues(left: real, right: real)
    ensures DriveHelper.NormalizeValues(left, right) == Pair(left * NormalizeSpeed(left, right), right * NormalizeSpeed(left, right))
  {
    assert NormalizeSpeed(left, right) == DriveHelper.ScaleFactor(left, right);
    DriveHelper.NormalizeValuesScales(left, right);
  }

  /** One axis before the gain: deadband, then the slow-mode factor when
      slow is held, then the signed square when squaring is configured. */
  function ShapeAxis(config: DriveConfig, slow: bool, x: real): (r: real)
    requires config.joystickDeadband != 1.0
    ensures Abs(x) < config.joystickDeadband ==> r == 0.0
  {
    var v := ProcessDeadband(config, x);
    var s := if slow then config.slowSpeed * v else v;
    if config.squareInputs then DriveUtil.SquareInput(s) else s
  }

  /** Slow mode comes before squaring, so with squaring on it scales the
      result by slowSpeed squared; with squaring off, by slowSpeed. */
  lemma SlowModeScaling(config: DriveConfig, x: real)
    requires config.joystickDeadband != 1.0 && config.slowSpeed >= 0.0
    ensures config.squareInputs ==>
              ShapeAxis(config, true, x) == config.slowSpeed * config.slowSpeed * ShapeAxis(config, false, x)
    ensures !config.squareInputs ==>
              ShapeAxis(config, true, x) == config.slowSpeed * ShapeAxis(config, false, x)
  {
    var v := ProcessDeadband(config, x);
    var k := config.slowSpeed;
    if config.squareInputs {
      SquareOfScaled(k, v);
    }
  }

  /** The signed square of k * v, for k >= 0, is k * k times that of v. */
  lemma SquareOfScaled(k: real, v: real)
    requires k >= 0.0
    ensures DriveUtil.SquareInput(k * v) == k * k * DriveUtil.SquareInput(v)
  {
    DriveUtil.SignedSquare(v);
    DriveUtil.SignedSquare(k * v);
    assert (k * v) * (k * v) == k * k * (v * v);
    if k == 0.0 || v == 0.0 {
      assert k * v == 0.0;
    } else if v > 0.0 {
      assert k * v > 0.0;
    } else {
      assert k * v < 0.0;
    }
  }

  /** The three driver axes. */
  datatype Axes = Axes(speed: real, turn: real, trim: real)

  /** The three axes after shaping and their gains, ready for the limiter. */
  function Shaped(config: DriveConfig, slow: bool, speed: real, turn: real, trim: real): (r: Axes)
    requires config.joystickDeadband != 1.0
    ensures Abs(turn) < config.joystickDeadband && Abs(trim) < config.joystickDeadband ==> r.turn == 0.0 && r.trim == 0.0
  {
    Axes(ShapeAxis(config, slow, speed) * config.speedAdjustment,
     ShapeAxis(config, slow, turn) * config.turnAdjustment,
     ShapeAxis(config, slow, trim) * config.trimAdjustment)
  }

  /** Curvature mixing of the limited speed with the adjusted turn and trim:
      the turn term becomes turn * speed + trim, the pair is
      (speed - turn, speed + turn), and the pair is scaled by its power factor,
      which is the old helper's normalisation of that pair. */
  function Mix(speed: real, turn: real, trim: real): (r: Pair)
    ensures Signum(r.first) == Signum(speed - (turn * speed + trim))
    ensures Signum(r.second) == Signum(speed + (turn * speed + trim))
    ensures r.first * (speed + (turn * speed + trim)) == r.second * (speed - (turn * speed + trim))
  {
    var t := turn * speed + trim;
    var p := NormalizeSpeed(speed - t, speed + t);
    ScaledPair(speed - t, speed + t, p);
    Pair((speed - t) * p, (speed + t) * p)
  }

  /** Scaling two values by one positive factor keeps their signs and
      their ratio. */
  lemma ScaledPair(a: real, b: real, p: real)
    requires p > 0.0
    ensures Signum(a * p) == Signum(a) && Signum(b * p) == Signum(b)
    ensures (a * p) * b == (b * p) * a
  {
    DriveHelper.PositiveScale(a, p);
    DriveHelper.PositiveScale(b, p);
  }

  /** Mixing is the old helper's curvature term followed by its
      normalisation of the (speed - turn, speed + turn) pair. */
  lemma MixIsNormalizedCurvature(speed: real, turn: real, trim: real)
    ensures var t := DriveHelper.ConstantCurvature(speed, turn, trim);
            Mix(speed, turn, trim) == DriveHelper.NormalizeValues(speed - t, speed + t)
  {
    var t := turn * speed + trim;
    assert DriveHelper.ConstantCurvature(speed, turn, trim) == t;
    MixIsNormalizedPair(speed, turn, trim, speed - t, speed + t);
  }

  lemma MixIsNormalizedPair(speed: real, turn: real, trim: real, left: real, right: real)
    requires left == speed - (turn * speed + trim) && right == speed + (turn * speed + trim)
    ensures Mix(speed, turn, trim) == DriveHelper.NormalizeValues(left, right)
  {
    MixScales(speed, turn, trim, left, right);
    NormalizeSpeedIsNormalizeValues(left, right);
  }

  /** Mix scales the (speed - turn, speed + turn) pair by its power factor. */
  lemma MixScales(speed: real, turn: real, trim: real, left: real, right: real)
    requires left == speed - (turn * speed + trim) && right == speed + (turn * speed + trim)
    ensures Mix(speed, turn, trim) == Pair(left * NormalizeSpeed(left, right), right * NormalizeSpeed(left, right))
  {
  }

  /** With no turn and no trim both sides get the same power (the robot
      drives straight); at rest the turn stick does nothing, and the trim
      alone spins the robot in place. */
  lemma MixProperties(speed: real, turn: real, trim: real)
    ensures Mix(speed, 0.0, 0.0).first == Mix(speed, 0.0, 0.0).second
    ensures Mix(0.0, turn, 0.0) == Pair(0.0, 0.0)
    ensures Mix(0.0, turn, trim).first == -Mix(0.0, turn, trim).second
  {
    assert turn * 0.0 == 0.0;
  }

  /** Values below -1 are never scaled: a fast reverse with a turn leaves one
      side beyond full power. */
  lemma MixCanLeaveRange()
    ensures Mix(-0.75, -0.5, 0.23) == Pair(-1.355, -0.145)
  {
    assert -0.5 * -0.75 + 0.23 == 0.605;
  }

  /** The mixing the curvature step names (WPILib's curvature inverse
      kinematics): both sides divided by the larger magnitude when it
      exceeds 1, so neither side ever leaves [-1, 1]. */
  function DesaturatedMix(speed: real, turn: real, trim: real): (r: Pair)
    ensures Abs(r.first) <= 1.0 && Abs(r.second) <= 1.0
  {
    var t := turn * speed + trim;
    DriveUtil.NormalizeValues(speed - t, speed + t)
  }

  /** Where both raw sides are already within [-1, 1], the as-written mix
      and the desaturated one agree; the example above is where they part. */
  lemma DesaturatedMixAgreesInRange(speed: real, turn: real, trim: real)
    requires Abs(speed - (turn * speed + trim)) <= 1.0 && Abs(speed + (turn * speed + trim)) <= 1.0
    ensures DesaturatedMix(speed, turn, trim) == Mix(speed, turn, trim)
    ensures DesaturatedMix(-0.75, -0.5, 0.23) != Mix(-0.75, -0.5, 0.23)
  {
    var t := turn * speed + trim;
    MixInRange(speed, turn, trim, speed - t, speed + t);
    MixCanLeaveRange();
  }

  /** Within [-1, 1] neither mix scales the raw pair. */
  lemma MixInRange(speed: real, turn: real, trim: real, left: real, right: real)
    requires left == speed - (turn * speed + trim) && right == speed + (turn * speed + trim)
    requires Abs(left) <= 1.0 && Abs(right) <= 1.0
    ensures Mix(speed, turn, trim) == Pair(left, right)
    ensures DesaturatedMix(speed, turn, trim) == Pair(left, right)
  {
    MixScales(speed, turn, trim, left, right);
    assert NormalizeSpeed(left, right) == 1.0;
    DesaturatedInRange(speed, turn, trim, left, right);
  }

  lemma DesaturatedInRange(speed: real, turn: real, trim: real, left: real, right: real)
    requires left == speed - (turn * speed + trim) && right == speed + (turn * speed + trim)
    requires Abs(left) <= 1.0 && Abs(right) <= 1.0
    ensures DesaturatedMix(speed, turn, trim) == Pair(left, right)
  {
    assert Max(Abs(left), Abs(right)) <= 1.0;
    assert DesaturatedMix(speed, turn, trim) == DriveUtil.NormalizeValues(left, right);
  }

  /** What the command hands to the outside world. */
  datatype Effect = Speeds(left: real, right: real) | OnEnd

  class ButterySmoothDriveCommand {
    const config: DriveConfig
    const limiter: DynamicSlewRateLimiter
    var effects: seq<Effect>

    /** The speed limiter is WPILib's SlewRateLimiter built from the
        configured rate: the same rate away from and toward zero. */
    ghost predicate Valid()
    {
      config.slewRate >= 0.0 &&
      forall t :: limiter.increasingRateLimit(t) == config.slewRate && limiter.decreasingRateLimit(t) == config.slewRate
    }

    constructor (config: DriveConfig, now: real)
      requires config.slewRate >= 0.0
      ensures this.config == config && Valid() && effects == []
      ensures fresh(limiter) && limiter.prevVal == 0.0 && limiter.prevTime == now
    {
      this.config := config;
      limiter := new DynamicSlewRateLimiter(_ => config.slewRate, _ => config.slewRate, now);
      effects := [];
    }

    /** One cycle: shape the three readings, limit the speed, mix, and hand
        the pair to the speed consumer. */
    method Execute(speedInput: real, turnInput: real, trimInput: real, slow: bool, now: real) returns (left: real, right: real)
      requires Valid() && config.joystickDeadband != 1.0
      modifies this, limiter
      ensures var s := Shaped(config, slow, speedInput, turnInput, trimInput);
              limiter.prevVal == Step(old(limiter.prevVal), now - old(limiter.prevTime), config.slewRate, config.slewRate, s.speed)
              && limiter.prevTime == now
              && Pair(left, right) == Mix(limiter.prevVal, s.turn, s.trim)
      ensures effects == old(effects) + [Speeds(left, right)]
    {
      var shaped := Shaped(config, slow, speedInput, turnInput, trimInput);
      left, right := LimitAndMix(shaped.speed, shaped.turn, shaped.trim, now);
    }

    /** The second half of execute: slew-limit the shaped speed, mix, and
        hand the pair to the speed consumer. */
    method LimitAndMix(speed: real, turn: real, trim: real, now: real) returns (left: real, right: real)
      requires Valid()
      modifies this, limiter
      ensures limiter.prevVal == Step(old(limiter.prevVal), now - old(limiter.prevTime), config.slewRate, config.slewRate, speed)
      ensures limiter.prevTime == now
      ensures Pair(left, right) == Mix(limiter.prevVal, turn, trim)
      ensures effects == old(effects) + [Speeds(left, right)]
    {
      assert limiter.increasingRateLimit(now) == config.slewRate && limiter.decreasingRateLimit(now) == config.slewRate;
      var limited := limiter.Calculate(speed, now);
      var speeds := Mix(limited.value, turn, trim);
      left, right := speeds.first, speeds.second;
      effects := effects + [Speeds(left, right)];
    }

    /** Runs onEnd, interrupted or not. */
    method End(interrupted: bool)
      modifies this
      ensures effects == old(effects) + [OnEnd]
    {
      effects := effects + [OnEnd];
    }
  }
}
