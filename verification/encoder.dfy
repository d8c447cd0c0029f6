/** Unit conversions of the original encoder helper (lib/Encoder.java):
    sensor units to and from distance, velocity, RPM and rotational angle,
    through the gear ratio, the encoder units per revolution and the wheel
    diameter. Doubles are reals, so the conversions are exact; a zero
    divisor, which gives an IEEE infinity or NaN in Java, is excluded. */
module Encoder {

  /** java.lang.Math.PI, the double nearest to pi. */
  const PI: real := 3.141592653589793

  /** Sensor position to distance: revolutions of the wheel times its
      circumference. */
  function ToDistance(sensorPosition: real, encoderUnitsPerRev: int, gearRatio: real, wheelDiameter: real): (r: real)
    requires encoderUnitsPerRev as real * gearRatio != 0.0
    ensures sensorPosition == 0.0 ==> r == 0.0
  {
    (sensorPosition / (encoderUnitsPerRev as real * gearRatio)) * PI * wheelDiameter
  }

  /** The TalonFX form, which reports rotations: one unit per revolution. */
  function ToDistanceTalonFX(sensorPosition: real, gearRatio: real, wheelDiameter: real): (r: real)
    requires gearRatio != 0.0
    ensures r == sensorPosition / gearRatio * PI * wheelDiameter
  {
    ToDistance(sensorPosition, 1, gearRatio, wheelDiameter)
  }

  /** Distance to sensor units: the inverse of ToDistance. */
  function FromDistance(distance: real, encoderUnitsPerRev: int, gearRatio: real, wheelDiameter: real): (r: real)
    requires wheelDiameter != 0.0
    ensures distance == 0.0 ==> r == 0.0
  {
    (distance / (PI * wheelDiameter)) * encoderUnitsPerRev as real * gearRatio
  }

  function FromDistanceTalonFX(distance: real, gearRatio: real, wheelDiameter: real): (r: real)
    requires wheelDiameter != 0.0
    ensures r == distance / (PI * wheelDiameter) * gearRatio
  {
    FromDistance(distance, 1, gearRatio, wheelDiameter)
  }

  /** Sensor velocity (units per `time`) to distance per unit of time. */
  function ToVelocity(velocity: real, encoderUnitsPerRev: int, gearRatio: real, wheelDiameter: real, time: real): (r: real)
    requires encoderUnitsPerRev as real * gearRatio != 0.0 && time != 0.0
    ensures r * time == ToDistance(velocity, encoderUnitsPerRev, gearRatio, wheelDiameter)
  {
    ToDistance(velocity, encoderUnitsPerRev, gearRatio, wheelDiameter) / time
  }

  function ToVelocityTalonFX(velocity: real, gearRatio: real, wheelDiameter: real): (r: real)
    requires gearRatio != 0.0
    ensures r == ToDistanceTalonFX(velocity, gearRatio, wheelDiameter)
  {
    ToVelocity(velocity, 1, gearRatio, wheelDiameter, 1.0)
  }

  /** Velocity back to sensor units per `time`. */
  function FromVelocity(velocity: real, encoderUnitsPerRev: int, gearRatio: real, wheelDiameter: real, time: real): (r: real)
    requires wheelDiameter != 0.0
    ensures time != 0.0 ==> r / time == FromDistance(velocity, encoderUnitsPerRev, gearRatio, wheelDiameter)
  {
    FromDistance(velocity, encoderUnitsPerRev, gearRatio, wheelDiameter) * time
  }

  function FromVelocityTalonFX(velocity: real, gearRatio: real, wheelDiameter: real): (r: real)
    requires wheelDiameter != 0.0
    ensures r == FromDistanceTalonFX(velocity, gearRatio, wheelDiameter)
  {
    FromVelocity(velocity, 1, gearRatio, wheelDiameter, 1.0)
  }

  /** Sensor velocity to revolutions per minute of the output. */
  function ToRPM(velocity: real, encoderUnitsPerRev: int, gearRatio: real, time: real): (r: real)
    requires encoderUnitsPerRev != 0 && gearRatio * time != 0.0
    ensures velocity == 0.0 ==> r == 0.0
  {
    (velocity * 60.0 / encoderUnitsPerRev as real) / (gearRatio * time)
  }

  function ToRPMTalonFX(velocity: real, gearRatio: real): (r: real)
    requires gearRatio != 0.0
    ensures r == velocity * 60.0 / gearRatio
  {
    ToRPM(velocity, 1, gearRatio, 1.0)
  }

  /** Revolutions per minute back to sensor velocity. */
  function FromRPM(rpm: real, encoderUnitsPerRev: int, gearRatio: real, time: real): (r: real)
    ensures rpm == 0.0 ==> r == 0.0
  {
    rpm * (encoderUnitsPerRev as real / 60.0) * time * gearRatio
  }

  function FromRPMTalonFX(rpm: real, gearRatio: real): (r: real)
    ensures r == rpm / 60.0 * gearRatio
  {
    FromRPM(rpm, 1, gearRatio, 1.0)
  }

  /** Sensor position to degrees of the output. */
  function ToRotationalAngle(sensorPosition: real, encoderUnitsPerRev: real, gearRatio: real): (r: real)
    requires encoderUnitsPerRev != 0.0 && gearRatio != 0.0
    ensures sensorPosition == 0.0 ==> r == 0.0
  {
    sensorPosition * (360.0 / encoderUnitsPerRev) / gearRatio
  }

  function ToRotationalAngleTalonFX(sensorPosition: real, gearRatio: real): (r: real)
    requires gearRatio != 0.0
    ensures r == sensorPosition * 360.0 / gearRatio
  {
    ToRotationalAngle(sensorPosition, 1.0, gearRatio)
  }

  /** Degrees back to sensor units. */
  function FromRotationalAngle(angleDegrees: real, encoderUnitsPerRev: real, gearRatio: real): (r: real)
    ensures angleDegrees == 0.0 ==> r == 0.0
  {
    angleDegrees * (encoderUnitsPerRev / 360.0) * gearRatio
  }

  function FromRotationalAngleTalonFX(angleDegrees: real, gearRatio: real): (r: real)
    ensures r == angleDegrees / 360.0 * gearRatio
  {
    FromRotationalAngle(angleDegrees, 1.0, gearRatio)
  }

  /** x / k * k == x and x * k / k == x for k != 0. */
  lemma Cancel(x: real, k: real)
    requires k != 0.0
    ensures x / k * k == x && x * k / k == x
  {
  }

  /** a / b and b / a are reciprocal. */
  lemma Reciprocal(a: real, b: real)
    requires a != 0.0 && b != 0.0
    ensures (a / b) * (b / a) == 1.0
  {
    assert (a / b) * b == a;
    assert (b / a) * a == b;
    assert ((a / b) * (b / a)) * (b * a) == ((a / b) * b) * ((b / a) * a);
  }

  /** Multiplying by t before a scaling and dividing by t after it cancel. */
  lemma ScaleThrough(a: real, b: real, t: real)
    requires t != 0.0
    ensures (a * t) * b / t == a * b
  {
    assert (a * t) * b == (a * b) * t;
  }

  /** Dividing by t before a scaling and multiplying by t after it cancel. */
  lemma ScaleAround(a: real, b: real, t: real)
    requires t != 0.0
    ensures (a / t) * b * t == a * b
  {
    assert (a / t) * b * t == ((a / t) * t) * b;
  }

  /** Multiplying by p and then by q, where p * q == 1, changes nothing. */
  lemma ScaleBack(x: real, p: real, q: real)
    requires p * q == 1.0
    ensures x * p * q == x
  {
    assert x * p * q == x * (p * q);
  }

  /** ToDistance multiplies by the factor circumference / (units * gear). */
  lemma ToDistanceFactor(s: real, encoderUnitsPerRev: int, gearRatio: real, wheelDiameter: real)
    requires encoderUnitsPerRev as real * gearRatio != 0.0
    ensures ToDistance(s, encoderUnitsPerRev, gearRatio, wheelDiameter)
            == s * ((PI * wheelDiameter) / (encoderUnitsPerRev as real * gearRatio))
  {
    var k := encoderUnitsPerRev as real * gearRatio;
    assert (s / k) * PI * wheelDiameter == (s / k) * (PI * wheelDiameter);
    assert (s / k) * (PI * wheelDiameter) == s * ((PI * wheelDiameter) / k);
  }

  /** FromDistance multiplies by the factor (units * gear) / circumference. */
  lemma FromDistanceFactor(x: real, encoderUnitsPerRev: int, gearRatio: real, wheelDiameter: real)
    requires wheelDiameter != 0.0
    ensures FromDistance(x, encoderUnitsPerRev, gearRatio, wheelDiameter)
            == x * ((encoderUnitsPerRev as real * gearRatio) / (PI * wheelDiameter))
  {
    var c := PI * wheelDiameter;
    var u := encoderUnitsPerRev as real;
    assert (x / c) * u * gearRatio == (x / c) * (u * gearRatio);
    assert (x / c) * (u * gearRatio) == x * ((u * gearRatio) / c);
  }

  /** Both directions of the distance conversion undo each other. */
  lemma DistanceRoundTrip(x: real, encoderUnitsPerRev: int, gearRatio: real, wheelDiameter: real)
    requires encoderUnitsPerRev as real * gearRatio != 0.0 && wheelDiameter != 0.0
    ensures FromDistance(ToDistance(x, encoderUnitsPerRev, gearRatio, wheelDiameter), encoderUnitsPerRev, gearRatio, wheelDiameter) == x
    ensures ToDistance(FromDistance(x, encoderUnitsPerRev, gearRatio, wheelDiameter), encoderUnitsPerRev, gearRatio, wheelDiameter) == x
  {
    var k := encoderUnitsPerRev as real * gearRatio;
    var c := PI * wheelDiameter;
    Reciprocal(c, k);
    Reciprocal(k, c);
    ToDistanceFactor(x, encoderUnitsPerRev, gearRatio, wheelDiameter);
    FromDistanceFactor(x * (c / k), encoderUnitsPerRev, gearRatio, wheelDiameter);
    ScaleBack(x, c / k, k / c);
    FromDistanceFactor(x, encoderUnitsPerRev, gearRatio, wheelDiameter);
    ToDistanceFactor(x * (k / c), encoderUnitsPerRev, gearRatio, wheelDiameter);
    ScaleBack(x, k / c, c / k);
  }

  /** Distance is linear in the sensor position. */
  lemma ToDistanceIsLinear(a: real, s1: real, s2: real, encoderUnitsPerRev: int, gearRatio: real, wheelDiameter: real)
    requires encoderUnitsPerRev as real * gearRatio != 0.0
    ensures ToDistance(a * s1 + s2, encoderUnitsPerRev, gearRatio, wheelDiameter)
            == a * ToDistance(s1, encoderUnitsPerRev, gearRatio, wheelDiameter) + ToDistance(s2, encoderUnitsPerRev, gearRatio, wheelDiameter)
  {
    var f := (PI * wheelDiameter) / (encoderUnitsPerRev as real * gearRatio);
    ToDistanceFactor(a * s1 + s2, encoderUnitsPerRev, gearRatio, wheelDiameter);
    ToDistanceFactor(s1, encoderUnitsPerRev, gearRatio, wheelDiameter);
    ToDistanceFactor(s2, encoderUnitsPerRev, gearRatio, wheelDiameter);
    assert (a * s1 + s2) * f == a * (s1 * f) + s2 * f;
  }

  /** Both directions of the velocity conversion undo each other. */
  lemma VelocityRoundTrip(x: real, encoderUnitsPerRev: int, gearRatio: real, wheelDiameter: real, time: real)
    requires encoderUnitsPerRev as real * gearRatio != 0.0 && wheelDiameter != 0.0 && time != 0.0
    ensures FromVelocity(ToVelocity(x, encoderUnitsPerRev, gearRatio, wheelDiameter, time), encoderUnitsPerRev, gearRatio, wheelDiameter, time) == x
    ensures ToVelocity(FromVelocity(x, encoderUnitsPerRev, gearRatio, wheelDiameter, time), encoderUnitsPerRev, gearRatio, wheelDiameter, time) == x
  {
    VelocityThereAndBack(x, encoderUnitsPerRev, gearRatio, wheelDiameter, time);
    VelocityBackAndThere(x, encoderUnitsPerRev, gearRatio, wheelDiameter, time);
  }

  lemma VelocityThereAndBack(x: real, encoderUnitsPerRev: int, gearRatio: real, wheelDiameter: real, time: real)
    requires encoderUnitsPerRev as real * gearRatio != 0.0 && wheelDiameter != 0.0 && time != 0.0
    ensures FromVelocity(ToVelocity(x, encoderUnitsPerRev, gearRatio, wheelDiameter, time), encoderUnitsPerRev, gearRatio, wheelDiameter, time) == x
  {
    DistanceRoundTrip(x, encoderUnitsPerRev, gearRatio, wheelDiameter);
    var d := ToDistance(x, encoderUnitsPerRev, gearRatio, wheelDiameter);
    var q := (encoderUnitsPerRev as real * gearRatio) / (PI * wheelDiameter);
    calc {
      FromVelocity(ToVelocity(x, encoderUnitsPerRev, gearRatio, wheelDiameter, time), encoderUnitsPerRev, gearRatio, wheelDiameter, time);
      FromDistance(d / time, encoderUnitsPerRev, gearRatio, wheelDiameter) * time;
      { FromDistanceFactor(d / time, encoderUnitsPerRev, gearRatio, wheelDiameter); }
      (d / time) * q * time;
      { ScaleAround(d, q, time); }
      d * q;
      { FromDistanceFactor(d, encoderUnitsPerRev, gearRatio, wheelDiameter); }
      FromDistance(d, encoderUnitsPerRev, gearRatio, wheelDiameter);
      x;
    }
  }

  lemma VelocityBackAndThere(x: real, encoderUnitsPerRev: int, gearRatio: real, wheelDiameter: real, time: real)
    requires encoderUnitsPerRev as real * gearRatio != 0.0 && wheelDiameter != 0.0 && time != 0.0
    ensures ToVelocity(FromVelocity(x, encoderUnitsPerRev, gearRatio, wheelDiameter, time), encoderUnitsPerRev, gearRatio, wheelDiameter, time) == x
  {
    var f := FromDistance(x, encoderUnitsPerRev, gearRatio, wheelDiameter);
    var p := (PI * wheelDiameter) / (encoderUnitsPerRev as real * gearRatio);
    calc {
      ToVelocity(FromVelocity(x, encoderUnitsPerRev, gearRatio, wheelDiameter, time), encoderUnitsPerRev, gearRatio, wheelDiameter, time);
      { assert FromVelocity(x, encoderUnitsPerRev, gearRatio, wheelDiameter, time) == f * time; }
      ToVelocity(f * time, encoderUnitsPerRev, gearRatio, wheelDiameter, time);
      ToDistance(f * time, encoderUnitsPerRev, gearRatio, wheelDiameter) / time;
      { ToDistanceFactor(f * time, encoderUnitsPerRev, gearRatio, wheelDiameter); }
      (f * time) * p / time;
      { ScaleThrough(f, p, time); }
      f * p;
      { ToDistanceFactor(f, encoderUnitsPerRev, gearRatio, wheelDiameter); }
      ToDistance(f, encoderUnitsPerRev, gearRatio, wheelDiameter);
      { DistanceRoundTrip(x, encoderUnitsPerRev, gearRatio, wheelDiameter); }
      x;
    }
  }

  /** Distance to sensor units is linear too. */
  lemma FromDistanceIsLinear(a: real, x: real, encoderUnitsPerRev: int, gearRatio: real, wheelDiameter: real)
    requires wheelDiameter != 0.0
    ensures FromDistance(a * x, encoderUnitsPerRev, gearRatio, wheelDiameter) == a * FromDistance(x, encoderUnitsPerRev, gearRatio, wheelDiameter)
  {
    var c := PI * wheelDiameter;
    assert (a * x) / c == a * (x / c);
  }

  /** RPM and sensor velocity convert back and forth exactly. */
  lemma RPMRoundTrip(x: real, encoderUnitsPerRev: int, gearRatio: real, time: real)
    requires encoderUnitsPerRev != 0 && gearRatio * time != 0.0
    ensures FromRPM(ToRPM(x, encoderUnitsPerRev, gearRatio, time), encoderUnitsPerRev, gearRatio, time) == x
    ensures ToRPM(FromRPM(x, encoderUnitsPerRev, gearRatio, time), encoderUnitsPerRev, gearRatio, time) == x
  {
    var u := encoderUnitsPerRev as real;
    var g := gearRatio * time;
    assert ToRPM(x, encoderUnitsPerRev, gearRatio, time) == x * 60.0 / u / g;
    assert FromRPM(x * 60.0 / u / g, encoderUnitsPerRev, gearRatio, time) == (x * 60.0 / u / g) * (u / 60.0) * g;
    assert (x * 60.0 / u / g) * (u / 60.0) * g == (x * 60.0 / u / g) * g * (u / 60.0);
    Cancel(x * 60.0 / u, g);
    Cancel(x * 60.0, u);
    assert FromRPM(x, encoderUnitsPerRev, gearRatio, time) == x * (u / 60.0) * time * gearRatio;
    assert x * (u / 60.0) * time * gearRatio == (x * u / 60.0) * g;
    assert ToRPM((x * u / 60.0) * g, encoderUnitsPerRev, gearRatio, time) == (x * u / 60.0) * g * 60.0 / u / g;
    assert (x * u / 60.0) * g * 60.0 / u / g == (x * u) * g / u / g;
    Cancel(x * u, g);
    Cancel(x, u);
    assert (x * u) * g / u == (x * g) * u / u;
    Cancel(x * g, u);
  }

  /** Degrees and sensor units convert back and forth exactly. */
  lemma RotationalAngleRoundTrip(x: real, encoderUnitsPerRev: real, gearRatio: real)
    requires encoderUnitsPerRev != 0.0 && gearRatio != 0.0
    ensures FromRotationalAngle(ToRotationalAngle(x, encoderUnitsPerRev, gearRatio), encoderUnitsPerRev, gearRatio) == x
    ensures ToRotationalAngle(FromRotationalAngle(x, encoderUnitsPerRev, gearRatio), encoderUnitsPerRev, gearRatio) == x
  {
    var u := encoderUnitsPerRev;
    assert ToRotationalAngle(x, u, gearRatio) == (x * 360.0 / u) / gearRatio;
    Cancel(x * 360.0 / u, gearRatio);
    assert (x * 360.0 / u) * (u / 360.0) == x;
    assert FromRotationalAngle(x, u, gearRatio) == (x * u / 360.0) * gearRatio;
    assert ToRotationalAngle((x * u / 360.0) * gearRatio, u, gearRatio) == (x * u / 360.0) * gearRatio * (360.0 / u) / gearRatio;
    assert (x * u / 360.0) * gearRatio * (360.0 / u) == x * gearRatio;
    Cancel(x, gearRatio);
  }

  /** A full revolution of the sensor, with no gearing, is 360 degrees. */
  lemma OneRevolutionIs360Degrees(encoderUnitsPerRev: real)
    requires encoderUnitsPerRev != 0.0
    ensures ToRotationalAngle(encoderUnitsPerRev, encoderUnitsPerRev, 1.0) == 360.0
  {
    Cancel(360.0, encoderUnitsPerRev);
  }
}
