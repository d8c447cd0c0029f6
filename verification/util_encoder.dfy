/** Unit conversions of the newer encoder helper (lib/util/Encoder.java).
    Its counts-based formulas are those of the original helper, which the
    contracts below state, and it adds conversions between shaft rotations
    and wheel travel. Measures are plain reals in fixed units: an angle in
    rotations and a distance in metres. */
module UtilEncoder {
  import Encoder

  const PI: real := Encoder.PI
  const DEGREES_PER_ROTATION: real := 360.0

  /** Counts to distance: the same formula as the original helper. */
  function ToDistance(sensorPosition: real, encoderUnitsPerRev: int, gearRatio: real, wheelDiameter: real): (r: real)
    requires encoderUnitsPerRev as real * gearRatio != 0.0
    ensures r == Encoder.ToDistance(sensorPosition, encoderUnitsPerRev, gearRatio, wheelDiameter)
  {
    (sensorPosition / (encoderUnitsPerRev as real * gearRatio)) * PI * wheelDiameter
  }

  /** TalonFX rotations to distance. */
  function ToDistanceTalonFX(rotations: real, gearRatio: real, wheelDiameter: real): (r: real)
    requires gearRatio != 0.0
    ensures r == rotations / gearRatio * PI * wheelDiameter
  {
    ToDistance(rotations, 1, gearRatio, wheelDiameter)
  }

  function FromDistance(distance: real, encoderUnitsPerRev: int, gearRatio: real, wheelDiameter: real): (r: real)
    requires wheelDiameter != 0.0
    ensures r == Encoder.FromDistance(distance, encoderUnitsPerRev, gearRatio, wheelDiameter)
  {
    (distance / (PI * wheelDiameter)) * encoderUnitsPerRev as real * gearRatio
  }

  function FromDistanceTalonFX(distance: real, gearRatio: real, wheelDiameter: real): (r: real)
    requires wheelDiameter != 0.0
    ensures r == distance / (PI * wheelDiameter) * gearRatio
  {
    FromDistance(distance, 1, gearRatio, wheelDiameter)
  }

  function ToVelocityTalonFX(velocity: real, gearRatio: real, wheelDiameter: real): (r: real)
    requires gearRatio != 0.0
    ensures r == ToDistanceTalonFX(velocity, gearRatio, wheelDiameter)
  {
    ToVelocity(velocity, 1, gearRatio, wheelDiameter, 1.0)
  }

  function ToVelocity(velocity: real, encoderUnitsPerRev: int, gearRatio: real, wheelDiameter: real, time: real): (r: real)
    requires encoderUnitsPerRev as real * gearRatio != 0.0 && time != 0.0
    ensures r == Encoder.ToVelocity(velocity, encoderUnitsPerRev, gearRatio, wheelDiameter, time)
  {
    ToDistance(velocity, encoderUnitsPerRev, gearRatio, wheelDiameter) / time
  }

  function FromVelocityTalonFX(velocity: real, gearRatio: real, wheelDiameter: real): (r: real)
    requires wheelDiameter != 0.0
    ensures r == FromDistanceTalonFX(velocity, gearRatio, wheelDiameter)
  {
    FromVelocity(velocity, 1, gearRatio, wheelDiameter, 1.0)
  }

  function FromVelocity(velocity: real, encoderUnitsPerRev: int, gearRatio: real, wheelDiameter: real, time: real): (r: real)
    requires wheelDiameter != 0.0
    ensures r == Encoder.FromVelocity(velocity, encoderUnitsPerRev, gearRatio, wheelDiameter, time)
  {
    FromDistance(velocity, encoderUnitsPerRev, gearRatio, wheelDiameter) * time
  }

  function ToRPMTalonFX(velocity: real, gearRatio: real): (r: real)
    requires gearRatio != 0.0
    ensures r == velocity * 60.0 / gearRatio
  {
    ToRPM(velocity, 1, gearRatio, 1.0)
  }

  function ToRPM(velocity: real, encoderUnitsPerRev: int, gearRatio: real, time: real): (r: real)
    requires encoderUnitsPerRev != 0 && gearRatio * time != 0.0
    ensures r == Encoder.ToRPM(velocity, encoderUnitsPerRev, gearRatio, time)
  {
    (velocity * 60.0 / encoderUnitsPerRev as real) / (gearRatio * time)
  }

  function FromRPMTalonFX(rpm: real, gearRatio: real): (r: real)
    ensures r == rpm / 60.0 * gearRatio
  {
    FromRPM(rpm, 1, gearRatio, 1.0)
  }

  function FromRPM(rpm: real, encoderUnitsPerRev: int, gearRatio: real, time: real): (r: real)
    ensures r == Encoder.FromRPM(rpm, encoderUnitsPerRev, gearRatio, time)
  {
    rpm * (encoderUnitsPerRev as real / 60.0) * time * gearRatio
  }

  /** Shaft rotations to wheel travel in metres: the distance conversion at
      one count per rotation. */
  function AngularToLinear(rotations: real, gearRatio: real, wheelDiameter: real): (r: real)
    requires gearRatio != 0.0
    ensures r == ToDistanceTalonFX(rotations, gearRatio, wheelDiameter)
  {
    (rotations / gearRatio) * PI * wheelDiameter
  }

  /** The overload without gearing uses ratio 1. */
  function AngularToLinearUngeared(rotations: real, wheelDiameter: real): (r: real)
    ensures r == rotations * PI * wheelDiameter
  {
    AngularToLinear(rotations, 1.0, wheelDiameter)
  }

  /** Wheel travel in metres to shaft rotations. */
  function LinearToAngular(distance: real, gearRatio: real, wheelDiameter: real): (r: real)
    requires wheelDiameter != 0.0
    ensures r == FromDistanceTalonFX(distance, gearRatio, wheelDiameter)
  {
    distance / (PI * wheelDiameter) * gearRatio
  }

  function LinearToAngularUngeared(distance: real, wheelDiameter: real): (r: real)
    requires wheelDiameter != 0.0
    ensures r == distance / (PI * wheelDiameter)
  {
    LinearToAngular(distance, 1.0, wheelDiameter)
  }

  /** Rotations to travel and back, and travel to rotations and back, are
      the identity for a nonzero gear ratio and wheel diameter. */
  lemma AngularLinearRoundTrip(x: real, gearRatio: real, wheelDiameter: real)
    requires gearRatio != 0.0 && wheelDiameter != 0.0
    ensures LinearToAngular(AngularToLinear(x, gearRatio, wheelDiameter), gearRatio, wheelDiameter) == x
    ensures AngularToLinear(LinearToAngular(x, gearRatio, wheelDiameter), gearRatio, wheelDiameter) == x
  {
    Encoder.DistanceRoundTrip(x, 1, gearRatio, wheelDiameter);
    assert AngularToLinear(x, gearRatio, wheelDiameter) == Encoder.ToDistance(x, 1, gearRatio, wheelDiameter);
    assert LinearToAngular(x, gearRatio, wheelDiameter) == Encoder.FromDistance(x, 1, gearRatio, wheelDiameter);
    var t := Encoder.ToDistance(x, 1, gearRatio, wheelDiameter);
    var f := Encoder.FromDistance(x, 1, gearRatio, wheelDiameter);
    assert LinearToAngular(t, gearRatio, wheelDiameter) == Encoder.FromDistance(t, 1, gearRatio, wheelDiameter);
    assert AngularToLinear(f, gearRatio, wheelDiameter) == Encoder.ToDistance(f, 1, gearRatio, wheelDiameter);
  }

  /** The counts-based conversions round-trip as in the original helper. */
  lemma CountsRoundTrips(x: real, encoderUnitsPerRev: int, gearRatio: real, wheelDiameter: real, time: real)
    requires encoderUnitsPerRev != 0 && gearRatio != 0.0 && wheelDiameter != 0.0 && time != 0.0
    ensures FromDistance(ToDistance(x, encoderUnitsPerRev, gearRatio, wheelDiameter), encoderUnitsPerRev, gearRatio, wheelDiameter) == x
    ensures FromVelocity(ToVelocity(x, encoderUnitsPerRev, gearRatio, wheelDiameter, time), encoderUnitsPerRev, gearRatio, wheelDiameter, time) == x
    ensures FromRPM(ToRPM(x, encoderUnitsPerRev, gearRatio, time), encoderUnitsPerRev, gearRatio, time) == x
  {
    assert encoderUnitsPerRev as real * gearRatio != 0.0;
    assert gearRatio * time != 0.0;
    Encoder.DistanceRoundTrip(x, encoderUnitsPerRev, gearRatio, wheelDiameter);
    Encoder.VelocityRoundTrip(x, encoderUnitsPerRev, gearRatio, wheelDiameter, time);
    Encoder.RPMRoundTrip(x, encoderUnitsPerRev, gearRatio, time);
  }

  const METERS_PER_INCH: real := 0.0254
  const METERS_PER_FOOT: real := 0.3048

  /** The unit tests' cases, each within their tolerance of 0.001, with the
      inputs converted to rotations and metres (90 degrees is a quarter
      rotation). */
  lemma MeasureTestValues()
    ensures -0.001 < AngularToLinear(3.0, 1.0, 2.0) - 18.85 < 0.001
    ensures -0.001 < AngularToLinear(3.0, 10.71, 2.0) - 1.76 < 0.001
    ensures -0.001 < AngularToLinear(10.0, 10.71, 6.0 * METERS_PER_INCH) - 0.447 < 0.001
    ensures -0.001 < AngularToLinear(90.0 / DEGREES_PER_ROTATION, 2.0, 18.0 * METERS_PER_INCH) - 0.179 < 0.001
    ensures -0.001 < LinearToAngular(3.0, 1.0, 2.0) - 0.477 < 0.001
    ensures -0.001 < LinearToAngular(8.0 * METERS_PER_FOOT, 12.75, 3.0) - 3.298 < 0.001
    ensures -0.001 < LinearToAngular(5.5, 6.0, 3.0 * METERS_PER_INCH) - 137.85 < 0.001
  {
  }
}
