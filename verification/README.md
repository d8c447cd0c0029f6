# Armada2508 robot library — a Dafny model of its core

This project models the parts of the Armada2508 FRC robot library that hold their own logic:

- the drive-input shaping helpers, in two versions:
  - `DriveUtil`, the current one;
  - `DriveHelper`, the older one;
- the two teleop drive commands (`ButterySmoothDriveCommand`):
  - the configurable one in `lib/drive`;
  - the robot's own one in `commands/driving`;
- the `DynamicSlewRateLimiter` filter;
- the two encoder unit-conversion classes;
- the clamp-and-scale helpers of `VisionUtil`;
- `LogUtil.getFormatted` and the boolean encodings;
- the LED strip driver `LEDStrip`;
- the `CurrentLimitedCompressor` over-current trip;
- the double-solenoid `Piston`;
- the button registry of `SmartJoystick`.

Pure code is modelled as functions with lemmas. Code that updates state is modelled as classes whose methods change their fields:

- the limiter's `prevVal`/`prevTime`;
- the LED buffer, which is an `array`, and the strip's `hue`/`bandIndex`;
- the compressor's accumulator;
- the piston's solenoid outputs;
- the joystick's two button sets.

Each such method is proved against a specification function. For example, `LEDStrip.Band` is proved against `BandOutcome`, and `SmartJoystick.BindButtons` against `BindAll`.

How the Java is represented:

- Doubles are mathematical reals.
- Java `int` arithmetic is written out where it matters:
  - the truncating `/` and `%` (`JavaMath.JavaDiv`, `JavaMath.JavaRem`);
  - 32-bit wrap-around (`Wrap32`);
  - the saturating `(int)` cast of a double (`ToInt`).
- Exceptions are values:
  - `Outcome` for `void` methods;
  - `Result` for methods that return something.
- The clock, the compressor's current reading, the joystick axes and the slow button are parameters.
- Calls a command makes on the outside world (the speed consumer, `setPower`, `stop`, `onEnd`) are recorded in an `effects` trace.
- `Math.PI` is written as the decimal `3.141592653589793`. That is the shortest decimal that reads back as the double `Math.PI`, not that double's exact value (3.14159265358979311599796…), so products with it are exact real arithmetic on a slightly different constant. It could also be an uninterpreted positive constant. The literal was chosen so that the unit tests' concrete values (for example 3 rotations on a 2 m wheel ≈ 18.85 m) can be checked. The round-trip and linearity lemmas only use the fact that it is nonzero.
- Where a divisor is zero, Java produces an infinity or NaN. The model asks for a nonzero divisor instead (see "Left out").
- WPILib's `SlewRateLimiter`, used by both drive commands, is not part of this model. Each command instead uses the modelled `DynamicSlewRateLimiter` with both rates equal to the slew rate. For a non-negative slew rate, that limiter's step with equal rates is exactly the symmetric clamp WPILib's limiter applies (`SlewRateLimiting.SymmetricStep`). A negative slew rate is outside the model (see "Left out").

## Model

| member | source | states |
|---|---|---|
| JavaMath.Signum | src/main/java/frc/robot/lib/drive/DriveUtil.java:32 | `Math.signum`: the result is -1, 0 or 1, and positive/negative exactly when the argument is |
| JavaMath.Abs | src/main/java/frc/robot/lib/drive/DriveUtil.java:27 | `Math.abs`: non-negative and equal to x or -x |
| JavaMath.Max | src/main/java/frc/robot/lib/drive/DriveUtil.java:55 | `Math.max`: an upper bound of both arguments and equal to one of them |
| JavaMath.Min | src/main/java/frc/robot/lib/drive/DriveUtil.java:32 | `Math.min`: a lower bound of both arguments and equal to one of them |
| JavaMath.Clamp | src/main/java/frc/robot/lib/util/DynamicSlewRateLimiter.java:80-83 | `MathUtil.clamp`: lands within [low, high] when low ≤ high, keeps a value already inside, and answers low below the window or when the bounds are crossed |
| JavaMath.SignumTimesAbs | src/main/java/frc/robot/lib/drive/DriveUtil.java:32 | sign times magnitude gives the value back, and sign times value gives the magnitude |
| JavaMath.JavaDiv | src/main/java/frc/robot/lib/led/LEDStrip.java:183 | Java int `/`: truncates toward zero (the magnitude is the quotient of magnitudes), and agrees with Euclidean division on non-negative operands |
| JavaMath.JavaRem | src/main/java/frc/robot/lib/led/LEDStrip.java:184 | Java int `%`: `a == (a/b)*b + r`, with `|r| < |b|` and r taking the sign of the dividend |
| JavaMath.DivRem | src/main/java/frc/robot/lib/led/LEDStrip.java:183-185 | Euclidean quotient and remainder of naturals reassemble the dividend, with the remainder in [0, divisor) |
| JavaMath.Wrap32 | src/main/java/frc/robot/lib/led/LEDStrip.java:183-184 | a 32-bit int result is always in the int range, and is the exact value when that is in range |
| JavaMath.ToInt | src/main/java/frc/robot/lib/led/LEDStrip.java:136 | the `(int)` cast of a double is in the int range, is non-negative for a non-negative argument, truncates toward zero within range (r ≤ x < r + 1 for x ≥ 0, r - 1 < x ≤ r for x ≤ 0), and saturates at INT_MAX and INT_MIN |
| JavaMath.IntAbs | src/main/java/frc/robot/lib/led/LEDStrip.java:185 | `Math.abs` on an int: non-negative, equal to n or -n, and at least both n and -n |
| Encoder.ToDistance | src/main/java/frc/robot/lib/Encoder.java:13-15 | sensor units to distance; zero maps to zero |
| Encoder.ToDistanceTalonFX | src/main/java/frc/robot/lib/Encoder.java:24-26 | the short overload is one unit per revolution: position / gear · π · diameter |
| Encoder.FromDistance | src/main/java/frc/robot/lib/Encoder.java:36-38 | distance to sensor units; zero maps to zero |
| Encoder.FromDistanceTalonFX | src/main/java/frc/robot/lib/Encoder.java:47-49 | the short overload is distance / (π · diameter) · gear |
| Encoder.ToVelocity | src/main/java/frc/robot/lib/Encoder.java:73-75 | velocity times time is the distance of the same count |
| Encoder.ToVelocityTalonFX | src/main/java/frc/robot/lib/Encoder.java:60-62 | with unitsPerRev 1 and time 1 the velocity conversion is the distance conversion |
| Encoder.FromVelocity | src/main/java/frc/robot/lib/Encoder.java:99-101 | for nonzero time, the result divided by time is the distance-to-units conversion |
| Encoder.FromVelocityTalonFX | src/main/java/frc/robot/lib/Encoder.java:86-88 | the short overload is the short distance-to-units conversion |
| Encoder.ToRPM | src/main/java/frc/robot/lib/Encoder.java:123-125 | sensor velocity to RPM; zero maps to zero |
| Encoder.ToRPMTalonFX | src/main/java/frc/robot/lib/Encoder.java:110-112 | the short overload is velocity · 60 / gear |
| Encoder.FromRPM | src/main/java/frc/robot/lib/Encoder.java:146-148 | RPM to sensor velocity; zero maps to zero |
| Encoder.FromRPMTalonFX | src/main/java/frc/robot/lib/Encoder.java:134-136 | the short overload is rpm / 60 · gear |
| Encoder.ToRotationalAngle | src/main/java/frc/robot/lib/Encoder.java:157-159 | sensor units to degrees; zero maps to zero |
| Encoder.ToRotationalAngleTalonFX | src/main/java/frc/robot/lib/Encoder.java:167-169 | the short overload is position · 360 / gear |
| Encoder.FromRotationalAngle | src/main/java/frc/robot/lib/Encoder.java:178-180 | degrees to sensor units; zero maps to zero |
| Encoder.FromRotationalAngleTalonFX | src/main/java/frc/robot/lib/Encoder.java:188-190 | the short overload is degrees / 360 · gear |
| Encoder.DistanceRoundTrip | src/main/java/frc/robot/lib/Encoder.java:13-38 | toDistance and fromDistance undo each other in both orders, for nonzero unitsPerRev·gear and diameter |
| Encoder.ToDistanceIsLinear | src/main/java/frc/robot/lib/Encoder.java:13-15 | distance is linear in the sensor position |
| Encoder.FromDistanceIsLinear | src/main/java/frc/robot/lib/Encoder.java:36-38 | sensor units are linear in the distance |
| Encoder.VelocityRoundTrip | src/main/java/frc/robot/lib/Encoder.java:73-101 | toVelocity and fromVelocity undo each other in both orders, for nonzero time |
| Encoder.RPMRoundTrip | src/main/java/frc/robot/lib/Encoder.java:123-148 | toRPM and fromRPM undo each other in both orders |
| Encoder.RotationalAngleRoundTrip | src/main/java/frc/robot/lib/Encoder.java:157-180 | toRotationalAngle and fromRotationalAngle undo each other in both orders |
| Encoder.OneRevolutionIs360Degrees | src/main/java/frc/robot/lib/Encoder.java:157-159 | one revolution of counts with no gearing is 360 degrees |
| UtilEncoder.ToDistance | src/main/java/frc/robot/lib/util/Encoder.java:26-28 | the newer class's distance conversion is the same function as the older one's |
| UtilEncoder.ToDistanceTalonFX | src/main/java/frc/robot/lib/util/Encoder.java:37-39 | the short overload is rotations / gear · π · diameter |
| UtilEncoder.FromDistance | src/main/java/frc/robot/lib/util/Encoder.java:49-51 | the same function as the older class's fromDistance |
| UtilEncoder.FromDistanceTalonFX | src/main/java/frc/robot/lib/util/Encoder.java:60-62 | the short overload is distance / (π · diameter) · gear |
| UtilEncoder.ToVelocityTalonFX | src/main/java/frc/robot/lib/util/Encoder.java:72-74 | with unitsPerRev 1 and time 1, velocity is the short distance conversion |
| UtilEncoder.ToVelocity | src/main/java/frc/robot/lib/util/Encoder.java:85-87 | the same function as the older class's toVelocity |
| UtilEncoder.FromVelocityTalonFX | src/main/java/frc/robot/lib/util/Encoder.java:97-99 | the short overload is the short distance-to-units conversion |
| UtilEncoder.FromVelocity | src/main/java/frc/robot/lib/util/Encoder.java:110-112 | the same function as the older class's fromVelocity |
| UtilEncoder.ToRPMTalonFX | src/main/java/frc/robot/lib/util/Encoder.java:120-122 | the short overload is velocity · 60 / gear |
| UtilEncoder.ToRPM | src/main/java/frc/robot/lib/util/Encoder.java:133-135 | the same function as the older class's toRPM |
| UtilEncoder.FromRPMTalonFX | src/main/java/frc/robot/lib/util/Encoder.java:143-145 | the short overload is rpm / 60 · gear |
| UtilEncoder.FromRPM | src/main/java/frc/robot/lib/util/Encoder.java:155-157 | the same function as the older class's fromRPM |
| UtilEncoder.AngularToLinear | src/main/java/frc/robot/lib/util/Encoder.java:166-168 | rotations to metres is the distance conversion at one count per rotation |
| UtilEncoder.AngularToLinearUngeared | src/main/java/frc/robot/lib/util/Encoder.java:176-178 | the overload without gearing is rotations · π · diameter |
| UtilEncoder.LinearToAngular | src/main/java/frc/robot/lib/util/Encoder.java:187-189 | metres to rotations is the distance-to-units conversion at one count per rotation |
| UtilEncoder.LinearToAngularUngeared | src/main/java/frc/robot/lib/util/Encoder.java:197-199 | the overload without gearing is distance / (π · diameter) |
| UtilEncoder.AngularLinearRoundTrip | src/main/java/frc/robot/lib/util/Encoder.java:166-189 | angularToLinear and linearToAngular undo each other in both orders |
| UtilEncoder.CountsRoundTrips | src/main/java/frc/robot/lib/util/Encoder.java:26-157 | distance, velocity and RPM each round-trip through their inverse |
| UtilEncoder.MeasureTestValues | src/test/java/frc/robot/lib/util/EncoderTest.java:16-52 | the seven unit-test cases land within the tests' tolerance of 0.001 |
| DriveUtil.ProcessDeadband | src/main/java/frc/robot/lib/drive/DriveUtil.java:26-34 | zero inside the band; the magnitude never exceeds \|x\|; a nonzero result has the sign of x |
| DriveUtil.ProcessDeadbandOutsideBand | src/main/java/frc/robot/lib/drive/DriveUtil.java:26-34 | outside the band the result is nonzero with the sign of x; its magnitude is the smoothed ramp while that is below \|x\|, and it is x itself once the ramp reaches \|x\| |
| DriveUtil.ProcessDeadbandIsOdd | src/main/java/frc/robot/lib/drive/DriveUtil.java:26-34 | the deadband is odd in x |
| DriveUtil.ProcessDeadbandContinuousAtEdge | src/main/java/frc/robot/lib/drive/DriveUtil.java:26-34 | at \|x\| = deadband the ramp starts from 0, so the function has no jump |
| DriveUtil.ProcessDeadbandTestValues | src/test/java/frc/robot/lib/drive/DriveUtilTest.java:13-17 | the five tested values, exactly (0, 0, 0.3, 1/9, 7/9) |
| DriveUtil.SquareInput | src/main/java/frc/robot/lib/drive/DriveUtil.java:39-41 | magnitude x², sign of x, and never larger than \|x\| on [-1, 1] |
| DriveUtil.SquareInputFixedPoints | src/main/java/frc/robot/lib/drive/DriveUtil.java:39-41 | the square is odd, and its fixed points are exactly -1, 0 and 1 |
| DriveUtil.ConstantCurvature | src/main/java/frc/robot/lib/drive/DriveUtil.java:46-48 | \|speed\| · turn + trim: at least the trim for a non-negative turn, at most it for a non-positive one, and within \|turn\| of the trim when \|speed\| ≤ 1 |
| DriveUtil.ConstantCurvatureProperties | src/main/java/frc/robot/lib/drive/DriveUtil.java:46-48 | s and -s give the same turn; s = 0 gives the trim; the distance from the trim is \|s\|·\|t\| |
| DriveUtil.ConstantCurvatureTestValues | src/test/java/frc/robot/lib/drive/DriveUtilTest.java:31-37 | all seven tested values, including a reverse drive that turns the same way as a forward one |
| DriveUtil.NormalizeValues | src/main/java/frc/robot/lib/drive/DriveUtil.java:54-61 | both results lie in [-1, 1]; an in-range pair is unchanged; otherwise the larger magnitude becomes exactly 1; signs and ratio are kept |
| DriveUtil.NormalizeValuesTestValues | src/test/java/frc/robot/lib/drive/DriveUtilTest.java:42-62 | the seven tested pairs, exactly |
| DriveHelper.ProcessDeadband | src/main/java/frc/robot/lib/drive/DriveHelper.java:22-32 | zero inside the band and at its edge |
| DriveHelper.ProcessDeadbandIsOdd | src/main/java/frc/robot/lib/drive/DriveHelper.java:22-32 | the old deadband is odd |
| DriveHelper.ProcessDeadbandOutsideBand | src/main/java/frc/robot/lib/drive/DriveHelper.java:27-30 | outside the band the magnitude is (\|val\| − d)/(1 − d), with the sign of val |
| DriveHelper.OutsideBand | src/main/java/frc/robot/lib/drive/DriveHelper.java:27-30 | outside the band the result is the point-slope line through (d, 0) with slope 1/(1 − d) |
| DriveHelper.ProcessDeadbandFullDeflection | src/main/java/frc/robot/lib/drive/DriveHelper.java:22-32 | for a band below 1, ±1 maps to ±1 |
| DriveHelper.ProcessDeadbandAgreesWithDriveUtil | src/main/java/frc/robot/lib/drive/DriveHelper.java:22-32 | on [-1, 1] with a band in [0, 1), the old deadband equals the new one with smoothing 1 |
| DriveHelper.SquareInput | src/main/java/frc/robot/lib/drive/DriveHelper.java:37-39 | magnitude val², sign of val |
| DriveHelper.SquareInputIsOddAndAgrees | src/main/java/frc/robot/lib/drive/DriveHelper.java:37-39 | the old square is odd and is the same function as the new one |
| DriveHelper.ConstantCurvature | src/main/java/frc/robot/lib/drive/DriveHelper.java:44-46 | turn · speed + trim: on the trim's side given by the signs of speed and turn (same signs: at least the trim; opposite signs: at most it), and within \|turn\| of the trim when \|speed\| ≤ 1 |
| DriveHelper.ConstantCurvatureAgainstDriveUtil | src/main/java/frc/robot/lib/drive/DriveHelper.java:44-46 | negating speed negates the turn part; speed 0 gives the trim; it agrees with the new curvature for speed ≥ 0 and mirrors it about the trim for speed < 0 |
| DriveHelper.NormalizeValues | src/main/java/frc/robot/lib/drive/DriveHelper.java:52-61 | an in-range pair (≤ 1) is unchanged; first > 1 makes first exactly 1, otherwise second > 1 makes second exactly 1; ratio and signs are kept |
| DriveHelper.NormalizeValuesScales | src/main/java/frc/robot/lib/drive/DriveHelper.java:52-61 | both values are multiplied by one positive factor |
| DriveHelper.NormalizeValuesCanExceedOne | src/main/java/frc/robot/lib/drive/DriveHelper.java:52-61 | (1.2, 2.4) becomes (1, 2), and (-3, 0.5) passes unchanged: the result can leave [-1, 1] |
| DriveHelper.NormalizeValuesAgreesWithDriveUtil | src/main/java/frc/robot/lib/drive/DriveHelper.java:52-61 | for non-negative values where the first checked is the larger one, the old and new normalisations agree |
| SlewRateLimiting.Step | src/main/java/frc/robot/lib/util/DynamicSlewRateLimiter.java:63-83 | one step moves from prevVal toward the input and never past it, within the two rate windows; an input beyond a window gives exactly prevVal plus that window times the elapsed time; with no elapsed time nothing moves |
| SlewRateLimiting.RateLimits | src/main/java/frc/robot/lib/util/DynamicSlewRateLimiter.java:72-78 | the (positive, negative) window: (increasing, decreasing) for prevVal ≥ 0, swapped to (decreasing, increasing) only for prevVal < 0 |
| SlewRateLimiting.StepRates | src/main/java/frc/robot/lib/util/DynamicSlewRateLimiter.java:63-83 | off zero, a step away from zero moves at most increasing·elapsed and a step toward zero at most decreasing·elapsed, on either side; from exactly zero an upward step is held to the increasing rate and a downward one to the decreasing rate |
| SlewRateLimiting.StepFromZeroUsesDecreasingRate | src/main/java/frc/robot/lib/util/DynamicSlewRateLimiter.java:63-83 | with increasing 2 and decreasing 1, one second from 0 reaches -1 toward -5 but 2 toward +5 |
| SlewRateLimiting.AwayTowardStep | src/main/java/frc/robot/lib/util/DynamicSlewRateLimiter.java:72-83 | the step with zero counted as "away" both ways moves toward the input, never past it, reaches it inside the window, and stands still with no elapsed time |
| SlewRateLimiting.AwayTowardStepRates | src/main/java/frc/robot/lib/util/DynamicSlewRateLimiter.java:22-28 | every step away from zero, from zero included, is bounded by the increasing rate, and every step toward zero by the decreasing rate, as the constructor documentation describes the two rates |
| SlewRateLimiting.AwayTowardAgreesOffZero | src/main/java/frc/robot/lib/util/DynamicSlewRateLimiter.java:63-83 | off zero the corrected step is the limiter's own step |
| SlewRateLimiting.SymmetricStep | src/main/java/frc/robot/lib/drive/ButterySmoothDriveCommand.java:34 | with equal rates the step is prevVal + clamp(input − prevVal, −rate·elapsed, rate·elapsed), the symmetric limiter |
| SlewRateLimiting.DynamicSlewRateLimiter.constructor | src/main/java/frc/robot/lib/util/DynamicSlewRateLimiter.java:30-35 | the supplier constructor stores the rate sources and starts at 0 at the current time |
| SlewRateLimiting.DynamicSlewRateLimiter.FromConstants | src/main/java/frc/robot/lib/util/DynamicSlewRateLimiter.java:46-52 | throws IllegalArgumentException exactly when a rate is negative; otherwise a fresh limiter at 0 with those constant rates |
| SlewRateLimiting.DynamicSlewRateLimiter.Calculate | src/main/java/frc/robot/lib/util/DynamicSlewRateLimiter.java:60-86 | a negative rate at call time throws and changes nothing; otherwise prevVal takes one Step over the elapsed time, prevTime becomes now, and the new prevVal is returned |
| SlewRateLimiting.DynamicSlewRateLimiter.LastValue | src/main/java/frc/robot/lib/util/DynamicSlewRateLimiter.java:93-95 | returns prevVal and changes nothing |
| SlewRateLimiting.DynamicSlewRateLimiter.Reset | src/main/java/frc/robot/lib/util/DynamicSlewRateLimiter.java:102-105 | prevVal becomes the value, whatever the rates, and the clock restarts |
| SlewRateLimiting.RepeatedCallAtSameTime | src/main/java/frc/robot/lib/util/DynamicSlewRateLimiter.java:60-86 | two calls at the same instant: the second returns what the first did, whatever its input |
| ConfiguredDriveCommand.ProcessDeadband | src/main/java/frc/robot/lib/drive/ButterySmoothDriveCommand.java:77-87 | zero inside the configured band; full deflection is kept |
| ConfiguredDriveCommand.NormalizeSpeed | src/main/java/frc/robot/lib/drive/ButterySmoothDriveCommand.java:89-98 | the power factor is in (0, 1]; it brings the side it checked (left first) to exactly 1, and is 1 when neither exceeds 1 |
| ConfiguredDriveCommand.NormalizeSpeedIsNormalizeValues | src/main/java/frc/robot/lib/drive/ButterySmoothDriveCommand.java:67-70 | scaling a pair by the power factor is the old helper's normalizeValues |
| ConfiguredDriveCommand.ShapeAxis | src/main/java/frc/robot/lib/drive/ButterySmoothDriveCommand.java:44-58 | an axis inside the deadband shapes to 0 |
| ConfiguredDriveCommand.SlowModeScaling | src/main/java/frc/robot/lib/drive/ButterySmoothDriveCommand.java:48-58 | slow mode comes before squaring: with squaring on it scales the result by slowSpeed², with squaring off by slowSpeed |
| ConfiguredDriveCommand.SquareOfScaled | src/main/java/frc/robot/lib/drive/ButterySmoothDriveCommand.java:49-57 | the signed square of k·v for k ≥ 0 is k² times the signed square of v |
| ConfiguredDriveCommand.Shaped | src/main/java/frc/robot/lib/drive/ButterySmoothDriveCommand.java:44-62 | turn and trim inside the deadband contribute nothing |
| ConfiguredDriveCommand.Mix | src/main/java/frc/robot/lib/drive/ButterySmoothDriveCommand.java:65-70 | the left/right pair keeps the sign of speed - turn and speed + turn and their ratio (the power factor is positive and common to both sides) |
| ConfiguredDriveCommand.MixIsNormalizedCurvature | src/main/java/frc/robot/lib/drive/ButterySmoothDriveCommand.java:65-70 | the mix is the old helper's curvature term followed by its normalisation of (speed − turn, speed + turn) |
| ConfiguredDriveCommand.MixProperties | src/main/java/frc/robot/lib/drive/ButterySmoothDriveCommand.java:65-70 | with no turn or trim both sides are equal; at rest the turn stick does nothing and trim alone spins in place |
| ConfiguredDriveCommand.MixCanLeaveRange | src/main/java/frc/robot/lib/drive/ButterySmoothDriveCommand.java:89-98 | speed −0.75, turn −0.5, trim 0.23 gives a left side of −1.355 |
| ConfiguredDriveCommand.DesaturatedMix | src/main/java/frc/robot/lib/drive/ButterySmoothDriveCommand.java:64-70 | dividing by the larger magnitude keeps both sides in [-1, 1] |
| ConfiguredDriveCommand.DesaturatedMixAgreesInRange | src/main/java/frc/robot/lib/drive/ButterySmoothDriveCommand.java:64-70 | the desaturated mix equals the as-written one when both raw sides are within [-1, 1], and differs on the example above |
| ConfiguredDriveCommand.ButterySmoothDriveCommand.constructor | src/main/java/frc/robot/lib/drive/ButterySmoothDriveCommand.java:25-36 | stores the configuration, builds the limiter from the slew rate (same rate both ways, starting at 0), and has handed nothing out yet |
| ConfiguredDriveCommand.ButterySmoothDriveCommand.Execute | src/main/java/frc/robot/lib/drive/ButterySmoothDriveCommand.java:39-72 | only the shaped speed goes through the limiter; the consumer receives the mix of the limited speed with the shaped turn and trim |
| ConfiguredDriveCommand.ButterySmoothDriveCommand.LimitAndMix | src/main/java/frc/robot/lib/drive/ButterySmoothDriveCommand.java:63-71 | limit the speed by one step, mix, and hand exactly that pair to the consumer |
| ConfiguredDriveCommand.ButterySmoothDriveCommand.End | src/main/java/frc/robot/lib/drive/ButterySmoothDriveCommand.java:100-103 | onEnd runs whether or not the command was interrupted |
| ConstantsDriveCommand.ProcessDeadband | src/main/java/frc/robot/commands/driving/ButterySmoothDriveCommand.java:70-80 | zero inside the 0.07 band; full deflection is kept; the same as the configurable deadband under the Drive constants |
| ConstantsDriveCommand.FindSpeed | src/main/java/frc/robot/commands/driving/ButterySmoothDriveCommand.java:82-92 | the power factor is in (0, 1], brings the side it checked to exactly 1, and is 1 when neither side exceeds 1 |
| ConstantsDriveCommand.ShapeAxis | src/main/java/frc/robot/commands/driving/ButterySmoothDriveCommand.java:37-51 | zero inside the deadband; at full deflection the value itself without slow mode and slowSpeed times it with slow mode (slow mode replaces squaring) |
| ConstantsDriveCommand.Shaped | src/main/java/frc/robot/commands/driving/ButterySmoothDriveCommand.java:37-55 | the three axes are zero inside the deadband, and a full-deflection speed without slow mode becomes speedAdjustment |
| ConstantsDriveCommand.FindSpeedIsNormalizeSpeed | src/main/java/frc/robot/commands/driving/ButterySmoothDriveCommand.java:82-92 | findSpeed is normalizeSpeed: the factor is in (0, 1] and brings the side it checked to exactly 1 |
| ConstantsDriveCommand.ShapeAxisAgainstConfigured | src/main/java/frc/robot/commands/driving/ButterySmoothDriveCommand.java:37-51 | except in a slow-and-squared cycle the two commands shape alike; slow skips squaring here (0.2 vs 0.04 at full deflection) |
| ConstantsDriveCommand.MixSpeeds | src/main/java/frc/robot/commands/driving/ButterySmoothDriveCommand.java:58-63 | the curvature and power-factor steps compute the same mix as the configurable command |
| ConstantsDriveCommand.ButterySmoothDriveCommand.constructor | src/main/java/frc/robot/commands/driving/ButterySmoothDriveCommand.java:19-29 | the limiter uses Drive.slewRate both ways and starts at 0; nothing has been sent to the drive yet |
| ConstantsDriveCommand.ButterySmoothDriveCommand.Execute | src/main/java/frc/robot/commands/driving/ButterySmoothDriveCommand.java:32-65 | only the shaped speed is limited; setPower receives the mix of the limited speed with shaped turn and trim |
| ConstantsDriveCommand.ButterySmoothDriveCommand.LimitAndMix | src/main/java/frc/robot/commands/driving/ButterySmoothDriveCommand.java:56-64 | limit the speed by one step, mix, and set exactly that power |
| ConstantsDriveCommand.ButterySmoothDriveCommand.End | src/main/java/frc/robot/commands/driving/ButterySmoothDriveCommand.java:94-97 | end always stops the drive |
| VisionUtil.NormalizePixels | src/main/java/frc/robot/lib/util/VisionUtil.java:48-51 | the result is in [-1, 1]; a pixel inside the window is scaled exactly; beyond it the result saturates at ±1 |
| VisionUtil.NormalizePixelsIsMonotone | src/main/java/frc/robot/lib/util/VisionUtil.java:48-51 | for a positive resolution the normalisation is monotone |
| VisionUtil.CenterPixels | src/main/java/frc/robot/lib/util/VisionUtil.java:61-68 | for a resolution of at least 1 the centered coordinate lies within ±(resolution/2 - 0.5) |
| VisionUtil.CenterPixelsProperties | src/main/java/frc/robot/lib/util/VisionUtil.java:61-68 | the inverted result is the negation of the plain one; the plain result spans −(res/2 − 0.5) to res/2 − 0.5, and inside the range it is pixel − (res/2 − 0.5) |
| VisionUtil.CenterPixelsAt320 | src/main/java/frc/robot/lib/util/VisionUtil.java:61-68 | at 320 pixels the ends map to ±159.5, and an out-of-range pixel is clamped |
| VisionUtil.NormalizeAngle | src/main/java/frc/robot/lib/util/VisionUtil.java:76-79 | the result is in [-1, 1]; an angle inside the field of view is scaled exactly; beyond it the result saturates |
| VisionUtil.Midpoint | src/main/java/frc/robot/lib/util/VisionUtil.java:129-131 | each coordinate lies between the two points' and is equidistant from them |
| VisionUtil.MidpointIsSymmetric | src/main/java/frc/robot/lib/util/VisionUtil.java:129-131 | the midpoint does not depend on the order of the points, and a point's midpoint with itself is itself |
| LogUtil.BoolEncodingsAgree | src/main/java/frc/robot/lib/logging/LogUtil.java:55-61 | both encodings are one-to-one, and the digit of boolToString is the value of boolToDouble |
| LogUtil.BoolToString | src/main/java/frc/robot/lib/logging/LogUtil.java:55-57 | a one-character string, "1" exactly for true and "0" for false |
| LogUtil.BoolToDouble | src/main/java/frc/robot/lib/logging/LogUtil.java:59-61 | a value in [0, 1] that is 1 exactly for true |
| LogUtil.TrimLeadingSpaces | src/main/java/frc/robot/lib/logging/LogUtil.java:70 | the result does not start with a space and is no longer than the input |
| LogUtil.Fields | src/main/java/frc/robot/lib/logging/LogUtil.java:70 | splitting at runs of spaces yields at least one piece |
| LogUtil.DropTrailingEmpty | src/main/java/frc/robot/lib/logging/LogUtil.java:70 | a prefix of the pieces that ends in a non-empty piece, with only empty pieces dropped |
| LogUtil.Split | src/main/java/frc/robot/lib/logging/LogUtil.java:70 | `split(" +")`: no piece contains a space, and a string without spaces is its own single piece |
| LogUtil.FieldsHaveNoSpaces | src/main/java/frc/robot/lib/logging/LogUtil.java:70 | no piece contains a space |
| LogUtil.FieldsInnerNonEmpty | src/main/java/frc/robot/lib/logging/LogUtil.java:70 | only the first and last pieces can be empty |
| LogUtil.FieldsHeadNonEmpty | src/main/java/frc/robot/lib/logging/LogUtil.java:70 | without a leading space the first piece is not empty |
| LogUtil.SplitProperties | src/main/java/frc/robot/lib/logging/LogUtil.java:70 | `split(" +")`: no name contains a space, only the first name can be empty, and the result is empty exactly for a non-empty string of spaces |
| LogUtil.SplitEdgeCases | src/main/java/frc/robot/lib/logging/LogUtil.java:70 | "" splits to [""], all spaces to [], and trailing spaces are dropped |
| LogUtil.SplitLeadingSpace | src/main/java/frc/robot/lib/logging/LogUtil.java:70 | a leading space gives an empty first name |
| LogUtil.FieldsOfPrefix | src/main/java/frc/robot/lib/logging/LogUtil.java:70 | a space-free name, a space and a text not starting with a space split into the name followed by the text's pieces |
| LogUtil.FieldsOfName | src/main/java/frc/robot/lib/logging/LogUtil.java:70 | a space-free text is a single piece |
| LogUtil.SplitJoin | src/main/java/frc/robot/lib/logging/LogUtil.java:70 | splitting non-empty space-free names joined by spaces gives the names back |
| LogUtil.JoinFields | src/main/java/frc/robot/lib/logging/LogUtil.java:70 | the pieces of the joined names are the names |
| LogUtil.UpperCase | src/main/java/frc/robot/lib/logging/LogUtil.java:76-80 | uppercases character by character and keeps the length |
| LogUtil.Capitalize | src/main/java/frc/robot/lib/logging/LogUtil.java:75-81 | the same length as the name, with the first character uppercased and the rest unchanged |
| LogUtil.CapitalizeProperties | src/main/java/frc/robot/lib/logging/LogUtil.java:75-81 | capitalising keeps the length, uppercases the first character, keeps the rest of a longer name, and is idempotent |
| LogUtil.FormattedConcat | src/main/java/frc/robot/lib/logging/LogUtil.java:72-83 | the output of a concatenation of pairs is the concatenation of their outputs (in-order) |
| LogUtil.FormattedLast | src/main/java/frc/robot/lib/logging/LogUtil.java:72-83 | the output is that of all but the last pair followed by the last segment |
| LogUtil.AppendSegment | src/main/java/frc/robot/lib/logging/LogUtil.java:75-81 | both branches of the loop body append exactly one "Name: value, " segment |
| LogUtil.GetFormatted | src/main/java/frc/robot/lib/logging/LogUtil.java:68-84 | throws IllegalArgumentException exactly when the name count differs from the variable count; otherwise returns the in-order segments |
| LogUtil.SplitExample | src/main/java/frc/robot/lib/logging/LogUtil.java:65-70 | the documented "yaw pitch roll" splits into its three names |
| LogUtil.FormattedExample | src/main/java/frc/robot/lib/logging/LogUtil.java:65-84 | those names with 1, 2, 3 give "Yaw: 1, Pitch: 2, Roll: 3, " |
| LogUtil.SegmentExamples | src/main/java/frc/robot/lib/logging/LogUtil.java:75-77 | each of those names is capitalised in its segment |
| LedStrip.FillFrame | src/main/java/frc/robot/lib/led/LEDStrip.java:60-65 | a range fill keeps the strip length |
| LedStrip.FillFrameProperties | src/main/java/frc/robot/lib/led/LEDStrip.java:60-65 | filling [0, len) sets every LED; refilling a range overwrites the earlier fill; LEDs outside the range are unchanged |
| LedStrip.NextHue | src/main/java/frc/robot/lib/led/LEDStrip.java:136-137 | the int hue after adding the increment and taking `% 180` lies in (-180, 180), and is non-negative when the sum is |
| LedStrip.NextHueProperties | src/main/java/frc/robot/lib/led/LEDStrip.java:136-137 | with a non-negative hue and increment the hue stays in [0, 180); an increment below 1 is truncated away; otherwise it is (hue + ⌊inc⌋) mod 180 |
| LedStrip.NextHueCanGoNegative | src/main/java/frc/robot/lib/led/LEDStrip.java:136-137 | with a negative increment Java's `%` leaves a negative hue |
| LedStrip.RainbowFrame | src/main/java/frc/robot/lib/led/LEDStrip.java:158-161 | the rainbow frame covers the whole strip |
| LedStrip.BandHue | src/main/java/frc/robot/lib/led/LEDStrip.java:159 | the hue of LED k lies in (-180, 180), and is non-negative for a non-negative hue and k |
| LedStrip.RainbowOffsets | src/main/java/frc/robot/lib/led/LEDStrip.java:159 | the offsets i·180/len are non-decreasing along the strip and stay in [0, 180) |
| LedStrip.RainbowFrameHues | src/main/java/frc/robot/lib/led/LEDStrip.java:158-161 | every LED's hue is in [0, 180), and LED 0 has the strip's hue |
| LedStrip.TooManyNodesDivideByZero | src/main/java/frc/robot/lib/led/LEDStrip.java:183-185 | more than len/2 nodes make halfWavelength 0, and the division throws |
| LedStrip.HalfWavelength | src/main/java/frc/robot/lib/led/LEDStrip.java:183 | len / (2·nodes) in int arithmetic: its magnitude is the quotient of magnitudes, and it is the plain quotient when 2·nodes does not overflow |
| LedStrip.BandIndex | src/main/java/frc/robot/lib/led/LEDStrip.java:184 | (i + bandIndex) % len in int arithmetic lies strictly within ±len, and is the Euclidean remainder when the sum is a non-negative int |
| LedStrip.BandBrightness | src/main/java/frc/robot/lib/led/LEDStrip.java:185 | the int brightness is -1, 0 or 1 for a positive half wavelength |
| LedStrip.BandBrightnessIsZeroOrOne | src/main/java/frc/robot/lib/led/LEDStrip.java:185 | the integer brightness is 0 or 1, and 1 exactly at index ≡ halfWavelength (mod 2·halfWavelength) |
| LedStrip.BandRun | src/main/java/frc/robot/lib/led/LEDStrip.java:182-188 | the loop keeps the strip length |
| LedStrip.BandStep | src/main/java/frc/robot/lib/led/LEDStrip.java:184-187 | one loop iteration writes the scaled colour at its index, or throws for a negative index and writes nothing |
| LedStrip.BandRunStaysThrown | src/main/java/frc/robot/lib/led/LEDStrip.java:182-188 | after a throw, further iterations change nothing |
| LedStrip.BandOutcome | src/main/java/frc/robot/lib/led/LEDStrip.java:180-190 | one whole band call keeps the strip length, ends normally, with an ArithmeticException or with an IndexOutOfBoundsException, and writes nothing when it throws ArithmeticException |
| LedStrip.ModUnique | src/main/java/frc/robot/lib/led/LEDStrip.java:184 | a remainder in [0, n) is the remainder |
| LedStrip.BandIndexIsBijection | src/main/java/frc/robot/lib/led/LEDStrip.java:184 | for a non-negative bandIndex, (i + bandIndex) % len hits LED k exactly at iteration (k − bandIndex) mod len, so each LED is written once |
| LedStrip.BandRunWrites | src/main/java/frc/robot/lib/led/LEDStrip.java:182-188 | after n iterations, LED k has been written iff (k − bandIndex) mod len < n, with the brightness of its own index |
| LedStrip.BandFrame | src/main/java/frc/robot/lib/led/LEDStrip.java:185-187 | the band pattern covers the whole strip |
| LedStrip.BandIgnoresBandIndex | src/main/java/frc/robot/lib/led/LEDStrip.java:180-190 | for any in-range bandIndex the loop completes with the same frame: the band does not move |
| LedStrip.NegativeBandIndexThrows | src/main/java/frc/robot/lib/led/LEDStrip.java:184-187 | a negative bandIndex above −len throws IndexOutOfBounds on the first iteration and leaves the strip unchanged |
| LedStrip.RotatingBandFrame | src/main/java/frc/robot/lib/led/LEDStrip.java:185-187 | the rotating band covers the whole strip |
| LedStrip.RotatingBandShifts | src/main/java/frc/robot/lib/led/LEDStrip.java:180-190 | advancing bandIndex by one shifts the corrected band pattern one LED along the strip |
| LedStrip.ModAddMultiple | src/main/java/frc/robot/lib/led/LEDStrip.java:184 | adding a multiple of n leaves the remainder unchanged |
| LedStrip.HalfWavelengthTwo | src/main/java/frc/robot/lib/led/LEDStrip.java:185 | with halfWavelength 2 only index 2 of 0–3 is lit |
| LedStrip.BandFindingAsWritten | src/main/java/frc/robot/lib/led/LEDStrip.java:180-190 | on a 4-LED strip with one node the as-written frame lights LED 2, whatever bandIndex is |
| LedStrip.RotatingBandAtZero | src/main/java/frc/robot/lib/led/LEDStrip.java:180-190 | the corrected band at bandIndex 0 lights LED 2 only |
| LedStrip.RotatingBandAtOne | src/main/java/frc/robot/lib/led/LEDStrip.java:180-190 | the corrected band at bandIndex 1 lights LED 1 only |
| LedStrip.RotatingBandLed | src/main/java/frc/robot/lib/led/LEDStrip.java:185-187 | an LED of the corrected band is the colour when lit and off when dark |
| LedStrip.LEDStrip.constructor | src/main/java/frc/robot/lib/led/LEDStrip.java:28-34 | a fresh buffer of the given length, all LEDs off, with hue and bandIndex 0 |
| LedStrip.LEDStrip.Fill | src/main/java/frc/robot/lib/led/LEDStrip.java:60-65 | a non-empty range reaching outside the strip throws IndexOutOfBounds, after the in-range prefix has been written (setHSV repeats the loop); the buffer becomes the range fill of the old buffer |
| LedStrip.LEDStrip.Set | src/main/java/frc/robot/lib/led/LEDStrip.java:40-42 | every LED gets the colour |
| LedStrip.LEDStrip.SetLed | src/main/java/frc/robot/lib/led/LEDStrip.java:49-52 | an in-range index changes only that LED; otherwise IndexOutOfBounds and no change |
| LedStrip.LEDStrip.SetRange | src/main/java/frc/robot/lib/led/LEDStrip.java:60-65 | writes the colour to [start, end) and leaves every other LED unchanged; throws for a range outside the strip |
| LedStrip.LEDStrip.SetHSV | src/main/java/frc/robot/lib/led/LEDStrip.java:73-75 | every LED gets the HSV value |
| LedStrip.LEDStrip.SetHSVLed | src/main/java/frc/robot/lib/led/LEDStrip.java:84-87 | an in-range index changes only that LED; otherwise IndexOutOfBounds and no change |
| LedStrip.LEDStrip.SetHSVRange | src/main/java/frc/robot/lib/led/LEDStrip.java:97-102 | writes the HSV value to [start, end) and leaves every other LED unchanged |
| LedStrip.LEDStrip.GetLength | src/main/java/frc/robot/lib/led/LEDStrip.java:108-110 | the buffer length |
| LedStrip.LEDStrip.GetColor | src/main/java/frc/robot/lib/led/LEDStrip.java:117-119 | the LED at an in-range index; IndexOutOfBounds otherwise |
| LedStrip.LEDStrip.Rainbow | src/main/java/frc/robot/lib/led/LEDStrip.java:135-139 | the hue advances by the truncated increment mod 180, and every LED gets it |
| LedStrip.LEDStrip.RainbowDefault | src/main/java/frc/robot/lib/led/LEDStrip.java:125-127 | the same with saturation and value 255 |
| LedStrip.LEDStrip.RainbowBand | src/main/java/frc/robot/lib/led/LEDStrip.java:155-163 | the hue advances, and the buffer becomes the rainbow frame from it |
| LedStrip.LEDStrip.RainbowBandDefault | src/main/java/frc/robot/lib/led/LEDStrip.java:145-147 | the same with saturation and value 255 |
| LedStrip.LEDStrip.Band | src/main/java/frc/robot/lib/led/LEDStrip.java:180-190 | bandIndex advances by the truncated increment, and the outcome and buffer are those of the as-written loop |
| LedStrip.LEDStrip.BandSingleNode | src/main/java/frc/robot/lib/led/LEDStrip.java:170-172 | band with one node |
| Pneumatics.AccumulatedOverCurrent | src/main/java/frc/robot/lib/pneumatics/CurrentLimitedCompressor.java:32-33 | while every reading is over the limit the time steps add up |
| Pneumatics.AccumulatedSinceReset | src/main/java/frc/robot/lib/pneumatics/CurrentLimitedCompressor.java:32-40 | one reading at or below the limit forgets everything before it |
| Pneumatics.TripIsSticky | src/main/java/frc/robot/lib/pneumatics/CurrentLimitedCompressor.java:32-37 | the accumulator is not reset on a trip, so continued over-current disables again |
| Pneumatics.SteadyOverCurrent | src/main/java/frc/robot/lib/pneumatics/CurrentLimitedCompressor.java:32-33 | from 0, n equal over-current steps accumulate n·step |
| Pneumatics.SumOfEqualSteps | src/main/java/frc/robot/lib/pneumatics/CurrentLimitedCompressor.java:33 | n equal steps sum to n·step |
| Pneumatics.NextTime | src/main/java/frc/robot/lib/pneumatics/CurrentLimitedCompressor.java:32-40 | the accumulator is non-zero only after an over-current sample, and stays within [0, currentTime + timeStep] |
| Pneumatics.Accumulated | src/main/java/frc/robot/lib/pneumatics/CurrentLimitedCompressor.java:30-41 | after a run of samples with non-negative steps the accumulator lies within [0, t0 + the sum of the steps] |
| Pneumatics.InstanceCounter.constructor | src/main/java/frc/robot/lib/pneumatics/CurrentLimitedCompressor.java:17 | the shared count starts at 0 |
| Pneumatics.CurrentLimitedCompressor.constructor | src/main/java/frc/robot/lib/pneumatics/CurrentLimitedCompressor.java:14-24 | stores the limits; the accumulator starts at 0; the shared instance count goes up by one |
| Pneumatics.CurrentLimitedCompressor.Check | src/main/java/frc/robot/lib/pneumatics/CurrentLimitedCompressor.java:30-41 | the accumulator adds the step while over the limit and resets otherwise; disable is called exactly when over the limit with the new time past timeToTrip |
| Pneumatics.Piston.constructor | src/main/java/frc/robot/lib/pneumatics/Piston.java:10-21 | both outputs off, neither inverted |
| Pneumatics.Piston.SetExtendInverted | src/main/java/frc/robot/lib/pneumatics/Piston.java:27-29 | changes only the extend inversion flag |
| Pneumatics.Piston.SetRetractInverted | src/main/java/frc/robot/lib/pneumatics/Piston.java:36-38 | changes only the retract inversion flag |
| Pneumatics.Piston.Extend | src/main/java/frc/robot/lib/pneumatics/Piston.java:43-46 | extend := ¬extendInverted, retract := retractInverted; it reads as extended exactly when neither is inverted |
| Pneumatics.Piston.Retract | src/main/java/frc/robot/lib/pneumatics/Piston.java:51-54 | extend := extendInverted, retract := ¬retractInverted; it reads as extended only when both are inverted |
| Pneumatics.Piston.Vent | src/main/java/frc/robot/lib/pneumatics/Piston.java:59-62 | each output is its inversion flag |
| Pneumatics.Piston.Disable | src/main/java/frc/robot/lib/pneumatics/Piston.java:67-70 | both outputs off, so not extended |
| Pneumatics.Piston.IsExtended | src/main/java/frc/robot/lib/pneumatics/Piston.java:72-74 | extend on and retract off |
| SmartJoystick.BindAllSucceeds | src/main/java/frc/robot/lib/controller/SmartJoystick.java:25-29 | bindButtons succeeds iff the buttons are pairwise distinct and none is bound, and then adds all of them |
| SmartJoystick.BindAllThrowsPartway | src/main/java/frc/robot/lib/controller/SmartJoystick.java:25-29 | a failing bindButtons throws IllegalArgumentException at an already-bound button, with the buttons before it added |
| SmartJoystick.BindAllExample | src/main/java/frc/robot/lib/controller/SmartJoystick.java:25-29 | binding 1, 2, 1 throws with 1 and 2 bound; 1, 2, 3 binds all three |
| SmartJoystick.BindAll | src/main/java/frc/robot/lib/controller/SmartJoystick.java:25-29 | bindButtons only adds buttons from its list to the registry, and ends normally or with an IllegalArgumentException |
| SmartJoystick.PressAndReleaseExample | src/main/java/frc/robot/lib/controller/SmartJoystick.java:31-59 | on a fresh joystick, onTrue(3) and onFalse(3) succeed and a following whileTrue(3) throws IllegalArgumentException |
| SmartJoystick.SmartJoystick.constructor | src/main/java/frc/robot/lib/controller/SmartJoystick.java:13-18 | both registries start empty |
| SmartJoystick.SmartJoystick.AddOrThrow | src/main/java/frc/robot/lib/controller/SmartJoystick.java:20-23 | a bound button throws IllegalArgumentException and changes nothing; otherwise it is added; the other registry is untouched |
| SmartJoystick.SmartJoystick.BindButtons | src/main/java/frc/robot/lib/controller/SmartJoystick.java:25-29 | the outcome and the press registry are those of BindAll; the release registry is untouched |
| SmartJoystick.SmartJoystick.OnTrue | src/main/java/frc/robot/lib/controller/SmartJoystick.java:31-34 | reserves the button in the press registry |
| SmartJoystick.SmartJoystick.OnFalse | src/main/java/frc/robot/lib/controller/SmartJoystick.java:36-39 | reserves the button in the release registry |
| SmartJoystick.SmartJoystick.WhileTrue | src/main/java/frc/robot/lib/controller/SmartJoystick.java:41-44 | shares the press registry with onTrue |
| SmartJoystick.SmartJoystick.WhileFalse | src/main/java/frc/robot/lib/controller/SmartJoystick.java:46-49 | shares the release registry with onFalse |
| SmartJoystick.SmartJoystick.ToggleOnTrue | src/main/java/frc/robot/lib/controller/SmartJoystick.java:51-54 | shares the press registry with onTrue |
| SmartJoystick.SmartJoystick.ToggleOnFalse | src/main/java/frc/robot/lib/controller/SmartJoystick.java:56-59 | shares the release registry with onFalse |
| SmartJoystick.SmartJoystick.GetXInverted | src/main/java/frc/robot/lib/controller/SmartJoystick.java:61-63 | the negated X axis |
| SmartJoystick.SmartJoystick.GetYInverted | src/main/java/frc/robot/lib/controller/SmartJoystick.java:65-67 | the negated Y axis |
| SmartJoystick.SmartJoystick.GetZInverted | src/main/java/frc/robot/lib/controller/SmartJoystick.java:69-71 | the negated Z axis |

## Left out

- Floating point. Doubles are reals: no rounding, NaN or infinity. The unit tests' approximate values are proved exactly or within their tolerance.
- Division by zero in a double expression produces an infinity or NaN in Java. The model asks for a nonzero divisor instead: every conversion's `requires`, a deadband of 1 in the deadbands, a zero resolution or field of view.
- `Math.PI` is the decimal `3.141592653589793`, the shortest decimal that reads back as the double `Math.PI`. It is neither that double's exact binary value (3.14159265358979311599796…) nor the transcendental π.
- WPILib's `SlewRateLimiter` is not part of this model. Both drive commands use the modelled `DynamicSlewRateLimiter` with equal rates in its place.
- `ConfiguredDriveCommand.ButterySmoothDriveCommand.constructor`: requires a non-negative `slewRate`. WPILib's `SlewRateLimiter` accepts a negative rate; its window is then crossed and `MathUtil.clamp` answers the low bound. The stand-in limiter cannot express that case, so a configuration with a negative slew rate is not modelled.
- The `Supplier` rates of the limiter are modelled as functions of the clock reading.
- `MathSharedStore.getTimestamp`, `getCurrent` and the joystick axes and buttons are parameters of the methods that read them.
- Hardware calls are not modelled:
  - `AddressableLED.setLength`, `setData` and `start`;
  - `Solenoid.set` (the solenoid is the boolean it was last set to);
  - `Compressor.disable` (counted in `disableCalls`);
  - the `System.out.println` in `check`;
  - the `JoystickButton`/`Trigger` binding of commands.
- The static `numberInstances` is an `InstanceCounter` object passed to each compressor constructor.
- `LedStrip.LEDStrip.constructor`: requires a non-negative length. Java throws `NegativeArraySizeException` for a negative one, which is not modelled.
- The HSV-to-RGB conversion of `AddressableLEDBuffer.setHSV` is not modelled. LEDs keep the HSV triple they were set to.
- `LedStrip.LEDStrip.RainbowBand`: `i * 180` is taken as exact. It overflows 32 bits only on strips of more than about 11.9 million LEDs.
- `LedStrip.LEDStrip.Band`: the writes are modelled exactly. The lemmas about them assume that bandIndex + len stays within the int range, or that bandIndex lies in (−len, 0). Beyond that, wrapped indices still follow the model (`Wrap32`), but no lemma describes them.
- `LEDStrip.pulseCommand` is not modelled: it only schedules commands.
- The `Measure` overload of the `CurrentLimitedCompressor` constructor only converts units.
- `LogUtil.UpperCase`: uppercases the ASCII letters only, not all of Unicode.
- The variables passed to `getFormatted` are modelled as their printed strings.
- `VisionUtil`'s trigonometric functions (`pixelsToAngles`, `anglesToPixels`, `getDistanceWidth`, `getDistanceHeight`, `getSkewAngle`) are not modelled; they rest on tan, atan and acos.
- Trajectory following, the subsystems, telemetry, music and robot wiring are not part of this model.
- `ConfiguredDriveCommand.ButterySmoothDriveCommand.Execute` computes the three shaped axes with the `Shaped` function in one step. It does not reassign the locals one by one. The limiter step and the hand-off to the consumer remain imperative.

## Findings

| source | as written | input that shows it | evidently intended | confidence | as-written member | corrected member |
|---|---|---|---|---|---|---|
| src/main/java/frc/robot/lib/drive/DriveHelper.java:52-61 | scales by 1/first when first > 1, else by 1/second; only positive overflow of the first-checked value is seen | (1.2, 2.4) gives (1.0, 2.0); (-3.0, 0.5) is returned unchanged | scale by the larger magnitude so that both values end in [-1, 1], as the newer DriveUtil.normalizeValues does | not executed; high | DriveHelper.NormalizeValuesCanExceedOne | DriveUtil.NormalizeValues |
| src/main/java/frc/robot/lib/drive/ButterySmoothDriveCommand.java:89-98 | the power factor checks left > 1, then right > 1, so a side below -1 is never scaled | speed -0.75, turn -0.5, trim 0.23 gives left -1.355 | desaturate by the larger magnitude, as the WPILib curvature kinematics the code cites do | not executed; medium | ConfiguredDriveCommand.MixCanLeaveRange | ConfiguredDriveCommand.DesaturatedMix |
| src/main/java/frc/robot/lib/led/LEDStrip.java:180-190 | the brightness is computed from the rotated index and written at that same index, so each LED k always gets the brightness of k | a 4-LED strip with one node lights LED 2 at every bandIndex | the band moves one LED per unit of bandIndex (brightness of the rotated index written at LED i) | not executed; high | LedStrip.BandIgnoresBandIndex | LedStrip.RotatingBandShifts |
| src/main/java/frc/robot/lib/util/DynamicSlewRateLimiter.java:63-83 | the limits are swapped only for sign < 0, so from exactly 0 a downward step, which moves away from zero, gets the decreasing rate | from 0 with increasing 2 and decreasing 1, one second toward -5 reaches -1, not -2 | the increasing rate governs every move away from zero, as the constructor documentation says (lines 22-28) | not executed; medium | SlewRateLimiting.StepFromZeroUsesDecreasingRate | SlewRateLimiting.AwayTowardStepRates |
