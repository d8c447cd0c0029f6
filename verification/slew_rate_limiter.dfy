/** DynamicSlewRateLimiter: limits how fast a value may change, with one rate
    for moving away from zero ("increasing") and another for moving toward
    zero ("decreasing"). The clock is read by the caller and passed in as
    `now`; the rate limits are functions of the clock reading, standing for
    the suppliers the limiter polls on every call. */
module SlewRateLimiting {
  import opened JavaMath
  import opened Exceptions

  /** The (upward, downward) rate pair used for a step that starts at
      prevVal: the increasing rate goes up and the decreasing rate goes down
      while prevVal >= 0 (zero included), and the two swap while prevVal < 0,
      so that off zero "increasing" means away from zero. */
  datatype Rates = Rates(up: real, down: real)

  function RateLimits(prevVal: real, increasing: real, decreasing: real): (r: Rates)
    ensures prevVal > 0.0 ==> r.up == increasing && r.down == decreasing
    ensures prevVal < 0.0 ==> r.down == increasing && r.up == decreasing
    ensures prevVal == 0.0 ==> r.up == increasing && r.down == decreasing
  {
    if Signum(prevVal) < 0.0 then Rates(decreasing, increasing) else Rates(increasing, decreasing)
  }

  /** One filter step: prevVal moves toward input by at most the upward rate
      times elapsed going up and the downward rate times elapsed going down. */
  function Step(prevVal: real, elapsed: real, increasing: real, decreasing: real, input: real): (r: real)
    requires increasing >= 0.0 && decreasing >= 0.0
    ensures elapsed >= 0.0 ==>
              prevVal - RateLimits(prevVal, increasing, decreasing).down * elapsed <= r
              <= prevVal + RateLimits(prevVal, increasing, decreasing).up * elapsed
    ensures elapsed >= 0.0 &&
            prevVal - RateLimits(prevVal, increasing, decreasing).down * elapsed <= input
              <= prevVal + RateLimits(prevVal, increasing, decreasing).up * elapsed
            ==> r == input
    ensures elapsed == 0.0 ==> r == prevVal
    ensures elapsed >= 0.0 && prevVal <= input ==> prevVal <= r <= input
    ensures elapsed >= 0.0 && input <= prevVal ==> input <= r <= prevVal
    ensures elapsed >= 0.0 && input >= prevVal + RateLimits(prevVal, increasing, decreasing).up * elapsed ==>
              r == prevVal + RateLimits(prevVal, increasing, decreasing).up * elapsed
    ensures elapsed >= 0.0 && input <= prevVal - RateLimits(prevVal, increasing, decreasing).down * elapsed ==>
              r == prevVal - RateLimits(prevVal, increasing, decreasing).down * elapsed
  {
    var limits := RateLimits(prevVal, increasing, decreasing);
    var up, down := limits.up * elapsed, limits.down * elapsed;
    NonNegativeProduct(limits.up, elapsed);
    NonNegativeProduct(limits.down, elapsed);
    prevVal + Clamp(input - prevVal, -down, up)
  }

  lemma NonNegativeProduct(a: real, b: real)
    requires a >= 0.0
    ensures b >= 0.0 ==> a * b >= 0.0
    ensures b == 0.0 ==> a * b == 0.0
  {
  }

  /** In terms of distance from zero: a step that moves away from zero (or
      starts from zero going up) is bounded by the increasing rate, a step
      that moves toward zero by the decreasing rate. From exactly zero a
      downward step is bounded by the decreasing rate, since zero counts as
      non-negative. */
  lemma StepRates(prevVal: real, elapsed: real, increasing: real, decreasing: real, input: real)
    requires increasing >= 0.0 && decreasing >= 0.0 && elapsed >= 0.0
    ensures var r := Step(prevVal, elapsed, increasing, decreasing, input);
            (prevVal >= 0.0 && input >= prevVal ==> r - prevVal <= increasing * elapsed) &&
            (prevVal < 0.0 && input <= prevVal ==> prevVal - r <= increasing * elapsed) &&
            (prevVal > 0.0 && input <= prevVal ==> prevVal - r <= decreasing * elapsed) &&
            (prevVal < 0.0 && input >= prevVal ==> r - prevVal <= decreasing * elapsed) &&
            (prevVal == 0.0 && input <= 0.0 ==> -r <= decreasing * elapsed)
  {
    var r := Step(prevVal, elapsed, increasing, decreasing, input);
    if prevVal >= 0.0 {
      assert RateLimits(prevVal, increasing, decreasing) == Rates(increasing, decreasing);
      assert prevVal - decreasing * elapsed <= r <= prevVal + increasing * elapsed;
    } else {
      assert RateLimits(prevVal, increasing, decreasing) == Rates(decreasing, increasing);
      assert prevVal - increasing * elapsed <= r <= prevVal + decreasing * elapsed;
    }
  }

  /** With equal rates the swap does nothing: the step is the symmetric
      clamp of the change, which is the step of WPILib's SlewRateLimiter
      built from a single rate. */
  lemma SymmetricStep(prevVal: real, elapsed: real, rate: real, input: real)
    requires rate >= 0.0
    ensures Step(prevVal, elapsed, rate, rate, input) == prevVal + Clamp(input - prevVal, -rate * elapsed, rate * elapsed)
  {
  }

  /** At exactly zero the limits are not swapped, so a step from zero toward
      negative values, which moves away from zero, is held to the decreasing
      rate: with increasing 2 and decreasing 1, one second from 0 toward -5
      reaches only -1, while toward +5 it reaches 2. */
  lemma StepFromZeroUsesDecreasingRate()
    ensures Step(0.0, 1.0, 2.0, 1.0, -5.0) == -1.0
    ensures Step(0.0, 1.0, 2.0, 1.0, 5.0) == 2.0
  {
  }

  /** The rate pair under which "increasing" means away from zero from zero
      as well: a step that starts at 0 uses the increasing rate both ways. */
  function AwayTowardLimits(prevVal: real, increasing: real, decreasing: real): Rates
  {
    if prevVal > 0.0 then Rates(increasing, decreasing)
    else if prevVal < 0.0 then Rates(decreasing, increasing)
    else Rates(increasing, increasing)
  }

  /** The filter step with the away/toward rates of AwayTowardLimits: it
      moves toward the input and never past it, reaches it when it is within
      the window, and does not move when no time has passed. */
  function AwayTowardStep(prevVal: real, elapsed: real, increasing: real, decreasing: real, input: real): (r: real)
    requires increasing >= 0.0 && decreasing >= 0.0
    ensures elapsed == 0.0 ==> r == prevVal
    ensures elapsed >= 0.0 && prevVal <= input ==> prevVal <= r <= input
    ensures elapsed >= 0.0 && input <= prevVal ==> input <= r <= prevVal
    ensures elapsed >= 0.0 &&
            prevVal - AwayTowardLimits(prevVal, increasing, decreasing).down * elapsed <= input
              <= prevVal + AwayTowardLimits(prevVal, increasing, decreasing).up * elapsed
            ==> r == input
  {
    var limits := AwayTowardLimits(prevVal, increasing, decreasing);
    NonNegativeProduct(limits.up, elapsed);
    NonNegativeProduct(limits.down, elapsed);
    prevVal + Clamp(input - prevVal, -limits.down * elapsed, limits.up * elapsed)
  }

  /** With the away/toward rates, every step away from zero, from zero
      included, is bounded by the increasing rate, and every step toward
      zero by the decreasing rate. */
  lemma AwayTowardStepRates(prevVal: real, elapsed: real, increasing: real, decreasing: real, input: real)
    requires increasing >= 0.0 && decreasing >= 0.0 && elapsed >= 0.0
    ensures var r := AwayTowardStep(prevVal, elapsed, increasing, decreasing, input);
            (prevVal >= 0.0 && input >= prevVal ==> r - prevVal <= increasing * elapsed) &&
            (prevVal <= 0.0 && input <= prevVal ==> prevVal - r <= increasing * elapsed) &&
            (prevVal > 0.0 && input <= prevVal ==> prevVal - r <= decreasing * elapsed) &&
            (prevVal < 0.0 && input >= prevVal ==> r - prevVal <= decreasing * elapsed)
  {
    var limits := AwayTowardLimits(prevVal, increasing, decreasing);
    var r := AwayTowardStep(prevVal, elapsed, increasing, decreasing, input);
    NonNegativeProduct(limits.up, elapsed);
    NonNegativeProduct(limits.down, elapsed);
    assert r == prevVal + Clamp(input - prevVal, -limits.down * elapsed, limits.up * elapsed);
    assert prevVal - limits.down * elapsed <= r <= prevVal + limits.up * elapsed;
  }

  /** Away from zero the away/toward step is the limiter's own step. */
  lemma AwayTowardAgreesOffZero(prevVal: real, elapsed: real, increasing: real, decreasing: real, input: real)
    requires increasing >= 0.0 && decreasing >= 0.0 && prevVal != 0.0
    ensures AwayTowardStep(prevVal, elapsed, increasing, decreasing, input) == Step(prevVal, elapsed, increasing, decreasing, input)
  {
    assert AwayTowardLimits(prevVal, increasing, decreasing) == RateLimits(prevVal, increasing, decreasing);
  }

  /** The filter state: the rate-limit sources and the last output and the
      time it was produced. */
  class DynamicSlewRateLimiter {
    const increasingRateLimit: real -> real
    const decreasingRateLimit: real -> real
    var prevVal: real
    var prevTime: real

    /** The supplier constructor: starts at 0 at the current time and checks
        nothing. */
    constructor (increasing: real -> real, decreasing: real -> real, now: real)
      ensures increasingRateLimit == increasing && decreasingRateLimit == decreasing
      ensures prevVal == 0.0 && prevTime == now
    {
      increasingRateLimit := increasing;
      decreasingRateLimit := decreasing;
      prevVal := 0.0;
      prevTime := now;
    }

    /** The constant-rate constructor: fails with IllegalArgumentException
        when either rate is negative. */
    static method FromConstants(increasing: real, decreasing: real, now: real) returns (r: Result<DynamicSlewRateLimiter>)
      ensures r.Err? <==> increasing < 0.0 || decreasing < 0.0
      ensures r.Err? ==> r.error == IllegalArgument
      ensures r.Ok? ==> fresh(r.value) && r.value.prevVal == 0.0 && r.value.prevTime == now
      ensures r.Ok? ==> forall t :: r.value.increasingRateLimit(t) == increasing && r.value.decreasingRateLimit(t) == decreasing
    {
      var limiter := new DynamicSlewRateLimiter(_ => increasing, _ => decreasing, now);
      if increasing < 0.0 || decreasing < 0.0 {
        return Err(IllegalArgument);
      }
      return Ok(limiter);
    }

    /** Reads both rates at `now`; fails (changing nothing) if either is
        negative, otherwise takes one Step over the time since the last call
        and records `now`. */
    method Calculate(input: real, now: real) returns (r: Result<real>)
      modifies this
      ensures increasingRateLimit(now) < 0.0 || decreasingRateLimit(now) < 0.0 ==>
                r == Err(IllegalArgument) && prevVal == old(prevVal) && prevTime == old(prevTime)
      ensures increasingRateLimit(now) >= 0.0 && decreasingRateLimit(now) >= 0.0 ==>
                prevVal == Step(old(prevVal), now - old(prevTime), increasingRateLimit(now), decreasingRateLimit(now), input)
                && prevTime == now && r == Ok(prevVal)
    {
      var elapsedTime := now - prevTime;
      var increasing := increasingRateLimit(now);
      var decreasing := decreasingRateLimit(now);
      if increasing < 0.0 || decreasing < 0.0 {
        return Err(IllegalArgument);
      }
      prevVal := Step(prevVal, elapsedTime, increasing, decreasing, input);
      prevTime := now;
      return Ok(prevVal);
    }

    /** The last value produced; changes nothing. */
    method LastValue() returns (v: real)
      ensures v == prevVal
    {
      return prevVal;
    }

    /** Jumps to `value` whatever the rates, and restarts the clock. */
    method Reset(value: real, now: real)
      modifies this
      ensures prevVal == value && prevTime == now
    {
      prevVal := value;
      prevTime := now;
    }
  }

  /** Two calls in a row at the same instant: the second returns what the
      first did, whatever its input. */
  method RepeatedCallAtSameTime(limiter: DynamicSlewRateLimiter, a: real, b: real, now: real)
      returns (first: Result<real>, second: Result<real>)
    requires limiter.increasingRateLimit(now) >= 0.0 && limiter.decreasingRateLimit(now) >= 0.0
    modifies limiter
    ensures first.Ok? && second == first
  {
    first := limiter.Calculate(a, now);
    second := limiter.Calculate(b, now);
  }
}
