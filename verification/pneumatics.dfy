/** The pneumatics helpers: a compressor that switches itself off after
    drawing too much current for too long (CurrentLimitedCompressor), and a
    double-acting piston driven by two solenoids with per-solenoid inversion
    (Piston). The current reading is a parameter of each check; the
    solenoids are the boolean outputs they were last set to. */
module Pneumatics {

  /** One call of check: the time step it is given and the current the
      compressor reports at that moment. */
  datatype Sample = Sample(timeStep: real, current: real)

  /** The over-current time after one check: the step is added while the
      current is above the limit, and the time drops to 0 otherwise. */
  function NextTime(currentTime: real, sample: Sample, maxAmps: real): (r: real)
    ensures r != 0.0 ==> sample.current > maxAmps
    ensures currentTime >= 0.0 && sample.timeStep >= 0.0 ==> 0.0 <= r <= currentTime + sample.timeStep
  {
    if sample.current > maxAmps then currentTime + sample.timeStep else 0.0
  }

  /** Whether a check disables the compressor: the current is above the
      limit and the accumulated time, step included, exceeds timeToTrip. */
  predicate Trips(currentTime: real, sample: Sample, maxAmps: real, timeToTrip: real)
  {
    sample.current > maxAmps && NextTime(currentTime, sample, maxAmps) > timeToTrip
  }

  /** The over-current time after a series of checks, starting from t0. */
  function Accumulated(t0: real, samples: seq<Sample>, maxAmps: real): (r: real)
    ensures t0 >= 0.0 && NonNegativeSteps(samples) ==> 0.0 <= r <= t0 + SumSteps(samples)
  {
    if |samples| == 0 then t0
    else NextTime(Accumulated(t0, samples[..|samples| - 1], maxAmps), samples[|samples| - 1], maxAmps)
  }

  function SumSteps(samples: seq<Sample>): real
  {
    if |samples| == 0 then 0.0 else SumSteps(samples[..|samples| - 1]) + samples[|samples| - 1].timeStep
  }

  predicate NonNegativeSteps(samples: seq<Sample>)
  {
    forall i :: 0 <= i < |samples| ==> samples[i].timeStep >= 0.0
  }

  predicate AllOver(samples: seq<Sample>, maxAmps: real)
  {
    forall i :: 0 <= i < |samples| ==> samples[i].current > maxAmps
  }

  /** While every reading is above the limit the time steps add up. */
  lemma {:induction false} AccumulatedOverCurrent(t0: real, samples: seq<Sample>, maxAmps: real)
    requires AllOver(samples, maxAmps)
    ensures Accumulated(t0, samples, maxAmps) == t0 + SumSteps(samples)
  {
    if |samples| > 0 {
      AccumulatedOverCurrent(t0, samples[..|samples| - 1], maxAmps);
    }
  }

  /** One reading at or below the limit forgets everything before it: the
      accumulated time is the sum of the steps of the over-current run since
      that reading. */
  lemma {:induction false} AccumulatedSinceReset(t0: real, before: seq<Sample>, reset: Sample, run: seq<Sample>, maxAmps: real)
    requires reset.current <= maxAmps && AllOver(run, maxAmps)
    ensures Accumulated(t0, before + [reset] + run, maxAmps) == SumSteps(run)
  {
    var s := before + [reset] + run;
    if |run| == 0 {
      assert s[..|s| - 1] == before;
    } else {
      var shorter := run[..|run| - 1];
      assert s[..|s| - 1] == before + [reset] + shorter;
      AccumulatedSinceReset(t0, before, reset, shorter, maxAmps);
    }
  }

  /** A trip is not reset: as long as the current stays above the limit and
      the steps are not negative, every further check disables again. */
  lemma TripIsSticky(t: real, tripping: Sample, next: Sample, maxAmps: real, timeToTrip: real)
    requires Trips(t, tripping, maxAmps, timeToTrip)
    requires next.current > maxAmps && next.timeStep >= 0.0
    ensures Trips(NextTime(t, tripping, maxAmps), next, maxAmps, timeToTrip)
  {
  }

  /** From a fresh compressor with a constant positive step and a current
      always above the limit, the accumulator after n checks is n steps, so
      the n-th check trips exactly when n * step exceeds timeToTrip. */
  lemma {:induction false} SteadyOverCurrent(samples: seq<Sample>, step: real, maxAmps: real, timeToTrip: real)
    requires AllOver(samples, maxAmps)
    requires forall i :: 0 <= i < |samples| ==> samples[i].timeStep == step
    ensures Accumulated(0.0, samples, maxAmps) == |samples| as real * step
  {
    AccumulatedOverCurrent(0.0, samples, maxAmps);
    SumOfEqualSteps(samples, step);
  }

  lemma {:induction false} SumOfEqualSteps(samples: seq<Sample>, step: real)
    requires forall i :: 0 <= i < |samples| ==> samples[i].timeStep == step
    ensures SumSteps(samples) == |samples| as real * step
  {
    if |samples| > 0 {
      SumOfEqualSteps(samples[..|samples| - 1], step);
    }
  }

  /** The class-wide instance count, numberInstances. */
  class InstanceCounter {
    var count: int

    constructor ()
      ensures count == 0
    {
      count := 0;
    }
  }

  class CurrentLimitedCompressor {
    var currentTime: real
    const maxAmps: real
    const timeToTrip: real
    /** How many times check has called disable() on the compressor. */
    var disableCalls: nat

    /** A compressor with its limits; the accumulator starts at 0 and the
        shared instance count goes up by one. */
    constructor (maxAmps: real, timeToTrip: real, instances: InstanceCounter)
      modifies instances
      ensures this.maxAmps == maxAmps && this.timeToTrip == timeToTrip
      ensures currentTime == 0.0 && disableCalls == 0
      ensures instances.count == old(instances.count) + 1
    {
      this.maxAmps := maxAmps;
      this.timeToTrip := timeToTrip;
      currentTime := 0.0;
      disableCalls := 0;
      instances.count := instances.count + 1;
    }

    /** check(timeStep) with the reported current: accumulate or reset the
        over-current time, and disable the compressor once it exceeds
        timeToTrip. */
    method Check(timeStep: real, current: real) returns (disabled: bool)
      modifies this
      ensures currentTime == NextTime(old(currentTime), Sample(timeStep, current), maxAmps)
      ensures disabled == Trips(old(currentTime), Sample(timeStep, current), maxAmps, timeToTrip)
      ensures disableCalls == old(disableCalls) + (if disabled then 1 else 0)
    {
      disabled := false;
      if current > maxAmps {
        currentTime := currentTime + timeStep;
        if currentTime > timeToTrip {
          disableCalls := disableCalls + 1;
          disabled := true;
        }
      } else {
        currentTime := 0.0;
      }
    }
  }

  /** Two solenoids, extend and retract, with their last outputs, and the
      inversion flag of each. */
  class Piston {
    var extend: bool
    var retract: bool
    var extendInverted: bool
    var retractInverted: bool

    /** isExtended reads the raw solenoid outputs, not the inversion flags. */
    predicate Extended()
      reads this
    {
      extend && !retract
    }

    /** Both solenoids start off and neither is inverted. */
    constructor ()
      ensures !extend && !retract && !extendInverted && !retractInverted
    {
      extend, retract := false, false;
      extendInverted, retractInverted := false, false;
    }

    method SetExtendInverted(inverted: bool)
      modifies this
      ensures extendInverted == inverted
      ensures extend == old(extend) && retract == old(retract) && retractInverted == old(retractInverted)
    {
      extendInverted := inverted;
    }

    method SetRetractInverted(inverted: bool)
      modifies this
      ensures retractInverted == inverted
      ensures extend == old(extend) && retract == old(retract) && extendInverted == old(extendInverted)
    {
      retractInverted := inverted;
    }

    /** Extend drives the extend solenoid on and the retract solenoid off,
        each through its inversion. It reads as extended exactly when
        neither solenoid is inverted. */
    method Extend()
      modifies this
      ensures extend == !extendInverted && retract == retractInverted
      ensures extendInverted == old(extendInverted) && retractInverted == old(retractInverted)
      ensures Extended() <==> !extendInverted && !retractInverted
    {
      extend := !extendInverted;
      retract := retractInverted;
    }

    /** Retract drives the extend solenoid off and the retract solenoid on. */
    method Retract()
      modifies this
      ensures extend == extendInverted && retract == !retractInverted
      ensures extendInverted == old(extendInverted) && retractInverted == old(retractInverted)
      ensures Extended() <==> extendInverted && retractInverted
    {
      extend := extendInverted;
      retract := !retractInverted;
    }

    /** Vent drives both solenoids off, each through its inversion. */
    method Vent()
      modifies this
      ensures extend == extendInverted && retract == retractInverted
      ensures extendInverted == old(extendInverted) && retractInverted == old(retractInverted)
      ensures Extended() <==> extendInverted && !retractInverted
    {
      extend := extendInverted;
      retract := retractInverted;
    }

    /** Disable turns both outputs off, ignoring inversion. */
    method Disable()
      modifies this
      ensures !extend && !retract
      ensures extendInverted == old(extendInverted) && retractInverted == old(retractInverted)
      ensures !Extended()
    {
      extend := false;
      retract := false;
    }

    method IsExtended() returns (b: bool)
      ensures b <==> extend && !retract
    {
      b := extend && !retract;
    }
  }
}
