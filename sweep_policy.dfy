/** How many measurement passes the LCR sweep runs at each frequency, and which
    frequencies it visits: the clamps on the end frequency and on `measurement_sweep`,
    the override to a single measurement when an end frequency is given, and the
    `one_calibration` correction that makes the pass loop run once. */
module SweepPolicy {
  import opened Limits

  const MaxMeasurementSweep: real := 10.0

  /** The settings after the program's clamps. */
  datatype SweepSettings = SweepSettings(endFrequency: real, measurementSweep: real)

  /** The end frequency is capped at the largest frequency; `measurement_sweep` is capped
      at 10, and set to 1 when the (capped) end frequency lies above the start. */
  function ConfigureSweep(start: real, end: real, measurementSweep: real): (s: SweepSettings)
    ensures s.endFrequency <= MaxFrequency
    ensures s.endFrequency == end || (end > MaxFrequency && s.endFrequency == MaxFrequency)
    ensures s.measurementSweep <= MaxMeasurementSweep
    ensures s.endFrequency > start ==> s.measurementSweep == 1.0
    ensures s.endFrequency <= start ==>
      s.measurementSweep == measurementSweep || (measurementSweep > MaxMeasurementSweep && s.measurementSweep == MaxMeasurementSweep)
  {
    var endFrequency := if end > MaxFrequency then MaxFrequency else end;
    var sweep := if measurementSweep > MaxMeasurementSweep then MaxMeasurementSweep else measurementSweep;
    SweepSettings(endFrequency, if endFrequency > start then 1.0 else sweep)
  }

  /** `one_calibration`: the loop bound `measurement_sweep - one_calibration` it leaves is
      `measurement_sweep` itself up to 1, and exactly 1 above. */
  function OneCalibration(measurementSweep: real): (oc: real)
    ensures oc >= 0.0
    ensures measurementSweep - oc == (if measurementSweep > 1.0 then 1.0 else measurementSweep)
  {
    if measurementSweep > 1.0 then measurementSweep - 1.0 else 0.0
  }

  /** The number of integers i >= 0 with i < bound: the iterations of `for (i = 0; i < bound; i++)`. */
  function IterationsBelow(bound: real): (c: nat)
    ensures bound <= 0.0 ==> c == 0
    ensures bound > 0.0 ==> (c - 1) as real < bound <= c as real
  {
    if bound <= 0.0 then 0 else -((-bound).Floor)
  }

  /** The pass loop at one frequency: `for (i = 0; i < measurement_sweep - one_calibration; i++)`. */
  method CountPasses(measurementSweep: real) returns (passes: nat)
    ensures passes == IterationsBelow(measurementSweep - OneCalibration(measurementSweep))
    ensures passes <= 1
  {
    var oneCalibration: real;
    if measurementSweep > 1.0 {
      oneCalibration := measurementSweep - 1.0;
    } else {
      oneCalibration := 0.0;
    }
    var i := 0;
    while (i as real) < measurementSweep - oneCalibration
      invariant 0 <= i <= 1
      invariant i == 1 ==> measurementSweep - oneCalibration > 0.0
      decreases 1 - i
    {
      i := i + 1;
    }
    passes := i;
  }

  /** The pass loop runs once for any positive `measurement_sweep`, and not at all otherwise. */
  lemma {:induction false} PassesPerFrequency(measurementSweep: real)
    ensures IterationsBelow(measurementSweep - OneCalibration(measurementSweep))
         == (if measurementSweep > 0.0 then 1 else 0)
  {
    var bound := measurementSweep - OneCalibration(measurementSweep);
    if bound > 0.0 {
      var c := IterationsBelow(bound);
      assert (c - 1) as real < bound <= 1.0 && bound <= c as real;
    }
  }

  /** With the settings the program ends up with, a sweep over a frequency range, or any
      `measurement_sweep` of at least 1, runs exactly one pass per frequency. */
  lemma ConfiguredSweepRunsOnePass(start: real, end: real, measurementSweep: real)
    requires measurementSweep >= 1.0 || (end > start && start < MaxFrequency)
    ensures var s := ConfigureSweep(start, end, measurementSweep);
            IterationsBelow(s.measurementSweep - OneCalibration(s.measurementSweep)) == 1
  {
    PassesPerFrequency(ConfigureSweep(start, end, measurementSweep).measurementSweep);
  }

  /** The frequencies `for (frequency = start; frequency < end; frequency += step)` visits. */
  function SweepFrequencies(start: real, end: real, step: real): (fs: seq<real>)
    requires step > 0.0
    ensures forall k :: 0 <= k < |fs| ==> fs[k] == start + k as real * step && fs[k] < end
    ensures start + |fs| as real * step >= end
  {
    var count := IterationsBelow((end - start) / step);
    StepsReachEnd(start, end, step);
    var fs := seq(count, k => start + k as real * step);
    forall k | 0 <= k < count
      ensures fs[k] < end
    {
      StepBelowEnd(start, end, step, k);
      assert fs[k] == start + k as real * step;
    }
    fs
  }

  lemma StepsReachEnd(start: real, end: real, step: real)
    requires step > 0.0
    ensures start + IterationsBelow((end - start) / step) as real * step >= end
  {
    var q := (end - start) / step;
    var count := IterationsBelow(q);
    assert q * step == end - start;
    if q > 0.0 {
      assert count as real >= q;
      assert (count as real - q) * step >= 0.0;
    }
  }

  lemma StepBelowEnd(start: real, end: real, step: real, k: nat)
    requires step > 0.0
    requires k < IterationsBelow((end - start) / step)
    ensures start + k as real * step < end
  {
    var q := (end - start) / step;
    assert q * step == end - start;
    assert k as real < q;
    assert (q - k as real) * step > 0.0;
  }

  /** The sweep visits its frequencies in strictly ascending order. */
  lemma SweepAscending(start: real, end: real, step: real, j: nat, k: nat)
    requires step > 0.0
    requires j < k < |SweepFrequencies(start, end, step)|
    ensures SweepFrequencies(start, end, step)[j] < SweepFrequencies(start, end, step)[k]
  {
    var fs := SweepFrequencies(start, end, step);
    assert fs[k] - fs[j] == (k - j) as real * step;
    assert (k - j) as real * step > 0.0;
  }

  /** The program's own settings (start 1000 Hz, end 10000 Hz, step 1000 Hz,
      `measurement_sweep` 5) give nine frequencies, 1000 to 9000 Hz, one pass each. */
  lemma ProgramSettingsSweep()
    ensures SweepFrequencies(1000.0, 10000.0, 1000.0)
         == [1000.0, 2000.0, 3000.0, 4000.0, 5000.0, 6000.0, 7000.0, 8000.0, 9000.0]
    ensures ConfigureSweep(1000.0, 10000.0, 5.0).measurementSweep == 1.0
    ensures IterationsBelow(1.0 - OneCalibration(1.0)) == 1
  {
    var fs := SweepFrequencies(1000.0, 10000.0, 1000.0);
    assert IterationsBelow(9.0) == 9;
    assert |fs| == 9;
  }
}
