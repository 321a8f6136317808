/** How the LCR sweep picks the oscilloscope's decimation for a frequency, how many
    samples N cover the minimum number of periods, the sample period T, and the table
    of sample times `dT` handed to `trapz`. */
module Sampling {
  import opened Numerics
  import opened Limits

  /** Decimation factors, indexed by bucket (`g_dec`). */
  const DecimationTable: seq<int> := [1, 8, 64, 1024, 8192, 65536]
  /** Lowest frequency of each bucket, in Hz; below the last one no bucket is chosen. */
  const BandThresholds: seq<real> := [160000.0, 20000.0, 2500.0, 160.0, 20.0, 2.5]
  /** The number of signal periods to acquire (`min_periodes`). */
  const MinPeriods: int := 15
  /** Floats in the table `create_table` allocates for `dT`. */
  const TimeTableLength: int := 22

  /** The bucket the `if`/`else if` cascade assigns to `f`, or None below 2.5 Hz,
      where the cascade assigns nothing. Each threshold belongs to the higher-frequency
      bucket: bucket b holds exactly the frequencies from its threshold up to (not
      including) the previous bucket's. */
  function DecimationBucket(freq: real): (b: Option<nat>)
    ensures b.Some? <==> freq >= 2.5
    ensures b.Some? ==> b.value < 6 && freq >= BandThresholds[b.value]
    ensures b.Some? && b.value > 0 ==> freq < BandThresholds[b.value - 1]
  {
    if freq >= 160000.0 then Some(0)
    else if freq >= 20000.0 then Some(1)
    else if freq >= 2500.0 then Some(2)
    else if freq >= 160.0 then Some(3)
    else if freq >= 20.0 then Some(4)
    else if freq >= 2.5 then Some(5)
    else None
  }

  /** How many of `thresholds` lie strictly above `freq`. */
  function CountAbove(thresholds: seq<real>, freq: real): (c: nat)
    ensures c <= |thresholds|
  {
    if thresholds == [] then 0
    else (if thresholds[0] > freq then 1 else 0) + CountAbove(thresholds[1..], freq)
  }

  /** Bucket selection is a count: the bucket index is the number of thresholds above the frequency. */
  lemma BucketCountsThresholdsAbove(freq: real)
    requires freq >= 2.5
    ensures DecimationBucket(freq) == Some(CountAbove(BandThresholds, freq))
  {
    var t0 := BandThresholds;
    var t1 := [20000.0, 2500.0, 160.0, 20.0, 2.5];
    var t2 := [2500.0, 160.0, 20.0, 2.5];
    var t3 := [160.0, 20.0, 2.5];
    var t4 := [20.0, 2.5];
    var t5 := [2.5];
    assert t0[1..] == t1 && t1[1..] == t2 && t2[1..] == t3;
    assert t3[1..] == t4 && t4[1..] == t5 && t5[1..] == [];
    assert CountAbove(t5, freq) == 0;
    assert CountAbove(t4, freq) == (if freq < 20.0 then 1 else 0);
    assert CountAbove(t3, freq) == (if freq < 20.0 then 2 else if freq < 160.0 then 1 else 0);
    assert CountAbove(t2, freq) == (if freq < 20.0 then 3 else if freq < 160.0 then 2
                                     else if freq < 2500.0 then 1 else 0);
    assert CountAbove(t1, freq) == (if freq < 20.0 then 4 else if freq < 160.0 then 3
                                     else if freq < 2500.0 then 2 else if freq < 20000.0 then 1 else 0);
  }

  /** The decimation factor for a frequency that has a bucket. */
  function DecimationFactor(freq: real): (d: int)
    requires freq >= 2.5
    ensures d in DecimationTable
  {
    DecimationTable[DecimationBucket(freq).value]
  }

  /** The factor never decreases as the frequency decreases. */
  lemma DecimationFactorAntitone(lo: real, hi: real)
    requires 2.5 <= lo <= hi
    ensures DecimationFactor(hi) <= DecimationFactor(lo)
  {
  }

  /** Per-frequency acquisition settings: the bucket, the sample count N and the period T. */
  datatype AcquisitionPlan = AcquisitionPlan(bucket: nat, samples: int, period: real)

  /** N = round(15 * 125e6 / (freq * g_dec[f])) and T = g_dec[f] / 125e6; None where no bucket is chosen. */
  function PlanAcquisition(freq: real): (p: Option<AcquisitionPlan>)
    ensures p.Some? <==> freq >= 2.5
    ensures p.Some? ==> p.value.bucket == DecimationBucket(freq).value
    ensures p.Some? ==> p.value.period * SampleRate == DecimationFactor(freq) as real
    ensures p.Some? ==> var exact := MinPeriods as real / (freq * p.value.period);
                        exact - 0.5 <= p.value.samples as real <= exact + 0.5
  {
    match DecimationBucket(freq)
    case None => None
    case Some(b) =>
      var dec := DecimationTable[b] as real;
      var period := dec / SampleRate;
      assert MinPeriods as real / (freq * period) == (MinPeriods as real * SampleRate) / (freq * dec) by {
        QuotientRescale(MinPeriods as real, freq * dec, SampleRate);
      }
      Some(AcquisitionPlan(b, Round((MinPeriods as real * SampleRate) / (freq * dec)), period))
  }

  /** c / (d / k) == c * k / d for positive d and k. */
  lemma QuotientRescale(c: real, d: real, k: real)
    requires d > 0.0 && k > 0.0
    ensures c / (d / k) == (c * k) / d
  {
    var q := d / k;
    assert q * k == d;
    assert (c / q) * q == c;
    assert ((c * k) / d) * d == c * k;
  }

  /** For a fixed numerator, a larger divisor gives a smaller quotient. */
  lemma QuotientAntitone(c: real, d1: real, d2: real)
    requires c >= 0.0 && 0.0 < d1 <= d2
    ensures c / d2 <= c / d1
  {
    var q1, q2 := c / d1, c / d2;
    assert q1 * d1 == c && q2 * d2 == c;
    if q2 > q1 {
      assert q2 * d2 >= q2 * d1 > q1 * d1;
    }
  }

  /** In every bucket, freq * g_dec[f] lies between 160000 and 62.5e6 for the frequencies
      the program accepts. */
  lemma ScaledFrequencyRange(freq: real)
    requires 2.5 <= freq <= MaxFrequency
    ensures 160000.0 <= freq * DecimationFactor(freq) as real <= MaxFrequency
  {
  }

  /** For every frequency the program accepts, the plan asks for between 30 and 11719 samples:
      never more than the 16384 the oscilloscope buffer holds. */
  lemma PlanSampleBounds(freq: real)
    requires 2.5 <= freq <= MaxFrequency
    ensures PlanAcquisition(freq).Some?
    ensures 30 <= PlanAcquisition(freq).value.samples <= 11719
  {
    var dec := DecimationFactor(freq) as real;
    var c := MinPeriods as real * SampleRate;
    ScaledFrequencyRange(freq);
    QuotientAntitone(c, 160000.0, freq * dec);
    QuotientAntitone(c, freq * dec, MaxFrequency);
    RoundWithin(c / (freq * dec), 30, 11719);
  }

  /** The `dT` fill: entry i becomes i * T for i < N - 1, the rest of the table is untouched.
      The table must hold N - 1 entries. */
  method FillTimeIncrements(dT: array<real>, n: int, period: real)
    requires n - 1 <= dT.Length
    modifies dT
    ensures forall i :: 0 <= i < n - 1 ==> dT[i] == i as real * period
    ensures forall i :: 0 <= i < dT.Length && i >= n - 1 ==> dT[i] == old(dT[i])
  {
    var i := 0;
    while i < n - 1
      invariant 0 <= i <= if n - 1 < 0 then 0 else n - 1
      invariant forall k :: 0 <= k < i ==> dT[k] == k as real * period
      invariant forall k :: i <= k < dT.Length ==> dT[k] == old(dT[k])
    {
      dT[i] := i as real * period;
      i := i + 1;
    }
  }

  /** The source's `dT` table holds 22 floats, yet at every frequency the program accepts
      the fill writes at least 29 entries: it always runs past the table. */
  lemma TimeFillOverrunsTable(freq: real)
    requires 2.5 <= freq <= MaxFrequency
    ensures PlanAcquisition(freq).Some?
    ensures PlanAcquisition(freq).value.samples - 1 > TimeTableLength
  {
    PlanSampleBounds(freq);
  }

  /** Sized from the plan, the table fits the fill at every accepted frequency within a
      16384-entry buffer. */
  lemma PlannedFillFitsBuffer(freq: real)
    requires 2.5 <= freq <= MaxFrequency
    ensures PlanAcquisition(freq).Some?
    ensures 0 <= PlanAcquisition(freq).value.samples - 1 <= 16384
  {
    PlanSampleBounds(freq);
  }
}
