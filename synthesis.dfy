/** The integer side of `synthesize_signal`: how the requested amplitude and frequency
    become DAC counts, transition widths and the AWG control words, and which values
    end up in the 16384-sample AWG buffer. The cosine, arc-cosine, sine and exponential
    of each sample are not computed here: they arrive as the `unit` value of the sample,
    the waveform at amplitude 1 (see `RawSample`). */
module Synthesis {
  import opened Numerics
  import opened Limits

  /** AWG buffer length in samples (`n`). */
  const BufferLength: nat := 16384
  /** DAC counts per volt peak-to-peak, and the largest count the DAC takes. */
  const CountsPerVolt: real := 4000.0
  const MaxCount: int := 8191
  /** 2^14: the DAC word range that negative samples are shifted into. */
  const HalfScale: int := 16384
  /** The fixed DC offset and gain packed into the AWG scale/offset register. */
  const DcOffset: int := -155
  const GainWord: int := 0x1fff
  /** Transition width used when the frequency-scaled one is too narrow, and the width at 1 MHz. */
  const Trans0: int := 30
  const Trans1: real := 300.0
  /** Buffer positions where the square wave's two soft edges start. */
  const FirstEdge: real := 16384.0 * 0.249
  const SecondEdge: real := 16384.0 * 0.75

  datatype SignalType = Sine | Square | Triangle | Sweep

  /** The AWG register words for one channel. */
  datatype AwgParams = AwgParams(offsgain: int, wrap: int, step: int)

  /** An offset in the upper half and a gain in the lower 16 bits of one word. */
  function PackScaleOffset(offset: int, gain: int): (w: int)
    requires 0 <= gain < 0x1_0000
    ensures w / 0x1_0000 == offset && w % 0x1_0000 == gain
  {
    offset * 0x1_0000 + gain
  }

  /** The phase-accumulator step per sample before rounding, in 1/65536 of a buffer sample. */
  function StepExact(freq: real): real
  {
    65536.0 * freq / SampleRate * BufferLength as real
  }

  /** The rounded step converts to `uint32_t` without overflow. */
  predicate StepConvertible(freq: real)
  {
    -0.5 < StepExact(freq) < 4294967295.5
  }

  /** The offset/gain, wrap and step words `synthesize_signal` writes to its `awg` out-struct. */
  function AwgParameters(freq: real): (p: AwgParams)
    requires StepConvertible(freq)
    ensures p.offsgain / 0x1_0000 == DcOffset && p.offsgain % 0x1_0000 == GainWord
    ensures p.wrap == 0x1_0000 * (BufferLength - 1) < 0x1_0000_0000
    ensures 0 <= p.step < 0x1_0000_0000
    ensures p.step as real - 0.5 <= StepExact(freq) <= p.step as real + 0.5
  {
    AwgParams(PackScaleOffset(DcOffset, GainWord), Round(65536.0 * (BufferLength - 1) as real), Round(StepExact(freq)))
  }

  /** Up to the largest frequency the program accepts, the accumulator advances at most
      half the buffer per sample. */
  lemma StepAtMostHalfBuffer(freq: real)
    requires MinFrequency <= freq <= MaxFrequency
    ensures StepConvertible(freq)
    ensures AwgParameters(freq).step <= 0x1_0000 * BufferLength / 2
  {
    assert StepExact(freq) == freq * 8.589934592;
    RoundWithin(StepExact(freq), 0, 0x1_0000 * BufferLength / 2);
  }

  /** `ampl * 4000.0` converts to `uint32_t` without leaving its range. */
  predicate AmplitudeConvertible(ampl: real)
  {
    0.0 <= ampl * CountsPerVolt < 4294967296.0
  }

  /** DAC counts for a peak-to-peak amplitude in volts, silently saturating at 8191. */
  function AmplitudeCounts(ampl: real): (amp: int)
    requires AmplitudeConvertible(ampl)
    ensures 0 <= amp <= MaxCount
    ensures amp <= Trunc(ampl * CountsPerVolt)
    ensures amp == Trunc(ampl * CountsPerVolt) || amp == MaxCount
  {
    var counts := Trunc(ampl * CountsPerVolt);
    if counts > MaxCount then MaxCount else counts
  }

  /** The conversion is exact (no saturation) precisely below 8192 counts. */
  lemma AmplitudeSaturatesIff(ampl: real)
    requires AmplitudeConvertible(ampl)
    ensures AmplitudeCounts(ampl) == Trunc(ampl * CountsPerVolt) <==> ampl * CountsPerVolt < 8192.0
  {
  }

  /** Every amplitude the program accepts (at most 2 Vpp) converts without saturating. */
  lemma ValidAmplitudeNotSaturated(ampl: real)
    requires 0.0 <= ampl <= MaxAmplitude
    ensures AmplitudeConvertible(ampl)
    ensures AmplitudeCounts(ampl) == Trunc(ampl * CountsPerVolt) <= 8000
  {
  }

  /** A larger amplitude never gives fewer counts. */
  lemma AmplitudeMonotone(a: real, b: real)
    requires AmplitudeConvertible(a) && AmplitudeConvertible(b) && a <= b
    ensures AmplitudeCounts(a) <= AmplitudeCounts(b)
  {
    TruncMonotone(a * CountsPerVolt, b * CountsPerVolt);
  }

  /** `freq / 1e6 * 300` converts to `int` without leaving its range. */
  predicate TransitionConvertible(freq: real)
  {
    -2147483649.0 < freq / 1000000.0 * Trans1 < 2147483648.0
  }

  /** Width in samples of each soft edge of the square wave: 300 samples per MHz, but
      30 when that comes to 10 or fewer. */
  function TransitionWidth(freq: real): (trans: int)
    requires TransitionConvertible(freq)
    ensures trans > 10
    ensures trans == Trunc(freq / 1000000.0 * Trans1) || trans == Trans0
  {
    var t := Trunc(freq / 1000000.0 * Trans1);
    if t <= 10 then Trans0 else t
  }

  /** The frequency-scaled width is kept exactly when it reaches 11 samples. */
  lemma TransitionFloorIff(freq: real)
    requires TransitionConvertible(freq)
    ensures TransitionWidth(freq) == Trunc(freq / 1000000.0 * Trans1) <==> freq / 1000000.0 * Trans1 >= 11.0
  {
  }

  /** For every frequency the program accepts, the width fits between 11 and 18750 samples. */
  lemma TransitionWidthBounds(freq: real)
    requires MinFrequency <= freq <= MaxFrequency
    ensures TransitionConvertible(freq)
    ensures 11 <= TransitionWidth(freq) <= 18750
  {
  }

  /** The hard square level: `amp` when the rounded cosine sample is positive, `-amp` otherwise. */
  function SquareLevel(amp: int, u: real): (s: int)
    requires 0 <= amp
    ensures s == amp || s == -amp
  {
    if Round(amp as real * u) > 0 then amp else -amp
  }

  /** The level is decided by the ROUNDED cosine: positive only from half a count up. */
  lemma SquareLevelIff(amp: int, u: real)
    requires 0 < amp
    ensures SquareLevel(amp, u) == amp <==> amp as real * u >= 0.5
  {
    var x := amp as real * u;
    if x >= 0.5 {
      assert Round(x) >= 1;
    }
  }

  /** Sample positions strictly after `edge` and up to `trans` samples later. */
  predicate InWindow(i: nat, edge: real, trans: int)
    ensures InWindow(i, edge, trans) ==> trans > 0 && edge < i as real
  {
    edge < i as real <= edge + trans as real
  }

  /** Up to 8208 samples wide the two soft edges never overlap, so no sample is written by
      both ramps; that covers every width from frequencies up to 27.36 MHz. */
  lemma EdgeWindowsDisjoint(i: nat, trans: int)
    requires trans <= 8208
    ensures !(InWindow(i, FirstEdge, trans) && InWindow(i, SecondEdge, trans))
  {
    assert SecondEdge - FirstEdge == 8208.384;
  }

  /** From 28 MHz up the windows do overlap: the sample just after the second edge also lies
      in the first window, and there the rising ramp wins. */
  lemma EdgeWindowsOverlapAtHighFrequency(freq: real)
    requires 28000000.0 <= freq <= MaxFrequency
    ensures TransitionWidth(freq) > 8208
    ensures InWindow(12289, FirstEdge, TransitionWidth(freq)) && InWindow(12289, SecondEdge, TransitionWidth(freq))
  {
    TransitionWidthBounds(freq);
    assert freq / 1000000.0 * Trans1 >= 8400.0;
  }

  /** A value on the straight line from (x1, y1) to (x2, y2), inside the interval, lies between y1 and y2. */
  lemma InterpolationBetween(x1: real, x2: real, y1: real, y2: real, xx: real, mm: real, qq: real)
    requires x1 < xx <= x2
    requires mm == (y2 - y1) / (x2 - x1) && qq == y1 - mm * x1
    ensures y1 <= y2 ==> y1 <= mm * xx + qq <= y2
    ensures y2 <= y1 ==> y2 <= mm * xx + qq <= y1
  {
    var d := x2 - x1;
    var lambda := (xx - x1) / d;
    assert lambda * d == xx - x1;
    assert 0.0 < lambda <= 1.0;
    assert mm * d == y2 - y1;
    assert mm * xx + qq == y1 + mm * (xx - x1);
    assert mm * (xx - x1) == mm * (lambda * d) == (mm * d) * lambda;
    assert mm * (xx - x1) == (y2 - y1) * lambda;
    if y1 <= y2 {
      assert 0.0 <= (y2 - y1) * lambda <= y2 - y1;
    } else {
      assert y2 - y1 <= (y2 - y1) * lambda <= 0.0;
    }
  }

  /** A soft-edge sample: the rounded straight line from level y1 at `x1` to level y2
      `trans` samples later, evaluated at `xx`; it never leaves the range of the two levels. */
  function Ramp(x1: real, trans: int, y1: int, y2: int, xx: real): (r: int)
    requires trans > 0
    requires x1 < xx <= x1 + trans as real
    ensures y1 <= y2 ==> y1 <= r <= y2
    ensures y2 <= y1 ==> y2 <= r <= y1
  {
    var x2 := x1 + trans as real;
    var mm := (y2 as real - y1 as real) / (x2 - x1);
    var qq := y1 as real - mm * x1;
    InterpolationBetween(x1, x2, y1 as real, y2 as real, xx, mm, qq);
    var v := mm * xx + qq;
    if y1 <= y2 then RoundWithin(v, y1, y2); Round(v)
    else RoundWithin(v, y2, y1); Round(v)
  }

  /** A square-wave sample: the hard level, replaced by the falling ramp inside the first
      window and by the rising ramp inside the second (which wins where they overlap). */
  function SquareSample(amp: int, trans: int, i: nat, u: real): (s: int)
    requires 0 <= amp && trans > 0
    ensures -amp <= s <= amp
    ensures !InWindow(i, FirstEdge, trans) && !InWindow(i, SecondEdge, trans) ==> s == SquareLevel(amp, u)
  {
    var level := SquareLevel(amp, u);
    var afterFirst :=
      if InWindow(i, FirstEdge, trans) then Ramp(FirstEdge, trans, amp, -amp, i as real) else level;
    if InWindow(i, SecondEdge, trans) then Ramp(SecondEdge, trans, -amp, amp, i as real) else afterFirst
  }

  /** Scaling a unit value by a non-negative amplitude stays within that amplitude. */
  lemma ScaledWithin(amp: int, u: real)
    requires 0 <= amp && -1.0 <= u <= 1.0
    ensures -amp <= Round(amp as real * u) <= amp
  {
    var a := amp as real;
    ProductNonNegative(a, 1.0 - u);
    ProductNonNegative(a, u + 1.0);
    RoundWithin(a * u, -amp, amp);
  }

  lemma ProductNonNegative(x: real, y: real)
    requires x >= 0.0 && y >= 0.0
    ensures x * y >= 0.0
  {
  }

  /** The sample before rebiasing. `u` is the waveform at amplitude 1 at this sample:
      cos(2*pi*i/n) for Sine and Square, 1 - 2*acos(cos(2*pi*i/n))/pi for Triangle, and
      the sine of the exponential chirp's phase for Sweep. */
  function RawSample(signal: SignalType, amp: int, trans: int, i: nat, u: real): (r: int)
    requires 0 <= amp && trans > 0 && -1.0 <= u <= 1.0
    ensures -amp <= r <= amp
  {
    ScaledWithin(amp, u);
    match signal
    case Sine => Round(amp as real * u)
    case Square => SquareSample(amp, trans, i, u)
    case Triangle => Round(amp as real * u)
    case Sweep => Round(amp as real * u)
  }

  /** The shift of negative samples into the DAC's unsigned 14-bit word range: within
      that range the stored word is the sample modulo 2^14, and non-negative samples are kept. */
  function Rebias(raw: int): (stored: int)
    ensures raw >= 0 ==> stored == raw
    ensures -HalfScale <= raw < HalfScale ==> 0 <= stored < HalfScale && stored == raw % HalfScale
  {
    if raw < 0 then raw + HalfScale else raw
  }

  /** Reading a 14-bit word as two's complement. */
  function Signed14(w: int): int
  {
    if w >= HalfScale / 2 then w - HalfScale else w
  }

  /** Rebiasing loses nothing: a DAC reading the word as 14-bit two's complement recovers the sample. */
  lemma RebiasRoundTrip(raw: int)
    requires -HalfScale / 2 <= raw < HalfScale / 2
    ensures Signed14(Rebias(raw)) == raw
  {
  }

  /** The word `synthesize_signal` stores for sample `i`. */
  function StoredSample(signal: SignalType, amp: int, trans: int, i: nat, u: real): (w: int)
    requires 0 <= amp <= MaxCount && trans > 0 && -1.0 <= u <= 1.0
    ensures 0 <= w < HalfScale
    ensures Signed14(w) == RawSample(signal, amp, trans, i, u)
  {
    Rebias(RawSample(signal, amp, trans, i, u))
  }

  /** Past the saturation point the sine's peak is the DAC's maximum count. */
  lemma SaturatedPeak(ampl: real, trans: int, i: nat)
    requires AmplitudeConvertible(ampl) && ampl * CountsPerVolt >= 8192.0 && trans > 0
    ensures AmplitudeCounts(ampl) == MaxCount
    ensures RawSample(Sine, AmplitudeCounts(ampl), trans, i, 1.0) == MaxCount
  {
  }

  /** `synthesize_signal`: fill the AWG buffer sample by sample and return the AWG words. */
  method SynthesizeSignal(ampl: real, freq: real, signal: SignalType, unit: seq<real>, data: array<int>)
    returns (awg: AwgParams)
    requires data.Length == BufferLength && |unit| == BufferLength
    requires forall i :: 0 <= i < |unit| ==> -1.0 <= unit[i] <= 1.0
    requires AmplitudeConvertible(ampl) && TransitionConvertible(freq) && StepConvertible(freq)
    modifies data
    ensures awg == AwgParameters(freq)
    ensures forall i :: 0 <= i < BufferLength ==>
      data[i] == StoredSample(signal, AmplitudeCounts(ampl), TransitionWidth(freq), i, unit[i])
    ensures forall i :: 0 <= i < BufferLength ==> 0 <= data[i] < HalfScale
  {
    awg := AwgParams(PackScaleOffset(DcOffset, GainWord),
                     Round(65536.0 * (BufferLength - 1) as real),
                     Round(StepExact(freq)));

    var trans := Trunc(freq / 1000000.0 * Trans1);
    var amp := Trunc(ampl * CountsPerVolt);
    if amp > MaxCount {
      amp := MaxCount;
    }
    if trans <= 10 {
      trans := Trans0;
    }

    assert amp == AmplitudeCounts(ampl) && trans == TransitionWidth(freq);
    var i := 0;
    while i < BufferLength
      invariant 0 <= i <= BufferLength
      invariant forall k :: 0 <= k < i ==> data[k] == StoredSample(signal, amp, trans, k, unit[k])
    {
      WriteSample(data, i, signal, amp, trans, unit[i]);
      i := i + 1;
    }
  }

  /** One pass of the fill loop: compute sample `i` of the chosen shape into `data[i]`,
      then shift it into the unsigned range if it is negative. */
  method WriteSample(data: array<int>, i: nat, signal: SignalType, amp: int, trans: int, u: real)
    requires i < data.Length
    requires 0 <= amp <= MaxCount && trans > 0 && -1.0 <= u <= 1.0
    modifies data
    ensures data[i] == StoredSample(signal, amp, trans, i, u)
    ensures forall k :: 0 <= k < data.Length && k != i ==> data[k] == old(data[k])
  {
    ScaledWithin(amp, u);
    match signal {
      case Sine =>
        data[i] := Round(amp as real * u);
      case Square =>
        WriteSquareSample(data, i, amp, trans, u);
      case Triangle =>
        data[i] := Round(amp as real * u);
      case Sweep =>
        data[i] := Round(amp as real * u);
    }
    if data[i] < 0 {
      data[i] := data[i] + HalfScale;
    }
  }

  /** The square branch of the fill loop: the hard level from the rounded cosine sample,
      overwritten by the falling ramp and then by the rising ramp inside their windows. */
  method WriteSquareSample(data: array<int>, i: nat, amp: int, trans: int, u: real)
    requires i < data.Length
    requires 0 <= amp && trans > 0
    modifies data
    ensures data[i] == SquareSample(amp, trans, i, u)
    ensures forall k :: 0 <= k < data.Length && k != i ==> data[k] == old(data[k])
  {
    data[i] := Round(amp as real * u);
    if data[i] > 0 {
      data[i] := amp;
    } else {
      data[i] := -amp;
    }
    var xx := i as real;
    if InWindow(i, FirstEdge, trans) {
      data[i] := Ramp(FirstEdge, trans, amp, -amp, xx);
    }
    if InWindow(i, SecondEdge, trans) {
      data[i] := Ramp(SecondEdge, trans, -amp, amp, xx);
    }
  }
}
