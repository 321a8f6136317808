# LCR meter core, modelled in Dafny

This project models the computational core of the Red Pitaya LCR meter test program
(`Test/lcr/lcr.c`). It covers the following parts:

- **`get_gain`** (`gain.dfy`, module `Gain`): parsing of the input-range argument, `lv`/`LV` → 0 and
  `hv`/`HV` → 1 through a two-character `strncmp`. The `int *` out-parameter is a small
  class with one field.
- **The array helpers** (`array_stats.dfy`, module `ArrayStats`):
  - `max_array`, seeded with the sentinel -100000
  - `mean_array`, where dividing by a count of 0 gives NaN
  - `trapz`
  - `mean_array_column`

  Each is a loop proved against a specification function on the array's contents.
- **The integer side of `synthesize_signal`** (`synthesis.dfy`, module `Synthesis`):
  - the AWG offset/gain, wrap and step words
  - the amplitude in DAC counts, saturating at 8191
  - the soft-edge width and its floor of 30 samples
  - the square wave's ±amp levels and its two rounded linear ramps
  - the shift of negative samples up by 2^14

  The buffer fill is a method over an `array<int>` of 16384 samples.
- **The per-frequency acquisition plan** (`sampling.dfy`, module `Sampling`):
  - the decimation cascade over `g_dec`
  - the sample count N and the sample period T
  - the loop that fills the `dT` time table
- **The phase wrap** (`phase.dfy`, module `Phase`) applied to the impedance phase in
  degrees, modelled as written and in the form evidently meant.
- **The sweep policy** (`sweep_policy.dfy`, module `SweepPolicy`):
  - the clamps on the end frequency and on `measurement_sweep`
  - the override of `measurement_sweep` to 1 when an end frequency is given
  - the `one_calibration` correction that makes the pass loop run once
  - the frequencies the sweep loop visits
- **Program limits** (`limits.dfy`, module `Limits`): the frequency and amplitude limits and the
  125 MHz sample clock, shared by the modules above.
- **C numeric conventions** (`numerics.dfy`, module `Numerics`):
  - `round`
  - truncating conversion
  - IEEE division by zero

### Conventions

- C `float` and `double` values are Dafny `real`s. Rounding error is not modelled.
- Conversions and `round` are written out explicitly.
- The cosine, arc-cosine, sine and exponential that shape each AWG sample are not computed.
  They enter as the sample's value at amplitude 1, called `unit`, which lies in [-1, 1].

### Where the model follows the code over the description

- The square wave's level is decided by the rounded cosine sample (`data[i] > 0` after `round`),
  not by the sign of the cosine itself, so samples with `amp*cos` below one half get `-amp`.
- The phase wrap is modelled as written, with its asymmetric second branch. A corrected wrap
  sits beside it.
- Below 2.5 Hz the decimation cascade assigns no bucket (`f` stays uninitialised). This is
  modelled as `None`.

## Model

| member | source | states |
|---|---|---|
| Numerics.Round | Test/lcr/lcr.c:529 | C `round`: the result is within one half of its argument and keeps its sign |
| Numerics.Trunc | Test/lcr/lcr.c:692-693 | a floating-to-integer conversion truncates toward zero: floor for non-negative values, ceiling for negative ones |
| Numerics.Divide | Test/lcr/lcr.c:222 | IEEE division: a finite quotient for a non-zero divisor; for a zero divisor, NaN exactly when the dividend is 0 too |
| Numerics.RoundWithin | Test/lcr/lcr.c:740 | rounding a value between two integers never leaves them |
| Gain.StrNEqual | Test/lcr/lcr.c:158-162 | `strncmp(s, t, k) == 0`: a match needs equal first characters, and two empty strings match on any length |
| Gain.StrNEqualSymmetric | Test/lcr/lcr.c:158-162 | the zero result of `strncmp` does not depend on argument order |
| Gain.StrNEqualIsPrefix | Test/lcr/lcr.c:158 | `strncmp(s, lit, n) == 0`, with n the length of a NUL-free literal `lit`, holds exactly when `s` starts with `lit`; shorter strings never match |
| Gain.ParseGain | Test/lcr/lcr.c:156-169 | the stored gain is 0 or 1, and the argument is refused exactly when its first two characters are not one of lv, LV, hv, HV |
| Gain.ParseGainRoundTrip | Test/lcr/lcr.c:158-165 | either spelling of either gain, followed by anything, parses back to that gain |
| Gain.ParseGainReadsTwoCharacters | Test/lcr/lcr.c:158-165 | only the first two characters decide the result |
| Gain.MixedCaseRefused | Test/lcr/lcr.c:158-165 | Lv, lV, Hv and hV are all refused |
| Gain.GainName | Test/lcr/lcr.c:158-165 | each accepted spelling is two characters long |
| Gain.IntCell.constructor | Test/lcr/lcr.c:156 | the out-parameter cell holds the value it was created with |
| Gain.GetGain | Test/lcr/lcr.c:156-169 | returns 0 or -1; 0 exactly when the name is known, with the gain stored; on -1 the stored gain is unchanged |
| ArrayStats.Prefix | Test/lcr/lcr.c:193 | the elements a `for (i = 0; i < count; i++)` loop visits: none for a count below 1 |
| ArrayStats.SentinelMax | Test/lcr/lcr.c:189-201 | bounds every element from above, is one of them or the sentinel, and never lies below the sentinel |
| ArrayStats.MaxArray | Test/lcr/lcr.c:189-201 | `max_array` bounds the first `count` elements from above and returns one of them, or -100000 when there are none or all lie below it |
| ArrayStats.SumConstant | Test/lcr/lcr.c:217-220 | summing a constant gives the count times the constant |
| ArrayStats.SumAtMostCountTimesMax | Test/lcr/lcr.c:217-220 | a sum of elements bounded by m is at most the count times m |
| ArrayStats.MeanArray | Test/lcr/lcr.c:213-224 | `mean_array` is the sum of the first `count` elements divided by `count`, and is NaN exactly when `count` is 0 |
| ArrayStats.MeanOfConstant | Test/lcr/lcr.c:213-224 | the mean of a constant array is that constant |
| ArrayStats.MeanAtMostMax | Test/lcr/lcr.c:189-224 | the mean of a non-empty array never exceeds what `max_array` returns for it |
| ArrayStats.MeanAtMostBound | Test/lcr/lcr.c:213-224 | the mean of elements all at most m is at most m |
| ArrayStats.TrapzTerm | Test/lcr/lcr.c:208 | each `trapz` term is non-negative |
| ArrayStats.TrapzSum | Test/lcr/lcr.c:207-209 | the sum of the first k `trapz` terms is non-negative |
| ArrayStats.TrapzReadsInBounds | Test/lcr/lcr.c:207-208 | the in-bounds condition on `size` holds exactly when every iteration's reads of index i and i+1 stay inside both arrays |
| ArrayStats.ProgramTrapzCallReadsPastEnd | Test/lcr/lcr.c:615-618 | for every `SIGNAL_LENGTH`, the call `trapz(trace, dT, SIGNAL_LENGTH)` reads one past the end of the trace in its last iteration, reads past the 22-entry `dT` once `SIGNAL_LENGTH` is 22 or more, and so is never in bounds |
| ArrayStats.TrapzFrom | Test/lcr/lcr.c:203-211 | the `trapz` loop returns its accumulator's starting value plus the sum of the first `size` terms, and never less than that start |
| ArrayStats.Trapz | Test/lcr/lcr.c:203-211 | `trapz` with its accumulator started at 0 is the sum of the first `size` terms, and is non-negative |
| ArrayStats.TrapzOfZeroTrace | Test/lcr/lcr.c:207-209 | an all-zero trace integrates to 0 |
| ArrayStats.TrapzIgnoresSign | Test/lcr/lcr.c:208 | a trace and its negation integrate to the same value |
| ArrayStats.FlatStepHasNoArea | Test/lcr/lcr.c:208 | a term whose two samples are equal is 0 |
| ArrayStats.NegatedStepSameArea | Test/lcr/lcr.c:208 | negating both samples of a term leaves it unchanged |
| ArrayStats.UninitialisedTrapzOfZeroTrace | Test/lcr/lcr.c:204-209 | with the uninitialised accumulator an all-zero trace integrates to the accumulator's garbage value, which is not 0 when that value is not 0 |
| ArrayStats.TrapzOfConstantTrace | Test/lcr/lcr.c:208 | because each term uses the difference of neighbouring samples, every constant trace integrates to 0 |
| ArrayStats.TrapezoidRuleOfConstant | Test/lcr/lcr.c:203-211 | the trapezoidal rule, using the sum of neighbouring samples, integrates a constant c over t[0]..t[k] to c*(t[k]-t[0]) |
| ArrayStats.Column | Test/lcr/lcr.c:230 | the first k entries of a column, entry by entry |
| ArrayStats.MeanArrayColumnFrom | Test/lcr/lcr.c:226-233 | the `mean_array_column` loop returns the accumulator's start plus the column's first `length` entries, divided by `length` |
| ArrayStats.MeanArrayColumn | Test/lcr/lcr.c:226-233 | with the accumulator started at 0 the result is the column mean, NaN exactly when `length` is 0 |
| ArrayStats.UninitialisedColumnMeanOffset | Test/lcr/lcr.c:227-232 | with the uninitialised accumulator the column mean is off by the accumulator's start divided by the row count |
| Synthesis.PackScaleOffset | Test/lcr/lcr.c:688 | the offset/gain word carries the offset above bit 16 and the gain in the low 16 bits |
| Synthesis.AwgParameters | Test/lcr/lcr.c:688-690 | the offset/gain word holds -155 and 0x1fff; the wrap is 65536*(n-1); the step is within one half of 65536*freq/125e6*n and fits 32 bits |
| Synthesis.StepAtMostHalfBuffer | Test/lcr/lcr.c:689 | up to 62.5 MHz the step is at most half the buffer, 65536*8192 |
| Synthesis.AmplitudeCounts | Test/lcr/lcr.c:693-697 | the DAC amplitude lies in 0..8191 and is either the truncated ampl*4000 or the saturated 8191 |
| Synthesis.AmplitudeSaturatesIff | Test/lcr/lcr.c:693-697 | the amplitude is the exact truncation exactly when ampl*4000 is below 8192 |
| Synthesis.ValidAmplitudeNotSaturated | Test/lcr/lcr.c:693-697 | every amplitude up to 2 Vpp converts without saturating, to at most 8000 counts |
| Synthesis.AmplitudeMonotone | Test/lcr/lcr.c:693-697 | a larger amplitude never gives fewer counts |
| Synthesis.TransitionWidth | Test/lcr/lcr.c:692-701 | the edge width exceeds 10 samples and is either freq/1e6*300 truncated or the floor of 30 |
| Synthesis.TransitionFloorIff | Test/lcr/lcr.c:692-701 | the frequency-scaled width is kept exactly when freq/1e6*300 reaches 11 |
| Synthesis.TransitionWidthBounds | Test/lcr/lcr.c:692-701 | for frequencies up to 62.5 MHz the width lies in 11..18750 |
| Synthesis.SquareLevel | Test/lcr/lcr.c:714-718 | the hard square level is +amp or -amp |
| Synthesis.InWindow | Test/lcr/lcr.c:732-746 | the edge-window test `xx > x1 && xx <= x2`: a position lies in a window only when the window is non-empty and the position is after the edge |
| Synthesis.EdgeWindowsDisjoint | Test/lcr/lcr.c:729-746 | for widths up to 8208 samples no position lies in both soft-edge windows |
| Synthesis.EdgeWindowsOverlapAtHighFrequency | Test/lcr/lcr.c:692-746 | from 28 MHz up the width exceeds 8208 and position 12289 lies in both windows, where the rising ramp wins |
| Synthesis.SquareLevelIff | Test/lcr/lcr.c:714-718 | the level is +amp exactly when amp*cos reaches one half, because the test is on the rounded sample |
| Synthesis.InterpolationBetween | Test/lcr/lcr.c:732-755 | the line through (x1,y1) and (x2,y2), evaluated inside (x1,x2], lies between y1 and y2 |
| Synthesis.Ramp | Test/lcr/lcr.c:732-755 | a rounded soft-edge sample never leaves the range of its two levels |
| Synthesis.SquareSample | Test/lcr/lcr.c:713-756 | a square sample lies in -amp..amp, and outside both edge windows it is the hard level |
| Synthesis.ScaledWithin | Test/lcr/lcr.c:709 | rounding amp times a unit value stays within -amp..amp |
| Synthesis.RawSample | Test/lcr/lcr.c:708-774 | every shape's sample before rebiasing lies in -amp..amp |
| Synthesis.Rebias | Test/lcr/lcr.c:777-778 | non-negative samples are kept; within ±2^14 the stored word is the sample modulo 2^14 |
| Synthesis.RebiasRoundTrip | Test/lcr/lcr.c:777-778 | reading the stored word as 14-bit two's complement recovers every sample in -8192..8191 |
| Synthesis.StoredSample | Test/lcr/lcr.c:705-779 | every stored word lies in 0..16383 and decodes back to the raw sample |
| Synthesis.SaturatedPeak | Test/lcr/lcr.c:693-710 | past saturation the sine's peak sample is 8191 |
| Synthesis.SynthesizeSignal | Test/lcr/lcr.c:675-780 | returns the AWG words and fills all 16384 buffer entries with the stored samples of the chosen shape, each in 0..16383 |
| Synthesis.WriteSample | Test/lcr/lcr.c:707-778 | one fill-loop pass stores sample i and changes no other entry |
| Synthesis.WriteSquareSample | Test/lcr/lcr.c:713-756 | the square branch, writing `data[i]` in place, leaves the square sample in entry i and changes no other entry |
| Sampling.DecimationBucket | Test/lcr/lcr.c:498-522 | a bucket is chosen exactly from 2.5 Hz up; bucket b holds the frequencies from its threshold up to the previous bucket's |
| Sampling.CountAbove | Test/lcr/lcr.c:499-522 | counts at most as many thresholds as there are |
| Sampling.BucketCountsThresholdsAbove | Test/lcr/lcr.c:499-522 | the bucket index is the number of thresholds above the frequency |
| Sampling.DecimationFactor | Test/lcr/lcr.c:529 | the chosen factor is an entry of `g_dec` |
| Sampling.DecimationFactorAntitone | Test/lcr/lcr.c:499-522 | lower frequencies never get a smaller decimation |
| Sampling.PlanAcquisition | Test/lcr/lcr.c:529-533 | a plan exists exactly from 2.5 Hz up; T*125e6 is the decimation; N is within one half of 15/(freq*T) |
| Sampling.ScaledFrequencyRange | Test/lcr/lcr.c:499-529 | for accepted frequencies, freq*g_dec[f] lies between 160000 and 62.5e6 |
| Sampling.PlanSampleBounds | Test/lcr/lcr.c:529 | for accepted frequencies N lies in 30..11719 |
| Sampling.FillTimeIncrements | Test/lcr/lcr.c:539-541 | entry i of `dT` becomes i*T for i < N-1; the rest of the table is unchanged |
| Sampling.TimeFillOverrunsTable | Test/lcr/lcr.c:539-541 | at every accepted frequency the fill writes more than the 22 entries `dT` holds |
| Sampling.PlannedFillFitsBuffer | Test/lcr/lcr.c:529-541 | the fill's N-1 entries always fit a 16384-entry table |
| Phase.PhaseWrapAsWritten | Test/lcr/lcr.c:633-638 | the wrap as written shifts the phase by at most one whole turn |
| Phase.PhaseWrapAsWrittenCases | Test/lcr/lcr.c:633-638 | phases in (-180,180] are pushed to (-540,-180]; phases above 180 are left alone |
| Phase.PhaseWrapAsWrittenMovesZero | Test/lcr/lcr.c:636-638 | a zero phase becomes -360 |
| Phase.WrapPhase | Test/lcr/lcr.c:633-638 | the intended wrap lands in (-180,180] and shifts by whole turns |
| Phase.CanonicalUnique | Test/lcr/lcr.c:633-638 | two phases in (-180,180] that differ by whole turns are equal |
| Phase.WrapPhaseFixesCanonical | Test/lcr/lcr.c:633-638 | the intended wrap leaves a phase already in (-180,180] unchanged |
| Phase.WrapPhaseIdempotent | Test/lcr/lcr.c:633-638 | wrapping twice is wrapping once |
| Phase.WrapPhaseRespectsTurns | Test/lcr/lcr.c:633-638 | phases that differ by whole turns wrap to the same value |
| Phase.WrapsAgreeOnLowBranch | Test/lcr/lcr.c:633-634 | on (-540,-180], the branch the source gets right, both wraps agree |
| SweepPolicy.ConfigureSweep | Test/lcr/lcr.c:330-360 | the end frequency is capped at 62.5 MHz; `measurement_sweep` is capped at 10 and is 1 whenever the end lies above the start |
| SweepPolicy.OneCalibration | Test/lcr/lcr.c:484-489 | `one_calibration` is non-negative and leaves the loop bound `min(measurement_sweep, 1)` |
| SweepPolicy.IterationsBelow | Test/lcr/lcr.c:493 | the iteration count of `for (i = 0; i < bound; i++)` is the ceiling of a positive bound, and 0 otherwise |
| SweepPolicy.CountPasses | Test/lcr/lcr.c:484-493 | the pass loop runs `IterationsBelow(measurement_sweep - one_calibration)` times, at most once |
| SweepPolicy.PassesPerFrequency | Test/lcr/lcr.c:484-493 | the pass loop runs once for any positive `measurement_sweep` and never otherwise |
| SweepPolicy.ConfiguredSweepRunsOnePass | Test/lcr/lcr.c:484-493 | after the clamps a frequency sweep, or any `measurement_sweep` of at least 1, gives exactly one pass per frequency |
| SweepPolicy.SweepFrequencies | Test/lcr/lcr.c:475 | the visited frequencies are start + k*step, each below the end, and the next one would reach it |
| SweepPolicy.SweepAscending | Test/lcr/lcr.c:475 | visited frequencies are strictly ascending |
| SweepPolicy.ProgramSettingsSweep | Test/lcr/lcr.c:328-360 | the program's settings visit 1000..9000 Hz in steps of 1000 Hz, with one pass each |

## Left out

- `write_data_fpga`, the oscilloscope calls (`rp_app_init`, `rp_set_params`, `rp_get_signals`) and the
  `usleep` retry loop. These are hardware I/O.
- `usage`, `printf`, `fprintf` and the `scanf` calibration prompt. These are console I/O.
- `create_table`, `create_table_size` and `create_2D_table_size`. These are allocation wrappers. Only
  the 22-entry size of `create_table` is kept, as `Sampling.TimeTableLength`.
- The rest of `main`, which is not modelled:
  - the conversion of raw samples to volts
  - the load voltage and current, including the `/ Rs` scaling and the `U_acq[2][i3]` index slip
  - the lock-in products with `sin`/`cos`
  - `sqrtf`, `atan2f`
  - the complex impedance
  - the stores into the calibration tables
- The transcendental functions in `synthesize_signal` (`cos`, `acos`, `sin`, `log`, `exp`). Each sample's
  waveform value at amplitude 1 is an input, `unit`, required to lie in [-1, 1]. With `endfreq` 0, as
  `main` passes it, the chirp's logarithm is not finite, and that case is not represented.
- Floating-point rounding and single versus double precision. All arithmetic is exact over `real`.
- Synthesis.AwgParameters: does not model the undefined left shift of a negative `dcoffs`; it is treated
  as multiplication by 2^16. The result, -10149889, fits the signed 32-bit `offsgain` field.
- Synthesis.WriteSquareSample: `-amp` on the unsigned `amp` is taken as the signed negation that the 32-bit
  store produces on two's-complement targets. The unsigned wrap is not modelled.
- Synthesis.SynthesizeSignal: requires that the amplitude, transition and step conversions stay in the
  range of their C integer types. Outside it the source's conversions are undefined.
- Sampling.FillTimeIncrements: requires a table of at least N-1 entries, which the source does not
  provide (see Findings). The out-of-bounds writes are not modelled.
- Sampling.PlanAcquisition: below 2.5 Hz the source indexes `g_dec` with an uninitialised `f`. The model
  returns None there.
- ArrayStats.TrapzFrom: requires the arrays to hold more than `size` elements. The source's reads past
  the end are not modelled (see Findings).
- ArrayStats.MeanArray: with a negative count the source divides 0 by a negative number, which gives
  -0.0. The model does not distinguish -0.0 from 0.
- `frequency_step` is an unsigned 32-bit value added to a double. It is modelled as a real step.

## Findings

| source | as written | input that shows it | evidently intended | confidence | as-written member | corrected member |
|---|---|---|---|---|---|---|
| Test/lcr/lcr.c:204-209 | `result` in `trapz` is never initialised before `+=` | an all-zero trace, with any non-zero value left on the stack | the accumulator starts at 0, so a zero trace integrates to 0 | not executed | ArrayStats.UninitialisedTrapzOfZeroTrace | ArrayStats.Trapz |
| Test/lcr/lcr.c:208 | each term multiplies the time step by the difference of neighbouring samples | a constant trace c ≠ 0 gives 0 | the trapezoidal rule uses the sum of neighbouring samples and integrates c to c*(t[k]-t[0]) | not executed | ArrayStats.TrapzOfConstantTrace | ArrayStats.TrapezoidRuleOfConstant |
| Test/lcr/lcr.c:227-232 | `result` in `mean_array_column` is never initialised | any column, with a non-zero start value s | the accumulator starts at 0, giving the column mean rather than the mean plus s/length | not executed | ArrayStats.UninitialisedColumnMeanOffset | ArrayStats.MeanArrayColumn |
| Test/lcr/lcr.c:539-541 | `dT`, from `create_table` (lines 171-174), holds 22 floats but the fill writes N-1 entries | any frequency in [2.5, 62.5e6] Hz; for example 1000 Hz gives N = 1831 | a table sized from N, which always fits 16384 entries | not executed | Sampling.TimeFillOverrunsTable | Sampling.PlannedFillFitsBuffer |
| Test/lcr/lcr.c:615-618 | `trapz` is called with `size` `SIGNAL_LENGTH` on traces of `SIGNAL_LENGTH` entries and the 22-entry `dT`; its last iteration reads index `size` | every call, whatever the value of `SIGNAL_LENGTH` (it comes from the oscilloscope header): index `SIGNAL_LENGTH` is one past the trace, and past `dT` too once `SIGNAL_LENGTH` is 22 or more | `size` below both array lengths | not executed | ArrayStats.ProgramTrapzCallReadsPastEnd | ArrayStats.Trapz |
| Test/lcr/lcr.c:633-638 | the second branch subtracts 360 from every phase in (-180, 180] | phase 0 becomes -360 | wrap into (-180, 180], leaving in-range phases unchanged | not executed | Phase.PhaseWrapAsWrittenMovesZero | Phase.WrapPhase |
