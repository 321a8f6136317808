/** The program-wide limits of the LCR meter and the sample clock shared by its signal
    generator and its oscilloscope. */
module Limits {

  /** Largest and smallest signal frequency in Hz (`c_max_frequency`, `c_min_frequency`). */
  const MaxFrequency: real := 62500000.0
  const MinFrequency: real := 0.0
  /** Largest signal amplitude in volts peak-to-peak (`c_max_amplitude`). */
  const MaxAmplitude: real := 2.0
  /** The 125 MHz sample clock: the AWG's `c_awg_smpl_freq` and the oscilloscope's 125e6. */
  const SampleRate: real := 125000000.0
}
