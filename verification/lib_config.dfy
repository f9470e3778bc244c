/** The engine constants of the library snapshot (src/lib.rs). The amplitude
    levels `AMPLITUDE_MAX` / `AMPLITUDE_MIN` that src/synth.rs and
    src/utils.rs use are not defined there; the operations that need them take
    them as parameters. */
module Lib {
  const SAMPLE_RATE: nat := 300_000
  const AMPLITUDE: nat := 100
  const BUFFER_SIZE: nat := 1
  const VOICES_MAX: nat := 4
  const CHANNELS_MAX: nat := 4
  const DUTY_MAX: nat := 1000
}
