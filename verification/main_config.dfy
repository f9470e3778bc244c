/** The engine constants of the self-contained snapshot (src/main.rs). They
    differ from the library's: the sample rate there is 220_000. */
module MainConfig {
  const SAMPLE_RATE: nat := 220_000
  const AMPLITUDE: nat := 100
  const BUFFER_SIZE: nat := 1
  const N_VOICES: nat := 4
  const N_CHANNELS: nat := 4
  const DUTY_MAX: nat := 1000
}
