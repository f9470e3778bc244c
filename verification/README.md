# obs — a verified model of a 1-bit sound engine

obs makes square-wave music whose every sample is a single bit. It has three
levels:

- A **voice** is an oscillator. It counts samples up to its `period`
  (`SAMPLE_RATE / freq`), wraps to 0 and is high while the count is below its
  pulse width.
- A **channel** mixes a small pool of voices with the "Pin Pulse Method": the
  OR of their bits, sample by sample.
- The **synthesizer** interleaves its channels with the "Pulse Interleaving
  Method". Every channel advances on every sample, but only the channel under
  a round-robin cursor is heard, and the cursor then moves on.

A **score player** reads text lines `status freq delay`. It turns each delay in
microseconds into a countdown of buffers and writes one buffer to the sound
device per loop iteration. A **drum machine** plays one-bit recordings
round-robin. Small readers threshold WAV data to bits and do MIDI timing
arithmetic.

The repository holds the engine three times, in snapshots that differ in
observable ways. Each snapshot is modelled on its own:

| snapshot | modules | silence | pool | duty |
|---|---|---|---|---|
| `src/main.rs` | `MainConfig`, `MainVoice`, `MainChannel`, `MainSynth` | `on` flag | slot arrays | integer per mille |
| `src/audio/*` | `Lib`, `AudioVoice`, `AudioChannel`, `AudioSynth` | `on` flag | slot arrays | fraction |
| `src/synth/*`, `src/synth.rs` | `Lib`, `SynthVoice`, `SynthChannel`, `SynthEngine` | `period = 0` | vector | fraction |

Shared parts:

- `SquareWave` is the oscillator step law that every voice implements.
- `RoundRobin` is the interleaving law that every synthesizer implements.
- `Score` is the `play_file` / `play_files` loop for any channel or
  synthesizer. The loop is given as transition functions and is bounded by
  fuel.
- `Utils` holds the OR of buffers, the amplitude mapping of `write_buffer`
  and the line tokeniser of `read_message`.
  src/main.rs repeats these three functions at lines 250-284. The same
  members model both copies.
- `DrumMachine`, `WavReader` and `MidiReader` model src/synth/drum_machine.rs,
  src/io/wav_reader.rs and src/io/midi_reader.rs.
- `Common` and `Arith` hold machine integer ranges, the `Outcome` of an
  operation that may panic, and arithmetic facts.

Objects whose fields the source updates in place are classes: voices,
channels, synthesizers, drum voices, the drum machine and the MIDI reader.
Each class's methods are proved against a pure state function, and the
properties are lemmas about that function. Owned Rust structs held inside
arrays or vectors are values: the arrays and sequences hold voice states, not
references. Each snapshot's constants take that snapshot's values. `src/lib.rs`
has a 300 000 Hz sample rate and `src/main.rs` has 220 000 Hz. Both have
4 voices per channel, 4 channels, a buffer of 1 sample, amplitude 100 and a
duty scale of 1000.

A `panic!`, an `unwrap` on an error, an out-of-range index, or an integer
underflow or overflow that the source reaches at run time becomes a `Panic` /
`Panicked` outcome. This includes `note_on` on a full pool, a short score line
and a bad token. Overflow follows a debug build. A division or a u32
product whose operands come only from the caller becomes a precondition:
- the frequency of `Voice::new` and `voice_set` must be non-zero;
- `voice_set`'s `period * duty` must fit in u32;
- `resample`'s input rate must be non-zero when there is a sample to resample (an empty input never divides).

## Model

| member | source | states |
|---|---|---|
| SquareWave.Advance | src/audio/voice.rs:90-93 | the counter after one tick is 0 exactly when `counter + 1` reaches the period, and otherwise lies strictly inside the period |
| SquareWave.Level | src/audio/voice.rs:89-99 | a tick is high exactly when the advanced counter is neither the wrap-around 0 nor at or past the pulse width |
| SquareWave.Run | src/audio/voice.rs:71-86 | `n` ticks give exactly `n` samples |
| SquareWave.ShortPeriodSilent | src/audio/voice.rs:90-93 | with a period of at most one sample a tick is low and resets the counter |
| SquareWave.ShortPeriodRun | src/audio/voice.rs:71-86 | with a period of at most one sample every run is all low and leaves the counter at 0 |
| SquareWave.RunSnoc | src/audio/voice.rs:74-83 | a run of `n + 1` ticks is the run of `n` ticks followed by the tick taken from the counter reached after `n` |
| SquareWave.RunAppend | src/audio/voice.rs:71-86 | running `n + m` ticks is running `n` ticks and then `m` more from the counter they reach |
| SquareWave.RunAt | src/audio/voice.rs:71-86 | sample `k` of a run is the tick taken from the counter reached after `k` ticks |
| SquareWave.AfterInCycle | src/audio/voice.rs:90-93 | from a counter inside the period, `k` ticks move it to `(counter + k) % period` |
| SquareWave.RunInCycle | src/audio/voice.rs:71-86 | sample `k` of a run started inside the period is the tick taken at phase `(counter + k) % period` |
| SquareWave.CycleShape | src/audio/voice.rs:89-99 | from a reset counter sample `k` is high iff `k % period + 1` is below both the period and the pulse width |
| SquareWave.Periodic | src/audio/voice.rs:89-99 | from a reset counter the wave repeats with period `period` |
| SquareWave.CycleReturns | src/audio/voice.rs:90-93 | one full period of ticks brings a reset counter back to 0 |
| SquareWave.CountHigh | src/audio/voice.rs:71-86 | the number of high samples is at most the number of samples |
| SquareWave.CycleHighCount | src/audio/voice.rs:89-99 | exactly `min(waveform, period) - 1` samples of each cycle are high (none when the pulse width is at most 1), i.e. the duty cycle |
| AudioVoice.PulseWidth | src/audio/voice.rs:55 | `(period as f32 * duty) as u32` is at most the period for a duty in [0, 1] and 0 for a non-positive duty |
| AudioVoice.AfterBound | src/audio/voice.rs:75-77 | ticking never takes the counter past `SAMPLE_RATE`, so `counter += 1` cannot overflow |
| AudioVoice.OperationsKeepValid | src/audio/voice.rs:45-99 | `set`, `unset`, `out` and `out_buffer` keep the counter and the period within `SAMPLE_RATE` |
| AudioVoice.SetZeroSilences | src/audio/voice.rs:46-49 | `set(0, d)` clears freq and period and switches the voice off, keeping duty, pulse width and phase |
| AudioVoice.SetTunes | src/audio/voice.rs:50-57 | `set(f, d)` with `f > 0` switches the voice on with period `SAMPLE_RATE / f`, keeps the phase (the reset is commented out), and bounds the pulse width by the period for a duty in [0, 1] |
| AudioVoice.UnsetKeepsTuning | src/audio/voice.rs:61-63 | `unset` clears only the `on` flag |
| AudioVoice.TickLaw | src/audio/voice.rs:89-99 | one `out()`: the wrap tick is low and resets the counter, any other tick is high iff the new counter is below the pulse width, and nothing but the counter changes |
| AudioVoice.ResetVoiceShape | src/audio/voice.rs:71-99 | a voice with a reset counter is periodic with its period and high on exactly `min(waveform, period) - 1` ticks per cycle |
| AudioVoice.TickNUnfold | src/audio/voice.rs:74-83 | `n + 1` ticks are one `out()` followed by `n` ticks |
| AudioVoice.Voice.Default | src/audio/voice.rs:6-14 | `Voice::default()` is the all-zero voice that is switched off |
| AudioVoice.Voice.New | src/audio/voice.rs:18-34 | `Voice::new(f, d)` is the default voice after `set(f, d)`: counter 0, on, period `SAMPLE_RATE / f` |
| AudioVoice.Voice.Freq | src/audio/voice.rs:36-38 | returns the frequency field |
| AudioVoice.Voice.Duty | src/audio/voice.rs:40-42 | returns the duty field |
| AudioVoice.Voice.IsOn | src/audio/voice.rs:66-68 | returns the `on` flag |
| AudioVoice.Voice.Set | src/audio/voice.rs:45-58 | the fields become `VoiceState.Set(freq, duty)` of the old fields |
| AudioVoice.Voice.Unset | src/audio/voice.rs:61-63 | the fields become `VoiceState.Unset()` of the old fields |
| AudioVoice.Voice.Out | src/audio/voice.rs:89-99 | the new fields and the sample are one `VoiceState.Tick()` of the old fields |
| AudioVoice.Voice.OutBuffer | src/audio/voice.rs:71-86 | the new fields and the buffer are `BUFFER_SIZE` ticks of the old fields |
| Utils.BufferOr | src/utils.rs:36-44 | the result has the inputs' length and each sample is the OR of the two samples at that position |
| Utils.OrCommutative | src/utils.rs:36-44 | OR-mixing does not depend on the order of its inputs |
| Utils.OrIdempotent | src/utils.rs:36-44 | mixing a buffer with itself changes nothing |
| Utils.OrQuietIdentity | src/utils.rs:36-44 | the all-low buffer `[false; BUFFER_SIZE]` is the identity of OR-mixing |
| Utils.OrAssociative | src/utils.rs:36-44 | mixing several buffers does not depend on how they are grouped |
| Utils.AmplitudeLog | src/utils.rs:46-54 | one converted buffer per written buffer |
| Utils.AmplitudeLogSnoc | src/utils.rs:46-54 | writing one more buffer appends its conversion to what was written |
| Utils.WriteBuffer | src/utils.rs:46-52 | the output has the buffer's length; a high sample becomes the amplitude and a low one 0 |
| Utils.TokenLength | src/utils.rs:26 | the first token of a line is a maximal run of non-whitespace characters |
| Utils.SplitWhitespaceSound | src/utils.rs:26 | `split_whitespace` yields non-empty tokens free of whitespace whose concatenation is the line with its whitespace removed |
| Utils.TokensAreWords | src/utils.rs:26 | every token is non-empty and free of whitespace |
| Utils.TokensCoverLine | src/utils.rs:26 | the tokens, concatenated, are exactly the non-whitespace characters of the line, in order |
| Utils.BlankLineHasNoTokens | src/utils.rs:24-29 | an all-whitespace line, in particular the empty line read at the end of the file, gives no parts |
| Utils.Decimal | src/utils.rs:27 | the decimal rendering of a number is a non-empty string of digits |
| Utils.DecimalRoundTrip | src/utils.rs:27 | reading a rendered number back gives the number |
| Utils.ParseU32RoundTrip | src/utils.rs:27 | `parse::<u32>` of the decimal rendering of any u32 gives that value |
| Utils.ReadMessage | src/utils.rs:20-34 | the parts are returned iff every token parses as a u32 (otherwise `unwrap` panics), one part per token, in order |
| AudioChannel.FirstIndex | src/audio/channel.rs:29-35 | the scan stops at the first slot holding the value, or past the end when no slot holds it |
| AudioChannel.Idle | src/audio/channel.rs:16-23 | `Channel::default()` has every slot free and every voice switched off, which satisfies the slot invariant |
| AudioChannel.NoteOnTakesFirstFreeSlot | src/audio/channel.rs:28-37 | `note_on` panics iff no slot is free; otherwise the first free slot takes the frequency and its voice is set, and every other slot is unchanged |
| AudioChannel.NoteOffFreesFirstMatch | src/audio/channel.rs:40-48 | `note_off` frees the first slot playing the frequency and resets its voice with `unset()` (switched off, period kept), leaving the other slots; an unplayed frequency changes nothing |
| AudioChannel.OperationsKeepInv | src/audio/channel.rs:28-76 | `note_on`, `note_off`, `out` and `out_buffer` keep the slots consistent with the voices (a slot is taken iff its voice is on) |
| AudioChannel.NoteOnThenOff | src/audio/channel.rs:28-48 | a note switched on and then off again leaves the same multiset of frequencies in the slots and the same number of voices sounding |
| AudioChannel.TickIsOrOfVoices | src/audio/channel.rs:66-76 | a channel sample is the OR of the square waves of the voices that are on; with no voice on it is low and the channel is unchanged |
| AudioChannel.TickKeepsSwitches | src/audio/channel.rs:66-76 | `out()` changes no slot and no `on` flag |
| AudioChannel.RenderStateStep | src/audio/channel.rs:51-63 | rendering a buffer leaves the voices where one sample followed by the rest of the buffer leaves them |
| AudioChannel.RenderBufferStep | src/audio/channel.rs:51-63 | a buffer is its first sample followed by the buffer rendered after it |
| AudioChannel.RenderIsOuts | src/audio/channel.rs:51-76 | `out_buffer()` for `n` samples equals `n` successive `out()` calls, in state and in samples |
| AudioChannel.MixUpTo | src/audio/channel.rs:54-60 | the partial mix has one sample per buffer position |
| AudioChannel.MixUpToIsRender | src/audio/channel.rs:51-63 | after mixing the first `i` voices a sample is high iff one of them is on and high there; after all of them the mix is the rendered buffer |
| AudioChannel.Channel.constructor | src/audio/channel.rs:16-23 | `Channel::default()`: idle slots, `on` false, counter 0, message zero |
| AudioChannel.Channel.NoteOn | src/audio/channel.rs:28-37 | the slot arrays become `ChannelState.NoteOn` of the old ones, or stay as they were and the call reports the panic |
| AudioChannel.Channel.NoteOff | src/audio/channel.rs:40-48 | the slot arrays become `ChannelState.NoteOff` of the old ones |
| AudioChannel.Channel.Out | src/audio/channel.rs:66-76 | the voices and the sample are one `ChannelState.Tick()` of the old ones |
| AudioChannel.Channel.OutBuffer | src/audio/channel.rs:51-63 | the voices and the buffer are `ChannelState.Render(BUFFER_SIZE)` of the old ones |
| AudioChannel.Channel.PlayFile | src/audio/channel.rs:79-117 | the ending, the final channel and the bytes written are those of `Score.PlayFile` on the track with this channel's transitions |
| AudioChannel.Channel.Iteration | src/audio/channel.rs:89-116 | one loop iteration is one `Score.Step` of the player and extends the written bytes by the buffer it renders |
| AudioChannel.Channel.Emit | src/audio/channel.rs:115 | renders one buffer, as `ChannelState.Render(BUFFER_SIZE)`, and converts it as `write_buffer` does |
| AudioChannel.Channel.PlayIteration | src/audio/channel.rs:89-116 | one loop iteration fires the due cue, reads the next cue or stops, or counts down, exactly as `Score.Step`, and returns the buffer it renders |
| Score.ReadLine | src/utils.rs:20-34 | reading line `pos` of a track gives that line, and past the last line the empty line of the end of the file |
| Score.CountdownExact | src/audio/channel.rs:85 | at up to a million buffers per second the 64-bit conversion of a delay to buffers never truncates: it is the exact floor of `delay * rate / 10^6`, at most the delay, and monotone in the delay |
| Score.CountdownOneSecond | src/audio/channel.rs:85 | a delay of one second counts down exactly one second of buffers |
| Score.ParseCue | src/audio/channel.rs:82-85 | indexing `parts[0..2]` panics iff the line has fewer than three numbers; otherwise status and frequency are the first two numbers |
| Score.Start | src/audio/channel.rs:80-85 | the first read of `play_file` panics iff the first line is short; it consumes one line and writes nothing |
| Score.Renders | src/audio/channel.rs:115 | `n` renders give `n` buffers |
| Score.StepWritesOneBuffer | src/audio/channel.rs:89-116 | an iteration that keeps playing writes exactly one buffer; the iteration that ends the loop writes none |
| Score.StepFramesOutput | src/audio/channel.rs:89-116 | an iteration does not depend on what was written before it |
| Score.StoppedStays | src/audio/channel.rs:100-102 | once the loop has broken out or panicked, nothing further happens |
| Score.IterateAdd | src/audio/channel.rs:89-116 | `m + n` iterations are `m` iterations followed by `n` |
| Score.IterateNext | src/audio/channel.rs:89-116 | `n + 1` iterations are `n` iterations followed by one |
| Score.IterateSettle | src/audio/channel.rs:100-102 | once the loop has stopped, more iterations change nothing |
| Score.WaitsCountdown | src/audio/channel.rs:110-115 | a cue with countdown `d` waits exactly `d` iterations, rendering one buffer each and reading no line |
| Score.EndOfTrackBreaks | src/audio/channel.rs:90-102 | a due cue at the end of the track is fired and the loop breaks without writing another buffer |
| Score.FiresNext | src/audio/channel.rs:90-109 | a firing iteration loads the next line and writes one buffer, or breaks at the end of the track |
| Score.PlaysFrom | src/audio/channel.rs:89-116 | from line `i` on, a well-formed track stops within `Length` iterations; it finishes (rather than panics) exactly when every cue it reaches fires without a panic (`FiresFrom`), and then it has written one buffer fewer than it iterated |
| Score.PlayFileDuration | src/audio/channel.rs:79-117 | `play_file` of a well-formed track stops within `Length` iterations and more fuel changes nothing; it finishes exactly when all its cues fire without a panic, and then it has written `Length - 1` buffers |
| Score.StartAll | src/audio/synth.rs:70-76 | the first loop of `play_files` panics iff some track's first line is short; otherwise each channel's message is its track's first cue, and one line of every track is consumed |
| Score.Visit | src/audio/synth.rs:80-103 | a turn touches only its own track's message and position, writes nothing, and can only keep the ending or panic |
| Score.VisitTrack | src/audio/synth.rs:80-103 | a waiting cue counts down by one without reading; a due cue consumes exactly one line, and the end-of-file flag is raised iff that line is empty |
| Score.Sweep | src/audio/synth.rs:79-106 | the inner loop as written writes nothing, keeps the shape of the track state, and can only keep the ending or panic |
| Score.SweepFixed | src/audio/synth.rs:79-106 | the corrected inner loop (skip finished tracks instead of `break`) writes nothing and can only keep the ending or panic |
| Score.Round | src/audio/synth.rs:78-108 | an iteration of the outer loop keeps the shape of the track state |
| Score.Rounds | src/audio/synth.rs:78-108 | iterations of the outer loop keep the shape of the track state |
| Score.SweepFramesOutput | src/audio/synth.rs:79-106 | the inner loop, as written or corrected, does not depend on what was written before it |
| Score.RoundFramesOutput | src/audio/synth.rs:78-108 | an iteration of the outer loop appends its own buffer, if any, to what was written before |
| Score.RoundAsWritten | src/audio/synth.rs:78-108 | an iteration as written runs the inner loop and then, unless it panicked, renders and writes one buffer |
| Score.RoundsAdd | src/audio/synth.rs:78-108 | `m + n` outer iterations are `m` iterations followed by `n` |
| Score.StoppedRoundsStay | src/audio/synth.rs:78-108 | a stopped loop stays stopped |
| Score.RoundsNext | src/audio/synth.rs:78-108 | `n + 1` outer iterations are `n` iterations followed by one |
| Score.RoundsSettle | src/audio/synth.rs:78-108 | once the loop has stopped, more iterations change nothing |
| Score.NeverFinishes | src/audio/synth.rs:78-108 | the outer loop as written has no exit but a panic: it never finishes |
| Score.SweepStopsAt | src/audio/synth.rs:83-93 | once a track is exhausted with its last cue due, the inner loop as written reaches it, fires that same cue again (one more line read past the end), and breaks there: the tracks after it are left untouched |
| Score.ExhaustedRefires | src/audio/synth.rs:78-108 | an iteration as written with track 0 exhausted panics iff re-firing its last cue panics; otherwise the synthesizer is the fired one rendered once, one buffer is written, and the cues are unchanged |
| Score.RefiredForever | src/audio/synth.rs:78-108 | when track 0 is exhausted on a cue whose fire never panics, the loop as written is still playing after any number of iterations |
| Score.Starvation | src/audio/synth.rs:83-93 | as written, once a track is exhausted its last cue stays due and is re-fired every iteration, and the tracks after it never advance again, for any number of iterations |
| Score.SweepFixedTrack | src/audio/synth.rs:79-106 | the corrected inner loop treats each track on its own: a finished track is untouched, a waiting cue counts down, a due cue reads the next line and marks the track finished iff that line is empty |
| Score.SweepFixedKeeps | src/audio/synth.rs:79-106 | the corrected inner loop from track `k` on leaves the tracks before `k` alone |
| Score.RoundFixedProgress | src/audio/synth.rs:78-108 | every corrected iteration advances every unfinished track on its own schedule, and the loop stops exactly when every track is finished |
| AudioSynth.SynthState.Outs | src/audio/synth.rs:26-32 | `n` samples of the synthesizer are `n` samples long and keep the channel count and the cursor in range |
| AudioSynth.Quiet | src/audio/synth.rs:16-21 | `Synth::default()` has idle channels and both cursors at 0, which satisfies the synthesizer invariant |
| AudioSynth.OutsSnoc | src/audio/synth.rs:26-32 | `n + 1` samples are `n` samples followed by one more `synth_out()` |
| AudioSynth.OutsInterleave | src/audio/synth.rs:35-46 | `n` samples are the round-robin interleaving of the channels: every channel takes `n` steps, the cursor moves `n` places, and sample `k` comes from channel `(current + k) % CHANNELS_MAX` |
| AudioSynth.OutsRun | src/audio/synth.rs:35-46 | the samples of `n` calls are the round-robin run of the channels from the cursor |
| AudioSynth.OutsState | src/audio/synth.rs:35-46 | after `n` calls every channel has taken `n` steps and the cursor has moved to `(current + n) % CHANNELS_MAX` |
| AudioSynth.ChannelSelectLaw | src/audio/synth.rs:49-56 | `channel_select(i)` keeps the synthesizer consistent, selects `i` when it is in range, changes nothing otherwise, and never touches the channels or the output cursor |
| AudioSynth.OperationsKeepInv | src/audio/synth.rs:35-66 | `note_on`, `note_off`, `synth_out` and `synth_out_buffer` keep every channel consistent and the cursors in range; `note_on` and `note_off` on a channel index out of range panic, and `note_off` in range never does |
| AudioSynth.OutsKeepInv | src/audio/synth.rs:26-32 | any number of samples keeps the synthesizer consistent |
| AudioSynth.TickedUpToNext | src/audio/synth.rs:38-43 | the loop of `synth_out` steps the channels one at a time |
| AudioSynth.RenderIsOutBuffer | src/audio/synth.rs:26-32 | the buffer the score player renders is `BUFFER_SIZE` calls of `synth_out()` |
| AudioSynth.NewChannels | src/audio/synth.rs:16-21 | `CHANNELS_MAX` idle channels, no two sharing an object |
| AudioSynth.Synth.constructor | src/audio/synth.rs:16-21 | `Synth::default()`: idle channels, cursors at 0 |
| AudioSynth.Synth.ChannelSelect | src/audio/synth.rs:49-56 | the fields become `SynthState.ChannelSelect(i)` of the old ones |
| AudioSynth.Synth.NoteOn | src/audio/synth.rs:59-61 | channel `n` becomes its `note_on` result and the others are unchanged, or nothing changes and the panic is reported: a full channel, or a channel index of `CHANNELS_MAX` or more |
| AudioSynth.Synth.NoteOff | src/audio/synth.rs:64-66 | channel `n` becomes its `note_off` result and the others are unchanged; a channel index of `CHANNELS_MAX` or more changes nothing and the panic is reported |
| AudioSynth.Synth.TickChannel | src/audio/synth.rs:39 | channel `i` takes one step and the others keep still |
| AudioSynth.Synth.Out | src/audio/synth.rs:35-46 | the new state and the sample are `SynthState.Out()` of the old state |
| AudioSynth.Synth.OutBuffer | src/audio/synth.rs:26-32 | the new state and the buffer are `BUFFER_SIZE` calls of `synth_out()` |
| AudioSynth.Synth.Sample | src/audio/synth.rs:29 | one `synth_out()` written at position `i` of the buffer |
| AudioSynth.Synth.Visit | src/audio/synth.rs:80-103 | the turn of track `i` is `Score.Visit` on the state the fields stand for |
| AudioSynth.Synth.FireCue | src/audio/synth.rs:83-87 | a due cue turns its frequency off for status 0 and on with duty 100 otherwise, as `FireTrack`, leaving the messages alone |
| AudioSynth.Synth.NextCue | src/audio/synth.rs:89-98 | the next line of track `i` is read: an empty line is the end of the file, a short one panics, and otherwise it becomes channel `i`'s message |
| AudioSynth.Synth.Sweep | src/audio/synth.rs:79-106 | the inner loop, `break` included, is `Score.Sweep` on the state the fields stand for |
| AudioSynth.Synth.ReadFirstLines | src/audio/synth.rs:70-76 | succeeds iff `Score.StartAll` does, and then the channels' messages are the first cues |
| AudioSynth.Synth.Emit | src/audio/synth.rs:107 | renders one buffer as `BUFFER_SIZE` calls of `synth_out()`, converts it as `write_buffer` does, and leaves the messages alone |
| AudioSynth.Synth.Round | src/audio/synth.rs:78-108 | one outer iteration is the inner loop followed, unless it panicked, by one rendered and written buffer |
| AudioSynth.Synth.PlayFiles | src/audio/synth.rs:69-109 | the ending, final state and written bytes are those of `Score.PlayFiles` as written, with this synthesizer's transitions |
| AudioSynth.Synth.PlayRounds | src/audio/synth.rs:78-108 | the outer loop from the current messages and positions is `Score.Rounds` as written |
| AudioSynth.StartsPlaying | src/audio/synth.rs:70-76 | on four one-line tracks `status 440 0` the first loop reads every first line: each track is at line 1, not done, with its cue due now |
| AudioSynth.RenderKeepsSlots | src/audio/synth.rs:26-32 | rendering a buffer takes or frees no slot of any channel |
| AudioSynth.RefireRound | src/audio/synth.rs:78-108 | with track 0 of four `1 440 0` tracks ended and `k` voices of channel 0 taken, an iteration as written takes voice `k` and keeps playing, or panics when all four are taken |
| AudioSynth.FillsThenCrashes | src/audio/synth.rs:78-108 | from there the remaining free voices are taken one iteration each and the next iteration panics |
| AudioSynth.RefiredNoteOnCrashes | src/audio/synth.rs:78-108 | `play_files` as written on four `1 440 0` tracks at 300 000 buffers per second is still playing after four iterations and has panicked after five: track 0's `note_on` is re-fired until channel 0 has no free voice |
| AudioSynth.NoteOffRefiredForever | src/audio/synth.rs:78-108 | once track 0 has ended on a status-0 cue, its `note_off` is re-fired every iteration and never panics, so the loop as written is still playing after any number of iterations |
| AudioSynth.StarvesFrom | src/audio/synth.rs:89-93 | from an iteration where track 0 has ended on `0 440 0` and tracks 1 to 3 wait at line 1 on `1 440 0`, they wait there for any number of iterations and the loop keeps playing |
| AudioSynth.StarvationExample | src/audio/synth.rs:89-93 | `play_files` as written on the four tracks `0 440 0`, `1 440 0`, `1 440 0`, `1 440 0` at 300 000 buffers per second is still playing after any number of iterations, and tracks 1 to 3 are never read past their first line nor have their notes turned on |
| AudioSynth.FireOnIdle | src/audio/synth.rs:83-87 | firing a cue on an idle channel never panics and touches no other channel |
| AudioSynth.SweepFixedFromIdle | src/audio/synth.rs:79-106 | the corrected inner loop on four one-line tracks due on idle channels fires every one of them and reaches the end of every file |
| AudioSynth.FixedPlaysThrough | src/audio/synth.rs:69-109 | the corrected `play_files` on four one-line `status 440 0` tracks finishes in its first iteration with every file read to its end |
| AudioSynth.FixedExample | src/audio/synth.rs:69-109 | the corrected `play_files` plays both the starving score and the four `1 440 0` tracks through: it finishes, every file read to its end |
| SynthVoice.NewIsResetSet | src/synth/voice.rs:16-30 | `Voice::new(f, d)` is any voice `set(f, d)` with its counter reset; it is valid, has period `SAMPLE_RATE / f`, and a period of at least 1 for an audible `f` |
| SynthVoice.SetZeroIsUnset | src/synth/voice.rs:41-57 | `set(0, d)` is `unset()`: frequency and period become 0 and duty, pulse width and phase are kept |
| SynthVoice.SetKeepsPhase | src/synth/voice.rs:45-50 | `set(f, d)` with `f > 0` retunes the voice (period `SAMPLE_RATE / f`, pulse width within the period for a duty in [0, 1]) without touching its phase |
| SynthVoice.SilentVoice | src/synth/voice.rs:60-88 | a voice with period 0 yields only low samples and its counter stays at or drops to 0 |
| SynthVoice.OperationsKeepValid | src/synth/voice.rs:41-88 | every operation keeps the counter and the period within `SAMPLE_RATE` |
| SynthVoice.TickNUnfold | src/synth/voice.rs:60-75 | `n + 1` ticks are one `out()` followed by `n` ticks |
| SynthVoice.Voice.constructor | src/synth/voice.rs:16-30 | the fields are `New(freq, duty)` |
| SynthVoice.Voice.Freq | src/synth/voice.rs:32-34 | returns the frequency field |
| SynthVoice.Voice.Duty | src/synth/voice.rs:36-38 | returns the duty field |
| SynthVoice.Voice.Set | src/synth/voice.rs:41-51 | the fields become `VoiceState.Set(freq, duty)` of the old fields |
| SynthVoice.Voice.Unset | src/synth/voice.rs:54-57 | the fields become `VoiceState.Unset()` of the old fields |
| SynthVoice.Voice.Out | src/synth/voice.rs:78-88 | the new fields and the sample are one `VoiceState.Tick()` of the old fields |
| SynthVoice.Voice.OutBuffer | src/synth/voice.rs:60-75 | the new fields and the buffer are `BUFFER_SIZE` ticks of the old fields |
| SynthChannel.WithoutMembers | src/synth/channel.rs:40-42 | after `note_off(freq)` the pool holds exactly the old voices that do not play `freq`, and no more voices than before |
| SynthChannel.WithoutAppend | src/synth/channel.rs:40-42 | `retain` keeps the surviving voices in their original order: filtering a split pool is filtering both parts |
| SynthChannel.NoteOnThenOff | src/synth/channel.rs:32-42 | the corrected `note_on` appends one voice playing `freq` from a reset counter within the capacity, and a later `note_off(freq)` gives the same pool as `note_off(freq)` would have before |
| SynthChannel.NoteOnAsWrittenPanics | src/synth/channel.rs:32-37 | `note_on` as written panics even on an empty pool, where the corrected version returns the pool holding the new voice |
| SynthChannel.WithoutKeepsValid | src/synth/channel.rs:40-42 | removing voices keeps the pool within capacity and every counter in range |
| SynthChannel.TickIsOr | src/synth/channel.rs:56-62 | an empty pool is silent; a voice at the end of the pool ORs its sample into the channel's and advances independently |
| SynthChannel.TicksKeepValid | src/synth/channel.rs:45-62 | `out` and `out_buffer` keep the pool valid |
| SynthChannel.RenderStateStep | src/synth/channel.rs:45-53 | rendering a buffer leaves the pool where one sample followed by the rest of the buffer leaves it |
| SynthChannel.RenderBufferStep | src/synth/channel.rs:45-53 | a buffer is its first sample followed by the buffer rendered after it |
| SynthChannel.RenderIsOuts | src/synth/channel.rs:45-62 | `out_buffer()` for `n` samples equals `n` successive `out()` calls, in pool and in samples |
| SynthChannel.MixUpTo | src/synth/channel.rs:48-50 | the partial mix has one sample per buffer position |
| SynthChannel.MixUpToIsRender | src/synth/channel.rs:45-53 | after mixing the first `i` voices a sample is high iff one of them is high there; after all of them the mix is the rendered buffer |
| SynthChannel.Channel.constructor | src/synth/channel.rs:25-29 | `Channel::new()` has an empty pool |
| SynthChannel.Channel.NoteOnAsWritten | src/synth/channel.rs:32-37 | the voice is pushed when there is room, and the call panics either way; a frequency of 0 panics in `Voice::new` before the push |
| SynthChannel.Channel.NoteOn | src/synth/channel.rs:32-37 | corrected: the pool becomes `NoteOnOutcome` of the old pool, or stays as it was and the panic (full pool, or frequency 0) is reported |
| SynthChannel.Channel.NoteOff | src/synth/channel.rs:40-42 | the pool becomes `Without(old pool, freq)` and stays valid |
| SynthChannel.Channel.Out | src/synth/channel.rs:56-62 | the new pool and the sample are `Tick` of the old pool |
| SynthChannel.Channel.OutBuffer | src/synth/channel.rs:45-53 | the new pool and the buffer are `Render(old pool, BUFFER_SIZE)` |
| SynthEngine.EngineState.Outs | src/synth.rs:57-63 | `n` bits are `n` long and keep the channel count and the cursor in range |
| SynthEngine.Start | src/synth.rs:38-45 | `Synth::new()` has `CHANNELS_MAX` empty pools and both cursors at 0, which satisfies the invariant |
| SynthEngine.StartIsSilent | src/synth.rs:38-91 | a synthesizer with no voice anywhere stays empty and produces only low samples |
| SynthEngine.SamplesAreLevels | src/synth.rs:66-77 | `get_sample` makes the same state change as `get_sample_bool` and outputs `AMPLITUDE_MAX` exactly for a high bit, `AMPLITUDE_MIN` otherwise |
| SynthEngine.OutsRun | src/synth.rs:80-91 | the bits of `n` calls are the round-robin run of the pools from the cursor: sample `k` comes from channel `(current + k) % CHANNELS_MAX` |
| SynthEngine.OutsState | src/synth.rs:80-91 | after `n` calls every pool has taken `n` steps and the cursor has moved to `(current + n) % CHANNELS_MAX` |
| SynthEngine.OperationsKeepInv | src/synth.rs:80-111 | note operations touch only their own channel and no cursor, and every operation keeps the synthesizer consistent; `note_on` and `note_off` on a channel index out of range panic, and `note_off` in range never does |
| SynthEngine.ChannelSelectLaw | src/synth.rs:94-101 | `channel_select(i)` selects `i` when it is in range, otherwise changes nothing, and never touches the pools or the output cursor |
| SynthEngine.StartChannels | src/synth.rs:17-24 | `start_channels()` makes `CHANNELS_MAX` distinct channels with empty pools |
| SynthEngine.OutsSnoc | src/synth.rs:57-63 | `n + 1` bits are `n` bits followed by one more `get_sample_bool()` |
| SynthEngine.SamplesSnoc | src/synth.rs:48-54 | `n + 1` levels are `n` levels followed by one more `get_sample()`, and the state after `n` levels is the state after `n` bits |
| SynthEngine.Synth.constructor | src/synth.rs:38-45 | the fields are `Start()` |
| SynthEngine.Synth.TickChannel | src/synth.rs:84 | channel `i` takes one step and the others keep still |
| SynthEngine.Synth.GetSampleBool | src/synth.rs:80-91 | the new state and the bit are `EngineState.Out()` of the old state |
| SynthEngine.Synth.GetSample | src/synth.rs:66-77 | the new state is that of `Out()` and the level is `high` for a high bit and `low` otherwise |
| SynthEngine.Synth.GetBufferBool | src/synth.rs:57-63 | the new state and the buffer are `BUFFER_SIZE` calls of `get_sample_bool()` |
| SynthEngine.Synth.SampleBool | src/synth.rs:60 | one `get_sample_bool()` written at position `i` of the buffer |
| SynthEngine.Synth.GetBuffer | src/synth.rs:48-54 | the new state and the buffer are `BUFFER_SIZE` calls of `get_sample()` |
| SynthEngine.Synth.Sample | src/synth.rs:51 | one `get_sample()` written at position `i` of the buffer |
| SynthEngine.Synth.ChannelSelect | src/synth.rs:94-101 | the fields become `EngineState.ChannelSelect(i)` of the old ones |
| SynthEngine.Synth.NoteOn | src/synth.rs:104-106 | channel `n`'s pool becomes the corrected `note_on` result and the others are unchanged, or nothing changes and the panic is reported: a full pool, frequency 0, or a channel index of `CHANNELS_MAX` or more |
| SynthEngine.Synth.NoteOff | src/synth.rs:109-111 | channel `n`'s pool loses the voices playing `freq` and the others are unchanged; a channel index of `CHANNELS_MAX` or more changes nothing and the panic is reported |
| MainVoice.PulseWithinPeriod | src/main.rs:32 | a duty of at most `DUTY_MAX` thousandths gives a pulse no longer than the period |
| MainVoice.SetTunes | src/main.rs:27-34 | `voice_set(f, d)` switches the voice on with period `SAMPLE_RATE / f`, pulse width `period * d / DUTY_MAX` and the phase at 0, whatever the voice was before |
| MainVoice.DutyWithinRangeCanSet | src/main.rs:31-32 | for a nonzero frequency and a duty within `DUTY_MAX`, `period * duty` cannot overflow, so `voice_set` cannot panic |
| MainVoice.UnsetKeepsTuning | src/main.rs:36-38 | `voice_unset` clears only the `on` flag |
| MainVoice.AfterBound | src/main.rs:58-61 | ticking never takes the counter past `SAMPLE_RATE`, so `counter += 1` cannot overflow |
| MainVoice.OperationsKeepValid | src/main.rs:36-67 | `voice_unset`, `voice_out` and `voice_out_buffer` keep the counter and the period within `SAMPLE_RATE` |
| MainVoice.TickLaw | src/main.rs:57-67 | one `voice_out()`: the wrap tick is low and resets the counter, any other tick is high iff the new counter is below the pulse width, and only the counter changes |
| MainVoice.SetShape | src/main.rs:27-67 | right after `voice_set` the voice is periodic with its period and high on exactly `min(waveform, period) - 1` ticks per cycle |
| MainVoice.SetAboveRateSilent | src/main.rs:31 | a frequency above the sample rate gives a period of 0: the voice is on but silent |
| MainVoice.TickNUnfold | src/main.rs:40-55 | `n + 1` ticks are one `voice_out()` followed by `n` ticks |
| MainVoice.Voice.constructor | src/main.rs:16-24 | `Voice::default()` is the all-zero voice that is switched off |
| MainVoice.Voice.Set | src/main.rs:27-34 | the fields become `VoiceState.Set(freq, duty)` |
| MainVoice.Voice.Unset | src/main.rs:36-38 | the fields become `VoiceState.Unset()` of the old fields |
| MainVoice.Voice.Out | src/main.rs:57-67 | the new fields and the sample are one `VoiceState.Tick()` of the old fields |
| MainVoice.Voice.OutBuffer | src/main.rs:40-55 | the new fields and the buffer are `BUFFER_SIZE` ticks of the old fields |
| MainChannel.FirstIndex | src/main.rs:80-86 | the scan stops at the first slot holding the value, or past the end when no slot holds it |
| MainChannel.Idle | src/main.rs:70-76 | `Channel::default()` has every slot free and every voice switched off, which satisfies the slot invariant |
| MainChannel.VoiceOnTakesFirstFreeSlot | src/main.rs:79-88 | `voice_on` panics iff no slot is free or `voice_set` would panic (frequency 0, overflowing pulse width); otherwise the first free slot takes the frequency, its voice is set, on and reset, and every other slot is unchanged |
| MainChannel.VoiceOffFreesFirstMatch | src/main.rs:90-98 | `voice_off` frees the first slot playing the frequency and resets its voice with `voice_unset()` (switched off, period kept), leaving the other slots; an unplayed frequency changes nothing |
| MainChannel.OperationsKeepInv | src/main.rs:79-124 | `voice_on`, `voice_off`, `channel_out` and `channel_out_buffer` keep the slots consistent with the voices (a slot is taken iff its voice is on) |
| MainChannel.VoiceOnThenOff | src/main.rs:79-98 | a note switched on and then off again leaves the same multiset of frequencies in the slots and the same number of voices sounding |
| MainChannel.TickIsOrOfVoices | src/main.rs:114-124 | a channel sample is the OR of the square waves of the voices that are on; with no voice on it is low and the channel is unchanged |
| MainChannel.TickKeepsSwitches | src/main.rs:114-124 | `channel_out()` changes no slot and no `on` flag |
| MainChannel.RenderStateStep | src/main.rs:100-112 | rendering a buffer leaves the voices where one sample followed by the rest of the buffer leaves them |
| MainChannel.RenderBufferStep | src/main.rs:100-112 | a buffer is its first sample followed by the buffer rendered after it |
| MainChannel.RenderIsOuts | src/main.rs:100-124 | `channel_out_buffer()` for `n` samples equals `n` successive `channel_out()` calls |
| MainChannel.MixUpTo | src/main.rs:103-109 | the partial mix has one sample per buffer position |
| MainChannel.MixUpToIsRender | src/main.rs:100-112 | after mixing the first `i` voices a sample is high iff one of them is on and high there; after all of them the mix is the rendered buffer |
| MainChannel.Channel.constructor | src/main.rs:70-76 | `Channel::default()`: idle slots, counter 0, message zero |
| MainChannel.Channel.VoiceOn | src/main.rs:79-88 | the slot arrays become `ChannelState.VoiceOn` of the old ones, or the call reports the panic |
| MainChannel.Channel.VoiceOff | src/main.rs:90-98 | the slot arrays become `ChannelState.VoiceOff` of the old ones |
| MainChannel.Channel.Out | src/main.rs:114-124 | the voices and the sample are one `ChannelState.Tick()` of the old ones |
| MainChannel.Channel.OutBuffer | src/main.rs:100-112 | the voices and the buffer are `ChannelState.Render(BUFFER_SIZE)` of the old ones |
| MainChannel.Channel.PlayFile | src/main.rs:126-164 | the ending, the final channel and the bytes written (at level `AMPLITUDE`) are those of `Score.PlayFile` with this channel's transitions at 220 000 buffers per second |
| MainChannel.Channel.Iteration | src/main.rs:136-163 | one loop iteration is one `Score.Step` of the player and extends the written bytes by the buffer it renders |
| MainChannel.Channel.Emit | src/main.rs:162 | renders one buffer and converts it at level `AMPLITUDE` as `write_buffer` does |
| MainChannel.Channel.PlayIteration | src/main.rs:136-163 | one loop iteration fires the due cue, reads the next cue or stops, or counts down, exactly as `Score.Step`, and returns the buffer it renders |
| MainSynth.SynthState.Outs | src/main.rs:175-181 | `n` samples of the synthesizer are `n` samples long and keep the channel count and the cursor in range |
| MainSynth.Quiet | src/main.rs:168-172 | `Synth::default()` has idle channels and the cursor at 0, which satisfies the synthesizer invariant |
| MainSynth.OutsSnoc | src/main.rs:175-181 | `n + 1` samples are `n` samples followed by one more `synth_out()` |
| MainSynth.OutsInterleave | src/main.rs:183-195 | `n` samples are the round-robin interleaving of the channels: every channel takes `n` steps, the cursor moves `n` places, and sample `k` comes from channel `(current + k) % N_CHANNELS` |
| MainSynth.OutsRun | src/main.rs:183-195 | the samples of `n` calls are the round-robin run of the channels from the cursor |
| MainSynth.OutsState | src/main.rs:183-195 | after `n` calls every channel has taken `n` steps and the cursor has moved to `(current + n) % N_CHANNELS` |
| MainSynth.OperationsKeepInv | src/main.rs:183-215 | `voice_on`, `voice_off`, `synth_out` and `synth_out_buffer` keep every channel consistent and the cursor in range |
| MainSynth.OutsKeepInv | src/main.rs:175-181 | any number of samples keeps the synthesizer consistent |
| MainSynth.TickedUpToNext | src/main.rs:187-192 | the loop of `synth_out` steps the channels one at a time |
| MainSynth.RenderIsOutBuffer | src/main.rs:175-181 | the buffer the score player renders is `BUFFER_SIZE` calls of `synth_out()` |
| MainSynth.NewChannels | src/main.rs:168-172 | `N_CHANNELS` idle channels, no two sharing an object |
| MainSynth.Synth.constructor | src/main.rs:168-172 | `Synth::default()`: idle channels, cursor at 0 |
| MainSynth.Synth.VoiceOn | src/main.rs:214 | channel `n` becomes its `voice_on` result and the others are unchanged, or nothing changes and the panic is reported |
| MainSynth.Synth.VoiceOff | src/main.rs:212 | channel `n` becomes its `voice_off` result and the others are unchanged |
| MainSynth.Synth.TickChannel | src/main.rs:188 | channel `i` takes one step and the others keep still |
| MainSynth.Synth.Out | src/main.rs:183-195 | the new state and the sample are `SynthState.Out()` of the old state |
| MainSynth.Synth.OutBuffer | src/main.rs:175-181 | the new state and the buffer are `BUFFER_SIZE` calls of `synth_out()` |
| MainSynth.Synth.Sample | src/main.rs:178 | one `synth_out()` written at position `i` of the buffer |
| MainSynth.Synth.Visit | src/main.rs:208-232 | the turn of track `i` is `Score.Visit` on the state the fields stand for |
| MainSynth.Synth.FireCue | src/main.rs:209-215 | a due cue turns its frequency off for status 0 and on with duty 62 otherwise, leaving the messages alone |
| MainSynth.Synth.NextCue | src/main.rs:217-226 | the next line of track `i` is read: an empty line is the end of the file, a short one panics, and otherwise it becomes channel `i`'s message |
| MainSynth.Synth.Sweep | src/main.rs:207-234 | the inner loop, `break` included, is `Score.Sweep` on the state the fields stand for |
| MainSynth.Synth.ReadFirstLines | src/main.rs:198-204 | succeeds iff `Score.StartAll` does, and then the channels' messages are the first cues |
| MainSynth.Synth.Emit | src/main.rs:235 | renders one buffer as `BUFFER_SIZE` calls of `synth_out()`, converts it at level `AMPLITUDE`, and leaves the messages alone |
| MainSynth.Synth.Round | src/main.rs:206-236 | one outer iteration is the inner loop followed, unless it panicked, by one rendered and written buffer |
| MainSynth.Synth.PlayFiles | src/main.rs:197-237 | the ending, final state and written bytes are those of `Score.PlayFiles` as written, with this synthesizer's transitions |
| MainSynth.Synth.PlayRounds | src/main.rs:206-236 | the outer loop from the current messages and positions is `Score.Rounds` as written |
| MainSynth.StartsPlaying | src/main.rs:198-204 | on four one-line tracks `status 440 0` the first loop reads every first line: each track is at line 1, not done, with its cue due now |
| MainSynth.RenderKeepsSlots | src/main.rs:175-181 | rendering a buffer takes or frees no slot of any channel |
| MainSynth.RefireRound | src/main.rs:206-236 | with track 0 of four `1 440 0` tracks ended and `k` voices of channel 0 taken, an iteration as written takes voice `k` and keeps playing, or panics when all four are taken |
| MainSynth.FillsThenCrashes | src/main.rs:206-236 | from there the remaining free voices are taken one iteration each and the next iteration panics |
| MainSynth.RefiredNoteOnCrashes | src/main.rs:206-236 | `play_files` as written on four `1 440 0` tracks at 220 000 buffers per second is still playing after four iterations and has panicked after five: track 0's `voice_on` is re-fired until channel 0 has no free voice |
| MainSynth.NoteOffRefiredForever | src/main.rs:206-236 | once track 0 has ended on a status-0 cue, its `voice_off` is re-fired every iteration and never panics, so the loop as written is still playing after any number of iterations |
| MainSynth.StarvesFrom | src/main.rs:217-221 | from an iteration where track 0 has ended on `0 440 0` and tracks 1 to 3 wait at line 1 on `1 440 0`, they wait there for any number of iterations and the loop keeps playing |
| MainSynth.StarvationExample | src/main.rs:217-221 | `play_files` as written on the four tracks `0 440 0`, `1 440 0`, `1 440 0`, `1 440 0` at 220 000 buffers per second is still playing after any number of iterations, and tracks 1 to 3 are never read past their first line nor have their notes turned on |
| MainSynth.FireOnIdle | src/main.rs:209-215 | firing a cue at 440 Hz on an idle channel never panics and touches no other channel |
| MainSynth.SweepFixedFromIdle | src/main.rs:207-234 | the corrected inner loop on four one-line tracks due on idle channels fires every one of them and reaches the end of every file |
| MainSynth.FixedPlaysThrough | src/main.rs:197-237 | the corrected `play_files` on four one-line `status 440 0` tracks finishes in its first iteration with every file read to its end |
| MainSynth.FixedExample | src/main.rs:197-237 | the corrected `play_files` plays both the starving score and the four `1 440 0` tracks through: it finishes, every file read to its end |
| RoundRobin.StepAll | src/audio/synth.rs:39-44 | one pass of the loop steps every channel exactly once, in place, and keeps the number of channels |
| RoundRobin.StepAllN | src/audio/synth.rs:35-46 | `n` calls step every channel `n` times and keep the number of channels |
| RoundRobin.Run | src/audio/synth.rs:35-46 | `n` calls output `n` samples |
| RoundRobin.StepAllNAt | src/audio/synth.rs:35-46 | after `n` calls channel `i` has been stepped exactly `n` times, independently of the others |
| RoundRobin.Window | src/audio/synth.rs:35-46 | sample `k` of `n` calls is the output of channel `(cur + k) % count` at its `(k + 1)`-th step: every channel advances on every sample, but only the one under the cursor is heard |
| DrumMachine.DrumState.Play | src/synth/drum_machine.rs:23-33 | `n` calls of `get_sample()` on a valid voice return `n` samples and keep the voice valid and its recording unchanged |
| DrumMachine.NewVoice | src/synth/drum_machine.rs:10-16 | a new voice is loaded and not playing, hence valid |
| DrumMachine.TickLaw | src/synth/drum_machine.rs:18-33 | `hit()` restarts playback at 0; the voice stays valid iff its recording is non-empty; a valid voice never panics and outputs the sample under the counter; an idle voice returns false unchanged; a hit on an empty recording panics on the next sample |
| DrumMachine.PlaysInOrder | src/synth/drum_machine.rs:23-33 | from a playing position the next `n` samples are the recording's next `n` samples, and the hit ends exactly at the end of the recording |
| DrumMachine.IdleStaysSilent | src/synth/drum_machine.rs:23-33 | a voice that is not playing outputs only `false` and does not change |
| DrumMachine.HitPlaysOnce | src/synth/drum_machine.rs:18-33 | after a hit the voice plays its whole recording once, then stays silent |
| DrumMachine.Empty | src/synth/drum_machine.rs:43-48 | `DrumMachine::new()` has no voices and satisfies the machine invariant |
| DrumMachine.EmptyIsSilent | src/synth/drum_machine.rs:55-67 | with no voices `get_sample()` returns false and changes nothing |
| DrumMachine.LoadVoiceLaw | src/synth/drum_machine.rs:50-53 | the voice is appended, the first voice (the new one when the machine was empty) is restarted, the others and the cursor are unchanged, and the invariant holds afterwards iff the first voice's recording is non-empty and the cursor was 0 on an empty machine |
| DrumMachine.TickLawMachine | src/synth/drum_machine.rs:55-67 | on a consistent machine `get_sample()` never panics, steps every voice once, returns the step of the voice under the cursor and advances the cursor modulo the number of voices |
| DrumMachine.DrumVoice.constructor | src/synth/drum_machine.rs:10-16 | the fields are those of `NewVoice` |
| DrumMachine.DrumVoice.Hit | src/synth/drum_machine.rs:18-21 | the new fields are `Hit()` of the old |
| DrumMachine.DrumVoice.GetSample | src/synth/drum_machine.rs:23-33 | the new fields and the output are `Tick()` of the old fields, or the out-of-range index is reported as a panic |
| DrumMachine.Machine.constructor | src/synth/drum_machine.rs:43-48 | the fields are those of `Empty()` |
| DrumMachine.Machine.LoadVoice | src/synth/drum_machine.rs:50-53 | the new fields are `LoadVoice(v)` of the old |
| DrumMachine.Machine.GetSample | src/synth/drum_machine.rs:55-67 | the loop over the voices computes `Tick()` of the old fields, or reports the panic of a voice past its recording |
| WavReader.Downsample | src/io/wav_reader.rs:25-49 | succeeds iff the data is 8- or 16-bit; then one bit per sample in order, high exactly when an 8-bit sample exceeds 129 or a 16-bit sample exceeds 50; any other depth panics |
| WavReader.Donwsample | src/io/wav_reader.rs:25-49 | the loops push exactly the bits of `Downsample`, or report the panic of an unsupported depth |
| WavReader.Repeat | src/io/wav_reader.rs:53-57 | repeating every bit `k` times gives `|samples| * k` bits |
| WavReader.RepeatAt | src/io/wav_reader.rs:53-57 | output bit `i` is input bit `i / k`: every input bit becomes `k` consecutive output bits, in input order |
| WavReader.Resample | src/io/wav_reader.rs:51-59 | the nested loops produce every sample repeated `out_rate / in_rate` times; an empty input gives an empty output without dividing, and a zero input rate with a sample is a division by zero |
| WavReader.ResampleLength | src/io/wav_reader.rs:51-59 | the output has `|samples| * (out_rate / in_rate)` bits, none when the output rate is below the input rate |
| MidiReader.ReaderState.Delta2Us | src/io/midi_reader.rs:34-36 | succeeds iff ticks per beat are non-zero and `tempo * delta` fits in u32; then the result is the floor of `tempo * delta / ticks_per_beat` |
| MidiReader.NewLaw | src/io/midi_reader.rs:14-32 | a new reader keeps every track at the default tempo of 500 000 µs per beat; metrical timing gives its tick count, time-code timing gives 0 and every conversion then panics |
| MidiReader.OneBeat | src/io/midi_reader.rs:16-36 | at the default tempo one beat of 480 ticks lasts 500 000 µs |
| MidiReader.Pow2 | src/io/midi_reader.rs:39 | `pow(2, e)` is at least 1 |
| MidiReader.Midi2Freq | src/io/midi_reader.rs:38-40 | panics exactly for notes below 69, where the subtraction underflows |
| MidiReader.Midi2FreqLaw | src/io/midi_reader.rs:38-40 | note 69 is 440 Hz, twelve notes up doubles the frequency, and every note maps to the A at the start of its octave |
| MidiReader.Midi2FreqFits | src/io/midi_reader.rs:38-40 | the frequency of every note from 69 up fits in u32 |
| MidiReader.DrainReverses | src/io/midi_reader.rs:63-65 | `n` calls of `next_message` on a track holding at least `n` events return its last `n` events, last first, remove them, and leave the other tracks alone |
| MidiReader.DrainPastEnd | src/io/midi_reader.rs:63-65 | one call more than the track holds panics |
| MidiReader.DrainSplit | src/io/midi_reader.rs:63-65 | `n + 1` calls are `n` calls followed by one more |
| MidiReader.Reader.constructor | src/io/midi_reader.rs:14-32 | the fields are those of `New(timing, tracks)`, with no channels |
| MidiReader.Reader.NextMessage | src/io/midi_reader.rs:63-65 | the new tracks and the event are `NextMessage` of the old state; a missing or empty track panics and changes nothing |

## Left out

- Sound device output is not modelled: ALSA, `set_pcm_params` / `pcm_set_params`, the `writei` call and its assertion, and `pcm.drain`. The device is an append-only log of the byte buffers `write_buffer` would send.
- `BufReader::read_line` is not modelled. A score file is the sequence of its lines, already split into numbers by the modelled tokeniser, and reading past the end gives the empty line, as `read_line` does at end of file.
- `wav::read`, `get_sample`, `play_wav_sample` and `test` in src/io/wav_reader.rs read files and are not modelled. The model starts from the decoded `BitDepth`. The 24-bit and 32-bit float variants are kept without their sample values.
- MIDI parsing is not modelled: `Smf::parse`, `list_tracks`, `play()` and the `println!` output. A reader starts from the header's timing and the already parsed tracks; event payloads are reduced to their kind.
- The `channels` vector of a MIDI reader is always empty and no operation uses it. The model keeps it empty and does not use it either.
- Floating point is not modelled. The `f32` duty of src/audio/voice.rs and src/synth/voice.rs is a `real`. The pulse width `(period as f32 * duty) as u32` is the exact floor, saturated at 0 and at the u32 maximum, with no `f32` rounding of `period` or of the product.
- `AudioChannel.ChannelState.NoteOn`: src/audio/channel.rs passes its `u32` duty to `Voice::set`, whose duty is `f32`. The model converts it exactly (`duty as real`).
- `NoiseChannel`, `FIRBandPassFilter`, `binary_to_bipolar` and `bipolar_to_binary` (src/synth/channel.rs) are not modelled: they are floating-point filters and random noise. src/synth/sampler.rs is left out for the same reason.
- src/audio/drum_machine.rs is an incomplete stub with a bodiless `get_sample`. src/bin/*.rs and `main()` in src/main.rs only wire the engine to the device; neither is modelled.
- `AMPLITUDE_MAX` / `AMPLITUDE_MIN` are used by src/synth.rs and src/utils.rs but never defined. The operations that need them take the two levels as parameters.
- `Score.PlayFile`, `Score.PlayFiles`, `AudioChannel.Channel.PlayFile`, `AudioSynth.Synth.PlayFiles`, `MainChannel.Channel.PlayFile` and `MainSynth.Synth.PlayFiles` run at most `fuel` iterations of the unbounded `loop`. A run that has not ended when the fuel runs out reports `Playing`.
- The state after a panic is not modelled. Where the source writes a field before it panics, the model reports the panic and leaves the state as it was. `voice_on` in src/main.rs is one case: it writes `freqs[i]` before `voice_set` divides by zero. `note_on` in src/synth/channel.rs is another: it pushes before its `panic!()`.
- Debug `println!` / `dbg!` calls carry no behaviour and are left out.
- SynthEngine.Synth.NoteOn: the engine is built on the corrected channel `note_on` (`SynthChannel.ChannelState.NoteOn`). As written, src/synth.rs:104-106 delegates to the `note_on` of src/synth/channel.rs, which always panics, so every engine `note_on` as written panics.

## Findings

| source | as written | input that shows it | evidently intended | confidence | as-written member | corrected member |
|---|---|---|---|---|---|---|
| src/synth/channel.rs:32-37 | after the guarded `push`, `note_on` reaches `panic!()` unconditionally, so it never returns | `note_on(440, 0.5)` on an empty pool | push the voice when there is room, and panic only when the pool is full | high (not executed) | SynthChannel.NoteOnAsWrittenPanics | SynthChannel.NoteOnThenOff |
| src/audio/synth.rs:91-93 | when a track reaches the end of its file, `break` leaves the loop over the tracks; the finished track's last cue stays due and is fired again on every later iteration | four tracks: track 0 is `0 440 0`, tracks 1 to 3 are `1 440 0`; track 0 ends first and breaks out on every iteration, so tracks 1 to 3 never have their notes turned on nor their files read past line 1, and the loop never ends | skip the finished track and keep serving the others; stop once every track is finished | high (not executed) | AudioSynth.StarvationExample | AudioSynth.FixedExample |
| src/audio/synth.rs:83-93 | the re-fired last cue of a finished track is a `note_on`, which takes one more voice of its channel every iteration | four tracks, each `1 440 0`: the fifth iteration finds channel 0's four voices taken and `note_on` panics | the same: a finished track fires nothing more | high (not executed) | AudioSynth.RefiredNoteOnCrashes | AudioSynth.FixedExample |
| src/main.rs:217-221 | the same `break` in the self-contained snapshot's `play_files` (duty 62, 220 000 buffers per second) | the same four tracks `0 440 0`, `1 440 0`, `1 440 0`, `1 440 0`: tracks 1 to 3 are never read past line 1 | the same | high (not executed) | MainSynth.StarvationExample | MainSynth.FixedExample |
| src/main.rs:209-221 | the same re-fired `voice_on` | four tracks, each `1 440 0`: the fifth iteration panics with every voice of channel 0 taken | the same | high (not executed) | MainSynth.RefiredNoteOnCrashes | MainSynth.FixedExample |
