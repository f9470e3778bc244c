/** The square-wave oscillator of the self-contained snapshot (src/main.rs):
    silenced by an `on` flag, with an integer duty in thousandths, and a phase
    counter that `voice_set` resets. */
module MainVoice {

  import opened Common
  import opened Arith
  import opened SquareWave
  import MainConfig

  /** `voice_set(freq, duty)` divides by `freq` and computes `period * duty`
      in u32: it needs a nonzero frequency and a product without overflow. */
  predicate CanSet(freq: u32, duty: u32)
  {
    freq > 0 && (MainConfig.SAMPLE_RATE / freq) * duty < U32_LIMIT
  }

  /** The pulse width of a period at a duty in thousandths, truncated. */
  function PulseWidth(period: nat, duty: nat): nat
  {
    period * duty / MainConfig.DUTY_MAX
  }

  /** The fields of a voice, and its operations as transitions on them. */
  datatype VoiceState = VoiceState(freq: u32, duty: u32, counter: nat, period: u32, waveform: u32, on: bool)
  {
    /** The counter stays within one period of the highest possible pitch, so
        `counter += 1` never overflows. */
    predicate Valid()
    {
      counter <= MainConfig.SAMPLE_RATE && period <= MainConfig.SAMPLE_RATE
    }

    /** `voice_set(freq, duty)`: every field is overwritten. */
    function Set(freq: u32, duty: u32): VoiceState
      requires CanSet(freq, duty)
    {
      var period := MainConfig.SAMPLE_RATE / freq;
      DivAtMost(period * duty, U32_LIMIT - 1, MainConfig.DUTY_MAX);
      VoiceState(freq, duty, 0, period, PulseWidth(period, duty), true)
    }

    /** `voice_unset()`. */
    function Unset(): VoiceState
    {
      this.(on := false)
    }

    /** `voice_out()`: the next state and the sample. */
    function Tick(): (VoiceState, bool)
    {
      (this.(counter := Advance(counter, period)), Level(counter, period, waveform))
    }

    /** `n` successive `voice_out()` calls: the final state and the samples. */
    function TickN(n: nat): (VoiceState, seq<bool>)
    {
      (this.(counter := After(counter, period, n)), Run(counter, period, waveform, n))
    }
  }

  /** `Voice::default()`: everything zero, switched off. */
  const Silent: VoiceState := VoiceState(0, 0, 0, 0, 0, false)

  /** A duty of at most `DUTY_MAX` thousandths gives a pulse no longer than the period. */
  lemma PulseWithinPeriod(period: nat, duty: nat)
    requires duty <= MainConfig.DUTY_MAX
    ensures PulseWidth(period, duty) <= period
  {
    MulMonotone(period, duty, MainConfig.DUTY_MAX);
    DivAtMost(period * duty, period, MainConfig.DUTY_MAX);
  }

  /** `voice_set(f, d)` switches the voice on with the truncated period
      `SAMPLE_RATE / f`, the pulse width `period * d / DUTY_MAX`, and the
      phase restarted at 0; nothing of the previous state survives. A duty
      within `DUTY_MAX` gives a pulse no longer than the period. */
  lemma SetTunes(v: VoiceState, w: VoiceState, freq: u32, duty: u32)
    requires CanSet(freq, duty)
    ensures var s := v.Set(freq, duty);
      && s.on && s.freq == freq && s.duty == duty && s.counter == 0
      && s.period == MainConfig.SAMPLE_RATE / freq && s.waveform == s.period * duty / MainConfig.DUTY_MAX
      && s.Valid() && (freq <= MainConfig.SAMPLE_RATE ==> 1 <= s.period) && (duty <= MainConfig.DUTY_MAX ==> s.waveform <= s.period)
      && s == w.Set(freq, duty)
  {
    if duty <= MainConfig.DUTY_MAX {
      PulseWithinPeriod(MainConfig.SAMPLE_RATE / freq, duty);
    }
  }

  /** Overflow of `period * duty` is the only failure of a nonzero frequency:
      a duty within `DUTY_MAX` can always be set. */
  lemma DutyWithinRangeCanSet(freq: u32, duty: u32)
    requires freq > 0 && duty <= MainConfig.DUTY_MAX
    ensures CanSet(freq, duty)
  {
    MulMonotone(MainConfig.SAMPLE_RATE / freq, duty, MainConfig.DUTY_MAX);
  }

  /** `voice_unset()` only clears the `on` flag: the tuning and phase survive. */
  lemma UnsetKeepsTuning(v: VoiceState)
    ensures var s := v.Unset();
      !s.on && s.freq == v.freq && s.duty == v.duty && s.period == v.period
      && s.waveform == v.waveform && s.counter == v.counter
  {
  }

  lemma {:induction false} AfterBound(counter: nat, period: nat, n: nat)
    requires counter <= MainConfig.SAMPLE_RATE && period <= MainConfig.SAMPLE_RATE
    ensures After(counter, period, n) <= MainConfig.SAMPLE_RATE
    decreases n
  {
    if n > 0 {
      AfterBound(Advance(counter, period), period, n - 1);
    }
  }

  /** Every operation keeps the counter and the period in range. */
  lemma OperationsKeepValid(v: VoiceState, n: nat)
    requires v.Valid()
    ensures v.Unset().Valid() && v.Tick().0.Valid() && v.TickN(n).0.Valid()
  {
    AfterBound(v.counter, v.period, n);
  }

  /** After a tick the counter is 0 or strictly inside the period; the wrap
      tick is low; any other tick is high exactly while the counter is below
      the pulse width; only the counter changes. */
  lemma TickLaw(v: VoiceState)
    ensures var (s, bit) := v.Tick();
      && (s.counter == 0 || 0 < s.counter < v.period)
      && (v.counter + 1 >= v.period ==> s.counter == 0 && !bit)
      && (v.counter + 1 < v.period ==> s.counter == v.counter + 1 && (bit <==> s.counter < v.waveform))
      && s.(counter := v.counter) == v
  {
  }

  /** Right after `voice_set` the voice is periodic with period `period`,
      and each cycle sounds on exactly its first `min(waveform, period) - 1`
      ticks: the phase does not depend on what the voice played before. */
  lemma SetShape(v: VoiceState, freq: u32, duty: u32, n: nat, k: nat)
    requires CanSet(freq, duty) && freq <= MainConfig.SAMPLE_RATE && k < n
    ensures var s := v.Set(freq, duty);
      && (s.TickN(n).1[k] <==> k % s.period + 1 < s.period && k % s.period + 1 < s.waveform)
      && CountHigh(s.TickN(s.period).1)
         == (if s.waveform <= 1 then 0 else (if s.waveform < s.period then s.waveform else s.period) - 1)
  {
    var s := v.Set(freq, duty);
    CycleShape(s.period, s.waveform, n, k);
    CycleHighCount(s.period, s.waveform);
  }

  /** A frequency above the sample rate gives a period of 0: the voice is
      on but every tick wraps, so it stays silent. */
  lemma {:induction false} SetAboveRateSilent(v: VoiceState, freq: u32, duty: u32, n: nat)
    requires CanSet(freq, duty) && freq > MainConfig.SAMPLE_RATE
    ensures v.Set(freq, duty).on && v.Set(freq, duty).period == 0
    ensures v.Set(freq, duty).TickN(n).1 == seq(n, _ => false)
  {
    ModUnique(MainConfig.SAMPLE_RATE, freq, 0, MainConfig.SAMPLE_RATE);
    var s := v.Set(freq, duty);
    ShortPeriodRun(s.counter, s.period, s.waveform, n);
  }

  /** `n + 1` ticks are one tick followed by `n` ticks. */
  lemma {:induction false} TickNUnfold(v: VoiceState, n: nat)
    ensures v.TickN(n + 1).0 == v.Tick().0.TickN(n).0
    ensures v.TickN(n + 1).1 == [v.Tick().1] + v.Tick().0.TickN(n).1
  {
  }

  /** A voice as an object whose methods update its fields in place. */
  class Voice {
    var freq: u32
    var duty: u32
    var counter: u32
    var period: u32
    var waveform: u32
    var on: bool

    ghost function State(): VoiceState
      reads this
    {
      VoiceState(freq, duty, counter, period, waveform, on)
    }

    ghost predicate Valid()
      reads this
    {
      State().Valid()
    }

    /** `Voice::default()`. */
    constructor ()
      ensures Valid() && State() == Silent
    {
      freq, duty, counter, period, waveform, on := 0, 0, 0, 0, 0, false;
    }

    /** `voice_set(freq, duty)`. */
    method Set(freq: u32, duty: u32)
      requires CanSet(freq, duty)
      modifies this
      ensures Valid() && State() == old(State()).Set(freq, duty)
    {
      this.freq := freq;
      this.duty := duty;
      this.counter := 0;
      this.period := MainConfig.SAMPLE_RATE / freq;
      DivAtMost(this.period * duty, U32_LIMIT - 1, MainConfig.DUTY_MAX);
      this.waveform := this.period * duty / MainConfig.DUTY_MAX;
      this.on := true;
    }

    /** `voice_unset()`. */
    method Unset()
      modifies this
      ensures State() == old(State()).Unset()
    {
      on := false;
    }

    /** `voice_out()`. */
    method Out() returns (bit: bool)
      requires Valid()
      modifies this
      ensures Valid() && (State(), bit) == old(State()).Tick()
    {
      counter := counter + 1;
      if counter >= period {
        counter := 0;
        bit := false;
      } else if counter < waveform {
        bit := true;
      } else {
        bit := false;
      }
    }

    /** `voice_out_buffer()`: `BUFFER_SIZE` ticks written into a fresh buffer. */
    method OutBuffer() returns (samples: seq<bool>)
      requires Valid()
      modifies this
      ensures Valid() && (State(), samples) == old(State()).TickN(MainConfig.BUFFER_SIZE)
    {
      var buffer := new bool[MainConfig.BUFFER_SIZE](_ => false);
      ghost var c0 := counter;
      for i := 0 to MainConfig.BUFFER_SIZE
        invariant counter == After(c0, period, i) && counter <= MainConfig.SAMPLE_RATE
        invariant buffer[..i] == Run(c0, period, waveform, i)
        invariant forall j :: i <= j < buffer.Length ==> !buffer[j]
        invariant freq == old(freq) && duty == old(duty) && period == old(period)
        invariant waveform == old(waveform) && on == old(on)
      {
        RunSnoc(c0, period, waveform, i);
        counter := counter + 1;
        if counter >= period {
          counter := 0;
        } else if counter < waveform {
          buffer[i] := true;
        } else {
          buffer[i] := false;
        }
        assert buffer[..i + 1] == buffer[..i] + [buffer[i]];
      }
      assert buffer[..] == buffer[..MainConfig.BUFFER_SIZE];
      samples := buffer[..];
    }
  }
}
