/** The square-wave oscillator of src/synth/voice.rs. It has no `on` flag: a
    period of 0 is what silences it, and `set(0, _)` and `unset()` both
    produce it. */
module SynthVoice {

  import opened Common
  import opened SquareWave
  import Lib
  import AudioVoice

  /** The fields of a voice, and its operations as transitions on them. */
  datatype VoiceState = VoiceState(freq: u32, duty: real, counter: nat, period: u32, waveform: u32)
  {
    /** The counter stays within one period of the highest possible pitch, so
        `counter += 1` never overflows. */
    predicate Valid()
    {
      counter <= Lib.SAMPLE_RATE && period <= Lib.SAMPLE_RATE
    }

    /** `set(freq, duty)`. */
    function Set(freq: u32, duty: real): VoiceState
    {
      if freq == 0 then this.(freq := 0, period := 0)
      else
        var period := Lib.SAMPLE_RATE / freq;
        this.(freq := freq, duty := duty, period := period, waveform := AudioVoice.PulseWidth(period, duty))
    }

    /** `unset()`. */
    function Unset(): VoiceState
    {
      this.(freq := 0, period := 0)
    }

    /** `out()`: the next state and the sample. */
    function Tick(): (VoiceState, bool)
    {
      (this.(counter := Advance(counter, period)), Level(counter, period, waveform))
    }

    /** `n` successive `out()` calls: the final state and the samples. */
    function TickN(n: nat): (VoiceState, seq<bool>)
    {
      (this.(counter := After(counter, period, n)), Run(counter, period, waveform, n))
    }
  }

  /** `Voice::new(freq, duty)`; `SAMPLE_RATE / freq` needs `freq > 0`. */
  function New(freq: u32, duty: real): VoiceState
    requires freq > 0
  {
    var period := Lib.SAMPLE_RATE / freq;
    VoiceState(freq, duty, 0, period, AudioVoice.PulseWidth(period, duty))
  }

  /** A new voice is any voice `set` to the same note with its counter reset:
      it starts a fresh cycle of period `SAMPLE_RATE / freq`. */
  lemma NewIsResetSet(v: VoiceState, freq: u32, duty: real)
    requires freq > 0
    ensures New(freq, duty) == v.Set(freq, duty).(counter := 0)
    ensures New(freq, duty).Valid() && New(freq, duty).period == Lib.SAMPLE_RATE / freq
    ensures freq <= Lib.SAMPLE_RATE ==> New(freq, duty).period >= 1
  {
  }

  /** `set(0, d)` is `unset()`: the frequency and period become 0 while the
      duty, the pulse width and the phase are kept. */
  lemma SetZeroIsUnset(v: VoiceState, duty: real)
    ensures v.Set(0, duty) == v.Unset()
    ensures var u := v.Unset();
      u.freq == 0 && u.period == 0 && u.duty == v.duty && u.waveform == v.waveform && u.counter == v.counter
  {
  }

  /** `set(f, d)` with `f > 0` retunes the voice without touching its phase. */
  lemma SetKeepsPhase(v: VoiceState, freq: u32, duty: real)
    requires freq > 0
    ensures var s := v.Set(freq, duty);
      s.freq == freq && s.duty == duty && s.period == Lib.SAMPLE_RATE / freq && s.counter == v.counter
      && (0.0 <= duty <= 1.0 ==> s.waveform <= s.period)
  {
  }

  /** A voice with period 0 is silent: any number of ticks yields only low
      samples, and the counter stays at (or drops to) 0. */
  lemma SilentVoice(v: VoiceState, n: nat)
    requires v.period == 0
    ensures v.TickN(n).1 == seq(n, _ => false)
    ensures n > 0 ==> v.TickN(n).0.counter == 0
    ensures v.Tick() == (v.(counter := 0), false)
  {
    ShortPeriodRun(v.counter, v.period, v.waveform, n);
  }

  /** Every operation keeps the counter and the period in range. */
  lemma {:induction false} OperationsKeepValid(v: VoiceState, freq: u32, duty: real, n: nat)
    requires v.Valid()
    ensures v.Set(freq, duty).Valid() && v.Unset().Valid() && v.Tick().0.Valid() && v.TickN(n).0.Valid()
  {
    AudioVoice.AfterBound(v.counter, v.period, n);
  }

  /** `n + 1` ticks are one tick followed by `n` ticks. */
  lemma TickNUnfold(v: VoiceState, n: nat)
    ensures v.TickN(n + 1).0 == v.Tick().0.TickN(n).0
    ensures v.TickN(n + 1).1 == [v.Tick().1] + v.Tick().0.TickN(n).1
  {
  }

  /** A voice as an object whose methods update its fields in place. */
  class Voice {
    var freq: u32
    var duty: real
    var counter: u32
    var period: u32
    var waveform: u32

    ghost function State(): VoiceState
      reads this
    {
      VoiceState(freq, duty, counter, period, waveform)
    }

    ghost predicate Valid()
      reads this
    {
      State().Valid()
    }

    /** `Voice::new(freq, duty)`. */
    constructor (freq: u32, duty: real)
      requires freq > 0
      ensures Valid() && State() == New(freq, duty)
    {
      var period := Lib.SAMPLE_RATE / freq;
      this.freq, this.duty, this.counter := freq, duty, 0;
      this.period, this.waveform := period, AudioVoice.PulseWidth(period, duty);
    }

    method Freq() returns (f: u32)
      ensures f == State().freq
    {
      f := freq;
    }

    method Duty() returns (d: real)
      ensures d == State().duty
    {
      d := duty;
    }

    /** `set(freq, duty)`. */
    method Set(freq: u32, duty: real)
      requires Valid()
      modifies this
      ensures Valid() && State() == old(State()).Set(freq, duty)
    {
      if freq == 0 {
        this.freq := 0;
        this.period := 0;
      } else {
        this.freq := freq;
        this.duty := duty;
        this.period := Lib.SAMPLE_RATE / freq;
        this.waveform := AudioVoice.PulseWidth(this.period, duty);
      }
    }

    /** `unset()`. */
    method Unset()
      modifies this
      ensures State() == old(State()).Unset()
    {
      freq := 0;
      period := 0;
    }

    /** `out()`. */
    method Out() returns (bit: bool)
      requires Valid()
      modifies this
      ensures Valid() && (State(), bit) == old(State()).Tick()
    {
      var next := counter + 1;
      if next >= period {
        counter := 0;
        bit := false;
      } else if next < waveform {
        counter := next;
        bit := true;
      } else {
        counter := next;
        bit := false;
      }
    }

    /** `out_buffer()`: `BUFFER_SIZE` ticks written into a fresh buffer. */
    method OutBuffer() returns (samples: seq<bool>)
      requires Valid()
      modifies this
      ensures Valid() && (State(), samples) == old(State()).TickN(Lib.BUFFER_SIZE)
    {
      var buffer := new bool[Lib.BUFFER_SIZE](_ => false);
      ghost var c0 := counter;
      for i := 0 to Lib.BUFFER_SIZE
        invariant counter == After(c0, period, i) && counter <= Lib.SAMPLE_RATE
        invariant buffer[..i] == Run(c0, period, waveform, i)
        invariant forall j :: i <= j < buffer.Length ==> !buffer[j]
        invariant freq == old(freq) && duty == old(duty) && period == old(period) && waveform == old(waveform)
      {
        RunSnoc(c0, period, waveform, i);
        var next := counter + 1;
        if next >= period {
          counter := 0;
        } else if next < waveform {
          counter := next;
          buffer[i] := true;
        } else {
          counter := next;
          buffer[i] := false;
        }
        assert buffer[..i + 1] == buffer[..i] + [buffer[i]];
      }
      assert buffer[..] == buffer[..Lib.BUFFER_SIZE];
      samples := buffer[..];
    }
  }
}
