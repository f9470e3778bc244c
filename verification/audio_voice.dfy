/** The square-wave oscillator of src/audio/voice.rs: silenced by an `on`
    flag, with an `f32` duty cycle and a phase counter that `set` does not reset. */
module AudioVoice {

  import opened Common
  import opened SquareWave
  import Lib

  /** `(period as f32 * duty) as u32`, computed over the reals: the product is
      truncated and saturated to the u32 range as Rust's float-to-int cast does. */
  function PulseWidth(period: nat, duty: real): (w: u32)
    ensures 0.0 <= duty <= 1.0 ==> w <= period
    ensures duty <= 0.0 ==> w == 0
  {
    var x := (period as real * duty).Floor;
    assert 0.0 <= duty <= 1.0 ==> x <= period by {
      if 0.0 <= duty <= 1.0 {
        FloorAtMost(period, duty);
      }
    }
    assert duty <= 0.0 ==> x <= 0 by {
      if duty <= 0.0 {
        FloorNonPositive(period, duty);
      }
    }
    if x <= 0 then 0 else if x >= U32_LIMIT then U32_LIMIT - 1 else x
  }

  lemma FloorAtMost(p: nat, d: real)
    requires 0.0 <= d <= 1.0
    ensures (p as real * d).Floor <= p
  {
    var r := p as real * d;
    assert p as real * (1.0 - d) >= 0.0;
    assert r == p as real - p as real * (1.0 - d);
    assert r.Floor as real <= r;
  }

  lemma FloorNonPositive(p: nat, d: real)
    requires d <= 0.0
    ensures (p as real * d).Floor <= 0
  {
    var e := 0.0 - d;
    assert p as real * e >= 0.0;
    assert p as real * d == 0.0 - p as real * e;
  }

  /** The fields of a voice, and its operations as transitions on them. */
  datatype VoiceState = VoiceState(freq: u32, duty: real, counter: nat, period: u32, waveform: u32, on: bool)
  {
    /** The counter stays within one period of the highest possible pitch, so
        `counter += 1` never overflows. */
    predicate Valid()
    {
      counter <= Lib.SAMPLE_RATE && period <= Lib.SAMPLE_RATE
    }

    /** `set(freq, duty)`. */
    function Set(freq: u32, duty: real): VoiceState
    {
      if freq == 0 then this.(freq := 0, period := 0, on := false)
      else
        var period := Lib.SAMPLE_RATE / freq;
        this.(freq := freq, duty := duty, period := period, waveform := PulseWidth(period, duty), on := true)
    }

    /** `unset()`. */
    function Unset(): VoiceState
    {
      this.(on := false)
    }

    /** `out()`: the next state and the sample. */
    function Tick(): (VoiceState, bool)
    {
      (this.(counter := Advance(counter, period)), Level(counter, period, waveform))
    }

    /** `n` successive `out()` calls: the final state and the samples. */
    function TickN(n: nat): (VoiceState, seq<bool>)
    {
      (this.(counter := After(counter, period, n)), Run(counter, period, waveform, n))
    }
  }

  /** `Voice::default()`: everything zero, switched off. */
  const Silent: VoiceState := VoiceState(0, 0.0, 0, 0, 0, false)

  lemma {:induction false} AfterBound(counter: nat, period: nat, n: nat)
    requires counter <= Lib.SAMPLE_RATE && period <= Lib.SAMPLE_RATE
    ensures After(counter, period, n) <= Lib.SAMPLE_RATE
    decreases n
  {
    if n > 0 {
      AfterBound(Advance(counter, period), period, n - 1);
    }
  }

  /** Every operation keeps the counter and the period in range. */
  lemma OperationsKeepValid(v: VoiceState, freq: u32, duty: real, n: nat)
    requires v.Valid()
    ensures v.Set(freq, duty).Valid() && v.Unset().Valid() && v.Tick().0.Valid() && v.TickN(n).0.Valid()
  {
    AfterBound(v.counter, v.period, n);
  }

  /** `set(0, d)` silences the voice and forgets its period, keeping the duty,
      the pulse width and the phase. */
  lemma SetZeroSilences(v: VoiceState, duty: real)
    ensures var s := v.Set(0, duty);
      s.freq == 0 && s.period == 0 && !s.on && s.duty == v.duty && s.waveform == v.waveform && s.counter == v.counter
  {
  }

  /** `set(f, d)` with `f > 0` switches the voice on with the truncated period
      `SAMPLE_RATE / f`, a pulse width no longer than the period for a duty in
      [0, 1], and the phase left where it was. */
  lemma SetTunes(v: VoiceState, freq: u32, duty: real)
    requires freq > 0
    ensures var s := v.Set(freq, duty);
      && s.on && s.freq == freq && s.duty == duty && s.period == Lib.SAMPLE_RATE / freq
      && s.counter == v.counter
      && (0.0 <= duty <= 1.0 ==> s.waveform <= s.period)
      && s.period <= Lib.SAMPLE_RATE && (freq <= Lib.SAMPLE_RATE ==> 1 <= s.period)
  {
  }

  /** `unset()` only clears the `on` flag: the tuning survives. */
  lemma UnsetKeepsTuning(v: VoiceState)
    ensures var s := v.Unset();
      !s.on && s.freq == v.freq && s.duty == v.duty && s.period == v.period
      && s.waveform == v.waveform && s.counter == v.counter
  {
  }

  /** After a tick the counter is 0 or strictly inside the period; the wrap
      tick is low; any other tick is high exactly while the counter is below
      the pulse width; a period of at most one sample is always low. */
  lemma TickLaw(v: VoiceState)
    ensures var (s, bit) := v.Tick();
      && (s.counter == 0 || 0 < s.counter < v.period)
      && (v.counter + 1 >= v.period ==> s.counter == 0 && !bit)
      && (v.counter + 1 < v.period ==> s.counter == v.counter + 1 && (bit <==> s.counter < v.waveform))
      && (v.period <= 1 ==> !bit)
      && s.(counter := v.counter) == v
  {
  }

  /** Starting from a reset counter, a sounding voice is periodic with period
      `period` and sounds on exactly the first `min(waveform, period) - 1`
      ticks of each cycle. */
  lemma {:induction false} ResetVoiceShape(v: VoiceState, n: nat, k: nat)
    requires v.Valid() && v.counter == 0 && v.period >= 1 && k < n
    ensures v.TickN(n).1[k] <==> k % v.period + 1 < v.period && k % v.period + 1 < v.waveform
    ensures CountHigh(v.TickN(v.period).1)
            == (if v.waveform <= 1 then 0 else (if v.waveform < v.period then v.waveform else v.period) - 1)
  {
    CycleShape(v.period, v.waveform, n, k);
    CycleHighCount(v.period, v.waveform);
  }

  /** `n + 1` ticks are one tick followed by `n` ticks. */
  lemma {:induction false} TickNUnfold(v: VoiceState, n: nat)
    ensures v.TickN(n + 1).0 == v.Tick().0.TickN(n).0
    ensures v.TickN(n + 1).1 == [v.Tick().1] + v.Tick().0.TickN(n).1
  {
  }

  /** A voice as an object whose methods update its fields in place. */
  class Voice {
    var freq: u32
    var duty: real
    var counter: u32
    var period: u32
    var waveform: u32
    var on: bool

    ghost function State(): VoiceState
      reads this
    {
      VoiceState(freq, duty, counter, period, waveform, on)
    }

    ghost predicate Valid()
      reads this
    {
      State().Valid()
    }

    /** `Voice::default()`. */
    constructor Default()
      ensures Valid() && State() == Silent
    {
      freq, duty, counter, period, waveform, on := 0, 0.0, 0, 0, 0, false;
    }

    /** `Voice::new(freq, duty)`: `SAMPLE_RATE / freq` needs `freq > 0`. */
    constructor New(freq: u32, duty: real)
      requires freq > 0
      ensures Valid() && State() == Silent.Set(freq, duty)
    {
      var period := Lib.SAMPLE_RATE / freq;
      this.freq, this.duty, this.counter := freq, duty, 0;
      this.period, this.waveform, this.on := period, PulseWidth(period, duty), true;
    }

    method Freq() returns (f: u32)
      ensures f == freq
    {
      f := freq;
    }

    method Duty() returns (d: real)
      ensures d == duty
    {
      d := duty;
    }

    method IsOn() returns (b: bool)
      ensures b == on
    {
      b := on;
    }

    /** `set(freq, duty)`. */
    method Set(freq: u32, duty: real)
      requires Valid()
      modifies this
      ensures Valid() && State() == old(State()).Set(freq, duty)
    {
      if freq == 0 {
        this.freq := 0;
        this.period := 0;
        this.on := false;
      } else {
        this.freq := freq;
        this.duty := duty;
        this.period := Lib.SAMPLE_RATE / freq;
        this.waveform := PulseWidth(this.period, duty);
        this.on := true;
      }
    }

    /** `unset()`. */
    method Unset()
      modifies this
      ensures State() == old(State()).Unset()
    {
      on := false;
    }

    /** `out()`. */
    method Out() returns (bit: bool)
      requires Valid()
      modifies this
      ensures Valid() && (State(), bit) == old(State()).Tick()
    {
      var next := counter + 1;
      if next >= period {
        counter := 0;
        bit := false;
      } else if next < waveform {
        counter := next;
        bit := true;
      } else {
        counter := next;
        bit := false;
      }
    }

    /** `out_buffer()`: `BUFFER_SIZE` ticks written into a fresh buffer. */
    method OutBuffer() returns (samples: seq<bool>)
      requires Valid()
      modifies this
      ensures Valid() && (State(), samples) == old(State()).TickN(Lib.BUFFER_SIZE)
    {
      var buffer := new bool[Lib.BUFFER_SIZE](_ => false);
      ghost var c0 := counter;
      for i := 0 to Lib.BUFFER_SIZE
        invariant counter == After(c0, period, i) && counter <= Lib.SAMPLE_RATE
        invariant buffer[..i] == Run(c0, period, waveform, i)
        invariant forall j :: i <= j < buffer.Length ==> !buffer[j]
        invariant freq == old(freq) && duty == old(duty) && period == old(period)
        invariant waveform == old(waveform) && on == old(on)
      {
        RunSnoc(c0, period, waveform, i);
        var next := counter + 1;
        if next >= period {
          counter := 0;
        } else if next < waveform {
          counter := next;
          buffer[i] := true;
        } else {
          counter := next;
          buffer[i] := false;
        }
        assert buffer[..i + 1] == buffer[..i] + [buffer[i]];
      }
      assert buffer[..] == buffer[..Lib.BUFFER_SIZE];
      samples := buffer[..];
    }
  }
}
