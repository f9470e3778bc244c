/** The drum machine of src/synth/drum_machine.rs: a drum voice plays its
    recorded one-bit sample once per hit, and the machine multiplexes its
    voices round-robin, one output sample per voice in turn. */
module DrumMachine {

  import opened Common
  import opened Arith

  /** The fields of a drum voice. */
  datatype DrumState = DrumState(sample: seq<bool>, counter: nat, onHit: bool)
  {
    /** While a hit is playing, the counter points into the sample. */
    predicate Valid()
    {
      onHit ==> counter < |sample|
    }

    /** `hit()`: playback restarts from the beginning, whatever was playing. */
    function Hit(): DrumState
    {
      this.(counter := 0, onHit := true)
    }

    /** `get_sample()`: while a hit plays, the sample under the counter, the
        counter moving on and the hit ending after the last sample; otherwise
        false. Indexing past the end panics. */
    function Tick(): Outcome<(DrumState, bool)>
    {
      if !onHit then Value((this, false))
      else if counter >= |sample| then Panic
      else Value((this.(counter := counter + 1, onHit := counter + 1 < |sample|), sample[counter]))
    }

    /** `n` successive `get_sample()` calls on a valid voice. */
    function Play(n: nat): (r: (DrumState, seq<bool>))
      requires Valid()
      ensures r.0.Valid() && r.0.sample == sample && |r.1| == n
      decreases n
    {
      if n == 0 then (this, [])
      else
        var (d, bit) := Tick().value;
        var (d', bits) := d.Play(n - 1);
        (d', [bit] + bits)
    }
  }

  /** `DrumVoice::new(sample)`: loaded, not playing. */
  function NewVoice(sample: seq<bool>): (d: DrumState)
    ensures d.Valid()
  {
    DrumState(sample, 0, false)
  }

  /** A hit keeps a voice valid exactly when its sample is not empty; a valid
      voice never panics, and one step keeps it valid. */
  lemma TickLaw(d: DrumState)
    ensures d.Hit().Valid() <==> |d.sample| > 0
    ensures d.Hit().counter == 0 && d.Hit().onHit && d.Hit().sample == d.sample
    ensures d.Valid() ==> d.Tick().Value? && d.Tick().value.0.Valid()
    ensures d.Valid() && d.onHit ==> d.Tick().value.1 == d.sample[d.counter]
    ensures !d.onHit ==> d.Tick() == Value((d, false))
    ensures d.Hit().Tick().Panic? <==> |d.sample| == 0
  {
  }

  /** From a valid playing position, the next `n` samples of the recording
      come out in order, as long as the recording lasts. */
  lemma {:induction false} PlaysInOrder(d: DrumState, n: nat)
    requires d.Valid() && d.onHit && d.counter + n <= |d.sample|
    ensures d.Play(n).1 == d.sample[d.counter..d.counter + n]
    ensures d.Play(n).0.counter == d.counter + n
    ensures d.Play(n).0.onHit <==> d.counter + n < |d.sample|
    decreases n
  {
    if n > 0 {
      var d1 := d.Tick().value.0;
      if n > 1 {
        PlaysInOrder(d1, n - 1);
        assert d.sample[d.counter..d.counter + n] == [d.sample[d.counter]] + d1.sample[d1.counter..d1.counter + n - 1];
      } else {
        assert d1.Play(0).1 == [];
      }
    }
  }

  /** A voice that is not playing stays silent and unchanged. */
  lemma {:induction false} IdleStaysSilent(d: DrumState, n: nat)
    requires !d.onHit
    ensures d.Play(n) == (d, seq(n, _ => false))
    decreases n
  {
    if n == 0 {
      assert seq(0, _ => false) == [];
    } else {
      assert d.Tick() == Value((d, false));
      IdleStaysSilent(d, n - 1);
      assert [false] + seq(n - 1, _ => false) == seq(n, _ => false);
    }
  }

  /** A hit on a non-empty recording plays it exactly once: its first `|sample|`
      samples are the recording, after which the voice is silent and stays
      where it is. */
  lemma HitPlaysOnce(d: DrumState, m: nat)
    requires |d.sample| > 0
    ensures var (d1, bits) := d.Hit().Play(|d.sample|);
      bits == d.sample && !d1.onHit && d1.Play(m) == (d1, seq(m, _ => false))
  {
    var h := d.Hit();
    PlaysInOrder(h, |h.sample|);
    assert h.sample[0..|h.sample|] == h.sample;
    IdleStaysSilent(h.Play(|h.sample|).0, m);
  }

  /** The fields of a drum machine: its voices, held by value, and the cursor. */
  datatype MachineState = MachineState(voices: seq<DrumState>, current: nat)
  {
    /** The cursor is in range once a voice is loaded, and no voice panics. */
    predicate Inv()
    {
      (|voices| > 0 ==> current < |voices|) && forall i :: 0 <= i < |voices| ==> voices[i].Valid()
    }

    /** `load_voice(voice)`: the voice is appended, then the FIRST voice is hit. */
    function LoadVoice(v: DrumState): MachineState
    {
      var vs := voices + [v];
      this.(voices := vs[0 := vs[0].Hit()])
    }

    /** `get_sample()`: with no voice, false and nothing changes; otherwise
        every voice takes one step, the output is the sample of the voice
        under the cursor, and the cursor moves on. Any voice past the end of
        its recording panics. */
    function Tick(): Outcome<(MachineState, bool)>
    {
      if |voices| == 0 then Value((this, false))
      else if exists i :: 0 <= i < |voices| && voices[i].Tick().Panic? then Panic
      else
        Value((this.(voices := seq(|voices|, i requires 0 <= i < |voices| => voices[i].Tick().value.0),
                     current := (current + 1) % |voices|),
               current < |voices| && voices[current].Tick().value.1))
    }
  }

  /** `DrumMachine::new()`. */
  function Empty(): (m: MachineState)
    ensures m.Inv()
  {
    MachineState([], 0)
  }

  /** An empty machine is silent and stays empty. */
  lemma EmptyIsSilent(m: MachineState)
    requires m.voices == []
    ensures m.Tick() == Value((m, false))
  {
  }

  /** Loading keeps every voice already loaded except the first, which is
      restarted; the new voice goes last (restarted only when it is the
      first); the cursor does not move, and the machine stays consistent when
      the new voice is valid and the first voice has a non-empty recording. */
  lemma LoadVoiceLaw(m: MachineState, v: DrumState)
    requires m.Inv() && v.Valid()
    ensures var m' := m.LoadVoice(v);
      |m'.voices| == |m.voices| + 1 && m'.current == m.current
      && m'.voices[0] == (if m.voices == [] then v else m.voices[0]).Hit()
      && (m.voices != [] ==> m'.voices[|m.voices|] == v)
      && (forall i :: 1 <= i < |m.voices| ==> m'.voices[i] == m.voices[i])
      && (m'.Inv() <==> |m'.voices[0].sample| > 0 && (m.voices == [] ==> m.current == 0))
  {
  }

  /** On a consistent machine `get_sample` never panics, keeps it consistent,
      outputs the next sample of the voice under the cursor and advances the
      cursor by one, modulo the number of voices. */
  lemma TickLawMachine(m: MachineState)
    requires m.Inv()
    ensures m.Tick().Value?
    ensures m.voices != [] ==>
      var (m', bit) := m.Tick().value;
      m'.Inv() && |m'.voices| == |m.voices| && m'.current == (m.current + 1) % |m.voices|
      && bit == m.voices[m.current].Tick().value.1
      && forall i :: 0 <= i < |m.voices| ==> m'.voices[i] == m.voices[i].Tick().value.0
  {
    if m.voices != [] {
      forall i | 0 <= i < |m.voices|
        ensures m.voices[i].Tick().Value? && m.voices[i].Tick().value.0.Valid()
      {
        TickLaw(m.voices[i]);
      }
    }
  }

  /** The voices after the first `i` of them have taken one step. */
  function StepsUpTo(voices: seq<DrumState>, i: nat): seq<DrumState>
    requires forall j :: 0 <= j < i && j < |voices| ==> voices[j].Tick().Value?
  {
    seq(|voices|, j requires 0 <= j < |voices| => if j < i then voices[j].Tick().value.0 else voices[j])
  }

  /** A drum voice as an object whose methods update its fields in place. */
  class DrumVoice {
    const sample: seq<bool>
    var counter: nat
    var onHit: bool

    ghost function State(): DrumState
      reads this
    {
      DrumState(sample, counter, onHit)
    }

    /** `DrumVoice::new(sample)`. */
    constructor (sample: seq<bool>)
      ensures State() == NewVoice(sample)
    {
      this.sample := sample;
      counter, onHit := 0, false;
    }

    /** `hit()`. */
    method Hit()
      modifies this
      ensures State() == old(State()).Hit()
    {
      counter := 0;
      onHit := true;
    }

    /** `get_sample()`. */
    method GetSample() returns (status: Status, out: bool)
      modifies this
      ensures match old(State()).Tick()
        case Panic => status == Panicked
        case Value(r) => status == Returned && (State(), out) == r
    {
      status, out := Returned, false;
      if onHit {
        if counter >= |sample| {
          return Panicked, false;
        }
        out := sample[counter];
        counter := counter + 1;
        if counter >= |sample| {
          onHit := false;
        }
      }
    }
  }

  /** A drum machine object: the voices are a vector of values the methods replace. */
  class Machine {
    var voices: seq<DrumState>
    var current: nat

    ghost function State(): MachineState
      reads this
    {
      MachineState(voices, current)
    }

    /** `DrumMachine::new()`. */
    constructor ()
      ensures State() == Empty()
    {
      voices, current := [], 0;
    }

    /** `load_voice(voice)`. */
    method LoadVoice(v: DrumState)
      modifies this
      ensures State() == old(State()).LoadVoice(v)
    {
      voices := voices + [v];
      voices := voices[0 := voices[0].Hit()];
    }

    /** `get_sample()`. */
    method GetSample() returns (status: Status, out: bool)
      modifies this
      ensures match old(State()).Tick()
        case Panic => status == Panicked
        case Value(r) => status == Returned && (State(), out) == r
    {
      ghost var m := State();
      status, out := Returned, false;
      if |voices| > 0 {
        for i := 0 to |voices|
          invariant |voices| == |m.voices| && current == m.current
          invariant forall j :: 0 <= j < i ==> m.voices[j].Tick().Value?
          invariant voices == StepsUpTo(m.voices, i)
          invariant out == (m.current < i && m.voices[m.current].Tick().value.1)
        {
          assert voices[i] == m.voices[i];
          var r := voices[i].Tick();
          if r.Panic? {
            return Panicked, false;
          }
          voices := voices[i := r.value.0];
          if i == current {
            out := r.value.1;
          }
        }
        assert voices == m.Tick().value.0.voices;
        current := (current + 1) % |voices|;
      }
    }
  }
}
