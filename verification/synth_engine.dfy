/** The synthesizer of the `src/synth` snapshot (src/synth.rs): `CHANNELS_MAX`
    pools combined by the Pulse Interleaving Method, with samples delivered
    either as bits or as the output levels `AMPLITUDE_MAX` / `AMPLITUDE_MIN`. */
module SynthEngine {

  import opened Common
  import opened Arith
  import Lib
  import RoundRobin
  import opened SynthVoice
  import SynthChannel

  /** One sample of one pool, as a function value. */
  function PoolTick(voices: seq<VoiceState>): (seq<VoiceState>, bool)
  {
    SynthChannel.Tick(voices)
  }

  /** The output level of a bit. */
  function Level(bit: bool, high: u8, low: u8): u8
  {
    if bit then high else low
  }

  /** The fields of a synthesizer: the pool of every channel and both cursors. */
  datatype EngineState = EngineState(channels: seq<seq<VoiceState>>, current: nat, selected: nat)
  {
    predicate Inv()
    {
      |channels| == Lib.CHANNELS_MAX && current < Lib.CHANNELS_MAX && selected < Lib.CHANNELS_MAX
      && forall i :: 0 <= i < |channels| ==> SynthChannel.PoolValid(channels[i])
    }

    /** `get_sample_bool()`: every channel produces a sample, the one under the
        cursor is the output, and the cursor moves on. */
    function Out(): (EngineState, bool)
      requires |channels| == Lib.CHANNELS_MAX && current < Lib.CHANNELS_MAX
    {
      (this.(channels := RoundRobin.StepAll(PoolTick, channels), current := (current + 1) % Lib.CHANNELS_MAX),
       PoolTick(channels[current]).1)
    }

    /** `n` successive `get_sample_bool()` calls. */
    function Outs(n: nat): (r: (EngineState, seq<bool>))
      requires |channels| == Lib.CHANNELS_MAX && current < Lib.CHANNELS_MAX
      ensures |r.0.channels| == Lib.CHANNELS_MAX && r.0.current < Lib.CHANNELS_MAX && |r.1| == n
      decreases n
    {
      if n == 0 then (this, [])
      else
        var (s, bit) := Out();
        var (s', bits) := s.Outs(n - 1);
        (s', [bit] + bits)
    }

    /** `n` successive `get_sample()` calls. */
    function Samples(n: nat, high: u8, low: u8): (r: (EngineState, seq<u8>))
      requires |channels| == Lib.CHANNELS_MAX && current < Lib.CHANNELS_MAX
      decreases n
    {
      if n == 0 then (this, [])
      else
        var (s, bit) := Out();
        var (s', levels) := s.Samples(n - 1, high, low);
        (s', [Level(bit, high, low)] + levels)
    }

    /** `channel_select(i)`: an index out of range is refused. */
    function ChannelSelect(i: nat): EngineState
    {
      if i < Lib.CHANNELS_MAX then this.(selected := i) else this
    }

    /** `note_on(freq, duty, n)` on channel `n`; a channel index out of
        range is an index out of bounds. */
    function NoteOn(freq: u32, duty: real, n: nat): Outcome<EngineState>
    {
      if n >= |channels| then Panic
      else
        match SynthChannel.NoteOnOutcome(channels[n], freq, duty)
        case Panic => Panic
        case Value(vs) => Value(this.(channels := channels[n := vs]))
    }

    /** `note_off(freq, n)` on channel `n`; a channel index out of range is
        an index out of bounds. */
    function NoteOff(freq: u32, n: nat): Outcome<EngineState>
    {
      if n >= |channels| then Panic
      else Value(this.(channels := channels[n := SynthChannel.Without(channels[n], freq)]))
    }
  }

  /** `Synth::new()`: `CHANNELS_MAX` empty pools, both cursors at 0. */
  function Start(): (s: EngineState)
    ensures s.Inv()
  {
    EngineState(seq(Lib.CHANNELS_MAX, _ => []), 0, 0)
  }

  /** A synthesizer with no voice anywhere stays that way and is silent. */
  lemma {:induction false} StartIsSilent(s: EngineState, n: nat)
    requires s.Inv() && forall i :: 0 <= i < |s.channels| ==> s.channels[i] == []
    ensures s.Outs(n).1 == seq(n, _ => false)
    ensures forall i :: 0 <= i < Lib.CHANNELS_MAX ==> s.Outs(n).0.channels[i] == []
    decreases n
  {
    if n > 0 {
      var (s1, bit) := s.Out();
      assert !bit;
      forall i | 0 <= i < Lib.CHANNELS_MAX
        ensures s1.channels[i] == []
      {
        assert PoolTick(s.channels[i]).0 == [];
      }
      StartIsSilent(s1, n - 1);
    }
  }

  /** `get_sample` is `get_sample_bool` followed by the choice of a level:
      the same state change, `AMPLITUDE_MAX` exactly for a high bit. */
  lemma {:induction false} SamplesAreLevels(s: EngineState, n: nat, high: u8, low: u8)
    requires |s.channels| == Lib.CHANNELS_MAX && s.current < Lib.CHANNELS_MAX
    ensures s.Samples(n, high, low).0 == s.Outs(n).0
    ensures s.Samples(n, high, low).1 == seq(n, k requires 0 <= k < n => Level(s.Outs(n).1[k], high, low))
    decreases n
  {
    if n > 0 {
      SamplesAreLevels(s.Out().0, n - 1, high, low);
    }
  }

  /** `n` samples are the round-robin interleaving of the channels: all of
      them advance `n` steps, and sample `k` comes from channel
      `(current + k) % CHANNELS_MAX` (see `RoundRobin.Window`). */
  lemma {:induction false} OutsRun(s: EngineState, n: nat)
    requires |s.channels| == Lib.CHANNELS_MAX && s.current < Lib.CHANNELS_MAX
    ensures s.Outs(n).1 == RoundRobin.Run(PoolTick, s.channels, s.current, n)
    decreases n
  {
    if n > 0 {
      OutsRun(s.Out().0, n - 1);
    }
  }

  /** After `n` samples every channel has taken `n` steps and the cursor has
      moved `n` places. */
  lemma {:induction false} OutsState(s: EngineState, n: nat)
    requires |s.channels| == Lib.CHANNELS_MAX && s.current < Lib.CHANNELS_MAX
    ensures s.Outs(n).0 == s.(channels := RoundRobin.StepAllN(PoolTick, s.channels, n),
                              current := (s.current + n) % Lib.CHANNELS_MAX)
    decreases n
  {
    if n == 0 {
      ModUnique(s.current, Lib.CHANNELS_MAX, 0, s.current);
    } else {
      OutsState(s.Out().0, n - 1);
      ModShift(s.current + 1, n - 1, Lib.CHANNELS_MAX);
    }
  }

  /** Note operations touch only their own channel and neither cursor, and
      every operation keeps the synthesizer consistent. */
  lemma OperationsKeepInv(s: EngineState, freq: u32, duty: real, n: nat)
    requires s.Inv()
    ensures n >= Lib.CHANNELS_MAX ==> s.NoteOn(freq, duty, n) == Panic
    ensures s.NoteOff(freq, n).Value? <==> n < Lib.CHANNELS_MAX
    ensures s.NoteOn(freq, duty, n).Value? ==> s.NoteOn(freq, duty, n).value.Inv()
    ensures s.NoteOff(freq, n).Value? ==> s.NoteOff(freq, n).value.Inv()
    ensures s.Out().0.Inv() && s.ChannelSelect(n).Inv()
    ensures forall j :: 0 <= j < Lib.CHANNELS_MAX && j != n ==>
      (s.NoteOff(freq, n).Value? ==> s.NoteOff(freq, n).value.channels[j] == s.channels[j])
      && (s.NoteOn(freq, duty, n).Value? ==> s.NoteOn(freq, duty, n).value.channels[j] == s.channels[j])
  {
    if n < Lib.CHANNELS_MAX {
      if SynthChannel.NoteOnOutcome(s.channels[n], freq, duty).Value? {
        SynthChannel.NoteOnThenOff(s.channels[n], freq, duty);
      }
      SynthChannel.WithoutKeepsValid(s.channels[n], freq);
    }
    forall i | 0 <= i < Lib.CHANNELS_MAX
      ensures SynthChannel.PoolValid(s.Out().0.channels[i])
    {
      SynthChannel.TicksKeepValid(s.channels[i], 0);
    }
  }

  /** Selecting a channel in range selects it; anything else changes nothing. */
  lemma ChannelSelectLaw(s: EngineState, i: nat)
    ensures i < Lib.CHANNELS_MAX ==> s.ChannelSelect(i).selected == i
    ensures i >= Lib.CHANNELS_MAX ==> s.ChannelSelect(i) == s
    ensures s.ChannelSelect(i).channels == s.channels && s.ChannelSelect(i).current == s.current
  {
  }

  /** The channels after the first `i` of them have taken one step. */
  function TickedUpTo(channels: seq<seq<VoiceState>>, i: nat): (r: seq<seq<VoiceState>>)
  {
    seq(|channels|, j requires 0 <= j < |channels| => if j < i then PoolTick(channels[j]).0 else channels[j])
  }

  /** `start_channels()`: `n` pools made by `Channel::new()`, each a distinct object. */
  method StartChannels(n: nat) returns (cs: seq<SynthChannel.Channel>)
    ensures |cs| == n
    ensures forall i :: 0 <= i < n ==> cs[i].Valid() && cs[i].voices == []
    ensures forall i, j :: 0 <= i < n && 0 <= j < n && i != j ==> cs[i] != cs[j]
  {
    cs := [];
    while |cs| < n
      invariant |cs| <= n
      invariant forall i :: 0 <= i < |cs| ==> fresh(cs[i]) && cs[i].Valid() && cs[i].voices == []
      invariant forall i, j :: 0 <= i < |cs| && 0 <= j < |cs| && i != j ==> cs[i] != cs[j]
      decreases n - |cs|
    {
      var c := new SynthChannel.Channel();
      cs := cs + [c];
    }
  }

  /** A synthesizer object; its channel objects never change, their pools do. */
  class Synth {
    const channels: seq<SynthChannel.Channel>
    var current: nat
    var selected: nat

    ghost function Footprint(): set<object>
    {
      set i | 0 <= i < |channels| :: channels[i] as object
    }

    ghost predicate Valid()
      reads this, Footprint()
    {
      |channels| == Lib.CHANNELS_MAX && current < Lib.CHANNELS_MAX && selected < Lib.CHANNELS_MAX
      && (forall i, j :: 0 <= i < |channels| && 0 <= j < |channels| && i != j ==> channels[i] != channels[j])
      && forall i :: 0 <= i < |channels| ==> channels[i].Valid()
    }

    ghost function State(): EngineState
      reads this, Footprint()
    {
      EngineState(seq(|channels|, i requires 0 <= i < |channels| reads Footprint() => channels[i].voices),
                  current, selected)
    }

    /** `Synth::new()`. */
    constructor ()
      ensures Valid() && State() == Start()
    {
      var cs := StartChannels(Lib.CHANNELS_MAX);
      channels := cs;
      current, selected := 0, 0;
      new;
      assert State().channels == Start().channels;
    }

    /** `self.channels[i].out()`: channel `i` takes one step, the others keep still. */
    method TickChannel(i: nat) returns (bit: bool)
      requires Valid() && i < Lib.CHANNELS_MAX
      modifies channels[i]
      ensures Valid()
      ensures var s := old(State());
        State() == s.(channels := s.channels[i := PoolTick(s.channels[i]).0]) && bit == PoolTick(s.channels[i]).1
    {
      ghost var s := State();
      bit := channels[i].Out();
      assert forall j :: 0 <= j < |channels| && j != i ==> channels[j].voices == s.channels[j];
      assert State().channels == s.channels[i := channels[i].voices];
    }

    /** `get_sample_bool()`. */
    method GetSampleBool() returns (out: bool)
      requires Valid()
      modifies this, Footprint()
      ensures Valid() && (State(), out) == old(State()).Out()
    {
      ghost var s := State();
      out := false;
      for i := 0 to Lib.CHANNELS_MAX
        invariant Valid()
        invariant State() == s.(channels := TickedUpTo(s.channels, i))
        invariant i > s.current ==> out == PoolTick(s.channels[s.current]).1
      {
        var bit := TickChannel(i);
        assert TickedUpTo(s.channels, i + 1) == TickedUpTo(s.channels, i)[i := PoolTick(s.channels[i]).0];
        if i == current {
          out := bit;
        }
      }
      assert TickedUpTo(s.channels, Lib.CHANNELS_MAX) == RoundRobin.StepAll(PoolTick, s.channels);
      ghost var ticked := State().channels;
      current := (current + 1) % Lib.CHANNELS_MAX;
      assert State().channels == ticked;
    }

    /** `get_sample()`: the same walk over the channels, with the bit turned
        into an output level. */
    method GetSample(high: u8, low: u8) returns (level: u8)
      requires Valid()
      modifies this, Footprint()
      ensures Valid() && State() == old(State()).Out().0 && level == Level(old(State()).Out().1, high, low)
    {
      ghost var s := State();
      var out := false;
      for i := 0 to Lib.CHANNELS_MAX
        invariant Valid()
        invariant State() == s.(channels := TickedUpTo(s.channels, i))
        invariant i > s.current ==> out == PoolTick(s.channels[s.current]).1
      {
        var bit := TickChannel(i);
        assert TickedUpTo(s.channels, i + 1) == TickedUpTo(s.channels, i)[i := PoolTick(s.channels[i]).0];
        if i == current {
          out := bit;
        }
      }
      assert TickedUpTo(s.channels, Lib.CHANNELS_MAX) == RoundRobin.StepAll(PoolTick, s.channels);
      ghost var ticked := State().channels;
      current := (current + 1) % Lib.CHANNELS_MAX;
      assert State().channels == ticked;
      level := if out then high else low;
    }

    /** `get_buffer_bool()`. */
    method GetBufferBool() returns (buffer: seq<bool>)
      requires Valid()
      modifies this, Footprint()
      ensures Valid() && (State(), buffer) == old(State()).Outs(Lib.BUFFER_SIZE)
    {
      ghost var s := State();
      var b := new bool[Lib.BUFFER_SIZE](_ => false);
      for i := 0 to Lib.BUFFER_SIZE
        invariant Valid()
        invariant State() == s.Outs(i).0
        invariant b[..i] == s.Outs(i).1
      {
        OutsSnoc(s, i);
        SampleBool(b, i);
      }
      buffer := b[..];
      assert buffer == b[..Lib.BUFFER_SIZE];
    }

    /** `buffer[i] = self.get_sample_bool()`. */
    method SampleBool(b: array<bool>, i: nat)
      requires Valid() && i < b.Length
      modifies this, b, Footprint()
      ensures Valid() && State() == old(State()).Out().0
      ensures b[..i + 1] == old(b[..i]) + [old(State()).Out().1]
    {
      var bit := GetSampleBool();
      b[i] := bit;
    }

    /** `get_buffer()`. */
    method GetBuffer(high: u8, low: u8) returns (buffer: seq<u8>)
      requires Valid()
      modifies this, Footprint()
      ensures Valid() && (State(), buffer) == old(State()).Samples(Lib.BUFFER_SIZE, high, low)
    {
      ghost var s := State();
      var b := new u8[Lib.BUFFER_SIZE](_ => 0);
      for i := 0 to Lib.BUFFER_SIZE
        invariant Valid()
        invariant State() == s.Outs(i).0
        invariant b[..i] == s.Samples(i, high, low).1
      {
        SamplesSnoc(s, i, high, low);
        Sample(b, i, high, low);
      }
      buffer := b[..];
      assert buffer == b[..Lib.BUFFER_SIZE];
      SamplesAreLevels(s, Lib.BUFFER_SIZE, high, low);
    }

    /** `buffer[i] = self.get_sample()`. */
    method Sample(b: array<u8>, i: nat, high: u8, low: u8)
      requires Valid() && i < b.Length
      modifies this, b, Footprint()
      ensures Valid() && State() == old(State()).Out().0
      ensures b[..i + 1] == old(b[..i]) + [Level(old(State()).Out().1, high, low)]
    {
      var level := GetSample(high, low);
      b[i] := level;
    }

    method ChannelSelect(i: nat)
      requires Valid()
      modifies this
      ensures Valid() && State() == old(State()).ChannelSelect(i)
    {
      if i < Lib.CHANNELS_MAX {
        selected := i;
      }
    }

    /** `note_on(freq, duty, n)`, with the channel's `note_on` as fixed. */
    method NoteOn(freq: u32, duty: real, n: nat) returns (status: Status)
      requires Valid()
      modifies if n < |channels| then {channels[n]} else {}
      ensures Valid()
      ensures match old(State()).NoteOn(freq, duty, n)
        case Panic => status == Panicked && State() == old(State())
        case Value(s) => status == Returned && State() == s
    {
      if n >= |channels| {
        return Panicked;
      }
      ghost var s := State();
      status := channels[n].NoteOn(freq, duty);
      assert forall j :: 0 <= j < |channels| && j != n ==> channels[j].voices == s.channels[j];
      assert State().channels == s.channels[n := channels[n].voices];
    }

    method NoteOff(freq: u32, n: nat) returns (status: Status)
      requires Valid()
      modifies if n < |channels| then {channels[n]} else {}
      ensures Valid()
      ensures match old(State()).NoteOff(freq, n)
        case Panic => status == Panicked && State() == old(State())
        case Value(s) => status == Returned && State() == s
    {
      if n >= |channels| {
        return Panicked;
      }
      ghost var s := State();
      channels[n].NoteOff(freq);
      status := Returned;
      assert forall j :: 0 <= j < |channels| && j != n ==> channels[j].voices == s.channels[j];
      assert State().channels == s.channels[n := channels[n].voices];
    }
  }

  lemma {:induction false} OutsSnoc(s: EngineState, n: nat)
    requires |s.channels| == Lib.CHANNELS_MAX && s.current < Lib.CHANNELS_MAX
    ensures var (s1, bits) := s.Outs(n);
      s.Outs(n + 1) == (s1.Out().0, bits + [s1.Out().1])
    decreases n
  {
    var (s0, bit) := s.Out();
    if n == 0 {
      assert s0.Outs(0) == (s0, []);
      assert [bit] + [] == [bit] == [] + [bit];
    } else {
      OutsSnoc(s0, n - 1);
      var (s1, bits) := s0.Outs(n - 1);
      assert [bit] + (bits + [s1.Out().1]) == ([bit] + bits) + [s1.Out().1];
    }
  }

  lemma {:induction false} SamplesSnoc(s: EngineState, n: nat, high: u8, low: u8)
    requires |s.channels| == Lib.CHANNELS_MAX && s.current < Lib.CHANNELS_MAX
    ensures var (s1, levels) := s.Samples(n, high, low);
      s1 == s.Outs(n).0
      && s.Samples(n + 1, high, low) == (s1.Out().0, levels + [Level(s1.Out().1, high, low)])
    decreases n
  {
    var (s0, bit) := s.Out();
    if n == 0 {
      assert s0.Samples(0, high, low) == (s0, []);
      assert [Level(bit, high, low)] + [] == [] + [Level(bit, high, low)];
    } else {
      SamplesSnoc(s0, n - 1, high, low);
      var (s1, levels) := s0.Samples(n - 1, high, low);
      assert [Level(bit, high, low)] + (levels + [Level(s1.Out().1, high, low)])
          == ([Level(bit, high, low)] + levels) + [Level(s1.Out().1, high, low)];
    }
  }
}
