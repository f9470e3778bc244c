/** The synthesizer of the library snapshot (src/audio/synth.rs):
    `CHANNELS_MAX` channels combined by the Pulse Interleaving Method (every
    channel advances on every sample, and the output sample is taken from
    one channel after the other). Its twin for the self-contained snapshot
    is `MainSynth`, which repeats this module member for member with that
    snapshot's constants, duty and `voice_on`/`voice_off`. */
module AudioSynth {

  import opened Common
  import opened Arith
  import Lib
  import Utils
  import Score
  import RoundRobin
  import opened AudioChannel

  /** The duty `play_files` passes to `note_on`. */
  const PLAY_FILES_DUTY: nat := 100

  /** One sample of one channel, as a function value. */
  function ChannelTick(c: ChannelState): (ChannelState, bool)
  {
    c.Tick()
  }

  /** The fields of a synthesizer. */
  datatype SynthState = SynthState(channels: seq<ChannelState>, current: nat, selected: nat)
  {
    /** `CHANNELS_MAX` consistent channels, and both cursors in range. */
    predicate Inv()
    {
      |channels| == Lib.CHANNELS_MAX && current < Lib.CHANNELS_MAX && selected < Lib.CHANNELS_MAX
      && forall i :: 0 <= i < |channels| ==> channels[i].Inv()
    }

    /** `synth_out()`: every channel produces a sample, the one under the
        cursor is the output, and the cursor moves on. */
    function Out(): (SynthState, bool)
      requires |channels| == Lib.CHANNELS_MAX && current < Lib.CHANNELS_MAX
    {
      (this.(channels := RoundRobin.StepAll(ChannelTick, channels), current := (current + 1) % Lib.CHANNELS_MAX),
       channels[current].Tick().1)
    }

    /** `n` successive `synth_out()` calls. */
    function Outs(n: nat): (r: (SynthState, seq<bool>))
      requires |channels| == Lib.CHANNELS_MAX && current < Lib.CHANNELS_MAX
      ensures |r.0.channels| == Lib.CHANNELS_MAX && r.0.current < Lib.CHANNELS_MAX && |r.1| == n
      decreases n
    {
      if n == 0 then (this, [])
      else
        var (s, bit) := Out();
        var (s', bits) := s.Outs(n - 1);
        (s', [bit] + bits)
    }

    /** `channel_select(i)`: an index out of range is refused. */
    function ChannelSelect(i: nat): SynthState
    {
      if i < Lib.CHANNELS_MAX then this.(selected := i) else this
    }

    /** `note_on(freq, duty, n)` on channel `n`; a channel index out of
        range is an index out of bounds. */
    function NoteOn(freq: u32, duty: nat, n: nat): Outcome<SynthState>
      requires n < |channels| ==> |channels[n].voices| == |channels[n].freqs|
    {
      if n >= |channels| then Panic
      else
        match channels[n].NoteOn(freq, duty)
        case Panic => Panic
        case Value(c) => Value(this.(channels := channels[n := c]))
    }

    /** `note_off(freq, n)` on channel `n`; a channel index out of range is
        an index out of bounds. */
    function NoteOff(freq: u32, n: nat): Outcome<SynthState>
      requires n < |channels| ==> |channels[n].voices| == |channels[n].freqs|
    {
      if n >= |channels| then Panic
      else Value(this.(channels := channels[n := channels[n].NoteOff(freq)]))
    }
  }

  /** `Synth::default()`. */
  function Quiet(): (s: SynthState)
    ensures s.Inv()
  {
    SynthState(seq(Lib.CHANNELS_MAX, _ => Idle()), 0, 0)
  }

  lemma {:induction false} OutsSnoc(s: SynthState, n: nat)
    requires |s.channels| == Lib.CHANNELS_MAX && s.current < Lib.CHANNELS_MAX
    ensures var (s1, bits) := s.Outs(n);
      s.Outs(n + 1) == (s1.Out().0, bits + [s1.Out().1])
    decreases n
  {
    var (s0, bit) := s.Out();
    if n == 0 {
      assert s0.Outs(0) == (s0, []);
      assert [bit] + [] == [bit] == [] + [bit];
    } else {
      OutsSnoc(s0, n - 1);
      var (s1, bits) := s0.Outs(n - 1);
      assert [bit] + (bits + [s1.Out().1]) == ([bit] + bits) + [s1.Out().1];
    }
  }

  /** `n` samples of the synthesizer are the round-robin interleaving of
      its channels: all channels advance `n` steps and the cursor moves `n`
      places. By `RoundRobin.Window`, sample `k` is then the sample channel
      `(current + k) % CHANNELS_MAX` produces on its `k`-th step. */
  lemma {:induction false} OutsInterleave(s: SynthState, n: nat)
    requires |s.channels| == Lib.CHANNELS_MAX && s.current < Lib.CHANNELS_MAX
    ensures s.Outs(n).1 == RoundRobin.Run(ChannelTick, s.channels, s.current, n)
    ensures s.Outs(n).0 == s.(channels := RoundRobin.StepAllN(ChannelTick, s.channels, n),
                              current := (s.current + n) % Lib.CHANNELS_MAX)
  {
    OutsRun(s, n);
    OutsState(s, n);
  }

  lemma {:induction false} OutsRun(s: SynthState, n: nat)
    requires |s.channels| == Lib.CHANNELS_MAX && s.current < Lib.CHANNELS_MAX
    ensures s.Outs(n).1 == RoundRobin.Run(ChannelTick, s.channels, s.current, n)
    decreases n
  {
    if n > 0 {
      OutsRun(s.Out().0, n - 1);
    }
  }

  lemma {:induction false} OutsState(s: SynthState, n: nat)
    requires |s.channels| == Lib.CHANNELS_MAX && s.current < Lib.CHANNELS_MAX
    ensures s.Outs(n).0 == s.(channels := RoundRobin.StepAllN(ChannelTick, s.channels, n),
                              current := (s.current + n) % Lib.CHANNELS_MAX)
    decreases n
  {
    if n == 0 {
      ModUnique(s.current, Lib.CHANNELS_MAX, 0, s.current);
    } else {
      OutsState(s.Out().0, n - 1);
      ModShift(s.current + 1, n - 1, Lib.CHANNELS_MAX);
    }
  }

  /** Selecting a channel in range selects it; anything else changes nothing. */
  lemma ChannelSelectLaw(s: SynthState, i: nat)
    requires s.Inv()
    ensures s.ChannelSelect(i).Inv()
    ensures i < Lib.CHANNELS_MAX ==> s.ChannelSelect(i).selected == i
    ensures i >= Lib.CHANNELS_MAX ==> s.ChannelSelect(i) == s
    ensures s.ChannelSelect(i).channels == s.channels && s.ChannelSelect(i).current == s.current
  {
  }

  /** Every operation keeps the synthesizer consistent; a note operation on
      a channel index out of range panics, and `note_off` on one in range
      never does. */
  lemma OperationsKeepInv(s: SynthState, freq: u32, duty: nat, n: nat, m: nat)
    requires s.Inv()
    ensures n >= Lib.CHANNELS_MAX ==> s.NoteOn(freq, duty, n) == Panic
    ensures s.NoteOff(freq, n).Value? <==> n < Lib.CHANNELS_MAX
    ensures s.NoteOn(freq, duty, n).Value? ==> s.NoteOn(freq, duty, n).value.Inv()
    ensures s.NoteOff(freq, n).Value? ==> s.NoteOff(freq, n).value.Inv()
    ensures s.Out().0.Inv() && s.Outs(m).0.Inv()
  {
    if n < Lib.CHANNELS_MAX {
      AudioChannel.OperationsKeepInv(s.channels[n], freq, duty, 0);
    }
    forall i | 0 <= i < Lib.CHANNELS_MAX
      ensures s.Out().0.channels[i].Inv()
    {
      AudioChannel.OperationsKeepInv(s.channels[i], freq, duty, 0);
    }
    OutsKeepInv(s, m);
  }

  lemma {:induction false} OutsKeepInv(s: SynthState, m: nat)
    requires s.Inv()
    ensures s.Outs(m).0.Inv()
    decreases m
  {
    if m > 0 {
      forall i | 0 <= i < Lib.CHANNELS_MAX
        ensures s.Out().0.channels[i].Inv()
      {
        AudioChannel.OperationsKeepInv(s.channels[i], 0, 0, 0);
      }
      OutsKeepInv(s.Out().0, m - 1);
    }
  }

  /** The channels after the first `i` of them have taken one step. */
  function TickedUpTo(channels: seq<ChannelState>, i: nat): (r: seq<ChannelState>)
  {
    seq(|channels|, j requires 0 <= j < |channels| => if j < i then channels[j].Tick().0 else channels[j])
  }

  lemma TickedUpToNext(channels: seq<ChannelState>, i: nat)
    requires i < |channels|
    ensures TickedUpTo(channels, i + 1) == TickedUpTo(channels, i)[i := channels[i].Tick().0]
  {
  }

  /** A synthesizer whose channels are consistent. */
  type Ready = s: SynthState | s.Inv() witness Quiet()

  /** The action of the cue of track `i` in `play_files`, on channel `i`:
      status 0 turns its frequency off, any other status turns it on with
      duty 100. A track without a channel is an index out of bounds. */
  function FireTrack(s: Ready, i: nat, cue: Score.Cue): Outcome<Ready>
  {
    if i >= Lib.CHANNELS_MAX then Panic
    else
      OperationsKeepInv(s, cue.freq, PLAY_FILES_DUTY, i, 0);
      if cue.status == 0 then
        var s': Ready := s.NoteOff(cue.freq, i).value;
        Value(s')
      else
        match s.NoteOn(cue.freq, PLAY_FILES_DUTY, i)
        case Panic => Panic
        case Value(s') =>
          var r: Ready := s';
          Value(r)
  }

  /** `synth_out_buffer()` on a consistent synthesizer. */
  function RenderBuffer(s: Ready): (Ready, seq<bool>)
  {
    OutsKeepInv(s, Lib.BUFFER_SIZE);
    var (s', buffer) := s.Outs(Lib.BUFFER_SIZE);
    var r: Ready := s';
    (r, buffer)
  }

  lemma RenderIsOutBuffer(s: Ready)
    ensures Band.render(s) == s.Outs(Lib.BUFFER_SIZE)
  {
  }

  /** The synthesizer transitions `play_files` drives. */
  const Band: Score.Rig<Ready> := Score.Rig(FireTrack, RenderBuffer)

  /** No track is marked done by the loop as written. */
  function NoneDone(): seq<bool>
  {
    seq(Lib.CHANNELS_MAX, _ => false)
  }

  /** `n` channels made by `Channel::default()`, each with objects of its own. */
  method NewChannels(n: nat) returns (cs: seq<Channel>)
    ensures |cs| == n
    ensures forall i :: 0 <= i < n ==> cs[i].Valid() && cs[i].State() == Idle()
    ensures forall i, j :: 0 <= i < n && 0 <= j < n && i != j ==>
              cs[i] != cs[j] && cs[i].voices != cs[j].voices && cs[i].freqs != cs[j].freqs
  {
    cs := [];
    while |cs| < n
      invariant |cs| <= n
      invariant forall i :: 0 <= i < |cs| ==> fresh(cs[i]) && fresh(cs[i].voices) && fresh(cs[i].freqs)
      invariant forall i :: 0 <= i < |cs| ==> cs[i].Valid() && cs[i].State() == Idle()
      invariant forall i, j :: 0 <= i < |cs| && 0 <= j < |cs| && i != j ==>
                  cs[i] != cs[j] && cs[i].voices != cs[j].voices && cs[i].freqs != cs[j].freqs
      decreases n - |cs|
    {
      var c := new Channel();
      cs := cs + [c];
    }
  }

  /** A synthesizer object. Its `CHANNELS_MAX` channels are objects updated
      in place; the references to them never change. */
  class Synth {
    const channels: seq<Channel>
    var current: nat
    var selected: nat

    /** The objects the channels own. */
    ghost function Footprint(): set<object>
    {
      (set i | 0 <= i < |channels| :: channels[i] as object)
      + (set i | 0 <= i < |channels| :: channels[i].voices as object)
      + (set i | 0 <= i < |channels| :: channels[i].freqs as object)
    }

    /** No two channels share an object. */
    ghost predicate Distinct()
    {
      |channels| == Lib.CHANNELS_MAX
      && forall i, j :: 0 <= i < |channels| && 0 <= j < |channels| && i != j ==>
           channels[i] != channels[j] && channels[i].voices != channels[j].voices && channels[i].freqs != channels[j].freqs
    }

    ghost predicate Valid()
      reads this, Footprint()
    {
      Distinct() && current < Lib.CHANNELS_MAX && selected < Lib.CHANNELS_MAX
      && forall i :: 0 <= i < |channels| ==> channels[i].Valid()
    }

    ghost function State(): SynthState
      reads this, Footprint()
    {
      SynthState(seq(|channels|, i requires 0 <= i < |channels| reads Footprint() => channels[i].State()),
                 current, selected)
    }

    /** `Synth::default()`. */
    constructor ()
      ensures Valid() && State() == Quiet()
    {
      var cs := NewChannels(Lib.CHANNELS_MAX);
      channels := cs;
      current, selected := 0, 0;
      new;
      assert State().channels == Quiet().channels;
    }

    method ChannelSelect(i: nat)
      requires Valid()
      modifies this
      ensures Valid() && State() == old(State()).ChannelSelect(i)
    {
      if i < Lib.CHANNELS_MAX {
        selected := i;
      }
    }

    method NoteOn(freq: u32, duty: nat, n: nat) returns (status: Status)
      requires Valid()
      modifies if n < |channels| then {channels[n].voices, channels[n].freqs} else {}
      ensures Valid()
      ensures match old(State()).NoteOn(freq, duty, n)
        case Panic => status == Panicked && State() == old(State())
        case Value(s) => status == Returned && State() == s
    {
      if n >= |channels| {
        return Panicked;
      }
      ghost var s := State();
      status := channels[n].NoteOn(freq, duty);
      assert forall j :: 0 <= j < |channels| && j != n ==> channels[j].State() == s.channels[j];
      assert State().channels == s.channels[n := channels[n].State()];
    }

    method NoteOff(freq: u32, n: nat) returns (status: Status)
      requires Valid()
      modifies if n < |channels| then {channels[n].voices, channels[n].freqs} else {}
      ensures Valid()
      ensures match old(State()).NoteOff(freq, n)
        case Panic => status == Panicked && State() == old(State())
        case Value(s) => status == Returned && State() == s
    {
      if n >= |channels| {
        return Panicked;
      }
      ghost var s := State();
      channels[n].NoteOff(freq);
      status := Returned;
      assert forall j :: 0 <= j < |channels| && j != n ==> channels[j].State() == s.channels[j];
      assert State().channels == s.channels[n := channels[n].State()];
    }

    /** `self.channels[i].out()`: channel `i` takes one step, the others keep still. */
    method TickChannel(i: nat) returns (bit: bool)
      requires Valid() && i < Lib.CHANNELS_MAX
      modifies channels[i].voices
      ensures Valid()
      ensures var s := old(State());
        State() == s.(channels := s.channels[i := s.channels[i].Tick().0]) && bit == s.channels[i].Tick().1
    {
      ghost var s := State();
      bit := channels[i].Out();
      assert forall j :: 0 <= j < |channels| && j != i ==> channels[j].State() == s.channels[j];
      assert State().channels == s.channels[i := channels[i].State()];
    }

    method Out() returns (out: bool)
      requires Valid()
      modifies this, set i | 0 <= i < |channels| :: channels[i].voices
      ensures Valid() && (State(), out) == old(State()).Out()
    {
      ghost var s := State();
      out := false;
      for i := 0 to Lib.CHANNELS_MAX
        invariant Valid()
        invariant State() == s.(channels := TickedUpTo(s.channels, i))
        invariant i > s.current ==> out == s.channels[s.current].Tick().1
      {
        TickedUpToNext(s.channels, i);
        var bit := TickChannel(i);
        if i == current {
          out := bit;
        }
      }
      assert TickedUpTo(s.channels, Lib.CHANNELS_MAX) == RoundRobin.StepAll(ChannelTick, s.channels);
      ghost var ticked := State().channels;
      current := (current + 1) % Lib.CHANNELS_MAX;
      assert State().channels == ticked;
    }

    method OutBuffer() returns (buffer: seq<bool>)
      requires Valid()
      modifies this, set i | 0 <= i < |channels| :: channels[i].voices
      ensures Valid() && (State(), buffer) == old(State()).Outs(Lib.BUFFER_SIZE)
    {
      ghost var s := State();
      var b := new bool[Lib.BUFFER_SIZE](_ => false);
      for i := 0 to Lib.BUFFER_SIZE
        invariant Valid()
        invariant State() == s.Outs(i).0
        invariant b[..i] == s.Outs(i).1
      {
        OutsSnoc(s, i);
        Sample(b, i);
      }
      buffer := b[..];
      assert buffer == b[..Lib.BUFFER_SIZE];
    }

    /** `buffer[i] = self.synth_out()`. */
    method Sample(b: array<bool>, i: nat)
      requires Valid() && i < b.Length && b !in Footprint()
      modifies this, b, set i | 0 <= i < |channels| :: channels[i].voices
      ensures Valid() && State() == old(State()).Out().0
      ensures b[..i + 1] == old(b[..i]) + [old(State()).Out().1]
    {
      var bit := Out();
      b[i] := bit;
    }

    /** The messages of the channels, as cues. */
    ghost function Messages(): seq<Score.Cue>
      reads Footprint()
    {
      seq(|channels|, i requires 0 <= i < |channels| reads Footprint() =>
        Score.Cue(channels[i].message.0, channels[i].message.1, channels[i].message.2))
    }

    /** The iteration state of `play_files` these fields stand for. */
    ghost function Snapshot(pos: seq<nat>): Score.Ensemble<Ready>
      reads this, Footprint()
      requires Valid()
    {
      Score.Ensemble(State(), Messages(), pos, NoneDone(), [], Score.Playing)
    }

    /** The turn of track `i` in the inner loop of `play_files`. */
    method Visit(tracks: seq<seq<seq<u32>>>, pos: seq<nat>, i: nat) returns (crashed: bool, eof: bool, pos': seq<nat>)
      requires Valid() && |tracks| == Lib.CHANNELS_MAX && |pos| == Lib.CHANNELS_MAX && i < Lib.CHANNELS_MAX
      modifies channels[i], channels[i].voices, channels[i].freqs
      ensures Valid()
      ensures var (e, end) := Score.Visit(Band, tracks, AudioChannel.BUFFERS_PER_SECOND, old(Snapshot(pos)), i);
        State() == e.synth && pos' == e.pos && eof == end && (crashed <==> e.ending == Score.Crashed)
        && (!crashed ==> Messages() == e.cues)
    {
      var (status, freq, counter) := channels[i].message;
      if counter == 0 {
        var panicked := FireCue(i, status, freq);
        if panicked {
          return true, false, pos;
        }
        crashed, eof, pos' := NextCue(tracks, pos, i);
      } else {
        channels[i].message := (status, freq, counter - 1);
        crashed, eof, pos' := false, false, pos;
        assert Messages() == old(Messages())[i := Score.Cue(status, freq, counter - 1)];
      }
    }

    /** A due cue of track `i` acts on channel `i`: `note_off` for status 0,
        `note_on` with duty 100 otherwise. */
    method FireCue(i: nat, status: u32, freq: u32) returns (panicked: bool)
      requires Valid() && i < Lib.CHANNELS_MAX
      modifies channels[i].voices, channels[i].freqs
      ensures Valid() && Messages() == old(Messages())
      ensures match FireTrack(old(State()), i, Score.Cue(status, freq, 0))
        case Panic => panicked && State() == old(State())
        case Value(s) => !panicked && State() == s
    {
      panicked := false;
      if status == 0 {
        var st := NoteOff(freq, i);
      } else {
        var st := NoteOn(freq, PLAY_FILES_DUTY, i);
        panicked := st == Panicked;
      }
    }

    /** After a due cue of track `i`: the next line of its file is read and
        becomes its message; an empty line is the end of the file and a
        short one panics. */
    method NextCue(tracks: seq<seq<seq<u32>>>, pos: seq<nat>, i: nat) returns (crashed: bool, eof: bool, pos': seq<nat>)
      requires Valid() && |tracks| == Lib.CHANNELS_MAX && |pos| == Lib.CHANNELS_MAX && i < Lib.CHANNELS_MAX
      modifies channels[i]
      ensures Valid() && State() == old(State()) && pos' == pos[i := pos[i] + 1]
      ensures var parts := Score.ReadLine(tracks[i], pos[i]);
        (eof <==> parts == []) && (crashed <==> parts != [] && |parts| < 3)
        && (!crashed && !eof ==> Messages() == old(Messages())[i := Score.ParseCue(parts, AudioChannel.BUFFERS_PER_SECOND).value])
        && (eof ==> Messages() == old(Messages()))
    {
      var parts := Score.ReadLine(tracks[i], pos[i]);
      pos' := pos[i := pos[i] + 1];
      crashed, eof := false, false;
      if |parts| == 0 {
        eof := true;
        return;
      }
      if |parts| < 3 {
        crashed := true;
        return;
      }
      channels[i].message := (parts[0], parts[1], Score.Countdown(parts[2], AudioChannel.BUFFERS_PER_SECOND));
      assert Messages() == old(Messages())[i := Score.Cue(parts[0], parts[1], Score.Countdown(parts[2], AudioChannel.BUFFERS_PER_SECOND))];
    }

    /** The inner loop of `play_files` as written, `break` included. */
    method Sweep(tracks: seq<seq<seq<u32>>>, pos: seq<nat>) returns (crashed: bool, pos': seq<nat>)
      requires Valid() && |tracks| == Lib.CHANNELS_MAX && |pos| == Lib.CHANNELS_MAX
      modifies Footprint()
      ensures Valid()
      ensures var e := Score.Sweep(Band, tracks, AudioChannel.BUFFERS_PER_SECOND, old(Snapshot(pos)), 0);
        State() == e.synth && pos' == e.pos && (crashed <==> e.ending == Score.Crashed)
        && (!crashed ==> Messages() == e.cues)
    {
      ghost var goal := Score.Sweep(Band, tracks, AudioChannel.BUFFERS_PER_SECOND, Snapshot(pos), 0);
      crashed, pos' := false, pos;
      for i := 0 to Lib.CHANNELS_MAX
        invariant Valid() && |pos'| == Lib.CHANNELS_MAX && !crashed
        invariant goal == Score.Sweep(Band, tracks, AudioChannel.BUFFERS_PER_SECOND, Snapshot(pos'), i)
      {
        ghost var before := Snapshot(pos');
        var eof;
        crashed, eof, pos' := Visit(tracks, pos', i);
        ghost var v := Score.Visit(Band, tracks, AudioChannel.BUFFERS_PER_SECOND, before, i);
        if crashed || eof {
          assert goal == v.0;
          return;
        }
        assert Snapshot(pos') == v.0;
      }
    }

    /** The first loop of `play_files`: the first line of every track
        becomes that channel's message. */
    method ReadFirstLines(tracks: seq<seq<seq<u32>>>) returns (ok: bool)
      requires Valid() && |tracks| == Lib.CHANNELS_MAX
      modifies channels
      ensures Valid() && State() == old(State())
      ensures var start := Score.StartAll<Ready>(old(State()), tracks, AudioChannel.BUFFERS_PER_SECOND);
        (ok <==> start.ending == Score.Playing)
        && (ok ==> Snapshot(seq(Lib.CHANNELS_MAX, _ => 1)) == start)
    {
      for i := 0 to Lib.CHANNELS_MAX
        invariant Valid() && State() == old(State())
        invariant forall j :: 0 <= j < i ==>
          (|Score.ReadLine(tracks[j], 0)| >= 3
           && Score.ParseCue(Score.ReadLine(tracks[j], 0), AudioChannel.BUFFERS_PER_SECOND) == Value(Messages()[j]))
      {
        var parts := Score.ReadLine(tracks[i], 0);
        if |parts| < 3 {
          return false;
        }
        channels[i].message := (parts[0], parts[1], Score.Countdown(parts[2], AudioChannel.BUFFERS_PER_SECOND));
      }
      ok := true;
    }

    /** The fields stand for the loop state `e` of `play_files`, which is
        still playing, at read positions `pos`. */
    ghost predicate Holds(e: Score.Ensemble<Ready>, pos: seq<nat>)
      reads this, Footprint()
    {
      Valid() && |pos| == Lib.CHANNELS_MAX && e.ending == Score.Playing
      && e.synth == State() && e.pos == pos && e.done == NoneDone() && e.cues == Messages()
    }

    /** One buffer of output, and the bytes `write_buffer` makes of it. */
    method Emit(amplitude: u8) returns (buffer: seq<bool>, out: seq<u8>)
      requires Valid()
      modifies this, set i | 0 <= i < |channels| :: channels[i].voices
      ensures Valid() && (State(), buffer) == old(State()).Outs(Lib.BUFFER_SIZE)
      ensures out == Utils.Amplitudes(buffer, amplitude)
      ensures Messages() == old(Messages())
    {
      buffer := OutBuffer();
      ghost var s := State();
      out := Utils.WriteBuffer(buffer, amplitude);
      assert State() == s;
    }

    /** One iteration of the outer loop of `play_files`: the inner loop, then,
        unless a panic ended it, one buffer of output and the bytes
        `write_buffer` makes of it. */
    method Round(tracks: seq<seq<seq<u32>>>, pos: seq<nat>, amplitude: u8) returns (crashed: bool, pos': seq<nat>, buffer: seq<bool>, out: seq<u8>)
      requires Valid() && |tracks| == Lib.CHANNELS_MAX && |pos| == Lib.CHANNELS_MAX
      modifies this, Footprint()
      ensures Valid()
      ensures var e1 := Score.Sweep(Band, tracks, AudioChannel.BUFFERS_PER_SECOND, old(Snapshot(pos)), 0);
        pos' == e1.pos && (crashed <==> e1.ending == Score.Crashed)
        && (crashed ==> State() == e1.synth)
        && (!crashed ==> State() == Band.render(e1.synth).0 && buffer == Band.render(e1.synth).1 && Messages() == e1.cues)
      ensures out == Utils.Amplitudes(buffer, amplitude)
    {
      crashed, pos' := Sweep(tracks, pos);
      buffer, out := [], [];
      if !crashed {
        RenderIsOutBuffer(State());
        buffer, out := Emit(amplitude);
      }
    }

    /** `play_files` over one track per channel, for at most `fuel`
        iterations of its outer loop; `written` holds what `write_buffer`
        sent to the device. */
    method PlayFiles(tracks: seq<seq<seq<u32>>>, amplitude: u8, fuel: nat) returns (ending: Score.Ending, written: seq<seq<u8>>)
      requires Valid() && |tracks| == Lib.CHANNELS_MAX
      modifies this, Footprint()
      ensures Valid()
      ensures var e := Score.PlayFiles(false, Band, old(State()), tracks, AudioChannel.BUFFERS_PER_SECOND, fuel);
        ending == e.ending && State() == e.synth && written == Utils.AmplitudeLog(e.out, amplitude)
    {
      ghost var start := Score.StartAll<Ready>(State(), tracks, AudioChannel.BUFFERS_PER_SECOND);
      var ok := ReadFirstLines(tracks);
      if !ok {
        Score.StoppedRoundsStay(false, Band, tracks, AudioChannel.BUFFERS_PER_SECOND, start, fuel);
        return Score.Crashed, [];
      }
      ending, written := PlayRounds(tracks, seq(Lib.CHANNELS_MAX, _ => 1), amplitude, fuel);
    }

    /** The outer loop of `play_files`, from the read positions `pos` and the
        cues held in the channels' messages. */
    method PlayRounds(tracks: seq<seq<seq<u32>>>, pos: seq<nat>, amplitude: u8, fuel: nat) returns (ending: Score.Ending, written: seq<seq<u8>>)
      requires Valid() && |tracks| == Lib.CHANNELS_MAX && |pos| == Lib.CHANNELS_MAX
      modifies this, Footprint()
      ensures Valid()
      ensures var e := Score.Rounds(false, Band, tracks, AudioChannel.BUFFERS_PER_SECOND, old(Snapshot(pos)), fuel);
        ending == e.ending && State() == e.synth && written == Utils.AmplitudeLog(e.out, amplitude)
    {
      ghost var start := Snapshot(pos);
      var pos := pos;
      ending, written := Score.Playing, [];
      ghost var e := start;
      var n := 0;
      while n < fuel && ending == Score.Playing
        invariant n <= fuel && Valid() && e.synth == State() && e.ending == ending
        invariant e == Score.Rounds(false, Band, tracks, AudioChannel.BUFFERS_PER_SECOND, start, n)
        invariant ending == Score.Playing ==> Holds(e, pos)
        invariant written == Utils.AmplitudeLog(e.out, amplitude)
        decreases fuel - n
      {
        ghost var next := Score.Round(false, Band, tracks, AudioChannel.BUFFERS_PER_SECOND, e);
        Score.RoundAsWritten(Band, tracks, AudioChannel.BUFFERS_PER_SECOND, e);
        assert Snapshot(pos) == e.(out := []);
        var crashed, buffer, out;
        crashed, pos, buffer, out := Round(tracks, pos, amplitude);
        if crashed {
          ending := Score.Crashed;
        } else {
          assert next.out == e.out + [buffer];
          Utils.AmplitudeLogSnoc(e.out, buffer, amplitude);
          written := written + [out];
        }
        Score.RoundsNext(false, Band, tracks, AudioChannel.BUFFERS_PER_SECOND, start, n);
        e := next;
        n := n + 1;
      }
      Score.RoundsSettle(false, Band, tracks, AudioChannel.BUFFERS_PER_SECOND, start, n, fuel);
    }
  }

  /** Four one-line tracks: track 0 turns 440 Hz off, the other three turn
      it on, none waiting. */
  function StarvingScore(): seq<seq<seq<u32>>>
  {
    [[[0, 440, 0]], [[1, 440, 0]], [[1, 440, 0]], [[1, 440, 0]]]
  }

  /** Four one-line tracks that each turn 440 Hz on. */
  function RepeatedNoteScore(): seq<seq<seq<u32>>>
  {
    [[[1, 440, 0]], [[1, 440, 0]], [[1, 440, 0]], [[1, 440, 0]]]
  }

  /** One track per channel, each the single line `status 440 0`. */
  predicate OneLineScore(tracks: seq<seq<seq<u32>>>)
  {
    |tracks| == Lib.CHANNELS_MAX
    && forall j :: 0 <= j < |tracks| ==>
         |tracks[j]| == 1 && |tracks[j][0]| == 3 && tracks[j][0][1] == 440 && tracks[j][0][2] == 0
  }

  /** The first loop of `play_files` on such a score reads every first line:
      every track is at line 1 with the cue of that line. */
  lemma StartsPlaying(tracks: seq<seq<seq<u32>>>)
    requires OneLineScore(tracks)
    ensures var e := Score.StartAll<Ready>(Quiet(), tracks, AudioChannel.BUFFERS_PER_SECOND);
      e.ending == Score.Playing && e.synth == Quiet()
      && forall j :: 0 <= j < |tracks| ==>
           e.pos[j] == 1 && !e.done[j] && e.cues[j] == Score.Cue(tracks[j][0][0], 440, 0)
  {
    var e := Score.StartAll<Ready>(Quiet(), tracks, AudioChannel.BUFFERS_PER_SECOND);
    forall j | 0 <= j < |tracks|
      ensures e.cues[j] == Score.Cue(tracks[j][0][0], 440, 0)
    {
      assert Score.ReadLine(tracks[j], 0) == tracks[j][0];
    }
  }

  /** Rendering a buffer takes or frees no slot of any channel. */
  lemma RenderKeepsSlots(s: Ready)
    ensures forall j :: 0 <= j < Lib.CHANNELS_MAX ==> Band.render(s).0.channels[j].freqs == s.channels[j].freqs
  {
    RenderIsOutBuffer(s);
    var s1 := s.Out().0;
    assert s.Outs(1).0 == s1.Outs(0).0 == s1;
    forall j | 0 <= j < Lib.CHANNELS_MAX
      ensures s1.channels[j].freqs == s.channels[j].freqs
    {
      TickKeepsSwitches(s.channels[j]);
    }
  }

  /** The slots of a channel whose first `k` voices play 440 Hz. */
  function Taken(k: nat): seq<u32>
  {
    seq(Lib.VOICES_MAX, j => if j < k then 440 else 0)
  }

  /** One iteration as written once track 0 has ended on `1 440 0`, as in
      the repeated-note score: its note-on takes the next free voice of
      channel 0, or panics when all four are taken. */
  lemma RefireRound(tracks: seq<seq<seq<u32>>>, e: Score.Ensemble<Ready>, k: nat)
    requires Score.Shaped(tracks, e) && Score.Exhausted(tracks, e, 0)
    requires e.cues[0] == Score.Cue(1, 440, 0) && e.ending == Score.Playing
    requires k <= Lib.VOICES_MAX && e.synth.channels[0].freqs == Taken(k)
    ensures var e' := Score.Round(false, Band, tracks, AudioChannel.BUFFERS_PER_SECOND, e);
      (k < Lib.VOICES_MAX ==>
         e'.ending == Score.Playing && Score.Exhausted(tracks, e', 0)
         && e'.cues[0] == e.cues[0] && e'.synth.channels[0].freqs == Taken(k + 1))
      && (k == Lib.VOICES_MAX ==> e'.ending == Score.Crashed)
  {
    Score.ExhaustedRefires(Band, tracks, AudioChannel.BUFFERS_PER_SECOND, e);
    var c := e.synth.channels[0];
    var i := FirstIndex(c.freqs, 0);
    if k < Lib.VOICES_MAX {
      assert c.freqs[k] == 0;
      assert i == k;
      var s' := Band.fire(e.synth, 0, e.cues[0]).value;
      assert s'.channels[0].freqs == c.freqs[k := 440] == Taken(k + 1);
      RenderKeepsSlots(s');
    } else {
      assert i == Lib.VOICES_MAX;
    }
  }

  /** Once track 0 has ended on a cue with status 0, the loop as written
      re-fires that note-off, which never panics, in every iteration: it
      never stops. */
  lemma NoteOffRefiredForever(tracks: seq<seq<seq<u32>>>, e: Score.Ensemble<Ready>, n: nat)
    requires Score.Shaped(tracks, e) && Score.Exhausted(tracks, e, 0)
    requires e.cues[0].status == 0 && e.ending == Score.Playing
    ensures Score.Rounds(false, Band, tracks, AudioChannel.BUFFERS_PER_SECOND, e, n).ending == Score.Playing
  {
    forall s: Ready
      ensures Band.fire(s, 0, e.cues[0]).Value?
    {
      assert Band.fire(s, 0, e.cues[0]) == FireTrack(s, 0, e.cues[0]);
    }
    Score.RefiredForever(Band, tracks, AudioChannel.BUFFERS_PER_SECOND, e, n);
  }

  /** As written, once track 0 of the starving score has ended, `break`
      keeps tracks 1 to 3 from ever being visited: for any number of
      iterations the loop is still playing, their notes have never been
      turned on and no line after their first has been read. */
  lemma StarvationExample(n: nat)
    ensures var e := Score.PlayFiles(false, Band, Quiet(), StarvingScore(), AudioChannel.BUFFERS_PER_SECOND, n);
      e.ending == Score.Playing
      && forall j :: 1 <= j < Lib.CHANNELS_MAX ==> e.pos[j] == 1 && e.cues[j] == Score.Cue(1, 440, 0)
  {
    var tracks := StarvingScore();
    StartsPlaying(tracks);
    StarvesFrom(Score.StartAll<Ready>(Quiet(), tracks, AudioChannel.BUFFERS_PER_SECOND), n);
  }

  /** From an iteration where track 0 of the starving score has ended and
      tracks 1 to 3 wait at their first line, they wait there forever. */
  lemma StarvesFrom(e: Score.Ensemble<Ready>, n: nat)
    requires Score.Shaped(StarvingScore(), e) && Score.Exhausted(StarvingScore(), e, 0)
    requires e.cues[0] == Score.Cue(0, 440, 0) && e.ending == Score.Playing
    requires forall j :: 1 <= j < Lib.CHANNELS_MAX ==> e.pos[j] == 1 && e.cues[j] == Score.Cue(1, 440, 0)
    ensures var e' := Score.Rounds(false, Band, StarvingScore(), AudioChannel.BUFFERS_PER_SECOND, e, n);
      e'.ending == Score.Playing
      && forall j :: 1 <= j < Lib.CHANNELS_MAX ==> e'.pos[j] == 1 && e'.cues[j] == Score.Cue(1, 440, 0)
  {
    Score.Starvation(Band, StarvingScore(), AudioChannel.BUFFERS_PER_SECOND, e, 0, n);
    NoteOffRefiredForever(StarvingScore(), e, n);
  }

  /** As written, track 0 of the repeated-note score turns 440 Hz on again
      in every iteration; the fifth turn finds the channel's four voices
      taken and panics. */
  lemma RefiredNoteOnCrashes()
    ensures Score.PlayFiles(false, Band, Quiet(), RepeatedNoteScore(), AudioChannel.BUFFERS_PER_SECOND, 4).ending == Score.Playing
    ensures Score.PlayFiles(false, Band, Quiet(), RepeatedNoteScore(), AudioChannel.BUFFERS_PER_SECOND, 5).ending == Score.Crashed
  {
    var tracks := RepeatedNoteScore();
    StartsPlaying(tracks);
    var e0 := Score.StartAll<Ready>(Quiet(), tracks, AudioChannel.BUFFERS_PER_SECOND);
    assert e0.synth.channels[0].freqs == Taken(0);
    FillsThenCrashes(tracks, e0, 0);
  }

  /** From an iteration where track 0 has ended on `1 440 0` and `k` voices
      of channel 0 are taken, the iterations take the others
      one by one and the next one panics. */
  lemma {:induction false} FillsThenCrashes(tracks: seq<seq<seq<u32>>>, e: Score.Ensemble<Ready>, k: nat)
    requires Score.Shaped(tracks, e) && Score.Exhausted(tracks, e, 0)
    requires e.cues[0] == Score.Cue(1, 440, 0) && e.ending == Score.Playing
    requires k <= Lib.VOICES_MAX && e.synth.channels[0].freqs == Taken(k)
    ensures Score.Rounds(false, Band, tracks, AudioChannel.BUFFERS_PER_SECOND, e, Lib.VOICES_MAX - k).ending == Score.Playing
    ensures Score.Rounds(false, Band, tracks, AudioChannel.BUFFERS_PER_SECOND, e, Lib.VOICES_MAX - k + 1).ending == Score.Crashed
    decreases Lib.VOICES_MAX - k
  {
    RefireRound(tracks, e, k);
    var e1 := Score.Round(false, Band, tracks, AudioChannel.BUFFERS_PER_SECOND, e);
    if k < Lib.VOICES_MAX {
      FillsThenCrashes(tracks, e1, k + 1);
    } else {
      assert Score.Rounds(false, Band, tracks, AudioChannel.BUFFERS_PER_SECOND, e, 1) == Score.Rounds(false, Band, tracks, AudioChannel.BUFFERS_PER_SECOND, e1, 0);
    }
  }

  /** Firing any cue on an idle channel succeeds and touches no other channel. */
  lemma FireOnIdle(s: Ready, j: nat, cue: Score.Cue)
    requires j < Lib.CHANNELS_MAX && s.channels[j] == Idle()
    ensures Band.fire(s, j, cue).Value?
    ensures forall m :: 0 <= m < Lib.CHANNELS_MAX && m != j ==> Band.fire(s, j, cue).value.channels[m] == s.channels[m]
  {
    assert FirstIndex(Idle().freqs, 0) == 0;
  }

  /** The corrected inner loop from track `k` on, on a one-line score whose
      tracks from `k` on are due on idle channels: every one of them fires
      and reaches the end of its file. */
  lemma {:induction false} SweepFixedFromIdle(tracks: seq<seq<seq<u32>>>, e: Score.Ensemble<Ready>, k: nat)
    requires OneLineScore(tracks) && Score.Shaped(tracks, e) && e.ending == Score.Playing && k <= Lib.CHANNELS_MAX
    requires forall j :: k <= j < Lib.CHANNELS_MAX ==>
      !e.done[j] && e.pos[j] == 1 && e.cues[j].countdown == 0 && e.synth.channels[j] == Idle()
    requires forall j :: 0 <= j < k ==> e.done[j]
    ensures var e' := Score.SweepFixed(Band, tracks, AudioChannel.BUFFERS_PER_SECOND, e, k);
      e'.ending == Score.Playing && Score.AllDone(e')
      && (forall j :: 0 <= j < k ==> e'.pos[j] == e.pos[j])
      && (forall j :: k <= j < Lib.CHANNELS_MAX ==> e'.pos[j] == 2)
    decreases Lib.CHANNELS_MAX - k
  {
    if k < Lib.CHANNELS_MAX {
      var bps := AudioChannel.BUFFERS_PER_SECOND;
      FireOnIdle(e.synth, k, e.cues[k]);
      var (e1, eof) := Score.Visit(Band, tracks, bps, e, k);
      assert Score.ReadLine(tracks[k], 1) == [];
      assert eof && e1.ending == Score.Playing && e1.pos[k] == 2;
      var e2 := e1.(done := e1.done[k := true]);
      SweepFixedFromIdle(tracks, e2, k + 1);
    }
  }

  /** The corrected loop on a one-line score: the first iteration fires
      every track's cue and reaches the end of every file, and the loop
      finishes there. */
  lemma FixedPlaysThrough(tracks: seq<seq<seq<u32>>>, n: nat)
    requires OneLineScore(tracks) && n >= 1
    ensures var e := Score.PlayFiles(true, Band, Quiet(), tracks, AudioChannel.BUFFERS_PER_SECOND, n);
      e.ending == Score.Finished && forall j :: 0 <= j < Lib.CHANNELS_MAX ==> e.pos[j] == 2
  {
    var bps := AudioChannel.BUFFERS_PER_SECOND;
    StartsPlaying(tracks);
    var e0 := Score.StartAll<Ready>(Quiet(), tracks, bps);
    SweepFixedFromIdle(tracks, e0, 0);
    Score.RoundsNext(true, Band, tracks, bps, e0, 0);
    Score.RoundsSettle(true, Band, tracks, bps, e0, 1, n);
  }

  /** The corrected loop plays both scores through. */
  lemma FixedExample(n: nat)
    requires n >= 1
    ensures var e := Score.PlayFiles(true, Band, Quiet(), StarvingScore(), AudioChannel.BUFFERS_PER_SECOND, n);
      e.ending == Score.Finished && forall j :: 0 <= j < Lib.CHANNELS_MAX ==> e.pos[j] == 2
    ensures var e := Score.PlayFiles(true, Band, Quiet(), RepeatedNoteScore(), AudioChannel.BUFFERS_PER_SECOND, n);
      e.ending == Score.Finished && forall j :: 0 <= j < Lib.CHANNELS_MAX ==> e.pos[j] == 2
  {
    var starving, repeated := StarvingScore(), RepeatedNoteScore();
    assert OneLineScore(starving) && OneLineScore(repeated);
    FixedPlaysThrough(starving, n);
    FixedPlaysThrough(repeated, n);
  }
}
