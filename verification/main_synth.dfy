/** The synthesizer of the self-contained snapshot (src/main.rs):
    `N_CHANNELS` channels combined by the Pulse Interleaving Method (every
    channel advances on every sample, and the output sample is taken from
    one channel after the other). It is the twin of `AudioSynth` (the
    library snapshot), member for member, with this snapshot's constants,
    duty 62 and `voice_on`/`voice_off`. */
module MainSynth {

  import opened Common
  import opened Arith
  import MainConfig
  import Utils
  import Score
  import RoundRobin
  import MainVoice
  import opened MainChannel

  /** One sample of one channel, as a function value. */
  function ChannelTick(c: ChannelState): (ChannelState, bool)
  {
    c.Tick()
  }

  /** The fields of a synthesizer. */
  datatype SynthState = SynthState(channels: seq<ChannelState>, current: nat)
  {
    /** `N_CHANNELS` consistent channels, and the cursor in range. */
    predicate Inv()
    {
      |channels| == MainConfig.N_CHANNELS && current < MainConfig.N_CHANNELS
      && forall i :: 0 <= i < |channels| ==> channels[i].Inv()
    }

    /** `synth_out()`: every channel produces a sample, the one under the
        cursor is the output, and the cursor moves on. */
    function Out(): (SynthState, bool)
      requires |channels| == MainConfig.N_CHANNELS && current < MainConfig.N_CHANNELS
    {
      (this.(channels := RoundRobin.StepAll(ChannelTick, channels), current := (current + 1) % MainConfig.N_CHANNELS),
       channels[current].Tick().1)
    }

    /** `n` successive `synth_out()` calls. */
    function Outs(n: nat): (r: (SynthState, seq<bool>))
      requires |channels| == MainConfig.N_CHANNELS && current < MainConfig.N_CHANNELS
      ensures |r.0.channels| == MainConfig.N_CHANNELS && r.0.current < MainConfig.N_CHANNELS && |r.1| == n
      decreases n
    {
      if n == 0 then (this, [])
      else
        var (s, bit) := Out();
        var (s', bits) := s.Outs(n - 1);
        (s', [bit] + bits)
    }

    /** `self.channels[n].voice_on(freq, duty)`. */
    function VoiceOn(freq: u32, duty: u32, n: nat): Outcome<SynthState>
      requires n < |channels| && |channels[n].voices| == |channels[n].freqs|
    {
      match channels[n].VoiceOn(freq, duty)
      case Panic => Panic
      case Value(c) => Value(this.(channels := channels[n := c]))
    }

    /** `self.channels[n].voice_off(freq)`. */
    function VoiceOff(freq: u32, n: nat): SynthState
      requires n < |channels| && |channels[n].voices| == |channels[n].freqs|
    {
      this.(channels := channels[n := channels[n].VoiceOff(freq)])
    }
  }

  /** `Synth::default()`. */
  function Quiet(): (s: SynthState)
    ensures s.Inv()
  {
    SynthState(seq(MainConfig.N_CHANNELS, _ => Idle()), 0)
  }

  lemma {:induction false} OutsSnoc(s: SynthState, n: nat)
    requires |s.channels| == MainConfig.N_CHANNELS && s.current < MainConfig.N_CHANNELS
    ensures var (s1, bits) := s.Outs(n);
      s.Outs(n + 1) == (s1.Out().0, bits + [s1.Out().1])
    decreases n
  {
    var (s0, bit) := s.Out();
    if n == 0 {
      assert s0.Outs(0) == (s0, []);
      assert [bit] + [] == [bit] == [] + [bit];
    } else {
      OutsSnoc(s0, n - 1);
      var (s1, bits) := s0.Outs(n - 1);
      assert [bit] + (bits + [s1.Out().1]) == ([bit] + bits) + [s1.Out().1];
    }
  }

  /** `n` samples of the synthesizer are the round-robin interleaving of
      its channels: all channels advance `n` steps and the cursor moves `n`
      places. By `RoundRobin.Window`, sample `k` is then the sample channel
      `(current + k) % N_CHANNELS` produces on its `k`-th step. */
  lemma {:induction false} OutsInterleave(s: SynthState, n: nat)
    requires |s.channels| == MainConfig.N_CHANNELS && s.current < MainConfig.N_CHANNELS
    ensures s.Outs(n).1 == RoundRobin.Run(ChannelTick, s.channels, s.current, n)
    ensures s.Outs(n).0 == s.(channels := RoundRobin.StepAllN(ChannelTick, s.channels, n),
                              current := (s.current + n) % MainConfig.N_CHANNELS)
  {
    OutsRun(s, n);
    OutsState(s, n);
  }

  lemma {:induction false} OutsRun(s: SynthState, n: nat)
    requires |s.channels| == MainConfig.N_CHANNELS && s.current < MainConfig.N_CHANNELS
    ensures s.Outs(n).1 == RoundRobin.Run(ChannelTick, s.channels, s.current, n)
    decreases n
  {
    if n > 0 {
      OutsRun(s.Out().0, n - 1);
    }
  }

  lemma {:induction false} OutsState(s: SynthState, n: nat)
    requires |s.channels| == MainConfig.N_CHANNELS && s.current < MainConfig.N_CHANNELS
    ensures s.Outs(n).0 == s.(channels := RoundRobin.StepAllN(ChannelTick, s.channels, n),
                              current := (s.current + n) % MainConfig.N_CHANNELS)
    decreases n
  {
    if n == 0 {
      ModUnique(s.current, MainConfig.N_CHANNELS, 0, s.current);
    } else {
      OutsState(s.Out().0, n - 1);
      ModShift(s.current + 1, n - 1, MainConfig.N_CHANNELS);
    }
  }

  /** Every operation keeps the synthesizer consistent. */
  lemma OperationsKeepInv(s: SynthState, freq: u32, duty: u32, n: nat, m: nat)
    requires s.Inv() && n < MainConfig.N_CHANNELS
    ensures s.VoiceOn(freq, duty, n).Value? ==> s.VoiceOn(freq, duty, n).value.Inv()
    ensures s.VoiceOff(freq, n).Inv() && s.Out().0.Inv() && s.Outs(m).0.Inv()
  {
    MainChannel.OperationsKeepInv(s.channels[n], freq, duty, 0);
    forall i | 0 <= i < MainConfig.N_CHANNELS
      ensures s.Out().0.channels[i].Inv()
    {
      MainChannel.OperationsKeepInv(s.channels[i], freq, duty, 0);
    }
    OutsKeepInv(s, m);
  }

  lemma {:induction false} OutsKeepInv(s: SynthState, m: nat)
    requires s.Inv()
    ensures s.Outs(m).0.Inv()
    decreases m
  {
    if m > 0 {
      forall i | 0 <= i < MainConfig.N_CHANNELS
        ensures s.Out().0.channels[i].Inv()
      {
        MainChannel.OperationsKeepInv(s.channels[i], 0, 0, 0);
      }
      OutsKeepInv(s.Out().0, m - 1);
    }
  }

  /** The channels after the first `i` of them have taken one step. */
  function TickedUpTo(channels: seq<ChannelState>, i: nat): (r: seq<ChannelState>)
  {
    seq(|channels|, j requires 0 <= j < |channels| => if j < i then channels[j].Tick().0 else channels[j])
  }

  lemma TickedUpToNext(channels: seq<ChannelState>, i: nat)
    requires i < |channels|
    ensures TickedUpTo(channels, i + 1) == TickedUpTo(channels, i)[i := channels[i].Tick().0]
  {
  }

  /** A synthesizer whose channels are consistent. */
  type Ready = s: SynthState | s.Inv() witness Quiet()

  /** The action of the cue of track `i` in `play_files`, on channel `i`:
      status 0 turns its frequency off, any other status turns it on with
      duty 62. A track without a channel is an index out of bounds. */
  function FireTrack(s: Ready, i: nat, cue: Score.Cue): Outcome<Ready>
  {
    if i >= MainConfig.N_CHANNELS then Panic
    else
      OperationsKeepInv(s, cue.freq, PLAY_FILE_DUTY, i, 0);
      if cue.status == 0 then
        var s': Ready := s.VoiceOff(cue.freq, i);
        Value(s')
      else
        match s.VoiceOn(cue.freq, PLAY_FILE_DUTY, i)
        case Panic => Panic
        case Value(s') =>
          var r: Ready := s';
          Value(r)
  }

  /** `synth_out_buffer()` on a consistent synthesizer. */
  function RenderBuffer(s: Ready): (Ready, seq<bool>)
  {
    OutsKeepInv(s, MainConfig.BUFFER_SIZE);
    var (s', buffer) := s.Outs(MainConfig.BUFFER_SIZE);
    var r: Ready := s';
    (r, buffer)
  }

  lemma RenderIsOutBuffer(s: Ready)
    ensures Band.render(s) == s.Outs(MainConfig.BUFFER_SIZE)
  {
  }

  /** The synthesizer transitions `play_files` drives. */
  const Band: Score.Rig<Ready> := Score.Rig(FireTrack, RenderBuffer)

  /** No track is marked done by the loop as written. */
  function NoneDone(): seq<bool>
  {
    seq(MainConfig.N_CHANNELS, _ => false)
  }

  /** `n` channels made by `Channel::default()`, each with objects of its own. */
  method NewChannels(n: nat) returns (cs: seq<Channel>)
    ensures |cs| == n
    ensures forall i :: 0 <= i < n ==> cs[i].Valid() && cs[i].State() == Idle()
    ensures forall i, j :: 0 <= i < n && 0 <= j < n && i != j ==>
              cs[i] != cs[j] && cs[i].voices != cs[j].voices && cs[i].freqs != cs[j].freqs
  {
    cs := [];
    while |cs| < n
      invariant |cs| <= n
      invariant forall i :: 0 <= i < |cs| ==> fresh(cs[i]) && fresh(cs[i].voices) && fresh(cs[i].freqs)
      invariant forall i :: 0 <= i < |cs| ==> cs[i].Valid() && cs[i].State() == Idle()
      invariant forall i, j :: 0 <= i < |cs| && 0 <= j < |cs| && i != j ==>
                  cs[i] != cs[j] && cs[i].voices != cs[j].voices && cs[i].freqs != cs[j].freqs
      decreases n - |cs|
    {
      var c := new Channel();
      cs := cs + [c];
    }
  }

  /** A synthesizer object. Its `N_CHANNELS` channels are objects updated
      in place; the references to them never change. */
  class Synth {
    const channels: seq<Channel>
    var current: nat

    /** The objects the channels own. */
    ghost function Footprint(): set<object>
    {
      (set i | 0 <= i < |channels| :: channels[i] as object)
      + (set i | 0 <= i < |channels| :: channels[i].voices as object)
      + (set i | 0 <= i < |channels| :: channels[i].freqs as object)
    }

    /** No two channels share an object. */
    ghost predicate Distinct()
    {
      |channels| == MainConfig.N_CHANNELS
      && forall i, j :: 0 <= i < |channels| && 0 <= j < |channels| && i != j ==>
           channels[i] != channels[j] && channels[i].voices != channels[j].voices && channels[i].freqs != channels[j].freqs
    }

    ghost predicate Valid()
      reads this, Footprint()
    {
      Distinct() && current < MainConfig.N_CHANNELS
      && forall i :: 0 <= i < |channels| ==> channels[i].Valid()
    }

    ghost function State(): SynthState
      reads this, Footprint()
    {
      SynthState(seq(|channels|, i requires 0 <= i < |channels| reads Footprint() => channels[i].State()),
                 current)
    }

    /** `Synth::default()`. */
    constructor ()
      ensures Valid() && State() == Quiet()
    {
      var cs := NewChannels(MainConfig.N_CHANNELS);
      channels := cs;
      current := 0;
      new;
      assert State().channels == Quiet().channels;
    }

    /** `self.channels[n].voice_on(freq, duty)`. */
    method VoiceOn(freq: u32, duty: u32, n: nat) returns (status: Status)
      requires Valid() && n < MainConfig.N_CHANNELS
      modifies channels[n].voices, channels[n].freqs
      ensures Valid()
      ensures match old(State()).VoiceOn(freq, duty, n)
        case Panic => status == Panicked && State() == old(State())
        case Value(s) => status == Returned && State() == s
    {
      ghost var s := State();
      status := channels[n].VoiceOn(freq, duty);
      assert forall j :: 0 <= j < |channels| && j != n ==> channels[j].State() == s.channels[j];
      assert State().channels == s.channels[n := channels[n].State()];
    }

    /** `self.channels[n].voice_off(freq)`. */
    method VoiceOff(freq: u32, n: nat)
      requires Valid() && n < MainConfig.N_CHANNELS
      modifies channels[n].voices, channels[n].freqs
      ensures Valid() && State() == old(State()).VoiceOff(freq, n)
    {
      ghost var s := State();
      channels[n].VoiceOff(freq);
      assert forall j :: 0 <= j < |channels| && j != n ==> channels[j].State() == s.channels[j];
      assert State().channels == s.channels[n := channels[n].State()];
    }

    /** `self.channels[i].out()`: channel `i` takes one step, the others keep still. */
    method TickChannel(i: nat) returns (bit: bool)
      requires Valid() && i < MainConfig.N_CHANNELS
      modifies channels[i].voices
      ensures Valid()
      ensures var s := old(State());
        State() == s.(channels := s.channels[i := s.channels[i].Tick().0]) && bit == s.channels[i].Tick().1
    {
      ghost var s := State();
      bit := channels[i].Out();
      assert forall j :: 0 <= j < |channels| && j != i ==> channels[j].State() == s.channels[j];
      assert State().channels == s.channels[i := channels[i].State()];
    }

    method Out() returns (out: bool)
      requires Valid()
      modifies this, set i | 0 <= i < |channels| :: channels[i].voices
      ensures Valid() && (State(), out) == old(State()).Out()
    {
      ghost var s := State();
      out := false;
      for i := 0 to MainConfig.N_CHANNELS
        invariant Valid()
        invariant State() == s.(channels := TickedUpTo(s.channels, i))
        invariant i > s.current ==> out == s.channels[s.current].Tick().1
      {
        TickedUpToNext(s.channels, i);
        var bit := TickChannel(i);
        if i == current {
          out := bit;
        }
      }
      assert TickedUpTo(s.channels, MainConfig.N_CHANNELS) == RoundRobin.StepAll(ChannelTick, s.channels);
      ghost var ticked := State().channels;
      current := (current + 1) % MainConfig.N_CHANNELS;
      assert State().channels == ticked;
    }

    method OutBuffer() returns (buffer: seq<bool>)
      requires Valid()
      modifies this, set i | 0 <= i < |channels| :: channels[i].voices
      ensures Valid() && (State(), buffer) == old(State()).Outs(MainConfig.BUFFER_SIZE)
    {
      ghost var s := State();
      var b := new bool[MainConfig.BUFFER_SIZE](_ => false);
      for i := 0 to MainConfig.BUFFER_SIZE
        invariant Valid()
        invariant State() == s.Outs(i).0
        invariant b[..i] == s.Outs(i).1
      {
        OutsSnoc(s, i);
        Sample(b, i);
      }
      buffer := b[..];
      assert buffer == b[..MainConfig.BUFFER_SIZE];
    }

    /** `buffer[i] = self.synth_out()`. */
    method Sample(b: array<bool>, i: nat)
      requires Valid() && i < b.Length && b !in Footprint()
      modifies this, b, set i | 0 <= i < |channels| :: channels[i].voices
      ensures Valid() && State() == old(State()).Out().0
      ensures b[..i + 1] == old(b[..i]) + [old(State()).Out().1]
    {
      var bit := Out();
      b[i] := bit;
    }

    /** The messages of the channels, as cues. */
    ghost function Messages(): seq<Score.Cue>
      reads Footprint()
    {
      seq(|channels|, i requires 0 <= i < |channels| reads Footprint() =>
        Score.Cue(channels[i].message.0, channels[i].message.1, channels[i].message.2))
    }

    /** The iteration state of `play_files` these fields stand for. */
    ghost function Snapshot(pos: seq<nat>): Score.Ensemble<Ready>
      reads this, Footprint()
      requires Valid()
    {
      Score.Ensemble(State(), Messages(), pos, NoneDone(), [], Score.Playing)
    }

    /** The turn of track `i` in the inner loop of `play_files`. */
    method Visit(tracks: seq<seq<seq<u32>>>, pos: seq<nat>, i: nat) returns (crashed: bool, eof: bool, pos': seq<nat>)
      requires Valid() && |tracks| == MainConfig.N_CHANNELS && |pos| == MainConfig.N_CHANNELS && i < MainConfig.N_CHANNELS
      modifies channels[i], channels[i].voices, channels[i].freqs
      ensures Valid()
      ensures var (e, end) := Score.Visit(Band, tracks, MainChannel.BUFFERS_PER_SECOND, old(Snapshot(pos)), i);
        State() == e.synth && pos' == e.pos && eof == end && (crashed <==> e.ending == Score.Crashed)
        && (!crashed ==> Messages() == e.cues)
    {
      var (status, freq, counter) := channels[i].message;
      if counter == 0 {
        var panicked := FireCue(i, status, freq);
        if panicked {
          return true, false, pos;
        }
        crashed, eof, pos' := NextCue(tracks, pos, i);
      } else {
        channels[i].message := (status, freq, counter - 1);
        crashed, eof, pos' := false, false, pos;
        assert Messages() == old(Messages())[i := Score.Cue(status, freq, counter - 1)];
      }
    }

    /** A due cue of track `i` acts on channel `i`: `voice_off` for status 0,
        `voice_on` with duty 62 otherwise. */
    method FireCue(i: nat, status: u32, freq: u32) returns (panicked: bool)
      requires Valid() && i < MainConfig.N_CHANNELS
      modifies channels[i].voices, channels[i].freqs
      ensures Valid() && Messages() == old(Messages())
      ensures match FireTrack(old(State()), i, Score.Cue(status, freq, 0))
        case Panic => panicked && State() == old(State())
        case Value(s) => !panicked && State() == s
    {
      panicked := false;
      if status == 0 {
        VoiceOff(freq, i);
      } else {
        var st := VoiceOn(freq, PLAY_FILE_DUTY, i);
        panicked := st == Panicked;
      }
    }

    /** After a due cue of track `i`: the next line of its file is read and
        becomes its message; an empty line is the end of the file and a
        short one panics. */
    method NextCue(tracks: seq<seq<seq<u32>>>, pos: seq<nat>, i: nat) returns (crashed: bool, eof: bool, pos': seq<nat>)
      requires Valid() && |tracks| == MainConfig.N_CHANNELS && |pos| == MainConfig.N_CHANNELS && i < MainConfig.N_CHANNELS
      modifies channels[i]
      ensures Valid() && State() == old(State()) && pos' == pos[i := pos[i] + 1]
      ensures var parts := Score.ReadLine(tracks[i], pos[i]);
        (eof <==> parts == []) && (crashed <==> parts != [] && |parts| < 3)
        && (!crashed && !eof ==> Messages() == old(Messages())[i := Score.ParseCue(parts, MainChannel.BUFFERS_PER_SECOND).value])
        && (eof ==> Messages() == old(Messages()))
    {
      var parts := Score.ReadLine(tracks[i], pos[i]);
      pos' := pos[i := pos[i] + 1];
      crashed, eof := false, false;
      if |parts| == 0 {
        eof := true;
        return;
      }
      if |parts| < 3 {
        crashed := true;
        return;
      }
      channels[i].message := (parts[0], parts[1], Score.Countdown(parts[2], MainChannel.BUFFERS_PER_SECOND));
      assert Messages() == old(Messages())[i := Score.Cue(parts[0], parts[1], Score.Countdown(parts[2], MainChannel.BUFFERS_PER_SECOND))];
    }

    /** The inner loop of `play_files` as written, `break` included. */
    method Sweep(tracks: seq<seq<seq<u32>>>, pos: seq<nat>) returns (crashed: bool, pos': seq<nat>)
      requires Valid() && |tracks| == MainConfig.N_CHANNELS && |pos| == MainConfig.N_CHANNELS
      modifies Footprint()
      ensures Valid()
      ensures var e := Score.Sweep(Band, tracks, MainChannel.BUFFERS_PER_SECOND, old(Snapshot(pos)), 0);
        State() == e.synth && pos' == e.pos && (crashed <==> e.ending == Score.Crashed)
        && (!crashed ==> Messages() == e.cues)
    {
      ghost var goal := Score.Sweep(Band, tracks, MainChannel.BUFFERS_PER_SECOND, Snapshot(pos), 0);
      crashed, pos' := false, pos;
      for i := 0 to MainConfig.N_CHANNELS
        invariant Valid() && |pos'| == MainConfig.N_CHANNELS && !crashed
        invariant goal == Score.Sweep(Band, tracks, MainChannel.BUFFERS_PER_SECOND, Snapshot(pos'), i)
      {
        ghost var before := Snapshot(pos');
        var eof;
        crashed, eof, pos' := Visit(tracks, pos', i);
        ghost var v := Score.Visit(Band, tracks, MainChannel.BUFFERS_PER_SECOND, before, i);
        if crashed || eof {
          assert goal == v.0;
          return;
        }
        assert Snapshot(pos') == v.0;
      }
    }

    /** The first loop of `play_files`: the first line of every track
        becomes that channel's message. */
    method ReadFirstLines(tracks: seq<seq<seq<u32>>>) returns (ok: bool)
      requires Valid() && |tracks| == MainConfig.N_CHANNELS
      modifies channels
      ensures Valid() && State() == old(State())
      ensures var start := Score.StartAll<Ready>(old(State()), tracks, MainChannel.BUFFERS_PER_SECOND);
        (ok <==> start.ending == Score.Playing)
        && (ok ==> Snapshot(seq(MainConfig.N_CHANNELS, _ => 1)) == start)
    {
      for i := 0 to MainConfig.N_CHANNELS
        invariant Valid() && State() == old(State())
        invariant forall j :: 0 <= j < i ==>
          (|Score.ReadLine(tracks[j], 0)| >= 3
           && Score.ParseCue(Score.ReadLine(tracks[j], 0), MainChannel.BUFFERS_PER_SECOND) == Value(Messages()[j]))
      {
        var parts := Score.ReadLine(tracks[i], 0);
        if |parts| < 3 {
          return false;
        }
        channels[i].message := (parts[0], parts[1], Score.Countdown(parts[2], MainChannel.BUFFERS_PER_SECOND));
      }
      ok := true;
    }

    /** The fields stand for the loop state `e` of `play_files`, which is
        still playing, at read positions `pos`. */
    ghost predicate Holds(e: Score.Ensemble<Ready>, pos: seq<nat>)
      reads this, Footprint()
    {
      Valid() && |pos| == MainConfig.N_CHANNELS && e.ending == Score.Playing
      && e.synth == State() && e.pos == pos && e.done == NoneDone() && e.cues == Messages()
    }

    /** One buffer of output, and the bytes `write_buffer` makes of it. */
    method Emit() returns (buffer: seq<bool>, out: seq<u8>)
      requires Valid()
      modifies this, set i | 0 <= i < |channels| :: channels[i].voices
      ensures Valid() && (State(), buffer) == old(State()).Outs(MainConfig.BUFFER_SIZE)
      ensures out == Utils.Amplitudes(buffer, LEVEL)
      ensures Messages() == old(Messages())
    {
      buffer := OutBuffer();
      ghost var s := State();
      out := Utils.WriteBuffer(buffer, LEVEL);
      assert State() == s;
    }

    /** One iteration of the outer loop of `play_files`: the inner loop, then,
        unless a panic ended it, one buffer of output and the bytes
        `write_buffer` makes of it. */
    method Round(tracks: seq<seq<seq<u32>>>, pos: seq<nat>) returns (crashed: bool, pos': seq<nat>, buffer: seq<bool>, out: seq<u8>)
      requires Valid() && |tracks| == MainConfig.N_CHANNELS && |pos| == MainConfig.N_CHANNELS
      modifies this, Footprint()
      ensures Valid()
      ensures var e1 := Score.Sweep(Band, tracks, MainChannel.BUFFERS_PER_SECOND, old(Snapshot(pos)), 0);
        pos' == e1.pos && (crashed <==> e1.ending == Score.Crashed)
        && (crashed ==> State() == e1.synth)
        && (!crashed ==> State() == Band.render(e1.synth).0 && buffer == Band.render(e1.synth).1 && Messages() == e1.cues)
      ensures out == Utils.Amplitudes(buffer, LEVEL)
    {
      crashed, pos' := Sweep(tracks, pos);
      buffer, out := [], [];
      if !crashed {
        RenderIsOutBuffer(State());
        buffer, out := Emit();
      }
    }

    /** `play_files` over one track per channel, for at most `fuel`
        iterations of its outer loop; `written` holds what `write_buffer`
        sent to the device. */
    method PlayFiles(tracks: seq<seq<seq<u32>>>, fuel: nat) returns (ending: Score.Ending, written: seq<seq<u8>>)
      requires Valid() && |tracks| == MainConfig.N_CHANNELS
      modifies this, Footprint()
      ensures Valid()
      ensures var e := Score.PlayFiles(false, Band, old(State()), tracks, MainChannel.BUFFERS_PER_SECOND, fuel);
        ending == e.ending && State() == e.synth && written == Utils.AmplitudeLog(e.out, LEVEL)
    {
      ghost var start := Score.StartAll<Ready>(State(), tracks, MainChannel.BUFFERS_PER_SECOND);
      var ok := ReadFirstLines(tracks);
      if !ok {
        Score.StoppedRoundsStay(false, Band, tracks, MainChannel.BUFFERS_PER_SECOND, start, fuel);
        return Score.Crashed, [];
      }
      ending, written := PlayRounds(tracks, seq(MainConfig.N_CHANNELS, _ => 1), fuel);
    }

    /** The outer loop of `play_files`, from the read positions `pos` and the
        cues held in the channels' messages. */
    method PlayRounds(tracks: seq<seq<seq<u32>>>, pos: seq<nat>, fuel: nat) returns (ending: Score.Ending, written: seq<seq<u8>>)
      requires Valid() && |tracks| == MainConfig.N_CHANNELS && |pos| == MainConfig.N_CHANNELS
      modifies this, Footprint()
      ensures Valid()
      ensures var e := Score.Rounds(false, Band, tracks, MainChannel.BUFFERS_PER_SECOND, old(Snapshot(pos)), fuel);
        ending == e.ending && State() == e.synth && written == Utils.AmplitudeLog(e.out, LEVEL)
    {
      ghost var start := Snapshot(pos);
      var pos := pos;
      ending, written := Score.Playing, [];
      ghost var e := start;
      var n := 0;
      while n < fuel && ending == Score.Playing
        invariant n <= fuel && Valid() && e.synth == State() && e.ending == ending
        invariant e == Score.Rounds(false, Band, tracks, MainChannel.BUFFERS_PER_SECOND, start, n)
        invariant ending == Score.Playing ==> Holds(e, pos)
        invariant written == Utils.AmplitudeLog(e.out, LEVEL)
        decreases fuel - n
      {
        ghost var next := Score.Round(false, Band, tracks, MainChannel.BUFFERS_PER_SECOND, e);
        Score.RoundAsWritten(Band, tracks, MainChannel.BUFFERS_PER_SECOND, e);
        assert Snapshot(pos) == e.(out := []);
        var crashed, buffer, out;
        crashed, pos, buffer, out := Round(tracks, pos);
        if crashed {
          ending := Score.Crashed;
        } else {
          assert next.out == e.out + [buffer];
          Utils.AmplitudeLogSnoc(e.out, buffer, LEVEL);
          written := written + [out];
        }
        Score.RoundsNext(false, Band, tracks, MainChannel.BUFFERS_PER_SECOND, start, n);
        e := next;
        n := n + 1;
      }
      Score.RoundsSettle(false, Band, tracks, MainChannel.BUFFERS_PER_SECOND, start, n, fuel);
    }
  }

  /** Four one-line tracks: track 0 turns 440 Hz off, the other three turn
      it on, none waiting. */
  function StarvingScore(): seq<seq<seq<u32>>>
  {
    [[[0, 440, 0]], [[1, 440, 0]], [[1, 440, 0]], [[1, 440, 0]]]
  }

  /** Four one-line tracks that each turn 440 Hz on. */
  function RepeatedNoteScore(): seq<seq<seq<u32>>>
  {
    [[[1, 440, 0]], [[1, 440, 0]], [[1, 440, 0]], [[1, 440, 0]]]
  }

  /** One track per channel, each the single line `status 440 0`. */
  predicate OneLineScore(tracks: seq<seq<seq<u32>>>)
  {
    |tracks| == MainConfig.N_CHANNELS
    && forall j :: 0 <= j < |tracks| ==>
         |tracks[j]| == 1 && |tracks[j][0]| == 3 && tracks[j][0][1] == 440 && tracks[j][0][2] == 0
  }

  /** The first loop of `play_files` on such a score reads every first line:
      every track is at line 1 with the cue of that line. */
  lemma StartsPlaying(tracks: seq<seq<seq<u32>>>)
    requires OneLineScore(tracks)
    ensures var e := Score.StartAll<Ready>(Quiet(), tracks, MainChannel.BUFFERS_PER_SECOND);
      e.ending == Score.Playing && e.synth == Quiet()
      && forall j :: 0 <= j < |tracks| ==>
           e.pos[j] == 1 && !e.done[j] && e.cues[j] == Score.Cue(tracks[j][0][0], 440, 0)
  {
    var e := Score.StartAll<Ready>(Quiet(), tracks, MainChannel.BUFFERS_PER_SECOND);
    forall j | 0 <= j < |tracks|
      ensures e.cues[j] == Score.Cue(tracks[j][0][0], 440, 0)
    {
      assert Score.ReadLine(tracks[j], 0) == tracks[j][0];
    }
  }

  /** Rendering a buffer takes or frees no slot of any channel. */
  lemma RenderKeepsSlots(s: Ready)
    ensures forall j :: 0 <= j < MainConfig.N_CHANNELS ==> Band.render(s).0.channels[j].freqs == s.channels[j].freqs
  {
    RenderIsOutBuffer(s);
    var s1 := s.Out().0;
    assert s.Outs(1).0 == s1.Outs(0).0 == s1;
    forall j | 0 <= j < MainConfig.N_CHANNELS
      ensures s1.channels[j].freqs == s.channels[j].freqs
    {
      TickKeepsSwitches(s.channels[j]);
    }
  }

  /** The slots of a channel whose first `k` voices play 440 Hz. */
  function Taken(k: nat): seq<u32>
  {
    seq(MainConfig.N_VOICES, j => if j < k then 440 else 0)
  }

  /** One iteration as written once track 0 has ended on `1 440 0`, as in
      the repeated-note score: its voice-on takes the next free voice of
      channel 0, or panics when all four are taken. */
  lemma RefireRound(tracks: seq<seq<seq<u32>>>, e: Score.Ensemble<Ready>, k: nat)
    requires Score.Shaped(tracks, e) && Score.Exhausted(tracks, e, 0)
    requires e.cues[0] == Score.Cue(1, 440, 0) && e.ending == Score.Playing
    requires k <= MainConfig.N_VOICES && e.synth.channels[0].freqs == Taken(k)
    ensures var e' := Score.Round(false, Band, tracks, MainChannel.BUFFERS_PER_SECOND, e);
      (k < MainConfig.N_VOICES ==>
         e'.ending == Score.Playing && Score.Exhausted(tracks, e', 0)
         && e'.cues[0] == e.cues[0] && e'.synth.channels[0].freqs == Taken(k + 1))
      && (k == MainConfig.N_VOICES ==> e'.ending == Score.Crashed)
  {
    Score.ExhaustedRefires(Band, tracks, MainChannel.BUFFERS_PER_SECOND, e);
    var c := e.synth.channels[0];
    var i := FirstIndex(c.freqs, 0);
    if k < MainConfig.N_VOICES {
      assert c.freqs[k] == 0;
      assert i == k;
      var s' := Band.fire(e.synth, 0, e.cues[0]).value;
      assert s'.channels[0].freqs == c.freqs[k := 440] == Taken(k + 1);
      RenderKeepsSlots(s');
    } else {
      assert i == MainConfig.N_VOICES;
    }
  }

  /** Once track 0 has ended on a cue with status 0, the loop as written
      re-fires that voice-off, which never panics, in every iteration: it
      never stops. */
  lemma NoteOffRefiredForever(tracks: seq<seq<seq<u32>>>, e: Score.Ensemble<Ready>, n: nat)
    requires Score.Shaped(tracks, e) && Score.Exhausted(tracks, e, 0)
    requires e.cues[0].status == 0 && e.ending == Score.Playing
    ensures Score.Rounds(false, Band, tracks, MainChannel.BUFFERS_PER_SECOND, e, n).ending == Score.Playing
  {
    forall s: Ready
      ensures Band.fire(s, 0, e.cues[0]).Value?
    {
      assert Band.fire(s, 0, e.cues[0]) == FireTrack(s, 0, e.cues[0]);
    }
    Score.RefiredForever(Band, tracks, MainChannel.BUFFERS_PER_SECOND, e, n);
  }

  /** As written, once track 0 of the starving score has ended, `break`
      keeps tracks 1 to 3 from ever being visited: for any number of
      iterations the loop is still playing, their notes have never been
      turned on and no line after their first has been read. */
  lemma StarvationExample(n: nat)
    ensures var e := Score.PlayFiles(false, Band, Quiet(), StarvingScore(), MainChannel.BUFFERS_PER_SECOND, n);
      e.ending == Score.Playing
      && forall j :: 1 <= j < MainConfig.N_CHANNELS ==> e.pos[j] == 1 && e.cues[j] == Score.Cue(1, 440, 0)
  {
    var tracks := StarvingScore();
    StartsPlaying(tracks);
    StarvesFrom(Score.StartAll<Ready>(Quiet(), tracks, MainChannel.BUFFERS_PER_SECOND), n);
  }

  /** From an iteration where track 0 of the starving score has ended and
      tracks 1 to 3 wait at their first line, they wait there forever. */
  lemma StarvesFrom(e: Score.Ensemble<Ready>, n: nat)
    requires Score.Shaped(StarvingScore(), e) && Score.Exhausted(StarvingScore(), e, 0)
    requires e.cues[0] == Score.Cue(0, 440, 0) && e.ending == Score.Playing
    requires forall j :: 1 <= j < MainConfig.N_CHANNELS ==> e.pos[j] == 1 && e.cues[j] == Score.Cue(1, 440, 0)
    ensures var e' := Score.Rounds(false, Band, StarvingScore(), MainChannel.BUFFERS_PER_SECOND, e, n);
      e'.ending == Score.Playing
      && forall j :: 1 <= j < MainConfig.N_CHANNELS ==> e'.pos[j] == 1 && e'.cues[j] == Score.Cue(1, 440, 0)
  {
    Score.Starvation(Band, StarvingScore(), MainChannel.BUFFERS_PER_SECOND, e, 0, n);
    NoteOffRefiredForever(StarvingScore(), e, n);
  }

  /** As written, track 0 of the repeated-note score turns 440 Hz on again
      in every iteration; the fifth turn finds the channel's four voices
      taken and panics. */
  lemma RefiredNoteOnCrashes()
    ensures Score.PlayFiles(false, Band, Quiet(), RepeatedNoteScore(), MainChannel.BUFFERS_PER_SECOND, 4).ending == Score.Playing
    ensures Score.PlayFiles(false, Band, Quiet(), RepeatedNoteScore(), MainChannel.BUFFERS_PER_SECOND, 5).ending == Score.Crashed
  {
    var tracks := RepeatedNoteScore();
    StartsPlaying(tracks);
    var e0 := Score.StartAll<Ready>(Quiet(), tracks, MainChannel.BUFFERS_PER_SECOND);
    assert e0.synth.channels[0].freqs == Taken(0);
    FillsThenCrashes(tracks, e0, 0);
  }

  /** From an iteration where track 0 has ended on `1 440 0` and `k` voices
      of channel 0 are taken, the iterations take the others
      one by one and the next one panics. */
  lemma {:induction false} FillsThenCrashes(tracks: seq<seq<seq<u32>>>, e: Score.Ensemble<Ready>, k: nat)
    requires Score.Shaped(tracks, e) && Score.Exhausted(tracks, e, 0)
    requires e.cues[0] == Score.Cue(1, 440, 0) && e.ending == Score.Playing
    requires k <= MainConfig.N_VOICES && e.synth.channels[0].freqs == Taken(k)
    ensures Score.Rounds(false, Band, tracks, MainChannel.BUFFERS_PER_SECOND, e, MainConfig.N_VOICES - k).ending == Score.Playing
    ensures Score.Rounds(false, Band, tracks, MainChannel.BUFFERS_PER_SECOND, e, MainConfig.N_VOICES - k + 1).ending == Score.Crashed
    decreases MainConfig.N_VOICES - k
  {
    RefireRound(tracks, e, k);
    var e1 := Score.Round(false, Band, tracks, MainChannel.BUFFERS_PER_SECOND, e);
    if k < MainConfig.N_VOICES {
      FillsThenCrashes(tracks, e1, k + 1);
    } else {
      assert Score.Rounds(false, Band, tracks, MainChannel.BUFFERS_PER_SECOND, e, 1) == Score.Rounds(false, Band, tracks, MainChannel.BUFFERS_PER_SECOND, e1, 0);
    }
  }

  /** Firing any cue on an idle channel succeeds and touches no other channel. */
  lemma FireOnIdle(s: Ready, j: nat, cue: Score.Cue)
    requires j < MainConfig.N_CHANNELS && s.channels[j] == Idle() && cue.freq == 440
    ensures Band.fire(s, j, cue).Value?
    ensures forall m :: 0 <= m < MainConfig.N_CHANNELS && m != j ==> Band.fire(s, j, cue).value.channels[m] == s.channels[m]
  {
    assert FirstIndex(Idle().freqs, 0) == 0;
    assert MainVoice.CanSet(440, PLAY_FILE_DUTY);
  }

  /** The corrected inner loop from track `k` on, on a one-line score whose
      tracks from `k` on are due at 440 Hz on idle channels: every one of them fires
      and reaches the end of its file. */
  lemma {:induction false} SweepFixedFromIdle(tracks: seq<seq<seq<u32>>>, e: Score.Ensemble<Ready>, k: nat)
    requires OneLineScore(tracks) && Score.Shaped(tracks, e) && e.ending == Score.Playing && k <= MainConfig.N_CHANNELS
    requires forall j :: k <= j < MainConfig.N_CHANNELS ==>
      !e.done[j] && e.pos[j] == 1 && e.cues[j].countdown == 0 && e.cues[j].freq == 440
      && e.synth.channels[j] == Idle()
    requires forall j :: 0 <= j < k ==> e.done[j]
    ensures var e' := Score.SweepFixed(Band, tracks, MainChannel.BUFFERS_PER_SECOND, e, k);
      e'.ending == Score.Playing && Score.AllDone(e')
      && (forall j :: 0 <= j < k ==> e'.pos[j] == e.pos[j])
      && (forall j :: k <= j < MainConfig.N_CHANNELS ==> e'.pos[j] == 2)
    decreases MainConfig.N_CHANNELS - k
  {
    if k < MainConfig.N_CHANNELS {
      var bps := MainChannel.BUFFERS_PER_SECOND;
      FireOnIdle(e.synth, k, e.cues[k]);
      var (e1, eof) := Score.Visit(Band, tracks, bps, e, k);
      assert Score.ReadLine(tracks[k], 1) == [];
      assert eof && e1.ending == Score.Playing && e1.pos[k] == 2;
      var e2 := e1.(done := e1.done[k := true]);
      SweepFixedFromIdle(tracks, e2, k + 1);
    }
  }

  /** The corrected loop on a one-line score: the first iteration fires
      every track's cue and reaches the end of every file, and the loop
      finishes there. */
  lemma FixedPlaysThrough(tracks: seq<seq<seq<u32>>>, n: nat)
    requires OneLineScore(tracks) && n >= 1
    ensures var e := Score.PlayFiles(true, Band, Quiet(), tracks, MainChannel.BUFFERS_PER_SECOND, n);
      e.ending == Score.Finished && forall j :: 0 <= j < MainConfig.N_CHANNELS ==> e.pos[j] == 2
  {
    var bps := MainChannel.BUFFERS_PER_SECOND;
    StartsPlaying(tracks);
    var e0 := Score.StartAll<Ready>(Quiet(), tracks, bps);
    SweepFixedFromIdle(tracks, e0, 0);
    Score.RoundsNext(true, Band, tracks, bps, e0, 0);
    Score.RoundsSettle(true, Band, tracks, bps, e0, 1, n);
  }

  /** The corrected loop plays both scores through. */
  lemma FixedExample(n: nat)
    requires n >= 1
    ensures var e := Score.PlayFiles(true, Band, Quiet(), StarvingScore(), MainChannel.BUFFERS_PER_SECOND, n);
      e.ending == Score.Finished && forall j :: 0 <= j < MainConfig.N_CHANNELS ==> e.pos[j] == 2
    ensures var e := Score.PlayFiles(true, Band, Quiet(), RepeatedNoteScore(), MainChannel.BUFFERS_PER_SECOND, n);
      e.ending == Score.Finished && forall j :: 0 <= j < MainConfig.N_CHANNELS ==> e.pos[j] == 2
  {
    var starving, repeated := StarvingScore(), RepeatedNoteScore();
    assert OneLineScore(starving) && OneLineScore(repeated);
    FixedPlaysThrough(starving, n);
    FixedPlaysThrough(repeated, n);
  }
}
