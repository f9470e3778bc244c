/** A channel of the library snapshot (src/audio/channel.rs): `VOICES_MAX`
    voice slots held by value, the frequency each slot plays (0 when free),
    mixed by OR-ing the outputs of the voices that are on. Its twin for the
    self-contained snapshot is `MainChannel`. */
module AudioChannel {

  import opened Common
  import opened AudioVoice
  import opened SquareWave
  import Lib
  import Utils
  import Score

  /** The duty `play_file` passes to `note_on`. */
  const PLAY_FILE_DUTY: nat := 62

  /** The index of the first `x` in `s`, or `|s|` when there is none. */
  function FirstIndex(s: seq<u32>, x: u32): (i: nat)
    ensures i <= |s|
    ensures i < |s| ==> s[i] == x
    ensures forall j :: 0 <= j < i ==> s[j] != x
  {
    if s == [] then 0
    else if s[0] == x then 0
    else 1 + FirstIndex(s[1..], x)
  }

  /** The voice after one sample of the channel: advanced when on, untouched when off. */
  function Advanced(v: VoiceState): VoiceState
  {
    if v.on then v.Tick().0 else v
  }

  /** The fields of a channel that its voice operations read and write. */
  datatype ChannelState = ChannelState(voices: seq<VoiceState>, freqs: seq<u32>)
  {
    /** The slot arrays have `VOICES_MAX` entries, a slot is taken exactly when
        its voice is on, and every voice keeps its counter in range. */
    predicate Inv()
    {
      |voices| == Lib.VOICES_MAX && |freqs| == Lib.VOICES_MAX
      && (forall i :: 0 <= i < |voices| ==> (freqs[i] != 0 <==> voices[i].on))
      && (forall i :: 0 <= i < |voices| ==> voices[i].Valid())
    }

    /** `note_on(freq, duty)`: the first free slot takes the note; with no
        free slot the channel panics. */
    function NoteOn(freq: u32, duty: nat): Outcome<ChannelState>
      requires |voices| == |freqs|
    {
      var i := FirstIndex(freqs, 0);
      if i == |freqs| then Panic
      else Value(this.(freqs := freqs[i := freq], voices := voices[i := voices[i].Set(freq, duty as real)]))
    }

    /** `note_off(freq)`: the first slot playing `freq` is freed; nothing
        happens when no slot plays it. */
    function NoteOff(freq: u32): ChannelState
      requires |voices| == |freqs|
    {
      var i := FirstIndex(freqs, freq);
      if i == |freqs| then this
      else this.(freqs := freqs[i := 0], voices := voices[i := voices[i].Unset()])
    }

    /** `out()`: every voice that is on advances by one sample, and the
        channel's sample is the OR of theirs. */
    function Tick(): (ChannelState, bool)
    {
      (this.(voices := seq(|voices|, i requires 0 <= i < |voices| => Advanced(voices[i]))),
       exists i :: 0 <= i < |voices| && voices[i].on && voices[i].Tick().1)
    }

    /** `out_buffer()` for a buffer of `n` samples: every voice that is on
        renders `n` samples, and the buffers are OR-ed. */
    function Render(n: nat): (ChannelState, seq<bool>)
    {
      (this.(voices := seq(|voices|, i requires 0 <= i < |voices| => if voices[i].on then voices[i].TickN(n).0 else voices[i])),
       seq(n, k requires 0 <= k < n => exists i :: 0 <= i < |voices| && voices[i].on && voices[i].TickN(n).1[k]))
    }

    /** `n` successive `out()` calls. */
    function Outs(n: nat): (ChannelState, seq<bool>)
      decreases n
    {
      if n == 0 then (this, [])
      else
        var (c, bit) := Tick();
        var (c', bits) := c.Outs(n - 1);
        (c', [bit] + bits)
    }

    /** The number of voices that are on. */
    function Sounding(): nat
      requires |voices| == |freqs|
    {
      |multiset(freqs)| - multiset(freqs)[0]
    }
  }

  /** `Channel::default()`: every slot free and every voice silent. */
  function Idle(): (c: ChannelState)
    ensures c.Inv()
  {
    ChannelState(seq(Lib.VOICES_MAX, _ => Silent), seq(Lib.VOICES_MAX, _ => 0))
  }

  /** `note_on` panics exactly when no slot is free. Otherwise the first free
      slot takes the frequency and its voice is set (and switched on unless
      the frequency is 0), and every other slot is unchanged. */
  lemma NoteOnTakesFirstFreeSlot(c: ChannelState, freq: u32, duty: nat)
    requires c.Inv()
    ensures c.NoteOn(freq, duty).Panic? <==> forall i :: 0 <= i < |c.freqs| ==> c.freqs[i] != 0
    ensures c.NoteOn(freq, duty).Value? ==>
      var c' := c.NoteOn(freq, duty).value;
      exists i :: 0 <= i < |c.freqs| && c.freqs[i] == 0 && (forall j :: 0 <= j < i ==> c.freqs[j] != 0)
        && c'.freqs[i] == freq && c'.voices[i] == c.voices[i].Set(freq, duty as real)
        && c'.voices[i].on == (freq != 0)
        && forall j :: 0 <= j < |c.freqs| && j != i ==> c'.freqs[j] == c.freqs[j] && c'.voices[j] == c.voices[j]
  {
    var i := FirstIndex(c.freqs, 0);
    if i < |c.freqs| {
      var c' := c.NoteOn(freq, duty).value;
      assert c'.freqs[i] == freq && c'.voices[i] == c.voices[i].Set(freq, duty as real);
    }
  }

  /** `note_off` frees the first slot playing `freq` and switches its voice
      off, leaving the others; a frequency no slot plays changes nothing. */
  lemma NoteOffFreesFirstMatch(c: ChannelState, freq: u32)
    requires c.Inv()
    ensures (forall i :: 0 <= i < |c.freqs| ==> c.freqs[i] != freq) ==> c.NoteOff(freq) == c
    ensures forall i :: 0 <= i < |c.freqs| && c.freqs[i] == freq && (forall j :: 0 <= j < i ==> c.freqs[j] != freq) ==>
      var c' := c.NoteOff(freq);
      c'.freqs[i] == 0 && c'.voices[i] == c.voices[i].Unset() && !c'.voices[i].on
      && forall j :: 0 <= j < |c.freqs| && j != i ==> c'.freqs[j] == c.freqs[j] && c'.voices[j] == c.voices[j]
  {
    var i := FirstIndex(c.freqs, freq);
    forall k | 0 <= k < |c.freqs| && c.freqs[k] == freq && (forall j :: 0 <= j < k ==> c.freqs[j] != freq)
      ensures k == i
    {
    }
  }

  /** Every operation keeps the slots consistent with the voices. */
  lemma OperationsKeepInv(c: ChannelState, freq: u32, duty: nat, n: nat)
    requires c.Inv()
    ensures c.NoteOn(freq, duty).Value? ==> c.NoteOn(freq, duty).value.Inv()
    ensures c.NoteOff(freq).Inv() && c.Tick().0.Inv() && c.Render(n).0.Inv()
  {
    var i := FirstIndex(c.freqs, 0);
    if i < |c.freqs| {
      OperationsKeepValid(c.voices[i], freq, duty as real, n);
    }
    var k := FirstIndex(c.freqs, freq);
    if k < |c.freqs| {
      OperationsKeepValid(c.voices[k], freq, duty as real, n);
    }
    forall j | 0 <= j < |c.voices|
      ensures c.Tick().0.voices[j].Valid() && c.Render(n).0.voices[j].Valid()
    {
      OperationsKeepValid(c.voices[j], freq, duty as real, n);
    }
  }

  /** A note switched on and then off again leaves the same frequencies in
      the slots (possibly in other slots when the note was already playing)
      and the same number of voices sounding. */
  lemma NoteOnThenOff(c: ChannelState, freq: u32, duty: nat)
    requires c.Inv() && freq != 0 && c.NoteOn(freq, duty).Value?
    ensures var c' := c.NoteOn(freq, duty).value;
      c'.Sounding() == c.Sounding() + 1
      && multiset(c'.NoteOff(freq).freqs) == multiset(c.freqs)
      && c'.NoteOff(freq).Sounding() == c.Sounding()
  {
    var c' := c.NoteOn(freq, duty).value;
    var i := FirstIndex(c.freqs, 0);
    assert c'.freqs == c.freqs[i := freq];
    var k := FirstIndex(c'.freqs, freq);
    assert c'.freqs[i] == freq;
    assert k <= i;
    assert c'.NoteOff(freq).freqs == c'.freqs[k := 0];
  }

  /** The sample of a channel is the OR of the square waves of its voices
      that are on, and a channel with no voice on is silent and unchanged. */
  lemma TickIsOrOfVoices(c: ChannelState)
    ensures c.Tick().1 <==> (exists i :: 0 <= i < |c.voices| && c.voices[i].on
                               && Level(c.voices[i].counter, c.voices[i].period, c.voices[i].waveform))
    ensures (forall i :: 0 <= i < |c.voices| ==> !c.voices[i].on) ==> c.Tick() == (c, false)
  {
    if forall i :: 0 <= i < |c.voices| ==> !c.voices[i].on {
      assert c.Tick().0.voices == c.voices;
    }
  }

  lemma TickKeepsSwitches(c: ChannelState)
    ensures |c.Tick().0.voices| == |c.voices| && c.Tick().0.freqs == c.freqs
    ensures forall i :: 0 <= i < |c.voices| ==> c.Tick().0.voices[i].on == c.voices[i].on
  {
  }

  /** After one sample, the voices rendering the rest of a buffer end where
      the whole buffer would have left them. */
  lemma RenderStateStep(c: ChannelState, n: nat)
    requires n > 0
    ensures c.Render(n).0 == c.Tick().0.Render(n - 1).0
  {
    var c1 := c.Tick().0;
    TickKeepsSwitches(c);
    forall i | 0 <= i < |c.voices|
      ensures c.Render(n).0.voices[i] == c1.Render(n - 1).0.voices[i]
    {
      TickNUnfold(c.voices[i], n - 1);
    }
  }

  /** A buffer of `n` samples is the first sample followed by the buffer of
      `n - 1` samples rendered after it. */
  lemma RenderBufferStep(c: ChannelState, n: nat)
    requires n > 0
    ensures c.Render(n).1 == [c.Tick().1] + c.Tick().0.Render(n - 1).1
  {
    var (c1, bit) := c.Tick();
    TickKeepsSwitches(c);
    var buffer := c.Render(n).1;
    var buffer1 := c1.Render(n - 1).1;
    forall i | 0 <= i < |c.voices| && c.voices[i].on
      ensures c.voices[i].TickN(n).1 == [c.voices[i].Tick().1] + c1.voices[i].TickN(n - 1).1
    {
      TickNUnfold(c.voices[i], n - 1);
    }
    forall k | 0 <= k < n
      ensures buffer[k] == ([bit] + buffer1)[k]
    {
      if k > 0 {
        forall i | 0 <= i < |c.voices| && c.voices[i].on
          ensures c.voices[i].TickN(n).1[k] == c1.voices[i].TickN(n - 1).1[k - 1]
        {
        }
      }
    }
  }

  /** Rendering a buffer of `n` samples is the same as `n` successive calls
      of `out()`. */
  lemma {:induction false} RenderIsOuts(c: ChannelState, n: nat)
    ensures c.Render(n) == c.Outs(n)
    decreases n
  {
    if n == 0 {
      assert c.Render(0).0.voices == c.voices;
      assert c.Render(0).1 == [];
    } else {
      RenderIsOuts(c.Tick().0, n - 1);
      RenderStateStep(c, n);
      RenderBufferStep(c, n);
    }
  }

  /** The voices after the first `i` of them have advanced by one sample. */
  function AdvancedUpTo(voices: seq<VoiceState>, i: nat): (r: seq<VoiceState>)
  {
    seq(|voices|, j requires 0 <= j < |voices| => if j < i then Advanced(voices[j]) else voices[j])
  }

  lemma AdvancedUpToNext(voices: seq<VoiceState>, i: nat)
    requires i < |voices|
    ensures AdvancedUpTo(voices, i + 1) == AdvancedUpTo(voices, i)[i := Advanced(voices[i])]
  {
  }

  /** The voices after the first `i` of them have rendered `n` samples. */
  function RenderedUpTo(voices: seq<VoiceState>, n: nat, i: nat): (r: seq<VoiceState>)
  {
    seq(|voices|, j requires 0 <= j < |voices| => if j < i && voices[j].on then voices[j].TickN(n).0 else voices[j])
  }

  lemma RenderedUpToNext(voices: seq<VoiceState>, n: nat, i: nat)
    requires i < |voices|
    ensures RenderedUpTo(voices, n, i + 1)
         == RenderedUpTo(voices, n, i)[i := if voices[i].on then voices[i].TickN(n).0 else voices[i]]
  {
  }

  /** The OR of the buffers of the first `i` voices that are on. */
  function MixUpTo(voices: seq<VoiceState>, n: nat, i: nat): (r: seq<bool>)
    requires i <= |voices|
    ensures |r| == n
  {
    if i == 0 then Utils.Quiet(n)
    else if voices[i - 1].on then Utils.Or(MixUpTo(voices, n, i - 1), voices[i - 1].TickN(n).1)
    else MixUpTo(voices, n, i - 1)
  }

  /** Mixing the voices one at a time gives the buffer of `out_buffer`: a
      sample is high exactly when one of the voices mixed so far is on and
      high there. */
  lemma {:induction false} MixUpToIsRender(c: ChannelState, n: nat, i: nat)
    requires i <= |c.voices|
    ensures forall k :: 0 <= k < n ==>
      (MixUpTo(c.voices, n, i)[k] <==> exists j :: 0 <= j < i && c.voices[j].on && c.voices[j].TickN(n).1[k])
    ensures i == |c.voices| ==> MixUpTo(c.voices, n, i) == c.Render(n).1
  {
    if i > 0 {
      MixUpToIsRender(c, n, i - 1);
    }
  }

  /** A channel whose slots agree with its voices. */
  type Consistent = c: ChannelState | c.Inv() witness Idle()

  /** Buffers per second, the rate at which `play_file` counts delays down. */
  const BUFFERS_PER_SECOND: nat := Lib.SAMPLE_RATE / Lib.BUFFER_SIZE

  /** The action of a cue in `play_file`: status 0 turns its frequency off,
      any other status turns it on with duty 62. */
  function Fire(c: Consistent, cue: Score.Cue): Outcome<Consistent>
  {
    OperationsKeepInv(c, cue.freq, PLAY_FILE_DUTY, 0);
    if cue.status == 0 then
      var c': Consistent := c.NoteOff(cue.freq);
      Value(c')
    else
      match c.NoteOn(cue.freq, PLAY_FILE_DUTY)
      case Panic => Panic
      case Value(c') =>
        var d: Consistent := c';
        Value(d)
  }

  /** `out_buffer()` on a consistent channel. */
  function RenderBuffer(c: Consistent): (Consistent, seq<bool>)
  {
    OperationsKeepInv(c, 0, 0, Lib.BUFFER_SIZE);
    var (c', buffer) := c.Render(Lib.BUFFER_SIZE);
    var d: Consistent := c';
    (d, buffer)
  }

  /** The channel transitions `play_file` drives. */
  const Player: Score.Band<Consistent> := Score.Band(Fire, RenderBuffer)

  /** A channel object: the slot arrays are updated in place. */
  class Channel {
    const voices: array<VoiceState>
    const freqs: array<u32>
    var on: bool
    var counter: u32
    var message: (u32, u32, u32)

    function State(): ChannelState
      reads voices, freqs
    {
      ChannelState(voices[..], freqs[..])
    }

    ghost predicate Valid()
      reads voices, freqs
    {
      State().Inv()
    }

    /** `Channel::default()`. */
    constructor ()
      ensures Valid() && State() == Idle() && fresh(voices) && fresh(freqs)
      ensures !on && counter == 0 && message == (0, 0, 0)
    {
      voices := new VoiceState[Lib.VOICES_MAX](_ => Silent);
      freqs := new u32[Lib.VOICES_MAX](_ => 0);
      on, counter, message := false, 0, (0, 0, 0);
    }

    method NoteOn(freq: u32, duty: nat) returns (status: Status)
      requires Valid()
      modifies voices, freqs
      ensures Valid()
      ensures match old(State()).NoteOn(freq, duty)
        case Panic => status == Panicked && State() == old(State())
        case Value(c) => status == Returned && State() == c
    {
      ghost var c := State();
      OperationsKeepInv(c, freq, duty, 0);
      for i := 0 to Lib.VOICES_MAX
        invariant forall j :: 0 <= j < i ==> freqs[j] != 0
        invariant State() == c
      {
        if freqs[i] == 0 {
          assert FirstIndex(c.freqs, 0) == i;
          freqs[i] := freq;
          voices[i] := voices[i].Set(freq, duty as real);
          assert State() == c.NoteOn(freq, duty).value;
          return Returned;
        }
      }
      return Panicked;
    }

    method NoteOff(freq: u32)
      requires Valid()
      modifies voices, freqs
      ensures Valid() && State() == old(State()).NoteOff(freq)
    {
      ghost var c := State();
      OperationsKeepInv(c, freq, 0, 0);
      for i := 0 to Lib.VOICES_MAX
        invariant forall j :: 0 <= j < i ==> freqs[j] != freq
        invariant State() == c
      {
        if freqs[i] == freq {
          assert FirstIndex(c.freqs, freq) == i;
          freqs[i] := 0;
          voices[i] := voices[i].Unset();
          assert State() == c.NoteOff(freq);
          return;
        }
      }
    }

    method Out() returns (out: bool)
      requires Valid()
      modifies voices
      ensures Valid() && (State(), out) == old(State()).Tick()
    {
      ghost var c := State();
      OperationsKeepInv(c, 0, 0, 0);
      out := false;
      for i := 0 to Lib.VOICES_MAX
        invariant voices[..] == AdvancedUpTo(c.voices, i)
        invariant out <==> exists j :: 0 <= j < i && c.voices[j].on && c.voices[j].Tick().1
        invariant freqs[..] == c.freqs
      {
        AdvancedUpToNext(c.voices, i);
        if voices[i].on {
          var (v, bit) := voices[i].Tick();
          voices[i] := v;
          out := out || bit;
        }
      }
      assert voices[..] == c.Tick().0.voices;
    }

    method OutBuffer() returns (buffer: seq<bool>)
      requires Valid()
      modifies voices
      ensures Valid() && (State(), buffer) == old(State()).Render(Lib.BUFFER_SIZE)
    {
      ghost var c := State();
      OperationsKeepInv(c, 0, 0, Lib.BUFFER_SIZE);
      var n := Lib.BUFFER_SIZE;
      buffer := Utils.Quiet(n);
      for i := 0 to Lib.VOICES_MAX
        invariant voices[..] == RenderedUpTo(c.voices, n, i)
        invariant buffer == MixUpTo(c.voices, n, i)
        invariant freqs[..] == c.freqs
      {
        RenderedUpToNext(c.voices, n, i);
        if voices[i].on {
          var (v, samples) := voices[i].TickN(n);
          voices[i] := v;
          buffer := Utils.Or(buffer, samples);
        }
      }
      MixUpToIsRender(c, n, Lib.VOICES_MAX);
      assert State() == c.Render(n).0 by {
        assert voices[..] == c.Render(n).0.voices;
      }
    }

    /** `play_file` over a track, for at most `fuel` iterations of its loop;
        `written` holds what `write_buffer` sent to the device. */
    method PlayFile(track: seq<seq<u32>>, amplitude: u8, fuel: nat) returns (ending: Score.Ending, written: seq<seq<u8>>)
      requires Valid()
      modifies this, voices, freqs
      ensures Valid()
      ensures var p := Score.PlayFile(Player, old(State()), track, BUFFERS_PER_SECOND, fuel);
        ending == p.ending && State() == p.chan && written == Utils.AmplitudeLog(p.out, amplitude)
    {
      ghost var start := Score.Start<Consistent>(State(), track, BUFFERS_PER_SECOND);
      var parts := Score.ReadLine(track, 0);
      if |parts| < 3 {
        Score.StoppedStays(Player, track, BUFFERS_PER_SECOND, start, fuel);
        return Score.Crashed, [];
      }
      var status, freq := parts[0], parts[1];
      counter := Score.Countdown(parts[2], BUFFERS_PER_SECOND);
      var pos := 1;
      ending, written := Score.Playing, [];
      ghost var p: Score.Player<Consistent> := start;
      var n := 0;
      while n < fuel && ending == Score.Playing
        invariant n <= fuel && Valid()
        invariant p == Score.Iterate(Player, track, BUFFERS_PER_SECOND, start, n)
        invariant p.chan == State() && p.ending == ending && p.pos == pos
        invariant ending == Score.Playing ==> p.cue == Score.Cue(status, freq, counter)
        invariant written == Utils.AmplitudeLog(p.out, amplitude)
        decreases fuel - n
      {
        ghost var next := Score.Step(Player, track, BUFFERS_PER_SECOND, p);
        ending, status, freq, pos, written := Iteration(track, status, freq, pos, amplitude, p, written);
        Score.IterateNext(Player, track, BUFFERS_PER_SECOND, start, n);
        p := next;
        n := n + 1;
      }
      Score.IterateSettle(Player, track, BUFFERS_PER_SECOND, start, n, fuel);
    }

    /** An iteration of the loop of `play_file` from player state `p`, with
        the bytes it writes appended to `written`. */
    method Iteration(track: seq<seq<u32>>, status: u32, freq: u32, pos: nat, amplitude: u8,
                     ghost p: Score.Player<Consistent>, written: seq<seq<u8>>)
      returns (ending: Score.Ending, status': u32, freq': u32, pos': nat, written': seq<seq<u8>>)
      requires Valid() && p.chan == State() && p.ending == Score.Playing && p.pos == pos
      requires p.cue == Score.Cue(status, freq, counter)
      requires written == Utils.AmplitudeLog(p.out, amplitude)
      modifies this, voices, freqs
      ensures Valid()
      ensures var q := Score.Step(Player, track, BUFFERS_PER_SECOND, p);
        q.chan == State() && q.ending == ending && q.pos == pos'
        && (ending == Score.Playing ==> q.cue == Score.Cue(status', freq', counter))
        && written' == Utils.AmplitudeLog(q.out, amplitude)
    {
      Score.StepFramesOutput(Player, track, BUFFERS_PER_SECOND, p);
      var buffer, out;
      ending, status', freq', pos', buffer, out := PlayIteration(track, status, freq, pos, amplitude);
      written' := written;
      if buffer.Some? {
        Utils.AmplitudeLogSnoc(p.out, buffer.value, amplitude);
        written' := written + [out];
      }
    }

    /** One buffer of output, and the bytes `write_buffer` makes of it. */
    method Emit(amplitude: u8) returns (buffer: seq<bool>, out: seq<u8>)
      requires Valid()
      modifies voices
      ensures Valid() && (State(), buffer) == old(State()).Render(Lib.BUFFER_SIZE)
      ensures out == Utils.Amplitudes(buffer, amplitude)
    {
      buffer := OutBuffer();
      out := Utils.WriteBuffer(buffer, amplitude);
    }

    /** One iteration of the loop of `play_file`, from the current cue
        (`status`, `freq` and the `counter` field) and read position; the
        buffer it renders, if any, is returned with the bytes written for it. */
    method PlayIteration(track: seq<seq<u32>>, status: u32, freq: u32, pos: nat, amplitude: u8)
      returns (ending: Score.Ending, status': u32, freq': u32, pos': nat, buffer: Option<seq<bool>>, out: seq<u8>)
      requires Valid()
      modifies this, voices, freqs
      ensures Valid()
      ensures var q := Score.Step(Player, track, BUFFERS_PER_SECOND,
                                  Score.Player(old(State()), Score.Cue(status, freq, old(counter)), pos, [], Score.Playing));
        State() == q.chan && ending == q.ending && pos' == q.pos
        && (ending == Score.Playing ==> q.cue == Score.Cue(status', freq', counter))
        && q.out == (if buffer.Some? then [buffer.value] else [])
      ensures buffer.Some? ==> out == Utils.Amplitudes(buffer.value, amplitude)
    {
      ending, status', freq', pos', buffer, out := Score.Playing, status, freq, pos, None, [];
      if counter == 0 {
        if status == 0 {
          NoteOff(freq);
        } else {
          var st := NoteOn(freq, PLAY_FILE_DUTY);
          if st == Panicked {
            ending := Score.Crashed;
            return;
          }
        }
        var parts := Score.ReadLine(track, pos);
        pos' := pos + 1;
        if |parts| == 0 {
          ending := Score.Finished;
        } else if |parts| < 3 {
          ending := Score.Crashed;
        } else {
          status', freq' := parts[0], parts[1];
          counter := Score.Countdown(parts[2], BUFFERS_PER_SECOND);
          var b;
          b, out := Emit(amplitude);
          buffer := Some(b);
        }
      } else {
        counter := counter - 1;
        var b;
        b, out := Emit(amplitude);
        buffer := Some(b);
      }
    }
  }
}
