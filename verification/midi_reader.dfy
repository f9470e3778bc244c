/** The timing arithmetic and event queue of the MIDI reader
    (src/io/midi_reader.rs). Parsing a Standard MIDI File is not modelled:
    a reader is built from the header's timing and the tracks already parsed. */
module MidiReader {

  import opened Common
  import opened Arith
  import AudioChannel

  /** The tempo a MIDI file has until it says otherwise, in microseconds per beat. */
  const DEFAULT_TEMPO: u32 := 500_000

  const U15_LIMIT: nat := 0x8000
  type u15 = x: nat | x < U15_LIMIT

  /** The timing field of a MIDI header: ticks per beat, or SMPTE time code. */
  datatype Timing = Metrical(ticks: u15) | Timecode(fps: u8, subframe: u8)

  /** The kind of a track event; payloads are not modelled. */
  datatype EventKind = Midi | SysEx | Escape | Meta

  /** An event of a track: the ticks since the previous event, and what it is. */
  datatype TrackEvent = TrackEvent(delta: u32, kind: EventKind)

  /** The fields of a reader that the model keeps. */
  datatype ReaderState = ReaderState(tracks: seq<seq<TrackEvent>>, tempo: u32, ticksPerBeat: u16)
  {
    /** `delta2us(delta_ticks)`: a delay in ticks converted to microseconds in
        u32 arithmetic. Time-code timing (0 ticks per beat) divides by zero
        and a product beyond u32 overflows; both panic. */
    function Delta2Us(deltaTicks: u32): (r: Outcome<u32>)
      ensures r.Value? <==> ticksPerBeat != 0 && tempo * deltaTicks < U32_LIMIT
      ensures r.Value? ==> r.value * ticksPerBeat <= tempo * deltaTicks < (r.value + 1) * ticksPerBeat
    {
      var product := tempo * deltaTicks;
      if ticksPerBeat == 0 || product >= U32_LIMIT then Panic
      else
        DivBracket(product, ticksPerBeat);
        Value(product / ticksPerBeat)
    }

    /** `next_message(track)`: the last event of the track is removed and
        returned. A missing track or an empty one panics. */
    function NextMessage(track: nat): Outcome<(ReaderState, TrackEvent)>
    {
      if track >= |tracks| || tracks[track] == [] then Panic
      else
        var t := tracks[track];
        Value((this.(tracks := tracks[track := t[..|t| - 1]]), t[|t| - 1]))
    }

    /** `n` successive `next_message(track)` calls: the events in the order
        they come out. */
    function Drain(track: nat, n: nat): Outcome<(ReaderState, seq<TrackEvent>)>
      decreases n
    {
      if n == 0 then Value((this, []))
      else
        match NextMessage(track)
        case Panic => Panic
        case Value((s, e)) =>
          match s.Drain(track, n - 1)
          case Panic => Panic
          case Value((s', es)) => Value((s', [e] + es))
    }
  }

  /** The ticks per beat `MidiReader::new` keeps: the metrical value, or 0
      for time-code timing. */
  function TicksPerBeat(timing: Timing): u16
  {
    match timing
    case Metrical(value) => value
    case Timecode(_, _) => 0
  }

  /** `MidiReader::new(f)` on a file with this timing and these tracks. */
  function New(timing: Timing, tracks: seq<seq<TrackEvent>>): ReaderState
  {
    ReaderState(tracks, DEFAULT_TEMPO, TicksPerBeat(timing))
  }

  /** A new reader starts at the default tempo of 500 000 µs per beat and
      keeps every track. Metrical timing gives its tick count, and delays are
      then converted at that tempo; time-code timing gives 0, and every
      conversion panics. */
  lemma NewLaw(timing: Timing, tracks: seq<seq<TrackEvent>>, d: u32)
    ensures var s := New(timing, tracks);
      s.tempo == 500_000 && s.tracks == tracks
      && (timing.Metrical? ==> s.ticksPerBeat == timing.ticks)
      && (timing.Timecode? ==> s.ticksPerBeat == 0 && s.Delta2Us(d).Panic?)
  {
  }

  /** At the default tempo and 480 ticks per beat, one beat of ticks is 500 000 µs. */
  lemma OneBeat()
    ensures New(Metrical(480), []).Delta2Us(480) == Value(500_000)
  {
    assert DEFAULT_TEMPO * 480 == 500_000 * 480;
  }

  /** 2 to the power `e`. */
  function Pow2(e: nat): (p: nat)
    ensures p >= 1
  {
    if e == 0 then 1 else 2 * Pow2(e - 1)
  }

  /** `midi2freq(note)`: 440 Hz times 2 to the number of whole octaves above
      note 69 (A4). A note below 69 underflows the subtraction and panics. */
  function Midi2Freq(note: u8): (r: Outcome<nat>)
    ensures r.Panic? <==> note < 69
  {
    if note < 69 then Panic else Value(Pow2((note - 69) / 12) * 440)
  }

  /** Note 69 is 440 Hz; twelve notes up doubles the frequency; and, the
      exponent being an integer division, every note of an octave above A4
      gives the frequency of the A it starts from. */
  lemma Midi2FreqLaw(note: u8)
    requires note >= 69
    ensures Midi2Freq(69) == Value(440)
    ensures note + 12 < U8_LIMIT ==> Midi2Freq(note + 12).value == 2 * Midi2Freq(note).value
    ensures Midi2Freq(note) == Midi2Freq(69 + (note - 69) / 12 * 12)
  {
    if note + 12 < U8_LIMIT {
      assert (note + 12 - 69) / 12 == (note - 69) / 12 + 1;
    }
    assert (69 + (note - 69) / 12 * 12 - 69) / 12 == (note - 69) / 12;
  }

  /** The highest note, 255, is 440 Hz times 2^15: the product fits in u32. */
  lemma Midi2FreqFits(note: u8)
    requires note >= 69
    ensures Midi2Freq(note).value < U32_LIMIT
  {
    Pow2Monotone((note - 69) / 12, 15);
    assert Pow2(15) == 32768;
  }

  lemma {:induction false} Pow2Monotone(a: nat, b: nat)
    requires a <= b
    ensures Pow2(a) <= Pow2(b)
    decreases b
  {
    if a < b {
      Pow2Monotone(a, b - 1);
    }
  }

  /** Draining `n` events from a track gives its last `n` events, last one
      first: events come out in the reverse of the file's order. The other
      tracks are untouched. */
  lemma {:induction false} DrainReverses(s: ReaderState, track: nat, n: nat)
    requires track < |s.tracks| && n <= |s.tracks[track]|
    ensures var t := s.tracks[track];
      s.Drain(track, n).Value?
      && s.Drain(track, n).value.0 == s.(tracks := s.tracks[track := t[..|t| - n]])
      && |s.Drain(track, n).value.1| == n
      && forall k :: 0 <= k < n ==> s.Drain(track, n).value.1[k] == t[|t| - 1 - k]
    decreases n
  {
    var t := s.tracks[track];
    if n == 0 {
      assert t[..|t|] == t;
      assert s.tracks[track := t] == s.tracks;
    } else {
      var (s1, e) := s.NextMessage(track).value;
      DrainReverses(s1, track, n - 1);
      var (s', es) := s1.Drain(track, n - 1).value;
      assert s.Drain(track, n) == Value((s', [e] + es));
      assert s1.tracks[track][..|t| - 1 - (n - 1)] == t[..|t| - n];
      assert s1.tracks[track := t[..|t| - n]] == s.tracks[track := t[..|t| - n]];
    }
  }

  /** Taking one event more than the track holds panics. */
  lemma DrainPastEnd(s: ReaderState, track: nat)
    requires track < |s.tracks|
    ensures s.Drain(track, |s.tracks[track]| + 1).Panic?
  {
    var t := s.tracks[track];
    DrainReverses(s, track, |t|);
    var s' := s.Drain(track, |t|).value.0;
    assert s'.tracks[track] == [];
    DrainSplit(s, track, |t|);
  }

  /** Draining `n + 1` events is draining `n` and then one more. */
  lemma {:induction false} DrainSplit(s: ReaderState, track: nat, n: nat)
    ensures s.Drain(track, n).Value? ==>
      match s.Drain(track, n).value.0.NextMessage(track)
      case Panic => s.Drain(track, n + 1).Panic?
      case Value((s', e)) => s.Drain(track, n + 1) == Value((s', s.Drain(track, n).value.1 + [e]))
    decreases n
  {
    if n == 0 {
      assert s.Drain(track, 0) == Value((s, []));
      match s.NextMessage(track)
      case Panic =>
      case Value((s', e)) =>
        assert s'.Drain(track, 0) == Value((s', []));
        assert [e] + [] == [] + [e];
    } else if s.NextMessage(track).Value? {
      var (s1, e1) := s.NextMessage(track).value;
      DrainSplit(s1, track, n - 1);
      if s1.Drain(track, n - 1).Value? {
        var es := s1.Drain(track, n - 1).value.1;
        match s1.Drain(track, n - 1).value.0.NextMessage(track)
        case Panic =>
        case Value((s', e)) =>
          assert [e1] + (es + [e]) == ([e1] + es) + [e];
      }
    }
  }

  /** A reader object; `next_message` removes events from its tracks in place. */
  class Reader {
    var tracks: seq<seq<TrackEvent>>
    const tempo: u32
    const ticksPerBeat: u16
    var channels: seq<AudioChannel.ChannelState>

    ghost function State(): ReaderState
      reads this
    {
      ReaderState(tracks, tempo, ticksPerBeat)
    }

    /** `MidiReader::new(f)`, given the parsed timing and tracks. */
    constructor (timing: Timing, tracks: seq<seq<TrackEvent>>)
      ensures State() == New(timing, tracks) && channels == []
    {
      this.tracks := tracks;
      this.tempo := DEFAULT_TEMPO;
      this.ticksPerBeat := match timing
        case Metrical(value) => value
        case Timecode(_, _) => 0;
      this.channels := [];
    }

    /** `next_message(track)`. */
    method NextMessage(track: nat) returns (status: Status, event: TrackEvent)
      modifies this
      ensures channels == old(channels)
      ensures match old(State()).NextMessage(track)
        case Panic => status == Panicked && State() == old(State())
        case Value((s, e)) => status == Returned && State() == s && event == e
    {
      if track >= |tracks| || |tracks[track]| == 0 {
        return Panicked, TrackEvent(0, Meta);
      }
      var t := tracks[track];
      event := t[|t| - 1];
      tracks := tracks[track := t[..|t| - 1]];
      status := Returned;
    }
  }
}
