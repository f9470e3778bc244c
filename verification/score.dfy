/** The score players of the engine: `play_file` (one channel driven by one
    track) and `play_files` (every channel driven by its own track), written
    once over the transitions of a channel or synthesizer so that both
    snapshots of the engine share them.

    A track is the sequence of its lines, each already split into unsigned
    integers by `read_message`; reading past the last line gives the empty
    line of the end of the file. A line `status freq delay` is a cue: when
    its countdown (the delay converted to buffers) has run out, status 0
    turns `freq` off and any other status turns it on. */
module Score {

  import opened Common
  import opened Arith

  const MICROS_PER_SECOND: nat := 1_000_000

  /** The message of a track: status, frequency and the buffers still to wait. */
  datatype Cue = Cue(status: u32, freq: u32, countdown: u32)

  /** The `pos`-th line of a track; past the end, the empty line. */
  function ReadLine(track: seq<seq<u32>>, pos: nat): (parts: seq<u32>)
    ensures pos >= |track| ==> parts == []
    ensures pos < |track| ==> parts == track[pos]
  {
    if pos < |track| then track[pos] else []
  }

  /** The delay in microseconds converted to output buffers, computed in 64
      bits and truncated to 32. */
  function Countdown(delay: u32, buffersPerSecond: nat): nat
    requires buffersPerSecond < U32_LIMIT
  {
    (delay * buffersPerSecond / MICROS_PER_SECOND) % U32_LIMIT
  }

  /** At no more than a million buffers per second the conversion never
      truncates: it is the exact floor of `delay * rate / 10^6`, never more
      than the delay itself, and it grows with the delay. */
  lemma CountdownExact(delay: u32, d2: u32, buffersPerSecond: nat)
    requires buffersPerSecond <= MICROS_PER_SECOND
    ensures Countdown(delay, buffersPerSecond) == delay * buffersPerSecond / MICROS_PER_SECOND
    ensures Countdown(delay, buffersPerSecond) <= delay
    ensures delay <= d2 ==> Countdown(delay, buffersPerSecond) <= Countdown(d2, buffersPerSecond)
  {
    var m := MICROS_PER_SECOND;
    var x := delay * buffersPerSecond;
    MulMonotone(delay, buffersPerSecond, m);
    DivAtMost(x, delay, m);
    ModUnique(x / m, U32_LIMIT, 0, x / m);
    var y := d2 * buffersPerSecond;
    MulMonotone(d2, buffersPerSecond, m);
    DivAtMost(y, d2, m);
    ModUnique(y / m, U32_LIMIT, 0, y / m);
    if delay <= d2 {
      MulMonotone(buffersPerSecond, delay, d2);
      assert x <= y;
    }
  }

  /** One second of delay is one second of buffers. */
  lemma CountdownOneSecond(buffersPerSecond: nat)
    requires buffersPerSecond <= MICROS_PER_SECOND
    ensures Countdown(1_000_000, buffersPerSecond) == buffersPerSecond
  {
    CountdownExact(1_000_000, 1_000_000, buffersPerSecond);
    ModUnique(1_000_000 * buffersPerSecond, MICROS_PER_SECOND, buffersPerSecond, 0);
  }

  /** The cue of a line: panics (indexing `parts[0..2]`) when the line has
      fewer than three numbers; numbers after the third are ignored. */
  function ParseCue(parts: seq<u32>, buffersPerSecond: nat): (r: Outcome<Cue>)
    requires buffersPerSecond < U32_LIMIT
    ensures r.Panic? <==> |parts| < 3
    ensures r.Value? ==> r.value.status == parts[0] && r.value.freq == parts[1]
  {
    if |parts| < 3 then Panic
    else
      Value(Cue(parts[0], parts[1], Countdown(parts[2], buffersPerSecond)))
  }

  /** Whether the loop is still running, broke out, or panicked. */
  datatype Ending = Playing | Finished | Crashed

  // ---------------------------------------------------------------------
  // play_file: one channel, one track

  /** The transitions of the channel a track drives: firing a cue (note on or
      note off, possibly panicking) and producing one output buffer. */
  datatype Band<!C> = Band(fire: (C, Cue) -> Outcome<C>, render: C -> (C, seq<bool>))

  /** The state of `play_file` between two iterations of its loop. */
  datatype Player<C> = Player(chan: C, cue: Cue, pos: nat, out: seq<seq<bool>>, ending: Ending)

  /** The first read: an empty or short first line panics. */
  function Start<C>(chan: C, track: seq<seq<u32>>, buffersPerSecond: nat): (p: Player<C>)
    requires buffersPerSecond < U32_LIMIT
    ensures p.ending != Finished && p.pos == 1 && p.out == [] && p.chan == chan
    ensures p.ending == Crashed <==> |ReadLine(track, 0)| < 3
  {
    match ParseCue(ReadLine(track, 0), buffersPerSecond)
    case Panic => Player(chan, Cue(0, 0, 0), 1, [], Crashed)
    case Value(cue) => Player(chan, cue, 1, [], Playing)
  }

  /** One iteration of the loop of `play_file`. */
  function Step<C>(b: Band<C>, track: seq<seq<u32>>, buffersPerSecond: nat, p: Player<C>): Player<C>
    requires buffersPerSecond < U32_LIMIT
  {
    if !p.ending.Playing? then p
    else if p.cue.countdown == 0 then
      match b.fire(p.chan, p.cue)
      case Panic => p.(ending := Crashed)
      case Value(c) =>
        var parts := ReadLine(track, p.pos);
        if parts == [] then p.(chan := c, pos := p.pos + 1, ending := Finished)
        else
          match ParseCue(parts, buffersPerSecond)
          case Panic => p.(chan := c, pos := p.pos + 1, ending := Crashed)
          case Value(cue) =>
            var (c', buffer) := b.render(c);
            Player(c', cue, p.pos + 1, p.out + [buffer], Playing)
    else
      var (c', buffer) := b.render(p.chan);
      p.(chan := c', cue := p.cue.(countdown := p.cue.countdown - 1), out := p.out + [buffer])
  }

  /** `n` iterations of the loop. */
  function Iterate<C>(b: Band<C>, track: seq<seq<u32>>, buffersPerSecond: nat, p: Player<C>, n: nat): Player<C>
    requires buffersPerSecond < U32_LIMIT
    decreases n
  {
    if n == 0 then p else Iterate(b, track, buffersPerSecond, Step(b, track, buffersPerSecond, p), n - 1)
  }

  /** `play_file` run for at most `fuel` iterations of its loop. */
  function PlayFile<C>(b: Band<C>, chan: C, track: seq<seq<u32>>, buffersPerSecond: nat, fuel: nat): Player<C>
    requires buffersPerSecond < U32_LIMIT
  {
    Iterate(b, track, buffersPerSecond, Start(chan, track, buffersPerSecond), fuel)
  }

  /** `n` output buffers rendered back to back. */
  function Renders<C>(render: C -> (C, seq<bool>), c: C, n: nat): (r: (C, seq<seq<bool>>))
    ensures |r.1| == n
    decreases n
  {
    if n == 0 then (c, [])
    else
      var (c', buffer) := render(c);
      var (c'', rest) := Renders(render, c', n - 1);
      (c'', [buffer] + rest)
  }

  /** Every iteration that keeps playing writes exactly one buffer, and the
      iteration that ends the loop writes none: the written output only grows. */
  lemma StepWritesOneBuffer<C>(b: Band<C>, track: seq<seq<u32>>, buffersPerSecond: nat, p: Player<C>)
    requires buffersPerSecond < U32_LIMIT && p.ending == Playing
    ensures var q := Step(b, track, buffersPerSecond, p);
      (q.ending == Playing ==> |q.out| == |p.out| + 1 && q.out[..|p.out|] == p.out)
      && (q.ending != Playing ==> q.out == p.out)
  {
  }

  /** An iteration does not depend on what was written before it. */
  lemma StepFramesOutput<C>(b: Band<C>, track: seq<seq<u32>>, buffersPerSecond: nat, p: Player<C>)
    requires buffersPerSecond < U32_LIMIT
    ensures var q := Step(b, track, buffersPerSecond, p);
      var q0 := Step(b, track, buffersPerSecond, p.(out := []));
      q == q0.(out := p.out + q0.out)
  {
  }

  /** A stopped player stays stopped and silent. */
  lemma {:induction false} StoppedStays<C>(b: Band<C>, track: seq<seq<u32>>, buffersPerSecond: nat, p: Player<C>, n: nat)
    requires buffersPerSecond < U32_LIMIT && p.ending != Playing
    ensures Iterate(b, track, buffersPerSecond, p, n) == p
    decreases n
  {
    if n > 0 {
      StoppedStays(b, track, buffersPerSecond, p, n - 1);
    }
  }

  lemma {:induction false} IterateAdd<C>(b: Band<C>, track: seq<seq<u32>>, buffersPerSecond: nat, p: Player<C>, m: nat, n: nat)
    requires buffersPerSecond < U32_LIMIT
    ensures Iterate(b, track, buffersPerSecond, p, m + n)
         == Iterate(b, track, buffersPerSecond, Iterate(b, track, buffersPerSecond, p, m), n)
    decreases m
  {
    if m > 0 {
      IterateAdd(b, track, buffersPerSecond, Step(b, track, buffersPerSecond, p), m - 1, n);
    }
  }

  /** One more iteration of the loop. */
  lemma IterateNext<C>(b: Band<C>, track: seq<seq<u32>>, buffersPerSecond: nat, p: Player<C>, n: nat)
    requires buffersPerSecond < U32_LIMIT
    ensures Iterate(b, track, buffersPerSecond, p, n + 1)
         == Step(b, track, buffersPerSecond, Iterate(b, track, buffersPerSecond, p, n))
  {
    IterateAdd(b, track, buffersPerSecond, p, n, 1);
  }

  /** Once the loop has stopped, more fuel changes nothing. */
  lemma IterateSettle<C>(b: Band<C>, track: seq<seq<u32>>, buffersPerSecond: nat, p: Player<C>, n: nat, fuel: nat)
    requires buffersPerSecond < U32_LIMIT && n <= fuel
    requires n < fuel ==> Iterate(b, track, buffersPerSecond, p, n).ending != Playing
    ensures Iterate(b, track, buffersPerSecond, p, fuel) == Iterate(b, track, buffersPerSecond, p, n)
  {
    IterateAdd(b, track, buffersPerSecond, p, n, fuel - n);
    if n < fuel {
      StoppedStays(b, track, buffersPerSecond, Iterate(b, track, buffersPerSecond, p, n), fuel - n);
    }
  }

  /** A cue whose countdown is `d` waits exactly `d` iterations: the channel
      only renders, the countdown reaches zero and no line is read. */
  lemma {:induction false} WaitsCountdown<C>(b: Band<C>, track: seq<seq<u32>>, buffersPerSecond: nat, p: Player<C>)
    requires buffersPerSecond < U32_LIMIT && p.ending == Playing
    ensures var q := Iterate(b, track, buffersPerSecond, p, p.cue.countdown);
      var (c, buffers) := Renders(b.render, p.chan, p.cue.countdown);
      q == Player(c, p.cue.(countdown := 0), p.pos, p.out + buffers, Playing)
    decreases p.cue.countdown
  {
    if p.cue.countdown > 0 {
      var p' := Step(b, track, buffersPerSecond, p);
      WaitsCountdown(b, track, buffersPerSecond, p');
      var (c', buffer) := b.render(p.chan);
      assert p' == p.(chan := c', cue := p.cue.(countdown := p.cue.countdown - 1), out := p.out + [buffer]);
      var (c, rest) := Renders(b.render, c', p.cue.countdown - 1);
      assert p.out + [buffer] + rest == p.out + ([buffer] + rest);
    }
  }

  /** When the cue is due and the track is exhausted, the loop fires the cue
      and breaks without writing another buffer. */
  lemma EndOfTrackBreaks<C>(b: Band<C>, track: seq<seq<u32>>, buffersPerSecond: nat, p: Player<C>)
    requires buffersPerSecond < U32_LIMIT && p.ending == Playing
    requires p.cue.countdown == 0 && p.pos >= |track| && b.fire(p.chan, p.cue).Value?
    ensures var q := Step(b, track, buffersPerSecond, p);
      q.ending == Finished && q.out == p.out && q.chan == b.fire(p.chan, p.cue).value
  {
  }

  /** A track every line of which is a well-formed cue. */
  predicate WellFormed(track: seq<seq<u32>>)
  {
    |track| >= 1 && forall i :: 0 <= i < |track| ==> |track[i]| >= 3
  }

  /** The iterations the lines from `i` on take: each waits its countdown and
      then fires. */
  function Length(track: seq<seq<u32>>, buffersPerSecond: nat, i: nat): nat
    requires buffersPerSecond < U32_LIMIT && WellFormed(track)
    decreases |track| - i
  {
    if i >= |track| then 0
    else Countdown(track[i][2], buffersPerSecond) + 1 + Length(track, buffersPerSecond, i + 1)
  }

  /** The iteration in which the cue of line `i` fires: it loads line `i + 1`
      and writes one buffer, or breaks at the end of the track. */
  lemma FiresNext<C>(b: Band<C>, track: seq<seq<u32>>, buffersPerSecond: nat, w: Player<C>, i: nat)
    requires buffersPerSecond < U32_LIMIT && WellFormed(track)
    requires i < |track| && w.ending == Playing && w.pos == i + 1 && w.cue.countdown == 0
    requires b.fire(w.chan, w.cue).Value?
    ensures var f := Step(b, track, buffersPerSecond, w);
      if i + 1 < |track| then
        f.ending == Playing && f.pos == i + 2 && |f.out| == |w.out| + 1
        && ParseCue(track[i + 1], buffersPerSecond) == Value(f.cue)
      else
        f.ending == Finished && f.out == w.out
  {
  }

  /** Every cue from line `i` on fires without panicking, each on the channel
      as the iterations before it leave it: after waiting its countdown, and,
      for the later lines, after the buffer rendered when the line is read. */
  predicate FiresFrom<C>(b: Band<C>, track: seq<seq<u32>>, buffersPerSecond: nat, chan: C, cue: Cue, i: nat)
    requires buffersPerSecond < U32_LIMIT && WellFormed(track) && i < |track|
    decreases |track| - i
  {
    var waited := Renders(b.render, chan, cue.countdown).0;
    match b.fire(waited, cue.(countdown := 0))
    case Panic => false
    case Value(c) =>
      i + 1 == |track|
      || FiresFrom(b, track, buffersPerSecond, b.render(c).0, ParseCue(track[i + 1], buffersPerSecond).value, i + 1)
  }

  /** Playing the lines from `i` on, with the cue of line `i` loaded: after
      `Length` iterations the loop has stopped. It broke at the end of the
      track, having written one buffer per iteration but the last, exactly
      when no cue panicked on the way; otherwise it crashed. */
  lemma {:induction false} PlaysFrom<C>(b: Band<C>, track: seq<seq<u32>>, buffersPerSecond: nat, p: Player<C>, i: nat)
    requires buffersPerSecond < U32_LIMIT && WellFormed(track)
    requires i < |track| && p.ending == Playing && p.pos == i + 1
    requires ParseCue(track[i], buffersPerSecond) == Value(p.cue)
    ensures var q := Iterate(b, track, buffersPerSecond, p, Length(track, buffersPerSecond, i));
      q.ending != Playing
      && (q.ending == Finished <==> FiresFrom(b, track, buffersPerSecond, p.chan, p.cue, i))
      && (q.ending == Finished ==> |q.out| == |p.out| + Length(track, buffersPerSecond, i) - 1)
    decreases |track| - i
  {
    var d: nat := p.cue.countdown;
    var rest := Length(track, buffersPerSecond, i + 1);
    var w := Iterate(b, track, buffersPerSecond, p, d);
    WaitsCountdown(b, track, buffersPerSecond, p);
    var f := Step(b, track, buffersPerSecond, w);
    IterateAdd(b, track, buffersPerSecond, p, d, 1);
    assert Iterate(b, track, buffersPerSecond, w, 1) == f;
    IterateAdd(b, track, buffersPerSecond, p, d + 1, rest);
    match b.fire(w.chan, w.cue)
    case Panic =>
      assert f.ending == Crashed;
      StoppedStays(b, track, buffersPerSecond, f, rest);
    case Value(c) =>
      if i + 1 < |track| {
        assert |track[i + 1]| >= 3;
        assert f.chan == b.render(c).0 && f.pos == i + 2 && |f.out| == |p.out| + d + 1;
        PlaysFrom(b, track, buffersPerSecond, f, i + 1);
      } else {
        assert f.ending == Finished && |f.out| == |p.out| + d;
      }
  }

  /** `play_file` on a well-formed track stops after exactly `Length`
      iterations, and further fuel changes nothing. It finishes, having
      written one buffer fewer than it iterated, exactly when none of the
      track's cues panics on the channel the loop hands it. */
  lemma PlayFileDuration<C>(b: Band<C>, chan: C, track: seq<seq<u32>>, buffersPerSecond: nat, extra: nat)
    requires buffersPerSecond < U32_LIMIT && WellFormed(track)
    ensures var n := Length(track, buffersPerSecond, 0);
      var q := PlayFile(b, chan, track, buffersPerSecond, n);
      q.ending != Playing
      && (q.ending == Finished <==> FiresFrom(b, track, buffersPerSecond, chan, ParseCue(track[0], buffersPerSecond).value, 0))
      && (q.ending == Finished ==> |q.out| == n - 1)
      && PlayFile(b, chan, track, buffersPerSecond, n + extra) == q
  {
    var n := Length(track, buffersPerSecond, 0);
    var p := Start(chan, track, buffersPerSecond);
    PlaysFrom(b, track, buffersPerSecond, p, 0);
    IterateAdd(b, track, buffersPerSecond, p, n, extra);
    StoppedStays(b, track, buffersPerSecond, Iterate(b, track, buffersPerSecond, p, n), extra);
  }

  // ---------------------------------------------------------------------
  // play_files: every channel driven by its own track

  /** The transitions of a synthesizer driven by several tracks: firing the
      cue of track `i` on channel `i` (possibly panicking) and producing one
      output buffer. */
  datatype Rig<!S> = Rig(fire: (S, nat, Cue) -> Outcome<S>, render: S -> (S, seq<bool>))

  /** The state of `play_files` between two iterations of its outer loop:
      the cue and read position of every track. `done` marks the tracks the
      corrected scheduler has finished; the loop as written never sets it. */
  datatype Ensemble<S> = Ensemble(synth: S, cues: seq<Cue>, pos: seq<nat>, done: seq<bool>,
                                  out: seq<seq<bool>>, ending: Ending)

  predicate Shaped<S>(tracks: seq<seq<seq<u32>>>, e: Ensemble<S>)
  {
    |e.cues| == |tracks| && |e.pos| == |tracks| && |e.done| == |tracks|
  }

  /** The first loop of `play_files`: the first line of every track; a short
      one panics. */
  function StartAll<S>(synth: S, tracks: seq<seq<seq<u32>>>, buffersPerSecond: nat): (e: Ensemble<S>)
    requires buffersPerSecond < U32_LIMIT
    ensures Shaped(tracks, e) && e.out == [] && e.synth == synth
    ensures e.ending != Finished && (forall i :: 0 <= i < |tracks| ==> e.pos[i] == 1 && !e.done[i])
    ensures e.ending == Crashed <==> exists i :: 0 <= i < |tracks| && |ReadLine(tracks[i], 0)| < 3
    ensures e.ending == Playing ==> forall i :: 0 <= i < |tracks| ==> ParseCue(ReadLine(tracks[i], 0), buffersPerSecond) == Value(e.cues[i])
  {
    var pos := seq(|tracks|, _ => 1);
    var done := seq(|tracks|, _ => false);
    if exists i :: 0 <= i < |tracks| && |ReadLine(tracks[i], 0)| < 3 then
      Ensemble(synth, seq(|tracks|, _ => Cue(0, 0, 0)), pos, done, [], Crashed)
    else
      var cues := seq(|tracks|, i requires 0 <= i < |tracks| => ParseCue(ReadLine(tracks[i], 0), buffersPerSecond).value);
      Ensemble(synth, cues, pos, done, [], Playing)
  }

  /** The turn of track `i` in the inner loop of `play_files`: a waiting cue
      counts down; a due cue is fired and the next line is read. The flag
      says whether that line was the empty line of the end of the file. */
  function Visit<S>(r: Rig<S>, tracks: seq<seq<seq<u32>>>, buffersPerSecond: nat, e: Ensemble<S>, i: nat): (v: (Ensemble<S>, bool))
    requires buffersPerSecond < U32_LIMIT && Shaped(tracks, e) && i < |tracks|
    ensures Shaped(tracks, v.0) && v.0.out == e.out && v.0.done == e.done
    ensures v.0.ending == e.ending || v.0.ending == Crashed
    ensures forall j :: 0 <= j < |tracks| && j != i ==> v.0.cues[j] == e.cues[j] && v.0.pos[j] == e.pos[j]
  {
    var cue := e.cues[i];
    if cue.countdown == 0 then
      match r.fire(e.synth, i, cue)
      case Panic => (e.(ending := Crashed), false)
      case Value(s) =>
        var parts := ReadLine(tracks[i], e.pos[i]);
        var e1 := e.(synth := s, pos := e.pos[i := e.pos[i] + 1]);
        if parts == [] then (e1, true)
        else
          match ParseCue(parts, buffersPerSecond)
          case Panic => (e1.(ending := Crashed), false)
          case Value(next) => (e1.(cues := e.cues[i := next]), false)
    else
      (e.(cues := e.cues[i := cue.(countdown := cue.countdown - 1)]), false)
  }

  /** What a turn does to its own track: a waiting cue counts down by one
      without reading, a due cue consumes exactly one line, and the flag is
      raised exactly when that line is empty. */
  lemma VisitTrack<S>(r: Rig<S>, tracks: seq<seq<seq<u32>>>, buffersPerSecond: nat, e: Ensemble<S>, i: nat)
    requires buffersPerSecond < U32_LIMIT && Shaped(tracks, e) && i < |tracks|
    ensures var (e', eof) := Visit(r, tracks, buffersPerSecond, e, i);
      e'.ending != Crashed ==>
        (e.cues[i].countdown > 0 ==> e'.cues[i].countdown == e.cues[i].countdown - 1 && e'.pos[i] == e.pos[i] && !eof)
        && (e.cues[i].countdown == 0 ==> e'.pos[i] == e.pos[i] + 1 && (eof <==> ReadLine(tracks[i], e.pos[i]) == []))
  {
  }

  /** The inner loop of `play_files` as written, from track `i` on: when a
      track's file is exhausted, `break` leaves the inner loop and the tracks
      after it are not visited in this iteration. */
  function Sweep<S>(r: Rig<S>, tracks: seq<seq<seq<u32>>>, buffersPerSecond: nat, e: Ensemble<S>, i: nat): (e': Ensemble<S>)
    requires buffersPerSecond < U32_LIMIT && Shaped(tracks, e) && i <= |tracks|
    ensures Shaped(tracks, e') && e'.out == e.out && e'.done == e.done
    ensures e'.ending == e.ending || e'.ending == Crashed
    decreases |tracks| - i
  {
    if i == |tracks| then e
    else
      var (e1, eof) := Visit(r, tracks, buffersPerSecond, e, i);
      if e1.ending == Crashed || eof then e1 else Sweep(r, tracks, buffersPerSecond, e1, i + 1)
  }

  /** The corrected inner loop: a track whose file is exhausted is marked done
      and skipped from then on, and the other tracks go on. */
  function SweepFixed<S>(r: Rig<S>, tracks: seq<seq<seq<u32>>>, buffersPerSecond: nat, e: Ensemble<S>, i: nat): (e': Ensemble<S>)
    requires buffersPerSecond < U32_LIMIT && Shaped(tracks, e) && i <= |tracks|
    ensures Shaped(tracks, e') && e'.out == e.out
    ensures e'.ending == e.ending || e'.ending == Crashed
    decreases |tracks| - i
  {
    if i == |tracks| then e
    else if e.done[i] then SweepFixed(r, tracks, buffersPerSecond, e, i + 1)
    else
      var (e1, eof) := Visit(r, tracks, buffersPerSecond, e, i);
      if e1.ending == Crashed then e1
      else SweepFixed(r, tracks, buffersPerSecond, if eof then e1.(done := e1.done[i := true]) else e1, i + 1)
  }

  /** Every track has been played to its end. */
  predicate AllDone<S>(e: Ensemble<S>)
  {
    forall j :: 0 <= j < |e.done| ==> e.done[j]
  }

  /** One iteration of the outer loop: the inner loop, then one buffer of the
      synthesizer's output. The corrected loop stops, without writing, once
      every track is done. */
  function Round<S>(fixed: bool, r: Rig<S>, tracks: seq<seq<seq<u32>>>, buffersPerSecond: nat, e: Ensemble<S>): (e': Ensemble<S>)
    requires buffersPerSecond < U32_LIMIT && Shaped(tracks, e)
    ensures Shaped(tracks, e')
  {
    if !e.ending.Playing? then e
    else
      var e1 := if fixed then SweepFixed(r, tracks, buffersPerSecond, e, 0) else Sweep(r, tracks, buffersPerSecond, e, 0);
      if e1.ending == Crashed then e1
      else if fixed && AllDone(e1) then e1.(ending := Finished)
      else
        var rendered := r.render(e1.synth);
        e1.(synth := rendered.0, out := e1.out + [rendered.1])
  }

  function Rounds<S>(fixed: bool, r: Rig<S>, tracks: seq<seq<seq<u32>>>, buffersPerSecond: nat, e: Ensemble<S>, n: nat): (e': Ensemble<S>)
    requires buffersPerSecond < U32_LIMIT && Shaped(tracks, e)
    ensures Shaped(tracks, e')
    decreases n
  {
    if n == 0 then e else Rounds(fixed, r, tracks, buffersPerSecond, Round(fixed, r, tracks, buffersPerSecond, e), n - 1)
  }

  /** `play_files` run for at most `fuel` iterations of its outer loop. */
  function PlayFiles<S>(fixed: bool, r: Rig<S>, synth: S, tracks: seq<seq<seq<u32>>>, buffersPerSecond: nat, fuel: nat): Ensemble<S>
    requires buffersPerSecond < U32_LIMIT
  {
    Rounds(fixed, r, tracks, buffersPerSecond, StartAll(synth, tracks, buffersPerSecond), fuel)
  }

  /** The inner loop, as written or corrected, does not depend on what was
      written before it. */
  lemma {:induction false} SweepFramesOutput<S>(fixed: bool, r: Rig<S>, tracks: seq<seq<seq<u32>>>, buffersPerSecond: nat, e: Ensemble<S>, o: seq<seq<bool>>, i: nat)
    requires buffersPerSecond < U32_LIMIT && Shaped(tracks, e) && i <= |tracks|
    ensures fixed ==> SweepFixed(r, tracks, buffersPerSecond, e.(out := o), i) == SweepFixed(r, tracks, buffersPerSecond, e, i).(out := o)
    ensures !fixed ==> Sweep(r, tracks, buffersPerSecond, e.(out := o), i) == Sweep(r, tracks, buffersPerSecond, e, i).(out := o)
    decreases |tracks| - i
  {
    if i < |tracks| {
      var (e1, eof) := Visit(r, tracks, buffersPerSecond, e, i);
      assert Visit(r, tracks, buffersPerSecond, e.(out := o), i) == (e1.(out := o), eof);
      if fixed && e.done[i] {
        SweepFramesOutput(fixed, r, tracks, buffersPerSecond, e, o, i + 1);
      } else if fixed && eof {
        SweepFramesOutput(fixed, r, tracks, buffersPerSecond, e1.(done := e1.done[i := true]), o, i + 1);
      } else {
        SweepFramesOutput(fixed, r, tracks, buffersPerSecond, e1, o, i + 1);
      }
    }
  }

  /** An iteration of the outer loop does not depend on what was written
      before it: it appends its own buffer, if any. */
  lemma RoundFramesOutput<S>(fixed: bool, r: Rig<S>, tracks: seq<seq<seq<u32>>>, buffersPerSecond: nat, e: Ensemble<S>)
    requires buffersPerSecond < U32_LIMIT && Shaped(tracks, e)
    ensures var q := Round(fixed, r, tracks, buffersPerSecond, e);
      var q0 := Round(fixed, r, tracks, buffersPerSecond, e.(out := []));
      q == q0.(out := e.out + q0.out)
  {
    SweepFramesOutput(fixed, r, tracks, buffersPerSecond, e.(out := []), e.out, 0);
  }

  /** An iteration of the outer loop as written that starts playing: the
      inner loop from an empty output, then, unless it panicked, one rendered
      buffer appended to the output. */
  lemma RoundAsWritten<S>(r: Rig<S>, tracks: seq<seq<seq<u32>>>, buffersPerSecond: nat, e: Ensemble<S>)
    requires buffersPerSecond < U32_LIMIT && Shaped(tracks, e) && e.ending == Playing
    ensures var e1 := Sweep(r, tracks, buffersPerSecond, e.(out := []), 0);
      var q := Round(false, r, tracks, buffersPerSecond, e);
      q.pos == e1.pos && q.done == e.done && q.cues == e1.cues
      && (e1.ending == Crashed ==> q.ending == Crashed && q.synth == e1.synth && q.out == e.out)
      && (e1.ending != Crashed ==> q.ending == Playing && q.synth == r.render(e1.synth).0
                                   && q.out == e.out + [r.render(e1.synth).1])
  {
    SweepFramesOutput(false, r, tracks, buffersPerSecond, e.(out := []), e.out, 0);
  }

  lemma {:induction false} RoundsAdd<S>(fixed: bool, r: Rig<S>, tracks: seq<seq<seq<u32>>>, buffersPerSecond: nat, e: Ensemble<S>, m: nat, n: nat)
    requires buffersPerSecond < U32_LIMIT && Shaped(tracks, e)
    ensures Rounds(fixed, r, tracks, buffersPerSecond, e, m + n)
         == Rounds(fixed, r, tracks, buffersPerSecond, Rounds(fixed, r, tracks, buffersPerSecond, e, m), n)
    decreases m
  {
    if m > 0 {
      RoundsAdd(fixed, r, tracks, buffersPerSecond, Round(fixed, r, tracks, buffersPerSecond, e), m - 1, n);
    }
  }

  /** A stopped loop stays stopped. */
  lemma {:induction false} StoppedRoundsStay<S>(fixed: bool, r: Rig<S>, tracks: seq<seq<seq<u32>>>, buffersPerSecond: nat, e: Ensemble<S>, n: nat)
    requires buffersPerSecond < U32_LIMIT && Shaped(tracks, e) && e.ending != Playing
    ensures Rounds(fixed, r, tracks, buffersPerSecond, e, n) == e
    decreases n
  {
    if n > 0 {
      StoppedRoundsStay(fixed, r, tracks, buffersPerSecond, e, n - 1);
    }
  }

  /** One more iteration of the outer loop. */
  lemma RoundsNext<S>(fixed: bool, r: Rig<S>, tracks: seq<seq<seq<u32>>>, buffersPerSecond: nat, e: Ensemble<S>, n: nat)
    requires buffersPerSecond < U32_LIMIT && Shaped(tracks, e)
    ensures Rounds(fixed, r, tracks, buffersPerSecond, e, n + 1)
         == Round(fixed, r, tracks, buffersPerSecond, Rounds(fixed, r, tracks, buffersPerSecond, e, n))
  {
    RoundsAdd(fixed, r, tracks, buffersPerSecond, e, n, 1);
  }

  /** Once the loop has stopped, more fuel changes nothing. */
  lemma RoundsSettle<S>(fixed: bool, r: Rig<S>, tracks: seq<seq<seq<u32>>>, buffersPerSecond: nat, e: Ensemble<S>, n: nat, fuel: nat)
    requires buffersPerSecond < U32_LIMIT && Shaped(tracks, e) && n <= fuel
    requires n < fuel ==> Rounds(fixed, r, tracks, buffersPerSecond, e, n).ending != Playing
    ensures Rounds(fixed, r, tracks, buffersPerSecond, e, fuel) == Rounds(fixed, r, tracks, buffersPerSecond, e, n)
  {
    RoundsAdd(fixed, r, tracks, buffersPerSecond, e, n, fuel - n);
    if n < fuel {
      StoppedRoundsStay(fixed, r, tracks, buffersPerSecond, Rounds(fixed, r, tracks, buffersPerSecond, e, n), fuel - n);
    }
  }

  /** The loop as written has no way out but a panic. */
  lemma {:induction false} NeverFinishes<S>(r: Rig<S>, tracks: seq<seq<seq<u32>>>, buffersPerSecond: nat, e: Ensemble<S>, n: nat)
    requires buffersPerSecond < U32_LIMIT && Shaped(tracks, e) && e.ending != Finished
    ensures Rounds(false, r, tracks, buffersPerSecond, e, n).ending != Finished
    decreases n
  {
    if n > 0 {
      NeverFinishes(r, tracks, buffersPerSecond, Round(false, r, tracks, buffersPerSecond, e), n - 1);
    }
  }

  /** Track `i` has fired its last cue and its file is exhausted. */
  predicate Exhausted<S>(tracks: seq<seq<seq<u32>>>, e: Ensemble<S>, i: nat)
    requires Shaped(tracks, e)
  {
    i < |tracks| && e.cues[i].countdown == 0 && e.pos[i] >= |tracks[i]|
  }

  lemma {:induction false} SweepStopsAt<S>(r: Rig<S>, tracks: seq<seq<seq<u32>>>, buffersPerSecond: nat, e: Ensemble<S>, k: nat, i: nat)
    requires buffersPerSecond < U32_LIMIT && Shaped(tracks, e) && k <= i && Exhausted(tracks, e, i)
    ensures var e' := Sweep(r, tracks, buffersPerSecond, e, k);
      Exhausted(tracks, e', i) && e'.cues[i] == e.cues[i]
      && (forall j :: i < j < |tracks| ==> e'.cues[j] == e.cues[j] && e'.pos[j] == e.pos[j])
      && (e'.ending != Crashed && e'.pos[i] != e.pos[i] ==>
            e'.pos[i] == e.pos[i] + 1 && exists s: S :: r.fire(s, i, e.cues[i]) == Value(e'.synth))
    decreases i - k
  {
    var (e1, eof) := Visit(r, tracks, buffersPerSecond, e, k);
    if k < i && e1.ending != Crashed && !eof {
      SweepStopsAt(r, tracks, buffersPerSecond, e1, k + 1, i);
    } else if k == i && e1.ending != Crashed {
      assert r.fire(e.synth, i, e.cues[i]) == Value(e1.synth);
    }
  }

  /** When the first track is exhausted, an iteration as written fires its
      last cue again, breaks at once and writes one buffer; the cue panicking
      (a note turned on once more than the channel holds) crashes the loop. */
  lemma ExhaustedRefires<S>(r: Rig<S>, tracks: seq<seq<seq<u32>>>, buffersPerSecond: nat, e: Ensemble<S>)
    requires buffersPerSecond < U32_LIMIT && Shaped(tracks, e) && Exhausted(tracks, e, 0) && e.ending == Playing
    ensures var e' := Round(false, r, tracks, buffersPerSecond, e);
      match r.fire(e.synth, 0, e.cues[0])
      case Panic => e'.ending == Crashed
      case Value(s) =>
        e' == e.(synth := r.render(s).0, pos := e.pos[0 := e.pos[0] + 1], out := e.out + [r.render(s).1])
  {
  }

  /** When track 0 is exhausted on a cue whose fire never panics, the loop
      as written re-fires it forever and never stops. */
  lemma {:induction false} RefiredForever<S>(r: Rig<S>, tracks: seq<seq<seq<u32>>>, buffersPerSecond: nat, e: Ensemble<S>, n: nat)
    requires buffersPerSecond < U32_LIMIT && Shaped(tracks, e) && Exhausted(tracks, e, 0) && e.ending == Playing
    requires forall s :: r.fire(s, 0, e.cues[0]).Value?
    ensures Rounds(false, r, tracks, buffersPerSecond, e, n).ending == Playing
    decreases n
  {
    if n > 0 {
      ExhaustedRefires(r, tracks, buffersPerSecond, e);
      RefiredForever(r, tracks, buffersPerSecond, Round(false, r, tracks, buffersPerSecond, e), n - 1);
    }
  }

  /** Once a track is exhausted with its last cue fired, the loop as written
      re-fires that cue in every iteration and breaks there, so no track
      after it ever advances again: their cues and read positions are frozen
      for any number of iterations. */
  lemma {:induction false} Starvation<S>(r: Rig<S>, tracks: seq<seq<seq<u32>>>, buffersPerSecond: nat, e: Ensemble<S>, i: nat, n: nat)
    requires buffersPerSecond < U32_LIMIT && Shaped(tracks, e) && Exhausted(tracks, e, i)
    ensures var e' := Rounds(false, r, tracks, buffersPerSecond, e, n);
      Exhausted(tracks, e', i) && e'.cues[i] == e.cues[i]
      && forall j :: i < j < |tracks| ==> e'.cues[j] == e.cues[j] && e'.pos[j] == e.pos[j]
    decreases n
  {
    if n > 0 {
      var e1 := Round(false, r, tracks, buffersPerSecond, e);
      if e.ending.Playing? {
        SweepStopsAt(r, tracks, buffersPerSecond, e, 0, i);
      }
      Starvation(r, tracks, buffersPerSecond, e1, i, n - 1);
    }
  }

  /** In the corrected loop a track is done once the last line read from it
      was empty: the end of its file (or a blank line, which the source also
      takes for the end). */
  predicate DoneRead<S>(tracks: seq<seq<seq<u32>>>, e: Ensemble<S>)
    requires Shaped(tracks, e)
  {
    forall j :: 0 <= j < |tracks| && e.done[j] ==> e.pos[j] >= 1 && ReadLine(tracks[j], e.pos[j] - 1) == []
  }

  /** What the corrected inner loop does to each track `j >= k`, independently
      of every other track: a done track is untouched, a waiting cue counts
      down by one, a due cue is fired and the next line is read, marking the
      track done when that line is empty. */
  lemma {:induction false} SweepFixedTrack<S>(r: Rig<S>, tracks: seq<seq<seq<u32>>>, buffersPerSecond: nat, e: Ensemble<S>, k: nat, j: nat)
    requires buffersPerSecond < U32_LIMIT && Shaped(tracks, e) && k <= j < |tracks|
    requires DoneRead(tracks, e)
    ensures var e' := SweepFixed(r, tracks, buffersPerSecond, e, k);
      e'.ending != Crashed ==>
        DoneRead(tracks, e')
        && (e.done[j] ==> e'.done[j] && e'.cues[j] == e.cues[j] && e'.pos[j] == e.pos[j])
        && (!e.done[j] && e.cues[j].countdown > 0 ==>
              !e'.done[j] && e'.cues[j].countdown == e.cues[j].countdown - 1 && e'.pos[j] == e.pos[j])
        && (!e.done[j] && e.cues[j].countdown == 0 ==>
              e'.pos[j] == e.pos[j] + 1 && (e'.done[j] <==> ReadLine(tracks[j], e.pos[j]) == []))
    decreases |tracks| - k
  {
    if e.done[k] {
      if k < j { SweepFixedTrack(r, tracks, buffersPerSecond, e, k + 1, j); }
      else { SweepFixedKeeps(r, tracks, buffersPerSecond, e, k + 1, j); }
    } else {
      var (e1, eof) := Visit(r, tracks, buffersPerSecond, e, k);
      if e1.ending != Crashed {
        var e2 := if eof then e1.(done := e1.done[k := true]) else e1;
        VisitTrack(r, tracks, buffersPerSecond, e, k);
        assert DoneRead(tracks, e2);
        if k < j { SweepFixedTrack(r, tracks, buffersPerSecond, e2, k + 1, j); }
        else { SweepFixedKeeps(r, tracks, buffersPerSecond, e2, k + 1, j); }
      }
    }
  }

  /** The corrected inner loop from `k` on leaves the tracks before `k` alone. */
  lemma {:induction false} SweepFixedKeeps<S>(r: Rig<S>, tracks: seq<seq<seq<u32>>>, buffersPerSecond: nat, e: Ensemble<S>, k: nat, j: nat)
    requires buffersPerSecond < U32_LIMIT && Shaped(tracks, e) && j < k <= |tracks|
    requires DoneRead(tracks, e)
    ensures var e' := SweepFixed(r, tracks, buffersPerSecond, e, k);
      e'.cues[j] == e.cues[j] && e'.pos[j] == e.pos[j] && e'.done[j] == e.done[j]
      && (e'.ending != Crashed ==> DoneRead(tracks, e'))
    decreases |tracks| - k
  {
    if k < |tracks| {
      if e.done[k] {
        SweepFixedKeeps(r, tracks, buffersPerSecond, e, k + 1, j);
      } else {
        var (e1, eof) := Visit(r, tracks, buffersPerSecond, e, k);
        if e1.ending != Crashed {
          var e2 := if eof then e1.(done := e1.done[k := true]) else e1;
          VisitTrack(r, tracks, buffersPerSecond, e, k);
          assert DoneRead(tracks, e2);
          SweepFixedKeeps(r, tracks, buffersPerSecond, e2, k + 1, j);
        }
      }
    }
  }

  /** Every iteration of the corrected loop advances every unfinished track
      on its own schedule, whatever the other tracks do, and the loop stops
      exactly when every track has been read past its end. */
  lemma RoundFixedProgress<S>(r: Rig<S>, tracks: seq<seq<seq<u32>>>, buffersPerSecond: nat, e: Ensemble<S>)
    requires buffersPerSecond < U32_LIMIT && Shaped(tracks, e) && DoneRead(tracks, e) && e.ending == Playing
    ensures var e' := Round(true, r, tracks, buffersPerSecond, e);
      e'.ending != Crashed ==>
        DoneRead(tracks, e')
        && (e'.ending == Finished <==> AllDone(e'))
        && forall j :: 0 <= j < |tracks| ==>
          (e.done[j] ==> e'.done[j] && e'.cues[j] == e.cues[j] && e'.pos[j] == e.pos[j])
          && (!e.done[j] && e.cues[j].countdown > 0 ==>
                !e'.done[j] && e'.cues[j].countdown == e.cues[j].countdown - 1 && e'.pos[j] == e.pos[j])
          && (!e.done[j] && e.cues[j].countdown == 0 ==> e'.pos[j] == e.pos[j] + 1)
  {
    var e1 := SweepFixed(r, tracks, buffersPerSecond, e, 0);
    var e' := Round(true, r, tracks, buffersPerSecond, e);
    if e1.ending != Crashed {
      if AllDone(e1) {
        assert e' == e1.(ending := Finished);
      } else {
        assert e'.done == e1.done && e'.ending == e1.ending;
      }
      forall j | 0 <= j < |tracks|
        ensures (e.done[j] ==> e1.done[j] && e1.cues[j] == e.cues[j] && e1.pos[j] == e.pos[j])
          && (!e.done[j] && e.cues[j].countdown > 0 ==>
                !e1.done[j] && e1.cues[j].countdown == e.cues[j].countdown - 1 && e1.pos[j] == e.pos[j])
          && (!e.done[j] && e.cues[j].countdown == 0 ==> e1.pos[j] == e.pos[j] + 1)
      {
        SweepFixedTrack(r, tracks, buffersPerSecond, e, 0, j);
      }
      if |tracks| > 0 {
        SweepFixedTrack(r, tracks, buffersPerSecond, e, 0, 0);
      } else {
        assert e1 == e;
      }
    }
  }

}
