/** A channel of the `src/synth` snapshot (src/synth/channel.rs): a `Vec` pool
    of at most `VOICES_MAX` voices, all of them sounding, mixed by OR-ing
    their outputs. */
module SynthChannel {

  import opened Common
  import opened SynthVoice
  import Lib
  import Utils

  /** `out()` on a pool: every voice advances by one sample, and the channel's
      sample is the OR of theirs. */
  function Tick(voices: seq<VoiceState>): (seq<VoiceState>, bool)
  {
    (seq(|voices|, i requires 0 <= i < |voices| => voices[i].Tick().0),
     exists i :: 0 <= i < |voices| && voices[i].Tick().1)
  }

  /** `out_buffer()` for a buffer of `n` samples: every voice renders `n`
      samples, and the buffers are OR-ed. */
  function Render(voices: seq<VoiceState>, n: nat): (seq<VoiceState>, seq<bool>)
  {
    (seq(|voices|, i requires 0 <= i < |voices| => voices[i].TickN(n).0),
     seq(n, k requires 0 <= k < n => exists i :: 0 <= i < |voices| && voices[i].TickN(n).1[k]))
  }

  /** `n` successive `out()` calls. */
  function Outs(voices: seq<VoiceState>, n: nat): (seq<VoiceState>, seq<bool>)
    decreases n
  {
    if n == 0 then (voices, [])
    else
      var (vs, bit) := Tick(voices);
      var (vs', bits) := Outs(vs, n - 1);
      (vs', [bit] + bits)
  }

  /** The pool holds at most `VOICES_MAX` voices, each with its counter in range. */
  predicate PoolValid(voices: seq<VoiceState>)
  {
    |voices| <= Lib.VOICES_MAX && forall i :: 0 <= i < |voices| ==> voices[i].Valid()
  }

  /** `note_on` as written: after the guarded `push` it reaches `panic!()`
      unconditionally, so it never returns. */
  function NoteOnOutcomeAsWritten(voices: seq<VoiceState>, freq: u32, duty: real): Outcome<seq<VoiceState>>
  {
    Panic
  }

  /** `note_on` as evidently intended: a new voice joins the pool while there
      is room, and a full pool panics. `Voice::new(0, _)` divides by zero. */
  function NoteOnOutcome(voices: seq<VoiceState>, freq: u32, duty: real): Outcome<seq<VoiceState>>
  {
    if |voices| < Lib.VOICES_MAX && freq > 0 then Value(voices + [New(freq, duty)]) else Panic
  }

  /** `note_off(freq)`: `retain` keeps, in order, the voices not playing `freq`. */
  function Without(voices: seq<VoiceState>, freq: u32): seq<VoiceState>
  {
    if voices == [] then []
    else
      var last := voices[|voices| - 1];
      Without(voices[..|voices| - 1], freq) + (if last.freq == freq then [] else [last])
  }

  /** The pool after `note_off(freq)` holds exactly the voices of the old pool
      that do not play `freq`, and no more of them than before. */
  lemma {:induction false} WithoutMembers(voices: seq<VoiceState>, freq: u32)
    ensures forall v :: v in Without(voices, freq) <==> v in voices && v.freq != freq
    ensures |Without(voices, freq)| <= |voices|
  {
    if voices != [] {
      var init := voices[..|voices| - 1];
      WithoutMembers(init, freq);
      assert voices == init + [voices[|voices| - 1]];
    }
  }

  /** `retain` keeps the surviving voices in their original order: filtering
      a pool cut in two is filtering the two parts. */
  lemma {:induction false} WithoutAppend(a: seq<VoiceState>, b: seq<VoiceState>, freq: u32)
    ensures Without(a + b, freq) == Without(a, freq) + Without(b, freq)
    decreases |b|
  {
    if b == [] {
      assert a + b == a;
    } else {
      var init := b[..|b| - 1];
      WithoutAppend(a, init, freq);
      assert (a + b)[..|a + b| - 1] == a + init;
    }
  }

  /** The fixed `note_on` adds one voice at the end, playing `freq` from a
      reset counter, within the capacity; a later `note_off(freq)` takes it
      out again together with every other voice playing `freq`. */
  lemma NoteOnThenOff(voices: seq<VoiceState>, freq: u32, duty: real)
    requires PoolValid(voices) && NoteOnOutcome(voices, freq, duty).Value?
    ensures var vs := NoteOnOutcome(voices, freq, duty).value;
      PoolValid(vs) && |vs| == |voices| + 1 && vs[..|voices|] == voices
      && vs[|voices|].freq == freq && vs[|voices|].counter == 0
      && Without(vs, freq) == Without(voices, freq)
  {
    var vs := NoteOnOutcome(voices, freq, duty).value;
    NewIsResetSet(New(freq, duty), freq, duty);
    WithoutAppend(voices, [New(freq, duty)], freq);
    assert Without([New(freq, duty)], freq) == [];
  }

  /** As written, `note_on` never returns, even on an empty pool where the
      push succeeds and the fixed version returns the new voice. */
  lemma NoteOnAsWrittenPanics()
    ensures NoteOnOutcomeAsWritten([], 440, 0.5) == Panic
    ensures NoteOnOutcome([], 440, 0.5) == Value([New(440, 0.5)])
  {
    assert [] + [New(440, 0.5)] == [New(440, 0.5)];
  }

  /** Removing voices keeps the pool valid. */
  lemma {:induction false} WithoutKeepsValid(voices: seq<VoiceState>, freq: u32)
    requires PoolValid(voices)
    ensures PoolValid(Without(voices, freq))
  {
    WithoutMembers(voices, freq);
    var w := Without(voices, freq);
    forall i | 0 <= i < |w|
      ensures w[i].Valid()
    {
      assert w[i] in voices;
    }
  }

  /** An empty pool is silent and unchanged; adding a voice to the end of a
      pool ORs its sample into the channel's. */
  lemma TickIsOr(voices: seq<VoiceState>, v: VoiceState)
    ensures Tick([]) == ([], false)
    ensures Tick(voices + [v]).1 == (Tick(voices).1 || v.Tick().1)
    ensures Tick(voices + [v]).0 == Tick(voices).0 + [v.Tick().0]
  {
    var w := voices + [v];
    assert Tick([]).0 == [];
    if Tick(w).1 {
      var i :| 0 <= i < |w| && w[i].Tick().1;
      if i < |voices| {
        assert voices[i].Tick().1;
      }
    }
    if Tick(voices).1 {
      var i :| 0 <= i < |voices| && voices[i].Tick().1;
      assert w[i].Tick().1;
    }
    if v.Tick().1 {
      assert w[|voices|].Tick().1;
    }
    assert Tick(w).0 == Tick(voices).0 + [v.Tick().0];
  }

  /** Ticking keeps the pool valid. */
  lemma TicksKeepValid(voices: seq<VoiceState>, n: nat)
    requires PoolValid(voices)
    ensures PoolValid(Tick(voices).0) && PoolValid(Render(voices, n).0)
  {
    forall i | 0 <= i < |voices|
      ensures Tick(voices).0[i].Valid() && Render(voices, n).0[i].Valid()
    {
      SynthVoice.OperationsKeepValid(voices[i], 0, 0.0, n);
    }
  }

  lemma RenderStateStep(voices: seq<VoiceState>, n: nat)
    requires n > 0
    ensures Render(voices, n).0 == Render(Tick(voices).0, n - 1).0
  {
    forall i | 0 <= i < |voices|
      ensures Render(voices, n).0[i] == Render(Tick(voices).0, n - 1).0[i]
    {
      TickNUnfold(voices[i], n - 1);
    }
  }

  lemma RenderBufferStep(voices: seq<VoiceState>, n: nat)
    requires n > 0
    ensures Render(voices, n).1 == [Tick(voices).1] + Render(Tick(voices).0, n - 1).1
  {
    var (vs1, bit) := Tick(voices);
    var buffer := Render(voices, n).1;
    var buffer1 := Render(vs1, n - 1).1;
    forall i | 0 <= i < |voices|
      ensures voices[i].TickN(n).1 == [voices[i].Tick().1] + vs1[i].TickN(n - 1).1
    {
      TickNUnfold(voices[i], n - 1);
    }
    forall k | 0 <= k < n
      ensures buffer[k] == ([bit] + buffer1)[k]
    {
      if k > 0 {
        forall i | 0 <= i < |voices|
          ensures voices[i].TickN(n).1[k] == vs1[i].TickN(n - 1).1[k - 1]
        {
        }
      }
    }
  }

  /** `out_buffer()` yields the same samples and pool as `n` successive `out()` calls. */
  lemma {:induction false} RenderIsOuts(voices: seq<VoiceState>, n: nat)
    ensures Render(voices, n) == Outs(voices, n)
    decreases n
  {
    if n == 0 {
      assert Render(voices, 0).0 == voices;
      assert Render(voices, 0).1 == [];
    } else {
      RenderIsOuts(Tick(voices).0, n - 1);
      RenderStateStep(voices, n);
      RenderBufferStep(voices, n);
    }
  }

  /** The pool after its first `i` voices have advanced by one sample. */
  function TickedUpTo(voices: seq<VoiceState>, i: nat): (r: seq<VoiceState>)
  {
    seq(|voices|, j requires 0 <= j < |voices| => if j < i then voices[j].Tick().0 else voices[j])
  }

  /** The pool after its first `i` voices have rendered `n` samples. */
  function RenderedUpTo(voices: seq<VoiceState>, n: nat, i: nat): (r: seq<VoiceState>)
  {
    seq(|voices|, j requires 0 <= j < |voices| => if j < i then voices[j].TickN(n).0 else voices[j])
  }

  /** The OR of the buffers of the first `i` voices. */
  function MixUpTo(voices: seq<VoiceState>, n: nat, i: nat): (r: seq<bool>)
    requires i <= |voices|
    ensures |r| == n
  {
    if i == 0 then Utils.Quiet(n) else Utils.Or(MixUpTo(voices, n, i - 1), voices[i - 1].TickN(n).1)
  }

  /** Mixing the voices one at a time gives the buffer of `out_buffer`. */
  lemma {:induction false} MixUpToIsRender(voices: seq<VoiceState>, n: nat, i: nat)
    requires i <= |voices|
    ensures forall k :: 0 <= k < n ==>
      (MixUpTo(voices, n, i)[k] <==> exists j :: 0 <= j < i && voices[j].TickN(n).1[k])
    ensures i == |voices| ==> MixUpTo(voices, n, i) == Render(voices, n).1
  {
    if i > 0 {
      MixUpToIsRender(voices, n, i - 1);
    }
  }

  /** A channel object: the pool is a `Vec` the methods replace. */
  class Channel {
    var voices: seq<VoiceState>

    ghost predicate Valid()
      reads this
    {
      PoolValid(voices)
    }

    /** `Channel::new()`: an empty pool. */
    constructor ()
      ensures Valid() && voices == []
    {
      voices := [];
    }

    /** `note_on` as written: the voice is pushed when there is room, and then
        the call panics whatever happened. A frequency of 0 with room panics
        earlier, in `Voice::new`, before anything is pushed. */
    method NoteOnAsWritten(freq: u32, duty: real) returns (status: Status)
      requires Valid()
      modifies this
      ensures NoteOnOutcomeAsWritten(old(voices), freq, duty) == Panic && status == Panicked
      ensures voices == old(voices) + (if |old(voices)| < Lib.VOICES_MAX && freq > 0 then [New(freq, duty)] else [])
    {
      if |voices| < Lib.VOICES_MAX && freq > 0 {
        voices := voices + [New(freq, duty)];
      }
      status := Panicked;
    }

    /** `note_on` as evidently intended. */
    method NoteOn(freq: u32, duty: real) returns (status: Status)
      requires Valid()
      modifies this
      ensures Valid()
      ensures match NoteOnOutcome(old(voices), freq, duty)
        case Panic => status == Panicked && voices == old(voices)
        case Value(vs) => status == Returned && voices == vs
    {
      if |voices| < Lib.VOICES_MAX && freq > 0 {
        NoteOnThenOff(voices, freq, duty);
        voices := voices + [New(freq, duty)];
        status := Returned;
      } else {
        status := Panicked;
      }
    }

    /** `note_off(freq)`: the pool is filtered by one pass over it. */
    method NoteOff(freq: u32)
      requires Valid()
      modifies this
      ensures Valid() && voices == Without(old(voices), freq)
    {
      ghost var vs := voices;
      WithoutKeepsValid(vs, freq);
      var kept := [];
      for i := 0 to |voices|
        invariant voices == vs
        invariant kept == Without(vs[..i], freq)
      {
        assert vs[..i + 1][..i] == vs[..i];
        if voices[i].freq != freq {
          kept := kept + [voices[i]];
        }
      }
      assert vs[..|vs|] == vs;
      voices := kept;
    }

    /** `out()`. */
    method Out() returns (out: bool)
      requires Valid()
      modifies this
      ensures Valid() && (voices, out) == Tick(old(voices))
    {
      ghost var vs := voices;
      TicksKeepValid(vs, 0);
      out := false;
      for i := 0 to |voices|
        invariant |voices| == |vs| && voices == TickedUpTo(vs, i)
        invariant out <==> exists j :: 0 <= j < i && vs[j].Tick().1
      {
        var (v, bit) := voices[i].Tick();
        voices := voices[i := v];
        out := out || bit;
      }
      assert voices == Tick(vs).0;
    }

    /** `out_buffer()`. */
    method OutBuffer() returns (buffer: seq<bool>)
      requires Valid()
      modifies this
      ensures Valid() && (voices, buffer) == Render(old(voices), Lib.BUFFER_SIZE)
    {
      ghost var vs := voices;
      var n := Lib.BUFFER_SIZE;
      TicksKeepValid(vs, n);
      buffer := Utils.Quiet(n);
      for i := 0 to |voices|
        invariant |voices| == |vs| && voices == RenderedUpTo(vs, n, i)
        invariant buffer == MixUpTo(vs, n, i)
      {
        var (v, samples) := voices[i].TickN(n);
        voices := voices[i := v];
        buffer := Utils.Or(buffer, samples);
      }
      MixUpToIsRender(vs, n, |vs|);
      assert voices == Render(vs, n).0;
    }
  }
}
