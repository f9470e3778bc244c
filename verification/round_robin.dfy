/** The Pulse Interleaving Method as a law over any kind of channel: on every
    tick each channel takes one step, and only the channel under the cursor
    contributes its sample; the cursor then moves on modulo the number of
    channels. `step` gives a channel's next state and its sample. */
module RoundRobin {

  import opened Arith

  /** Every channel takes one step. */
  function StepAll<S>(step: S -> (S, bool), states: seq<S>): (next: seq<S>)
    ensures |next| == |states|
    ensures forall i :: 0 <= i < |states| ==> next[i] == step(states[i]).0
  {
    seq(|states|, i requires 0 <= i < |states| => step(states[i]).0)
  }

  /** One channel after `k` steps. */
  function Iter<S>(step: S -> (S, bool), s: S, k: nat): S
    decreases k
  {
    if k == 0 then s else Iter(step, step(s).0, k - 1)
  }

  /** All channels after `n` interleaved ticks. */
  function StepAllN<S>(step: S -> (S, bool), states: seq<S>, n: nat): (next: seq<S>)
    ensures |next| == |states|
    decreases n
  {
    if n == 0 then states else StepAllN(step, StepAll(step, states), n - 1)
  }

  /** The samples emitted by `n` interleaved ticks starting with the cursor at `cur`. */
  function Run<S>(step: S -> (S, bool), states: seq<S>, cur: nat, n: nat): (bits: seq<bool>)
    requires cur < |states|
    ensures |bits| == n
    decreases n
  {
    if n == 0 then []
    else [step(states[cur]).1] + Run(step, StepAll(step, states), (cur + 1) % |states|, n - 1)
  }

  /** Channels advance in lock-step whether or not they are selected: after
      `n` ticks channel `i` has taken exactly `n` steps. */
  lemma {:induction false} StepAllNAt<S>(step: S -> (S, bool), states: seq<S>, n: nat, i: nat)
    requires i < |states|
    ensures StepAllN(step, states, n)[i] == Iter(step, states[i], n)
    decreases n
  {
    if n > 0 {
      StepAllNAt(step, StepAll(step, states), n - 1, i);
    }
  }

  /** The round-robin window: sample `k` of a run that starts with the cursor
      at `cur` is the sample channel `(cur + k) % |states|` produces on its
      `k`-th step. */
  lemma {:induction false} Window<S>(step: S -> (S, bool), states: seq<S>, cur: nat, n: nat, k: nat)
    requires cur < |states| && k < n
    ensures Run(step, states, cur, n)[k] == step(Iter(step, states[(cur + k) % |states|], k)).1
    decreases k
  {
    var m := |states|;
    if k == 0 {
      ModUnique(cur, m, 0, cur);
    } else {
      var next := StepAll(step, states);
      var cur' := (cur + 1) % m;
      Window(step, next, cur', n - 1, k - 1);
      ModShift(cur + 1, k - 1, m);
      assert (cur' + (k - 1)) % m == (cur + k) % m;
    }
  }
}
