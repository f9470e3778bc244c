/** The square-wave step law shared by every oscillator snapshot:
    on each tick the phase counter is incremented; reaching the period wraps it
    to 0 and yields a low sample, otherwise the sample is high while the
    counter is below the pulse width (`waveform`). */
module SquareWave {

  import opened Arith

  /** The counter after one tick. */
  function Advance(counter: nat, period: nat): (next: nat)
    ensures next == 0 || 0 < next < period
    ensures next == 0 <==> counter + 1 >= period
  {
    if counter + 1 >= period then 0 else counter + 1
  }

  /** The sample produced by one tick from `counter`. */
  function Level(counter: nat, period: nat, waveform: nat): (bit: bool)
    ensures bit <==> Advance(counter, period) != 0 && Advance(counter, period) < waveform
  {
    if counter + 1 >= period then false else counter + 1 < waveform
  }

  /** The samples of `n` successive ticks starting from `counter`. */
  function Run(counter: nat, period: nat, waveform: nat, n: nat): (bits: seq<bool>)
    ensures |bits| == n
    decreases n
  {
    if n == 0 then [] else [Level(counter, period, waveform)] + Run(Advance(counter, period), period, waveform, n - 1)
  }

  /** The counter after `n` successive ticks starting from `counter`. */
  function After(counter: nat, period: nat, n: nat): nat
    decreases n
  {
    if n == 0 then counter else After(Advance(counter, period), period, n - 1)
  }

  /** A period of at most one sample never produces a high sample. */
  lemma ShortPeriodSilent(counter: nat, period: nat, waveform: nat)
    requires period <= 1
    ensures !Level(counter, period, waveform) && Advance(counter, period) == 0
  {
  }

  /** With a period of at most one sample every run is silent and leaves the
      counter at 0. */
  lemma {:induction false} ShortPeriodRun(counter: nat, period: nat, waveform: nat, n: nat)
    requires period <= 1
    ensures Run(counter, period, waveform, n) == seq(n, _ => false)
    ensures n > 0 ==> After(counter, period, n) == 0
    decreases n
  {
    if n > 0 {
      ShortPeriodRun(0, period, waveform, n - 1);
    }
  }

  /** Ticks can be taken one more at the end: the run and counter of `n + 1`
      ticks extend those of `n` ticks by one step. */
  lemma {:induction false} RunSnoc(counter: nat, period: nat, waveform: nat, n: nat)
    ensures Run(counter, period, waveform, n + 1)
            == Run(counter, period, waveform, n) + [Level(After(counter, period, n), period, waveform)]
    ensures After(counter, period, n + 1) == Advance(After(counter, period, n), period)
    decreases n
  {
    if n > 0 {
      RunSnoc(Advance(counter, period), period, waveform, n - 1);
    }
  }

  /** Running `n + m` ticks is running `n` ticks and then `m` more. */
  lemma {:induction false} RunAppend(counter: nat, period: nat, waveform: nat, n: nat, m: nat)
    ensures Run(counter, period, waveform, n + m)
            == Run(counter, period, waveform, n) + Run(After(counter, period, n), period, waveform, m)
    ensures After(counter, period, n + m) == After(After(counter, period, n), period, m)
    decreases n
  {
    if n > 0 {
      RunAppend(Advance(counter, period), period, waveform, n - 1, m);
    }
  }

  /** Tick `k` of a run is the sample produced from the counter reached after
      `k` ticks. */
  lemma {:induction false} RunAt(counter: nat, period: nat, waveform: nat, n: nat, k: nat)
    requires k < n
    ensures Run(counter, period, waveform, n)[k] == Level(After(counter, period, k), period, waveform)
    decreases k
  {
    if k > 0 {
      RunAt(Advance(counter, period), period, waveform, n - 1, k - 1);
    }
  }

  /** Closed form of the counter: from a phase inside the cycle, `k` ticks
      move it to `(counter + k) % period`. */
  lemma {:induction false} AfterInCycle(counter: nat, period: nat, k: nat)
    requires counter < period
    ensures After(counter, period, k) == (counter + k) % period
    decreases k
  {
    if k == 0 {
      ModUnique(counter, period, 0, counter);
    } else {
      var next := Advance(counter, period);
      AfterInCycle(next, period, k - 1);
      if counter + 1 == period {
        ModAddPeriod(k - 1, period);
      }
    }
  }

  /** Closed form of the samples: tick `k` of a run that starts inside the
      cycle is the sample of phase `(counter + k) % period`. */
  lemma RunInCycle(counter: nat, period: nat, waveform: nat, n: nat, k: nat)
    requires counter < period && k < n
    ensures Run(counter, period, waveform, n)[k] == Level((counter + k) % period, period, waveform)
  {
    RunAt(counter, period, waveform, n, k);
    AfterInCycle(counter, period, k);
  }

  /** From a reset counter, tick `k` is high exactly when its position in the
      cycle, `k % period`, is one of the first `min(waveform, period) - 1`
      positions: the output is periodic with period `period` and each cycle
      starts with its high samples. */
  lemma CycleShape(period: nat, waveform: nat, n: nat, k: nat)
    requires period >= 1 && k < n
    ensures Run(0, period, waveform, n)[k] <==> k % period + 1 < period && k % period + 1 < waveform
  {
    RunInCycle(0, period, waveform, n, k);
  }

  /** From a reset counter the wave repeats with period `period`. */
  lemma Periodic(period: nat, waveform: nat, n: nat, k: nat)
    requires period >= 1 && k + period < n
    ensures Run(0, period, waveform, n)[k + period] == Run(0, period, waveform, n)[k]
  {
    RunInCycle(0, period, waveform, n, k);
    RunInCycle(0, period, waveform, n, k + period);
    ModAddPeriod(k, period);
  }

  /** A cycle of `period` ticks brings a reset counter back to zero. */
  lemma CycleReturns(period: nat)
    requires period >= 1
    ensures After(0, period, period) == 0
  {
    AfterInCycle(0, period, period);
    ModUnique(period, period, 1, 0);
  }

  /** The number of high samples in a sequence. */
  function CountHigh(bits: seq<bool>): (c: nat)
    ensures c <= |bits|
  {
    if bits == [] then 0 else (if bits[0] then 1 else 0) + CountHigh(bits[1..])
  }

  lemma {:induction false} CountPrefix(bits: seq<bool>, m: nat)
    requires m <= |bits|
    requires forall k :: 0 <= k < |bits| ==> (bits[k] <==> k < m)
    ensures CountHigh(bits) == m
  {
    if bits != [] {
      var rest := bits[1..];
      var m' := if m == 0 then 0 else m - 1;
      forall k | 0 <= k < |rest| ensures rest[k] <==> k < m' {
        assert rest[k] == bits[k + 1];
      }
      CountPrefix(rest, m');
    }
  }

  /** Exactly `max(0, min(waveform, period) - 1)` samples of every cycle are high. */
  lemma CycleHighCount(period: nat, waveform: nat)
    requires period >= 1
    ensures CountHigh(Run(0, period, waveform, period))
            == (if waveform <= 1 then 0 else (if waveform < period then waveform else period) - 1)
  {
    var bits := Run(0, period, waveform, period);
    var m: nat := if waveform <= 1 then 0 else (if waveform < period then waveform else period) - 1;
    forall k | 0 <= k < period ensures bits[k] <==> k < m {
      RunInCycle(0, period, waveform, period, k);
      ModUnique(k, period, 0, k);
    }
    CountPrefix(bits, m);
  }
}
