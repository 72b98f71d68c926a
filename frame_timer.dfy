/**
 * `FrameTimer` (src/utils.rs): collects the duration of each frame and,
 * every `averagingWindow` frames, emits one summary line with the average,
 * the minimum and the maximum of the batch, then starts a new batch.
 *
 * Instants and durations are nanosecond naturals.  The clock is read by
 * the caller and passed in; the `info!` sink is the ghost sequence `log`
 * of summaries, one per emitted line.
 */
module FrameTiming {
  import opened DurationFormat

  /** Total of a batch of durations (`iter().sum::<Duration>()`). */
  function Sum(s: seq<nat>): (t: nat)
    ensures forall i :: 0 <= i < |s| ==> s[i] <= t
  {
    if s == [] then 0 else s[0] + Sum(s[1..])
  }

  /** Smallest duration of a non-empty batch (`iter().min()`). */
  function Min(s: seq<nat>): (m: nat)
    requires |s| > 0
    ensures m in s
    ensures forall i :: 0 <= i < |s| ==> m <= s[i]
  {
    if |s| == 1 then s[0]
    else
      var rest := Min(s[1..]);
      assert forall i :: 1 <= i < |s| ==> s[1..][i - 1] == s[i];
      if s[0] <= rest then s[0] else rest
  }

  /** Largest duration of a non-empty batch (`iter().max()`). */
  function Max(s: seq<nat>): (m: nat)
    requires |s| > 0
    ensures m in s
    ensures forall i :: 0 <= i < |s| ==> s[i] <= m
  {
    if |s| == 1 then s[0]
    else
      var rest := Max(s[1..]);
      assert forall i :: 1 <= i < |s| ==> s[1..][i - 1] == s[i];
      if s[0] >= rest then s[0] else rest
  }

  /** A batch whose every element is at most `bound` sums to at most `|s| * bound`. */
  lemma {:induction false} SumAtMost(s: seq<nat>, bound: nat)
    requires forall i :: 0 <= i < |s| ==> s[i] <= bound
    ensures Sum(s) <= bound * |s|
  {
    if s != [] {
      assert forall i :: 0 <= i < |s[1..]| ==> s[1..][i] == s[i + 1];
      SumAtMost(s[1..], bound);
      assert bound * |s| == bound + bound * |s[1..]|;
    }
  }

  /** One emitted line: the label and the batch's average, minimum and maximum. */
  datatype Summary = Summary(message: string, avg: nat, min: nat, max: nat) {

    /**
     * The three descriptors `format_duration` produces for the line, for the
     * average, the minimum and the maximum.  The maximum is never shown in a
     * smaller unit than the other two when it is the largest of the three,
     * as it is in every summary `Summarize` makes.
     */
    function Formats(): (f: (Format, Format, Format))
      ensures avg <= max ==> f.0.unit.Nanos() <= f.2.unit.Nanos()
      ensures min <= max ==> f.1.unit.Nanos() <= f.2.unit.Nanos()
    {
      FormatNanosUnitMonotone(avg, max);
      FormatNanosUnitMonotone(min, max);
      (FormatNanos(avg), FormatNanos(min), FormatNanos(max))
    }
  }

  /**
   * The summary of a non-empty batch: `min` and `max` are elements of the
   * batch below and above all others, and `avg` is the total divided by the
   * number of frames, rounded down, so it never exceeds `max`.
   */
  function Summarize(message: string, times: seq<nat>): (r: Summary)
    requires |times| > 0
    ensures r.message == message
    ensures r.min in times && forall i :: 0 <= i < |times| ==> r.min <= times[i]
    ensures r.max in times && forall i :: 0 <= i < |times| ==> times[i] <= r.max
    ensures r.avg * |times| <= Sum(times) < (r.avg + 1) * |times|
    ensures r.avg <= r.max
  {
    var n := |times|;
    var avg := Sum(times) / n;
    var max := Max(times);
    FloorDiv(Sum(times), n);
    SumAtMost(times, max);
    MulCancel(avg, max, n);
    Summary(message, avg, Min(times), max)
  }

  /** `a / n` rounds down: the quotient is the largest multiple not above `a`. */
  lemma FloorDiv(a: nat, n: nat)
    requires n >= 1
    ensures (a / n) * n <= a < (a / n + 1) * n
  {
  }

  lemma MulCancel(a: nat, b: nat, n: nat)
    requires n >= 1 && a * n <= b * n
    ensures a <= b
  {
  }

  lemma MulGap(a: nat, b: nat, w: nat)
    requires a < b
    ensures a * w + w <= b * w
  {
    var m := b - a;
    assert b * w == (a + m) * w;
    assert (a + m) * w == a * w + m * w;
    assert m * w == w + (m - 1) * w;
  }

  /** Quotient and remainder are the only pair with `k == q * w + r` and `r < w`. */
  lemma DivModUnique(k: nat, w: nat, q: nat, r: nat)
    requires w >= 1 && r < w && k == q * w + r
    ensures k / w == q && k % w == r
  {
    var q', r' := k / w, k % w;
    assert k == q' * w + r' && r' < w;
    if q' < q {
      MulGap(q', q, w);
    } else if q < q' {
      MulGap(q, q', w);
    }
  }

  class FrameTimer {
    const message: string
    const averagingWindow: nat
    var currentFrameStart: nat
    var frameTimes: seq<nat>

    /** The summaries emitted so far, in order. */
    ghost var log: seq<Summary>
    /** How many times `End` has been called. */
    ghost var endCalls: nat

    /**
     * The batch-counting invariant, kept while only `End` flushes: the
     * window is at least one frame, every `End` call so far is either in a
     * logged batch of `averagingWindow` frames or in the current batch, and
     * the current batch is never full between calls.
     */
    ghost predicate BatchCounted()
      reads this
    {
      && averagingWindow >= 1
      && |log| * averagingWindow + |frameTimes| == endCalls
      && |frameTimes| < averagingWindow
    }

    /** `FrameTimer::new`: an empty batch, the frame starting at `now`. */
    constructor (message: string, averagingWindow: nat, now: nat)
      ensures this.message == message && this.averagingWindow == averagingWindow
      ensures currentFrameStart == now
      ensures frameTimes == [] && log == [] && endCalls == 0
      ensures averagingWindow >= 1 ==> BatchCounted()
    {
      this.message := message;
      this.averagingWindow := averagingWindow;
      currentFrameStart := now;
      frameTimes := [];
      log := [];
      endCalls := 0;
    }

    /** `start`: a new frame begins at `now`; nothing else changes. */
    method Start(now: nat)
      modifies this`currentFrameStart
      ensures currentFrameStart == now
      ensures frameTimes == old(frameTimes) && log == old(log) && endCalls == old(endCalls)
    {
      currentFrameStart := now;
    }

    /**
     * `end`: records the frame that started at `currentFrameStart` and ends
     * at `now`; when that fills the window, emits one summary of the whole
     * batch and empties it.
     */
    method End(now: nat)
      requires currentFrameStart <= now
      modifies this`frameTimes, this`log, this`endCalls
      ensures var batch := old(frameTimes) + [now - currentFrameStart];
        if |batch| == averagingWindow then
          frameTimes == [] && log == old(log) + [Summarize(message, batch)]
        else
          frameTimes == batch && log == old(log)
      ensures endCalls == old(endCalls) + 1
      ensures old(BatchCounted()) ==> BatchCounted()
    {
      assert old(BatchCounted()) && |frameTimes| + 1 == averagingWindow ==>
        (|log| + 1) * averagingWindow == |log| * averagingWindow + averagingWindow;
      frameTimes := frameTimes + [now - currentFrameStart];
      endCalls := endCalls + 1;
      if |frameTimes| == averagingWindow {
        PrintAndReset();
      }
    }

    /**
     * `print_and_reset`: emits the summary of the current batch and empties
     * it.  The batch must not be empty: the source divides by its length and
     * unwraps its minimum and maximum.
     */
    method PrintAndReset()
      requires |frameTimes| > 0
      modifies this`frameTimes, this`log
      ensures log == old(log) + [Summarize(message, old(frameTimes))]
      ensures frameTimes == []
      ensures endCalls == old(endCalls)
    {
      log := log + [Summarize(message, frameTimes)];
      frameTimes := [];
    }
  }

  /**
   * After k calls of `End` on a timer that only `End` has flushed, the
   * batch holds k % window frames and k / window summaries have been logged.
   */
  lemma BatchCountsAfterEnds(t: FrameTimer)
    requires t.BatchCounted()
    ensures |t.frameTimes| == t.endCalls % t.averagingWindow
    ensures |t.log| == t.endCalls / t.averagingWindow
    ensures |t.frameTimes| < t.averagingWindow
  {
    DivModUnique(t.endCalls, t.averagingWindow, |t.log|, |t.frameTimes|);
  }

  /**
   * A window of three frames driven for four frames of 5 ms each: after the
   * third `End` one summary is logged and the batch is empty; the fourth
   * leaves one frame pending and logs nothing more.
   */
  method FourFramesWindowThree() {
    var t := new FrameTimer("frame", 3, 0);
    t.Start(0);
    t.End(5_000_000);
    t.Start(5_000_000);
    t.End(10_000_000);
    assert t.frameTimes == [5_000_000, 5_000_000] && t.log == [];
    t.Start(10_000_000);
    t.End(15_000_000);
    assert t.frameTimes == [] && |t.log| == 1;
    t.Start(15_000_000);
    t.End(20_000_000);
    assert t.frameTimes == [5_000_000] && |t.log| == 1;
  }
}
