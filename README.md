# Timing and GL error helpers of gltf-viewer, modelled in Dafny

`src/utils.rs` of the viewer holds three small pieces of diagnostic logic:

- **Duration formatting** (`format_duration`, `elapsed`): a duration is shown
  in seconds, milliseconds or microseconds with 0, 1 or 2 decimal places,
  chosen by fixed thresholds. Module `DurationFormat` (`duration_format.dfy`)
  models the choice as a `Format(unit, places)` descriptor. It proves that
  exact integer thresholds on the sub-second nanoseconds pick the same branch
  as the source's `f64` comparisons do when those are done on exact reals. It
  also proves what the choice means for the exact value handed to `format!`
  (before it is rounded to the chosen places): the unit is the largest one in
  which that value is at least 1 (microseconds when none is), and within each
  unit the number of decimals drops as the value grows.
- **`FrameTimer`**: a per-activity accumulator. `start` marks the start of a
  frame. `end` pushes the frame's duration onto a batch. When the batch
  reaches `averaging_window` frames, `end` logs one average/min/max summary
  and clears the batch. Module `FrameTiming` (`frame_timer.dfy`) models it as
  a class with an in-place `frameTimes: seq<nat>` (nanoseconds). The `info!`
  output is a ghost `log` of `Summary` values. A ghost count of `End` calls
  carries the batch-counting invariant: after k calls, k % window frames are
  pending and k / window summaries were logged.
- **`gl_check_error`**: a loop that drains the driver's error queue and logs
  each code's name with the call site. Module `GlErrors` (`gl_errors.dfy`)
  models the replies of successive `glGetError` calls as an input sequence.
  The logged lines are the method's result.

Durations and instants are nanosecond naturals. The clock (`Instant::now`)
is read by the caller and passed in as `now`. The driver's replies are a
parameter.

`FrameTiming.FourFramesWindowThree` is a worked example: a window of three,
driven for four 5 ms frames. It shows that the contracts of `Start` and `End`
alone determine that one summary is logged after the third frame and one
frame is pending after the fourth.

Two behaviours follow the code rather than a more defensive design:

- `print_and_reset` on an empty batch divides by zero and unwraps `None` in
  the source. It has no "skip when empty" path, so `PrintAndReset` requires a
  non-empty batch.
- A window of 0 is not rejected at construction. `End` then never flushes
  and the batch grows without bound, which the model reproduces. The
  batch-counting invariant is stated for windows of at least one frame.

## Model

| member | source | states |
|---|---|---|
| DurationFormat.FromNanos | src/utils.rs:13-14 | `as_secs`/`subsec_nanos`: the sub-second part is below 10^9 and seconds·10^9 + nanos is the whole duration |
| DurationFormat.FromNanosOfTotal | src/utils.rs:13-14 | a valid duration is recovered from its nanosecond total (the split is unique) |
| DurationFormat.FormatDuration | src/utils.rs:12-31 | the result is one of the five branches; seconds with 1 place exactly when secs > 0, whatever the nanos; otherwise milliseconds from 1 ms (0 places from 20 ms, else 1), microseconds below 1 ms (0 places from 10 µs, else 2) |
| DurationFormat.IntegerThresholdsMatchReal | src/utils.rs:15-26 | the integer thresholds pick exactly the branch that `ms >= 20.0`, `ms >= 1.0` and `micros >= 10.0` pick on exact reals, for every duration |
| DurationFormat.FormatFitsMagnitude | src/utils.rs:15-29 | for the exact value handed to `format!`, before rounding to `places`: the chosen unit is the largest in which it is at least 1 (microseconds otherwise); a sub-second value stays below 1000; 0 places exactly when it is at least 20 ms or 10 µs |
| DurationFormat.Unit.Suffix | src/utils.rs:18-29 | the suffix is a space followed by the unit, ending in `s`; only seconds get the two-character `" s"` |
| DurationFormat.SuffixIdentifiesUnit | src/utils.rs:18-29 | no two units share a suffix, so the text tells the unit apart |
| DurationFormat.FormatNanos | src/utils.rs:7-31 | `format_duration` of a duration of n ns (as `elapsed` applies it to a measured interval): seconds iff n ≥ 10^9, milliseconds iff 10^6 ≤ n < 10^9, microseconds iff n < 10^6 |
| DurationFormat.FormatNanosUnitMonotone | src/utils.rs:12-31 | a longer duration is never shown in a smaller unit |
| FrameTiming.Sum | src/utils.rs:69 | the total of a batch is at least each of its frames |
| FrameTiming.Min | src/utils.rs:70 | the minimum is an element of the batch and at most every element |
| FrameTiming.Max | src/utils.rs:71 | the maximum is an element of the batch and at least every element |
| FrameTiming.SumAtMost | src/utils.rs:69 | a batch bounded by b elementwise sums to at most b·length |
| FrameTiming.Summarize | src/utils.rs:67-73 | the summary keeps the label; min/max are batch elements below/above all others; avg·n ≤ total < (avg+1)·n; avg ≤ max |
| FrameTiming.Summary.Formats | src/utils.rs:72-73 | the three `format_duration` descriptors of a line (avg, min, max); the maximum's unit is at least the average's and the minimum's whenever it bounds them, as in every summary of `Summarize` |
| FrameTiming.FrameTimer.constructor | src/utils.rs:47-54 | `new`: the given label and window, empty batch, nothing logged, the frame starting now; the counting invariant holds for a window ≥ 1 |
| FrameTiming.FrameTimer.Start | src/utils.rs:56-58 | `start` sets only the frame start; batch, log and label are unchanged |
| FrameTiming.FrameTimer.End | src/utils.rs:60-65 | `end` appends exactly now − start. If the batch then has `averagingWindow` frames, exactly one summary of it is logged and the batch becomes empty. Otherwise the batch is old + [d] and nothing is logged. The counting invariant is preserved |
| FrameTiming.FrameTimer.PrintAndReset | src/utils.rs:67-76 | on a non-empty batch, logs exactly the summary of the batch and empties it; label and window are constants |
| FrameTiming.BatchCountsAfterEnds | src/utils.rs:47-65 | after k calls of `End` alone, the batch holds k % window frames, k / window summaries were logged, so the batch is below the window between calls |
| GlErrors.ErrorName | src/utils.rs:82-91 | each of the seven codes the source's `match` names (0x0500-0x0506) maps to its own constant's name; every other code maps to "unknown GL error code" |
| GlErrors.ContextLostIsUnknown | src/utils.rs:82-90 | `CONTEXT_LOST` (0x0507), listed in Table 2.3 of the OpenGL 4.6 Core Profile specification but not named by the source, is logged as "unknown GL error code" |
| GlErrors.ErrorNameIdentifiesCode | src/utils.rs:82-91 | a known code never gets the default text, and two codes sharing a known name are equal |
| GlErrors.PendingCount | src/utils.rs:80-81 | the index of the first `NO_ERROR` reply; every reply before it is an error |
| GlErrors.ErrorLinesAppend | src/utils.rs:81-96 | the lines for two runs of codes, one after the other, are the first run's lines followed by the second's: logging keeps queue order |
| GlErrors.CheckError | src/utils.rs:79-98 | for replies whose first `NO_ERROR` is at index i: exactly i lines are logged, in queue order, with the given file/line. It returns `NO_ERROR`, and later driver replies start after it |
| GlErrors.TwoPendingErrors | src/utils.rs:79-98 | replies [INVALID_VALUE, STACK_OVERFLOW, NO_ERROR] give exactly those two named lines |

## Left out

- The text itself: `format!` with its widths `{:<4}`, `{:>3}`, `{:<15}` and
  `{:<25}`, and the float digits. These are float-to-decimal rendering. The
  model stops at the `(unit, places)` descriptor (`Unit.Suffix` gives the
  unit's text).
- FormatFitsMagnitude: its bounds are about the exact value before rounding
  to `places`, not about the rendered text. Rounding can make the text read
  one step higher: 999.6 ms with 0 places reads "1000 ms", 999.6 µs reads
  "1000 µs", and 19.96 ms with 1 place reads "20.0 ms".
- Float rounding in `format_duration`: the model uses exact reals for the
  source's `f64` values. The sub-second nanoseconds (< 10^9) are exact in
  `f64`, division is correctly rounded, and the thresholds 20, 1 and 10 are
  exact. So rounding cannot move a value across a threshold. That argument
  is not mechanised.
- `print_elapsed`: it only hands the text of `Elapsed` (which is `FormatNanos`
  of the measured interval) and the padded label to the
  `info!` macro.
- `Instant::now()` and `.elapsed()`: clock I/O. Instants are passed in as
  nanosecond naturals, and
  `End` requires `now` not before the frame start, as a monotonic clock
  guarantees.
- The `info!` and `error!` sinks: the ghost `log` of summaries, and the
  lines returned by `CheckError`.
- `gl::GetError()`: a foreign call into the driver, replaced by the sequence
  of its replies. The driver's promise that its queue runs dry becomes the
  precondition that `NO_ERROR` occurs in that sequence.
- The `gl_check_error!` macro with its `file!()`/`line!()` capture, and the
  debug-only compilation around it: compile-time plumbing. `CheckError`
  takes the file and line as parameters.
- Summarize: the average is the total rounded down by the frame count. The
  standard library's `Duration / u32` divides seconds and nanoseconds
  separately and can come out a nanosecond lower in some releases. So no
  claim `avg >= min` is made.
- Summarize: the `len() as u32` cast is not modelled. The model divides by
  the batch length itself, which differs from the source only for batches of
  2^32 frames or more.
- Summarize: overflow of the `Duration` sum (past 2^64 seconds) is not
  modelled; the total is an unbounded natural.
- `Vec::with_capacity` in `new`: only an allocation hint, with no observable
  effect on the batch.
- Writes to the public field `frame_times` from outside the timer are not
  modelled. Such a write, or an external `PrintAndReset`, voids the
  batch-counting invariant, and the model says so. `BatchCounted` is only
  carried by `End`.
