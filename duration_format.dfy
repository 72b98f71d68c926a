/**
 * Unit and precision selection of `format_duration` (src/utils.rs).
 *
 * A duration is shown in seconds, milliseconds or microseconds with 0, 1
 * or 2 decimal places.  The source compares `f64` values against 20.0,
 * 1.0 and 10.0; this module chooses the same branch from exact integer
 * thresholds on the sub-second nanoseconds, and proves that the choice
 * agrees with the source's comparisons carried out on exact reals.  The
 * digits themselves (`format!` with its field widths) are not modelled:
 * the result is a descriptor saying which unit and how many places.
 */
module DurationFormat {

  const NanosPerSec: nat := 1_000_000_000
  const NanosPerMilli: nat := 1_000_000
  const NanosPerMicro: nat := 1_000

  /** A `std::time::Duration`: whole seconds plus sub-second nanoseconds. */
  datatype Duration = Duration(secs: nat, nanos: nat) {

    /** The invariant `Duration` keeps: the nanosecond part is below one second. */
    predicate Valid() {
      nanos < NanosPerSec
    }

    /** The whole duration in nanoseconds. */
    function TotalNanos(): nat {
      secs * NanosPerSec + nanos
    }
  }

  /** Splits a nanosecond count into `as_secs()` and `subsec_nanos()`. */
  function FromNanos(total: nat): (d: Duration)
    ensures d.Valid()
    ensures d.TotalNanos() == total
  {
    Duration(total / NanosPerSec, total % NanosPerSec)
  }

  /** A valid duration is determined by its nanosecond count. */
  lemma FromNanosOfTotal(d: Duration)
    requires d.Valid()
    ensures FromNanos(d.TotalNanos()) == d
  {
  }

  datatype Unit = Seconds | Millis | Micros {

    /** The text that follows the number: a space, then the unit ending in `s`. */
    function Suffix(): (t: string)
      ensures |t| >= 2 && t[0] == ' ' && t[|t| - 1] == 's'
      ensures this == Seconds <==> |t| == 2
    {
      match this
      case Seconds => " s"
      case Millis => " ms"
      case Micros => " \U{00B5}s"
    }

    /** How many nanoseconds one of this unit is. */
    function Nanos(): nat {
      match this
      case Seconds => NanosPerSec
      case Millis => NanosPerMilli
      case Micros => NanosPerMicro
    }
  }

  /** What `format_duration` prints: a number in `unit` with `places` decimals. */
  datatype Format = Format(unit: Unit, places: nat)

  /** The five shapes of output the source can produce. */
  const Branches: set<Format> :=
    {Format(Seconds, 1), Format(Millis, 0), Format(Millis, 1), Format(Micros, 0), Format(Micros, 2)}

  /**
   * The branch `format_duration` takes.  Seconds are used as soon as there
   * is a whole second, whatever `nanos` is; below that, milliseconds from
   * 1 ms on (no decimals from 20 ms on), microseconds below one
   * millisecond (no decimals from 10 µs on).
   */
  function FormatDuration(d: Duration): (r: Format)
    ensures r in Branches
    ensures r.unit == Seconds <==> d.secs > 0
    ensures r.unit == Seconds ==> r.places == 1
    ensures r.unit == Millis <==> d.secs == 0 && NanosPerMilli <= d.nanos
    ensures r.unit == Micros <==> d.secs == 0 && d.nanos < NanosPerMilli
    ensures r.unit == Millis ==> (r.places == 0 <==> 20 * NanosPerMilli <= d.nanos)
    ensures r.unit == Millis ==> (r.places == 1 <==> d.nanos < 20 * NanosPerMilli)
    ensures r.unit == Micros ==> (r.places == 0 <==> 10 * NanosPerMicro <= d.nanos)
    ensures r.unit == Micros ==> (r.places == 2 <==> d.nanos < 10 * NanosPerMicro)
  {
    if d.secs > 0 then Format(Seconds, 1)
    else if d.nanos >= 20 * NanosPerMilli then Format(Millis, 0)
    else if d.nanos >= NanosPerMilli then Format(Millis, 1)
    else if d.nanos >= 10 * NanosPerMicro then Format(Micros, 0)
    else Format(Micros, 2)
  }

  /**
   * The branch as the source computes it: `ms = nanos / 1e6` and
   * `micros = nanos / 1e3`, compared with 20.0, 1.0 and 10.0, here on
   * exact reals.
   */
  ghost function RealThresholdFormat(d: Duration): Format {
    var ms := d.nanos as real / 1_000_000.0;
    if d.secs > 0 then Format(Seconds, 1)
    else if ms >= 20.0 then Format(Millis, 0)
    else if ms >= 1.0 then Format(Millis, 1)
    else
      var micros := d.nanos as real / 1000.0;
      if micros >= 10.0 then Format(Micros, 0) else Format(Micros, 2)
  }

  /** The integer thresholds choose exactly the branch the real comparisons choose. */
  lemma IntegerThresholdsMatchReal(d: Duration)
    ensures FormatDuration(d) == RealThresholdFormat(d)
  {
  }

  /**
   * The exact value `format!` is handed for `d` in `u`, before it is
   * rounded to the chosen number of places.
   */
  ghost function Magnitude(d: Duration, u: Unit): real {
    d.TotalNanos() as real / u.Nanos() as real
  }

  /**
   * What the chosen descriptor means for the exact value handed to
   * `format!`, before rounding to `places`: the unit is the largest one in
   * which the value is at least 1 (microseconds when none is), a sub-second
   * value stays below 1000, and within each unit the decimal places drop as
   * the value grows.  Rounding can still make the text read 1000 (999.6 ms
   * with no places).
   */
  lemma FormatFitsMagnitude(d: Duration)
    requires d.Valid()
    ensures var r := FormatDuration(d);
      && (r.unit == Seconds <==> Magnitude(d, Seconds) >= 1.0)
      && (r.unit == Millis <==> Magnitude(d, Seconds) < 1.0 && Magnitude(d, Millis) >= 1.0)
      && (r.unit == Micros <==> Magnitude(d, Millis) < 1.0)
      && (r.unit != Seconds ==> Magnitude(d, r.unit) < 1000.0)
      && (r.unit == Millis ==> (r.places == 0 <==> Magnitude(d, Millis) >= 20.0))
      && (r.unit == Micros ==> (r.places == 0 <==> Magnitude(d, Micros) >= 10.0))
  {
  }

  /**
   * The descriptor for a duration given as a nanosecond count: its unit
   * depends only on which of the ranges [0, 1 ms), [1 ms, 1 s) and
   * [1 s, ...) the count falls in.
   */
  function FormatNanos(total: nat): (r: Format)
    ensures r.unit == Seconds <==> NanosPerSec <= total
    ensures r.unit == Millis <==> NanosPerMilli <= total < NanosPerSec
    ensures r.unit == Micros <==> total < NanosPerMilli
  {
    FormatDuration(FromNanos(total))
  }

  /** A longer duration is never shown in a smaller unit. */
  lemma FormatNanosUnitMonotone(a: nat, b: nat)
    ensures a <= b ==> FormatNanos(a).unit.Nanos() <= FormatNanos(b).unit.Nanos()
  {
  }

  /** `elapsed`: the descriptor for a measured interval (the clock reading is the caller's). */
  function Elapsed(elapsed: nat): Format {
    FormatNanos(elapsed)
  }

  /** The suffix tells the unit apart: no two units share one. */
  lemma SuffixIdentifiesUnit(u: Unit, v: Unit)
    ensures u.Suffix() == v.Suffix() ==> u == v
  {
  }
}
