/**
 * `std::time::Duration`: whole seconds plus a nanosecond part, with the
 * `Debug` rendering (`{:?}`) that the pipeline `Display` impls print.
 */
module Durations {
  import opened Strings

  const NanosPerSec: nat := 1000000000

  datatype Duration = Duration(secs: nat, nanos: nat) {
    predicate Valid() { nanos < NanosPerSec }
  }

  /** `Duration::from_secs(s)`. */
  function FromSecs(s: nat): (d: Duration)
    ensures d.Valid() && d.secs == s && d.nanos == 0
  {
    Duration(s, 0)
  }

  /** `Duration::as_secs`: the whole seconds, the fraction dropped. */
  function AsSecs(d: Duration): nat {
    d.secs
  }

  /**
   * The digits after the decimal point that `Debug` prints for `frac`, read
   * with `divisor` as the weight of the first digit: digits are produced until
   * the remainder is zero, so there are no trailing zeros.
   */
  function FracDigits(frac: nat, divisor: nat): (r: string)
    requires divisor > 0
    decreases divisor
  {
    if frac == 0 then ""
    else if divisor < 10 then [DigitChar((frac / divisor) % 10)]
    else [DigitChar((frac / divisor) % 10)] + FracDigits(frac % divisor, divisor / 10)
  }

  /** `integer[.digits]suffix`, the shape of every `Debug` rendering of a duration. */
  function FmtDecimal(integer: nat, frac: nat, divisor: nat, suffix: string): string
    requires divisor > 0
  {
    var digits := FracDigits(frac, divisor);
    NatToString(integer) + (if digits == "" then "" else "." + digits) + suffix
  }

  /**
   * `format!("{:?}", d)`: seconds when there is at least one whole second,
   * otherwise milliseconds, microseconds or nanoseconds, whichever is the
   * largest unit with a non-zero integer part.
   */
  function DebugString(d: Duration): string
  {
    if d.secs > 0 then FmtDecimal(d.secs, d.nanos, 100000000, "s")
    else if d.nanos >= 1000000 then FmtDecimal(d.nanos / 1000000, d.nanos % 1000000, 100000, "ms")
    else if d.nanos >= 1000 then FmtDecimal(d.nanos / 1000, d.nanos % 1000, 100, "µs")
    else FmtDecimal(d.nanos, 0, 1, "ns")
  }

  /** A whole, non-zero number of seconds renders as the number followed by "s". */
  lemma DebugWholeSeconds(s: nat)
    requires s > 0
    ensures DebugString(FromSecs(s)) == NatToString(s) + "s"
  {
  }

  /** The zero duration renders as "0ns". */
  lemma DebugZero()
    ensures DebugString(FromSecs(0)) == "0ns"
  {
  }
}
