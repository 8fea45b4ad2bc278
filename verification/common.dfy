/**
 * Shared vocabulary of the marketplace model: optional values, JavaScript
 * truthiness of optional strings, the outcome of one awaited client call,
 * the clock arithmetic the handlers use, and decimal rendering of numbers.
 */
module Common {

  /** An optional value (a field that may be absent, `null` or `undefined`). */
  datatype Option<+T> = None | Some(value: T) {
    function GetOr(default: T): T {
      match this
      case Some(v) => v
      case None => default
    }
  }

  /** JavaScript truthiness of an optional string: present and not empty. */
  predicate Truthy(o: Option<string>) {
    o.Some? && o.value != ""
  }

  /** `o || fallback` for an optional string. */
  function OrElse(o: Option<string>, fallback: string): (r: string)
    ensures Truthy(o) ==> r == o.value
    ensures !Truthy(o) ==> r == fallback
  {
    if Truthy(o) then o.value else fallback
  }

  /**
   * An optional string inside a template literal: its text when present,
   * otherwise `absent`, the word JavaScript prints for the missing value
   * (`undefined` for an absent property, `null` for an absent header).
   */
  function Interpolated(o: Option<string>, absent: string): (t: string)
    ensures o.Some? ==> t == o.value
    ensures o.None? ==> t == absent
  {
    o.GetOr(absent)
  }

  /**
   * How one awaited database or storage call ended: `Ok` when it was
   * applied, `Failed` when the client handed back an `error` object (the
   * client library does not throw for these), `Threw` when an exception
   * escaped the call. A call that threw is taken not to have been applied.
   */
  datatype Call = Ok | Failed | Threw

  /** Milliseconds in a day, `24 * 60 * 60 * 1000`. */
  const DayMs: int := 86_400_000

  /** Milliseconds in a (365-day) year. */
  const YearMs: int := 365 * DayMs

  /** A timestamp `days` whole days after `t`. */
  function AddDays(t: int, days: int): int {
    t + days * DayMs
  }

  /** A timestamp `years` 365-day years after `t`. */
  function AddYears(t: int, years: int): int {
    t + years * YearMs
  }

  /** `Math.round`: the nearest integer, halves rounded up. */
  function Round(x: real): (r: int)
    ensures x - 0.5 < r as real <= x + 0.5
  {
    (x + 0.5).Floor
  }

  // ---------------------------------------------------------------------
  // Decimal rendering of natural numbers (template-literal interpolation)
  // ---------------------------------------------------------------------

  predicate IsDigit(c: char) {
    '0' <= c <= '9'
  }

  predicate AllDigits(s: string) {
    forall i :: 0 <= i < |s| ==> IsDigit(s[i])
  }

  function DigitChar(d: nat): (c: char)
    requires d < 10
    ensures IsDigit(c)
  {
    (48 + d) as char
  }

  function DigitValue(c: char): (d: nat)
    requires IsDigit(c)
    ensures d < 10
  {
    (c as int) - 48
  }

  /** The decimal text of `n`, as `${n}` renders it. */
  function NatToString(n: nat): (r: string)
    ensures |r| >= 1 && AllDigits(r)
    decreases n
  {
    if n < 10 then [DigitChar(n)] else NatToString(n / 10) + [DigitChar(n % 10)]
  }

  /** Reads a run of decimal digits back into a number. */
  function ParseDigits(s: string): nat
    requires AllDigits(s)
  {
    if s == [] then 0 else ParseDigits(s[..|s| - 1]) * 10 + DigitValue(s[|s| - 1])
  }

  /** Parsing undoes rendering. */
  lemma {:induction false} ParseNatToString(n: nat)
    ensures ParseDigits(NatToString(n)) == n
    decreases n
  {
    var s := NatToString(n);
    if n < 10 {
    } else {
      var p := NatToString(n / 10);
      assert s == p + [DigitChar(n % 10)];
      assert s[..|s| - 1] == p;
      ParseNatToString(n / 10);
    }
  }

  /** Distinct numbers render to distinct texts. */
  lemma NatToStringInjective(a: nat, b: nat)
    ensures NatToString(a) == NatToString(b) ==> a == b
  {
    ParseNatToString(a);
    ParseNatToString(b);
  }
}
