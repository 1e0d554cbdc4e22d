/**
 * The calendar date that names each day's log files, and its rendering with
 * the format `%Y-%m-%d` (logger.py line 45). The clock itself is not modelled:
 * the date is a parameter. `Parse` is the inverse of `Format`, and the two
 * round-trip lemmas show that a file name determines its date and vice versa.
 */
module Dates {
  import opened Wrappers

  datatype Date = Date(year: int, month: int, day: int)

  predicate IsLeap(year: int) {
    year % 4 == 0 && (year % 100 != 0 || year % 400 == 0)
  }

  function DaysInMonth(year: int, month: int): (n: int)
    requires 1 <= month <= 12
    ensures 28 <= n <= 31
  {
    if month == 2 then (if IsLeap(year) then 29 else 28)
    else if month == 4 || month == 6 || month == 9 || month == 11 then 30
    else 31
  }

  /** A date Python's `datetime` can hold: years 1 to 9999, a real day of the month. */
  predicate Valid(d: Date) {
    1 <= d.year <= 9999 && 1 <= d.month <= 12 && 1 <= d.day <= DaysInMonth(d.year, d.month)
  }

  function Pow10(w: nat): (p: nat)
    ensures p >= 1
  {
    if w == 0 then 1 else 10 * Pow10(w - 1)
  }

  function DigitChar(n: int): (c: char)
    requires 0 <= n < 10
    ensures '0' <= c <= '9'
  {
    ('0' as int + n) as char
  }

  function DigitValue(c: char): (r: Option<nat>)
    ensures r.Some? <==> '0' <= c <= '9'
    ensures r.Some? ==> r.value < 10 && DigitChar(r.value) == c
  {
    if '0' <= c <= '9' then Some(c as int - '0' as int) else None
  }

  /** `n` in decimal, zero-padded (or cut) to exactly `w` digits. */
  function Pad(n: nat, w: nat): (s: string)
    ensures |s| == w
    ensures forall i :: 0 <= i < w ==> '0' <= s[i] <= '9'
  {
    if w == 0 then [] else Pad(n / 10, w - 1) + [DigitChar(n % 10)]
  }

  /** The value of a string of decimal digits; `None` if any character is not a digit. */
  function Decimal(s: string): Option<nat> {
    if s == [] then Some(0)
    else match (Decimal(s[..|s| - 1]), DigitValue(s[|s| - 1]))
      case (Some(high), Some(low)) => Some(10 * high + low)
      case _ => None
  }

  /** `strftime("%Y-%m-%d")`. */
  function Format(d: Date): (s: string)
    requires Valid(d)
    ensures |s| == 10 && s[4] == '-' && s[7] == '-'
    ensures forall i :: 0 <= i < 10 && i != 4 && i != 7 ==> '0' <= s[i] <= '9'
    ensures '_' !in s
  {
    Pad(d.year, 4) + "-" + Pad(d.month, 2) + "-" + Pad(d.day, 2)
  }

  function Parse(s: string): (r: Option<Date>)
    ensures r.Some? ==> Valid(r.value)
  {
    if |s| != 10 || s[4] != '-' || s[7] != '-' then None
    else match (Decimal(s[..4]), Decimal(s[5..7]), Decimal(s[8..]))
      case (Some(y), Some(m), Some(d)) =>
        if Valid(Date(y, m, d)) then Some(Date(y, m, d)) else None
      case _ => None
  }

  /** Reading back a padded number gives the number, when it fits in `w` digits. */
  lemma {:induction false} DecimalPad(n: nat, w: nat)
    requires n < Pow10(w)
    ensures Decimal(Pad(n, w)) == Some(n)
  {
    if w == 0 {
      assert n == 0;
    } else {
      var s := Pad(n, w);
      assert s[..|s| - 1] == Pad(n / 10, w - 1);
      assert s[|s| - 1] == DigitChar(n % 10);
      assert n / 10 < Pow10(w - 1);
      DecimalPad(n / 10, w - 1);
      assert DigitValue(DigitChar(n % 10)) == Some(n % 10);
    }
  }

  /** A string of digits is the padded rendering of its own value. */
  lemma {:induction false} PadDecimal(s: string, n: nat)
    requires Decimal(s) == Some(n)
    ensures n < Pow10(|s|) && Pad(n, |s|) == s
  {
    if s != [] {
      var prefix, last := s[..|s| - 1], s[|s| - 1];
      var high :| Decimal(prefix) == Some(high);
      var low :| DigitValue(last) == Some(low);
      assert n == 10 * high + low;
      PadDecimal(prefix, high);
      assert n / 10 == high && n % 10 == low;
      assert s == prefix + [last];
    }
  }

  lemma {:induction false} ParseFormat(d: Date)
    requires Valid(d)
    ensures Parse(Format(d)) == Some(d)
  {
    var s := Format(d);
    assert s[..4] == Pad(d.year, 4);
    assert s[5..7] == Pad(d.month, 2);
    assert s[8..] == Pad(d.day, 2);
    DecimalPad(d.year, 4);
    DecimalPad(d.month, 2);
    DecimalPad(d.day, 2);
  }

  lemma {:induction false} FormatParse(s: string, d: Date)
    requires Parse(s) == Some(d)
    ensures Valid(d) && Format(d) == s
  {
    PadDecimal(s[..4], d.year);
    PadDecimal(s[5..7], d.month);
    PadDecimal(s[8..], d.day);
    assert s == s[..4] + "-" + s[5..7] + "-" + s[8..];
  }
}
