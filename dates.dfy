/**
 * Calendar dates as Go's `time.Parse("2006-01-02", s)` reads them and `Format("2006-01-02")`
 * writes them: midnight UTC of a proleptic Gregorian day with a four-digit year.
 */
module Dates {
  import opened Wrappers
  import opened Decimal

  datatype Date = Date(year: int, month: int, day: int)

  predicate IsLeapYear(year: int) {
    year % 4 == 0 && (year % 100 != 0 || year % 400 == 0)
  }

  function DaysIn(month: int, year: int): (n: int)
    requires 1 <= month <= 12
    ensures 28 <= n <= 31
    ensures month == 2 ==> (n == 29 <==> IsLeapYear(year))
  {
    if month == 2 then (if IsLeapYear(year) then 29 else 28)
    else if month == 4 || month == 6 || month == 9 || month == 11 then 30
    else 31
  }

  /** A date the layout "2006-01-02" can write and read back. */
  predicate Valid(d: Date) {
    0 <= d.year <= 9999 && 1 <= d.month <= 12 && 1 <= d.day <= DaysIn(d.month, d.year)
  }

  type CalendarDate = d: Date | Valid(d) witness Date(1, 1, 1)

  /** The day of Go's zero `time.Time{}`: January 1 of year 1. */
  const Zero: CalendarDate := Date(1, 1, 1)

  /** Go's `t.After(u)`: t is strictly later than u. */
  predicate After(t: Date, u: Date): (later: bool)
    ensures later ==> t != u
    ensures Valid(t) && Valid(u) ==>
      (later <==> 372 * t.year + 31 * t.month + t.day > 372 * u.year + 31 * u.month + u.day)
  {
    t.year > u.year
    || (t.year == u.year && t.month > u.month)
    || (t.year == u.year && t.month == u.month && t.day > u.day)
  }

  function Pad2(n: nat): (s: string)
    requires n < 100
    ensures |s| == 2 && IsDigit(s[0]) && IsDigit(s[1])
  {
    [DigitChar(n / 10), DigitChar(n % 10)]
  }

  /** `Format("2006-01-02")`: zero-padded year, month and day separated by '-'. */
  function Format(d: CalendarDate): (s: string)
    ensures |s| == 10 && s[4] == '-' && s[7] == '-'
  {
    Pad2(d.year / 100) + Pad2(d.year % 100) + "-" + Pad2(d.month) + "-" + Pad2(d.day)
  }

  /** The text matches the layout "2006-01-02" character by character. */
  predicate WellFormed(s: string) {
    && |s| == 10
    && IsDigit(s[0]) && IsDigit(s[1]) && IsDigit(s[2]) && IsDigit(s[3])
    && s[4] == '-'
    && IsDigit(s[5]) && IsDigit(s[6])
    && s[7] == '-'
    && IsDigit(s[8]) && IsDigit(s[9])
  }

  function Value2(hi: char, lo: char): (n: nat)
    requires IsDigit(hi) && IsDigit(lo)
    ensures n < 100
  {
    10 * DigitValue(hi) + DigitValue(lo)
  }

  /** The date the fields of a well-formed text denote, valid or not. */
  function Fields(s: string): Date
    requires WellFormed(s)
  {
    Date(100 * Value2(s[0], s[1]) + Value2(s[2], s[3]), Value2(s[5], s[6]), Value2(s[8], s[9]))
  }

  /**
   * `time.Parse("2006-01-02", s)`: None for text that does not match the layout, a month
   * outside 1..12, or a day outside the days of that month (February 29 only in leap years).
   */
  function Parse(s: string): (r: Option<CalendarDate>)
    ensures r.Some? <==> WellFormed(s) && Valid(Fields(s))
    ensures r.Some? ==> r.value == Fields(s)
  {
    if !WellFormed(s) then None
    else
      var year := 100 * Value2(s[0], s[1]) + Value2(s[2], s[3]);
      var month := Value2(s[5], s[6]);
      var day := Value2(s[8], s[9]);
      if 1 <= month <= 12 && 1 <= day <= DaysIn(month, year) then Some(Date(year, month, day))
      else None
  }

  lemma Value2Pad(hi: char, lo: char)
    requires IsDigit(hi) && IsDigit(lo)
    ensures Pad2(Value2(hi, lo)) == [hi, lo]
  {
  }

  /** Reading back a formatted date gives the date again. */
  lemma ParseFormat(d: CalendarDate)
    ensures Parse(Format(d)) == Some(d)
  {
  }

  /** Formatting a parsed date gives back the exact text that was parsed. */
  lemma FormatParse(s: string)
    requires Parse(s).Some?
    ensures Format(Parse(s).value) == s
  {
    var d := Parse(s).value;
    var hi, lo := Value2(s[0], s[1]), Value2(s[2], s[3]);
    assert d.year / 100 == hi && d.year % 100 == lo;
    Value2Pad(s[0], s[1]);
    Value2Pad(s[2], s[3]);
    Value2Pad(s[5], s[6]);
    Value2Pad(s[8], s[9]);
    assert Format(d) == [s[0], s[1]] + [s[2], s[3]] + "-" + [s[5], s[6]] + "-" + [s[8], s[9]];
  }

  /** Different dates have different texts. */
  lemma FormatInjective(d: CalendarDate, e: CalendarDate)
    requires Format(d) == Format(e)
    ensures d == e
  {
    ParseFormat(d);
    ParseFormat(e);
  }

  /** `After` is a strict total order on dates: exactly one of t after u, u after t, t == u. */
  lemma AfterTrichotomy(t: Date, u: Date)
    ensures !(After(t, u) && After(u, t))
    ensures !After(t, u) && !After(u, t) <==> t == u
  {
  }
}
