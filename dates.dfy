/** Calendar dates and time.Format with the layout "2006-01-02": a year of
    at least four digits, then two-digit month and day, dash separated. */
module Dates {
  import opened Outcomes

  type Month = m: int | 1 <= m <= 12 witness 1
  type Day = d: int | 1 <= d <= 31 witness 1

  /** The date part of a time.Time (years from 0 on). */
  datatype Date = Date(year: nat, month: Month, day: Day)

  function Pow10(n: nat): (p: nat)
    ensures p >= 1
  {
    if n == 0 then 1 else 10 * Pow10(n - 1)
  }

  predicate IsDigit(c: char) {
    '0' <= c <= '9'
  }

  /** The last width decimal digits of n, zero padded. */
  function Digits(n: nat, width: nat): (s: string)
    ensures |s| == width
    ensures forall i :: 0 <= i < |s| ==> IsDigit(s[i])
  {
    if width == 0 then "" else Digits(n / 10, width - 1) + [('0' as int + n % 10) as char]
  }

  /** The number a string of decimal digits denotes. */
  function Value(s: string): nat
    requires forall i :: 0 <= i < |s| ==> IsDigit(s[i])
  {
    if s == "" then 0
    else
      assert IsDigit(s[|s| - 1]);
      10 * Value(s[..|s| - 1]) + (s[|s| - 1] as int - '0' as int)
  }

  lemma {:induction false} ValueOfDigits(n: nat, width: nat)
    requires n < Pow10(width)
    ensures Value(Digits(n, width)) == n
  {
    if width > 0 {
      var s := Digits(n, width);
      assert s[..|s| - 1] == Digits(n / 10, width - 1);
      ValueOfDigits(n / 10, width - 1);
    }
  }

  /** How many digits the year takes: four, or more for large years. */
  function YearWidth(y: nat): (w: nat)
    ensures w >= 4 && y < Pow10(w)
    decreases y
  {
    if y < 10000 then 4 else YearWidth(y / 10) + 1
  }

  /** The date in the layout "2006-01-02". */
  function FormatDate(d: Date): string {
    Digits(d.year, YearWidth(d.year)) + "-" + Digits(d.month, 2) + "-" + Digits(d.day, 2)
  }

  /** Reads a date written as YYYY-MM-DD; None for anything else. */
  function ParseDate(s: string): Option<Date> {
    if |s| == 10 && s[4] == '-' && s[7] == '-'
       && (forall i :: 0 <= i < 4 ==> IsDigit(s[i]))
       && IsDigit(s[5]) && IsDigit(s[6]) && IsDigit(s[8]) && IsDigit(s[9])
    then
      var m := Value(s[5..7]);
      var d := Value(s[8..10]);
      if 1 <= m <= 12 && 1 <= d <= 31 then Some(Date(Value(s[..4]), m, d)) else None
    else None
  }

  /** A date before the year 10000 is written in exactly ten characters,
      and reading them back gives the date. */
  lemma FormatDateRoundTrip(d: Date)
    requires d.year < 10000
    ensures |FormatDate(d)| == 10
    ensures ParseDate(FormatDate(d)) == Some(d)
  {
    var y, m, dd := Digits(d.year, 4), Digits(d.month, 2), Digits(d.day, 2);
    var s := FormatDate(d);
    assert s == y + "-" + m + "-" + dd;
    assert s[..4] == y;
    assert s[5..7] == m;
    assert s[8..10] == dd;
    ValueOfDigits(d.year, 4);
    ValueOfDigits(d.month, 2);
    ValueOfDigits(d.day, 2);
  }
}
