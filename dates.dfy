/** Calendar dates as Python's `datetime.date` holds them, their order and their `%Y%m%d` text. */
module Dates {
  import opened Common

  datatype CalendarDay = CalendarDay(year: int, month: int, day: int)

  predicate IsLeapYear(y: int) {
    y % 4 == 0 && (y % 100 != 0 || y % 400 == 0)
  }

  function DaysInMonth(y: int, m: int): int {
    if m == 2 then (if IsLeapYear(y) then 29 else 28)
    else if m == 4 || m == 6 || m == 9 || m == 11 then 30
    else 31
  }

  /** The dates `datetime.date` can represent: years 1 to 9999. */
  type Date = d: CalendarDay
    | 1 <= d.year <= 9999 && 1 <= d.month <= 12 && 1 <= d.day <= DaysInMonth(d.year, d.month)
    witness CalendarDay(1970, 1, 1)

  /** `a < b` on dates: chronological order. */
  predicate Before(a: Date, b: Date) {
    || a.year < b.year
    || (a.year == b.year && a.month < b.month)
    || (a.year == b.year && a.month == b.month && a.day < b.day)
  }

  /** `date.strftime('%Y%m%d')`, with the year padded to four digits. */
  function Ymd(d: Date): (s: string)
    ensures |s| == 8
  {
    Padded(d.year, 4) + Padded(d.month, 2) + Padded(d.day, 2)
  }

  /** The eight-digit form identifies the date. */
  lemma YmdInjective(a: Date, b: Date)
    requires Ymd(a) == Ymd(b)
    ensures a == b
  {
    var sa, sb := Ymd(a), Ymd(b);
    assert sa[..4] == Padded(a.year, 4) && sb[..4] == Padded(b.year, 4);
    assert sa[4..6] == Padded(a.month, 2) && sb[4..6] == Padded(b.month, 2);
    assert sa[6..] == Padded(a.day, 2) && sb[6..] == Padded(b.day, 2);
    assert Pow10(4) == 10000 && Pow10(2) == 100;
    PaddedInjective(a.year, b.year, 4);
    PaddedInjective(a.month, b.month, 2);
    PaddedInjective(a.day, b.day, 2);
  }

  /** The order pandas' `sort_values` uses on a date column: dates ascending, missing dates last. */
  predicate KeyLe(a: Option<Date>, b: Option<Date>) {
    b.None? || (a.Some? && !Before(b.value, a.value))
  }
}
