/**
 * Calendar dates as the dashboard reads them back from `new Date(...)`:
 * a year, a month numbered as `getMonth()` numbers it (0 = January), and a
 * day of the month.  Also how a date-only string such as "2024-03-01",
 * which JavaScript parses as midnight UTC, reads in a local time zone.
 */
module Dates {

  /** `getMonth()`: 0 is January, 11 is December. */
  type MonthIndex = m: int | 0 <= m < 12

  datatype AppDate = AppDate(year: int, month: MonthIndex, day: int)

  datatype YearMonth = YearMonth(year: int, month: MonthIndex)

  predicate IsLeapYear(y: int) {
    y % 4 == 0 && (y % 100 != 0 || y % 400 == 0)
  }

  function DaysInMonth(y: int, m: MonthIndex): (n: int)
    ensures 28 <= n <= 31
  {
    if m == 1 then (if IsLeapYear(y) then 29 else 28)
    else if m == 3 || m == 5 || m == 8 || m == 10 then 30
    else 31
  }

  predicate ValidDate(d: AppDate) {
    1 <= d.day <= DaysInMonth(d.year, d.month)
  }

  /** Months counted from year 0, so that consecutive months differ by one. */
  function MonthOrdinal(ym: YearMonth): int {
    ym.year * 12 + ym.month
  }

  /** The month before `ym`; January wraps to December of the previous year. */
  function PreviousMonth(ym: YearMonth): (r: YearMonth)
    ensures MonthOrdinal(r) == MonthOrdinal(ym) - 1
  {
    if ym.month == 0 then YearMonth(ym.year - 1, 11) else YearMonth(ym.year, ym.month - 1)
  }

  function NextMonth(ym: YearMonth): (r: YearMonth)
    ensures MonthOrdinal(r) == MonthOrdinal(ym) + 1
  {
    if ym.month == 11 then YearMonth(ym.year + 1, 0) else YearMonth(ym.year, ym.month + 1)
  }

  /** The month ordinal determines the month. */
  lemma MonthOrdinalInjective(a: YearMonth, b: YearMonth)
    requires MonthOrdinal(a) == MonthOrdinal(b)
    ensures a == b
  {
  }

  /** Stepping back a month and forward again, or forward and back, returns where it started. */
  lemma PreviousNextInverse(ym: YearMonth)
    ensures NextMonth(PreviousMonth(ym)) == ym
    ensures PreviousMonth(NextMonth(ym)) == ym
  {
    MonthOrdinalInjective(NextMonth(PreviousMonth(ym)), ym);
    MonthOrdinalInjective(PreviousMonth(NextMonth(ym)), ym);
  }

  /** The day before a valid date: a valid date, one day earlier. */
  function PreviousDay(d: AppDate): (r: AppDate)
    requires ValidDate(d)
    ensures ValidDate(r)
    ensures d.day > 1 ==> r == d.(day := d.day - 1)
    ensures d.day == 1 ==> YearMonth(r.year, r.month) == PreviousMonth(YearMonth(d.year, d.month))
                           && r.day == DaysInMonth(r.year, r.month)
  {
    if d.day > 1 then d.(day := d.day - 1)
    else
      var pm := PreviousMonth(YearMonth(d.year, d.month));
      AppDate(pm.year, pm.month, DaysInMonth(pm.year, pm.month))
  }

  /** UTC offsets in use around the world, in minutes east of UTC (UTC-6 is -360). */
  predicate RealisticOffset(offsetMinutes: int) {
    -720 <= offsetMinutes <= 840
  }

  /**
   * The local calendar date of midnight UTC on `d`: `new Date("yyyy-MM-dd")`
   * is midnight UTC, and `getMonth()`/`format` read it in local time, which
   * in any zone west of Greenwich is the evening of the day before.
   */
  function LocalDateOfUtcMidnight(d: AppDate, offsetMinutes: int): (r: AppDate)
    requires ValidDate(d) && RealisticOffset(offsetMinutes)
    ensures ValidDate(r)
    ensures offsetMinutes >= 0 <==> r == d
  {
    if offsetMinutes < 0 then
      var p := PreviousDay(d);
      assert p != d by {
        if d.day == 1 {
          assert MonthOrdinal(YearMonth(p.year, p.month)) != MonthOrdinal(YearMonth(d.year, d.month));
        }
      }
      p
    else d
  }

  /**
   * How `new Date(application_date)` is turned back into a date:
   * `CalendarDate` takes the stored calendar date as it is;
   * `LocalClock(offset)` reads midnight UTC of that date on a clock
   * `offset` minutes east of UTC, which is what `getFullYear()`,
   * `getMonth()` and a `yyyy-MM-dd` format of that `Date` do.
   */
  datatype DateReading = CalendarDate | LocalClock(offsetMinutes: int)

  /** The date a reading sees; a stored date is always a valid one, any other is taken as it is. */
  function ReadDate(d: AppDate, reading: DateReading): (r: AppDate)
    ensures reading.CalendarDate? ==> r == d
    ensures ValidDate(d) ==> ValidDate(r)
  {
    match reading
    case CalendarDate => d
    case LocalClock(offset) =>
      if ValidDate(d) && RealisticOffset(offset) then LocalDateOfUtcMidnight(d, offset) else d
  }
}
