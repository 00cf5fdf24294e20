/**
 * The monthly progress chart: twelve points, January to December of the
 * current year, each holding how many applications are dated in that month.
 * The current year is a parameter.  How an application date is read back
 * into a year and a month is a parameter too (`Dates.DateReading`).
 */
module ProgressChart {
  import opened Dates
  import opened Database
  import opened Seqs
  import opened Stats

  const MonthNames: seq<string> :=
    ["Ene", "Feb", "Mar", "Abr", "May", "Jun", "Jul", "Ago", "Sep", "Oct", "Nov", "Dic"]

  /** One point of the chart. */
  datatype MonthPoint = MonthPoint(month: string, monthIndex: nat, postulaciones: nat)

  /** Whether an application is read as dated in the month `ym`. */
  function ReadIn(reading: DateReading, ym: YearMonth): Application -> bool {
    (a: Application) =>
      var d := ReadDate(a.applicationDate, reading);
      d.year == ym.year && d.month == ym.month
  }

  /** Whether an application is read as dated in the year `year`. */
  function ReadInYear(reading: DateReading, year: int): Application -> bool {
    (a: Application) => ReadDate(a.applicationDate, reading).year == year
  }

  /** The value of the point for month `m` of `year`. */
  function PointCount(apps: seq<Application>, year: int, m: MonthIndex, reading: DateReading): nat {
    CountWhere(apps, ReadIn(reading, YearMonth(year, m)))
  }

  /**
   * The `useMemo` body: twelve points initialised to zero, then each
   * application of `year` adds one to the point of its month, in place.
   */
  method MonthlyData(apps: seq<Application>, year: int, reading: DateReading)
    returns (chartData: seq<MonthPoint>)
    ensures |chartData| == 12
    ensures forall m: MonthIndex :: chartData[m].month == MonthNames[m] && chartData[m].monthIndex == m
    ensures forall m: MonthIndex :: chartData[m].postulaciones == PointCount(apps, year, m, reading)
  {
    var monthly := new nat[12](_ => 0);
    for i := 0 to |apps|
      invariant forall m: MonthIndex :: monthly[m] == PointCount(apps[..i], year, m, reading)
    {
      var d := ReadDate(apps[i].applicationDate, reading);
      forall m: MonthIndex
        ensures PointCount(apps[..i + 1], year, m, reading)
             == PointCount(apps[..i], year, m, reading) + (if ReadIn(reading, YearMonth(year, m))(apps[i]) then 1 else 0)
      {
        CountWherePrefix(apps, i, ReadIn(reading, YearMonth(year, m)));
      }
      if d.year == year {
        monthly[d.month] := monthly[d.month] + 1;
      }
    }
    assert apps[..|apps|] == apps;
    chartData := seq(12, (m: int) requires 0 <= m < 12 reads monthly => MonthPoint(MonthNames[m], m, monthly[m]));
  }

  /** The sum of the first `n` points. */
  function MonthSum(apps: seq<Application>, year: int, reading: DateReading, n: nat): nat
    requires n <= 12
  {
    if n == 0 then 0 else MonthSum(apps, year, reading, n - 1) + PointCount(apps, year, n - 1, reading)
  }

  /** Whether `x` is read as dated in one of the first `n` months of `year`. */
  predicate LandsBefore(x: Application, year: int, reading: DateReading, n: nat) {
    var d := ReadDate(x.applicationDate, reading);
    d.year == year && d.month < n
  }

  lemma {:induction false} MonthSumSnoc(apps: seq<Application>, x: Application, year: int, reading: DateReading, n: nat)
    requires n <= 12
    ensures MonthSum(apps + [x], year, reading, n)
         == MonthSum(apps, year, reading, n) + (if LandsBefore(x, year, reading, n) then 1 else 0)
  {
    if n > 0 {
      MonthSumSnoc(apps, x, year, reading, n - 1);
      assert (apps + [x])[..|apps|] == apps;
    }
  }

  /**
   * The twelve points add up to the number of applications read as dated
   * in the year: each of them lands in exactly one month, the others in none.
   */
  lemma {:induction false} PointsCoverYear(apps: seq<Application>, year: int, reading: DateReading)
    ensures MonthSum(apps, year, reading, 12) == CountWhere(apps, ReadInYear(reading, year))
    ensures MonthSum(apps, year, reading, 12) <= |apps|
  {
    if apps == [] {
      MonthSumEmpty(year, reading, 12);
    } else {
      var init := apps[..|apps| - 1];
      assert apps == init + [apps[|apps| - 1]];
      PointsCoverYear(init, year, reading);
      MonthSumSnoc(init, apps[|apps| - 1], year, reading, 12);
    }
  }

  lemma {:induction false} MonthSumEmpty(year: int, reading: DateReading, n: nat)
    requires n <= 12
    ensures MonthSum([], year, reading, n) == 0
  {
    if n > 0 {
      MonthSumEmpty(year, reading, n - 1);
    }
  }

  /** Read as calendar dates, the point of the current month is the `thisMonth` of `getStats`. */
  lemma CurrentPointIsThisMonth(apps: seq<Application>, now: YearMonth)
    ensures PointCount(apps, now.year, now.month, CalendarDate) == GetStats(apps, now).thisMonth
  {
    FilterExt(apps, ReadIn(CalendarDate, now), DatedIn(now));
  }

  /**
   * As written, on a clock at UTC-6 an application dated 1 March 2024 is
   * counted in February, and one dated 1 January 2024 is not counted in
   * 2024 at all; read as a calendar date it is counted in its own month.
   */
  lemma FirstOfMonthMisplaced(app: Application)
    requires app.applicationDate == AppDate(2024, 2, 1)
    ensures PointCount([app], 2024, 1, LocalClock(-360)) == 1
    ensures PointCount([app], 2024, 2, LocalClock(-360)) == 0
    ensures PointCount([app], 2024, 2, CalendarDate) == 1
  {
    assert [app][..0] == [];
  }

  lemma NewYearsDayMisplaced(app: Application)
    requires app.applicationDate == AppDate(2024, 0, 1)
    ensures CountWhere([app], ReadInYear(LocalClock(-360), 2024)) == 0
    ensures CountWhere([app], ReadInYear(LocalClock(-360), 2023)) == 1
    ensures CountWhere([app], ReadInYear(CalendarDate, 2024)) == 1
  {
    assert [app][..0] == [];
  }

  /**
   * `getStats` reads dates the same way: as written, on a clock at UTC-6 in
   * March 2024, an application dated 1 March 2024 counts for last month and
   * not for this month, while `GetStats` counts it for this month.
   */
  lemma ThisMonthMisplaced(app: Application)
    requires app.applicationDate == AppDate(2024, 2, 1)
    ensures CountWhere([app], ReadIn(LocalClock(-360), YearMonth(2024, 2))) == 0
    ensures CountWhere([app], ReadIn(LocalClock(-360), PreviousMonth(YearMonth(2024, 2)))) == 1
    ensures GetStats([app], YearMonth(2024, 2)).thisMonth == 1
    ensures GetStats([app], YearMonth(2024, 2)).lastMonth == 0
  {
    assert [app][..0] == [];
  }

  /** At UTC or east of it, the local reading is the calendar date and every point agrees. */
  lemma EastOfGreenwichAgrees(apps: seq<Application>, year: int, m: MonthIndex, offset: int)
    requires RealisticOffset(offset) && offset >= 0
    ensures PointCount(apps, year, m, LocalClock(offset)) == PointCount(apps, year, m, CalendarDate)
  {
    FilterExt(apps, ReadIn(LocalClock(offset), YearMonth(year, m)), ReadIn(CalendarDate, YearMonth(year, m)));
  }
}
