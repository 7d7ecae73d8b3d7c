/**
 * The calendar month as the command-line tool uses it. It is a second copy
 * of the month type, with the same representation, header, layout loop and
 * rendering; it differs in how it picks the number of days (filter the
 * candidates, then take the first) and in passing interior weeks through
 * `format!("{}", ..)`, which leaves a string unchanged. The model reuses
 * the month module's representation, header and loops (the code of `new`,
 * `month_header`, `month_name`, `week` and `weekday_for_first` is the same
 * in both copies) and proves that this copy prints exactly what the month
 * module prints.
 */
module Cal {
  import opened Options
  import opened Iters
  import opened Calendar
  import opened Fmt
  import opened Months

  /**
   * The first of 31, 30, 29, 28 (in that order) that is a valid day of the
   * month; the "unknown number of days" panic cannot be reached.
   */
  function NumDaysInMonth(m: Month): (r: int)
    ensures r == DaysInMonth(Year(m), MonthNumber(m))
  {
    var isDay := (d: int) => WithDay(m, d).Some?;
    FirstDayCount(m);
    match Nth(Filter(DAY_COUNT_CANDIDATES, isDay), 0)
    case Some(d) => d
    case None => assert false; 0
  }

  /** Filtering then taking the first candidate finds the Gregorian day count. */
  lemma FirstDayCount(m: Month)
    ensures Nth(Filter(DAY_COUNT_CANDIDATES, (d: int) => WithDay(m, d).Some?), 0)
         == Some(DaysInMonth(m.year, m.month))
  {
    var isDay := (d: int) => WithDay(m, d).Some?;
    LargestDay(m);
    FindIsFirstFiltered(DAY_COUNT_CANDIDATES, isDay);
  }

  /** `layout_weeks`: the same loop as the month module's, fed with this copy's day count. */
  method LayoutWeeks(m: Month) returns (rows: seq<DayRange>)
    ensures rows == Layout(m)
    ensures IsWeekPartition(rows, DaysInMonth(Year(m), MonthNumber(m)), NumDaysFromSunday(WeekdayForFirst(m)))
  {
    var initialWeekday := WeekdayForFirst(m);
    var lastDayInMonth := NumDaysInMonth(m);
    rows := LayoutFrom(initialWeekday, lastDayInMonth);
    GridRowsArePartition(lastDayInMonth, NumDaysFromSunday(initialWeekday));
  }

  /** `weeks`: one padded line per week; `format!("{}", s)` is `s` itself. */
  method Weeks(m: Month) returns (result: string)
    ensures result == Lines(WeekLines(Layout(m)))
  {
    var layout := LayoutWeeks(m);
    result := WeeksOf(layout);
  }

  /** `Display::fmt`: prints exactly what the month module's `Display` prints. */
  method Display(m: Month) returns (out: string)
    ensures out == MonthText(m)
  {
    out := Center(MonthHeader(m), WIDTH);
    out := out + TRAILING_SPACE + "\n";
    out := out + DAY_OF_WEEK_HEADER;
    out := out + TRAILING_SPACE + "\n";
    var weeks := Weeks(m);
    out := out + weeks;
    TopLines(m, weeks);
  }
}
