/**
 * The proleptic Gregorian calendar that the date library supplies to the
 * calendar tool: the leap-year rule, the length of each month, which
 * (year, month, day) triples are representable dates, and the day of the
 * week of a date. Days are counted from 0001-01-01, a Monday.
 */
module Calendar {
  import opened Options

  /** Bounds of the representable years (the date library's `i32::MIN >> 13` and `i32::MAX >> 13`). */
  const MIN_YEAR: int := -262144
  const MAX_YEAR: int := 262143

  /** Divisible by 4, except centuries that are not divisible by 400. */
  predicate IsLeapYear(y: int)
    ensures IsLeapYear(y) ==> y % 4 == 0
    ensures y % 400 == 0 ==> IsLeapYear(y)
    ensures y % 100 == 0 && y % 400 != 0 ==> !IsLeapYear(y)
  {
    Divisibility(y);
    y % 4 == 0 && (y % 100 != 0 || y % 400 == 0)
  }

  function DaysInMonth(y: int, m: int): (r: int)
    requires 1 <= m <= 12
    ensures 28 <= r <= 31
  {
    if m == 2 then (if IsLeapYear(y) then 29 else 28)
    else if m == 4 || m == 6 || m == 9 || m == 11 then 30
    else 31
  }

  predicate IsValidDate(y: int, m: int, d: int) {
    MIN_YEAR <= y <= MAX_YEAR && 1 <= m <= 12 && 1 <= d <= DaysInMonth(y, m)
  }

  datatype Date = Date(year: int, month: int, day: int)

  /** The dates the library can represent: a `NaiveDate` is always valid. */
  type NaiveDate = d: Date | IsValidDate(d.year, d.month, d.day) witness Date(1970, 1, 1)

  /** `NaiveDate::from_ymd_opt`: the date, or `None` when it does not exist or is out of range. */
  function FromYmd(y: int, m: int, d: int): (r: Option<NaiveDate>) {
    if IsValidDate(y, m, d) then Some(Date(y, m, d)) else None
  }

  /** `NaiveDate::with_day`: the same year and month with another day, if that day exists. */
  function WithDay(date: NaiveDate, d: int): (r: Option<NaiveDate>)
    ensures r.Some? <==> 1 <= d <= DaysInMonth(date.year, date.month)
    ensures r.Some? ==> r.value == Date(date.year, date.month, d)
  {
    FromYmd(date.year, date.month, d)
  }

  /** Days from 0001-01-01 to January 1st of year `y` (negative before year 1). */
  function DaysBeforeYear(y: int): (n: int) {
    365 * (y - 1) + (y - 1) / 4 - (y - 1) / 100 + (y - 1) / 400
  }

  /** Days from January 1st of year `y` to the 1st of month `m` (`m == 13` is the next January). */
  function DaysBeforeMonth(y: int, m: int): (r: int)
    requires 1 <= m <= 13
    ensures 28 * (m - 1) <= r <= 31 * (m - 1)
  {
    if m == 1 then 0 else DaysBeforeMonth(y, m - 1) + DaysInMonth(y, m - 1)
  }

  /** Days before the 1st of each month in a common year, with the year's length at the end. */
  const CUMULATIVE_DAYS: seq<int> := [0, 31, 59, 90, 120, 151, 181, 212, 243, 273, 304, 334, 365]

  /**
   * The running sum of the month-length table agrees with the cumulative
   * table of the Gregorian calendar, one day later from March in a leap year.
   */
  lemma {:induction false} CumulativeDays(y: int, m: int)
    requires 1 <= m <= 13
    ensures DaysBeforeMonth(y, m) == CUMULATIVE_DAYS[m - 1] + (if m > 2 && IsLeapYear(y) then 1 else 0)
  {
    if m > 1 {
      CumulativeDays(y, m - 1);
    }
  }

  /** 1970-01-01, the Unix epoch, is day 719162 counted from 0001-01-01. */
  lemma UnixEpochDayNumber()
    ensures DayNumber(1970, 1, 1) == 719162
  {
  }

  /** Days from 0001-01-01 to the given date. */
  function DayNumber(y: int, m: int, d: int): (n: int)
    requires 1 <= m <= 12
  {
    DaysBeforeYear(y) + DaysBeforeMonth(y, m) + d - 1
  }

  datatype Weekday = Mon | Tue | Wed | Thu | Fri | Sat | Sun

  /** `Weekday::num_days_from_sunday`. */
  function NumDaysFromSunday(w: Weekday): (r: nat)
    ensures r < 7
    ensures w == Sun <==> r == 0
  {
    match w
    case Sun => 0
    case Mon => 1
    case Tue => 2
    case Wed => 3
    case Thu => 4
    case Fri => 5
    case Sat => 6
  }

  /** The weekday `i` days after a Sunday, for `0 <= i < 7`. */
  function FromSundayIndex(i: int): (w: Weekday)
    requires 0 <= i < 7
    ensures NumDaysFromSunday(w) == i
  {
    if i == 0 then Sun
    else if i == 1 then Mon
    else if i == 2 then Tue
    else if i == 3 then Wed
    else if i == 4 then Thu
    else if i == 5 then Fri
    else Sat
  }

  /** `NaiveDate::weekday`. Day number 0 (0001-01-01) is a Monday. */
  function WeekdayOf(date: NaiveDate): (w: Weekday)
    ensures date == Date(1, 1, 1) ==> w == Mon
  {
    FromSundayIndex((DayNumber(date.year, date.month, date.day) + 1) % 7)
  }

  /**
   * The month after (y, m), as a pair: counting months consecutively
   * across years, it is the next one.
   */
  function NextMonth(y: int, m: int): (r: (int, int))
    ensures 1 <= m <= 12 ==> 1 <= r.1 <= 12 && 12 * r.0 + r.1 == 12 * y + m + 1
  {
    if m + 1 > 12 then (y + 1, 1) else (y, m + 1)
  }

  /**
   * A day of month `m` exists exactly when the year is representable and
   * the day falls on or after the 1st and before the 1st of the next month.
   */
  lemma {:induction false} DateBeforeNextMonth(y: int, m: int, d: int)
    requires 1 <= m <= 12
    ensures FromYmd(y, m, d).Some? <==>
      && MIN_YEAR <= y <= MAX_YEAR
      && DayNumber(y, m, 1) <= DayNumber(y, m, d) < DayNumber(NextMonth(y, m).0, NextMonth(y, m).1, 1)
  {
    NextFirstDayNumber(y, m);
  }

  /** Dates whose weekday is well known: 1970-01-01 was a Thursday and 2000-01-01 a Saturday. */
  lemma WeekdayAnchors()
    ensures WeekdayOf(Date(1970, 1, 1)) == Thu
    ensures WeekdayOf(Date(2000, 1, 1)) == Sat
  {
    assert DayNumber(1970, 1, 1) == 719162;
    assert DayNumber(2000, 1, 1) == 730119;
  }

  /** One step of the division by 4, 100 or 400: the quotient goes up by one exactly at multiples. */
  lemma DivStep(a: int)
    ensures a / 4 - (a - 1) / 4 == if a % 4 == 0 then 1 else 0
    ensures a / 100 - (a - 1) / 100 == if a % 100 == 0 then 1 else 0
    ensures a / 400 - (a - 1) / 400 == if a % 400 == 0 then 1 else 0
  {
  }

  lemma Divisibility(y: int)
    ensures y % 400 == 0 ==> y % 100 == 0
    ensures y % 100 == 0 ==> y % 4 == 0
  {
    if y % 400 == 0 {
      Multiple400(y);
    }
    if y % 100 == 0 {
      Multiple100(y);
    }
  }

  lemma Multiple400(y: int)
    requires y % 400 == 0
    ensures y % 100 == 0
  {
    var k := y / 400;
    assert y == 100 * (4 * k);
  }

  lemma Multiple100(y: int)
    requires y % 100 == 0
    ensures y % 4 == 0
  {
    var k := y / 100;
    assert y == 4 * (25 * k);
  }

  /** A year has 366 days when it is a leap year and 365 otherwise. */
  lemma YearLength(y: int)
    ensures DaysBeforeMonth(y, 13) == if IsLeapYear(y) then 366 else 365
  {
    var feb := DaysInMonth(y, 2);
    assert DaysBeforeMonth(y, 3) == 31 + feb;
    assert DaysBeforeMonth(y, 5) == 92 + feb;
    assert DaysBeforeMonth(y, 7) == 153 + feb;
    assert DaysBeforeMonth(y, 9) == 215 + feb;
    assert DaysBeforeMonth(y, 11) == 276 + feb;
  }

  /** January 1st of the next year comes one year length after January 1st of `y`. */
  lemma {:induction false} NextYearStart(y: int)
    ensures DaysBeforeYear(y + 1) == DaysBeforeYear(y) + DaysBeforeMonth(y, 13)
  {
    YearLength(y);
    DivStep(y);
    Divisibility(y);
    var leaps := y / 4 - y / 100 + y / 400;
    var leapsBefore := (y - 1) / 4 - (y - 1) / 100 + (y - 1) / 400;
    assert leaps - leapsBefore == if IsLeapYear(y) then 1 else 0;
    assert DaysBeforeYear(y + 1) == 365 * y + leaps;
    assert DaysBeforeYear(y) == 365 * (y - 1) + leapsBefore;
  }

  /** The 1st of the next month comes exactly `DaysInMonth(y, m)` days after the 1st of month `m`. */
  lemma {:induction false} NextFirstDayNumber(y: int, m: int)
    requires 1 <= m <= 12
    ensures DayNumber(NextMonth(y, m).0, NextMonth(y, m).1, 1) == DayNumber(y, m, 1) + DaysInMonth(y, m)
  {
    if m == 12 {
      NextYearStart(y);
    }
  }

  /**
   * The weekday and day-count definitions agree: the 1st of the next month
   * falls `DaysInMonth(y, m)` days (modulo a week) after the 1st of `m`.
   */
  lemma {:induction false} NextFirstWeekday(y: int, m: int)
    requires IsValidDate(y, m, 1)
    requires IsValidDate(NextMonth(y, m).0, NextMonth(y, m).1, 1)
    ensures NumDaysFromSunday(WeekdayOf(Date(NextMonth(y, m).0, NextMonth(y, m).1, 1)))
         == (NumDaysFromSunday(WeekdayOf(Date(y, m, 1))) + DaysInMonth(y, m)) % 7
  {
    NextFirstDayNumber(y, m);
    var n := DayNumber(y, m, 1) + 1;
    ModAdd(n, DaysInMonth(y, m));
  }

  /** Within a month, day `d` falls `d - 1` days (modulo a week) after the 1st. */
  lemma {:induction false} WeekdayInMonth(date: NaiveDate)
    ensures NumDaysFromSunday(WeekdayOf(date))
         == (NumDaysFromSunday(WeekdayOf(Date(date.year, date.month, 1))) + date.day - 1) % 7
  {
    ModAdd(DayNumber(date.year, date.month, 1) + 1, date.day - 1);
  }

  lemma ModAdd(a: int, b: int)
    ensures (a + b) % 7 == (a % 7 + b) % 7
  {
  }

  /** The calendar repeats every 400 years, which are exactly 20871 weeks. */
  lemma {:induction false} FourHundredYearCycle(date: NaiveDate)
    ensures DayNumber(date.year + 400, date.month, date.day) == DayNumber(date.year, date.month, date.day) + 146097
    ensures 146097 % 7 == 0
  {
    LeapCycle(date.year);
    DaysBeforeMonthCycle(date.year, date.month);
    DaysBeforeYearCycle(date.year);
  }

  /** 400 years hold 97 leap years: 146097 days. */
  lemma DaysBeforeYearCycle(y: int)
    ensures DaysBeforeYear(y + 400) == DaysBeforeYear(y) + 146097
  {
    var a := y - 1;
    assert a + 400 == 4 * 100 + a;
    assert (a + 400) / 4 == a / 4 + 100;
    assert (a + 400) / 100 == a / 100 + 4;
    assert (a + 400) / 400 == a / 400 + 1;
  }

  lemma LeapCycle(y: int)
    ensures IsLeapYear(y + 400) == IsLeapYear(y)
  {
    assert y + 400 == y + 4 * 100 && y + 400 == y + 100 * 4;
  }

  lemma {:induction false} DaysBeforeMonthCycle(y: int, m: int)
    requires 1 <= m <= 13
    requires IsLeapYear(y + 400) == IsLeapYear(y)
    ensures DaysBeforeMonth(y + 400, m) == DaysBeforeMonth(y, m)
  {
    if m > 1 {
      DaysBeforeMonthCycle(y, m - 1);
    }
  }
}
