/**
 * A calendar month and its rendering as a fixed-width text block in the
 * style of `cal`: a centred "<Name> <year>" header, the weekday header
 * "Su Mo Tu We Th Fr Sa", then one line per Sunday-first week. Every line
 * is 20 columns wide plus two trailing spaces.
 */
module Months {
  import opened Options
  import opened Iters
  import opened Calendar
  import opened Fmt

  /** Trailing spaces, for consistency with `cal`. */
  const TRAILING_SPACE: string := "  "
  const DAY_OF_WEEK_HEADER: string := "Su Mo Tu We Th Fr Sa"
  /** Width of the calendar block: seven two-column days and six separating spaces. */
  const WIDTH: nat := 20

  const MONTH_NAMES: seq<string> := [
    "January", "February", "March", "April", "May", "June",
    "July", "August", "September", "October", "November", "December"
  ]

  /** The possible day counts, largest first: `(28..=31).rev()`. */
  const DAY_COUNT_CANDIDATES: seq<int> := [31, 30, 29, 28]

  /** A calendar month of a specific year, held as the date of its 1st. */
  type Month = d: NaiveDate | d.day == 1 witness Date(1970, 1, 1)

  /** `Month::new`: the month, or `None` for an out-of-range year or an invalid month number. */
  function New(year: int, month: nat): (r: Option<Month>)
    ensures r.Some? <==> MIN_YEAR <= year <= MAX_YEAR && 1 <= month <= 12
    ensures r.Some? ==> Year(r.value) == year && MonthNumber(r.value) == month
  {
    match FromYmd(year, month, 1)
    case None => None
    case Some(date) => Some(date)
  }

  /** The year this month belongs to. */
  function Year(m: Month): (r: int)
    ensures MIN_YEAR <= r <= MAX_YEAR
  {
    m.year
  }

  /** The month number, counting from 1. */
  function MonthNumber(m: Month): (r: int)
    ensures 1 <= r <= 12
  {
    m.month
  }

  /** The full English name, looked up by the zero-based month number. */
  function MonthName(m: Month): (r: string)
    ensures 3 <= |r| <= 9
    ensures r in MONTH_NAMES
  {
    MONTH_NAMES[m.month - 1]
  }

  /** "<Name> <year>". */
  function MonthHeader(m: Month): (r: string)
    ensures |r| <= 17
  {
    YearDigits(Year(m));
    MonthName(m) + " " + IntToString(Year(m))
  }

  /** The header is the month's name, a space, and the year in decimal, which reads back as the year. */
  lemma MonthHeaderParts(m: Month)
    ensures var r := MonthHeader(m);
      var n := |MonthName(m)|;
      && n + 2 <= |r|
      && r[..n] == MonthName(m) && r[n] == ' '
      && IsDecimal(r[n + 1..]) && ParseInt(r[n + 1..]) == Year(m)
  {
    var year := IntToString(Year(m));
    ParseIntToString(Year(m));
    var r := MonthHeader(m);
    assert r == MonthName(m) + " " + year;
    assert r[|MonthName(m)| + 1..] == year;
  }

  /** A representable year has at most six digits and a sign. */
  lemma YearDigits(y: int)
    requires MIN_YEAR <= y <= MAX_YEAR
    ensures |IntToString(y)| <= 7
  {
    assert Pow10(6) == 1000000;
    if y < 0 {
      NatToStringLength(-y, 6);
    } else {
      NatToStringLength(y, 6);
    }
  }

  /** The weekday of the month's 1st (`with_day0(0)` cannot fail on a valid month). */
  function WeekdayForFirst(m: Month): (r: Weekday)
    ensures r == WeekdayOf(Date(Year(m), MonthNumber(m), 1))
  {
    match WithDay(m, 0 + 1)
    case Some(first) => WeekdayOf(first)
    case None => assert false; Sun
  }

  /**
   * The largest of 31, 30, 29, 28 that is a valid day of the month; the
   * panic for "unknown number of days" cannot be reached.
   */
  function NumDaysInMonth(m: Month): (r: int)
    ensures r == DaysInMonth(Year(m), MonthNumber(m))
  {
    var isDay := (d: int) => WithDay(m, d).Some?;
    LargestDay(m);
    match Find(DAY_COUNT_CANDIDATES, isDay)
    case Some(d) => d
    case None => assert false; 0
  }

  /** Searching the candidates from the largest down finds the Gregorian day count. */
  lemma LargestDay(m: Month)
    ensures Find(DAY_COUNT_CANDIDATES, (d: int) => WithDay(m, d).Some?) == Some(DaysInMonth(m.year, m.month))
  {
    var isDay := (d: int) => WithDay(m, d).Some?;
    var s := DAY_COUNT_CANDIDATES;
    assert s[1..] == [30, 29, 28];
    assert s[2..] == [29, 28];
    assert s[3..] == [28];
  }

  function Min(a: nat, b: nat): (r: nat) { if a < b then a else b }

  /** `first..=last`: the days of one display row. */
  datatype DayRange = DayRange(first: nat, last: nat)

  function Size(r: DayRange): (n: nat) {
    if r.first <= r.last then r.last - r.first + 1 else 0
  }

  /** Number of Sunday-first weeks a month of `days` days touches when its 1st is `w` days after Sunday. */
  function RowCount(days: nat, w: nat): (n: nat) {
    (days + w + 6) / 7
  }

  /** Row `i` of the grid: the days `d` whose week index `(d + w - 1) / 7` is `i`. */
  function GridRow(days: nat, w: nat, i: nat): (row: DayRange)
    requires w < 7
  {
    DayRange(if i == 0 then 1 else 7 * i - w + 1, Min(7 * i + 7 - w, days))
  }

  /** The reference layout of a month with `days` days whose 1st is `w` days after Sunday. */
  function GridRows(days: nat, w: nat): (rows: seq<DayRange>)
    requires w < 7
  {
    seq(RowCount(days, w), i requires 0 <= i => GridRow(days, w, i))
  }

  /**
   * The rows split 1..=days into contiguous Sunday-first weeks: the first
   * row ends on the first Saturday, each row starts the day after the
   * previous one ends, the interior rows have seven days and the last row
   * has one to seven days and ends on the month's last day.
   */
  ghost predicate IsWeekPartition(rows: seq<DayRange>, days: nat, w: nat)
    requires w < 7
  {
    && |rows| >= 1
    && rows[0] == DayRange(1, 7 - w)
    && (forall i :: 1 <= i < |rows| ==> rows[i].first == rows[i - 1].last + 1)
    && (forall i :: 1 <= i < |rows| - 1 ==> rows[i].last == rows[i].first + 6)
    && rows[|rows| - 1].last == days
    && rows[|rows| - 1].first <= days <= rows[|rows| - 1].first + 6
  }

  /** The reference layout is such a partition. */
  lemma GridRowsArePartition(days: nat, w: nat)
    requires w < 7 && 7 - w <= days
    ensures IsWeekPartition(GridRows(days, w), days, w)
  {
    var rows := GridRows(days, w);
    var n := RowCount(days, w);
    assert n >= 1;
    assert 7 * (n - 1) - w + 1 <= days <= 7 * (n - 1) + 6 - w + 1;
  }

  /** A month of 28 to 31 days touches four to six weeks. */
  lemma RowCountBounds(days: nat, w: nat)
    requires w < 7 && 28 <= days <= 31
    ensures 4 <= RowCount(days, w) <= 6
  {
  }

  /** The partition is unique: any rows meeting it are the reference layout. */
  lemma PartitionIsUnique(rows: seq<DayRange>, days: nat, w: nat)
    requires w < 7 && 7 - w <= days
    requires IsWeekPartition(rows, days, w)
    ensures rows == GridRows(days, w)
  {
    var n := |rows|;
    PartitionStarts(rows, days, w, n - 1);
    if n > 1 {
      assert rows[n - 1].first == 7 * (n - 1) - w + 1;
    }
    assert n == RowCount(days, w);
    forall i | 0 <= i < n
      ensures rows[i] == GridRow(days, w, i)
    {
      if i < n - 1 {
        assert rows[i].last < rows[n - 1].first;
      }
    }
  }

  /** Each row of a partition starts 7 days after the previous one, and interior rows end 6 days later. */
  lemma {:induction false} PartitionStarts(rows: seq<DayRange>, days: nat, w: nat, k: nat)
    requires w < 7
    requires IsWeekPartition(rows, days, w)
    requires k < |rows|
    ensures forall i :: 1 <= i <= k ==> rows[i].first == 7 * i - w + 1
    ensures forall i :: 0 <= i <= k && i < |rows| - 1 ==> rows[i].last == 7 * i + 7 - w
  {
    if k > 0 {
      PartitionStarts(rows, days, w, k - 1);
      assert rows[k].first == rows[k - 1].last + 1;
    }
  }

  /** Day `d` lies in row `i` exactly when its week index `(d + w - 1) / 7` is `i`. */
  lemma DayRow(days: nat, w: nat, d: int, i: nat)
    requires w < 7 && 7 - w <= days && 1 <= d <= days && i < RowCount(days, w)
    ensures (d + w - 1) / 7 < RowCount(days, w)
    ensures GridRow(days, w, i).first <= d <= GridRow(days, w, i).last <==> i == (d + w - 1) / 7
  {
  }

  /** `layout_weeks` once the weekday of the 1st and the day count are known. */
  method LayoutFrom(initialWeekday: Weekday, lastDayInMonth: nat) returns (result: seq<DayRange>)
    requires 7 - NumDaysFromSunday(initialWeekday) <= lastDayInMonth
    ensures result == GridRows(lastDayInMonth, NumDaysFromSunday(initialWeekday))
  {
    var w := NumDaysFromSunday(initialWeekday);
    var daysRemaining := lastDayInMonth;
    var start := 1;
    result := [];

    var daysInFirstWeek := 7 - w;
    result := result + [DayRange(start, daysInFirstWeek)];
    start := start + daysInFirstWeek;
    daysRemaining := daysRemaining - daysInFirstWeek;

    while daysRemaining > 0
      invariant 1 <= |result| <= RowCount(lastDayInMonth, w)
      invariant start == 7 * |result| - w + 1
      invariant daysRemaining == if lastDayInMonth >= start - 1 then lastDayInMonth - (start - 1) else 0
      invariant forall i :: 0 <= i < |result| ==> result[i] == GridRow(lastDayInMonth, w, i)
      decreases daysRemaining
    {
      var endOfWeek := Min(start + 6, lastDayInMonth);
      assert DayRange(start, endOfWeek) == GridRow(lastDayInMonth, w, |result|);
      result := result + [DayRange(start, endOfWeek)];
      start := start + 7;
      daysRemaining := if daysRemaining >= 7 then daysRemaining - 7 else 0;
    }
    assert |result| == RowCount(lastDayInMonth, w);
    RowsAreGrid(result, lastDayInMonth, w);
  }

  /** Rows that agree with the grid row by row, and are as many, are the grid. */
  lemma RowsAreGrid(rows: seq<DayRange>, days: nat, w: nat)
    requires w < 7 && |rows| == RowCount(days, w)
    requires forall i :: 0 <= i < |rows| ==> rows[i] == GridRow(days, w, i)
    ensures rows == GridRows(days, w)
  {
  }

  /** The layout of a month as a value. */
  function Layout(m: Month): (rows: seq<DayRange>) {
    GridRows(NumDaysInMonth(m), NumDaysFromSunday(WeekdayForFirst(m)))
  }

  /** `layout_weeks`: the month's days split into Sunday-first weeks. */
  method LayoutWeeks(m: Month) returns (rows: seq<DayRange>)
    ensures rows == Layout(m)
    ensures IsWeekPartition(rows, DaysInMonth(Year(m), MonthNumber(m)), NumDaysFromSunday(WeekdayOf(m)))
    ensures 4 <= |rows| <= 6
  {
    var initialWeekday := WeekdayForFirst(m);
    var lastDayInMonth := NumDaysInMonth(m);
    rows := LayoutFrom(initialWeekday, lastDayInMonth);
    GridRowsArePartition(lastDayInMonth, NumDaysFromSunday(initialWeekday));
    RowCountBounds(lastDayInMonth, NumDaysFromSunday(initialWeekday));
  }

  /** `{:2}` of a day number: a day below 100 takes exactly two columns. */
  function DayField(d: nat): (f: string)
    ensures d < 100 ==> |f| == 2
  {
    if d < 100 then
      assert Pow10(2) == 100;
      NatToStringLength(d, 2);
      PadLeft(NatToString(d), 2)
    else PadLeft(NatToString(d), 2)
  }

  /** `days.map(|d| format!("{:2}", d))`: field `k` is day `first + k`. */
  function Fields(r: DayRange): (fs: seq<string>) {
    seq(Size(r), k requires 0 <= k => DayField(r.first + k))
  }

  /**
   * The map visits the range in order: an empty range gives no fields, and
   * otherwise the first day's field comes first, then the fields of the rest.
   */
  lemma FieldsStep(r: DayRange)
    ensures r.first > r.last ==> Fields(r) == []
    ensures r.first <= r.last ==> Fields(r) == [DayField(r.first)] + Fields(DayRange(r.first + 1, r.last))
  {
    if r.first <= r.last {
      var rest := DayRange(r.first + 1, r.last);
      assert Fields(r)[1..] == Fields(rest);
    }
  }

  /**
   * `week`: each day of the row in a two-column field, joined by single
   * spaces; an empty row gives an empty line, a row of `n` days `3n - 1`
   * columns.
   */
  function Week(r: DayRange): (s: string)
    ensures Size(r) == 0 ==> s == ""
    ensures r.first <= r.last < 100 ==> |s| == 3 * Size(r) - 1
  {
    if r.first <= r.last < 100 then
      FieldsWidth(r);
      JoinPairs(Fields(r));
      Join(Fields(r), " ")
    else Join(Fields(r), " ")
  }

  /** A row of `n` days below 100 takes `3n - 1` columns, day `first + k` at column `3k`. */
  lemma WeekShape(r: DayRange)
    requires r.first <= r.last < 100
    ensures |Week(r)| == 3 * Size(r) - 1
    ensures forall k :: 0 <= k < Size(r) ==> Week(r)[3 * k..3 * k + 2] == DayField(r.first + k)
  {
    var parts := Fields(r);
    FieldsWidth(r);
    JoinPairs(parts);
    forall k | 0 <= k < Size(r)
      ensures Week(r)[3 * k..3 * k + 2] == DayField(r.first + k)
    {
      assert Week(r)[3 * k..3 * k + 2] == parts[k];
    }
  }

  /** Every field of a row of days below 100 is two columns wide. */
  lemma FieldsWidth(r: DayRange)
    requires r.last < 100
    ensures forall k :: 0 <= k < |Fields(r)| ==> |Fields(r)[k]| == 2
  {
    forall k | 0 <= k < |Fields(r)|
      ensures |Fields(r)[k]| == 2
    {
      assert Fields(r)[k] == DayField(r.first + k);
    }
  }

  /**
   * Line `i` of the week block, without its line break: it ends in the two
   * trailing spaces, and the first and last lines are padded to at least
   * the block's width.
   */
  function RowLine(rows: seq<DayRange>, i: nat): (line: string)
    requires i < |rows|
    ensures |line| >= 2 && line[|line| - 2] == ' ' && line[|line| - 1] == ' '
    ensures (i == 0 || i == |rows| - 1) ==> |line| >= WIDTH + 2
  {
    var text := Week(rows[i]);
    (if i == 0 then PadLeft(text, WIDTH)
     else if i == |rows| - 1 then PadRight(text, WIDTH)
     else text) + TRAILING_SPACE
  }

  function WeekLines(rows: seq<DayRange>): (lines: seq<string>) {
    seq(|rows|, i requires 0 <= i < |rows| => RowLine(rows, i))
  }

  /** Each line followed by a line break. */
  function Lines(ls: seq<string>): (t: string) {
    if |ls| == 0 then "" else Lines(ls[..|ls| - 1]) + ls[|ls| - 1] + "\n"
  }

  lemma {:induction false} LinesAppend(xs: seq<string>, ys: seq<string>)
    ensures Lines(xs + ys) == Lines(xs) + Lines(ys)
  {
    if |ys| > 0 {
      var ys' := ys[..|ys| - 1];
      assert (xs + ys)[..|xs + ys| - 1] == xs + ys';
      LinesAppend(xs, ys');
    } else {
      assert xs + ys == xs;
    }
  }

  /** Lines of 22 characters: line `j` sits at `23j` with its line break at `23j + 22`. */
  lemma {:induction false} FixedWidthLines(ls: seq<string>)
    requires forall j :: 0 <= j < |ls| ==> |ls[j]| == 22
    ensures |Lines(ls)| == 23 * |ls|
    ensures forall j :: 0 <= j < |ls| ==> Lines(ls)[23 * j..23 * j + 22] == ls[j] && Lines(ls)[23 * j + 22] == '\n'
  {
    if |ls| > 0 {
      var init := ls[..|ls| - 1];
      FixedWidthLines(init);
      var t := Lines(ls);
      assert t == Lines(init) + ls[|ls| - 1] + "\n";
      forall j | 0 <= j < |ls| - 1
        ensures t[23 * j..23 * j + 22] == ls[j] && t[23 * j + 22] == '\n'
      {
        assert t[23 * j..23 * j + 22] == Lines(init)[23 * j..23 * j + 22];
      }
    }
  }

  /** `weeks`: the lines of the week block, built up one row at a time. */
  method WeeksOf(layout: seq<DayRange>) returns (result: string)
    requires |layout| >= 1
    ensures result == Lines(WeekLines(layout))
  {
    result := "";
    var lastWeek := |layout| - 1;
    ghost var lines := WeekLines(layout);
    for i := 0 to |layout|
      invariant result == Lines(lines[..i])
    {
      var week := Week(layout[i]);
      var text;
      if i == 0 {
        text := PadLeft(week, WIDTH);
      } else if i == lastWeek {
        text := PadRight(week, WIDTH);
      } else {
        text := week;
      }
      assert lines[i] == text + TRAILING_SPACE;
      LinesStep(lines, i, result, text);
      result := result + text;
      result := result + TRAILING_SPACE;
      result := result + "\n";
    }
    assert lines[..|layout|] == lines;
  }

  /** Appending one more line, pushed as its text, the trailing spaces and the line break. */
  lemma LinesStep(ls: seq<string>, i: nat, done: string, text: string)
    requires i < |ls| && done == Lines(ls[..i]) && ls[i] == text + TRAILING_SPACE
    ensures done + text + TRAILING_SPACE + "\n" == Lines(ls[..i + 1])
  {
    assert ls[..i + 1][..i] == ls[..i];
    assert done + text + TRAILING_SPACE == done + (text + TRAILING_SPACE);
  }

  /** `weeks` of a month. */
  method Weeks(m: Month) returns (result: string)
    ensures result == Lines(WeekLines(Layout(m)))
  {
    var layout := LayoutWeeks(m);
    result := WeeksOf(layout);
  }

  /** The header line: "<Name> <year>" centred in the block's width. */
  function HeaderLine(m: Month): (line: string) {
    Center(MonthHeader(m), WIDTH) + TRAILING_SPACE
  }

  /** All lines of the rendered month, without their line breaks. */
  function MonthLines(m: Month): (lines: seq<string>) {
    BlockLines(HeaderLine(m), Layout(m))
  }

  /** The header line, the weekday header line, then one line per row. */
  function BlockLines(header: string, rows: seq<DayRange>): (lines: seq<string>) {
    [header, DAY_OF_WEEK_HEADER + TRAILING_SPACE] + WeekLines(rows)
  }

  /** The rendered month. */
  function MonthText(m: Month): (t: string) {
    Lines(MonthLines(m))
  }

  /** `Display::fmt`: header, weekday header, then the weeks. */
  method Display(m: Month) returns (out: string)
    ensures out == MonthText(m)
  {
    out := Center(MonthHeader(m), WIDTH);
    out := out + TRAILING_SPACE + "\n";
    out := out + DAY_OF_WEEK_HEADER;
    out := out + TRAILING_SPACE + "\n";
    var weeks := Weeks(m);
    out := out + weeks;
    TopLines(m, weeks);
  }

  /** The two header lines followed by the week block form the rendered month. */
  lemma TopLines(m: Month, weeks: string)
    requires weeks == Lines(WeekLines(Layout(m)))
    ensures Center(MonthHeader(m), WIDTH) + TRAILING_SPACE + "\n" + DAY_OF_WEEK_HEADER + TRAILING_SPACE + "\n" + weeks
         == MonthText(m)
  {
    TopLinesOf(Center(MonthHeader(m), WIDTH), DAY_OF_WEEK_HEADER, TRAILING_SPACE, WeekLines(Layout(m)), weeks);
  }

  lemma TopLinesOf(h: string, d: string, ts: string, ws: seq<string>, weeks: string)
    requires weeks == Lines(ws)
    ensures h + ts + "\n" + d + ts + "\n" + weeks == Lines([h + ts, d + ts] + ws)
  {
    HeadLines(h + ts, d + ts, ws);
    var x := h + ts + "\n";
    assert x + d + ts == x + (d + ts);
  }

  lemma HeadLines(a: string, b: string, ws: seq<string>)
    ensures Lines([a, b] + ws) == a + "\n" + b + "\n" + Lines(ws)
  {
    LinesAppend([a, b], ws);
    TwoLines(a, b);
  }

  lemma TwoLines(a: string, b: string)
    ensures Lines([a, b]) == a + "\n" + b + "\n"
  {
    assert [a, b][..1] == [a];
    assert [a][..0] == [];
    assert Lines([a]) == a + "\n";
  }

  /** A line of the week block is 20 columns plus the two trailing spaces. */
  lemma RowLineWidth(days: nat, w: nat, i: nat)
    requires w < 7 && 28 <= days <= 31 && i < RowCount(days, w)
    ensures |RowLine(GridRows(days, w), i)| == WIDTH + 2
    ensures RowLine(GridRows(days, w), i)[WIDTH..] == TRAILING_SPACE
  {
    var rows := GridRows(days, w);
    var row := rows[i];
    assert row == GridRow(days, w, i);
    WeekShape(row);
    var text := Week(row);
    var padded := if i == 0 then PadLeft(text, WIDTH)
                  else if i == |rows| - 1 then PadRight(text, WIDTH)
                  else text;
    assert RowLine(rows, i) == padded + TRAILING_SPACE;
    assert |padded| == WIDTH;
  }

  /**
   * Within line `i` of the week block, the `k`-th day of the row sits at
   * column `3 * col`, where `col` is `w + k` on the first line (it is
   * right-aligned) and `k` on the others.
   */
  lemma RowLineField(days: nat, w: nat, i: nat, k: nat)
    requires w < 7 && 28 <= days <= 31 && i < RowCount(days, w)
    requires k < Size(GridRow(days, w, i))
    ensures |RowLine(GridRows(days, w), i)| == WIDTH + 2
    ensures var col := if i == 0 then w + k else k;
      && col < 7
      && RowLine(GridRows(days, w), i)[3 * col..3 * col + 2] == DayField(GridRow(days, w, i).first + k)
  {
    var rows := GridRows(days, w);
    var row := GridRow(days, w, i);
    GridRowShape(days, w, i);
    WeekShape(row);
    RowLineWidth(days, w, i);
    var field := DayField(row.first + k);
    assert Week(rows[i])[3 * k..3 * k + 2] == field;
    if i == 0 {
      FirstLineField(rows, k, field);
    } else {
      LaterLineField(rows, i, k, field);
    }
  }

  /** Row `i` of the grid is a non-empty run of at most 7 days below 100; the first has `7 - w`. */
  lemma GridRowShape(days: nat, w: nat, i: nat)
    requires w < 7 && 28 <= days <= 31 && i < RowCount(days, w)
    ensures GridRows(days, w)[i] == GridRow(days, w, i)
    ensures GridRow(days, w, i).first <= GridRow(days, w, i).last < 100
    ensures Size(GridRow(days, w, i)) <= 7
    ensures i == 0 ==> GridRow(days, w, i) == DayRange(1, 7 - w)
  {
  }

  /** The first line is right-aligned: a field of its row moves right by the padding. */
  lemma FirstLineField(rows: seq<DayRange>, k: nat, field: string)
    requires 0 < |rows| && 3 * k + 2 <= |Week(rows[0])| <= WIDTH
    requires Week(rows[0])[3 * k..3 * k + 2] == field
    ensures var at := WIDTH - |Week(rows[0])| + 3 * k;
      RowLine(rows, 0)[at..at + 2] == field
  {
    var text := Week(rows[0]);
    var at := WIDTH - |text| + 3 * k;
    PadLeftField(text, WIDTH, 3 * k, field);
    AppendField(PadLeft(text, WIDTH), TRAILING_SPACE, at, field);
  }

  /** Later lines start at column 0: a field of their row stays in place. */
  lemma LaterLineField(rows: seq<DayRange>, i: nat, k: nat, field: string)
    requires 0 < i < |rows| && 3 * k + 2 <= |Week(rows[i])|
    requires Week(rows[i])[3 * k..3 * k + 2] == field
    ensures RowLine(rows, i)[3 * k..3 * k + 2] == field
  {
    var text := Week(rows[i]);
    if i == |rows| - 1 {
      PadRightField(text, WIDTH, 3 * k, field);
      AppendField(PadRight(text, WIDTH), TRAILING_SPACE, 3 * k, field);
    } else {
      AppendField(text, TRAILING_SPACE, 3 * k, field);
    }
  }

  /** Every line of the week block is 20 columns plus the two trailing spaces. */
  lemma WeekLinesWidth(days: nat, w: nat)
    requires w < 7 && 28 <= days <= 31
    ensures forall i :: 0 <= i < |WeekLines(GridRows(days, w))| ==>
      |WeekLines(GridRows(days, w))[i]| == WIDTH + 2 && WeekLines(GridRows(days, w))[i][WIDTH..] == TRAILING_SPACE
  {
    var rows := GridRows(days, w);
    var ws := WeekLines(rows);
    forall i | 0 <= i < |ws|
      ensures |ws[i]| == WIDTH + 2 && ws[i][WIDTH..] == TRAILING_SPACE
    {
      RowLineWidth(days, w, i);
      assert ws[i] == RowLine(rows, i);
    }
  }

  /** The rendered month has 6 to 8 lines, each 20 columns plus the two trailing spaces. */
  lemma LineWidths(m: Month)
    ensures |MonthLines(m)| == 2 + |Layout(m)|
    ensures 6 <= |MonthLines(m)| <= 8
    ensures forall j :: 0 <= j < |MonthLines(m)| ==> |MonthLines(m)[j]| == WIDTH + 2 && MonthLines(m)[j][WIDTH..] == TRAILING_SPACE
  {
    var days := NumDaysInMonth(m);
    var w := NumDaysFromSunday(WeekdayForFirst(m));
    var rows := GridRows(days, w);
    assert Layout(m) == rows;
    RowCountBounds(days, w);
    WeekLinesWidth(days, w);
    var header := HeaderLine(m);
    var title := MonthHeader(m);
    assert |Center(title, WIDTH)| == WIDTH;
    assert header == Center(title, WIDTH) + TRAILING_SPACE;
    assert header[WIDTH..] == TRAILING_SPACE;
    var ws := WeekLines(rows);
    assert MonthLines(m) == [header, DAY_OF_WEEK_HEADER + TRAILING_SPACE] + ws;
    PrependLines(header, DAY_OF_WEEK_HEADER + TRAILING_SPACE, ws);
  }

  ghost predicate IsBlockLine(line: string) {
    |line| == WIDTH + 2 && line[WIDTH..] == TRAILING_SPACE
  }

  lemma PrependLines(a: string, b: string, ws: seq<string>)
    requires IsBlockLine(a) && IsBlockLine(b)
    requires forall i :: 0 <= i < |ws| ==> IsBlockLine(ws[i])
    ensures forall j :: 0 <= j < |[a, b] + ws| ==> IsBlockLine(([a, b] + ws)[j])
  {
  }

  /** Lines of the block, each followed by its line break, sit 23 characters apart. */
  lemma BlockText(ls: seq<string>)
    requires forall j :: 0 <= j < |ls| ==> IsBlockLine(ls[j])
    ensures |Lines(ls)| == 23 * |ls|
    ensures forall j :: 0 <= j < |ls| ==> Lines(ls)[23 * j..23 * j + 22] == ls[j]
    ensures forall j :: 0 <= j < |ls| ==> Lines(ls)[23 * j + WIDTH..23 * j + 23] == "  \n"
  {
    FixedWidthLines(ls);
    var t := Lines(ls);
    forall j | 0 <= j < |ls|
      ensures t[23 * j + WIDTH..23 * j + 23] == "  \n"
    {
      LineEnd(t, ls[j], 23 * j);
    }
  }

  /**
   * The rendered text: every line is 22 characters ending in the two
   * trailing spaces and then a line break; the second line is the weekday
   * header.
   */
  lemma RenderedText(m: Month)
    ensures |MonthText(m)| == 23 * (2 + |Layout(m)|)
    ensures forall j :: 0 <= j < 2 + |Layout(m)| ==> MonthText(m)[23 * j + WIDTH..23 * j + 23] == "  \n"
    ensures MonthText(m)[23..45] == "Su Mo Tu We Th Fr Sa  "
  {
    var lines := MonthLines(m);
    LineWidths(m);
    assert forall j :: 0 <= j < |lines| ==> IsBlockLine(lines[j]);
    BlockText(lines);
    WeekdayHeaderLine();
    assert lines[1] == "Su Mo Tu We Th Fr Sa  ";
  }

  /** The weekday header line, spelled out. */
  lemma WeekdayHeaderLine()
    ensures DAY_OF_WEEK_HEADER + TRAILING_SPACE == "Su Mo Tu We Th Fr Sa  "
  {
  }

  lemma LineEnd(t: string, line: string, at: nat)
    requires |line| == WIDTH + 2 && line[WIDTH..] == TRAILING_SPACE
    requires at + 23 <= |t| && t[at..at + 22] == line && t[at + 22] == '\n'
    ensures t[at + WIDTH..at + 23] == "  \n"
  {
    assert t[at + WIDTH..at + 22] == line[WIDTH..];
    assert t[at + WIDTH..at + 23] == t[at + WIDTH..at + 22] + [t[at + 22]];
  }

  /** Two-letter weekday names, as in the weekday header. */
  function WeekdayAbbrev(w: Weekday): (s: string) {
    match w
    case Sun => "Su"
    case Mon => "Mo"
    case Tue => "Tu"
    case Wed => "We"
    case Thu => "Th"
    case Fri => "Fr"
    case Sat => "Sa"
  }

  /** Column `3c` of the weekday header names the weekday `c` days after Sunday. */
  lemma HeaderColumn(w: Weekday)
    ensures var c := NumDaysFromSunday(w);
      DAY_OF_WEEK_HEADER[3 * c..3 * c + 2] == WeekdayAbbrev(w)
  {
    var h := DAY_OF_WEEK_HEADER;
    match w
    case Sun => SliceOfTwo(h, 0, "Su");
    case Mon => SliceOfTwo(h, 3, "Mo");
    case Tue => SliceOfTwo(h, 6, "Tu");
    case Wed => SliceOfTwo(h, 9, "We");
    case Thu => SliceOfTwo(h, 12, "Th");
    case Fri => SliceOfTwo(h, 15, "Fr");
    case Sat => SliceOfTwo(h, 18, "Sa");
  }

  lemma SliceOfTwo(s: string, i: nat, t: string)
    requires |t| == 2 && i + 2 <= |s| && s[i] == t[0] && s[i + 1] == t[1]
    ensures s[i..i + 2] == t
  {
  }

  /** The week line of a grid holding day `d` when the 1st is `w` days after Sunday. */
  function GridWeek(d: int, w: int): (k: int) {
    (d + w - 1) / 7
  }

  /** The column (in fields) of day `d` in a grid whose 1st is `w` days after Sunday. */
  function GridColumn(d: int, w: int): (c: nat) {
    (d + w - 1) % 7
  }

  /** The row of the week block that holds day `d`. */
  function WeekOfMonth(m: Month, d: int): (k: int) {
    GridWeek(d, NumDaysFromSunday(WeekdayForFirst(m)))
  }

  /** In the grid, day `d` is printed on week line `GridWeek(d, w)`, at column `3 * GridColumn(d, w)`. */
  lemma GridDayColumn(days: nat, w: nat, d: int)
    requires w < 7 && 28 <= days <= 31 && 1 <= d <= days
    ensures GridWeek(d, w) < RowCount(days, w)
    ensures |RowLine(GridRows(days, w), GridWeek(d, w))| == WIDTH + 2
    ensures var c := GridColumn(d, w);
      RowLine(GridRows(days, w), GridWeek(d, w))[3 * c..3 * c + 2] == DayField(d)
  {
    var i := GridWeek(d, w);
    var c := GridColumn(d, w);
    DayRow(days, w, d, 0);
    DayRow(days, w, d, i);
    assert d + w - 1 == 7 * i + c;
    var row := GridRow(days, w, i);
    assert row.first == if i == 0 then 1 else 7 * i - w + 1;
    var k := d - row.first;
    assert (if i == 0 then w + k else k) == c;
    RowLineField(days, w, i, k);
  }

  /** Line `row` of `lines` shows `field` at columns `3c` and `3c + 1`. */
  ghost predicate ShowsAt(lines: seq<string>, row: int, c: nat, field: string) {
    && 0 <= row < |lines| && 3 * c + 2 <= |lines[row]| && |field| == 2
    && lines[row][3 * c] == field[0] && lines[row][3 * c + 1] == field[1]
  }

  /**
   * Every day of the month is printed in the column of its own weekday:
   * on line `2 + WeekOfMonth(m, d)`, at the same columns as that weekday's
   * name in the weekday header.
   */
  lemma DayUnderItsWeekday(m: Month, d: int)
    requires 1 <= d <= DaysInMonth(m.year, m.month)
    ensures var weekday := WeekdayOf(Date(m.year, m.month, d));
      var c := NumDaysFromSunday(weekday);
      && ShowsAt(MonthLines(m), 2 + WeekOfMonth(m, d), c, DayField(d))
      && ShowsAt(MonthLines(m), 1, c, WeekdayAbbrev(weekday))
  {
    WeekdayColumn(m, d);
    MonthShowsDay(m, d);
  }

  /** The rendering part of `DayUnderItsWeekday`, with the column computed from the weekday of the 1st. */
  lemma MonthShowsDay(m: Month, d: int)
    requires 1 <= d <= DaysInMonth(m.year, m.month)
    ensures var c := GridColumn(d, NumDaysFromSunday(WeekdayForFirst(m)));
      && ShowsAt(MonthLines(m), 2 + WeekOfMonth(m, d), c, DayField(d))
      && ShowsAt(MonthLines(m), 1, c, WeekdayAbbrev(FromSundayIndex(c)))
  {
    MonthLinesAre(m);
    GridDayUnderWeekday(HeaderLine(m), NumDaysInMonth(m), NumDaysFromSunday(WeekdayForFirst(m)), d,
      MonthLines(m), 2 + WeekOfMonth(m, d), GridColumn(d, NumDaysFromSunday(WeekdayForFirst(m))));
  }

  /** Day `d` falls on the weekday `(d + w - 1) % 7` days after Sunday, `w` being that of the 1st. */
  lemma WeekdayColumn(m: Month, d: int)
    requires 1 <= d <= DaysInMonth(m.year, m.month)
    ensures WeekdayOf(Date(m.year, m.month, d)) == FromSundayIndex(GridColumn(d, NumDaysFromSunday(WeekdayForFirst(m))))
  {
    var date: NaiveDate := Date(m.year, m.month, d);
    WeekdayInMonth(date);
    SundayIndexDetermines(WeekdayOf(date), FromSundayIndex(GridColumn(d, NumDaysFromSunday(WeekdayForFirst(m)))));
  }

  lemma SundayIndexDetermines(a: Weekday, b: Weekday)
    requires NumDaysFromSunday(a) == NumDaysFromSunday(b)
    ensures a == b
  {
  }

  /**
   * The grid part of `DayUnderItsWeekday`, for any first weekday `w` and
   * month length `days`: day `d` is on line `row` at column `c`.
   */
  lemma GridDayUnderWeekday(header: string, days: nat, w: nat, d: int, lines: seq<string>, row: int, c: nat)
    requires w < 7 && 28 <= days <= 31 && 1 <= d <= days
    requires lines == [header, DAY_OF_WEEK_HEADER + TRAILING_SPACE] + WeekLines(GridRows(days, w))
    requires row == 2 + GridWeek(d, w)
    requires c == GridColumn(d, w)
    ensures ShowsAt(lines, row, c, DayField(d))
    ensures ShowsAt(lines, 1, c, WeekdayAbbrev(FromSundayIndex(c)))
  {
    var rows := GridRows(days, w);
    var i := GridWeek(d, w);
    GridDayColumn(days, w, d);
    var weekday := FromSundayIndex(c);
    HeaderColumn(weekday);
    AppendField(DAY_OF_WEEK_HEADER, TRAILING_SPACE, 3 * c, WeekdayAbbrev(weekday));
    var ws := WeekLines(rows);
    assert ws[i] == RowLine(rows, i);
    ShowsBelowHeader(header, DAY_OF_WEEK_HEADER + TRAILING_SPACE, ws, i, c, DayField(d), WeekdayAbbrev(weekday));
  }

  lemma MonthLinesAre(m: Month)
    ensures MonthLines(m) == [HeaderLine(m), DAY_OF_WEEK_HEADER + TRAILING_SPACE]
      + WeekLines(GridRows(NumDaysInMonth(m), NumDaysFromSunday(WeekdayForFirst(m))))
  {
  }

  lemma ShowsBelowHeader(a: string, b: string, ws: seq<string>, i: nat, c: nat, field: string, name: string)
    requires i < |ws| && 3 * c + 2 <= |ws[i]| && ws[i][3 * c..3 * c + 2] == field
    requires 3 * c + 2 <= |b| && b[3 * c..3 * c + 2] == name
    ensures ShowsAt([a, b] + ws, 2 + i, c, field) && ShowsAt([a, b] + ws, 1, c, name)
  {
    var lines := [a, b] + ws;
    assert lines[2 + i] == ws[i];
    assert ws[i][3 * c] == ws[i][3 * c..3 * c + 2][0];
    assert ws[i][3 * c + 1] == ws[i][3 * c..3 * c + 2][1];
    assert b[3 * c] == b[3 * c..3 * c + 2][0];
    assert b[3 * c + 1] == b[3 * c..3 * c + 2][1];
  }
}
