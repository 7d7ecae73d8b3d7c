/**
 * The calendar blocks the month module is expected to print, for all twelve
 * months of 2019 and for February 2016, and the calendar facts behind them.
 */
module Fixtures {
  import opened Options
  import opened Calendar
  import opened Fmt
  import opened Months

  /** `Month::new(262144, 1)`: one year past the last representable one. */
  lemma InvalidYear()
    ensures New(262144, 1) == None
  {
  }

  /** `Month::new(2019, 15)`: there is no fifteenth month. */
  lemma InvalidMonth()
    ensures New(2019, 15) == None
  {
  }

  /** The rendered text is the lines, each followed by a line break. */
  lemma TextOfLines(m: Month, ls: seq<string>)
    requires MonthLines(m) == ls
    ensures MonthText(m) == Lines(ls)
  {
  }

  /** Day `d` in two columns, written out digit by digit. */
  function TwoDigits(d: nat): (s: string)
    requires d < 100
  {
    if d < 10 then [' ', Digit(d)] else [Digit(d / 10), Digit(d % 10)]
  }

  /** The text of the days `a..=b`, written out field by field. */
  function WeekText(a: nat, b: nat): (t: string)
    requires a <= b < 100
    decreases b - a
  {
    if a == b then TwoDigits(a) else TwoDigits(a) + " " + WeekText(a + 1, b)
  }

  lemma DayFieldDigits(d: nat)
    requires d < 100
    ensures DayField(d) == TwoDigits(d)
  {
    if d < 10 {
      assert NatToString(d) == [Digit(d)];
    } else {
      assert NatToString(d / 10) == [Digit(d / 10)];
      assert NatToString(d) == [Digit(d / 10), Digit(d % 10)];
    }
  }

  /** A row of more than one day is its first day's field, a space, and the rest of the row. */
  lemma WeekStep(a: nat, b: nat)
    requires a < b
    ensures Week(DayRange(a, b)) == DayField(a) + " " + Week(DayRange(a + 1, b))
  {
    FieldsStep(DayRange(a, b));
    var fs := Fields(DayRange(a, b));
    assert fs[1..] == Fields(DayRange(a + 1, b));
  }

  /** `week` agrees with the field-by-field text. */
  lemma {:induction false} WeekIsRef(a: nat, b: nat)
    requires a <= b < 100
    ensures Week(DayRange(a, b)) == WeekText(a, b)
    decreases b - a
  {
    DayFieldDigits(a);
    if a < b {
      WeekStep(a, b);
      WeekIsRef(a + 1, b);
    } else {
      WeekSingle(a);
    }
  }

  lemma WeekSingle(a: nat)
    ensures Week(DayRange(a, a)) == DayField(a)
  {
    assert Fields(DayRange(a, a)) == [DayField(a)];
  }

  /** Line `i` of the week block, written out: the first line right-aligned, the last left-aligned. */
  function LineText(days: nat, w: nat, i: nat): (line: string)
    requires w < 7 && 28 <= days <= 31 && i < RowCount(days, w)
  {
    var row := GridRow(days, w, i);
    var t := WeekText(row.first, row.last);
    var pad := if |t| < WIDTH then WIDTH - |t| else 0;
    (if i == 0 then Spaces(pad) + t
     else if i == RowCount(days, w) - 1 then t + Spaces(pad)
     else t) + TRAILING_SPACE
  }

  lemma {:induction false} WeekTextLength(a: nat, b: nat)
    requires a <= b < 100
    ensures |WeekText(a, b)| == 3 * (b - a + 1) - 1
    decreases b - a
  {
    if a < b {
      WeekTextLength(a + 1, b);
    }
  }

  /** Line `i` of the week block is the written-out line. */
  lemma LineIsText(days: nat, w: nat, i: nat)
    requires w < 7 && 28 <= days <= 31 && i < RowCount(days, w)
    ensures |WeekLines(GridRows(days, w))| == RowCount(days, w)
    ensures WeekLines(GridRows(days, w))[i] == LineText(days, w, i)
  {
    var rows := GridRows(days, w);
    var row := GridRow(days, w, i);
    GridRowShape(days, w, i);
    var t := WeekText(row.first, row.last);
    WeekIsRef(row.first, row.last);
    WeekTextLength(row.first, row.last);
    assert Week(row) == t && |t| <= WIDTH;
    if i == 0 {
      PadLeftIs(t);
    } else if i == |rows| - 1 {
      PadRightIs(t);
    }
    assert WeekLines(rows)[i] == RowLine(rows, i);
  }

  lemma PadLeftIs(t: string)
    requires |t| <= WIDTH
    ensures PadLeft(t, WIDTH) == Spaces(WIDTH - |t|) + t
  {
    if |t| == WIDTH {
      assert Spaces(0) + t == t;
    }
  }

  /** A header shorter than the block is centred between the given runs of spaces. */
  lemma CenterBy(s: string, pre: string, post: string)
    requires |s| < WIDTH
    requires pre == Spaces((WIDTH - |s|) / 2) && post == Spaces((WIDTH - |s| + 1) / 2)
    ensures Center(s, WIDTH) == pre + s + post
  {
  }

  lemma PadRightIs(t: string)
    requires |t| <= WIDTH
    ensures PadRight(t, WIDTH) == t + Spaces(WIDTH - |t|)
  {
    if |t| == WIDTH {
      assert t + Spaces(0) == t;
    }
  }

  lemma Listed4(ws: seq<string>, a: string, b: string, c: string, d: string)
    requires |ws| == 4 && ws[0] == a && ws[1] == b && ws[2] == c && ws[3] == d
    ensures ws == [a, b, c, d]
  {
  }

  lemma Listed5(ws: seq<string>, a: string, b: string, c: string, d: string, e: string)
    requires |ws| == 5 && ws[0] == a && ws[1] == b && ws[2] == c && ws[3] == d && ws[4] == e
    ensures ws == [a, b, c, d, e]
  {
  }

  lemma Listed6(ws: seq<string>, a: string, b: string, c: string, d: string, e: string, f: string)
    requires |ws| == 6 && ws[0] == a && ws[1] == b && ws[2] == c && ws[3] == d && ws[4] == e && ws[5] == f
    ensures ws == [a, b, c, d, e, f]
  {
  }

  /** The first line: the days of the first week, right-aligned. */
  lemma FirstLineIs(days: nat, w: nat, pad: string, t: string, line: string)
    requires w < 7 && 28 <= days <= 31 && WeekText(1, 7 - w) == t
    requires Spaces(3 * w) == pad && pad + t + "  " == line
    ensures LineText(days, w, 0) == line
  {
    WeekTextLength(1, 7 - w);
  }

  /** An interior line: seven days, no padding. */
  lemma InteriorLineIs(days: nat, w: nat, i: nat, t: string, line: string)
    requires w < 7 && 28 <= days <= 31 && 0 < i < RowCount(days, w) - 1
    requires WeekText(7 * i - w + 1, 7 * i - w + 7) == t
    requires t + "  " == line
    ensures LineText(days, w, i) == line
  {
  }

  /** The last line: the remaining days, left-aligned. */
  lemma LastLineIs(days: nat, w: nat, t: string, pad: string, line: string)
    requires w < 7 && 28 <= days <= 31
    requires WeekText(7 * (RowCount(days, w) - 1) - w + 1, days) == t
    requires |t| <= WIDTH && Spaces(WIDTH - |t|) == pad && t + pad + "  " == line
    ensures LineText(days, w, RowCount(days, w) - 1) == line
  {
    WeekTextLength(7 * (RowCount(days, w) - 1) - w + 1, days);
  }

  lemma Spaces0(n: nat)
    requires n == 0
    ensures Spaces(n) == ""
  {
  }

  lemma Spaces3(n: nat)
    requires n == 3
    ensures Spaces(n) == "   "
  {
  }

  lemma Spaces6(n: nat)
    requires n == 6
    ensures Spaces(n) == "      "
  {
  }

  lemma Spaces9(n: nat)
    requires n == 9
    ensures Spaces(n) == "         "
  {
  }

  lemma Spaces12(n: nat)
    requires n == 12
    ensures Spaces(n) == "            "
  {
  }

  lemma Spaces15(n: nat)
    requires n == 15
    ensures Spaces(n) == "               "
  {
  }

  lemma Spaces18(n: nat)
    requires n == 18
    ensures Spaces(n) == "                  "
  {
  }

  /** The header line, from the month's name and the digits of its year. */
  lemma HeaderIs(m: Month, name: string, year: string, line: string)
    requires MonthName(m) == name && IntToString(Year(m)) == year
    requires Center(name + " " + year, WIDTH) + TRAILING_SPACE == line
    ensures HeaderLine(m) == line
  {
  }

  lemma Year2019(y: int)
    requires y == 2019
    ensures IntToString(y) == "2019"
  {
  }

  lemma Year2016(y: int)
    requires y == 2016
    ensures IntToString(y) == "2016"
  {
  }


  lemma Prepend5(ws: seq<string>, header: string, dow: string, l0: string, l1: string, l2: string, l3: string, l4: string)
    requires ws == [header, dow] + [l0, l1, l2, l3, l4]
    ensures ws == [header, dow, l0, l1, l2, l3, l4]
  {
  }

  /** The lines of a month with 5 weeks: its header line, the weekday line and its week block. */
  lemma MonthLines5(m: Month, header: string, dow: string, l0: string, l1: string, l2: string, l3: string, l4: string)
    requires HeaderLine(m) == header && DAY_OF_WEEK_HEADER + TRAILING_SPACE == dow
    requires WeekLines(GridRows(NumDaysInMonth(m), NumDaysFromSunday(WeekdayForFirst(m)))) == [l0, l1, l2, l3, l4]
    ensures MonthLines(m) == [header, dow, l0, l1, l2, l3, l4]
  {
    MonthLinesAre(m);
    Prepend5(MonthLines(m), header, dow, l0, l1, l2, l3, l4);
  }

  lemma Prepend6(ws: seq<string>, header: string, dow: string, l0: string, l1: string, l2: string, l3: string, l4: string, l5: string)
    requires ws == [header, dow] + [l0, l1, l2, l3, l4, l5]
    ensures ws == [header, dow, l0, l1, l2, l3, l4, l5]
  {
  }

  /** The lines of a month with 6 weeks: its header line, the weekday line and its week block. */
  lemma MonthLines6(m: Month, header: string, dow: string, l0: string, l1: string, l2: string, l3: string, l4: string, l5: string)
    requires HeaderLine(m) == header && DAY_OF_WEEK_HEADER + TRAILING_SPACE == dow
    requires WeekLines(GridRows(NumDaysInMonth(m), NumDaysFromSunday(WeekdayForFirst(m)))) == [l0, l1, l2, l3, l4, l5]
    ensures MonthLines(m) == [header, dow, l0, l1, l2, l3, l4, l5]
  {
    MonthLinesAre(m);
    Prepend6(MonthLines(m), header, dow, l0, l1, l2, l3, l4, l5);
  }



  lemma Days1To5(a: nat, b: nat)
    requires a == 1 && b == 5
    ensures WeekText(a, b) == " 1  2  3  4  5"
  {
  }

  lemma Days6To12(a: nat, b: nat)
    requires a == 6 && b == 12
    ensures WeekText(a, b) == " 6  7  8  9 10 11 12"
  {
  }

  lemma Days13To19(a: nat, b: nat)
    requires a == 13 && b == 19
    ensures WeekText(a, b) == "13 14 15 16 17 18 19"
  {
  }

  lemma Days20To26(a: nat, b: nat)
    requires a == 20 && b == 26
    ensures WeekText(a, b) == "20 21 22 23 24 25 26"
  {
  }

  lemma Days27To31(a: nat, b: nat)
    requires a == 27 && b == 31
    ensures WeekText(a, b) == "27 28 29 30 31"
  {
  }

  lemma Days1To2(a: nat, b: nat)
    requires a == 1 && b == 2
    ensures WeekText(a, b) == " 1  2"
  {
  }

  lemma Days3To9(a: nat, b: nat)
    requires a == 3 && b == 9
    ensures WeekText(a, b) == " 3  4  5  6  7  8  9"
  {
  }

  lemma Days10To16(a: nat, b: nat)
    requires a == 10 && b == 16
    ensures WeekText(a, b) == "10 11 12 13 14 15 16"
  {
  }

  lemma Days17To23(a: nat, b: nat)
    requires a == 17 && b == 23
    ensures WeekText(a, b) == "17 18 19 20 21 22 23"
  {
  }

  lemma Days24To28(a: nat, b: nat)
    requires a == 24 && b == 28
    ensures WeekText(a, b) == "24 25 26 27 28"
  {
  }

  lemma Days24To30(a: nat, b: nat)
    requires a == 24 && b == 30
    ensures WeekText(a, b) == "24 25 26 27 28 29 30"
  {
  }

  lemma Days31To31(a: nat, b: nat)
    requires a == 31 && b == 31
    ensures WeekText(a, b) == "31"
  {
  }

  lemma Days1To6(a: nat, b: nat)
    requires a == 1 && b == 6
    ensures WeekText(a, b) == " 1  2  3  4  5  6"
  {
  }

  lemma Days7To13(a: nat, b: nat)
    requires a == 7 && b == 13
    ensures WeekText(a, b) == " 7  8  9 10 11 12 13"
  {
  }

  lemma Days14To20(a: nat, b: nat)
    requires a == 14 && b == 20
    ensures WeekText(a, b) == "14 15 16 17 18 19 20"
  {
  }

  lemma Days21To27(a: nat, b: nat)
    requires a == 21 && b == 27
    ensures WeekText(a, b) == "21 22 23 24 25 26 27"
  {
  }

  lemma Days28To30(a: nat, b: nat)
    requires a == 28 && b == 30
    ensures WeekText(a, b) == "28 29 30"
  {
  }

  lemma Days1To4(a: nat, b: nat)
    requires a == 1 && b == 4
    ensures WeekText(a, b) == " 1  2  3  4"
  {
  }

  lemma Days5To11(a: nat, b: nat)
    requires a == 5 && b == 11
    ensures WeekText(a, b) == " 5  6  7  8  9 10 11"
  {
  }

  lemma Days12To18(a: nat, b: nat)
    requires a == 12 && b == 18
    ensures WeekText(a, b) == "12 13 14 15 16 17 18"
  {
  }

  lemma Days19To25(a: nat, b: nat)
    requires a == 19 && b == 25
    ensures WeekText(a, b) == "19 20 21 22 23 24 25"
  {
  }

  lemma Days26To31(a: nat, b: nat)
    requires a == 26 && b == 31
    ensures WeekText(a, b) == "26 27 28 29 30 31"
  {
  }

  lemma Days1To1(a: nat, b: nat)
    requires a == 1 && b == 1
    ensures WeekText(a, b) == " 1"
  {
  }

  lemma Days2To8(a: nat, b: nat)
    requires a == 2 && b == 8
    ensures WeekText(a, b) == " 2  3  4  5  6  7  8"
  {
  }

  lemma Days9To15(a: nat, b: nat)
    requires a == 9 && b == 15
    ensures WeekText(a, b) == " 9 10 11 12 13 14 15"
  {
  }

  lemma Days16To22(a: nat, b: nat)
    requires a == 16 && b == 22
    ensures WeekText(a, b) == "16 17 18 19 20 21 22"
  {
  }

  lemma Days23To29(a: nat, b: nat)
    requires a == 23 && b == 29
    ensures WeekText(a, b) == "23 24 25 26 27 28 29"
  {
  }

  lemma Days30To30(a: nat, b: nat)
    requires a == 30 && b == 30
    ensures WeekText(a, b) == "30"
  {
  }

  lemma Days28To31(a: nat, b: nat)
    requires a == 28 && b == 31
    ensures WeekText(a, b) == "28 29 30 31"
  {
  }

  lemma Days1To3(a: nat, b: nat)
    requires a == 1 && b == 3
    ensures WeekText(a, b) == " 1  2  3"
  {
  }

  lemma Days4To10(a: nat, b: nat)
    requires a == 4 && b == 10
    ensures WeekText(a, b) == " 4  5  6  7  8  9 10"
  {
  }

  lemma Days11To17(a: nat, b: nat)
    requires a == 11 && b == 17
    ensures WeekText(a, b) == "11 12 13 14 15 16 17"
  {
  }

  lemma Days18To24(a: nat, b: nat)
    requires a == 18 && b == 24
    ensures WeekText(a, b) == "18 19 20 21 22 23 24"
  {
  }

  lemma Days25To31(a: nat, b: nat)
    requires a == 25 && b == 31
    ensures WeekText(a, b) == "25 26 27 28 29 30 31"
  {
  }

  lemma Days1To7(a: nat, b: nat)
    requires a == 1 && b == 7
    ensures WeekText(a, b) == " 1  2  3  4  5  6  7"
  {
  }

  lemma Days8To14(a: nat, b: nat)
    requires a == 8 && b == 14
    ensures WeekText(a, b) == " 8  9 10 11 12 13 14"
  {
  }

  lemma Days15To21(a: nat, b: nat)
    requires a == 15 && b == 21
    ensures WeekText(a, b) == "15 16 17 18 19 20 21"
  {
  }

  lemma Days22To28(a: nat, b: nat)
    requires a == 22 && b == 28
    ensures WeekText(a, b) == "22 23 24 25 26 27 28"
  {
  }

  lemma Days29To30(a: nat, b: nat)
    requires a == 29 && b == 30
    ensures WeekText(a, b) == "29 30"
  {
  }

  lemma Days29To31(a: nat, b: nat)
    requires a == 29 && b == 31
    ensures WeekText(a, b) == "29 30 31"
  {
  }

  lemma Days28To29(a: nat, b: nat)
    requires a == 28 && b == 29
    ensures WeekText(a, b) == "28 29"
  {
  }

  lemma Block31TueLine0Text()
    ensures "      " + " 1  2  3  4  5" + "  " == "       1  2  3  4  5  "
  {
  }

  lemma Block31TueLine0(days: nat, w: nat)
    requires days == 31 && w == 2
    ensures LineText(days, w, 0) == "       1  2  3  4  5  "
  {
    Block31TueLine0Text();
    Days1To5(1, 7 - w);
    Spaces6(3 * w);
    FirstLineIs(days, w, "      ", " 1  2  3  4  5", "       1  2  3  4  5  ");
  }

  lemma Block31TueLine1Text()
    ensures " 6  7  8  9 10 11 12" + "  " == " 6  7  8  9 10 11 12  "
  {
  }

  lemma Block31TueLine1(days: nat, w: nat)
    requires days == 31 && w == 2
    ensures LineText(days, w, 1) == " 6  7  8  9 10 11 12  "
  {
    Block31TueLine1Text();
    Days6To12(7 * 1 - w + 1, 7 * 1 - w + 7);
    InteriorLineIs(days, w, 1, " 6  7  8  9 10 11 12", " 6  7  8  9 10 11 12  ");
  }

  lemma Block31TueLine2Text()
    ensures "13 14 15 16 17 18 19" + "  " == "13 14 15 16 17 18 19  "
  {
  }

  lemma Block31TueLine2(days: nat, w: nat)
    requires days == 31 && w == 2
    ensures LineText(days, w, 2) == "13 14 15 16 17 18 19  "
  {
    Block31TueLine2Text();
    Days13To19(7 * 2 - w + 1, 7 * 2 - w + 7);
    InteriorLineIs(days, w, 2, "13 14 15 16 17 18 19", "13 14 15 16 17 18 19  ");
  }

  lemma Block31TueLine3Text()
    ensures "20 21 22 23 24 25 26" + "  " == "20 21 22 23 24 25 26  "
  {
  }

  lemma Block31TueLine3(days: nat, w: nat)
    requires days == 31 && w == 2
    ensures LineText(days, w, 3) == "20 21 22 23 24 25 26  "
  {
    Block31TueLine3Text();
    Days20To26(7 * 3 - w + 1, 7 * 3 - w + 7);
    InteriorLineIs(days, w, 3, "20 21 22 23 24 25 26", "20 21 22 23 24 25 26  ");
  }

  lemma Block31TueLine4Text()
    ensures "27 28 29 30 31" + "      " + "  " == "27 28 29 30 31        "
  {
  }

  lemma Block31TueLine4(days: nat, w: nat)
    requires days == 31 && w == 2
    ensures LineText(days, w, 4) == "27 28 29 30 31        "
  {
    Block31TueLine4Text();
    Days27To31(7 * (RowCount(days, w) - 1) - w + 1, days);
    Spaces6(WIDTH - |"27 28 29 30 31"|);
    LastLineIs(days, w, "27 28 29 30 31", "      ", "27 28 29 30 31        ");
  }

  /** The week block of a 31-day month whose 1st is a Tuesday. */
  lemma Block31Tue(days: nat, w: nat)
    requires days == 31 && w == 2
    ensures WeekLines(GridRows(days, w)) == [
      "       1  2  3  4  5  ",
      " 6  7  8  9 10 11 12  ",
      "13 14 15 16 17 18 19  ",
      "20 21 22 23 24 25 26  ",
      "27 28 29 30 31        "
    ]
  {
    Block31TueLine0(days, w);
    LineIsText(days, w, 0);
    Block31TueLine1(days, w);
    LineIsText(days, w, 1);
    Block31TueLine2(days, w);
    LineIsText(days, w, 2);
    Block31TueLine3(days, w);
    LineIsText(days, w, 3);
    Block31TueLine4(days, w);
    LineIsText(days, w, 4);
    Listed5(WeekLines(GridRows(days, w)), "       1  2  3  4  5  ", " 6  7  8  9 10 11 12  ", "13 14 15 16 17 18 19  ", "20 21 22 23 24 25 26  ", "27 28 29 30 31        ");
  }

  lemma Block28FriLine0Text()
    ensures "               " + " 1  2" + "  " == "                1  2  "
  {
  }

  lemma Block28FriLine0(days: nat, w: nat)
    requires days == 28 && w == 5
    ensures LineText(days, w, 0) == "                1  2  "
  {
    Block28FriLine0Text();
    Days1To2(1, 7 - w);
    Spaces15(3 * w);
    FirstLineIs(days, w, "               ", " 1  2", "                1  2  ");
  }

  lemma Block28FriLine1Text()
    ensures " 3  4  5  6  7  8  9" + "  " == " 3  4  5  6  7  8  9  "
  {
  }

  lemma Block28FriLine1(days: nat, w: nat)
    requires days == 28 && w == 5
    ensures LineText(days, w, 1) == " 3  4  5  6  7  8  9  "
  {
    Block28FriLine1Text();
    Days3To9(7 * 1 - w + 1, 7 * 1 - w + 7);
    InteriorLineIs(days, w, 1, " 3  4  5  6  7  8  9", " 3  4  5  6  7  8  9  ");
  }

  lemma Block28FriLine2Text()
    ensures "10 11 12 13 14 15 16" + "  " == "10 11 12 13 14 15 16  "
  {
  }

  lemma Block28FriLine2(days: nat, w: nat)
    requires days == 28 && w == 5
    ensures LineText(days, w, 2) == "10 11 12 13 14 15 16  "
  {
    Block28FriLine2Text();
    Days10To16(7 * 2 - w + 1, 7 * 2 - w + 7);
    InteriorLineIs(days, w, 2, "10 11 12 13 14 15 16", "10 11 12 13 14 15 16  ");
  }

  lemma Block28FriLine3Text()
    ensures "17 18 19 20 21 22 23" + "  " == "17 18 19 20 21 22 23  "
  {
  }

  lemma Block28FriLine3(days: nat, w: nat)
    requires days == 28 && w == 5
    ensures LineText(days, w, 3) == "17 18 19 20 21 22 23  "
  {
    Block28FriLine3Text();
    Days17To23(7 * 3 - w + 1, 7 * 3 - w + 7);
    InteriorLineIs(days, w, 3, "17 18 19 20 21 22 23", "17 18 19 20 21 22 23  ");
  }

  lemma Block28FriLine4Text()
    ensures "24 25 26 27 28" + "      " + "  " == "24 25 26 27 28        "
  {
  }

  lemma Block28FriLine4(days: nat, w: nat)
    requires days == 28 && w == 5
    ensures LineText(days, w, 4) == "24 25 26 27 28        "
  {
    Block28FriLine4Text();
    Days24To28(7 * (RowCount(days, w) - 1) - w + 1, days);
    Spaces6(WIDTH - |"24 25 26 27 28"|);
    LastLineIs(days, w, "24 25 26 27 28", "      ", "24 25 26 27 28        ");
  }

  /** The week block of a 28-day month whose 1st is a Friday. */
  lemma Block28Fri(days: nat, w: nat)
    requires days == 28 && w == 5
    ensures WeekLines(GridRows(days, w)) == [
      "                1  2  ",
      " 3  4  5  6  7  8  9  ",
      "10 11 12 13 14 15 16  ",
      "17 18 19 20 21 22 23  ",
      "24 25 26 27 28        "
    ]
  {
    Block28FriLine0(days, w);
    LineIsText(days, w, 0);
    Block28FriLine1(days, w);
    LineIsText(days, w, 1);
    Block28FriLine2(days, w);
    LineIsText(days, w, 2);
    Block28FriLine3(days, w);
    LineIsText(days, w, 3);
    Block28FriLine4(days, w);
    LineIsText(days, w, 4);
    Listed5(WeekLines(GridRows(days, w)), "                1  2  ", " 3  4  5  6  7  8  9  ", "10 11 12 13 14 15 16  ", "17 18 19 20 21 22 23  ", "24 25 26 27 28        ");
  }

  lemma Block31FriLine0Text()
    ensures "               " + " 1  2" + "  " == "                1  2  "
  {
  }

  lemma Block31FriLine0(days: nat, w: nat)
    requires days == 31 && w == 5
    ensures LineText(days, w, 0) == "                1  2  "
  {
    Block31FriLine0Text();
    Days1To2(1, 7 - w);
    Spaces15(3 * w);
    FirstLineIs(days, w, "               ", " 1  2", "                1  2  ");
  }

  lemma Block31FriLine1Text()
    ensures " 3  4  5  6  7  8  9" + "  " == " 3  4  5  6  7  8  9  "
  {
  }

  lemma Block31FriLine1(days: nat, w: nat)
    requires days == 31 && w == 5
    ensures LineText(days, w, 1) == " 3  4  5  6  7  8  9  "
  {
    Block31FriLine1Text();
    Days3To9(7 * 1 - w + 1, 7 * 1 - w + 7);
    InteriorLineIs(days, w, 1, " 3  4  5  6  7  8  9", " 3  4  5  6  7  8  9  ");
  }

  lemma Block31FriLine2Text()
    ensures "10 11 12 13 14 15 16" + "  " == "10 11 12 13 14 15 16  "
  {
  }

  lemma Block31FriLine2(days: nat, w: nat)
    requires days == 31 && w == 5
    ensures LineText(days, w, 2) == "10 11 12 13 14 15 16  "
  {
    Block31FriLine2Text();
    Days10To16(7 * 2 - w + 1, 7 * 2 - w + 7);
    InteriorLineIs(days, w, 2, "10 11 12 13 14 15 16", "10 11 12 13 14 15 16  ");
  }

  lemma Block31FriLine3Text()
    ensures "17 18 19 20 21 22 23" + "  " == "17 18 19 20 21 22 23  "
  {
  }

  lemma Block31FriLine3(days: nat, w: nat)
    requires days == 31 && w == 5
    ensures LineText(days, w, 3) == "17 18 19 20 21 22 23  "
  {
    Block31FriLine3Text();
    Days17To23(7 * 3 - w + 1, 7 * 3 - w + 7);
    InteriorLineIs(days, w, 3, "17 18 19 20 21 22 23", "17 18 19 20 21 22 23  ");
  }

  lemma Block31FriLine4Text()
    ensures "24 25 26 27 28 29 30" + "  " == "24 25 26 27 28 29 30  "
  {
  }

  lemma Block31FriLine4(days: nat, w: nat)
    requires days == 31 && w == 5
    ensures LineText(days, w, 4) == "24 25 26 27 28 29 30  "
  {
    Block31FriLine4Text();
    Days24To30(7 * 4 - w + 1, 7 * 4 - w + 7);
    InteriorLineIs(days, w, 4, "24 25 26 27 28 29 30", "24 25 26 27 28 29 30  ");
  }

  lemma Block31FriLine5Text()
    ensures "31" + "                  " + "  " == "31                    "
  {
  }

  lemma Block31FriLine5(days: nat, w: nat)
    requires days == 31 && w == 5
    ensures LineText(days, w, 5) == "31                    "
  {
    Block31FriLine5Text();
    Days31To31(7 * (RowCount(days, w) - 1) - w + 1, days);
    Spaces18(WIDTH - |"31"|);
    LastLineIs(days, w, "31", "                  ", "31                    ");
  }

  /** The week block of a 31-day month whose 1st is a Friday. */
  lemma Block31Fri(days: nat, w: nat)
    requires days == 31 && w == 5
    ensures WeekLines(GridRows(days, w)) == [
      "                1  2  ",
      " 3  4  5  6  7  8  9  ",
      "10 11 12 13 14 15 16  ",
      "17 18 19 20 21 22 23  ",
      "24 25 26 27 28 29 30  ",
      "31                    "
    ]
  {
    Block31FriLine0(days, w);
    LineIsText(days, w, 0);
    Block31FriLine1(days, w);
    LineIsText(days, w, 1);
    Block31FriLine2(days, w);
    LineIsText(days, w, 2);
    Block31FriLine3(days, w);
    LineIsText(days, w, 3);
    Block31FriLine4(days, w);
    LineIsText(days, w, 4);
    Block31FriLine5(days, w);
    LineIsText(days, w, 5);
    Listed6(WeekLines(GridRows(days, w)), "                1  2  ", " 3  4  5  6  7  8  9  ", "10 11 12 13 14 15 16  ", "17 18 19 20 21 22 23  ", "24 25 26 27 28 29 30  ", "31                    ");
  }

  lemma Block30MonLine0Text()
    ensures "   " + " 1  2  3  4  5  6" + "  " == "    1  2  3  4  5  6  "
  {
  }

  lemma Block30MonLine0(days: nat, w: nat)
    requires days == 30 && w == 1
    ensures LineText(days, w, 0) == "    1  2  3  4  5  6  "
  {
    Block30MonLine0Text();
    Days1To6(1, 7 - w);
    Spaces3(3 * w);
    FirstLineIs(days, w, "   ", " 1  2  3  4  5  6", "    1  2  3  4  5  6  ");
  }

  lemma Block30MonLine1Text()
    ensures " 7  8  9 10 11 12 13" + "  " == " 7  8  9 10 11 12 13  "
  {
  }

  lemma Block30MonLine1(days: nat, w: nat)
    requires days == 30 && w == 1
    ensures LineText(days, w, 1) == " 7  8  9 10 11 12 13  "
  {
    Block30MonLine1Text();
    Days7To13(7 * 1 - w + 1, 7 * 1 - w + 7);
    InteriorLineIs(days, w, 1, " 7  8  9 10 11 12 13", " 7  8  9 10 11 12 13  ");
  }

  lemma Block30MonLine2Text()
    ensures "14 15 16 17 18 19 20" + "  " == "14 15 16 17 18 19 20  "
  {
  }

  lemma Block30MonLine2(days: nat, w: nat)
    requires days == 30 && w == 1
    ensures LineText(days, w, 2) == "14 15 16 17 18 19 20  "
  {
    Block30MonLine2Text();
    Days14To20(7 * 2 - w + 1, 7 * 2 - w + 7);
    InteriorLineIs(days, w, 2, "14 15 16 17 18 19 20", "14 15 16 17 18 19 20  ");
  }

  lemma Block30MonLine3Text()
    ensures "21 22 23 24 25 26 27" + "  " == "21 22 23 24 25 26 27  "
  {
  }

  lemma Block30MonLine3(days: nat, w: nat)
    requires days == 30 && w == 1
    ensures LineText(days, w, 3) == "21 22 23 24 25 26 27  "
  {
    Block30MonLine3Text();
    Days21To27(7 * 3 - w + 1, 7 * 3 - w + 7);
    InteriorLineIs(days, w, 3, "21 22 23 24 25 26 27", "21 22 23 24 25 26 27  ");
  }

  lemma Block30MonLine4Text()
    ensures "28 29 30" + "            " + "  " == "28 29 30              "
  {
  }

  lemma Block30MonLine4(days: nat, w: nat)
    requires days == 30 && w == 1
    ensures LineText(days, w, 4) == "28 29 30              "
  {
    Block30MonLine4Text();
    Days28To30(7 * (RowCount(days, w) - 1) - w + 1, days);
    Spaces12(WIDTH - |"28 29 30"|);
    LastLineIs(days, w, "28 29 30", "            ", "28 29 30              ");
  }

  /** The week block of a 30-day month whose 1st is a Monday. */
  lemma Block30Mon(days: nat, w: nat)
    requires days == 30 && w == 1
    ensures WeekLines(GridRows(days, w)) == [
      "    1  2  3  4  5  6  ",
      " 7  8  9 10 11 12 13  ",
      "14 15 16 17 18 19 20  ",
      "21 22 23 24 25 26 27  ",
      "28 29 30              "
    ]
  {
    Block30MonLine0(days, w);
    LineIsText(days, w, 0);
    Block30MonLine1(days, w);
    LineIsText(days, w, 1);
    Block30MonLine2(days, w);
    LineIsText(days, w, 2);
    Block30MonLine3(days, w);
    LineIsText(days, w, 3);
    Block30MonLine4(days, w);
    LineIsText(days, w, 4);
    Listed5(WeekLines(GridRows(days, w)), "    1  2  3  4  5  6  ", " 7  8  9 10 11 12 13  ", "14 15 16 17 18 19 20  ", "21 22 23 24 25 26 27  ", "28 29 30              ");
  }

  lemma Block31WedLine0Text()
    ensures "         " + " 1  2  3  4" + "  " == "          1  2  3  4  "
  {
  }

  lemma Block31WedLine0(days: nat, w: nat)
    requires days == 31 && w == 3
    ensures LineText(days, w, 0) == "          1  2  3  4  "
  {
    Block31WedLine0Text();
    Days1To4(1, 7 - w);
    Spaces9(3 * w);
    FirstLineIs(days, w, "         ", " 1  2  3  4", "          1  2  3  4  ");
  }

  lemma Block31WedLine1Text()
    ensures " 5  6  7  8  9 10 11" + "  " == " 5  6  7  8  9 10 11  "
  {
  }

  lemma Block31WedLine1(days: nat, w: nat)
    requires days == 31 && w == 3
    ensures LineText(days, w, 1) == " 5  6  7  8  9 10 11  "
  {
    Block31WedLine1Text();
    Days5To11(7 * 1 - w + 1, 7 * 1 - w + 7);
    InteriorLineIs(days, w, 1, " 5  6  7  8  9 10 11", " 5  6  7  8  9 10 11  ");
  }

  lemma Block31WedLine2Text()
    ensures "12 13 14 15 16 17 18" + "  " == "12 13 14 15 16 17 18  "
  {
  }

  lemma Block31WedLine2(days: nat, w: nat)
    requires days == 31 && w == 3
    ensures LineText(days, w, 2) == "12 13 14 15 16 17 18  "
  {
    Block31WedLine2Text();
    Days12To18(7 * 2 - w + 1, 7 * 2 - w + 7);
    InteriorLineIs(days, w, 2, "12 13 14 15 16 17 18", "12 13 14 15 16 17 18  ");
  }

  lemma Block31WedLine3Text()
    ensures "19 20 21 22 23 24 25" + "  " == "19 20 21 22 23 24 25  "
  {
  }

  lemma Block31WedLine3(days: nat, w: nat)
    requires days == 31 && w == 3
    ensures LineText(days, w, 3) == "19 20 21 22 23 24 25  "
  {
    Block31WedLine3Text();
    Days19To25(7 * 3 - w + 1, 7 * 3 - w + 7);
    InteriorLineIs(days, w, 3, "19 20 21 22 23 24 25", "19 20 21 22 23 24 25  ");
  }

  lemma Block31WedLine4Text()
    ensures "26 27 28 29 30 31" + "   " + "  " == "26 27 28 29 30 31     "
  {
  }

  lemma Block31WedLine4(days: nat, w: nat)
    requires days == 31 && w == 3
    ensures LineText(days, w, 4) == "26 27 28 29 30 31     "
  {
    Block31WedLine4Text();
    Days26To31(7 * (RowCount(days, w) - 1) - w + 1, days);
    Spaces3(WIDTH - |"26 27 28 29 30 31"|);
    LastLineIs(days, w, "26 27 28 29 30 31", "   ", "26 27 28 29 30 31     ");
  }

  /** The week block of a 31-day month whose 1st is a Wednesday. */
  lemma Block31Wed(days: nat, w: nat)
    requires days == 31 && w == 3
    ensures WeekLines(GridRows(days, w)) == [
      "          1  2  3  4  ",
      " 5  6  7  8  9 10 11  ",
      "12 13 14 15 16 17 18  ",
      "19 20 21 22 23 24 25  ",
      "26 27 28 29 30 31     "
    ]
  {
    Block31WedLine0(days, w);
    LineIsText(days, w, 0);
    Block31WedLine1(days, w);
    LineIsText(days, w, 1);
    Block31WedLine2(days, w);
    LineIsText(days, w, 2);
    Block31WedLine3(days, w);
    LineIsText(days, w, 3);
    Block31WedLine4(days, w);
    LineIsText(days, w, 4);
    Listed5(WeekLines(GridRows(days, w)), "          1  2  3  4  ", " 5  6  7  8  9 10 11  ", "12 13 14 15 16 17 18  ", "19 20 21 22 23 24 25  ", "26 27 28 29 30 31     ");
  }

  lemma Block30SatLine0Text()
    ensures "                  " + " 1" + "  " == "                   1  "
  {
  }

  lemma Block30SatLine0(days: nat, w: nat)
    requires days == 30 && w == 6
    ensures LineText(days, w, 0) == "                   1  "
  {
    Block30SatLine0Text();
    Days1To1(1, 7 - w);
    Spaces18(3 * w);
    FirstLineIs(days, w, "                  ", " 1", "                   1  ");
  }

  lemma Block30SatLine1Text()
    ensures " 2  3  4  5  6  7  8" + "  " == " 2  3  4  5  6  7  8  "
  {
  }

  lemma Block30SatLine1(days: nat, w: nat)
    requires days == 30 && w == 6
    ensures LineText(days, w, 1) == " 2  3  4  5  6  7  8  "
  {
    Block30SatLine1Text();
    Days2To8(7 * 1 - w + 1, 7 * 1 - w + 7);
    InteriorLineIs(days, w, 1, " 2  3  4  5  6  7  8", " 2  3  4  5  6  7  8  ");
  }

  lemma Block30SatLine2Text()
    ensures " 9 10 11 12 13 14 15" + "  " == " 9 10 11 12 13 14 15  "
  {
  }

  lemma Block30SatLine2(days: nat, w: nat)
    requires days == 30 && w == 6
    ensures LineText(days, w, 2) == " 9 10 11 12 13 14 15  "
  {
    Block30SatLine2Text();
    Days9To15(7 * 2 - w + 1, 7 * 2 - w + 7);
    InteriorLineIs(days, w, 2, " 9 10 11 12 13 14 15", " 9 10 11 12 13 14 15  ");
  }

  lemma Block30SatLine3Text()
    ensures "16 17 18 19 20 21 22" + "  " == "16 17 18 19 20 21 22  "
  {
  }

  lemma Block30SatLine3(days: nat, w: nat)
    requires days == 30 && w == 6
    ensures LineText(days, w, 3) == "16 17 18 19 20 21 22  "
  {
    Block30SatLine3Text();
    Days16To22(7 * 3 - w + 1, 7 * 3 - w + 7);
    InteriorLineIs(days, w, 3, "16 17 18 19 20 21 22", "16 17 18 19 20 21 22  ");
  }

  lemma Block30SatLine4Text()
    ensures "23 24 25 26 27 28 29" + "  " == "23 24 25 26 27 28 29  "
  {
  }

  lemma Block30SatLine4(days: nat, w: nat)
    requires days == 30 && w == 6
    ensures LineText(days, w, 4) == "23 24 25 26 27 28 29  "
  {
    Block30SatLine4Text();
    Days23To29(7 * 4 - w + 1, 7 * 4 - w + 7);
    InteriorLineIs(days, w, 4, "23 24 25 26 27 28 29", "23 24 25 26 27 28 29  ");
  }

  lemma Block30SatLine5Text()
    ensures "30" + "                  " + "  " == "30                    "
  {
  }

  lemma Block30SatLine5(days: nat, w: nat)
    requires days == 30 && w == 6
    ensures LineText(days, w, 5) == "30                    "
  {
    Block30SatLine5Text();
    Days30To30(7 * (RowCount(days, w) - 1) - w + 1, days);
    Spaces18(WIDTH - |"30"|);
    LastLineIs(days, w, "30", "                  ", "30                    ");
  }

  /** The week block of a 30-day month whose 1st is a Saturday. */
  lemma Block30Sat(days: nat, w: nat)
    requires days == 30 && w == 6
    ensures WeekLines(GridRows(days, w)) == [
      "                   1  ",
      " 2  3  4  5  6  7  8  ",
      " 9 10 11 12 13 14 15  ",
      "16 17 18 19 20 21 22  ",
      "23 24 25 26 27 28 29  ",
      "30                    "
    ]
  {
    Block30SatLine0(days, w);
    LineIsText(days, w, 0);
    Block30SatLine1(days, w);
    LineIsText(days, w, 1);
    Block30SatLine2(days, w);
    LineIsText(days, w, 2);
    Block30SatLine3(days, w);
    LineIsText(days, w, 3);
    Block30SatLine4(days, w);
    LineIsText(days, w, 4);
    Block30SatLine5(days, w);
    LineIsText(days, w, 5);
    Listed6(WeekLines(GridRows(days, w)), "                   1  ", " 2  3  4  5  6  7  8  ", " 9 10 11 12 13 14 15  ", "16 17 18 19 20 21 22  ", "23 24 25 26 27 28 29  ", "30                    ");
  }

  lemma Block31MonLine0Text()
    ensures "   " + " 1  2  3  4  5  6" + "  " == "    1  2  3  4  5  6  "
  {
  }

  lemma Block31MonLine0(days: nat, w: nat)
    requires days == 31 && w == 1
    ensures LineText(days, w, 0) == "    1  2  3  4  5  6  "
  {
    Block31MonLine0Text();
    Days1To6(1, 7 - w);
    Spaces3(3 * w);
    FirstLineIs(days, w, "   ", " 1  2  3  4  5  6", "    1  2  3  4  5  6  ");
  }

  lemma Block31MonLine1Text()
    ensures " 7  8  9 10 11 12 13" + "  " == " 7  8  9 10 11 12 13  "
  {
  }

  lemma Block31MonLine1(days: nat, w: nat)
    requires days == 31 && w == 1
    ensures LineText(days, w, 1) == " 7  8  9 10 11 12 13  "
  {
    Block31MonLine1Text();
    Days7To13(7 * 1 - w + 1, 7 * 1 - w + 7);
    InteriorLineIs(days, w, 1, " 7  8  9 10 11 12 13", " 7  8  9 10 11 12 13  ");
  }

  lemma Block31MonLine2Text()
    ensures "14 15 16 17 18 19 20" + "  " == "14 15 16 17 18 19 20  "
  {
  }

  lemma Block31MonLine2(days: nat, w: nat)
    requires days == 31 && w == 1
    ensures LineText(days, w, 2) == "14 15 16 17 18 19 20  "
  {
    Block31MonLine2Text();
    Days14To20(7 * 2 - w + 1, 7 * 2 - w + 7);
    InteriorLineIs(days, w, 2, "14 15 16 17 18 19 20", "14 15 16 17 18 19 20  ");
  }

  lemma Block31MonLine3Text()
    ensures "21 22 23 24 25 26 27" + "  " == "21 22 23 24 25 26 27  "
  {
  }

  lemma Block31MonLine3(days: nat, w: nat)
    requires days == 31 && w == 1
    ensures LineText(days, w, 3) == "21 22 23 24 25 26 27  "
  {
    Block31MonLine3Text();
    Days21To27(7 * 3 - w + 1, 7 * 3 - w + 7);
    InteriorLineIs(days, w, 3, "21 22 23 24 25 26 27", "21 22 23 24 25 26 27  ");
  }

  lemma Block31MonLine4Text()
    ensures "28 29 30 31" + "         " + "  " == "28 29 30 31           "
  {
  }

  lemma Block31MonLine4(days: nat, w: nat)
    requires days == 31 && w == 1
    ensures LineText(days, w, 4) == "28 29 30 31           "
  {
    Block31MonLine4Text();
    Days28To31(7 * (RowCount(days, w) - 1) - w + 1, days);
    Spaces9(WIDTH - |"28 29 30 31"|);
    LastLineIs(days, w, "28 29 30 31", "         ", "28 29 30 31           ");
  }

  /** The week block of a 31-day month whose 1st is a Monday. */
  lemma Block31Mon(days: nat, w: nat)
    requires days == 31 && w == 1
    ensures WeekLines(GridRows(days, w)) == [
      "    1  2  3  4  5  6  ",
      " 7  8  9 10 11 12 13  ",
      "14 15 16 17 18 19 20  ",
      "21 22 23 24 25 26 27  ",
      "28 29 30 31           "
    ]
  {
    Block31MonLine0(days, w);
    LineIsText(days, w, 0);
    Block31MonLine1(days, w);
    LineIsText(days, w, 1);
    Block31MonLine2(days, w);
    LineIsText(days, w, 2);
    Block31MonLine3(days, w);
    LineIsText(days, w, 3);
    Block31MonLine4(days, w);
    LineIsText(days, w, 4);
    Listed5(WeekLines(GridRows(days, w)), "    1  2  3  4  5  6  ", " 7  8  9 10 11 12 13  ", "14 15 16 17 18 19 20  ", "21 22 23 24 25 26 27  ", "28 29 30 31           ");
  }

  lemma Block31ThuLine0Text()
    ensures "            " + " 1  2  3" + "  " == "             1  2  3  "
  {
  }

  lemma Block31ThuLine0(days: nat, w: nat)
    requires days == 31 && w == 4
    ensures LineText(days, w, 0) == "             1  2  3  "
  {
    Block31ThuLine0Text();
    Days1To3(1, 7 - w);
    Spaces12(3 * w);
    FirstLineIs(days, w, "            ", " 1  2  3", "             1  2  3  ");
  }

  lemma Block31ThuLine1Text()
    ensures " 4  5  6  7  8  9 10" + "  " == " 4  5  6  7  8  9 10  "
  {
  }

  lemma Block31ThuLine1(days: nat, w: nat)
    requires days == 31 && w == 4
    ensures LineText(days, w, 1) == " 4  5  6  7  8  9 10  "
  {
    Block31ThuLine1Text();
    Days4To10(7 * 1 - w + 1, 7 * 1 - w + 7);
    InteriorLineIs(days, w, 1, " 4  5  6  7  8  9 10", " 4  5  6  7  8  9 10  ");
  }

  lemma Block31ThuLine2Text()
    ensures "11 12 13 14 15 16 17" + "  " == "11 12 13 14 15 16 17  "
  {
  }

  lemma Block31ThuLine2(days: nat, w: nat)
    requires days == 31 && w == 4
    ensures LineText(days, w, 2) == "11 12 13 14 15 16 17  "
  {
    Block31ThuLine2Text();
    Days11To17(7 * 2 - w + 1, 7 * 2 - w + 7);
    InteriorLineIs(days, w, 2, "11 12 13 14 15 16 17", "11 12 13 14 15 16 17  ");
  }

  lemma Block31ThuLine3Text()
    ensures "18 19 20 21 22 23 24" + "  " == "18 19 20 21 22 23 24  "
  {
  }

  lemma Block31ThuLine3(days: nat, w: nat)
    requires days == 31 && w == 4
    ensures LineText(days, w, 3) == "18 19 20 21 22 23 24  "
  {
    Block31ThuLine3Text();
    Days18To24(7 * 3 - w + 1, 7 * 3 - w + 7);
    InteriorLineIs(days, w, 3, "18 19 20 21 22 23 24", "18 19 20 21 22 23 24  ");
  }

  lemma Block31ThuLine4Text()
    ensures "25 26 27 28 29 30 31" + "" + "  " == "25 26 27 28 29 30 31  "
  {
  }

  lemma Block31ThuLine4(days: nat, w: nat)
    requires days == 31 && w == 4
    ensures LineText(days, w, 4) == "25 26 27 28 29 30 31  "
  {
    Block31ThuLine4Text();
    Days25To31(7 * (RowCount(days, w) - 1) - w + 1, days);
    Spaces0(WIDTH - |"25 26 27 28 29 30 31"|);
    LastLineIs(days, w, "25 26 27 28 29 30 31", "", "25 26 27 28 29 30 31  ");
  }

  /** The week block of a 31-day month whose 1st is a Thursday. */
  lemma Block31Thu(days: nat, w: nat)
    requires days == 31 && w == 4
    ensures WeekLines(GridRows(days, w)) == [
      "             1  2  3  ",
      " 4  5  6  7  8  9 10  ",
      "11 12 13 14 15 16 17  ",
      "18 19 20 21 22 23 24  ",
      "25 26 27 28 29 30 31  "
    ]
  {
    Block31ThuLine0(days, w);
    LineIsText(days, w, 0);
    Block31ThuLine1(days, w);
    LineIsText(days, w, 1);
    Block31ThuLine2(days, w);
    LineIsText(days, w, 2);
    Block31ThuLine3(days, w);
    LineIsText(days, w, 3);
    Block31ThuLine4(days, w);
    LineIsText(days, w, 4);
    Listed5(WeekLines(GridRows(days, w)), "             1  2  3  ", " 4  5  6  7  8  9 10  ", "11 12 13 14 15 16 17  ", "18 19 20 21 22 23 24  ", "25 26 27 28 29 30 31  ");
  }

  lemma Block30SunLine0Text()
    ensures "" + " 1  2  3  4  5  6  7" + "  " == " 1  2  3  4  5  6  7  "
  {
  }

  lemma Block30SunLine0(days: nat, w: nat)
    requires days == 30 && w == 0
    ensures LineText(days, w, 0) == " 1  2  3  4  5  6  7  "
  {
    Block30SunLine0Text();
    Days1To7(1, 7 - w);
    Spaces0(3 * w);
    FirstLineIs(days, w, "", " 1  2  3  4  5  6  7", " 1  2  3  4  5  6  7  ");
  }

  lemma Block30SunLine1Text()
    ensures " 8  9 10 11 12 13 14" + "  " == " 8  9 10 11 12 13 14  "
  {
  }

  lemma Block30SunLine1(days: nat, w: nat)
    requires days == 30 && w == 0
    ensures LineText(days, w, 1) == " 8  9 10 11 12 13 14  "
  {
    Block30SunLine1Text();
    Days8To14(7 * 1 - w + 1, 7 * 1 - w + 7);
    InteriorLineIs(days, w, 1, " 8  9 10 11 12 13 14", " 8  9 10 11 12 13 14  ");
  }

  lemma Block30SunLine2Text()
    ensures "15 16 17 18 19 20 21" + "  " == "15 16 17 18 19 20 21  "
  {
  }

  lemma Block30SunLine2(days: nat, w: nat)
    requires days == 30 && w == 0
    ensures LineText(days, w, 2) == "15 16 17 18 19 20 21  "
  {
    Block30SunLine2Text();
    Days15To21(7 * 2 - w + 1, 7 * 2 - w + 7);
    InteriorLineIs(days, w, 2, "15 16 17 18 19 20 21", "15 16 17 18 19 20 21  ");
  }

  lemma Block30SunLine3Text()
    ensures "22 23 24 25 26 27 28" + "  " == "22 23 24 25 26 27 28  "
  {
  }

  lemma Block30SunLine3(days: nat, w: nat)
    requires days == 30 && w == 0
    ensures LineText(days, w, 3) == "22 23 24 25 26 27 28  "
  {
    Block30SunLine3Text();
    Days22To28(7 * 3 - w + 1, 7 * 3 - w + 7);
    InteriorLineIs(days, w, 3, "22 23 24 25 26 27 28", "22 23 24 25 26 27 28  ");
  }

  lemma Block30SunLine4Text()
    ensures "29 30" + "               " + "  " == "29 30                 "
  {
  }

  lemma Block30SunLine4(days: nat, w: nat)
    requires days == 30 && w == 0
    ensures LineText(days, w, 4) == "29 30                 "
  {
    Block30SunLine4Text();
    Days29To30(7 * (RowCount(days, w) - 1) - w + 1, days);
    Spaces15(WIDTH - |"29 30"|);
    LastLineIs(days, w, "29 30", "               ", "29 30                 ");
  }

  /** The week block of a 30-day month whose 1st is a Sunday. */
  lemma Block30Sun(days: nat, w: nat)
    requires days == 30 && w == 0
    ensures WeekLines(GridRows(days, w)) == [
      " 1  2  3  4  5  6  7  ",
      " 8  9 10 11 12 13 14  ",
      "15 16 17 18 19 20 21  ",
      "22 23 24 25 26 27 28  ",
      "29 30                 "
    ]
  {
    Block30SunLine0(days, w);
    LineIsText(days, w, 0);
    Block30SunLine1(days, w);
    LineIsText(days, w, 1);
    Block30SunLine2(days, w);
    LineIsText(days, w, 2);
    Block30SunLine3(days, w);
    LineIsText(days, w, 3);
    Block30SunLine4(days, w);
    LineIsText(days, w, 4);
    Listed5(WeekLines(GridRows(days, w)), " 1  2  3  4  5  6  7  ", " 8  9 10 11 12 13 14  ", "15 16 17 18 19 20 21  ", "22 23 24 25 26 27 28  ", "29 30                 ");
  }

  lemma Block30FriLine0Text()
    ensures "               " + " 1  2" + "  " == "                1  2  "
  {
  }

  lemma Block30FriLine0(days: nat, w: nat)
    requires days == 30 && w == 5
    ensures LineText(days, w, 0) == "                1  2  "
  {
    Block30FriLine0Text();
    Days1To2(1, 7 - w);
    Spaces15(3 * w);
    FirstLineIs(days, w, "               ", " 1  2", "                1  2  ");
  }

  lemma Block30FriLine1Text()
    ensures " 3  4  5  6  7  8  9" + "  " == " 3  4  5  6  7  8  9  "
  {
  }

  lemma Block30FriLine1(days: nat, w: nat)
    requires days == 30 && w == 5
    ensures LineText(days, w, 1) == " 3  4  5  6  7  8  9  "
  {
    Block30FriLine1Text();
    Days3To9(7 * 1 - w + 1, 7 * 1 - w + 7);
    InteriorLineIs(days, w, 1, " 3  4  5  6  7  8  9", " 3  4  5  6  7  8  9  ");
  }

  lemma Block30FriLine2Text()
    ensures "10 11 12 13 14 15 16" + "  " == "10 11 12 13 14 15 16  "
  {
  }

  lemma Block30FriLine2(days: nat, w: nat)
    requires days == 30 && w == 5
    ensures LineText(days, w, 2) == "10 11 12 13 14 15 16  "
  {
    Block30FriLine2Text();
    Days10To16(7 * 2 - w + 1, 7 * 2 - w + 7);
    InteriorLineIs(days, w, 2, "10 11 12 13 14 15 16", "10 11 12 13 14 15 16  ");
  }

  lemma Block30FriLine3Text()
    ensures "17 18 19 20 21 22 23" + "  " == "17 18 19 20 21 22 23  "
  {
  }

  lemma Block30FriLine3(days: nat, w: nat)
    requires days == 30 && w == 5
    ensures LineText(days, w, 3) == "17 18 19 20 21 22 23  "
  {
    Block30FriLine3Text();
    Days17To23(7 * 3 - w + 1, 7 * 3 - w + 7);
    InteriorLineIs(days, w, 3, "17 18 19 20 21 22 23", "17 18 19 20 21 22 23  ");
  }

  lemma Block30FriLine4Text()
    ensures "24 25 26 27 28 29 30" + "" + "  " == "24 25 26 27 28 29 30  "
  {
  }

  lemma Block30FriLine4(days: nat, w: nat)
    requires days == 30 && w == 5
    ensures LineText(days, w, 4) == "24 25 26 27 28 29 30  "
  {
    Block30FriLine4Text();
    Days24To30(7 * (RowCount(days, w) - 1) - w + 1, days);
    Spaces0(WIDTH - |"24 25 26 27 28 29 30"|);
    LastLineIs(days, w, "24 25 26 27 28 29 30", "", "24 25 26 27 28 29 30  ");
  }

  /** The week block of a 30-day month whose 1st is a Friday. */
  lemma Block30Fri(days: nat, w: nat)
    requires days == 30 && w == 5
    ensures WeekLines(GridRows(days, w)) == [
      "                1  2  ",
      " 3  4  5  6  7  8  9  ",
      "10 11 12 13 14 15 16  ",
      "17 18 19 20 21 22 23  ",
      "24 25 26 27 28 29 30  "
    ]
  {
    Block30FriLine0(days, w);
    LineIsText(days, w, 0);
    Block30FriLine1(days, w);
    LineIsText(days, w, 1);
    Block30FriLine2(days, w);
    LineIsText(days, w, 2);
    Block30FriLine3(days, w);
    LineIsText(days, w, 3);
    Block30FriLine4(days, w);
    LineIsText(days, w, 4);
    Listed5(WeekLines(GridRows(days, w)), "                1  2  ", " 3  4  5  6  7  8  9  ", "10 11 12 13 14 15 16  ", "17 18 19 20 21 22 23  ", "24 25 26 27 28 29 30  ");
  }

  lemma Block31SunLine0Text()
    ensures "" + " 1  2  3  4  5  6  7" + "  " == " 1  2  3  4  5  6  7  "
  {
  }

  lemma Block31SunLine0(days: nat, w: nat)
    requires days == 31 && w == 0
    ensures LineText(days, w, 0) == " 1  2  3  4  5  6  7  "
  {
    Block31SunLine0Text();
    Days1To7(1, 7 - w);
    Spaces0(3 * w);
    FirstLineIs(days, w, "", " 1  2  3  4  5  6  7", " 1  2  3  4  5  6  7  ");
  }

  lemma Block31SunLine1Text()
    ensures " 8  9 10 11 12 13 14" + "  " == " 8  9 10 11 12 13 14  "
  {
  }

  lemma Block31SunLine1(days: nat, w: nat)
    requires days == 31 && w == 0
    ensures LineText(days, w, 1) == " 8  9 10 11 12 13 14  "
  {
    Block31SunLine1Text();
    Days8To14(7 * 1 - w + 1, 7 * 1 - w + 7);
    InteriorLineIs(days, w, 1, " 8  9 10 11 12 13 14", " 8  9 10 11 12 13 14  ");
  }

  lemma Block31SunLine2Text()
    ensures "15 16 17 18 19 20 21" + "  " == "15 16 17 18 19 20 21  "
  {
  }

  lemma Block31SunLine2(days: nat, w: nat)
    requires days == 31 && w == 0
    ensures LineText(days, w, 2) == "15 16 17 18 19 20 21  "
  {
    Block31SunLine2Text();
    Days15To21(7 * 2 - w + 1, 7 * 2 - w + 7);
    InteriorLineIs(days, w, 2, "15 16 17 18 19 20 21", "15 16 17 18 19 20 21  ");
  }

  lemma Block31SunLine3Text()
    ensures "22 23 24 25 26 27 28" + "  " == "22 23 24 25 26 27 28  "
  {
  }

  lemma Block31SunLine3(days: nat, w: nat)
    requires days == 31 && w == 0
    ensures LineText(days, w, 3) == "22 23 24 25 26 27 28  "
  {
    Block31SunLine3Text();
    Days22To28(7 * 3 - w + 1, 7 * 3 - w + 7);
    InteriorLineIs(days, w, 3, "22 23 24 25 26 27 28", "22 23 24 25 26 27 28  ");
  }

  lemma Block31SunLine4Text()
    ensures "29 30 31" + "            " + "  " == "29 30 31              "
  {
  }

  lemma Block31SunLine4(days: nat, w: nat)
    requires days == 31 && w == 0
    ensures LineText(days, w, 4) == "29 30 31              "
  {
    Block31SunLine4Text();
    Days29To31(7 * (RowCount(days, w) - 1) - w + 1, days);
    Spaces12(WIDTH - |"29 30 31"|);
    LastLineIs(days, w, "29 30 31", "            ", "29 30 31              ");
  }

  /** The week block of a 31-day month whose 1st is a Sunday. */
  lemma Block31Sun(days: nat, w: nat)
    requires days == 31 && w == 0
    ensures WeekLines(GridRows(days, w)) == [
      " 1  2  3  4  5  6  7  ",
      " 8  9 10 11 12 13 14  ",
      "15 16 17 18 19 20 21  ",
      "22 23 24 25 26 27 28  ",
      "29 30 31              "
    ]
  {
    Block31SunLine0(days, w);
    LineIsText(days, w, 0);
    Block31SunLine1(days, w);
    LineIsText(days, w, 1);
    Block31SunLine2(days, w);
    LineIsText(days, w, 2);
    Block31SunLine3(days, w);
    LineIsText(days, w, 3);
    Block31SunLine4(days, w);
    LineIsText(days, w, 4);
    Listed5(WeekLines(GridRows(days, w)), " 1  2  3  4  5  6  7  ", " 8  9 10 11 12 13 14  ", "15 16 17 18 19 20 21  ", "22 23 24 25 26 27 28  ", "29 30 31              ");
  }

  lemma Block29MonLine0Text()
    ensures "   " + " 1  2  3  4  5  6" + "  " == "    1  2  3  4  5  6  "
  {
  }

  lemma Block29MonLine0(days: nat, w: nat)
    requires days == 29 && w == 1
    ensures LineText(days, w, 0) == "    1  2  3  4  5  6  "
  {
    Block29MonLine0Text();
    Days1To6(1, 7 - w);
    Spaces3(3 * w);
    FirstLineIs(days, w, "   ", " 1  2  3  4  5  6", "    1  2  3  4  5  6  ");
  }

  lemma Block29MonLine1Text()
    ensures " 7  8  9 10 11 12 13" + "  " == " 7  8  9 10 11 12 13  "
  {
  }

  lemma Block29MonLine1(days: nat, w: nat)
    requires days == 29 && w == 1
    ensures LineText(days, w, 1) == " 7  8  9 10 11 12 13  "
  {
    Block29MonLine1Text();
    Days7To13(7 * 1 - w + 1, 7 * 1 - w + 7);
    InteriorLineIs(days, w, 1, " 7  8  9 10 11 12 13", " 7  8  9 10 11 12 13  ");
  }

  lemma Block29MonLine2Text()
    ensures "14 15 16 17 18 19 20" + "  " == "14 15 16 17 18 19 20  "
  {
  }

  lemma Block29MonLine2(days: nat, w: nat)
    requires days == 29 && w == 1
    ensures LineText(days, w, 2) == "14 15 16 17 18 19 20  "
  {
    Block29MonLine2Text();
    Days14To20(7 * 2 - w + 1, 7 * 2 - w + 7);
    InteriorLineIs(days, w, 2, "14 15 16 17 18 19 20", "14 15 16 17 18 19 20  ");
  }

  lemma Block29MonLine3Text()
    ensures "21 22 23 24 25 26 27" + "  " == "21 22 23 24 25 26 27  "
  {
  }

  lemma Block29MonLine3(days: nat, w: nat)
    requires days == 29 && w == 1
    ensures LineText(days, w, 3) == "21 22 23 24 25 26 27  "
  {
    Block29MonLine3Text();
    Days21To27(7 * 3 - w + 1, 7 * 3 - w + 7);
    InteriorLineIs(days, w, 3, "21 22 23 24 25 26 27", "21 22 23 24 25 26 27  ");
  }

  lemma Block29MonLine4Text()
    ensures "28 29" + "               " + "  " == "28 29                 "
  {
  }

  lemma Block29MonLine4(days: nat, w: nat)
    requires days == 29 && w == 1
    ensures LineText(days, w, 4) == "28 29                 "
  {
    Block29MonLine4Text();
    Days28To29(7 * (RowCount(days, w) - 1) - w + 1, days);
    Spaces15(WIDTH - |"28 29"|);
    LastLineIs(days, w, "28 29", "               ", "28 29                 ");
  }

  /** The week block of a 29-day month whose 1st is a Monday. */
  lemma Block29Mon(days: nat, w: nat)
    requires days == 29 && w == 1
    ensures WeekLines(GridRows(days, w)) == [
      "    1  2  3  4  5  6  ",
      " 7  8  9 10 11 12 13  ",
      "14 15 16 17 18 19 20  ",
      "21 22 23 24 25 26 27  ",
      "28 29                 "
    ]
  {
    Block29MonLine0(days, w);
    LineIsText(days, w, 0);
    Block29MonLine1(days, w);
    LineIsText(days, w, 1);
    Block29MonLine2(days, w);
    LineIsText(days, w, 2);
    Block29MonLine3(days, w);
    LineIsText(days, w, 3);
    Block29MonLine4(days, w);
    LineIsText(days, w, 4);
    Listed5(WeekLines(GridRows(days, w)), "    1  2  3  4  5  6  ", " 7  8  9 10 11 12 13  ", "14 15 16 17 18 19 20  ", "21 22 23 24 25 26 27  ", "28 29                 ");
  }

  /** January 2016 starts on a Friday; the step towards February 2016. */
  lemma January2016First()
    ensures New(2016, 1).Some?
    ensures WeekdayForFirst(New(2016, 1).value) == Fri
  {
  }

  lemma January2019First()
    ensures New(2019, 1).Some?
    ensures WeekdayForFirst(New(2019, 1).value) == Tue
  {
  }

  lemma January2019Days()
    ensures New(2019, 1).Some?
    ensures NumDaysInMonth(New(2019, 1).value) == 31
  {
  }

  lemma January2019Centered()
    ensures Center("January" + " " + "2019", WIDTH) + TRAILING_SPACE == "    January 2019      "
  {
    var s := "January" + " " + "2019";
    assert s == "January 2019";
    CenterBy(s, "    ", "    ");
  }

  lemma January2019Name()
    ensures New(2019, 1).Some?
    ensures MonthName(New(2019, 1).value) == "January"
  {
  }

  lemma January2019Header()
    ensures New(2019, 1).Some?
    ensures HeaderLine(New(2019, 1).value) == "    January 2019      "
  {
    var m := New(2019, 1).value;
    January2019Name();
    January2019Centered();
    Year2019(Year(m));
    HeaderIs(m, "January", "2019", "    January 2019      ");
  }

  lemma January2019Lines()
    ensures New(2019, 1).Some?
    ensures MonthLines(New(2019, 1).value) == [
      "    January 2019      ",
      "Su Mo Tu We Th Fr Sa  ",
      "       1  2  3  4  5  ",
      " 6  7  8  9 10 11 12  ",
      "13 14 15 16 17 18 19  ",
      "20 21 22 23 24 25 26  ",
      "27 28 29 30 31        "
    ]
  {
    var m := New(2019, 1).value;
    January2019First();
    January2019Days();
    Block31Tue(NumDaysInMonth(m), NumDaysFromSunday(WeekdayForFirst(m)));
    January2019Header();
    WeekdayHeaderLine();
    MonthLines5(m, "    January 2019      ", "Su Mo Tu We Th Fr Sa  ", "       1  2  3  4  5  ", " 6  7  8  9 10 11 12  ", "13 14 15 16 17 18 19  ", "20 21 22 23 24 25 26  ", "27 28 29 30 31        ");
  }

  /** January 2019 as the calendar prints it. */
  lemma January2019()
    ensures New(2019, 1).Some?
    ensures MonthText(New(2019, 1).value) == Lines([
      "    January 2019      ",
      "Su Mo Tu We Th Fr Sa  ",
      "       1  2  3  4  5  ",
      " 6  7  8  9 10 11 12  ",
      "13 14 15 16 17 18 19  ",
      "20 21 22 23 24 25 26  ",
      "27 28 29 30 31        "
    ])
  {
    January2019Lines();
    TextOfLines(New(2019, 1).value, [
        "    January 2019      ",
        "Su Mo Tu We Th Fr Sa  ",
        "       1  2  3  4  5  ",
        " 6  7  8  9 10 11 12  ",
        "13 14 15 16 17 18 19  ",
        "20 21 22 23 24 25 26  ",
        "27 28 29 30 31        "
      ]);
  }

  lemma February2019First()
    ensures New(2019, 2).Some?
    ensures WeekdayForFirst(New(2019, 2).value) == Fri
  {
    January2019First();
    NextFirstWeekday(2019, 1);
    SundayIndexDetermines(WeekdayForFirst(New(2019, 2).value), Fri);
  }

  lemma February2019Days()
    ensures New(2019, 2).Some?
    ensures NumDaysInMonth(New(2019, 2).value) == 28
  {
  }

  lemma February2019Centered()
    ensures Center("February" + " " + "2019", WIDTH) + TRAILING_SPACE == "   February 2019      "
  {
    var s := "February" + " " + "2019";
    assert s == "February 2019";
    CenterBy(s, "   ", "    ");
  }

  lemma February2019Name()
    ensures New(2019, 2).Some?
    ensures MonthName(New(2019, 2).value) == "February"
  {
  }

  lemma February2019Header()
    ensures New(2019, 2).Some?
    ensures HeaderLine(New(2019, 2).value) == "   February 2019      "
  {
    var m := New(2019, 2).value;
    February2019Name();
    February2019Centered();
    Year2019(Year(m));
    HeaderIs(m, "February", "2019", "   February 2019      ");
  }

  lemma February2019Lines()
    ensures New(2019, 2).Some?
    ensures MonthLines(New(2019, 2).value) == [
      "   February 2019      ",
      "Su Mo Tu We Th Fr Sa  ",
      "                1  2  ",
      " 3  4  5  6  7  8  9  ",
      "10 11 12 13 14 15 16  ",
      "17 18 19 20 21 22 23  ",
      "24 25 26 27 28        "
    ]
  {
    var m := New(2019, 2).value;
    February2019First();
    February2019Days();
    Block28Fri(NumDaysInMonth(m), NumDaysFromSunday(WeekdayForFirst(m)));
    February2019Header();
    WeekdayHeaderLine();
    MonthLines5(m, "   February 2019      ", "Su Mo Tu We Th Fr Sa  ", "                1  2  ", " 3  4  5  6  7  8  9  ", "10 11 12 13 14 15 16  ", "17 18 19 20 21 22 23  ", "24 25 26 27 28        ");
  }

  /** February 2019 as the calendar prints it. */
  lemma February2019()
    ensures New(2019, 2).Some?
    ensures MonthText(New(2019, 2).value) == Lines([
      "   February 2019      ",
      "Su Mo Tu We Th Fr Sa  ",
      "                1  2  ",
      " 3  4  5  6  7  8  9  ",
      "10 11 12 13 14 15 16  ",
      "17 18 19 20 21 22 23  ",
      "24 25 26 27 28        "
    ])
  {
    February2019Lines();
    TextOfLines(New(2019, 2).value, [
        "   February 2019      ",
        "Su Mo Tu We Th Fr Sa  ",
        "                1  2  ",
        " 3  4  5  6  7  8  9  ",
        "10 11 12 13 14 15 16  ",
        "17 18 19 20 21 22 23  ",
        "24 25 26 27 28        "
      ]);
  }

  lemma March2019First()
    ensures New(2019, 3).Some?
    ensures WeekdayForFirst(New(2019, 3).value) == Fri
  {
    February2019First();
    NextFirstWeekday(2019, 2);
    SundayIndexDetermines(WeekdayForFirst(New(2019, 3).value), Fri);
  }

  lemma March2019Days()
    ensures New(2019, 3).Some?
    ensures NumDaysInMonth(New(2019, 3).value) == 31
  {
  }

  lemma March2019Centered()
    ensures Center("March" + " " + "2019", WIDTH) + TRAILING_SPACE == "     March 2019       "
  {
    var s := "March" + " " + "2019";
    assert s == "March 2019";
    CenterBy(s, "     ", "     ");
  }

  lemma March2019Name()
    ensures New(2019, 3).Some?
    ensures MonthName(New(2019, 3).value) == "March"
  {
  }

  lemma March2019Header()
    ensures New(2019, 3).Some?
    ensures HeaderLine(New(2019, 3).value) == "     March 2019       "
  {
    var m := New(2019, 3).value;
    March2019Name();
    March2019Centered();
    Year2019(Year(m));
    HeaderIs(m, "March", "2019", "     March 2019       ");
  }

  lemma March2019Lines()
    ensures New(2019, 3).Some?
    ensures MonthLines(New(2019, 3).value) == [
      "     March 2019       ",
      "Su Mo Tu We Th Fr Sa  ",
      "                1  2  ",
      " 3  4  5  6  7  8  9  ",
      "10 11 12 13 14 15 16  ",
      "17 18 19 20 21 22 23  ",
      "24 25 26 27 28 29 30  ",
      "31                    "
    ]
  {
    var m := New(2019, 3).value;
    March2019First();
    March2019Days();
    Block31Fri(NumDaysInMonth(m), NumDaysFromSunday(WeekdayForFirst(m)));
    March2019Header();
    WeekdayHeaderLine();
    MonthLines6(m, "     March 2019       ", "Su Mo Tu We Th Fr Sa  ", "                1  2  ", " 3  4  5  6  7  8  9  ", "10 11 12 13 14 15 16  ", "17 18 19 20 21 22 23  ", "24 25 26 27 28 29 30  ", "31                    ");
  }

  /** March 2019 as the calendar prints it. */
  lemma March2019()
    ensures New(2019, 3).Some?
    ensures MonthText(New(2019, 3).value) == Lines([
      "     March 2019       ",
      "Su Mo Tu We Th Fr Sa  ",
      "                1  2  ",
      " 3  4  5  6  7  8  9  ",
      "10 11 12 13 14 15 16  ",
      "17 18 19 20 21 22 23  ",
      "24 25 26 27 28 29 30  ",
      "31                    "
    ])
  {
    March2019Lines();
    TextOfLines(New(2019, 3).value, [
        "     March 2019       ",
        "Su Mo Tu We Th Fr Sa  ",
        "                1  2  ",
        " 3  4  5  6  7  8  9  ",
        "10 11 12 13 14 15 16  ",
        "17 18 19 20 21 22 23  ",
        "24 25 26 27 28 29 30  ",
        "31                    "
      ]);
  }

  lemma April2019First()
    ensures New(2019, 4).Some?
    ensures WeekdayForFirst(New(2019, 4).value) == Mon
  {
    March2019First();
    NextFirstWeekday(2019, 3);
    SundayIndexDetermines(WeekdayForFirst(New(2019, 4).value), Mon);
  }

  lemma April2019Days()
    ensures New(2019, 4).Some?
    ensures NumDaysInMonth(New(2019, 4).value) == 30
  {
  }

  lemma April2019Centered()
    ensures Center("April" + " " + "2019", WIDTH) + TRAILING_SPACE == "     April 2019       "
  {
    var s := "April" + " " + "2019";
    assert s == "April 2019";
    CenterBy(s, "     ", "     ");
  }

  lemma April2019Name()
    ensures New(2019, 4).Some?
    ensures MonthName(New(2019, 4).value) == "April"
  {
  }

  lemma April2019Header()
    ensures New(2019, 4).Some?
    ensures HeaderLine(New(2019, 4).value) == "     April 2019       "
  {
    var m := New(2019, 4).value;
    April2019Name();
    April2019Centered();
    Year2019(Year(m));
    HeaderIs(m, "April", "2019", "     April 2019       ");
  }

  lemma April2019Lines()
    ensures New(2019, 4).Some?
    ensures MonthLines(New(2019, 4).value) == [
      "     April 2019       ",
      "Su Mo Tu We Th Fr Sa  ",
      "    1  2  3  4  5  6  ",
      " 7  8  9 10 11 12 13  ",
      "14 15 16 17 18 19 20  ",
      "21 22 23 24 25 26 27  ",
      "28 29 30              "
    ]
  {
    var m := New(2019, 4).value;
    April2019First();
    April2019Days();
    Block30Mon(NumDaysInMonth(m), NumDaysFromSunday(WeekdayForFirst(m)));
    April2019Header();
    WeekdayHeaderLine();
    MonthLines5(m, "     April 2019       ", "Su Mo Tu We Th Fr Sa  ", "    1  2  3  4  5  6  ", " 7  8  9 10 11 12 13  ", "14 15 16 17 18 19 20  ", "21 22 23 24 25 26 27  ", "28 29 30              ");
  }

  /** April 2019 as the calendar prints it. */
  lemma April2019()
    ensures New(2019, 4).Some?
    ensures MonthText(New(2019, 4).value) == Lines([
      "     April 2019       ",
      "Su Mo Tu We Th Fr Sa  ",
      "    1  2  3  4  5  6  ",
      " 7  8  9 10 11 12 13  ",
      "14 15 16 17 18 19 20  ",
      "21 22 23 24 25 26 27  ",
      "28 29 30              "
    ])
  {
    April2019Lines();
    TextOfLines(New(2019, 4).value, [
        "     April 2019       ",
        "Su Mo Tu We Th Fr Sa  ",
        "    1  2  3  4  5  6  ",
        " 7  8  9 10 11 12 13  ",
        "14 15 16 17 18 19 20  ",
        "21 22 23 24 25 26 27  ",
        "28 29 30              "
      ]);
  }

  lemma May2019First()
    ensures New(2019, 5).Some?
    ensures WeekdayForFirst(New(2019, 5).value) == Wed
  {
    April2019First();
    NextFirstWeekday(2019, 4);
    SundayIndexDetermines(WeekdayForFirst(New(2019, 5).value), Wed);
  }

  lemma May2019Days()
    ensures New(2019, 5).Some?
    ensures NumDaysInMonth(New(2019, 5).value) == 31
  {
  }

  lemma May2019Centered()
    ensures Center("May" + " " + "2019", WIDTH) + TRAILING_SPACE == "      May 2019        "
  {
    var s := "May" + " " + "2019";
    assert s == "May 2019";
    CenterBy(s, "      ", "      ");
  }

  lemma May2019Name()
    ensures New(2019, 5).Some?
    ensures MonthName(New(2019, 5).value) == "May"
  {
  }

  lemma May2019Header()
    ensures New(2019, 5).Some?
    ensures HeaderLine(New(2019, 5).value) == "      May 2019        "
  {
    var m := New(2019, 5).value;
    May2019Name();
    May2019Centered();
    Year2019(Year(m));
    HeaderIs(m, "May", "2019", "      May 2019        ");
  }

  lemma May2019Lines()
    ensures New(2019, 5).Some?
    ensures MonthLines(New(2019, 5).value) == [
      "      May 2019        ",
      "Su Mo Tu We Th Fr Sa  ",
      "          1  2  3  4  ",
      " 5  6  7  8  9 10 11  ",
      "12 13 14 15 16 17 18  ",
      "19 20 21 22 23 24 25  ",
      "26 27 28 29 30 31     "
    ]
  {
    var m := New(2019, 5).value;
    May2019First();
    May2019Days();
    Block31Wed(NumDaysInMonth(m), NumDaysFromSunday(WeekdayForFirst(m)));
    May2019Header();
    WeekdayHeaderLine();
    MonthLines5(m, "      May 2019        ", "Su Mo Tu We Th Fr Sa  ", "          1  2  3  4  ", " 5  6  7  8  9 10 11  ", "12 13 14 15 16 17 18  ", "19 20 21 22 23 24 25  ", "26 27 28 29 30 31     ");
  }

  /** May 2019 as the calendar prints it. */
  lemma May2019()
    ensures New(2019, 5).Some?
    ensures MonthText(New(2019, 5).value) == Lines([
      "      May 2019        ",
      "Su Mo Tu We Th Fr Sa  ",
      "          1  2  3  4  ",
      " 5  6  7  8  9 10 11  ",
      "12 13 14 15 16 17 18  ",
      "19 20 21 22 23 24 25  ",
      "26 27 28 29 30 31     "
    ])
  {
    May2019Lines();
    TextOfLines(New(2019, 5).value, [
        "      May 2019        ",
        "Su Mo Tu We Th Fr Sa  ",
        "          1  2  3  4  ",
        " 5  6  7  8  9 10 11  ",
        "12 13 14 15 16 17 18  ",
        "19 20 21 22 23 24 25  ",
        "26 27 28 29 30 31     "
      ]);
  }

  lemma June2019First()
    ensures New(2019, 6).Some?
    ensures WeekdayForFirst(New(2019, 6).value) == Sat
  {
    May2019First();
    NextFirstWeekday(2019, 5);
    SundayIndexDetermines(WeekdayForFirst(New(2019, 6).value), Sat);
  }

  lemma June2019Days()
    ensures New(2019, 6).Some?
    ensures NumDaysInMonth(New(2019, 6).value) == 30
  {
  }

  lemma June2019Centered()
    ensures Center("June" + " " + "2019", WIDTH) + TRAILING_SPACE == "     June 2019        "
  {
    var s := "June" + " " + "2019";
    assert s == "June 2019";
    CenterBy(s, "     ", "      ");
  }

  lemma June2019Name()
    ensures New(2019, 6).Some?
    ensures MonthName(New(2019, 6).value) == "June"
  {
  }

  lemma June2019Header()
    ensures New(2019, 6).Some?
    ensures HeaderLine(New(2019, 6).value) == "     June 2019        "
  {
    var m := New(2019, 6).value;
    June2019Name();
    June2019Centered();
    Year2019(Year(m));
    HeaderIs(m, "June", "2019", "     June 2019        ");
  }

  lemma June2019Lines()
    ensures New(2019, 6).Some?
    ensures MonthLines(New(2019, 6).value) == [
      "     June 2019        ",
      "Su Mo Tu We Th Fr Sa  ",
      "                   1  ",
      " 2  3  4  5  6  7  8  ",
      " 9 10 11 12 13 14 15  ",
      "16 17 18 19 20 21 22  ",
      "23 24 25 26 27 28 29  ",
      "30                    "
    ]
  {
    var m := New(2019, 6).value;
    June2019First();
    June2019Days();
    Block30Sat(NumDaysInMonth(m), NumDaysFromSunday(WeekdayForFirst(m)));
    June2019Header();
    WeekdayHeaderLine();
    MonthLines6(m, "     June 2019        ", "Su Mo Tu We Th Fr Sa  ", "                   1  ", " 2  3  4  5  6  7  8  ", " 9 10 11 12 13 14 15  ", "16 17 18 19 20 21 22  ", "23 24 25 26 27 28 29  ", "30                    ");
  }

  /** June 2019 as the calendar prints it. */
  lemma June2019()
    ensures New(2019, 6).Some?
    ensures MonthText(New(2019, 6).value) == Lines([
      "     June 2019        ",
      "Su Mo Tu We Th Fr Sa  ",
      "                   1  ",
      " 2  3  4  5  6  7  8  ",
      " 9 10 11 12 13 14 15  ",
      "16 17 18 19 20 21 22  ",
      "23 24 25 26 27 28 29  ",
      "30                    "
    ])
  {
    June2019Lines();
    TextOfLines(New(2019, 6).value, [
        "     June 2019        ",
        "Su Mo Tu We Th Fr Sa  ",
        "                   1  ",
        " 2  3  4  5  6  7  8  ",
        " 9 10 11 12 13 14 15  ",
        "16 17 18 19 20 21 22  ",
        "23 24 25 26 27 28 29  ",
        "30                    "
      ]);
  }

  lemma July2019First()
    ensures New(2019, 7).Some?
    ensures WeekdayForFirst(New(2019, 7).value) == Mon
  {
    June2019First();
    NextFirstWeekday(2019, 6);
    SundayIndexDetermines(WeekdayForFirst(New(2019, 7).value), Mon);
  }

  lemma July2019Days()
    ensures New(2019, 7).Some?
    ensures NumDaysInMonth(New(2019, 7).value) == 31
  {
  }

  lemma July2019Centered()
    ensures Center("July" + " " + "2019", WIDTH) + TRAILING_SPACE == "     July 2019        "
  {
    var s := "July" + " " + "2019";
    assert s == "July 2019";
    CenterBy(s, "     ", "      ");
  }

  lemma July2019Name()
    ensures New(2019, 7).Some?
    ensures MonthName(New(2019, 7).value) == "July"
  {
  }

  lemma July2019Header()
    ensures New(2019, 7).Some?
    ensures HeaderLine(New(2019, 7).value) == "     July 2019        "
  {
    var m := New(2019, 7).value;
    July2019Name();
    July2019Centered();
    Year2019(Year(m));
    HeaderIs(m, "July", "2019", "     July 2019        ");
  }

  lemma July2019Lines()
    ensures New(2019, 7).Some?
    ensures MonthLines(New(2019, 7).value) == [
      "     July 2019        ",
      "Su Mo Tu We Th Fr Sa  ",
      "    1  2  3  4  5  6  ",
      " 7  8  9 10 11 12 13  ",
      "14 15 16 17 18 19 20  ",
      "21 22 23 24 25 26 27  ",
      "28 29 30 31           "
    ]
  {
    var m := New(2019, 7).value;
    July2019First();
    July2019Days();
    Block31Mon(NumDaysInMonth(m), NumDaysFromSunday(WeekdayForFirst(m)));
    July2019Header();
    WeekdayHeaderLine();
    MonthLines5(m, "     July 2019        ", "Su Mo Tu We Th Fr Sa  ", "    1  2  3  4  5  6  ", " 7  8  9 10 11 12 13  ", "14 15 16 17 18 19 20  ", "21 22 23 24 25 26 27  ", "28 29 30 31           ");
  }

  /** July 2019 as the calendar prints it. */
  lemma July2019()
    ensures New(2019, 7).Some?
    ensures MonthText(New(2019, 7).value) == Lines([
      "     July 2019        ",
      "Su Mo Tu We Th Fr Sa  ",
      "    1  2  3  4  5  6  ",
      " 7  8  9 10 11 12 13  ",
      "14 15 16 17 18 19 20  ",
      "21 22 23 24 25 26 27  ",
      "28 29 30 31           "
    ])
  {
    July2019Lines();
    TextOfLines(New(2019, 7).value, [
        "     July 2019        ",
        "Su Mo Tu We Th Fr Sa  ",
        "    1  2  3  4  5  6  ",
        " 7  8  9 10 11 12 13  ",
        "14 15 16 17 18 19 20  ",
        "21 22 23 24 25 26 27  ",
        "28 29 30 31           "
      ]);
  }

  lemma August2019First()
    ensures New(2019, 8).Some?
    ensures WeekdayForFirst(New(2019, 8).value) == Thu
  {
    July2019First();
    NextFirstWeekday(2019, 7);
    SundayIndexDetermines(WeekdayForFirst(New(2019, 8).value), Thu);
  }

  lemma August2019Days()
    ensures New(2019, 8).Some?
    ensures NumDaysInMonth(New(2019, 8).value) == 31
  {
  }

  lemma August2019Centered()
    ensures Center("August" + " " + "2019", WIDTH) + TRAILING_SPACE == "    August 2019       "
  {
    var s := "August" + " " + "2019";
    assert s == "August 2019";
    CenterBy(s, "    ", "     ");
  }

  lemma August2019Name()
    ensures New(2019, 8).Some?
    ensures MonthName(New(2019, 8).value) == "August"
  {
  }

  lemma August2019Header()
    ensures New(2019, 8).Some?
    ensures HeaderLine(New(2019, 8).value) == "    August 2019       "
  {
    var m := New(2019, 8).value;
    August2019Name();
    August2019Centered();
    Year2019(Year(m));
    HeaderIs(m, "August", "2019", "    August 2019       ");
  }

  lemma August2019Lines()
    ensures New(2019, 8).Some?
    ensures MonthLines(New(2019, 8).value) == [
      "    August 2019       ",
      "Su Mo Tu We Th Fr Sa  ",
      "             1  2  3  ",
      " 4  5  6  7  8  9 10  ",
      "11 12 13 14 15 16 17  ",
      "18 19 20 21 22 23 24  ",
      "25 26 27 28 29 30 31  "
    ]
  {
    var m := New(2019, 8).value;
    August2019First();
    August2019Days();
    Block31Thu(NumDaysInMonth(m), NumDaysFromSunday(WeekdayForFirst(m)));
    August2019Header();
    WeekdayHeaderLine();
    MonthLines5(m, "    August 2019       ", "Su Mo Tu We Th Fr Sa  ", "             1  2  3  ", " 4  5  6  7  8  9 10  ", "11 12 13 14 15 16 17  ", "18 19 20 21 22 23 24  ", "25 26 27 28 29 30 31  ");
  }

  /** August 2019 as the calendar prints it. */
  lemma August2019()
    ensures New(2019, 8).Some?
    ensures MonthText(New(2019, 8).value) == Lines([
      "    August 2019       ",
      "Su Mo Tu We Th Fr Sa  ",
      "             1  2  3  ",
      " 4  5  6  7  8  9 10  ",
      "11 12 13 14 15 16 17  ",
      "18 19 20 21 22 23 24  ",
      "25 26 27 28 29 30 31  "
    ])
  {
    August2019Lines();
    TextOfLines(New(2019, 8).value, [
        "    August 2019       ",
        "Su Mo Tu We Th Fr Sa  ",
        "             1  2  3  ",
        " 4  5  6  7  8  9 10  ",
        "11 12 13 14 15 16 17  ",
        "18 19 20 21 22 23 24  ",
        "25 26 27 28 29 30 31  "
      ]);
  }

  lemma September2019First()
    ensures New(2019, 9).Some?
    ensures WeekdayForFirst(New(2019, 9).value) == Sun
  {
    August2019First();
    NextFirstWeekday(2019, 8);
    SundayIndexDetermines(WeekdayForFirst(New(2019, 9).value), Sun);
  }

  lemma September2019Days()
    ensures New(2019, 9).Some?
    ensures NumDaysInMonth(New(2019, 9).value) == 30
  {
  }

  lemma September2019Centered()
    ensures Center("September" + " " + "2019", WIDTH) + TRAILING_SPACE == "   September 2019     "
  {
    var s := "September" + " " + "2019";
    assert s == "September 2019";
    CenterBy(s, "   ", "   ");
  }

  lemma September2019Name()
    ensures New(2019, 9).Some?
    ensures MonthName(New(2019, 9).value) == "September"
  {
  }

  lemma September2019Header()
    ensures New(2019, 9).Some?
    ensures HeaderLine(New(2019, 9).value) == "   September 2019     "
  {
    var m := New(2019, 9).value;
    September2019Name();
    September2019Centered();
    Year2019(Year(m));
    HeaderIs(m, "September", "2019", "   September 2019     ");
  }

  lemma September2019Lines()
    ensures New(2019, 9).Some?
    ensures MonthLines(New(2019, 9).value) == [
      "   September 2019     ",
      "Su Mo Tu We Th Fr Sa  ",
      " 1  2  3  4  5  6  7  ",
      " 8  9 10 11 12 13 14  ",
      "15 16 17 18 19 20 21  ",
      "22 23 24 25 26 27 28  ",
      "29 30                 "
    ]
  {
    var m := New(2019, 9).value;
    September2019First();
    September2019Days();
    Block30Sun(NumDaysInMonth(m), NumDaysFromSunday(WeekdayForFirst(m)));
    September2019Header();
    WeekdayHeaderLine();
    MonthLines5(m, "   September 2019     ", "Su Mo Tu We Th Fr Sa  ", " 1  2  3  4  5  6  7  ", " 8  9 10 11 12 13 14  ", "15 16 17 18 19 20 21  ", "22 23 24 25 26 27 28  ", "29 30                 ");
  }

  /** September 2019 as the calendar prints it. */
  lemma September2019()
    ensures New(2019, 9).Some?
    ensures MonthText(New(2019, 9).value) == Lines([
      "   September 2019     ",
      "Su Mo Tu We Th Fr Sa  ",
      " 1  2  3  4  5  6  7  ",
      " 8  9 10 11 12 13 14  ",
      "15 16 17 18 19 20 21  ",
      "22 23 24 25 26 27 28  ",
      "29 30                 "
    ])
  {
    September2019Lines();
    TextOfLines(New(2019, 9).value, [
        "   September 2019     ",
        "Su Mo Tu We Th Fr Sa  ",
        " 1  2  3  4  5  6  7  ",
        " 8  9 10 11 12 13 14  ",
        "15 16 17 18 19 20 21  ",
        "22 23 24 25 26 27 28  ",
        "29 30                 "
      ]);
  }

  lemma October2019First()
    ensures New(2019, 10).Some?
    ensures WeekdayForFirst(New(2019, 10).value) == Tue
  {
    September2019First();
    NextFirstWeekday(2019, 9);
    SundayIndexDetermines(WeekdayForFirst(New(2019, 10).value), Tue);
  }

  lemma October2019Days()
    ensures New(2019, 10).Some?
    ensures NumDaysInMonth(New(2019, 10).value) == 31
  {
  }

  lemma October2019Centered()
    ensures Center("October" + " " + "2019", WIDTH) + TRAILING_SPACE == "    October 2019      "
  {
    var s := "October" + " " + "2019";
    assert s == "October 2019";
    CenterBy(s, "    ", "    ");
  }

  lemma October2019Name()
    ensures New(2019, 10).Some?
    ensures MonthName(New(2019, 10).value) == "October"
  {
  }

  lemma October2019Header()
    ensures New(2019, 10).Some?
    ensures HeaderLine(New(2019, 10).value) == "    October 2019      "
  {
    var m := New(2019, 10).value;
    October2019Name();
    October2019Centered();
    Year2019(Year(m));
    HeaderIs(m, "October", "2019", "    October 2019      ");
  }

  lemma October2019Lines()
    ensures New(2019, 10).Some?
    ensures MonthLines(New(2019, 10).value) == [
      "    October 2019      ",
      "Su Mo Tu We Th Fr Sa  ",
      "       1  2  3  4  5  ",
      " 6  7  8  9 10 11 12  ",
      "13 14 15 16 17 18 19  ",
      "20 21 22 23 24 25 26  ",
      "27 28 29 30 31        "
    ]
  {
    var m := New(2019, 10).value;
    October2019First();
    October2019Days();
    Block31Tue(NumDaysInMonth(m), NumDaysFromSunday(WeekdayForFirst(m)));
    October2019Header();
    WeekdayHeaderLine();
    MonthLines5(m, "    October 2019      ", "Su Mo Tu We Th Fr Sa  ", "       1  2  3  4  5  ", " 6  7  8  9 10 11 12  ", "13 14 15 16 17 18 19  ", "20 21 22 23 24 25 26  ", "27 28 29 30 31        ");
  }

  /** October 2019 as the calendar prints it. */
  lemma October2019()
    ensures New(2019, 10).Some?
    ensures MonthText(New(2019, 10).value) == Lines([
      "    October 2019      ",
      "Su Mo Tu We Th Fr Sa  ",
      "       1  2  3  4  5  ",
      " 6  7  8  9 10 11 12  ",
      "13 14 15 16 17 18 19  ",
      "20 21 22 23 24 25 26  ",
      "27 28 29 30 31        "
    ])
  {
    October2019Lines();
    TextOfLines(New(2019, 10).value, [
        "    October 2019      ",
        "Su Mo Tu We Th Fr Sa  ",
        "       1  2  3  4  5  ",
        " 6  7  8  9 10 11 12  ",
        "13 14 15 16 17 18 19  ",
        "20 21 22 23 24 25 26  ",
        "27 28 29 30 31        "
      ]);
  }

  lemma November2019First()
    ensures New(2019, 11).Some?
    ensures WeekdayForFirst(New(2019, 11).value) == Fri
  {
    October2019First();
    NextFirstWeekday(2019, 10);
    SundayIndexDetermines(WeekdayForFirst(New(2019, 11).value), Fri);
  }

  lemma November2019Days()
    ensures New(2019, 11).Some?
    ensures NumDaysInMonth(New(2019, 11).value) == 30
  {
  }

  lemma November2019Centered()
    ensures Center("November" + " " + "2019", WIDTH) + TRAILING_SPACE == "   November 2019      "
  {
    var s := "November" + " " + "2019";
    assert s == "November 2019";
    CenterBy(s, "   ", "    ");
  }

  lemma November2019Name()
    ensures New(2019, 11).Some?
    ensures MonthName(New(2019, 11).value) == "November"
  {
  }

  lemma November2019Header()
    ensures New(2019, 11).Some?
    ensures HeaderLine(New(2019, 11).value) == "   November 2019      "
  {
    var m := New(2019, 11).value;
    November2019Name();
    November2019Centered();
    Year2019(Year(m));
    HeaderIs(m, "November", "2019", "   November 2019      ");
  }

  lemma November2019Lines()
    ensures New(2019, 11).Some?
    ensures MonthLines(New(2019, 11).value) == [
      "   November 2019      ",
      "Su Mo Tu We Th Fr Sa  ",
      "                1  2  ",
      " 3  4  5  6  7  8  9  ",
      "10 11 12 13 14 15 16  ",
      "17 18 19 20 21 22 23  ",
      "24 25 26 27 28 29 30  "
    ]
  {
    var m := New(2019, 11).value;
    November2019First();
    November2019Days();
    Block30Fri(NumDaysInMonth(m), NumDaysFromSunday(WeekdayForFirst(m)));
    November2019Header();
    WeekdayHeaderLine();
    MonthLines5(m, "   November 2019      ", "Su Mo Tu We Th Fr Sa  ", "                1  2  ", " 3  4  5  6  7  8  9  ", "10 11 12 13 14 15 16  ", "17 18 19 20 21 22 23  ", "24 25 26 27 28 29 30  ");
  }

  /** November 2019 as the calendar prints it. */
  lemma November2019()
    ensures New(2019, 11).Some?
    ensures MonthText(New(2019, 11).value) == Lines([
      "   November 2019      ",
      "Su Mo Tu We Th Fr Sa  ",
      "                1  2  ",
      " 3  4  5  6  7  8  9  ",
      "10 11 12 13 14 15 16  ",
      "17 18 19 20 21 22 23  ",
      "24 25 26 27 28 29 30  "
    ])
  {
    November2019Lines();
    TextOfLines(New(2019, 11).value, [
        "   November 2019      ",
        "Su Mo Tu We Th Fr Sa  ",
        "                1  2  ",
        " 3  4  5  6  7  8  9  ",
        "10 11 12 13 14 15 16  ",
        "17 18 19 20 21 22 23  ",
        "24 25 26 27 28 29 30  "
      ]);
  }

  lemma December2019First()
    ensures New(2019, 12).Some?
    ensures WeekdayForFirst(New(2019, 12).value) == Sun
  {
    November2019First();
    NextFirstWeekday(2019, 11);
    SundayIndexDetermines(WeekdayForFirst(New(2019, 12).value), Sun);
  }

  lemma December2019Days()
    ensures New(2019, 12).Some?
    ensures NumDaysInMonth(New(2019, 12).value) == 31
  {
  }

  lemma December2019Centered()
    ensures Center("December" + " " + "2019", WIDTH) + TRAILING_SPACE == "   December 2019      "
  {
    var s := "December" + " " + "2019";
    assert s == "December 2019";
    CenterBy(s, "   ", "    ");
  }

  lemma December2019Name()
    ensures New(2019, 12).Some?
    ensures MonthName(New(2019, 12).value) == "December"
  {
  }

  lemma December2019Header()
    ensures New(2019, 12).Some?
    ensures HeaderLine(New(2019, 12).value) == "   December 2019      "
  {
    var m := New(2019, 12).value;
    December2019Name();
    December2019Centered();
    Year2019(Year(m));
    HeaderIs(m, "December", "2019", "   December 2019      ");
  }

  lemma December2019Lines()
    ensures New(2019, 12).Some?
    ensures MonthLines(New(2019, 12).value) == [
      "   December 2019      ",
      "Su Mo Tu We Th Fr Sa  ",
      " 1  2  3  4  5  6  7  ",
      " 8  9 10 11 12 13 14  ",
      "15 16 17 18 19 20 21  ",
      "22 23 24 25 26 27 28  ",
      "29 30 31              "
    ]
  {
    var m := New(2019, 12).value;
    December2019First();
    December2019Days();
    Block31Sun(NumDaysInMonth(m), NumDaysFromSunday(WeekdayForFirst(m)));
    December2019Header();
    WeekdayHeaderLine();
    MonthLines5(m, "   December 2019      ", "Su Mo Tu We Th Fr Sa  ", " 1  2  3  4  5  6  7  ", " 8  9 10 11 12 13 14  ", "15 16 17 18 19 20 21  ", "22 23 24 25 26 27 28  ", "29 30 31              ");
  }

  /** December 2019 as the calendar prints it. */
  lemma December2019()
    ensures New(2019, 12).Some?
    ensures MonthText(New(2019, 12).value) == Lines([
      "   December 2019      ",
      "Su Mo Tu We Th Fr Sa  ",
      " 1  2  3  4  5  6  7  ",
      " 8  9 10 11 12 13 14  ",
      "15 16 17 18 19 20 21  ",
      "22 23 24 25 26 27 28  ",
      "29 30 31              "
    ])
  {
    December2019Lines();
    TextOfLines(New(2019, 12).value, [
        "   December 2019      ",
        "Su Mo Tu We Th Fr Sa  ",
        " 1  2  3  4  5  6  7  ",
        " 8  9 10 11 12 13 14  ",
        "15 16 17 18 19 20 21  ",
        "22 23 24 25 26 27 28  ",
        "29 30 31              "
      ]);
  }

  lemma February2016First()
    ensures New(2016, 2).Some?
    ensures WeekdayForFirst(New(2016, 2).value) == Mon
  {
    January2016First();
    NextFirstWeekday(2016, 1);
    SundayIndexDetermines(WeekdayForFirst(New(2016, 2).value), Mon);
  }

  lemma February2016Days()
    ensures New(2016, 2).Some?
    ensures NumDaysInMonth(New(2016, 2).value) == 29
  {
  }

  lemma February2016Centered()
    ensures Center("February" + " " + "2016", WIDTH) + TRAILING_SPACE == "   February 2016      "
  {
    var s := "February" + " " + "2016";
    assert s == "February 2016";
    CenterBy(s, "   ", "    ");
  }

  lemma February2016Name()
    ensures New(2016, 2).Some?
    ensures MonthName(New(2016, 2).value) == "February"
  {
  }

  lemma February2016Header()
    ensures New(2016, 2).Some?
    ensures HeaderLine(New(2016, 2).value) == "   February 2016      "
  {
    var m := New(2016, 2).value;
    February2016Name();
    February2016Centered();
    Year2016(Year(m));
    HeaderIs(m, "February", "2016", "   February 2016      ");
  }

  lemma February2016Lines()
    ensures New(2016, 2).Some?
    ensures MonthLines(New(2016, 2).value) == [
      "   February 2016      ",
      "Su Mo Tu We Th Fr Sa  ",
      "    1  2  3  4  5  6  ",
      " 7  8  9 10 11 12 13  ",
      "14 15 16 17 18 19 20  ",
      "21 22 23 24 25 26 27  ",
      "28 29                 "
    ]
  {
    var m := New(2016, 2).value;
    February2016First();
    February2016Days();
    Block29Mon(NumDaysInMonth(m), NumDaysFromSunday(WeekdayForFirst(m)));
    February2016Header();
    WeekdayHeaderLine();
    MonthLines5(m, "   February 2016      ", "Su Mo Tu We Th Fr Sa  ", "    1  2  3  4  5  6  ", " 7  8  9 10 11 12 13  ", "14 15 16 17 18 19 20  ", "21 22 23 24 25 26 27  ", "28 29                 ");
  }

  /** February 2016 as the calendar prints it. */
  lemma February2016()
    ensures New(2016, 2).Some?
    ensures MonthText(New(2016, 2).value) == Lines([
      "   February 2016      ",
      "Su Mo Tu We Th Fr Sa  ",
      "    1  2  3  4  5  6  ",
      " 7  8  9 10 11 12 13  ",
      "14 15 16 17 18 19 20  ",
      "21 22 23 24 25 26 27  ",
      "28 29                 "
    ])
  {
    February2016Lines();
    TextOfLines(New(2016, 2).value, [
        "   February 2016      ",
        "Su Mo Tu We Th Fr Sa  ",
        "    1  2  3  4  5  6  ",
        " 7  8  9 10 11 12 13  ",
        "14 15 16 17 18 19 20  ",
        "21 22 23 24 25 26 27  ",
        "28 29                 "
      ]);
  }
}
