# calr: month layout and rendering

This project models the core of `calr`, a small clone of the Unix `cal`
tool. The core has three parts:

- a validated calendar `Month`, held as the date of its 1st;
- the month's day count and the weekday of its 1st;
- the split of the days into Sunday-first week rows, and the exact
  fixed-width text block the month prints as.

For example, January 2019 prints as:

```
    January 2019      
Su Mo Tu We Th Fr Sa  
       1  2  3  4  5  
 6  7  8  9 10 11 12  
...
```

The block has a header centred in 20 columns, then the weekday header,
then one line per week. The first week line is right-aligned to 20
columns and the last one left-aligned. Every line ends with two spaces
and a line break.

The model also covers `MonthGenerator`, an iterator. It yields a month,
then the month after it, and so on. Past the last representable month it
holds `None` for good.

Modules:

- `Calendar` replaces the date library with explicit definitions:
  - the proleptic Gregorian leap-year rule and month lengths;
  - the representable year range, `MIN_YEAR = -262144` to `MAX_YEAR = 262143`;
  - a weekday function that counts days from 0001-01-01, a Monday.
- `Fmt` models decimal rendering of integers and width padding (`{:>w}`,
  `{:<w}`, `{:^w}`, `{:2}`) over ASCII strings, plus `join`.
- `Iters` models the iterator adapters the code calls: `find`, `filter`
  and `nth`.
- `Months` models `src/month.rs`:
  - the pure operations are functions;
  - `layout_weeks` and `weeks` are methods, with the same loops as the
    source;
  - `layout_weeks` is proved equal to a closed-form grid, `GridRows`;
  - `weeks` is proved equal to the lines of that grid.
- `Cal` models `src/cal.rs`, the older copy of the month type used by the
  binary.
  - It shares `Months`' representation and its code for `new`,
    `month_name`, `month_header`, `week` and `weekday_for_first`. The two
    source files hold the same code for these.
  - It has its own `num_days_in_month` (`filter` then `nth(0)`),
    `layout_weeks`, `weeks` and `Display`.
  - It is proved to print exactly what `Months` prints.
- `MonthIter` models `src/month/iter.rs` as a class with a mutable
  `month: Option<Month>` field.
- `Fixtures` states the expected outputs of the tests in `src/month.rs`
  and `src/cal.rs`, and proves that the model produces them:
  - the twelve months of 2019 and February 2016, byte for byte;
  - the rejected years and months;
  - the weekdays and day counts behind those outputs.
- The tests of `src/month/iter.rs` are stated next to the generator, as
  `MonthIter.FebruaryAfterJanuary`, `MonthIter.MarchTwoMonthsAfterJanuary`,
  `MonthIter.JanuaryAfterDecember` and `MonthIter.LastMonth`.

## Model

| member | source | states |
|---|---|---|
| Calendar.DaysInMonth | src/month.rs:121-126 | A month has 28 to 31 days. |
| Calendar.IsLeapYear | src/month.rs:121-126 | The Gregorian leap-year rule as the date library applies it: every leap year is divisible by 4, every year divisible by 400 is a leap year, and a century not divisible by 400 is not. |
| Calendar.DateBeforeNextMonth | src/month.rs:22-25 | `from_ymd_opt(y, m, d)` gives a date exactly when the year is representable and day `d` falls on or after the 1st of the month and before the 1st of the next month, on the day count from 0001-01-01. Within a year, the 1st of each month comes from the month-length table through `DaysBeforeMonth`, and that table is checked against `Calendar.CumulativeDays`. The December case goes through the closed-form year start `DaysBeforeYear`. |
| Calendar.WithDay | src/month.rs:121-126 | `with_day(d)` succeeds exactly when `1 <= d <= DaysInMonth`, keeping the year and month. |
| Calendar.DaysBeforeMonth | src/month.rs:117-119 | The days before month `m` are between 28(m-1) and 31(m-1). |
| Calendar.CumulativeDays | src/month.rs:121-126 | The running sum of the month-length table equals the Gregorian cumulative-days table (0, 31, 59, …, 334, 365), one day more from March in a leap year. |
| Calendar.UnixEpochDayNumber | src/month.rs:117-119 | The closed-form day count puts 1970-01-01, the Unix epoch, 719162 days after 0001-01-01, the historically correct span. |
| Calendar.NumDaysFromSunday | src/month.rs:92 | `num_days_from_sunday` is below 7 and is 0 exactly for Sunday. |
| Calendar.FromSundayIndex | src/month.rs:117-119 | Inverse of `num_days_from_sunday` on 0..6. |
| Calendar.WeekdayOf | src/month.rs:117-119 | `weekday()`: 0001-01-01, day number 0, is a Monday. |
| Calendar.WeekdayAnchors | src/month.rs:117-119 | The weekday function agrees with the historical calendar: 1970-01-01 is a Thursday and 2000-01-01 a Saturday. |
| Calendar.NextMonth | src/month/iter.rs:23-28 | The successor of (y, m) stays a month number in 1..12 and is the next month when months are counted consecutively across years (12y + m goes up by one). |
| Calendar.YearLength | src/month.rs:121-126 | A year has 366 days when it is a leap year, 365 otherwise. |
| Calendar.NextYearStart | src/month.rs:117-119 | January 1st of year y+1 is one year length after January 1st of y. |
| Calendar.NextFirstDayNumber | src/month/iter.rs:23-31 | The 1st of the following month is `DaysInMonth(y, m)` days after the 1st of `m`, across the year boundary too. |
| Calendar.NextFirstWeekday | src/month/iter.rs:23-31 | The weekday of the next month's 1st is the weekday of this month's 1st moved on by the month's length, modulo 7. |
| Calendar.WeekdayInMonth | src/month.rs:117-119 | Day `d` falls `d - 1` days (mod 7) after the weekday of the 1st. |
| Calendar.FourHundredYearCycle | src/month.rs:117-119 | Shifting a date by 400 years adds 146097 days, a whole number of weeks, so weekdays repeat every 400 years. |
| Iters.Find | src/month.rs:121-126 | `find` yields `None` exactly when no item satisfies the predicate; otherwise it yields an item that satisfies it and that no earlier item does. |
| Iters.Filter | src/cal.rs:99-105 | `filter` keeps exactly the items satisfying the predicate: each kept item satisfies it and comes from the input, and every input item that satisfies it is kept. |
| Iters.FilterAppend | src/cal.rs:99-105 | Filtering a concatenation gives the filtered parts in the same order, so `filter` keeps the matching items as an ordered subsequence. |
| Iters.FilterSingle | src/cal.rs:99-105 | A single item is kept exactly when it satisfies the predicate. |
| Iters.Nth | src/cal.rs:99-105 | `nth(n)` skips `n` items and takes the next one; it is `Some` exactly when there are more than `n` items, and then it is the item at position `n`. |
| Iters.FindIsFirstFiltered | src/cal.rs:99-105 | `find(p)` equals `filter(p).nth(0)` on every sequence. |
| Fmt.NatToString | src/month.rs:40-42 | Decimal digits of a natural number: non-empty, all digits, no leading zero. |
| Fmt.ParseNatToString | src/month.rs:40-42 | Reading the digits back gives the number. |
| Fmt.NatToStringLength | src/month.rs:111-115 | A number below 10^k has at most k digits. |
| Fmt.IntToString | src/month.rs:40-42 | `{}` of an integer is an optional minus sign and digits; the sign is there exactly for negative values. |
| Fmt.ParseIntToString | src/month.rs:40-42 | Rendering a signed integer loses nothing: parsing gives it back. |
| Fmt.PadLeft | src/month.rs:70 | `{:>w}` has length max(len, w). |
| Fmt.PadLeftContent | src/month.rs:70 | `{:>w}` is only spaces followed by the string itself. |
| Fmt.PadRight | src/month.rs:72 | `{:<w}` has length max(len, w). |
| Fmt.PadRightContent | src/month.rs:72 | `{:<w}` is the string itself followed by only spaces. |
| Fmt.Center | src/month.rs:131 | `{:^w}` has length max(len, w). |
| Fmt.CenterContent | src/month.rs:131 | `{:^w}` puts the smaller half of the padding in front and the larger half behind, all spaces. |
| Fmt.Join | src/month.rs:111-115 | `join`: the result has the parts' combined length plus one separator between each two parts. |
| Fmt.JoinPairs | src/month.rs:111-115 | Joining n two-character fields with " " gives 3n-1 characters, field k at columns 3k and 3k+1 and a space after each field but the last. |
| Fmt.PadLeftField | src/month.rs:70 | Right-aligning moves every field right by the padding. |
| Fmt.PadRightField | src/month.rs:72 | Left-aligning leaves every field in place. |
| Months.New | src/month.rs:22-25 | `Month::new` is `Some` exactly when the year is in `MIN_YEAR..=MAX_YEAR` and the month in 1..12; the month built has that year and number. |
| Months.Year | src/month.rs:28-30 | The year is in the representable range. |
| Months.MonthNumber | src/month.rs:35-37 | The month number is in 1..12. |
| Months.MonthName | src/month.rs:45-60 | The name is one of the twelve English month names, so the lookup stays in bounds. |
| Months.MonthHeader | src/month.rs:40-42 | The header is at most 17 characters long, so it always fits in the 20 columns. |
| Months.MonthHeaderParts | src/month.rs:40-42 | The header is the month name, one space, then a decimal that reads back as the year. |
| Months.YearDigits | src/month.rs:40-42 | A representable year prints in at most 7 characters. |
| Months.WeekdayForFirst | src/month.rs:117-119 | The weekday of the month's 1st; the `unwrap` cannot fail. |
| Months.NumDaysInMonth | src/month.rs:121-126 | The day count is the Gregorian length of the month; the panic cannot be reached. |
| Months.LargestDay | src/month.rs:121-126 | Searching 31, 30, 29, 28 for a valid day finds the Gregorian length. |
| Months.GridRowsArePartition | src/month.rs:83-109 | The reference grid splits the month into Sunday-first weeks with no gaps or overlaps: first row `1..=7-w`, interior rows of 7 days, and a last row of 1 to 7 days ending on the last day. |
| Months.PartitionIsUnique | src/month.rs:83-109 | Any rows with those properties are the reference grid. |
| Months.PartitionStarts | src/month.rs:83-109 | In such rows, row i starts on day 7i-w+1, and interior rows end six days later. |
| Months.RowCountBounds | src/month.rs:83-109 | A month of 28 to 31 days touches 4 to 6 weeks. |
| Months.DayRow | src/month.rs:83-109 | Day d lies in row i exactly when (d+w-1)/7 = i. |
| Months.LayoutFrom | src/month.rs:83-109 | The `layout_weeks` loop, given the weekday of the 1st and the day count, returns the reference grid. Its precondition `7 - w <= days` is what keeps the unsigned subtraction from underflowing. The loop terminates because `days_remaining` decreases. |
| Months.LayoutWeeks | src/month.rs:83-109 | `layout_weeks` returns the reference grid, which is a week partition of the month's Gregorian days, with 4 to 6 rows. |
| Months.DayField | src/month.rs:112 | `{:2}` of a day below 100 takes exactly two columns. |
| Months.FieldsStep | src/month.rs:111-113 | The map visits the range in order: an empty range gives no fields, otherwise the first day's field comes first, then the fields of the rest. |
| Months.Week | src/month.rs:111-115 | `week` of an empty range is empty, and of a range of n days below 100 is 3n-1 columns. |
| Months.WeekShape | src/month.rs:111-115 | `week` of a row of n days is 3n-1 characters, with day first+k at columns 3k, 3k+1; 20 characters for a full week. |
| Months.FieldsWidth | src/month.rs:111-115 | Every field of a row of days below 100 is two characters wide. |
| Months.LinesAppend | src/month.rs:63-81 | The text of lines followed by line breaks distributes over concatenation. |
| Months.FixedWidthLines | src/month.rs:63-81 | Lines of 22 characters lie 23 characters apart, each followed by its line break. |
| Months.WeeksOf | src/month.rs:63-81 | The `weeks` loop emits exactly the week lines of the layout, each with the trailing spaces and a line break. |
| Months.Weeks | src/month.rs:63-81 | `weeks` of a month is the text of the week lines of its layout. |
| Months.RowLine | src/month.rs:68-77 | Each pushed week line ends in the two trailing spaces, and the first and last lines are padded to at least 20 columns. |
| Months.RowLineWidth | src/month.rs:63-81 | Every week line is 20 columns plus the two trailing spaces. |
| Months.RowLineField | src/month.rs:63-81 | Within a week line, each day sits in the field column of its place in the week: offset by the weekday of the 1st on the first line. |
| Months.GridRowShape | src/month.rs:83-109 | Each grid row is a non-empty run of at most 7 days below 100, the first being `1..=7-w`. |
| Months.FirstLineField | src/month.rs:69-70 | Right-aligning the first line moves each of its fields right by the padding. |
| Months.LaterLineField | src/month.rs:71-75 | On the other lines, left-aligned or unpadded, each field stays in place. |
| Months.WeekLinesWidth | src/month.rs:63-81 | Every line of the week block has width 22 and ends in the two trailing spaces. |
| Months.Display | src/month.rs:129-137 | `Display::fmt` writes the centred header, the weekday header, then the weeks, each line ending in two spaces and a line break. The result is exactly the rendered month. |
| Months.TopLines | src/month.rs:129-137 | The two header lines followed by `weeks` are the rendered month's lines. |
| Months.LineWidths | src/month.rs:129-137 | The rendered month has 2 + (row count) lines, 6 to 8 in all, each 20 columns plus two trailing spaces. |
| Months.BlockText | src/month.rs:129-137 | Lines of the block are 23 characters apart in the text, each ending in "  \n". |
| Months.RenderedText | src/month.rs:129-137 | The text is 23(2 + rows) characters long; every line ends in two spaces and a line break; the second line is "Su Mo Tu We Th Fr Sa  ". |
| Months.WeekdayHeaderLine | src/month.rs:9-10 | The weekday header line with its trailing spaces, spelled out. |
| Months.HeaderColumn | src/month.rs:10 | Columns 3c and 3c+1 of the weekday header name the weekday c days after Sunday. |
| Months.GridDayColumn | src/month.rs:83-115 | In the grid, day d is printed on week line (d+w-1)/7 at columns 3((d+w-1)%7) and the next. |
| Months.DayUnderItsWeekday | src/month.rs:63-137 | Every day of the month is printed in the columns of its own weekday's name in the weekday header, on line 2 + its week. |
| Months.MonthShowsDay | src/month.rs:63-137 | Day d is printed at the grid column (d+w-1)%7, below the header name of the weekday with that index. |
| Months.WeekdayColumn | src/month.rs:117-119 | The weekday of day d is the one (d+w-1)%7 days after Sunday. |
| Months.GridDayUnderWeekday | src/month.rs:63-81 | For any month length and first weekday, the block shows day d at its grid column, below the matching weekday name. |
| Months.ShowsBelowHeader | src/month.rs:129-137 | A field of a week line keeps its position once the two header lines are put in front. |
| Cal.NumDaysInMonth | src/cal.rs:99-105 | `filter().nth(0)` finds the Gregorian day count; the panic cannot be reached. |
| Cal.FirstDayCount | src/cal.rs:99-105 | The first candidate among 31, 30, 29, 28 that survives the filter is the Gregorian length, the same as `find` gives. |
| Cal.LayoutWeeks | src/cal.rs:61-87 | This copy's `layout_weeks` returns the same rows as the month module's: a week partition of the Gregorian days. |
| Cal.Weeks | src/cal.rs:41-59 | This copy's `weeks` (with the identity `format!("{}")` on interior rows) gives the same text as the month module's. |
| Cal.Display | src/cal.rs:108-116 | This copy prints exactly the rendered month the month module prints. |
| MonthIter.Following | src/month/iter.rs:23-31 | The stored successor, when it exists, has the next consecutive month index; it is `None` exactly after December of `MAX_YEAR`. |
| MonthIter.Step | src/month/iter.rs:17-34 | One call of `next` keeps `None` as `None` and moves a held month on by exactly one month. |
| MonthIter.StepN | src/month/iter.rs:17-34 | After n calls, a month still held is exactly n months after the start. |
| MonthIter.FromIndex | src/month/iter.rs:17-34 | The month with a given consecutive index exists exactly when its year is representable, and has that index. |
| MonthIter.IndexDetermines | src/month/iter.rs:17-34 | A month is determined by its index. |
| MonthIter.FollowingIsNextIndex | src/month/iter.rs:23-31 | The successor of (y, m) is the month with the next index; it is `None` exactly after December of `MAX_YEAR`. |
| MonthIter.NoneIsFinal | src/month/iter.rs:18-21 | An exhausted generator stays exhausted. |
| MonthIter.StepNIsIndexShift | src/month/iter.rs:17-34 | After n calls the generator holds the month n after the start, or `None` past the last one. |
| MonthIter.Increasing | src/month/iter.rs:17-34 | Yielded months are strictly increasing: a later call never yields an earlier or equal month. |
| MonthIter.MonthGenerator.constructor | src/month/iter.rs:9-11 | A new generator holds the start month. |
| MonthIter.MonthGenerator.Next | src/month/iter.rs:17-34 | `next` yields the month held before the call and stores its successor; on `None` it yields `None` and stays `None`. |
| MonthIter.MonthGenerator.Nth | src/month/iter.rs:41-69 | `nth(n)` yields the month held after n calls and leaves the generator one call further on. |
| MonthIter.FebruaryAfterJanuary | src/month/iter.rs:41-49 | `nth(1)` from January 2019 is February 2019. |
| MonthIter.MarchTwoMonthsAfterJanuary | src/month/iter.rs:51-59 | `nth(2)` from January 2019 is March 2019. |
| MonthIter.JanuaryAfterDecember | src/month/iter.rs:61-69 | `nth(1)` from December 2019 is January 2020. |
| MonthIter.LastMonth | src/month/iter.rs:31 | After December of `MAX_YEAR` the generator holds `None`. |
| Fixtures.InvalidYear | src/month.rs:143-147 | `Month::new(262144, 1)` is `None`. |
| Fixtures.InvalidMonth | src/month.rs:149-153 | `Month::new(2019, 15)` is `None`. |
| Fixtures.WeekIsRef | src/month.rs:111-115 | `week` of a row is the day fields written out digit by digit and joined by spaces. |
| Fixtures.February2016First | src/month.rs:174-189 | 2016-02-01 is a Monday. |
| Fixtures.March2019First | src/month.rs:210-226 | 2019-03-01 is a Friday. |
| Fixtures.June2019First | src/month.rs:265-281 | 2019-06-01 is a Saturday. |
| Fixtures.September2019First | src/month.rs:320-335 | 2019-09-01 is a Sunday. |
| Fixtures.February2016Days | src/month.rs:174-189 | February 2016 has 29 days. |
| Fixtures.February2019Days | src/month.rs:192-207 | February 2019 has 28 days. |
| Fixtures.March2019Days | src/month.rs:210-226 | March 2019 has 31 days. |
| Fixtures.January2019 | src/month.rs:156-171 | January 2019 prints exactly as the test expects. |
| Fixtures.February2016 | src/month.rs:174-189 | February 2016 (leap year) prints exactly as the test expects. |
| Fixtures.February2019 | src/month.rs:192-207 | February 2019 prints exactly as the test expects. |
| Fixtures.March2019 | src/month.rs:210-226 | March 2019 prints exactly as the test expects. |
| Fixtures.March2019Lines | src/cal.rs:123-137 | The lines of March 2019 are those the `cal.rs` test expects; with `Cal.Display` this is that test. |
| Fixtures.April2019 | src/month.rs:229-244 | April 2019 prints exactly as the test expects. |
| Fixtures.May2019 | src/month.rs:247-262 | May 2019 prints exactly as the test expects. |
| Fixtures.June2019 | src/month.rs:265-281 | June 2019 (six week lines) prints exactly as the test expects. |
| Fixtures.July2019 | src/month.rs:284-299 | July 2019 prints exactly as the test expects. |
| Fixtures.August2019 | src/month.rs:302-317 | August 2019 prints exactly as the test expects. |
| Fixtures.September2019 | src/month.rs:320-335 | September 2019 prints exactly as the test expects. |
| Fixtures.October2019 | src/month.rs:338-353 | October 2019 prints exactly as the test expects. |
| Fixtures.November2019 | src/month.rs:356-371 | November 2019 prints exactly as the test expects. |
| Fixtures.December2019 | src/month.rs:374-389 | December 2019 prints exactly as the test expects. |

## Left out

- `src/main.rs` is not part of this model: it reads the local clock and prints.
- `src/opt.rs` is not part of this model: it is command-line parsing generated by a derive macro.
- `src/error.rs` is not part of this model. Its message speaks of a year range `1..9999`, but the code does not enforce it. `Month::new` accepts every year the date library accepts, and the model follows the code.
- The date library's internals are not modelled. `Calendar` supplies explicit leap-year, month-length and weekday definitions and the library's year bounds. Only the rejection of year 262144 is pinned by a test.
- Rust's general formatting machinery is left out. Only `{}` on integers, `{:2}`, `{:>20}`, `{:<20}` and `{:^20}` on ASCII strings, and `join` are modelled.
- `Iters.Find`, `Iters.Filter` and `Iters.Nth` work on a finite sequence of remaining items, not on a lazy iterator. Laziness has no observable effect on the four candidates.
- `MonthIter.MonthGenerator.Nth`: the model gives `Iterator::nth` as n calls of `next` followed by one more. The other default methods of `Iterator` are not modelled.
- `MonthIter.MonthGenerator.Next`: `src/month/iter.rs:30` takes the held value out of the field just before overwriting it. The model returns the value held before the call; Rust's ownership and move rules are not modelled.
- Integer widths: `i32` years, `u32` month numbers and day counts never come near their limits in these ranges, so they are modelled as unbounded integers. The two unsigned subtractions that could underflow are guarded by preconditions. `days_remaining -= days_in_first_week` in `layout_weeks` is guarded by `Months.LayoutFrom`'s `requires 7 - NumDaysFromSunday(initialWeekday) <= lastDayInMonth`. `layout.len() - 1` in `weeks` (`src/month.rs:67`, `src/cal.rs:45`) is guarded by `Months.WeeksOf`'s `requires |layout| >= 1`, which `Months.LayoutWeeks` meets.
- The derived `PartialOrd`/`Ord`/`Hash`/`Debug` of the month type are not modelled. `MonthIter.Increasing` states the ordering of yielded months through their consecutive index, which orders by year and then month.
- The test helper `from_formatted` is not modelled. The fixture lemmas state its output directly: each line between the bars followed by a line break.
