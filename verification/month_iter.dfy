/**
 * An endless run of consecutive calendar months: each call of `next` yields
 * the held month and replaces it by the following one. Past the last
 * representable month the following one does not exist, the generator
 * holds `None`, and from then on every call yields `None`.
 */
module MonthIter {
  import opened Options
  import opened Calendar
  import opened Months

  /**
   * The month after `m`: its consecutive index is one more; it is `None`
   * only after December of the last representable year.
   */
  function Following(m: Month): (r: Option<Month>)
    ensures r.Some? ==> MonthIndex(r.value) == MonthIndex(m) + 1
    ensures r.None? <==> Year(m) == MAX_YEAR && MonthNumber(m) == 12
  {
    var (year, nextMonthNumber) := NextMonth(Year(m), MonthNumber(m));
    New(year, nextMonthNumber)
  }

  /** The field's new value after one call of `next`: `None` stays `None`, a month moves on by one. */
  function Step(month: Option<Month>): (r: Option<Month>)
    ensures month.None? ==> r.None?
    ensures r.Some? ==> month.Some? && MonthIndex(r.value) == MonthIndex(month.value) + 1
  {
    match month
    case None => None
    case Some(m) => Following(m)
  }

  /** The field's value after `n` calls of `next`: a month held then is `n` months after the start. */
  function StepN(month: Option<Month>, n: nat): (r: Option<Month>)
    ensures r.Some? ==> month.Some? && MonthIndex(r.value) == MonthIndex(month.value) + n
    decreases n
  {
    if n == 0 then month else StepN(Step(month), n - 1)
  }

  /** Months numbered consecutively across years: January of year 0 is month 0. */
  function MonthIndex(m: Month): (i: int) {
    12 * Year(m) + MonthNumber(m) - 1
  }

  /** The index of December of the last representable year. */
  const LAST_INDEX: int := 12 * MAX_YEAR + 11

  /** The month with the given index, when its year is representable. */
  function FromIndex(i: int): (r: Option<Month>)
    ensures r.Some? <==> 12 * MIN_YEAR <= i <= LAST_INDEX
    ensures r.Some? ==> MonthIndex(r.value) == i
  {
    New(i / 12, i % 12 + 1)
  }

  /** A month is determined by its index. */
  lemma IndexDetermines(m: Month)
    ensures FromIndex(MonthIndex(m)) == Some(m)
  {
    var i := MonthIndex(m);
    assert i / 12 == Year(m) && i % 12 + 1 == MonthNumber(m);
  }

  /**
   * One step moves to the month with the next index; it fails exactly at
   * December of the last representable year.
   */
  lemma FollowingIsNextIndex(m: Month)
    ensures Following(m) == FromIndex(MonthIndex(m) + 1)
    ensures Following(m).None? <==> Year(m) == MAX_YEAR && MonthNumber(m) == 12
  {
    var i := MonthIndex(m) + 1;
    if MonthNumber(m) == 12 {
      assert i == 12 * (Year(m) + 1);
      assert i / 12 == Year(m) + 1 && i % 12 == 0;
    } else {
      assert i == 12 * Year(m) + MonthNumber(m);
      assert i / 12 == Year(m) && i % 12 == MonthNumber(m);
    }
  }

  /** Once the generator holds `None`, it holds `None` forever. */
  lemma {:induction false} NoneIsFinal(n: nat)
    ensures StepN(None, n) == None
  {
    if n > 0 {
      NoneIsFinal(n - 1);
    }
  }

  /**
   * After `n` calls the generator holds the month `n` after the start, or
   * `None` when that month is past the last representable one.
   */
  lemma {:induction false} StepNIsIndexShift(m: Month, n: nat)
    ensures StepN(Some(m), n) == FromIndex(MonthIndex(m) + n)
    decreases n
  {
    if n == 0 {
      IndexDetermines(m);
    } else {
      FollowingIsNextIndex(m);
      match Following(m)
      case None =>
        NoneIsFinal(n - 1);
      case Some(next) =>
        StepNIsIndexShift(next, n - 1);
    }
  }

  /**
   * The yielded months are strictly increasing: the month produced after
   * `j` calls comes later than the one produced after `i < j` calls.
   */
  lemma Increasing(m: Month, i: nat, j: nat)
    requires i < j && StepN(Some(m), j).Some?
    ensures StepN(Some(m), i).Some?
    ensures MonthIndex(StepN(Some(m), i).value) < MonthIndex(StepN(Some(m), j).value)
  {
    StepNIsIndexShift(m, i);
    StepNIsIndexShift(m, j);
  }

  /** `MonthGenerator`: the month `next` will yield, or `None` once exhausted. */
  class MonthGenerator {
    var month: Option<Month>

    /** `MonthGenerator::new(start)`. */
    constructor (start: Month)
      ensures month == Some(start)
    {
      month := Some(start);
    }

    /** `next`: yields the held month and moves on to the following one. */
    method Next() returns (r: Option<Month>)
      modifies this
      ensures r == old(month)
      ensures month == Step(old(month))
    {
      if month.None? {
        return None;
      }
      var m := month.value;
      var year := Year(m);
      var nextMonthNumber := MonthNumber(m) + 1;
      if nextMonthNumber > 12 {
        nextMonthNumber := 1;
        year := year + 1;
      }
      r := month;
      month := New(year, nextMonthNumber);
    }

    /** `Iterator::nth(n)`: skips `n` items and yields the next one. */
    method Nth(n: nat) returns (r: Option<Month>)
      modifies this
      ensures r == StepN(old(month), n)
      ensures month == StepN(old(month), n + 1)
    {
      var k := 0;
      while k < n
        invariant k <= n
        invariant month == StepN(old(month), k)
      {
        var skipped := Next();
        StepNSplit(old(month), k);
        k := k + 1;
      }
      r := Next();
      StepNSplit(old(month), n);
    }
  }

  /** Taking one more step after `n` steps. */
  lemma {:induction false} StepNSplit(month: Option<Month>, n: nat)
    ensures StepN(month, n + 1) == Step(StepN(month, n))
    decreases n
  {
    if n > 0 {
      StepNSplit(Step(month), n - 1);
    }
  }

  /** `nth(1)` from January 2019 is February 2019. */
  lemma FebruaryAfterJanuary()
    ensures New(2019, 1).Some?
    ensures StepN(New(2019, 1), 1) == New(2019, 2)
  {
  }

  /** `nth(2)` from January 2019 is March 2019. */
  lemma MarchTwoMonthsAfterJanuary()
    ensures New(2019, 1).Some?
    ensures StepN(New(2019, 1), 2) == New(2019, 3)
  {
  }

  /** `nth(1)` from December 2019 is January 2020. */
  lemma JanuaryAfterDecember()
    ensures New(2019, 12).Some?
    ensures StepN(New(2019, 12), 1) == New(2020, 1)
  {
  }

  /** The generator started at the last representable month yields it, then `None`. */
  lemma LastMonth()
    ensures New(MAX_YEAR, 12).Some?
    ensures StepN(New(MAX_YEAR, 12), 1) == None
  {
  }
}
