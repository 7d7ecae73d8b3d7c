/**
 * The few iterator adapters the calendar code uses on a finite range of
 * candidates: `find`, `filter` and `nth`. A sequence stands for the
 * iterator's remaining items, in order.
 */
module Iters {
  import opened Options

  /** `iter.find(p)`: the first item satisfying `p`, or `None`. */
  function Find<T>(s: seq<T>, p: T -> bool): (r: Option<T>)
    ensures r.None? <==> forall i :: 0 <= i < |s| ==> !p(s[i])
    ensures r.Some? ==> p(r.value) && exists i :: 0 <= i < |s| && s[i] == r.value && forall j :: 0 <= j < i ==> !p(s[j])
  {
    if |s| == 0 then None
    else if p(s[0]) then Some(s[0])
    else Find(s[1..], p)
  }

  /** `iter.filter(p)`: the items satisfying `p`, in their original order. */
  function Filter<T>(s: seq<T>, p: T -> bool): (r: seq<T>)
    ensures |r| <= |s|
    ensures forall i :: 0 <= i < |r| ==> p(r[i]) && r[i] in s
    ensures forall x :: x in s && p(x) ==> x in r
  {
    if |s| == 0 then []
    else if p(s[0]) then [s[0]] + Filter(s[1..], p)
    else Filter(s[1..], p)
  }

  /**
   * `iter.nth(n)`: skips `n` items, then takes the next one, or `None` once
   * the items run out; that is the item at position `n`.
   */
  function Nth<T>(s: seq<T>, n: nat): (r: Option<T>)
    ensures r.Some? <==> n < |s|
    ensures r.Some? ==> r.value == s[n]
    decreases n
  {
    if |s| == 0 then None
    else if n == 0 then Some(s[0])
    else Nth(s[1..], n - 1)
  }

  /** Filtering a concatenation filters each part and keeps them in order. */
  lemma {:induction false} FilterAppend<T>(s: seq<T>, t: seq<T>, p: T -> bool)
    ensures Filter(s + t, p) == Filter(s, p) + Filter(t, p)
  {
    if |s| > 0 {
      assert (s + t)[1..] == s[1..] + t;
      FilterAppend(s[1..], t, p);
    } else {
      assert s + t == t;
    }
  }

  /** A single item is kept exactly when it satisfies the predicate. */
  lemma FilterSingle<T>(x: T, p: T -> bool)
    ensures Filter([x], p) == if p(x) then [x] else []
  {
    assert [x][1..] == [];
  }

  /** `find(p)` and `filter(p).nth(0)` pick the same item. */
  lemma {:induction false} FindIsFirstFiltered<T>(s: seq<T>, p: T -> bool)
    ensures Find(s, p) == Nth(Filter(s, p), 0)
  {
    if |s| > 0 && !p(s[0]) {
      FindIsFirstFiltered(s[1..], p);
    }
  }
}
