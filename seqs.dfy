/** Sequence helpers shared by the models: the list comprehension
    `[x for x in s if p(x)]`, which also stands for a database query with a
    filter clause, read in table order; and the first element that satisfies
    a test, which stands for `query.filter(...).first()` and `query.get(id)`. */
module Seqs {
  import opened Responses

  function Filter<T(!new)>(s: seq<T>, p: T -> bool): (r: seq<T>)
    ensures |r| <= |s|
    ensures multiset(r) <= multiset(s)
    ensures forall x :: x in r <==> x in s && p(x)
  {
    if |s| == 0 then []
    else
      assert s == [s[0]] + s[1..];
      (if p(s[0]) then [s[0]] else []) + Filter(s[1..], p)
  }

  /** The filter keeps every element that passes as often as it occurs, and
      no other. */
  lemma {:induction false} FilterCounts<T(!new)>(s: seq<T>, p: T -> bool)
    ensures forall x :: multiset(Filter(s, p))[x] == if p(x) then multiset(s)[x] else 0
  {
    if |s| > 0 {
      FilterCounts(s[1..], p);
      assert s == [s[0]] + s[1..];
    }
  }

  /** The filter keeps the order: its first element is the first element
      that passes. */
  lemma {:induction false} FilterFirst<T(!new)>(s: seq<T>, p: T -> bool)
    ensures |Filter(s, p)| > 0 ==> FindFirst(s, p) == Some(Filter(s, p)[0])
  {
    if |s| > 0 {
      if p(s[0]) {
        assert Filter(s, p)[0] == s[0];
      } else {
        assert Filter(s, p) == Filter(s[1..], p);
        FilterFirst(s[1..], p);
      }
    }
  }

  function FindFirst<T(!new)>(s: seq<T>, p: T -> bool): (r: Option<T>)
    ensures r.None? <==> forall x :: x in s ==> !p(x)
    ensures r.Some? ==> r.value in s && p(r.value)
    ensures r.Some? ==> exists i :: 0 <= i < |s| && s[i] == r.value && forall k :: 0 <= k < i ==> !p(s[k])
  {
    if |s| == 0 then None
    else if p(s[0]) then Some(s[0])
    else
      var r := FindFirst(s[1..], p);
      assert r.Some? ==> exists i :: 0 <= i < |s| - 1 && s[1..][i] == r.value && forall k :: 0 <= k < i ==> !p(s[1..][k]);
      r
  }

  function Min(a: int, b: int): int { if a <= b then a else b }

  function Max(a: int, b: int): int { if a <= b then b else a }
}
