/** Ascending sort of integer lists (`list.sort()`), counting, and the
    order-independence of the sorted result. */
module Sorting {

  predicate Sorted(s: seq<int>) {
    forall i, j :: 0 <= i < j < |s| ==> s[i] <= s[j]
  }

  /** Insert `x` into a sorted list, before the first element not below it. */
  function Insert(x: int, s: seq<int>): (r: seq<int>)
    requires Sorted(s)
    ensures Sorted(r)
    ensures multiset(r) == multiset(s) + multiset{x}
    ensures |r| == |s| + 1
    ensures r[0] == (if |s| == 0 || x <= s[0] then x else s[0])
  {
    if |s| == 0 then [x]
    else if x <= s[0] then
      SortedCons(x, s);
      [x] + s
    else
      TailContents(s);
      var rest := Insert(x, s[1..]);
      assert s[0] <= rest[0];
      SortedCons(s[0], rest);
      assert s == [s[0]] + s[1..];
      [s[0]] + rest
  }

  /** A head no greater than the first element keeps a list sorted. */
  lemma SortedCons(h: int, t: seq<int>)
    requires Sorted(t) && (|t| > 0 ==> h <= t[0])
    ensures Sorted([h] + t)
  {
    var r := [h] + t;
    forall i, j | 0 <= i < j < |r|
      ensures r[i] <= r[j]
    {
      if i > 0 {
        assert r[i] == t[i - 1] && r[j] == t[j - 1];
      } else {
        assert r[j] == t[j - 1] && t[0] <= t[j - 1];
      }
    }
  }

  /** `sorted(s)`: the ascending rearrangement of `s`. */
  function Sort(s: seq<int>): (r: seq<int>)
    ensures Sorted(r)
    ensures multiset(r) == multiset(s)
  {
    if |s| == 0 then []
    else
      assert s == [s[0]] + s[1..];
      Insert(s[0], Sort(s[1..]))
  }

  /** Number of elements of `s` satisfying `p`. */
  function Count(s: seq<int>, p: int -> bool): (n: nat)
    ensures n <= |s|
  {
    if |s| == 0 then 0 else (if p(s[0]) then 1 else 0) + Count(s[1..], p)
  }

  lemma {:induction false} CountAppend(a: seq<int>, b: seq<int>, p: int -> bool)
    ensures Count(a + b, p) == Count(a, p) + Count(b, p)
  {
    if |a| > 0 {
      assert (a + b)[0] == a[0];
      assert (a + b)[1..] == a[1..] + b;
      CountAppend(a[1..], b, p);
    } else {
      assert a + b == b;
    }
  }

  /** Every element satisfies `p`: the count is the length. */
  lemma {:induction false} CountAll(s: seq<int>, p: int -> bool)
    requires forall i :: 0 <= i < |s| ==> p(s[i])
    ensures Count(s, p) == |s|
  {
    if |s| > 0 {
      CountAll(s[1..], p);
    }
  }

  /** Counting a list with a head in front. */
  lemma CountCons(h: int, t: seq<int>, p: int -> bool)
    ensures Count([h] + t, p) == (if p(h) then 1 else 0) + Count(t, p)
  {
    assert ([h] + t)[0] == h && ([h] + t)[1..] == t;
  }

  lemma {:induction false} CountInsert(x: int, s: seq<int>, p: int -> bool)
    requires Sorted(s)
    ensures Count(Insert(x, s), p) == Count(s, p) + (if p(x) then 1 else 0)
  {
    if |s| == 0 {
      assert Insert(x, s) == [x] + s;
      CountCons(x, s, p);
    } else if x <= s[0] {
      assert Insert(x, s) == [x] + s;
      CountCons(x, s, p);
    } else {
      var rest := Insert(x, s[1..]);
      CountInsert(x, s[1..], p);
      assert Insert(x, s) == [s[0]] + rest;
      CountCons(s[0], rest, p);
      assert s == [s[0]] + s[1..];
      CountCons(s[0], s[1..], p);
    }
  }

  /** Sorting keeps every count. */
  lemma {:induction false} CountSort(s: seq<int>, p: int -> bool)
    ensures Count(Sort(s), p) == Count(s, p)
  {
    if |s| > 0 {
      CountSort(s[1..], p);
      CountInsert(s[0], Sort(s[1..]), p);
    }
  }

  /** The head of a sorted list is its least element. */
  lemma SortedHeadIsLeast(s: seq<int>, x: int)
    requires Sorted(s) && x in multiset(s)
    ensures |s| > 0 && s[0] <= x
  {
    assert x in s;
    var k :| 0 <= k < |s| && s[k] == x;
  }

  /** Dropping the head of a list removes one copy of it from the contents. */
  lemma TailContents(s: seq<int>)
    requires |s| > 0
    ensures multiset(s[1..]) == multiset(s) - multiset{s[0]}
    ensures Sorted(s) ==> Sorted(s[1..])
  {
    assert s == [s[0]] + s[1..];
  }

  /** Two sorted lists with the same contents start alike and continue
      with the same contents. */
  lemma SameHead(a: seq<int>, b: seq<int>)
    requires Sorted(a) && Sorted(b) && multiset(a) == multiset(b) && |a| > 0
    ensures |b| > 0 && a[0] == b[0]
    ensures multiset(a[1..]) == multiset(b[1..]) && Sorted(a[1..]) && Sorted(b[1..])
  {
    assert a[0] in multiset(a);
    SortedHeadIsLeast(b, a[0]);
    assert b[0] in multiset(b);
    SortedHeadIsLeast(a, b[0]);
    TailContents(a);
    TailContents(b);
  }

  /** Two sorted lists holding the same elements are equal. */
  lemma {:induction false} SortedUnique(a: seq<int>, b: seq<int>)
    requires Sorted(a) && Sorted(b) && multiset(a) == multiset(b)
    ensures a == b
    decreases |a|
  {
    if |a| == 0 {
      assert |b| == |multiset(b)| == 0;
    } else {
      SameHead(a, b);
      SortedUnique(a[1..], b[1..]);
      assert a == [a[0]] + a[1..];
      assert b == [b[0]] + b[1..];
    }
  }

  /** The sorted result depends only on the elements, not on their order. */
  lemma SortIgnoresOrder(s: seq<int>, t: seq<int>)
    requires multiset(s) == multiset(t)
    ensures Sort(s) == Sort(t)
  {
    SortedUnique(Sort(s), Sort(t));
  }
}
