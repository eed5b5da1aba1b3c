/** Stable sorting by a total preorder, as Python's `sorted`, and what permuting a sequence keeps. */
module Sorting {
  import opened Common

  /** Insertion from the right, behind everything that is no greater. */
  function InsertBy<T>(le: (T, T) -> bool, s: seq<T>, x: T): seq<T> {
    if s == [] || le(s[|s| - 1], x) then s + [x] else InsertBy(le, s[..|s| - 1], x) + [s[|s| - 1]]
  }

  function SortBy<T>(le: (T, T) -> bool, s: seq<T>): seq<T> {
    if s == [] then [] else InsertBy(le, SortBy(le, s[..|s| - 1]), s[|s| - 1])
  }

  ghost predicate SortedBy<T>(le: (T, T) -> bool, s: seq<T>) {
    forall i, j :: 0 <= i < j < |s| ==> le(s[i], s[j])
  }

  ghost predicate IsOrder<T(!new)>(le: (T, T) -> bool) {
    && (forall a, b :: le(a, b) || le(b, a))
    && (forall a, b, c :: le(a, b) && le(b, c) ==> le(a, c))
  }

  lemma {:induction false} InsertSorts<T(!new)>(le: (T, T) -> bool, s: seq<T>, x: T)
    requires IsOrder(le) && SortedBy(le, s)
    ensures SortedBy(le, InsertBy(le, s, x)) && multiset(InsertBy(le, s, x)) == multiset(s) + multiset{x}
  {
    if s != [] {
      var init, last := s[..|s| - 1], s[|s| - 1];
      assert s == init + [last];
      if le(last, x) {
        assert forall i :: 0 <= i < |s| ==> le(s[i], x);
      } else {
        InsertSorts(le, init, x);
        var r := InsertBy(le, init, x);
        forall i | 0 <= i < |r|
          ensures le(r[i], last)
        {
          assert r[i] in multiset(r);
          assert r[i] == x || r[i] in init;
        }
      }
    }
  }

  /** Sorting sorts, and loses or repeats nothing. */
  lemma {:induction false} SortSorts<T(!new)>(le: (T, T) -> bool, s: seq<T>)
    requires IsOrder(le)
    ensures SortedBy(le, SortBy(le, s)) && multiset(SortBy(le, s)) == multiset(s) && |SortBy(le, s)| == |s|
    ensures forall x :: x in SortBy(le, s) <==> x in s
  {
    if s != [] {
      SortSorts(le, s[..|s| - 1]);
      InsertSorts(le, SortBy(le, s[..|s| - 1]), s[|s| - 1]);
      assert s == s[..|s| - 1] + [s[|s| - 1]];
    }
    assert |multiset(SortBy(le, s))| == |multiset(s)|;
    assert forall x :: x in SortBy(le, s) <==> x in multiset(SortBy(le, s));
  }

  // ---- Permutations ------------------------------------------------------------------------

  lemma {:induction false} CountsOne<T>(s: seq<T>, x: T)
    requires Distinct(s)
    ensures multiset(s)[x] == if x in s then 1 else 0
  {
    if s != [] {
      var init, last := s[..|s| - 1], s[|s| - 1];
      assert s == init + [last];
      CountsOne(init, x);
      assert last !in init;
    }
  }

  lemma {:induction false} DistinctByCounts<T>(s: seq<T>)
    requires forall x :: x in s ==> multiset(s)[x] <= 1
    ensures Distinct(s)
  {
    if s != [] {
      var init, last := s[..|s| - 1], s[|s| - 1];
      assert s == init + [last];
      assert multiset(s) == multiset(init) + multiset{last};
      forall x | x in init
        ensures multiset(init)[x] <= 1
      {
        assert x in s;
      }
      DistinctByCounts(init);
      assert last in s && multiset(s)[last] == multiset(init)[last] + 1;
      assert last !in init;
    }
  }

  /** A permutation of distinct values is distinct. */
  lemma PermutedDistinct<T>(s: seq<T>, t: seq<T>)
    requires Distinct(s) && multiset(s) == multiset(t)
    ensures Distinct(t)
  {
    forall x | x in t
      ensures multiset(t)[x] <= 1
    {
      CountsOne(s, x);
    }
    DistinctByCounts(t);
  }
}
