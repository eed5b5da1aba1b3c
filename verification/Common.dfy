/** Small value types and sequence folds shared by the other modules. */
module Common {

  datatype Option<+T> = None | Some(value: T)

  /** The sum of `f` over a sequence. */
  function SumBy<T>(f: T -> int, s: seq<T>): int {
    if s == [] then 0 else SumBy(f, s[..|s| - 1]) + f(s[|s| - 1])
  }

  lemma SumSnoc<T>(f: T -> int, s: seq<T>, x: T)
    ensures SumBy(f, s + [x]) == SumBy(f, s) + f(x)
  {
    assert (s + [x])[..|s|] == s;
  }

  lemma {:induction false} SumUpdate<T>(f: T -> int, s: seq<T>, i: nat, x: T)
    requires i < |s|
    ensures SumBy(f, s[i := x]) == SumBy(f, s) - f(s[i]) + f(x)
  {
    var n := |s| - 1;
    if i == n {
      assert s[i := x][..n] == s[..n];
    } else {
      assert s[i := x][..n] == s[..n][i := x];
      SumUpdate(f, s[..n], i, x);
    }
  }

  lemma {:induction false} SumConcat<T>(f: T -> int, a: seq<T>, b: seq<T>)
    ensures SumBy(f, a + b) == SumBy(f, a) + SumBy(f, b)
  {
    if b == [] {
      assert a + b == a;
    } else {
      var c := b[..|b| - 1];
      assert (a + b)[..|a + b| - 1] == a + c;
      SumConcat(f, a, c);
    }
  }

  /** A sum of non-negative terms is at least each of its terms. */
  lemma {:induction false} SumCovers<T>(f: T -> int, s: seq<T>, i: nat)
    requires i < |s| && forall j :: 0 <= j < |s| ==> f(s[j]) >= 0
    ensures SumBy(f, s) >= f(s[i])
  {
    var n := |s| - 1;
    SumNonNegative(f, s[..n]);
    if i < n {
      SumCovers(f, s[..n], i);
    }
  }

  lemma {:induction false} SumNonNegative<T>(f: T -> int, s: seq<T>)
    requires forall j :: 0 <= j < |s| ==> f(s[j]) >= 0
    ensures SumBy(f, s) >= 0
  {
    if s != [] {
      SumNonNegative(f, s[..|s| - 1]);
    }
  }

  /** The sum of `f` over a sequence, for real terms. */
  function SumReal<T>(f: T -> real, s: seq<T>): real {
    if s == [] then 0.0 else SumReal(f, s[..|s| - 1]) + f(s[|s| - 1])
  }

  lemma {:induction false} SumRealSame<T>(f: T -> real, g: T -> real, s: seq<T>)
    requires forall i :: 0 <= i < |s| ==> f(s[i]) == g(s[i])
    ensures SumReal(f, s) == SumReal(g, s)
  {
    if s != [] {
      SumRealSame(f, g, s[..|s| - 1]);
    }
  }

  function Without<T>(s: seq<T>, i: nat): seq<T>
    requires i < |s|
  {
    s[..i] + s[i + 1..]
  }

  lemma {:induction false} TakeOut<T>(f: T -> int, g: T -> real, s: seq<T>, i: nat)
    requires i < |s|
    ensures SumBy(f, s) == SumBy(f, Without(s, i)) + f(s[i])
    ensures SumReal(g, s) == SumReal(g, Without(s, i)) + g(s[i])
  {
    var n := |s| - 1;
    var rest := Without(s, i);
    if i == n {
      assert rest == s[..n];
    } else {
      TakeOut(f, g, s[..n], i);
      assert rest[..|rest| - 1] == Without(s[..n], i);
      assert rest[|rest| - 1] == s[n];
    }
  }

  lemma SameBagWithout<T>(xs: seq<T>, ys: seq<T>) returns (i: nat)
    requires multiset(xs) == multiset(ys) && xs != []
    ensures i < |ys| && ys[i] == xs[|xs| - 1]
    ensures multiset(xs[..|xs| - 1]) == multiset(Without(ys, i))
  {
    var n := |xs| - 1;
    var x := xs[n];
    assert xs == xs[..n] + [x];
    assert x in multiset(ys);
    i :| 0 <= i < |ys| && ys[i] == x;
    assert ys == ys[..i] + ([x] + ys[i + 1..]);
    assert multiset(ys) == multiset(ys[..i]) + multiset{x} + multiset(ys[i + 1..]);
    assert multiset(Without(ys, i)) == multiset(ys[..i]) + multiset(ys[i + 1..]);
    assert multiset(xs) == multiset(xs[..n]) + multiset{x};
    assert multiset(xs[..n]) == multiset(xs) - multiset{x};
    assert multiset(Without(ys, i)) == multiset(ys) - multiset{x};
  }

  /** Sums do not depend on the order of the terms. */
  lemma {:induction false} SumsIgnoreOrder<T>(f: T -> int, g: T -> real, xs: seq<T>, ys: seq<T>)
    requires multiset(xs) == multiset(ys)
    ensures SumBy(f, xs) == SumBy(f, ys) && SumReal(g, xs) == SumReal(g, ys)
    decreases |xs|
  {
    assert |xs| == |multiset(xs)| == |multiset(ys)| == |ys|;
    if xs != [] {
      var i := SameBagWithout(xs, ys);
      SumsIgnoreOrder(f, g, xs[..|xs| - 1], Without(ys, i));
      TakeOut(f, g, ys, i);
    }
  }

  function Max(x: int, y: int): int {
    if x < y then y else x
  }

  function Min(x: int, y: int): int {
    if y < x then y else x
  }

  /** True iff no value occurs at two indices. */
  ghost predicate Distinct<T>(s: seq<T>) {
    forall i, j :: 0 <= i < j < |s| ==> s[i] != s[j]
  }

  function Abs(x: real): real {
    if x < 0.0 then -x else x
  }

  function MinReal(x: real, y: real): real {
    if y < x then y else x
  }

  function MaxReal(x: real, y: real): real {
    if x < y then y else x
  }

  /** A non-empty set of integers has a member to pick. */
  lemma HasMember(s: set<int>)
    ensures s == {} || exists x :: x in s
  {
    if forall x: int :: x !in s {
      assert s == {};
    }
  }
}
