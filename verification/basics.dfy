/**
 Small value types and sequence helpers shared by every scoring module:
 an optional value for attributes that may be absent, a result type for
 error paths, an order-preserving filter, and the extreme values of a
 non-empty sequence of reals.
 */
module Basics {

  /** A value that may be absent (a missing GeoJSON attribute or JSON field). */
  datatype Option<+T> = None | Some(value: T) {

    /** The contained value, or `default` when absent (Python's `dict.get(k, default)`). */
    function GetOr(default: T): T {
      match this
      case Some(v) => v
      case None => default
    }
  }

  /** Either a value or the error that stopped the computation. */
  datatype Result<+T, +E> = Ok(value: T) | Err(error: E)

  /** The values of `xs` if none is absent (a loop that stops at the first
      failure); nothing otherwise. */
  function AllPresent<T>(xs: seq<Option<T>>): (r: Option<seq<T>>)
    ensures r.Some? <==> forall i :: 0 <= i < |xs| ==> xs[i].Some?
    ensures r.Some? ==> |r.value| == |xs| && forall i :: 0 <= i < |xs| ==> xs[i] == Some(r.value[i])
  {
    if |xs| == 0 then Some([])
    else
      var rest := AllPresent(xs[1..]);
      assert forall i :: 1 <= i < |xs| ==> xs[i] == xs[1..][i - 1];
      if xs[0].None? || rest.None? then None
      else
        var r := [xs[0].value] + rest.value;
        assert forall i :: 1 <= i < |xs| ==> r[i] == rest.value[i - 1];
        Some(r)
  }

  /** `a` can be obtained from `b` by deleting elements. */
  ghost predicate IsSubsequence<T>(a: seq<T>, b: seq<T>)
    decreases |b|
  {
    || |a| == 0
    || (&& |b| > 0
        && (|| (a[0] == b[0] && IsSubsequence(a[1..], b[1..]))
            || IsSubsequence(a, b[1..])))
  }

  /** No value occurs twice in `s`. */
  ghost predicate NoDuplicates<T>(s: seq<T>) {
    forall i, j :: 0 <= i < j < |s| ==> s[i] != s[j]
  }

  /** The elements of `s` that satisfy `keep`, in their original order
      (a boolean-mask selection `df[mask]`). */
  function Filter<T(!new)>(s: seq<T>, keep: T -> bool): (r: seq<T>)
    ensures |r| <= |s|
    ensures forall x :: x in r ==> keep(x)
    ensures forall x :: multiset(r)[x] == if keep(x) then multiset(s)[x] else 0
    ensures |r| == |s| <==> forall i :: 0 <= i < |s| ==> keep(s[i])
    ensures |r| == 0 <==> forall i :: 0 <= i < |s| ==> !keep(s[i])
    ensures IsSubsequence(r, s)
  {
    if |s| == 0 then []
    else
      var rest := Filter(s[1..], keep);
      var r := if keep(s[0]) then [s[0]] + rest else rest;
      FilterConsCounts(s, keep, rest, r);
      FilterConsContents(s, keep, rest, r);
      FilterConsOrder(s, keep, rest, r);
      r
  }

  /** One step of `Filter`: how the lengths of the result and the input relate. */
  lemma FilterConsCounts<T>(s: seq<T>, keep: T -> bool, rest: seq<T>, r: seq<T>)
    requires |s| > 0
    requires |rest| <= |s| - 1
    requires |rest| == |s| - 1 <==> forall i :: 1 <= i < |s| ==> keep(s[i])
    requires |rest| == 0 <==> forall i :: 1 <= i < |s| ==> !keep(s[i])
    requires r == if keep(s[0]) then [s[0]] + rest else rest
    ensures |r| <= |s|
    ensures |r| == |s| <==> forall i :: 0 <= i < |s| ==> keep(s[i])
    ensures |r| == 0 <==> forall i :: 0 <= i < |s| ==> !keep(s[i])
  {
  }

  /** One step of `Filter`: which values the result holds, and how often. */
  lemma FilterConsContents<T>(s: seq<T>, keep: T -> bool, rest: seq<T>, r: seq<T>)
    requires |s| > 0
    requires forall x :: multiset(rest)[x] == if keep(x) then multiset(s[1..])[x] else 0
    requires r == if keep(s[0]) then [s[0]] + rest else rest
    ensures forall x :: x in r ==> keep(x)
    ensures forall x :: multiset(r)[x] == if keep(x) then multiset(s)[x] else 0
  {
    assert s == [s[0]] + s[1..];
    assert multiset(s) == multiset{s[0]} + multiset(s[1..]);
    assert multiset(r) == if keep(s[0]) then multiset{s[0]} + multiset(rest) else multiset(rest);
    forall x | x in r
      ensures keep(x)
    {
      assert x in multiset(r);
    }
  }

  /** One step of `Filter`: the result keeps the input's order. */
  lemma FilterConsOrder<T>(s: seq<T>, keep: T -> bool, rest: seq<T>, r: seq<T>)
    requires |s| > 0
    requires IsSubsequence(rest, s[1..])
    requires r == if keep(s[0]) then [s[0]] + rest else rest
    ensures IsSubsequence(r, s)
  {
    if keep(s[0]) {
      assert r[0] == s[0] && r[1..] == rest;
    }
  }

  /** Filtering by `f` and then by `g` keeps what one filter by `f && g` keeps. */
  lemma {:induction false} FilterFilter<T(!new)>(s: seq<T>, f: T -> bool, g: T -> bool, both: T -> bool)
    requires forall x :: both(x) == (f(x) && g(x))
    ensures Filter(Filter(s, f), g) == Filter(s, both)
  {
    if |s| > 0 {
      FilterFilter(s[1..], f, g, both);
      if f(s[0]) {
        var inner := Filter(s, f);
        assert inner == [s[0]] + Filter(s[1..], f);
        assert inner[1..] == Filter(s[1..], f);
      }
    }
  }

  /** Two filters with mutually exclusive tests together keep at most
      every element once. */
  lemma {:induction false} FilterDisjoint<T(!new)>(s: seq<T>, f: T -> bool, g: T -> bool)
    requires forall x :: !(f(x) && g(x))
    ensures |Filter(s, f)| + |Filter(s, g)| <= |s|
  {
    if |s| > 0 {
      FilterDisjoint(s[1..], f, g);
    }
  }

  /** The smallest element of a non-empty sequence (`Series.min()`). */
  function MinOf(s: seq<real>): (r: real)
    requires |s| > 0
    ensures r in s
    ensures forall i :: 0 <= i < |s| ==> r <= s[i]
  {
    if |s| == 1 then s[0]
    else
      var m := MinOf(s[1..]);
      assert forall i :: 1 <= i < |s| ==> s[i] == s[1..][i - 1];
      if s[0] <= m then s[0] else m
  }

  /** The largest element of a non-empty sequence (`Series.max()`). */
  function MaxOf(s: seq<real>): (r: real)
    requires |s| > 0
    ensures r in s
    ensures forall i :: 0 <= i < |s| ==> s[i] <= r
  {
    if |s| == 1 then s[0]
    else
      var m := MaxOf(s[1..]);
      assert forall i :: 1 <= i < |s| ==> s[i] == s[1..][i - 1];
      if s[0] >= m then s[0] else m
  }

  /** `np.clip(x, 0, 1)`. */
  function ClipUnit(x: real): (r: real)
    ensures 0.0 <= r <= 1.0
    ensures 0.0 <= x <= 1.0 ==> r == x
    ensures x <= 0.0 ==> r == 0.0
    ensures x >= 1.0 ==> r == 1.0
  {
    if x < 0.0 then 0.0 else if x > 1.0 then 1.0 else x
  }

  /** Clipping to the unit interval never reverses an order. */
  lemma ClipUnitMonotone(x: real, y: real)
    requires x <= y
    ensures ClipUnit(x) <= ClipUnit(y)
  {
  }

  /** `x` squared. */
  function Square(x: real): (r: real)
    ensures 0.0 <= r
  {
    x * x
  }

  /** The product of two reals, kept as a named term so that facts about
      it are stated without the solver rewriting them away. */
  function Product(a: real, b: real): real {
    a * b
  }

  lemma ProductPositive(a: real, b: real)
    requires 0.0 < a && 0.0 < b
    ensures 0.0 < Product(a, b)
  {
  }

  /** A non-zero number has a positive square. */
  lemma PositiveSquare(u: real)
    ensures u != 0.0 ==> Square(u) > 0.0
  {
    if u > 0.0 {
      ProductPositive(u, u);
      assert Square(u) == Product(u, u);
    } else if u < 0.0 {
      ProductPositive(-u, -u);
      assert Square(u) == Product(-u, -u);
    }
  }

  /** A sum of two squares vanishes only when both terms do. */
  lemma SquareSumZero(u: real, v: real)
    ensures Square(u) + Square(v) == 0.0 <==> u == 0.0 && v == 0.0
  {
    PositiveSquare(u);
    PositiveSquare(v);
  }

  /** A non-negative number divided by a positive bound it does not exceed
      lies in [0, 1], and is 1 at the bound. */
  lemma QuotientInUnit(x: real, n: real)
    requires 0.0 <= x <= n && 0.0 < n
    ensures 0.0 <= x / n <= 1.0
    ensures x == n ==> x / n == 1.0
  {
    var q := x / n;
    assert q * n == x;
  }

  /** A positive number divided by a larger positive divisor gets smaller. */
  lemma QuotientAntitone(m: real, x: real, y: real)
    requires 0.0 < m && 0.0 < x <= y
    ensures m / y <= m / x
  {
    var a, b := m / x, m / y;
    assert a * x == m && b * y == m;
  }

  /** Weighting a value in [0, 1] by a positive weight gives at most the weight. */
  lemma ScaleWithin(v: real, w: real)
    requires 0.0 <= v <= 1.0 && 0.0 < w
    ensures 0.0 <= v * w <= w
  {
  }

  /** Weighting by a positive weight preserves order. */
  lemma ScaleMonotone(u: real, v: real, w: real)
    requires v <= u && 0.0 < w
    ensures v * w <= u * w
  {
  }

  /** A positive number divided by a smaller positive divisor exceeds 1. */
  lemma QuotientAboveOne(m: real, x: real)
    requires 0.0 < x < m
    ensures m / x > 1.0
  {
    var q := m / x;
    assert q * x == m;
  }
}
