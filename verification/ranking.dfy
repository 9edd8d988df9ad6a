/**
 Descending ranks of a column of values, as pandas'
 `Series.rank(ascending=False, method=...)` assigns them: the `"min"`
 method used by the recommendation endpoint and the default `"average"`
 method (then truncated by `astype(int)`) used by the TOPSIS kernel.
 */
module Ranking {
  import opened Basics

  /** How many entries of `vs` are strictly greater than `v`. */
  function CountAbove(vs: seq<real>, v: real): nat {
    |Filter(vs, (x: real) => x > v)|
  }

  /** How many entries of `vs` equal `v`. */
  function CountEqual(vs: seq<real>, v: real): nat {
    |Filter(vs, (x: real) => x == v)|
  }

  /** Rank under `method='min'`: one more than the number of strictly
      greater values, so tied values share the best rank of their group. */
  function MinRank(vs: seq<real>, i: nat): (r: nat)
    requires i < |vs|
    ensures 1 <= r <= |vs|
  {
    1 + CountAbove(vs, vs[i])
  }

  /** Rank under `method='average'`: the mean of the positions
      `g+1 .. g+e` a tie group of size `e` below `g` greater values occupies. */
  function AverageRank(vs: seq<real>, i: nat): real
    requires i < |vs|
  {
    CountAbove(vs, vs[i]) as real + (CountEqual(vs, vs[i]) as real + 1.0) / 2.0
  }

  /** The average rank after `astype(int)`, which truncates toward zero. */
  function TruncatedAverageRank(vs: seq<real>, i: nat): (r: int)
    requires i < |vs|
    ensures 1 <= r <= |vs|
    ensures r == CountAbove(vs, vs[i]) + (CountEqual(vs, vs[i]) + 1) / 2
  {
    AboveAndEqualFit(vs, vs[i]);
    CountEqualSelf(vs, i);
    var g, e := CountAbove(vs, vs[i]), CountEqual(vs, vs[i]);
    FloorOfHalf(e + 1);
    assert AverageRank(vs, i) == g as real + (e + 1) as real / 2.0;
    AverageRank(vs, i).Floor
  }

  lemma FloorOfHalf(n: nat)
    ensures ((n as real) / 2.0).Floor == n / 2
  {
    var q := n / 2;
    assert n == 2 * q || n == 2 * q + 1;
  }

  /** Every value is counted as at most one of "above v" and "equal to v". */
  lemma {:induction false} AboveAndEqualFit(vs: seq<real>, v: real)
    ensures CountAbove(vs, v) + CountEqual(vs, v) <= |vs|
  {
    if |vs| > 0 {
      AboveAndEqualFit(vs[1..], v);
    }
  }

  /** Every entry is tied with itself. */
  lemma CountEqualSelf(vs: seq<real>, i: nat)
    requires i < |vs|
    ensures CountEqual(vs, vs[i]) >= 1
  {
    var keep := (x: real) => x == vs[i];
    assert keep(vs[i]);
  }

  /** Lowering the threshold from `v` to `u` gains at least the entries equal to `v`. */
  lemma {:induction false} CountAboveLower(vs: seq<real>, u: real, v: real)
    requires u < v
    ensures CountAbove(vs, u) >= CountAbove(vs, v) + CountEqual(vs, v)
  {
    if |vs| > 0 {
      CountAboveLower(vs[1..], u, v);
    }
  }

  /** An entry that no other entry equals forms a tie group of one. */
  lemma {:induction false} CountEqualUnique(vs: seq<real>, i: nat)
    requires i < |vs|
    requires forall k :: 0 <= k < |vs| && k != i ==> vs[k] != vs[i]
    ensures CountEqual(vs, vs[i]) == 1
  {
    var v := vs[i];
    if i == 0 {
      var keep := (x: real) => x == v;
      assert forall k :: 0 <= k < |vs[1..]| ==> !keep(vs[1..][k]) by {
        forall k | 0 <= k < |vs[1..]|
          ensures !keep(vs[1..][k])
        {
          assert vs[1..][k] == vs[k + 1];
        }
      }
    } else {
      assert vs[1..][i - 1] == v;
      forall k | 0 <= k < |vs[1..]| && k != i - 1
        ensures vs[1..][k] != vs[1..][i - 1]
      {
        assert vs[1..][k] == vs[k + 1];
      }
      CountEqualUnique(vs[1..], i - 1);
    }
  }

  /** Counting is blind to order: permuted columns give the same counts. */
  lemma CountAbovePermutation(vs: seq<real>, ws: seq<real>, v: real)
    requires multiset(vs) == multiset(ws)
    ensures CountAbove(vs, v) == CountAbove(ws, v)
  {
    var keep := (x: real) => x > v;
    var a, b := Filter(vs, keep), Filter(ws, keep);
    assert multiset(a) == multiset(b) by {
      forall x
        ensures multiset(a)[x] == multiset(b)[x]
      {
      }
    }
    assert |a| == |multiset(a)| == |multiset(b)| == |b|;
  }

  /** Under `method='min'` a strictly greater value gets a strictly better
      (smaller) rank and a value that is not greater never gets a better one. */
  lemma MinRankOrder(vs: seq<real>, i: nat, j: nat)
    requires i < |vs| && j < |vs|
    ensures MinRank(vs, i) < MinRank(vs, j) <==> vs[i] > vs[j]
    ensures MinRank(vs, i) == MinRank(vs, j) <==> vs[i] == vs[j]
  {
    CountEqualSelf(vs, i);
    CountEqualSelf(vs, j);
    if vs[i] > vs[j] {
      CountAboveLower(vs, vs[j], vs[i]);
    } else if vs[i] < vs[j] {
      CountAboveLower(vs, vs[i], vs[j]);
    }
  }

  /** The truncated average rank orders values the same way: strictly
      greater values get strictly smaller ranks and ties share a rank. */
  lemma TruncatedAverageRankOrder(vs: seq<real>, i: nat, j: nat)
    requires i < |vs| && j < |vs|
    ensures TruncatedAverageRank(vs, i) < TruncatedAverageRank(vs, j) <==> vs[i] > vs[j]
    ensures TruncatedAverageRank(vs, i) == TruncatedAverageRank(vs, j) <==> vs[i] == vs[j]
  {
    CountEqualSelf(vs, i);
    CountEqualSelf(vs, j);
    if vs[i] > vs[j] {
      CountAboveLower(vs, vs[j], vs[i]);
    } else if vs[i] < vs[j] {
      CountAboveLower(vs, vs[i], vs[j]);
    }
  }

  /** A value without ties gets rank `1 + (number of greater values)` under
      both methods, so pairwise distinct values receive distinct ranks in `1..n`. */
  lemma DistinctRanks(vs: seq<real>, i: nat)
    requires i < |vs|
    requires forall k :: 0 <= k < |vs| && k != i ==> vs[k] != vs[i]
    ensures TruncatedAverageRank(vs, i) == MinRank(vs, i)
  {
    CountEqualUnique(vs, i);
  }
}
