/**
 Ordering a sequence by a real-valued key, as `DataFrame.sort_values`
 and `np.argsort` do. The model sorts by insertion, which keeps equal
 keys in input order; the callers' contracts promise only what the
 library promises: a permutation of the input in key order.
 */
module Sorting {

  /** Keys do not increase from left to right. */
  ghost predicate SortedDesc<T>(s: seq<T>, key: T -> real) {
    forall i, j :: 0 <= i < j < |s| ==> key(s[i]) >= key(s[j])
  }

  /** Places `x` into the key-descending sequence `s`, before every element
      whose key it does not fall below. */
  function Insert<T>(x: T, s: seq<T>, key: T -> real): (r: seq<T>)
    requires SortedDesc(s, key)
    ensures SortedDesc(r, key)
    ensures multiset(r) == multiset(s) + multiset{x}
    ensures |r| == |s| + 1
  {
    if |s| == 0 then [x]
    else if key(x) >= key(s[0]) then
      ConsSorted(x, s, key);
      [x] + s
    else
      var rest := Insert(x, s[1..], key);
      assert s == [s[0]] + s[1..];
      HeadDominates(x, s, key, rest);
      ConsSorted(s[0], rest, key);
      [s[0]] + rest
  }

  /** Putting an element in front of a key-descending sequence whose keys
      it does not fall below keeps the order. */
  lemma ConsSorted<T>(h: T, s: seq<T>, key: T -> real)
    requires SortedDesc(s, key)
    requires forall k :: 0 <= k < |s| ==> key(s[k]) <= key(h)
    ensures SortedDesc([h] + s, key)
  {
    var r := [h] + s;
    assert forall k :: 1 <= k < |r| ==> r[k] == s[k - 1];
  }

  /** Every element of a permutation of the tail of `s` plus an `x` below
      the head has a key no greater than the head's. */
  lemma HeadDominates<T>(x: T, s: seq<T>, key: T -> real, rest: seq<T>)
    requires |s| > 0 && SortedDesc(s, key) && key(x) < key(s[0])
    requires multiset(rest) == multiset(s[1..]) + multiset{x}
    ensures forall k :: 0 <= k < |rest| ==> key(rest[k]) <= key(s[0])
  {
    forall k | 0 <= k < |rest|
      ensures key(rest[k]) <= key(s[0])
    {
      assert rest[k] in multiset(rest);
      if rest[k] != x {
        assert rest[k] in multiset(s[1..]);
        var m :| 0 <= m < |s[1..]| && s[1..][m] == rest[k];
        assert s[m + 1] == rest[k];
      }
    }
  }

  /** A permutation of `s` whose keys do not increase. */
  function SortDesc<T>(s: seq<T>, key: T -> real): (r: seq<T>)
    ensures SortedDesc(r, key)
    ensures multiset(r) == multiset(s)
    ensures |r| == |s|
  {
    if |s| == 0 then []
    else
      assert s == [s[0]] + s[1..];
      Insert(s[0], SortDesc(s[1..], key), key)
  }
}
