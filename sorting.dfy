/**
 * Stable descending sort by a numeric key: what the core gets from
 * `Array.prototype.sort((a, b) => key(b) - key(a))` and from `ORDER BY … DESC`.
 */
module Sorting {

  predicate SortedDesc<T>(s: seq<T>, key: T -> real)
  {
    forall i, j :: 0 <= i < j < |s| ==> key(s[i]) >= key(s[j])
  }

  /** `x` placed before the first element with a smaller key. */
  function InsertDesc<T>(x: T, s: seq<T>, key: T -> real): (r: seq<T>)
    requires SortedDesc(s, key)
    ensures SortedDesc(r, key)
    ensures multiset(r) == multiset(s) + multiset{x}
    ensures |r| == |s| + 1
  {
    if s == [] || key(x) >= key(s[0]) then [x] + s
    else
      var t := InsertDesc(x, s[1..], key);
      assert multiset(s) == multiset{s[0]} + multiset(s[1..]) by { assert s == [s[0]] + s[1..]; }
      BoundedBy(t, s[1..], x, key, key(s[0]));
      ConsSorted(s[0], t, key);
      [s[0]] + t
  }

  /** An element with a key at least every key of a sorted sequence may go in front of it. */
  lemma ConsSorted<T>(h: T, t: seq<T>, key: T -> real)
    requires SortedDesc(t, key) && forall j :: 0 <= j < |t| ==> key(t[j]) <= key(h)
    ensures SortedDesc([h] + t, key)
  {
    var r := [h] + t;
    forall i, j | 0 <= i < j < |r|
      ensures key(r[i]) >= key(r[j])
    {
      assert r[j] == t[j - 1];
      if i > 0 {
        assert r[i] == t[i - 1];
      }
    }
  }

  /** A rearrangement of elements whose keys are at most `b` has keys at most `b`. */
  lemma BoundedBy<T>(t: seq<T>, s: seq<T>, x: T, key: T -> real, b: real)
    requires multiset(t) == multiset(s) + multiset{x}
    requires key(x) <= b && forall j :: 0 <= j < |s| ==> key(s[j]) <= b
    ensures forall j :: 0 <= j < |t| ==> key(t[j]) <= b
  {
    forall j | 0 <= j < |t|
      ensures key(t[j]) <= b
    {
      assert t[j] in multiset(t);
      if t[j] != x {
        assert t[j] in multiset(s);
        var k :| 0 <= k < |s| && s[k] == t[j];
      }
    }
  }

  /** The elements of `s` rearranged so that keys never increase. */
  function SortDesc<T>(s: seq<T>, key: T -> real): (r: seq<T>)
    ensures SortedDesc(r, key)
    ensures multiset(r) == multiset(s)
    ensures |r| == |s|
  {
    if s == [] then []
    else
      assert s == [s[0]] + s[1..];
      InsertDesc(s[0], SortDesc(s[1..], key), key)
  }

  /** Sorting only rearranges: every element of the result comes from the input. */
  lemma SortDescMembers<T>(s: seq<T>, key: T -> real)
    ensures forall i :: 0 <= i < |SortDesc(s, key)| ==> SortDesc(s, key)[i] in s
  {
    var r := SortDesc(s, key);
    forall i | 0 <= i < |r|
      ensures r[i] in s
    {
      assert r[i] in multiset(r);
    }
  }

  /** The elements whose key is `k`, in their order in `s`. */
  function WithKey<T>(s: seq<T>, key: T -> real, k: real): seq<T>
  {
    if s == [] then []
    else (if key(s[0]) == k then [s[0]] else []) + WithKey(s[1..], key, k)
  }

  lemma WithKeyCons<T>(h: T, t: seq<T>, key: T -> real, k: real)
    ensures WithKey([h] + t, key, k) == (if key(h) == k then [h] else []) + WithKey(t, key, k)
  {
    assert ([h] + t)[1..] == t;
  }

  /** Inserting `x` puts it in front of every element with the same key. */
  lemma {:induction false} InsertDescWithKey<T>(x: T, t: seq<T>, key: T -> real, k: real)
    requires SortedDesc(t, key)
    ensures WithKey(InsertDesc(x, t, key), key, k) == (if key(x) == k then [x] else []) + WithKey(t, key, k)
  {
    if t == [] || key(x) >= key(t[0]) {
      assert InsertDesc(x, t, key) == [x] + t;
      WithKeyCons(x, t, key, k);
    } else {
      var rest := InsertDesc(x, t[1..], key);
      assert InsertDesc(x, t, key) == [t[0]] + rest;
      WithKeyCons(t[0], rest, key, k);
      InsertDescWithKey(x, t[1..], key, k);
      WithKeyCons(t[0], t[1..], key, k);
      assert [t[0]] + t[1..] == t;
      if key(x) == k {
        assert key(t[0]) != k;
      }
    }
  }

  /**
   * The sort is stable: for every key, the elements with that key come out in
   * the order they went in.
   */
  lemma {:induction false} SortDescStable<T>(s: seq<T>, key: T -> real, k: real)
    ensures WithKey(SortDesc(s, key), key, k) == WithKey(s, key, k)
  {
    if s != [] {
      SortDescStable(s[1..], key, k);
      InsertDescWithKey(s[0], SortDesc(s[1..], key), key, k);
    }
  }

  /** The first `n` elements, or all of them when there are fewer. */
  function Take<T>(s: seq<T>, n: nat): (r: seq<T>)
    ensures |r| == if |s| < n then |s| else n
    ensures r == s[..|r|]
  {
    if |s| <= n then s else s[..n]
  }

  /** In a sorted sequence every kept element has a key at least that of every dropped one. */
  lemma TakeKeepsLargest<T>(s: seq<T>, key: T -> real, n: nat)
    requires SortedDesc(s, key)
    ensures forall i, j :: 0 <= i < |Take(s, n)| <= j < |s| ==> key(s[i]) >= key(s[j])
  {
  }
}
