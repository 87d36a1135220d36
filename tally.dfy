/**
 * A plain JavaScript object used as a running-sum dictionary,
 * `obj[k] = (obj[k] || 0) + v`: keys keep their first-insertion order.
 */
module Tally {

  type Entries<K> = seq<(K, real)>

  predicate UniqueKeys<K(==)>(e: Entries<K>)
  {
    forall i, j :: 0 <= i < j < |e| ==> e[i].0 != e[j].0
  }

  function Keys<K(==)>(e: Entries<K>): (ks: seq<K>)
    ensures |ks| == |e| && forall i :: 0 <= i < |e| ==> ks[i] == e[i].0
  {
    if e == [] then [] else [e[0].0] + Keys(e[1..])
  }

  /** `obj[k] || 0`. */
  function Get<K(==)>(e: Entries<K>, k: K): real
  {
    if e == [] then 0.0 else if e[0].0 == k then e[0].1 else Get(e[1..], k)
  }

  /** `obj[k] = (obj[k] || 0) + v`. */
  function Bump<K(==)>(e: Entries<K>, k: K, v: real): Entries<K>
  {
    if e == [] then [(k, v)]
    else if e[0].0 == k then [(k, e[0].1 + v)] + e[1..]
    else [e[0]] + Bump(e[1..], k, v)
  }

  /** The sum of all values, `Object.values(obj).reduce((a, b) => a + b, 0)`. */
  function Total<K>(e: Entries<K>): real
  {
    if e == [] then 0.0 else e[0].1 + Total(e[1..])
  }

  /** Bumping adds `v` to `k` and to nothing else, keeps keys unique and keeps the old keys in place. */
  lemma BumpSpec<K>(e: Entries<K>, k: K, v: real)
    requires UniqueKeys(e)
    ensures UniqueKeys(Bump(e, k, v))
    ensures forall k' :: Get(Bump(e, k, v), k') == Get(e, k') + (if k' == k then v else 0.0)
    ensures Total(Bump(e, k, v)) == Total(e) + v
    ensures k in Keys(Bump(e, k, v))
    ensures Keys(Bump(e, k, v)) == (if k in Keys(e) then Keys(e) else Keys(e) + [k])
  {
    BumpKeys(e, k, v);
    BumpTotal(e, k, v);
    forall k' ensures Get(Bump(e, k, v), k') == Get(e, k') + (if k' == k then v else 0.0) {
      BumpGet(e, k, v, k');
    }
    UniqueByKeys(e);
    UniqueByKeys(Bump(e, k, v));
    if k !in Keys(e) {
      DistinctSnoc(Keys(e), k);
    }
  }

  /** Keys are unique exactly when the key column has no repeats. */
  lemma UniqueByKeys<K>(e: Entries<K>)
    ensures UniqueKeys(e) <==> Distinct(Keys(e))
  {
  }

  predicate Distinct<K(==)>(s: seq<K>)
  {
    forall i, j :: 0 <= i < j < |s| ==> s[i] != s[j]
  }

  lemma DistinctSnoc<K>(s: seq<K>, k: K)
    requires Distinct(s) && k !in s
    ensures Distinct(s + [k])
  {
  }

  lemma {:induction false} BumpKeys<K>(e: Entries<K>, k: K, v: real)
    ensures Keys(Bump(e, k, v)) == (if k in Keys(e) then Keys(e) else Keys(e) + [k])
  {
    if e != [] {
      assert Keys(e) == [e[0].0] + Keys(e[1..]);
      if e[0].0 != k {
        BumpKeys(e[1..], k, v);
        var t := Bump(e[1..], k, v);
        assert Bump(e, k, v) == [e[0]] + t;
        assert Keys([e[0]] + t) == [e[0].0] + Keys(t) by {
          assert ([e[0]] + t)[1..] == t;
        }
      } else {
        assert Bump(e, k, v)[1..] == e[1..];
      }
    }
  }

  lemma {:induction false} BumpGet<K>(e: Entries<K>, k: K, v: real, k': K)
    ensures Get(Bump(e, k, v), k') == Get(e, k') + (if k' == k then v else 0.0)
  {
    if e != [] {
      if e[0].0 != k {
        BumpGet(e[1..], k, v, k');
        assert Bump(e, k, v)[1..] == Bump(e[1..], k, v);
      } else {
        assert Bump(e, k, v)[1..] == e[1..];
      }
    }
  }

  lemma {:induction false} BumpTotal<K>(e: Entries<K>, k: K, v: real)
    ensures Total(Bump(e, k, v)) == Total(e) + v
  {
    if e != [] {
      if e[0].0 != k {
        BumpTotal(e[1..], k, v);
        assert Bump(e, k, v)[1..] == Bump(e[1..], k, v);
      } else {
        assert Bump(e, k, v)[1..] == e[1..];
      }
    }
  }

  /** `obj[k] = v`: a new key goes last, an existing key keeps its place and takes the new value. */
  function Put<K(==)>(e: Entries<K>, k: K, v: real): (r: Entries<K>)
    ensures |r| == |e| || |r| == |e| + 1
  {
    if e == [] then [(k, v)]
    else if e[0].0 == k then [(k, v)] + e[1..]
    else [e[0]] + Put(e[1..], k, v)
  }

  /** Assignment keeps keys unique and makes `k` read back as `v`, other keys unchanged. */
  lemma PutSpec<K>(e: Entries<K>, k: K, v: real)
    requires UniqueKeys(e)
    ensures UniqueKeys(Put(e, k, v))
    ensures forall k' :: Get(Put(e, k, v), k') == if k' == k then v else Get(e, k')
    ensures Keys(Put(e, k, v)) == (if k in Keys(e) then Keys(e) else Keys(e) + [k])
  {
    PutKeys(e, k, v);
    forall k' ensures Get(Put(e, k, v), k') == if k' == k then v else Get(e, k') {
      PutGet(e, k, v, k');
    }
    UniqueByKeys(e);
    UniqueByKeys(Put(e, k, v));
    if k !in Keys(e) {
      DistinctSnoc(Keys(e), k);
    }
  }

  lemma {:induction false} PutKeys<K>(e: Entries<K>, k: K, v: real)
    ensures Keys(Put(e, k, v)) == (if k in Keys(e) then Keys(e) else Keys(e) + [k])
  {
    if e != [] {
      assert Keys(e) == [e[0].0] + Keys(e[1..]);
      if e[0].0 != k {
        PutKeys(e[1..], k, v);
        var t := Put(e[1..], k, v);
        assert Put(e, k, v) == [e[0]] + t;
        assert Keys([e[0]] + t) == [e[0].0] + Keys(t) by {
          assert ([e[0]] + t)[1..] == t;
        }
      } else {
        assert Put(e, k, v)[1..] == e[1..];
      }
    }
  }

  lemma {:induction false} PutGet<K>(e: Entries<K>, k: K, v: real, k': K)
    ensures Get(Put(e, k, v), k') == if k' == k then v else Get(e, k')
  {
    if e != [] {
      if e[0].0 != k {
        PutGet(e[1..], k, v, k');
        assert Put(e, k, v)[1..] == Put(e[1..], k, v);
      } else {
        assert Put(e, k, v)[1..] == e[1..];
      }
    }
  }

  /** With unique keys, each entry's value is what its key reads back. */
  lemma {:induction false} GetUnique<K>(e: Entries<K>, i: nat)
    requires UniqueKeys(e) && i < |e|
    ensures Get(e, e[i].0) == e[i].1
  {
    if i > 0 {
      assert e[1..][i - 1] == e[i];
      GetUnique(e[1..], i - 1);
    }
  }
}
