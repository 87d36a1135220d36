/**
 * `ORDER BY a, b` on two text columns under SQLite's BINARY collation, which
 * compares code point by code point and puts a prefix first.
 */
module TextOrder {

  predicate TextLe(a: string, b: string)
    decreases |a|
  {
    a == [] || (b != [] && (a[0] < b[0] || (a[0] == b[0] && TextLe(a[1..], b[1..]))))
  }

  lemma {:induction false} TextLeTotal(a: string, b: string)
    ensures TextLe(a, b) || TextLe(b, a)
    decreases |a|
  {
    if a != [] && b != [] && a[0] == b[0] {
      TextLeTotal(a[1..], b[1..]);
    }
  }

  /** The pair order: by the first column, then by the second. */
  predicate PairLe(x: (string, string), y: (string, string))
  {
    if x.0 == y.0 then TextLe(x.1, y.1) else TextLe(x.0, y.0)
  }

  lemma PairLeTotal(x: (string, string), y: (string, string))
    ensures PairLe(x, y) || PairLe(y, x)
  {
    TextLeTotal(x.1, y.1);
    TextLeTotal(x.0, y.0);
  }

  /** Neighbours are in order of their keys. */
  predicate Ordered<T>(s: seq<T>, key: T -> (string, string))
  {
    forall i :: 0 <= i < |s| - 1 ==> PairLe(key(s[i]), key(s[i + 1]))
  }

  function Insert<T>(x: T, s: seq<T>, key: T -> (string, string)): (r: seq<T>)
    requires Ordered(s, key)
    ensures Ordered(r, key)
    ensures multiset(r) == multiset(s) + multiset{x}
    ensures r != [] && (r[0] == x || (s != [] && r[0] == s[0]))
  {
    if s == [] || PairLe(key(x), key(s[0])) then [x] + s
    else
      PairLeTotal(key(x), key(s[0]));
      var t := Insert(x, s[1..], key);
      assert s == [s[0]] + s[1..];
      [s[0]] + t
  }

  /** The rows rearranged into key order. */
  function Sort<T>(s: seq<T>, key: T -> (string, string)): (r: seq<T>)
    ensures Ordered(r, key)
    ensures multiset(r) == multiset(s)
  {
    if s == [] then []
    else
      assert s == [s[0]] + s[1..];
      Insert(s[0], Sort(s[1..], key), key)
  }
}
