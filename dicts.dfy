/** Python dicts as the scripts use them: a sequence of (key, value) entries with distinct
    keys, kept in insertion order. */
module Dicts {
  import opened Text

  ghost predicate DistinctKeys<K, V>(d: seq<(K, V)>)
  {
    forall i, j :: 0 <= i < j < |d| ==> d[i].0 != d[j].0
  }

  type Dict<K, V> = d: seq<(K, V)> | DistinctKeys(d) witness []

  /** d.keys(), in insertion order */
  function Keys<K, V>(d: seq<(K, V)>): (ks: seq<K>)
    ensures |ks| == |d|
    ensures forall i :: 0 <= i < |d| ==> ks[i] == d[i].0
  {
    if d == [] then [] else [d[0].0] + Keys(d[1..])
  }

  /** Position of the first entry with key k. */
  function IndexOf<K(==), V>(d: seq<(K, V)>, k: K): (r: Option<nat>)
    ensures r.None? ==> k !in Keys(d)
    ensures r.Some? ==> r.value < |d| && d[r.value].0 == k
    ensures r.Some? ==> forall i :: 0 <= i < r.value ==> d[i].0 != k
  {
    if d == [] then None
    else if d[0].0 == k then Some(0)
    else match IndexOf(d[1..], k)
      case None => None
      case Some(i) => Some(i + 1)
  }

  /** d.get(k) */
  function Get<K(==), V>(d: seq<(K, V)>, k: K): (r: Option<V>)
    ensures r.Some? <==> k in Keys(d)
  {
    match IndexOf(d, k)
    case None => None
    case Some(i) => Some(d[i].1)
  }

  /** d.get(k, default) */
  function GetOr<K(==), V>(d: seq<(K, V)>, k: K, default: V): V
  {
    match Get(d, k)
    case None => default
    case Some(v) => v
  }

  /** In a dict, the entry at position i is what d.get returns for its key. */
  lemma GetAt<K, V>(d: Dict<K, V>, i: nat)
    requires i < |d|
    ensures Get(d, d[i].0) == Some(d[i].1)
  {
    var r := IndexOf(d, d[i].0);
    assert r.Some? by { assert Keys(d)[i] == d[i].0; }
  }

  lemma {:induction false} IndexOfSameKeys<K, V>(a: seq<(K, V)>, b: seq<(K, V)>, k: K)
    requires Keys(a) == Keys(b)
    ensures IndexOf(a, k) == IndexOf(b, k)
  {
    if a != [] {
      assert Keys(a[1..]) == Keys(a)[1..] && Keys(b[1..]) == Keys(b)[1..];
      IndexOfSameKeys(a[1..], b[1..], k);
    }
  }

  lemma {:induction false} IndexOfAppend<K, V>(d: seq<(K, V)>, e: (K, V), k: K)
    ensures IndexOf(d + [e], k) ==
      if k in Keys(d) then IndexOf(d, k) else if e.0 == k then Some(|d|) else None
  {
    if d != [] {
      assert (d + [e])[1..] == d[1..] + [e];
      IndexOfAppend(d[1..], e, k);
      assert Keys(d) == [d[0].0] + Keys(d[1..]);
    }
  }

  /** d[k] = v: the value is replaced in place when k is present, appended otherwise. */
  function Put<K(==), V>(d: Dict<K, V>, k: K, v: V): (r: Dict<K, V>)
    ensures Keys(r) == if k in Keys(d) then Keys(d) else Keys(d) + [k]
  {
    match IndexOf(d, k)
    case Some(i) =>
      var r := d[i := (k, v)];
      assert Keys(r) == Keys(d);
      r
    case None =>
      var r := d + [(k, v)];
      assert DistinctKeys(r) by {
        forall i, j | 0 <= i < j < |r| ensures r[i].0 != r[j].0 {
          if j == |d| { assert Keys(d)[i] == d[i].0; }
        }
      }
      r
  }

  /** After d[k] = v, d.get(k) is v and every other key reads as before. */
  lemma PutGet<K, V>(d: Dict<K, V>, k: K, v: V, k': K)
    ensures Get(Put(d, k, v), k') == if k' == k then Some(v) else Get(d, k')
  {
    var r := Put(d, k, v);
    match IndexOf(d, k)
    case Some(i) =>
      IndexOfSameKeys(r, d, k');
    case None =>
      IndexOfAppend(d, (k, v), k');
  }

  /** The number of entries of a dict of lists summed over its values. */
  function TotalLength<K, X>(d: seq<(K, seq<X>)>): nat
  {
    if d == [] then 0 else |d[0].1| + TotalLength(d[1..])
  }

  lemma TotalLengthAppend<K, X>(d: seq<(K, seq<X>)>, e: (K, seq<X>))
    ensures TotalLength(d + [e]) == TotalLength(d) + |e.1|
  {
    if d != [] {
      assert (d + [e])[1..] == d[1..] + [e];
    }
  }
}
