/**
 * Association lists: ordered sequences of key/value pairs. They model the two insertion-ordered
 * dictionaries of the handler: the properties of a JavaScript object (an object literal keeps
 * the position of a key that is written again and appends a new key at the end) and the header
 * table of an HTTP response (`setHeader` replaces a header of the same name).
 */
module Assoc {
  import opened Wrappers

  /** The keys, in order. */
  function Keys<K, V>(a: seq<(K, V)>): seq<K>
  {
    if a == [] then [] else [a[0].0] + Keys(a[1..])
  }

  /** The value of the first entry with key `k`, or `None` when there is none. */
  function Lookup<K(==), V>(a: seq<(K, V)>, k: K): Option<V>
  {
    if a == [] then None
    else if a[0].0 == k then Some(a[0].1)
    else Lookup(a[1..], k)
  }

  /** Writes `k := v`: overwrites the first entry with key `k` in place, or appends a new entry. */
  function Put<K(==), V>(a: seq<(K, V)>, k: K, v: V): seq<(K, V)>
  {
    if a == [] then [(k, v)]
    else if a[0].0 == k then [(k, v)] + a[1..]
    else [a[0]] + Put(a[1..], k, v)
  }

  /** No key occurs twice. */
  predicate Distinct<K(==)>(ks: seq<K>)
  {
    forall i, j :: 0 <= i < j < |ks| ==> ks[i] != ks[j]
  }

  lemma {:induction false} KeysLength<K, V>(a: seq<(K, V)>)
    ensures |Keys(a)| == |a|
    ensures forall i :: 0 <= i < |a| ==> Keys(a)[i] == a[i].0
  {
    if a != [] {
      KeysLength(a[1..]);
    }
  }

  /** A key has a value exactly when it is one of the keys. */
  lemma {:induction false} LookupFound<K, V>(a: seq<(K, V)>, k: K)
    ensures Lookup(a, k).Some? <==> k in Keys(a)
  {
    if a != [] {
      LookupFound(a[1..], k);
    }
  }

  /** Reading back after a write: the written key has the new value, every other key keeps its value. */
  lemma {:induction false} PutLookup<K, V>(a: seq<(K, V)>, k: K, v: V, j: K)
    ensures Lookup(Put(a, k, v), j) == if j == k then Some(v) else Lookup(a, j)
  {
    if a != [] && a[0].0 != k {
      PutLookup(a[1..], k, v, j);
    }
  }

  /** After a write, the written key reads as the new value and every other key as before. */
  lemma PutOthers<K, V>(a: seq<(K, V)>, k: K, v: V)
    ensures Lookup(Put(a, k, v), k) == Some(v)
    ensures forall j :: j != k ==> Lookup(Put(a, k, v), j) == Lookup(a, j)
  {
    PutLookup(a, k, v, k);
    forall j | j != k
      ensures Lookup(Put(a, k, v), j) == Lookup(a, j)
    {
      PutLookup(a, k, v, j);
    }
  }

  /** A write keeps the order of the keys: an existing key stays where it is, a new key goes last. */
  lemma {:induction false} PutKeys<K, V>(a: seq<(K, V)>, k: K, v: V)
    ensures Keys(Put(a, k, v)) == if k in Keys(a) then Keys(a) else Keys(a) + [k]
  {
    if a != [] && a[0].0 != k {
      PutKeys(a[1..], k, v);
      assert Keys(a) == [a[0].0] + Keys(a[1..]);
    }
  }

  /** Writing a key that is not there appends it. */
  lemma {:induction false} PutAbsentAppends<K, V>(a: seq<(K, V)>, k: K, v: V)
    requires k !in Keys(a)
    ensures Put(a, k, v) == a + [(k, v)]
  {
    if a != [] {
      PutAbsentAppends(a[1..], k, v);
      assert a == [a[0]] + a[1..];
    }
  }

  /** A write never creates a duplicate key. */
  lemma PutDistinct<K, V>(a: seq<(K, V)>, k: K, v: V)
    requires Distinct(Keys(a))
    ensures Distinct(Keys(Put(a, k, v)))
  {
    PutKeys(a, k, v);
  }
}
