/**
 * A Python dict: its entries in first-insertion order. Assigning to an
 * existing key replaces the value where the key already stands; a new key
 * goes to the end. `list(d.keys())[0]` is the first entry's key.
 */
module OrderedMaps {
  import opened Wrappers

  type ODict<K, V> = seq<(K, V)>

  function Keys<K, V>(d: ODict<K, V>): seq<K>
    decreases |d|
  {
    if d == [] then [] else [d[0].0] + Keys(d[1..])
  }

  /** Python's `d.get(k)`. */
  function Get<K(==), V>(d: ODict<K, V>, k: K): Option<V>
    decreases |d|
  {
    if d == [] then None
    else if d[0].0 == k then Some(d[0].1)
    else Get(d[1..], k)
  }

  /** Python's `d[k] = v`. */
  function Put<K(==), V>(d: ODict<K, V>, k: K, v: V): ODict<K, V>
    decreases |d|
  {
    if d == [] then [(k, v)]
    else if d[0].0 == k then [(k, v)] + d[1..]
    else [d[0]] + Put(d[1..], k, v)
  }

  /** No key stands twice, as in every Python dict. */
  predicate DistinctKeys<K(==), V>(d: ODict<K, V>) {
    forall i, j :: 0 <= i < j < |d| ==> d[i].0 != d[j].0
  }

  lemma {:induction false} KeysIndex<K, V>(d: ODict<K, V>)
    ensures |Keys(d)| == |d|
    ensures forall i :: 0 <= i < |d| ==> Keys(d)[i] == d[i].0
    decreases |d|
  {
    if d != [] {
      KeysIndex(d[1..]);
    }
  }

  /** A key has a value exactly when it is one of the dict's keys. */
  lemma {:induction false} GetIffKey<K, V>(d: ODict<K, V>, k: K)
    ensures Get(d, k).Some? <==> k in Keys(d)
    decreases |d|
  {
    if d != [] {
      GetIffKey(d[1..], k);
    }
  }

  /** The value just assigned is the value read back. */
  lemma {:induction false} PutGet<K, V>(d: ODict<K, V>, k: K, v: V, k': K)
    ensures Get(Put(d, k, v), k') == if k' == k then Some(v) else Get(d, k')
    decreases |d|
  {
    if d != [] && d[0].0 != k {
      PutGet(d[1..], k, v, k');
    }
  }

  /** Assigning an existing key keeps the key order; a new key is appended. */
  lemma {:induction false} PutKeys<K, V>(d: ODict<K, V>, k: K, v: V)
    ensures Keys(Put(d, k, v)) == if k in Keys(d) then Keys(d) else Keys(d) + [k]
    decreases |d|
  {
    if d != [] && d[0].0 != k {
      PutKeys(d[1..], k, v);
    }
  }

  /** Assigning a key the value it already has leaves the dict unchanged. */
  lemma {:induction false} PutSame<K, V>(d: ODict<K, V>, k: K, v: V)
    requires Get(d, k) == Some(v)
    ensures Put(d, k, v) == d
    decreases |d|
  {
    if d[0].0 != k {
      PutSame(d[1..], k, v);
    }
  }

  lemma DistinctKeysIff<K, V>(d: ODict<K, V>)
    ensures DistinctKeys(d) <==> forall i, j :: 0 <= i < j < |Keys(d)| ==> Keys(d)[i] != Keys(d)[j]
  {
    KeysIndex(d);
  }

  /** Assignment keeps the keys distinct. */
  lemma PutDistinct<K, V>(d: ODict<K, V>, k: K, v: V)
    requires DistinctKeys(d)
    ensures DistinctKeys(Put(d, k, v))
  {
    PutKeys(d, k, v);
    DistinctKeysIff(d);
    DistinctKeysIff(Put(d, k, v));
    var ks := Keys(d);
    if k !in ks {
      forall i, j | 0 <= i < j < |ks + [k]|
        ensures (ks + [k])[i] != (ks + [k])[j]
      {
        if j == |ks| {
          assert (ks + [k])[i] == ks[i];
        }
      }
    }
  }

  /** The first key of a non-empty dict survives every assignment. */
  lemma PutKeepsFirst<K, V>(d: ODict<K, V>, k: K, v: V)
    requires d != []
    ensures Put(d, k, v)[0].0 == d[0].0
  {
  }

  /** In a dict without repeated keys, the entry at any position is the one `get` finds. */
  lemma {:induction false} GetAt<K, V>(d: ODict<K, V>, i: int)
    requires DistinctKeys(d) && 0 <= i < |d|
    ensures Get(d, d[i].0) == Some(d[i].1)
    decreases |d|
  {
    if i > 0 {
      assert d[0].0 != d[i].0;
      assert d[1..][i - 1] == d[i];
      GetAt(d[1..], i - 1);
    }
  }

  /** Two dicts with the same keys in the same order and the same values are equal. */
  lemma SameEntries<K, V>(a: ODict<K, V>, b: ODict<K, V>)
    requires DistinctKeys(a) && Keys(a) == Keys(b)
    requires forall k :: Get(a, k) == Get(b, k)
    ensures a == b
  {
    KeysIndex(a);
    KeysIndex(b);
    DistinctKeysIff(a);
    DistinctKeysIff(b);
    forall i | 0 <= i < |a|
      ensures a[i] == b[i]
    {
      GetAt(a, i);
      GetAt(b, i);
    }
  }

  /** A value `get` finds is the value of one of the entries. */
  lemma {:induction false} GetEntry<K, V>(d: ODict<K, V>, k: K)
    requires Get(d, k).Some?
    ensures (k, Get(d, k).value) in d
    decreases |d|
  {
    if d[0].0 != k {
      GetEntry(d[1..], k);
    }
  }

  /** After an assignment each entry is the new one or an entry from before. */
  lemma {:induction false} PutEntries<K, V>(d: ODict<K, V>, k: K, v: V)
    ensures forall e :: e in Put(d, k, v) ==> e == (k, v) || e in d
    decreases |d|
  {
    if d != [] && d[0].0 != k {
      PutEntries(d[1..], k, v);
    }
  }
}
