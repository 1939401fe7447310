/**
 * The insertion-ordered map that stores an object's own properties, as an
 * association list. Inserting an existing key replaces its entry where it
 * stands; inserting a new key appends it; removing a key keeps the order of
 * the remaining entries.
 */
module OrderedMaps {
  import opened Wrappers

  /** The keys, in insertion order. */
  function Keys<K, V>(m: seq<(K, V)>): (ks: seq<K>)
    ensures |ks| == |m|
  {
    if m == [] then [] else [m[0].0] + Keys(m[1..])
  }

  /** No key occurs twice. */
  predicate DistinctKeys<K(==), V>(m: seq<(K, V)>) {
    m == [] || (m[0].0 !in Keys(m[1..]) && DistinctKeys(m[1..]))
  }

  /** The value stored under `k`, if any. */
  function Get<K(==), V>(m: seq<(K, V)>, k: K): (r: Option<V>)
    ensures r.Some? <==> k in Keys(m)
    ensures r.Some? ==> (k, r.value) in m
  {
    if m == [] then None
    else if m[0].0 == k then Some(m[0].1)
    else Get(m[1..], k)
  }

  /** Stores `v` under `k`, in place when `k` is present and at the end otherwise. */
  function Insert<K(==), V>(m: seq<(K, V)>, k: K, v: V): (r: seq<(K, V)>)
  {
    if m == [] then [(k, v)]
    else if m[0].0 == k then [(k, v)] + m[1..]
    else [m[0]] + Insert(m[1..], k, v)
  }

  /** Drops the entry for `k`, if any. */
  function Remove<K(==), V>(m: seq<(K, V)>, k: K): (r: seq<(K, V)>)
  {
    if m == [] then []
    else if m[0].0 == k then m[1..]
    else [m[0]] + Remove(m[1..], k)
  }

  /** `ks` without `k`, order kept. */
  function Without<K(==)>(ks: seq<K>, k: K): (r: seq<K>)
    ensures k !in r
  {
    if ks == [] then []
    else if ks[0] == k then Without(ks[1..], k)
    else [ks[0]] + Without(ks[1..], k)
  }

  /** After an insert, `k` maps to `v` and every other key to what it did before. */
  lemma {:induction false} GetInsert<K, V>(m: seq<(K, V)>, k: K, v: V, k': K)
    ensures Get(Insert(m, k, v), k') == if k' == k then Some(v) else Get(m, k')
  {
    if m != [] && m[0].0 != k {
      GetInsert(m[1..], k, v, k');
    }
  }

  /** An insert keeps the key order, appending `k` only when it was absent. */
  lemma {:induction false} KeysInsert<K, V>(m: seq<(K, V)>, k: K, v: V)
    ensures Keys(Insert(m, k, v)) == if k in Keys(m) then Keys(m) else Keys(m) + [k]
  {
    if m != [] && m[0].0 != k {
      KeysInsert(m[1..], k, v);
      assert Keys(Insert(m, k, v)) == [m[0].0] + Keys(Insert(m[1..], k, v));
    }
  }

  lemma {:induction false} InsertDistinct<K, V>(m: seq<(K, V)>, k: K, v: V)
    requires DistinctKeys(m)
    ensures DistinctKeys(Insert(m, k, v))
  {
    if m != [] && m[0].0 != k {
      InsertDistinct(m[1..], k, v);
      KeysInsert(m[1..], k, v);
    }
  }

  /** Removing `k` leaves the other keys in their order. */
  lemma {:induction false} KeysRemove<K, V>(m: seq<(K, V)>, k: K)
    requires DistinctKeys(m)
    ensures Keys(Remove(m, k)) == Without(Keys(m), k)
  {
    if m != [] {
      KeysRemove(m[1..], k);
      if m[0].0 == k {
        WithoutAbsent(Keys(m[1..]), k);
      }
    }
  }

  lemma {:induction false} WithoutAbsent<K>(ks: seq<K>, k: K)
    requires k !in ks
    ensures Without(ks, k) == ks
  {
    if ks != [] {
      WithoutAbsent(ks[1..], k);
    }
  }

  lemma {:induction false} WithoutSubset<K>(ks: seq<K>, k: K, x: K)
    requires x in Without(ks, k)
    ensures x in ks
  {
    if ks != [] && ks[0] != x {
      if ks[0] == k {
        WithoutSubset(ks[1..], k, x);
      } else {
        assert x in Without(ks[1..], k);
        WithoutSubset(ks[1..], k, x);
      }
    }
  }

  lemma {:induction false} RemoveDistinct<K, V>(m: seq<(K, V)>, k: K)
    requires DistinctKeys(m)
    ensures DistinctKeys(Remove(m, k))
  {
    if m != [] && m[0].0 != k {
      RemoveDistinct(m[1..], k);
      KeysRemove(m[1..], k);
      if m[0].0 in Without(Keys(m[1..]), k) {
        WithoutSubset(Keys(m[1..]), k, m[0].0);
      }
    }
  }

  /** After a remove, `k` is gone and every other key maps to what it did before. */
  lemma {:induction false} GetRemove<K, V>(m: seq<(K, V)>, k: K, k': K)
    requires DistinctKeys(m)
    ensures Get(Remove(m, k), k') == if k' == k then None else Get(m, k')
  {
    if m != [] {
      if m[0].0 == k {
        if k' == k {
          assert k !in Keys(m[1..]);
        }
      } else {
        GetRemove(m[1..], k, k');
      }
    }
  }

  /** Removing an absent key changes nothing. */
  lemma {:induction false} RemoveAbsent<K, V>(m: seq<(K, V)>, k: K)
    requires k !in Keys(m)
    ensures Remove(m, k) == m
  {
    if m != [] {
      RemoveAbsent(m[1..], k);
    }
  }
}
