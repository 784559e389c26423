/**
 A JavaScript `Map` and a JavaScript object behave alike: a
 list of entries in insertion order, where writing an existing key keeps its
 place and writing a new one appends. Both are modelled as `OMap`.
 */
module OrderedMap {
  import opened Wrappers

  datatype Entry<+K, +V> = Entry(key: K, val: V)

  type OMap<+K, +V> = seq<Entry<K, V>>

  function Get<K(==, !new), V>(m: OMap<K, V>, k: K): Option<V> {
    if m == [] then None
    else if m[0].key == k then Some(m[0].val)
    else Get(m[1..], k)
  }

  predicate Has<K(==, !new), V>(m: OMap<K, V>, k: K) {
    Get(m, k).Some?
  }

  /** No key occurs twice. */
  ghost predicate Distinct<K(!new), V>(m: OMap<K, V>) {
    m != [] ==> Get(m[1..], m[0].key).None? && Distinct(m[1..])
  }

  /** `map.set(k, v)`, `obj[k] = v` and the spread `{ ...obj, k: v }`. */
  function Put<K(==, !new), V>(m: OMap<K, V>, k: K, v: V): (r: OMap<K, V>)
    ensures Get(r, k) == Some(v)
    ensures forall q :: q != k ==> Get(r, q) == Get(m, q)
    ensures Distinct(m) ==> Distinct(r)
    ensures |r| == if Has(m, k) then |m| else |m| + 1
  {
    if m == [] then [Entry(k, v)]
    else if m[0].key == k then [Entry(k, v)] + m[1..]
    else [m[0]] + Put(m[1..], k, v)
  }

  /** `map.delete(k)` and the rest pattern `{ k, ...rest }`. */
  function Remove<K(==, !new), V>(m: OMap<K, V>, k: K): (r: OMap<K, V>)
    ensures Get(r, k).None?
    ensures forall q :: q != k ==> Get(r, q) == Get(m, q)
    ensures Distinct(m) ==> Distinct(r)
    ensures Get(m, k).None? ==> r == m
    ensures Distinct(m) && Has(m, k) ==> |r| == |m| - 1
    ensures |r| <= |m|
  {
    if m == [] then []
    else if m[0].key == k then Remove(m[1..], k)
    else [m[0]] + Remove(m[1..], k)
  }

  /** `{ ...m, ...n }`. */
  function Spread<K(==, !new), V>(m: OMap<K, V>, n: OMap<K, V>): (r: OMap<K, V>)
    ensures Distinct(n) ==> forall q :: Get(r, q) == if Has(n, q) then Get(n, q) else Get(m, q)
    ensures Distinct(m) ==> Distinct(r)
    decreases |n|
  {
    if n == [] then m else Spread(Put(m, n[0].key, n[0].val), n[1..])
  }

  lemma {:induction false} GetEntry<K(!new), V>(m: OMap<K, V>, k: K)
    ensures Get(m, k).Some? ==> Entry(k, Get(m, k).value) in m
    ensures Get(m, k).None? ==> forall e :: e in m ==> e.key != k
  {
    if m != [] {
      GetEntry(m[1..], k);
      assert m == [m[0]] + m[1..];
    }
  }

  lemma {:induction false} EntryGet<K(!new), V>(m: OMap<K, V>, i: nat)
    requires Distinct(m) && i < |m|
    ensures Get(m, m[i].key) == Some(m[i].val)
  {
    if i > 0 {
      EntryGet(m[1..], i - 1);
      GetEntry(m[1..], m[0].key);
      assert m[1..][i - 1] == m[i];
    }
  }

  lemma {:induction false} Absent<K(!new), V>(m: OMap<K, V>, k: K)
    requires forall i :: 0 <= i < |m| ==> m[i].key != k
    ensures Get(m, k).None?
  {
    if m != [] {
      Absent(m[1..], k);
    }
  }

  lemma {:induction false} PairwiseDistinct<K(!new), V>(m: OMap<K, V>)
    requires forall i, j :: 0 <= i < j < |m| ==> m[i].key != m[j].key
    ensures Distinct(m)
  {
    if m != [] {
      Absent(m[1..], m[0].key);
      PairwiseDistinct(m[1..]);
    }
  }

  /** Writing back what is already there changes nothing, not even the order. */
  lemma {:induction false} PutSame<K(!new), V>(m: OMap<K, V>, k: K, v: V)
    requires Get(m, k) == Some(v)
    ensures Put(m, k, v) == m
  {
    if m[0].key != k {
      PutSame(m[1..], k, v);
    }
  }

  lemma {:induction false} RemovePut<K(!new), V>(m: OMap<K, V>, k: K, v: V)
    ensures Remove(Put(m, k, v), k) == Remove(m, k)
  {
    if m != [] && m[0].key != k {
      RemovePut(m[1..], k, v);
    }
  }

  lemma {:induction false} PutPut<K(!new), V>(m: OMap<K, V>, k: K, v: V, w: V)
    ensures Put(Put(m, k, v), k, w) == Put(m, k, w)
  {
    if m != [] && m[0].key != k {
      PutPut(m[1..], k, v, w);
    }
  }

  lemma {:induction false} RemoveCommutes<K(!new), V>(m: OMap<K, V>, j: K, k: K)
    ensures Remove(Remove(m, j), k) == Remove(Remove(m, k), j)
  {
    if m != [] {
      RemoveCommutes(m[1..], j, k);
    }
  }

  lemma {:induction false} PutFresh<K(!new), V>(m: OMap<K, V>, k: K, v: V)
    requires Get(m, k).None?
    ensures Put(m, k, v) == m + [Entry(k, v)]
  {
    if m != [] {
      PutFresh(m[1..], k, v);
    }
  }

  lemma {:induction false} DistinctInit<K(!new), V>(m: OMap<K, V>)
    requires m != [] && Distinct(m)
    ensures Distinct(m[..|m| - 1]) && Get(m[..|m| - 1], m[|m| - 1].key).None?
    ensures forall q :: q != m[|m| - 1].key ==> Get(m[..|m| - 1], q) == Get(m, q)
  {
    if |m| > 1 {
      DistinctInit(m[1..]);
      assert m[..|m| - 1][1..] == m[1..][..|m| - 2];
      EntryGet(m, |m| - 1);
      assert Get(m[1..], m[0].key).None? && m[0].key != m[|m| - 1].key by {
        GetEntry(m[1..], m[0].key);
        assert m[1..][|m| - 2] == m[|m| - 1];
      }
    }
  }
}
