/** Insertion-ordered dictionaries (Python `dict`, JavaScript plain objects) as association
    lists: a key's position is fixed by its first insertion, and assigning to a present key
    replaces its value in place. */
module Dicts {
  import opened Outcomes

  type Dict<K, V> = seq<(K, V)>

  function Keys<K, V>(d: Dict<K, V>): (ks: seq<K>)
    ensures |ks| == |d| && forall i :: 0 <= i < |d| ==> ks[i] == d[i].0
  {
    seq(|d|, i requires 0 <= i < |d| => d[i].0)
  }

  /** No key appears twice. */
  predicate DistinctKeys<K(==), V>(d: Dict<K, V>) {
    forall i, j :: 0 <= i < j < |d| ==> d[i].0 != d[j].0
  }

  /** The position of the entry holding `k`, if any. */
  function Find<K(==), V>(d: Dict<K, V>, k: K): (r: Option<nat>)
    ensures r.Some? ==> r.value < |d| && d[r.value].0 == k && forall j :: 0 <= j < r.value ==> d[j].0 != k
    ensures r.None? ==> forall j :: 0 <= j < |d| ==> d[j].0 != k
  {
    if d == [] then None
    else if d[0].0 == k then Some(0)
    else match Find(d[1..], k)
      case None => None
      case Some(i) => Some(i + 1)
  }

  predicate HasKey<K(==), V>(d: Dict<K, V>, k: K) {
    Find(d, k).Some?
  }

  /** A key is present exactly when it is among the keys. */
  lemma HasKeyInKeys<K, V>(d: Dict<K, V>, k: K)
    ensures HasKey(d, k) <==> k in Keys(d)
  {
    if k in Keys(d) {
      var i :| 0 <= i < |d| && Keys(d)[i] == k;
      assert d[i].0 == k;
    }
  }

  /** `d.get(k)`. */
  function Get<K(==), V>(d: Dict<K, V>, k: K): (r: Option<V>)
  {
    match Find(d, k)
    case None => None
    case Some(i) => Some(d[i].1)
  }

  /** `d.get(k, default)`. */
  function GetOr<K(==), V>(d: Dict<K, V>, k: K, default: V): V {
    Get(d, k).GetOr(default)
  }

  /** `d[k] = v`: replaces the value in place when `k` is present, appends otherwise. */
  function Put<K(==), V>(d: Dict<K, V>, k: K, v: V): (r: Dict<K, V>)
    ensures |r| == if HasKey(d, k) then |d| else |d| + 1
  {
    match Find(d, k)
    case None => d + [(k, v)]
    case Some(i) => d[i := (k, v)]
  }

  /** Assigning keeps the key sequence, extended by `k` when it was absent. */
  lemma PutKeys<K, V>(d: Dict<K, V>, k: K, v: V)
    ensures Keys(Put(d, k, v)) == if HasKey(d, k) then Keys(d) else Keys(d) + [k]
  {
  }

  /** After `d[k] = v`, `k` maps to `v` and every other key keeps its value. */
  lemma PutGet<K, V>(d: Dict<K, V>, k: K, v: V, k': K)
    ensures Get(Put(d, k, v), k') == if k' == k then Some(v) else Get(d, k')
  {
    var r := Put(d, k, v);
    match Find(d, k)
    case None =>
      assert r == d + [(k, v)];
      assert forall j :: 0 <= j < |d| ==> r[j] == d[j];
      if k' == k {
        assert r[|d|].0 == k;
        match Find(r, k)
        case None =>
        case Some(j) => assert j == |d|;
      } else if Find(d, k').Some? {
        assert Find(r, k') == Find(d, k');
      }
    case Some(i) =>
      assert r == d[i := (k, v)];
      assert forall j :: 0 <= j < |d| ==> r[j].0 == d[j].0;
      if k' == k {
        match Find(r, k)
        case None =>
        case Some(j) => assert j == i;
      } else {
        match Find(d, k')
        case None =>
        case Some(j) => assert Find(r, k') == Some(j);
      }
  }

  /** Assigning never introduces a second entry for a key. */
  lemma PutKeepsKeysDistinct<K, V>(d: Dict<K, V>, k: K, v: V)
    requires DistinctKeys(d)
    ensures DistinctKeys(Put(d, k, v))
  {
    var r := Put(d, k, v);
    assert forall i :: 0 <= i < |r| ==> r[i].0 == Keys(r)[i];
  }

  /** `d[k] = d.get(k, 0) + c`, the accumulation step of a tally. */
  function AddTo<K(==)>(d: Dict<K, int>, k: K, c: int): (r: Dict<K, int>)
    ensures |r| == if HasKey(d, k) then |d| else |d| + 1
  {
    Put(d, k, GetOr(d, k, 0) + c)
  }

  /** The sum of the values. */
  function Sum<K>(d: Dict<K, int>): int {
    if d == [] then 0 else d[0].1 + Sum(d[1..])
  }

  /** The sum of a sequence of integers that differ from those of `d` at position `i` only. */
  lemma {:induction false} SumUpdate<K>(d: Dict<K, int>, i: nat, e: (K, int))
    requires i < |d|
    ensures Sum(d[i := e]) == Sum(d) - d[i].1 + e.1
  {
    if i > 0 {
      SumUpdate(d[1..], i - 1, e);
      assert d[i := e][1..] == d[1..][i - 1 := e];
    }
  }

  lemma {:induction false} SumAppend<K>(d: Dict<K, int>, e: (K, int))
    ensures Sum(d + [e]) == Sum(d) + e.1
  {
    if d != [] {
      SumAppend(d[1..], e);
      assert (d + [e])[1..] == d[1..] + [e];
    }
  }

  /** Adding `c` under any key adds `c` to the sum. */
  lemma SumAddTo<K>(d: Dict<K, int>, k: K, c: int)
    ensures Sum(AddTo(d, k, c)) == Sum(d) + c
  {
    match Find(d, k)
    case None => SumAppend(d, (k, c));
    case Some(i) => SumUpdate(d, i, (k, d[i].1 + c));
  }
}
