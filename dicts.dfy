/** Python's dict as the room handlers use it: keys kept in insertion order, assignment to
    an existing key keeping its place, `pop` removing a key wherever it is. A dict is an
    association list whose keys are all different. */
module Dicts {
  import opened Wrappers

  type Dict<K, V> = seq<(K, V)>

  function Keys<K, V>(d: Dict<K, V>): (r: seq<K>)
    ensures |r| == |d| && forall i :: 0 <= i < |d| ==> r[i] == d[i].0
  {
    if d == [] then [] else [d[0].0] + Keys(d[1..])
  }

  /** No key appears twice. */
  predicate UniqueKeys<K(==), V>(d: Dict<K, V>)
  {
    forall i, j :: 0 <= i < j < |d| ==> d[i].0 != d[j].0
  }

  /** The position of key k, or |d| when it is absent. */
  function Find<K(==), V>(d: Dict<K, V>, k: K): (r: nat)
    ensures r <= |d|
    ensures r < |d| ==> d[r].0 == k
    ensures forall j :: 0 <= j < r ==> d[j].0 != k
  {
    if d == [] then 0
    else if d[0].0 == k then 0
    else 1 + Find(d[1..], k)
  }

  lemma FindKeys<K, V>(d: Dict<K, V>, k: K)
    ensures Find(d, k) < |d| <==> k in Keys(d)
  {
    if k in Keys(d) {
      var i :| 0 <= i < |d| && Keys(d)[i] == k;
      assert d[i].0 == k;
    }
  }

  /** d.get(k) */
  function Get<K(==), V>(d: Dict<K, V>, k: K): (r: Option<V>)
    ensures r.Some? <==> k in Keys(d)
  {
    FindKeys(d, k);
    var i := Find(d, k);
    if i < |d| then Some(d[i].1) else None
  }

  /** d[k] = v: the value replaced in place, or a new entry at the end. */
  function Put<K(==), V>(d: Dict<K, V>, k: K, v: V): (r: Dict<K, V>)
    ensures Keys(r) == if k in Keys(d) then Keys(d) else Keys(d) + [k]
  {
    FindKeys(d, k);
    var i := Find(d, k);
    if i < |d| then d[i := (k, v)] else d + [(k, v)]
  }

  /** d.pop(k, None): every entry with key k goes, the others keep their order. */
  function Remove<K(==), V(==)>(d: Dict<K, V>, k: K): (r: Dict<K, V>)
    ensures k !in Keys(r)
    ensures forall i :: 0 <= i < |r| ==> r[i] in d && r[i].0 != k
    ensures forall i :: 0 <= i < |d| && d[i].0 != k ==> d[i] in r
  {
    if d == [] then []
    else
      assert Keys(d) == [d[0].0] + Keys(d[1..]);
      var rest := Remove(d[1..], k);
      assert forall i :: 1 <= i < |d| ==> d[i] == d[1..][i - 1];
      if d[0].0 == k then rest else [d[0]] + rest
  }

  /** Looking up in a non-empty dict: the first entry, or the rest. */
  lemma GetCons<K, V>(d: Dict<K, V>, k: K)
    requires d != []
    ensures Get(d, k) == if d[0].0 == k then Some(d[0].1) else Get(d[1..], k)
  {
    if d[0].0 != k {
      assert Find(d, k) == 1 + Find(d[1..], k);
    }
  }

  /** The first position holding k is unique. */
  lemma {:induction false} FindIs<K, V>(d: Dict<K, V>, k: K, i: nat)
    requires i <= |d| && (i < |d| ==> d[i].0 == k)
    requires forall j :: 0 <= j < i ==> d[j].0 != k
    ensures Find(d, k) == i
  {
    if d != [] && i > 0 {
      FindIs(d[1..], k, i - 1);
    }
  }

  /** After d[k] = v, k maps to v and every other key to what it mapped to before. */
  lemma GetPut<K, V>(d: Dict<K, V>, k: K, v: V, k': K)
    ensures Get(Put(d, k, v), k') == if k' == k then Some(v) else Get(d, k')
  {
    var r := Put(d, k, v);
    var i, j := Find(d, k), Find(d, k');
    if k' == k {
      FindIs(r, k, i);
    } else if j < |d| {
      FindIs(r, k', j);
    } else {
      FindIs(r, k', |r|);
    }
  }

  /** d.get(k', default) after d[k] = v. */
  lemma GetPutOr<K, V>(d: Dict<K, V>, k: K, v: V, k': K, default: V)
    ensures Get(Put(d, k, v), k').GetOr(default) == if k' == k then v else Get(d, k').GetOr(default)
  {
    GetPut(d, k, v, k');
  }

  /** After pop(k), k is gone and every other key maps to what it mapped to before. */
  lemma {:induction false} GetRemove<K, V>(d: Dict<K, V>, k: K, k': K)
    ensures Get(Remove(d, k), k') == if k' == k then None else Get(d, k')
  {
    if d != [] {
      GetRemove(d[1..], k, k');
      GetCons(d, k');
      var r := Remove(d, k);
      if d[0].0 != k {
        GetCons(r, k');
        assert r[1..] == Remove(d[1..], k);
      }
    }
  }

  /** Assignment keeps the keys different from each other. */
  lemma PutUnique<K, V>(d: Dict<K, V>, k: K, v: V)
    requires UniqueKeys(d)
    ensures UniqueKeys(Put(d, k, v))
  {
    var r := Put(d, k, v);
    forall i, j | 0 <= i < j < |r| ensures r[i].0 != r[j].0 {
      assert Keys(r)[i] == r[i].0 && Keys(r)[j] == r[j].0;
      assert Keys(d)[i] == d[i].0;
      if j < |d| { assert Keys(d)[j] == d[j].0; }
    }
  }

  /** Two dicts with the same keys in the same order are both free of repeats or both not. */
  lemma UniqueByKeys<K, V>(d: Dict<K, V>, e: Dict<K, V>)
    requires UniqueKeys(d) && Keys(e) == Keys(d)
    ensures UniqueKeys(e)
  {
    forall i, j | 0 <= i < j < |e| ensures e[i].0 != e[j].0 {
      assert Keys(e)[i] == e[i].0 && Keys(d)[i] == d[i].0;
      assert Keys(e)[j] == e[j].0 && Keys(d)[j] == d[j].0;
    }
  }

  /** Removal keeps the keys different from each other. */
  lemma {:induction false} RemoveUnique<K, V>(d: Dict<K, V>, k: K)
    requires UniqueKeys(d)
    ensures UniqueKeys(Remove(d, k))
  {
    if d != [] {
      RemoveUnique(d[1..], k);
      var rest := Remove(d[1..], k);
      if d[0].0 != k {
        forall j | 0 <= j < |rest| ensures d[0].0 != rest[j].0 {
          assert rest[j] in d[1..];
          var m :| 0 <= m < |d[1..]| && d[1..][m] == rest[j];
          assert d[m + 1] == rest[j];
        }
      }
    }
  }

  /** The values in insertion order. */
  function Values<K, V>(d: Dict<K, V>): (r: seq<V>)
    ensures |r| == |d| && forall i :: 0 <= i < |d| ==> r[i] == d[i].1
  {
    if d == [] then [] else [d[0].1] + Values(d[1..])
  }
}
