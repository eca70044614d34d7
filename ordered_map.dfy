/**
 * A JavaScript `Map`: a finite map that also remembers the order in which its keys were
 * first inserted. `Set` on a key already present replaces the value and keeps the key's
 * position; iteration (`keys()`, `values()`) follows insertion order.
 */
module OrderedMaps {
  import opened Wrappers

  datatype OrderedMap<K(!new), V> = OrderedMap(keys: seq<K>, entries: map<K, V>)
  {
    /** The keys are distinct and are exactly the keys of the map. */
    ghost predicate Valid()
    {
      (forall i, j :: 0 <= i < j < |keys| ==> keys[i] != keys[j])
      && (forall k :: k in entries <==> k in keys)
    }

    /** `map.get(k)`. */
    function Get(k: K): (r: Option<V>)
      ensures r.Some? <==> k in entries
      ensures r.Some? ==> r.value == entries[k]
    {
      if k in entries then Some(entries[k]) else None
    }

    /** `map.set(k, v)`. */
    function Set(k: K, v: V): (r: OrderedMap<K, V>)
      requires Valid()
      ensures r.Valid()
      ensures r.entries == entries[k := v]
      ensures k in keys ==> r.keys == keys
      ensures k !in keys ==> r.keys == keys + [k]
    {
      OrderedMap(if k in entries then keys else keys + [k], entries[k := v])
    }

    /** `Array.from(map.values())`. */
    function Values(): (r: seq<V>)
      requires Valid()
      ensures |r| == |keys|
      ensures forall i :: 0 <= i < |keys| ==> r[i] == entries[keys[i]]
    {
      ValuesOf(keys, entries)
    }
  }

  /** The values stored under `ks`, in the order of `ks`. */
  function ValuesOf<K, V>(ks: seq<K>, m: map<K, V>): (r: seq<V>)
    requires forall k :: k in ks ==> k in m
    ensures |r| == |ks|
    ensures forall i :: 0 <= i < |ks| ==> r[i] == m[ks[i]]
  {
    if ks == [] then [] else [m[ks[0]]] + ValuesOf(ks[1..], m)
  }

  /** `new Map()`. */
  function Empty<K(!new), V>(): (r: OrderedMap<K, V>)
    ensures r.Valid() && r.keys == [] && r.entries == map[]
  {
    OrderedMap([], map[])
  }

  /** Setting one key never moves another: the order of the keys already present is kept. */
  lemma SetKeepsOrder<K(!new), V>(m: OrderedMap<K, V>, k: K, v: V, i: nat)
    requires m.Valid() && i < |m.keys|
    ensures i < |m.Set(k, v).keys| && m.Set(k, v).keys[i] == m.keys[i]
  {
  }

  /** `m.set(k, v)` for each pair in turn, as a `forEach` over the pairs does. */
  function SetAll<K(!new), V>(m: OrderedMap<K, V>, kvs: seq<(K, V)>): (r: OrderedMap<K, V>)
    requires m.Valid()
    ensures r.Valid()
    decreases |kvs|
  {
    if kvs == [] then m else SetAll(m.Set(kvs[0].0, kvs[0].1), kvs[1..])
  }

  /** Setting a list of pairs, then another, is setting their concatenation. */
  lemma {:induction false} SetAllAppend<K(!new), V>(m: OrderedMap<K, V>, xs: seq<(K, V)>, ys: seq<(K, V)>)
    requires m.Valid()
    ensures SetAll(m, xs + ys) == SetAll(SetAll(m, xs), ys)
    decreases |xs|
  {
    if xs == [] {
      assert xs + ys == ys;
    } else {
      assert (xs + ys)[0] == xs[0];
      assert (xs + ys)[1..] == xs[1..] + ys;
      SetAllAppend(m.Set(xs[0].0, xs[0].1), xs[1..], ys);
    }
  }

  /** A key is present afterwards exactly when it was before or some pair names it. */
  lemma {:induction false} SetAllKeys<K(!new), V>(m: OrderedMap<K, V>, kvs: seq<(K, V)>, k: K)
    requires m.Valid()
    ensures k in SetAll(m, kvs).entries <==> k in m.entries || exists i :: 0 <= i < |kvs| && kvs[i].0 == k
    decreases |kvs|
  {
    if kvs != [] {
      SetAllKeys(m.Set(kvs[0].0, kvs[0].1), kvs[1..], k);
      if exists i :: 0 <= i < |kvs[1..]| && kvs[1..][i].0 == k {
        var i :| 0 <= i < |kvs[1..]| && kvs[1..][i].0 == k;
        assert kvs[i + 1].0 == k;
      }
      if exists i :: 0 <= i < |kvs| && kvs[i].0 == k {
        var i :| 0 <= i < |kvs| && kvs[i].0 == k;
        if i > 0 {
          assert kvs[1..][i - 1].0 == k;
        }
      }
    }
  }

  /** Last writer wins: a key ends up with the value of the last pair that names it. */
  lemma {:induction false} SetAllLast<K(!new), V>(m: OrderedMap<K, V>, kvs: seq<(K, V)>, i: nat)
    requires m.Valid() && i < |kvs|
    requires forall j :: i < j < |kvs| ==> kvs[j].0 != kvs[i].0
    ensures kvs[i].0 in SetAll(m, kvs).entries
    ensures SetAll(m, kvs).entries[kvs[i].0] == kvs[i].1
    decreases |kvs|
  {
    var m1 := m.Set(kvs[0].0, kvs[0].1);
    if i == 0 {
      SetAllUntouched(m1, kvs[1..], kvs[0].0);
    } else {
      SetAllLast(m1, kvs[1..], i - 1);
    }
  }

  /** Pairs that do not name a key leave its presence and value alone. */
  lemma {:induction false} SetAllUntouched<K(!new), V>(m: OrderedMap<K, V>, kvs: seq<(K, V)>, k: K)
    requires m.Valid()
    requires forall j :: 0 <= j < |kvs| ==> kvs[j].0 != k
    ensures k in SetAll(m, kvs).entries <==> k in m.entries
    ensures k in m.entries ==> SetAll(m, kvs).entries[k] == m.entries[k]
    decreases |kvs|
  {
    if kvs != [] {
      SetAllUntouched(m.Set(kvs[0].0, kvs[0].1), kvs[1..], k);
    }
  }

  /** Last writer wins, for a pair in the later of two runs of writes. */
  lemma SetAllLastOfSuffix<K(!new), V>(m: OrderedMap<K, V>, xs: seq<(K, V)>, ys: seq<(K, V)>, i: nat)
    requires m.Valid() && i < |ys|
    requires forall j :: i < j < |ys| ==> ys[j].0 != ys[i].0
    ensures ys[i].0 in SetAll(m, xs + ys).entries
    ensures SetAll(m, xs + ys).entries[ys[i].0] == ys[i].1
  {
    SetAllAppend(m, xs, ys);
    SetAllLast(SetAll(m, xs), ys, i);
  }
}
