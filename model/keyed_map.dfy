/** A JavaScript `Map` (or a plain object used as a dictionary): entries in
    insertion order, where `set` on a key that is already present replaces the
    value in place and a new key goes to the end. The stores and importers build
    one with `forEach(t => map.set(key(t), t))` and read it back with
    `Array.from(map.values())`. */
module KeyedMap {
  import opened Wrappers

  type Entries<K, V> = seq<(K, V)>

  function Keys<K(==), V(==)>(m: Entries<K, V>): (ks: seq<K>)
    ensures |ks| == |m| && forall i :: 0 <= i < |m| ==> ks[i] == m[i].0
  {
    if m == [] then [] else [m[0].0] + Keys(m[1..])
  }

  function Values<K(==), V(==)>(m: Entries<K, V>): (vs: seq<V>)
    ensures |vs| == |m| && forall i :: 0 <= i < |m| ==> vs[i] == m[i].1
  {
    if m == [] then [] else [m[0].1] + Values(m[1..])
  }

  /** No key occurs twice: what a `Map` guarantees. */
  predicate UniqueKeys<K(==), V(==)>(m: Entries<K, V>) {
    forall i, j :: 0 <= i < j < |m| ==> m[i].0 != m[j].0
  }

  predicate Has<K(==), V(==)>(m: Entries<K, V>, k: K) {
    exists i :: 0 <= i < |m| && m[i].0 == k
  }

  /** `map.get(k)`. */
  function Get<K(==), V(==)>(m: Entries<K, V>, k: K): (r: Option<V>)
    ensures r.Some? <==> Has(m, k)
    ensures r.Some? ==> exists i :: 0 <= i < |m| && m[i] == (k, r.value)
  {
    if m == [] then None
    else if m[0].0 == k then Some(m[0].1)
    else
      var r := Get(m[1..], k);
      assert r.Some? ==> exists i :: 0 <= i < |m[1..]| && m[1..][i] == (k, r.value);
      assert Has(m[1..], k) ==> Has(m, k);
      assert Has(m, k) && m[0].0 != k ==> Has(m[1..], k) by {
        if Has(m, k) && m[0].0 != k {
          var i :| 0 <= i < |m| && m[i].0 == k;
          assert m[1..][i - 1].0 == k;
        }
      }
      r
  }

  /** `map.set(k, v)`: replace in place, or append a new entry. */
  function Set<K(==), V(==)>(m: Entries<K, V>, k: K, v: V): (r: Entries<K, V>)
    ensures Has(m, k) ==> |r| == |m|
    ensures !Has(m, k) ==> r == m + [(k, v)]
    ensures forall i :: 0 <= i < |m| ==> r[i] == (if m[i].0 == k then (k, v) else m[i])
  {
    if Has(m, k) then Replace(m, k, v) else m + [(k, v)]
  }

  function Replace<K(==), V(==)>(m: Entries<K, V>, k: K, v: V): (r: Entries<K, V>)
    ensures |r| == |m|
    ensures forall i :: 0 <= i < |m| ==> r[i] == (if m[i].0 == k then (k, v) else m[i])
  {
    if m == [] then [] else [if m[0].0 == k then (k, v) else m[0]] + Replace(m[1..], k, v)
  }

  /** `set` keeps the keys unique, makes `k` map to `v`, and leaves every other
      key's value alone. */
  lemma SetProperties<K, V>(m: Entries<K, V>, k: K, v: V)
    requires UniqueKeys(m)
    ensures UniqueKeys(Set(m, k, v))
    ensures Get(Set(m, k, v), k) == Some(v)
    ensures forall k2 :: k2 != k ==> Get(Set(m, k, v), k2) == Get(m, k2)
  {
    var r := Set(m, k, v);
    assert Has(r, k) by {
      if Has(m, k) {
        var i :| 0 <= i < |m| && m[i].0 == k;
        assert r[i].0 == k;
      } else {
        assert r[|m|].0 == k;
      }
    }
    assert UniqueKeys(r) by {
      forall i, j | 0 <= i < j < |r| ensures r[i].0 != r[j].0 {
        if j == |m| { assert !Has(m, k); assert m[i].0 != k; }
      }
    }
    GetUnique(r, k, v);
    forall k2 | k2 != k ensures Get(r, k2) == Get(m, k2) {
      if Has(m, k2) {
        var i :| 0 <= i < |m| && m[i].0 == k2;
        GetUnique(m, k2, m[i].1);
        assert r[i] == m[i];
        GetUnique(r, k2, m[i].1);
      } else {
        assert !Has(r, k2) by {
          forall i | 0 <= i < |r| ensures r[i].0 != k2 {
            if i < |m| { assert r[i].0 == k || r[i] == m[i]; }
          }
        }
      }
    }
  }

  /** In a map with unique keys, the entry of `k` is the one `get` returns. */
  lemma GetUnique<K, V>(m: Entries<K, V>, k: K, v: V)
    requires UniqueKeys(m)
    requires exists i :: 0 <= i < |m| && m[i] == (k, v)
    ensures Get(m, k) == Some(v)
  {
    var i :| 0 <= i < |m| && m[i] == (k, v);
    var r := Get(m, k);
    var j :| 0 <= j < |m| && m[j] == (k, r.value);
    assert i == j;
  }

  /** `items.forEach(x => map.set(key(x), x))`. */
  function SetAll<K(==), V(==)>(m: Entries<K, V>, items: seq<V>, key: V -> K): Entries<K, V>
    decreases |items|
  {
    if items == [] then m
    else
      var n := |items| - 1;
      Set(SetAll(m, items[..n], key), key(items[n]), items[n])
  }

  /** `items.forEach(x => { if (!map.has(key(x))) map.set(key(x), x); })`. */
  function SetAllIfAbsent<K(==), V(==)>(m: Entries<K, V>, items: seq<V>, key: V -> K): Entries<K, V>
    decreases |items|
  {
    if items == [] then m
    else
      var n := |items| - 1;
      var p := SetAllIfAbsent(m, items[..n], key);
      if Has(p, key(items[n])) then p else Set(p, key(items[n]), items[n])
  }

  /** The last item with key `k`, if any. */
  function LastWithKey<K(==), V(==)>(items: seq<V>, key: V -> K, k: K): (r: Option<V>)
    ensures r.Some? ==> r.value in items && key(r.value) == k
    ensures r.None? <==> forall i :: 0 <= i < |items| ==> key(items[i]) != k
    ensures forall i ::
      (0 <= i < |items| && key(items[i]) == k && forall j :: i < j < |items| ==> key(items[j]) != k)
      ==> r == Some(items[i])
  {
    if items == [] then None
    else
      var n := |items| - 1;
      if key(items[n]) == k then Some(items[n])
      else
        var r := LastWithKey(items[..n], key, k);
        assert forall i :: 0 <= i < n ==> items[i] == items[..n][i];
        r
  }

  /** The first item with key `k`, if any. */
  function FirstWithKey<K(==), V(==)>(items: seq<V>, key: V -> K, k: K): (r: Option<V>)
    ensures r.Some? ==> r.value in items && key(r.value) == k
    ensures r.None? <==> forall i :: 0 <= i < |items| ==> key(items[i]) != k
    ensures forall i ::
      (0 <= i < |items| && key(items[i]) == k && forall j :: 0 <= j < i ==> key(items[j]) != k)
      ==> r == Some(items[i])
  {
    if items == [] then None
    else if key(items[0]) == k then Some(items[0])
    else
      var r := FirstWithKey(items[1..], key, k);
      assert forall i :: 1 <= i < |items| ==> items[i] == items[1..][i - 1];
      r
  }

  /** Overwriting merge: the keys stay unique, and each key ends up with the last
      item that carries it, or with its old value when no item does. */
  lemma {:induction false} SetAllGet<K, V>(m: Entries<K, V>, items: seq<V>, key: V -> K)
    requires UniqueKeys(m)
    ensures UniqueKeys(SetAll(m, items, key))
    ensures forall k :: (Get(SetAll(m, items, key), k) ==
      if LastWithKey(items, key, k).Some? then LastWithKey(items, key, k) else Get(m, k))
    decreases |items|
  {
    if items != [] {
      var n := |items| - 1;
      SetAllGet(m, items[..n], key);
      SetProperties(SetAll(m, items[..n], key), key(items[n]), items[n]);
    }
  }

  /** First-wins merge: the keys stay unique, a key already present keeps its
      value, and a new key gets the first item that carries it. */
  lemma {:induction false} SetAllIfAbsentGet<K, V>(m: Entries<K, V>, items: seq<V>, key: V -> K)
    requires UniqueKeys(m)
    ensures UniqueKeys(SetAllIfAbsent(m, items, key))
    ensures forall k :: (Get(SetAllIfAbsent(m, items, key), k) ==
      if Has(m, k) then Get(m, k) else FirstWithKey(items, key, k))
    decreases |items|
  {
    if items != [] {
      var n := |items| - 1;
      var p := SetAllIfAbsent(m, items[..n], key);
      SetAllIfAbsentGet(m, items[..n], key);
      if !Has(p, key(items[n])) {
        SetProperties(p, key(items[n]), items[n]);
      }
      forall k ensures FirstWithKey(items, key, k) ==
        (if FirstWithKey(items[..n], key, k).Some? then FirstWithKey(items[..n], key, k)
         else if key(items[n]) == k then Some(items[n]) else None)
      {
        FirstWithKeySnoc(items, key, k);
      }
    }
  }

  lemma {:induction false} FirstWithKeySnoc<K, V>(items: seq<V>, key: V -> K, k: K)
    requires items != []
    ensures var n := |items| - 1;
      FirstWithKey(items, key, k) ==
        (if FirstWithKey(items[..n], key, k).Some? then FirstWithKey(items[..n], key, k)
         else if key(items[n]) == k then Some(items[n]) else None)
  {
    var n := |items| - 1;
    if n > 0 && key(items[0]) != k {
      FirstWithKeySnoc(items[1..], key, k);
      assert items[1..][..n - 1] == items[..n][1..];
    }
  }

  /** Every key in the map is held by an entry, so `Values` of a keyed merge lists
      one item per distinct key. */
  lemma ValuesOfUnique<K, V>(m: Entries<K, V>, k: K)
    requires UniqueKeys(m) && Has(m, k)
    ensures Get(m, k).value in Values(m)
  {
    var i :| 0 <= i < |m| && m[i] == (k, Get(m, k).value);
    assert Values(m)[i] == Get(m, k).value;
  }

  /** The keys of a map, as a set. */
  function KeySet<K(==,!new), V(==)>(m: Entries<K, V>): (ks: set<K>)
    ensures forall k :: k in ks <==> Has(m, k)
  {
    set i | 0 <= i < |m| :: m[i].0
  }

  /** A map with unique keys has exactly as many entries as keys. */
  lemma {:induction false} UniqueKeysCount<K(!new), V>(m: Entries<K, V>)
    requires UniqueKeys(m)
    ensures |KeySet(m)| == |m|
    decreases |m|
  {
    if m != [] {
      var n := |m| - 1;
      UniqueKeysCount(m[..n]);
      assert KeySet(m) == KeySet(m[..n]) + {m[n].0};
      assert m[n].0 !in KeySet(m[..n]);
    }
  }

  /** Every entry is stored under its own item's key, as `map.set(key(x), x)` stores it. */
  predicate KeyedBy<K(==), V(==)>(m: Entries<K, V>, key: V -> K) {
    forall i :: 0 <= i < |m| ==> m[i].0 == key(m[i].1)
  }

  lemma {:induction false} SetAllKeyedBy<K, V>(m: Entries<K, V>, items: seq<V>, key: V -> K)
    requires KeyedBy(m, key)
    ensures KeyedBy(SetAll(m, items, key), key)
    decreases |items|
  {
    if items != [] {
      SetAllKeyedBy(m, items[..|items| - 1], key);
    }
  }

  lemma {:induction false} SetAllIfAbsentKeyedBy<K, V>(m: Entries<K, V>, items: seq<V>, key: V -> K)
    requires KeyedBy(m, key)
    ensures KeyedBy(SetAllIfAbsent(m, items, key), key)
    decreases |items|
  {
    if items != [] {
      SetAllIfAbsentKeyedBy(m, items[..|items| - 1], key);
    }
  }

  /** In a keyed map with unique keys, each value is what `get` returns for its key. */
  lemma ValuesKeyed<K, V>(m: Entries<K, V>, key: V -> K)
    requires UniqueKeys(m) && KeyedBy(m, key)
    ensures forall v :: v in Values(m) ==> Get(m, key(v)) == Some(v)
  {
    forall v | v in Values(m) ensures Get(m, key(v)) == Some(v) {
      var i :| 0 <= i < |m| && Values(m)[i] == v;
      GetUnique(m, key(v), v);
    }
  }

  /** The `forEach` loop that `map.set`s every item, one at a time. */
  method SetEach<K(==), V(==)>(m: Entries<K, V>, items: seq<V>, key: V -> K) returns (r: Entries<K, V>)
    ensures r == SetAll(m, items, key)
  {
    r := m;
    var i := 0;
    while i < |items|
      invariant 0 <= i <= |items|
      invariant r == SetAll(m, items[..i], key)
    {
      assert items[..i + 1][..i] == items[..i];
      r := Set(r, key(items[i]), items[i]);
      i := i + 1;
    }
    assert items[..|items|] == items;
  }

  /** The `forEach` loop that `map.set`s an item only when its key is absent. */
  method SetEachIfAbsent<K(==), V(==)>(m: Entries<K, V>, items: seq<V>, key: V -> K) returns (r: Entries<K, V>)
    ensures r == SetAllIfAbsent(m, items, key)
  {
    r := m;
    var i := 0;
    while i < |items|
      invariant 0 <= i <= |items|
      invariant r == SetAllIfAbsent(m, items[..i], key)
    {
      assert items[..i + 1][..i] == items[..i];
      if !Has(r, key(items[i])) {
        r := Set(r, key(items[i]), items[i]);
      }
      i := i + 1;
    }
    assert items[..|items|] == items;
  }
}

