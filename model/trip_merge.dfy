/** The keyed merges of trip lists. Trip history, the trip-file import and the
    cloud sync all index trips by `date + '-' + start_timestamp` in a `Map`, and
    then read `Array.from(map.values())` back and sort it by date. They differ
    only in who wins a key collision: the incoming list (`map.set` for every
    trip) or the list already in the map (`if (!map.has(key)) map.set(...)`). */
module TripMerge {
  import opened Wrappers
  import opened Records
  import opened JsText
  import opened KeyedMap
  import opened StableSort

  /** `t.date + '-' + t.start_timestamp`. */
  function TripKey(t: Trip): string {
    t.date + "-" + IntToString(t.startTs)
  }

  function Key(): Trip -> string { (t: Trip) => TripKey(t) }

  /** The keys of a list of trips. */
  function TripKeys(ts: seq<Trip>): (ks: set<string>)
    ensures forall k :: k in ks <==> exists t :: t in ts && TripKey(t) == k
  {
    set t | t in ts :: TripKey(t)
  }

  /** No two trips of the list share a key. */
  predicate DistinctKeys(ts: seq<Trip>) {
    forall i, j :: 0 <= i < j < |ts| ==> TripKey(ts[i]) != TripKey(ts[j])
  }

  /** `(a, b) => (a.date || '').localeCompare(b.date || '')`. */
  function DateAsc(): (Trip, Trip) -> bool {
    (a: Trip, b: Trip) => StrLe(a.date, b.date)
  }

  /** By date, then by `start_timestamp` ascending. */
  function DateThenStart(): (Trip, Trip) -> bool {
    (a: Trip, b: Trip) => StrLt(a.date, b.date) || (a.date == b.date && a.startTs <= b.startTs)
  }

  lemma DateOrdersTotal()
    ensures TotalPreorder(DateAsc()) && TotalPreorder(DateThenStart())
  {
    StrLeTotalOrder();
    forall a: string, b: string ensures a == b || StrLt(a, b) || StrLt(b, a) {
      StrLtTotal(a, b);
    }
    forall a: string, b: string, c: string | StrLt(a, b) && StrLt(b, c) ensures StrLt(a, c) {
      StrLtTransitive(a, b, c);
    }
    forall a: string ensures !StrLt(a, a) {
      StrLtIrreflexive(a);
    }
  }

  /** Every trip of `base`, then every trip of `over`, `map.set` by key. */
  function OverwriteMerge(base: seq<Trip>, over: seq<Trip>): seq<Trip> {
    Values(SetAll(SetAll([], base, Key()), over, Key()))
  }

  /** Every trip of `base` `map.set` by key, then the trips of `over` whose key is new. */
  function KeepMerge(base: seq<Trip>, over: seq<Trip>): seq<Trip> {
    Values(SetAllIfAbsent(SetAll([], base, Key()), over, Key()))
  }

  /** The trip an overwriting merge keeps for key `k`: the last one of `over`
      with that key, else the last one of `base`. */
  function OverwriteWinner(base: seq<Trip>, over: seq<Trip>, k: string): Option<Trip> {
    var o := LastWithKey(over, Key(), k);
    if o.Some? then o else LastWithKey(base, Key(), k)
  }

  /** The trip a keeping merge keeps for key `k`: the last one of `base` with
      that key, else the first one of `over`. */
  function KeepWinner(base: seq<Trip>, over: seq<Trip>, k: string): Option<Trip> {
    var b := LastWithKey(base, Key(), k);
    if b.Some? then b else FirstWithKey(over, Key(), k)
  }

  /** Reading back the values of a keyed map with unique keys: one trip per key,
      each the map's value for its key, and every key's value present. */
  lemma ReadBack(m: Entries<string, Trip>, winner: string -> Option<Trip>, ts: seq<Trip>)
    requires UniqueKeys(m) && KeyedBy(m, Key())
    requires forall k :: Get(m, k) == winner(k)
    requires forall k :: winner(k).Some? <==> exists t :: t in ts && TripKey(t) == k
    ensures DistinctKeys(Values(m))
    ensures forall t :: t in Values(m) ==> winner(TripKey(t)) == Some(t)
    ensures forall t :: t in ts ==> winner(TripKey(t)).Some? && winner(TripKey(t)).value in Values(m)
    ensures |Values(m)| == |TripKeys(ts)|
  {
    ValuesKeyed(m, Key());
    var vs := Values(m);
    forall i, j | 0 <= i < j < |vs| ensures TripKey(vs[i]) != TripKey(vs[j]) {
      assert m[i].0 == TripKey(vs[i]) && m[j].0 == TripKey(vs[j]);
    }
    forall t | t in ts ensures winner(TripKey(t)).Some? && winner(TripKey(t)).value in vs {
      assert winner(TripKey(t)).Some?;
      assert Get(m, TripKey(t)).Some?;
      ValuesOfUnique(m, TripKey(t));
    }
    assert KeySet(m) == TripKeys(ts);
    UniqueKeysCount(m);
  }

  /** The overwriting merge: one trip per key of `base + over`, and it is the
      last trip of `over` with that key, or of `base` when `over` has none. */
  lemma OverwriteMergeSpec(base: seq<Trip>, over: seq<Trip>)
    ensures var r := OverwriteMerge(base, over);
      DistinctKeys(r)
      && (forall t :: t in r ==> OverwriteWinner(base, over, TripKey(t)) == Some(t))
      && (forall t :: t in base + over ==> OverwriteWinner(base, over, TripKey(t)).value in r)
      && |r| == |TripKeys(base + over)|
  {
    var m0 := SetAll([], base, Key());
    SetAllGet([], base, Key());
    SetAllGet(m0, over, Key());
    SetAllKeyedBy([], base, Key());
    SetAllKeyedBy(m0, over, Key());
    var m := SetAll(m0, over, Key());
    forall k ensures OverwriteWinner(base, over, k).Some? <==> exists t :: t in base + over && TripKey(t) == k {
      if OverwriteWinner(base, over, k).Some? {
        assert OverwriteWinner(base, over, k).value in base + over;
      }
      if exists t :: t in base + over && TripKey(t) == k {
        var t :| t in base + over && TripKey(t) == k;
        if t in over {
          var i :| 0 <= i < |over| && over[i] == t;
        } else {
          var i :| 0 <= i < |base| && base[i] == t;
        }
      }
    }
    ReadBack(m, k => OverwriteWinner(base, over, k), base + over);
  }

  /** The keeping merge: one trip per key of `base + over`, and it is the last
      trip of `base` with that key, or the first of `over` when `base` has none. */
  lemma KeepMergeSpec(base: seq<Trip>, over: seq<Trip>)
    ensures var r := KeepMerge(base, over);
      DistinctKeys(r)
      && (forall t :: t in r ==> KeepWinner(base, over, TripKey(t)) == Some(t))
      && (forall t :: t in base + over ==> KeepWinner(base, over, TripKey(t)).value in r)
      && |r| == |TripKeys(base + over)|
  {
    var m0 := SetAll([], base, Key());
    SetAllGet([], base, Key());
    SetAllIfAbsentGet(m0, over, Key());
    SetAllKeyedBy([], base, Key());
    SetAllIfAbsentKeyedBy(m0, over, Key());
    var m := SetAllIfAbsent(m0, over, Key());
    forall k ensures Get(m, k) == KeepWinner(base, over, k) {
      assert Has(m0, k) <==> Get(m0, k).Some?;
    }
    forall k ensures KeepWinner(base, over, k).Some? <==> exists t :: t in base + over && TripKey(t) == k {
      if KeepWinner(base, over, k).Some? {
        assert KeepWinner(base, over, k).value in base + over;
      }
      if exists t :: t in base + over && TripKey(t) == k {
        var t :| t in base + over && TripKey(t) == k;
        if t in over {
          var i :| 0 <= i < |over| && over[i] == t;
        } else {
          var i :| 0 <= i < |base| && base[i] == t;
        }
      }
    }
    ReadBack(m, k => KeepWinner(base, over, k), base + over);
  }

  /** A list without repeated keys has as many keys as trips. */
  lemma {:induction false} DistinctKeysCount(ts: seq<Trip>)
    requires DistinctKeys(ts)
    ensures |TripKeys(ts)| == |ts|
    decreases |ts|
  {
    if ts != [] {
      var n := |ts| - 1;
      DistinctKeysCount(ts[..n]);
      assert ts == ts[..n] + [ts[n]];
      assert TripKeys(ts) == TripKeys(ts[..n]) + {TripKey(ts[n])};
      assert TripKey(ts[n]) !in TripKeys(ts[..n]);
    }
  }

  /** Merging never loses keys: with a repeat-free `base`, the merge holds at
      least as many trips as `base`. */
  lemma MergeGrows(base: seq<Trip>, over: seq<Trip>)
    requires DistinctKeys(base)
    ensures |TripKeys(base)| == |base| <= |TripKeys(base + over)|
  {
    DistinctKeysCount(base);
    var a, b := TripKeys(base), TripKeys(base + over);
    assert b == a + (b - a) && a * (b - a) == {};
  }

  /** A merge read back and sorted by `le`, as every caller does. */
  function SortedOverwrite(base: seq<Trip>, over: seq<Trip>, le: (Trip, Trip) -> bool): seq<Trip> {
    SortBy(OverwriteMerge(base, over), le)
  }

  function SortedKeep(base: seq<Trip>, over: seq<Trip>, le: (Trip, Trip) -> bool): seq<Trip> {
    SortBy(KeepMerge(base, over), le)
  }

  /** Sorting a merge keeps one trip per key and each key's winner, and orders it. */
  lemma SortedMergeSpec(m: seq<Trip>, le: (Trip, Trip) -> bool)
    requires TotalPreorder(le) && DistinctKeys(m)
    ensures SortedBy(SortBy(m, le), le) && DistinctKeys(SortBy(m, le))
    ensures forall t :: t in SortBy(m, le) <==> t in m
    ensures |SortBy(m, le)| == |m|
  {
    var r := SortBy(m, le);
    SortBySorted(m, le);
    forall t ensures t in r <==> t in m {
      assert t in r <==> t in multiset(r);
    }
    forall i, j | 0 <= i < j < |r| ensures TripKey(r[i]) != TripKey(r[j]) {
      DistinctKeysPermuted(m, r, i, j);
    }
  }

  /** The sorted overwriting merge is ordered by `le` and holds one trip per
      key of `base + over`: the last trip of `over` with that key, else the
      last of `base`. With a repeat-free `base` no trip of it is lost in count. */
  lemma SortedOverwriteSpec(base: seq<Trip>, over: seq<Trip>, le: (Trip, Trip) -> bool)
    requires TotalPreorder(le)
    ensures var r := SortedOverwrite(base, over, le);
      SortedBy(r, le)
      && DistinctKeys(r)
      && (forall t :: t in r ==> OverwriteWinner(base, over, TripKey(t)) == Some(t))
      && (forall t :: t in base + over ==> OverwriteWinner(base, over, TripKey(t)).value in r)
      && |r| == |TripKeys(base + over)|
      && (DistinctKeys(base) ==> |r| >= |base|)
  {
    OverwriteMergeSpec(base, over);
    SortedMergeSpec(OverwriteMerge(base, over), le);
    if DistinctKeys(base) {
      MergeGrows(base, over);
    }
  }

  /** The sorted keeping merge is ordered by `le` and holds one trip per key
      of `base + over`: the last trip of `base` with that key, else the first
      of `over`. */
  lemma SortedKeepSpec(base: seq<Trip>, over: seq<Trip>, le: (Trip, Trip) -> bool)
    requires TotalPreorder(le)
    ensures var r := SortedKeep(base, over, le);
      SortedBy(r, le)
      && DistinctKeys(r)
      && (forall t :: t in r ==> KeepWinner(base, over, TripKey(t)) == Some(t))
      && (forall t :: t in base + over ==> KeepWinner(base, over, TripKey(t)).value in r)
      && |r| == |TripKeys(base + over)|
  {
    KeepMergeSpec(base, over);
    SortedMergeSpec(KeepMerge(base, over), le);
  }

  /** Two positions of a permutation of a list without repeated keys hold
      different keys. */
  lemma DistinctKeysPermuted(m: seq<Trip>, r: seq<Trip>, i: int, j: int)
    requires DistinctKeys(m) && multiset(m) == multiset(r)
    requires 0 <= i < j < |r|
    ensures TripKey(r[i]) != TripKey(r[j])
  {
    assert r[i] in multiset(m) && r[j] in multiset(m);
    var a :| 0 <= a < |m| && m[a] == r[i];
    var b :| 0 <= b < |m| && m[b] == r[j];
    if a == b {
      assert r[i] == r[j];
      RepeatCount(r, i, j);
      NoRepeatKeysCount(m, a);
    }
  }

  lemma RepeatCount(r: seq<Trip>, i: int, j: int)
    requires 0 <= i < j < |r| && r[i] == r[j]
    ensures multiset(r)[r[i]] >= 2
  {
    assert r == r[..i] + [r[i]] + r[i + 1..j] + [r[j]] + r[j + 1..];
  }

  lemma NoRepeatKeysCount(m: seq<Trip>, a: int)
    requires DistinctKeys(m) && 0 <= a < |m|
    ensures multiset(m)[m[a]] == 1
  {
    assert m == m[..a] + [m[a]] + m[a + 1..];
    assert m[a] !in m[..a] by {
      forall k | 0 <= k < a ensures m[k] != m[a] { assert TripKey(m[k]) != TripKey(m[a]); }
    }
    assert m[a] !in m[a + 1..] by {
      forall k | a + 1 <= k < |m| ensures m[k] != m[a] { assert TripKey(m[a]) != TripKey(m[k]); }
    }
  }

  /** `existing.forEach(set)`, `incoming.forEach(set)`, then `Array.from(map.values())`. */
  method OverwriteMergeLoop(base: seq<Trip>, over: seq<Trip>) returns (r: seq<Trip>)
    ensures r == OverwriteMerge(base, over)
  {
    var m := SetEach([], base, Key());
    m := SetEach(m, over, Key());
    r := Values(m);
  }

  /** `local.forEach(set)`, `remote.forEach(set if absent)`, then `Array.from(map.values())`. */
  method KeepMergeLoop(base: seq<Trip>, over: seq<Trip>) returns (r: seq<Trip>)
    ensures r == KeepMerge(base, over)
  {
    var m := SetEach([], base, Key());
    m := SetEachIfAbsent(m, over, Key());
    r := Values(m);
  }
}

