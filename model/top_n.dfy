/** `getTopN(arr, compareFn, n)` of src/core/dataProcessing.ts and .js: the
    first `n` items sorted, then every later item that beats the last kept one
    is shifted into place in the fixed-size buffer. The comparators the engine
    passes are `(a, b) => key(b) - key(a)`, so "a may stay before b" is
    `key(a) >= key(b)` and the buffer is kept in descending key order. The
    method is proved to return exactly the first `n` items of the stable
    descending sort of the whole input. */
module TopN {
  import opened StableSort

  /** `(a, b) => key(b) - key(a)` as a "may stay before" relation. */
  function DescLe<T>(key: T -> real): (T, T) -> bool {
    (a: T, b: T) => key(a) >= key(b)
  }

  lemma DescLeTotalPreorder<T(!new)>(key: T -> real)
    ensures TotalPreorder(DescLe(key))
  {
  }

  function Min(a: int, b: int): int { if a <= b then a else b }

  /** Inserting into a sequence and keeping its first `n` items only depends on
      those first `n` items: the reason a buffer of `n` suffices. */
  lemma {:induction false} InsertPrefix<T>(x: T, s: seq<T>, le: (T, T) -> bool, n: nat)
    requires n <= |s|
    ensures Insert(x, s, le)[..n] == Insert(x, s[..n], le)[..n]
  {
    if n > 0 && le(s[0], x) {
      InsertPrefix(x, s[1..], le, n - 1);
      assert s[..n][1..] == s[1..][..n - 1];
    }
  }

  /** Where `Insert` puts `x`: right before the first item that may not precede it. */
  lemma {:induction false} InsertAt<T>(x: T, s: seq<T>, le: (T, T) -> bool, p: nat)
    requires p <= |s|
    requires forall k :: 0 <= k < p ==> le(s[k], x)
    requires p < |s| ==> !le(s[p], x)
    ensures Insert(x, s, le) == s[..p] + [x] + s[p..]
  {
    if p > 0 {
      var t := s[1..];
      forall k | 0 <= k < p - 1 ensures le(t[k], x) { assert t[k] == s[k + 1]; }
      InsertAt(x, t, le, p - 1);
      InsertStep(x, s, le, p);
    }
  }

  lemma InsertStep<T>(x: T, s: seq<T>, le: (T, T) -> bool, p: nat)
    requires 0 < p <= |s| && le(s[0], x)
    requires Insert(x, s[1..], le) == s[1..][..p - 1] + [x] + s[1..][p - 1..]
    ensures Insert(x, s, le) == s[..p] + [x] + s[p..]
  {
    var a, b := s[1..][..p - 1], s[1..][p - 1..];
    assert Insert(x, s, le) == [s[0]] + (a + [x] + b);
    assert [s[0]] + (a + [x] + b) == ([s[0]] + a) + [x] + b;
    assert s[..p] == [s[0]] + a;
    assert s[p..] == b;
  }

  /** The buffer update: `x` is placed after every kept item whose key is at
      least its own, and the last kept item falls off. */
  method InsertIntoBuffer<T>(result: array<T>, x: T, key: T -> real)
    requires result.Length >= 1
    requires SortedBy(result[..], DescLe(key))
    requires key(x) > key(result[result.Length - 1])
    modifies result
    ensures result[..] == Insert(x, old(result[..]), DescLe(key))[..result.Length]
  {
    ghost var r := result[..];
    var n := result.Length;
    var j := n - 2;
    while j >= 0 && key(x) > key(result[j])
      invariant -1 <= j <= n - 2
      invariant forall k :: 0 <= k <= j ==> result[k] == r[k]
      invariant forall k :: j + 2 <= k < n ==> result[k] == r[k - 1]
      invariant key(x) > key(r[j + 1])
    {
      result[j + 1] := result[j];
      j := j - 1;
    }
    result[j + 1] := x;
    ShiftedBuffer(r, x, key, j + 1, result[..]);
  }

  /** The buffer after the shift loop stopped at `p`: the items before `p` are
      kept, `x` is at `p` and the rest moved up by one, which is `Insert`'s
      placement cut back to the buffer's length. */
  lemma ShiftedBuffer<T>(r: seq<T>, x: T, key: T -> real, p: nat, t: seq<T>)
    requires p < |r| == |t| && SortedBy(r, DescLe(key))
    requires p == 0 || key(x) <= key(r[p - 1])
    requires key(x) > key(r[p])
    requires forall k :: 0 <= k < p ==> t[k] == r[k]
    requires t[p] == x
    requires forall k :: p + 1 <= k < |r| ==> t[k] == r[k - 1]
    ensures t == Insert(x, r, DescLe(key))[..|r|]
  {
    forall k | p < k < |r| ensures key(x) > key(r[k]) {
      assert DescLe(key)(r[p], r[k]);
    }
    forall k | 0 <= k < p ensures DescLe(key)(r[k], x) {
      assert DescLe(key)(r[k], r[p - 1]);
    }
    InsertAt(x, r, DescLe(key), p);
    Splice(r, x, p, t);
  }

  /** The sequence that holds `r[..p]`, then `x`, then `r[p..]` without its last item. */
  lemma Splice<T>(r: seq<T>, x: T, p: nat, t: seq<T>)
    requires p < |r| == |t|
    requires forall k :: 0 <= k < |t| ==> t[k] == (if k < p then r[k] else if k == p then x else r[k - 1])
    ensures t == (r[..p] + [x] + r[p..])[..|r|]
  {
    var u := r[..p] + [x] + r[p..];
    forall k | 0 <= k < |r| ensures u[k] == t[k] {
      assert t[k] == (if k < p then r[k] else if k == p then x else r[k - 1]);
      if k < p {
        assert u[k] == r[..p][k];
      } else if k > p {
        assert u[k] == r[p..][k - p - 1] == r[k - 1];
      }
    }
  }

  /** `getTopN(arr, compareFn, n)` with `compareFn(a, b) = key(b) - key(a)`:
      the first `n` items of the stable sort of the whole input, in descending
      key order. The callers always pass `n = 10`. */
  method GetTopN<T(!new)>(arr: seq<T>, key: T -> real, n: nat) returns (top: seq<T>)
    requires n >= 1
    ensures top == SortBy(arr, DescLe(key))[..Min(n, |arr|)]
  {
    var le := DescLe(key);
    if |arr| <= n {
      return SortBy(arr, le);
    }
    var first := SortBy(arr[..n], le);
    var result := new T[n](k requires 0 <= k < n => first[k]);
    assert result[..] == SortBy(arr[..n], le)[..n];
    var i := n;
    while i < |arr|
      invariant n <= i <= |arr|
      invariant result[..] == SortBy(arr[..i], le)[..n]
    {
      var item := arr[i];
      TopNStep(arr, key, n, i);
      if key(item) > key(result[n - 1]) {
        SortedTop(arr[..i], key, n);
        InsertIntoBuffer(result, item, key);
      }
      i := i + 1;
    }
    assert arr[..|arr|] == arr;
    return result[..];
  }

  /** The first `n` items of a stable sort are themselves in order. */
  lemma SortedTop<T(!new)>(arr: seq<T>, key: T -> real, n: nat)
    requires n <= |arr|
    ensures SortedBy(SortBy(arr, DescLe(key))[..n], DescLe(key))
  {
    DescLeTotalPreorder(key);
    SortBySorted(arr, DescLe(key));
    SortedPrefix(SortBy(arr, DescLe(key)), DescLe(key), n);
  }

  /** One step of the scan: the top `n` of one more item is the old top `n`
      unless the new item beats the last of them, and then it is the old top
      `n` with the item inserted and the last one dropped. */
  lemma TopNStep<T(!new)>(arr: seq<T>, key: T -> real, n: nat, i: nat)
    requires 1 <= n <= i < |arr|
    ensures var top := SortBy(arr[..i], DescLe(key))[..n];
      SortBy(arr[..i + 1], DescLe(key))[..n]
        == if key(arr[i]) > key(top[n - 1]) then Insert(arr[i], top, DescLe(key))[..n] else top
  {
    var le := DescLe(key);
    var item := arr[i];
    var s := SortBy(arr[..i], le);
    var top := s[..n];
    assert arr[..i + 1][..i] == arr[..i];
    assert SortBy(arr[..i + 1], le) == Insert(item, s, le);
    InsertPrefix(item, s, le, n);
    if key(item) <= key(top[n - 1]) {
      SortedTop(arr[..i], key, n);
      forall k | 0 <= k < n ensures le(top[k], item) {
        if k < n - 1 { assert le(top[k], top[n - 1]); }
      }
      InsertAt(item, top, le, n);
      assert (top[..n] + [item] + top[n..])[..n] == top;
    }
  }

  lemma SortedPrefix<T>(s: seq<T>, le: (T, T) -> bool, n: nat)
    requires n <= |s| && SortedBy(s, le)
    ensures SortedBy(s[..n], le)
  {
  }

  /** What the top lists promise: `min(n, |arr|)` items, all from the input,
      ordered by decreasing key; the first has the greatest key of the input,
      and no item left out has a greater key than the last one kept. */
  lemma TopNProperties<T(!new)>(arr: seq<T>, key: T -> real, n: nat)
    requires n >= 1
    ensures var top := SortBy(arr, DescLe(key))[..Min(n, |arr|)];
      |top| == Min(n, |arr|)
      && multiset(top) <= multiset(arr)
      && SortedBy(top, DescLe(key))
      && (arr != [] ==> forall t :: t in arr ==> key(t) <= key(top[0]))
      && (forall t :: t in multiset(arr) - multiset(top) ==> key(t) <= key(top[|top| - 1]))
  {
    var s := SortBy(arr, DescLe(key));
    var k := Min(n, |arr|);
    DescLeTotalPreorder(key);
    SortBySorted(arr, DescLe(key));
    SortedTop(arr, key, k);
    PrefixMultiset(s, k);
    if arr != [] {
      TopIsMax(s, key);
      KeptBeatDropped(s, key, k);
    }
  }

  lemma PrefixMultiset<T>(s: seq<T>, k: nat)
    requires k <= |s|
    ensures multiset(s[..k]) <= multiset(s)
    ensures multiset(s) - multiset(s[..k]) == multiset(s[k..])
  {
    assert s == s[..k] + s[k..];
  }

  lemma TopIsMax<T>(s: seq<T>, key: T -> real)
    requires s != [] && SortedBy(s, DescLe(key))
    ensures forall t :: t in multiset(s) ==> key(t) <= key(s[0])
  {
    forall t | t in multiset(s) ensures key(t) <= key(s[0]) {
      var j :| 0 <= j < |s| && s[j] == t;
      if j > 0 { assert DescLe(key)(s[0], s[j]); }
    }
  }

  lemma KeptBeatDropped<T>(s: seq<T>, key: T -> real, k: nat)
    requires 1 <= k <= |s| && SortedBy(s, DescLe(key))
    ensures forall t :: t in multiset(s[k..]) ==> key(t) <= key(s[k - 1])
  {
    forall t | t in multiset(s[k..]) ensures key(t) <= key(s[k - 1]) {
      var j :| 0 <= j < |s[k..]| && s[k..][j] == t;
      assert DescLe(key)(s[k - 1], s[k + j]);
    }
  }
}
