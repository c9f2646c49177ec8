/**
 * Collection shapes shared by the dashboards and the ingestion scripts:
 * insertion-ordered maps (JavaScript objects and `Map`s, Python dicts),
 * order-preserving filters, first-occurrence de-duplication and the stable
 * sort that Python's `sorted`/`list.sort` and JavaScript's `Array.sort` perform.
 */
module Collections {
  import opened Wrappers

  /**
   * An insertion-ordered map: `keys` lists the keys in the order they were
   * first assigned, `vals` holds the current value of each.
   */
  datatype OMap<K(==, !new), V> = OMap(keys: seq<K>, vals: map<K, V>) {

    ghost predicate Valid() {
      (forall i, j :: 0 <= i < j < |keys| ==> keys[i] != keys[j]) &&
      (forall k :: k in vals <==> k in keys)
    }

    /** `m[k] = v`: a new key goes last, an existing key keeps its place. */
    function Put(k: K, v: V): (r: OMap<K, V>)
      ensures Valid() ==> r.Valid()
      ensures r.vals == vals[k := v]
      ensures k in vals ==> r.keys == keys
      ensures k !in vals ==> r.keys == keys + [k]
    {
      if k in vals then OMap(keys, vals[k := v]) else OMap(keys + [k], vals[k := v])
    }

    /** `m.pop(k)` on a present key: it and its value go, the other keys keep their order. */
    function Remove(k: K): (r: OMap<K, V>)
      ensures Valid() ==> r.Valid()
      ensures r.vals == vals - {k}
      ensures r.keys == Without(keys, k)
    {
      WithoutDistinct(keys, k);
      OMap(Without(keys, k), vals - {k})
    }

    function Get(k: K): Option<V> {
      if k in vals then Some(vals[k]) else None
    }

    /** `Object.values(m)` / `m.values()`, in key order. */
    function Values(): (vs: seq<V>)
      requires Valid()
      ensures |vs| == |keys|
      ensures forall i :: 0 <= i < |keys| ==> vs[i] == vals[keys[i]]
    {
      seq(|keys|, i requires 0 <= i < |keys| => vals[keys[i]])
    }

    /** `Object.entries(m)` / `m.items()`, in key order. */
    function Items(): (es: seq<(K, V)>)
      requires Valid()
      ensures |es| == |keys|
      ensures forall i :: 0 <= i < |keys| ==> es[i] == (keys[i], vals[keys[i]])
    {
      seq(|keys|, i requires 0 <= i < |keys| => (keys[i], vals[keys[i]]))
    }
  }

  /** Assigning a key twice is assigning it the second value. */
  lemma PutPut<K(!new), V>(m: OMap<K, V>, k: K, v: V, w: V)
    ensures m.Put(k, v).Put(k, w) == m.Put(k, w)
  {
    assert m.vals[k := v][k := w] == m.vals[k := w];
  }

  /** The sequence with every occurrence of `k` dropped. */
  function Without<K(==, !new)>(s: seq<K>, k: K): (r: seq<K>)
    ensures forall x :: x in r <==> x in s && x != k
  {
    if s == [] then []
    else
      var t := Without(s[..|s| - 1], k);
      assert forall x :: x in s <==> x in s[..|s| - 1] || x == s[|s| - 1];
      if s[|s| - 1] == k then t else t + [s[|s| - 1]]
  }

  /** Dropping a key from a sequence without repetitions leaves one without repetitions. */
  lemma {:induction false} WithoutDistinct<K(!new)>(s: seq<K>, k: K)
    ensures (forall i, j :: 0 <= i < j < |s| ==> s[i] != s[j]) ==>
      forall i, j :: 0 <= i < j < |Without(s, k)| ==> Without(s, k)[i] != Without(s, k)[j]
  {
    if s != [] && forall i, j :: 0 <= i < j < |s| ==> s[i] != s[j] {
      var init, last := s[..|s| - 1], s[|s| - 1];
      WithoutDistinct(init, k);
      assert last !in init;
    }
  }

  function EmptyMap<K(==, !new), V>(): (m: OMap<K, V>)
    ensures m.Valid() && m.keys == [] && m.vals == map[]
  {
    OMap([], map[])
  }

  lemma KeysCount<K(!new), V>(m: OMap<K, V>)
    requires m.Valid()
    ensures |m.vals.Keys| == |m.keys|
  {
    DistinctCard(m.keys);
    assert m.vals.Keys == set k | k in m.keys;
  }

  /** A sequence without repetitions has as many distinct elements as positions. */
  lemma {:induction false} DistinctCard<T>(s: seq<T>)
    requires forall i, j :: 0 <= i < j < |s| ==> s[i] != s[j]
    ensures |set x | x in s| == |s|
  {
    if s != [] {
      var t := s[..|s| - 1];
      DistinctCard(t);
      assert (set x | x in s) == (set x | x in t) + {s[|s| - 1]};
      assert s[|s| - 1] !in t;
    }
  }

  /** The elements of `s` that satisfy `p`, in their original order. */
  function Filter<T>(s: seq<T>, p: T -> bool): (r: seq<T>)
    ensures |r| <= |s|
    ensures forall i :: 0 <= i < |r| ==> p(r[i])
    ensures forall i :: 0 <= i < |r| ==> r[i] in s
  {
    if s == [] then []
    else
      var t := Filter(s[..|s| - 1], p);
      if p(s[|s| - 1]) then t + [s[|s| - 1]] else t
  }

  /** `a` is `b` with some elements dropped and the rest in order. */
  predicate IsSubsequence<T(==)>(a: seq<T>, b: seq<T>)
    decreases |b|
  {
    if a == [] then true
    else if b == [] then false
    else if a[|a| - 1] == b[|b| - 1] then IsSubsequence(a[..|a| - 1], b[..|b| - 1])
    else IsSubsequence(a, b[..|b| - 1])
  }

  lemma {:induction false} FilterIsSubsequence<T>(s: seq<T>, p: T -> bool)
    ensures IsSubsequence(Filter(s, p), s)
  {
    if s != [] {
      var t := s[..|s| - 1];
      FilterIsSubsequence(t, p);
      if p(s[|s| - 1]) {
        assert Filter(s, p)[..|Filter(s, p)| - 1] == Filter(t, p);
      } else {
        SubsequenceOfPrefix(Filter(t, p), t, s);
      }
    }
  }

  /** Appending to the longer sequence keeps a subsequence a subsequence. */
  lemma {:induction false} SubsequenceOfPrefix<T>(a: seq<T>, t: seq<T>, s: seq<T>)
    requires s != [] && t == s[..|s| - 1]
    requires IsSubsequence(a, t)
    ensures IsSubsequence(a, s)
    decreases |s|, 0
  {
    if a != [] && a[|a| - 1] == s[|s| - 1] {
      SubsequenceDropLast(a, t);
    }
  }

  /** Dropping the last element of a subsequence leaves a subsequence. */
  lemma {:induction false} SubsequenceDropLast<T>(a: seq<T>, b: seq<T>)
    requires a != [] && IsSubsequence(a, b)
    ensures IsSubsequence(a[..|a| - 1], b)
    decreases |b|, 1
  {
    var a' := a[..|a| - 1];
    if a[|a| - 1] == b[|b| - 1] {
      SubsequenceOfPrefix(a', b[..|b| - 1], b);
    } else {
      SubsequenceDropLast(a, b[..|b| - 1]);
      SubsequenceOfPrefix(a', b[..|b| - 1], b);
    }
  }

  /** An element survives the filter exactly when it is in `s` and satisfies `p`. */
  lemma {:induction false} FilterMembers<T>(s: seq<T>, p: T -> bool, x: T)
    ensures x in Filter(s, p) <==> x in s && p(x)
  {
    if s != [] {
      FilterMembers(s[..|s| - 1], p, x);
      assert x in s <==> x in s[..|s| - 1] || x == s[|s| - 1];
    }
  }

  /** An element fails `p` exactly when it passes its negation, so the two filters split `s`. */
  lemma {:induction false} FilterComplement<T>(s: seq<T>, p: T -> bool, q: T -> bool)
    requires forall x :: q(x) == !p(x)
    ensures |Filter(s, p)| + |Filter(s, q)| == |s|
  {
    if s != [] {
      FilterComplement(s[..|s| - 1], p, q);
    }
  }

  lemma ConcatAssoc<T>(a: seq<T>, b: seq<T>, c: seq<T>)
    ensures a + b + c == a + (b + c)
  {
  }

  lemma EmptyConcat<T>(s: seq<T>)
    ensures [] + s == s
  {
  }

  /** The prefix one element longer: the prefix before it and that element. */
  lemma PrefixSnoc<T>(s: seq<T>, i: nat)
    requires i < |s|
    ensures s[..i + 1][..i] == s[..i] && s[..i + 1] == s[..i] + [s[i]]
  {
  }

  lemma ConcatNil<T>(s: seq<T>)
    ensures s + [] == s
  {
  }

  /** The last element of `p + q`, for a non-empty `q`, and what comes before it. */
  lemma ConcatLast<T>(p: seq<T>, q: seq<T>)
    requires q != []
    ensures (p + q)[..|p + q| - 1] == p + q[..|q| - 1] && (p + q)[|p + q| - 1] == q[|q| - 1]
  {
  }

  lemma ConcatAssoc3<T>(r: seq<T>, a: seq<T>, b: seq<T>, c: seq<T>)
    ensures r + a + b + c == r + (a + b + c)
  {
  }

  /** Filtering one more element appends it exactly when it satisfies `p`. */
  lemma FilterSnoc<T>(s: seq<T>, x: T, p: T -> bool)
    ensures Filter(s + [x], p) == Filter(s, p) + (if p(x) then [x] else [])
  {
    assert (s + [x])[..|s|] == s;
  }

  lemma {:induction false} FilterIdempotent<T>(s: seq<T>, p: T -> bool)
    ensures Filter(Filter(s, p), p) == Filter(s, p)
  {
    if s != [] {
      var t := s[..|s| - 1];
      FilterIdempotent(t, p);
      if p(s[|s| - 1]) {
        var f := Filter(s, p);
        assert f[..|f| - 1] == Filter(t, p);
      }
    }
  }

  lemma {:induction false} FilterAll<T>(s: seq<T>, p: T -> bool)
    requires forall i :: 0 <= i < |s| ==> p(s[i])
    ensures Filter(s, p) == s
  {
    if s != [] {
      FilterAll(s[..|s| - 1], p);
    }
  }

  lemma {:induction false} FilterNone<T>(s: seq<T>, p: T -> bool)
    requires forall i :: 0 <= i < |s| ==> !p(s[i])
    ensures Filter(s, p) == []
  {
    if s != [] {
      FilterNone(s[..|s| - 1], p);
    }
  }

  /** JavaScript's `find`: the first element satisfying `p`, if any. */
  function Find<T>(s: seq<T>, p: T -> bool): (r: Option<T>)
    ensures r.Some? ==> exists i :: 0 <= i < |s| && s[i] == r.value && p(s[i]) && forall j :: 0 <= j < i ==> !p(s[j])
    ensures r.None? <==> forall i :: 0 <= i < |s| ==> !p(s[i])
  {
    if s == [] then None
    else if p(s[0]) then Some(s[0])
    else
      var r := Find(s[1..], p);
      assert forall i :: 1 <= i < |s| ==> s[i] == s[1..][i - 1];
      r
  }

  lemma {:induction false} FilterConcat<T>(s: seq<T>, t: seq<T>, p: T -> bool)
    ensures Filter(s + t, p) == Filter(s, p) + Filter(t, p)
    decreases |t|
  {
    if t == [] {
      ConcatNil(s);
      ConcatNil(Filter(s, p));
    } else {
      var t', x := t[..|t| - 1], t[|t| - 1];
      FilterConcat(s, t', p);
      ConcatLast(s, t);
      ConcatAssoc(Filter(s, p), Filter(t', p), [x]);
    }
  }

  /** An irreflexive, transitive "strictly before" relation. */
  ghost predicate StrictOrder<T(!new)>(lt: (T, T) -> bool) {
    (forall a :: !lt(a, a)) &&
    (forall a, b, c :: lt(a, b) && lt(b, c) ==> lt(a, c))
  }

  /** No later element is strictly before an earlier one. */
  predicate SortedBy<T>(s: seq<T>, lt: (T, T) -> bool) {
    forall i, j :: 0 <= i < j < |s| ==> !lt(s[j], s[i])
  }

  /** Puts `x` in front of the first element it is strictly before. */
  function InsertBy<T>(s: seq<T>, x: T, lt: (T, T) -> bool): (r: seq<T>)
    ensures |r| == |s| + 1
    ensures multiset(r) == multiset(s) + multiset{x}
  {
    if s == [] then [x]
    else if lt(x, s[0]) then [x] + s
    else
      assert s == [s[0]] + s[1..];
      [s[0]] + InsertBy(s[1..], x, lt)
  }

  /**
   * The stable sort: elements are inserted left to right, so of two elements
   * neither of which is before the other, the earlier stays earlier.
   */
  function SortBy<T>(s: seq<T>, lt: (T, T) -> bool): (r: seq<T>)
    ensures |r| == |s|
    ensures multiset(r) == multiset(s)
  {
    if s == [] then []
    else
      assert s == s[..|s| - 1] + [s[|s| - 1]];
      InsertBy(SortBy(s[..|s| - 1], lt), s[|s| - 1], lt)
  }

  lemma {:induction false} InsertBySorted<T(!new)>(s: seq<T>, x: T, lt: (T, T) -> bool)
    requires StrictOrder(lt) && SortedBy(s, lt)
    ensures SortedBy(InsertBy(s, x, lt), lt)
  {
    if s != [] {
      if lt(x, s[0]) {
        var r := [x] + s;
        forall i, j | 0 <= i < j < |r| ensures !lt(r[j], r[i]) {
          if i == 0 {
            if j - 1 > 0 {
              assert !lt(s[j - 1], s[0]);
            }
          } else {
            assert r[j] == s[j - 1] && r[i] == s[i - 1];
          }
        }
      } else {
        InsertBySorted(s[1..], x, lt);
        var rest := InsertBy(s[1..], x, lt);
        var r := [s[0]] + rest;
        forall i, j | 0 <= i < j < |r| ensures !lt(r[j], r[i]) {
          if i == 0 {
            assert r[j] in multiset(rest);
            assert r[j] == x || r[j] in s[1..];
          }
        }
      }
    }
  }

  /** The sort's result is sorted (and, by SortBy's contract, a permutation). */
  lemma {:induction false} SortBySorted<T(!new)>(s: seq<T>, lt: (T, T) -> bool)
    requires StrictOrder(lt)
    ensures SortedBy(SortBy(s, lt), lt)
  {
    if s != [] {
      SortBySorted(s[..|s| - 1], lt);
      InsertBySorted(SortBy(s[..|s| - 1], lt), s[|s| - 1], lt);
    }
  }

  /**
   * The first `n` of a sorted permutation are the best: an element of `s` left
   * out means `n` were taken, none of them after it.
   */
  lemma {:induction false} TakeSortedMaximal<T(!new)>(s: seq<T>, lt: (T, T) -> bool, n: nat, x: T)
    requires StrictOrder(lt) && x in s && x !in TakeFirst(SortBy(s, lt), n)
    ensures var r := TakeFirst(SortBy(s, lt), n); |r| == n && (n > 0 ==> !lt(x, r[n - 1]))
  {
    var sorted := SortBy(s, lt);
    SortBySorted(s, lt);
    assert x in multiset(sorted);
    var p :| 0 <= p < |sorted| && sorted[p] == x;
    var r := TakeFirst(sorted, n);
    if n > 0 {
      assert !lt(sorted[p], sorted[n - 1]);
    }
  }

  /** The keys already taken by `s`. */
  function KeySet<T, K(==)>(s: seq<T>, key: T -> K): (ks: set<K>)
    ensures forall i :: 0 <= i < |s| ==> key(s[i]) in ks
  {
    if s == [] then {} else KeySet(s[..|s| - 1], key) + {key(s[|s| - 1])}
  }

  /**
   * First-occurrence de-duplication by a key, as a loop keeping a `seen` set
   * does it: an element whose key was already seen is dropped.
   */
  function DedupBy<T, K(==)>(s: seq<T>, key: T -> K): (r: seq<T>)
  {
    if s == [] then []
    else
      var d := DedupBy(s[..|s| - 1], key);
      if key(s[|s| - 1]) in KeySet(d, key) then d else d + [s[|s| - 1]]
  }

  /** One more element of the input: it is kept exactly when its key is new. */
  lemma DedupByStep<T, K>(s: seq<T>, i: nat, key: T -> K)
    requires i < |s|
    ensures DedupBy(s[..i + 1], key) ==
      if key(s[i]) in KeySet(DedupBy(s[..i], key), key) then DedupBy(s[..i], key) else DedupBy(s[..i], key) + [s[i]]
  {
    assert s[..i + 1][..i] == s[..i];
  }

  lemma KeyInPrefix<T, K>(s: seq<T>, key: T -> K, m: nat, i: nat)
    requires i < m <= |s|
    ensures key(s[i]) in KeySet(s[..m], key)
  {
    assert s[..m][i] == s[i];
  }

  /** Appending an element adds its key. */
  lemma KeySetSnoc<T, K>(d: seq<T>, x: T, key: T -> K)
    ensures KeySet(d + [x], key) == KeySet(d, key) + {key(x)}
  {
    assert (d + [x])[..|d|] == d;
  }

  lemma {:induction false} KeySetMembers<T, K>(s: seq<T>, key: T -> K, k: K)
    ensures k in KeySet(s, key) <==> exists i :: 0 <= i < |s| && key(s[i]) == k
  {
    if s != [] {
      KeySetMembers(s[..|s| - 1], key, k);
      if k in KeySet(s[..|s| - 1], key) {
        var i :| 0 <= i < |s| - 1 && key(s[..|s| - 1][i]) == k;
        assert key(s[i]) == k;
      }
    }
  }

  /** No two elements of `s` share a key. */
  predicate DistinctKeys<T, K(==)>(s: seq<T>, key: T -> K) {
    forall i, j :: 0 <= i < j < |s| ==> key(s[i]) != key(s[j])
  }

  /**
   * De-duplication keeps distinct keys, keeps exactly one element per key of
   * the input, is a subsequence of the input and keeps its first occurrences.
   */
  lemma DedupByProperties<T, K>(s: seq<T>, key: T -> K)
    ensures DistinctKeys(DedupBy(s, key), key)
    ensures KeySet(DedupBy(s, key), key) == KeySet(s, key)
    ensures IsSubsequence(DedupBy(s, key), s)
  {
    DedupByDistinct(s, key);
    DedupByKeySet(s, key);
    DedupBySubsequence(s, key);
  }

  lemma {:induction false} DedupByDistinct<T, K>(s: seq<T>, key: T -> K)
    ensures DistinctKeys(DedupBy(s, key), key)
  {
    if s != [] {
      var t, x := s[..|s| - 1], s[|s| - 1];
      DedupByDistinct(t, key);
      var d := DedupBy(t, key);
      if key(x) !in KeySet(d, key) {
        DedupAppendDistinct(d, x, key);
      }
    }
  }

  lemma {:induction false} DedupByKeySet<T, K>(s: seq<T>, key: T -> K)
    ensures KeySet(DedupBy(s, key), key) == KeySet(s, key)
  {
    if s != [] {
      var t, x := s[..|s| - 1], s[|s| - 1];
      DedupByKeySet(t, key);
      var d := DedupBy(t, key);
      if key(x) !in KeySet(d, key) {
        assert (d + [x])[..|d|] == d;
      }
    }
  }

  lemma {:induction false} DedupBySubsequence<T, K>(s: seq<T>, key: T -> K)
    ensures IsSubsequence(DedupBy(s, key), s)
  {
    if s != [] {
      var t, x := s[..|s| - 1], s[|s| - 1];
      DedupBySubsequence(t, key);
      var d := DedupBy(t, key);
      if key(x) in KeySet(d, key) {
        SubsequenceOfPrefix(d, t, s);
      } else {
        assert (d + [x])[..|d|] == d;
      }
    }
  }

  lemma DedupAppendDistinct<T, K>(d: seq<T>, x: T, key: T -> K)
    requires DistinctKeys(d, key)
    requires key(x) !in KeySet(d, key)
    ensures DistinctKeys(d + [x], key)
  {
    var r := d + [x];
    forall i, j | 0 <= i < j < |r| ensures key(r[i]) != key(r[j]) {
      if j == |d| {
        KeySetMembers(d, key, key(x));
      }
    }
  }

  /** The element of the first occurrence of each key is the one kept. */
  lemma {:induction false} DedupByKeepsFirst<T, K>(s: seq<T>, key: T -> K, i: nat)
    requires i < |s|
    requires forall j :: 0 <= j < i ==> key(s[j]) != key(s[i])
    ensures s[i] in DedupBy(s, key)
  {
    var t := s[..|s| - 1];
    if i == |s| - 1 {
      DedupByProperties(t, key);
      KeySetMembers(t, key, key(s[i]));
      assert forall j :: 0 <= j < |t| ==> t[j] == s[j];
    } else {
      DedupByKeepsFirst(t, key, i);
    }
  }

  /** Filters by two predicates that agree everywhere are the same. */
  lemma {:induction false} FilterExt<T>(s: seq<T>, p: T -> bool, q: T -> bool)
    requires forall x :: p(x) == q(x)
    ensures Filter(s, p) == Filter(s, q)
  {
    if s != [] {
      FilterExt(s[..|s| - 1], p, q);
    }
  }

  /** De-duplication only keeps elements of its input. */
  lemma {:induction false} DedupBySubset<T, K>(s: seq<T>, key: T -> K)
    ensures forall x :: x in DedupBy(s, key) ==> x in s
  {
    if s != [] {
      DedupBySubset(s[..|s| - 1], key);
    }
  }

  /**
   * On a sorted input, the element kept for a key is not after any other
   * element with that key: de-duplication keeps the best of each key.
   */
  lemma {:induction false} DedupByKeepsBest<T, K>(s: seq<T>, key: T -> K, lt: (T, T) -> bool, x: T, y: T)
    requires SortedBy(s, lt)
    requires x in DedupBy(s, key) && y in s && key(x) == key(y)
    ensures x == y || !lt(y, x)
  {
    var init, last := s[..|s| - 1], s[|s| - 1];
    var d := DedupBy(init, key);
    assert SortedBy(init, lt);
    DedupBySubset(init, key);
    if x in d {
      if y in init {
        DedupByKeepsBest(init, key, lt, x, y);
      } else {
        var i :| 0 <= i < |init| && init[i] == x;
        assert s[i] == x && y == s[|s| - 1];
      }
    } else {
      assert x == last && key(x) !in KeySet(d, key);
      DedupByProperties(init, key);
      KeySetMembers(init, key, key(x));
      assert y !in init;
    }
  }

  /** De-duplication of a sorted sequence is sorted. */
  /**
   * Sorting, keeping the first element of each key and taking `n` keeps the
   * best keys: an element whose key was left out means `n` were taken, and
   * the kept element `y` of its key is not after it and not before the last taken.
   */
  lemma {:induction false} TakeDedupSortedMaximal<T(!new), K>(s: seq<T>, key: T -> K, lt: (T, T) -> bool, n: nat, x: T)
    returns (y: T)
    requires StrictOrder(lt) && x in s
    requires key(x) !in KeySet(TakeFirst(DedupBy(SortBy(s, lt), key), n), key)
    ensures var r := TakeFirst(DedupBy(SortBy(s, lt), key), n);
      |r| == n && (n > 0 ==> (y == x || !lt(x, y)) && !lt(y, r[n - 1]))
  {
    var sorted := SortBy(s, lt);
    SortBySorted(s, lt);
    var d := DedupBy(sorted, key);
    DedupByKeySet(sorted, key);
    DedupBySorted(sorted, key, lt);
    assert x in multiset(sorted);
    var p :| 0 <= p < |sorted| && sorted[p] == x;
    assert key(x) in KeySet(d, key);
    KeySetMembers(d, key, key(x));
    var q :| 0 <= q < |d| && key(d[q]) == key(x);
    var r := TakeFirst(d, n);
    if q < |r| {
      KeyInPrefix(d, key, |r|, q);
      assert false;
    }
    DedupByKeepsBest(sorted, key, lt, d[q], x);
    y := d[q];
    if n > 0 {
      assert !lt(d[q], d[n - 1]);
    }
  }

  lemma {:induction false} DedupBySorted<T, K>(s: seq<T>, key: T -> K, lt: (T, T) -> bool)
    requires SortedBy(s, lt)
    ensures SortedBy(DedupBy(s, key), lt)
  {
    if s != [] {
      var init, last := s[..|s| - 1], s[|s| - 1];
      assert SortedBy(init, lt);
      DedupBySorted(init, key, lt);
      var d := DedupBy(init, key);
      if key(last) !in KeySet(d, key) {
        DedupBySubset(init, key);
        assert s == init + [last];
        SortedAppend(init, d, last, lt);
      }
    }
  }

  /** Appending the last element of a sorted sequence to a sorted selection of the rest keeps it sorted. */
  lemma SortedAppend<T>(init: seq<T>, d: seq<T>, last: T, lt: (T, T) -> bool)
    requires SortedBy(init + [last], lt) && SortedBy(d, lt)
    requires forall x :: x in d ==> x in init
    ensures SortedBy(d + [last], lt)
  {
    var s := init + [last];
    var r := d + [last];
    forall i, j | 0 <= i < j < |r| ensures !lt(r[j], r[i]) {
      if j == |d| {
        assert r[i] in init;
        var k :| 0 <= k < |init| && init[k] == r[i];
        assert s[k] == r[i] && s[|init|] == last;
      }
    }
  }

  /** The first `n` elements, or all of them when there are fewer. */
  function TakeFirst<T>(s: seq<T>, n: nat): (r: seq<T>)
    ensures |r| <= n && |r| <= |s| && r == s[..|r|]
    ensures |s| <= n ==> r == s
    ensures |s| > n ==> |r| == n
  {
    if |s| <= n then s else s[..n]
  }

  /** Some element of `s` satisfies `p` exactly when one of its prefix `init` does or its last one does. */
  lemma ExistsSnoc<T>(s: seq<T>, init: seq<T>, p: T -> bool)
    requires s != [] && init == s[..|s| - 1]
    ensures (exists i :: 0 <= i < |s| && p(s[i])) <==>
      (exists i :: 0 <= i < |init| && p(init[i])) || p(s[|s| - 1])
  {
    if exists i :: 0 <= i < |s| && p(s[i]) {
      var i :| 0 <= i < |s| && p(s[i]);
      if i < |init| {
        assert p(init[i]);
      }
    }
    if exists i :: 0 <= i < |init| && p(init[i]) {
      var i :| 0 <= i < |init| && p(init[i]);
      assert p(s[i]);
    }
  }
}
