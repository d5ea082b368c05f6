/**
 * The bookkeeping of the strong tier's least-recently-used policy, on values: a recency
 * order (least recently used first), the running size total, and how many entries a trim
 * evicts.
 */
module Lru {
  import opened MemoryTypes

  /** No key occurs twice in a recency order. */
  predicate Distinct(ks: seq<Key>) {
    ks == [] || (ks[0] !in ks[1..] && Distinct(ks[1..]))
  }

  /** Appending a key that is not yet in a distinct order keeps it distinct. */
  lemma {:induction false} DistinctAppend(ks: seq<Key>, k: Key)
    requires Distinct(ks) && k !in ks
    ensures Distinct(ks + [k])
  {
    if ks == [] {
      assert [] + [k] == [k];
    } else {
      assert (ks + [k])[1..] == ks[1..] + [k];
      DistinctAppend(ks[1..], k);
    }
  }

  /** The size recorded for `k`, or 0 when `m` has no entry for it. */
  function SizeOf(m: map<Key, Entry>, k: Key): nat {
    if k in m then m[k].size else 0
  }

  /** The sum of the sizes recorded in `m` for the keys of `ks`. */
  function TotalSize(ks: seq<Key>, m: map<Key, Entry>): nat {
    if ks == [] then 0 else SizeOf(m, ks[0]) + TotalSize(ks[1..], m)
  }

  /**
   * The strong tier's bookkeeping invariant: the order lists each held key once, and
   * `size` is the running total of the held entries' sizes.
   */
  ghost predicate Tracks(ks: seq<Key>, m: map<Key, Entry>, size: int) {
    && Distinct(ks)
    && (forall k :: k in m <==> k in ks)
    && size == TotalSize(ks, m)
  }

  /** Evicting the least recently used entry keeps the bookkeeping invariant. */
  lemma {:induction false} TracksEvictFront(ks: seq<Key>, m: map<Key, Entry>, size: int)
    requires Tracks(ks, m, size) && ks != []
    ensures ks[0] in m
    ensures Tracks(ks[1..], m - {ks[0]}, size - m[ks[0]].size)
  {
    assert ks[0] in ks;
    TotalSizeFrame(ks[1..], m, m - {ks[0]});
  }

  /** Using a held key keeps the bookkeeping invariant. */
  lemma TracksTouch(ks: seq<Key>, m: map<Key, Entry>, size: int, k: Key)
    requires Tracks(ks, m, size) && k in m
    ensures Tracks(Touch(ks, k), m, size)
  {
    TotalSizeWithout(ks, k, m);
    TotalSizeAppend(Without(ks, k), k, m);
  }

  /** Inserting or replacing an entry keeps the bookkeeping invariant, with the total adjusted. */
  lemma TracksPut(ks: seq<Key>, m: map<Key, Entry>, size: int, k: Key, e: Entry)
    requires Tracks(ks, m, size)
    ensures Tracks(Touch(ks, k), m[k := e], size - SizeOf(m, k) + e.size)
  {
    TotalSizeWithout(ks, k, m);
    TotalSizeFrame(Without(ks, k), m, m[k := e]);
    TotalSizeAppend(Without(ks, k), k, m[k := e]);
  }

  /** Removing a key keeps the bookkeeping invariant, with its size subtracted. */
  lemma TracksRemove(ks: seq<Key>, m: map<Key, Entry>, size: int, k: Key)
    requires Tracks(ks, m, size)
    ensures Tracks(Without(ks, k), m - {k}, size - SizeOf(m, k))
  {
    TotalSizeWithout(ks, k, m);
    TotalSizeFrame(Without(ks, k), m, m - {k});
  }

  /** The entries of `m` whose keys occur in `ks`. */
  function Restrict(m: map<Key, Entry>, ks: seq<Key>): map<Key, Entry> {
    map k | k in m && k in ks :: m[k]
  }

  /** A map that agrees with `m` and whose keys are those of `ks` is `m` restricted to `ks`. */
  lemma RestrictAgrees(m: map<Key, Entry>, sub: map<Key, Entry>, ks: seq<Key>)
    requires forall k :: k in sub <==> k in ks
    requires forall k :: k in sub ==> k in m && sub[k] == m[k]
    ensures sub == Restrict(m, ks)
  {
  }

  /** Extending the demoted prefix by one key adds that key's entry. */
  lemma RestrictPrefixStep(w: map<Key, Entry>, m: map<Key, Entry>, ks: seq<Key>, i: nat)
    requires i < |ks| && ks[i] in m
    ensures w + Restrict(m, ks[..i + 1]) == (w + Restrict(m, ks[..i]))[ks[i] := m[ks[i]]]
  {
    assert ks[..i + 1] == ks[..i] + [ks[i]];
  }

  /** A recency order with `k` taken out; the others keep their relative order. */
  function Without(ks: seq<Key>, k: Key): (r: seq<Key>)
    ensures forall x :: x in r <==> x in ks && x != k
    ensures |r| <= |ks|
    ensures k !in ks ==> r == ks
    ensures Distinct(ks) ==> Distinct(r)
  {
    if ks == [] then []
    else if ks[0] == k then Without(ks[1..], k)
    else
      var rest := Without(ks[1..], k);
      assert ([ks[0]] + rest)[1..] == rest;
      [ks[0]] + rest
  }

  /** The order after `k` has been used: it becomes the most recently used, at the back. */
  function Touch(ks: seq<Key>, k: Key): (r: seq<Key>)
    ensures forall x :: x in r <==> x in ks || x == k
    ensures |r| > 0 && r[|r| - 1] == k
    ensures k !in ks ==> r == ks + [k]
    ensures Distinct(ks) ==> Distinct(r)
  {
    var r := Without(ks, k) + [k];
    assert Distinct(ks) ==> Distinct(r) by {
      if Distinct(ks) { DistinctAppend(Without(ks, k), k); }
    }
    r
  }

  /**
   * Taking out a key that occurs once leaves the keys before it and the keys after it where
   * they were: the rest of the recency order keeps its relative order.
   */
  lemma {:induction false} WithoutSplice(a: seq<Key>, k: Key, b: seq<Key>)
    requires k !in a && k !in b
    ensures Without(a + ([k] + b), k) == a + b
  {
    if a == [] {
      assert a + ([k] + b) == [k] + b;
      WithoutCons(k, b, k);
    } else {
      var tail := a[1..] + ([k] + b);
      SplitFirst(a, [k] + b);
      SplitFirst(a, b);
      assert a[0] != k && k !in a[1..];
      WithoutCons(a[0], tail, k);
      WithoutSplice(a[1..], k, b);
    }
  }

  /** Splitting off the first key of `a` before or after appending `b`. */
  lemma SplitFirst(a: seq<Key>, b: seq<Key>)
    requires a != []
    ensures a + b == [a[0]] + (a[1..] + b)
  {
    assert a == [a[0]] + a[1..];
  }

  /** One step of `Without`: a leading key is dropped if it is `k` and kept otherwise. */
  lemma WithoutCons(x: Key, ks: seq<Key>, k: Key)
    ensures Without([x] + ks, k) == if x == k then Without(ks, k) else [x] + Without(ks, k)
  {
    assert ([x] + ks)[1..] == ks;
  }

  /** Using a held key moves it from its place to the back; the other keys keep their order. */
  lemma TouchSplice(a: seq<Key>, k: Key, b: seq<Key>)
    requires k !in a && k !in b
    ensures Touch(a + ([k] + b), k) == (a + b) + [k]
  {
    WithoutSplice(a, k, b);
  }

  /** Appending an entry adds its size to the total. */
  lemma {:induction false} TotalSizeAppend(ks: seq<Key>, k: Key, m: map<Key, Entry>)
    ensures TotalSize(ks + [k], m) == TotalSize(ks, m) + SizeOf(m, k)
  {
    if ks == [] {
      assert [] + [k] == [k];
      assert [k][1..] == [];
    } else {
      assert (ks + [k])[1..] == ks[1..] + [k];
      TotalSizeAppend(ks[1..], k, m);
    }
  }

  /** Taking a key out of a distinct order subtracts exactly its size from the total. */
  lemma {:induction false} TotalSizeWithout(ks: seq<Key>, k: Key, m: map<Key, Entry>)
    requires Distinct(ks)
    ensures TotalSize(ks, m) == (if k in ks then SizeOf(m, k) else 0) + TotalSize(Without(ks, k), m)
  {
    if ks != [] {
        TotalSizeWithout(ks[1..], k, m);
      if ks[0] != k {
        assert ([ks[0]] + Without(ks[1..], k))[1..] == Without(ks[1..], k);
      }
    }
  }

  /** The total depends only on the sizes recorded for the keys of the order. */
  lemma {:induction false} TotalSizeFrame(ks: seq<Key>, m1: map<Key, Entry>, m2: map<Key, Entry>)
    requires forall k :: k in ks ==> SizeOf(m1, k) == SizeOf(m2, k)
    ensures TotalSize(ks, m1) == TotalSize(ks, m2)
  {
    if ks != [] {
      assert ks[0] in ks;
      TotalSizeFrame(ks[1..], m1, m2);
    }
  }

  /**
   * How many least-recently-used entries a trim to `target` evicts: it evicts from the front
   * of the order while the total exceeds `target` and the order is not empty. The result is
   * the smallest count that brings the total within `target` (or empties the order).
   */
  function EvictCount(ks: seq<Key>, m: map<Key, Entry>, target: int): (n: nat)
    ensures n <= |ks|
    ensures n == |ks| || TotalSize(ks[n..], m) <= target
  {
    if ks == [] || TotalSize(ks, m) <= target then 0
    else
      var n := 1 + EvictCount(ks[1..], m, target);
      assert ks[n..] == ks[1..][n - 1..];
      n
  }

  /** A trim evicts no more than it must: before each eviction the total still exceeded the target. */
  lemma {:induction false} EvictCountMinimal(ks: seq<Key>, m: map<Key, Entry>, target: int, j: nat)
    requires j < EvictCount(ks, m, target)
    ensures TotalSize(ks[j..], m) > target
  {
    if j > 0 {
      assert ks[j..] == ks[1..][j - 1..];
      EvictCountMinimal(ks[1..], m, target, j - 1);
    }
  }

  /**
   * The outcome of trimming the order `ks` (entries `m`, weak tier `w`) to `target`: the
   * strong tier tracks `rest`, `held` and `size`, which is the order without its
   * `EvictCount` least recently used keys, and the weak tier `weak` has gained exactly the
   * evicted entries. The total now fits the target, or nothing is left.
   */
  ghost predicate Trimmed(
    ks: seq<Key>, m: map<Key, Entry>, w: map<Key, Entry>, target: int,
    rest: seq<Key>, held: map<Key, Entry>, size: int, weak: map<Key, Entry>)
  {
    var n := EvictCount(ks, m, target);
    && rest == ks[n..]
    && held == Restrict(m, rest)
    && weak == w + Restrict(m, ks[..n])
    && Tracks(rest, held, size)
    && size <= TotalSize(ks, m)
    && (size <= target || rest == [])
  }

  /**
   * Partway through a trim of the order `ks` (entries `m`, weak tier `w`) to `target`:
   * `i` entries have been evicted, the strong tier now tracks `rest`, `held` and `size`,
   * and the weak tier holds `w` plus the evicted entries.
   */
  ghost predicate Trimming(
    ks: seq<Key>, m: map<Key, Entry>, w: map<Key, Entry>, target: int,
    i: nat, rest: seq<Key>, held: map<Key, Entry>, size: int, weak: map<Key, Entry>)
  {
    && i <= |ks| && rest == ks[i..]
    && Tracks(rest, held, size)
    && (forall k :: k in held ==> k in m && held[k] == m[k])
    && weak == w + Restrict(m, ks[..i])
    && i + EvictCount(rest, m, target) == EvictCount(ks, m, target)
    && size <= TotalSize(ks, m)
  }

  lemma TrimmingStart(ks: seq<Key>, m: map<Key, Entry>, w: map<Key, Entry>, target: int, size: int)
    requires Tracks(ks, m, size)
    ensures Trimming(ks, m, w, target, 0, ks, m, size, w)
  {
    assert ks[..0] == [];
    assert w + Restrict(m, ks[..0]) == w;
  }

  /** One eviction: the least recently used entry leaves the strong tier for the weak tier. */
  lemma TrimmingStep(
    ks: seq<Key>, m: map<Key, Entry>, w: map<Key, Entry>, target: int,
    i: nat, rest: seq<Key>, held: map<Key, Entry>, size: int, weak: map<Key, Entry>)
    requires Trimming(ks, m, w, target, i, rest, held, size, weak)
    requires size > target && rest != []
    ensures rest[0] in held
    ensures Trimming(ks, m, w, target, i + 1, rest[1..], held - {rest[0]},
                     size - held[rest[0]].size, weak[rest[0] := held[rest[0]]])
  {
    TotalSizeFrame(rest, held, m);
    TracksEvictFront(rest, held, size);
    RestrictPrefixStep(w, m, ks, i);
    assert rest[1..] == ks[i + 1..];
  }

  /** When the loop stops, exactly the counted prefix has been evicted. */
  lemma TrimmingDone(
    ks: seq<Key>, m: map<Key, Entry>, w: map<Key, Entry>, target: int,
    i: nat, rest: seq<Key>, held: map<Key, Entry>, size: int, weak: map<Key, Entry>)
    requires Trimming(ks, m, w, target, i, rest, held, size, weak)
    requires size <= target || rest == []
    ensures Trimmed(ks, m, w, target, rest, held, size, weak)
  {
    TotalSizeFrame(rest, held, m);
    RestrictAgrees(m, held, rest);
  }

  /** Put a, b and c, use a, then put d: the recency order is b, c, a, d. */
  lemma ScenarioOrder(a: Key, b: Key, c: Key, d: Key)
    requires a != b && a != c && a != d && b != c && b != d && c != d
    ensures Touch(Touch(Touch(Touch(Touch([], a), b), c), a), d) == [b, c, a, d]
  {
    ScenarioPuts(a, b, c);
    ScenarioUse(a, b, c);
    ScenarioPutLast(b, c, a, d);
  }

  /** Putting a fourth new key appends it. */
  lemma ScenarioPutLast(a: Key, b: Key, c: Key, d: Key)
    requires d != a && d != b && d != c
    ensures Touch([a, b, c], d) == [a, b, c, d]
  {
    assert d !in [a, b, c];
    assert [a, b, c] + [d] == [a, b, c, d];
  }

  /** Putting three new keys lists them in insertion order. */
  lemma ScenarioPuts(a: Key, b: Key, c: Key)
    requires a != b && a != c && b != c
    ensures Touch(Touch(Touch([], a), b), c) == [a, b, c]
  {
    assert [] + [a] == [a];
    assert b !in [a] && [a] + [b] == [a, b];
    assert c !in [a, b] && [a, b] + [c] == [a, b, c];
  }

  /** Using the least recently used of three keys moves it to the back. */
  lemma ScenarioUse(a: Key, b: Key, c: Key)
    requires a != b && a != c && b != c
    ensures Touch([a, b, c], a) == [b, c, a]
  {
    TouchSplice([], a, [b, c]);
    assert [] + ([a] + [b, c]) == [a, b, c];
    assert ([] + [b, c]) + [a] == [b, c, a];
  }

  /** The total of an order with `k` in front is `k`'s size plus the total of the rest. */
  lemma TotalSizeCons(k: Key, ks: seq<Key>, m: map<Key, Entry>)
    ensures TotalSize([k] + ks, m) == SizeOf(m, k) + TotalSize(ks, m)
  {
    assert ([k] + ks)[1..] == ks;
  }

  /**
   * Least recently used goes first: with a budget of three unit-size entries, put a, b and
   * c, use a, then put d. The trim that follows evicts exactly b.
   */
  lemma UsedKeySurvivesEviction(a: Key, b: Key, c: Key, d: Key, m: map<Key, Entry>)
    requires a != b && a != c && a != d && b != c && b != d && c != d
    requires SizeOf(m, a) == 1 && SizeOf(m, b) == 1 && SizeOf(m, c) == 1 && SizeOf(m, d) == 1
    ensures var o := Touch(Touch(Touch(Touch(Touch([], a), b), c), a), d);
      && o == [b, c, a, d]
      && EvictCount(o, m, 3) == 1
      && o[..EvictCount(o, m, 3)] == [b]
  {
    ScenarioOrder(a, b, c, d);
    ScenarioEvict(a, b, c, d, m);
  }

  /** Four unit-size entries over a budget of three: the trim evicts only the first. */
  lemma ScenarioEvict(a: Key, b: Key, c: Key, d: Key, m: map<Key, Entry>)
    requires SizeOf(m, a) == 1 && SizeOf(m, b) == 1 && SizeOf(m, c) == 1 && SizeOf(m, d) == 1
    ensures EvictCount([b, c, a, d], m, 3) == 1
  {
    TotalSizeCons(d, [], m);
    assert [d] == [d] + [];
    TotalSizeCons(a, [d], m);
    assert [a, d] == [a] + [d];
    TotalSizeCons(c, [a, d], m);
    assert [c, a, d] == [c] + [a, d];
    EvictFirstOnly(b, [c, a, d], m, 3);
    assert [b, c, a, d] == [b] + [c, a, d];
  }

  /** When the order fits only without its first entry, a trim evicts exactly that entry. */
  lemma EvictFirstOnly(k: Key, ks: seq<Key>, m: map<Key, Entry>, target: int)
    requires TotalSize(ks, m) <= target < SizeOf(m, k) + TotalSize(ks, m)
    ensures EvictCount([k] + ks, m, target) == 1
  {
    TotalSizeCons(k, ks, m);
    assert ([k] + ks)[1..] == ks;
  }


}
