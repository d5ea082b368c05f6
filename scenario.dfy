/**
 * A use of the whole facade: the least recently used image is the one demoted to the weak
 * tier, and it can still be looked up afterwards.
 */
module Scenario {
  import opened Wrappers
  import opened MemoryTypes
  import opened Lru
  import opened WeakTier
  import opened StrongTier
  import opened MemoryCache

  /** Every entry of `m` is `e`. */
  ghost predicate AllAre(m: map<Key, Entry>, e: Entry) {
    forall k :: k in m ==> m[k] == e
  }

  /** With entries of size at most one, the total is at most the number of keys. */
  lemma {:induction false} UnitTotal(ks: seq<Key>, m: map<Key, Entry>, e: Entry)
    requires AllAre(m, e) && e.size == 1
    ensures TotalSize(ks, m) <= |ks|
  {
    if ks != [] {
      UnitTotal(ks[1..], m, e);
    }
  }

  /** An order of unit-size entries no longer than the target is not trimmed at all. */
  lemma FitsEvictsNothing(ks: seq<Key>, m: map<Key, Entry>, e: Entry, target: int)
    requires AllAre(m, e) && e.size == 1 && |ks| <= target
    ensures EvictCount(ks, m, target) == 0
  {
    UnitTotal(ks, m, e);
  }

  /** Putting a new unit-size image into a cache with room for it appends its key and evicts nothing. */
  method PutFits(cache: RealMemoryCache, key: Key, v: Value)
    requires cache.Valid() && v.image.size == 1
    requires AllAre(cache.strong.entries, Entry(v.image, v.extras, 1))
    requires key !in cache.strong.order && |cache.strong.order| < cache.strong.maxSize
    modifies cache.strong, cache.weak
    ensures cache.Valid()
    ensures AllAre(cache.strong.entries, Entry(v.image, v.extras, 1))
    ensures cache.strong.order == old(cache.strong.order) + [key]
  {
    ghost var o := cache.strong.order;
    ghost var e := Entry(v.image, v.extras, 1);
    ghost var m := cache.strong.entries[key := e];
    cache.Set(key, v);
    assert |Touch(o, key)| == |o| + 1;
    FitsEvictsNothing(Touch(o, key), m, e, cache.strong.maxSize);
    assert Touch(o, key)[0..] == Touch(o, key);
  }

  /**
   * Putting a fourth unit-size image d over the order b, c, a with a budget of three
   * evicts exactly b, which the weak tier then holds.
   */
  method PutEvicts(cache: RealMemoryCache, a: Key, b: Key, c: Key, d: Key, v: Value)
    requires cache.Valid() && v.image.size == 1 && cache.strong.maxSize == 3
    requires a != b && a != c && a != d && b != c && b != d && c != d
    requires AllAre(cache.strong.entries, Entry(v.image, v.extras, 1))
    requires cache.strong.order == [b, c, a]
    modifies cache.strong, cache.weak
    ensures cache.Valid()
    ensures cache.strong.order == [c, a, d]
    ensures b in cache.weak.entries && cache.weak.entries[b] == Entry(v.image, v.extras, 1)
    ensures cache.Peek(b) == Some(v)
  {
    ghost var e := Entry(v.image, v.extras, 1);
    ghost var m := cache.strong.entries[d := e];
    assert a in cache.strong.entries && b in cache.strong.entries && c in cache.strong.entries;
    cache.Set(d, v);
    ScenarioPutLast(b, c, a, d);
    ScenarioEvict(a, b, c, d, m);
    SplitOff(b, [c, a, d]);
    assert b !in cache.strong.entries;
  }

  /** The first key and the rest of `[k] + ks`, as slices. */
  lemma SplitOff(k: Key, ks: seq<Key>)
    ensures ([k] + ks)[1..] == ks && ([k] + ks)[..1] == [k]
  {
  }

  /** The orders after the first three puts. */
  lemma ThreePuts(a: Key, b: Key, c: Key)
    requires a != b && a != c && b != c
    ensures [] + [a] == [a] && [a] + [b] == [a, b] && [a, b] + [c] == [a, b, c]
    ensures b !in [a] && c !in [a, b] && |[a, b]| == 2
  {
  }

  /**
   * A cache with a budget of three unit-size images: put a, b and c, use a, then put d.
   * The strong tier is left holding c, a and d in that order, b has been demoted, and a
   * lookup of b still finds it.
   */
  method LeastRecentlyUsedIsDemoted(a: Key, b: Key, c: Key, d: Key, v: Value)
    returns (order: seq<Key>, demoted: bool, hit: Option<Value>)
    requires a != b && a != c && a != d && b != c && b != d && c != d
    requires v.image.size == 1
    ensures order == [c, a, d]
    ensures demoted
    ensures hit == Some(v)
  {
    var weak := new WeakMemoryCache();
    var strong := new StrongMemoryCache(3, weak);
    var cache := new RealMemoryCache(strong, weak);
    ThreePuts(a, b, c);
    PutFits(cache, a, v);
    PutFits(cache, b, v);
    PutFits(cache, c, v);
    var used := cache.Get(a);
    ScenarioUse(a, b, c);
    PutEvicts(cache, a, b, c, d, v);
    order := strong.order;
    demoted := b in weak.entries;
    hit := cache.Get(b);
  }
}
