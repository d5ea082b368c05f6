/**
 * The strong tier (`StrongMemoryCache`): owned entries under a size budget, evicted in
 * least-recently-used order. Every entry it evicts is demoted into the weak tier it was
 * built with.
 */
module StrongTier {
  import opened Wrappers
  import opened Graphics
  import opened MemoryTypes
  import opened Lru
  import opened WeakTier

  class StrongMemoryCache {
    /** The tier that receives evicted entries. */
    const weak: WeakMemoryCache
    const maxSize: nat
    /** Recency order of the keys, least recently used first. */
    var order: seq<Key>
    var entries: map<Key, Entry>
    /** Running total of the entries' sizes. */
    var size: nat

    /** The bookkeeping agrees with the entries. */
    ghost predicate Consistent()
      reads this
    {
      Tracks(order, entries, size)
    }

    /** Consistent and within budget, as after every public operation. */
    ghost predicate Valid()
      reads this
    {
      Consistent() && size <= maxSize
    }

    constructor(maxSize: nat, weak: WeakMemoryCache)
      ensures Valid()
      ensures this.maxSize == maxSize && this.weak == weak
      ensures order == [] && entries == map[] && size == 0
    {
      this.weak := weak;
      this.maxSize := maxSize;
      order := [];
      entries := map[];
      size := 0;
    }

    /** The value held for `key`, without touching the recency order. */
    function Lookup(key: Key): (r: Option<Value>)
      reads this
      ensures r.Some? <==> key in entries
      ensures r.Some? ==> r.value == entries[key].AsValue()
    {
      if key in entries then Some(entries[key].AsValue()) else None
    }

    /** The keys held: exactly those a lookup hits. */
    function Keys(): (r: set<Key>)
      reads this
      ensures forall k :: k in r <==> Lookup(k).Some?
    {
      entries.Keys
    }

    /** A lookup; a hit becomes the most recently used entry. */
    method Get(key: Key) returns (r: Option<Value>)
      requires Valid()
      modifies this`order
      ensures Valid()
      ensures r == old(Lookup(key))
      ensures entries == old(entries)
      ensures order == if key in entries then Touch(old(order), key) else old(order)
    {
      r := Lookup(key);
      if key in entries {
        TracksTouch(order, entries, size, key);
        order := Touch(order, key);
      }
    }

    /**
     * Evicts least-recently-used entries, demoting each into the weak tier, until the total
     * is at most `target` or nothing is left (Android's `LruCache.trimToSize`).
     */
    method Evict(target: int)
      requires Consistent()
      modifies this, weak
      ensures Trimmed(old(order), old(entries), old(weak.entries), target, order, entries, size, weak.entries)
    {
      ghost var o0, m0, w0 := order, entries, weak.entries;
      ghost var i := 0;
      var rest, held, total := order, entries, size;
      TrimmingStart(o0, m0, w0, target, total);
      while total > target && rest != []
        invariant Trimming(o0, m0, w0, target, i, rest, held, total, weak.entries)
        modifies weak
        decreases |rest|
      {
        TrimmingStep(o0, m0, w0, target, i, rest, held, total, weak.entries);
        var k := rest[0];
        var e := held[k];
        weak.Set(k, e.image, e.extras, e.size);
        rest, held, total := rest[1..], held - {k}, total - e.size;
        i := i + 1;
      }
      TrimmingDone(o0, m0, w0, target, i, rest, held, total, weak.entries);
      order, entries, size := rest, held, total;
    }

    /**
     * Inserts or replaces `key`, making it the most recently used, then evicts down to the
     * budget. An entry larger than the whole budget is itself evicted into the weak tier.
     */
    method Set(key: Key, image: Image, extras: map<string, string>, entrySize: nat)
      requires Valid()
      modifies this, weak
      ensures Valid()
      ensures Trimmed(Touch(old(order), key), old(entries)[key := Entry(image, extras, entrySize)],
                      old(weak.entries), maxSize, order, entries, size, weak.entries)
    {
      var e := Entry(image, extras, entrySize);
      TracksPut(order, entries, size, key, e);
      size := size - SizeOf(entries, key) + entrySize;
      order := Touch(order, key);
      entries := entries[key := e];
      Evict(maxSize);
    }

    /** Removes `key` without demoting it; true iff it was held. */
    method Remove(key: Key) returns (removed: bool)
      requires Valid()
      modifies this
      ensures Valid()
      ensures removed == (key in old(entries))
      ensures entries == old(entries) - {key}
      ensures order == Without(old(order), key)
    {
      removed := key in entries;
      TracksRemove(order, entries, size, key);
      size := size - SizeOf(entries, key);
      order := Without(order, key);
      entries := entries - {key};
    }

    /** Evicts down to `target`, demoting what it evicts. */
    method TrimToSize(target: int)
      requires Valid()
      modifies this, weak
      ensures Valid()
      ensures Trimmed(old(order), old(entries), old(weak.entries), target, order, entries, size, weak.entries)
    {
      Evict(target);
    }

    /** Evicts everything (`evictAll`), demoting every entry into the weak tier. */
    method Clear()
      requires Valid()
      modifies this, weak
      ensures Valid()
      ensures order == [] && entries == map[] && size == 0
      ensures weak.entries == old(weak.entries) + old(entries)
    {
      ghost var o0, m0 := order, entries;
      Evict(-1);
      assert o0[..|o0|] == o0;
      assert Restrict(m0, o0) == m0;
      assert entries == map[];
    }
  }
}
