/**
 * The weak tier (`WeakMemoryCache`): entries demoted from the strong tier, with no size
 * budget. Reclamation of an entry by the garbage collector is not modelled: an entry stays
 * until it is removed or the tier is cleared.
 */
module WeakTier {
  import opened Wrappers
  import opened Graphics
  import opened MemoryTypes

  class WeakMemoryCache {
    var entries: map<Key, Entry>

    constructor()
      ensures entries == map[]
    {
      entries := map[];
    }

    /** The value recorded for `key`, if any. */
    function Get(key: Key): (r: Option<Value>)
      reads this
      ensures r.Some? <==> key in entries
      ensures r.Some? ==> r.value == entries[key].AsValue()
    {
      if key in entries then Some(entries[key].AsValue()) else None
    }

    /** The keys currently tracked: exactly those a lookup hits. */
    function Keys(): (r: set<Key>)
      reads this
      ensures forall k :: k in r <==> Get(k).Some?
    {
      entries.Keys
    }

    /** Records `key` (replacing an older record for it). */
    method Set(key: Key, image: Image, extras: map<string, string>, size: nat)
      modifies this
      ensures entries == old(entries)[key := Entry(image, extras, size)]
    {
      entries := entries[key := Entry(image, extras, size)];
    }

    /** Drops `key`; true iff it was tracked. */
    method Remove(key: Key) returns (removed: bool)
      modifies this
      ensures removed == (key in old(entries))
      ensures entries == old(entries) - {key}
    {
      removed := key in entries;
      entries := entries - {key};
    }

    method Clear()
      modifies this
      ensures entries == map[]
    {
      entries := map[];
    }
  }
}
