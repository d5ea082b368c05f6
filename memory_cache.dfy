/**
 * The memory cache facade (`RealMemoryCache`): a strong tier and a weak tier behind one
 * interface. Lookups try the strong tier first; inserts go to the strong tier only, whose
 * evictions feed the weak tier; removal and clearing reach both tiers.
 */
module MemoryCache {
  import opened Wrappers
  import opened MemoryTypes
  import opened Lru
  import opened WeakTier
  import opened StrongTier

  class RealMemoryCache {
    const strong: StrongMemoryCache
    const weak: WeakMemoryCache

    /** The strong tier demotes into this cache's own weak tier, and keeps its budget. */
    ghost predicate Valid()
      reads this, strong
    {
      strong.weak == weak && strong.Valid()
    }

    constructor(strong: StrongMemoryCache, weak: WeakMemoryCache)
      requires strong.weak == weak && strong.Valid()
      ensures Valid()
      ensures this.strong == strong && this.weak == weak
    {
      this.strong := strong;
      this.weak := weak;
    }

    /**
     * `size`: the total size of the strongly held entries. The weak tier is outside this
     * function's reads clause, so nothing it holds can change the result.
     */
    function Size(): (r: nat)
      reads this, strong
      requires Valid()
      ensures r == TotalSize(strong.order, strong.entries)
      ensures r <= strong.maxSize
    {
      strong.size
    }

    /** `maxSize`: the strong tier's budget, which bounds the strongly held entries. */
    function MaxSize(): (r: nat)
      reads this, strong
      ensures r == strong.maxSize
      ensures Valid() ==> TotalSize(strong.order, strong.entries) <= r
    {
      strong.maxSize
    }

    /**
     * What `get` returns, read without its side effect on the strong tier's recency:
     * the strong tier's value when it holds the key, otherwise the weak tier's.
     */
    function Peek(key: Key): (r: Option<Value>)
      reads this, strong, weak
      ensures key in strong.entries ==> r == Some(strong.entries[key].AsValue())
      ensures key !in strong.entries ==> r == weak.Get(key)
      ensures r.None? <==> key !in strong.entries && key !in weak.entries
    {
      match strong.Lookup(key)
      case Some(v) => Some(v)
      case None => weak.Get(key)
    }

    /** `keys`: the union of both tiers' keys, which are exactly the keys a lookup hits. */
    function Keys(): (r: set<Key>)
      reads this, strong, weak
      ensures r == strong.entries.Keys + weak.entries.Keys
      ensures forall k :: k in r <==> Peek(k).Some?
    {
      strong.Keys() + weak.Keys()
    }

    /** The lookup waterfall: the weak tier is consulted only on a strong miss. */
    method Get(key: Key) returns (r: Option<Value>)
      requires Valid()
      modifies strong
      ensures Valid()
      ensures r == old(Peek(key))
      ensures strong.entries == old(strong.entries)
      ensures strong.order == if key in strong.entries then Touch(old(strong.order), key) else old(strong.order)
      ensures weak.entries == old(weak.entries)
      ensures Keys() == old(Keys())
    {
      r := strong.Get(key);
      if r.None? {
        r := weak.Get(key);
      }
    }

    /**
     * Stores an immutable copy of the key and the extras in the strong tier, sized by the
     * image. The weak tier changes only by the strong tier's demotions, and the value can
     * be looked up afterwards from one tier or the other.
     */
    method Set(key: Key, value: Value)
      requires Valid()
      modifies strong, weak
      ensures Valid()
      ensures Peek(key) == Some(value)
      ensures var o := Touch(old(strong.order), key);
        var m := old(strong.entries)[key := Entry(value.image, value.extras, value.image.size)];
        var n := EvictCount(o, m, strong.maxSize);
        && strong.order == o[n..]
        && strong.entries == Restrict(m, strong.order)
        && weak.entries == old(weak.entries) + Restrict(m, o[..n])
    {
      ghost var o := Touch(strong.order, key);
      ghost var m := strong.entries[key := Entry(value.image, value.extras, value.image.size)];
      strong.Set(
        Key(key.key, ToImmutableMap(key.extras)),
        value.image,
        ToImmutableMap(value.extras),
        value.image.size
      );
      ghost var n := EvictCount(o, m, strong.maxSize);
      assert key == o[|o| - 1];
      if n < |o| {
        assert key == o[n..][|o| - 1 - n];
      } else {
        assert key == o[..n][|o| - 1];
      }
    }

    /**
     * Removes `key` from both tiers, always attempting both removals; true iff either
     * tier held it.
     */
    method Remove(key: Key) returns (removed: bool)
      requires Valid()
      modifies strong, weak
      ensures Valid()
      ensures removed == (key in old(strong.entries) || key in old(weak.entries))
      ensures strong.entries == old(strong.entries) - {key}
      ensures strong.order == Without(old(strong.order), key)
      ensures weak.entries == old(weak.entries) - {key}
      ensures key !in Keys() && Peek(key).None?
    {
      var removedStrong := strong.Remove(key);
      var removedWeak := weak.Remove(key);
      removed := removedStrong || removedWeak;
    }

    /**
     * Trims the strong tier to `size`; the facade itself does not touch the weak tier,
     * which only receives the demoted entries.
     */
    method TrimToSize(size: int)
      requires Valid()
      modifies strong, weak
      ensures Valid()
      ensures Size() <= size || strong.entries == map[]
      ensures var n := EvictCount(old(strong.order), old(strong.entries), size);
        && strong.order == old(strong.order)[n..]
        && strong.entries == Restrict(old(strong.entries), strong.order)
        && weak.entries == old(weak.entries) + Restrict(old(strong.entries), old(strong.order)[..n])
    {
      strong.TrimToSize(size);
    }

    /** Empties both tiers. */
    method Clear()
      requires Valid()
      modifies strong, weak
      ensures Valid()
      ensures strong.entries == map[] && weak.entries == map[]
      ensures Size() == 0 && Keys() == {}
    {
      strong.Clear();
      weak.Clear();
    }
  }
}
