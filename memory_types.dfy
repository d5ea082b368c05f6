/** Keys, values and sized entries of the memory cache. */
module MemoryTypes {
  import opened Graphics

  /** `MemoryCache.Key`: a primary identifier plus string extras; equality is by content. */
  datatype Key = Key(key: string, extras: map<string, string>)

  /** `MemoryCache.Value`: an image plus its metadata extras. */
  datatype Value = Value(image: Image, extras: map<string, string>)

  /** What a tier records for a key: the image, its extras and its size. */
  datatype Entry = Entry(image: Image, extras: map<string, string>, size: nat)
  {
    /** The value a lookup hands back for this entry. */
    function AsValue(): Value {
      Value(image, extras)
    }
  }

  /**
   * `toImmutableMap`: a fresh copy of a caller's map. Dafny maps are values, so the copy is
   * built entry by entry and is equal in content to the original.
   */
  function ToImmutableMap(m: map<string, string>): (r: map<string, string>)
    ensures r.Keys == m.Keys
    ensures forall k :: k in m ==> r[k] == m[k]
    ensures r == m
  {
    map k | k in m :: m[k]
  }
}
