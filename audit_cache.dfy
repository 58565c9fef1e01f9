/** The result cache (src/audit_cache.cpp): a map from a cache key to the list
    of results stored under it. */
module Cache {
  import opened AuditResults

  type Store = map<string, seq<Finding>>

  /** QMap::value: the stored list, or the empty list when the key is absent. */
  function Lookup(m: Store, key: string): (r: seq<Finding>)
    ensures key in m ==> r == m[key]
    ensures key !in m ==> r == []
  {
    if key in m then m[key] else []
  }

  /** A get after a put on the same key returns what was put. */
  lemma LookupAfterStore(m: Store, key: string, v: seq<Finding>)
    ensures Lookup(m[key := v], key) == v
  {
  }

  /** A put overwrites the previous value and changes no other key. */
  lemma StoreLeavesOthers(m: Store, key: string, other: string, v: seq<Finding>)
    requires other != key
    ensures Lookup(m[key := v], other) == Lookup(m, other)
    ensures other in m[key := v] <==> other in m
  {
  }

  /** After storing the empty list, a get cannot tell the key from an absent one. */
  lemma StoredEmptyLooksAbsent(m: Store, key: string, absent: string)
    requires absent !in m && absent != key
    ensures Lookup(m[key := []], key) == Lookup(m[key := []], absent) == []
  {
  }

  class AuditCache {
    var cache: Store

    constructor ()
      ensures cache == map[]
    {
      cache := map[];
    }

    /** getCachedResults: a read of the map (QMap::value, which inserts nothing). */
    method GetCachedResults(key: string) returns (r: seq<Finding>)
      ensures r == Lookup(cache, key)
    {
      r := if key in cache then cache[key] else [];
    }

    /** cacheResults: `cache[key] = results`, overwriting any previous value. */
    method CacheResults(key: string, results: seq<Finding>)
      modifies this
      ensures cache == old(cache)[key := results]
    {
      cache := cache[key := results];
    }
  }
}
