/**
 * The shared key/value cache with per-key time-to-live. Time itself is not
 * modelled: each entry records the TTL it was written with, and expiry is an
 * explicit removal of the key.
 */
module TtlCache {
  import opened Wrappers

  /** A cached value and the TTL, in seconds, it was stored with. */
  datatype Entry = Entry(value: int, ttl: nat)

  type Store = map<string, Entry>

  /** `cache.get(key)`: the stored value, or `None` when the key is absent. */
  function Lookup(c: Store, key: string): (v: Option<int>)
  {
    if key in c then Some(c[key].value) else None
  }

  /** Python truthiness of a `cache.get` result: present and non-zero. */
  predicate Truthy(v: Option<int>)
  {
    v.Some? && v.value != 0
  }

  class Cache {
    var entries: Store

    constructor (entries: Store)
      ensures this.entries == entries
    {
      this.entries := entries;
    }

    /** `cache.get(key)`. */
    method Get(key: string) returns (v: Option<int>)
      ensures v.Some? <==> key in entries
      ensures v.Some? ==> v.value == entries[key].value
    {
      if key in entries {
        v := Some(entries[key].value);
      } else {
        v := None;
      }
    }

    /** `cache.set(key, value, ttl)`: overwrites the entry and its TTL. */
    method Set(key: string, value: int, ttl: nat)
      modifies this
      ensures entries == old(entries)[key := Entry(value, ttl)]
    {
      entries := entries[key := Entry(value, ttl)];
    }

    /**
     * `cache.incr(key)`: adds one to a present entry and keeps its TTL; on an
     * absent key it fails (Python raises `ValueError`) and creates nothing.
     */
    method Incr(key: string) returns (ok: bool)
      modifies this
      ensures ok <==> key in old(entries)
      ensures ok ==> entries == old(entries)[key := Entry(old(entries)[key].value + 1, old(entries)[key].ttl)]
      ensures !ok ==> entries == old(entries)
    {
      ok := key in entries;
      if ok {
        entries := entries[key := Entry(entries[key].value + 1, entries[key].ttl)];
      }
    }

    /** `cache.delete(key)`; also how a lapsed TTL is represented. */
    method Delete(key: string)
      modifies this
      ensures entries == old(entries) - {key}
    {
      entries := entries - {key};
    }
  }
}
