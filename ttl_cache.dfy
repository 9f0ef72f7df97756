/**
 * The proxy's in-memory cache: a map from keys to entries holding a value,
 * the time it was stored and a time to live, with lazy expiry on `get`.
 * `Date.now()` is passed in as `now`, in milliseconds.
 */
module TtlCache {
  import opened Wrappers

  /** The time to live, in seconds, of a `set` that names none. */
  const DefaultTtl: int := 120

  /**
   * A cached value, the time it was stored and its time to live in seconds.
   * A ttl of `None` stands for NaN (a `CACHE_TTL` that `parseInt` rejects).
   */
  datatype CacheEntry<V> = CacheEntry(data: V, timestamp: int, ttl: Option<int>)

  type Store<V> = map<string, CacheEntry<V>>

  /** `now - timestamp > ttl * 1000`; every comparison with NaN is false. */
  predicate Expired<V>(e: CacheEntry<V>, now: int) {
    e.ttl.Some? && now - e.timestamp > e.ttl.value * 1000
  }

  /** What `get` returns: the value of a present, unexpired entry. */
  function Lookup<V>(store: Store<V>, key: string, now: int): Option<V> {
    if key in store && !Expired(store[key], now) then Some(store[key].data) else None
  }

  /** The store after `get`: an expired entry under the key is gone. */
  function AfterLookup<V>(store: Store<V>, key: string, now: int): Store<V> {
    if key in store && Expired(store[key], now) then store - {key} else store
  }

  /** The store after `set`. */
  function Put<V>(store: Store<V>, key: string, data: V, ttl: Option<int>, now: int): Store<V> {
    store[key := CacheEntry(data, now, ttl)]
  }

  class Cache<V> {
    var store: Store<V>

    constructor()
      ensures store == map[]
    {
      store := map[];
    }

    /** `get`: the entry's value, or `None` when absent or expired (and then deleted). */
    method Get(key: string, now: int) returns (r: Option<V>)
      modifies this
      ensures r == Lookup(old(store), key, now)
      ensures store == AfterLookup(old(store), key, now)
    {
      if key !in store {
        return None;
      }
      var entry := store[key];
      var age := now - entry.timestamp;
      if entry.ttl.Some? && age > entry.ttl.value * 1000 {
        store := store - {key};
        return None;
      }
      return Some(entry.data);
    }

    /**
     * `set`: a fresh entry stamped with `now` replaces whatever the key held;
     * without a ttl it lives `DefaultTtl` seconds.
     */
    method Set(key: string, data: V, ttl: Option<int> := Some(DefaultTtl), now: int)
      modifies this
      ensures store == Put(old(store), key, data, ttl, now)
    {
      store := store[key := CacheEntry(data, now, ttl)];
    }

    /** `invalidate`. */
    method Invalidate(key: string)
      modifies this
      ensures store == old(store) - {key}
    {
      store := store - {key};
    }

    /** `clear`. */
    method Clear()
      modifies this
      ensures store == map[]
    {
      store := map[];
    }
  }

  // ---------------------------------------------------------------------
  // Properties of the store operations

  /** A key that was never set, or was invalidated or cleared, misses and changes nothing. */
  lemma LookupAbsent<V>(store: Store<V>, key: string, now: int)
    requires key !in store
    ensures Lookup(store, key, now) == None && AfterLookup(store, key, now) == store
  {
  }

  /**
   * Within its time to live (the bound included) a stored value is returned
   * and the store is left as it is; a NaN ttl never runs out.
   */
  lemma LookupAfterPut<V>(store: Store<V>, key: string, data: V, ttl: Option<int>, t0: int, now: int)
    requires ttl.None? || now - t0 <= ttl.value * 1000
    ensures var s := Put(store, key, data, ttl, t0);
      Lookup(s, key, now) == Some(data) && AfterLookup(s, key, now) == s
  {
  }

  /** A value stored without a ttl is read back for 120 seconds, the bound included, and not after. */
  lemma DefaultTtlWindow<V>(store: Store<V>, key: string, data: V, t0: int, now: int)
    ensures var s := Put(store, key, data, Some(DefaultTtl), t0);
      Lookup(s, key, now) == Some(data) <==> now <= t0 + 120000
  {
  }

  /** `set` without a ttl, then `get` at the end of the 120 seconds and one millisecond later. */
  method DefaultTtlCase<V>(data: V, t0: int) returns (hit: Option<V>, miss: Option<V>)
    ensures hit == Some(data) && miss == None
  {
    var cache := new Cache<V>();
    cache.Set("dashboard-data", data, now := t0);
    hit := cache.Get("dashboard-data", t0 + 120000);
    miss := cache.Get("dashboard-data", t0 + 120001);
  }

  /** Past its time to live a stored value misses, and only that entry is deleted. */
  lemma LookupAfterPutExpired<V>(store: Store<V>, key: string, data: V, ttl: int, t0: int, now: int)
    requires now - t0 > ttl * 1000
    ensures var s := Put(store, key, data, Some(ttl), t0);
      Lookup(s, key, now) == None && AfterLookup(s, key, now) == store - {key}
  {
    var s := Put(store, key, data, Some(ttl), t0);
    assert s - {key} == store - {key};
  }

  /** An expiring `get` deletes the entry under its own key and no other. */
  lemma AfterLookupKeepsOthers<V>(store: Store<V>, key: string, other: string, now: int)
    requires other != key
    ensures var s := AfterLookup(store, key, now);
      (other in s <==> other in store) && (other in store ==> s[other] == store[other])
  {
  }

  /** A `get` that hits leaves the store unchanged. */
  lemma HitKeepsStore<V>(store: Store<V>, key: string, now: int)
    requires Lookup(store, key, now).Some?
    ensures AfterLookup(store, key, now) == store
  {
  }

  /** `set` on a key already present replaces value, timestamp and ttl. */
  lemma PutReplaces<V>(store: Store<V>, key: string, d1: V, ttl1: Option<int>, t1: int, d2: V, ttl2: Option<int>, t2: int)
    ensures Put(Put(store, key, d1, ttl1, t1), key, d2, ttl2, t2) == Put(store, key, d2, ttl2, t2)
    ensures Put(store, key, d2, ttl2, t2)[key] == CacheEntry(d2, t2, ttl2)
  {
  }

  /** `set` under one key is invisible under every other key. */
  lemma PutKeepsOthers<V>(store: Store<V>, key: string, data: V, ttl: Option<int>, t0: int, other: string, now: int)
    requires other != key
    ensures Lookup(Put(store, key, data, ttl, t0), other, now) == Lookup(store, other, now)
  {
  }

  /** `invalidate` removes its key only, and is a no-op on an absent key. */
  lemma InvalidateOnly<V>(store: Store<V>, key: string, other: string, now: int)
    ensures Lookup(store - {key}, key, now) == None
    ensures other != key ==> Lookup(store - {key}, other, now) == Lookup(store, other, now)
    ensures key !in store ==> store - {key} == store
  {
  }
}
