/** The response cache (middleware/cache.js) over a model of the node-cache store it uses: a
    map from key to value and expiry time, with hit and miss counters. Time is an explicit
    `now` in epoch milliseconds; expired entries are removed lazily by `Get` and in bulk by
    `Sweep`, which stands for the periodic check. */
module Cache {
  import opened Wrappers

  /** `CACHE_TTL`'s default, in seconds. */
  const DefaultTtl: nat := 1800

  /** The period of the expiry check: a fifth of the TTL, in seconds. */
  function CheckPeriod(ttl: nat): (p: real)
    ensures p * 5.0 == ttl as real
    ensures ttl > 0 ==> 0.0 < p < ttl as real
  {
    ttl as real * 0.2
  }

  /** A stored value and the time it expires; 0 means never. */
  datatype Entry<V> = Entry(value: V, expiresAt: int)

  predicate Expired<V>(e: Entry<V>, now: int) {
    e.expiresAt != 0 && e.expiresAt < now
  }

  /** The expiry of an entry set at `now` with a TTL of `ttl` seconds (0: unlimited). */
  function ExpiryOf(ttl: nat, now: int): (t: int)
    ensures ttl == 0 ==> t == 0
    ensures ttl > 0 ==> t == now + ttl * 1000
  {
    if ttl == 0 then 0 else now + ttl * 1000
  }

  /** What a lookup of `key` finds: the value of a present entry that has not expired. */
  function Found<V>(entries: map<string, Entry<V>>, key: string, now: int): Option<V> {
    if key in entries && !Expired(entries[key], now) then Some(entries[key].value) else None
  }

  /** The entries a sweep keeps. */
  function Unexpired<V>(entries: map<string, Entry<V>>, now: int): (m: map<string, Entry<V>>)
    ensures forall k :: k in m <==> k in entries && !Expired(entries[k], now)
    ensures forall k :: k in m ==> m[k] == entries[k]
  {
    map k | k in entries && !Expired(entries[k], now) :: entries[k]
  }

  /** `hits / (hits + misses || 1)`. */
  function HitRate(hits: nat, misses: nat): (r: real)
    ensures hits + misses == 0 ==> r == 0.0
    ensures r * (if hits + misses == 0 then 1 else hits + misses) as real == hits as real
    ensures 0.0 <= r <= 1.0
  {
    var total := if hits + misses == 0 then 1 else hits + misses;
    hits as real / total as real
  }

  /** A value set at `now` (a time after the epoch) is found until its TTL has run out, and
      not after. */
  lemma ServedUntilExpiry<V>(entries: map<string, Entry<V>>, key: string, value: V, ttl: nat, now: int, later: int)
    requires 0 <= now <= later
    ensures var e := entries[key := Entry(value, ExpiryOf(ttl, now))];
      Found(e, key, later) == (if ttl == 0 || later <= now + ttl * 1000 then Some(value) else None)
  {
  }

  /** A sweep changes no lookup: it only removes entries a lookup would not find. */
  lemma SweepPreservesLookups<V>(entries: map<string, Entry<V>>, now: int, key: string, later: int)
    requires now <= later
    ensures Found(Unexpired(entries, now), key, later) == Found(entries, key, later)
  {
  }

  /** What `getCacheStats` reports. */
  datatype Stats = Stats(keys: set<string>, hits: nat, misses: nat, hitRate: real)

  /** What the middleware does with a request: answer 200 from the cache, or pass the request
      on with a `cacheData` that stores under `key`. */
  datatype Action<V> = Serve(status: int, body: V) | Proceed(key: string)

  /** The node-cache instance: `stdTtl` seconds per entry. Every value the routes store is a
      report object, so a found value is always truthy. */
  class ResponseCache<V> {
    var entries: map<string, Entry<V>>
    var hits: nat
    var misses: nat
    const stdTtl: nat

    constructor(stdTtl: nat)
      ensures entries == map[] && hits == 0 && misses == 0 && this.stdTtl == stdTtl
    {
      entries := map[];
      hits := 0;
      misses := 0;
      this.stdTtl := stdTtl;
    }

    /** `cache.get(key)`: counts a hit or a miss; an expired entry is deleted. */
    method Get(key: string, now: int) returns (v: Option<V>)
      modifies this
      ensures v == Found(old(entries), key, now)
      ensures v.Some? ==> hits == old(hits) + 1 && misses == old(misses) && entries == old(entries)
      ensures v.None? ==> hits == old(hits) && misses == old(misses) + 1 && entries == old(entries) - {key}
    {
      if key in entries && !Expired(entries[key], now) {
        hits := hits + 1;
        v := Some(entries[key].value);
      } else {
        if key in entries {
          entries := entries - {key};
        }
        misses := misses + 1;
        v := None;
      }
    }

    /** `cache.set(key, value)` with the standard TTL. */
    method Set(key: string, value: V, now: int)
      modifies this
      ensures entries == old(entries)[key := Entry(value, ExpiryOf(stdTtl, now))]
      ensures hits == old(hits) && misses == old(misses)
    {
      entries := entries[key := Entry(value, ExpiryOf(stdTtl, now))];
    }

    /** `cache.del(key)`. */
    method Del(key: string)
      modifies this
      ensures entries == old(entries) - {key}
      ensures hits == old(hits) && misses == old(misses)
    {
      entries := entries - {key};
    }

    /** `cache.flushAll()`: node-cache empties the store and resets its statistics. */
    method FlushAll()
      modifies this
      ensures entries == map[] && hits == 0 && misses == 0
    {
      entries := map[];
      hits := 0;
      misses := 0;
    }

    /** The periodic expiry check: visits every key and deletes the expired entries. */
    method Sweep(now: int)
      modifies this
      ensures entries == Unexpired(old(entries), now)
      ensures hits == old(hits) && misses == old(misses)
    {
      ghost var start := entries;
      var pending := entries.Keys;
      while pending != {}
        invariant pending <= start.Keys
        invariant forall k :: k in entries <==> k in start && (k in pending || !Expired(start[k], now))
        invariant forall k :: k in entries ==> entries[k] == start[k]
        invariant hits == old(hits) && misses == old(misses)
        decreases pending
      {
        var k :| k in pending;
        if Expired(entries[k], now) {
          entries := entries - {k};
        }
        pending := pending - {k};
      }
      assert entries == Unexpired(start, now);
    }

    /** `cacheMiddleware` for a request whose `originalUrl` is `url`. */
    method Middleware(url: string, now: int) returns (a: Action<V>)
      modifies this
      ensures var f := Found(old(entries), url, now);
        a == if f.Some? then Serve(200, f.value) else Proceed(url)
      ensures a.Serve? ==> hits == old(hits) + 1 && misses == old(misses) && entries == old(entries)
      ensures a.Proceed? ==> hits == old(hits) && misses == old(misses) + 1 && entries == old(entries) - {url}
    {
      var key := url;
      var cachedData := Get(key, now);
      if cachedData.Some? {
        return Serve(200, cachedData.value);
      }
      a := Proceed(key);
    }

    /** A route after `Proceed(key)`: the handler's result is stored under `key` only when it
        succeeded; an error goes on to the error handler and is not cached. */
    method Complete<E>(key: string, result: Result<V, E>, now: int)
      modifies this
      ensures result.Success? ==> entries == old(entries)[key := Entry(result.value, ExpiryOf(stdTtl, now))]
      ensures result.Failure? ==> entries == old(entries)
      ensures hits == old(hits) && misses == old(misses)
    {
      if result.Success? {
        Set(key, result.value, now);
      }
    }

    /** `invalidateCache(key)`: a non-empty key deletes that entry only; no key, or the empty
        one, flushes everything. */
    method InvalidateCache(key: Option<string>)
      modifies this
      ensures key.Some? && key.value != "" ==>
        entries == old(entries) - {key.value} && hits == old(hits) && misses == old(misses)
      ensures (key.None? || key.value == "") ==> entries == map[] && hits == 0 && misses == 0
    {
      if key.Some? && key.value != "" {
        Del(key.value);
      } else {
        FlushAll();
      }
    }

    /** `getCacheStats`: the stored keys (expired ones included until removed), the counters
        and the hit rate. */
    method GetCacheStats() returns (s: Stats)
      ensures s.keys == entries.Keys && s.hits == hits && s.misses == misses
      ensures s.hitRate == HitRate(hits, misses)
      ensures hits + misses == 0 ==> s.hitRate == 0.0
    {
      s := Stats(entries.Keys, hits, misses, HitRate(hits, misses));
    }
  }
}
