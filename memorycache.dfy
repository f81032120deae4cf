/**
 * The in-process TTL cache (src/lib/services/cache.js): a `Map` from keys
 * to entries, owned by the `DigestCache` singleton. Every `Date.now()` of
 * one call is the single clock reading `now`.
 */
module MemoryCache {
  import opened Wrappers
  import opened Text
  import opened Digests

  /** `this.defaultTTL`: 45 minutes. */
  const DefaultTtl: int := 45 * 60 * 1000

  /** The width of the key's time bucket: 30 minutes. */
  const KeyWindow: int := 30 * 60 * 1000

  /** `generateKey`: the destructuring defaults 12 and 24 apply only to a missing field. */
  function GenerateKey(params: Config, now: int): string {
    CacheKey(params.storyLimit.GetOr(12), params.hoursBack.GetOr(24), now / KeyWindow)
  }

  /**
   * Two requests share a key exactly when they agree on the defaulted story
   * limit and hours back and fall in the same 30-minute bucket.
   */
  lemma GenerateKeyIff(p: Config, q: Config, t: int, u: int)
    ensures GenerateKey(p, t) == GenerateKey(q, u) <==>
      && p.storyLimit.GetOr(12) == q.storyLimit.GetOr(12)
      && p.hoursBack.GetOr(24) == q.hoursBack.GetOr(24)
      && t / KeyWindow == u / KeyWindow
  {
    CacheKeyInjective(p.storyLimit.GetOr(12), p.hoursBack.GetOr(24), t / KeyWindow,
                      q.storyLimit.GetOr(12), q.hoursBack.GetOr(24), u / KeyWindow);
  }

  /** `ttl || this.defaultTTL`: a missing or zero ttl gives the default. */
  function EffectiveTtl(ttl: Option<int>): int {
    if ttl.Some? && ttl.value != 0 then ttl.value else DefaultTtl
  }

  datatype Entry = Entry(digest: Digest, timestamp: int, ttl: int, params: Config)

  predicate Expired(e: Entry, now: int) {
    now - e.timestamp > e.ttl
  }

  /** The digest `set` stores: the caller's digest with a `cache_info` saying it was not cached. */
  function Stamped(digest: Digest): Digest {
    digest.(cacheInfo := Some(CacheInfo(false, digest.generatedAt, None, None)))
  }

  /** The digest `get` returns for a fresh entry: its stored digest plus the serving metadata. */
  function Served(e: Entry, now: int): Digest {
    e.digest.(servedAt := Some(now),
              cacheInfo := Some(CacheInfo(true, e.digest.generatedAt, Some(now), Some(RoundMinutes(now - e.timestamp)))))
  }

  /** What `get(params)` returns on map `m`. */
  function Lookup(m: map<string, Entry>, params: Config, now: int): Option<Digest> {
    var key := GenerateKey(params, now);
    if key !in m || Expired(m[key], now) then None else Some(Served(m[key], now))
  }

  /** The map after `get(params)`: an expired entry under the key is deleted. */
  function AfterLookup(m: map<string, Entry>, params: Config, now: int): map<string, Entry> {
    var key := GenerateKey(params, now);
    if key in m && Expired(m[key], now) then m - {key} else m
  }

  /** `cleanup`: the entries that are not expired. */
  function Sweep(m: map<string, Entry>, now: int): map<string, Entry> {
    map k | k in m && !Expired(m[k], now) :: m[k]
  }

  /** The map after `set(params, digest, ttl)`: the new entry is inserted, then the sweep runs. */
  function Store(m: map<string, Entry>, params: Config, digest: Digest, ttl: Option<int>, now: int): map<string, Entry> {
    Sweep(m[GenerateKey(params, now) := Entry(Stamped(digest), now, EffectiveTtl(ttl), params)], now)
  }

  /** A miss leaves the map as it was. */
  lemma LookupMiss(m: map<string, Entry>, params: Config, now: int)
    requires GenerateKey(params, now) !in m
    ensures Lookup(m, params, now) == None && AfterLookup(m, params, now) == m
  {
  }

  /** An expired entry is reported as a miss and deleted, and no other entry changes. */
  lemma LookupExpired(m: map<string, Entry>, params: Config, now: int)
    requires GenerateKey(params, now) in m && Expired(m[GenerateKey(params, now)], now)
    ensures Lookup(m, params, now) == None
    ensures GenerateKey(params, now) !in AfterLookup(m, params, now)
    ensures forall k :: k in m && k != GenerateKey(params, now) ==>
      k in AfterLookup(m, params, now) && AfterLookup(m, params, now)[k] == m[k]
  {
  }

  /** A fresh entry is served with `cached = true` and its original generation time, and the map is not touched. */
  lemma LookupHit(m: map<string, Entry>, params: Config, now: int)
    requires GenerateKey(params, now) in m && !Expired(m[GenerateKey(params, now)], now)
    ensures var e := m[GenerateKey(params, now)];
      && Lookup(m, params, now).Some?
      && Lookup(m, params, now).value.cacheInfo.value.cached
      && Lookup(m, params, now).value.cacheInfo.value.generatedAt == e.digest.generatedAt
      && Lookup(m, params, now).value.servedAt == Some(now)
      && Lookup(m, params, now).value.summaries == e.digest.summaries
    ensures AfterLookup(m, params, now) == m
  {
  }

  /** The sweep keeps exactly the unexpired entries, unchanged. */
  lemma SweepExact(m: map<string, Entry>, now: int)
    ensures forall k :: k in Sweep(m, now) <==> k in m && !Expired(m[k], now)
    ensures forall k :: k in Sweep(m, now) ==> Sweep(m, now)[k] == m[k]
  {
  }

  lemma SweepIdempotent(m: map<string, Entry>, now: int)
    ensures Sweep(Sweep(m, now), now) == Sweep(m, now)
  {
  }

  /**
   * Round trip: `set(p, d, ttl)` then `get(p)` at the same instant returns
   * `d` with the cache metadata of a zero-minute-old hit, unless the ttl is
   * negative, in which case the sweep inside `set` has already removed it.
   */
  lemma SetThenGet(m: map<string, Entry>, params: Config, digest: Digest, ttl: Option<int>, now: int)
    ensures EffectiveTtl(ttl) >= 0 ==>
      Lookup(Store(m, params, digest, ttl, now), params, now)
        == Some(digest.(servedAt := Some(now), cacheInfo := Some(CacheInfo(true, digest.generatedAt, Some(now), Some(0)))))
    ensures EffectiveTtl(ttl) < 0 ==> Lookup(Store(m, params, digest, ttl, now), params, now) == None
  {
    var key := GenerateKey(params, now);
    var e := Entry(Stamped(digest), now, EffectiveTtl(ttl), params);
    var s := Store(m, params, digest, ttl, now);
    if EffectiveTtl(ttl) >= 0 {
      assert key in s && s[key] == e;
      assert RoundMinutes(0) == 0;
    } else {
      assert key !in s;
    }
  }

  /**
   * Under the default ttl, an entry found under its own key is never stale:
   * the key changes every 30 minutes, before the 45-minute ttl runs out.
   */
  lemma SameBucketNeverExpired(t: int, now: int, e: Entry)
    requires e.timestamp == t && e.ttl == DefaultTtl
    requires t <= now && t / KeyWindow == now / KeyWindow
    ensures !Expired(e, now)
  {
    assert now - t < KeyWindow by {
      var w := t / KeyWindow;
      assert w * KeyWindow <= t && now < (w + 1) * KeyWindow;
    }
  }

  /** A request in the next bucket misses even though the entry is still within its ttl. */
  lemma NextBucketMisses()
    ensures GenerateKey(Config(None, None, None), KeyWindow - 1) != GenerateKey(Config(None, None, None), KeyWindow)
    ensures !Expired(Entry(Stamped(EmptyDigest()), KeyWindow - 1, DefaultTtl, Config(None, None, None)), KeyWindow)
  {
    GenerateKeyIff(Config(None, None, None), Config(None, None, None), KeyWindow - 1, KeyWindow);
  }

  /** A placeholder digest for the concrete lemmas. */
  function EmptyDigest(): Digest {
    Digest("", 0, "", Ai.Overview("", 0, "", 0, None), [], map[], Stats(0, 0, 0, 0),
           Config(None, None, None), None, None)
  }

  function FreshKeys(m: map<string, Entry>, now: int): set<string> {
    set k | k in m && !Expired(m[k], now)
  }

  function ExpiredKeys(m: map<string, Entry>, now: int): set<string> {
    set k | k in m && Expired(m[k], now)
  }

  /** Fresh (age at most ttl) and expired (age above ttl) entries together are all entries. */
  lemma StatsPartition(m: map<string, Entry>, now: int)
    ensures |FreshKeys(m, now)| + |ExpiredKeys(m, now)| == |m|
  {
    var f, x := FreshKeys(m, now), ExpiredKeys(m, now);
    assert f + x == m.Keys;
    assert f * x == {};
  }

  /** `k` holds an entry with the smallest timestamp in `m`. */
  predicate Earliest(m: map<string, Entry>, k: string) {
    k in m && forall j :: j in m ==> m[k].timestamp <= m[j].timestamp
  }

  datatype CacheStats = CacheStats(totalEntries: nat, freshEntries: nat, expiredEntries: nat, oldestEntryAgeMinutes: int)

  /** The `DigestCache` singleton. */
  class DigestCache {
    var cache: map<string, Entry>

    constructor ()
      ensures cache == map[]
    {
      cache := map[];
    }

    /** `get(params)`: a miss leaves the map alone, an expired hit deletes its key, a fresh hit is served. */
    method Get(params: Config, now: int) returns (r: Option<Digest>)
      modifies this
      ensures r == Lookup(old(cache), params, now)
      ensures cache == AfterLookup(old(cache), params, now)
    {
      var key := GenerateKey(params, now);
      if key !in cache {
        return None;
      }
      var cached := cache[key];
      if now - cached.timestamp > cached.ttl {
        cache := cache - {key};
        return None;
      }
      return Some(Served(cached, now));
    }

    /** `set(params, digest, ttl)`: insert under the key, overwriting, then `cleanup`. */
    method Set(params: Config, digest: Digest, ttl: Option<int>, now: int)
      modifies this
      ensures cache == Store(old(cache), params, digest, ttl, now)
    {
      var key := GenerateKey(params, now);
      cache := cache[key := Entry(Stamped(digest), now, EffectiveTtl(ttl), params)];
      Cleanup(now);
    }

    /** `cleanup`: a sweep over the entries deleting every expired one. */
    method Cleanup(now: int)
      modifies this
      ensures cache == Sweep(old(cache), now)
    {
      var pending := cache.Keys;
      ghost var start := cache;
      while pending != {}
        invariant pending <= start.Keys
        invariant forall k :: k in cache <==> k in start && (k in pending || !Expired(start[k], now))
        invariant forall k :: k in cache ==> cache[k] == start[k]
        decreases pending
      {
        var key :| key in pending;
        if now - cache[key].timestamp > cache[key].ttl {
          cache := cache - {key};
        }
        pending := pending - {key};
      }
    }

    /** `clear`: every entry goes. */
    method Clear()
      modifies this
      ensures cache == map[]
    {
      cache := map[];
    }

    /**
     * `getStats`: the number of entries, of fresh and of expired ones, and
     * the age in minutes of the entry with the earliest timestamp (0 when
     * there is none).
     */
    method GetStats(now: int) returns (s: CacheStats)
      ensures s.totalEntries == |cache|
      ensures s.freshEntries == |FreshKeys(cache, now)| && s.expiredEntries == |ExpiredKeys(cache, now)|
      ensures s.freshEntries + s.expiredEntries == s.totalEntries
      ensures cache == map[] ==> s.oldestEntryAgeMinutes == 0
      ensures cache != map[] ==>
        exists k :: Earliest(cache, k) && s.oldestEntryAgeMinutes == RoundMinutes(now - cache[k].timestamp)
    {
      StatsPartition(cache, now);
      if cache == map[] {
        return CacheStats(0, 0, 0, 0);
      }
      var pending := cache.Keys;
      var first :| first in pending;
      var oldest := first;
      pending := pending - {first};
      while pending != {}
        invariant pending <= cache.Keys
        invariant oldest in cache
        invariant forall j :: j in cache && j !in pending ==> cache[oldest].timestamp <= cache[j].timestamp
        decreases pending
      {
        var key :| key in pending;
        if cache[key].timestamp < cache[oldest].timestamp {
          oldest := key;
        }
        pending := pending - {key};
      }
      s := CacheStats(|cache|, |FreshKeys(cache, now)|, |ExpiredKeys(cache, now)|,
                      RoundMinutes(now - cache[oldest].timestamp));
    }
  }
}
