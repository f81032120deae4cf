/**
 * The PocketBase-backed cache (src/lib/services/pb-cache.js). The
 * `digests_cache` collection is the record sequence `records` that the
 * `PocketBaseCache` object owns; PocketBase's record ids are modelled as
 * fresh numbers drawn from `nextId`. Every way a PocketBase request can fail
 * is an input flag, and one clock reading `now` serves a whole call.
 */
module PersistedCache {
  import opened Wrappers
  import opened Seqs
  import opened Digests
  import MemoryCache

  /** `this.defaultTTL`: 45 minutes, which is also the width of the key's time bucket. */
  const Ttl: int := 45 * 60 * 1000

  /** `value || fallback` on a number: a missing value and zero both give the fallback. */
  function OrDefault(v: Option<int>, fallback: int): (r: int)
    ensures v.Some? && v.value != 0 ==> r == v.value
    ensures v.None? || v.value == 0 ==> r == fallback
  {
    if v.Some? && v.value != 0 then v.value else fallback
  }

  /** `generateKey(params)`: `params?.storyLimit || 12`, `params?.hoursBack || 24` and a bucket of one ttl. */
  function GenerateKey(params: Config, now: int): string {
    CacheKey(OrDefault(params.storyLimit, 12), OrDefault(params.hoursBack, 24), now / Ttl)
  }

  /** Two requests share a key exactly when their `||`-defaulted numbers and their 45-minute buckets agree. */
  lemma GenerateKeyIff(p: Config, q: Config, t: int, u: int)
    ensures GenerateKey(p, t) == GenerateKey(q, u) <==>
      && OrDefault(p.storyLimit, 12) == OrDefault(q.storyLimit, 12)
      && OrDefault(p.hoursBack, 24) == OrDefault(q.hoursBack, 24)
      && t / Ttl == u / Ttl
  {
    CacheKeyInjective(OrDefault(p.storyLimit, 12), OrDefault(p.hoursBack, 24), t / Ttl,
                      OrDefault(q.storyLimit, 12), OrDefault(q.hoursBack, 24), u / Ttl);
  }

  /**
   * Zero counts as missing here but not in the in-memory cache, whose
   * destructuring defaults apply only to an absent field.
   */
  lemma ZeroIsDefaultOnlyHere(now: int)
    ensures GenerateKey(Config(Some(0), Some(0), None), now) == GenerateKey(Config(None, None, None), now)
    ensures MemoryCache.GenerateKey(Config(Some(0), None, None), now)
         != MemoryCache.GenerateKey(Config(None, None, None), now)
  {
    MemoryCache.GenerateKeyIff(Config(Some(0), None, None), Config(None, None, None), now, now);
  }

  /**
   * The `digest` field of a record: either a string, which `JSON.parse`
   * turns into a digest or rejects (`None`), or an object PocketBase has
   * already parsed.
   */
  datatype StoredDigest = JsonText(parsed: Option<Digest>) | JsonObject(digest: Digest)

  function DigestOf(s: StoredDigest): Option<Digest> {
    match s
    case JsonText(parsed) => parsed
    case JsonObject(digest) => Some(digest)
  }

  /** A record of the collection; `created` is its creation time in milliseconds. */
  datatype Record = Record(id: nat, key: string, created: int, digest: StoredDigest, params: Config)

  /**
   * `getFirstListItem('key = "…"', { sort: '-created' })`: the record with the
   * key and the latest creation time; of several equally new ones, the one
   * written last.
   */
  function Newest(records: seq<Record>, key: string): (r: Option<Record>)
    ensures r.Some? ==> r.value in records && r.value.key == key
    ensures r.None? <==> forall x :: x in records ==> x.key != key
    ensures r.Some? ==> forall x :: x in records && x.key == key ==> x.created <= r.value.created
    decreases |records|
  {
    if records == [] then None
    else
      var prev := Newest(records[..|records| - 1], key);
      var last := records[|records| - 1];
      assert records == records[..|records| - 1] + [last];
      if last.key != key then prev
      else if prev.Some? && prev.value.created > last.created then prev
      else Some(last)
  }

  predicate Expired(rec: Record, now: int) {
    now - rec.created > Ttl
  }

  /** The `cache_info` of a hit: its generation time is the record's creation time. */
  function HitInfo(rec: Record, now: int): CacheInfo {
    CacheInfo(true, rec.created, Some(now), Some(RoundMinutes(now - rec.created)))
  }

  /**
   * What `get(params)` returns: `None` (the source's `null`) when a request
   * fails, when no record has the key, when the newest one is expired or
   * when its text is not JSON; otherwise its digest with the `cache_info`.
   */
  function Lookup(records: seq<Record>, params: Config, now: int, lookupFails: bool): (r: Option<Digest>)
    ensures lookupFails ==> r.None?
    ensures (forall x :: x in records ==> x.key != GenerateKey(params, now)) ==> r.None?
    ensures r.Some? ==> Newest(records, GenerateKey(params, now)).Some?
    ensures r.Some? ==>
      var rec := Newest(records, GenerateKey(params, now)).value;
      && !lookupFails && !Expired(rec, now) && DigestOf(rec.digest).Some?
      && r.value == DigestOf(rec.digest).value.(cacheInfo := Some(HitInfo(rec, now)))
    ensures !lookupFails && Newest(records, GenerateKey(params, now)).Some? ==>
      var rec := Newest(records, GenerateKey(params, now)).value;
      !Expired(rec, now) && DigestOf(rec.digest).Some? ==> r.Some?
  {
    var newest := Newest(records, GenerateKey(params, now));
    if lookupFails || newest.None? || Expired(newest.value, now) then None
    else match DigestOf(newest.value.digest)
      case None => None
      case Some(d) => Some(d.(cacheInfo := Some(HitInfo(newest.value, now))))
  }

  /** A record with the key that is strictly newer than every other one with the key is the one consulted. */
  lemma NewestIsLatest(records: seq<Record>, key: string, rec: Record)
    requires rec in records && rec.key == key
    requires forall x :: x in records && x.key == key && x != rec ==> x.created < rec.created
    ensures Newest(records, key) == Some(rec)
  {
  }

  /** The record `set` creates: the API key is removed from the stored parameters and from the digest's config. */
  function NewRecord(id: nat, params: Config, digest: Digest, now: int): (r: Record)
    ensures r.id == id && r.key == GenerateKey(params, now) && r.created == now
    ensures r.params.openaiApiKey.None? && r.params.storyLimit == params.storyLimit && r.params.hoursBack == params.hoursBack
    ensures DigestOf(r.digest).Some? && DigestOf(r.digest).value.config.openaiApiKey.None?
    ensures DigestOf(r.digest).value.(config := digest.config) == digest
  {
    Record(id, GenerateKey(params, now), now, JsonText(Some(digest.(config := WithoutKey(digest.config)))), WithoutKey(params))
  }

  /**
   * The cleanup filter: a record goes when it has the key, was created
   * before the cutoff and is not the record just written, unless deleting
   * it failed.
   */
  function Survives(key: string, cutoff: int, keep: nat, failedDeletes: set<nat>): Record -> bool {
    (r: Record) => !(r.key == key && r.created < cutoff && r.id != keep) || r.id in failedDeletes
  }

  function Prune(records: seq<Record>, key: string, cutoff: int, keep: nat, failedDeletes: set<nat>): seq<Record> {
    Filter(records, Survives(key, cutoff, keep, failedDeletes))
  }

  /** Cleanup removes exactly the stale records with the key, except the kept id and failed deletions. */
  lemma PruneExact(records: seq<Record>, key: string, cutoff: int, keep: nat, failedDeletes: set<nat>)
    ensures forall x :: x in Prune(records, key, cutoff, keep, failedDeletes) <==>
      x in records && (x.key != key || x.created >= cutoff || x.id == keep || x.id in failedDeletes)
  {
  }

  /** The failures `set` can meet after computing the key. */
  datatype StoreFaults = StoreFaults(
    createFails: bool,
    readBackFails: bool,
    cleanupListFails: bool,
    failedDeletes: set<nat>)

  /**
   * The collection after `set` created `rec`: the cleanup runs unless the
   * read-back after the create or the listing of old entries failed. The
   * cleanup's cutoff is one ttl before `cleanupAt`, the clock reading taken
   * after those two requests.
   */
  function Written(records: seq<Record>, rec: Record, cleanupAt: int, faults: StoreFaults): seq<Record> {
    if faults.readBackFails || faults.cleanupListFails then records + [rec]
    else Prune(records + [rec], rec.key, cleanupAt - Ttl, rec.id, faults.failedDeletes)
  }

  /** The records of the collection other than `rec` that are left after `set`. */
  function Kept(records: seq<Record>, rec: Record, cleanupAt: int, faults: StoreFaults): seq<Record> {
    if faults.readBackFails || faults.cleanupListFails then records
    else Prune(records, rec.key, cleanupAt - Ttl, rec.id, faults.failedDeletes)
  }

  /** The cleanup never deletes the record just written: the collection ends with it. */
  lemma WrittenEndsWithNew(records: seq<Record>, rec: Record, cleanupAt: int, faults: StoreFaults)
    ensures Written(records, rec, cleanupAt, faults) == Kept(records, rec, cleanupAt, faults) + [rec]
    ensures forall x :: x in Kept(records, rec, cleanupAt, faults) ==> x in records
  {
    if !(faults.readBackFails || faults.cleanupListFails) {
      var p := Survives(rec.key, cleanupAt - Ttl, rec.id, faults.failedDeletes);
      FilterAppend(records, [rec], p);
      FilterSingle(rec, p);
    }
  }

  /**
   * Round trip: when no request fails on the way back and no record with
   * the key claims a later creation time, `get` at the instant of a
   * successful `set` returns the digest as stored, key removed, with a
   * zero-minute-old `cache_info` generated at that instant, whatever the
   * cleanup's clock reading.
   */
  lemma SetThenGet(records: seq<Record>, id: nat, params: Config, digest: Digest, now: int, cleanupAt: int,
                   faults: StoreFaults)
    requires forall x :: x in records && x.key == GenerateKey(params, now) ==> x.created <= now
    ensures Lookup(Written(records, NewRecord(id, params, digest, now), cleanupAt, faults), params, now, false)
         == Some(digest.(config := WithoutKey(digest.config), cacheInfo := Some(CacheInfo(true, now, Some(now), Some(0)))))
  {
    var rec := NewRecord(id, params, digest, now);
    var w := Written(records, rec, cleanupAt, faults);
    assert Newest(w, rec.key) == Some(rec) by {
      WrittenEndsWithNew(records, rec, cleanupAt, faults);
      NewestOfSnoc(Kept(records, rec, cleanupAt, faults), rec);
    }
    LookupFreshRecord(w, params, now, rec, digest.(config := WithoutKey(digest.config)));
  }

  /** A record created at the instant of the lookup and consulted by it is served, zero minutes old. */
  lemma LookupFreshRecord(records: seq<Record>, params: Config, now: int, rec: Record, d: Digest)
    requires Newest(records, GenerateKey(params, now)) == Some(rec)
    requires rec.created == now && DigestOf(rec.digest) == Some(d)
    ensures Lookup(records, params, now, false) == Some(d.(cacheInfo := Some(CacheInfo(true, now, Some(now), Some(0)))))
  {
    assert RoundMinutes(0) == 0;
  }

  /** A record appended after every other record with its key that is at least as new is the newest. */
  lemma NewestOfSnoc(prefix: seq<Record>, rec: Record)
    requires forall x :: x in prefix && x.key == rec.key ==> x.created <= rec.created
    ensures Newest(prefix + [rec], rec.key) == Some(rec)
  {
    assert (prefix + [rec])[..|prefix|] == prefix;
  }

  /**
   * Under the 45-minute bucket, a record found under its own key was
   * created less than one ttl ago, so `get` serves it and `getStats` counts
   * it fresh.
   */
  lemma SameBucketIsFresh(created: int, now: int)
    requires created <= now && created / Ttl == now / Ttl
    ensures now - created < Ttl
  {
    var w := created / Ttl;
    assert w * Ttl <= created && now < (w + 1) * Ttl;
  }

  /** `getStats` counts a record as fresh when its age is strictly below the ttl. */
  function IsFreshAt(now: int): Record -> bool {
    (r: Record) => now - r.created < Ttl
  }

  function IsStaleAt(now: int): Record -> bool {
    (r: Record) => !(now - r.created < Ttl)
  }

  /** `Math.floor(age / 60000)`. */
  function AgeMinutes(r: Record, now: int): int {
    (now - r.created) / 60000
  }

  /** The `reduce` of `oldest_entry_age_minutes`: `Math.max` over the ages in minutes, starting from 0. */
  function OldestMinutes(records: seq<Record>, now: int): (m: int)
    ensures m >= 0
    decreases |records|
  {
    if records == [] then 0
    else
      var prev := OldestMinutes(records[..|records| - 1], now);
      var age := AgeMinutes(records[|records| - 1], now);
      if prev >= age then prev else age
  }

  /** The oldest age bounds every record's age, and is 0 or the age of some record. */
  lemma {:induction false} OldestMinutesIsMax(records: seq<Record>, now: int)
    ensures forall x :: x in records ==> AgeMinutes(x, now) <= OldestMinutes(records, now)
    ensures OldestMinutes(records, now) == 0 || exists x :: x in records && AgeMinutes(x, now) == OldestMinutes(records, now)
    decreases |records|
  {
    if records != [] {
      var prefix := records[..|records| - 1];
      OldestMinutesIsMax(prefix, now);
      assert records == prefix + [records[|records| - 1]];
    }
  }

  /** Fresh and expired records together are all the records, in `getStats`. */
  lemma StatsPartition(records: seq<Record>, now: int)
    ensures |Filter(records, IsFreshAt(now))| + |Filter(records, IsStaleAt(now))| == |records|
  {
    FilterSplit(records, IsFreshAt(now), IsStaleAt(now));
  }

  /** One more record adds one to the fresh or to the expired count and may raise the oldest age. */
  lemma StatsSnoc(s: seq<Record>, x: Record, now: int)
    ensures |Filter(s + [x], IsFreshAt(now))| == |Filter(s, IsFreshAt(now))| + (if now - x.created < Ttl then 1 else 0)
    ensures |Filter(s + [x], IsStaleAt(now))| == |Filter(s, IsStaleAt(now))| + (if now - x.created < Ttl then 0 else 1)
    ensures OldestMinutes(s + [x], now) ==
      if OldestMinutes(s, now) >= AgeMinutes(x, now) then OldestMinutes(s, now) else AgeMinutes(x, now)
  {
    FilterAppend(s, [x], IsFreshAt(now));
    FilterAppend(s, [x], IsStaleAt(now));
    FilterSingle(x, IsFreshAt(now));
    FilterSingle(x, IsStaleAt(now));
    assert (s + [x])[..|s|] == s;
  }

  /**
   * At an age of exactly one ttl the two caches disagree: the in-memory
   * statistics count the entry fresh, while the persisted statistics count
   * it expired although the persisted `get` still serves it, when it is
   * the newest record under the key and its digest is readable.
   */
  lemma TtlBoundaryDiffers(e: MemoryCache.Entry, records: seq<Record>, params: Config, rec: Record, now: int)
    requires e.ttl == MemoryCache.DefaultTtl && now - e.timestamp == MemoryCache.DefaultTtl
    requires now - rec.created == Ttl
    requires Newest(records, GenerateKey(params, now)) == Some(rec) && DigestOf(rec.digest).Some?
    ensures !MemoryCache.Expired(e, now)
    ensures !IsFreshAt(now)(rec) && IsStaleAt(now)(rec)
    ensures Lookup(records, params, now, false) == Some(DigestOf(rec.digest).value.(cacheInfo := Some(HitInfo(rec, now))))
  {
  }

  datatype PbStats = PbStats(totalEntries: nat, freshEntries: nat, expiredEntries: nat, oldestEntryAgeMinutes: int)

  function IdIn(ids: set<nat>): Record -> bool {
    (r: Record) => r.id in ids
  }

  /** The `pbCache` singleton. */
  class PocketBaseCache {
    var records: seq<Record>
    var nextId: nat

    /** Every record's id was handed out before: the next id is fresh. */
    ghost predicate Valid()
      reads this
    {
      forall r :: r in records ==> r.id < nextId
    }

    constructor ()
      ensures records == [] && nextId == 0 && Valid()
    {
      records := [];
      nextId := 0;
    }

    /** `get(params)`: every failure yields `None`; it never throws. */
    method Get(params: Config, now: int, lookupFails: bool) returns (r: Option<Digest>)
      ensures r == Lookup(records, params, now, lookupFails)
    {
      var key := GenerateKey(params, now);
      var newest := Newest(records, key);
      if lookupFails || newest.None? {
        return None;
      }
      var rec := newest.value;
      var age := now - rec.created;
      if age > Ttl {
        return None;
      }
      match DigestOf(rec.digest)
      case None =>
        return None;
      case Some(d) =>
        return Some(d.(cacheInfo := Some(CacheInfo(true, rec.created, Some(now), Some(RoundMinutes(age))))));
    }

    /**
     * `set(params, digest)`: create the record, then clean up old ones for
     * the key; it never throws. The copy of the digest is shallow, so the
     * caller's digest loses its config's API key as well: `callerDigest` is
     * the caller's object as it is afterwards. `now` is the reading behind
     * the key and the record's creation; `cleanupAt` is the later reading
     * behind the cleanup's cutoff.
     */
    method Set(params: Config, digest: Digest, now: int, cleanupAt: int, faults: StoreFaults)
      returns (callerDigest: Digest)
      requires Valid()
      modifies this
      ensures Valid()
      ensures callerDigest == digest.(config := WithoutKey(digest.config))
      ensures forall x :: x in old(records) ==> x.id != old(nextId)
      ensures faults.createFails ==> records == old(records) && nextId == old(nextId)
      ensures !faults.createFails ==>
        nextId == old(nextId) + 1 && records == Written(old(records), NewRecord(old(nextId), params, digest, now), cleanupAt, faults)
    {
      var key := GenerateKey(params, now);
      callerDigest := digest.(config := WithoutKey(digest.config));
      var safeParams := WithoutKey(params);
      if faults.createFails {
        return;
      }
      var rec := Record(nextId, key, now, JsonText(Some(callerDigest)), safeParams);
      WrittenEndsWithNew(records, rec, cleanupAt, faults);
      records := records + [rec];
      nextId := nextId + 1;
      if faults.readBackFails || faults.cleanupListFails {
        return;
      }
      records := Filter(records, Survives(key, cleanupAt - Ttl, rec.id, faults.failedDeletes));
    }

    /** `clear()`: delete every record; it throws when the listing or any deletion fails. */
    method Clear(listFails: bool, failedDeletes: set<nat>) returns (ok: bool)
      requires Valid()
      modifies this
      ensures Valid() && nextId == old(nextId)
      ensures listFails ==> !ok && records == old(records)
      ensures !listFails ==> records == Filter(old(records), IdIn(failedDeletes))
      ensures ok <==> !listFails && records == []
    {
      if listFails {
        return false;
      }
      records := Filter(records, IdIn(failedDeletes));
      ok := records == [];
    }

    /**
     * `getStats()`: the `reduce` over the records; it throws when the
     * listing fails.
     */
    method GetStats(now: int, listFails: bool) returns (r: Option<PbStats>)
      ensures r.None? <==> listFails
      ensures r.Some? ==> r.value == PbStats(|records|, |Filter(records, IsFreshAt(now))|,
                                             |Filter(records, IsStaleAt(now))|, OldestMinutes(records, now))
      ensures r.Some? ==> r.value.freshEntries + r.value.expiredEntries == r.value.totalEntries
    {
      if listFails {
        return None;
      }
      var entries := records;
      var freshCount: nat, expiredCount: nat, oldest := 0, 0, 0;
      for i := 0 to |entries|
        invariant freshCount == |Filter(entries[..i], IsFreshAt(now))|
        invariant expiredCount == |Filter(entries[..i], IsStaleAt(now))|
        invariant oldest == OldestMinutes(entries[..i], now)
      {
        var entry := entries[i];
        assert entries[..i + 1] == entries[..i] + [entry];
        StatsSnoc(entries[..i], entry, now);
        var age := now - entry.created;
        if age < Ttl {
          freshCount := freshCount + 1;
        } else {
          expiredCount := expiredCount + 1;
        }
        if AgeMinutes(entry, now) > oldest {
          oldest := AgeMinutes(entry, now);
        }
      }
      assert entries[..|entries|] == entries;
      StatsPartition(entries, now);
      return Some(PbStats(|records|, freshCount, expiredCount, oldest));
    }
  }
}
