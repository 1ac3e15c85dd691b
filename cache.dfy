// LLMCache (report_service.py:45-112): a bounded dictionary of analysis
// texts with a time-to-live, keyed by what the analysis was asked about.

module LlmCache {
  import opened Common

  /** What `_generate_key` hashes: the analysis type, the analysis data,
      whether a historical report was given and, for a non-empty one, its
      `report_date`. The MD5 digest of the sorted-key JSON text is taken to
      be injective, so the key is this tuple itself. */
  datatype CacheKey = CacheKey(
    reportType: string,
    data: map<string, Value>,
    hasHistory: bool,
    historyDate: Option<Value>)

  /** A cached text and the time it was stored. */
  datatype Entry = Entry(result: string, stamp: int)

  function GenerateKey(reportType: string, data: map<string, Value>,
                       history: Option<map<string, Value>>): CacheKey
  {
    CacheKey(reportType, data, history.Some?,
             if history.Some? && history.value != map[]
             then Some(GetOr(history.value, "report_date", Str("")))
             else None)
  }

  /** Two historical reports with the same `report_date` give the same key,
      whatever else they hold. */
  lemma KeyIgnoresHistoryContent(reportType: string, data: map<string, Value>,
                                 h1: map<string, Value>, h2: map<string, Value>)
    requires h1 != map[] && h2 != map[]
    requires GetOr(h1, "report_date", Str("")) == GetOr(h2, "report_date", Str(""))
    ensures GenerateKey(reportType, data, Some(h1)) == GenerateKey(reportType, data, Some(h2))
  {
  }

  /** Conversely the key tells apart different types, different data, the
      presence of a history and different history dates. */
  lemma KeyDistinguishes(t1: string, d1: map<string, Value>, h1: Option<map<string, Value>>,
                         t2: string, d2: map<string, Value>, h2: Option<map<string, Value>>)
    requires GenerateKey(t1, d1, h1) == GenerateKey(t2, d2, h2)
    ensures t1 == t2 && d1 == d2 && h1.Some? == h2.Some?
    ensures h1.Some? && h1.value != map[] && h2.Some? && h2.value != map[] ==>
              GetOr(h1.value, "report_date", Str("")) == GetOr(h2.value, "report_date", Str(""))
  {
  }

  /** An entry is served while its age is strictly below the TTL. */
  predicate Live(e: Entry, now: int, ttl: int)
  {
    now - e.stamp < ttl
  }

  /** What `get` answers for key `k` at time `now`. */
  function Lookup(c: map<CacheKey, Entry>, k: CacheKey, now: int, ttl: int): (r: Option<string>)
    ensures r.Some? <==> k in c && Live(c[k], now, ttl)
    ensures r.Some? ==> r.value == c[k].result
  {
    if k in c && Live(c[k], now, ttl) then Some(c[k].result) else None
  }

  /** `k` holds an entry with the least timestamp. */
  ghost predicate IsOldest(c: map<CacheKey, Entry>, k: CacheKey)
  {
    k in c && forall j :: j in c ==> c[k].stamp <= c[j].stamp
  }

  /** The cache after `set` stored `e` under `k`: when full, exactly one
      oldest entry is evicted first. */
  ghost predicate Stored(before: map<CacheKey, Entry>, after: map<CacheKey, Entry>,
                         k: CacheKey, e: Entry, maxSize: int)
  {
    if |before| < maxSize then after == before[k := e]
    else exists o :: IsOldest(before, o) && after == (before - {o})[k := e]
  }

  /** The entries `clear_expired` keeps. */
  function Pruned(c: map<CacheKey, Entry>, now: int, ttl: int): map<CacheKey, Entry>
  {
    map k | k in c && Live(c[k], now, ttl) :: c[k]
  }

  /** The most entries a cache of `maxSize` can hold. */
  function Capacity(maxSize: int): nat
  {
    if maxSize < 0 then 0 else maxSize
  }

  lemma MapUpdateSize(m: map<CacheKey, Entry>, k: CacheKey, e: Entry)
    ensures |m[k := e]| == if k in m then |m| else |m| + 1
  {
    if k in m {
      assert m[k := e].Keys == m.Keys;
    } else {
      assert m[k := e].Keys == m.Keys + {k};
    }
  }

  lemma MapRemoveSize(m: map<CacheKey, Entry>, o: CacheKey)
    requires o in m
    ensures |m - {o}| == |m| - 1
  {
    assert (m - {o}).Keys == m.Keys - {o};
  }

  /** With room for at least one entry, `set` never lets the cache grow past
      `max_size`. */
  lemma StoredWithinCapacity(before: map<CacheKey, Entry>, after: map<CacheKey, Entry>,
                             k: CacheKey, e: Entry, maxSize: int)
    requires maxSize >= 1 && |before| <= maxSize
    requires Stored(before, after, k, e, maxSize)
    ensures |after| <= maxSize
  {
    if |before| < maxSize {
      MapUpdateSize(before, k, e);
    } else {
      var o :| IsOldest(before, o) && after == (before - {o})[k := e];
      MapRemoveSize(before, o);
      MapUpdateSize(before - {o}, k, e);
    }
  }

  /** A full `set` removes one entry of least timestamp and touches no
      other entry. */
  lemma StoredEvictsOneOldest(before: map<CacheKey, Entry>, after: map<CacheKey, Entry>,
                              k: CacheKey, e: Entry, maxSize: int)
    requires |before| >= maxSize && Stored(before, after, k, e, maxSize)
    ensures exists o :: IsOldest(before, o) && after.Keys == before.Keys - {o} + {k}
    ensures forall j :: j in after && j != k ==> j in before && after[j] == before[j]
  {
    var o :| IsOldest(before, o) && after == (before - {o})[k := e];
    assert after.Keys == before.Keys - {o} + {k};
  }

  /** A `get` with the same key, before the TTL runs out, returns exactly the
      text `set` stored. */
  lemma GetAfterSet(before: map<CacheKey, Entry>, after: map<CacheKey, Entry>,
                    reportType: string, data: map<string, Value>,
                    history: Option<map<string, Value>>, result: string,
                    stored: int, now: int, ttl: int, maxSize: int)
    requires Stored(before, after, GenerateKey(reportType, data, history), Entry(result, stored), maxSize)
    requires now - stored < ttl
    ensures Lookup(after, GenerateKey(reportType, data, history), now, ttl) == Some(result)
  {
    var k := GenerateKey(reportType, data, history);
    if |before| >= maxSize {
      var o :| IsOldest(before, o) && after == (before - {o})[k := Entry(result, stored)];
    }
  }

  /** Clearing expired entries never changes what `get` answers at that
      same time. */
  lemma PrunedLookup(c: map<CacheKey, Entry>, k: CacheKey, now: int, ttl: int)
    ensures Lookup(Pruned(c, now, ttl), k, now, ttl) == Lookup(c, k, now, ttl)
  {
  }

  class LLMCache {
    var cache: map<CacheKey, Entry>
    const maxSize: int
    /** `timedelta(hours=ttl_hours)`, in seconds. */
    const ttl: int

    ghost predicate Valid()
      reads this
    {
      |cache| <= Capacity(maxSize)
    }

    constructor (maxSize: int, ttlHours: int)
      ensures Valid() && cache == map[]
      ensures this.maxSize == maxSize && ttl == ttlHours * 3600
    {
      cache := map[];
      this.maxSize := maxSize;
      ttl := ttlHours * 3600;
    }

    /** `get`: a live entry's text; an expired entry is deleted. */
    method Get(reportType: string, data: map<string, Value>,
               history: Option<map<string, Value>>, now: int) returns (r: Option<string>)
      requires Valid()
      modifies this
      ensures Valid()
      ensures r == Lookup(old(cache), GenerateKey(reportType, data, history), now, ttl)
      ensures cache == if r.None? then old(cache) - {GenerateKey(reportType, data, history)}
                       else old(cache)
    {
      var key := GenerateKey(reportType, data, history);
      r := None;
      if key in cache {
        var entry := cache[key];
        if now - entry.stamp < ttl {
          r := Some(entry.result);
        } else {
          cache := cache - {key};
        }
      }
      assert cache.Keys <= old(cache).Keys;
      assert |cache| <= |old(cache)| by {
        assert cache.Keys <= old(cache).Keys;
      }
    }

    /** The key `min(self.cache.keys(), key=timestamp)` picks. */
    method OldestKey() returns (oldest: CacheKey)
      requires cache != map[]
      ensures IsOldest(cache, oldest)
    {
      var rest := cache.Keys;
      oldest :| oldest in rest;
      rest := rest - {oldest};
      while rest != {}
        invariant rest <= cache.Keys && oldest in cache
        invariant forall j :: j in cache && j !in rest ==> cache[oldest].stamp <= cache[j].stamp
        decreases |rest|
      {
        var j :| j in rest;
        if cache[j].stamp < cache[oldest].stamp {
          oldest := j;
        }
        rest := rest - {j};
      }
    }

    /** `set`: evict one oldest entry when full, then store `(result, now)`.
        On an empty cache with `max_size <= 0`, `min` of no keys raises
        `ValueError`; `ok` is false then and nothing changes. */
    method Set(reportType: string, data: map<string, Value>, result: string,
               history: Option<map<string, Value>>, now: int) returns (ok: bool)
      requires Valid()
      modifies this
      ensures Valid()
      ensures ok <==> |old(cache)| < maxSize || old(cache) != map[]
      ensures ok ==> Stored(old(cache), cache, GenerateKey(reportType, data, history),
                            Entry(result, now), maxSize)
      ensures !ok ==> cache == old(cache)
    {
      var key := GenerateKey(reportType, data, history);
      if |cache| >= maxSize {
        if cache == map[] {
          return false;
        }
        var oldest := OldestKey();
        MapRemoveSize(cache, oldest);
        cache := cache - {oldest};
        assert Stored(old(cache), cache[key := Entry(result, now)], key, Entry(result, now), maxSize);
      }
      StoredWithinCapacityStep(old(cache), cache, key, Entry(result, now), maxSize);
      cache := cache[key := Entry(result, now)];
      ok := true;
    }

    /** `clear_expired`: delete every entry whose age is at least the TTL. */
    method ClearExpired(now: int)
      requires Valid()
      modifies this
      ensures Valid()
      ensures cache == Pruned(old(cache), now, ttl)
    {
      var expired := set k | k in cache && now - cache[k].stamp >= ttl;
      var pending := expired;
      while pending != {}
        invariant pending <= expired
        invariant cache == map k | k in old(cache) && (k !in expired || k in pending) :: old(cache)[k]
        decreases |pending|
      {
        var k :| k in pending;
        cache := cache - {k};
        pending := pending - {k};
      }
      assert cache.Keys == Pruned(old(cache), now, ttl).Keys;
      SubsetSize(cache.Keys, old(cache).Keys);
    }
  }

  /** The size step of `set`: after an eviction (or with room to spare) the
      insertion stays within capacity. */
  lemma StoredWithinCapacityStep(before: map<CacheKey, Entry>, mid: map<CacheKey, Entry>,
                                 k: CacheKey, e: Entry, maxSize: int)
    requires |before| <= Capacity(maxSize)
    requires |before| < maxSize ==> mid == before
    requires |before| >= maxSize ==> before != map[] && |mid| == |before| - 1
    ensures |mid[k := e]| <= Capacity(maxSize)
  {
    MapUpdateSize(mid, k, e);
  }
}
