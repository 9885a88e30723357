/**
 * The `api_cache` table (a key -> entry store with per-entry expiry) and the
 * `request_log` ledger. Time is an integer number of seconds passed in as `now`;
 * TTLs are given in hours.
 */
module Cache {
  import opened Optional
  import opened Json

  const SecondsPerHour: int := 3600

  /** One row of `api_cache`; its `cache_key` is the key it is stored under. */
  datatype Entry = Entry(cacheType: string, responseData: Json, createdAt: int, expiresAt: int)

  type Table = map<string, Entry>

  /** A read at `now` serves the entry only while `expires_at > now`. */
  predicate Live(e: Entry, now: int) {
    e.expiresAt > now
  }

  function ExpiryAt(now: int, ttlHours: int): int {
    now + ttlHours * SecondsPerHour
  }

  /** What `get_cached` returns. */
  function Lookup(t: Table, key: string, now: int): Option<Json> {
    if key in t && Live(t[key], now) then Some(t[key].responseData) else None
  }

  /** The table after `get_cached`: an expired row for `key` is deleted on the read. */
  function AfterGet(t: Table, key: string, now: int): Table {
    if key in t && !Live(t[key], now) then t - {key} else t
  }

  /**
   * The table after `set_cache`: an existing row gets the new data, creation and
   * expiry times but keeps its `cache_type`; a missing row is inserted.
   */
  function Upsert(t: Table, key: string, cacheType: string, data: Json, now: int, ttlHours: int): Table {
    var kind := if key in t then t[key].cacheType else cacheType;
    t[key := Entry(kind, data, now, ExpiryAt(now, ttlHours))]
  }

  /** The rows `clear_expired` selects: `expires_at < now`, strictly. */
  function ExpiredKeys(t: Table, now: int): set<string> {
    set k | k in t && t[k].expiresAt < now
  }

  /** The table after `clear_expired`. */
  function Sweep(t: Table, now: int): Table {
    t - ExpiredKeys(t, now)
  }

  class APICache {
    var entries: Table

    constructor ()
      ensures entries == map[]
    {
      entries := map[];
    }

    method GetCached(key: string, now: int) returns (r: Option<Json>)
      modifies this
      ensures r == Lookup(old(entries), key, now)
      ensures entries == AfterGet(old(entries), key, now)
    {
      if key in entries && entries[key].expiresAt > now {
        r := Some(entries[key].responseData);
      } else {
        if key in entries {
          entries := entries - {key};
        }
        r := None;
      }
    }

    method SetCache(key: string, cacheType: string, responseData: Json, now: int, ttlHours: int := 24)
      modifies this
      ensures entries == Upsert(old(entries), key, cacheType, responseData, now, ttlHours)
    {
      if key in entries {
        var existing := entries[key];
        entries := entries[key := existing.(responseData := responseData,
                                            expiresAt := now + ttlHours * SecondsPerHour,
                                            createdAt := now)];
      } else {
        entries := entries[key := Entry(cacheType, responseData, now, now + ttlHours * SecondsPerHour)];
      }
    }

    method ClearExpired(now: int) returns (count: nat)
      modifies this
      ensures entries == Sweep(old(entries), now)
      ensures count == |ExpiredKeys(old(entries), now)|
    {
      var expired := set k | k in entries && entries[k].expiresAt < now;
      var pending := expired;
      while pending != {}
        invariant pending <= expired
        invariant entries == old(entries) - (expired - pending)
        decreases |pending|
      {
        var k :| k in pending;
        entries := entries - {k};
        pending := pending - {k};
      }
      count := |expired|;
    }

    method ClearAll() returns (count: nat)
      modifies this
      ensures entries == map[]
      ensures count == |old(entries)|
    {
      count := |entries|;
      entries := map[];
    }
  }

  // ---------------------------------------------------------------------------
  // Properties of the store

  /** A live row is returned as stored and the read changes nothing. */
  lemma GetLive(t: Table, key: string, now: int)
    requires key in t && t[key].expiresAt > now
    ensures Lookup(t, key, now) == Some(t[key].responseData)
    ensures AfterGet(t, key, now) == t
  {
  }

  /** An expired row reads as absent and exactly that row is deleted. */
  lemma GetExpired(t: Table, key: string, now: int)
    requires key in t && t[key].expiresAt <= now
    ensures Lookup(t, key, now) == None
    ensures AfterGet(t, key, now).Keys == t.Keys - {key}
    ensures forall k :: k in t && k != key ==> AfterGet(t, key, now)[k] == t[k]
  {
  }

  /** Reading a missing key returns None and creates nothing, so reads can be repeated at will. */
  lemma GetAbsent(t: Table, key: string, now: int, later: int)
    requires key !in t
    ensures Lookup(t, key, now) == None
    ensures AfterGet(t, key, now) == t
    ensures Lookup(AfterGet(t, key, now), key, later) == None
  {
  }

  /** After an expired read the row stays gone: every later read of the key misses too. */
  lemma ExpiredStaysGone(t: Table, key: string, now: int, later: int)
    requires key in t && t[key].expiresAt <= now
    ensures key !in AfterGet(t, key, now)
    ensures Lookup(AfterGet(t, key, now), key, later) == None
  {
  }

  /** With a positive TTL, a read before the expiry returns what `set_cache` stored. */
  lemma GetAfterSet(t: Table, key: string, cacheType: string, data: Json, now: int, ttlHours: int, later: int)
    requires ttlHours > 0
    requires now <= later < ExpiryAt(now, ttlHours)
    ensures Lookup(Upsert(t, key, cacheType, data, now, ttlHours), key, later) == Some(data)
  {
  }

  /** Once the TTL has run out the stored row reads as absent and the read deletes it. */
  lemma SetThenExpire(t: Table, key: string, cacheType: string, data: Json, now: int, ttlHours: int, later: int)
    requires later >= ExpiryAt(now, ttlHours)
    ensures Lookup(Upsert(t, key, cacheType, data, now, ttlHours), key, later) == None
    ensures AfterGet(Upsert(t, key, cacheType, data, now, ttlHours), key, later) == t - {key}
  {
  }

  /** `set_cache` on an existing key overwrites data and times, keeps the type, and adds no row. */
  lemma UpsertExisting(t: Table, key: string, cacheType: string, data: Json, now: int, ttlHours: int)
    requires key in t
    ensures var t' := Upsert(t, key, cacheType, data, now, ttlHours);
      && t'.Keys == t.Keys
      && |t'| == |t|
      && t'[key] == Entry(t[key].cacheType, data, now, ExpiryAt(now, ttlHours))
      && forall k :: k in t && k != key ==> t'[k] == t[k]
  {
    assert Upsert(t, key, cacheType, data, now, ttlHours).Keys == t.Keys;
  }

  /** `set_cache` on a new key inserts exactly one row with the given type. */
  lemma UpsertNew(t: Table, key: string, cacheType: string, data: Json, now: int, ttlHours: int)
    requires key !in t
    ensures var t' := Upsert(t, key, cacheType, data, now, ttlHours);
      && t'.Keys == t.Keys + {key}
      && |t'| == |t| + 1
      && t'[key] == Entry(cacheType, data, now, ExpiryAt(now, ttlHours))
      && forall k :: k in t ==> t'[k] == t[k]
  {
  }

  /** The sweep removes exactly the rows with `expires_at < now` and leaves the rest as they were. */
  lemma SweepExact(t: Table, now: int)
    ensures forall k :: k in Sweep(t, now) <==> k in t && t[k].expiresAt >= now
    ensures forall k :: k in Sweep(t, now) ==> Sweep(t, now)[k] == t[k]
  {
  }

  /** The count `clear_expired` reports is exactly the number of rows it removed. */
  lemma SweepCount(t: Table, now: int)
    ensures ExpiredKeys(t, now) <= t.Keys
    ensures |Sweep(t, now)| == |t| - |ExpiredKeys(t, now)|
  {
    var expired := ExpiredKeys(t, now);
    var kept := Sweep(t, now).Keys;
    assert kept == t.Keys - expired;
    assert t.Keys == kept + expired;
    assert kept !! expired;
  }

  /** A row expiring exactly at `now` survives the sweep although a read at `now` treats it as expired. */
  lemma SweepBoundary(t: Table, key: string, now: int)
    requires key in t && t[key].expiresAt == now
    ensures key in Sweep(t, now)
    ensures Lookup(t, key, now) == None
  {
  }

  /** A second sweep at the same time finds nothing to remove. */
  lemma SweepIdempotent(t: Table, now: int)
    ensures ExpiredKeys(Sweep(t, now), now) == {}
    ensures Sweep(Sweep(t, now), now) == Sweep(t, now)
  {
  }

  /** A row already deleted by an expired read is not counted again by a later sweep. */
  lemma ExpiredReadNotRecounted(t: Table, key: string, now: int)
    requires key in t && t[key].expiresAt < now
    ensures ExpiredKeys(AfterGet(t, key, now), now) == ExpiredKeys(t, now) - {key}
  {
  }

  // ---------------------------------------------------------------------------
  // The request ledger

  /** One row of `request_log`. */
  datatype Record = Record(endpoint: string, username: Option<string>, cacheHit: bool, timestamp: int)

  /** What `get_stats` reports; the hit rate is the exact percentage, before rounding. */
  datatype Stats = Stats(totalRequests: nat, cacheHits: nat, cacheMisses: nat, cacheHitRate: real)

  /** The number of records served from the cache. */
  function CountHits(log: seq<Record>): (hits: nat)
    ensures hits <= |log|
  {
    if log == [] then 0 else (if log[0].cacheHit then 1 else 0) + CountHits(log[1..])
  }

  /** `hits / total * 100`, and 0 when there are no requests. */
  function HitRate(hits: nat, total: nat): (rate: real)
    requires hits <= total
    ensures 0.0 <= rate <= 100.0
    ensures total == 0 ==> rate == 0.0
    ensures total > 0 && hits == total ==> rate == 100.0
    ensures total > 0 && hits == 0 ==> rate == 0.0
    ensures total > 0 ==> rate * total as real == hits as real * 100.0
  {
    if total > 0 then
      var ratio := hits as real / total as real;
      assert ratio <= 1.0 by {
        assert ratio * total as real == hits as real;
      }
      ratio * 100.0
    else 0.0
  }

  class RequestLog {
    var records: seq<Record>

    constructor ()
      ensures records == []
    {
      records := [];
    }

    /** Appends one record; the user defaults to None and the hit flag to false. */
    method LogRequest(endpoint: string, now: int, username: Option<string> := None, cacheHit: bool := false)
      modifies this
      ensures records == old(records) + [Record(endpoint, username, cacheHit, now)]
    {
      records := records + [Record(endpoint, username, cacheHit, now)];
    }

    /** The totals over every record so far. */
    function GetStats(): (s: Stats)
      reads this
      ensures s.totalRequests == |records|
      ensures s.cacheHits == CountHits(records) <= s.totalRequests
      ensures s.cacheHits + s.cacheMisses == s.totalRequests
      ensures 0.0 <= s.cacheHitRate <= 100.0
      ensures s.totalRequests == 0 ==> s.cacheHitRate == 0.0
      ensures s.cacheHitRate * |records| as real == CountHits(records) as real * 100.0
    {
      var total := |records|;
      var hits := CountHits(records);
      Stats(total, hits, total - hits, HitRate(hits, total))
    }
  }

  /** Logging one more request adds one to the total, and one to the hits exactly when it was a hit. */
  lemma {:induction false} CountHitsAppend(log: seq<Record>, r: Record)
    ensures CountHits(log + [r]) == CountHits(log) + (if r.cacheHit then 1 else 0)
  {
    if log == [] {
      assert log + [r] == [r];
    } else {
      assert (log + [r])[1..] == log[1..] + [r];
      CountHitsAppend(log[1..], r);
    }
  }

  /** The hits counted over a log split in two are the hits of each part. */
  lemma {:induction false} CountHitsConcat(a: seq<Record>, b: seq<Record>)
    ensures CountHits(a + b) == CountHits(a) + CountHits(b)
  {
    if a == [] {
      assert a + b == b;
    } else {
      assert (a + b)[1..] == a[1..] + b;
      CountHitsConcat(a[1..], b);
    }
  }

  /** Every record is a hit exactly when the hit count equals the total. */
  lemma {:induction false} AllHits(log: seq<Record>)
    ensures CountHits(log) == |log| <==> forall i :: 0 <= i < |log| ==> log[i].cacheHit
  {
    if log != [] {
      AllHits(log[1..]);
      assert forall i :: 1 <= i < |log| ==> log[i] == log[1..][i - 1];
    }
  }

  /** Two hits among four requests give a 50% rate; two hits out of two give 100%. */
  lemma StatsExamples()
    ensures HitRate(2, 4) == 50.0
    ensures HitRate(2, 2) == 100.0
    ensures HitRate(0, 0) == 0.0
  {
  }
}
