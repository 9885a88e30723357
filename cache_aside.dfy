/**
 * What one call of a cached service does, as a function of the table before it and
 * of the value the wrapped service would return: read the key (deleting an expired
 * row), answer from a live row, and otherwise answer what the service returns and
 * store it only when it is truthy. All of it is skipped when the cache is disabled.
 * Every stored document has non-empty text, so `if cached:` is "a live row was found".
 */
module CacheAside {
  import opened Json
  import opened Cache

  /** The call is answered from the table. */
  predicate IsHit(enabled: bool, t: Table, key: string, now: int) {
    enabled && Lookup(t, key, now).Some?
  }

  /** The value the call returns; `fetched` is what the wrapped service returns for the same arguments. */
  function Answer(enabled: bool, t: Table, key: string, now: int, fetched: Json): Json {
    if IsHit(enabled, t, key, now) then Lookup(t, key, now).value else fetched
  }

  /** The table after the call. */
  function StoreAfter(enabled: bool, t: Table, key: string, category: string, ttlHours: int, now: int, fetched: Json): Table {
    if !enabled then t
    else
      var read := AfterGet(t, key, now);
      if Lookup(t, key, now).Some? || !Truthy(fetched) then read
      else Upsert(read, key, category, fetched, now, ttlHours)
  }

  /** A hit answers the stored document and writes nothing. */
  lemma HitSkipsProvider(t: Table, key: string, category: string, ttlHours: int, now: int, fetched: Json)
    requires IsHit(true, t, key, now)
    ensures key in t && Answer(true, t, key, now, fetched) == t[key].responseData
    ensures StoreAfter(true, t, key, category, ttlHours, now, fetched) == t
  {
  }

  /** A miss answers exactly what the wrapped service returned. */
  lemma MissAnswersProvider(enabled: bool, t: Table, key: string, now: int, fetched: Json)
    requires !IsHit(enabled, t, key, now)
    ensures Answer(enabled, t, key, now, fetched) == fetched
  {
  }

  /**
   * A miss with a truthy result stores it under the key with the category and TTL of the
   * call (a fresh row, since any expired one was deleted by the read); other rows are untouched.
   */
  lemma MissStoresTruthy(t: Table, key: string, category: string, ttlHours: int, now: int, fetched: Json)
    requires !IsHit(true, t, key, now) && Truthy(fetched)
    ensures var t' := StoreAfter(true, t, key, category, ttlHours, now, fetched);
      && key in t'
      && t'[key] == Entry(category, fetched, now, ExpiryAt(now, ttlHours))
      && t'.Keys == t.Keys + {key}
      && forall k :: k in t && k != key ==> t'[k] == t[k]
  {
  }

  /** A falsy result is never stored: the key is absent afterwards, so the next call misses again. */
  lemma NegativeNotCached(t: Table, key: string, category: string, ttlHours: int, now: int, fetched: Json, later: int)
    requires !IsHit(true, t, key, now) && !Truthy(fetched)
    ensures key !in StoreAfter(true, t, key, category, ttlHours, now, fetched)
    ensures !IsHit(true, StoreAfter(true, t, key, category, ttlHours, now, fetched), key, later)
    ensures forall k :: k != key ==> (k in t <==> k in StoreAfter(true, t, key, category, ttlHours, now, fetched))
  {
  }

  /** With the cache disabled the call is the wrapped service: its result, and no table change. */
  lemma DisabledBypass(t: Table, key: string, category: string, ttlHours: int, now: int, fetched: Json)
    ensures !IsHit(false, t, key, now)
    ensures Answer(false, t, key, now, fetched) == fetched
    ensures StoreAfter(false, t, key, category, ttlHours, now, fetched) == t
  {
  }

  /**
   * A call repeated within the TTL of a stored truthy result is a hit and answers that
   * same result, whatever the wrapped service would return by then.
   */
  lemma RepeatWithinTtlHits(t: Table, key: string, category: string, ttlHours: int, now: int, fetched: Json,
                            later: int, fetchedLater: Json)
    requires !IsHit(true, t, key, now) && Truthy(fetched)
    requires ttlHours > 0 && now <= later < ExpiryAt(now, ttlHours)
    ensures var t' := StoreAfter(true, t, key, category, ttlHours, now, fetched);
      && IsHit(true, t', key, later)
      && Answer(true, t', key, later, fetchedLater) == fetched
      && StoreAfter(true, t', key, category, ttlHours, later, fetchedLater) == t'
  {
  }

  /** Only the row of the call's key can change. */
  lemma OtherKeysUntouched(enabled: bool, t: Table, key: string, category: string, ttlHours: int, now: int, fetched: Json)
    ensures forall k :: k != key ==>
      (k in t <==> k in StoreAfter(enabled, t, key, category, ttlHours, now, fetched)) &&
      (k in t ==> StoreAfter(enabled, t, key, category, ttlHours, now, fetched)[k] == t[k])
  {
  }
}
