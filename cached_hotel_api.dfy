/** The hotel-price service behind the shared cache, for six hours per key. */
module CachedHotelApi {
  import opened Json
  import opened Cache
  import opened CacheKeys
  import opened CacheAside
  import HotelApi

  const HotelTtlHours: int := 6

  /** What the wrapped service returns: the default two-night stay. */
  function HotelResult(city: string, date: string): Json {
    JInt(HotelApi.GetHotelPrice(city, date))
  }

  class CachedHotelService {
    const store: APICache
    var cacheEnabled: bool
    /** How many times a call reached the wrapped service. */
    ghost var providerCalls: nat

    constructor (store: APICache)
      ensures this.store == store && cacheEnabled && providerCalls == 0
    {
      this.store := store;
      cacheEnabled := true;
      providerCalls := 0;
    }

    method GetHotelPrice(city: string, date: string, now: int) returns (r: Json)
      modifies store, this`providerCalls
      ensures var key, fetched := HotelKey(city, date), HotelResult(city, date);
        && r == Answer(cacheEnabled, old(store.entries), key, now, fetched)
        && store.entries == StoreAfter(cacheEnabled, old(store.entries), key, "hotel", HotelTtlHours, now, fetched)
        && providerCalls == old(providerCalls) + (if IsHit(cacheEnabled, old(store.entries), key, now) then 0 else 1)
    {
      var key := HotelKey(city, date);
      if cacheEnabled {
        var cached := store.GetCached(key, now);
        if cached.Some? {
          return cached.value;
        }
      }
      var price := HotelApi.GetHotelPrice(city, date);
      providerCalls := providerCalls + 1;
      r := JInt(price);
      if cacheEnabled && Truthy(r) {
        store.SetCache(key, "hotel", r, now, HotelTtlHours);
      }
    }
  }

  /**
   * The hotel price is never falsy (at least 170), so every enabled miss stores it for
   * six hours, and a repeat within that time is answered from the table.
   */
  lemma HotelMissAlwaysStored(t: Table, city: string, date: string, now: int, later: int)
    requires !IsHit(true, t, HotelKey(city, date), now)
    requires now <= later < now + 6 * 3600
    ensures var key := HotelKey(city, date);
      var t' := StoreAfter(true, t, key, "hotel", HotelTtlHours, now, HotelResult(city, date));
      && Truthy(HotelResult(city, date))
      && key in t' && t'[key] == Entry("hotel", HotelResult(city, date), now, now + 6 * 3600)
      && IsHit(true, t', key, later)
  {
    HotelApi.DefaultStay(city, date, date);
    RepeatWithinTtlHits(t, HotelKey(city, date), "hotel", HotelTtlHours, now, HotelResult(city, date),
                        later, HotelResult(city, date));
  }
}
