/**
 * The flight-price service behind the shared cache, for six hours per key. The offer
 * search is a function of the request, and reading the ISO match date into a day
 * number is a function of the date text.
 */
module CachedFlightApi {
  import opened Json
  import opened Cache
  import opened CacheKeys
  import opened CacheAside
  import FlightApi

  const FlightTtlHours: int := 6

  class CachedFlightService {
    const store: APICache
    var cacheEnabled: bool
    const search: FlightApi.Search -> FlightApi.OffersReply
    const dayOf: string -> int
    /** How many times a call reached the wrapped service. */
    ghost var providerCalls: nat

    constructor (store: APICache, search: FlightApi.Search -> FlightApi.OffersReply, dayOf: string -> int)
      ensures this.store == store && cacheEnabled && providerCalls == 0
      ensures this.search == search && this.dayOf == dayOf
    {
      this.store := store;
      cacheEnabled := true;
      this.search := search;
      this.dayOf := dayOf;
      providerCalls := 0;
    }

    /** What the wrapped service returns for these arguments. */
    function Price(origin: string, destination: string, date: string): int
      reads this
    {
      FlightApi.GetFlightPrice(origin, destination, dayOf(date), search)
    }

    method GetFlightPrice(origin: string, destination: string, date: string, now: int) returns (r: Json)
      modifies store, this`providerCalls
      ensures var key, fetched := FlightKey(origin, destination, date), JInt(Price(origin, destination, date));
        && r == Answer(cacheEnabled, old(store.entries), key, now, fetched)
        && store.entries == StoreAfter(cacheEnabled, old(store.entries), key, "flight", FlightTtlHours, now, fetched)
        && providerCalls == old(providerCalls) + (if IsHit(cacheEnabled, old(store.entries), key, now) then 0 else 1)
    {
      var key := FlightKey(origin, destination, date);
      if cacheEnabled {
        var cached := store.GetCached(key, now);
        if cached.Some? {
          return cached.value;
        }
      }
      var price := FlightApi.GetFlightPrice(origin, destination, dayOf(date), search);
      providerCalls := providerCalls + 1;
      r := JInt(price);
      if cacheEnabled && Truthy(r) {
        store.SetCache(key, "flight", r, now, FlightTtlHours);
      }
    }
  }

  /** A price of 0 is answered but not stored; any other price is stored for six hours. */
  lemma FlightPriceCaching(t: Table, origin: string, destination: string, date: string, price: int, now: int)
    requires !IsHit(true, t, FlightKey(origin, destination, date), now)
    ensures var key := FlightKey(origin, destination, date);
      var t' := StoreAfter(true, t, key, "flight", FlightTtlHours, now, JInt(price));
      && Answer(true, t, key, now, JInt(price)) == JInt(price)
      && (price == 0 ==> key !in t')
      && (price != 0 ==> key in t' && t'[key] == Entry("flight", JInt(price), now, now + 6 * 3600))
  {
  }
}
