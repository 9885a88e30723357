# Football trip planner: the cache-aside layer and its pricing rules

This project models, in Dafny, the core of a trip-cost estimator for football away days.

The heart of it is a TTL cache placed in front of three upstream services: fixtures, flights and hotels.
- The `api_cache` table maps a string key to an entry. An entry holds a category, a JSON payload, a creation time and an expiry time.
- Reads delete expired rows lazily. Writes upsert. A sweep removes expired rows and reports how many it removed.
- A `request_log` ledger collects one record per request and reports hit statistics.
- Three cached services wrap the upstream services. Each builds a key from its arguments and answers from a live row when there is one. Otherwise it calls the wrapped service and stores the result, but only when the result is truthy. The TTL depends on the category: 168 h for teams, 24 h for matches and match details, 6 h for flights and hotels.
- Around the cache sit pure rules:
  - the ticket-price tiers and the trip total;
  - the hotel nightly rates;
  - the flight airport defaults, the cheapest-offer choice and the fallback estimate;
  - the conversion of fixtures replies into team, match and match-details records.

Modelling choices:
- Time is an integer number of seconds, passed in as `now`. A TTL of `h` hours expires at `now + h * 3600`.
- The table is a `map<string, Entry>` field of the `APICache` class. The ledger is a `seq<Record>` field of the `RequestLog` class.
- Each class method is proved against pure functions on the map or sequence: `Lookup`, `AfterGet`, `Upsert`, `Sweep` and `CountHits`. The properties are lemmas about those functions.
- A payload is the JSON document (`Json`) that its text stands for. `json.dumps` and `json.loads` invert each other on every document the services store, so the text itself is not modelled.
- The text of a stored document is never empty. So the wrappers' `if cached:` means "a live row was found".
- The wrappers return the document, just as the Python code returns whatever `json.loads` or the wrapped service gives.
- `FootballJson` encodes and decodes typed records as JSON objects, with the fields in dict-literal order. Its round trips are proved.
- Each wrapped service is the base service's logic applied to an upstream reply. That reply is a function of the request, held as a `const` of the cached class, so the network is a parameter. A ghost counter `providerCalls` records every call that reaches the wrapped service.
- An upstream reply is already decoded:
  - `Failed` means the request raised, or its body was not the expected JSON.
  - A field missing from an item is `None`. It raises inside the loop, and the service turns that into `[]` or `None`.
  - In the fixtures loop, the home team's id is read before the home/away filter and the other fields after it. A fixture that is filtered out therefore fails only when its home id is missing.

Two details of the code matter for what the cache keeps:
- `clear_expired` selects rows with `expires_at < now`, strictly (models/cache.py:45), while a read already treats `expires_at == now` as expired (models/cache.py:19). A row expiring exactly at `now` therefore survives the sweep but reads as None (`Cache.SweepBoundary`).
- `set_cache` on an existing key keeps that row's `cache_type` (models/cache.py:29-32).
  - One case is different: after a read has deleted an expired row, the wrapper's write inserts a fresh row with the new category (`CacheAside.MissStoresTruthy`).

## Model

| member | source | states |
|---|---|---|
| `Cache.APICache.GetCached` | models/cache.py:16-24 | returns the payload of a row with `expires_at > now`; otherwise returns None and deletes the row for that key if there is one; no other row changes |
| `Cache.APICache.SetCache` | models/cache.py:26-41 | the table becomes the upsert: an existing row gets new data, `created_at = now` and `expires_at = now + ttl` and keeps its type; a new row gets the given type; the TTL defaults to 24 h |
| `Cache.APICache.ClearExpired` | models/cache.py:43-49 | the loop deletes exactly the rows with `expires_at < now` and returns how many rows the query selected |
| `Cache.APICache.ClearAll` | models/cache.py:51-55 | the table ends empty and the count is the number of rows it held |
| `Cache.Lookup` | models/cache.py:16-24 | the payload of a live row, else None; stated by `Cache.GetLive`, `Cache.GetExpired` and `Cache.GetAbsent` |
| `Cache.AfterGet` | models/cache.py:19-23 | the table after a read: the expired row of the key is removed, nothing else; stated by `Cache.GetExpired` and `Cache.ExpiredStaysGone` |
| `Cache.Upsert` | models/cache.py:26-41 | the table after `set_cache`; stated by `Cache.UpsertExisting`, `Cache.UpsertNew` and `Cache.GetAfterSet` |
| `Cache.Sweep` | models/cache.py:43-49 | the table after `clear_expired`; stated by `Cache.SweepExact`, `Cache.SweepCount` and `Cache.SweepIdempotent` |
| `Cache.GetLive` | models/cache.py:18-20 | a live row is returned as stored and the read changes nothing |
| `Cache.GetExpired` | models/cache.py:19-24 | an expired row reads as None and exactly that row is removed; all other rows keep their values |
| `Cache.GetAbsent` | models/cache.py:18-24 | reading a missing key returns None and creates nothing, so repeated reads stay None |
| `Cache.ExpiredStaysGone` | models/cache.py:21-24 | after an expired read the key is absent and every later read misses |
| `Cache.GetAfterSet` | models/cache.py:33-40 | with a positive TTL, a read before the expiry returns the data that was set |
| `Cache.SetThenExpire` | models/cache.py:19-23 | once `now + ttl` is reached, the row set earlier reads as None and the read deletes it |
| `Cache.UpsertExisting` | models/cache.py:28-32 | overwriting keeps the key set and the row count, keeps `cache_type`, replaces data and times, and leaves other keys untouched |
| `Cache.UpsertNew` | models/cache.py:33-40 | inserting adds exactly one row, with the given type and `expires_at = now + ttl` |
| `Cache.SweepExact` | models/cache.py:45-47 | a key survives the sweep if and only if its `expires_at >= now`, and a surviving row is unchanged |
| `Cache.SweepCount` | models/cache.py:45-49 | the reported count equals the number of rows removed |
| `Cache.SweepBoundary` | models/cache.py:19-47 | a row with `expires_at == now` survives the sweep although a read at `now` treats it as expired |
| `Cache.SweepIdempotent` | models/cache.py:43-49 | a second sweep at the same time removes nothing |
| `Cache.ExpiredReadNotRecounted` | models/cache.py:21-47 | a row already deleted by an expired read is not counted again by the sweep |
| `Cache.RequestLog.LogRequest` | models/cache.py:67-71 | appends exactly one record; the username defaults to None and `cache_hit` to false |
| `Cache.RequestLog.GetStats` | models/cache.py:73-83 | total is the number of records; hits is the number of records with `cache_hit`; misses is total minus hits; the rate times the total is the hits times 100, that is `hits / total * 100`; it lies in [0, 100] and is 0 when there are no records |
| `Cache.CountHits` | models/cache.py:76 | the number of hits never exceeds the number of records |
| `Cache.HitRate` | models/cache.py:77 | for a positive total, the rate times the total is the hits times 100; the rate lies in [0, 100]; it is 0 when the total is 0 or there are no hits, and 100 when every request hit |
| `Cache.CountHitsAppend` | models/cache.py:67-76 | logging one more request adds one to the hits exactly when that request was a hit |
| `Cache.CountHitsConcat` | models/cache.py:75-76 | the hits of two runs of records add up |
| `Cache.AllHits` | models/cache.py:75-81 | the hits equal the total if and only if every record was a hit, that is, if and only if there are no misses |
| `Cache.StatsExamples` | models/cache.py:77 | 2 hits of 4 give 50, 2 of 2 give 100, and no requests give 0 |
| `CacheKeys.IntToString` | services/cached_football_api.py:11 | `str()` of an int; stated by `CacheKeys.IntToStringRoundTrip` and `CacheKeys.IntToStringChars` |
| `CacheKeys.TeamsKey` | services/cached_football_api.py:11 | `teams_league_{league_id}`; stated by `CacheKeys.TeamsKeyInjective` |
| `CacheKeys.MatchesKey` | services/cached_football_api.py:26 | `matches_{team_id}_{match_type}`; stated by `CacheKeys.MatchesKeyInjective` |
| `CacheKeys.DetailsKey` | services/cached_football_api.py:41 | `match_details_{match_id}`; stated by `CacheKeys.DetailsKeyInjective` |
| `CacheKeys.FlightKey` | services/cached_flight_api.py:11 | `flight_{origin}_{destination}_{date}`; stated by `CacheKeys.FlightKeyInjective` and `CacheKeys.FlightKeyCollision` |
| `CacheKeys.HotelKey` | services/cached_hotel_api.py:11 | `hotel_{city}_{date}`; stated by `CacheKeys.HotelKeyInjective` |
| `CacheKeys.IntToStringRoundTrip` | services/cached_football_api.py:11 | the decimal rendering of an id reads back as the same id |
| `CacheKeys.IntToStringInjective` | services/cached_football_api.py:11 | distinct ids render as distinct strings |
| `CacheKeys.IntToStringChars` | services/cached_football_api.py:26 | a rendered id contains only digits and a leading minus sign, never `_` |
| `CacheKeys.TeamsKeyInjective` | services/cached_football_api.py:11 | distinct league ids give distinct `teams_league_` keys |
| `CacheKeys.DetailsKeyInjective` | services/cached_football_api.py:41 | distinct match ids give distinct `match_details_` keys |
| `CacheKeys.MatchesKeyInjective` | services/cached_football_api.py:26 | distinct (team id, match type) pairs give distinct `matches_` keys, whatever the type string holds |
| `CacheKeys.FlightKeyInjective` | services/cached_flight_api.py:11 | when the origin and destination hold no `_`, distinct arguments give distinct `flight_` keys |
| `CacheKeys.HotelKeyInjective` | services/cached_hotel_api.py:11 | when the city holds no `_`, distinct (city, date) pairs give distinct `hotel_` keys |
| `CacheKeys.FlightKeyCollision` | services/cached_flight_api.py:11 | without that condition two different flight requests share one key |
| `CacheKeys.KeysOfDifferentOperationsDiffer` | services/cached_football_api.py:11-41 | keys built by different cached operations never coincide: teams, matches and details keys, and also the flight keys (services/cached_flight_api.py:11) and hotel keys (services/cached_hotel_api.py:11) |
| `CacheAside.Answer` | services/cached_football_api.py:13-23 | the stored document on an enabled hit, else the wrapped service's value; stated by `CacheAside.HitSkipsProvider` and `CacheAside.MissAnswersProvider` |
| `CacheAside.StoreAfter` | services/cached_football_api.py:13-21 | the table after a call; stated by `CacheAside.MissStoresTruthy`, `CacheAside.NegativeNotCached`, `CacheAside.DisabledBypass` and `CacheAside.OtherKeysUntouched` |
| `CacheAside.HitSkipsProvider` | services/cached_football_api.py:13-16 | when the cache is enabled and a live row is found, the stored document is returned and nothing is written |
| `CacheAside.MissAnswersProvider` | services/cached_football_api.py:18-23 | on a miss the call returns exactly what the wrapped service returned |
| `CacheAside.MissStoresTruthy` | services/cached_football_api.py:20-21 | a truthy result is stored under the key with the call's category and TTL; other rows are untouched |
| `CacheAside.NegativeNotCached` | services/cached_football_api.py:20 | a falsy result is not stored: the key is absent afterwards, so the next identical call misses again |
| `CacheAside.DisabledBypass` | services/cached_football_api.py:8-21 | with the cache disabled, the table is neither read nor written and the result is the wrapped service's |
| `CacheAside.RepeatWithinTtlHits` | services/cached_football_api.py:13-21 | a call repeated within the TTL of a stored result is a hit and returns the first result |
| `CacheAside.OtherKeysUntouched` | services/cached_football_api.py:13-21 | a call changes at most the row of its own key |
| `CachedFootballApi.CachedFootballService.constructor` | services/cached_football_api.py:5-8 | the cache starts enabled |
| `CachedFootballApi.CachedFootballService.GetTeamsByLeague` | services/cached_football_api.py:10-23 | key `teams_league_{id}`; the answer and the new table follow the cache-aside rule, with category `teams` and TTL 168 h; the wrapped service is reached exactly on a miss |
| `CachedFootballApi.CachedFootballService.GetUpcomingMatches` | services/cached_football_api.py:25-38 | key `matches_{team}_{type}`, with `all` as the default type; the cache-aside rule with category `matches` and TTL 24 h |
| `CachedFootballApi.CachedFootballService.GetMatchDetails` | services/cached_football_api.py:40-53 | key `match_details_{id}`; the cache-aside rule with category `match_details` and TTL 24 h |
| `CachedFootballApi.EmptyTeamsNotCached` | services/cached_football_api.py:20 | an empty or failed teams reply is not stored, so a repeated call reaches the service again |
| `CachedFootballApi.MissingDetailsNotCached` | services/cached_football_api.py:50 | missing match details (None) are not stored |
| `CachedFootballApi.TeamsStoredAndDecoded` | services/cached_football_api.py:13-23 | a non-empty teams list is stored as `teams` for 168 h; the miss and a later hit both decode to that list |
| `CachedFootballApi.MatchesStoredAndDecoded` | services/cached_football_api.py:35-36 | a non-empty match list is stored as `matches` for 24 h and decodes back to itself |
| `CachedFootballApi.DetailsStoredAndDecoded` | services/cached_football_api.py:50-51 | found details are stored as `match_details` for 24 h and decode back to themselves |
| `CachedFlightApi.CachedFlightService.constructor` | services/cached_flight_api.py:5-8 | the cache starts enabled |
| `CachedFlightApi.CachedFlightService.GetFlightPrice` | services/cached_flight_api.py:10-23 | key `flight_{origin}_{destination}_{date}`; the cache-aside rule with category `flight` and TTL 6 h over the base price |
| `CachedFlightApi.FlightPriceCaching` | services/cached_flight_api.py:18-23 | a price of 0 is returned but not stored; any other price is stored as `flight` for 6 h |
| `CachedHotelApi.CachedHotelService.constructor` | services/cached_hotel_api.py:5-8 | the cache starts enabled |
| `CachedHotelApi.CachedHotelService.GetHotelPrice` | services/cached_hotel_api.py:10-23 | key `hotel_{city}_{date}`; the cache-aside rule with category `hotel` and TTL 6 h over the two-night price |
| `CachedHotelApi.HotelMissAlwaysStored` | services/cached_hotel_api.py:18-21 | the hotel price is always truthy, so every enabled miss stores it for 6 h and a repeat within that time is a hit |
| `FootballJson.ListRoundTrip` | services/cached_football_api.py:16-21 | loading a dumped list gives the list back |
| `FootballJson.TeamsRoundTrip` | services/cached_football_api.py:16-21 | a stored team list decodes to the same teams |
| `FootballJson.TeamsTruthy` | services/cached_football_api.py:20 | a team list is truthy exactly when it is non-empty |
| `FootballJson.MatchesRoundTrip` | services/cached_football_api.py:31-36 | a stored match list decodes to the same matches |
| `FootballJson.MatchesTruthy` | services/cached_football_api.py:35 | a match list is truthy exactly when it is non-empty |
| `FootballJson.DetailsRoundTrip` | services/cached_football_api.py:46-51 | stored details, or null, decode to the same value |
| `FootballJson.DetailsTruthy` | services/cached_football_api.py:50 | details are truthy exactly when they are not None |
| `FootballApi.TopLeagues` | services/football_api.py:12-21 | exactly five leagues, each with an id, a name and a country, and with distinct ids |
| `FootballApi.TeamsFromReply` | services/football_api.py:23-46 | the reply's teams, or `[]`; stated by `FootballApi.TeamsOneToOne` |
| `FootballApi.GetTeamsByLeague` | services/football_api.py:30-46 | the loop builds `TeamsFromReply`: the reply's teams, or `[]` when the request failed or an entry lacks a field |
| `FootballApi.TeamsOneToOne` | services/football_api.py:35-43 | teams exist exactly when every entry is complete, and then they map one-to-one and in order |
| `FootballApi.MatchesFromReply` | services/football_api.py:48-89 | the filtered matches, or `[]` when the request failed or a fixture cannot be read; when that happens is stated by `FootballApi.MatchesReadable`, and what is kept by `FootballApi.MatchesFilter` |
| `FootballApi.GetUpcomingMatches` | services/football_api.py:62-89 | the loop with its home/away filter builds `MatchesFromReply`; `all` is the default type; a failure gives `[]` |
| `FootballApi.MatchesRespectFilter` | services/football_api.py:69-74 | type `home` keeps only home matches and `away` only away matches |
| `FootballApi.MatchesFromOwnFixture` | services/football_api.py:69-84 | every match carries the fields of one fixture of the reply, and `is_home` is true exactly when that fixture's home id equals the team id |
| `FootballApi.Selected` | services/football_api.py:67-84 | reference filter, read front to back: the match of every complete fixture the type keeps, in reply order; its members are stated by `FootballApi.SelectedMembers` |
| `FootballApi.MatchesReadable` | services/football_api.py:67-89 | the loop yields matches if and only if every fixture has its home id and every fixture the type keeps has its other fields; a dropped fixture may lack them; otherwise the result is `[]` |
| `FootballApi.MatchesFilter` | services/football_api.py:67-84 | whenever the loop yields matches, its result is exactly `Selected`, for every match type: `home` keeps every home fixture and `away` every away fixture, in order |
| `FootballApi.SelectedMembers` | services/football_api.py:69-84 | a match is selected if and only if it is the match of a complete fixture whose home/away flag the type keeps |
| `FootballApi.MatchesKeepAll` | services/football_api.py:68-84 | with any other type, complete fixtures map one-to-one and in order |
| `FootballApi.MatchesOfConcat` | services/football_api.py:68-86 | input order is kept: the matches of two runs of fixtures are those of the first run followed by those of the second |
| `FootballApi.ExampleMatches` | services/football_api.py:67-86 | the sample fixture is a home match for team 100, and team 200 gets no home matches |
| `FootballApi.DetailsFromReply` | services/football_api.py:95-114 | the details of the first fixture of the reply, or None when there is no fixture, a field is missing or the request failed |
| `FootballApi.DetailsFirstFixture` | services/football_api.py:100-114 | details exist exactly when the reply has a first fixture with every field present; they copy that fixture's fields and ignore later fixtures |
| `Calculator.TiersOrdered` | services/calculator.py:3-9 | every league's tiers satisfy top >= mid >= low, and every price charged lies in [40, 80] |
| `Calculator.EstimateTicketPrice` | services/calculator.py:19-28 | every estimate lies in [40, 80] |
| `Calculator.TicketTier` | services/calculator.py:20-28 | an unknown league gives 50; a top home or away team gives the league's top price; otherwise the mid price; never the low price |
| `Calculator.TicketSymmetric` | services/calculator.py:25 | swapping the home and away teams does not change the estimate |
| `Calculator.TicketExamples` | services/calculator.py:19-28 | the four sample estimates: 80, 60, 50 and 70 |
| `Calculator.TopLeaguesPriced` | services/calculator.py:3-9 | every league the fixtures service offers has a ticket tier |
| `Calculator.CalculateTotal` | services/calculator.py:30-31 | flight + hotel + ticket; its values are stated by `Calculator.TotalExamples` |
| `Calculator.TotalExamples` | services/calculator.py:30-31 | (200, 150, 80) gives 430 and (0, 0, 0) gives 0 |
| `HotelApi.NightlyRate` | services/hotel_api.py:17-30 | the nightly rate lies between 85 and 150 |
| `HotelApi.EstimateHotelPrice` | services/hotel_api.py:16-31 | the nightly rate times the nights; stated by `HotelApi.HotelPriceLinear` |
| `HotelApi.GetHotelPrice` | services/hotel_api.py:9-14 | two nights by default, whatever the date; stated by `HotelApi.DefaultStay` |
| `HotelApi.HotelPriceLinear` | services/hotel_api.py:16-31 | a table city costs its rate per night and any other city 100; the price is additive in the nights and positive when the nights are positive |
| `HotelApi.DefaultStay` | services/hotel_api.py:9-14 | the date does not affect the price; two nights by default, so 180 for Manchester and always between 170 and 300 |
| `FlightApi.OriginCode` | services/flight_api.py:43 | `city_airports.get(origin, 'LON')`; stated by `FlightApi.SearchWindow` |
| `FlightApi.DestinationCode` | services/flight_api.py:44 | `city_airports.get(destination, 'MAD')`; stated by `FlightApi.SearchWindow` |
| `FlightApi.SearchFor` | services/flight_api.py:43-48 | the airport codes and the day before and after the match; stated by `FlightApi.SearchWindow` |
| `FlightApi.SearchWindow` | services/flight_api.py:43-48 | known cities map through the table, an unknown origin to LON and an unknown destination to MAD; departure is the day before the match and return the day after |
| `FlightApi.MinOf` | services/flight_api.py:68 | the minimum is one of the prices and no greater than any of them |
| `FlightApi.EstimateFlightPrice` | services/flight_api.py:74-80 | the medium band, 200, whatever the cities; stated by `FlightApi.PriceChoice` |
| `FlightApi.PriceFromReply` | services/flight_api.py:61-72 | the cheapest offer, or the estimate; stated by `FlightApi.PriceChoice` and `FlightApi.PricePositive` |
| `FlightApi.GetFlightPrice` | services/flight_api.py:39-72 | the price of the reply to the search for the match window; stated through `FlightApi.SearchWindow` and `FlightApi.PriceChoice` |
| `FlightApi.PriceChoice` | services/flight_api.py:66-72 | with offers, the price equals one offer's total and is at most every total; on a failed, empty or malformed reply it is 200 |
| `FlightApi.PricePositive` | services/flight_api.py:66-80 | when every offer is positive, the price is positive and so never falsy |

## Left out

- HTTP, the Amadeus token request, and URL and header construction (services/flight_api.py:24-37,50-63; services/football_api.py:23-33,49-65,91-98). Upstream replies are parameters of the model, already decoded.
- Reading the ISO match date (`fromisoformat`, `strftime`): the flight service takes a function from date text to day number, and the hotel service ignores the date. An unparsable date raises in the source; the model does not capture that.
- The clock: `datetime.utcnow()` and `datetime.now()` become the `now` parameter. The source reads the clock separately for each of `get_cached`, `set_cache`, `created_at` and `expires_at`; the model uses one `now` per call.
- The 90-day window and `today.replace(year=2023)` in `get_upcoming_matches`: the fixtures reply depends on the team id only. That call sits outside the `try` (services/football_api.py:52): on 29 February it raises `ValueError`, which passes uncached through the cached service. The model never raises there.
- The SQL session, commits and the integer `id` primary key. The table is a map keyed by `cache_key`, so the unique-key constraint holds by construction.
- The text of `json.dumps`/`json.loads`: the store holds the document. A payload written directly as text that is not JSON is not represented.
- Cache.RequestLog.GetStats: the rate is the exact `hits / total * 100` as a real, without Python's `round(…, 2)` to two decimals.
- FlightApi.PriceChoice: prices are integers, whereas the source turns offer totals into `float`.
- Key injectivity for string arguments holds only for names without `_`. `CacheKeys.FlightKeyCollision` shows why that condition is needed.
- Concurrency and cache stampedes: the code has none, so the model covers sequential calls only.
- The trip calculation route, the other Flask routes, the user table and password checks, configuration and the browser script are not part of this model. They are glue, foreign libraries and environment.
