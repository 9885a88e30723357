/**
 * The pure parts of the flight-price service: the airport codes searched, the
 * travel window around the match, and the choice of price from the offers.
 */
module FlightApi {
  import opened Optional

  const CityAirports: map<string, string> := map[
    "London" := "LON",
    "Madrid" := "MAD",
    "Barcelona" := "BCN",
    "Rome" := "ROM",
    "Milan" := "MIL",
    "Munich" := "MUC",
    "Berlin" := "BER",
    "Paris" := "PAR",
    "Manchester" := "MAN",
    "Liverpool" := "LPL"
  ]

  /** An unknown origin flies from London. */
  function OriginCode(city: string): string {
    if city in CityAirports then CityAirports[city] else "LON"
  }

  /** An unknown destination is taken to be Madrid. */
  function DestinationCode(city: string): string {
    if city in CityAirports then CityAirports[city] else "MAD"
  }

  /** The offer search for a match on day `matchDay`: out the day before, back the day after. */
  datatype Search = Search(origin: string, destination: string, departureDay: int, returnDay: int)

  function SearchFor(originCity: string, destinationCity: string, matchDay: int): Search {
    Search(OriginCode(originCity), DestinationCode(destinationCity), matchDay - 1, matchDay + 1)
  }

  lemma SearchWindow(originCity: string, destinationCity: string, matchDay: int)
    ensures var s := SearchFor(originCity, destinationCity, matchDay);
      && s.departureDay < matchDay < s.returnDay
      && s.returnDay - s.departureDay == 2
      && (originCity in CityAirports ==> s.origin == CityAirports[originCity])
      && (originCity !in CityAirports ==> s.origin == "LON")
      && (destinationCity in CityAirports ==> s.destination == CityAirports[destinationCity])
      && (destinationCity !in CityAirports ==> s.destination == "MAD")
  {
  }

  /**
   * The reply to an offer search: `Failed` when the request raised, else its `data`
   * list (`[]` when absent); an offer is None when it has no numeric `price.total`.
   */
  datatype OffersReply = Failed | Received(data: seq<Option<int>>)

  const BasePrices: map<string, int> := map["short" := 100, "medium" := 200, "long" := 400]

  /** The fallback estimate: the medium band, whatever the cities. */
  function EstimateFlightPrice(origin: string, destination: string): int {
    BasePrices["medium"]
  }

  /** The cheapest offer. */
  function MinOf(prices: seq<int>): (m: int)
    requires prices != []
    ensures m in prices
    ensures forall i :: 0 <= i < |prices| ==> m <= prices[i]
  {
    if |prices| == 1 then prices[0]
    else
      var rest := MinOf(prices[1..]);
      if prices[0] <= rest then prices[0] else rest
  }

  predicate AllPriced(data: seq<Option<int>>) {
    forall i :: 0 <= i < |data| ==> data[i].Some?
  }

  function Totals(data: seq<Option<int>>): (totals: seq<int>)
    requires AllPriced(data)
    ensures |totals| == |data| && forall i :: 0 <= i < |data| ==> totals[i] == data[i].value
  {
    if data == [] then [] else [data[0].value] + Totals(data[1..])
  }

  /** The minimum over the offers, or the estimate when the search failed or found nothing. */
  function PriceFromReply(reply: OffersReply, originCity: string, destinationCity: string): int {
    if reply.Received? && reply.data != [] && AllPriced(reply.data) then MinOf(Totals(reply.data))
    else EstimateFlightPrice(originCity, destinationCity)
  }

  /** `get_flight_price` with the offer search as a function of the request. */
  function GetFlightPrice(originCity: string, destinationCity: string, matchDay: int, search: Search -> OffersReply): int {
    PriceFromReply(search(SearchFor(originCity, destinationCity, matchDay)), originCity, destinationCity)
  }

  /** With offers, the price is one of them and no dearer than any; otherwise it is 200. */
  lemma PriceChoice(reply: OffersReply, originCity: string, destinationCity: string)
    ensures reply.Received? && reply.data != [] && AllPriced(reply.data) ==>
      var p := PriceFromReply(reply, originCity, destinationCity);
      (exists i :: 0 <= i < |reply.data| && reply.data[i] == Some(p)) &&
      (forall i :: 0 <= i < |reply.data| ==> p <= reply.data[i].value)
    ensures !(reply.Received? && reply.data != [] && AllPriced(reply.data)) ==>
      PriceFromReply(reply, originCity, destinationCity) == 200
  {
    if reply.Received? && reply.data != [] && AllPriced(reply.data) {
      var totals := Totals(reply.data);
      var p := MinOf(totals);
      var i :| 0 <= i < |totals| && totals[i] == p;
      assert reply.data[i] == Some(p);
    }
  }

  /** A price is never 0 (so never left out of the cache) when every offer is positive. */
  lemma PricePositive(reply: OffersReply, originCity: string, destinationCity: string)
    requires reply.Received? ==> forall i :: 0 <= i < |reply.data| && reply.data[i].Some? ==> reply.data[i].value > 0
    ensures PriceFromReply(reply, originCity, destinationCity) > 0
  {
    PriceChoice(reply, originCity, destinationCity);
  }
}
