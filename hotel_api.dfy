/** The hotel price: a per-night city rate, 100 for cities not in the table, times the nights. */
module HotelApi {

  const DefaultNightlyRate: int := 100

  const CityPrices: map<string, int> := map[
    "London" := 150,
    "Madrid" := 100,
    "Barcelona" := 120,
    "Rome" := 110,
    "Milan" := 130,
    "Munich" := 120,
    "Berlin" := 100,
    "Paris" := 140,
    "Manchester" := 90,
    "Liverpool" := 85
  ]

  /** `city_prices.get(city, 100)` */
  function NightlyRate(city: string): (rate: int)
    ensures 85 <= rate <= 150
  {
    if city in CityPrices then CityPrices[city] else DefaultNightlyRate
  }

  function EstimateHotelPrice(city: string, nights: int := 2): int {
    NightlyRate(city) * nights
  }

  /** `get_hotel_price`: the date is parsed but plays no part in the price. */
  function GetHotelPrice(city: string, matchDate: string, nights: int := 2): int {
    EstimateHotelPrice(city, nights)
  }

  /** The price is the table rate (or 100) per night, additive in the nights and positive for a stay. */
  lemma HotelPriceLinear(city: string, n: int, m: int)
    ensures city in CityPrices ==> EstimateHotelPrice(city, n) == CityPrices[city] * n
    ensures city !in CityPrices ==> EstimateHotelPrice(city, n) == 100 * n
    ensures EstimateHotelPrice(city, n + m) == EstimateHotelPrice(city, n) + EstimateHotelPrice(city, m)
    ensures n > 0 ==> EstimateHotelPrice(city, n) >= 85 * n > 0
  {
    var r := NightlyRate(city);
    assert r * (n + m) == r * n + r * m;
    if n > 0 {
      assert r * n >= 85 * n;
    }
  }

  /** The default stay of two nights costs between 170 and 300 whatever the city or date. */
  lemma DefaultStay(city: string, date1: string, date2: string)
    ensures GetHotelPrice(city, date1) == GetHotelPrice(city, date2) == 2 * NightlyRate(city)
    ensures 170 <= GetHotelPrice(city, date1) <= 300
    ensures GetHotelPrice("Manchester", date1) == 180
  {
  }
}
