/** The ticket-price estimate and the trip total. */
module Calculator {
  import FootballApi

  /** A league's prices: `top` for a match with an elite team, `mid` otherwise; `low` is never charged. */
  datatype Tier = Tier(top: int, mid: int, low: int)

  const DefaultTicketPrice: int := 50

  const TicketPrices: map<string, Tier> := map[
    "Premier League" := Tier(80, 60, 50),
    "La Liga" := Tier(70, 50, 40),
    "Serie A" := Tier(60, 45, 35),
    "Bundesliga" := Tier(50, 40, 30),
    "Ligue 1" := Tier(55, 40, 30)
  ]

  const TopTeams: seq<string> := [
    "Manchester City", "Liverpool", "Arsenal", "Chelsea", "Manchester United",
    "Real Madrid", "Barcelona", "Atletico Madrid",
    "Juventus", "Inter", "AC Milan",
    "Bayern Munich", "Borussia Dortmund",
    "PSG", "Monaco"
  ]

  /** Every league's tiers are ordered: top >= mid >= low. */
  lemma TiersOrdered()
    ensures forall league :: league in TicketPrices ==>
      TicketPrices[league].top >= TicketPrices[league].mid >= TicketPrices[league].low
    ensures forall league :: league in TicketPrices ==>
      40 <= TicketPrices[league].mid && TicketPrices[league].top <= 80
  {
  }

  function EstimateTicketPrice(league: string, homeTeam: string, awayTeam: string): (price: int)
    ensures 40 <= price <= 80
  {
    TiersOrdered();
    if league !in TicketPrices then DefaultTicketPrice
    else
      var prices := TicketPrices[league];
      if homeTeam in TopTeams || awayTeam in TopTeams then prices.top else prices.mid
  }

  /**
   * An unknown league costs the flat default; in a known one an elite home or away
   * team gives the top price and otherwise the mid price, never the low one.
   */
  lemma TicketTier(league: string, homeTeam: string, awayTeam: string)
    ensures league !in TicketPrices ==> EstimateTicketPrice(league, homeTeam, awayTeam) == 50
    ensures league in TicketPrices && (homeTeam in TopTeams || awayTeam in TopTeams) ==>
      EstimateTicketPrice(league, homeTeam, awayTeam) == TicketPrices[league].top
    ensures league in TicketPrices && homeTeam !in TopTeams && awayTeam !in TopTeams ==>
      EstimateTicketPrice(league, homeTeam, awayTeam) == TicketPrices[league].mid
    ensures league in TicketPrices ==>
      EstimateTicketPrice(league, homeTeam, awayTeam) != TicketPrices[league].low
  {
    TiersOrdered();
  }

  /** Swapping home and away does not change the estimate. */
  lemma TicketSymmetric(league: string, homeTeam: string, awayTeam: string)
    ensures EstimateTicketPrice(league, homeTeam, awayTeam) == EstimateTicketPrice(league, awayTeam, homeTeam)
  {
  }

  lemma TicketExamples()
    ensures EstimateTicketPrice("Premier League", "Manchester City", "Brighton") == 80
    ensures EstimateTicketPrice("Premier League", "Brighton", "Wolves") == 60
    ensures EstimateTicketPrice("Unknown League", "Team A", "Team B") == 50
    ensures EstimateTicketPrice("La Liga", "Valencia", "Barcelona") == 70
  {
    assert TopTeams[0] == "Manchester City";
    assert TopTeams[6] == "Barcelona";
  }

  /** Every league the fixtures service offers has a ticket tier, so its matches never fall back to 50. */
  lemma TopLeaguesPriced()
    ensures forall l :: l in FootballApi.TopLeagues() ==> l.name in TicketPrices
  {
  }

  function CalculateTotal(flight: int, hotel: int, ticket: int): int {
    flight + hotel + ticket
  }

  /** The trip total of the sample trips. */
  lemma TotalExamples()
    ensures CalculateTotal(200, 150, 80) == 430
    ensures CalculateTotal(0, 0, 0) == 0
  {
  }
}
