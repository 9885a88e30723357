/**
 * The parts of the fixtures service that turn an already-decoded upstream reply into
 * the lists and records the rest of the system uses. A reply that could not be fetched
 * or decoded is `Failed`; a field missing from an item is `None` and raises a KeyError
 * in the loop, which the service turns into the empty result.
 */
module FootballApi {
  import opened Optional

  /** An upstream reply: `Failed` when the request raised, else its `response` list (`[]` when absent). */
  datatype Reply<T> = Failed | Received(response: seq<T>)

  datatype League = League(id: int, name: string, country: string)

  /** The five leagues on offer, in the order of the `top_leagues` table. */
  function TopLeagues(): (leagues: seq<League>)
    ensures |leagues| == 5
    ensures forall i, j :: 0 <= i < j < |leagues| ==> leagues[i].id != leagues[j].id
  {
    [ League(39, "Premier League", "England"),
      League(140, "La Liga", "Spain"),
      League(135, "Serie A", "Italy"),
      League(78, "Bundesliga", "Germany"),
      League(61, "Ligue 1", "France") ]
  }

  // ---------------------------------------------------------------------------
  // Teams of a league

  /** One entry of the `/teams` reply, with every field present. */
  datatype TeamItem = TeamItem(id: int, name: string, logo: string, venueCity: string)

  datatype Team = Team(id: int, name: string, logo: string, city: string)

  function ToTeam(item: TeamItem): Team {
    Team(item.id, item.name, item.logo, item.venueCity)
  }

  predicate AllPresent<T>(items: seq<Option<T>>) {
    forall i :: 0 <= i < |items| ==> items[i].Some?
  }

  /** The teams of the reply in order, or `[]` if any entry lacks a field or the request failed. */
  function TeamsOf(items: seq<Option<TeamItem>>): Option<seq<Team>> {
    if items == [] then Some([])
    else match TeamsOf(items[..|items| - 1])
      case None => None
      case Some(teams) =>
        if items[|items| - 1].None? then None else Some(teams + [ToTeam(items[|items| - 1].value)])
  }

  function TeamsFromReply(reply: Reply<Option<TeamItem>>): seq<Team> {
    match reply
    case Failed => []
    case Received(items) => TeamsOf(items).GetOr([])
  }

  /** `get_teams_by_league` after the request: builds the list entry by entry. */
  method GetTeamsByLeague(reply: Reply<Option<TeamItem>>) returns (teams: seq<Team>)
    ensures teams == TeamsFromReply(reply)
  {
    if reply.Failed? {
      return [];
    }
    var items := reply.response;
    teams := [];
    var i := 0;
    while i < |items|
      invariant 0 <= i <= |items|
      invariant TeamsOf(items[..i]) == Some(teams)
    {
      assert items[..i + 1][..i] == items[..i];
      if items[i].None? {
        NoTeamsAfterMissing(items, i + 1);
        return [];
      }
      teams := teams + [ToTeam(items[i].value)];
      i := i + 1;
    }
    assert items[..i] == items;
  }

  /** Once an entry lacks a field, no longer prefix yields teams. */
  lemma {:induction false} NoTeamsAfterMissing(items: seq<Option<TeamItem>>, n: nat)
    requires 0 < n <= |items| && TeamsOf(items[..n]) == None
    ensures TeamsOf(items) == None
    decreases |items| - n
  {
    if n < |items| {
      assert items[..n + 1][..n] == items[..n];
      NoTeamsAfterMissing(items, n + 1);
    } else {
      assert items[..n] == items;
    }
  }

  /** Teams map one-to-one and in order from a reply whose entries are all complete; otherwise none. */
  lemma {:induction false} TeamsOneToOne(items: seq<Option<TeamItem>>)
    ensures TeamsOf(items).Some? <==> AllPresent(items)
    ensures TeamsOf(items).Some? ==>
      |TeamsOf(items).value| == |items| &&
      forall i :: 0 <= i < |items| ==> TeamsOf(items).value[i] == ToTeam(items[i].value)
  {
    if items != [] {
      var init := items[..|items| - 1];
      TeamsOneToOne(init);
      assert forall i :: 0 <= i < |init| ==> init[i] == items[i];
    }
  }

  // ---------------------------------------------------------------------------
  // Upcoming matches of a team

  /** The fields of a fixture that the match and details records copy. */
  datatype FixtureBody = FixtureBody(
    id: int, date: string, homeName: string, awayName: string, venueName: string, venueCity: string)

  /**
   * One entry of the `/fixtures` reply. The home team's id is read before the home/away
   * filter and the other fields after it, so each may be missing on its own.
   */
  datatype FixtureItem = FixtureItem(homeId: Option<int>, body: Option<FixtureBody>, league: Option<string>)

  datatype Match = Match(
    id: int, date: string, homeTeam: string, awayTeam: string, venue: string, city: string, isHome: bool)

  function ToMatch(b: FixtureBody, isHome: bool): Match {
    Match(b.id, b.date, b.homeName, b.awayName, b.venueName, b.venueCity, isHome)
  }

  /** `'home'` keeps home fixtures only, `'away'` away fixtures only, anything else keeps all. */
  predicate Keeps(matchType: string, isHome: bool) {
    !(matchType == "home" && !isHome) && !(matchType == "away" && isHome)
  }

  /** The matches of a list of fixtures, or None if reading one of them raises. */
  function MatchesOf(items: seq<FixtureItem>, teamId: int, matchType: string): Option<seq<Match>> {
    if items == [] then Some([])
    else match MatchesOf(items[..|items| - 1], teamId, matchType)
      case None => None
      case Some(ms) => Step(ms, items[|items| - 1], teamId, matchType)
  }

  /** Handles one fixture after the matches `ms` of the fixtures before it. */
  function Step(ms: seq<Match>, f: FixtureItem, teamId: int, matchType: string): Option<seq<Match>> {
    if f.homeId.None? then None
    else
      var isHome := f.homeId.value == teamId;
      if !Keeps(matchType, isHome) then Some(ms)
      else if f.body.None? then None
      else Some(ms + [ToMatch(f.body.value, isHome)])
  }

  function MatchesFromReply(reply: Reply<FixtureItem>, teamId: int, matchType: string): seq<Match> {
    match reply
    case Failed => []
    case Received(items) => MatchesOf(items, teamId, matchType).GetOr([])
  }

  /** `get_upcoming_matches` after the request: the loop with its home/away filter. */
  method GetUpcomingMatches(reply: Reply<FixtureItem>, teamId: int, matchType: string := "all")
    returns (matches: seq<Match>)
    ensures matches == MatchesFromReply(reply, teamId, matchType)
  {
    if reply.Failed? {
      return [];
    }
    var items := reply.response;
    matches := [];
    var i := 0;
    while i < |items|
      invariant 0 <= i <= |items|
      invariant MatchesOf(items[..i], teamId, matchType) == Some(matches)
    {
      assert items[..i + 1][..i] == items[..i];
      var fixture := items[i];
      if fixture.homeId.None? {
        NoMatchesAfterRaise(items, i + 1, teamId, matchType);
        return [];
      }
      var isHome := fixture.homeId.value == teamId;
      if matchType == "home" && !isHome {
        i := i + 1;
        continue;
      }
      if matchType == "away" && isHome {
        i := i + 1;
        continue;
      }
      if fixture.body.None? {
        NoMatchesAfterRaise(items, i + 1, teamId, matchType);
        return [];
      }
      matches := matches + [ToMatch(fixture.body.value, isHome)];
      i := i + 1;
    }
    assert items[..i] == items;
  }

  /** Once reading a fixture raises, the whole list yields nothing. */
  lemma {:induction false} NoMatchesAfterRaise(items: seq<FixtureItem>, n: nat, teamId: int, matchType: string)
    requires 0 < n <= |items| && MatchesOf(items[..n], teamId, matchType) == None
    ensures MatchesOf(items, teamId, matchType) == None
    decreases |items| - n
  {
    if n < |items| {
      assert items[..n + 1][..n] == items[..n];
      NoMatchesAfterRaise(items, n + 1, teamId, matchType);
    } else {
      assert items[..n] == items;
    }
  }

  /** A fixture whose every field is present. */
  predicate Complete(f: FixtureItem) {
    f.homeId.Some? && f.body.Some?
  }

  /** The match a complete fixture becomes for `teamId`: home exactly when its home id is `teamId`. */
  function MatchFor(f: FixtureItem, teamId: int): Match
    requires Complete(f)
  {
    ToMatch(f.body.value, f.homeId.value == teamId)
  }

  /** With match type `'home'` every match is a home match; with `'away'` every one is away. */
  lemma {:induction false} MatchesRespectFilter(items: seq<FixtureItem>, teamId: int, matchType: string)
    requires MatchesOf(items, teamId, matchType).Some?
    ensures forall m :: m in MatchesOf(items, teamId, matchType).value ==> Keeps(matchType, m.isHome)
    ensures matchType == "home" ==> forall m :: m in MatchesOf(items, teamId, matchType).value ==> m.isHome
    ensures matchType == "away" ==> forall m :: m in MatchesOf(items, teamId, matchType).value ==> !m.isHome
  {
    if items != [] {
      MatchesRespectFilter(items[..|items| - 1], teamId, matchType);
    }
  }

  /** Every match comes from one fixture of the reply, with its fields and its home flag. */
  lemma {:induction false} MatchesFromOwnFixture(items: seq<FixtureItem>, teamId: int, matchType: string)
    requires MatchesOf(items, teamId, matchType).Some?
    ensures forall m :: m in MatchesOf(items, teamId, matchType).value ==>
      exists f :: f in items && Complete(f) && m == MatchFor(f, teamId)
  {
    if items != [] {
      var init := items[..|items| - 1];
      var last := items[|items| - 1];
      MatchesFromOwnFixture(init, teamId, matchType);
      assert forall f :: f in init ==> f in items;
      assert last in items;
      var ms := MatchesOf(init, teamId, matchType).value;
      assert MatchesOf(items, teamId, matchType).value == ms
        || (Complete(last) && MatchesOf(items, teamId, matchType).value == ms + [MatchFor(last, teamId)]);
    }
  }

  /** With any other match type a complete reply maps one-to-one and in order. */
  lemma {:induction false} MatchesKeepAll(items: seq<FixtureItem>, teamId: int, matchType: string)
    requires matchType != "home" && matchType != "away"
    requires forall i :: 0 <= i < |items| ==> Complete(items[i])
    ensures MatchesOf(items, teamId, matchType).Some?
    ensures |MatchesOf(items, teamId, matchType).value| == |items|
    ensures forall i :: 0 <= i < |items| ==> MatchesOf(items, teamId, matchType).value[i] == MatchFor(items[i], teamId)
  {
    if items != [] {
      var init := items[..|items| - 1];
      assert forall i :: 0 <= i < |init| ==> init[i] == items[i];
      MatchesKeepAll(init, teamId, matchType);
    }
  }

  /** The match a fixture contributes to the filtered list: none, or the match of a kept complete fixture. */
  function Pick(f: FixtureItem, teamId: int, matchType: string): seq<Match> {
    if Complete(f) && Keeps(matchType, f.homeId.value == teamId) then [MatchFor(f, teamId)] else []
  }

  /**
   * Reference definition of the filter, read front to back: the match of every complete
   * fixture that the match type keeps, in the order of the reply.
   */
  function Selected(items: seq<FixtureItem>, teamId: int, matchType: string): seq<Match> {
    if items == [] then [] else Pick(items[0], teamId, matchType) + Selected(items[1..], teamId, matchType)
  }

  lemma {:induction false} SelectedAppend(items: seq<FixtureItem>, f: FixtureItem, teamId: int, matchType: string)
    ensures Selected(items + [f], teamId, matchType) == Selected(items, teamId, matchType) + Pick(f, teamId, matchType)
  {
    if items == [] {
      assert items + [f] == [f];
      assert [f][1..] == [];
    } else {
      var p := Pick(items[0], teamId, matchType);
      assert (items + [f])[0] == items[0];
      assert (items + [f])[1..] == items[1..] + [f];
      SelectedAppend(items[1..], f, teamId, matchType);
      assert p + (Selected(items[1..], teamId, matchType) + Pick(f, teamId, matchType))
        == (p + Selected(items[1..], teamId, matchType)) + Pick(f, teamId, matchType);
    }
  }

  /**
   * Reading a fixture does not raise: its home id is present, and so is the rest of it
   * when the match type keeps it. A fixture the filter drops may lack everything else.
   */
  predicate Readable(f: FixtureItem, teamId: int, matchType: string) {
    f.homeId.Some? && (Keeps(matchType, f.homeId.value == teamId) ==> f.body.Some?)
  }

  /** The loop yields matches exactly when every fixture of the reply is readable; otherwise the result is `[]`. */
  lemma {:induction false} MatchesReadable(items: seq<FixtureItem>, teamId: int, matchType: string)
    ensures MatchesOf(items, teamId, matchType).Some? <==>
      forall i :: 0 <= i < |items| ==> Readable(items[i], teamId, matchType)
  {
    if items != [] {
      var init := items[..|items| - 1];
      assert forall i :: 0 <= i < |init| ==> init[i] == items[i];
      MatchesReadable(init, teamId, matchType);
    }
  }

  /**
   * Whenever the loop yields matches, they are exactly the fixtures the match type
   * selects, in order: `'home'` loses no home match and `'away'` no away one.
   */
  lemma {:induction false} MatchesFilter(items: seq<FixtureItem>, teamId: int, matchType: string)
    requires MatchesOf(items, teamId, matchType).Some?
    ensures MatchesOf(items, teamId, matchType).value == Selected(items, teamId, matchType)
  {
    if items != [] {
      var init := items[..|items| - 1];
      var last := items[|items| - 1];
      MatchesFilter(init, teamId, matchType);
      assert init + [last] == items;
      SelectedAppend(init, last, teamId, matchType);
      var ms := Selected(init, teamId, matchType);
      assert MatchesOf(items, teamId, matchType) == Step(ms, last, teamId, matchType);
      if Keeps(matchType, last.homeId.value == teamId) {
        assert Selected(items, teamId, matchType) == ms + [MatchFor(last, teamId)];
      } else {
        assert Selected(items, teamId, matchType) == ms;
      }
    }
  }

  /** A match is selected exactly when it is the match of a complete fixture the match type keeps. */
  lemma {:induction false} SelectedMembers(items: seq<FixtureItem>, teamId: int, matchType: string)
    ensures forall m :: m in Selected(items, teamId, matchType) <==>
      exists i :: 0 <= i < |items| && Complete(items[i]) && Keeps(matchType, items[i].homeId.value == teamId)
        && m == MatchFor(items[i], teamId)
  {
    if items != [] {
      SelectedMembers(items[1..], teamId, matchType);
      assert forall i :: 1 <= i < |items| ==> items[1..][i - 1] == items[i];
    }
  }

  /** Order is kept: the matches of two runs of fixtures are those of the first, then those of the second. */
  lemma {:induction false} MatchesOfConcat(a: seq<FixtureItem>, b: seq<FixtureItem>, teamId: int, matchType: string)
    requires MatchesOf(a + b, teamId, matchType).Some?
    ensures MatchesOf(a, teamId, matchType).Some? && MatchesOf(b, teamId, matchType).Some?
    ensures MatchesOf(a + b, teamId, matchType).value ==
      MatchesOf(a, teamId, matchType).value + MatchesOf(b, teamId, matchType).value
  {
    if b == [] {
      assert a + b == a;
    } else {
      var b' := b[..|b| - 1];
      assert (a + b)[..|a + b| - 1] == a + b';
      assert (a + b)[|a + b| - 1] == b[|b| - 1];
      MatchesOfConcat(a, b', teamId, matchType);
    }
  }

  /** The example reply: one fixture at home for team 100 against team 200. */
  function ExampleReply(): Reply<FixtureItem> {
    Received([FixtureItem(Some(100), Some(FixtureBody(1, "2023-12-01", "Home Team", "Away Team", "Stadium", "City")), None)])
  }

  lemma ExampleMatches()
    ensures var ms := MatchesFromReply(ExampleReply(), 100, "all"); |ms| == 1 && ms[0].homeTeam == "Home Team" && ms[0].isHome
    ensures MatchesFromReply(ExampleReply(), 200, "home") == []
  {
    var items := ExampleReply().response;
    assert items[..0] == [];
  }

  // ---------------------------------------------------------------------------
  // Details of one match

  datatype MatchDetails = MatchDetails(
    id: int, date: string, homeTeam: string, awayTeam: string, venue: string, city: string, league: string)

  /** The first fixture of the reply as a details record; None when there is none or a field is missing. */
  function DetailsFromReply(reply: Reply<FixtureItem>): Option<MatchDetails> {
    match reply
    case Failed => None
    case Received(items) =>
      if items == [] then None
      else
        var f := items[0];
        if f.body.None? || f.league.None? then None
        else
          var b := f.body.value;
          Some(MatchDetails(b.id, b.date, b.homeName, b.awayName, b.venueName, b.venueCity, f.league.value))
  }

  /** Details come from the first fixture alone, field by field; later fixtures are never looked at. */
  lemma DetailsFirstFixture(reply: Reply<FixtureItem>, rest: seq<FixtureItem>)
    ensures DetailsFromReply(reply).Some? <==>
      reply.Received? && reply.response != [] && reply.response[0].body.Some? && reply.response[0].league.Some?
    ensures DetailsFromReply(reply).Some? ==>
      var d, b := DetailsFromReply(reply).value, reply.response[0].body.value;
      d.id == b.id && d.date == b.date && d.homeTeam == b.homeName && d.awayTeam == b.awayName &&
      d.venue == b.venueName && d.city == b.venueCity && d.league == reply.response[0].league.value
    ensures reply.Received? && reply.response != [] ==>
      DetailsFromReply(Received([reply.response[0]] + rest)) == DetailsFromReply(reply)
  {
  }
}
