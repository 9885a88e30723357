/**
 * The JSON documents the cached fixtures service stores (`json.dumps`) and reads back
 * (`json.loads`): each record becomes an object with its fields in the order of the
 * dict literal that built it, a list becomes an array, and None becomes null.
 */
module FootballJson {
  import opened Optional
  import opened Json
  import opened FootballApi

  function ListToJson<T>(xs: seq<T>, enc: T -> Json): (j: Json)
    ensures j.JArr? && |j.items| == |xs|
  {
    if xs == [] then JArr([]) else JArr([enc(xs[0])] + ListToJson(xs[1..], enc).items)
  }

  function ListFromJson<T>(items: seq<Json>, dec: Json -> Option<T>): Option<seq<T>> {
    if items == [] then Some([])
    else match (dec(items[0]), ListFromJson(items[1..], dec))
      case (Some(x), Some(xs)) => Some([x] + xs)
      case _ => None
  }

  /** Decoding an encoded list gives the list back when decoding inverts encoding element-wise. */
  lemma {:induction false} ListRoundTrip<T>(xs: seq<T>, enc: T -> Json, dec: Json -> Option<T>)
    requires forall x :: dec(enc(x)) == Some(x)
    ensures ListFromJson(ListToJson(xs, enc).items, dec) == Some(xs)
  {
    if xs != [] {
      ListRoundTrip(xs[1..], enc, dec);
      var items := ListToJson(xs, enc).items;
      assert items[0] == enc(xs[0]);
      assert items[1..] == ListToJson(xs[1..], enc).items;
      assert [xs[0]] + xs[1..] == xs;
    }
  }

  // ---------------------------------------------------------------------------
  // Fields of an object

  predicate IntAt(fs: seq<(string, Json)>, k: nat, name: string) {
    k < |fs| && fs[k].0 == name && fs[k].1.JInt?
  }

  predicate StrAt(fs: seq<(string, Json)>, k: nat, name: string) {
    k < |fs| && fs[k].0 == name && fs[k].1.JStr?
  }

  predicate BoolAt(fs: seq<(string, Json)>, k: nat, name: string) {
    k < |fs| && fs[k].0 == name && fs[k].1.JBool?
  }

  // ---------------------------------------------------------------------------
  // Teams

  function TeamToJson(t: Team): Json {
    JObj([("id", JInt(t.id)), ("name", JStr(t.name)), ("logo", JStr(t.logo)), ("city", JStr(t.city))])
  }

  function TeamFromJson(j: Json): Option<Team> {
    if j.JObj? && |j.fields| == 4 && IntAt(j.fields, 0, "id") && StrAt(j.fields, 1, "name")
      && StrAt(j.fields, 2, "logo") && StrAt(j.fields, 3, "city")
    then
      var fs := j.fields;
      Some(Team(fs[0].1.i, fs[1].1.s, fs[2].1.s, fs[3].1.s))
    else None
  }

  function TeamsToJson(teams: seq<Team>): Json {
    ListToJson(teams, TeamToJson)
  }

  function TeamsFromJson(j: Json): Option<seq<Team>> {
    if j.JArr? then ListFromJson(j.items, TeamFromJson) else None
  }

  lemma TeamsRoundTrip(teams: seq<Team>)
    ensures TeamsFromJson(TeamsToJson(teams)) == Some(teams)
  {
    ListRoundTrip(teams, TeamToJson, TeamFromJson);
  }

  /** A team list is stored exactly when it is non-empty. */
  lemma TeamsTruthy(teams: seq<Team>)
    ensures Truthy(TeamsToJson(teams)) <==> teams != []
  {
  }

  // ---------------------------------------------------------------------------
  // Matches

  function MatchToJson(m: Match): Json {
    JObj([("id", JInt(m.id)), ("date", JStr(m.date)), ("home_team", JStr(m.homeTeam)),
          ("away_team", JStr(m.awayTeam)), ("venue", JStr(m.venue)), ("city", JStr(m.city)),
          ("is_home", JBool(m.isHome))])
  }

  function MatchFromJson(j: Json): Option<Match> {
    if j.JObj? && |j.fields| == 7 && IntAt(j.fields, 0, "id") && StrAt(j.fields, 1, "date")
      && StrAt(j.fields, 2, "home_team") && StrAt(j.fields, 3, "away_team")
      && StrAt(j.fields, 4, "venue") && StrAt(j.fields, 5, "city") && BoolAt(j.fields, 6, "is_home")
    then
      var fs := j.fields;
      Some(Match(fs[0].1.i, fs[1].1.s, fs[2].1.s, fs[3].1.s, fs[4].1.s, fs[5].1.s, fs[6].1.b))
    else None
  }

  function MatchesToJson(matches: seq<Match>): Json {
    ListToJson(matches, MatchToJson)
  }

  function MatchesFromJson(j: Json): Option<seq<Match>> {
    if j.JArr? then ListFromJson(j.items, MatchFromJson) else None
  }

  lemma MatchesRoundTrip(matches: seq<Match>)
    ensures MatchesFromJson(MatchesToJson(matches)) == Some(matches)
  {
    ListRoundTrip(matches, MatchToJson, MatchFromJson);
  }

  /** A match list is stored exactly when it is non-empty. */
  lemma MatchesTruthy(matches: seq<Match>)
    ensures Truthy(MatchesToJson(matches)) <==> matches != []
  {
  }

  // ---------------------------------------------------------------------------
  // Match details

  function DetailsToJson(details: Option<MatchDetails>): Json {
    match details
    case None => JNull
    case Some(d) =>
      JObj([("id", JInt(d.id)), ("date", JStr(d.date)), ("home_team", JStr(d.homeTeam)),
            ("away_team", JStr(d.awayTeam)), ("venue", JStr(d.venue)), ("city", JStr(d.city)),
            ("league", JStr(d.league))])
  }

  function DetailsFromJson(j: Json): Option<Option<MatchDetails>> {
    if j.JNull? then Some(None)
    else if j.JObj? && |j.fields| == 7 && IntAt(j.fields, 0, "id") && StrAt(j.fields, 1, "date")
      && StrAt(j.fields, 2, "home_team") && StrAt(j.fields, 3, "away_team")
      && StrAt(j.fields, 4, "venue") && StrAt(j.fields, 5, "city") && StrAt(j.fields, 6, "league")
    then
      var fs := j.fields;
      Some(Some(MatchDetails(fs[0].1.i, fs[1].1.s, fs[2].1.s, fs[3].1.s, fs[4].1.s, fs[5].1.s, fs[6].1.s)))
    else None
  }

  lemma DetailsRoundTrip(details: Option<MatchDetails>)
    ensures DetailsFromJson(DetailsToJson(details)) == Some(details)
  {
  }

  /** Details are stored exactly when there are some. */
  lemma DetailsTruthy(details: Option<MatchDetails>)
    ensures Truthy(DetailsToJson(details)) <==> details.Some?
  {
  }
}
