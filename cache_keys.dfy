/**
 * The cache keys the cached services build with f-strings, and what makes them
 * unambiguous: integer ids render in decimal without `_`, so the key determines them.
 */
module CacheKeys {

  predicate IsDigit(c: char) {
    '0' <= c <= '9'
  }

  function DigitChar(d: nat): (c: char)
    requires d < 10
  {
    (48 + d) as char
  }

  function DigitValue(c: char): nat
    requires IsDigit(c)
  {
    (c as int) - 48
  }

  /** Decimal digits of `n`, most significant first, no leading zeros. */
  function NatToString(n: nat): (s: string)
    ensures |s| >= 1
    ensures forall i :: 0 <= i < |s| ==> IsDigit(s[i])
  {
    if n < 10 then [DigitChar(n)] else NatToString(n / 10) + [DigitChar(n % 10)]
  }

  /** `str(i)` for a Python int: a minus sign before the digits of a negative number. */
  function IntToString(i: int): string {
    if i < 0 then "-" + NatToString(-i) else NatToString(i)
  }

  /** Reads back a non-empty run of digits. */
  function ParseNat(s: string): nat
    requires |s| >= 1
    requires forall i :: 0 <= i < |s| ==> IsDigit(s[i])
  {
    if |s| == 1 then DigitValue(s[0]) else ParseNat(s[..|s| - 1]) * 10 + DigitValue(s[|s| - 1])
  }

  /** Reads back what `IntToString` writes. */
  function ParseInt(s: string): int
    requires |s| >= 1
    requires s[0] == '-' ==> |s| >= 2
    requires forall i :: 0 <= i < |s| ==> IsDigit(s[i]) || (i == 0 && s[i] == '-')
  {
    if s[0] == '-' then -(ParseNat(s[1..]) as int) else ParseNat(s)
  }

  lemma {:induction false} ParseNatToString(n: nat)
    ensures ParseNat(NatToString(n)) == n
  {
    if n >= 10 {
      var s := NatToString(n);
      assert s[..|s| - 1] == NatToString(n / 10);
      ParseNatToString(n / 10);
    }
  }

  /** No rendered integer contains `_`, the separator of the keys. */
  lemma IntToStringChars(i: int)
    ensures |IntToString(i)| >= 1
    ensures forall k :: 0 <= k < |IntToString(i)| ==> IsDigit(IntToString(i)[k]) || (k == 0 && IntToString(i)[k] == '-')
    ensures '_' !in IntToString(i)
  {
    var s := IntToString(i);
    if i < 0 {
      var d := NatToString(-i);
      assert forall k :: 1 <= k < |s| ==> s[k] == d[k - 1];
    }
    assert forall k :: 0 <= k < |s| ==> s[k] != '_';
  }

  /** `ParseInt` inverts `IntToString`, so distinct ints render differently. */
  lemma IntToStringRoundTrip(i: int)
    ensures |IntToString(i)| >= 1 && (IntToString(i)[0] == '-' ==> |IntToString(i)| >= 2)
    ensures forall k :: 0 <= k < |IntToString(i)| ==> IsDigit(IntToString(i)[k]) || (k == 0 && IntToString(i)[k] == '-')
    ensures ParseInt(IntToString(i)) == i
  {
    IntToStringChars(i);
    if i < 0 {
      assert IntToString(i)[1..] == NatToString(-i);
      ParseNatToString(-i);
    } else {
      assert IntToString(i)[0] != '-';
      ParseNatToString(i);
    }
  }

  lemma IntToStringInjective(a: int, b: int)
    requires IntToString(a) == IntToString(b)
    ensures a == b
  {
    IntToStringRoundTrip(a);
    IntToStringRoundTrip(b);
  }

  lemma PrefixCancel(p: string, x: string, y: string)
    requires p + x == p + y
    ensures x == y
  {
    assert x == (p + x)[|p|..];
    assert y == (p + y)[|p|..];
  }

  /** In `a + "_" + b` with no `_` in `a`, the first `_` stands at index `|a|`. */
  lemma FirstSeparator(a: string, b: string)
    requires '_' !in a
    ensures (a + "_" + b)[|a|] == '_'
    ensures forall k :: 0 <= k < |a| ==> (a + "_" + b)[k] != '_'
  {
  }

  /** Text before the first `_` is recovered from `a + "_" + b` when `a` has no `_`. */
  lemma SplitAtSeparator(a: string, b: string, c: string, d: string)
    requires '_' !in a && '_' !in c
    requires a + "_" + b == c + "_" + d
    ensures a == c && b == d
  {
    var s := a + "_" + b;
    FirstSeparator(a, b);
    FirstSeparator(c, d);
    assert |a| == |c|;
    assert a == s[..|a|];
    assert c == (c + "_" + d)[..|c|];
    assert b == s[|a| + 1..];
    assert d == (c + "_" + d)[|c| + 1..];
  }

  // ---------------------------------------------------------------------------
  // The keys

  /** `teams_league_{league_id}` */
  function TeamsKey(leagueId: int): string {
    "teams_league_" + IntToString(leagueId)
  }

  /** `matches_{team_id}_{match_type}` */
  function MatchesKey(teamId: int, matchType: string): string {
    "matches_" + IntToString(teamId) + "_" + matchType
  }

  /** `match_details_{match_id}` */
  function DetailsKey(matchId: int): string {
    "match_details_" + IntToString(matchId)
  }

  /** `flight_{origin}_{destination}_{date}` */
  function FlightKey(origin: string, destination: string, date: string): string {
    "flight_" + origin + "_" + destination + "_" + date
  }

  /** `hotel_{city}_{date}` */
  function HotelKey(city: string, date: string): string {
    "hotel_" + city + "_" + date
  }

  lemma TeamsKeyInjective(a: int, b: int)
    requires TeamsKey(a) == TeamsKey(b)
    ensures a == b
  {
    PrefixCancel("teams_league_", IntToString(a), IntToString(b));
    IntToStringInjective(a, b);
  }

  lemma DetailsKeyInjective(a: int, b: int)
    requires DetailsKey(a) == DetailsKey(b)
    ensures a == b
  {
    PrefixCancel("match_details_", IntToString(a), IntToString(b));
    IntToStringInjective(a, b);
  }

  /** The team id is an int, so the key determines both it and the match type, whatever the type holds. */
  lemma MatchesKeyInjective(team1: int, type1: string, team2: int, type2: string)
    requires MatchesKey(team1, type1) == MatchesKey(team2, type2)
    ensures team1 == team2 && type1 == type2
  {
    var s1, s2 := IntToString(team1), IntToString(team2);
    assert MatchesKey(team1, type1) == "matches_" + (s1 + "_" + type1);
    assert MatchesKey(team2, type2) == "matches_" + (s2 + "_" + type2);
    PrefixCancel("matches_", s1 + "_" + type1, s2 + "_" + type2);
    IntToStringChars(team1);
    IntToStringChars(team2);
    SplitAtSeparator(s1, type1, s2, type2);
    IntToStringInjective(team1, team2);
  }

  /** City names without `_` make the flight key determine all three arguments. */
  lemma FlightKeyInjective(o1: string, d1: string, date1: string, o2: string, d2: string, date2: string)
    requires '_' !in o1 && '_' !in d1 && '_' !in o2 && '_' !in d2
    requires FlightKey(o1, d1, date1) == FlightKey(o2, d2, date2)
    ensures o1 == o2 && d1 == d2 && date1 == date2
  {
    assert FlightKey(o1, d1, date1) == "flight_" + (o1 + "_" + (d1 + "_" + date1));
    assert FlightKey(o2, d2, date2) == "flight_" + (o2 + "_" + (d2 + "_" + date2));
    PrefixCancel("flight_", o1 + "_" + (d1 + "_" + date1), o2 + "_" + (d2 + "_" + date2));
    SplitAtSeparator(o1, d1 + "_" + date1, o2, d2 + "_" + date2);
    SplitAtSeparator(d1, date1, d2, date2);
  }

  /** A city name without `_` makes the hotel key determine city and date. */
  lemma HotelKeyInjective(c1: string, date1: string, c2: string, date2: string)
    requires '_' !in c1 && '_' !in c2
    requires HotelKey(c1, date1) == HotelKey(c2, date2)
    ensures c1 == c2 && date1 == date2
  {
    assert HotelKey(c1, date1) == "hotel_" + (c1 + "_" + date1);
    assert HotelKey(c2, date2) == "hotel_" + (c2 + "_" + date2);
    PrefixCancel("hotel_", c1 + "_" + date1, c2 + "_" + date2);
    SplitAtSeparator(c1, date1, c2, date2);
  }

  /** Without that hypothesis flight keys collide: an `_` can move between origin and destination. */
  lemma FlightKeyCollision()
    ensures FlightKey("A_B", "C", "2023-12-01") == FlightKey("A", "B_C", "2023-12-01")
  {
  }

  /** Keys of different operations never coincide, so the services share one table safely. */
  lemma KeysOfDifferentOperationsDiffer(i: int, j: int, t: string, a: string, b: string, c: string, e: string, d: string)
    ensures TeamsKey(i) != MatchesKey(j, t) && TeamsKey(i) != DetailsKey(j)
    ensures TeamsKey(i) != FlightKey(a, b, c) && TeamsKey(i) != HotelKey(e, d)
    ensures MatchesKey(j, t) != DetailsKey(i)
    ensures MatchesKey(j, t) != FlightKey(a, b, c) && MatchesKey(j, t) != HotelKey(e, d)
    ensures DetailsKey(i) != FlightKey(a, b, c) && DetailsKey(i) != HotelKey(e, d)
    ensures FlightKey(a, b, c) != HotelKey(e, d)
  {
    assert TeamsKey(i)[0] == 't';
    assert MatchesKey(j, t)[0] == 'm' && MatchesKey(j, t)[5] == 'e';
    assert DetailsKey(i)[0] == 'm' && DetailsKey(i)[5] == '_';
    assert FlightKey(a, b, c)[0] == 'f';
    assert HotelKey(e, d)[0] == 'h';
  }
}
