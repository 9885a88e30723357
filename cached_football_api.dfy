/**
 * The fixtures service behind the shared cache: teams for a week, upcoming matches
 * and match details for a day. The wrapped service runs over an upstream reply that
 * is a function of the request arguments.
 */
module CachedFootballApi {
  import opened Optional
  import opened Json
  import opened Cache
  import opened CacheKeys
  import opened CacheAside
  import opened FootballApi
  import opened FootballJson

  const TeamsTtlHours: int := 168
  const MatchesTtlHours: int := 24
  const DetailsTtlHours: int := 24

  /** What the wrapped service returns for each call, as the document it would be stored as. */
  function TeamsResult(reply: Reply<Option<TeamItem>>): Json {
    TeamsToJson(TeamsFromReply(reply))
  }

  function MatchesResult(reply: Reply<FixtureItem>, teamId: int, matchType: string): Json {
    MatchesToJson(MatchesFromReply(reply, teamId, matchType))
  }

  function DetailsResult(reply: Reply<FixtureItem>): Json {
    DetailsToJson(DetailsFromReply(reply))
  }

  class CachedFootballService {
    const store: APICache
    var cacheEnabled: bool
    const teamsReply: int -> Reply<Option<TeamItem>>
    const fixturesReply: int -> Reply<FixtureItem>
    const detailsReply: int -> Reply<FixtureItem>
    /** How many times a call reached the wrapped service. */
    ghost var providerCalls: nat

    constructor (store: APICache, teamsReply: int -> Reply<Option<TeamItem>>,
                 fixturesReply: int -> Reply<FixtureItem>, detailsReply: int -> Reply<FixtureItem>)
      ensures this.store == store && cacheEnabled && providerCalls == 0
      ensures this.teamsReply == teamsReply && this.fixturesReply == fixturesReply
      ensures this.detailsReply == detailsReply
    {
      this.store := store;
      cacheEnabled := true;
      this.teamsReply := teamsReply;
      this.fixturesReply := fixturesReply;
      this.detailsReply := detailsReply;
      providerCalls := 0;
    }

    method GetTeamsByLeague(leagueId: int, now: int) returns (r: Json)
      modifies store, this`providerCalls
      ensures var key, fetched := TeamsKey(leagueId), TeamsResult(teamsReply(leagueId));
        && r == Answer(cacheEnabled, old(store.entries), key, now, fetched)
        && store.entries == StoreAfter(cacheEnabled, old(store.entries), key, "teams", TeamsTtlHours, now, fetched)
        && providerCalls == old(providerCalls) + (if IsHit(cacheEnabled, old(store.entries), key, now) then 0 else 1)
    {
      var key := TeamsKey(leagueId);
      if cacheEnabled {
        var cached := store.GetCached(key, now);
        if cached.Some? {
          return cached.value;
        }
      }
      var teams := FootballApi.GetTeamsByLeague(teamsReply(leagueId));
      providerCalls := providerCalls + 1;
      r := TeamsToJson(teams);
      if cacheEnabled && Truthy(r) {
        store.SetCache(key, "teams", r, now, TeamsTtlHours);
      }
    }

    method GetUpcomingMatches(teamId: int, now: int, matchType: string := "all") returns (r: Json)
      modifies store, this`providerCalls
      ensures var key, fetched := MatchesKey(teamId, matchType), MatchesResult(fixturesReply(teamId), teamId, matchType);
        && r == Answer(cacheEnabled, old(store.entries), key, now, fetched)
        && store.entries == StoreAfter(cacheEnabled, old(store.entries), key, "matches", MatchesTtlHours, now, fetched)
        && providerCalls == old(providerCalls) + (if IsHit(cacheEnabled, old(store.entries), key, now) then 0 else 1)
    {
      var key := MatchesKey(teamId, matchType);
      if cacheEnabled {
        var cached := store.GetCached(key, now);
        if cached.Some? {
          return cached.value;
        }
      }
      var matches := FootballApi.GetUpcomingMatches(fixturesReply(teamId), teamId, matchType);
      providerCalls := providerCalls + 1;
      r := MatchesToJson(matches);
      if cacheEnabled && Truthy(r) {
        store.SetCache(key, "matches", r, now, MatchesTtlHours);
      }
    }

    method GetMatchDetails(matchId: int, now: int) returns (r: Json)
      modifies store, this`providerCalls
      ensures var key, fetched := DetailsKey(matchId), DetailsResult(detailsReply(matchId));
        && r == Answer(cacheEnabled, old(store.entries), key, now, fetched)
        && store.entries == StoreAfter(cacheEnabled, old(store.entries), key, "match_details", DetailsTtlHours, now, fetched)
        && providerCalls == old(providerCalls) + (if IsHit(cacheEnabled, old(store.entries), key, now) then 0 else 1)
    {
      var key := DetailsKey(matchId);
      if cacheEnabled {
        var cached := store.GetCached(key, now);
        if cached.Some? {
          return cached.value;
        }
      }
      var details := DetailsFromReply(detailsReply(matchId));
      providerCalls := providerCalls + 1;
      r := DetailsToJson(details);
      if cacheEnabled && Truthy(r) {
        store.SetCache(key, "match_details", r, now, DetailsTtlHours);
      }
    }
  }

  /**
   * A failed or empty teams reply is never cached: the key stays absent and the
   * next identical call reaches the service again.
   */
  lemma EmptyTeamsNotCached(t: Table, leagueId: int, reply: Reply<Option<TeamItem>>, now: int, later: int)
    requires !IsHit(true, t, TeamsKey(leagueId), now)
    requires TeamsFromReply(reply) == []
    ensures var t' := StoreAfter(true, t, TeamsKey(leagueId), "teams", TeamsTtlHours, now, TeamsResult(reply));
      TeamsKey(leagueId) !in t' && !IsHit(true, t', TeamsKey(leagueId), later)
  {
    TeamsTruthy(TeamsFromReply(reply));
    NegativeNotCached(t, TeamsKey(leagueId), "teams", TeamsTtlHours, now, TeamsResult(reply), later);
  }

  /** Missing match details are never cached. */
  lemma MissingDetailsNotCached(t: Table, matchId: int, reply: Reply<FixtureItem>, now: int, later: int)
    requires !IsHit(true, t, DetailsKey(matchId), now)
    requires DetailsFromReply(reply) == None
    ensures var t' := StoreAfter(true, t, DetailsKey(matchId), "match_details", DetailsTtlHours, now, DetailsResult(reply));
      DetailsKey(matchId) !in t' && !IsHit(true, t', DetailsKey(matchId), later)
  {
  }

  /**
   * A non-empty teams list is stored for a week under `teams_league_{id}`, and whatever
   * the call answers, hit or miss, decodes to the teams the service produced for that key.
   */
  lemma TeamsStoredAndDecoded(t: Table, leagueId: int, reply: Reply<Option<TeamItem>>, now: int, later: int)
    requires !IsHit(true, t, TeamsKey(leagueId), now)
    requires TeamsFromReply(reply) != []
    requires now <= later < now + TeamsTtlHours * SecondsPerHour
    ensures var t' := StoreAfter(true, t, TeamsKey(leagueId), "teams", TeamsTtlHours, now, TeamsResult(reply));
      && TeamsKey(leagueId) in t'
      && t'[TeamsKey(leagueId)].cacheType == "teams"
      && t'[TeamsKey(leagueId)].expiresAt == now + 168 * 3600
      && TeamsFromJson(Answer(true, t, TeamsKey(leagueId), now, TeamsResult(reply))) == Some(TeamsFromReply(reply))
      && TeamsFromJson(Answer(true, t', TeamsKey(leagueId), later, TeamsResult(reply))) == Some(TeamsFromReply(reply))
  {
    var teams := TeamsFromReply(reply);
    TeamsTruthy(teams);
    TeamsRoundTrip(teams);
    RepeatWithinTtlHits(t, TeamsKey(leagueId), "teams", TeamsTtlHours, now, TeamsResult(reply), later, TeamsResult(reply));
  }

  /** A non-empty match list is stored for a day and decodes back to the same matches. */
  lemma MatchesStoredAndDecoded(t: Table, teamId: int, matchType: string, reply: Reply<FixtureItem>, now: int)
    requires !IsHit(true, t, MatchesKey(teamId, matchType), now)
    requires MatchesFromReply(reply, teamId, matchType) != []
    ensures var key := MatchesKey(teamId, matchType);
      var t' := StoreAfter(true, t, key, "matches", MatchesTtlHours, now, MatchesResult(reply, teamId, matchType));
      && key in t'
      && t'[key].cacheType == "matches"
      && t'[key].expiresAt == now + 24 * 3600
      && MatchesFromJson(t'[key].responseData) == Some(MatchesFromReply(reply, teamId, matchType))
  {
    var matches := MatchesFromReply(reply, teamId, matchType);
    MatchesTruthy(matches);
    MatchesRoundTrip(matches);
  }

  /** Found match details are stored for a day and decode back to the same record. */
  lemma DetailsStoredAndDecoded(t: Table, matchId: int, reply: Reply<FixtureItem>, now: int)
    requires !IsHit(true, t, DetailsKey(matchId), now)
    requires DetailsFromReply(reply).Some?
    ensures var key := DetailsKey(matchId);
      var t' := StoreAfter(true, t, key, "match_details", DetailsTtlHours, now, DetailsResult(reply));
      && key in t'
      && t'[key].cacheType == "match_details"
      && t'[key].expiresAt == now + 24 * 3600
      && DetailsFromJson(t'[key].responseData) == Some(DetailsFromReply(reply))
  {
    DetailsRoundTrip(DetailsFromReply(reply));
  }
}
