/**
 * The proxy's HTTP routes: `GET /api/jira-data`, which serves the dashboard
 * from the cache or builds it from Jira, and `POST /api/cache/invalidate`.
 * A response is its status code and its JSON body; headers, the request
 * timer and logging are not modelled.
 */
module Routes {
  import opened Wrappers
  import opened TtlCache
  import opened JiraClient
  import opened Aggregator
  import opened Config

  const DashboardKey := "dashboard-data"

  const InvalidCredentials := "Authentication failed: Invalid Jira credentials"
  const AccessDenied := "Authentication failed: Access denied"
  const TimedOut := "Request to Jira API timed out after 30s"
  const Unavailable := "Jira API is currently unavailable"
  const RateLimited := "Rate limit exceeded, please try again later"
  const Unexpected := "An unexpected error occurred"
  const NoBoardsFound := "No boards found in Jira"
  const Invalidated := "Cache invalidated successfully"

  /** `createErrorResponse`'s object, without its timestamp. */
  datatype ErrorResponse = ErrorResponse(error: string, statusCode: int)

  datatype Body =
    | DataBody(data: DashboardData)
    | ErrorBody(failure: ErrorResponse)
    | InvalidatedBody(success: bool, message: string)

  datatype Response = Response(status: int, body: Body)

  /** `res.status(statusCode).json(createErrorResponse(statusCode, message))`. */
  function Fail(statusCode: int, message: string): Response {
    Response(statusCode, ErrorBody(ErrorResponse(message, statusCode)))
  }

  /** `error.response?.status`; an empty board listing is a plain `Error` without one. */
  function StatusOf(f: Failure): Option<int> {
    if f.Jira? then f.error.status else None
  }

  /** `error.code`. */
  function CodeOf(f: Failure): Option<string> {
    if f.Jira? then f.error.code else None
  }

  predicate IsTimeoutCode(c: Option<string>) {
    c == Some("ECONNABORTED") || c == Some("ETIMEDOUT")
  }

  predicate IsUnreachableCode(c: Option<string>) {
    c == Some("ENOTFOUND") || c == Some("ECONNREFUSED")
  }

  /**
   * The catch ladder of the GET handler. Jira's 401 and 403 both become 401;
   * a network code outranks 429 and 5xx; whatever is left is a generic 500.
   */
  function ErrorReply(f: Failure): (r: Response)
    ensures r.body.ErrorBody? && r.body.failure.statusCode == r.status
    ensures r.status in {401, 429, 500, 503, 504}
    ensures r.status == 401 <==> StatusOf(f) == Some(401) || StatusOf(f) == Some(403)
    ensures r.status == 504 <==> StatusOf(f) != Some(401) && StatusOf(f) != Some(403) && IsTimeoutCode(CodeOf(f))
    ensures r.status == 429 <==>
      StatusOf(f) == Some(429) && !IsTimeoutCode(CodeOf(f)) && !IsUnreachableCode(CodeOf(f))
    ensures r.status == 503 ==> IsUnreachableCode(CodeOf(f)) || (StatusOf(f).Some? && StatusOf(f).value >= 500)
    ensures r.status == 500 <==>
      (StatusOf(f).None? || StatusOf(f).value < 500) && StatusOf(f) !in {Some(401), Some(403), Some(429)} &&
      !IsTimeoutCode(CodeOf(f)) && !IsUnreachableCode(CodeOf(f))
  {
    var status := StatusOf(f);
    var code := CodeOf(f);
    if status == Some(401) then Fail(401, InvalidCredentials)
    else if status == Some(403) then Fail(401, AccessDenied)
    else if IsTimeoutCode(code) then Fail(504, TimedOut)
    else if IsUnreachableCode(code) then Fail(503, Unavailable)
    else if status == Some(429) then Fail(429, RateLimited)
    else if status.Some? && status.value >= 500 then Fail(503, Unavailable)
    else Fail(500, Unexpected)
  }

  /** An empty board listing reaches the handler as a generic error. */
  lemma NoBoardsIsUnexpected()
    ensures ErrorReply(NoBoards) == Fail(500, Unexpected)
  {
  }

  /** What the 401 response says tells Jira's 401 from its 403. */
  lemma AuthMessages(e: HttpError)
    requires e.status == Some(401) || e.status == Some(403)
    ensures ErrorReply(Jira(e)).body.failure.error == (if e.status == Some(401) then InvalidCredentials else AccessDenied)
  {
  }

  /** A cached dashboard under `dashboard-data`; a value of another kind is a miss. */
  function CachedDashboard(store: Store<CachedValue>, now: int): Option<DashboardData> {
    var v := Lookup(store, DashboardKey, now);
    if v.Some? && v.value.DashboardValue? then Some(v.value.data) else None
  }

  /** The GET handler's response and the cache it leaves behind. */
  function GetJiraData(store: Store<CachedValue>, remote: Remote, config: ProxyConfig, now: int, today: string)
    : (Response, Store<CachedValue>)
  {
    var hit := CachedDashboard(store, now);
    if hit.Some? then (Response(200, DataBody(hit.value)), store)
    else
      var afterGet := AfterLookup(store, DashboardKey, now);
      var (boards, s1) := BoardsRun(afterGet, remote, config.projectKeys, now);
      if boards.Err? then (ErrorReply(boards.error), s1)
      else if |boards.value| == 0 then (Fail(503, NoBoardsFound), s1)
      else
        var (d, s2) := Dashboard(s1, remote, boards.value, now, today);
        (Response(200, DataBody(d)), Put(s2, DashboardKey, DashboardValue(d), config.cacheTtl, now))
  }

  /** `GET /api/jira-data`. */
  method HandleGet(cache: DashboardCache, remote: Remote, config: ProxyConfig, now: int, today: string)
    returns (r: Response)
    modifies cache
    ensures (r, cache.store) == GetJiraData(old(cache.store), remote, config, now, today)
  {
    var cached := cache.Get(DashboardKey, now);
    if cached.Some? && cached.value.DashboardValue? {
      return Response(200, DataBody(cached.value.data));
    }
    var boards := FetchAllBoardsData(cache, remote, config.projectKeys, now);
    if boards.Err? {
      return ErrorReply(boards.error);
    }
    if |boards.value| == 0 {
      return Fail(503, NoBoardsFound);
    }
    var d := AggregateSquadsData(cache, remote, boards.value, now, today);
    cache.Set(DashboardKey, DashboardValue(d), config.cacheTtl, now);
    return Response(200, DataBody(d));
  }

  /** A live cached dashboard is served as it is, and nothing is fetched or stored. */
  lemma GetServesCache(store: Store<CachedValue>, remote: Remote, config: ProxyConfig, now: int, today: string)
    requires CachedDashboard(store, now).Some?
    ensures var (r, s) := GetJiraData(store, remote, config, now, today);
      r == Response(200, DataBody(CachedDashboard(store, now).value)) && s == store
  {
  }

  /** Every error response carries its own status code in its body. */
  lemma ErrorBodiesAgree(store: Store<CachedValue>, remote: Remote, config: ProxyConfig, now: int, today: string)
    ensures var (r, _) := GetJiraData(store, remote, config, now, today);
      r.body.ErrorBody? ==> r.body.failure.statusCode == r.status
  {
  }

  /** A freshly built dashboard is returned with status 200 and cached with the configured lifetime. */
  lemma GetCachesDashboard(store: Store<CachedValue>, remote: Remote, config: ProxyConfig, now: int, today: string)
    ensures var (r, s) := GetJiraData(store, remote, config, now, today);
      r.body.DataBody? && CachedDashboard(store, now).None? ==>
        r.status == 200 && s[DashboardKey] == CacheEntry(DashboardValue(r.body.data), now, config.cacheTtl)
  {
  }

  /** No cached board configuration list is empty. */
  ghost predicate ConfigListsNonEmpty(store: Store<CachedValue>) {
    forall k | k in store && store[k].data.ConfigsValue? :: |store[k].data.configs| > 0
  }

  /**
   * With no empty list in the cache, the handler's "No boards found" branch
   * is dead: an empty listing has already failed as a generic 500.
   */
  lemma NoBoardsBranchUnreachable(store: Store<CachedValue>, remote: Remote, config: ProxyConfig, now: int, today: string)
    requires ConfigListsNonEmpty(store)
    ensures GetJiraData(store, remote, config, now, today).0 != Fail(503, NoBoardsFound)
  {
    var afterGet := AfterLookup(store, DashboardKey, now);
    var key := BoardsCacheKey(config.projectKeys);
    var v := Lookup(afterGet, key, now);
    if v.Some? && v.value.ConfigsValue? {
      assert key in afterGet && afterGet[key] == store[key];
    }
  }

  /** An empty board listing, with nothing cached, ends in the generic 500. */
  lemma EmptyListingIsUnexpected(store: Store<CachedValue>, remote: Remote, config: ProxyConfig, now: int, today: string)
    requires CachedDashboard(store, now).None?
    requires CachedConfigs(AfterLookup(store, DashboardKey, now), BoardsCacheKey(config.projectKeys), now).None?
    requires remote.boards == Ok([])
    ensures GetJiraData(store, remote, config, now, today).0 == Fail(500, Unexpected)
  {
  }

  // ---------------------------------------------------------------------
  // POST /api/cache/invalidate

  /** The store after the invalidation route as written. */
  function InvalidatedAsWritten(store: Store<CachedValue>): Store<CachedValue> {
    store - {DashboardKey, BoardsCacheKey(None)}
  }

  /** The invalidation route as written: it drops `dashboard-data` and `all-boards-config`. */
  method InvalidateAsWritten(cache: DashboardCache) returns (r: Response)
    modifies cache
    ensures cache.store == InvalidatedAsWritten(old(cache.store))
    ensures r == Response(200, InvalidatedBody(true, Invalidated))
  {
    cache.Invalidate(DashboardKey);
    cache.Invalidate(BoardsCacheKey(None));
    return Response(200, InvalidatedBody(true, Invalidated));
  }

  /**
   * With project keys configured the boards are cached under a filtered key,
   * which the route as written leaves in place: the next request is served
   * the board list from before the invalidation.
   */
  lemma InvalidateAsWrittenKeepsFilteredBoards(store: Store<CachedValue>, keys: seq<string>, now: int)
    ensures CachedConfigs(InvalidatedAsWritten(store), BoardsCacheKey(Some(keys)), now)
      == CachedConfigs(store, BoardsCacheKey(Some(keys)), now)
  {
    UnfilteredKeyIsOwn(keys);
    assert BoardsCacheKey(Some(keys)) != DashboardKey by {
      assert BoardsCacheKey(Some(keys))[0] == 'a';
    }
    var s := InvalidatedAsWritten(store);
    var key := BoardsCacheKey(Some(keys));
    assert key in s <==> key in store;
    if key in s {
      assert s[key] == store[key];
    }
  }

  /** A concrete cache where the stale filtered list survives. */
  lemma InvalidateAsWrittenCounterexample(configs: seq<BoardConfig>)
    ensures var key := BoardsCacheKey(Some(["PROJ"]));
      var store := map[key := CacheEntry(ConfigsValue(configs), 0, Some(BoardsTtl))];
      CachedConfigs(InvalidatedAsWritten(store), key, 1000) == Some(configs)
  {
    var key := BoardsCacheKey(Some(["PROJ"]));
    var store := map[key := CacheEntry(ConfigsValue(configs), 0, Some(BoardsTtl))];
    InvalidateAsWrittenKeepsFilteredBoards(store, ["PROJ"], 1000);
  }

  /** The store after invalidating the dashboard and the board list the configuration uses. */
  function InvalidatedFor(store: Store<CachedValue>, config: ProxyConfig): Store<CachedValue> {
    store - {DashboardKey, BoardsCacheKey(config.projectKeys)}
  }

  /** `POST /api/cache/invalidate`, dropping the board list under the key the GET route reads. */
  method Invalidate(cache: DashboardCache, config: ProxyConfig) returns (r: Response)
    modifies cache
    ensures cache.store == InvalidatedFor(old(cache.store), config)
    ensures r == Response(200, InvalidatedBody(true, Invalidated))
  {
    cache.Invalidate(DashboardKey);
    cache.Invalidate(BoardsCacheKey(config.projectKeys));
    return Response(200, InvalidatedBody(true, Invalidated));
  }

  /**
   * After invalidation the next GET rebuilds the dashboard from a fresh
   * board listing: neither the dashboard nor the list it would use is cached.
   */
  lemma InvalidateForcesRefetch(store: Store<CachedValue>, config: ProxyConfig, now: int)
    ensures var s := InvalidatedFor(store, config);
      CachedDashboard(s, now).None? &&
      CachedConfigs(AfterLookup(s, DashboardKey, now), BoardsCacheKey(config.projectKeys), now).None?
  {
  }

  /** Every other entry (sprint collection, board history vocabularies) is kept as it was. */
  lemma InvalidateKeepsOthers(store: Store<CachedValue>, config: ProxyConfig, key: string, now: int)
    requires key != DashboardKey && key != BoardsCacheKey(config.projectKeys)
    ensures Lookup(InvalidatedFor(store, config), key, now) == Lookup(store, key, now)
  {
    var s := InvalidatedFor(store, config);
    assert key in s <==> key in store;
    if key in s {
      assert s[key] == store[key];
    }
  }

  /** The sprint collection survives invalidation. */
  lemma InvalidateKeepsSprints(store: Store<CachedValue>, config: ProxyConfig, now: int)
    ensures Lookup(InvalidatedFor(store, config), SprintsKey, now) == Lookup(store, SprintsKey, now)
  {
    var key := BoardsCacheKey(config.projectKeys);
    assert SprintsKey != key by {
      assert SprintsKey[4] == 's' && key[4] == 'b';
    }
    InvalidateKeepsOthers(store, config, SprintsKey, now);
  }
}
