/**
 * The request handlers of server/index.js that compose the cache, the token
 * lifecycle and the error mapper: authentication and parameter checks, the
 * cached reads, the history aggregation, the two-strategy set-current and
 * the pause/resume commands, and login.
 *
 * Every handler returns the HTTP reply and `calls`, the bearer tokens that
 * were presented to the upstream API, in order; an empty `calls` means no
 * upstream call was made.
 */
module Handlers {
  import opened JsValues
  import opened Upstream
  import opened ResponseCache
  import opened TokenLifecycle
  import opened History

  datatype Body = Payload(v: Js) | Error(error: Text)

  datatype HttpReply = HttpReply(status: int, body: Body)

  /** `res.json(v)` */
  function Success(v: Js): HttpReply {
    HttpReply(200, Payload(v))
  }

  /** `res.status(status).json({ error: message })` */
  function Rejection(status: int, message: string): HttpReply {
    HttpReply(status, Error([Lit(message)]))
  }

  /** The reply for an upstream failure, through the error mapper. */
  function MappedReply(e: Failure): (r: HttpReply)
    ensures r.status == MapError(e).status && r.body == Error(MapError(e).error)
    ensures r.status != 200 || HasStatus(e, 200)
  {
    var m := MapError(e);
    HttpReply(m.status, Error(m.error))
  }

  const NotAuthenticated := Rejection(401, "Not authenticated")

  /** `requireAuth`: a session with a truthy access token. */
  predicate Authenticated(t: Tokens)
    ensures Authenticated(t) ==> t.accessToken !in {Undefined, Null, Str("")}
    ensures t.accessToken.Str? && t.accessToken.s != "" ==> Authenticated(t)
  {
    Truthy(t.accessToken)
  }

  const StateTtlMs := 3000
  const ChargersTtlMs := 30000
  const OngoingTtlMs := 3000
  const HistoryCacheTtlMs := 60000

  /** `{ ok: true, response }` and `{ ok: true, via, response }` */
  function CommandJson(response: Js): Js {
    Obj(map["ok" := Bool(true), "response" := response])
  }

  function ViaJson(via: string, response: Js): (r: Js)
    ensures Get(r, "via") == Str(via) && Get(r, "response") == response && Get(r, "ok") == Bool(true)
  {
    Obj(map["ok" := Bool(true), "via" := Str(via), "response" := response])
  }

  /** `GET /api/state`: cached for 3 seconds; a falsy cached value counts as a miss. */
  method GetState(cache: Cache, session: Session, chargerId: string, now: int, x: Exchange)
    returns (reply: HttpReply, calls: seq<Js>)
    modifies cache, session
    ensures !Authenticated(old(session.Current())) ==> reply == NotAuthenticated
    ensures Authenticated(old(session.Current())) && chargerId == "" ==> reply == Rejection(400, "chargerId is required")
    ensures !Authenticated(old(session.Current())) || chargerId == "" ==>
      calls == [] && session.Current() == old(session.Current()) && cache.entries == old(cache.entries)
    ensures Authenticated(old(session.Current())) && chargerId != "" ==>
      var key := "state:" + chargerId;
      var cached := Lookup(cache.enabled, old(cache.entries), key, now);
      var m := AfterLookup(cache.enabled, old(cache.entries), key, now);
      var run := AutoRefresh(old(session.Current()), now, x);
      if Truthy(cached) then
        reply == Success(cached) && calls == [] && session.Current() == old(session.Current()) && cache.entries == m
      else
        && calls == run.calls
        && session.Current() == run.tokens
        && (run.result.Ok? ==> reply == Success(run.result.data) && cache.entries == Store(cache.enabled, m, key, run.result.data, StateTtlMs, now))
        && (run.result.Fail? ==> reply == MappedReply(run.result.err) && cache.entries == m)
  {
    if !Truthy(session.accessToken) {
      return NotAuthenticated, [];
    }
    if chargerId == "" {
      return Rejection(400, "chargerId is required"), [];
    }
    var key := "state:" + chargerId;
    var cached := cache.Get(key, now);
    if Truthy(cached) {
      return Success(cached), [];
    }
    var result;
    result, calls := session.WithAutoRefresh(now, x);
    match result
    case Ok(data) =>
      cache.Set(key, data, StateTtlMs, now);
      reply := Success(data);
    case Fail(e) =>
      reply := MappedReply(e);
  }

  /** `GET /api/chargers`: one process-wide key, cached for 30 seconds. */
  method GetChargers(cache: Cache, session: Session, now: int, x: Exchange)
    returns (reply: HttpReply, calls: seq<Js>)
    modifies cache, session
    ensures !Authenticated(old(session.Current())) ==>
      reply == NotAuthenticated && calls == [] && session.Current() == old(session.Current()) && cache.entries == old(cache.entries)
    ensures Authenticated(old(session.Current())) ==>
      var cached := Lookup(cache.enabled, old(cache.entries), "chargers:list", now);
      var m := AfterLookup(cache.enabled, old(cache.entries), "chargers:list", now);
      var run := AutoRefresh(old(session.Current()), now, x);
      if Truthy(cached) then
        reply == Success(cached) && calls == [] && session.Current() == old(session.Current()) && cache.entries == m
      else
        && calls == run.calls
        && session.Current() == run.tokens
        && (run.result.Ok? ==> reply == Success(run.result.data) && cache.entries == Store(cache.enabled, m, "chargers:list", run.result.data, ChargersTtlMs, now))
        && (run.result.Fail? ==> reply == MappedReply(run.result.err) && cache.entries == m)
  {
    if !Truthy(session.accessToken) {
      return NotAuthenticated, [];
    }
    var cached := cache.Get("chargers:list", now);
    if Truthy(cached) {
      return Success(cached), [];
    }
    var result;
    result, calls := session.WithAutoRefresh(now, x);
    match result
    case Ok(data) =>
      cache.Set("chargers:list", data, ChargersTtlMs, now);
      reply := Success(data);
    case Fail(e) =>
      reply := MappedReply(e);
  }

  /**
   * `GET /api/session`: the ongoing charging session. An upstream 404 means
   * that there is none and is answered with `null` (and not cached); a
   * cached `null` is served as a hit.
   */
  method GetOngoingSession(cache: Cache, session: Session, chargerId: string, now: int, x: Exchange)
    returns (reply: HttpReply, calls: seq<Js>)
    modifies cache, session
    ensures !Authenticated(old(session.Current())) ==> reply == NotAuthenticated
    ensures Authenticated(old(session.Current())) && chargerId == "" ==> reply == Rejection(400, "chargerId is required")
    ensures !Authenticated(old(session.Current())) || chargerId == "" ==>
      calls == [] && session.Current() == old(session.Current()) && cache.entries == old(cache.entries)
    ensures Authenticated(old(session.Current())) && chargerId != "" ==>
      var key := "session:" + chargerId;
      var cached := Lookup(cache.enabled, old(cache.entries), key, now);
      var m := AfterLookup(cache.enabled, old(cache.entries), key, now);
      var run := AutoRefresh(old(session.Current()), now, x);
      if cached != Undefined then
        reply == Success(cached) && calls == [] && session.Current() == old(session.Current()) && cache.entries == m
      else
        && calls == run.calls
        && session.Current() == run.tokens
        && (run.result.Ok? ==>
              reply == Success(run.result.data) && cache.entries == Store(cache.enabled, m, key, Coalesce(run.result.data, Null), OngoingTtlMs, now))
        && (run.result.Fail? && HasStatus(run.result.err, 404) ==> reply == Success(Null) && cache.entries == m)
        && (run.result.Fail? && !HasStatus(run.result.err, 404) ==> reply == MappedReply(run.result.err) && cache.entries == m)
  {
    if !Truthy(session.accessToken) {
      return NotAuthenticated, [];
    }
    if chargerId == "" {
      return Rejection(400, "chargerId is required"), [];
    }
    var key := "session:" + chargerId;
    var cached := cache.Get(key, now);
    if cached != Undefined {
      return Success(cached), [];
    }
    var result;
    result, calls := session.WithAutoRefresh(now, x);
    match result
    case Ok(data) =>
      cache.Set(key, Coalesce(data, Null), OngoingTtlMs, now);
      reply := Success(data);
    case Fail(e) =>
      if ReportedStatus(e) == 404 {
        reply := Success(Null);
      } else {
        reply := MappedReply(e);
      }
  }

  /**
   * The reply built from a session list: the `{from, to, sessionsCount,
   * totalKwh, sessions}` summary, or the mapped TypeError that iterating a
   * non-array or reading a field of a null record raises.
   */
  function HistoryReply(sessions: Js, fromIso: string, toIso: string): (r: HttpReply)
    ensures r.status == 200 <==> sessions.Arr? && Readable(sessions.elems)
    ensures r.status != 200 ==> r == MappedReply(Internal("TypeError"))
    ensures r.status == 200 ==>
      && r.body == Payload(SummaryJson(fromIso, toIso, sessions.elems, TotalKwh(sessions.elems)))
      && Get(r.body.v, "from") == Str(fromIso) && Get(r.body.v, "to") == Str(toIso)
      && Get(r.body.v, "sessionsCount") == Num(|sessions.elems| as real)
      && Get(r.body.v, "totalKwh") == Num(TotalKwh(sessions.elems))
      && Get(r.body.v, "sessions") == sessions
  {
    if sessions.Arr? && Readable(sessions.elems) then
      Success(SummaryJson(fromIso, toIso, sessions.elems, TotalKwh(sessions.elems)))
    else
      MappedReply(Internal("TypeError"))
  }

  /** What a handler leaves behind: its reply, the tokens it presented upstream, the session and the cache entries. */
  datatype Handled = Handled(reply: HttpReply, calls: seq<Js>, tokens: Tokens, entries: map<string, Entry>)

  /**
   * The history endpoints once their parameters are checked: a cached list
   * (anything but null or undefined) is used as it is, otherwise the list is
   * fetched with 404 and non-array bodies read as `[]`; the list is cached
   * for 60 seconds unless the cached value was truthy.
   */
  function HistoryFlow(enabled: bool, m: map<string, Entry>, key: string, fromIso: string, toIso: string,
                       t: Tokens, now: int, x: Exchange): (h: Handled)
    ensures h.calls == [] || h.calls == AutoRefresh(t, now, Then(x, SessionList)).calls
    ensures h.calls == [] <==> !Nullish(Lookup(enabled, m, key, now))
    ensures h.calls == [] ==> h.tokens == t
    ensures var cached := Lookup(enabled, m, key, now);
      var run := AutoRefresh(t, now, Then(x, SessionList));
      && (!Nullish(cached) ==> h.reply == HistoryReply(cached, fromIso, toIso))
      && (Truthy(cached) ==> h.entries == AfterLookup(enabled, m, key, now))
      && (!Nullish(cached) && !Truthy(cached) ==>
            h.entries == Store(enabled, AfterLookup(enabled, m, key, now), key, cached, HistoryCacheTtlMs, now))
      && (Nullish(cached) ==> h.tokens == run.tokens)
      && (Nullish(cached) && run.result.Ok? ==>
            && h.reply == HistoryReply(run.result.data, fromIso, toIso)
            && h.entries == Store(enabled, AfterLookup(enabled, m, key, now), key, run.result.data, HistoryCacheTtlMs, now))
      && (Nullish(cached) && run.result.Fail? ==>
            && h.reply == MappedReply(run.result.err)
            && h.entries == AfterLookup(enabled, m, key, now))
  {
    var cached := Lookup(enabled, m, key, now);
    var m1 := AfterLookup(enabled, m, key, now);
    if !Nullish(cached) then
      Handled(HistoryReply(cached, fromIso, toIso), [], t,
              if Truthy(cached) then m1 else Store(enabled, m1, key, cached, HistoryCacheTtlMs, now))
    else
      var run := AutoRefresh(t, now, Then(x, SessionList));
      match run.result
      case Fail(e) => Handled(MappedReply(e), run.calls, run.tokens, m1)
      case Ok(data) => Handled(HistoryReply(data, fromIso, toIso), run.calls, run.tokens, Store(enabled, m1, key, data, HistoryCacheTtlMs, now))
  }

  /** The shared body of the two history endpoints once their parameters are checked. */
  method SessionHistory(cache: Cache, session: Session, key: string, fromIso: string, toIso: string, now: int, x: Exchange)
    returns (reply: HttpReply, calls: seq<Js>)
    modifies cache, session
    ensures Handled(reply, calls, session.Current(), cache.entries)
         == HistoryFlow(cache.enabled, old(cache.entries), key, fromIso, toIso, old(session.Current()), now, x)
  {
    var cached := cache.Get(key, now);
    var sessions := cached;
    calls := [];
    if Nullish(cached) {
      var result;
      result, calls := session.WithAutoRefresh(now, Then(x, SessionList));
      if result.Fail? {
        return MappedReply(result.err), calls;
      }
      sessions := result.data;
    }
    if !Truthy(cached) {
      cache.Set(key, sessions, HistoryCacheTtlMs, now);
    }
    if !sessions.Arr? {
      return MappedReply(Internal("TypeError")), calls;
    }
    var total := Aggregate(sessions.elems);
    if total.None? {
      return MappedReply(Internal("TypeError")), calls;
    }
    reply := Success(SummaryJson(fromIso, toIso, sessions.elems, total.value));
  }

  /**
   * `GET /api/sessions-24h`: the trailing 24 hours. `fromIso` and `toIso` are
   * the ISO texts of `now - 24h` and `now`; they are part of the cache key.
   */
  method GetSessions24h(cache: Cache, session: Session, chargerId: string, fromIso: string, toIso: string, now: int, x: Exchange)
    returns (reply: HttpReply, calls: seq<Js>)
    modifies cache, session
    ensures !Authenticated(old(session.Current())) ==> reply == NotAuthenticated
    ensures Authenticated(old(session.Current())) && chargerId == "" ==> reply == Rejection(400, "chargerId is required")
    ensures !Authenticated(old(session.Current())) || chargerId == "" ==>
      calls == [] && session.Current() == old(session.Current()) && cache.entries == old(cache.entries)
    ensures Authenticated(old(session.Current())) && chargerId != "" ==>
      Handled(reply, calls, session.Current(), cache.entries)
      == HistoryFlow(cache.enabled, old(cache.entries), "sessions24h:" + chargerId + ":" + fromIso + ":" + toIso,
                     fromIso, toIso, old(session.Current()), now, x)
  {
    if !Truthy(session.accessToken) {
      return NotAuthenticated, [];
    }
    if chargerId == "" {
      return Rejection(400, "chargerId is required"), [];
    }
    reply, calls := SessionHistory(cache, session, "sessions24h:" + chargerId + ":" + fromIso + ":" + toIso, fromIso, toIso, now, x);
  }

  /** `GET /api/sessions-range`: an arbitrary window given by the caller. */
  method GetSessionsRange(cache: Cache, session: Session, chargerId: string, fromIso: string, toIso: string, now: int, x: Exchange)
    returns (reply: HttpReply, calls: seq<Js>)
    modifies cache, session
    ensures !Authenticated(old(session.Current())) ==> reply == NotAuthenticated
    ensures Authenticated(old(session.Current())) && chargerId == "" ==> reply == Rejection(400, "chargerId is required")
    ensures Authenticated(old(session.Current())) && chargerId != "" && (fromIso == "" || toIso == "") ==>
      reply == Rejection(400, "from and to are required ISO timestamps")
    ensures !Authenticated(old(session.Current())) || chargerId == "" || fromIso == "" || toIso == "" ==>
      calls == [] && session.Current() == old(session.Current()) && cache.entries == old(cache.entries)
    ensures Authenticated(old(session.Current())) && chargerId != "" && fromIso != "" && toIso != "" ==>
      Handled(reply, calls, session.Current(), cache.entries)
      == HistoryFlow(cache.enabled, old(cache.entries), "sessionsRange:" + chargerId + ":" + fromIso + ":" + toIso,
                     fromIso, toIso, old(session.Current()), now, x)
  {
    if !Truthy(session.accessToken) {
      return NotAuthenticated, [];
    }
    if chargerId == "" {
      return Rejection(400, "chargerId is required"), [];
    }
    if fromIso == "" || toIso == "" {
      return Rejection(400, "from and to are required ISO timestamps"), [];
    }
    reply, calls := SessionHistory(cache, session, "sessionsRange:" + chargerId + ":" + fromIso + ":" + toIso, fromIso, toIso, now, x);
  }

  /**
   * A charger without history answers 404 upstream; on a cache miss the
   * endpoint then reports an empty window, not an error: 200, no sessions,
   * 0 kWh.
   */
  lemma MissingHistoryIsEmpty(enabled: bool, m: map<string, Entry>, key: string, fromIso: string, toIso: string,
                              t: Tokens, now: int, x: Exchange)
    requires Nullish(Lookup(enabled, m, key, now))
    requires var ready := EnsureFresh(t, now, x.proactive);
      x.attempt(0, ready.accessToken).Fail? && HasStatus(x.attempt(0, ready.accessToken).err, 404)
    ensures var h := HistoryFlow(enabled, m, key, fromIso, toIso, t, now, x);
      && h.reply.status == 200 && h.reply.body.Payload?
      && Get(h.reply.body.v, "sessionsCount") == Num(0.0)
      && Get(h.reply.body.v, "totalKwh") == Num(0.0)
      && |h.calls| == 1
  {
    var y := Then(x, SessionList);
    var ready := EnsureFresh(t, now, y.proactive);
    assert y.attempt(0, ready.accessToken) == Ok(Arr([]));
    NoRetryRethrowsOriginal(t, now, y);
    assert TotalKwh([]) == 0.0;
  }

  /** A fetched list is cached whole: within 60 seconds the same window is served again without an upstream call. */
  lemma FetchedHistoryIsReused(m: map<string, Entry>, key: string, fromIso: string, toIso: string,
                               t: Tokens, now: int, later: int, x: Exchange, x2: Exchange)
    requires Nullish(Lookup(true, m, key, now))
    requires AutoRefresh(t, now, Then(x, SessionList)).result.Ok?
    requires now <= later < now + HistoryCacheTtlMs
    ensures var h := HistoryFlow(true, m, key, fromIso, toIso, t, now, x);
      var h2 := HistoryFlow(true, h.entries, key, fromIso, toIso, h.tokens, later, x2);
      h2.calls == [] && h2.reply == h.reply && h2.entries == h.entries
  {
    var run := AutoRefresh(t, now, Then(x, SessionList));
    assert run.result.data.Arr?;
    var h := HistoryFlow(true, m, key, fromIso, toIso, t, now, x);
    assert Lookup(true, h.entries, key, later) == run.result.data;
    HitIsServed(h.entries, key, fromIso, toIso, h.tokens, later, x2);
  }

  /** A truthy cached list is served as it is: no call, the same session, nothing evicted. */
  lemma HitIsServed(m: map<string, Entry>, key: string, fromIso: string, toIso: string, t: Tokens, now: int, x: Exchange)
    requires Truthy(Lookup(true, m, key, now))
    ensures HistoryFlow(true, m, key, fromIso, toIso, t, now, x) ==
      Handled(HistoryReply(Lookup(true, m, key, now), fromIso, toIso), [], t, m)
  {
  }

  /**
   * `POST /api/set-current`: the commands endpoint first, the settings
   * endpoint if that fails; when both fail, the second error is reported if
   * it carries a response, else the first.
   */
  method SetCurrent(session: Session, chargerId: Js, current: Js, now: int, commands: Exchange, settings: Exchange)
    returns (reply: HttpReply, calls: seq<Js>)
    modifies session
    ensures !Authenticated(old(session.Current())) ==> reply == NotAuthenticated
    ensures Authenticated(old(session.Current())) && (!Truthy(chargerId) || !current.Num?) ==>
      reply == Rejection(400, "chargerId and numeric current are required")
    ensures !Authenticated(old(session.Current())) || !Truthy(chargerId) || !current.Num? ==>
      calls == [] && session.Current() == old(session.Current())
    ensures Authenticated(old(session.Current())) && Truthy(chargerId) && current.Num? ==>
      var first := AutoRefresh(old(session.Current()), now, commands);
      var second := AutoRefresh(first.tokens, now, settings);
      if first.result.Ok? then
        reply == Success(ViaJson("commands", first.result.data)) && calls == first.calls && session.Current() == first.tokens
      else
        && calls == first.calls + second.calls
        && session.Current() == second.tokens
        && (second.result.Ok? ==> reply == Success(ViaJson("settings", second.result.data)))
        && (second.result.Fail? ==>
              reply == MappedReply(if second.result.err.response.Some? then second.result.err else first.result.err))
  {
    if !Truthy(session.accessToken) {
      return NotAuthenticated, [];
    }
    if !Truthy(chargerId) || !current.Num? {
      return Rejection(400, "chargerId and numeric current are required"), [];
    }
    var viaCommands, firstCalls := session.WithAutoRefresh(now, commands);
    if viaCommands.Ok? {
      return Success(ViaJson("commands", viaCommands.data)), firstCalls;
    }
    var viaSettings, secondCalls := session.WithAutoRefresh(now, settings);
    calls := firstCalls + secondCalls;
    if viaSettings.Ok? {
      return Success(ViaJson("settings", viaSettings.data)), calls;
    }
    var err := if viaSettings.err.response.Some? then viaSettings.err else viaCommands.err;
    reply := MappedReply(err);
  }

  /** `POST /api/pause` and `POST /api/resume`: one upstream command. */
  method ChargerCommand(session: Session, chargerId: Js, now: int, x: Exchange)
    returns (reply: HttpReply, calls: seq<Js>)
    modifies session
    ensures !Authenticated(old(session.Current())) ==> reply == NotAuthenticated
    ensures Authenticated(old(session.Current())) && !Truthy(chargerId) ==> reply == Rejection(400, "chargerId is required")
    ensures !Authenticated(old(session.Current())) || !Truthy(chargerId) ==>
      calls == [] && session.Current() == old(session.Current())
    ensures Authenticated(old(session.Current())) && Truthy(chargerId) ==>
      var run := AutoRefresh(old(session.Current()), now, x);
      && calls == run.calls
      && session.Current() == run.tokens
      && reply == (if run.result.Ok? then Success(CommandJson(run.result.data)) else MappedReply(run.result.err))
  {
    if !Truthy(session.accessToken) {
      return NotAuthenticated, [];
    }
    if !Truthy(chargerId) {
      return Rejection(400, "chargerId is required"), [];
    }
    var result;
    result, calls := session.WithAutoRefresh(now, x);
    reply := if result.Ok? then Success(CommandJson(result.data)) else MappedReply(result.err);
  }

  /** The outcome of `POST /api/login`: the reply, and the new session when one was established. */
  datatype LoginResult = LoginResult(reply: HttpReply, session: Option<Tokens>)

  /**
   * `POST /api/login`. `upstream` is the login endpoint's result; `regenerated`
   * and `saved` say whether the session store could start and persist the new
   * session.
   */
  function Login(username: Js, password: Js, upstream: Outcome, now: int, regenerated: bool, saved: bool): (r: LoginResult)
    ensures !Truthy(username) || !Truthy(password) ==>
      r == LoginResult(Rejection(400, "username and password are required"), None)
    ensures r.session.Some? <==> r.reply == Success(Obj(map["ok" := Bool(true)]))
    ensures r.session.Some? ==>
      && upstream.Ok?
      && Authenticated(r.session.value)
      && r.session.value.accessToken == Get(upstream.data, "accessToken")
      && r.session.value.refreshToken == Or(Get(upstream.data, "refreshToken"), Null)
      && r.session.value.tokenExpiresAt == ExpiryFrom(Get(upstream.data, "expiresIn"), now)
    ensures Truthy(username) && Truthy(password) && upstream.Ok? && !Truthy(Get(upstream.data, "accessToken")) ==>
      r.reply == Rejection(502, "No access token returned from Easee")
    ensures Truthy(username) && Truthy(password) && upstream.Ok? && Truthy(Get(upstream.data, "accessToken")) ==>
      && (r.session.Some? <==> regenerated && saved)
      && (!regenerated ==> r.reply == Rejection(500, "Failed to start session"))
      && (regenerated && !saved ==> r.reply == Rejection(500, "Failed to persist session"))
    ensures Truthy(username) && Truthy(password) && upstream.Fail? ==>
      && r.reply.status == MapError(upstream.err).status
      && r.reply.body == Error(if Blank(MapError(upstream.err).error) then [Lit("Login failed")] else MapError(upstream.err).error)
      && !Blank(r.reply.body.error)
  {
    if !Truthy(username) || !Truthy(password) then
      LoginResult(Rejection(400, "username and password are required"), None)
    else match upstream
      case Fail(e) =>
        var mapped := MapError(e);
        assert [Lit("Login failed")][0].s != "";
        LoginResult(HttpReply(mapped.status, Error(if Blank(mapped.error) then [Lit("Login failed")] else mapped.error)), None)
      case Ok(data) =>
        var accessToken := Get(data, "accessToken");
        if !Truthy(accessToken) then LoginResult(Rejection(502, "No access token returned from Easee"), None)
        else if !regenerated then LoginResult(Rejection(500, "Failed to start session"), None)
        else if !saved then LoginResult(Rejection(500, "Failed to persist session"), None)
        else
          var tokens := Tokens(accessToken, Or(Get(data, "refreshToken"), Null), ExpiryFrom(Get(data, "expiresIn"), now));
          LoginResult(Success(Obj(map["ok" := Bool(true)])), Some(tokens))
  }

  /**
   * Two reads of the same charger's state within its 3-second time-to-live
   * make one upstream call between them, provided the first read returned a
   * truthy value (the handler treats a falsy cached value as a miss).
   */
  method RepeatedStateRead(cache: Cache, session: Session, chargerId: string, t1: int, t2: int, x1: Exchange, x2: Exchange)
    returns (calls1: seq<Js>, calls2: seq<Js>)
    requires cache.enabled && Authenticated(session.Current()) && chargerId != ""
    requires t1 <= t2 < t1 + StateTtlMs
    requires AutoRefresh(session.Current(), t1, x1).result.Ok? && Truthy(AutoRefresh(session.Current(), t1, x1).result.data)
    requires !Truthy(Lookup(true, cache.entries, "state:" + chargerId, t1))
    modifies cache, session
    ensures 1 <= |calls1| <= 2 && calls2 == []
  {
    var reply1, reply2;
    AutoRefreshKeepsAuthenticated(session.Current(), t1, x1);
    reply1, calls1 := GetState(cache, session, chargerId, t1, x1);
    reply2, calls2 := GetState(cache, session, chargerId, t2, x2);
  }

  /** The history reply for three records of 1.1, 2.2 and 3.3 kWh counts 3 sessions and 6.6 kWh. */
  lemma SampleHistoryReply(fromIso: string, toIso: string)
    ensures var sessions := [Obj(map["kwh" := Num(1.1)]), Obj(map["kwh" := Num(2.2)]), Obj(map["kwh" := Num(3.3)])];
      var r := HistoryReply(Arr(sessions), fromIso, toIso);
      r.status == 200 && Get(r.body.v, "sessionsCount") == Num(3.0) && Get(r.body.v, "totalKwh") == Num(6.6)
  {
    SampleTotal();
  }
}
