/**
 * The live-update stream of `/api/stream` in server/index.js: a ping on
 * connection, then on every pass either the `state`, `session` and
 * `history` events, in that order, or a single `error` event. The 24-hour
 * history is refetched only when there is none yet or the last one is more
 * than 60 seconds old.
 */
module LiveUpdates {
  import opened JsValues
  import opened Upstream
  import opened TokenLifecycle
  import opened History
  import opened Handlers

  /** The server-sent events, by event name. */
  datatype Event =
    | Ping(t: int)
    | StateEvent(data: Js)
    | SessionEvent(data: Js)
    | HistoryEvent(data: Js)
    | ErrorEvent(error: Text, status: int)

  const HistoryTtlMs := 60000

  /** The throttle: no history yet, or the last one fetched more than 60 seconds ago. */
  predicate HistoryStale(lastHistory: Js, lastHistoryTs: int, now: int) {
    !Truthy(lastHistory) || now - lastHistoryTs > HistoryTtlMs
  }

  /** The ongoing-session read inside the stream: a 404 means no session and reads as `null`. */
  function OngoingOrNull(o: Outcome): (r: Outcome)
    ensures o.Fail? && HasStatus(o.err, 404) ==> r == Ok(Null)
    ensures !(o.Fail? && HasStatus(o.err, 404)) ==> r == o
  {
    if o.Fail? && HasStatus(o.err, 404) then Ok(Null) else o
  }

  /** The error event for a failure, carrying the mapped message and status. */
  function ErrorFor(e: Failure): (ev: Event)
    ensures ev.ErrorEvent? && ev.status == MapError(e).status && ev.error == MapError(e).error
  {
    var m := MapError(e);
    ErrorEvent(m.error, m.status)
  }

  /** What the upstream system answers during one pass, one exchange per read. */
  datatype Reads = Reads(state: Exchange, ongoing: Exchange, sessions: Exchange)

  /** The effect of one pass: the events it sends, the throttle state and session after it, and the bearer tokens it presented. */
  datatype Pass = Pass(events: seq<Event>, lastHistory: Js, lastHistoryTs: int, tokens: Tokens, calls: seq<Js>)

  /** A pass whose three reads all succeeded sends exactly these three events, in this order. */
  predicate DataEvents(evs: seq<Event>) {
    |evs| == 3 && evs[0].StateEvent? && evs[1].SessionEvent? && evs[2].HistoryEvent?
  }

  /**
   * One `loadAllOnce` at time `now`. Both reads of the `Promise.all` are
   * issued; when both fail, the state read's error is the one reported.
   * `fromIso`/`toIso` are the window texts of a refetch.
   */
  function RunPass(t: Tokens, lastHistory: Js, lastHistoryTs: int, now: int, fromIso: string, toIso: string, r: Reads): (p: Pass)
    ensures DataEvents(p.events) || (|p.events| == 1 && p.events[0].ErrorEvent?)
    ensures p.events[0].ErrorEvent? ==> p.lastHistory == lastHistory && p.lastHistoryTs == lastHistoryTs
    ensures !HistoryStale(lastHistory, lastHistoryTs, now) ==> p.lastHistory == lastHistory && p.lastHistoryTs == lastHistoryTs
    ensures DataEvents(p.events) ==> p.events[2].data == p.lastHistory && Truthy(p.lastHistory)
  {
    var s := AutoRefresh(t, now, r.state);
    var o := AutoRefresh(s.tokens, now, Then(r.ongoing, OngoingOrNull));
    var calls := s.calls + o.calls;
    if s.result.Fail? then Pass([ErrorFor(s.result.err)], lastHistory, lastHistoryTs, o.tokens, calls)
    else if o.result.Fail? then Pass([ErrorFor(o.result.err)], lastHistory, lastHistoryTs, o.tokens, calls)
    else if !HistoryStale(lastHistory, lastHistoryTs, now) then
      Pass([StateEvent(s.result.data), SessionEvent(o.result.data), HistoryEvent(lastHistory)], lastHistory, lastHistoryTs, o.tokens, calls)
    else
      var h := FetchHistory(o.tokens, now, fromIso, toIso, r.sessions);
      var calls' := calls + h.calls;
      match h.result
      case Fail(e) => Pass([ErrorFor(e)], lastHistory, lastHistoryTs, h.tokens, calls')
      case Ok(history) =>
        Pass([StateEvent(s.result.data), SessionEvent(o.result.data), HistoryEvent(history)], history, now, h.tokens, calls')
  }

  /**
   * The refetch of a stale history: the 24-hour session list through the
   * refresh wrapper, then the summary object of the window, or the
   * TypeError of a list that cannot be read.
   */
  function FetchHistory(t: Tokens, now: int, fromIso: string, toIso: string, x: Exchange): (f: AutoRun)
    ensures var h := AutoRefresh(t, now, Then(x, SessionList));
      && f.tokens == h.tokens && f.calls == h.calls
      && (h.result.Fail? ==> f.result == h.result)
      && (h.result.Ok? ==> h.result.data.Arr? && (f.result.Ok? <==> Readable(h.result.data.elems)))
      && (f.result.Ok? ==> h.result.Ok? && h.result.data.Arr?)
      && (f.result.Ok? ==> f.result.data == SummaryJson(fromIso, toIso, h.result.data.elems, TotalKwh(h.result.data.elems)))
      && (h.result.Ok? && f.result.Fail? ==> f.result == Fail(Internal("TypeError")))
  {
    var h := AutoRefresh(t, now, Then(x, SessionList));
    match h.result
    case Fail(e) => h
    case Ok(sessions) =>
      SessionListIsArray(t, now, x);
      if !sessions.Arr? || !Readable(sessions.elems) then AutoRun(Fail(Internal("TypeError")), h.tokens, h.calls)
      else AutoRun(Ok(SummaryJson(fromIso, toIso, sessions.elems, TotalKwh(sessions.elems))), h.tokens, h.calls)
  }

  /** The session list reaches the summary as an array, whichever attempt produced it. */
  lemma SessionListIsArray(t: Tokens, now: int, x: Exchange)
    ensures var h := AutoRefresh(t, now, Then(x, SessionList));
      h.result.Ok? ==> h.result.data.Arr?
  {
    var h := AutoRefresh(t, now, Then(x, SessionList));
    if |h.calls| == 1 {
      assert h.result == SessionList(x.attempt(0, h.calls[0]));
    } else {
      assert h.result == SessionList(x.attempt(1, h.calls[1]));
    }
  }

  /** The stale-history branch of `loadAllOnce`, on the shared session. */
  method FetchHistoryNow(session: Session, now: int, fromIso: string, toIso: string, x: Exchange)
    returns (history: Outcome, calls: seq<Js>)
    modifies session
    ensures AutoRun(history, session.Current(), calls) == FetchHistory(old(session.Current()), now, fromIso, toIso, x)
  {
    var sessions;
    sessions, calls := session.WithAutoRefresh(now, Then(x, SessionList));
    if sessions.Fail? {
      return sessions, calls;
    }
    if !sessions.data.Arr? {
      return Fail(Internal("TypeError")), calls;
    }
    var totalKwh := Aggregate(sessions.data.elems);
    if totalKwh.None? {
      return Fail(Internal("TypeError")), calls;
    }
    history := Ok(SummaryJson(fromIso, toIso, sessions.data.elems, totalKwh.value));
  }

  /** One `loadAllOnce` on the shared session, given the throttle state it starts from. */
  method LoadPass(session: Session, lastHistory: Js, lastHistoryTs: int, now: int, fromIso: string, toIso: string, r: Reads)
    returns (p: Pass)
    modifies session
    ensures p == RunPass(old(session.Current()), lastHistory, lastHistoryTs, now, fromIso, toIso, r)
    ensures session.Current() == p.tokens
  {
    var state, stateCalls := session.WithAutoRefresh(now, r.state);
    var ongoing, ongoingCalls := session.WithAutoRefresh(now, Then(r.ongoing, OngoingOrNull));
    var calls := stateCalls + ongoingCalls;
    var sent: seq<Event>;
    var history, historyTs := lastHistory, lastHistoryTs;
    if state.Fail? {
      sent := [ErrorFor(state.err)];
    } else if ongoing.Fail? {
      sent := [ErrorFor(ongoing.err)];
    } else if !Truthy(history) || now - historyTs > HistoryTtlMs {
      var fetched, historyCalls := FetchHistoryNow(session, now, fromIso, toIso, r.sessions);
      calls := calls + historyCalls;
      if fetched.Fail? {
        sent := [ErrorFor(fetched.err)];
      } else {
        history, historyTs := fetched.data, now;
        sent := [StateEvent(state.data), SessionEvent(ongoing.data), HistoryEvent(history)];
      }
    } else {
      sent := [StateEvent(state.data), SessionEvent(ongoing.data), HistoryEvent(history)];
    }
    p := Pass(sent, history, historyTs, session.Current(), calls);
  }

  /** The state of one open stream. */
  class LiveStream {
    var events: seq<Event>
    var lastHistory: Js
    var lastHistoryTs: int
    var isClosed: bool

    /** The first event on the wire is the ping. */
    predicate Valid()
      reads this
    {
      |events| >= 1 && events[0].Ping?
    }

    /** The connection: the ping is sent immediately, before any data. */
    constructor Open(now: int)
      ensures Valid() && events == [Ping(now)]
      ensures lastHistory == Null && lastHistoryTs == 0 && !isClosed
    {
      events := [Ping(now)];
      lastHistory := Null;
      lastHistoryTs := 0;
      isClosed := false;
    }

    /** Sends the events of one pass, reading state and the ongoing session, and the history when stale. */
    method LoadAllOnce(session: Session, now: int, fromIso: string, toIso: string, r: Reads) returns (calls: seq<Js>)
      requires Valid()
      modifies this, session
      ensures Valid() && isClosed == old(isClosed)
      ensures var p := RunPass(old(session.Current()), old(lastHistory), old(lastHistoryTs), now, fromIso, toIso, r);
        && events == old(events) + p.events
        && lastHistory == p.lastHistory && lastHistoryTs == p.lastHistoryTs
        && session.Current() == p.tokens && calls == p.calls
    {
      var p := LoadPass(session, lastHistory, lastHistoryTs, now, fromIso, toIso, r);
      events, lastHistory, lastHistoryTs, calls := events + p.events, p.lastHistory, p.lastHistoryTs, p.calls;
    }

    /** The client went away (`req.on('close')`). */
    method Close()
      modifies this
      ensures isClosed && events == old(events)
      ensures lastHistory == old(lastHistory) && lastHistoryTs == old(lastHistoryTs)
    {
      isClosed := true;
    }

    /** One timer tick: a pass, unless the stream was closed. */
    method Tick(session: Session, now: int, fromIso: string, toIso: string, r: Reads) returns (calls: seq<Js>)
      requires Valid()
      modifies this, session
      ensures Valid() && isClosed == old(isClosed)
      ensures old(isClosed) ==> calls == [] && events == old(events) && session.Current() == old(session.Current())
      ensures old(isClosed) ==> lastHistory == old(lastHistory) && lastHistoryTs == old(lastHistoryTs)
      ensures !old(isClosed) ==>
        var p := RunPass(old(session.Current()), old(lastHistory), old(lastHistoryTs), now, fromIso, toIso, r);
        events == old(events) + p.events && lastHistory == p.lastHistory && lastHistoryTs == p.lastHistoryTs
        && session.Current() == p.tokens && calls == p.calls
    {
      if isClosed {
        return [];
      }
      calls := LoadAllOnce(session, now, fromIso, toIso, r);
    }
  }

  /** `GET /api/stream` before the stream opens: the same authentication and parameter checks as the other endpoints. */
  function Subscribe(t: Tokens, chargerId: string): (r: Option<HttpReply>)
    ensures r.None? <==> Authenticated(t) && chargerId != ""
    ensures !Authenticated(t) ==> r == Some(NotAuthenticated)
    ensures Authenticated(t) && chargerId == "" ==> r == Some(Rejection(400, "chargerId is required"))
  {
    if !Authenticated(t) then Some(NotAuthenticated)
    else if chargerId == "" then Some(Rejection(400, "chargerId is required"))
    else None
  }

  /** A pass with a recent history makes no session-list call and resends that history unchanged. */
  lemma RecentHistoryIsReused(t: Tokens, lastHistory: Js, lastHistoryTs: int, now: int, fromIso: string, toIso: string, r: Reads)
    requires !HistoryStale(lastHistory, lastHistoryTs, now)
    ensures var p := RunPass(t, lastHistory, lastHistoryTs, now, fromIso, toIso, r);
      var s := AutoRefresh(t, now, r.state);
      && p.calls == s.calls + AutoRefresh(s.tokens, now, Then(r.ongoing, OngoingOrNull)).calls
      && (DataEvents(p.events) ==> p.events[2] == HistoryEvent(lastHistory))
  {
  }

  /** A stale history that is fetched successfully is replaced and stamped with the time of the pass. */
  lemma StaleHistoryIsRefetched(t: Tokens, lastHistory: Js, lastHistoryTs: int, now: int, fromIso: string, toIso: string, r: Reads)
    requires HistoryStale(lastHistory, lastHistoryTs, now)
    ensures var p := RunPass(t, lastHistory, lastHistoryTs, now, fromIso, toIso, r);
      DataEvents(p.events) ==>
        && p.lastHistoryTs == now
        && Get(p.lastHistory, "from") == Str(fromIso) && Get(p.lastHistory, "to") == Str(toIso)
        && |p.calls| >= 3
  {
    var s := AutoRefresh(t, now, r.state);
    var o := AutoRefresh(s.tokens, now, Then(r.ongoing, OngoingOrNull));
    var f := FetchHistory(o.tokens, now, fromIso, toIso, r.sessions);
    var p := RunPass(t, lastHistory, lastHistoryTs, now, fromIso, toIso, r);
    if DataEvents(p.events) {
      assert s.result.Ok? && o.result.Ok? && f.result.Ok?;
      assert p == Pass(p.events, f.result.data, now, f.tokens, s.calls + o.calls + f.calls);
      assert |f.calls| >= 1;
    }
  }

  /**
   * What a pass sends, read by read: the state read's error if it failed,
   * else the ongoing-session read's error if that failed, else the state,
   * the session and the history, where a stale history is refetched and a
   * failed refetch sends its error instead.
   */
  lemma PassEvents(t: Tokens, lastHistory: Js, lastHistoryTs: int, now: int, fromIso: string, toIso: string, r: Reads)
    ensures var p := RunPass(t, lastHistory, lastHistoryTs, now, fromIso, toIso, r);
      var s := AutoRefresh(t, now, r.state);
      var o := AutoRefresh(s.tokens, now, Then(r.ongoing, OngoingOrNull));
      var f := FetchHistory(o.tokens, now, fromIso, toIso, r.sessions);
      var stale := HistoryStale(lastHistory, lastHistoryTs, now);
      && (s.result.Fail? ==> p.events == [ErrorFor(s.result.err)])
      && (s.result.Ok? && o.result.Fail? ==> p.events == [ErrorFor(o.result.err)])
      && (s.result.Ok? && o.result.Ok? && !stale ==>
            p.events == [StateEvent(s.result.data), SessionEvent(o.result.data), HistoryEvent(lastHistory)])
      && (s.result.Ok? && o.result.Ok? && stale && f.result.Ok? ==>
            && p.events == [StateEvent(s.result.data), SessionEvent(o.result.data), HistoryEvent(f.result.data)]
            && p.lastHistory == f.result.data && p.lastHistoryTs == now)
      && (s.result.Ok? && o.result.Ok? && stale && f.result.Fail? ==> p.events == [ErrorFor(f.result.err)])
  {
  }

  /**
   * A 404 on the ongoing-session read is not an error: the pass reports
   * `null` for the session and sends its data events, unless a stale
   * history's refetch fails.
   */
  lemma NoOngoingSessionIsNull(t: Tokens, lastHistory: Js, lastHistoryTs: int, now: int, fromIso: string, toIso: string, r: Reads)
    requires AutoRefresh(t, now, r.state).result.Ok?
    requires var s := AutoRefresh(t, now, r.state);
      var ready := EnsureFresh(s.tokens, now, r.ongoing.proactive);
      r.ongoing.attempt(0, ready.accessToken).Fail? && HasStatus(r.ongoing.attempt(0, ready.accessToken).err, 404)
    ensures var p := RunPass(t, lastHistory, lastHistoryTs, now, fromIso, toIso, r);
      var o := AutoRefresh(AutoRefresh(t, now, r.state).tokens, now, Then(r.ongoing, OngoingOrNull));
      var f := FetchHistory(o.tokens, now, fromIso, toIso, r.sessions);
      && (!HistoryStale(lastHistory, lastHistoryTs, now) || f.result.Ok? ==>
            DataEvents(p.events) && p.events[1] == SessionEvent(Null))
      && (HistoryStale(lastHistory, lastHistoryTs, now) && f.result.Fail? ==> p.events == [ErrorFor(f.result.err)])
  {
    var s := AutoRefresh(t, now, r.state);
    NoRetryRethrowsOriginal(s.tokens, now, Then(r.ongoing, OngoingOrNull));
  }

  /** When the state read fails, the error event carries its mapped status, whatever the other reads do. */
  lemma StateErrorIsReported(t: Tokens, lastHistory: Js, lastHistoryTs: int, now: int, fromIso: string, toIso: string, r: Reads)
    requires AutoRefresh(t, now, r.state).result.Fail?
    ensures var p := RunPass(t, lastHistory, lastHistoryTs, now, fromIso, toIso, r);
      p.events == [ErrorFor(AutoRefresh(t, now, r.state).result.err)]
      && p.lastHistory == lastHistory && p.lastHistoryTs == lastHistoryTs
  {
  }

  /**
   * The throttle: after a pass that fetched the history at t1, a successful
   * pass at any t2 with t2 - t1 <= 60 seconds reuses it without a refetch.
   */
  lemma HistoryFetchedAtMostOncePerMinute(t: Tokens, lastHistory: Js, lastHistoryTs: int, t1: int, t2: int,
                                          fromIso: string, toIso: string, r1: Reads)
    requires t1 <= t2 <= t1 + HistoryTtlMs
    requires DataEvents(RunPass(t, lastHistory, lastHistoryTs, t1, fromIso, toIso, r1).events)
    requires HistoryStale(lastHistory, lastHistoryTs, t1)
    ensures var p1 := RunPass(t, lastHistory, lastHistoryTs, t1, fromIso, toIso, r1);
      !HistoryStale(p1.lastHistory, p1.lastHistoryTs, t2)
  {
    StaleHistoryIsRefetched(t, lastHistory, lastHistoryTs, t1, fromIso, toIso, r1);
  }

  /**
   * A stream opened and ticked once sends the ping and then that pass's
   * events; once closed, a later tick makes no upstream call, sends nothing
   * and leaves the session alone.
   */
  method PingComesFirst(session: Session, t0: int, t1: int, t2: int, r1: Reads, r2: Reads)
    returns (stream: LiveStream, lateCalls: seq<Js>)
    modifies session
    ensures stream.events == [Ping(t0)] + RunPass(old(session.Current()), Null, 0, t1, "", "", r1).events
    ensures stream.events[0] == Ping(t0)
    ensures stream.isClosed && lateCalls == []
    ensures session.Current() == RunPass(old(session.Current()), Null, 0, t1, "", "", r1).tokens
  {
    stream := new LiveStream.Open(t0);
    var _ := stream.Tick(session, t1, "", "", r1);
    stream.Close();
    lateCalls := stream.Tick(session, t2, "", "", r2);
  }
}
