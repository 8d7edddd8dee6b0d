/**
 * The token lifecycle of a user session (`refreshAccessToken`,
 * `ensureTokenFresh`, `withAutoRefresh` in server/index.js).
 *
 * The replies of the upstream token endpoint and of the wrapped upstream
 * call are inputs: an `Exchange` says what the token endpoint answers to a
 * proactive and to a reactive refresh, and what the wrapped call returns on
 * its n-th attempt when presented with a given bearer token.
 */
module TokenLifecycle {
  import opened JsValues
  import opened Upstream

  /** The three session fields the core reads and writes. `tokenExpiresAt` is absent when unknown. */
  datatype Tokens = Tokens(accessToken: Js, refreshToken: Js, tokenExpiresAt: Option<real>)

  /**
   * The token endpoint's answer to one refresh: the POST was rejected
   * (network error or non-2xx status), or it answered with a body, after
   * which persisting the session succeeded or not.
   */
  datatype TokenReply = Rejected | Answered(data: Js, persisted: bool)

  /** The session after a refresh attempt, and whether the attempt reported success. */
  datatype Refreshed = Refreshed(tokens: Tokens, ok: bool)

  /** What the upstream system answers during one call of the refresh-and-retry wrapper. */
  datatype Exchange = Exchange(proactive: TokenReply, reactive: TokenReply, attempt: (nat, Js) -> Outcome)

  /** The same exchange with the wrapped call's result post-processed by `f` (a `.then`/`.catch` inside the handler). */
  function Then(x: Exchange, f: Outcome -> Outcome): (y: Exchange)
    ensures y.proactive == x.proactive && y.reactive == x.reactive
    ensures forall i: nat, token: Js :: y.attempt(i, token) == f(x.attempt(i, token))
  {
    x.(attempt := (i: nat, token: Js) => f(x.attempt(i, token)))
  }

  /** The result of the wrapper: what the caller sees, the session afterwards, and the bearer tokens the call was attempted with. */
  datatype AutoRun = AutoRun(result: Outcome, tokens: Tokens, calls: seq<Js>)

  const RefreshThresholdMs := 30000

  /** `expiresIn ? now + expiresIn * 1000 : null` */
  function ExpiryFrom(expiresIn: Js, now: int): (r: Option<real>)
    ensures !Truthy(expiresIn) ==> r == None
    ensures expiresIn.Num? && expiresIn.n != 0.0 ==> r == Some(now as real + expiresIn.n * 1000.0)
  {
    if !Truthy(expiresIn) then None
    else if expiresIn.Num? then Some(now as real + expiresIn.n * 1000.0)
    else None
  }

  /** `tokenExpiresAt` read as a JavaScript condition: present and not 0. */
  predicate ExpiryKnown(t: Tokens) {
    t.tokenExpiresAt.Some? && t.tokenExpiresAt.value != 0.0
  }

  /** The proactive-refresh test: the expiry is known and less than 30 seconds away (or already past). */
  predicate ExpiringSoon(t: Tokens, now: int) {
    ExpiryKnown(t) && t.tokenExpiresAt.value - now as real < RefreshThresholdMs as real
  }

  /** One call of `refreshAccessToken` at time `now`. */
  function Refresh(t: Tokens, now: int, reply: TokenReply): (r: Refreshed)
    ensures !Truthy(t.refreshToken) || reply.Rejected? ==> r == Refreshed(t, false)
    ensures reply.Answered? && !Truthy(Get(reply.data, "accessToken")) ==> r == Refreshed(t, false)
    ensures r.ok ==> reply.Answered? && reply.persisted
    ensures r.tokens != t ==> reply.Answered? && Truthy(t.refreshToken)
    ensures reply.Answered? && Truthy(t.refreshToken) && Truthy(Get(reply.data, "accessToken")) ==>
      && r.ok == reply.persisted
      && r.tokens.accessToken == Get(reply.data, "accessToken")
      && r.tokens.refreshToken == (if Truthy(Get(reply.data, "refreshToken")) then Get(reply.data, "refreshToken") else t.refreshToken)
      && r.tokens.tokenExpiresAt == ExpiryFrom(Get(reply.data, "expiresIn"), now)
  {
    if !Truthy(t.refreshToken) then Refreshed(t, false)
    else match reply
      case Rejected => Refreshed(t, false)
      case Answered(data, persisted) =>
        // a falsy body reads as `{}`, whose fields are all undefined
        var accessToken := Get(data, "accessToken");
        if !Truthy(accessToken) then Refreshed(t, false)
        else
          var refreshToken := Or(Get(data, "refreshToken"), t.refreshToken);
          Refreshed(Tokens(accessToken, refreshToken, ExpiryFrom(Get(data, "expiresIn"), now)), persisted)
  }

  /** `ensureTokenFresh`: the failure of the refresh is swallowed. */
  function EnsureFresh(t: Tokens, now: int, reply: TokenReply): (r: Tokens)
    ensures !ExpiringSoon(t, now) ==> r == t
    ensures ExpiringSoon(t, now) ==> r == Refresh(t, now, reply).tokens
  {
    if ExpiringSoon(t, now) then Refresh(t, now, reply).tokens else t
  }

  /** `withAutoRefresh`: at most one refresh-and-retry, and only after a 401. */
  function AutoRefresh(t: Tokens, now: int, x: Exchange): (run: AutoRun)
    ensures 1 <= |run.calls| <= 2
    ensures run.calls[0] == EnsureFresh(t, now, x.proactive).accessToken
    ensures var ready := EnsureFresh(t, now, x.proactive);
      && (Unauthorized(x.attempt(0, ready.accessToken)) ==> run.tokens == Refresh(ready, now, x.reactive).tokens)
      && (!Unauthorized(x.attempt(0, ready.accessToken)) ==> run.tokens == ready)
    ensures |run.calls| == 1 ==> run.result == x.attempt(0, run.calls[0])
    ensures |run.calls| == 2 ==>
      && Unauthorized(x.attempt(0, run.calls[0]))
      && run.result == x.attempt(1, run.calls[1])
      && run.calls[1] == run.tokens.accessToken
  {
    var ready := EnsureFresh(t, now, x.proactive);
    var first := x.attempt(0, ready.accessToken);
    if Unauthorized(first) then
      var refreshed := Refresh(ready, now, x.reactive);
      if refreshed.ok then
        AutoRun(x.attempt(1, refreshed.tokens.accessToken), refreshed.tokens, [ready.accessToken, refreshed.tokens.accessToken])
      else
        AutoRun(first, refreshed.tokens, [ready.accessToken])
    else
      AutoRun(first, ready, [ready.accessToken])
  }

  /** A refresh that reports failure changed the session only if the new tokens could not be persisted. */
  lemma FailedRefreshLeavesSession(t: Tokens, now: int, reply: TokenReply)
    ensures !Refresh(t, now, reply).ok && Refresh(t, now, reply).tokens != t ==>
      reply.Answered? && !reply.persisted
  {
  }

  /** A refresh never logs the session out: an authenticated session stays authenticated. */
  lemma RefreshKeepsAuthenticated(t: Tokens, now: int, reply: TokenReply)
    requires Truthy(t.accessToken)
    ensures Truthy(Refresh(t, now, reply).tokens.accessToken)
    ensures Truthy(t.refreshToken) ==> Truthy(Refresh(t, now, reply).tokens.refreshToken)
  {
  }

  /** An expiry that is already past always triggers the proactive refresh; an unknown one never does. */
  lemma ExpiredTokenIsRefreshed(t: Tokens, now: int)
    ensures ExpiryKnown(t) && t.tokenExpiresAt.value <= now as real ==> ExpiringSoon(t, now)
    ensures !ExpiryKnown(t) ==> !ExpiringSoon(t, now)
  {
  }

  /** The retry happens exactly when the first attempt failed with 401 and the reactive refresh succeeded. */
  lemma RetryIffUnauthorizedAndRefreshed(t: Tokens, now: int, x: Exchange)
    ensures var ready := EnsureFresh(t, now, x.proactive);
      |AutoRefresh(t, now, x).calls| == 2 <==>
        Unauthorized(x.attempt(0, ready.accessToken)) && Refresh(ready, now, x.reactive).ok
  {
  }

  /** A first attempt that is not a 401 is final: its success, or its error rethrown, with no refresh. */
  lemma NoRetryRethrowsOriginal(t: Tokens, now: int, x: Exchange)
    requires !Unauthorized(x.attempt(0, EnsureFresh(t, now, x.proactive).accessToken))
    ensures AutoRefresh(t, now, x).calls == [EnsureFresh(t, now, x.proactive).accessToken]
    ensures AutoRefresh(t, now, x).result == x.attempt(0, EnsureFresh(t, now, x.proactive).accessToken)
    ensures AutoRefresh(t, now, x).tokens == EnsureFresh(t, now, x.proactive)
  {
  }

  /** A 401 whose reactive refresh fails is rethrown as it was, without a second attempt. */
  lemma FailedRefreshRethrowsOriginal(t: Tokens, now: int, x: Exchange)
    requires Unauthorized(x.attempt(0, EnsureFresh(t, now, x.proactive).accessToken))
    requires !Refresh(EnsureFresh(t, now, x.proactive), now, x.reactive).ok
    ensures |AutoRefresh(t, now, x).calls| == 1
    ensures AutoRefresh(t, now, x).result == x.attempt(0, EnsureFresh(t, now, x.proactive).accessToken)
    ensures Unauthorized(AutoRefresh(t, now, x).result)
  {
  }

  /**
   * Post-processing the wrapped call with an `f` that keeps 401s as 401s and
   * everything else as not a 401 (a `.then`/`.catch` inside the handler) adds
   * or removes no retry: the wrapper makes the same calls and leaves the same
   * session, and the caller sees `f` of what it would have seen.
   */
  lemma ThenKeepsRetries(t: Tokens, now: int, x: Exchange, f: Outcome -> Outcome)
    requires forall o: Outcome :: Unauthorized(f(o)) <==> Unauthorized(o)
    ensures var a := AutoRefresh(t, now, x);
      AutoRefresh(t, now, Then(x, f)) == AutoRun(f(a.result), a.tokens, a.calls)
  {
  }

  /** The wrapper preserves authentication of the session. */
  lemma AutoRefreshKeepsAuthenticated(t: Tokens, now: int, x: Exchange)
    requires Truthy(t.accessToken)
    ensures Truthy(AutoRefresh(t, now, x).tokens.accessToken)
    ensures forall i | 0 <= i < |AutoRefresh(t, now, x).calls| :: Truthy(AutoRefresh(t, now, x).calls[i])
  {
    RefreshKeepsAuthenticated(t, now, x.proactive);
    var ready := EnsureFresh(t, now, x.proactive);
    RefreshKeepsAuthenticated(ready, now, x.reactive);
  }

  /**
   * The refresh-on-401 scenario: a session whose call is rejected with 401
   * once, whose refresh token is exchanged for `tokenB`/`refreshB` (valid 60
   * seconds), is retried once with `tokenB` and ends with the retry's result
   * and the new tokens.
   */
  lemma RetryWithRefreshedToken(now: int, answer: Js)
    ensures var t := Tokens(Str("tokenA"), Str("refreshA"), None);
      var reply := Answered(Obj(map["accessToken" := Str("tokenB"), "refreshToken" := Str("refreshB"), "expiresIn" := Num(60.0)]), true);
      var rejected := Fail(Failure(Some(HttpResponse(401, Str("Unauthorized"))), "unauthorized"));
      var x := Exchange(Rejected, reply, (i: nat, token: Js) => if i == 0 then rejected else Ok(answer));
      var run := AutoRefresh(t, now, x);
      && run.result == Ok(answer)
      && run.calls == [Str("tokenA"), Str("tokenB")]
      && run.tokens == Tokens(Str("tokenB"), Str("refreshB"), Some(now as real + 60000.0))
  {
    var data := Obj(map["accessToken" := Str("tokenB"), "refreshToken" := Str("refreshB"), "expiresIn" := Num(60.0)]);
    assert Get(data, "accessToken") == Str("tokenB");
    assert Get(data, "refreshToken") == Str("refreshB");
    assert Get(data, "expiresIn") == Num(60.0);
  }

  /** A session record the proxy updates in place (`req.session`). */
  class Session {
    var accessToken: Js
    var refreshToken: Js
    var tokenExpiresAt: Option<real>

    function Current(): Tokens
      reads this
    {
      Tokens(accessToken, refreshToken, tokenExpiresAt)
    }

    constructor (t: Tokens)
      ensures Current() == t
    {
      accessToken := t.accessToken;
      refreshToken := t.refreshToken;
      tokenExpiresAt := t.tokenExpiresAt;
    }

    method RefreshAccessToken(now: int, reply: TokenReply) returns (ok: bool)
      modifies this
      ensures Refreshed(Current(), ok) == Refresh(old(Current()), now, reply)
    {
      if !Truthy(refreshToken) {
        return false;
      }
      match reply
      case Rejected =>
        return false;
      case Answered(data, persisted) =>
        var newAccessToken := Get(data, "accessToken");
        var newRefreshToken := Get(data, "refreshToken");
        var expiresIn := Get(data, "expiresIn");
        if !Truthy(newAccessToken) {
          return false;
        }
        accessToken := newAccessToken;
        if Truthy(newRefreshToken) {
          refreshToken := newRefreshToken;
        }
        tokenExpiresAt := ExpiryFrom(expiresIn, now);
        // a failed save rejects, and the rejection is caught as `false`
        ok := persisted;
    }

    method EnsureTokenFresh(now: int, reply: TokenReply)
      modifies this
      ensures Current() == EnsureFresh(old(Current()), now, reply)
    {
      if !(tokenExpiresAt.Some? && tokenExpiresAt.value != 0.0) {
        return;
      }
      if tokenExpiresAt.value - now as real < RefreshThresholdMs as real {
        var _ := RefreshAccessToken(now, reply);
      }
    }

    method WithAutoRefresh(now: int, x: Exchange) returns (result: Outcome, calls: seq<Js>)
      modifies this
      ensures AutoRun(result, Current(), calls) == AutoRefresh(old(Current()), now, x)
    {
      EnsureTokenFresh(now, x.proactive);
      calls := [accessToken];
      result := x.attempt(0, accessToken);
      if Unauthorized(result) {
        var refreshed := RefreshAccessToken(now, x.reactive);
        if refreshed {
          calls := calls + [accessToken];
          result := x.attempt(1, accessToken);
        }
      }
    }
  }
}
