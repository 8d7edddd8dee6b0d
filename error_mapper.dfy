/**
 * Upstream call results and the error mapper that turns every failed
 * upstream call into the `{status, error}` pair the browser sees
 * (`mapEaseeError` in server/index.js).
 */
module Upstream {
  import opened JsValues

  /** The HTTP response attached to an axios error. */
  datatype HttpResponse = HttpResponse(status: int, data: Js)

  /**
   * A rejected promise. `response` is absent for network errors and for
   * exceptions raised by the server's own code (a `TypeError`, say).
   */
  datatype Failure = Failure(response: Option<HttpResponse>, message: string)

  /** What one upstream call produced: its response data, or the error it threw. */
  datatype Outcome = Ok(data: Js) | Fail(err: Failure)

  /** `err.response?.status === s` */
  predicate HasStatus(e: Failure, s: int) {
    e.response.Some? && e.response.value.status == s
  }

  /** A failure the refresh-and-retry wrapper reacts to. */
  predicate Unauthorized(o: Outcome) {
    o.Fail? && HasStatus(o.err, 401)
  }

  /** An exception thrown by the server's own code rather than by axios. */
  function Internal(message: string): (e: Failure)
    ensures e.response.None?
  {
    Failure(None, message)
  }

  /** The `{status, error}` pair produced by the mapper. */
  datatype Mapped = Mapped(status: int, error: Text)

  const Unavailable := "Easee service temporarily unavailable."

  /** The statuses with a fixed user-facing message. */
  const FixedMessages: map<int, string> := map[
    401 := "Authentication failed. Please login again.",
    403 := "Access denied for this account/charger.",
    404 := "Resource not found on Easee.",
    409 := "Operation conflicted with charger state. Try again.",
    422 := "Invalid parameters for Easee API.",
    429 := "Rate limit reached. Please slow down."
  ]

  /** `err.response?.data` */
  function ResponseData(e: Failure): Js {
    if e.response.Some? then e.response.value.data else Undefined
  }

  /** `err.response?.data?.error || err.response?.data?.code || undefined` (only its truthiness and text are used). */
  function ErrorCode(e: Failure): Js {
    Or(Get(ResponseData(e), "error"), Get(ResponseData(e), "code"))
  }

  /** `err.response?.data?.message || err.response?.data || err.message` */
  function MessageRaw(e: Failure): Js {
    Or(Or(Get(ResponseData(e), "message"), ResponseData(e)), Str(e.message))
  }

  /** A string message as it is, anything else as its JSON text. */
  function MessageText(e: Failure): (t: Text)
    ensures |t| == 1
  {
    var raw := MessageRaw(e);
    if raw.Str? then [Lit(raw.s)] else [Json(raw)]
  }

  /** The status reported to the browser: the upstream one, or 500 when there is none (or it is 0). */
  function ReportedStatus(e: Failure): int {
    if e.response.Some? && e.response.value.status != 0 then e.response.value.status else 500
  }

  function MapError(e: Failure): (m: Mapped)
    ensures e.response.None? ==> m.status == 500
    ensures e.response.Some? && e.response.value.status != 0 ==> m.status == e.response.value.status
    ensures m.status in FixedMessages ==> m.error == [Lit(FixedMessages[m.status])]
    ensures m.status !in FixedMessages && m.status >= 500 ==> m.error == [Lit(Unavailable)]
    ensures m.status !in FixedMessages && m.status < 500 ==>
      m.error == (if Truthy(ErrorCode(e)) then DisplayText(ErrorCode(e)) + [Lit(": ")] + MessageText(e) else MessageText(e))
  {
    var status := ReportedStatus(e);
    var code := ErrorCode(e);
    if status == 401 then Mapped(status, [Lit("Authentication failed. Please login again.")])
    else if status == 403 then Mapped(status, [Lit("Access denied for this account/charger.")])
    else if status == 404 then Mapped(status, [Lit("Resource not found on Easee.")])
    else if status == 409 then Mapped(status, [Lit("Operation conflicted with charger state. Try again.")])
    else if status == 422 then Mapped(status, [Lit("Invalid parameters for Easee API.")])
    else if status == 429 then Mapped(status, [Lit("Rate limit reached. Please slow down.")])
    else if status >= 500 then Mapped(status, [Lit(Unavailable)])
    else Mapped(status, if Truthy(code) then DisplayText(code) + [Lit(": ")] + MessageText(e) else MessageText(e))
  }

  /** Every failure without a response (network error, internal exception) reads as the service being unavailable. */
  lemma NoResponseIsUnavailable(e: Failure)
    requires e.response.None?
    ensures MapError(e) == Mapped(500, [Lit(Unavailable)])
  {
  }

  /** The mapped status always identifies an error: it is never 0, and it is the upstream one whenever that is set. */
  lemma MappedStatusIsUpstreamOr500(e: Failure)
    ensures MapError(e).status != 0
    ensures MapError(e).status == 500 || HasStatus(e, MapError(e).status)
  {
  }

  /**
   * A pass-through status carrying a string code and a string message
   * yields exactly "code: message"; without a code, the message alone.
   */
  lemma PassThroughText(status: int, code: string, message: string)
    requires 0 < status < 500 && status !in FixedMessages
    ensures MapError(Failure(Some(HttpResponse(status, Obj(map["code" := Str(code), "message" := Str(message)]))), "x")).error
         == (if code != "" && message != "" then [Lit(code), Lit(": "), Lit(message)]
             else if code != "" then [Lit(code), Lit(": "), Json(Obj(map["code" := Str(code), "message" := Str(message)]))]
             else if message != "" then [Lit(message)]
             else [Json(Obj(map["code" := Str(code), "message" := Str(message)]))])
  {
    var data := Obj(map["code" := Str(code), "message" := Str(message)]);
    var e := Failure(Some(HttpResponse(status, data)), "x");
    assert Get(data, "error") == Undefined;
    assert Get(data, "code") == Str(code);
    assert Get(data, "message") == Str(message);
  }
}
