# Easee web interface proxy, modelled in Dafny

This project models the decision logic of a small web proxy for the Easee EV-charger cloud API.

The server (`server/index.js`) does the following:

- It logs users in against the upstream API and keeps their access and refresh tokens in a server-side session.
- It refreshes a token proactively when it is less than 30 seconds from expiry.
- It retries an upstream call once, after a reactive refresh, when the call is rejected with 401.
- It caches upstream reads for a few seconds in a process-wide TTL cache.
- It maps every upstream failure to a `{status, error}` reply.
- It aggregates the 24-hour and date-range charging history into a session count and a kWh total.
- It tries two upstream strategies in turn to set the charging current.
- It pushes live updates over a server-sent-event stream: a ping first, then `state`, `session` and `history` events (or one `error` event) on every pass, with the history throttled to one fetch per minute.

The dashboard script (`server/public/main.js`) contributes pure helpers:

- duration formatting (`msToHMS`);
- the 60-point rolling buffer of the live chart;
- which charger id the controls hold;
- the charger selector's option fallbacks;
- the phase count;
- the error message shown for a failed request.

Modelling choices:

- **JavaScript values.** These are the datatype `JsValues.Js`. Truthiness, `??`, `||`, `&&` and `?.` are written out. Numbers are exact reals.
- **Text.** Strings built from non-string values (`String(v)`, `JSON.stringify(v)`) stay symbolic, as `Text` pieces.
- **Time.** Time is an integer number of milliseconds passed in by the caller, one instant per request or stream pass.
- **Upstream replies.** Every upstream reply is an input. An `Exchange` gives:
  - what the token endpoint answers to the proactive refresh and to the reactive refresh;
  - what the wrapped call returns on its first and second attempt, given the bearer token it presents.

  The handlers return `calls`, the bearer tokens they presented upstream, in order. So "no upstream call" is `calls == []`, and "the handler runs at most twice" is `|calls| <= 2`.
- **Stateful parts.** Code that changes state in the source is imperative here:
  - the cache (`ResponseCache.Cache`);
  - the session record (`TokenLifecycle.Session`);
  - the aggregation loop (`History.Aggregate`);
  - the stream's closure state (`LiveUpdates.LiveStream`);
  - the chart buffer (`DashboardChart.PushLivePoints`);
  - the selector's `forEach` (`DashboardUi.LoadChargers`).

  Each of these is proved equal to a pure specification function. Properties are then proved about that function.

One observation from the model: the `/api/sessions-24h` cache key embeds the millisecond-precision ISO texts of the window. Two requests share a key only if they fall in the same millisecond, so that cache entry is practically never read back. The model keeps the key as the source builds it, and `Handlers.FetchedHistoryIsReused` holds for a key that is actually repeated, as on `/api/sessions-range`.

## Model

| member | source | states |
|---|---|---|
| `Upstream.MapError` | server/index.js:56-69 | Mapped status is the upstream one, or 500 without a response (or with status 0). 401/403/404/409/422/429 give their fixed messages, any other status ≥ 500 the "temporarily unavailable" message, and any other status `code: message` when a code is truthy, else the message text |
| `Upstream.NoResponseIsUnavailable` | server/index.js:57-66 | A network error or internal exception maps to exactly 500 with the "temporarily unavailable" message |
| `Upstream.MappedStatusIsUpstreamOr500` | server/index.js:57 | The mapped status is never 0, and is either 500 or the upstream response's own status |
| `Upstream.PassThroughText` | server/index.js:58-67 | For a pass-through status, a string code and message give exactly `code: message`; the fallbacks to the body's JSON and to the bare message are spelled out case by case |
| `ResponseCache.Lookup` | server/index.js:36-43 | A read misses (undefined) when the cache is disabled, the key is absent or its expiry is not in the future, and otherwise returns the stored value; `ReadAfterWrite` and `RepeatedReadsHit` relate it to `Store` |
| `ResponseCache.AfterLookup` | server/index.js:38-42 | A read removes at most its own key and keeps every other entry; afterwards no stale entry for the key remains, and a live or disabled read changes nothing |
| `ResponseCache.Store` | server/index.js:44-47 | A write adds or overwrites its key with expiry `now + ttl` and keeps every other entry; disabled, it changes nothing |
| `ResponseCache.Cache.constructor` | server/index.js:33-35 | A new cache is empty and keeps the enable flag |
| `ResponseCache.Cache.Get` | server/index.js:36-43 | Returns the stored value only while it is live, else undefined; a stale entry for the key is deleted and nothing else changes |
| `ResponseCache.Cache.Set` | server/index.js:44-47 | Overwrites the key with the value and expiry `now + ttl`, and does nothing when the cache is disabled |
| `ResponseCache.ReadAfterWrite` | server/index.js:36-47 | A value written at t0 with ttl T is read back at t exactly when t < t0 + T |
| `ResponseCache.ExpiredReadEvicts` | server/index.js:40-42 | A read at or after expiry removes that key and only that key |
| `ResponseCache.LiveReadKeepsEntries` | server/index.js:40 | A read of a live entry changes nothing |
| `ResponseCache.WriteOverwrites` | server/index.js:44-47 | A second write to a key replaces the first entirely |
| `ResponseCache.OtherKeysUntouched` | server/index.js:36-47 | Reads and writes of one key leave every other key's entry as it was |
| `ResponseCache.DisabledCacheIsInert` | server/index.js:35-45 | With the cache disabled every read misses and no read or write changes the entries |
| `ResponseCache.RepeatedReadsHit` | server/index.js:36-47 | Two reads within the ttl of one write both return the written value, the first evicting nothing |
| `TokenLifecycle.ExpiryFrom` | server/index.js:92 | No expiry for a falsy `expiresIn`; for a non-zero number, `now + expiresIn*1000` |
| `TokenLifecycle.ThenKeepsRetries` | server/index.js:228-232 | A `.then`/`.catch` inside the wrapped call that keeps 401s as 401s and nothing else as 401 adds or removes no retry: same calls, same session, and the caller sees the post-processed result of the same attempt |
| `TokenLifecycle.Refresh` | server/index.js:81-98 | No refresh token, a rejected POST or a reply without accessToken: false and the session unchanged. Otherwise the access token is replaced, the refresh token only by a truthy new one, the expiry recomputed from `expiresIn`, and the result is whether the save succeeded |
| `TokenLifecycle.EnsureFresh` | server/index.js:100-108 | The session is refreshed exactly when the expiry is known and less than 30 s away; otherwise unchanged |
| `TokenLifecycle.AutoRefresh` | server/index.js:110-126 | The wrapped call runs once or twice. The first time it uses the proactively refreshed token. A second run happens only after a 401, with the newly refreshed token, and its result is the retry's. After a 401 the session is exactly what `Refresh` leaves (so the retry presents the token `Refresh` stored); without one it is the proactively refreshed session |
| `TokenLifecycle.FailedRefreshLeavesSession` | server/index.js:89-97 | A refresh that reports failure changed the session only when the tokens were written but could not be persisted |
| `TokenLifecycle.RefreshKeepsAuthenticated` | server/index.js:81-98 | A refresh never makes an authenticated session unauthenticated, nor drops a refresh token |
| `TokenLifecycle.ExpiredTokenIsRefreshed` | server/index.js:100-106 | An expiry already past always triggers the proactive refresh; an unknown expiry never does |
| `TokenLifecycle.RetryIffUnauthorizedAndRefreshed` | server/index.js:115-123 | The retry happens if and only if the first attempt failed with 401 and the reactive refresh succeeded |
| `TokenLifecycle.NoRetryRethrowsOriginal` | server/index.js:113-125 | A first attempt that is not a 401 is final: its result, no refresh, one call |
| `TokenLifecycle.FailedRefreshRethrowsOriginal` | server/index.js:117-125 | A 401 whose reactive refresh fails is rethrown unchanged after one call |
| `TokenLifecycle.AutoRefreshKeepsAuthenticated` | server/index.js:110-126 | The wrapper keeps a session authenticated and only ever presents truthy bearer tokens |
| `TokenLifecycle.RetryWithRefreshedToken` | server/__tests__/api.test.js:59-81 | The refresh-on-401 scenario: two calls with tokenA then tokenB, the retry's result, and the session holding tokenB, refreshB and a 60 s expiry |
| `TokenLifecycle.Session.constructor` | server/index.js:149-151 | A session record holds exactly the given tokens |
| `TokenLifecycle.Session.RefreshAccessToken` | server/index.js:81-98 | Updating the record field by field yields exactly `Refresh` of the old session, and returns its success flag |
| `TokenLifecycle.Session.EnsureTokenFresh` | server/index.js:100-108 | The record afterwards is exactly `EnsureFresh` of the old session |
| `TokenLifecycle.Session.WithAutoRefresh` | server/index.js:110-126 | Result, bearer tokens presented and record afterwards are exactly `AutoRefresh` of the old session |
| `History.EnergyField` | server/index.js:236 | The selected energy field is never null or undefined |
| `History.EnergyFieldPrecedence` | server/index.js:236 | The `??` chain picks the first non-nullish of kwh, energy, totalEnergy, total_kwh, else 0, as the independent `FirstPresent` does |
| `History.Aggregate` | server/index.js:234-238 | The loop succeeds exactly when no record is null or undefined (reading one throws), and then returns `TotalKwh` of the records |
| `History.SummaryJson` | server/index.js:239 | The reply object carries the window's `from` and `to`, the list length as `sessionsCount`, the total as `totalKwh`, and the list itself |
| `History.SessionList` | server/index.js:230-231 | An array body is kept, any other body and a 404 become `[]`, other failures pass through; the result is always an array |
| `History.SessionListKeepsUnauthorized` | server/index.js:231 | The 404 handling never turns a 401 into success, so refresh-and-retry still applies |
| `History.TotalKwh` | server/index.js:234-238 | The empty list totals 0 and a single record totals its energy; `TotalKwhAppend`, `TotalKwhRemove`, `TotalKwhPermutation` and `TotalKwhNonNegative` state its sum laws |
| `History.TotalKwhNonNegative` | server/index.js:234-238 | Records of non-negative energy never total a negative amount |
| `History.TotalKwhAppend` | server/index.js:234-238 | The total of two concatenated lists is the sum of their totals |
| `History.TotalKwhRemove` | server/index.js:234-238 | Removing one record subtracts exactly its energy |
| `History.TotalKwhPermutation` | server/index.js:234-238 | The total does not depend on the order of the records |
| `History.PresentNonNumberDoesNotFallThrough` | server/index.js:236-237 | A present non-number `kwh` contributes 0 and hides the later fields |
| `History.AbsentFieldsFallThrough` | server/index.js:236-237 | Nullish earlier fields fall through to `totalEnergy` |
| `History.SampleTotal` | server/__tests__/api.test.js:48-56 | Records of 1.1, 2.2 and 3.3 kWh total 6.6 |
| `Handlers.Authenticated` | server/index.js:49-54 | `requireAuth` lets a session through only with a truthy access token: never an undefined, null or empty one, always a non-empty string |
| `Handlers.MappedReply` | server/index.js:180-183 | A failure is answered with the mapper's status and message |
| `Handlers.GetState` | server/index.js:170-185 | 401 without a token and 400 without a chargerId, both with no upstream call and nothing changed. A truthy live cache value is served with no call. Otherwise the wrapped call's result is returned and cached for 3 s, or its error mapped |
| `Handlers.GetChargers` | server/index.js:186-198 | 401 without a token. Otherwise a truthy cached list is served without a call, or the fetched list is returned and cached for 30 s, or the error mapped |
| `Handlers.GetOngoingSession` | server/index.js:200-216 | 401/400 before any call. Any cached value but undefined is served, including a cached null. A fetched value is cached as `data ?? null` for 3 s. An upstream 404 is answered 200 `null` and not cached. Other errors are mapped |
| `Handlers.HistoryReply` | server/index.js:234-239 | 200 exactly when the list is an array of readable records, with exactly the `SummaryJson` body: the window's `from` and `to`, the count, `TotalKwh` and the list itself; otherwise the mapped TypeError |
| `Handlers.HistoryFlow` | server/index.js:226-239 | A history request makes no upstream call exactly when the cache holds a non-nullish list, and then replies with that list's summary, storing it again only when it is falsy; otherwise it makes the calls of one wrapped fetch, keeps its session, and replies with the fetched list's summary and caches the list, or replies with the mapped error and caches nothing |
| `Handlers.SessionHistory` | server/index.js:226-243 | The shared history path yields exactly `HistoryFlow`'s reply, calls, session and cache |
| `Handlers.GetSessions24h` | server/index.js:218-244 | 401/400 before any call; otherwise `HistoryFlow` under the `sessions24h:` key |
| `Handlers.GetSessionsRange` | server/index.js:247-272 | 401, 400 for a missing chargerId, then 400 for a missing from or to, all before any call; otherwise `HistoryFlow` under the `sessionsRange:` key |
| `Handlers.MissingHistoryIsEmpty` | server/index.js:228-239 | On a cache miss, an upstream 404 yields 200 with 0 sessions and 0 kWh after one call |
| `Handlers.FetchedHistoryIsReused` | server/index.js:226-233 | A fetched list is cached whole: the same window within 60 s gets the same reply with no upstream call |
| `Handlers.SetCurrent` | server/index.js:274-296 | 401, then 400 unless chargerId is truthy and current a number, both before any call. The commands endpoint goes first, then the settings endpoint, reporting `via`. When both fail, the settings error is mapped if it has a response, else the commands error |
| `Handlers.ChargerCommand` | server/index.js:298-320 | Pause/resume: 401/400 before any call; otherwise `{ok, response}` or the mapped error |
| `Handlers.Login` | server/index.js:128-162 | 400 without username or password. An upstream failure gets its mapped status and the mapped message, or "Login failed" when that is blank. 502 without an access token, then 500 when the session cannot start or persist. A session is established exactly when all of these pass, and exactly on `{ok:true}`, holding the returned access token, the refresh token or null, and the expiry |
| `Handlers.RepeatedStateRead` | server/index.js:170-179 | Two state reads within 3 s, the first fetching a truthy value, make upstream calls only for the first |
| `Handlers.SampleHistoryReply` | server/__tests__/api.test.js:48-56 | The history reply for 1.1, 2.2 and 3.3 kWh is 200 with 3 sessions and 6.6 kWh |
| `LiveUpdates.OngoingOrNull` | server/index.js:352 | An ongoing-session 404 reads as `null`; anything else passes through |
| `LiveUpdates.ErrorFor` | server/index.js:379-382 | The error event carries the mapper's message and status |
| `LiveUpdates.RunPass` | server/index.js:349-383 | A pass sends exactly [state, session, history] or one error event. An error keeps the throttle state. A recent history is not replaced. A sent history is the remembered one and is truthy |
| `LiveUpdates.FetchHistory` | server/index.js:358-374 | A stale history is refetched through the refresh wrapper. An upstream failure is passed on. A list that cannot be read gives the TypeError. Otherwise the result is the window's summary of the list, with `TotalKwh` as its total |
| `LiveUpdates.FetchHistoryNow` | server/index.js:358-374 | The refetch on the shared session yields exactly `FetchHistory`'s result, calls and session |
| `LiveUpdates.LoadPass` | server/index.js:349-383 | One pass on the shared session yields exactly `RunPass` of the session and throttle state it starts from |
| `LiveUpdates.LiveStream.Open` | server/index.js:332-347 | A new stream has sent only the ping, holds no history and is open |
| `LiveUpdates.LiveStream.LoadAllOnce` | server/index.js:349-383 | Appends exactly `RunPass`'s events and takes its throttle state, session and calls, keeping the ping first |
| `LiveUpdates.LiveStream.Close` | server/index.js:334 | Marks the stream closed and changes nothing else |
| `LiveUpdates.LiveStream.Tick` | server/index.js:387 | A closed stream sends nothing, calls nothing and keeps its session and history throttle; an open one runs one pass and takes its events, throttle, session and calls |
| `LiveUpdates.Subscribe` | server/index.js:325-327 | The stream opens exactly for an authenticated session with a chargerId; otherwise 401 or 400 |
| `LiveUpdates.RecentHistoryIsReused` | server/index.js:356-357 | A history at most 60 s old is resent unchanged and no session-list call is made |
| `LiveUpdates.StaleHistoryIsRefetched` | server/index.js:357-374 | A stale history that is fetched successfully is replaced, stamped with the pass time, covers the window, and costs at least three calls |
| `LiveUpdates.PassEvents` | server/index.js:349-383 | A pass sends the state read's error if it failed, else the ongoing-session read's error if that failed, else the state and session data read and the remembered history when recent; a stale history is refetched and sent and remembered with the pass's time, or its fetch error is sent instead |
| `LiveUpdates.NoOngoingSessionIsNull` | server/index.js:352 | With a successful state read, an ongoing-session 404 puts `null` in the session event of a data pass rather than an error; only a failed refetch of a stale history sends an error instead |
| `LiveUpdates.StateErrorIsReported` | server/index.js:350-382 | A failed state read gives exactly its mapped error event and keeps the throttle state |
| `LiveUpdates.HistoryFetchedAtMostOncePerMinute` | server/index.js:337-374 | After a pass that fetched the history at t1, no pass up to t1 + 60 s finds it stale |
| `LiveUpdates.PingComesFirst` | server/index.js:347-392 | A stream opened and ticked once holds the ping followed by that pass's events; after closing, a tick makes no upstream call, sends nothing and leaves the session as the pass left it |
| `DashboardFormat.FloorDiv` | server/public/main.js:268 | `Math.floor(a / b)` is the q with q·b ≤ a < q·b + b |
| `DashboardFormat.JsRem` | server/public/main.js:270 | `%` on a non-negative dividend is the remainder in [0, b); on a negative one it is in (−b, 0] |
| `DashboardFormat.PadStart` | server/public/main.js:269-271 | `padStart(w, '0')` is at least w long, ends with the input and is '0' before it |
| `DashboardFormat.NatToStringRoundTrip` | server/public/main.js:269-271 | `toString` of a natural number is all digits and reads back as the number; below 10 it is one digit, below 100 at most two |
| `DashboardFormat.LeadingZero` | server/public/main.js:269 | A leading '0' does not change a digit string's value |
| `DashboardFormat.PadStartValue` | server/public/main.js:269-271 | Zero-padding keeps the digits and the value |
| `DashboardFormat.Zeros` | server/public/main.js:269-271 | Any number of leading '0's keeps a digit string all digits and keeps its value |
| `DashboardFormat.Field` | server/public/main.js:269-271 | A padded field reads back as its value, is at least two wide, and exactly two below 100 |
| `DashboardFormat.Decompose` | server/public/main.js:268-271 | Hours, minutes < 60 and seconds < 60 recombine to the whole seconds |
| `DashboardFormat.Layout` | server/public/main.js:272 | Joining two-digit minutes and seconds to the hours with colons gives the `H:MM:SS` layout |
| `DashboardFormat.MsToHMS` | server/public/main.js:267-273 | Three fields of at least two characters each and two colons, so at least eight characters; `MsToHMSReadsBack` states what they read back as |
| `DashboardFormat.MsToHMSReadsBack` | server/public/main.js:267-273 | For ms ≥ 0 the text has colons at fixed places from the end and digits elsewhere, reads back as ms div 1000 with minutes and seconds below 60, and never truncates the hours |
| `DashboardChart.Window` | server/public/main.js:120-123 | The newest n elements, in their order |
| `DashboardChart.DropOldest` | server/public/main.js:122 | The `shift` loop leaves exactly the newest `max` elements |
| `DashboardChart.LiveChart.constructor` | server/public/main.js:70-72 | A new chart has four empty series |
| `DashboardChart.PushLivePoints` | server/public/main.js:113-126 | Each series gets the new point appended and is cut to its newest 60. Four series in lockstep stay in lockstep. Without a chart nothing changes |
| `DashboardChart.PushedWindow` | server/public/main.js:116-123 | After a push a series has min(old + 1, 60) points, the new one last, preceded by the newest old points in their order |
| `DashboardChart.FullWindowDropsOldest` | server/public/main.js:120-123 | A full series loses exactly its oldest point |
| `DashboardChart.PushKeepsLockstep` | server/public/main.js:116-123 | Series of equal length have equal length after a push |
| `DashboardUi.LeadingSpaceExact` | server/public/main.js:47 | The leading run `trim` removes is all white space and stops at the first character that is not |
| `DashboardUi.TrailingSpaceExact` | server/public/main.js:47 | The trailing run `trim` removes is all white space and stops at the last character that is not |
| `DashboardUi.Trim` | server/public/main.js:47-48 | `trim` never lengthens the text; `TrimIsSlice`, `TrimCutsOnlySpace`, `TrimmedEnds` and `TrimIdempotent` state what it keeps and cuts |
| `DashboardUi.TrimIsSlice` | server/public/main.js:47-48 | `trim` keeps a contiguous middle part of the text |
| `DashboardUi.TrimCutsOnlySpace` | server/public/main.js:47-48 | Everything `trim` cuts is white space |
| `DashboardUi.TrimmedEnds` | server/public/main.js:47-48 | A trimmed text neither starts nor ends with white space |
| `DashboardUi.TrimIdempotent` | server/public/main.js:47-48 | Trimming twice is trimming once |
| `DashboardUi.GetChargerId` | server/public/main.js:46-50 | The trimmed selection if non-empty, else the trimmed typed id; empty exactly when both are |
| `DashboardUi.ChargerIdIsTrimmed` | server/public/main.js:46-50 | The charger id never starts or ends with white space |
| `DashboardUi.OptionName` | server/public/main.js:287 | The option name is always truthy (`'Unnamed'` at the end of the chain) |
| `DashboardUi.OptionNamePrecedence` | server/public/main.js:287 | The option name is the charger's truthy `name`, else its truthy site's truthy `name`, else 'Unnamed' |
| `DashboardUi.OptionValue` | server/public/main.js:286 | The option value is one of id, chargerId, serial or '', and truthy unless it is '' |
| `DashboardUi.OptionValueOf` | server/public/main.js:281-286 | The placeholder's value is '' and a charger option's value is `OptionValue` of its charger, so every value is truthy or '' |
| `DashboardUi.Label` | server/public/main.js:282-288 | The placeholder reads 'Select your charger…'; a charger option reads its `OptionName`, then its own value in parentheses |
| `DashboardUi.OptionValuePrecedence` | server/public/main.js:286 | The option value is the first truthy of id, chargerId, serial, else '' |
| `DashboardUi.EmptyFieldsFallThrough` | server/public/main.js:286-287 | The fallbacks test truthiness: an empty id or name is skipped, where `??` would keep it |
| `DashboardUi.Listed` | server/public/main.js:284-289 | At most one option per charger |
| `DashboardUi.ListedInOrder` | server/public/main.js:284-289 | Options follow the chargers in order; every charger gets one exactly when none is null or undefined |
| `DashboardUi.ListedSplit` | server/public/main.js:284-289 | A readable prefix contributes all its options before those of the rest |
| `DashboardUi.LoadChargers` | server/public/main.js:275-293 | The selector holds the placeholder, then the options of the chargers before the first nullish one; only the placeholder for a non-array |
| `DashboardUi.Phases` | server/public/main.js:200 | 3 phases exactly when both P2 and P3 circuit currents are non-null, else 1 |
| `DashboardUi.ApiErrorMessage` | server/public/main.js:59-63 | 'Request failed' for an unparsable or null body; `body.error` when truthy; else the body's JSON |
| `DashboardUi.FixedMessagesReachTheUser` | server/public/main.js:59-63 | For a failure mapped to a fixed-message status or a 5xx, the server's mapped reply carries exactly that one message, and the `{ error }` JSON of that reply is shown to the user unchanged |

## Left out

- Express wiring, middleware, static files, `app.listen`, dotenv: plumbing. `ENABLE_CACHE` is the cache constructor's flag.
- `POST /api/logout` and `GET /api/healthy`: they only destroy the session in the external store or answer a constant.
- axios, URL building and `encodeURIComponent`: every upstream reply is an input (`Exchange`), and each handler's endpoint path is not represented.
- express-session `regenerate`/`save`: modelled only as success flags (`Login`'s `regenerated`/`saved`, `TokenReply`'s `persisted`).
- `Promise.all` in the stream pass: the two reads run one after the other on the same session. When both fail, the state read's error is reported, whereas the source reports whichever rejects first. Interleaved refreshes of the two reads are not modelled.
- Server-sent-event framing, `res.write`, `req.on('close')` and the 7-second `setInterval`: kept as the `LiveStream` event list and its `Tick`/`Close` methods.
- `Date.now()` and `toISOString`: one integer `now` per request or pass, and the window texts are inputs. Several clock reads within one request are not distinguished.
- `TokenLifecycle.ExpiryFrom`: a truthy non-number `expiresIn` (JavaScript would coerce it, possibly to NaN) is modelled as an unknown expiry. NaN is not modelled at all.
- `Handlers.HistoryReply`: a cached string would be iterated character by character by `for…of`. The model treats every non-array as the TypeError case. The cache only ever holds the arrays this path stores.
- Repeated query parameters (arrays in `req.query`) are not modelled; a query value is a string, and an absent one is "".
- The request body of set-current/pause/resume is not modelled beyond the `chargerId`/`current` values.
- Floating point: energies are exact reals, so `6.6` holds exactly. The test's tolerance, the kW estimate and `toFixed` are not modelled.
- Dashboard DOM, Chart.js, event listeners, login/logout UI flow and `toLocaleTimeString`: the chart label is an input string.
- `DashboardUi.Phases`: a `data` that is null or undefined makes the earlier `data.outputCurrent` throw in the source; the function reads such data as having no circuit currents.
- `DashboardFormat.MsToHMSReadsBack`: negative durations (a start time in the future) are formatted with JavaScript's truncating `%`, but no property is stated for them.
