# Request wrapper with single-flight token refresh — a verified model

The modelled code is the request layer of a mini-program: `src/lib/api-client.js` and
the helpers in `src/lib/index.js`. That request layer

- builds a request descriptor from the caller's options. The URL is completed against
  the server's base URL, and missing or falsy fields get defaults (`GET`, `{}`, `{}`,
  30000 ms, `json`);
- runs the request interceptor. It writes the stored access token into `Authorization`,
  and adds `Content-Type: application/json` for every method except `GET` and `DELETE`;
- classifies what the host transport reports. A transport failure or an HTTP status
  other than 200 rejects at once. Otherwise the body must be an object with a `code`:
  `200` resolves with the envelope, `401` hands over to the token refresh, and any other
  code rejects with the envelope;
- coordinates the token refresh through a single flag, `isRefreshing`, and a FIFO list,
  `requests`, of deferred retries. The first 401 starts the one refresh. Later 401s are
  deferred. When the refresh succeeds it re-issues the deferred requests and then the
  triggering request, each with the new token;
- uploads files with its own, reduced checks (`uploadImage`);
- formats a millisecond count as `HH:MM:SS` (`formatTimeDiff`), and completes resource
  URLs (`resolveResourceURL`).

Modules, one per component:

| module | file | models |
|---|---|---|
| `Wrappers` | wrappers.dfy | `Option` and `Result` |
| `Text` | text.dfy | `toString` of a natural number and `padStart`, with their inverses; `SplitOn`, which the program does not use, is the splitting step of the parser against which the formatter's round trip is stated |
| `Lib` | lib.dfy | src/lib/index.js |
| `RequestConfig` | request_config.dfy | config construction in `request` and `requestInterceptor` |
| `ResponseGate` | response_gate.dfy | the status gate in `request` and the envelope checks of `responseInterceptor` |
| `Refresh` | refresh.dfy | `isRefreshing`/`requests` and the refresh chain: `Step`/`Run` as the specification, class `RefreshCoordinator` with one method per event |
| `Upload` | upload.dfy | `uploadImage` |

The stored token is a parameter. The empty string stands for a missing token, because
it is falsy just as an absent value is. Transport outcomes are inputs to the
classifiers. The refresh routine itself appears only through its outcome, as the events
`TokenRefreshed(token)` and `RefreshRejected`.

Behaviour of the code that the model makes explicit:

- **The flag stays set until the retried trigger settles.** The flag is cleared by the
  `.finally` at src/lib/api-client.js:79-81. That callback runs only after the promise
  returned by the `.then` handler has settled, and that promise is the promise of the
  re-issued triggering request. So `Chain` has a third position, `AwaitingRetry`. While
  the chain is there, every 401 is deferred and no refresh starts
  (`Refresh.RetryInFlightDefersAll`). If the retried trigger itself meets a 401, it is
  deferred behind a flag that only its own settlement would clear, and every later 401
  waits as well.
- **A rejected retry counts as a failed refresh.** If the re-issued trigger is rejected,
  the same `.catch` that handles a failed refresh takes it. Storage is cleared and the
  trigger is rejected with its original 401 envelope (`SessionLost`).
- **After a failed refresh, deferred requests stay queued.** They are not released, but
  they are not dropped either. The next successful refresh re-issues them ahead of its
  own trigger (`Refresh.FailedRefreshKeepsQueue`).
- **A 401 that arrives while the retried trigger is in flight stays queued after it
  settles.** It is appended to `requests` (src/lib/api-client.js:85-89), and settling the
  retry only clears the flag (src/lib/api-client.js:79-81). The model keeps it in the
  queue through `RetrySettled` (`Refresh.DeferredDuringRetryStayQueued`). It is
  released only if a later 401 starts another refresh and that refresh succeeds.
- **Retries resolve the URL again.** A retry passes the old descriptor back into
  `request`, so the URL is resolved a second time. Because `API_BASE_URL` starts with
  `"http"`, doing so changes nothing. The retried descriptor is exactly the one the
  caller's options would give with the new token (`RequestConfig.RetryMatchesFreshRequest`).

## Model

| member | source | states |
|---|---|---|
| `Text.DecimalString` | src/lib/index.js:22 | `n.toString()`: a non-empty string of digits with no leading zero; one digit exactly below 10, at most two below 100 |
| `Text.DecimalRoundTrip` | src/lib/index.js:22 | reading the numeral back gives `n` |
| `Text.PadStart` | src/lib/index.js:22 | `padStart(width, fill)`: the result has length `max(|s|, width)`, ends with `s`, and has only `fill` in front of it |
| `Text.PaddedNumeral` | src/lib/index.js:22 | a numeral padded with `'0'` is still all digits and denotes the same number |
| `Lib.Components` | src/lib/index.js:17-19 | minutes and seconds are in 0..59, hours are unbounded, and `h*3600000 + m*60000 + s*1000 <= timeDiff < that + 1000` |
| `Lib.ComponentsUnique` | src/lib/index.js:17-19 | any normal reading within one second below `timeDiff` is the one computed: only the sub-second remainder is dropped |
| `Lib.Field` | src/lib/index.js:22 | each field denotes its component: a single digit gets one `'0'` in front, any number from 10 on is its plain numeral with no padding |
| `Lib.Render` | src/lib/index.js:22 | the template literal: three fields joined by `':'`, which read back as the hours, minutes and seconds of the reading |
| `Lib.FormatTimeDiff` | src/lib/index.js:15-23 | the output is three decimal fields joined by `':'` that spell the components of `timeDiff` (its length and injectivity are the two lemmas below) |
| `Lib.FormatTimeDiffInjective` | src/lib/index.js:15-23 | two durations give the same text if and only if they agree in whole seconds |
| `Lib.RenderShape` | src/lib/index.js:22 | for every normal reading the text is the hours field, however long, then `':'`, two digits, `':'` and two digits |
| `Lib.FormatTimeDiffHours` | src/lib/index.js:17-22 | from ten hours on the output starts with the plain numeral of the hours, neither wrapped at 24 nor padded, followed by six characters |
| `Lib.FormatTimeDiffLength` | src/lib/index.js:22 | below 100 hours the output is 8 characters long, with `':'` at positions 2 and 5 |
| `Lib.ResolveResourceURL` | src/lib/index.js:28-30 | a URL starting with `"http"` is returned unchanged, anything else gets `API_BASE_URL` in front; the result always starts with `"http"` and ends with the input |
| `Lib.ResolveResourceURLIdempotent` | src/lib/index.js:3 | resolving twice is resolving once, because the base URL starts with `"http"` |
| `RequestConfig.OrDefault` | src/lib/api-client.js:167 | JavaScript `or` on an optional string: a present, non-empty string is kept, otherwise the fallback |
| `RequestConfig.TimeoutOrDefault` | src/lib/api-client.js:170 | the timeout default: absent and `0` both become 30000, and the result is never 0 |
| `RequestConfig.BuildConfig` | src/lib/api-client.js:165-172 | the URL is resolved; a missing or falsy method becomes `GET`, data and header become `{}`, timeout becomes 30000, dataType becomes `json`; present values are kept; the result is normalized |
| `RequestConfig.AsOptions` | src/lib/api-client.js:64 | a descriptor passed back into `request` as its options; a normalized one comes out of the construction unchanged |
| `RequestConfig.BuildConfigIdempotent` | src/lib/api-client.js:165-172 | building from a built descriptor reproduces it |
| `RequestConfig.Intercept` | src/lib/api-client.js:12-29 | a non-empty token is written to `Authorization` and overrides the caller's value; with no token `Authorization` is left as it was; `Content-Type: application/json` is set when the method is neither `GET` nor `DELETE` and left alone otherwise; every other key and field is unchanged; the new key set is the old one plus exactly those keys |
| `RequestConfig.InterceptIdempotent` | src/lib/api-client.js:12-29 | intercepting twice with one token is intercepting once |
| `RequestConfig.Prepare` | src/lib/api-client.js:165-175 | the descriptor handed to the transport is normalized and, apart from its header, is the descriptor the options build (resolved URL, defaulted method, data, timeout and dataType); the header is the built one with the token, when there is one, in `Authorization` and the JSON content type for methods other than `GET` and `DELETE`; every other key, and those two where they are not written, is the built one |
| `RequestConfig.Authorize` | src/lib/api-client.js:63 | writing the token into `Authorization` changes that key only |
| `RequestConfig.RetryMatchesFreshRequest` | src/lib/api-client.js:62-64 | a descriptor retried with a new, non-empty token equals the descriptor the original options give with that token |
| `ResponseGate.InterceptResponse` | src/lib/api-client.js:32-101 | a falsy, non-object or code-less body is a format error; code 200 resolves with the envelope unchanged; 401 is session expiry; any other code is a business rejection carrying the envelope |
| `ResponseGate.Classify` | src/lib/api-client.js:181-211 | a transport failure is a network error; a status other than 200 is an HTTP error with that status; status 200 goes to the envelope checks |
| `ResponseGate.StatusGateIgnoresBody` | src/lib/api-client.js:186-202 | with a status other than 200 the body cannot change the verdict |
| `ResponseGate.ResolvesOnlyOnSuccess` | src/lib/api-client.js:186-191 | the first response's verdict is `Resolved` if and only if the status is 200 and the envelope's code is 200, and it resolves with that envelope |
| `Refresh.AuthorizeAll` | src/lib/api-client.js:58 | the queued configs, in order, each with the token in `Authorization` |
| `Refresh.Step` | src/lib/api-client.js:46-91 | one event keeps `isRefreshing` equivalent to "a refresh chain is in progress"; a refresh starts exactly on a 401 while not refreshing; a 401 always leaves the flag set |
| `Refresh.RunConsistent` | src/lib/api-client.js:8-9 | that agreement between the flag and the refresh chain holds after any sequence of events |
| `Refresh.SingleFlight` | src/lib/api-client.js:48-52 | until the chain settles, the number of refreshes started is 1 if a 401 arrives while idle and 0 otherwise; the flag is then set |
| `Refresh.DeferAll` | src/lib/api-client.js:82-90 | while a chain is in progress, 401s are appended to the queue in arrival order, each with a `Deferred` effect |
| `Refresh.ConcurrentUnauthorized` | src/lib/api-client.js:46-90 | N concurrent 401s and a successful refresh: one refresh, N-1 deferrals, then every waiting request re-issued with the new token, earlier deferrals first, the trigger last; the queue ends empty |
| `Refresh.ReissueCarriesToken` | src/lib/api-client.js:58-63 | every re-issued request carries the new token in `Authorization` |
| `Refresh.FailedRefreshKeepsQueue` | src/lib/api-client.js:66-81 | a failed refresh clears the flag and keeps the queue, and the next successful refresh re-issues those requests before its own trigger |
| `Refresh.RetryInFlightDefersAll` | src/lib/api-client.js:79-81 | until the re-issued trigger settles the flag stays set, every 401 is deferred, and no refresh starts |
| `Refresh.DeferredDuringRetryStayQueued` | src/lib/api-client.js:79-89 | the 401s deferred while the retried trigger is in flight are still queued once it settles, either way; the flag is cleared, the chain is idle, and the settlement releases nothing |
| `Refresh.RefreshCoordinator.constructor` | src/lib/api-client.js:8-9 | the module starts out not refreshing, with an empty queue |
| `Refresh.RefreshCoordinator.OnUnauthorized` | src/lib/api-client.js:46-90 | the state follows `Step`: while idle the flag is set and one refresh starts; otherwise the config is appended to `requests` |
| `Refresh.RefreshCoordinator.OnTokenRefreshed` | src/lib/api-client.js:53-65 | the loop re-issues the queue in order with the token, then the trigger; `requests` becomes empty; the flag stays set |
| `Refresh.RefreshCoordinator.OnRefreshRejected` | src/lib/api-client.js:66-81 | the flag is cleared, the queue is unchanged, and the session is lost |
| `Refresh.RefreshCoordinator.OnRetrySettled` | src/lib/api-client.js:64-81 | the flag is cleared; a rejected retry loses the session just as a failed refresh does |
| `Refresh.RefreshCoordinator.Respond` | src/lib/api-client.js:183-194 | the verdict is the classification; the coordinator is involved exactly on a 401 envelope, and its state is unchanged otherwise |
| `Upload.PrepareUpload` | src/lib/api-client.js:290-311 | fails exactly when `url`, `filePath` or `name` is empty; otherwise the URL is resolved, form data defaults to `{}`, and the caller's header is copied with the token, if any, in `Authorization` and nothing else changed |
| `Upload.ClassifyUpload` | src/lib/api-client.js:312-348 | a transport failure is a network error; resolves exactly on status 200 with a parsed body whose code is 200, with that body; a status other than 200 is an HTTP error with that status; on status 200 an unparseable or `null` body is a parse error; any other rejection carries the parsed body; there is no refresh outcome |
| `Upload.UploadImage` | src/lib/api-client.js:290-351 | rejects for a missing parameter exactly when a required option is empty; otherwise the outcome is the classification of the transport's report |
| `Upload.MissingRejectsWithoutTransport` | src/lib/api-client.js:291-293 | with a missing required option, the transport's report does not affect the outcome |
| `Upload.UploadAgainstRequest` | src/lib/api-client.js:320-329 | an upload succeeds exactly when a request with that status and body would; a 401 envelope is rejected instead of refreshing; a body without `code` is rejected with the body rather than as a format error |

## Left out

- Host primitives (`uni.request`, `uni.uploadFile`, `uni.getStorageSync`, `uni.setStorageSync`, `uni.clearStorageSync`, `uni.login`, `uni.showToast`): these are platform I/O. The stored token is a parameter, transport reports are inputs, and storage writes appear only as the effects `Reissue` (the new token is stored) and `SessionLost` (storage is cleared). The storage keys `ACCESS_TOKEN_KEY` and `ACCOUNT_INFO_KEY` (src/lib/index.js:1-2) serve only those storage calls, so they are not modelled.
- `refreshToken` (src/lib/api-client.js:107-156): a chain of calls to the login provider and the server. Only its outcome is modelled, as an event. Its write of user information is a storage side effect and is not modelled. That write uses the literal key `'ACCOUNT_INFO_KEY'`, not the constant `ACCOUNT_INFO_KEY`. Its own login request goes through `request` too, so it also gets the stored token from the interceptor. A 401 on that request would also be deferred behind the flag.
- Promises: the promise objects of deferred and retried requests, and the values they finally resolve with, are not modelled. The model states which requests are re-issued, in which order, and with which descriptor.
- Toast texts and console logging.
- The `GET`, `POST`, `PUT` and `DELETE` shortcuts (src/lib/api-client.js:223-278): they only assemble an options object by object spread, and `options` can override the method.
- `JSON.parse` of the upload body and the structure of JSON values: a body is abstracted to "not an object" or an envelope with an optional integer `code` and a `msg`. A non-numeric `code` such as the string `"200"` fails the strict comparisons in the same way as an integer other than 200 and 401, so it is covered by such an integer. Payloads and header values are maps from strings to strings.
- Falsy values other than absence and the empty string (`null`, `false`, `NaN`) are all represented by absence. A missing `url` makes `options.url.startsWith` throw; the model takes `url` as a string.
- Aliasing: headers and descriptors are values here. In the source, the retry path writes `Authorization` into the descriptor object in place. When the interceptor did not replace the header object (a `GET` or `DELETE` without a token), that write also lands in the header object the caller passed in.
- `formatTimeDiff` on negative or fractional input, and double-precision effects: the model uses exact natural-number division. The source divides in floating point. For very large inputs the quotient can round up, and `toString` switches to exponent notation.
- `TASK_STATUS_MAP` (src/lib/index.js:5-12): a constant presentation table.
