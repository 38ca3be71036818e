# Tuya power monitor: the telemetry pipeline and the Tuya bridge

This project models the decision logic of a small solar-power monitor. A browser dashboard
(App.tsx) subscribes to an MQTT topic of power readings in watts. It keeps a newest-first
log capped at 100 entries. It forwards readings above a threshold to a serverless function
(netlify/functions/send-to-tuya.js). That function signs requests to the Tuya Cloud API,
caches the access token, sends one `power_value` command to the device, and answers with an
HTTP status code.

- `wrappers.dfy` holds module `Wrappers` (`Option`, `Result`).
- `pipeline.dfy` holds module `Pipeline`. It contains the log (`AddLog`, `AddLogs`), the
  status label (`GetStatus`) and the class `Monitor`. `Monitor` has the fields `isRunning`,
  `logs`, `currentPower` and `lastUpdate`, with one method per broker or UI event. The
  outcome of each external action is a parameter: the payload parse result, the subscribe
  result and the send result.
- `tuya_bridge.dfy` holds module `TuyaBridge`. It contains the regional base URL, decimal
  timestamps, `calculateSign`, the token and command requests, the reading of Tuya's
  answers, and the handler's ordered checks. The class `TuyaFunction` holds the module-wide
  `tokenCache` and the methods `GetAccessToken` and `Handle`. HMAC-SHA256 and
  `JSON.stringify` are the two arbitrary functions of a `Crypto` value. `Date.now()` is a
  `now` parameter. Every `fetch` answer is an input datatype. The requests the function
  would send are returned so that their URL, headers and signature can be stated.

Three behaviours of the code are worth noting, and the model follows them:

- The `close` handler's guard reads the run flag as it was when the effect started. That
  value is always true, so every close logs a WARNING, including one after a stop
  (`Monitor.OnClose`).
- A malformed body gets 500 with the upstream-failure prefix; only a `power` that is not
  a number gets 400 (`Precheck`).
- A renewal granting 60 seconds or less stores an expiry that is not after `now`, and the
  new token is still returned. `RenewalThenHit` states exactly when a second
  call is a cache hit.

## Model

| member | source | states |
|---|---|---|
| Pipeline.AddLog | App.tsx:20-27 | the new entry is at index 0; the length is min(old + 1, 100), so never over 100; entry i+1 is old entry i, so the first min(old, 99) old entries keep their order and only entries past position 99 are dropped |
| Pipeline.AddLogsWindow | App.tsx:26 | from a log of at most 100 entries, any run of addLog calls leaves exactly the 100 most recent entries, newest first |
| Pipeline.GetStatus | App.tsx:119-127 | NAPAKA iff the newest entry is ERROR, whatever the run flag; otherwise DELUJE iff running, else USTAVLJENO; an empty log never gives NAPAKA |
| Pipeline.StatusAfterAddLog | App.tsx:119-127 | right after any addLog, the status is NAPAKA iff the added entry is ERROR, and otherwise follows the run flag |
| Pipeline.Monitor.constructor | App.tsx:14-17 | the component starts stopped, with an empty log and no reading or update, so its status is USTAVLJENO |
| Pipeline.Monitor.HandleToggle | App.tsx:115-117 | flips the run flag and changes nothing else |
| Pipeline.Monitor.BeginConnect | App.tsx:29-45 | when the run flag is on, the effect adds one INFO entry naming the broker host |
| Pipeline.Monitor.OnConnect | App.tsx:47-57 | a SUCCESS "connected" entry, then an INFO "subscribed" entry with the run flag unchanged, or one ERROR entry with the reason, the run stopped and the status NAPAKA |
| Pipeline.Monitor.OnMessage | App.tsx:60-85 | no number: one WARNING, no send, nothing else changes. A reading: the current power is set and an INFO "received" entry comes first. At or below the threshold: one INFO skip entry, no send, flag and last update unchanged. Above it: an INFO forward entry, then exactly one send with the reading. Success logs SUCCESS and sets last update, flag unchanged. Failure logs one ERROR, stops, leaves last update alone, status NAPAKA |
| Pipeline.Monitor.OnError | App.tsx:87-91 | exactly one ERROR entry with the broker's reason; the run stops and the status is NAPAKA |
| Pipeline.Monitor.OnClose | App.tsx:93-97 | every close adds one WARNING entry, because the guard's captured flag is always true; nothing else changes |
| TuyaBridge.BaseUrl | netlify/functions/send-to-tuya.js:9-19 | cn, us, eu and in each map to their own URL; an unset region maps to the EU URL; any other name falls back to the EU URL |
| TuyaBridge.BaseUrlAsWritten | netlify/functions/send-to-tuya.js:12-19 | the lookup as written returns an inherited object member for Object.prototype names, and otherwise agrees with BaseUrl |
| TuyaBridge.InheritedRegionBypassesFallback | netlify/functions/send-to-tuya.js:19 | the region "toString" yields an inherited member, not the EU URL, where the corrected lookup gives EU |
| TuyaBridge.DecimalRoundTrip | netlify/functions/send-to-tuya.js:43 | the decimal text of a timestamp reads back to the same number, so distinct timestamps have distinct texts |
| TuyaBridge.CalculateSign | netlify/functions/send-to-tuya.js:27-33 | the signature is the HMAC hex digest of the string to sign under the secret, upper-cased character by character, with no lower-case letter left |
| TuyaBridge.TokenRequest | netlify/functions/send-to-tuya.js:41-53 | a GET to the token path with exactly the headers client_id, t, sign, sign_method, dev_lang; `t` is the decimal timestamp; sign is calculateSign over accessId followed by that same `t` |
| TuyaBridge.TokenSignedTimestamp | netlify/functions/send-to-tuya.js:43-45 | the token request's string to sign holds the timestamp right after the access id, and it reads back to `now` |
| TuyaBridge.Round | netlify/functions/send-to-tuya.js:78 | Math.round gives the integer r with x - 1/2 < r <= x + 1/2 |
| TuyaBridge.RoundIsNearest | netlify/functions/send-to-tuya.js:78 | no integer is nearer to the reading than the rounded value; on a tie the other candidate is the lower one (ties round towards +infinity) |
| TuyaBridge.PowerCommand | netlify/functions/send-to-tuya.js:74-81 | the body holds exactly one command, code power_value, whose value is the reading rounded to the nearest integer |
| TuyaBridge.CommandRequest | netlify/functions/send-to-tuya.js:83-103 | a POST to /v1.0/devices/{id}/commands with the serialised body and exactly the six headers; `t` is the decimal timestamp, access_token is the token, sign is calculateSign over accessId ++ token ++ t ++ body |
| TuyaBridge.CommandSignatureBindsTimestamp | netlify/functions/send-to-tuya.js:85-88 | with the id, token and body fixed, equal command strings to sign imply equal timestamps |
| TuyaBridge.CacheHit | netlify/functions/send-to-tuya.js:36-39 | when the cached token is truthy and now < expires_at, it is returned and the cache is left unchanged, whatever Tuya would answer |
| TuyaBridge.ExpiryIsStrict | netlify/functions/send-to-tuya.js:37 | at now == expires_at the cache does not serve, so a renewal happens |
| TuyaBridge.RenewalThenHit | netlify/functions/send-to-tuya.js:62-68 | a successful renewal replaces the cache with {token, now + (expire_time - 60) * 1000} and returns that token; a second call at the same now is a hit iff the token is non-empty and expire_time > 60, and then returns the same token |
| TuyaBridge.RenewalExtendsExpiry | netlify/functions/send-to-tuya.js:62-67 | renewing a cache whose expiry has passed (empty or not) with more than 60 s granted gives a strictly later expiry |
| TuyaBridge.FailedRenewalKeepsCache | netlify/functions/send-to-tuya.js:58-60 | an answer with success false, or no answer, leaves the cache unchanged; an unsuccessful answer fails with "Failed to get Tuya token: " followed by its msg |
| TuyaBridge.TuyaFunction.GetAccessToken | netlify/functions/send-to-tuya.js:35-69 | the token request is made, and returned, iff the cache cannot serve at `now`; the result and the new cache are TokenOutcome and CacheAfter of the old cache |
| TuyaBridge.TuyaFunction.constructor | netlify/functions/send-to-tuya.js:19-25 | BASE_URL is chosen once from the region, and the cache starts with no token and expiry 0 |
| TuyaBridge.CommandError | netlify/functions/send-to-tuya.js:106-111 | the message starts "Tuya API error: ", then Tuya's msg, or "Unknown error from Tuya API" when msg is empty or absent; it ends " (Code: <code>)", or " (Code: N/A)" when code is 0 or absent; its length is exactly the sum of those three parts, so nothing lies between them |
| TuyaBridge.RejectedCommandMessage | netlify/functions/send-to-tuya.js:106-111 | msg "token invalid" with code 1010 gives "Tuya API error: token invalid (Code: 1010)" |
| TuyaBridge.CheckCommandReply | netlify/functions/send-to-tuya.js:99-112 | sendCommand succeeds iff Tuya answers with success; otherwise it fails with the CommandError text, or with the fetch error when there is no answer |
| TuyaBridge.Precheck | netlify/functions/send-to-tuya.js:115-130 | in order: not POST gives 405; any of the three credentials missing or empty gives 500; a body that cannot be parsed gives 500 with the upstream-failure prefix; a power that is not a number gives 400; only when all checks pass does the reading go on |
| TuyaBridge.TuyaFunction.Handle | netlify/functions/send-to-tuya.js:115-147 | a failed precheck returns its response with no request and the cache untouched; otherwise a token failure gives 500 with the prefix and no command; with a token, exactly one command request follows, and the answer gives 200 or 500 with the prefix; the status is always 200, 400, 405 or 500 |

## Findings

| source | as written | input that shows it | evidently intended | confidence | as-written member | corrected member |
|---|---|---|---|---|---|---|
| netlify/functions/send-to-tuya.js:19 | `BASE_URLS[TUYA_API_REGION]` also finds members inherited from `Object.prototype`. They are truthy, so the fallback to `BASE_URLS.eu` is skipped and BASE_URL becomes a function or object instead of a URL | TUYA_API_REGION=toString | every name other than cn, us, eu and in falls back to the EU URL | medium, not executed | TuyaBridge.BaseUrlAsWritten | TuyaBridge.BaseUrl |

## Left out

- The MQTT transport is not modelled: `mqtt.connect`, the connect options, the random client id, the one-second reconnect and the registration of callbacks. Each broker event is a `Monitor` method call instead.
- The React effect lifecycle is not modelled: the client ref, the cleanup that ends the client, and the "disconnecting" INFO entry of the stop branch. Only the start branch's INFO entry is modelled (`Monitor.BeginConnect`).
- Message handlers can interleave while a send is awaited, but this is not modelled. Each message and the outcome of its send form one atomic step (`Monitor.OnMessage`).
- `parseFloat`, `toFixed`, `toLocaleTimeString` and the string formatting of log entries are not modelled. A log entry's text is a `Message` constructor carrying the interpolated values. Readings are reals, not IEEE doubles. `currentPower` holds the reading rather than its formatted text.
- Pipeline.Monitor.OnConnect: the `connect` event and the later subscribe callback form one atomic step, so an `error` or `close` arriving between them is not modelled and the SUCCESS and subscribe entries are always adjacent in the log.
- TuyaBridge.TuyaFunction.constructor: the instance stores the corrected lookup `BaseUrl`, so for a region named after an inherited object member (`toString`, ...) it sends to the EU URL, where the code's `BASE_URL` is that member and every fetch fails (see Findings and `BaseUrlAsWritten`).
- Pipeline.Monitor.OnMessage: all entries of one event share a single timestamp `now`, while the source takes a fresh `new Date()` for each entry.
- The `fetch` I/O, `response.json()` and the JSON shape of Tuya's answers are not modelled. A successful token answer without a `result` object is not modelled.
- TuyaBridge.CalculateSign: the HMAC is an arbitrary function, so the model does not state that it is SHA-256. Upper-casing covers ASCII letters only, which is all a hex digest contains.
- `console.error` logging and the 200 response's formatted power text are not modelled (`PowerSent` carries the reading).
- services/powerService.ts, services/tuyaService.ts, components/*, constants.ts and types.ts are not part of this model. The threshold, broker host and topic are `Monitor` constants, and `LogType` is a datatype.
- Concurrent invocations of the serverless function, and the cache shared between them, are not modelled. One `TuyaFunction` object stands for one warm instance handling one request at a time.
