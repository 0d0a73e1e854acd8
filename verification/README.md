# build-api client: response handling and device-log streaming

A Dafny model of the decision logic in `lib/imp.js` of the Electric Imp
build-API client (version 0.3.0). The client wraps an HTTP library. It
normalises each HTTP outcome into an `(err, data)` callback pair and
validates request options against per-endpoint allow-lists. Its main job is
to tail a device's logs by long polling.

The model has five modules:

- `Values` (values.dfy): the JavaScript values the client handles, made
  explicit as tagged data. These are error codes (number or string), the
  service's error record `{code, message_short, message_full}`, transport
  faults and decoded bodies (absent, text, scalar or object). It also defines
  JavaScript truthiness and loose `==` against a number.
- `Client` (client.dfy): the `Imp` constructor and its defaults,
  `_buildError` and `_buildUrl`.
- `Responses` (responses.dfy): `_processResp`.
- `Requests` (requests.dfy): `apiRequest` validation, the `getDeviceLogs`
  allow-list and the options record built by `_req`.
- `LogStream` (log_stream.dfy): `streamDeviceLogs` and the callback built by
  `_streamCallbackFactory`.
  - The stream's state is a cursor: an optional continuation handle
    (`streamUrl`) and an optional last timestamp (`lastTS`).
  - `Launch` chooses the next request from the cursor.
  - `React` is the callback: it updates the cursor and decides whether the
    consumer's callback (the sink) is called and whether streaming goes on.
  - `Step` is one round; `Run` and `Drive` take the stream through a finite
    list of outcomes.
  - `RunMatchesReference` proves that delivery and halting depend only on
    the outcomes, not on the cursor or the clock. It compares `Run` with
    `ExpectedSinks` and `Survivors`, which do not track the cursor.

The clock is a parameter: each outcome comes with the `now` at which it
arrived. One value per callback is enough. On a 504 the code sets `lastTS`
to a non-empty time, so `streamDeviceLogs` does not read the clock a second
time in the same callback. The base64 encoding of the API key is the
parameter `encode` of `Requests.Req`.

Points worth noting about the code:

- On a 504 the code keeps the continuation handle (lib/imp.js:154), so the
  next request polls the same URL (`LogStream.TimeoutKeepsPollUrl`).
- A rejected handle is recognised by the error record's own `code` being
  loosely equal to 400 and its `message_short` being "InvalidLogToken". The
  HTTP status is not what is compared (`LogStream.EmbeddedTokenErrorNeedsCode400`).
- A transport error is fatal unless its own `code` is loosely equal to 504.
- Timestamps are opaque strings that are never compared. The code does not
  keep them from moving backward: on a 504, `lastTS` becomes the current
  time.
- There is no cancellation.
- A 2xx reply whose body is not an object (empty, text or a number) makes
  `"logs" in data` throw. The stream then dies without a sink call; this is
  `Crashed` in the model.

## Model

| member | source | states |
|---|---|---|
| Client.NewImp | lib/imp.js:5-16 | each of apiKey, apiBase and apiVersion takes the settings object's value when the object names it, else its default (null, "build.electricimp.com", "/v4") |
| Client.GarbageSettingsAreDefaults | lib/imp.js:7 | a settings argument that is not an object gives the same client as an empty object: the three defaults |
| Client.OnlyNamedSettingsMatter | lib/imp.js:13-15 | two settings objects that agree on the three named keys configure the same client |
| Client.BuildError | lib/imp.js:18-26 | the error record carries the given code and short message; its full message is the given one, or the short one when omitted |
| Client.OmittedFullMessageIsShort | lib/imp.js:19 | omitting the full message equals passing the short message as the full one |
| Client.BuildUrl | lib/imp.js:28-42 | the URL splits back into "https://", the API host, the version (present iff includeVersion, which defaults to true) and the path |
| Client.BuildUrlIncludesVersionByDefault | lib/imp.js:29-30 | an omitted includeVersion behaves as true |
| Client.VersionedUrlIsUnversionedPrefixedPath | lib/imp.js:33-39 | the versioned URL of a path is the unversioned URL of the version followed by the path |
| Responses.ResponseError | lib/imp.js:52-62 | for a failed response: a non-empty text body becomes both messages under the status code; an object body's error record is used verbatim; anything else gives the status code with the status text as both messages |
| Responses.ProcessResp | lib/imp.js:44-69 | a transport error passes through unchanged with no data; the reply is data iff the status is in [200,300), and then it is the body; any other status gives the normalised error |
| Responses.StatusErrorsHaveOneMessage | lib/imp.js:52-62 | without an error record in the body, a failed response reports its status code with equal short and full messages, the body text if there is one, else the status text |
| Responses.EmptyTextIsNoBody | lib/imp.js:55 | on a failed response an empty text body is falsy and yields the same error as no body |
| Requests.FirstInvalid | lib/imp.js:104-110 | finds the first option key not allowed; none iff every key is allowed |
| Requests.InvalidParamError | lib/imp.js:106 | the rejection has code "InvalidParam" and both messages "Invalid Parameter: " + key |
| Requests.ApiRequestAsWritten | lib/imp.js:99-114 | the code as written rejects a call iff some key is neither in the allow-list nor an inherited Object.prototype name, reporting the first such key as InvalidParam with both messages "Invalid Parameter: " + key, and otherwise forwards the options unchanged with null headers |
| Requests.ApiRequest | lib/imp.js:99-114 | missing options or allow-list count as empty; a call is rejected before any request iff some option key is not in the allow-list, reporting the first such key as InvalidParam; otherwise the options are forwarded unchanged with null headers |
| Requests.PrototypeKeyEscapesValidation | lib/imp.js:105 | the option key "constructor" passes the device-log allow-list as written, and is rejected by the intended check |
| Requests.FirstInvalidIgnoresUnusedNames | lib/imp.js:104-110 | adding names that no option key uses to an allow-list leaves the first rejected key, or the absence of one, unchanged |
| Requests.AsWrittenAgreesWithoutPrototypeKeys | lib/imp.js:104-110 | as written and intended validation agree whenever no key is an inherited name |
| Requests.GetDeviceLogs | lib/imp.js:143-146 | a device-log request is rejected iff some key is neither in {since, type, wait, token} nor an inherited Object.prototype name (the check as written), reporting the first such key as InvalidParam; otherwise it is a GET of the versioned "/devices/<id>/logs" URL with the options unchanged |
| Requests.SinceAlwaysAllowed | lib/imp.js:144 | a `{since}` option always passes the device-log allow-list, as written and as intended, and is sent as the only parameter |
| Requests.ToUpper | lib/imp.js:73 | upper-casing keeps the length, replaces each ASCII lower-case letter by the letter at the same place in "ABCDEFGHIJKLMNOPQRSTUVWXYZ", and leaves every other character as it is |
| Requests.ToUpperIdempotent | lib/imp.js:73 | upper-casing an upper-cased verb changes nothing |
| Requests.Req | lib/imp.js:71-92 | the method is the upper-cased verb with json on; a body goes to the query string exactly for GET and to the body otherwise, and nowhere when absent; the headers are the defaults with every caller header overriding |
| Requests.VerbCaseIgnored | lib/imp.js:73 | every verb builds the same options as its upper-case spelling, so "get" also puts the body in the query string |
| Requests.Dispatch | lib/imp.js:113 | a rejected call makes no request; a sent call becomes options whose query string (GET) or body (otherwise) holds its parameters |
| LogStream.Classify | lib/imp.js:150-169 | a reply is a delivery iff it is object data, a throw iff it is other data, a timeout iff the error code is loosely 504, a rejected handle iff not a timeout and the code is loosely 400 with short message "InvalidLogToken", and fatal otherwise |
| LogStream.React | lib/imp.js:149-177 | on object data the sink is called once with the data iff it has log lines, lastTS becomes the last line's timestamp iff there are lines and is otherwise kept, the handle becomes poll_url or null, and streaming goes on; on a timeout lastTS becomes now and the handle is kept; on a rejected handle the handle is dropped and lastTS kept; any other error is reported once and stops the stream |
| LogStream.Launch | lib/imp.js:180-188 | every request passes validation and is a GET with null headers; with a truthy handle it polls the handle's unversioned URL with no options; otherwise it asks the log endpoint `{since: lastTS}`, using now when lastTS is missing or empty |
| LogStream.PollCallIsAsWritten | lib/imp.js:182 | the poll of a continuation handle is the call `apiRequest` as written makes: an unversioned GET of the handle with no options, never rejected |
| LogStream.Step | lib/imp.js:148-188 | a round continues iff the outcome does not stop the stream, stops with the error iff it is fatal, calls the sink iff a batch with log lines arrived, and always issues a valid next request when it continues |
| LogStream.Run | lib/imp.js:148-188 | a run over n outcomes issues at most n requests |
| LogStream.Survivors | lib/imp.js:164-169 | counts the outcomes before the first one that stops the stream |
| LogStream.RunMatchesReference | lib/imp.js:148-188 | the sink calls are exactly the batches with log lines up to the first stopping outcome, then that outcome's error if it is one; one request is issued per outcome before it and none after; the run stays live iff nothing stops it, and halts iff the stopping outcome is an error |
| LogStream.RunRequestsAreSent | lib/imp.js:180-188 | every request a run issues passes validation and is a GET |
| LogStream.ExpectedErrorsAreFinalAndFatal | lib/imp.js:150-167 | in the reference, an error reaches the consumer at most once, only last, and never for a timeout or a rejected handle |
| LogStream.RunErrorsAreFinalAndFatal | lib/imp.js:150-167 | in a run an error sink call is the last one, happens only when the run halts, and is never a timeout or a rejected handle; a halted run ends with an error |
| LogStream.HaltedEndsWithError | lib/imp.js:164-166 | a run halts iff its last sink call is an error |
| LogStream.RunUnfolds | lib/imp.js:148-188 | a run is its first round followed by the run from the next cursor |
| LogStream.Drive | lib/imp.js:148-188 | the loop form of the stream produces exactly the trace of the recursive form |
| LogStream.FreshStreamStartsNow | lib/imp.js:186-187 | a stream started with no handle and no timestamp asks for lines since now |
| LogStream.TimeoutKeepsPollUrl | lib/imp.js:152-155 | a 504 on a handle polls the same handle again with lastTS = now and no sink call |
| LogStream.TimeoutReanchorsOnNow | lib/imp.js:152-155 | a 504 in timestamp mode asks for lines since now, silently |
| LogStream.InvalidTokenResumesFromLastTimestamp | lib/imp.js:159-161 | a 400 "InvalidLogToken" drops the handle and asks the log endpoint since the last timestamp (or now without one), silently |
| LogStream.EmbeddedTokenErrorNeedsCode400 | lib/imp.js:159 | an error record with code "InvalidLogToken" is fatal, since the code, not the HTTP status, is compared with 400 |
| LogStream.ServerErrorStops | lib/imp.js:164-166 | a 500 with a text body stops the stream after one error report carrying the text as both messages |
| LogStream.BatchWithHandle | lib/imp.js:169-176 | a batch with lines and a poll URL is delivered once and the next request polls that URL from the last line's timestamp |
| LogStream.EmptyBatchRepeatsTimestamp | lib/imp.js:169-176 | an empty batch without a poll URL is silent and asks again with the same timestamp |
| LogStream.EmptySuccessThrows | lib/imp.js:169 | a 2xx reply with no body makes the callback throw |

## Findings

| source | as written | input that shows it | evidently intended | confidence | as-written member | corrected member |
|---|---|---|---|---|---|---|
| lib/imp.js:105 | `idx in validOptions` also finds names inherited from Object.prototype, so keys such as "constructor" or "toString" pass every allow-list | `apiRequest("GET", url, {constructor: "x"}, {since: true, type: true, wait: true, token: true})` sends the request | reject every key that is not one of the allow-list's own keys | not executed; high for the `in` semantics | Requests.ApiRequestAsWritten (shown by Requests.PrototypeKeyEscapesValidation) | Requests.ApiRequest |

The stream sends only the option key "since", or no option at all, and for
those the check as written and the intended check agree
(`Requests.SinceAlwaysAllowed`, `LogStream.PollCallIsAsWritten`,
`Requests.AsWrittenAgreesWithoutPrototypeKeys`). `Requests.GetDeviceLogs`
uses the check as written; the poll of a continuation handle is stated with
the intended one, which for it is the same call.

## Left out

- The HTTP library, the network, asynchrony and the callbacks' `this` binding. A transport outcome is the datatype `Responses.Outcome`. The stream's recursion becomes `Step`, `Run` and `Drive` over a finite list of outcomes.
- The wall clock: `now` arrives with each outcome as a parameter.
- The base64 encoding of the Authorization header: `Requests.Req` takes it as the function parameter `encode`.
- The remaining CRUD wrappers (`getDevices`, `getDevice`, `assignDevice`, `renameDevice`, `deleteDevice`, `getModels`, `getModel`, `createModel`, `renameModel`, `deleteModel`, `restartModel`, `getModelRevisions`, `getModelRevision`, `createModelRevision`). Each is a fixed URL plus an allow-list passed to `apiRequest`, which is modelled.
- The `request` call at the end of `_req` and its binding to `_processResp`. `_req` is modelled up to the options record.
- Cancellation, and any ordering of timestamps: neither exists in the code.
- LogStream.Run: its own contract only bounds the number of requests. What it delivers is stated by `RunMatchesReference`, `RunRequestsAreSent` and `RunErrorsAreFinalAndFatal`.
- Values.LooselyEquals: a string code matches a number only in its canonical decimal spelling. JavaScript also accepts surrounding whitespace, leading zeros, exponents and hexadecimal.
- Requests.ToUpper: only ASCII letters are upper-cased. JavaScript's `toUpperCase` covers all of Unicode.
- Unusual body shapes:
  - an `error` property that is not an error record (a falsy one would be delivered as "no error");
  - a `logs` property that is not an array;
  - log entries without a timestamp;
  - a `poll_url` that is not a string.
- Option values and settings values are strings. Option keys are visited in the order given. JavaScript visits integer-like keys first, in ascending order.
- Exceptions thrown by the consumer's own callback.
