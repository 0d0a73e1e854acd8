/** Request construction: parameter validation against an endpoint's
    allow-list (`apiRequest`, lib/imp.js lines 99-114), the allow-list of
    the device-log endpoint (lines 143-146) and the options record handed
    to the HTTP library (`_req`, lines 71-92). */
module Requests {
  import opened Values
  import Client

  /** Query or body parameters, in the order a for-in loop visits their keys. */
  type Params = seq<(string, string)>

  type Headers = map<string, string>

  /** What `apiRequest` does with a call: reject it locally before any
      request is made, or hand it to `_req`. */
  datatype Call =
    | Rejected(error: ApiError)
    | Send(verb: string, url: string, headers: Option<Headers>, params: Params)

  /** The position of the first parameter whose key is not allowed. */
  function FirstInvalid(params: Params, allowed: set<string>): (r: Option<nat>)
    ensures r.None? <==> forall i :: 0 <= i < |params| ==> params[i].0 in allowed
    ensures r.Some? ==> r.value < |params| && params[r.value].0 !in allowed
    ensures r.Some? ==> forall i :: 0 <= i < r.value ==> params[i].0 in allowed
    decreases |params|
  {
    if |params| == 0 then None
    else if params[0].0 !in allowed then Some(0)
    else
      match FirstInvalid(params[1..], allowed)
      case None => None
      case Some(i) => Some(i + 1)
  }

  /** The error `apiRequest` reports for a parameter that is not allowed. */
  function InvalidParamError(key: string): (e: ApiError)
    ensures e.code == Str("InvalidParam")
    ensures e.messageShort == e.messageFull == "Invalid Parameter: " + key
  {
    Client.BuildError(Str("InvalidParam"), "Invalid Parameter: " + key, None)
  }

  /** Validation against the set of keys that pass the membership test. */
  function Validate(verb: string, url: string, options: Params, allowed: set<string>): Call
  {
    match FirstInvalid(options, allowed)
    case Some(i) => Rejected(InvalidParamError(options[i].0))
    case None => Send(verb, url, None, options)
  }

  /** The property names every plain JavaScript object inherits from
      Object.prototype, which the `in` operator also finds. */
  const PrototypeNames: set<string> := {
    "constructor", "hasOwnProperty", "isPrototypeOf", "propertyIsEnumerable",
    "toLocaleString", "toString", "valueOf", "__proto__", "__defineGetter__",
    "__defineSetter__", "__lookupGetter__", "__lookupSetter__"
  }

  /** `apiRequest` as written: `idx in validOptions` also accepts every
      inherited property name, so such a key passes any allow-list. */
  function ApiRequestAsWritten(verb: string, url: string, options: Option<Params>,
                               validOptions: Option<set<string>>): (c: Call)
    ensures c.Rejected? <==>
              exists i :: && 0 <= i < |OrElse(options, [])|
                          && OrElse(options, [])[i].0 !in OrElse(validOptions, {}) + PrototypeNames
    ensures c.Rejected? ==>
              exists i :: && 0 <= i < |OrElse(options, [])|
                          && OrElse(options, [])[i].0 !in OrElse(validOptions, {}) + PrototypeNames
                          && (forall j :: 0 <= j < i ==> OrElse(options, [])[j].0 in OrElse(validOptions, {}) + PrototypeNames)
                          && c.error == InvalidParamError(OrElse(options, [])[i].0)
    ensures c.Send? ==> c == Send(verb, url, None, OrElse(options, []))
  {
    Validate(verb, url, OrElse(options, []), OrElse(validOptions, {}) + PrototypeNames)
  }

  /** `apiRequest` with the evidently intended membership test (own keys of
      the allow-list only): a missing options object or allow-list is empty;
      the first key that is not allowed is reported as `InvalidParam` and no
      request is made; otherwise the options go to `_req` unchanged, with
      null headers. */
  function ApiRequest(verb: string, url: string, options: Option<Params>,
                      validOptions: Option<set<string>>): (c: Call)
    ensures c.Rejected? <==>
              exists i :: 0 <= i < |OrElse(options, [])| && OrElse(options, [])[i].0 !in OrElse(validOptions, {})
    ensures c.Rejected? ==>
              exists i :: && 0 <= i < |OrElse(options, [])|
                          && OrElse(options, [])[i].0 !in OrElse(validOptions, {})
                          && (forall j :: 0 <= j < i ==> OrElse(options, [])[j].0 in OrElse(validOptions, {}))
                          && c.error == InvalidParamError(OrElse(options, [])[i].0)
    ensures c.Send? ==> c == Send(verb, url, None, OrElse(options, []))
  {
    Validate(verb, url, OrElse(options, []), OrElse(validOptions, {}))
  }

  /** An inherited property name as an option key is let through by the code
      as written, while the allow-list does not contain it. */
  lemma PrototypeKeyEscapesValidation(url: string)
    ensures ApiRequestAsWritten("GET", url, Some([("constructor", "x")]), Some(DeviceLogsOptions)).Send?
    ensures ApiRequest("GET", url, Some([("constructor", "x")]), Some(DeviceLogsOptions))
            == Rejected(ApiError(Str("InvalidParam"), "Invalid Parameter: constructor", "Invalid Parameter: constructor"))
  {
    var p: Params := [("constructor", "x")];
    assert p[0].0 in DeviceLogsOptions + PrototypeNames;
    assert FirstInvalid(p, DeviceLogsOptions + PrototypeNames) == None;
    assert p[0].0 !in DeviceLogsOptions;
    assert FirstInvalid(p, DeviceLogsOptions) == Some(0);
  }

  /** Names no key uses can be added to an allow-list without changing
      which key, if any, is the first one rejected. */
  lemma {:induction false} FirstInvalidIgnoresUnusedNames(params: Params, allowed: set<string>, extra: set<string>)
    requires forall i :: 0 <= i < |params| ==> params[i].0 !in extra
    ensures FirstInvalid(params, allowed + extra) == FirstInvalid(params, allowed)
    decreases |params|
  {
    if |params| > 0 && params[0].0 in allowed {
      FirstInvalidIgnoresUnusedNames(params[1..], allowed, extra);
    }
  }

  /** The two agree on every call whose keys avoid the inherited names. */
  lemma AsWrittenAgreesWithoutPrototypeKeys(verb: string, url: string, options: Option<Params>,
                                            validOptions: Option<set<string>>)
    requires forall i :: 0 <= i < |OrElse(options, [])| ==> OrElse(options, [])[i].0 !in PrototypeNames
    ensures ApiRequestAsWritten(verb, url, options, validOptions) == ApiRequest(verb, url, options, validOptions)
  {
    FirstInvalidIgnoresUnusedNames(OrElse(options, []), OrElse(validOptions, {}), PrototypeNames);
  }

  /** The allow-list of the device-log endpoint. */
  const DeviceLogsOptions: set<string> := {"since", "type", "wait", "token"}

  function LogsPath(deviceId: string): string
  {
    "/devices/" + deviceId + "/logs"
  }

  /** `getDeviceLogs`: a GET on the device's log path, versioned, validated
      against the device-log allow-list by the membership test as written,
      so an inherited property name also passes. */
  function GetDeviceLogs(imp: Client.Imp, deviceId: string, options: Option<Params>): (c: Call)
    ensures c.Rejected? <==>
              exists i :: 0 <= i < |OrElse(options, [])| &&
                          OrElse(options, [])[i].0 !in DeviceLogsOptions + PrototypeNames
    ensures c.Rejected? ==>
              exists i :: && 0 <= i < |OrElse(options, [])|
                          && OrElse(options, [])[i].0 !in DeviceLogsOptions + PrototypeNames
                          && (forall j :: 0 <= j < i ==> OrElse(options, [])[j].0 in DeviceLogsOptions + PrototypeNames)
                          && c.error == InvalidParamError(OrElse(options, [])[i].0)
    ensures c.Send? ==> c == Send("GET", Client.BuildUrl(imp, LogsPath(deviceId), None), None, OrElse(options, []))
  {
    ApiRequestAsWritten("GET", Client.BuildUrl(imp, LogsPath(deviceId), None), options, Some(DeviceLogsOptions))
  }

  /** A `since` filter always passes the device-log allow-list, as written
      and as intended, and is forwarded as the only parameter. */
  lemma SinceAlwaysAllowed(imp: Client.Imp, deviceId: string, since: string)
    ensures GetDeviceLogs(imp, deviceId, Some([("since", since)]))
            == Send("GET", Client.BuildUrl(imp, LogsPath(deviceId), None), None, [("since", since)])
    ensures GetDeviceLogs(imp, deviceId, Some([("since", since)]))
            == ApiRequest("GET", Client.BuildUrl(imp, LogsPath(deviceId), None), Some([("since", since)]), Some(DeviceLogsOptions))
  {
    var p: Params := [("since", since)];
    assert p[0].0 in DeviceLogsOptions;
    assert FirstInvalid(p, DeviceLogsOptions + PrototypeNames) == None;
    assert FirstInvalid(p, DeviceLogsOptions) == None;
  }

  // ---- the options record of `_req` ----

  /** ASCII upper-casing of one character. */
  function UpperChar(c: char): char
  {
    if 'a' <= c <= 'z' then (c as int - 32) as char else c
  }

  /** `toUpperCase`, on ASCII letters. */
  function ToUpper(s: string): (r: string)
    ensures |r| == |s|
    ensures forall i :: 0 <= i < |s| && 'a' <= s[i] <= 'z' ==>
              r[i] == "ABCDEFGHIJKLMNOPQRSTUVWXYZ"[s[i] as int - 'a' as int]
    ensures forall i :: 0 <= i < |s| && !('a' <= s[i] <= 'z') ==> r[i] == s[i]
  {
    seq(|s|, i requires 0 <= i < |s| => UpperChar(s[i]))
  }

  /** Upper-casing twice is upper-casing once: no upper-cased character is
      a lower-case letter. */
  lemma ToUpperIdempotent(s: string)
    ensures ToUpper(ToUpper(s)) == ToUpper(s)
  {
    var u := ToUpper(s);
    forall i | 0 <= i < |u|
      ensures !('a' <= u[i] <= 'z')
    {
      if 'a' <= s[i] <= 'z' {
        assert u[i] == "ABCDEFGHIJKLMNOPQRSTUVWXYZ"[s[i] as int - 'a' as int];
      }
    }
  }

  /** The options record passed to the HTTP library. */
  datatype RequestOptions = RequestOptions(
    verb: string, json: bool, url: string, headers: Headers,
    qs: Option<Params>, body: Option<Params>)

  /** The headers every request carries. The base64 encoding of the API key
      is a parameter (`encode`), since it is done by the runtime. */
  function DefaultHeaders(imp: Client.Imp, encode: string -> string): Headers
  {
    map["User-agent" := "imp.js",
        "Content-type" := "application/json",
        "Authorization" := "Basic " + encode(OrElse(imp.apiKey, ""))]
  }

  /** `_req`, up to the options record: the verb is upper-cased, the body
      goes into the query string for GET and into the body otherwise, and
      the caller's headers override the defaults. */
  function Req(imp: Client.Imp, encode: string -> string, verb: string, url: string,
               headers: Option<Headers>, body: Option<Params>): (o: RequestOptions)
    ensures o.verb == ToUpper(verb) && o.json && o.url == url
    ensures body.None? ==> o.qs.None? && o.body.None?
    ensures body.Some? && o.verb == "GET" ==> o.qs == body && o.body.None?
    ensures body.Some? && o.verb != "GET" ==> o.body == body && o.qs.None?
    ensures o.headers.Keys == DefaultHeaders(imp, encode).Keys + OrElse(headers, map[]).Keys
    ensures forall k :: k in OrElse(headers, map[]) ==> o.headers[k] == OrElse(headers, map[])[k]
    ensures forall k :: k in DefaultHeaders(imp, encode) && k !in OrElse(headers, map[]) ==>
              o.headers[k] == DefaultHeaders(imp, encode)[k]
  {
    var upper := ToUpper(verb);
    RequestOptions(
      upper, true, url,
      DefaultHeaders(imp, encode) + OrElse(headers, map[]),
      if body.Some? && upper == "GET" then body else None,
      if body.Some? && upper != "GET" then body else None)
  }

  /** The verb's case does not matter: any spelling of a verb builds the
      same options as its upper-case form, so "get" also puts the body in
      the query string. */
  lemma VerbCaseIgnored(imp: Client.Imp, encode: string -> string, verb: string, url: string,
                        headers: Option<Headers>, body: Option<Params>)
    ensures Req(imp, encode, verb, url, headers, body) == Req(imp, encode, ToUpper(verb), url, headers, body)
    ensures Req(imp, encode, "get", url, headers, body).qs == body
  {
  }

  /** What a call becomes: nothing when it was rejected, otherwise the options
      record for its verb, URL and parameters. */
  function Dispatch(imp: Client.Imp, encode: string -> string, c: Call): (o: Option<RequestOptions>)
    ensures o.None? <==> c.Rejected?
    ensures c.Send? ==> o.value.url == c.url && o.value.verb == ToUpper(c.verb)
    ensures c.Send? && o.value.verb == "GET" ==> o.value.qs == Some(c.params) && o.value.body.None?
    ensures c.Send? && o.value.verb != "GET" ==> o.value.body == Some(c.params) && o.value.qs.None?
  {
    match c
    case Rejected(_) => None
    case Send(verb, url, headers, params) => Some(Req(imp, encode, verb, url, headers, Some(params)))
  }
}
