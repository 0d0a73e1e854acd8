/** The device-log stream (`streamDeviceLogs` and the callback built by
    `_streamCallbackFactory`, lib/imp.js lines 142-188).

    The stream carries a cursor from one long-poll request to the next: an
    optional continuation handle (`streamUrl`, a poll path issued by the
    service) and an optional last timestamp (`lastTS`). Each round issues
    one request chosen from the cursor (`Launch`), then reacts to its
    outcome (`React`): the cursor is updated, the consumer's callback (the
    sink) may be called, and the stream either goes on, stops after
    reporting an error, or dies on an exception. The recursion of the
    source is replaced by `Step` and by `Run` over a finite list of
    outcomes; the wall clock is the `now` value that comes with each
    outcome. */
module LogStream {
  import opened Values
  import Client
  import opened Responses
  import opened Requests

  /** The values carried from one request to the next. */
  datatype Cursor = Cursor(streamUrl: Option<string>, lastTS: Option<string>)

  /** A call of the consumer's callback: `cb(err, null)` or `cb(null, data)`. */
  datatype SinkEvent = SinkError(failure: Failure) | SinkData(data: Body)

  /** An expired long poll: an error whose code is loosely equal to 504. */
  predicate IsTimeout(f: Failure)
  {
    CodeOf(f).Some? && LooselyEquals(CodeOf(f).value, 504)
  }

  /** A continuation handle the service no longer accepts: code loosely
      equal to 400 and short message "InvalidLogToken". */
  predicate IsInvalidToken(f: Failure)
  {
    CodeOf(f).Some? && LooselyEquals(CodeOf(f).value, 400) && ShortMessageOf(f) == Some("InvalidLogToken")
  }

  /** The kinds of reply the stream callback tells apart. */
  datatype Kind =
    | Delivered(batch: Body)
    | TransientTimeout
    | TransientInvalidToken
    | Fatal(failure: Failure)
    | NotAnObject

  /** The tests of the callback, in the order it makes them. Data that is
      not an object makes `"logs" in data` throw. */
  function Classify(r: Reply): (k: Kind)
    ensures k.Delivered? <==> r.DataReply? && r.data.Object?
    ensures k.NotAnObject? <==> r.DataReply? && !r.data.Object?
    ensures k.TransientTimeout? <==> r.ErrReply? && IsTimeout(r.failure)
    ensures k.TransientInvalidToken? <==> r.ErrReply? && !IsTimeout(r.failure) && IsInvalidToken(r.failure)
    ensures k.Fatal? <==> r.ErrReply? && !IsTimeout(r.failure) && !IsInvalidToken(r.failure)
    ensures k.Fatal? ==> k.failure == r.failure
    ensures k.Delivered? ==> k.batch == r.data
  {
    match r
    case ErrReply(f) =>
      if IsTimeout(f) then TransientTimeout
      else if IsInvalidToken(f) then TransientInvalidToken
      else Fatal(f)
    case DataReply(data) =>
      if data.Object? then Delivered(data) else NotAnObject
  }

  /** A kind after which the stream issues no further request. */
  predicate Halts(k: Kind)
  {
    k.Fatal? || k.NotAnObject?
  }

  /** `"logs" in data && data.logs.length > 0`. */
  predicate HasLogs(b: Body)
  {
    b.Object? && b.logs.Some? && |b.logs.value| > 0
  }

  function LastTimestamp(logs: seq<LogEntry>): string
    requires |logs| > 0
  {
    logs[|logs| - 1].timestamp
  }

  /** What the callback does: resume streaming with new arguments for
      `streamDeviceLogs` (perhaps after calling the sink), stop after
      calling the sink with an error, or throw. */
  datatype Reaction =
    | Resume(sink: Option<SinkEvent>, args: Cursor)
    | Halt(final: SinkEvent)
    | Throw

  /** The stream callback, for a cursor `st` it was built with. */
  function React(st: Cursor, r: Reply, now: string): (re: Reaction)
    // data: the sink is called once with the data iff it holds log lines;
    // the last line's timestamp becomes lastTS; the poll URL, if any,
    // becomes the continuation handle; streaming always goes on
    ensures r.DataReply? && r.data.Object? ==>
              && re.Resume?
              && (re.sink.Some? <==> HasLogs(r.data))
              && (re.sink.Some? ==> re.sink.value == SinkData(r.data))
              && re.args.lastTS == (if HasLogs(r.data) then Some(LastTimestamp(r.data.logs.value)) else st.lastTS)
              && re.args.streamUrl == r.data.pollUrl
    ensures r.DataReply? && !r.data.Object? ==> re.Throw?
    // an expired poll: lastTS becomes now, the handle is kept, no sink call
    ensures r.ErrReply? && IsTimeout(r.failure) ==> re == Resume(None, Cursor(st.streamUrl, Some(now)))
    // a rejected handle: the handle is dropped, lastTS is kept, no sink call
    ensures r.ErrReply? && !IsTimeout(r.failure) && IsInvalidToken(r.failure) ==>
              re == Resume(None, Cursor(None, st.lastTS))
    // anything else: the sink gets the error and the stream stops
    ensures r.ErrReply? && !IsTimeout(r.failure) && !IsInvalidToken(r.failure) ==>
              re == Halt(SinkError(r.failure))
    // errors reach the sink only when the stream stops
    ensures re.Resume? && re.sink.Some? ==> re.sink.value.SinkData?
  {
    match Classify(r)
    case TransientTimeout => Resume(None, Cursor(st.streamUrl, Some(now)))
    case TransientInvalidToken => Resume(None, Cursor(None, st.lastTS))
    case Fatal(f) => Halt(SinkError(f))
    case NotAnObject => Throw
    case Delivered(data) =>
      if HasLogs(data) then
        Resume(Some(SinkData(data)), Cursor(data.pollUrl, Some(LastTimestamp(data.logs.value))))
      else
        Resume(None, Cursor(data.pollUrl, st.lastTS))
  }

  /** The request `streamDeviceLogs` issues and the cursor its callback is
      built with. */
  datatype Launched = Launched(request: Call, state: Cursor)

  /** The request made on a continuation handle: a GET of the handle
      composed without the version, with no options. */
  function PollCall(imp: Client.Imp, handle: string): Call
  {
    ApiRequest("GET", Client.BuildUrl(imp, handle, Some(false)), None, None)
  }

  /** With no options the two membership tests cannot differ, so the poll
      is exactly the call the code as written makes. */
  lemma PollCallIsAsWritten(imp: Client.Imp, handle: string)
    ensures PollCall(imp, handle) == ApiRequestAsWritten("GET", Client.BuildUrl(imp, handle, Some(false)), None, None)
    ensures PollCall(imp, handle) == Send("GET", Client.BuildUrl(imp, handle, Some(false)), None, [])
  {
  }

  /** `streamDeviceLogs`: with a (truthy) continuation handle, poll it;
      otherwise ask the device's log endpoint for lines since lastTS, and
      when lastTS is missing or empty, since now. Either request passes
      validation. */
  function Launch(imp: Client.Imp, deviceId: string, args: Cursor, now: string): (l: Launched)
    ensures l.request.Send? && l.request.verb == "GET" && l.request.headers.None?
    ensures Truthy(args.streamUrl) ==>
              && l.request.url == Client.BuildUrl(imp, args.streamUrl.value, Some(false))
              && l.request.params == []
              && l.state == args
    ensures !Truthy(args.streamUrl) ==>
              && l.request.url == Client.BuildUrl(imp, LogsPath(deviceId), None)
              && l.state.streamUrl == args.streamUrl
              && l.state.lastTS == Some(if Truthy(args.lastTS) then args.lastTS.value else now)
              && l.request.params == [("since", l.state.lastTS.value)]
  {
    if Truthy(args.streamUrl) then
      Launched(PollCall(imp, args.streamUrl.value), args)
    else
      var since := if Truthy(args.lastTS) then args.lastTS.value else now;
      Launched(GetDeviceLogs(imp, deviceId, Some([("since", since)])), Cursor(args.streamUrl, Some(since)))
  }

  /** One round seen from the outside: the outcome of the request in flight
      and the time at which it arrived. */
  datatype Event = Event(outcome: Outcome, now: string)

  /** The result of one round. */
  datatype StepResult =
    | Continue(sink: Option<SinkEvent>, next: Launched)
    | Stop(final: SinkEvent)
    | Crash

  /** One round: normalise the outcome, react to it, and issue the next
      request if the stream goes on. Within a round the sink, when called,
      is called before the next request is issued (lib/imp.js lines 171 and
      176), so a `Continue` is read as: first `sink`, then `next.request`. */
  function Step(imp: Client.Imp, deviceId: string, st: Cursor, e: Event): (s: StepResult)
    ensures var k := Classify(ProcessResp(e.outcome));
            && (s.Continue? <==> !Halts(k))
            && (s.Stop? <==> k.Fatal?)
            && (s.Stop? ==> s.final == SinkError(k.failure))
            && (s.Continue? ==> (s.sink.Some? <==> k.Delivered? && HasLogs(k.batch)))
            && (s.Continue? && s.sink.Some? ==> s.sink.value == SinkData(k.batch))
            && (s.Continue? ==> s.next.request.Send?)
  {
    match React(st, ProcessResp(e.outcome), e.now)
    case Resume(sink, args) => Continue(sink, Launch(imp, deviceId, args, e.now))
    case Halt(final) => Stop(final)
    case Throw => Crash
  }

  /** How a run over a finite list of outcomes ends. */
  datatype End = Live(state: Cursor) | Halted | Crashed

  /** The requests a run issues (after the one already in flight), the sink
      calls it makes, and how it ends. */
  datatype Trace = Trace(requests: seq<Call>, sinks: seq<SinkEvent>, end: End)

  function OptionToSeq<T>(o: Option<T>): seq<T>
  {
    if o.Some? then [o.value] else []
  }

  /** The stream driven through a list of outcomes, starting from the cursor
      the request in flight was issued with. Outcomes after the stream has
      stopped are never looked at. */
  function Run(imp: Client.Imp, deviceId: string, st: Cursor, events: seq<Event>): (t: Trace)
    ensures |t.requests| <= |events|
    decreases |events|
  {
    if |events| == 0 then Trace([], [], Live(st))
    else
      match Step(imp, deviceId, st, events[0])
      case Stop(final) => Trace([], [final], Halted)
      case Crash => Trace([], [], Crashed)
      case Continue(sink, next) =>
        var rest := Run(imp, deviceId, next.state, events[1..]);
        Trace([next.request] + rest.requests, OptionToSeq(sink) + rest.sinks, rest.end)
  }

  // ---- a reference that does not track the cursor ----

  function KindOf(e: Event): Kind
  {
    Classify(ProcessResp(e.outcome))
  }

  /** The number of outcomes before the first one that stops the stream. */
  function Survivors(events: seq<Event>): (n: nat)
    ensures n <= |events|
    ensures forall i :: 0 <= i < n ==> !Halts(KindOf(events[i]))
    ensures n < |events| ==> Halts(KindOf(events[n]))
    decreases |events|
  {
    if |events| == 0 || Halts(KindOf(events[0])) then 0 else 1 + Survivors(events[1..])
  }

  /** The sink calls a consumer sees for a list of outcomes: every batch that
      holds log lines, in order, up to the first outcome that stops the
      stream, followed by that outcome's error if it is one. */
  function ExpectedSinks(events: seq<Event>): seq<SinkEvent>
    decreases |events|
  {
    if |events| == 0 then []
    else
      match KindOf(events[0])
      case Fatal(f) => [SinkError(f)]
      case NotAnObject => []
      case Delivered(b) => (if HasLogs(b) then [SinkData(b)] else []) + ExpectedSinks(events[1..])
      case _ => ExpectedSinks(events[1..])
  }

  /** What the consumer sees and how many requests are made depend only on
      the outcomes, not on the cursor or the clock: the run issues one
      request per outcome until the first one that stops it, and none after;
      it delivers exactly the reference sink calls; it stays live iff no
      outcome stops it, and it halts (rather than crashing) iff the stopping
      outcome is an error. */
  lemma {:induction false} RunMatchesReference(imp: Client.Imp, deviceId: string, st: Cursor, events: seq<Event>)
    ensures var t := Run(imp, deviceId, st, events);
            && t.sinks == ExpectedSinks(events)
            && |t.requests| == Survivors(events)
            && (t.end.Live? <==> Survivors(events) == |events|)
            && (t.end.Halted? <==> Survivors(events) < |events| && KindOf(events[Survivors(events)]).Fatal?)
    decreases |events|
  {
    if |events| > 0 {
      var k := KindOf(events[0]);
      if !Halts(k) {
        var s := Step(imp, deviceId, st, events[0]);
        RunMatchesReference(imp, deviceId, s.next.state, events[1..]);
        if Survivors(events[1..]) < |events[1..]| {
          assert events[1..][Survivors(events[1..])] == events[Survivors(events)];
        }
      }
    }
  }

  /** Every call in the list passed validation and is a GET. */
  predicate AllSentGets(requests: seq<Call>)
  {
    forall i :: 0 <= i < |requests| ==> requests[i].Send? && requests[i].verb == "GET"
  }

  /** An error appears at most once, only last, and is never an expired poll
      or a rejected handle. */
  predicate ErrorsFinalAndFatal(sinks: seq<SinkEvent>)
  {
    forall i :: 0 <= i < |sinks| && sinks[i].SinkError? ==>
      && i == |sinks| - 1
      && !IsTimeout(sinks[i].failure)
      && !IsInvalidToken(sinks[i].failure)
  }

  /** Every request a run issues passes validation and is a GET. */
  lemma {:induction false} RunRequestsAreSent(imp: Client.Imp, deviceId: string, st: Cursor, events: seq<Event>)
    ensures AllSentGets(Run(imp, deviceId, st, events).requests)
    decreases |events|
  {
    if |events| > 0 {
      var s := Step(imp, deviceId, st, events[0]);
      if s.Continue? {
        RunRequestsAreSent(imp, deviceId, s.next.state, events[1..]);
        var rest := Run(imp, deviceId, s.next.state, events[1..]);
        var l := Launch(imp, deviceId, React(st, ProcessResp(events[0].outcome), events[0].now).args, events[0].now);
        assert s.next == l;
        var all := [l.request] + rest.requests;
        assert Run(imp, deviceId, st, events).requests == all;
        forall i | 0 <= i < |all|
          ensures all[i].Send? && all[i].verb == "GET"
        {
          if i > 0 {
            assert all[i] == rest.requests[i - 1];
          }
        }
      }
    }
  }

  /** In the reference, an error reaches the consumer at most once, only as
      the last call, and never for an expired poll or a rejected handle. */
  lemma {:induction false} ExpectedErrorsAreFinalAndFatal(events: seq<Event>)
    ensures ErrorsFinalAndFatal(ExpectedSinks(events))
    decreases |events|
  {
    if |events| > 0 {
      ExpectedErrorsAreFinalAndFatal(events[1..]);
      var rest := ExpectedSinks(events[1..]);
      match KindOf(events[0])
      case Fatal(f) =>
      case NotAnObject =>
      case Delivered(b) =>
        var head := if HasLogs(b) then [SinkData(b)] else [];
        var s := head + rest;
        assert ExpectedSinks(events) == s;
        forall i | 0 <= i < |s| && s[i].SinkError?
          ensures i == |s| - 1 && !IsTimeout(s[i].failure) && !IsInvalidToken(s[i].failure)
        {
          assert i >= |head|;
          assert s[i] == rest[i - |head|];
        }
      case _ =>
        assert ExpectedSinks(events) == rest;
    }
  }

  /** A run calls the sink with an error at most once, as its last call and
      only when it halts; transient errors never reach the consumer; and a
      halted run ends with an error. */
  lemma RunErrorsAreFinalAndFatal(imp: Client.Imp, deviceId: string, st: Cursor, events: seq<Event>)
    ensures var t := Run(imp, deviceId, st, events);
            && (forall i :: 0 <= i < |t.sinks| && t.sinks[i].SinkError? ==>
                  && i == |t.sinks| - 1
                  && t.end.Halted?
                  && !IsTimeout(t.sinks[i].failure)
                  && !IsInvalidToken(t.sinks[i].failure))
            && (t.end.Halted? ==> |t.sinks| > 0 && t.sinks[|t.sinks| - 1].SinkError?)
  {
    RunMatchesReference(imp, deviceId, st, events);
    ExpectedErrorsAreFinalAndFatal(events);
    HaltedEndsWithError(imp, deviceId, st, events);
  }

  /** A run halts exactly when its last sink call is an error. */
  lemma {:induction false} HaltedEndsWithError(imp: Client.Imp, deviceId: string, st: Cursor, events: seq<Event>)
    ensures var t := Run(imp, deviceId, st, events);
            (t.end.Halted? <==> |t.sinks| > 0 && t.sinks[|t.sinks| - 1].SinkError?)
    decreases |events|
  {
    if |events| > 0 {
      var s := Step(imp, deviceId, st, events[0]);
      var t := Run(imp, deviceId, st, events);
      if s.Continue? {
        HaltedEndsWithError(imp, deviceId, s.next.state, events[1..]);
        var rest := Run(imp, deviceId, s.next.state, events[1..]);
        assert t.sinks == OptionToSeq(s.sink) + rest.sinks && t.end == rest.end;
        if |rest.sinks| > 0 {
          assert (OptionToSeq(s.sink) + rest.sinks)[|OptionToSeq(s.sink)| + |rest.sinks| - 1]
              == rest.sinks[|rest.sinks| - 1];
        }
      } else if s.Stop? {
        assert t == Trace([], [s.final], Halted);
      } else {
        assert t == Trace([], [], Crashed);
      }
    }
  }

  /** `Run` with a trace already accumulated in front of it. */
  function Prefixed(requests: seq<Call>, sinks: seq<SinkEvent>, t: Trace): Trace
  {
    Trace(requests + t.requests, sinks + t.sinks, t.end)
  }

  /** One round taken off the front of a run, after an accumulated trace. */
  lemma RunUnfolds(imp: Client.Imp, deviceId: string, st: Cursor, events: seq<Event>,
                   requests: seq<Call>, sinks: seq<SinkEvent>, i: nat)
    requires i < |events|
    ensures var whole := Prefixed(requests, sinks, Run(imp, deviceId, st, events[i..]));
            match Step(imp, deviceId, st, events[i])
            case Stop(final) => whole == Trace(requests, sinks + [final], Halted)
            case Crash => whole == Trace(requests, sinks, Crashed)
            case Continue(sink, next) =>
              whole == Prefixed(requests + [next.request], sinks + OptionToSeq(sink),
                                Run(imp, deviceId, next.state, events[i + 1..]))
  {
    var tail := events[i..];
    assert tail[0] == events[i];
    assert tail[1..] == events[i + 1..];
    match Step(imp, deviceId, st, events[i]) {
      case Stop(final) =>
      case Crash =>
      case Continue(sink, next) =>
        var rest := Run(imp, deviceId, next.state, events[i + 1..]);
        assert requests + ([next.request] + rest.requests) == requests + [next.request] + rest.requests;
        assert sinks + (OptionToSeq(sink) + rest.sinks) == sinks + OptionToSeq(sink) + rest.sinks;
    }
  }

  /** The stream as a loop rather than a recursion: each pass handles one
      outcome and either issues the next request or leaves the loop. */
  method Drive(imp: Client.Imp, deviceId: string, st: Cursor, events: seq<Event>) returns (t: Trace)
    ensures t == Run(imp, deviceId, st, events)
  {
    var requests: seq<Call> := [];
    var sinks: seq<SinkEvent> := [];
    var cur := st;
    var i := 0;
    assert events[0..] == events;
    while i < |events|
      invariant 0 <= i <= |events|
      invariant Prefixed(requests, sinks, Run(imp, deviceId, cur, events[i..])) == Run(imp, deviceId, st, events)
    {
      RunUnfolds(imp, deviceId, cur, events, requests, sinks, i);
      match Step(imp, deviceId, cur, events[i]) {
        case Stop(final) =>
          return Trace(requests, sinks + [final], Halted);
        case Crash =>
          return Trace(requests, sinks, Crashed);
        case Continue(sink, next) =>
          requests := requests + [next.request];
          sinks := sinks + OptionToSeq(sink);
          cur := next.state;
      }
      i := i + 1;
    }
    assert events[i..] == [];
    t := Trace(requests, sinks, Live(cur));
  }

  // ---- single rounds, outcome by outcome ----

  /** A stream started with neither handle nor timestamp asks for the lines
      since now. */
  lemma FreshStreamStartsNow(imp: Client.Imp, deviceId: string, now: string)
    ensures Launch(imp, deviceId, Cursor(None, None), now)
            == Launched(Send("GET", Client.BuildUrl(imp, LogsPath(deviceId), None), None, [("since", now)]),
                        Cursor(None, Some(now)))
  {
  }

  /** An expired poll (a 504 without an error record) on a continuation
      handle polls the same handle again; the timestamp becomes now and the
      consumer hears nothing. */
  lemma TimeoutKeepsPollUrl(imp: Client.Imp, deviceId: string, handle: string, lastTS: Option<string>,
                            statusText: string, body: Body, now: string)
    requires handle != ""
    requires !(body.Object? && body.error.Some?)
    ensures Step(imp, deviceId, Cursor(Some(handle), lastTS), Event(Response(504, statusText, body), now))
            == Continue(None, Launched(PollCall(imp, handle), Cursor(Some(handle), Some(now))))
  {
  }

  /** A 504 in timestamp mode asks for the lines since now. */
  lemma TimeoutReanchorsOnNow(imp: Client.Imp, deviceId: string, lastTS: Option<string>,
                              statusText: string, body: Body, now: string)
    requires !(body.Object? && body.error.Some?)
    ensures var s := Step(imp, deviceId, Cursor(None, lastTS), Event(Response(504, statusText, body), now));
            && s.Continue? && s.sink.None?
            && s.next.request.params == [("since", now)]
  {
  }

  /** A 400 whose body is the text "InvalidLogToken" drops the handle and
      asks for the lines since the last timestamp (or since now when there
      is none); the consumer hears nothing. */
  lemma InvalidTokenResumesFromLastTimestamp(imp: Client.Imp, deviceId: string, st: Cursor,
                                             statusText: string, now: string)
    ensures var s := Step(imp, deviceId, st, Event(Response(400, statusText, Text("InvalidLogToken")), now));
            && s.Continue? && s.sink.None?
            && s.next.request.url == Client.BuildUrl(imp, LogsPath(deviceId), None)
            && s.next.request.params == [("since", if Truthy(st.lastTS) then st.lastTS.value else now)]
  {
  }

  /** The token test reads the error record's own code, not the HTTP status:
      a 400 whose error record carries any other code is fatal. */
  lemma EmbeddedTokenErrorNeedsCode400(imp: Client.Imp, deviceId: string, st: Cursor, statusText: string,
                                       full: string, now: string)
    ensures var e := ApiError(Str("InvalidLogToken"), "InvalidLogToken", full);
            Step(imp, deviceId, st, Event(Response(400, statusText, Object(Some(e), None, None)), now))
            == Stop(SinkError(Api(e)))
  {
  }

  /** A 500 with a text body stops the stream after one error report, in
      which the text is both messages. */
  lemma ServerErrorStops(imp: Client.Imp, deviceId: string, st: Cursor, statusText: string, text: string,
                         now: string)
    requires text != ""
    ensures Step(imp, deviceId, st, Event(Response(500, statusText, Text(text)), now))
            == Stop(SinkError(Api(ApiError(Num(500), text, text))))
  {
  }

  /** A batch with log lines and a poll URL is delivered once, and the next
      request polls that URL. */
  lemma BatchWithHandle(imp: Client.Imp, deviceId: string, st: Cursor, statusText: string,
                        logs: seq<LogEntry>, handle: string, now: string)
    requires |logs| > 0 && handle != ""
    ensures var data := Object(None, Some(logs), Some(handle));
            Step(imp, deviceId, st, Event(Response(200, statusText, data), now))
            == Continue(Some(SinkData(data)),
                        Launched(PollCall(imp, handle), Cursor(Some(handle), Some(logs[|logs| - 1].timestamp))))
  {
  }

  /** An empty batch without a poll URL is silent and asks again with the
      same timestamp. */
  lemma EmptyBatchRepeatsTimestamp(imp: Client.Imp, deviceId: string, ts: string, statusText: string,
                                   now: string)
    requires ts != ""
    ensures var s := Step(imp, deviceId, Cursor(None, Some(ts)), Event(Response(200, statusText, Object(None, Some([]), None)), now));
            && s.Continue? && s.sink.None?
            && s.next.request.params == [("since", ts)]
            && s.next.state == Cursor(None, Some(ts))
  {
  }

  /** A 2xx response without a body makes the callback throw. */
  lemma EmptySuccessThrows(imp: Client.Imp, deviceId: string, st: Cursor, status: int, statusText: string,
                           now: string)
    requires IsSuccess(status)
    ensures Step(imp, deviceId, st, Event(Response(status, statusText, Absent), now)) == Crash
  {
  }
}
