/** Response normalisation (`_processResp`, lib/imp.js lines 44-69): one
    transport outcome becomes the `(err, data)` pair handed to a callback. */
module Responses {
  import opened Values
  import Client

  /** What the HTTP library reports for one request. */
  datatype Outcome =
    | TransportError(fault: Fault)
    | Response(status: int, statusText: string, body: Body)

  /** The arguments of the callback: an error, or data (and a null error). */
  datatype Reply = ErrReply(failure: Failure) | DataReply(data: Body)

  predicate IsSuccess(status: int)
  {
    200 <= status < 300
  }

  /** The error for a non-2xx response, chosen by the shape of the body. */
  function ResponseError(status: int, statusText: string, body: Body): (e: ApiError)
    ensures body.Text? && body.text != "" ==> e == ApiError(Num(status), body.text, body.text)
    ensures body.Object? && body.error.Some? ==> e == body.error.value
    ensures !(body.Text? && body.text != "") && !(body.Object? && body.error.Some?)
            ==> e == ApiError(Num(status), statusText, statusText)
  {
    var e := Client.BuildError(Num(status), statusText, None);
    if BodyTruthy(body) then
      match body
      case Text(t) => e.(messageShort := t, messageFull := t)
      case Object(Some(embedded), _, _) => embedded
      case _ => e
    else
      e
  }

  /** `_processResp`: a transport error passes through unchanged, a 2xx body
      passes through as data, and any other status becomes an error. */
  function ProcessResp(o: Outcome): (r: Reply)
    ensures o.TransportError? ==> r == ErrReply(Transport(o.fault))
    ensures o.Response? ==> (r.DataReply? <==> IsSuccess(o.status))
    ensures o.Response? && IsSuccess(o.status) ==> r.data == o.body
    ensures o.Response? && !IsSuccess(o.status) ==>
              r == ErrReply(Api(ResponseError(o.status, o.statusText, o.body)))
  {
    match o
    case TransportError(fault) => ErrReply(Transport(fault))
    case Response(status, statusText, body) =>
      if status < 200 || status >= 300 then ErrReply(Api(ResponseError(status, statusText, body)))
      else DataReply(body)
  }

  /** Unless the service sends its own error record, a failed response is
      reported under its status code with the short and full messages equal,
      and the message is the body text when there is one, else the status
      text. */
  lemma StatusErrorsHaveOneMessage(status: int, statusText: string, body: Body)
    requires !IsSuccess(status)
    requires !(body.Object? && body.error.Some?)
    ensures var r := ProcessResp(Response(status, statusText, body));
            && r.ErrReply? && r.failure.Api?
            && r.failure.error.code == Num(status)
            && r.failure.error.messageShort == r.failure.error.messageFull
            && r.failure.error.messageShort == (if body.Text? && body.text != "" then body.text else statusText)
  {
  }

  /** On a failed response an empty string body is falsy and reads like no
      body at all. */
  lemma EmptyTextIsNoBody(status: int, statusText: string)
    requires !IsSuccess(status)
    ensures ProcessResp(Response(status, statusText, Text(""))) == ProcessResp(Response(status, statusText, Absent))
  {
  }
}
