/** Values exchanged between the build-API client and the service, as the
    JavaScript client sees them: optional values, error codes, error
    records, transport faults, response bodies and log entries.

    JavaScript's implicit typing is made explicit here: a body is tagged
    as absent, text, a scalar or an object, and an error code is tagged as
    a number or a string. */
module Values {

  datatype Option<T> = None | Some(value: T)

  function OrElse<T>(o: Option<T>, default: T): T
  {
    match o
    case Some(v) => v
    case None => default
  }

  /** JavaScript truthiness of a value that is a string or missing
      (null/undefined): only a non-empty string is truthy. */
  predicate Truthy(s: Option<string>)
  {
    s.Some? && s.value != ""
  }

  /** An error code: an HTTP status number, or a string such as "InvalidParam". */
  datatype Code = Num(n: int) | Str(s: string)

  function DigitChar(d: nat): char
    requires d < 10
  {
    "0123456789"[d]
  }

  /** The canonical decimal spelling of a natural number. */
  function Decimal(n: nat): string
  {
    if n < 10 then [DigitChar(n)] else Decimal(n / 10) + [DigitChar(n % 10)]
  }

  /** JavaScript's loose comparison `code == n` against a number literal:
      a number compares by value, a string by its numeric reading (only the
      canonical decimal spelling is modelled). */
  predicate LooselyEquals(c: Code, n: nat)
  {
    c == Num(n) || c == Str(Decimal(n))
  }

  /** The service's error record `{code, message_short, message_full}`. */
  datatype ApiError = ApiError(code: Code, messageShort: string, messageFull: string)

  /** An error raised by the HTTP library itself (no response at all). It may
      carry a `code` property; it never carries `message_short`. */
  datatype Fault = Fault(code: Option<Code>, description: string)

  /** The error value handed to a callback. */
  datatype Failure = Transport(fault: Fault) | Api(error: ApiError)

  /** The `code` property of an error value, if it has one. */
  function CodeOf(f: Failure): Option<Code>
  {
    match f
    case Transport(fault) => fault.code
    case Api(e) => Some(e.code)
  }

  /** The `message_short` property of an error value, if it has one. */
  function ShortMessageOf(f: Failure): Option<string>
  {
    match f
    case Transport(_) => None
    case Api(e) => Some(e.messageShort)
  }

  /** One log line; only the timestamp is read by the client. */
  datatype LogEntry = LogEntry(timestamp: string, message: string)

  /** A response body after JSON decoding.
      - Absent: null or undefined;
      - Text: a string (the body was not JSON);
      - Scalar: a number or boolean, with its JavaScript truthiness;
      - Object: an object or array, with the three properties the client
        reads: `error`, `logs` and `poll_url` (an array has none of them). */
  datatype Body =
    | Absent
    | Text(text: string)
    | Scalar(truthy: bool)
    | Object(error: Option<ApiError>, logs: Option<seq<LogEntry>>, pollUrl: Option<string>)

  /** JavaScript truthiness of a body. */
  predicate BodyTruthy(b: Body)
  {
    match b
    case Absent => false
    case Text(t) => t != ""
    case Scalar(t) => t
    case Object(_, _, _) => true
  }
}
