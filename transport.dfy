/**
 * The slice of Lagom's transport layer the security code touches: request headers, transport
 * error codes and the exceptions that cross the service boundary. The `Unauthorized` exception
 * of the repository is the `UnauthorizedException` kind here, with the HTTP 401 code.
 */
module Transport {
  import opened Results

  /** The request URI, split into its parts. */
  datatype Uri = Uri(scheme: string, authority: string, path: string, query: string)

  /**
   * An inbound request header: the HTTP method's name, the URI and the header fields.
   * Header names are compared exactly; the transport's case-insensitive lookup is not modelled.
   */
  datatype RequestHeader = RequestHeader(httpMethod: string, uri: Uri, headers: map<string, string>)

  /** The value of header `name`, if the request carries it. */
  function GetHeader(h: RequestHeader, name: string): (r: Option<string>)
    ensures r.Some? <==> name in h.headers
    ensures r.Some? ==> r.value == h.headers[name]
  {
    if name in h.headers then Some(h.headers[name]) else None
  }

  /** A copy of `h` whose header `name` is set to `value`, replacing any earlier value. */
  function WithHeader(h: RequestHeader, name: string, value: string): (r: RequestHeader)
    ensures r.httpMethod == h.httpMethod && r.uri == h.uri
    ensures r.headers.Keys == h.headers.Keys + {name}
    ensures r.headers[name] == value
    ensures forall n :: n in h.headers && n != name ==> r.headers[n] == h.headers[n]
  {
    h.(headers := h.headers[name := value])
  }

  /** A transport error code, identified by its HTTP status. */
  datatype ErrorCode = ErrorCode(http: int)

  /** The code of the repository's `Unauthorized` exception (Unauthorized.java:17). */
  const UnauthorizedCode: ErrorCode := ErrorCode(401)

  /** The code of Lagom's `Forbidden` exception. */
  const ForbiddenCode: ErrorCode := ErrorCode(403)

  /** The serialisable message of a transport exception: the exception's name and its detail. */
  datatype ExceptionMessage = ExceptionMessage(name: string, detail: string)

  /** Which subclass of Lagom's `TransportException` an exception is. */
  datatype TransportKind =
    | GenericTransport
    | ForbiddenException
    | UnauthorizedException

  /** What a deserialiser can hand back: a transport exception or some other throwable. */
  datatype Throwable =
    | TransportException(kind: TransportKind, errorCode: ErrorCode, exceptionMessage: ExceptionMessage)
    | OtherThrowable(className: string, message: string)
}
