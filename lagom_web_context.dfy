/**
 * The pac4j web context over a Lagom request header. It is a value fixed at construction: the
 * request header is read, never changed. Only header lookup, the method, the path, `isSecure`
 * and the no-op `setResponseHeader` are supported; every other operation fails.
 */
module LagomContext {
  import opened Results
  import opened Transport

  /** pac4j's `TechnicalException`, raised by the context's failing operations. */
  datatype TechnicalException = TechnicalException(message: string)

  const NotSupportedMessage: string := "Operation not supported"

  /** The message of a failed header lookup: "Header <name> not found". */
  function HeaderNotFoundMessage(name: string): string
  {
    "Header " + name + " not found"
  }

  /** Every operation of pac4j's `WebContext` interface, with its arguments. */
  datatype Operation =
    | GetSessionStore
    | GetRequestParameter(parameter: string)
    | GetRequestParameters
    | GetRequestAttribute(attribute: string)
    | SetRequestAttribute(attribute: string, attributeValue: string)
    | GetRequestHeader(header: string)
    | GetRequestMethod
    | GetRemoteAddr
    | WriteResponseContent(content: string)
    | SetResponseStatus(status: int)
    | SetResponseHeader(responseHeader: string, responseValue: string)
    | SetResponseContentType(contentType: string)
    | GetServerName
    | GetServerPort
    | GetScheme
    | IsSecure
    | GetFullRequestUrl
    | GetRequestCookies
    | AddResponseCookie(cookieName: string, cookieValue: string)
    | GetPath

  /** The operations the context answers; all others fail with `NotSupportedMessage`. */
  predicate Supported(op: Operation)
  {
    op.GetRequestHeader? || op.GetRequestMethod? || op.SetResponseHeader? || op.IsSecure? || op.GetPath?
  }

  /** What a successful operation returns: a string, a boolean, or nothing (a `void` method). */
  datatype Value = Text(text: string) | Flag(flag: bool) | Done

  datatype LagomWebContext = LagomWebContext(requestHeader: RequestHeader) {

    /** The header's value, or a failure naming the missing header. */
    function RequestHeaderValue(name: string): (r: Result<string, TechnicalException>)
      ensures r.Ok? <==> name in requestHeader.headers
      ensures r.Ok? ==> r.value == requestHeader.headers[name]
      ensures r.Err? ==> r.error.message == HeaderNotFoundMessage(name)
    {
      match GetHeader(requestHeader, name)
      case Some(v) => Ok(v)
      case None => Err(TechnicalException(HeaderNotFoundMessage(name)))
    }

    /** The name of the request's HTTP method. */
    function RequestMethod(): string
    {
      requestHeader.httpMethod
    }

    /** The path component of the request URI. */
    function Path(): string
    {
      requestHeader.uri.path
    }

    /** No transport security information is available at this layer. */
    function Secure(): bool
    {
      false
    }

    /** Outcome of every operation of the context; a successful `void` call yields `Done`. */
    function Invoke(op: Operation): (r: Result<Value, TechnicalException>)
      ensures !Supported(op) ==> r == Err(TechnicalException(NotSupportedMessage))
      ensures r.Err? <==> !Supported(op) || (op.GetRequestHeader? && op.header !in requestHeader.headers)
      ensures op.GetRequestHeader? && op.header in requestHeader.headers ==>
                r == Ok(Text(requestHeader.headers[op.header]))
      ensures op.GetRequestHeader? && op.header !in requestHeader.headers ==>
                r == Err(TechnicalException(HeaderNotFoundMessage(op.header)))
      ensures op.GetRequestMethod? ==> r == Ok(Text(requestHeader.httpMethod))
      ensures op.GetPath? ==> r == Ok(Text(requestHeader.uri.path))
      ensures op.IsSecure? ==> r == Ok(Flag(false))
      ensures op.SetResponseHeader? ==> r == Ok(Done)
    {
      match op
      case GetRequestHeader(name) =>
        (match RequestHeaderValue(name)
         case Ok(v) => Ok(Text(v))
         case Err(e) => Err(e))
      case GetRequestMethod => Ok(Text(RequestMethod()))
      case GetPath => Ok(Text(Path()))
      case IsSecure => Ok(Flag(Secure()))
      case SetResponseHeader(_, _) => Ok(Done)
      case _ => Err(TechnicalException(NotSupportedMessage))
    }
  }

  /** Every failure of the context carries one of exactly two messages. */
  lemma FailureMessages(ctx: LagomWebContext, op: Operation)
    requires ctx.Invoke(op).Err?
    ensures ctx.Invoke(op).error.message == NotSupportedMessage
         || (op.GetRequestHeader? && ctx.Invoke(op).error.message == HeaderNotFoundMessage(op.header))
  {
  }

  /** The context's answers depend on the request header alone. */
  lemma AnswersDependOnHeaderOnly(c1: LagomWebContext, c2: LagomWebContext, op: Operation)
    requires c1.requestHeader.headers == c2.requestHeader.headers
    requires c1.requestHeader.httpMethod == c2.requestHeader.httpMethod
    requires c1.requestHeader.uri.path == c2.requestHeader.uri.path
    ensures c1.Invoke(op) == c2.Invoke(op)
  {
  }
}
