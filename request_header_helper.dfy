/**
 * Helpers that rewrite an outgoing request header: attach a bearer token, or copy a header
 * over from another request. Each helper is a function of the header it rewrites.
 */
module RequestHeaderHelper {
  import opened Results
  import opened Transport
  import opened LagomContext

  /** pac4j's `AUTHORIZATION_HEADER`. */
  const AuthorizationHeader: string := "Authorization"

  /** pac4j's `BEARER_HEADER_PREFIX`. */
  const BearerHeaderPrefix: string := "Bearer "

  /** A JSON Web Token, held in its compact serialisation. */
  datatype Jwt = Jwt(compact: string) {
    function Serialize(): string
    {
      compact
    }
  }

  /** `authorizationBearer(String)`: the header with `Authorization: Bearer <jwt>` set. */
  function AuthorizationBearer(jwt: string, header: RequestHeader): (r: RequestHeader)
    ensures GetHeader(r, AuthorizationHeader) == Some(BearerHeaderPrefix + jwt)
    ensures r.headers - {AuthorizationHeader} == header.headers - {AuthorizationHeader}
    ensures r.httpMethod == header.httpMethod && r.uri == header.uri
  {
    WithHeader(header, AuthorizationHeader, BearerHeaderPrefix + jwt)
  }

  /** `authorizationBearer(JWT)`: the String form applied to the token's serialisation. */
  function AuthorizationBearerJwt(jwt: Jwt, header: RequestHeader): (r: RequestHeader)
    ensures r == AuthorizationBearer(jwt.Serialize(), header)
  {
    AuthorizationBearer(jwt.Serialize(), header)
  }

  /** `forwardHeader(source, name)` applied to `header`. */
  function ForwardHeader(source: RequestHeader, name: string, header: RequestHeader): (r: RequestHeader)
    ensures name in source.headers ==> name in r.headers && r.headers[name] == source.headers[name]
    ensures name !in source.headers ==> r == header
    ensures r.headers - {name} == header.headers - {name}
    ensures r.httpMethod == header.httpMethod && r.uri == header.uri
  {
    match GetHeader(source, name)
    case Some(value) => WithHeader(header, name, value)
    case None => header
  }

  /** `forwardAuthorization(source)` applied to `header`. */
  function ForwardAuthorization(source: RequestHeader, header: RequestHeader): (r: RequestHeader)
    ensures r == ForwardHeader(source, AuthorizationHeader, header)
  {
    ForwardHeader(source, AuthorizationHeader, header)
  }

  /**
   * The token a header client configured with the bearer prefix extracts from a header value:
   * the remainder after the prefix, or nothing when the value does not start with it. This is
   * pac4j's `HeaderClient`, which lies outside this repository; it is here as the partner that
   * reads back what `AuthorizationBearer` writes.
   */
  function BearerToken(value: string): (t: Option<string>)
    ensures t.Some? ==> value == BearerHeaderPrefix + t.value
    ensures t.None? ==> !(|value| >= |BearerHeaderPrefix| && value[..|BearerHeaderPrefix|] == BearerHeaderPrefix)
  {
    if |value| >= |BearerHeaderPrefix| && value[..|BearerHeaderPrefix|] == BearerHeaderPrefix
    then Some(value[|BearerHeaderPrefix|..])
    else None
  }

  /** A bearer-prefixed token reads back, through the web context, as the same token. */
  lemma BearerRoundTrip(jwt: string, header: RequestHeader)
    ensures LagomWebContext(AuthorizationBearer(jwt, header)).RequestHeaderValue(AuthorizationHeader)
            == Ok(BearerHeaderPrefix + jwt)
    ensures BearerToken(BearerHeaderPrefix + jwt) == Some(jwt)
  {
    var v := BearerHeaderPrefix + jwt;
    assert v[..|BearerHeaderPrefix|] == BearerHeaderPrefix;
    assert v[|BearerHeaderPrefix|..] == jwt;
  }

  /** After forwarding, the target reads the header exactly as the source does, if the source has it. */
  lemma ForwardedHeaderReadsAsSource(source: RequestHeader, name: string, header: RequestHeader)
    ensures name in source.headers ==>
      LagomWebContext(ForwardHeader(source, name, header)).RequestHeaderValue(name)
      == LagomWebContext(source).RequestHeaderValue(name)
    ensures name !in source.headers ==>
      LagomWebContext(ForwardHeader(source, name, header)).RequestHeaderValue(name)
      == LagomWebContext(header).RequestHeaderValue(name)
  {
  }

  /** Headers other than the forwarded one keep their presence and their values. */
  lemma ForwardKeepsOtherHeaders(source: RequestHeader, name: string, header: RequestHeader, other: string)
    requires other != name
    ensures GetHeader(ForwardHeader(source, name, header), other) == GetHeader(header, other)
  {
    var r := ForwardHeader(source, name, header);
    assert other in r.headers <==> other in r.headers - {name};
    assert other in header.headers <==> other in header.headers - {name};
    if other in r.headers {
      assert r.headers[other] == (r.headers - {name})[other];
      assert header.headers[other] == (header.headers - {name})[other];
    }
  }

  /** Forwarding the same header twice is the same as forwarding it once. */
  lemma ForwardHeaderIdempotent(source: RequestHeader, name: string, header: RequestHeader)
    ensures ForwardHeader(source, name, ForwardHeader(source, name, header)) == ForwardHeader(source, name, header)
  {
  }

  /** A bearer token attached to one request is carried on by forwarding its Authorization header. */
  lemma BearerSurvivesForwarding(jwt: string, incoming: RequestHeader, outgoing: RequestHeader)
    ensures GetHeader(ForwardAuthorization(AuthorizationBearer(jwt, incoming), outgoing), AuthorizationHeader)
            == Some(BearerHeaderPrefix + jwt)
  {
  }
}
