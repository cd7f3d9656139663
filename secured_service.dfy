/**
 * The security composition of a Lagom service: `authenticate` resolves a profile through a named
 * pac4j client and hands it to the service call; `authorize` additionally runs an authorizer
 * over that profile and either runs the service call or rejects the request with Unauthorized
 * (401) or Forbidden (403). Every exception raised by the client or the authorizer (a `Fault`)
 * is contained: it becomes the anonymous profile, or "not authorized".
 */
module SecuredService {
  import opened Results
  import opened Transport
  import opened LagomContext
  import Pac4jExceptionSerializer

  /** A resolved principal; `AnonymousProfile` is pac4j's profile for "no identity". */
  datatype Profile = AnonymousProfile | CommonProfile(id: string, roles: set<string>)

  /** The profile's identifier; pac4j gives every anonymous profile the id "anonymous". */
  function ProfileId(p: Profile): string
  {
    match p
    case AnonymousProfile => "anonymous"
    case CommonProfile(id, _) => id
  }

  /** An exception raised while looking up a client, extracting credentials or authorizing. */
  datatype Fault = ClientNotFound(clientName: string) | Thrown(message: string)

  /**
   * A pac4j client: credential extraction followed by profile resolution over the web context.
   * It may fail (`Err`) or find no profile (`Ok(None)`, Java's null).
   */
  type Client = LagomWebContext -> Result<Option<Profile>, Fault>

  /** A pac4j authorizer, possibly composite, over the context and the list of profiles. */
  type Authorizer = (LagomWebContext, seq<Profile>) -> Result<bool, Fault>

  /** The pac4j configuration of the service: clients by name, the default client name(s), authorizers by name. */
  datatype SecurityConfig = SecurityConfig(
    clients: map<string, Client>,
    defaultSecurityClients: string,
    authorizers: map<string, Authorizer>)

  /** How a secured call ends: the service call runs with a profile, or the request is rejected. */
  datatype Outcome =
    | RunHandler(profile: Profile)
    | Unauthorized(message: string)
    | Forbidden(message: string)

  const UnauthorizedMessage: string := "Unauthorized"
  const ForbiddenMessage: string := "Authorization failed"

  /** The body of the `try` in `authenticate`: client lookup, then credentials and profile. */
  function ClientProfile(config: SecurityConfig, clientName: string, request: RequestHeader): (r: Result<Option<Profile>, Fault>)
    ensures clientName !in config.clients ==> r == Err(ClientNotFound(clientName))
    ensures clientName in config.clients ==> r == config.clients[clientName](LagomWebContext(request))
  {
    if clientName in config.clients then config.clients[clientName](LagomWebContext(request))
    else Err(ClientNotFound(clientName))
  }

  /**
   * The profile `authenticate` hands to the service call: a failure is caught and becomes a new
   * anonymous profile, and a null profile is replaced by one too.
   */
  function AuthenticatedProfile(config: SecurityConfig, clientName: string, request: RequestHeader): (p: Profile)
    ensures ClientProfile(config, clientName, request).Err? ==> p == AnonymousProfile
    ensures ClientProfile(config, clientName, request) == Ok(None) ==> p == AnonymousProfile
    ensures ClientProfile(config, clientName, request).Ok? && ClientProfile(config, clientName, request).value.Some? ==>
      p == ClientProfile(config, clientName, request).value.value
  {
    var profile: Option<Profile> :=
      match ClientProfile(config, clientName, request)
      case Ok(resolved) => resolved
      case Err(_) => Some(AnonymousProfile);
    match profile
    case Some(q) => q
    case None => AnonymousProfile
  }

  /** `authenticate(clientName, serviceCall)`: the service call always runs. */
  function Authenticate(config: SecurityConfig, clientName: string, request: RequestHeader): (o: Outcome)
    ensures o.RunHandler?
    ensures o.profile == AuthenticatedProfile(config, clientName, request)
  {
    RunHandler(AuthenticatedProfile(config, clientName, request))
  }

  /** `authenticate(serviceCall)`: the same with the configured default client name(s). */
  function DefaultAuthenticate(config: SecurityConfig, request: RequestHeader): (o: Outcome)
    ensures o == Authenticate(config, config.defaultSecurityClients, request)
  {
    Authenticate(config, config.defaultSecurityClients, request)
  }

  /** The `authorized` flag: a null authorizer or a failing one means "not authorized". */
  function IsAuthorized(authorizer: Option<Authorizer>, context: LagomWebContext, profile: Profile): (authorized: bool)
    ensures authorized <==> authorizer.Some? && authorizer.value(context, [profile]) == Ok(true)
  {
    match authorizer
    case None => false
    case Some(a) =>
      match a(context, [profile])
      case Ok(b) => b
      case Err(_) => false
  }

  /** The rejection raised when not authorized: 401 without a real profile, 403 with one. */
  function Reject(profile: Option<Profile>): (o: Outcome)
    ensures o.Unauthorized? <==> profile.None? || profile.value.AnonymousProfile?
    ensures o.Forbidden? <==> profile.Some? && profile.value.CommonProfile?
    ensures o.Unauthorized? ==> o.message == UnauthorizedMessage
    ensures o.Forbidden? ==> o.message == ForbiddenMessage
  {
    if profile.None? || profile.value.AnonymousProfile? then Unauthorized(UnauthorizedMessage)
    else Forbidden(ForbiddenMessage)
  }

  /** `authorize(clientName, authorizer, serviceCall)`. */
  function Authorize(config: SecurityConfig, clientName: string, authorizer: Option<Authorizer>, request: RequestHeader): (o: Outcome)
    ensures o.RunHandler? <==> IsAuthorized(authorizer, LagomWebContext(request), AuthenticatedProfile(config, clientName, request))
    ensures o.RunHandler? ==> o == Authenticate(config, clientName, request)
    ensures o.Unauthorized? <==>
      !IsAuthorized(authorizer, LagomWebContext(request), AuthenticatedProfile(config, clientName, request))
      && AuthenticatedProfile(config, clientName, request) == AnonymousProfile
    ensures o.Forbidden? <==>
      !IsAuthorized(authorizer, LagomWebContext(request), AuthenticatedProfile(config, clientName, request))
      && AuthenticatedProfile(config, clientName, request) != AnonymousProfile
    ensures o.Unauthorized? ==> o.message == UnauthorizedMessage
    ensures o.Forbidden? ==> o.message == ForbiddenMessage
  {
    match Authenticate(config, clientName, request)
    case RunHandler(profile) =>
      if !IsAuthorized(authorizer, LagomWebContext(request), profile) then Reject(Some(profile))
      else RunHandler(profile)
  }

  /** `authorize(authorizer, serviceCall)`: with the configured default client name(s). */
  function DefaultAuthorize(config: SecurityConfig, authorizer: Option<Authorizer>, request: RequestHeader): (o: Outcome)
    ensures o == Authorize(config, config.defaultSecurityClients, authorizer, request)
  {
    Authorize(config, config.defaultSecurityClients, authorizer, request)
  }

  /** The authorizer registry's `get`: null for a name nobody registered. */
  function LookupAuthorizer(config: SecurityConfig, authorizerName: string): (a: Option<Authorizer>)
    ensures a.Some? <==> authorizerName in config.authorizers
    ensures a.Some? ==> a.value == config.authorizers[authorizerName]
  {
    if authorizerName in config.authorizers then Some(config.authorizers[authorizerName]) else None
  }

  /** `authorize(authorizerName, serviceCall)`. */
  function AuthorizeByName(config: SecurityConfig, authorizerName: string, request: RequestHeader): (o: Outcome)
    ensures o == DefaultAuthorize(config, LookupAuthorizer(config, authorizerName), request)
    ensures authorizerName !in config.authorizers ==> !o.RunHandler?
  {
    DefaultAuthorize(config, LookupAuthorizer(config, authorizerName), request)
  }

  /** `authorize(clientName, authorizerName, serviceCall)`. */
  function AuthorizeClientByName(config: SecurityConfig, clientName: string, authorizerName: string, request: RequestHeader): (o: Outcome)
    ensures o == Authorize(config, clientName, LookupAuthorizer(config, authorizerName), request)
    ensures authorizerName !in config.authorizers ==> !o.RunHandler?
  {
    Authorize(config, clientName, LookupAuthorizer(config, authorizerName), request)
  }

  /** The transport exception a rejection is raised as; a handler run raises nothing. */
  function Raised(o: Outcome): (t: Option<Throwable>)
    ensures t.None? <==> o.RunHandler?
    ensures t.Some? ==> t.value.TransportException? && t.value.exceptionMessage.detail == o.message
    ensures o.Unauthorized? ==> t.value.errorCode == UnauthorizedCode && t.value.kind == UnauthorizedException
    ensures o.Forbidden? ==> t.value.errorCode == ForbiddenCode && t.value.kind == ForbiddenException
  {
    match o
    case RunHandler(_) => None
    case Unauthorized(m) => Some(TransportException(UnauthorizedException, UnauthorizedCode, ExceptionMessage("Unauthorized", m)))
    case Forbidden(m) => Some(TransportException(ForbiddenException, ForbiddenCode, ExceptionMessage("Forbidden", m)))
  }

  /** The anonymous profile is exactly what a missing client, a failure, null or an anonymous result gives. */
  lemma AnonymousExactlyWhenUnresolved(config: SecurityConfig, clientName: string, request: RequestHeader)
    ensures AuthenticatedProfile(config, clientName, request) == AnonymousProfile <==>
      (clientName !in config.clients
       || config.clients[clientName](LagomWebContext(request)).Err?
       || config.clients[clientName](LagomWebContext(request)) == Ok(None)
       || config.clients[clientName](LagomWebContext(request)) == Ok(Some(AnonymousProfile)))
  {
  }

  /** A call with a real profile is never answered with 401, and an anonymous one never with 403. */
  lemma RejectionMatchesProfile(config: SecurityConfig, clientName: string, authorizer: Option<Authorizer>, request: RequestHeader)
    ensures Authorize(config, clientName, authorizer, request).Unauthorized? ==>
      Authenticate(config, clientName, request).profile == AnonymousProfile
    ensures Authorize(config, clientName, authorizer, request).Forbidden? ==>
      Authenticate(config, clientName, request).profile.CommonProfile?
  {
  }

  /** Without an authorizer every call is rejected, and which rejection depends only on the profile. */
  lemma NullAuthorizerRejects(config: SecurityConfig, clientName: string, request: RequestHeader)
    ensures Authorize(config, clientName, None, request) == Reject(Some(AuthenticatedProfile(config, clientName, request)))
  {
  }

  /**
   * An Unauthorized rejection keeps its meaning across the service boundary: once its code and
   * message are deserialised into any transport exception, the serializer's remap yields
   * Unauthorized again, with the same code and message.
   */
  lemma UnauthorizedSurvivesTransport(config: SecurityConfig, clientName: string, authorizer: Option<Authorizer>,
                                      request: RequestHeader, rebuilt: TransportKind)
    requires Authorize(config, clientName, authorizer, request).Unauthorized?
    ensures var t := Raised(Authorize(config, clientName, authorizer, request)).value;
      Pac4jExceptionSerializer.Deserialize(TransportException(rebuilt, t.errorCode, t.exceptionMessage)) == t
  {
  }

  /** A Forbidden rejection is not turned into Unauthorized by the serializer's remap. */
  lemma ForbiddenStaysForbidden(o: Outcome)
    requires o.Forbidden?
    ensures Pac4jExceptionSerializer.Deserialize(Raised(o).value) == Raised(o).value
  {
  }
}
