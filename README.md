# lagom-pac4j security core, modelled in Dafny

This project models the security layer that lagom-pac4j puts around Lagom service calls, and proves properties of the model.

- **Security composition** (`SecuredService`). `authenticate` looks up a named pac4j client. The client turns the request into a profile. Any exception the client raises, or a null profile, becomes the anonymous profile. `authorize` then runs an authorizer over that profile. The result is one of three outcomes: the service call runs with the profile, the request is rejected with Unauthorized (401, message "Unauthorized"), or it is rejected with Forbidden (403, message "Authorization failed").
- **Web context** (`LagomWebContext`). This is pac4j's view of a request. It is fixed when built and supports only header lookup, method, path, `isSecure` and a no-op `setResponseHeader`. Every other operation fails with "Operation not supported".
- **Request-header helpers** (`RequestHeaderHelper`). One attaches `Authorization: Bearer <token>`. The others forward a header from one request to another.
- **Exception serializer** (`Pac4jExceptionSerializer`). It turns a deserialised transport error with code 401 back into `Unauthorized`.
- **Key resolution** (`JwkParser`, `JwtAuthenticatorHelper`, `JwtGeneratorHelper`). A JSON Web Key (RFC 7517) becomes a secret, RSA or EC signature or encryption configuration, or nothing for other key types. Optional `algorithm` and `method` settings override the defaults. The JWT authenticator collects configurations in a fixed order. First come the keys of each remote key set, in declared URL order. Keys with use "sig" go to the signature list and keys with use "enc" go to the encryption list (section 4.2 of RFC 7517). Then come the local `signatures`, then the local `encryptions`. The JWT generator takes at most one of each.

Files: `results.dfy` (Option/Result), `transport.dfy` (request header, error codes, throwables; the 401 code of `Unauthorized`), `collections.dfy` (order-preserving list builders and their lemmas), `jose.dfy` (keys and configurations as opaque values), then one file per source class, plus `secured_service_scenarios.dfy` (the header-client test cases as lemmas).

Java's `null` is `None`, and a thrown exception is an `Err` result. Clients, authorizers and remote key sets are function-valued parameters. The builder of the authenticator, `JwtAuthenticatorHelper.Parse`, keeps the source's nested loops. It is proved equal to the specification function `JwtAuthenticatorHelper.Authenticator`.

Behaviour of the code worth noting:
- A name-based `authorize` with an unregistered authorizer name does not fail when the call is composed. The registry's `get` gives null, and every request is then rejected: 401 for an anonymous caller, 403 otherwise.
- A rejected anonymous caller always gets Unauthorized (401), never Forbidden.
- Remote key-set keys come before the local declarations, in both lists.

## Model

| member | source | states |
|---|---|---|
| LagomContext.LagomWebContext.RequestHeaderValue | shared/src/main/java/org/pac4j/lagom/javadsl/LagomWebContext.java:55-57 | a present header yields its value; an absent one fails with "Header <name> not found" |
| LagomContext.LagomWebContext.Invoke | shared/src/main/java/org/pac4j/lagom/javadsl/LagomWebContext.java:29-127 | every operation other than header, method, path, isSecure and setResponseHeader fails with "Operation not supported"; method and path come from the request; isSecure is false; setResponseHeader succeeds; a failure happens exactly for unsupported operations and absent headers |
| LagomContext.FailureMessages | shared/src/main/java/org/pac4j/lagom/javadsl/LagomWebContext.java:30-121 | every failure of the context carries "Operation not supported" or "Header <name> not found" |
| LagomContext.AnswersDependOnHeaderOnly | shared/src/main/java/org/pac4j/lagom/javadsl/LagomWebContext.java:23-27 | the context's answers depend only on the request header it was built over |
| RequestHeaderHelper.AuthorizationBearer | shared/src/main/java/org/pac4j/lagom/javadsl/transport/RequestHeaderHelper.java:23-25 | Authorization becomes the bearer prefix followed by the token; all other headers, the method and the URI are unchanged |
| RequestHeaderHelper.AuthorizationBearerJwt | shared/src/main/java/org/pac4j/lagom/javadsl/transport/RequestHeaderHelper.java:31-33 | the JWT form equals the String form applied to the serialised token |
| RequestHeaderHelper.ForwardHeader | shared/src/main/java/org/pac4j/lagom/javadsl/transport/RequestHeaderHelper.java:40-42 | the target gets the source's value when the source has the header, and is returned unchanged otherwise; no other header changes |
| RequestHeaderHelper.ForwardAuthorization | shared/src/main/java/org/pac4j/lagom/javadsl/transport/RequestHeaderHelper.java:48-50 | equals forwarding the Authorization header |
| RequestHeaderHelper.BearerRoundTrip | shared/src/main/java/org/pac4j/lagom/javadsl/transport/RequestHeaderHelper.java:23-25 | through the web context, the header reads "Bearer <token>", and stripping the prefix gives the token back |
| RequestHeaderHelper.ForwardedHeaderReadsAsSource | shared/src/main/java/org/pac4j/lagom/javadsl/transport/RequestHeaderHelper.java:41 | after forwarding, the web context reads the header as the source's context does, or as the target's when the source lacks it |
| RequestHeaderHelper.ForwardKeepsOtherHeaders | shared/src/main/java/org/pac4j/lagom/javadsl/transport/RequestHeaderHelper.java:41 | every other header keeps its presence and its value |
| RequestHeaderHelper.ForwardHeaderIdempotent | shared/src/main/java/org/pac4j/lagom/javadsl/transport/RequestHeaderHelper.java:41 | forwarding twice equals forwarding once |
| RequestHeaderHelper.BearerSurvivesForwarding | shared/src/main/java/org/pac4j/lagom/javadsl/transport/RequestHeaderHelper.java:48-50 | a bearer token attached to one request is carried to the next by forwardAuthorization |
| Pac4jExceptionSerializer.Deserialize | shared/src/main/java/org/pac4j/lagom/javadsl/Pac4jExceptionSerializer.java:28-37 | a transport error with the 401 code becomes Unauthorized with the same code and message; anything else is returned unchanged |
| Pac4jExceptionSerializer.DeserializeKeepsCodeAndMessage | shared/src/main/java/org/pac4j/lagom/javadsl/Pac4jExceptionSerializer.java:30-35 | code and message always survive; the result is Unauthorized exactly when the code is 401 or it already was |
| Pac4jExceptionSerializer.DeserializeIdempotent | shared/src/main/java/org/pac4j/lagom/javadsl/Pac4jExceptionSerializer.java:28-37 | remapping twice equals remapping once |
| SecuredService.ClientProfile | shared/src/main/java/org/pac4j/lagom/javadsl/SecuredService.java:67-71 | an unknown client name fails; otherwise the client's own result over a web context of the request |
| SecuredService.AuthenticatedProfile | shared/src/main/java/org/pac4j/lagom/javadsl/SecuredService.java:66-77 | any failure gives the anonymous profile, a null profile gives the anonymous profile, and a resolved profile is passed on exactly |
| SecuredService.Authenticate | shared/src/main/java/org/pac4j/lagom/javadsl/SecuredService.java:62-79 | authenticate never rejects: the service call always runs, with the authenticated profile |
| SecuredService.DefaultAuthenticate | shared/src/main/java/org/pac4j/lagom/javadsl/SecuredService.java:47-50 | uses the configured default client name(s) |
| SecuredService.IsAuthorized | shared/src/main/java/org/pac4j/lagom/javadsl/SecuredService.java:111-118 | authorized exactly when an authorizer is given and it answers true; a null authorizer or a failing one means not authorized |
| SecuredService.Reject | shared/src/main/java/org/pac4j/lagom/javadsl/SecuredService.java:119-122 | a null or anonymous profile gives Unauthorized "Unauthorized"; a real profile gives Forbidden "Authorization failed" |
| SecuredService.Authorize | shared/src/main/java/org/pac4j/lagom/javadsl/SecuredService.java:106-125 | the call runs exactly when authorized, with the authenticated profile; otherwise Unauthorized exactly for the anonymous profile and Forbidden exactly for a real one, with their fixed messages |
| SecuredService.DefaultAuthorize | shared/src/main/java/org/pac4j/lagom/javadsl/SecuredService.java:90-94 | uses the configured default client name(s) |
| SecuredService.LookupAuthorizer | shared/src/main/java/org/pac4j/lagom/javadsl/SecuredService.java:140 | the registry gives the authorizer registered under a name exactly for a registered name, and null otherwise |
| SecuredService.AuthorizeByName | shared/src/main/java/org/pac4j/lagom/javadsl/SecuredService.java:137-141 | delegates with the registry's answer; an unregistered name never runs the call |
| SecuredService.AuthorizeClientByName | shared/src/main/java/org/pac4j/lagom/javadsl/SecuredService.java:154-159 | delegates with the registry's answer; an unregistered name never runs the call |
| SecuredService.Raised | shared/src/main/java/org/pac4j/lagom/javadsl/transport/Unauthorized.java:17 | Unauthorized is raised with the 401 code and Forbidden with 403, each carrying its message; running the call raises nothing |
| SecuredService.AnonymousExactlyWhenUnresolved | shared/src/main/java/org/pac4j/lagom/javadsl/SecuredService.java:66-77 | the profile is anonymous exactly when the client is missing, fails, returns null or returns an anonymous profile |
| SecuredService.RejectionMatchesProfile | shared/src/main/java/org/pac4j/lagom/javadsl/SecuredService.java:119-122 | a 401 only ever answers an anonymous caller and a 403 only a real one |
| SecuredService.NullAuthorizerRejects | shared/src/main/java/org/pac4j/lagom/javadsl/SecuredService.java:113 | without an authorizer every call is rejected according to the profile |
| SecuredService.UnauthorizedSurvivesTransport | shared/src/main/java/org/pac4j/lagom/javadsl/Pac4jExceptionSerializer.java:28-37 | an Unauthorized rejection rebuilt from its code and message, as any transport exception, is remapped to the same Unauthorized |
| SecuredService.ForbiddenStaysForbidden | shared/src/main/java/org/pac4j/lagom/javadsl/Pac4jExceptionSerializer.java:31-36 | a Forbidden rejection passes the remap unchanged |
| SecuredServiceScenarios.HeaderClientScenarios | shared/src/test/java/org/pac4j/lagom/javadsl/test/HeaderClientTest.java:42-90 | with the plain header client: no header gives id "anonymous" and a 401 "Unauthorized" under the authenticated check; header "Alice" gives id "Alice" and runs the call, for the authorizer passed directly and for the one named in the configuration |
| JwkParser.ParseEncryptionKey | shared/src/main/java/org/pac4j/lagom/jwt/JwkParser.java:31-41 | octet, RSA and EC keys give secret, RSA and EC encryption configurations over the key's own material with default algorithm and method; any other key type gives null |
| JwkParser.ParseEncryption | shared/src/main/java/org/pac4j/lagom/jwt/JwkParser.java:43-53 | no jwk entry gives null; a malformed one fails; otherwise the key's configuration, with algorithm and method each overridden exactly when present |
| JwkParser.ParseSignatureKey | shared/src/main/java/org/pac4j/lagom/jwt/JwkParser.java:55-65 | octet, RSA and EC keys give secret, RSA and EC signature configurations over the key's material with the default algorithm; any other key type gives null |
| JwkParser.ParseSignature | shared/src/main/java/org/pac4j/lagom/jwt/JwkParser.java:67-76 | no jwk entry gives null; a malformed one fails; otherwise the key's configuration, with the algorithm overridden exactly when present |
| JwkParser.SignatureAndEncryptionAgree | shared/src/main/java/org/pac4j/lagom/jwt/JwkParser.java:31-65 | signature and encryption resolution accept the same key types and bind the same family and material |
| JwkParser.ParseSignatureKeyInjective | shared/src/main/java/org/pac4j/lagom/jwt/JwkParser.java:55-65 | keys of a different type or material never resolve to the same configuration |
| JwkParser.OverridesKeepKey | shared/src/main/java/org/pac4j/lagom/jwt/JwkParser.java:43-76 | the overrides change only the algorithm and method; the configuration is otherwise the key's own |
| JwtGeneratorHelper.Parse | shared/src/main/java/org/pac4j/lagom/jwt/JwtGeneratorHelper.java:29-34 | a missing section gives a null component; a present one gives the shared parser's result; the signature section's failure is reported first, and otherwise the encryption section's own failure |
| JwtGeneratorHelper.ComponentsIndependent | shared/src/main/java/org/pac4j/lagom/jwt/JwtGeneratorHelper.java:30-33 | each component depends only on its own section |
| JwtGeneratorHelper.UnsupportedKeyGivesNoComponent | shared/src/main/java/org/pac4j/lagom/jwt/JwtGeneratorHelper.java:31 | a signature section without a jwk, or with an unsupported key type, gives no signature configuration |
| JwtAuthenticatorHelper.PrivateCopiesAgree | shared/src/main/java/org/pac4j/lagom/jwt/JwtAuthenticatorHelper.java:50-95 | the builder's private parsers equal the shared key parser's on every key and declaration |
| JwtAuthenticatorHelper.OrDefault | shared/src/main/java/org/pac4j/lagom/jwt/JwtAuthenticatorHelper.java:112-114 | a configured setting wins; an absent one takes the library default |
| JwtAuthenticatorHelper.Retriever | shared/src/main/java/org/pac4j/lagom/jwt/JwtAuthenticatorHelper.java:108-116 | no retriever without a jwk-retriever section; otherwise each of connect timeout, read timeout and size limit as configured or defaulted |
| JwtAuthenticatorHelper.SelectedMember | shared/src/main/java/org/pac4j/lagom/jwt/JwtAuthenticatorHelper.java:119-121 | the key-use selection keeps exactly the keys marked with that use |
| JwtAuthenticatorHelper.Authenticator | shared/src/main/java/org/pac4j/lagom/jwt/JwtAuthenticatorHelper.java:105-147 | the build fails exactly when some key set cannot be read or some local declaration is malformed |
| JwtAuthenticatorHelper.AppendKeys | shared/src/main/java/org/pac4j/lagom/jwt/JwtAuthenticatorHelper.java:122-125 | appends, in order, the configuration of every selected key of a supported type, and nothing else |
| JwtAuthenticatorHelper.AppendDeclared | shared/src/main/java/org/pac4j/lagom/jwt/JwtAuthenticatorHelper.java:134-139 | appends every non-null resolution of the declarations in order, or fails with the first error |
| JwtAuthenticatorHelper.AppendKeySets | shared/src/main/java/org/pac4j/lagom/jwt/JwtAuthenticatorHelper.java:117-132 | the URL loop fails with the first unreadable key set, or yields, per list, the configurations of all key sets in URL order |
| JwtAuthenticatorHelper.Parse | shared/src/main/java/org/pac4j/lagom/jwt/JwtAuthenticatorHelper.java:105-147 | the nested loops build exactly the specified authenticator: per URL its signing then its encryption keys, then local signatures, then local encryptions; the first failure aborts |
| JwtAuthenticatorHelper.FromKeySetsConcat | shared/src/main/java/org/pac4j/lagom/jwt/JwtAuthenticatorHelper.java:117-132 | configurations from earlier URLs come before those from later ones |
| JwtAuthenticatorHelper.FromKeySetsMember | shared/src/main/java/org/pac4j/lagom/jwt/JwtAuthenticatorHelper.java:117-132 | a configuration is collected for a use exactly when some key marked with that use resolves to it |
| JwtAuthenticatorHelper.OtherUseIgnored | shared/src/main/java/org/pac4j/lagom/jwt/JwtAuthenticatorHelper.java:120-131 | a key marked with the other use never reaches the list |
| JwtAuthenticatorHelper.FromKeySetsLength | shared/src/main/java/org/pac4j/lagom/jwt/JwtAuthenticatorHelper.java:122-131 | a list from the key sets has one entry per selected key of a supported type |
| JwtAuthenticatorHelper.AuthenticatorLists | shared/src/main/java/org/pac4j/lagom/jwt/JwtAuthenticatorHelper.java:106-146 | in a successful build each list is the key-set configurations followed by the local ones |
| JwtAuthenticatorHelper.SignaturesMember | shared/src/main/java/org/pac4j/lagom/jwt/JwtAuthenticatorHelper.java:106-146 | the signature list holds exactly the resolutions of signing keys from the key sets and of local signature declarations |
| JwtAuthenticatorHelper.EncryptionsMember | shared/src/main/java/org/pac4j/lagom/jwt/JwtAuthenticatorHelper.java:106-146 | the encryption list holds exactly the resolutions of encryption keys from the key sets and of local encryption declarations |
| JwtAuthenticatorHelper.FirstKeySetFailureReported | shared/src/main/java/org/pac4j/lagom/jwt/JwtAuthenticatorHelper.java:117-121 | an unreadable key set aborts the build with the failure of the first such URL: every earlier URL was read |
| JwtAuthenticatorHelper.AuthenticatorLength | shared/src/main/java/org/pac4j/lagom/jwt/JwtAuthenticatorHelper.java:106-146 | in a successful build each list has one entry per selected supported key of the key sets plus one per local declaration that resolves to a configuration |
| Collections.FilterMapLength | shared/src/main/java/org/pac4j/lagom/jwt/JwtAuthenticatorHelper.java:122-124 | a filtered list has one entry per element that resolved to a configuration, and null resolutions are never added |
| Collections.TraverseFirstError | shared/src/main/java/org/pac4j/lagom/jwt/JwtAuthenticatorHelper.java:117-121 | a failing download loop reports the error of its first failing URL, and every earlier URL succeeded |
| Collections.CollectAllLength | shared/src/main/java/org/pac4j/lagom/jwt/JwtAuthenticatorHelper.java:134-145 | a successful declaration loop yields one configuration per declaration that resolves to one |
| Collections.CollectAllFirstError | shared/src/main/java/org/pac4j/lagom/jwt/JwtAuthenticatorHelper.java:134-145 | a failing declaration list reports the error of its first failing declaration |

## Left out

- Network I/O. Downloading a remote key set is the parameter `KeySetSource`. It takes the retriever settings and a URL and returns the keys or a failure. URL construction, HTTP retrieval, caching and key-set parsing are not modelled. The source queries each key set twice, once per key use. The model reads each set once and selects from that one read, as the key-set cache does.
- The retriever's library defaults (`DEFAULT_HTTP_CONNECT_TIMEOUT`, `DEFAULT_HTTP_READ_TIMEOUT`, `DEFAULT_HTTP_SIZE_LIMIT`) belong to the key-set library, not to this repository. They are the parameter `defaults`.
- Cryptography and JOSE parsing are not modelled: `toKeyPair`, `toByteArray`, signing and verification. Keys, key pairs and algorithm names are opaque values. The outcome of `JWK.parse` on a `jwk` entry is carried in the declaration. Parsing an algorithm or method name is not modelled; the name is kept.
- JwkParser.ParseSignatureKey: does not model the exception `toKeyPair` can raise on invalid key material, so a supported key always resolves. The same holds for `JwkParser.ParseEncryptionKey` and the builder's private copies.
- A configuration class's default algorithm and method are pac4j's. They are `LibraryDefault`.
- Typesafe Config lookup is not modelled: rendering and path lookup. A declaration is a record of optional fields. A setting of the wrong type, for example a non-integer timeout, is not modelled.
- Lagom plumbing is not modelled: `compose`, `ServerServiceCall` and asynchronous completion. Running the service call is the outcome `RunHandler(profile)`. The Jackson superclass `deserialize` is the input of `Pac4jExceptionSerializer.Deserialize`.
- pac4j's client registry lookup is an exact map lookup by the whole name string. Its own name-matching rules are not modelled.
- The default-client test expects Forbidden for an anonymous caller. The code as written (SecuredService.java line 120) answers an anonymous caller with Unauthorized, and the model follows that line, so that expectation is not stated.
- A `Fault` stands for a Java `Exception`, which is what the source catches. A `java.lang.Error` raised by a client or an authorizer escapes the source's handlers. Errors are not modelled.
- The web context is an immutable value, so no operation can change it. `setResponseHeader` discards its arguments and succeeds, which `LagomContext.LagomWebContext.Invoke` states. No separate member restates this.
- Header names are matched exactly. The transport's case-insensitive lookup is not modelled.
- A transport error code is identified by its HTTP status. The WebSocket half of Lagom's error code is not modelled.
- `Unauthorized(Throwable cause)` is not modelled. The repository's own code never uses it.
- Concurrency: the source has none to model.
