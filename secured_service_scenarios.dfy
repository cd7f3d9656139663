/**
 * The end-to-end cases of the repository's header-client tests, stated over the model: the
 * plain header client takes the Authorization header's value as the profile id, and the
 * "is authenticated" authorizer accepts a list holding a real profile.
 */
module SecuredServiceScenarios {
  import opened Results
  import opened Transport
  import opened LagomContext
  import opened SecuredService

  const HeaderClientName: string := "simple_header"
  const AuthenticatedName: string := "_authenticated_"

  /** The plain header client: the Authorization header's value becomes the profile's id. */
  function HeaderClient(): Client
  {
    (ctx: LagomWebContext) =>
      match ctx.RequestHeaderValue("Authorization")
      case Ok(v) => Ok(Some(CommonProfile(v, {})))
      case Err(e) => Err(Thrown(e.message))
  }

  /** pac4j's "is authenticated" authorizer: some profile is a real one. */
  function IsAuthenticated(): Authorizer
  {
    (ctx: LagomWebContext, profiles: seq<Profile>) => Ok(exists i :: 0 <= i < |profiles| && profiles[i].CommonProfile?)
  }

  /** The security configuration of the tests: the header client, also the default, and the named authorizer. */
  function TestConfig(): SecurityConfig
  {
    SecurityConfig(
      map[HeaderClientName := HeaderClient()],
      HeaderClientName,
      map[AuthenticatedName := IsAuthenticated()])
  }

  /** Without the header the caller is anonymous and rejected with 401; with "Alice" the call runs as Alice. */
  lemma {:induction false} HeaderClientScenarios(bare: RequestHeader, alice: RequestHeader)
    requires "Authorization" !in bare.headers
    requires "Authorization" in alice.headers && alice.headers["Authorization"] == "Alice"
    ensures ProfileId(Authenticate(TestConfig(), HeaderClientName, bare).profile) == "anonymous"
    ensures ProfileId(Authenticate(TestConfig(), HeaderClientName, alice).profile) == "Alice"
    ensures Authorize(TestConfig(), HeaderClientName, Some(IsAuthenticated()), bare) == Unauthorized("Unauthorized")
    ensures AuthorizeClientByName(TestConfig(), HeaderClientName, AuthenticatedName, bare) == Unauthorized("Unauthorized")
    ensures Authorize(TestConfig(), HeaderClientName, Some(IsAuthenticated()), alice) == RunHandler(CommonProfile("Alice", {}))
    ensures AuthorizeClientByName(TestConfig(), HeaderClientName, AuthenticatedName, alice) == RunHandler(CommonProfile("Alice", {}))
  {
    var config := TestConfig();
    assert ClientProfile(config, HeaderClientName, bare).Err?;
    var verdict := IsAuthenticated()(LagomWebContext(bare), [AnonymousProfile]);
    assert verdict == Ok(false) by {
      assert forall i :: 0 <= i < |[AnonymousProfile]| ==> [AnonymousProfile][i] == AnonymousProfile;
    }
    assert ClientProfile(config, HeaderClientName, alice) == Ok(Some(CommonProfile("Alice", {})));
    var accepted := IsAuthenticated()(LagomWebContext(alice), [CommonProfile("Alice", {})]);
    assert accepted == Ok(true) by {
      assert [CommonProfile("Alice", {})][0].CommonProfile?;
    }
  }
}
