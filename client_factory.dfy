/**
 * `GitHubClientFactory`: finds the App's installation on the configured
 * organisation, exchanges its id for an installation access token, and wraps
 * the token in an authenticated client. Also the JWT claims the App signs.
 */
module ClientFactory {
  import opened Wrappers
  import Text
  import opened AppConfig

  /** An installation of the App, as the integration endpoint lists it. */
  datatype Installation = Installation(id: int, login: string)

  /**
   * What the App-integration endpoint answers for this App: its installations
   * in listing order (every page), and the access token it issues for an
   * installation id. Both are foreign and are given, not computed.
   */
  datatype IntegrationApi = IntegrationApi(installations: seq<Installation>, accessToken: int -> string)

  /** `GitHubClientFactory(app_configuration)` together with the endpoint it talks to. */
  datatype Factory = Factory(config: AppConfiguration, api: IntegrationApi)

  /** A `Github` client authenticated with one installation token. */
  datatype Client = Client(token: string)

  /** `inst.account.login.lower() == org.lower()`. */
  predicate LoginMatches(inst: Installation, org: string) {
    Text.EqualsIgnoreCase(inst.login, org)
  }

  /** The position of the first installation whose login matches `org`, ignoring case. */
  function FirstMatch(insts: seq<Installation>, org: string): (r: Option<nat>)
    ensures r.Some? ==> r.value < |insts| && LoginMatches(insts[r.value], org)
    ensures r.Some? ==> forall k :: 0 <= k < r.value ==> !LoginMatches(insts[k], org)
    ensures r.None? ==> forall k :: 0 <= k < |insts| ==> !LoginMatches(insts[k], org)
  {
    if insts == [] then None
    else if LoginMatches(insts[0], org) then Some(0)
    else match FirstMatch(insts[1..], org)
      case None => None
      case Some(k) => Some(k + 1)
  }

  /** The installation search loop of `_get_installation_token_sync`: first match wins. */
  method FindInstallation(insts: seq<Installation>, org: string) returns (found: Option<Installation>)
    ensures found.Some? <==> FirstMatch(insts, org).Some?
    ensures found.Some? ==> found.value == insts[FirstMatch(insts, org).value]
  {
    found := None;
    var i := 0;
    while i < |insts|
      invariant 0 <= i <= |insts|
      invariant found.None?
      invariant forall k :: 0 <= k < i ==> !LoginMatches(insts[k], org)
    {
      if LoginMatches(insts[i], org) {
        found := Some(insts[i]);
        ghost var m := FirstMatch(insts, org);
        assert m.Some? && m.value == i;
        return;
      }
      i := i + 1;
    }
  }

  function NoInstallationMessage(org: string): string {
    "No installation found for organization: " + org
  }

  /**
   * `_get_installation_token_sync`: the token issued for the first matching
   * installation. `exchanged` lists the installation ids sent to the token
   * exchange, in order: when nothing matches, no exchange is attempted.
   */
  method GetInstallationTokenSync(f: Factory) returns (r: Result<string, string>, exchanged: seq<int>)
    ensures FirstMatch(f.api.installations, f.config.org).None? ==>
      r == Failure(NoInstallationMessage(f.config.org)) && exchanged == []
    ensures FirstMatch(f.api.installations, f.config.org).Some? ==>
      var inst := f.api.installations[FirstMatch(f.api.installations, f.config.org).value];
      r == Success(f.api.accessToken(inst.id)) && exchanged == [inst.id]
  {
    var installation := FindInstallation(f.api.installations, f.config.org);
    if installation.None? {
      return Failure(NoInstallationMessage(f.config.org)), [];
    }
    var token := f.api.accessToken(installation.value.id);
    return Success(token), [installation.value.id];
  }

  /** `_get_installation_token`: the asynchronous entry point delegates to the synchronous one. */
  method GetInstallationToken(f: Factory) returns (r: Result<string, string>, exchanged: seq<int>)
    ensures FirstMatch(f.api.installations, f.config.org).None? ==>
      r == Failure(NoInstallationMessage(f.config.org)) && exchanged == []
    ensures FirstMatch(f.api.installations, f.config.org).Some? ==>
      var inst := f.api.installations[FirstMatch(f.api.installations, f.config.org).value];
      r == Success(f.api.accessToken(inst.id)) && exchanged == [inst.id]
  {
    r, exchanged := GetInstallationTokenSync(f);
  }

  /** The client the factory issues, if the App is installed on the organisation. */
  function IssuedClient(f: Factory): Option<Client> {
    match FirstMatch(f.api.installations, f.config.org)
    case None => None
    case Some(k) => Some(Client(f.api.accessToken(f.api.installations[k].id)))
  }

  /** `get_app_authenticated_client_sync`: a client carrying the installation token. */
  method GetAppAuthenticatedClientSync(f: Factory) returns (r: Result<Client, string>, exchanged: seq<int>)
    ensures r.Success? <==> FirstMatch(f.api.installations, f.config.org).Some?
    ensures r.Success? ==>
      var inst := f.api.installations[FirstMatch(f.api.installations, f.config.org).value];
      r.value == Client(f.api.accessToken(inst.id)) && exchanged == [inst.id]
    ensures r.Failure? ==> r.error == NoInstallationMessage(f.config.org) && exchanged == []
  {
    var token;
    token, exchanged := GetInstallationTokenSync(f);
    if token.Failure? {
      return Failure(token.error), exchanged;
    }
    return Success(Client(token.value)), exchanged;
  }

  /** An organisation named with different letter case still finds its installation. */
  lemma MatchIgnoresCase()
    ensures FirstMatch([Installation(7, "acme")], "Acme") == Some(0)
  {
    assert Text.Lower("acme") == "acme";
    assert Text.Lower("Acme") == "acme";
  }

  /** An installation listed after the first match is never selected. */
  lemma {:induction false} FirstMatchIgnoresLaterMatches(insts: seq<Installation>, more: seq<Installation>, org: string)
    requires FirstMatch(insts, org).Some?
    ensures FirstMatch(insts + more, org) == FirstMatch(insts, org)
  {
    assert (insts + more)[0] == insts[0];
    if !LoginMatches(insts[0], org) {
      assert (insts + more)[1..] == insts[1..] + more;
      FirstMatchIgnoresLaterMatches(insts[1..], more, org);
    }
  }

  /** The lifetime, in seconds, of the App's JWT when no other is asked for. */
  const DefaultJwtLifetime: int := 600

  /** The registered claims of the App's JWT (section 4.1 of RFC 7519). */
  datatype JwtClaims = JwtClaims(iat: int, exp: int, iss: string)

  /** `_encode_jwt_token`'s payload, for the clock reading `now` in whole seconds. */
  function JwtPayload(config: AppConfiguration, now: int, expirationSeconds: int): (c: JwtClaims)
    ensures c.iat == now && c.exp - c.iat == expirationSeconds
    ensures c.iss == config.appId
  {
    JwtClaims(now, now + expirationSeconds, config.appId)
  }

  /** A JWT must not be accepted at or after its `exp` time (section 4.1.4 of RFC 7519). */
  predicate Expired(c: JwtClaims, t: int) {
    t >= c.exp
  }

  /** With the default lifetime the token expires exactly 600 seconds after it is issued. */
  lemma DefaultJwtExpiresAfterTenMinutes(config: AppConfiguration, now: int, t: int)
    ensures Expired(JwtPayload(config, now, DefaultJwtLifetime), t) <==> t >= now + 600
    ensures !Expired(JwtPayload(config, now, DefaultJwtLifetime), now)
  {
  }
}
