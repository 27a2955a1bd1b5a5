/** The tenant's public configuration and the two decisions made from it
    before an authentication client is built: which host requests go to
    (`getRequestHost`) and the client's construction options
    (`getAuthClient`). */
module ClientConfig {
  import opened Wrappers
  import opened JsValues
  import opened GuardOptions

  /** `publicConfig.oidcConfig`. */
  datatype OidcConfig = OidcConfig(
    redirectUris: seq<string>,
    tokenEndpointAuthMethod: Option<string>,
    introspectionEndpointAuthMethod: Option<string>)

  /** The `data` of `GET {host}/api/v2/applications/{appId}/public-config`,
      restricted to the fields the core reads. */
  datatype PublicConfig = PublicConfig(
    oidcConfig: OidcConfig,
    userPoolId: string,
    logoutRedirectUris: Option<seq<string>>,
    requestHostname: Option<string>)

  /** The settled outcome of the one shared public-config promise: every
      consumer awaits the same promise, so every consumer sees this same value
      (or the same rejection reason). */
  type ConfigOutcome = Result<PublicConfig, string>

  const DefaultHost := "https://core.authing.cn"

  /** `getRequestHost()`. An explicit `options.host` wins without waiting for
      the public config; otherwise the public config's `requestHostname`
      behind `https://`; otherwise the public default host. */
  function RequestHost(host: Option<string>, pc: ConfigOutcome): (r: Result<string, Error>)
    ensures Truthy(host) ==> r == Success(host.value)
    ensures !Truthy(host) && pc.Failure? ==> r == Failure(ConfigRejected(pc.error))
    ensures !Truthy(host) && pc.Success? && Truthy(pc.value.requestHostname) ==>
      r == Success("https://" + pc.value.requestHostname.value)
    ensures !Truthy(host) && pc.Success? && !Truthy(pc.value.requestHostname) ==>
      r == Success(DefaultHost)
  {
    if Truthy(host) then Success(host.value)
    else if pc.Failure? then Failure(ConfigRejected(pc.error))
    else if Truthy(pc.value.requestHostname) then Success("https://" + pc.value.requestHostname.value)
    else Success(DefaultHost)
  }

  /** The request host is never empty once it is resolved, and it is the
      caller's explicit host or an `https://` URL. */
  lemma RequestHostShape(host: Option<string>, pc: ConfigOutcome)
    requires RequestHost(host, pc).Success?
    ensures var h := RequestHost(host, pc).value;
      h != "" && (h == OrDefault(host, "") || (|h| >= 8 && h[..8] == "https://"))
  {
    var h := RequestHost(host, pc).value;
    if !Truthy(host) {
      if Truthy(pc.value.requestHostname) {
        assert h == "https://" + pc.value.requestHostname.value;
        assert h[..8] == "https://";
      } else {
        assert h == DefaultHost;
        assert h[..8] == "https://";
      }
    }
  }

  /** `new AuthenticationClient(...)`'s argument as `getAuthClient` assembles it. */
  datatype ClientOptions = ClientOptions(
    appId: Option<string>,
    appHost: string,
    tenantId: Option<string>,
    redirectUri: Option<string>,
    tokenEndPointAuthMethod: string,
    introspectionEndPointAuthMethod: string)

  /** `options.redirectUri || publicConfig.oidcConfig.redirect_uris[0]`
      (`undefined` when the list is empty). */
  function RedirectUri(explicit: Option<string>, pc: PublicConfig): (r: Option<string>)
    ensures Truthy(explicit) ==> r == explicit
    ensures !Truthy(explicit) ==> r == Nth(pc.oidcConfig.redirectUris, 0)
  {
    OrElse(explicit, Nth(pc.oidcConfig.redirectUris, 0))
  }

  /** The endpoint auth method a client is given when none is configured. */
  const DefaultAuthMethod := "none"

  /** `getAuthClient()`: a rejected public config is re-thrown wrapped;
      otherwise the client is configured with the resolved host, the explicit
      or first registered redirect URI, and both endpoint auth methods
      defaulting to `"none"`. */
  function GetAuthClient(options: Options, pc: ConfigOutcome): (r: Result<ClientOptions, Error>)
    ensures pc.Failure? <==> r.Failure?
    ensures pc.Failure? ==> r.error == ConfigRejectedWrapped(pc.error)
    ensures pc.Success? ==>
      && r.value.appId == options.appId
      && r.value.tenantId == options.tenantId
      && Success(r.value.appHost) == RequestHost(options.host, pc)
      && r.value.redirectUri == RedirectUri(options.redirectUri, pc.value)
      && r.value.tokenEndPointAuthMethod == OrDefault(pc.value.oidcConfig.tokenEndpointAuthMethod, DefaultAuthMethod)
      && r.value.introspectionEndPointAuthMethod == OrDefault(pc.value.oidcConfig.introspectionEndpointAuthMethod, DefaultAuthMethod)
  {
    match pc
    case Failure(e) => Failure(ConfigRejectedWrapped(e))
    case Success(config) =>
      var host := RequestHost(options.host, pc);
      Success(ClientOptions(
        options.appId,
        host.value,
        options.tenantId,
        RedirectUri(options.redirectUri, config),
        OrDefault(config.oidcConfig.tokenEndpointAuthMethod, DefaultAuthMethod),
        OrDefault(config.oidcConfig.introspectionEndpointAuthMethod, DefaultAuthMethod)))
  }
}
