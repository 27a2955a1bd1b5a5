/** The pure decisions of `logout` (packages/guard-core-v6/src/index.tsx,
    logout): where to go afterwards, and the fallback taken when the remote
    logout throws. */
module Logout {
  import opened Wrappers
  import opened JsValues
  import opened TokenCache

  datatype LogoutParams = LogoutParams(redirectUri: Option<string>, quitCurrentDevice: bool)

  /** Which remote logout the client is asked for. */
  datatype RemoteLogout = LogoutCurrentDevice | LogoutAllDevices

  /** Where the page is sent: a plain URL, or the expert-mode logout URL the
      client builds (`buildLogoutUrl({ expert: true, redirectUri, idToken })`). */
  datatype Navigation = Plain(url: string) | ExpertLogoutUrl(redirectUri: string, idToken: string)

  datatype LogoutOutcome = LogoutOutcome(remote: RemoteLogout, navigation: Navigation)

  /** The `try` block choosing the post-logout target: the caller's URI if it
      is allow-listed, else the first allow-listed URI if truthy, else the
      page origin. An allow-list that is `undefined` throws inside the `try`,
      which also falls back to the origin. */
  function LogoutRedirect(redirectUri: Option<string>, allowList: Option<seq<string>>, origin: string): (r: string)
    ensures r == origin || (allowList.Some? && r in allowList.value)
    ensures allowList.None? ==> r == origin
    ensures allowList.Some? && Truthy(redirectUri) && redirectUri.value in allowList.value ==> r == redirectUri.value
    ensures allowList.Some? && !(Truthy(redirectUri) && redirectUri.value in allowList.value) ==>
      r == (if |allowList.value| > 0 && allowList.value[0] != "" then allowList.value[0] else origin)
  {
    match allowList
    case None => origin
    case Some(uris) =>
      if Truthy(redirectUri) && redirectUri.value in uris then redirectUri.value
      else if |uris| > 0 && uris[0] != "" then uris[0]
      else origin
  }

  /** A caller-supplied URI that is not allow-listed is never used. */
  lemma UnlistedRedirectIgnored(redirectUri: string, allowList: Option<seq<string>>, origin: string)
    requires allowList.None? || redirectUri !in allowList.value
    requires redirectUri != origin
    ensures LogoutRedirect(Some(redirectUri), allowList, origin) != redirectUri
  {
  }

  /** `quitCurrentDevice ? logoutCurrent() : logout()`. */
  function RemoteCall(params: LogoutParams): (r: RemoteLogout)
    ensures r == LogoutCurrentDevice <==> params.quitCurrentDevice
  {
    if params.quitCurrentDevice then LogoutCurrentDevice else LogoutAllDevices
  }

  /** The `catch` branch's token: `tokenProvider.getToken() || localStorage.getItem('idToken')`. */
  function FallbackIdToken(providerToken: Option<string>, storage: Storage): (t: Option<string>)
    ensures Truthy(t) <==> Truthy(providerToken) || Truthy(GetItem(storage, IdTokenKey))
    ensures Truthy(providerToken) ==> t == providerToken
    ensures !Truthy(providerToken) ==> t == GetItem(storage, IdTokenKey)
  {
    OrElse(providerToken, GetItem(storage, IdTokenKey))
  }

  /** After a code exchange that returned no id token, the stored
      `"undefined"` is the fallback token of a failed remote logout. */
  lemma MissingIdTokenUsedByFallback(storage: Storage, accessToken: string)
    ensures FallbackIdToken(None, WithTokens(storage, accessToken, StoredString(None))) == Some("undefined")
  {
  }

  /** The final navigation. Without a remote failure, or without an id token
      to fall back on, the chosen target; otherwise the expert logout URL
      wrapping the chosen target and that token. */
  function FinalNavigation(target: string, remoteThrows: bool, providerToken: Option<string>,
                           storage: Storage): (n: Navigation)
    ensures n.Plain? ==> n.url == target
    ensures n.ExpertLogoutUrl? ==> n.redirectUri == target
    ensures n.ExpertLogoutUrl? <==> remoteThrows && Truthy(FallbackIdToken(providerToken, storage))
    ensures n.ExpertLogoutUrl? ==> n.idToken == FallbackIdToken(providerToken, storage).value
  {
    var idToken := FallbackIdToken(providerToken, storage);
    if remoteThrows && Truthy(idToken) then ExpertLogoutUrl(target, idToken.value) else Plain(target)
  }

  /** Wherever logout ends up, the page lands on the origin or on an
      allow-listed URI, directly or through the expert logout URL. */
  lemma LogoutLandsOnAllowedTarget(params: LogoutParams, allowList: Option<seq<string>>, origin: string,
                                   remoteThrows: bool, providerToken: Option<string>, storage: Storage)
    ensures var n := FinalNavigation(LogoutRedirect(params.redirectUri, allowList, origin),
                                     remoteThrows, providerToken, storage);
      var landing := if n.Plain? then n.url else n.redirectUri;
      landing == origin || (allowList.Some? && landing in allowList.value)
  {
  }
}
