/** The `Guard` class (packages/guard-core-v6/src/index.tsx): its state is the
    adapted options, the widget's visibility and the listener registry; the
    settled public config and the page's `localStorage` are shared with it.
    Every call into the authentication client, the network and the page is
    an input of the method that makes it. */
module GuardSdk {
  import opened Wrappers
  import opened JsValues
  import opened GuardOptions
  import opened ClientConfig
  import opened TokenCache
  import opened UrlQuery
  import opened Events
  import opened Session
  import opened Logout

  /** `StartWithRedirectOptions`: every field optional. */
  datatype RedirectOptions = RedirectOptions(
    codeChallengeMethod: Option<string>,
    scope: Option<string>,
    state: Option<string>,
    nonce: Option<string>,
    responseMode: Option<string>,
    responseType: Option<string>)

  const DefaultChallengeMethod := "S256"
  const DefaultScope := "openid profile email phone address"
  const DefaultResponseMode := "query"
  const DefaultResponseType := "code"

  /** The argument of `authClient.buildAuthorizeUrl(...)`. */
  datatype AuthorizeRequest = AuthorizeRequest(
    codeChallenge: string,
    codeChallengeMethod: string,
    scope: string,
    redirectUri: Option<string>,
    state: string,
    nonce: string,
    responseMode: string,
    responseType: string)

  /** The `{ access_token, id_token }` of a successful code exchange; a token
      the provider did not return is `undefined` (`None`), as the id token is
      when the requested scope leaves out `openid`. */
  datatype TokenResponse = TokenResponse(accessToken: Option<string>, idToken: Option<string>)

  class Guard {
    var options: Options
    var visible: bool
    var listeners: Registry
    /** The settled outcome of the memoised `init` promise that `then()` exposes. */
    const publicConfig: ConfigOutcome
    const store: LocalStorage
    /** `Object.values(GuardEventsCamelToKebabMapping)`. */
    const eventNames: seq<string>

    /** Every mapped event name, and no other, has a listener list. */
    ghost predicate Valid()
      reads this`listeners
    {
      forall n :: n in listeners <==> n in eventNames
    }

    /** The constructor after its `appId` check (see `NewGuard`): options
        adapted, one empty listener list per event, visible iff modal. */
    constructor (options: Options, publicConfig: ConfigOutcome, store: LocalStorage, eventNames: seq<string>)
      requires Truthy(options.appId)
      ensures Valid()
      ensures Adapted(options, BaseConfig(options), this.options)
      ensures visible <==> options.mode == Some(Modal)
      ensures listeners == EmptyRegistry(eventNames)
      ensures forall n :: n in listeners ==> listeners[n] == []
      ensures this.publicConfig == publicConfig && this.store == store && this.eventNames == eventNames
    {
      var adapted := AdaptOptions(options, BaseConfig(options));
      this.options := adapted;
      this.publicConfig := publicConfig;
      this.store := store;
      this.eventNames := eventNames;
      this.listeners := EmptyRegistry(eventNames);
      this.visible := InitiallyVisible(options);
    }

    /** `show()`, without the re-render. */
    method Show()
      requires Valid()
      modifies this`visible
      ensures Valid() && visible
    {
      visible := true;
    }

    /** `hide()`, without the re-render. */
    method Hide()
      requires Valid()
      modifies this`visible
      ensures Valid() && !visible
    {
      visible := false;
    }

    /** `on(evt, handler)`. */
    method On(evt: string, handler: HandlerId) returns (r: Result<(), Error>)
      requires Valid()
      modifies this`listeners
      ensures Valid()
      ensures r.Failure? <==> evt !in old(listeners)
      ensures r.Failure? ==> r.error == UnknownEvent(evt) && listeners == old(listeners)
      ensures r.Success? ==> listeners == Register(old(listeners), evt, handler).value
    {
      if evt in listeners {
        listeners := listeners[evt := listeners[evt] + [handler]];
        r := Success(());
      } else {
        r := Failure(UnknownEvent(evt));
      }
    }

    /** The bridged handler `_render` builds for `evt`: a `close` event hides
        the widget first; then every listener of `evt` is called in
        registration order and the last result (or `true`) is returned. */
    method Bridge(evt: string, invoke: HandlerId -> Option<Value>) returns (results: seq<Option<Value>>, value: Value)
      requires Valid() && evt in eventNames
      modifies this`visible
      ensures Valid()
      ensures visible == (if evt == CloseEvent then false else old(visible))
      ensures results == Results(listeners[evt], invoke)
      ensures value == BridgeResult(listeners[evt], invoke)
    {
      if evt == CloseEvent {
        Hide();
      }
      results := Results(listeners[evt], invoke);
      value := LastOrTrue(results);
    }

    /** `setTokenCache(accessToken, idToken)`. */
    method SetTokenCache(accessToken: string, idToken: string)
      modifies store
      ensures store.items == WithTokens(old(store.items), accessToken, idToken)
    {
      store.SetItem(AccessTokenKey, accessToken);
      store.SetItem(IdTokenKey, idToken);
    }

    /** `clearTokenCache()`. */
    method ClearTokenCache()
      modifies store
      ensures store.items == WithoutTokens(old(store.items))
    {
      store.RemoveItem(AccessTokenKey);
      store.RemoveItem(IdTokenKey);
    }

    /** `clearLoginCache()`: builds the client first, so a rejected public
        config rejects before anything is removed. */
    method ClearLoginCache() returns (r: Result<(), Error>)
      modifies store
      ensures publicConfig.Failure? ==>
        r == Failure(ConfigRejectedWrapped(publicConfig.error)) && store.items == old(store.items)
      ensures publicConfig.Success? ==> r.Success? && store.items == WithoutLoginCache(old(store.items))
    {
      var client := GetAuthClient(options, publicConfig);
      match client
      case Failure(e) =>
        r := Failure(e);
      case Success(_) =>
        store.RemoveItem(CodeChallengeKey);
        ClearTokenCache();
        r := Success(());
    }

    /** `getCodeAndCodeChallenge()`: the `code` of the callback URL (`''` when
        absent) and the stored verifier (`''` when absent). */
    method GetCodeAndCodeChallenge(loc: Location) returns (code: string, verifier: string)
      ensures code == CodeOf(QueryOf(Items(loc)))
      ensures verifier == VerifierOf(store.items)
    {
      var query := ParseUrlQuery(loc);
      code := CodeOf(query);
      verifier := VerifierOf(store.items);
    }

    /** `startWithRedirect(opts)` up to the navigation, which is returned as
        the request handed to `buildAuthorizeUrl`. `verifier` is what
        `generateCodeChallenge()` returns and `digest` stands for
        `getCodeChallengeDigest`; the random `state`/`nonce` are inputs. The
        verifier is stored before the URL is built. */
    method StartWithRedirect(opts: RedirectOptions, randomState: string, randomNonce: string,
                             verifier: string, digest: (string, string) -> string)
      returns (r: Result<AuthorizeRequest, Error>)
      modifies store
      ensures publicConfig.Failure? ==>
        r == Failure(ConfigRejectedWrapped(publicConfig.error)) && store.items == old(store.items)
      ensures publicConfig.Success? ==>
        && store.items == old(store.items)[CodeChallengeKey := verifier]
        && r.Success?
        && var challengeMethod := opts.codeChallengeMethod.GetOr(DefaultChallengeMethod);
        && r.value.codeChallenge == digest(verifier, challengeMethod)
        && r.value.codeChallengeMethod == challengeMethod
        && r.value.scope == opts.scope.GetOr(DefaultScope)
        && r.value.redirectUri == RedirectUri(options.redirectUri, publicConfig.value)
        && r.value.state == opts.state.GetOr(randomState)
        && r.value.nonce == opts.nonce.GetOr(randomNonce)
        && r.value.responseMode == opts.responseMode.GetOr(DefaultResponseMode)
        && r.value.responseType == opts.responseType.GetOr(DefaultResponseType)
    {
      var challengeMethod := opts.codeChallengeMethod.GetOr(DefaultChallengeMethod);
      var scope := opts.scope.GetOr(DefaultScope);
      var state := opts.state.GetOr(randomState);
      var nonce := opts.nonce.GetOr(randomNonce);
      var responseMode := opts.responseMode.GetOr(DefaultResponseMode);
      var responseType := opts.responseType.GetOr(DefaultResponseType);
      var client := GetAuthClient(options, publicConfig);
      if client.Failure? {
        r := Failure(client.error);
        return;
      }
      store.SetItem(CodeChallengeKey, verifier);
      var challenge := digest(verifier, challengeMethod);
      // `await this.then()` again: the same promise, already resolved.
      var config := publicConfig.value;
      r := Success(AuthorizeRequest(challenge, challengeMethod, scope, RedirectUri(options.redirectUri, config),
                                    state, nonce, responseMode, responseType));
    }

    /** `handleRedirectCallback()`. `exchange` stands for the client's
        `getAccessTokenByCode(code, { codeVerifier })`. The code and verifier
        are read before the client is built; on success exactly the returned
        tokens are stored. */
    method HandleRedirectCallback(loc: Location, exchange: (string, string) -> Result<TokenResponse, string>)
      returns (r: Result<TokenResponse, Error>)
      modifies store
      ensures var tokens := exchange(CodeOf(QueryOf(Items(loc))), VerifierOf(old(store.items)));
        && (publicConfig.Failure? ==>
              r == Failure(ConfigRejectedWrapped(publicConfig.error)) && store.items == old(store.items))
        && (publicConfig.Success? && tokens.Failure? ==>
              r == Failure(ExchangeFailed(tokens.error)) && store.items == old(store.items))
        && (publicConfig.Success? && tokens.Success? ==>
              r == Success(tokens.value)
              && store.items == WithTokens(old(store.items), StoredString(tokens.value.accessToken),
                                           StoredString(tokens.value.idToken)))
    {
      var code, verifier := GetCodeAndCodeChallenge(loc);
      var client := GetAuthClient(options, publicConfig);
      if client.Failure? {
        r := Failure(client.error);
        return;
      }
      var tokens := exchange(code, verifier);
      match tokens
      case Failure(e) =>
        r := Failure(ExchangeFailed(e));
      case Success(t) =>
        SetTokenCache(StoredString(t.accessToken), StoredString(t.idToken));
        r := Success(t);
    }

    /** `trackSession()`, with the client's in-memory user, its token
        provider's token and the `users/me` outcome as inputs. */
    method TrackSession(currentUser: Option<User>, providerToken: Option<string>,
                        response: Option<WhoAmIResponse>) returns (r: SessionCheck)
      ensures r == Session.TrackSession(options, publicConfig, currentUser, providerToken, store.items, response)
      ensures r.result.Failure? <==> publicConfig.Failure?
    {
      r := Session.TrackSession(options, publicConfig, currentUser, providerToken, store.items, response);
    }

    /** `logout(params)`. `origin` is `window.location.origin`, `remoteThrows`
        says whether the chosen remote logout throws, `providerToken` is the
        token provider's token. The public config is awaited outside any
        `try`, so its rejection rejects `logout`; past that point the login
        cache is always cleared before the navigation is returned. */
    method Logout(params: LogoutParams, origin: string, remoteThrows: bool, providerToken: Option<string>)
      returns (r: Result<LogoutOutcome, Error>)
      modifies store
      ensures publicConfig.Failure? ==>
        r == Failure(ConfigRejected(publicConfig.error)) && store.items == old(store.items)
      ensures publicConfig.Success? ==>
        && r.Success?
        && r.value.remote == RemoteCall(params)
        && r.value.navigation == FinalNavigation(
             LogoutRedirect(params.redirectUri, publicConfig.value.logoutRedirectUris, origin),
             remoteThrows, providerToken, old(store.items))
        && store.items == WithoutLoginCache(old(store.items))
    {
      var logoutRedirectUri := "";
      if publicConfig.Failure? {
        r := Failure(ConfigRejected(publicConfig.error));
        return;
      }
      logoutRedirectUri := LogoutRedirect(params.redirectUri, publicConfig.value.logoutRedirectUris, origin);
      var navigation := Plain(logoutRedirectUri);
      var remote := RemoteCall(params);
      if remoteThrows {
        var idToken := FallbackIdToken(providerToken, store.items);
        if Truthy(idToken) {
          navigation := ExpertLogoutUrl(logoutRedirectUri, idToken.value);
        }
      }
      // `finally`: the cache is cleared whichever way the remote call went.
      var cleared := ClearLoginCache();
      match cleared
      case Failure(e) =>
        r := Failure(e);
      case Success(_) =>
        r := Success(LogoutOutcome(remote, navigation));
    }
  }

  /** `new Guard(options)`: a falsy `appId` throws before anything is built. */
  method NewGuard(options: Options, publicConfig: ConfigOutcome, store: LocalStorage, eventNames: seq<string>)
    returns (r: Result<Guard, Error>)
    ensures r.Failure? <==> !Truthy(options.appId)
    ensures r.Failure? ==> r.error == AppIdRequired
    ensures r.Success? ==>
      && fresh(r.value)
      && r.value.Valid()
      && Adapted(options, BaseConfig(options), r.value.options)
      && (r.value.visible <==> options.mode == Some(Modal))
      && r.value.listeners == EmptyRegistry(eventNames)
      && r.value.publicConfig == publicConfig && r.value.store == store
  {
    match CheckAppId(options)
    case Failure(e) =>
      r := Failure(e);
    case Success(checked) =>
      var g := new Guard(checked, publicConfig, store, eventNames);
      r := Success(g);
  }

  /** The redirect flow across the navigation: the callback hands the code
      exchange exactly the verifier `startWithRedirect` stored, and on success
      ends with the returned tokens stored next to it. */
  method RedirectRoundTrip(g: Guard, opts: RedirectOptions, randomState: string, randomNonce: string,
                           verifier: string, digest: (string, string) -> string,
                           callback: Location, exchange: (string, string) -> Result<TokenResponse, string>)
    returns (started: Result<AuthorizeRequest, Error>, finished: Result<TokenResponse, Error>)
    requires g.publicConfig.Success?
    modifies g.store
    ensures started.Success? && started.value.codeChallenge == digest(verifier, started.value.codeChallengeMethod)
    ensures var tokens := exchange(CodeOf(QueryOf(Items(callback))), verifier);
      && (tokens.Failure? ==>
            && finished == Failure(ExchangeFailed(tokens.error))
            && g.store.items == old(g.store.items)[CodeChallengeKey := verifier])
      && (tokens.Success? ==>
            && finished == Success(tokens.value)
            && g.store.items == WithTokens(old(g.store.items)[CodeChallengeKey := verifier],
                                           StoredString(tokens.value.accessToken),
                                           StoredString(tokens.value.idToken)))
  {
    started := g.StartWithRedirect(opts, randomState, randomNonce, verifier, digest);
    VerifierRoundTrip(old(g.store.items), verifier);
    finished := g.HandleRedirectCallback(callback, exchange);
  }
}
