# Guard core: a Dafny model

This project models the `Guard` class of the Authing Guard login SDK
(`packages/guard-core-v6/src/index.tsx`). Guard runs the OpenID Connect
Authorization Code flow with PKCE (RFC 7636), either by redirecting the page
or through an embedded widget. With the network, the DOM and the navigation
removed, what remains is a set of deterministic rules, and the model states
and proves each of them:

- construction: a falsy `appId` is refused; `adaptOptions` normalises `host`
  and copies top-level options and legacy config aliases into `config`;
  `visible` starts true exactly in modal mode (`GuardOptions`, `GuardSdk`);
- the request host and the authentication-client options: three-way host
  priority, redirect-URI fallback, `"none"` auth-method defaults
  (`ClientConfig`);
- the callback query string parsed into a flat dictionary (`UrlQuery`, on top
  of a model of `String.prototype.split` in `JsStrings`);
- `localStorage` and the keys `accessToken`, `idToken` and `codeChallenge`
  (the last holds the PKCE verifier) (`TokenCache`);
- the PKCE verifier stored by `startWithRedirect` and read back by
  `handleRedirectCallback`, and the tokens stored afterwards (`GuardSdk`);
- the event-listener registry and the bridged handlers that call the
  listeners (`Events`, `GuardSdk.Guard.Bridge`);
- the decisions of `logout` (`Logout`) and of `trackSession` (`Session`).

The `Guard` class (`GuardSdk.Guard`) keeps the source's mutable state in
fields: the adapted options, `visible` and the listener registry. The
page's `localStorage` is a separate `TokenCache.LocalStorage` object shared
with the Guard. The memoised public-config promise is a constant field
holding its settled outcome, `Result<PublicConfig, string>`. Every consumer
awaits the same promise, so every consumer sees that same value or that same
rejection. Each result of the authentication client, the network or the page
is a parameter of the method that uses it:

- the generated verifier and the digest function;
- the code exchange;
- whether the remote logout throws;
- the token provider's token and the client's in-memory user;
- the parsed `users/me` response;
- `window.location`;
- the random `state` and `nonce`.

Four behaviours of the code that a reader might not expect:

- `trackSession` builds the client before its `try` (line 444), and it awaits
  the public config outside the `try` too (line 461). A rejected public config
  therefore makes `trackSession` reject instead of returning `null`
  (`Session.RejectedConfigRejects`).
- `logout` awaits the public config outside its `try` (line 498). A rejected
  public config rejects `logout` before any cleanup. Only an exception while
  choosing the target (lines 502-505) falls back to the origin.
- `parseUrlQuery` uses the hash only when reading `location.search` throws
  (lines 422-426). An absent or empty query gives the empty dictionary.
- `clearTokenCache` removes only the two tokens. The PKCE verifier is removed
  only by `clearLoginCache` (`TokenCache.ClearTokensKeepsVerifier`).

## Model

| member | source | states |
|---|---|---|
| `JsValues.OrDefault` | packages/guard-core-v6/src/index.tsx:175-178 | JavaScript's or-default on an optional string: the string when it is truthy, otherwise the default; it gives both endpoint auth methods their `"none"` default, and it also models `options.host` defaulting to `''` (line 65) and the `''` fallbacks of lines 392 and 455 |
| `JsStrings.JoinSplit` | packages/guard-core-v6/src/index.tsx:432-433 | no piece of `split(sep)` contains the separator, and joining the pieces with it gives back the string |
| `JsStrings.SplitJoin` | packages/guard-core-v6/src/index.tsx:432-433 | splitting a join of separator-free pieces gives back exactly those pieces |
| `JsStrings.FirstPieceIsPrefix` | packages/guard-core-v6/src/index.tsx:433 | the first piece is the text before the first separator, or the whole string |
| `UrlQuery.QueryString` | packages/guard-core-v6/src/index.tsx:420-426 | the query string is the text of `search` between the first and the second `?` (to the end when there is no second one); the hash after `#` is used only when `search` cannot be read |
| `UrlQuery.ParseUrlQuery` | packages/guard-core-v6/src/index.tsx:417-438 | the empty map when there is no query string; otherwise the keys are exactly the items' keys other than `__proto__` (which the object literal does not store), and each maps to the value of its last item |
| `UrlQuery.QueryOfKeys` | packages/guard-core-v6/src/index.tsx:418-435 | the dictionary filled by the loop holds a key exactly when some item has that key and it is not `__proto__` |
| `UrlQuery.QueryOfLastWins` | packages/guard-core-v6/src/index.tsx:432-435 | a later item with the same key overwrites an earlier one, for every key other than `__proto__` |
| `UrlQuery.KeyBeforeFirstEquals` | packages/guard-core-v6/src/index.tsx:433 | a key is the text before the item's first `=` and contains no `=` |
| `UrlQuery.ItemRoundTrip` | packages/guard-core-v6/src/index.tsx:433-434 | the item `key=value` with `=`-free halves parses back into that key and value |
| `UrlQuery.ItemWithoutEquals` | packages/guard-core-v6/src/index.tsx:433-434 | an item without `=` maps its whole text to `undefined` |
| `UrlQuery.NoQuestionMarkNoQuery` | packages/guard-core-v6/src/index.tsx:423-430 | a search string without `?`, such as the empty one, gives no items |
| `UrlQuery.SearchItems` | packages/guard-core-v6/src/index.tsx:423-432 | for the search string `?rest` with no further `?`, the items are the `&`-pieces of `rest`, and there are none when `rest` is empty |
| `UrlQuery.CallbackCode` | packages/guard-core-v6/src/index.tsx:389-391 | the callback URL `?code=C` yields exactly the code `C` |
| `UrlQuery.CodeOf` | packages/guard-core-v6/src/index.tsx:391 | the `code` entry when it is defined, otherwise `''` |
| `TokenCache.StoredString` | packages/guard-core-v6/src/index.tsx:401-402 | `setItem` stores a string as it is and `undefined` as the text `"undefined"` |
| `TokenCache.GetItem` | packages/guard-core-v6/src/index.tsx:392 | `getItem` gives the stored value exactly when the key is present, `null` otherwise |
| `TokenCache.WithTokens` | packages/guard-core-v6/src/index.tsx:400-403 | `accessToken` and `idToken` hold the given tokens and every other key is unchanged |
| `TokenCache.WithoutTokens` | packages/guard-core-v6/src/index.tsx:405-408 | both token keys are absent and every other key is unchanged |
| `TokenCache.WithoutLoginCache` | packages/guard-core-v6/src/index.tsx:410-415 | the verifier and both tokens are absent and every other key is unchanged |
| `TokenCache.ClearTokensIdempotent` | packages/guard-core-v6/src/index.tsx:405-408 | clearing the tokens twice leaves the same storage as clearing them once |
| `TokenCache.ClearLoginCacheIdempotent` | packages/guard-core-v6/src/index.tsx:410-415 | clearing the login cache is idempotent and includes clearing the tokens |
| `TokenCache.ClearUndoesSet` | packages/guard-core-v6/src/index.tsx:400-408 | clearing the tokens after storing them leaves no trace of what was stored |
| `TokenCache.VerifierOf` | packages/guard-core-v6/src/index.tsx:392 | the stored verifier, or `''` when none is stored |
| `TokenCache.VerifierRoundTrip` | packages/guard-core-v6/src/index.tsx:338 | a verifier stored under `codeChallenge` is the one read back |
| `TokenCache.WithTokensKeepsVerifier` | packages/guard-core-v6/src/index.tsx:400-403 | storing the tokens leaves the verifier as it was |
| `TokenCache.ClearTokensKeepsVerifier` | packages/guard-core-v6/src/index.tsx:405-415 | `clearTokenCache` keeps the verifier; `clearLoginCache` forgets it |
| `TokenCache.LocalStorage.SetItem` | packages/guard-core-v6/src/index.tsx:401 | `setItem` stores the value under the key and changes nothing else |
| `TokenCache.LocalStorage.RemoveItem` | packages/guard-core-v6/src/index.tsx:406 | `removeItem` removes the key and changes nothing else |
| `GuardOptions.CheckAppId` | packages/guard-core-v6/src/index.tsx:39-41 | construction fails, with "appId is required", exactly when `appId` is falsy |
| `GuardOptions.CopyTopLevel` | packages/guard-core-v6/src/index.tsx:65-87 | `config.host` always carries the normalised host; `isSSO`, `defaultScene` (as `defaultScenes`), `lang` and `mode` are copied only when defined; no other key changes |
| `GuardOptions.CopyLegacyAliases` | packages/guard-core-v6/src/index.tsx:91-118 | each of the six legacy aliases is copied to its current key only when defined; no other key changes |
| `GuardOptions.AliasesCopiedThrough` | packages/guard-core-v6/src/index.tsx:89-118 | the aliases read back after the top-level copies are the caller's own aliases |
| `GuardOptions.AdaptOptions` | packages/guard-core-v6/src/index.tsx:64-121 | the adapted options have a normalised host and a config with every copy above; every key `adaptOptions` does not write is as the caller gave it |
| `GuardOptions.AdaptedUnshadowed` | packages/guard-core-v6/src/index.tsx:64-121 | `adaptOptions` writes only named fields, so a config in which no other key spells a named field's name stays that way |
| `GuardOptions.InitiallyVisible` | packages/guard-core-v6/src/index.tsx:61 | the widget starts visible exactly in modal mode |
| `ClientConfig.RequestHost` | packages/guard-core-v6/src/index.tsx:143-154 | an explicit host wins without waiting for the public config; then `https://` + `requestHostname`; then the default host; a rejected public config propagates |
| `ClientConfig.RequestHostShape` | packages/guard-core-v6/src/index.tsx:143-154 | a resolved request host is never empty and is the caller's host or an `https://` URL |
| `ClientConfig.RedirectUri` | packages/guard-core-v6/src/index.tsx:173-174 | a truthy explicit redirect URI wins; otherwise the first registered URI, or `undefined` when none is registered |
| `ClientConfig.GetAuthClient` | packages/guard-core-v6/src/index.tsx:156-183 | fails, with the rejection re-thrown as a new error, exactly when the public config rejects; otherwise the client gets the app and tenant ids, the resolved host, the redirect URI and both auth methods as defined above |
| `Events.EmptyRegistry` | packages/guard-core-v6/src/index.tsx:212-219 | every mapped event name, and no other, starts with an empty listener list |
| `Events.Register` | packages/guard-core-v6/src/index.tsx:587-592 | `on` appends the handler to the end of that event's list only; an unknown event name throws |
| `Events.LastOrTrue` | packages/guard-core-v6/src/index.tsx:552 | the last result when it is not `null`/`undefined`, otherwise `true`, also when there is no result |
| `Events.Results` | packages/guard-core-v6/src/index.tsx:548-551 | every listener is called once, in registration order |
| `Events.BridgeResultIsLastListener` | packages/guard-core-v6/src/index.tsx:546-553 | the bridged value is the last listener's result, or `true` when there is no listener or the last one returns nothing |
| `Events.RegisterMakesLast` | packages/guard-core-v6/src/index.tsx:587-592 | the most recently registered listener is called last, and its result is bridged back |
| `Events.TwoListenersInOrder` | packages/guard-core-v6/src/index.tsx:540-592 | listeners A then B on a fresh registry run as A then B, and B's result (or `true`) is returned |
| `Logout.LogoutRedirect` | packages/guard-core-v6/src/index.tsx:501-508 | the caller's URI if allow-listed, else the first allow-listed URI if truthy, else the origin; an undefined allow-list gives the origin; the target is always the origin or allow-listed |
| `Logout.UnlistedRedirectIgnored` | packages/guard-core-v6/src/index.tsx:501-508 | a caller-supplied URI outside the allow-list is never the target |
| `Logout.RemoteCall` | packages/guard-core-v6/src/index.tsx:513-517 | the current-device logout exactly when `quitCurrentDevice` is set, otherwise the full logout |
| `Logout.MissingIdTokenUsedByFallback` | packages/guard-core-v6/src/index.tsx:521-522 | after an exchange without an id token, the stored `"undefined"` becomes the fallback token of a failed remote logout |
| `Logout.FallbackIdToken` | packages/guard-core-v6/src/index.tsx:521-522 | the fallback id token is the provider's token when truthy, else the stored `idToken` |
| `Logout.FinalNavigation` | packages/guard-core-v6/src/index.tsx:512-532 | the expert logout URL, wrapping the chosen target and the id token, is used exactly when the remote logout throws and an id token exists; otherwise the chosen target is used |
| `Logout.LogoutLandsOnAllowedTarget` | packages/guard-core-v6/src/index.tsx:495-533 | logout always lands on the origin or an allow-listed URI, directly or through the expert logout URL |
| `Session.SessionIdToken` | packages/guard-core-v6/src/index.tsx:452-455 | the token provider's token, else the stored `idToken`, else `''` |
| `Session.TrackSession` | packages/guard-core-v6/src/index.tsx:443-493 | rejects exactly when the public config rejects; sends the `users/me` request exactly when there is no in-memory user and some id token |
| `Session.CurrentUserFirst` | packages/guard-core-v6/src/index.tsx:446-450 | an in-memory user is returned at once and no request is sent |
| `Session.NoTokenNoSession` | packages/guard-core-v6/src/index.tsx:452-459 | without an id token from either source the result is `null` and no request is sent |
| `Session.RemoteCheckAccepts200Only` | packages/guard-core-v6/src/index.tsx:461-492 | the request carries the id token and the user pool to the resolved host; a user comes back exactly from a code-200 response, as its `data`; any other code or a failure gives `null` |
| `Session.MissingIdTokenStillChecked` | packages/guard-core-v6/src/index.tsx:452-472 | after an exchange without an id token and with no provider token, the request is still sent, with `"undefined"` as the credential |
| `Session.RejectedConfigRejects` | packages/guard-core-v6/src/index.tsx:443-444 | a rejected public config makes `trackSession` reject with the re-thrown error |
| `GuardSdk.Guard.constructor` | packages/guard-core-v6/src/index.tsx:38-62 | the options are adapted, every event has an empty listener list, and the widget is visible exactly in modal mode |
| `GuardSdk.NewGuard` | packages/guard-core-v6/src/index.tsx:38-62 | `new Guard` throws exactly when `appId` is falsy; otherwise it builds a fresh Guard as the constructor states |
| `GuardSdk.Guard.Show` | packages/guard-core-v6/src/index.tsx:594-597 | `show` makes the widget visible, keeps the registry invariant and changes nothing else |
| `GuardSdk.Guard.Hide` | packages/guard-core-v6/src/index.tsx:599-602 | `hide` makes the widget invisible, keeps the registry invariant and changes nothing else |
| `GuardSdk.Guard.On` | packages/guard-core-v6/src/index.tsx:587-592 | the registry becomes `Events.Register` of the old one; an unknown event leaves it unchanged and throws |
| `GuardSdk.Guard.Bridge` | packages/guard-core-v6/src/index.tsx:540-553 | a `close` event hides the widget first; the listeners are called in order and the bridged value is returned |
| `GuardSdk.Guard.SetTokenCache` | packages/guard-core-v6/src/index.tsx:400-403 | storage becomes `WithTokens` of the old storage |
| `GuardSdk.Guard.ClearTokenCache` | packages/guard-core-v6/src/index.tsx:405-408 | storage becomes `WithoutTokens` of the old storage |
| `GuardSdk.Guard.ClearLoginCache` | packages/guard-core-v6/src/index.tsx:410-415 | a rejected public config rejects before anything is removed; otherwise storage becomes `WithoutLoginCache` of the old storage |
| `GuardSdk.Guard.GetCodeAndCodeChallenge` | packages/guard-core-v6/src/index.tsx:389-398 | the callback's `code` (`''` when absent) and the stored verifier (`''` when absent) |
| `GuardSdk.Guard.StartWithRedirect` | packages/guard-core-v6/src/index.tsx:321-368 | the verifier is stored under `codeChallenge`, and the authorize request carries its digest, the method, scope, mode and type with their defaults, the resolved redirect URI and the given or random `state` and `nonce`; a rejected public config stores nothing |
| `GuardSdk.Guard.HandleRedirectCallback` | packages/guard-core-v6/src/index.tsx:370-387 | the code and the stored verifier go to the exchange; on success exactly the returned tokens are stored, a missing one as `"undefined"`; on failure storage is unchanged |
| `GuardSdk.Guard.TrackSession` | packages/guard-core-v6/src/index.tsx:443-493 | the Guard's `trackSession` is `Session.TrackSession` over its own options, public config and storage |
| `GuardSdk.Guard.Logout` | packages/guard-core-v6/src/index.tsx:495-534 | a rejected public config rejects with nothing cleared; otherwise the remote call follows `quitCurrentDevice`, the navigation is `FinalNavigation` of the chosen target, and the login cache is always cleared |
| `GuardSdk.RedirectRoundTrip` | packages/guard-core-v6/src/index.tsx:321-398 | the callback exchanges the code with exactly the verifier `startWithRedirect` stored, and on success the returned tokens are stored next to it, a missing one as `"undefined"` |

## Left out

- Fetching the public config (lines 123-141) is not modelled. Its settled
  outcome is an input of the Guard. The memoised `init` promise (lines 49-59)
  is modelled only as that one shared outcome, not as a promise.
- The `users/me` fetch in `trackSession` (lines 475-492) is not modelled. Its
  parsed response, or `None` when it throws, is an input.
- `checkLoginStatus` (lines 248-296) is not modelled. It is a further network
  check that builds on `trackSession`.
- The `AuthenticationClient` calls are parameters or results of the
  operations that use them. These are `generateCodeChallenge`,
  `getCodeChallengeDigest`, `buildAuthorizeUrl`, `buildLogoutUrl`,
  `getAccessTokenByCode`, `logout`, `logoutCurrent`, `getCurrentUser`,
  `tokenProvider.getToken` and `tokenProvider.clearUser`. The client's
  in-memory user that `clearUser` forgets is not modelled.
- `state` and `nonce` come from `Math.random` in the source (line 322). Here
  they are inputs.
- `GuardSdk.Guard.Show`, `GuardSdk.Guard.Hide`, `GuardSdk.Guard.Bridge`: the
  source re-renders after each of them. Once the client resolves, `_render`
  writes the resolved request host into `options.config.host` (lines
  560-563). The model leaves this write out, so the `config.host` that
  `Adapted` states (`''` when no host was given) holds only until the first
  render in the source.
- `start`, the rendering and remounting in `_render`, `changeLang` and
  `changeContentCSS`, `unmount`, `getGuardContainer` and the assignments to
  `window.location.href` are DOM, rendering and navigation. They are not
  modelled. Navigation targets are returned as values. The un-serialised
  render race is concurrency and is also not modelled.
- `changeView`, `getCurrentView`, `startRegister` and the agreements helpers
  (lines 244-246, 612-662) use the page-global `window.$$guard` and
  `requestIdleCallback`. They are not modelled.
- `adaptOptions` writes into the caller's own `options` object. The model
  returns the adapted options as a new value, so the caller's object is not
  updated in place.
- `GuardOptions.Options` keeps only the options the core reads. The event
  names of `GuardEventsCamelToKebabMapping` come from `./types`, which is not
  part of this model, so they are a parameter of the Guard.
- `Events.Results`: a listener is a pure function of its identity. The model
  does not capture the side effects a JavaScript listener may have. It also
  does not capture a listener that throws: the `map` (line 549) then stops and
  the exception reaches the widget.
- The wrapped error of `getAuthClient` and `startWithRedirect`
  (`new Error(JSON.stringify(e))`, lines 162 and 351) is modelled as carrying
  the rejection reason. In the source every such rejection is an `Error`, which
  `JSON.stringify` renders as `"{}"`, so the message carries nothing.
