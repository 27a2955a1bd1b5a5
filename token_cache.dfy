/** The browser's `localStorage` and the three keys the core keeps in it
    (packages/guard-core-v6/src/index.tsx, setTokenCache, clearTokenCache,
    clearLoginCache, getCodeAndCodeChallenge). */
module TokenCache {
  import opened Wrappers
  import opened JsValues

  type Storage = map<string, string>

  const AccessTokenKey := "accessToken"
  const IdTokenKey := "idToken"
  /** Holds the PKCE code verifier, despite its name. */
  const CodeChallengeKey := "codeChallenge"

  /** `setItem` stores `String(value)`: a value that is `undefined` is
      stored as the text `"undefined"`. */
  function StoredString(value: Option<string>): (r: string)
    ensures value.Some? ==> r == value.value
    ensures value.None? ==> r == "undefined"
  {
    value.GetOr("undefined")
  }

  /** `localStorage.getItem(key)`: `null` for a missing key. */
  function GetItem(s: Storage, key: string): (r: Option<string>)
    ensures r.Some? <==> key in s
    ensures r.Some? ==> r.value == s[key]
  {
    if key in s then Some(s[key]) else None
  }

  /** The storage after `setTokenCache(accessToken, idToken)`: both tokens
      stored, every other key untouched. */
  function WithTokens(s: Storage, accessToken: string, idToken: string): (r: Storage)
    ensures GetItem(r, AccessTokenKey) == Some(accessToken)
    ensures GetItem(r, IdTokenKey) == Some(idToken)
    ensures forall k :: k != AccessTokenKey && k != IdTokenKey ==> SameEntry(s, r, k)
  {
    s[AccessTokenKey := accessToken][IdTokenKey := idToken]
  }

  /** The storage after `clearTokenCache()`: both token keys gone, every
      other key untouched. */
  function WithoutTokens(s: Storage): (r: Storage)
    ensures AccessTokenKey !in r && IdTokenKey !in r
    ensures forall k :: k != AccessTokenKey && k != IdTokenKey ==> SameEntry(s, r, k)
  {
    s - {AccessTokenKey, IdTokenKey}
  }

  /** The storage after the removals of `clearLoginCache()`: the verifier as
      well as both tokens gone, every other key untouched. */
  function WithoutLoginCache(s: Storage): (r: Storage)
    ensures AccessTokenKey !in r && IdTokenKey !in r && CodeChallengeKey !in r
    ensures forall k :: k != AccessTokenKey && k != IdTokenKey && k != CodeChallengeKey ==> SameEntry(s, r, k)
  {
    WithoutTokens(s - {CodeChallengeKey})
  }

  /** Clearing the tokens twice is clearing them once. */
  lemma ClearTokensIdempotent(s: Storage)
    ensures WithoutTokens(WithoutTokens(s)) == WithoutTokens(s)
  {
  }

  /** Clearing the login cache is idempotent too, and it clears the tokens. */
  lemma ClearLoginCacheIdempotent(s: Storage)
    ensures WithoutLoginCache(WithoutLoginCache(s)) == WithoutLoginCache(s)
    ensures WithoutTokens(WithoutLoginCache(s)) == WithoutLoginCache(s)
  {
  }

  /** Clearing after storing leaves no trace of the stored tokens. */
  lemma ClearUndoesSet(s: Storage, accessToken: string, idToken: string)
    ensures WithoutTokens(WithTokens(s, accessToken, idToken)) == WithoutTokens(s)
  {
    var r := WithoutTokens(WithTokens(s, accessToken, idToken));
    forall k ensures k in r <==> k in WithoutTokens(s) {
    }
  }

  /** `localStorage.getItem('codeChallenge') || ''`. */
  function VerifierOf(s: Storage): (v: string)
    ensures CodeChallengeKey in s ==> v == s[CodeChallengeKey]
    ensures CodeChallengeKey !in s ==> v == ""
  {
    OrDefault(GetItem(s, CodeChallengeKey), "")
  }

  /** The verifier stored under `codeChallenge` is the one read back,
      whatever it is (an empty verifier reads back as `''` either way). */
  lemma VerifierRoundTrip(s: Storage, verifier: string)
    ensures VerifierOf(s[CodeChallengeKey := verifier]) == verifier
  {
  }

  /** Storing the tokens leaves the verifier alone. */
  lemma WithTokensKeepsVerifier(s: Storage, accessToken: string, idToken: string)
    ensures VerifierOf(WithTokens(s, accessToken, idToken)) == VerifierOf(s)
  {
    assert CodeChallengeKey != AccessTokenKey && CodeChallengeKey != IdTokenKey;
  }

  /** `clearTokenCache()` on its own leaves a stored verifier in place; only
      `clearLoginCache()` forgets it. */
  lemma ClearTokensKeepsVerifier(s: Storage)
    ensures VerifierOf(WithoutTokens(s)) == VerifierOf(s)
    ensures VerifierOf(WithoutLoginCache(s)) == ""
  {
    assert CodeChallengeKey != AccessTokenKey && CodeChallengeKey != IdTokenKey;
  }

  /** `localStorage`: one dictionary shared by every Guard of the page. */
  class LocalStorage {
    var items: Storage

    constructor (items: Storage)
      ensures this.items == items
    {
      this.items := items;
    }

    method SetItem(key: string, value: string)
      modifies this
      ensures items == old(items)[key := value]
    {
      items := items[key := value];
    }

    method RemoveItem(key: string)
      modifies this
      ensures items == old(items) - {key}
    {
      items := items - {key};
    }
  }
}
