/** `trackSession`: is somebody signed in? (packages/guard-core-v6/src/index.tsx,
    trackSession). The client's in-memory user, its token provider and the
    `/api/v2/users/me` response are inputs. */
module Session {
  import opened Wrappers
  import opened JsValues
  import opened GuardOptions
  import opened ClientConfig
  import opened TokenCache

  /** The signed-in user: opaque to the core beyond its existence. */
  datatype User = User(id: string)

  /** `GET {host}/api/v2/users/me` with the user-pool header and the id token
      as the `Authorization` header. */
  datatype WhoAmIRequest = WhoAmIRequest(url: string, userPoolId: string, authorization: string)

  /** The parsed `{ code, data }` body. */
  datatype WhoAmIResponse = WhoAmIResponse(code: int, data: Option<User>)

  /** The request `trackSession` sends, if any, and what it resolves to:
      `Success(None)` is `null`, `Failure` a rejected promise. */
  datatype SessionCheck = SessionCheck(request: Option<WhoAmIRequest>, result: Result<Option<User>, Error>)

  const SuccessCode := 200

  /** `tokenProvider.getToken() || localStorage.getItem('idToken') || ''`. */
  function SessionIdToken(providerToken: Option<string>, storage: Storage): (t: string)
    ensures Truthy(providerToken) ==> t == providerToken.value
    ensures !Truthy(providerToken) && Truthy(GetItem(storage, IdTokenKey)) ==> t == storage[IdTokenKey]
    ensures !Truthy(providerToken) && !Truthy(GetItem(storage, IdTokenKey)) ==> t == ""
  {
    OrDefault(OrElse(providerToken, GetItem(storage, IdTokenKey)), "")
  }

  /** `trackSession()`. `response` is the outcome of the `users/me` request,
      `None` when fetching or parsing it throws; it is only consulted when the
      request is sent. */
  function TrackSession(options: Options, pc: ConfigOutcome, currentUser: Option<User>,
                        providerToken: Option<string>, storage: Storage,
                        response: Option<WhoAmIResponse>): (r: SessionCheck)
    ensures r.result.Failure? <==> pc.Failure?
    ensures r.request.Some? <==>
      pc.Success? && currentUser.None? && SessionIdToken(providerToken, storage) != ""
  {
    match GetAuthClient(options, pc)
    case Failure(e) => SessionCheck(None, Failure(e))
    case Success(_) =>
      if currentUser.Some? then SessionCheck(None, Success(currentUser))
      else
        var idToken := SessionIdToken(providerToken, storage);
        if idToken == "" then SessionCheck(None, Success(None))
        else
          var host := RequestHost(options.host, pc).value;
          var request := WhoAmIRequest(host + "/api/v2/users/me", pc.value.userPoolId, idToken);
          var user := match response
            case Some(res) => if res.code == SuccessCode then res.data else None
            case None => None;
          SessionCheck(Some(request), Success(user))
  }

  /** The in-memory user short-circuits the check: no request is sent. */
  lemma CurrentUserFirst(options: Options, pc: ConfigOutcome, user: User,
                         providerToken: Option<string>, storage: Storage,
                         response: Option<WhoAmIResponse>)
    requires pc.Success?
    ensures TrackSession(options, pc, Some(user), providerToken, storage, response)
      == SessionCheck(None, Success(Some(user)))
  {
  }

  /** Without an id token from either source there is no session, and no
      request is sent. */
  lemma NoTokenNoSession(options: Options, pc: ConfigOutcome,
                         providerToken: Option<string>, storage: Storage,
                         response: Option<WhoAmIResponse>)
    requires pc.Success?
    requires !Truthy(providerToken) && !Truthy(GetItem(storage, IdTokenKey))
    ensures TrackSession(options, pc, None, providerToken, storage, response)
      == SessionCheck(None, Success(None))
  {
  }

  /** When the request is sent, it carries the id token and the user pool and
      goes to the resolved host; a user comes back only from a response with
      code 200, and is then exactly that response's data. */
  lemma RemoteCheckAccepts200Only(options: Options, pc: ConfigOutcome,
                                  providerToken: Option<string>, storage: Storage,
                                  response: Option<WhoAmIResponse>)
    requires pc.Success?
    requires SessionIdToken(providerToken, storage) != ""
    ensures var r := TrackSession(options, pc, None, providerToken, storage, response);
      && r.request.Some?
      && r.request.value.authorization == SessionIdToken(providerToken, storage)
      && r.request.value.userPoolId == pc.value.userPoolId
      && r.request.value.url == RequestHost(options.host, pc).value + "/api/v2/users/me"
      && r.result.Success?
      && (r.result.value.Some? ==>
            response.Some? && response.value.code == SuccessCode && r.result.value == response.value.data)
      && (response.Some? && response.value.code == SuccessCode ==> r.result.value == response.value.data)
      && (response.None? || response.value.code != SuccessCode ==> r.result.value.None?)
  {
  }

  /** An id token the code exchange did not return is stored as
      `"undefined"`, which is truthy: with no token from the provider,
      `trackSession` then sends that text as the bearer credential. */
  lemma MissingIdTokenStillChecked(options: Options, pc: ConfigOutcome, storage: Storage,
                                   accessToken: string, response: Option<WhoAmIResponse>)
    requires pc.Success?
    ensures var r := TrackSession(options, pc, None, None,
                                  WithTokens(storage, accessToken, StoredString(None)), response);
      r.request.Some? && r.request.value.authorization == "undefined"
  {
  }

  /** A public config that rejects makes `trackSession` reject as well: the
      client is built before any error is swallowed. */
  lemma RejectedConfigRejects(options: Options, pc: ConfigOutcome, currentUser: Option<User>,
                              providerToken: Option<string>, storage: Storage,
                              response: Option<WhoAmIResponse>)
    requires pc.Failure?
    ensures TrackSession(options, pc, currentUser, providerToken, storage, response)
      == SessionCheck(None, Failure(ConfigRejectedWrapped(pc.error)))
  {
  }
}
