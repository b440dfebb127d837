/**
 * The sample server's list view (SampleListAPIView1). A caller is
 * authenticated by an access token issued by the sample token manager, the
 * token's client must be one the sample client manager knows, and the data
 * is served only when the user approved sample_scope_1 for reading. The view
 * answers with two fixed items.
 *
 * The singletons `SampleTokenManager.shared` and `SampleClientManager.shared`
 * are parameters: the token manager, the client list and the client
 * registry, with the clock `now`.
 */
module SampleApi {
  import opened Wrappers
  import opened Errors
  import opened Scopes
  import opened Sequences
  import opened KeyValue
  import opened ClientManagement
  import opened Bundles
  import opened HandshakeWire
  import opened AuthorizationWire
  import opened HandshakeServer
  import opened ConsentActivity
  import opened AuthorizationServer
  import opened AuthorizationProperties
  import opened ApiViews
  import Tokens

  /** `SampleContentResponseItem1` */
  datatype SampleItem1 = SampleItem1(identifier: string, sampleString: string)

  /** The scope the view requires. */
  const RequiredScope := ScopeRequest("sample_scope_1", READ)

  const NO_TOKEN := ApiAuthorizationFailed("No token provided")
  const INVALID_TOKEN := ApiAuthorizationFailed("Invalid token")
  const INVALID_CLIENT := ApiInsufficientPermissions("Invalid client")
  const INSUFFICIENT_SCOPE := ApiInsufficientPermissions("Insufficient scope")

  /**
   * `authenticate`: a missing token, a token that does not validate as an
   * access token, or one without a client id is refused; otherwise the
   * client it names is looked up, and the lookup's answer is passed on.
   */
  function SampleAuthenticate(tm: Tokens.TokenManager, clients: seq<Client>, now: int, request: ResourceServerRequest): (a: AuthAnswer<Client>)
    ensures request.token.None? ==> a == AuthCompleted(None, Some(NO_TOKEN))
    ensures request.token.Some? && Tokens.ValidateAndDecodeToken(tm, request.token.value, Tokens.ACCESS_TOKEN, now).None? ==>
      a == AuthCompleted(None, Some(INVALID_TOKEN))
    ensures a.AuthCompleted? && a.auth.Some? ==>
      a.error.None? && request.token.Some?
      && a.auth.value.token == Tokens.ValidateAndDecodeToken(tm, request.token.value, Tokens.ACCESS_TOKEN, now)
      && a.auth.value.token.Some?
      && a.auth.value.client.Some? && a.auth.value.client.value in clients
      && Tokens.ClientIdFromToken(a.auth.value.token.value) == Some(a.auth.value.client.value.clientId)
  {
    match request.token
    case None => AuthCompleted(None, Some(NO_TOKEN))
    case Some(token) =>
      match Tokens.ValidateAndDecodeToken(tm, token, Tokens.ACCESS_TOKEN, now)
      case None => AuthCompleted(None, Some(INVALID_TOKEN))
      case Some(jwt) =>
        match Tokens.ClientIdFromToken(jwt)
        case None => AuthCompleted(None, Some(INVALID_TOKEN))
        case Some(clientId) =>
          match SampleClientAnswer(clients, clientId)
          case LookupThrew(e) => AuthThrew(e)
          case Answered(client, exception) =>
            if client.None? then AuthCompleted(None, exception)
            else AuthCompleted(Some(AuthResult(Some(jwt), client)), None)
  }

  /** `convertParameters`: the view takes no parameters. */
  function SampleConvertParameters(request: ResourceServerRequest): (r: Result<Option<()>, Exception>)
    ensures r == Ok(None)
  {
    Ok(None)
  }

  /**
   * `checkPermissions`: passes exactly when there is an authenticated client
   * whose approved scopes include sample_scope_1 for reading. A missing
   * client is refused as an invalid client, missing approval as an
   * insufficient scope; an exception reading the approved scopes escapes.
   */
  function SampleCheckPermissions(registry: Store, request: ApiRequest<Client, ()>): (thrown: Option<Exception>)
    ensures thrown.None? <==>
      request.auth.Some? && request.auth.value.client.Some?
      && ApprovedScopes(registry, request.auth.value.client.value.clientId).Ok?
      && ApprovedScopes(registry, request.auth.value.client.value.clientId).value.Some?
      && RequiredScope in ApprovedScopes(registry, request.auth.value.client.value.clientId).value.value
    ensures request.auth.None? || request.auth.value.client.None? ==> thrown == Some(INVALID_CLIENT)
  {
    if request.auth.None? || request.auth.value.client.None? then Some(INVALID_CLIENT)
    else
      match ApprovedScopes(registry, request.auth.value.client.value.clientId)
      case Err(e) => Some(e)
      case Ok(None) => Some(INSUFFICIENT_SCOPE)
      case Ok(Some(approved)) => if RequiredScope in approved then None else Some(INSUFFICIENT_SCOPE)
  }

  /** `getObjects`: the two fixed items, in order, whatever the request. */
  function SampleGetObjects(request: ApiRequest<Client, ()>): (r: Result<seq<SampleItem1>, Exception>)
    ensures r.Ok? && |r.value| == 2
    ensures r.value[0].identifier == "item 1" && r.value[1].identifier == "item 2"
    ensures r.value[0].sampleString == "data 1" && r.value[1].sampleString == "data 2"
  {
    Ok([SampleItem1("item 1", "data 1"), SampleItem1("item 2", "data 2")])
  }

  /**
   * SampleListAPIView1 with its authentication and permission checks as its
   * delegates; `itemJson` is the Moshi adapter. The view declares both
   * checks with `override`, but `GenericReadAPIView` has no such members,
   * only its delegate properties; the model takes the evident intent, that
   * the two checks are the view's delegates. `LiteralSampleView` is the view
   * with its default delegates kept.
   */
  function SampleListView1(tm: Tokens.TokenManager, clients: seq<Client>, registry: Store, now: int,
                           itemJson: SampleItem1 -> string): ApiView<Client, (), SampleItem1>
  {
    ApiView(r => SampleAuthenticate(tm, clients, now, r), SampleConvertParameters,
            r => SampleCheckPermissions(registry, r), SampleGetObjects, itemJson)
  }

  /** The body of a served response: the two items as JSON. */
  function SampleBody(itemJson: SampleItem1 -> string): seq<string>
  {
    [itemJson(SampleItem1("item 1", "data 1")), itemJson(SampleItem1("item 2", "data 2"))]
  }

  /** SampleListAPIView1 keeping the default delegates of `GenericReadAPIView`. */
  function LiteralSampleView(itemJson: SampleItem1 -> string): ApiView<Client, (), SampleItem1>
  {
    ApiView(DefaultAuthenticate<Client>, SampleConvertParameters, DefaultCheckPermissions<Client, ()>, SampleGetObjects, itemJson)
  }

  /** With the default delegates kept, the view serves its two items to every request, with a token or without. */
  lemma LiteralSampleViewServesAnyone(itemJson: SampleItem1 -> string, uri: Uri, request: ResourceServerRequest)
    ensures HandleRequest(LiteralSampleView(itemJson), uri, request) == Completed(ApiResponse(200, Some(SampleBody(itemJson)), None))
  {
    DefaultDelegatesNeverRefuse(LiteralSampleView(itemJson), uri, request);
    var objects := SampleGetObjects(ApiRequest(uri, None, None)).value;
    assert SerializeAll(itemJson, objects) == SampleBody(itemJson);
  }

  // ---------------------------------------------------------------------------
  // Properties

  /**
   * A request without a token is refused with "No token provided": as
   * written the AuthorizationFailed escapes wrapped in a RuntimeException;
   * with the intended catch it is answered 401.
   */
  lemma NoTokenIsRefused(tm: Tokens.TokenManager, clients: seq<Client>, registry: Store, now: int,
                         itemJson: SampleItem1 -> string, uri: Uri, request: ResourceServerRequest)
    requires request.token.None?
    ensures HandleRequest(SampleListView1(tm, clients, registry, now, itemJson), uri, request)
      == Escaped(RuntimeWrapper(NO_TOKEN))
    ensures HandleRequestIntended(SampleListView1(tm, clients, registry, now, itemJson), uri, request)
      == Completed(ApiResponse(401, None, Some(NO_TOKEN)))
  {
  }

  /**
   * A token that does not validate as an access token (a refresh token, an
   * expired token, one signed under another secret) is refused with
   * "Invalid token": as written the AuthorizationFailed escapes wrapped in a
   * RuntimeException; with the intended catch it is answered 401.
   */
  lemma InvalidTokenIsRefused(tm: Tokens.TokenManager, clients: seq<Client>, registry: Store, now: int,
                              itemJson: SampleItem1 -> string, uri: Uri, token: string, parametersJson: Option<string>)
    requires Tokens.ValidateAndDecodeToken(tm, token, Tokens.ACCESS_TOKEN, now).None?
    ensures HandleRequest(SampleListView1(tm, clients, registry, now, itemJson), uri, ResourceServerRequest(Some(token), parametersJson))
      == Escaped(RuntimeWrapper(INVALID_TOKEN))
    ensures HandleRequestIntended(SampleListView1(tm, clients, registry, now, itemJson), uri, ResourceServerRequest(Some(token), parametersJson))
      == Completed(ApiResponse(401, None, Some(INVALID_TOKEN)))
  {
  }

  /**
   * The missing-client-id refusal cannot be reached: a token that validates
   * always carries a client id, so authentication ends either refused by
   * validation or at the client lookup.
   */
  lemma ValidatedTokenNamesClient(tm: Tokens.TokenManager, clients: seq<Client>, now: int, token: string, parametersJson: Option<string>)
    requires Tokens.ValidateAndDecodeToken(tm, token, Tokens.ACCESS_TOKEN, now).Some?
    ensures var jwt := Tokens.ValidateAndDecodeToken(tm, token, Tokens.ACCESS_TOKEN, now).value;
      Tokens.ClientIdFromToken(jwt).Some?
      && SampleAuthenticate(tm, clients, now, ResourceServerRequest(Some(token), parametersJson)) ==
        match SampleClientAnswer(clients, Tokens.ClientIdFromToken(jwt).value)
        case LookupThrew(e) => AuthThrew(e)
        case Answered(client, _) => AuthCompleted(Some(AuthResult(Some(jwt), client)), None)
  {
  }

  /**
   * A valid token for a client the manager does not know makes the lookup
   * throw; NoSuchElementException is a RuntimeException, so `blockingGet`
   * rethrows it as it is and it escapes the request, with either catch.
   */
  lemma UnknownClientEscapes(tm: Tokens.TokenManager, clients: seq<Client>, registry: Store, now: int,
                             itemJson: SampleItem1 -> string, uri: Uri, token: string, parametersJson: Option<string>)
    requires Tokens.ValidateAndDecodeToken(tm, token, Tokens.ACCESS_TOKEN, now).Some?
    requires var jwt := Tokens.ValidateAndDecodeToken(tm, token, Tokens.ACCESS_TOKEN, now).value;
      forall c :: c in clients ==> Some(c.clientId) != Tokens.ClientIdFromToken(jwt)
    ensures HandleRequest(SampleListView1(tm, clients, registry, now, itemJson), uri, ResourceServerRequest(Some(token), parametersJson))
      == Escaped(NoSuchElement)
    ensures HandleRequestIntended(SampleListView1(tm, clients, registry, now, itemJson), uri, ResourceServerRequest(Some(token), parametersJson))
      == Escaped(NoSuchElement)
  {
    var jwt := Tokens.ValidateAndDecodeToken(tm, token, Tokens.ACCESS_TOKEN, now).value;
    var clientId := Tokens.ClientIdFromToken(jwt).value;
    assert forall c :: c in clients ==> c.clientId != clientId;
  }

  /**
   * A known client with a valid token: the data is served exactly when the
   * user approved sample_scope_1 for reading; otherwise the answer is 403,
   * "Insufficient scope", unless reading the approved scopes throws.
   */
  lemma KnownClientServedIffApproved(tm: Tokens.TokenManager, clients: seq<Client>, registry: Store, now: int,
                                     itemJson: SampleItem1 -> string, uri: Uri, token: string, parametersJson: Option<string>)
    requires Tokens.ValidateAndDecodeToken(tm, token, Tokens.ACCESS_TOKEN, now).Some?
    requires var jwt := Tokens.ValidateAndDecodeToken(tm, token, Tokens.ACCESS_TOKEN, now).value;
      exists c :: c in clients && Some(c.clientId) == Tokens.ClientIdFromToken(jwt)
    ensures var jwt := Tokens.ValidateAndDecodeToken(tm, token, Tokens.ACCESS_TOKEN, now).value;
      var approved := ApprovedScopes(registry, Tokens.ClientIdFromToken(jwt).value);
      var h := HandleRequest(SampleListView1(tm, clients, registry, now, itemJson), uri, ResourceServerRequest(Some(token), parametersJson));
      (approved.Ok? && approved.value.Some? && RequiredScope in approved.value.value ==>
        h == Completed(ApiResponse(200, Some(SampleBody(itemJson)), None)))
      && (approved == Ok(None) || (approved.Ok? && approved.value.Some? && RequiredScope !in approved.value.value) ==>
        h == Completed(ApiResponse(403, None, Some(INSUFFICIENT_SCOPE))))
      && (approved.Err? ==> h == Escaped(approved.error))
  {
    var jwt := Tokens.ValidateAndDecodeToken(tm, token, Tokens.ACCESS_TOKEN, now).value;
    var clientId := Tokens.ClientIdFromToken(jwt).value;
    var answer := SampleClientAnswer(clients, clientId);
    assert answer.Answered? by {
      var c :| c in clients && Some(c.clientId) == Tokens.ClientIdFromToken(jwt);
    }
    var objects := SampleGetObjects(ApiRequest(uri, Some(AuthResult(Some(jwt), answer.client)), None)).value;
    assert SerializeAll(itemJson, objects) == SampleBody(itemJson);
  }

  /**
   * The whole exchange: a client that was given an access token after the
   * user consented to sample_scope_1 for reading is served the two items
   * while the token lives.
   */
  lemma ConsentedClientIsServed(registry: Store, request: AuthRequest, response: ConsentResponse, tm: Tokens.TokenManager,
                                now: int, later: int, itemJson: SampleItem1 -> string, uri: Uri, parametersJson: Option<string>)
    requires Tokens.Lawful(tm.lib)
    requires request.clientId == SAMPLE_CLIENT_ID
    requires NoDottedIdentifier(response.approvedScopes) && RequiredScope in response.approvedScopes
    requires var outcome := ConsentStep(registry, request, Consented(response), tm, now).1;
      outcome.Replied? && outcome.reply.code == RESULT_CODE_OK
    requires later <= now + ONE_DAY
    ensures var (registry', outcome) := ConsentStep(registry, request, Consented(response), tm, now);
      AuthResponseFromBundle(outcome.reply.data).Some?
      && var token := AuthResponseFromBundle(outcome.reply.data).value.token;
      HandleRequest(SampleListView1(tm, SampleClientList, registry', later, itemJson), uri, ResourceServerRequest(Some(token), parametersJson))
        == Completed(ApiResponse(200, Some(SampleBody(itemJson)), None))
  {
    var step := ConsentStep(registry, request, Consented(response), tm, now);
    ConsentedStoresScopesThenIssues(registry, request, response, tm, now);
    TokenReplyCases(registry, request, tm, now);
    IssuedAccessTokenValidates(registry, request, tm, now, later);
    var token := AccessToken(tm, request, now).value;
    assert RequiredScope in Dedup(response.approvedScopes);
    SampleClientServedWhenApproved(tm, step.0, later, itemJson, uri, token, parametersJson);
  }

  /** The sample client, holding a valid access token and approval of sample_scope_1 for reading, is served the two items. */
  lemma SampleClientServedWhenApproved(tm: Tokens.TokenManager, registry: Store, now: int, itemJson: SampleItem1 -> string,
                                       uri: Uri, token: string, parametersJson: Option<string>)
    requires Tokens.ValidateAndDecodeToken(tm, token, Tokens.ACCESS_TOKEN, now).Some?
    requires Tokens.ClientIdFromToken(Tokens.ValidateAndDecodeToken(tm, token, Tokens.ACCESS_TOKEN, now).value) == Some(SAMPLE_CLIENT_ID)
    requires ApprovedScopes(registry, SAMPLE_CLIENT_ID).Ok? && ApprovedScopes(registry, SAMPLE_CLIENT_ID).value.Some?
    requires RequiredScope in ApprovedScopes(registry, SAMPLE_CLIENT_ID).value.value
    ensures HandleRequest(SampleListView1(tm, SampleClientList, registry, now, itemJson), uri, ResourceServerRequest(Some(token), parametersJson))
      == Completed(ApiResponse(200, Some(SampleBody(itemJson)), None))
  {
    assert SampleClientList[0] in SampleClientList && SampleClientList[0].clientId == SAMPLE_CLIENT_ID;
    KnownClientServedIffApproved(tm, SampleClientList, registry, now, itemJson, uri, token, parametersJson);
  }

  /**
   * A user who cancels the consent screen still gets the client a token,
   * but the client is refused the data: 403, "Insufficient scope".
   */
  lemma CanceledClientIsForbidden(registry: Store, request: AuthRequest, tm: Tokens.TokenManager,
                                  now: int, later: int, itemJson: SampleItem1 -> string, uri: Uri, parametersJson: Option<string>)
    requires Tokens.Lawful(tm.lib)
    requires request.clientId == SAMPLE_CLIENT_ID
    requires var outcome := ConsentStep(registry, request, Canceled, tm, now).1;
      outcome.Replied? && outcome.reply.code == RESULT_CODE_OK
    requires later <= now + ONE_DAY
    ensures var (registry', outcome) := ConsentStep(registry, request, Canceled, tm, now);
      var token := AuthResponseFromBundle(outcome.reply.data).value.token;
      HandleRequest(SampleListView1(tm, SampleClientList, registry', later, itemJson), uri, ResourceServerRequest(Some(token), parametersJson))
        == Completed(ApiResponse(403, None, Some(INSUFFICIENT_SCOPE)))
  {
    var (registry', outcome) := ConsentStep(registry, request, Canceled, tm, now);
    CanceledClearsScopesStillIssues(registry, request, tm, now);
    IssuedAccessTokenValidates(registry, request, tm, now, later);
    var token := AuthResponseFromBundle(outcome.reply.data).value.token;
    assert SampleClientList[0] in SampleClientList;
    KnownClientServedIffApproved(tm, SampleClientList, registry', later, itemJson, uri, token, parametersJson);
  }
}
