/**
 * Properties of authorization on the server: what `generateTokensAndSendResponse`
 * issues, what each consent outcome does to the approved scopes, which
 * intents reach the consent screen, and the whole path from a client's
 * request to the token it receives.
 */
module AuthorizationProperties {
  import opened Wrappers
  import opened Errors
  import opened Bundles
  import opened Scopes
  import opened Sequences
  import opened KeyValue
  import opened ClientManagement
  import opened HandshakeWire
  import opened HandshakeServer
  import opened AuthorizationWire
  import Tokens
  import opened ConsentActivity
  import opened AuthorizationServer

  function AccessToken(tm: Tokens.TokenManager, request: AuthRequest, now: int): Option<string>
  {
    Tokens.GenerateToken(tm, Tokens.ACCESS_TOKEN, request.clientId, ONE_DAY, now)
  }

  function RefreshToken(tm: Tokens.TokenManager, request: AuthRequest, now: int): Option<string>
  {
    Tokens.GenerateToken(tm, Tokens.REFRESH_TOKEN, request.clientId, ONE_YEAR, now)
  }

  predicate HasHandshake(registry: Store, clientId: string)
  {
    RegisteredHandshake(registry, clientId).Ok? && RegisteredHandshake(registry, clientId).value.Some?
  }

  /**
   * The reply `generateTokensAndSendResponse` sends: TokenError when either
   * token cannot be made, MalformedResponse without a handshake, and OK
   * (carrying the access token and the request's state) only when both
   * tokens exist and the handshake is registered.
   */
  lemma TokenReplyCases(registry: Store, request: AuthRequest, tm: Tokens.TokenManager, now: int)
    ensures AccessToken(tm, request, now).None? || RefreshToken(tm, request, now).None? ==>
      TokenReply(registry, request, tm, now) == Replied(ErrorReply(CANNOT_GENERATE_TOKEN))
    ensures AccessToken(tm, request, now).Some? && RefreshToken(tm, request, now).Some? && RegisteredHandshake(registry, request.clientId) == Ok(None) ==>
      TokenReply(registry, request, tm, now) == Replied(ErrorReply(HANDSHAKE_NOT_AVAILABLE))
    ensures (TokenReply(registry, request, tm, now).Replied? && TokenReply(registry, request, tm, now).reply.code == RESULT_CODE_OK) <==>
      AccessToken(tm, request, now).Some? && RefreshToken(tm, request, now).Some? && HasHandshake(registry, request.clientId)
    ensures TokenReply(registry, request, tm, now).Replied? && TokenReply(registry, request, tm, now).reply.code == RESULT_CODE_OK ==>
      AuthResponseFromBundle(TokenReply(registry, request, tm, now).reply.data) == Some(AuthResponse(AccessToken(tm, request, now).value, request.state))
  {
    assert RESULT_CODE_ERROR != RESULT_CODE_OK;
  }

  /** The lifetimes are one day and 365 days, and `includeRefreshToken` does not change what is issued. */
  lemma RefreshTokenIgnoresFlag(registry: Store, request: AuthRequest, tm: Tokens.TokenManager, now: int, flag: bool)
    ensures ONE_DAY == 86400 && ONE_YEAR == 31536000
    ensures TokenReply(registry, request.(includeRefreshToken := flag), tm, now) == TokenReply(registry, request, tm, now)
  {
  }

  /**
   * The access token of an OK reply validates as an access token for the
   * requesting client for one day, and not after; it never validates as a
   * refresh token.
   */
  lemma IssuedAccessTokenValidates(registry: Store, request: AuthRequest, tm: Tokens.TokenManager, now: int, later: int)
    requires Tokens.Lawful(tm.lib)
    requires TokenReply(registry, request, tm, now).Replied? && TokenReply(registry, request, tm, now).reply.code == RESULT_CODE_OK
    ensures var token := AuthResponseFromBundle(TokenReply(registry, request, tm, now).reply.data).value.token;
      (later <= now + ONE_DAY ==>
        Tokens.ValidateAndDecodeToken(tm, token, Tokens.ACCESS_TOKEN, later).Some?
        && Tokens.ClientIdFromToken(Tokens.ValidateAndDecodeToken(tm, token, Tokens.ACCESS_TOKEN, later).value) == Some(request.clientId))
      && (later > now + ONE_DAY ==> Tokens.ValidateAndDecodeToken(tm, token, Tokens.ACCESS_TOKEN, later).None?)
      && Tokens.ValidateAndDecodeToken(tm, token, Tokens.REFRESH_TOKEN, later).None?
  {
    TokenReplyCases(registry, request, tm, now);
    if later <= now + ONE_DAY {
      Tokens.GeneratedTokenValidates(tm, Tokens.ACCESS_TOKEN, request.clientId, ONE_DAY, now, later);
    } else {
      Tokens.ExpiredTokenRejected(tm, Tokens.ACCESS_TOKEN, request.clientId, ONE_DAY, now, later);
    }
    Tokens.TokenTypesDoNotMix(tm, Tokens.ACCESS_TOKEN, Tokens.REFRESH_TOKEN, request.clientId, ONE_DAY, now, later);
  }

  lemma DedupKeepsUndotted(s: seq<ScopeRequest>)
    requires NoDottedIdentifier(s)
    ensures NoDottedIdentifier(Dedup(s)) && Distinct(Dedup(s))
  {
    var d := Dedup(s);
    forall i | 0 <= i < |d| ensures '.' !in d[i].identifier {
      assert d[i] in s;
    }
  }

  /**
   * `onConsented`: the approved scopes are stored (and read back as a set),
   * then tokens are issued exactly as if nothing had been stored.
   */
  lemma ConsentedStoresScopesThenIssues(registry: Store, request: AuthRequest, response: ConsentResponse, tm: Tokens.TokenManager, now: int)
    requires NoDottedIdentifier(response.approvedScopes)
    ensures var (registry', outcome) := ConsentStep(registry, request, Consented(response), tm, now);
      ApprovedScopes(registry', request.clientId) == Ok(Some(Dedup(response.approvedScopes)))
      && outcome == TokenReply(registry, request, tm, now)
  {
    var approved := Dedup(response.approvedScopes);
    DedupKeepsUndotted(response.approvedScopes);
    SetThenGetApprovedScopes(registry, request.clientId, approved);
    SetApprovedScopesKeepsHandshakes(registry, request.clientId, StringList(ScopeStrings(approved)), request.clientId);
  }

  /** `onCanceled`: the approved scopes are cleared, and tokens are still issued. */
  lemma CanceledClearsScopesStillIssues(registry: Store, request: AuthRequest, tm: Tokens.TokenManager, now: int)
    ensures var (registry', outcome) := ConsentStep(registry, request, Canceled, tm, now);
      ApprovedScopes(registry', request.clientId) == Ok(None)
      && outcome == TokenReply(registry, request, tm, now)
  {
    ClearApprovedScopesKeepsHandshakes(registry, request.clientId, request.clientId);
  }

  /** `onError`: the exception is passed on, nothing is stored and no token is issued. */
  lemma ConsentErrorIssuesNothing(registry: Store, request: AuthRequest, e: Exception, tm: Tokens.TokenManager, now: int)
    ensures ConsentStep(registry, request, ConsentFailed(e), tm, now) == (registry, Replied(ErrorReply(e)))
    ensures ConsentStep(registry, request, ConsentFailed(e), tm, now).1.reply.code != RESULT_CODE_OK
  {
  }

  /** No consent outcome ever answers OK to a client without a registered handshake. */
  lemma NoTokensWithoutHandshake(registry: Store, request: AuthRequest, delivery: ConsentDelivery, tm: Tokens.TokenManager, now: int)
    requires !HasHandshake(registry, request.clientId)
    ensures var outcome := ConsentStep(registry, request, delivery, tm, now).1;
      !(outcome.Replied? && outcome.reply.code == RESULT_CODE_OK)
  {
    match delivery
    case Consented(response) =>
      SetApprovedScopesKeepsHandshakes(registry, request.clientId,
        StringList(ScopeStrings(Dedup(response.approvedScopes))), request.clientId);
      TokenReplyCases(ConsentStep(registry, request, delivery, tm, now).0, request, tm, now);
    case Canceled =>
      ClearApprovedScopesKeepsHandshakes(registry, request.clientId, request.clientId);
      TokenReplyCases(ConsentStep(registry, request, delivery, tm, now).0, request, tm, now);
    case ConsentFailed(e) =>
  }

  /**
   * Which intents reach the consent screen: only BEGIN_AUTHORIZATION intents
   * with a context, a result receiver and a parsable request from a client
   * with a registered handshake that the client manager finds.
   */
  lemma ConsentOnlyForKnownClients(registry: Store, intent: Option<Intent>, hasContext: bool, lookup: string -> ClientAnswer,
                                   json: ScopeJson, activity: ComponentName, consentReceiver: nat)
    ensures var handled := ReceiveAuthorization(registry, intent, hasContext, lookup, json, activity, consentReceiver);
      handled.ConsentStarted? ==>
        intent.Some? && hasContext
        && intent.value.action == Some(BEGIN_AUTHORIZATION_STRING)
        && GetReceiver(intent.value.extras, RESPONSE_RECEIVER).Some?
        && HasHandshake(registry, handled.request.clientId)
        && AuthRequestFromIntent(intent.value) == Ok(Some(handled.request))
        && lookup(handled.request.clientId) == Answered(lookup(handled.request.clientId).client, None)
        && lookup(handled.request.clientId).client.Some?
        && handled.intent == ConsentIntent(json, activity, handled.request, consentReceiver)
  {
  }

  /**
   * The refusals of `onReceive`: a null context, an unknown action, and a
   * client without a registered handshake are each answered with
   * MalformedRequest (or crash without a result receiver).
   */
  lemma ReceiveRefusals(registry: Store, intent: Intent, hasContext: bool, lookup: string -> ClientAnswer,
                        json: ScopeJson, activity: ComponentName, consentReceiver: nat)
    ensures var handled := ReceiveAuthorization(registry, Some(intent), hasContext, lookup, json, activity, consentReceiver);
      var receiver := GetReceiver(intent.extras, RESPONSE_RECEIVER);
      (!hasContext ==> handled == Done(Refuse(receiver, CONTEXT_NULL)))
      && (hasContext && intent.action != Some(BEGIN_AUTHORIZATION_STRING) ==> handled == Done(Refuse(receiver, AUTH_ACTION_NOT_SUPPORTED)))
      && (hasContext && intent.action == Some(BEGIN_AUTHORIZATION_STRING) && GetString(intent.extras, CLIENT_ID).Some?
          && RegisteredHandshake(registry, GetString(intent.extras, CLIENT_ID).value) == Ok(None) ==>
            handled == Done(Refuse(receiver, UNPARSABLE_AUTH_REQUEST)))
  {
  }

  /** The intent that starts the consent screen opens it for the request's client and state, with the scopes offered. */
  lemma ConsentStartedOpensScreen(request: AuthRequest, lookup: string -> ClientAnswer, json: ScopeJson,
                                  activity: ComponentName, consentReceiver: nat)
    requires LawfulJson(json)
    requires BeginAuthorizationStep(request, lookup, json, activity, consentReceiver).ConsentStarted?
    ensures var started := BeginAuthorizationStep(request, lookup, json, activity, consentReceiver);
      var allowed := lookup(request.clientId).client.value.allowedScopes;
      OnCreate(json, started.intent.extras, lookup) ==
        Shown(ConsentScreen(request.clientId, request.state, consentReceiver,
          Some(Sections(ScopeSection(allowed, request.scopes, READ), ScopeSection(allowed, request.scopes, WRITE)))), [])
  {
    ConsentIntentOpensScreen(json, activity, request, consentReceiver, lookup);
  }

  /**
   * The whole path for an honest client: its request intent (with the SCOPES
   * list kind fixed) reaches the consent screen; confirming stores the
   * approved scopes and, when both tokens can be made, the client's receiver
   * gets the access token together with its own state back.
   */
  lemma HonestAuthorization(registry: Store, serverPackage: string, serviceClass: string, request: AuthRequest, receiver: nat,
                            lookup: string -> ClientAnswer, json: ScopeJson, activity: ComponentName, consentReceiver: nat,
                            approved: seq<AllowedScope>, tm: Tokens.TokenManager, now: int)
    requires Distinct(request.scopes) && NoDottedIdentifier(request.scopes) && NoDottedIdentifier(ScopeRequests(approved))
    requires HasHandshake(registry, request.clientId)
    requires lookup(request.clientId).Answered? && lookup(request.clientId).client.Some? && lookup(request.clientId).exception.None?
    requires LawfulJson(json)
    requires AccessToken(tm, request, now).Some? && RefreshToken(tm, request, now).Some?
    ensures var intent := AuthRequestIntent(serverPackage, serviceClass, request, receiver);
      ReceiveAuthorization(registry, Some(intent), true, lookup, json, activity, consentReceiver)
        == ConsentStarted(ConsentIntent(json, activity, request, consentReceiver), request)
    ensures var screen := ConsentScreen(request.clientId, request.state, consentReceiver, Some(Sections([], [])));
      var confirm := ConfirmReply(json, screen, approved);
      var (registry', outcome) := ConsentResultStep(registry, request, json, confirm.code, confirm.data, tm, now);
      ApprovedScopes(registry', request.clientId) == Ok(Some(Dedup(ScopeRequests(approved))))
      && outcome.Replied?
      && Dispatch(AuthResponseFromBundle, outcome.reply.code, outcome.reply.data)
           == OnSuccess(AuthResponse(AccessToken(tm, request, now).value, request.state))
  {
    var intent := AuthRequestIntent(serverPackage, serviceClass, request, receiver);
    AuthRequestRoundTrip(serverPackage, serviceClass, request, receiver);
    AuthActionRoundTrip(BEGIN_AUTHORIZATION, BEGIN_AUTHORIZATION_STRING);
    assert GetString(intent.extras, CLIENT_ID) == Some(request.clientId);
    assert ParsedAuthRequest(registry, intent) == Ok(Some(request));
    var screen := ConsentScreen(request.clientId, request.state, consentReceiver, Some(Sections([], [])));
    ButtonRepliesDispatch(json, screen, approved, CONFIRM_WITHOUT_LIST);
    var response := ConsentResponse(request.clientId, request.state, ScopeRequests(approved));
    ConsentedStoresScopesThenIssues(registry, request, response, tm, now);
    TokenReplyCases(registry, request, tm, now);
    AuthResponseRoundTrip(AuthResponse(AccessToken(tm, request, now).value, request.state));
  }

  /** The client's request intent as written (SCOPES as a string array) is refused even for a registered client. */
  lemma AsWrittenRequestRefused(registry: Store, serverPackage: string, serviceClass: string, request: AuthRequest, receiver: nat,
                                lookup: string -> ClientAnswer, json: ScopeJson, activity: ComponentName, consentReceiver: nat)
    requires HasHandshake(registry, request.clientId)
    ensures var intent := AuthRequestIntentAsWritten(serverPackage, serviceClass, request, receiver);
      ReceiveAuthorization(registry, Some(intent), true, lookup, json, activity, consentReceiver)
        == Done(Replied(ErrorReply(UNPARSABLE_AUTH_REQUEST)))
  {
    var intent := AuthRequestIntentAsWritten(serverPackage, serviceClass, request, receiver);
    AuthRequestAsWrittenNeverParses(serverPackage, serviceClass, request, receiver);
    assert GetString(intent.extras, CLIENT_ID) == Some(request.clientId);
    assert GetReceiver(intent.extras, RESPONSE_RECEIVER) == Some(receiver);
  }
}
