/**
 * The authorization messages (common Authorization.kt): the action string,
 * the request intent a client sends, the token response, and the result
 * receiver, which dispatches exactly as the handshake receivers do.
 */
module AuthorizationWire {
  import opened Wrappers
  import opened Errors
  import opened Bundles
  import opened Scopes
  import opened Sequences
  import opened ClientManagement
  import opened HandshakeWire

  datatype AuthAction = BEGIN_AUTHORIZATION

  const BEGIN_AUTHORIZATION_STRING := "com.curiosityhealth.androidresourceserver.intent.action.BEGIN_AUTHORIZATION"

  function AuthActionString(a: AuthAction): string
  {
    BEGIN_AUTHORIZATION_STRING
  }

  function AuthActionFromString(s: string): (r: Option<AuthAction>)
  {
    if s == BEGIN_AUTHORIZATION_STRING then Some(BEGIN_AUTHORIZATION) else None
  }

  /** The one action round-trips, and no other string names an action. */
  lemma AuthActionRoundTrip(a: AuthAction, s: string)
    ensures AuthActionFromString(AuthActionString(a)) == Some(a)
    ensures s != AuthActionString(a) ==> AuthActionFromString(s) == None
  {
  }

  // Parameter names of REQUEST_PARAMS / RESPONSE_PARAMS (CLIENT_ID, STATE,
  // RESPONSE_RECEIVER and EXCEPTION are shared with the handshake messages).
  const SCOPES := "SCOPES"
  const INCLUDE_REFRESH_TOKEN := "INCLUDE_REFRESH_TOKEN"
  const TOKEN := "TOKEN"

  /** `Authorization.Request`; `scopes` is a Set, kept in iteration order without duplicates. */
  datatype AuthRequest = AuthRequest(clientId: string, state: int64, scopes: seq<ScopeRequest>, includeRefreshToken: bool)

  /**
   * `Request.fromIntent`: null without CLIENT_ID or without a string list
   * under SCOPES; a scope string that does not parse throws (`mapNotNull`
   * never sees a null); STATE defaults to 0 and INCLUDE_REFRESH_TOKEN to false.
   */
  function AuthRequestFromIntent(intent: Intent): (r: Result<Option<AuthRequest>, Exception>)
    ensures r.Ok? && r.value.Some? ==>
      GetString(intent.extras, CLIENT_ID) == Some(r.value.value.clientId)
      && GetStringArrayList(intent.extras, SCOPES).Some?
      && r.value.value.state == GetLong(intent.extras, STATE, 0)
      && r.value.value.includeRefreshToken == GetBoolean(intent.extras, INCLUDE_REFRESH_TOKEN, false)
      && Distinct(r.value.value.scopes)
    ensures GetString(intent.extras, CLIENT_ID).None? ==> r == Ok(None)
    ensures GetString(intent.extras, CLIENT_ID).Some? && GetStringArrayList(intent.extras, SCOPES).None? ==> r == Ok(None)
    ensures r.Err? ==> ParseScopeStrings(GetStringArrayList(intent.extras, SCOPES).value) == Err(r.error)
  {
    var x := intent.extras;
    match GetString(x, CLIENT_ID)
    case None => Ok(None)
    case Some(clientId) =>
      match GetStringArrayList(x, SCOPES)
      case None => Ok(None)
      case Some(items) =>
        match ParseScopeStrings(items)
        case Err(e) => Err(e)
        case Ok(scopes) =>
          Ok(Some(AuthRequest(clientId, GetLong(x, STATE, 0), Dedup(scopes), GetBoolean(x, INCLUDE_REFRESH_TOKEN, false))))
  }

  /** The extras of `requestIntent` with the SCOPES extra given. */
  function AuthRequestExtras(request: AuthRequest, scopes: Extra, receiver: nat): Bundle
  {
    map[CLIENT_ID := Str(request.clientId),
        STATE := Long(request.state),
        SCOPES := scopes,
        INCLUDE_REFRESH_TOKEN := Bool(request.includeRefreshToken),
        RESPONSE_RECEIVER := Receiver(receiver)]
  }

  /** `Request.requestIntent` as written: SCOPES is put as an Array<String>. */
  function AuthRequestIntentAsWritten(serverPackage: string, serviceClass: string, request: AuthRequest, receiver: nat): Intent
  {
    Intent(Some(AuthActionString(BEGIN_AUTHORIZATION)), Some(ComponentName(serverPackage, serviceClass)),
      AuthRequestExtras(request, StrArray(ScopeStrings(request.scopes)), receiver))
  }

  /**
   * Reading back what `requestIntent` wrote: the string array under SCOPES is
   * not a string ArrayList, so `fromIntent` answers null for every request.
   */
  lemma AuthRequestAsWrittenNeverParses(serverPackage: string, serviceClass: string, request: AuthRequest, receiver: nat)
    ensures AuthRequestFromIntent(AuthRequestIntentAsWritten(serverPackage, serviceClass, request, receiver)) == Ok(None)
  {
    var x := AuthRequestIntentAsWritten(serverPackage, serviceClass, request, receiver).extras;
    assert x[SCOPES].StrArray?;
  }

  /** `Request.requestIntent` with SCOPES put as the string ArrayList `fromIntent` reads. */
  function AuthRequestIntent(serverPackage: string, serviceClass: string, request: AuthRequest, receiver: nat): Intent
  {
    Intent(Some(AuthActionString(BEGIN_AUTHORIZATION)), Some(ComponentName(serverPackage, serviceClass)),
      AuthRequestExtras(request, StrList(ScopeStrings(request.scopes)), receiver))
  }

  /** With the list kind fixed, a request whose scopes are a set of undotted identifiers round-trips. */
  lemma AuthRequestRoundTrip(serverPackage: string, serviceClass: string, request: AuthRequest, receiver: nat)
    requires Distinct(request.scopes) && NoDottedIdentifier(request.scopes)
    ensures AuthRequestFromIntent(AuthRequestIntent(serverPackage, serviceClass, request, receiver)) == Ok(Some(request))
    ensures GetReceiver(AuthRequestIntent(serverPackage, serviceClass, request, receiver).extras, RESPONSE_RECEIVER) == Some(receiver)
  {
    var x := AuthRequestExtras(request, StrList(ScopeStrings(request.scopes)), receiver);
    assert GetString(x, CLIENT_ID) == Some(request.clientId);
    assert GetStringArrayList(x, SCOPES) == Some(ScopeStrings(request.scopes));
    assert GetLong(x, STATE, 0) == request.state;
    assert GetBoolean(x, INCLUDE_REFRESH_TOKEN, false) == request.includeRefreshToken;
    ReadRequestExtras(AuthRequestIntent(serverPackage, serviceClass, request, receiver), request);
  }

  lemma ReadRequestExtras(intent: Intent, request: AuthRequest)
    requires Distinct(request.scopes) && NoDottedIdentifier(request.scopes)
    requires GetString(intent.extras, CLIENT_ID) == Some(request.clientId)
    requires GetStringArrayList(intent.extras, SCOPES) == Some(ScopeStrings(request.scopes))
    requires GetLong(intent.extras, STATE, 0) == request.state
    requires GetBoolean(intent.extras, INCLUDE_REFRESH_TOKEN, false) == request.includeRefreshToken
    ensures AuthRequestFromIntent(intent) == Ok(Some(request))
  {
    ParseScopeStringsRoundTrip(request.scopes);
    DedupDistinct(request.scopes);
  }

  // ---------------------------------------------------------------------------
  // Response

  datatype AuthResponse = AuthResponse(token: string, state: int64)

  /** `Response.responseFromBundle`: null without TOKEN; STATE defaults to 0. */
  function AuthResponseFromBundle(b: Bundle): (r: Option<AuthResponse>)
    ensures r.Some? <==> GetString(b, TOKEN).Some?
    ensures r.Some? ==> r.value == AuthResponse(GetString(b, TOKEN).value, GetLong(b, STATE, 0))
  {
    match GetString(b, TOKEN)
    case None => None
    case Some(token) => Some(AuthResponse(token, GetLong(b, STATE, 0)))
  }

  function AuthResponseToBundle(r: AuthResponse): Bundle
  {
    map[TOKEN := Str(r.token), STATE := Long(r.state)]
  }

  lemma AuthResponseRoundTrip(r: AuthResponse)
    ensures AuthResponseFromBundle(AuthResponseToBundle(r)) == Some(r)
  {
  }

  /** An authorization reply is delivered by the shared receiver logic with this parser. */
  lemma AuthDispatchCases(code: int, data: Bundle, r: AuthResponse, e: Exception)
    ensures Dispatch(AuthResponseFromBundle, RESULT_CODE_OK, AuthResponseToBundle(r)) == OnSuccess(r)
    ensures code != RESULT_CODE_OK ==> Dispatch(AuthResponseFromBundle, code, ErrorBundle(e)) == OnError(e)
    ensures GetString(data, TOKEN).None? ==> Dispatch(AuthResponseFromBundle, RESULT_CODE_OK, data) == OnError(MALFORMED_RESPONSE)
  {
    AuthResponseRoundTrip(r);
  }
}
