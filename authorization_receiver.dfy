/**
 * The server side of authorization (AuthorizationBroadcastReceiver). A
 * BEGIN_AUTHORIZATION intent from a client with a registered handshake is
 * parsed, the client is looked up, and the consent screen is started with a
 * result receiver whose callback, once the user answers, records or clears
 * the approved scopes and then issues an access token (one day) and a
 * refresh token (one year) to the client's result receiver.
 *
 * Handlers that change the client registry are methods proved equal to step
 * functions of the old registry; the properties are lemmas about the step
 * functions.
 */
module AuthorizationServer {
  import opened Wrappers
  import opened Errors
  import opened Bundles
  import opened Scopes
  import opened Sequences
  import opened KeyValue
  import opened ClientManagement
  import opened HandshakeWire
  import opened HandshakeServer
  import opened AuthorizationWire
  import Tokens
  import opened ConsentActivity

  /** Token lifetimes in seconds: `24 * 60 * 60` and `365 * oneDay`. */
  const ONE_DAY: int := 24 * 60 * 60
  const ONE_YEAR: int := 365 * ONE_DAY

  const CANNOT_GENERATE_TOKEN := TokenError("Cannot generate token")
  const HANDSHAKE_NOT_AVAILABLE := AuthMalformedResponse("Handshake not available")
  const CONTEXT_NULL := AuthMalformedRequest("Context Null")
  const UNPARSABLE_AUTH_REQUEST := AuthMalformedRequest("could not generate request from intent")
  const AUTH_ACTION_NOT_SUPPORTED := AuthMalformedRequest("Action not supported")

  // ---------------------------------------------------------------------------
  // generateTokensAndSendResponse

  /**
   * `generateTokensAndSendResponse` over the client registry: both tokens are
   * generated first, then the handshake is read (a reader exception escapes);
   * the OK bundle carries the access token and the request's state.
   */
  function TokenReply(registry: Store, request: AuthRequest, tm: Tokens.TokenManager, now: int): Outcome
  {
    var accessToken := Tokens.GenerateToken(tm, Tokens.ACCESS_TOKEN, request.clientId, ONE_DAY, now);
    var refreshToken := Tokens.GenerateToken(tm, Tokens.REFRESH_TOKEN, request.clientId, ONE_YEAR, now);
    if accessToken.None? || refreshToken.None? then Replied(ErrorReply(CANNOT_GENERATE_TOKEN))
    else
      match RegisteredHandshake(registry, request.clientId)
      case Err(e) => Crashed(e)
      case Ok(None) => Replied(ErrorReply(HANDSHAKE_NOT_AVAILABLE))
      case Ok(Some(_)) => Replied(Reply(RESULT_CODE_OK, AuthResponseToBundle(AuthResponse(accessToken.value, request.state))))
  }

  /** The companion function; it only reads the registry. */
  method GenerateTokensAndSendResponse(request: AuthRequest, clientManager: SampleClientManager, tm: Tokens.TokenManager, now: int)
    returns (outcome: Outcome)
    ensures outcome == TokenReply(clientManager.kv, request, tm, now)
  {
    var accessToken := Tokens.GenerateToken(tm, Tokens.ACCESS_TOKEN, request.clientId, ONE_DAY, now);
    var refreshToken := Tokens.GenerateToken(tm, Tokens.REFRESH_TOKEN, request.clientId, ONE_YEAR, now);
    if accessToken.None? || refreshToken.None? {
      return Replied(ErrorReply(CANNOT_GENERATE_TOKEN));
    }
    var response := AuthResponse(accessToken.value, request.state);
    var handshake := clientManager.GetClientHandshake(request.clientId);
    if handshake.Err? {
      return Crashed(handshake.error);
    }
    if handshake.value.None? {
      return Replied(ErrorReply(HANDSHAKE_NOT_AVAILABLE));
    }
    return Replied(Reply(RESULT_CODE_OK, AuthResponseToBundle(response)));
  }

  // ---------------------------------------------------------------------------
  // The consent callback

  /**
   * The callback object `handleBeginAuthorization` gives the consent screen's
   * result receiver, as a function of the registry: consent stores the
   * approved scopes (a List handed on as a Set) and issues tokens; cancel
   * clears them and still issues tokens; an error is passed on.
   */
  function ConsentStep(registry: Store, request: AuthRequest, delivery: ConsentDelivery, tm: Tokens.TokenManager, now: int): (Store, Outcome)
  {
    match delivery
    case Consented(response) =>
      var registry' := registry[ApprovedScopesKey(request.clientId) := StringList(ScopeStrings(Dedup(response.approvedScopes)))];
      (registry', TokenReply(registry', request, tm, now))
    case Canceled =>
      var registry' := registry - {ApprovedScopesKey(request.clientId)};
      (registry', TokenReply(registry', request, tm, now))
    case ConsentFailed(e) =>
      (registry, Replied(ErrorReply(e)))
  }

  /** The consent screen's reply arriving at its result receiver; a `fromJson` exception escapes there. */
  function ConsentResultStep(registry: Store, request: AuthRequest, json: ScopeJson, code: int, data: Bundle, tm: Tokens.TokenManager, now: int): (Store, Outcome)
  {
    match ConsentDispatch(json, code, data)
    case Err(e) => (registry, Crashed(e))
    case Ok(delivery) => ConsentStep(registry, request, delivery, tm, now)
  }

  class ConsentCallback {
    const request: AuthRequest
    const clientManager: SampleClientManager
    const tokenManager: Tokens.TokenManager

    constructor (request: AuthRequest, clientManager: SampleClientManager, tokenManager: Tokens.TokenManager)
      ensures this.request == request && this.clientManager == clientManager && this.tokenManager == tokenManager
    {
      this.request := request;
      this.clientManager := clientManager;
      this.tokenManager := tokenManager;
    }

    /** `ResponseReceiver.onReceiveResult` followed by the callback it selects. */
    method OnConsentResult(json: ScopeJson, code: int, data: Bundle, now: int) returns (outcome: Outcome)
      modifies clientManager
      ensures (clientManager.kv, outcome) == ConsentResultStep(old(clientManager.kv), request, json, code, data, tokenManager, now)
    {
      var delivery := ConsentDispatch(json, code, data);
      if delivery.Err? {
        return Crashed(delivery.error);
      }
      match delivery.value
      case Consented(response) =>
        clientManager.SetApprovedScopes(request.clientId, Dedup(response.approvedScopes));
        outcome := GenerateTokensAndSendResponse(request, clientManager, tokenManager, now);
      case Canceled =>
        clientManager.ClearApprovedScopes(request.clientId);
        outcome := GenerateTokensAndSendResponse(request, clientManager, tokenManager, now);
      case ConsentFailed(e) =>
        outcome := Replied(ErrorReply(e));
    }
  }

  // ---------------------------------------------------------------------------
  // handleBeginAuthorization and onReceive

  /** What handling an authorization intent leads to. */
  datatype Handled =
    | Done(outcome: Outcome)
    | ConsentStarted(intent: Intent, request: AuthRequest)  // `startActivity` with the consent screen's intent

  /**
   * `handleBeginAuthorization`: the lookup's exception or a missing client is
   * answered with an error; a found client starts the consent screen, whose
   * result receiver is `consentReceiver`.
   */
  function BeginAuthorizationStep(request: AuthRequest, lookup: string -> ClientAnswer, json: ScopeJson,
                                  activity: ComponentName, consentReceiver: nat): Handled
  {
    match lookup(request.clientId)
    case LookupThrew(e) => Done(Crashed(e))
    case Answered(client, exception) =>
      if exception.Some? then Done(Replied(ErrorReply(exception.value)))
      else if client.None? then Done(Replied(ErrorReply(UnknownClient(request.clientId))))
      else ConsentStarted(ConsentIntent(json, activity, request, consentReceiver), request)
  }

  /**
   * The request of a BEGIN_AUTHORIZATION intent: null without CLIENT_ID or
   * without a registered handshake for it, else `fromIntent`; exceptions from
   * the handshake reader or the scope parser escape.
   */
  function ParsedAuthRequest(registry: Store, intent: Intent): Result<Option<AuthRequest>, Exception>
  {
    match GetString(intent.extras, CLIENT_ID)
    case None => Ok(None)
    case Some(clientId) =>
      match RegisteredHandshake(registry, clientId)
      case Err(e) => Err(e)
      case Ok(None) => Ok(None)
      case Ok(Some(_)) => AuthRequestFromIntent(intent)
  }

  /**
   * `onReceive` as a function of the registry. `hasContext` is false when
   * Android passes a null context; every refusal needs the result receiver.
   */
  function ReceiveAuthorization(registry: Store, intent: Option<Intent>, hasContext: bool, lookup: string -> ClientAnswer,
                                json: ScopeJson, activity: ComponentName, consentReceiver: nat): Handled
  {
    if intent.None? then Done(NoReply)
    else
      var receiver := GetReceiver(intent.value.extras, RESPONSE_RECEIVER);
      if !hasContext then Done(Refuse(receiver, CONTEXT_NULL))
      else
        var action := if intent.value.action.Some? then AuthActionFromString(intent.value.action.value) else None;
        match action
        case None => Done(Refuse(receiver, AUTH_ACTION_NOT_SUPPORTED))
        case Some(BEGIN_AUTHORIZATION) =>
          match ParsedAuthRequest(registry, intent.value)
          case Err(e) => Done(Crashed(e))
          case Ok(None) => Done(Refuse(receiver, UNPARSABLE_AUTH_REQUEST))
          case Ok(Some(request)) =>
            if receiver.None? then Done(Crashed(NullPointer))
            else BeginAuthorizationStep(request, lookup, json, activity, consentReceiver)
  }

  class AuthorizationBroadcastReceiver {
    const clientManager: SampleClientManager
    const tokenManager: Tokens.TokenManager
    const json: ScopeJson
    const activity: ComponentName

    constructor (clientManager: SampleClientManager, tokenManager: Tokens.TokenManager, json: ScopeJson, activity: ComponentName)
      ensures this.clientManager == clientManager && this.tokenManager == tokenManager
      ensures this.json == json && this.activity == activity
    {
      this.clientManager := clientManager;
      this.tokenManager := tokenManager;
      this.json := json;
      this.activity := activity;
    }

    /** `onReceive`; it only reads the registry. */
    method OnReceive(intent: Option<Intent>, hasContext: bool, consentReceiver: nat) returns (handled: Handled)
      ensures handled == ReceiveAuthorization(clientManager.kv, intent, hasContext,
        id => SampleClientAnswer(clientManager.clientList, id), json, activity, consentReceiver)
    {
      if intent.None? {
        return Done(NoReply);
      }
      var authorizationIntent := intent.value;
      var receiver := GetReceiver(authorizationIntent.extras, RESPONSE_RECEIVER);
      if !hasContext {
        return Done(Refuse(receiver, CONTEXT_NULL));
      }
      var action := if authorizationIntent.action.Some? then AuthActionFromString(authorizationIntent.action.value) else None;
      if action.None? {
        return Done(Refuse(receiver, AUTH_ACTION_NOT_SUPPORTED));
      }
      var request: Result<Option<AuthRequest>, Exception> := Ok(None);
      var clientId := GetString(authorizationIntent.extras, CLIENT_ID);
      if clientId.Some? {
        var handshake := clientManager.GetClientHandshake(clientId.value);
        if handshake.Err? {
          request := Err(handshake.error);
        } else if handshake.value.Some? {
          request := AuthRequestFromIntent(authorizationIntent);
        }
      }
      if request.Err? {
        return Done(Crashed(request.error));
      }
      if request.value.None? {
        return Done(Refuse(receiver, UNPARSABLE_AUTH_REQUEST));
      }
      if receiver.None? {
        return Done(Crashed(NullPointer));
      }
      var r := request.value.value;
      var answer := SampleClientAnswer(clientManager.clientList, r.clientId);
      if answer.LookupThrew? {
        return Done(Crashed(answer.thrown));
      }
      if answer.exception.Some? {
        // The sample manager never hands its completion an exception.
        assert false;
      }
      if answer.client.None? {
        return Done(Replied(ErrorReply(UnknownClient(r.clientId))));
      }
      return ConsentStarted(ConsentIntent(json, activity, r, consentReceiver), r);
    }
  }
}
