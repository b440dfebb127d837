/**
 * The resource server's read API (APIView.kt). A view answers a request in
 * four stages: authenticate the caller, convert the request parameters,
 * check permissions, fetch and serialise the objects. Each refusal stage has
 * its own exception class and status code (401, 400, 403); success is 200
 * with one JSON string per object. Any other exception thrown by a stage is
 * not caught and escapes `handleRequest` without a response.
 *
 * Authentication runs inside an RxJava `Single` read with `blockingGet`,
 * which rethrows a checked exception wrapped in a RuntimeException. The
 * AuthorizationFailed a delegate reports therefore never reaches the catch
 * meant for it: as written, `handleRequest` never answers 401, and the
 * wrapped exception escapes. `HandleRequestIntended` is the version whose
 * catch looks through the wrapper.
 *
 * A view's stages are its delegates and overrides, passed as functions.
 */
module ApiViews {
  import opened Wrappers
  import opened Errors
  import Tokens

  /** An `android.net.Uri`: its authority, its decoded path segments and its query parameters. */
  datatype Uri = Uri(authority: string, pathSegments: seq<string>, query: map<string, string>)

  /** `lastPathSegment`: null for a URI without a path. */
  function LastPathSegment(uri: Uri): (r: Option<string>)
    ensures r.Some? <==> uri.pathSegments != []
    ensures r.Some? ==> r.value == uri.pathSegments[|uri.pathSegments| - 1]
  {
    if uri.pathSegments == [] then None else Some(uri.pathSegments[|uri.pathSegments| - 1])
  }

  /** `getQueryParameter(name)`: null when the URI has no such parameter. */
  function QueryParameter(uri: Uri, name: string): (r: Option<string>)
    ensures r.Some? <==> name in uri.query
    ensures r.Some? ==> r.value == uri.query[name]
  {
    if name in uri.query then Some(uri.query[name]) else None
  }

  /** What a client sends with a content request: its token, and parameters as JSON. */
  datatype ResourceServerRequest = ResourceServerRequest(token: Option<string>, parametersJson: Option<string>)

  /** `APIViewAuthenticationResult`: the decoded token and the client it names. */
  datatype AuthResult<C> = AuthResult(token: Option<Tokens.Jwt>, client: Option<C>)

  datatype ApiRequest<C, P> = ApiRequest(uri: Uri, auth: Option<AuthResult<C>>, parameters: Option<P>)

  datatype ApiResponse = ApiResponse(code: int, jsonStrings: Option<seq<string>>, exception: Option<Exception>)

  /**
   * What an authentication delegate does: it calls its completion with an
   * optional result and an optional error, or it throws before doing so.
   */
  datatype AuthAnswer<C> =
    | AuthCompleted(auth: Option<AuthResult<C>>, error: Option<Exception>)
    | AuthThrew(thrown: Exception)

  /**
   * A `GenericReadAPIView`: its authentication delegate, `convertParameters`,
   * its permissions delegate (Some(e) when it throws e), `getObjects` and
   * `serialize`.
   */
  datatype ApiView<!C, !P, !O> = ApiView(
    authenticate: ResourceServerRequest -> AuthAnswer<C>,
    convertParameters: ResourceServerRequest -> Result<Option<P>, Exception>,
    checkPermissions: ApiRequest<C, P> -> Option<Exception>,
    getObjects: ApiRequest<C, P> -> Result<seq<O>, Exception>,
    serialize: O -> string)

  /** How `handleRequest` ends: its completion is called with one response, or an exception escapes it. */
  datatype Handling = Completed(response: ApiResponse) | Escaped(exception: Exception)

  const CODE_OK := 200
  const CODE_MALFORMED_REQUEST := 400
  const CODE_AUTHORIZATION_FAILED := 401
  const CODE_INSUFFICIENT_PERMISSIONS := 403

  /** The four codes `handleRequest` answers with. */
  predicate KnownCode(code: int)
  {
    code in {CODE_OK, CODE_MALFORMED_REQUEST, CODE_AUTHORIZATION_FAILED, CODE_INSUFFICIENT_PERMISSIONS}
  }

  // ---------------------------------------------------------------------------
  // The default delegates

  /** `DefaultAuthenticationDelegate`: completes with neither a result nor an error. */
  function DefaultAuthenticate<C>(request: ResourceServerRequest): (a: AuthAnswer<C>)
    ensures a.AuthCompleted? && a.auth.None? && a.error.None?
  {
    AuthCompleted(None, None)
  }

  /** `DefaultPermissionsDelegate`: accepts every request. */
  function DefaultCheckPermissions<C, P>(request: ApiRequest<C, P>): (thrown: Option<Exception>)
    ensures thrown.None?
  {
    None
  }

  // ---------------------------------------------------------------------------
  // handleRequest

  /** The error a delegate signals: the one it throws (which `Single.create` passes on) or the one it completes with. */
  function AuthError<C>(answer: AuthAnswer<C>): Option<Exception>
  {
    match answer
    case AuthThrew(e) => Some(e)
    case AuthCompleted(_, error) => error
  }

  /**
   * The authentication as `blockingGet` delivers it: a signalled error is
   * raised, wrapped in a RuntimeException unless it is one, and otherwise
   * the result, which may be empty.
   */
  function Authenticated<C>(answer: AuthAnswer<C>): (r: Result<Option<AuthResult<C>>, Exception>)
    ensures r.Err? <==> answer.AuthThrew? || answer.error.Some?
    ensures r.Err? ==> r.error == BlockingGetRaised(if answer.AuthThrew? then answer.thrown else answer.error.value)
    ensures r.Err? ==> IsUnchecked(r.error) && !r.error.ApiAuthorizationFailed?
    ensures r.Ok? ==> r.value == answer.auth
  {
    match AuthError(answer)
    case Some(e) => Err(BlockingGetRaised(e))
    case None => Ok(answer.auth)
  }

  /** `objects.map { serialize(it) }` */
  function SerializeAll<O>(serialize: O -> string, objects: seq<O>): (r: seq<string>)
    ensures |r| == |objects|
    ensures forall i :: 0 <= i < |objects| ==> r[i] == serialize(objects[i])
  {
    if objects == [] then [] else [serialize(objects[0])] + SerializeAll(serialize, objects[1..])
  }

  /** Everything `handleRequest` does once the caller is authenticated as `auth`. */
  function AfterAuthentication<C, P, O>(view: ApiView<C, P, O>, uri: Uri, request: ResourceServerRequest,
                                        auth: Option<AuthResult<C>>): Handling
  {
    match view.convertParameters(request)
    case Err(e) =>
      if e.ApiMalformedRequest? then Completed(ApiResponse(CODE_MALFORMED_REQUEST, None, Some(e))) else Escaped(e)
    case Ok(parameters) =>
      var apiRequest := ApiRequest(uri, auth, parameters);
      match view.checkPermissions(apiRequest)
      case Some(e) =>
        if e.ApiInsufficientPermissions? then Completed(ApiResponse(CODE_INSUFFICIENT_PERMISSIONS, None, Some(e))) else Escaped(e)
      case None =>
        match view.getObjects(apiRequest)
        case Err(e) => Escaped(e)
        case Ok(objects) => Completed(ApiResponse(CODE_OK, Some(SerializeAll(view.serialize, objects)), None))
  }

  /**
   * `GenericReadAPIView.handleRequest`, as written. A response carries a
   * body exactly when it is a 200, and an exception exactly when it is a
   * refusal; the exception's class is the one its code stands for. The
   * catch for AuthorizationFailed never matches what `blockingGet` throws,
   * so no response is a 401.
   */
  function HandleRequest<C, P, O>(view: ApiView<C, P, O>, uri: Uri, request: ResourceServerRequest): (h: Handling)
    ensures h.Completed? ==> KnownCode(h.response.code) && h.response.code != CODE_AUTHORIZATION_FAILED
    ensures h.Completed? ==> (h.response.code == CODE_OK <==> h.response.exception.None?)
    ensures h.Completed? ==> (h.response.code == CODE_OK <==> h.response.jsonStrings.Some?)
    ensures h.Completed? && h.response.code == CODE_MALFORMED_REQUEST ==> h.response.exception.value.ApiMalformedRequest?
    ensures h.Completed? && h.response.code == CODE_INSUFFICIENT_PERMISSIONS ==> h.response.exception.value.ApiInsufficientPermissions?
  {
    match Authenticated(view.authenticate(request))
    case Err(e) =>
      if e.ApiAuthorizationFailed? then Completed(ApiResponse(CODE_AUTHORIZATION_FAILED, None, Some(e))) else Escaped(e)
    case Ok(auth) => AfterAuthentication(view, uri, request, auth)
  }

  /**
   * `handleRequest` with the catch it evidently intends, one that looks
   * through the wrapper `blockingGet` adds: an AuthorizationFailed signalled
   * by authentication is answered 401 carrying it; any other authentication error escapes as `blockingGet`
   * raised it. The later stages are those of `HandleRequest`.
   */
  function HandleRequestIntended<C, P, O>(view: ApiView<C, P, O>, uri: Uri, request: ResourceServerRequest): (h: Handling)
    ensures h.Completed? ==> KnownCode(h.response.code)
    ensures h.Completed? ==> (h.response.code == CODE_OK <==> h.response.exception.None?)
    ensures h.Completed? ==> (h.response.code == CODE_OK <==> h.response.jsonStrings.Some?)
    ensures h.Completed? && h.response.code == CODE_AUTHORIZATION_FAILED ==>
      h.response.exception.value.ApiAuthorizationFailed? && AuthError(view.authenticate(request)) == h.response.exception
    ensures h.Completed? && h.response.code == CODE_MALFORMED_REQUEST ==> h.response.exception.value.ApiMalformedRequest?
    ensures h.Completed? && h.response.code == CODE_INSUFFICIENT_PERMISSIONS ==> h.response.exception.value.ApiInsufficientPermissions?
  {
    match Authenticated(view.authenticate(request))
    case Err(e) =>
      var signalled := AuthError(view.authenticate(request)).value;
      if signalled.ApiAuthorizationFailed? then Completed(ApiResponse(CODE_AUTHORIZATION_FAILED, None, Some(signalled))) else Escaped(e)
    case Ok(auth) => AfterAuthentication(view, uri, request, auth)
  }

  // ---------------------------------------------------------------------------
  // ReadAPIView

  /**
   * `ReadAPIView.getObjects` over its `getObject`: the identifier is the
   * last path segment, and a URI without one is a malformed request.
   */
  function ReadGetObjects<C, P, O>(getObject: (string, ApiRequest<C, P>) -> Result<O, Exception>,
                                   request: ApiRequest<C, P>): (r: Result<seq<O>, Exception>)
    ensures LastPathSegment(request.uri).None? ==> r == Err(ApiMalformedRequest("unknown identifier"))
    ensures LastPathSegment(request.uri).Some? ==>
      match getObject(LastPathSegment(request.uri).value, request)
      case Ok(o) => r == Ok([o])
      case Err(e) => r == Err(e)
  {
    match LastPathSegment(request.uri)
    case None => Err(ApiMalformedRequest("unknown identifier"))
    case Some(identifier) =>
      match getObject(identifier, request)
      case Err(e) => Err(e)
      case Ok(o) => Ok([o])
  }

  /** A `ReadAPIView`: `getObjects` is the one above. */
  function ReadView<C, P, O>(authenticate: ResourceServerRequest -> AuthAnswer<C>,
                             convertParameters: ResourceServerRequest -> Result<Option<P>, Exception>,
                             checkPermissions: ApiRequest<C, P> -> Option<Exception>,
                             getObject: (string, ApiRequest<C, P>) -> Result<O, Exception>,
                             serialize: O -> string): ApiView<C, P, O>
  {
    ApiView(authenticate, convertParameters, checkPermissions, r => ReadGetObjects(getObject, r), serialize)
  }

  // ---------------------------------------------------------------------------
  // Properties

  /**
   * Authentication comes first: as written, every error it signals escapes
   * as `blockingGet` raised it, an AuthorizationFailed wrapped in a
   * RuntimeException, and no later stage is consulted (replacing them
   * changes nothing).
   */
  lemma AuthenticationFailureStopsPipeline<C, P, O>(view: ApiView<C, P, O>, other: ApiView<C, P, O>, uri: Uri, request: ResourceServerRequest)
    requires AuthError(view.authenticate(request)).Some?
    ensures var e := AuthError(view.authenticate(request)).value;
      HandleRequest(view, uri, request) == Escaped(BlockingGetRaised(e))
    ensures var e := AuthError(view.authenticate(request)).value;
      e.ApiAuthorizationFailed? ==> HandleRequest(view, uri, request) == Escaped(RuntimeWrapper(e))
    ensures HandleRequest(view, uri, request) == HandleRequest(other.(authenticate := view.authenticate), uri, request)
  {
  }

  /**
   * The intended catch: an AuthorizationFailed from authentication is
   * answered 401 carrying it, any other error escapes as `blockingGet`
   * raised it, and no later stage is consulted.
   */
  lemma IntendedAuthenticationFailure<C, P, O>(view: ApiView<C, P, O>, other: ApiView<C, P, O>, uri: Uri, request: ResourceServerRequest)
    requires AuthError(view.authenticate(request)).Some?
    ensures var e := AuthError(view.authenticate(request)).value;
      HandleRequestIntended(view, uri, request) ==
        if e.ApiAuthorizationFailed? then Completed(ApiResponse(401, None, Some(e))) else Escaped(BlockingGetRaised(e))
    ensures HandleRequestIntended(view, uri, request) == HandleRequestIntended(other.(authenticate := view.authenticate), uri, request)
  {
  }

  /**
   * The two versions of `handleRequest` part only on an AuthorizationFailed
   * from authentication: the written one lets it escape wrapped where the
   * intended one answers 401.
   */
  lemma AuthorizationFailedEscapesWrapped<C, P, O>(view: ApiView<C, P, O>, uri: Uri, request: ResourceServerRequest)
    ensures var e := AuthError(view.authenticate(request));
      if e.Some? && e.value.ApiAuthorizationFailed? then
        HandleRequest(view, uri, request) == Escaped(RuntimeWrapper(e.value))
        && HandleRequestIntended(view, uri, request) == Completed(ApiResponse(401, None, e))
      else HandleRequest(view, uri, request) == HandleRequestIntended(view, uri, request)
  {
  }

  /** An authentication that completes with neither result nor error goes on with no caller. */
  lemma EmptyAuthenticationProceeds<C, P, O>(view: ApiView<C, P, O>, uri: Uri, request: ResourceServerRequest)
    requires view.authenticate(request) == AuthCompleted(None, None)
    ensures HandleRequest(view, uri, request) == AfterAuthentication(view, uri, request, None)
  {
  }

  /**
   * Parameters come second: a MalformedRequest is answered with 400 carrying
   * it, any other exception escapes, and neither the permission check nor
   * `getObjects` is consulted.
   */
  lemma ParameterFailureStopsPipeline<C, P, O>(view: ApiView<C, P, O>, other: ApiView<C, P, O>, uri: Uri, request: ResourceServerRequest)
    requires Authenticated(view.authenticate(request)).Ok?
    requires view.convertParameters(request).Err?
    ensures var e := view.convertParameters(request).error;
      HandleRequest(view, uri, request) ==
        if e.ApiMalformedRequest? then Completed(ApiResponse(400, None, Some(e))) else Escaped(e)
    ensures HandleRequest(view, uri, request) ==
      HandleRequest(other.(authenticate := view.authenticate, convertParameters := view.convertParameters), uri, request)
  {
  }

  /**
   * Permissions come third, on the request built from the URI, the caller
   * and the parameters: InsufficientPermissions is answered with 403
   * carrying it, and `getObjects` is not consulted.
   */
  lemma PermissionFailureStopsPipeline<C, P, O>(view: ApiView<C, P, O>, uri: Uri, request: ResourceServerRequest,
                                               getObjects: ApiRequest<C, P> -> Result<seq<O>, Exception>)
    requires Authenticated(view.authenticate(request)).Ok?
    requires view.convertParameters(request).Ok?
    requires var apiRequest := ApiRequest(uri, Authenticated(view.authenticate(request)).value, view.convertParameters(request).value);
      view.checkPermissions(apiRequest).Some?
    ensures var apiRequest := ApiRequest(uri, Authenticated(view.authenticate(request)).value, view.convertParameters(request).value);
      var e := view.checkPermissions(apiRequest).value;
      HandleRequest(view, uri, request) ==
        if e.ApiInsufficientPermissions? then Completed(ApiResponse(403, None, Some(e))) else Escaped(e)
    ensures HandleRequest(view, uri, request) == HandleRequest(view.(getObjects := getObjects), uri, request)
  {
  }

  /**
   * A 200 is given exactly when every stage passes; its body is one
   * serialised string per object, in `getObjects` order, and it carries no
   * exception.
   */
  lemma SuccessExactly<C, P, O>(view: ApiView<C, P, O>, uri: Uri, request: ResourceServerRequest)
    ensures var h := HandleRequest(view, uri, request);
      (h.Completed? && h.response.code == 200) <==>
        (Authenticated(view.authenticate(request)).Ok? && view.convertParameters(request).Ok?
         && var apiRequest := ApiRequest(uri, Authenticated(view.authenticate(request)).value, view.convertParameters(request).value);
            view.checkPermissions(apiRequest).None? && view.getObjects(apiRequest).Ok?)
    ensures var h := HandleRequest(view, uri, request);
      h.Completed? && h.response.code == 200 ==>
        var apiRequest := ApiRequest(uri, Authenticated(view.authenticate(request)).value, view.convertParameters(request).value);
        var objects := view.getObjects(apiRequest).value;
        h.response.exception.None? && h.response.jsonStrings.Some?
        && |h.response.jsonStrings.value| == |objects|
        && forall i :: 0 <= i < |objects| ==> h.response.jsonStrings.value[i] == view.serialize(objects[i])
  {
  }

  /**
   * An exception escapes only when a stage throws one that stage does not
   * catch: it is the first failing stage's exception, and not the class that
   * stage answers for. Authentication's is always a RuntimeException, its
   * AuthorizationFailed wrapped in one. Nothing escapes once every stage
   * before `getObjects` passed, unless `getObjects` throws.
   */
  lemma EscapesOnlyUncaught<C, P, O>(view: ApiView<C, P, O>, uri: Uri, request: ResourceServerRequest)
    requires HandleRequest(view, uri, request).Escaped?
    ensures var e := HandleRequest(view, uri, request).exception;
      var auth := Authenticated(view.authenticate(request));
      var parameters := view.convertParameters(request);
      (auth.Err? ==> auth.error == e && IsUnchecked(e)
                     && (AuthError(view.authenticate(request)).value.ApiAuthorizationFailed? ==>
                           e == RuntimeWrapper(AuthError(view.authenticate(request)).value)))
      && (auth.Ok? && parameters.Err? ==> parameters.error == e && !e.ApiMalformedRequest?)
      && (auth.Ok? && parameters.Ok? ==>
            var apiRequest := ApiRequest(uri, auth.value, parameters.value);
            if view.checkPermissions(apiRequest).Some?
            then view.checkPermissions(apiRequest).value == e && !e.ApiInsufficientPermissions?
            else view.getObjects(apiRequest) == Err(e))
  {
  }

  /**
   * With both default delegates the request reaches `getObjects` with no
   * caller: such a view never answers 401 or 403.
   */
  lemma DefaultDelegatesNeverRefuse<C, P, O>(view: ApiView<C, P, O>, uri: Uri, request: ResourceServerRequest)
    requires view.authenticate == DefaultAuthenticate<C> && view.checkPermissions == DefaultCheckPermissions<C, P>
    ensures var h := HandleRequest(view, uri, request);
      h.Completed? ==> h.response.code != 401 && h.response.code != 403
    ensures view.convertParameters(request).Ok? ==>
      HandleRequest(view, uri, request) ==
        match view.getObjects(ApiRequest(uri, None, view.convertParameters(request).value))
        case Err(e) => Escaped(e)
        case Ok(objects) => Completed(ApiResponse(200, Some(SerializeAll(view.serialize, objects)), None))
  {
  }

  /**
   * A ReadAPIView on a URI without a path segment throws MalformedRequest
   * from `getObjects`, where `handleRequest` does not catch it: the
   * exception escapes instead of becoming a 400.
   */
  lemma ReadViewWithoutIdentifierEscapes<C, P, O>(authenticate: ResourceServerRequest -> AuthAnswer<C>,
                                                convertParameters: ResourceServerRequest -> Result<Option<P>, Exception>,
                                                checkPermissions: ApiRequest<C, P> -> Option<Exception>,
                                                getObject: (string, ApiRequest<C, P>) -> Result<O, Exception>,
                                                serialize: O -> string, uri: Uri, request: ResourceServerRequest)
    requires uri.pathSegments == []
    requires Authenticated(authenticate(request)).Ok? && convertParameters(request).Ok?
    requires checkPermissions(ApiRequest(uri, Authenticated(authenticate(request)).value, convertParameters(request).value)).None?
    ensures HandleRequest(ReadView(authenticate, convertParameters, checkPermissions, getObject, serialize), uri, request)
      == Escaped(ApiMalformedRequest("unknown identifier"))
  {
  }

  /** A ReadAPIView whose stages pass answers 200 with exactly one string, the serialised object its identifier names. */
  lemma ReadViewAnswersOneObject<C, P, O>(authenticate: ResourceServerRequest -> AuthAnswer<C>,
                                        convertParameters: ResourceServerRequest -> Result<Option<P>, Exception>,
                                        checkPermissions: ApiRequest<C, P> -> Option<Exception>,
                                        getObject: (string, ApiRequest<C, P>) -> Result<O, Exception>,
                                        serialize: O -> string, uri: Uri, request: ResourceServerRequest)
    requires uri.pathSegments != []
    requires Authenticated(authenticate(request)).Ok? && convertParameters(request).Ok?
    requires var apiRequest := ApiRequest(uri, Authenticated(authenticate(request)).value, convertParameters(request).value);
      checkPermissions(apiRequest).None? && getObject(uri.pathSegments[|uri.pathSegments| - 1], apiRequest).Ok?
    ensures var apiRequest := ApiRequest(uri, Authenticated(authenticate(request)).value, convertParameters(request).value);
      HandleRequest(ReadView(authenticate, convertParameters, checkPermissions, getObject, serialize), uri, request)
      == Completed(ApiResponse(200, Some([serialize(getObject(uri.pathSegments[|uri.pathSegments| - 1], apiRequest).value)]), None))
  {
    var apiRequest := ApiRequest(uri, Authenticated(authenticate(request)).value, convertParameters(request).value);
    var o := getObject(uri.pathSegments[|uri.pathSegments| - 1], apiRequest).value;
    assert SerializeAll(serialize, [o]) == [serialize(o)];
  }
}
