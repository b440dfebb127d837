/**
 * The sample content provider (SampleContentProvider.kt). A client queries a
 * content URI carrying its client id, its access token encrypted to the
 * server's public encryption key (context: the client id) and that
 * ciphertext's signature under its own signing key, both Base64. The
 * provider recovers the token, hands the request to the API view registered
 * for the URI, and returns a cursor with one row per JSON string of the
 * response: the string encrypted to the client's public encryption key
 * (context: the client id) and signed with the server's private signing key.
 *
 * The provider's collaborators are fields: the client manager, the token
 * manager, Base64 and byte-to-string decoding, and the view's JSON adapter.
 */
module ContentProvider {
  import opened Wrappers
  import opened Errors
  import opened Crypto
  import opened Scopes
  import opened KeyValue
  import opened ClientManagement
  import opened ApiViews
  import opened SampleApi
  import opened SampleTokens
  import Tokens

  // ---------------------------------------------------------------------------
  // Collaborators

  /** `android.util.Base64` and `String(bytes)`. */
  datatype Codec = Codec(base64Encode: Blob -> string, base64Decode: string -> Option<Blob>, bytesToString: Blob -> string)

  /** Base64 decoding undoes encoding, and the bytes of a string decode to it. */
  ghost predicate LawfulCodec(codec: Codec)
  {
    (forall b :: codec.base64Decode(codec.base64Encode(b)) == Some(b))
    && (forall s :: codec.bytesToString(Text(s)) == s)
  }

  const CLIENT_ID_PARAMETER := "client_id"
  const TOKEN_PARAMETER := "token"
  const TOKEN_SIGNATURE_PARAMETER := "token_signature"

  const AUTHORITY := "com.curiosityhealth.androidresourceserver.resourceserversampleapp.samplecontentprovider"

  /** A `UriMatcher` with one literal path registered under `authority`. */
  predicate PathMatches(authority: string, path: string, uri: Uri)
  {
    uri.authority == authority && uri.pathSegments == Split(path, '/')
  }

  // ---------------------------------------------------------------------------
  // SampleContentRequestHandler1 and 2

  /** `SampleContentResponseItem2`; the sample constructs it with integers. */
  datatype SampleItem2 = SampleItem2(identifier: string, sampleInt: int)

  datatype ContentResponse = ContentResponse(jsonStrings: seq<string>)

  /** A `ContentRequestHandler` subclass: the authority and path it answers, and which sample it is. */
  datatype ContentHandler = SampleHandler1(authority: string, path: string) | SampleHandler2(authority: string, path: string)

  function HandlerScope(handler: ContentHandler): ScopeRequest
  {
    match handler
    case SampleHandler1(_, _) => ScopeRequest("sample_scope_1", READ)
    case SampleHandler2(_, _) => ScopeRequest("sample_scope_2", READ)
  }

  /** The handler's items as JSON, in order; the adapters are Moshi's. */
  function HandlerItems(handler: ContentHandler, json1: SampleItem1 -> string, json2: SampleItem2 -> string): seq<string>
  {
    match handler
    case SampleHandler1(_, _) => [json1(SampleItem1("item 1", "data 1")), json1(SampleItem1("item 2", "data 2"))]
    case SampleHandler2(_, _) => [json2(SampleItem2("item 1", 1)), json2(SampleItem2("item 2", 2))]
  }

  predicate HandlerMatches(handler: ContentHandler, uri: Uri)
  {
    PathMatches(handler.authority, handler.path, uri)
  }

  /**
   * `handleContentRequest`: a client without the handler's scope approved
   * for reading gets an empty response rather than an error; an exception
   * reading the approved scopes escapes.
   */
  function HandleContentRequest(registry: Store, handler: ContentHandler, clientId: string,
                                json1: SampleItem1 -> string, json2: SampleItem2 -> string): (r: Result<ContentResponse, Exception>)
    ensures ApprovedScopes(registry, clientId).Err? <==> r.Err?
    ensures r.Err? ==> r.error == ApprovedScopes(registry, clientId).error
    ensures r.Ok? ==> r.value.jsonStrings == [] || r.value.jsonStrings == HandlerItems(handler, json1, json2)
  {
    match ApprovedScopes(registry, clientId)
    case Err(e) => Err(e)
    case Ok(None) => Ok(ContentResponse([]))
    case Ok(Some(approved)) =>
      if HandlerScope(handler) !in approved then Ok(ContentResponse([]))
      else Ok(ContentResponse(HandlerItems(handler, json1, json2)))
  }

  // ---------------------------------------------------------------------------
  // getTokenString

  /**
   * `getTokenString`: null when the token or its signature is missing or
   * the client has no registered handshake; a malformed Base64 string, a
   * signature that does not verify and a ciphertext that does not decrypt
   * throw. Each Base64 string is decoded as soon as it is read.
   */
  function TokenString(registry: Store, codec: Codec, uri: Uri, clientId: string): (r: Result<Option<string>, Exception>)
    ensures QueryParameter(uri, TOKEN_PARAMETER).None? ==> r == Ok(None)
    ensures r.Ok? && r.value.Some? ==>
      QueryParameter(uri, TOKEN_PARAMETER).Some? && QueryParameter(uri, TOKEN_SIGNATURE_PARAMETER).Some?
      && var encrypted := codec.base64Decode(QueryParameter(uri, TOKEN_PARAMETER).value);
      var signature := codec.base64Decode(QueryParameter(uri, TOKEN_SIGNATURE_PARAMETER).value);
      var h := RegisteredHandshake(registry, clientId);
      encrypted.Some? && signature.Some? && h.Ok? && h.value.Some?
      && Verify(h.value.value.clientPublicSigningKey, signature.value, encrypted.value).Ok?
      && Decrypt(h.value.value.serverPrivateEncryptionKey, encrypted.value, Text(clientId)).Ok?
      && r.value.value == codec.bytesToString(Decrypt(h.value.value.serverPrivateEncryptionKey, encrypted.value, Text(clientId)).value)
  {
    match QueryParameter(uri, TOKEN_PARAMETER)
    case None => Ok(None)
    case Some(base64Token) =>
      match codec.base64Decode(base64Token)
      case None => Err(IllegalArgument)
      case Some(encrypted) =>
        match QueryParameter(uri, TOKEN_SIGNATURE_PARAMETER)
        case None => Ok(None)
        case Some(base64Signature) =>
          match codec.base64Decode(base64Signature)
          case None => Err(IllegalArgument)
          case Some(signature) =>
            match RegisteredHandshake(registry, clientId)
            case Err(e) => Err(e)
            case Ok(None) => Ok(None)
            case Ok(Some(h)) =>
              match Verify(h.clientPublicSigningKey, signature, encrypted)
              case Err(e) => Err(e)
              case Ok(_) =>
                match Decrypt(h.serverPrivateEncryptionKey, encrypted, Text(clientId))
                case Err(e) => Err(e)
                case Ok(plain) => Ok(Some(codec.bytesToString(plain)))
  }

  // ---------------------------------------------------------------------------
  // generateCursor

  const CURSOR_COLUMNS: seq<string> := ["encrypted_data", "signature"]

  /** A cursor row: the values of the two columns. */
  datatype Row = Row(encryptedData: Blob, signature: Blob)

  /** The row of one JSON string: encrypted for the client with its id as context, then signed by the server. */
  function EncryptedRow(h: ClientHandshake, clientId: string, json: string): (r: Result<Row, Exception>)
    ensures r.Ok? <==>
      Encrypt(h.clientPublicEncryptionKey, Text(json), Text(clientId)).Ok?
      && Sign(h.serverPrivateSigningKey, Encrypt(h.clientPublicEncryptionKey, Text(json), Text(clientId)).value).Ok?
    ensures r.Ok? ==>
      r.value.encryptedData == Encrypt(h.clientPublicEncryptionKey, Text(json), Text(clientId)).value
      && r.value.signature == Sign(h.serverPrivateSigningKey, r.value.encryptedData).value
  {
    match Encrypt(h.clientPublicEncryptionKey, Text(json), Text(clientId))
    case Err(e) => Err(e)
    case Ok(encrypted) =>
      match Sign(h.serverPrivateSigningKey, encrypted)
      case Err(e) => Err(e)
      case Ok(signature) => Ok(Row(encrypted, signature))
  }

  /** The rows of a list of JSON strings, in order; the first string that cannot be encrypted or signed throws. */
  function EncryptedRows(h: ClientHandshake, clientId: string, strings: seq<string>): (r: Result<seq<Row>, Exception>)
    ensures r.Ok? <==> forall i :: 0 <= i < |strings| ==> EncryptedRow(h, clientId, strings[i]).Ok?
    ensures r.Ok? ==> |r.value| == |strings|
    ensures r.Ok? ==> forall i :: 0 <= i < |strings| ==> EncryptedRow(h, clientId, strings[i]) == Ok(r.value[i])
  {
    if strings == [] then Ok([])
    else
      var init := strings[..|strings| - 1];
      assert forall i :: 0 <= i < |init| ==> init[i] == strings[i];
      match EncryptedRows(h, clientId, init)
      case Err(e) => Err(e)
      case Ok(rows) =>
        match EncryptedRow(h, clientId, strings[|strings| - 1])
        case Err(e) => Err(e)
        case Ok(row) => Ok(rows + [row])
  }

  /** The JSON strings of a response; none when `JSONStrings` is null. */
  function ResponseStrings(response: ApiResponse): seq<string>
  {
    if response.jsonStrings.Some? then response.jsonStrings.value else []
  }

  /**
   * `generateCursor`: null when the client has no registered handshake;
   * otherwise one row per JSON string of the response, in order.
   */
  function GeneratedCursor(registry: Store, clientId: string, response: ApiResponse): (r: Result<Option<seq<Row>>, Exception>)
    ensures r.Ok? && r.value.None? <==> RegisteredHandshake(registry, clientId) == Ok(None)
    ensures r.Ok? && r.value.Some? ==> |r.value.value| == |ResponseStrings(response)|
  {
    match RegisteredHandshake(registry, clientId)
    case Err(e) => Err(e)
    case Ok(None) => Ok(None)
    case Ok(Some(h)) =>
      match EncryptedRows(h, clientId, ResponseStrings(response))
      case Err(e) => Err(e)
      case Ok(rows) => Ok(Some(rows))
  }

  /** An error at some string is the error of the whole list. */
  lemma {:induction false} RowErrorPersists(h: ClientHandshake, clientId: string, strings: seq<string>, k: nat)
    requires k <= |strings| && EncryptedRows(h, clientId, strings[..k]).Err?
    ensures EncryptedRows(h, clientId, strings) == EncryptedRows(h, clientId, strings[..k])
    decreases |strings| - k
  {
    if k < |strings| {
      var next := strings[..k + 1];
      assert next[..|next| - 1] == strings[..k];
      RowErrorPersists(h, clientId, strings, k + 1);
    } else {
      assert strings[..k] == strings;
    }
  }

  // ---------------------------------------------------------------------------
  // query

  /** An `APIViewContentRequestHandler`: the URI it answers; its view is SampleListAPIView1. */
  datatype ApiRoute = ApiRoute(authority: string, path: string)

  /** The handlers `onCreate` registers. */
  const SampleRoutes: seq<ApiRoute> := [ApiRoute(AUTHORITY, "sample_data_1")]

  predicate RouteMatches(route: ApiRoute, uri: Uri)
  {
    PathMatches(route.authority, route.path, uri)
  }

  /** `first { it.matches(uri) }`, with None where `first` throws. */
  function FirstRoute(routes: seq<ApiRoute>, uri: Uri): (r: Option<ApiRoute>)
    ensures r.None? <==> forall route :: route in routes ==> !RouteMatches(route, uri)
    ensures r.Some? ==> exists i :: (0 <= i < |routes| && routes[i] == r.value && RouteMatches(r.value, uri)
                                     && forall j :: 0 <= j < i ==> !RouteMatches(routes[j], uri))
  {
    if routes == [] then None
    else if RouteMatches(routes[0], uri) then Some(routes[0])
    else
      var r := FirstRoute(routes[1..], uri);
      assert forall route :: route in routes[1..] ==> route in routes;
      assert r.Some? ==> exists i :: (1 <= i < |routes| && routes[i] == r.value && RouteMatches(r.value, uri)
                                       && forall j :: 0 <= j < i ==> !RouteMatches(routes[j], uri)) by {
        if r.Some? {
          var i :| 0 <= i < |routes[1..]| && routes[1..][i] == r.value && RouteMatches(r.value, uri)
                   && forall j :: 0 <= j < i ==> !RouteMatches(routes[1..][j], uri);
          assert routes[i + 1] == r.value;
          forall j | 0 <= j < i + 1 ensures !RouteMatches(routes[j], uri) {
            if j > 0 { assert routes[j] == routes[1..][j - 1]; }
          }
        }
      }
      r
  }

  /** The request the provider hands its view: the recovered token and no parameters. */
  function ViewRequest(tokenString: Option<string>): ResourceServerRequest
  {
    ResourceServerRequest(tokenString, None)
  }

  /**
   * `query` as a function of the provider's state: `routes` is None before
   * `onCreate`. Without a client id there is no cursor; an exception from
   * `first`, `getTokenString` or `generateCursor` escapes. The view runs in
   * an AsyncTask around a `blockingGet`, so an exception escaping it comes
   * out as an ExecutionException whose cause is what `blockingGet` raised.
   */
  function QueryResult(registry: Store, tm: Tokens.TokenManager, clients: seq<Client>, codec: Codec, itemJson: SampleItem1 -> string,
                       routes: Option<seq<ApiRoute>>, uri: Uri, now: int): (r: Result<Option<seq<Row>>, Exception>)
    ensures QueryParameter(uri, CLIENT_ID_PARAMETER).None? ==> r == Ok(None)
    ensures QueryParameter(uri, CLIENT_ID_PARAMETER).Some? && routes.None? ==> r == Err(UninitializedProperty)
    ensures QueryParameter(uri, CLIENT_ID_PARAMETER).Some? && routes.Some? && (forall route :: route in routes.value ==> !RouteMatches(route, uri))
      ==> r == Err(NoSuchElement)
    ensures r.Ok? && r.value.Some? ==>
      QueryParameter(uri, CLIENT_ID_PARAMETER).Some? && routes.Some? && FirstRoute(routes.value, uri).Some?
      && RegisteredHandshake(registry, QueryParameter(uri, CLIENT_ID_PARAMETER).value).Ok?
      && RegisteredHandshake(registry, QueryParameter(uri, CLIENT_ID_PARAMETER).value).value.Some?
  {
    match QueryParameter(uri, CLIENT_ID_PARAMETER)
    case None => Ok(None)
    case Some(clientId) =>
      if routes.None? then Err(UninitializedProperty)
      else
        match FirstRoute(routes.value, uri)
        case None => Err(NoSuchElement)
        case Some(_) =>
          match TokenString(registry, codec, uri, clientId)
          case Err(e) => Err(e)
          case Ok(tokenString) =>
            match HandleRequest(SampleListView1(tm, clients, registry, now, itemJson), uri, ViewRequest(tokenString))
            case Escaped(e) => Err(ExecutionFailure(BlockingGetRaised(e)))
            case Completed(response) => GeneratedCursor(registry, clientId, response)
  }

  // ---------------------------------------------------------------------------
  // The provider and its cursor

  /** A `MatrixCursor`: fixed columns and the rows added so far. */
  class MatrixCursor {
    const columns: seq<string>
    var rows: seq<Row>

    constructor (columns: seq<string>)
      ensures this.columns == columns && rows == []
    {
      this.columns := columns;
      rows := [];
    }

    /** `newRow()` followed by one `add` per column. */
    method AddRow(encryptedData: Blob, signature: Blob)
      modifies this
      ensures rows == old(rows) + [Row(encryptedData, signature)]
    {
      rows := rows + [Row(encryptedData, signature)];
    }
  }

  class SampleContentProvider {
    const clientManager: SampleClientManager
    const tokenManager: SampleTokenManager
    const codec: Codec
    const itemJson: SampleItem1 -> string
    var routes: Option<seq<ApiRoute>>

    constructor (clientManager: SampleClientManager, tokenManager: SampleTokenManager, codec: Codec, itemJson: SampleItem1 -> string)
      ensures this.clientManager == clientManager && this.tokenManager == tokenManager
      ensures this.codec == codec && this.itemJson == itemJson && routes.None?
    {
      this.clientManager := clientManager;
      this.tokenManager := tokenManager;
      this.codec := codec;
      this.itemJson := itemJson;
      routes := None;
    }

    /** `onCreate`: registers the sample view under "sample_data_1". */
    method OnCreate() returns (created: bool)
      modifies this
      ensures routes == Some(SampleRoutes) && created
    {
      routes := Some(SampleRoutes);
      return true;
    }

    /** `generateCursor`; it only reads the registry. */
    method GenerateCursor(clientId: string, response: ApiResponse) returns (r: Result<Option<MatrixCursor>, Exception>)
      ensures var expected := GeneratedCursor(clientManager.kv, clientId, response);
        (r.Ok? <==> expected.Ok?) && (r.Err? ==> r.error == expected.error)
        && (r.Ok? ==> (r.value.Some? <==> expected.value.Some?))
        && (r.Ok? && r.value.Some? ==>
              fresh(r.value.value) && r.value.value.columns == CURSOR_COLUMNS && r.value.value.rows == expected.value.value)
    {
      var handshake := clientManager.GetClientHandshake(clientId);
      if handshake.Err? {
        return Err(handshake.error);
      }
      if handshake.value.None? {
        return Ok(None);
      }
      var h := handshake.value.value;
      var strings := ResponseStrings(response);
      var cursor := new MatrixCursor(CURSOR_COLUMNS);
      var i := 0;
      while i < |strings|
        invariant 0 <= i <= |strings|
        invariant fresh(cursor) && cursor.columns == CURSOR_COLUMNS
        invariant EncryptedRows(h, clientId, strings[..i]) == Ok(cursor.rows)
      {
        assert strings[..i + 1][..i] == strings[..i];
        var encrypted := Encrypt(h.clientPublicEncryptionKey, Text(strings[i]), Text(clientId));
        if encrypted.Err? {
          RowErrorPersists(h, clientId, strings, i + 1);
          return Err(encrypted.error);
        }
        var signature := Sign(h.serverPrivateSigningKey, encrypted.value);
        if signature.Err? {
          RowErrorPersists(h, clientId, strings, i + 1);
          return Err(signature.error);
        }
        cursor.AddRow(encrypted.value, signature.value);
        i := i + 1;
      }
      assert strings[..i] == strings;
      return Ok(Some(cursor));
    }

    /** `query`; it only reads the registry and the token manager. */
    method Query(uri: Uri, now: int) returns (r: Result<Option<MatrixCursor>, Exception>)
      ensures var expected := QueryResult(clientManager.kv, tokenManager.Manager(), clientManager.clientList, codec, itemJson, routes, uri, now);
        (r.Ok? <==> expected.Ok?) && (r.Err? ==> r.error == expected.error)
        && (r.Ok? ==> (r.value.Some? <==> expected.value.Some?))
        && (r.Ok? && r.value.Some? ==>
              fresh(r.value.value) && r.value.value.columns == CURSOR_COLUMNS && r.value.value.rows == expected.value.value)
    {
      var clientId := QueryParameter(uri, CLIENT_ID_PARAMETER);
      if clientId.None? {
        return Ok(None);
      }
      if routes.None? {
        return Err(UninitializedProperty);
      }
      var route := FirstRoute(routes.value, uri);
      if route.None? {
        return Err(NoSuchElement);
      }
      var tokenString := TokenString(clientManager.kv, codec, uri, clientId.value);
      if tokenString.Err? {
        return Err(tokenString.error);
      }
      var view := SampleListView1(tokenManager.Manager(), clientManager.clientList, clientManager.kv, now, itemJson);
      var handling := HandleRequest(view, uri, ViewRequest(tokenString.value));
      if handling.Escaped? {
        return Err(ExecutionFailure(BlockingGetRaised(handling.exception)));
      }
      r := GenerateCursor(clientId.value, handling.response);
    }
  }

  // ---------------------------------------------------------------------------
  // Properties

  /**
   * Each content handler serves its items exactly when the client approved
   * its scope for reading, and an empty response otherwise: handler 1 needs
   * sample_scope_1.read, handler 2 sample_scope_2.read.
   */
  lemma HandlerServesIffApproved(registry: Store, handler: ContentHandler, clientId: string,
                                 json1: SampleItem1 -> string, json2: SampleItem2 -> string)
    requires ApprovedScopes(registry, clientId).Ok?
    ensures var approved := ApprovedScopes(registry, clientId).value;
      var served := approved.Some? && HandlerScope(handler) in approved.value;
      HandleContentRequest(registry, handler, clientId, json1, json2)
        == Ok(ContentResponse(if served then HandlerItems(handler, json1, json2) else []))
    ensures HandlerScope(handler) == if handler.SampleHandler1? then ScopeRequest("sample_scope_1", READ) else ScopeRequest("sample_scope_2", READ)
    ensures |HandlerItems(handler, json1, json2)| == 2
  {
  }

  /**
   * A token prepared as the protocol prescribes (encrypted to the server's
   * encryption key under the client id, signed with the client's signing
   * key, both Base64) is recovered exactly.
   */
  lemma TokenStringRecovered(registry: Store, codec: Codec, uri: Uri, clientId: string, token: string,
                             h: ClientHandshake, clientSigningKey: Keyset)
    requires LawfulCodec(codec)
    requires RegisteredHandshake(registry, clientId) == Ok(Some(h))
    requires h.serverPrivateEncryptionKey.kind == EncryptionPrivate
    requires clientSigningKey.kind == SigningPrivate && h.clientPublicSigningKey == PublicHalf(clientSigningKey)
    requires var encrypted := Encrypt(PublicHalf(h.serverPrivateEncryptionKey), Text(token), Text(clientId)).value;
      QueryParameter(uri, TOKEN_PARAMETER) == Some(codec.base64Encode(encrypted))
      && QueryParameter(uri, TOKEN_SIGNATURE_PARAMETER) == Some(codec.base64Encode(Sign(clientSigningKey, encrypted).value))
    ensures TokenString(registry, codec, uri, clientId) == Ok(Some(token))
  {
    var encrypted := Encrypt(PublicHalf(h.serverPrivateEncryptionKey), Text(token), Text(clientId)).value;
    assert codec.base64Decode(codec.base64Encode(encrypted)) == Some(encrypted);
    assert codec.base64Decode(codec.base64Encode(Sign(clientSigningKey, encrypted).value)) == Some(Sign(clientSigningKey, encrypted).value);
    SignVerify(clientSigningKey, encrypted, Sign(clientSigningKey, encrypted).value);
    DecryptEncrypt(h.serverPrivateEncryptionKey, Text(token), Text(clientId));
    assert codec.bytesToString(Text(token)) == token;
  }

  /** A token ciphertext whose signature was not made with the client's registered signing key is refused by throwing. */
  lemma ForgedTokenSignatureThrows(registry: Store, codec: Codec, uri: Uri, clientId: string,
                                   h: ClientHandshake, encrypted: Blob, signature: Blob)
    requires LawfulCodec(codec)
    requires RegisteredHandshake(registry, clientId) == Ok(Some(h))
    requires QueryParameter(uri, TOKEN_PARAMETER) == Some(codec.base64Encode(encrypted))
    requires QueryParameter(uri, TOKEN_SIGNATURE_PARAMETER) == Some(codec.base64Encode(signature))
    requires signature != Signature(Keyset(SigningPrivate, h.clientPublicSigningKey.id), encrypted)
    ensures TokenString(registry, codec, uri, clientId) == Err(GeneralSecurity)
  {
    assert codec.base64Decode(codec.base64Encode(encrypted)) == Some(encrypted);
    assert codec.base64Decode(codec.base64Encode(signature)) == Some(signature);
  }

  /**
   * A token encrypted under another client's id does not decrypt under this
   * one's, even with a valid signature: the context binds it to its client.
   */
  lemma TokenBoundToClientId(registry: Store, codec: Codec, uri: Uri, clientId: string, otherId: string, token: string,
                             h: ClientHandshake, clientSigningKey: Keyset)
    requires LawfulCodec(codec) && otherId != clientId
    requires RegisteredHandshake(registry, clientId) == Ok(Some(h))
    requires h.serverPrivateEncryptionKey.kind == EncryptionPrivate
    requires clientSigningKey.kind == SigningPrivate && h.clientPublicSigningKey == PublicHalf(clientSigningKey)
    requires var encrypted := Encrypt(PublicHalf(h.serverPrivateEncryptionKey), Text(token), Text(otherId)).value;
      QueryParameter(uri, TOKEN_PARAMETER) == Some(codec.base64Encode(encrypted))
      && QueryParameter(uri, TOKEN_SIGNATURE_PARAMETER) == Some(codec.base64Encode(Sign(clientSigningKey, encrypted).value))
    ensures TokenString(registry, codec, uri, clientId) == Err(GeneralSecurity)
  {
    var encrypted := Encrypt(PublicHalf(h.serverPrivateEncryptionKey), Text(token), Text(otherId)).value;
    assert codec.base64Decode(codec.base64Encode(encrypted)) == Some(encrypted);
    assert codec.base64Decode(codec.base64Encode(Sign(clientSigningKey, encrypted).value)) == Some(Sign(clientSigningKey, encrypted).value);
    ContextBinding(h.serverPrivateEncryptionKey, Text(token), Text(otherId), Text(clientId));
  }

  /**
   * Every row of a generated cursor opens for the client it was made for:
   * the client's private encryption key with its id as context gives back
   * the JSON string, and the signature verifies under the server's public
   * signing key. Under another client id the row does not decrypt.
   */
  lemma {:induction false} RowsOpenForClient(h: ClientHandshake, clientId: string, strings: seq<string>, clientEncryptionKey: Keyset)
    requires clientEncryptionKey.kind == EncryptionPrivate && h.clientPublicEncryptionKey == PublicHalf(clientEncryptionKey)
    requires h.serverPrivateSigningKey.kind == SigningPrivate
    ensures EncryptedRows(h, clientId, strings).Ok?
    ensures var rows := EncryptedRows(h, clientId, strings).value;
      forall i :: 0 <= i < |rows| ==>
        Decrypt(clientEncryptionKey, rows[i].encryptedData, Text(clientId)) == Ok(Text(strings[i]))
        && Verify(PublicHalf(h.serverPrivateSigningKey), rows[i].signature, rows[i].encryptedData).Ok?
        && forall otherId :: otherId != clientId ==> Decrypt(clientEncryptionKey, rows[i].encryptedData, Text(otherId)).Err?
  {
    forall i | 0 <= i < |strings| ensures EncryptedRow(h, clientId, strings[i]).Ok? {
      DecryptEncrypt(clientEncryptionKey, Text(strings[i]), Text(clientId));
      SignVerify(h.serverPrivateSigningKey, Encrypt(h.clientPublicEncryptionKey, Text(strings[i]), Text(clientId)).value, Signature(h.serverPrivateSigningKey, Cipher(h.clientPublicEncryptionKey, Text(strings[i]), Text(clientId))));
    }
    var rows := EncryptedRows(h, clientId, strings).value;
    forall i | 0 <= i < |rows|
      ensures Decrypt(clientEncryptionKey, rows[i].encryptedData, Text(clientId)) == Ok(Text(strings[i]))
      ensures Verify(PublicHalf(h.serverPrivateSigningKey), rows[i].signature, rows[i].encryptedData).Ok?
      ensures forall otherId :: otherId != clientId ==> Decrypt(clientEncryptionKey, rows[i].encryptedData, Text(otherId)).Err?
    {
      assert EncryptedRow(h, clientId, strings[i]) == Ok(rows[i]);
      DecryptEncrypt(clientEncryptionKey, Text(strings[i]), Text(clientId));
      SignVerify(h.serverPrivateSigningKey, rows[i].encryptedData, rows[i].signature);
    }
  }

  /** A response without JSON strings (every refusal) gives a cursor with no rows when the client has a handshake, whatever its keys. */
  lemma RefusalGivesEmptyCursor(registry: Store, clientId: string, response: ApiResponse)
    requires response.jsonStrings.None?
    requires RegisteredHandshake(registry, clientId).Ok? && RegisteredHandshake(registry, clientId).value.Some?
    ensures GeneratedCursor(registry, clientId, response) == Ok(Some([]))
  {
  }

  /**
   * A query without a token throws: the view's AuthorizationFailed escapes
   * `handleRequest` wrapped in a RuntimeException, which `blockingGet` in
   * the background task rethrows as it is and `AsyncTask.get` reports as an
   * ExecutionException.
   */
  lemma QueryWithoutTokenThrows(registry: Store, tm: Tokens.TokenManager, clients: seq<Client>, codec: Codec,
                                itemJson: SampleItem1 -> string, uri: Uri, now: int)
    requires QueryParameter(uri, CLIENT_ID_PARAMETER).Some? && QueryParameter(uri, TOKEN_PARAMETER).None?
    requires RouteMatches(SampleRoutes[0], uri)
    requires var clientId := QueryParameter(uri, CLIENT_ID_PARAMETER).value;
      RegisteredHandshake(registry, clientId).Ok? && RegisteredHandshake(registry, clientId).value.Some?
    ensures QueryResult(registry, tm, clients, codec, itemJson, Some(SampleRoutes), uri, now)
      == Err(ExecutionFailure(RuntimeWrapper(NO_TOKEN)))
  {
    NoTokenIsRefused(tm, clients, registry, now, itemJson, uri, ViewRequest(None));
  }

  /** `onCreate`'s handler answers the provider's authority with the path "sample_data_1", and only that path. */
  lemma SampleRouteMatches(uri: Uri)
    requires uri.authority == AUTHORITY
    ensures FirstRoute(SampleRoutes, uri).Some? <==> uri.pathSegments == ["sample_data_1"]
  {
    SplitNoSeparator("sample_data_1", '/');
  }

  /** A query that gets past its guards ends in `generateCursor` of the view's response. */
  lemma QueryReachesCursor(registry: Store, tm: Tokens.TokenManager, clients: seq<Client>, codec: Codec, itemJson: SampleItem1 -> string,
                           routes: seq<ApiRoute>, uri: Uri, now: int, clientId: string, tokenString: Option<string>, response: ApiResponse)
    requires QueryParameter(uri, CLIENT_ID_PARAMETER) == Some(clientId) && FirstRoute(routes, uri).Some?
    requires TokenString(registry, codec, uri, clientId) == Ok(tokenString)
    requires HandleRequest(SampleListView1(tm, clients, registry, now, itemJson), uri, ViewRequest(tokenString)) == Completed(response)
    ensures QueryResult(registry, tm, clients, codec, itemJson, Some(routes), uri, now) == GeneratedCursor(registry, clientId, response)
  {
  }

  lemma SampleViewServes(tm: Tokens.TokenManager, registry: Store, now: int, itemJson: SampleItem1 -> string, uri: Uri, token: string)
    requires Tokens.ValidateAndDecodeToken(tm, token, Tokens.ACCESS_TOKEN, now).Some?
    requires Tokens.ClientIdFromToken(Tokens.ValidateAndDecodeToken(tm, token, Tokens.ACCESS_TOKEN, now).value) == Some(SAMPLE_CLIENT_ID)
    requires ApprovedScopes(registry, SAMPLE_CLIENT_ID).Ok? && ApprovedScopes(registry, SAMPLE_CLIENT_ID).value.Some?
    requires RequiredScope in ApprovedScopes(registry, SAMPLE_CLIENT_ID).value.value
    ensures HandleRequest(SampleListView1(tm, SampleClientList, registry, now, itemJson), uri, ViewRequest(Some(token)))
      == Completed(ApiResponse(200, Some(SampleBody(itemJson)), None))
  {
    assert SampleClientList[0] in SampleClientList;
    KnownClientServedIffApproved(tm, SampleClientList, registry, now, itemJson, uri, token, None);
  }

  lemma CursorOpensForClient(registry: Store, clientId: string, h: ClientHandshake, strings: seq<string>, clientEncryptionKey: Keyset)
    requires RegisteredHandshake(registry, clientId) == Ok(Some(h))
    requires clientEncryptionKey.kind == EncryptionPrivate && h.clientPublicEncryptionKey == PublicHalf(clientEncryptionKey)
    requires h.serverPrivateSigningKey.kind == SigningPrivate
    ensures var r := GeneratedCursor(registry, clientId, ApiResponse(200, Some(strings), None));
      r.Ok? && r.value.Some? && |r.value.value| == |strings|
      && forall i :: 0 <= i < |strings| ==>
        Decrypt(clientEncryptionKey, r.value.value[i].encryptedData, Text(clientId)) == Ok(Text(strings[i]))
        && Verify(PublicHalf(h.serverPrivateSigningKey), r.value.value[i].signature, r.value.value[i].encryptedData).Ok?
  {
    RowsOpenForClient(h, clientId, strings, clientEncryptionKey);
  }

  /**
   * The sample client, with a registered handshake and an access token
   * issued for it, querying "sample_data_1" with sample_scope_1.read
   * approved, receives two rows that open under its own private key to the
   * two items' JSON and carry the server's signatures.
   */
  lemma ServedQueryDeliversItems(registry: Store, tm: Tokens.TokenManager, codec: Codec, itemJson: SampleItem1 -> string,
                                 uri: Uri, now: int, token: string, h: ClientHandshake,
                                 clientSigningKey: Keyset, clientEncryptionKey: Keyset)
    requires LawfulCodec(codec)
    requires QueryParameter(uri, CLIENT_ID_PARAMETER) == Some(SAMPLE_CLIENT_ID)
    requires FirstRoute(SampleRoutes, uri).Some?
    requires RegisteredHandshake(registry, SAMPLE_CLIENT_ID) == Ok(Some(h))
    requires h.serverPrivateEncryptionKey.kind == EncryptionPrivate && h.serverPrivateSigningKey.kind == SigningPrivate
    requires clientSigningKey.kind == SigningPrivate && h.clientPublicSigningKey == PublicHalf(clientSigningKey)
    requires clientEncryptionKey.kind == EncryptionPrivate && h.clientPublicEncryptionKey == PublicHalf(clientEncryptionKey)
    requires var encrypted := Encrypt(PublicHalf(h.serverPrivateEncryptionKey), Text(token), Text(SAMPLE_CLIENT_ID)).value;
      QueryParameter(uri, TOKEN_PARAMETER) == Some(codec.base64Encode(encrypted))
      && QueryParameter(uri, TOKEN_SIGNATURE_PARAMETER) == Some(codec.base64Encode(Sign(clientSigningKey, encrypted).value))
    requires Tokens.ValidateAndDecodeToken(tm, token, Tokens.ACCESS_TOKEN, now).Some?
    requires Tokens.ClientIdFromToken(Tokens.ValidateAndDecodeToken(tm, token, Tokens.ACCESS_TOKEN, now).value) == Some(SAMPLE_CLIENT_ID)
    requires ApprovedScopes(registry, SAMPLE_CLIENT_ID).Ok? && ApprovedScopes(registry, SAMPLE_CLIENT_ID).value.Some?
    requires RequiredScope in ApprovedScopes(registry, SAMPLE_CLIENT_ID).value.value
    ensures var r := QueryResult(registry, tm, SampleClientList, codec, itemJson, Some(SampleRoutes), uri, now);
      r.Ok? && r.value.Some? && |r.value.value| == 2
      && forall i :: 0 <= i < 2 ==>
        Decrypt(clientEncryptionKey, r.value.value[i].encryptedData, Text(SAMPLE_CLIENT_ID)) == Ok(Text(SampleBody(itemJson)[i]))
        && Verify(PublicHalf(h.serverPrivateSigningKey), r.value.value[i].signature, r.value.value[i].encryptedData).Ok?
  {
    TokenStringRecovered(registry, codec, uri, SAMPLE_CLIENT_ID, token, h, clientSigningKey);
    SampleViewServes(tm, registry, now, itemJson, uri, token);
    var response := ApiResponse(200, Some(SampleBody(itemJson)), None);
    QueryReachesCursor(registry, tm, SampleClientList, codec, itemJson, SampleRoutes, uri, now, SAMPLE_CLIENT_ID, Some(token), response);
    CursorOpensForClient(registry, SAMPLE_CLIENT_ID, h, SampleBody(itemJson), clientEncryptionKey);
  }
}
