/**
 * The client side of the protocol (AuthorizationClient). The client keeps the
 * keys and the m1 bytes of a handshake in progress in fields, persists the
 * established keys in its storage, and talks to the server by broadcasting
 * intents. The server's replies arrive later through result receivers, whose
 * callbacks are modelled as the methods `OnBeginResult`, `OnCompleteResult`
 * and `OnVerifyResult`.
 *
 * Every method is proved equal to a step function; broadcasting appends to
 * `sent`, and calling the completion handed to `authorize` appends to
 * `completions`. An exception that no catch clause handles is returned as
 * `escaped`.
 */
module ResourceClient {
  import opened Wrappers
  import opened Errors
  import opened Crypto
  import opened Bundles
  import opened Scopes
  import opened KeyValue
  import opened HandshakeWire
  import opened AuthorizationWire
  import opened ClientStorage

  /** AuthorizationClientConfig */
  datatype ClientConfig = ClientConfig(clientId: string, serverPackage: string, handshakeServiceClass: string, authorizationServiceClass: string)

  /** A call `completion(successful, exception)`. */
  datatype Completion = Completion(successful: bool, exception: Option<Exception>)

  /** The random bytes, the fresh key material and the nonce a client step draws. */
  datatype ClientFresh = ClientFresh(data: Blob, contextInfo: Blob, state: int64, signingKeyId: nat, encryptionKeyId: nat)

  /** The request a broadcast carries. */
  datatype Message =
    | BeginMessage(begin: BeginRequest)
    | CompleteMessage(complete: CompleteRequest)
    | VerifyRequest(verify: VerifyMessage)
    | AuthorizationRequest(authorization: AuthRequest)

  /** One broadcast: the server service it is addressed to, its request and the result receiver. */
  datatype Outgoing = Outgoing(serviceClass: string, message: Message, receiver: nat)

  /**
   * The intent a broadcast puts on the wire, built by the request's
   * `requestIntent` as written: the authorization request's scopes go out as
   * a string array.
   */
  function IntentOf(serverPackage: string, o: Outgoing): Intent
  {
    match o.message
    case BeginMessage(r) => BeginRequestIntent(serverPackage, o.serviceClass, r, o.receiver)
    case CompleteMessage(r) => CompleteRequestIntent(serverPackage, o.serviceClass, r, o.receiver)
    case VerifyRequest(r) => VerifyRequestIntent(serverPackage, o.serviceClass, r, o.receiver)
    case AuthorizationRequest(r) => AuthRequestIntentAsWritten(serverPackage, o.serviceClass, r, o.receiver)
  }

  /** What a step does besides changing the client's storage. */
  datatype Effect = Effect(sent: seq<Outgoing>, completions: seq<Completion>, escaped: Option<Exception>)

  function Finished(successful: bool, exception: Option<Exception>): Effect
  {
    Effect([], [Completion(successful, exception)], None)
  }

  function Broadcast(o: Outgoing): Effect
  {
    Effect([o], [], None)
  }

  function Escaped(e: Exception): Effect
  {
    Effect([], [], Some(e))
  }

  const INVALID_CLIENT_STATE := HandshakeInvalidState("Invalid client State")
  const M1_MISMATCH := HandshakeInvalidState("M1 data does not match")

  // ---------------------------------------------------------------------------
  // BEGIN

  /** The BEGIN request built from fresh keys: both public halves as JSON, m1 and its signature. */
  function BeginRequestOf(clientId: string, draw: ClientFresh): BeginRequest
  {
    var csk, cek := NewSigningKeyset(draw.signingKeyId), NewEncryptionKeyset(draw.encryptionKeyId);
    BeginRequest(clientId, draw.state, WriteKeyset(PublicHalf(csk)), WriteKeyset(PublicHalf(cek)),
      draw.data, Sign(csk, draw.data).value)
  }

  // ---------------------------------------------------------------------------
  // COMPLETE

  /** The four keysets the client persists once the server's BEGIN response checks out. */
  datatype ClientKeys = ClientKeys(clientSigningKey: Keyset, clientEncryptionKey: Keyset,
                                   serverSigningKey: Keyset, serverEncryptionKey: Keyset)

  function WithClientKeys(kv: Store, keys: ClientKeys): Store
  {
    kv[ClientKeyName(ClientPrivateSigningKey) := KeysetValue(keys.clientSigningKey)]
      [ClientKeyName(ClientPrivateEncryptionKey) := KeysetValue(keys.clientEncryptionKey)]
      [ClientKeyName(ServerPublicSigningKey) := KeysetValue(keys.serverSigningKey)]
      [ClientKeyName(ServerPublicEncryptionKey) := KeysetValue(keys.serverEncryptionKey)]
  }

  /**
   * The checks of `completeHandshake`, in order: the pending fields are set,
   * m1 decrypts to the pending m1, the server's keys parse and its m2
   * signature verifies, and m2 encrypts for the server. The result is the
   * keys to persist and the COMPLETE request, or the exception handed to the
   * callback (every Tink and I/O exception is caught).
   */
  function CompleteHandshakeOf(clientId: string, signingKey: Option<Keyset>, encryptionKey: Option<Keyset>,
                               m1: Option<Blob>, state: int64, response: BeginResponse, contextInfo: Blob)
    : Result<(ClientKeys, CompleteRequest), Exception>
  {
    if signingKey.None? || encryptionKey.None? || m1.None? then Err(INVALID_CLIENT_STATE)
    else
      match Decrypt(encryptionKey.value, response.m1EncryptedData, response.contextInfo)
      case Err(e) => Err(e)
      case Ok(decrypted) =>
        if m1.value != decrypted then Err(M1_MISMATCH)
        else
          match ReadKeyset(response.signingPublicKey)
          case Err(e) => Err(e)
          case Ok(ssk) =>
            match Verify(ssk, response.m2Signature, response.m2Data)
            case Err(e) => Err(e)
            case Ok(_) =>
              match ReadKeyset(response.encryptionPublicKey)
              case Err(e) => Err(e)
              case Ok(sek) =>
                match Encrypt(sek, response.m2Data, contextInfo)
                case Err(e) => Err(e)
                case Ok(m2Encrypted) =>
                  Ok((ClientKeys(signingKey.value, encryptionKey.value, ssk, sek),
                      CompleteRequest(clientId, state, m2Encrypted, contextInfo)))
  }

  // ---------------------------------------------------------------------------
  // checkHandshake

  /**
   * `catch (gse: GeneralSecurityException)` around the sending half of
   * `checkHandshake`: a GeneralSecurityException goes to the VERIFY
   * callback's `onError`, which clears the storage and reports failure; any
   * other exception escapes.
   */
  function CheckCatch(kv: Store, e: Exception): (Store, Effect)
  {
    if e == GeneralSecurity then (map[], Finished(false, Some(e))) else (kv, Escaped(e))
  }

  /** The sending half of `checkHandshake`: sign fresh data, encrypt it for the server, send VERIFY. */
  function CheckStep(kv: Store, config: ClientConfig, data: Blob, contextInfo: Blob, receiver: nat): (Store, Effect)
  {
    match StoredKeyset(kv, ClientPrivateSigningKey)
    case Err(e) => CheckCatch(kv, e)
    case Ok(None) => (kv, Finished(false, None))
    case Ok(Some(csk)) =>
      match Sign(csk, data)
      case Err(e) => CheckCatch(kv, e)
      case Ok(signature) =>
        match StoredKeyset(kv, ServerPublicEncryptionKey)
        case Err(e) => CheckCatch(kv, e)
        case Ok(None) => (kv, Finished(false, None))
        case Ok(Some(sek)) =>
          match Encrypt(sek, data, contextInfo)
          case Err(e) => CheckCatch(kv, e)
          case Ok(encrypted) =>
            var request := VerifyMessage(config.clientId, data, signature, encrypted, contextInfo);
            (kv, Broadcast(Outgoing(config.handshakeServiceClass, VerifyRequest(request), receiver)))
  }

  /**
   * The VERIFY callback. `onError` clears the storage and reports failure.
   * `onSuccess` checks the server's signature on its data and decrypts the
   * client's copy: a missing key or a mismatch clears the storage and reports
   * failure; an exception of the key loading or of the crypto calls is not
   * caught and escapes.
   */
  function VerifyResultStep(kv: Store, delivery: Delivery<VerifyMessage>): (Store, Effect)
  {
    match delivery
    case OnError(e) => (map[], Finished(false, Some(e)))
    case OnSuccess(r) =>
      match StoredKeyset(kv, ServerPublicSigningKey)
      case Err(e) => (kv, Escaped(e))
      case Ok(None) => (map[], Finished(false, None))
      case Ok(Some(ssk)) =>
        match Verify(ssk, r.signature, r.data)
        case Err(e) => (kv, Escaped(e))
        case Ok(_) =>
          match StoredKeyset(kv, ClientPrivateEncryptionKey)
          case Err(e) => (kv, Escaped(e))
          case Ok(None) => (map[], Finished(false, None))
          case Ok(Some(cek)) =>
            match Decrypt(cek, r.encryptedData, r.contextInfo)
            case Err(e) => (kv, Escaped(e))
            case Ok(decrypted) =>
              if r.data != decrypted then (map[], Finished(false, None)) else (kv, Finished(true, None))
  }

  // ---------------------------------------------------------------------------
  // doAuthorization and authorize

  /**
   * `doAuthorization`: it reports success at once, then loads the two keys
   * it needs; if either is missing it reports failure as a second completion,
   * otherwise it sends the authorization request. A key-loading exception
   * escapes after the first completion.
   */
  function AuthorizationStep(kv: Store, config: ClientConfig, scopes: seq<ScopeRequest>, includeRefreshToken: bool,
                             state: int64, receiver: nat): Effect
  {
    var first := Completion(true, None);
    match StoredKeyset(kv, ServerPublicEncryptionKey)
    case Err(e) => Effect([], [first], Some(e))
    case Ok(sek) =>
      match StoredKeyset(kv, ClientPrivateSigningKey)
      case Err(e) => Effect([], [first], Some(e))
      case Ok(csk) =>
        if sek.None? || csk.None? then Effect([], [first, Completion(false, None)], None)
        else
          var request := AuthRequest(config.clientId, state, scopes, includeRefreshToken);
          Effect([Outgoing(config.authorizationServiceClass, AuthorizationRequest(request), receiver)], [first], None)
  }

  /**
   * The callback `doAuthorization` registers for the server's reply: both
   * `onSuccess` and `onError` are `TODO("not implemented")`, so whatever the
   * reply, NotImplementedError escapes and the caller hears nothing more.
   */
  function AuthorizationResultStep(delivery: Delivery<AuthResponse>): Effect
  {
    Escaped(NotImplemented)
  }

  /** What `authorize` does next when a check or a handshake reports back. */
  datatype Next = RunAuthorization | RunHandshake | Report(completion: Completion)

  /** The closure `authorize` hands to `checkHandshake`. */
  function AfterCheck(c: Completion): Next
  {
    if c.successful then RunAuthorization else RunHandshake
  }

  /** The closure `authorize` hands to `doHandshake`. */
  function AfterHandshake(c: Completion): Next
  {
    if c.successful then RunAuthorization else Report(Completion(false, c.exception))
  }

  /** A run of `authorize`: how many handshakes it started, and the effect of the step it ended with. */
  datatype AuthorizeRun = AuthorizeRun(handshakes: nat, effect: Effect)

  /**
   * `authorize` once its check has reported `check` and, if that sends it to
   * a handshake, the handshake has reported `handshake`; `kv` is the storage
   * `doAuthorization` finds when it runs.
   */
  function AuthorizeRunOf(check: Completion, handshake: Completion, kv: Store, config: ClientConfig,
                          scopes: seq<ScopeRequest>, includeRefreshToken: bool, state: int64, receiver: nat): AuthorizeRun
  {
    if AfterCheck(check) == RunAuthorization then
      AuthorizeRun(0, AuthorizationStep(kv, config, scopes, includeRefreshToken, state, receiver))
    else
      match AfterHandshake(handshake)
      case Report(c) => AuthorizeRun(1, Finished(c.successful, c.exception))
      case _ => AuthorizeRun(1, AuthorizationStep(kv, config, scopes, includeRefreshToken, state, receiver))
  }

  // ---------------------------------------------------------------------------

  class AuthorizationClient {
    const config: ClientConfig
    const storage: SampleClientStorage
    var signingKey: Option<Keyset>        // clientSigningPrivateKeysetHandle
    var encryptionKey: Option<Keyset>     // clientEncryptionPrivateKeysetHandle
    var m1Data: Option<Blob>
    var handshakeState: int64
    var authorizationState: int64
    var sent: seq<Outgoing>               // every broadcast, in order
    var completions: seq<Completion>      // every call of the caller's completion, in order

    constructor (config: ClientConfig, storage: SampleClientStorage)
      ensures this.config == config && this.storage == storage
      ensures signingKey == None && encryptionKey == None && m1Data == None
      ensures handshakeState == -1 && authorizationState == -1
      ensures sent == [] && completions == []
    {
      this.config := config;
      this.storage := storage;
      signingKey, encryptionKey, m1Data := None, None, None;
      handshakeState, authorizationState := -1, -1;
      sent, completions := [], [];
    }

    /**
     * `beginHandshake` with the callback of `doHandshake`: forget the pending
     * handshake and clear the storage, then draw fresh keys, m1 and a state
     * nonce and send BEGIN. `failure` is an exception Tink throws while
     * generating, writing or signing; it is caught and reported as failure.
     */
    method BeginHandshake(draw: ClientFresh, failure: Option<Exception>, receiver: nat)
      modifies this, storage
      ensures storage.kv == map[]
      ensures authorizationState == old(authorizationState)
      ensures failure.Some? ==>
        signingKey == None && encryptionKey == None && m1Data == None && handshakeState == old(handshakeState)
        && sent == old(sent) && completions == old(completions) + [Completion(false, failure)]
      ensures failure.None? ==>
        signingKey == Some(NewSigningKeyset(draw.signingKeyId))
        && encryptionKey == Some(NewEncryptionKeyset(draw.encryptionKeyId))
        && m1Data == Some(draw.data) && handshakeState == draw.state
        && sent == old(sent) + [Outgoing(config.handshakeServiceClass, BeginMessage(BeginRequestOf(config.clientId, draw)), receiver)]
        && completions == old(completions)
    {
      signingKey, encryptionKey, m1Data := None, None, None;
      storage.Clear();
      if failure.Some? {
        completions := completions + [Completion(false, failure)];
        return;
      }
      var csk := NewSigningKeyset(draw.signingKeyId);
      var cek := NewEncryptionKeyset(draw.encryptionKeyId);
      var signature := Sign(csk, draw.data).value;
      handshakeState := draw.state;
      var request := BeginRequest(config.clientId, draw.state, WriteKeyset(PublicHalf(csk)), WriteKeyset(PublicHalf(cek)),
                                  draw.data, signature);
      signingKey, encryptionKey, m1Data := Some(csk), Some(cek), Some(draw.data);
      sent := sent + [Outgoing(config.handshakeServiceClass, BeginMessage(request), receiver)];
    }

    /**
     * `completeHandshake`: on success persist the four keys and send
     * COMPLETE with the recorded state nonce; otherwise return the exception
     * for the callback, with the storage untouched.
     */
    method CompleteHandshake(response: BeginResponse, contextInfo: Blob, receiver: nat) returns (error: Option<Exception>)
      modifies this, storage
      ensures signingKey == old(signingKey) && encryptionKey == old(encryptionKey) && m1Data == old(m1Data)
      ensures handshakeState == old(handshakeState) && authorizationState == old(authorizationState)
      ensures completions == old(completions)
      ensures match CompleteHandshakeOf(config.clientId, signingKey, encryptionKey, m1Data, handshakeState, response, contextInfo)
        case Err(e) => error == Some(e) && storage.kv == old(storage.kv) && sent == old(sent)
        case Ok((keys, request)) =>
          error == None && storage.kv == WithClientKeys(old(storage.kv), keys)
          && sent == old(sent) + [Outgoing(config.handshakeServiceClass, CompleteMessage(request), receiver)]
    {
      if signingKey.None? || encryptionKey.None? || m1Data.None? {
        return Some(INVALID_CLIENT_STATE);
      }
      var decrypted := Decrypt(encryptionKey.value, response.m1EncryptedData, response.contextInfo);
      if decrypted.Err? {
        return Some(decrypted.error);
      }
      if m1Data.value != decrypted.value {
        return Some(M1_MISMATCH);
      }
      var ssk := ReadKeyset(response.signingPublicKey);
      if ssk.Err? {
        return Some(ssk.error);
      }
      var verified := Verify(ssk.value, response.m2Signature, response.m2Data);
      if verified.Err? {
        return Some(verified.error);
      }
      var sek := ReadKeyset(response.encryptionPublicKey);
      if sek.Err? {
        return Some(sek.error);
      }
      var m2Encrypted := Encrypt(sek.value, response.m2Data, contextInfo);
      if m2Encrypted.Err? {
        return Some(m2Encrypted.error);
      }
      var keys := ClientKeys(signingKey.value, encryptionKey.value, ssk.value, sek.value);
      var request := CompleteRequest(config.clientId, handshakeState, m2Encrypted.value, contextInfo);
      assert CompleteHandshakeOf(config.clientId, signingKey, encryptionKey, m1Data, handshakeState, response, contextInfo)
        == Ok((keys, request));
      PersistAndSend(keys, request, receiver);
      error := None;
    }

    /** The success tail of `completeHandshake`: store the four keys, then send COMPLETE. */
    method PersistAndSend(keys: ClientKeys, request: CompleteRequest, receiver: nat)
      modifies this, storage
      ensures signingKey == old(signingKey) && encryptionKey == old(encryptionKey) && m1Data == old(m1Data)
      ensures handshakeState == old(handshakeState) && authorizationState == old(authorizationState)
      ensures completions == old(completions)
      ensures storage.kv == WithClientKeys(old(storage.kv), keys)
      ensures sent == old(sent) + [Outgoing(config.handshakeServiceClass, CompleteMessage(request), receiver)]
    {
      var s := storage;
      s.StoreKeyset(ClientPrivateSigningKey, keys.clientSigningKey);
      s.StoreKeyset(ClientPrivateEncryptionKey, keys.clientEncryptionKey);
      s.StoreKeyset(ServerPublicSigningKey, keys.serverSigningKey);
      s.StoreKeyset(ServerPublicEncryptionKey, keys.serverEncryptionKey);
      sent := sent + [Outgoing(config.handshakeServiceClass, CompleteMessage(request), receiver)];
    }

    /**
     * The BEGIN callback of `doHandshake`: a BEGIN error is reported as is,
     * with no further clear; a BEGIN response goes on to `completeHandshake`,
     * whose errors reach the COMPLETE callback, which clears the storage.
     */
    method OnBeginResult(delivery: Delivery<BeginResponse>, contextInfo: Blob, receiver: nat)
      modifies this, storage
      ensures signingKey == old(signingKey) && encryptionKey == old(encryptionKey) && m1Data == old(m1Data)
      ensures handshakeState == old(handshakeState) && authorizationState == old(authorizationState)
      ensures delivery.OnError? ==>
        storage.kv == old(storage.kv) && sent == old(sent)
        && completions == old(completions) + [Completion(false, Some(delivery.exception))]
      ensures delivery.OnSuccess? ==>
        match CompleteHandshakeOf(config.clientId, signingKey, encryptionKey, m1Data, handshakeState, delivery.response, contextInfo)
        case Err(e) => storage.kv == map[] && sent == old(sent) && completions == old(completions) + [Completion(false, Some(e))]
        case Ok((keys, request)) =>
          storage.kv == WithClientKeys(old(storage.kv), keys) && completions == old(completions)
          && sent == old(sent) + [Outgoing(config.handshakeServiceClass, CompleteMessage(request), receiver)]
    {
      if delivery.OnError? {
        completions := completions + [Completion(false, Some(delivery.exception))];
        return;
      }
      var error := CompleteHandshake(delivery.response, contextInfo, receiver);
      if error.Some? {
        storage.Clear();
        completions := completions + [Completion(false, error)];
      }
    }

    /**
     * The COMPLETE callback of `doHandshake`: any parsed response reports
     * success, whatever its `success` field says; an error clears the storage.
     */
    method OnCompleteResult(delivery: Delivery<CompleteResponse>)
      modifies this, storage
      ensures signingKey == old(signingKey) && encryptionKey == old(encryptionKey) && m1Data == old(m1Data)
      ensures handshakeState == old(handshakeState) && authorizationState == old(authorizationState)
      ensures sent == old(sent)
      ensures delivery.OnSuccess? ==> storage.kv == old(storage.kv) && completions == old(completions) + [Completion(true, None)]
      ensures delivery.OnError? ==> storage.kv == map[] && completions == old(completions) + [Completion(false, Some(delivery.exception))]
    {
      if delivery.OnSuccess? {
        completions := completions + [Completion(true, None)];
      } else {
        storage.Clear();
        completions := completions + [Completion(false, Some(delivery.exception))];
      }
    }

    /** The sending half of `checkHandshake`; `data` and `contextInfo` are its random bytes. */
    method CheckHandshake(data: Blob, contextInfo: Blob, receiver: nat) returns (escaped: Option<Exception>)
      modifies this, storage
      ensures signingKey == old(signingKey) && encryptionKey == old(encryptionKey) && m1Data == old(m1Data)
      ensures handshakeState == old(handshakeState) && authorizationState == old(authorizationState)
      ensures var (kv', effect) := CheckStep(old(storage.kv), config, data, contextInfo, receiver);
        storage.kv == kv' && sent == old(sent) + effect.sent && completions == old(completions) + effect.completions
        && escaped == effect.escaped
    {
      var csk := storage.GetKeyset(ClientPrivateSigningKey);
      if csk.Err? {
        escaped := Catch(csk.error);
        return;
      }
      if csk.value.None? {
        completions := completions + [Completion(false, None)];
        return None;
      }
      var signature := Sign(csk.value.value, data);
      if signature.Err? {
        escaped := Catch(signature.error);
        return;
      }
      var sek := storage.GetKeyset(ServerPublicEncryptionKey);
      if sek.Err? {
        escaped := Catch(sek.error);
        return;
      }
      if sek.value.None? {
        completions := completions + [Completion(false, None)];
        return None;
      }
      var encrypted := Encrypt(sek.value.value, data, contextInfo);
      if encrypted.Err? {
        escaped := Catch(encrypted.error);
        return;
      }
      var request := VerifyMessage(config.clientId, data, signature.value, encrypted.value, contextInfo);
      sent := sent + [Outgoing(config.handshakeServiceClass, VerifyRequest(request), receiver)];
      return None;
    }

    /** The catch clause of `checkHandshake`. */
    method Catch(e: Exception) returns (escaped: Option<Exception>)
      modifies this, storage
      ensures signingKey == old(signingKey) && encryptionKey == old(encryptionKey) && m1Data == old(m1Data)
      ensures handshakeState == old(handshakeState) && authorizationState == old(authorizationState)
      ensures var (kv', effect) := CheckCatch(old(storage.kv), e);
        storage.kv == kv' && sent == old(sent) + effect.sent && completions == old(completions) + effect.completions
        && escaped == effect.escaped
    {
      if e == GeneralSecurity {
        storage.Clear();
        completions := completions + [Completion(false, Some(e))];
        return None;
      }
      return Some(e);
    }

    /** The VERIFY callback of `checkHandshake`. */
    method OnVerifyResult(delivery: Delivery<VerifyMessage>) returns (escaped: Option<Exception>)
      modifies this, storage
      ensures signingKey == old(signingKey) && encryptionKey == old(encryptionKey) && m1Data == old(m1Data)
      ensures handshakeState == old(handshakeState) && authorizationState == old(authorizationState)
      ensures var (kv', effect) := VerifyResultStep(old(storage.kv), delivery);
        storage.kv == kv' && sent == old(sent) + effect.sent && completions == old(completions) + effect.completions
        && escaped == effect.escaped
    {
      if delivery.OnError? {
        storage.Clear();
        completions := completions + [Completion(false, Some(delivery.exception))];
        return None;
      }
      var r := delivery.response;
      var ssk := storage.GetKeyset(ServerPublicSigningKey);
      if ssk.Err? {
        return Some(ssk.error);
      }
      if ssk.value.None? {
        storage.Clear();
        completions := completions + [Completion(false, None)];
        return None;
      }
      var verified := Verify(ssk.value.value, r.signature, r.data);
      if verified.Err? {
        return Some(verified.error);
      }
      var cek := storage.GetKeyset(ClientPrivateEncryptionKey);
      if cek.Err? {
        return Some(cek.error);
      }
      if cek.value.None? {
        storage.Clear();
        completions := completions + [Completion(false, None)];
        return None;
      }
      var decrypted := Decrypt(cek.value.value, r.encryptedData, r.contextInfo);
      if decrypted.Err? {
        return Some(decrypted.error);
      }
      if r.data != decrypted.value {
        storage.Clear();
        completions := completions + [Completion(false, None)];
        return None;
      }
      completions := completions + [Completion(true, None)];
      return None;
    }

    /** The authorization reply callback; it changes nothing and throws. */
    method OnAuthorizationResult(delivery: Delivery<AuthResponse>) returns (escaped: Option<Exception>)
      ensures escaped == AuthorizationResultStep(delivery).escaped
      ensures AuthorizationResultStep(delivery).sent == [] && AuthorizationResultStep(delivery).completions == []
    {
      escaped := Some(NotImplemented);
    }

    /** `doAuthorization`; `state` is its random nonce. */
    method DoAuthorization(scopes: seq<ScopeRequest>, includeRefreshToken: bool, state: int64, receiver: nat)
      returns (escaped: Option<Exception>)
      modifies this
      ensures signingKey == old(signingKey) && encryptionKey == old(encryptionKey) && m1Data == old(m1Data)
      ensures handshakeState == old(handshakeState) && authorizationState == state
      ensures var effect := AuthorizationStep(storage.kv, config, scopes, includeRefreshToken, state, receiver);
        sent == old(sent) + effect.sent && completions == old(completions) + effect.completions
        && escaped == effect.escaped
    {
      completions := completions + [Completion(true, None)];
      authorizationState := state;
      var request := AuthRequest(config.clientId, state, scopes, includeRefreshToken);
      var sek := storage.GetKeyset(ServerPublicEncryptionKey);
      if sek.Err? {
        return Some(sek.error);
      }
      var csk := storage.GetKeyset(ClientPrivateSigningKey);
      if csk.Err? {
        return Some(csk.error);
      }
      if sek.value.None? || csk.value.None? {
        completions := completions + [Completion(false, None)];
        return None;
      }
      sent := sent + [Outgoing(config.authorizationServiceClass, AuthorizationRequest(request), receiver)];
      return None;
    }
  }
}
