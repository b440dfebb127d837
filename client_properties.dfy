/**
 * Properties of the client's steps, and the handshake run end to end between
 * an honest client and the server's receiver: the BEGIN the client builds is
 * accepted, the server's response passes every check of `completeHandshake`,
 * the COMPLETE that follows registers the client's keys, and a later
 * `checkHandshake` with the persisted keys reports success.
 */
module ClientProperties {
  import opened Wrappers
  import opened Errors
  import opened Crypto
  import opened Bundles
  import opened Scopes
  import opened Sequences
  import opened KeyValue
  import opened ClientManagement
  import opened HandshakeWire
  import opened HandshakeServer
  import opened HandshakeProperties
  import opened AuthorizationWire
  import opened ClientStorage
  import opened ResourceClient
  import ConsentActivity
  import AuthorizationServer
  import AuthorizationProperties

  // ---------------------------------------------------------------------------
  // What the client broadcasts

  /**
   * Every handshake broadcast reaches the server's parser as the request it
   * was built from, with its result receiver. The authorization request does
   * not: its scopes travel as a string array, which the server's parser
   * cannot read, so it parses to no request at all.
   */
  lemma IntentOfRoundTrip(serverPackage: string, o: Outgoing)
    ensures GetReceiver(IntentOf(serverPackage, o).extras, RESPONSE_RECEIVER) == Some(o.receiver)
    ensures IntentOf(serverPackage, o).component == Some(ComponentName(serverPackage, o.serviceClass))
    ensures match o.message
      case BeginMessage(r) => BeginRequestFromIntent(IntentOf(serverPackage, o)) == Some(r)
      case CompleteMessage(r) => CompleteRequestFromIntent(IntentOf(serverPackage, o)) == Some(r)
      case VerifyRequest(r) => VerifyRequestFromIntent(IntentOf(serverPackage, o)) == Some(r)
      case AuthorizationRequest(r) => AuthRequestFromIntent(IntentOf(serverPackage, o)) == Ok(None)
  {
    match o.message
    case BeginMessage(r) => BeginRequestRoundTrip(serverPackage, o.serviceClass, r, o.receiver);
    case CompleteMessage(r) => CompleteRequestRoundTrip(serverPackage, o.serviceClass, r, o.receiver);
    case VerifyRequest(r) => VerifyRequestRoundTrip(serverPackage, o.serviceClass, r, o.receiver);
    case AuthorizationRequest(r) =>
      AuthRequestAsWrittenNeverParses(serverPackage, o.serviceClass, r, o.receiver);
      assert GetReceiver(IntentOf(serverPackage, o).extras, RESPONSE_RECEIVER) == Some(o.receiver);
  }

  /**
   * Where an authorization ends as written: the server's receiver cannot
   * parse the request the client broadcasts and replies with an error, which
   * reaches the client's callback as `onError`; that handler is not
   * implemented, so the client throws NotImplementedError and its caller
   * hears nothing beyond `doAuthorization`'s first success.
   */
  lemma AuthorizationEndsInClientCrash(registry: Store, serverPackage: string, o: Outgoing, lookup: string -> ClientAnswer,
                                       json: ConsentActivity.ScopeJson, activity: ComponentName, consentReceiver: nat)
    requires o.message.AuthorizationRequest?
    requires AuthorizationProperties.HasHandshake(registry, o.message.authorization.clientId)
    ensures var handled := AuthorizationServer.ReceiveAuthorization(registry, Some(IntentOf(serverPackage, o)), true, lookup, json, activity, consentReceiver);
      handled == AuthorizationServer.Done(Replied(ErrorReply(AuthorizationServer.UNPARSABLE_AUTH_REQUEST)))
      && var delivery := Dispatch(AuthResponseFromBundle, RESULT_CODE_ERROR, ErrorBundle(AuthorizationServer.UNPARSABLE_AUTH_REQUEST));
      delivery == OnError(AuthorizationServer.UNPARSABLE_AUTH_REQUEST)
      && AuthorizationResultStep(delivery) == Effect([], [], Some(NotImplemented))
  {
    var r := o.message.authorization;
    AuthorizationProperties.AsWrittenRequestRefused(registry, serverPackage, o.serviceClass, r, o.receiver, lookup, json, activity, consentReceiver);
    AuthDispatchCases(RESULT_CODE_ERROR, ErrorBundle(AuthorizationServer.UNPARSABLE_AUTH_REQUEST), AuthResponse("", 0),
                      AuthorizationServer.UNPARSABLE_AUTH_REQUEST);
  }

  // ---------------------------------------------------------------------------
  // The honest handshake, step by step

  /** The BEGIN a client builds from fresh keys passes every check of the server's BEGIN. */
  lemma HonestBeginAccepted(kv: Store, clientId: string, cdraw: ClientFresh, sdraw: Fresh)
    ensures BeginStep(kv, BeginRequestOf(clientId, cdraw), sdraw).1.code == RESULT_CODE_OK
  {
    var csk := NewSigningKeyset(cdraw.signingKeyId);
    SignVerify(csk, cdraw.data, Sign(csk, cdraw.data).value);
    BeginSucceedsExactly(kv, BeginRequestOf(clientId, cdraw), sdraw);
  }

  /**
   * The server's BEGIN response to an honest client passes `completeHandshake`
   * with the keys, m1 and state nonce the client kept: the client persists its
   * own private keys and the public halves of the server's fresh keys, and
   * sends COMPLETE with m2 encrypted for the server under the new context.
   */
  lemma HonestBeginResponseCompletes(kv: Store, clientId: string, cdraw: ClientFresh, sdraw: Fresh, contextInfo: Blob)
    ensures var r := BeginResponseFromBundle(BeginStep(kv, BeginRequestOf(clientId, cdraw), sdraw).1.data);
      var csk, cek := NewSigningKeyset(cdraw.signingKeyId), NewEncryptionKeyset(cdraw.encryptionKeyId);
      var ssk, sek := NewSigningKeyset(sdraw.signingKeyId), NewEncryptionKeyset(sdraw.encryptionKeyId);
      r.Some? && r.value.clientId == clientId && r.value.state == cdraw.state
      && CompleteHandshakeOf(clientId, Some(csk), Some(cek), Some(cdraw.data), cdraw.state, r.value, contextInfo)
         == Ok((ClientKeys(csk, cek, PublicHalf(ssk), PublicHalf(sek)),
                CompleteRequest(clientId, cdraw.state, Encrypt(PublicHalf(sek), sdraw.data, contextInfo).value, contextInfo)))
  {
    var request := BeginRequestOf(clientId, cdraw);
    var cek := NewEncryptionKeyset(cdraw.encryptionKeyId);
    HonestBeginAccepted(kv, clientId, cdraw, sdraw);
    var session := BeginSessionOf(request, sdraw).value;
    BeginResponseRoundTrip(session.response);
    DecryptEncrypt(cek, cdraw.data, sdraw.contextInfo);
    SignVerify(NewSigningKeyset(sdraw.signingKeyId), sdraw.data, session.response.m2Signature);
  }

  /** The COMPLETE an honest client sends after BEGIN registers its public keys with the server's fresh private keys. */
  lemma HonestHandshakeRegisters(kv: Store, registry: Store, clientId: string, cdraw: ClientFresh, sdraw: Fresh, contextInfo: Blob)
    ensures var pending := BeginStep(kv, BeginRequestOf(clientId, cdraw), sdraw).0;
      var sek := NewEncryptionKeyset(sdraw.encryptionKeyId);
      var complete := CompleteRequest(clientId, cdraw.state, Encrypt(PublicHalf(sek), sdraw.data, contextInfo).value, contextInfo);
      var (_, registry', reply) := CompleteStep(pending, registry, complete);
      reply.code == RESULT_CODE_OK
      && RegisteredHandshake(registry', clientId) == Ok(Some(ClientHandshake(clientId,
           PublicHalf(NewSigningKeyset(cdraw.signingKeyId)), PublicHalf(NewEncryptionKeyset(cdraw.encryptionKeyId)),
           NewSigningKeyset(sdraw.signingKeyId), sek)))
  {
    var request := BeginRequestOf(clientId, cdraw);
    var pending := BeginStep(kv, request, sdraw).0;
    var sek := NewEncryptionKeyset(sdraw.encryptionKeyId);
    var complete := CompleteRequest(clientId, cdraw.state, Encrypt(PublicHalf(sek), sdraw.data, contextInfo).value, contextInfo);
    HonestBeginAccepted(kv, clientId, cdraw, sdraw);
    BeginStoresSession(kv, request, sdraw);
    DecryptEncrypt(sek, sdraw.data, contextInfo);
    var h := ClientHandshake(clientId, PublicHalf(NewSigningKeyset(cdraw.signingKeyId)),
      PublicHalf(NewEncryptionKeyset(cdraw.encryptionKeyId)), NewSigningKeyset(sdraw.signingKeyId), sek);
    CompleteSucceedsWhenVerified(pending, registry, complete, h, sdraw.data);
  }

  // ---------------------------------------------------------------------------
  // checkHandshake with persisted keys

  /** After `completeHandshake` persisted its keys, each slot reads back the key put there. */
  lemma ClientKeysStored(kv: Store, keys: ClientKeys)
    ensures StoredKeyset(WithClientKeys(kv, keys), ClientPrivateSigningKey) == Ok(Some(keys.clientSigningKey))
    ensures StoredKeyset(WithClientKeys(kv, keys), ClientPrivateEncryptionKey) == Ok(Some(keys.clientEncryptionKey))
    ensures StoredKeyset(WithClientKeys(kv, keys), ServerPublicSigningKey) == Ok(Some(keys.serverSigningKey))
    ensures StoredKeyset(WithClientKeys(kv, keys), ServerPublicEncryptionKey) == Ok(Some(keys.serverEncryptionKey))
  {
    var kv1 := kv[ClientKeyName(ClientPrivateSigningKey) := KeysetValue(keys.clientSigningKey)];
    var kv2 := kv1[ClientKeyName(ClientPrivateEncryptionKey) := KeysetValue(keys.clientEncryptionKey)];
    var kv3 := kv2[ClientKeyName(ServerPublicSigningKey) := KeysetValue(keys.serverSigningKey)];
    StoreThenGetKeyset(kv, ClientPrivateSigningKey, keys.clientSigningKey, ClientPrivateSigningKey, AccessToken);
    StoreThenGetKeyset(kv1, ClientPrivateEncryptionKey, keys.clientEncryptionKey, ClientPrivateSigningKey, AccessToken);
    StoreThenGetKeyset(kv2, ServerPublicSigningKey, keys.serverSigningKey, ClientPrivateSigningKey, AccessToken);
    StoreThenGetKeyset(kv2, ServerPublicSigningKey, keys.serverSigningKey, ClientPrivateEncryptionKey, AccessToken);
    StoreThenGetKeyset(kv3, ServerPublicEncryptionKey, keys.serverEncryptionKey, ClientPrivateSigningKey, AccessToken);
    StoreThenGetKeyset(kv3, ServerPublicEncryptionKey, keys.serverEncryptionKey, ClientPrivateEncryptionKey, AccessToken);
    StoreThenGetKeyset(kv3, ServerPublicEncryptionKey, keys.serverEncryptionKey, ServerPublicSigningKey, AccessToken);
  }

  /** The VERIFY request a client with persisted keys sends: its data signed and encrypted for the server. */
  function HonestVerifyRequest(config: ClientConfig, keys: ClientKeys, data: Blob, contextInfo: Blob): VerifyMessage
    requires keys.clientSigningKey.kind == SigningPrivate && keys.serverEncryptionKey.kind == EncryptionPublic
  {
    VerifyMessage(config.clientId, data, Sign(keys.clientSigningKey, data).value,
      Encrypt(keys.serverEncryptionKey, data, contextInfo).value, contextInfo)
  }

  /** Keys as an honest handshake leaves them: the client's private keys and the public halves of the server's. */
  predicate HonestKeys(keys: ClientKeys, h: ClientHandshake)
  {
    keys.clientSigningKey.kind == SigningPrivate && keys.clientEncryptionKey.kind == EncryptionPrivate
    && h.serverPrivateSigningKey.kind == SigningPrivate && h.serverPrivateEncryptionKey.kind == EncryptionPrivate
    && h.clientPublicSigningKey == PublicHalf(keys.clientSigningKey)
    && h.clientPublicEncryptionKey == PublicHalf(keys.clientEncryptionKey)
    && keys.serverSigningKey == PublicHalf(h.serverPrivateSigningKey)
    && keys.serverEncryptionKey == PublicHalf(h.serverPrivateEncryptionKey)
  }

  /** With both keys it needs in storage, `checkHandshake` keeps the storage and sends exactly one VERIFY. */
  lemma HonestCheckSends(kv: Store, keys: ClientKeys, h: ClientHandshake, config: ClientConfig,
                         data: Blob, contextInfo: Blob, receiver: nat)
    requires HonestKeys(keys, h)
    ensures CheckStep(WithClientKeys(kv, keys), config, data, contextInfo, receiver)
      == (WithClientKeys(kv, keys),
          Broadcast(Outgoing(config.handshakeServiceClass, VerifyRequest(HonestVerifyRequest(config, keys, data, contextInfo)), receiver)))
  {
    ClientKeysStored(kv, keys);
  }

  /**
   * The server answers that VERIFY with a response the client accepts: the
   * registry is unchanged, and the VERIFY callback reports success without
   * touching the client's storage.
   */
  lemma HonestVerifyReportsSuccess(kv: Store, registry: Store, keys: ClientKeys, h: ClientHandshake, config: ClientConfig,
                                   data: Blob, contextInfo: Blob, sdraw: Fresh)
    requires HonestKeys(keys, h) && h.clientId == config.clientId
    requires RegisteredHandshake(registry, config.clientId) == Ok(Some(h))
    ensures var (registry', o) := VerifyStep(registry, HonestVerifyRequest(config, keys, data, contextInfo), sdraw);
      registry' == registry && o.Replied?
      && VerifyResultStep(WithClientKeys(kv, keys), Dispatch(VerifyFromExtras, o.reply.code, o.reply.data))
         == (WithClientKeys(kv, keys), Finished(true, None))
  {
    var request := HonestVerifyRequest(config, keys, data, contextInfo);
    VerifyAcceptsHonestClient(registry, request, sdraw, h, keys.clientSigningKey, keys.clientEncryptionKey);
    ClientKeysStored(kv, keys);
    var o := VerifyStep(registry, request, sdraw).1;
    var m := VerifyFromExtras(o.reply.data).value;
    assert Dispatch(VerifyFromExtras, o.reply.code, o.reply.data) == OnSuccess(m);
    HonestVerifyResult(WithClientKeys(kv, keys), keys, h, m);
  }

  lemma HonestVerifyResult(kv: Store, keys: ClientKeys, h: ClientHandshake, m: VerifyMessage)
    requires HonestKeys(keys, h)
    requires StoredKeyset(kv, ServerPublicSigningKey) == Ok(Some(keys.serverSigningKey))
    requires StoredKeyset(kv, ClientPrivateEncryptionKey) == Ok(Some(keys.clientEncryptionKey))
    requires Verify(PublicHalf(h.serverPrivateSigningKey), m.signature, m.data).Ok?
    requires Decrypt(keys.clientEncryptionKey, m.encryptedData, m.contextInfo) == Ok(m.data)
    ensures VerifyResultStep(kv, OnSuccess(m)) == (kv, Finished(true, None))
  {
  }

  // ---------------------------------------------------------------------------
  // The client's steps

  /**
   * `checkHandshake` touches the storage only to clear it, and only for a
   * GeneralSecurityException, which it reports; it either sends VERIFY,
   * reports failure, or lets an exception escape, exactly one of the three.
   */
  lemma CheckStepOutcomes(kv: Store, config: ClientConfig, data: Blob, contextInfo: Blob, receiver: nat)
    ensures var (kv', effect) := CheckStep(kv, config, data, contextInfo, receiver);
      (kv' == kv || (kv' == map[] && effect.completions == [Completion(false, Some(GeneralSecurity))]))
      && |effect.sent| + |effect.completions| + (if effect.escaped.Some? then 1 else 0) == 1
      && (effect.escaped.Some? ==> effect.escaped != Some(GeneralSecurity))
      && (|effect.sent| == 1 ==> StoredKeyset(kv, ClientPrivateSigningKey).Ok? && StoredKeyset(kv, ClientPrivateSigningKey).value.Some?
                                 && StoredKeyset(kv, ServerPublicEncryptionKey).Ok? && StoredKeyset(kv, ServerPublicEncryptionKey).value.Some?)
      && (forall c :: c in effect.completions ==> !c.successful)
  {
  }

  /**
   * The VERIFY callback reports success only when the server's data carries
   * a signature under the stored server key and the ciphertext opens to it
   * with the stored client key; every reported failure clears the storage,
   * and an escaping exception leaves it as it was.
   */
  lemma VerifyResultOutcomes(kv: Store, delivery: Delivery<VerifyMessage>)
    ensures var (kv', effect) := VerifyResultStep(kv, delivery);
      effect.sent == []
      && (effect.escaped.Some? ==> kv' == kv && effect.completions == [])
      && (effect.escaped.None? ==> |effect.completions| == 1)
      && (effect.completions == [Completion(true, None)] ==>
            kv' == kv && delivery.OnSuccess?
            && StoredKeyset(kv, ServerPublicSigningKey).Ok? && StoredKeyset(kv, ServerPublicSigningKey).value.Some?
            && Verify(StoredKeyset(kv, ServerPublicSigningKey).value.value, delivery.response.signature, delivery.response.data).Ok?
            && StoredKeyset(kv, ClientPrivateEncryptionKey).Ok? && StoredKeyset(kv, ClientPrivateEncryptionKey).value.Some?
            && Decrypt(StoredKeyset(kv, ClientPrivateEncryptionKey).value.value, delivery.response.encryptedData,
                       delivery.response.contextInfo) == Ok(delivery.response.data))
      && (|effect.completions| == 1 && !effect.completions[0].successful ==> kv' == map[])
  {
  }

  /**
   * `doAuthorization` reports success before it has looked at anything, so a
   * client without keys hears success and then failure; with both keys it
   * sends exactly one authorization request, carrying the new state nonce.
   */
  lemma AuthorizationReportsSuccessFirst(kv: Store, config: ClientConfig, scopes: seq<ScopeRequest>,
                                         includeRefreshToken: bool, state: int64, receiver: nat)
    ensures var effect := AuthorizationStep(kv, config, scopes, includeRefreshToken, state, receiver);
      1 <= |effect.completions| <= 2 && effect.completions[0] == Completion(true, None)
      && (|effect.completions| == 2 <==>
            StoredKeyset(kv, ServerPublicEncryptionKey).Ok? && StoredKeyset(kv, ClientPrivateSigningKey).Ok?
            && (StoredKeyset(kv, ServerPublicEncryptionKey).value.None? || StoredKeyset(kv, ClientPrivateSigningKey).value.None?))
      && (|effect.completions| == 2 ==> effect.completions[1] == Completion(false, None))
      && (effect.sent != [] ==>
            effect.sent == [Outgoing(config.authorizationServiceClass,
                                     AuthorizationRequest(AuthRequest(config.clientId, state, scopes, includeRefreshToken)), receiver)])
  {
  }

  /** With both keys persisted by a handshake, `doAuthorization` sends the request and reports nothing else. */
  lemma AuthorizationSendsWithKeys(kv: Store, keys: ClientKeys, config: ClientConfig, scopes: seq<ScopeRequest>,
                                   includeRefreshToken: bool, state: int64, receiver: nat)
    ensures AuthorizationStep(WithClientKeys(kv, keys), config, scopes, includeRefreshToken, state, receiver)
      == Effect([Outgoing(config.authorizationServiceClass,
                          AuthorizationRequest(AuthRequest(config.clientId, state, scopes, includeRefreshToken)), receiver)],
                [Completion(true, None)], None)
  {
    ClientKeysStored(kv, keys);
  }

  /**
   * `authorize`: a successful check goes straight to authorization and no
   * handshake is run; a failed check runs exactly one handshake. The caller
   * first hears success exactly when the check or that handshake succeeded;
   * a failed handshake is reported with its exception and nothing is sent;
   * whatever is sent is the one authorization request.
   */
  lemma AuthorizePolicy(check: Completion, handshake: Completion, kv: Store, config: ClientConfig,
                        scopes: seq<ScopeRequest>, includeRefreshToken: bool, state: int64, receiver: nat)
    ensures var run := AuthorizeRunOf(check, handshake, kv, config, scopes, includeRefreshToken, state, receiver);
      run.handshakes == (if check.successful then 0 else 1)
      && run.effect.completions != []
      && (run.effect.completions[0].successful <==> check.successful || handshake.successful)
      && (!check.successful && !handshake.successful ==> run.effect == Finished(false, handshake.exception))
      && (check.successful || handshake.successful ==>
            run.effect == AuthorizationStep(kv, config, scopes, includeRefreshToken, state, receiver))
      && (run.effect.sent != [] ==>
            run.effect.sent == [Outgoing(config.authorizationServiceClass,
                                         AuthorizationRequest(AuthRequest(config.clientId, state, scopes, includeRefreshToken)), receiver)])
  {
    AuthorizationReportsSuccessFirst(kv, config, scopes, includeRefreshToken, state, receiver);
  }

  /**
   * A client holding the keys of an honest handshake, facing the server that
   * registered them: the check's VERIFY is answered with success, so
   * `authorize` runs no handshake and ends by reporting success and sending
   * the authorization request.
   */
  lemma HonestAuthorizeSendsRequest(kv: Store, registry: Store, keys: ClientKeys, h: ClientHandshake, config: ClientConfig,
                                    data: Blob, contextInfo: Blob, sdraw: Fresh, handshake: Completion,
                                    scopes: seq<ScopeRequest>, includeRefreshToken: bool, state: int64, receiver: nat)
    requires HonestKeys(keys, h) && h.clientId == config.clientId
    requires RegisteredHandshake(registry, config.clientId) == Ok(Some(h))
    ensures var o := VerifyStep(registry, HonestVerifyRequest(config, keys, data, contextInfo), sdraw).1;
      o.Replied?
      && var effect := VerifyResultStep(WithClientKeys(kv, keys), Dispatch(VerifyFromExtras, o.reply.code, o.reply.data)).1;
      effect.completions == [Completion(true, None)]
      && AuthorizeRunOf(effect.completions[0], handshake, WithClientKeys(kv, keys), config, scopes, includeRefreshToken, state, receiver)
         == AuthorizeRun(0, Effect([Outgoing(config.authorizationServiceClass,
                                             AuthorizationRequest(AuthRequest(config.clientId, state, scopes, includeRefreshToken)), receiver)],
                                   [Completion(true, None)], None))
  {
    HonestVerifyReportsSuccess(kv, registry, keys, h, config, data, contextInfo, sdraw);
    AuthorizationSendsWithKeys(kv, keys, config, scopes, includeRefreshToken, state, receiver);
  }
}
