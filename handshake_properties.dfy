/**
 * What the server handshake guarantees, stated over the step functions of
 * HandshakeServer: clear-before-begin, clear on any failure, the state-nonce
 * check, promote-then-clear on success, and the VERIFY policy.
 */
module HandshakeProperties {
  import opened Wrappers
  import opened Errors
  import opened Crypto
  import opened Bundles
  import opened KeyValue
  import opened HandshakeStorage
  import opened HandshakeWire
  import opened ClientManagement
  import opened HandshakeServer

  // ---------------------------------------------------------------------------
  // BEGIN_HANDSHAKE

  /** The keys a successful BEGIN writes: the state key and the five session keys under (clientId, state). */
  predicate BegunKey(c: string, s: int64, k: string)
  {
    k == StateKey(c) || k == PendingKey(c, s, M2_DATA)
    || exists f: KeyField :: k == PendingKey(c, s, KeyFieldName(f))
  }

  /** Away from the keys it writes, the store a successful BEGIN leaves is the cleared store. */
  lemma BegunStoreElsewhere(kv: Store, request: BeginRequest, session: BeginSession, draw: Fresh, k: string)
    requires !BegunKey(request.clientId, request.state, k)
    ensures k in BegunStore(kv, request, session, draw) <==> k in WithoutPrefix(kv, request.clientId)
    ensures k in BegunStore(kv, request, session, draw) ==> BegunStore(kv, request, session, draw)[k] == WithoutPrefix(kv, request.clientId)[k]
  {
    var c, s := request.clientId, request.state;
    assert k != PendingKey(c, s, KeyFieldName(ClientPublicSigningKey));
    assert k != PendingKey(c, s, KeyFieldName(ClientPublicEncryptionKey));
    assert k != PendingKey(c, s, KeyFieldName(ServerPrivateSigningKey));
    assert k != PendingKey(c, s, KeyFieldName(ServerPrivateEncryptionKey));
  }

  /** BEGIN writes and removes only keys that start with the client id. */
  lemma BeginTouchesOnlyClient(kv: Store, request: BeginRequest, draw: Fresh, k: string)
    requires !(request.clientId <= k)
    ensures k in BeginStep(kv, request, draw).0 <==> k in kv
    ensures k in kv ==> BeginStep(kv, request, draw).0[k] == kv[k]
  {
    var c, s := request.clientId, request.state;
    if BeginSessionOf(request, draw).Ok? {
      PendingKeyHasClientPrefix(c, s, M2_DATA);
      forall f: KeyField ensures c <= PendingKey(c, s, KeyFieldName(f)) {
        PendingKeyHasClientPrefix(c, s, KeyFieldName(f));
      }
      BegunStoreElsewhere(kv, request, BeginSessionOf(request, draw).value, draw, k);
    }
  }

  /** BEGIN succeeds exactly when both client keys parse, the m1 signature verifies and m1 can be encrypted for the client. */
  lemma BeginSucceedsExactly(kv: Store, request: BeginRequest, draw: Fresh)
    ensures BeginStep(kv, request, draw).1.code == RESULT_CODE_OK <==>
      ReadKeyset(request.signingPublicKey).Ok? && ReadKeyset(request.encryptionPublicKey).Ok?
      && Verify(ReadKeyset(request.signingPublicKey).value, request.m1Signature, request.m1Data).Ok?
      && Encrypt(ReadKeyset(request.encryptionPublicKey).value, request.m1Data, draw.contextInfo).Ok?
    ensures BeginStep(kv, request, draw).1.code != RESULT_CODE_OK ==>
      BeginStep(kv, request, draw).1.code == RESULT_CODE_ERROR && EXCEPTION in BeginStep(kv, request, draw).1.data
  {
  }

  /** A failed BEGIN leaves nothing pending for the client, nor for any client whose id extends it. */
  lemma BeginFailureLeavesNothingPending(kv: Store, request: BeginRequest, draw: Fresh, c': string, s': int64, f: KeyField)
    requires BeginStep(kv, request, draw).1.code != RESULT_CODE_OK
    requires request.clientId <= c'
    ensures PendingState(BeginStep(kv, request, draw).0, c') == None
    ensures PendingKeyset(BeginStep(kv, request, draw).0, f, c', s') == Ok(None)
    ensures PendingM2Data(BeginStep(kv, request, draw).0, c', s') == None
  {
    ClearForgetsClient(kv, request.clientId, c', s', f);
  }

  /** Reading one pending keyset back from the store a successful BEGIN leaves. */
  lemma BegunKeyset(kv: Store, request: BeginRequest, session: BeginSession, draw: Fresh, f: KeyField)
    ensures PendingKeyset(BegunStore(kv, request, session, draw), f, request.clientId, request.state) ==
      Ok(Some(match f
        case ClientPublicSigningKey => session.clientSigningPublicKey
        case ClientPublicEncryptionKey => session.clientEncryptionPublicKey
        case ServerPrivateSigningKey => NewSigningKeyset(draw.signingKeyId)
        case ServerPrivateEncryptionKey => NewEncryptionKeyset(draw.encryptionKeyId)))
  {
    var c, s := request.clientId, request.state;
    var key := PendingKey(c, s, KeyFieldName(f));
    forall g: KeyField | g != f ensures PendingKey(c, s, KeyFieldName(g)) != key {
      if PendingKey(c, s, KeyFieldName(g)) == key {
        PendingKeyInjective(c, s, KeyFieldName(g), c, s, KeyFieldName(f));
      }
    }
    if PendingKey(c, s, M2_DATA) == key {
      PendingKeyInjective(c, s, M2_DATA, c, s, KeyFieldName(f));
    }
  }

  /** Reading the current state and m2 back from the store a successful BEGIN leaves. */
  lemma BegunStateAndM2(kv: Store, request: BeginRequest, session: BeginSession, draw: Fresh)
    ensures PendingState(BegunStore(kv, request, session, draw), request.clientId) == Some(request.state)
    ensures PendingM2Data(BegunStore(kv, request, session, draw), request.clientId, request.state) == Some(draw.data)
  {
    var c, s := request.clientId, request.state;
    forall f: KeyField ensures StateKey(c) != PendingKey(c, s, KeyFieldName(f)) {
      StateKeyIsNotPendingKey(c, c, s, KeyFieldName(f));
    }
    StateKeyIsNotPendingKey(c, c, s, M2_DATA);
    forall f: KeyField ensures PendingKey(c, s, KeyFieldName(f)) != PendingKey(c, s, M2_DATA) {
      if PendingKey(c, s, KeyFieldName(f)) == PendingKey(c, s, M2_DATA) {
        PendingKeyInjective(c, s, KeyFieldName(f), c, s, M2_DATA);
      }
    }
  }

  /**
   * A successful BEGIN records the request's state as the client's current
   * state, and under (clientId, state) the two client keys it parsed, the
   * fresh m2 and the two fresh server private keys.
   */
  lemma BeginStoresSession(kv: Store, request: BeginRequest, draw: Fresh)
    requires BeginStep(kv, request, draw).1.code == RESULT_CODE_OK
    ensures var kv', c, s := BeginStep(kv, request, draw).0, request.clientId, request.state;
      PendingState(kv', c) == Some(s)
      && PendingM2Data(kv', c, s) == Some(draw.data)
      && PendingHandshake(kv', c, s) == Ok(Some(ClientHandshake(c,
           ReadKeyset(request.signingPublicKey).value, ReadKeyset(request.encryptionPublicKey).value,
           NewSigningKeyset(draw.signingKeyId), NewEncryptionKeyset(draw.encryptionKeyId))))
  {
    var session := BeginSessionOf(request, draw).value;
    BegunStateAndM2(kv, request, session, draw);
    BegunKeyset(kv, request, session, draw, ClientPublicSigningKey);
    BegunKeyset(kv, request, session, draw, ClientPublicEncryptionKey);
    BegunKeyset(kv, request, session, draw, ServerPrivateSigningKey);
    BegunKeyset(kv, request, session, draw, ServerPrivateEncryptionKey);
  }

  /** No key BEGIN writes for one state is a session key of another state. */
  lemma OtherStateKeyNotBegun(c: string, s: int64, s': int64, field: string)
    requires s' != s && '.' !in field && field != "state"
    ensures !BegunKey(c, s, PendingKey(c, s', field))
  {
    var k := PendingKey(c, s', field);
    StateKeyIsNotPendingKey(c, c, s', field);
    if k == PendingKey(c, s, M2_DATA) {
      PendingKeyInjective(c, s, M2_DATA, c, s', field);
    }
    forall f: KeyField ensures k != PendingKey(c, s, KeyFieldName(f)) {
      if k == PendingKey(c, s, KeyFieldName(f)) {
        PendingKeyInjective(c, s, KeyFieldName(f), c, s', field);
      }
    }
  }

  /** Whatever BEGIN does, a session under any other state of the client reads as empty afterwards. */
  lemma BeginForgetsOtherStates(kv: Store, request: BeginRequest, draw: Fresh, s': int64, f: KeyField)
    requires s' != request.state
    ensures PendingKeyset(BeginStep(kv, request, draw).0, f, request.clientId, s') == Ok(None)
    ensures PendingM2Data(BeginStep(kv, request, draw).0, request.clientId, s') == None
  {
    match BeginSessionOf(request, draw)
    case Err(_) => ClearForgetsClient(kv, request.clientId, request.clientId, s', f);
    case Ok(session) => BegunStoreForgetsOtherStates(kv, request, session, draw, s', f);
  }

  /** The successful half of BeginForgetsOtherStates. */
  lemma BegunStoreForgetsOtherStates(kv: Store, request: BeginRequest, session: BeginSession, draw: Fresh, s': int64, f: KeyField)
    requires s' != request.state
    ensures PendingKeyset(BegunStore(kv, request, session, draw), f, request.clientId, s') == Ok(None)
    ensures PendingM2Data(BegunStore(kv, request, session, draw), request.clientId, s') == None
  {
    var c, s := request.clientId, request.state;
    ClearForgetsClient(kv, c, c, s', f);
    assert PendingKeyset(BegunStore(kv, request, session, draw), f, c, s') == Ok(None) by {
      OtherStateKeyNotBegun(c, s, s', KeyFieldName(f));
      BegunStoreElsewhere(kv, request, session, draw, PendingKey(c, s', KeyFieldName(f)));
    }
    OtherStateKeyNotBegun(c, s, s', M2_DATA);
    BegunStoreElsewhere(kv, request, session, draw, PendingKey(c, s', M2_DATA));
  }

  /**
   * The OK reply of BEGIN parses back to a response that echoes the client id
   * and state, whose m1 ciphertext the client opens with its private
   * encryption key, and whose m2 signature verifies under the server signing
   * key it carries.
   */
  lemma BeginResponseUsable(kv: Store, request: BeginRequest, draw: Fresh, clientEncryptionKey: Keyset)
    requires BeginStep(kv, request, draw).1.code == RESULT_CODE_OK
    requires clientEncryptionKey.kind == EncryptionPrivate
    requires ReadKeyset(request.encryptionPublicKey) == Ok(PublicHalf(clientEncryptionKey))
    ensures var r := BeginResponseFromBundle(BeginStep(kv, request, draw).1.data);
      r.Some? && r.value.clientId == request.clientId && r.value.state == request.state
      && Decrypt(clientEncryptionKey, r.value.m1EncryptedData, r.value.contextInfo) == Ok(request.m1Data)
      && ReadKeyset(r.value.signingPublicKey).Ok?
      && Verify(ReadKeyset(r.value.signingPublicKey).value, r.value.m2Signature, r.value.m2Data).Ok?
      && ReadKeyset(r.value.encryptionPublicKey) == Ok(PublicHalf(NewEncryptionKeyset(draw.encryptionKeyId)))
  {
    var session := BeginSessionOf(request, draw).value;
    BeginResponseRoundTrip(session.response);
    DecryptEncrypt(clientEncryptionKey, request.m1Data, draw.contextInfo);
    SignVerify(NewSigningKeyset(draw.signingKeyId), draw.data, session.response.m2Signature);
  }

  // ---------------------------------------------------------------------------
  // COMPLETE_HANDSHAKE

  /** Whatever COMPLETE decides, nothing is pending afterwards for the client or any client whose id extends it. */
  lemma CompleteClearsPending(pending: Store, registry: Store, request: CompleteRequest, c': string, s': int64, f: KeyField)
    requires request.clientId <= c'
    ensures PendingState(CompleteStep(pending, registry, request).0, c') == None
    ensures PendingKeyset(CompleteStep(pending, registry, request).0, f, c', s') == Ok(None)
    ensures PendingM2Data(CompleteStep(pending, registry, request).0, c', s') == None
  {
    ClearForgetsClient(pending, request.clientId, c', s', f);
  }

  /** A COMPLETE whose state is not the client's current state is refused and registers nothing. */
  lemma CompleteChecksState(pending: Store, registry: Store, request: CompleteRequest)
    requires PendingState(pending, request.clientId) != Some(request.state)
    ensures CompleteStep(pending, registry, request).1 == registry
    ensures CompleteStep(pending, registry, request).2 == ErrorReply(UNKNOWN_CLIENT_OR_STATE)
  {
  }

  /** A failed COMPLETE leaves the registry exactly as it was and replies with the error code. */
  lemma CompleteFailureKeepsRegistry(pending: Store, registry: Store, request: CompleteRequest)
    requires CompleteStep(pending, registry, request).2.code != RESULT_CODE_OK
    ensures CompleteStep(pending, registry, request).1 == registry
    ensures CompleteStep(pending, registry, request).2.code == RESULT_CODE_ERROR
  {
  }

  /**
   * An OK from COMPLETE means the request's state was current, the client
   * decrypted the stored m2 with the server key of that session, and the
   * session's four keys are now the client's registered handshake; the reply
   * reports success for the same client and state.
   */
  lemma CompleteSuccessMeansVerified(pending: Store, registry: Store, request: CompleteRequest)
    requires CompleteStep(pending, registry, request).2.code == RESULT_CODE_OK
    ensures var c, s := request.clientId, request.state;
      var h := PendingHandshake(pending, c, s);
      PendingState(pending, c) == Some(s)
      && PendingM2Data(pending, c, s).Some? && h.Ok? && h.value.Some?
      && Decrypt(h.value.value.serverPrivateEncryptionKey, request.m2EncryptedData, request.contextInfo) == Ok(PendingM2Data(pending, c, s).value)
      && RegisteredHandshake(CompleteStep(pending, registry, request).1, c) == h
      && CompleteResponseFromBundle(CompleteStep(pending, registry, request).2.data) == Some(CompleteResponse(c, s, true))
  {
    var c, s := request.clientId, request.state;
    var h := CompleteOutcome(pending, request).value;
    RegisterThenGet(registry, c, h);
    assert h.(clientId := c) == h;
    CompleteResponseRoundTrip(CompleteResponse(c, s, true));
  }

  /** Conversely, a current state, a complete session and a correct m2 ciphertext make COMPLETE register the session. */
  lemma CompleteSucceedsWhenVerified(pending: Store, registry: Store, request: CompleteRequest, h: ClientHandshake, m2: Blob)
    requires PendingState(pending, request.clientId) == Some(request.state)
    requires PendingHandshake(pending, request.clientId, request.state) == Ok(Some(h))
    requires PendingM2Data(pending, request.clientId, request.state) == Some(m2)
    requires Decrypt(h.serverPrivateEncryptionKey, request.m2EncryptedData, request.contextInfo) == Ok(m2)
    ensures CompleteStep(pending, registry, request).2.code == RESULT_CODE_OK
    ensures RegisteredHandshake(CompleteStep(pending, registry, request).1, request.clientId) == Ok(Some(h))
  {
    RegisterThenGet(registry, request.clientId, h);
    assert h.(clientId := request.clientId) == h;
  }

  /** COMPLETE for one client leaves every other client's registered handshake as it was. */
  lemma CompleteKeepsOtherClients(pending: Store, registry: Store, request: CompleteRequest, other: string)
    requires other != request.clientId
    ensures RegisteredHandshake(CompleteStep(pending, registry, request).1, other) == RegisteredHandshake(registry, other)
  {
    if CompleteOutcome(pending, request).Ok? {
      RegisterKeepsOtherHandshakes(registry, request.clientId, CompleteOutcome(pending, request).value, other);
    }
  }

  // ---------------------------------------------------------------------------
  // VERIFY_HANDSHAKE

  /** VERIFY without a registered handshake is refused and changes nothing. */
  lemma VerifyNeedsHandshake(registry: Store, request: VerifyMessage, draw: Fresh)
    requires RegisteredHandshake(registry, request.clientId) == Ok(None)
    ensures VerifyStep(registry, request, draw) == (registry, Replied(ErrorReply(NEEDS_HANDSHAKE)))
  {
  }

  /**
   * With a registered handshake, VERIFY replies OK exactly when the client's
   * challenge checks out; an OK keeps the registry, any failure wipes the
   * client's handshake and its approved scopes.
   */
  lemma VerifyClearsExactlyOnFailure(registry: Store, request: VerifyMessage, draw: Fresh, h: ClientHandshake)
    requires RegisteredHandshake(registry, request.clientId) == Ok(Some(h))
    ensures VerifyStep(registry, request, draw).1.Replied?
    ensures VerifyStep(registry, request, draw).1.reply.code == RESULT_CODE_OK <==> VerifyResponseOf(h, request, draw).Ok?
    ensures VerifyStep(registry, request, draw).1.reply.code == RESULT_CODE_OK ==> VerifyStep(registry, request, draw).0 == registry
    ensures VerifyStep(registry, request, draw).1.reply.code != RESULT_CODE_OK ==>
      RegisteredHandshake(VerifyStep(registry, request, draw).0, request.clientId) == Ok(None)
      && ApprovedScopes(VerifyStep(registry, request, draw).0, request.clientId) == Ok(None)
  {
    ClearHandshakeWipesApprovedScopes(registry, request.clientId);
  }

  /** A signature that does not verify under the registered client key makes VERIFY fail. */
  lemma VerifyRejectsForgedSignature(h: ClientHandshake, request: VerifyMessage, draw: Fresh)
    requires Verify(h.clientPublicSigningKey, request.signature, request.data).Err?
    ensures VerifyResponseOf(h, request, draw).Err?
  {
  }

  /**
   * A client holding the private halves of its registered keys, which signs
   * its data and encrypts it for the registered server key, passes VERIFY;
   * the response signs fresh data that the client can check with the server's
   * public signing key and decrypt with its own private key.
   */
  lemma VerifyAcceptsHonestClient(registry: Store, request: VerifyMessage, draw: Fresh, h: ClientHandshake,
                                  clientSigningKey: Keyset, clientEncryptionKey: Keyset)
    requires RegisteredHandshake(registry, request.clientId) == Ok(Some(h))
    requires clientSigningKey.kind == SigningPrivate && h.clientPublicSigningKey == PublicHalf(clientSigningKey)
    requires clientEncryptionKey.kind == EncryptionPrivate && h.clientPublicEncryptionKey == PublicHalf(clientEncryptionKey)
    requires h.serverPrivateSigningKey.kind == SigningPrivate && h.serverPrivateEncryptionKey.kind == EncryptionPrivate
    requires Sign(clientSigningKey, request.data) == Ok(request.signature)
    requires Encrypt(PublicHalf(h.serverPrivateEncryptionKey), request.data, request.contextInfo) == Ok(request.encryptedData)
    ensures VerifyStep(registry, request, draw).0 == registry
    ensures var o := VerifyStep(registry, request, draw).1;
      o.Replied? && o.reply.code == RESULT_CODE_OK
      && var m := VerifyFromExtras(o.reply.data);
      m.Some? && m.value.clientId == request.clientId
      && Verify(PublicHalf(h.serverPrivateSigningKey), m.value.signature, m.value.data).Ok?
      && Decrypt(clientEncryptionKey, m.value.encryptedData, m.value.contextInfo) == Ok(m.value.data)
  {
    DecryptEncrypt(h.serverPrivateEncryptionKey, request.data, request.contextInfo);
    var response := VerifyResponseOf(h, request, draw).value;
    VerifyResponseRoundTrip(response);
    SignVerify(h.serverPrivateSigningKey, draw.data, response.signature);
    DecryptEncrypt(clientEncryptionKey, draw.data, draw.contextInfo);
  }

  // ---------------------------------------------------------------------------
  // onReceive

  /** An intent without a result receiver makes `onReceive` throw, whatever it asks, and changes no store. */
  lemma ReceiveWithoutReceiverCrashes(pending: Store, registry: Store, intent: Intent, draw: Fresh)
    requires GetReceiver(intent.extras, RESPONSE_RECEIVER).None?
    ensures ReceiveStep(pending, registry, Some(intent), draw) == (pending, registry, Crashed(NullPointer))
  {
    var action := if intent.action.Some? then FromActionString(intent.action.value) else None;
    match action
    case Some(BEGIN_HANDSHAKE) =>
    case Some(COMPLETE_HANDSHAKE) =>
    case Some(VERIFY_HANDSHAKE) =>
    case None =>
  }

  /** An action that is not one of the three handshake actions is refused and changes no store. */
  lemma ReceiveUnsupportedAction(pending: Store, registry: Store, intent: Intent, draw: Fresh, receiver: nat)
    requires intent.action.None? || FromActionString(intent.action.value).None?
    requires GetReceiver(intent.extras, RESPONSE_RECEIVER) == Some(receiver)
    ensures ReceiveStep(pending, registry, Some(intent), draw) == (pending, registry, Replied(ErrorReply(ACTION_NOT_SUPPORTED)))
  {
  }

  /** The bare enum names the older service dispatches on are refused here as unsupported. */
  lemma ReceiveRefusesActionNames(pending: Store, registry: Store, intent: Intent, draw: Fresh, a: Action, receiver: nat)
    requires intent.action == Some(ActionName(a))
    requires GetReceiver(intent.extras, RESPONSE_RECEIVER) == Some(receiver)
    ensures ReceiveStep(pending, registry, Some(intent), draw) == (pending, registry, Replied(ErrorReply(ACTION_NOT_SUPPORTED)))
  {
    ActionNameIsNotActionString(a);
  }

  /** The intents a client builds reach the matching handler with the request they were built from. */
  lemma ReceiveRoutesBegin(pending: Store, registry: Store, pkg: string, cls: string, receiver: nat, draw: Fresh, request: BeginRequest)
    ensures var (p, r) := BeginStep(pending, request, draw);
      ReceiveStep(pending, registry, Some(BeginRequestIntent(pkg, cls, request, receiver)), draw) == (p, registry, Replied(r))
  {
    ActionRoundTrip(BEGIN_HANDSHAKE);
    BeginRequestRoundTrip(pkg, cls, request, receiver);
  }

  lemma ReceiveRoutesComplete(pending: Store, registry: Store, pkg: string, cls: string, receiver: nat, draw: Fresh, request: CompleteRequest)
    ensures var (p, g, r) := CompleteStep(pending, registry, request);
      ReceiveStep(pending, registry, Some(CompleteRequestIntent(pkg, cls, request, receiver)), draw) == (p, g, Replied(r))
  {
    ActionRoundTrip(COMPLETE_HANDSHAKE);
    CompleteRequestRoundTrip(pkg, cls, request, receiver);
  }

  lemma ReceiveRoutesVerify(pending: Store, registry: Store, pkg: string, cls: string, receiver: nat, draw: Fresh, request: VerifyMessage)
    ensures var (g, o) := VerifyStep(registry, request, draw);
      ReceiveStep(pending, registry, Some(VerifyRequestIntent(pkg, cls, request, receiver)), draw) == (pending, g, o)
  {
    ActionRoundTrip(VERIFY_HANDSHAKE);
    VerifyRequestRoundTrip(pkg, cls, request, receiver);
  }
}
