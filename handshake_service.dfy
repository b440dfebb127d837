/**
 * The older job-service variant of the server handshake (HandshakeService).
 * Its BEGIN is the receiver's BEGIN; it has no VERIFY, it dispatches on the
 * bare enum names rather than the action strings clients send, and its
 * COMPLETE neither promotes the session nor clears it on success.
 */
module HandshakeServiceVariant {
  import opened Wrappers
  import opened Errors
  import opened Crypto
  import opened Bundles
  import opened KeyValue
  import opened HandshakeStorage
  import opened HandshakeWire
  import opened HandshakeServer

  /**
   * COMPLETE in the service: the same state, key, m2 and decryption checks
   * as the receiver, but exceptions from the crypto calls are answered
   * without a clear, and success only replies.
   */
  function ServiceCompleteStep(kv: Store, request: CompleteRequest): (Store, Reply)
  {
    var c, s := request.clientId, request.state;
    if PendingState(kv, c) != Some(s) then (WithoutPrefix(kv, c), ErrorReply(UNKNOWN_CLIENT_OR_STATE))
    else
      match PendingKeyset(kv, ServerPrivateEncryptionKey, c, s)
      case Err(e) => (kv, ErrorReply(e))
      case Ok(sek) =>
        var m2 := PendingM2Data(kv, c, s);
        if sek.None? || m2.None? then (WithoutPrefix(kv, c), ErrorReply(UNKNOWN_CLIENT_OR_STATE))
        else
          match Decrypt(sek.value, request.m2EncryptedData, request.contextInfo)
          case Err(e) => (kv, ErrorReply(e))
          case Ok(decrypted) =>
            if m2.value != decrypted then (WithoutPrefix(kv, c), ErrorReply(INVALID_DATA))
            else (kv, Reply(RESULT_CODE_OK, CompleteResponseToBundle(CompleteResponse(c, s, true))))
  }

  /** `onHandleWork` as a function of the pending store; only the bare names of BEGIN and COMPLETE are handled. */
  function ServiceStep(kv: Store, intent: Intent, draw: Fresh): (Store, Outcome)
  {
    var receiver := GetReceiver(intent.extras, RESPONSE_RECEIVER);
    if intent.action == Some(ActionName(BEGIN_HANDSHAKE)) then
      match BeginRequestFromIntent(intent)
      case None => (kv, Refuse(receiver, UNPARSABLE_REQUEST))
      case Some(request) =>
        if receiver.None? then (kv, Crashed(NullPointer))
        else
          var (kv', r) := BeginStep(kv, request, draw);
          (kv', Replied(r))
    else if intent.action == Some(ActionName(COMPLETE_HANDSHAKE)) then
      match CompleteRequestFromIntent(intent)
      case None => (kv, Refuse(receiver, UNPARSABLE_REQUEST))
      case Some(request) =>
        if receiver.None? then (kv, Crashed(NullPointer))
        else
          var (kv', r) := ServiceCompleteStep(kv, request);
          (kv', Replied(r))
    else (kv, Refuse(receiver, ACTION_NOT_SUPPORTED))
  }

  class HandshakeService {
    const storage: SampleHandshakeServiceStorage

    constructor (storage: SampleHandshakeServiceStorage)
      ensures this.storage == storage
    {
      this.storage := storage;
    }

    /** `handleCompleteHandshake` of the service */
    method HandleCompleteHandshake(request: CompleteRequest) returns (reply: Reply)
      modifies storage
      ensures (storage.kv, reply) == ServiceCompleteStep(old(storage.kv), request)
    {
      var c, s := request.clientId, request.state;
      var savedState := storage.GetState(c);
      if savedState.None? || savedState.value != s {
        storage.Clear(c);
        return ErrorReply(UNKNOWN_CLIENT_OR_STATE);
      }
      var sek := storage.GetKeyset(ServerPrivateEncryptionKey, c, s);
      if sek.Err? {
        return ErrorReply(sek.error);
      }
      var m2 := storage.GetM2Data(c, s);
      if sek.value.None? || m2.None? {
        storage.Clear(c);
        return ErrorReply(UNKNOWN_CLIENT_OR_STATE);
      }
      var decrypted := Decrypt(sek.value.value, request.m2EncryptedData, request.contextInfo);
      if decrypted.Err? {
        return ErrorReply(decrypted.error);
      }
      if m2.value != decrypted.value {
        storage.Clear(c);
        return ErrorReply(INVALID_DATA);
      }
      reply := Reply(RESULT_CODE_OK, CompleteResponseToBundle(CompleteResponse(c, s, true)));
    }

    /** `onHandleWork` */
    method OnHandleWork(intent: Intent, draw: Fresh) returns (outcome: Outcome)
      modifies storage
      ensures (storage.kv, outcome) == ServiceStep(old(storage.kv), intent, draw)
    {
      var receiver := GetReceiver(intent.extras, RESPONSE_RECEIVER);
      if intent.action == Some(ActionName(BEGIN_HANDSHAKE)) {
        var request := BeginRequestFromIntent(intent);
        if request.None? {
          return Refuse(receiver, UNPARSABLE_REQUEST);
        }
        if receiver.None? {
          return Crashed(NullPointer);
        }
        var reply := HandleBeginHandshake(request.value, storage, draw);
        return Replied(reply);
      } else if intent.action == Some(ActionName(COMPLETE_HANDSHAKE)) {
        var request := CompleteRequestFromIntent(intent);
        if request.None? {
          return Refuse(receiver, UNPARSABLE_REQUEST);
        }
        if receiver.None? {
          return Crashed(NullPointer);
        }
        var reply := HandleCompleteHandshake(request.value);
        return Replied(reply);
      } else {
        return Refuse(receiver, ACTION_NOT_SUPPORTED);
      }
    }
  }

  // ---------------------------------------------------------------------------
  // Properties

  /** A COMPLETE the service accepts leaves the pending session in place and registers nothing anywhere. */
  lemma ServiceCompleteSuccessKeepsPending(kv: Store, request: CompleteRequest)
    requires ServiceCompleteStep(kv, request).1.code == RESULT_CODE_OK
    ensures ServiceCompleteStep(kv, request).0 == kv
    ensures PendingState(kv, request.clientId) == Some(request.state)
    ensures CompleteResponseFromBundle(ServiceCompleteStep(kv, request).1.data) == Some(CompleteResponse(request.clientId, request.state, true))
  {
    CompleteResponseRoundTrip(CompleteResponse(request.clientId, request.state, true));
  }

  /** A crypto or I/O exception in the service's COMPLETE is replied without clearing the pending session. */
  lemma ServiceCompleteCryptoErrorKeepsPending(kv: Store, request: CompleteRequest, sek: Keyset, m2: Blob)
    requires PendingState(kv, request.clientId) == Some(request.state)
    requires PendingKeyset(kv, ServerPrivateEncryptionKey, request.clientId, request.state) == Ok(Some(sek))
    requires PendingM2Data(kv, request.clientId, request.state) == Some(m2)
    requires Decrypt(sek, request.m2EncryptedData, request.contextInfo).Err?
    ensures ServiceCompleteStep(kv, request) == (kv, ErrorReply(Decrypt(sek, request.m2EncryptedData, request.contextInfo).error))
  {
  }

  /**
   * The service clears the client exactly when it refuses the request itself
   * (state, missing key or m2, data mismatch); an exception thrown by a
   * library call is replied with the store untouched.
   */
  lemma ServiceCompleteClearsOnRefusal(kv: Store, request: CompleteRequest)
    ensures var (kv', r) := ServiceCompleteStep(kv, request);
      var e := GetException(r.data, EXCEPTION);
      (r.code == RESULT_CODE_OK ==> kv' == kv)
      && (e.Some? && e.value.HandshakeMalformedRequest? ==> kv' == WithoutPrefix(kv, request.clientId))
      && (e.Some? && !e.value.HandshakeMalformedRequest? ==> kv' == kv)
  {
  }

  /** Whenever the receiver's COMPLETE succeeds, the service's COMPLETE would succeed on the same pending store. */
  lemma ReceiverSuccessImpliesServiceSuccess(pending: Store, registry: Store, request: CompleteRequest)
    requires CompleteStep(pending, registry, request).2.code == RESULT_CODE_OK
    ensures ServiceCompleteStep(pending, request).1.code == RESULT_CODE_OK
  {
  }

  /**
   * The service accepts a COMPLETE whose session lacks the client keys,
   * which the receiver refuses with "Could not save client info".
   */
  lemma ServiceAcceptsIncompleteSession(c: string, s: int64, sek: Keyset, m2: Blob, ctx: Blob)
    requires sek.kind == EncryptionPrivate
    ensures var kv := map[StateKey(c) := LongValue(s),
                          PendingKey(c, s, KeyFieldName(ServerPrivateEncryptionKey)) := KeysetValue(sek),
                          PendingKey(c, s, M2_DATA) := ByteArray(m2)];
      var request := CompleteRequest(c, s, Encrypt(PublicHalf(sek), m2, ctx).value, ctx);
      ServiceCompleteStep(kv, request).1.code == RESULT_CODE_OK
      && CompleteStep(kv, map[], request).2 == ErrorReply(COULD_NOT_SAVE)
  {
    var kv := map[StateKey(c) := LongValue(s),
                  PendingKey(c, s, KeyFieldName(ServerPrivateEncryptionKey)) := KeysetValue(sek),
                  PendingKey(c, s, M2_DATA) := ByteArray(m2)];
    var sekKey := PendingKey(c, s, KeyFieldName(ServerPrivateEncryptionKey));
    var cskKey := PendingKey(c, s, KeyFieldName(ClientPublicSigningKey));
    StateKeyIsNotPendingKey(c, c, s, KeyFieldName(ServerPrivateEncryptionKey));
    StateKeyIsNotPendingKey(c, c, s, M2_DATA);
    StateKeyIsNotPendingKey(c, c, s, KeyFieldName(ClientPublicSigningKey));
    if sekKey == PendingKey(c, s, M2_DATA) {
      PendingKeyInjective(c, s, KeyFieldName(ServerPrivateEncryptionKey), c, s, M2_DATA);
    }
    if cskKey == sekKey {
      PendingKeyInjective(c, s, KeyFieldName(ClientPublicSigningKey), c, s, KeyFieldName(ServerPrivateEncryptionKey));
    }
    if cskKey == PendingKey(c, s, M2_DATA) {
      PendingKeyInjective(c, s, KeyFieldName(ClientPublicSigningKey), c, s, M2_DATA);
    }
    assert PendingState(kv, c) == Some(s);
    assert PendingKeyset(kv, ServerPrivateEncryptionKey, c, s) == Ok(Some(sek));
    assert PendingM2Data(kv, c, s) == Some(m2);
    assert PendingKeyset(kv, ClientPublicSigningKey, c, s) == Ok(None);
    DecryptEncrypt(sek, m2, ctx);
  }

  /** The action strings clients put in their intents are not the names the service compares against. */
  lemma ServiceRefusesClientActions(kv: Store, pkg: string, cls: string, receiver: nat, draw: Fresh,
                                    begin: BeginRequest, complete: CompleteRequest)
    ensures ServiceStep(kv, BeginRequestIntent(pkg, cls, begin, receiver), draw) == (kv, Replied(ErrorReply(ACTION_NOT_SUPPORTED)))
    ensures ServiceStep(kv, CompleteRequestIntent(pkg, cls, complete, receiver), draw) == (kv, Replied(ErrorReply(ACTION_NOT_SUPPORTED)))
  {
    BeginRequestRoundTrip(pkg, cls, begin, receiver);
    CompleteRequestRoundTrip(pkg, cls, complete, receiver);
  }

  /** VERIFY is not handled by the service, whichever spelling of the action is used. */
  lemma ServiceRefusesVerify(kv: Store, intent: Intent, draw: Fresh, receiver: nat)
    requires intent.action == Some(ActionName(VERIFY_HANDSHAKE)) || intent.action == Some(ToActionString(VERIFY_HANDSHAKE))
    requires GetReceiver(intent.extras, RESPONSE_RECEIVER) == Some(receiver)
    ensures ServiceStep(kv, intent, draw) == (kv, Replied(ErrorReply(ACTION_NOT_SUPPORTED)))
  {
  }
}
