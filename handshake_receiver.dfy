/**
 * The server side of the handshake (HandshakeBroadcastReceiver). BEGIN
 * verifies the client's m1 signature, stores a pending session under
 * (clientId, state) and answers with fresh server keys, a signed m2 and m1
 * encrypted for the client. COMPLETE checks the state nonce and the client's
 * decryption of m2, then promotes the pending keys to the client registry.
 * VERIFY re-checks a registered handshake with a fresh signed and encrypted
 * challenge.
 *
 * Each handler is a method that updates the two stores step by step, as the
 * receiver does, and is proved equal to a step function from the old stores
 * to the new stores and the reply; the protocol properties are lemmas about
 * the step functions.
 */
module HandshakeServer {
  import opened Wrappers
  import opened Errors
  import opened Crypto
  import opened Bundles
  import opened KeyValue
  import opened HandshakeStorage
  import opened HandshakeWire
  import opened ClientManagement

  /** What handling one intent leads to. */
  datatype Outcome =
    | NoReply                    // nothing happens (a null intent)
    | Replied(reply: Reply)      // `resultReceiver.send(code, bundle)`
    | Crashed(exception: Exception)  // an exception escapes `onReceive`; no reply is sent

  /** The random bytes and the fresh key material one handler run draws. */
  datatype Fresh = Fresh(contextInfo: Blob, data: Blob, signingKeyId: nat, encryptionKeyId: nat)

  function ErrorReply(e: Exception): Reply
  {
    Reply(RESULT_CODE_ERROR, ErrorBundle(e))
  }

  const UNKNOWN_CLIENT_OR_STATE := HandshakeMalformedRequest("Unknown client or invalid state")
  const INVALID_DATA := HandshakeMalformedRequest("Invalid data")
  const COULD_NOT_SAVE := HandshakeMalformedRequest("Could not save client info")
  const NEEDS_HANDSHAKE := HandshakeMalformedRequest("Needs handshake")
  const UNPARSABLE_REQUEST := HandshakeMalformedRequest("could not generate request from intent")
  const ACTION_NOT_SUPPORTED := HandshakeMalformedRequest("Action not supported")

  // ---------------------------------------------------------------------------
  // BEGIN_HANDSHAKE

  /** The two client keys BEGIN parsed and the response it answers with. */
  datatype BeginSession = BeginSession(clientSigningPublicKey: Keyset, clientEncryptionPublicKey: Keyset, response: BeginResponse)

  /**
   * The crypto steps of BEGIN, in the order they run: read both client keys,
   * verify the m1 signature, encrypt m1 for the client, and sign the fresh m2
   * with a fresh server signing key (which cannot fail).
   */
  function BeginSessionOf(request: BeginRequest, draw: Fresh): Result<BeginSession, Exception>
  {
    match ReadKeyset(request.signingPublicKey)
    case Err(e) => Err(e)
    case Ok(csk) =>
      match ReadKeyset(request.encryptionPublicKey)
      case Err(e) => Err(e)
      case Ok(cek) =>
        match Verify(csk, request.m1Signature, request.m1Data)
        case Err(e) => Err(e)
        case Ok(_) =>
          match Encrypt(cek, request.m1Data, draw.contextInfo)
          case Err(e) => Err(e)
          case Ok(encrypted) =>
            var ssk, sek := NewSigningKeyset(draw.signingKeyId), NewEncryptionKeyset(draw.encryptionKeyId);
            var signature := Sign(ssk, draw.data).value;
            Ok(BeginSession(csk, cek, BeginResponse(request.clientId, request.state,
              WriteKeyset(PublicHalf(ssk)), WriteKeyset(PublicHalf(sek)),
              draw.data, signature, encrypted, draw.contextInfo)))
  }

  /** The pending store after a successful BEGIN: the client's entries cleared, then the session written. */
  function BegunStore(kv: Store, request: BeginRequest, session: BeginSession, draw: Fresh): Store
  {
    var c, s := request.clientId, request.state;
    WithoutPrefix(kv, c)
      [StateKey(c) := LongValue(s)]
      [PendingKey(c, s, KeyFieldName(ClientPublicSigningKey)) := KeysetValue(session.clientSigningPublicKey)]
      [PendingKey(c, s, KeyFieldName(ClientPublicEncryptionKey)) := KeysetValue(session.clientEncryptionPublicKey)]
      [PendingKey(c, s, M2_DATA) := ByteArray(draw.data)]
      [PendingKey(c, s, KeyFieldName(ServerPrivateSigningKey)) := KeysetValue(NewSigningKeyset(draw.signingKeyId))]
      [PendingKey(c, s, KeyFieldName(ServerPrivateEncryptionKey)) := KeysetValue(NewEncryptionKeyset(draw.encryptionKeyId))]
  }

  /** BEGIN as a function of the pending store: the new pending store and the reply. */
  function BeginStep(kv: Store, request: BeginRequest, draw: Fresh): (Store, Reply)
  {
    match BeginSessionOf(request, draw)
    case Err(e) => (WithoutPrefix(kv, request.clientId), ErrorReply(e))
    case Ok(session) => (BegunStore(kv, request, session, draw), Reply(RESULT_CODE_OK, BeginResponseToBundle(session.response)))
  }

  /** Writing under a key of the client changes nothing that a clear of the client leaves. */
  lemma ClearedViewUnchanged(kv: Store, c: string, k: string, v: StoredValue, base: Store)
    requires WithoutPrefix(kv, c) == WithoutPrefix(base, c) && c <= k
    ensures WithoutPrefix(kv[k := v], c) == WithoutPrefix(base, c)
  {
    WithoutPrefixAbsorbsWrite(kv, c, k, v);
  }

  lemma PendingKeyHasClientPrefix(c: string, s: int64, field: string)
    ensures c <= PendingKey(c, s, field) && c <= StateKey(c)
  {
    var x := Decimal.IntToString(s);
    assert PendingKey(c, s, field) == c + ("." + x + "." + field);
  }

  /**
   * `handleBeginHandshake`: clear the client, store the state, then parse,
   * verify, encrypt and store step by step; any crypto or I/O exception
   * clears the client again and is sent back.
   */
  method HandleBeginHandshake(request: BeginRequest, storage: SampleHandshakeServiceStorage, draw: Fresh)
    returns (reply: Reply)
    modifies storage
    ensures (storage.kv, reply) == BeginStep(old(storage.kv), request, draw)
  {
    var c, s := request.clientId, request.state;
    ghost var base := old(storage.kv);
    PendingKeyHasClientPrefix(c, s, M2_DATA);
    forall f: KeyField ensures c <= PendingKey(c, s, KeyFieldName(f)) {
      PendingKeyHasClientPrefix(c, s, KeyFieldName(f));
    }
    storage.Clear(c);
    WithoutPrefixIdempotent(base, c);
    ClearedViewUnchanged(storage.kv, c, StateKey(c), LongValue(s), base);
    storage.StoreState(c, s);

    var csk := ReadKeyset(request.signingPublicKey);
    if csk.Err? {
      storage.Clear(c);
      reply := ErrorReply(csk.error);
      return;
    }
    ClearedViewUnchanged(storage.kv, c, PendingKey(c, s, KeyFieldName(ClientPublicSigningKey)), KeysetValue(csk.value), base);
    storage.StoreKeyset(csk.value, ClientPublicSigningKey, c, s);

    var cek := ReadKeyset(request.encryptionPublicKey);
    if cek.Err? {
      storage.Clear(c);
      reply := ErrorReply(cek.error);
      return;
    }
    ClearedViewUnchanged(storage.kv, c, PendingKey(c, s, KeyFieldName(ClientPublicEncryptionKey)), KeysetValue(cek.value), base);
    storage.StoreKeyset(cek.value, ClientPublicEncryptionKey, c, s);

    var verified := Verify(csk.value, request.m1Signature, request.m1Data);
    if verified.Err? {
      storage.Clear(c);
      reply := ErrorReply(verified.error);
      return;
    }

    var encrypted := Encrypt(cek.value, request.m1Data, draw.contextInfo);
    if encrypted.Err? {
      storage.Clear(c);
      reply := ErrorReply(encrypted.error);
      return;
    }

    storage.StoreM2Data(draw.data, c, s);
    var ssk := NewSigningKeyset(draw.signingKeyId);
    storage.StoreKeyset(ssk, ServerPrivateSigningKey, c, s);
    var sek := NewEncryptionKeyset(draw.encryptionKeyId);
    storage.StoreKeyset(sek, ServerPrivateEncryptionKey, c, s);
    var signature := Sign(ssk, draw.data).value;

    var response := BeginResponse(c, s, WriteKeyset(PublicHalf(ssk)), WriteKeyset(PublicHalf(sek)),
      draw.data, signature, encrypted.value, draw.contextInfo);
    reply := Reply(RESULT_CODE_OK, BeginResponseToBundle(response));
  }

  // ---------------------------------------------------------------------------
  // COMPLETE_HANDSHAKE

  /** `getClientHandshake(clientId, state, storage)`: the four pending keys of the session, or null. */
  function PendingHandshake(kv: Store, clientId: string, state: int64): Result<Option<ClientHandshake>, Exception>
  {
    match PendingKeyset(kv, ClientPublicSigningKey, clientId, state)
    case Err(e) => Err(e)
    case Ok(None) => Ok(None)
    case Ok(Some(cs)) =>
      match PendingKeyset(kv, ClientPublicEncryptionKey, clientId, state)
      case Err(e) => Err(e)
      case Ok(None) => Ok(None)
      case Ok(Some(ce)) =>
        match PendingKeyset(kv, ServerPrivateSigningKey, clientId, state)
        case Err(e) => Err(e)
        case Ok(None) => Ok(None)
        case Ok(Some(ss)) =>
          match PendingKeyset(kv, ServerPrivateEncryptionKey, clientId, state)
          case Err(e) => Err(e)
          case Ok(None) => Ok(None)
          case Ok(Some(se)) => Ok(Some(ClientHandshake(clientId, cs, ce, ss, se)))
  }

  /**
   * The decision of COMPLETE: the handshake to register, or the exception
   * the reply carries. Checks run in order: the state nonce, the stored
   * server encryption key and m2, the decryption of the client's m2, then the
   * four pending keys.
   */
  function CompleteOutcome(kv: Store, request: CompleteRequest): Result<ClientHandshake, Exception>
  {
    var c, s := request.clientId, request.state;
    if PendingState(kv, c) != Some(s) then Err(UNKNOWN_CLIENT_OR_STATE)
    else
      match PendingKeyset(kv, ServerPrivateEncryptionKey, c, s)
      case Err(e) => Err(e)
      case Ok(sek) =>
        var m2 := PendingM2Data(kv, c, s);
        if sek.None? || m2.None? then Err(UNKNOWN_CLIENT_OR_STATE)
        else
          match Decrypt(sek.value, request.m2EncryptedData, request.contextInfo)
          case Err(e) => Err(e)
          case Ok(decrypted) =>
            if m2.value != decrypted then Err(INVALID_DATA)
            else
              match PendingHandshake(kv, c, s)
              case Err(e) => Err(e)
              case Ok(None) => Err(COULD_NOT_SAVE)
              case Ok(Some(h)) => Ok(h)
  }

  /** COMPLETE as a function of both stores: every path ends with the client's pending entries cleared. */
  function CompleteStep(pending: Store, registry: Store, request: CompleteRequest): (Store, Store, Reply)
  {
    var c := request.clientId;
    match CompleteOutcome(pending, request)
    case Err(e) => (WithoutPrefix(pending, c), registry, ErrorReply(e))
    case Ok(h) => (WithoutPrefix(pending, c), WithHandshake(registry, c, h),
                   Reply(RESULT_CODE_OK, CompleteResponseToBundle(CompleteResponse(c, request.state, true))))
  }

  /**
   * `saveClientHandshake`: read the pending session; when all four keys are
   * there, register them and clear the client's pending entries.
   */
  method SaveClientHandshake(clientId: string, state: int64, clients: SampleClientManager, storage: SampleHandshakeServiceStorage)
    returns (saved: Result<bool, Exception>)
    modifies clients, storage
    ensures match PendingHandshake(old(storage.kv), clientId, state)
      case Err(e) => saved == Err(e) && clients.kv == old(clients.kv) && storage.kv == old(storage.kv)
      case Ok(None) => saved == Ok(false) && clients.kv == old(clients.kv) && storage.kv == old(storage.kv)
      case Ok(Some(h)) => saved == Ok(true) && clients.kv == WithHandshake(old(clients.kv), clientId, h)
                          && storage.kv == WithoutPrefix(old(storage.kv), clientId)
  {
    var handshake := PendingHandshake(storage.kv, clientId, state);
    if handshake.Err? {
      return Err(handshake.error);
    }
    if handshake.value.None? {
      return Ok(false);
    }
    clients.RegisterClientHandshake(clientId, handshake.value.value);
    storage.Clear(clientId);
    return Ok(true);
  }

  /** `handleCompleteHandshake` */
  method HandleCompleteHandshake(request: CompleteRequest, clients: SampleClientManager, storage: SampleHandshakeServiceStorage)
    returns (reply: Reply)
    modifies clients, storage
    ensures (storage.kv, clients.kv, reply) == CompleteStep(old(storage.kv), old(clients.kv), request)
  {
    var c, s := request.clientId, request.state;
    var savedState := storage.GetState(c);
    if savedState.None? || savedState.value != s {
      storage.Clear(c);
      reply := ErrorReply(UNKNOWN_CLIENT_OR_STATE);
      return;
    }
    var sek := storage.GetKeyset(ServerPrivateEncryptionKey, c, s);
    if sek.Err? {
      storage.Clear(c);
      reply := ErrorReply(sek.error);
      return;
    }
    var m2 := storage.GetM2Data(c, s);
    if sek.value.None? || m2.None? {
      storage.Clear(c);
      reply := ErrorReply(UNKNOWN_CLIENT_OR_STATE);
      return;
    }
    var decrypted := Decrypt(sek.value.value, request.m2EncryptedData, request.contextInfo);
    if decrypted.Err? {
      storage.Clear(c);
      reply := ErrorReply(decrypted.error);
      return;
    }
    // `assert(m2Data.contentEquals(decryptedM2Data))` is a no-op: JVM assertions are disabled on Android.
    if m2.value != decrypted.value {
      storage.Clear(c);
      reply := ErrorReply(INVALID_DATA);
      return;
    }
    var saved := SaveClientHandshake(c, s, clients, storage);
    if saved.Err? {
      storage.Clear(c);
      reply := ErrorReply(saved.error);
      return;
    }
    if !saved.value {
      storage.Clear(c);
      reply := ErrorReply(COULD_NOT_SAVE);
      return;
    }
    WithoutPrefixIdempotent(old(storage.kv), c);
    reply := Reply(RESULT_CODE_OK, CompleteResponseToBundle(CompleteResponse(c, s, true)));
  }

  // ---------------------------------------------------------------------------
  // VERIFY_HANDSHAKE

  /**
   * The crypto steps of VERIFY against a registered handshake: check the
   * client's signature on its data, decrypt its copy, compare; then sign
   * fresh data with the server key and encrypt it for the client.
   */
  function VerifyResponseOf(h: ClientHandshake, request: VerifyMessage, draw: Fresh): Result<VerifyMessage, Exception>
  {
    match Verify(h.clientPublicSigningKey, request.signature, request.data)
    case Err(e) => Err(e)
    case Ok(_) =>
      match Decrypt(h.serverPrivateEncryptionKey, request.encryptedData, request.contextInfo)
      case Err(e) => Err(e)
      case Ok(decrypted) =>
        if request.data != decrypted then Err(INVALID_DATA)
        else
          match Sign(h.serverPrivateSigningKey, draw.data)
          case Err(e) => Err(e)
          case Ok(signature) =>
            match Encrypt(h.clientPublicEncryptionKey, draw.data, draw.contextInfo)
            case Err(e) => Err(e)
            case Ok(encrypted) => Ok(VerifyMessage(request.clientId, draw.data, signature, encrypted, draw.contextInfo))
  }

  /**
   * VERIFY as a function of the registry. Reading the registered handshake
   * happens outside the try block, so an exception there escapes.
   */
  function VerifyStep(registry: Store, request: VerifyMessage, draw: Fresh): (Store, Outcome)
  {
    match RegisteredHandshake(registry, request.clientId)
    case Err(e) => (registry, Crashed(e))
    case Ok(None) => (registry, Replied(ErrorReply(NEEDS_HANDSHAKE)))
    case Ok(Some(h)) =>
      match VerifyResponseOf(h, request, draw)
      case Err(e) => (WithoutPrefix(registry, request.clientId), Replied(ErrorReply(e)))
      case Ok(response) => (registry, Replied(Reply(RESULT_CODE_OK, VerifyResponseToBundle(response))))
  }

  /** `handleVerifyHandshake` */
  method HandleVerifyHandshake(request: VerifyMessage, clients: SampleClientManager, draw: Fresh)
    returns (outcome: Outcome)
    modifies clients
    ensures (clients.kv, outcome) == VerifyStep(old(clients.kv), request, draw)
  {
    var handshake := clients.GetClientHandshake(request.clientId);
    if handshake.Err? {
      return Crashed(handshake.error);
    }
    if handshake.value.None? {
      return Replied(ErrorReply(NEEDS_HANDSHAKE));
    }
    var h := handshake.value.value;
    var verified := Verify(h.clientPublicSigningKey, request.signature, request.data);
    if verified.Err? {
      clients.ClearClientHandshake(request.clientId);
      return Replied(ErrorReply(verified.error));
    }
    var decrypted := Decrypt(h.serverPrivateEncryptionKey, request.encryptedData, request.contextInfo);
    if decrypted.Err? {
      clients.ClearClientHandshake(request.clientId);
      return Replied(ErrorReply(decrypted.error));
    }
    if request.data != decrypted.value {
      clients.ClearClientHandshake(request.clientId);
      return Replied(ErrorReply(INVALID_DATA));
    }
    var signature := Sign(h.serverPrivateSigningKey, draw.data);
    if signature.Err? {
      clients.ClearClientHandshake(request.clientId);
      return Replied(ErrorReply(signature.error));
    }
    var encrypted := Encrypt(h.clientPublicEncryptionKey, draw.data, draw.contextInfo);
    if encrypted.Err? {
      clients.ClearClientHandshake(request.clientId);
      return Replied(ErrorReply(encrypted.error));
    }
    var response := VerifyMessage(request.clientId, draw.data, signature.value, encrypted.value, draw.contextInfo);
    return Replied(Reply(RESULT_CODE_OK, VerifyResponseToBundle(response)));
  }

  // ---------------------------------------------------------------------------
  // onReceive

  /** The reply to an intent that cannot be handled; with no result receiver in the intent, `send` throws instead. */
  function Refuse(receiver: Option<nat>, e: Exception): Outcome
  {
    if receiver.None? then Crashed(NullPointer) else Replied(ErrorReply(e))
  }

  /**
   * `onReceive` as a function of both stores. A handler is only entered with
   * a result receiver: Kotlin checks the non-null parameter on entry.
   */
  function ReceiveStep(pending: Store, registry: Store, intent: Option<Intent>, draw: Fresh): (Store, Store, Outcome)
  {
    if intent.None? then (pending, registry, NoReply)
    else
      var extras := intent.value.extras;
      var receiver := GetReceiver(extras, RESPONSE_RECEIVER);
      var action := if intent.value.action.Some? then FromActionString(intent.value.action.value) else None;
      match action
      case Some(BEGIN_HANDSHAKE) =>
        (match BeginRequestFromIntent(intent.value)
         case None => (pending, registry, Refuse(receiver, UNPARSABLE_REQUEST))
         case Some(request) =>
           if receiver.None? then (pending, registry, Crashed(NullPointer))
           else
             var (p, r) := BeginStep(pending, request, draw);
             (p, registry, Replied(r)))
      case Some(COMPLETE_HANDSHAKE) =>
        (match CompleteRequestFromIntent(intent.value)
         case None => (pending, registry, Refuse(receiver, UNPARSABLE_REQUEST))
         case Some(request) =>
           if receiver.None? then (pending, registry, Crashed(NullPointer))
           else
             var (p, g, r) := CompleteStep(pending, registry, request);
             (p, g, Replied(r)))
      case Some(VERIFY_HANDSHAKE) =>
        (match VerifyRequestFromIntent(intent.value)
         case None => (pending, registry, Refuse(receiver, UNPARSABLE_REQUEST))
         case Some(request) =>
           if receiver.None? then (pending, registry, Crashed(NullPointer))
           else
             var (g, o) := VerifyStep(registry, request, draw);
             (pending, g, o))
      case None => (pending, registry, Refuse(receiver, ACTION_NOT_SUPPORTED))
  }

  class HandshakeBroadcastReceiver {
    const clientManager: SampleClientManager
    const storage: SampleHandshakeServiceStorage

    constructor (clientManager: SampleClientManager, storage: SampleHandshakeServiceStorage)
      ensures this.clientManager == clientManager && this.storage == storage
    {
      this.clientManager := clientManager;
      this.storage := storage;
    }

    method OnReceive(intent: Option<Intent>, draw: Fresh) returns (outcome: Outcome)
      modifies clientManager, storage
      ensures (storage.kv, clientManager.kv, outcome) == ReceiveStep(old(storage.kv), old(clientManager.kv), intent, draw)
    {
      if intent.None? {
        return NoReply;
      }
      var handshakeIntent := intent.value;
      var receiver := GetReceiver(handshakeIntent.extras, RESPONSE_RECEIVER);
      var action := if handshakeIntent.action.Some? then FromActionString(handshakeIntent.action.value) else None;
      if action == Some(BEGIN_HANDSHAKE) {
        var request := BeginRequestFromIntent(handshakeIntent);
        if request.None? {
          return Refuse(receiver, UNPARSABLE_REQUEST);
        }
        if receiver.None? {
          return Crashed(NullPointer);
        }
        var reply := HandleBeginHandshake(request.value, storage, draw);
        return Replied(reply);
      } else if action == Some(COMPLETE_HANDSHAKE) {
        var request := CompleteRequestFromIntent(handshakeIntent);
        if request.None? {
          return Refuse(receiver, UNPARSABLE_REQUEST);
        }
        if receiver.None? {
          return Crashed(NullPointer);
        }
        var reply := HandleCompleteHandshake(request.value, clientManager, storage);
        return Replied(reply);
      } else if action == Some(VERIFY_HANDSHAKE) {
        var request := VerifyRequestFromIntent(handshakeIntent);
        if request.None? {
          return Refuse(receiver, UNPARSABLE_REQUEST);
        }
        if receiver.None? {
          return Crashed(NullPointer);
        }
        outcome := HandleVerifyHandshake(request.value, clientManager, draw);
      } else {
        return Refuse(receiver, ACTION_NOT_SUPPORTED);
      }
    }
  }
}
