/**
 * The handshake messages (common Handshake.kt): the action strings, the
 * request intents and response bundles of BEGIN, COMPLETE and VERIFY, and the
 * result receiver that turns a reply into a success or error callback.
 */
module HandshakeWire {
  import opened Wrappers
  import opened Errors
  import opened Crypto
  import opened Bundles

  const RESULT_CODE_OK: int := 200
  const RESULT_CODE_ERROR: int := 400

  // Parameter names: the `.name` of the REQUEST_PARAMS / RESPONSE_PARAMS entries.
  const CLIENT_ID := "CLIENT_ID"
  const STATE := "STATE"
  const SIGNING_PUBLIC_KEY := "SIGNING_PUBLIC_KEY"
  const ENCRYPTION_PUBLIC_KEY := "ENCRYPTION_PUBLIC_KEY"
  const DATA := "DATA"
  const SIGNATURE := "SIGNATURE"
  const ENCRYPTED_DATA := "ENCRYPTED_DATA"
  const CONTEXT_INFO := "CONTEXT_INFO"
  const RESPONSE_RECEIVER := "RESPONSE_RECEIVER"
  const SUCCESS := "SUCCESS"
  const EXCEPTION := "EXCEPTION"

  datatype Action = BEGIN_HANDSHAKE | COMPLETE_HANDSHAKE | VERIFY_HANDSHAKE

  function ToActionString(a: Action): string
  {
    match a
    case BEGIN_HANDSHAKE => "com.curiosityhealth.androidresourceserver.intent.action.BEGIN_HANDSHAKE"
    case COMPLETE_HANDSHAKE => "com.curiosityhealth.androidresourceserver.intent.action.COMPLETE_HANDSHAKE"
    case VERIFY_HANDSHAKE => "com.curiosityhealth.androidresourceserver.intent.action.VERIFY_HANDSHAKE"
  }

  function FromActionString(s: string): (r: Option<Action>)
    ensures r.Some? ==> ToActionString(r.value) == s
    ensures r.None? ==> forall a: Action :: ToActionString(a) != s
  {
    if s == "com.curiosityhealth.androidresourceserver.intent.action.BEGIN_HANDSHAKE" then Some(BEGIN_HANDSHAKE)
    else if s == "com.curiosityhealth.androidresourceserver.intent.action.COMPLETE_HANDSHAKE" then Some(COMPLETE_HANDSHAKE)
    else if s == "com.curiosityhealth.androidresourceserver.intent.action.VERIFY_HANDSHAKE" then Some(VERIFY_HANDSHAKE)
    else None
  }

  /** The enum constant's `.name`, which the older service compares against. */
  function ActionName(a: Action): string
  {
    match a
    case BEGIN_HANDSHAKE => "BEGIN_HANDSHAKE"
    case COMPLETE_HANDSHAKE => "COMPLETE_HANDSHAKE"
    case VERIFY_HANDSHAKE => "VERIFY_HANDSHAKE"
  }

  lemma ActionRoundTrip(a: Action)
    ensures FromActionString(ToActionString(a)) == Some(a)
  {
  }

  /** The bare enum name is never a valid action string. */
  lemma ActionNameIsNotActionString(a: Action)
    ensures FromActionString(ActionName(a)) == None
  {
  }

  /** A reply that carries only an exception. */
  function ErrorBundle(e: Exception): Bundle
  {
    map[EXCEPTION := Exc(e)]
  }

  // ---------------------------------------------------------------------------
  // BEGIN_HANDSHAKE

  datatype BeginRequest = BeginRequest(
    clientId: string,
    state: int64,
    signingPublicKey: Blob,
    encryptionPublicKey: Blob,
    m1Data: Blob,
    m1Signature: Blob)

  function BeginRequestFromIntent(intent: Intent): Option<BeginRequest>
  {
    BeginRequestFromExtras(intent.extras)
  }

  function BeginRequestFromExtras(x: Bundle): Option<BeginRequest>
  {
    var clientId, spk, epk := GetString(x, CLIENT_ID), GetByteArray(x, SIGNING_PUBLIC_KEY), GetByteArray(x, ENCRYPTION_PUBLIC_KEY);
    var data, sig := GetByteArray(x, DATA), GetByteArray(x, SIGNATURE);
    if clientId.None? || spk.None? || epk.None? || data.None? || sig.None? then None
    else Some(BeginRequest(clientId.value, GetLong(x, STATE, 0), spk.value, epk.value, data.value, sig.value))
  }

  function BeginRequestIntent(serverPackage: string, serviceClass: string, request: BeginRequest, receiver: nat): Intent
  {
    Intent(Some(ToActionString(BEGIN_HANDSHAKE)), Some(ComponentName(serverPackage, serviceClass)),
      BeginRequestExtras(request, receiver))
  }

  function BeginRequestExtras(request: BeginRequest, receiver: nat): Bundle
  {
    map[CLIENT_ID := Str(request.clientId),
        STATE := Long(request.state),
        SIGNING_PUBLIC_KEY := Bytes(request.signingPublicKey),
        ENCRYPTION_PUBLIC_KEY := Bytes(request.encryptionPublicKey),
        DATA := Bytes(request.m1Data),
        SIGNATURE := Bytes(request.m1Signature),
        RESPONSE_RECEIVER := Receiver(receiver)]
  }

  lemma BeginRequestRoundTrip(serverPackage: string, serviceClass: string, request: BeginRequest, receiver: nat)
    ensures BeginRequestFromIntent(BeginRequestIntent(serverPackage, serviceClass, request, receiver)) == Some(request)
    ensures GetReceiver(BeginRequestIntent(serverPackage, serviceClass, request, receiver).extras, RESPONSE_RECEIVER) == Some(receiver)
  {
    var x := BeginRequestExtras(request, receiver);
    assert BeginRequestFromExtras(x) == Some(request);
    assert BeginRequestIntent(serverPackage, serviceClass, request, receiver).extras == x;
  }

  /** Every string or byte-array field is required; a missing STATE silently reads as 0. */
  lemma BeginRequestFromIntentDefaults(intent: Intent)
    ensures BeginRequestFromIntent(intent).Some? <==>
      GetString(intent.extras, CLIENT_ID).Some? && GetByteArray(intent.extras, SIGNING_PUBLIC_KEY).Some?
      && GetByteArray(intent.extras, ENCRYPTION_PUBLIC_KEY).Some? && GetByteArray(intent.extras, DATA).Some?
      && GetByteArray(intent.extras, SIGNATURE).Some?
    ensures STATE !in intent.extras && BeginRequestFromIntent(intent).Some? ==> BeginRequestFromIntent(intent).value.state == 0
  {
  }

  datatype BeginResponse = BeginResponse(
    clientId: string,
    state: int64,
    signingPublicKey: Blob,
    encryptionPublicKey: Blob,
    m2Data: Blob,
    m2Signature: Blob,
    m1EncryptedData: Blob,
    contextInfo: Blob)

  function BeginResponseFromBundle(b: Bundle): Option<BeginResponse>
  {
    var clientId, spk, epk := GetString(b, CLIENT_ID), GetByteArray(b, SIGNING_PUBLIC_KEY), GetByteArray(b, ENCRYPTION_PUBLIC_KEY);
    var data, sig := GetByteArray(b, DATA), GetByteArray(b, SIGNATURE);
    var enc, ctx := GetByteArray(b, ENCRYPTED_DATA), GetByteArray(b, CONTEXT_INFO);
    if clientId.None? || spk.None? || epk.None? || data.None? || sig.None? || enc.None? || ctx.None? then None
    else Some(BeginResponse(clientId.value, GetLong(b, STATE, 0), spk.value, epk.value, data.value, sig.value, enc.value, ctx.value))
  }

  function BeginResponseToBundle(r: BeginResponse): Bundle
  {
    map[CLIENT_ID := Str(r.clientId),
        STATE := Long(r.state),
        SIGNING_PUBLIC_KEY := Bytes(r.signingPublicKey),
        ENCRYPTION_PUBLIC_KEY := Bytes(r.encryptionPublicKey),
        DATA := Bytes(r.m2Data),
        SIGNATURE := Bytes(r.m2Signature),
        ENCRYPTED_DATA := Bytes(r.m1EncryptedData),
        CONTEXT_INFO := Bytes(r.contextInfo)]
  }

  lemma BeginResponseRoundTrip(r: BeginResponse)
    ensures BeginResponseFromBundle(BeginResponseToBundle(r)) == Some(r)
  {
  }

  // ---------------------------------------------------------------------------
  // COMPLETE_HANDSHAKE

  datatype CompleteRequest = CompleteRequest(
    clientId: string,
    state: int64,
    m2EncryptedData: Blob,
    contextInfo: Blob)

  function CompleteRequestFromIntent(intent: Intent): Option<CompleteRequest>
  {
    CompleteRequestFromExtras(intent.extras)
  }

  function CompleteRequestFromExtras(x: Bundle): Option<CompleteRequest>
  {
    var clientId, enc, ctx := GetString(x, CLIENT_ID), GetByteArray(x, ENCRYPTED_DATA), GetByteArray(x, CONTEXT_INFO);
    if clientId.None? || enc.None? || ctx.None? then None
    else Some(CompleteRequest(clientId.value, GetLong(x, STATE, 0), enc.value, ctx.value))
  }

  function CompleteRequestIntent(serverPackage: string, serviceClass: string, request: CompleteRequest, receiver: nat): Intent
  {
    Intent(Some(ToActionString(COMPLETE_HANDSHAKE)), Some(ComponentName(serverPackage, serviceClass)),
      CompleteRequestExtras(request, receiver))
  }

  function CompleteRequestExtras(request: CompleteRequest, receiver: nat): Bundle
  {
    map[CLIENT_ID := Str(request.clientId),
        STATE := Long(request.state),
        ENCRYPTED_DATA := Bytes(request.m2EncryptedData),
        CONTEXT_INFO := Bytes(request.contextInfo),
        RESPONSE_RECEIVER := Receiver(receiver)]
  }

  lemma CompleteRequestRoundTrip(serverPackage: string, serviceClass: string, request: CompleteRequest, receiver: nat)
    ensures CompleteRequestFromIntent(CompleteRequestIntent(serverPackage, serviceClass, request, receiver)) == Some(request)
    ensures GetReceiver(CompleteRequestIntent(serverPackage, serviceClass, request, receiver).extras, RESPONSE_RECEIVER) == Some(receiver)
  {
    var x := CompleteRequestExtras(request, receiver);
    assert CompleteRequestFromExtras(x) == Some(request);
    assert CompleteRequestIntent(serverPackage, serviceClass, request, receiver).extras == x;
  }

  datatype CompleteResponse = CompleteResponse(clientId: string, state: int64, success: bool)

  function CompleteResponseFromBundle(b: Bundle): Option<CompleteResponse>
  {
    match GetString(b, CLIENT_ID)
    case Some(clientId) => Some(CompleteResponse(clientId, GetLong(b, STATE, 0), GetBoolean(b, SUCCESS, false)))
    case None => None
  }

  function CompleteResponseToBundle(r: CompleteResponse): Bundle
  {
    map[CLIENT_ID := Str(r.clientId), STATE := Long(r.state), SUCCESS := Bool(r.success)]
  }

  lemma CompleteResponseRoundTrip(r: CompleteResponse)
    ensures CompleteResponseFromBundle(CompleteResponseToBundle(r)) == Some(r)
  {
  }

  /** Only CLIENT_ID is required; a bundle without SUCCESS reads as an unsuccessful completion. */
  lemma CompleteResponseDefaults(b: Bundle)
    ensures CompleteResponseFromBundle(b).Some? <==> GetString(b, CLIENT_ID).Some?
    ensures SUCCESS !in b && CompleteResponseFromBundle(b).Some? ==> !CompleteResponseFromBundle(b).value.success
  {
  }

  // ---------------------------------------------------------------------------
  // VERIFY_HANDSHAKE (no state)

  datatype VerifyMessage = VerifyMessage(
    clientId: string,
    data: Blob,
    signature: Blob,
    encryptedData: Blob,
    contextInfo: Blob)

  function VerifyRequestFromIntent(intent: Intent): Option<VerifyMessage>
  {
    VerifyFromExtras(intent.extras)
  }

  /** The request and the response of VERIFY carry the same five fields under the same names. */
  function VerifyFromExtras(x: Bundle): Option<VerifyMessage>
  {
    var clientId, data, sig := GetString(x, CLIENT_ID), GetByteArray(x, DATA), GetByteArray(x, SIGNATURE);
    var enc, ctx := GetByteArray(x, ENCRYPTED_DATA), GetByteArray(x, CONTEXT_INFO);
    if clientId.None? || data.None? || sig.None? || enc.None? || ctx.None? then None
    else Some(VerifyMessage(clientId.value, data.value, sig.value, enc.value, ctx.value))
  }

  function VerifyResponseToBundle(r: VerifyMessage): Bundle
  {
    map[CLIENT_ID := Str(r.clientId),
        DATA := Bytes(r.data),
        SIGNATURE := Bytes(r.signature),
        ENCRYPTED_DATA := Bytes(r.encryptedData),
        CONTEXT_INFO := Bytes(r.contextInfo)]
  }

  function VerifyRequestIntent(serverPackage: string, serviceClass: string, request: VerifyMessage, receiver: nat): Intent
  {
    Intent(
      Some(ToActionString(VERIFY_HANDSHAKE)),
      Some(ComponentName(serverPackage, serviceClass)),
      VerifyResponseToBundle(request)[RESPONSE_RECEIVER := Receiver(receiver)])
  }

  lemma VerifyRequestRoundTrip(serverPackage: string, serviceClass: string, request: VerifyMessage, receiver: nat)
    ensures VerifyRequestFromIntent(VerifyRequestIntent(serverPackage, serviceClass, request, receiver)) == Some(request)
    ensures GetReceiver(VerifyRequestIntent(serverPackage, serviceClass, request, receiver).extras, RESPONSE_RECEIVER) == Some(receiver)
  {
    var x := VerifyResponseToBundle(request)[RESPONSE_RECEIVER := Receiver(receiver)];
    assert VerifyFromExtras(x) == Some(request);
    assert VerifyRequestIntent(serverPackage, serviceClass, request, receiver).extras == x;
  }

  lemma VerifyResponseRoundTrip(r: VerifyMessage)
    ensures VerifyFromExtras(VerifyResponseToBundle(r)) == Some(r)
  {
  }

  // ---------------------------------------------------------------------------
  // ResponseReceiver.onReceiveResult

  datatype Delivery<R> = OnSuccess(response: R) | OnError(exception: Exception)

  const MALFORMED_RESPONSE := HandshakeMalformedResponse("malformed response")

  /**
   * Which callback `onReceiveResult(code, data)` invokes, and with what: a
   * parsed response for code 200, MalformedResponse for an unparsable OK
   * bundle, otherwise the carried exception or MalformedResponse.
   */
  function Dispatch<R>(parse: Bundle -> Option<R>, code: int, data: Bundle): Delivery<R>
  {
    if code == RESULT_CODE_OK then
      match parse(data)
      case Some(r) => OnSuccess(r)
      case None => OnError(MALFORMED_RESPONSE)
    else
      match GetException(data, EXCEPTION)
      case Some(e) => OnError(e)
      case None => OnError(MALFORMED_RESPONSE)
  }

  /** A response sent with code 200 reaches `onSuccess` unchanged. */
  lemma DispatchDeliversSuccess<R>(parse: Bundle -> Option<R>, encode: R -> Bundle, r: R)
    requires parse(encode(r)) == Some(r)
    ensures Dispatch(parse, RESULT_CODE_OK, encode(r)) == OnSuccess(r)
  {
  }

  /** An error reply reaches `onError` with the exception it carries. */
  lemma DispatchDeliversError<R>(parse: Bundle -> Option<R>, e: Exception, code: int)
    requires code != RESULT_CODE_OK
    ensures Dispatch(parse, code, ErrorBundle(e)) == OnError(e)
  {
  }

  /** Every outcome is one of: the parsed OK response, the carried exception, or MalformedResponse. */
  lemma DispatchCases<R>(parse: Bundle -> Option<R>, code: int, data: Bundle)
    ensures Dispatch(parse, code, data).OnSuccess? <==> code == RESULT_CODE_OK && parse(data).Some?
    ensures Dispatch(parse, code, data).OnSuccess? ==> Some(Dispatch(parse, code, data).response) == parse(data)
    ensures Dispatch(parse, code, data).OnError? ==>
      Dispatch(parse, code, data).exception == MALFORMED_RESPONSE
      || (code != RESULT_CODE_OK && GetException(data, EXCEPTION) == Some(Dispatch(parse, code, data).exception))
  {
  }

  /** The object a ResponseReceiver calls back; it records every callback it receives, in order. */
  class Callback<R> {
    var delivered: seq<Delivery<R>>

    constructor ()
      ensures delivered == []
    {
      delivered := [];
    }
  }

  /**
   * `BeginHandshake/CompleteHandshake/VerifyHandshake.ResponseReceiver` (and the
   * identical `Authorization.ResponseReceiver`): they differ only in the parser.
   */
  class ResponseReceiver<R> {
    const parse: Bundle -> Option<R>
    var callback: Option<Callback<R>>

    constructor (parse: Bundle -> Option<R>)
      ensures this.parse == parse && callback == None
    {
      this.parse := parse;
      callback := None;
    }

    method SetCallback(cb: Option<Callback<R>>)
      modifies this
      ensures callback == cb
    {
      callback := cb;
    }

    /** With no callback set nothing happens; otherwise exactly one callback is made. */
    method OnReceiveResult(code: int, data: Bundle)
      modifies if callback.Some? then {callback.value} else {}
      ensures callback.Some? ==> callback.value.delivered == old(callback.value.delivered) + [Dispatch(parse, code, data)]
    {
      var cb := callback;
      if cb.Some? {
        var delivery: Delivery<R>;
        if code == RESULT_CODE_OK {
          var response := parse(data);
          if response.Some? {
            delivery := OnSuccess(response.value);
          } else {
            delivery := OnError(MALFORMED_RESPONSE);
          }
        } else {
          var exception := GetException(data, EXCEPTION);
          if exception.Some? {
            delivery := OnError(exception.value);
          } else {
            delivery := OnError(MALFORMED_RESPONSE);
          }
        }
        cb.value.delivered := cb.value.delivered + [delivery];
      }
    }
  }
}
