# AndroidResourceServer protocol core, in Dafny

AndroidResourceServer lets a client app on an Android device obtain access
tokens from a resource-server app on the same device, and then read content
through the server's content provider. This project models the decision
logic of that protocol, with the Android, Tink, JWT and Moshi calls replaced
by small abstract collaborators, and proves properties of it.

What is modelled, layer by layer:

- **Scope vocabulary** (`Scopes`): `ScopeAccess` and `ScopeRequest` and
  their `"id.read"` / `"id.write"` string codec, including its two exception
  kinds, and `AllowedScope.toScopeRequest`.
- **Wire codecs** (`Bundles`, `HandshakeWire`, `AuthorizationWire`): a
  Bundle or Intent is a map from extra names to tagged values. Each
  handshake and authorization request is built with `requestIntent` and read
  with `fromIntent`, and each response goes through `toBundle` and
  `responseFromBundle`. A `ResponseReceiver` dispatches on the result code.
  Round trips and default-on-absent rules are proved.
- **Crypto** (`Crypto`): symbolic. Keysets, ciphertexts and signatures are
  values; decrypting what was encrypted to the matching public key, under
  the same context info, gives the plaintext back, and a different context
  info makes it fail; a signature verifies exactly when the matching private
  key made it.
- **Stores** (`KeyValue`, `HandshakeStorage`, `ClientManagement`,
  `ClientStorage`): string-keyed maps mutated in place. `clear` removes every
  key that starts with the raw client id. So it also removes the entries of
  any client whose id extends that one. Clearing a client's handshake also
  removes its approved scopes.
- **Server handshake** (`HandshakeServer`, `HandshakeProperties`,
  `HandshakeServiceVariant`): BEGIN, COMPLETE and VERIFY over the pending
  session store and the client registry. Each handler is a method proved
  equal to a step function of the old state. Lemmas about those functions
  cover clear-before-begin, clear-on-any-failure, the state-nonce check and
  promote-then-clear. The older `HandshakeService` is modelled as its own
  variant.
- **Client** (`ResourceClient`, `ClientProperties`): `AuthorizationClient`
  holds the pending keys, m1 and the state nonces, and records every
  broadcast and every completion call in order. Lemmas cover an honest run
  end to end: BEGIN is accepted, COMPLETE registers the handshake, and
  VERIFY reports success.
- **Consent and tokens** (`ConsentActivity`, `AuthorizationServer`,
  `AuthorizationProperties`, `Tokens`, `SampleTokens`): the consent screen
  has its scope filtering and sorting, its list-adaptor index arithmetic,
  its switch state and its result codec. The consent callback records or
  clears the approved scopes and issues tokens. Token generation and
  validation work over abstract JWT claims.
- **Content access** (`ApiViews`, `SampleApi`, `ContentProvider`):
  `handleRequest` maps failures to 400 and 403 and success to 200; its 401
  branch cannot be reached (see Findings). The sample view has its token and
  scope gate. The content provider has its
  handlers, `getTokenString`, `generateCursor` and `query`.

Clocks, random draws (m1, m2, context info, key ids, state nonces, the token
secret) and result-receiver identities are method parameters. Every
broadcast, reply or `startActivity` is returned as a value or appended to a
record instead of being sent.

Facts about the code that a reader might not expect, and that the model
keeps:

- The authorization request travels as plaintext extras, with no encrypted,
  signed envelope and no cross-check of the client id inside it.
- A permission gate tests whether the one required scope is a member of the
  approved list. No intersection count is computed.
- The content provider does not compare the client named by the access token
  with the `client_id` query parameter. The model keeps both.
- The client's authorization callbacks `onSuccess` and `onError` are
  `TODO("not implemented")`: the model has them throw NotImplementedError, so
  an authorization never reaches the client's code.

Some call sites in the sources do not match the definitions they call. In
those cases the definitions are modelled as written, not their callers.

## Model

| member | source | states |
|---|---|---|
| Sequences.Dedup | resourceserversampleapp/src/main/java/com/curiosityhealth/androidresourceserver/resourceserversampleapp/clientmanagement/SampleClientManager.kt:157 | `toSet()` on a list: the result has no duplicates and holds exactly the elements of the input, so it is never longer |
| Sequences.DedupDistinct | resourceserversampleapp/src/main/java/com/curiosityhealth/androidresourceserver/resourceserversampleapp/clientmanagement/SampleClientManager.kt:157 | a list that already has no duplicates is unchanged by `toSet()` |
| Decimal.Digit | resourceserversampleapp/src/main/java/com/curiosityhealth/androidresourceserver/resourceserversampleapp/service/SampleHandshakeServiceStorage.kt:74 | a digit of a rendered `Long` is one of '0'..'9' |
| Decimal.NatToString | resourceserversampleapp/src/main/java/com/curiosityhealth/androidresourceserver/resourceserversampleapp/service/SampleHandshakeServiceStorage.kt:74 | a rendered non-negative `Long` is a non-empty string of digits |
| Decimal.ParseNatToString | resourceserversampleapp/src/main/java/com/curiosityhealth/androidresourceserver/resourceserversampleapp/service/SampleHandshakeServiceStorage.kt:74 | reading back a rendered non-negative number gives the number |
| Decimal.LeadingMinus | resourceserversampleapp/src/main/java/com/curiosityhealth/androidresourceserver/resourceserversampleapp/service/SampleHandshakeServiceStorage.kt:74 | a rendered `Long` starts with '-' exactly when it is negative |
| Decimal.NegativeDigits | resourceserversampleapp/src/main/java/com/curiosityhealth/androidresourceserver/resourceserversampleapp/service/SampleHandshakeServiceStorage.kt:74 | after its '-', a rendered negative `Long` is the digits of its magnitude |
| Decimal.NatToStringInjective | resourceserversampleapp/src/main/java/com/curiosityhealth/androidresourceserver/resourceserversampleapp/service/SampleHandshakeServiceStorage.kt:74 | different non-negative numbers render as different digit strings |
| Decimal.IntToStringInjective | resourceserversampleapp/src/main/java/com/curiosityhealth/androidresourceserver/resourceserversampleapp/service/SampleHandshakeServiceStorage.kt:74 | two different states render as different strings, so the state part of a pending key identifies the state |
| Decimal.IntToStringHasNoDot | resourceserversampleapp/src/main/java/com/curiosityhealth/androidresourceserver/resourceserversampleapp/service/SampleHandshakeServiceStorage.kt:74 | a rendered state contains no '.', so it cannot blur the boundaries of "clientId.state.field" |
| Scopes.ScopeEqualsIsStructural | common/src/main/java/com/curiosityhealth/androidresourceserver/common/AuthorizationScope.kt:7-11 | `Scope.equals` holds exactly when the other object is a Scope with the same identifier and description |
| Scopes.FromAccessString | common/src/main/java/com/curiosityhealth/androidresourceserver/common/AuthorizationScope.kt:22-28 | only "read" and "write" parse; every other string raises ScopeAccessException naming it; a parsed access renders back to the string |
| Scopes.AccessRoundTrip | common/src/main/java/com/curiosityhealth/androidresourceserver/common/AuthorizationScope.kt:22-36 | parsing the rendered access gives the access back |
| Scopes.UpperCaseAccessRejected | common/src/main/java/com/curiosityhealth/androidresourceserver/common/AuthorizationScope.kt:23-26 | the match is case-sensitive: "READ" and "WRITE" raise ScopeAccessException |
| Scopes.ToScopeRequest | common/src/main/java/com/curiosityhealth/androidresourceserver/common/AuthorizationScope.kt:43-48 | the request carries the scope's identifier and the allowed access |
| Scopes.ToScopeRequestForgetsDescription | common/src/main/java/com/curiosityhealth/androidresourceserver/common/AuthorizationScope.kt:43-48 | allowed scopes that differ only in description give the same request |
| Scopes.Split | common/src/main/java/com/curiosityhealth/androidresourceserver/common/AuthorizationScope.kt:58 | `split(".")` never returns an empty list |
| Scopes.SplitJoin | common/src/main/java/com/curiosityhealth/androidresourceserver/common/AuthorizationScope.kt:58 | joining the parts with the separator gives the string back; no part holds the separator; there is one more part than separators |
| Scopes.SplitNoSeparator | common/src/main/java/com/curiosityhealth/androidresourceserver/common/AuthorizationScope.kt:58 | a string without the separator splits into itself alone |
| Scopes.SplitAtFirst | common/src/main/java/com/curiosityhealth/androidresourceserver/common/AuthorizationScope.kt:58 | the split cuts at the first separator and continues on the rest |
| Scopes.CountAppend | common/src/main/java/com/curiosityhealth/androidresourceserver/common/AuthorizationScope.kt:58 | separator counts add up over concatenation |
| Scopes.CountPositive | common/src/main/java/com/curiosityhealth/androidresourceserver/common/AuthorizationScope.kt:58 | a string holding the separator counts it at least once |
| Scopes.ScopeRequestString | common/src/main/java/com/curiosityhealth/androidresourceserver/common/AuthorizationScope.kt:71-73 | the wire form has exactly one more '.' than the identifier, and for an undotted identifier it splits at '.' into the identifier and the access string |
| Scopes.WireFormParts | common/src/main/java/com/curiosityhealth/androidresourceserver/common/AuthorizationScope.kt:71-73 | joining an identifier and an undotted access string with '.' adds exactly one '.', and an undotted identifier splits back into the two parts |
| Scopes.FromScopeRequestString | common/src/main/java/com/curiosityhealth/androidresourceserver/common/AuthorizationScope.kt:57-68 | the only failures are ScopeRequestException on the whole string and ScopeAccessException on the last part |
| Scopes.ScopeRequestRoundTrip | common/src/main/java/com/curiosityhealth/androidresourceserver/common/AuthorizationScope.kt:57-73 | a request whose identifier has no '.' survives rendering and parsing |
| Scopes.DottedIdentifierRejected | common/src/main/java/com/curiosityhealth/androidresourceserver/common/AuthorizationScope.kt:57-73 | a request whose identifier contains '.' never survives: the parser raises ScopeRequestException |
| Scopes.FromScopeRequestStringExact | common/src/main/java/com/curiosityhealth/androidresourceserver/common/AuthorizationScope.kt:57-73 | a string parses to a request exactly when it is that request's wire form and the identifier has no '.' |
| Scopes.BadAccessPart | common/src/main/java/com/curiosityhealth/androidresourceserver/common/AuthorizationScope.kt:59-65 | exactly one '.' with a bad access part raises ScopeAccessException on that part, not ScopeRequestException |
| Scopes.WrongPartCountRejected | common/src/main/java/com/curiosityhealth/androidresourceserver/common/AuthorizationScope.kt:59-61 | any string without exactly one '.' raises ScopeRequestException |
| Crypto.DecryptEncrypt | resourceserver/src/main/java/com/curiosityhealth/androidresourceserver/resourceserver/broadcastreceiver/HandshakeBroadcastReceiver.kt:66-70 | hybrid decryption with the private keyset undoes encryption to its public half under the same context info |
| Crypto.ContextBinding | resourceserver/src/main/java/com/curiosityhealth/androidresourceserver/resourceserver/broadcastreceiver/HandshakeBroadcastReceiver.kt:202-203 | a ciphertext does not decrypt under a different context info |
| Crypto.SignVerify | resourceserver/src/main/java/com/curiosityhealth/androidresourceserver/resourceserver/broadcastreceiver/HandshakeBroadcastReceiver.kt:63-64 | signing with a private keyset succeeds, and the public half verifies a signature exactly when it is that keyset's signature of the message |
| Crypto.ReadWriteKeyset | resourceserver/src/main/java/com/curiosityhealth/androidresourceserver/resourceserver/broadcastreceiver/HandshakeBroadcastReceiver.kt:85-90 | a keyset written as JSON reads back as the same keyset |
| KeyValue.KeyFieldName | resourceserversampleapp/src/main/java/com/curiosityhealth/androidresourceserver/resourceserversampleapp/service/SampleHandshakeServiceStorage.kt:73-111 | the keyset field names contain no '.' |
| KeyValue.LoadStoredKeyset | resourceserversampleapp/src/main/java/com/curiosityhealth/androidresourceserver/resourceserversampleapp/service/SampleHandshakeServiceStorage.kt:55-71 | a keyset stored under a key loads back from it |
| KeyValue.RemoveKeysWithPrefix | resourceserversampleapp/src/main/java/com/curiosityhealth/androidresourceserver/resourceserversampleapp/service/SampleHandshakeServiceStorage.kt:133-136 | `clear` removes every key that starts with the prefix and keeps every other entry unchanged |
| KeyValue.WithoutPrefixExact | resourceserversampleapp/src/main/java/com/curiosityhealth/androidresourceserver/resourceserversampleapp/service/SampleHandshakeServiceStorage.kt:133-136 | a key survives the clear exactly when it was present and does not start with the prefix, and it keeps its value |
| KeyValue.WithoutPrefixIdempotent | resourceserversampleapp/src/main/java/com/curiosityhealth/androidresourceserver/resourceserversampleapp/service/SampleHandshakeServiceStorage.kt:133-136 | clearing twice is clearing once |
| KeyValue.WithoutPrefixAbsorbsWrite | resourceserversampleapp/src/main/java/com/curiosityhealth/androidresourceserver/resourceserversampleapp/service/SampleHandshakeServiceStorage.kt:133-136 | a write under the prefix is erased by a later clear |
| KeyValue.WithoutPrefixHitsExtensions | resourceserversampleapp/src/main/java/com/curiosityhealth/androidresourceserver/resourceserversampleapp/service/SampleHandshakeServiceStorage.kt:133-136 | the clear also removes keys of other clients whose id extends the cleared one |
| KeyValue.DotInsideLongerTail | resourceserversampleapp/src/main/java/com/curiosityhealth/androidresourceserver/resourceserversampleapp/service/SampleHandshakeServiceStorage.kt:74 | if two "a.b" keys are equal and the first heads differ in length, the shorter head's tail has a '.' where the longer head ends |
| KeyValue.DotJoinInjective | resourceserversampleapp/src/main/java/com/curiosityhealth/androidresourceserver/resourceserversampleapp/service/SampleHandshakeServiceStorage.kt:74 | "a.b" keys whose tails have no '.' are equal only when heads and tails are equal |
| HandshakeStorage.SampleHandshakeServiceStorage.constructor | resourceserversampleapp/src/main/java/com/curiosityhealth/androidresourceserver/resourceserversampleapp/service/SampleHandshakeServiceStorage.kt:40-53 | the storage opens on the backing store's contents |
| HandshakeStorage.SampleHandshakeServiceStorage.StoreKeyset | resourceserversampleapp/src/main/java/com/curiosityhealth/androidresourceserver/resourceserversampleapp/service/SampleHandshakeServiceStorage.kt:78-111 | a `store…Key` call writes the keyset under "clientId.state.field" and nothing else |
| HandshakeStorage.SampleHandshakeServiceStorage.StoreM2Data | resourceserversampleapp/src/main/java/com/curiosityhealth/androidresourceserver/resourceserversampleapp/service/SampleHandshakeServiceStorage.kt:118-121 | `storeM2Data` writes the bytes under "clientId.state.m2Data" and nothing else |
| HandshakeStorage.SampleHandshakeServiceStorage.StoreState | resourceserversampleapp/src/main/java/com/curiosityhealth/androidresourceserver/resourceserversampleapp/service/SampleHandshakeServiceStorage.kt:128-131 | `storeState` writes the state under "clientId.state" and nothing else |
| HandshakeStorage.SampleHandshakeServiceStorage.Clear | resourceserversampleapp/src/main/java/com/curiosityhealth/androidresourceserver/resourceserversampleapp/service/SampleHandshakeServiceStorage.kt:133-136 | `clear` removes exactly the keys starting with the client id |
| HandshakeStorage.PendingKeyInjective | resourceserversampleapp/src/main/java/com/curiosityhealth/androidresourceserver/resourceserversampleapp/service/SampleHandshakeServiceStorage.kt:74-119 | pending keys of different (client, state, field) triples never collide |
| HandshakeStorage.StateKeyIsNotPendingKey | resourceserversampleapp/src/main/java/com/curiosityhealth/androidresourceserver/resourceserversampleapp/service/SampleHandshakeServiceStorage.kt:74-130 | the state slot of one client is never a pending field of any client |
| HandshakeStorage.StoreKeysetFrame | resourceserversampleapp/src/main/java/com/curiosityhealth/androidresourceserver/resourceserversampleapp/service/SampleHandshakeServiceStorage.kt:73-131 | storing one keyset leaves every other keyset, the m2 data and the pending state as they were |
| HandshakeStorage.OtherStateInvisible | resourceserversampleapp/src/main/java/com/curiosityhealth/androidresourceserver/resourceserversampleapp/service/SampleHandshakeServiceStorage.kt:73-119 | writing a field for one state is invisible to another state of the same client |
| HandshakeStorage.ClearForgetsClient | resourceserversampleapp/src/main/java/com/curiosityhealth/androidresourceserver/resourceserversampleapp/service/SampleHandshakeServiceStorage.kt:123-136 | after `clear`, the client (and any client whose id extends it) has no pending state, keysets or m2 data |
| HandshakeWire.FromActionString | common/src/main/java/com/curiosityhealth/androidresourceserver/common/Handshake.kt:41-48 | a recognised action string is the rendering of the action it returns; an unrecognised one is the rendering of no action |
| HandshakeWire.ActionRoundTrip | common/src/main/java/com/curiosityhealth/androidresourceserver/common/Handshake.kt:26-48 | every action's string parses back to that action |
| HandshakeWire.ActionNameIsNotActionString | common/src/main/java/com/curiosityhealth/androidresourceserver/common/Handshake.kt:23-48 | the bare enum name ("BEGIN_HANDSHAKE" …) is not an action string and parses to null |
| HandshakeWire.BeginRequestRoundTrip | common/src/main/java/com/curiosityhealth/androidresourceserver/common/Handshake.kt:74-116 | `fromIntent` on the intent built by `requestIntent` gives the request back, and the intent carries the result receiver |
| HandshakeWire.BeginRequestFromIntentDefaults | common/src/main/java/com/curiosityhealth/androidresourceserver/common/Handshake.kt:74-90 | `fromIntent` succeeds exactly when the client id and the four byte arrays are present; a missing state reads as 0 |
| HandshakeWire.BeginResponseRoundTrip | common/src/main/java/com/curiosityhealth/androidresourceserver/common/Handshake.kt:134-170 | `responseFromBundle` on `toBundle()` gives the begin response back |
| HandshakeWire.CompleteRequestRoundTrip | common/src/main/java/com/curiosityhealth/androidresourceserver/common/Handshake.kt:223-261 | `fromIntent` on the intent built by `requestIntent` gives the complete request back, and the intent carries the result receiver |
| HandshakeWire.CompleteResponseRoundTrip | common/src/main/java/com/curiosityhealth/androidresourceserver/common/Handshake.kt:271-290 | `responseFromBundle` on `toBundle()` gives the complete response back |
| HandshakeWire.CompleteResponseDefaults | common/src/main/java/com/curiosityhealth/androidresourceserver/common/Handshake.kt:271-281 | the complete response parses exactly when the client id is present; a missing SUCCESS reads as false |
| HandshakeWire.VerifyRequestRoundTrip | common/src/main/java/com/curiosityhealth/androidresourceserver/common/Handshake.kt:342-381 | `fromIntent` on the intent built by `requestIntent` gives the verify request back, and the intent carries the result receiver |
| HandshakeWire.VerifyResponseRoundTrip | common/src/main/java/com/curiosityhealth/androidresourceserver/common/Handshake.kt:396-423 | `responseFromBundle` on `toBundle()` gives the verify response back |
| HandshakeWire.DispatchDeliversSuccess | common/src/main/java/com/curiosityhealth/androidresourceserver/common/Handshake.kt:183-197 | an OK result whose bundle parses reaches `onSuccess` with the encoded response |
| HandshakeWire.DispatchDeliversError | common/src/main/java/com/curiosityhealth/androidresourceserver/common/Handshake.kt:198-202 | a non-OK result carrying an exception reaches `onError` with that exception |
| HandshakeWire.DispatchCases | common/src/main/java/com/curiosityhealth/androidresourceserver/common/Handshake.kt:183-208 | `onSuccess` is called exactly for an OK code with a parsable bundle, with the parsed response; `onError` gets either "malformed response" or, for a non-OK code, the bundle's exception |
| HandshakeWire.Callback.constructor | common/src/main/java/com/curiosityhealth/androidresourceserver/common/Handshake.kt:177-180 | a new callback has received nothing |
| HandshakeWire.ResponseReceiver.constructor | common/src/main/java/com/curiosityhealth/androidresourceserver/common/Handshake.kt:175-182 | a new receiver has its response parser and no callback |
| HandshakeWire.ResponseReceiver.SetCallback | common/src/main/java/com/curiosityhealth/androidresourceserver/common/Handshake.kt:182 | assigning `callback` sets it |
| HandshakeWire.ResponseReceiver.OnReceiveResult | common/src/main/java/com/curiosityhealth/androidresourceserver/common/Handshake.kt:183-208 | with a callback set, exactly one delivery, the dispatched one, is appended to it; without one nothing happens |
| ClientManagement.FindClient | resourceserversampleapp/src/main/java/com/curiosityhealth/androidresourceserver/resourceserversampleapp/clientmanagement/SampleClientManager.kt:110 | `first { it.clientId == clientId }` returns the first client with that id, and throws NoSuchElementException exactly when no client has it |
| ClientManagement.SlotKeyInjective | resourceserversampleapp/src/main/java/com/curiosityhealth/androidresourceserver/resourceserversampleapp/clientmanagement/SampleClientManager.kt:127-145 | registry keys "clientId.field" of different (client, field) pairs never collide |
| ClientManagement.ApprovedScopesKeyIsNotSlot | resourceserversampleapp/src/main/java/com/curiosityhealth/androidresourceserver/resourceserversampleapp/clientmanagement/SampleClientManager.kt:127-161 | the approved-scopes key of a client is never a handshake slot of any client |
| ClientManagement.ScopeStrings | resourceserversampleapp/src/main/java/com/curiosityhealth/androidresourceserver/resourceserversampleapp/clientmanagement/SampleClientManager.kt:150 | the stored list has one wire-form scope string per approved scope, in order |
| ClientManagement.ParseScopeStrings | resourceserversampleapp/src/main/java/com/curiosityhealth/androidresourceserver/resourceserversampleapp/clientmanagement/SampleClientManager.kt:157 | a parsed list has one request per stored string, each the parse of its string; a failure is the exception of the first string that does not parse |
| ClientManagement.SampleClientAnswer | resourceserversampleapp/src/main/java/com/curiosityhealth/androidresourceserver/resourceserversampleapp/clientmanagement/SampleClientManager.kt:108-118 | the completion gets the client with the asked id from the list and never an exception; the lookup throws exactly when no client has the id |
| ClientManagement.SampleClientManager.constructor | resourceserversampleapp/src/main/java/com/curiosityhealth/androidresourceserver/resourceserversampleapp/clientmanagement/SampleClientManager.kt:67-88 | the manager holds the one-client sample list and opens the store on its contents |
| ClientManagement.SampleClientManager.ClearClientHandshake | resourceserversampleapp/src/main/java/com/curiosityhealth/androidresourceserver/resourceserversampleapp/clientmanagement/SampleClientManager.kt:120-123 | removes every key starting with the client id and nothing else |
| ClientManagement.SampleClientManager.RegisterClientHandshake | resourceserversampleapp/src/main/java/com/curiosityhealth/androidresourceserver/resourceserversampleapp/clientmanagement/SampleClientManager.kt:141-146 | writes the four keysets under "clientId.field" and nothing else |
| ClientManagement.SampleClientManager.SetApprovedScopes | resourceserversampleapp/src/main/java/com/curiosityhealth/androidresourceserver/resourceserversampleapp/clientmanagement/SampleClientManager.kt:148-152 | writes the scope strings under "clientId.approvedScopes" and nothing else |
| ClientManagement.SampleClientManager.ClearApprovedScopes | resourceserversampleapp/src/main/java/com/curiosityhealth/androidresourceserver/resourceserversampleapp/clientmanagement/SampleClientManager.kt:160-163 | removes the "clientId.approvedScopes" key and nothing else |
| ClientManagement.SampleClientLookup | resourceserversampleapp/src/main/java/com/curiosityhealth/androidresourceserver/resourceserversampleapp/clientmanagement/SampleClientManager.kt:108-117 | the sample list answers "sample_client_id" with its four allowed scopes; any other id throws NoSuchElementException, never ClientNotFound |
| ClientManagement.RegisteredHandshakeExact | resourceserversampleapp/src/main/java/com/curiosityhealth/androidresourceserver/resourceserversampleapp/clientmanagement/SampleClientManager.kt:125-139 | `getClientHandshake` returns a handshake exactly when all four slots load as that handshake's keysets |
| ClientManagement.MissingSlotMeansNoHandshake | resourceserversampleapp/src/main/java/com/curiosityhealth/androidresourceserver/resourceserversampleapp/clientmanagement/SampleClientManager.kt:127-130 | one missing slot means no handshake |
| ClientManagement.RegisterThenGet | resourceserversampleapp/src/main/java/com/curiosityhealth/androidresourceserver/resourceserversampleapp/clientmanagement/SampleClientManager.kt:125-146 | a registered handshake reads back, under the client id it was registered for |
| ClientManagement.ReregisterSupersedes | resourceserversampleapp/src/main/java/com/curiosityhealth/androidresourceserver/resourceserversampleapp/clientmanagement/SampleClientManager.kt:141-146 | registering again overwrites the earlier handshake completely |
| ClientManagement.RegisterKeepsOtherHandshakes | resourceserversampleapp/src/main/java/com/curiosityhealth/androidresourceserver/resourceserversampleapp/clientmanagement/SampleClientManager.kt:141-146 | registering one client leaves every other client's handshake as it was |
| ClientManagement.RegisterKeepsApprovedScopes | resourceserversampleapp/src/main/java/com/curiosityhealth/androidresourceserver/resourceserversampleapp/clientmanagement/SampleClientManager.kt:141-158 | registering a handshake leaves every client's approved scopes as they were |
| ClientManagement.ClearHandshakeWipesApprovedScopes | resourceserversampleapp/src/main/java/com/curiosityhealth/androidresourceserver/resourceserversampleapp/clientmanagement/SampleClientManager.kt:120-158 | clearing a client's handshake also wipes its approved scopes, because both live under the client-id prefix |
| ClientManagement.ClearApprovedScopesKeepsHandshakes | resourceserversampleapp/src/main/java/com/curiosityhealth/androidresourceserver/resourceserversampleapp/clientmanagement/SampleClientManager.kt:160-163 | clearing approved scopes leaves no scopes for the client and every handshake as it was |
| ClientManagement.SetApprovedScopesKeepsHandshakes | resourceserversampleapp/src/main/java/com/curiosityhealth/androidresourceserver/resourceserversampleapp/clientmanagement/SampleClientManager.kt:148-152 | storing approved scopes leaves every handshake as it was |
| ClientManagement.ParseScopeStringsRoundTrip | resourceserversampleapp/src/main/java/com/curiosityhealth/androidresourceserver/resourceserversampleapp/clientmanagement/SampleClientManager.kt:150-157 | scope requests without '.' in their identifiers survive being stored as strings and parsed back |
| ClientManagement.SetThenGetApprovedScopes | resourceserversampleapp/src/main/java/com/curiosityhealth/androidresourceserver/resourceserversampleapp/clientmanagement/SampleClientManager.kt:148-158 | approved scopes set without duplicates and without dotted identifiers read back exactly |
| ClientManagement.DottedApprovedScopeBreaksGet | resourceserversampleapp/src/main/java/com/curiosityhealth/androidresourceserver/resourceserversampleapp/clientmanagement/SampleClientManager.kt:148-158 | once an approved scope with a dotted identifier is stored, reading the approved scopes throws |
| ClientManagement.ParseFailsOnBadItem | resourceserversampleapp/src/main/java/com/curiosityhealth/androidresourceserver/resourceserversampleapp/clientmanagement/SampleClientManager.kt:157 | one unparsable stored string makes the whole read throw |
| ClientStorage.SampleClientStorage.constructor | resourceclientsampleapp/src/main/java/com/curiosityhealth/androidresourceserver/resourceclientsampleapp/SampleClientStorage.kt:35-48 | the storage opens on the backing store's contents |
| ClientStorage.SampleClientStorage.StoreKeyset | resourceclientsampleapp/src/main/java/com/curiosityhealth/androidresourceserver/resourceclientsampleapp/SampleClientStorage.kt:72-98 | a `store…Key` call writes the keyset under its fixed slot name and nothing else |
| ClientStorage.SampleClientStorage.SetToken | resourceclientsampleapp/src/main/java/com/curiosityhealth/androidresourceserver/resourceclientsampleapp/SampleClientStorage.kt:100-106 | assigning `accessToken` or `refreshToken` writes that slot and nothing else |
| ClientStorage.SampleClientStorage.Clear | resourceclientsampleapp/src/main/java/com/curiosityhealth/androidresourceserver/resourceclientsampleapp/SampleClientStorage.kt:108-110 | `clear` empties the whole store |
| ClientStorage.SlotNamesDistinct | resourceclientsampleapp/src/main/java/com/curiosityhealth/androidresourceserver/resourceclientsampleapp/SampleClientStorage.kt:68-106 | the four keyset slots and the two token slots all have different key names |
| ClientStorage.StoreThenGetKeyset | resourceclientsampleapp/src/main/java/com/curiosityhealth/androidresourceserver/resourceclientsampleapp/SampleClientStorage.kt:68-98 | a stored keyset reads back from its slot, and the other slots and tokens keep their values |
| ClientStorage.SetThenGetToken | resourceclientsampleapp/src/main/java/com/curiosityhealth/androidresourceserver/resourceclientsampleapp/SampleClientStorage.kt:100-106 | an assigned token reads back, and the other token and every keyset keep their values |
| ClientStorage.AbsentKeysetIsNull | resourceclientsampleapp/src/main/java/com/curiosityhealth/androidresourceserver/resourceclientsampleapp/SampleClientStorage.kt:60-66 | a slot with no byte array reads as null |
| ClientStorage.ClearedStoreIsEmpty | resourceclientsampleapp/src/main/java/com/curiosityhealth/androidresourceserver/resourceclientsampleapp/SampleClientStorage.kt:108-110 | after `clear` every keyset and token reads as null |
| HandshakeServer.ClearedViewUnchanged | resourceserver/src/main/java/com/curiosityhealth/androidresourceserver/resourceserver/broadcastreceiver/HandshakeBroadcastReceiver.kt:43-73 | a write under the client's prefix is invisible once the client's entries are cleared again |
| HandshakeServer.PendingKeyHasClientPrefix | resourceserversampleapp/src/main/java/com/curiosityhealth/androidresourceserver/resourceserversampleapp/service/SampleHandshakeServiceStorage.kt:74-136 | every pending key and the state key of a client start with the client id, so its `clear` reaches them |
| HandshakeServer.HandleBeginHandshake | resourceserver/src/main/java/com/curiosityhealth/androidresourceserver/resourceserver/broadcastreceiver/HandshakeBroadcastReceiver.kt:32-147 | the new pending store and the reply are those of the BEGIN step function over the old store |
| HandshakeServer.SaveClientHandshake | resourceserver/src/main/java/com/curiosityhealth/androidresourceserver/resourceserver/broadcastreceiver/HandshakeBroadcastReceiver.kt:355-390 | a complete pending session is registered with the client manager and the pending entries are cleared (true); an incomplete one changes nothing (false); a reader exception escapes and changes nothing |
| HandshakeServer.HandleCompleteHandshake | resourceserver/src/main/java/com/curiosityhealth/androidresourceserver/resourceserver/broadcastreceiver/HandshakeBroadcastReceiver.kt:149-268 | both stores and the reply are those of the COMPLETE step function over the old stores |
| HandshakeServer.HandleVerifyHandshake | resourceserver/src/main/java/com/curiosityhealth/androidresourceserver/resourceserver/broadcastreceiver/HandshakeBroadcastReceiver.kt:270-353 | the registry and the outcome are those of the VERIFY step function over the old registry |
| HandshakeServer.HandshakeBroadcastReceiver.constructor | resourceserver/src/main/java/com/curiosityhealth/androidresourceserver/resourceserver/broadcastreceiver/HandshakeBroadcastReceiver.kt:393-394 | the receiver holds the given client manager and pending storage |
| HandshakeServer.HandshakeBroadcastReceiver.OnReceive | resourceserver/src/main/java/com/curiosityhealth/androidresourceserver/resourceserver/broadcastreceiver/HandshakeBroadcastReceiver.kt:397-476 | both stores and the outcome are those of the `onReceive` step function over the old stores |
| HandshakeProperties.BegunStoreElsewhere | resourceserver/src/main/java/com/curiosityhealth/androidresourceserver/resourceserver/broadcastreceiver/HandshakeBroadcastReceiver.kt:43-100 | outside the session's own keys, a successful BEGIN leaves the store as the initial `clear` left it |
| HandshakeProperties.BeginTouchesOnlyClient | resourceserver/src/main/java/com/curiosityhealth/androidresourceserver/resourceserver/broadcastreceiver/HandshakeBroadcastReceiver.kt:43-145 | BEGIN never adds, removes or changes a key that does not start with the client id |
| HandshakeProperties.BeginSucceedsExactly | resourceserver/src/main/java/com/curiosityhealth/androidresourceserver/resourceserver/broadcastreceiver/HandshakeBroadcastReceiver.kt:49-135 | BEGIN answers OK exactly when both client keysets read, the m1 signature verifies and m1 encrypts; otherwise it answers RESULT_CODE_ERROR with the exception in the bundle |
| HandshakeProperties.BeginFailureLeavesNothingPending | resourceserver/src/main/java/com/curiosityhealth/androidresourceserver/resourceserver/broadcastreceiver/HandshakeBroadcastReceiver.kt:126-145 | after a failed BEGIN the client (and any id extending it) has no pending state, keysets or m2 data |
| HandshakeProperties.BegunKeyset | resourceserver/src/main/java/com/curiosityhealth/androidresourceserver/resourceserver/broadcastreceiver/HandshakeBroadcastReceiver.kt:49-100 | the session stores the two client keysets read from the request and the two freshly generated server keysets |
| HandshakeProperties.BegunStateAndM2 | resourceserver/src/main/java/com/curiosityhealth/androidresourceserver/resourceserver/broadcastreceiver/HandshakeBroadcastReceiver.kt:46-73 | the session stores the request's state and the fresh m2 data |
| HandshakeProperties.BeginStoresSession | resourceserver/src/main/java/com/curiosityhealth/androidresourceserver/resourceserver/broadcastreceiver/HandshakeBroadcastReceiver.kt:43-124 | after a successful BEGIN the pending state, the m2 data and a complete pending handshake of the client's and the server's keysets are in the store |
| HandshakeProperties.OtherStateKeyNotBegun | resourceserversampleapp/src/main/java/com/curiosityhealth/androidresourceserver/resourceserversampleapp/service/SampleHandshakeServiceStorage.kt:73-119 | a pending key of another state is not one of the session's keys |
| HandshakeProperties.BeginForgetsOtherStates | resourceserver/src/main/java/com/curiosityhealth/androidresourceserver/resourceserver/broadcastreceiver/HandshakeBroadcastReceiver.kt:43 | after BEGIN no keysets or m2 data of any other state of the client remain |
| HandshakeProperties.BegunStoreForgetsOtherStates | resourceserver/src/main/java/com/curiosityhealth/androidresourceserver/resourceserver/broadcastreceiver/HandshakeBroadcastReceiver.kt:43-124 | the store a successful BEGIN writes holds no keysets or m2 data for any other state of the client |
| HandshakeProperties.BeginResponseUsable | resourceserver/src/main/java/com/curiosityhealth/androidresourceserver/resourceserver/broadcastreceiver/HandshakeBroadcastReceiver.kt:63-124 | the OK response parses, carries the client id and state, its m1 ciphertext decrypts to m1 for the client, and its m2 signature verifies under the server key it carries |
| HandshakeProperties.CompleteClearsPending | resourceserver/src/main/java/com/curiosityhealth/androidresourceserver/resourceserver/broadcastreceiver/HandshakeBroadcastReceiver.kt:160-266 | every COMPLETE, successful or not, leaves the client with no pending state, keysets or m2 data |
| HandshakeProperties.CompleteChecksState | resourceserver/src/main/java/com/curiosityhealth/androidresourceserver/resourceserver/broadcastreceiver/HandshakeBroadcastReceiver.kt:160-173 | a missing or different saved state is refused with "Unknown client or invalid state" and the registry is untouched |
| HandshakeProperties.CompleteFailureKeepsRegistry | resourceserver/src/main/java/com/curiosityhealth/androidresourceserver/resourceserver/broadcastreceiver/HandshakeBroadcastReceiver.kt:160-266 | a refused COMPLETE answers RESULT_CODE_ERROR and leaves the registry untouched |
| HandshakeProperties.CompleteSuccessMeansVerified | resourceserver/src/main/java/com/curiosityhealth/androidresourceserver/resourceserver/broadcastreceiver/HandshakeBroadcastReceiver.kt:160-245 | an OK answer means the state matched, the pending handshake was complete, m2 decrypted to the stored m2 data, that handshake is now registered, and the response says success |
| HandshakeProperties.CompleteSucceedsWhenVerified | resourceserver/src/main/java/com/curiosityhealth/androidresourceserver/resourceserver/broadcastreceiver/HandshakeBroadcastReceiver.kt:160-245 | a matching state, a complete pending handshake and a ciphertext that decrypts to the stored m2 data give OK, with that handshake registered |
| HandshakeProperties.CompleteKeepsOtherClients | resourceserver/src/main/java/com/curiosityhealth/androidresourceserver/resourceserver/broadcastreceiver/HandshakeBroadcastReceiver.kt:374-390 | COMPLETE leaves every other client's registered handshake as it was |
| HandshakeProperties.VerifyNeedsHandshake | resourceserver/src/main/java/com/curiosityhealth/androidresourceserver/resourceserver/broadcastreceiver/HandshakeBroadcastReceiver.kt:277-285 | a client without a registered handshake gets "Needs handshake" and the registry is untouched |
| HandshakeProperties.VerifyClearsExactlyOnFailure | resourceserver/src/main/java/com/curiosityhealth/androidresourceserver/resourceserver/broadcastreceiver/HandshakeBroadcastReceiver.kt:287-351 | with a handshake, VERIFY always replies; it answers OK exactly when verification, decryption, comparison, signing and encryption succeed; OK leaves the registry, and a refusal removes the client's handshake and its approved scopes |
| HandshakeProperties.VerifyRejectsForgedSignature | resourceserver/src/main/java/com/curiosityhealth/androidresourceserver/resourceserver/broadcastreceiver/HandshakeBroadcastReceiver.kt:290-291 | a signature the client's registered key does not verify is refused |
| HandshakeProperties.VerifyAcceptsHonestClient | resourceserver/src/main/java/com/curiosityhealth/androidresourceserver/resourceserver/broadcastreceiver/HandshakeBroadcastReceiver.kt:287-330 | a request signed with the client's key and encrypted to the server's key is answered OK without changing the registry; the answer's data is signed by the server and encrypted to the client |
| HandshakeProperties.ReceiveWithoutReceiverCrashes | resourceserver/src/main/java/com/curiosityhealth/androidresourceserver/resourceserver/broadcastreceiver/HandshakeBroadcastReceiver.kt:400-471 | an intent without a result receiver ends in a NullPointerException with both stores untouched |
| HandshakeProperties.ReceiveUnsupportedAction | resourceserver/src/main/java/com/curiosityhealth/androidresourceserver/resourceserver/broadcastreceiver/HandshakeBroadcastReceiver.kt:402-471 | a missing or unknown action is refused with "Action not supported" and no store changes |
| HandshakeProperties.ReceiveRefusesActionNames | resourceserver/src/main/java/com/curiosityhealth/androidresourceserver/resourceserver/broadcastreceiver/HandshakeBroadcastReceiver.kt:402-471 | an intent whose action is the bare enum name is refused as unsupported |
| HandshakeProperties.ReceiveRoutesBegin | resourceserver/src/main/java/com/curiosityhealth/androidresourceserver/resourceserver/broadcastreceiver/HandshakeBroadcastReceiver.kt:405-424 | a BEGIN intent built by `requestIntent` runs exactly the BEGIN step and leaves the registry alone |
| HandshakeProperties.ReceiveRoutesComplete | resourceserver/src/main/java/com/curiosityhealth/androidresourceserver/resourceserver/broadcastreceiver/HandshakeBroadcastReceiver.kt:425-444 | a COMPLETE intent built by `requestIntent` runs exactly the COMPLETE step |
| HandshakeProperties.ReceiveRoutesVerify | resourceserver/src/main/java/com/curiosityhealth/androidresourceserver/resourceserver/broadcastreceiver/HandshakeBroadcastReceiver.kt:445-463 | a VERIFY intent built by `requestIntent` runs exactly the VERIFY step and leaves the pending store alone |
| HandshakeServiceVariant.HandshakeService.constructor | resourceserver/src/main/java/com/curiosityhealth/androidresourceserver/resourceserver/service/HandshakeService.kt:65 | the service holds the given pending storage |
| HandshakeServiceVariant.HandshakeService.HandleCompleteHandshake | resourceserver/src/main/java/com/curiosityhealth/androidresourceserver/resourceserver/service/HandshakeService.kt:228-313 | the pending store and the reply are those of the service's COMPLETE step function |
| HandshakeServiceVariant.HandshakeService.OnHandleWork | resourceserver/src/main/java/com/curiosityhealth/androidresourceserver/resourceserver/service/HandshakeService.kt:67-115 | the pending store and the outcome are those of the service's `onHandleWork` step function |
| HandshakeServiceVariant.ServiceCompleteSuccessKeepsPending | resourceserver/src/main/java/com/curiosityhealth/androidresourceserver/resourceserver/service/HandshakeService.kt:233-299 | an OK COMPLETE in the service needed a matching state, leaves the pending session in place and answers success |
| HandshakeServiceVariant.ServiceCompleteCryptoErrorKeepsPending | resourceserver/src/main/java/com/curiosityhealth/androidresourceserver/resourceserver/service/HandshakeService.kt:275-311 | a decryption failure is answered with its exception and, unlike the receiver, clears nothing |
| HandshakeServiceVariant.ServiceCompleteClearsOnRefusal | resourceserver/src/main/java/com/curiosityhealth/androidresourceserver/resourceserver/service/HandshakeService.kt:233-311 | success and crypto exceptions leave the store; only the MalformedRequest refusals clear the client |
| HandshakeServiceVariant.ReceiverSuccessImpliesServiceSuccess | resourceserver/src/main/java/com/curiosityhealth/androidresourceserver/resourceserver/service/HandshakeService.kt:228-313 | whenever the receiver's COMPLETE answers OK, so does the service's |
| HandshakeServiceVariant.ServiceAcceptsIncompleteSession | resourceserver/src/main/java/com/curiosityhealth/androidresourceserver/resourceserver/service/HandshakeService.kt:251-299 | a session with only the server encryption key and m2 data is accepted by the service while the receiver refuses it with "Could not save client info" |
| HandshakeServiceVariant.ServiceRefusesClientActions | resourceserver/src/main/java/com/curiosityhealth/androidresourceserver/resourceserver/service/HandshakeService.kt:72-109 | BEGIN and COMPLETE intents built by the client's `requestIntent` carry action strings, not bare names, so the service answers "Action not supported" and changes nothing |
| HandshakeServiceVariant.ServiceRefusesVerify | resourceserver/src/main/java/com/curiosityhealth/androidresourceserver/resourceserver/service/HandshakeService.kt:73-109 | the service has no VERIFY branch: either spelling is answered "Action not supported" |
| AuthorizationWire.AuthActionRoundTrip | common/src/main/java/com/curiosityhealth/androidresourceserver/common/Authorization/Authorization.kt:16-31 | BEGIN_AUTHORIZATION's action string parses back to it, and no other string names an action |
| AuthorizationWire.AuthRequestFromIntent | common/src/main/java/com/curiosityhealth/androidresourceserver/common/Authorization/Authorization.kt:50-64 | a parsed request carries the intent's client id, its STATE (default 0), its INCLUDE_REFRESH_TOKEN (default false) and a duplicate-free scope set; no client id or no string list gives null; a throw is the first bad scope string's exception |
| AuthorizationWire.AuthRequestAsWrittenNeverParses | common/src/main/java/com/curiosityhealth/androidresourceserver/common/Authorization/Authorization.kt:53-83 | the intent `requestIntent` builds puts SCOPES as a string array, which `fromIntent` cannot read as a string list, so no request sent this way ever parses |
| AuthorizationWire.AuthRequestRoundTrip | common/src/main/java/com/curiosityhealth/androidresourceserver/common/Authorization/Authorization.kt:50-89 | with SCOPES put as a string list, `fromIntent` gives back every request whose scopes have undotted identifiers, and the intent carries the result receiver |
| AuthorizationWire.ReadRequestExtras | common/src/main/java/com/curiosityhealth/androidresourceserver/common/Authorization/Authorization.kt:50-64 | extras holding the fields of a request parse to exactly that request |
| AuthorizationWire.AuthResponseFromBundle | common/src/main/java/com/curiosityhealth/androidresourceserver/common/Authorization/Authorization.kt:101-110 | a response parses exactly when TOKEN is present, with the token and STATE (default 0) |
| AuthorizationWire.AuthResponseRoundTrip | common/src/main/java/com/curiosityhealth/androidresourceserver/common/Authorization/Authorization.kt:101-119 | `responseFromBundle` on `toBundle()` gives the response back |
| AuthorizationWire.AuthDispatchCases | common/src/main/java/com/curiosityhealth/androidresourceserver/common/Authorization/Authorization.kt:132-157 | an OK bundle of a response reaches `onSuccess` with it; a non-OK bundle carrying an exception reaches `onError` with it; an OK bundle without TOKEN gives "malformed response" |
| Tokens.TokenTypeRoundTrip | resourceserver/src/main/java/com/curiosityhealth/androidresourceserver/resourceserver/token/TokenManager.kt:41-60 | each token type's string parses back to it, and only that string does |
| Tokens.VerifyToken | resourceserver/src/main/java/com/curiosityhealth/androidresourceserver/resourceserver/token/TokenManager.kt:26-99 | a token the verifier accepts has this manager's issuer and has not expired at `now` |
| Tokens.ValidateAndDecodeToken | resourceserver/src/main/java/com/curiosityhealth/androidresourceserver/resourceserver/token/TokenManager.kt:97-122 | a token is accepted exactly when the verifier accepts it, its token-type claim names the asked type and it has a client-id claim; the result is the verified token |
| Tokens.ClientIdFromToken | resourceserver/src/main/java/com/curiosityhealth/androidresourceserver/resourceserver/token/TokenManager.kt:132-135 | the client id is present exactly when the claim is, and is the claim's value |
| Tokens.GeneratedTokenValidates | resourceserver/src/main/java/com/curiosityhealth/androidresourceserver/resourceserver/token/TokenManager.kt:63-126 | a generated token validates as its own type until its lifetime ends, with the issued claims, and names its client |
| Tokens.TokenTypesDoNotMix | resourceserver/src/main/java/com/curiosityhealth/androidresourceserver/resourceserver/token/TokenManager.kt:77-108 | an access token is not accepted as a refresh token, nor the other way round |
| Tokens.ExpiredTokenRejected | resourceserver/src/main/java/com/curiosityhealth/androidresourceserver/resourceserver/token/TokenManager.kt:68-99 | a token is refused once its lifetime has passed |
| Tokens.ForeignSecretRejected | resourceserver/src/main/java/com/curiosityhealth/androidresourceserver/resourceserver/token/TokenManager.kt:27-99 | a token signed with another secret is refused |
| Tokens.MissingClaimRejected | resourceserver/src/main/java/com/curiosityhealth/androidresourceserver/resourceserver/token/TokenManager.kt:101-114 | a verified token without a token-type or client-id claim is refused |
| SampleTokens.SampleTokenManager.constructor | resourceserversampleapp/src/main/java/com/curiosityhealth/androidresourceserver/resourceserversampleapp/token/SampleTokenManager.kt:35-57 | the secret is the stored one when the store holds one; otherwise 64 fresh random bytes, which are stored |
| SampleTokens.SampleTokenManager.Manager | resourceserversampleapp/src/main/java/com/curiosityhealth/androidresourceserver/resourceserversampleapp/token/SampleTokenManager.kt:59-62 | the manager signs with the secret and issuer "SampleApp" |
| SampleTokens.InitSecretCases | resourceserversampleapp/src/main/java/com/curiosityhealth/androidresourceserver/resourceserversampleapp/token/SampleTokenManager.kt:48-56 | a stored secret is kept unchanged; without one the random secret is stored; either way the store then holds the secret in use |
| SampleTokens.InitSecretIdempotent | resourceserversampleapp/src/main/java/com/curiosityhealth/androidresourceserver/resourceserversampleapp/token/SampleTokenManager.kt:48-56 | a second start on the resulting store keeps the same secret and store |
| ConsentActivity.ConsentResponseFromBundle | resourceserver/src/main/java/com/curiosityhealth/androidresourceserver/resourceserver/activity/AuthorizationActivity.kt:40-57 | no client id or no SCOPES string gives null; a parsed response carries the client id, STATE (default 0) and the list the JSON adapter read; a throw is the adapter's |
| ConsentActivity.ConsentDispatch | resourceserver/src/main/java/com/curiosityhealth/androidresourceserver/resourceserver/activity/AuthorizationActivity.kt:86-115 | code 200 with a parsable bundle consents with it; code 300, and only it, cancels; any other code is an error carrying the bundle's exception or "malformed response"; only code 200 can throw |
| ConsentActivity.Requested | resourceserver/src/main/java/com/curiosityhealth/androidresourceserver/resourceserver/activity/AuthorizationActivity.kt:237 | exactly the client's allowed scopes whose scope request was asked for |
| ConsentActivity.WithAccess | resourceserver/src/main/java/com/curiosityhealth/androidresourceserver/resourceserver/activity/AuthorizationActivity.kt:238-243 | exactly the scopes with the given access |
| ConsentActivity.LexLeTotal | resourceserver/src/main/java/com/curiosityhealth/androidresourceserver/resourceserver/activity/AuthorizationActivity.kt:240-243 | the string order used to sort descriptions is total |
| ConsentActivity.InsertByDescription | resourceserver/src/main/java/com/curiosityhealth/androidresourceserver/resourceserver/activity/AuthorizationActivity.kt:240-243 | inserting into a description-sorted list keeps it sorted and adds exactly the new element |
| ConsentActivity.SortByDescription | resourceserver/src/main/java/com/curiosityhealth/androidresourceserver/resourceserver/activity/AuthorizationActivity.kt:240-243 | `sortedBy { it.scope.description }` yields a sorted permutation of its input |
| ConsentActivity.OnCreate | resourceserver/src/main/java/com/curiosityhealth/androidresourceserver/resourceserver/activity/AuthorizationActivity.kt:154-267 | a shown screen carries the intent's client id, receiver and STATE (default -1); it has scope lists exactly when it sent no error, and then the client lookup found the client; unparsable scopes are refused with "Invalid Scopes"; a missing client id, receiver or scopes string is a NullPointerException |
| ConsentActivity.ScopeRequests | resourceserver/src/main/java/com/curiosityhealth/androidresourceserver/resourceserver/activity/AuthorizationActivity.kt:203 | the approved list maps each allowed scope to its request, in order |
| ConsentActivity.SectionCells | resourceserver/src/main/java/com/curiosityhealth/androidresourceserver/resourceserver/activity/AuthorizationActivity.kt:281-356 | an empty section has no cells; otherwise its header followed by one cell per scope |
| ConsentActivity.ScopeAt | resourceserver/src/main/java/com/curiosityhealth/androidresourceserver/resourceserver/activity/AuthorizationActivity.kt:345-354 | list indexing: inside the bounds gives the scope's cell, outside throws IndexOutOfBoundsException |
| ConsentActivity.Unchecked | resourceserver/src/main/java/com/curiosityhealth/androidresourceserver/resourceserver/activity/AuthorizationActivity.kt:295-296 | every listed scope starts unchecked, and only listed scopes are in the map |
| ConsentActivity.Checked | resourceserver/src/main/java/com/curiosityhealth/androidresourceserver/resourceserver/activity/AuthorizationActivity.kt:299-300 | the checked scopes are exactly the listed scopes whose switch is on |
| ConsentActivity.Approved | resourceserver/src/main/java/com/curiosityhealth/androidresourceserver/resourceserver/activity/AuthorizationActivity.kt:298-300 | `approvedScopes` has no duplicates and holds exactly the read and write scopes whose switch is on |
| ConsentActivity.ScopeListAdaptor.constructor | resourceserver/src/main/java/com/curiosityhealth/androidresourceserver/resourceserver/activity/AuthorizationActivity.kt:271-296 | the adaptor holds both sections with every switch off |
| ConsentActivity.ScopeListAdaptor.Toggle | resourceserver/src/main/java/com/curiosityhealth/androidresourceserver/resourceserver/activity/AuthorizationActivity.kt:318-325 | flipping a switch updates the map of its own access only, for that scope only |
| ConsentActivity.ConsentResponseRoundTrip | resourceserver/src/main/java/com/curiosityhealth/androidresourceserver/resourceserver/activity/AuthorizationActivity.kt:40-72 | `responseFromBundle` on `toBundle()` gives the consent response back |
| ConsentActivity.ButtonRepliesDispatch | resourceserver/src/main/java/com/curiosityhealth/androidresourceserver/resourceserver/activity/AuthorizationActivity.kt:184-216 | the confirm button's reply is delivered as consent with the approved scopes (or, without an adaptor, as the "An error occurred" error); cancel as a cancel; an error reply as that error |
| ConsentActivity.UnparsableConsentIsMalformed | resourceserver/src/main/java/com/curiosityhealth/androidresourceserver/resourceserver/activity/AuthorizationActivity.kt:91-99 | a consent bundle without client id or scopes is delivered as "malformed response" |
| ConsentActivity.ScopeSectionExact | resourceserver/src/main/java/com/curiosityhealth/androidresourceserver/resourceserver/activity/AuthorizationActivity.kt:237-243 | a section is sorted by description and holds exactly the allowed, requested scopes of its access, once each |
| ConsentActivity.ConsentIntentOpensScreen | resourceserver/src/main/java/com/curiosityhealth/androidresourceserver/resourceserver/activity/AuthorizationActivity.kt:129-267 | the screen opened by `newIntent` shows the request's client, state and receiver; a lookup error or unknown client sends an error, a found client gets its read and write sections |
| ConsentActivity.LayoutMatchesCounts | resourceserver/src/main/java/com/curiosityhealth/androidresourceserver/resourceserver/activity/AuthorizationActivity.kt:281-366 | `getCount` is the length of the intended layout, and each header index, present exactly when its section is non-empty, points at that header |
| ConsentActivity.GetItemFollowsLayout | resourceserver/src/main/java/com/curiosityhealth/androidresourceserver/resourceserver/activity/AuthorizationActivity.kt:336-358 | the corrected `getItem` returns the intended cell at every position below `getCount` |
| ConsentActivity.GetItemAsWrittenReadSection | resourceserver/src/main/java/com/curiosityhealth/androidresourceserver/resourceserver/activity/AuthorizationActivity.kt:338-347 | inside the read section `getItem` as written is already correct |
| ConsentActivity.GetItemAsWrittenShowsReadScope | resourceserver/src/main/java/com/curiosityhealth/androidresourceserver/resourceserver/activity/AuthorizationActivity.kt:349-355 | `getItem` as written indexes the read list for write rows: it shows the read scope where the write scope belongs, and throws when there are no read scopes |
| ConsentActivity.NothingApprovedInitially | resourceserver/src/main/java/com/curiosityhealth/androidresourceserver/resourceserver/activity/AuthorizationActivity.kt:295-300 | before any switch is flipped nothing is approved |
| ConsentActivity.NoneChecked | resourceserver/src/main/java/com/curiosityhealth/androidresourceserver/resourceserver/activity/AuthorizationActivity.kt:299-300 | a map with every switch off checks nothing |
| ConsentActivity.ToggleReadScope | resourceserver/src/main/java/com/curiosityhealth/androidresourceserver/resourceserver/activity/AuthorizationActivity.kt:318-321 | flipping a read switch decides that scope's approval (unless it is also checked as a write scope) and changes no other scope |
| ConsentActivity.ToggleWriteScope | resourceserver/src/main/java/com/curiosityhealth/androidresourceserver/resourceserver/activity/AuthorizationActivity.kt:322-324 | flipping a write switch decides that scope's approval (unless it is also checked as a read scope) and changes no other scope |
| ConsentActivity.ApprovedWithinRequest | resourceserver/src/main/java/com/curiosityhealth/androidresourceserver/resourceserver/activity/AuthorizationActivity.kt:237-300 | whatever the switches, only allowed scopes that were requested can be approved |
| AuthorizationServer.GenerateTokensAndSendResponse | resourceserver/src/main/java/com/curiosityhealth/androidresourceserver/resourceserver/broadcastreceiver/AuthorizationBroadcastReceiver.kt:25-68 | the reply equals the token reply function over the registry; the method only reads the registry |
| AuthorizationServer.ConsentCallback.constructor | resourceserver/src/main/java/com/curiosityhealth/androidresourceserver/resourceserver/broadcastreceiver/AuthorizationBroadcastReceiver.kt:103 | the callback captures the request, the client manager and the token manager |
| AuthorizationServer.ConsentCallback.OnConsentResult | resourceserver/src/main/java/com/curiosityhealth/androidresourceserver/resourceserver/broadcastreceiver/AuthorizationBroadcastReceiver.kt:103-139 | the registry and the outcome are those of the consent-result step function over the old registry |
| AuthorizationServer.AuthorizationBroadcastReceiver.constructor | resourceserver/src/main/java/com/curiosityhealth/androidresourceserver/resourceserver/broadcastreceiver/AuthorizationBroadcastReceiver.kt:163-165 | the receiver holds the given client manager, token manager and consent screen |
| AuthorizationServer.AuthorizationBroadcastReceiver.OnReceive | resourceserver/src/main/java/com/curiosityhealth/androidresourceserver/resourceserver/broadcastreceiver/AuthorizationBroadcastReceiver.kt:167-232 | the outcome equals the `onReceive` function over the registry, with the sample manager's client lookup; the method only reads the registry |
| AuthorizationProperties.TokenReplyCases | resourceserver/src/main/java/com/curiosityhealth/androidresourceserver/resourceserver/broadcastreceiver/AuthorizationBroadcastReceiver.kt:31-67 | no token gives "Cannot generate token"; no handshake gives "Handshake not available"; OK exactly when both tokens exist and the client has a handshake, and then the bundle carries the access token and the request's state |
| AuthorizationProperties.RefreshTokenIgnoresFlag | resourceserver/src/main/java/com/curiosityhealth/androidresourceserver/resourceserver/broadcastreceiver/AuthorizationBroadcastReceiver.kt:31-34 | lifetimes are 86400 s and 31536000 s, and the reply does not depend on `includeRefreshToken` |
| AuthorizationProperties.IssuedAccessTokenValidates | resourceserver/src/main/java/com/curiosityhealth/androidresourceserver/resourceserver/broadcastreceiver/AuthorizationBroadcastReceiver.kt:31-67 | the issued access token validates, naming the client, for one day, is refused after it, and is never accepted as a refresh token |
| AuthorizationProperties.DedupKeepsUndotted | resourceserver/src/main/java/com/curiosityhealth/androidresourceserver/resourceserver/broadcastreceiver/AuthorizationBroadcastReceiver.kt:111 | handing the approved list on as a set keeps the identifiers undotted and removes duplicates |
| AuthorizationProperties.ConsentedStoresScopesThenIssues | resourceserver/src/main/java/com/curiosityhealth/androidresourceserver/resourceserver/broadcastreceiver/AuthorizationBroadcastReceiver.kt:104-119 | on consent the approved scopes read back as the approved set, then the token reply is sent |
| AuthorizationProperties.CanceledClearsScopesStillIssues | resourceserver/src/main/java/com/curiosityhealth/androidresourceserver/resourceserver/broadcastreceiver/AuthorizationBroadcastReceiver.kt:121-131 | on cancel the approved scopes are cleared, and tokens are still sent |
| AuthorizationProperties.ConsentErrorIssuesNothing | resourceserver/src/main/java/com/curiosityhealth/androidresourceserver/resourceserver/broadcastreceiver/AuthorizationBroadcastReceiver.kt:133-138 | a consent error changes nothing and is passed on as an error reply |
| AuthorizationProperties.NoTokensWithoutHandshake | resourceserver/src/main/java/com/curiosityhealth/androidresourceserver/resourceserver/broadcastreceiver/AuthorizationBroadcastReceiver.kt:51-138 | whatever the user answers, a client without a registered handshake gets no OK reply |
| AuthorizationProperties.ConsentOnlyForKnownClients | resourceserver/src/main/java/com/curiosityhealth/androidresourceserver/resourceserver/broadcastreceiver/AuthorizationBroadcastReceiver.kt:70-232 | the consent screen is started only for a BEGIN_AUTHORIZATION intent with a context and a receiver, from a client with a handshake, whose request parses and whom the client lookup found without exception |
| AuthorizationProperties.ReceiveRefusals | resourceserver/src/main/java/com/curiosityhealth/androidresourceserver/resourceserver/broadcastreceiver/AuthorizationBroadcastReceiver.kt:173-227 | a null context is refused with "Context Null"; any other action with "Action not supported"; a client without a handshake with "could not generate request from intent" |
| AuthorizationProperties.ConsentStartedOpensScreen | resourceserver/src/main/java/com/curiosityhealth/androidresourceserver/resourceserver/broadcastreceiver/AuthorizationBroadcastReceiver.kt:141-154 | the intent the receiver starts opens the consent screen on the request's client, state and receiver, with the client's read and write sections |
| AuthorizationProperties.HonestAuthorization | resourceserver/src/main/java/com/curiosityhealth/androidresourceserver/resourceserver/broadcastreceiver/AuthorizationBroadcastReceiver.kt:167-232 | a request sent with SCOPES as a string list by a client with a handshake reaches the consent screen; confirming stores the approved scopes, and the reply to the request's result receiver dispatches as a success carrying the access token and the request's state |
| AuthorizationProperties.AsWrittenRequestRefused | resourceserver/src/main/java/com/curiosityhealth/androidresourceserver/resourceserver/broadcastreceiver/AuthorizationBroadcastReceiver.kt:187-217 | a request sent by `requestIntent` as written is refused with "could not generate request from intent", even from a client with a handshake |
| ResourceClient.AuthorizationClient.constructor | resourceclient/src/main/java/com/curiosityhealth/androidresourceserver/resourceclient/AuthorizationClient.kt:26-62 | a new client holds the configuration and storage, no pending keys or m1 data, both state nonces at -1, and has sent and completed nothing |
| ResourceClient.AuthorizationClient.BeginHandshake | resourceclient/src/main/java/com/curiosityhealth/androidresourceserver/resourceclient/AuthorizationClient.kt:289-362 | the storage is always cleared; on a Tink failure the pending handshake is forgotten and the completion reports failure with the exception, nothing is sent; otherwise the fresh private keys, m1 and the state nonce are kept and exactly one BEGIN request carrying the public halves and the signed m1 is broadcast |
| ResourceClient.AuthorizationClient.CompleteHandshake | resourceclient/src/main/java/com/curiosityhealth/androidresourceserver/resourceclient/AuthorizationClient.kt:364-437 | a missing pending key or m1, an m1 that does not decrypt back, an unreadable server key, a bad m2 signature or a failed encryption is returned as the error with storage and broadcasts unchanged; otherwise all four keys are stored and one COMPLETE request with m2 encrypted to the server is broadcast |
| ResourceClient.AuthorizationClient.PersistAndSend | resourceclient/src/main/java/com/curiosityhealth/androidresourceserver/resourceclient/AuthorizationClient.kt:403-425 | the four keys are written to storage and exactly one COMPLETE request is broadcast; nothing else changes |
| ResourceClient.AuthorizationClient.OnBeginResult | resourceclient/src/main/java/com/curiosityhealth/androidresourceserver/resourceclient/AuthorizationClient.kt:257-284 | an error delivery is reported as failure; a successful one completes the handshake, and a completion error clears the storage and reports failure with that exception |
| ResourceClient.AuthorizationClient.OnCompleteResult | resourceclient/src/main/java/com/curiosityhealth/androidresourceserver/resourceclient/AuthorizationClient.kt:257-269 | success reports success and keeps the storage; an error clears the storage and reports failure with the exception; nothing is sent |
| ResourceClient.AuthorizationClient.CheckHandshake | resourceclient/src/main/java/com/curiosityhealth/androidresourceserver/resourceclient/AuthorizationClient.kt:200-250 | the storage, broadcasts, completions and escaped exception are those of the check step function over the old storage |
| ResourceClient.AuthorizationClient.Catch | resourceclient/src/main/java/com/curiosityhealth/androidresourceserver/resourceclient/AuthorizationClient.kt:245-248 | a GeneralSecurityException runs the verify callback's error branch, clearing the storage and reporting failure with it; any other exception escapes with storage and reports unchanged |
| ResourceClient.AuthorizationClient.OnVerifyResult | resourceclient/src/main/java/com/curiosityhealth/androidresourceserver/resourceclient/AuthorizationClient.kt:157-198 | the storage, broadcasts, completions and escaped exception are those of the verify-result step function over the old storage |
| ResourceClient.AuthorizationClient.DoAuthorization | resourceclient/src/main/java/com/curiosityhealth/androidresourceserver/resourceclient/AuthorizationClient.kt:100-152 | the authorization state becomes the drawn nonce; the broadcasts and completions are those of the authorization step function; the storage is only read |
| ResourceClient.AuthorizationClient.OnAuthorizationResult | resourceclient/src/main/java/com/curiosityhealth/androidresourceserver/resourceclient/AuthorizationClient.kt:108-116 | whatever the authorization receiver delivers, success or error, the callback throws NotImplementedError and neither sends nor completes anything |
| ClientProperties.IntentOfRoundTrip | resourceclient/src/main/java/com/curiosityhealth/androidresourceserver/resourceclient/AuthorizationClient.kt:339-350 | every request intent the client broadcasts is addressed to the configured server component and carries the result receiver; BEGIN, COMPLETE and VERIFY requests parse back on the server to the same request, while an authorization request, built as written, does not parse at all |
| ClientProperties.HonestBeginAccepted | resourceclient/src/main/java/com/curiosityhealth/androidresourceserver/resourceclient/AuthorizationClient.kt:289-350 | the server answers an honestly built BEGIN request with OK |
| ClientProperties.HonestBeginResponseCompletes | resourceclient/src/main/java/com/curiosityhealth/androidresourceserver/resourceclient/AuthorizationClient.kt:364-413 | the server's BEGIN reply parses, echoes client id and state, and passes every client-side completion check, yielding the client's keys, the server's public keys and m2 encrypted to the server |
| ClientProperties.HonestHandshakeRegisters | resourceclient/src/main/java/com/curiosityhealth/androidresourceserver/resourceclient/AuthorizationClient.kt:408-425 | the COMPLETE request the client builds from an honest BEGIN exchange is answered OK and registers a handshake holding both sides' keys |
| ClientProperties.ClientKeysStored | resourceclient/src/main/java/com/curiosityhealth/androidresourceserver/resourceclient/AuthorizationClient.kt:403-406 | after persisting, each of the four key slots reads back the keyset stored in it |
| ClientProperties.HonestCheckSends | resourceclient/src/main/java/com/curiosityhealth/androidresourceserver/resourceclient/AuthorizationClient.kt:200-243 | with a completed handshake's keys stored, checking the handshake changes nothing and broadcasts exactly one VERIFY request with the signed and encrypted challenge |
| ClientProperties.HonestVerifyReportsSuccess | resourceclient/src/main/java/com/curiosityhealth/androidresourceserver/resourceclient/AuthorizationClient.kt:157-190 | a registered handshake answers the client's honest VERIFY request so that the client reports success and keeps its storage |
| ClientProperties.HonestVerifyResult | resourceclient/src/main/java/com/curiosityhealth/androidresourceserver/resourceclient/AuthorizationClient.kt:157-190 | a response whose signature verifies under the stored server key and whose ciphertext decrypts to its data is reported as success with the storage kept |
| ClientProperties.CheckStepOutcomes | resourceclient/src/main/java/com/curiosityhealth/androidresourceserver/resourceclient/AuthorizationClient.kt:200-250 | checking yields exactly one of a broadcast, a completion or an escaped exception; the storage is kept or cleared only on a security failure; a broadcast needs both stored keys; no completion reports success |
| ClientProperties.VerifyResultOutcomes | resourceclient/src/main/java/com/curiosityhealth/androidresourceserver/resourceclient/AuthorizationClient.kt:157-198 | the verify callback never sends; it completes exactly once unless an exception escapes; success requires a verifying signature and matching decryption under the stored keys; every failure clears the storage |
| ClientProperties.AuthorizationReportsSuccessFirst | resourceclient/src/main/java/com/curiosityhealth/androidresourceserver/resourceclient/AuthorizationClient.kt:100-152 | `doAuthorization` always reports success first; a second, failing completion comes exactly when a needed key is missing; a broadcast is exactly the authorization request with the configured client id, state, scopes and refresh flag |
| ClientProperties.AuthorizationSendsWithKeys | resourceclient/src/main/java/com/curiosityhealth/androidresourceserver/resourceclient/AuthorizationClient.kt:131-151 | with the client keys stored, authorization reports success and broadcasts the authorization request |
| ClientProperties.AuthorizePolicy | resourceclient/src/main/java/com/curiosityhealth/androidresourceserver/resourceclient/AuthorizationClient.kt:64-98 | `authorize` handshakes exactly when the check fails; its first completion succeeds exactly when the check or the handshake succeeded; when both fail it reports the handshake's failure, and otherwise it runs the authorization step, which sends nothing but the one authorization request |
| ClientProperties.HonestAuthorizeSendsRequest | resourceclient/src/main/java/com/curiosityhealth/androidresourceserver/resourceclient/AuthorizationClient.kt:64-152 | with honest keys stored and the handshake registered on the server, the verify answer completes the check successfully, and `authorize` then skips the handshake, reports success once and sends exactly the authorization request for the client id, state, scopes and refresh-token flag |
| ClientProperties.AuthorizationEndsInClientCrash | resourceclient/src/main/java/com/curiosityhealth/androidresourceserver/resourceclient/AuthorizationClient.kt:108-116 | the server refuses the client's authorization request with "could not generate request from intent", the receiver dispatches that refusal to `onError`, and `onError` throws NotImplementedError without sending or completing anything |
| ApiViews.LastPathSegment | resourceserversampleapp/src/main/java/com/curiosityhealth/androidresourceserver/resourceserversampleapp/contentprovider/APIView.kt:163 | `lastPathSegment` is present exactly when the path has a segment, and is then the last one |
| ApiViews.QueryParameter | resourceserversampleapp/src/main/java/com/curiosityhealth/androidresourceserver/resourceserversampleapp/contentprovider/SampleContentProvider.kt:161-163 | `getQueryParameter` is present exactly when the query names the parameter, and is then its value |
| ApiViews.DefaultAuthenticate | resourceserversampleapp/src/main/java/com/curiosityhealth/androidresourceserver/resourceserversampleapp/contentprovider/APIView.kt:57-64 | the default authentication delegate completes with neither a result nor an error |
| ApiViews.DefaultCheckPermissions | resourceserversampleapp/src/main/java/com/curiosityhealth/androidresourceserver/resourceserversampleapp/contentprovider/APIView.kt:71-75 | the default permissions delegate never throws |
| ApiViews.Authenticated | resourceserversampleapp/src/main/java/com/curiosityhealth/androidresourceserver/resourceserversampleapp/contentprovider/APIView.kt:96-121 | the blocking authentication fails exactly when the delegate throws or completes with an error; it then throws what `blockingGet` makes of that error, a runtime exception that is never an AuthorizationFailed; otherwise it yields the delegate's result, possibly empty |
| Errors.BlockingGetRaised | resourceserversampleapp/src/main/java/com/curiosityhealth/androidresourceserver/resourceserversampleapp/contentprovider/APIView.kt:113 | `blockingGet` rethrows a runtime exception or error unchanged and wraps every other exception in a RuntimeException, so what it throws is always unchecked |
| ApiViews.SerializeAll | resourceserversampleapp/src/main/java/com/curiosityhealth/androidresourceserver/resourceserversampleapp/contentprovider/APIView.kt:148 | the serialized list has one string per object, in order, each the object's serialization |
| ApiViews.HandleRequest | resourceserversampleapp/src/main/java/com/curiosityhealth/androidresourceserver/resourceserversampleapp/contentprovider/APIView.kt:94-153 | a completed request carries one of the codes 200, 400 and 403, never 401; it is 200 exactly when it has no exception and exactly when it has a body; 400 carries a MalformedRequest and 403 an InsufficientPermissions |
| ApiViews.HandleRequestIntended | resourceserversampleapp/src/main/java/com/curiosityhealth/androidresourceserver/resourceserversampleapp/contentprovider/APIView.kt:94-153 | with the 401 branch reachable, a completed request carries one of 200, 400, 401 and 403; 200 exactly when there is no exception and exactly when there is a body; 401 carries the AuthorizationFailed the delegate signalled, 400 a MalformedRequest and 403 an InsufficientPermissions |
| ApiViews.ReadGetObjects | resourceserversampleapp/src/main/java/com/curiosityhealth/androidresourceserver/resourceserversampleapp/contentprovider/APIView.kt:159-165 | a read view without a last path segment throws MalformedRequest("unknown identifier"); otherwise it answers the single object `getObject` finds for that identifier, or its exception |
| ApiViews.AuthenticationFailureStopsPipeline | resourceserversampleapp/src/main/java/com/curiosityhealth/androidresourceserver/resourceserversampleapp/contentprovider/APIView.kt:96-119 | a failed authentication escapes as what `blockingGet` throws, so an AuthorizationFailed escapes wrapped in a RuntimeException instead of being answered 401, whatever the rest of the view does |
| ApiViews.IntendedAuthenticationFailure | resourceserversampleapp/src/main/java/com/curiosityhealth/androidresourceserver/resourceserversampleapp/contentprovider/APIView.kt:96-119 | with the catch reaching the signalled error, a failed authentication is answered 401 with it when it is an AuthorizationFailed and escapes otherwise, whatever the rest of the view does |
| ApiViews.AuthorizationFailedEscapesWrapped | resourceserversampleapp/src/main/java/com/curiosityhealth/androidresourceserver/resourceserversampleapp/contentprovider/APIView.kt:113-119 | when the delegate signals AuthorizationFailed, the view as written lets it escape wrapped in a RuntimeException where the intended view answers 401 with it; in every other case the two views agree |
| ApiViews.EmptyAuthenticationProceeds | resourceserversampleapp/src/main/java/com/curiosityhealth/androidresourceserver/resourceserversampleapp/contentprovider/APIView.kt:104-107 | an authentication completing with neither result nor error continues the pipeline with no authentication result |
| ApiViews.ParameterFailureStopsPipeline | resourceserversampleapp/src/main/java/com/curiosityhealth/androidresourceserver/resourceserversampleapp/contentprovider/APIView.kt:124-132 | after authentication, a failed parameter conversion is answered 400 when it is a MalformedRequest and escapes otherwise, whatever the permissions and objects are |
| ApiViews.PermissionFailureStopsPipeline | resourceserversampleapp/src/main/java/com/curiosityhealth/androidresourceserver/resourceserversampleapp/contentprovider/APIView.kt:136-144 | a permission check that throws is answered 403 when it is an InsufficientPermissions and escapes otherwise, and the objects are never fetched |
| ApiViews.SuccessExactly | resourceserversampleapp/src/main/java/com/curiosityhealth/androidresourceserver/resourceserversampleapp/contentprovider/APIView.kt:94-153 | the answer is 200 exactly when authentication, conversion, the permission check and fetching the objects all succeed, and its body then serializes every fetched object in order |
| ApiViews.EscapesOnlyUncaught | resourceserversampleapp/src/main/java/com/curiosityhealth/androidresourceserver/resourceserversampleapp/contentprovider/APIView.kt:94-153 | an exception escapes only when it is one the stage that threw it does not catch, or comes from fetching the objects; a failed authentication always escapes, as an unchecked exception, and an AuthorizationFailed wrapped in a RuntimeException |
| ApiViews.DefaultDelegatesNeverRefuse | resourceserversampleapp/src/main/java/com/curiosityhealth/androidresourceserver/resourceserversampleapp/contentprovider/APIView.kt:57-75 | with the default delegates a view never answers 401 or 403, and after a successful conversion it serves its objects unauthenticated |
| ApiViews.ReadViewWithoutIdentifierEscapes | resourceserversampleapp/src/main/java/com/curiosityhealth/androidresourceserver/resourceserversampleapp/contentprovider/APIView.kt:162-163 | a read view asked for a path without segments lets MalformedRequest("unknown identifier") escape, since `getObjects` is called outside any catch |
| ApiViews.ReadViewAnswersOneObject | resourceserversampleapp/src/main/java/com/curiosityhealth/androidresourceserver/resourceserversampleapp/contentprovider/APIView.kt:162-164 | a read view whose object is found answers 200 with exactly that object serialized |
| SampleApi.SampleAuthenticate | resourceserversampleapp/src/main/java/com/curiosityhealth/androidresourceserver/resourceserversampleapp/contentprovider/SampleAPIViews.kt:26-66 | a missing token fails with "No token provided", a token that does not validate as an access token with "Invalid token"; a result always holds the validated token and a registered client whose id the token names |
| SampleApi.SampleConvertParameters | resourceserversampleapp/src/main/java/com/curiosityhealth/androidresourceserver/resourceserversampleapp/contentprovider/SampleAPIViews.kt:68-70 | the sample view takes no parameters |
| SampleApi.SampleCheckPermissions | resourceserversampleapp/src/main/java/com/curiosityhealth/androidresourceserver/resourceserversampleapp/contentprovider/SampleAPIViews.kt:72-78 | the check passes exactly when the request names a client whose stored approved scopes contain the read scope `sample_scope_1`; a missing client is refused as "Invalid client" |
| SampleApi.SampleGetObjects | resourceserversampleapp/src/main/java/com/curiosityhealth/androidresourceserver/resourceserversampleapp/contentprovider/SampleAPIViews.kt:80-85 | the sample view lists the two fixed items "item 1"/"data 1" and "item 2"/"data 2" |
| SampleApi.LiteralSampleViewServesAnyone | resourceserversampleapp/src/main/java/com/curiosityhealth/androidresourceserver/resourceserversampleapp/contentprovider/APIView.kt:79-88 | the sample view with its `authenticate` and `checkPermissions` taken as written, which replace no member of the base view, keeps the default delegates and serves both items to every request, token or not |
| SampleApi.NoTokenIsRefused | resourceserversampleapp/src/main/java/com/curiosityhealth/androidresourceserver/resourceserversampleapp/contentprovider/SampleAPIViews.kt:31-36 | a request without a token makes the view escape with "No token provided" wrapped in a RuntimeException; the intended view answers it 401 "No token provided" |
| SampleApi.InvalidTokenIsRefused | resourceserversampleapp/src/main/java/com/curiosityhealth/androidresourceserver/resourceserversampleapp/contentprovider/SampleAPIViews.kt:38-43 | a request with a token that does not validate makes the view escape with "Invalid token" wrapped in a RuntimeException; the intended view answers it 401 "Invalid token" |
| SampleApi.ValidatedTokenNamesClient | resourceserversampleapp/src/main/java/com/curiosityhealth/androidresourceserver/resourceserversampleapp/contentprovider/SampleAPIViews.kt:45-64 | a validated access token always names a client id, so the second "Invalid token" branch cannot be taken, and authentication is the client lookup |
| SampleApi.UnknownClientEscapes | resourceserversampleapp/src/main/java/com/curiosityhealth/androidresourceserver/resourceserversampleapp/contentprovider/SampleAPIViews.kt:52-55 | a valid token naming an unregistered client makes the lookup throw NoSuchElement, and that exception escapes both the view as written and the intended view |
| SampleApi.KnownClientServedIffApproved | resourceserversampleapp/src/main/java/com/curiosityhealth/androidresourceserver/resourceserversampleapp/contentprovider/SampleAPIViews.kt:72-85 | for a valid token of a registered client the view answers 200 with both items when the read scope is approved, 403 "Insufficient scope" when it is not or nothing is stored, and lets a store exception escape |
| SampleApi.SampleClientServedWhenApproved | resourceserversampleapp/src/main/java/com/curiosityhealth/androidresourceserver/resourceserversampleapp/contentprovider/SampleAPIViews.kt:26-85 | a request carrying a valid access token of the sample client, whose stored approved scopes contain `sample_scope_1`, is answered 200 with both items |
| SampleApi.ConsentedClientIsServed | resourceserversampleapp/src/main/java/com/curiosityhealth/androidresourceserver/resourceserversampleapp/contentprovider/SampleAPIViews.kt:26-85 | the access token issued after the sample client consents to `sample_scope_1` is served 200 until it expires a day later |
| SampleApi.CanceledClientIsForbidden | resourceserversampleapp/src/main/java/com/curiosityhealth/androidresourceserver/resourceserversampleapp/contentprovider/SampleAPIViews.kt:72-78 | the access token issued after the sample client cancels consent is answered 403 "Insufficient scope" |
| ContentProvider.HandleContentRequest | resourceserversampleapp/src/main/java/com/curiosityhealth/androidresourceserver/resourceserversampleapp/contentprovider/SampleContentProvider.kt:75-93 | a content handler fails exactly when reading the approved scopes fails; otherwise it answers either nothing or exactly its two serialized items |
| ContentProvider.HandlerServesIffApproved | resourceserversampleapp/src/main/java/com/curiosityhealth/androidresourceserver/resourceserversampleapp/contentprovider/SampleContentProvider.kt:75-93 | a handler answers its two items exactly when the client's approved scopes contain its read scope (`sample_scope_1` or `sample_scope_2`), and an empty list otherwise |
| ContentProvider.TokenString | resourceserversampleapp/src/main/java/com/curiosityhealth/androidresourceserver/resourceserversampleapp/contentprovider/SampleContentProvider.kt:160-179 | without a `token` parameter there is no token; a token is returned only when both parameters are present and decode, the client has a registered handshake, the signature verifies under the client's signing key, and it is then the decryption under the server's key bound to the client id |
| ContentProvider.TokenStringRecovered | resourceserversampleapp/src/main/java/com/curiosityhealth/androidresourceserver/resourceserversampleapp/contentprovider/SampleContentProvider.kt:160-179 | a token encrypted to the server for this client id and signed by the client is recovered unchanged |
| ContentProvider.ForgedTokenSignatureThrows | resourceserversampleapp/src/main/java/com/curiosityhealth/androidresourceserver/resourceserversampleapp/contentprovider/SampleContentProvider.kt:171-172 | a signature not made with the registered client's signing key makes `getTokenString` throw a security exception |
| ContentProvider.TokenBoundToClientId | resourceserversampleapp/src/main/java/com/curiosityhealth/androidresourceserver/resourceserversampleapp/contentprovider/SampleContentProvider.kt:175-177 | a token encrypted for another client id does not decrypt and throws a security exception |
| ContentProvider.EncryptedRow | resourceserversampleapp/src/main/java/com/curiosityhealth/androidresourceserver/resourceserversampleapp/contentprovider/SampleContentProvider.kt:217-229 | a row succeeds exactly when encrypting the string to the client, bound to its id, and signing the ciphertext with the server key succeed, and holds that ciphertext and signature |
| ContentProvider.EncryptedRows | resourceserversampleapp/src/main/java/com/curiosityhealth/androidresourceserver/resourceserversampleapp/contentprovider/SampleContentProvider.kt:217-230 | the rows succeed exactly when every string's row succeeds, and then hold one row per string, in order |
| ContentProvider.RowErrorPersists | resourceserversampleapp/src/main/java/com/curiosityhealth/androidresourceserver/resourceserversampleapp/contentprovider/SampleContentProvider.kt:217-230 | once a prefix of the strings fails to encrypt or sign, the whole list fails with that same exception |
| ContentProvider.RowsOpenForClient | resourceserversampleapp/src/main/java/com/curiosityhealth/androidresourceserver/resourceserversampleapp/contentprovider/SampleContentProvider.kt:217-230 | every row decrypts with the client's private key under its own id, and under no other id, to the string it encodes, and its signature verifies under the server's public signing key |
| ContentProvider.GeneratedCursor | resourceserversampleapp/src/main/java/com/curiosityhealth/androidresourceserver/resourceserversampleapp/contentprovider/SampleContentProvider.kt:206-233 | there is no cursor exactly when the client has no registered handshake; a cursor has one row per response string |
| ContentProvider.RefusalGivesEmptyCursor | resourceserversampleapp/src/main/java/com/curiosityhealth/androidresourceserver/resourceserversampleapp/contentprovider/SampleContentProvider.kt:217 | a refused response, without strings, gives an empty cursor for a registered client |
| ContentProvider.CursorOpensForClient | resourceserversampleapp/src/main/java/com/curiosityhealth/androidresourceserver/resourceserversampleapp/contentprovider/SampleContentProvider.kt:206-233 | the cursor of a 200 response has one row per string, each decrypting for the registered client to that string and carrying a valid server signature |
| ContentProvider.FirstRoute | resourceserversampleapp/src/main/java/com/curiosityhealth/androidresourceserver/resourceserversampleapp/contentprovider/SampleContentProvider.kt:309-311 | no route is found exactly when none matches; otherwise the found route is the first that matches |
| ContentProvider.SampleRouteMatches | resourceserversampleapp/src/main/java/com/curiosityhealth/androidresourceserver/resourceserversampleapp/contentprovider/SampleContentProvider.kt:149-158 | on the provider's authority, the sample routes match exactly the path `sample_data_1` |
| ContentProvider.QueryResult | resourceserversampleapp/src/main/java/com/curiosityhealth/androidresourceserver/resourceserversampleapp/contentprovider/SampleContentProvider.kt:298-322 | a query without `client_id` returns null; before `onCreate` it throws an uninitialized-property exception; with no matching route it throws NoSuchElement; a cursor needs a matching route and a registered handshake for the client |
| ContentProvider.QueryReachesCursor | resourceserversampleapp/src/main/java/com/curiosityhealth/androidresourceserver/resourceserversampleapp/contentprovider/SampleContentProvider.kt:306-321 | a query with a client id, a matching route, a token string and a completed view response answers the cursor generated from that response |
| ContentProvider.QueryWithoutTokenThrows | resourceserversampleapp/src/main/java/com/curiosityhealth/androidresourceserver/resourceserversampleapp/contentprovider/SampleContentProvider.kt:313-321 | a query without a token makes the view escape, so `query` throws an ExecutionException around the RuntimeException around "No token provided" |
| ContentProvider.SampleViewServes | resourceserversampleapp/src/main/java/com/curiosityhealth/androidresourceserver/resourceserversampleapp/contentprovider/SampleContentProvider.kt:315-320 | the sample view serves both items to a valid access token of the sample client that holds `sample_scope_1` |
| ContentProvider.ServedQueryDeliversItems | resourceserversampleapp/src/main/java/com/curiosityhealth/androidresourceserver/resourceserversampleapp/contentprovider/SampleContentProvider.kt:298-322 | an approved sample client querying with its signed, encrypted access token receives exactly two rows, each decrypting to the corresponding serialized item and signed by the server |
| ContentProvider.MatrixCursor.constructor | resourceserversampleapp/src/main/java/com/curiosityhealth/androidresourceserver/resourceserversampleapp/contentprovider/SampleContentProvider.kt:214-215 | a new cursor has the given columns and no rows |
| ContentProvider.MatrixCursor.AddRow | resourceserversampleapp/src/main/java/com/curiosityhealth/androidresourceserver/resourceserversampleapp/contentprovider/SampleContentProvider.kt:227-229 | adding a row appends it after the existing rows |
| ContentProvider.SampleContentProvider.constructor | resourceserversampleapp/src/main/java/com/curiosityhealth/androidresourceserver/resourceserversampleapp/contentprovider/SampleContentProvider.kt:138-148 | a new provider holds its client manager, token manager and codec, and its routes are not yet initialized |
| ContentProvider.SampleContentProvider.OnCreate | resourceserversampleapp/src/main/java/com/curiosityhealth/androidresourceserver/resourceserversampleapp/contentprovider/SampleContentProvider.kt:149-158 | `onCreate` installs the single sample route and returns true |
| ContentProvider.SampleContentProvider.GenerateCursor | resourceserversampleapp/src/main/java/com/curiosityhealth/androidresourceserver/resourceserversampleapp/contentprovider/SampleContentProvider.kt:206-233 | the cursor, a fresh object with the two fixed columns, is present exactly when the cursor function gives rows, and holds exactly those rows; errors agree |
| ContentProvider.SampleContentProvider.Query | resourceserversampleapp/src/main/java/com/curiosityhealth/androidresourceserver/resourceserversampleapp/contentprovider/SampleContentProvider.kt:298-322 | the answer agrees with the query function over the registry: the same error, or a fresh cursor with the fixed columns and exactly its rows |

## Left out

- Tink cryptography is symbolic. ECDSA and ECIES, key generation, the JSON keyset format and KMS-wrapped keyset storage are not modelled. Crypto failures appear only as the library's security exception.
- The auth0 JWT internals (HMAC-SHA256 signing, encoding, expiry arithmetic on `Date`) are an abstract library record with stated laws. The clock is an integer parameter.
- Moshi JSON and Android Base64 are abstract encode and decode pairs with round-trip laws.
- Random draws are method parameters: `Random.randBytes` and `kotlin.random.Random.nextLong`.
- Android transport is replaced by values:
  - `sendBroadcast`, `startActivity` and `ResultReceiver.send` return or record what would be sent;
  - a result receiver is identified by a number;
  - a null `Context` is a boolean flag.
- AsyncTask and RxJava `Single`/`Maybe.blockingGet` are modelled as direct sequential calls. Threading and re-entrancy are not modelled. The exceptions they wrap are modelled: `blockingGet` wraps a checked exception in a RuntimeException, and `AsyncTask.get` wraps what the task threw in an ExecutionException.
- `UriMatcher` is reduced to literal paths: the authority is equal and the path segments are those of the registered path. Its `*` and `#` wildcards are not modelled.
- The content provider's `insert`, `update`, `delete` and `getType` only throw "not implemented". They are not modelled.
- `getToken` in `SampleContentProvider.kt` is not called from `query`, so it is not modelled.
- SampleApi.SampleListView1: `SampleListAPIView1` declares `authenticate` and `checkPermissions` with `override`, but the base view declares neither; its abstract `authenticate` is commented out, and it reads both through `authenticationDelegate` and `permissionsDelegate`. The model wires the two functions in as those delegates, which is evidently what the sample means. `LiteralSampleView` is the other reading, where the base view keeps its default delegates.
- `AuthorizationActivity.getView` and the button and layout wiring are not modelled. Only the list adaptor's counts, `getItem`, switch state and `approvedScopes` are.
- The refresh token is generated and then dropped, and `includeRefreshToken` has no effect. The model keeps both facts and proves the second, but carries no refresh-token value.
- Kotlin `assert(...)` in the complete handlers is a no-op, because Android runs with assertions disabled. The explicit check after it is what the model keeps.
- Assigning null to `accessToken` or `refreshToken` in the client storage is modelled as removing the key.
- HandshakeServiceVariant.ServiceStep: `handleBeginHandshake` of `HandshakeService.kt` is taken to be the receiver's BEGIN step, not restated line by line.
- ConsentActivity.LexLe: Kotlin compares strings by UTF-16 code units, but the model compares Unicode characters. The two orders differ only for characters outside the Basic Multilingual Plane.
- ConsentActivity.SortByDescription: states sortedness and permutation but not stability, although `sortedBy` is stable.
- ConsentActivity.ScopeListAdaptor.Toggle: requires that the toggled scope is on the list of its access kind. The switch listener only receives scopes that `getItem` handed out, and the map update for other scopes is not modelled.

## Findings

| source | as written | input that shows it | evidently intended | confidence | as-written member | corrected member |
|---|---|---|---|---|---|---|
| resourceserver/src/main/java/com/curiosityhealth/androidresourceserver/resourceserver/activity/AuthorizationActivity.kt:354 | in the write section, `getItem` indexes `readScopes` with the write-section offset | read scopes [a], write scopes [b], position 3 (the write row) shows a, not b; with no read scopes any write row throws | index `writeScopes`, so each write row shows its write scope | high, not executed | ConsentActivity.GetItemAsWrittenShowsReadScope | ConsentActivity.GetItemFollowsLayout |
| common/src/main/java/com/curiosityhealth/androidresourceserver/common/Authorization/Authorization.kt:83 | `requestIntent` puts SCOPES as a String array (`toTypedArray`), while `fromIntent` at line 53 reads it as a String ArrayList | any request, for example client "c", state 1, scopes [s.read]: the built intent's SCOPES is not a string list, so `fromIntent` returns null and the server refuses it | put SCOPES as a string ArrayList, so that `fromIntent(requestIntent(r)) == r` | high, not executed | AuthorizationWire.AuthRequestAsWrittenNeverParses | AuthorizationWire.AuthRequestRoundTrip |
| resourceserversampleapp/src/main/java/com/curiosityhealth/androidresourceserver/resourceserversampleapp/contentprovider/APIView.kt:115 | the catch expects `APIException.AuthorizationFailed`, but `blockingGet` at line 113 throws the checked APIException wrapped in a RuntimeException | a request to the sample view without a token: the delegate signals AuthorizationFailed("No token provided"), the catch does not match, and the RuntimeException escapes `handleRequest` instead of a 401 answer | catch the cause the subscription signalled, so that an AuthorizationFailed is answered 401 | high, not executed | ApiViews.AuthorizationFailedEscapesWrapped | ApiViews.HandleRequestIntended |
