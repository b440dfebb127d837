/**
 * The server's registry of clients (ClientManager and its sample
 * implementation SampleClientManager): the fixed client list, the registered
 * handshake of each client under "clientId.field" and the scopes a user
 * approved under "clientId.approvedScopes".
 */
module ClientManagement {
  import opened Wrappers
  import opened Errors
  import opened Crypto
  import opened KeyValue
  import opened Scopes
  import opened Sequences

  /** A client app known to the server; `allowedScopes` is a Set, kept in `setOf` order. */
  datatype Client = Client(clientId: string, allowedScopes: seq<AllowedScope>)

  /** The keys a completed handshake leaves with the server. */
  datatype ClientHandshake = ClientHandshake(
    clientId: string,
    clientPublicSigningKey: Keyset,
    clientPublicEncryptionKey: Keyset,
    serverPrivateSigningKey: Keyset,
    serverPrivateEncryptionKey: Keyset)

  function HandshakeKey(h: ClientHandshake, f: KeyField): Keyset
  {
    match f
    case ClientPublicSigningKey => h.clientPublicSigningKey
    case ClientPublicEncryptionKey => h.clientPublicEncryptionKey
    case ServerPrivateSigningKey => h.serverPrivateSigningKey
    case ServerPrivateEncryptionKey => h.serverPrivateEncryptionKey
  }

  const SampleScope1 := Scope("sample_scope_1", "Sample Scope 1")
  const SampleScope2 := Scope("sample_scope_2", "Sample Scope 2")
  const SampleScope3 := Scope("sample_scope_3", "Sample Scope 3")

  const SampleAllowedScopes: seq<AllowedScope> := [
    AllowedScope(SampleScope1, READ),
    AllowedScope(SampleScope1, WRITE),
    AllowedScope(SampleScope2, READ),
    AllowedScope(SampleScope3, WRITE)]

  const SAMPLE_CLIENT_ID := "sample_client_id"

  const SampleClientList: seq<Client> := [Client(SAMPLE_CLIENT_ID, SampleAllowedScopes)]

  /**
   * `clientList.first { it.clientId == clientId }`: the first client with that
   * id; `first` throws NoSuchElementException when there is none.
   */
  function FindClient(clients: seq<Client>, clientId: string): (r: Result<Client, Exception>)
    ensures r.Ok? ==> exists i :: 0 <= i < |clients| && clients[i] == r.value && r.value.clientId == clientId
                        && forall j :: 0 <= j < i ==> clients[j].clientId != clientId
    ensures r.Err? <==> forall c :: c in clients ==> c.clientId != clientId
    ensures r.Err? ==> r.error == NoSuchElement
  {
    if clients == [] then Err(NoSuchElement)
    else if clients[0].clientId == clientId then Ok(clients[0])
    else
      var r := FindClient(clients[1..], clientId);
      assert r.Ok? ==> exists i :: (1 <= i < |clients| && clients[i] == r.value
                                    && forall j :: 0 <= j < i ==> clients[j].clientId != clientId) by {
        if r.Ok? {
          var i :| 0 <= i < |clients[1..]| && clients[1..][i] == r.value && r.value.clientId == clientId
            && forall j :: 0 <= j < i ==> clients[1..][j].clientId != clientId;
          assert clients[i + 1] == r.value;
          assert forall j :: 0 <= j < i + 1 ==> clients[j].clientId != clientId by {
            forall j | 0 <= j < i + 1 ensures clients[j].clientId != clientId {
              if j > 0 { assert clients[j] == clients[1..][j - 1]; }
            }
          }
        }
      }
      assert r.Err? ==> forall c :: c in clients ==> c.clientId != clientId by {
        if r.Err? {
          forall c | c in clients ensures c.clientId != clientId {
            if c != clients[0] {
              var k :| 0 <= k < |clients| && clients[k] == c;
              assert c == clients[1..][k - 1];
            }
          }
        }
      }
      r
  }

  // ---------------------------------------------------------------------------
  // Keys

  /** "$clientId.clientPublicSigningKey" and the other three slots. */
  function SlotKey(clientId: string, f: KeyField): string
  {
    clientId + "." + KeyFieldName(f)
  }

  const APPROVED_SCOPES := "approvedScopes"

  /** "$clientId.approvedScopes" */
  function ApprovedScopesKey(clientId: string): string
  {
    clientId + "." + APPROVED_SCOPES
  }

  lemma SlotKeyInjective(c: string, f: KeyField, c': string, f': KeyField)
    requires SlotKey(c, f) == SlotKey(c', f')
    ensures c == c' && f == f'
  {
    DotJoinInjective(c, KeyFieldName(f), c', KeyFieldName(f'));
  }

  /** The approved-scopes entry of any client is never a handshake slot of any client. */
  lemma ApprovedScopesKeyIsNotSlot(c: string, c': string, f: KeyField)
    ensures ApprovedScopesKey(c) != SlotKey(c', f)
  {
    if ApprovedScopesKey(c) == SlotKey(c', f) {
      DotJoinInjective(c, APPROVED_SCOPES, c', KeyFieldName(f));
      assert false;
    }
  }

  // ---------------------------------------------------------------------------
  // The registry, read as values

  /**
   * `getClientHandshake`: the four slots loaded in order; the first empty slot
   * gives null, and a slot that is not a keyset makes the reader throw.
   */
  function RegisteredHandshake(kv: Store, clientId: string): Result<Option<ClientHandshake>, Exception>
  {
    match LoadKeyset(kv, SlotKey(clientId, ClientPublicSigningKey))
    case Err(e) => Err(e)
    case Ok(None) => Ok(None)
    case Ok(Some(cs)) =>
      match LoadKeyset(kv, SlotKey(clientId, ClientPublicEncryptionKey))
      case Err(e) => Err(e)
      case Ok(None) => Ok(None)
      case Ok(Some(ce)) =>
        match LoadKeyset(kv, SlotKey(clientId, ServerPrivateSigningKey))
        case Err(e) => Err(e)
        case Ok(None) => Ok(None)
        case Ok(Some(ss)) =>
          match LoadKeyset(kv, SlotKey(clientId, ServerPrivateEncryptionKey))
          case Err(e) => Err(e)
          case Ok(None) => Ok(None)
          case Ok(Some(se)) => Ok(Some(ClientHandshake(clientId, cs, ce, ss, se)))
  }

  /** The store after `registerClientHandshake(clientId, h)`. */
  function WithHandshake(kv: Store, clientId: string, h: ClientHandshake): Store
  {
    kv[SlotKey(clientId, ClientPublicSigningKey) := KeysetValue(h.clientPublicSigningKey)]
      [SlotKey(clientId, ClientPublicEncryptionKey) := KeysetValue(h.clientPublicEncryptionKey)]
      [SlotKey(clientId, ServerPrivateSigningKey) := KeysetValue(h.serverPrivateSigningKey)]
      [SlotKey(clientId, ServerPrivateEncryptionKey) := KeysetValue(h.serverPrivateEncryptionKey)]
  }

  /** `scopeRequestString` of every element, in iteration order. */
  function ScopeStrings(approved: seq<ScopeRequest>): (items: seq<string>)
    ensures |items| == |approved|
    ensures forall i :: 0 <= i < |approved| ==> items[i] == ScopeRequestString(approved[i])
  {
    if approved == [] then [] else [ScopeRequestString(approved[0])] + ScopeStrings(approved[1..])
  }

  /**
   * `map { fromScopeRequestString(it) }`: every string parsed in order; the
   * first string that does not parse throws, and its exception escapes.
   */
  function ParseScopeStrings(items: seq<string>): (r: Result<seq<ScopeRequest>, Exception>)
    ensures r.Ok? ==> |r.value| == |items| && forall i :: 0 <= i < |items| ==> FromScopeRequestString(items[i]) == Ok(r.value[i])
    ensures r.Err? ==> exists i :: 0 <= i < |items| && FromScopeRequestString(items[i]) == Err(r.error)
                        && forall j :: 0 <= j < i ==> FromScopeRequestString(items[j]).Ok?
  {
    if items == [] then Ok([])
    else
      match FromScopeRequestString(items[0])
      case Err(e) => Err(e)
      case Ok(first) =>
        var rest := ParseScopeStrings(items[1..]);
        match rest
        case Err(e) =>
          assert exists i :: (1 <= i < |items| && FromScopeRequestString(items[i]) == Err(e)
                              && forall j :: 0 <= j < i ==> FromScopeRequestString(items[j]).Ok?) by {
            var i :| 0 <= i < |items[1..]| && FromScopeRequestString(items[1..][i]) == Err(e)
              && forall j :: 0 <= j < i ==> FromScopeRequestString(items[1..][j]).Ok?;
            assert items[i + 1] == items[1..][i];
            forall j | 0 <= j < i + 1 ensures FromScopeRequestString(items[j]).Ok? {
              if j > 0 { assert items[j] == items[1..][j - 1]; }
            }
          }
          Err(e)
        case Ok(tail) =>
          assert forall i :: 1 <= i < |items| ==> FromScopeRequestString(items[i]) == Ok(([first] + tail)[i]) by {
            forall i | 1 <= i < |items| ensures FromScopeRequestString(items[i]) == Ok(([first] + tail)[i]) {
              assert items[i] == items[1..][i - 1] && ([first] + tail)[i] == tail[i - 1];
            }
          }
          Ok([first] + tail)
  }

  /** `getApprovedScopes`: null when no list is stored; otherwise the parsed list as a set. */
  function ApprovedScopes(kv: Store, clientId: string): Result<Option<seq<ScopeRequest>>, Exception>
  {
    match GetStringList(kv, ApprovedScopesKey(clientId))
    case None => Ok(None)
    case Some(items) =>
      match ParseScopeStrings(items)
      case Err(e) => Err(e)
      case Ok(requests) => Ok(Some(Dedup(requests)))
  }

  /**
   * What `client(clientId, completion)` leads to: the completion is called
   * with a client or null and an exception or null, or the lookup throws
   * before the completion is reached.
   */
  datatype ClientAnswer =
    | Answered(client: Option<Client>, exception: Option<Exception>)
    | LookupThrew(thrown: Exception)

  /**
   * The sample manager's `client`: a found client reaches the completion with
   * no exception; when none matches, `first` throws, so the completion's
   * null-client branch is never taken.
   */
  function SampleClientAnswer(clients: seq<Client>, clientId: string): (r: ClientAnswer)
    ensures r.Answered? ==> r.exception.None? && r.client.Some? && r.client.value.clientId == clientId && r.client.value in clients
    ensures r.LookupThrew? <==> forall c :: c in clients ==> c.clientId != clientId
  {
    match FindClient(clients, clientId)
    case Ok(c) => Answered(Some(c), None)
    case Err(e) => LookupThrew(e)
  }

  // ---------------------------------------------------------------------------

  class SampleClientManager {
    const clientList: seq<Client>
    var kv: Store

    constructor (initial: Store)
      ensures clientList == SampleClientList && kv == initial
    {
      clientList := SampleClientList;
      kv := initial;
    }

    /**
     * `client(clientId, completion)`: Ok is the client handed to the completion;
     * Err is the exception `first` throws before the completion is reached.
     */
    function LookupClient(clientId: string): (r: Result<Client, Exception>)
    {
      FindClient(clientList, clientId)
    }

    method ClearClientHandshake(clientId: string)
      modifies this
      ensures kv == WithoutPrefix(old(kv), clientId)
    {
      kv := RemoveKeysWithPrefix(kv, clientId);
    }

    function GetClientHandshake(clientId: string): Result<Option<ClientHandshake>, Exception>
      reads this
    {
      RegisteredHandshake(kv, clientId)
    }

    method RegisterClientHandshake(clientId: string, h: ClientHandshake)
      modifies this
      ensures kv == WithHandshake(old(kv), clientId, h)
    {
      kv := kv[SlotKey(clientId, ClientPublicSigningKey) := KeysetValue(h.clientPublicSigningKey)];
      kv := kv[SlotKey(clientId, ClientPublicEncryptionKey) := KeysetValue(h.clientPublicEncryptionKey)];
      kv := kv[SlotKey(clientId, ServerPrivateSigningKey) := KeysetValue(h.serverPrivateSigningKey)];
      kv := kv[SlotKey(clientId, ServerPrivateEncryptionKey) := KeysetValue(h.serverPrivateEncryptionKey)];
    }

    /** `approved` is a Set, given in its iteration order. */
    method SetApprovedScopes(clientId: string, approved: seq<ScopeRequest>)
      modifies this
      ensures kv == old(kv)[ApprovedScopesKey(clientId) := StringList(ScopeStrings(approved))]
    {
      kv := kv[ApprovedScopesKey(clientId) := StringList(ScopeStrings(approved))];
    }

    function GetApprovedScopes(clientId: string): Result<Option<seq<ScopeRequest>>, Exception>
      reads this
    {
      ApprovedScopes(kv, clientId)
    }

    method ClearApprovedScopes(clientId: string)
      modifies this
      ensures kv == old(kv) - {ApprovedScopesKey(clientId)}
    {
      kv := kv - {ApprovedScopesKey(clientId)};
    }
  }

  // ---------------------------------------------------------------------------
  // Properties

  /** The sample server knows exactly one client, and `client` never reports ClientNotFound. */
  lemma SampleClientLookup(clientId: string)
    ensures FindClient(SampleClientList, clientId) ==
      if clientId == SAMPLE_CLIENT_ID then Ok(Client(SAMPLE_CLIENT_ID, SampleAllowedScopes)) else Err(NoSuchElement)
    ensures forall m :: FindClient(SampleClientList, clientId) != Err(ClientNotFound(m))
  {
  }

  /** The registry holds a handshake for a client exactly when all four slots hold keysets. */
  lemma RegisteredHandshakeExact(kv: Store, clientId: string, h: ClientHandshake)
    ensures RegisteredHandshake(kv, clientId) == Ok(Some(h)) <==>
      h.clientId == clientId && forall f :: LoadKeyset(kv, SlotKey(clientId, f)) == Ok(Some(HandshakeKey(h, f)))
  {
    if RegisteredHandshake(kv, clientId) == Ok(Some(h)) {
      forall f ensures LoadKeyset(kv, SlotKey(clientId, f)) == Ok(Some(HandshakeKey(h, f))) {
        match f
        case ClientPublicSigningKey =>
        case ClientPublicEncryptionKey =>
        case ServerPrivateSigningKey =>
        case ServerPrivateEncryptionKey =>
      }
    }
    if h.clientId == clientId && forall f :: LoadKeyset(kv, SlotKey(clientId, f)) == Ok(Some(HandshakeKey(h, f))) {
      assert LoadKeyset(kv, SlotKey(clientId, ClientPublicSigningKey)) == Ok(Some(h.clientPublicSigningKey));
      assert LoadKeyset(kv, SlotKey(clientId, ClientPublicEncryptionKey)) == Ok(Some(h.clientPublicEncryptionKey));
      assert LoadKeyset(kv, SlotKey(clientId, ServerPrivateSigningKey)) == Ok(Some(h.serverPrivateSigningKey));
      assert LoadKeyset(kv, SlotKey(clientId, ServerPrivateEncryptionKey)) == Ok(Some(h.serverPrivateEncryptionKey));
    }
  }

  /** A slot with no byte array means no handshake is returned. */
  lemma MissingSlotMeansNoHandshake(kv: Store, clientId: string, f: KeyField)
    requires GetBytes(kv, SlotKey(clientId, f)) == None
    ensures !(RegisteredHandshake(kv, clientId).Ok? && RegisteredHandshake(kv, clientId).value.Some?)
  {
    match f
    case ClientPublicSigningKey =>
    case ClientPublicEncryptionKey =>
    case ServerPrivateSigningKey =>
    case ServerPrivateEncryptionKey =>
  }

  /** Registering and then reading gives back the four keys, under the registering id. */
  lemma RegisterThenGet(kv: Store, clientId: string, h: ClientHandshake)
    ensures RegisteredHandshake(WithHandshake(kv, clientId, h), clientId) == Ok(Some(h.(clientId := clientId)))
  {
    var kv' := WithHandshake(kv, clientId, h);
    forall f
      ensures LoadKeyset(kv', SlotKey(clientId, f)) == Ok(Some(HandshakeKey(h.(clientId := clientId), f)))
    {
      forall g | g != f ensures SlotKey(clientId, g) != SlotKey(clientId, f) {
        if SlotKey(clientId, g) == SlotKey(clientId, f) {
          SlotKeyInjective(clientId, g, clientId, f);
        }
      }
      assert kv'[SlotKey(clientId, f)] == KeysetValue(HandshakeKey(h, f));
    }
    RegisteredHandshakeExact(kv', clientId, h.(clientId := clientId));
  }

  /** Registering twice leaves exactly what the second registration alone leaves. */
  lemma ReregisterSupersedes(kv: Store, clientId: string, h1: ClientHandshake, h2: ClientHandshake)
    ensures WithHandshake(WithHandshake(kv, clientId, h1), clientId, h2) == WithHandshake(kv, clientId, h2)
  {
    var a, b := WithHandshake(WithHandshake(kv, clientId, h1), clientId, h2), WithHandshake(kv, clientId, h2);
    assert a.Keys == b.Keys;
    forall k | k in a ensures a[k] == b[k] {
    }
  }

  /** Registering one client leaves every other client's handshake unchanged. */
  lemma RegisterKeepsOtherHandshakes(kv: Store, clientId: string, h: ClientHandshake, other: string)
    requires other != clientId
    ensures RegisteredHandshake(WithHandshake(kv, clientId, h), other) == RegisteredHandshake(kv, other)
  {
    var kv' := WithHandshake(kv, clientId, h);
    forall f ensures LoadKeyset(kv', SlotKey(other, f)) == LoadKeyset(kv, SlotKey(other, f)) {
      forall g ensures SlotKey(clientId, g) != SlotKey(other, f) {
        if SlotKey(clientId, g) == SlotKey(other, f) {
          SlotKeyInjective(clientId, g, other, f);
        }
      }
    }
    assert RegisteredHandshake(kv', other) == RegisteredHandshake(kv, other);
  }

  /** Registering a handshake leaves every client's approved scopes unchanged. */
  lemma RegisterKeepsApprovedScopes(kv: Store, clientId: string, h: ClientHandshake, c: string)
    ensures ApprovedScopes(WithHandshake(kv, clientId, h), c) == ApprovedScopes(kv, c)
  {
    forall g ensures SlotKey(clientId, g) != ApprovedScopesKey(c) {
      ApprovedScopesKeyIsNotSlot(c, clientId, g);
    }
    assert GetStringList(WithHandshake(kv, clientId, h), ApprovedScopesKey(c)) == GetStringList(kv, ApprovedScopesKey(c));
  }

  /** Clearing a client's handshake also deletes its approved scopes (the prefix covers both). */
  lemma ClearHandshakeWipesApprovedScopes(kv: Store, clientId: string)
    ensures RegisteredHandshake(WithoutPrefix(kv, clientId), clientId) == Ok(None)
    ensures ApprovedScopes(WithoutPrefix(kv, clientId), clientId) == Ok(None)
  {
    WithoutPrefixHitsExtensions(kv, clientId, clientId, SlotKey(clientId, ClientPublicSigningKey));
    WithoutPrefixHitsExtensions(kv, clientId, clientId, ApprovedScopesKey(clientId));
  }

  /** `clearApprovedScopes` removes the approved scopes and leaves every handshake in place. */
  lemma ClearApprovedScopesKeepsHandshakes(kv: Store, clientId: string, other: string)
    ensures ApprovedScopes(kv - {ApprovedScopesKey(clientId)}, clientId) == Ok(None)
    ensures RegisteredHandshake(kv - {ApprovedScopesKey(clientId)}, other) == RegisteredHandshake(kv, other)
  {
    var kv' := kv - {ApprovedScopesKey(clientId)};
    forall f ensures LoadKeyset(kv', SlotKey(other, f)) == LoadKeyset(kv, SlotKey(other, f)) {
      ApprovedScopesKeyIsNotSlot(clientId, other, f);
    }
    assert RegisteredHandshake(kv', other) == RegisteredHandshake(kv, other);
  }

  /** Storing approved scopes leaves every handshake in place. */
  lemma SetApprovedScopesKeepsHandshakes(kv: Store, clientId: string, v: StoredValue, other: string)
    ensures RegisteredHandshake(kv[ApprovedScopesKey(clientId) := v], other) == RegisteredHandshake(kv, other)
  {
    var kv' := kv[ApprovedScopesKey(clientId) := v];
    forall f ensures LoadKeyset(kv', SlotKey(other, f)) == LoadKeyset(kv, SlotKey(other, f)) {
      ApprovedScopesKeyIsNotSlot(clientId, other, f);
    }
    assert RegisteredHandshake(kv', other) == RegisteredHandshake(kv, other);
  }

  predicate NoDottedIdentifier(approved: seq<ScopeRequest>)
  {
    forall i :: 0 <= i < |approved| ==> '.' !in approved[i].identifier
  }

  lemma {:induction false} ParseScopeStringsRoundTrip(approved: seq<ScopeRequest>)
    requires NoDottedIdentifier(approved)
    ensures ParseScopeStrings(ScopeStrings(approved)) == Ok(approved)
  {
    if approved != [] {
      ScopeRequestRoundTrip(approved[0]);
      ParseScopeStringsRoundTrip(approved[1..]);
      assert ScopeStrings(approved)[1..] == ScopeStrings(approved[1..]);
      assert [approved[0]] + approved[1..] == approved;
    }
  }

  /** `getApprovedScopes` after `setApprovedScopes(s)` gives s back when no identifier contains '.'. */
  lemma SetThenGetApprovedScopes(kv: Store, clientId: string, approved: seq<ScopeRequest>)
    requires Distinct(approved) && NoDottedIdentifier(approved)
    ensures ApprovedScopes(kv[ApprovedScopesKey(clientId) := StringList(ScopeStrings(approved))], clientId) == Ok(Some(approved))
  {
    ParseScopeStringsRoundTrip(approved);
    DedupDistinct(approved);
  }

  /** An approved scope whose identifier contains '.' makes every later `getApprovedScopes` throw. */
  lemma DottedApprovedScopeBreaksGet(kv: Store, clientId: string, approved: seq<ScopeRequest>, i: nat)
    requires i < |approved| && '.' in approved[i].identifier
    ensures ApprovedScopes(kv[ApprovedScopesKey(clientId) := StringList(ScopeStrings(approved))], clientId).Err?
  {
    var items := ScopeStrings(approved);
    DottedIdentifierRejected(approved[i]);
    assert FromScopeRequestString(items[i]).Err?;
    ParseFailsOnBadItem(items, i);
  }

  lemma ParseFailsOnBadItem(items: seq<string>, i: nat)
    requires i < |items| && FromScopeRequestString(items[i]).Err?
    ensures ParseScopeStrings(items).Err?
  {
  }
}
