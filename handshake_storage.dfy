/**
 * The server's pending-handshake storage (SampleHandshakeServiceStorage): a
 * key-value store where a session's fields live under "clientId.state.field"
 * and the current state of a client under "clientId.state".
 */
module HandshakeStorage {
  import opened Wrappers
  import opened Errors
  import opened Crypto
  import opened Bundles
  import opened Decimal
  import opened KeyValue

  const M2_DATA := "m2Data"

  /** "$clientId.$state.field" */
  function PendingKey(clientId: string, state: int64, field: string): string
  {
    clientId + "." + IntToString(state) + "." + field
  }

  /** "$clientId.state" */
  function StateKey(clientId: string): string
  {
    clientId + ".state"
  }

  function PendingKeyset(kv: Store, f: KeyField, clientId: string, state: int64): Result<Option<Keyset>, Exception>
  {
    LoadKeyset(kv, PendingKey(clientId, state, KeyFieldName(f)))
  }

  function PendingM2Data(kv: Store, clientId: string, state: int64): Option<Blob>
  {
    GetBytes(kv, PendingKey(clientId, state, M2_DATA))
  }

  function PendingState(kv: Store, clientId: string): Option<int64>
  {
    GetLongValue(kv, StateKey(clientId))
  }

  class SampleHandshakeServiceStorage {
    var kv: Store

    /** Opens the store with whatever the backing file holds. */
    constructor (initial: Store)
      ensures kv == initial
    {
      kv := initial;
    }

    /** `getClientPublicSigningKey` … `getServerPrivateEncryptionKey` */
    function GetKeyset(f: KeyField, clientId: string, state: int64): Result<Option<Keyset>, Exception>
      reads this
    {
      PendingKeyset(kv, f, clientId, state)
    }

    /** `storeClientPublicSigningKey` … `storeServerPrivateEncryptionKey` */
    method StoreKeyset(keyset: Keyset, f: KeyField, clientId: string, state: int64)
      modifies this
      ensures kv == old(kv)[PendingKey(clientId, state, KeyFieldName(f)) := KeysetValue(keyset)]
    {
      kv := kv[PendingKey(clientId, state, KeyFieldName(f)) := KeysetValue(keyset)];
    }

    function GetM2Data(clientId: string, state: int64): Option<Blob>
      reads this
    {
      PendingM2Data(kv, clientId, state)
    }

    method StoreM2Data(m2Data: Blob, clientId: string, state: int64)
      modifies this
      ensures kv == old(kv)[PendingKey(clientId, state, M2_DATA) := ByteArray(m2Data)]
    {
      kv := kv[PendingKey(clientId, state, M2_DATA) := ByteArray(m2Data)];
    }

    function GetState(clientId: string): Option<int64>
      reads this
    {
      PendingState(kv, clientId)
    }

    method StoreState(clientId: string, state: int64)
      modifies this
      ensures kv == old(kv)[StateKey(clientId) := LongValue(state)]
    {
      kv := kv[StateKey(clientId) := LongValue(state)];
    }

    method Clear(clientId: string)
      modifies this
      ensures kv == WithoutPrefix(old(kv), clientId)
    {
      kv := RemoveKeysWithPrefix(kv, clientId);
    }
  }

  // ---------------------------------------------------------------------------

  /**
   * Pending keys never collide: the client id, the state and the field name
   * can all be recovered from the key (field names contain no '.').
   */
  lemma PendingKeyInjective(c: string, s: int64, f: string, c': string, s': int64, f': string)
    requires '.' !in f && '.' !in f'
    requires PendingKey(c, s, f) == PendingKey(c', s', f')
    ensures c == c' && s == s' && f == f'
  {
    IntToStringHasNoDot(s);
    IntToStringHasNoDot(s');
    DotJoinInjective(c + "." + IntToString(s), f, c' + "." + IntToString(s'), f');
    DotJoinInjective(c, IntToString(s), c', IntToString(s'));
    IntToStringInjective(s, s');
  }

  /** The state slot of a client is never one of the pending fields. */
  lemma StateKeyIsNotPendingKey(c: string, c': string, s: int64, f: string)
    requires '.' !in f && f != "state"
    ensures StateKey(c) != PendingKey(c', s, f)
  {
    if StateKey(c) == PendingKey(c', s, f) {
      DotJoinInjective(c, "state", c' + "." + IntToString(s), f);
      assert false;
    }
  }

  /** Writing a pending field of one (client, state) leaves the same field of any other (client, state) unchanged. */
  lemma StoreKeysetFrame(kv: Store, f: KeyField, c: string, s: int64, k: Keyset, f': KeyField, c': string, s': int64)
    requires (f, c, s) != (f', c', s')
    ensures PendingKeyset(kv[PendingKey(c, s, KeyFieldName(f)) := KeysetValue(k)], f', c', s') == PendingKeyset(kv, f', c', s')
    ensures PendingM2Data(kv[PendingKey(c, s, KeyFieldName(f)) := KeysetValue(k)], c', s') == PendingM2Data(kv, c', s')
    ensures PendingState(kv[PendingKey(c, s, KeyFieldName(f)) := KeysetValue(k)], c') == PendingState(kv, c')
  {
    if PendingKey(c, s, KeyFieldName(f)) == PendingKey(c', s', KeyFieldName(f')) {
      PendingKeyInjective(c, s, KeyFieldName(f), c', s', KeyFieldName(f'));
    }
    if PendingKey(c, s, KeyFieldName(f)) == PendingKey(c', s', M2_DATA) {
      PendingKeyInjective(c, s, KeyFieldName(f), c', s', M2_DATA);
      assert false;
    }
    StateKeyIsNotPendingKey(c', c, s, KeyFieldName(f));
  }

  /** A session stored under one state is invisible under any other state of the same client. */
  lemma OtherStateInvisible(kv: Store, c: string, s: int64, s': int64, field: string, v: StoredValue, f': KeyField)
    requires s != s' && '.' !in field
    ensures PendingKeyset(kv[PendingKey(c, s, field) := v], f', c, s') == PendingKeyset(kv, f', c, s')
    ensures PendingM2Data(kv[PendingKey(c, s, field) := v], c, s') == PendingM2Data(kv, c, s')
  {
    if PendingKey(c, s, field) == PendingKey(c, s', KeyFieldName(f')) {
      PendingKeyInjective(c, s, field, c, s', KeyFieldName(f'));
    }
    if PendingKey(c, s, field) == PendingKey(c, s', M2_DATA) {
      PendingKeyInjective(c, s, field, c, s', M2_DATA);
    }
  }

  /** After `clear(c)` nothing of client c, or of any client whose id extends c, can be read. */
  lemma ClearForgetsClient(kv: Store, c: string, c': string, s: int64, f: KeyField)
    requires c <= c'
    ensures PendingState(WithoutPrefix(kv, c), c') == None
    ensures PendingKeyset(WithoutPrefix(kv, c), f, c', s) == Ok(None)
    ensures PendingM2Data(WithoutPrefix(kv, c), c', s) == None
  {
    WithoutPrefixHitsExtensions(kv, c, c', StateKey(c'));
    WithoutPrefixHitsExtensions(kv, c, c', PendingKey(c', s, KeyFieldName(f)));
    WithoutPrefixHitsExtensions(kv, c, c', PendingKey(c', s, M2_DATA));
  }
}
