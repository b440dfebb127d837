/**
 * The client app's storage (SampleClientStorage): four keyset slots under
 * fixed key names, the access and refresh tokens, and a `clear` that empties
 * the whole store.
 */
module ClientStorage {
  import opened Wrappers
  import opened Errors
  import opened Crypto
  import opened KeyValue

  /** The four keysets a client keeps after a handshake. */
  datatype ClientKeyField = ClientPrivateSigningKey | ClientPrivateEncryptionKey | ServerPublicSigningKey | ServerPublicEncryptionKey

  datatype TokenSlot = AccessToken | RefreshToken

  function ClientKeyName(f: ClientKeyField): string
  {
    match f
    case ClientPrivateSigningKey => "clientPrivateSigningKey"
    case ClientPrivateEncryptionKey => "clientPrivateEncryptionKey"
    case ServerPublicSigningKey => "serverPublicSigningKey"
    case ServerPublicEncryptionKey => "serverPublicEncryptionKey"
  }

  function TokenName(t: TokenSlot): string
  {
    match t
    case AccessToken => "accessToken"
    case RefreshToken => "refreshToken"
  }

  /** `loadKeyset(name)` for one of the four slots. */
  function StoredKeyset(kv: Store, f: ClientKeyField): Result<Option<Keyset>, Exception>
  {
    LoadKeyset(kv, ClientKeyName(f))
  }

  /** `get(name) as? String` */
  function StoredToken(kv: Store, t: TokenSlot): Option<string>
  {
    var key := TokenName(t);
    if key in kv && kv[key].StringValue? then Some(kv[key].s) else None
  }

  /**
   * `set(name, value)` for a token. Setting null is modelled as removing the
   * entry; either way a later read gives null.
   */
  function WithToken(kv: Store, t: TokenSlot, value: Option<string>): Store
  {
    match value
    case Some(s) => kv[TokenName(t) := StringValue(s)]
    case None => kv - {TokenName(t)}
  }

  class SampleClientStorage {
    var kv: Store

    constructor (initial: Store)
      ensures kv == initial
    {
      kv := initial;
    }

    function GetKeyset(f: ClientKeyField): Result<Option<Keyset>, Exception>
      reads this
    {
      StoredKeyset(kv, f)
    }

    method StoreKeyset(f: ClientKeyField, keyset: Keyset)
      modifies this
      ensures kv == old(kv)[ClientKeyName(f) := KeysetValue(keyset)]
    {
      kv := kv[ClientKeyName(f) := KeysetValue(keyset)];
    }

    function GetToken(t: TokenSlot): Option<string>
      reads this
    {
      StoredToken(kv, t)
    }

    method SetToken(t: TokenSlot, value: Option<string>)
      modifies this
      ensures kv == WithToken(old(kv), t, value)
    {
      if value.Some? {
        kv := kv[TokenName(t) := StringValue(value.value)];
      } else {
        kv := kv - {TokenName(t)};
      }
    }

    /** `keyValueStore.clear()`: every entry goes, not only the six slots. */
    method Clear()
      modifies this
      ensures kv == map[]
    {
      kv := map[];
    }
  }

  // ---------------------------------------------------------------------------
  // Properties

  /** The six slots live under six different keys. */
  lemma SlotNamesDistinct(f: ClientKeyField, g: ClientKeyField, t: TokenSlot, u: TokenSlot)
    ensures ClientKeyName(f) == ClientKeyName(g) <==> f == g
    ensures TokenName(t) == TokenName(u) <==> t == u
    ensures ClientKeyName(f) != TokenName(t)
  {
  }

  /** A keyset getter returns what its setter stored last; the other five slots read as before. */
  lemma StoreThenGetKeyset(kv: Store, f: ClientKeyField, k: Keyset, g: ClientKeyField, t: TokenSlot)
    ensures StoredKeyset(kv[ClientKeyName(f) := KeysetValue(k)], f) == Ok(Some(k))
    ensures g != f ==> StoredKeyset(kv[ClientKeyName(f) := KeysetValue(k)], g) == StoredKeyset(kv, g)
    ensures StoredToken(kv[ClientKeyName(f) := KeysetValue(k)], t) == StoredToken(kv, t)
  {
    SlotNamesDistinct(f, g, t, t);
  }

  /** A token reads back as the value set last, null included; the other five slots read as before. */
  lemma SetThenGetToken(kv: Store, t: TokenSlot, value: Option<string>, u: TokenSlot, g: ClientKeyField)
    ensures StoredToken(WithToken(kv, t, value), t) == value
    ensures u != t ==> StoredToken(WithToken(kv, t, value), u) == StoredToken(kv, u)
    ensures StoredKeyset(WithToken(kv, t, value), g) == StoredKeyset(kv, g)
  {
    SlotNamesDistinct(g, g, t, u);
  }

  /** A slot with nothing stored, or with something that is not a byte array, reads as null. */
  lemma AbsentKeysetIsNull(kv: Store, f: ClientKeyField)
    requires ClientKeyName(f) !in kv || !kv[ClientKeyName(f)].ByteArray?
    ensures StoredKeyset(kv, f) == Ok(None)
  {
  }

  /** After `clear` every keyset slot and both tokens read as null. */
  lemma ClearedStoreIsEmpty(f: ClientKeyField, t: TokenSlot)
    ensures StoredKeyset(map[], f) == Ok(None)
    ensures StoredToken(map[], t) == None
  {
  }
}
