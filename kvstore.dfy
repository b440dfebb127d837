/**
 * The persistent key-value store behind the sample storages (an encrypted
 * file of string keys to Java objects), the prefix `clear` they all use, and
 * the facts about "a.b"-shaped composite keys the storages rely on.
 */
module KeyValue {
  import opened Wrappers
  import opened Errors
  import opened Crypto
  import opened Bundles

  /** The objects the sample storages put in the store. */
  datatype StoredValue =
    | ByteArray(blob: Blob)             // ByteArray (m2 data, keysets written as JSON bytes)
    | LongValue(n: int64)               // Long (the pending state)
    | StringList(items: seq<string>)    // List<String> (approved scopes)
    | StringValue(s: string)            // String (the client's tokens)

  type Store = map<string, StoredValue>

  /** The four keyset slots, shared by the pending and the registered handshake. */
  datatype KeyField = ClientPublicSigningKey | ClientPublicEncryptionKey | ServerPrivateSigningKey | ServerPrivateEncryptionKey

  function KeyFieldName(f: KeyField): (name: string)
    ensures '.' !in name
  {
    match f
    case ClientPublicSigningKey => "clientPublicSigningKey"
    case ClientPublicEncryptionKey => "clientPublicEncryptionKey"
    case ServerPrivateSigningKey => "serverPrivateSigningKey"
    case ServerPrivateEncryptionKey => "serverPrivateEncryptionKey"
  }

  /** `get(key) as? ByteArray` */
  function GetBytes(kv: Store, key: string): Option<Blob>
  {
    if key in kv && kv[key].ByteArray? then Some(kv[key].blob) else None
  }

  /** `get(key) as? Long` */
  function GetLongValue(kv: Store, key: string): Option<int64>
  {
    if key in kv && kv[key].LongValue? then Some(kv[key].n) else None
  }

  /** `get(key) as? List<String>` */
  function GetStringList(kv: Store, key: string): Option<seq<string>>
  {
    if key in kv && kv[key].StringList? then Some(kv[key].items) else None
  }

  /**
   * `loadKeyset`: no byte array under the key gives null; a byte array that is
   * not a keyset makes the keyset reader throw.
   */
  function LoadKeyset(kv: Store, key: string): Result<Option<Keyset>, Exception>
  {
    match GetBytes(kv, key)
    case None => Ok(None)
    case Some(b) =>
      match ReadKeyset(b)
      case Ok(k) => Ok(Some(k))
      case Err(e) => Err(e)
  }

  /** `storeKeyset`: the keyset's JSON bytes under the key (the KMS wrapping is not modelled). */
  function KeysetValue(k: Keyset): StoredValue
  {
    ByteArray(WriteKeyset(k))
  }

  lemma LoadStoredKeyset(kv: Store, key: string, k: Keyset)
    ensures LoadKeyset(kv[key := KeysetValue(k)], key) == Ok(Some(k))
  {
  }

  // ---------------------------------------------------------------------------
  // clear(clientId): remove every key that starts with the raw clientId string

  /** The store with every key that has `prefix` as a string prefix removed. */
  function WithoutPrefix(kv: Store, prefix: string): Store
  {
    map k | k in kv && !(prefix <= k) :: kv[k]
  }

  /**
   * `keys.filter { it.startsWith(prefix) }.forEach { remove(it) }`: collect the
   * matching keys, then remove them one at a time.
   */
  method RemoveKeysWithPrefix(kv: Store, prefix: string) returns (r: Store)
    ensures r == WithoutPrefix(kv, prefix)
  {
    var keys := set k | k in kv && prefix <= k;
    r := kv;
    while keys != {}
      invariant forall k :: k in keys ==> k in kv && prefix <= k
      invariant forall k :: k in r <==> k in kv && (!(prefix <= k) || k in keys)
      invariant forall k :: k in r ==> r[k] == kv[k]
      decreases |keys|
    {
      var k :| k in keys;
      r := r - {k};
      keys := keys - {k};
    }
    assert forall k :: k in r <==> k in WithoutPrefix(kv, prefix);
  }

  /** Exactly the keys starting with the prefix go; every other entry stays as it was. */
  lemma WithoutPrefixExact(kv: Store, prefix: string, k: string)
    ensures k in WithoutPrefix(kv, prefix) <==> k in kv && !(prefix <= k)
    ensures k in WithoutPrefix(kv, prefix) ==> WithoutPrefix(kv, prefix)[k] == kv[k]
  {
  }

  lemma WithoutPrefixIdempotent(kv: Store, prefix: string)
    ensures WithoutPrefix(WithoutPrefix(kv, prefix), prefix) == WithoutPrefix(kv, prefix)
  {
  }

  /** A write under a key the clear will remove makes no difference after the clear. */
  lemma WithoutPrefixAbsorbsWrite(kv: Store, prefix: string, k: string, v: StoredValue)
    requires prefix <= k
    ensures WithoutPrefix(kv[k := v], prefix) == WithoutPrefix(kv, prefix)
  {
  }

  /** Clearing a prefix also clears every longer prefix: an id that extends another is hit by its clear. */
  lemma WithoutPrefixHitsExtensions(kv: Store, prefix: string, longer: string, k: string)
    requires prefix <= longer && longer <= k
    ensures k !in WithoutPrefix(kv, prefix)
  {
  }

  // ---------------------------------------------------------------------------
  // Composite keys "a.b" whose last part has no '.'

  /** If two '.'-joins are the same string, the shorter head's dot falls inside the longer tail. */
  lemma DotInsideLongerTail(a: string, b: string, a': string, b': string)
    requires a + "." + b == a' + "." + b' && |a'| < |a|
    ensures b'[|a| - |a'| - 1] == '.'
  {
    var s := a + "." + b;
    assert s[|a|] == '.';
    assert s[|a|] == (a' + "." + b')[|a|];
  }

  /** Joining with '.' is injective when the last part has no '.'. */
  lemma DotJoinInjective(a: string, b: string, a': string, b': string)
    requires '.' !in b && '.' !in b'
    requires a + "." + b == a' + "." + b'
    ensures a == a' && b == b'
  {
    var s := a + "." + b;
    if |b| < |b'| {
      DotInsideLongerTail(a, b, a', b');
      assert false;
    } else if |b'| < |b| {
      DotInsideLongerTail(a', b', a, b);
      assert false;
    }
    assert b == s[|s| - |b|..] == b';
    assert a == s[..|a|] == a';
  }
}
