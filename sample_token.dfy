/**
 * The sample server's token manager (SampleTokenManager): issuer "SampleApp"
 * and a 64-byte HMAC secret kept in a key-value store under "secret", read
 * back when present and generated and stored otherwise.
 */
module SampleTokens {
  import opened Wrappers
  import opened Crypto
  import opened KeyValue
  import opened Tokens

  const ISSUER := "SampleApp"
  const SECRET_KEY := "secret"
  const SECRET_LENGTH := 64

  /** `init`'s get-or-create: the store and the secret afterwards, given the bytes `Random.randBytes(64)` would draw. */
  function InitSecret(kv: Store, random: seq<bv8>): (Store, Blob)
  {
    match GetBytes(kv, SECRET_KEY)
    case Some(stored) => (kv, stored)
    case None => (kv[SECRET_KEY := ByteArray(Raw(random))], Raw(random))
  }

  class SampleTokenManager {
    var kv: Store
    var secret: Blob
    const lib: JwtLibrary

    constructor (initial: Store, random: seq<bv8>, lib: JwtLibrary)
      requires |random| == SECRET_LENGTH
      ensures (kv, secret) == InitSecret(initial, random) && this.lib == lib
    {
      this.lib := lib;
      var stored := GetBytes(initial, SECRET_KEY);
      if stored.Some? {
        kv, secret := initial, stored.value;
      } else {
        kv := initial[SECRET_KEY := ByteArray(Raw(random))];
        secret := Raw(random);
      }
    }

    /** The BaseTokenManager this object is: its secret, the fixed issuer and the library. */
    function Manager(): (tm: TokenManager)
      reads this
      ensures tm.issuer == ISSUER && tm.secret == secret
    {
      TokenManager(secret, ISSUER, lib)
    }
  }

  // ---------------------------------------------------------------------------
  // Properties

  /**
   * A secret already in the store is used unchanged and the store is left as
   * it is; otherwise the drawn bytes become the secret and are stored under
   * "secret", with no other entry touched.
   */
  lemma InitSecretCases(kv: Store, random: seq<bv8>)
    ensures var (kv', secret) := InitSecret(kv, random);
      (GetBytes(kv, SECRET_KEY).Some? ==> kv' == kv && secret == GetBytes(kv, SECRET_KEY).value)
      && (GetBytes(kv, SECRET_KEY).None? ==> secret == Raw(random) && kv' == kv[SECRET_KEY := ByteArray(Raw(random))])
      && GetBytes(kv', SECRET_KEY) == Some(secret)
  {
  }

  /** Initialising again over the store the first initialisation left gives the same secret, whatever is drawn. */
  lemma InitSecretIdempotent(kv: Store, random: seq<bv8>, random': seq<bv8>)
    ensures var (kv', secret) := InitSecret(kv, random);
      InitSecret(kv', random') == (kv', secret)
  {
  }
}
