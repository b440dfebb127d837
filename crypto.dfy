/**
 * A symbolic model of the Tink primitives the protocol uses: ECDSA signing and
 * hybrid (ECIES) encryption with a context-info binding. Every byte array of
 * the system is a `Blob`; a ciphertext or a signature is a term that records
 * how it was made, so decryption and verification succeed exactly when the
 * right key (and, for decryption, the same context info) is used.
 * Key generation and randomness are inputs: a fresh key is a fresh `id`.
 * A primitive obtained from a keyset of the wrong kind throws
 * GeneralSecurityException, as Tink's factories do.
 */
module Crypto {
  import opened Wrappers
  import opened Errors

  datatype KeyKind = SigningPrivate | SigningPublic | EncryptionPrivate | EncryptionPublic

  /** A Tink `KeysetHandle`. */
  datatype Keyset = Keyset(kind: KeyKind, id: nat)

  datatype Blob =
    | Raw(bytes: seq<bv8>)                                  // random bytes (Random.randBytes)
    | Text(text: string)                                    // String.toByteArray()
    | KeysetJson(keyset: Keyset)                            // a keyset written as cleartext JSON
    | Cipher(recipient: Keyset, plaintext: Blob, contextInfo: Blob)
    | Signature(signer: Keyset, message: Blob)

  /** `KeysetHandle.generateNew(ECDSA_P256)` with fresh key material `id`. */
  function NewSigningKeyset(id: nat): Keyset { Keyset(SigningPrivate, id) }

  /** `KeysetHandle.generateNew(ECIES_P256_HKDF_HMAC_SHA256_AES128_GCM)` with fresh key material `id`. */
  function NewEncryptionKeyset(id: nat): Keyset { Keyset(EncryptionPrivate, id) }

  /** `publicKeysetHandle`: the public half of a private keyset. */
  function PublicHalf(k: Keyset): Keyset
  {
    match k.kind
    case SigningPrivate => Keyset(SigningPublic, k.id)
    case EncryptionPrivate => Keyset(EncryptionPublic, k.id)
    case _ => k
  }

  /** `CleartextKeysetHandle.write(k, JsonKeysetWriter...)` */
  function WriteKeyset(k: Keyset): Blob { KeysetJson(k) }

  /** `CleartextKeysetHandle.read(JsonKeysetReader.withBytes(b))`; bytes that are not a keyset make it throw. */
  function ReadKeyset(b: Blob): Result<Keyset, Exception>
  {
    if b.KeysetJson? then Ok(b.keyset) else Err(IOFailure)
  }

  /** `PublicKeySignFactory.getPrimitive(priv).sign(m)` */
  function Sign(priv: Keyset, m: Blob): Result<Blob, Exception>
  {
    if priv.kind == SigningPrivate then Ok(Signature(priv, m)) else Err(GeneralSecurity)
  }

  /** `PublicKeyVerifyFactory.getPrimitive(pub).verify(sig, m)`: returns normally or throws. */
  function Verify(pub: Keyset, sig: Blob, m: Blob): Result<(), Exception>
  {
    if pub.kind == SigningPublic && sig == Signature(Keyset(SigningPrivate, pub.id), m)
    then Ok(())
    else Err(GeneralSecurity)
  }

  /** `HybridEncryptFactory.getPrimitive(pub).encrypt(m, ctx)` */
  function Encrypt(pub: Keyset, m: Blob, ctx: Blob): Result<Blob, Exception>
  {
    if pub.kind == EncryptionPublic then Ok(Cipher(pub, m, ctx)) else Err(GeneralSecurity)
  }

  /** `HybridDecryptFactory.getPrimitive(priv).decrypt(c, ctx)` */
  function Decrypt(priv: Keyset, c: Blob, ctx: Blob): Result<Blob, Exception>
  {
    if priv.kind == EncryptionPrivate && c.Cipher? && c.recipient == PublicHalf(priv)
       && c.contextInfo == ctx
    then Ok(c.plaintext)
    else Err(GeneralSecurity)
  }

  /** Decryption undoes encryption under a matching key pair and the same context. */
  lemma DecryptEncrypt(priv: Keyset, m: Blob, ctx: Blob)
    requires priv.kind == EncryptionPrivate
    ensures Encrypt(PublicHalf(priv), m, ctx).Ok?
    ensures Decrypt(priv, Encrypt(PublicHalf(priv), m, ctx).value, ctx) == Ok(m)
  {
  }

  /** Context binding: a ciphertext made under one context does not decrypt under another. */
  lemma ContextBinding(priv: Keyset, m: Blob, ctx: Blob, ctx': Blob)
    requires priv.kind == EncryptionPrivate && ctx != ctx'
    ensures Decrypt(priv, Encrypt(PublicHalf(priv), m, ctx).value, ctx').Err?
  {
  }

  /** A signature made with a private signing key verifies under its public half, and no other blob does. */
  lemma SignVerify(priv: Keyset, m: Blob, sig: Blob)
    requires priv.kind == SigningPrivate
    ensures Sign(priv, m).Ok?
    ensures Verify(PublicHalf(priv), sig, m).Ok? <==> sig == Sign(priv, m).value
  {
  }

  /** Writing a keyset and reading it back gives the same keyset. */
  lemma ReadWriteKeyset(k: Keyset)
    ensures ReadKeyset(WriteKeyset(k)) == Ok(k)
  {
  }
}
