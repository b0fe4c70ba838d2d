/** Key derivation and sealing for the browser session store
    (apps/web/src/lib/session-manager.ts:100-162), modelled symbolically:
    a derived key is represented by the inputs it was derived from, and a
    ciphertext made by this store remembers its key, nonce and plaintext.
    Decryption succeeds only under the same key and nonce, which is what
    authenticated encryption promises; the internals of PBKDF2 (section 5.2
    of RFC 8018) and of AES-GCM are not part of this model. */
module Sealing {
  import opened Outcomes
  import opened Hex
  import opened Session

  /** The AES-GCM key PBKDF2 with SHA-256 derives from a passphrase, a salt
      and an iteration count. */
  datatype CryptoKey = Pbkdf2Key(passphrase: string, salt: seq<Byte>, iterations: int)

  /** Stored ciphertext: either produced by `EncryptJson`, or bytes that no
      encryption under any key produced (corrupted or tampered data). */
  datatype Ciphertext =
    | Sealed(key: CryptoKey, iv: seq<Byte>, plaintext: SessionData)
    | Forged(bytes: seq<Byte>)

  /** `{ iv, ct }` as stored; the base64 text encoding is not modelled. */
  datatype EncryptedPayload = EncryptedPayload(iv: seq<Byte>, ct: Ciphertext)

  /** `encryptJson` draws a 12-byte nonce for every call. */
  const IvLength: nat := 12

  type Iv = b: seq<Byte> | |b| == IvLength
    witness [0, 0, 0, 0, 0, 0, 0, 0, 0, 0, 0, 0]

  /** `crypto.subtle.deriveKey` for PBKDF2-SHA-256 into AES-GCM-256: the key
      depends on the passphrase, the salt and the iteration count alone, and
      (symbolically) each of them can be read back from it. */
  function DeriveKey(passphrase: string, salt: seq<Byte>, iterations: int): (k: CryptoKey)
    ensures k.passphrase == passphrase && k.salt == salt && k.iterations == iterations
  {
    Pbkdf2Key(passphrase, salt, iterations)
  }

  /** Two derivations give the same key if and only if they had the same
      passphrase, salt and iteration count. */
  lemma DeriveKeyInjective(p1: string, s1: seq<Byte>, i1: int, p2: string, s2: seq<Byte>, i2: int)
    ensures DeriveKey(p1, s1, i1) == DeriveKey(p2, s2, i2) <==> p1 == p2 && s1 == s2 && i1 == i2
  {
  }

  /** `encryptJson(JSON.stringify(session), key)` with nonce `iv`. The JSON
      text round trip of a record of strings is taken to be exact. */
  function EncryptJson(session: SessionData, key: CryptoKey, iv: Iv): (p: EncryptedPayload)
    ensures p.iv == iv && p.ct.Sealed?
    ensures DecryptJson(p, key) == Ok(session)
    ensures forall k :: DecryptJson(p, k).Ok? <==> k == key
  {
    EncryptedPayload(iv, Sealed(key, iv, session))
  }

  /** `decryptJson(payload, key)` followed by `JSON.parse`: the plaintext
      when the payload was sealed under this key with this nonce, and the
      WebCrypto "OperationError" otherwise. */
  function DecryptJson(payload: EncryptedPayload, key: CryptoKey): (r: Result<SessionData>)
    ensures r.Ok? <==> payload.ct.Sealed? && payload.ct.key == key && payload.ct.iv == payload.iv
  {
    match payload.ct
    case Sealed(k, iv, session) =>
      if k == key && iv == payload.iv then Ok(session) else Err("OperationError")
    case Forged(_) => Err("OperationError")
  }

  /** Decrypting under the sealing key gives back what was sealed, and
      decrypting under any other key fails. */
  lemma DecryptEncrypt(session: SessionData, key: CryptoKey, other: CryptoKey, iv: Iv)
    ensures DecryptJson(EncryptJson(session, key, iv), key) == Ok(session)
    ensures other != key ==> DecryptJson(EncryptJson(session, key, iv), other).Err?
  {
  }
}
