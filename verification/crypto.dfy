/**
 Signing and encryption over symbolic terms: a signature verifies only for the
 key and the serialised message it holds, a ciphertext opens only with its key.
 */
module Crypto {
  import opened Wrappers
  import opened OrderedMap
  import opened Json

  datatype PemKeys = PemKeys(publicKey: Pem, privateKey: Pem)

  datatype Failure =
    | IdentityError
    | ResolvePublicKeyError
    | SignatureMismatch
    | SignatureVerification
    | UnsupportedEncryption
    | DecryptionFailed
    | DelegationInvalid
    | DelegationSignature
    | AttestationVerification
    | BadKey
    | Exception

  datatype Verdict = Valid | Invalid(reason: Failure)

  /** What a DNS lookup of a public key can do: `resolvePublicKey` finds one, finds none, or throws. */
  datatype Lookup = Found(pem: Pem) | NoRecord | LookupThrows

  type Resolver = (Json, Json) -> Lookup

  const HASH := "sha256"
  const CIPHER := "aes-256-gcm"

  // ------------------------------------------------------------------ signing

  /** `getFingerprintFromPem`, which throws for anything but a public key. */
  function FingerprintOf(pem: Pem, hash: string): Option<Json> {
    if pem.PublicPem? then Some(FingerprintText(hash, pem.key)) else None
  }

  /** `signBtpPayload` of an object. */
  function Sign(message: OMap<Name, Json>, keys: PemKeys): Result<Json, Failure> {
    if !keys.privateKey.PrivatePem? || !keys.publicKey.PublicPem? then Err(BadKey)
    else Ok(Obj([
      Entry(AlgorithmHash, Str(HASH)),
      Entry(Value, SignatureText(HASH, keys.privateKey.key, Serialize(Obj(message)))),
      Entry(Fingerprint, FingerprintText(HASH, keys.publicKey.key))]))
  }

  /** `verifySignature`: the fingerprint must be the key's, then the signature must be the message's. */
  function VerifySignature(message: OMap<Name, Json>, signature: Json, publicKey: Pem): Verdict {
    var hash := Member(signature, AlgorithmHash);
    if !signature.Obj? || !hash.Str? then Invalid(Exception)
    else if !publicKey.PublicPem? && Member(signature, Fingerprint).Undefined? then Invalid(Exception)
    else if FingerprintOf(publicKey, hash.s) != Some(Member(signature, Fingerprint)) then Invalid(SignatureMismatch)
    else if Member(signature, Value) != SignatureText(hash.s, publicKey.key, Serialize(Obj(message)))
    then Invalid(SignatureVerification)
    else Valid
  }

  // --------------------------------------------------------------- encryption

  datatype Encrypted = Encrypted(data: Json, encryption: Json)

  /** The text that gets encrypted: a string raw, anything else as `JSON.stringify` writes it, `''` for undefined. */
  function PlainOf(document: Json): Json {
    if document.Undefined? then Str("") else if IsText(document) then document else Serialize(document)
  }

  /** `encryptBtpPayload` with the fresh AES key and IV given; the base64 of an empty ciphertext is empty. */
  function Encrypt(document: Json, receiver: Pem, mode: string, aes: nat, iv: nat): Result<Encrypted, Failure> {
    if !receiver.PublicPem? then Err(BadKey)
    else
      var plain := PlainOf(document);
      Ok(Encrypted(if plain == Str("") then Str("") else CipherText(aes, iv, plain), Obj([
        Entry(Algorithm, Str(CIPHER)),
        Entry(EncryptedKey, WrappedKey(receiver.key, aes)),
        Entry(Iv, IvText(iv)),
        Entry(AuthTag, AuthTagText(aes, iv, plain)),
        Entry(Type, Str(mode))])))
  }

  /** What the decrypted text parses to: a serialised value to itself, raw text to what `parse`, for `JSON.parse`, says. */
  function ReadBack(plain: Json, parse: Json -> Option<Json>): Result<Json, Failure> {
    if !IsText(plain) then Ok(plain)
    else if parse(plain).Some? then Ok(parse(plain).value)
    else Err(DecryptionFailed)
  }

  /** `decryptBtpPayload` */
  function Decrypt(data: Json, encryption: Json, privateKey: Pem, parse: Json -> Option<Json>): Result<Json, Failure> {
    var wrapped, iv := Member(encryption, EncryptedKey), Member(encryption, Iv);
    if Member(encryption, Algorithm) != Str(CIPHER) then Err(UnsupportedEncryption)
    else if !wrapped.WrappedKey? || privateKey != PrivatePem(wrapped.receiver) then Err(DecryptionFailed)
    else if !data.CipherText? || data.aes != wrapped.aes || iv != IvText(data.iv)
      || Member(encryption, AuthTag) != AuthTagText(data.aes, data.iv, data.plain)
    then Err(DecryptionFailed)
    else ReadBack(data.plain, parse)
  }

  // ------------------------------------------------------------------ lemmas

  /** A signature is accepted for exactly one key and one serialised message. */
  lemma SignedVerifiesIff(signed: OMap<Name, Json>, keys: PemKeys, message: OMap<Name, Json>, publicKey: Pem)
    requires Sign(signed, keys).Ok?
    ensures VerifySignature(message, Sign(signed, keys).value, publicKey) == Valid <==>
              && publicKey == keys.publicKey
              && keys.publicKey.key == keys.privateKey.key
              && SerializeFields(message) == SerializeFields(signed)
  {
    SignShape(signed, keys);
  }

  lemma SignShape(signed: OMap<Name, Json>, keys: PemKeys)
    requires Sign(signed, keys).Ok?
    ensures var s := Sign(signed, keys).value;
            && s.Obj?
            && Member(s, AlgorithmHash) == Str(HASH)
            && Member(s, Value) == SignatureText(HASH, keys.privateKey.key, Serialize(Obj(signed)))
            && Member(s, Fingerprint) == FingerprintText(HASH, keys.publicKey.key)
            && Serialize(s) == s
  {
    var s := Sign(signed, keys).value.fields;
    PairwiseDistinct(s);
    EntryGet(s, 0);
    EntryGet(s, 1);
    EntryGet(s, 2);
    TextSerializes(s);
  }

  /** Two messages accepted with one signature and key are the same text, field order included. */
  lemma OneSignatureOneMessage(m: OMap<Name, Json>, m': OMap<Name, Json>, signature: Json, publicKey: Pem, publicKey': Pem)
    requires VerifySignature(m, signature, publicKey) == Valid
    requires VerifySignature(m', signature, publicKey') == Valid
    ensures SerializeFields(m) == SerializeFields(m') && publicKey == publicKey'
  {
  }

  /** Whatever was encrypted, the receiver and nobody else gets to read it back; an empty text is not hidden at all. */
  lemma DecryptEncryptIff(document: Json, receiver: Pem, mode: string, aes: nat, iv: nat, privateKey: Pem, parse: Json -> Option<Json>)
    requires Encrypt(document, receiver, mode, aes, iv).Ok?
    ensures var e, plain := Encrypt(document, receiver, mode, aes, iv).value, PlainOf(document);
            && e.encryption.Obj? && e.encryption.fields != [] && Serialize(e.encryption) == e.encryption
            && e.data == (if plain == Str("") then Str("") else CipherText(aes, iv, plain))
            && (plain != Str("") ==>
                  Decrypt(e.data, e.encryption, privateKey, parse) ==
                    if privateKey == PrivatePem(receiver.key) then ReadBack(plain, parse) else Err(DecryptionFailed))
  {
    var e := Encrypt(document, receiver, mode, aes, iv).value;
    var fs := e.encryption.fields;
    EncryptionShape(fs[0].val, fs[1].val, fs[2].val, fs[3].val, fs[4].val);
    assert Member(e.encryption, Algorithm) == Str(CIPHER);
    assert Member(e.encryption, EncryptedKey) == WrappedKey(receiver.key, aes);
    assert Member(e.encryption, Iv) == IvText(iv);
    assert Member(e.encryption, AuthTag) == AuthTagText(aes, iv, PlainOf(document));
  }

  /** Decryption succeeds only with the named cipher, the key the AES key was wrapped for, and the IV and tag of this very ciphertext. */
  lemma DecryptsOnlyTheOriginal(data: Json, encryption: Json, privateKey: Pem, parse: Json -> Option<Json>)
    ensures Decrypt(data, encryption, privateKey, parse).Ok? ==>
              && Member(encryption, Algorithm) == Str("aes-256-gcm") && data.CipherText?
              && Member(encryption, EncryptedKey).WrappedKey? && Member(encryption, EncryptedKey).aes == data.aes
              && privateKey == PrivatePem(Member(encryption, EncryptedKey).receiver)
              && Member(encryption, Iv) == IvText(data.iv) && Member(encryption, AuthTag) == AuthTagText(data.aes, data.iv, data.plain)
    ensures Member(encryption, Algorithm) != Str("aes-256-gcm") ==> Decrypt(data, encryption, privateKey, parse) == Err(UnsupportedEncryption)
    ensures Decrypt(data, encryption, privateKey, parse) in {Err(UnsupportedEncryption), Err(DecryptionFailed)}
            || Decrypt(data, encryption, privateKey, parse).Ok?
    ensures Decrypt(data, encryption, privateKey, parse) == Err(UnsupportedEncryption) ==> Member(encryption, Algorithm) != Str("aes-256-gcm")
  {
  }

  /**
   A signature verifies exactly if it names the key's fingerprint and was made
   with its other half over this text, by the algorithm it names. Another
   fingerprint is a mismatch, and with the right one another text fails. The
   verification throws without an algorithm, and for a key that is none under a
   signature that names no fingerprint.
   */
  lemma VerifiesIff(message: OMap<Name, Json>, signature: Json, publicKey: Pem)
    ensures var verdict, hash := VerifySignature(message, signature, publicKey), Member(signature, AlgorithmHash);
            var named := hash.Str? && publicKey.PublicPem?
                         && Member(signature, Fingerprint) == FingerprintText(hash.s, publicKey.key);
            && (verdict == Valid <==>
                  named && Member(signature, Value) == SignatureText(hash.s, publicKey.key, Obj(SerializeFields(message))))
            && (verdict == Invalid(SignatureVerification) <==>
                  named && Member(signature, Value) != SignatureText(hash.s, publicKey.key, Obj(SerializeFields(message))))
            && (verdict == Invalid(Exception) <==>
                  !hash.Str? || (!publicKey.PublicPem? && Member(signature, Fingerprint).Undefined?))
            && (verdict != Valid ==>
                  verdict in {Invalid(SignatureVerification), Invalid(SignatureMismatch), Invalid(Exception)})
  {
  }

  lemma EncryptionShape(a: Json, k: Json, i: Json, t: Json, m: Json)
    requires IsText(a) && IsText(k) && IsText(i) && IsText(t) && IsText(m)
    ensures var fs := [Entry(Algorithm, a), Entry(EncryptedKey, k), Entry(Iv, i), Entry(AuthTag, t), Entry(Type, m)];
            && FieldOf(fs, Algorithm) == a && FieldOf(fs, EncryptedKey) == k && FieldOf(fs, Iv) == i
            && FieldOf(fs, AuthTag) == t && SerializeFields(fs) == fs
  {
    var fs := [Entry(Algorithm, a), Entry(EncryptedKey, k), Entry(Iv, i), Entry(AuthTag, t), Entry(Type, m)];
    PairwiseDistinct(fs);
    EntryGet(fs, 0);
    EntryGet(fs, 1);
    EntryGet(fs, 2);
    EntryGet(fs, 3);
    TextSerializes(fs);
  }
}
