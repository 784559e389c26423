/**
 `signEncrypt` and `decryptVerify`. Sender and receiver rebuild the signed
 object by different sequences of spreads and rest patterns; the results say
 exactly when the two agree.
 */
module SignEncrypt {
  import opened Wrappers
  import opened OrderedMap
  import opened Json
  import opened Crypto
  import opened Identity

  /** What the sender's call draws: a UUID, the time, an AES key and an IV. */
  datatype Drawn = Drawn(uuid: string, now: string, aes: nat, iv: nat)

  /** A resolved `{ payload, error }`, or a rejected promise. */
  datatype Outcome = Payload(fields: OMap<Name, Json>) | Failed(error: Failure) | Rejected

  /** One call of `signEncrypt`; `mode` is the encryption option, if given. */
  datatype Call = Call(dns: Resolver, to: Option<string>, keys: PemKeys, payload: OMap<Name, Json>, mode: Option<string>, drawn: Drawn)

  /** The object that gets signed, built field by field from the rest of the payload. */
  function DocToSign(rest: OMap<Name, Json>, document: Json, encryption: Json, drawn: Drawn): OMap<Name, Json> {
    Put(Put(Put(Put(rest,
      Id, OrElse(FieldOf(rest, Id), Str(drawn.uuid))),
      IssuedAt, OrElse(FieldOf(rest, IssuedAt), Str(drawn.now))),
      Document, document),
      Encryption, encryption)
  }

  /** The encryption step: what stands for the document, and the encryption block, null for none. */
  function Seal(c: Call): Result<Encrypted, Outcome> {
    var document, selector := FieldOf(c.payload, Document), FieldOf(c.payload, Selector);
    if c.to.None? || c.to.value == "" || !Truthy(selector) then Ok(Encrypted(document, Null))
    else if ParseIdentity(c.to.value).None? then Err(Failed(IdentityError))
    else
      match c.dns(Str(c.to.value), selector)
      case LookupThrows => Err(Rejected)
      case NoRecord => Err(Failed(ResolvePublicKeyError))
      case Found(pem) =>
        if c.mode.None? then Ok(Encrypted(document, Null))
        else
          match Encrypt(document, pem, c.mode.value, c.drawn.aes, c.drawn.iv)
          case Err(e) => Err(Failed(e))
          case Ok(e) => Ok(e)
  }

  function SealedDoc(c: Call): OMap<Name, Json>
    requires Seal(c).Ok?
  {
    DocToSign(Remove(c.payload, Document), Seal(c).value.data, Seal(c).value.encryption, c.drawn)
  }

  function SignAndSeal(c: Call): Outcome {
    match Seal(c)
    case Err(o) => o
    case Ok(_) =>
      match Sign(SealedDoc(c), c.keys)
      case Err(e) => Failed(e)
      case Ok(signature) => Payload(Put(SealedDoc(c), Signature, signature))
  }

  /** A private key was given, and not as the empty string. */
  predicate HasKey(receiver: Option<Pem>) {
    receiver.Some? && receiver.value != NotPem("")
  }

  /** The document step of `decryptVerify`: decrypted when it must be, and then only with the right key. */
  function OpenDocument(rest: OMap<Name, Json>, receiver: Option<Pem>, parse: Json -> Option<Json>): Result<Json, Failure> {
    var encryption, document := FieldOf(rest, Encryption), FieldOf(rest, Document);
    if !IsEmpty(encryption) && HasKey(receiver) && !IsEmpty(document) && IsText(document)
    then Decrypt(document, encryption, receiver.value, parse)
    else Ok(document)
  }

  /** The wire object without the two fields that are never signed here. */
  function Unwrapped(wire: OMap<Name, Json>): OMap<Name, Json> {
    Remove(Remove(wire, Signature), Delegation)
  }

  /** What `decryptVerify` hands back once signature and document are in order. */
  function Reassembled(wire: OMap<Name, Json>, data: Json): OMap<Name, Json> {
    var signed := Put(Unwrapped(wire), Signature, FieldOf(wire, Signature));
    var read := if Truthy(data) then Put(signed, Document, data) else signed;
    if Truthy(FieldOf(wire, Delegation)) then Put(read, Delegation, FieldOf(wire, Delegation)) else read
  }

  /** `decryptVerify`; the receiver's private key is optional. */
  function DecryptVerify(sender: Pem, wire: OMap<Name, Json>, receiver: Option<Pem>, parse: Json -> Option<Json>): Outcome {
    match VerifySignature(Unwrapped(wire), FieldOf(wire, Signature), sender)
    case Invalid(e) => if e.Exception? then Rejected else Failed(e)
    case Valid =>
      match OpenDocument(Unwrapped(wire), receiver, parse)
      case Err(e) => Failed(e)
      case Ok(data) => Payload(Reassembled(wire, data))
  }

  // --------------------------------------------------------------- the round trip

  /** What arrives: the sent object, or what one serialise/parse hop makes of it. */
  ghost predicate Arrives(c: Call, wire: OMap<Name, Json>) {
    SignAndSeal(c).Payload? && (wire == SignAndSeal(c).fields || wire == SerializeFields(SignAndSeal(c).fields))
  }

  /** The payload brings no signature or delegation of its own. */
  predicate Unsigned(payload: OMap<Name, Json>) {
    !Defined(payload, Signature) && !Defined(payload, Delegation)
  }

  lemma DocToSignFields(rest: OMap<Name, Json>, document: Json, encryption: Json, drawn: Drawn, k: Name)
    requires Distinct(rest)
    ensures var doc := DocToSign(rest, document, encryption, drawn);
            && Distinct(doc)
            && FieldOf(doc, Document) == document
            && FieldOf(doc, Encryption) == encryption
            && (k != Id && k != IssuedAt && k != Document && k != Encryption ==> FieldOf(doc, k) == FieldOf(rest, k))
  {
  }

  lemma SealedDocFields(c: Call)
    requires Distinct(c.payload) && Seal(c).Ok?
    ensures var doc := SealedDoc(c);
            && Distinct(doc)
            && FieldOf(doc, Document) == Seal(c).value.data
            && FieldOf(doc, Encryption) == Seal(c).value.encryption
            && FieldOf(doc, Signature) == FieldOf(c.payload, Signature)
            && FieldOf(doc, Delegation) == FieldOf(c.payload, Delegation)
  {
    DocToSignFields(Remove(c.payload, Document), Seal(c).value.data, Seal(c).value.encryption, c.drawn, Signature);
    SealedDocOther(c, Delegation);
  }

  lemma SealedDocOther(c: Call, k: Name)
    requires Distinct(c.payload) && Seal(c).Ok?
    requires k != Id && k != IssuedAt && k != Document && k != Encryption
    ensures FieldOf(SealedDoc(c), k) == FieldOf(c.payload, k)
  {
    DocToSignFields(Remove(c.payload, Document), Seal(c).value.data, Seal(c).value.encryption, c.drawn, k);
  }

  /** Dropping signature and delegation shows exactly if the object had one. */
  lemma UnwrappedShows(doc: OMap<Name, Json>)
    requires Distinct(doc)
    ensures SerializeFields(Unwrapped(doc)) == SerializeFields(doc) <==> Unsigned(doc)
  {
    var one := Remove(doc, Signature);
    SerializeRemove(doc, Signature);
    SerializeRemove(one, Delegation);
    SerializeGet(doc, Signature);
    SerializeGet(doc, Delegation);
    SerializeGet(Unwrapped(doc), Signature);
    SerializeGet(Unwrapped(doc), Delegation);
  }

  /** What the receiver checks the signature against is the signed object less two fields. */
  lemma ReceiverMessage(doc: OMap<Name, Json>, signature: Json, wire: OMap<Name, Json>)
    requires Distinct(doc) && signature.Obj? && Serialize(signature) == signature
    requires wire == Put(doc, Signature, signature) || wire == SerializeFields(Put(doc, Signature, signature))
    ensures FieldOf(wire, Signature) == signature
    ensures SerializeFields(Unwrapped(wire)) == SerializeFields(Unwrapped(doc))
  {
    var sent := Put(doc, Signature, signature);
    RemovePut(doc, Signature, signature);
    SerializeGet(sent, Signature);
    SerializeRemove(sent, Signature);
    SerializeRemove(Remove(sent, Signature), Delegation);
    SerializeFieldsTwice(Unwrapped(sent));
  }

  /** A signed object as it is sent, or as one serialise/parse hop delivers it. */
  ghost predicate Delivers(doc: OMap<Name, Json>, keys: PemKeys, wire: OMap<Name, Json>) {
    Sign(doc, keys).Ok? &&
    var sent := Put(doc, Signature, Sign(doc, keys).value);
    wire == sent || wire == SerializeFields(sent)
  }

  lemma DeliveredAcceptedIff(doc: OMap<Name, Json>, keys: PemKeys, wire: OMap<Name, Json>, sender: Pem)
    requires Distinct(doc) && Delivers(doc, keys, wire)
    ensures VerifySignature(Unwrapped(wire), FieldOf(wire, Signature), sender) == Valid <==>
              (sender == keys.publicKey && keys.publicKey.key == keys.privateKey.key && Unsigned(doc))
  {
    SignShape(doc, keys);
    ReceiverMessage(doc, Sign(doc, keys).value, wire);
    UnwrappedShows(doc);
    SignedVerifiesIff(doc, keys, Unwrapped(wire), sender);
  }

  lemma SealedUnsigned(c: Call)
    requires Distinct(c.payload) && Seal(c).Ok?
    ensures Distinct(SealedDoc(c)) && (Unsigned(SealedDoc(c)) <==> Unsigned(c.payload))
  {
    SealedDocFields(c);
  }

  lemma ArrivesDelivers(c: Call, wire: OMap<Name, Json>)
    requires Arrives(c, wire)
    ensures Seal(c).Ok? && Delivers(SealedDoc(c), c.keys, wire)
  {
  }

  /**
   The receiver accepts the signature, hop or no hop, if and only if it checks
   with the signer's own key and the payload had no signature or delegation.
   */
  lemma SignatureAcceptedIff(c: Call, wire: OMap<Name, Json>, sender: Pem)
    requires Distinct(c.payload) && Arrives(c, wire)
    ensures VerifySignature(Unwrapped(wire), FieldOf(wire, Signature), sender) == Valid <==>
              (sender == c.keys.publicKey && c.keys.publicKey.key == c.keys.privateKey.key && Unsigned(c.payload))
  {
    ArrivesDelivers(c, wire);
    SealedUnsigned(c);
    DeliveredAcceptedIff(SealedDoc(c), c.keys, wire, sender);
  }

  /** The private key the receiver holds opens what was sealed for it; anything does if nothing was sealed. */
  predicate CanOpen(c: Call, receiver: Option<Pem>) {
    Seal(c).Ok? && (Seal(c).value.encryption.Null? ||
      (receiver.Some? && receiver.value.PrivatePem?
        && c.dns(Str(c.to.value), FieldOf(c.payload, Selector)) == Found(PublicPem(receiver.value.key))))
  }

  /** What sealing makes of any document, and what decrypting makes of that. */
  lemma SealOpens(c: Call, receiver: Pem, parse: Json -> Option<Json>)
    requires Seal(c).Ok?
    ensures var document, sealed := FieldOf(c.payload, Document), Seal(c).value;
            if sealed.encryption.Null? then sealed.data == document
            else
              && sealed.encryption.Obj? && !IsEmpty(sealed.encryption) && Serialize(sealed.encryption) == sealed.encryption
              && sealed.data == (if PlainOf(document) == Str("") then Str("") else CipherText(c.drawn.aes, c.drawn.iv, PlainOf(document)))
              && (PlainOf(document) != Str("") ==>
                    Decrypt(sealed.data, sealed.encryption, receiver, parse) ==
                      if CanOpen(c, Some(receiver)) then ReadBack(PlainOf(document), parse) else Err(DecryptionFailed))
  {
    if !Seal(c).value.encryption.Null? {
      var pem := c.dns(Str(c.to.value), FieldOf(c.payload, Selector)).pem;
      DecryptEncryptIff(FieldOf(c.payload, Document), pem, c.mode.value, c.drawn.aes, c.drawn.iv, receiver, parse);
    }
  }

  /** A field of a signed object as it arrives. */
  lemma DeliveredField(doc: OMap<Name, Json>, keys: PemKeys, wire: OMap<Name, Json>, k: Name)
    requires Distinct(doc) && Delivers(doc, keys, wire) && k != Signature
    ensures FieldOf(wire, k) ==
              if wire == Put(doc, Signature, Sign(doc, keys).value) then FieldOf(doc, k) else Serialize(FieldOf(doc, k))
    ensures k != Delegation ==> FieldOf(Unwrapped(wire), k) == FieldOf(wire, k)
  {
    SerializeGet(Put(doc, Signature, Sign(doc, keys).value), k);
  }

  lemma ArrivedFields(c: Call, wire: OMap<Name, Json>)
    requires Distinct(c.payload) && Unsigned(c.payload) && Arrives(c, wire)
    ensures var document, encryption := FieldOf(Unwrapped(wire), Document), FieldOf(Unwrapped(wire), Encryption);
            && Seal(c).Ok?
            && document == (if wire == SignAndSeal(c).fields then Seal(c).value.data else Serialize(Seal(c).value.data))
            && (encryption == Seal(c).value.encryption || encryption == Serialize(Seal(c).value.encryption))
            && FieldOf(wire, Delegation).Undefined?
  {
    ArrivesDelivers(c, wire);
    SealedDocFields(c);
    DeliveredField(SealedDoc(c), c.keys, wire, Document);
    DeliveredField(SealedDoc(c), c.keys, wire, Encryption);
    DeliveredField(SealedDoc(c), c.keys, wire, Delegation);
  }

  /** What the receiver's document step gives for what was sent, whoever the receiver is. */
  function Opened(c: Call, wire: OMap<Name, Json>, receiver: Option<Pem>, parse: Json -> Option<Json>): Result<Json, Failure>
    requires Seal(c).Ok?
  {
    var document, sealed := FieldOf(c.payload, Document), Seal(c).value;
    if sealed.encryption.Null? then Ok(Hopped(c, wire, document))
    else if !HasKey(receiver) || PlainOf(document) == Str("") then Ok(sealed.data)
    else if CanOpen(c, receiver) then ReadBack(PlainOf(document), parse)
    else Err(DecryptionFailed)
  }

  /** A value as it is after the way: itself without a hop, serialised with one. */
  function Hopped(c: Call, wire: OMap<Name, Json>, v: Json): Json {
    if SignAndSeal(c).Payload? && wire == SignAndSeal(c).fields then v else Serialize(v)
  }

  /** Any arrived document opens exactly as `Opened` says: for the right key, or where there is nothing to open. */
  lemma OpenArrived(c: Call, wire: OMap<Name, Json>, receiver: Option<Pem>, parse: Json -> Option<Json>)
    requires Distinct(c.payload) && Unsigned(c.payload) && Arrives(c, wire)
    ensures Seal(c).Ok? && OpenDocument(Unwrapped(wire), receiver, parse) == Opened(c, wire, receiver, parse)
  {
    ArrivedFields(c, wire);
    SealOpens(c, if receiver.Some? then receiver.value else NotPem(""), parse);
    if Seal(c).value.encryption.Null? {
      OpenNull(Unwrapped(wire), receiver, parse);
    } else {
      OpenSealed(Unwrapped(wire), Seal(c).value, receiver, parse);
    }
  }

  lemma OpenNull(rest: OMap<Name, Json>, receiver: Option<Pem>, parse: Json -> Option<Json>)
    requires FieldOf(rest, Encryption).Null?
    ensures OpenDocument(rest, receiver, parse) == Ok(FieldOf(rest, Document))
  {
  }

  lemma OpenSealed(rest: OMap<Name, Json>, sealed: Encrypted, receiver: Option<Pem>, parse: Json -> Option<Json>)
    requires sealed.encryption.Obj? && !IsEmpty(sealed.encryption) && (sealed.data.CipherText? || sealed.data == Str(""))
    requires FieldOf(rest, Encryption) == sealed.encryption && FieldOf(rest, Document) == sealed.data
    ensures OpenDocument(rest, receiver, parse) ==
              if HasKey(receiver) && sealed.data.CipherText? then Decrypt(sealed.data, sealed.encryption, receiver.value, parse)
              else Ok(sealed.data)
  {
  }

  /** A falsy document is not written back: what arrived stays. */
  lemma ReassembledFields(wire: OMap<Name, Json>, data: Json)
    requires FieldOf(wire, Delegation).Undefined?
    ensures FieldOf(Reassembled(wire, data), Document) == if Truthy(data) then data else FieldOf(wire, Document)
    ensures FieldOf(Reassembled(wire, data), Signature) == FieldOf(wire, Signature)
  {
  }

  lemma ReassembledOther(wire: OMap<Name, Json>, data: Json, k: Name)
    requires k != Signature && k != Document && k != Delegation
    ensures FieldOf(Reassembled(wire, data), k) == FieldOf(wire, k)
  {
  }

  /** The whole of `decryptVerify` on what was sent, with the sender's own key pair: the document step decides. */
  lemma ReceivedAs(c: Call, wire: OMap<Name, Json>, receiver: Option<Pem>, parse: Json -> Option<Json>)
    requires Distinct(c.payload) && Unsigned(c.payload) && Arrives(c, wire)
    requires c.keys.publicKey.key == c.keys.privateKey.key
    ensures Seal(c).Ok?
    ensures var r, step := DecryptVerify(c.keys.publicKey, wire, receiver, parse), Opened(c, wire, receiver, parse);
            if step.Err? then r == Failed(step.error)
            else
              && r.Payload? && FieldOf(r.fields, Signature) == FieldOf(wire, Signature)
              && FieldOf(r.fields, Document) == if Truthy(step.value) then step.value else Hopped(c, wire, Seal(c).value.data)
  {
    SignatureAcceptedIff(c, wire, c.keys.publicKey);
    OpenArrived(c, wire, receiver, parse);
    ArrivedFields(c, wire);
    if Opened(c, wire, receiver, parse).Ok? {
      ReassembledFields(wire, Opened(c, wire, receiver, parse).value);
    }
  }

  /** Not encrypted, any document whatsoever comes back, to anyone: as it was, or as one hop serialises it. */
  lemma UnsealedReturns(c: Call, wire: OMap<Name, Json>, receiver: Option<Pem>, parse: Json -> Option<Json>)
    requires Distinct(c.payload) && Unsigned(c.payload) && Arrives(c, wire)
    requires c.keys.publicKey.key == c.keys.privateKey.key && Seal(c).value.encryption.Null?
    ensures var r := DecryptVerify(c.keys.publicKey, wire, receiver, parse);
            r.Payload? && FieldOf(r.fields, Document) == Hopped(c, wire, FieldOf(c.payload, Document))
  {
    ReceivedAs(c, wire, receiver, parse);
    SealOpens(c, NotPem(""), parse);
  }

  /** The encrypted text read back, or the ciphertext itself where that is falsy; empty text is not encrypted at all. */
  lemma SealedReceived(c: Call, wire: OMap<Name, Json>, receiver: Pem, parse: Json -> Option<Json>)
    requires Distinct(c.payload) && Unsigned(c.payload) && Arrives(c, wire)
    requires c.keys.publicKey.key == c.keys.privateKey.key && CanOpen(c, Some(receiver)) && !Seal(c).value.encryption.Null?
    ensures var r, plain := DecryptVerify(c.keys.publicKey, wire, Some(receiver), parse), PlainOf(FieldOf(c.payload, Document));
            var b, cipher := ReadBack(plain, parse), CipherText(c.drawn.aes, c.drawn.iv, plain);
            if plain == Str("") then r.Payload? && FieldOf(r.fields, Document) == Str("")
            else if b.Err? then r == Failed(b.error)
            else r.Payload? && FieldOf(r.fields, Document) == if Truthy(b.value) then b.value else cipher
  {
    ReceivedAs(c, wire, Some(receiver), parse);
    SealOpens(c, receiver, parse);
  }

  /**
   Encrypted, a document comes back to the holder of the right key, as it
   serialises, if and only if it is empty text, or truthy and, being text,
   parses to itself.
   */
  lemma SealedReturnsIff(c: Call, wire: OMap<Name, Json>, receiver: Pem, parse: Json -> Option<Json>)
    requires Distinct(c.payload) && Unsigned(c.payload) && Arrives(c, wire)
    requires c.keys.publicKey.key == c.keys.privateKey.key && CanOpen(c, Some(receiver)) && !Seal(c).value.encryption.Null?
    ensures var r, document := DecryptVerify(c.keys.publicKey, wire, Some(receiver), parse), FieldOf(c.payload, Document);
            r.Payload? && FieldOf(r.fields, Document) == Serialize(document) <==>
              document == Str("") || (Truthy(document) && (IsText(document) ==> parse(document) == Some(document)))
  {
    var document := FieldOf(c.payload, Document);
    SealedReceived(c, wire, receiver, parse);
    SerializeTwice(document);
    if PlainOf(document) != Str("") {
      SurvivesIff(document, CipherText(c.drawn.aes, c.drawn.iv, PlainOf(document)), parse);
    }
  }

  /** What is read back, or the ciphertext in its place when that is falsy, is the document again. */
  lemma SurvivesIff(document: Json, cipher: Json, parse: Json -> Option<Json>)
    requires PlainOf(document) != Str("") && cipher.CipherText? && cipher.plain == PlainOf(document)
    ensures var b := ReadBack(PlainOf(document), parse);
            b.Ok? && (if Truthy(b.value) then b.value else cipher) == Serialize(document) <==>
              Truthy(document) && (IsText(document) ==> parse(document) == Some(document))
  {
    SerializeTwice(document);
    NotItsOwnCipher(cipher);
  }

  lemma NotItsOwnCipher(cipher: Json)
    requires cipher.CipherText?
    ensures cipher.plain != cipher
  {
    assert cipher.plain < cipher;
  }

  /** `JSON.parse` never gives a string back whole: what it reads is shorter than its text. */
  ghost predicate IsJsonParse(parse: Json -> Option<Json>) {
    forall d :: IsText(d) ==> parse(d) != Some(d)
  }

  /** With `JSON.parse`, encrypted text comes back only if it is empty, and anything else only if it is truthy. */
  lemma SealedReturnsInPractice(c: Call, wire: OMap<Name, Json>, receiver: Pem, parse: Json -> Option<Json>)
    requires Distinct(c.payload) && Unsigned(c.payload) && Arrives(c, wire) && IsJsonParse(parse)
    requires c.keys.publicKey.key == c.keys.privateKey.key && CanOpen(c, Some(receiver)) && !Seal(c).value.encryption.Null?
    ensures var r, document := DecryptVerify(c.keys.publicKey, wire, Some(receiver), parse), FieldOf(c.payload, Document);
            r.Payload? && FieldOf(r.fields, Document) == Serialize(document) <==>
              document == Str("") || (Truthy(document) && !IsText(document))
  {
    SealedReturnsIff(c, wire, receiver, parse);
  }

  /** Encrypted null, false or zero reaches the right receiver as ciphertext, with success reported. */
  lemma SealedFalsyStaysCipher(c: Call, wire: OMap<Name, Json>, receiver: Pem, parse: Json -> Option<Json>)
    requires Distinct(c.payload) && Unsigned(c.payload) && Arrives(c, wire)
    requires c.keys.publicKey.key == c.keys.privateKey.key && CanOpen(c, Some(receiver)) && !Seal(c).value.encryption.Null?
    requires FieldOf(c.payload, Document) == Null || FieldOf(c.payload, Document) == Bool(false) || FieldOf(c.payload, Document) == Num(0)
    ensures var r := DecryptVerify(c.keys.publicKey, wire, Some(receiver), parse);
            r.Payload? && FieldOf(r.fields, Document) == CipherText(c.drawn.aes, c.drawn.iv, FieldOf(c.payload, Document))
  {
    SealedReceived(c, wire, receiver, parse);
  }

  /**
   Every document whatsoever: it comes back to whoever can open it, as it was
   or as it serialises, exactly if it was not encrypted or is of the kinds that
   survive encryption.
   */
  lemma RoundTripIff(c: Call, wire: OMap<Name, Json>, receiver: Option<Pem>, parse: Json -> Option<Json>)
    requires Distinct(c.payload) && Unsigned(c.payload) && Arrives(c, wire)
    requires c.keys.publicKey.key == c.keys.privateKey.key && CanOpen(c, receiver)
    ensures var r, document := DecryptVerify(c.keys.publicKey, wire, receiver, parse), FieldOf(c.payload, Document);
            var plain := Seal(c).value.encryption.Null?;
            r.Payload? && FieldOf(r.fields, Document) == (if plain then Hopped(c, wire, document) else Serialize(document)) <==>
              plain || document == Str("") || (Truthy(document) && (IsText(document) ==> parse(document) == Some(document)))
  {
    if Seal(c).value.encryption.Null? {
      UnsealedReturns(c, wire, receiver, parse);
    } else {
      SealedReturnsIff(c, wire, receiver.value, parse);
    }
  }

  /** Every other field comes back as it was, or as it serialises. */
  lemma RoundTripOthers(c: Call, wire: OMap<Name, Json>, receiver: Option<Pem>, parse: Json -> Option<Json>, k: Name)
    requires Distinct(c.payload) && Unsigned(c.payload) && Arrives(c, wire)
    requires DecryptVerify(c.keys.publicKey, wire, receiver, parse).Payload?
    requires k != Id && k != IssuedAt && k != Document && k != Encryption && k != Signature && k != Delegation
    ensures var read := DecryptVerify(c.keys.publicKey, wire, receiver, parse).fields;
            FieldOf(read, k) ==
              if wire == SignAndSeal(c).fields then FieldOf(c.payload, k) else Serialize(FieldOf(c.payload, k))
  {
    ArrivesDelivers(c, wire);
    SealedDocFields(c);
    SealedDocOther(c, k);
    DeliveredField(SealedDoc(c), c.keys, wire, k);
    ReassembledOther(wire, OpenDocument(Unwrapped(wire), receiver, parse).value, k);
  }

  /**
   A receiver who cannot open what was encrypted is refused if and only if it
   gives a key at all and there is text to decrypt; without a key, or with an
   empty one, it is handed what arrived, with success reported.
   */
  lemma OthersRefusedIff(c: Call, wire: OMap<Name, Json>, receiver: Option<Pem>, parse: Json -> Option<Json>)
    requires Distinct(c.payload) && Unsigned(c.payload) && Arrives(c, wire)
    requires c.keys.publicKey.key == c.keys.privateKey.key && !CanOpen(c, receiver)
    ensures var r, sealed := DecryptVerify(c.keys.publicKey, wire, receiver, parse), Seal(c).value;
            if HasKey(receiver) && PlainOf(FieldOf(c.payload, Document)) != Str("") then r == Failed(DecryptionFailed)
            else r.Payload? && FieldOf(r.fields, Document) == sealed.data
  {
    ReceivedAs(c, wire, receiver, parse);
    SealOpens(c, NotPem(""), parse);
  }

  /** With the signature kept, any change to what is serialised, or to its order, is refused. */
  lemma TamperingRefused(c: Call, sender: Pem, altered: OMap<Name, Json>, receiver: Option<Pem>, parse: Json -> Option<Json>)
    requires SignAndSeal(c).Payload?
    requires FieldOf(altered, Signature) == FieldOf(SignAndSeal(c).fields, Signature)
    requires SerializeFields(Unwrapped(altered)) != SerializeFields(SealedDoc(c))
    ensures !DecryptVerify(sender, altered, receiver, parse).Payload?
  {
    SignedVerifiesIff(SealedDoc(c), c.keys, Unwrapped(altered), sender);
  }

  // ------------------------------------------------- a signed response at the client

  /** The client checks `{ ...msg, encryption: msg?.encryption ?? null }`. */
  function AsChecked(msg: OMap<Name, Json>): OMap<Name, Json> {
    Put(msg, Encryption, OrElse(FieldOf(msg, Encryption), Null))
  }

  /**
   A response the server signed verifies at the client if and only if the
   server wrote an `encryption` field; the null the client adds is not signed.
   */
  lemma ResponseVerifiesIff(data: OMap<Name, Json>, keys: PemKeys)
    requires Distinct(data) && Unsigned(data) && Sign(data, keys).Ok? && keys.publicKey.key == keys.privateKey.key
    ensures var checked := AsChecked(SerializeFields(Put(data, Signature, Sign(data, keys).value)));
            VerifySignature(Unwrapped(checked), FieldOf(checked, Signature), keys.publicKey) == Valid <==>
              Defined(data, Encryption)
  {
    var signature := Sign(data, keys).value;
    SignShape(data, keys);
    ResponseMessage(data, signature);
    var checked := AsChecked(SerializeFields(Put(data, Signature, signature)));
    SignedVerifiesIff(data, keys, Unwrapped(checked), keys.publicKey);
  }

  lemma ResponseMessage(data: OMap<Name, Json>, signature: Json)
    requires Distinct(data) && Unsigned(data) && signature.Obj? && Serialize(signature) == signature
    ensures var checked := AsChecked(SerializeFields(Put(data, Signature, signature)));
            && FieldOf(checked, Signature) == signature
            && (SerializeFields(Unwrapped(checked)) == SerializeFields(data) <==> Defined(data, Encryption))
  {
    var sent := Put(data, Signature, signature);
    var msg := SerializeFields(sent);
    SerializeGet(sent, Encryption);
    SerializeGet(sent, Signature);
    SerializeGet(data, Encryption);
    UnwrappedShows(data);
    ReceiverMessage(data, signature, msg);
    SerializeTwice(FieldOf(data, Encryption));
    var e := OrElse(FieldOf(msg, Encryption), Null);
    var checked := AsChecked(msg);
    if Defined(data, Encryption) {
      PutSame(msg, Encryption, e);
    } else {
      SerializeGet(Unwrapped(checked), Encryption);
    }
  }

  // ------------------------------------------------------------ in the caller's terms

  /** Encryption was asked for: a receiver, a selector, and an encryption option. */
  predicate Asked(c: Call) {
    c.to.Some? && c.to.value != "" && Truthy(FieldOf(c.payload, Selector)) && c.mode.Some?
  }

  lemma SealsAsAsked(c: Call)
    requires Seal(c).Ok?
    ensures var document, sealed := FieldOf(c.payload, Document), Seal(c).value;
            if !Asked(c) then sealed == Encrypted(document, Null)
            else
              var found := c.dns(Str(c.to.value), FieldOf(c.payload, Selector));
              var plain := if document.Undefined? then Str("") else if IsText(document) then document else Serialize(document);
              && found.Found? && found.pem.PublicPem?
              && sealed.data == (if plain == Str("") then Str("") else CipherText(c.drawn.aes, c.drawn.iv, plain))
              && sealed.encryption.Obj?
              && Member(sealed.encryption, EncryptedKey) == WrappedKey(found.pem.key, c.drawn.aes)
              && Member(sealed.encryption, Algorithm) == Str("aes-256-gcm") && Member(sealed.encryption, Type) == Str(c.mode.value)
              && Member(sealed.encryption, Iv) == IvText(c.drawn.iv)
              && Member(sealed.encryption, AuthTag) == AuthTagText(c.drawn.aes, c.drawn.iv, plain)
  {
    if Asked(c) {
      var fs := Seal(c).value.encryption.fields;
      EncryptionShape(fs[0].val, fs[1].val, fs[2].val, fs[3].val, fs[4].val);
      PairwiseDistinct(fs);
      EntryGet(fs, 4);
    }
  }

  /**
   What `signEncrypt` sends: `encryption` is null exactly if it was not asked for,
   and the document is then the payload's; else the document is its ciphertext, or
   empty text, under an AES key wrapped for the key DNS has for the receiver.
   */
  lemma EncryptsExactlyWhenAsked(c: Call)
    requires Distinct(c.payload) && SignAndSeal(c).Payload?
    ensures var sent, document := SignAndSeal(c).fields, FieldOf(c.payload, Document);
            var encryption := FieldOf(sent, Encryption);
            && (encryption.Null? <==>
                  c.to.None? || c.to.value == "" || !Truthy(FieldOf(c.payload, Selector)) || c.mode.None?)
            && (encryption.Null? ==> FieldOf(sent, Document) == document)
            && (!encryption.Null? ==>
                  var found := c.dns(Str(c.to.value), FieldOf(c.payload, Selector));
                  var plain := if document.Undefined? then Str("") else if IsText(document) then document else Serialize(document);
                  && found.Found? && found.pem.PublicPem?
                  && FieldOf(sent, Document) == (if plain == Str("") then Str("") else CipherText(c.drawn.aes, c.drawn.iv, plain))
                  && Member(encryption, EncryptedKey) == WrappedKey(found.pem.key, c.drawn.aes)
                  && Member(encryption, Algorithm) == Str("aes-256-gcm") && Member(encryption, Type) == Str(c.mode.value)
                  && Member(encryption, Iv) == IvText(c.drawn.iv)
                  && Member(encryption, AuthTag) == AuthTagText(c.drawn.aes, c.drawn.iv, plain))
  {
    SealsAsAsked(c);
    SealedDocFields(c);
    var sent := SignAndSeal(c).fields;
    assert FieldOf(sent, Document) == FieldOf(SealedDoc(c), Document) && FieldOf(sent, Encryption) == FieldOf(SealedDoc(c), Encryption);
  }

  /** An id and a time of issue are drawn where the payload has none; the signature names its algorithm and key. */
  lemma SentFields(c: Call)
    requires Distinct(c.payload) && SignAndSeal(c).Payload?
    ensures var sent, id, issuedAt := SignAndSeal(c).fields, FieldOf(c.payload, Id), FieldOf(c.payload, IssuedAt);
            && FieldOf(sent, Id) == (if id.Undefined? || id.Null? then Str(c.drawn.uuid) else id)
            && FieldOf(sent, IssuedAt) == (if issuedAt.Undefined? || issuedAt.Null? then Str(c.drawn.now) else issuedAt)
            && Member(FieldOf(sent, Signature), AlgorithmHash) == Str("sha256")
            && Member(FieldOf(sent, Signature), Fingerprint) == FingerprintText("sha256", c.keys.publicKey.key)
  {
    var doc := SealedDoc(c);
    SignShape(doc, c.keys);
    SignedSays(doc, Sign(doc, c.keys).value);
    DocToSignDrawn(Remove(c.payload, Document), Seal(c).value.data, Seal(c).value.encryption, c.drawn);
    DroppedSays(c.payload);
  }

  lemma SignedSays(doc: OMap<Name, Json>, signature: Json)
    ensures var sent := Put(doc, Signature, signature);
            FieldOf(sent, Signature) == signature && FieldOf(sent, Id) == FieldOf(doc, Id) && FieldOf(sent, IssuedAt) == FieldOf(doc, IssuedAt)
  {
  }

  lemma DroppedSays(payload: OMap<Name, Json>)
    requires Distinct(payload)
    ensures var rest := Remove(payload, Document);
            FieldOf(rest, Id) == FieldOf(payload, Id) && FieldOf(rest, IssuedAt) == FieldOf(payload, IssuedAt)
  {
  }

  lemma DocToSignDrawn(rest: OMap<Name, Json>, document: Json, encryption: Json, drawn: Drawn)
    ensures var doc, id, issuedAt := DocToSign(rest, document, encryption, drawn), FieldOf(rest, Id), FieldOf(rest, IssuedAt);
            && FieldOf(doc, Id) == (if id.Undefined? || id.Null? then Str(drawn.uuid) else id)
            && FieldOf(doc, IssuedAt) == (if issuedAt.Undefined? || issuedAt.Null? then Str(drawn.now) else issuedAt)
  {
  }

  /** When nothing is sent, and why: the receiver first, then its key, then the sender's own. */
  lemma SendsIff(c: Call)
    ensures var addressed := c.to.Some? && c.to.value != "" && Truthy(FieldOf(c.payload, Selector));
            var found := if addressed then c.dns(Str(c.to.value), FieldOf(c.payload, Selector)) else NoRecord;
            SignAndSeal(c) ==
              if addressed && ParseIdentity(c.to.value).None? then Failed(IdentityError)
              else if addressed && found.LookupThrows? then Rejected
              else if addressed && found.NoRecord? then Failed(ResolvePublicKeyError)
              else if addressed && c.mode.Some? && !found.pem.PublicPem? then Failed(BadKey)
              else if !c.keys.privateKey.PrivatePem? || !c.keys.publicKey.PublicPem? then Failed(BadKey)
              else SignAndSeal(c)
    ensures SignAndSeal(c).Payload? <==>
              && (c.to.Some? && c.to.value != "" && Truthy(FieldOf(c.payload, Selector)) ==>
                    && ParseIdentity(c.to.value).Some?
                    && c.dns(Str(c.to.value), FieldOf(c.payload, Selector)).Found?
                    && (c.mode.Some? ==> c.dns(Str(c.to.value), FieldOf(c.payload, Selector)).pem.PublicPem?))
              && c.keys.privateKey.PrivatePem? && c.keys.publicKey.PublicPem?
  {
  }

  /** What `decryptVerify` hands back has every other field of the wire, the encryption block included, and a delegation if it is truthy. */
  lemma ReadKeepsTheRest(sender: Pem, wire: OMap<Name, Json>, receiver: Option<Pem>, parse: Json -> Option<Json>, k: Name)
    requires DecryptVerify(sender, wire, receiver, parse).Payload?
    ensures var read := DecryptVerify(sender, wire, receiver, parse).fields;
            && (k != Document && k != Delegation ==> FieldOf(read, k) == FieldOf(wire, k))
            && FieldOf(read, Delegation) == if Truthy(FieldOf(wire, Delegation)) then FieldOf(wire, Delegation) else Undefined
  {
    ReassembledRest(wire, OpenDocument(Unwrapped(wire), receiver, parse).value, k);
  }

  /** Nothing is decrypted under an `encryption` that is empty, or no object at all, nor without a key or text to decrypt: the document comes as it is. */
  lemma NothingToDecrypt(sender: Pem, wire: OMap<Name, Json>, receiver: Option<Pem>, parse: Json -> Option<Json>)
    requires VerifySignature(Unwrapped(wire), FieldOf(wire, Signature), sender) == Valid
    requires FieldOf(wire, Encryption) in {Undefined, Null, Arr([]), Obj([]), Str("")}
             || FieldOf(wire, Encryption).Bool? || FieldOf(wire, Encryption).Num?
             || receiver.None? || receiver == Some(NotPem(""))
             || !IsText(FieldOf(wire, Document)) || FieldOf(wire, Document) == Str("")
    ensures DecryptVerify(sender, wire, receiver, parse).Payload?
    ensures FieldOf(DecryptVerify(sender, wire, receiver, parse).fields, Document) == FieldOf(wire, Document)
  {
  }

  /** Under one that names no cipher, text that is there is refused to whoever gives a key. */
  lemma UnknownCipherRefused(sender: Pem, wire: OMap<Name, Json>, receiver: Option<Pem>, parse: Json -> Option<Json>)
    requires VerifySignature(Unwrapped(wire), FieldOf(wire, Signature), sender) == Valid
    requires var e := FieldOf(wire, Encryption);
             (e.Arr? && e.items != []) || (e.Obj? && e.fields != [] && Member(e, Algorithm) != Str("aes-256-gcm"))
    requires receiver.Some? && receiver.value != NotPem("") && IsText(FieldOf(wire, Document)) && FieldOf(wire, Document) != Str("")
    ensures DecryptVerify(sender, wire, receiver, parse) == Failed(UnsupportedEncryption)
  {
  }

  /** A signature that does not verify refuses the whole wire: by failing, or by throwing when it names no algorithm. */
  lemma RefusedWith(sender: Pem, wire: OMap<Name, Json>, receiver: Option<Pem>, parse: Json -> Option<Json>)
    requires sender.PublicPem?
    ensures var signature, refused := FieldOf(wire, Signature), DecryptVerify(sender, wire, receiver, parse);
            var hash := Member(signature, AlgorithmHash);
            && (!hash.Str? ==> refused == Rejected)
            && (hash.Str? && Member(signature, Fingerprint) != FingerprintText(hash.s, sender.key) ==> refused == Failed(SignatureMismatch))
            && (hash.Str? && Member(signature, Fingerprint) == FingerprintText(hash.s, sender.key)
                && Member(signature, Value) != SignatureText(hash.s, sender.key, Obj(SerializeFields(Unwrapped(wire)))) ==>
                  refused == Failed(SignatureVerification))
  {
    VerifiesIff(Unwrapped(wire), FieldOf(wire, Signature), sender);
  }

  lemma ReassembledRest(wire: OMap<Name, Json>, data: Json, k: Name)
    ensures k != Document && k != Delegation ==> FieldOf(Reassembled(wire, data), k) == FieldOf(wire, k) || k == Signature
    ensures FieldOf(Reassembled(wire, data), Signature) == FieldOf(wire, Signature)
    ensures FieldOf(Reassembled(wire, data), Delegation) ==
              if Truthy(FieldOf(wire, Delegation)) then FieldOf(wire, Delegation) else Undefined
  {
  }
}
