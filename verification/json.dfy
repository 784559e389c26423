/**
 JavaScript values as far as signing sees them. Objects keep the order of their
 fields, because `JSON.stringify` does. Text made by cryptography is symbolic:
 a term that holds the key and the message it came from.
 */
module Json {
  import opened OrderedMap

  /** A PEM string: an SPKI public key, a private key, or text that is neither. */
  datatype Pem = PublicPem(key: nat) | PrivatePem(key: nat) | NotPem(text: string)

  /** Field names: those the code mentions, and any other. */
  datatype Name =
    | Id | IssuedAt | Version | Type | From | To | Selector | Document | Encryption | Delegation | Signature
    | AlgorithmHash | Value | Fingerprint
    | Algorithm | EncryptedKey | Iv | AuthTag
    | AgentId | AgentPubKey | SignedBy | Attestation
    | Action | PublicKey
    | Other(name: string)

  datatype Json =
    | Undefined
    | Null
    | Bool(b: bool)
    | Num(n: int)
    | Str(s: string)
    | Arr(items: seq<Json>)
    | Obj(fields: OMap<Name, Json>)
    | PublicKeyText(key: nat)
    | PrivateKeyText(key: nat)
    | FingerprintText(hash: string, key: nat)
    | SignatureText(hash: string, key: nat, message: Json)
    | WrappedKey(receiver: nat, aes: nat)
    | IvText(iv: nat)
    | CipherText(aes: nat, iv: nat, plain: Json)
    | AuthTagText(aes: nat, iv: nat, plain: Json)

  /** A PEM string as a value, and a value as a PEM string. */
  function PemText(pem: Pem): Json {
    match pem
    case PublicPem(key) => PublicKeyText(key)
    case PrivatePem(key) => PrivateKeyText(key)
    case NotPem(text) => Str(text)
  }

  function AsPem(j: Json): Pem {
    match j
    case PublicKeyText(key) => PublicPem(key)
    case PrivateKeyText(key) => PrivatePem(key)
    case Str(s) => NotPem(s)
    case _ => NotPem("?")
  }

  /** `typeof j === 'string'` */
  predicate IsText(j: Json) {
    !(j.Undefined? || j.Null? || j.Bool? || j.Num? || j.Arr? || j.Obj?)
  }

  predicate Truthy(j: Json) {
    !(j.Undefined? || j.Null? || j == Bool(false) || j == Num(0) || j == Str(""))
  }

  /** lodash `isEmpty` */
  predicate IsEmpty(j: Json) {
    match j
    case Arr(items) => items == []
    case Obj(fields) => fields == []
    case Str(s) => s == ""
    case _ => !IsText(j)
  }

  /** `m.k`, undefined when absent. */
  function FieldOf(m: OMap<Name, Json>, k: Name): Json {
    if Has(m, k) then Get(m, k).value else Undefined
  }

  /** `j?.k` */
  function Member(j: Json, k: Name): Json {
    if j.Obj? then FieldOf(j.fields, k) else Undefined
  }

  /** `j ?? d` */
  function OrElse(j: Json, d: Json): Json {
    if j.Undefined? || j.Null? then d else j
  }

  /**
   What `JSON.stringify` writes and `JSON.parse` reads back: the same ordered
   tree without undefined fields, undefined array items read as null.
   */
  function Serialize(j: Json): Json
    decreases j, 0
  {
    match j
    case Obj(fields) => Obj(SerializeFields(fields))
    case Arr(items) => Arr(SerializeItems(items))
    case _ => j
  }

  function SerializeFields(m: OMap<Name, Json>): OMap<Name, Json>
    decreases m, 0
  {
    if m == [] then []
    else
      assert m[0].val < m[0];
      if m[0].val.Undefined? then SerializeFields(m[1..])
      else [Entry(m[0].key, Serialize(m[0].val))] + SerializeFields(m[1..])
  }

  function SerializeItems(items: seq<Json>): seq<Json>
    decreases items, 0
  {
    if items == [] then []
    else [if items[0].Undefined? then Null else Serialize(items[0])] + SerializeItems(items[1..])
  }

  /** The field is there and not undefined. */
  predicate Defined(m: OMap<Name, Json>, k: Name) {
    !FieldOf(m, k).Undefined?
  }

  /** Every value is text. */
  predicate AllText(m: OMap<Name, Json>) {
    forall i :: 0 <= i < |m| ==> IsText(m[i].val)
  }

  // ------------------------------------------------ serialising and field surgery

  lemma {:induction false} TextSerializes(m: OMap<Name, Json>)
    requires AllText(m)
    ensures SerializeFields(m) == m
  {
    if m != [] {
      assert AllText(m[1..]);
      TextSerializes(m[1..]);
    }
  }

  lemma {:induction false} SerializeTwice(j: Json)
    ensures Serialize(Serialize(j)) == Serialize(j)
    ensures Serialize(j).Undefined? <==> j.Undefined?
    ensures Truthy(Serialize(j)) <==> Truthy(j)
    ensures IsText(Serialize(j)) <==> IsText(j)
    decreases j, 0
  {
    match j
    case Obj(fields) => SerializeFieldsTwice(fields);
    case Arr(items) => SerializeItemsTwice(items);
    case _ =>
  }

  lemma {:induction false} SerializeFieldsTwice(m: OMap<Name, Json>)
    ensures SerializeFields(SerializeFields(m)) == SerializeFields(m)
    decreases m, 0
  {
    if m != [] {
      assert m[0].val < m[0];
      SerializeTwice(m[0].val);
      SerializeFieldsTwice(m[1..]);
      if !m[0].val.Undefined? {
        assert SerializeFields(m)[1..] == SerializeFields(m[1..]);
      }
    }
  }

  lemma {:induction false} SerializeItemsTwice(items: seq<Json>)
    ensures SerializeItems(SerializeItems(items)) == SerializeItems(items)
    decreases items, 0
  {
    if items != [] {
      SerializeTwice(items[0]);
      SerializeItemsTwice(items[1..]);
      assert SerializeItems(items)[1..] == SerializeItems(items[1..]);
    }
  }

  lemma {:induction false} SerializeRemove(m: OMap<Name, Json>, k: Name)
    ensures SerializeFields(Remove(m, k)) == Remove(SerializeFields(m), k)
  {
    if m != [] {
      SerializeRemove(m[1..], k);
    }
  }

  lemma {:induction false} SerializeGet(m: OMap<Name, Json>, k: Name)
    requires Distinct(m)
    ensures FieldOf(SerializeFields(m), k) == Serialize(FieldOf(m, k))
    ensures Has(SerializeFields(m), k) <==> Defined(m, k)
    ensures Distinct(SerializeFields(m))
  {
    if m != [] {
      SerializeGet(m[1..], k);
      SerializeGet(m[1..], m[0].key);
      SerializeTwice(m[0].val);
    }
  }

  /** Overwriting a field that is there, or adding one that is not, commutes with serialising. */
  lemma {:induction false} SerializePut(m: OMap<Name, Json>, k: Name, v: Json)
    requires !v.Undefined? && (Has(m, k) ==> Defined(m, k))
    ensures SerializeFields(Put(m, k, v)) == Put(SerializeFields(m), k, Serialize(v))
  {
    if m != [] && m[0].key != k {
      SerializePut(m[1..], k, v);
    }
  }

  /** Dropping a field shows in the serialised object exactly if the field was defined. */
  lemma RemoveShowsIfDefined(m: OMap<Name, Json>, k: Name)
    requires Distinct(m)
    ensures SerializeFields(Remove(m, k)) == SerializeFields(m) <==> !Defined(m, k)
  {
    SerializeRemove(m, k);
    SerializeGet(m, k);
  }

  /** In an array every item is written, undefined as null, and the length stays. */
  lemma {:induction false} ItemsAreWritten(items: seq<Json>)
    ensures Serialize(Arr(items)).Arr? && |Serialize(Arr(items)).items| == |items|
    ensures forall i :: 0 <= i < |items| ==>
              Serialize(Arr(items)).items[i] == if items[i].Undefined? then Null else Serialize(items[i])
    decreases |items|
  {
    if items != [] {
      ItemsAreWritten(items[1..]);
    }
  }
}
