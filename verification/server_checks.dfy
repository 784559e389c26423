/**
 The two checks the server makes of every artifact: whose signature it carries,
 and whether that sender is trusted. For agents the key comes from the trust
 record, or, while onboarding or rotating, from the document itself.
 */
module ServerChecks {
  import opened Wrappers
  import opened OrderedMap
  import opened Json
  import opened Crypto
  import opened Trust
  import A = Authentication
  import SE = SignEncrypt
  import opened Identity
  import D = Delegating

  type TrustStore = map<string, A.TrustRecord>

  const AUTH_REQUEST := Str("auth.request")
  const AUTH_REFRESH := Str("auth.refresh")
  const TRUST_REQ := Str("TRUST_REQ")
  const TRUST_RES := Str("TRUST_RES")

  function TextOf(j: Json): string {
    if j.Str? then j.s else ""
  }

  function RecordFor(store: TrustStore, sender: Json, receiver: Json): Option<A.TrustRecord> {
    var id := TrustId(TextOf(sender), TextOf(receiver));
    if id in store then Some(store[id]) else None
  }

  // ------------------------------------------------------------------------ agents

  /** `getAgentPublicKey`; a missing key is no record, a key without fingerprint throws. */
  function AgentPublicKey(store: TrustStore, artifact: OMap<Name, Json>): Crypto.Lookup {
    var action, document := FieldOf(artifact, Action), FieldOf(artifact, Document);
    var presented := Member(document, PublicKey);
    if action == AUTH_REQUEST then (if Truthy(presented) then Found(AsPem(presented)) else NoRecord)
    else
      match RecordFor(store, FieldOf(artifact, AgentId), FieldOf(artifact, To))
      case None => NoRecord
      case Some(r) =>
        if Truthy(document) && action == AUTH_REFRESH then
          if !Truthy(presented) then NoRecord
          else if FingerprintOf(AsPem(presented), HASH).None? then LookupThrows
          else if AsPem(presented).key != r.publicKeyFingerprint then Found(AsPem(presented))
          else Found(PublicPem(r.publicKey))
        else Found(PublicPem(r.publicKey))
  }

  /** A check against a looked-up key; without one, `missing` is the verdict. */
  function VerifyWith(found: Crypto.Lookup, message: OMap<Name, Json>, signature: Json, missing: Failure): Verdict {
    match found
    case LookupThrows => Invalid(Exception)
    case NoRecord => Invalid(missing)
    case Found(pem) => VerifySignature(message, signature, pem)
  }

  /** `verifyAgentSignature` */
  function VerifyAgentSignature(store: TrustStore, artifact: OMap<Name, Json>): Verdict {
    VerifyWith(AgentPublicKey(store, artifact), Remove(artifact, Signature), FieldOf(artifact, Signature), SignatureVerification)
  }

  /** `verifyAgentTrust` */
  predicate VerifyAgentTrust(store: TrustStore, artifact: OMap<Name, Json>, now: int) {
    || FieldOf(artifact, Action) == AUTH_REQUEST
    || IsTrustActive(RecordFor(store, FieldOf(artifact, AgentId), FieldOf(artifact, To)), now)
  }

  // ----------------------------------------------------------------- any artifact

  datatype Processed = Agent(artifact: OMap<Name, Json>) | Transporter(artifact: OMap<Name, Json>)

  /** `verifySignature` */
  function VerifyArtifact(store: TrustStore, dns: Resolver, data: Processed): Verdict {
    var a := data.artifact;
    if data.Agent? then VerifyAgentSignature(store, a)
    else if Truthy(FieldOf(a, Delegation)) then D.VerifyDelegation(a, dns)
    else VerifyWith(dns(FieldOf(a, From), FieldOf(a, Selector)), Remove(a, Signature), FieldOf(a, Signature), ResolvePublicKeyError)
  }

  /** `verifyTrust` */
  predicate VerifyTrust(store: TrustStore, data: Processed, now: int) {
    var a := data.artifact;
    var from, to, kind := FieldOf(a, From), FieldOf(a, To), FieldOf(a, Type);
    if data.Agent? then VerifyAgentTrust(store, a, now)
    else if kind == TRUST_RES then ValidateTrustResponse(TextOf(from), RecordFor(store, to, from)) == Allowed
    else if kind == TRUST_REQ then ValidateTrustRequest(RecordFor(store, from, to), now) == Allowed
    else IsTrustActive(RecordFor(store, from, to), now)
  }

  // ------------------------------------------------------------- signed by an agent

  /** A message with its signature, as sent or after a serialise/parse hop. */
  ghost predicate Signed(message: OMap<Name, Json>, keys: PemKeys, wire: OMap<Name, Json>) {
    Distinct(message) && SE.Delivers(message, keys, wire)
  }

  /** The check against a key succeeds exactly for the signer's own, over a message not signed before. */
  lemma SignedVerifies(message: OMap<Name, Json>, keys: PemKeys, wire: OMap<Name, Json>, pem: Pem)
    requires Signed(message, keys, wire)
    ensures VerifySignature(Remove(wire, Signature), FieldOf(wire, Signature), pem) == Valid <==>
              pem == keys.publicKey && keys.publicKey.key == keys.privateKey.key && !Defined(message, Signature)
  {
    var signature := Sign(message, keys).value;
    var sent := Put(message, Signature, signature);
    SignShape(message, keys);
    RemovePut(message, Signature, signature);
    SerializeGet(sent, Signature);
    SerializeRemove(sent, Signature);
    SerializeFieldsTwice(Remove(sent, Signature));
    RemoveShowsIfDefined(message, Signature);
    SignedVerifiesIff(message, keys, Remove(wire, Signature), pem);
  }

  lemma WireField(message: OMap<Name, Json>, keys: PemKeys, wire: OMap<Name, Json>, k: Name)
    requires Signed(message, keys, wire) && k != Signature
    ensures FieldOf(wire, k) == FieldOf(message, k) || FieldOf(wire, k) == Serialize(FieldOf(message, k))
  {
    SerializeGet(Put(message, Signature, Sign(message, keys).value), k);
  }

  /** The fields the server goes by: plain strings, and the key in the document. */
  ghost predicate Addressed(message: OMap<Name, Json>, agentId: string, to: string) {
    && FieldOf(message, AgentId) == Str(agentId) && FieldOf(message, To) == Str(to) && FieldOf(message, Action).Str?
    && (FieldOf(message, Document).Obj? ==> Distinct(FieldOf(message, Document).fields))
  }

  /** What the server reads off the wire is what the agent wrote. */
  lemma WireReads(message: OMap<Name, Json>, keys: PemKeys, wire: OMap<Name, Json>, agentId: string, to: string)
    requires Signed(message, keys, wire) && Addressed(message, agentId, to)
    ensures FieldOf(wire, AgentId) == Str(agentId) && FieldOf(wire, To) == Str(to)
    ensures FieldOf(wire, Action) == FieldOf(message, Action)
    ensures Truthy(FieldOf(wire, Document)) <==> Truthy(FieldOf(message, Document))
    ensures var was, read := Member(FieldOf(message, Document), PublicKey), Member(FieldOf(wire, Document), PublicKey);
            (Truthy(read) <==> Truthy(was)) && AsPem(read) == AsPem(was)
  {
    WireField(message, keys, wire, AgentId);
    WireField(message, keys, wire, To);
    WireField(message, keys, wire, Action);
    WireField(message, keys, wire, Document);
    var document := FieldOf(message, Document);
    SerializeTwice(document);
    if document.Obj? {
      SerializeGet(document.fields, PublicKey);
      SerializeTwice(Member(document, PublicKey));
    }
  }

  /** The key the server will use for a message from an agent with trust record `r`. */
  function ExpectedKey(r: A.TrustRecord, message: OMap<Name, Json>): Crypto.Lookup {
    var presented := Member(FieldOf(message, Document), PublicKey);
    if FieldOf(message, Action) == AUTH_REFRESH && Truthy(FieldOf(message, Document)) then
      if !Truthy(presented) then NoRecord
      else if !AsPem(presented).PublicPem? then LookupThrows
      else if AsPem(presented).key == r.publicKeyFingerprint then Found(PublicPem(r.publicKey))
      else Found(AsPem(presented))
    else Found(PublicPem(r.publicKey))
  }

  /** A known agent's message is accepted exactly when the key expected for it is the one that signed. */
  lemma AgentSignatureAcceptedIff(
    store: TrustStore, message: OMap<Name, Json>, keys: PemKeys, wire: OMap<Name, Json>, agentId: string, to: string)
    requires Signed(message, keys, wire) && Addressed(message, agentId, to)
    requires TrustId(agentId, to) in store && FieldOf(message, Action) != AUTH_REQUEST
    ensures VerifyAgentSignature(store, wire) == Valid <==>
              && ExpectedKey(store[TrustId(agentId, to)], message) == Found(keys.publicKey)
              && keys.publicKey.key == keys.privateKey.key && !Defined(message, Signature)
  {
    WireReads(message, keys, wire, agentId, to);
    var found := AgentPublicKey(store, wire);
    assert found == ExpectedKey(store[TrustId(agentId, to)], message);
    if found.Found? {
      SignedVerifies(message, keys, wire, found.pem);
    }
  }

  /** An onboarding agent's message is accepted exactly when the document's own key signed it, and always trusted. */
  lemma OnboardingAcceptedIff(
    store: TrustStore, message: OMap<Name, Json>, keys: PemKeys, wire: OMap<Name, Json>, agentId: string, to: string, now: int)
    requires Signed(message, keys, wire) && Addressed(message, agentId, to) && FieldOf(message, Action) == Str("auth.request")
    ensures VerifyAgentTrust(store, wire, now)
    ensures VerifyAgentSignature(store, wire) == Valid <==>
              && AsPem(Member(FieldOf(message, Document), PublicKey)) == keys.publicKey
              && keys.publicKey.key == keys.privateKey.key && !Defined(message, Signature)
  {
    WireReads(message, keys, wire, agentId, to);
    var found := AgentPublicKey(store, wire);
    if found.Found? {
      SignedVerifies(message, keys, wire, found.pem);
    }
  }

  // -------------------------------------------------- agents just created or renewed

  /** The call that made or renewed the record of `agentId` for `user`. */
  predicate Grants(c: A.Config, h: A.History, e: A.Event, agentId: string, user: string) {
    && A.Apply(c, h.auth, e.op, e.now).1.Issued?
    && (if e.op.CreateAgent? then TrustId(e.op.agentId, e.op.user) == TrustId(agentId, user)
        else A.Renews(c, h, e, TrustId(agentId, user)))
  }

  /** Fingerprint and key of every record belong together. */
  ghost predicate KeysAgree(store: TrustStore) {
    forall id :: id in store ==> store[id].publicKey == store[id].publicKeyFingerprint
  }

  lemma {:induction false} KeysAgreeAlways(c: A.Config, h: A.History, events: seq<A.Event>)
    requires KeysAgree(h.auth.trust)
    ensures KeysAgree(A.Run(c, h, events).auth.trust)
    decreases |events|
  {
    if events != [] {
      var e, h' := events[0], A.Step(c, h, events[0]);
      forall id | id in h'.auth.trust ensures h'.auth.trust[id].publicKey == h'.auth.trust[id].publicKeyFingerprint {
        if id in h.auth.trust {
          A.StepRecord(c, h, e, id);
        }
      }
      KeysAgreeAlways(c, h', events[1..]);
    }
  }

  /** The record a grant leaves: accepted, until the expiry the agent was told. */
  lemma GrantedRecord(c: A.Config, h: A.History, e: A.Event, agentId: string, user: string)
    requires Grants(c, h, e, agentId, user)
    ensures var id, store := TrustId(agentId, user), A.Step(c, h, e).auth.trust;
            && id in store && store[id].status == Accepted
            && store[id].expiresAt == Some(A.Apply(c, h.auth, e.op, e.now).1.expiresAt)
            && (e.op.CreateAgent? ==> store[id].publicKey == e.op.pem.key)
            && (e.op.Reissue? && A.Given(e.op.publicKey) && KeysAgree(h.auth.trust) ==>
                  id in h.auth.trust && store[id].publicKey == e.op.publicKey.value.key)
  {
    if e.op.Reissue? {
      A.StepRecord(c, h, e, TrustId(agentId, user));
    }
  }

  predicate NoRenewal(c: A.Config, h: A.History, events: seq<A.Event>, id: string)
    decreases |events|
  {
    events != [] ==> !A.Renews(c, h, events[0], id) && NoRenewal(c, A.Step(c, h, events[0]), events[1..], id)
  }

  /** The same record but for its key history, which rejected renewals may lengthen. */
  predicate SameButHistory(r: A.TrustRecord, r': A.TrustRecord) {
    r'.(keyHistory := r.keyHistory) == r
  }

  lemma {:induction false} UnrenewedStays(c: A.Config, h: A.History, events: seq<A.Event>, id: string)
    requires id in h.auth.trust && NoRenewal(c, h, events, id)
    ensures id in A.Run(c, h, events).auth.trust && SameButHistory(h.auth.trust[id], A.Run(c, h, events).auth.trust[id])
    decreases |events|
  {
    if events != [] {
      A.StepRecord(c, h, events[0], id);
      UnrenewedStays(c, A.Step(c, h, events[0]), events[1..], id);
    }
  }

  /**
   From the grant on, whatever other calls follow, the agent is trusted up to
   and including the expiry it was told, and at no later time until renewed.
   */
  lemma TrustedUntilExpiry(
    c: A.Config, h: A.History, e: A.Event, after: seq<A.Event>, agentId: string, user: string, artifact: OMap<Name, Json>, t: int)
    requires Grants(c, h, e, agentId, user) && NoRenewal(c, A.Step(c, h, e), after, TrustId(agentId, user))
    requires FieldOf(artifact, AgentId) == Str(agentId) && FieldOf(artifact, To) == Str(user)
    requires FieldOf(artifact, Action) != AUTH_REQUEST
    ensures VerifyAgentTrust(A.Run(c, A.Step(c, h, e), after).auth.trust, artifact, t) <==>
              t <= A.Apply(c, h.auth, e.op, e.now).1.expiresAt
  {
    GrantedRecord(c, h, e, agentId, user);
    UnrenewedStays(c, A.Step(c, h, e), after, TrustId(agentId, user));
  }

  /** Signed with the key on record, or a renewal signed with the key it brings. */
  predicate CorrectlySigned(r: A.TrustRecord, message: OMap<Name, Json>, keys: PemKeys) {
    && keys.publicKey.PublicPem? && keys.privateKey == PrivatePem(keys.publicKey.key)
    && !Defined(message, Signature)
    && if FieldOf(message, Action) == AUTH_REFRESH && Truthy(FieldOf(message, Document))
       then Member(FieldOf(message, Document), PublicKey) == PemText(keys.publicKey)
       else keys.publicKey == PublicPem(r.publicKey)
  }

  /** From the grant on, every correctly signed message to the agent's user passes, rotations included. */
  lemma SignaturesAccepted(
    c: A.Config, h: A.History, e: A.Event, after: seq<A.Event>, agentId: string, user: string,
    message: OMap<Name, Json>, keys: PemKeys, wire: OMap<Name, Json>)
    requires KeysAgree(h.auth.trust)
    requires Grants(c, h, e, agentId, user) && NoRenewal(c, A.Step(c, h, e), after, TrustId(agentId, user))
    requires Signed(message, keys, wire) && Addressed(message, agentId, user) && FieldOf(message, Action) != AUTH_REQUEST
    requires TrustId(agentId, user) in A.Step(c, h, e).auth.trust
    requires CorrectlySigned(A.Step(c, h, e).auth.trust[TrustId(agentId, user)], message, keys)
    ensures VerifyAgentSignature(A.Run(c, A.Step(c, h, e), after).auth.trust, wire) == Valid
  {
    var id, store := TrustId(agentId, user), A.Run(c, A.Step(c, h, e), after).auth.trust;
    UnrenewedStays(c, A.Step(c, h, e), after, id);
    KeysAgreeAlways(c, h, [e]);
    assert A.Run(c, h, [e]) == A.Step(c, h, e);
    CorrectlySignedPasses(store, A.Step(c, h, e).auth.trust[id], message, keys, wire, agentId, user);
  }

  lemma CorrectlySignedPasses(
    store: TrustStore, r: A.TrustRecord, message: OMap<Name, Json>, keys: PemKeys, wire: OMap<Name, Json>, agentId: string, user: string)
    requires Signed(message, keys, wire) && Addressed(message, agentId, user) && FieldOf(message, Action) != AUTH_REQUEST
    requires TrustId(agentId, user) in store && SameButHistory(r, store[TrustId(agentId, user)])
    requires r.publicKey == r.publicKeyFingerprint && CorrectlySigned(r, message, keys)
    ensures VerifyAgentSignature(store, wire) == Valid
  {
    AgentSignatureAcceptedIff(store, message, keys, wire, agentId, user);
  }

  /** Once the record holds another key, a message under the old one is refused, unless it is itself a renewal. */
  lemma ReplacedKeyRefused(
    store: TrustStore, message: OMap<Name, Json>, replaced: PemKeys, wire: OMap<Name, Json>, agentId: string, user: string)
    requires Signed(message, replaced, wire) && Addressed(message, agentId, user)
    requires TrustId(agentId, user) in store && PublicPem(store[TrustId(agentId, user)].publicKey) != replaced.publicKey
    requires FieldOf(message, Action) != AUTH_REQUEST && FieldOf(message, Action) != AUTH_REFRESH
    ensures VerifyAgentSignature(store, wire) != Valid
  {
    AgentSignatureAcceptedIff(store, message, replaced, wire, agentId, user);
  }

  // --------------------------------------------------------------- what agents send

  /** `getAgentArtifact`: the object as its fields are assigned, before it is signed. */
  function AgentArtifact(
    action: string, agentId: string, to: string, document: Option<Json>, id: string, issuedAt: string, version: string): OMap<Name, Json>
  {
    [Entry(Action, Str(action)), Entry(AgentId, Str(agentId)), Entry(To, Str(to))]
    + (if document.Some? then [Entry(Document, document.value)] else [])
    + [Entry(Encryption, Null), Entry(Id, Str(id)), Entry(IssuedAt, Str(issuedAt)), Entry(Version, Str(version))]
  }

  /** It is a message of the kind the results above are about. */
  lemma AgentArtifactAddressed(
    action: string, agentId: string, to: string, document: Option<Json>, id: string, issuedAt: string, version: string)
    requires document.Some? && document.value.Obj? ==> Distinct(document.value.fields)
    ensures var m := AgentArtifact(action, agentId, to, document, id, issuedAt, version);
            && Distinct(m) && !Defined(m, Signature) && Addressed(m, agentId, to)
            && FieldOf(m, Action) == Str(action)
            && FieldOf(m, Encryption).Null? && FieldOf(m, Id) == Str(id) && FieldOf(m, IssuedAt) == Str(issuedAt)
            && FieldOf(m, Version) == Str(version)
            && FieldOf(m, Document) == if document.Some? then document.value else Undefined
  {
    var m := AgentArtifact(action, agentId, to, document, id, issuedAt, version);
    PairwiseDistinct(m);
    Absent(m, Signature);
    EntryGet(m, 0);
    EntryGet(m, 1);
    EntryGet(m, 2);
    EntryGet(m, |m| - 4);
    EntryGet(m, |m| - 3);
    EntryGet(m, |m| - 2);
    EntryGet(m, |m| - 1);
    if document.Some? {
      EntryGet(m, 3);
    } else {
      Absent(m, Document);
    }
  }

  // --------------------------------------------------------- what transporters send

  lemma TransporterAcceptedIff(
    doc: OMap<Name, Json>, keys: PemKeys, wire: OMap<Name, Json>, store: TrustStore, dns: Resolver, from: string, selector: string)
    requires Signed(doc, keys, wire) && SE.Unsigned(doc)
    requires FieldOf(doc, From) == Str(from) && FieldOf(doc, Selector) == Str(selector)
    ensures VerifyArtifact(store, dns, Transporter(wire)) == Valid <==>
              dns(Str(from), Str(selector)) == Found(keys.publicKey) && keys.publicKey.key == keys.privateKey.key
  {
    WireField(doc, keys, wire, From);
    WireField(doc, keys, wire, Selector);
    WireField(doc, keys, wire, Delegation);
    var found := dns(Str(from), Str(selector));
    if found.Found? {
      SignedVerifies(doc, keys, wire, found.pem);
    }
  }

  /** What `signEncrypt` makes passes the server's check exactly if the sender's selector resolves to its key. */
  lemma SealedArtifactAcceptedIff(c: SE.Call, wire: OMap<Name, Json>, store: TrustStore, dns: Resolver, from: string, selector: string)
    requires Distinct(c.payload) && SE.Unsigned(c.payload) && SE.Arrives(c, wire)
    requires FieldOf(c.payload, From) == Str(from) && FieldOf(c.payload, Selector) == Str(selector)
    ensures VerifyArtifact(store, dns, Transporter(wire)) == Valid <==>
              dns(Str(from), Str(selector)) == Found(c.keys.publicKey) && c.keys.publicKey.key == c.keys.privateKey.key
  {
    SE.ArrivesDelivers(c, wire);
    SE.SealedDocFields(c);
    SE.SealedDocOther(c, From);
    SE.SealedDocOther(c, Selector);
    TransporterAcceptedIff(SE.SealedDoc(c), c.keys, wire, store, dns, from, selector);
  }

  // -------------------------------------------------------------------------- trust

  /**
   Between two identities at any moment, a request for trust and an ordinary
   artifact are never both let through, and neither is while the sender is blocked.
   */
  lemma RequestOrMessage(store: TrustStore, request: OMap<Name, Json>, message: OMap<Name, Json>, now: int)
    requires FieldOf(request, From) == FieldOf(message, From) && FieldOf(request, To) == FieldOf(message, To)
    requires FieldOf(request, Type) == TRUST_REQ && FieldOf(message, Type) != TRUST_REQ && FieldOf(message, Type) != TRUST_RES
    ensures !(VerifyTrust(store, Transporter(request), now) && VerifyTrust(store, Transporter(message), now))
    ensures var r := RecordFor(store, FieldOf(request, From), FieldOf(request, To));
            r.Some? && r.value.status.Blocked? ==>
              !VerifyTrust(store, Transporter(request), now) && !VerifyTrust(store, Transporter(message), now)
  {
  }

  // -------------------------------------------------------------- by kind, spelt out

  /** The record the store has under the lower-cased pair. */
  predicate HasRecord(store: TrustStore, sender: string, receiver: string, r: A.TrustRecord) {
    TrustId(sender, receiver) in store && store[TrustId(sender, receiver)] == r
  }

  /** An ordinary artifact is trusted exactly while its sender's record for the receiver is accepted and has not run out. */
  lemma OrdinaryTrustedIff(store: TrustStore, artifact: OMap<Name, Json>, from: string, to: string, now: int)
    requires FieldOf(artifact, From) == Str(from) && FieldOf(artifact, To) == Str(to)
    requires FieldOf(artifact, Type) != Str("TRUST_REQ") && FieldOf(artifact, Type) != Str("TRUST_RES")
    ensures VerifyTrust(store, Transporter(artifact), now) <==>
              && TrustId(from, to) in store
              && var r := store[TrustId(from, to)];
                 r.status == Accepted && (r.expiresAt.Some? ==> now <= r.expiresAt.value)
  {
  }

  /** A trust request is let through unless trust is active, the sender is blocked, or a retry date is still to come. */
  lemma RequestTrustedIff(store: TrustStore, artifact: OMap<Name, Json>, from: string, to: string, now: int)
    requires FieldOf(artifact, From) == Str(from) && FieldOf(artifact, To) == Str(to) && FieldOf(artifact, Type) == Str("TRUST_REQ")
    ensures VerifyTrust(store, Transporter(artifact), now) <==>
              TrustId(from, to) in store ==>
                var r := store[TrustId(from, to)];
                && !(r.status == Accepted && (r.expiresAt.Some? ==> now <= r.expiresAt.value))
                && r.status != Blocked
                && (r.retryAfterDate.Some? ==> r.retryAfterDate.value <= now)
  {
  }

  /** A trust response is let through exactly if the record of the request it answers, filed the other way round, is pending and names the responder. */
  lemma ResponseTrustedIff(store: TrustStore, artifact: OMap<Name, Json>, from: string, to: string, now: int)
    requires FieldOf(artifact, From) == Str(from) && FieldOf(artifact, To) == Str(to) && FieldOf(artifact, Type) == Str("TRUST_RES")
    ensures VerifyTrust(store, Transporter(artifact), now) <==>
              && TrustId(to, from) in store
              && store[TrustId(to, from)].status == Pending && store[TrustId(to, from)].receiverId == from
  {
  }

  /** An agent is trusted exactly if it onboards, or its record for the receiver is accepted and has not run out. */
  lemma AgentTrustedIff(store: TrustStore, artifact: OMap<Name, Json>, agentId: string, to: string, now: int)
    requires FieldOf(artifact, AgentId) == Str(agentId) && FieldOf(artifact, To) == Str(to)
    ensures VerifyTrust(store, Agent(artifact), now) <==>
              FieldOf(artifact, Action) == Str("auth.request") ||
              (TrustId(agentId, to) in store
               && var r := store[TrustId(agentId, to)];
                  r.status == Accepted && (r.expiresAt.Some? ==> now <= r.expiresAt.value))
  {
  }

  /** Whose key an agent's signature is checked with: its document's while onboarding or when that is new, the record's otherwise. */
  lemma KeyOfAgent(store: TrustStore, artifact: OMap<Name, Json>, agentId: string, to: string, r: A.TrustRecord)
    requires FieldOf(artifact, AgentId) == Str(agentId) && FieldOf(artifact, To) == Str(to) && HasRecord(store, agentId, to, r)
    ensures var presented := Member(FieldOf(artifact, Document), PublicKey);
            var action := FieldOf(artifact, Action);
            var found := AgentPublicKey(store, artifact);
            && (action == Str("auth.request") ==> found == if Truthy(presented) then Found(AsPem(presented)) else NoRecord)
            && (action == Str("auth.refresh") && Truthy(FieldOf(artifact, Document)) ==>
                  found == if !Truthy(presented) then NoRecord
                           else if !AsPem(presented).PublicPem? then LookupThrows
                           else if AsPem(presented).key == r.publicKeyFingerprint then Found(PublicPem(r.publicKey))
                           else Found(AsPem(presented)))
            && (action != Str("auth.request") && (action != Str("auth.refresh") || !Truthy(FieldOf(artifact, Document))) ==>
                  found == Found(PublicPem(r.publicKey)))
  {
  }

  /** Without a record or a key there is nothing to check with, and the verdict says so. */
  lemma NothingToCheckWith(store: TrustStore, dns: Resolver, artifact: OMap<Name, Json>, agentId: string, to: string)
    requires FieldOf(artifact, AgentId) == Str(agentId) && FieldOf(artifact, To) == Str(to)
    ensures FieldOf(artifact, Action) != Str("auth.request") && TrustId(agentId, to) !in store ==>
              VerifyArtifact(store, dns, Agent(artifact)) == Invalid(SignatureVerification)
    ensures FieldOf(artifact, Action) == Str("auth.request") && !Truthy(Member(FieldOf(artifact, Document), PublicKey)) ==>
              VerifyArtifact(store, dns, Agent(artifact)) == Invalid(SignatureVerification)
    ensures !Truthy(FieldOf(artifact, Delegation)) && dns(FieldOf(artifact, From), FieldOf(artifact, Selector)).NoRecord? ==>
              VerifyArtifact(store, dns, Transporter(artifact)) == Invalid(ResolvePublicKeyError)
    ensures !Truthy(FieldOf(artifact, Delegation)) && dns(FieldOf(artifact, From), FieldOf(artifact, Selector)).LookupThrows? ==>
              VerifyArtifact(store, dns, Transporter(artifact)) == Invalid(Exception)
  {
  }

  /** A delegated artifact is judged by its delegation. */
  lemma DelegatedIsJudgedByDelegation(store: TrustStore, dns: Resolver, artifact: OMap<Name, Json>)
    requires Truthy(FieldOf(artifact, Delegation))
    ensures VerifyArtifact(store, dns, Transporter(artifact)) == Valid ==> IsDelegationAllowed(artifact)
    ensures VerifyArtifact(store, dns, Transporter(artifact)) == D.VerifyDelegation(artifact, dns)
  {
  }
}
