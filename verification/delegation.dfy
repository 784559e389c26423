/**
 Delegation: an agent signs an artifact, a delegator signs artifact plus
 delegation, and the server takes the two signatures apart again.
 */
module Delegating {
  import opened Wrappers
  import opened OrderedMap
  import opened Json
  import opened Crypto
  import opened Identity
  import opened SignEncrypt

  // ----------------------------------------------------------- making a delegation

  /** Who may act, in whose name, and where that name's key is published. */
  datatype Grant = Grant(agentId: string, agentPubKey: Pem, signedBy: string, issuedAt: string, selector: string)

  function Info(g: Grant): OMap<Name, Json> {
    [Entry(AgentId, Str(g.agentId)), Entry(AgentPubKey, PemText(g.agentPubKey)), Entry(SignedBy, Str(g.signedBy)),
     Entry(IssuedAt, Str(g.issuedAt)), Entry(Selector, Str(g.selector))]
  }

  /** `createDelegation` */
  function CreateDelegation(artifact: OMap<Name, Json>, g: Grant, keys: PemKeys): Result<OMap<Name, Json>, Failure> {
    match Sign(Put(artifact, Delegation, Obj(Info(g))), keys)
    case Err(e) => Err(e)
    case Ok(signature) => Ok(Put(Info(g), Signature, signature))
  }

  datatype Attestor = Attestor(signedBy: string, issuedAt: string, selector: string)

  function AttestationInfo(a: Attestor): OMap<Name, Json> {
    [Entry(SignedBy, Str(a.signedBy)), Entry(IssuedAt, Str(a.issuedAt)), Entry(Selector, Str(a.selector))]
  }

  /** `createAttestation` */
  function CreateAttestation(delegation: OMap<Name, Json>, a: Attestor, keys: PemKeys): Result<OMap<Name, Json>, Failure> {
    match Sign(Put(delegation, Attestation, Obj(AttestationInfo(a))), keys)
    case Err(e) => Err(e)
    case Ok(signature) => Ok(Put(AttestationInfo(a), Signature, signature))
  }

  datatype Delegator = Delegator(
    identity: string, privateKey: Pem, publicKey: Option<Pem>, selector: string, isInitialized: bool)

  /** The user a SaaS delegator acts for; the selector is what DNS says, if anything. */
  datatype OnBehalfOf = OnBehalfOf(identity: string, keyPair: PemKeys, selector: Option<string>)

  /** The agent asking, the two clock readings, and whether a user's key signs instead. */
  datatype Request = Request(
    agentId: string, agentPubKey: Pem, delegatedAt: string, attestedAt: string, onBehalfOf: Option<OnBehalfOf>)

  function GrantFor(d: Delegator, r: Request): Grant {
    match r.onBehalfOf
    case None => Grant(r.agentId, r.agentPubKey, d.identity, r.delegatedAt, d.selector)
    case Some(u) =>
      Grant(r.agentId, r.agentPubKey, u.identity, r.delegatedAt, if u.selector.Some? then u.selector.value else "")
  }

  function OwnKeys(d: Delegator): PemKeys {
    PemKeys(if d.publicKey.Some? then d.publicKey.value else NotPem(""), d.privateKey)
  }

  function SigningKeys(d: Delegator, r: Request): PemKeys {
    if r.onBehalfOf.Some? then r.onBehalfOf.value.keyPair else OwnKeys(d)
  }

  function DelegateArtifact(d: Delegator, r: Request, artifact: OMap<Name, Json>): Result<OMap<Name, Json>, Failure> {
    var g := GrantFor(d, r);
    if !d.isInitialized || d.publicKey.None? then Err(Exception)
    else if r.onBehalfOf.Some? && r.onBehalfOf.value.selector.None? then Err(SignatureVerification)
    else
      match CreateDelegation(artifact, g, SigningKeys(d, r))
      case Err(e) => Err(e)
      case Ok(delegation) =>
        if r.onBehalfOf.None? then Ok(Put(artifact, Delegation, Obj(delegation)))
        else
          match CreateAttestation(delegation, Attestor(d.identity, r.attestedAt, g.selector), OwnKeys(d))
          case Err(e) => Err(e)
          case Ok(attestation) => Ok(Put(artifact, Delegation, Obj(Put(delegation, Attestation, Obj(attestation)))))
  }

  /** What DNS says of the delegator's own identity. */
  datatype HostLookup = HostSelector(selector: string) | NoHost | HostThrows

  /** `init`: a failed verification still leaves the selector it found behind. */
  function Initialise(d: Delegator, host: HostLookup, dns: Resolver): (Delegator, Result<bool, Failure>) {
    match host
    case HostThrows => (d, Err(Exception))
    case NoHost => (d, Err(SignatureVerification))
    case HostSelector(selector) =>
      var at := d.(selector := selector);
      match dns(Str(d.identity), Str(selector))
      case LookupThrows => (at, Err(Exception))
      case NoRecord => (at, Err(SignatureVerification))
      case Found(pem) =>
        if !d.privateKey.PrivatePem? || !pem.PublicPem? then (at, Err(Exception))
        else if d.privateKey.key != pem.key then (at, Err(SignatureVerification))
        else (at.(publicKey := Some(pem), isInitialized := true), Ok(true))
  }

  class BtpsDelegator {
    const identity: string
    const privateKey: Pem
    var publicKey: Option<Pem>
    var selector: string
    var isInitialized: bool

    function Model(): Delegator
      reads this
    {
      Delegator(identity, privateKey, publicKey, selector, isInitialized)
    }

    constructor (identity: string, privateKey: Pem)
      ensures Model() == Delegator(identity, privateKey, None, "btps1", false)
    {
      this.identity := identity;
      this.privateKey := privateKey;
      publicKey := None;
      selector := "btps1";
      isInitialized := false;
    }

    method VerifyDelegatorIdentity(host: HostLookup, dns: Resolver)
      returns (r: Result<(bool, Option<Pem>), Failure>)
      modifies this`selector
      ensures selector == if host.HostSelector? then host.selector else old(selector)
      ensures r ==
                if host.HostThrows? then Err(Exception)
                else if host.NoHost? then Ok((false, None))
                else
                  match dns(Str(identity), Str(host.selector))
                  case LookupThrows => Err(Exception)
                  case NoRecord => Ok((false, None))
                  case Found(pem) =>
                    if !privateKey.PrivatePem? || !pem.PublicPem? then Err(Exception)
                    else Ok((privateKey.key == pem.key, Some(pem)))
    {
      if host.HostThrows? {
        return Err(Exception);
      }
      if host.NoHost? {
        return Ok((false, None));
      }
      selector := host.selector;
      var found := dns(Str(identity), Str(selector));
      if found.LookupThrows? {
        return Err(Exception);
      }
      if found.NoRecord? {
        return Ok((false, None));
      }
      if !privateKey.PrivatePem? || !found.pem.PublicPem? {
        return Err(Exception);
      }
      return Ok((privateKey.key == found.pem.key, Some(found.pem)));
    }

    method Init(host: HostLookup, dns: Resolver) returns (r: Result<bool, Failure>)
      modifies this
      ensures (Model(), r) == Initialise(old(Model()), host, dns)
    {
      var verified := VerifyDelegatorIdentity(host, dns);
      if verified.Err? {
        return Err(verified.error);
      }
      if verified.value.1.None? || !verified.value.0 {
        return Err(SignatureVerification);
      }
      publicKey := verified.value.1;
      isInitialized := true;
      return Ok(true);
    }

    method Delegate(r: Request, artifact: OMap<Name, Json>) returns (delegated: Result<OMap<Name, Json>, Failure>)
      ensures delegated == DelegateArtifact(Model(), r, artifact)
    {
      if !isInitialized || publicKey.None? {
        return Err(Exception);
      }
      var at, signer, keys := selector, identity, PemKeys(publicKey.value, privateKey);
      if r.onBehalfOf.Some? {
        if r.onBehalfOf.value.selector.None? {
          return Err(SignatureVerification);
        }
        at := r.onBehalfOf.value.selector.value;
        signer := r.onBehalfOf.value.identity;
        keys := r.onBehalfOf.value.keyPair;
      }
      var created := CreateDelegation(artifact, Grant(r.agentId, r.agentPubKey, signer, r.delegatedAt, at), keys);
      if created.Err? {
        return Err(created.error);
      }
      var delegation := created.value;
      if r.onBehalfOf.Some? {
        var attested := CreateAttestation(delegation, Attestor(identity, r.attestedAt, at), PemKeys(publicKey.value, privateKey));
        if attested.Err? {
          return Err(attested.error);
        }
        delegation := Put(delegation, Attestation, Obj(attested.value));
      }
      return Ok(Put(artifact, Delegation, Obj(delegation)));
    }
  }

  /** An initialised delegator holds a matching key pair. */
  predicate Ready(d: Delegator) {
    d.isInitialized ==>
      && d.privateKey.PrivatePem? && d.publicKey.Some? && d.publicKey.value == PublicPem(d.privateKey.key)
  }

  /** No run of `init` calls, failed or not, ends initialised with a pair that does not match. */
  lemma {:induction false} ReadyAlways(d: Delegator, calls: seq<(HostLookup, Resolver)>)
    requires Ready(d)
    ensures Ready(InitRun(d, calls)) && (d.isInitialized ==> InitRun(d, calls).isInitialized)
    decreases |calls|
  {
    if calls != [] {
      ReadyAlways(Initialise(d, calls[0].0, calls[0].1).0, calls[1..]);
    }
  }

  function InitRun(d: Delegator, calls: seq<(HostLookup, Resolver)>): Delegator
    decreases |calls|
  {
    if calls == [] then d else InitRun(Initialise(d, calls[0].0, calls[0].1).0, calls[1..])
  }

  // -------------------------------------------------------- verifying a delegation

  /** A failed check is reported as `as`, but an exception stays one. */
  function Reported(v: Verdict, reason: Failure): Verdict {
    if v.Valid? || v.reason.Exception? then v else Invalid(reason)
  }

  /** The message an attestation signs, from the delegation it arrives in. */
  function AttestedMessage(delegation: OMap<Name, Json>): OMap<Name, Json> {
    var attestation := FieldOf(delegation, Attestation);
    Put(Remove(delegation, Attestation), Attestation,
        Obj(if attestation.Obj? then Remove(attestation.fields, Signature) else []))
  }

  /** `verifyAttestation` */
  function VerifyAttestation(delegation: OMap<Name, Json>, dns: Resolver): Verdict {
    var attestation := FieldOf(delegation, Attestation);
    match dns(Member(attestation, SignedBy), Member(attestation, Selector))
    case LookupThrows => Invalid(Exception)
    case NoRecord => Invalid(ResolvePublicKeyError)
    case Found(pem) =>
      Reported(VerifySignature(AttestedMessage(delegation), Member(attestation, Signature), pem), AttestationVerification)
  }

  /** The message a delegation signs, from the artifact that arrives. */
  function DelegatedMessage(artifact: OMap<Name, Json>, delegation: OMap<Name, Json>): OMap<Name, Json> {
    Put(artifact, Delegation, Obj(Remove(delegation, Signature)))
  }

  /** The message the agent signed: the artifact without delegation and signature. */
  function BareArtifact(artifact: OMap<Name, Json>): OMap<Name, Json> {
    Remove(Remove(artifact, Delegation), Signature)
  }

  /** The two signatures a delegated artifact stands on. */
  function VerifyBothSignatures(artifact: OMap<Name, Json>, delegation: OMap<Name, Json>, dns: Resolver): Verdict {
    match dns(FieldOf(delegation, SignedBy), FieldOf(delegation, Selector))
    case LookupThrows => Invalid(Exception)
    case NoRecord => Invalid(ResolvePublicKeyError)
    case Found(pem) =>
      var delegator := VerifySignature(DelegatedMessage(artifact, delegation), FieldOf(delegation, Signature), pem);
      if delegator != Valid then Reported(delegator, DelegationSignature)
      else
        Reported(VerifySignature(BareArtifact(artifact), FieldOf(artifact, Signature), AsPem(FieldOf(delegation, AgentPubKey))),
                 DelegationSignature)
  }

  /** `verifyDelegation` */
  function VerifyDelegation(artifact: OMap<Name, Json>, dns: Resolver): Verdict {
    var d := FieldOf(artifact, Delegation);
    if !IsDelegationAllowed(artifact) then Invalid(DelegationInvalid)
    else
      var attested := Truthy(Member(d, Attestation));
      if Member(d, SignedBy) == FieldOf(artifact, From) && !attested then Invalid(DelegationInvalid)
      else if attested && VerifyAttestation(d.fields, dns) != Valid then VerifyAttestation(d.fields, dns)
      else VerifyBothSignatures(artifact, d.fields, dns)
  }

  // ------------------------------------------------------------- what is on the wire

  /** A delegation as issued: all its text fields, then the signature. */
  lemma IssuedShape(g: Grant, signature: Json)
    requires signature.Obj? && Serialize(signature) == signature
    ensures var d := Put(Info(g), Signature, signature);
            && Distinct(d) && SerializeFields(d) == d && SerializeFields(Info(g)) == Info(g)
            && Remove(d, Signature) == Info(g)
            && FieldOf(d, Signature) == signature && Get(d, Attestation).None?
            && FieldOf(d, SignedBy) == Str(g.signedBy) && FieldOf(d, Selector) == Str(g.selector)
            && AsPem(FieldOf(d, AgentPubKey)) == g.agentPubKey
  {
    var info := Info(g);
    InfoShape(g);
    TextSerializes(info);
    RemovePut(info, Signature, signature);
    SerializePut(info, Signature, signature);
  }

  lemma InfoShape(g: Grant)
    ensures var i := Info(g);
            && Distinct(i) && AllText(i)
            && Get(i, Signature).None? && Get(i, Attestation).None?
            && FieldOf(i, SignedBy) == Str(g.signedBy) && FieldOf(i, Selector) == Str(g.selector)
            && AsPem(FieldOf(i, AgentPubKey)) == g.agentPubKey
  {
    var i := Info(g);
    PairwiseDistinct(i);
    Absent(i, Signature);
    Absent(i, Attestation);
    EntryGet(i, 1);
    EntryGet(i, 2);
    EntryGet(i, 4);
  }

  lemma AttestorShape(a: Attestor, signature: Json)
    requires signature.Obj? && Serialize(signature) == signature
    ensures var i, at := AttestationInfo(a), Put(AttestationInfo(a), Signature, signature);
            && Remove(at, Signature) == i && SerializeFields(at) == at
            && FieldOf(at, Signature) == signature
            && FieldOf(at, SignedBy) == Str(a.signedBy) && FieldOf(at, Selector) == Str(a.selector)
  {
    var i := AttestationInfo(a);
    PairwiseDistinct(i);
    Absent(i, Signature);
    EntryGet(i, 0);
    EntryGet(i, 2);
    TextSerializes(i);
    RemovePut(i, Signature, signature);
    SerializePut(i, Signature, signature);
  }

  // --------------------------------------------------------------- attestations

  lemma AttestedMessageIs(d: OMap<Name, Json>, attestation: OMap<Name, Json>)
    requires Get(d, Attestation).None?
    ensures var full := Put(d, Attestation, Obj(attestation));
            && FieldOf(full, Attestation) == Obj(attestation)
            && AttestedMessage(full) == Put(d, Attestation, Obj(Remove(attestation, Signature)))
  {
    RemovePut(d, Attestation, Obj(attestation));
  }

  lemma SealedAttestationIff(d: OMap<Name, Json>, attestation: OMap<Name, Json>, keys: PemKeys, dns: Resolver)
    requires Get(d, Attestation).None?
    requires var signed := Put(d, Attestation, Obj(Remove(attestation, Signature)));
             Sign(signed, keys).Ok? && FieldOf(attestation, Signature) == Sign(signed, keys).value
    ensures VerifyAttestation(Put(d, Attestation, Obj(attestation)), dns) == Valid <==>
              && dns(FieldOf(attestation, SignedBy), FieldOf(attestation, Selector)) == Found(keys.publicKey)
              && keys.publicKey.key == keys.privateKey.key
  {
    var signed := Put(d, Attestation, Obj(Remove(attestation, Signature)));
    AttestedMessageIs(d, attestation);
    var found := dns(FieldOf(attestation, SignedBy), FieldOf(attestation, Selector));
    if found.Found? {
      SignedVerifiesIff(signed, keys, signed, found.pem);
    }
  }

  /** What `createAttestation` makes passes `verifyAttestation` exactly if DNS has the attestor's own key there. */
  lemma AttestationVerifiesIff(delegation: OMap<Name, Json>, a: Attestor, keys: PemKeys, dns: Resolver)
    requires Get(delegation, Attestation).None? && CreateAttestation(delegation, a, keys).Ok?
    ensures var attestation := CreateAttestation(delegation, a, keys).value;
            VerifyAttestation(Put(delegation, Attestation, Obj(attestation)), dns) == Valid <==>
              dns(Str(a.signedBy), Str(a.selector)) == Found(keys.publicKey) && keys.publicKey.key == keys.privateKey.key
  {
    var signed := Put(delegation, Attestation, Obj(AttestationInfo(a)));
    SignShape(signed, keys);
    AttestorShape(a, Sign(signed, keys).value);
    SealedAttestationIff(delegation, CreateAttestation(delegation, a, keys).value, keys, dns);
  }

  // ---------------------------------------------------------------- delegations

  /** An artifact the agent signed. */
  function AgentSigned(message: OMap<Name, Json>, agent: PemKeys): OMap<Name, Json>
    requires Sign(message, agent).Ok?
  {
    Put(message, Signature, Sign(message, agent).value)
  }

  /** The artifact as it arrives: as built, or after a serialise/parse hop. */
  ghost predicate Hops(built: OMap<Name, Json>, wire: OMap<Name, Json>) {
    wire == built || wire == SerializeFields(built)
  }

  /** The delegator's message survives the hop: same serialised form as what was signed. */
  lemma DelegatorMessage(artifact: OMap<Name, Json>, delegation: OMap<Name, Json>, wire: OMap<Name, Json>)
    requires Distinct(artifact) && SerializeFields(delegation) == delegation
    requires Hops(Put(artifact, Delegation, Obj(delegation)), wire)
    ensures FieldOf(wire, Delegation) == Obj(delegation)
    ensures SerializeFields(DelegatedMessage(wire, delegation)) ==
              SerializeFields(Put(artifact, Delegation, Obj(Remove(delegation, Signature))))
  {
    var built, inner := Put(artifact, Delegation, Obj(delegation)), Obj(Remove(delegation, Signature));
    assert Serialize(Obj(delegation)) == Obj(delegation);
    SerializeGet(built, Delegation);
    PutPut(artifact, Delegation, Obj(delegation), inner);
    SerializeFieldsTwice(built);
    SerializePut(built, Delegation, inner);
    SerializePut(SerializeFields(built), Delegation, inner);
  }

  /** The agent's message is what it signed, less a delegation or signature it brought. */
  lemma AgentMessage(message: OMap<Name, Json>, signature: Json, delegation: Json, wire: OMap<Name, Json>)
    requires Distinct(message) && signature.Obj? && Serialize(signature) == signature
    requires Hops(Put(Put(message, Signature, signature), Delegation, delegation), wire)
    ensures FieldOf(wire, Signature) == signature
    ensures SerializeFields(BareArtifact(wire)) == SerializeFields(Unwrapped(message))
  {
    var built := Put(Put(message, Signature, signature), Delegation, delegation);
    RemovePut(Put(message, Signature, signature), Delegation, delegation);
    RemoveCommutes(Put(message, Signature, signature), Delegation, Signature);
    RemovePut(message, Signature, signature);
    assert BareArtifact(built) == Unwrapped(message);
    SerializeGet(built, Signature);
    SerializeRemove(built, Delegation);
    SerializeRemove(Remove(built, Delegation), Signature);
    SerializeFieldsTwice(BareArtifact(built));
  }

  lemma AllowedShape(wire: OMap<Name, Json>, delegation: OMap<Name, Json>, signedBy: string)
    requires FieldOf(wire, Delegation) == Obj(delegation) && FieldOf(delegation, SignedBy) == Str(signedBy)
    ensures IsDelegationAllowed(wire) <==> MayDelegate(FieldOf(wire, From), Str(signedBy))
  {
  }

  /** An artifact the agent signed, carrying delegation `d`, whose signature is over the artifact and the rest of `d`. */
  ghost predicate Carries(message: OMap<Name, Json>, agent: PemKeys, d: OMap<Name, Json>, keys: PemKeys, wire: OMap<Name, Json>) {
    && Distinct(message) && Sign(message, agent).Ok? && SerializeFields(d) == d
    && Sign(DelegatedMessage(AgentSigned(message, agent), d), keys).Ok?
    && FieldOf(d, Signature) == Sign(DelegatedMessage(AgentSigned(message, agent), d), keys).value
    && Hops(Put(AgentSigned(message, agent), Delegation, Obj(d)), wire)
  }

  lemma DelegatorVerifiesIff(message: OMap<Name, Json>, agent: PemKeys, d: OMap<Name, Json>, keys: PemKeys, wire: OMap<Name, Json>, pem: Pem)
    requires Carries(message, agent, d, keys, wire)
    ensures FieldOf(wire, Delegation) == Obj(d)
    ensures VerifySignature(DelegatedMessage(wire, d), FieldOf(d, Signature), pem) == Valid <==>
              pem == keys.publicKey && keys.publicKey.key == keys.privateKey.key
  {
    var artifact := AgentSigned(message, agent);
    DelegatorMessage(artifact, d, wire);
    SignedVerifiesIff(DelegatedMessage(artifact, d), keys, DelegatedMessage(wire, d), pem);
  }

  lemma AgentVerifiesIff(message: OMap<Name, Json>, agent: PemKeys, d: OMap<Name, Json>, keys: PemKeys, wire: OMap<Name, Json>, pem: Pem)
    requires Carries(message, agent, d, keys, wire)
    ensures VerifySignature(BareArtifact(wire), FieldOf(wire, Signature), pem) == Valid <==>
              pem == agent.publicKey && agent.publicKey.key == agent.privateKey.key && Unsigned(message)
  {
    SignShape(message, agent);
    AgentMessage(message, Sign(message, agent).value, Obj(d), wire);
    UnwrappedShows(message);
    SignedVerifiesIff(message, agent, BareArtifact(wire), pem);
  }

  /** Both signatures check out exactly when every key is its signer's own and the artifact brought none before. */
  lemma BothVerifyIff(message: OMap<Name, Json>, agent: PemKeys, d: OMap<Name, Json>, keys: PemKeys, wire: OMap<Name, Json>, dns: Resolver)
    requires Carries(message, agent, d, keys, wire)
    ensures VerifyBothSignatures(wire, d, dns) == Valid <==>
              && dns(FieldOf(d, SignedBy), FieldOf(d, Selector)) == Found(keys.publicKey)
              && keys.publicKey.key == keys.privateKey.key
              && AsPem(FieldOf(d, AgentPubKey)) == agent.publicKey
              && agent.publicKey.key == agent.privateKey.key
              && Unsigned(message)
  {
    AgentVerifiesIff(message, agent, d, keys, wire, AsPem(FieldOf(d, AgentPubKey)));
    var found := dns(FieldOf(d, SignedBy), FieldOf(d, Selector));
    if found.Found? {
      DelegatorVerifiesIff(message, agent, d, keys, wire, found.pem);
    }
  }

  /** The receiver of a delegated artifact checks the agent's signature: the sender's key passes exactly if it is the agent's own. */
  lemma ReceiverAcceptsIff(message: OMap<Name, Json>, agent: PemKeys, d: OMap<Name, Json>, keys: PemKeys, wire: OMap<Name, Json>, sender: Pem)
    requires Carries(message, agent, d, keys, wire)
    ensures VerifySignature(Unwrapped(wire), FieldOf(wire, Signature), sender) == Valid <==>
              sender == agent.publicKey && agent.publicKey.key == agent.privateKey.key && Unsigned(message)
  {
    RemoveCommutes(wire, Signature, Delegation);
    AgentVerifiesIff(message, agent, d, keys, wire, sender);
  }

  /** So `decryptVerify` hands a delegated artifact over, or fails over its document, exactly for that key; else over the signature. */
  lemma ReceiverReadsIff(
    message: OMap<Name, Json>, agent: PemKeys, d: OMap<Name, Json>, keys: PemKeys, wire: OMap<Name, Json>,
    sender: Pem, receiver: Option<Pem>, parse: Json -> Option<Json>)
    requires Carries(message, agent, d, keys, wire)
    ensures var document := OpenDocument(Unwrapped(wire), receiver, parse);
            var r := DecryptVerify(sender, wire, receiver, parse);
            if sender == agent.publicKey && agent.publicKey.key == agent.privateKey.key && Unsigned(message)
            then r == (if document.Ok? then Payload(Reassembled(wire, document.value)) else Failed(document.error))
            else !r.Payload?
  {
    ReceiverAcceptsIff(message, agent, d, keys, wire, sender);
  }

  /** The sender is read the same before and after the hop, as far as delegation goes. */
  lemma SenderKept(message: OMap<Name, Json>, signature: Json, delegation: Json, wire: OMap<Name, Json>, signedBy: string)
    requires Distinct(message)
    requires Hops(Put(Put(message, Signature, signature), Delegation, delegation), wire)
    ensures MayDelegate(FieldOf(wire, From), Str(signedBy)) <==> MayDelegate(FieldOf(message, From), Str(signedBy))
    ensures FieldOf(wire, From) == Str(signedBy) <==> FieldOf(message, From) == Str(signedBy)
  {
    SerializeGet(Put(Put(message, Signature, signature), Delegation, delegation), From);
  }

  lemma OwnDelegationCarries(d: Delegator, r: Request, message: OMap<Name, Json>, agent: PemKeys, wire: OMap<Name, Json>)
    requires Distinct(message) && Sign(message, agent).Ok? && r.onBehalfOf.None?
    requires DelegateArtifact(d, r, AgentSigned(message, agent)).Ok?
    requires Hops(DelegateArtifact(d, r, AgentSigned(message, agent)).value, wire)
    ensures var g := GrantFor(d, r);
            && CreateDelegation(AgentSigned(message, agent), g, OwnKeys(d)).Ok?
            && var delegation := CreateDelegation(AgentSigned(message, agent), g, OwnKeys(d)).value;
               && Carries(message, agent, delegation, OwnKeys(d), wire)
               && FieldOf(delegation, SignedBy) == Str(d.identity) && FieldOf(delegation, Selector) == Str(d.selector)
               && AsPem(FieldOf(delegation, AgentPubKey)) == r.agentPubKey
               && FieldOf(delegation, Attestation).Undefined?
  {
    var g := GrantFor(d, r);
    var signed := Put(AgentSigned(message, agent), Delegation, Obj(Info(g)));
    SignShape(signed, OwnKeys(d));
    IssuedShape(g, Sign(signed, OwnKeys(d)).value);
  }

  /**
   What a delegator issues in its own name passes `verifyDelegation`, hop or no
   hop, if and only if DNS has its key, the agent key named is the one that
   signed, and the delegator is a different account of the sender's domain.
   */
  lemma OwnDelegationAcceptedIff(d: Delegator, r: Request, message: OMap<Name, Json>, agent: PemKeys, wire: OMap<Name, Json>, dns: Resolver)
    requires Ready(d) && Distinct(message) && Sign(message, agent).Ok? && r.onBehalfOf.None?
    requires DelegateArtifact(d, r, AgentSigned(message, agent)).Ok?
    requires Hops(DelegateArtifact(d, r, AgentSigned(message, agent)).value, wire)
    ensures VerifyDelegation(wire, dns) == Valid <==>
              && dns(Str(d.identity), Str(d.selector)) == Found(d.publicKey.value)
              && r.agentPubKey == agent.publicKey && agent.publicKey.key == agent.privateKey.key
              && Unsigned(message)
              && FieldOf(message, From) != Str(d.identity) && MayDelegate(FieldOf(message, From), Str(d.identity))
  {
    OwnDelegationCarries(d, r, message, agent, wire);
    var delegation := CreateDelegation(AgentSigned(message, agent), GrantFor(d, r), OwnKeys(d)).value;
    SenderKept(message, Sign(message, agent).value, Obj(delegation), wire, d.identity);
    DelegatorVerifiesIff(message, agent, delegation, OwnKeys(d), wire, OwnKeys(d).publicKey);
    UnattestedVerdict(wire, delegation, d.identity, dns);
    BothVerifyIff(message, agent, delegation, OwnKeys(d), wire, dns);
  }

  lemma UnattestedVerdict(wire: OMap<Name, Json>, delegation: OMap<Name, Json>, signedBy: string, dns: Resolver)
    requires FieldOf(wire, Delegation) == Obj(delegation) && FieldOf(delegation, SignedBy) == Str(signedBy)
    requires FieldOf(delegation, Attestation).Undefined?
    ensures VerifyDelegation(wire, dns) == Valid <==>
              && FieldOf(wire, From) != Str(signedBy) && MayDelegate(FieldOf(wire, From), Str(signedBy))
              && VerifyBothSignatures(wire, delegation, dns) == Valid
  {
    AllowedShape(wire, delegation, signedBy);
  }

  /** An attestation added after signing changes the message the delegator's signature is checked against. */
  lemma AttestationShows(artifact: OMap<Name, Json>, info: OMap<Name, Json>, attested: OMap<Name, Json>)
    requires Distinct(artifact) && Distinct(info) && Distinct(attested)
    requires !Defined(info, Attestation) && Defined(attested, Attestation)
    ensures SerializeFields(Put(artifact, Delegation, Obj(attested))) != SerializeFields(Put(artifact, Delegation, Obj(info)))
  {
    SerializeGet(Put(artifact, Delegation, Obj(attested)), Delegation);
    SerializeGet(Put(artifact, Delegation, Obj(info)), Delegation);
    SerializeGet(attested, Attestation);
    SerializeGet(info, Attestation);
  }

  /** The delegation that `delegateArtifact` attests: what it holds and what its signature is over. */
  lemma AttestedShape(artifact: OMap<Name, Json>, g: Grant, keys: PemKeys, a: Attestor, own: PemKeys)
    requires CreateDelegation(artifact, g, keys).Ok?
    requires CreateAttestation(CreateDelegation(artifact, g, keys).value, a, own).Ok?
    ensures var delegation := CreateDelegation(artifact, g, keys).value;
            var full := Put(delegation, Attestation, Obj(CreateAttestation(delegation, a, own).value));
            && Distinct(full) && SerializeFields(full) == full
            && FieldOf(full, Signature) == Sign(Put(artifact, Delegation, Obj(Info(g))), keys).value
            && Defined(Remove(full, Signature), Attestation)
            && Distinct(Info(g)) && !Defined(Info(g), Attestation)
  {
    var delegation := CreateDelegation(artifact, g, keys).value;
    var signed := Put(artifact, Delegation, Obj(Info(g)));
    SignShape(signed, keys);
    IssuedShape(g, Sign(signed, keys).value);
    InfoShape(g);
    var payload := Put(delegation, Attestation, Obj(AttestationInfo(a)));
    SignShape(payload, own);
    AttestorShape(a, Sign(payload, own).value);
    FullShape(delegation, CreateAttestation(delegation, a, own).value);
  }

  lemma FullShape(delegation: OMap<Name, Json>, attestation: OMap<Name, Json>)
    requires Distinct(delegation) && Get(delegation, Attestation).None?
    requires SerializeFields(delegation) == delegation && SerializeFields(attestation) == attestation
    ensures var full := Put(delegation, Attestation, Obj(attestation));
            && Distinct(full) && SerializeFields(full) == full
            && FieldOf(full, Signature) == FieldOf(delegation, Signature)
            && Defined(Remove(full, Signature), Attestation)
  {
    SerializePut(delegation, Attestation, Obj(attestation));
  }

  /** No delegation issued on a user's behalf is ever accepted, whatever DNS says. */
  lemma AttestedDelegationRefused(d: Delegator, r: Request, artifact: OMap<Name, Json>, wire: OMap<Name, Json>, dns: Resolver)
    requires Distinct(artifact) && r.onBehalfOf.Some?
    requires DelegateArtifact(d, r, artifact).Ok? && Hops(DelegateArtifact(d, r, artifact).value, wire)
    ensures VerifyDelegation(wire, dns) != Valid
  {
    var g, keys, a := GrantFor(d, r), SigningKeys(d, r), Attestor(d.identity, r.attestedAt, GrantFor(d, r).selector);
    var delegation := CreateDelegation(artifact, g, keys).value;
    var full := Put(delegation, Attestation, Obj(CreateAttestation(delegation, a, OwnKeys(d)).value));
    AttestedShape(artifact, g, keys, a, OwnKeys(d));
    AttestedRefused(artifact, Info(g), keys, full, wire, dns);
  }

  lemma AttestedRefused(
    artifact: OMap<Name, Json>, info: OMap<Name, Json>, keys: PemKeys, full: OMap<Name, Json>, wire: OMap<Name, Json>, dns: Resolver)
    requires Distinct(artifact) && Distinct(info) && !Defined(info, Attestation)
    requires Sign(Put(artifact, Delegation, Obj(info)), keys).Ok?
    requires Distinct(full) && SerializeFields(full) == full && Defined(Remove(full, Signature), Attestation)
    requires FieldOf(full, Signature) == Sign(Put(artifact, Delegation, Obj(info)), keys).value
    requires Hops(Put(artifact, Delegation, Obj(full)), wire)
    ensures VerifyDelegation(wire, dns) != Valid
  {
    DelegatorMessage(artifact, full, wire);
    AttestationShows(artifact, info, Remove(full, Signature));
    if VerifyDelegation(wire, dns) == Valid {
      AcceptedMeansSigned(wire, dns);
      var pem := dns(FieldOf(full, SignedBy), FieldOf(full, Selector)).pem;
      MadeOver(Put(artifact, Delegation, Obj(info)), keys, pem, DelegatedMessage(wire, full));
    }
  }

  // -------------------------------------------------------- what acceptance means

  /** `signature` was made over `message` by the holder of `key`'s private half. */
  predicate MadeBy(signature: Json, key: Pem, message: OMap<Name, Json>) {
    && key.PublicPem? && Member(signature, AlgorithmHash).Str?
    && Member(signature, Value) == SignatureText(Member(signature, AlgorithmHash).s, key.key, Serialize(Obj(message)))
  }

  lemma MadeOver(signed: OMap<Name, Json>, keys: PemKeys, key: Pem, message: OMap<Name, Json>)
    requires Sign(signed, keys).Ok? && MadeBy(Sign(signed, keys).value, key, message)
    ensures SerializeFields(message) == SerializeFields(signed)
  {
    SignShape(signed, keys);
  }

  /**
   An accepted delegation was signed by the key DNS has for the delegator, over
   artifact and delegation, and the artifact by the agent key it names; in the
   sender's own name it was attested as well.
   */
  lemma AcceptedMeansSigned(artifact: OMap<Name, Json>, dns: Resolver)
    requires VerifyDelegation(artifact, dns) == Valid
    ensures FieldOf(artifact, Delegation).Obj?
    ensures var d := FieldOf(artifact, Delegation).fields;
            && dns(FieldOf(d, SignedBy), FieldOf(d, Selector)).Found?
            && MadeBy(FieldOf(d, Signature), dns(FieldOf(d, SignedBy), FieldOf(d, Selector)).pem, DelegatedMessage(artifact, d))
            && MadeBy(FieldOf(artifact, Signature), AsPem(FieldOf(d, AgentPubKey)), BareArtifact(artifact))
            && MayDelegate(FieldOf(artifact, From), FieldOf(d, SignedBy))
            && (FieldOf(artifact, From) == FieldOf(d, SignedBy) ==> VerifyAttestation(d, dns) == Valid)
  {
  }

  /**
   Two accepted artifacts with the same delegation signature are the same in
   everything signed: altering a field, or only moving one, is refused.
   */
  lemma DelegationTamperingRefused(artifact: OMap<Name, Json>, altered: OMap<Name, Json>, dns: Resolver, dns': Resolver)
    requires VerifyDelegation(artifact, dns) == Valid && VerifyDelegation(altered, dns') == Valid
    requires Member(FieldOf(artifact, Delegation), Signature) == Member(FieldOf(altered, Delegation), Signature)
    ensures var d, d' := FieldOf(artifact, Delegation).fields, FieldOf(altered, Delegation).fields;
            SerializeFields(DelegatedMessage(artifact, d)) == SerializeFields(DelegatedMessage(altered, d'))
  {
    AcceptedMeansSigned(artifact, dns);
    AcceptedMeansSigned(altered, dns');
  }

  // ------------------------------------------------------ in terms of the identities

  lemma AllowedOnIdentities(message: OMap<Name, Json>, a: string, d: string, b: string, e: string)
    requires IsPart(a) && IsPart(d) && IsPart(b) && IsPart(e) && FieldOf(message, From) == Str(a + "$" + d)
    ensures (FieldOf(message, From) != Str(b + "$" + e) && MayDelegate(FieldOf(message, From), Str(b + "$" + e))) <==> (d == e && a != b)
  {
    ParsesToItsParts(a, d, "");
    ParsesToItsParts(b, e, "");
    if a + "$" + d == b + "$" + e {
      SplitAt(a, d);
      SplitAt(b, e);
    }
  }

  /**
   The delegator `b$e` issues in its own name for the sender `a$d`: accepted if and
   only if it is another account of the same domain, and every key is its owner's.
   */
  lemma AcceptedWithinADomainIff(
    dl: Delegator, r: Request, message: OMap<Name, Json>, agent: PemKeys, wire: OMap<Name, Json>, dns: Resolver,
    a: string, d: string, b: string, e: string)
    requires Ready(dl) && Distinct(message) && Sign(message, agent).Ok? && r.onBehalfOf.None?
    requires DelegateArtifact(dl, r, AgentSigned(message, agent)).Ok?
    requires Hops(DelegateArtifact(dl, r, AgentSigned(message, agent)).value, wire)
    requires IsPart(a) && IsPart(d) && IsPart(b) && IsPart(e)
    requires FieldOf(message, From) == Str(a + "$" + d) && dl.identity == b + "$" + e
    ensures VerifyDelegation(wire, dns) == Valid <==>
              && d == e && a != b
              && dns(Str(dl.identity), Str(dl.selector)) == Found(PublicPem(dl.privateKey.key))
              && r.agentPubKey == agent.publicKey && agent.publicKey.key == agent.privateKey.key
              && FieldOf(message, Signature).Undefined? && FieldOf(message, Delegation).Undefined?
  {
    OwnDelegationAcceptedIff(dl, r, message, agent, wire, dns);
    AllowedOnIdentities(message, a, d, b, e);
    UnsignedIs(message);
    HoldsItsPair(dl, r, AgentSigned(message, agent));
  }

  lemma UnsignedIs(message: OMap<Name, Json>)
    ensures Unsigned(message) <==> FieldOf(message, Signature).Undefined? && FieldOf(message, Delegation).Undefined?
  {
  }

  lemma HoldsItsPair(dl: Delegator, r: Request, artifact: OMap<Name, Json>)
    requires Ready(dl) && DelegateArtifact(dl, r, artifact).Ok?
    ensures dl.publicKey == Some(PublicPem(dl.privateKey.key))
  {
  }

  // ----------------------------------------------------------------- what is issued

  /** The delegation issued names what it was asked for, and who signed. */
  lemma IssuedSays(artifact: OMap<Name, Json>, g: Grant, keys: PemKeys)
    requires CreateDelegation(artifact, g, keys).Ok?
    ensures var d := CreateDelegation(artifact, g, keys).value;
            && FieldOf(d, AgentId) == Str(g.agentId) && AsPem(FieldOf(d, AgentPubKey)) == g.agentPubKey
            && FieldOf(d, SignedBy) == Str(g.signedBy) && FieldOf(d, IssuedAt) == Str(g.issuedAt)
            && FieldOf(d, Selector) == Str(g.selector) && FieldOf(d, Attestation).Undefined?
            && Member(FieldOf(d, Signature), Fingerprint) == FingerprintText("sha256", keys.publicKey.key)
  {
    var signed := Put(artifact, Delegation, Obj(Info(g)));
    SignShape(signed, keys);
    IssuedShape(g, Sign(signed, keys).value);
    InfoSays(g, Sign(signed, keys).value);
  }

  lemma InfoSays(g: Grant, signature: Json)
    ensures var d := Put(Info(g), Signature, signature);
            FieldOf(d, AgentId) == Str(g.agentId) && FieldOf(d, IssuedAt) == Str(g.issuedAt)
  {
    var i := Info(g);
    PairwiseDistinct(i);
    EntryGet(i, 0);
    EntryGet(i, 3);
  }

  lemma AttestationSays(delegation: OMap<Name, Json>, a: Attestor, keys: PemKeys)
    requires CreateAttestation(delegation, a, keys).Ok?
    ensures var d := CreateAttestation(delegation, a, keys).value;
            && FieldOf(d, SignedBy) == Str(a.signedBy) && FieldOf(d, IssuedAt) == Str(a.issuedAt)
            && FieldOf(d, Selector) == Str(a.selector)
            && Member(FieldOf(d, Signature), Fingerprint) == FingerprintText("sha256", keys.publicKey.key)
  {
    var signed := Put(delegation, Attestation, Obj(AttestationInfo(a)));
    SignShape(signed, keys);
    AttestorShape(a, Sign(signed, keys).value);
    PairwiseDistinct(AttestationInfo(a));
    EntryGet(AttestationInfo(a), 1);
  }

  /** In its own name a delegator writes its identity and selector, and changes nothing else of the artifact. */
  lemma OwnDelegationSays(d: Delegator, r: Request, artifact: OMap<Name, Json>, k: Name)
    requires r.onBehalfOf.None? && DelegateArtifact(d, r, artifact).Ok?
    ensures var delegated := DelegateArtifact(d, r, artifact).value;
            var delegation := FieldOf(delegated, Delegation);
            && Member(delegation, AgentId) == Str(r.agentId) && AsPem(Member(delegation, AgentPubKey)) == r.agentPubKey
            && Member(delegation, SignedBy) == Str(d.identity) && Member(delegation, IssuedAt) == Str(r.delegatedAt)
            && Member(delegation, Selector) == Str(d.selector) && Member(delegation, Attestation).Undefined?
            && (k != Delegation ==> FieldOf(delegated, k) == FieldOf(artifact, k))
  {
    IssuedSays(artifact, GrantFor(d, r), OwnKeys(d));
  }

  /** On a user's behalf it writes the user's identity, and attests in its own, both with the user's selector. */
  lemma OnBehalfDelegationSays(d: Delegator, r: Request, artifact: OMap<Name, Json>, k: Name)
    requires r.onBehalfOf.Some? && DelegateArtifact(d, r, artifact).Ok?
    ensures r.onBehalfOf.value.selector.Some?
    ensures var delegated, user := DelegateArtifact(d, r, artifact).value, r.onBehalfOf.value;
            var delegation := FieldOf(delegated, Delegation);
            var attestation := Member(delegation, Attestation);
            && Member(delegation, AgentId) == Str(r.agentId) && AsPem(Member(delegation, AgentPubKey)) == r.agentPubKey
            && Member(delegation, SignedBy) == Str(user.identity) && Member(delegation, Selector) == Str(user.selector.value)
            && Member(delegation, IssuedAt) == Str(r.delegatedAt)
            && Member(Member(delegation, Signature), Fingerprint) == FingerprintText("sha256", user.keyPair.publicKey.key)
            && Member(attestation, SignedBy) == Str(d.identity) && Member(attestation, Selector) == Str(user.selector.value)
            && Member(attestation, IssuedAt) == Str(r.attestedAt)
            && d.publicKey.Some? && Member(Member(attestation, Signature), Fingerprint) == FingerprintText("sha256", d.publicKey.value.key)
            && (k != Delegation ==> FieldOf(delegated, k) == FieldOf(artifact, k))
  {
    var g := GrantFor(d, r);
    IssuedSays(artifact, g, SigningKeys(d, r));
    AttestationSays(CreateDelegation(artifact, g, SigningKeys(d, r)).value, Attestor(d.identity, r.attestedAt, g.selector), OwnKeys(d));
  }

  /** It delegates exactly when it is initialised, the user asked for has a selector, and the keys used are keys; which of these fails shows. */
  lemma DelegatesIff(d: Delegator, r: Request, artifact: OMap<Name, Json>)
    ensures var answer, user := DelegateArtifact(d, r, artifact), r.onBehalfOf;
            var ownKeys := d.publicKey.Some? && d.privateKey.PrivatePem? && d.publicKey.value.PublicPem?;
            && (answer.Ok? <==>
                  && d.isInitialized && ownKeys
                  && (user.Some? ==>
                        && user.value.selector.Some?
                        && user.value.keyPair.privateKey.PrivatePem? && user.value.keyPair.publicKey.PublicPem?))
            && (answer == Err(Exception) <==> !d.isInitialized || d.publicKey.None?)
            && (answer == Err(SignatureVerification) <==>
                  d.isInitialized && d.publicKey.Some? && user.Some? && user.value.selector.None?)
            && (answer.Err? ==> answer.error in {Exception, SignatureVerification, BadKey})
  {
  }

  /** `init` succeeds exactly if DNS has, at the host's selector, the public half of the delegator's key, and then that is what it holds. */
  lemma InitialisesIff(d: Delegator, host: HostLookup, dns: Resolver)
    ensures var (d', r) := Initialise(d, host, dns);
            && (r.Ok? <==>
                  && host.HostSelector? && d.privateKey.PrivatePem?
                  && dns(Str(d.identity), Str(host.selector)) == Found(PublicPem(d.privateKey.key)))
            && (r.Ok? ==> r.value && d' == Delegator(d.identity, d.privateKey, Some(PublicPem(d.privateKey.key)), host.selector, true))
            && (r.Err? ==> d' == d.(selector := if host.HostSelector? then host.selector else d.selector))
            && (r == Err(Exception) <==>
                  || host.HostThrows?
                  || (host.HostSelector? &&
                      var found := dns(Str(d.identity), Str(host.selector));
                      found.LookupThrows? || (found.Found? && (!found.pem.PublicPem? || !d.privateKey.PrivatePem?))))
            && (r.Err? ==> r.error in {Exception, SignatureVerification})
  {
  }

  // ------------------------------------------------------------ how a delegation is refused

  /** The signature names its algorithm, and another key than this one. */
  predicate Mismatched(signature: Json, pem: Pem) {
    && pem.PublicPem? && Member(signature, AlgorithmHash).Str?
    && Member(signature, Fingerprint) != FingerprintText(Member(signature, AlgorithmHash).s, pem.key)
  }

  /** The policy comes first, and an unattested delegation in the sender's own name fails it. */
  lemma RefusedByPolicy(artifact: OMap<Name, Json>, dns: Resolver)
    ensures var d := FieldOf(artifact, Delegation);
            VerifyDelegation(artifact, dns) == Invalid(DelegationInvalid) <==>
              || !IsDelegationAllowed(artifact)
              || (Member(d, SignedBy) == FieldOf(artifact, From) && !Truthy(Member(d, Attestation)))
  {
  }

  /** Then an attestation: without its key, or under another, nothing else is looked at. */
  lemma RefusedByAttestation(artifact: OMap<Name, Json>, dns: Resolver)
    requires IsDelegationAllowed(artifact) && Truthy(Member(FieldOf(artifact, Delegation), Attestation))
    ensures var attestation, verdict := Member(FieldOf(artifact, Delegation), Attestation), VerifyDelegation(artifact, dns);
            var signature := Member(attestation, Signature);
            match dns(Member(attestation, SignedBy), Member(attestation, Selector))
            case LookupThrows => verdict == Invalid(Exception)
            case NoRecord => verdict == Invalid(ResolvePublicKeyError)
            case Found(pem) =>
              && (!Member(signature, AlgorithmHash).Str? ==> verdict == Invalid(Exception))
              && (Mismatched(signature, pem) ==> verdict == Invalid(AttestationVerification))
  {
  }

  /** Without one the delegator's signature comes first, and then the agent's. */
  lemma RefusedBySignature(artifact: OMap<Name, Json>, dns: Resolver)
    requires IsDelegationAllowed(artifact) && !Truthy(Member(FieldOf(artifact, Delegation), Attestation))
    requires Member(FieldOf(artifact, Delegation), SignedBy) != FieldOf(artifact, From)
    ensures var d, verdict := FieldOf(artifact, Delegation), VerifyDelegation(artifact, dns);
            match dns(Member(d, SignedBy), Member(d, Selector))
            case LookupThrows => verdict == Invalid(Exception)
            case NoRecord => verdict == Invalid(ResolvePublicKeyError)
            case Found(pem) =>
              && (!Member(Member(d, Signature), AlgorithmHash).Str? ==> verdict == Invalid(Exception))
              && (Mismatched(Member(d, Signature), pem) ==> verdict == Invalid(DelegationSignature))
              && verdict in {Valid, Invalid(Exception), Invalid(DelegationSignature)}
  {
  }
}
