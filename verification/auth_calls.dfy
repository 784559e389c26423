/** What a caller of `BtpsAuthentication` gets, in terms of what was stored and when. */
module AuthCalls {
  import opened Wrappers
  import opened Json
  import opened Trust
  import opened TokenStore
  import opened Authentication

  // ------------------------------------------------------------------- the tokens

  /** A stored auth token is good for its user until its expiry, once. */
  lemma AuthTokenIsGood(c: Config, s: Auth, token: string, user: string, t0: int, t: int)
    ensures var stored := Apply(c, s, StoreAuthToken(token, user), t0).0;
            var (s', answer) := Apply(c, stored, ValidateAuthToken(user, token), t);
            && answer == (if t <= t0 + c.authTokenExpiryMs then ValidUser(user) else Refused)
            && Apply(c, s', ValidateAuthToken(user, token), t).1 == Refused
            && stored.trust == s.trust == s'.trust
  {
  }

  /** A new agent's refresh token is good for it and its user until its own expiry, as often as asked. */
  lemma NewAgentsTokenIsGood(c: Config, s: Auth, op: Op, t0: int, t: int)
    requires op.CreateAgent? && Apply(c, s, op, t0).1.Issued? && op.agentId != "anonymous"
    ensures var s1 := Apply(c, s, op, t0).0;
            var (s2, answer) := Apply(c, s1, ValidateRefreshToken(op.agentId, op.newToken), t);
            && answer == (if t <= t0 + c.refreshTokenExpiryMs then ValidAgent(op.agentId, op.user) else Refused)
            && (t <= t0 + c.refreshTokenExpiryMs ==> s2 == s1)
  {
  }

  /** Cleaning up takes out exactly what has expired. */
  lemma CleanupTakesTheExpired(c: Config, s: Auth, now: int, key: string)
    ensures var s' := Apply(c, s, Cleanup, now).0;
            && (key in s'.tokens <==> key in s.tokens && now <= s.tokens[key].expiresAt)
            && (key in s'.tokens ==> s'.tokens[key] == s.tokens[key])
            && s'.trust == s.trust
  {
  }

  /** A look-up takes out nothing but the expired token it meets. */
  lemma LookupsTakeTheExpired(c: Config, s: Auth, agentId: string, token: string, now: int)
    ensures var key, s' := TrustId(agentId, token), Apply(c, s, ValidateRefreshToken(agentId, token), now).0;
            && s'.trust == s.trust
            && s'.tokens == (if key in s.tokens && s.tokens[key].expiresAt < now then s.tokens - {key} else s.tokens)
  {
  }

  /** The event does not present the token, up to case and however cut. */
  predicate LeavesAlone(e: Event, token: string) {
    !Presents(e.op, Lower(Core(token)))
  }

  /** The call neither presents nor draws a token that is stored under the key. */
  predicate Avoids(op: Op, key: string) {
    match op
    case StoreAuthToken(token, user) => TrustId(user, token) != key
    case ValidateAuthToken(user, token) => TrustId(user, token) != key
    case CreateAgent(agentId, newToken, _, _, _) => TrustId(agentId, newToken) != key
    case ValidateRefreshToken(_, _) => true
    case Reissue(agentId, token, newToken, _, _, _) => TrustId(agentId, token) != key && TrustId(agentId, newToken) != key
    case Cleanup => true
  }

  /** A call touches only the key it presents, the key it draws, and what has expired. */
  lemma Untouched(c: Config, s: Auth, op: Op, now: int, key: string)
    requires key in s.tokens && now <= s.tokens[key].expiresAt && Avoids(op, key)
    ensures key in Apply(c, s, op, now).0.tokens && Apply(c, s, op, now).0.tokens[key] == s.tokens[key]
  {
  }

  lemma DrawsAnother(h: History, key: string, owner: string, token: string)
    requires Inv(h) && key in h.auth.tokens && NoColon(token) && Lower(token) !in h.issued
    ensures TrustId(owner, token) != key
  {
    NewKeyIsNew(h, owner, token);
  }

  lemma AvoidsIt(h: History, op: Op, key: string)
    requires Inv(h) && Fresh(h, op) && key in h.auth.tokens && !Presents(op, Lower(Core(h.auth.tokens[key].token)))
    ensures Avoids(op, key)
  {
    match op
    case StoreAuthToken(token, user) => DrawsAnother(h, key, user, token);
    case ValidateAuthToken(user, token) => NotThatKey(h, key, user, token);
    case CreateAgent(agentId, newToken, _, _, _) => DrawsAnother(h, key, agentId, newToken);
    case ValidateRefreshToken(_, _) =>
    case Reissue(agentId, token, newToken, _, _, _) =>
      NotThatKey(h, key, agentId, token);
      DrawsAnother(h, key, agentId, newToken);
    case Cleanup =>
  }

  lemma StepTokenStays(c: Config, h: History, e: Event, key: string)
    requires Inv(h) && Fresh(h, e.op) && key in h.auth.tokens
    requires LeavesAlone(e, h.auth.tokens[key].token) && e.now <= h.auth.tokens[key].expiresAt
    ensures key in Step(c, h, e).auth.tokens && Step(c, h, e).auth.tokens[key] == h.auth.tokens[key]
  {
    AvoidsIt(h, e.op, key);
    Untouched(c, h.auth, e.op, e.now, key);
  }

  lemma NotThatKey(h: History, key: string, owner: string, token: string)
    requires Inv(h) && key in h.auth.tokens && Lower(Core(token)) != Lower(Core(h.auth.tokens[key].token))
    ensures TrustId(owner, token) != key
  {
    assert KeyFits(key, h.auth.tokens[key], h.issued);
    if TrustId(owner, token) == key {
      FoundCore(h, owner, token);
    }
  }

  predicate AllLeaveAlone(events: seq<Event>, token: string, until: int) {
    forall i :: 0 <= i < |events| ==> LeavesAlone(events[i], token) && events[i].now <= until
  }

  /** A stored token stays as it is through every run that does not present it, until its expiry. */
  lemma {:induction false} TokenStays(c: Config, h: History, events: seq<Event>, key: string)
    requires Inv(h) && FreshRun(c, h, events) && key in h.auth.tokens
    requires AllLeaveAlone(events, h.auth.tokens[key].token, h.auth.tokens[key].expiresAt)
    ensures key in Run(c, h, events).auth.tokens && Run(c, h, events).auth.tokens[key] == h.auth.tokens[key]
    decreases |events|
  {
    if events != [] {
      assert LeavesAlone(events[0], h.auth.tokens[key].token);
      StepTokenStays(c, h, events[0], key);
      StepInv(c, h, events[0]);
      assert forall i :: 0 <= i < |events[1..]| ==> events[1..][i] == events[i + 1];
      TokenStays(c, Step(c, h, events[0]), events[1..], key);
    }
  }

  // ----------------------------------------------------------------- the records

  /** The record of a new agent, and what it is told; a lifetime of zero counts as none given. */
  lemma NewAgentsRecord(c: Config, s: Auth, op: Op, now: int)
    requires op.CreateAgent?
    ensures var id, (s', answer) := TrustId(op.agentId, op.user), Apply(c, s, op, now);
            var lifetime := if op.trustExpiryMs.Some? && op.trustExpiryMs.value != 0 then op.trustExpiryMs.value else c.refreshTokenExpiryMs;
            if !op.pem.PublicPem? || id in s.trust then s' == s && answer == Failed
            else
              && answer == Issued(op.agentId, op.newToken, now + lifetime)
              && s'.trust == s.trust[id :=
                   Record(op.agentId, op.user, Accepted, now, Some(now + lifetime), None, op.pem.key, op.pem.key, [])]
  {
  }

  /** A renewed record: accepted from now on whatever it was, with the new expiry, and the new key if it is one. */
  lemma RenewedRecord(c: Config, s: Auth, op: Op, now: int)
    requires op.Reissue? && Apply(c, s, op, now).1.Issued?
    ensures TrustId(op.agentId, op.token) in s.tokens
    ensures var id, s' := TrustId(op.agentId, s.tokens[TrustId(op.agentId, op.token)].userIdentity), Apply(c, s, op, now).0;
            var lifetime := if op.trustExpiryMs.Some? then op.trustExpiryMs.value else c.refreshTokenExpiryMs;
            && id in s.trust && id in s'.trust
            && var r, r' := s.trust[id], s'.trust[id];
               var rotated := op.publicKey.Some? && op.publicKey.value.PublicPem? && op.publicKey.value.key != r.publicKeyFingerprint;
               && r'.status == Accepted && r'.decidedAt == now && r'.expiresAt == Some(now + lifetime)
               && r'.senderId == r.senderId && r'.receiverId == r.receiverId && r'.retryAfterDate == r.retryAfterDate
               && (if rotated
                   then r'.publicKey == r'.publicKeyFingerprint == op.publicKey.value.key
                     && r'.keyHistory == r.keyHistory + [KeySeen(r.publicKeyFingerprint, r.decidedAt, now)]
                   else r'.publicKey == r.publicKey && r'.publicKeyFingerprint == r.publicKeyFingerprint && r'.keyHistory == r.keyHistory)
               && (forall other :: other != id ==> (other in s'.trust <==> other in s.trust))
               && (forall other :: other in s.trust && other != id ==> s'.trust[other] == s.trust[other])
               && Apply(c, s, op, now).1 == Issued(op.agentId, op.newToken, now + lifetime)
  {
  }

  /** Why a reissue is refused: the token first, then the record, then the key, then the store. */
  lemma ReissueAnswers(c: Config, s: Auth, op: Op, now: int)
    requires op.Reissue?
    ensures var key, answer := TrustId(op.agentId, op.token), Apply(c, s, op, now).1;
            if key !in s.tokens || s.tokens[key].expiresAt < now then answer == Refused
            else if TrustId(op.agentId, s.tokens[key].userIdentity) !in s.trust then answer == NoTrust
            else if op.publicKey.Some? && op.publicKey.value != NotPem("") && !op.publicKey.value.PublicPem? then answer == Failed
            else if op.rejects then answer == UpdateRejected
            else answer.Issued?
  {
  }
}
