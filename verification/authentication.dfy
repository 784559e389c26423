/**
 Tokens, agents and key rotation: what each call of `BtpsAuthentication` does to
 the token store and the trust records, and what every run of calls keeps.
 */
module Authentication {
  import opened Wrappers
  import opened Json
  import opened Trust
  import opened TokenStore

  type TrustRecord = Record<seq<KeySeen>>

  datatype Config = Config(authTokenExpiryMs: int, refreshTokenExpiryMs: int)

  datatype Auth = Auth(tokens: Tokens, trust: map<string, TrustRecord>)

  /** A call with what it draws: fresh ids and tokens are arguments, and whether the trust store rejects the update. */
  datatype Op =
    | StoreAuthToken(token: string, user: string)
    | ValidateAuthToken(user: string, token: string)
    | CreateAgent(agentId: string, newToken: string, user: string, pem: Pem, trustExpiryMs: Option<int>)
    | ValidateRefreshToken(agentId: string, token: string)
    | Reissue(agentId: string, token: string, newToken: string, publicKey: Option<Pem>, trustExpiryMs: Option<int>, rejects: bool)
    | Cleanup

  datatype Answer =
    | Done
    | Refused
    | NoTrust
    | Failed
    | UpdateRejected
    | ValidUser(userIdentity: string)
    | ValidAgent(agentId: string, userIdentity: string)
    | Issued(agentId: string, refreshToken: string, expiresAt: int)

  function OrDefault(given: Option<int>, default: int): int {
    if given.Some? then given.value else default
  }

  /** `trustExpiryMs ? … : …` after `??`: a lifetime of zero counts as none given. */
  function TrustLifetime(c: Config, given: Option<int>): int {
    var expiry := OrDefault(given, c.refreshTokenExpiryMs);
    if expiry != 0 then expiry else c.refreshTokenExpiryMs
  }

  function NewRecord(agentId: string, user: string, key: nat, lifetime: int, now: int): TrustRecord {
    Record(agentId, user, Accepted, now, Some(now + lifetime), None, key, key, [])
  }

  predicate Rotates(r: TrustRecord, key: Option<nat>) {
    key.Some? && key.value != r.publicKeyFingerprint
  }

  /** The record after a refresh; a new key moves the one before it to the history. */
  function Refreshed(r: TrustRecord, key: Option<nat>, lifetime: int, now: int): TrustRecord {
    var kept := r.(expiresAt := Some(now + lifetime), status := Accepted, decidedAt := now);
    if !Rotates(r, key) then kept
    else kept.(
           keyHistory := r.keyHistory + [KeySeen(r.publicKeyFingerprint, r.decidedAt, now)],
           publicKey := key.value,
           publicKeyFingerprint := key.value)
  }

  /**
   The record after a renewal whose update the store rejects: the previous key was
   pushed already, onto the history the stored record shares with the patch.
   */
  function Pushed(r: TrustRecord, key: Option<nat>, now: int): TrustRecord {
    if Rotates(r, key) then r.(keyHistory := r.keyHistory + [KeySeen(r.publicKeyFingerprint, r.decidedAt, now)]) else r
  }

  /** `if (publicKey)`: an empty string counts as none. */
  predicate Given(pem: Option<Pem>) {
    pem.Some? && pem.value != NotPem("")
  }

  function KeyOf(pem: Option<Pem>): Option<nat> {
    if pem.Some? && pem.value.PublicPem? then Some(pem.value.key) else None
  }

  /** A valid refresh token's renewal: of the record, and then of the token. */
  function Renewed(c: Config, s: Auth, op: Op, user: string, now: int): (Auth, Answer)
    requires op.Reissue? && TrustId(op.agentId, user) in s.trust
  {
    var id, lifetime := TrustId(op.agentId, user), OrDefault(op.trustExpiryMs, c.refreshTokenExpiryMs);
    if Given(op.publicKey) && !op.publicKey.value.PublicPem? then (s, Failed)
    else if op.rejects then (s.(trust := s.trust[id := Pushed(s.trust[id], KeyOf(op.publicKey), now)]), UpdateRejected)
    else
      (Auth(StoreToken(RemoveToken(s.tokens, op.agentId, op.token), op.newToken, Some(op.agentId), user, c.refreshTokenExpiryMs, now),
            s.trust[id := Refreshed(s.trust[id], KeyOf(op.publicKey), lifetime, now)]),
       Issued(op.agentId, op.newToken, now + lifetime))
  }

  /** One call at time `now`. */
  function Apply(c: Config, s: Auth, op: Op, now: int): (Auth, Answer) {
    match op
    case StoreAuthToken(token, user) =>
      (s.(tokens := StoreToken(s.tokens, token, None, user, c.authTokenExpiryMs, now)), Done)
    case ValidateAuthToken(user, token) =>
      var (ts, found) := GetToken(s.tokens, user, token, now);
      if found.None? then (s.(tokens := ts), Refused)
      else (s.(tokens := RemoveToken(ts, user, token)), ValidUser(found.value.userIdentity))
    case CreateAgent(agentId, newToken, user, pem, trustExpiryMs) =>
      var id, lifetime := TrustId(agentId, user), TrustLifetime(c, trustExpiryMs);
      if !pem.PublicPem? || id in s.trust then (s, Failed)
      else
        (Auth(StoreToken(s.tokens, newToken, Some(agentId), user, c.refreshTokenExpiryMs, now),
              s.trust[id := NewRecord(agentId, user, pem.key, lifetime, now)]),
         Issued(agentId, newToken, now + lifetime))
    case ValidateRefreshToken(agentId, token) =>
      var (ts, found) := GetToken(s.tokens, agentId, token, now);
      (s.(tokens := ts),
       if found.None? then Refused else ValidAgent(found.value.agentId, found.value.userIdentity))
    case Reissue(agentId, token, newToken, publicKey, trustExpiryMs, rejects) =>
      var (ts, found) := GetToken(s.tokens, agentId, token, now);
      if found.None? then (s.(tokens := ts), Refused)
      else
        var user := found.value.userIdentity;
        var id := TrustId(agentId, user);
        if id !in s.trust then (s.(tokens := ts), NoTrust) else Renewed(c, Auth(ts, s.trust), op, user, now)
    case Cleanup => (s.(tokens := CleanupTokens(CleanupTokens(s.tokens, now), now)), Done)
  }

  // ------------------------------------------------------------------------- runs

  datatype Event = Event(now: int, op: Op)

  /** The state with the tokens (in lower case) and agent ids given out so far. */
  datatype History = History(auth: Auth, issued: set<string>, agents: set<string>)

  function NewToken(op: Op): Option<string> {
    match op
    case StoreAuthToken(token, _) => Some(token)
    case CreateAgent(_, newToken, _, _, _) => Some(newToken)
    case Reissue(_, _, newToken, _, _, _) => Some(newToken)
    case _ => None
  }

  function Step(c: Config, h: History, e: Event): History {
    History(Apply(c, h.auth, e.op, e.now).0,
            if NewToken(e.op).Some? then h.issued + {Lower(NewToken(e.op).value)} else h.issued,
            if e.op.CreateAgent? then h.agents + {e.op.agentId} else h.agents)
  }

  function Run(c: Config, h: History, events: seq<Event>): History
    decreases |events|
  {
    if events == [] then h else Run(c, Step(c, h, events[0]), events[1..])
  }

  predicate OccursAt(x: string, s: string, i: nat) {
    i + |x| <= |s| && s[i..i + |x|] == x
  }

  predicate Occurs(x: string, s: string) {
    exists i :: 0 <= i <= |s| && OccursAt(x, s, i)
  }

  /** What `generateAgentId` makes: a prefix and a UUID, in lower case. */
  predicate GeneratedId(s: string) {
    "btps_ag_" <= s && NoColon(s) && Lower(s) == s
  }

  /**
   Fresh draws: a token unused so far in any case, an agent id unused so far and
   not part of the user's identity. Of users and of what callers present, nothing is required.
   */
  predicate Fresh(h: History, op: Op) {
    && (NewToken(op).Some? ==> NoColon(NewToken(op).value) && Lower(NewToken(op).value) !in h.issued)
    && (op.CreateAgent? ==> GeneratedId(op.agentId) && op.agentId !in h.agents && !Occurs(op.agentId, Lower(op.user)))
  }

  predicate FreshRun(c: Config, h: History, events: seq<Event>)
    decreases |events|
  {
    events != [] ==> Fresh(h, events[0].op) && FreshRun(c, Step(c, h, events[0]), events[1..])
  }

  // --------------------------------------------------------------------- invariants

  predicate IsRefresh(t: TokenStore.Token) {
    t.agentId != ANONYMOUS
  }

  function Owner(t: TokenStore.Token): string {
    if IsRefresh(t) then t.agentId else t.userIdentity
  }

  predicate KeyFits(key: string, t: TokenStore.Token, issued: set<string>) {
    && key == TrustId(Owner(t), t.token)
    && NoColon(t.token) && Lower(t.token) in issued
  }

  predicate RefreshFits(t: TokenStore.Token, trust: map<string, TrustRecord>, agents: set<string>) {
    IsRefresh(t) ==>
      && GeneratedId(Lower(t.agentId)) && Lower(t.agentId) in agents
      && TrustId(t.agentId, t.userIdentity) in trust
  }

  /** Every entry is filed under its owner and its own token. */
  ghost predicate Filed(h: History) {
    forall key :: key in h.auth.tokens ==>
      KeyFits(key, h.auth.tokens[key], h.issued) && RefreshFits(h.auth.tokens[key], h.auth.trust, h.agents)
  }

  /** No token is stored twice, in any case. */
  ghost predicate OneEntryPerToken(ts: Tokens) {
    forall k, k' :: k in ts && k' in ts && Lower(ts[k].token) == Lower(ts[k'].token) ==> k == k'
  }

  /** No agent has two refresh tokens, in any case. */
  ghost predicate OneRefreshPerAgent(ts: Tokens) {
    forall k, k' :: k in ts && k' in ts && IsRefresh(ts[k]) && IsRefresh(ts[k']) && Lower(ts[k].agentId) == Lower(ts[k'].agentId) ==>
      k == k'
  }

  /** Every trust record is an agent's, under its own id. */
  ghost predicate TrustFiled(h: History) {
    forall id :: id in h.auth.trust ==>
      && id == TrustId(h.auth.trust[id].senderId, h.auth.trust[id].receiverId)
      && GeneratedId(h.auth.trust[id].senderId) && h.auth.trust[id].senderId in h.agents
      && !Occurs(h.auth.trust[id].senderId, Lower(h.auth.trust[id].receiverId))
  }

  ghost predicate Inv(h: History) {
    Filed(h) && OneEntryPerToken(h.auth.tokens) && OneRefreshPerAgent(h.auth.tokens) && TrustFiled(h)
  }

  const START := History(Auth(map[], map[]), {}, {})

  lemma AnonymousIsNoAgent(s: string)
    requires GeneratedId(Lower(s))
    ensures s != ANONYMOUS
  {
    assert Lower(s)[0] == 'b';
  }

  /** What follows the last colon. */
  function Core(s: string): string {
    if NoColon(s) then s else Core(s[1..])
  }

  lemma {:induction false} CoreShape(s: string) returns (p: string)
    requires !NoColon(s)
    ensures s == p + ":" + Core(s) && NoColon(Core(s))
  {
    if NoColon(s[1..]) {
      p := "";
      assert s == [s[0]] + s[1..];
    } else {
      var q := CoreShape(s[1..]);
      p := [s[0]] + q;
      assert s == [s[0]] + s[1..] && Core(s) == Core(s[1..]);
    }
  }

  /** What a lookup finds: the core of the token, up to case, under what stands before it. */
  lemma FoundCore(h: History, owner: string, token: string)
    requires Filed(h) && TrustId(owner, token) in h.auth.tokens
    ensures var t := h.auth.tokens[TrustId(owner, token)];
            && Lower(t.token) == Lower(Core(token)) && Lower(t.token) in h.issued
            && Lower(owner) <= Lower(Owner(t)) && (Lower(owner) == Lower(Owner(t)) <==> NoColon(token))
  {
    var t := h.auth.tokens[TrustId(owner, token)];
    assert KeyFits(TrustId(owner, token), t, h.issued);
    if NoColon(token) {
      TrustIdInjective(Owner(t), t.token, owner, token);
    } else {
      var p := CoreShape(token);
      MovedColon(owner, p, Core(token));
      TrustIdInjective(Owner(t), t.token, owner + ":" + p, Core(token));
      LowerJoin(owner, p);
    }
  }

  /** An agent's refresh token is found under the agent's own id and token only, up to case. */
  lemma FoundRefresh(h: History, owner: string, token: string)
    requires Filed(h) && TrustId(owner, token) in h.auth.tokens && IsRefresh(h.auth.tokens[TrustId(owner, token)])
    ensures var t := h.auth.tokens[TrustId(owner, token)];
            && Lower(owner) == Lower(t.agentId) && Lower(token) == Lower(t.token)
            && NoColon(owner) && NoColon(token) && Core(token) == token
  {
    var t := h.auth.tokens[TrustId(owner, token)];
    assert KeyFits(TrustId(owner, token), t, h.issued) && RefreshFits(t, h.auth.trust, h.agents);
    LowerKeepsColons(t.agentId);
    TrustIdInjective(t.agentId, t.token, owner, token);
    LowerKeepsColons(t.token);
    LowerKeepsColons(owner);
    LowerKeepsColons(token);
  }

  /** A stored entry stays in order when entries go and the ledgers grow. */
  lemma ShrinkKeeps(h: History, h': History)
    requires Inv(h) && TrustFiled(h')
    requires h'.auth.tokens.Keys <= h.auth.tokens.Keys
    requires forall key :: key in h'.auth.tokens ==> h'.auth.tokens[key] == h.auth.tokens[key]
    requires h.issued <= h'.issued && h.agents <= h'.agents && h.auth.trust.Keys <= h'.auth.trust.Keys
    ensures Inv(h')
  {
    forall key | key in h'.auth.tokens
      ensures KeyFits(key, h'.auth.tokens[key], h'.issued) && RefreshFits(h'.auth.tokens[key], h'.auth.trust, h'.agents)
    {
      assert KeyFits(key, h.auth.tokens[key], h.issued) && RefreshFits(h.auth.tokens[key], h.auth.trust, h.agents);
    }
  }

  /** One more entry, filed where the store files it. */
  function WithToken(h: History, t: TokenStore.Token): History {
    h.(auth := h.auth.(tokens := h.auth.tokens[TrustId(Owner(t), t.token) := t]), issued := h.issued + {Lower(t.token)})
  }

  function WithoutToken(h: History, owner: string, token: string): History {
    h.(auth := h.auth.(tokens := RemoveToken(h.auth.tokens, owner, token)))
  }

  function WithTrust(h: History, id: string, r: TrustRecord, agents: set<string>): History {
    h.(auth := h.auth.(trust := h.auth.trust[id := r]), agents := agents)
  }

  /** The token is unused so far, and the agent it is for, if any, has a record and no refresh token. */
  ghost predicate Storable(h: History, t: TokenStore.Token) {
    && NoColon(t.token) && Lower(t.token) !in h.issued
    && RefreshFits(t, h.auth.trust, h.agents)
    && (IsRefresh(t) ==> NoRefreshFor(h.auth.tokens, t.agentId))
  }

  ghost predicate NoRefreshFor(ts: Tokens, agentId: string) {
    forall k :: k in ts && IsRefresh(ts[k]) ==> Lower(ts[k].agentId) != Lower(agentId)
  }

  lemma StoreFiled(h: History, t: TokenStore.Token)
    requires Filed(h) && Storable(h, t)
    ensures Filed(WithToken(h, t))
  {
    var h' := WithToken(h, t);
    forall k | k in h'.auth.tokens
      ensures KeyFits(k, h'.auth.tokens[k], h'.issued) && RefreshFits(h'.auth.tokens[k], h'.auth.trust, h'.agents)
    {
      if k != TrustId(Owner(t), t.token) {
        assert KeyFits(k, h.auth.tokens[k], h.issued) && RefreshFits(h.auth.tokens[k], h.auth.trust, h.agents);
      }
    }
  }

  lemma StoreOneEntry(h: History, t: TokenStore.Token)
    requires Filed(h) && OneEntryPerToken(h.auth.tokens) && Storable(h, t)
    ensures OneEntryPerToken(WithToken(h, t).auth.tokens)
  {
    forall k | k in h.auth.tokens ensures Lower(h.auth.tokens[k].token) != Lower(t.token) {
      assert KeyFits(k, h.auth.tokens[k], h.issued);
    }
  }

  lemma StoreOneRefresh(h: History, t: TokenStore.Token)
    requires OneRefreshPerAgent(h.auth.tokens) && Storable(h, t)
    ensures OneRefreshPerAgent(WithToken(h, t).auth.tokens)
  {
  }

  /** Filing one more entry keeps the order. */
  lemma StoreKeeps(h: History, t: TokenStore.Token)
    requires Inv(h) && Storable(h, t)
    ensures Inv(WithToken(h, t))
  {
    StoreFiled(h, t);
    StoreOneEntry(h, t);
    StoreOneRefresh(h, t);
  }

  lemma StoreAuthKeeps(c: Config, h: History, token: string, user: string, now: int)
    requires Inv(h) && Fresh(h, StoreAuthToken(token, user))
    ensures Inv(Step(c, h, Event(now, StoreAuthToken(token, user))))
  {
    var t := TokenStore.Token(token, ANONYMOUS, user, now + c.authTokenExpiryMs);
    StoreAuthShape(c, h, token, user, now);
    StoreKeeps(h, t);
  }

  lemma StoreAuthShape(c: Config, h: History, token: string, user: string, now: int)
    ensures Step(c, h, Event(now, StoreAuthToken(token, user))) ==
              WithToken(h, TokenStore.Token(token, ANONYMOUS, user, now + c.authTokenExpiryMs))
  {
  }

  lemma AgentIsNew(h: History, agentId: string, user: string)
    requires Inv(h) && GeneratedId(agentId) && agentId !in h.agents
    ensures TrustId(agentId, user) !in h.auth.trust
    ensures NoRefreshFor(h.auth.tokens, agentId)
  {
    var id := TrustId(agentId, user);
    if id in h.auth.trust {
      var r := h.auth.trust[id];
      TrustIdInjective(agentId, user, r.senderId, r.receiverId);
      assert false;
    }
    forall k | k in h.auth.tokens && IsRefresh(h.auth.tokens[k]) ensures Lower(h.auth.tokens[k].agentId) != Lower(agentId) {
      assert RefreshFits(h.auth.tokens[k], h.auth.trust, h.agents);
    }
  }

  lemma TrustGrows(h: History, id: string, r: TrustRecord, agents: set<string>)
    requires Inv(h) && h.agents <= agents
    requires id == TrustId(r.senderId, r.receiverId) && GeneratedId(r.senderId) && r.senderId in agents
    requires !Occurs(r.senderId, Lower(r.receiverId))
    ensures Inv(WithTrust(h, id, r, agents))
  {
    ShrinkKeeps(h, WithTrust(h, id, r, agents));
  }

  lemma CreateShape(c: Config, h: History, op: Op, now: int)
    requires op.CreateAgent? && op.pem.PublicPem? && TrustId(op.agentId, op.user) !in h.auth.trust && op.agentId != ANONYMOUS
    ensures var r := NewRecord(op.agentId, op.user, op.pem.key, TrustLifetime(c, op.trustExpiryMs), now);
            var t := TokenStore.Token(op.newToken, op.agentId, op.user, now + c.refreshTokenExpiryMs);
            Step(c, h, Event(now, op)) ==
              WithToken(WithTrust(h, TrustId(op.agentId, op.user), r, h.agents + {op.agentId}), t)
  {
  }

  lemma CreateKeeps(c: Config, h: History, op: Op, now: int)
    requires Inv(h) && op.CreateAgent? && Fresh(h, op)
    ensures Inv(Step(c, h, Event(now, op)))
  {
    AgentIsNew(h, op.agentId, op.user);
    AnonymousIsNoAgent(op.agentId);
    if op.pem.PublicPem? {
      var r := NewRecord(op.agentId, op.user, op.pem.key, TrustLifetime(c, op.trustExpiryMs), now);
      var id, agents := TrustId(op.agentId, op.user), h.agents + {op.agentId};
      CreateShape(c, h, op, now);
      TrustGrows(h, id, r, agents);
      StoreKeeps(WithTrust(h, id, r, agents), TokenStore.Token(op.newToken, op.agentId, op.user, now + c.refreshTokenExpiryMs));
    } else {
      ShrinkKeeps(h, Step(c, h, Event(now, op)));
    }
  }

  lemma GetKeeps(h: History, owner: string, token: string, now: int)
    requires Inv(h)
    ensures Inv(h.(auth := h.auth.(tokens := GetToken(h.auth.tokens, owner, token, now).0)))
  {
    ShrinkKeeps(h, h.(auth := h.auth.(tokens := GetToken(h.auth.tokens, owner, token, now).0)));
  }

  lemma RemoveKeeps(h: History, owner: string, token: string)
    requires Inv(h)
    ensures Inv(WithoutToken(h, owner, token))
  {
    ShrinkKeeps(h, WithoutToken(h, owner, token));
  }

  /** A stored refresh token has a trust record under the caller's id; an auth token has none under its user's. */
  lemma TrustOfFound(h: History, owner: string, token: string)
    requires Inv(h) && TrustId(owner, token) in h.auth.tokens
    ensures var t := h.auth.tokens[TrustId(owner, token)];
            TrustId(owner, t.userIdentity) in h.auth.trust <==> IsRefresh(t)
  {
    var t := h.auth.tokens[TrustId(owner, token)];
    assert KeyFits(TrustId(owner, token), t, h.issued) && RefreshFits(t, h.auth.trust, h.agents);
    if IsRefresh(t) {
      FoundRefresh(h, owner, token);
      LowerJoin(owner, t.userIdentity);
      LowerJoin(t.agentId, t.userIdentity);
    } else if TrustId(owner, t.userIdentity) in h.auth.trust {
      FoundCore(h, owner, token);
      var r := h.auth.trust[TrustId(owner, t.userIdentity)];
      LowerJoin(owner, t.userIdentity);
      LowerJoin(r.senderId, r.receiverId);
      Overlap(Lower(owner), Lower(t.userIdentity), r.senderId, Lower(r.receiverId));
      assert false;
    }
  }

  /** If the owner begins the user's identity and both together read as an agent with its user, the agent's id is in that user. */
  lemma Overlap(owner: string, user: string, agent: string, receiver: string)
    requires owner <= user && NoColon(agent) && owner + ":" + user == agent + ":" + receiver
    ensures Occurs(agent, receiver)
  {
    var s := owner + ":" + user;
    if |owner| < |agent| {
      ShorterSplit(owner, user, agent, receiver);
    }
    assert s[|agent|] == ':' && agent == s[..|agent|] && receiver == s[|agent| + 1..];
    assert user == s[|owner| + 1..] && owner == s[..|owner|] && owner == user[..|owner|];
    assert agent == owner[..|agent|] == user[..|agent|];
    var i := |owner| - |agent|;
    assert receiver[i..] == user;
    assert receiver[i..i + |agent|] == user[..|agent|];
    assert OccursAt(agent, receiver, i);
  }

  /** Once an agent's refresh token is taken out, the agent has none left. */
  lemma NoneLeft(h: History, owner: string, token: string)
    requires Inv(h) && TrustId(owner, token) in h.auth.tokens && IsRefresh(h.auth.tokens[TrustId(owner, token)])
    ensures NoRefreshFor(RemoveToken(h.auth.tokens, owner, token), owner)
  {
    FoundRefresh(h, owner, token);
  }

  lemma ReissueKeeps(c: Config, h: History, op: Op, now: int)
    requires Inv(h) && op.Reissue? && Fresh(h, op)
    ensures Inv(Step(c, h, Event(now, op)))
  {
    var answer := Apply(c, h.auth, op, now).1;
    if answer.Issued? {
      ReissueStores(c, h, op, now);
    } else if answer.UpdateRejected? {
      RejectedKeeps(c, h, op, now);
    } else {
      RefusedSame(c, h, op, now);
      GetKeeps(h, op.agentId, op.token, now);
      NotedKeeps(h.(auth := h.auth.(tokens := GetToken(h.auth.tokens, op.agentId, op.token, now).0)), Lower(op.newToken));
    }
  }

  /** A token that was drawn and not stored changes nothing. */
  lemma NotedKeeps(h: History, token: string)
    requires Inv(h)
    ensures Inv(h.(issued := h.issued + {token}))
  {
    ShrinkKeeps(h, h.(issued := h.issued + {token}));
  }

  /** A reissue that is refused does nothing but look the token up. */
  lemma RefusedSame(c: Config, h: History, op: Op, now: int)
    requires op.Reissue? && !Apply(c, h.auth, op, now).1.Issued? && !Apply(c, h.auth, op, now).1.UpdateRejected?
    ensures Step(c, h, Event(now, op)) ==
              h.(auth := h.auth.(tokens := GetToken(h.auth.tokens, op.agentId, op.token, now).0), issued := h.issued + {Lower(op.newToken)})
  {
  }

  /** A renewal whose update is rejected leaves the tokens, and of the trust records everything but one history. */
  lemma RejectedTouchesHistoryOnly(c: Config, s: Auth, op: Op, now: int)
    requires op.Reissue? && Apply(c, s, op, now).1.UpdateRejected?
    ensures TrustId(op.agentId, op.token) in s.tokens
    ensures var id := TrustId(op.agentId, s.tokens[TrustId(op.agentId, op.token)].userIdentity);
            && id in s.trust
            && var r' := Pushed(s.trust[id], KeyOf(op.publicKey), now);
               Apply(c, s, op, now).0 == Auth(s.tokens, s.trust[id := r'])
               && r' == s.trust[id].(keyHistory := r'.keyHistory)
  {
  }

  lemma RejectedKeeps(c: Config, h: History, op: Op, now: int)
    requires Inv(h) && op.Reissue? && Apply(c, h.auth, op, now).1.UpdateRejected?
    ensures Inv(Step(c, h, Event(now, op)))
  {
    RejectedTouchesHistoryOnly(c, h.auth, op, now);
    var id := TrustId(op.agentId, h.auth.tokens[TrustId(op.agentId, op.token)].userIdentity);
    var r' := Pushed(h.auth.trust[id], KeyOf(op.publicKey), now);
    TrustGrows(h, id, r', h.agents);
    NotedKeeps(WithTrust(h, id, r', h.agents), Lower(op.newToken));
  }

  lemma ReissueShape(c: Config, h: History, op: Op, now: int)
    requires op.Reissue? && Apply(c, h.auth, op, now).1.Issued? && op.agentId != ANONYMOUS
    ensures TrustId(op.agentId, op.token) in h.auth.tokens
    ensures var t := h.auth.tokens[TrustId(op.agentId, op.token)];
            var id := TrustId(op.agentId, t.userIdentity);
            && id in h.auth.trust
            && var r := Refreshed(h.auth.trust[id], KeyOf(op.publicKey), OrDefault(op.trustExpiryMs, c.refreshTokenExpiryMs), now);
               Step(c, h, Event(now, op)) ==
                 WithToken(WithoutToken(WithTrust(h, id, r, h.agents), op.agentId, op.token),
                           TokenStore.Token(op.newToken, op.agentId, t.userIdentity, now + c.refreshTokenExpiryMs))
  {
  }

  lemma ReissueStores(c: Config, h: History, op: Op, now: int)
    requires Inv(h) && op.Reissue? && Fresh(h, op) && Apply(c, h.auth, op, now).1.Issued?
    ensures Inv(Step(c, h, Event(now, op)))
  {
    ReissuedAgent(c, h, op, now);
    var t := h.auth.tokens[TrustId(op.agentId, op.token)];
    var id := TrustId(op.agentId, t.userIdentity);
    ReissueShape(c, h, op, now);
    var r := Refreshed(h.auth.trust[id], KeyOf(op.publicKey), OrDefault(op.trustExpiryMs, c.refreshTokenExpiryMs), now);
    TrustGrows(h, id, r, h.agents);
    RemoveKeeps(WithTrust(h, id, r, h.agents), op.agentId, op.token);
    NoneLeft(h, op.agentId, op.token);
    StoreKeeps(WithoutToken(WithTrust(h, id, r, h.agents), op.agentId, op.token),
               TokenStore.Token(op.newToken, op.agentId, t.userIdentity, now + c.refreshTokenExpiryMs));
  }

  /** Only an agent with its own refresh token gets a new one. */
  lemma ReissuedAgent(c: Config, h: History, op: Op, now: int)
    requires Inv(h) && op.Reissue? && Apply(c, h.auth, op, now).1.Issued?
    ensures TrustId(op.agentId, op.token) in h.auth.tokens
    ensures var t := h.auth.tokens[TrustId(op.agentId, op.token)];
            && IsRefresh(t) && Core(op.token) == op.token && TrustId(op.agentId, t.userIdentity) in h.auth.trust
            && Lower(op.agentId) == Lower(t.agentId) && op.agentId != ANONYMOUS
            && GeneratedId(Lower(op.agentId)) && Lower(op.agentId) in h.agents
            && var r := h.auth.trust[TrustId(op.agentId, t.userIdentity)];
               TrustId(op.agentId, t.userIdentity) == TrustId(r.senderId, r.receiverId)
               && GeneratedId(r.senderId) && r.senderId in h.agents && !Occurs(r.senderId, Lower(r.receiverId))
  {
    var t := h.auth.tokens[TrustId(op.agentId, op.token)];
    TrustOfFound(h, op.agentId, op.token);
    FoundRefresh(h, op.agentId, op.token);
    assert KeyFits(TrustId(op.agentId, op.token), t, h.issued) && RefreshFits(t, h.auth.trust, h.agents);
    AnonymousIsNoAgent(op.agentId);
  }

  lemma ValidateKeeps(c: Config, h: History, e: Event)
    requires Inv(h) && (e.op.ValidateAuthToken? || e.op.ValidateRefreshToken?)
    ensures Inv(Step(c, h, e))
  {
    var owner := if e.op.ValidateAuthToken? then e.op.user else e.op.agentId;
    var (ts, found) := GetToken(h.auth.tokens, owner, e.op.token, e.now);
    var got := h.(auth := h.auth.(tokens := ts));
    GetKeeps(h, owner, e.op.token, e.now);
    RemoveKeeps(got, owner, e.op.token);
    assert Step(c, h, e) == if found.Some? && e.op.ValidateAuthToken? then WithoutToken(got, owner, e.op.token) else got;
  }

  lemma CleanupKeeps(c: Config, h: History, now: int)
    requires Inv(h)
    ensures Inv(Step(c, h, Event(now, Cleanup)))
  {
    ShrinkKeeps(h, h.(auth := h.auth.(tokens := CleanupTokens(CleanupTokens(h.auth.tokens, now), now))));
  }

  lemma StepInv(c: Config, h: History, e: Event)
    requires Inv(h) && Fresh(h, e.op)
    ensures Inv(Step(c, h, e))
  {
    match e.op
    case StoreAuthToken(token, user) => StoreAuthKeeps(c, h, token, user, e.now);
    case CreateAgent(_, _, _, _, _) => CreateKeeps(c, h, e.op, e.now);
    case Reissue(_, _, _, _, _, _) => ReissueKeeps(c, h, e.op, e.now);
    case Cleanup => CleanupKeeps(c, h, e.now);
    case _ => ValidateKeeps(c, h, e);
  }

  lemma {:induction false} RunInv(c: Config, h: History, events: seq<Event>)
    requires Inv(h) && FreshRun(c, h, events)
    ensures Inv(Run(c, h, events))
    decreases |events|
  {
    if events != [] {
      StepInv(c, h, events[0]);
      RunInv(c, Step(c, h, events[0]), events[1..]);
    }
  }

  /** In every run with fresh draws, no agent ever has two refresh tokens stored. */
  lemma OneRefreshTokenPerAgent(c: Config, events: seq<Event>, k: string, k': string)
    requires FreshRun(c, START, events)
    requires var ts := Run(c, START, events).auth.tokens;
             k in ts && k' in ts && IsRefresh(ts[k]) && IsRefresh(ts[k']) && Lower(ts[k].agentId) == Lower(ts[k'].agentId)
    ensures k == k'
  {
    RunInv(c, START, events);
  }

  // ------------------------------------------------------------ tokens are spent once

  /** A token given out once (in lower case) that no entry holds any more. */
  ghost predicate Dead(h: History, token: string) {
    token in h.issued && forall k :: k in h.auth.tokens ==> Lower(h.auth.tokens[k].token) != token
  }

  /** The call presents the token, in any case, alone or behind a part of its owner's identity. */
  predicate Presents(op: Op, token: string) {
    (op.ValidateAuthToken? || op.ValidateRefreshToken? || op.Reissue?) && Lower(Core(op.token)) == token
  }

  /** An accepted auth token, or a refresh token exchanged for a new one. */
  predicate Spends(c: Config, h: History, e: Event) {
    || (e.op.ValidateAuthToken? && Apply(c, h.auth, e.op, e.now).1.ValidUser?)
    || (e.op.Reissue? && Apply(c, h.auth, e.op, e.now).1.Issued?)
  }

  lemma DeadIsRefused(c: Config, h: History, op: Op, now: int, token: string)
    requires Inv(h) && Dead(h, token) && Presents(op, token)
    ensures Apply(c, h.auth, op, now).1 == Refused
  {
    var owner := if op.ValidateAuthToken? then op.user else op.agentId;
    if TrustId(owner, op.token) in h.auth.tokens {
      FoundCore(h, owner, op.token);
      assert false;
    }
  }

  lemma TakenOutIsDead(h: History, owner: string, token: string)
    requires Inv(h) && TrustId(owner, token) in h.auth.tokens
    ensures Dead(WithoutToken(h, owner, token), Lower(Core(token)))
  {
    FoundCore(h, owner, token);
  }

  lemma SpendingKills(c: Config, h: History, e: Event)
    requires Inv(h) && Fresh(h, e.op) && Spends(c, h, e)
    ensures Dead(Step(c, h, e), Lower(Core(e.op.token)))
  {
    var owner := if e.op.ValidateAuthToken? then e.op.user else e.op.agentId;
    TakenOutIsDead(h, owner, e.op.token);
    if e.op.Reissue? {
      ReissuedAgent(c, h, e.op, e.now);
      ReissueShape(c, h, e.op, e.now);
    }
  }

  lemma DeadStays(c: Config, h: History, e: Event, token: string)
    requires Dead(h, token) && Fresh(h, e.op)
    ensures Dead(Step(c, h, e), token)
  {
    var h' := Step(c, h, e);
    forall k | k in h'.auth.tokens ensures Lower(h'.auth.tokens[k].token) != token {
      StoredOrNew(c, h.auth, e.op, e.now, k);
    }
  }

  /** A call leaves only entries that were there, and one for the token it draws. */
  lemma StoredOrNew(c: Config, s: Auth, op: Op, now: int, k: string)
    requires k in Apply(c, s, op, now).0.tokens
    ensures var t := Apply(c, s, op, now).0.tokens[k];
            (k in s.tokens && s.tokens[k] == t) || NewToken(op) == Some(t.token)
  {
  }

  lemma {:induction false} DeadForever(c: Config, h: History, events: seq<Event>, token: string)
    requires Inv(h) && Dead(h, token) && FreshRun(c, h, events)
    ensures Inv(Run(c, h, events)) && Dead(Run(c, h, events), token)
    decreases |events|
  {
    if events != [] {
      StepInv(c, h, events[0]);
      DeadStays(c, h, events[0], token);
      DeadForever(c, Step(c, h, events[0]), events[1..], token);
    }
  }

  /**
   A validated auth token, and a refresh token once exchanged, is never accepted
   again: not for anyone, not in another case, not cut differently from its owner, not by any call.
   */
  lemma SpentForever(c: Config, before: seq<Event>, e: Event, after: seq<Event>, again: Event)
    requires FreshRun(c, START, before)
    requires var h := Run(c, START, before);
             Fresh(h, e.op) && Spends(c, h, e) && FreshRun(c, Step(c, h, e), after)
    requires Presents(again.op, Lower(Core(e.op.token)))
    ensures var h := Run(c, START, before);
            Apply(c, Run(c, Step(c, h, e), after).auth, again.op, again.now).1 == Refused
  {
    var h := Run(c, START, before);
    RunInv(c, START, before);
    StepInv(c, h, e);
    SpendingKills(c, h, e);
    DeadForever(c, Step(c, h, e), after, Lower(Core(e.op.token)));
    DeadIsRefused(c, Run(c, Step(c, h, e), after), again.op, again.now, Lower(Core(e.op.token)));
  }

  /** Exactly a stored, unexpired refresh token of the agent, with a usable key or none, is exchanged, unless the update is rejected. */
  lemma ReissueIff(c: Config, h: History, op: Op, now: int)
    requires Inv(h) && op.Reissue?
    ensures Apply(c, h.auth, op, now).1.Issued? <==>
              && TrustId(op.agentId, op.token) in h.auth.tokens
              && now <= h.auth.tokens[TrustId(op.agentId, op.token)].expiresAt
              && IsRefresh(h.auth.tokens[TrustId(op.agentId, op.token)])
              && (Given(op.publicKey) ==> op.publicKey.value.PublicPem?)
              && !op.rejects
  {
    if TrustId(op.agentId, op.token) in h.auth.tokens {
      TrustOfFound(h, op.agentId, op.token);
    }
  }

  /** The exchange: the old token out, one new one in, everything else untouched. */
  lemma ReissueSwaps(c: Config, h: History, op: Op, now: int)
    requires Inv(h) && op.Reissue? && Fresh(h, op) && Apply(c, h.auth, op, now).1.Issued?
    ensures Swapped(h.auth.tokens, Apply(c, h.auth, op, now).0.tokens, TrustId(op.agentId, op.token), TrustId(op.agentId, op.newToken))
  {
    NewKeyIsNew(h, op.agentId, op.newToken);
    TokensSwap(c, h.auth, op, now);
  }

  /** `next` took the place of `was`, for the same user. */
  ghost predicate Swapped(ts: Tokens, ts': Tokens, was: string, next: string) {
    && was in ts && next !in ts && ts'.Keys == ts.Keys - {was} + {next} && |ts'| == |ts|
    && (forall k :: k in ts' && k != next ==> ts'[k] == ts[k])
    && ts'[next].userIdentity == ts[was].userIdentity
  }

  lemma TokensAfterReissue(c: Config, s: Auth, op: Op, now: int)
    requires op.Reissue? && Apply(c, s, op, now).1.Issued?
    ensures var was, next := TrustId(op.agentId, op.token), TrustId(op.agentId, op.newToken);
            && was in s.tokens
            && Apply(c, s, op, now).0.tokens == (s.tokens - {was})[next :=
                 TokenStore.Token(op.newToken, op.agentId, s.tokens[was].userIdentity, now + c.refreshTokenExpiryMs)]
  {
  }

  lemma TokensSwap(c: Config, s: Auth, op: Op, now: int)
    requires op.Reissue? && Apply(c, s, op, now).1.Issued? && TrustId(op.agentId, op.newToken) !in s.tokens
    ensures Swapped(s.tokens, Apply(c, s, op, now).0.tokens, TrustId(op.agentId, op.token), TrustId(op.agentId, op.newToken))
  {
    var was, next := TrustId(op.agentId, op.token), TrustId(op.agentId, op.newToken);
    TokensAfterReissue(c, s, op, now);
    SwapKeys(s.tokens, was, next, Apply(c, s, op, now).0.tokens[next]);
  }

  lemma SwapKeys(ts: Tokens, was: string, next: string, t: TokenStore.Token)
    requires was in ts && next !in ts && t.userIdentity == ts[was].userIdentity
    ensures Swapped(ts, (ts - {was})[next := t], was, next)
  {
    var ts' := (ts - {was})[next := t];
    assert (ts - {was}).Keys == ts.Keys - {was};
    assert ts'.Keys == ts.Keys - {was} + {next};
    assert |ts.Keys| == |ts| && |ts'.Keys| == |ts'|;
  }

  /** The new token is good for the same agent and user, until its own expiry. */
  lemma ReissuedIsGood(c: Config, s: Auth, op: Op, now: int, later: int)
    requires op.Reissue? && Apply(c, s, op, now).1.Issued?
    ensures TrustId(op.agentId, op.token) in s.tokens
    ensures Apply(c, Apply(c, s, op, now).0, ValidateRefreshToken(op.agentId, op.newToken), later).1 ==
              if later <= now + c.refreshTokenExpiryMs
              then ValidAgent(op.agentId, s.tokens[TrustId(op.agentId, op.token)].userIdentity)
              else Refused
  {
    TokensAfterReissue(c, s, op, now);
  }

  lemma NewKeyIsNew(h: History, owner: string, token: string)
    requires Inv(h) && NoColon(token) && Lower(token) !in h.issued
    ensures TrustId(owner, token) !in h.auth.tokens
  {
    if TrustId(owner, token) in h.auth.tokens {
      FoundCore(h, owner, token);
      assert false;
    }
  }

  /**
   `validateAuthToken` answers with the user it was asked for, up to case, if and
   only if what it found was an auth token and the token presented has no colon.
   */
  lemma AnswersOwnUserIff(c: Config, h: History, user: string, token: string, now: int)
    requires Inv(h) && Apply(c, h.auth, ValidateAuthToken(user, token), now).1.ValidUser?
    ensures Lower(Apply(c, h.auth, ValidateAuthToken(user, token), now).1.userIdentity) == Lower(user) <==>
              !IsRefresh(h.auth.tokens[TrustId(user, token)]) && NoColon(token)
  {
    var t := h.auth.tokens[TrustId(user, token)];
    assert KeyFits(TrustId(user, token), t, h.issued) && RefreshFits(t, h.auth.trust, h.agents);
    FoundCore(h, user, token);
    if IsRefresh(t) {
      FoundRefresh(h, user, token);
      var r := h.auth.trust[TrustId(t.agentId, t.userIdentity)];
      LowerKeepsColons(t.agentId);
      TrustIdInjective(r.senderId, r.receiverId, t.agentId, t.userIdentity);
      assert !Occurs(r.senderId, Lower(t.userIdentity));
      if Lower(t.userIdentity) == Lower(user) {
        var u := Lower(t.userIdentity);
        assert OccursAt(u, u, 0);
      }
    }
  }

  /** `validateRefreshToken` names the agent asked for, up to case, if it found a refresh token, and nobody for an auth token. */
  lemma AgentAnswered(c: Config, h: History, agentId: string, token: string, now: int)
    requires Inv(h) && Apply(c, h.auth, ValidateRefreshToken(agentId, token), now).1.ValidAgent?
    ensures var t, named := h.auth.tokens[TrustId(agentId, token)], Apply(c, h.auth, ValidateRefreshToken(agentId, token), now).1.agentId;
            if IsRefresh(t) then Lower(named) == Lower(agentId) else named == ANONYMOUS
  {
    if IsRefresh(h.auth.tokens[TrustId(agentId, token)]) {
      FoundRefresh(h, agentId, token);
    }
  }

  /** An agent's refresh token passes as an auth token under the agent's id, answers with its user, and is spent. */
  lemma RefreshTokenAsAuthToken(c: Config, lifetime: nat)
    requires c.refreshTokenExpiryMs == lifetime
    ensures var create := CreateAgent("btps_ag_1", "t", "me$d.e", PublicPem(7), None);
            var s := Apply(c, START.auth, create, 0).0;
            && Apply(c, s, ValidateAuthToken("btps_ag_1", "t"), lifetime).1 == ValidUser("me$d.e")
            && Apply(c, s, ValidateAuthToken("btps_ag_1", "t"), lifetime).0.tokens == map[]
  {
    var s := Apply(c, START.auth, CreateAgent("btps_ag_1", "t", "me$d.e", PublicPem(7), None), 0).0;
    assert s.tokens == map[TrustId("btps_ag_1", "t") := TokenStore.Token("t", "btps_ag_1", "me$d.e", lifetime)];
  }

  /** An auth token passes as a refresh token under its user's identity, for the agent "anonymous". */
  lemma AuthTokenAsRefreshToken(c: Config, lifetime: nat)
    requires c.authTokenExpiryMs == lifetime
    ensures var s := Apply(c, START.auth, StoreAuthToken("t", "me$d.e"), 0).0;
            Apply(c, s, ValidateRefreshToken("me$d.e", "t"), lifetime).1 == ValidAgent(ANONYMOUS, "me$d.e")
  {
    var s := Apply(c, START.auth, StoreAuthToken("t", "me$d.e"), 0).0;
    assert s.tokens == map[TrustId("me$d.e", "t") := TokenStore.Token("t", ANONYMOUS, "me$d.e", lifetime)];
  }

  /** With a colon in the user's identity, its token validates for what stands before the colon. */
  lemma ColonMovesTheUser(c: Config, lifetime: nat)
    requires c.authTokenExpiryMs == lifetime
    ensures var s := Apply(c, START.auth, StoreAuthToken("t", "a$b.c:d"), 0).0;
            Apply(c, s, ValidateAuthToken("a$b.c", "d:t"), lifetime).1 == ValidUser("a$b.c:d")
  {
    var s := Apply(c, START.auth, StoreAuthToken("t", "a$b.c:d"), 0).0;
    MovedColon("a$b.c", "d", "t");
    assert "a$b.c" + ":" + "d" == "a$b.c:d" && "d" + ":" + "t" == "d:t";
    assert s.tokens == map[TrustId("a$b.c:d", "t") := TokenStore.Token("t", ANONYMOUS, "a$b.c:d", lifetime)];
  }

  // -------------------------------------------------------------------- key history

  function Fingerprints(history: seq<KeySeen>): seq<nat> {
    if history == [] then [] else Fingerprints(history[..|history| - 1]) + [history[|history| - 1].fingerprint]
  }

  /** Every key the record ever had, oldest first, the current one last. */
  function Timeline(r: TrustRecord): seq<nat> {
    Fingerprints(r.keyHistory) + [r.publicKeyFingerprint]
  }

  /** The call is about the trust record `id`, if it gets that far. */
  predicate IsAbout(h: History, op: Op, id: string) {
    && op.Reissue? && TrustId(op.agentId, op.token) in h.auth.tokens
    && id == TrustId(op.agentId, h.auth.tokens[TrustId(op.agentId, op.token)].userIdentity)
  }

  /** The event renews the trust record `id`. */
  predicate Renews(c: Config, h: History, e: Event, id: string) {
    e.op.Reissue? && Apply(c, h.auth, e.op, e.now).1.Issued? && IsAbout(h, e.op, id)
  }

  /** The event is a renewal of the record whose update the store rejects. */
  predicate Rejects(c: Config, h: History, e: Event, id: string) {
    e.op.Reissue? && Apply(c, h.auth, e.op, e.now).1.UpdateRejected? && IsAbout(h, e.op, id)
  }

  /** The renewal, accepted or rejected, presents another key than the record's current one. */
  predicate Appends(c: Config, h: History, e: Event, id: string) {
    && (Renews(c, h, e, id) || Rejects(c, h, e, id))
    && id in h.auth.trust && Rotates(h.auth.trust[id], KeyOf(e.op.publicKey))
  }

  /** No renewal of the run is rejected while presenting another key. */
  predicate NoRejectedRotation(c: Config, h: History, events: seq<Event>, id: string)
    decreases |events|
  {
    events != [] ==>
      && !(Rejects(c, h, events[0], id) && Appends(c, h, events[0], id))
      && NoRejectedRotation(c, Step(c, h, events[0]), events[1..], id)
  }

  /** The keys presented with the accepted renewals of `id` in a run, in order. */
  function Presented(c: Config, h: History, events: seq<Event>, id: string): seq<nat>
    decreases |events|
  {
    if events == [] then []
    else
      (if Renews(c, h, events[0], id) && KeyOf(events[0].op.publicKey).Some? then [KeyOf(events[0].op.publicKey).value] else [])
      + Presented(c, Step(c, h, events[0]), events[1..], id)
  }

  /** The successive distinct ones: each that differs from the one before it. */
  function Successive(current: nat, keys: seq<nat>): seq<nat>
    decreases |keys|
  {
    if keys == [] then []
    else if keys[0] == current then Successive(current, keys[1..])
    else [keys[0]] + Successive(keys[0], keys[1..])
  }

  /** What the run adds to the timeline: the new key of a rotation, the current one again for a rejected one. */
  function Noted(c: Config, h: History, events: seq<Event>, id: string): seq<nat>
    decreases |events|
  {
    if events == [] then []
    else
      var rest := Noted(c, Step(c, h, events[0]), events[1..], id);
      if !Appends(c, h, events[0], id) then rest
      else if Renews(c, h, events[0], id) then [KeyOf(events[0].op.publicKey).value] + rest
      else [h.auth.trust[id].publicKeyFingerprint] + rest
  }

  lemma StepRecord(c: Config, h: History, e: Event, id: string)
    requires id in h.auth.trust
    ensures id in Step(c, h, e).auth.trust
    ensures Step(c, h, e).auth.trust[id] ==
              if Renews(c, h, e, id)
              then Refreshed(h.auth.trust[id], KeyOf(e.op.publicKey), OrDefault(e.op.trustExpiryMs, c.refreshTokenExpiryMs), e.now)
              else if Rejects(c, h, e, id) then Pushed(h.auth.trust[id], KeyOf(e.op.publicKey), e.now)
              else h.auth.trust[id]
  {
  }

  /** An accepted rotation appends one entry and the new key; no other renewal changes the timeline. */
  lemma RefreshedTimeline(r: TrustRecord, key: Option<nat>, lifetime: int, now: int)
    ensures var r' := Refreshed(r, key, lifetime, now);
            && Timeline(r') == (if Rotates(r, key) then Timeline(r) + [key.value] else Timeline(r))
            && r.keyHistory <= r'.keyHistory
            && |r'.keyHistory| == |r.keyHistory| + if Rotates(r, key) then 1 else 0
  {
    var r' := Refreshed(r, key, lifetime, now);
    if Rotates(r, key) {
      assert r'.keyHistory[..|r'.keyHistory| - 1] == r.keyHistory;
    }
  }

  /** A rejected rotation appends one entry as well, and the current key comes twice. */
  lemma PushedTimeline(r: TrustRecord, key: Option<nat>, now: int)
    ensures var r' := Pushed(r, key, now);
            && Timeline(r') == (if Rotates(r, key) then Timeline(r) + [r.publicKeyFingerprint] else Timeline(r))
            && r.keyHistory <= r'.keyHistory
            && |r'.keyHistory| == |r.keyHistory| + if Rotates(r, key) then 1 else 0
  {
    var r' := Pushed(r, key, now);
    if Rotates(r, key) {
      assert r'.keyHistory[..|r'.keyHistory| - 1] == r.keyHistory;
    }
  }

  lemma StepTimeline(c: Config, h: History, e: Event, id: string)
    requires id in h.auth.trust
    ensures id in Step(c, h, e).auth.trust
    ensures var r, r' := h.auth.trust[id], Step(c, h, e).auth.trust[id];
            && r.keyHistory <= r'.keyHistory
            && Timeline(r') == Timeline(r) +
                 (if !Appends(c, h, e, id) then []
                  else if Renews(c, h, e, id) then [KeyOf(e.op.publicKey).value] else [r.publicKeyFingerprint])
  {
    var r := h.auth.trust[id];
    StepRecord(c, h, e, id);
    if e.op.Reissue? {
      RefreshedTimeline(r, KeyOf(e.op.publicKey), OrDefault(e.op.trustExpiryMs, c.refreshTokenExpiryMs), e.now);
      PushedTimeline(r, KeyOf(e.op.publicKey), e.now);
    }
  }

  /** Over every run of calls the history only grows, and the timeline by exactly what `Noted` says. */
  lemma {:induction false} TimelineGrows(c: Config, h: History, events: seq<Event>, id: string)
    requires id in h.auth.trust
    ensures id in Run(c, h, events).auth.trust
    ensures var r, r' := h.auth.trust[id], Run(c, h, events).auth.trust[id];
            r.keyHistory <= r'.keyHistory && Timeline(r') == Timeline(r) + Noted(c, h, events, id)
    decreases |events|
  {
    if events != [] {
      StepTimeline(c, h, events[0], id);
      TimelineGrows(c, Step(c, h, events[0]), events[1..], id);
    }
  }

  /** What is noted is the successive distinct keys, or longer, for a rejected rotation. */
  lemma {:induction false} NotedIs(c: Config, h: History, events: seq<Event>, id: string)
    requires id in h.auth.trust
    ensures var keys := Successive(h.auth.trust[id].publicKeyFingerprint, Presented(c, h, events, id));
            if NoRejectedRotation(c, h, events, id) then Noted(c, h, events, id) == keys else |Noted(c, h, events, id)| > |keys|
    decreases |events|
  {
    if events != [] {
      var e, h1 := events[0], Step(c, h, events[0]);
      var rest := Presented(c, h1, events[1..], id);
      StepRecord(c, h, e, id);
      NotedIs(c, h1, events[1..], id);
      if Renews(c, h, e, id) && KeyOf(e.op.publicKey).Some? {
        SuccessiveCons(h.auth.trust[id].publicKeyFingerprint, KeyOf(e.op.publicKey).value, rest);
      } else {
        assert Presented(c, h, events, id) == rest;
      }
    }
  }

  lemma SuccessiveCons(current: nat, key: nat, rest: seq<nat>)
    ensures Successive(current, [key] + rest) == (if key == current then [] else [key]) + Successive(key, rest)
  {
    assert ([key] + rest)[1..] == rest;
  }

  /**
   Over every run of calls, history plus current key are exactly the successive
   distinct keys presented if and only if no renewal was rejected that presented
   a key other than the current one.
   */
  lemma HistoryIsTimelineIff(c: Config, h: History, events: seq<Event>, id: string)
    requires id in h.auth.trust
    ensures id in Run(c, h, events).auth.trust
    ensures var r, r' := h.auth.trust[id], Run(c, h, events).auth.trust[id];
            Timeline(r') == Timeline(r) + Successive(r.publicKeyFingerprint, Presented(c, h, events, id)) <==>
              NoRejectedRotation(c, h, events, id)
  {
    TimelineGrows(c, h, events, id);
    NotedIs(c, h, events, id);
  }

  // ------------------------------------------------------------------ its intervals

  /** firstSeen <= lastSeen <= every later firstSeen. */
  predicate Intervals(seen: seq<KeySeen>) {
    && (forall i :: 0 <= i < |seen| ==> seen[i].firstSeen <= seen[i].lastSeen)
    && (forall i, j :: 0 <= i < j < |seen| ==> seen[i].lastSeen <= seen[j].firstSeen)
  }

  /** The last interval ends after the last decision. */
  predicate Overhangs(r: TrustRecord) {
    r.keyHistory != [] && r.keyHistory[|r.keyHistory| - 1].lastSeen > r.decidedAt
  }

  predicate Past(r: TrustRecord, clock: int) {
    r.decidedAt <= clock && (r.keyHistory != [] ==> r.keyHistory[|r.keyHistory| - 1].lastSeen <= clock)
  }

  /** No renewal of the run, accepted or rejected, presents another key to a record that overhangs. */
  predicate NeverMeetsOverhang(c: Config, h: History, events: seq<Event>, id: string)
    decreases |events|
  {
    events != [] ==>
      && !(Appends(c, h, events[0], id) && Overhangs(h.auth.trust[id]))
      && NeverMeetsOverhang(c, Step(c, h, events[0]), events[1..], id)
  }

  lemma AppendedIntervals(seen: seq<KeySeen>, e: KeySeen)
    requires Intervals(seen) && e.firstSeen <= e.lastSeen
    ensures Intervals(seen + [e]) <==> seen == [] || seen[|seen| - 1].lastSeen <= e.firstSeen
  {
    var all := seen + [e];
    if seen != [] {
      assert all[|seen| - 1] == seen[|seen| - 1] && all[|seen|] == e;
    }
  }

  lemma IntervalsPrefix(seen: seq<KeySeen>, all: seq<KeySeen>)
    requires seen <= all && Intervals(all)
    ensures Intervals(seen)
  {
    assert forall i :: 0 <= i < |seen| ==> seen[i] == all[i];
  }

  /** A record overhangs after a rejected rotation later than its last decision, until it is renewed. */
  lemma StepOverhangs(c: Config, h: History, e: Event, id: string, clock: int)
    requires id in h.auth.trust && Past(h.auth.trust[id], clock) && clock <= e.now
    ensures id in Step(c, h, e).auth.trust && Past(Step(c, h, e).auth.trust[id], e.now)
    ensures Overhangs(Step(c, h, e).auth.trust[id]) <==>
              if Rejects(c, h, e, id) && Appends(c, h, e, id) then h.auth.trust[id].decidedAt < e.now
              else Overhangs(h.auth.trust[id]) && !Renews(c, h, e, id)
  {
    StepRecord(c, h, e, id);
  }

  lemma StepIntervals(c: Config, h: History, e: Event, id: string, clock: int)
    requires id in h.auth.trust && Past(h.auth.trust[id], clock) && clock <= e.now && Intervals(h.auth.trust[id].keyHistory)
    ensures id in Step(c, h, e).auth.trust
    ensures Intervals(Step(c, h, e).auth.trust[id].keyHistory) <==> !(Appends(c, h, e, id) && Overhangs(h.auth.trust[id]))
  {
    var r := h.auth.trust[id];
    StepRecord(c, h, e, id);
    AppendedIntervals(r.keyHistory, KeySeen(r.publicKeyFingerprint, r.decidedAt, e.now));
  }

  predicate ClockRuns(clock: int, events: seq<Event>)
    decreases |events|
  {
    events != [] ==> clock <= events[0].now && ClockRuns(events[0].now, events[1..])
  }

  /**
   On a clock that never goes back, a history in order stays so over a run if and
   only if no renewal presents another key to a record that overhangs.
   */
  lemma {:induction false} IntervalsOrderedIff(c: Config, h: History, clock: int, events: seq<Event>, id: string)
    requires id in h.auth.trust && Past(h.auth.trust[id], clock) && ClockRuns(clock, events)
    requires Intervals(h.auth.trust[id].keyHistory)
    ensures id in Run(c, h, events).auth.trust
    ensures Intervals(Run(c, h, events).auth.trust[id].keyHistory) <==> NeverMeetsOverhang(c, h, events, id)
    decreases |events|
  {
    if events != [] {
      var e, h1 := events[0], Step(c, h, events[0]);
      StepOverhangs(c, h, e, id, clock);
      StepIntervals(c, h, e, id, clock);
      TimelineGrows(c, h1, events[1..], id);
      if Intervals(h1.auth.trust[id].keyHistory) {
        IntervalsOrderedIff(c, h1, e.now, events[1..], id);
      } else if Intervals(Run(c, h, events).auth.trust[id].keyHistory) {
        IntervalsPrefix(h1.auth.trust[id].keyHistory, Run(c, h, events).auth.trust[id].keyHistory);
      }
    }
  }

  /** Without rejected rotations a record that does not overhang never comes to, so its intervals stay in order. */
  lemma {:induction false} NoRejectionNoOverhang(c: Config, h: History, clock: int, events: seq<Event>, id: string)
    requires id in h.auth.trust && Past(h.auth.trust[id], clock) && ClockRuns(clock, events)
    requires !Overhangs(h.auth.trust[id]) && NoRejectedRotation(c, h, events, id)
    ensures NeverMeetsOverhang(c, h, events, id)
    decreases |events|
  {
    if events != [] {
      StepOverhangs(c, h, events[0], id, clock);
      NoRejectionNoOverhang(c, Step(c, h, events[0]), events[0].now, events[1..], id);
    }
  }

  /** The shortest failure: key 1, a rejected renewal with key 2, and the retry. Key 1 is noted twice, in overlapping intervals. */
  lemma RetryAfterRejection(c: Config, s: Auth, first: Op, retry: Op, r: TrustRecord)
    requires first.Reissue? && first.rejects && first.publicKey == Some(PublicPem(2)) && retry == first.(rejects := false)
    requires TrustId(first.agentId, first.token) in s.tokens && s.tokens[TrustId(first.agentId, first.token)].expiresAt >= 6
    requires var id := TrustId(first.agentId, s.tokens[TrustId(first.agentId, first.token)].userIdentity);
             id in s.trust && s.trust[id] == r
    requires r.publicKeyFingerprint == 1 && r.decidedAt == 0 && r.keyHistory == []
    ensures var id := TrustId(first.agentId, s.tokens[TrustId(first.agentId, first.token)].userIdentity);
            var (s1, answer1) := Apply(c, s, first, 5);
            var (s2, answer2) := Apply(c, s1, retry, 6);
            && answer1 == UpdateRejected && answer2.Issued? && id in s2.trust
            && Timeline(s2.trust[id]) == [1, 1, 2] && !Intervals(s2.trust[id].keyHistory)
  {
    var lifetime := OrDefault(retry.trustExpiryMs, c.refreshTokenExpiryMs);
    var r1 := Pushed(r, Some(2), 5);
    var r2 := Refreshed(r1, Some(2), lifetime, 6);
    RejectedTouchesHistoryOnly(c, s, first, 5);
    PushedTimeline(r, Some(2), 5);
    RefreshedTimeline(r1, Some(2), lifetime, 6);
    assert Timeline(r) == [1];
    assert r2.keyHistory == [KeySeen(1, 0, 5), KeySeen(1, 0, 6)];
    assert r2.keyHistory[0].lastSeen > r2.keyHistory[1].firstSeen;
  }

  /** A renewal that presents no key, or again the current one. */
  datatype Renewal = Renewal(now: int, key: Option<nat>)

  predicate KeepKey(r: TrustRecord, renewals: seq<Renewal>) {
    forall i :: 0 <= i < |renewals| ==> !Rotates(r, renewals[i].key)
  }

  function KeptRenewed(r: TrustRecord, renewals: seq<Renewal>, lifetime: int): TrustRecord
    decreases |renewals|
  {
    if renewals == [] then r else KeptRenewed(Refreshed(r, renewals[0].key, lifetime, renewals[0].now), renewals[1..], lifetime)
  }

  /**
   The interval noted for a key begins with the last renewal before it was
   rotated: that is its first use if and only if no renewal came later than that.
   */
  lemma FirstSeenIsLastRenewal(r: TrustRecord, since: int, renewals: seq<Renewal>, key: nat, lifetime: int, now: int)
    requires r.decidedAt == since && key != r.publicKeyFingerprint && KeepKey(r, renewals)
    ensures var kept := KeptRenewed(r, renewals, lifetime);
            var r' := Refreshed(kept, Some(key), lifetime, now);
            var last := if renewals == [] then since else renewals[|renewals| - 1].now;
            && |r'.keyHistory| == |r.keyHistory| + 1
            && r'.keyHistory[|r.keyHistory|] == KeySeen(r.publicKeyFingerprint, last, now)
            && (r'.keyHistory[|r.keyHistory|].firstSeen == since <==> last == since)
  {
    RenewedKeepsKey(r, renewals, lifetime);
  }

  lemma {:induction false} RenewedKeepsKey(r: TrustRecord, renewals: seq<Renewal>, lifetime: int)
    requires KeepKey(r, renewals)
    ensures var r' := KeptRenewed(r, renewals, lifetime);
            && r'.keyHistory == r.keyHistory && r'.publicKeyFingerprint == r.publicKeyFingerprint
            && r'.decidedAt == if renewals == [] then r.decidedAt else renewals[|renewals| - 1].now
    decreases |renewals|
  {
    if renewals != [] {
      var next := Refreshed(r, renewals[0].key, lifetime, renewals[0].now);
      assert KeepKey(next, renewals[1..]);
      RenewedKeepsKey(next, renewals[1..], lifetime);
      assert |renewals| > 1 ==> renewals[1..][|renewals| - 2] == renewals[|renewals| - 1];
    }
  }
}
