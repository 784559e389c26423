/**
 The client's in-memory session store: sessions by agent id, and an index from
 the user identity to the agent id stored for it last.
 */
module SessionStore {
  import opened Wrappers

  datatype Session = Session(agentId: string, userIdentity: string, expiresAt: int, refreshToken: string)

  datatype Sessions = Sessions(byAgent: map<string, Session>, index: map<string, string>)

  predicate IsExpired(s: Session, now: int) {
    now > s.expiresAt
  }

  function Stored(st: Sessions, s: Session): Sessions {
    Sessions(st.byAgent[s.agentId := s], st.index[s.userIdentity := s.agentId])
  }

  function Removed(st: Sessions, agentId: string): Sessions {
    if agentId !in st.byAgent then st
    else Sessions(st.byAgent - {agentId}, st.index - {st.byAgent[agentId].userIdentity})
  }

  function ExpiredIds(st: Sessions, now: int): set<string> {
    set a | a in st.byAgent && IsExpired(st.byAgent[a], now)
  }

  function Users(st: Sessions, ids: set<string>): set<string> {
    set a | a in ids && a in st.byAgent :: st.byAgent[a].userIdentity
  }

  function Cleaned(st: Sessions, now: int): Sessions {
    Sessions(st.byAgent - ExpiredIds(st, now), st.index - Users(st, ExpiredIds(st, now)))
  }

  function AgentLookup(st: Sessions, agentId: string, now: int): (Sessions, Option<Session>) {
    if agentId !in st.byAgent then (st, None)
    else if IsExpired(st.byAgent[agentId], now) then (Removed(st, agentId), None)
    else (st, Some(st.byAgent[agentId]))
  }

  function IdentityLookup(st: Sessions, identity: string, now: int): (Sessions, Option<Session>) {
    if identity !in st.index || st.index[identity] == "" then (st, None)
    else AgentLookup(st, st.index[identity], now)
  }

  datatype Op =
    | Store(session: Session)
    | GetByAgentId(agentId: string, now: int)
    | GetByIdentity(identity: string, now: int)
    | Remove(agentId: string)
    | Cleanup(now: int)
    | Clear

  function Apply(st: Sessions, op: Op): Sessions {
    match op
    case Store(s) => Stored(st, s)
    case GetByAgentId(a, now) => AgentLookup(st, a, now).0
    case GetByIdentity(u, now) => IdentityLookup(st, u, now).0
    case Remove(a) => Removed(st, a)
    case Cleanup(now) => Cleaned(st, now)
    case Clear => Sessions(map[], map[])
  }

  class InMemoryAuthSessionStore {
    var sessions: map<string, Session>
    var identityIndex: map<string, string>

    constructor ()
      ensures Model() == Sessions(map[], map[])
    {
      sessions, identityIndex := map[], map[];
    }

    ghost function Model(): Sessions
      reads this
    {
      Sessions(sessions, identityIndex)
    }

    method Store(session: Session)
      modifies this
      ensures Model() == Apply(old(Model()), Op.Store(session))
    {
      sessions := sessions[session.agentId := session];
      identityIndex := identityIndex[session.userIdentity := session.agentId];
    }

    method GetByAgentId(agentId: string, now: int) returns (r: Option<Session>)
      modifies this
      ensures (Model(), r) == AgentLookup(old(Model()), agentId, now)
    {
      if agentId !in sessions { return None; }
      var session := sessions[agentId];
      if now > session.expiresAt {
        Remove(agentId);
        return None;
      }
      return Some(session);
    }

    method GetByIdentity(identity: string, now: int) returns (r: Option<Session>)
      modifies this
      ensures (Model(), r) == IdentityLookup(old(Model()), identity, now)
    {
      if identity !in identityIndex || identityIndex[identity] == "" { return None; }
      r := GetByAgentId(identityIndex[identity], now);
    }

    method Remove(agentId: string)
      modifies this
      ensures Model() == Removed(old(Model()), agentId)
    {
      if agentId in sessions {
        identityIndex := identityIndex - {sessions[agentId].userIdentity};
      }
      sessions := sessions - {agentId};
    }

    /** `cleanup`: collect the expired ids, then remove them one by one. */
    method Cleanup(now: int)
      modifies this
      ensures Model() == Cleaned(old(Model()), now)
    {
      ghost var before := Model();
      var expired: set<string> := set a | a in sessions && now > sessions[a].expiresAt;
      assert expired == ExpiredIds(before, now);
      var todo := expired;
      while todo != {}
        invariant todo <= expired
        invariant sessions == before.byAgent - (expired - todo)
        invariant identityIndex == before.index - Users(before, expired - todo)
        decreases todo
      {
        var a :| a in todo;
        label L:
        Remove(a);
        assert Users(before, expired - (todo - {a})) == Users(before, expired - todo) + {before.byAgent[a].userIdentity};
        assert expired - (todo - {a}) == (expired - todo) + {a};
        todo := todo - {a};
      }
      assert expired - {} == expired;
    }
  }

  // ---------------------------------------------------------------- whole runs

  function After(h: seq<Op>): Sessions {
    if h == [] then Sessions(map[], map[]) else Apply(After(h[..|h| - 1]), h[|h| - 1])
  }

  /** An agent id is never stored for two users. */
  ghost predicate OneUserPerAgent(h: seq<Op>) {
    forall i, j :: 0 <= i < |h| && 0 <= j < |h| && h[i].Store? && h[j].Store? ==>
      (h[i].session.agentId == h[j].session.agentId ==> h[i].session.userIdentity == h[j].session.userIdentity)
  }

  function LastStored(h: seq<Op>, identity: string): Option<Session> {
    if h == [] then None
    else
      var op := h[|h| - 1];
      if op.Store? && op.session.userIdentity == identity then Some(op.session)
      else if op.Clear? then None
      else LastStored(h[..|h| - 1], identity)
  }

  /** The agents whose sessions the operation takes out of the store. */
  function Dropped(st: Sessions, op: Op): set<string> {
    st.byAgent.Keys - Apply(st, op).byAgent.Keys
  }

  /** Since the last session stored for the identity, some session of that identity left the store. */
  predicate Forgotten(h: seq<Op>, identity: string) {
    h != [] &&
    var rest, op := h[..|h| - 1], h[|h| - 1];
    if op.Store? && op.session.userIdentity == identity then false
    else Forgotten(rest, identity) || identity in Users(After(rest), Dropped(After(rest), op))
  }

  function LastOfAgent(h: seq<Op>, agentId: string): Option<Session> {
    if h == [] then None
    else
      var op := h[|h| - 1];
      if op.Store? && op.session.agentId == agentId then Some(op.session)
      else if op.Clear? then None
      else LastOfAgent(h[..|h| - 1], agentId)
  }

  /** Since a session was stored for the agent last, it left the store. */
  predicate Gone(h: seq<Op>, agentId: string) {
    h != [] &&
    var rest, op := h[..|h| - 1], h[|h| - 1];
    if op.Store? && op.session.agentId == agentId then false
    else Gone(rest, agentId) || agentId in Dropped(After(rest), op)
  }

  /** The session an agent id holds: the one stored for it last, unless it left the store since. */
  function Held(h: seq<Op>, agentId: string): Option<Session> {
    if Gone(h, agentId) then None else LastOfAgent(h, agentId)
  }

  /** The agent an identity points at: that of its session stored last, unless one of the identity left the store since. */
  function PointsAt(h: seq<Op>, identity: string): Option<string> {
    if LastStored(h, identity).None? || Forgotten(h, identity) then None else Some(LastStored(h, identity).value.agentId)
  }

  ghost predicate IndexSound(st: Sessions) {
    forall u :: u in st.index ==> st.index[u] in st.byAgent && st.byAgent[st.index[u]].userIdentity == u
  }

  ghost predicate StoredIn(h: seq<Op>, s: Session) {
    exists i :: 0 <= i < |h| && h[i] == Store(s)
  }

  lemma {:induction false} SessionsWereStored(h: seq<Op>)
    ensures forall a :: a in After(h).byAgent ==> After(h).byAgent[a].agentId == a && StoredIn(h, After(h).byAgent[a])
  {
    if h != [] {
      var rest, op := h[..|h| - 1], h[|h| - 1];
      SessionsWereStored(rest);
      forall a | a in After(h).byAgent
        ensures After(h).byAgent[a].agentId == a && StoredIn(h, After(h).byAgent[a])
      {
        var s := After(h).byAgent[a];
        if op == Store(s) {
          assert h[|h| - 1] == Store(s);
        } else {
          assert After(rest).byAgent[a] == s && StoredIn(rest, s);
          var i :| 0 <= i < |rest| && rest[i] == Store(s);
          assert h[i] == Store(s);
        }
      }
    }
  }

  /** What an operation takes away it takes from both maps, whole. */
  lemma DropEffect(st: Sessions, op: Op)
    requires !op.Store? && !op.Clear?
    ensures var st' := Apply(st, op);
            && st'.byAgent == st.byAgent - Dropped(st, op)
            && st'.index == st.index - Users(st, Dropped(st, op))
            && (IndexSound(st) ==> IndexSound(st'))
  {
    var st', gone := Apply(st, op), Dropped(st, op);
    match op
    case Cleanup(now) =>
      assert gone == ExpiredIds(st, now);
    case Remove(a) => SingleDrop(st, a);
    case GetByAgentId(a, now) => SingleDrop(st, a);
    case GetByIdentity(u, now) =>
      if u in st.index { SingleDrop(st, st.index[u]); }
    forall u | u in st'.index && IndexSound(st)
      ensures st'.index[u] in st'.byAgent && st'.byAgent[st'.index[u]].userIdentity == u
    {
      assert st.index[u] !in gone;
    }
  }

  lemma SingleDrop(st: Sessions, a: string)
    ensures var gone := st.byAgent.Keys - Removed(st, a).byAgent.Keys;
            && Removed(st, a).byAgent == st.byAgent - gone
            && Removed(st, a).index == st.index - Users(st, gone)
    ensures st.byAgent - (st.byAgent.Keys - st.byAgent.Keys) == st.byAgent
    ensures st.index - Users(st, st.byAgent.Keys - st.byAgent.Keys) == st.index
  {
    var gone := st.byAgent.Keys - Removed(st, a).byAgent.Keys;
    assert Users(st, st.byAgent.Keys - st.byAgent.Keys) == {};
    if a in st.byAgent {
      assert gone == {a};
      assert Users(st, {a}) == {st.byAgent[a].userIdentity};
    }
  }

  /** In every history, an agent id holds exactly the session stored for it last and not gone since. */
  lemma {:induction false} HeldIs(h: seq<Op>, agentId: string)
    ensures Held(h, agentId) == if agentId in After(h).byAgent then Some(After(h).byAgent[agentId]) else None
  {
    if h != [] {
      var rest, op := h[..|h| - 1], h[|h| - 1];
      HeldIs(rest, agentId);
      if !op.Store? && !op.Clear? {
        DropEffect(After(rest), op);
      }
    }
  }

  /** In every history, the index holds an identity exactly if it points at an agent, and then that agent. */
  lemma {:induction false} IndexIs(h: seq<Op>, identity: string)
    ensures PointsAt(h, identity) == if identity in After(h).index then Some(After(h).index[identity]) else None
  {
    if h != [] {
      var rest, op := h[..|h| - 1], h[|h| - 1];
      IndexIs(rest, identity);
      if op.Store? {
        assert Users(After(rest), Dropped(After(rest), op)) == {};
      } else if !op.Clear? {
        DropEffect(After(rest), op);
      }
    }
  }

  /** In every history, an identity is answered with the unexpired session its agent holds, whosever that is. */
  lemma LookupIs(h: seq<Op>, identity: string, now: int)
    ensures var at := PointsAt(h, identity);
            IdentityLookup(After(h), identity, now).1 ==
              if at.Some? && at.value != "" && Held(h, at.value).Some? && now <= Held(h, at.value).value.expiresAt
              then Held(h, at.value) else None
  {
    IndexIs(h, identity);
    if PointsAt(h, identity).Some? {
      HeldIs(h, PointsAt(h, identity).value);
    }
  }

  /** The answer is another user's session exactly if the agent id pointed at holds one, unexpired, by now. */
  lemma ForeignAnswerIff(h: seq<Op>, identity: string, now: int)
    ensures var answer, at := IdentityLookup(After(h), identity, now).1, PointsAt(h, identity);
            answer.Some? && answer.value.userIdentity != identity <==>
              && at.Some? && at.value != "" && Held(h, at.value).Some?
              && Held(h, at.value).value.userIdentity != identity && now <= Held(h, at.value).value.expiresAt
  {
    LookupIs(h, identity, now);
  }

  /** The index dangles exactly where the agent pointed at holds nothing any more. */
  lemma DanglesIff(h: seq<Op>, identity: string)
    ensures identity in After(h).index && After(h).index[identity] !in After(h).byAgent <==>
              PointsAt(h, identity).Some? && Held(h, PointsAt(h, identity).value).None?
  {
    IndexIs(h, identity);
    if PointsAt(h, identity).Some? {
      HeldIs(h, PointsAt(h, identity).value);
    }
  }

  /** With one user per agent the index never dangles, and points at the session stored last unless one of its user was dropped since. */
  lemma {:induction false} IndexIsLastStored(h: seq<Op>)
    requires OneUserPerAgent(h)
    ensures IndexSound(After(h))
    ensures forall u {:trigger LastStored(h, u)} ::
              if LastStored(h, u).Some? && !Forgotten(h, u)
              then u in After(h).index && After(h).index[u] == LastStored(h, u).value.agentId
                && After(h).byAgent[After(h).index[u]] == LastStored(h, u).value
              else u !in After(h).index
  {
    if h != [] {
      var rest, op := h[..|h| - 1], h[|h| - 1];
      assert OneUserPerAgent(rest) by {
        assert forall i :: 0 <= i < |rest| ==> rest[i] == h[i];
      }
      IndexIsLastStored(rest);
      var st := After(rest);
      if op.Store? {
        AgentKeepsUser(h, rest, op.session);
        assert Users(st, Dropped(st, op)) == {};
        forall u
          ensures if LastStored(h, u).Some? && !Forgotten(h, u)
                  then u in After(h).index && After(h).index[u] == LastStored(h, u).value.agentId
                    && After(h).byAgent[After(h).index[u]] == LastStored(h, u).value
                  else u !in After(h).index
        {
          assert u != op.session.userIdentity ==> LastStored(h, u) == LastStored(rest, u);
        }
      } else if !op.Clear? {
        DropEffect(st, op);
        forall u
          ensures if LastStored(h, u).Some? && !Forgotten(h, u)
                  then u in After(h).index && After(h).index[u] == LastStored(h, u).value.agentId
                    && After(h).byAgent[After(h).index[u]] == LastStored(h, u).value
                  else u !in After(h).index
        {
          assert LastStored(h, u) == LastStored(rest, u);
        }
      } else {
        assert forall u :: LastStored(h, u).None?;
      }
    }
  }

  lemma AgentKeepsUser(h: seq<Op>, rest: seq<Op>, s: Session)
    requires OneUserPerAgent(h) && h == rest + [Store(s)]
    ensures s.agentId in After(rest).byAgent ==> After(rest).byAgent[s.agentId].userIdentity == s.userIdentity
    ensures Dropped(After(rest), Store(s)) == {}
  {
    SessionsWereStored(rest);
    if s.agentId in After(rest).byAgent {
      var prior := After(rest).byAgent[s.agentId];
      assert StoredIn(rest, prior);
      var i :| 0 <= i < |rest| && rest[i] == Store(prior);
      assert h[i] == Store(prior) && h[|h| - 1] == Store(s);
    }
  }

  /**
   With one user per agent, looking an identity up gives exactly the session stored
   for it last, as long as it has not expired and no session of that identity was dropped since.
   */
  lemma LookupIsLastStored(h: seq<Op>, identity: string, now: int)
    requires OneUserPerAgent(h)
    ensures var last := LastStored(h, identity);
            IdentityLookup(After(h), identity, now).1 ==
              if last.Some? && !Forgotten(h, identity) && last.value.agentId != "" && now <= last.value.expiresAt
              then last else None
  {
    IndexIsLastStored(h);
  }

  /** Storing one agent for two users leaves the first pointing at the other's session. */
  lemma SharedAgentAnswersForTheOther()
    ensures var mine, yours := Session("agent", "me", 9, "r1"), Session("agent", "you", 9, "r2");
            var h := [Store(mine), Store(yours)];
            IdentityLookup(After(h), "me", 0).1 == Some(yours)
  {
    var mine, yours := Session("agent", "me", 9, "r1"), Session("agent", "you", 9, "r2");
    assert [Store(mine), Store(yours)][..1] == [Store(mine)] && [Store(mine)][..0] == [];
    assert After([Store(mine)][..0]) == Sessions(map[], map[]);
    assert After([Store(mine)]) == Sessions(map["agent" := mine], map["me" := "agent"]);
  }

  /** Removing an older session of an identity hides its newer, live one. */
  lemma RemovingTheOldHidesTheNew()
    ensures var first, second := Session("a1", "me", 9, "r1"), Session("a2", "me", 9, "r2");
            var h := [Store(first), Store(second), Remove("a1")];
            && IdentityLookup(After(h), "me", 0).1 == None
            && AgentLookup(After(h), "a2", 0).1 == Some(second)
  {
    var first, second := Session("a1", "me", 9, "r1"), Session("a2", "me", 9, "r2");
    var h1, h2, h3 := [Store(first)], [Store(first), Store(second)], [Store(first), Store(second), Remove("a1")];
    assert h1[..0] == [] && h2[..1] == h1 && h3[..2] == h2;
    assert After(h1) == Sessions(map["a1" := first], map["me" := "a1"]);
    assert After(h2) == Sessions(map["a1" := first, "a2" := second], map["me" := "a2"]);
  }

  /** Which sessions an operation takes out: those cleaned up or met expired, the one removed, all when cleared, none when stored. */
  lemma DroppedIs(st: Sessions, op: Op, a: string)
    ensures a in Dropped(st, op) <==>
              && a in st.byAgent
              && match op
                 case Store(_) => false
                 case GetByAgentId(agentId, now) => a == agentId && st.byAgent[a].expiresAt < now
                 case GetByIdentity(identity, now) =>
                   identity in st.index && st.index[identity] != "" && a == st.index[identity] && st.byAgent[a].expiresAt < now
                 case Remove(agentId) => a == agentId
                 case Cleanup(now) => st.byAgent[a].expiresAt < now
                 case Clear => true
  {
  }

  /** Looking an agent up answers with the session it holds until that expires. */
  lemma AgentLookupIs(h: seq<Op>, agentId: string, now: int)
    ensures AgentLookup(After(h), agentId, now).1 ==
              if Held(h, agentId).Some? && now <= Held(h, agentId).value.expiresAt then Held(h, agentId) else None
  {
    HeldIs(h, agentId);
  }

  /** Storing makes the session its agent's and its user's at once. */
  lemma StoredIsFound(h: seq<Op>, s: Session, now: int)
    requires now <= s.expiresAt
    ensures AgentLookup(After(h + [Store(s)]), s.agentId, now).1 == Some(s)
    ensures s.agentId != "" ==> IdentityLookup(After(h + [Store(s)]), s.userIdentity, now).1 == Some(s)
  {
    assert (h + [Store(s)])[..|h|] == h;
  }
}
