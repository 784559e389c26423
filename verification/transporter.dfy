/**
 The transporter's pool of clients: one per identity, each with a TTL timer that
 deregisters it. `registerConnection` may wait for a lock first, so every
 method is one atomic step and any interleaving of the steps is a run.
 */
module Transporter {
  import opened Wrappers
  import opened OrderedMap

  datatype Connection = Connection(client: nat, timeout: nat)

  /** A pending `setTimeout` whose callback deregisters `target`. */
  datatype Timer = Timer(target: string, delay: int)

  datatype Registration = Registration(to: string, override: bool, validIdentity: bool, clientConstructs: bool)

  datatype Failure = InvalidIdentity | AlreadyExists | MaxReached | ClientRefused

  /**
   `clients` lists the identity each created client was made for, and
   `destroyed` every `client.destroy()` the pool called.
   */
  datatype Pool = Pool(
    connections: OMap<string, Connection>,
    locks: set<string>,
    waiting: seq<Registration>,
    maxConnections: int,
    ttlMs: int,
    timers: map<nat, Timer>,
    nextTimer: nat,
    clients: seq<string>,
    destroyed: multiset<nat>)

  function NewPool(maxConnections: int, ttlSeconds: int): Pool {
    Pool([], {}, [], maxConnections, ttlSeconds * 1000, map[], 0, [], multiset{})
  }

  // ------------------------------------------------------------------ the steps

  function Deregister(p: Pool, to: string): Pool {
    if !Has(p.connections, to) then p
    else
      var c := Get(p.connections, to).value;
      p.(connections := Remove(p.connections, to),
         timers := p.timers - {c.timeout},
         destroyed := p.destroyed + multiset{c.client})
  }

  function Admit(p: Pool, to: string): Pool {
    p.(connections := Put(p.connections, to, Connection(|p.clients|, p.nextTimer)),
       clients := p.clients + [to],
       timers := p.timers[p.nextTimer := Timer(to, p.ttlMs)],
       nextTimer := p.nextTimer + 1)
  }

  /** `performConnectionRegistration` has no await, so it is one step. */
  function Perform(p: Pool, r: Registration): (Pool, Result<nat, Failure>) {
    if !r.validIdentity then (p, Err(InvalidIdentity))
    else if Has(p.connections, r.to) && !r.override then (p, Err(AlreadyExists))
    else
      var q := Deregister(p, r.to);
      if |q.connections| >= q.maxConnections then (q, Err(MaxReached))
      else if !r.clientConstructs then (q, Err(ClientRefused))
      else (Admit(q, r.to), Ok(|q.clients|))
  }

  function Register(p: Pool, r: Registration): Pool {
    if r.to in p.locks then p.(waiting := p.waiting + [r])
    else var q := Perform(p, r).0; q.(locks := q.locks + {r.to})
  }

  function Resume(p: Pool, i: nat): Pool {
    if i >= |p.waiting| then p
    else
      var q := Perform(p, p.waiting[i]).0;
      q.(locks := q.locks + {p.waiting[i].to}, waiting := p.waiting[..i] + p.waiting[i + 1..])
  }

  function Fire(p: Pool, t: nat): Pool {
    if t !in p.timers then p else Deregister(p.(timers := p.timers - {t}), p.timers[t].target)
  }

  /** `if (ttlSeconds)`: a zero leaves the timer alone. */
  function Retime(p: Pool, id: string, ttlSeconds: int): Pool {
    if !Has(p.connections, id) || ttlSeconds == 0 then p
    else
      var c := Get(p.connections, id).value;
      p.(connections := Put(p.connections, id, c.(timeout := p.nextTimer)),
         timers := (p.timers - {c.timeout})[p.nextTimer := Timer(id, ttlSeconds * 1000)],
         nextTimer := p.nextTimer + 1)
  }

  function KeysOf(m: OMap<string, Connection>): seq<string> {
    seq(|m|, i requires 0 <= i < |m| => m[i].key)
  }

  function RetimeAll(p: Pool, ids: seq<string>, ttlSeconds: int): Pool
    decreases |ids|
  {
    if ids == [] then p else RetimeAll(Retime(p, ids[0], ttlSeconds), ids[1..], ttlSeconds)
  }

  function DeregisterAll(p: Pool, ids: seq<string>): Pool
    decreases |ids|
  {
    if ids == [] then p else DeregisterAll(Deregister(p, ids[0]), ids[1..])
  }

  datatype Event =
    | RegisterCalled(r: Registration)
    | RegisterResumed(i: nat)
    | RegisterFinished(to: string)
    | Deregistered(to: string)
    | TtlFired(t: nat)
    | Updated(id: string, ttlSeconds: int)
    | TtlUpdated(ttlSeconds: int, updateExisting: bool)
    | MaxSet(max: int)
    | Destroyed

  function Step(p: Pool, e: Event): Pool {
    match e
    case RegisterCalled(r) => Register(p, r)
    case RegisterResumed(i) => Resume(p, i)
    case RegisterFinished(to) => p.(locks := p.locks - {to})
    case Deregistered(to) => Deregister(p, to)
    case TtlFired(t) => Fire(p, t)
    case Updated(id, ttl) => Retime(p, id, ttl)
    case TtlUpdated(ttl, existing) =>
      var q := p.(ttlMs := ttl * 1000);
      if existing then RetimeAll(q, KeysOf(p.connections), ttl) else q
    case MaxSet(max) => p.(maxConnections := max)
    case Destroyed => DeregisterAll(p, KeysOf(p.connections)).(locks := {}, connections := [])
  }

  // ------------------------------------------------------------------ the class

  class BtpsTransporter {
    var connections: OMap<string, Connection>
    var connectionLock: set<string>
    var maxConnections: int
    var connectionTTLSeconds: int
    // the runtime: suspended registrations, pending timers, clients made and destroyed
    var waiting: seq<Registration>
    var timers: map<nat, Timer>
    var nextTimer: nat
    var clients: seq<string>
    var destroyed: multiset<nat>

    constructor (max: Option<int>, ttlSeconds: Option<int>, defaultMax: int, defaultTtl: int)
      ensures Model() == NewPool(if max.Some? then max.value else defaultMax,
                                 if ttlSeconds.Some? then ttlSeconds.value else defaultTtl)
    {
      connections, connectionLock, waiting := [], {}, [];
      maxConnections := if max.Some? then max.value else defaultMax;
      connectionTTLSeconds := (if ttlSeconds.Some? then ttlSeconds.value else defaultTtl) * 1000;
      timers, nextTimer, clients, destroyed := map[], 0, [], multiset{};
    }

    ghost function Model(): Pool
      reads this
    {
      Pool(connections, connectionLock, waiting, maxConnections, connectionTTLSeconds,
           timers, nextTimer, clients, destroyed)
    }

    method SetTimer(target: string, delay: int) returns (t: nat)
      modifies this`timers, this`nextTimer
      ensures t == old(nextTimer) && nextTimer == t + 1 && timers == old(timers)[t := Timer(target, delay)]
    {
      t := nextTimer;
      timers := timers[t := Timer(target, delay)];
      nextTimer := nextTimer + 1;
    }

    method DeregisterConnection(to: string)
      modifies this
      ensures Model() == Deregister(old(Model()), to)
    {
      var connection := Get(connections, to);
      if connection.None? { return; }
      destroyed := destroyed + multiset{connection.value.client};
      timers := timers - {connection.value.timeout};
      connections := Remove(connections, to);
    }

    method PerformConnectionRegistration(r: Registration) returns (res: Result<nat, Failure>)
      modifies this
      ensures (Model(), res) == Perform(old(Model()), r)
    {
      if !r.validIdentity { return Err(InvalidIdentity); }
      if Has(connections, r.to) {
        if !r.override { return Err(AlreadyExists); }
        DeregisterConnection(r.to);
      }
      if |connections| >= maxConnections { return Err(MaxReached); }
      if !r.clientConstructs { return Err(ClientRefused); }
      var client := |clients|;
      clients := clients + [r.to];
      var timeout := SetTimer(r.to, connectionTTLSeconds);
      connections := Put(connections, r.to, Connection(client, timeout));
      return Ok(client);
    }

    /** `registerConnection` up to its first await: wait for a lock, or register and take one. */
    method RegisterConnection(r: Registration)
      modifies this
      ensures Model() == Step(old(Model()), RegisterCalled(r))
    {
      if r.to in connectionLock {
        waiting := waiting + [r];
      } else {
        var _ := PerformConnectionRegistration(r);
        connectionLock := connectionLock + {r.to};
      }
    }

    method ResumeRegistration(i: nat)
      requires i < |waiting|
      modifies this
      ensures Model() == Step(old(Model()), RegisterResumed(i))
    {
      var r := waiting[i];
      var rest := waiting[..i] + waiting[i + 1..];
      var _ := PerformConnectionRegistration(r);
      connectionLock := connectionLock + {r.to};
      waiting := rest;
    }

    method FinishRegistration(to: string)
      modifies this`connectionLock
      ensures Model() == Step(old(Model()), RegisterFinished(to))
    {
      connectionLock := connectionLock - {to};
    }

    method OnTimer(t: nat)
      requires t in timers
      modifies this
      ensures Model() == Step(old(Model()), TtlFired(t))
    {
      var target := timers[t].target;
      timers := timers - {t};
      DeregisterConnection(target);
    }

    method UpdateConnection(id: string, ttlSeconds: int)
      modifies this
      ensures Model() == Retime(old(Model()), id, ttlSeconds)
    {
      var connection := Get(connections, id);
      if connection.None? { return; }
      if ttlSeconds != 0 {
        timers := timers - {connection.value.timeout};
        var timeout := SetTimer(id, ttlSeconds * 1000);
        connections := Put(connections, id, connection.value.(timeout := timeout));
      }
    }

    method RetimeEach(ids: seq<string>, ttlSeconds: int)
      modifies this
      ensures Model() == RetimeAll(old(Model()), ids, ttlSeconds)
    {
      for i := 0 to |ids|
        invariant RetimeAll(Model(), ids[i..], ttlSeconds) == RetimeAll(old(Model()), ids, ttlSeconds)
      {
        assert ids[i..][1..] == ids[i + 1..];
        UpdateConnection(ids[i], ttlSeconds);
      }
    }

    method UpdateConnectionTTLSeconds(ttlSeconds: int, updateExisting: bool)
      modifies this
      ensures Model() == Step(old(Model()), TtlUpdated(ttlSeconds, updateExisting))
    {
      connectionTTLSeconds := ttlSeconds * 1000;
      if updateExisting {
        RetimeEach(KeysOf(connections), ttlSeconds);
      }
    }

    method SetMaxConnections(max: int)
      modifies this`maxConnections
      ensures Model() == Step(old(Model()), MaxSet(max))
    {
      maxConnections := max;
    }

    method DeregisterEach(ids: seq<string>)
      modifies this
      ensures Model() == DeregisterAll(old(Model()), ids)
    {
      for i := 0 to |ids|
        invariant DeregisterAll(Model(), ids[i..]) == DeregisterAll(old(Model()), ids)
      {
        assert ids[i..][1..] == ids[i + 1..];
        DeregisterConnection(ids[i]);
      }
    }

    method Destroy()
      modifies this
      ensures Model() == Step(old(Model()), Destroyed)
    {
      DeregisterEach(KeysOf(connections));
      connectionLock := {};
      connections := [];
    }
  }

  // ------------------------------------------------------------ the invariant

  ghost predicate Registered(p: Pool, client: nat)
    requires client < |p.clients|
  {
    Has(p.connections, p.clients[client]) && Get(p.connections, p.clients[client]).value.client == client
  }

  /** Connections and pending timers pair off, one to one. */
  ghost predicate TimersMatch(p: Pool) {
    && (forall to {:trigger Get(p.connections, to)} :: Has(p.connections, to) ==>
          var t := Get(p.connections, to).value.timeout; t in p.timers && p.timers[t].target == to)
    && (forall t :: t in p.timers ==>
          t < p.nextTimer && Has(p.connections, p.timers[t].target)
          && Get(p.connections, p.timers[t].target).value.timeout == t)
  }

  /** Every client is registered and never destroyed, or was destroyed exactly once. */
  ghost predicate ClientsAccounted(p: Pool) {
    && (forall to {:trigger Get(p.connections, to)} :: Has(p.connections, to) ==>
          var c := Get(p.connections, to).value.client; c < |p.clients| && p.clients[c] == to)
    && (forall c: nat :: c < |p.clients| ==> p.destroyed[c] == if Registered(p, c) then 0 else 1)
    && (forall c: nat :: c >= |p.clients| ==> p.destroyed[c] == 0)
  }

  ghost predicate Inv(p: Pool) {
    Distinct(p.connections) && TimersMatch(p) && ClientsAccounted(p)
  }

  /** Replacing, adding or dropping one identity's connection together with its timer keeps the bijection. */
  lemma Rewire(p: Pool, q: Pool, id: string, delay: int)
    requires TimersMatch(p)
    requires forall x :: x != id ==> Get(q.connections, x) == Get(p.connections, x)
    requires Has(q.connections, id) ==> Get(q.connections, id).value.timeout == p.nextTimer
    requires q.nextTimer == if Has(q.connections, id) then p.nextTimer + 1 else p.nextTimer
    requires var kept := if Has(p.connections, id) then p.timers - {Get(p.connections, id).value.timeout} else p.timers;
             q.timers == if Has(q.connections, id) then kept[p.nextTimer := Timer(id, delay)] else kept
    ensures TimersMatch(q)
  {
    assert Has(p.connections, id) ==> p.timers[Get(p.connections, id).value.timeout].target == id;
    forall x {:trigger Get(q.connections, x)} | Has(q.connections, x)
      ensures var t := Get(q.connections, x).value.timeout; t in q.timers && q.timers[t].target == x
    {
      assert x != id ==> Get(q.connections, x) == Get(p.connections, x);
    }
    forall t | t in q.timers
      ensures t < q.nextTimer && Has(q.connections, q.timers[t].target)
           && Get(q.connections, q.timers[t].target).value.timeout == t
    {
      if t != p.nextTimer || !Has(q.connections, id) {
        assert t in p.timers && p.timers[t].target != id;
        assert Get(q.connections, p.timers[t].target) == Get(p.connections, p.timers[t].target);
      }
    }
  }

  lemma DeregisterClients(p: Pool, to: string)
    requires ClientsAccounted(p)
    ensures ClientsAccounted(Deregister(p, to))
  {
    var q := Deregister(p, to);
    if Has(p.connections, to) {
      var c := Get(p.connections, to).value.client;
      assert p.clients[c] == to;
      forall d: nat | d < |p.clients|
        ensures q.destroyed[d] == if Registered(q, d) then 0 else 1
      {
        assert p.destroyed[d] == if Registered(p, d) then 0 else 1;
      }
    }
  }

  lemma DeregisterInv(p: Pool, to: string)
    requires Inv(p)
    ensures var q := Deregister(p, to);
            && Inv(q) && !Has(q.connections, to)
            && (forall x :: x != to ==> Get(q.connections, x) == Get(p.connections, x))
            && |q.connections| <= |p.connections|
  {
    if Has(p.connections, to) {
      Rewire(p, Deregister(p, to), to, 0);
    }
    DeregisterClients(p, to);
  }

  lemma AdmitInv(p: Pool, to: string)
    requires Inv(p) && !Has(p.connections, to)
    ensures Inv(Admit(p, to))
  {
    var q := Admit(p, to);
    Rewire(p, q, to, p.ttlMs);
    forall x {:trigger Get(q.connections, x)} | Has(q.connections, x)
      ensures var c := Get(q.connections, x).value.client; c < |q.clients| && q.clients[c] == x
    {
      assert x != to ==> Get(q.connections, x) == Get(p.connections, x);
    }
    forall d: nat | d < |q.clients|
      ensures q.destroyed[d] == if Registered(q, d) then 0 else 1
    {
      if d < |p.clients| {
        assert q.clients[d] == p.clients[d];
        assert p.destroyed[d] == if Registered(p, d) then 0 else 1;
      }
    }
  }

  /** A registration that succeeds leaves no more connections than are currently allowed. */
  lemma PerformInv(p: Pool, r: Registration)
    requires Inv(p)
    ensures Inv(Perform(p, r).0)
    ensures var (q, res) := Perform(p, r);
            && (res.Ok? ==>
                  && |q.connections| <= p.maxConnections
                  && Get(q.connections, r.to) == Some(Connection(res.value, p.nextTimer))
                  && q.timers[p.nextTimer] == Timer(r.to, p.ttlMs))
            && (forall x :: x != r.to ==> Get(q.connections, x) == Get(p.connections, x))
            && (res.Err? && Has(p.connections, r.to) && !Has(q.connections, r.to) ==> r.override)
  {
    DeregisterInv(p, r.to);
    var q := Deregister(p, r.to);
    if r.validIdentity {
      AdmitInv(q, r.to);
    }
  }

  /**
   A registration loses the connection there was, without a new one, exactly if
   it overrides it and then meets the maximum or a client that does not construct.
   */
  lemma OverrideLosesIff(p: Pool, r: Registration)
    requires Inv(p) && Has(p.connections, r.to)
    ensures Get(Perform(p, r).0.connections, r.to).None? <==>
              && r.validIdentity && r.override
              && (|p.connections| - 1 >= p.maxConnections || !r.clientConstructs)
    ensures !r.override ==> Perform(p, r).0 == p
  {
    DeregisterInv(p, r.to);
    PerformInv(p, r);
  }

  lemma RetimeClients(p: Pool, id: string, ttlSeconds: int)
    requires ClientsAccounted(p)
    ensures ClientsAccounted(Retime(p, id, ttlSeconds))
  {
    var q := Retime(p, id, ttlSeconds);
    if Has(p.connections, id) && ttlSeconds != 0 {
      forall x {:trigger Get(q.connections, x)} | Has(q.connections, x)
        ensures Has(p.connections, x) && Get(q.connections, x).value.client == Get(p.connections, x).value.client
      {
        assert x != id ==> Get(q.connections, x) == Get(p.connections, x);
      }
      forall d: nat | d < |q.clients|
        ensures Registered(q, d) <==> Registered(p, d)
      {
        assert p.clients[d] != id ==> Get(q.connections, p.clients[d]) == Get(p.connections, p.clients[d]);
      }
    }
  }

  lemma RetimeInv(p: Pool, id: string, ttlSeconds: int)
    requires Inv(p)
    ensures Inv(Retime(p, id, ttlSeconds))
    ensures forall x :: Has(Retime(p, id, ttlSeconds).connections, x) <==> Has(p.connections, x)
  {
    if Has(p.connections, id) && ttlSeconds != 0 {
      Rewire(p, Retime(p, id, ttlSeconds), id, ttlSeconds * 1000);
    }
    RetimeClients(p, id, ttlSeconds);
  }

  lemma {:induction false} RetimeAllInv(p: Pool, ids: seq<string>, ttlSeconds: int)
    requires Inv(p)
    ensures Inv(RetimeAll(p, ids, ttlSeconds))
    ensures forall x :: Has(RetimeAll(p, ids, ttlSeconds).connections, x) <==> Has(p.connections, x)
    ensures |RetimeAll(p, ids, ttlSeconds).connections| == |p.connections|
    ensures RetimeAll(p, ids, ttlSeconds).maxConnections == p.maxConnections
    decreases |ids|
  {
    if ids != [] {
      RetimeInv(p, ids[0], ttlSeconds);
      RetimeAllInv(Retime(p, ids[0], ttlSeconds), ids[1..], ttlSeconds);
    }
  }

  /** The delay the identity's timer was armed with. */
  function DelayOf(p: Pool, id: string): Option<int> {
    if !Has(p.connections, id) || Get(p.connections, id).value.timeout !in p.timers then None
    else Some(p.timers[Get(p.connections, id).value.timeout].delay)
  }

  lemma RetimeDelay(p: Pool, id: string, ttlSeconds: int, x: string)
    requires TimersMatch(p)
    ensures TimersMatch(Retime(p, id, ttlSeconds))
    ensures DelayOf(Retime(p, id, ttlSeconds), x) ==
              if x == id && Has(p.connections, x) && ttlSeconds != 0 then Some(ttlSeconds * 1000) else DelayOf(p, x)
    ensures Has(Retime(p, id, ttlSeconds).connections, x) == Has(p.connections, x)
  {
    if Has(p.connections, id) && ttlSeconds != 0 {
      Rewire(p, Retime(p, id, ttlSeconds), id, ttlSeconds * 1000);
      assert Has(p.connections, x) && x != id ==>
        Get(p.connections, x).value.timeout != Get(p.connections, id).value.timeout;
    }
  }

  lemma {:induction false} RetimeAllDelay(p: Pool, ids: seq<string>, ttlSeconds: int, x: string)
    requires TimersMatch(p)
    ensures DelayOf(RetimeAll(p, ids, ttlSeconds), x) ==
              if x in ids && Has(p.connections, x) && ttlSeconds != 0 then Some(ttlSeconds * 1000) else DelayOf(p, x)
    decreases |ids|
  {
    if ids != [] {
      RetimeDelay(p, ids[0], ttlSeconds, x);
      RetimeAllDelay(Retime(p, ids[0], ttlSeconds), ids[1..], ttlSeconds, x);
    }
  }

  lemma {:induction false} DeregisterAllInv(p: Pool, ids: seq<string>)
    requires Inv(p)
    ensures var q := DeregisterAll(p, ids);
            && Inv(q)
            && (forall x :: Has(q.connections, x) ==> x !in ids && Has(p.connections, x))
            && |q.connections| <= |p.connections|
            && q.maxConnections == p.maxConnections
    decreases |ids|
  {
    if ids != [] {
      DeregisterInv(p, ids[0]);
      DeregisterAllInv(Deregister(p, ids[0]), ids[1..]);
    }
  }

  lemma KeysOfAll(m: OMap<string, Connection>, k: string)
    requires Has(m, k)
    ensures k in KeysOf(m)
  {
    var e := Entry(k, Get(m, k).value);
    GetEntry(m, k);
    var i :| 0 <= i < |m| && m[i] == e;
    assert KeysOf(m)[i] == k;
  }

  /** `destroy` empties the pool, its timers and, one by one, destroys every client still registered. */
  lemma DestroyEmpties(p: Pool)
    requires Inv(p)
    ensures var q := Step(p, Destroyed);
            && Inv(q) && q.connections == [] && q.timers == map[]
            && forall c: nat :: c < |q.clients| ==> q.destroyed[c] == 1
  {
    var ids := KeysOf(p.connections);
    var q := DeregisterAll(p, ids);
    DeregisterAllInv(p, ids);
    forall x | Has(p.connections, x)
      ensures x in ids
    {
      KeysOfAll(p.connections, x);
    }
    if q.connections != [] {
      EntryGet(q.connections, 0);
      assert Has(q.connections, q.connections[0].key);
      assert false;
    }
    assert q.timers == map[];
    assert Step(p, Destroyed) == q.(locks := {});
  }

  lemma OtherFieldsFree(p: Pool, locks: set<string>, waiting: seq<Registration>, max: int, ttlMs: int)
    requires Inv(p)
    ensures Inv(p.(locks := locks, waiting := waiting, maxConnections := max, ttlMs := ttlMs))
  {
    var q := p.(locks := locks, waiting := waiting, maxConnections := max, ttlMs := ttlMs);
    assert forall c: nat :: c < |p.clients| ==> (Registered(q, c) <==> Registered(p, c));
  }

  lemma StepInv(p: Pool, e: Event)
    requires Inv(p)
    ensures Inv(Step(p, e))
  {
    match e
    case RegisterCalled(r) =>
      PerformInv(p, r);
      OtherFieldsFree(p, p.locks, p.waiting + [r], p.maxConnections, p.ttlMs);
      var q := Perform(p, r).0;
      OtherFieldsFree(q, q.locks + {r.to}, q.waiting, q.maxConnections, q.ttlMs);
    case RegisterResumed(i) =>
      if i < |p.waiting| {
        PerformInv(p, p.waiting[i]);
        var q := Perform(p, p.waiting[i]).0;
        OtherFieldsFree(q, q.locks + {p.waiting[i].to}, p.waiting[..i] + p.waiting[i + 1..], q.maxConnections, q.ttlMs);
      }
    case RegisterFinished(to) => OtherFieldsFree(p, p.locks - {to}, p.waiting, p.maxConnections, p.ttlMs);
    case Deregistered(to) => DeregisterInv(p, to);
    case TtlFired(t) =>
      if t in p.timers {
        FireIsDeregister(p, t);
        DeregisterInv(p, p.timers[t].target);
      }
    case Updated(id, ttl) => RetimeInv(p, id, ttl);
    case TtlUpdated(ttl, existing) =>
      OtherFieldsFree(p, p.locks, p.waiting, p.maxConnections, ttl * 1000);
      RetimeAllInv(p.(ttlMs := ttl * 1000), KeysOf(p.connections), ttl);
    case MaxSet(max) => OtherFieldsFree(p, p.locks, p.waiting, max, p.ttlMs);
    case Destroyed => DestroyEmpties(p);
  }

  /** A timer that fires removes the connection it was armed for, never a later one of the same identity. */
  lemma FireIsDeregister(p: Pool, t: nat)
    requires Inv(p) && t in p.timers
    ensures var to := p.timers[t].target;
            && Has(p.connections, to) && Get(p.connections, to).value.timeout == t
            && Fire(p, t) == Deregister(p, to)
  {
    assert p.timers - {t} - {t} == p.timers - {t};
  }

  // ---------------------------------------------------------------- whole runs

  function Run(p: Pool, es: seq<Event>): Pool {
    if es == [] then p else Step(Run(p, es[..|es| - 1]), es[|es| - 1])
  }

  /** The largest number of connections allowed at any time of the run. */
  function LargestMax(p: Pool, es: seq<Event>): int {
    if es == [] then p.maxConnections
    else
      var m, e := LargestMax(p, es[..|es| - 1]), es[|es| - 1];
      if e.MaxSet? && e.max > m then e.max else m
  }

  lemma {:induction false} RunInv(p: Pool, es: seq<Event>)
    requires Inv(p)
    ensures Inv(Run(p, es))
  {
    if es != [] {
      RunInv(p, es[..|es| - 1]);
      StepInv(Run(p, es[..|es| - 1]), es[|es| - 1]);
    }
  }

  lemma NewPoolInv(maxConnections: int, ttlSeconds: int)
    ensures Inv(NewPool(maxConnections, ttlSeconds))
  {
  }

  /**
   In every interleaving, timers and connections are in bijection, and every
   client ever made is either registered or was destroyed exactly once.
   */
  lemma PoolIsSound(maxConnections: int, ttlSeconds: int, es: seq<Event>)
    ensures var p := Run(NewPool(maxConnections, ttlSeconds), es);
            TimersMatch(p) && ClientsAccounted(p)
  {
    NewPoolInv(maxConnections, ttlSeconds);
    RunInv(NewPool(maxConnections, ttlSeconds), es);
  }

  lemma StepSize(p: Pool, e: Event, bound: int)
    requires Inv(p) && |p.connections| <= bound && p.maxConnections <= bound
    ensures |Step(p, e).connections| <= bound
    ensures Step(p, e).maxConnections == if e.MaxSet? then e.max else p.maxConnections
  {
    match e
    case RegisterCalled(r) => PerformSize(p, r, bound);
    case RegisterResumed(i) =>
      if i < |p.waiting| {
        PerformSize(p, p.waiting[i], bound);
      }
    case Deregistered(to) => DeregisterInv(p, to);
    case TtlFired(t) =>
      if t in p.timers {
        FireIsDeregister(p, t);
        DeregisterInv(p, p.timers[t].target);
      }
    case TtlUpdated(ttl, existing) =>
      OtherFieldsFree(p, p.locks, p.waiting, p.maxConnections, ttl * 1000);
      RetimeAllInv(p.(ttlMs := ttl * 1000), KeysOf(p.connections), ttl);
    case Destroyed =>
      DeregisterAllInv(p, KeysOf(p.connections));
    case _ =>
  }

  lemma PerformSize(p: Pool, r: Registration, bound: int)
    requires Inv(p) && |p.connections| <= bound && p.maxConnections <= bound
    ensures |Perform(p, r).0.connections| <= bound && Perform(p, r).0.maxConnections == p.maxConnections
  {
    DeregisterInv(p, r.to);
  }

  /** The pool never outgrows the largest maximum it was ever given. */
  lemma {:induction false} PoolNeverOutgrows(maxConnections: nat, ttlSeconds: int, es: seq<Event>)
    ensures var p := NewPool(maxConnections, ttlSeconds);
            && |Run(p, es).connections| <= LargestMax(p, es)
            && Run(p, es).maxConnections <= LargestMax(p, es)
  {
    var p := NewPool(maxConnections, ttlSeconds);
    if es != [] {
      var rest := es[..|es| - 1];
      PoolNeverOutgrows(maxConnections, ttlSeconds, rest);
      NewPoolInv(maxConnections, ttlSeconds);
      RunInv(p, rest);
      StepSize(Run(p, rest), es[|es| - 1], LargestMax(p, rest));
    }
  }

  /** Changing the TTL of existing connections re-arms every one of them with it, unless it is zero. */
  lemma TtlUpdateReaches(p: Pool, ttlSeconds: int, to: string)
    requires Inv(p) && Has(p.connections, to)
    ensures DelayOf(Step(p, TtlUpdated(ttlSeconds, true)), to) ==
              if ttlSeconds != 0 then Some(ttlSeconds * 1000) else DelayOf(p, to)
  {
    KeysOfAll(p.connections, to);
    RetimeAllDelay(p.(ttlMs := ttlSeconds * 1000), KeysOf(p.connections), ttlSeconds, to);
  }

  // -------------------------------------------------------------- step by step, spelt out

  /** The five outcomes of a registration in the order they are decided, and the new connection's TTL. */
  lemma RegistrationAnswers(p: Pool, r: Registration)
    requires Inv(p)
    ensures var (q, res) := Perform(p, r);
            var others := if Has(p.connections, r.to) then |p.connections| - 1 else |p.connections|;
            if !r.validIdentity then q == p && res == Err(InvalidIdentity)
            else if Has(p.connections, r.to) && !r.override then q == p && res == Err(AlreadyExists)
            else if others >= p.maxConnections then res == Err(MaxReached) && !Has(q.connections, r.to)
            else if !r.clientConstructs then res == Err(ClientRefused) && !Has(q.connections, r.to)
            else
              && res == Ok(|p.clients|) && q.clients == p.clients + [r.to] && Has(q.connections, r.to)
              && DelayOf(q, r.to) == Some(p.ttlMs) && |q.connections| == others + 1
  {
    DeregisterInv(p, r.to);
    PerformInv(p, r);
  }

  /** A registration behind its identity's lock waits; any other is performed at once and takes the lock, and so does a waiting one when resumed. */
  lemma LockedRegistrationWaits(p: Pool, r: Registration)
    ensures var q := Step(p, RegisterCalled(r));
            if r.to in p.locks then q == p.(waiting := p.waiting + [r])
            else q.connections == Perform(p, r).0.connections && q.locks == p.locks + {r.to} && q.waiting == p.waiting
  {
  }

  /** A waiting registration is performed when its promise comes through, and waits no longer. */
  lemma WaitingRegistrationResumes(p: Pool, i: nat)
    requires i < |p.waiting|
    ensures var q := Step(p, RegisterResumed(i));
            && q.connections == Perform(p, p.waiting[i]).0.connections && q.locks == p.locks + {p.waiting[i].to}
            && q.waiting == p.waiting[..i] + p.waiting[i + 1..]
  {
  }

  /** A finished registration frees the id it locked and nothing else. */
  lemma FinishedUnlocks(p: Pool, to: string)
    ensures Step(p, RegisterFinished(to)) == p.(locks := p.locks - {to})
  {
  }

  /** Deregistering ends the one connection: its client destroyed once more, its timer cleared, no other touched. */
  lemma DeregisterEnds(p: Pool, to: string)
    requires Inv(p)
    ensures var q := Step(p, Deregistered(to));
            if !Has(p.connections, to) then q == p
            else
              var c := Get(p.connections, to).value;
              && !Has(q.connections, to) && c.timeout !in q.timers
              && q.destroyed[c.client] == p.destroyed[c.client] + 1
              && (forall x :: x != to ==> Get(q.connections, x) == Get(p.connections, x) && DelayOf(q, x) == DelayOf(p, x))
  {
    DeregisterInv(p, to);
  }

  /** A TTL other than zero re-arms the one connection it is for; the new default reaches the connections made after it. */
  lemma UpdateRearms(p: Pool, id: string, ttlSeconds: int, x: string)
    requires Inv(p)
    ensures var q := Step(p, Updated(id, ttlSeconds));
            DelayOf(q, x) == if x == id && ttlSeconds != 0 && Has(p.connections, id) then Some(ttlSeconds * 1000) else DelayOf(p, x)
    ensures Step(p, TtlUpdated(ttlSeconds, false)) == p.(ttlMs := ttlSeconds * 1000)
    ensures Step(p, TtlUpdated(ttlSeconds, true)).ttlMs == ttlSeconds * 1000
  {
    RetimeDelay(p, id, ttlSeconds, x);
    RetimeAllTtl(p.(ttlMs := ttlSeconds * 1000), KeysOf(p.connections), ttlSeconds);
  }

  lemma {:induction false} RetimeAllTtl(p: Pool, ids: seq<string>, ttlSeconds: int)
    ensures RetimeAll(p, ids, ttlSeconds).ttlMs == p.ttlMs
    decreases |ids|
  {
    if ids != [] {
      RetimeAllTtl(Retime(p, ids[0], ttlSeconds), ids[1..], ttlSeconds);
    }
  }

  /** A new pool is empty, with the maximum and the TTL it was given; a new maximum closes nothing. */
  lemma NewPoolIs(maxConnections: int, ttlSeconds: int, p: Pool, max: int)
    ensures var q := NewPool(maxConnections, ttlSeconds);
            && q.connections == [] && q.maxConnections == maxConnections && q.ttlMs == ttlSeconds * 1000
            && q.clients == [] && q.timers == map[] && q.locks == {}
    ensures Step(p, MaxSet(max)) == p.(maxConnections := max)
  {
  }
}
