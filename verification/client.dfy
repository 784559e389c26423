/**
 The client's request life cycle: one socket, a map of in-flight requests, one
 timeout per request, reconnects and a backpressure queue, driven by events in
 any order. A method that awaits is split there, each part an event of its own.
 */
module Client {
  import opened Wrappers
  import opened OrderedMap

  // ------------------------------------------------------------------------ state

  /** `valid` is what the schema says of the artifact. */
  datatype Artifact = Artifact(id: string, body: nat, valid: bool)

  /** A server message as far as correlation goes. */
  datatype Message = Message(reqId: string, body: nat)

  /** What a `send` promise resolves with. */
  datatype Outcome =
    | Reply(message: Message)
    | BadSignature(message: Message)
    | TimedOut
    | InvalidArtifact
    | ConnectionClosed
    | ConnectionLost
    | NoHost
    | NotEstablished

  /** A promise of `send` that reached `dispatch`. It is numbered by its place, and so is its timer. */
  datatype Sent = Sent(artifact: Artifact, outcome: Option<Outcome>)

  datatype Item = Item(artifact: Artifact, resolve: nat, timeout: nat)

  datatype ConnectionStates = ConnectionStates(
    isConnecting: bool, isConnected: bool, isDraining: bool, isDestroyed: bool, shouldRetry: bool)

  datatype Options = Options(maxRetries: Option<int>, maxQueue: Option<int>)

  datatype SocketFlags = SocketFlags(destroyed: bool, ended: bool)

  /** How far a call of `getSocket` has come; `Back` is ready for the caller to go on. */
  datatype Stage = Lookup | Handshake(sock: nat) | Back(socket: Option<nat>) | Over

  /** A call of `getSocket`, by the `dispatch` of promise `job` or by a reconnect. */
  datatype SocketCall = SocketCall(job: Option<nat>, stage: Stage)

  /** Everything outside the client: promises, timers, sockets, suspended calls, and what happened so far. */
  datatype World = World(
    sends: seq<Sent>,
    timers: set<nat>,
    sockets: seq<SocketFlags>,
    calls: seq<SocketCall>,
    verifying: seq<Message>,
    flushWaits: bool,
    retryTimers: nat,
    scheduled: nat,
    wire: seq<Artifact>)

  datatype State = State(
    socket: Option<nat>,
    states: ConnectionStates,
    retries: nat,
    options: Options,
    queue: OMap<string, Item>,
    backpressureQueue: seq<Artifact>,
    world: World)

  datatype Verdict = ValidSignature | InvalidSignature | VerifyThrows

  datatype Event =
    | Send(artifact: Artifact)
    | LookupFailed(call: nat)
    | LookupDone(call: nat)
    | Connected(call: nat)
    | DispatchResumed(call: nat, taken: bool)
    | SocketError(nonRetryable: bool)
    | SocketEnd
    | SocketClose
    | SocketIdle(sock: nat)
    | SocketGone(sock: nat, flags: SocketFlags)
    | Line(parsed: Option<Message>)
    | Verified(index: nat, verdict: Verdict, taken: bool)
    | TimerFires(promise: nat)
    | RetryFires
    | Drain(writes: seq<bool>)
    | DrainResumed(writes: seq<bool>)
    | Update(changed: Options)
    | End
    | Destroy

  function MaxRetries(o: Options): int {
    if o.maxRetries.Some? then o.maxRetries.value else 5
  }

  function MaxQueue(o: Options): int {
    if o.maxQueue.Some? then o.maxQueue.value else 100
  }

  function Created(o: Options): State {
    State(None, ConnectionStates(false, false, false, false, true), 0, o, [], [],
          World([], {}, [], [], [], false, 0, 0, []))
  }

  // -------------------------------------------------------- promises, timers, sockets

  /** A promise takes its first outcome and keeps it. */
  function Settle(sends: seq<Sent>, p: nat, o: Outcome): seq<Sent> {
    if p < |sends| && sends[p].outcome.None? then sends[p := sends[p].(outcome := Some(o))] else sends
  }

  function SettleAll(sends: seq<Sent>, q: OMap<string, Item>, o: Outcome): seq<Sent>
    decreases |q|
  {
    if q == [] then sends else SettleAll(Settle(sends, q[0].val.resolve, o), q[1..], o)
  }

  function ClearAll(timers: set<nat>, q: OMap<string, Item>): set<nat>
    decreases |q|
  {
    if q == [] then timers else ClearAll(timers - {q[0].val.timeout}, q[1..])
  }

  function SetFlags(sockets: seq<SocketFlags>, k: nat, f: SocketFlags): seq<SocketFlags> {
    if k >= |sockets| then sockets
    else sockets[k := SocketFlags(sockets[k].destroyed || f.destroyed, sockets[k].ended || f.ended)]
  }

  function DestroySocket(sockets: seq<SocketFlags>, k: Option<nat>): seq<SocketFlags> {
    if k.Some? && k.value < |sockets| then sockets[k.value := sockets[k.value].(destroyed := true)] else sockets
  }

  function EndSocket(sockets: seq<SocketFlags>, k: Option<nat>): seq<SocketFlags> {
    if k.Some? && k.value < |sockets| then sockets[k.value := sockets[k.value].(ended := true)] else sockets
  }

  predicate SocketDestroyed(s: State) {
    s.socket.Some? && s.socket.value < |s.world.sockets| && s.world.sockets[s.socket.value].destroyed
  }

  predicate SocketEnded(s: State) {
    s.socket.Some? && s.socket.value < |s.world.sockets| && s.world.sockets[s.socket.value].ended
  }

  predicate StageIs(s: State, call: nat, stage: Stage) {
    call < |s.world.calls| && s.world.calls[call].stage == stage
  }

  function MoveCall(s: State, call: nat, stage: Stage): State
    requires call < |s.world.calls|
  {
    s.(world := s.world.(calls := s.world.calls[call := s.world.calls[call].(stage := stage)]))
  }

  // --------------------------------------------------------------------- operations

  /** `getRetryInfo(error).willRetry` */
  predicate WillRetry(s: State, nonRetryable: bool) {
    s.retries < MaxRetries(s.options) && !s.states.isDestroyed && !nonRetryable && s.states.shouldRetry
  }

  /** `retryConnect` */
  function RetryConnect(s: State): State {
    if s.retries >= MaxRetries(s.options) then s
    else s.(retries := s.retries + 1,
            world := s.world.(retryTimers := s.world.retryTimers + 1, scheduled := s.world.scheduled + 1))
  }

  /** `cleanupQueue` */
  function CleanupQueue(s: State, error: Option<Outcome>): State {
    s.(queue := [],
       world := s.world.(
         timers := ClearAll(s.world.timers, s.queue),
         sends := if error.Some? then SettleAll(s.world.sends, s.queue, error.value) else s.world.sends))
  }

  function Disconnected(s: State): State {
    s.(states := s.states.(isConnected := false, isConnecting := false))
  }

  /** `resolveError` */
  function ResolveError(s: State, error: Outcome): State {
    CleanupQueue(Disconnected(s).(socket := None), Some(error))
  }

  /** `processResolveOnError`, which both its callers give a promise and its timer. */
  function ProcessResolveOnError(s: State, item: Item, error: Outcome): State {
    s.(queue := Remove(s.queue, item.artifact.id),
       world := s.world.(
         sends := Settle(s.world.sends, item.resolve, error),
         timers := s.world.timers - {item.timeout}))
  }

  /** `sendArtifact`; `taken` is what the socket's `write` returns. */
  function SendArtifact(s: State, item: Item, taken: bool): State {
    if !item.artifact.valid then ProcessResolveOnError(s, item, InvalidArtifact)
    else if SocketDestroyed(s) || SocketEnded(s) || !s.states.isConnected || s.states.isDestroyed || s.states.isConnecting
    then ProcessResolveOnError(s, item, ConnectionClosed)
    else
      var written := if s.socket.Some? then s.(world := s.world.(wire := s.world.wire + [item.artifact])) else s;
      if s.socket.Some? && taken then written
      else written.(backpressureQueue := s.backpressureQueue + [item.artifact], states := s.states.(isDraining := true))
  }

  /** `getSocket` up to its first await, called where the client is not connecting. */
  function StartGetSocket(s: State, job: Option<nat>): State {
    if s.socket.Some? && !SocketDestroyed(s)
    then s.(world := s.world.(calls := s.world.calls + [SocketCall(job, Back(s.socket))]))
    else s.(states := s.states.(isConnecting := true), world := s.world.(calls := s.world.calls + [SocketCall(job, Lookup)]))
  }

  /** A new promise with its timer, entered in the queue under its artifact's id. */
  function Enqueue(s: State, artifact: Artifact): State {
    var p := |s.world.sends|;
    s.(queue := Put(s.queue, artifact.id, Item(artifact, p, p)),
       world := s.world.(sends := s.world.sends + [Sent(artifact, None)], timers := s.world.timers + {p}))
  }

  /** `dispatch` up to its await. */
  function StartDispatch(s: State, artifact: Artifact): State {
    if s.states.isConnecting then Enqueue(s, artifact)
    else StartGetSocket(Enqueue(s, artifact), Some(|s.world.sends|))
  }

  predicate Refuses(s: State, artifact: Artifact) {
    s.states.isDestroyed || !artifact.valid || |s.queue| >= MaxQueue(s.options)
  }

  /** The rest of `dispatch` once `getSocket` is back. */
  function ResumeDispatch(s: State, p: nat, socket: Option<nat>, taken: bool): State
    requires p < |s.world.sends|
  {
    var artifact := s.world.sends[p].artifact;
    if socket.None? && !s.states.isConnecting then
      CleanupQueue(ProcessResolveOnError(s, Item(artifact, p, p), NoHost), Some(NotEstablished))
    else if socket.Some? then SendArtifact(s, Item(artifact, p, p), taken)
    else s
  }

  function Resume(s: State, call: nat, taken: bool): State {
    if call >= |s.world.calls| || !s.world.calls[call].stage.Back? then s
    else
      var c := s.world.calls[call];
      var s' := MoveCall(s, call, Over);
      if c.job.None? || c.job.value >= |s.world.sends| then s' else ResumeDispatch(s', c.job.value, c.stage.socket, taken)
  }

  /** `pumpNextQueue` */
  function PumpNextQueue(s: State, taken: bool): State {
    if s.queue != [] && s.states.isConnected then SendArtifact(s, s.queue[0].val, taken) else s
  }

  /** The entry a message answers is gone, its timer cleared, its promise resolved. */
  function Answered(s: State, message: Message, valid: bool): State
    requires Has(s.queue, message.reqId)
  {
    var item := Get(s.queue, message.reqId).value;
    s.(queue := Remove(s.queue, message.reqId),
       world := s.world.(
         timers := s.world.timers - {item.timeout},
         sends := Settle(s.world.sends, item.resolve, if valid then Reply(message) else BadSignature(message))))
  }

  /** `onData` once the message is verified. */
  function OnVerified(s: State, message: Message, verdict: Verdict, taken: bool): State {
    if verdict.VerifyThrows? then s.(states := s.states.(shouldRetry := false))
    else if message.reqId == "" || !Has(s.queue, message.reqId) then s
    else PumpNextQueue(Answered(s, message, verdict.ValidSignature?), taken)
  }

  function WithoutVerifying(s: State, index: nat): State
    requires index < |s.world.verifying|
  {
    s.(world := s.world.(verifying := s.world.verifying[..index] + s.world.verifying[index + 1..]))
  }

  function TakeVerified(s: State, index: nat, verdict: Verdict, taken: bool): State {
    if index >= |s.world.verifying| then s
    else OnVerified(WithoutVerifying(s, index), s.world.verifying[index], verdict, taken)
  }

  /** The timeout callback of `dispatch`, which looks its entry up by id. */
  function FireTimer(s: State, p: nat): State {
    if p !in s.world.timers || p >= |s.world.sends| then s
    else
      s.(queue := Remove(s.queue, s.world.sends[p].artifact.id),
         world := s.world.(sends := Settle(s.world.sends, p, TimedOut), timers := s.world.timers - {p}))
  }

  function FireRetry(s: State): State {
    if s.world.retryTimers == 0 then s
    else
      var s' := s.(world := s.world.(retryTimers := s.world.retryTimers - 1));
      if (s.socket.Some? && !SocketDestroyed(s)) || s.states.isConnecting then s' else StartGetSocket(s', None)
  }

  /** The loop of `flushBackpressure`; a `write` that returns false suspends it. */
  function FlushLoop(s: State, taken: seq<bool>): State
    decreases |s.backpressureQueue|
  {
    if s.backpressureQueue == [] || s.socket.None? || SocketDestroyed(s) || SocketEnded(s)
    then s.(states := s.states.(isDraining := false))
    else
      var s' := s.(backpressureQueue := s.backpressureQueue[1..],
                   world := s.world.(wire := s.world.wire + [s.backpressureQueue[0]]));
      if taken != [] && taken[0] then FlushLoop(s', taken[1..]) else s'.(world := s'.world.(flushWaits := true))
  }

  /** `flushBackpressure` */
  function FlushBackpressure(s: State, taken: seq<bool>): State {
    if s.states.isDraining then s else FlushLoop(s.(states := s.states.(isDraining := true)), taken)
  }

  function OnSocketError(s: State, nonRetryable: bool): State {
    if WillRetry(s, nonRetryable) then RetryConnect(Disconnected(s)) else ResolveError(s, ConnectionLost)
  }

  function OnEnd(s: State): State {
    if !WillRetry(s, false) then RetryConnect(Disconnected(s)) else ResolveError(s, ConnectionLost)
  }

  /** `update`: what is not given keeps its value. */
  function Changed(o: Options, changed: Options): Options {
    Options(if changed.maxRetries.Some? then changed.maxRetries else o.maxRetries,
            if changed.maxQueue.Some? then changed.maxQueue else o.maxQueue)
  }

  function ApplyEnd(s: State): State {
    Disconnected(s).(socket := None, world := s.world.(sockets := EndSocket(s.world.sockets, s.socket)))
  }

  function ApplyDestroy(s: State): State {
    CleanupQueue(
      s.(states := ConnectionStates(false, false, false, true, false),
         backpressureQueue := [],
         world := s.world.(sockets := DestroySocket(s.world.sockets, s.socket))),
      None)
  }

  /** What one event does; an event that cannot happen changes nothing. */
  function Step(s: State, e: Event): State {
    match e
    case Send(artifact) => if Refuses(s, artifact) then s else StartDispatch(s, artifact)
    case LookupFailed(c) =>
      if StageIs(s, c, Lookup) then MoveCall(s.(states := s.states.(isConnecting := false)), c, Back(None)) else s
    case LookupDone(c) =>
      if StageIs(s, c, Lookup)
      then MoveCall(s.(world := s.world.(sockets := s.world.sockets + [SocketFlags(false, false)])), c, Handshake(|s.world.sockets|))
      else s
    case Connected(c) =>
      if c < |s.world.calls| && s.world.calls[c].stage.Handshake? then
        var k := s.world.calls[c].stage.sock;
        MoveCall(s.(socket := Some(k), states := s.states.(isConnected := true, isConnecting := false)), c, Back(Some(k)))
      else s
    case DispatchResumed(c, taken) => Resume(s, c, taken)
    case SocketError(nonRetryable) => OnSocketError(s, nonRetryable)
    case SocketEnd => OnEnd(s)
    case SocketClose => ResolveError(s, ConnectionLost)
    case SocketIdle(k) => ApplyDestroy(s.(world := s.world.(sockets := DestroySocket(s.world.sockets, Some(k)))))
    case SocketGone(k, flags) => s.(world := s.world.(sockets := SetFlags(s.world.sockets, k, flags)))
    case Line(parsed) =>
      s.(states := s.states.(shouldRetry := false),
         world := if parsed.Some? then s.world.(verifying := s.world.verifying + [parsed.value]) else s.world)
    case Verified(i, verdict, taken) => TakeVerified(s, i, verdict, taken)
    case TimerFires(p) => FireTimer(s, p)
    case RetryFires => FireRetry(s)
    case Drain(writes) => FlushBackpressure(s, writes)
    case DrainResumed(writes) =>
      if s.world.flushWaits then FlushLoop(s.(world := s.world.(flushWaits := false)), writes) else s
    case Update(changed) => s.(options := Changed(s.options, changed))
    case End => ApplyEnd(s)
    case Destroy => ApplyDestroy(s)
  }

  function Run(s: State, events: seq<Event>): State
    decreases |events|
  {
    if events == [] then s else Run(Step(s, events[0]), events[1..])
  }

  // ------------------------------------------------------------ the requests in flight

  /** A promise of this state that nobody has resolved yet. */
  predicate Open(sends: seq<Sent>, p: nat) {
    p < |sends| && sends[p].outcome.None?
  }

  /** The entry's resolver and timer are one unsettled promise, made for its artifact under its id. */
  predicate OwnEntry(sends: seq<Sent>, e: Entry<string, Item>) {
    && e.val.resolve == e.val.timeout
    && Open(sends, e.val.resolve)
    && sends[e.val.resolve].artifact == e.val.artifact
    && e.val.artifact.id == e.key
  }

  ghost predicate EntriesOpen(sends: seq<Sent>, q: OMap<string, Item>) {
    && Distinct(q)
    && forall i :: 0 <= i < |q| ==> OwnEntry(sends, q[i])
  }

  /** Before `destroy` a timer is pending exactly for each unsettled promise; afterwards for some of them. */
  ghost predicate TimersMatch(s: State) {
    && (forall p: nat :: p in s.world.timers ==> Open(s.world.sends, p))
    && (if s.states.isDestroyed then s.queue == [] else forall p: nat :: Open(s.world.sends, p) ==> p in s.world.timers)
  }

  /** Every reply a promise resolved with answers its own id. */
  predicate RepliesMatch(sends: seq<Sent>) {
    forall p :: 0 <= p < |sends| && sends[p].outcome.Some? && sends[p].outcome.value.Reply? ==>
      sends[p].outcome.value.message.reqId == sends[p].artifact.id
  }

  ghost predicate Requests(s: State) {
    && EntriesOpen(s.world.sends, s.queue)
    && TimersMatch(s)
    && RepliesMatch(s.world.sends)
  }

  /** No two promises were made for one id. */
  predicate DistinctIds(sends: seq<Sent>) {
    forall p, q :: 0 <= p < q < |sends| ==> sends[p].artifact.id != sends[q].artifact.id
  }

  /** Before `destroy` every unsettled promise is in the queue; afterwards no timer is left. */
  ghost predicate OpenIsQueued(s: State) {
    if s.states.isDestroyed then s.world.timers == {}
    else
      forall p: nat :: Open(s.world.sends, p) ==>
        Has(s.queue, s.world.sends[p].artifact.id) && Get(s.queue, s.world.sends[p].artifact.id).value.resolve == p
  }

  // the pieces every operation is made of

  lemma {:induction false} EntriesGet(sends: seq<Sent>, q: OMap<string, Item>, k: string)
    requires EntriesOpen(sends, q) && Has(q, k)
    ensures OwnEntry(sends, Entry(k, Get(q, k).value))
  {
    GetEntry(q, k);
  }

  lemma {:induction false} RemoveKeepsEntries(sends: seq<Sent>, q: OMap<string, Item>, k: string)
    requires EntriesOpen(sends, q)
    ensures EntriesOpen(sends, Remove(q, k))
    ensures forall i :: 0 <= i < |Remove(q, k)| ==> Remove(q, k)[i] in q && Remove(q, k)[i].key != k
  {
    if q != [] {
      RemoveKeepsEntries(sends, q[1..], k);
      assert q == [q[0]] + q[1..];
    }
  }

  /** The promise with its entry and its timer gone; this is how every single promise is settled. */
  function SettleOne(s: State, p: nat, o: Outcome): State
    requires p < |s.world.sends|
  {
    s.(queue := Remove(s.queue, s.world.sends[p].artifact.id),
       world := s.world.(sends := Settle(s.world.sends, p, o), timers := s.world.timers - {p}))
  }

  ghost predicate Safe(s: State) {
    Requests(s) && (DistinctIds(s.world.sends) ==> OpenIsQueued(s))
  }

  lemma DistinctIdsBefore(sends: seq<Sent>, sends': seq<Sent>)
    requires |sends| <= |sends'| && DistinctIds(sends')
    requires forall p :: 0 <= p < |sends| ==> sends'[p].artifact == sends[p].artifact
    ensures DistinctIds(sends)
  {
    forall i, j | 0 <= i < j < |sends| ensures sends[i].artifact.id != sends[j].artifact.id {
      assert sends'[i].artifact.id != sends'[j].artifact.id;
    }
  }

  lemma SettleOneQueued(s: State, p: nat, o: Outcome)
    requires OpenIsQueued(s) && DistinctIds(s.world.sends) && p < |s.world.sends|
    ensures OpenIsQueued(SettleOne(s, p, o))
  {
    var sends, s' := s.world.sends, SettleOne(s, p, o);
    var sends' := s'.world.sends;
    forall r: nat | Open(sends', r) && !s.states.isDestroyed
      ensures Has(s'.queue, sends'[r].artifact.id) && Get(s'.queue, sends'[r].artifact.id).value.resolve == r
    {
      assert Open(sends, r) && r != p;
      assert sends[r].artifact.id != sends[p].artifact.id;
    }
  }

  lemma SettleOneEntries(s: State, p: nat, o: Outcome)
    requires EntriesOpen(s.world.sends, s.queue) && p < |s.world.sends|
    ensures EntriesOpen(SettleOne(s, p, o).world.sends, SettleOne(s, p, o).queue)
  {
    var sends, q' := s.world.sends, SettleOne(s, p, o).queue;
    RemoveKeepsEntries(sends, s.queue, sends[p].artifact.id);
    forall i | 0 <= i < |q'| ensures OwnEntry(Settle(sends, p, o), q'[i]) {
      assert OwnEntry(sends, q'[i]);
    }
  }

  lemma SettleOneTimers(s: State, p: nat, o: Outcome)
    requires TimersMatch(s) && RepliesMatch(s.world.sends) && p < |s.world.sends|
    requires o.Reply? ==> o.message.reqId == s.world.sends[p].artifact.id
    ensures TimersMatch(SettleOne(s, p, o)) && RepliesMatch(SettleOne(s, p, o).world.sends)
  {
  }

  lemma SettleOneKeeps(s: State, p: nat, o: Outcome)
    requires Safe(s) && p < |s.world.sends|
    requires o.Reply? ==> o.message.reqId == s.world.sends[p].artifact.id
    ensures Safe(SettleOne(s, p, o))
  {
    SettleOneEntries(s, p, o);
    SettleOneTimers(s, p, o);
    if DistinctIds(SettleOne(s, p, o).world.sends) {
      DistinctIdsBefore(s.world.sends, SettleOne(s, p, o).world.sends);
      SettleOneQueued(s, p, o);
    }
  }

  lemma {:induction false} SettleAllAt(sends: seq<Sent>, q: OMap<string, Item>, o: Outcome)
    ensures var sends' := SettleAll(sends, q, o);
            && |sends'| == |sends|
            && forall p :: 0 <= p < |sends| ==>
                 && sends'[p].artifact == sends[p].artifact
                 && sends'[p].outcome ==
                      if sends[p].outcome.None? && Resolves(q, p) then Some(o) else sends[p].outcome
    decreases |q|
  {
    if q != [] {
      SettleAllAt(Settle(sends, q[0].val.resolve, o), q[1..], o);
      forall p | 0 <= p < |sends| ensures Resolves(q, p) <==> q[0].val.resolve == p || Resolves(q[1..], p) {
        ResolvesSplit(q, p);
      }
    }
  }

  predicate Resolves(q: OMap<string, Item>, p: nat) {
    exists i :: 0 <= i < |q| && q[i].val.resolve == p
  }

  lemma ResolvesSplit(q: OMap<string, Item>, p: nat)
    requires q != []
    ensures Resolves(q, p) <==> q[0].val.resolve == p || Resolves(q[1..], p)
  {
    if Resolves(q, p) {
      var i :| 0 <= i < |q| && q[i].val.resolve == p;
      assert i > 0 ==> q[1..][i - 1] == q[i];
    }
    if Resolves(q[1..], p) {
      var i :| 0 <= i < |q[1..]| && q[1..][i].val.resolve == p;
      assert q[i + 1] == q[1..][i];
    }
  }

  lemma {:induction false} ClearAllAt(timers: set<nat>, q: OMap<string, Item>, p: nat)
    requires forall i :: 0 <= i < |q| ==> q[i].val.resolve == q[i].val.timeout
    ensures p in ClearAll(timers, q) <==> p in timers && !Resolves(q, p)
    decreases |q|
  {
    if q != [] {
      ClearAllAt(timers - {q[0].val.timeout}, q[1..], p);
      ResolvesSplit(q, p);
    }
  }

  lemma CleanupKeeps(s: State, o: Outcome)
    requires Safe(s) && !o.Reply?
    ensures Safe(CleanupQueue(s, Some(o)))
  {
    var sends, q := s.world.sends, s.queue;
    var sends' := SettleAll(sends, q, o);
    SettleAllAt(sends, q, o);
    forall p: nat
      ensures p in ClearAll(s.world.timers, q) <==> p in s.world.timers && !Resolves(q, p)
      ensures Open(sends', p) <==> Open(sends, p) && !Resolves(q, p)
    {
      ClearAllAt(s.world.timers, q, p);
    }
    if DistinctIds(sends') && !s.states.isDestroyed {
      DistinctIdsBefore(sends, sends');
      forall p: nat ensures !Open(sends', p) {
        if Open(sends, p) {
          QueuedResolves(s, p);
        }
      }
    }
  }

  lemma QueuedResolves(s: State, p: nat)
    requires Requests(s) && Open(s.world.sends, p) && Has(s.queue, s.world.sends[p].artifact.id)
    requires Get(s.queue, s.world.sends[p].artifact.id).value.resolve == p
    ensures Resolves(s.queue, p)
  {
    var id := s.world.sends[p].artifact.id;
    GetEntry(s.queue, id);
    var i :| 0 <= i < |s.queue| && s.queue[i] == Entry(id, Get(s.queue, id).value);
  }

  lemma EnqueueKeeps(s: State, artifact: Artifact)
    requires Safe(s) && !s.states.isDestroyed
    ensures Safe(Enqueue(s, artifact))
  {
    var n, s' := |s.world.sends|, Enqueue(s, artifact);
    var sends, sends', q' := s.world.sends, s'.world.sends, s'.queue;
    assert q' == Put(s.queue, artifact.id, Item(artifact, n, n));
    assert EntriesOpen(sends', q') by {
      PutKeepsEntries(sends, s.queue, artifact);
    }
    if DistinctIds(sends') {
      EnqueueQueued(s, artifact);
    }
  }

  lemma EnqueueQueued(s: State, artifact: Artifact)
    requires Safe(s) && !s.states.isDestroyed && DistinctIds(Enqueue(s, artifact).world.sends)
    ensures OpenIsQueued(Enqueue(s, artifact))
  {
    var n, s' := |s.world.sends|, Enqueue(s, artifact);
    var sends, sends' := s.world.sends, s'.world.sends;
    DistinctIdsBefore(sends, sends');
    forall p: nat | Open(sends', p)
      ensures Has(s'.queue, sends'[p].artifact.id) && Get(s'.queue, sends'[p].artifact.id).value.resolve == p
    {
      if p < n {
        assert sends'[p].artifact.id != sends'[n].artifact.id;
        assert Open(sends, p);
      }
    }
  }

  lemma {:induction false} PutKeepsEntries(sends: seq<Sent>, q: OMap<string, Item>, artifact: Artifact)
    requires EntriesOpen(sends, q)
    ensures EntriesOpen(sends + [Sent(artifact, None)], Put(q, artifact.id, Item(artifact, |sends|, |sends|)))
  {
    var sends' := sends + [Sent(artifact, None)];
    if q == [] {
      assert OwnEntry(sends', Entry(artifact.id, Item(artifact, |sends|, |sends|)));
    } else {
      PutKeepsEntries(sends, q[1..], artifact);
      var q' := Put(q, artifact.id, Item(artifact, |sends|, |sends|));
      forall i | 0 <= i < |q'| ensures OwnEntry(sends', q'[i]) {
        if q[0].key == artifact.id {
          assert i > 0 ==> q'[i] == q[i];
        } else {
          assert i > 0 ==> q'[i] == Put(q[1..], artifact.id, Item(artifact, |sends|, |sends|))[i - 1];
          assert i == 0 ==> OwnEntry(sends, q[0]);
        }
      }
    }
  }

  // ----------------------------------------------------------------- every event

  predicate SameRequests(s: State, s': State) {
    && s.queue == s'.queue && s.states.isDestroyed == s'.states.isDestroyed
    && s.world.sends == s'.world.sends && s.world.timers == s'.world.timers
  }

  lemma SafeFrame(s: State, s': State)
    requires Safe(s) && SameRequests(s, s')
    ensures Safe(s')
  {
  }

  lemma SendArtifactKeeps(s: State, item: Item, taken: bool)
    requires Safe(s) && item.resolve == item.timeout && item.resolve < |s.world.sends|
    requires s.world.sends[item.resolve].artifact == item.artifact
    ensures Safe(SendArtifact(s, item, taken))
  {
    SettleOneKeeps(s, item.resolve, InvalidArtifact);
    SettleOneKeeps(s, item.resolve, ConnectionClosed);
    var s' := SendArtifact(s, item, taken);
    if SameRequests(s, s') {
      SafeFrame(s, s');
    } else {
      assert s' == SettleOne(s, item.resolve, InvalidArtifact) || s' == SettleOne(s, item.resolve, ConnectionClosed);
    }
  }

  lemma ResumeKeeps(s: State, call: nat, taken: bool)
    requires Safe(s)
    ensures Safe(Resume(s, call, taken))
  {
    if call < |s.world.calls| && s.world.calls[call].stage.Back? {
      var c, s' := s.world.calls[call], MoveCall(s, call, Over);
      SafeFrame(s, s');
      if c.job.Some? && c.job.value < |s.world.sends| {
        var p := c.job.value;
        SettleOneKeeps(s', p, NoHost);
        CleanupKeeps(SettleOne(s', p, NoHost), NotEstablished);
        SendArtifactKeeps(s', Item(s'.world.sends[p].artifact, p, p), taken);
      }
    }
  }

  lemma PumpKeeps(s: State, taken: bool)
    requires Safe(s)
    ensures Safe(PumpNextQueue(s, taken))
  {
    if s.queue != [] {
      assert OwnEntry(s.world.sends, s.queue[0]);
      SendArtifactKeeps(s, s.queue[0].val, taken);
    }
  }

  lemma OnVerifiedKeeps(s: State, message: Message, verdict: Verdict, taken: bool)
    requires Safe(s)
    ensures Safe(OnVerified(s, message, verdict, taken))
  {
    if !verdict.VerifyThrows? && message.reqId != "" && Has(s.queue, message.reqId) {
      EntriesGet(s.world.sends, s.queue, message.reqId);
      var p := Get(s.queue, message.reqId).value.resolve;
      var outcome := if verdict.ValidSignature? then Reply(message) else BadSignature(message);
      SettleOneKeeps(s, p, outcome);
      PumpKeeps(SettleOne(s, p, outcome), taken);
    } else {
      SafeFrame(s, OnVerified(s, message, verdict, taken));
    }
  }

  lemma {:induction false} FlushFrame(s: State, taken: seq<bool>)
    ensures SameRequests(s, FlushLoop(s, taken)) && FlushLoop(s, taken).world.calls == s.world.calls
    decreases |s.backpressureQueue|
  {
    if s.backpressureQueue != [] && s.socket.Some? && !SocketDestroyed(s) && !SocketEnded(s) && taken != [] && taken[0] {
      FlushFrame(
        s.(backpressureQueue := s.backpressureQueue[1..], world := s.world.(wire := s.world.wire + [s.backpressureQueue[0]])),
        taken[1..]);
    }
  }

  lemma ResolveErrorKeeps(s: State, o: Outcome)
    requires Safe(s) && !o.Reply?
    ensures Safe(ResolveError(s, o))
  {
    var s' := Disconnected(s).(socket := None);
    SafeFrame(s, s');
    CleanupKeeps(s', o);
  }

  lemma DestroyKeeps(s: State)
    requires Safe(s)
    ensures Safe(ApplyDestroy(s))
  {
    forall p: nat ensures p in ClearAll(s.world.timers, s.queue) <==> p in s.world.timers && !Resolves(s.queue, p) {
      assert forall i :: 0 <= i < |s.queue| ==> OwnEntry(s.world.sends, s.queue[i]);
      ClearAllAt(s.world.timers, s.queue, p);
    }
    if DistinctIds(s.world.sends) && !s.states.isDestroyed {
      forall p: nat | p in s.world.timers ensures Resolves(s.queue, p) {
        QueuedResolves(s, p);
      }
    }
  }

  lemma SendKeeps(s: State, artifact: Artifact)
    requires Safe(s)
    ensures Safe(Step(s, Send(artifact)))
  {
    if !Refuses(s, artifact) {
      EnqueueKeeps(s, artifact);
      SafeFrame(Enqueue(s, artifact), StartDispatch(s, artifact));
    }
  }

  lemma TakeVerifiedKeeps(s: State, i: nat, verdict: Verdict, taken: bool)
    requires Safe(s)
    ensures Safe(TakeVerified(s, i, verdict, taken))
  {
    if i < |s.world.verifying| {
      SafeFrame(s, WithoutVerifying(s, i));
      OnVerifiedKeeps(WithoutVerifying(s, i), s.world.verifying[i], verdict, taken);
    }
  }

  lemma OnEndKeeps(s: State)
    requires Safe(s)
    ensures Safe(OnEnd(s))
  {
    ResolveErrorKeeps(s, ConnectionLost);
    SafeFrame(s, RetryConnect(Disconnected(s)));
  }

  lemma OnSocketErrorKeeps(s: State, nonRetryable: bool)
    requires Safe(s)
    ensures Safe(OnSocketError(s, nonRetryable))
  {
    ResolveErrorKeeps(s, ConnectionLost);
    SafeFrame(s, RetryConnect(Disconnected(s)));
  }

  lemma IdleKeeps(s: State, k: nat)
    requires Safe(s)
    ensures Safe(Step(s, SocketIdle(k)))
  {
    var s' := s.(world := s.world.(sockets := DestroySocket(s.world.sockets, Some(k))));
    SafeFrame(s, s');
    DestroyKeeps(s');
  }

  lemma FlushKeeps(s: State, writes: seq<bool>)
    requires Safe(s)
    ensures Safe(Step(s, Drain(writes))) && Safe(Step(s, DrainResumed(writes)))
  {
    var s', s'' := s.(states := s.states.(isDraining := true)), s.(world := s.world.(flushWaits := false));
    FlushFrame(s', writes);
    FlushFrame(s'', writes);
    SafeFrame(s, Step(s, Drain(writes)));
    SafeFrame(s, Step(s, DrainResumed(writes)));
  }

  predicate Quiet(e: Event) {
    || e.LookupFailed? || e.LookupDone? || e.Connected? || e.SocketGone? || e.Line? || e.RetryFires? || e.Update? || e.End?
  }

  lemma QuietSame(s: State, e: Event)
    requires Quiet(e)
    ensures SameRequests(s, Step(s, e))
  {
  }

  lemma QuietKeeps(s: State, e: Event)
    requires Safe(s) && Quiet(e)
    ensures Safe(Step(s, e))
  {
    QuietSame(s, e);
    SafeFrame(s, Step(s, e));
  }

  /** The requests stay safe at every event. */
  lemma StepSafe(s: State, e: Event)
    requires Safe(s)
    ensures Safe(Step(s, e))
  {
    match e
    case Send(artifact) => SendKeeps(s, artifact);
    case DispatchResumed(c, taken) => ResumeKeeps(s, c, taken);
    case SocketError(nonRetryable) => OnSocketErrorKeeps(s, nonRetryable);
    case SocketEnd => OnEndKeeps(s);
    case SocketClose => ResolveErrorKeeps(s, ConnectionLost);
    case SocketIdle(k) => IdleKeeps(s, k);
    case Verified(i, verdict, taken) => TakeVerifiedKeeps(s, i, verdict, taken);
    case TimerFires(p) =>
      if p in s.world.timers && p < |s.world.sends| {
        SettleOneKeeps(s, p, TimedOut);
      }
    case Drain(writes) => FlushKeeps(s, writes);
    case DrainResumed(writes) => FlushKeeps(s, writes);
    case Destroy => DestroyKeeps(s);
    case _ => QuietKeeps(s, e);
  }

  // ------------------------------------------------- the queue, the reconnects, the wire

  /** Queue and reconnects are within the bounds, and so is what the options allow. */
  predicate Within(s: State, maxRetries: nat, maxQueue: nat) {
    && |s.queue| <= maxQueue && MaxQueue(s.options) <= maxQueue
    && s.retries == s.world.scheduled <= maxRetries && MaxRetries(s.options) <= maxRetries
    && s.world.retryTimers <= s.world.scheduled
  }

  /** The bounds cover the options at the start and after every `update`. */
  predicate Covers(maxRetries: nat, maxQueue: nat, o: Options, events: seq<Event>)
    decreases |events|
  {
    && MaxRetries(o) <= maxRetries && MaxQueue(o) <= maxQueue
    && (events != [] ==>
          Covers(maxRetries, maxQueue, if events[0].Update? then Changed(o, events[0].changed) else o, events[1..]))
  }

  predicate SameLimits(s: State, s': State) {
    && |s'.queue| <= |s.queue| && s'.options == s.options && s'.retries == s.retries
    && s'.world.scheduled == s.world.scheduled && s'.world.retryTimers == s.world.retryTimers
  }

  lemma ResumeLimits(s: State, call: nat, taken: bool)
    ensures SameLimits(s, Resume(s, call, taken))
  {
  }

  lemma TakeVerifiedLimits(s: State, i: nat, verdict: Verdict, taken: bool)
    ensures SameLimits(s, TakeVerified(s, i, verdict, taken))
  {
  }

  lemma {:induction false} FlushLimits(s: State, writes: seq<bool>)
    ensures SameLimits(s, FlushLoop(s, writes))
    decreases |s.backpressureQueue|
  {
    if s.backpressureQueue != [] && s.socket.Some? && !SocketDestroyed(s) && !SocketEnded(s) && writes != [] && writes[0] {
      FlushLimits(
        s.(backpressureQueue := s.backpressureQueue[1..], world := s.world.(wire := s.world.wire + [s.backpressureQueue[0]])),
        writes[1..]);
    }
  }

  lemma SocketWithin(s: State, e: Event, maxRetries: nat, maxQueue: nat)
    requires Within(s, maxRetries, maxQueue)
    requires e.SocketError? || e.SocketEnd? || e.SocketClose? || e.SocketIdle? || e.Destroy?
    ensures Within(Step(s, e), maxRetries, maxQueue) && Step(s, e).options == s.options
  {
  }

  lemma SendWithin(s: State, artifact: Artifact, maxRetries: nat, maxQueue: nat)
    requires Within(s, maxRetries, maxQueue)
    ensures Within(Step(s, Send(artifact)), maxRetries, maxQueue) && Step(s, Send(artifact)).options == s.options
  {
  }

  lemma StepWithin(s: State, e: Event, maxRetries: nat, maxQueue: nat)
    requires Within(s, maxRetries, maxQueue)
    requires e.Update? ==> MaxRetries(Changed(s.options, e.changed)) <= maxRetries && MaxQueue(Changed(s.options, e.changed)) <= maxQueue
    ensures Within(Step(s, e), maxRetries, maxQueue)
    ensures Step(s, e).options == if e.Update? then Changed(s.options, e.changed) else s.options
  {
    match e
    case Send(artifact) => SendWithin(s, artifact, maxRetries, maxQueue);
    case DispatchResumed(c, taken) => ResumeLimits(s, c, taken);
    case Verified(i, verdict, taken) => TakeVerifiedLimits(s, i, verdict, taken);
    case TimerFires(_) =>
    case Drain(writes) => FlushLimits(s.(states := s.states.(isDraining := true)), writes);
    case DrainResumed(writes) => FlushLimits(s.(world := s.world.(flushWaits := false)), writes);
    case _ => if Quiet(e) { QuietWithin(s, e, maxRetries, maxQueue); } else { SocketWithin(s, e, maxRetries, maxQueue); }
  }

  lemma QuietWithin(s: State, e: Event, maxRetries: nat, maxQueue: nat)
    requires Within(s, maxRetries, maxQueue) && Quiet(e)
    requires e.Update? ==> MaxRetries(Changed(s.options, e.changed)) <= maxRetries && MaxQueue(Changed(s.options, e.changed)) <= maxQueue
    ensures Within(Step(s, e), maxRetries, maxQueue)
    ensures Step(s, e).options == if e.Update? then Changed(s.options, e.changed) else s.options
  {
  }

  /** A chunk in the backpressure queue was handed to `write` already, and no flush is under way. */
  predicate Pressed(s: State) {
    && (s.backpressureQueue != [] ==> s.states.isDraining)
    && (forall a :: a in s.backpressureQueue ==> a in s.world.wire)
    && !s.world.flushWaits
    && (s.states.isConnected ==> s.socket.Some?)
  }

  lemma SendArtifactPressed(s: State, item: Item, taken: bool)
    requires Pressed(s)
    ensures Pressed(SendArtifact(s, item, taken))
  {
  }

  lemma ResumePressed(s: State, call: nat, taken: bool)
    requires Pressed(s)
    ensures Pressed(Resume(s, call, taken))
  {
    if call < |s.world.calls| && s.world.calls[call].stage.Back? {
      var c, s' := s.world.calls[call], MoveCall(s, call, Over);
      if c.job.Some? && c.job.value < |s.world.sends| {
        SendArtifactPressed(s', Item(s'.world.sends[c.job.value].artifact, c.job.value, c.job.value), taken);
      }
    }
  }

  lemma PumpPressed(s: State, taken: bool)
    requires Pressed(s)
    ensures Pressed(PumpNextQueue(s, taken))
  {
    if s.queue != [] {
      SendArtifactPressed(s, s.queue[0].val, taken);
    }
  }

  lemma OnVerifiedPressed(s: State, message: Message, verdict: Verdict, taken: bool)
    requires Pressed(s)
    ensures Pressed(OnVerified(s, message, verdict, taken))
  {
    if !verdict.VerifyThrows? && message.reqId != "" && Has(s.queue, message.reqId) {
      PumpPressed(Answered(s, message, verdict.ValidSignature?), taken);
    }
  }

  /** `flushBackpressure` changes nothing: it returns at once, or finds nothing to write. */
  lemma FlushIsNoop(s: State, writes: seq<bool>)
    requires Pressed(s)
    ensures Step(s, Drain(writes)) == s && Step(s, DrainResumed(writes)) == s
  {
  }

  lemma QuietPressed(s: State, e: Event)
    requires Pressed(s) && (Quiet(e) || e.Send? || e.TimerFires?)
    ensures Pressed(Step(s, e))
  {
  }

  lemma SocketPressed(s: State, e: Event)
    requires Pressed(s) && (e.SocketError? || e.SocketEnd? || e.SocketClose? || e.SocketIdle? || e.Destroy?)
    ensures Pressed(Step(s, e))
  {
  }

  lemma StepPressed(s: State, e: Event)
    requires Pressed(s)
    ensures Pressed(Step(s, e))
  {
    match e
    case DispatchResumed(c, taken) => ResumePressed(s, c, taken);
    case Verified(i, verdict, taken) =>
      if i < |s.world.verifying| {
        OnVerifiedPressed(WithoutVerifying(s, i), s.world.verifying[i], verdict, taken);
      }
    case Drain(writes) => FlushIsNoop(s, writes);
    case DrainResumed(writes) => FlushIsNoop(s, writes);
    case _ => if Quiet(e) || e.Send? || e.TimerFires? { QuietPressed(s, e); } else { SocketPressed(s, e); }
  }

  // ------------------------------------------------------------------------- runs

  ghost predicate Inv(s: State) {
    Safe(s) && Pressed(s)
  }

  lemma {:induction false} RunInv(s: State, events: seq<Event>)
    requires Inv(s)
    ensures Inv(Run(s, events))
    decreases |events|
  {
    if events != [] {
      StepSafe(s, events[0]);
      StepPressed(s, events[0]);
      RunInv(Step(s, events[0]), events[1..]);
    }
  }

  /**
   In every run up to `destroy`, a promise is unsettled exactly as long as its
   timer is pending, and every queue entry belongs to an unsettled promise.
   */
  lemma TimerUntilSettled(o: Options, events: seq<Event>)
    ensures var s := Run(Created(o), events);
            !s.states.isDestroyed ==>
              && (forall p: nat :: p in s.world.timers <==> Open(s.world.sends, p))
              && (forall i :: 0 <= i < |s.queue| ==> OwnEntry(s.world.sends, s.queue[i]))
  {
    RunInv(Created(o), events);
  }

  lemma OneIdOnePromise(sends: seq<Sent>, p: nat, q: nat)
    requires DistinctIds(sends) && p < |sends| && q < |sends| && sends[p].artifact.id == sends[q].artifact.id
    ensures p == q
  {
  }

  /** With distinct ids, unsettled, queued and timed are the same thing. */
  lemma QueuedIffUnsettled(o: Options, events: seq<Event>, p: nat)
    requires var s := Run(Created(o), events);
             !s.states.isDestroyed && p < |s.world.sends| && DistinctIds(s.world.sends)
    ensures var s := Run(Created(o), events);
            && (Open(s.world.sends, p) <==> Has(s.queue, s.world.sends[p].artifact.id))
            && (Open(s.world.sends, p) <==> p in s.world.timers)
  {
    RunInv(Created(o), events);
    var s := Run(Created(o), events);
    var id := s.world.sends[p].artifact.id;
    if Has(s.queue, id) {
      EntriesGet(s.world.sends, s.queue, id);
      var q := Get(s.queue, id).value.resolve;
      OneIdOnePromise(s.world.sends, p, q);
    }
  }

  lemma {:induction false} RunWithin(s: State, events: seq<Event>, maxRetries: nat, maxQueue: nat)
    requires Within(s, maxRetries, maxQueue) && Covers(maxRetries, maxQueue, s.options, events)
    ensures Within(Run(s, events), maxRetries, maxQueue)
    decreases |events|
  {
    if events != [] {
      StepWithin(s, events[0], maxRetries, maxQueue);
      RunWithin(Step(s, events[0]), events[1..], maxRetries, maxQueue);
    }
  }

  /** In-flight requests and reconnects never pass the largest limits configured in the run so far. */
  lemma LimitsHold(o: Options, events: seq<Event>, maxRetries: nat, maxQueue: nat)
    requires Covers(maxRetries, maxQueue, o, events)
    ensures var s := Run(Created(o), events);
            |s.queue| <= maxQueue && s.world.scheduled == s.retries <= maxRetries
  {
    RunWithin(Created(o), events, maxRetries, maxQueue);
  }

  /** No run ever flushes: a drain leaves every reachable state as it is, and what waits was written already. */
  lemma NothingWrittenTwiceByFlush(o: Options, events: seq<Event>, writes: seq<bool>)
    ensures var s := Run(Created(o), events);
            && Step(s, Drain(writes)) == s
            && (s.backpressureQueue != [] ==> s.states.isDraining)
            && (forall a :: a in s.backpressureQueue ==> a in s.world.wire)
  {
    RunInv(Created(o), events);
    FlushIsNoop(Run(Created(o), events), writes);
  }

  // ------------------------------------------------------------------ settling once

  /** `sends'` grew out of `sends`: promises stay, and so does an outcome once given. */
  predicate Grown(sends: seq<Sent>, sends': seq<Sent>) {
    && |sends| <= |sends'|
    && forall p :: 0 <= p < |sends| ==>
         && sends'[p].artifact == sends[p].artifact
         && (sends[p].outcome.Some? ==> sends'[p].outcome == sends[p].outcome)
  }

  lemma GrownTwice(sends: seq<Sent>, sends': seq<Sent>, sends'': seq<Sent>)
    requires Grown(sends, sends') && Grown(sends', sends'')
    ensures Grown(sends, sends'')
  {
    assert forall p :: 0 <= p < |sends| ==> sends'[p].artifact == sends[p].artifact;
  }

  lemma SendArtifactGrows(s: State, item: Item, taken: bool)
    ensures Grown(s.world.sends, SendArtifact(s, item, taken).world.sends)
  {
  }

  lemma ResumeGrows(s: State, call: nat, taken: bool)
    ensures Grown(s.world.sends, Resume(s, call, taken).world.sends)
  {
    if call < |s.world.calls| && s.world.calls[call].stage.Back? {
      var c, s' := s.world.calls[call], MoveCall(s, call, Over);
      if c.job.Some? && c.job.value < |s.world.sends| {
        var item := Item(s.world.sends[c.job.value].artifact, c.job.value, c.job.value);
        var settled := ProcessResolveOnError(s', item, NoHost);
        SettleAllAt(settled.world.sends, settled.queue, NotEstablished);
        GrownTwice(s.world.sends, settled.world.sends, CleanupQueue(settled, Some(NotEstablished)).world.sends);
        SendArtifactGrows(s', item, taken);
      }
    }
  }

  lemma OnVerifiedGrows(s: State, message: Message, verdict: Verdict, taken: bool)
    ensures Grown(s.world.sends, OnVerified(s, message, verdict, taken).world.sends)
  {
    if !verdict.VerifyThrows? && message.reqId != "" && Has(s.queue, message.reqId) {
      var answered := Answered(s, message, verdict.ValidSignature?);
      if answered.queue != [] {
        SendArtifactGrows(answered, answered.queue[0].val, taken);
      }
      GrownTwice(s.world.sends, answered.world.sends, PumpNextQueue(answered, taken).world.sends);
    }
  }

  lemma FlushGrows(s: State, writes: seq<bool>)
    ensures Step(s, Drain(writes)).world.sends == s.world.sends == Step(s, DrainResumed(writes)).world.sends
  {
    FlushFrame(s.(states := s.states.(isDraining := true)), writes);
    FlushFrame(s.(world := s.world.(flushWaits := false)), writes);
  }

  lemma StepGrows(s: State, e: Event)
    ensures Grown(s.world.sends, Step(s, e).world.sends)
  {
    match e
    case DispatchResumed(c, taken) => ResumeGrows(s, c, taken);
    case Verified(i, verdict, taken) =>
      if i < |s.world.verifying| {
        OnVerifiedGrows(WithoutVerifying(s, i), s.world.verifying[i], verdict, taken);
      }
    case Drain(writes) => FlushGrows(s, writes);
    case DrainResumed(writes) => FlushGrows(s, writes);
    case Send(artifact) => assert StartDispatch(s, artifact).world.sends == Enqueue(s, artifact).world.sends;
    case TimerFires(_) =>
    case _ => SocketGrows(s, e);
  }

  lemma SocketGrows(s: State, e: Event)
    requires Quiet(e) || e.SocketError? || e.SocketEnd? || e.SocketClose? || e.SocketIdle? || e.Destroy?
    ensures Grown(s.world.sends, Step(s, e).world.sends)
  {
    if Quiet(e) {
      QuietSame(s, e);
    } else {
      SettleAllAt(s.world.sends, s.queue, ConnectionLost);
    }
  }

  /** A promise keeps its first outcome, and a reply it got answers its own id. */
  lemma {:induction false} OutcomesStay(s: State, events: seq<Event>)
    ensures Grown(s.world.sends, Run(s, events).world.sends)
    decreases |events|
  {
    if events != [] {
      StepGrows(s, events[0]);
      OutcomesStay(Step(s, events[0]), events[1..]);
    }
  }

  lemma RepliesAnswerTheirOwnId(o: Options, events: seq<Event>, p: nat)
    requires var sends := Run(Created(o), events).world.sends;
             p < |sends| && sends[p].outcome.Some? && sends[p].outcome.value.Reply?
    ensures var sends := Run(Created(o), events).world.sends;
            sends[p].outcome.value.message.reqId == sends[p].artifact.id
  {
    RunInv(Created(o), events);
  }

  /** Let every timer from `p` on run out. */
  function AllTimers(p: nat, n: nat): seq<Event>
    decreases n - p
  {
    if p >= n then [] else [TimerFires(p)] + AllTimers(p + 1, n)
  }

  lemma {:induction false} TimersSettle(s: State, p: nat)
    requires Safe(s) && !s.states.isDestroyed && p <= |s.world.sends|
    requires forall r: nat :: r < p ==> !Open(s.world.sends, r)
    ensures var s' := Run(s, AllTimers(p, |s.world.sends|));
            |s'.world.sends| == |s.world.sends| && forall r: nat :: !Open(s'.world.sends, r)
    decreases |s.world.sends| - p
  {
    if p < |s.world.sends| {
      var s' := Step(s, TimerFires(p));
      StepSafe(s, TimerFires(p));
      TimersSettle(s', p + 1);
    }
  }

  /** From any state a run reaches before `destroy`, every promise settles when its timer runs out, if not before. */
  lemma EveryPromiseSettles(o: Options, events: seq<Event>)
    requires !Run(Created(o), events).states.isDestroyed
    ensures var s := Run(Created(o), events);
            forall p: nat :: !Open(Run(s, AllTimers(0, |s.world.sends|)).world.sends, p)
  {
    RunInv(Created(o), events);
    TimersSettle(Run(Created(o), events), 0);
  }

  /** The connection is up and nothing stands in the way of a write. */
  predicate Ready(s: State) {
    && s.socket.Some? && !SocketDestroyed(s) && !SocketEnded(s)
    && s.states.isConnected && !s.states.isConnecting && !s.states.isDestroyed
  }

  lemma SendWrites(s: State, artifact: Artifact, taken: bool)
    requires Ready(s) && !Refuses(s, artifact)
    ensures var s' := Step(Step(s, Send(artifact)), DispatchResumed(|s.world.calls|, taken));
            && s'.world.sends == s.world.sends + [Sent(artifact, None)]
            && s'.queue == Put(s.queue, artifact.id, Item(artifact, |s.world.sends|, |s.world.sends|))
            && s'.world.wire == s.world.wire + [artifact] && s'.world.verifying == s.world.verifying
            && s'.backpressureQueue == (if taken then s.backpressureQueue else s.backpressureQueue + [artifact])
            && (!taken ==> s'.states.isDraining)
            && Ready(s') && s'.options == s.options
  {
    var p, c := |s.world.sends|, |s.world.calls|;
    var sent := Step(s, Send(artifact));
    assert sent.world.calls[c] == SocketCall(Some(p), Back(s.socket));
    assert sent.world.sends[p] == Sent(artifact, None);
  }

  lemma ReplySettles(s: State, p: nat, message: Message, taken: bool)
    requires p < |s.world.sends| && s.world.sends[p].outcome.None? && message.reqId != ""
    requires Has(s.queue, message.reqId) && Get(s.queue, message.reqId).value.resolve == p == Get(s.queue, message.reqId).value.timeout
    ensures var s' := Step(Step(s, Line(Some(message))), Verified(|s.world.verifying|, ValidSignature, taken));
            && s.world.wire <= s'.world.wire && p !in s'.world.timers
            && |s'.world.sends| == |s.world.sends| && s'.world.sends[p] == Sent(s.world.sends[p].artifact, Some(Reply(message)))
  {
    var heard := Step(s, Line(Some(message)));
    assert heard.world.verifying[|s.world.verifying|] == message;
    PumpKeepsSettled(Answered(WithoutVerifying(heard, |s.world.verifying|), message, true), p, taken);
  }

  /** Pumping the next job only adds to the wire, and leaves a settled promise and its timer alone. */
  lemma PumpKeepsSettled(s: State, p: nat, taken: bool)
    requires p < |s.world.sends| && s.world.sends[p].outcome.Some? && p !in s.world.timers
    ensures var s' := PumpNextQueue(s, taken);
            && s.world.wire <= s'.world.wire && p !in s'.world.timers
            && |s'.world.sends| == |s.world.sends| && s'.world.sends[p] == s.world.sends[p]
  {
  }

  /**
   On a connection that is up, an admitted request is written at once, and a
   verified message with its id settles it with that reply and clears its timer.
   */
  lemma RequestIsAnswered(s: State, artifact: Artifact, message: Message, taken: bool, taken': bool)
    requires Ready(s) && !Refuses(s, artifact) && message.reqId == artifact.id != ""
    ensures var p := |s.world.sends|;
            var written := Step(Step(s, Send(artifact)), DispatchResumed(|s.world.calls|, taken));
            var s' := Step(Step(written, Line(Some(message))), Verified(|written.world.verifying|, ValidSignature, taken'));
            && s.world.wire + [artifact] <= s'.world.wire
            && |s'.world.sends| == p + 1 && s'.world.sends[p] == Sent(artifact, Some(Reply(message))) && p !in s'.world.timers
  {
    SendWrites(s, artifact, taken);
    ReplySettles(Step(Step(s, Send(artifact)), DispatchResumed(|s.world.calls|, taken)), |s.world.sends|, message, taken');
  }

  // ------------------------------------------------------------------------ destroy

  /** A `dispatch` of the promise is still waiting for its socket. */
  predicate Suspended(s: State, p: nat) {
    exists c :: 0 <= c < |s.world.calls| && s.world.calls[c].job == Some(p) && !s.world.calls[c].stage.Over?
  }

  /** Nothing is left that could settle the promise. */
  predicate Stranded(s: State, p: nat) {
    && s.states.isDestroyed && s.queue == []
    && Open(s.world.sends, p) && p !in s.world.timers && !Suspended(s, p)
  }

  /**
   `destroy` settles nothing: every promise with a queue entry loses its timer
   and, unless its `dispatch` is still waiting for a socket, is stranded.
   */
  lemma DestroyStrands(s: State, p: nat)
    requires Safe(s) && Resolves(s.queue, p)
    ensures Open(s.world.sends, p) && Open(ApplyDestroy(s).world.sends, p)
    ensures Stranded(ApplyDestroy(s), p) <==> !Suspended(s, p)
  {
    var i :| 0 <= i < |s.queue| && s.queue[i].val.resolve == p;
    assert OwnEntry(s.world.sends, s.queue[i]);
    assert forall j :: 0 <= j < |s.queue| ==> OwnEntry(s.world.sends, s.queue[j]);
    ClearAllAt(s.world.timers, s.queue, p);
    assert Suspended(ApplyDestroy(s), p) <==> Suspended(s, p) by {
      assert ApplyDestroy(s).world.calls == s.world.calls;
    }
  }

  lemma ResumeStranded(s: State, call: nat, taken: bool, p: nat)
    requires Stranded(s, p)
    ensures Stranded(Resume(s, call, taken), p)
  {
    if call < |s.world.calls| && s.world.calls[call].stage.Back? {
      var c, s' := s.world.calls[call], MoveCall(s, call, Over);
      MovedSuspends(s, call, Over, p);
      assert c.job != Some(p);
      assert Stranded(s', p);
    }
  }

  lemma MovedSuspends(s: State, call: nat, stage: Stage, p: nat)
    requires call < |s.world.calls| && !s.world.calls[call].stage.Over? && !Suspended(s, p)
    ensures !Suspended(MoveCall(s, call, stage), p) && s.world.calls[call].job != Some(p)
  {
    var calls' := MoveCall(s, call, stage).world.calls;
    assert forall c :: 0 <= c < |calls'| ==> calls'[c].job == s.world.calls[c].job;
  }

  lemma StepStranded(s: State, e: Event, p: nat)
    requires Stranded(s, p)
    ensures Stranded(Step(s, e), p)
  {
    match e
    case DispatchResumed(c, taken) => ResumeStranded(s, c, taken, p);
    case LookupFailed(c) => if StageIs(s, c, Lookup) { MovedSuspends(s, c, Back(None), p); }
    case LookupDone(c) => if StageIs(s, c, Lookup) { MovedSuspends(s, c, Handshake(|s.world.sockets|), p); }
    case Connected(c) =>
      if c < |s.world.calls| && s.world.calls[c].stage.Handshake? {
        MovedSuspends(s, c, Back(Some(s.world.calls[c].stage.sock)), p);
      }
    case Drain(writes) => FlushStranded(s, writes, p);
    case DrainResumed(writes) => FlushStranded(s, writes, p);
    case _ =>
  }

  lemma FlushStranded(s: State, writes: seq<bool>, p: nat)
    requires Stranded(s, p)
    ensures Stranded(Step(s, Drain(writes)), p) && Stranded(Step(s, DrainResumed(writes)), p)
  {
    FlushFrame(s.(states := s.states.(isDraining := true)), writes);
    FlushFrame(s.(world := s.world.(flushWaits := false)), writes);
  }

  /** A stranded promise never settles, whatever happens afterwards. */
  lemma {:induction false} StrandedForever(s: State, events: seq<Event>, p: nat)
    requires Stranded(s, p)
    ensures Stranded(Run(s, events), p) && Run(s, events).world.sends[p].outcome.None?
    decreases |events|
  {
    if events != [] {
      StepStranded(s, events[0], p);
      StrandedForever(Step(s, events[0]), events[1..], p);
    }
  }

  /** In every run, a queued request whose `dispatch` has come through is lost for good if the client is destroyed. */
  lemma DestroyNeverSettles(o: Options, before: seq<Event>, p: nat, after: seq<Event>)
    requires Resolves(Run(Created(o), before).queue, p) && !Suspended(Run(Created(o), before), p)
    ensures Open(Run(ApplyDestroy(Run(Created(o), before)), after).world.sends, p)
  {
    var s := Run(Created(o), before);
    RunInv(Created(o), before);
    DestroyStrands(s, p);
    StrandedForever(ApplyDestroy(s), after, p);
  }

  /** A suspended `dispatch` that resumes on a destroyed client settles its promise, unless a reconnect is under way. */
  lemma ResumeSettlesIff(s: State, call: nat, taken: bool, p: nat)
    requires s.states.isDestroyed && Open(s.world.sends, p) && call < |s.world.calls|
    requires s.world.calls[call].job == Some(p) && s.world.calls[call].stage.Back?
    ensures Open(Resume(s, call, taken).world.sends, p) <==>
              (s.world.calls[call].stage.socket.None? && s.states.isConnecting)
  {
    var s' := MoveCall(s, call, Over);
    var settled := ProcessResolveOnError(s', Item(s.world.sends[p].artifact, p, p), NoHost);
    SettleAllAt(settled.world.sends, settled.queue, NotEstablished);
  }

  // ------------------------------------------------------ connecting after `destroy`

  /** A call of `getSocket` still looks the host up. */
  predicate LookingUp(s: State) {
    exists c :: 0 <= c < |s.world.calls| && s.world.calls[c].stage == Lookup
  }

  /** Destroyed, with no reconnect pending and no lookup under way. */
  predicate Resting(s: State) {
    s.states.isDestroyed && s.world.retryTimers == 0 && !LookingUp(s)
  }

  predicate NoUpdate(events: seq<Event>) {
    forall i :: 0 <= i < |events| ==> !events[i].Update?
  }

  /** Some run without `update` makes another socket. */
  ghost predicate CanMakeSocket(s: State) {
    exists events :: NoUpdate(events) && |Run(s, events).world.sockets| > |s.world.sockets|
  }

  predicate SameConnecting(s: State, s': State) {
    && s'.states.isDestroyed == s.states.isDestroyed && s'.retries == s.retries && s'.options == s.options
    && s'.world.retryTimers == s.world.retryTimers && |s'.world.sockets| == |s.world.sockets|
    && |s'.world.calls| == |s.world.calls|
    && forall c :: 0 <= c < |s.world.calls| && s'.world.calls[c].stage == Lookup ==> s.world.calls[c].stage == Lookup
  }

  lemma SendConnecting(s: State, item: Item, taken: bool)
    ensures SameConnecting(s, SendArtifact(s, item, taken)) && SendArtifact(s, item, taken).world.calls == s.world.calls
  {
  }

  lemma ResumeConnecting(s: State, call: nat, taken: bool)
    ensures SameConnecting(s, Resume(s, call, taken))
  {
    if call < |s.world.calls| && s.world.calls[call].stage.Back? {
      var c, s' := s.world.calls[call], MoveCall(s, call, Over);
      if c.job.Some? && c.job.value < |s.world.sends| {
        SendConnecting(s', Item(s'.world.sends[c.job.value].artifact, c.job.value, c.job.value), taken);
      }
    }
  }

  lemma VerifiedConnecting(s: State, i: nat, verdict: Verdict, taken: bool)
    ensures SameConnecting(s, TakeVerified(s, i, verdict, taken))
  {
    if i < |s.world.verifying| {
      var s', message := WithoutVerifying(s, i), s.world.verifying[i];
      if !verdict.VerifyThrows? && message.reqId != "" && Has(s'.queue, message.reqId) {
        var answered := Answered(s', message, verdict.ValidSignature?);
        if answered.queue != [] {
          SendConnecting(answered, answered.queue[0].val, taken);
        }
      }
    }
  }

  lemma {:induction false} FlushConnecting(s: State, writes: seq<bool>)
    ensures SameConnecting(s, FlushLoop(s, writes))
    decreases |s.backpressureQueue|
  {
    if s.backpressureQueue != [] && s.socket.Some? && !SocketDestroyed(s) && !SocketEnded(s) && writes != [] && writes[0] {
      FlushConnecting(
        s.(backpressureQueue := s.backpressureQueue[1..], world := s.world.(wire := s.world.wire + [s.backpressureQueue[0]])),
        writes[1..]);
    }
  }

  lemma SocketConnecting(s: State, e: Event)
    requires s.states.isDestroyed && (e.SocketError? || e.SocketClose? || e.SocketIdle? || e.Destroy?)
    ensures SameConnecting(s, Step(s, e))
  {
  }

  /** Of a resting client, only the peer's end starts anything, and only while retries are left. */
  lemma RestingStep(s: State, e: Event)
    requires Resting(s) && !e.Update?
    ensures |Step(s, e).world.sockets| == |s.world.sockets| && Step(s, e).options == s.options
    ensures !e.SocketEnd? ==> Resting(Step(s, e)) && Step(s, e).retries == s.retries
    ensures e.SocketEnd? && s.retries >= MaxRetries(s.options) ==> Resting(Step(s, e)) && Step(s, e).retries == s.retries
  {
    match e
    case DispatchResumed(c, taken) => ResumeConnecting(s, c, taken);
    case Verified(i, verdict, taken) => VerifiedConnecting(s, i, verdict, taken);
    case Drain(writes) => FlushConnecting(s.(states := s.states.(isDraining := true)), writes);
    case DrainResumed(writes) => FlushConnecting(s.(world := s.world.(flushWaits := false)), writes);
    case SocketEnd => RestingEnd(s);
    case _ => if e.SocketError? || e.SocketClose? || e.SocketIdle? || e.Destroy? { SocketConnecting(s, e); } else { RestingQuiet(s, e); }
  }

  lemma RestingEnd(s: State)
    requires Resting(s)
    ensures |OnEnd(s).world.sockets| == |s.world.sockets| && OnEnd(s).options == s.options
    ensures s.retries >= MaxRetries(s.options) ==> Resting(OnEnd(s)) && OnEnd(s).retries == s.retries
  {
  }

  lemma RestingQuiet(s: State, e: Event)
    requires Resting(s) && !e.Update? && (Quiet(e) || e.Send? || e.TimerFires?)
    ensures |Step(s, e).world.sockets| == |s.world.sockets| && Step(s, e).options == s.options
    ensures Resting(Step(s, e)) && Step(s, e).retries == s.retries
  {
  }

  lemma {:induction false} RestingForever(s: State, events: seq<Event>)
    requires Resting(s) && NoUpdate(events)
    requires s.retries >= MaxRetries(s.options) || forall i :: 0 <= i < |events| ==> !events[i].SocketEnd?
    ensures Resting(Run(s, events)) && |Run(s, events).world.sockets| == |s.world.sockets|
    decreases |events|
  {
    if events != [] {
      RestingStep(s, events[0]);
      assert NoUpdate(events[1..]);
      RestingForever(Step(s, events[0]), events[1..]);
    }
  }

  /** A pending reconnect that fires on a destroyed client leaves it destroyed and connected, on a new live socket. */
  lemma ReconnectAfterDestroy(s: State)
    requires s.states.isDestroyed && s.world.retryTimers > 0
    ensures var c := |s.world.calls|;
            var s' := Step(Step(Step(Step(s, SocketClose), RetryFires), LookupDone(c)), Connected(c));
            && s'.states.isDestroyed && s'.states.isConnected
            && s'.socket == Some(|s.world.sockets|) && |s'.world.sockets| == |s.world.sockets| + 1 && !SocketDestroyed(s')
  {
    var c, closed := |s.world.calls|, Step(s, SocketClose);
    assert closed.world.calls == s.world.calls && closed.world.sockets == s.world.sockets && closed.socket.None?;
    var fired := Step(closed, RetryFires);
    assert fired.world.calls == s.world.calls + [SocketCall(None, Lookup)] && fired.world.calls[c].stage == Lookup;
    var found := Step(fired, LookupDone(c));
    assert found.world.calls[c].stage == Handshake(|s.world.sockets|);
  }

  lemma RunOfThree(s: State, a: Event, b: Event, c: Event)
    ensures Run(s, [a, b, c]) == Step(Step(Step(s, a), b), c)
  {
    assert [a, b, c][1..] == [b, c] && [b, c][1..] == [c] && [c][1..] == [];
    assert Run(s, [a, b, c]) == Run(Step(s, a), [b, c]);
    assert Run(Step(s, a), [b, c]) == Run(Step(Step(s, a), b), [c]);
  }

  lemma RetryMakesSocket(s: State)
    requires s.states.isDestroyed && s.world.retryTimers > 0
    ensures var events := [SocketClose, RetryFires, LookupDone(|s.world.calls|)];
            NoUpdate(events) && |Run(s, events).world.sockets| > |s.world.sockets|
  {
    ReconnectAfterDestroy(s);
    RunOfThree(s, SocketClose, RetryFires, LookupDone(|s.world.calls|));
  }

  /**
   A destroyed client makes another socket in some run, options left alone, if
   and only if a reconnect is pending, a lookup is under way, or retries are
   left, which the peer's end then spends.
   */
  lemma SocketAfterDestroyIff(s: State)
    requires s.states.isDestroyed
    ensures CanMakeSocket(s) <==> s.world.retryTimers > 0 || LookingUp(s) || s.retries < MaxRetries(s.options)
  {
    if s.world.retryTimers > 0 {
      RetryMakesSocket(s);
    } else if LookingUp(s) {
      var c :| 0 <= c < |s.world.calls| && s.world.calls[c].stage == Lookup;
      assert Run(s, [LookupDone(c)]) == Step(s, LookupDone(c)) by { assert [LookupDone(c)][1..] == []; }
      assert NoUpdate([LookupDone(c)]) && |Run(s, [LookupDone(c)]).world.sockets| > |s.world.sockets|;
    } else if s.retries < MaxRetries(s.options) {
      var ended := Step(s, SocketEnd);
      RetryMakesSocket(ended);
      var rest := [SocketClose, RetryFires, LookupDone(|ended.world.calls|)];
      assert ([SocketEnd] + rest)[1..] == rest && Run(s, [SocketEnd] + rest) == Run(ended, rest);
      assert NoUpdate([SocketEnd] + rest);
    } else if CanMakeSocket(s) {
      var events :| NoUpdate(events) && |Run(s, events).world.sockets| > |s.world.sockets|;
      RestingForever(s, events);
      assert false;
    }
  }

  // --------------------------------------------------------------------- reconnects

  /** One more reconnect, and the requests keep waiting. */
  predicate Reconnects(s: State, s': State) {
    && s'.world.scheduled == s.world.scheduled + 1 && s'.world.retryTimers == s.world.retryTimers + 1
    && SameRequests(s, s')
  }

  /** No reconnect, and every queued promise that is open is settled with the error. */
  ghost predicate SettlesAll(s: State, s': State) {
    && s'.world.scheduled == s.world.scheduled && s'.queue == [] && s'.socket.None?
    && |s'.world.sends| == |s.world.sends|
    && forall p: nat :: Open(s.world.sends, p) ==>
         s'.world.sends[p].outcome == if Resolves(s.queue, p) then Some(ConnectionLost) else None
  }

  /** Neither: disconnected, and the requests are left to their timeouts. */
  predicate LeavesAll(s: State, s': State) {
    s'.world == s.world && s'.queue == s.queue && !s'.states.isConnected && !s'.states.isConnecting
  }

  /**
   After a socket error the client reconnects exactly when it announces so, and
   settles everything otherwise. After the peer's end it settles everything
   exactly when it announces a reconnect; when it does not, it reconnects as
   long as retries are left, and then does neither.
   */
  lemma ErrorAndEndDiffer(s: State, nonRetryable: bool)
    ensures if WillRetry(s, nonRetryable) then Reconnects(s, OnSocketError(s, nonRetryable))
            else SettlesAll(s, OnSocketError(s, nonRetryable))
    ensures if WillRetry(s, false) then SettlesAll(s, OnEnd(s))
            else if s.retries < MaxRetries(s.options) then Reconnects(s, OnEnd(s))
            else LeavesAll(s, OnEnd(s))
  {
    SettleAllAt(s.world.sends, s.queue, ConnectionLost);
  }

  // --------------------------------------------------- requests made while connecting

  /** No `dispatch` of the promise waits for a socket, or ever waited. */
  predicate Undispatched(s: State, p: nat) {
    p < |s.world.sends| && forall c :: 0 <= c < |s.world.calls| ==> s.world.calls[c].job != Some(p)
  }

  predicate JobsKnown(s: State) {
    forall c :: 0 <= c < |s.world.calls| && s.world.calls[c].job.Some? ==> s.world.calls[c].job.value < |s.world.sends|
  }

  /** The calls of `getSocket` an event leaves: those there were, and one for a promise it makes or for a reconnect. */
  predicate CallsGrown(s: State, s': State) {
    && |s.world.calls| <= |s'.world.calls| && |s.world.sends| <= |s'.world.sends|
    && (forall c :: 0 <= c < |s.world.calls| ==> s'.world.calls[c].job == s.world.calls[c].job)
    && forall c :: |s.world.calls| <= c < |s'.world.calls| && s'.world.calls[c].job.Some? ==>
         |s.world.sends| <= s'.world.calls[c].job.value < |s'.world.sends|
  }

  lemma StepCalls(s: State, e: Event)
    ensures CallsGrown(s, Step(s, e))
  {
    StepGrows(s, e);
    match e
    case DispatchResumed(c, taken) => ResumeCalls(s, c, taken);
    case Verified(i, verdict, taken) => VerifiedCalls(s, i, verdict, taken);
    case Drain(writes) => FlushFrame(s.(states := s.states.(isDraining := true)), writes);
    case DrainResumed(writes) => FlushFrame(s.(world := s.world.(flushWaits := false)), writes);
    case _ => if Quiet(e) { QuietCalls(s, e); } else { OtherCalls(s, e); }
  }

  lemma QuietCalls(s: State, e: Event)
    requires Quiet(e) && |s.world.sends| <= |Step(s, e).world.sends|
    ensures CallsGrown(s, Step(s, e))
  {
  }

  lemma OtherCalls(s: State, e: Event)
    requires e.Send? || e.TimerFires? || e.SocketError? || e.SocketEnd? || e.SocketClose? || e.SocketIdle? || e.Destroy?
    requires |s.world.sends| <= |Step(s, e).world.sends|
    ensures CallsGrown(s, Step(s, e))
  {
  }

  lemma ResumeCalls(s: State, call: nat, taken: bool)
    ensures var calls' := Resume(s, call, taken).world.calls;
            |calls'| == |s.world.calls| && forall c :: 0 <= c < |calls'| ==> calls'[c].job == s.world.calls[c].job
  {
    if call < |s.world.calls| && s.world.calls[call].stage.Back? {
      var c, s' := s.world.calls[call], MoveCall(s, call, Over);
      if c.job.Some? && c.job.value < |s.world.sends| {
        SendCalls(s', Item(s'.world.sends[c.job.value].artifact, c.job.value, c.job.value), taken);
      }
    }
  }

  lemma SendCalls(s: State, item: Item, taken: bool)
    ensures SendArtifact(s, item, taken).world.calls == s.world.calls
  {
  }

  lemma VerifiedCalls(s: State, i: nat, verdict: Verdict, taken: bool)
    ensures TakeVerified(s, i, verdict, taken).world.calls == s.world.calls
  {
  }

  lemma {:induction false} RunCalls(s: State, events: seq<Event>)
    requires JobsKnown(s)
    ensures JobsKnown(Run(s, events)) && forall p :: Undispatched(s, p) ==> Undispatched(Run(s, events), p)
    decreases |events|
  {
    if events != [] {
      var s' := Step(s, events[0]);
      StepCalls(s, events[0]);
      assert JobsKnown(s');
      RunCalls(s', events[1..]);
      forall p | Undispatched(s, p) ensures Undispatched(Run(s, events), p) {
        assert Undispatched(s', p);
      }
    }
  }

  /**
   A request admitted while the client is connecting is queued without a
   `dispatch` of its own, in every run before and after it: no connection that
   comes up writes it.
   */
  lemma MadeWhileConnecting(o: Options, before: seq<Event>, artifact: Artifact, after: seq<Event>)
    requires var s := Run(Created(o), before); s.states.isConnecting && !Refuses(s, artifact)
    ensures var s := Run(Created(o), before);
            var sent := Step(s, Send(artifact));
            var p := |s.world.sends|;
            && Has(sent.queue, artifact.id) && Get(sent.queue, artifact.id).value.resolve == p && sent.world.wire == s.world.wire
            && Undispatched(sent, p) && Undispatched(Run(sent, after), p)
  {
    var s := Run(Created(o), before);
    RunCalls(Created(o), before);
    StepCalls(s, Send(artifact));
    RunCalls(Step(s, Send(artifact)), after);
  }

  /** Only a verified message, through the pump, or another promise's `dispatch` makes the client write. */
  lemma WhoWrites(s: State, e: Event, p: nat)
    requires Pressed(s) && Undispatched(s, p)
    ensures Step(s, e).world.wire != s.world.wire ==>
              || e.Verified?
              || (e.DispatchResumed? && e.call < |s.world.calls| && s.world.calls[e.call].job.Some? && s.world.calls[e.call].job != Some(p))
  {
    match e
    case Drain(writes) => FlushIsNoop(s, writes);
    case DrainResumed(writes) => FlushIsNoop(s, writes);
    case _ =>
  }

  // ------------------------------------------------------------------ writing again

  /**
   When a message answers a request, the client writes the request then first
   in the queue if and only if there is one, it is valid and the connection
   takes writes; whether it was written before plays no part.
   */
  lemma ReplyWritesIff(s: State, message: Message, verdict: Verdict, taken: bool)
    requires Pressed(s) && !verdict.VerifyThrows? && message.reqId != "" && Has(s.queue, message.reqId)
    ensures var rest := Remove(s.queue, message.reqId);
            OnVerified(s, message, verdict, taken).world.wire ==
              if rest != [] && Ready(s) && rest[0].val.artifact.valid then s.world.wire + [rest[0].val.artifact] else s.world.wire
  {
  }

  /** Two requests sent one after the other: the answer to the second makes the client write the first again. */
  lemma FirstIsWrittenTwice(s: State, a: Artifact, b: Artifact, message: Message, taken: bool)
    requires Ready(s) && Pressed(s) && s.queue == [] && MaxQueue(s.options) >= 2 && a.valid && b.valid
    requires a.id != b.id && message.reqId == b.id != ""
    ensures var one := Step(Step(s, Send(a)), DispatchResumed(|s.world.calls|, taken));
            var two := Step(Step(one, Send(b)), DispatchResumed(|one.world.calls|, taken));
            OnVerified(two, message, ValidSignature, taken).world.wire == s.world.wire + [a, b, a]
  {
    var one := Step(Step(s, Send(a)), DispatchResumed(|s.world.calls|, taken));
    SendWrites(s, a, taken);
    var two := Step(Step(one, Send(b)), DispatchResumed(|one.world.calls|, taken));
    SendWrites(one, b, taken);
    StepPressed(s, Send(a));
    StepPressed(Step(s, Send(a)), DispatchResumed(|s.world.calls|, taken));
    StepPressed(one, Send(b));
    StepPressed(Step(one, Send(b)), DispatchResumed(|one.world.calls|, taken));
    var first := Entry(a.id, Item(a, |s.world.sends|, |s.world.sends|));
    var second := Entry(b.id, Item(b, |one.world.sends|, |one.world.sends|));
    assert one.queue == [first] && two.queue == [first, second];
    assert two.queue[1..] == [second] && Remove([second], b.id) == [];
    assert Remove(two.queue, b.id) == [first];
    ReplyWritesIff(two, message, ValidSignature, taken);
  }
}
