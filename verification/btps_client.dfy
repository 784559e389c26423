/** The client object: each method updates the fields the way `Client` says of its event. */
module ClientObject {
  import opened Wrappers
  import opened OrderedMap
  import C = Client

  class BtpsClient {
    var socket: Option<nat>
    var states: C.ConnectionStates
    var retries: nat
    var options: C.Options
    var queue: OMap<string, C.Item>
    var backpressureQueue: seq<C.Artifact>
    var world: C.World

    function Model(): C.State
      reads this
    {
      C.State(socket, states, retries, options, queue, backpressureQueue, world)
    }

    constructor (options: C.Options)
      ensures Model() == C.Created(options)
    {
      socket := None;
      states := C.ConnectionStates(false, false, false, false, true);
      retries := 0;
      this.options := options;
      queue := [];
      backpressureQueue := [];
      world := C.World([], {}, [], [], [], false, 0, 0, []);
    }

    // ------------------------------------------------------ promises and timers

    method Resolve(promise: nat, outcome: C.Outcome)
      modifies this`world
      ensures world == old(world).(sends := C.Settle(old(world).sends, promise, outcome))
    {
      if promise < |world.sends| && world.sends[promise].outcome.None? {
        world := world.(sends := world.sends[promise := world.sends[promise].(outcome := Some(outcome))]);
      }
    }

    method ClearTimeout(timer: nat)
      modifies this`world
      ensures world == old(world).(timers := old(world).timers - {timer})
    {
      world := world.(timers := world.timers - {timer});
    }

    // ---------------------------------------------------------------- operations

    method GetRetryInfo(nonRetryable: bool) returns (willRetry: bool)
      ensures willRetry <==>
                && retries < (if options.maxRetries.Some? then options.maxRetries.value else 5)
                && !states.isDestroyed && !nonRetryable && states.shouldRetry
    {
      willRetry := retries < C.MaxRetries(options);
      if states.isDestroyed || nonRetryable || !states.shouldRetry {
        willRetry := false;
      }
    }

    method RetryConnect()
      modifies this
      ensures Model() == C.RetryConnect(old(Model()))
    {
      if retries >= C.MaxRetries(options) {
        return;
      }
      retries := retries + 1;
      world := world.(retryTimers := world.retryTimers + 1, scheduled := world.scheduled + 1);
    }

    method CleanupQueue(error: Option<C.Outcome>)
      modifies this
      ensures Model() == C.CleanupQueue(old(Model()), error)
    {
      if queue == [] {
        return;
      }
      var i := 0;
      while i < |queue|
        invariant 0 <= i <= |queue|
        invariant Model() == old(Model()).(world := world)
        invariant world == old(world).(timers := world.timers, sends := world.sends)
        invariant C.ClearAll(world.timers, queue[i..]) == C.ClearAll(old(world).timers, old(queue))
        invariant if error.Some? then C.SettleAll(world.sends, queue[i..], error.value) == C.SettleAll(old(world).sends, old(queue), error.value)
                  else world.sends == old(world).sends
      {
        ghost var rest := queue[i..];
        assert rest[0] == queue[i] && rest[1..] == queue[i + 1..];
        ClearTimeout(queue[i].val.timeout);
        if error.Some? {
          Resolve(queue[i].val.resolve, error.value);
        }
        i := i + 1;
      }
      queue := [];
    }

    method ResolveError(error: C.Outcome)
      modifies this
      ensures Model() == C.ResolveError(old(Model()), error)
    {
      states := states.(isConnected := false);
      states := states.(isConnecting := false);
      socket := None;
      CleanupQueue(Some(error));
    }

    method ProcessResolveOnError(item: C.Item, error: C.Outcome)
      modifies this
      ensures Model() == C.ProcessResolveOnError(old(Model()), item, error)
    {
      Resolve(item.resolve, error);
      ClearTimeout(item.timeout);
      if Has(queue, item.artifact.id) {
        queue := Remove(queue, item.artifact.id);
      }
    }

    method SendArtifact(item: C.Item, taken: bool)
      modifies this
      ensures Model() == C.SendArtifact(old(Model()), item, taken)
    {
      if !item.artifact.valid {
        ProcessResolveOnError(item, C.InvalidArtifact);
        return;
      }
      if C.SocketDestroyed(Model()) || C.SocketEnded(Model()) || !states.isConnected || states.isDestroyed || states.isConnecting {
        ProcessResolveOnError(item, C.ConnectionClosed);
        return;
      }
      var accepted := false;
      if socket.Some? {
        world := world.(wire := world.wire + [item.artifact]);
        accepted := taken;
      }
      if !accepted {
        backpressureQueue := backpressureQueue + [item.artifact];
        states := states.(isDraining := true);
      }
    }

    method StartGetSocket(job: Option<nat>)
      modifies this
      ensures Model() == C.StartGetSocket(old(Model()), job)
    {
      if socket.Some? && !C.SocketDestroyed(Model()) {
        world := world.(calls := world.calls + [C.SocketCall(job, C.Back(socket))]);
        return;
      }
      states := states.(isConnecting := true);
      world := world.(calls := world.calls + [C.SocketCall(job, C.Lookup)]);
    }

    /** `send`: whether the request was refused at once, or goes on to `dispatch`. */
    method Send(artifact: C.Artifact) returns (refused: bool)
      modifies this
      ensures refused == C.Refuses(old(Model()), artifact)
      ensures Model() == C.Step(old(Model()), C.Send(artifact))
    {
      if states.isDestroyed || !artifact.valid {
        return true;
      }
      if |queue| < C.MaxQueue(options) {
        Dispatch(artifact);
        return false;
      }
      return true;
    }

    method Dispatch(artifact: C.Artifact)
      modifies this
      ensures Model() == C.StartDispatch(old(Model()), artifact)
    {
      var promise := |world.sends|;
      world := world.(sends := world.sends + [C.Sent(artifact, None)]);
      world := world.(timers := world.timers + {promise});
      queue := Put(queue, artifact.id, C.Item(artifact, promise, promise));
      if states.isConnecting {
        return;
      }
      StartGetSocket(Some(promise));
    }

    method DispatchResumed(call: nat, taken: bool)
      modifies this
      ensures Model() == C.Step(old(Model()), C.DispatchResumed(call, taken))
    {
      if call >= |world.calls| || !world.calls[call].stage.Back? {
        return;
      }
      var c := world.calls[call];
      world := world.(calls := world.calls[call := c.(stage := C.Over)]);
      if c.job.None? || c.job.value >= |world.sends| {
        return;
      }
      var promise := c.job.value;
      var item := C.Item(world.sends[promise].artifact, promise, promise);
      if c.stage.socket.None? && !states.isConnecting {
        queue := Remove(queue, item.artifact.id);
        ClearTimeout(promise);
        Resolve(promise, C.NoHost);
        CleanupQueue(Some(C.NotEstablished));
        return;
      }
      if c.stage.socket.Some? {
        SendArtifact(item, taken);
      }
    }

    method LookupFailed(call: nat)
      modifies this
      ensures Model() == C.Step(old(Model()), C.LookupFailed(call))
    {
      if C.StageIs(Model(), call, C.Lookup) {
        states := states.(isConnecting := false);
        world := world.(calls := world.calls[call := world.calls[call].(stage := C.Back(None))]);
      }
    }

    method LookupDone(call: nat)
      modifies this
      ensures Model() == C.Step(old(Model()), C.LookupDone(call))
    {
      if C.StageIs(Model(), call, C.Lookup) {
        var sock := |world.sockets|;
        world := world.(sockets := world.sockets + [C.SocketFlags(false, false)]);
        world := world.(calls := world.calls[call := world.calls[call].(stage := C.Handshake(sock))]);
      }
    }

    method Connected(call: nat)
      modifies this
      ensures Model() == C.Step(old(Model()), C.Connected(call))
    {
      if call < |world.calls| && world.calls[call].stage.Handshake? {
        var sock := world.calls[call].stage.sock;
        states := states.(isConnected := true);
        states := states.(isConnecting := false);
        socket := Some(sock);
        world := world.(calls := world.calls[call := world.calls[call].(stage := C.Back(Some(sock)))]);
      }
    }

    method OnSocketError(nonRetryable: bool)
      modifies this
      ensures Model() == C.Step(old(Model()), C.SocketError(nonRetryable))
    {
      var willRetry := GetRetryInfo(nonRetryable);
      states := states.(isConnecting := false);
      states := states.(isConnected := false);
      if willRetry {
        RetryConnect();
      } else {
        ResolveError(C.ConnectionLost);
      }
    }

    method OnSocketEnd()
      modifies this
      ensures Model() == C.Step(old(Model()), C.SocketEnd)
    {
      states := states.(isConnected := false);
      states := states.(isConnecting := false);
      var willRetry := GetRetryInfo(false);
      if !willRetry {
        RetryConnect();
      } else {
        ResolveError(C.ConnectionLost);
      }
    }

    method OnSocketClose()
      modifies this
      ensures Model() == C.Step(old(Model()), C.SocketClose)
    {
      ResolveError(C.ConnectionLost);
    }

    method OnConnectionTimeout(sock: nat)
      modifies this
      ensures Model() == C.Step(old(Model()), C.SocketIdle(sock))
    {
      world := world.(sockets := C.DestroySocket(world.sockets, Some(sock)));
      Destroy();
    }

    method OnData(parsed: Option<C.Message>)
      modifies this
      ensures Model() == C.Step(old(Model()), C.Line(parsed))
    {
      states := states.(shouldRetry := false);
      if parsed.Some? {
        world := world.(verifying := world.verifying + [parsed.value]);
      }
    }

    method OnVerified(index: nat, verdict: C.Verdict, taken: bool)
      modifies this
      ensures Model() == C.Step(old(Model()), C.Verified(index, verdict, taken))
    {
      if index >= |world.verifying| {
        return;
      }
      var message := world.verifying[index];
      world := world.(verifying := world.verifying[..index] + world.verifying[index + 1..]);
      if verdict.VerifyThrows? {
        states := states.(shouldRetry := false);
        return;
      }
      if message.reqId != "" && Has(queue, message.reqId) {
        var item := Get(queue, message.reqId).value;
        queue := Remove(queue, message.reqId);
        ClearTimeout(item.timeout);
        Resolve(item.resolve, if verdict.ValidSignature? then C.Reply(message) else C.BadSignature(message));
        PumpNextQueue(taken);
      }
    }

    method PumpNextQueue(taken: bool)
      modifies this
      ensures Model() == C.PumpNextQueue(old(Model()), taken)
    {
      if queue != [] && states.isConnected {
        SendArtifact(queue[0].val, taken);
      }
    }

    method OnTimeout(promise: nat)
      modifies this
      ensures Model() == C.Step(old(Model()), C.TimerFires(promise))
    {
      if promise !in world.timers || promise >= |world.sends| {
        return;
      }
      var id := world.sends[promise].artifact.id;
      if Has(queue, id) {
        queue := Remove(queue, id);
      }
      Resolve(promise, C.TimedOut);
      ClearTimeout(promise);
    }

    method OnRetryTimer()
      modifies this
      ensures Model() == C.Step(old(Model()), C.RetryFires)
    {
      if world.retryTimers == 0 {
        return;
      }
      world := world.(retryTimers := world.retryTimers - 1);
      if (socket.Some? && !C.SocketDestroyed(Model())) || states.isConnecting {
        return;
      }
      StartGetSocket(None);
    }

    /** The loop of `flushBackpressure`, up to the first `write` that returns false. */
    method FlushLoop(writes: seq<bool>)
      modifies this
      ensures Model() == C.FlushLoop(old(Model()), writes)
    {
      var i := 0;
      while backpressureQueue != [] && socket.Some? && !C.SocketDestroyed(Model()) && !C.SocketEnded(Model())
        invariant 0 <= i <= |writes|
        invariant C.FlushLoop(Model(), writes[i..]) == C.FlushLoop(old(Model()), writes)
        decreases |backpressureQueue|
      {
        ghost var rest := writes[i..];
        var chunk := backpressureQueue[0];
        backpressureQueue := backpressureQueue[1..];
        world := world.(wire := world.wire + [chunk]);
        if i == |writes| || !writes[i] {
          world := world.(flushWaits := true);
          return;
        }
        assert rest[0] == writes[i] && rest[1..] == writes[i + 1..];
        i := i + 1;
      }
      states := states.(isDraining := false);
    }

    method FlushBackpressure(writes: seq<bool>)
      modifies this
      ensures Model() == C.Step(old(Model()), C.Drain(writes))
    {
      if states.isDraining {
        return;
      }
      states := states.(isDraining := true);
      FlushLoop(writes);
    }

    method Update(changed: C.Options)
      modifies this`options
      ensures Model() == C.Step(old(Model()), C.Update(changed))
    {
      if changed.maxRetries.Some? {
        options := options.(maxRetries := changed.maxRetries);
      }
      if changed.maxQueue.Some? {
        options := options.(maxQueue := changed.maxQueue);
      }
    }

    method End()
      modifies this
      ensures Model() == C.Step(old(Model()), C.End)
    {
      states := states.(isConnecting := false);
      states := states.(isConnected := false);
      world := world.(sockets := C.EndSocket(world.sockets, socket));
      socket := None;
    }

    method Destroy()
      modifies this
      ensures Model() == C.Step(old(Model()), C.Destroy)
    {
      states := states.(isConnecting := false);
      states := states.(isConnected := false);
      states := states.(isDestroyed := true);
      states := states.(shouldRetry := false);
      states := states.(isDraining := false);
      backpressureQueue := [];
      world := world.(sockets := C.DestroySocket(world.sockets, socket));
      CleanupQueue(None);
    }
  }
}
