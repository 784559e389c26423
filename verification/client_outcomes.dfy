/**
 What a caller of `send` can conclude from an outcome, and what each event does
 to a request, told from the state before it and the event alone.
 */
module ClientOutcomes {
  import opened Wrappers
  import opened OrderedMap
  import opened Client

  // ------------------------------------------------------------- every outcome's cause

  /** The event takes this message off the verification queue with this verdict. */
  predicate Takes(s: State, e: Event, message: Message, verdict: Verdict) {
    e.Verified? && e.verdict == verdict && e.index < |s.world.verifying| && s.world.verifying[e.index] == message
  }

  /** The event resumes a `dispatch` whose `getSocket` came back like this. */
  predicate Resumes(s: State, e: Event, p: nat, socket: bool) {
    && e.DispatchResumed? && e.call < |s.world.calls| && s.world.calls[e.call].job == Some(p)
    && s.world.calls[e.call].stage.Back? && s.world.calls[e.call].stage.socket.Some? == socket
  }

  /** The connection does not take writes. */
  predicate Unwritable(s: State) {
    || (s.socket.Some? && s.socket.value < |s.world.sockets|
        && (s.world.sockets[s.socket.value].destroyed || s.world.sockets[s.socket.value].ended))
    || !s.states.isConnected || s.states.isDestroyed || s.states.isConnecting
  }

  /** What must have happened for promise `p` to get this outcome at this event. */
  ghost predicate Causes(s: State, e: Event, p: nat, o: Outcome)
    requires p < |s.world.sends|
  {
    match o
    case Reply(m) => Takes(s, e, m, ValidSignature) && m.reqId == s.world.sends[p].artifact.id
    case BadSignature(m) => Takes(s, e, m, InvalidSignature) && m.reqId == s.world.sends[p].artifact.id
    case TimedOut => e == TimerFires(p) && p in s.world.timers
    case ConnectionLost => e.SocketError? || e.SocketEnd? || e.SocketClose?
    case NoHost => Resumes(s, e, p, false) && !s.states.isConnecting
    case NotEstablished => e.DispatchResumed? && !s.states.isConnecting && exists q :: q != p && Resumes(s, e, q, false)
    case InvalidArtifact => !s.world.sends[p].artifact.valid && (e.Verified? || Resumes(s, e, p, true))
    case ConnectionClosed => s.world.sends[p].artifact.valid && Unwritable(s) && (e.Verified? || Resumes(s, e, p, true))
  }

  /** A promise with its outcome, as far as this event goes. */
  ghost predicate Explained(s: State, e: Event, s': State, p: nat) {
    Open(s.world.sends, p) && p < |s'.world.sends| && s'.world.sends[p].outcome.Some? ==>
      Causes(s, e, p, s'.world.sends[p].outcome.value)
  }

  lemma SendArtifactOutcome(s: State, item: Item, taken: bool, p: nat)
    requires Safe(s) && item.resolve < |s.world.sends| && item.artifact == s.world.sends[item.resolve].artifact && p < |s.world.sends|
    ensures var sends' := SendArtifact(s, item, taken).world.sends;
            && |sends'| == |s.world.sends|
            && sends'[p].outcome ==
                 if item.resolve != p || s.world.sends[p].outcome.Some? then s.world.sends[p].outcome
                 else if !item.artifact.valid then Some(InvalidArtifact)
                 else if Unwritable(s) then Some(ConnectionClosed)
                 else None
  {
  }

  lemma AnsweredKeeps(s: State, m: Message, valid: bool)
    requires Safe(s) && Has(s.queue, m.reqId)
    ensures var q := Get(s.queue, m.reqId).value.resolve;
            && Open(s.world.sends, q) && s.world.sends[q].artifact.id == m.reqId
            && Safe(Answered(s, m, valid))
            && Answered(s, m, valid).world.sends ==
                 s.world.sends[q := Sent(s.world.sends[q].artifact, Some(if valid then Reply(m) else BadSignature(m)))]
  {
    EntriesGet(s.world.sends, s.queue, m.reqId);
    SettleOneKeeps(s, Get(s.queue, m.reqId).value.resolve, if valid then Reply(m) else BadSignature(m));
  }

  lemma VerifiedExplained(s: State, e: Event, p: nat)
    requires Safe(s) && e.Verified? && Open(s.world.sends, p)
    ensures Explained(s, e, Step(s, e), p)
  {
    if e.index < |s.world.verifying| {
      var s1, m := WithoutVerifying(s, e.index), s.world.verifying[e.index];
      SafeFrame(s, s1);
      if !e.verdict.VerifyThrows? && m.reqId != "" && Has(s1.queue, m.reqId) {
        AnsweredKeeps(s1, m, e.verdict.ValidSignature?);
        PumpExplained(s, e, Answered(s1, m, e.verdict.ValidSignature?), p);
      }
    }
  }

  lemma PumpExplained(s: State, e: Event, answered: State, p: nat)
    requires Safe(s) && e.Verified? && Open(s.world.sends, p) && |answered.world.sends| == |s.world.sends|
    requires Safe(answered) && answered.world.sends[p].artifact == s.world.sends[p].artifact
    requires answered.socket == s.socket && answered.states == s.states && answered.world.sockets == s.world.sockets
    requires answered.world.sends[p].outcome.Some? ==> Causes(s, e, p, answered.world.sends[p].outcome.value)
    ensures Explained(s, e, PumpNextQueue(answered, e.taken), p)
  {
    if answered.queue != [] {
      assert OwnEntry(answered.world.sends, answered.queue[0]);
      SendArtifactOutcome(answered, answered.queue[0].val, e.taken, p);
    }
  }

  lemma ResumedExplained(s: State, e: Event, p: nat)
    requires Safe(s) && e.DispatchResumed? && Open(s.world.sends, p)
    ensures Explained(s, e, Step(s, e), p)
  {
    if e.call < |s.world.calls| && s.world.calls[e.call].stage.Back? {
      var c, s1 := s.world.calls[e.call], MoveCall(s, e.call, Over);
      SafeFrame(s, s1);
      if c.job.Some? && c.job.value < |s.world.sends| {
        var q := c.job.value;
        var item := Item(s1.world.sends[q].artifact, q, q);
        SendArtifactOutcome(s1, item, e.taken, p);
        if c.stage.socket.None? && !s1.states.isConnecting {
          FailedExplained(s, e, s1, q, p);
        }
      }
    }
  }

  lemma FailedExplained(s: State, e: Event, s1: State, q: nat, p: nat)
    requires Resumes(s, e, q, false) && !s.states.isConnecting && Open(s.world.sends, p) && q < |s.world.sends|
    requires s1.world.sends == s.world.sends
    ensures var s' := CleanupQueue(ProcessResolveOnError(s1, Item(s1.world.sends[q].artifact, q, q), NoHost), Some(NotEstablished));
            Explained(s, e, s', p)
  {
    var settled := ProcessResolveOnError(s1, Item(s1.world.sends[q].artifact, q, q), NoHost);
    SettleAllAt(settled.world.sends, settled.queue, NotEstablished);
  }

  lemma SocketExplained(s: State, e: Event, p: nat)
    requires Open(s.world.sends, p) && (e.SocketError? || e.SocketEnd? || e.SocketClose?)
    ensures Explained(s, e, Step(s, e), p)
  {
    SettleAllAt(s.world.sends, s.queue, ConnectionLost);
  }

  lemma OtherExplained(s: State, e: Event, p: nat)
    requires Open(s.world.sends, p) && (Quiet(e) || e.Send? || e.TimerFires? || e.SocketIdle? || e.Destroy?)
    ensures Explained(s, e, Step(s, e), p)
  {
    if Quiet(e) {
      QuietSame(s, e);
    }
  }

  /** A promise that is open before an event and settled after it was settled by a cause of that outcome. */
  lemma StepExplained(s: State, e: Event, p: nat)
    requires Safe(s) && Open(s.world.sends, p)
    ensures Explained(s, e, Step(s, e), p)
  {
    match e
    case Verified(_, _, _) => VerifiedExplained(s, e, p);
    case DispatchResumed(_, _) => ResumedExplained(s, e, p);
    case SocketError(_) => SocketExplained(s, e, p);
    case SocketEnd => SocketExplained(s, e, p);
    case SocketClose => SocketExplained(s, e, p);
    case Drain(writes) => FlushGrows(s, writes);
    case DrainResumed(writes) => FlushGrows(s, writes);
    case _ => OtherExplained(s, e, p);
  }

  lemma {:induction false} RunSnoc(s: State, events: seq<Event>, e: Event)
    ensures Run(s, events + [e]) == Step(Run(s, events), e)
    decreases |events|
  {
    if events == [] {
      assert events + [e] == [e] && [e][1..] == [];
      assert Run(Step(s, e), []) == Step(s, e);
    } else {
      assert (events + [e])[1..] == events[1..] + [e] && (events + [e])[0] == events[0];
      RunSnoc(Step(s, events[0]), events[1..], e);
    }
  }

  /** A fresh promise is not settled by the event that makes it. */
  lemma BornOpen(s: State, e: Event, p: nat)
    requires |s.world.sends| <= p < |Step(s, e).world.sends|
    ensures Step(s, e).world.sends[p].outcome.None?
  {
    match e
    case Send(_) =>
    case Verified(i, verdict, taken) => VerifiedSameCount(s, i, verdict, taken);
    case DispatchResumed(c, taken) => ResumedSameCount(s, c, taken);
    case Drain(writes) => FlushGrows(s, writes);
    case DrainResumed(writes) => FlushGrows(s, writes);
    case _ => if Quiet(e) { QuietSame(s, e); } else { SettleAllAt(s.world.sends, s.queue, ConnectionLost); }
  }

  lemma ResumedSameCount(s: State, c: nat, taken: bool)
    ensures |Resume(s, c, taken).world.sends| == |s.world.sends|
  {
    if c < |s.world.calls| && s.world.calls[c].stage.Back? {
      var call, s' := s.world.calls[c], MoveCall(s, c, Over);
      if call.job.Some? && call.job.value < |s.world.sends| {
        var item := Item(s.world.sends[call.job.value].artifact, call.job.value, call.job.value);
        var settled := ProcessResolveOnError(s', item, NoHost);
        SettleAllAt(settled.world.sends, settled.queue, NotEstablished);
      }
    }
  }

  lemma VerifiedSameCount(s: State, i: nat, verdict: Verdict, taken: bool)
    ensures |TakeVerified(s, i, verdict, taken).world.sends| == |s.world.sends|
  {
    if i < |s.world.verifying| {
      var s', m := WithoutVerifying(s, i), s.world.verifying[i];
      if !verdict.VerifyThrows? && m.reqId != "" && Has(s'.queue, m.reqId) {
        var answered := Answered(s', m, verdict.ValidSignature?);
        if answered.queue != [] {
          SentSameCount(answered, answered.queue[0].val, taken);
        }
      }
    }
  }

  lemma SentSameCount(s: State, item: Item, taken: bool)
    ensures |SendArtifact(s, item, taken).world.sends| == |s.world.sends|
  {
  }

  /**
   In every run, every outcome has its cause: an event of the run, and the state
   it met, that account for that outcome of that promise. A reply, above all, was
   taken off the verification queue with a valid signature.
   */
  lemma {:induction false} EveryOutcomeHasItsCause(o: Options, events: seq<Event>, p: nat)
    requires p < |Run(Created(o), events).world.sends| && Run(Created(o), events).world.sends[p].outcome.Some?
    ensures exists i :: 0 <= i < |events| && CausedAt(o, events, i, p, Run(Created(o), events).world.sends[p].outcome.value)
    decreases |events|
  {
    if events != [] {
      var n := |events| - 1;
      var before, e := Run(Created(o), events[..n]), events[n];
      assert events[..n] + [e] == events;
      RunSnoc(Created(o), events[..n], e);
      RunInv(Created(o), events[..n]);
      StepGrows(before, e);
      if p >= |before.world.sends| {
        BornOpen(before, e, p);
      } else if before.world.sends[p].outcome.Some? {
        EveryOutcomeHasItsCause(o, events[..n], p);
        var i :| 0 <= i < n && CausedAt(o, events[..n], i, p, before.world.sends[p].outcome.value);
        assert events[..n][..i] == events[..i] && events[..n][i] == events[i];
        assert CausedAt(o, events, i, p, before.world.sends[p].outcome.value);
      } else {
        StepExplained(before, e, p);
        assert CausedAt(o, events, n, p, Run(Created(o), events).world.sends[p].outcome.value);
      }
    }
  }

  /** The `i`-th event of the run found the promise open and caused the outcome. */
  ghost predicate CausedAt(o: Options, events: seq<Event>, i: nat, p: nat, outcome: Outcome)
    requires i < |events|
  {
    var s := Run(Created(o), events[..i]);
    Open(s.world.sends, p) && Causes(s, events[i], p, outcome)
  }

  // ------------------------------------------------------------ what each event does

  /** A verified message settles the request it answers by its verdict, and any other message settles nothing. */
  lemma VerdictDecides(s: State, e: Event, m: Message)
    requires Safe(s) && e.Verified? && Takes(s, e, m, e.verdict)
    ensures var s' := Step(s, e);
            && s'.world.verifying == s.world.verifying[..e.index] + s.world.verifying[e.index + 1..]
            && if e.verdict.VerifyThrows? || m.reqId == "" || !Has(s.queue, m.reqId)
            then SameRequests(s, s') && s'.world.wire == s.world.wire
            else
              var p := Get(s.queue, m.reqId).value.resolve;
              && Open(s.world.sends, p) && |s'.world.sends| == |s.world.sends| && p !in s'.world.timers
              && s'.world.sends[p].outcome ==
                   Some(if e.verdict.ValidSignature? then Outcome.Reply(m) else Outcome.BadSignature(m))
    ensures Step(s, e).states.shouldRetry == (s.states.shouldRetry && !e.verdict.VerifyThrows?)
  {
    var s1 := WithoutVerifying(s, e.index);
    SafeFrame(s, s1);
    if !e.verdict.VerifyThrows? && m.reqId != "" && Has(s.queue, m.reqId) {
      AnsweredKeeps(s1, m, e.verdict.ValidSignature?);
      PumpKeepsSettled(Answered(s1, m, e.verdict.ValidSignature?), Get(s.queue, m.reqId).value.resolve, e.taken);
      PumpKeepsRetry(Answered(s1, m, e.verdict.ValidSignature?), e.taken);
    }
  }

  lemma PumpKeepsRetry(s: State, taken: bool)
    ensures PumpNextQueue(s, taken).states.shouldRetry == s.states.shouldRetry
  {
  }

  /**
   What the reply to one request does to every other: only the one then first in
   the queue is tried, only on a connection that is up, and it fails if invalid or not writable.
   */
  lemma ReplyToAnother(s: State, e: Event, m: Message, q: nat)
    requires Safe(s) && e.Verified? && Takes(s, e, m, e.verdict) && !e.verdict.VerifyThrows? && m.reqId != "" && Has(s.queue, m.reqId)
    requires Open(s.world.sends, q) && q != Get(s.queue, m.reqId).value.resolve
    ensures var rest := Remove(s.queue, m.reqId);
            var tried := rest != [] && rest[0].val.resolve == q && s.states.isConnected;
            Step(s, e).world.sends[q].outcome ==
              if tried && !s.world.sends[q].artifact.valid then Some(InvalidArtifact)
              else if tried && Unwritable(s) then Some(ConnectionClosed)
              else None
  {
    var s1, valid := WithoutVerifying(s, e.index), e.verdict.ValidSignature?;
    SafeFrame(s, s1);
    AnsweredKeeps(s1, m, valid);
    PumpTries(Answered(s1, m, valid), e.taken, q);
  }

  lemma PumpTries(s: State, taken: bool, q: nat)
    requires Safe(s) && Open(s.world.sends, q)
    ensures var tried := s.queue != [] && s.queue[0].val.resolve == q && s.states.isConnected;
            PumpNextQueue(s, taken).world.sends[q].outcome ==
              if tried && !s.world.sends[q].artifact.valid then Some(InvalidArtifact)
              else if tried && Unwritable(s) then Some(ConnectionClosed)
              else None
  {
    if s.queue != [] {
      assert OwnEntry(s.world.sends, s.queue[0]);
      SendArtifactOutcome(s, s.queue[0].val, taken, q);
    }
  }

  /** A timer that runs out settles its own promise, and takes the entry of that id out of the queue. */
  lemma TimerTimesOut(s: State, p: nat)
    requires Safe(s) && p in s.world.timers
    ensures var s' := Step(s, TimerFires(p));
            && Open(s.world.sends, p)
            && s'.world.sends == s.world.sends[p := Sent(s.world.sends[p].artifact, Some(TimedOut))]
            && s'.world.timers == s.world.timers - {p} && !Has(s'.queue, s.world.sends[p].artifact.id)
            && forall id :: id != s.world.sends[p].artifact.id ==> Get(s'.queue, id) == Get(s.queue, id)
  {
  }

  /** Without a host the request fails with that, and everything queued beside it fails too; while connecting nothing happens. */
  lemma NoHostFailsAll(s: State, e: Event, p: nat)
    requires Resumes(s, e, p, false) && p < |s.world.sends|
    ensures var s' := Step(s, e);
            if s.states.isConnecting then SameRequests(s, s')
            else
              && s'.queue == [] && |s'.world.sends| == |s.world.sends|
              && (s.world.sends[p].outcome.None? ==> s'.world.sends[p].outcome == Some(NoHost))
              && forall q: nat :: q != p && Open(s.world.sends, q) ==>
                   s'.world.sends[q].outcome == if Resolves(Remove(s.queue, s.world.sends[p].artifact.id), q) then Some(NotEstablished) else None
  {
    var settled := ProcessResolveOnError(MoveCall(s, e.call, Over), Item(s.world.sends[p].artifact, p, p), NoHost);
    SettleAllAt(settled.world.sends, settled.queue, NotEstablished);
  }

  /** With a socket the request is written if it is valid and the connection takes writes, and settled otherwise. */
  lemma ResumedWritesIff(s: State, e: Event, p: nat)
    requires Pressed(s) && Resumes(s, e, p, true) && Open(s.world.sends, p)
    ensures var s', artifact := Step(s, e), s.world.sends[p].artifact;
            if artifact.valid && !Unwritable(s)
            then s'.world.wire == s.world.wire + [artifact] && SameRequests(s, s')
            else
              && s'.world.wire == s.world.wire && p !in s'.world.timers && !Has(s'.queue, artifact.id)
              && s'.world.sends == s.world.sends[p := Sent(artifact, Some(if artifact.valid then ConnectionClosed else InvalidArtifact))]
  {
  }

  /** A request gets a promise unless the client is destroyed, the artifact invalid, or the queue full; the default is 100. */
  lemma AdmittedIff(s: State, artifact: Artifact)
    ensures var s' := Step(s, Send(artifact));
            if !s.states.isDestroyed && artifact.valid && |s.queue| < (if s.options.maxQueue.Some? then s.options.maxQueue.value else 100)
            then s'.world.sends == s.world.sends + [Sent(artifact, None)]
            else s' == s
  {
  }

  /** While the client is connecting, neither a request nor a reconnect starts another lookup. */
  lemma OneLookupAtATime(s: State, artifact: Artifact)
    requires s.states.isConnecting
    ensures Step(s, Send(artifact)).world.calls == s.world.calls && Step(s, RetryFires).world.calls == s.world.calls
  {
  }

  /** A reconnect that fires looks the host up, unless there is a live socket or one is being made. */
  lemma RetryFiresLooksUp(s: State)
    requires s.world.retryTimers > 0
    ensures var live := s.socket.Some? && !(s.socket.value < |s.world.sockets| && s.world.sockets[s.socket.value].destroyed);
            var s' := Step(s, RetryFires);
            && s'.world.retryTimers == s.world.retryTimers - 1
            && s'.world.calls == (if live || s.states.isConnecting then s.world.calls else s.world.calls + [SocketCall(None, Lookup)])
            && s'.states.isConnecting == (s.states.isConnecting || !live)
  {
  }

  /** The rules of reconnecting, with their defaults, spelt out. */
  lemma ReconnectRules(s: State, nonRetryable: bool)
    ensures var max := if s.options.maxRetries.Some? then s.options.maxRetries.value else 5;
            var allowed := s.retries < max && !s.states.isDestroyed && s.states.shouldRetry;
            && (if allowed && !nonRetryable then Reconnects(s, Step(s, SocketError(nonRetryable)))
                else SettlesAll(s, Step(s, SocketError(nonRetryable))))
            && (if allowed then SettlesAll(s, Step(s, SocketEnd))
                else if s.retries < max then Reconnects(s, Step(s, SocketEnd))
                else LeavesAll(s, Step(s, SocketEnd)))
            && SettlesAll(s, Step(s, SocketClose))
  {
    ErrorAndEndDiffer(s, nonRetryable);
    SettleAllAt(s.world.sends, s.queue, ConnectionLost);
  }

  /** After any line from the server, however much follows, an error never reconnects again. */
  lemma {:induction false} NoRetryAfterALine(s: State, parsed: Option<Message>, events: seq<Event>, nonRetryable: bool)
    ensures var later := Run(Step(s, Line(parsed)), events);
            SettlesAll(later, Step(later, SocketError(nonRetryable)))
  {
    RetryStaysOff(Step(s, Line(parsed)), events);
    ReconnectRules(Run(Step(s, Line(parsed)), events), nonRetryable);
  }

  lemma {:induction false} RetryStaysOff(s: State, events: seq<Event>)
    requires !s.states.shouldRetry
    ensures !Run(s, events).states.shouldRetry
    decreases |events|
  {
    if events != [] {
      StepRetryOff(s, events[0]);
      RetryStaysOff(Step(s, events[0]), events[1..]);
    }
  }

  lemma StepRetryOff(s: State, e: Event)
    requires !s.states.shouldRetry
    ensures !Step(s, e).states.shouldRetry
  {
    match e
    case DispatchResumed(c, taken) => ResumeKeepsSockets(s, c, taken);
    case Verified(i, verdict, taken) => VerifiedKeepsSockets(s, i, verdict, taken);
    case Drain(writes) => FlushKeepsRetry(s.(states := s.states.(isDraining := true)), writes);
    case DrainResumed(writes) => FlushKeepsRetry(s.(world := s.world.(flushWaits := false)), writes);
    case _ =>
  }

  lemma {:induction false} FlushKeepsRetry(s: State, writes: seq<bool>)
    ensures FlushLoop(s, writes).states.shouldRetry == s.states.shouldRetry
    decreases |s.backpressureQueue|
  {
    if s.backpressureQueue != [] && s.socket.Some? && !SocketDestroyed(s) && !SocketEnded(s) && writes != [] && writes[0] {
      FlushKeepsRetry(
        s.(backpressureQueue := s.backpressureQueue[1..], world := s.world.(wire := s.world.wire + [s.backpressureQueue[0]])),
        writes[1..]);
    }
  }

  /** A flush whose writes are all taken writes everything that waits, in order, and stops draining. */
  lemma {:induction false} FlushWritesAll(s: State, writes: seq<bool>)
    requires s.socket.Some? && !SocketDestroyed(s) && !SocketEnded(s)
    requires |writes| >= |s.backpressureQueue| && forall i :: 0 <= i < |writes| ==> writes[i]
    ensures var s' := FlushLoop(s, writes);
            && s'.world.wire == s.world.wire + s.backpressureQueue && s'.backpressureQueue == []
            && !s'.states.isDraining && s'.world.flushWaits == s.world.flushWaits
    decreases |s.backpressureQueue|
  {
    if s.backpressureQueue != [] {
      var one := s.(backpressureQueue := s.backpressureQueue[1..], world := s.world.(wire := s.world.wire + [s.backpressureQueue[0]]));
      FlushWritesAll(one, writes[1..]);
      assert s.backpressureQueue == [s.backpressureQueue[0]] + s.backpressureQueue[1..];
    }
  }

  /** Options not given to `update` keep their value. */
  lemma UpdateKeepsTheRest(s: State, changed: Options)
    ensures var o := Step(s, Update(changed)).options;
            && o.maxRetries == (if changed.maxRetries.Some? then changed.maxRetries else s.options.maxRetries)
            && o.maxQueue == (if changed.maxQueue.Some? then changed.maxQueue else s.options.maxQueue)
  {
  }

  predicate NoUpdates(events: seq<Event>) {
    forall i :: 0 <= i < |events| ==> !events[i].Update?
  }

  lemma {:induction false} CoveredWithoutUpdate(maxRetries: nat, maxQueue: nat, o: Options, events: seq<Event>)
    requires NoUpdates(events) && MaxRetries(o) <= maxRetries && MaxQueue(o) <= maxQueue
    ensures Covers(maxRetries, maxQueue, o, events)
    decreases |events|
  {
    if events != [] {
      CoveredWithoutUpdate(maxRetries, maxQueue, o, events[1..]);
    }
  }

  /** Without options, at most 100 requests are ever in flight and at most five reconnects scheduled. */
  lemma DefaultLimits(events: seq<Event>)
    requires NoUpdates(events)
    ensures var s := Run(Created(Options(None, None)), events);
            |s.queue| <= 100 && s.world.scheduled <= 5
  {
    CoveredWithoutUpdate(5, 100, Options(None, None), events);
    LimitsHold(Options(None, None), events, 5, 100);
  }

  /** `end` disconnects and lets go of the socket it ends; requests are left as they are. */
  lemma EndDisconnects(s: State)
    ensures var s' := Step(s, End);
            && !s'.states.isConnected && !s'.states.isConnecting && s'.socket.None? && SameRequests(s, s')
            && s'.states.shouldRetry == s.states.shouldRetry
            && (s.socket.Some? && s.socket.value < |s.world.sockets| ==> s'.world.sockets[s.socket.value].ended)
  {
  }

  /** `destroy` and the idle timeout destroy the sockets concerned and leave every promise as it is. */
  lemma DestroyedWith(s: State, k: nat)
    requires k < |s.world.sockets|
    ensures var d, i := Step(s, Destroy), Step(s, SocketIdle(k));
            && d.states == i.states && d.states.isDestroyed && !d.states.shouldRetry
            && !d.states.isConnected && !d.states.isConnecting && !d.states.isDraining
            && d.queue == [] && i.queue == [] && d.backpressureQueue == [] && i.backpressureQueue == []
            && d.world.sends == s.world.sends == i.world.sends
            && (s.socket == Some(k) ==> d.world.sockets[k].destroyed) && i.world.sockets[k].destroyed
  {
  }

  /** A drain on a connection that takes every write empties the queue, unless another flush is under way. */
  lemma DrainWritesAll(s: State, writes: seq<bool>)
    requires s.socket.Some? && !SocketDestroyed(s) && !SocketEnded(s)
    requires |writes| >= |s.backpressureQueue| && forall i :: 0 <= i < |writes| ==> writes[i]
    ensures var s' := Step(s, Drain(writes));
            if s.states.isDraining then s' == s
            else s'.world.wire == s.world.wire + s.backpressureQueue && s'.backpressureQueue == [] && !s'.states.isDraining
  {
    if !s.states.isDraining {
      FlushWritesAll(s.(states := s.states.(isDraining := true)), writes);
    }
  }

  /** Without a live socket a drain writes nothing, and a write that returns false ends it, the rest waiting in order. */
  lemma DrainStops(s: State, writes: seq<bool>)
    requires !s.states.isDraining
    ensures s.socket.None? || SocketDestroyed(s) || SocketEnded(s) ==>
              Step(s, Drain(writes)).world.wire == s.world.wire && Step(s, Drain(writes)).backpressureQueue == s.backpressureQueue
    ensures s.socket.Some? && !SocketDestroyed(s) && !SocketEnded(s) && s.backpressureQueue != [] && writes != [] && !writes[0] ==>
              var s' := Step(s, Drain(writes));
              && s'.world.wire == s.world.wire + [s.backpressureQueue[0]] && s'.backpressureQueue == s.backpressureQueue[1..]
              && s'.world.flushWaits
  {
  }

  predicate StaysGone(a: seq<SocketFlags>, b: seq<SocketFlags>) {
    && |a| <= |b|
    && forall k :: 0 <= k < |a| ==> (a[k].destroyed ==> b[k].destroyed) && (a[k].ended ==> b[k].ended)
  }

  lemma StepStaysGone(s: State, e: Event)
    ensures StaysGone(s.world.sockets, Step(s, e).world.sockets)
  {
    match e
    case DispatchResumed(c, taken) => ResumeKeepsSockets(s, c, taken);
    case Verified(i, verdict, taken) => VerifiedKeepsSockets(s, i, verdict, taken);
    case Drain(writes) => FlushKeepsSockets(s.(states := s.states.(isDraining := true)), writes);
    case DrainResumed(writes) => FlushKeepsSockets(s.(world := s.world.(flushWaits := false)), writes);
    case SocketIdle(k) => CleanupKeepsSockets(s.(world := s.world.(sockets := DestroySocket(s.world.sockets, Some(k)))));
    case _ =>
  }

  lemma CleanupKeepsSockets(s: State)
    ensures StaysGone(s.world.sockets, ApplyDestroy(s).world.sockets)
  {
  }

  lemma ResumeKeepsSockets(s: State, c: nat, taken: bool)
    ensures Resume(s, c, taken).world.sockets == s.world.sockets && Resume(s, c, taken).states.shouldRetry == s.states.shouldRetry
  {
  }

  lemma VerifiedKeepsSockets(s: State, i: nat, verdict: Verdict, taken: bool)
    ensures TakeVerified(s, i, verdict, taken).world.sockets == s.world.sockets
    ensures TakeVerified(s, i, verdict, taken).states.shouldRetry ==> s.states.shouldRetry
  {
  }

  lemma {:induction false} FlushKeepsSockets(s: State, writes: seq<bool>)
    ensures FlushLoop(s, writes).world.sockets == s.world.sockets
    decreases |s.backpressureQueue|
  {
    if s.backpressureQueue != [] && s.socket.Some? && !SocketDestroyed(s) && !SocketEnded(s) && writes != [] && writes[0] {
      FlushKeepsSockets(
        s.(backpressureQueue := s.backpressureQueue[1..], world := s.world.(wire := s.world.wire + [s.backpressureQueue[0]])),
        writes[1..]);
    }
  }

  /** Over any events a socket that was destroyed or ended stays so, and none is forgotten. */
  lemma {:induction false} GoneForGood(s: State, events: seq<Event>)
    ensures StaysGone(s.world.sockets, Run(s, events).world.sockets)
    decreases |events|
  {
    if events != [] {
      StepStaysGone(s, events[0]);
      GoneForGood(Step(s, events[0]), events[1..]);
    }
  }

  /** What the network reports of a socket is noted of that socket alone. */
  lemma ReportedGone(s: State, k: nat, flags: SocketFlags, j: nat)
    requires k < |s.world.sockets| && j < |s.world.sockets|
    ensures var s', f := Step(s, SocketGone(k, flags)), s.world.sockets[j];
            && |s'.world.sockets| == |s.world.sockets| && s'.socket == s.socket && s'.states == s.states && SameRequests(s, s')
            && s'.world.sockets[j] == if j != k then f else SocketFlags(f.destroyed || flags.destroyed, f.ended || flags.ended)
  {
  }

  // ------------------------------------------------------------------ after `destroy`

  predicate Frozen(s: State) {
    s.states.isDestroyed && s.queue == [] && s.backpressureQueue == [] && !s.world.flushWaits
  }

  lemma StepFrozen(s: State, e: Event)
    requires Frozen(s)
    ensures Frozen(Step(s, e)) && Step(s, e).world.wire == s.world.wire && |Step(s, e).world.sends| == |s.world.sends|
  {
    match e
    case DispatchResumed(c, taken) => ResumeFrozen(s, c, taken);
    case _ =>
  }

  lemma ResumeFrozen(s: State, c: nat, taken: bool)
    requires Frozen(s)
    ensures var s' := Resume(s, c, taken);
            Frozen(s') && s'.world.wire == s.world.wire && |s'.world.sends| == |s.world.sends|
  {
  }

  /** A destroyed client admits nothing and writes nothing, whatever else happens to it. */
  lemma {:induction false} NothingAfterDestroy(s: State, events: seq<Event>)
    requires Frozen(s)
    ensures Frozen(Run(s, events)) && Run(s, events).world.wire == s.world.wire
    ensures |Run(s, events).world.sends| == |s.world.sends|
    decreases |events|
  {
    if events != [] {
      StepFrozen(s, events[0]);
      NothingAfterDestroy(Step(s, events[0]), events[1..]);
    }
  }

  lemma DestroyFreezes(o: Options, before: seq<Event>, after: seq<Event>)
    ensures var s := Step(Run(Created(o), before), Destroy);
            Frozen(s) && Run(s, after).world.wire == s.world.wire && |Run(s, after).world.sends| == |s.world.sends|
  {
    RunInv(Created(o), before);
    NothingAfterDestroy(Step(Run(Created(o), before), Destroy), after);
  }

  // -------------------------------------------------------------- two whole exchanges

  /** A new client's first request starts a lookup, connects, and is written. */
  lemma FirstRequestIsWritten(o: Options, a: Artifact)
    requires a.valid && (o.maxQueue.Some? ==> o.maxQueue.value > 0)
    ensures var s1 := Step(Created(o), Send(a));
            var s2 := Step(Step(s1, LookupDone(0)), Connected(0));
            var s3 := Step(s2, DispatchResumed(0, true));
            && s1.states.isConnecting && !s1.states.isConnected && !s2.states.isConnecting && s2.states.isConnected
            && s1.world.wire == [] && s2.world.wire == [] && s3.world.wire == [a]
            && s3.queue == [Entry(a.id, Item(a, 0, 0))] && s3.world.sends == [Sent(a, None)] && s3.world.timers == {0}
            && s3.world.verifying == [] && !s3.states.isDraining && s3.states.shouldRetry && !s3.states.isDestroyed && s3.retries == 0
  {
    var s1 := Step(Created(o), Send(a));
    assert s1.queue == [Entry(a.id, Item(a, 0, 0))] && s1.world.calls == [SocketCall(Some(0), Lookup)];
    var s2 := Step(Step(s1, LookupDone(0)), Connected(0));
    assert s2.world.calls == [SocketCall(Some(0), Back(Some(0)))] && s2.world.sockets == [SocketFlags(false, false)];
  }

  /** And its answer settles it, leaving nothing behind. */
  lemma FirstRequestIsAnswered(s: State, a: Artifact, m: Message)
    requires s.queue == [Entry(a.id, Item(a, 0, 0))] && s.world.sends == [Sent(a, None)] && s.world.timers == {0}
    requires s.world.verifying == [] && m.reqId == a.id != ""
    ensures var s' := Step(Step(s, Line(Some(m))), Verified(0, ValidSignature, true));
            && s'.world.sends == [Sent(a, Some(Outcome.Reply(m)))] && s'.queue == [] && s'.world.timers == {}
            && s'.world.wire == s.world.wire
  {
    var heard := Step(s, Line(Some(m)));
    assert heard.world.verifying == [m];
    assert Remove(heard.queue, a.id) == [];
  }

  /** The same without a host: the lookup fails and so does the request. */
  lemma FirstRequestWithoutHost(o: Options, a: Artifact, taken: bool)
    requires a.valid && (o.maxQueue.Some? ==> o.maxQueue.value > 0)
    ensures var s1 := Step(Created(o), Send(a));
            var s2 := Step(Step(s1, LookupFailed(0)), DispatchResumed(0, taken));
            s2.world.sends == [Sent(a, Some(NoHost))] && s2.queue == [] && s2.world.timers == {} && !s2.states.isConnecting
  {
    var s1 := Step(Created(o), Send(a));
    assert s1.queue == [Entry(a.id, Item(a, 0, 0))] && s1.world.calls == [SocketCall(Some(0), Lookup)];
    var failed := Step(s1, LookupFailed(0));
    assert failed.world.calls == [SocketCall(Some(0), Back(None))];
  }
}
