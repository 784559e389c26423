/**
 What becomes of a line, case by case: without middleware the whole log and the
 context it leaves, and with any list of middleware where that list stops.
 */
module LineCourses {
  import opened Wrappers
  import opened Json
  import opened Crypto
  import opened Pipeline
  import ServerChecks

  // ------------------------------------------------------------ a list of middleware

  /** The contexts a list hands on, from `c`: each handler gets what the one before it left. */
  ghost predicate Chain(handlers: seq<Handler>, c: Ctx, ctxs: seq<Ctx>) {
    && |ctxs| == |handlers| + 1 && ctxs[0] == c
    && (forall k :: 0 <= k < |handlers| ==> Follows(handlers[k], ctxs[k], ctxs[k + 1]))
  }

  ghost predicate Follows(h: Handler, c: Ctx, c': Ctx) {
    c' == h(c).ctx
  }

  /** The handler left the context without a throw, and nobody has answered before or after it. */
  ghost predicate LeavesOpen(h: Handler, c: Ctx) {
    !Sent(c) && h(c).Ran? && !Sent(h(c).ctx)
  }

  /** The first `n` handlers of a list, each of which left the line open. */
  function Quietly(phase: Phase, n: nat): seq<Event> {
    seq(n, (k: nat) => Middleware(phase, k, false))
  }

  /**
   Where a list of middleware stops: it goes through when every handler leaves the
   line open, is not even begun when someone has answered, and otherwise ends with the first
   handler that throws or after which the line is answered, whose context is handed on.
   */
  lemma ListCourse(server: Server, phase: Phase, c: Ctx, log: seq<Event>, ctxs: seq<Ctx>, n: nat)
    requires Chain(server.middleware(phase), c, ctxs) && n <= |server.middleware(phase)|
    requires forall k :: 0 <= k < n ==> LeavesOpen(server.middleware(phase)[k], ctxs[k])
    ensures var handlers, out := server.middleware(phase), RunPhase(server, phase, c, log);
            && (n == |handlers| ==> out == Go(ctxs[n], log + Quietly(phase, n)))
            && (n == 0 < |handlers| && Sent(c) ==> out == Stop(c, log))
            && (n < |handlers| && !Sent(ctxs[n]) && handlers[n](ctxs[n]).Threw? ==>
                  out == Throw(ctxs[n + 1], log + Quietly(phase, n) + [Middleware(phase, n, Sent(ctxs[n + 1]))]))
            && (n < |handlers| && !Sent(ctxs[n]) && handlers[n](ctxs[n]).Ran? && Sent(ctxs[n + 1]) ==>
                  out == Stop(ctxs[n + 1], log + Quietly(phase, n) + [Middleware(phase, n, true)]))
  {
    RunsTo(server.middleware(phase), phase, c, log, ctxs, n);
    assert n < |server.middleware(phase)| ==> Follows(server.middleware(phase)[n], ctxs[n], ctxs[n + 1]);
  }

  lemma {:induction false} RunsTo(handlers: seq<Handler>, phase: Phase, c: Ctx, log: seq<Event>, ctxs: seq<Ctx>, n: nat)
    requires Chain(handlers, c, ctxs) && n <= |handlers|
    requires forall k :: 0 <= k < n ==> LeavesOpen(handlers[k], ctxs[k])
    ensures RunList(handlers, phase, 0, c, log) == RunList(handlers, phase, n, ctxs[n], log + Quietly(phase, n))
    decreases n
  {
    if n == 0 {
      assert log + Quietly(phase, 0) == log;
    } else {
      RunsTo(handlers, phase, c, log, ctxs, n - 1);
      assert LeavesOpen(handlers[n - 1], ctxs[n - 1]) && Follows(handlers[n - 1], ctxs[n - 1], ctxs[n]);
      assert log + Quietly(phase, n) == log + Quietly(phase, n - 1) + [Middleware(phase, n - 1, false)];
    }
  }

  /**
   Once the connection was answered, or its socket is gone, a line with any
   middleware before parsing stops there, with nothing done; before that, a list is begun.
   */
  lemma StopsOnceAnswered(server: Server, line: Line, c: Ctx, phase: Phase)
    ensures (c.answered || c.resSocket in c.gone) && server.middleware(BeforeParsing) != [] ==>
              Receive(server, line, c) == Stop(c, [])
    ensures !c.answered && c.resSocket !in c.gone && server.middleware(phase) != [] ==>
              RunPhase(server, phase, c, []).log != []
  {
    if !Sent(c) && server.middleware(phase) != [] {
      var handlers := server.middleware(phase);
      ListGrows(handlers, phase, 1, handlers[0](c).ctx, [] + [Middleware(phase, 0, false)]);
    }
  }

  /** An error middleware that throws ends the handling: nothing is replied, and the socket is not destroyed. */
  lemma ErrorHandlerThrows(server: Server, c: Ctx, log: seq<Event>)
    requires server.middleware(BeforeError) != [] && !Sent(c)
    requires server.middleware(BeforeError)[0](c.(req := c.req.(error := true))).Threw?
    ensures var failed := server.middleware(BeforeError)[0](c.(req := c.req.(error := true))).ctx;
            HandleError(server, c, log) == Throw(failed, log + [Middleware(BeforeError, 0, Sent(failed))])
  {
  }

  // ------------------------------------------------------------ without middleware

  ghost predicate Bare(server: Server) {
    forall phase :: server.middleware(phase) == []
  }

  /** A line that is no artifact is answered at once and no check looks at it: a bad one, a control line, a lookup. */
  lemma AnsweredAtOnce(server: Server, line: Line, c: Ctx)
    requires Bare(server)
    ensures var out := Receive(server, line, c);
            match line.parsed
            case Bad(partial) =>
              && out.log == [Replied(false)] && out.ctx.gone == c.gone && out.ctx.req.error
              && (partial.None? ==> out.ctx.req.data.None?)
              && (partial.Some? ==> out.ctx.req.data == Some(line.ref) && out.ctx.heap(line.ref) == partial.value)
            case Good(data) =>
              match data.kind
              case ControlLine(quit) => out.log == [Replied(quit)] && out.ctx.gone == c.gone + {c.resSocket} && !out.ctx.req.error
              case LookupLine(found) =>
                out.log == [Replied(found)] && out.ctx.gone == (if found then c.gone + {c.resSocket} else c.gone)
              case ToPipeline => true
  {
    if !(line.parsed.Good? && line.parsed.data.kind.ToPipeline?) {
      ParsedCourse(server, line, c);
      OnlyTheLine(server, line, c);
    }
  }

  lemma ParsedCourse(server: Server, line: Line, c: Ctx)
    requires Bare(server)
    ensures HandleLine(server, line, c) == Route(server, line, Parse(c, line), [])
  {
    EmptyPhase(server, BeforeParsing, c, []);
    EmptyPhase(server, AfterParsing, Parse(c, line), []);
  }

  /** The signature check of an artifact's line. */
  lemma SignatureCourse(server: Server, line: Line, c: Ctx, data: Data, verdict: Verdict)
    requires Bare(server) && Artifact(line, data, verdict)
    ensures var out, parsed := HandleLine(server, line, c), Parse(c, line);
            var signed, log := SignatureNoted(parsed, verdict == Valid), [SignatureChecked(line.ref, data, verdict)];
            match verdict
            case Invalid(e) => out == if e.Exception? then Throw(parsed, log) else Stop(signed, log + [Replied(false)])
            case Valid => out == CheckTrust(server, line, line.ref, signed, log)
  {
    ParsedCourse(server, line, c);
    var parsed, log := Parse(c, line), [SignatureChecked(line.ref, data, verdict)];
    assert parsed.heap(line.ref) == data && parsed.req.data == Some(line.ref);
    assert [] + log == log;
    EmptyPhase(server, BeforeSignature, parsed, []);
    EmptyPhase(server, AfterSignature, SignatureNoted(parsed, verdict == Valid), log);
  }

  /** The line is an artifact with this content and its signature check comes to this. */
  ghost predicate Artifact(line: Line, data: Data, verdict: Verdict) {
    && line.parsed == Good(data) && data.kind.ToPipeline?
    && verdict == ServerChecks.VerifyArtifact(line.storeAtSignature, line.dns, data.processed)
  }

  /** A line whose signature check fails is refused and goes no further; one on which the check throws costs the socket. */
  lemma SignatureRefused(server: Server, line: Line, c: Ctx, data: Data, verdict: Verdict)
    requires Bare(server) && Artifact(line, data, verdict) && verdict != Valid
    ensures var out := Receive(server, line, c);
            && (verdict != Invalid(Exception) ==>
                  && out.log == [SignatureChecked(line.ref, data, verdict), Replied(false)]
                  && out.ctx.gone == c.gone && !out.ctx.req.isValid && out.ctx.req.error)
            && (verdict == Invalid(Exception) ==>
                  && out.ctx.gone == c.gone + {c.req.socket} && out.ctx.req.error
                  && out.log == [SignatureChecked(line.ref, data, verdict)] + (if c.req.socket in c.gone then [] else [Replied(false)]))
  {
    SignatureCourse(server, line, c, data, verdict);
    NothingToRun(server, Parse(c, line), [SignatureChecked(line.ref, data, verdict)]);
    OnlyTheLine(server, line, c);
  }

  /** Error handling without middleware. */
  lemma NothingToRun(server: Server, c: Ctx, log: seq<Event>)
    requires Bare(server)
    ensures HandleError(server, c, log)
         == Go(Destroyed(WithError(c, true)), if c.req.socket in c.gone then log else log + [Replied(false)])
  {
    var erred := WithError(c, true);
    EmptyPhase(server, BeforeError, erred, log);
    EmptyPhase(server, AfterError, Destroyed(erred), if c.req.socket in c.gone then log else log + [Replied(false)]);
  }

  /**
   A correctly signed line whose sender is not trusted is refused and delivered
   to nobody; the context notes an error except for an agent that has a record.
   */
  lemma TrustRefused(server: Server, line: Line, c: Ctx, data: Data)
    requires Bare(server) && Artifact(line, data, Valid)
    requires !ServerChecks.VerifyTrust(line.storeAtTrust, data.processed, line.now)
    ensures var out := Receive(server, line, c);
            && out.log == [SignatureChecked(line.ref, data, Valid), TrustChecked(line.ref, data, false), Replied(false)]
            && out.ctx.gone == c.gone && out.ctx.req.isValid && !out.ctx.req.isTrusted
            && (out.ctx.req.error <==>
                  || data.processed.Transporter?
                  || ServerChecks.RecordFor(line.storeAtTrust, FieldOf(data.processed.artifact, AgentId), FieldOf(data.processed.artifact, To)).None?)
  {
    TrustCourse(server, line, c, data);
    NotedSays(c, line, data);
    LineStops(server, line, c, Distrusted(c, line),
              [SignatureChecked(line.ref, data, Valid), TrustChecked(line.ref, data, false), Replied(false)]);
  }

  lemma LineStops(server: Server, line: Line, c: Ctx, c': Ctx, log: seq<Event>)
    requires HandleLine(server, line, c) == Stop(c', log)
    requires forall i :: 0 <= i < |log| ==> !log[i].ListenerFailed?
    ensures Receive(server, line, c) == Stop(c', log)
  {
    OnlyTheLine(server, line, c);
  }

  /** The context when both checks have been noted, the second with a no. */
  function Distrusted(c: Ctx, line: Line): Ctx {
    TrustNoted(SignatureNoted(Parse(c, line), true), line, line.ref, false)
  }

  lemma NotedSays(c: Ctx, line: Line, data: Data)
    requires line.parsed == Good(data)
    ensures var noted := Distrusted(c, line);
            && noted.gone == c.gone && noted.req.isValid && !noted.req.isTrusted
            && (noted.req.error <==>
                  || data.processed.Transporter?
                  || ServerChecks.RecordFor(line.storeAtTrust, FieldOf(data.processed.artifact, AgentId), FieldOf(data.processed.artifact, To)).None?)
  {
  }

  lemma TrustCourse(server: Server, line: Line, c: Ctx, data: Data)
    requires Bare(server) && Artifact(line, data, Valid)
    requires !ServerChecks.VerifyTrust(line.storeAtTrust, data.processed, line.now)
    ensures HandleLine(server, line, c)
         == Stop(Distrusted(c, line), [SignatureChecked(line.ref, data, Valid), TrustChecked(line.ref, data, false), Replied(false)])
  {
    SignatureCourse(server, line, c, data, Valid);
    DistrustedAt(server, line, SignatureNoted(Parse(c, line), true), data);
  }

  lemma DistrustedAt(server: Server, line: Line, c: Ctx, data: Data)
    requires Bare(server) && c.heap(line.ref) == data && !ServerChecks.VerifyTrust(line.storeAtTrust, data.processed, line.now)
    ensures CheckTrust(server, line, line.ref, c, [SignatureChecked(line.ref, data, Valid)])
         == Stop(TrustNoted(c, line, line.ref, false),
                 [SignatureChecked(line.ref, data, Valid), TrustChecked(line.ref, data, false), Replied(false)])
  {
    var log := [SignatureChecked(line.ref, data, Valid)];
    DistrustCourse(server, line, c, log);
    assert log + [TrustChecked(line.ref, data, false)] + [Replied(false)]
        == [SignatureChecked(line.ref, data, Valid), TrustChecked(line.ref, data, false), Replied(false)];
  }

  lemma DistrustCourse(server: Server, line: Line, c: Ctx, log: seq<Event>)
    requires Bare(server) && !ServerChecks.VerifyTrust(line.storeAtTrust, c.heap(line.ref).processed, line.now)
    ensures CheckTrust(server, line, line.ref, c, log)
         == Stop(TrustNoted(c, line, line.ref, false), log + [TrustChecked(line.ref, c.heap(line.ref), false)] + [Replied(false)])
  {
    EmptyPhase(server, BeforeTrust, c, log);
    EmptyPhase(server, AfterTrust, TrustNoted(c, line, line.ref, false), log + [TrustChecked(line.ref, c.heap(line.ref), false)]);
  }

  /** The line passes both checks, and these are its events up to delivery. */
  ghost predicate Accepted(line: Line, data: Data) {
    && Artifact(line, data, Valid) && ServerChecks.VerifyTrust(line.storeAtTrust, data.processed, line.now)
  }

  function ToDelivery(line: Line, data: Data): seq<Event> {
    [SignatureChecked(line.ref, data, Valid), TrustChecked(line.ref, data, true), Delivered(line.ref, data)]
  }

  function AtDelivery(line: Line, c: Ctx, data: Data): Ctx {
    var parsed := Made(c, line.ref, data);
    parsed.(req := parsed.req.(error := false, isValid := true, isTrusted := true))
  }

  /** From a listener that left context `c`: forwarded as the object is by then and confirmed, or what the handler throws caught. */
  ghost predicate Confirmed(server: Server, line: Line, out: Out, c: Ctx, log: seq<Event>) {
    match server.forward
    case None => out == Stop(c, log + [Replied(true)])
    case Some(throws) =>
      var now := c.heap(line.ref);
      if throws(now) then Caught(out, c, log + [Forwarded(line.ref, now)])
      else out == Stop(c, log + [Forwarded(line.ref, now), Replied(true)])
  }

  /** Something was thrown: the request's socket is destroyed, with an error reply if it was still open. */
  ghost predicate Caught(out: Out, c: Ctx, log: seq<Event>) {
    && out.ctx.gone == c.gone + {c.req.socket} && out.ctx.req.error
    && out.log == if c.req.socket in c.gone then log else log + [Replied(false)]
  }

  /**
   The content reaches exactly the listener of its sort, in the context of a
   verified line. What the listener throws is caught; an agent listener that
   answers ends the line; otherwise the line is forwarded and confirmed.
   */
  lemma ReachesItsListener(server: Server, line: Line, c: Ctx, data: Data)
    requires Bare(server) && Accepted(line, data)
    ensures var agent, at, out := data.processed.Agent?, AtDelivery(line, c, data), Receive(server, line, c);
            var done := if agent then server.agentListener(data, at) else server.transporterListener(data, at);
            && (done.Threw? && !(agent && data.respondNow) ==> Caught(out, done.ctx, ToDelivery(line, data)))
            && (done.Ran? && agent && Sent(done.ctx) ==> out == Stop(done.ctx, ToDelivery(line, data)))
            && (done.Ran? && !(agent && Sent(done.ctx)) ==> Confirmed(server, line, out, done.ctx, ToDelivery(line, data)))
  {
    var at, log := AtDelivery(line, c, data), ToDelivery(line, data);
    DeliversAt(server, line, c, data);
    ForwardCourse(server, line, (if data.processed.Agent? then server.agentListener(data, at) else server.transporterListener(data, at)).ctx, log);
    var out := HandleLine(server, line, c);
    NothingToRun(server, out.ctx, out.log);
    if !(data.processed.Agent? && data.respondNow && server.agentListener(data, at).Threw?) {
      OnlyTheLine(server, line, c);
    }
  }

  /** What comes of the line once a listener is through with it. */
  function Closed(out: Out): Out {
    match out
    case Go(c, log) => Reply(c, log, true)
    case out => out
  }

  lemma ForwardCourse(server: Server, line: Line, c: Ctx, log: seq<Event>)
    requires Bare(server)
    requires forall i :: 0 <= i < |log| ==> !log[i].ListenerFailed?
    ensures var out := Closed(Forward(server, line.ref, c, log));
            && (forall i :: 0 <= i < |out.log| ==> !out.log[i].ListenerFailed?)
            && Confirmed(server, line, if out.Throw? then HandleError(server, out.ctx, out.log) else out, c, log)
  {
    var out := Closed(Forward(server, line.ref, c, log));
    NothingToRun(server, out.ctx, out.log);
  }

  /** A line on which no awaited listener failed leaves no error beside it to handle. */
  lemma OnlyTheLine(server: Server, line: Line, c: Ctx)
    requires forall i :: 0 <= i < |HandleLine(server, line, c).log| ==> !HandleLine(server, line, c).log[i].ListenerFailed?
    ensures var out := HandleLine(server, line, c);
            Receive(server, line, c) == if out.Throw? then HandleError(server, out.ctx, out.log) else out
  {
    FailureIsLogged(HandleLine(server, line, c).log);
  }

  /** Without middleware a line that passes both checks comes to the processing of its content. */
  lemma DeliversAt(server: Server, line: Line, c: Ctx, data: Data)
    requires Bare(server) && Accepted(line, data)
    ensures HandleLine(server, line, c)
         == Closed(ProcessMessage(server, line, line.ref, AtDelivery(line, c, data), ToDelivery(line, data)))
  {
    SignatureCourse(server, line, c, data, Valid);
    var signed, log := SignatureNoted(Parse(c, line), true), [SignatureChecked(line.ref, data, Valid)];
    var noted, trusted := TrustNoted(signed, line, line.ref, true), log + [TrustChecked(line.ref, data, true)];
    assert signed.heap(line.ref) == data && noted.heap(line.ref) == data && noted == AtDelivery(line, c, data);
    assert trusted + [Delivered(line.ref, data)] == ToDelivery(line, data);
    EmptyPhase(server, BeforeTrust, signed, log);
    EmptyPhase(server, AfterTrust, noted, trusted);
    EmptyPhase(server, BeforeArtifact, noted, trusted);
    forall c, log ensures RunPhase(server, AfterArtifact, c, log) == Go(c, log) {
      EmptyPhase(server, AfterArtifact, c, log);
    }
  }

  /** An agent listener that is awaited fails without an answer, and this is the context it leaves. */
  ghost predicate Fails(server: Server, line: Line, c: Ctx, data: Data, failed: Ctx) {
    && data.processed.Agent? && data.respondNow
    && server.agentListener(data, AtDelivery(line, c, data)) == Threw(failed)
    && !Sent(failed) && failed.req.socket == failed.resSocket
  }

  /** When its error is handled first, that ends the connection and nothing is forwarded; the request context stays as it was. */
  lemma FailureHandledFirst(server: Server, line: Line, c: Ctx, data: Data, failed: Ctx)
    requires Bare(server) && Accepted(line, data) && Fails(server, line, c, data, failed) && line.failureFirst
    ensures var out := Receive(server, line, c);
            && out.ctx.gone == failed.gone + {failed.resSocket} && out.ctx.req == failed.req
            && out.log == ToDelivery(line, data) + [ListenerFailed(failed.req)] + [Replied(false)]
  {
    DeliversAt(server, line, c, data);
    NothingToRun(server, failed, ToDelivery(line, data) + [ListenerFailed(failed.req)]);
  }

  /** When it is handled late, the line has been forwarded and confirmed by then, and the error reply follows the success. */
  lemma FailureHandledLate(server: Server, line: Line, c: Ctx, data: Data, failed: Ctx)
    requires Bare(server) && Accepted(line, data) && Fails(server, line, c, data, failed) && !line.failureFirst
    requires server.forward.Some? ==> !server.forward.value(failed.heap(line.ref))
    ensures var out := Receive(server, line, c);
            && out.ctx.gone == failed.gone + {failed.resSocket} && out.ctx.req == failed.req
            && out.log == ToDelivery(line, data) + [ListenerFailed(failed.req)]
                 + (if server.forward.Some? then [Forwarded(line.ref, failed.heap(line.ref))] else [])
                 + [Replied(true), Replied(false)]
  {
    var forwarded := if server.forward.Some? then [Forwarded(line.ref, failed.heap(line.ref))] else [];
    var log := ToDelivery(line, data) + [ListenerFailed(failed.req)];
    DeliversAt(server, line, c, data);
    assert log + forwarded + [Replied(true)] == log + (forwarded + [Replied(true)]);
    assert HandleLine(server, line, c) == Stop(failed, log + (forwarded + [Replied(true)]));
    FailureOf(ToDelivery(line, data), failed.req, forwarded + [Replied(true)]);
    NothingToRun(server, failed, log + (forwarded + [Replied(true)]));
  }

  lemma {:induction false} FailureOf(before: seq<Event>, req: Req, after: seq<Event>)
    requires forall i :: 0 <= i < |before| ==> !before[i].ListenerFailed?
    ensures Pipeline.Failure(before + [ListenerFailed(req)] + after) == Some(req)
  {
    if before != [] {
      var log := before + [ListenerFailed(req)] + after;
      assert log[0] == before[0] && log[1..] == before[1..] + [ListenerFailed(req)] + after;
      FailureOf(before[1..], req, after);
    }
  }
}
