/** A connection of the server: the context its lines share, and what has happened on it. */
module ServerObject {
  import opened Wrappers
  import opened Crypto
  import ServerChecks
  import P = Pipeline

  /** How a method comes back: normally, with a response sent, or by throwing. */
  datatype Flow = Goes | Stops | Throws

  class Connection {
    var ctx: P.Ctx
    var log: seq<P.Event>

    /** The outcome of a method that came back this way. */
    function Outcome(flow: Flow): P.Out
      reads this
    {
      match flow
      case Goes => P.Go(ctx, log)
      case Stops => P.Stop(ctx, log)
      case Throws => P.Throw(ctx, log)
    }

    /** Both contexts of a new connection have its socket. */
    constructor (socket: nat, heap: nat -> P.Data)
      ensures ctx == P.Ctx(P.Req(None, false, false, false, socket), heap, false, socket, {}, 0) && log == []
    {
      ctx := P.Ctx(P.Req(None, false, false, false, socket), heap, false, socket, {}, 0);
      log := [];
    }

    method ExecuteMiddleware(server: P.Server, phase: P.Phase) returns (flow: Flow)
      modifies this
      ensures Outcome(flow) == P.RunPhase(server, phase, old(ctx), old(log))
    {
      var handlers := server.middleware(phase);
      for i := 0 to |handlers|
        invariant P.RunList(handlers, phase, i, ctx, log) == P.RunPhase(server, phase, old(ctx), old(log))
      {
        if P.Sent(ctx) {
          return Stops;
        }
        var done := handlers[i](ctx);
        ctx := done.ctx;
        log := log + [P.Middleware(phase, i, P.Sent(ctx))];
        if done.Threw? {
          return Throws;
        }
        if P.Sent(ctx) {
          return Stops;
        }
      }
      return Goes;
    }

    method Reply(ok: bool)
      modifies this`log
      ensures log == old(log) + [P.Replied(ok)]
    {
      log := log + [P.Replied(ok)];
    }

    /** The line handler up to where `catch` takes over. */
    method HandleLine(server: P.Server, line: P.Line) returns (flow: Flow)
      requires log == []
      modifies this
      ensures Outcome(flow) == P.HandleLine(server, line, old(ctx))
    {
      flow := ExecuteMiddleware(server, P.BeforeParsing);
      if flow != Goes {
        return;
      }
      ctx := P.Parse(ctx, line);
      flow := ExecuteMiddleware(server, P.AfterParsing);
      if flow != Goes {
        return;
      }
      if line.parsed.Bad? {
        Reply(false);
        return Stops;
      }
      match ctx.heap(line.ref).kind
      case ControlLine(quit) =>
        Reply(quit);
        ctx := P.Ended(ctx);
        return Stops;
      case LookupLine(found) =>
        Reply(found);
        if found {
          ctx := P.Ended(ctx);
        }
        return Stops;
      case ToPipeline =>
        flow := ExecuteRequestPipeline(server, line);
    }

    /** `executeRequestPipeline`: the object checked is read off the context once, after the first middleware list. */
    method ExecuteRequestPipeline(server: P.Server, line: P.Line) returns (flow: Flow)
      modifies this
      ensures Outcome(flow) == P.CheckSignature(server, line, old(ctx), old(log))
    {
      flow := ExecuteMiddleware(server, P.BeforeSignature);
      if flow != Goes {
        return;
      }
      if ctx.req.data.None? {
        return Throws;
      }
      var ref := ctx.req.data.value;
      var verdict := ServerChecks.VerifyArtifact(line.storeAtSignature, line.dns, ctx.heap(ref).processed);
      log := log + [P.SignatureChecked(ref, ctx.heap(ref), verdict)];
      if verdict == Invalid(Exception) {
        return Throws;
      }
      ctx := ctx.(req := ctx.req.(isValid := verdict == Valid));
      if verdict != Valid {
        ctx := P.WithError(ctx, true);
      }
      flow := ExecuteMiddleware(server, P.AfterSignature);
      if flow != Goes {
        return;
      }
      if verdict != Valid {
        Reply(false);
        return Stops;
      }
      flow := TrustAndDeliver(server, line, ref);
    }

    method TrustAndDeliver(server: P.Server, line: P.Line, ref: nat) returns (flow: Flow)
      modifies this
      ensures Outcome(flow) == P.CheckTrust(server, line, ref, old(ctx), old(log))
    {
      flow := ExecuteMiddleware(server, P.BeforeTrust);
      if flow != Goes {
        return;
      }
      var trusted := ServerChecks.VerifyTrust(line.storeAtTrust, ctx.heap(ref).processed, line.now);
      log := log + [P.TrustChecked(ref, ctx.heap(ref), trusted)];
      ctx := P.TrustNoted(ctx, line, ref, trusted);
      flow := ExecuteMiddleware(server, P.AfterTrust);
      if flow != Goes {
        return;
      }
      if !trusted {
        Reply(false);
        return Stops;
      }
      flow := Deliver(server, line, ref);
    }

    method Deliver(server: P.Server, line: P.Line, ref: nat) returns (flow: Flow)
      modifies this
      ensures Outcome(flow) == P.Deliver(server, line, ref, old(ctx), old(log))
    {
      flow := ExecuteMiddleware(server, P.BeforeArtifact);
      if flow != Goes {
        return;
      }
      flow := ProcessMessage(server, line, ref);
      if flow != Goes {
        return;
      }
      flow := ExecuteMiddleware(server, P.AfterArtifact);
      if flow != Goes {
        return;
      }
      Reply(true);
      return Stops;
    }

    method ProcessMessage(server: P.Server, line: P.Line, ref: nat) returns (flow: Flow)
      modifies this
      ensures Outcome(flow) == P.ProcessMessage(server, line, ref, old(ctx), old(log) + [P.Delivered(ref, old(ctx).heap(ref))])
    {
      var data := ctx.heap(ref);
      log := log + [P.Delivered(ref, data)];
      if data.processed.Agent? {
        var done := server.agentListener(data, ctx);
        ctx := done.ctx;
        if done.Threw? {
          if !data.respondNow {
            return Throws;
          }
          log := log + [P.ListenerFailed(ctx.req)];
          if line.failureFirst {
            var _ := HandleListenerError(server, ctx.req);
          }
        }
        if P.Sent(ctx) {
          return Stops;
        }
      } else {
        var done := server.transporterListener(data, ctx);
        ctx := done.ctx;
        if done.Threw? {
          return Throws;
        }
      }
      flow := Forward(server, ref);
    }

    method Forward(server: P.Server, ref: nat) returns (flow: Flow)
      modifies this
      ensures Outcome(flow) == P.Forward(server, ref, old(ctx), old(log))
    {
      if server.forward.Some? {
        log := log + [P.Forwarded(ref, ctx.heap(ref))];
        if server.forward.value(ctx.heap(ref)) {
          return Throws;
        }
      }
      return Goes;
    }

    method HandleOnSocketError(server: P.Server) returns (flow: Flow)
      modifies this
      ensures Outcome(flow) == P.HandleError(server, old(ctx), old(log))
    {
      ctx := P.WithError(ctx, true);
      flow := ExecuteMiddleware(server, P.BeforeError);
      if flow == Throws {
        return;
      }
      if ctx.req.socket !in ctx.gone {
        Reply(false);
      }
      ctx := ctx.(gone := ctx.gone + {ctx.req.socket});
      flow := ExecuteMiddleware(server, P.AfterError);
    }

    /** The same with a copy of a request context, which leaves the shared one as it was. */
    method HandleListenerError(server: P.Server, copy: P.Req) returns (flow: Flow)
      modifies this
      ensures Outcome(flow) == P.HandleCopy(server, old(ctx), copy, old(log))
    {
      var shared := ctx.req;
      ctx := ctx.(req := copy);
      flow := HandleOnSocketError(server);
      ctx := ctx.(req := shared);
    }

    /** The `data` listener: one line, what it throws caught; a failed listener's error handled after it if not before. */
    method OnLine(server: P.Server, line: P.Line) returns (flow: Flow)
      modifies this
      ensures Outcome(flow) == P.Receive(server, line, old(ctx))
    {
      log := [];
      flow := HandleLine(server, line);
      var failure := P.Failure(log);
      if flow == Throws {
        flow := HandleOnSocketError(server);
      }
      if !line.failureFirst && failure.Some? {
        flow := HandleListenerError(server, failure.value);
      }
    }
  }
}
