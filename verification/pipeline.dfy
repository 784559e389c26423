/**
 One line of a connection through the server: parsing, the two core checks,
 delivery, and the middleware around them. A middleware is any function of the
 request and response context; it may answer, replace fields, or throw.
 */
module Pipeline {
  import opened Wrappers
  import opened Json
  import opened Crypto
  import ServerChecks

  datatype Phase =
    | BeforeParsing | AfterParsing
    | BeforeSignature | AfterSignature
    | BeforeTrust | AfterTrust
    | BeforeArtifact | AfterArtifact
    | BeforeError | AfterError

  /** The phases of a line in which nothing throws. */
  const ORDER := [
    BeforeParsing, AfterParsing, BeforeSignature, AfterSignature, BeforeTrust, AfterTrust, BeforeArtifact, AfterArtifact]

  /** Where a line of this type goes: into the pipeline, or to be answered at once. */
  datatype Kind = ToPipeline | ControlLine(quit: bool) | LookupLine(found: bool)

  /** What a parsed object holds, its type included; middleware may overwrite it in place. */
  datatype Data = Data(kind: Kind, processed: ServerChecks.Processed, respondNow: bool)

  /** The request context; `data` refers to an object on the heap. */
  datatype Req = Req(data: Option<nat>, error: bool, isValid: bool, isTrusted: bool, socket: nat)

  /**
   The contexts the lines of a connection share, and the heap. `gone` are the
   sockets destroyed or ended; `rest` stands for all else a middleware sees or changes.
   */
  datatype Ctx = Ctx(req: Req, heap: nat -> Data, answered: bool, resSocket: nat, gone: set<nat>, rest: nat)

  datatype Done = Ran(ctx: Ctx) | Threw(ctx: Ctx)

  type Handler = Ctx -> Done

  /** Listeners get the object's content and the contexts; the `true` of the forward handler is a throw. */
  datatype Server = Server(
    middleware: Phase -> seq<Handler>,
    agentListener: (Data, Ctx) -> Done,
    transporterListener: (Data, Ctx) -> Done,
    forward: Option<Data -> bool>)

  datatype Parsed = Bad(partial: Option<Data>) | Good(data: Data)

  /**
   A received line: what it parses to, and the object that becomes; the trust
   store, DNS and clock as they are at each check; and whether the handling of a
   failed agent listener, which nobody awaits, is through before the line goes on.
   */
  datatype Line = Line(
    parsed: Parsed, ref: nat,
    storeAtSignature: ServerChecks.TrustStore, dns: Resolver, storeAtTrust: ServerChecks.TrustStore, now: int,
    failureFirst: bool)

  datatype Event =
    | Middleware(phase: Phase, index: nat, sentAfter: bool)
    | SignatureChecked(ref: nat, data: Data, verdict: Verdict)
    | TrustChecked(ref: nat, data: Data, trusted: bool)
    | Delivered(ref: nat, data: Data)
    | Forwarded(ref: nat, data: Data)
    | ListenerFailed(req: Req)
    | Replied(ok: bool)

  /** How a stretch of the pipeline ends: on to the next, stopped, or thrown. */
  datatype Out = Go(ctx: Ctx, log: seq<Event>) | Stop(ctx: Ctx, log: seq<Event>) | Throw(ctx: Ctx, log: seq<Event>)

  /** `isResponseSent` */
  predicate Sent(c: Ctx) {
    c.resSocket in c.gone || c.answered
  }

  /** `executeMiddleware`, from handler `i` on. */
  function RunList(handlers: seq<Handler>, phase: Phase, i: nat, c: Ctx, log: seq<Event>): Out
    requires i <= |handlers|
    decreases |handlers| - i
  {
    if i == |handlers| then Go(c, log)
    else if Sent(c) then Stop(c, log)
    else
      match handlers[i](c)
      case Threw(c') => Throw(c', log + [Middleware(phase, i, Sent(c'))])
      case Ran(c') =>
        if Sent(c') then Stop(c', log + [Middleware(phase, i, true)])
        else RunList(handlers, phase, i + 1, c', log + [Middleware(phase, i, false)])
  }

  function RunPhase(server: Server, phase: Phase, c: Ctx, log: seq<Event>): Out {
    RunList(server.middleware(phase), phase, 0, c, log)
  }

  function Reply(c: Ctx, log: seq<Event>, ok: bool): Out {
    Stop(c, log + [Replied(ok)])
  }

  /** The parsed object is a new one on the heap. */
  function Made(c: Ctx, ref: nat, data: Data): Ctx {
    var heap := c.heap;
    c.(req := c.req.(data := Some(ref)), heap := (r: nat) => if r == ref then data else heap(r))
  }

  function Parse(c: Ctx, line: Line): Ctx {
    match line.parsed
    case Good(data) => WithError(Made(c, line.ref, data), false)
    case Bad(partial) =>
      WithError(if partial.Some? then Made(c, line.ref, partial.value) else c.(req := c.req.(data := None)), true)
  }

  function WithError(c: Ctx, error: bool): Ctx {
    c.(req := c.req.(error := error))
  }

  /** The line up to where nobody answered: first parsing, with its middleware. */
  function HandleLine(server: Server, line: Line, c: Ctx): Out {
    match RunPhase(server, BeforeParsing, c, [])
    case Go(c, log) =>
      (match RunPhase(server, AfterParsing, Parse(c, line), log)
       case Go(c, log) => Route(server, line, c, log)
       case out => out)
    case out => out
  }

  /** Control and lookup lines are answered here, and end the connection or not; the type is read off the object. */
  function Route(server: Server, line: Line, c: Ctx, log: seq<Event>): Out {
    if line.parsed.Bad? then Reply(c, log, false)
    else
      match c.heap(line.ref).kind
      case ControlLine(quit) => Reply(Ended(c), log, quit)
      case LookupLine(found) => Reply(if found then Ended(c) else c, log, found)
      case ToPipeline => CheckSignature(server, line, c, log)
  }

  function Ended(c: Ctx): Ctx {
    c.(gone := c.gone + {c.resSocket})
  }

  function CheckSignature(server: Server, line: Line, c: Ctx, log: seq<Event>): Out {
    match RunPhase(server, BeforeSignature, c, log)
    case Go(c, log) =>
      if c.req.data.None? then Throw(c, log)
      else
        var ref, data := c.req.data.value, c.heap(c.req.data.value);
        var verdict := ServerChecks.VerifyArtifact(line.storeAtSignature, line.dns, data.processed);
        if verdict == Invalid(Exception) then Throw(c, log + [SignatureChecked(ref, data, verdict)])
        else AfterSignatureCheck(server, line, ref, verdict == Valid, c, log + [SignatureChecked(ref, data, verdict)])
    case out => out
  }

  function SignatureNoted(c: Ctx, valid: bool): Ctx {
    c.(req := c.req.(isValid := valid, error := c.req.error || !valid))
  }

  function AfterSignatureCheck(server: Server, line: Line, ref: nat, valid: bool, c: Ctx, log: seq<Event>): Out {
    match RunPhase(server, AfterSignature, SignatureNoted(c, valid), log)
    case Go(c, log) => if !valid then Reply(c, log, false) else CheckTrust(server, line, ref, c, log)
    case out => out
  }

  function CheckTrust(server: Server, line: Line, ref: nat, c: Ctx, log: seq<Event>): Out {
    match RunPhase(server, BeforeTrust, c, log)
    case Go(c, log) =>
      var trusted := ServerChecks.VerifyTrust(line.storeAtTrust, c.heap(ref).processed, line.now);
      AfterTrustCheck(server, line, ref, trusted, TrustNoted(c, line, ref, trusted), log + [TrustChecked(ref, c.heap(ref), trusted)])
    case out => out
  }

  /** An agent with a record that is not active is refused without an error. */
  function TrustNoted(c: Ctx, line: Line, ref: nat, trusted: bool): Ctx {
    var p := c.heap(ref).processed;
    var errs := !trusted && (p.Agent? ==>
      ServerChecks.RecordFor(line.storeAtTrust, FieldOf(p.artifact, AgentId), FieldOf(p.artifact, To)).None?);
    c.(req := c.req.(isTrusted := trusted, error := c.req.error || errs))
  }

  function AfterTrustCheck(server: Server, line: Line, ref: nat, trusted: bool, c: Ctx, log: seq<Event>): Out {
    match RunPhase(server, AfterTrust, c, log)
    case Go(c, log) => if !trusted then Reply(c, log, false) else Deliver(server, line, ref, c, log)
    case out => out
  }

  function Deliver(server: Server, line: Line, ref: nat, c: Ctx, log: seq<Event>): Out {
    match RunPhase(server, BeforeArtifact, c, log)
    case Go(c, log) =>
      (match ProcessMessage(server, line, ref, c, log + [Delivered(ref, c.heap(ref))])
       case Go(c, log) => Finish(server, c, log)
       case out => out)
    case out => out
  }

  /** `processMessage` */
  function ProcessMessage(server: Server, line: Line, ref: nat, c: Ctx, log: seq<Event>): Out {
    var data := c.heap(ref);
    if data.processed.Agent? then
      match server.agentListener(data, c)
      case Threw(c') => if data.respondNow then ListenerThrew(server, line, ref, c', log + [ListenerFailed(c'.req)]) else Throw(c', log)
      case Ran(c') => if Sent(c') then Stop(c', log) else Forward(server, ref, c', log)
    else
      match server.transporterListener(data, c)
      case Threw(c') => Throw(c', log)
      case Ran(c') => Forward(server, ref, c', log)
  }

  /**
   An awaited agent listener that throws is caught, and the line goes on. Its
   error is handled beside it, on a copy of the request context: either that
   destroys the socket first, or the line is ahead and `Receive` handles the
   error after it.
   */
  function ListenerThrew(server: Server, line: Line, ref: nat, c: Ctx, log: seq<Event>): Out {
    var out := if line.failureFirst then HandleCopy(server, c, c.req, log) else Go(c, log);
    if Sent(out.ctx) then Stop(out.ctx, out.log) else Forward(server, ref, out.ctx, out.log)
  }

  /** Error handling with a copy of a request context in place of the shared one, which it leaves as it was. */
  function HandleCopy(server: Server, c: Ctx, copy: Req, log: seq<Event>): Out {
    var out := HandleError(server, c.(req := copy), log);
    out.(ctx := out.ctx.(req := c.req))
  }

  function Forward(server: Server, ref: nat, c: Ctx, log: seq<Event>): Out {
    if server.forward.None? then Go(c, log)
    else if server.forward.value(c.heap(ref)) then Throw(c, log + [Forwarded(ref, c.heap(ref))])
    else Go(c, log + [Forwarded(ref, c.heap(ref))])
  }

  function Finish(server: Server, c: Ctx, log: seq<Event>): Out {
    match RunPhase(server, AfterArtifact, c, log)
    case Go(c, log) => Reply(c, log, true)
    case out => out
  }

  /** `handleOnSocketError`: it destroys the request's socket between its two middleware lists. */
  function HandleError(server: Server, c: Ctx, log: seq<Event>): Out {
    match RunPhase(server, BeforeError, WithError(c, true), log)
    case Throw(c, log) => Throw(c, log)
    case out => RunPhase(server, AfterError, Destroyed(out.ctx), if out.ctx.req.socket in out.ctx.gone then out.log else out.log + [Replied(false)])
  }

  function Destroyed(c: Ctx): Ctx {
    c.(gone := c.gone + {c.req.socket})
  }

  /** A line with whatever it throws caught, and a failed listener's error handled. */
  function Receive(server: Server, line: Line, c: Ctx): Out {
    var out := HandleLine(server, line, c);
    var caught := if out.Throw? then HandleError(server, out.ctx, out.log) else out;
    if !line.failureFirst && Failure(out.log).Some? then HandleCopy(server, caught.ctx, Failure(out.log).value, caught.log) else caught
  }

  /** The request context at which an awaited listener failed, if one did. */
  function Failure(log: seq<Event>): Option<Req> {
    if log == [] then None else if log[0].ListenerFailed? then Some(log[0].req) else Failure(log[1..])
  }

  // -------------------------------------------------- what is delivered was verified

  predicate HasContent(e: Event) {
    e.SignatureChecked? || e.TrustChecked? || e.Delivered? || e.Forwarded?
  }

  /** The object passed both checks. */
  ghost predicate Passed(log: seq<Event>, ref: nat) {
    SignaturePassed(log, ref) && exists d :: TrustChecked(ref, d, true) in log
  }

  ghost predicate SignaturePassed(log: seq<Event>, ref: nat) {
    exists d :: SignatureChecked(ref, d, Valid) in log
  }

  /** Before an object is delivered or forwarded it passed both checks, and each check says what it found. */
  ghost predicate Justified(line: Line, log: seq<Event>) {
    && (forall i :: 0 <= i < |log| && (log[i].Delivered? || log[i].Forwarded?) ==> Passed(log[..i], log[i].ref))
    && (forall r, d, v :: SignatureChecked(r, d, v) in log ==> v == ServerChecks.VerifyArtifact(line.storeAtSignature, line.dns, d.processed))
    && (forall r, d, t :: TrustChecked(r, d, t) in log ==> t == ServerChecks.VerifyTrust(line.storeAtTrust, d.processed, line.now))
  }

  /** What one may assume of the server, beyond nothing at all. */
  datatype Assumed = Assumed(inPlaceSafe: bool, oneSocket: bool)

  /** From the signature check on, nobody writes into artifact objects. */
  ghost predicate InPlaceSafe(server: Server) {
    && (forall phase, i, c :: !Early(phase) && 0 <= i < |server.middleware(phase)| ==>
          SameHeap(server.middleware(phase)[i](c).ctx, c))
    && (forall d, c :: SameHeap(server.agentListener(d, c).ctx, c))
    && (forall d, c :: SameHeap(server.transporterListener(d, c).ctx, c))
  }

  /** The phases before the signature check. */
  predicate Early(phase: Phase) {
    phase == BeforeParsing || phase == AfterParsing || phase == BeforeSignature
  }

  ghost predicate SameHeap(c': Ctx, c: Ctx) {
    forall r :: c'.heap(r) == c.heap(r)
  }

  /** Nobody replaces the socket of a context. */
  ghost predicate OneSocket(server: Server) {
    && (forall phase, i, c :: 0 <= i < |server.middleware(phase)| ==> SameSockets(server.middleware(phase)[i](c).ctx, c))
    && (forall d, c :: SameSockets(server.agentListener(d, c).ctx, c))
    && (forall d, c :: SameSockets(server.transporterListener(d, c).ctx, c))
  }

  predicate SameSockets(c': Ctx, c: Ctx) {
    c'.req.socket == c.req.socket && c'.resSocket == c.resSocket
  }

  ghost predicate Holds(server: Server, a: Assumed) {
    (a.inPlaceSafe ==> InPlaceSafe(server)) && (a.oneSocket ==> OneSocket(server))
  }

  /** The log is in order, and so is the context as far as the assumptions reach. */
  ghost predicate Sound(line: Line, a: Assumed, c: Ctx, log: seq<Event>) {
    && Justified(line, log)
    && (a.inPlaceSafe ==> forall i :: 0 <= i < |log| && HasContent(log[i]) ==> c.heap(log[i].ref) == log[i].data)
    && (a.oneSocket ==> c.req.socket == c.resSocket && forall i :: 0 <= i < |log| ==> Quiet(log[i], c.resSocket))
  }

  /** No middleware after onError, and no copy with another socket. */
  predicate Quiet(e: Event, socket: nat) {
    (e.Middleware? ==> e.phase != AfterError) && (e.ListenerFailed? ==> e.req.socket == socket)
  }

  predicate NoContent(log: seq<Event>) {
    forall i :: 0 <= i < |log| ==> !HasContent(log[i])
  }

  lemma PassedMore(log: seq<Event>, log': seq<Event>, ref: nat)
    requires log <= log'
    ensures SignaturePassed(log, ref) ==> SignaturePassed(log', ref)
    ensures Passed(log, ref) ==> Passed(log', ref)
  {
    if SignaturePassed(log, ref) {
      var d :| SignatureChecked(ref, d, Valid) in log;
      assert SignatureChecked(ref, d, Valid) in log';
    }
    if Passed(log, ref) {
      var d :| TrustChecked(ref, d, true) in log;
      assert TrustChecked(ref, d, true) in log';
    }
  }

  lemma JustifiedMore(line: Line, log: seq<Event>, e: Event)
    requires Justified(line, log)
    requires e.Delivered? || e.Forwarded? ==> Passed(log, e.ref)
    requires e.SignatureChecked? ==> e.verdict == ServerChecks.VerifyArtifact(line.storeAtSignature, line.dns, e.data.processed)
    requires e.TrustChecked? ==> e.trusted == ServerChecks.VerifyTrust(line.storeAtTrust, e.data.processed, line.now)
    ensures Justified(line, log + [e])
  {
    var log' := log + [e];
    forall i | 0 <= i < |log'| && (log'[i].Delivered? || log'[i].Forwarded?) ensures Passed(log'[..i], log'[i].ref) {
      assert log'[..i] == log[..i];
      assert i == |log| ==> log[..i] == log;
    }
  }

  /** One more event, and a context that kept its heap and its sockets. */
  lemma SoundMore(line: Line, a: Assumed, c: Ctx, log: seq<Event>, c': Ctx, e: Event)
    requires Sound(line, a, c, log)
    requires a.inPlaceSafe ==> NoContent(log) || SameHeap(c', c)
    requires a.inPlaceSafe && HasContent(e) ==> c'.heap(e.ref) == e.data
    requires a.oneSocket ==> SameSockets(c', c) && Quiet(e, c.resSocket)
    requires e.Delivered? || e.Forwarded? ==> Passed(log, e.ref)
    requires e.SignatureChecked? ==> e.verdict == ServerChecks.VerifyArtifact(line.storeAtSignature, line.dns, e.data.processed)
    requires e.TrustChecked? ==> e.trusted == ServerChecks.VerifyTrust(line.storeAtTrust, e.data.processed, line.now)
    ensures Sound(line, a, c', log + [e])
  {
    JustifiedMore(line, log, e);
  }

  /** A middleware list only adds to the log. */
  lemma {:induction false} ListGrows(handlers: seq<Handler>, phase: Phase, i: nat, c: Ctx, log: seq<Event>)
    requires i <= |handlers|
    ensures log <= RunList(handlers, phase, i, c, log).log
    decreases |handlers| - i
  {
    if i < |handlers| && !Sent(c) {
      var done := handlers[i](c);
      if done.Ran? && !Sent(done.ctx) {
        ListGrows(handlers, phase, i + 1, done.ctx, log + [Middleware(phase, i, false)]);
      }
    }
  }

  lemma {:induction false} ListNoContent(handlers: seq<Handler>, phase: Phase, i: nat, c: Ctx, log: seq<Event>)
    requires i <= |handlers| && NoContent(log)
    ensures NoContent(RunList(handlers, phase, i, c, log).log)
    decreases |handlers| - i
  {
    if i < |handlers| && !Sent(c) {
      var done := handlers[i](c);
      if done.Ran? && !Sent(done.ctx) {
        ListNoContent(handlers, phase, i + 1, done.ctx, log + [Middleware(phase, i, false)]);
      }
    }
  }

  lemma {:induction false} ListSound(server: Server, line: Line, a: Assumed, phase: Phase, i: nat, c: Ctx, log: seq<Event>)
    requires i <= |server.middleware(phase)| && Holds(server, a) && Sound(line, a, c, log)
    requires (Early(phase) ==> NoContent(log)) && (a.oneSocket ==> phase != AfterError)
    ensures var out := RunList(server.middleware(phase), phase, i, c, log);
            Sound(line, a, out.ctx, out.log) && (a.oneSocket ==> SameSockets(out.ctx, c))
    decreases |server.middleware(phase)| - i
  {
    if i < |server.middleware(phase)| && !Sent(c) {
      var done := server.middleware(phase)[i](c);
      var e := Middleware(phase, i, Sent(done.ctx));
      assert a.oneSocket ==> SameSockets(done.ctx, c);
      assert a.inPlaceSafe && !Early(phase) ==> SameHeap(done.ctx, c);
      SoundMore(line, a, c, log, done.ctx, e);
      if done.Ran? && !Sent(done.ctx) {
        ListSound(server, line, a, phase, i + 1, done.ctx, log + [e]);
      }
    }
  }

  lemma PhaseSound(server: Server, line: Line, a: Assumed, phase: Phase, c: Ctx, log: seq<Event>, ref: nat)
    requires Holds(server, a) && Sound(line, a, c, log)
    requires (Early(phase) ==> NoContent(log)) && (a.oneSocket ==> phase != AfterError)
    ensures var out := RunPhase(server, phase, c, log);
            && Sound(line, a, out.ctx, out.log) && log <= out.log && (a.oneSocket ==> SameSockets(out.ctx, c))
            && (NoContent(log) ==> NoContent(out.log))
            && (SignaturePassed(log, ref) ==> SignaturePassed(out.log, ref)) && (Passed(log, ref) ==> Passed(out.log, ref))
  {
    ListSound(server, line, a, phase, 0, c, log);
    ListGrows(server.middleware(phase), phase, 0, c, log);
    if NoContent(log) {
      ListNoContent(server.middleware(phase), phase, 0, c, log);
    }
    PassedMore(log, RunPhase(server, phase, c, log).log, ref);
  }

  /** Error handling: with one socket its second list meets a destroyed one and runs nothing. */
  lemma ErrorSound(server: Server, line: Line, a: Assumed, c: Ctx, log: seq<Event>, ref: nat)
    requires Holds(server, a) && Sound(line, a, c, log)
    ensures var out := HandleError(server, c, log);
            && Sound(line, a, out.ctx, out.log) && log <= out.log && (Passed(log, ref) ==> Passed(out.log, ref))
            && (a.oneSocket ==> SameSockets(out.ctx, c))
  {
    var noted := WithError(c, true);
    PhaseSound(server, line, a, BeforeError, noted, log, ref);
    var before := RunPhase(server, BeforeError, noted, log);
    if !before.Throw? {
      var gone := Destroyed(before.ctx);
      SoundMore(line, a, before.ctx, before.log, gone, Replied(false));
      var log' := if before.ctx.req.socket in before.ctx.gone then before.log else before.log + [Replied(false)];
      assert Sound(line, a, gone, log') && log <= log';
      PassedMore(log, log', ref);
      if a.oneSocket {
        SentPhase(server, AfterError, gone, log');
      } else {
        PhaseSound(server, line, a, AfterError, gone, log', ref);
      }
    }
  }

  lemma CopySound(server: Server, line: Line, a: Assumed, c: Ctx, copy: Req, log: seq<Event>, ref: nat)
    requires Holds(server, a) && Sound(line, a, c, log) && (a.oneSocket ==> copy.socket == c.resSocket)
    ensures var out := HandleCopy(server, c, copy, log);
            Sound(line, a, out.ctx, out.log) && log <= out.log && (Passed(log, ref) ==> Passed(out.log, ref))
  {
    assert Sound(line, a, c.(req := copy), log);
    ErrorSound(server, line, a, c.(req := copy), log, ref);
  }

  lemma ForwardSound(server: Server, line: Line, a: Assumed, ref: nat, c: Ctx, log: seq<Event>)
    requires Sound(line, a, c, log) && Passed(log, ref)
    ensures var out := Forward(server, ref, c, log);
            Sound(line, a, out.ctx, out.log) && log <= out.log
  {
    SoundMore(line, a, c, log, c, Forwarded(ref, c.heap(ref)));
  }

  lemma ListenerSound(server: Server, line: Line, a: Assumed, ref: nat, c: Ctx, log: seq<Event>)
    requires Holds(server, a) && Sound(line, a, c, log) && Passed(log, ref)
    ensures var out := ListenerThrew(server, line, ref, c, log);
            Sound(line, a, out.ctx, out.log) && log <= out.log
  {
    CopySound(server, line, a, c, c.req, log, ref);
    var out := if line.failureFirst then HandleCopy(server, c, c.req, log) else Go(c, log);
    ForwardSound(server, line, a, ref, out.ctx, out.log);
  }

  lemma ProcessSound(server: Server, line: Line, a: Assumed, ref: nat, c: Ctx, log: seq<Event>)
    requires Holds(server, a) && Sound(line, a, c, log) && Passed(log, ref)
    ensures var out := ProcessMessage(server, line, ref, c, log);
            Sound(line, a, out.ctx, out.log) && log <= out.log
  {
    var data := c.heap(ref);
    var done := if data.processed.Agent? then server.agentListener(data, c) else server.transporterListener(data, c);
    assert a.oneSocket ==> SameSockets(done.ctx, c);
    assert a.inPlaceSafe ==> SameHeap(done.ctx, c);
    assert Sound(line, a, done.ctx, log);
    ForwardSound(server, line, a, ref, done.ctx, log);
    if done.Threw? && data.processed.Agent? && data.respondNow {
      var e := ListenerFailed(done.ctx.req);
      SoundMore(line, a, done.ctx, log, done.ctx, e);
      PassedMore(log, log + [e], ref);
      ListenerSound(server, line, a, ref, done.ctx, log + [e]);
    }
  }

  lemma DeliverSound(server: Server, line: Line, a: Assumed, ref: nat, c: Ctx, log: seq<Event>)
    requires Holds(server, a) && Sound(line, a, c, log) && Passed(log, ref)
    ensures var out := Deliver(server, line, ref, c, log);
            Sound(line, a, out.ctx, out.log)
  {
    PhaseSound(server, line, a, BeforeArtifact, c, log, ref);
    var before := RunPhase(server, BeforeArtifact, c, log);
    if before.Go? {
      var e := Delivered(ref, before.ctx.heap(ref));
      SoundMore(line, a, before.ctx, before.log, before.ctx, e);
      PassedMore(before.log, before.log + [e], ref);
      ProcessSound(server, line, a, ref, before.ctx, before.log + [e]);
      var processed := ProcessMessage(server, line, ref, before.ctx, before.log + [e]);
      if processed.Go? {
        FinishSound(server, line, a, processed.ctx, processed.log, ref);
      }
    }
  }

  lemma FinishSound(server: Server, line: Line, a: Assumed, c: Ctx, log: seq<Event>, ref: nat)
    requires Holds(server, a) && Sound(line, a, c, log)
    ensures var out := Finish(server, c, log);
            Sound(line, a, out.ctx, out.log)
  {
    PhaseSound(server, line, a, AfterArtifact, c, log, ref);
    var after := RunPhase(server, AfterArtifact, c, log);
    SoundMore(line, a, after.ctx, after.log, after.ctx, Replied(true));
  }

  lemma TrustSound(server: Server, line: Line, a: Assumed, ref: nat, c: Ctx, log: seq<Event>)
    requires Holds(server, a) && Sound(line, a, c, log) && SignaturePassed(log, ref)
    ensures var out := CheckTrust(server, line, ref, c, log);
            Sound(line, a, out.ctx, out.log)
  {
    PhaseSound(server, line, a, BeforeTrust, c, log, ref);
    var before := RunPhase(server, BeforeTrust, c, log);
    if before.Go? {
      var trusted := ServerChecks.VerifyTrust(line.storeAtTrust, before.ctx.heap(ref).processed, line.now);
      var noted, e := TrustNoted(before.ctx, line, ref, trusted), TrustChecked(ref, before.ctx.heap(ref), trusted);
      SoundMore(line, a, before.ctx, before.log, noted, e);
      PassedMore(before.log, before.log + [e], ref);
      assert trusted ==> e in before.log + [e] && Passed(before.log + [e], ref);
      AfterTrustSound(server, line, a, ref, trusted, noted, before.log + [e]);
    }
  }

  lemma AfterTrustSound(server: Server, line: Line, a: Assumed, ref: nat, trusted: bool, c: Ctx, log: seq<Event>)
    requires Holds(server, a) && Sound(line, a, c, log) && (trusted ==> Passed(log, ref))
    ensures var out := AfterTrustCheck(server, line, ref, trusted, c, log);
            Sound(line, a, out.ctx, out.log)
  {
    PhaseSound(server, line, a, AfterTrust, c, log, ref);
    var after := RunPhase(server, AfterTrust, c, log);
    if after.Go? {
      SoundMore(line, a, after.ctx, after.log, after.ctx, Replied(false));
      if trusted {
        DeliverSound(server, line, a, ref, after.ctx, after.log);
      }
    }
  }

  lemma SignatureSound(server: Server, line: Line, a: Assumed, c: Ctx, log: seq<Event>)
    requires Holds(server, a) && Sound(line, a, c, log) && NoContent(log)
    ensures var out := CheckSignature(server, line, c, log);
            Sound(line, a, out.ctx, out.log)
  {
    PhaseSound(server, line, a, BeforeSignature, c, log, 0);
    var before := RunPhase(server, BeforeSignature, c, log);
    if before.Go? && before.ctx.req.data.Some? {
      var ref := before.ctx.req.data.value;
      var data := before.ctx.heap(ref);
      var verdict := ServerChecks.VerifyArtifact(line.storeAtSignature, line.dns, data.processed);
      var e := SignatureChecked(ref, data, verdict);
      SoundMore(line, a, before.ctx, before.log, before.ctx, e);
      assert verdict == Valid ==> e in before.log + [e] && SignaturePassed(before.log + [e], ref);
      AfterSignatureSound(server, line, a, ref, verdict == Valid, before.ctx, before.log + [e]);
    }
  }

  lemma AfterSignatureSound(server: Server, line: Line, a: Assumed, ref: nat, valid: bool, c: Ctx, log: seq<Event>)
    requires Holds(server, a) && Sound(line, a, c, log) && (valid ==> SignaturePassed(log, ref))
    ensures var out := AfterSignatureCheck(server, line, ref, valid, c, log);
            Sound(line, a, out.ctx, out.log)
  {
    var noted := SignatureNoted(c, valid);
    PhaseSound(server, line, a, AfterSignature, noted, log, ref);
    var after := RunPhase(server, AfterSignature, noted, log);
    if after.Go? {
      SoundMore(line, a, after.ctx, after.log, after.ctx, Replied(false));
      if valid {
        TrustSound(server, line, a, ref, after.ctx, after.log);
      }
    }
  }

  lemma RouteSound(server: Server, line: Line, a: Assumed, c: Ctx, log: seq<Event>)
    requires Holds(server, a) && Sound(line, a, c, log) && NoContent(log)
    ensures var out := Route(server, line, c, log);
            Sound(line, a, out.ctx, out.log)
  {
    SoundMore(line, a, c, log, c, Replied(false));
    SoundMore(line, a, c, log, Ended(c), Replied(false));
    SoundMore(line, a, c, log, Ended(c), Replied(true));
    SignatureSound(server, line, a, c, log);
  }

  lemma LineSound(server: Server, line: Line, a: Assumed, c: Ctx)
    requires Holds(server, a) && (a.oneSocket ==> c.req.socket == c.resSocket)
    ensures var out := HandleLine(server, line, c);
            Sound(line, a, out.ctx, out.log)
  {
    PhaseSound(server, line, a, BeforeParsing, c, [], 0);
    var before := RunPhase(server, BeforeParsing, c, []);
    if before.Go? {
      var parsed := Parse(before.ctx, line);
      PhaseSound(server, line, a, AfterParsing, parsed, before.log, 0);
      var after := RunPhase(server, AfterParsing, parsed, before.log);
      if after.Go? {
        RouteSound(server, line, a, after.ctx, after.log);
      }
    }
  }

  lemma ReceiveSound(server: Server, line: Line, a: Assumed, c: Ctx)
    requires Holds(server, a) && (a.oneSocket ==> c.req.socket == c.resSocket)
    ensures var out := Receive(server, line, c);
            Sound(line, a, out.ctx, out.log)
  {
    LineSound(server, line, a, c);
    var out := HandleLine(server, line, c);
    ErrorSound(server, line, a, out.ctx, out.log, 0);
    var caught := if out.Throw? then HandleError(server, out.ctx, out.log) else out;
    var failure := Failure(out.log);
    if failure.Some? {
      FailureIsLogged(out.log);
      CopySound(server, line, a, caught.ctx, failure.value, caught.log, 0);
    }
  }

  lemma {:induction false} FailureIsLogged(log: seq<Event>)
    ensures Failure(log).Some? <==> exists i :: 0 <= i < |log| && log[i].ListenerFailed?
    ensures Failure(log).Some? ==> ListenerFailed(Failure(log).value) in log
  {
    if log != [] {
      FailureIsLogged(log[1..]);
      assert log == [log[0]] + log[1..];
      assert forall i :: 0 < i < |log| ==> log[i] == log[1..][i - 1];
    }
  }

  /** A failure stays in the log. */
  lemma FailureStays(log: seq<Event>, log': seq<Event>)
    requires log <= log' && Failure(log).Some?
    ensures Failure(log').Some?
  {
    FailureIsLogged(log);
    FailureIsLogged(log');
    var i :| 0 <= i < |log| && log[i].ListenerFailed?;
    assert log'[i].ListenerFailed?;
  }

  /**
   Whatever middleware and listeners do, and with whatever error handling in
   between: listeners and the forward handler only get an object for which,
   earlier in this line, the signature check and the trust check both answered
   yes on what it held at the time.
   */
  lemma OnlyVerifiedIsDelivered(server: Server, line: Line, c: Ctx, i: nat)
    requires var log := Receive(server, line, c).log;
             i < |log| && (log[i].Delivered? || log[i].Forwarded?)
    ensures var log := Receive(server, line, c).log;
            exists d, d' ::
              && SignatureChecked(log[i].ref, d, Valid) in log[..i]
              && TrustChecked(log[i].ref, d', true) in log[..i]
              && ServerChecks.VerifyArtifact(line.storeAtSignature, line.dns, d.processed) == Valid
              && ServerChecks.VerifyTrust(line.storeAtTrust, d'.processed, line.now)
  {
    ReceiveSound(server, line, Assumed(false, false), c);
    var log := Receive(server, line, c).log;
    assert Passed(log[..i], log[i].ref);
    var d :| SignatureChecked(log[i].ref, d, Valid) in log[..i];
    var d' :| TrustChecked(log[i].ref, d', true) in log[..i];
    assert SignatureChecked(log[i].ref, d, Valid) in log && TrustChecked(log[i].ref, d', true) in log;
  }

  /** If nobody writes into artifacts from the signature check on, the content delivered is the very content both checks passed. */
  lemma DeliveredAsChecked(server: Server, line: Line, c: Ctx, i: nat)
    requires InPlaceSafe(server)
    requires var log := Receive(server, line, c).log;
             i < |log| && (log[i].Delivered? || log[i].Forwarded?)
    ensures var e := Receive(server, line, c).log[i];
            && ServerChecks.VerifyArtifact(line.storeAtSignature, line.dns, e.data.processed) == Valid
            && ServerChecks.VerifyTrust(line.storeAtTrust, e.data.processed, line.now)
  {
    ReceiveSound(server, line, Assumed(true, false), c);
    OnlyVerifiedIsDelivered(server, line, c, i);
    var log := Receive(server, line, c).log;
    assert forall e :: e in log[..i] ==> e in log;
    var d, d' :| SignatureChecked(log[i].ref, d, Valid) in log[..i] && TrustChecked(log[i].ref, d', true) in log[..i];
    assert HasContent(SignatureChecked(log[i].ref, d, Valid)) && HasContent(TrustChecked(log[i].ref, d', true));
  }

  /** With one socket for both contexts, middleware registered after onError never runs: the socket is destroyed before its turn. */
  lemma AfterErrorNeverRuns(server: Server, line: Line, c: Ctx, i: nat)
    requires OneSocket(server) && c.req.socket == c.resSocket
    requires var log := Receive(server, line, c).log;
             i < |log| && log[i].Middleware?
    ensures Receive(server, line, c).log[i].phase != AfterError
  {
    ReceiveSound(server, line, Assumed(false, true), c);
  }

  /** In error handling that does not throw again, the list after onError starts exactly if the first one left the response another, live socket. */
  lemma AfterErrorRunsIff(server: Server, c: Ctx, log: seq<Event>)
    requires !RunPhase(server, BeforeError, WithError(c, true), log).Throw? && server.middleware(AfterError) != []
    ensures var before := RunPhase(server, BeforeError, WithError(c, true), log);
            var log' := if before.ctx.req.socket in before.ctx.gone then before.log else before.log + [Replied(false)];
            HandleError(server, c, log).log != log' <==>
              before.ctx.resSocket != before.ctx.req.socket && !Sent(before.ctx)
  {
    var before := RunPhase(server, BeforeError, WithError(c, true), log);
    var log' := if before.ctx.req.socket in before.ctx.gone then before.log else before.log + [Replied(false)];
    var gone := Destroyed(before.ctx);
    if Sent(gone) {
      SentPhase(server, AfterError, gone, log');
    } else {
      StartedGrows(server, AfterError, gone, log');
    }
  }

  lemma StartedGrows(server: Server, phase: Phase, c: Ctx, log: seq<Event>)
    requires !Sent(c) && server.middleware(phase) != []
    ensures |RunPhase(server, phase, c, log).log| > |log|
  {
    var done := server.middleware(phase)[0](c);
    if done.Ran? && !Sent(done.ctx) {
      ListGrows(server.middleware(phase), phase, 1, done.ctx, log + [Middleware(phase, 0, false)]);
    }
  }

  /** A middleware list met with the response sent runs nothing, and stops the line unless it is empty. */
  lemma SentPhase(server: Server, phase: Phase, c: Ctx, log: seq<Event>)
    requires Sent(c)
    ensures RunPhase(server, phase, c, log) == if server.middleware(phase) == [] then Go(c, log) else Stop(c, log)
  {
  }

  // ------------------------------------------------- which middleware a line executes

  /** The middleware a log executed, in order. */
  function Executed(log: seq<Event>): seq<(Phase, nat)>
    decreases |log|
  {
    if log == [] then []
    else
      var e := log[|log| - 1];
      Executed(log[..|log| - 1]) + if e.Middleware? then [(e.phase, e.index)] else []
  }

  /** The places of the first `n` middlewares of a phase. */
  function PhaseSlots(phase: Phase, n: nat): seq<(Phase, nat)> {
    if n == 0 then [] else PhaseSlots(phase, n - 1) + [(phase, n - 1)]
  }

  /** The lists of the first `k` phases, one after the other. */
  function Slots(server: Server, k: nat): seq<(Phase, nat)>
    requires k <= |ORDER|
  {
    if k == 0 then [] else Slots(server, k - 1) + PhaseSlots(ORDER[k - 1], |server.middleware(ORDER[k - 1])|)
  }

  /** No middleware of the log left the line answered. */
  predicate Unanswered(log: seq<Event>) {
    forall i :: 0 <= i < |log| && log[i].Middleware? ==> !log[i].sentAfter
  }

  /** A middleware that left the line answered is the very last event. */
  predicate EndsAtAnswer(log: seq<Event>) {
    forall i :: 0 <= i < |log| - 1 && log[i].Middleware? ==> !log[i].sentAfter
  }

  /** The first `k` phases are through, and nobody answered. */
  ghost predicate Through(server: Server, log: seq<Event>, k: nat)
    requires k <= |ORDER|
  {
    Executed(log) == Slots(server, k) && Unanswered(log)
  }

  /** What a line that is over may have executed. */
  ghost predicate Prefix(server: Server, log: seq<Event>) {
    Executed(log) <= Slots(server, |ORDER|) && EndsAtAnswer(log)
  }

  lemma {:induction false} SlotsGrow(server: Server, k: nat, n: nat)
    requires k <= n <= |ORDER|
    ensures Slots(server, k) <= Slots(server, n)
  {
    if k < n {
      SlotsGrow(server, k, n - 1);
    }
  }

  lemma {:induction false} PhaseSlotsGrow(phase: Phase, i: nat, n: nat)
    requires i <= n
    ensures PhaseSlots(phase, i) <= PhaseSlots(phase, n)
  {
    if i < n {
      PhaseSlotsGrow(phase, i, n - 1);
    }
  }

  lemma ExecutedMore(log: seq<Event>, e: Event)
    ensures Executed(log + [e]) == Executed(log) + if e.Middleware? then [(e.phase, e.index)] else []
  {
    assert (log + [e])[..|log|] == log;
  }

  lemma PartOfPhase(base: seq<(Phase, nat)>, phase: Phase, i: nat, n: nat)
    requires i <= n
    ensures base + PhaseSlots(phase, i) <= base + PhaseSlots(phase, n)
  {
    PhaseSlotsGrow(phase, i, n);
  }

  /** One more middleware executed: the last one may have answered. */
  lemma OneMore(log: seq<Event>, base: seq<(Phase, nat)>, phase: Phase, i: nat, sent: bool)
    requires Executed(log) == base + PhaseSlots(phase, i) && Unanswered(log)
    ensures var log' := log + [Middleware(phase, i, sent)];
            && Executed(log') == base + PhaseSlots(phase, i + 1) && EndsAtAnswer(log')
            && (!sent ==> Unanswered(log'))
  {
    ExecutedMore(log, Middleware(phase, i, sent));
  }

  /** After `base` and `i` middlewares of a phase: all of the phase, or a part of it. */
  lemma {:induction false} ListExecutes(handlers: seq<Handler>, phase: Phase, i: nat, c: Ctx, log: seq<Event>, base: seq<(Phase, nat)>)
    requires i <= |handlers| && Executed(log) == base + PhaseSlots(phase, i) && Unanswered(log)
    ensures var out, all := RunList(handlers, phase, i, c, log), base + PhaseSlots(phase, |handlers|);
            && (out.Go? ==> Executed(out.log) == all && Unanswered(out.log))
            && (out.Stop? ==> Executed(out.log) <= all && EndsAtAnswer(out.log))
    decreases |handlers| - i
  {
    PartOfPhase(base, phase, i, |handlers|);
    if i < |handlers| && !Sent(c) {
      var done := handlers[i](c);
      OneMore(log, base, phase, i, Sent(done.ctx));
      PartOfPhase(base, phase, i + 1, |handlers|);
      if done.Ran? && !Sent(done.ctx) {
        ListExecutes(handlers, phase, i + 1, done.ctx, log + [Middleware(phase, i, false)], base);
      }
    }
  }

  lemma PhasePrefix(server: Server, k: nat, c: Ctx, log: seq<Event>)
    requires k < |ORDER| && Through(server, log, k)
    ensures var out := RunPhase(server, ORDER[k], c, log);
            && (out.Go? ==> Through(server, out.log, k + 1))
            && (out.Stop? ==> Prefix(server, out.log))
  {
    ListExecutes(server.middleware(ORDER[k]), ORDER[k], 0, c, log, Slots(server, k));
    SlotsGrow(server, k + 1, |ORDER|);
  }

  /** An event of the core between two phases. */
  lemma CoreEvent(server: Server, log: seq<Event>, k: nat, e: Event)
    requires k <= |ORDER| && Through(server, log, k) && !e.Middleware?
    ensures Through(server, log + [e], k) && Prefix(server, log + [e])
  {
    ExecutedMore(log, e);
    SlotsGrow(server, k, |ORDER|);
  }

  lemma ErrorGrows(server: Server, c: Ctx, log: seq<Event>)
    ensures log <= HandleError(server, c, log).log
  {
    ListGrows(server.middleware(BeforeError), BeforeError, 0, WithError(c, true), log);
    var before := RunPhase(server, BeforeError, WithError(c, true), log);
    ListGrows(server.middleware(AfterError), AfterError, 0, Destroyed(before.ctx),
              if before.ctx.req.socket in before.ctx.gone then before.log else before.log + [Replied(false)]);
  }

  /** A message that no listener fails on adds at most that it was forwarded; a failure stays in the log. */
  lemma ProcessGrows(server: Server, line: Line, ref: nat, c: Ctx, log: seq<Event>)
    ensures var out := ProcessMessage(server, line, ref, c, log);
            && log <= out.log
            && (Failure(out.log).None? ==> out.log == log || exists d :: out.log == log + [Forwarded(ref, d)])
  {
    var data := c.heap(ref);
    if data.processed.Agent? && data.respondNow && server.agentListener(data, c).Threw? {
      var c' := server.agentListener(data, c).ctx;
      var log' := log + [ListenerFailed(c'.req)];
      ErrorGrows(server, c'.(req := c'.req), log');
      FailureIsLogged(log');
      assert log'[|log|].ListenerFailed?;
      FailureStays(log', ListenerThrew(server, line, ref, c', log').log);
    }
  }

  lemma DeliverPrefix(server: Server, line: Line, ref: nat, c: Ctx, log: seq<Event>)
    requires Through(server, log, 6)
    ensures var out := Deliver(server, line, ref, c, log);
            !out.Throw? && Failure(out.log).None? ==> Prefix(server, out.log)
  {
    PhasePrefix(server, 6, c, log);
    var before := RunPhase(server, BeforeArtifact, c, log);
    if before.Go? {
      var delivered := before.log + [Delivered(ref, before.ctx.heap(ref))];
      var processed := ProcessMessage(server, line, ref, before.ctx, delivered);
      CoreEvent(server, before.log, 7, Delivered(ref, before.ctx.heap(ref)));
      ProcessGrows(server, line, ref, before.ctx, delivered);
      ListGrows(server.middleware(AfterArtifact), AfterArtifact, 0, processed.ctx, processed.log);
      if Failure(processed.log).None? {
        ProcessedPrefix(server, ref, processed, delivered);
      } else {
        FailureStays(processed.log, Deliver(server, line, ref, c, log).log);
      }
    }
  }

  lemma ProcessedPrefix(server: Server, ref: nat, processed: Out, log: seq<Event>)
    requires Through(server, log, 7)
    requires processed.log == log || exists d :: processed.log == log + [Forwarded(ref, d)]
    ensures Prefix(server, processed.log)
    ensures processed.Go? && !Finish(server, processed.ctx, processed.log).Throw? ==>
              Prefix(server, Finish(server, processed.ctx, processed.log).log)
  {
    SlotsGrow(server, 7, |ORDER|);
    if processed.log != log {
      var d :| processed.log == log + [Forwarded(ref, d)];
      CoreEvent(server, log, 7, Forwarded(ref, d));
    }
    PhasePrefix(server, 7, processed.ctx, processed.log);
    var after := RunPhase(server, AfterArtifact, processed.ctx, processed.log);
    if after.Go? {
      CoreEvent(server, after.log, 8, Replied(true));
    }
  }

  lemma TrustPrefix(server: Server, line: Line, ref: nat, c: Ctx, log: seq<Event>)
    requires Through(server, log, 4)
    ensures var out := CheckTrust(server, line, ref, c, log);
            !out.Throw? && Failure(out.log).None? ==> Prefix(server, out.log)
  {
    PhasePrefix(server, 4, c, log);
    var before := RunPhase(server, BeforeTrust, c, log);
    if before.Go? {
      var trusted := ServerChecks.VerifyTrust(line.storeAtTrust, before.ctx.heap(ref).processed, line.now);
      var e, noted := TrustChecked(ref, before.ctx.heap(ref), trusted), TrustNoted(before.ctx, line, ref, trusted);
      CoreEvent(server, before.log, 5, e);
      PhasePrefix(server, 5, noted, before.log + [e]);
      var after := RunPhase(server, AfterTrust, noted, before.log + [e]);
      if after.Go? {
        CoreEvent(server, after.log, 6, Replied(false));
        DeliverPrefix(server, line, ref, after.ctx, after.log);
      }
    }
  }

  lemma SignaturePrefix(server: Server, line: Line, c: Ctx, log: seq<Event>)
    requires Through(server, log, 2)
    ensures var out := CheckSignature(server, line, c, log);
            !out.Throw? && Failure(out.log).None? ==> Prefix(server, out.log)
  {
    PhasePrefix(server, 2, c, log);
    var before := RunPhase(server, BeforeSignature, c, log);
    if before.Go? && before.ctx.req.data.Some? {
      var ref := before.ctx.req.data.value;
      var data := before.ctx.heap(ref);
      var verdict := ServerChecks.VerifyArtifact(line.storeAtSignature, line.dns, data.processed);
      CoreEvent(server, before.log, 3, SignatureChecked(ref, data, verdict));
      AfterSignaturePrefix(server, line, ref, verdict == Valid, before.ctx, before.log + [SignatureChecked(ref, data, verdict)]);
    }
  }

  lemma AfterSignaturePrefix(server: Server, line: Line, ref: nat, valid: bool, c: Ctx, log: seq<Event>)
    requires Through(server, log, 3)
    ensures var out := AfterSignatureCheck(server, line, ref, valid, c, log);
            !out.Throw? && Failure(out.log).None? ==> Prefix(server, out.log)
  {
    var noted := SignatureNoted(c, valid);
    PhasePrefix(server, 3, noted, log);
    var after := RunPhase(server, AfterSignature, noted, log);
    if after.Go? {
      CoreEvent(server, after.log, 4, Replied(false));
      TrustPrefix(server, line, ref, after.ctx, after.log);
    }
  }

  lemma RoutePrefix(server: Server, line: Line, c: Ctx, log: seq<Event>)
    requires Through(server, log, 2)
    ensures var out := Route(server, line, c, log);
            !out.Throw? && Failure(out.log).None? ==> Prefix(server, out.log)
  {
    CoreEvent(server, log, 2, Replied(false));
    CoreEvent(server, log, 2, Replied(true));
    SignaturePrefix(server, line, c, log);
  }

  /**
   When nothing throws, the middleware executed for a line is a prefix of the
   eight phase lists one after the other, and once one of them leaves the line
   answered nothing more happens to it.
   */
  lemma ExecutedIsPrefix(server: Server, line: Line, c: Ctx)
    requires !HandleLine(server, line, c).Throw? && Failure(HandleLine(server, line, c).log).None?
    ensures var log := Receive(server, line, c).log;
            && Executed(log) <= Slots(server, |ORDER|)
            && forall i :: 0 <= i < |log| && log[i].Middleware? && log[i].sentAfter ==> i == |log| - 1
  {
    PhasePrefix(server, 0, c, []);
    var before := RunPhase(server, BeforeParsing, c, []);
    if before.Go? {
      ParsedPrefix(server, line, Parse(before.ctx, line), before.log);
    }
  }

  lemma ParsedPrefix(server: Server, line: Line, c: Ctx, log: seq<Event>)
    requires Through(server, log, 1)
    ensures var out := RunPhase(server, AfterParsing, c, log);
            && (out.Stop? ==> Prefix(server, out.log))
            && (out.Go? ==>
                  var routed := Route(server, line, out.ctx, out.log);
                  !routed.Throw? && Failure(routed.log).None? ==> Prefix(server, routed.log))
  {
    PhasePrefix(server, 1, c, log);
    var after := RunPhase(server, AfterParsing, c, log);
    if after.Go? {
      RoutePrefix(server, line, after.ctx, after.log);
    }
  }

  // ------------------------------------------------------- after a line was answered

  lemma SentDeliver(server: Server, line: Line, ref: nat, c: Ctx, log: seq<Event>)
    requires Sent(c) && Delivered(ref, c.heap(ref)) !in log
    ensures Delivered(ref, c.heap(ref)) in Deliver(server, line, ref, c, log).log <==> server.middleware(BeforeArtifact) == []
  {
    SentPhase(server, BeforeArtifact, c, log);
    var delivered := log + [Delivered(ref, c.heap(ref))];
    var processed := ProcessMessage(server, line, ref, c, delivered);
    ProcessGrows(server, line, ref, c, delivered);
    assert Delivered(ref, c.heap(ref)) in delivered;
    ListGrows(server.middleware(AfterArtifact), AfterArtifact, 0, processed.ctx, processed.log);
  }

  lemma SentTrust(server: Server, line: Line, ref: nat, c: Ctx, log: seq<Event>)
    requires Sent(c) && Delivered(ref, c.heap(ref)) !in log
    requires ServerChecks.VerifyTrust(line.storeAtTrust, c.heap(ref).processed, line.now)
    ensures Delivered(ref, c.heap(ref)) in CheckTrust(server, line, ref, c, log).log <==>
              server.middleware(BeforeTrust) == [] && server.middleware(AfterTrust) == [] && server.middleware(BeforeArtifact) == []
  {
    var noted, log' := TrustNoted(c, line, ref, true), log + [TrustChecked(ref, c.heap(ref), true)];
    SentPhase(server, BeforeTrust, c, log);
    SentPhase(server, AfterTrust, noted, log');
    SentDeliver(server, line, ref, noted, log');
  }

  lemma SentAfterSignature(server: Server, line: Line, ref: nat, c: Ctx, log: seq<Event>)
    requires Sent(c) && Delivered(ref, c.heap(ref)) !in log
    requires ServerChecks.VerifyTrust(line.storeAtTrust, c.heap(ref).processed, line.now)
    ensures Delivered(ref, c.heap(ref)) in AfterSignatureCheck(server, line, ref, true, c, log).log <==>
              && server.middleware(AfterSignature) == []
              && server.middleware(BeforeTrust) == [] && server.middleware(AfterTrust) == [] && server.middleware(BeforeArtifact) == []
  {
    var noted := SignatureNoted(c, true);
    SentPhase(server, AfterSignature, noted, log);
    SentTrust(server, line, ref, noted, log);
  }

  lemma SentSignature(server: Server, line: Line, ref: nat, c: Ctx)
    requires Sent(c) && c.req.data == Some(ref)
    requires ServerChecks.VerifyArtifact(line.storeAtSignature, line.dns, c.heap(ref).processed) == Valid
    requires ServerChecks.VerifyTrust(line.storeAtTrust, c.heap(ref).processed, line.now)
    ensures Delivered(ref, c.heap(ref)) in CheckSignature(server, line, c, []).log <==>
              && server.middleware(BeforeSignature) == [] && server.middleware(AfterSignature) == []
              && server.middleware(BeforeTrust) == [] && server.middleware(AfterTrust) == [] && server.middleware(BeforeArtifact) == []
  {
    SentPhase(server, BeforeSignature, c, []);
    SentAfterSignature(server, line, ref, c, [] + [SignatureChecked(ref, c.heap(ref), Valid)]);
  }

  /** The lists a line passes before delivery. */
  predicate BeforeDelivery(phase: Phase) {
    phase != AfterArtifact && phase != BeforeError && phase != AfterError
  }

  /**
   `responseSent` belongs to the connection: after an answer, a later artifact
   that passes both checks is delivered if and only if no middleware at all is
   registered in the seven phases before delivery.
   */
  lemma AnsweredConnectionDelivers(server: Server, line: Line, c: Ctx, data: Data)
    requires Sent(c) && line.parsed == Good(data) && data.kind.ToPipeline?
    requires ServerChecks.VerifyArtifact(line.storeAtSignature, line.dns, data.processed) == Valid
    requires ServerChecks.VerifyTrust(line.storeAtTrust, data.processed, line.now)
    ensures Delivered(line.ref, data) in HandleLine(server, line, c).log <==>
              forall phase :: BeforeDelivery(phase) ==> server.middleware(phase) == []
  {
    var parsed := Parse(c, line);
    SentPhase(server, BeforeParsing, c, []);
    SentPhase(server, AfterParsing, parsed, []);
    SentSignature(server, line, line.ref, parsed);
    SevenLists(server);
  }

  lemma SevenLists(server: Server)
    ensures (forall phase :: BeforeDelivery(phase) ==> server.middleware(phase) == []) <==>
              && server.middleware(BeforeParsing) == [] && server.middleware(AfterParsing) == []
              && server.middleware(BeforeSignature) == [] && server.middleware(AfterSignature) == []
              && server.middleware(BeforeTrust) == [] && server.middleware(AfterTrust) == [] && server.middleware(BeforeArtifact) == []
  {
    assert BeforeDelivery(BeforeParsing) && BeforeDelivery(AfterParsing) && BeforeDelivery(BeforeSignature)
      && BeforeDelivery(AfterSignature) && BeforeDelivery(BeforeTrust) && BeforeDelivery(AfterTrust) && BeforeDelivery(BeforeArtifact);
  }

  // ----------------------------------------------------------- writing in place

  /** A server whose only middleware, before delivery, overwrites the object with another content. */
  ghost predicate Overwrites(server: Server, evil: Data) {
    forall phase :: server.middleware(phase) == if phase == BeforeArtifact then [Overwriter(evil)] else []
  }

  function Overwriter(evil: Data): Handler {
    (c: Ctx) => Ran(if c.req.data.Some? then Made(c, c.req.data.value, evil) else c)
  }

  /** Delivered is then what it wrote, unverified: the checks are about the object, and the object is the one they passed. */
  lemma OverwrittenIsDelivered(server: Server, line: Line, c: Ctx, data: Data, evil: Data)
    requires Overwrites(server, evil) && !Sent(c) && line.parsed == Good(data) && data.kind.ToPipeline?
    requires ServerChecks.VerifyArtifact(line.storeAtSignature, line.dns, data.processed) == Valid
    requires ServerChecks.VerifyTrust(line.storeAtTrust, data.processed, line.now)
    ensures Delivered(line.ref, evil) in HandleLine(server, line, c).log
  {
    var parsed := Parse(c, line);
    EmptyPhase(server, BeforeParsing, c, []);
    EmptyPhase(server, AfterParsing, parsed, []);
    OverwrittenSignature(server, line, parsed, evil);
  }

  lemma EmptyPhase(server: Server, phase: Phase, c: Ctx, log: seq<Event>)
    requires server.middleware(phase) == []
    ensures RunPhase(server, phase, c, log) == Go(c, log)
  {
  }

  lemma OverwrittenSignature(server: Server, line: Line, c: Ctx, evil: Data)
    requires Overwrites(server, evil) && !Sent(c) && c.req.data == Some(line.ref)
    requires ServerChecks.VerifyArtifact(line.storeAtSignature, line.dns, c.heap(line.ref).processed) == Valid
    requires ServerChecks.VerifyTrust(line.storeAtTrust, c.heap(line.ref).processed, line.now)
    ensures Delivered(line.ref, evil) in CheckSignature(server, line, c, []).log
  {
    var log := [] + [SignatureChecked(line.ref, c.heap(line.ref), Valid)];
    var signed := SignatureNoted(c, true);
    EmptyPhase(server, BeforeSignature, c, []);
    EmptyPhase(server, AfterSignature, signed, log);
    OverwrittenTrust(server, line, signed, log, evil);
  }

  lemma OverwrittenTrust(server: Server, line: Line, c: Ctx, log: seq<Event>, evil: Data)
    requires Overwrites(server, evil) && !Sent(c) && c.req.data == Some(line.ref)
    requires ServerChecks.VerifyTrust(line.storeAtTrust, c.heap(line.ref).processed, line.now)
    ensures Delivered(line.ref, evil) in CheckTrust(server, line, line.ref, c, log).log
  {
    var noted := TrustNoted(c, line, line.ref, true);
    EmptyPhase(server, BeforeTrust, c, log);
    EmptyPhase(server, AfterTrust, noted, log + [TrustChecked(line.ref, c.heap(line.ref), true)]);
    OverwrittenDeliver(server, line, noted, log + [TrustChecked(line.ref, c.heap(line.ref), true)], evil);
  }

  lemma OverwrittenDeliver(server: Server, line: Line, c: Ctx, log: seq<Event>, evil: Data)
    requires Overwrites(server, evil) && !Sent(c) && c.req.data == Some(line.ref)
    ensures Delivered(line.ref, evil) in Deliver(server, line, line.ref, c, log).log
  {
    var written := Made(c, line.ref, evil);
    var list := server.middleware(BeforeArtifact);
    var log' := log + [Middleware(BeforeArtifact, 0, false)];
    assert list == [Overwriter(evil)] && list[0](c) == Ran(written) && !Sent(written);
    assert RunList(list, BeforeArtifact, 1, written, log') == Go(written, log');
    var delivered := log' + [Delivered(line.ref, evil)];
    assert Delivered(line.ref, evil) in delivered;
    ProcessGrows(server, line, line.ref, written, delivered);
    var processed := ProcessMessage(server, line, line.ref, written, delivered);
    ListGrows(server.middleware(AfterArtifact), AfterArtifact, 0, processed.ctx, processed.log);
  }

  // ------------------------------------------------- lines nobody interferes with

  /** The middleware neither answers, nor throws, nor changes which artifact is processed or what it holds. */
  ghost predicate Passive(h: Handler) {
    forall c :: h(c).Ran? && h(c).ctx.req.data == c.req.data && (Sent(h(c).ctx) ==> Sent(c)) && SameHeap(h(c).ctx, c)
  }

  ghost predicate AllPassive(server: Server) {
    forall k, i :: 0 <= k < |ORDER| && 0 <= i < |server.middleware(ORDER[k])| ==> Passive(server.middleware(ORDER[k])[i])
  }

  /** Listeners and forward handler take the content without answering, throwing or changing it. */
  ghost predicate Accepts(server: Server, data: Data) {
    && (forall c :: Untouched(server.agentListener(data, c), c))
    && (forall c :: Untouched(server.transporterListener(data, c), c))
    && (server.forward.Some? ==> !server.forward.value(data))
  }

  ghost predicate Untouched(done: Done, c: Ctx) {
    done.Ran? && (Sent(done.ctx) ==> Sent(c)) && SameHeap(done.ctx, c)
  }

  /** The line ended with this reply after exactly the first `k` middleware lists. */
  ghost predicate RepliedAfter(server: Server, out: Out, k: nat, ok: bool)
    requires k <= |ORDER|
  {
    && out.Stop? && Executed(out.log) == Slots(server, k)
    && out.log != [] && out.log[|out.log| - 1] == Replied(ok)
  }

  /** All eight lists, the content delivered and, if there is a handler, forwarded, and success replied. */
  ghost predicate Completed(server: Server, out: Out, ref: nat, data: Data) {
    && RepliedAfter(server, out, 8, true)
    && Delivered(ref, data) in out.log && (server.forward.Some? ==> Forwarded(ref, data) in out.log)
  }

  lemma {:induction false} PassiveList(server: Server, k: nat, i: nat, c: Ctx, log: seq<Event>)
    requires AllPassive(server) && k < |ORDER| && i <= |server.middleware(ORDER[k])| && !Sent(c)
    ensures var out := RunList(server.middleware(ORDER[k]), ORDER[k], i, c, log);
            out.Go? && !Sent(out.ctx) && out.ctx.req.data == c.req.data && SameHeap(out.ctx, c)
    decreases |server.middleware(ORDER[k])| - i
  {
    var handlers := server.middleware(ORDER[k]);
    if i < |handlers| {
      assert Passive(handlers[i]);
      PassiveList(server, k, i + 1, handlers[i](c).ctx, log + [Middleware(ORDER[k], i, false)]);
    }
  }

  lemma PassivePhase(server: Server, k: nat, c: Ctx, log: seq<Event>)
    requires AllPassive(server) && k < |ORDER| && !Sent(c) && Through(server, log, k)
    ensures var out := RunPhase(server, ORDER[k], c, log);
            && out.Go? && !Sent(out.ctx) && out.ctx.req.data == c.req.data && SameHeap(out.ctx, c)
            && Through(server, out.log, k + 1) && log <= out.log
  {
    PassiveList(server, k, 0, c, log);
    PhasePrefix(server, k, c, log);
    ListGrows(server.middleware(ORDER[k]), ORDER[k], 0, c, log);
  }

  lemma ReplyEnds(server: Server, c: Ctx, log: seq<Event>, k: nat, ok: bool)
    requires k <= |ORDER| && Through(server, log, k)
    ensures RepliedAfter(server, Reply(c, log, ok), k, ok)
  {
    ExecutedMore(log, Replied(ok));
  }

  lemma PassiveProcess(server: Server, line: Line, ref: nat, c: Ctx, log: seq<Event>)
    requires Accepts(server, c.heap(ref)) && !Sent(c) && Through(server, log, 7)
    ensures var out := ProcessMessage(server, line, ref, c, log);
            && out.Go? && !Sent(out.ctx) && Through(server, out.log, 7) && log <= out.log
            && (server.forward.Some? ==> Forwarded(ref, c.heap(ref)) in out.log)
  {
    var data := c.heap(ref);
    assert Untouched(server.agentListener(data, c), c) && Untouched(server.transporterListener(data, c), c);
    CoreEvent(server, log, 7, Forwarded(ref, data));
    assert Forwarded(ref, data) in log + [Forwarded(ref, data)];
  }

  lemma PassiveDeliver(server: Server, line: Line, ref: nat, c: Ctx, log: seq<Event>)
    requires AllPassive(server) && Accepts(server, c.heap(ref)) && !Sent(c) && Through(server, log, 6)
    ensures Completed(server, Deliver(server, line, ref, c, log), ref, c.heap(ref))
  {
    PassivePhase(server, 6, c, log);
    var before := RunPhase(server, BeforeArtifact, c, log);
    var delivered := before.log + [Delivered(ref, c.heap(ref))];
    assert Delivered(ref, c.heap(ref)) in delivered;
    CoreEvent(server, before.log, 7, Delivered(ref, c.heap(ref)));
    PassiveProcess(server, line, ref, before.ctx, delivered);
    var processed := ProcessMessage(server, line, ref, before.ctx, delivered);
    PassivePhase(server, 7, processed.ctx, processed.log);
    var after := RunPhase(server, AfterArtifact, processed.ctx, processed.log);
    ReplyEnds(server, after.ctx, after.log, 8, true);
  }

  lemma PassiveTrust(server: Server, line: Line, ref: nat, c: Ctx, log: seq<Event>)
    requires AllPassive(server) && Accepts(server, c.heap(ref)) && !Sent(c) && Through(server, log, 4)
    ensures var out := CheckTrust(server, line, ref, c, log);
            if ServerChecks.VerifyTrust(line.storeAtTrust, c.heap(ref).processed, line.now)
            then Completed(server, out, ref, c.heap(ref))
            else RepliedAfter(server, out, 6, false)
  {
    PassivePhase(server, 4, c, log);
    var before := RunPhase(server, BeforeTrust, c, log);
    var trusted := ServerChecks.VerifyTrust(line.storeAtTrust, c.heap(ref).processed, line.now);
    var e, noted := TrustChecked(ref, c.heap(ref), trusted), TrustNoted(before.ctx, line, ref, trusted);
    CoreEvent(server, before.log, 5, e);
    PassivePhase(server, 5, noted, before.log + [e]);
    var after := RunPhase(server, AfterTrust, noted, before.log + [e]);
    ReplyEnds(server, after.ctx, after.log, 6, false);
    PassiveDeliver(server, line, ref, after.ctx, after.log);
  }

  lemma PassiveAfterSignature(server: Server, line: Line, ref: nat, valid: bool, c: Ctx, log: seq<Event>)
    requires AllPassive(server) && Accepts(server, c.heap(ref)) && !Sent(c) && Through(server, log, 3)
    ensures var out := AfterSignatureCheck(server, line, ref, valid, c, log);
            if !valid then RepliedAfter(server, out, 4, false)
            else if ServerChecks.VerifyTrust(line.storeAtTrust, c.heap(ref).processed, line.now)
            then Completed(server, out, ref, c.heap(ref))
            else RepliedAfter(server, out, 6, false)
  {
    var noted := SignatureNoted(c, valid);
    PassivePhase(server, 3, noted, log);
    var after := RunPhase(server, AfterSignature, noted, log);
    ReplyEnds(server, after.ctx, after.log, 4, false);
    PassiveTrust(server, line, ref, after.ctx, after.log);
  }

  /** As far as the checks let the line: an exception, four lists, six, or all eight. */
  ghost predicate EndsAsChecked(server: Server, line: Line, out: Out, ref: nat, data: Data) {
    match ServerChecks.VerifyArtifact(line.storeAtSignature, line.dns, data.processed)
    case Invalid(e) =>
      if e.Exception?
      then out.Throw? && Executed(out.log) == Slots(server, 3) && out.log != [] && out.log[|out.log| - 1..] == [SignatureChecked(ref, data, Invalid(e))]
      else RepliedAfter(server, out, 4, false)
    case Valid =>
      if ServerChecks.VerifyTrust(line.storeAtTrust, data.processed, line.now)
      then Completed(server, out, ref, data)
      else RepliedAfter(server, out, 6, false)
  }

  lemma PassiveSignature(server: Server, line: Line, ref: nat, c: Ctx, log: seq<Event>)
    requires AllPassive(server) && Accepts(server, c.heap(ref)) && !Sent(c) && Through(server, log, 2) && c.req.data == Some(ref)
    ensures EndsAsChecked(server, line, CheckSignature(server, line, c, log), ref, c.heap(ref))
  {
    PassivePhase(server, 2, c, log);
    var before := RunPhase(server, BeforeSignature, c, log);
    var verdict := ServerChecks.VerifyArtifact(line.storeAtSignature, line.dns, c.heap(ref).processed);
    CoreEvent(server, before.log, 3, SignatureChecked(ref, c.heap(ref), verdict));
    PassiveAfterSignature(server, line, ref, verdict == Valid, before.ctx, before.log + [SignatureChecked(ref, c.heap(ref), verdict)]);
  }

  /**
   A parsed artifact nobody interferes with runs through the lists exactly as
   far as the core checks let it: four lists and an error if its signature does
   not verify, six and an error if its sender is not trusted, and otherwise all
   eight, delivered, forwarded and confirmed.
   */
  lemma UndisturbedLine(server: Server, line: Line, c: Ctx, data: Data)
    requires AllPassive(server) && Accepts(server, data) && !Sent(c) && line.parsed == Good(data) && data.kind.ToPipeline?
    ensures EndsAsChecked(server, line, HandleLine(server, line, c), line.ref, data)
  {
    PassivePhase(server, 0, c, []);
    var before := RunPhase(server, BeforeParsing, c, []);
    var parsed := Parse(before.ctx, line);
    PassivePhase(server, 1, parsed, before.log);
    var after := RunPhase(server, AfterParsing, parsed, before.log);
    PassiveSignature(server, line, line.ref, after.ctx, after.log);
  }
}
