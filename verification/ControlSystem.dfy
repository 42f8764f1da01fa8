/** Any number of engines, their outgoing operations, and every request and reply ever sent.

    Two networks share these steps. On the hostile one a request may be delivered at any time, any
    number of times or never, and a caller may give up at any time. On the reliable one (`Reliable`)
    a request is handled exactly once, while its caller waits, and only an absent endpoint fails. */
module ControlSystem {
  import opened Control
  import opened Options

  datatype Body =
    | ConnectCall(offer: Offer)
    | ReadyCall(update: Update)
    | ChangedCall(update: Update)
    | CloseCall(connection: Connection)

  /** `call` tells the calls of one engine apart. */
  datatype Request = Request(caller: Endpoint, call: nat, to: Endpoint, body: Body)

  datatype Answer = Offered(offer: Offer) | Shared(snapshot: Snapshot) | Done | Failed

  datatype Reply = Reply(request: Request, answer: Answer)

  /** The one outgoing operation the resource lock admits, and the call it is blocked in. */
  datatype Op =
    | Idle
    | Connecting(request: Request, id: ConnectionId)
    | Readying(request: Request, id: ConnectionId)
    | Publishing(request: Request, snapshot: Snapshot, captured: set<Connection>,
                 done: seq<Connection>, current: Connection, rest: seq<Connection>)
    | Disconnecting(request: Request)
    | ShuttingDown
  {
    predicate Awaits(q: Request) {
      !Idle? && !ShuttingDown? && request == q
    }
  }

  /** `raised` remembers that some operation of this engine ended in an exception. */
  datatype Engine = Engine(node: Node, op: Op, calls: nat, raised: bool)

  datatype System = System(engines: map<Endpoint, Engine>, sent: set<Request>, replies: set<Reply>)

  datatype Step =
    | StartConnect(e: Endpoint, target: Endpoint, env: Env)
    | StartPublish(e: Endpoint, metadata: Blob, targets: seq<Connection>)
    | StartDisconnect(e: Endpoint, handle: Handle, env: Env)
    | StartClose(e: Endpoint)
    | EndClose(e: Endpoint, ok: bool)
    | Deliver(request: Request, env: Env)
    | Return(e: Endpoint, reply: Reply, env: Env)
    | Abandon(e: Endpoint)

  ghost predicate Starts(s: System) {
    && s.sent == {} && s.replies == {}
    && forall e <- s.engines ::
         s.engines[e] == Engine(Node(e, false, map[], map[], [], [], Native(map[], false, false)), Idle, 0, false)
  }

  /** The functions below look peers up in a well-keyed dictionary. */
  ghost predicate Lookups(s: System) {
    forall e <- s.engines ::
      && WellKeyed(s.engines[e].node)
      && (s.engines[e].op.Connecting? || s.engines[e].op.Readying? ==> s.engines[e].op.id in s.engines[e].node.heap)
  }

  ghost predicate Enabled(s: System, step: Step) {
    match step
    case StartConnect(e, _, env) => e in s.engines && s.engines[e].op == Idle && Fresh(s.engines[e].node, env)
    case StartPublish(e, _, targets) =>
      e in s.engines && s.engines[e].op == Idle && Captures(s.engines[e].node, targets)
    case StartDisconnect(e, _, _) => e in s.engines && s.engines[e].op == Idle
    case StartClose(e) => e in s.engines && s.engines[e].op == Idle
    case EndClose(e, _) => e in s.engines && s.engines[e].op == ShuttingDown
    case Deliver(q, env) => q in s.sent && q.to in s.engines && Fresh(s.engines[q.to].node, env)
    case Return(e, reply, _) => e in s.engines && reply in s.replies && s.engines[e].op.Awaits(reply.request)
    case Abandon(e) => e in s.engines && s.engines[e].op != Idle && s.engines[e].op != ShuttingDown
  }

  /** The reliable network restricts when requests are delivered and when a call is given up. */
  ghost predicate Reliable(s: System, step: Step) {
    && Enabled(s, step)
    && (step.Deliver? ==>
          && step.request.caller in s.engines
          && s.engines[step.request.caller].op.Awaits(step.request)
          && forall r <- s.replies :: r.request != step.request)
    && (step.Abandon? ==> s.engines[step.e].op.request.to !in s.engines)
  }

  // ----- Effects ---------------------------------------------------------------------------

  /** What one step does to the engine that takes it; `returned` is the handle a connect call returns. */
  datatype Effect = Effect(engine: Engine, sent: set<Request>, replies: set<Reply>, returned: Option<Handle>)

  function Quiet(g: Engine): Effect {
    Effect(g, {}, {}, None)
  }

  function Ends(g: Engine, n: Node, raised: bool): Effect {
    Quiet(g.(node := n, op := Idle, raised := g.raised || raised))
  }

  function NextRequest(g: Engine, to: Endpoint, body: Body): Request {
    Request(g.node.endpoint, g.calls, to, body)
  }

  function Calls(g: Engine, n: Node, q: Request, op: Op): Effect {
    Effect(g.(node := n, op := op, calls := g.calls + 1), {q}, {}, None)
  }

  function OnStartConnect(g: Engine, target: Endpoint, env: Env): Effect
    requires WellKeyed(g.node)
  {
    var out := BeginConnect(g.node, target, env);
    match out.result
    case Raised(_) => Ends(g, out.node, true)
    case Ok(Reuse(handle)) => Ends(g, out.node, false).(returned := Some(handle))
    case Ok(SendOffer(id, offer)) =>
      var q := NextRequest(g, target, ConnectCall(offer));
      Calls(g, out.node, q, Connecting(q, id))
  }

  function ChangedRequest(g: Engine, snapshot: Snapshot, target: Connection): Request {
    NextRequest(g, target.endpoint, ChangedCall(Update(ConnectionOf(g.node, target.id), snapshot)))
  }

  function OnStartPublish(g: Engine, metadata: Blob, targets: seq<Connection>): Effect {
    var out := BeginPublish(g.node, metadata);
    match out.result
    case Raised(_) => Ends(g, out.node, true)
    case Ok(snapshot) =>
      if targets == [] then Ends(g, out.node, false)
      else
        var q := ChangedRequest(g, snapshot, targets[0]);
        Calls(g, out.node, q, Publishing(q, snapshot, set c | c in targets, [], targets[0], targets[1..]))
  }

  ghost function OnStartDisconnect(g: Engine, handle: Handle, env: Env): Effect
    requires WellKeyed(g.node)
  {
    var out := BeginDisconnect(g.node, handle, env);
    match out.result
    case Raised(_) => Ends(g, out.node, true)
    case Ok(c) =>
      var q := NextRequest(g, c.endpoint, CloseCall(ConnectionOf(g.node, c.id)));
      Calls(g, out.node, q, Disconnecting(q))
  }

  function OnDeliver(g: Engine, q: Request, env: Env): Effect
    requires WellKeyed(g.node)
  {
    match q.body
    case ConnectCall(offer) =>
      var out := HandleConnect(g.node, offer, env);
      Effect(g.(node := out.node), {}, {Reply(q, if out.result.Ok? then Offered(out.result.value) else Failed)}, None)
    case ReadyCall(update) =>
      var out := HandleReady(g.node, update, env);
      Effect(g.(node := out.node), {}, {Reply(q, if out.result.Ok? then Shared(out.result.value) else Failed)}, None)
    case ChangedCall(update) =>
      var out := HandleChanged(g.node, update, env);
      Effect(g.(node := out.node), {}, {Reply(q, if out.result.Ok? then Done else Failed)}, None)
    case CloseCall(connection) =>
      var out := HandleClose(g.node, connection, env);
      Effect(g.(node := out.node), {}, {Reply(q, if out.result.Ok? then Done else Failed)}, None)
  }

  function OnOffered(g: Engine, offer: Offer, env: Env): Effect
    requires g.op.Connecting? && g.op.id in g.node.heap
  {
    var out := LinkConnect(g.node, g.op.id, offer, env);
    match out.result
    case Raised(_) => Ends(g, out.node, true)
    case Ok(update) =>
      var q := NextRequest(g, g.op.request.to, ReadyCall(update));
      Calls(g, out.node, q, Readying(q, g.op.id))
  }

  function OnShared(g: Engine, snapshot: Snapshot, env: Env): Effect
    requires g.op.Readying? && g.op.id in g.node.heap
  {
    var out := FinishConnect(g.node, g.op.id, snapshot, env);
    Ends(g, out.node, out.result.Raised?).(returned := if out.result.Ok? then Some(out.result.value) else None)
  }

  function OnAcknowledged(g: Engine): Effect
    requires g.op.Publishing?
  {
    if g.op.rest == [] then Ends(g, g.node, false)
    else
      var q := ChangedRequest(g, g.op.snapshot, g.op.rest[0]);
      Calls(g, g.node, q,
            g.op.(request := q, done := g.op.done + [g.op.current], current := g.op.rest[0], rest := g.op.rest[1..]))
  }

  /** A reply of another kind than the call asks for does not occur; gRPC would raise. */
  function OnReturn(g: Engine, answer: Answer, env: Env): Effect
    requires g.op.Connecting? || g.op.Readying? ==> g.op.id in g.node.heap
  {
    match answer
    case Offered(offer) => if g.op.Connecting? then OnOffered(g, offer, env) else Ends(g, g.node, true)
    case Shared(snapshot) => if g.op.Readying? then OnShared(g, snapshot, env) else Ends(g, g.node, true)
    case Done =>
      if g.op.Publishing? then OnAcknowledged(g)
      else Ends(g, g.node, !g.op.Disconnecting?)
    case Failed => Ends(g, g.node, true)
  }

  /** The engine that takes a step. */
  function Actor(step: Step): Endpoint {
    match step
    case Deliver(q, _) => q.to
    case StartConnect(e, _, _) => e
    case StartPublish(e, _, _) => e
    case StartDisconnect(e, _, _) => e
    case StartClose(e) => e
    case EndClose(e, _) => e
    case Return(e, _, _) => e
    case Abandon(e) => e
  }

  ghost function EffectOf(s: System, step: Step): Effect
    requires Enabled(s, step) && Lookups(s)
  {
    var g := s.engines[Actor(step)];
    match step
    case StartConnect(_, target, env) => OnStartConnect(g, target, env)
    case StartPublish(_, metadata, targets) => OnStartPublish(g, metadata, targets)
    case StartDisconnect(_, handle, env) => OnStartDisconnect(g, handle, env)
    case StartClose(_) => Quiet(g.(node := BeginClose(g.node), op := ShuttingDown))
    case EndClose(_, ok) => Ends(g, FinishClose(g.node, ok), !g.node.native.closed && !ok)
    case Deliver(q, env) => OnDeliver(g, q, env)
    case Return(_, reply, env) => OnReturn(g, reply.answer, env)
    case Abandon(_) => Ends(g, g.node, true)
  }

  function Install(s: System, e: Endpoint, effect: Effect): System {
    System(s.engines[e := effect.engine], s.sent + effect.sent, s.replies + effect.replies)
  }

  ghost function Apply(s: System, step: Step): System
    requires Enabled(s, step) && Lookups(s)
  {
    Install(s, Actor(step), EffectOf(s, step))
  }
}
