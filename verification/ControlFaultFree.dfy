/** Fault-free, disconnect-free runs of the reliable network: simultaneous open converges, nothing
    raises, and no registration is lost. */
module ControlFaultFree {
  import opened Control
  import opened ControlNode
  import opened ControlSystem
  import opened ControlSafety
  import opened ControlSafetySteps
  import opened ControlReliable
  import opened Options

  predicate GoodEnv(env: Env) {
    env.createOk && env.connectOk && env.importsBeforeFailure.None?
  }

  /** A reliable step without native failures, disconnects, shutdowns or unreachable targets. */
  ghost predicate FaultFree(s: System, step: Step) {
    && Reliable(s, step)
    && match step
       case StartConnect(e, target, env) => target in s.engines && target != e && GoodEnv(env)
       case StartPublish(_, _, _) => true
       case Deliver(_, env) => GoodEnv(env)
       case Return(_, _, env) => GoodEnv(env)
       case _ => false
  }

  // ----- The invariant ---------------------------------------------------------------------

  /** The peer at the other end of a link. */
  function Far(s: System, e: Endpoint, b: ConnectionId): Peer
    requires Mutual(s, e, b)
  {
    var p := s.engines[e].node.heap[b];
    s.engines[p.endpoint].node.heap[p.remoteId]
  }

  /** The engine's own publish still has to reach peer `b`. */
  ghost predicate Undelivered(s: System, e: Endpoint, b: ConnectionId)
    requires e in s.engines && b in s.engines[e].node.heap
  {
    var op := s.engines[e].op;
    var c := Connection(s.engines[e].node.heap[b].endpoint, b);
    op.Publishing? && ((c == op.current && !Replied(s, op.request)) || c in op.rest)
  }

  /** A Ready reply on its way to peer `a` of `d` carries `n` registrations. */
  ghost predicate Carried(s: System, d: Endpoint, a: ConnectionId, n: nat)
    requires d in s.engines
  {
    var op := s.engines[d].op;
    op.Readying? && op.id == a && exists r <- s.replies :: r.request == op.request && r.answer.Shared? && r.answer.snapshot.version == n
  }

  /** The other end of a READY peer is READY or about to be. */
  ghost predicate FarReady(s: System, e: Endpoint, b: ConnectionId)
    requires Mutual(s, e, b)
  {
    var p := s.engines[e].node.heap[b];
    var op := s.engines[p.endpoint].op;
    || Far(s, e, b).state == READY
    || (op.Readying? && op.id == p.remoteId && Replied(s, op.request))
  }

  /** The other end of a READY peer knows every registration, or something under way tells it. */
  ghost predicate FarInformed(s: System, e: Endpoint, b: ConnectionId)
    requires Mutual(s, e, b)
  {
    var p := s.engines[e].node.heap[b];
    var total := |s.engines[e].node.log|;
    Far(s, e, b).remoteVersion == total || Undelivered(s, e, b) || Carried(s, p.endpoint, p.remoteId, total)
  }

  ghost predicate PairsOk(s: System, e: Endpoint)
    requires e in s.engines
  {
    forall b <- s.engines[e].node.heap :: s.engines[e].node.heap[b].state == READY ==>
      Mutual(s, e, b) && FarReady(s, e, b) && FarInformed(s, e, b)
  }

  /** Once its Ready call is answered, the other end is READY and fully informed. */
  ghost predicate HandshakeOk(s: System, e: Endpoint)
    requires e in s.engines
  {
    var op := s.engines[e].op;
    op.Readying? && Replied(s, op.request) ==>
      && Mutual(s, e, op.id)
      && Far(s, e, op.id).state == READY
      && Far(s, e, op.id).remoteVersion == |s.engines[e].node.log|
  }

  /** No exception so far, every peer ever created still live, every known endpoint present, and
      every snapshot under way complete. */
  ghost predicate Clean(s: System, e: Endpoint)
    requires e in s.engines
  {
    var g := s.engines[e];
    && !g.raised && !g.node.closed
    && g.op != ShuttingDown && !g.op.Disconnecting?
    && (g.op != Idle ==> g.op.request.to in s.engines)
    && (forall id <- g.node.heap :: Live(g.node, id) && g.node.heap[id].endpoint in s.engines)
    && (g.op.Readying? ==> g.op.request.body.ReadyCall? && g.op.request.body.update.snapshot.version == |g.node.log|)
    && (g.op.Publishing? ==>
          && g.op.snapshot.version == |g.node.log|
          && forall c <- g.op.captured :: c.id in g.node.heap && g.node.heap[c.id].state == READY)
  }

  ghost predicate OneReply(s: System) {
    && (forall r <- s.replies :: r.answer != Failed)
    && (forall r <- s.replies, r' <- s.replies :: r.request == r'.request ==> r == r')
  }

  ghost predicate CleanInv(s: System) {
    && ReliableInv(s) && 0 !in s.engines && OneReply(s)
    && forall e <- s.engines :: Clean(s, e) && PairsOk(s, e) && HandshakeOk(s, e)
  }

  lemma CleanFacts(s: System, e: Endpoint)
    requires CleanInv(s) && e in s.engines
    ensures e != 0 && SafetyInv(s) && ReliableInv(s) && Clean(s, e) && PairsOk(s, e) && HandshakeOk(s, e) && EngineOk(s, e)
    ensures WellKeyed(s.engines[e].node) && OneReply(s)
  {
    EngineFacts(s, e);
  }

  /** One peer per ordered pair: peers of one engine with the same endpoint are the same peer. */
  lemma OnePeer(s: System, e: Endpoint, a: ConnectionId, b: ConnectionId)
    requires e in s.engines && Clean(s, e)
    requires a in s.engines[e].node.heap && b in s.engines[e].node.heap
    requires s.engines[e].node.heap[a].endpoint == s.engines[e].node.heap[b].endpoint
    ensures a == b
  {
    assert Live(s.engines[e].node, a) && Live(s.engines[e].node, b);
  }

  // ----- Nothing raises --------------------------------------------------------------------

  lemma ConnectSucceeds(s: System, q: Request, env: Env)
    requires CleanInv(s) && FaultFree(s, Deliver(q, env)) && q.body.ConnectCall?
    ensures WellKeyed(s.engines[q.to].node) && HandleConnect(s.engines[q.to].node, q.body.offer, env).result.Ok?
  {
    hide CleanInv, SafetyInv, ReliableInv, NodeInv, OpOk;
    CleanFacts(s, q.to);
    CleanFacts(s, q.caller);
    MessageFacts(s, q);
    var n, offer := s.engines[q.to].node, q.body.offer;
    LinkNames(s, q.caller, offer.connection.id);
    if q.caller in n.peers {
      var b := n.peers[q.caller];
      LinkNames(s, q.to, b);
      if n.heap[b].remoteId != 0 {
        OnePeer(s, q.caller, n.heap[b].remoteId, offer.connection.id);
      }
    }
  }

  /** A mutual peer is found by the connection its counterpart names. */
  lemma MutualIsFound(s: System, e: Endpoint, a: ConnectionId)
    requires CleanInv(s) && Mutual(s, e, a) && e in s.engines && a in s.engines[e].node.heap
    ensures var p := s.engines[e].node.heap[a];
            && p.endpoint in s.engines && WellKeyed(s.engines[p.endpoint].node)
            && FindConnection(s.engines[p.endpoint].node, Connection(e, a)) == Ok(p.remoteId)
            && Live(s.engines[p.endpoint].node, p.remoteId)
  {
    hide CleanInv, SafetyInv, ReliableInv, NodeInv, OpOk, WellKeyed;
    var p := s.engines[e].node.heap[a];
    CleanFacts(s, e);
    CleanFacts(s, p.endpoint);
    LinkNames(s, e, a);
  }

  /** The caller's peer in a delivered Ready or Changed call is mutual. */
  lemma UpdateIsMutual(s: System, q: Request, env: Env)
    requires CleanInv(s) && FaultFree(s, Deliver(q, env)) && (q.body.ReadyCall? || q.body.ChangedCall?)
    ensures q.caller in s.engines && q.body.update.connection.endpoint == q.caller
    ensures Mutual(s, q.caller, q.body.update.connection.id)
    ensures s.engines[q.caller].node.heap[q.body.update.connection.id].endpoint == q.to
    ensures q.body.update.snapshot.version == |s.engines[q.caller].node.log|
    ensures q.body.update.snapshot.version == |q.body.update.snapshot.memories|
    ensures q.body.ChangedCall? ==>
              var op := s.engines[q.caller].op;
              op.Publishing? && op.request == q && op.current == Connection(q.to, q.body.update.connection.id)
    ensures q.body.ReadyCall? ==>
              var op := s.engines[q.caller].op;
              op.Readying? && op.request == q && op.id == q.body.update.connection.id
    ensures !Replied(s, q)
  {
    hide CleanInv, SafetyInv, ReliableInv, NodeInv, Acknowledged;
    CleanFacts(s, q.caller);
    MessageFacts(s, q);
    if q.body.ChangedCall? {
      assert s.engines[q.caller].op.current in s.engines[q.caller].op.captured;
    }
  }

  lemma UpdateSucceeds(s: System, q: Request, env: Env)
    requires CleanInv(s) && FaultFree(s, Deliver(q, env)) && (q.body.ReadyCall? || q.body.ChangedCall?)
    ensures WellKeyed(s.engines[q.to].node)
    ensures q.body.ReadyCall? ==> HandleReady(s.engines[q.to].node, q.body.update, env).result.Ok?
    ensures q.body.ChangedCall? ==> HandleChanged(s.engines[q.to].node, q.body.update, env).result.Ok?
  {
    hide CleanInv, SafetyInv, ReliableInv, NodeInv, OpOk, WellKeyed;
    CleanFacts(s, q.to);
    UpdateIsMutual(s, q, env);
    MutualIsFound(s, q.caller, q.body.update.connection.id);
  }

  lemma LinkSucceeds(s: System, e: Endpoint, reply: Reply, env: Env)
    requires CleanInv(s) && FaultFree(s, Return(e, reply, env)) && reply.answer.Offered?
    ensures s.engines[e].op.Connecting? && s.engines[e].op.id in s.engines[e].node.heap
    ensures LinkConnect(s.engines[e].node, s.engines[e].op.id, reply.answer.offer, env).result.Ok?
  {
    hide CleanInv, SafetyInv, ReliableInv, NodeInv, WellKeyed;
    CleanFacts(s, e);
    ReplyFacts(s, reply);
    var g, offer := s.engines[e], reply.answer.offer;
    assert g.op.Connecting?;
    HandshakeFacts(s, e);
    LinkNames(s, e, g.op.id);
    CleanFacts(s, g.op.request.to);
    var y := g.node.heap[g.op.id].remoteId;
    if y != 0 {
      OnePeer(s, g.op.request.to, y, offer.connection.id);
    }
  }

  lemma FinishSucceeds(s: System, e: Endpoint, reply: Reply, env: Env)
    requires CleanInv(s) && FaultFree(s, Return(e, reply, env)) && reply.answer.Shared?
    ensures s.engines[e].op.Readying? && s.engines[e].op.id in s.engines[e].node.heap
    ensures FinishConnect(s.engines[e].node, s.engines[e].op.id, reply.answer.snapshot, env).result.Ok?
  {
    hide CleanInv, SafetyInv, ReliableInv, NodeInv, WellKeyed;
    CleanFacts(s, e);
    ReplyFacts(s, reply);
    assert s.engines[e].op.Readying?;
    HandshakeFacts(s, e);
  }

  lemma DoneIsPublish(s: System, e: Endpoint, reply: Reply, env: Env)
    requires CleanInv(s) && FaultFree(s, Return(e, reply, env))
    ensures reply.answer.Done? ==> s.engines[e].op.Publishing?
    ensures reply.answer.Offered? ==> s.engines[e].op.Connecting?
    ensures reply.answer.Shared? ==> s.engines[e].op.Readying?
    ensures !reply.answer.Failed?
  {
    hide CleanInv, SafetyInv, ReliableInv, NodeInv, WellKeyed;
    CleanFacts(s, e);
    ReplyFacts(s, reply);
  }

  // ----- The shape of each step ------------------------------------------------------------

  /** Peers keep everything but possibly new, unlinked-or-linked, not READY peers appear. */
  predicate OnlyAdds(n: Node, n': Node) {
    && n'.log == n.log && n'.closed == n.closed
    && (forall id <- n.heap :: id in n'.heap && (Live(n, id) ==> Live(n', id))
          && n'.heap[id].remoteVersion == n.heap[id].remoteVersion
          && (n'.heap[id].state == READY ==> n.heap[id].state == READY))
    && (forall id <- n'.heap :: id !in n.heap ==> Live(n', id) && n'.heap[id].state != READY)
  }

  /** Only peer `id` changes: it is READY or keeps its state, and knows at least `version`. */
  predicate OnlyInforms(n: Node, n': Node, id: ConnectionId, version: nat, ready: bool) {
    && id in n.heap
    && n'.log == n.log && n'.closed == n.closed && n'.peers == n.peers
    && n'.heap == n.heap[id := n.heap[id].(
         remoteVersion := if n.heap[id].remoteVersion < version then version else n.heap[id].remoteVersion,
         state := if ready then READY else n.heap[id].state)]
  }

  lemma BeginConnectShape(n: Node, target: Endpoint, env: Env)
    requires WellKeyed(n) && !n.closed && target != 0 && target != n.endpoint && GoodEnv(env) && Fresh(n, env)
    ensures var out := BeginConnect(n, target, env);
            && out.result.Ok? && OnlyAdds(n, out.node)
            && (forall id <- out.node.heap :: id !in n.heap ==> out.node.heap[id].endpoint == target)
  {
  }

  lemma StartConnectShape(s: System, e: Endpoint, target: Endpoint, env: Env)
    requires CleanInv(s) && FaultFree(s, StartConnect(e, target, env))
    ensures WellKeyed(s.engines[e].node)
    ensures var g, effect := s.engines[e], OnStartConnect(s.engines[e], target, env);
            && !effect.engine.raised && effect.replies == {}
            && OnlyAdds(g.node, effect.engine.node)
            && (effect.engine.op == Idle || (effect.engine.op.Connecting? && effect.engine.op.request.to == target))
            && (forall id <- effect.engine.node.heap :: id !in g.node.heap ==> effect.engine.node.heap[id].endpoint == target)
  {
    hide CleanInv, SafetyInv, ReliableInv, NodeInv, OpOk, BeginConnect, OnlyAdds, WellKeyed;
    CleanFacts(s, e);
    CleanFacts(s, target);
    BeginConnectShape(s.engines[e].node, target, env);
  }

  lemma FindAddsOnly(n: Node, endpoint: Endpoint, env: Env)
    requires WellKeyed(n) && Fresh(n, env)
    ensures var found := FindOrCreate(n, endpoint, env);
            && OnlyAdds(n, found.node)
            && (forall id <- found.node.heap :: id !in n.heap ==> found.node.heap[id].endpoint == endpoint)
            && (found.result.Ok? ==> found.result.value in found.node.heap)
  {
  }

  lemma NativeAddsOnly(n: Node, id: ConnectionId, offer: Offer, env: Env)
    requires id in n.heap
    ensures var n' := ConnectNative(n, id, offer, env).node;
            && OnlyAdds(n, n') && n'.heap.Keys == n.heap.Keys && n'.peers == n.peers
            && (forall p <- n.heap :: n'.heap[p].endpoint == n.heap[p].endpoint)
  {
  }

  lemma ConnectAddsOnly(n: Node, offer: Offer, env: Env)
    requires WellKeyed(n) && Fresh(n, env)
    ensures var n' := HandleConnect(n, offer, env).node;
            && OnlyAdds(n, n')
            && (forall id <- n'.heap :: id !in n.heap ==> n'.heap[id].endpoint == offer.connection.endpoint)
  {
    hide FindOrCreate, ConnectNative;
    var found := FindOrCreate(n, offer.connection.endpoint, env);
    FindAddsOnly(n, offer.connection.endpoint, env);
    if found.result.Ok? {
      NativeAddsOnly(found.node, found.result.value, offer, env);
    }
  }

  lemma ConnectShape(s: System, q: Request, env: Env)
    requires CleanInv(s) && FaultFree(s, Deliver(q, env)) && q.body.ConnectCall?
    ensures WellKeyed(s.engines[q.to].node)
    ensures var g, effect := s.engines[q.to], OnDeliver(s.engines[q.to], q, env);
            && effect.engine == g.(node := effect.engine.node)
            && OnlyAdds(g.node, effect.engine.node)
            && (forall id <- effect.engine.node.heap :: id !in g.node.heap ==> effect.engine.node.heap[id].endpoint == q.caller)
            && (exists offer :: effect.replies == {Reply(q, Offered(offer))})
  {
    hide CleanInv, SafetyInv, ReliableInv, NodeInv, OpOk, Clean, PairsOk, HandshakeOk, OneReply, WellKeyed, OnlyAdds;
    CleanFacts(s, q.to);
    ConnectSucceeds(s, q, env);
    MessageFacts(s, q);
    ConnectAddsOnly(s.engines[q.to].node, q.body.offer, env);
    var out := HandleConnect(s.engines[q.to].node, q.body.offer, env);
    assert OnDeliver(s.engines[q.to], q, env).replies == {Reply(q, Offered(out.result.value))};
  }

  lemma ReadyShape(s: System, q: Request, env: Env)
    requires CleanInv(s) && FaultFree(s, Deliver(q, env)) && q.body.ReadyCall?
    ensures WellKeyed(s.engines[q.to].node)
    ensures Mutual(s, q.caller, q.body.update.connection.id)
    ensures var g, effect := s.engines[q.to], OnDeliver(s.engines[q.to], q, env);
            var r := s.engines[q.caller].node.heap[q.body.update.connection.id].remoteId;
            && effect.engine == g.(node := effect.engine.node)
            && OnlyInforms(g.node, effect.engine.node, r, q.body.update.snapshot.version, true)
            && (exists snapshot :: effect.replies == {Reply(q, Shared(snapshot))} && snapshot.version == |g.node.log|)
  {
    hide CleanInv, SafetyInv, ReliableInv, OpOk, WellKeyed;
    CleanFacts(s, q.to);
    UpdateIsMutual(s, q, env);
    MutualIsFound(s, q.caller, q.body.update.connection.id);
    UpdateSucceeds(s, q, env);
    var n := s.engines[q.to].node;
    assert n.metadata == n.log;
    hide NodeInv;
    assert OnDeliver(s.engines[q.to], q, env).replies == {Reply(q, Shared(SnapshotOf(n)))};
  }

  lemma ChangedShape(s: System, q: Request, env: Env)
    requires CleanInv(s) && FaultFree(s, Deliver(q, env)) && q.body.ChangedCall?
    ensures WellKeyed(s.engines[q.to].node)
    ensures Mutual(s, q.caller, q.body.update.connection.id)
    ensures var g, effect := s.engines[q.to], OnDeliver(s.engines[q.to], q, env);
            var r := s.engines[q.caller].node.heap[q.body.update.connection.id].remoteId;
            && effect.engine == g.(node := effect.engine.node)
            && OnlyInforms(g.node, effect.engine.node, r, q.body.update.snapshot.version, false)
            && effect.replies == {Reply(q, Done)}
  {
    hide CleanInv, SafetyInv, ReliableInv, NodeInv, OpOk, WellKeyed;
    CleanFacts(s, q.to);
    UpdateIsMutual(s, q, env);
    MutualIsFound(s, q.caller, q.body.update.connection.id);
    UpdateSucceeds(s, q, env);
  }

  lemma OfferedShape(s: System, e: Endpoint, reply: Reply, env: Env)
    requires CleanInv(s) && FaultFree(s, Return(e, reply, env)) && reply.answer.Offered?
    ensures s.engines[e].op.Connecting? && s.engines[e].op.id in s.engines[e].node.heap
    ensures var g, effect := s.engines[e], OnOffered(s.engines[e], reply.answer.offer, env);
            && !effect.engine.raised && effect.replies == {}
            && OnlyAdds(g.node, effect.engine.node) && effect.engine.node.heap.Keys == g.node.heap.Keys
            && effect.engine.op.Readying? && effect.engine.op.request.to == g.op.request.to
            && effect.engine.op.request.caller == e && effect.engine.op.request.call == g.calls
            && effect.engine.op.request.body.ReadyCall?
            && effect.engine.op.request.body.update.snapshot.version == |g.node.log|
  {
    hide CleanInv, SafetyInv, ReliableInv, NodeInv, OpOk, WellKeyed;
    CleanFacts(s, e);
    LinkSucceeds(s, e, reply, env);
    HandshakeFacts(s, e);
  }

  lemma SharedShape(s: System, e: Endpoint, reply: Reply, env: Env)
    requires CleanInv(s) && FaultFree(s, Return(e, reply, env)) && reply.answer.Shared?
    ensures s.engines[e].op.Readying? && s.engines[e].op.id in s.engines[e].node.heap
    ensures var g, effect := s.engines[e], OnShared(s.engines[e], reply.answer.snapshot, env);
            && !effect.engine.raised && effect.replies == {} && effect.engine.op == Idle
            && OnlyInforms(g.node, effect.engine.node, g.op.id, reply.answer.snapshot.version, true)
            && reply.request == g.op.request
  {
    hide CleanInv, SafetyInv, ReliableInv, NodeInv, OpOk, WellKeyed;
    CleanFacts(s, e);
    FinishSucceeds(s, e, reply, env);
  }

  // ----- Keeping pairs and handshakes ------------------------------------------------------

  lemma PairFrame(s: System, s': System, e: Endpoint, b: ConnectionId)
    requires SystemGrows(s, s') && b != 0 && Mutual(s, e, b) && FarReady(s, e, b) && FarInformed(s, e, b)
    requires |s'.engines[e].node.log| == |s.engines[e].node.log|
    requires var p := s.engines[e].node.heap[b];
             && s'.engines[p.endpoint].node.heap[p.remoteId].remoteVersion == Far(s, e, b).remoteVersion
             && (s.engines[p.endpoint].op.Readying? && s.engines[p.endpoint].op.id == p.remoteId ==>
                   s'.engines[p.endpoint].op == s.engines[p.endpoint].op)
    requires b in s'.engines[e].node.heap && (Undelivered(s, e, b) ==> Undelivered(s', e, b))
    ensures Mutual(s', e, b) && FarReady(s', e, b) && FarInformed(s', e, b)
  {
    MutualStable(s, s', e, b);
  }

  lemma HandshakeFrame(s: System, s': System, e: Endpoint)
    requires SystemGrows(s, s') && e in s.engines && HandshakeOk(s, e) && s'.engines[e].op == s.engines[e].op
    requires s.engines[e].op.Readying? ==> s.engines[e].op.id != 0
    requires s.engines[e].op.Readying? && Replied(s', s.engines[e].op.request) ==> Replied(s, s.engines[e].op.request)
    requires |s'.engines[e].node.log| == |s.engines[e].node.log|
    requires s.engines[e].op.Readying? && Mutual(s, e, s.engines[e].op.id) ==>
               var p := s.engines[e].node.heap[s.engines[e].op.id];
               s'.engines[p.endpoint].node.heap[p.remoteId].remoteVersion == Far(s, e, s.engines[e].op.id).remoteVersion
    ensures HandshakeOk(s', e)
  {
    if s.engines[e].op.Readying? && Replied(s', s.engines[e].op.request) {
      MutualStable(s, s', e, s.engines[e].op.id);
    }
  }

  /** What the operations of a clean system look like. */
  lemma OpFacts(s: System, e: Endpoint)
    requires CleanInv(s) && e in s.engines
    ensures var op := s.engines[e].op;
            && (op.Readying? ==> op.request.body.ReadyCall? && op.id != 0 && op.request.caller == e && Mutual(s, e, op.id))
            && (op.Publishing? ==> op.request.body.ChangedCall? && op.request.caller == e)
  {
    hide CleanInv, SafetyInv, ReliableInv, NodeInv, Acknowledged;
    CleanFacts(s, e);
    if s.engines[e].op.Readying? {
      HandshakeFacts(s, e);
    }
  }

  /** A step at `x` that only adds peers and perhaps changes an operation that neither publishes nor
      is in its Ready stage. */
  ghost predicate AddStep(s: System, s': System, x: Endpoint) {
    && x in s.engines && SystemGrows(s, s') && SafetyInv(s')
    && (forall e <- s.engines :: e != x ==> s'.engines[e] == s.engines[e])
    && OnlyAdds(s.engines[x].node, s'.engines[x].node) && !s'.engines[x].raised
    && (forall id <- s'.engines[x].node.heap ::
          id !in s.engines[x].node.heap ==> s'.engines[x].node.heap[id].endpoint in s.engines)
    && (s'.engines[x].op == s.engines[x].op
        || (!s.engines[x].op.Publishing? && !s.engines[x].op.Readying? && NewOp(s, s', x)))
    && (forall r <- s'.replies :: r in s.replies || r.request.body.ConnectCall?)
  }

  ghost predicate NewOp(s: System, s': System, x: Endpoint)
    requires x in s.engines && x in s'.engines
  {
    var op' := s'.engines[x].op;
    || op' == Idle
    || (op'.Connecting? && op'.request.to in s.engines)
    || (op'.Readying? && op'.request.to in s.engines && !Replied(s', op'.request)
        && op'.request.body.ReadyCall? && op'.request.body.update.snapshot.version == |s.engines[x].node.log|)
  }

  lemma AddPair(s: System, s': System, x: Endpoint, e: Endpoint, b: ConnectionId)
    requires CleanInv(s) && AddStep(s, s', x) && e in s.engines && e in s'.engines
    requires b in s'.engines[e].node.heap && s'.engines[e].node.heap[b].state == READY
    ensures Mutual(s', e, b) && FarReady(s', e, b) && FarInformed(s', e, b)
  {
    hide CleanInv, SafetyInv, ReliableInv, NodeInv, OpOk, SystemGrows, FarReady, FarInformed, Clean;
    CleanFacts(s, e);
    OpFacts(s, e);
    assert b in s.engines[e].node.heap && s.engines[e].node.heap[b].state == READY;
    LinkNames(s, e, b);
    LinkStays(s, s', e, b);
    PairFrame(s, s', e, b);
  }

  lemma AddPairs(s: System, s': System, x: Endpoint, e: Endpoint)
    requires CleanInv(s) && AddStep(s, s', x) && e in s.engines && e in s'.engines
    ensures PairsOk(s', e)
  {
    hide CleanInv, AddStep, Mutual, FarReady, FarInformed;
    forall b <- s'.engines[e].node.heap | s'.engines[e].node.heap[b].state == READY
      ensures Mutual(s', e, b) && FarReady(s', e, b) && FarInformed(s', e, b)
    {
      AddPair(s, s', x, e, b);
    }
  }

  lemma AddHandshake(s: System, s': System, x: Endpoint, e: Endpoint)
    requires CleanInv(s) && AddStep(s, s', x) && e in s.engines && e in s'.engines
    ensures HandshakeOk(s', e)
  {
    hide CleanInv, SafetyInv, ReliableInv, NodeInv, OpOk, SystemGrows, Clean, PairsOk;
    CleanFacts(s, e);
    OpFacts(s, e);
    if s'.engines[e].op == s.engines[e].op {
      HandshakeFrame(s, s', e);
    }
  }

  // ----- Keeping the rest ------------------------------------------------------------------

  /** A peer's recorded version never exceeds the log it counts. */
  lemma VersionBound(s: System, e: Endpoint, id: ConnectionId)
    requires SafetyInv(s) && e in s.engines && id in s.engines[e].node.heap && s.engines[e].node.heap[id].remoteId != 0
    ensures var p := s.engines[e].node.heap[id];
            p.endpoint in s.engines && p.remoteVersion <= |s.engines[p.endpoint].node.log|
  {
    LinkFacts(s, e, id);
  }

  /** The operation part of AddClean. */
  lemma AddCleanOp(s: System, s': System, x: Endpoint)
    requires x in s.engines && Clean(s, x) && AddStep(s, s', x)
    ensures var g := s'.engines[x];
            && g.op != ShuttingDown && !g.op.Disconnecting?
            && (g.op != Idle ==> g.op.request.to in s'.engines)
            && (g.op.Readying? ==> g.op.request.body.ReadyCall? && g.op.request.body.update.snapshot.version == |g.node.log|)
            && (g.op.Publishing? ==>
                  && g.op.snapshot.version == |g.node.log|
                  && forall c <- g.op.captured :: c.id in g.node.heap && g.node.heap[c.id].state == READY)
  {
    hide SafetyInv, Live, Replied;
  }

  lemma AddCleanNode(s: System, s': System, x: Endpoint)
    requires x in s.engines && Clean(s, x) && AddStep(s, s', x)
    ensures var n := s'.engines[x].node;
            !n.closed && forall id <- n.heap :: Live(n, id) && n.heap[id].endpoint in s'.engines
  {
    hide SafetyInv, Replied, NewOp;
  }

  lemma AddClean(s: System, s': System, x: Endpoint, e: Endpoint)
    requires CleanInv(s) && e in s.engines && e in s'.engines && AddStep(s, s', x)
    ensures Clean(s', e)
  {
    hide CleanInv, SafetyInv, ReliableInv, NodeInv, PairsOk, HandshakeOk, OnlyAdds, NewOp, Grows, Live, Replied;
    CleanFacts(s, e);
    if e == x {
      AddCleanOp(s, s', x);
      AddCleanNode(s, s', x);
    }
  }

  lemma OneMoreReply(s: System, replies: set<Reply>, r: Reply)
    requires OneReply(s) && !Replied(s, r.request) && r.answer != Failed && replies == s.replies + {r}
    ensures OneReply(s.(replies := replies))
  {
  }

  /** The replies after a delivery. */
  lemma DeliverReply(s: System, q: Request, env: Env, s': System, r: Reply)
    requires CleanInv(s) && Reliable(s, Deliver(q, env)) && r.request == q && r.answer != Failed
    requires s'.replies == s.replies + {r}
    ensures OneReply(s') && !Replied(s, q)
  {
    hide SafetyInv, ReliableInv, NodeInv;
    OneMoreReply(s, s'.replies, r);
  }

  // ----- Each step keeps the invariant at each engine ---------------------------------------

  ghost predicate AllOk(s: System, e: Endpoint) {
    e in s.engines && Clean(s, e) && PairsOk(s, e) && HandshakeOk(s, e)
  }

  lemma AddAll(s: System, s': System, x: Endpoint, e: Endpoint)
    requires CleanInv(s) && e in s.engines && e in s'.engines && AddStep(s, s', x)
    ensures AllOk(s', e)
  {
    hide CleanInv, AddStep, Clean, PairsOk, HandshakeOk;
    AddPairs(s, s', x, e);
    AddHandshake(s, s', x, e);
    AddClean(s, s', x, e);
  }

  lemma StartConnectAdds(s: System, x: Endpoint, target: Endpoint, env: Env, s': System)
    requires CleanInv(s) && FaultFree(s, StartConnect(x, target, env)) && WellKeyed(s.engines[x].node)
    requires s' == Install(s, x, OnStartConnect(s.engines[x], target, env)) && SystemGrows(s, s') && SafetyInv(s')
    ensures AddStep(s, s', x) && OneReply(s')
  {
    hide CleanInv, SafetyInv, ReliableInv, NodeInv, OnlyAdds, OpOk, SystemGrows, Clean, PairsOk, HandshakeOk;
    CleanFacts(s, x);
    StartConnectShape(s, x, target, env);
  }

  lemma ConnectAdds(s: System, q: Request, env: Env, s': System)
    requires CleanInv(s) && FaultFree(s, Deliver(q, env)) && q.body.ConnectCall? && WellKeyed(s.engines[q.to].node)
    requires s' == Install(s, q.to, OnDeliver(s.engines[q.to], q, env)) && SystemGrows(s, s') && SafetyInv(s')
    ensures AddStep(s, s', q.to) && OneReply(s')
  {
    hide CleanInv, SafetyInv, ReliableInv, NodeInv, OnlyAdds, OpOk, SystemGrows, Clean, PairsOk, HandshakeOk, OneReply, OnDeliver;
    ConnectShape(s, q, env);
    CleanFacts(s, q.to);
    CleanNotRaised(s, q.to);
    var offer :| OnDeliver(s.engines[q.to], q, env).replies == {Reply(q, Offered(offer))};
    DeliverReply(s, q, env, s', Reply(q, Offered(offer)));
  }

  lemma CleanNotRaised(s: System, e: Endpoint)
    requires e in s.engines && Clean(s, e)
    ensures !s.engines[e].raised
  {
  }

  lemma OfferedAdds(s: System, x: Endpoint, reply: Reply, env: Env, s': System)
    requires CleanInv(s) && FaultFree(s, Return(x, reply, env)) && reply.answer.Offered?
    requires s.engines[x].op.Connecting? && s.engines[x].op.id in s.engines[x].node.heap
    requires s' == Install(s, x, OnOffered(s.engines[x], reply.answer.offer, env)) && SystemGrows(s, s') && SafetyInv(s')
    ensures AddStep(s, s', x) && OneReply(s')
  {
    hide CleanInv, SafetyInv, ReliableInv, NodeInv, OnlyAdds, OpOk, SystemGrows, Clean, PairsOk, HandshakeOk, OnOffered;
    OfferedShape(s, x, reply, env);
    CleanFacts(s, x);
    FreshUnanswered(s, x, s'.engines[x].op.request);
    OfferTarget(s, x);
  }

  lemma OfferTarget(s: System, e: Endpoint)
    requires CleanInv(s) && e in s.engines && s.engines[e].op != Idle
    ensures s.engines[e].op != ShuttingDown && s.engines[e].op.request.to in s.engines
  {
    CleanFacts(s, e);
  }

  /** Two mutual peers with the same far end are the same peer. */
  lemma MutualUnique(s: System, e: Endpoint, b: ConnectionId, y: Endpoint, a: ConnectionId)
    requires Mutual(s, e, b) && Mutual(s, y, a)
    requires s.engines[e].node.heap[b].endpoint == s.engines[y].node.heap[a].endpoint
    requires s.engines[e].node.heap[b].remoteId == s.engines[y].node.heap[a].remoteId
    ensures e == y && a == b
  {
  }

  // ----- publish, first block --------------------------------------------------------------

  ghost predicate PublishStep(s: System, s': System, x: Endpoint, targets: seq<Connection>) {
    && x in s.engines && SystemGrows(s, s') && SafetyInv(s') && s'.replies == s.replies
    && (forall e <- s.engines :: e != x ==> s'.engines[e] == s.engines[e])
    && var n, g' := s.engines[x].node, s'.engines[x];
    && g'.node.heap == n.heap && g'.node.peers == n.peers && |g'.node.log| == |n.log| + 1
    && !g'.node.closed && !g'.raised && s.engines[x].op == Idle
    && Captures(n, targets)
    && (targets == [] ==> g'.op == Idle)
    && (targets != [] ==>
          && g'.op.Publishing? && g'.op.current == targets[0] && g'.op.rest == targets[1..]
          && g'.op.captured == (set c | c in targets) && g'.op.snapshot.version == |g'.node.log|
          && g'.op.request.to == targets[0].endpoint && !Replied(s', g'.op.request))
  }

  lemma PublishIsStep(s: System, x: Endpoint, metadata: Blob, targets: seq<Connection>, s': System)
    requires CleanInv(s) && FaultFree(s, StartPublish(x, metadata, targets))
    requires s' == Install(s, x, OnStartPublish(s.engines[x], metadata, targets)) && SystemGrows(s, s') && SafetyInv(s')
    ensures PublishStep(s, s', x, targets) && OneReply(s')
  {
    hide CleanInv, SafetyInv, ReliableInv, OpOk, SystemGrows, PairsOk, HandshakeOk, Captures;
    CleanFacts(s, x);
    assert s.engines[x].node.metadata == s.engines[x].node.log;
    hide NodeInv;
    if targets != [] {
      FreshUnanswered(s, x, s'.engines[x].op.request);
    }
  }

  lemma PublishPair(s: System, s': System, x: Endpoint, targets: seq<Connection>, e: Endpoint, b: ConnectionId)
    requires CleanInv(s) && PublishStep(s, s', x, targets) && e in s.engines && e in s'.engines
    requires b in s'.engines[e].node.heap && s'.engines[e].node.heap[b].state == READY
    ensures Mutual(s', e, b) && FarReady(s', e, b) && FarInformed(s', e, b)
  {
    hide CleanInv, SafetyInv, ReliableInv, NodeInv, OpOk, SystemGrows, HandshakeOk;
    CleanFacts(s, e);
    LinkNames(s, e, b);
    LinkStays(s, s', e, b);
    GrowsKeys(s, s');
    if e == x {
      var n := s.engines[x].node;
      var c := Connection(n.heap[b].endpoint, b);
      assert IsTarget(n, c);
      assert c in targets && targets == [targets[0]] + targets[1..];
      FarReadyFrame(s, s', e, b);
    } else {
      hide Clean, FarReady, FarInformed, Captures, PairsOk;
      PairFrame(s, s', e, b);
    }
  }

  lemma FarReadyFrame(s: System, s': System, e: Endpoint, b: ConnectionId)
    requires SystemGrows(s, s') && b != 0 && Mutual(s, e, b) && FarReady(s, e, b)
    requires var p := s.engines[e].node.heap[b];
             p.endpoint in s'.engines &&
             (s.engines[p.endpoint].op.Readying? && s.engines[p.endpoint].op.id == p.remoteId ==>
                s'.engines[p.endpoint].op == s.engines[p.endpoint].op)
    ensures Mutual(s', e, b) && FarReady(s', e, b)
  {
    MutualStable(s, s', e, b);
  }

  lemma PublishAll(s: System, s': System, x: Endpoint, targets: seq<Connection>, e: Endpoint)
    requires CleanInv(s) && PublishStep(s, s', x, targets) && e in s.engines && e in s'.engines
    ensures AllOk(s', e)
  {
    hide CleanInv, Mutual, FarReady, FarInformed, SafetyInv, SystemGrows, ReliableInv, NodeInv, OpOk, Captures;
    forall b <- s'.engines[e].node.heap | s'.engines[e].node.heap[b].state == READY
      ensures Mutual(s', e, b) && FarReady(s', e, b) && FarInformed(s', e, b)
    {
      PublishPair(s, s', x, targets, e, b);
    }
    assert PairsOk(s', e);
    hide PairsOk;
    PublishClean(s, s', x, targets, e);
  }

  lemma PublishClean(s: System, s': System, x: Endpoint, targets: seq<Connection>, e: Endpoint)
    requires CleanInv(s) && PublishStep(s, s', x, targets) && e in s.engines && e in s'.engines
    ensures Clean(s', e) && HandshakeOk(s', e)
  {
    hide CleanInv, SafetyInv, ReliableInv, NodeInv, OpOk, PairsOk, SystemGrows;
    CleanFacts(s, e);
    OpFacts(s, e);
    GrowsKeys(s, s');
    if e == x {
      forall c <- targets
        ensures c.id in s.engines[x].node.heap && s.engines[x].node.heap[c.id].state == READY && c.endpoint in s.engines
      {
        assert IsTarget(s.engines[x].node, c);
      }
    } else {
      hide Captures;
      HandshakeFrame(s, s', e);
    }
  }

  lemma GrowsKeys(s: System, s': System)
    requires SystemGrows(s, s')
    ensures s'.engines.Keys == s.engines.Keys
  {
  }

  // ----- The Ready and Changed handlers ----------------------------------------------------

  /** Engine `x` handles an update of peer `a` of `y`, whose counterpart is its peer `r`. */
  ghost predicate InformStep(s: System, s': System, x: Endpoint, y: Endpoint, a: ConnectionId, r: ConnectionId, reply: Reply) {
    && x in s.engines && y in s.engines && x != y && SystemGrows(s, s') && SafetyInv(s')
    && (forall e <- s.engines :: e != x ==> s'.engines[e] == s.engines[e])
    && Mutual(s, y, a) && s.engines[y].node.heap[a].endpoint == x && s.engines[y].node.heap[a].remoteId == r
    && s'.engines[x] == s.engines[x].(node := s'.engines[x].node)
    && s'.replies == s.replies + {reply} && !Replied(s, reply.request)
    && s.engines[y].op.Awaits(reply.request)
    && var n, n' := s.engines[x].node, s'.engines[x].node;
    && ((reply.answer.Shared? && reply.answer.snapshot.version == |n.log|
         && OnlyInforms(n, n', r, |s.engines[y].node.log|, true)
         && s.engines[y].op.Readying? && s.engines[y].op.id == a)
        || (reply.answer.Done? && OnlyInforms(n, n', r, |s.engines[y].node.log|, false)
            && s.engines[y].op.Publishing? && s.engines[y].op.current == Connection(x, a)))
  }

  lemma ReadyIsStep(s: System, q: Request, env: Env, s': System)
    requires CleanInv(s) && FaultFree(s, Deliver(q, env)) && q.body.ReadyCall? && WellKeyed(s.engines[q.to].node)
    requires s' == Install(s, q.to, OnDeliver(s.engines[q.to], q, env)) && SystemGrows(s, s') && SafetyInv(s')
    ensures OneReply(s') && exists a, r, reply :: InformStep(s, s', q.to, q.caller, a, r, reply)
  {
    hide CleanInv, SafetyInv, ReliableInv, NodeInv, OpOk, SystemGrows, OneReply, OnlyInforms, OnDeliver, WellKeyed;
    ReadyShape(s, q, env);
    UpdateIsMutual(s, q, env);
    var a := q.body.update.connection.id;
    var snapshot :| OnDeliver(s.engines[q.to], q, env).replies == {Reply(q, Shared(snapshot))} && snapshot.version == |s.engines[q.to].node.log|;
    DeliverReply(s, q, env, s', Reply(q, Shared(snapshot)));
    LinkNames(s, q.caller, a) by { CleanFacts(s, q.caller); }
    assert InformStep(s, s', q.to, q.caller, a, s.engines[q.caller].node.heap[a].remoteId, Reply(q, Shared(snapshot)));
  }

  lemma ChangedIsStep(s: System, q: Request, env: Env, s': System)
    requires CleanInv(s) && FaultFree(s, Deliver(q, env)) && q.body.ChangedCall? && WellKeyed(s.engines[q.to].node)
    requires s' == Install(s, q.to, OnDeliver(s.engines[q.to], q, env)) && SystemGrows(s, s') && SafetyInv(s')
    ensures OneReply(s') && exists a, r, reply :: InformStep(s, s', q.to, q.caller, a, r, reply)
  {
    hide CleanInv, SafetyInv, ReliableInv, NodeInv, OpOk, SystemGrows, OneReply, OnlyInforms, OnDeliver, WellKeyed;
    ChangedShape(s, q, env);
    UpdateIsMutual(s, q, env);
    var a := q.body.update.connection.id;
    DeliverReply(s, q, env, s', Reply(q, Done));
    LinkNames(s, q.caller, a) by { CleanFacts(s, q.caller); }
    assert InformStep(s, s', q.to, q.caller, a, s.engines[q.caller].node.heap[a].remoteId, Reply(q, Done));
  }

  /** The counterpart that was just informed, seen from its owner's peer. */
  lemma InformedFar(s: System, s': System, x: Endpoint, y: Endpoint, a: ConnectionId, r: ConnectionId, reply: Reply)
    requires CleanInv(s) && InformStep(s, s', x, y, a, r, reply) && a != 0
    ensures Mutual(s', y, a) && Far(s', y, a).remoteVersion == |s.engines[y].node.log|
    ensures reply.answer.Shared? ==> Far(s', y, a).state == READY
  {
    hide CleanInv, ReliableInv, NodeInv, OpOk, PairsOk, HandshakeOk, SafetyInv, Clean, SystemGrows;
    CleanFacts(s, y);
    MutualStable(s, s', y, a);
    LinkNames(s, x, r);
    VersionBound(s, x, r);
  }

  lemma InformPair(s: System, s': System, x: Endpoint, y: Endpoint, a: ConnectionId, r: ConnectionId, reply: Reply, e: Endpoint, b: ConnectionId)
    requires CleanInv(s) && InformStep(s, s', x, y, a, r, reply) && e in s.engines && e in s'.engines
    requires b in s'.engines[e].node.heap && s'.engines[e].node.heap[b].state == READY
    ensures Mutual(s', e, b) && FarReady(s', e, b) && FarInformed(s', e, b)
  {
    hide CleanInv, SafetyInv, ReliableInv, NodeInv, OpOk, HandshakeOk, Clean, SystemGrows;
    CleanFacts(s, e);
    CleanFacts(s, y);
    OpFacts(s, e);
    OpFacts(s, y);
    LinkNames(s, y, a);
    LinkNames(s, e, b);
    LinkStays(s, s', e, b);
    if e == x && b == r && reply.answer.Shared? {
      assert Mutual(s, e, b);
      MutualStable(s, s', e, b);
      assert reply in s'.replies;
    } else if e == y && a == b {
      InformedFar(s, s', x, y, a, r, reply);
      hide FarInformed;
      FarReadyFrame(s, s', e, b);
      OwnerInformed(s', e, b);
    } else {
      OtherPair(s, s', x, y, a, r, reply, e, b);
    }
  }

  lemma OwnerInformed(s: System, e: Endpoint, b: ConnectionId)
    requires Mutual(s, e, b) && Far(s, e, b).remoteVersion == |s.engines[e].node.log|
    ensures FarInformed(s, e, b)
  {
  }

  lemma OtherPair(s: System, s': System, x: Endpoint, y: Endpoint, a: ConnectionId, r: ConnectionId, reply: Reply, e: Endpoint, b: ConnectionId)
    requires CleanInv(s) && InformStep(s, s', x, y, a, r, reply) && e in s.engines && e in s'.engines
    requires b in s.engines[e].node.heap && b in s'.engines[e].node.heap && b != 0
    requires s.engines[e].node.heap[b].state == READY && !(e == y && a == b)
    requires s'.engines[e].node.heap[b].endpoint == s.engines[e].node.heap[b].endpoint
    requires s.engines[e].op.Publishing? ==> s.engines[e].op.request.caller == e
    requires s.engines[y].op.request.caller == y
    ensures Mutual(s', e, b) && FarReady(s', e, b) && FarInformed(s', e, b)
  {
    hide CleanInv, SafetyInv, ReliableInv, NodeInv, OpOk, HandshakeOk, Clean, SystemGrows, FarReady, FarInformed;
    CleanFacts(s, e);
    var p := s.engines[e].node.heap[b];
    if p.endpoint == x && p.remoteId == r {
      MutualUnique(s, e, b, y, a);
    }
    hide Mutual;
    UndeliveredKept(s, s', x, y, a, r, reply, e, b);
    PairFrame(s, s', e, b);
  }

  lemma UndeliveredKept(s: System, s': System, x: Endpoint, y: Endpoint, a: ConnectionId, r: ConnectionId, reply: Reply, e: Endpoint, b: ConnectionId)
    requires InformStep(s, s', x, y, a, r, reply) && e in s.engines && e in s'.engines
    requires b in s.engines[e].node.heap && b in s'.engines[e].node.heap && !(e == y && a == b)
    requires s'.engines[e].node.heap[b].endpoint == s.engines[e].node.heap[b].endpoint
    requires s.engines[e].op.Publishing? ==> s.engines[e].op.request.caller == e
    requires s.engines[y].op.request.caller == y
    ensures Undelivered(s, e, b) ==> Undelivered(s', e, b)
  {
    hide SystemGrows, SafetyInv, Mutual, OnlyInforms;
  }

  lemma InformHandshake(s: System, s': System, x: Endpoint, y: Endpoint, a: ConnectionId, r: ConnectionId, reply: Reply, e: Endpoint)
    requires CleanInv(s) && InformStep(s, s', x, y, a, r, reply) && e in s.engines && e in s'.engines
    ensures HandshakeOk(s', e)
  {
    hide CleanInv, SafetyInv, ReliableInv, NodeInv, OpOk, PairsOk, Clean, SystemGrows;
    CleanFacts(s, e);
    CleanFacts(s, y);
    OpFacts(s, e);
    OpFacts(s, y);
    LinkNames(s, y, a);
    if e == y {
      InformedFar(s, s', x, y, a, r, reply);
    } else {
      HandshakeFrame(s, s', e);
    }
  }

  lemma InformClean(s: System, s': System, x: Endpoint, y: Endpoint, a: ConnectionId, r: ConnectionId, reply: Reply, e: Endpoint)
    requires CleanInv(s) && InformStep(s, s', x, y, a, r, reply) && e in s.engines && e in s'.engines
    ensures Clean(s', e)
  {
    hide CleanInv, SafetyInv, ReliableInv, NodeInv, OpOk, PairsOk, HandshakeOk, SystemGrows;
    CleanFacts(s, e);
    GrowsKeys(s, s');
  }

  lemma InformAll(s: System, s': System, x: Endpoint, y: Endpoint, a: ConnectionId, r: ConnectionId, reply: Reply, e: Endpoint)
    requires CleanInv(s) && InformStep(s, s', x, y, a, r, reply) && e in s.engines && e in s'.engines
    ensures AllOk(s', e)
  {
    hide CleanInv, InformStep, Mutual, FarReady, FarInformed, Clean, HandshakeOk;
    forall b <- s'.engines[e].node.heap | s'.engines[e].node.heap[b].state == READY
      ensures Mutual(s', e, b) && FarReady(s', e, b) && FarInformed(s', e, b)
    {
      InformPair(s, s', x, y, a, r, reply, e, b);
    }
    InformHandshake(s, s', x, y, a, r, reply, e);
    InformClean(s, s', x, y, a, r, reply, e);
  }

  // ----- connect, third block --------------------------------------------------------------

  /** Engine `x` finishes its handshake for peer `a` with the answered snapshot. */
  ghost predicate FinishStep(s: System, s': System, x: Endpoint, a: ConnectionId, reply: Reply) {
    && x in s.engines && SystemGrows(s, s') && SafetyInv(s') && s'.replies == s.replies
    && (forall e <- s.engines :: e != x ==> s'.engines[e] == s.engines[e])
    && Mutual(s, x, a) && reply in s.replies && reply.answer.Shared?
    && s.engines[x].op.Readying? && s.engines[x].op.id == a && s.engines[x].op.request == reply.request
    && !s'.engines[x].raised && s'.engines[x].op == Idle
    && OnlyInforms(s.engines[x].node, s'.engines[x].node, a, reply.answer.snapshot.version, true)
    && reply.answer.snapshot.version <= |s.engines[s.engines[x].node.heap[a].endpoint].node.log|
  }

  lemma SharedIsStep(s: System, x: Endpoint, reply: Reply, env: Env, s': System)
    requires CleanInv(s) && FaultFree(s, Return(x, reply, env)) && reply.answer.Shared?
    requires s.engines[x].op.Readying? && s.engines[x].op.id in s.engines[x].node.heap
    requires s' == Install(s, x, OnShared(s.engines[x], reply.answer.snapshot, env)) && SystemGrows(s, s') && SafetyInv(s')
    ensures FinishStep(s, s', x, s.engines[x].op.id, reply) && OneReply(s')
  {
    hide CleanInv, SafetyInv, ReliableInv, NodeInv, OpOk, SystemGrows, OnlyInforms, OnShared;
    SharedShape(s, x, reply, env);
    CleanFacts(s, x);
    ReplyFacts(s, reply);
    OpFacts(s, x);
    HandshakeFacts(s, x);
  }

  /** The recorded version of the far end's counterpart after the import. */
  lemma FinishedVersion(s: System, s': System, x: Endpoint, a: ConnectionId, reply: Reply, e: Endpoint, b: ConnectionId)
    requires CleanInv(s) && FinishStep(s, s', x, a, reply) && e in s.engines && b != 0 && Mutual(s, e, b)
    requires s.engines[e].node.heap[b].endpoint == x && s.engines[e].node.heap[b].remoteId == a
    ensures Mutual(s', e, b) && Far(s', e, b).state == READY
    ensures Far(s, e, b).remoteVersion == |s.engines[e].node.log| ==> Far(s', e, b).remoteVersion == |s.engines[e].node.log|
    ensures Carried(s, x, a, |s.engines[e].node.log|) ==> Far(s', e, b).remoteVersion == |s.engines[e].node.log|
  {
    hide CleanInv, SafetyInv, ReliableInv, NodeInv, OpOk, PairsOk, HandshakeOk, Clean, SystemGrows;
    CleanFacts(s, x);
    MutualStable(s, s', e, b);
    LinkNames(s, x, a);
    VersionBound(s, x, a);
    if Carried(s, x, a, |s.engines[e].node.log|) {
      var r :| r in s.replies && r.request == s.engines[x].op.request && r.answer.Shared? && r.answer.snapshot.version == |s.engines[e].node.log|;
      assert r == reply;
    }
  }

  lemma FinishPair(s: System, s': System, x: Endpoint, a: ConnectionId, reply: Reply, e: Endpoint, b: ConnectionId)
    requires CleanInv(s) && FinishStep(s, s', x, a, reply) && e in s.engines && e in s'.engines
    requires b in s'.engines[e].node.heap && s'.engines[e].node.heap[b].state == READY
    ensures Mutual(s', e, b) && FarReady(s', e, b) && FarInformed(s', e, b)
  {
    hide CleanInv, SafetyInv, ReliableInv, NodeInv, OpOk, Clean, SystemGrows;
    CleanFacts(s, e);
    LinkNames(s, e, b);
    LinkStays(s, s', e, b);
    if e == x && b == a {
      MutualStable(s, s', e, b);
      FinishedOwn(s, s', x, a, reply);
    } else {
      var p := s.engines[e].node.heap[b];
      assert Mutual(s, e, b);
      if p.endpoint == x && p.remoteId == a {
        FinishedVersion(s, s', x, a, reply, e, b);
      } else {
        hide FarReady, FarInformed, Mutual, HandshakeOk, PairsOk;
        PairFrame(s, s', e, b);
      }
    }
  }

  /** The finishing engine's own peer: its far end was READY and informed when it answered. */
  lemma FinishedOwn(s: System, s': System, x: Endpoint, a: ConnectionId, reply: Reply)
    requires CleanInv(s) && FinishStep(s, s', x, a, reply) && Mutual(s', x, a) && a != 0
    ensures FarReady(s', x, a) && FarInformed(s', x, a)
  {
    hide CleanInv, SafetyInv, ReliableInv, NodeInv, OpOk, Clean, SystemGrows, PairsOk;
    CleanFacts(s, x);
    LinkNames(s, x, a);
    assert Replied(s, s.engines[x].op.request);
    LinkStays(s, s', s.engines[x].node.heap[a].endpoint, s.engines[x].node.heap[a].remoteId);
  }

  lemma FinishHandshake(s: System, s': System, x: Endpoint, a: ConnectionId, reply: Reply, e: Endpoint)
    requires CleanInv(s) && FinishStep(s, s', x, a, reply) && e in s.engines && e in s'.engines
    ensures HandshakeOk(s', e)
  {
    hide CleanInv, SafetyInv, ReliableInv, NodeInv, OpOk, PairsOk, Clean, SystemGrows;
    CleanFacts(s, e);
    OpFacts(s, e);
    if e != x && s.engines[e].op.Readying? && Replied(s, s.engines[e].op.request) {
      var b := s.engines[e].op.id;
      LinkNames(s, e, b);
      if s.engines[e].node.heap[b].endpoint == x && s.engines[e].node.heap[b].remoteId == a {
        FinishedVersion(s, s', x, a, reply, e, b);
      } else {
        HandshakeFrame(s, s', e);
      }
    }
  }

  lemma FinishAll(s: System, s': System, x: Endpoint, a: ConnectionId, reply: Reply, e: Endpoint)
    requires CleanInv(s) && FinishStep(s, s', x, a, reply) && e in s.engines && e in s'.engines
    ensures AllOk(s', e)
  {
    hide CleanInv, FinishStep, Mutual, FarReady, FarInformed, Clean, HandshakeOk;
    forall b <- s'.engines[e].node.heap | s'.engines[e].node.heap[b].state == READY
      ensures Mutual(s', e, b) && FarReady(s', e, b) && FarInformed(s', e, b)
    {
      FinishPair(s, s', x, a, reply, e, b);
    }
    FinishHandshake(s, s', x, a, reply, e);
    FinishClean(s, s', x, a, reply, e);
  }

  lemma FinishClean(s: System, s': System, x: Endpoint, a: ConnectionId, reply: Reply, e: Endpoint)
    requires CleanInv(s) && FinishStep(s, s', x, a, reply) && e in s.engines && e in s'.engines
    ensures Clean(s', e)
  {
    hide CleanInv, SafetyInv, ReliableInv, NodeInv, OpOk, PairsOk, HandshakeOk, SystemGrows;
    CleanFacts(s, e);
    GrowsKeys(s, s');
  }

  // ----- publish, one acknowledgement ------------------------------------------------------

  /** Engine `x` has the acknowledgement of its current target and turns to the next, if any. */
  ghost predicate AckStep(s: System, s': System, x: Endpoint) {
    && x in s.engines && SystemGrows(s, s') && SafetyInv(s') && s'.replies == s.replies
    && (forall e <- s.engines :: e != x ==> s'.engines[e] == s.engines[e])
    && var g, op := s'.engines[x], s.engines[x].op;
    && g.node == s.engines[x].node && !g.raised && op.Publishing? && Replied(s, op.request)
    && (op.rest == [] ==> g.op == Idle)
    && (op.rest != [] ==>
          && g.op.Publishing? && g.op.current == op.rest[0] && g.op.rest == op.rest[1..]
          && g.op.captured == op.captured && g.op.snapshot == op.snapshot
          && g.op.request.to == op.rest[0].endpoint && g.op.request.to in s.engines && !Replied(s', g.op.request))
  }

  /** The next target of a publish is the endpoint of a live peer. */
  lemma NextTargetKnown(s: System, x: Endpoint)
    requires CleanInv(s) && x in s.engines && s.engines[x].op.Publishing? && s.engines[x].op.rest != []
    ensures s.engines[x].op.rest[0].endpoint in s.engines
  {
    hide CleanInv, SafetyInv, ReliableInv, NodeInv, Acknowledged;
    CleanFacts(s, x);
    assert s.engines[x].op.rest[0] in s.engines[x].op.captured;
  }

  lemma DoneIsStep(s: System, x: Endpoint, reply: Reply, env: Env, s': System)
    requires CleanInv(s) && FaultFree(s, Return(x, reply, env)) && reply.answer.Done? && s.engines[x].op.Publishing?
    requires s' == Install(s, x, OnAcknowledged(s.engines[x])) && SystemGrows(s, s') && SafetyInv(s')
    ensures AckStep(s, s', x) && OneReply(s')
  {
    hide CleanInv, SafetyInv, ReliableInv, SystemGrows, OneReply, PairsOk, HandshakeOk, EngineOk;
    CleanFacts(s, x);
    assert OneReply(s') by { SameReplies(s, s'); }
    assert s.engines[x].node.endpoint == x by { OwnEndpoint(s, x); }
    assert reply in s.replies && reply.request == s.engines[x].op.request;
    if s.engines[x].op.rest != [] {
      NextTargetKnown(s, x);
      FreshUnanswered(s, x, s'.engines[x].op.request);
    }
  }

  lemma SameReplies(s: System, s': System)
    requires OneReply(s) && s'.replies == s.replies
    ensures OneReply(s')
  {
  }

  lemma OwnEndpoint(s: System, x: Endpoint)
    requires x in s.engines && EngineOk(s, x)
    ensures s.engines[x].node.endpoint == x
  {
  }

  lemma AckPair(s: System, s': System, x: Endpoint, e: Endpoint, b: ConnectionId)
    requires CleanInv(s) && AckStep(s, s', x) && e in s.engines && e in s'.engines
    requires b in s'.engines[e].node.heap && s'.engines[e].node.heap[b].state == READY
    ensures Mutual(s', e, b) && FarReady(s', e, b) && FarInformed(s', e, b)
  {
    hide CleanInv, SafetyInv, ReliableInv, NodeInv, OpOk, Clean, SystemGrows, HandshakeOk, FarReady, FarInformed, Mutual;
    CleanFacts(s, e);
    LinkNames(s, e, b);
    var op := s.engines[x].op;
    if op.rest != [] {
      assert op.rest == [op.rest[0]] + op.rest[1..];
    }
    PairFrame(s, s', e, b);
  }

  lemma AckAll(s: System, s': System, x: Endpoint, e: Endpoint)
    requires CleanInv(s) && AckStep(s, s', x) && e in s.engines && e in s'.engines
    ensures AllOk(s', e)
  {
    hide CleanInv, Mutual, FarReady, FarInformed, Clean, HandshakeOk, SystemGrows, SafetyInv;
    forall b <- s'.engines[e].node.heap | s'.engines[e].node.heap[b].state == READY
      ensures Mutual(s', e, b) && FarReady(s', e, b) && FarInformed(s', e, b)
    {
      AckPair(s, s', x, e, b);
    }
    assert PairsOk(s', e);
    hide PairsOk;
    AckRest(s, s', x, e);
  }

  lemma AckRest(s: System, s': System, x: Endpoint, e: Endpoint)
    requires CleanInv(s) && AckStep(s, s', x) && e in s.engines && e in s'.engines
    ensures Clean(s', e) && HandshakeOk(s', e)
  {
    hide CleanInv, SafetyInv, ReliableInv, NodeInv, OpOk, PairsOk, SystemGrows;
    CleanFacts(s, e);
    OpFacts(s, e);
    GrowsKeys(s, s');
    if e != x {
      HandshakeFrame(s, s', e);
    }
  }

  // ----- Every step ------------------------------------------------------------------------

  lemma DeliverAll(s: System, q: Request, env: Env, s': System)
    requires CleanInv(s) && FaultFree(s, Deliver(q, env)) && WellKeyed(s.engines[q.to].node)
    requires s' == Install(s, q.to, OnDeliver(s.engines[q.to], q, env)) && SystemGrows(s, s') && SafetyInv(s')
    ensures OneReply(s') && forall e <- s.engines :: AllOk(s', e)
  {
    hide CleanInv, SafetyInv, SystemGrows, OneReply, AllOk, InformStep, AddStep, WellKeyed, OnDeliver, FaultFree;
    assert q.to in s.engines by { assert FaultFree(s, Deliver(q, env)); IsEnabled(s, Deliver(q, env)); }
    forall e <- s.engines
      ensures OneReply(s') && AllOk(s', e)
    {
      GrowsKeys(s, s');
      match q.body
      case ConnectCall(_) =>
        ConnectAdds(s, q, env, s');
        AddAll(s, s', q.to, e);
      case ReadyCall(_) =>
        ReadyIsStep(s, q, env, s');
        var a, r, reply :| InformStep(s, s', q.to, q.caller, a, r, reply);
        InformAll(s, s', q.to, q.caller, a, r, reply, e);
      case ChangedCall(_) =>
        ChangedIsStep(s, q, env, s');
        var a, r, reply :| InformStep(s, s', q.to, q.caller, a, r, reply);
        InformAll(s, s', q.to, q.caller, a, r, reply, e);
      case CloseCall(_) =>
        NoCloseCalls(s, q, env);
    }
  }

  lemma IsEnabled(s: System, step: Step)
    requires FaultFree(s, step)
    ensures Enabled(s, step) && Reliable(s, step) && Actor(step) in s.engines
  {
  }

  lemma NoCloseCalls(s: System, q: Request, env: Env)
    requires CleanInv(s) && FaultFree(s, Deliver(q, env))
    ensures !q.body.CloseCall?
  {
    hide CleanInv, SafetyInv, ReliableInv, NodeInv;
    CleanFacts(s, q.caller);
  }

  lemma ReturnAll(s: System, x: Endpoint, reply: Reply, env: Env, s': System)
    requires CleanInv(s) && FaultFree(s, Return(x, reply, env)) && Lookups(s)
    requires s' == Install(s, x, OnReturn(s.engines[x], reply.answer, env)) && SystemGrows(s, s') && SafetyInv(s')
    ensures OneReply(s') && forall e <- s.engines :: AllOk(s', e)
  {
    hide CleanInv, SafetyInv, SystemGrows, OneReply, AllOk, FinishStep, AckStep, AddStep, OnOffered, OnShared, OnAcknowledged;
    DoneIsPublish(s, x, reply, env);
    forall e <- s.engines
      ensures OneReply(s') && AllOk(s', e)
    {
      GrowsKeys(s, s');
      match reply.answer
      case Offered(_) =>
        OfferedAdds(s, x, reply, env, s');
        AddAll(s, s', x, e);
      case Shared(_) =>
        SharedIsStep(s, x, reply, env, s');
        FinishAll(s, s', x, s.engines[x].op.id, reply, e);
      case Done =>
        DoneIsStep(s, x, reply, env, s');
        AckAll(s, s', x, e);
    }
  }

  lemma StartAll(s: System, step: Step, s': System)
    requires CleanInv(s) && FaultFree(s, step) && Lookups(s) && (step.StartConnect? || step.StartPublish?)
    requires s' == Apply(s, step) && SystemGrows(s, s') && SafetyInv(s')
    ensures OneReply(s') && forall e <- s.engines :: AllOk(s', e)
  {
    hide CleanInv, SafetyInv, SystemGrows, OneReply, AllOk, PublishStep, AddStep;
    forall e <- s.engines
      ensures OneReply(s') && AllOk(s', e)
    {
      GrowsKeys(s, s');
      if step.StartConnect? {
        StartConnectAdds(s, step.e, step.target, step.env, s');
        AddAll(s, s', step.e, e);
      } else {
        PublishIsStep(s, step.e, step.metadata, step.targets, s');
        PublishAll(s, s', step.e, step.targets, e);
      }
    }
  }

  lemma StepKeepsClean(s: System, step: Step)
    requires CleanInv(s) && FaultFree(s, step)
    ensures Lookups(s) && CleanInv(Apply(s, step)) && SystemGrows(s, Apply(s, step))
  {
    IsEnabled(s, step);
    CleanFacts(s, Actor(step));
    hide CleanInv, SafetyInv, ReliableInv, Reliable, FaultFree;
    StepKeepsReliable(s, step);
    var s' := Apply(s, step);
    StillSafe(s');
    OnlyFour(s, step);
    hide SystemGrows, OneReply, AllOk;
    match step {
      case StartConnect(_, _, _) => StartAll(s, step, s');
      case StartPublish(_, _, _) => StartAll(s, step, s');
      case Deliver(q, env) => DeliverAll(s, q, env, s');
      case Return(x, reply, env) => ReturnAll(s, x, reply, env, s');
      case _ =>
    }
    GrowsKeys(s, s');
    CleanFrom(s, s');
  }

  lemma OnlyFour(s: System, step: Step)
    requires FaultFree(s, step)
    ensures step.StartConnect? || step.StartPublish? || step.Deliver? || step.Return?
  {
  }

  lemma StillSafe(s: System)
    requires ReliableInv(s)
    ensures SafetyInv(s)
  {
  }

  lemma CleanFrom(s: System, s': System)
    requires CleanInv(s) && ReliableInv(s') && OneReply(s') && s'.engines.Keys == s.engines.Keys
    requires forall e <- s.engines :: AllOk(s', e)
    ensures CleanInv(s')
  {
    hide ReliableInv, SafetyInv, Clean, PairsOk, HandshakeOk;
    forall e <- s'.engines
      ensures Clean(s', e) && PairsOk(s', e) && HandshakeOk(s', e)
    {
      assert AllOk(s', e);
    }
  }
}
