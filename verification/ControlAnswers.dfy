/** What every operation of the control plane answers, exactly, and what it leaves in the peers
    dictionary, the records and the native engine; and over whole runs, which peer the handle that
    connect returns stands for. */
module ControlAnswers {
  import opened Control
  import opened ControlNode
  import opened ControlSystem
  import opened ControlSafety
  import opened ControlSafetySteps
  import opened ControlTheorems
  import opened Options

  predicate HandleOf(n: Node, id: ConnectionId, h: Handle) {
    Live(n, id) && n.heap[id].handle == h
  }

  /** The handle stands for this live peer of the target and no other, and its native side is connected. */
  ghost predicate StandsFor(n: Node, h: Handle, target: Endpoint, id: ConnectionId) {
    && WellKeyed(n)
    && HandleOf(n, id, h) && n.heap[id].endpoint == target
    && (forall other :: HandleOf(n, other, h) ==> other == id)
    && (forall e :: HasHandle(n, e, h) <==> e == target)
    && h in n.native.qps && n.native.qps[h].phase == Joined
  }

  lemma LinkedStands(n: Node, id: ConnectionId)
    requires NodeInv(n) && Live(n, id) && n.heap[id].state != CREATED
    ensures StandsFor(n, n.heap[id].handle, n.heap[id].endpoint, id)
  {
    assert PeerOk(n, id);
    var p := n.heap[id];
    forall other | HandleOf(n, other, p.handle)
      ensures other == id
    {
      assert other in n.heap && id in n.heap;
    }
    forall e | HasHandle(n, e, p.handle)
      ensures e == p.endpoint
    {
      assert HandleOf(n, n.peers[e], p.handle);
    }
  }

  /** No live peer has the handle. */
  ghost predicate Unused(n: Node, h: Handle) {
    forall id :: !HandleOf(n, id, h)
  }

  lemma UnusedHandle(n: Node, h: Handle)
    requires WellKeyed(n)
    ensures Unused(n, h) <==> forall e :: !HasHandle(n, e, h)
  {
    if e :| HasHandle(n, e, h) {
      assert HandleOf(n, n.peers[e], h);
    }
    if id :| HandleOf(n, id, h) {
      assert HasHandle(n, n.heap[id].endpoint, h);
    }
  }

  // ----- connect ---------------------------------------------------------------------------

  /** The first block: every answer, and the only record it may add. */
  lemma BeginAnswers(n: Node, target: Endpoint, env: Env)
    requires NodeInv(n) && Fresh(n, env)
    ensures var out := BeginConnect(n, target, env);
            && (out.result == Raised(InvalidArgument) <==> target == 0 || target == n.endpoint)
            && (out.result == Raised(EngineClosed) <==> target != 0 && target != n.endpoint && n.closed)
            && (out.result == Raised(NativeFailure) <==>
                  target != 0 && target != n.endpoint && !n.closed && target !in n.peers && !env.createOk)
            && (out.result.Raised? ==> out.node == n && out.result.error in {InvalidArgument, EngineClosed, NativeFailure})
            && (out.result.Ok? && target in n.peers ==> out.node == n)
            && (out.result.Ok? && target !in n.peers ==>
                  out.node == n.(peers := n.peers[target := env.id], heap := out.node.heap, native := out.node.native)
                  && out.node.heap == n.heap[env.id := Peer(env.handle, target, env.exported, env.id, 0, CREATED, -1)])
  {
  }

  lemma BeginOffers(n: Node, target: Endpoint, env: Env)
    requires NodeInv(n) && Fresh(n, env) && BeginConnect(n, target, env).result.Ok?
    ensures var out := BeginConnect(n, target, env);
            && target in out.node.peers
            && var id := out.node.peers[target];
            && Live(out.node, id) && out.node.heap[id].endpoint == target
            && (out.result.value.Reuse? <==> out.node.heap[id].state == READY)
            && (out.result.value.Reuse? ==>
                  out.node == n && StandsFor(n, out.result.value.handle, target, id))
            && (out.result.value.SendOffer? ==>
                  && out.result.value.id == id
                  && out.result.value.offer == Offer(Connection(n.endpoint, id), out.node.heap[id].metadata)
                  && out.node.heap[id].handle in out.node.native.qps
                  && out.node.native.qps[out.node.heap[id].handle].exported == out.node.heap[id].metadata)
  {
    var out := BeginConnect(n, target, env);
    BeginConnectKeeps(n, target, env);
    var id := out.node.peers[target];
    assert PeerOk(out.node, id);
    if out.result.value.Reuse? {
      LinkedStands(n, id);
    }
    hide StandsFor, NodeInv;
  }

  /** An offer that _connect_native takes: the identity fits, and no other link stands in the way. */
  predicate Fits(p: Peer, offer: Offer) {
    && offer.connection.endpoint == p.endpoint && offer.connection.id != 0
    && (p.state == CREATED || p.remoteId == offer.connection.id)
  }

  /** Why an offer is refused, if it is. */
  function LinkError(p: Peer, offer: Offer, env: Env): Option<Error> {
    if offer.connection.endpoint != p.endpoint || offer.connection.id == 0 then Some(UnexpectedIdentity)
    else if !Fits(p, offer) then Some(DifferentConnection)
    else if p.state == CREATED && !env.connectOk then Some(NativeFailure)
    else None
  }

  /** After a successful link: the record and its QP point at the offered connection. */
  predicate PointsAt(n: Node, id: ConnectionId, offer: Offer) {
    && id in n.heap && n.heap[id].remoteId == offer.connection.id && n.heap[id].state != CREATED
    && n.heap[id].handle in n.native.qps && n.native.qps[n.heap[id].handle].phase == Joined
  }

  lemma NativeLinks(n: Node, id: ConnectionId, offer: Offer, env: Env)
    requires NodeInv(n) && Live(n, id)
    ensures var out, e := ConnectNative(n, id, offer, env), LinkError(n.heap[id], offer, env);
            && out.result == (if e.Some? then Raised(e.value) else Ok(()))
            && out.node.peers == n.peers && out.node.metadata == n.metadata
            && (e.Some? ==> out.node.heap == n.heap)
            && (e.None? ==> PointsAt(out.node, id, offer))
            && (e.None? && n.heap[id].state == CREATED ==> out.node.native.qps[n.heap[id].handle].remote == offer.metadata)
            && (n.heap[id].state != CREATED ==> out.node == n)
  {
    assert PeerOk(n, id);
  }

  /** The second block. */
  lemma LinkAnswers(n: Node, id: ConnectionId, answer: Offer, env: Env)
    requires NodeInv(n) && id in n.heap
    ensures var out, e := LinkConnect(n, id, answer, env), LinkError(n.heap[id], answer, env);
            && out.result == (if !Live(n, id) then Raised(PeerDisconnected)
                              else if e.Some? then Raised(e.value)
                              else Ok(Update(Connection(n.endpoint, id), Snapshot(|n.metadata|, n.metadata))))
            && out.node.peers == n.peers && out.node.metadata == n.metadata
            && (out.result.Raised? ==> out.node.heap == n.heap)
            && (out.result.Ok? ==> PointsAt(out.node, id, answer))
  {
    if Live(n, id) {
      NativeLinks(n, id, answer, env);
      hide ConnectNative, PointsAt, LinkError, NodeInv;
    }
  }

  /** A newer snapshot whose import raises before its end. */
  predicate ImportFails(p: Peer, snapshot: Snapshot, env: Env) {
    && snapshot.version > p.remoteVersion
    && env.importsBeforeFailure.Some? && env.importsBeforeFailure.value < |snapshot.memories|
  }

  /** The record knows the snapshot, and all of a newer one has been imported. */
  predicate Informed(n: Node, n': Node, id: ConnectionId, snapshot: Snapshot) {
    && id in n.heap && id in n'.heap && n.heap[id].handle in n.native.qps && n.heap[id].handle in n'.native.qps
    && var p, h := n.heap[id], n.heap[id].handle;
    && n'.heap[id].remoteVersion == (if snapshot.version > p.remoteVersion then snapshot.version else p.remoteVersion)
    && n'.native.qps[h].imports == n.native.qps[h].imports
         + (if snapshot.version > p.remoteVersion then set m | m in snapshot.memories else {})
  }

  lemma Imports(n: Node, id: ConnectionId, snapshot: Snapshot, env: Env)
    requires NodeInv(n) && Live(n, id) && n.heap[id].state != CREATED
    ensures var out := ImportSnapshot(n, id, snapshot, env);
            && out.result == (if ImportFails(n.heap[id], snapshot, env) then Raised(NativeFailure) else Ok(()))
            && out.node.peers == n.peers && out.node.metadata == n.metadata && id in out.node.heap
            && (out.result.Raised? ==> out.node.heap == n.heap)
            && (out.result.Ok? ==>
                  Informed(n, out.node, id, snapshot)
                  && out.node.heap == n.heap[id := n.heap[id].(remoteVersion := out.node.heap[id].remoteVersion)])
  {
    assert PeerOk(n, id);
    assert n.native.Usable(n.heap[id].handle, Joined);
    AllRegistered(snapshot.memories);
    hide NodeInv;
  }

  lemma AllRegistered(memories: seq<Blob>)
    ensures Registered(memories, |memories|) == set m | m in memories
  {
    forall m | m in memories
      ensures m in Registered(memories, |memories|)
    {
      var i :| 0 <= i < |memories| && memories[i] == m;
    }
  }

  /** The third block returns the handle that stands for the peer it has just made READY. */
  lemma FinishAnswers(n: Node, id: ConnectionId, answer: Snapshot, env: Env)
    requires NodeInv(n) && id in n.heap && n.heap[id].state != CREATED
    ensures var out := FinishConnect(n, id, answer, env);
            && (out.result == Raised(PeerDisconnected) <==> !Live(n, id))
            && (out.result == Raised(NativeFailure) <==> Live(n, id) && ImportFails(n.heap[id], answer, env))
            && (out.result.Raised? ==> out.node.heap == n.heap && out.result.error in {PeerDisconnected, NativeFailure})
            && (out.result.Ok? ==>
                  && Live(out.node, id) && out.node.heap[id].state == READY && Informed(n, out.node, id, answer)
                  && StandsFor(out.node, out.result.value, n.heap[id].endpoint, id))
            && out.node.peers == n.peers && out.node.metadata == n.metadata
  {
    if Live(n, id) {
      Imports(n, id, answer, env);
      ImportThenReadyKeeps(n, id, answer, env);
      var out := FinishConnect(n, id, answer, env);
      if out.result.Ok? {
        LinkedStands(out.node, id);
      }
      hide NodeInv, Grows, ImportSnapshot, StandsFor, ImportFails;
    }
  }

  // ----- publish, disconnect, close --------------------------------------------------------

  lemma PublishAnswers(n: Node, metadata: Blob)
    ensures var out, all := BeginPublish(n, metadata), n.metadata + [metadata];
            && out.result == (if n.closed then Raised(EngineClosed) else Ok(Snapshot(|n.metadata| + 1, all)))
            && out.node == if n.closed then n else n.(metadata := all, log := n.log + [metadata])
  {
  }

  /** Only this handle is destroyed. */
  predicate DestroyedOnly(n: Node, n': Node, h: Handle) {
    && n'.native.qps.Keys == n.native.qps.Keys && h in n.native.qps && n'.native.qps[h].phase == Destroyed
    && forall other <- n.native.qps :: other != h ==> n'.native.qps[other] == n.native.qps[other]
  }

  lemma Destroys(n: Node, id: ConnectionId, env: Env)
    requires NodeInv(n) && Live(n, id)
    ensures var out := DestroyPeer(n, id, env);
            && out.result == (if env.destroyOk then Ok(()) else Raised(NativeFailure))
            && out.node.heap == n.heap && out.node.metadata == n.metadata && out.node.log == n.log
            && (env.destroyOk ==>
                  out.node.peers == n.peers - {n.heap[id].endpoint} && DestroyedOnly(n, out.node, n.heap[id].handle))
            && (!env.destroyOk ==> out.node.peers == n.peers && out.node.native.qps == n.native.qps)
  {
    assert PeerOk(n, id);
  }

  /** disconnect, every answer: with a live peer under that handle it succeeds unless the native call fails;
      a failed native call leaves the peer live. */
  lemma DisconnectAnswers(n: Node, h: Handle, env: Env)
    requires NodeInv(n)
    ensures var out := BeginDisconnect(n, h, env);
            && (out.result == Raised(EngineClosed) <==> n.closed)
            && (out.result == Raised(UnknownPeer) <==> !n.closed && Unused(n, h))
            && (out.result == Raised(NativeFailure) <==> !n.closed && !Unused(n, h) && !env.destroyOk)
            && (out.result.Raised? ==> out.node.peers == n.peers && out.node.heap == n.heap && out.node.native.qps == n.native.qps)
            && (forall id :: HandleOf(n, id, h) && !n.closed && env.destroyOk ==>
                  && out.result == Ok(Connection(n.heap[id].endpoint, id))
                  && out.node.peers == n.peers - {n.heap[id].endpoint} && out.node.heap == n.heap
                  && DestroyedOnly(n, out.node, h))
  {
    UnusedHandle(n, h);
    if !n.closed && exists e :: HasHandle(n, e, h) {
      var e :| HasHandle(n, e, h) && BeginDisconnect(n, h, env) == DisconnectAt(n, e, env);
      Destroys(n, n.peers[e], env);
      assert HandleOf(n, n.peers[e], h);
      forall id | HandleOf(n, id, h)
        ensures id == n.peers[e] && n.heap[id].endpoint == e
      {
        assert id in n.heap && n.peers[e] in n.heap;
      }
      hide DestroyPeer, DestroyedOnly;
    }
  }

  /** close drops every record and registration, keeps what was ever logged, and closes the native engine
      once, without touching a handle. */
  lemma CloseAnswers(n: Node, ok: bool)
    ensures var n' := FinishClose(BeginClose(n), ok);
            && n'.closed && n'.peers == map[] && n'.metadata == [] && n'.heap == n.heap && n'.log == n.log
            && n'.native.qps == n.native.qps && (n'.native.closed <==> n.native.closed || ok)
            && (n'.native.misused == n.native.misused)
  {
  }

  // ----- The handlers ----------------------------------------------------------------------

  /** The Connect handler: which offers are answered, and with whose metadata. */
  lemma ConnectHandlerAnswers(n: Node, offer: Offer, env: Env)
    requires NodeInv(n) && Fresh(n, env)
    ensures var out, from := HandleConnect(n, offer, env), offer.connection.endpoint;
            && (out.result == Raised(InvalidArgument) <==> from == 0 || from == n.endpoint)
            && (out.result == Raised(EngineClosed) <==> from != 0 && from != n.endpoint && n.closed)
            && (from != 0 && from != n.endpoint && !n.closed ==>
                  if from in n.peers then
                    var id := n.peers[from]; var e := LinkError(n.heap[id], offer, env);
                    && out.result == (if e.Some? then Raised(e.value) else Ok(Offer(Connection(n.endpoint, id), n.heap[id].metadata)))
                    && out.node.peers == n.peers && (e.None? ==> PointsAt(out.node, id, offer))
                  else
                    && out.result == (if !env.createOk then Raised(NativeFailure)
                                      else if offer.connection.id == 0 then Raised(UnexpectedIdentity)
                                      else if !env.connectOk then Raised(NativeFailure)
                                      else Ok(Offer(Connection(n.endpoint, env.id), env.exported)))
                    && out.node.peers == (if env.createOk then n.peers[from := env.id] else n.peers)
                    && (out.result.Ok? ==> PointsAt(out.node, env.id, offer)))
  {
    var from := offer.connection.endpoint;
    if from != 0 && from != n.endpoint && !n.closed {
      var found := FindOrCreate(n, from, env);
      FindOrCreateKeeps(n, from, env);
      if found.result.Ok? {
        NativeLinks(found.node, found.result.value, offer, env);
        hide NodeInv, Grows, ConnectNative, PointsAt;
      }
    }
  }

  /** The live peer an update is for: under the endpoint it names, and linked to the id it names. */
  predicate Receives(n: Node, c: Connection, id: ConnectionId) {
    Live(n, id) && n.heap[id].endpoint == c.endpoint && n.heap[id].remoteId == c.id && c.id != 0
  }

  lemma Found(n: Node, c: Connection)
    requires WellKeyed(n)
    ensures FindConnection(n, c).Ok? ==> Receives(n, c, FindConnection(n, c).value)
    ensures forall id: ConnectionId :: Receives(n, c, id) ==> FindConnection(n, c) == Ok(id)
    ensures FindConnection(n, c).Raised? ==> FindConnection(n, c).error == UnknownConnection
  {
  }

  /** Ready and Changed: refused when closed or when no live peer is linked to that connection; otherwise
      the snapshot is imported unless an import raises, and Ready alone makes the peer READY and answers
      with all registrations. */
  lemma UpdateHandlersAnswer(n: Node, update: Update, env: Env)
    requires NodeInv(n)
    ensures var c := update.connection;
            var ready, changed := HandleReady(n, update, env), HandleChanged(n, update, env);
            && (n.closed ==> ready == Outcome(n, Raised(EngineClosed)) && changed == Outcome(n, Raised(EngineClosed)))
            && (!n.closed && (forall id :: !Receives(n, c, id)) ==>
                  ready == Outcome(n, Raised(UnknownConnection)) && changed == Outcome(n, Raised(UnknownConnection)))
            && (forall id :: !n.closed && Receives(n, c, id) ==>
                  var fails := ImportFails(n.heap[id], update.snapshot, env);
                  && ready.result == (if fails then Raised(NativeFailure) else Ok(Snapshot(|n.metadata|, n.metadata)))
                  && changed.result == (if fails then Raised(NativeFailure) else Ok(()))
                  && ready.node.peers == changed.node.peers == n.peers
                  && (!fails ==>
                        && Informed(n, ready.node, id, update.snapshot) && Informed(n, changed.node, id, update.snapshot)
                        && ready.node.heap[id].state == READY && changed.node.heap[id].state == n.heap[id].state))
  {
    var c := update.connection;
    Found(n, c);
    if !n.closed && FindConnection(n, c).Ok? {
      var id := FindConnection(n, c).value;
      assert PeerOk(n, id);
      Imports(n, id, update.snapshot, env);
      hide NodeInv, ImportSnapshot, ImportFails;
    }
  }

  /** The Close handler: refused when closed, otherwise it succeeds unless it has to destroy a peer and the
      native call fails. */
  lemma CloseHandlerAnswers(n: Node, c: Connection, env: Env)
    requires NodeInv(n)
    ensures var out := HandleClose(n, c, env);
            var linked := c.endpoint in n.peers && n.heap[n.peers[c.endpoint]].remoteId == c.id;
            && (out.result == Raised(EngineClosed) <==> n.closed)
            && (out.result == Raised(NativeFailure) <==> !n.closed && linked && !env.destroyOk)
            && (out.result == Ok(()) <==> !n.closed && (linked ==> env.destroyOk))
            && out.node.heap == n.heap
            && out.node.peers == (if out.result.Ok? && linked then n.peers - {c.endpoint} else n.peers)
            && (if out.result.Ok? && linked then DestroyedOnly(n, out.node, n.heap[n.peers[c.endpoint]].handle)
                else out.node.native.qps == n.native.qps)
  {
    if !n.closed && c.endpoint in n.peers {
      Destroys(n, n.peers[c.endpoint], env);
      hide DestroyPeer, DestroyedOnly, NodeInv;
    }
  }

  // ----- Whole runs ------------------------------------------------------------------------

  /** The peer a connect call of `e` is about when this step ends it normally. */
  ghost predicate Connected(s: System, step: Step, s': System, target: Endpoint, id: ConnectionId) {
    && Enabled(s, step) && Lookups(s) && Actor(step) in s'.engines
    && var e := Actor(step);
    && s'.engines[e].op == Idle && s'.engines[e].raised == s.engines[e].raised
    && (if step.StartConnect? then target == step.target
        else step.Return? && s.engines[e].op.Readying? && id == s.engines[e].op.id && target == s.engines[e].op.request.to)
    && Live(s'.engines[e].node, id) && s'.engines[e].node.heap[id].state == READY
    && s'.engines[e].node.heap[id].endpoint == target
  }

  /** The step starts a connect call, or it is about one in progress. */
  predicate OfConnect(s: System, step: Step) {
    && Actor(step) in s.engines
    && var op := s.engines[Actor(step)].op;
    step.StartConnect? || ((step.Return? || step.Abandon?) && (op.Connecting? || op.Readying?))
  }

  lemma StepReturns(s: System, step: Step)
    requires SafetyInv(s) && Enabled(s, step) && Lookups(s)
    ensures var effect, e := EffectOf(s, step), Actor(step);
            && (effect.returned.Some? ==>
                  exists target, id ::
                    Connected(s, step, Apply(s, step), target, id)
                    && StandsFor(Apply(s, step).engines[e].node, effect.returned.value, target, id))
            && (OfConnect(s, step) && effect.returned.None? && effect.engine.op == Idle ==> effect.engine.raised)
  {
    EngineFacts(s, Actor(step));
    match step
    case StartConnect(e, target, env) => StartReturns(s, e, target, env);
    case Return(e, reply, env) => ReplyReturns(s, e, reply, env);
    case _ => OthersReturnNothing(s, step);
  }

  lemma OthersReturnNothing(s: System, step: Step)
    requires Enabled(s, step) && Lookups(s) && !step.StartConnect? && !step.Return?
    ensures EffectOf(s, step).returned.None? && (step.Abandon? ==> EffectOf(s, step).engine.raised)
  {
    hide HandleConnect, HandleReady, HandleChanged, HandleClose, BeginDisconnect, BeginPublish, FinishClose;
  }

  lemma StartReturns(s: System, e: Endpoint, target: Endpoint, env: Env)
    requires SafetyInv(s) && Enabled(s, StartConnect(e, target, env)) && Lookups(s) && EngineOk(s, e)
    ensures var step := StartConnect(e, target, env); var effect := OnStartConnect(s.engines[e], target, env);
            && (effect.returned.Some? ==>
                  exists id ::
                    Connected(s, step, Apply(s, step), target, id)
                    && StandsFor(effect.engine.node, effect.returned.value, target, id))
            && (effect.returned.None? && effect.engine.op == Idle ==> effect.engine.raised)
  {
    var n := s.engines[e].node;
    hide SafetyInv, NodeInv, BeginConnect, StandsFor;
    if BeginConnect(n, target, env).result.Ok? {
      BeginOffers(n, target, env);
      var id := BeginConnect(n, target, env).node.peers[target];
      if BeginConnect(n, target, env).result.value.Reuse? {
        assert Connected(s, StartConnect(e, target, env), Apply(s, StartConnect(e, target, env)), target, id);
      }
    }
  }

  lemma ReturnedBy(g: Engine, answer: Answer, env: Env)
    requires g.op.Connecting? || g.op.Readying? ==> g.op.id in g.node.heap
    ensures var effect := OnReturn(g, answer, env);
            var finishes := answer.Shared? && g.op.Readying?;
            && (effect.returned.Some? ==>
                  && finishes && FinishConnect(g.node, g.op.id, answer.snapshot, env).result == Ok(effect.returned.value)
                  && effect.engine == g.(node := FinishConnect(g.node, g.op.id, answer.snapshot, env).node, op := Idle))
            && ((g.op.Connecting? || g.op.Readying?) && effect.returned.None? && effect.engine.op == Idle ==> effect.engine.raised)
  {
    hide LinkConnect, FinishConnect;
  }

  lemma ReplyReturns(s: System, e: Endpoint, reply: Reply, env: Env)
    requires SafetyInv(s) && Enabled(s, Return(e, reply, env)) && Lookups(s) && EngineOk(s, e)
    ensures var step := Return(e, reply, env); var effect := OnReturn(s.engines[e], reply.answer, env);
            && (effect.returned.Some? ==>
                  exists target, id ::
                    Connected(s, step, Apply(s, step), target, id)
                    && StandsFor(effect.engine.node, effect.returned.value, target, id))
            && (OfConnect(s, step) && effect.returned.None? && effect.engine.op == Idle ==> effect.engine.raised)
  {
    var g := s.engines[e];
    ReturnedBy(g, reply.answer, env);
    var effect := OnReturn(g, reply.answer, env);
    if effect.returned.Some? {
      HandshakeFacts(s, e);
      FinishAnswers(g.node, g.op.id, reply.answer.snapshot, env);
      hide SafetyInv, NodeInv, FinishConnect, StandsFor, Mutual, OpOk, OnReturn, Live, Informed, ImportFails, EngineOk;
      FinishEnds(s, e, reply, env, effect);
      assert Connected(s, Return(e, reply, env), Apply(s, Return(e, reply, env)), g.op.request.to, g.op.id);
    }
  }

  lemma FinishEnds(s: System, e: Endpoint, reply: Reply, env: Env, effect: Effect)
    requires Enabled(s, Return(e, reply, env)) && Lookups(s) && s.engines[e].op.Readying?
    requires effect == OnReturn(s.engines[e], reply.answer, env)
    requires effect.engine == s.engines[e].(node := effect.engine.node, op := Idle)
    requires var id := s.engines[e].op.id;
             Live(effect.engine.node, id) && effect.engine.node.heap[id].state == READY
             && effect.engine.node.heap[id].endpoint == s.engines[e].op.request.to
    ensures Connected(s, Return(e, reply, env), Apply(s, Return(e, reply, env)), s.engines[e].op.request.to, s.engines[e].op.id)
  {
    hide OnReturn, Live;
  }

  /** Whatever happened on the network: when connect returns a handle, it stands for a READY peer of the
      endpoint connected to; and connect ends without returning a handle only by raising. */
  lemma ConnectReturnsHandle(states: seq<System>, steps: seq<Step>, i: nat)
    requires Run(states, steps) && i < |steps|
    ensures |states| == |steps| + 1 && Enabled(states[i], steps[i]) && Lookups(states[i])
    ensures var s, s', e := states[i], states[i + 1], Actor(steps[i]);
            var effect := EffectOf(s, steps[i]);
            && e in s'.engines
            && (effect.returned.Some? ==>
                  exists target, id ::
                    Connected(s, steps[i], s', target, id) && StandsFor(s'.engines[e].node, effect.returned.value, target, id))
            && (OfConnect(s, steps[i]) && effect.returned.None? && s'.engines[e].op == Idle ==> s'.engines[e].raised)
  {
    hide Run, SafetyInv, SystemGrows, StandsFor, Connected, EffectOf;
    RunShape(states, steps);
    RunStep(states, steps, i);
    StepReturns(states[i], steps[i]);
  }

  /** The operation goes on, or ends normally, with this answer. */
  predicate Accepts(g: Engine, answer: Answer, env: Env)
    requires g.op.Connecting? || g.op.Readying? ==> g.op.id in g.node.heap
  {
    match g.op
    case Connecting(_, id) => answer.Offered? && LinkConnect(g.node, id, answer.offer, env).result.Ok?
    case Readying(_, id) => answer.Shared? && FinishConnect(g.node, id, answer.snapshot, env).result.Ok?
    case _ => answer.Done? && (g.op.Publishing? || g.op.Disconnecting?)
  }

  ghost predicate Raises(g: Engine, step: Step)
    requires WellKeyed(g.node)
    requires step.Return? && (g.op.Connecting? || g.op.Readying?) ==> g.op.id in g.node.heap
  {
    var n := g.node;
    match step
    case StartConnect(_, target, env) => BeginConnect(n, target, env).result.Raised?
    case StartPublish(_, _, _) => n.closed
    case StartDisconnect(_, h, env) => BeginDisconnect(n, h, env).result.Raised?
    case StartClose(_) => false
    case EndClose(_, ok) => !n.native.closed && !ok
    case Deliver(_, _) => false
    case Return(_, reply, env) => !Accepts(g, reply.answer, env)
    case Abandon(_) => true
  }

  /** Exactly when an operation raises: a block of it did, a reply is not the one awaited or a failure, the
      caller gave up, or native close failed. */
  lemma StepRaises(s: System, step: Step)
    requires Enabled(s, step) && Lookups(s)
    ensures var g := s.engines[Actor(step)];
            EffectOf(s, step).engine.raised == (g.raised || Raises(g, step))
  {
    hide BeginConnect, BeginDisconnect, LinkConnect, FinishConnect, HandleConnect, HandleReady, HandleChanged, HandleClose;
  }

  /** From then on the handle stands for that peer as long as it is live, and for none afterwards: a
      disconnect with it closes exactly that peer, or finds none. */
  lemma ReturnedHandleStays(states: seq<System>, steps: seq<Step>, i: nat, j: nat, e: Endpoint, h: Handle,
                            target: Endpoint, id: ConnectionId, env: Env)
    requires Run(states, steps) && i <= j <= |steps| && e in states[i].engines
    requires StandsFor(states[i].engines[e].node, h, target, id)
    ensures e in states[j].engines && WellKeyed(states[j].engines[e].node)
    ensures var n := states[j].engines[e].node; var out := BeginDisconnect(n, h, env);
            if Live(n, id) then
              && StandsFor(n, h, target, id)
              && (!n.closed && env.destroyOk ==>
                    out.result == Ok(Connection(target, id)) && !Live(out.node, id) && DestroyedOnly(n, out.node, h))
              && (!n.closed && !env.destroyOk ==> out.result == Raised(NativeFailure) && Live(out.node, id))
            else Unused(n, h) && (!n.closed ==> out.result == Raised(UnknownPeer))
  {
    hide Run, SafetyInv, BeginDisconnect, DestroyedOnly;
    RunShape(states, steps);
    RunIsSafe(states, steps, i);
    RunIsSafe(states, steps, j);
    RunGrows(states, steps, i, j);
    EngineFacts(states[i], e);
    EngineFacts(states[j], e);
    var n0, n := states[i].engines[e].node, states[j].engines[e].node;
    assert PeerOk(n0, id);
    assert n0.heap[id].state != CREATED;
    assert id in n.heap && n.heap[id].handle == h && n.heap[id].endpoint == target && n.heap[id].state != CREATED;
    DisconnectAnswers(n, h, env);
    hide Grows, SystemGrows;
    if Live(n, id) {
      LinkedStands(n, id);
      assert HandleOf(n, id, h);
    } else {
      forall other
        ensures !HandleOf(n, other, h)
      {
        assert other in n.heap && other != id ==> n.heap[other].handle != n.heap[id].handle;
      }
    }
  }

  /** A Close reaching an open engine is answered, unless a peer has to be destroyed and native destroy fails;
      and the answer ends the disconnect that sent it without raising. */
  lemma CloseIsAnswered(s: System, q: Request, env: Env)
    requires SafetyInv(s) && Enabled(s, Deliver(q, env)) && Lookups(s) && q.body.CloseCall?
    requires !s.engines[q.to].node.closed && env.destroyOk
    ensures EffectOf(s, Deliver(q, env)).replies == {Reply(q, Done)}
  {
    hide SafetyInv, HandleClose;
    EngineFacts(s, q.to);
    CloseHandlerAnswers(s.engines[q.to].node, q.body.connection, env);
  }

  lemma AnsweredDisconnectEnds(s: System, e: Endpoint, reply: Reply, env: Env)
    requires Enabled(s, Return(e, reply, env)) && Lookups(s) && s.engines[e].op.Disconnecting? && reply.answer.Done?
    ensures var g, g' := s.engines[e], EffectOf(s, Return(e, reply, env)).engine;
            g' == g.(op := Idle)
  {
  }
}
