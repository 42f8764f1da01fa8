/** What holds on the hostile network: every message is genuine, links and imports are what their
    owners exported, and a handshake that reaches Ready is mutual. */
module ControlSafety {
  import opened Control
  import opened ControlNode
  import opened ControlSystem

  // ----- Facts about one message, link or operation ----------------------------------------

  predicate PrefixOf(n: Node, snapshot: Snapshot) {
    snapshot.version == |snapshot.memories| && snapshot.memories <= n.log
  }

  /** `id` is a peer that `owner` once created for `target`. */
  predicate Names(s: System, owner: Endpoint, target: Endpoint, id: ConnectionId) {
    && owner in s.engines
    && id in s.engines[owner].node.heap
    && s.engines[owner].node.heap[id].endpoint == target
  }

  predicate GenuineOffer(s: System, owner: Endpoint, target: Endpoint, offer: Offer) {
    && Names(s, owner, target, offer.connection.id)
    && offer.connection.endpoint == owner
    && s.engines[owner].node.heap[offer.connection.id].metadata == offer.metadata
  }

  predicate GenuineUpdate(s: System, owner: Endpoint, target: Endpoint, update: Update) {
    && Names(s, owner, target, update.connection.id)
    && update.connection.endpoint == owner
    && PrefixOf(s.engines[owner].node, update.snapshot)
  }

  ghost predicate Replied(s: System, q: Request) {
    exists r <- s.replies :: r.request == q
  }

  /** Peer `id` of `e` and the peer it is linked to are linked to each other. */
  predicate Mutual(s: System, e: Endpoint, id: ConnectionId) {
    && e in s.engines && id in s.engines[e].node.heap
    && var p := s.engines[e].node.heap[id];
    && p.remoteId != 0
    && Names(s, p.endpoint, e, p.remoteId)
    && s.engines[p.endpoint].node.heap[p.remoteId].remoteId == id
  }

  /** The imports of a handle are the first `k` registrations, and `k` is the recorded version
      unless an import raised. */
  predicate ImportedPrefix(log: seq<Blob>, p: Peer, qp: Qp, k: nat) {
    && k <= |log| && p.remoteVersion <= k
    && qp.imports == Registered(log, k)
    && (!qp.interrupted ==> k == if p.remoteVersion < 0 then 0 else p.remoteVersion)
  }

  /** What the link of peer `id` means: its counterpart exists on the engine it names, its QP was
      connected with exactly that counterpart's metadata, and its imports are a log prefix. */
  ghost predicate LinkedTo(n: Node, id: ConnectionId, far: Node) {
    && id in n.heap && n.heap[id].handle in n.native.qps
    && var p, qp := n.heap[id], n.native.qps[n.heap[id].handle];
    && p.remoteId in far.heap
    && far.heap[p.remoteId].endpoint == n.endpoint
    && qp.remote == far.heap[p.remoteId].metadata
    && exists k :: ImportedPrefix(far.log, p, qp, k)
  }

  ghost predicate LinkOk(s: System, e: Endpoint, id: ConnectionId)
    requires e in s.engines && id in s.engines[e].node.heap
  {
    var n := s.engines[e].node;
    n.heap[id].remoteId != 0 ==>
      n.heap[id].endpoint in s.engines && LinkedTo(n, id, s.engines[n.heap[id].endpoint].node)
  }

  predicate MessageOk(s: System, q: Request) {
    && q.caller in s.engines && q.call < s.engines[q.caller].calls
    && match q.body
       case ConnectCall(offer) => GenuineOffer(s, q.caller, q.to, offer)
       case ReadyCall(update) =>
         GenuineUpdate(s, q.caller, q.to, update) && Mutual(s, q.caller, update.connection.id)
       case ChangedCall(update) => GenuineUpdate(s, q.caller, q.to, update)
       case CloseCall(c) =>
         Names(s, q.caller, q.to, c.id) && c.endpoint == q.caller && !Live(s.engines[q.caller].node, c.id)
  }

  /** Some peer of `at` linked to peer `id` of `owner` has imported at least `version` entries. */
  ghost predicate Acknowledged(s: System, at: Endpoint, owner: Endpoint, id: ConnectionId, version: nat) {
    && at in s.engines
    && exists a <- s.engines[at].node.heap :: AcknowledgedBy(s.engines[at].node, a, owner, id, version)
  }

  predicate AcknowledgedBy(n: Node, a: ConnectionId, owner: Endpoint, id: ConnectionId, version: nat) {
    && a in n.heap && n.heap[a].endpoint == owner && n.heap[a].remoteId == id
    && id != 0 && version <= n.heap[a].remoteVersion
  }

  ghost predicate ReplyOk(s: System, r: Reply) {
    var q := r.request;
    && q in s.sent && q.to in s.engines
    && match r.answer
       case Offered(offer) =>
         && q.body.ConnectCall?
         && GenuineOffer(s, q.to, q.caller, offer)
         && s.engines[q.to].node.heap[offer.connection.id].remoteId == q.body.offer.connection.id
       case Shared(snapshot) => q.body.ReadyCall? && PrefixOf(s.engines[q.to].node, snapshot)
       case Done =>
         && (q.body.ChangedCall? || q.body.CloseCall?)
         && (q.body.ChangedCall? ==>
               var u := q.body.update; Acknowledged(s, q.to, q.caller, u.connection.id, u.snapshot.version))
       case Failed => true
  }

  ghost predicate PublishOk(s: System, e: Endpoint, op: Op)
    requires e in s.engines && op.Publishing?
  {
    var n := s.engines[e].node;
    && op.request.body == ChangedCall(Update(Connection(e, op.current.id), op.snapshot))
    && op.request.to == op.current.endpoint
    && PrefixOf(n, op.snapshot)
    && (forall c :: c in op.captured <==> c in op.done || c == op.current || c in op.rest)
    && (forall c <- op.captured :: Names(s, e, c.endpoint, c.id))
    && (forall c <- op.done :: Acknowledged(s, c.endpoint, e, c.id, op.snapshot.version))
  }

  ghost predicate OpOk(s: System, e: Endpoint, op: Op)
    requires e in s.engines
  {
    var n := s.engines[e].node;
    && (n.closed ==> op == Idle || op == ShuttingDown)
    && (op == ShuttingDown ==> n.closed)
    && (op != Idle && op != ShuttingDown ==> op.request in s.sent && op.request.caller == e)
    && match op
       case Connecting(q, id) =>
         && Names(s, e, q.to, id)
         && q.body.ConnectCall? && q.body.offer.connection.id == id
       case Readying(q, id) =>
         && Names(s, e, q.to, id)
         && q.body.ReadyCall? && q.body.update.connection.id == id
       case Publishing(_, _, _, _, _, _) => PublishOk(s, e, op)
       case Disconnecting(q) => q.body.CloseCall?
       case _ => true
  }

  ghost predicate EngineOk(s: System, e: Endpoint)
    requires e in s.engines
  {
    var g := s.engines[e];
    g.node.endpoint == e && NodeInv(g.node) && OpOk(s, e, g.op)
  }

  ghost predicate LinksOk(s: System, e: Endpoint)
    requires e in s.engines
  {
    forall id <- s.engines[e].node.heap :: LinkOk(s, e, id)
  }

  ghost predicate SafetyInv(s: System) {
    && (forall e <- s.engines :: EngineOk(s, e))
    && (forall e <- s.engines :: LinksOk(s, e))
    && (forall q <- s.sent :: MessageOk(s, q))
    && (forall r <- s.replies :: ReplyOk(s, r))
  }

  // ----- Growth of the whole system --------------------------------------------------------

  ghost predicate SystemGrows(s: System, s': System) {
    && s'.engines.Keys == s.engines.Keys
    && s.sent <= s'.sent && s.replies <= s'.replies
    && forall e <- s.engines ::
         Grows(s.engines[e].node, s'.engines[e].node) && s.engines[e].calls <= s'.engines[e].calls
  }

  lemma RegisteredPrefix(log: seq<Blob>, log': seq<Blob>, k: nat)
    requires log <= log' && k <= |log|
    ensures Registered(log, k) == Registered(log', k)
  {
  }

  lemma MutualStable(s: System, s': System, e: Endpoint, id: ConnectionId)
    requires SystemGrows(s, s') && Mutual(s, e, id) && id != 0
    ensures Mutual(s', e, id)
  {
  }

  lemma MessageStable(s: System, s': System, q: Request)
    requires SystemGrows(s, s') && MessageOk(s, q)
    requires q.body.ReadyCall? ==> q.body.update.connection.id != 0
    ensures MessageOk(s', q)
  {
    if q.body.ReadyCall? {
      MutualStable(s, s', q.caller, q.body.update.connection.id);
    }
  }

  lemma AcknowledgedStable(s: System, s': System, at: Endpoint, owner: Endpoint, id: ConnectionId, version: nat)
    requires SystemGrows(s, s') && Acknowledged(s, at, owner, id, version)
    ensures Acknowledged(s', at, owner, id, version)
  {
    var a :| a in s.engines[at].node.heap && AcknowledgedBy(s.engines[at].node, a, owner, id, version);
    assert a in s'.engines[at].node.heap && AcknowledgedBy(s'.engines[at].node, a, owner, id, version);
  }

  lemma ReplyStable(s: System, s': System, r: Reply)
    requires SystemGrows(s, s') && ReplyOk(s, r)
    requires MessageOk(s, r.request) && (r.request.body.ConnectCall? ==> r.request.body.offer.connection.id != 0)
    ensures ReplyOk(s', r)
  {
    var q := r.request;
    if r.answer.Done? && q.body.ChangedCall? {
      var u := q.body.update;
      AcknowledgedStable(s, s', q.to, q.caller, u.connection.id, u.snapshot.version);
    }
  }

  lemma OpStable(s: System, s': System, e: Endpoint, op: Op)
    requires SystemGrows(s, s') && e in s.engines && OpOk(s, e, op)
    requires s'.engines[e].node.closed == s.engines[e].node.closed
    ensures OpOk(s', e, op)
  {
    if op.Publishing? {
      forall c <- op.done
        ensures Acknowledged(s', c.endpoint, e, c.id, op.snapshot.version)
      {
        AcknowledgedStable(s, s', c.endpoint, e, c.id, op.snapshot.version);
      }
    }
  }

  /** The parts of a peer that its link talks about are the same in both states. */
  predicate SameLink(n: Node, n': Node, id: ConnectionId) {
    && id in n.heap && id in n'.heap
    && var p, p' := n.heap[id], n'.heap[id];
    && p.handle == p'.handle && p.endpoint == p'.endpoint
    && p.remoteId == p'.remoteId && p.remoteVersion == p'.remoteVersion
    && p.handle in n.native.qps && p.handle in n'.native.qps
    && var q, q' := n.native.qps[p.handle], n'.native.qps[p.handle];
    && (p.remoteId != 0 ==> q.remote == q'.remote) && q.imports == q'.imports && q.interrupted == q'.interrupted
  }

  lemma LinkedStable(n: Node, n': Node, id: ConnectionId, far: Node, far': Node)
    requires LinkedTo(n, id, far) && SameLink(n, n', id) && n.heap[id].remoteId != 0
    requires n'.endpoint == n.endpoint && Grows(far, far')
    ensures LinkedTo(n', id, far')
  {
    var p, qp := n.heap[id], n.native.qps[n.heap[id].handle];
    var k :| ImportedPrefix(far.log, p, qp, k);
    RegisteredPrefix(far.log, far'.log, k);
    assert ImportedPrefix(far'.log, n'.heap[id], n'.native.qps[p.handle], k);
  }

  lemma LinkStable(s: System, s': System, e: Endpoint, id: ConnectionId)
    requires SystemGrows(s, s') && e in s.engines && id in s.engines[e].node.heap && LinkOk(s, e, id)
    requires SameLink(s.engines[e].node, s'.engines[e].node, id)
    ensures LinkOk(s', e, id)
  {
    hide LinkedTo;
    var n, n' := s.engines[e].node, s'.engines[e].node;
    if n.heap[id].remoteId != 0 {
      var far := n.heap[id].endpoint;
      LinkedStable(n, n', id, s.engines[far].node, s'.engines[far].node);
    }
  }

  // ----- Installing an effect --------------------------------------------------------------

  /** What a step has to show about the engine's own records. */
  ghost predicate RecordsOk(s: System, e: Endpoint, effect: Effect)
    requires e in s.engines
  {
    var g, g' := s.engines[e], effect.engine;
    && Grows(g.node, g'.node) && NodeInv(g'.node) && g.calls <= g'.calls
    && LinksOk(Install(s, e, effect), e)
  }

  /** What a step has to show about its operation and about what it sends. */
  ghost predicate TrafficOk(s: System, e: Endpoint, effect: Effect)
    requires e in s.engines
  {
    var s' := Install(s, e, effect);
    && OpOk(s', e, effect.engine.op)
    && (forall q <- effect.sent :: MessageOk(s', q))
    && (forall r <- effect.replies :: ReplyOk(s', r))
  }

  ghost predicate EffectOk(s: System, e: Endpoint, effect: Effect)
    requires e in s.engines
  {
    RecordsOk(s, e, effect) && TrafficOk(s, e, effect)
  }

  lemma InstallGrows(s: System, e: Endpoint, effect: Effect)
    requires e in s.engines
    requires Grows(s.engines[e].node, effect.engine.node) && s.engines[e].calls <= effect.engine.calls
    ensures SystemGrows(s, Install(s, e, effect))
  {
    var s' := Install(s, e, effect);
    forall d <- s.engines
      ensures Grows(s.engines[d].node, s'.engines[d].node) && s.engines[d].calls <= s'.engines[d].calls
    {
      GrowsReflexive(s.engines[d].node);
    }
  }

  /** A named peer never has the empty id. */
  lemma NamedIds(s: System, owner: Endpoint, target: Endpoint, id: ConnectionId)
    requires SafetyInv(s) && Names(s, owner, target, id)
    ensures id != 0
  {
    assert EngineOk(s, owner);
    assert PeerOk(s.engines[owner].node, id);
  }

  lemma EngineFacts(s: System, e: Endpoint)
    requires SafetyInv(s) && e in s.engines
    ensures EngineOk(s, e) && WellKeyed(s.engines[e].node)
  {
  }

  lemma MessageFacts(s: System, q: Request)
    requires SafetyInv(s) && q in s.sent
    ensures MessageOk(s, q)
    ensures q.body.ConnectCall? ==> q.body.offer.connection.id != 0
    ensures q.body.ReadyCall? ==> q.body.update.connection.id != 0
    ensures q.body.ChangedCall? ==> q.body.update.connection.id != 0
    ensures q.body.CloseCall? ==> q.body.connection.id != 0
  {
    assert MessageOk(s, q);
    match q.body
    case ConnectCall(offer) => NamedIds(s, q.caller, q.to, offer.connection.id);
    case ReadyCall(update) => NamedIds(s, q.caller, q.to, update.connection.id);
    case ChangedCall(update) => NamedIds(s, q.caller, q.to, update.connection.id);
    case CloseCall(c) => NamedIds(s, q.caller, q.to, c.id);
  }

  lemma ReplyFacts(s: System, r: Reply)
    requires SafetyInv(s) && r in s.replies
    ensures ReplyOk(s, r) && MessageOk(s, r.request)
    ensures r.answer.Offered? ==> r.answer.offer.connection.id != 0
  {
    assert ReplyOk(s, r);
    MessageFacts(s, r.request);
    if r.answer.Offered? {
      NamedIds(s, r.request.to, r.request.caller, r.answer.offer.connection.id);
    }
  }

  /** A new call has no reply yet. */
  lemma FreshUnanswered(s: System, e: Endpoint, q: Request)
    requires SafetyInv(s) && e in s.engines && q.caller == e && q.call == s.engines[e].calls
    ensures !Replied(s, q)
  {
    forall r <- s.replies
      ensures r.request != q
    {
      ReplyFacts(s, r);
    }
  }

  /** The peer an operation in progress works on. */
  lemma HandshakeFacts(s: System, e: Endpoint)
    requires SafetyInv(s) && e in s.engines
    requires s.engines[e].op.Connecting? || s.engines[e].op.Readying?
    ensures var n, op := s.engines[e].node, s.engines[e].op;
            && !n.closed && n.metadata == n.log && n.endpoint == e
            && op.id in n.heap && op.id != 0 && op.request.to != e
            && n.heap[op.id].endpoint == op.request.to && op.request.caller == e
            && (op.Readying? ==> n.heap[op.id].state != CREATED && Mutual(s, e, op.id))
            && op.request in s.sent
            && (op.Connecting? ==> op.request.body.ConnectCall? && op.request.body.offer.connection.id == op.id)
            && (op.Readying? ==> op.request.body.ReadyCall? && op.request.body.update.connection.id == op.id)
  {
    assert EngineOk(s, e) && PeerOk(s.engines[e].node, s.engines[e].op.id);
    MessageFacts(s, s.engines[e].op.request);
  }

  lemma InstallKeeps(s: System, e: Endpoint, effect: Effect)
    requires SafetyInv(s) && e in s.engines && EffectOk(s, e, effect)
    ensures SafetyInv(Install(s, e, effect)) && SystemGrows(s, Install(s, e, effect))
  {
    var s' := Install(s, e, effect);
    InstallGrows(s, e, effect);
    forall d <- s'.engines
      ensures EngineOk(s', d) && LinksOk(s', d)
    {
      assert EngineOk(s, d) && LinksOk(s, d);
      if d != e {
        OpStable(s, s', d, s.engines[d].op);
        forall id <- s'.engines[d].node.heap
          ensures LinkOk(s', d, id)
        {
          assert LinkOk(s, d, id);
          LinkStable(s, s', d, id);
        }
      }
    }
    forall q <- s'.sent
      ensures MessageOk(s', q)
    {
      if q in s.sent {
        MessageKept(s, s', q);
      }
    }
    forall r <- s'.replies
      ensures ReplyOk(s', r)
    {
      if r in s.replies {
        assert MessageOk(s, r.request);
        if r.request.body.ConnectCall? {
          NamedIds(s, r.request.caller, r.request.to, r.request.body.offer.connection.id);
        }
        ReplyStable(s, s', r);
      }
    }
  }

  lemma MessageKept(s: System, s': System, q: Request)
    requires SafetyInv(s) && SystemGrows(s, s') && q in s.sent
    ensures MessageOk(s', q)
  {
    assert MessageOk(s, q);
    if q.body.ReadyCall? {
      NamedIds(s, q.caller, q.to, q.body.update.connection.id);
    }
    MessageStable(s, s', q);
  }
}
