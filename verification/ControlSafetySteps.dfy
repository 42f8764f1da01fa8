/** Every step of the hostile network keeps the safety invariant. */
module ControlSafetySteps {
  import opened Control
  import opened ControlNode
  import opened ControlSystem
  import opened ControlSafety

  // ----- Links -----------------------------------------------------------------------------

  /** Nothing about any link changed; new peers are unlinked. */
  predicate LinksKept(n: Node, n': Node) {
    forall id <- n'.heap ::
      SameLink(n, n', id) || n'.heap[id].remoteId == 0
  }

  lemma LinksKeptOk(s: System, e: Endpoint, effect: Effect)
    requires SafetyInv(s) && e in s.engines
    requires Grows(s.engines[e].node, effect.engine.node) && s.engines[e].calls <= effect.engine.calls
    requires LinksKept(s.engines[e].node, effect.engine.node) && NodeInv(effect.engine.node)
    ensures RecordsOk(s, e, effect)
  {
    var s' := Install(s, e, effect);
    InstallGrows(s, e, effect);
    assert LinksOk(s, e);
    forall id <- s'.engines[e].node.heap
      ensures LinkOk(s', e, id)
    {
      if SameLink(s.engines[e].node, effect.engine.node, id) {
        assert LinkOk(s, e, id);
        LinkStable(s, s', e, id);
      }
    }
  }

  lemma LinkFacts(s: System, e: Endpoint, id: ConnectionId)
    requires SafetyInv(s) && e in s.engines && id in s.engines[e].node.heap
    ensures LinkOk(s, e, id)
  {
    assert LinksOk(s, e);
  }

  /** Connecting a QP with its counterpart's offer makes a correct link. */
  lemma ConnectedLink(n: Node, id: ConnectionId, offer: Offer, env: Env, far: Node)
    requires NodeInv(n) && id in n.heap && n.heap[id].state == CREATED
    requires offer.connection.endpoint == n.heap[id].endpoint && offer.connection.id != 0
    requires offer.connection.id in far.heap && far.heap[offer.connection.id].endpoint == n.endpoint
    requires far.heap[offer.connection.id].metadata == offer.metadata
    requires env.connectOk && Live(n, id)
    ensures LinkedTo(ConnectNative(n, id, offer, env).node, id, far)
  {
    assert PeerOk(n, id);
    var n' := ConnectNative(n, id, offer, env).node;
    assert ImportedPrefix(far.log, n'.heap[id], n'.native.qps[n.heap[id].handle], 0);
  }

  /** Importing a prefix of the counterpart's log keeps the imports a prefix. */
  lemma ImportedMore(log: seq<Blob>, p: Peer, qp: Qp, k: nat, snapshot: Snapshot, count: nat)
    requires ImportedPrefix(log, p, qp, k) && -1 <= p.remoteVersion < snapshot.version
    requires snapshot.version == |snapshot.memories| && snapshot.memories <= log
    requires count <= |snapshot.memories|
    ensures var k' := if k < count then count else k;
            var qp' := qp.(imports := qp.imports + Registered(snapshot.memories, count),
                           interrupted := qp.interrupted || count < |snapshot.memories|);
            && ImportedPrefix(log, p, qp.(imports := qp'.imports, interrupted := true), k')
            && (count == |snapshot.memories| ==> ImportedPrefix(log, p.(remoteVersion := snapshot.version), qp', k'))
  {
    RegisteredPrefix(snapshot.memories, log, count);
  }

  lemma ImportKeepsLinked(n: Node, id: ConnectionId, snapshot: Snapshot, env: Env, far: Node)
    requires NodeInv(n) && Live(n, id) && n.heap[id].state != CREATED
    requires LinkedTo(n, id, far) && PrefixOf(far, snapshot)
    ensures LinkedTo(ImportSnapshot(n, id, snapshot, env).node, id, far)
  {
    assert PeerOk(n, id);
    var p, qp := n.heap[id], n.native.qps[n.heap[id].handle];
    var n' := ImportSnapshot(n, id, snapshot, env).node;
    var k :| ImportedPrefix(far.log, p, qp, k);
    if p.remoteVersion < snapshot.version {
      var count := ImportCount(snapshot.memories, env);
      ImportedMore(far.log, p, qp, k, snapshot, count);
      var k' := if k < count then count else k;
      assert ImportedPrefix(far.log, n'.heap[id], n'.native.qps[p.handle], k');
    }
  }

  /** The node after an import, or the import and becoming READY. */
  predicate ImportedOrReady(n: Node, id: ConnectionId, snapshot: Snapshot, env: Env, n': Node)
    requires id in n.heap
  {
    var imported := ImportSnapshot(n, id, snapshot, env).node;
    n' == imported || n' == MarkReady(imported, id)
  }

  lemma ImportSameLinks(n: Node, id: ConnectionId, snapshot: Snapshot, env: Env, other: ConnectionId)
    requires NodeInv(n) && id in n.heap && other in n.heap && other != id
    ensures SameLink(n, ImportSnapshot(n, id, snapshot, env).node, other)
  {
    assert PeerOk(n, other) && PeerOk(n, id);
  }

  lemma ImportedNode(n: Node, id: ConnectionId, snapshot: Snapshot, env: Env, n': Node, far: Node)
    requires NodeInv(n) && Live(n, id) && n.heap[id].state != CREATED
    requires ImportedOrReady(n, id, snapshot, env, n')
    requires n.heap[id].remoteId != 0 && LinkedTo(n, id, far) && PrefixOf(far, snapshot)
    ensures NodeInv(n') && Grows(n, n') && LinkedTo(n', id, far)
    ensures forall other <- n'.heap :: other != id ==> SameLink(n, n', other)
  {
    hide NodeInv, Grows, LinkedTo, PrefixOf;
    ImportThenReadyKeeps(n, id, snapshot, env);
    ImportKeepsLinked(n, id, snapshot, env, far);
    var imported := ImportSnapshot(n, id, snapshot, env).node;
    GrowsReflexive(far);
    LinkedHasHandle(imported, id, far);
    LinkedStable(imported, n', id, far, far);
    forall other <- n'.heap | other != id
      ensures SameLink(n, n', other)
    {
      ImportSameLinks(n, id, snapshot, env, other);
    }
  }

  lemma LinkedHasHandle(n: Node, id: ConnectionId, far: Node)
    requires LinkedTo(n, id, far)
    ensures id in n.heap && n.heap[id].handle in n.native.qps
  {
  }

  lemma ImportedRecords(s: System, e: Endpoint, id: ConnectionId, snapshot: Snapshot, env: Env, effect: Effect)
    requires SafetyInv(s) && e in s.engines && Live(s.engines[e].node, id)
    requires s.engines[e].node.heap[id].state != CREATED
    requires Names(s, s.engines[e].node.heap[id].endpoint, e, s.engines[e].node.heap[id].remoteId) ==>
               PrefixOf(s.engines[s.engines[e].node.heap[id].endpoint].node, snapshot)
    requires ImportedOrReady(s.engines[e].node, id, snapshot, env, effect.engine.node)
    requires s.engines[e].calls <= effect.engine.calls
    ensures RecordsOk(s, e, effect)
  {
    hide SafetyInv, ImportedOrReady, PrefixOf;
    EngineFacts(s, e);
    LinkFacts(s, e, id);
    var n, n' := s.engines[e].node, effect.engine.node;
    var d := n.heap[id].endpoint;
    assert PeerOk(n, id);
    assert LinkedTo(n, id, s.engines[d].node) && d != e;
    ImportedNode(n, id, snapshot, env, n', s.engines[d].node);
    hide NodeInv, PeerOk, LinkedTo, SameLink, Grows;
    InstallGrows(s, e, effect);
    LinksFromOne(s, e, id, effect);
  }

  /** If one peer's link is right and nothing else changed, all links are right. */
  lemma LinksFromOne(s: System, e: Endpoint, id: ConnectionId, effect: Effect)
    requires SafetyInv(s) && e in s.engines && SystemGrows(s, Install(s, e, effect))
    requires forall other <- effect.engine.node.heap :: other != id ==> SameLink(s.engines[e].node, effect.engine.node, other)
    requires id in effect.engine.node.heap && LinkOk(Install(s, e, effect), e, id)
    ensures LinksOk(Install(s, e, effect), e)
  {
    hide SafetyInv, LinkOk, SystemGrows;
    var s' := Install(s, e, effect);
    forall other <- s'.engines[e].node.heap
      ensures LinkOk(s', e, other)
    {
      if other != id {
        assert SameLink(s.engines[e].node, effect.engine.node, other);
        LinkFacts(s, e, other);
        LinkStable(s, s', e, other);
      }
    }
  }

  // ----- Steps of the caller ---------------------------------------------------------------

  lemma CreateLinksKept(n: Node, endpoint: Endpoint, env: Env)
    requires NodeInv(n) && Fresh(n, env)
    ensures LinksKept(n, FindOrCreate(n, endpoint, env).node)
  {
    forall id <- FindOrCreate(n, endpoint, env).node.heap | id in n.heap
      ensures SameLink(n, FindOrCreate(n, endpoint, env).node, id)
    {
      assert PeerOk(n, id);
    }
  }

  /** An offer sent names the peer found or created for the target. */
  lemma BegunOffer(n: Node, target: Endpoint, env: Env)
    requires NodeInv(n) && Fresh(n, env)
    ensures var out := BeginConnect(n, target, env);
            out.result.Ok? && out.result.value.SendOffer? ==>
              var id := out.result.value.id;
              && !n.closed && !out.node.closed
              && id in out.node.heap && out.node.heap[id].endpoint == target
              && out.result.value.offer == Offer(Connection(n.endpoint, id), out.node.heap[id].metadata)
  {
  }

  lemma StartConnectRecords(s: System, e: Endpoint, target: Endpoint, env: Env)
    requires SafetyInv(s) && Enabled(s, StartConnect(e, target, env))
    ensures WellKeyed(s.engines[e].node)
    ensures RecordsOk(s, e, OnStartConnect(s.engines[e], target, env))
  {
    hide SafetyInv, NodeInv, Grows, LinksKept, LinksOk;
    EngineFacts(s, e);
    var n := s.engines[e].node;
    BeginConnectKeeps(n, target, env);
    UnchangedLinksKept(n);
    CreateLinksKept(n, target, env);
    LinksKeptOk(s, e, OnStartConnect(s.engines[e], target, env));
  }

  lemma StartConnectTraffic(s: System, e: Endpoint, target: Endpoint, env: Env)
    requires SafetyInv(s) && Enabled(s, StartConnect(e, target, env))
    ensures WellKeyed(s.engines[e].node)
    ensures TrafficOk(s, e, OnStartConnect(s.engines[e], target, env))
  {
    hide SafetyInv, NodeInv;
    EngineFacts(s, e);
    BegunOffer(s.engines[e].node, target, env);
  }

  lemma UnchangedLinksKept(n: Node)
    requires NodeInv(n)
    ensures LinksKept(n, n)
  {
    forall id <- n.heap
      ensures SameLink(n, n, id)
    {
      assert PeerOk(n, id);
    }
  }

  lemma PublishLinksKept(n: Node, metadata: Blob)
    requires NodeInv(n)
    ensures LinksKept(n, BeginPublish(n, metadata).node)
  {
    forall id <- n.heap
      ensures SameLink(n, BeginPublish(n, metadata).node, id)
    {
      assert PeerOk(n, id);
    }
  }

  /** The captured targets are peers of this engine, and the snapshot covers the whole log. */
  lemma PublishedSnapshot(n: Node, metadata: Blob, targets: seq<Connection>)
    requires NodeInv(n) && Captures(n, targets)
    ensures var out := BeginPublish(n, metadata);
            && (out.result.Ok? ==>
                  !n.closed && !out.node.closed && PrefixOf(out.node, out.result.value)
                  && |out.node.log| == out.result.value.version)
            && out.node.heap == n.heap
    ensures forall c <- targets :: c.id in n.heap && n.heap[c.id].endpoint == c.endpoint
  {
    forall c <- targets
      ensures c.id in n.heap && n.heap[c.id].endpoint == c.endpoint
    {
      assert IsTarget(n, c);
    }
  }

  lemma StartPublishRecords(s: System, e: Endpoint, metadata: Blob, targets: seq<Connection>)
    requires SafetyInv(s) && Enabled(s, StartPublish(e, metadata, targets))
    ensures RecordsOk(s, e, OnStartPublish(s.engines[e], metadata, targets))
  {
    hide SafetyInv, NodeInv, Grows, LinksKept, LinksOk;
    EngineFacts(s, e);
    var n := s.engines[e].node;
    BeginPublishKeeps(n, metadata);
    UnchangedLinksKept(n);
    PublishLinksKept(n, metadata);
    LinksKeptOk(s, e, OnStartPublish(s.engines[e], metadata, targets));
  }

  lemma StartPublishTraffic(s: System, e: Endpoint, metadata: Blob, targets: seq<Connection>)
    requires SafetyInv(s) && Enabled(s, StartPublish(e, metadata, targets))
    ensures TrafficOk(s, e, OnStartPublish(s.engines[e], metadata, targets))
  {
    hide SafetyInv, NodeInv, Captures;
    EngineFacts(s, e);
    PublishedSnapshot(s.engines[e].node, metadata, targets);
    if targets != [] {
      assert targets == [targets[0]] + targets[1..];
    }
  }

  lemma DestroyLinksKept(n: Node, id: ConnectionId, env: Env)
    requires NodeInv(n) && Live(n, id)
    ensures LinksKept(n, DestroyPeer(n, id, env).node)
  {
    forall other <- n.heap
      ensures SameLink(n, DestroyPeer(n, id, env).node, other)
    {
      assert PeerOk(n, other);
    }
  }

  lemma DisconnectLinksKept(n: Node, handle: Handle, env: Env)
    requires NodeInv(n)
    ensures LinksKept(n, BeginDisconnect(n, handle, env).node)
  {
    UnchangedLinksKept(n);
    if !n.closed && exists d :: HasHandle(n, d, handle) {
      var d :| HasHandle(n, d, handle) && BeginDisconnect(n, handle, env).node == DestroyPeer(n, n.peers[d], env).node;
      DestroyLinksKept(n, n.peers[d], env);
    }
  }

  lemma StartDisconnectRecords(s: System, e: Endpoint, handle: Handle, env: Env)
    requires SafetyInv(s) && Enabled(s, StartDisconnect(e, handle, env))
    ensures WellKeyed(s.engines[e].node)
    ensures RecordsOk(s, e, OnStartDisconnect(s.engines[e], handle, env))
  {
    hide SafetyInv, NodeInv, Grows, LinksKept, LinksOk, BeginDisconnect;
    EngineFacts(s, e);
    var n := s.engines[e].node;
    BeginDisconnectKeeps(n, handle, env);
    DisconnectLinksKept(n, handle, env);
    LinksKeptOk(s, e, OnStartDisconnect(s.engines[e], handle, env));
  }

  lemma StartDisconnectTraffic(s: System, e: Endpoint, handle: Handle, env: Env)
    requires SafetyInv(s) && Enabled(s, StartDisconnect(e, handle, env))
    ensures WellKeyed(s.engines[e].node)
    ensures TrafficOk(s, e, OnStartDisconnect(s.engines[e], handle, env))
  {
    hide SafetyInv, NodeInv;
    EngineFacts(s, e);
    var n := s.engines[e].node;
    BeginDisconnectKeeps(n, handle, env);
    assert BeginDisconnect(n, handle, env).result.Ok? ==> !n.closed;
    hide BeginDisconnect;
  }

  lemma CloseRecords(s: System, e: Endpoint)
    requires SafetyInv(s) && e in s.engines
    ensures RecordsOk(s, e, Quiet(s.engines[e].(node := BeginClose(s.engines[e].node), op := ShuttingDown)))
  {
    hide SafetyInv;
    EngineFacts(s, e);
    var g := s.engines[e];
    var n' := BeginClose(g.node);
    forall id <- n'.heap
      ensures PeerOk(n', id) && SameLink(g.node, n', id)
    {
      assert PeerOk(g.node, id);
    }
    LinksKeptOk(s, e, Quiet(g.(node := n', op := ShuttingDown)));
  }

  lemma EndCloseRecords(s: System, e: Endpoint, ok: bool)
    requires SafetyInv(s) && Enabled(s, EndClose(e, ok))
    ensures RecordsOk(s, e, Ends(s.engines[e], FinishClose(s.engines[e].node, ok), !s.engines[e].node.native.closed && !ok))
  {
    hide SafetyInv;
    EngineFacts(s, e);
    var g := s.engines[e];
    var n' := FinishClose(g.node, ok);
    FinishCloseKeeps(g.node, ok);
    forall id <- n'.heap
      ensures SameLink(g.node, n', id)
    {
      assert PeerOk(g.node, id);
    }
    LinksKeptOk(s, e, Ends(g, n', !g.node.native.closed && !ok));
  }

  /** Steps that leave the engine's records alone. */
  lemma SameNodeRecords(s: System, e: Endpoint, effect: Effect)
    requires SafetyInv(s) && e in s.engines
    requires effect.engine.node == s.engines[e].node && s.engines[e].calls <= effect.engine.calls
    ensures RecordsOk(s, e, effect)
  {
    hide SafetyInv, NodeInv, Grows, LinksKept, LinksOk;
    EngineFacts(s, e);
    UnchangedLinksKept(s.engines[e].node);
    GrowsReflexive(s.engines[e].node);
    LinksKeptOk(s, e, effect);
  }

  lemma AbandonOk(s: System, e: Endpoint, raised: bool)
    requires SafetyInv(s) && e in s.engines && s.engines[e].op != ShuttingDown
    ensures EffectOk(s, e, Ends(s.engines[e], s.engines[e].node, raised))
  {
    SameNodeRecords(s, e, Ends(s.engines[e], s.engines[e].node, raised));
  }

  // ----- Steps that consume a reply --------------------------------------------------------

  /** The node after ConnectNative differs from before only in peer `id`. */
  lemma ConnectLinksKept(n: Node, id: ConnectionId, offer: Offer, env: Env)
    requires NodeInv(n) && id in n.heap
    ensures var n' := ConnectNative(n, id, offer, env).node;
            && (forall other <- n'.heap :: other == id || SameLink(n, n', other))
            && (n'.heap == n.heap ==> LinksKept(n, n'))
  {
    var n' := ConnectNative(n, id, offer, env).node;
    forall other <- n'.heap | other != id || n'.heap == n.heap
      ensures SameLink(n, n', other)
    {
      assert PeerOk(n, other) && PeerOk(n, id);
    }
  }

  /** A step that may create a peer and then connects it: the part about one node. */
  lemma ConnectedNode(n: Node, before: Node, id: ConnectionId, offer: Offer, env: Env, far: Node)
    requires NodeInv(before) && Grows(n, before) && LinksKept(n, before) && Live(before, id)
    requires offer.connection.endpoint == before.heap[id].endpoint && offer.connection.id != 0
    requires offer.connection.id in far.heap && far.heap[offer.connection.id].endpoint == before.endpoint
    requires far.heap[offer.connection.id].metadata == offer.metadata
    ensures var n' := ConnectNative(before, id, offer, env).node;
            && NodeInv(n') && Grows(n, n') && id in n'.heap
            && (forall other <- n'.heap :: other != id ==> SameLink(n, n', other) || n'.heap[other].remoteId == 0)
            && (LinkedTo(n', id, far) || SameLink(n, n', id) || n'.heap[id].remoteId == 0)
  {
    hide NodeInv, Grows, LinkedTo;
    var n' := ConnectNative(before, id, offer, env).node;
    ConnectNativeKeeps(before, id, offer, env);
    GrowsTransitive(n, before, n');
    ConnectLinksKept(before, id, offer, env);
    if before.heap[id].state == CREATED && env.connectOk {
      ConnectedLink(before, id, offer, env, far);
    }
  }

  lemma ConnectNativeRecords(s: System, e: Endpoint, before: Node, id: ConnectionId, offer: Offer, env: Env, effect: Effect)
    requires SafetyInv(s) && e in s.engines
    requires NodeInv(before) && Grows(s.engines[e].node, before) && LinksKept(s.engines[e].node, before)
    requires Live(before, id) && before.heap[id].endpoint != e && offer.connection.id != 0
    requires GenuineOffer(s, before.heap[id].endpoint, e, offer)
    requires effect.engine.node == ConnectNative(before, id, offer, env).node
    requires s.engines[e].calls <= effect.engine.calls
    ensures RecordsOk(s, e, effect)
  {
    hide SafetyInv, NodeInv, LinksKept, LinkedTo, SameLink;
    EngineFacts(s, e);
    var d := before.heap[id].endpoint;
    ConnectedNode(s.engines[e].node, before, id, offer, env, s.engines[d].node);
    var n' := effect.engine.node;
    assert n'.heap[id].endpoint == d;
    hide Grows, Live, ConnectNative;
    InstallGrows(s, e, effect);
    LinksFromMany(s, e, id, d, effect);
  }

  lemma LinksFromMany(s: System, e: Endpoint, id: ConnectionId, d: Endpoint, effect: Effect)
    requires SafetyInv(s) && e in s.engines && SystemGrows(s, Install(s, e, effect))
    requires id in effect.engine.node.heap && d != e && effect.engine.node.heap[id].endpoint == d && d in s.engines
    requires forall other <- effect.engine.node.heap ::
               || SameLink(s.engines[e].node, effect.engine.node, other)
               || effect.engine.node.heap[other].remoteId == 0
               || (other == id && LinkedTo(effect.engine.node, id, s.engines[d].node))
    ensures LinksOk(Install(s, e, effect), e)
  {
    hide SafetyInv, SystemGrows, LinkedTo;
    var s' := Install(s, e, effect);
    forall other <- s'.engines[e].node.heap
      ensures LinkOk(s', e, other)
    {
      if SameLink(s.engines[e].node, effect.engine.node, other) {
        LinkFacts(s, e, other);
        LinkStable(s, s', e, other);
      }
    }
  }

  lemma OfferedRecords(s: System, e: Endpoint, reply: Reply, env: Env)
    requires SafetyInv(s) && Enabled(s, Return(e, reply, env))
    requires reply.answer.Offered? && s.engines[e].op.Connecting?
    ensures s.engines[e].op.id in s.engines[e].node.heap
    ensures RecordsOk(s, e, OnOffered(s.engines[e], reply.answer.offer, env))
  {
    hide SafetyInv, NodeInv, Grows, LinksKept, LinksOk;
    ReplyFacts(s, reply);
    EngineFacts(s, e);
    HandshakeFacts(s, e);
    var g := s.engines[e];
    var effect := OnOffered(g, reply.answer.offer, env);
    if Live(g.node, g.op.id) {
      UnchangedLinksKept(g.node);
      GrowsReflexive(g.node);
      ConnectNativeRecords(s, e, g.node, g.op.id, reply.answer.offer, env, effect);
    } else {
      SameNodeRecords(s, e, effect);
    }
  }

  lemma OfferedTraffic(s: System, e: Endpoint, reply: Reply, env: Env)
    requires SafetyInv(s) && Enabled(s, Return(e, reply, env))
    requires reply.answer.Offered? && s.engines[e].op.Connecting?
    ensures s.engines[e].op.id in s.engines[e].node.heap
    ensures TrafficOk(s, e, OnOffered(s.engines[e], reply.answer.offer, env))
  {
    hide SafetyInv, NodeInv;
    ReplyFacts(s, reply);
    HandshakeFacts(s, e);
    var g := s.engines[e];
    var effect := OnOffered(g, reply.answer.offer, env);
    if effect.engine.op.Readying? {
      LinkedUpdate(s, e, reply.answer.offer, env);
      hide Mutual;
      assert TrafficOk(s, e, effect);
    }
  }

  /** A successful second block leaves both ends linked to each other. */
  lemma LinkedUpdate(s: System, e: Endpoint, offer: Offer, env: Env)
    requires e in s.engines && s.engines[e].op.Connecting? && s.engines[e].op.id in s.engines[e].node.heap
    requires var op := s.engines[e].op;
             && op.request.to != e && GenuineOffer(s, op.request.to, e, offer) && offer.connection.id != 0
             && s.engines[e].node.heap[op.id].endpoint == op.request.to
             && s.engines[op.request.to].node.heap[offer.connection.id].remoteId == op.id
    requires var n := s.engines[e].node; n.metadata == n.log && n.endpoint == e
    ensures var out := LinkConnect(s.engines[e].node, s.engines[e].op.id, offer, env);
            var effect := OnOffered(s.engines[e], offer, env);
            out.result.Ok? ==>
              Mutual(Install(s, e, effect), e, s.engines[e].op.id) && PrefixOf(out.node, out.result.value.snapshot)
  {
  }

  lemma SharedOk(s: System, e: Endpoint, reply: Reply, env: Env)
    requires SafetyInv(s) && Enabled(s, Return(e, reply, env))
    requires reply.answer.Shared? && s.engines[e].op.Readying?
    ensures s.engines[e].op.id in s.engines[e].node.heap
    ensures EffectOk(s, e, OnShared(s.engines[e], reply.answer.snapshot, env))
  {
    hide SafetyInv, NodeInv, Grows, LinksOk;
    ReplyFacts(s, reply);
    HandshakeFacts(s, e);
    var g := s.engines[e];
    var effect := OnShared(g, reply.answer.snapshot, env);
    if Live(g.node, g.op.id) {
      ImportedRecords(s, e, g.op.id, reply.answer.snapshot, env, effect);
    } else {
      SameNodeRecords(s, e, effect);
    }
  }

  lemma AcknowledgedTraffic(s: System, e: Endpoint, reply: Reply, env: Env)
    requires SafetyInv(s) && Enabled(s, Return(e, reply, env))
    requires reply.answer.Done? && s.engines[e].op.Publishing?
    ensures TrafficOk(s, e, OnAcknowledged(s.engines[e]))
  {
    hide SafetyInv, NodeInv, Acknowledged, Grows, SystemGrows, PublishOk;
    ReplyFacts(s, reply);
    EngineFacts(s, e);
    var g := s.engines[e];
    var effect := OnAcknowledged(g);
    PublishFacts(s, e, g.op);
    if g.op.rest != [] {
      GrowsReflexive(g.node);
      InstallGrows(s, e, effect);
      NextTargetOk(s, Install(s, e, effect), e, g.op, effect.engine.op);
    }
  }

  lemma PublishFacts(s: System, e: Endpoint, op: Op)
    requires e in s.engines && op.Publishing? && PublishOk(s, e, op)
    ensures op.request.body == ChangedCall(Update(Connection(e, op.current.id), op.snapshot))
    ensures op.request.to == op.current.endpoint && PrefixOf(s.engines[e].node, op.snapshot)
  {
  }

  lemma NextTargetOk(s: System, s': System, e: Endpoint, op: Op, op': Op)
    requires SystemGrows(s, s') && e in s.engines
    requires op.Publishing? && op'.Publishing? && op.rest != []
    requires PublishOk(s, e, op) && Acknowledged(s, op.current.endpoint, e, op.current.id, op.snapshot.version)
    requires op' == op.(request := op'.request, done := op.done + [op.current], current := op.rest[0], rest := op.rest[1..])
    requires op'.request.body == ChangedCall(Update(Connection(e, op'.current.id), op.snapshot))
    requires op'.request.to == op'.current.endpoint
    ensures PublishOk(s', e, op')
    ensures Names(s, e, op'.current.endpoint, op'.current.id)
  {
    NextTargetList(op, op');
    assert op'.current in op.captured;
    hide Names;
    forall c <- op'.done
      ensures Acknowledged(s', c.endpoint, e, c.id, op.snapshot.version)
    {
      AcknowledgedStable(s, s', c.endpoint, e, c.id, op.snapshot.version);
    }
  }

  lemma NextTargetList(op: Op, op': Op)
    requires op.Publishing? && op'.Publishing? && op.rest != []
    requires op'.done == op.done + [op.current] && op'.current == op.rest[0] && op'.rest == op.rest[1..]
    ensures forall c :: c in op'.done || c == op'.current || c in op'.rest <==> c in op.done || c == op.current || c in op.rest
  {
    assert op.rest == [op'.current] + op'.rest;
  }

  // ----- Handlers --------------------------------------------------------------------------

  /** The operation of the handling engine is not disturbed by the handler. */
  lemma HandlerOp(s: System, e: Endpoint, effect: Effect)
    requires SafetyInv(s) && e in s.engines
    requires Grows(s.engines[e].node, effect.engine.node)
    requires effect.engine == s.engines[e].(node := effect.engine.node)
    requires effect.engine.node.closed == s.engines[e].node.closed
    ensures OpOk(Install(s, e, effect), e, effect.engine.op)
  {
    assert EngineOk(s, e);
    InstallGrows(s, e, effect);
    OpStable(s, Install(s, e, effect), e, s.engines[e].op);
  }

  lemma RequestStable(s: System, e: Endpoint, effect: Effect, q: Request)
    requires SafetyInv(s) && e in s.engines && q in s.sent
    requires Grows(s.engines[e].node, effect.engine.node) && s.engines[e].calls <= effect.engine.calls
    ensures MessageOk(Install(s, e, effect), q)
  {
    InstallGrows(s, e, effect);
    MessageKept(s, Install(s, e, effect), q);
  }

  /** What every handler does to the traffic, apart from the contents of its answer. */
  lemma HandlerTraffic(s: System, e: Endpoint, effect: Effect, q: Request)
    requires SafetyInv(s) && e in s.engines && q in s.sent
    requires Grows(s.engines[e].node, effect.engine.node)
    requires effect.engine == s.engines[e].(node := effect.engine.node)
    requires effect.engine.node.closed == s.engines[e].node.closed
    ensures OpOk(Install(s, e, effect), e, effect.engine.op)
    ensures MessageOk(Install(s, e, effect), q)
  {
    hide *;
    HandlerOp(s, e, effect);
    RequestStable(s, e, effect, q);
  }

  lemma ConnectHandlerRecords(s: System, q: Request, env: Env)
    requires SafetyInv(s) && Enabled(s, Deliver(q, env)) && q.body.ConnectCall?
    ensures WellKeyed(s.engines[q.to].node)
    ensures RecordsOk(s, q.to, OnDeliver(s.engines[q.to], q, env))
  {
    hide SafetyInv, NodeInv, Grows, LinksKept, LinksOk, OpOk;
    MessageFacts(s, q);
    var e, g, offer := q.to, s.engines[q.to], q.body.offer;
    EngineFacts(s, e);
    var effect := OnDeliver(g, q, env);
    var found := FindOrCreate(g.node, q.caller, env);
    if q.caller != 0 && q.caller != e && !g.node.closed && found.result.Ok? {
      GrowsReflexive(g.node);
      CreateLinksKept(g.node, q.caller, env);
      if q.caller !in g.node.peers {
        CreatePeerKeeps(g.node, q.caller, env);
      }
      ConnectNativeRecords(s, e, found.node, found.result.value, offer, env, effect);
    } else {
      SameNodeRecords(s, e, effect);
    }
  }

  /** What the Connect handler answers: the peer it found or created, linked to the caller's. */
  lemma AnsweredOffer(n: Node, offer: Offer, env: Env)
    requires NodeInv(n) && Fresh(n, env)
    ensures var out := HandleConnect(n, offer, env);
            && out.node.closed == n.closed
            && (out.result.Ok? ==>
                  var c := out.result.value.connection;
                  && c.endpoint == n.endpoint && c.id in out.node.heap
                  && out.node.heap[c.id].endpoint == offer.connection.endpoint
                  && out.node.heap[c.id].remoteId == offer.connection.id
                  && out.node.heap[c.id].metadata == out.result.value.metadata)
  {
    if offer.connection.endpoint in n.peers {
      assert PeerOk(n, n.peers[offer.connection.endpoint]);
    }
  }

  lemma ConnectHandlerTraffic(s: System, q: Request, env: Env)
    requires SafetyInv(s) && Enabled(s, Deliver(q, env)) && q.body.ConnectCall?
    requires WellKeyed(s.engines[q.to].node) && RecordsOk(s, q.to, OnDeliver(s.engines[q.to], q, env))
    ensures TrafficOk(s, q.to, OnDeliver(s.engines[q.to], q, env))
  {
    hide SafetyInv, NodeInv, LinksOk;
    MessageFacts(s, q);
    EngineFacts(s, q.to);
    AnsweredOffer(s.engines[q.to].node, q.body.offer, env);
    hide HandleConnect, OpOk, Grows;
    HandlerTraffic(s, q.to, OnDeliver(s.engines[q.to], q, env), q);
  }

  lemma FoundIsLinked(n: Node, c: Connection)
    requires NodeInv(n)
    ensures !n.closed ==> PrefixOf(n, SnapshotOf(n))
    ensures FindConnection(n, c).Ok? ==>
              var id := FindConnection(n, c).value;
              Live(n, id) && n.heap[id].endpoint == c.endpoint && n.heap[id].remoteId == c.id && n.heap[id].state != CREATED
  {
    if FindConnection(n, c).Ok? {
      assert PeerOk(n, FindConnection(n, c).value);
    }
  }

  lemma ReadyHandlerOk(s: System, q: Request, env: Env)
    requires SafetyInv(s) && Enabled(s, Deliver(q, env)) && q.body.ReadyCall?
    ensures WellKeyed(s.engines[q.to].node)
    ensures EffectOk(s, q.to, OnDeliver(s.engines[q.to], q, env))
  {
    hide SafetyInv, NodeInv, Grows, LinksOk, OpOk;
    MessageFacts(s, q);
    var e, g, update := q.to, s.engines[q.to], q.body.update;
    EngineFacts(s, e);
    FoundIsLinked(g.node, update.connection);
    var effect := OnDeliver(g, q, env);
    if !g.node.closed && FindConnection(g.node, update.connection).Ok? {
      var id := FindConnection(g.node, update.connection).value;
      ImportedRecords(s, e, id, update.snapshot, env, effect);
    } else {
      SameNodeRecords(s, e, effect);
    }
    HandlerTraffic(s, e, effect, q);
  }

  lemma ChangedHandlerOk(s: System, q: Request, env: Env)
    requires SafetyInv(s) && Enabled(s, Deliver(q, env)) && q.body.ChangedCall?
    ensures WellKeyed(s.engines[q.to].node)
    ensures EffectOk(s, q.to, OnDeliver(s.engines[q.to], q, env))
  {
    hide SafetyInv, NodeInv, Grows, LinksOk, OpOk;
    MessageFacts(s, q);
    var e, g, update := q.to, s.engines[q.to], q.body.update;
    EngineFacts(s, e);
    FoundIsLinked(g.node, update.connection);
    var effect := OnDeliver(g, q, env);
    if !g.node.closed && FindConnection(g.node, update.connection).Ok? {
      var id := FindConnection(g.node, update.connection).value;
      ImportedRecords(s, e, id, update.snapshot, env, effect);
      if Reply(q, Done) in effect.replies {
        assert AcknowledgedBy(effect.engine.node, id, q.caller, update.connection.id, update.snapshot.version);
        assert Acknowledged(Install(s, e, effect), e, q.caller, update.connection.id, update.snapshot.version);
      }
    } else {
      SameNodeRecords(s, e, effect);
    }
    HandlerTraffic(s, e, effect, q);
  }

  lemma HandleCloseLinksKept(n: Node, c: Connection, env: Env)
    requires NodeInv(n)
    ensures LinksKept(n, HandleClose(n, c, env).node)
  {
    UnchangedLinksKept(n);
    if c.endpoint in n.peers {
      DestroyLinksKept(n, n.peers[c.endpoint], env);
    }
  }

  lemma CloseHandlerOk(s: System, q: Request, env: Env)
    requires SafetyInv(s) && Enabled(s, Deliver(q, env)) && q.body.CloseCall?
    ensures WellKeyed(s.engines[q.to].node)
    ensures EffectOk(s, q.to, OnDeliver(s.engines[q.to], q, env))
  {
    hide SafetyInv, NodeInv, Grows, LinksKept, LinksOk;
    var e, g, c := q.to, s.engines[q.to], q.body.connection;
    EngineFacts(s, e);
    var effect := OnDeliver(g, q, env);
    HandleCloseKeeps(g.node, c, env);
    HandleCloseLinksKept(g.node, c, env);
    assert effect.engine.node.closed == g.node.closed;
    hide HandleClose;
    LinksKeptOk(s, e, effect);
    HandlerTraffic(s, e, effect, q);
  }

  // ----- All steps -------------------------------------------------------------------------

  lemma SafetyLookups(s: System)
    requires SafetyInv(s)
    ensures Lookups(s)
  {
    forall e <- s.engines
      ensures WellKeyed(s.engines[e].node)
      ensures s.engines[e].op.Connecting? || s.engines[e].op.Readying? ==> s.engines[e].op.id in s.engines[e].node.heap
    {
      assert EngineOk(s, e);
    }
  }

  lemma StepEffectOk(s: System, step: Step)
    requires SafetyInv(s) && Enabled(s, step)
    ensures Lookups(s) && EffectOk(s, Actor(step), EffectOf(s, step))
  {
    SafetyLookups(s);
    match step
    case StartConnect(e, target, env) => StartConnectRecords(s, e, target, env); StartConnectTraffic(s, e, target, env);
    case StartPublish(e, metadata, targets) =>
      StartPublishRecords(s, e, metadata, targets); StartPublishTraffic(s, e, metadata, targets);
    case StartDisconnect(e, handle, env) =>
      StartDisconnectRecords(s, e, handle, env); StartDisconnectTraffic(s, e, handle, env);
    case StartClose(e) => CloseRecords(s, e);
    case EndClose(e, ok) => EndCloseRecords(s, e, ok);
    case Deliver(q, env) => DeliverOk(s, q, env);
    case Return(e, reply, env) => ReturnOk(s, e, reply, env);
    case Abandon(e) => AbandonOk(s, e, true);
  }

  lemma DeliverOk(s: System, q: Request, env: Env)
    requires SafetyInv(s) && Enabled(s, Deliver(q, env)) && Lookups(s)
    ensures EffectOk(s, q.to, OnDeliver(s.engines[q.to], q, env))
  {
    hide SafetyInv;
    match q.body
    case ConnectCall(_) => ConnectHandlerRecords(s, q, env); ConnectHandlerTraffic(s, q, env);
    case ReadyCall(_) => ReadyHandlerOk(s, q, env);
    case ChangedCall(_) => ChangedHandlerOk(s, q, env);
    case CloseCall(_) => CloseHandlerOk(s, q, env);
  }

  lemma ReturnOk(s: System, e: Endpoint, reply: Reply, env: Env)
    requires SafetyInv(s) && Enabled(s, Return(e, reply, env)) && Lookups(s)
    ensures EffectOk(s, e, OnReturn(s.engines[e], reply.answer, env))
  {
    hide SafetyInv;
    var g := s.engines[e];
    match reply.answer
    case Offered(_) =>
      if g.op.Connecting? { OfferedRecords(s, e, reply, env); OfferedTraffic(s, e, reply, env); } else { AbandonOk(s, e, true); }
    case Shared(_) => if g.op.Readying? { SharedOk(s, e, reply, env); } else { AbandonOk(s, e, true); }
    case Done =>
      if g.op.Publishing? { SameNodeRecords(s, e, OnAcknowledged(g)); AcknowledgedTraffic(s, e, reply, env); }
      else { AbandonOk(s, e, !g.op.Disconnecting?); }
    case Failed => AbandonOk(s, e, true);
  }

  lemma StepKeepsSafety(s: System, step: Step)
    requires SafetyInv(s) && Enabled(s, step)
    ensures Lookups(s) && SafetyInv(Apply(s, step)) && SystemGrows(s, Apply(s, step))
  {
    StepEffectOk(s, step);
    InstallKeeps(s, Actor(step), EffectOf(s, step));
  }

  lemma InitialSafety(s: System)
    requires Starts(s)
    ensures SafetyInv(s)
  {
  }
}
