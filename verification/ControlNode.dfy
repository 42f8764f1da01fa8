/** What every block keeps true of one engine, and how one engine's records may change over time. */
module ControlNode {
  import opened Control

  /** One Peer object against the native engine: the typestate of its handle follows its state. */
  predicate PeerOk(n: Node, id: ConnectionId)
    requires id in n.heap
  {
    var p := n.heap[id];
    && p.connectionId == id && id != 0
    && p.endpoint != 0 && p.endpoint != n.endpoint
    && (p.remoteId == 0 <==> p.state == CREATED)
    && -1 <= p.remoteVersion
    && p.handle in n.native.qps
    && var qp := n.native.qps[p.handle];
    && p.metadata == qp.exported
    && (p.state == CREATED ==> p.remoteVersion == -1 && qp.imports == {} && !qp.interrupted && qp.phase != Joined)
    && (p.state != CREATED ==> qp.phase != Initial && qp.phase != Faulted)
    && (qp.phase == Initial ==> qp.connects == 0)
    && (Live(n, id) ==> qp.phase != Destroyed)
    && (!Live(n, id) ==> n.closed || qp.phase == Destroyed)
  }

  predicate DistinctHandles(n: Node) {
    forall a <- n.heap, b <- n.heap :: a != b ==> n.heap[a].handle != n.heap[b].handle
  }

  ghost predicate NodeInv(n: Node) {
    && WellKeyed(n)
    && DistinctHandles(n)
    && (forall id <- n.heap :: PeerOk(n, id))
    && !n.native.misused
    && (n.native.closed ==> n.closed && n.peers == map[])
    && (!n.closed ==> n.metadata == n.log)
  }

  /** A peer keeps its identity; its link is written once; its state and version only advance. */
  predicate PeerGrows(p: Peer, p': Peer) {
    && p'.handle == p.handle && p'.endpoint == p.endpoint
    && p'.metadata == p.metadata && p'.connectionId == p.connectionId
    && (p.remoteId != 0 ==> p'.remoteId == p.remoteId)
    && (p.state != CREATED ==> p'.state != CREATED)
    && (p.state == READY ==> p'.state == READY)
    && p.remoteVersion <= p'.remoteVersion
  }

  /** A handle goes Initial, Joined, Destroyed, or is Faulted in between; its remote side is fixed by
      the one connect that succeeds and its imports only grow. */
  predicate QpGrows(q: Qp, q': Qp) {
    && q'.exported == q.exported
    && (q.phase == Faulted ==> q'.phase != Initial)
    && (q.phase == Joined ==> (q'.phase == Joined || q'.phase == Destroyed) && q'.remote == q.remote)
    && (q.phase == Destroyed ==> q' == q)
    && q.connects <= q'.connects
    && q.imports <= q'.imports
    && (q.interrupted ==> q'.interrupted)
  }

  ghost predicate Grows(n: Node, n': Node) {
    && n'.endpoint == n.endpoint
    && (n.closed ==> n'.closed)
    && (n.native.closed ==> n'.native == n.native)
    && n.log <= n'.log
    && (forall id <- n.heap :: id in n'.heap && PeerGrows(n.heap[id], n'.heap[id]))
    && (forall id <- n.heap :: !Live(n, id) ==> !Live(n', id) && n'.heap[id] == n.heap[id])
    && (forall h <- n.native.qps :: h in n'.native.qps && QpGrows(n.native.qps[h], n'.native.qps[h]))
  }

  lemma GrowsReflexive(n: Node)
    ensures Grows(n, n)
  {
  }

  lemma GrowsTransitive(a: Node, b: Node, c: Node)
    requires Grows(a, b) && Grows(b, c)
    ensures Grows(a, c)
  {
    forall id <- a.heap
      ensures id in c.heap && PeerGrows(a.heap[id], c.heap[id])
    {
      assert id in b.heap;
    }
    forall h <- a.native.qps
      ensures h in c.native.qps && QpGrows(a.native.qps[h], c.native.qps[h])
    {
      assert h in b.native.qps;
    }
  }

  // ----- One lemma per internal step -------------------------------------------------------

  lemma CreatePeerDistinct(n: Node, endpoint: Endpoint, env: Env)
    requires NodeInv(n) && Fresh(n, env)
    ensures DistinctHandles(CreatePeer(n, endpoint, env).node)
  {
    var n' := CreatePeer(n, endpoint, env).node;
    forall a <- n'.heap, b <- n'.heap | a != b
      ensures n'.heap[a].handle != n'.heap[b].handle
    {
      assert a in n.heap ==> PeerOk(n, a);
      assert b in n.heap ==> PeerOk(n, b);
    }
  }

  lemma CreatePeerKeepsPeer(n: Node, endpoint: Endpoint, env: Env, id: ConnectionId)
    requires NodeInv(n) && !n.closed && Fresh(n, env) && env.createOk
    requires endpoint != 0 && endpoint != n.endpoint && endpoint !in n.peers
    requires id in n.heap || id == env.id
    ensures PeerOk(CreatePeer(n, endpoint, env).node, id)
  {
    if id != env.id {
      assert PeerOk(n, id);
      assert Live(CreatePeer(n, endpoint, env).node, id) <==> Live(n, id);
    }
  }

  lemma CreatePeerGrows(n: Node, endpoint: Endpoint, env: Env)
    requires NodeInv(n) && !n.closed && Fresh(n, env) && endpoint !in n.peers
    ensures Grows(n, CreatePeer(n, endpoint, env).node)
  {
    hide PeerOk, DistinctHandles;
  }

  lemma CreatePeerKeeps(n: Node, endpoint: Endpoint, env: Env)
    requires NodeInv(n) && !n.closed && Fresh(n, env)
    requires endpoint != 0 && endpoint != n.endpoint && endpoint !in n.peers
    ensures var n' := CreatePeer(n, endpoint, env).node;
            NodeInv(n') && Grows(n, n')
  {
    hide PeerOk, DistinctHandles, PeerGrows, QpGrows;
    var n' := CreatePeer(n, endpoint, env).node;
    CreatePeerGrows(n, endpoint, env);
    if env.createOk {
      CreatePeerDistinct(n, endpoint, env);
      forall id <- n'.heap
        ensures PeerOk(n', id)
      {
        CreatePeerKeepsPeer(n, endpoint, env, id);
      }
    }
  }

  /** A step that touches only peer `id` and its handle keeps everything about the others. */
  lemma TouchOne(n: Node, n': Node, id: ConnectionId)
    requires NodeInv(n) && Live(n, id)
    requires n' == n.(heap := n'.heap, native := n'.native)
    requires n'.heap.Keys == n.heap.Keys && n'.native.qps.Keys == n.native.qps.Keys
    requires forall other <- n.heap :: other != id ==> n'.heap[other] == n.heap[other]
    requires forall h <- n.native.qps :: h != n.heap[id].handle ==> n'.native.qps[h] == n.native.qps[h]
    requires n'.native.closed == n.native.closed && !n'.native.misused
    requires PeerGrows(n.heap[id], n'.heap[id])
    requires n.heap[id].handle in n.native.qps
    requires QpGrows(n.native.qps[n.heap[id].handle], n'.native.qps[n.heap[id].handle])
    requires PeerOk(n', id)
    ensures NodeInv(n') && Grows(n, n')
  {
    hide PeerOk, PeerGrows, QpGrows;
    GrowsReflexive(n);
    TouchDistinct(n, n', id);
    forall other <- n'.heap
      ensures PeerOk(n', other)
    {
      if other != id {
        TouchOther(n, n', id, other);
      }
    }
  }

  lemma TouchDistinct(n: Node, n': Node, id: ConnectionId)
    requires DistinctHandles(n) && id in n.heap && n'.heap.Keys == n.heap.Keys
    requires forall other <- n.heap :: other != id ==> n'.heap[other] == n.heap[other]
    requires PeerGrows(n.heap[id], n'.heap[id])
    ensures DistinctHandles(n') && n'.heap[id].endpoint == n.heap[id].endpoint
  {
    forall a <- n'.heap, b <- n'.heap | a != b
      ensures n'.heap[a].handle != n'.heap[b].handle
    {
      assert n.heap[a].handle != n.heap[b].handle;
    }
  }

  lemma TouchOther(n: Node, n': Node, id: ConnectionId, other: ConnectionId)
    requires NodeInv(n) && Live(n, id) && other in n.heap && other != id
    requires n' == n.(heap := n'.heap, native := n'.native)
    requires n'.heap.Keys == n.heap.Keys && n'.native.qps.Keys == n.native.qps.Keys
    requires n'.heap[other] == n.heap[other]
    requires forall h <- n.native.qps :: h != n.heap[id].handle ==> n'.native.qps[h] == n.native.qps[h]
    ensures PeerOk(n', other)
  {
    assert PeerOk(n, other);
    assert Live(n', other) <==> Live(n, other);
  }

  lemma ConnectedPeerOk(n: Node, id: ConnectionId, offer: Offer, env: Env)
    requires NodeInv(n) && Live(n, id)
    ensures var n' := ConnectNative(n, id, offer, env).node;
            && PeerOk(n', id) && !n'.native.misused && PeerGrows(n.heap[id], n'.heap[id])
            && n.heap[id].handle in n.native.qps && n'.native.qps.Keys == n.native.qps.Keys
            && QpGrows(n.native.qps[n.heap[id].handle], n'.native.qps[n.heap[id].handle])
  {
    assert PeerOk(n, id);
    hide NodeInv;
  }

  lemma ConnectNativeKeeps(n: Node, id: ConnectionId, offer: Offer, env: Env)
    requires NodeInv(n) && Live(n, id)
    ensures var n' := ConnectNative(n, id, offer, env).node;
            NodeInv(n') && Grows(n, n')
  {
    ConnectedPeerOk(n, id, offer, env);
    hide PeerOk, PeerGrows, QpGrows, NodeInv, Grows;
    var n' := ConnectNative(n, id, offer, env).node;
    if n' != n {
      TouchOne(n, n', id);
    } else {
      GrowsReflexive(n);
    }
  }

  lemma ImportedPeerOk(n: Node, id: ConnectionId, snapshot: Snapshot, env: Env)
    requires NodeInv(n) && Live(n, id) && n.heap[id].state != CREATED
    ensures var n' := ImportSnapshot(n, id, snapshot, env).node;
            && PeerOk(n', id) && !n'.native.misused && PeerGrows(n.heap[id], n'.heap[id])
            && n.heap[id].handle in n.native.qps && n'.native.qps.Keys == n.native.qps.Keys
            && QpGrows(n.native.qps[n.heap[id].handle], n'.native.qps[n.heap[id].handle])
  {
    assert PeerOk(n, id);
    assert n.native.Usable(n.heap[id].handle, Joined);
    hide NodeInv, Registered, ImportCount;
  }

  lemma ImportSnapshotKeeps(n: Node, id: ConnectionId, snapshot: Snapshot, env: Env)
    requires NodeInv(n) && Live(n, id) && n.heap[id].state != CREATED
    ensures var n' := ImportSnapshot(n, id, snapshot, env).node;
            NodeInv(n') && Grows(n, n')
  {
    hide PeerOk, PeerGrows, QpGrows, NodeInv, Grows;
    var n' := ImportSnapshot(n, id, snapshot, env).node;
    if n' != n {
      ImportedPeerOk(n, id, snapshot, env);
      TouchOne(n, n', id);
    } else {
      GrowsReflexive(n);
    }
  }

  lemma MarkReadyKeeps(n: Node, id: ConnectionId)
    requires NodeInv(n) && Live(n, id) && n.heap[id].state != CREATED
    ensures NodeInv(MarkReady(n, id)) && Grows(n, MarkReady(n, id))
  {
    assert PeerOk(n, id);
    TouchOne(n, MarkReady(n, id), id);
  }

  lemma DestroyPeerKeepsPeer(n: Node, id: ConnectionId, env: Env, other: ConnectionId)
    requires NodeInv(n) && Live(n, id) && other in n.heap
    ensures PeerOk(DestroyPeer(n, id, env).node, other)
  {
    assert PeerOk(n, id) && PeerOk(n, other);
    if other != id {
      assert Live(DestroyPeer(n, id, env).node, other) <==> Live(n, other);
    }
  }

  lemma DestroyPeerGrows(n: Node, id: ConnectionId, env: Env)
    requires NodeInv(n) && Live(n, id)
    ensures Grows(n, DestroyPeer(n, id, env).node) && !DestroyPeer(n, id, env).node.native.misused
  {
    assert PeerOk(n, id);
  }

  lemma DestroyPeerKeeps(n: Node, id: ConnectionId, env: Env)
    requires NodeInv(n) && Live(n, id)
    ensures var n' := DestroyPeer(n, id, env).node;
            NodeInv(n') && Grows(n, n')
  {
    DestroyPeerGrows(n, id, env);
    hide PeerOk, Grows;
    var n' := DestroyPeer(n, id, env).node;
    forall other <- n'.heap
      ensures PeerOk(n', other)
    {
      DestroyPeerKeepsPeer(n, id, env, other);
    }
  }

  lemma FinishCloseKeeps(n: Node, ok: bool)
    requires NodeInv(n) && n.closed
    ensures var n' := FinishClose(n, ok);
            && NodeInv(n') && Grows(n, n')
            && (forall id <- n'.heap :: !Live(n', id))
            && (n'.native.closed <==> n.native.closed || ok)
  {
    var n' := FinishClose(n, ok);
    forall id <- n'.heap
      ensures PeerOk(n', id)
    {
      assert PeerOk(n, id);
    }
  }

  // ----- The blocks ------------------------------------------------------------------------

  lemma BeginConnectKeeps(n: Node, endpoint: Endpoint, env: Env)
    requires NodeInv(n) && Fresh(n, env)
    ensures var n' := BeginConnect(n, endpoint, env).node;
            NodeInv(n') && Grows(n, n')
  {
    if endpoint != 0 && endpoint != n.endpoint && !n.closed && endpoint !in n.peers {
      CreatePeerKeeps(n, endpoint, env);
    }
  }

  lemma ImportThenReadyKeeps(n: Node, id: ConnectionId, snapshot: Snapshot, env: Env)
    requires NodeInv(n) && Live(n, id) && n.heap[id].state != CREATED
    ensures var imported := ImportSnapshot(n, id, snapshot, env).node;
            NodeInv(imported) && Grows(n, imported)
            && NodeInv(MarkReady(imported, id)) && Grows(n, MarkReady(imported, id))
  {
    ImportSnapshotKeeps(n, id, snapshot, env);
    var imported := ImportSnapshot(n, id, snapshot, env).node;
    assert PeerOk(n, id);
    MarkReadyKeeps(imported, id);
    GrowsTransitive(n, imported, MarkReady(imported, id));
  }

  lemma BeginPublishKeeps(n: Node, metadata: Blob)
    requires NodeInv(n)
    ensures var n' := BeginPublish(n, metadata).node;
            NodeInv(n') && Grows(n, n')
  {
    var n' := BeginPublish(n, metadata).node;
    forall id <- n'.heap
      ensures PeerOk(n', id)
    {
      assert PeerOk(n, id);
    }
  }

  lemma BeginDisconnectKeeps(n: Node, handle: Handle, env: Env)
    requires NodeInv(n)
    ensures var out := BeginDisconnect(n, handle, env);
            && NodeInv(out.node) && Grows(n, out.node)
            && (out.result.Ok? ==>
                  var c := out.result.value;
                  && Live(n, c.id) && n.heap[c.id].handle == handle && n.heap[c.id].endpoint == c.endpoint
                  && out.node == DestroyPeer(n, c.id, env).node && !Live(out.node, c.id))
            && (out.result.Raised? ==> out.node.peers == n.peers && out.node.heap == n.heap)
  {
    if !n.closed && exists e :: HasHandle(n, e, handle) {
      var e :| HasHandle(n, e, handle) && BeginDisconnect(n, handle, env).node == DestroyPeer(n, n.peers[e], env).node;
      DestroyPeerKeeps(n, n.peers[e], env);
    }
  }

  lemma FindOrCreateKeeps(n: Node, endpoint: Endpoint, env: Env)
    requires NodeInv(n) && !n.closed && Fresh(n, env) && endpoint != 0 && endpoint != n.endpoint
    ensures var found := FindOrCreate(n, endpoint, env);
            && NodeInv(found.node) && Grows(n, found.node)
            && (found.result.Ok? ==> Live(found.node, found.result.value))
  {
    if endpoint !in n.peers {
      CreatePeerKeeps(n, endpoint, env);
    }
  }

  lemma HandleConnectKeeps(n: Node, offer: Offer, env: Env)
    requires NodeInv(n) && Fresh(n, env)
    ensures var n' := HandleConnect(n, offer, env).node;
            NodeInv(n') && Grows(n, n')
  {
    var endpoint := offer.connection.endpoint;
    if endpoint != 0 && endpoint != n.endpoint && !n.closed {
      var found := FindOrCreate(n, endpoint, env);
      FindOrCreateKeeps(n, endpoint, env);
      hide NodeInv, Grows, FindOrCreate;
      if found.result.Ok? {
        var id := found.result.value;
        ConnectNativeKeeps(found.node, id, offer, env);
        GrowsTransitive(n, found.node, ConnectNative(found.node, id, offer, env).node);
      }
    }
  }

  lemma HandleReadyKeeps(n: Node, update: Update, env: Env)
    requires NodeInv(n)
    ensures var n' := HandleReady(n, update, env).node;
            NodeInv(n') && Grows(n, n')
  {
    if !n.closed && FindConnection(n, update.connection).Ok? {
      var id := FindConnection(n, update.connection).value;
      assert PeerOk(n, id);
      ImportThenReadyKeeps(n, id, update.snapshot, env);
    }
  }

  lemma HandleChangedKeeps(n: Node, update: Update, env: Env)
    requires NodeInv(n)
    ensures var n' := HandleChanged(n, update, env).node;
            NodeInv(n') && Grows(n, n')
  {
    if !n.closed && FindConnection(n, update.connection).Ok? {
      var id := FindConnection(n, update.connection).value;
      assert PeerOk(n, id);
      ImportSnapshotKeeps(n, id, update.snapshot, env);
    }
  }

  lemma HandleCloseKeeps(n: Node, c: Connection, env: Env)
    requires NodeInv(n)
    ensures var n' := HandleClose(n, c, env).node;
            NodeInv(n') && Grows(n, n')
  {
    if c.endpoint in n.peers {
      DestroyPeerKeeps(n, n.peers[c.endpoint], env);
    }
  }
}
