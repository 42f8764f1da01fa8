/** The control plane as the object it is: a dictionary of mutable Peer records, updated in place by
    one block at a time, each proved against the function of the same name on values. */
module ControlPlane {
  import opened Control
  import opened ControlNode
  import opened Options

  class PeerRecord {
    const handle: Handle
    const endpoint: Endpoint
    const metadata: Blob
    const connectionId: ConnectionId
    var remoteId: ConnectionId
    var state: PeerState
    var remoteVersion: int

    constructor (handle: Handle, endpoint: Endpoint, metadata: Blob, connectionId: ConnectionId)
      ensures View() == Peer(handle, endpoint, metadata, connectionId, 0, CREATED, -1)
      ensures this.connectionId == connectionId && this.endpoint == endpoint
    {
      this.handle, this.endpoint, this.metadata, this.connectionId := handle, endpoint, metadata, connectionId;
      this.remoteId, this.state, this.remoteVersion := 0, CREATED, -1;
    }

    ghost function View(): Peer
      reads this
    {
      Peer(handle, endpoint, metadata, connectionId, remoteId, state, remoteVersion)
    }
  }

  lemma ImportOne(native: Native, h: Handle, memories: seq<Blob>, i: nat)
    requires i < |memories|
    ensures ImportMany(native, h, memories[..i], i).Import(h, memories[i], true) == ImportMany(native, h, memories[..i + 1], i + 1)
    ensures ImportMany(native, h, memories[..i], i).Import(h, memories[i], false) == ImportMany(native, h, memories, i)
  {
    assert Registered(memories[..i], i) == Registered(memories, i);
    assert Registered(memories[..i + 1], i + 1) == Registered(memories, i) + {memories[i]};
    if native.Usable(h, Joined) {
      var qp := native.qps[h];
      assert i == 0 ==> qp.imports + Registered(memories, 0) == qp.imports;
      assert qp.imports + Registered(memories, i) + {memories[i]} == qp.imports + Registered(memories[..i + 1], i + 1);
      var before := qp.(imports := qp.imports + Registered(memories, i));
      var after := before.(imports := before.imports + {memories[i]});
      assert native.qps[h := before][h := after] == native.qps[h := after];
      assert native.qps[h := before][h := before.(interrupted := true)] == native.qps[h := before.(interrupted := true)];
    }
  }

  /** The dictionary decides which of several peers with one handle would go first. */
  ghost predicate Disconnects(n: Node, handle: Handle, env: Env, out: Outcome<Connection>)
    requires WellKeyed(n)
  {
    if n.closed then out == Outcome(n, Raised(EngineClosed))
    else if !exists e :: HasHandle(n, e, handle) then out == Outcome(n, Raised(UnknownPeer))
    else exists e :: HasHandle(n, e, handle) && out == DisconnectAt(n, e, env)
  }

  /** No two peers of a reachable engine share a handle, so there it is the one function. */
  lemma DisconnectsOnePeer(n: Node, handle: Handle, env: Env, out: Outcome<Connection>)
    requires NodeInv(n)
    ensures Disconnects(n, handle, env, out) <==> out == Control.BeginDisconnect(n, handle, env)
  {
    if !n.closed && exists e :: HasHandle(n, e, handle) {
      var e :| HasHandle(n, e, handle);
      forall d | HasHandle(n, d, handle)
        ensures d == e
      {
        assert n.heap[n.peers[d]].handle == n.heap[n.peers[e]].handle;
      }
    }
  }

  class ControlPlane {
    const endpoint: Endpoint
    var closed: bool
    var peers: map<Endpoint, PeerRecord>
    var memoryMetadata: seq<Blob>
    var native: Native
    ghost var created: map<ConnectionId, PeerRecord>  // every record ever created
    ghost var log: seq<Blob>                          // everything ever appended to memoryMetadata

    ghost predicate Valid()
      reads this
    {
      && (forall id <- created :: created[id].connectionId == id)
      && (forall e <- peers ::
            peers[e].endpoint == e && peers[e].connectionId in created && created[peers[e].connectionId] == peers[e])
    }

    ghost function Dictionary(): map<Endpoint, ConnectionId>
      reads this`peers
    {
      map e | e in peers :: peers[e].connectionId
    }

    ghost function Heap(): map<ConnectionId, Peer>
      reads this`created, created.Values
    {
      map id | id in created :: created[id].View()
    }

    ghost function View(): Node
      reads this, created.Values
    {
      Node(endpoint, closed, Dictionary(), Heap(), memoryMetadata, log, native)
    }

    constructor (endpoint: Endpoint)
      ensures Valid() && View() == Node(endpoint, false, map[], map[], [], [], Native(map[], false, false))
    {
      this.endpoint, closed, peers, memoryMetadata := endpoint, false, map[], [];
      native := Native(map[], false, false);
      created, log := map[], [];
    }

    /** The record is one this object created. */
    ghost predicate Owns(peer: PeerRecord)
      reads this
    {
      peer.connectionId in created && created[peer.connectionId] == peer
    }

    method Register(peer: PeerRecord)
      requires Valid() && peer.connectionId !in created
      modifies this`created, this`peers
      ensures Valid() && created == old(created)[peer.connectionId := peer]
      ensures Heap() == old(Heap())[peer.connectionId := peer.View()]
      ensures Dictionary() == old(Dictionary())[peer.endpoint := peer.connectionId]
    {
      created := created[peer.connectionId := peer];
      peers := peers[peer.endpoint := peer];
    }

    method CreatePeer(endpoint: Endpoint, env: Env) returns (r: Result<PeerRecord>)
      requires Valid() && Fresh(View(), env)
      modifies this
      ensures Valid() && View() == Control.CreatePeer(old(View()), endpoint, env).node
      ensures r.Ok? <==> env.createOk
      ensures r.Ok? ==> fresh(r.value) && Owns(r.value) && r.value.connectionId == env.id
      ensures r.Raised? ==> r.error == NativeFailure
      ensures created == if r.Ok? then old(created)[env.id := r.value] else old(created)
    {
      if !env.createOk {
        return Raised(NativeFailure);
      }
      native := native.Create(env.handle, env.exported);
      var peer := new PeerRecord(env.handle, endpoint, env.exported, env.id);
      Register(peer);
      r := Ok(peer);
    }

    method ConnectNative(peer: PeerRecord, offer: Offer, env: Env) returns (r: Result<()>)
      requires Valid() && Owns(peer)
      modifies this`native, peer
      ensures Valid() && Outcome(View(), r) == Control.ConnectNative(old(View()), peer.connectionId, offer, env)
    {
      if offer.connection.endpoint != peer.endpoint || offer.connection.id == 0 {
        return Raised(UnexpectedIdentity);
      }
      if peer.state == CREATED {
        native := native.Connect(peer.handle, offer.metadata, env.connectOk);
        if !env.connectOk {
          return Raised(NativeFailure);
        }
        peer.remoteId := offer.connection.id;
        peer.state := CONNECTED;
        assert Heap() == old(Heap())[peer.connectionId := peer.View()];
      } else if peer.remoteId != offer.connection.id {
        return Raised(DifferentConnection);
      }
      r := Ok(());
    }

    method ImportSnapshot(peer: PeerRecord, snapshot: Snapshot, env: Env) returns (r: Result<()>)
      requires Valid() && Owns(peer)
      modifies this`native, peer`remoteVersion
      ensures Valid() && Outcome(View(), r) == Control.ImportSnapshot(old(View()), peer.connectionId, snapshot, env)
    {
      if snapshot.version > peer.remoteVersion {
        var memories := snapshot.memories;
        var i := 0;
        while i < |memories|
          invariant 0 <= i <= |memories|
          invariant native == ImportMany(old(native), peer.handle, memories[..i], i)
          invariant env.importsBeforeFailure.Some? ==> i <= env.importsBeforeFailure.value
          invariant peer.remoteVersion == old(peer.remoteVersion)
        {
          ImportOne(old(native), peer.handle, memories, i);
          if env.importsBeforeFailure == Some(i) {
            native := native.Import(peer.handle, memories[i], false);
            return Raised(NativeFailure);
          }
          native := native.Import(peer.handle, memories[i], true);
          i := i + 1;
        }
        assert memories[..i] == memories;
        peer.remoteVersion := snapshot.version;
        assert Heap() == old(Heap())[peer.connectionId := peer.View()];
      }
      r := Ok(());
    }

    method MarkReady(peer: PeerRecord)
      requires Valid() && Owns(peer)
      modifies peer`state
      ensures Valid() && View() == Control.MarkReady(old(View()), peer.connectionId)
    {
      peer.state := READY;
    }

    method DestroyPeer(peer: PeerRecord, env: Env) returns (r: Result<()>)
      requires Valid() && Owns(peer)
      modifies this`native, this`peers
      ensures Valid() && Outcome(View(), r) == Control.DestroyPeer(old(View()), peer.connectionId, env)
    {
      native := native.Destroy(peer.handle, env.destroyOk);
      if !env.destroyOk {
        return Raised(NativeFailure);
      }
      peers := peers - {peer.endpoint};
      r := Ok(());
    }

    method FindOrCreate(endpoint: Endpoint, env: Env) returns (r: Result<PeerRecord>)
      requires Valid() && Fresh(View(), env)
      modifies this
      ensures Valid() && View() == Control.FindOrCreate(old(View()), endpoint, env).node
      ensures var spec := Control.FindOrCreate(old(View()), endpoint, env).result;
              if r.Ok? then Owns(r.value) && spec == Ok(r.value.connectionId) else spec == Raised(r.error)
      ensures r.Ok? ==> fresh(r.value) || r.value in old(created.Values)
      ensures forall id <- created :: id in old(created) || fresh(created[id])
    {
      if endpoint in peers {
        r := Ok(peers[endpoint]);
      } else {
        r := CreatePeer(endpoint, env);
      }
    }

    // ----- The blocks of the outgoing operations ---------------------------------------------

    method BeginConnect(target: Endpoint, env: Env) returns (r: Result<Begun>)
      requires Valid() && Fresh(View(), env)
      modifies this
      ensures Valid() && WellKeyed(old(View())) && Outcome(View(), r) == Control.BeginConnect(old(View()), target, env)
    {
      if target == 0 || target == endpoint {
        return Raised(InvalidArgument);
      }
      if closed {
        return Raised(EngineClosed);
      }
      var found := FindOrCreate(target, env);
      if found.Raised? {
        return Raised(found.error);
      }
      var peer := found.value;
      if peer.state == READY {
        return Ok(Reuse(peer.handle));
      }
      r := Ok(SendOffer(peer.connectionId, Offer(Connection(endpoint, peer.connectionId), peer.metadata)));
    }

    /** `_require_peer` compares object identity; here that is identity of connection ids. */
    method LinkConnect(peer: PeerRecord, answer: Offer, env: Env) returns (r: Result<Update>)
      requires Valid() && Owns(peer)
      modifies this`native, peer
      ensures Valid() && Outcome(View(), r) == Control.LinkConnect(old(View()), peer.connectionId, answer, env)
    {
      if peer.endpoint !in peers || peers[peer.endpoint] != peer {
        return Raised(PeerDisconnected);
      }
      var linked := ConnectNative(peer, answer, env);
      if linked.Raised? {
        return Raised(linked.error);
      }
      r := Ok(Update(Connection(endpoint, peer.connectionId), Snapshot(|memoryMetadata|, memoryMetadata)));
    }

    method FinishConnect(peer: PeerRecord, answer: Snapshot, env: Env) returns (r: Result<Handle>)
      requires Valid() && Owns(peer)
      modifies this`native, peer
      ensures Valid() && Outcome(View(), r) == Control.FinishConnect(old(View()), peer.connectionId, answer, env)
    {
      if peer.endpoint !in peers || peers[peer.endpoint] != peer {
        return Raised(PeerDisconnected);
      }
      var imported := ImportSnapshot(peer, answer, env);
      if imported.Raised? {
        return Raised(imported.error);
      }
      MarkReady(peer);
      r := Ok(peer.handle);
    }

    method BeginPublish(metadata: Blob) returns (r: Result<Snapshot>, targets: seq<Connection>)
      requires Valid()
      modifies this`memoryMetadata, this`log
      ensures Valid() && Outcome(View(), r) == Control.BeginPublish(old(View()), metadata)
      ensures r.Ok? ==> Captures(old(View()), targets)
    {
      targets := [];
      if closed {
        return Raised(EngineClosed), targets;
      }
      memoryMetadata := memoryMetadata + [metadata];
      log := log + [metadata];
      var rest := peers.Keys;
      while rest != {}
        invariant rest <= peers.Keys
        invariant forall i, j :: 0 <= i < j < |targets| ==> targets[i] != targets[j]
        invariant forall c :: c in targets <==> IsTarget(old(View()), c) && c.endpoint !in rest
        decreases rest
      {
        var e :| e in rest;
        var peer := peers[e];
        rest := rest - {e};
        assert old(View()).heap[peer.connectionId] == peer.View();
        if peer.state == READY {
          targets := targets + [Connection(e, peer.connectionId)];
        }
      }
      r := Ok(Snapshot(|memoryMetadata|, memoryMetadata));
    }

    /** Disconnects the first live peer with this handle. */
    method BeginDisconnect(handle: Handle, env: Env) returns (r: Result<Connection>)
      requires Valid()
      modifies this`native, this`peers
      ensures Valid() && WellKeyed(old(View())) && Disconnects(old(View()), handle, env, Outcome(View(), r))
    {
      if closed {
        return Raised(EngineClosed);
      }
      var rest := peers.Keys;
      while rest != {}
        invariant rest <= peers.Keys
        invariant forall e <- peers :: peers[e].handle == handle ==> e in rest
        decreases rest
      {
        var e :| e in rest;
        rest := rest - {e};
        if peers[e].handle == handle {
          assert HasHandle(View(), e, handle);
          r := DisconnectPeer(peers[e], env);
          return;
        }
      }
      assert forall d :: !HasHandle(View(), d, handle);
      r := Raised(UnknownPeer);
    }

    method DisconnectPeer(peer: PeerRecord, env: Env) returns (r: Result<Connection>)
      requires Valid() && peer.endpoint in peers && peers[peer.endpoint] == peer
      modifies this`native, this`peers
      ensures Valid() && WellKeyed(old(View())) && Outcome(View(), r) == DisconnectAt(old(View()), peer.endpoint, env)
    {
      var destroyed := DestroyPeer(peer, env);
      if destroyed.Raised? {
        return Raised(destroyed.error);
      }
      r := Ok(Connection(peer.endpoint, peer.connectionId));
    }

    /** The locked part: from here on every handler refuses. */
    method BeginClose()
      requires Valid()
      modifies this`closed
      ensures Valid() && View() == Control.BeginClose(old(View()))
    {
      closed := true;
    }

    /** The rest, once the server has stopped: drop the records, then close the native engine. */
    method FinishClose(ok: bool)
      requires Valid()
      modifies this`peers, this`memoryMetadata, this`native
      ensures Valid() && View() == Control.FinishClose(old(View()), ok)
    {
      peers := map[];
      memoryMetadata := [];
      if !native.closed {
        native := native.Close(ok);
      }
    }

    method Close(ok: bool)
      requires Valid()
      modifies this`closed, this`peers, this`memoryMetadata, this`native
      ensures Valid() && View() == Control.FinishClose(Control.BeginClose(old(View())), ok)
    {
      BeginClose();
      FinishClose(ok);
    }

    // ----- Handlers --------------------------------------------------------------------------

    method HandleConnect(request: Offer, env: Env) returns (r: Result<Offer>)
      requires Valid() && Fresh(View(), env)
      modifies this, created.Values
      ensures Valid() && WellKeyed(old(View())) && Outcome(View(), r) == Control.HandleConnect(old(View()), request, env)
    {
      var remote := request.connection.endpoint;
      if remote == 0 || remote == endpoint {
        return Raised(InvalidArgument);
      }
      if closed {
        return Raised(EngineClosed);
      }
      var found := FindOrCreate(remote, env);
      if found.Raised? {
        return Raised(found.error);
      }
      var peer := found.value;
      var linked := ConnectNative(peer, request, env);
      if linked.Raised? {
        return Raised(linked.error);
      }
      r := Ok(Offer(Connection(endpoint, peer.connectionId), peer.metadata));
    }

    method FindConnection(c: Connection) returns (r: Result<PeerRecord>)
      requires Valid()
      ensures WellKeyed(View())
      ensures match r
              case Ok(peer) => Owns(peer) && Control.FindConnection(View(), c) == Ok(peer.connectionId)
              case Raised(error) => Control.FindConnection(View(), c) == Raised(error)
    {
      if c.endpoint !in peers || c.id == 0 || peers[c.endpoint].remoteId != c.id {
        return Raised(UnknownConnection);
      }
      r := Ok(peers[c.endpoint]);
    }

    method HandleReady(request: Update, env: Env) returns (r: Result<Snapshot>)
      requires Valid()
      modifies this`native, created.Values
      ensures Valid() && WellKeyed(old(View())) && Outcome(View(), r) == Control.HandleReady(old(View()), request, env)
    {
      if closed {
        return Raised(EngineClosed);
      }
      var found := FindConnection(request.connection);
      if found.Raised? {
        return Raised(found.error);
      }
      var imported := ImportSnapshot(found.value, request.snapshot, env);
      if imported.Raised? {
        return Raised(imported.error);
      }
      MarkReady(found.value);
      r := Ok(Snapshot(|memoryMetadata|, memoryMetadata));
    }

    method HandleChanged(request: Update, env: Env) returns (r: Result<()>)
      requires Valid()
      modifies this`native, created.Values
      ensures Valid() && WellKeyed(old(View())) && Outcome(View(), r) == Control.HandleChanged(old(View()), request, env)
    {
      if closed {
        return Raised(EngineClosed);
      }
      var found := FindConnection(request.connection);
      if found.Raised? {
        return Raised(found.error);
      }
      r := ImportSnapshot(found.value, request.snapshot, env);
    }

    method HandleClose(request: Connection, env: Env) returns (r: Result<()>)
      requires Valid()
      modifies this`native, this`peers
      ensures Valid() && WellKeyed(old(View())) && Outcome(View(), r) == Control.HandleClose(old(View()), request, env)
    {
      if closed {
        return Raised(EngineClosed);
      }
      if request.endpoint in peers && peers[request.endpoint].remoteId == request.id {
        r := DestroyPeer(peers[request.endpoint], env);
      } else {
        r := Ok(());
      }
    }
  }
}
