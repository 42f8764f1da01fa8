/** One engine's control plane: the Peer records it keeps, the native calls it makes, and one
    function for every block that runs under the state lock.

    Endpoints, connection ids and metadata are only ever compared for equality and emptiness, so
    they are numbers; zero stands for the empty string. */
module Control {
  import opened Options

  type Endpoint = nat
  type ConnectionId = nat
  type Handle = nat
  type Blob = nat

  datatype Error =
    | InvalidArgument
    | EngineClosed
    | UnknownPeer
    | UnknownConnection
    | UnexpectedIdentity
    | DifferentConnection
    | PeerDisconnected
    | NativeFailure

  datatype Result<+T> = Ok(value: T) | Raised(error: Error)

  // ----- Wire messages ---------------------------------------------------------------------

  datatype Connection = Connection(endpoint: Endpoint, id: ConnectionId)
  datatype Offer = Offer(connection: Connection, metadata: Blob)
  datatype Snapshot = Snapshot(version: nat, memories: seq<Blob>)
  datatype Update = Update(connection: Connection, snapshot: Snapshot)

  // ----- The native engine as a typestate object -------------------------------------------

  /** `Faulted`: its last connect failed. transfer_engine.h wants such a peer destroyed; a further
      connect is not refused here but counted. */
  datatype Phase = Initial | Faulted | Joined | Destroyed

  /** A queue pair: what it exported, what it was connected with, what was imported for it, whether
      an import for it ever raised, and how often connect was called on it. */
  datatype Qp = Qp(phase: Phase, exported: Blob, remote: Blob, imports: set<Blob>, interrupted: bool, connects: nat)

  /** `qps` keeps destroyed handles as well; `misused` records a call out of order. */
  datatype Native = Native(qps: map<Handle, Qp>, closed: bool, misused: bool) {
    predicate Usable(h: Handle, phase: Phase) {
      !closed && h in qps && qps[h].phase == phase
    }

    function Misuse(): Native {
      this.(misused := true)
    }

    function Create(h: Handle, exported: Blob): Native {
      if closed || h in qps then Misuse()
      else this.(qps := qps[h := Qp(Initial, exported, 0, {}, false, 0)])
    }

    function Connect(h: Handle, remote: Blob, ok: bool): Native {
      if !Usable(h, Initial) && !Usable(h, Faulted) then Misuse()
      else
        var tried := qps[h].(connects := qps[h].connects + 1);
        this.(qps := qps[h := if ok then tried.(phase := Joined, remote := remote) else tried.(phase := Faulted)])
    }

    function Import(h: Handle, metadata: Blob, ok: bool): Native {
      if !Usable(h, Joined) then Misuse()
      else if ok then this.(qps := qps[h := qps[h].(imports := qps[h].imports + {metadata})])
      else this.(qps := qps[h := qps[h].(interrupted := true)])
    }

    function Destroy(h: Handle, ok: bool): Native {
      if closed || h !in qps || qps[h].phase == Destroyed then Misuse()
      else if ok then this.(qps := qps[h := qps[h].(phase := Destroyed)])
      else this
    }

    function Close(ok: bool): Native {
      if closed then Misuse() else this.(closed := ok)
    }
  }

  /** What the native engine and uuid4 answer during one block: the fresh names a new peer gets,
      which calls succeed, and after how many imports an import raises (None: never). */
  datatype Env = Env(
    id: ConnectionId, handle: Handle, exported: Blob,
    createOk: bool, connectOk: bool, destroyOk: bool, importsBeforeFailure: Option<nat>)

  // ----- Peers and engines -----------------------------------------------------------------

  datatype PeerState = CREATED | CONNECTED | READY

  datatype Peer = Peer(
    handle: Handle, endpoint: Endpoint, metadata: Blob, connectionId: ConnectionId,
    remoteId: ConnectionId, state: PeerState, remoteVersion: int)

  /** `heap` holds every Peer object ever created, found by its connection id; `peers` is the
      dictionary of live ones. `log` is everything ever appended to `metadata`, which close()
      clears. */
  datatype Node = Node(
    endpoint: Endpoint, closed: bool,
    peers: map<Endpoint, ConnectionId>, heap: map<ConnectionId, Peer>,
    metadata: seq<Blob>, log: seq<Blob>, native: Native)

  datatype Outcome<+T> = Outcome(node: Node, result: Result<T>)

  predicate Live(n: Node, id: ConnectionId) {
    id in n.heap && n.heap[id].endpoint in n.peers && n.peers[n.heap[id].endpoint] == id
  }

  predicate Fresh(n: Node, env: Env) {
    env.id != 0 && env.id !in n.heap && env.handle != 0 && env.handle !in n.native.qps
  }

  function ConnectionOf(n: Node, id: ConnectionId): Connection {
    Connection(n.endpoint, id)
  }

  function OfferOf(n: Node, id: ConnectionId): Offer
    requires id in n.heap
  {
    Offer(ConnectionOf(n, id), n.heap[id].metadata)
  }

  function SnapshotOf(n: Node): Snapshot {
    Snapshot(|n.metadata|, n.metadata)
  }

  /** The first `k` registrations of a log, as a set. */
  function Registered(log: seq<Blob>, k: nat): set<Blob>
    requires k <= |log|
  {
    set i | 0 <= i < k :: log[i]
  }

  // ----- Internal steps --------------------------------------------------------------------

  /** An invariant of the peers dictionary that every lookup below relies on. */
  predicate WellKeyed(n: Node) {
    forall e <- n.peers :: n.peers[e] in n.heap && n.heap[n.peers[e]].endpoint == e
  }

  function CreatePeer(n: Node, endpoint: Endpoint, env: Env): Outcome<ConnectionId> {
    if !env.createOk then Outcome(n, Raised(NativeFailure))
    else
      var peer := Peer(env.handle, endpoint, env.exported, env.id, 0, CREATED, -1);
      Outcome(n.(native := n.native.Create(env.handle, env.exported),
                 heap := n.heap[env.id := peer],
                 peers := n.peers[endpoint := env.id]),
              Ok(env.id))
  }

  function FindOrCreate(n: Node, endpoint: Endpoint, env: Env): Outcome<ConnectionId> {
    if endpoint in n.peers then Outcome(n, Ok(n.peers[endpoint])) else CreatePeer(n, endpoint, env)
  }

  function FindConnection(n: Node, c: Connection): Result<ConnectionId>
    requires WellKeyed(n)
  {
    if c.endpoint !in n.peers || c.id == 0 || n.heap[n.peers[c.endpoint]].remoteId != c.id
    then Raised(UnknownConnection)
    else Ok(n.peers[c.endpoint])
  }

  function ConnectNative(n: Node, id: ConnectionId, offer: Offer, env: Env): Outcome<()>
    requires id in n.heap
  {
    var p := n.heap[id];
    if offer.connection.endpoint != p.endpoint || offer.connection.id == 0 then
      Outcome(n, Raised(UnexpectedIdentity))
    else if p.state == CREATED then
      var n' := n.(native := n.native.Connect(p.handle, offer.metadata, env.connectOk));
      if !env.connectOk then Outcome(n', Raised(NativeFailure))
      else Outcome(n'.(heap := n.heap[id := p.(remoteId := offer.connection.id, state := CONNECTED)]), Ok(()))
    else if p.remoteId != offer.connection.id then
      Outcome(n, Raised(DifferentConnection))
    else
      Outcome(n, Ok(()))
  }

  /** How many of the listed descriptors are imported before the loop ends or raises. */
  function ImportCount(memories: seq<Blob>, env: Env): (k: nat)
    ensures k <= |memories|
    ensures env.importsBeforeFailure.None? ==> k == |memories|
  {
    if env.importsBeforeFailure.Some? && env.importsBeforeFailure.value < |memories|
    then env.importsBeforeFailure.value else |memories|
  }

  function ImportMany(native: Native, h: Handle, memories: seq<Blob>, k: nat): Native
    requires k <= |memories|
  {
    if memories == [] then native
    else if !native.Usable(h, Joined) then native.Misuse()
    else
      var qp := native.qps[h];
      native.(qps := native.qps[h := qp.(imports := qp.imports + Registered(memories, k),
                                         interrupted := qp.interrupted || k < |memories|)])
  }

  function ImportSnapshot(n: Node, id: ConnectionId, snapshot: Snapshot, env: Env): Outcome<()>
    requires id in n.heap
  {
    var p := n.heap[id];
    if snapshot.version <= p.remoteVersion then Outcome(n, Ok(()))
    else
      var k := ImportCount(snapshot.memories, env);
      var n' := n.(native := ImportMany(n.native, p.handle, snapshot.memories, k));
      if k < |snapshot.memories| then Outcome(n', Raised(NativeFailure))
      else Outcome(n'.(heap := n.heap[id := p.(remoteVersion := snapshot.version)]), Ok(()))
  }

  function MarkReady(n: Node, id: ConnectionId): Node
    requires id in n.heap
  {
    n.(heap := n.heap[id := n.heap[id].(state := READY)])
  }

  function DestroyPeer(n: Node, id: ConnectionId, env: Env): Outcome<()>
    requires id in n.heap
  {
    var n' := n.(native := n.native.Destroy(n.heap[id].handle, env.destroyOk));
    if !env.destroyOk then Outcome(n', Raised(NativeFailure))
    else Outcome(n'.(peers := n.peers - {n.heap[id].endpoint}), Ok(()))
  }

  // ----- Blocks of the outgoing operations -------------------------------------------------

  datatype Begun = Reuse(handle: Handle) | SendOffer(id: ConnectionId, offer: Offer)

  /** connect, first block: reuse a READY peer or find the peer to offer. */
  function BeginConnect(n: Node, endpoint: Endpoint, env: Env): Outcome<Begun>
    requires WellKeyed(n)
  {
    if endpoint == 0 || endpoint == n.endpoint then Outcome(n, Raised(InvalidArgument))
    else if n.closed then Outcome(n, Raised(EngineClosed))
    else
      var found := FindOrCreate(n, endpoint, env);
      match found.result
      case Raised(e) => Outcome(found.node, Raised(e))
      case Ok(id) =>
        var n' := found.node;
        if n'.heap[id].state == READY then Outcome(n', Ok(Reuse(n'.heap[id].handle)))
        else Outcome(n', Ok(SendOffer(id, OfferOf(n', id))))
  }

  /** connect, second block: connect the local QP with the answered offer. */
  function LinkConnect(n: Node, id: ConnectionId, answer: Offer, env: Env): Outcome<Update>
    requires id in n.heap
  {
    if !Live(n, id) then Outcome(n, Raised(PeerDisconnected))
    else
      var linked := ConnectNative(n, id, answer, env);
      match linked.result
      case Raised(e) => Outcome(linked.node, Raised(e))
      case Ok(_) => Outcome(linked.node, Ok(Update(ConnectionOf(n, id), SnapshotOf(n))))
  }

  /** connect, third block: import the answered snapshot and become READY. */
  function FinishConnect(n: Node, id: ConnectionId, answer: Snapshot, env: Env): Outcome<Handle>
    requires id in n.heap
  {
    if !Live(n, id) then Outcome(n, Raised(PeerDisconnected))
    else
      var imported := ImportSnapshot(n, id, answer, env);
      match imported.result
      case Raised(e) => Outcome(imported.node, Raised(e))
      case Ok(_) => Outcome(MarkReady(imported.node, id), Ok(n.heap[id].handle))
  }

  function BeginPublish(n: Node, metadata: Blob): Outcome<Snapshot> {
    if n.closed then Outcome(n, Raised(EngineClosed))
    else
      var n' := n.(metadata := n.metadata + [metadata], log := n.log + [metadata]);
      Outcome(n', Ok(SnapshotOf(n')))
  }

  /** The peers publish() captures: live and READY. */
  predicate IsTarget(n: Node, c: Connection) {
    c.endpoint in n.peers && n.peers[c.endpoint] == c.id && c.id in n.heap && n.heap[c.id].state == READY
  }

  /** `targets` lists exactly those peers, each once, in some dictionary order. */
  ghost predicate Captures(n: Node, targets: seq<Connection>) {
    && (forall i, j :: 0 <= i < j < |targets| ==> targets[i] != targets[j])
    && (forall c :: c in targets <==> IsTarget(n, c))
  }

  ghost predicate HasHandle(n: Node, e: Endpoint, handle: Handle)
    requires WellKeyed(n)
  {
    e in n.peers && n.heap[n.peers[e]].handle == handle
  }

  function DisconnectAt(n: Node, e: Endpoint, env: Env): Outcome<Connection>
    requires WellKeyed(n) && e in n.peers
  {
    var destroyed := DestroyPeer(n, n.peers[e], env);
    match destroyed.result
    case Raised(error) => Outcome(destroyed.node, Raised(error))
    case Ok(_) => Outcome(destroyed.node, Ok(Connection(e, n.peers[e])))
  }

  /** disconnect: the peer record is dropped before the remote side is asked to. */
  ghost function BeginDisconnect(n: Node, handle: Handle, env: Env): Outcome<Connection>
    requires WellKeyed(n)
  {
    if n.closed then Outcome(n, Raised(EngineClosed))
    else if !exists e :: HasHandle(n, e, handle) then Outcome(n, Raised(UnknownPeer))
    else
      var e :| HasHandle(n, e, handle);
      DisconnectAt(n, e, env)
  }

  function BeginClose(n: Node): Node {
    n.(closed := true)
  }

  /** The rest of Engine.close(): drop the records, then close the native engine. */
  function FinishClose(n: Node, ok: bool): Node {
    n.(peers := map[], metadata := [],
       native := if n.native.closed then n.native else n.native.Close(ok))
  }

  // ----- Handlers --------------------------------------------------------------------------

  function HandleConnect(n: Node, offer: Offer, env: Env): Outcome<Offer>
    requires WellKeyed(n)
  {
    var endpoint := offer.connection.endpoint;
    if endpoint == 0 || endpoint == n.endpoint then Outcome(n, Raised(InvalidArgument))
    else if n.closed then Outcome(n, Raised(EngineClosed))
    else
      var found := FindOrCreate(n, endpoint, env);
      match found.result
      case Raised(e) => Outcome(found.node, Raised(e))
      case Ok(id) =>
        var linked := ConnectNative(found.node, id, offer, env);
        match linked.result
        case Raised(e) => Outcome(linked.node, Raised(e))
        case Ok(_) => Outcome(linked.node, Ok(OfferOf(linked.node, id)))
  }

  function HandleReady(n: Node, update: Update, env: Env): Outcome<Snapshot>
    requires WellKeyed(n)
  {
    if n.closed then Outcome(n, Raised(EngineClosed))
    else
      match FindConnection(n, update.connection)
      case Raised(e) => Outcome(n, Raised(e))
      case Ok(id) =>
        var imported := ImportSnapshot(n, id, update.snapshot, env);
        match imported.result
        case Raised(e) => Outcome(imported.node, Raised(e))
        case Ok(_) => Outcome(MarkReady(imported.node, id), Ok(SnapshotOf(n)))
  }

  function HandleChanged(n: Node, update: Update, env: Env): Outcome<()>
    requires WellKeyed(n)
  {
    if n.closed then Outcome(n, Raised(EngineClosed))
    else
      match FindConnection(n, update.connection)
      case Raised(e) => Outcome(n, Raised(e))
      case Ok(id) => ImportSnapshot(n, id, update.snapshot, env)
  }

  function HandleClose(n: Node, c: Connection, env: Env): Outcome<()>
    requires WellKeyed(n)
  {
    if n.closed then Outcome(n, Raised(EngineClosed))
    else if c.endpoint in n.peers && n.heap[n.peers[c.endpoint]].remoteId == c.id then
      DestroyPeer(n, n.peers[c.endpoint], env)
    else Outcome(n, Ok(()))
  }
}
