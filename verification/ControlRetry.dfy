/** Native connect on one handle, on the hostile network. transfer_engine.h has a peer destroyed once its
    connect failed; the control plane leaves the record CREATED instead, and the next offer connects the
    same handle again. When that happens, exactly. */
module ControlRetry {
  import opened Control
  import opened ControlNode
  import opened ControlSystem
  import opened ControlSafety
  import opened ControlSafetySteps
  import opened ControlTheorems

  /** How often native connect was called for a peer, created or not yet. */
  function ConnectsOf(n: Node, id: ConnectionId): nat {
    if id in n.heap && n.heap[id].handle in n.native.qps then n.native.qps[n.heap[id].handle].connects else 0
  }

  function PhaseOf(n: Node, id: ConnectionId): Phase {
    if id in n.heap && n.heap[id].handle in n.native.qps then n.native.qps[n.heap[id].handle].phase else Initial
  }

  predicate Unlinked(n: Node, id: ConnectionId) {
    id in n.heap ==> n.heap[id].state == CREATED
  }

  /** No native connect for this peer; its handle may have been destroyed. */
  predicate Still(n: Node, n': Node, id: ConnectionId) {
    && ConnectsOf(n', id) == ConnectsOf(n, id)
    && (PhaseOf(n', id) == PhaseOf(n, id) || PhaseOf(n', id) == Destroyed)
  }

  predicate Tried(n: Node, n': Node, id: ConnectionId, ok: bool) {
    ConnectsOf(n', id) == ConnectsOf(n, id) + 1 && PhaseOf(n', id) == if ok then Joined else Faulted
  }

  // ----- One block -------------------------------------------------------------------------

  lemma CreateStill(n: Node, endpoint: Endpoint, env: Env, id: ConnectionId)
    requires NodeInv(n) && Fresh(n, env)
    ensures Still(n, CreatePeer(n, endpoint, env).node, id)
  {
    assert id in n.heap ==> PeerOk(n, id);
  }

  lemma FindStill(n: Node, endpoint: Endpoint, env: Env, id: ConnectionId)
    requires NodeInv(n) && Fresh(n, env)
    ensures Still(n, FindOrCreate(n, endpoint, env).node, id)
  {
    hide NodeInv, Still, CreatePeer;
    CreateStill(n, endpoint, env, id);
    assert Still(n, n, id) by { SameStill(n, n, id); }
  }

  lemma SameStill(n: Node, n': Node, id: ConnectionId)
    requires n'.native.qps == n.native.qps && n'.heap == n.heap
    ensures Still(n, n', id)
  {
  }

  lemma StillThenTried(a: Node, b: Node, c: Node, id: ConnectionId, ok: bool)
    requires Still(a, b, id) && Tried(b, c, id, ok)
    ensures Tried(a, c, id, ok)
  {
  }

  lemma StillThenStill(a: Node, b: Node, c: Node, id: ConnectionId)
    requires Still(a, b, id) && Still(b, c, id)
    ensures Still(a, c, id)
  {
  }

  /** The identity check of _connect_native. */
  predicate Acceptable(offer: Offer, endpoint: Endpoint) {
    offer.connection.endpoint == endpoint && offer.connection.id != 0
  }

  lemma ConnectTries(n: Node, id: ConnectionId, offer: Offer, env: Env)
    requires NodeInv(n) && Live(n, id)
    ensures var n' := ConnectNative(n, id, offer, env).node;
            if Acceptable(offer, n.heap[id].endpoint) && Unlinked(n, id) then Tried(n, n', id, env.connectOk) else Still(n, n', id)
  {
    assert PeerOk(n, id);
  }

  lemma ConnectLeavesOthers(n: Node, id: ConnectionId, offer: Offer, env: Env, other: ConnectionId)
    requires NodeInv(n) && Live(n, id) && other != id
    ensures Still(n, ConnectNative(n, id, offer, env).node, other)
  {
    assert PeerOk(n, id);
    assert other in n.heap ==> n.heap[other].handle != n.heap[id].handle;
  }

  lemma ImportStill(n: Node, id: ConnectionId, snapshot: Snapshot, env: Env, other: ConnectionId)
    requires NodeInv(n) && Live(n, id) && n.heap[id].state != CREATED
    ensures Still(n, ImportSnapshot(n, id, snapshot, env).node, other)
  {
    assert PeerOk(n, id);
    hide PeerOk, NodeInv, ImportCount, Registered, Live;
    assert n.native.Usable(n.heap[id].handle, Joined) by { LiveIsJoined(n, id); }
  }

  lemma LiveIsJoined(n: Node, id: ConnectionId)
    requires NodeInv(n) && Live(n, id) && n.heap[id].state != CREATED
    ensures n.native.Usable(n.heap[id].handle, Joined)
  {
    assert PeerOk(n, id);
  }

  lemma ReadyStill(n: Node, id: ConnectionId, other: ConnectionId)
    requires id in n.heap
    ensures Still(n, MarkReady(n, id), other)
  {
  }

  /** Importing and becoming READY. */
  lemma UpdateStill(n: Node, id: ConnectionId, snapshot: Snapshot, env: Env, other: ConnectionId)
    requires NodeInv(n) && Live(n, id) && n.heap[id].state != CREATED
    ensures var imported := ImportSnapshot(n, id, snapshot, env).node;
            id in imported.heap && Still(n, imported, other) && Still(n, MarkReady(imported, id), other)
  {
    ImportStill(n, id, snapshot, env, other);
    var imported := ImportSnapshot(n, id, snapshot, env).node;
    assert id in imported.heap;
    ReadyStill(imported, id, other);
    hide Still, ImportSnapshot, MarkReady;
    StillThenStill(n, imported, MarkReady(imported, id), other);
  }

  lemma DestroyStill(n: Node, id: ConnectionId, env: Env, other: ConnectionId)
    requires NodeInv(n) && Live(n, id)
    ensures Still(n, DestroyPeer(n, id, env).node, other)
  {
    assert PeerOk(n, id);
  }

  lemma DisconnectStill(n: Node, handle: Handle, env: Env, id: ConnectionId)
    requires NodeInv(n)
    ensures Still(n, BeginDisconnect(n, handle, env).node, id)
  {
    hide Still;
    SameStill(n, n, id);
    if !n.closed && exists e :: HasHandle(n, e, handle) {
      var e :| HasHandle(n, e, handle) && BeginDisconnect(n, handle, env).node == DestroyPeer(n, n.peers[e], env).node;
      DestroyStill(n, n.peers[e], env, id);
    }
  }

  // ----- One step --------------------------------------------------------------------------

  /** The step brings an offer with an acceptable identity to the live peer `id` of `e`, which a Connect
      from an endpoint that has no peer creates first. */
  predicate Presents(s: System, step: Step, e: Endpoint, id: ConnectionId) {
    && e in s.engines && Actor(step) == e
    && var n := s.engines[e].node;
    match step
    case Deliver(q, env) =>
      && q.body.ConnectCall? && !n.closed
      && var c := q.body.offer.connection;
      && c.endpoint != 0 && c.endpoint != n.endpoint && c.id != 0
      && (if c.endpoint in n.peers then n.peers[c.endpoint] == id else env.createOk && env.id == id)
    case Return(_, reply, _) =>
      && reply.answer.Offered? && s.engines[e].op.Connecting? && s.engines[e].op.id == id
      && Live(n, id) && Acceptable(reply.answer.offer, n.heap[id].endpoint)
    case _ => false
  }

  predicate ConnectOk(step: Step) {
    (step.Deliver? || step.Return?) && step.env.connectOk
  }

  /** What a step does to the native connects of one peer: one call when it presents an offer to an
      unlinked peer, otherwise none. */
  ghost predicate Tracks(s: System, step: Step, e: Endpoint, id: ConnectionId, n: Node, n': Node) {
    if Presents(s, step, e, id) && Unlinked(n, id) then Tried(n, n', id, ConnectOk(step)) else Still(n, n', id)
  }

  /** What the Connect handler finds. */
  lemma FoundState(n: Node, endpoint: Endpoint, env: Env)
    requires NodeInv(n) && !n.closed && Fresh(n, env) && endpoint != 0 && endpoint != n.endpoint
    ensures var found := FindOrCreate(n, endpoint, env);
            && (found.result.Ok? <==> endpoint in n.peers || env.createOk)
            && (found.result.Ok? ==>
                  var id := found.result.value;
                  && id == (if endpoint in n.peers then n.peers[endpoint] else env.id)
                  && id in found.node.heap && found.node.heap[id].endpoint == endpoint
                  && (Unlinked(found.node, id) <==> Unlinked(n, id)))
  {
  }

  lemma HandlerTracks(s: System, q: Request, env: Env, id: ConnectionId)
    requires q.to in s.engines && NodeInv(s.engines[q.to].node) && Fresh(s.engines[q.to].node, env) && q.body.ConnectCall?
    ensures var n := s.engines[q.to].node;
            WellKeyed(n) && Tracks(s, Deliver(q, env), q.to, id, n, HandleConnect(n, q.body.offer, env).node)
  {
    var n, offer := s.engines[q.to].node, q.body.offer;
    var endpoint := offer.connection.endpoint;
    assert WellKeyed(n);
    SameStill(n, n, id);
    if endpoint != 0 && endpoint != n.endpoint && !n.closed {
      var found := FindOrCreate(n, endpoint, env);
      FindOrCreateKeeps(n, endpoint, env);
      FindStill(n, endpoint, env, id);
      FoundState(n, endpoint, env);
      hide NodeInv, Still, Tried, FindOrCreate, ConnectNative, Unlinked, Grows;
      if found.result.Ok? {
        var at := found.result.value;
        var n' := ConnectNative(found.node, at, offer, env).node;
        assert HandleConnect(n, offer, env).node == n';
        if id == at {
          ConnectTries(found.node, at, offer, env);
        } else {
          ConnectLeavesOthers(found.node, at, offer, env, id);
        }
        if Still(found.node, n', id) {
          StillThenStill(n, found.node, n', id);
        } else {
          StillThenTried(n, found.node, n', id, env.connectOk);
        }
      }
    }
  }

  lemma UpdatedLive(n: Node, c: Connection)
    requires NodeInv(n) && FindConnection(n, c).Ok?
    ensures Live(n, FindConnection(n, c).value) && n.heap[FindConnection(n, c).value].state != CREATED
  {
    assert PeerOk(n, FindConnection(n, c).value);
  }

  lemma UpdatesStill(n: Node, update: Update, env: Env, id: ConnectionId)
    requires NodeInv(n)
    ensures WellKeyed(n)
    ensures Still(n, HandleReady(n, update, env).node, id) && Still(n, HandleChanged(n, update, env).node, id)
  {
    SameStill(n, n, id);
    assert WellKeyed(n);
    if FindConnection(n, update.connection).Ok? {
      UpdatedLive(n, update.connection);
      hide NodeInv, Still, ImportSnapshot;
      UpdateStill(n, FindConnection(n, update.connection).value, update.snapshot, env, id);
    }
  }

  lemma CloseStill(n: Node, c: Connection, env: Env, id: ConnectionId)
    requires NodeInv(n)
    ensures WellKeyed(n) && Still(n, HandleClose(n, c, env).node, id)
  {
    SameStill(n, n, id);
    if c.endpoint in n.peers {
      hide Still, DestroyPeer;
      DestroyStill(n, n.peers[c.endpoint], env, id);
    }
  }

  lemma DeliverTracks(s: System, q: Request, env: Env, id: ConnectionId)
    requires SafetyInv(s) && Enabled(s, Deliver(q, env)) && Lookups(s)
    ensures Tracks(s, Deliver(q, env), q.to, id, s.engines[q.to].node, OnDeliver(s.engines[q.to], q, env).engine.node)
  {
    EngineFacts(s, q.to);
    hide SafetyInv, NodeInv, Still, Tried, Unlinked, HandleConnect, HandleReady, HandleChanged, HandleClose;
    var n := s.engines[q.to].node;
    match q.body
    case ConnectCall(_) => HandlerTracks(s, q, env, id);
    case ReadyCall(update) => UpdatesStill(n, update, env, id);
    case ChangedCall(update) => UpdatesStill(n, update, env, id);
    case CloseCall(c) => CloseStill(n, c, env, id);
  }

  /** The one block that runs when a reply arrives. */
  lemma NodeAfterReturn(g: Engine, answer: Answer, env: Env)
    requires g.op.Connecting? || g.op.Readying? ==> g.op.id in g.node.heap
    ensures OnReturn(g, answer, env).engine.node ==
            if answer.Offered? && g.op.Connecting? then LinkConnect(g.node, g.op.id, answer.offer, env).node
            else if answer.Shared? && g.op.Readying? then FinishConnect(g.node, g.op.id, answer.snapshot, env).node
            else g.node
  {
    hide LinkConnect, FinishConnect;
  }

  lemma LinkTracks(n: Node, id: ConnectionId, answer: Offer, env: Env, other: ConnectionId)
    requires NodeInv(n) && id in n.heap
    ensures var n' := LinkConnect(n, id, answer, env).node;
            if other == id && Live(n, id) && Acceptable(answer, n.heap[id].endpoint) && Unlinked(n, id)
            then Tried(n, n', other, env.connectOk) else Still(n, n', other)
  {
    SameStill(n, n, other);
    if Live(n, id) {
      hide NodeInv, Still, Tried, ConnectNative, Acceptable;
      if other == id {
        ConnectTries(n, id, answer, env);
      } else {
        ConnectLeavesOthers(n, id, answer, env, other);
      }
    }
  }

  lemma FinishStill(n: Node, id: ConnectionId, answer: Snapshot, env: Env, other: ConnectionId)
    requires NodeInv(n) && id in n.heap && n.heap[id].state != CREATED
    ensures Still(n, FinishConnect(n, id, answer, env).node, other)
  {
    SameStill(n, n, other);
    if Live(n, id) {
      hide NodeInv, Still, ImportSnapshot;
      UpdateStill(n, id, answer, env, other);
    }
  }

  lemma ReturnTracks(s: System, e: Endpoint, reply: Reply, env: Env, id: ConnectionId)
    requires SafetyInv(s) && Enabled(s, Return(e, reply, env)) && Lookups(s)
    ensures Tracks(s, Return(e, reply, env), e, id, s.engines[e].node, OnReturn(s.engines[e], reply.answer, env).engine.node)
  {
    EngineFacts(s, e);
    var g := s.engines[e];
    NodeAfterReturn(g, reply.answer, env);
    if g.op.Readying? {
      HandshakeFacts(s, e);
    }
    hide SafetyInv, NodeInv, Still, Tried, LinkConnect, FinishConnect, OnReturn, Unlinked, Live, Acceptable, Mutual;
    SameStill(g.node, g.node, id);
    if reply.answer.Offered? && g.op.Connecting? {
      LinkTracks(g.node, g.op.id, reply.answer.offer, env, id);
    } else if reply.answer.Shared? && g.op.Readying? {
      FinishStill(g.node, g.op.id, reply.answer.snapshot, env, id);
    }
  }

  /** The one block of a step that starts or ends an operation of this engine by itself. */
  lemma NodeAfterOwn(s: System, step: Step)
    requires Enabled(s, step) && Lookups(s) && !step.Deliver? && !step.Return?
    ensures var n, n' := s.engines[Actor(step)].node, Apply(s, step).engines[Actor(step)].node;
            match step
            case StartConnect(_, target, env) => n' == BeginConnect(n, target, env).node
            case StartPublish(_, metadata, _) => n' == BeginPublish(n, metadata).node
            case StartDisconnect(_, handle, env) => n' == BeginDisconnect(n, handle, env).node
            case StartClose(_) => n' == BeginClose(n)
            case EndClose(_, ok) => n' == FinishClose(n, ok)
            case _ => n' == n
  {
    hide BeginConnect, BeginPublish, BeginDisconnect, FinishClose, BeginClose;
  }

  /** The blocks that make no native call but close. */
  lemma OthersStill(n: Node, metadata: Blob, ok: bool, id: ConnectionId)
    ensures Still(n, n, id) && Still(n, BeginPublish(n, metadata).node, id)
    ensures Still(n, BeginClose(n), id) && Still(n, FinishClose(n, ok), id)
  {
  }

  lemma BeginStill(n: Node, target: Endpoint, env: Env, id: ConnectionId)
    requires NodeInv(n) && Fresh(n, env)
    ensures WellKeyed(n) && Still(n, BeginConnect(n, target, env).node, id)
  {
    SameStill(n, n, id);
    FindStill(n, target, env, id);
    hide Still, FindOrCreate;
  }

  lemma OwnTracks(s: System, step: Step, id: ConnectionId)
    requires SafetyInv(s) && Enabled(s, step) && Lookups(s) && !step.Deliver? && !step.Return?
    ensures Still(s.engines[Actor(step)].node, Apply(s, step).engines[Actor(step)].node, id)
  {
    EngineFacts(s, Actor(step));
    NodeAfterOwn(s, step);
    hide SafetyInv, Still, NodeInv, Apply, BeginConnect, BeginDisconnect, BeginPublish, BeginClose, FinishClose, Lookups;
    var n := s.engines[Actor(step)].node;
    if step.StartConnect? {
      BeginStill(n, step.target, step.env, id);
    } else if step.StartDisconnect? {
      DisconnectStill(n, step.handle, step.env, id);
    } else if step.StartPublish? {
      OthersStill(n, step.metadata, true, id);
    } else {
      OthersStill(n, 0, step.EndClose? && step.ok, id);
    }
  }

  lemma StepTracks(s: System, step: Step, e: Endpoint, id: ConnectionId)
    requires SafetyInv(s) && Enabled(s, step) && Lookups(s) && e in s.engines
    ensures Tracks(s, step, e, id, s.engines[e].node, Apply(s, step).engines[e].node)
  {
    hide SafetyInv, Still, Tried, OnDeliver, OnReturn, Unlinked, Lookups;
    if Actor(step) == e {
      match step
      case Deliver(q, env) => DeliverTracks(s, q, env, id);
      case Return(_, reply, env) => ReturnTracks(s, e, reply, env, id);
      case _ => OwnTracks(s, step, id);
    } else {
      SameStill(s.engines[e].node, s.engines[e].node, id);
    }
  }

  // ----- Whole runs ------------------------------------------------------------------------

  /** Native connect was called on the peer's handle by this step and failed. */
  ghost predicate Fails(s: System, step: Step, e: Endpoint, id: ConnectionId) {
    Presents(s, step, e, id) && Unlinked(s.engines[e].node, id) && !ConnectOk(step)
  }

  ghost predicate FailedBefore(states: seq<System>, steps: seq<Step>, i: nat, e: Endpoint, id: ConnectionId)
    requires i <= |steps| && |states| == |steps| + 1
  {
    exists j :: 0 <= j < i && Fails(states[j], steps[j], e, id)
  }

  /** After a failed native connect another offer reached the peer, still live. */
  ghost predicate PresentedAgain(states: seq<System>, steps: seq<Step>, i: nat, e: Endpoint, id: ConnectionId)
    requires i <= |steps| && |states| == |steps| + 1
  {
    exists k :: 0 <= k < i && FailedBefore(states, steps, k, e, id) && Presents(states[k], steps[k], e, id)
  }

  /** What a record says about its handle, and when a step can connect it. */
  lemma PhaseFacts(s: System, step: Step, e: Endpoint, id: ConnectionId)
    requires SafetyInv(s) && Enabled(s, step) && e in s.engines
    ensures var n := s.engines[e].node;
            && (PhaseOf(n, id) == Initial ==> ConnectsOf(n, id) == 0)
            && (PhaseOf(n, id) == Faulted ==> Unlinked(n, id))
            && (Presents(s, step, e, id) ==> PhaseOf(n, id) != Destroyed)
            && (Presents(s, step, e, id) && Unlinked(n, id) ==> PhaseOf(n, id) != Joined)
  {
    EngineFacts(s, e);
    hide SafetyInv;
    var n := s.engines[e].node;
    if id in n.heap {
      assert PeerOk(n, id);
      assert Presents(s, step, e, id) ==> Live(n, id);
    }
  }

  lemma RunTracks(states: seq<System>, steps: seq<Step>, i: nat, e: Endpoint, id: ConnectionId)
    requires Run(states, steps) && i < |steps| && e in states[i].engines
    ensures |states| == |steps| + 1 && e in states[i + 1].engines
    ensures Tracks(states[i], steps[i], e, id, states[i].engines[e].node, states[i + 1].engines[e].node)
    ensures var s, n, reached := states[i], states[i].engines[e].node, Presents(states[i], steps[i], e, id);
            && (PhaseOf(n, id) == Initial ==> ConnectsOf(n, id) == 0)
            && (PhaseOf(n, id) == Faulted ==> Unlinked(n, id))
            && (reached ==> PhaseOf(n, id) != Destroyed)
            && (reached && Unlinked(n, id) ==> PhaseOf(n, id) != Joined)
  {
    hide Run, SafetyInv, SystemGrows, Enabled, Lookups, Apply, Tracks, Presents, PhaseOf, ConnectsOf, Unlinked;
    RunShape(states, steps);
    RunStep(states, steps, i);
    PhaseFacts(states[i], steps[i], e, id);
    StepTracks(states[i], steps[i], e, id);
  }

  /** In every run: once native connect was called on a handle, it is called again by exactly the steps that
      bring an offer to its live peer after the last call failed. */
  lemma ConnectedAgain(states: seq<System>, steps: seq<Step>, i: nat, e: Endpoint, id: ConnectionId)
    requires Run(states, steps) && i < |steps| && e in states[i].engines
    requires ConnectsOf(states[i].engines[e].node, id) > 0
    ensures e in states[i + 1].engines
    ensures var before, after := ConnectsOf(states[i].engines[e].node, id), ConnectsOf(states[i + 1].engines[e].node, id);
            && before <= after <= before + 1
            && (after == before + 1 <==> Presents(states[i], steps[i], e, id) && PhaseOf(states[i].engines[e].node, id) == Faulted)
  {
    hide Run, Presents, PhaseOf, ConnectsOf, Unlinked;
    RunTracks(states, steps, i, e, id);
  }

  /** The four facts about one peer that every run keeps. */
  ghost predicate Counted(states: seq<System>, steps: seq<Step>, i: nat, e: Endpoint, id: ConnectionId)
    requires i <= |steps| && |states| == |steps| + 1 && e in states[i].engines
  {
    var n := states[i].engines[e].node;
    && (PhaseOf(n, id) == Faulted ==> FailedBefore(states, steps, i, e, id))
    && (FailedBefore(states, steps, i, e, id) ==> ConnectsOf(n, id) > 0)
    && (FailedBefore(states, steps, i, e, id) && ConnectsOf(n, id) == 1 ==> PhaseOf(n, id) == Faulted || PhaseOf(n, id) == Destroyed)
    && (ConnectsOf(n, id) >= 2 <==> PresentedAgain(states, steps, i, e, id))
  }

  lemma FailedLater(states: seq<System>, steps: seq<Step>, i: nat, e: Endpoint, id: ConnectionId)
    requires i < |steps| && |states| == |steps| + 1
    ensures FailedBefore(states, steps, i + 1, e, id) <==> FailedBefore(states, steps, i, e, id) || Fails(states[i], steps[i], e, id)
    ensures PresentedAgain(states, steps, i + 1, e, id) <==>
            PresentedAgain(states, steps, i, e, id) || (FailedBefore(states, steps, i, e, id) && Presents(states[i], steps[i], e, id))
  {
    hide Presents, Fails;
    if FailedBefore(states, steps, i + 1, e, id) {
      var j :| 0 <= j < i + 1 && Fails(states[j], steps[j], e, id);
      assert j < i ==> FailedBefore(states, steps, i, e, id);
    }
    if PresentedAgain(states, steps, i + 1, e, id) {
      var k :| 0 <= k < i + 1 && FailedBefore(states, steps, k, e, id) && Presents(states[k], steps[k], e, id);
      assert k < i ==> PresentedAgain(states, steps, i, e, id);
    }
  }

  lemma CountedNext(states: seq<System>, steps: seq<Step>, i: nat, e: Endpoint, id: ConnectionId)
    requires Run(states, steps) && i < |steps| && |states| == |steps| + 1 && e in states[i].engines && e in states[i + 1].engines
    requires Counted(states, steps, i, e, id)
    ensures Counted(states, steps, i + 1, e, id)
  {
    hide Run, Presents, PhaseOf, ConnectsOf, Unlinked, FailedBefore, PresentedAgain, ConnectOk;
    RunTracks(states, steps, i, e, id);
    FailedLater(states, steps, i, e, id);
  }

  lemma NothingCounted(states: seq<System>, steps: seq<Step>, e: Endpoint, id: ConnectionId)
    requires Run(states, steps) && e in states[0].engines
    ensures |states| == |steps| + 1 && Counted(states, steps, 0, e, id)
  {
    hide Next;
  }

  lemma {:induction false} RunIsCounted(states: seq<System>, steps: seq<Step>, i: nat, e: Endpoint, id: ConnectionId)
    requires Run(states, steps) && i <= |steps| && e in states[i].engines
    ensures |states| == |steps| + 1 && Counted(states, steps, i, e, id)
  {
    hide Run, Counted, SafetyInv, Next, SystemGrows;
    RunShape(states, steps);
    if i == 0 {
      NothingCounted(states, steps, e, id);
    } else {
      RunStep(states, steps, i - 1);
      RunIsCounted(states, steps, i - 1, e, id);
      CountedNext(states, steps, i - 1, e, id);
    }
  }

  /** Over whole runs: native connect was called more than once on a handle exactly if, after a call that
      failed, another offer reached its peer while that was still live. */
  lemma ConnectedTwice(states: seq<System>, steps: seq<Step>, i: nat, e: Endpoint, id: ConnectionId)
    requires Run(states, steps) && i <= |steps| && e in states[i].engines
    ensures |states| == |steps| + 1
    ensures ConnectsOf(states[i].engines[e].node, id) >= 2 <==> PresentedAgain(states, steps, i, e, id)
  {
    hide Run, ConnectsOf, PresentedAgain;
    RunIsCounted(states, steps, i, e, id);
  }
}
