/** The main results, over whole runs. A run starts with idle engines that know no peer and takes any
    number of enabled steps in any order. */
module ControlTheorems {
  import opened Control
  import opened ControlNode
  import opened ControlSystem
  import opened ControlSafety
  import opened ControlSafetySteps
  import opened ControlReliable
  import opened ControlBackLink
  import opened ControlFaultFree
  import opened ControlReuse

  ghost predicate Next(s: System, step: Step, s': System) {
    Enabled(s, step) && Lookups(s) && s' == Apply(s, step)
  }

  /** Any run of the hostile network. */
  ghost predicate Run(states: seq<System>, steps: seq<Step>) {
    && |states| == |steps| + 1 && Starts(states[0])
    && forall i :: 0 <= i < |steps| ==> Next(states[i], steps[i], states[i + 1])
  }

  ghost predicate ReliableRun(states: seq<System>, steps: seq<Step>) {
    Run(states, steps) && forall i :: 0 <= i < |steps| ==> Reliable(states[i], steps[i])
  }

  ghost predicate FaultFreeRun(states: seq<System>, steps: seq<Step>) {
    && Run(states, steps) && 0 !in states[0].engines
    && forall i :: 0 <= i < |steps| ==> FaultFree(states[i], steps[i])
  }

  // ----- The invariants hold in every state ------------------------------------------------

  lemma {:induction false} RunIsSafe(states: seq<System>, steps: seq<Step>, i: nat)
    requires Run(states, steps) && i <= |steps|
    ensures SafetyInv(states[i])
  {
    hide Next, SafetyInv, Starts;
    if i == 0 {
      InitialSafety(states[0]);
    } else {
      RunIsSafe(states, steps, i - 1);
      NextIsSafe(states[i - 1], steps[i - 1], states[i]);
    }
  }

  lemma NextIsSafe(s: System, step: Step, s': System)
    requires SafetyInv(s) && Next(s, step, s')
    ensures SafetyInv(s') && SystemGrows(s, s')
  {
    hide SafetyInv, SystemGrows, Enabled, Apply, Lookups;
    StepKeepsSafety(s, step);
  }

  /** No enabled step is ruled out by the lookups a step needs. */
  lemma RunCanTakeAnyStep(states: seq<System>, steps: seq<Step>, step: Step)
    requires Run(states, steps) && Enabled(states[|steps|], step)
    ensures Lookups(states[|steps|])
    ensures Run(states + [Apply(states[|steps|], step)], steps + [step])
  {
    hide SafetyInv, Apply, Enabled, Lookups, Starts;
    RunIsSafe(states, steps, |steps|);
    SafetyLookups(states[|steps|]);
    var states', steps' := states + [Apply(states[|steps|], step)], steps + [step];
    forall i | 0 <= i < |steps'|
      ensures Next(states'[i], steps'[i], states'[i + 1])
    {
      if i < |steps| {
        assert Next(states[i], steps[i], states[i + 1]);
      }
    }
  }

  lemma SystemGrowsTransitive(a: System, b: System, c: System)
    requires SystemGrows(a, b) && SystemGrows(b, c)
    ensures SystemGrows(a, c)
  {
    forall e <- a.engines
      ensures Grows(a.engines[e].node, c.engines[e].node) && a.engines[e].calls <= c.engines[e].calls
    {
      GrowsTransitive(a.engines[e].node, b.engines[e].node, c.engines[e].node);
    }
  }

  /** What an induction over a run needs of one step. */
  lemma RunStep(states: seq<System>, steps: seq<Step>, i: nat)
    requires Run(states, steps) && i < |steps|
    ensures |states| == |steps| + 1
    ensures SafetyInv(states[i]) && Next(states[i], steps[i], states[i + 1])
    ensures states[i + 1].engines.Keys == states[i].engines.Keys && SystemGrows(states[i], states[i + 1])
  {
    RunIsSafe(states, steps, i);
    hide SafetyInv, SystemGrows, Enabled, Lookups, Apply;
    assert Next(states[i], steps[i], states[i + 1]);
    StepKeepsSafety(states[i], steps[i]);
    GrowsKeys(states[i], states[i + 1]);
  }

  lemma RunShape(states: seq<System>, steps: seq<Step>)
    requires Run(states, steps)
    ensures |states| == |steps| + 1
    ensures forall e <- states[0].engines :: states[0].engines[e].op == Idle
  {
    hide Enabled, Lookups, Apply;
  }

  lemma SystemGrowsReflexive(s: System)
    ensures SystemGrows(s, s)
  {
    forall e <- s.engines
      ensures Grows(s.engines[e].node, s.engines[e].node)
    {
      GrowsReflexive(s.engines[e].node);
    }
  }

  lemma {:induction false} RunGrows(states: seq<System>, steps: seq<Step>, i: nat, j: nat)
    requires Run(states, steps) && i <= j <= |steps|
    ensures SystemGrows(states[i], states[j])
    decreases j - i
  {
    hide Run, Next, SafetyInv, SystemGrows;
    RunShape(states, steps);
    if i == j {
      SystemGrowsReflexive(states[i]);
    } else {
      RunGrows(states, steps, i, j - 1);
      RunStep(states, steps, j - 1);
      SystemGrowsTransitive(states[i], states[j - 1], states[j]);
    }
  }

  lemma {:induction false} RunIsReliable(states: seq<System>, steps: seq<Step>, i: nat)
    requires ReliableRun(states, steps) && i <= |steps|
    ensures ReliableInv(states[i])
  {
    if i == 0 {
      InitialSafety(states[0]);
    } else {
      RunIsReliable(states, steps, i - 1);
      hide ReliableInv, Enabled, Apply, Lookups, Reliable;
      assert Next(states[i - 1], steps[i - 1], states[i]);
      StepKeepsReliable(states[i - 1], steps[i - 1]);
    }
  }

  lemma {:induction false} RunIsClean(states: seq<System>, steps: seq<Step>, i: nat)
    requires FaultFreeRun(states, steps) && i <= |steps|
    ensures CleanInv(states[i])
  {
    if i == 0 {
      InitialSafety(states[0]);
    } else {
      RunIsClean(states, steps, i - 1);
      hide CleanInv, Enabled, Apply, Lookups, FaultFree;
      assert Next(states[i - 1], steps[i - 1], states[i]);
      StepKeepsClean(states[i - 1], steps[i - 1]);
    }
  }

  // ----- Hostile network -------------------------------------------------------------------

  /** Every native call is in order: a handle is created, connected successfully at most once, imported into only
      while connected, destroyed at most once and then left alone, and nothing follows close. */
  lemma NativeTypestate(states: seq<System>, steps: seq<Step>, i: nat, j: nat, e: Endpoint)
    requires Run(states, steps) && i <= j <= |steps| && e in states[i].engines
    ensures e in states[j].engines
    ensures var before, after := states[i].engines[e].node.native, states[j].engines[e].node.native;
            && !after.misused
            && (forall h <- before.qps :: h in after.qps && QpGrows(before.qps[h], after.qps[h]))
            && (before.closed ==> after == before)
  {
    RunIsSafe(states, steps, j);
    RunGrows(states, steps, i, j);
    hide SafetyInv;
    EngineFacts(states[j], e);
  }

  /** remote_version never decreases, and the imports of a linked peer are always exactly some prefix of
      its counterpart's log, at least that long; unless an import raised, exactly that long. */
  lemma ImportsAreLogPrefixes(states: seq<System>, steps: seq<Step>, i: nat, j: nat, e: Endpoint, id: ConnectionId)
    requires Run(states, steps) && i <= j <= |steps|
    requires e in states[i].engines && id in states[i].engines[e].node.heap
    ensures e in states[j].engines && id in states[j].engines[e].node.heap
    ensures states[i].engines[e].node.heap[id].remoteVersion <= states[j].engines[e].node.heap[id].remoteVersion
    ensures var n := states[j].engines[e].node; var p := n.heap[id];
            p.handle in n.native.qps &&
            (p.remoteId != 0 ==>
               && p.endpoint in states[j].engines
               && var log, qp := states[j].engines[p.endpoint].node.log, n.native.qps[p.handle];
               && p.remoteVersion <= |log|
               && (exists k :: ImportedPrefix(log, p, qp, k))
               && Registered(log, if p.remoteVersion < 0 then 0 else p.remoteVersion) <= qp.imports
               && (!qp.interrupted ==> qp.imports == Registered(log, if p.remoteVersion < 0 then 0 else p.remoteVersion)))
  {
    RunIsSafe(states, steps, j);
    RunGrows(states, steps, i, j);
    hide SafetyInv;
    EngineFacts(states[j], e);
    assert PeerOk(states[j].engines[e].node, id);
    LinkFacts(states[j], e, id);
  }

  /** Why a peer record can go away: its own engine disconnects or closes, or a Close arrives from a
      counterpart that its owner has destroyed already. */
  ghost predicate RightfulEnd(s: System, step: Step, e: Endpoint, id: ConnectionId)
    requires e in s.engines && id in s.engines[e].node.heap
  {
    var p := s.engines[e].node.heap[id];
    || (step.StartDisconnect? && step.handle == p.handle)
    || step.EndClose?
    || (step.Deliver? && step.request.body.CloseCall?
        && p.remoteId != 0 && step.request.body.connection == Connection(p.endpoint, p.remoteId)
        && Names(s, p.endpoint, e, p.remoteId)
        && !Live(s.engines[p.endpoint].node, p.remoteId))
  }

  lemma NoPrematureTeardown(states: seq<System>, steps: seq<Step>, i: nat, e: Endpoint, id: ConnectionId)
    requires Run(states, steps) && i < |steps| && e in states[i].engines && e in states[i + 1].engines
    requires Live(states[i].engines[e].node, id) && !Live(states[i + 1].engines[e].node, id)
    ensures Actor(steps[i]) == e && RightfulEnd(states[i], steps[i], e, id)
  {
    RunIsSafe(states, steps, i);
    hide SafetyInv;
    assert Next(states[i], steps[i], states[i + 1]);
    EngineFacts(states[i], e);
    EndIsRightful(states[i], steps[i], e, id);
  }

  lemma EndIsRightful(s: System, step: Step, e: Endpoint, id: ConnectionId)
    requires SafetyInv(s) && Enabled(s, step) && Lookups(s) && e in s.engines
    requires Live(s.engines[e].node, id) && !Live(Apply(s, step).engines[e].node, id)
    ensures Actor(step) == e && RightfulEnd(s, step, e, id)
  {
    hide SafetyInv, NodeInv, BeginDisconnect, HandleConnect, HandleReady, HandleChanged, FindOrCreate, LinkConnect, FinishConnect;
    EngineFacts(s, e);
    var n := s.engines[e].node;
    match step
    case StartDisconnect(_, handle, env) => BeginDisconnectKeeps(n, handle, env);
    case Deliver(q, env) =>
      MessageFacts(s, q);
      DeliveryKeepsLive(n, q, env, id);
    case Return(_, reply, env) => ReturnKeepsLive(s, e, reply, env, id);
    case StartConnect(_, target, env) => FindAddsOnly(n, target, env);
    case _ =>
  }

  lemma ReturnKeepsLive(s: System, e: Endpoint, reply: Reply, env: Env, id: ConnectionId)
    requires Enabled(s, Return(e, reply, env)) && Lookups(s) && Live(s.engines[e].node, id)
    ensures Live(OnReturn(s.engines[e], reply.answer, env).engine.node, id)
  {
  }

  lemma DeliveryKeepsLive(n: Node, q: Request, env: Env, id: ConnectionId)
    requires WellKeyed(n) && Live(n, id) && Fresh(n, env)
    ensures q.body.ConnectCall? ==> Live(HandleConnect(n, q.body.offer, env).node, id)
    ensures q.body.ReadyCall? ==> Live(HandleReady(n, q.body.update, env).node, id)
    ensures q.body.ChangedCall? ==> Live(HandleChanged(n, q.body.update, env).node, id)
    ensures q.body.CloseCall? && !Live(HandleClose(n, q.body.connection, env).node, id) ==>
              n.heap[id].endpoint == q.body.connection.endpoint && n.heap[id].remoteId == q.body.connection.id
  {
    match q.body
    case ConnectCall(offer) => ConnectAddsOnly(n, offer, env);
    case ReadyCall(_) =>
    case ChangedCall(_) =>
    case CloseCall(_) =>
  }

  /** On its own, the Close handler would also destroy an unlinked peer when the id is empty:
      `_find_connection` rejects empty ids, Close compares them. No engine ever sends one. */
  lemma CloseMatches(n: Node, c: Connection, env: Env)
    requires NodeInv(n) && !n.closed && env.destroyOk && c.endpoint in n.peers
    ensures c.endpoint !in HandleClose(n, c, env).node.peers <==>
              || FindConnection(n, c) == Ok(n.peers[c.endpoint])
              || (c.id == 0 && n.heap[n.peers[c.endpoint]].state == CREATED)
  {
    assert PeerOk(n, n.peers[c.endpoint]);
  }

  // ----- publish, on the hostile network ---------------------------------------------------

  /** The publish in progress was started by an earlier step, which fixed its targets and snapshot. */
  ghost predicate StartedBy(states: seq<System>, steps: seq<Step>, j: nat, i: nat, e: Endpoint)
    requires j < |steps| && |states| == |steps| + 1 && i < |states| && e in states[i].engines
  {
    && j < i && steps[j].StartPublish? && steps[j].e == e && e in states[j].engines && e in states[j + 1].engines
    && var op := states[i].engines[e].op;
    && op.Publishing?
    && (forall c :: c in op.captured <==> IsTarget(states[j].engines[e].node, c))
    && op.snapshot == SnapshotOf(states[j + 1].engines[e].node)
    && op.snapshot.memories == states[j].engines[e].node.metadata + [steps[j].metadata]
  }

  /** One step either starts the publish or leaves its targets and snapshot alone. */
  lemma PublishOrigin(s: System, step: Step, e: Endpoint)
    requires SafetyInv(s) && Enabled(s, step) && Lookups(s) && e in s.engines
    requires var g' := Apply(s, step).engines[e]; g'.op.Publishing?
    ensures var g, g' := s.engines[e], Apply(s, step).engines[e];
            || (g.op.Publishing? && g'.op.captured == g.op.captured && g'.op.snapshot == g.op.snapshot)
            || (step.StartPublish? && step.e == e
                && (forall c :: c in g'.op.captured <==> IsTarget(g.node, c))
                && g'.op.snapshot == SnapshotOf(g'.node) && g'.op.snapshot.memories == g.node.metadata + [step.metadata])
  {
    hide SafetyInv, LinkConnect, FinishConnect, HandleConnect, HandleReady, HandleChanged, HandleClose, BeginConnect, BeginDisconnect;
  }

  lemma {:induction false} PublishWasStarted(states: seq<System>, steps: seq<Step>, i: nat, e: Endpoint) returns (j: nat)
    requires Run(states, steps) && i <= |steps| && e in states[i].engines && states[i].engines[e].op.Publishing?
    ensures j < |steps| && StartedBy(states, steps, j, i, e)
  {
    hide SafetyInv, SystemGrows, Enabled, Lookups, Apply, Run, IsTarget, SnapshotOf;
    RunShape(states, steps);
    j := 0;
    if i > 0 {
      RunStep(states, steps, i - 1);
      PublishOrigin(states[i - 1], steps[i - 1], e);
      var op, op' := states[i - 1].engines[e].op, states[i].engines[e].op;
      if op.Publishing? && op'.captured == op.captured && op'.snapshot == op.snapshot {
        j := PublishWasStarted(states, steps, i - 1, e);
      } else {
        j := i - 1;
      }
    }
  }

  /** An acknowledgement means the entry is imported: some peer linked to the publisher's holds it. */
  lemma AcknowledgedImport(s: System, at: Endpoint, owner: Endpoint, id: ConnectionId, version: nat)
    requires SafetyInv(s) && owner in s.engines && Acknowledged(s, at, owner, id, version)
    requires version <= |s.engines[owner].node.log|
    ensures Imported(s, at, owner, id, Registered(s.engines[owner].node.log, version))
  {
    hide SafetyInv;
    var n := s.engines[at].node;
    var a :| a in n.heap && AcknowledgedBy(n, a, owner, id, version);
    LinkFacts(s, at, a);
    assert ImportedBy(n, a, owner, id, Registered(s.engines[owner].node.log, version));
  }

  ghost predicate Imported(s: System, at: Endpoint, owner: Endpoint, id: ConnectionId, entries: set<Blob>) {
    at in s.engines && exists a :: ImportedBy(s.engines[at].node, a, owner, id, entries)
  }

  predicate ImportedBy(n: Node, a: ConnectionId, owner: Endpoint, id: ConnectionId, entries: set<Blob>) {
    && a in n.heap && n.heap[a].endpoint == owner && n.heap[a].remoteId == id
    && n.heap[a].handle in n.native.qps && entries <= n.native.qps[n.heap[a].handle].imports
  }

  /** When publish returns normally at step i, every peer that was READY when its entry was appended
      (at step j) has a counterpart that imported everything up to and including that entry. */
  lemma PublishReturns(states: seq<System>, steps: seq<Step>, i: nat, e: Endpoint) returns (j: nat)
    requires Run(states, steps) && i < |steps| && e in states[i].engines
    requires steps[i].Return? && steps[i].e == e && steps[i].reply.answer.Done?
    requires states[i].engines[e].op.Publishing? && states[i].engines[e].op.rest == []
    ensures j < i && StartedBy(states, steps, j, i, e)
    ensures var snapshot := SnapshotOf(states[j + 1].engines[e].node);
            && snapshot.memories == states[j].engines[e].node.metadata + [steps[j].metadata]
            && forall c :: IsTarget(states[j].engines[e].node, c) ==>
                 Imported(states[i], c.endpoint, e, c.id, Registered(snapshot.memories, snapshot.version))
  {
    var s := states[i];
    RunIsSafe(states, steps, i);
    j := PublishWasStarted(states, steps, i, e);
    hide SafetyInv, Acknowledged, Imported, Lookups, Apply, Starts;
    assert Next(s, steps[i], states[i + 1]);
    ReplyFacts(s, steps[i].reply);
    EngineFacts(s, e);
    var op := s.engines[e].op;
    forall c | IsTarget(states[j].engines[e].node, c)
      ensures Imported(s, c.endpoint, e, c.id, Registered(op.snapshot.memories, op.snapshot.version))
    {
      assert c in op.captured;
      assert Acknowledged(s, c.endpoint, e, c.id, op.snapshot.version);
      AcknowledgedImport(s, c.endpoint, e, c.id, op.snapshot.version);
      RegisteredPrefix(op.snapshot.memories, s.engines[e].node.log, op.snapshot.version);
    }
  }

  // ----- READY on the hostile network ------------------------------------------------------

  lemma {:induction false} RunIsBackLinked(states: seq<System>, steps: seq<Step>, i: nat)
    requires Run(states, steps) && i <= |steps|
    ensures |states| == |steps| + 1 && ReadyIsBackLinked(states[i])
  {
    hide Run, Next, SafetyInv, SystemGrows, ReadyIsBackLinked, Starts;
    RunShape(states, steps);
    if i == 0 {
      NobodyReady(states, steps);
    } else {
      RunIsBackLinked(states, steps, i - 1);
      RunStep(states, steps, i - 1);
      NextKeepsBackLinks(states[i - 1], steps[i - 1], states[i]);
    }
  }

  lemma NobodyReady(states: seq<System>, steps: seq<Step>)
    requires Run(states, steps)
    ensures ReadyIsBackLinked(states[0])
  {
    hide Next;
  }

  lemma NextKeepsBackLinks(s: System, step: Step, s': System)
    requires SafetyInv(s) && Next(s, step, s') && SystemGrows(s, s') && ReadyIsBackLinked(s)
    ensures ReadyIsBackLinked(s')
  {
    hide SafetyInv, Enabled, Lookups, Apply, SystemGrows, ReadyIsBackLinked;
    StepKeepsBackLinks(s, step);
  }

  /** When READY is mutual, in every run of the hostile network. Among the peers an engine ever had for
      the same counterpart, exactly one is mutual with it. So a READY peer is mutual if no other peer
      of its engine was linked to the same connection, which the engine can tell by itself, and
      otherwise exactly if none of those others is. */
  lemma ReadyIsMutualOnce(states: seq<System>, steps: seq<Step>, i: nat, e: Endpoint, p: ConnectionId)
    requires Run(states, steps) && i <= |steps| && e in states[i].engines
    requires p in states[i].engines[e].node.heap && states[i].engines[e].node.heap[p].state == READY
    ensures var n := states[i].engines[e].node;
            && (exists q :: SharesLink(n, p, q) && Mutual(states[i], e, q))
            && (forall q, r :: SharesLink(n, p, q) && SharesLink(n, p, r) && Mutual(states[i], e, q) && Mutual(states[i], e, r) ==> q == r)
            && ((forall q :: SharesLink(n, p, q) ==> q == p) ==> Mutual(states[i], e, p))
            && (Mutual(states[i], e, p) <==> forall q :: SharesLink(n, p, q) && q != p ==> !Mutual(states[i], e, q))
  {
    hide Run, SafetyInv, Mutual, BackLinked;
    RunShape(states, steps);
    RunIsSafe(states, steps, i);
    RunIsBackLinked(states, steps, i);
    var q := OneIsMutual(states[i], e, p);
    assert SharesLink(states[i].engines[e].node, p, p);
  }

  // ----- Reliable network ------------------------------------------------------------------

  /** READY means mutual: the peer and its counterpart name each other, and each QP was connected with
      exactly what the other side exported, whatever was disconnected or failed meanwhile. */
  lemma ReadyMeansMutual(states: seq<System>, steps: seq<Step>, i: nat, e: Endpoint, id: ConnectionId)
    requires ReliableRun(states, steps) && i <= |steps| && e in states[i].engines
    requires id in states[i].engines[e].node.heap && states[i].engines[e].node.heap[id].state == READY
    ensures Mutual(states[i], e, id)
    ensures var n := states[i].engines[e].node; var p := n.heap[id];
            var far := states[i].engines[p.endpoint].node; var q := far.heap[p.remoteId];
            && p.handle in n.native.qps && q.handle in far.native.qps
            && n.native.qps[p.handle].remote == q.metadata == far.native.qps[q.handle].exported
            && far.native.qps[q.handle].remote == p.metadata == n.native.qps[p.handle].exported
  {
    var s := states[i];
    RunIsReliable(states, steps, i);
    ReliableFacts(s, e);
    hide ReliableInv, SafetyInv;
    EngineFacts(s, e);
    LinkFacts(s, e, id);
    var p := s.engines[e].node.heap[id];
    EngineFacts(s, p.endpoint);
    LinkFacts(s, p.endpoint, p.remoteId);
    LinkNames(s, e, id);
    assert PeerOk(s.engines[e].node, id) && PeerOk(s.engines[p.endpoint].node, p.remoteId);
  }

  // ----- Fault-free, disconnect-free runs --------------------------------------------------

  lemma FaultFreeShape(states: seq<System>, steps: seq<Step>)
    requires FaultFreeRun(states, steps)
    ensures |states| == |steps| + 1
  {
    hide Next;
  }

  /** Nothing raises, and each engine creates at most one peer per endpoint. */
  lemma SimultaneousOpenConverges(states: seq<System>, steps: seq<Step>, i: nat, e: Endpoint)
    requires FaultFreeRun(states, steps) && i <= |steps| && e in states[i].engines
    ensures !states[i].engines[e].raised
    ensures forall r <- states[i].replies :: r.answer != Failed
    ensures forall a <- states[i].engines[e].node.heap, b <- states[i].engines[e].node.heap ::
              states[i].engines[e].node.heap[a].endpoint == states[i].engines[e].node.heap[b].endpoint ==> a == b
  {
    RunIsClean(states, steps, i);
    hide CleanInv;
    CleanFacts(states[i], e);
    hide Live;
    forall a <- states[i].engines[e].node.heap, b <- states[i].engines[e].node.heap
         | states[i].engines[e].node.heap[a].endpoint == states[i].engines[e].node.heap[b].endpoint
      ensures a == b
    {
      OnePeer(states[i], e, a, b);
    }
  }

  /** When connect returns from its handshake, both ends are READY and linked to each other. */
  lemma ConnectReturns(states: seq<System>, steps: seq<Step>, i: nat, e: Endpoint)
    requires FaultFreeRun(states, steps) && i < |steps| && e in states[i].engines
    requires steps[i].Return? && steps[i].e == e && states[i].engines[e].op.Readying?
    ensures e in states[i + 1].engines && states[i + 1].engines[e].op == Idle && !states[i + 1].engines[e].raised
    ensures var s', id := states[i + 1], states[i].engines[e].op.id;
            && Mutual(s', e, id) && s'.engines[e].node.heap[id].state == READY && Far(s', e, id).state == READY
  {
    var s, s', reply := states[i], states[i + 1], steps[i].reply;
    RunIsClean(states, steps, i);
    RunIsClean(states, steps, i + 1);
    hide CleanInv, SafetyInv, Lookups;
    assert Next(s, steps[i], s');
    assert FaultFree(s, steps[i]);
    CleanFacts(s, e);
    CleanFacts(s', e);
    DoneIsPublish(s, e, reply, steps[i].env);
    StepKeepsClean(s, steps[i]);
    FinishedIsReady(s, s', e, reply, steps[i].env);
  }

  lemma FinishedIsReady(s: System, s': System, e: Endpoint, reply: Reply, env: Env)
    requires CleanInv(s) && FaultFree(s, Return(e, reply, env)) && Lookups(s) && s.engines[e].op.Readying?
    requires s' == Apply(s, Return(e, reply, env)) && SystemGrows(s, s') && SafetyInv(s')
    ensures var id := s.engines[e].op.id;
            && s'.engines[e].op == Idle
            && Mutual(s', e, id) && s'.engines[e].node.heap[id].state == READY && Far(s', e, id).state == READY
  {
    hide CleanInv, SafetyInv, SystemGrows, ReliableInv, NodeInv, OpOk, Clean, PairsOk;
    DoneIsPublish(s, e, reply, env);
    SharedIsStep(s, e, reply, env, s');
    CleanFacts(s, e);
    OpFacts(s, e);
    assert Replied(s, s.engines[e].op.request);
    var id := s.engines[e].op.id;
    MutualStable(s, s', e, id);
    LinkNames(s, e, id);
    var p := s.engines[e].node.heap[id];
    assert s'.engines[p.endpoint] == s.engines[p.endpoint];
  }

  lemma NothingReused(s: System)
    requires Starts(s) && CleanInv(s)
    ensures ReuseInv(s)
  {
    hide CleanInv, Mutual;
  }

  lemma {:induction false} RunIsReused(states: seq<System>, steps: seq<Step>, i: nat)
    requires FaultFreeRun(states, steps) && i <= |steps|
    ensures |states| == |steps| + 1 && ReuseInv(states[i])
  {
    hide CleanInv, Enabled, Apply, Lookups, FaultFree, ReuseInv, Starts;
    if i == 0 {
      RunIsClean(states, steps, 0);
      NothingReused(states[0]);
    } else {
      RunIsReused(states, steps, i - 1);
      assert Next(states[i - 1], steps[i - 1], states[i]);
      StepKeepsReuse(states[i - 1], steps[i - 1]);
    }
  }

  /** When connect reuses a READY peer, the two ends are mutual. The other end is READY too, unless it is
      itself still waiting for a Ready reply already sent to it and no Ready call of this end was ever
      answered: exactly when this end was made READY by the handler alone. */
  lemma ReusedPeer(states: seq<System>, steps: seq<Step>, i: nat, e: Endpoint, target: Endpoint, env: Env)
    requires FaultFreeRun(states, steps) && i <= |steps| && Enabled(states[i], StartConnect(e, target, env))
    requires WellKeyed(states[i].engines[e].node)
    requires BeginConnect(states[i].engines[e].node, target, env).result.Ok?
    requires BeginConnect(states[i].engines[e].node, target, env).result.value.Reuse?
    ensures target in states[i].engines[e].node.peers
    ensures var id := states[i].engines[e].node.peers[target];
            && Mutual(states[i], e, id)
            && (Far(states[i], e, id).state != READY <==>
                  var op := states[i].engines[target].op;
                  && op.Readying? && op.id == states[i].engines[e].node.heap[id].remoteId && Replied(states[i], op.request)
                  && !ReadyAnswered(states[i], e, id))
  {
    hide FaultFreeRun, ReuseInv, Far, Mutual, Replied, ReadyAnswered;
    RunIsReused(states, steps, i);
    FarNotReady(states[i], e, states[i].engines[e].node.peers[target]);
  }

  /** No lost registration: whenever a peer is READY and neither end has an operation in progress, each
      end has imported exactly the other's registrations. */
  lemma NoLostRegistration(states: seq<System>, steps: seq<Step>, i: nat, e: Endpoint, id: ConnectionId)
    requires FaultFreeRun(states, steps) && i <= |steps| && e in states[i].engines
    requires id in states[i].engines[e].node.heap && states[i].engines[e].node.heap[id].state == READY
    requires states[i].engines[e].op == Idle
    requires Mutual(states[i], e, id) ==> states[i].engines[states[i].engines[e].node.heap[id].endpoint].op == Idle
    ensures Mutual(states[i], e, id)
    ensures Far(states[i], e, id).state == READY
    ensures Far(states[i], e, id).remoteVersion == |states[i].engines[e].node.log|
    ensures states[i].engines[e].node.heap[id].remoteVersion == |states[i].engines[states[i].engines[e].node.heap[id].endpoint].node.log|
    ensures var n := states[i].engines[e].node; var p := n.heap[id];
            var far := states[i].engines[p.endpoint].node; var q := far.heap[p.remoteId];
            && p.handle in n.native.qps && n.native.qps[p.handle].imports == Registered(far.log, |far.log|)
            && q.handle in far.native.qps && far.native.qps[q.handle].imports == Registered(n.log, |n.log|)
  {
    hide FaultFreeRun, CleanInv, SafetyInv, NodeInv, OpOk, ReliableInv, Clean;
    FaultFreeShape(states, steps);
    var s := states[i];
    RunIsClean(states, steps, i);
    CleanFacts(s, e);
    var p := s.engines[e].node.heap[id];
    LinkNames(s, e, id);
    CleanFacts(s, p.endpoint);
    assert FarReady(s, e, id);
    assert FarInformed(s, p.endpoint, p.remoteId);
    AllImported(s, e, id);
    AllImported(s, p.endpoint, p.remoteId);
  }

  /** A peer whose version is the length of its counterpart's log has imported all of it. */
  lemma AllImported(s: System, e: Endpoint, id: ConnectionId)
    requires SafetyInv(s) && Mutual(s, e, id)
    ensures var n := s.engines[e].node; var p := n.heap[id]; var log := s.engines[p.endpoint].node.log;
            p.handle in n.native.qps &&
            (p.remoteVersion == |log| ==> n.native.qps[p.handle].imports == Registered(log, |log|))
  {
    hide SafetyInv;
    EngineFacts(s, e);
    assert PeerOk(s.engines[e].node, id);
    LinkFacts(s, e, id);
  }
}
