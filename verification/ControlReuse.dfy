/** Fault-free runs: what a connect that returns early may rely on. Beside the invariants of
    ControlFaultFree, answered Ready calls are tied to READY peers at both ends. */
module ControlReuse {
  import opened Control
  import opened ControlNode
  import opened ControlSystem
  import opened ControlSafety
  import opened ControlSafetySteps
  import opened ControlReliable
  import opened ControlFaultFree

  /** The Ready call of peer `id` of `e`, its own half of the handshake, has been answered. */
  ghost predicate ReadyAnswered(s: System, e: Endpoint, id: ConnectionId) {
    exists r <- s.replies :: AnswersReady(r, e, id)
  }

  predicate AnswersReady(r: Reply, e: Endpoint, id: ConnectionId) {
    r.answer.Shared? && r.request.caller == e && r.request.body.ReadyCall? && r.request.body.update.connection.id == id
  }

  /** An answered Ready call has made the other end READY. */
  ghost predicate AnswerIsReady(s: System, e: Endpoint, id: ConnectionId) {
    Mutual(s, e, id) && ReadyAnswered(s, e, id) ==> Far(s, e, id).state == READY
  }

  predicate Opens(op: Op) {
    op.Connecting? || op.Readying?
  }

  /** A peer that is READY before its own handshake is through was made so by the other end's. */
  ghost predicate EarlyIsAnswered(s: System, d: Endpoint)
    requires d in s.engines
  {
    var g := s.engines[d];
    Opens(g.op) && g.op.id in g.node.heap && g.node.heap[g.op.id].state == READY ==>
      ReadyAnswered(s, g.node.heap[g.op.id].endpoint, g.node.heap[g.op.id].remoteId)
  }

  ghost predicate ReuseInv(s: System) {
    && CleanInv(s)
    && (forall e, id :: AnswerIsReady(s, e, id))
    && (forall d <- s.engines :: EarlyIsAnswered(s, d))
  }

  /** READY and the link are kept. */
  lemma FarStaysReady(s: System, s': System, e: Endpoint, id: ConnectionId)
    requires SystemGrows(s, s') && Mutual(s, e, id) && Mutual(s', e, id) && Far(s, e, id).state == READY
    requires s.engines[e].node.heap[id].remoteId != 0
    ensures Far(s', e, id).state == READY
  {
    var d := s.engines[e].node.heap[id].endpoint;
    assert Grows(s.engines[e].node, s'.engines[e].node) && Grows(s.engines[d].node, s'.engines[d].node);
    hide Grows;
    GrownPeer(s.engines[e].node, s'.engines[e].node, id);
    GrownPeer(s.engines[d].node, s'.engines[d].node, s.engines[e].node.heap[id].remoteId);
  }

  lemma GrownPeer(n: Node, n': Node, id: ConnectionId)
    requires Grows(n, n') && id in n.heap
    ensures id in n'.heap && PeerGrows(n.heap[id], n'.heap[id])
  {
  }

  /** The reply a step adds, if it answers a Ready call, was given by the handler of that call. */
  lemma NewAnswer(s: System, step: Step, r: Reply)
    requires Enabled(s, step) && Lookups(s) && r in Apply(s, step).replies && r !in s.replies
    ensures step.Deliver? && r.request == step.request
    ensures r.answer.Shared? ==> step.request.body.ReadyCall?
  {
    hide HandleConnect, HandleReady, HandleChanged, HandleClose, LinkConnect, FinishConnect, BeginConnect, BeginDisconnect, BeginPublish;
  }

  /** A delivered Ready call marks the peer it names READY. */
  lemma DeliveredIsReady(s: System, q: Request, env: Env)
    requires CleanInv(s) && FaultFree(s, Deliver(q, env)) && q.body.ReadyCall? && Lookups(s)
    ensures q.caller in s.engines && Mutual(s, q.caller, q.body.update.connection.id)
    ensures var s' := Apply(s, Deliver(q, env));
            var p := s.engines[q.caller].node.heap[q.body.update.connection.id];
            && p.endpoint == q.to && q.to in s'.engines && p.remoteId in s'.engines[q.to].node.heap
            && s'.engines[q.to].node.heap[p.remoteId].state == READY
            && p.remoteId != 0
  {
    hide CleanInv, FaultFree, SafetyInv;
    UpdateIsMutual(s, q, env);
    MutualIsFound(s, q.caller, q.body.update.connection.id);
    UpdateSucceeds(s, q, env);
    CleanFacts(s, q.caller);
    LinkNames(s, q.caller, q.body.update.connection.id);
    UpdateEndpoint(s, q, env);
  }

  lemma UpdateEndpoint(s: System, q: Request, env: Env)
    requires CleanInv(s) && FaultFree(s, Deliver(q, env)) && q.body.ReadyCall?
    ensures q.body.update.connection == Connection(q.caller, q.body.update.connection.id)
  {
    hide CleanInv, SafetyInv;
    UpdateIsMutual(s, q, env);
  }

  lemma KeepsAnswerIsReady(s: System, step: Step, e: Endpoint, id: ConnectionId)
    requires ReuseInv(s) && FaultFree(s, step) && Lookups(s)
    requires SystemGrows(s, Apply(s, step)) && CleanInv(Apply(s, step))
    ensures AnswerIsReady(Apply(s, step), e, id)
  {
    var s' := Apply(s, step);
    assert CleanInv(s) && AnswerIsReady(s, e, id);
    hide ReuseInv, CleanInv, SafetyInv, FaultFree, SystemGrows, Mutual, Apply;
    IsEnabled(s, step);
    if Mutual(s', e, id) && ReadyAnswered(s', e, id) {
      var r :| r in s'.replies && AnswersReady(r, e, id);
      if r in s.replies {
        AnsweredWasMutual(s, r, id);
        LinkedRemote(s, e, id);
        FarStaysReady(s, s', e, id);
      } else {
        NewAnswer(s, step, r);
        DeliveredIsReady(s, step.request, step.env);
        SameFar(s, s', e, id);
      }
    }
  }

  lemma LinkedRemote(s: System, e: Endpoint, id: ConnectionId)
    requires CleanInv(s) && Mutual(s, e, id)
    ensures s.engines[e].node.heap[id].remoteId != 0
  {
    hide CleanInv, SafetyInv;
    CleanSafe(s);
    LinkNames(s, s.engines[e].node.heap[id].endpoint, s.engines[e].node.heap[id].remoteId);
  }

  lemma CleanSafe(s: System)
    requires CleanInv(s)
    ensures SafetyInv(s)
  {
  }

  lemma AnsweredWasMutual(s: System, r: Reply, id: ConnectionId)
    requires CleanInv(s) && r in s.replies && r.request.body.ReadyCall? && r.request.body.update.connection.id == id
    ensures Mutual(s, r.request.caller, id)
  {
    hide CleanInv, SafetyInv;
    CleanSafe(s);
    ReplyFacts(s, r);
    MessageFacts(s, r.request);
  }

  /** The other end of a kept link is the same peer. */
  lemma SameFar(s: System, s': System, e: Endpoint, id: ConnectionId)
    requires SystemGrows(s, s') && Mutual(s, e, id) && Mutual(s', e, id) && s.engines[e].node.heap[id].remoteId != 0
    ensures s'.engines[e].node.heap[id].endpoint == s.engines[e].node.heap[id].endpoint
    ensures s'.engines[e].node.heap[id].remoteId == s.engines[e].node.heap[id].remoteId
  {
    assert Grows(s.engines[e].node, s'.engines[e].node);
    hide Grows;
    GrownPeer(s.engines[e].node, s'.engines[e].node, id);
  }

  lemma AnsweredStays(s: System, s': System, e: Endpoint, id: ConnectionId)
    requires ReadyAnswered(s, e, id) && s.replies <= s'.replies
    ensures ReadyAnswered(s', e, id)
  {
  }

  /** A step that leaves the operation alone, or turns Connecting into Readying, keeps the peer. */
  lemma StillOpens(s: System, step: Step)
    requires CleanInv(s) && FaultFree(s, step) && Lookups(s)
    requires var g' := EffectOf(s, step).engine; Opens(g'.op) && g'.op.id in g'.node.heap && g'.node.heap[g'.op.id].state == READY
    ensures var g, g' := s.engines[Actor(step)], EffectOf(s, step).engine; Opens(g.op) && g.op.id == g'.op.id
  {
    hide CleanInv, SafetyInv, Reliable, LinkConnect, FinishConnect, HandleConnect, HandleReady, HandleChanged, HandleClose, BeginPublish;
  }

  lemma KeepsEarlyIsAnswered(s: System, step: Step, d: Endpoint)
    requires ReuseInv(s) && FaultFree(s, step) && Lookups(s) && d in s.engines
    requires SystemGrows(s, Apply(s, step))
    ensures d in Apply(s, step).engines && EarlyIsAnswered(Apply(s, step), d)
  {
    var s' := Apply(s, step);
    assert CleanInv(s) && EarlyIsAnswered(s, d);
    hide ReuseInv, CleanInv, SafetyInv, FaultFree, EffectOf, Reliable;
    GrowsKeys(s, s');
    IsEnabled(s, step);
    CleanSafe(s);
    var g, g' := s.engines[d], s'.engines[d];
    if d != Actor(step) {
      if Opens(g.op) && g.op.id in g.node.heap && g.node.heap[g.op.id].state == READY {
        AnsweredStays(s, s', g.node.heap[g.op.id].endpoint, g.node.heap[g.op.id].remoteId);
      }
    } else if Opens(g'.op) && g'.op.id in g'.node.heap && g'.node.heap[g'.op.id].state == READY {
      var id := g'.op.id;
      StillOpens(s, step);
      StepOrigin(s, step, id);
      assert Grows(g.node, g'.node);
      if Untouched(g.node, g'.node, id) {
        GrownPeer(g.node, g'.node, id);
        AnsweredStays(s, s', g.node.heap[id].endpoint, g.node.heap[id].remoteId);
      } else {
        MadeReady(s, step, id);
      }
    }
  }

  /** Whatever made a peer READY during its own handshake is the answer to the other end's call. */
  lemma MadeReady(s: System, step: Step, id: ConnectionId)
    requires CleanInv(s) && FaultFree(s, step) && Lookups(s) && SystemGrows(s, Apply(s, step))
    requires var g, g' := s.engines[Actor(step)], EffectOf(s, step).engine;
             && Opens(g.op) && Opens(g'.op) && g'.op.id == g.op.id == id && id in g'.node.heap && g'.node.heap[id].state == READY
             && Origin(s, step, g'.node, id) && !Untouched(g.node, g'.node, id)
    ensures var g' := EffectOf(s, step).engine;
            ReadyAnswered(Apply(s, step), g'.node.heap[id].endpoint, g'.node.heap[id].remoteId)
  {
    hide CleanInv, SafetyInv, HandleReady, HandleConnect, LinkConnect, FinishConnect;
    var g, g' := s.engines[Actor(step)], EffectOf(s, step).engine;
    if step.Deliver? && step.request.body.ReadyCall? {
      var q := step.request;
      UpdateSucceeds(s, q, step.env);
      UpdateEndpoint(s, q, step.env);
      var r := Reply(q, Shared(HandleReady(g.node, q.body.update, step.env).result.value));
      assert r in Apply(s, step).replies && AnswersReady(r, q.caller, q.body.update.connection.id);
      assert Grows(g.node, g'.node);
      GrownPeer(g.node, g'.node, id);
    } else if step.Return? && g.op.Readying? {
      DoneIsPublish(s, step.e, step.reply, step.env);
    }
  }

  lemma StepKeepsReuse(s: System, step: Step)
    requires ReuseInv(s) && FaultFree(s, step)
    ensures Lookups(s) && ReuseInv(Apply(s, step))
  {
    assert CleanInv(s);
    StepKeepsClean(s, step);
    var s' := Apply(s, step);
    GrowsKeys(s, s');
    hide ReuseInv, CleanInv, FaultFree, SystemGrows, Apply, AnswerIsReady, EarlyIsAnswered;
    forall e, id
      ensures AnswerIsReady(s', e, id)
    {
      KeepsAnswerIsReady(s, step, e, id);
    }
    forall d <- s'.engines
      ensures EarlyIsAnswered(s', d)
    {
      KeepsEarlyIsAnswered(s, step, d);
    }
    ReuseFrom(s');
  }

  lemma ReuseFrom(s: System)
    requires CleanInv(s) && (forall e, id :: AnswerIsReady(s, e, id)) && (forall d <- s.engines :: EarlyIsAnswered(s, d))
    ensures ReuseInv(s)
  {
  }

  /** In such a state the far end of a READY peer is not READY exactly while it waits for a Ready reply
      already sent, and this end's own handshake has not been through. */
  lemma FarNotReady(s: System, e: Endpoint, id: ConnectionId)
    requires ReuseInv(s) && e in s.engines && id in s.engines[e].node.heap && s.engines[e].node.heap[id].state == READY
    ensures Mutual(s, e, id)
    ensures Far(s, e, id).state != READY <==>
              var p := s.engines[e].node.heap[id]; var op := s.engines[p.endpoint].op;
              op.Readying? && op.id == p.remoteId && Replied(s, op.request) && !ReadyAnswered(s, e, id)
  {
    assert CleanInv(s) && AnswerIsReady(s, e, id);
    CleanFacts(s, e);
    assert Mutual(s, e, id) && FarReady(s, e, id);
    var d := s.engines[e].node.heap[id].endpoint;
    assert EarlyIsAnswered(s, d);
  }
}
