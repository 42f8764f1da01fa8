/** The hostile network: how far READY goes there. A READY peer's counterpart is always linked to some
    peer of the READY peer's own engine, though not always to this one. */
module ControlBackLink {
  import opened Control
  import opened ControlNode
  import opened ControlSystem
  import opened ControlSafety
  import opened ControlSafetySteps
  import opened ControlReliable

  /** The counterpart of peer `p` of `e` is mutual with some peer of `e`. */
  ghost predicate BackLinked(s: System, e: Endpoint, p: ConnectionId)
    requires e in s.engines && p in s.engines[e].node.heap
  {
    var peer := s.engines[e].node.heap[p];
    peer.remoteId != 0 && Mutual(s, peer.endpoint, peer.remoteId)
  }

  ghost predicate ReadyIsBackLinked(s: System) {
    forall e <- s.engines, p <- s.engines[e].node.heap ::
      s.engines[e].node.heap[p].state == READY ==> BackLinked(s, e, p)
  }

  /** A mutual link counts at both of its ends. */
  lemma MutualBackLinks(s: System, e: Endpoint, p: ConnectionId)
    requires SafetyInv(s) && Mutual(s, e, p)
    ensures BackLinked(s, e, p)
  {
    hide SafetyInv;
    LinkNames(s, e, p);
  }

  lemma BackLinkedStays(s: System, s': System, e: Endpoint, p: ConnectionId)
    requires SystemGrows(s, s') && e in s.engines && p in s.engines[e].node.heap && BackLinked(s, e, p)
    ensures e in s'.engines && p in s'.engines[e].node.heap && BackLinked(s', e, p)
  {
    hide Mutual;
    var peer := s.engines[e].node.heap[p];
    MutualStable(s, s', peer.endpoint, peer.remoteId);
    LinkStays(s, s', e, p);
  }

  /** Whatever makes a peer READY, its counterpart was linked back before. */
  lemma BecomesReady(s: System, step: Step, p: ConnectionId)
    requires SafetyInv(s) && Enabled(s, step) && Lookups(s) && ReadyIsBackLinked(s)
    requires p in EffectOf(s, step).engine.node.heap && EffectOf(s, step).engine.node.heap[p].state == READY
    requires Origin(s, step, EffectOf(s, step).engine.node, p)
    ensures p in s.engines[Actor(step)].node.heap && BackLinked(s, Actor(step), p)
  {
    hide SafetyInv, EffectOf, Mutual;
    var e := Actor(step);
    if Untouched(s.engines[e].node, EffectOf(s, step).engine.node, p) {
    } else if step.Deliver? {
      MessageFacts(s, step.request);
    } else {
      HandshakeFacts(s, e);
      MutualBackLinks(s, e, p);
    }
  }

  lemma StepKeepsBackLinks(s: System, step: Step)
    requires SafetyInv(s) && Enabled(s, step) && Lookups(s) && ReadyIsBackLinked(s)
    requires SystemGrows(s, Apply(s, step))
    ensures ReadyIsBackLinked(Apply(s, step))
  {
    hide SafetyInv, EffectOf, SystemGrows, BackLinked;
    var s' := Apply(s, step);
    SameEngines(s, s');
    forall e <- s'.engines, p <- s'.engines[e].node.heap | s'.engines[e].node.heap[p].state == READY
      ensures BackLinked(s', e, p)
    {
      if e == Actor(step) {
        StepOrigin(s, step, p);
        BecomesReady(s, step, p);
      }
      BackLinkedStays(s, s', e, p);
    }
  }

  lemma SameEngines(s: System, s': System)
    requires SystemGrows(s, s')
    ensures s'.engines.Keys == s.engines.Keys
  {
  }

  /** Peer `q` of `e` has the same counterpart as peer `p`. */
  ghost predicate SharesLink(n: Node, p: ConnectionId, q: ConnectionId)
    requires p in n.heap
  {
    q in n.heap && n.heap[q].endpoint == n.heap[p].endpoint && n.heap[q].remoteId == n.heap[p].remoteId
  }

  /** Among the peers that share a back-linked peer's counterpart exactly one is mutual with it. */
  lemma OneIsMutual(s: System, e: Endpoint, p: ConnectionId) returns (q: ConnectionId)
    requires SafetyInv(s) && e in s.engines && p in s.engines[e].node.heap && BackLinked(s, e, p)
    ensures SharesLink(s.engines[e].node, p, q) && Mutual(s, e, q)
    ensures forall other :: SharesLink(s.engines[e].node, p, other) && Mutual(s, e, other) ==> other == q
  {
    hide SafetyInv;
    LinkNames(s, e, p);
    var peer := s.engines[e].node.heap[p];
    q := s.engines[peer.endpoint].node.heap[peer.remoteId].remoteId;
  }
}
