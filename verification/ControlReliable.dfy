/** The reliable network: READY means mutual, whatever is disconnected meanwhile.

    On top of the safety invariant, two facts about operations in progress are kept: a live peer
    linked to a peer that is in its Ready stage is that peer's own counterpart, and so is a live peer
    linked to a peer whose Connect call has been answered. */
module ControlReliable {
  import opened Control
  import opened ControlNode
  import opened ControlSystem
  import opened ControlSafety
  import opened ControlSafetySteps

  // ----- What one block can change ---------------------------------------------------------

  /** Peer `p` has no new link and did not become READY. */
  predicate Untouched(n: Node, n': Node, p: ConnectionId) {
    p in n'.heap &&
    if p in n.heap then
      n'.heap[p].remoteId == n.heap[p].remoteId && (n'.heap[p].state == READY ==> n.heap[p].state == READY)
    else
      n'.heap[p].remoteId == 0 && n'.heap[p].state != READY
  }

  lemma BeginConnectTouches(n: Node, target: Endpoint, env: Env, p: ConnectionId)
    requires WellKeyed(n) && p in BeginConnect(n, target, env).node.heap && Fresh(n, env)
    ensures Untouched(n, BeginConnect(n, target, env).node, p)
  {
  }

  lemma LinkConnectTouches(n: Node, id: ConnectionId, answer: Offer, env: Env, p: ConnectionId)
    requires id in n.heap && p in LinkConnect(n, id, answer, env).node.heap
    ensures var n' := LinkConnect(n, id, answer, env).node;
            || Untouched(n, n', p)
            || (p == id && n'.heap[p].remoteId == answer.connection.id && n'.heap[p].state == CONNECTED)
  {
  }

  lemma FinishConnectTouches(n: Node, id: ConnectionId, answer: Snapshot, env: Env, p: ConnectionId)
    requires id in n.heap && p in FinishConnect(n, id, answer, env).node.heap
    ensures var n' := FinishConnect(n, id, answer, env).node;
            p in n.heap && n'.heap[p].remoteId == n.heap[p].remoteId && (Untouched(n, n', p) || p == id)
  {
  }

  lemma HandleConnectTouches(n: Node, offer: Offer, env: Env, p: ConnectionId)
    requires WellKeyed(n) && Fresh(n, env) && p in HandleConnect(n, offer, env).node.heap
    ensures var n' := HandleConnect(n, offer, env).node;
            || Untouched(n, n', p)
            || (Live(n', p) && n'.heap[p].endpoint == offer.connection.endpoint
                && n'.heap[p].remoteId == offer.connection.id && n'.heap[p].state == CONNECTED)
  {
  }

  lemma HandleReadyTouches(n: Node, update: Update, env: Env, p: ConnectionId)
    requires WellKeyed(n) && p in HandleReady(n, update, env).node.heap
    ensures var n' := HandleReady(n, update, env).node;
            && p in n.heap && n'.heap[p].remoteId == n.heap[p].remoteId
            && (|| Untouched(n, n', p)
                || (Live(n, p) && n.heap[p].endpoint == update.connection.endpoint
                    && n.heap[p].remoteId == update.connection.id))
  {
  }

  lemma HandleChangedTouches(n: Node, update: Update, env: Env, p: ConnectionId)
    requires WellKeyed(n) && p in HandleChanged(n, update, env).node.heap
    ensures Untouched(n, HandleChanged(n, update, env).node, p)
  {
  }

  lemma BeginDisconnectTouches(n: Node, handle: Handle, env: Env, p: ConnectionId)
    requires NodeInv(n) && p in BeginDisconnect(n, handle, env).node.heap
    ensures Untouched(n, BeginDisconnect(n, handle, env).node, p)
  {
    BeginDisconnectKeeps(n, handle, env);
  }

  // ----- What one step can change ----------------------------------------------------------

  /** A link appears only in the Connect handler and in the second block of connect; a peer becomes
      READY only in the Ready handler and in the third block. */
  ghost predicate Origin(s: System, step: Step, n': Node, p: ConnectionId)
    requires Enabled(s, step)
  {
    var g := s.engines[Actor(step)];
    || Untouched(g.node, n', p)
    || (step.Deliver? && step.request.body.ConnectCall? && LinkedByHandler(step.request.body.offer, n', p))
    || (step.Return? && step.reply.answer.Offered? && g.op.Connecting? && p == g.op.id && p in n'.heap
        && n'.heap[p].remoteId == step.reply.answer.offer.connection.id && n'.heap[p].state == CONNECTED)
    || (step.Deliver? && step.request.body.ReadyCall? && ReadiedByHandler(step.request.body.update, g.node, n', p))
    || (step.Return? && g.op.Readying? && p == g.op.id
        && p in g.node.heap && p in n'.heap && n'.heap[p].remoteId == g.node.heap[p].remoteId)
  }

  predicate LinkedByHandler(offer: Offer, n': Node, p: ConnectionId) {
    Live(n', p) && n'.heap[p].endpoint == offer.connection.endpoint && n'.heap[p].remoteId == offer.connection.id
    && n'.heap[p].state == CONNECTED
  }

  predicate ReadiedByHandler(update: Update, n: Node, n': Node, p: ConnectionId) {
    && Live(n, p) && p in n'.heap && n'.heap[p].remoteId == n.heap[p].remoteId
    && n.heap[p].endpoint == update.connection.endpoint && n.heap[p].remoteId == update.connection.id
  }

  lemma StepOrigin(s: System, step: Step, p: ConnectionId)
    requires SafetyInv(s) && Enabled(s, step) && Lookups(s)
    requires p in EffectOf(s, step).engine.node.heap
    ensures Origin(s, step, EffectOf(s, step).engine.node, p)
  {
    hide SafetyInv, NodeInv, OpOk;
    EngineFacts(s, Actor(step));
    var n := s.engines[Actor(step)].node;
    match step
    case StartConnect(e, target, env) =>
      hide BeginConnect;
      BeginConnectTouches(n, target, env, p);
    case StartDisconnect(e, handle, env) =>
      hide BeginDisconnect;
      BeginDisconnectTouches(n, handle, env, p);
    case Deliver(q, env) => DeliverOrigin(s, q, env, p);
    case Return(e, reply, env) => ReturnOrigin(s, e, reply, env, p);
    case _ =>
  }

  lemma DeliverOrigin(s: System, q: Request, env: Env, p: ConnectionId)
    requires Enabled(s, Deliver(q, env)) && WellKeyed(s.engines[q.to].node)
    requires p in OnDeliver(s.engines[q.to], q, env).engine.node.heap
    ensures Origin(s, Deliver(q, env), OnDeliver(s.engines[q.to], q, env).engine.node, p)
  {
    hide HandleConnect, HandleReady, HandleChanged, WellKeyed;
    var n := s.engines[q.to].node;
    match q.body
    case ConnectCall(offer) => HandleConnectTouches(n, offer, env, p);
    case ReadyCall(update) => HandleReadyTouches(n, update, env, p);
    case ChangedCall(update) => HandleChangedTouches(n, update, env, p);
    case CloseCall(_) =>
  }

  lemma ReturnOrigin(s: System, e: Endpoint, reply: Reply, env: Env, p: ConnectionId)
    requires SafetyInv(s) && Enabled(s, Return(e, reply, env))
    requires s.engines[e].op.Connecting? || s.engines[e].op.Readying? ==> s.engines[e].op.id in s.engines[e].node.heap
    requires p in OnReturn(s.engines[e], reply.answer, env).engine.node.heap
    ensures Origin(s, Return(e, reply, env), OnReturn(s.engines[e], reply.answer, env).engine.node, p)
  {
    hide SafetyInv, LinkConnect, FinishConnect;
    var g := s.engines[e];
    if reply.answer.Offered? && g.op.Connecting? {
      LinkConnectTouches(g.node, g.op.id, reply.answer.offer, env, p);
    } else if reply.answer.Shared? && g.op.Readying? {
      FinishConnectTouches(g.node, g.op.id, reply.answer.snapshot, env, p);
    }
  }

  /** A Connecting operation starts with a new call; a Readying one follows an answered offer. */
  ghost predicate OpOrigin(s: System, step: Step, op': Op)
    requires Enabled(s, step)
  {
    var g := s.engines[Actor(step)];
    || op' == g.op
    || (op'.Connecting? && step.StartConnect? && op'.request.call == g.calls && op'.request.caller == g.node.endpoint)
    || (op'.Readying? && step.Return? && step.reply.answer.Offered? && g.op.Connecting? && op'.id == g.op.id)
    || (!op'.Connecting? && !op'.Readying?)
  }

  lemma StepOp(s: System, step: Step)
    requires Enabled(s, step) && Lookups(s)
    ensures OpOrigin(s, step, EffectOf(s, step).engine.op)
  {
    hide BeginConnect, BeginDisconnect, BeginPublish, HandleConnect, HandleReady, HandleChanged, HandleClose;
    hide LinkConnect, FinishConnect;
  }

  // ----- The invariant of the reliable network ---------------------------------------------

  ghost predicate ReadyIsMutual(s: System, e: Endpoint)
    requires e in s.engines
  {
    forall p <- s.engines[e].node.heap :: s.engines[e].node.heap[p].state == READY ==> Mutual(s, e, p)
  }

  /** The live peer `p` of `e` is linked to peer `id` of engine `d`. */
  predicate LiveLink(s: System, e: Endpoint, p: ConnectionId, d: Endpoint, id: ConnectionId) {
    && e in s.engines && Live(s.engines[e].node, p) && id != 0
    && s.engines[e].node.heap[p].endpoint == d && s.engines[e].node.heap[p].remoteId == id
  }

  /** While `d` is in its Ready stage for a peer, every live peer linked to it is mutual. */
  ghost predicate ReadyingIsExclusive(s: System, d: Endpoint)
    requires d in s.engines
  {
    s.engines[d].op.Readying? ==>
      forall e, p :: LiveLink(s, e, p, d, s.engines[d].op.id) ==> Mutual(s, e, p)
  }

  /** Once its Connect call is answered, a live peer linked to the caller's peer is the one answered
      or already the caller's own link. */
  ghost predicate AnswerIsExclusive(s: System, d: Endpoint)
    requires d in s.engines
  {
    var g := s.engines[d];
    g.op.Connecting? ==>
      forall r <- s.replies, p ::
        r.request == g.op.request && r.answer.Offered? && LiveLink(s, g.op.request.to, p, d, g.op.id) ==>
          p == r.answer.offer.connection.id || (g.op.id in g.node.heap && g.node.heap[g.op.id].remoteId == p)
  }

  ghost predicate ReliableInv(s: System) {
    && SafetyInv(s)
    && forall e <- s.engines :: ReadyIsMutual(s, e) && ReadyingIsExclusive(s, e) && AnswerIsExclusive(s, e)
  }

  lemma ReliableFacts(s: System, e: Endpoint)
    requires ReliableInv(s) && e in s.engines
    ensures SafetyInv(s) && ReadyIsMutual(s, e) && ReadyingIsExclusive(s, e) && AnswerIsExclusive(s, e)
  {
  }

  lemma LinkNames(s: System, e: Endpoint, p: ConnectionId)
    requires SafetyInv(s) && e in s.engines && p in s.engines[e].node.heap
    ensures p != 0 && s.engines[e].node.endpoint == e && s.engines[e].node.heap[p].endpoint != e
    ensures s.engines[e].node.heap[p].remoteId == 0 <==> s.engines[e].node.heap[p].state == CREATED
    ensures s.engines[e].node.heap[p].remoteId != 0 ==>
              Names(s, s.engines[e].node.heap[p].endpoint, e, s.engines[e].node.heap[p].remoteId)
  {
    EngineFacts(s, e);
    assert PeerOk(s.engines[e].node, p);
    LinkFacts(s, e, p);
  }

  /** Under the reliable network the caller of a delivered request is waiting in exactly that call. */
  lemma DeliveredCaller(s: System, q: Request, env: Env)
    requires SafetyInv(s) && Reliable(s, Deliver(q, env))
    ensures q.caller in s.engines && s.engines[q.caller].op.Awaits(q)
    ensures q.body.ConnectCall? ==> s.engines[q.caller].op.Connecting? && q.body.offer.connection == Connection(q.caller, s.engines[q.caller].op.id)
    ensures q.body.ReadyCall? ==> s.engines[q.caller].op.Readying? && q.body.update.connection == Connection(q.caller, s.engines[q.caller].op.id)
  {
    EngineFacts(s, q.caller);
    MessageFacts(s, q);
  }

  lemma ReadyMutualKept(s: System, step: Step, e: Endpoint)
    requires ReliableInv(s) && Reliable(s, step) && Lookups(s) && e in s.engines
    requires SystemGrows(s, Apply(s, step))
    ensures ReadyIsMutual(Apply(s, step), e)
  {
    var s' := Apply(s, step);
    ReliableFacts(s, e);
    hide ReliableInv, SafetyInv, Reliable, SystemGrows, EffectOf, Grows;
    forall p <- s'.engines[e].node.heap | s'.engines[e].node.heap[p].state == READY
      ensures Mutual(s', e, p)
    {
      if e == Actor(step) {
        StepOrigin(s, step, p);
        BecameReady(s, step, p);
      }
      if p in s.engines[e].node.heap {
        LinkNames(s, e, p);
        MutualStable(s, s', e, p);
      }
    }
  }

  /** Whatever makes a peer READY, it was mutual before. */
  lemma BecameReady(s: System, step: Step, p: ConnectionId)
    requires ReliableInv(s) && Reliable(s, step) && Lookups(s)
    requires p in EffectOf(s, step).engine.node.heap && EffectOf(s, step).engine.node.heap[p].state == READY
    requires Origin(s, step, EffectOf(s, step).engine.node, p)
    ensures p in s.engines[Actor(step)].node.heap && Mutual(s, Actor(step), p)
  {
    var e := Actor(step);
    ReliableFacts(s, e);
    hide SafetyInv, EffectOf, Mutual, ReliableInv;
    var n' := EffectOf(s, step).engine.node;
    if Untouched(s.engines[e].node, n', p) {
    } else if step.Deliver? {
      var q := step.request;
      DeliveredCaller(s, q, step.env);
      ReliableFacts(s, q.caller);
      MessageFacts(s, q);
      assert LiveLink(s, e, p, q.caller, s.engines[q.caller].op.id);
    } else {
      HandshakeFacts(s, e);
    }
  }

  lemma LinkStays(s: System, s': System, d: Endpoint, id: ConnectionId)
    requires SystemGrows(s, s') && d in s.engines && id in s.engines[d].node.heap
    ensures d in s'.engines && id in s'.engines[d].node.heap
    ensures s.engines[d].node.heap[id].remoteId != 0 ==> s'.engines[d].node.heap[id].remoteId == s.engines[d].node.heap[id].remoteId
    ensures s'.engines[d].node.heap[id].endpoint == s.engines[d].node.heap[id].endpoint
    ensures Live(s'.engines[d].node, id) ==> Live(s.engines[d].node, id)
  {
  }

  /** A live link after the step was one before, or the Connect handler or the second block of
      connect has just made it. */
  lemma LiveLinkOrigin(s: System, step: Step, e: Endpoint, p: ConnectionId, d: Endpoint, id: ConnectionId)
    requires ReliableInv(s) && Reliable(s, step) && Lookups(s) && SystemGrows(s, Apply(s, step))
    requires LiveLink(Apply(s, step), e, p, d, id)
    ensures
      || LiveLink(s, e, p, d, id)
      || (step.Deliver? && e == step.request.to && step.request.body.ConnectCall? && step.request.caller == d
          && d in s.engines && s.engines[d].op.Connecting? && s.engines[d].op.request == step.request && s.engines[d].op.id == id
          && LinkedByHandler(step.request.body.offer, EffectOf(s, step).engine.node, p))
      || Mutual(Apply(s, step), e, p)
  {
    hide SafetyInv, ReliableInv, EffectOf, Mutual, SystemGrows, Lookups;
    var s' := Apply(s, step);
    assert SafetyInv(s) by { ReliableFacts(s, Actor(step)); }
    if e == Actor(step) {
      StepOrigin(s, step, p);
      if p in s.engines[e].node.heap {
        LinkStays(s, s', e, p);
      }
      var n' := EffectOf(s, step).engine.node;
      if step.Deliver? && step.request.body.ConnectCall? && LinkedByHandler(step.request.body.offer, n', p) {
        DeliveredCaller(s, step.request, step.env);
        MessageFacts(s, step.request);
      } else if step.Return? && s.engines[e].op.Connecting? && step.reply.answer.Offered? && p == s.engines[e].op.id
                && !Untouched(s.engines[e].node, n', p) {
        SecondBlockLink(s, step, p, id);
      }
    }
  }

  lemma SecondBlockLink(s: System, step: Step, p: ConnectionId, id: ConnectionId)
    requires SafetyInv(s) && Enabled(s, step) && Lookups(s) && SystemGrows(s, Apply(s, step))
    requires step.Return? && s.engines[step.e].op.Connecting? && step.reply.answer.Offered? && p == s.engines[step.e].op.id
    requires var s' := Apply(s, step);
             p in s'.engines[step.e].node.heap && s'.engines[step.e].node.heap[p].remoteId == id && id != 0
    requires id == step.reply.answer.offer.connection.id
    ensures Mutual(Apply(s, step), step.e, p)
  {
    hide SafetyInv, EffectOf, Lookups;
    ReplyFacts(s, step.reply);
    HandshakeFacts(s, step.e);
    LinkStays(s, Apply(s, step), s.engines[step.e].op.request.to, step.reply.answer.offer.connection.id);
    LinkStays(s, Apply(s, step), step.e, p);
  }

  lemma ReadyingKept(s: System, step: Step, d: Endpoint)
    requires ReliableInv(s) && Reliable(s, step) && Lookups(s) && d in s.engines
    requires SafetyInv(Apply(s, step)) && SystemGrows(s, Apply(s, step))
    ensures ReadyingIsExclusive(Apply(s, step), d)
  {
    var s' := Apply(s, step);
    ReliableFacts(s, d);
    if d == Actor(step) {
      StepOp(s, step);
    }
    hide ReliableInv, SafetyInv, EffectOf, Mutual, SystemGrows, Lookups;
    if s'.engines[d].op.Readying? {
      var id := s'.engines[d].op.id;
      forall e, p | LiveLink(s', e, p, d, id)
        ensures Mutual(s', e, p)
      {
        LiveLinkOrigin(s, step, e, p, d, id);
        if LiveLink(s, e, p, d, id) {
          OldLinkToReadying(s, step, e, p, d);
        }
      }
    }
  }

  /** A live link that predates the step, to a peer that is in its Ready stage afterwards. */
  lemma OldLinkToReadying(s: System, step: Step, e: Endpoint, p: ConnectionId, d: Endpoint)
    requires ReliableInv(s) && Reliable(s, step) && Lookups(s) && d in s.engines
    requires SafetyInv(Apply(s, step)) && SystemGrows(s, Apply(s, step))
    requires Apply(s, step).engines[d].op.Readying?
    requires LiveLink(s, e, p, d, Apply(s, step).engines[d].op.id)
    requires d == Actor(step) ==> OpOrigin(s, step, Apply(s, step).engines[d].op)
    ensures Mutual(Apply(s, step), e, p)
  {
    var s' := Apply(s, step);
    ReliableFacts(s, d);
    ReliableFacts(s, e);
    LinkNames(s, e, p);
    hide ReliableInv, SafetyInv, EffectOf, SystemGrows, Lookups, Names, Live;
    if s'.engines[d].op == s.engines[d].op {
      assert Mutual(s, e, p);
      MutualStable(s, s', e, p);
    } else {
      AnsweredLink(s, step, e, p, d);
    }
  }

  /** The answer that moves `d` to its Ready stage comes from the only live peer linked to its own. */
  lemma AnsweredLink(s: System, step: Step, e: Endpoint, p: ConnectionId, d: Endpoint)
    requires SafetyInv(s) && Enabled(s, step) && Lookups(s) && d in s.engines && d == Actor(step)
    requires SystemGrows(s, Apply(s, step)) && AnswerIsExclusive(s, d)
    requires step.Return? && step.reply.answer.Offered? && s.engines[d].op.Connecting? && EffectOf(s, step).engine.op.Readying?
    requires LiveLink(s, e, p, d, s.engines[d].op.id)
    ensures Mutual(Apply(s, step), e, p)
  {
    hide SafetyInv, Lookups, SystemGrows, AnswerIsExclusive, EffectOf, Names;
    var s', id := Apply(s, step), s.engines[d].op.id;
    HandshakeFacts(s, d);
    LinkNames(s, e, p);
    NamedBy(s, d, e, id);
    OnlyAnswered(s, step.reply, d, p);
    NewReadyingLink(s, step, d);
    LinkStays(s, s', d, id);
    LinkStays(s, s', e, p);
    LinkedBothWays(s', e, p, d, id);
  }

  lemma NamedBy(s: System, owner: Endpoint, target: Endpoint, id: ConnectionId)
    requires Names(s, owner, target, id)
    ensures owner in s.engines && id in s.engines[owner].node.heap && s.engines[owner].node.heap[id].endpoint == target
  {
  }

  lemma OnlyAnswered(s: System, r: Reply, d: Endpoint, p: ConnectionId)
    requires d in s.engines && s.engines[d].op.Connecting? && AnswerIsExclusive(s, d)
    requires s.engines[d].op.id in s.engines[d].node.heap
    requires r in s.replies && r.request == s.engines[d].op.request && r.answer.Offered?
    requires LiveLink(s, r.request.to, p, d, s.engines[d].op.id)
    ensures p == r.answer.offer.connection.id || s.engines[d].node.heap[s.engines[d].op.id].remoteId == p
  {
    hide LiveLink;
  }

  lemma LinkedBothWays(s: System, e: Endpoint, p: ConnectionId, d: Endpoint, id: ConnectionId)
    requires e in s.engines && p in s.engines[e].node.heap && d in s.engines && id in s.engines[d].node.heap
    requires var n := s.engines[e].node; n.heap[p].endpoint == d && n.heap[p].remoteId == id && id != 0
    requires var n := s.engines[d].node; n.heap[id].endpoint == e && n.heap[id].remoteId == p
    ensures Mutual(s, e, p)
  {
  }

  /** After the second block the caller's peer is linked to the peer that was answered. */
  lemma NewReadyingLink(s: System, step: Step, d: Endpoint)
    requires Enabled(s, step) && Lookups(s) && d in s.engines && d == Actor(step)
    requires step.Return? && step.reply.answer.Offered? && s.engines[d].op.Connecting?
    requires EffectOf(s, step).engine.op.Readying?
    requires SafetyInv(s)
    ensures var g, g' := s.engines[d], EffectOf(s, step).engine;
            g.op.id in g'.node.heap && g'.node.heap[g.op.id].remoteId == step.reply.answer.offer.connection.id
  {
    hide SafetyInv, Lookups;
    HandshakeFacts(s, d);
  }

  lemma AnswerKept(s: System, step: Step, d: Endpoint)
    requires ReliableInv(s) && Reliable(s, step) && Lookups(s) && d in s.engines
    requires SafetyInv(Apply(s, step)) && SystemGrows(s, Apply(s, step))
    ensures AnswerIsExclusive(Apply(s, step), d)
  {
    var s' := Apply(s, step);
    ReliableFacts(s, d);
    if d == Actor(step) {
      StepOp(s, step);
    }
    hide ReliableInv, SafetyInv, EffectOf, Mutual, SystemGrows, Lookups, LiveLink;
    var op := s'.engines[d].op;
    if op.Connecting? {
      forall r <- s'.replies, p | r.request == op.request && r.answer.Offered? && LiveLink(s', op.request.to, p, d, op.id)
        ensures p == r.answer.offer.connection.id || (op.id in s'.engines[d].node.heap && s'.engines[d].node.heap[op.id].remoteId == p)
      {
        AnswerKeptFor(s, step, d, r, p);
      }
    }
  }

  lemma AnswerKeptFor(s: System, step: Step, d: Endpoint, r: Reply, p: ConnectionId)
    requires ReliableInv(s) && Reliable(s, step) && Lookups(s) && d in s.engines
    requires SafetyInv(Apply(s, step)) && SystemGrows(s, Apply(s, step))
    requires d == Actor(step) ==> OpOrigin(s, step, Apply(s, step).engines[d].op)
    requires var s' := Apply(s, step); var op := s'.engines[d].op;
             && op.Connecting? && r in s'.replies && r.request == op.request && r.answer.Offered?
             && LiveLink(s', op.request.to, p, d, op.id)
    ensures var s' := Apply(s, step); var op := s'.engines[d].op;
            p == r.answer.offer.connection.id || (op.id in s'.engines[d].node.heap && s'.engines[d].node.heap[op.id].remoteId == p)
  {
    var s' := Apply(s, step);
    ReliableFacts(s, d);
    hide ReliableInv, SafetyInv, EffectOf, SystemGrows, Lookups;
    var op := s'.engines[d].op;
    var to := op.request.to;
    HandshakeFacts(s', d);
    LiveLinkOrigin(s, step, to, p, d, op.id);
    if Mutual(s', to, p) {
    } else if r in s.replies {
      OldAnswer(s, r, d);
      assert op == s.engines[d].op;
      LinkStays(s, s', d, op.id) by { HandshakeFacts(s, d); }
    } else {
      NewAnswer(s, step, r);
    }
  }

  /** No reply answers a call that has not been made. */
  lemma OldAnswer(s: System, r: Reply, d: Endpoint)
    requires SafetyInv(s) && r in s.replies && d in s.engines
    ensures r.request.caller == d ==> r.request.call < s.engines[d].calls
    ensures s.engines[d].node.endpoint == d
  {
    ReplyFacts(s, r);
    EngineFacts(s, d);
  }

  /** A new offer answers with the peer that is live for the caller. */
  lemma NewAnswer(s: System, step: Step, r: Reply)
    requires SafetyInv(s) && Reliable(s, step) && Lookups(s) && r in Apply(s, step).replies && r !in s.replies
    requires r.answer.Offered?
    ensures step.Deliver? && r.request == step.request && step.request.body.ConnectCall?
    ensures Live(EffectOf(s, step).engine.node, r.answer.offer.connection.id)
    ensures var n' := EffectOf(s, step).engine.node;
            n'.heap[r.answer.offer.connection.id].endpoint == step.request.caller
  {
    hide SafetyInv, Lookups, BeginConnect, BeginDisconnect, BeginPublish, LinkConnect, FinishConnect;
    if step.Deliver? && step.request.body.ConnectCall? {
      MessageFacts(s, step.request);
      EngineFacts(s, step.request.to);
      AnsweredIsLive(s.engines[step.request.to].node, step.request.body.offer, step.env);
    }
  }

  lemma AnsweredIsLive(n: Node, offer: Offer, env: Env)
    requires NodeInv(n) && Fresh(n, env)
    ensures var out := HandleConnect(n, offer, env);
            out.result.Ok? ==>
              Live(out.node, out.result.value.connection.id)
              && out.node.heap[out.result.value.connection.id].endpoint == offer.connection.endpoint
  {
  }

  lemma StepKeepsReliable(s: System, step: Step)
    requires ReliableInv(s) && Reliable(s, step)
    ensures Lookups(s) && ReliableInv(Apply(s, step)) && SystemGrows(s, Apply(s, step))
  {
    assert SafetyInv(s);
    hide SafetyInv;
    StepKeepsSafety(s, step);
    hide EffectOf, Lookups, SystemGrows, Reliable;
    forall e <- s.engines
      ensures ReadyIsMutual(Apply(s, step), e) && ReadyingIsExclusive(Apply(s, step), e) && AnswerIsExclusive(Apply(s, step), e)
    {
      ReadyMutualKept(s, step, e);
      ReadyingKept(s, step, e);
      AnswerKept(s, step, e);
    }
    assert Apply(s, step).engines.Keys == s.engines.Keys;
  }
}
