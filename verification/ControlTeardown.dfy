/** The reliable network: what a disconnect that returns normally has achieved at the other end. */
module ControlTeardown {
  import opened Control
  import opened ControlNode
  import opened ControlSystem
  import opened ControlSafety
  import opened ControlSafetySteps
  import opened ControlReliable
  import opened ControlTheorems

  // ----- Requests and replies over a run ---------------------------------------------------

  /** A step leaves an operation's call alone, ends it, or makes a call with a new number. */
  lemma StepCall(s: System, step: Step, e: Endpoint, q: Request)
    requires SafetyInv(s) && Enabled(s, step) && Lookups(s) && e in s.engines && q in s.sent && q.caller == e
    requires e in Apply(s, step).engines && Apply(s, step).engines[e].op.Awaits(q)
    ensures s.engines[e].op.Awaits(q)
  {
    hide SafetyInv, BeginConnect, BeginDisconnect, BeginPublish, HandleConnect, HandleReady, HandleChanged, HandleClose;
    hide LinkConnect, FinishConnect, MessageOk;
    EngineFacts(s, e);
    NumberedCall(s, q);
  }

  lemma NumberedCall(s: System, q: Request)
    requires SafetyInv(s) && q in s.sent
    ensures q.caller in s.engines && q.call < s.engines[q.caller].calls
  {
    assert MessageOk(s, q);
  }

  /** A call an engine still awaits, it has awaited ever since it was sent. */
  lemma {:induction false} AwaitedSince(states: seq<System>, steps: seq<Step>, i: nat, j: nat, e: Endpoint, q: Request)
    requires Run(states, steps) && i <= j <= |steps| && q in states[i].sent && q.caller == e
    requires e in states[j].engines && states[j].engines[e].op.Awaits(q)
    ensures e in states[i].engines && states[i].engines[e].op.Awaits(q)
    decreases j - i
  {
    hide Run, SafetyInv, SystemGrows, Enabled, Lookups, Apply;
    RunShape(states, steps);
    if i < j {
      RunStep(states, steps, j - 1);
      RunGrows(states, steps, i, j - 1);
      SentStays(states[i], states[j - 1]);
      StepCall(states[j - 1], steps[j - 1], e, q);
      AwaitedSince(states, steps, i, j - 1, e, q);
    }
  }

  lemma SentStays(s: System, s': System)
    requires SystemGrows(s, s')
    ensures s.sent <= s'.sent && s.replies <= s'.replies && s'.engines.Keys == s.engines.Keys
  {
  }

  /** The reply a step adds is that of the request it delivers. */
  lemma NewReply(s: System, step: Step, r: Reply)
    requires Enabled(s, step) && Lookups(s) && r in Apply(s, step).replies && r !in s.replies
    ensures step.Deliver? && r.request == step.request && step.request.to in s.engines
    ensures OnDeliver(s.engines[step.request.to], step.request, step.env).replies == {r}
  {
    hide HandleConnect, HandleReady, HandleChanged, HandleClose, LinkConnect, FinishConnect, BeginConnect, BeginDisconnect, BeginPublish;
  }

  /** The step at which a reply was given. */
  lemma {:induction false} ReplyGiven(states: seq<System>, steps: seq<Step>, i: nat, j: nat, r: Reply) returns (k: nat)
    requires Run(states, steps) && i <= j <= |steps| && r in states[j].replies && r !in states[i].replies
    ensures i <= k < j && |states| == |steps| + 1
    ensures Next(states[k], steps[k], states[k + 1]) && r !in states[k].replies && r in states[k + 1].replies
    decreases j - i
  {
    hide Run, SafetyInv, SystemGrows, Enabled, Lookups, Apply;
    RunShape(states, steps);
    RunStep(states, steps, j - 1);
    if r !in states[j - 1].replies {
      k := j - 1;
    } else {
      k := ReplyGiven(states, steps, i, j - 1, r);
    }
  }

  // ----- The far end -----------------------------------------------------------------------

  /** An answered Close leaves no live peer linked to the connection it names. */
  lemma CloseClears(n: Node, c: Connection, env: Env, p: ConnectionId)
    requires WellKeyed(n) && HandleClose(n, c, env).result.Ok? && Live(HandleClose(n, c, env).node, p)
    ensures !(n.heap[p].endpoint == c.endpoint && n.heap[p].remoteId == c.id)
  {
  }

  /** Engine `d` is in its own connect and has in hand an answer that offers it peer `a` of `e`. */
  ghost predicate HoldsAnswer(s: System, d: Endpoint, e: Endpoint, a: ConnectionId) {
    && d in s.engines && s.engines[d].op.Connecting?
    && exists r <- s.replies ::
         r.request == s.engines[d].op.request && r.answer.Offered? && r.answer.offer.connection == Connection(e, a)
  }

  /** A destroyed peer is never offered again. */
  lemma OfferedIsLive(n: Node, offer: Offer, env: Env)
    requires WellKeyed(n) && Fresh(n, env) && HandleConnect(n, offer, env).result.Ok?
    ensures var id := HandleConnect(n, offer, env).result.value.connection.id;
            id in n.heap ==> Live(n, id)
  {
  }

  lemma OfferNotRenewed(s: System, step: Step, r: Reply, e: Endpoint, a: ConnectionId)
    requires SafetyInv(s) && Enabled(s, step) && Lookups(s) && r in Apply(s, step).replies && r !in s.replies
    requires r.request.to == e && r.answer.Offered? && e in s.engines && a in s.engines[e].node.heap && !Live(s.engines[e].node, a)
    ensures r.answer.offer.connection.id != a
  {
    hide SafetyInv, HandleConnect, HandleReady, HandleChanged, HandleClose, Live, Apply;
    NewReply(s, step, r);
    if step.request.body.ConnectCall? {
      var n := s.engines[e].node;
      if HandleConnect(n, step.request.body.offer, step.env).result.Ok? {
        OfferedIsLive(n, step.request.body.offer, step.env);
      }
    }
  }

  /** What has to hold from the handling of a Close on: the closed peer is gone for good. */
  ghost predicate Closed(s: System, e: Endpoint, a: ConnectionId, q: Request) {
    && e in s.engines && a in s.engines[e].node.heap && !Live(s.engines[e].node, a)
    && q in s.sent && q.caller == e && q.body == CloseCall(Connection(e, a))
  }

  lemma ClosedFacts(s: System, q: Request)
    requires SafetyInv(s) && q in s.sent && q.body.CloseCall?
    ensures q.body.connection.endpoint == q.caller && Closed(s, q.caller, q.body.connection.id, q)
  {
    hide SafetyInv;
    MessageFacts(s, q);
  }

  /** A peer linked by the second block of connect holds the answer it is linked by. */
  lemma LinkedByAnswer(s: System, step: Step, p: ConnectionId, a: ConnectionId)
    requires SafetyInv(s) && Enabled(s, step) && step.Return? && step.reply.answer.Offered?
    requires s.engines[step.e].op.Connecting? && p == s.engines[step.e].op.id && step.reply.answer.offer.connection.id == a
    ensures p in s.engines[step.e].node.heap
    ensures HoldsAnswer(s, step.e, s.engines[step.e].node.heap[p].endpoint, a)
  {
    hide SafetyInv;
    ReplyFacts(s, step.reply);
    HandshakeFacts(s, step.e);
  }

  /** Under the reliable network no offer of an engine that awaits its Close is delivered. */
  lemma NoOfferFrom(s: System, step: Step, q: Request)
    requires SafetyInv(s) && Reliable(s, step) && step.Deliver? && step.request.body.ConnectCall?
    requires q.caller in s.engines && s.engines[q.caller].op.Awaits(q) && q.body.CloseCall?
    ensures step.request.body.offer.connection.endpoint != q.caller
  {
    hide SafetyInv;
    DeliveredCaller(s, step.request, step.env);
    MessageFacts(s, step.request);
  }

  /** A link to the closed peer that a step makes comes from an answer in hand before that step. */
  lemma LinkFromAnswer(s: System, step: Step, d: Endpoint, p: ConnectionId, e: Endpoint, a: ConnectionId, q: Request)
    requires SafetyInv(s) && Reliable(s, step) && Lookups(s) && SystemGrows(s, Apply(s, step))
    requires Closed(s, e, a, q) && s.engines[e].op.Awaits(q)
    requires LiveLink(Apply(s, step), d, p, e, a)
    ensures d in s.engines && (LiveLink(s, d, p, e, a) || HoldsAnswer(s, d, e, a))
  {
    hide SafetyInv, EffectOf, Lookups, HoldsAnswer, Reliable, Enabled, SystemGrows;
    StillEnabled(s, step);
    var s' := Apply(s, step);
    SentStays(s, s');
    if d == Actor(step) {
      StepOrigin(s, step, p);
      if p in s.engines[d].node.heap {
        LinkStays(s, s', d, p);
      }
      if Untouched(s.engines[d].node, s'.engines[d].node, p) {
      } else if step.Deliver? && step.request.body.ConnectCall? {
        NoOfferFrom(s, step, q);
      } else if step.Return? && s.engines[d].op.Connecting? {
        LinkedByAnswer(s, step, p, a);
      }
    }
  }

  lemma StillEnabled(s: System, step: Step)
    requires Reliable(s, step)
    ensures Enabled(s, step)
  {
  }

  // ----- The theorem -----------------------------------------------------------------------

  /** From the state after the handling on, only an answer the far end held then can link it again. */
  lemma {:induction false} StaysClosed(states: seq<System>, steps: seq<Step>, i: nat, j: nat, d: Endpoint, p: ConnectionId, q: Request)
    requires ReliableRun(states, steps) && i <= j <= |steps|
    requires q in states[i].sent && q.body.CloseCall? && q.caller in states[j].engines && states[j].engines[q.caller].op.Awaits(q)
    requires forall r :: !LiveLink(states[i], d, r, q.caller, q.body.connection.id)
    requires LiveLink(states[j], d, p, q.caller, q.body.connection.id)
    ensures HoldsAnswer(states[i], d, q.caller, q.body.connection.id)
    decreases j - i
  {
    hide ReliableRun, SafetyInv, SystemGrows, Lookups, Apply, LiveLink, HoldsAnswer, Closed, Reliable;
    ReliableShape(states, steps);
    hide Run;
    RunShape(states, steps);
    if i < j {
      var e, a := q.caller, q.body.connection.id;
      var s := states[j - 1];
      RunStep(states, steps, j - 1);
      RunGrows(states, steps, i, j - 1);
      SentStays(states[i], s);
      ClosedFacts(s, q);
      AwaitedSince(states, steps, j - 1, j, e, q);
      ReliableAt(states, steps, j - 1);
      LinkFromAnswer(s, steps[j - 1], d, p, e, a, q);
      if LiveLink(s, d, p, e, a) {
        StaysClosed(states, steps, i, j - 1, d, p, q);
      } else {
        HeldBefore(states, steps, i, j - 1, d, q);
      }
    }
  }

  lemma ReliableShape(states: seq<System>, steps: seq<Step>)
    requires ReliableRun(states, steps)
    ensures Run(states, steps)
  {
    hide Run, Reliable;
  }

  lemma ReliableAt(states: seq<System>, steps: seq<Step>, i: nat)
    requires ReliableRun(states, steps) && i < |steps|
    ensures |states| == |steps| + 1 && Reliable(states[i], steps[i])
  {
    hide Reliable, Next;
  }

  /** An answer naming a closed peer that is in hand later was in hand when the Close was handled. */
  lemma HeldBefore(states: seq<System>, steps: seq<Step>, i: nat, j: nat, d: Endpoint, q: Request)
    requires Run(states, steps) && i <= j <= |steps| && q in states[i].sent && q.body.CloseCall?
    requires HoldsAnswer(states[j], d, q.caller, q.body.connection.id)
    ensures HoldsAnswer(states[i], d, q.caller, q.body.connection.id)
  {
    hide Run, SafetyInv, SystemGrows, Enabled, Lookups, Apply;
    RunShape(states, steps);
    RunIsSafe(states, steps, i);
    RunIsSafe(states, steps, j);
    var e, a := q.caller, q.body.connection.id;
    var r :| r in states[j].replies && r.request == states[j].engines[d].op.request && r.answer.Offered?
             && r.answer.offer.connection == Connection(e, a);
    ReplyFacts(states[j], r);
    HandshakeFacts(states[j], d);
    if r !in states[i].replies {
      var k := ReplyGiven(states, steps, i, j, r);
      RunIsSafe(states, steps, k);
      RunGrows(states, steps, i, k);
      SentStays(states[i], states[k]);
      ClosedFacts(states[k], q);
      OfferNotRenewed(states[k], steps[k], r, e, a);
    }
    ReplyFacts(states[i], r);
    AwaitedSince(states, steps, i, j, d, r.request);
    EngineFacts(states[i], d);
  }

  /** When disconnect returns normally, its Close was handled at some step; from then on the far engine
      has no live peer linked to the destroyed one, unless it was in a connect of its own then and held
      an answer offering that very peer. */
  lemma DisconnectReturns(states: seq<System>, steps: seq<Step>, i: nat, e: Endpoint) returns (j: nat)
    requires ReliableRun(states, steps) && i < |steps| && e in states[i].engines
    requires steps[i].Return? && steps[i].e == e && steps[i].reply.answer.Done?
    requires states[i].engines[e].op.Disconnecting?
    ensures |states| == |steps| + 1 && j < i
    ensures var q := states[i].engines[e].op.request;
            && q.body.CloseCall? && q.body.connection.endpoint == e
            && steps[j].Deliver? && steps[j].request == q
            && var d, a := q.to, q.body.connection.id;
            && a in states[i].engines[e].node.heap && !Live(states[i].engines[e].node, a)
            && forall p :: LiveLink(states[i], d, p, e, a) ==> HoldsAnswer(states[j + 1], d, e, a)
  {
    hide ReliableRun, SafetyInv, SystemGrows, Lookups, Apply, LiveLink, HoldsAnswer;
    ReliableShape(states, steps);
    hide Run;
    RunShape(states, steps);
    RunStep(states, steps, i);
    var q, r := states[i].engines[e].op.request, steps[i].reply;
    EngineFacts(states[i], e);
    ClosedFacts(states[i], q);
    NoReplies(states, steps);
    j := ReplyGiven(states, steps, 0, i, r);
    var d, a := q.to, q.body.connection.id;
    RunIsSafe(states, steps, j);
    NewReply(states[j], steps[j], r);
    forall p | LiveLink(states[i], d, p, e, a)
      ensures HoldsAnswer(states[j + 1], d, e, a)
    {
      JustClosed(states[j], steps[j], states[j + 1], r, d);
      StaysClosed(states, steps, j + 1, i, d, p, q);
    }
  }

  lemma NoReplies(states: seq<System>, steps: seq<Step>)
    requires Run(states, steps)
    ensures states[0].replies == {}
  {
    hide Next;
  }

  /** Right after the handling nothing live is linked to the closed peer. */
  lemma JustClosed(s: System, step: Step, s': System, r: Reply, d: Endpoint)
    requires SafetyInv(s) && Next(s, step, s') && step.Deliver? && step.request.body.CloseCall? && step.request.to == d
    requires d in s.engines && r.answer.Done? && step.request.body.connection.endpoint == step.request.caller
    requires OnDeliver(s.engines[d], step.request, step.env).replies == {r}
    ensures step.request in s'.sent
    ensures forall p :: !LiveLink(s', d, p, step.request.caller, step.request.body.connection.id)
  {
    hide SafetyInv, HandleClose;
    EngineFacts(s, d);
    var n, c := s.engines[d].node, step.request.body.connection;
    var out := HandleClose(n, c, step.env);
    assert Reply(step.request, if out.result.Ok? then Done else Failed) == r;
    forall p | LiveLink(s', d, p, c.endpoint, c.id)
      ensures false
    {
      CloseClears(n, c, step.env, p);
      CloseKeepsHeap(n, c, step.env);
    }
  }

  lemma CloseKeepsHeap(n: Node, c: Connection, env: Env)
    requires WellKeyed(n)
    ensures HandleClose(n, c, env).node.heap == n.heap
  {
  }
}
