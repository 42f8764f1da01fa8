/** The reliable network: every operation in progress has a next step, and finishes after a number of
    steps fixed by what it still has to do. */
module ControlProgress {
  import opened Control
  import opened ControlNode
  import opened ControlSystem
  import opened ControlSafety
  import opened ControlSafetySteps
  import opened Options

  /** Remaining deliveries and returns of one engine's operation. */
  ghost function Remaining(s: System, e: Endpoint): nat
    requires e in s.engines
  {
    match s.engines[e].op
    case Idle => 0
    case ShuttingDown => 1
    case Connecting(q, _) => if Replied(s, q) then 3 else 4
    case Readying(q, _) => if Replied(s, q) then 1 else 2
    case Publishing(q, _, _, _, _, rest) => 2 * |rest| + if Replied(s, q) then 1 else 2
    case Disconnecting(q) => if Replied(s, q) then 1 else 2
  }

  predicate Begins(step: Step) {
    step.StartConnect? || step.StartPublish? || step.StartDisconnect? || step.StartClose?
  }

  /** The engine whose operation a continuing step advances. */
  function Advanced(step: Step): Endpoint {
    if step.Deliver? then step.request.caller else Actor(step)
  }

  /** A reply belongs to the operation of its caller alone. */
  lemma OwnRequest(s: System, e: Endpoint)
    requires SafetyInv(s) && e in s.engines
    ensures var op := s.engines[e].op;
            op != Idle && op != ShuttingDown ==> op.request.caller == e && op.request in s.sent
    ensures s.engines[e].node.endpoint == e
  {
    EngineFacts(s, e);
  }

  lemma DeliverAdvances(s: System, q: Request, env: Env, e: Endpoint)
    requires SafetyInv(s) && Reliable(s, Deliver(q, env)) && Lookups(s) && e in s.engines
    ensures var s' := Apply(s, Deliver(q, env));
            e in s'.engines && if e == q.caller then Remaining(s', e) < Remaining(s, e) else Remaining(s', e) == Remaining(s, e)
  {
    hide SafetyInv, HandleConnect, HandleReady, HandleChanged, HandleClose;
    var s' := Apply(s, Deliver(q, env));
    OwnRequest(s, e);
    var r :| r in s'.replies && r.request == q && s'.replies == s.replies + {r};
    assert s'.engines[e].op == s.engines[e].op;
    var op := s.engines[e].op;
    if op != Idle && op != ShuttingDown && e != q.caller {
      assert Replied(s', op.request) <==> Replied(s, op.request);
    }
  }

  lemma OwnAdvances(s: System, step: Step, e: Endpoint)
    requires SafetyInv(s) && Reliable(s, step) && Lookups(s) && e in s.engines
    requires step.EndClose? || step.Abandon? || step.Return?
    ensures var s' := Apply(s, step);
            e in s'.engines && if e == step.e then Remaining(s', e) < Remaining(s, e) else Remaining(s', e) == Remaining(s, e)
  {
    hide SafetyInv, LinkConnect, FinishConnect;
    var s' := Apply(s, step);
    OwnRequest(s, step.e);
    assert s'.replies == s.replies;
    if e == step.e {
      if step.Return? {
        assert Replied(s, s.engines[e].op.request);
      }
      var op' := s'.engines[e].op;
      if op' != Idle {
        FreshUnanswered(s, e, op'.request);
      }
    }
  }

  /** Every step that starts nothing strictly advances exactly one engine's operation. */
  lemma EveryStepAdvances(s: System, step: Step, e: Endpoint)
    requires SafetyInv(s) && Reliable(s, step) && !Begins(step) && Lookups(s) && e in s.engines
    ensures Advanced(step) in s.engines
    ensures var s' := Apply(s, step);
            && s'.engines.Keys == s.engines.Keys
            && if e == Advanced(step) then Remaining(s', e) < Remaining(s, e) else Remaining(s', e) == Remaining(s, e)
  {
    if step.Deliver? {
      DeliverAdvances(s, step.request, step.env, e);
    } else {
      OwnAdvances(s, step, e);
    }
  }

  // ----- No deadlock -----------------------------------------------------------------------

  lemma UnusedNumber(used: set<nat>) returns (n: nat)
    ensures n != 0 && n !in used
    ensures forall m <- used :: m < n
    decreases |used|
  {
    if used == {} {
      n := 1;
    } else {
      var u :| u in used;
      var rest := used - {u};
      var k := UnusedNumber(rest);
      n := if u < k then k else u + 1;
      forall m <- used
        ensures m < n
      {
        assert m == u || m in rest;
      }
    }
  }

  /** The native engine and uuid4 can always name a new peer. */
  lemma SomeEnv(n: Node) returns (env: Env)
    ensures Fresh(n, env)
  {
    var id := UnusedNumber(n.heap.Keys);
    var handle := UnusedNumber(n.native.qps.Keys);
    env := Env(id, handle, 0, true, true, true, None);
  }

  /** An operation in progress is never stuck: its request can be delivered, its reply returned, or,
      if nobody listens at its target, its call fails. */
  lemma NoDeadlock(s: System, e: Endpoint) returns (step: Step)
    requires SafetyInv(s) && e in s.engines && s.engines[e].op != Idle
    ensures Reliable(s, step) && !Begins(step) && Advanced(step) == e
  {
    hide SafetyInv;
    OwnRequest(s, e);
    var op := s.engines[e].op;
    if op == ShuttingDown {
      step := EndClose(e, true);
    } else if Replied(s, op.request) {
      var r :| r in s.replies && r.request == op.request;
      var env := SomeEnv(s.engines[e].node);
      step := Return(e, r, env);
    } else if op.request.to in s.engines {
      var env := SomeEnv(s.engines[op.request.to].node);
      step := Deliver(op.request, env);
    } else {
      step := Abandon(e);
    }
  }

  // ----- Bounded continuation --------------------------------------------------------------

  /** The work left in the engines of a set. */
  ghost function Work(s: System, engines: set<Endpoint>): nat
    requires engines <= s.engines.Keys
  {
    if engines == {} then 0
    else
      var e :| e in engines;
      Remaining(s, e) + Work(s, engines - {e})
  }

  lemma {:induction false} WorkWithout(s: System, engines: set<Endpoint>, e: Endpoint)
    requires engines <= s.engines.Keys && e in engines
    ensures Work(s, engines) == Remaining(s, e) + Work(s, engines - {e})
    decreases |engines|
  {
    var d :| d in engines && Work(s, engines) == Remaining(s, d) + Work(s, engines - {d});
    if d != e {
      WorkWithout(s, engines - {d}, e);
      WorkWithout(s, engines - {e}, d);
      assert engines - {d} - {e} == engines - {e} - {d};
    }
  }

  lemma {:induction false} WorkSame(s: System, s': System, engines: set<Endpoint>)
    requires engines <= s.engines.Keys && engines <= s'.engines.Keys
    requires forall e <- engines :: Remaining(s', e) == Remaining(s, e)
    ensures Work(s', engines) == Work(s, engines)
    decreases |engines|
  {
    if engines != {} {
      var e :| e in engines;
      WorkWithout(s, engines, e);
      WorkWithout(s', engines, e);
      WorkSame(s, s', engines - {e});
    }
  }

  lemma WorkDecreases(s: System, step: Step)
    requires SafetyInv(s) && Reliable(s, step) && !Begins(step) && Lookups(s)
    ensures var s' := Apply(s, step);
            s'.engines.Keys == s.engines.Keys && Work(s', s.engines.Keys) < Work(s, s.engines.Keys)
  {
    hide SafetyInv, Reliable, Apply, Remaining, Lookups;
    ReliableEnabled(s, step);
    var s' := Apply(s, step);
    var e := Advanced(step);
    forall d <- s.engines
      ensures e in s.engines && s'.engines.Keys == s.engines.Keys
      ensures if d == e then Remaining(s', d) < Remaining(s, d) else Remaining(s', d) == Remaining(s, d)
    {
      EveryStepAdvances(s, step, d);
    }
    SomeEngine(s, step);
    WorkWithout(s, s.engines.Keys, e);
    WorkWithout(s', s.engines.Keys, e);
    WorkSame(s, s', s.engines.Keys - {e});
  }

  lemma SomeEngine(s: System, step: Step)
    requires Reliable(s, step)
    ensures Actor(step) in s.engines && Advanced(step) in s.engines
  {
  }

  /** One reliable step that starts nothing. */
  ghost predicate Continuing(s: System, step: Step, s': System) {
    Reliable(s, step) && !Begins(step) && Lookups(s) && s' == Apply(s, step)
  }

  ghost predicate Continues(states: seq<System>, steps: seq<Step>) {
    && |states| == |steps| + 1
    && forall i :: 0 <= i < |steps| ==> Continuing(states[i], steps[i], states[i + 1])
  }

  lemma ContinuingStep(s: System, step: Step, s': System)
    requires SafetyInv(s) && Continuing(s, step, s')
    ensures SafetyInv(s') && s'.engines.Keys == s.engines.Keys
    ensures Work(s', s.engines.Keys) < Work(s, s.engines.Keys)
  {
    hide SafetyInv, Reliable, Apply, Work, Lookups;
    ReliableEnabled(s, step);
    StepKeepsSafety(s, step);
    WorkDecreases(s, step);
  }

  /** However the steps interleave, the operations in progress finish within the work they had. */
  lemma {:induction false} ContinuationIsBounded(states: seq<System>, steps: seq<Step>)
    requires Continues(states, steps) && SafetyInv(states[0])
    ensures SafetyInv(states[|steps|])
    ensures states[|steps|].engines.Keys == states[0].engines.Keys
    ensures |steps| + Work(states[|steps|], states[0].engines.Keys) <= Work(states[0], states[0].engines.Keys)
    decreases |steps|
  {
    if steps != [] {
      var n := |steps| - 1;
      hide SafetyInv, Continuing, Work;
      assert Continues(states[..n + 1], steps[..n]);
      ContinuationIsBounded(states[..n + 1], steps[..n]);
      assert states[..n + 1][n] == states[n];
      ContinuingStep(states[n], steps[n], states[n + 1]);
    }
  }

  lemma ReliableEnabled(s: System, step: Step)
    requires Reliable(s, step)
    ensures Enabled(s, step)
  {
  }

  /** When no work is left, every operation has returned or raised. */
  lemma NoWorkLeft(s: System, e: Endpoint)
    requires e in s.engines && Work(s, s.engines.Keys) == 0
    ensures s.engines[e].op == Idle
  {
    WorkWithout(s, s.engines.Keys, e);
  }
}
