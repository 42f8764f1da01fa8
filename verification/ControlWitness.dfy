/** Three concrete runs of two engines: what the code does not promise, and why the network matters.

    The first two open the same way. Engine 1 offers its peer 10, engine 2 answers with its peer 20,
    engine 1 connects to it and sends Ready. In the third, engine 2's native connect fails at first. */
module ControlWitness {
  import opened Control
  import opened ControlSystem
  import opened ControlSafety
  import opened ControlFaultFree
  import opened ControlTheorems
  import opened Options

  function Names1(): Env { Env(10, 100, 1000, true, true, true, None) }
  function Names2(): Env { Env(20, 200, 2000, true, true, true, None) }
  function Names3(): Env { Env(30, 300, 3000, true, true, true, None) }

  function Empty(e: Endpoint): Node {
    Node(e, false, map[], map[], [], [], Native(map[], false, false))
  }

  function Knowing(e: Endpoint, p: Peer, qp: Qp): Node {
    Node(e, false, map[p.endpoint := p.connectionId], map[p.connectionId := p], [], [], Native(map[p.handle := qp], false, false))
  }

  function OfferCall(): Request { Request(1, 0, 2, ConnectCall(Offer(Connection(1, 10), 1000))) }
  function Answer2(): Reply { Reply(OfferCall(), Offered(Offer(Connection(2, 20), 2000))) }
  function ReadyRequest(): Request { Request(1, 1, 2, ReadyCall(Update(Connection(1, 10), Snapshot(0, [])))) }

  function Offering(): Node {
    Knowing(1, Peer(100, 2, 1000, 10, 0, CREATED, -1), Qp(Phase.Initial, 1000, 0, {}, false, 0))
  }

  function Linked1(): Node {
    Knowing(1, Peer(100, 2, 1000, 10, 20, CONNECTED, -1), Qp(Joined, 1000, 2000, {}, false, 1))
  }

  function Linked2(): Node {
    Knowing(2, Peer(200, 1, 2000, 20, 10, CONNECTED, -1), Qp(Joined, 2000, 1000, {}, false, 1))
  }

  function Ready2(): Node {
    Knowing(2, Peer(200, 1, 2000, 20, 10, READY, 0), Qp(Joined, 2000, 1000, {}, false, 1))
  }

  function Two(g1: Engine, g2: Engine, sent: set<Request>, replies: set<Reply>): System {
    System(map[1 := g1, 2 := g2], sent, replies)
  }

  lemma Installs(g1: Engine, g2: Engine, sent: set<Request>, replies: set<Reply>, effect: Effect)
    ensures var s := Two(g1, g2, sent, replies);
            && Install(s, 1, effect) == Two(effect.engine, g2, sent + effect.sent, replies + effect.replies)
            && Install(s, 2, effect) == Two(g1, effect.engine, sent + effect.sent, replies + effect.replies)
  {
  }

  function S0(): System { Two(Engine(Empty(1), Idle, 0, false), Engine(Empty(2), Idle, 0, false), {}, {}) }

  function S1(): System {
    Two(Engine(Offering(), Connecting(OfferCall(), 10), 1, false), Engine(Empty(2), Idle, 0, false), {OfferCall()}, {})
  }

  function S2(): System {
    Two(Engine(Offering(), Connecting(OfferCall(), 10), 1, false), Engine(Linked2(), Idle, 0, false), {OfferCall()}, {Answer2()})
  }

  function Waiting1(): Engine { Engine(Linked1(), Readying(ReadyRequest(), 10), 2, false) }

  function S3(): System {
    Two(Waiting1(), Engine(Linked2(), Idle, 0, false), {OfferCall(), ReadyRequest()}, {Answer2()})
  }

  lemma Step1()
    ensures FaultFree(S0(), StartConnect(1, 2, Names1())) && Next(S0(), StartConnect(1, 2, Names1()), S1())
  {
    var effect := OnStartConnect(S0().engines[1], 2, Names1());
    assert effect == Effect(S1().engines[1], {OfferCall()}, {}, None);
    assert Install(S0(), 1, effect) == S1();
  }

  lemma Step2()
    ensures FaultFree(S1(), Deliver(OfferCall(), Names2())) && Next(S1(), Deliver(OfferCall(), Names2()), S2())
  {
    var effect := OnDeliver(S1().engines[2], OfferCall(), Names2());
    assert effect.engine.node == Linked2();
    assert Install(S1(), 2, effect) == S2();
  }

  lemma Links1()
    ensures var offer := Offer(Connection(2, 20), 2000);
            LinkConnect(Offering(), 10, offer, Names3()) == Outcome(Linked1(), Ok(Update(Connection(1, 10), Snapshot(0, []))))
  {
    assert LinkConnect(Offering(), 10, Offer(Connection(2, 20), 2000), Names3()).node == Linked1();
  }

  lemma Readies2()
    ensures HandleReady(Linked2(), Update(Connection(1, 10), Snapshot(0, [])), Names3()) == Outcome(Ready2(), Ok(Snapshot(0, [])))
  {
    assert HandleReady(Linked2(), Update(Connection(1, 10), Snapshot(0, [])), Names3()).node == Ready2();
  }

  lemma Step3Allowed()
    ensures FaultFree(S2(), Return(1, Answer2(), Names3()))
    ensures Enabled(S2(), Return(1, Answer2(), Names3())) && Lookups(S2())
  {
    hide LinkConnect;
  }

  lemma Step3()
    ensures FaultFree(S2(), Return(1, Answer2(), Names3())) && Next(S2(), Return(1, Answer2(), Names3()), S3())
  {
    hide FaultFree, Enabled, Lookups, OnReturn;
    Step3Allowed();
    Effect3();
    assert Install(S2(), 1, OnReturn(S2().engines[1], Answer2().answer, Names3())) == S3();
  }

  lemma Effect3()
    ensures OnReturn(S2().engines[1], Answer2().answer, Names3()) == Effect(Waiting1(), {ReadyRequest()}, {}, None)
  {
    hide LinkConnect;
    Links1();
  }

  // ----- connect() may return before the other end is READY ---------------------------------

  function Shared2(): Reply { Reply(ReadyRequest(), Shared(Snapshot(0, []))) }

  function S4(): System {
    Two(Waiting1(), Engine(Ready2(), Idle, 0, false), {OfferCall(), ReadyRequest()}, {Answer2(), Shared2()})
  }

  lemma Step4()
    ensures FaultFree(S3(), Deliver(ReadyRequest(), Names3())) && Next(S3(), Deliver(ReadyRequest(), Names3()), S4())
  {
    hide HandleReady;
    Readies2();
    var effect := OnDeliver(S3().engines[2], ReadyRequest(), Names3());
    assert Install(S3(), 2, effect) == S4();
  }

  /** In a fault-free run a connect that reuses a READY peer can return while the other end is only
      CONNECTED: engine 1 has not yet received the reply that made engine 2's peer READY. */
  lemma ReuseBeforeFarIsReady() returns (states: seq<System>, steps: seq<Step>)
    ensures FaultFreeRun(states, steps) && states[|steps|] == S4()
    ensures S4().engines[2].op == Idle && WellKeyed(S4().engines[2].node)
    ensures BeginConnect(S4().engines[2].node, 1, Names3()).result == Ok(Reuse(200))
    ensures Mutual(S4(), 2, 20) && Far(S4(), 2, 20).state == CONNECTED
  {
    Step1(); Step2(); Step3(); Step4();
    StartsEmpty();
    Reuses();
    hide *;
    states := [S0(), S1(), S2(), S3(), S4()];
    steps := [StartConnect(1, 2, Names1()), Deliver(OfferCall(), Names2()), Return(1, Answer2(), Names3()),
              Deliver(ReadyRequest(), Names3())];
    RunOfFour(states, steps);
  }

  lemma StartsEmpty()
    ensures Starts(S0()) && 0 !in S0().engines
  {
  }

  lemma Reuses()
    ensures S4().engines[2].op == Idle && WellKeyed(S4().engines[2].node)
    ensures BeginConnect(S4().engines[2].node, 1, Names3()).result == Ok(Reuse(200))
    ensures Mutual(S4(), 2, 20) && Far(S4(), 2, 20).state == CONNECTED
  {
  }

  lemma RunOfFour(states: seq<System>, steps: seq<Step>)
    requires |steps| == 4 && |states| == 5 && Starts(states[0]) && 0 !in states[0].engines
    requires Next(states[0], steps[0], states[1]) && Next(states[1], steps[1], states[2])
    requires Next(states[2], steps[2], states[3]) && Next(states[3], steps[3], states[4])
    requires FaultFree(states[0], steps[0]) && FaultFree(states[1], steps[1])
    requires FaultFree(states[2], steps[2]) && FaultFree(states[3], steps[3])
    ensures FaultFreeRun(states, steps)
  {
    hide Next, FaultFree, Starts;
  }

  // ----- READY is not mutual on the hostile network -----------------------------------------

  function CloseRequest(): Request { Request(2, 0, 1, CloseCall(Connection(2, 20))) }

  function Dead2(): Peer { Peer(200, 1, 2000, 20, 10, CONNECTED, -1) }

  function Gone2(): Node {
    Node(2, false, map[], map[20 := Dead2()], [], [],
         Native(map[200 := Qp(Destroyed, 2000, 1000, {}, false, 1)], false, false))
  }

  function Again2(state: PeerState, version: int): Node {
    Node(2, false, map[1 := 30], map[20 := Dead2(), 30 := Peer(300, 1, 3000, 30, 10, state, version)], [], [],
         Native(map[200 := Qp(Destroyed, 2000, 1000, {}, false, 1), 300 := Qp(Joined, 3000, 1000, {}, false, 1)], false, false))
  }

  function Answer3(): Reply { Reply(OfferCall(), Offered(Offer(Connection(2, 30), 3000))) }

  function H4(): System {
    Two(Waiting1(), Engine(Gone2(), Disconnecting(CloseRequest()), 1, false),
        {OfferCall(), ReadyRequest(), CloseRequest()}, {Answer2()})
  }

  function H5(): System {
    Two(Waiting1(), Engine(Again2(CONNECTED, -1), Disconnecting(CloseRequest()), 1, false),
        {OfferCall(), ReadyRequest(), CloseRequest()}, {Answer2(), Answer3()})
  }

  function H6(): System {
    Two(Waiting1(), Engine(Again2(READY, 0), Disconnecting(CloseRequest()), 1, false),
        {OfferCall(), ReadyRequest(), CloseRequest()}, {Answer2(), Answer3(), Shared2()})
  }

  lemma Disconnects2()
    ensures WellKeyed(Linked2()) && BeginDisconnect(Linked2(), 200, Names3()) == Outcome(Gone2(), Ok(Connection(1, 20)))
  {
    assert HasHandle(Linked2(), 1, 200);
    assert forall e :: HasHandle(Linked2(), e, 200) ==> e == 1;
    var out := DisconnectAt(Linked2(), 1, Names3());
    assert out.node.peers == map[];
    assert out.node == Gone2();
  }

  lemma Hostile4Allowed()
    ensures Enabled(S3(), StartDisconnect(2, 200, Names3())) && Lookups(S3())
  {
  }

  lemma Hostile4()
    ensures Next(S3(), StartDisconnect(2, 200, Names3()), H4())
  {
    hide BeginDisconnect;
    Hostile4Allowed();
    Disconnects2();
    var effect := OnStartDisconnect(S3().engines[2], 200, Names3());
    assert effect == Effect(H4().engines[2], {CloseRequest()}, {}, None);
    hide Lookups, OnStartDisconnect, Install;
    Installs(S3().engines[1], S3().engines[2], S3().sent, S3().replies, effect);
  }

  function Names4(): Env { Env(40, 400, 4000, true, true, true, None) }

  lemma Relinks2()
    ensures HandleConnect(Gone2(), Offer(Connection(1, 10), 1000), Names3())
            == Outcome(Again2(CONNECTED, -1), Ok(Offer(Connection(2, 30), 3000)))
  {
    assert HandleConnect(Gone2(), Offer(Connection(1, 10), 1000), Names3()).node == Again2(CONNECTED, -1);
  }

  lemma ReReadies2()
    ensures WellKeyed(Again2(CONNECTED, -1))
    ensures HandleReady(Again2(CONNECTED, -1), Update(Connection(1, 10), Snapshot(0, [])), Names4())
            == Outcome(Again2(READY, 0), Ok(Snapshot(0, [])))
  {
    assert HandleReady(Again2(CONNECTED, -1), Update(Connection(1, 10), Snapshot(0, [])), Names4()).node == Again2(READY, 0);
  }

  lemma Hostile5()
    ensures Next(H4(), Deliver(OfferCall(), Names3()), H5())
  {
    hide HandleConnect;
    Relinks2();
    var effect := OnDeliver(H4().engines[2], OfferCall(), Names3());
    assert Install(H4(), 2, effect) == H5();
  }

  lemma Hostile6Allowed()
    ensures Enabled(H5(), Deliver(ReadyRequest(), Names4())) && Lookups(H5())
  {
    ReReadies2();
  }

  lemma Effect6()
    ensures WellKeyed(Again2(CONNECTED, -1))
    ensures OnDeliver(H5().engines[2], ReadyRequest(), Names4())
            == Effect(Engine(Again2(READY, 0), Disconnecting(CloseRequest()), 1, false), {}, {Shared2()}, None)
  {
    hide HandleReady;
    ReReadies2();
  }

  lemma Hostile6()
    ensures Next(H5(), Deliver(ReadyRequest(), Names4()), H6())
  {
    hide Enabled, Lookups, OnDeliver;
    Hostile6Allowed();
    Effect6();
    assert Install(H5(), 2, OnDeliver(H5().engines[2], ReadyRequest(), Names4())) == H6();
  }

  /** A duplicated Connect and a late Ready make a re-created peer READY although its counterpart is
      linked to the peer it replaced. */
  lemma ReadyWithoutMutual() returns (states: seq<System>, steps: seq<Step>)
    ensures Run(states, steps) && states[|steps|] == H6()
    ensures Live(H6().engines[2].node, 30) && H6().engines[2].node.heap[30].state == READY
    ensures H6().engines[2].node.heap[30].remoteId == 10 && Live(H6().engines[1].node, 10)
    ensures H6().engines[1].node.heap[10].remoteId == 20 && !Mutual(H6(), 2, 30)
  {
    Step1(); Step2(); Step3(); Hostile4(); Hostile5(); Hostile6();
    StartsEmpty();
    NotMutual();
    hide *;
    states := [S0(), S1(), S2(), S3(), H4(), H5(), H6()];
    steps := [StartConnect(1, 2, Names1()), Deliver(OfferCall(), Names2()), Return(1, Answer2(), Names3()),
              StartDisconnect(2, 200, Names3()), Deliver(OfferCall(), Names3()), Deliver(ReadyRequest(), Names4())];
    RunOfSix(states, steps);
  }

  lemma NotMutual()
    ensures Live(H6().engines[2].node, 30) && H6().engines[2].node.heap[30].state == READY
    ensures H6().engines[2].node.heap[30].remoteId == 10 && Live(H6().engines[1].node, 10)
    ensures H6().engines[1].node.heap[10].remoteId == 20 && !Mutual(H6(), 2, 30)
  {
  }

  lemma RunOfSix(states: seq<System>, steps: seq<Step>)
    requires |steps| == 6 && |states| == 7 && Starts(states[0])
    requires Next(states[0], steps[0], states[1]) && Next(states[1], steps[1], states[2])
    requires Next(states[2], steps[2], states[3]) && Next(states[3], steps[3], states[4])
    requires Next(states[4], steps[4], states[5]) && Next(states[5], steps[5], states[6])
    ensures Run(states, steps)
  {
    hide Next, Starts;
  }

  // ----- A failed native connect is tried again on the same handle --------------------------

  /** Native connect fails. */
  function Refusal2(): Env { Env(20, 200, 2000, true, false, true, None) }

  function Refused2(): Node {
    Knowing(2, Peer(200, 1, 2000, 20, 0, CREATED, -1), Qp(Faulted, 2000, 0, {}, false, 1))
  }

  function Retried2(): Node {
    Knowing(2, Peer(200, 1, 2000, 20, 10, CONNECTED, -1), Qp(Joined, 2000, 1000, {}, false, 2))
  }

  function OfferAgain(): Request { Request(1, 1, 2, ConnectCall(Offer(Connection(1, 10), 1000))) }
  function Refusal(): Reply { Reply(OfferCall(), Failed) }
  function AnswerAgain(): Reply { Reply(OfferAgain(), Offered(Offer(Connection(2, 20), 2000))) }

  function R2(): System {
    Two(Engine(Offering(), Connecting(OfferCall(), 10), 1, false), Engine(Refused2(), Idle, 0, false), {OfferCall()}, {Refusal()})
  }

  function R3(): System {
    Two(Engine(Offering(), Idle, 1, true), Engine(Refused2(), Idle, 0, false), {OfferCall()}, {Refusal()})
  }

  function R4(): System {
    Two(Engine(Offering(), Connecting(OfferAgain(), 10), 2, true), Engine(Refused2(), Idle, 0, false),
        {OfferCall(), OfferAgain()}, {Refusal()})
  }

  function R5(): System {
    Two(Engine(Offering(), Connecting(OfferAgain(), 10), 2, true), Engine(Retried2(), Idle, 0, false),
        {OfferCall(), OfferAgain()}, {Refusal(), AnswerAgain()})
  }

  lemma Refuses2()
    ensures HandleConnect(Empty(2), Offer(Connection(1, 10), 1000), Refusal2()) == Outcome(Refused2(), Raised(NativeFailure))
  {
    assert HandleConnect(Empty(2), Offer(Connection(1, 10), 1000), Refusal2()).node == Refused2();
  }

  lemma Retries2()
    ensures WellKeyed(Refused2())
    ensures HandleConnect(Refused2(), Offer(Connection(1, 10), 1000), Names3())
            == Outcome(Retried2(), Ok(Offer(Connection(2, 20), 2000)))
  {
    assert HandleConnect(Refused2(), Offer(Connection(1, 10), 1000), Names3()).node == Retried2();
  }

  lemma Retry2()
    ensures Reliable(S1(), Deliver(OfferCall(), Refusal2())) && Next(S1(), Deliver(OfferCall(), Refusal2()), R2())
  {
    hide HandleConnect;
    Refuses2();
    var effect := OnDeliver(S1().engines[2], OfferCall(), Refusal2());
    assert Install(S1(), 2, effect) == R2();
  }

  lemma Retry3Allowed()
    ensures Reliable(R2(), Return(1, Refusal(), Names3())) && Lookups(R2())
  {
  }

  lemma Retry3()
    ensures Reliable(R2(), Return(1, Refusal(), Names3())) && Next(R2(), Return(1, Refusal(), Names3()), R3())
  {
    Retry3Allowed();
    var effect := OnReturn(R2().engines[1], Failed, Names3());
    assert effect == Effect(R3().engines[1], {}, {}, None);
    hide Reliable, Lookups, OnReturn, Install;
    Installs(R2().engines[1], R2().engines[2], R2().sent, R2().replies, effect);
  }

  lemma BeginsAgain()
    ensures BeginConnect(Offering(), 2, Names3()) == Outcome(Offering(), Ok(SendOffer(10, Offer(Connection(1, 10), 1000))))
  {
  }

  lemma Retry4Allowed()
    ensures Reliable(R3(), StartConnect(1, 2, Names3())) && Lookups(R3())
  {
  }

  lemma Retry4()
    ensures Reliable(R3(), StartConnect(1, 2, Names3())) && Next(R3(), StartConnect(1, 2, Names3()), R4())
  {
    hide BeginConnect;
    Retry4Allowed();
    BeginsAgain();
    var effect := OnStartConnect(R3().engines[1], 2, Names3());
    assert effect == Effect(R4().engines[1], {OfferAgain()}, {}, None);
    hide Reliable, Lookups, OnStartConnect, Install;
    Installs(R3().engines[1], R3().engines[2], R3().sent, R3().replies, effect);
  }

  lemma Retry5Allowed()
    ensures Reliable(R4(), Deliver(OfferAgain(), Names3())) && Lookups(R4())
  {
  }

  lemma Retry5()
    ensures Reliable(R4(), Deliver(OfferAgain(), Names3())) && Next(R4(), Deliver(OfferAgain(), Names3()), R5())
  {
    hide HandleConnect;
    Retry5Allowed();
    Retries2();
    var effect := OnDeliver(R4().engines[2], OfferAgain(), Names3());
    assert effect == Effect(R5().engines[2], {}, {AnswerAgain()}, None);
    hide Reliable, Lookups, OnDeliver, Install;
    Installs(R4().engines[1], R4().engines[2], R4().sent, R4().replies, effect);
  }

  /** On the reliable network one native failure is enough: the refused peer stays CREATED and live, and the
      next connect call of the other side has native connect called on the same handle again. */
  lemma FailedConnectIsRetried() returns (states: seq<System>, steps: seq<Step>)
    ensures ReliableRun(states, steps) && states[|steps|] == R5()
    ensures R5().engines[2].node.heap[20].handle == 200 && R5().engines[2].node.native.qps[200].connects == 2
  {
    Step1(); Retry2(); Retry3(); Retry4(); Retry5();
    StartsEmpty();
    FirstIsReliable();
    hide *;
    states := [S0(), S1(), R2(), R3(), R4(), R5()];
    steps := [StartConnect(1, 2, Names1()), Deliver(OfferCall(), Refusal2()), Return(1, Refusal(), Names3()),
              StartConnect(1, 2, Names3()), Deliver(OfferAgain(), Names3())];
    RunOfFive(states, steps);
  }

  lemma FirstIsReliable()
    ensures Reliable(S0(), StartConnect(1, 2, Names1()))
    ensures R5().engines[2].node.heap[20].handle == 200 && R5().engines[2].node.native.qps[200].connects == 2
  {
  }

  lemma RunOfFive(states: seq<System>, steps: seq<Step>)
    requires |steps| == 5 && |states| == 6 && Starts(states[0])
    requires Next(states[0], steps[0], states[1]) && Next(states[1], steps[1], states[2])
    requires Next(states[2], steps[2], states[3]) && Next(states[3], steps[3], states[4])
    requires Next(states[4], steps[4], states[5])
    requires Reliable(states[0], steps[0]) && Reliable(states[1], steps[1]) && Reliable(states[2], steps[2])
    requires Reliable(states[3], steps[3]) && Reliable(states[4], steps[4])
    ensures ReliableRun(states, steps)
  {
    hide Next, Reliable, Starts;
  }
}
