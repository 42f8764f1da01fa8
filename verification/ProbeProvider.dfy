/** The converse: against a provider that completes every signaled request on an RC queue pair
    successfully and in queue order, the probe never reports a completion error, and completed falls
    short of posted exactly when no signaled request follows some WRITE. */
module ProbeProvider {
  import opened Probe
  import opened ProbeLedger
  import opened ProbeRefinement
  import opened ProbeTheorems
  import opened ProbeEvidence

  /** What a provider owes on one queue pair: the ids of signaled requests not completed yet. */
  datatype Owed = Owed(qp: QueuePair, signalAll: bool, ids: seq<nat>)

  type Provider = map<nat, Owed>

  function SignaledIds(wrs: seq<SendWr>, signalAll: bool): seq<nat> {
    if wrs == [] then []
    else
      var last := wrs[|wrs| - 1];
      SignaledIds(wrs[..|wrs| - 1], signalAll) + if signalAll || last.signaled then [last.id] else []
  }

  predicate Addresses(v: Provider, cq: nat, number: nat, a: nat) {
    a in v && v[a].qp.sendCq == cq && v[a].qp.number == number
  }

  /** On an RC queue pair, a success CQE for its oldest signaled request, or a receive. What arrives on
      queue pairs of other types is left open: the probe looks at RC only. */
  ghost predicate Honest(v: Provider, cq: nat, wc: Completion) {
    forall a :: Addresses(v, cq, wc.number, a) && v[a].qp.rc ==>
                  wc.success && (wc.recv || (v[a].ids != [] && v[a].ids[0] == wc.id))
  }

  ghost function Deliver(v: Provider, cq: nat, wc: Completion): Provider {
    if wc.recv || !exists a :: Addresses(v, cq, wc.number, a) then v
    else
      var a :| Addresses(v, cq, wc.number, a);
      v[a := v[a].(ids := if v[a].ids == [] then [] else v[a].ids[1..])]
  }

  ghost predicate HonestBatch(v: Provider, cq: nat, wcs: seq<Completion>) {
    wcs == [] || (HonestBatch(v, cq, wcs[..|wcs| - 1])
                  && Honest(DeliverAll(v, cq, wcs[..|wcs| - 1]), cq, wcs[|wcs| - 1]))
  }

  ghost function DeliverAll(v: Provider, cq: nat, wcs: seq<Completion>): Provider {
    if wcs == [] then v else Deliver(DeliverAll(v, cq, wcs[..|wcs| - 1]), cq, wcs[|wcs| - 1])
  }

  /** Live queue pairs have distinct addresses, and distinct numbers on one send CQ; a pointer
      always means the queue pair that was created with it; a poll fails at most while no WRITE is
      outstanding, as the ledger `l` of the measurement so far counts them. */
  ghost predicate Allowed(v: Provider, l: Ledger, e: Event) {
    match e
    case Create(qp, _, _) => qp.address !in v && forall a :: !Addresses(v, qp.sendCq, qp.number, a)
    case Destroy(_) => true
    case Observe(_) => false
    case Post(qp, _, _, _) => qp.address in v ==> v[qp.address].qp == qp
    case Poll(cq, _, Failed) => Sum(l.queues, OutstandingOf) == 0
    case Poll(cq, _, Entries(wcs)) => HonestBatch(v, cq, wcs)
  }

  ghost function Serve(v: Provider, e: Event): Provider {
    match e
    case Create(qp, _, signalAll) => v[qp.address := Owed(qp, signalAll, [])]
    case Destroy(address) => v - {address}
    case Observe(_) => v
    case Post(qp, wrs, failed, bad) =>
      if qp.address !in v then v
      else
        var o := v[qp.address];
        v[qp.address := o.(ids := o.ids + SignaledIds(wrs[..Accepted(wrs, failed, bad)], o.signalAll))]
    case Poll(cq, _, Failed) => v
    case Poll(cq, _, Entries(wcs)) => DeliverAll(v, cq, wcs)
  }

  ghost predicate HonestRun(v: Provider, p: Probe, body: seq<Event>) {
    body == [] ||
    var init := body[..|body| - 1];
    HonestRun(v, p, init) && Allowed(Served(v, init), Record(p, init), body[|body| - 1])
  }

  ghost function Served(v: Provider, body: seq<Event>): Provider {
    if body == [] then v else Serve(Served(v, body[..|body| - 1]), body[|body| - 1])
  }

  /** Before a measurement: the probe observes exactly the provider's queue pairs, and nothing
      signaled is outstanding on any of them. */
  ghost predicate Quiet(v: Provider, tracks: seq<Track>) {
    && Distinct(QpsOf(tracks))
    && (forall a <- v :: v[a].ids == [] && exists i :: 0 <= i < |tracks| && tracks[i].qp == v[a].qp && v[a].qp.address == a)
    && (forall i :: 0 <= i < |tracks| ==>
          tracks[i].qp.address in v && v[tracks[i].qp.address] == Owed(tracks[i].qp, tracks[i].signalAll, []))
  }

  ghost predicate Distinct(qps: seq<QueuePair>) {
    forall i, j :: 0 <= i < j < |qps| ==>
      qps[i].address != qps[j].address && (qps[i].sendCq != qps[j].sendCq || qps[i].number != qps[j].number)
  }

  // ----- The provider and the ledger agree -------------------------------------------------

  function WaitingIds(es: seq<Entry>): seq<nat> {
    if es == [] then []
    else
      var last := es[|es| - 1];
      WaitingIds(es[..|es| - 1]) + if last.signaled then [last.id] else []
  }

  lemma WaitingAppend(es: seq<Entry>, e: Entry)
    ensures WaitingIds(es + [e]) == WaitingIds(es) + if e.signaled then [e.id] else []
  {
    assert (es + [e])[..|es + [e]| - 1] == es;
  }

  lemma NoWaiting()
    ensures WaitingIds([]) == []
  {
  }

  ghost predicate HeadsWaiting(es: seq<Entry>) {
    var j := FirstSignaled(es);
    if j == |es| then WaitingIds(es) == [] else WaitingIds(es) == [es[j].id] + WaitingIds(es[j + 1..])
  }

  lemma HeadsWaitingAppend(es: seq<Entry>, e: Entry)
    requires HeadsWaiting(es)
    ensures HeadsWaiting(es + [e])
  {
    hide FirstSignaled, WaitingIds;
    FirstAppend(es, e);
    WaitingAppend(es, e);
    var j := FirstSignaled(es);
    if j < |es| {
      assert (es + [e])[j + 1..] == es[j + 1..] + [e];
      WaitingAppend(es[j + 1..], e);
    } else if e.signaled {
      assert (es + [e])[|es| + 1..] == [];
      NoWaiting();
    }
  }

  /** The ids owed are headed by the first signaled entry. */
  lemma {:induction false} WaitingPops(es: seq<Entry>)
    ensures HeadsWaiting(es)
  {
    if es != [] {
      WaitingPops(es[..|es| - 1]);
      HeadsWaitingAppend(es[..|es| - 1], es[|es| - 1]);
      assert es[..|es| - 1] + [es[|es| - 1]] == es;
    }
  }

  ghost predicate Matched(v: Provider, qs: seq<Queue>, i: nat)
    requires i < |qs|
  {
    var q := qs[i];
    && q.qp.address in v
    && var o := v[q.qp.address];
    && o.qp == q.qp && o.signalAll == q.signalAll
    && (if q.qp.rc then o.ids == WaitingIds(q.waiting) else q.waiting == [])
  }

  ghost predicate InStep(v: Provider, l: Ledger) {
    && l.faults == 0
    && Distinct(QueuePairs(l.queues))
    && (forall a <- v :: exists i :: 0 <= i < |l.queues| && l.queues[i].qp.address == a)
    && (forall i :: 0 <= i < |l.queues| ==> Matched(v, l.queues, i))
  }

  lemma EntriesSplit(wrs: seq<SendWr>, signalAll: bool, event: nat)
    requires wrs != []
    ensures var wr := wrs[|wrs| - 1];
            EntriesOf(wrs, signalAll, event) ==
            EntriesOf(wrs[..|wrs| - 1], signalAll, event) + [Entry(wr.id, wr.write, signalAll || wr.signaled, event, |wrs| - 1)]
  {
  }

  /** Recording requests and owing their ids are the same extension. */
  lemma {:induction false} EntriesOwed(es: seq<Entry>, wrs: seq<SendWr>, signalAll: bool, event: nat)
    ensures WaitingIds(es + EntriesOf(wrs, signalAll, event)) == WaitingIds(es) + SignaledIds(wrs, signalAll)
  {
    hide WaitingIds, EntriesOf;
    if wrs == [] {
      assert EntriesOf(wrs, signalAll, event) == [];
      assert es + [] == es;
    } else {
      var init, wr := wrs[..|wrs| - 1], wrs[|wrs| - 1];
      var e := Entry(wr.id, wr.write, signalAll || wr.signaled, event, |init|);
      EntriesOwed(es, init, signalAll, event);
      EntriesSplit(wrs, signalAll, event);
      assert es + (EntriesOf(init, signalAll, event) + [e]) == (es + EntriesOf(init, signalAll, event)) + [e];
      WaitingAppend(es + EntriesOf(init, signalAll, event), e);
    }
  }

  lemma PostInStep(v: Provider, l: Ledger, e: Event, event: nat)
    requires InStep(v, l) && e.Post? && Allowed(v, l, e)
    ensures InStep(Serve(v, e), Next(l, e, event)) && Next(l, e, event).gone == l.gone
  {
    hide WaitingIds, SignaledIds, Chain;
    var wrs := e.wrs[..Accepted(e.wrs, e.failed, e.bad)];
    ChainRecords(l, e.target, wrs, event);
    var l' := Next(l, e, event);
    var k := FindQp(QueuePairs(l.queues), e.target.address);
    if k < |l.queues| {
      var q, q' := l.queues[k], l'.queues[k];
      EntriesOwed(q.waiting, wrs, q.signalAll, event);
      assert Matched(v, l.queues, k);
      Swap(v, l, k, q', v[e.target.address].ids + SignaledIds(wrs, q.signalAll));
      assert l'.queues == l.queues[k := q'];
      OnlyQueues(Serve(v, e), l.(queues := l'.queues), l');
    } else {
      Unknown(v, l, e.target.address);
      OnlyQueues(v, l, l');
    }
  }

  lemma Unknown(v: Provider, l: Ledger, address: nat)
    requires InStep(v, l) && FindQp(QueuePairs(l.queues), address) == |l.queues|
    ensures address !in v
  {
    forall a | a in v
      ensures a != address
    {
      var i :| 0 <= i < |l.queues| && l.queues[i].qp.address == a;
      assert QueuePairs(l.queues)[i].address == a;
    }
  }

  lemma OnlyQueues(v: Provider, l: Ledger, l': Ledger)
    requires InStep(v, l) && l'.queues == l.queues && l'.faults == l.faults
    ensures InStep(v, l')
  {
  }

  lemma CompletedRc(v: Provider, l: Ledger, k: nat, wc: Completion, event: nat, index: nat)
    requires InStep(v, l) && k < |l.queues| && l.queues[k].qp.rc
    requires Matched(v, l.queues, k) && var ids := v[l.queues[k].qp.address].ids; ids != [] && ids[0] == wc.id
    ensures var q, a := l.queues[k], l.queues[k].qp.address;
            && Matches(q, wc.id)
            && InStep(v[a := v[a].(ids := v[a].ids[1..])], l.(queues := l.queues[k := Pop(q, FirstSignaled(q.waiting), event, index)]))
  {
    hide WaitingIds, FirstSignaled, InStep;
    var q := l.queues[k];
    WaitingPops(q.waiting);
    Swap(v, l, k, Pop(q, FirstSignaled(q.waiting), event, index), v[q.qp.address].ids[1..]);
  }

  lemma CompletedOther(v: Provider, l: Ledger, k: nat, ids: seq<nat>)
    requires InStep(v, l) && k < |l.queues| && !l.queues[k].qp.rc && Matched(v, l.queues, k)
    ensures var a := l.queues[k].qp.address; InStep(v[a := v[a].(ids := ids)], l)
  {
    hide InStep;
    Swap(v, l, k, l.queues[k], ids);
    assert l.queues[k := l.queues[k]] == l.queues;
  }

  lemma CompletedInStep(v: Provider, l: Ledger, cq: nat, wc: Completion, event: nat, index: nat)
    requires InStep(v, l) && Honest(v, cq, wc)
    ensures InStep(Deliver(v, cq, wc), Completed(l, cq, wc, event, index))
    ensures Completed(l, cq, wc, event, index).gone == l.gone
  {
    var k := FindNumber(QueuePairs(l.queues), cq, wc.number);
    if k < |l.queues| {
      var a := l.queues[k].qp.address;
      assert Matched(v, l.queues, k);
      OnlyOne(v, l, cq, wc.number, k);
      assert Addresses(v, cq, wc.number, a);
      hide InStep, Matches, FirstSignaled, Pop, OutstandingOf;
      if l.queues[k].qp.rc {
        if !wc.recv {
          CompletedRc(v, l, k, wc, event, index);
        }
      } else if !wc.recv {
        CompletedOther(v, l, k, if v[a].ids == [] then [] else v[a].ids[1..]);
      }
    } else {
      NoneAddressed(v, l, cq, wc.number);
    }
  }

  /** Replacing one queue and what is owed on it keeps the two sides in step. */
  lemma Swap(v: Provider, l: Ledger, k: nat, q: Queue, ids: seq<nat>)
    requires InStep(v, l) && k < |l.queues|
    requires q.qp == l.queues[k].qp && q.signalAll == l.queues[k].signalAll
    requires if q.qp.rc then ids == WaitingIds(q.waiting) else q.waiting == []
    ensures q.qp.address in v
    ensures InStep(v[q.qp.address := v[q.qp.address].(ids := ids)], l.(queues := l.queues[k := q]))
  {
    hide WaitingIds;
    assert Matched(v, l.queues, k);
    var v', qs := v[q.qp.address := v[q.qp.address].(ids := ids)], l.queues[k := q];
    assert QueuePairs(qs) == QueuePairs(l.queues);
    forall i | 0 <= i < |qs|
      ensures Matched(v', qs, i)
    {
      assert Matched(v, l.queues, i);
      if i != k {
        assert QueuePairs(l.queues)[i].address != QueuePairs(l.queues)[k].address;
      }
    }
    forall a | a in v'
      ensures exists i :: 0 <= i < |qs| && qs[i].qp.address == a
    {
      var i :| 0 <= i < |l.queues| && l.queues[i].qp.address == a;
      assert QueuePairs(qs)[i].address == a;
    }
  }

  lemma OnlyOne(v: Provider, l: Ledger, cq: nat, number: nat, k: nat)
    requires InStep(v, l) && k < |l.queues|
    requires l.queues[k].qp.sendCq == cq && l.queues[k].qp.number == number
    ensures forall a :: Addresses(v, cq, number, a) <==> a == l.queues[k].qp.address
  {
    assert Matched(v, l.queues, k);
    forall a | Addresses(v, cq, number, a)
      ensures a == l.queues[k].qp.address
    {
      var i :| 0 <= i < |l.queues| && l.queues[i].qp.address == a;
      assert Matched(v, l.queues, i);
      SameNumber(QueuePairs(l.queues), i, k);
    }
  }

  lemma SameNumber(qps: seq<QueuePair>, i: nat, k: nat)
    requires Distinct(qps) && i < |qps| && k < |qps|
    requires qps[i].sendCq == qps[k].sendCq && qps[i].number == qps[k].number
    ensures i == k
  {
  }

  lemma NoneAddressed(v: Provider, l: Ledger, cq: nat, number: nat)
    requires InStep(v, l) && FindNumber(QueuePairs(l.queues), cq, number) == |l.queues|
    ensures forall a :: !Addresses(v, cq, number, a)
  {
    forall a: nat
      ensures !Addresses(v, cq, number, a)
    {
      if a in v {
        var i :| 0 <= i < |l.queues| && l.queues[i].qp.address == a;
        assert Matched(v, l.queues, i);
        assert QueuePairs(l.queues)[i] == v[a].qp;
      }
    }
  }

  lemma {:induction false} BatchInStep(v: Provider, l: Ledger, cq: nat, wcs: seq<Completion>, event: nat)
    requires InStep(v, l) && HonestBatch(v, cq, wcs)
    ensures InStep(DeliverAll(v, cq, wcs), Batch(l, cq, wcs, event)) && Batch(l, cq, wcs, event).gone == l.gone
  {
    if wcs != [] {
      var init := wcs[..|wcs| - 1];
      BatchInStep(v, l, cq, init, event);
      CompletedInStep(DeliverAll(v, cq, init), Batch(l, cq, init, event), cq, wcs[|wcs| - 1], event, |wcs| - 1);
    }
  }

  lemma CreateInStep(v: Provider, l: Ledger, e: Event, event: nat)
    requires InStep(v, l) && e.Create? && Allowed(v, l, e)
    ensures InStep(Serve(v, e), Next(l, e, event))
  {
    hide WaitingIds;
    var l', v' := Next(l, e, event), Serve(v, e);
    NewMatched(v, l, e, v', l');
    NewDistinct(v, l, e);
    assert QueuePairs(l'.queues) == [e.qp] + QueuePairs(l.queues);
    forall a | a in v'
      ensures exists i :: 0 <= i < |l'.queues| && l'.queues[i].qp.address == a
    {
      if a == e.qp.address {
        assert l'.queues[0].qp.address == a;
      } else {
        var i :| 0 <= i < |l.queues| && l.queues[i].qp.address == a;
        assert l'.queues[i + 1].qp.address == a;
      }
    }
  }

  lemma NewMatched(v: Provider, l: Ledger, e: Event, v': Provider, l': Ledger)
    requires InStep(v, l) && e.Create? && e.qp.address !in v
    requires v' == v[e.qp.address := Owed(e.qp, e.signalAll, [])]
    requires l'.queues == [NewQueue(e.qp, e.capacity, e.signalAll)] + l.queues
    ensures forall i :: 0 <= i < |l'.queues| ==> Matched(v', l'.queues, i)
  {
    forall i | 0 <= i < |l'.queues|
      ensures Matched(v', l'.queues, i)
    {
      if i > 0 {
        assert l'.queues[i] == l.queues[i - 1] && Matched(v, l.queues, i - 1);
      }
    }
  }

  lemma NewDistinct(v: Provider, l: Ledger, e: Event)
    requires InStep(v, l) && e.Create? && Allowed(v, l, e)
    ensures Distinct([e.qp] + QueuePairs(l.queues))
  {
    hide WaitingIds;
    forall i | 0 <= i < |l.queues|
      ensures l.queues[i].qp.address != e.qp.address
      ensures !(l.queues[i].qp.sendCq == e.qp.sendCq && l.queues[i].qp.number == e.qp.number)
    {
      assert Matched(v, l.queues, i);
      assert !Addresses(v, e.qp.sendCq, e.qp.number, l.queues[i].qp.address);
    }
  }

  lemma DestroyInStep(v: Provider, l: Ledger, address: nat, event: nat)
    requires InStep(v, l)
    ensures InStep(v - {address}, Gone(l, address))
  {
    hide Matched;
    var qps := QueuePairs(l.queues);
    var k := FindQp(qps, address);
    if k < |l.queues| {
      DistinctWithout(qps, k);
      Removed(v, l, k, l.queues[..k] + l.queues[k + 1..]);
      assert QueuePairs(Gone(l, address).queues) == qps[..k] + qps[k + 1..];
    } else {
      Unknown(v, l, address);
      assert v - {address} == v;
    }
  }

  lemma Removed(v: Provider, l: Ledger, k: nat, rest: seq<Queue>)
    requires InStep(v, l) && k < |l.queues| && rest == l.queues[..k] + l.queues[k + 1..]
    ensures var v' := v - {l.queues[k].qp.address};
            && (forall i :: 0 <= i < |rest| ==> Matched(v', rest, i))
            && (forall a <- v' :: exists i :: 0 <= i < |rest| && rest[i].qp.address == a)
  {
    hide Matched, QueuePairs, Distinct;
    var address := l.queues[k].qp.address;
    forall i | 0 <= i < |rest|
      ensures Matched(v - {address}, rest, i)
    {
      var j := if i < k then i else i + 1;
      OtherAddress(l.queues, j, k);
      MatchedWithout(v, l.queues, j, rest, i, address);
    }
    forall a | a in v - {address}
      ensures exists i :: 0 <= i < |rest| && rest[i].qp.address == a
    {
      var j :| 0 <= j < |l.queues| && l.queues[j].qp.address == a;
      assert rest[if j < k then j else j - 1] == l.queues[j];
    }
  }

  lemma OtherAddress(qs: seq<Queue>, j: nat, k: nat)
    requires Distinct(QueuePairs(qs)) && j < |qs| && k < |qs| && j != k
    ensures qs[j].qp.address != qs[k].qp.address
  {
    assert QueuePairs(qs)[j].address != QueuePairs(qs)[k].address;
  }

  lemma MatchedWithout(v: Provider, qs: seq<Queue>, j: nat, qs': seq<Queue>, i: nat, address: nat)
    requires j < |qs| && Matched(v, qs, j) && i < |qs'| && qs'[i] == qs[j] && qs[j].qp.address != address
    ensures Matched(v - {address}, qs', i)
  {
    hide WaitingIds;
  }

  lemma DistinctWithout(qps: seq<QueuePair>, k: nat)
    requires Distinct(qps) && k < |qps|
    ensures Distinct(qps[..k] + qps[k + 1..])
  {
  }

  lemma NextInStep(v: Provider, l: Ledger, e: Event, event: nat)
    requires InStep(v, l) && Allowed(v, l, e)
    ensures InStep(Serve(v, e), Next(l, e, event))
  {
    match e
    case Create(_, _, _) => CreateInStep(v, l, e, event);
    case Destroy(address) => DestroyInStep(v, l, address, event);
    case Post(_, _, _, _) => PostInStep(v, l, e, event);
    case Poll(_, _, Failed) =>
    case Poll(cq, _, Entries(wcs)) => BatchInStep(v, l, cq, wcs, event);
  }

  lemma QuietInStep(v: Provider, p: Probe)
    requires Quiet(v, p.tracks)
    ensures InStep(v, Record(p, []))
  {
    var qs := Opened(p.tracks);
    assert QueuePairs(qs) == QpsOf(p.tracks);
    forall a | a in v
      ensures exists i :: 0 <= i < |qs| && qs[i].qp.address == a
    {
      var i :| 0 <= i < |p.tracks| && p.tracks[i].qp == v[a].qp;
      assert qs[i].qp.address == a;
    }
  }

  lemma {:induction false} HonestInStep(v: Provider, p: Probe, body: seq<Event>)
    requires Quiet(v, p.tracks) && HonestRun(v, p, body)
    ensures Body(body) && InStep(Served(v, body), Record(p, body))
  {
    hide InStep, Allowed, Serve, Next, Quiet;
    if body == [] {
      QuietInStep(v, p);
    } else {
      var init := body[..|body| - 1];
      HonestInStep(v, p, init);
      NextInStep(Served(v, init), Record(p, init), body[|body| - 1], |init|);
      assert !body[|body| - 1].Observe? by { NotObserve(Served(v, init), Record(p, init), body[|body| - 1]); }
      assert forall i :: 0 <= i < |init| ==> body[i] == init[i];
    }
  }

  lemma NotObserve(v: Provider, l: Ledger, e: Event)
    requires Allowed(v, l, e)
    ensures !e.Observe?
  {
  }

  /** Success CQEs in queue order on every RC queue pair, and no failed poll while WRITEs are in flight:
      then completion_errors stays zero, whatever mixture of opcodes, whatever other queue pairs do, and
      however often work request ids are used again. */
  lemma HonestProviderIsFaultless(v: Provider, p: Probe, body: seq<Event>)
    requires Quiet(v, p.tracks) && HonestRun(v, p, body)
    ensures Measure(p, body).stats.completionErrors == 0
  {
    HonestInStep(v, p, body);
    MeasurementRefines(p, body);
  }

  /** No signaled request of this queue pair is waiting for its completion, if it is RC. */
  ghost predicate Settled(v: Provider, address: nat) {
    address in v && v[address].qp.rc ==> v[address].ids == []
  }

  ghost predicate NothingOwed(v: Provider) {
    forall a <- v :: Settled(v, a)
  }

  predicate Unsignaled(es: seq<Entry>) {
    forall e <- es :: !e.signaled
  }

  /** What is owed on a live queue pair decides whether a signaled entry of it is outstanding. */
  lemma NothingSignaled(v: Provider, l: Ledger, k: nat)
    requires InStep(v, l) && k < |l.queues|
    ensures Settled(v, l.queues[k].qp.address) ==> Unsignaled(l.queues[k].waiting)
  {
    assert Matched(v, l.queues, k);
    WaitingPops(l.queues[k].waiting);
  }

  lemma LiveUnsignaled(v: Provider, l: Ledger)
    requires InStep(v, l) && NothingOwed(v)
    ensures forall q <- l.queues :: Unsignaled(q.waiting)
  {
    hide InStep, Unsignaled;
    forall q | q in l.queues
      ensures Unsignaled(q.waiting)
    {
      var k :| 0 <= k < |l.queues| && l.queues[k] == q;
      NothingSignaled(v, l, k);
    }
  }

  /** Once the provider owes nothing, only entries behind the last signaled one of their queue pair are
      still outstanding. */
  lemma HonestProviderRetires(v: Provider, p: Probe, body: seq<Event>)
    requires Quiet(v, p.tracks) && HonestRun(v, p, body) && NothingOwed(Served(v, body))
    ensures forall q <- Record(p, body).queues :: Unsignaled(q.waiting)
  {
    hide InStep, Unsignaled, Quiet, HonestRun, NothingOwed, Record, Served;
    HonestInStep(v, p, body);
    LiveUnsignaled(Served(v, body), Record(p, body));
  }

  // ----- When completed reaches posted -----------------------------------------------------

  /** Some WRITE of the queue pair has no signaled request at or behind it. */
  ghost predicate TrailingWrite(q: Queue) {
    exists i :: 0 <= i < |q.History()| && q.History()[i].write && Unsignaled(q.History()[i..])
  }

  lemma RetiredIsSignaled(body: seq<Event>, q: Queue, n: nat)
    requires Follows(body, q, n, 0) && q.retired != []
    ensures q.retired[|q.retired| - 1].signaled
  {
    hide FromPost, Earlier, Later;
    assert FromPoll(body, q, q.acks[|q.acks| - 1]);
  }

  lemma BeforeSignaled(es: seq<Entry>, i: nat, j: nat)
    requires i <= j < |es| && es[j].signaled
    ensures !Unsignaled(es[i..])
  {
    assert es[i..][j - i] == es[j];
  }

  /** With no signaled entry outstanding, WRITEs are outstanding exactly if some are behind the last
      signaled entry ever posted. */
  lemma TailIsOutstanding(body: seq<Event>, q: Queue, n: nat)
    requires Follows(body, q, n, 0) && Unsignaled(q.waiting)
    ensures OutstandingOf(q) == 0 <==> !TrailingWrite(q)
  {
    hide Follows, Writes;
    NoWrites(q.waiting);
    if OutstandingOf(q) != 0 {
      var i :| 0 <= i < |q.waiting| && q.waiting[i].write;
      assert q.History()[|q.retired| + i].write;
      assert q.History()[|q.retired| + i..] == q.waiting[i..];
    } else {
      forall i | 0 <= i < |q.History()| && q.History()[i].write
        ensures !Unsignaled(q.History()[i..])
      {
        assert i < |q.retired|;
        RetiredIsSignaled(body, q, n);
        BeforeSignaled(q.History(), i, |q.retired| - 1);
      }
    }
  }

  lemma TailsAreOutstanding(p: Probe, body: seq<Event>, q: Queue)
    requires InLedger(Record(p, body), q) && Unsignaled(q.waiting)
    ensures OutstandingOf(q) == 0 <==> !TrailingWrite(q)
  {
    hide Record, Follows;
    RecordFaithful(p, body, |body|);
    assert body[..|body|] == body;
    TailIsOutstanding(body, q, |body|);
  }

  /** Once an honest provider owes nothing, completed equals posted exactly if no live queue pair ends in
      WRITEs that no signaled request follows and none was destroyed with a WRITE outstanding. */
  lemma HonestProviderCompletes(v: Provider, p: Probe, body: seq<Event>)
    requires Quiet(v, p.tracks) && HonestRun(v, p, body) && NothingOwed(Served(v, body))
    ensures var s, l := Measure(p, body).stats, Record(p, body);
            s.completed == s.posted <==>
              (forall q <- l.queues :: !TrailingWrite(q)) && (forall q <- l.gone :: OutstandingOf(q) == 0)
  {
    HonestInStep(v, p, body);
    NoneOutstanding(p, body);
    HonestProviderRetires(v, p, body);
    hide HonestRun, NothingOwed, Record, Unsignaled, OutstandingOf, Measure, TrailingWrite, InStep;
    forall q | q in Record(p, body).queues
      ensures OutstandingOf(q) == 0 <==> !TrailingWrite(q)
    {
      TailsAreOutstanding(p, body, q);
    }
  }

  /** Queue pairs are destroyed only when the provider owes nothing on them. */
  ghost predicate SettledRun(v: Provider, body: seq<Event>) {
    forall i :: 0 <= i < |body| && body[i].Destroy? ==> Settled(Served(v, body[..i]), body[i].address)
  }

  lemma NextSettled(v: Provider, l: Ledger, e: Event, event: nat)
    requires InStep(v, l) && Allowed(v, l, e) && (e.Destroy? ==> Settled(v, e.address))
    requires forall q <- l.gone :: Unsignaled(q.waiting)
    ensures forall q <- Next(l, e, event).gone :: Unsignaled(q.waiting)
  {
    hide InStep, Unsignaled;
    match e
    case Destroy(address) =>
      var k := FindQp(QueuePairs(l.queues), address);
      if k < |l.queues| {
        NothingSignaled(v, l, k);
        assert l.queues[k].qp.address == address by { assert QueuePairs(l.queues)[k].address == address; }
      }
    case Post(_, _, _, _) => PostInStep(v, l, e, event);
    case Poll(cq, _, Entries(wcs)) => BatchInStep(v, l, cq, wcs, event);
    case _ =>
  }

  lemma {:induction false} SettledGone(v: Provider, p: Probe, body: seq<Event>)
    requires Quiet(v, p.tracks) && HonestRun(v, p, body) && SettledRun(v, body)
    ensures forall q <- Record(p, body).gone :: Unsignaled(q.waiting)
  {
    if body != [] {
      hide InStep, Allowed, Next, Quiet, Unsignaled, Settled;
      var init := body[..|body| - 1];
      assert forall i :: 0 <= i < |init| ==> body[..i] == init[..i];
      SettledGone(v, p, init);
      HonestInStep(v, p, init);
      NextSettled(Served(v, init), Record(p, init), body[|body| - 1], |init|);
    }
  }

  /** If moreover queue pairs are destroyed only when nothing is owed on them: completed equals posted
      exactly if no queue pair, live or destroyed, ends in WRITEs that no signaled request follows. */
  lemma SettledProviderCompletes(v: Provider, p: Probe, body: seq<Event>)
    requires Quiet(v, p.tracks) && HonestRun(v, p, body) && NothingOwed(Served(v, body)) && SettledRun(v, body)
    ensures var s, l := Measure(p, body).stats, Record(p, body);
            s.completed == s.posted <==> forall q :: InLedger(l, q) ==> !TrailingWrite(q)
  {
    HonestProviderCompletes(v, p, body);
    SettledGone(v, p, body);
    hide HonestRun, NothingOwed, SettledRun, Record, Unsignaled, OutstandingOf, Measure, TrailingWrite;
    forall q | q in Record(p, body).gone
      ensures OutstandingOf(q) == 0 <==> !TrailingWrite(q)
    {
      TailsAreOutstanding(p, body, q);
    }
  }
}
