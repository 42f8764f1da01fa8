/** What the two alarm counters count, occurrence by occurrence. */
module ProbeAlarms {
  import opened Probe
  import opened ProbeLedger
  import opened ProbeRefinement
  import opened ProbeTheorems
  import opened ProbeEvidence

  // ----- completion_errors -----------------------------------------------------------------

  /** The record a CQE is looked up in: the newest live one with this send CQ and number. */
  ghost predicate Addressed(l: Ledger, cq: nat, number: nat, k: nat) {
    && k < |l.queues| && l.queues[k].qp.sendCq == cq && l.queues[k].qp.number == number
    && forall i :: 0 <= i < k ==> l.queues[i].qp.sendCq != cq || l.queues[i].qp.number != number
  }

  ghost predicate WriteWaits(q: Queue) {
    exists i :: 0 <= i < |q.waiting| && q.waiting[i].write
  }

  /** The oldest signaled entry still outstanding has this id. */
  ghost predicate OldestIs(q: Queue, id: nat) {
    exists j :: 0 <= j < |q.waiting| && q.waiting[j].signaled && q.waiting[j].id == id
                && forall i :: 0 <= i < j ==> !q.waiting[i].signaled
  }

  /** A CQE that is not what the history of its RC queue pair leads one to expect: an error while a WRITE
      is outstanding, or the success of a send other than the oldest signaled one outstanding. */
  ghost predicate Alarming(l: Ledger, cq: nat, wc: Completion) {
    exists k: nat :: Addressed(l, cq, wc.number, k) && Unexpected(l.queues[k], wc)
  }

  ghost predicate Unexpected(q: Queue, wc: Completion) {
    q.qp.rc && if !wc.success then WriteWaits(q) else !wc.recv && !OldestIs(q, wc.id)
  }

  ghost function AlarmingIn(l: Ledger, cq: nat, wcs: seq<Completion>, event: nat): nat {
    if wcs == [] then 0
    else
      var init := wcs[..|wcs| - 1];
      AlarmingIn(l, cq, init, event) + Bit(Alarming(Batch(l, cq, init, event), cq, wcs[|wcs| - 1]))
  }

  /** A failed poll is alarming while a WRITE of some live queue pair is outstanding. */
  ghost function AlarmsOf(l: Ledger, e: Event, event: nat): nat {
    match e
    case Poll(_, _, Failed) => Bit(exists q <- l.queues :: WriteWaits(q))
    case Poll(cq, _, Entries(wcs)) => AlarmingIn(l, cq, wcs, event)
    case _ => 0
  }

  ghost function Alarms(p: Probe, body: seq<Event>): nat {
    if body == [] then 0
    else
      var init := body[..|body| - 1];
      Alarms(p, init) + AlarmsOf(Record(p, init), body[|body| - 1], |init|)
  }

  lemma WaitsIfOutstanding(q: Queue)
    ensures OutstandingOf(q) != 0 <==> WriteWaits(q)
  {
    NoWrites(q.waiting);
  }

  lemma MatchIsOldest(q: Queue, id: nat)
    ensures Matches(q, id) <==> OldestIs(q, id)
  {
    var j := FirstSignaled(q.waiting);
    if OldestIs(q, id) {
      var i :| 0 <= i < |q.waiting| && q.waiting[i].signaled && q.waiting[i].id == id
               && forall k :: 0 <= k < i ==> !q.waiting[k].signaled;
      assert i == j;
    }
  }

  lemma AddressedIs(l: Ledger, cq: nat, number: nat, k: nat)
    ensures Addressed(l, cq, number, k) <==> k == FindNumber(QueuePairs(l.queues), cq, number) && k < |l.queues|
  {
    var qps := QueuePairs(l.queues);
    assert forall i :: 0 <= i < |qps| ==> qps[i] == l.queues[i].qp;
  }

  lemma CompletedAlarms(l: Ledger, cq: nat, wc: Completion, event: nat, index: nat)
    ensures Completed(l, cq, wc, event, index).faults == l.faults + Bit(Alarming(l, cq, wc))
  {
    hide Matches, OldestIs, WriteWaits, OutstandingOf, FirstSignaled, Pop;
    var k := FindNumber(QueuePairs(l.queues), cq, wc.number);
    forall i: nat
      ensures Addressed(l, cq, wc.number, i) <==> i == k && k < |l.queues|
    {
      AddressedIs(l, cq, wc.number, i);
    }
    hide Addressed;
    if k < |l.queues| {
      assert Addressed(l, cq, wc.number, k);
      MatchIsOldest(l.queues[k], wc.id);
      WaitsIfOutstanding(l.queues[k]);
    }
  }

  lemma {:induction false} BatchAlarms(l: Ledger, cq: nat, wcs: seq<Completion>, event: nat)
    ensures Batch(l, cq, wcs, event).faults == l.faults + AlarmingIn(l, cq, wcs, event)
  {
    if wcs != [] {
      hide Completed, Alarming;
      var init := wcs[..|wcs| - 1];
      BatchAlarms(l, cq, init, event);
      CompletedAlarms(Batch(l, cq, init, event), cq, wcs[|wcs| - 1], event, |init|);
    }
  }

  lemma NextAlarms(l: Ledger, e: Event, event: nat)
    requires !e.Observe?
    ensures Next(l, e, event).faults == l.faults + AlarmsOf(l, e, event)
  {
    hide Batch, AlarmingIn, Chain, WriteWaits;
    match e
    case Post(qp, wrs, failed, bad) => ChainRecords(l, qp, wrs[..Accepted(wrs, failed, bad)], event);
    case Poll(_, _, Failed) =>
      SumIsZero(l.queues, OutstandingOf);
      forall q | q in l.queues
        ensures OutstandingOf(q) != 0 <==> WriteWaits(q)
      {
        WaitsIfOutstanding(q);
      }
    case Poll(cq, _, Entries(wcs)) => BatchAlarms(l, cq, wcs, event);
    case _ =>
  }

  lemma {:induction false} RecordAlarms(p: Probe, body: seq<Event>)
    requires Body(body)
    ensures Record(p, body).faults == Alarms(p, body)
  {
    if body != [] {
      hide Next, AlarmsOf;
      var init := body[..|body| - 1];
      RecordAlarms(p, init);
      NextAlarms(Record(p, init), body[|body| - 1], |init|);
    }
  }

  /** completion_errors counts exactly the alarming CQEs and failed polls: none is missed, and nothing
      else is counted. */
  lemma CompletionErrorsCount(p: Probe, body: seq<Event>)
    requires Body(body)
    ensures Measure(p, body).stats.completionErrors == Alarms(p, body)
  {
    hide Measure, Record, Alarms;
    MeasurementRefines(p, body);
    RecordAlarms(p, body);
  }

  // ----- capacity_errors -------------------------------------------------------------------

  /** The queue pair's record, the newest live one of that pointer, has more WRITEs outstanding than the
      queue pair was created for. */
  ghost predicate OverCapacity(l: Ledger, address: nat) {
    exists k :: 0 <= k < |l.queues| && l.queues[k].qp.address == address
                && (forall i :: 0 <= i < k ==> l.queues[i].qp.address != address)
                && OutstandingOf(l.queues[k]) > l.queues[k].capacity
  }

  /** The WRITEs of a chain that leave their queue pair over its capacity. */
  ghost function OverrunsIn(l: Ledger, qp: QueuePair, wrs: seq<SendWr>, event: nat): nat {
    if wrs == [] then 0
    else
      OverrunsIn(l, qp, wrs[..|wrs| - 1], event)
      + Bit(qp.rc && wrs[|wrs| - 1].write && OverCapacity(Chain(l, qp, wrs, event), qp.address))
  }

  ghost function Overruns(p: Probe, body: seq<Event>): nat {
    if body == [] then 0
    else
      var init, e := body[..|body| - 1], body[|body| - 1];
      Overruns(p, init) +
      (if e.Post? then OverrunsIn(Record(p, init), e.target, e.wrs[..Accepted(e.wrs, e.failed, e.bad)], |init|) else 0)
  }

  lemma PostedOverruns(l: Ledger, qp: QueuePair, wr: SendWr, event: nat, index: nat)
    ensures var l' := Posted(l, qp, wr, event, index);
            l'.overruns == l.overruns + Bit(qp.rc && wr.write && OverCapacity(l', qp.address))
  {
    hide OutstandingOf;
    var l' := Posted(l, qp, wr, event, index);
    var k := FindQp(QueuePairs(l.queues), qp.address);
    var qps := QueuePairs(l.queues);
    assert forall i :: 0 <= i < |qps| ==> qps[i] == l.queues[i].qp && l'.queues[i].qp == qps[i];
  }

  lemma {:induction false} ChainOverruns(l: Ledger, qp: QueuePair, wrs: seq<SendWr>, event: nat)
    ensures Chain(l, qp, wrs, event).overruns == l.overruns + OverrunsIn(l, qp, wrs, event)
  {
    if wrs != [] {
      hide Posted, OverCapacity;
      var init := wrs[..|wrs| - 1];
      ChainOverruns(l, qp, init, event);
      PostedOverruns(Chain(l, qp, init, event), qp, wrs[|wrs| - 1], event, |init|);
    }
  }

  lemma {:induction false} BatchKeepsOverruns(l: Ledger, cq: nat, wcs: seq<Completion>, event: nat)
    ensures Batch(l, cq, wcs, event).overruns == l.overruns
  {
    if wcs != [] {
      BatchKeepsOverruns(l, cq, wcs[..|wcs| - 1], event);
    }
  }

  lemma {:induction false} RecordOverruns(p: Probe, body: seq<Event>)
    requires Body(body)
    ensures Record(p, body).overruns == Overruns(p, body)
  {
    if body != [] {
      hide Chain, Batch, OverrunsIn;
      var init := body[..|body| - 1];
      RecordOverruns(p, init);
      match body[|body| - 1]
      case Post(qp, wrs, failed, bad) =>
        ChainOverruns(Record(p, init), qp, wrs[..Accepted(wrs, failed, bad)], |init|);
      case Poll(cq, _, Entries(wcs)) => BatchKeepsOverruns(Record(p, init), cq, wcs, |init|);
      case _ =>
    }
  }

  /** capacity_errors counts exactly the accepted WRITEs that leave their queue pair with more WRITEs
      outstanding than its send capacity. */
  lemma CapacityErrorsCount(p: Probe, body: seq<Event>)
    requires Body(body)
    ensures Measure(p, body).stats.capacityErrors == Overruns(p, body)
  {
    hide Measure, Record, Overruns;
    MeasurementRefines(p, body);
    RecordOverruns(p, body);
  }

  // ----- The other totals ------------------------------------------------------------------

  /** The three sums a ledger is read through count occurrences: WRITEs, signaled WRITEs, and matched CQEs
      that retired a WRITE. */
  lemma {:induction false} WritesAreOccurrences(es: seq<Entry>)
    ensures Writes(es) == |set i | 0 <= i < |es| && es[i].write|
  {
    if es != [] {
      var init := es[..|es| - 1];
      WritesAreOccurrences(init);
      var a := set i | 0 <= i < |init| && init[i].write;
      assert (set i | 0 <= i < |es| && es[i].write) == if es[|init|].write then a + {|init|} else a;
    }
  }

  lemma {:induction false} SignaledAreOccurrences(es: seq<Entry>)
    ensures SignaledWrites(es) == |set i | 0 <= i < |es| && es[i].write && es[i].signaled|
  {
    if es != [] {
      var init, last := es[..|es| - 1], es[|es| - 1];
      SignaledAreOccurrences(init);
      var a := set i | 0 <= i < |init| && init[i].write && init[i].signaled;
      assert (set i | 0 <= i < |es| && es[i].write && es[i].signaled) == if last.write && last.signaled then a + {|init|} else a;
    }
  }

  lemma {:induction false} CqesAreOccurrences(acks: seq<Ack>)
    ensures ProductiveAcks(acks) == |set i | 0 <= i < |acks| && acks[i].retired > 0|
  {
    if acks != [] {
      var init := acks[..|acks| - 1];
      CqesAreOccurrences(init);
      var a := set i | 0 <= i < |init| && init[i].retired > 0;
      assert (set i | 0 <= i < |acks| && acks[i].retired > 0) == if acks[|init|].retired > 0 then a + {|init|} else a;
    }
  }
}
