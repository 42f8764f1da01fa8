/** The compact counters refine the full FIFO: each step of the probe is the corresponding step of
    the ledger seen through `Compact`, and every measured total is a count over the ledger. */
module ProbeRefinement {
  import opened Probe
  import opened ProbeLedger

  // ----- Abstraction -----------------------------------------------------------------------

  /** The signaled entries of a FIFO, each with the number of WRITEs posted up to it, when `base`
      WRITEs went before. */
  function PendingOf(es: seq<Entry>, base: nat): seq<Pending> {
    if es == [] then []
    else
      var last := es[|es| - 1];
      PendingOf(es[..|es| - 1], base) + if last.signaled then [Pending(last.id, base + Writes(es))] else []
  }

  function Compact(q: Queue): Track {
    Track(q.qp, q.capacity, q.signalAll, PostedOf(q), CompletedOf(q), PendingOf(q.waiting, CompletedOf(q)))
  }

  function CompactAll(qs: seq<Queue>): (r: seq<Track>)
    ensures |r| == |qs| && forall i :: 0 <= i < |r| ==> r[i] == Compact(qs[i])
  {
    seq(|qs|, i requires 0 <= i < |qs| => Compact(qs[i]))
  }

  function PendingLast(e: Entry, sequence: int): seq<Pending> {
    if e.signaled then [Pending(e.id, sequence)] else []
  }

  lemma PendingAppend(es: seq<Entry>, e: Entry, base: nat)
    ensures Writes(es + [e]) == Writes(es) + Bit(e.write)
    ensures PendingOf(es + [e], base) == PendingOf(es, base) + PendingLast(e, base + Writes(es + [e]))
  {
    assert (es + [e])[..|es + [e]| - 1] == es;
  }

  lemma {:induction false} FirstAppend(es: seq<Entry>, e: Entry)
    ensures FirstSignaled(es + [e]) ==
            if FirstSignaled(es) < |es| then FirstSignaled(es) else if e.signaled then |es| else |es| + 1
  {
    if es != [] && !es[0].signaled {
      FirstAppend(es[1..], e);
      assert (es + [e])[1..] == es[1..] + [e];
    } else if es == [] {
      assert (es + [e])[1..] == [];
    }
  }

  /** What popping through the first signaled entry removes from the compact list. */
  ghost predicate PopsHead(es: seq<Entry>, base: nat)
  {
    var j := FirstSignaled(es);
    if j == |es| then PendingOf(es, base) == []
    else
      var popped := base + Writes(es[..j + 1]);
      PendingOf(es, base) == [Pending(es[j].id, popped)] + PendingOf(es[j + 1..], popped)
  }

  lemma PopsHeadAppend(es: seq<Entry>, e: Entry, base: nat)
    requires PopsHead(es, base)
    ensures PopsHead(es + [e], base)
  {
    hide Writes, FirstSignaled, PendingOf;
    PendingAppend(es, e, base);
    FirstAppend(es, e);
    var j := FirstSignaled(es);
    if j < |es| {
      var rest := es[j + 1..];
      var popped := base + Writes(es[..j + 1]);
      assert (es + [e])[..j + 1] == es[..j + 1];
      assert (es + [e])[j + 1..] == rest + [e];
      PendingAppend(rest, e, popped);
      WritesSplit(es, j + 1);
    } else if e.signaled {
      assert (es + [e])[..|es| + 1] == es + [e] && (es + [e])[|es| + 1..] == [];
      EmptyPending(base + Writes(es + [e]));
    }
  }

  lemma EmptyPending(base: nat)
    ensures PendingOf([], base) == []
  {
  }

  /** Popping through the first signaled entry removes exactly the head of the compact list, whose
      sequence number is the count of WRITEs posted by then. */
  lemma {:induction false} PendingPops(es: seq<Entry>, base: nat)
    ensures PopsHead(es, base)
  {
    if es != [] {
      hide PopsHead;
      PendingPops(es[..|es| - 1], base);
      PopsHeadAppend(es[..|es| - 1], es[|es| - 1], base);
      assert es[..|es| - 1] + [es[|es| - 1]] == es;
    }
  }

  lemma SignaledWritesAppend(es: seq<Entry>, e: Entry)
    ensures SignaledWrites(es + [e]) == SignaledWrites(es) + Bit(e.write && e.signaled)
  {
    assert (es + [e])[..|es + [e]| - 1] == es;
  }

  /** Posting on the counters is appending to the FIFO. */
  lemma AppendRefines(q: Queue, wr: SendWr, event: nat, index: nat)
    ensures Compact(Append(q, wr, event, index)) == PostTrack(Compact(q), wr)
    ensures OutstandingOf(Append(q, wr, event, index)) == OutstandingOf(q) + Bit(wr.write)
    ensures CompletedOf(Append(q, wr, event, index)) == CompletedOf(q)
    ensures SignaledOf(Append(q, wr, event, index)) == SignaledOf(q) + Bit(wr.write && (q.signalAll || wr.signaled))
    ensures CqesOf(Append(q, wr, event, index)) == CqesOf(q)
  {
    hide Writes, SignaledWrites, PendingOf, ProductiveAcks;
    var e := Entry(wr.id, wr.write, q.signalAll || wr.signaled, event, index);
    SignaledWritesAppend(q.History(), e);
    PendingAppend(q.waiting, e, CompletedOf(q));
    assert Append(q, wr, event, index).History() == q.History() + [e];
  }

  lemma ProductiveAcksAppend(acks: seq<Ack>, a: Ack)
    ensures ProductiveAcks(acks + [a]) == ProductiveAcks(acks) + Bit(a.retired != 0)
  {
    assert (acks + [a])[..|acks + [a]| - 1] == acks;
  }

  /** A CQE matches on the counters exactly when it names the first signaled outstanding entry. */
  lemma MatchRefines(q: Queue, id: nat)
    ensures var t := Compact(q);
            Matches(q, id) <==> t.pending != [] && t.pending[0].id == id
  {
    hide Writes, PendingOf, FirstSignaled;
    PendingPops(q.waiting, CompletedOf(q));
  }

  /** Retiring on the counters is popping the FIFO through its first signaled entry. */
  lemma PopRefines(q: Queue, id: nat, event: nat, index: nat)
    requires Matches(q, id)
    ensures var t, j := Compact(q), FirstSignaled(q.waiting);
            var popped, retired := Pop(q, j, event, index), Writes(q.waiting[..j + 1]);
            && t.pending != [] && t.pending[0].sequence - t.completed == retired
            && Compact(popped) == t.(completed := t.pending[0].sequence, pending := t.pending[1..])
            && popped.History() == q.History()
            && PostedOf(popped) == PostedOf(q)
            && CompletedOf(popped) == CompletedOf(q) + retired
            && OutstandingOf(popped) == OutstandingOf(q) - retired
            && CqesOf(popped) == CqesOf(q) + Bit(retired != 0)
  {
    hide Writes, PendingOf, FirstSignaled, ProductiveAcks;
    PendingPops(q.waiting, CompletedOf(q));
    var j := FirstSignaled(q.waiting);
    WritesConcat(q.retired, q.waiting[..j + 1]);
    WritesSplit(q.waiting, j + 1);
    ProductiveAcksAppend(q.acks, Ack(|q.retired| + j, Writes(q.waiting[..j + 1]), event, index));
    assert Pop(q, j, event, index).History() == q.History() by {
      assert q.waiting[..j + 1] + q.waiting[j + 1..] == q.waiting;
    }
  }

  // ----- Agreement of whole states ---------------------------------------------------------

  ghost function Total(l: Ledger, f: Queue -> nat): nat {
    Sum(l.queues, f) + Sum(l.gone, f)
  }

  /** Every measured total the ledger determines. */
  ghost predicate Totals(s: Stats, l: Ledger) {
    && s.posted == Total(l, PostedOf)
    && s.completed == Total(l, CompletedOf)
    && s.inFlight == Sum(l.queues, OutstandingOf)
    && s.signaled == Total(l, SignaledOf)
    && s.cqes == Total(l, CqesOf)
    && s.completionErrors == l.faults
    && s.capacityErrors == l.overruns
    && s.untrackedWrites == l.untracked
  }

  ghost predicate Agrees(p: Probe, l: Ledger) {
    && p.tracking
    && p.tracks == CompactAll(l.queues)
    && Totals(p.stats, l)
  }

  lemma SameLookups(p: Probe, l: Ledger)
    requires Agrees(p, l)
    ensures QpsOf(p.tracks) == QueuePairs(l.queues)
  {
  }

  /** Replacing one live queue changes every total by the difference of the two queues. */
  lemma Replace(l: Ledger, k: nat, q: Queue, f: Queue -> nat)
    requires k < |l.queues|
    ensures Sum(l.queues[k := q], f) == Sum(l.queues, f) - f(l.queues[k]) + f(q)
  {
    SumUpdate(l.queues, k, q, f);
  }

  lemma ReplaceAll(p: Probe, l: Ledger, k: nat, q: Queue, s: Stats)
    requires Agrees(p, l) && k < |l.queues|
    requires s == p.stats.(
               posted := p.stats.posted + PostedOf(q) - PostedOf(l.queues[k]),
               completed := p.stats.completed + CompletedOf(q) - CompletedOf(l.queues[k]),
               inFlight := p.stats.inFlight + OutstandingOf(q) - OutstandingOf(l.queues[k]),
               signaled := p.stats.signaled + SignaledOf(q) - SignaledOf(l.queues[k]),
               cqes := p.stats.cqes + CqesOf(q) - CqesOf(l.queues[k]))
    ensures Agrees(p.(tracks := p.tracks[k := Compact(q)], stats := s), l.(queues := l.queues[k := q]))
  {
    hide Compact, Sum, PostedOf, CompletedOf, OutstandingOf, SignaledOf, CqesOf;
    Replace(l, k, q, PostedOf);
    Replace(l, k, q, CompletedOf);
    Replace(l, k, q, OutstandingOf);
    Replace(l, k, q, SignaledOf);
    Replace(l, k, q, CqesOf);
    assert CompactAll(l.queues)[k := Compact(q)] == CompactAll(l.queues[k := q]);
  }

  lemma PostedAgrees(p: Probe, l: Ledger, qp: QueuePair, wr: SendWr, event: nat, index: nat)
    requires Agrees(p, l)
    ensures Agrees(RecordPosted(p, qp, wr), Posted(l, qp, wr, event, index))
  {
    hide Sum, PendingOf, Writes, SignaledWrites, ProductiveAcks;
    SameLookups(p, l);
    var k := FindQp(QpsOf(p.tracks), qp.address);
    if qp.rc && k < |p.tracks| {
      AppendRefines(l.queues[k], wr, event, index);
      var q := Append(l.queues[k], wr, event, index);
      var s := PostStats(p.stats, p.tracks[k], wr);
      ReplaceAll(p, l, k, q, s.(peakInFlight := p.stats.peakInFlight, capacityErrors := p.stats.capacityErrors));
    }
  }

  lemma {:induction false} ChainAgrees(p: Probe, l: Ledger, qp: QueuePair, wrs: seq<SendWr>, event: nat)
    requires Agrees(p, l)
    ensures Agrees(RecordAll(p, qp, wrs), Chain(l, qp, wrs, event))
  {
    if wrs != [] {
      var init := wrs[..|wrs| - 1];
      ChainAgrees(p, l, qp, init, event);
      PostedAgrees(RecordAll(p, qp, init), Chain(l, qp, init, event), qp, wrs[|wrs| - 1], event, |wrs| - 1);
    }
  }

  lemma MatchedAgrees(p: Probe, l: Ledger, cq: nat, wc: Completion, event: nat, index: nat)
    requires Agrees(p, l) && wc.success && !wc.recv
    requires var k := FindNumber(QpsOf(p.tracks), cq, wc.number);
             k < |p.tracks| && p.tracks[k].qp.rc && Matches(l.queues[k], wc.id)
    ensures Agrees(RecordCompletion(p, cq, wc), Completed(l, cq, wc, event, index))
  {
    hide Sum, PendingOf, Writes, FirstSignaled, Matches;
    SameLookups(p, l);
    var k := FindNumber(QpsOf(p.tracks), cq, wc.number);
    var q := l.queues[k];
    MatchRefines(q, wc.id);
    PopRefines(q, wc.id, event, index);
    MatchesBound(q, wc.id);
    ReplaceAll(p, l, k, Pop(q, FirstSignaled(q.waiting), event, index), RecordCompletion(p, cq, wc).stats);
  }

  lemma CompletedAgrees(p: Probe, l: Ledger, cq: nat, wc: Completion, event: nat, index: nat)
    requires Agrees(p, l)
    ensures Agrees(RecordCompletion(p, cq, wc), Completed(l, cq, wc, event, index))
  {
    hide Sum, PendingOf, Writes, FirstSignaled, Matches;
    SameLookups(p, l);
    var k := FindNumber(QpsOf(p.tracks), cq, wc.number);
    if k < |p.tracks| && p.tracks[k].qp.rc {
      MatchRefines(l.queues[k], wc.id);
      if wc.success && !wc.recv && Matches(l.queues[k], wc.id) {
        MatchedAgrees(p, l, cq, wc, event, index);
      }
    }
  }

  lemma MatchesBound(q: Queue, id: nat)
    requires Matches(q, id)
    ensures FirstSignaled(q.waiting) < |q.waiting|
  {
  }

  lemma {:induction false} BatchAgrees(p: Probe, l: Ledger, cq: nat, wcs: seq<Completion>, event: nat)
    requires Agrees(p, l)
    ensures Agrees(CompleteAll(p, cq, wcs), Batch(l, cq, wcs, event))
  {
    if wcs != [] {
      var init := wcs[..|wcs| - 1];
      BatchAgrees(p, l, cq, init, event);
      CompletedAgrees(CompleteAll(p, cq, init), Batch(l, cq, init, event), cq, wcs[|wcs| - 1], event, |wcs| - 1);
    }
  }

  lemma Append1(qs: seq<Queue>, q: Queue, f: Queue -> nat)
    ensures Sum(qs + [q], f) == Sum(qs, f) + f(q)
    ensures Sum([q] + qs, f) == f(q) + Sum(qs, f)
  {
    SumConcat(qs, [q], f);
    SumConcat([q], qs, f);
    assert [q][1..] == [];
  }

  lemma Moved(l: Ledger, k: nat, f: Queue -> nat)
    requires k < |l.queues|
    ensures Sum(l.queues[..k] + l.queues[k + 1..], f) == Sum(l.queues, f) - f(l.queues[k])
    ensures Sum(l.gone + [l.queues[k]], f) == Sum(l.gone, f) + f(l.queues[k])
  {
    SumSplit(l.queues, k, f);
    Append1(l.gone, l.queues[k], f);
  }

  lemma GoneAgrees(p: Probe, l: Ledger, address: nat)
    requires Agrees(p, l)
    ensures Agrees(DestroyQp(p, address), Gone(l, address))
  {
    hide Sum, PendingOf, Writes, SignaledOf, CqesOf, SignaledWrites, ProductiveAcks;
    SameLookups(p, l);
    var k := FindQp(QpsOf(p.tracks), address);
    if k < |p.tracks| {
      Moved(l, k, PostedOf);
      Moved(l, k, CompletedOf);
      Moved(l, k, OutstandingOf);
      Moved(l, k, SignaledOf);
      Moved(l, k, CqesOf);
      CompactWithout(l.queues, k);
    }
  }

  lemma CompactWithout(qs: seq<Queue>, k: nat)
    requires k < |qs|
    ensures CompactAll(qs)[..k] + CompactAll(qs)[k + 1..] == CompactAll(qs[..k] + qs[k + 1..])
  {
    hide Compact;
  }

  lemma CreateAgrees(p: Probe, l: Ledger, qp: QueuePair, capacity: nat, signalAll: bool, event: nat)
    requires Agrees(p, l)
    ensures Agrees(CreateQp(p, qp, capacity, signalAll), Next(l, Create(qp, capacity, signalAll), event))
  {
    hide Sum, PendingOf, Writes, SignaledWrites, ProductiveAcks;
    var q := NewQueue(qp, capacity, signalAll);
    NothingCounted(q);
    Append1(l.queues, q, PostedOf);
    Append1(l.queues, q, CompletedOf);
    Append1(l.queues, q, OutstandingOf);
    Append1(l.queues, q, SignaledOf);
    Append1(l.queues, q, CqesOf);
    CompactWith(q, l.queues);
  }

  lemma NothingCounted(q: Queue)
    requires q.retired == [] && q.waiting == [] && q.acks == []
    ensures PostedOf(q) == 0 && CompletedOf(q) == 0 && OutstandingOf(q) == 0 && SignaledOf(q) == 0 && CqesOf(q) == 0
    ensures Compact(q) == Track(q.qp, q.capacity, q.signalAll, 0, 0, [])
  {
    assert q.History() == [];
  }

  lemma CompactWith(q: Queue, qs: seq<Queue>)
    ensures [Compact(q)] + CompactAll(qs) == CompactAll([q] + qs)
  {
    hide Compact;
  }

  /** The ledger says nothing about the maxima, the post errors and the call counter. */
  lemma Unconstrained(p: Probe, l: Ledger, p': Probe)
    requires Agrees(p, l)
    requires p' == p.(postedWrs := p'.postedWrs,
                      stats := p.stats.(peakInFlight := p'.stats.peakInFlight, postBatch := p'.stats.postBatch,
                                        pollEntries := p'.stats.pollEntries, postErrors := p'.stats.postErrors))
    ensures Agrees(p', l)
  {
    hide Sum, Total, CompactAll;
  }

  lemma PostAgrees(p: Probe, l: Ledger, qp: QueuePair, wrs: seq<SendWr>, failed: bool, bad: BadWr, event: nat)
    requires Agrees(p, l)
    ensures Agrees(PostSend(p, qp, wrs, failed, bad), Chain(l, qp, wrs[..Accepted(wrs, failed, bad)], event))
  {
    hide Agrees, RecordAll, Chain, Accepted;
    var accepted := Accepted(wrs, failed, bad);
    assert p.tracking by { AgreesTracks(p, l); }
    ChainAgrees(p, l, qp, wrs[..accepted], event);
    Unconstrained(RecordAll(p, qp, wrs[..accepted]), Chain(l, qp, wrs[..accepted], event),
                  PostSend(p, qp, wrs, failed, bad));
  }

  lemma AgreesTracks(p: Probe, l: Ledger)
    requires Agrees(p, l)
    ensures p.tracking && p.stats.inFlight == Sum(l.queues, OutstandingOf)
  {
    hide Sum, CompactAll;
  }

  lemma Fault(p: Probe, l: Ledger)
    requires Agrees(p, l)
    ensures Agrees(Error(p), l.(faults := l.faults + 1))
  {
    hide Sum, CompactAll;
  }

  lemma PollAgrees(p: Probe, l: Ledger, cq: nat, count: int, polled: Polled, event: nat)
    requires Agrees(p, l)
    ensures Agrees(PollCq(p, cq, count, polled), Next(l, Poll(cq, count, polled), event))
  {
    hide Agrees, Sum, CompleteAll, Batch;
    AgreesTracks(p, l);
    var sized :=
      if p.stats.inFlight > 0 && count > 0 && count > p.stats.pollEntries
      then p.(stats := p.stats.(pollEntries := count)) else p;
    Unconstrained(p, l, sized);
    match polled
    case Failed => Fault(sized, l);
    case Entries(wcs) => BatchAgrees(sized, l, cq, wcs, event);
  }

  /** One step of the probe inside a measurement is one step of the ledger. */
  lemma StepAgrees(p: Probe, l: Ledger, e: Event, event: nat)
    requires Agrees(p, l) && !e.Observe?
    ensures Agrees(Step(p, e), Next(l, e, event))
  {
    hide Agrees, CreateQp, DestroyQp, PostSend, PollCq, Gone, Chain;
    match e
    case Create(qp, capacity, signalAll) => CreateAgrees(p, l, qp, capacity, signalAll, event);
    case Destroy(address) => GoneAgrees(p, l, address);
    case Post(qp, wrs, failed, bad) => PostAgrees(p, l, qp, wrs, failed, bad, event);
    case Poll(cq, count, polled) => PollAgrees(p, l, cq, count, polled, event);
  }

  lemma OpeningAgrees(p: Probe)
    ensures Agrees(ObserveWrites(p, true), Record(p, []))
  {
    var qs := Opened(p.tracks);
    assert forall q <- qs :: q.History() == [];
    SumZero(qs, PostedOf);
    SumZero(qs, CompletedOf);
    SumZero(qs, OutstandingOf);
    SumZero(qs, SignaledOf);
    SumZero(qs, CqesOf);
  }

  /** Throughout a measurement, from any earlier state, the probe is the compact view of the
      ledger. */
  lemma {:induction false} MeasurementRefines(p: Probe, body: seq<Event>)
    requires Body(body)
    ensures Agrees(Measure(p, body), Record(p, body))
  {
    if body == [] {
      OpeningAgrees(p);
    } else {
      var init := body[..|body| - 1];
      MeasurementRefines(p, init);
      StepAgrees(Measure(p, init), Record(p, init), body[|body| - 1], |body| - 1);
    }
  }
}
