/** What the measured totals mean, for every sequence of events between two calls of
    r101_probe_observe_writes, starting from any state. A chain or a batch cut short is itself a
    measurement, so the statements also hold between two iterations of the recording loops. */
module ProbeTheorems {
  import opened Probe
  import opened ProbeLedger
  import opened ProbeRefinement

  // ----- Conservation ----------------------------------------------------------------------

  /** WRITEs posted on live queue pairs and not retired, from the counters alone. */
  function Unretired(tracks: seq<Track>): int {
    if tracks == [] then 0 else tracks[0].posted - tracks[0].completed + Unretired(tracks[1..])
  }

  lemma {:induction false} UnretiredIsOutstanding(qs: seq<Queue>)
    ensures Unretired(CompactAll(qs)) == Sum(qs, OutstandingOf)
  {
    if qs != [] {
      UnretiredIsOutstanding(qs[1..]);
      assert CompactAll(qs)[1..] == CompactAll(qs[1..]);
    }
  }

  lemma {:induction false} PostedSplits(qs: seq<Queue>)
    ensures Sum(qs, PostedOf) == Sum(qs, CompletedOf) + Sum(qs, OutstandingOf)
  {
    if qs != [] {
      PostedSplits(qs[1..]);
    }
  }

  /** WRITEs that were outstanding on queue pairs when these were destroyed. */
  ghost function Dropped(p: Probe, body: seq<Event>): nat {
    Sum(Record(p, body).gone, OutstandingOf)
  }

  lemma Conservation(p: Probe, body: seq<Event>)
    requires Body(body)
    ensures var m := Measure(p, body);
            && m.stats.inFlight == Unretired(m.tracks)
            && m.stats.posted == m.stats.completed + m.stats.inFlight + Dropped(p, body)
  {
    MeasurementRefines(p, body);
    var l := Record(p, body);
    UnretiredIsOutstanding(l.queues);
    PostedSplits(l.queues);
    PostedSplits(l.gone);
  }

  ghost predicate Between(ps: seq<Pending>, low: int, high: int) {
    && (forall i :: 0 <= i < |ps| ==> low <= ps[i].sequence <= high)
    && (forall i, j :: 0 <= i < j < |ps| ==> ps[i].sequence <= ps[j].sequence)
  }

  /** The record of one queue pair: no counter passes another, and the pending sequence numbers are
      ordered and lie between the two. */
  ghost predicate Ordered(t: Track) {
    0 <= t.completed <= t.posted && Between(t.pending, t.completed, t.posted)
  }

  lemma BetweenAppend(ps: seq<Pending>, last: seq<Pending>, low: int, mid: int, high: int)
    requires Between(ps, low, mid) && low <= mid <= high
    requires |last| <= 1 && forall x <- last :: x.sequence == high
    ensures Between(ps + last, low, high)
  {
  }

  lemma {:induction false} PendingOrdered(es: seq<Entry>, base: nat)
    ensures Between(PendingOf(es, base), base, base + Writes(es))
  {
    if es != [] {
      hide Between;
      var init, last := es[..|es| - 1], es[|es| - 1];
      PendingOrdered(init, base);
      BetweenAppend(PendingOf(init, base), PendingLast(last, base + Writes(es)), base, base + Writes(init), base + Writes(es));
    }
  }

  lemma CompactOrdered(q: Queue)
    ensures Ordered(Compact(q))
  {
    hide Writes, PendingOf, Between;
    PendingOrdered(q.waiting, CompletedOf(q));
  }

  lemma CountersOrdered(p: Probe, body: seq<Event>)
    requires Body(body)
    ensures forall t <- Measure(p, body).tracks :: Ordered(t)
  {
    hide Ordered, Compact, Totals, Measure, Record;
    MeasurementRefines(p, body);
    var qs := Record(p, body).queues;
    forall t | t in CompactAll(qs)
      ensures Ordered(t)
    {
      var k :| 0 <= k < |qs| && t == Compact(qs[k]);
      CompactOrdered(qs[k]);
    }
  }

  // ----- Partial posts ---------------------------------------------------------------------

  function WriteCount(wrs: seq<SendWr>): nat {
    if wrs == [] then 0 else WriteCount(wrs[..|wrs| - 1]) + Bit(wrs[|wrs| - 1].write)
  }

  function EntriesOf(wrs: seq<SendWr>, signalAll: bool, event: nat): (es: seq<Entry>)
    ensures |es| == |wrs|
    ensures forall i :: 0 <= i < |es| ==>
              es[i] == Entry(wrs[i].id, wrs[i].write, signalAll || wrs[i].signaled, event, i)
  {
    seq(|wrs|, i requires 0 <= i < |wrs| => Entry(wrs[i].id, wrs[i].write, signalAll || wrs[i].signaled, event, i))
  }

  /** What recording `wrs` for `qp` does to a ledger: the history of the queue pair is extended by
      exactly these requests, in order, and no other record is touched. */
  ghost predicate Records(l: Ledger, l': Ledger, qp: QueuePair, wrs: seq<SendWr>, event: nat) {
    var k := FindQp(QueuePairs(l.queues), qp.address);
    if !qp.rc then l' == l
    else if k == |l.queues| then l' == l.(untracked := l.untracked + WriteCount(wrs))
    else
      var q := l.queues[k];
      && |l'.queues| == |l.queues|
      && l' == l.(queues := l.queues[k := l'.queues[k]], overruns := l'.overruns)
      && l'.queues[k] == q.(waiting := q.waiting + EntriesOf(wrs, q.signalAll, event))
  }

  lemma RecordsOne(l: Ledger, mid: Ledger, qp: QueuePair, wrs: seq<SendWr>, event: nat)
    requires wrs != [] && Records(l, mid, qp, wrs[..|wrs| - 1], event)
    ensures Records(l, Posted(mid, qp, wrs[|wrs| - 1], event, |wrs| - 1), qp, wrs, event)
  {
    hide Writes;
    var k := FindQp(QueuePairs(l.queues), qp.address);
    if qp.rc && k < |l.queues| {
      var all := l.queues[k].signalAll;
      assert QueuePairs(mid.queues) == QueuePairs(l.queues);
      assert EntriesOf(wrs, all, event) == EntriesOf(wrs[..|wrs| - 1], all, event) + [EntriesOf(wrs, all, event)[|wrs| - 1]];
    }
  }

  /** A chain is recorded as a whole, request by request. */
  lemma {:induction false} ChainRecords(l: Ledger, qp: QueuePair, wrs: seq<SendWr>, event: nat)
    ensures Records(l, Chain(l, qp, wrs, event), qp, wrs, event)
  {
    if wrs != [] {
      hide Records, Posted;
      ChainRecords(l, qp, wrs[..|wrs| - 1], event);
      RecordsOne(l, Chain(l, qp, wrs[..|wrs| - 1], event), qp, wrs, event);
    } else {
      var k := FindQp(QueuePairs(l.queues), qp.address);
      if k < |l.queues| {
        assert l.queues[k].waiting + EntriesOf(wrs, l.queues[k].signalAll, event) == l.queues[k].waiting;
      }
    }
  }

  lemma {:induction false} EntriesWrites(wrs: seq<SendWr>, signalAll: bool, event: nat)
    ensures Writes(EntriesOf(wrs, signalAll, event)) == WriteCount(wrs)
  {
    if wrs != [] {
      EntriesWrites(wrs[..|wrs| - 1], signalAll, event);
      var es := EntriesOf(wrs, signalAll, event);
      assert es[..|es| - 1] == EntriesOf(wrs[..|wrs| - 1], signalAll, event);
    }
  }

  /** Request `i` of the chain was handed to the provider: neither it nor one before it was refused. */
  predicate HandedOver(e: Event, i: nat)
    requires e.Post?
  {
    i < |e.wrs| && forall j :: 0 <= j <= i ==> !Refused(e.failed, e.bad, j)
  }

  lemma HandedOverBelow(e: Event, i: nat)
    requires e.Post?
    ensures HandedOver(e, i) <==> i < Accepted(e.wrs, e.failed, e.bad)
  {
  }

  /** The requests a post hands to the provider. */
  function Requests(e: Event): nat {
    if e.Post? then |set i | 0 <= i < |e.wrs| && HandedOver(e, i)| else 0
  }

  /** The RC WRITEs among them. */
  function AcceptedWrites(e: Event): nat {
    if e.Post? && e.target.rc then |set i | 0 <= i < |e.wrs| && HandedOver(e, i) && e.wrs[i].write| else 0
  }

  lemma {:induction false} WritePositions(wrs: seq<SendWr>)
    ensures |set i | 0 <= i < |wrs| && wrs[i].write| == WriteCount(wrs)
  {
    if wrs != [] {
      var init := wrs[..|wrs| - 1];
      WritePositions(init);
      var before, now := set i | 0 <= i < |init| && init[i].write, set i | 0 <= i < |wrs| && wrs[i].write;
      assert now == if wrs[|init|].write then before + {|init|} else before;
    }
  }

  function Below(k: nat): (s: set<int>)
    ensures |s| == k && forall i :: i in s <==> 0 <= i < k
  {
    if k == 0 then {} else Below(k - 1) + {k - 1}
  }

  lemma AcceptedCounts(e: Event)
    requires e.Post?
    ensures Requests(e) == Accepted(e.wrs, e.failed, e.bad)
    ensures AcceptedWrites(e) == if e.target.rc then WriteCount(e.wrs[..Accepted(e.wrs, e.failed, e.bad)]) else 0
  {
    var k := Accepted(e.wrs, e.failed, e.bad);
    forall i | 0 <= i < |e.wrs|
      ensures HandedOver(e, i) <==> i < k
    {
      HandedOverBelow(e, i);
    }
    assert (set i | 0 <= i < |e.wrs| && HandedOver(e, i)) == Below(k);
    var taken := e.wrs[..k];
    WritePositions(taken);
    assert (set i | 0 <= i < |e.wrs| && HandedOver(e, i) && e.wrs[i].write) == (set i | 0 <= i < |taken| && taken[i].write);
  }

  /** One post: every accepted WRITE is counted once, as posted or as untracked. */
  lemma PostCounts(p: Probe, l: Ledger, e: Event, event: nat)
    requires Agrees(p, l) && !e.Observe?
    ensures var s, s' := p.stats, Step(p, e).stats;
            && s.posted <= s'.posted && s.untrackedWrites <= s'.untrackedWrites
            && s'.posted + s'.untrackedWrites == s.posted + s.untrackedWrites + AcceptedWrites(e)
            && (s'.posted == s.posted || s'.untrackedWrites == s.untrackedWrites)
  {
    hide Agrees, Step, Writes, PendingOf, HandedOver;
    StepAgrees(p, l, e, event);
    LedgerCounts(p, l);
    LedgerCounts(Step(p, e), Next(l, e, event));
    match e
    case Post(qp, wrs, failed, bad) =>
      AcceptedCounts(e);
      ChainCounts(l, qp, wrs[..Accepted(wrs, failed, bad)], event);
    case Create(qp, capacity, signalAll) =>
      var q := NewQueue(qp, capacity, signalAll);
      assert PostedOf(q) == 0 by { EmptyWrites(); }
      Append1(l.queues, q, PostedOf);
    case Destroy(address) =>
      var k := FindQp(QueuePairs(l.queues), address);
      if k < |l.queues| { Moved(l, k, PostedOf); }
    case Poll(cq, count, Failed) =>
    case Poll(cq, count, Entries(wcs)) => BatchCounts(l, cq, wcs, event);
  }

  lemma EmptyWrites()
    ensures Writes([]) == 0
  {
  }

  lemma LedgerCounts(p: Probe, l: Ledger)
    requires Agrees(p, l)
    ensures p.stats.posted == Total(l, PostedOf) && p.stats.untrackedWrites == l.untracked
  {
    hide Sum, CompactAll;
  }

  lemma {:induction false} ChainCounts(l: Ledger, qp: QueuePair, wrs: seq<SendWr>, event: nat)
    ensures var l' := Chain(l, qp, wrs, event);
            var k := FindQp(QueuePairs(l.queues), qp.address);
            var observed := qp.rc && k < |l.queues|;
            && Total(l', PostedOf) == Total(l, PostedOf) + (if observed then WriteCount(wrs) else 0)
            && l'.untracked == l.untracked + (if qp.rc && !observed then WriteCount(wrs) else 0)
  {
    hide Chain, Sum;
    ChainRecords(l, qp, wrs, event);
    var k := FindQp(QueuePairs(l.queues), qp.address);
    if qp.rc && k < |l.queues| {
      var q' := Chain(l, qp, wrs, event).queues[k];
      EntriesWrites(wrs, l.queues[k].signalAll, event);
      WritesConcat(l.queues[k].waiting, EntriesOf(wrs, l.queues[k].signalAll, event));
      Replace(l, k, q', PostedOf);
      assert Chain(l, qp, wrs, event).queues == l.queues[k := q'];
    } else {
      assert Chain(l, qp, wrs, event).queues == l.queues;
    }
  }

  lemma PopKeepsPosted(q: Queue, id: nat, event: nat, index: nat)
    requires Matches(q, id)
    ensures FirstSignaled(q.waiting) < |q.waiting|
    ensures PostedOf(Pop(q, FirstSignaled(q.waiting), event, index)) == PostedOf(q)
  {
    hide FirstSignaled, Writes, PendingOf;
    PopRefines(q, id, event, index);
  }

  lemma CompletedCounts(l: Ledger, cq: nat, wc: Completion, event: nat, index: nat)
    ensures Total(Completed(l, cq, wc, event, index), PostedOf) == Total(l, PostedOf)
    ensures Completed(l, cq, wc, event, index).untracked == l.untracked
  {
    hide Sum, Matches, FirstSignaled, PostedOf, OutstandingOf, Pop;
    var k := FindNumber(QueuePairs(l.queues), cq, wc.number);
    if k < |l.queues| && l.queues[k].qp.rc && wc.success && !wc.recv && Matches(l.queues[k], wc.id) {
      PopKeepsPosted(l.queues[k], wc.id, event, index);
      Replace(l, k, Pop(l.queues[k], FirstSignaled(l.queues[k].waiting), event, index), PostedOf);
    }
  }

  lemma {:induction false} BatchCounts(l: Ledger, cq: nat, wcs: seq<Completion>, event: nat)
    ensures Total(Batch(l, cq, wcs, event), PostedOf) == Total(l, PostedOf)
    ensures Batch(l, cq, wcs, event).untracked == l.untracked
  {
    if wcs != [] {
      hide Total, Completed;
      BatchCounts(l, cq, wcs[..|wcs| - 1], event);
      CompletedCounts(Batch(l, cq, wcs[..|wcs| - 1], event), cq, wcs[|wcs| - 1], event, |wcs| - 1);
    }
  }

  function AllAccepted(body: seq<Event>): nat {
    if body == [] then 0 else AllAccepted(body[..|body| - 1]) + AcceptedWrites(body[|body| - 1])
  }

  /** Over a measurement: every RC WRITE the provider accepted is counted exactly once. */
  lemma {:induction false} EveryWriteIsCounted(p: Probe, body: seq<Event>)
    requires Body(body)
    ensures var s := Measure(p, body).stats;
            s.posted >= 0 && s.untrackedWrites >= 0 && s.posted + s.untrackedWrites == AllAccepted(body)
  {
    if body != [] {
      var init := body[..|body| - 1];
      EveryWriteIsCounted(p, init);
      MeasurementRefines(p, init);
      PostCounts(Measure(p, init), Record(p, init), body[|body| - 1], |init|);
    }
  }

  lemma MeasureStep(p: Probe, body: seq<Event>)
    requires body != []
    ensures Measure(p, body) == Step(Measure(p, body[..|body| - 1]), body[|body| - 1])
  {
    hide Step;
  }

  /** `batch` is the largest number of WRITEs any one call had accepted, when all are seen. */
  ghost predicate LargestPost(body: seq<Event>, batch: int, all: bool) {
    && batch >= 0
    && (batch > 0 ==> exists i :: 0 <= i < |body| && AcceptedWrites(body[i]) == batch)
    && (all ==> forall i :: 0 <= i < |body| ==> AcceptedWrites(body[i]) <= batch)
  }

  lemma LargestPostStep(init: seq<Event>, e: Event, batch: int, all: bool, delta: nat, still: bool)
    requires LargestPost(init, batch, all)
    requires delta == AcceptedWrites(e) || delta == 0
    requires still ==> all && delta == AcceptedWrites(e)
    ensures LargestPost(init + [e], Max(batch, delta), still)
  {
    hide AcceptedWrites;
    var body := init + [e];
    assert body[|init|] == e;
    if batch > 0 {
      var i :| 0 <= i < |init| && AcceptedWrites(init[i]) == batch;
      assert body[i] == init[i];
    }
    assert forall i :: 0 <= i < |init| ==> body[i] == init[i];
  }

  /** post_batch is the largest number of WRITEs any one call had accepted on an observed queue
      pair: exactly so when no WRITE went unobserved, and never more. */
  lemma {:induction false} PostBatchIsMaximum(p: Probe, body: seq<Event>)
    requires Body(body)
    ensures var s := Measure(p, body).stats;
            LargestPost(body, s.postBatch, s.untrackedWrites == 0)
  {
    if body != [] {
      hide Step, Agrees, Record, AcceptedWrites, LargestPost;
      var init, e := body[..|body| - 1], body[|body| - 1];
      MeasureStep(p, body);
      hide Measure;
      PostBatchIsMaximum(p, init);
      MeasurementRefines(p, init);
      EveryWriteIsCounted(p, init);
      PostCounts(Measure(p, init), Record(p, init), e, |init|);
      BatchAfter(Measure(p, init), Record(p, init), e);
      var before, after := Measure(p, init).stats, Measure(p, body).stats;
      if !e.Post? {
        OnlyPosts(e);
      }
      assert init + [e] == body;
      var delta := if e.Post? then after.posted - before.posted else 0;
      NotNegative(init, before.postBatch, before.untrackedWrites == 0);
      LargestPostStep(init, e, before.postBatch, before.untrackedWrites == 0, delta, after.untrackedWrites == 0);
    }
  }

  lemma NotNegative(body: seq<Event>, batch: int, all: bool)
    requires LargestPost(body, batch, all)
    ensures batch >= 0
  {
  }

  lemma OnlyPosts(e: Event)
    requires !e.Post?
    ensures AcceptedWrites(e) == 0
  {
  }

  lemma BatchAfter(p: Probe, l: Ledger, e: Event)
    requires Agrees(p, l) && !e.Observe?
    ensures Step(p, e).stats.postBatch ==
            if e.Post? then Max(p.stats.postBatch, Step(p, e).stats.posted - p.stats.posted) else p.stats.postBatch
  {
    match e
    case Post(qp, wrs, failed, bad) =>
      RecordAllKeepsMaxima(p, qp, wrs[..Accepted(wrs, failed, bad)]);
    case Poll(cq, count, Entries(wcs)) =>
      var sized :=
        if p.stats.inFlight > 0 && count > 0 && count > p.stats.pollEntries
        then p.(stats := p.stats.(pollEntries := count)) else p;
      CompleteAllKeepsMaxima(sized, cq, wcs);
    case _ =>
  }

  lemma {:induction false} RecordAllKeepsMaxima(p: Probe, qp: QueuePair, wrs: seq<SendWr>)
    ensures RecordAll(p, qp, wrs).stats.postBatch == p.stats.postBatch
    ensures RecordAll(p, qp, wrs).postedWrs == p.postedWrs
  {
    if wrs != [] {
      RecordAllKeepsMaxima(p, qp, wrs[..|wrs| - 1]);
    }
  }

  lemma {:induction false} CompleteAllKeepsMaxima(p: Probe, cq: nat, wcs: seq<Completion>)
    ensures CompleteAll(p, cq, wcs).stats.postBatch == p.stats.postBatch
    ensures CompleteAll(p, cq, wcs).stats.peakInFlight == p.stats.peakInFlight
    ensures CompleteAll(p, cq, wcs).postedWrs == p.postedWrs
  {
    if wcs != [] {
      CompleteAllKeepsMaxima(p, cq, wcs[..|wcs| - 1]);
    }
  }

  function AllRequests(body: seq<Event>): nat {
    if body == [] then 0
    else
      var e := body[|body| - 1];
      AllRequests(body[..|body| - 1]) + Requests(e)
  }

  /** posted_wrs counts exactly the requests before each reported failure, tracked or not. */
  lemma {:induction false} PostedWrsCountsAccepted(p: Probe, es: seq<Event>)
    ensures Run(p, es).postedWrs == p.postedWrs + AllRequests(es)
  {
    if es != [] {
      var before := Run(p, es[..|es| - 1]);
      PostedWrsCountsAccepted(p, es[..|es| - 1]);
      hide HandedOver;
      match es[|es| - 1]
      case Post(qp, wrs, failed, bad) =>
        AcceptedCounts(es[|es| - 1]);
        RecordAllKeepsMaxima(before, qp, wrs[..Accepted(wrs, failed, bad)]);
      case Poll(cq, count, Entries(wcs)) =>
        var sized :=
          if before.stats.inFlight > 0 && count > 0 && count > before.stats.pollEntries
          then before.(stats := before.stats.(pollEntries := count)) else before;
        CompleteAllKeepsMaxima(sized, cq, wcs);
      case _ =>
    }
  }

  // ----- The peak --------------------------------------------------------------------------

  lemma {:induction false} PostingPeaks(p: Probe, qp: QueuePair, wrs: seq<SendWr>)
    requires p.stats.inFlight <= p.stats.peakInFlight
    ensures var s := RecordAll(p, qp, wrs).stats;
            && p.stats.inFlight <= s.inFlight
            && s.peakInFlight == Max(p.stats.peakInFlight, s.inFlight)
  {
    if wrs != [] {
      PostingPeaks(p, qp, wrs[..|wrs| - 1]);
    }
  }

  lemma RetiringShrinks(p: Probe, l: Ledger, cq: nat, wc: Completion)
    requires Agrees(p, l)
    ensures RecordCompletion(p, cq, wc).stats.inFlight <= p.stats.inFlight
  {
    hide Totals, Ordered;
    var k := FindNumber(QpsOf(p.tracks), cq, wc.number);
    if k < |p.tracks| {
      CompactOrdered(l.queues[k]);
      hide Compact;
      assert Ordered(p.tracks[k]);
      FirstPending(p.tracks[k]);
    }
  }

  lemma FirstPending(t: Track)
    requires Ordered(t)
    ensures t.pending != [] ==> t.completed <= t.pending[0].sequence
  {
  }

  lemma {:induction false} RetiringNeverPeaks(p: Probe, l: Ledger, cq: nat, wcs: seq<Completion>, event: nat)
    requires Agrees(p, l)
    ensures CompleteAll(p, cq, wcs).stats.inFlight <= p.stats.inFlight
  {
    if wcs != [] {
      hide Agrees, RecordCompletion;
      RetiringNeverPeaks(p, l, cq, wcs[..|wcs| - 1], event);
      BatchAgrees(p, l, cq, wcs[..|wcs| - 1], event);
      RetiringShrinks(CompleteAll(p, cq, wcs[..|wcs| - 1]), Batch(l, cq, wcs[..|wcs| - 1], event), cq, wcs[|wcs| - 1]);
    }
  }

  lemma PeakStep(p: Probe, l: Ledger, e: Event, event: nat)
    requires Agrees(p, l) && !e.Observe? && p.stats.inFlight <= p.stats.peakInFlight
    ensures Step(p, e).stats.peakInFlight == Max(p.stats.peakInFlight, Step(p, e).stats.inFlight)
  {
    match e
    case Create(_, _, _) =>
    case Destroy(address) =>
      var k := FindQp(QpsOf(p.tracks), address);
      if k < |p.tracks| {
        assert p.tracks[k] == Compact(l.queues[k]);
      }
    case Post(qp, wrs, failed, bad) =>
      PostingPeaks(p, qp, wrs[..Accepted(wrs, failed, bad)]);
    case Poll(cq, count, Failed) =>
    case Poll(cq, count, Entries(wcs)) =>
      var sized :=
        if p.stats.inFlight > 0 && count > 0 && count > p.stats.pollEntries
        then p.(stats := p.stats.(pollEntries := count)) else p;
      Unconstrained(p, l, sized);
      RetiringNeverPeaks(sized, l, cq, wcs, event);
      CompleteAllKeepsMaxima(sized, cq, wcs);
  }

  /** peak_in_flight is the largest in_flight after any prefix of the measurement. */
  lemma {:induction false} PeakIsMaximum(p: Probe, body: seq<Event>)
    requires Body(body)
    ensures var peak := Measure(p, body).stats.peakInFlight;
            && (forall k :: 0 <= k <= |body| ==> Measure(p, body[..k]).stats.inFlight <= peak)
            && (exists k :: 0 <= k <= |body| && Measure(p, body[..k]).stats.inFlight == peak)
  {
    if body == [] {
      assert body[..0] == [];
    } else {
      hide Agrees, Step, Record;
      var init := body[..|body| - 1];
      MeasureStep(p, body);
      hide Measure;
      PeakIsMaximum(p, init);
      MeasurementRefines(p, init);
      assert init[..|init|] == init && body[..|body|] == body;
      PeakStep(Measure(p, init), Record(p, init), body[|body| - 1], |init|);
      var was :| 0 <= was <= |init| && Measure(p, init[..was]).stats.inFlight == Measure(p, init).stats.peakInFlight;
      var peak := Measure(p, body).stats.peakInFlight;
      forall k | 0 <= k <= |body|
        ensures Measure(p, body[..k]).stats.inFlight <= peak
      {
        if k < |body| { assert body[..k] == init[..k]; }
      }
      assert body[..was] == init[..was];
    }
  }

  // ----- Polls and failed posts ------------------------------------------------------------

  /** At this event the probe compares a poll's count with poll_entries. */
  ghost predicate Compared(p: Probe, body: seq<Event>, k: nat)
    requires k < |body|
  {
    body[k].Poll? && body[k].count > 0 && Measure(p, body[..k]).stats.inFlight > 0
  }

  ghost predicate LargestPoll(p: Probe, body: seq<Event>, entries: int) {
    && entries >= 0
    && (forall k :: 0 <= k < |body| && Compared(p, body, k) ==> body[k].count <= entries)
    && (entries > 0 ==> exists k :: 0 <= k < |body| && Compared(p, body, k) && body[k].count == entries)
  }

  lemma PollStep(p: Probe, l: Ledger, e: Event)
    requires Agrees(p, l) && !e.Observe?
    ensures Step(p, e).stats.pollEntries ==
            if e.Poll? && e.count > 0 && p.stats.inFlight > 0 then Max(p.stats.pollEntries, e.count) else p.stats.pollEntries
    ensures Step(p, e).stats.postErrors ==
            p.stats.postErrors + Bit(e.Post? && e.failed && e.target.rc && BadIsWrite(e.wrs, e.bad))
  {
    hide RecordAll, CompleteAll, BadIsWrite;
    match e
    case Post(qp, wrs, failed, bad) => RecordAllKeepsOthers(p, qp, wrs[..Accepted(wrs, failed, bad)]);
    case Poll(cq, count, Entries(wcs)) =>
      var sized :=
        if p.stats.inFlight > 0 && count > 0 && count > p.stats.pollEntries
        then p.(stats := p.stats.(pollEntries := count)) else p;
      CompleteAllKeepsOthers(sized, cq, wcs);
    case _ =>
  }

  lemma {:induction false} RecordAllKeepsOthers(p: Probe, qp: QueuePair, wrs: seq<SendWr>)
    ensures var s := RecordAll(p, qp, wrs).stats; s.pollEntries == p.stats.pollEntries && s.postErrors == p.stats.postErrors
  {
    if wrs != [] {
      RecordAllKeepsOthers(p, qp, wrs[..|wrs| - 1]);
    }
  }

  lemma {:induction false} CompleteAllKeepsOthers(p: Probe, cq: nat, wcs: seq<Completion>)
    ensures var s := CompleteAll(p, cq, wcs).stats; s.pollEntries == p.stats.pollEntries && s.postErrors == p.stats.postErrors
  {
    if wcs != [] {
      CompleteAllKeepsOthers(p, cq, wcs[..|wcs| - 1]);
    }
  }

  /** Whether a poll is compared depends on the events before it only. */
  lemma ComparedEarlier(p: Probe, body: seq<Event>, k: nat)
    requires k + 1 < |body|
    ensures Compared(p, body, k) <==> Compared(p, body[..|body| - 1], k)
  {
    hide Measure;
    assert body[..k] == body[..|body| - 1][..k];
  }

  lemma LargestGrows(p: Probe, body: seq<Event>, before: int)
    requires body != [] && LargestPoll(p, body[..|body| - 1], before)
    ensures var e := body[|body| - 1];
            LargestPoll(p, body, if e.Poll? && Compared(p, body, |body| - 1) then Max(before, e.count) else before)
  {
    hide Measure;
    var init := body[..|body| - 1];
    forall k | 0 <= k < |init|
      ensures Compared(p, body, k) <==> Compared(p, init, k)
      ensures body[k] == init[k]
    {
      ComparedEarlier(p, body, k);
    }
    if before > 0 {
      var k :| 0 <= k < |init| && Compared(p, init, k) && init[k].count == before;
      assert Compared(p, body, k) && body[k].count == before;
    }
  }

  /** poll_entries is the largest count passed to a poll while WRITEs were in flight. */
  lemma {:induction false} PollEntriesIsMaximum(p: Probe, body: seq<Event>)
    requires Body(body)
    ensures LargestPoll(p, body, Measure(p, body).stats.pollEntries)
  {
    if body != [] {
      hide Agrees, Step, Record, LargestPoll;
      var init, e := body[..|body| - 1], body[|body| - 1];
      MeasureStep(p, body);
      hide Measure;
      PollEntriesIsMaximum(p, init);
      MeasurementRefines(p, init);
      PollStep(Measure(p, init), Record(p, init), e);
      LargestGrows(p, body, Measure(p, init).stats.pollEntries);
    }
  }

  /** The call failed and bad_wr points at an RC WRITE, of this chain or another. */
  ghost predicate LosesWrite(e: Event) {
    && e.Post? && e.failed && e.target.rc
    && (e.bad == Outside(true) || exists j :: 0 <= j < |e.wrs| && e.bad == At(j) && e.wrs[j].write)
  }

  ghost function LostWrites(body: seq<Event>): nat {
    if body == [] then 0 else LostWrites(body[..|body| - 1]) + Bit(LosesWrite(body[|body| - 1]))
  }

  /** post_errors counts the failed calls whose refused request is an RC WRITE. */
  lemma {:induction false} PostErrorsCounts(p: Probe, body: seq<Event>)
    requires Body(body)
    ensures Measure(p, body).stats.postErrors == LostWrites(body)
  {
    if body != [] {
      hide Agrees, Step, Record;
      var init := body[..|body| - 1];
      MeasureStep(p, body);
      hide Measure;
      PostErrorsCounts(p, init);
      MeasurementRefines(p, init);
      PollStep(Measure(p, init), Record(p, init), body[|body| - 1]);
    }
  }

  // ----- Capacity --------------------------------------------------------------------------

  ghost predicate InCapacity(tracks: seq<Track>) {
    forall i :: 0 <= i < |tracks| ==> tracks[i].posted - tracks[i].completed <= tracks[i].capacity
  }

  lemma PostOverruns(p: Probe, qp: QueuePair, wr: SendWr)
    ensures var after := RecordPosted(p, qp, wr);
            && after.stats.capacityErrors >= p.stats.capacityErrors
            && (InCapacity(p.tracks) ==>
                  (after.stats.capacityErrors == p.stats.capacityErrors <==> InCapacity(after.tracks)))
            && (!InCapacity(p.tracks) ==> !InCapacity(after.tracks))
  {
    var after := RecordPosted(p, qp, wr);
    var k := FindQp(QpsOf(p.tracks), qp.address);
    if !InCapacity(p.tracks) {
      var i :| 0 <= i < |p.tracks| && p.tracks[i].posted - p.tracks[i].completed > p.tracks[i].capacity;
      assert after.tracks[i].posted - after.tracks[i].completed > after.tracks[i].capacity;
    } else if qp.rc && k < |p.tracks| {
      assert InCapacity(after.tracks) <==> after.tracks[k].posted - after.tracks[k].completed <= after.tracks[k].capacity;
    }
  }

  lemma {:induction false} PostingOverruns(p: Probe, qp: QueuePair, wrs: seq<SendWr>)
    requires InCapacity(p.tracks)
    ensures var after := RecordAll(p, qp, wrs);
            && after.stats.capacityErrors >= p.stats.capacityErrors
            && (after.stats.capacityErrors == p.stats.capacityErrors <==> InCapacity(after.tracks))
  {
    if wrs != [] {
      hide InCapacity, RecordPosted;
      PostingOverruns(p, qp, wrs[..|wrs| - 1]);
      PostOverruns(RecordAll(p, qp, wrs[..|wrs| - 1]), qp, wrs[|wrs| - 1]);
    }
  }

  lemma {:induction false} ErrorsOnlyGrow(p: Probe, qp: QueuePair, wrs: seq<SendWr>)
    ensures RecordAll(p, qp, wrs).stats.capacityErrors >= p.stats.capacityErrors
  {
    if wrs != [] {
      ErrorsOnlyGrow(p, qp, wrs[..|wrs| - 1]);
    }
  }

  lemma RetiringFits(p: Probe, l: Ledger, cq: nat, wc: Completion)
    requires Agrees(p, l) && InCapacity(p.tracks)
    ensures InCapacity(RecordCompletion(p, cq, wc).tracks)
  {
    hide Totals, Ordered;
    var k := FindNumber(QpsOf(p.tracks), cq, wc.number);
    if k < |p.tracks| {
      CompactOrdered(l.queues[k]);
      hide Compact;
      assert Ordered(p.tracks[k]);
      FirstPending(p.tracks[k]);
    }
  }

  lemma {:induction false} PollingFits(p: Probe, l: Ledger, cq: nat, wcs: seq<Completion>, event: nat)
    requires Agrees(p, l)
    ensures CompleteAll(p, cq, wcs).stats.capacityErrors == p.stats.capacityErrors
    ensures InCapacity(p.tracks) ==> InCapacity(CompleteAll(p, cq, wcs).tracks)
  {
    if wcs != [] {
      hide Agrees, InCapacity;
      PollingFits(p, l, cq, wcs[..|wcs| - 1], event);
      BatchAgrees(p, l, cq, wcs[..|wcs| - 1], event);
      if InCapacity(p.tracks) {
        RetiringFits(CompleteAll(p, cq, wcs[..|wcs| - 1]), Batch(l, cq, wcs[..|wcs| - 1], event), cq, wcs[|wcs| - 1]);
      }
    }
  }

  lemma CapacityStep(p: Probe, l: Ledger, e: Event, event: nat)
    requires Agrees(p, l) && !e.Observe?
    ensures Step(p, e).stats.capacityErrors >= p.stats.capacityErrors
    ensures InCapacity(p.tracks) ==>
              (Step(p, e).stats.capacityErrors == p.stats.capacityErrors <==> InCapacity(Step(p, e).tracks))
  {
    match e
    case Create(_, _, _) =>
    case Destroy(address) =>
    case Post(qp, wrs, failed, bad) =>
      var accepted := Accepted(wrs, failed, bad);
      ErrorsOnlyGrow(p, qp, wrs[..accepted]);
      if InCapacity(p.tracks) {
        PostingOverruns(p, qp, wrs[..accepted]);
      }
    case Poll(cq, count, Failed) =>
    case Poll(cq, count, Entries(wcs)) =>
      var sized :=
        if p.stats.inFlight > 0 && count > 0 && count > p.stats.pollEntries
        then p.(stats := p.stats.(pollEntries := count)) else p;
      Unconstrained(p, l, sized);
      PollingFits(sized, l, cq, wcs, event);
  }

  /** capacity_errors stays zero exactly when no queue pair ever had more WRITEs outstanding than
      its send capacity. */
  lemma {:induction false} CapacityIsRespected(p: Probe, body: seq<Event>)
    requires Body(body)
    ensures Measure(p, body).stats.capacityErrors >= 0
    ensures Measure(p, body).stats.capacityErrors == 0 <==>
            forall k :: 0 <= k <= |body| ==> InCapacity(Measure(p, body[..k]).tracks)
  {
    hide Agrees, Step, Record, InCapacity, Measure;
    if body == [] {
      assert forall k :: 0 <= k <= |body| ==> body[..k] == [];
      NothingOverrun(p);
    } else {
      var init := body[..|body| - 1];
      MeasureStep(p, body);
      CapacityIsRespected(p, init);
      MeasurementRefines(p, init);
      CapacityStep(Measure(p, init), Record(p, init), body[|body| - 1], |init|);
      assert init[..|init|] == init && body[..|body|] == body;
      assert forall k :: 0 <= k <= |init| ==> body[..k] == init[..k];
    }
  }

  lemma NothingOverrun(p: Probe)
    ensures Measure(p, []).stats.capacityErrors == 0 && InCapacity(Measure(p, []).tracks)
  {
  }

  // ----- Range of the counters -------------------------------------------------------------

  /** An upper bound on what one event can add to any counter. */
  function Weight(e: Event): nat {
    match e
    case Post(_, wrs, _, _) => |wrs| + 1
    case Poll(_, count, Entries(wcs)) => |wcs| + Max(count, 0)
    case Poll(_, count, Failed) => 1 + Max(count, 0)
    case _ => 0
  }

  function TotalWeight(body: seq<Event>): nat {
    if body == [] then 0 else TotalWeight(body[..|body| - 1]) + Weight(body[|body| - 1])
  }

  /** Every counter that only grows, grows by at most `w`. */
  ghost predicate GrowsWithin(s: Stats, s': Stats, w: int) {
    && s.posted <= s'.posted <= s.posted + w
    && s.signaled <= s'.signaled <= s.signaled + w
    && s.cqes <= s'.cqes <= s.cqes + w
    && s.peakInFlight <= s'.peakInFlight <= s.peakInFlight + w
    && s.postBatch <= s'.postBatch <= s.postBatch + w
    && s.pollEntries <= s'.pollEntries <= s.pollEntries + w
    && s.postErrors <= s'.postErrors <= s.postErrors + w
    && s.completionErrors <= s'.completionErrors <= s.completionErrors + w
    && s.capacityErrors <= s'.capacityErrors <= s.capacityErrors + w
    && s.untrackedWrites <= s'.untrackedWrites <= s.untrackedWrites + w
  }

  lemma {:induction false} PostingGrows(p: Probe, qp: QueuePair, wrs: seq<SendWr>)
    requires p.stats.inFlight <= p.stats.peakInFlight
    ensures GrowsWithin(p.stats, RecordAll(p, qp, wrs).stats, |wrs|)
    ensures RecordAll(p, qp, wrs).stats.inFlight <= RecordAll(p, qp, wrs).stats.peakInFlight
  {
    if wrs != [] {
      PostingGrows(p, qp, wrs[..|wrs| - 1]);
    }
  }

  lemma CompletionGrows(p: Probe, cq: nat, wc: Completion)
    ensures GrowsWithin(p.stats, RecordCompletion(p, cq, wc).stats, 1)
  {
  }

  lemma {:induction false} PollingGrows(p: Probe, cq: nat, wcs: seq<Completion>)
    ensures GrowsWithin(p.stats, CompleteAll(p, cq, wcs).stats, |wcs|)
  {
    if wcs != [] {
      hide RecordCompletion;
      PollingGrows(p, cq, wcs[..|wcs| - 1]);
      CompletionGrows(CompleteAll(p, cq, wcs[..|wcs| - 1]), cq, wcs[|wcs| - 1]);
    }
  }

  lemma PostGrows(p: Probe, qp: QueuePair, wrs: seq<SendWr>, failed: bool, bad: BadWr)
    requires p.stats.inFlight <= p.stats.peakInFlight && p.stats.postBatch >= 0
    ensures GrowsWithin(p.stats, PostSend(p, qp, wrs, failed, bad).stats, |wrs| + 1)
  {
    hide RecordAll, BadIsWrite;
    var accepted := Accepted(wrs, failed, bad);
    PostingGrows(p, qp, wrs[..accepted]);
    RecordAllKeepsMaxima(p, qp, wrs[..accepted]);
  }

  lemma StepGrows(p: Probe, e: Event)
    requires !e.Observe? && p.tracking && p.stats.inFlight <= p.stats.peakInFlight && p.stats.postBatch >= 0
    requires p.stats.pollEntries >= 0
    ensures GrowsWithin(p.stats, Step(p, e).stats, Weight(e))
  {
    hide PostSend, CompleteAll;
    match e
    case Post(qp, wrs, failed, bad) => PostGrows(p, qp, wrs, failed, bad);
    case Poll(cq, count, Entries(wcs)) =>
      var sized :=
        if p.stats.inFlight > 0 && count > 0 && count > p.stats.pollEntries
        then p.(stats := p.stats.(pollEntries := count)) else p;
      PollingGrows(sized, cq, wcs);
      CompleteAllKeepsOthers(sized, cq, wcs);
    case _ =>
  }

  /** No counter of a measurement is negative or exceeds the measurement's weight, so unsigned
      64-bit counters hold them all while that weight does. */
  ghost predicate InRange(s: Stats, w: int) {
    GrowsWithin(ZERO, s, w) && 0 <= s.completed <= w && 0 <= s.inFlight <= s.peakInFlight
  }

  lemma RangeStep(p: Probe, l: Ledger, e: Event, event: nat, w: nat)
    requires Agrees(p, l) && !e.Observe? && InRange(p.stats, w)
    ensures InRange(Step(p, e).stats, w + Weight(e))
  {
    hide Agrees, Step, Next, Weight;
    AgreesTracks(p, l);
    StepGrows(p, e);
    PeakStep(p, l, e, event);
    StepAgrees(p, l, e, event);
    CompletedInRange(Step(p, e), Next(l, e, event));
  }

  lemma {:induction false} CountersStayInRange(p: Probe, body: seq<Event>)
    requires Body(body)
    ensures InRange(Measure(p, body).stats, TotalWeight(body))
  {
    if body != [] {
      hide Agrees, Step, Record, Weight, InRange;
      var init := body[..|body| - 1];
      MeasureStep(p, body);
      hide Measure;
      CountersStayInRange(p, init);
      MeasurementRefines(p, init);
      RangeStep(Measure(p, init), Record(p, init), body[|body| - 1], |init|, TotalWeight(init));
    }
  }

  lemma CompletedInRange(p: Probe, l: Ledger)
    requires Agrees(p, l)
    ensures 0 <= p.stats.completed <= p.stats.posted && 0 <= p.stats.inFlight
  {
    hide Sum, CompactAll;
    PostedSplits(l.queues);
    PostedSplits(l.gone);
  }

  // ----- After the measurement -------------------------------------------------------------

  /** Once observation stops, the totals stay what they were until it is started again. */
  lemma {:induction false} StoppedTotalsStay(p: Probe, body: seq<Event>, after: seq<Event>)
    requires forall i :: 0 <= i < |after| ==> after[i] != Observe(true)
    ensures var stopped := ObserveWrites(Measure(p, body), false);
            Run(stopped, after).stats == Measure(p, body).stats && !Run(stopped, after).tracking
  {
    if after != [] {
      StoppedTotalsStay(p, body, after[..|after| - 1]);
    }
  }
}
