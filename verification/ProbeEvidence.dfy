/** What a measurement that ends with completed equal to posted proves about the work itself: every
    WRITE the provider accepted lies at or before a signaled request of its own queue pair whose
    success CQE was polled later. */
module ProbeEvidence {
  import opened Probe
  import opened ProbeLedger
  import opened ProbeRefinement
  import opened ProbeTheorems

  // ----- Where entries and acknowledgements come from --------------------------------------

  /** Neither this request of the chain nor one before it was refused. */
  predicate AcceptedWr(body: seq<Event>, event: nat, index: nat) {
    event < |body| && body[event].Post? && body[event].target.rc && HandedOver(body[event], index)
  }

  predicate AcceptedWrite(body: seq<Event>, event: nat, index: nat) {
    AcceptedWr(body, event, index) && body[event].wrs[index].write
  }

  /** The entry is that request, accepted on this queue pair. */
  predicate FromPost(body: seq<Event>, q: Queue, e: Entry) {
    && AcceptedWr(body, e.event, e.index)
    && body[e.event].target.address == q.qp.address
    && var wr := body[e.event].wrs[e.index];
       e.id == wr.id && e.write == wr.write && e.signaled == (q.signalAll || wr.signaled)
  }

  /** The acknowledgement is a success CQE polled from the queue pair's send CQ, naming the queue
      pair and the id of a signaled entry that was posted before. */
  predicate FromPoll(body: seq<Event>, q: Queue, a: Ack) {
    && a.entry < |q.retired| && q.retired[a.entry].signaled && q.retired[a.entry].event < a.event < |body|
    && body[a.event].Poll? && body[a.event].cq == q.qp.sendCq && body[a.event].polled.Entries?
    && a.index < |body[a.event].polled.wcs|
    && var wc := body[a.event].polled.wcs[a.index];
       wc.success && !wc.recv && wc.number == q.qp.number && wc.id == q.retired[a.entry].id
  }

  predicate Before(n: nat, i: nat, event: nat, index: nat) {
    n < event || (n == event && i < index)
  }

  predicate Earlier(e: Entry, event: nat, index: nat) {
    Before(e.event, e.index, event, index)
  }

  /** A later acknowledgement is of a later entry and comes from a later CQE. */
  predicate Later(a: Ack, b: Ack) {
    a.entry < b.entry && Before(a.event, a.index, b.event, b.index)
  }

  /** A queue that follows the measurement up to request `index` of event `event`. */
  ghost predicate Follows(body: seq<Event>, q: Queue, event: nat, index: nat) {
    && (forall e <- q.History() :: FromPost(body, q, e) && Earlier(e, event, index))
    && (forall i, j :: 0 <= i < j < |q.History()| ==> Earlier(q.History()[i], q.History()[j].event, q.History()[j].index))
    && (forall a <- q.acks :: FromPoll(body, q, a) && Before(a.event, a.index, event, index))
    && (forall i, j :: 0 <= i < j < |q.acks| ==> Later(q.acks[i], q.acks[j]))
    && (q.retired != [] ==> q.acks != [] && q.acks[|q.acks| - 1].entry == |q.retired| - 1)
  }

  ghost predicate InLedger(l: Ledger, q: Queue) {
    q in l.queues || q in l.gone
  }

  ghost predicate AllFollow(body: seq<Event>, l: Ledger, event: nat, index: nat) {
    forall q :: InLedger(l, q) ==> Follows(body, q, event, index)
  }

  ghost predicate Recorded(l: Ledger, event: nat, index: nat) {
    exists q :: InLedger(l, q) && Has(q, event, index)
  }

  ghost predicate Has(q: Queue, event: nat, index: nat) {
    exists e <- q.History() :: e.event == event && e.index == index
  }

  /** Unless a WRITE went unobserved, every accepted WRITE before this point is in the ledger. */
  ghost predicate Complete(body: seq<Event>, l: Ledger, event: nat, index: nat) {
    l.untracked == 0 ==>
      forall n: nat, i: nat :: AcceptedWrite(body, n, i) && Before(n, i, event, index) ==> Recorded(l, n, i)
  }

  // ----- Each step keeps both --------------------------------------------------------------

  lemma AppendFollows(body: seq<Event>, q: Queue, event: nat, index: nat)
    requires Follows(body, q, event, index)
    requires AcceptedWr(body, event, index) && body[event].target.address == q.qp.address
    ensures Follows(body, Append(q, body[event].wrs[index], event, index), event, index + 1)
    ensures Has(Append(q, body[event].wrs[index], event, index), event, index)
  {
    var q' := Append(q, body[event].wrs[index], event, index);
    var e := q'.waiting[|q.waiting|];
    assert q'.History() == q.History() + [e];
    assert q'.History()[|q.History()|] == e;
    assert forall a :: FromPoll(body, q, a) ==> FromPoll(body, q', a);
    forall x | x in q'.History()
      ensures FromPost(body, q', x) && Earlier(x, event, index + 1)
    {
      assert x == e || x in q.History();
    }
  }

  lemma PopKeepsHistory(q: Queue, j: nat, event: nat, index: nat)
    requires j < |q.waiting|
    ensures Pop(q, j, event, index).History() == q.History()
  {
    assert q.waiting[..j + 1] + q.waiting[j + 1..] == q.waiting;
  }

  lemma PopFollows(body: seq<Event>, q: Queue, event: nat, index: nat)
    requires Follows(body, q, event, index) && event < |body|
    requires body[event].Poll? && body[event].cq == q.qp.sendCq && body[event].polled.Entries?
    requires index < |body[event].polled.wcs|
    requires var wc := body[event].polled.wcs[index];
             wc.success && !wc.recv && wc.number == q.qp.number && Matches(q, wc.id)
    ensures Follows(body, Pop(q, FirstSignaled(q.waiting), event, index), event, index + 1)
    ensures Pop(q, FirstSignaled(q.waiting), event, index).History() == q.History()
  {
    hide Writes, FromPost;
    var j := FirstSignaled(q.waiting);
    var q' := Pop(q, j, event, index);
    assert q'.History() == q.History() by { PopKeepsHistory(q, j, event, index); }
    forall e | e in q'.History()
      ensures FromPost(body, q', e)
    {
      PostOnSame(body, q, q', e);
    }
    var a := q'.acks[|q.acks|];
    assert q'.retired[a.entry] == q.waiting[j] == q.History()[a.entry];
    PostBeforePoll(body, q, q.History()[a.entry], event, index);
    hide Matches, FirstSignaled;
    forall b | b in q'.acks
      ensures FromPoll(body, q', b)
    {
      if b in q.acks {
        assert FromPoll(body, q, b);
        assert q'.retired[b.entry] == q.retired[b.entry];
      } else {
        assert b == a;
      }
    }
    forall i | 0 <= i < |q.acks|
      ensures Later(q'.acks[i], a)
    {
      assert q.acks[i] in q.acks && FromPoll(body, q, q.acks[i]);
    }
  }

  /** An entry recorded by the time of a poll comes from an earlier event. */
  lemma PostBeforePoll(body: seq<Event>, q: Queue, e: Entry, event: nat, index: nat)
    requires FromPost(body, q, e) && Earlier(e, event, index) && event < |body| && body[event].Poll?
    ensures e.event < event
  {
  }

  lemma PostOnSame(body: seq<Event>, q: Queue, q': Queue, e: Entry)
    requires FromPost(body, q, e) && q'.qp == q.qp && q'.signalAll == q.signalAll
    ensures FromPost(body, q', e)
  {
  }

  lemma Advance(body: seq<Event>, q: Queue, event: nat, index: nat, event': nat, index': nat)
    requires Follows(body, q, event, index)
    requires event < event' || (event == event' && index <= index')
    ensures Follows(body, q, event', index')
  {
  }

  /** No history is lost: every queue goes on, possibly longer. */
  ghost predicate Extends(l: Ledger, l': Ledger) {
    && l.untracked <= l'.untracked
    && forall q :: InLedger(l, q) ==> Continued(l', q)
  }

  ghost predicate Continued(l': Ledger, q: Queue) {
    exists q' :: InLedger(l', q') && q.History() <= q'.History()
  }

  lemma StillRecorded(l: Ledger, l': Ledger, event: nat, index: nat)
    requires Extends(l, l') && Recorded(l, event, index)
    ensures Recorded(l', event, index)
  {
    var q :| InLedger(l, q) && Has(q, event, index);
    assert Continued(l', q);
    var q' :| InLedger(l', q') && q.History() <= q'.History();
    var e :| e in q.History() && e.event == event && e.index == index;
    assert e in q'.History();
  }

  lemma StillComplete(body: seq<Event>, l: Ledger, l': Ledger, event: nat, index: nat, event': nat, index': nat)
    requires Extends(l, l') && Complete(body, l, event, index)
    requires l'.untracked == 0 ==>
               forall n: nat, i: nat ::
                 AcceptedWrite(body, n, i) && Before(n, i, event', index') && !Before(n, i, event, index) ==>
                   Recorded(l', n, i)
    ensures Complete(body, l', event', index')
  {
    hide Recorded, Extends;
    if l'.untracked == 0 {
      assert l.untracked == 0 by { UntrackedGrows(l, l'); }
      forall n: nat, i: nat | AcceptedWrite(body, n, i) && Before(n, i, event', index')
        ensures Recorded(l', n, i)
      {
        if Before(n, i, event, index) {
          StillRecorded(l, l', n, i);
        }
      }
    }
  }

  lemma UntrackedGrows(l: Ledger, l': Ledger)
    requires Extends(l, l')
    ensures l.untracked <= l'.untracked
  {
  }

  lemma UpdateExtends(l: Ledger, l': Ledger, k: nat)
    requires k < |l.queues| && |l'.queues| == |l.queues| && l'.gone == l.gone && l'.untracked == l.untracked
    requires l'.queues == l.queues[k := l'.queues[k]]
    requires l.queues[k].History() <= l'.queues[k].History()
    ensures Extends(l, l')
  {
    forall q | InLedger(l, q)
      ensures Continued(l', q)
    {
      if q in l.gone {
        assert InLedger(l', q);
      } else {
        var i :| 0 <= i < |l.queues| && l.queues[i] == q;
        assert InLedger(l', l'.queues[i]);
      }
    }
  }

  lemma UpdateFollows(body: seq<Event>, l: Ledger, l': Ledger, k: nat, event: nat, index: nat, event': nat, index': nat)
    requires AllFollow(body, l, event, index)
    requires k < |l.queues| && |l'.queues| == |l.queues| && l'.gone == l.gone
    requires l'.queues == l.queues[k := l'.queues[k]]
    requires Follows(body, l'.queues[k], event', index')
    requires event < event' || (event == event' && index <= index')
    ensures AllFollow(body, l', event', index')
  {
    hide Follows;
    forall q | InLedger(l', q)
      ensures Follows(body, q, event', index')
    {
      if q != l'.queues[k] {
        assert InLedger(l, q);
        Advance(body, q, event, index, event', index');
      }
    }
  }

  lemma SameFollows(body: seq<Event>, l: Ledger, l': Ledger, event: nat, index: nat, event': nat, index': nat)
    requires AllFollow(body, l, event, index)
    requires forall q :: InLedger(l', q) ==> InLedger(l, q) || (q.retired == [] && q.waiting == [] && q.acks == [])
    requires event < event' || (event == event' && index <= index')
    ensures AllFollow(body, l', event', index')
  {
    forall q | InLedger(l', q)
      ensures Follows(body, q, event', index')
    {
      if InLedger(l, q) {
        Advance(body, q, event, index, event', index');
      }
    }
  }

  /** The ledger is faithful to the measurement up to this point. */
  ghost predicate Faithful(body: seq<Event>, l: Ledger, event: nat, index: nat) {
    AllFollow(body, l, event, index) && Complete(body, l, event, index)
  }

  lemma PostedFaithful(body: seq<Event>, l: Ledger, event: nat, index: nat)
    requires Faithful(body, l, event, index)
    requires event < |body| && body[event].Post?
    requires index < Accepted(body[event].wrs, body[event].failed, body[event].bad)
    ensures Faithful(body, Posted(l, body[event].target, body[event].wrs[index], event, index), event, index + 1)
  {
    hide Follows, Complete, Recorded, Has, Extends;
    var qp, wr := body[event].target, body[event].wrs[index];
    var l' := Posted(l, qp, wr, event, index);
    var k := FindQp(QueuePairs(l.queues), qp.address);
    if qp.rc && k < |l.queues| {
      assert InLedger(l, l.queues[k]);
      AppendFollows(body, l.queues[k], event, index);
      UpdateFollows(body, l, l', k, event, index, event, index + 1);
      assert l'.queues[k].History() == l.queues[k].History() + [l'.queues[k].waiting[|l.queues[k].waiting|]];
      UpdateExtends(l, l', k);
      assert InLedger(l', l'.queues[k]);
      assert Recorded(l', event, index) by { Witness(l', l'.queues[k], event, index); }
      StillComplete(body, l, l', event, index, event, index + 1);
    } else {
      SameFollows(body, l, l', event, index, event, index + 1);
      assert Extends(l, l') by { SameExtends(l, l'); }
      StillComplete(body, l, l', event, index, event, index + 1);
    }
  }

  lemma Witness(l: Ledger, q: Queue, event: nat, index: nat)
    requires InLedger(l, q) && Has(q, event, index)
    ensures Recorded(l, event, index)
  {
  }

  lemma SameExtends(l: Ledger, l': Ledger)
    requires l.untracked <= l'.untracked
    requires forall q :: InLedger(l, q) ==> InLedger(l', q)
    ensures Extends(l, l')
  {
    forall q | InLedger(l, q)
      ensures Continued(l', q)
    {
      assert InLedger(l', q);
    }
  }

  lemma {:induction false} ChainFaithful(body: seq<Event>, l: Ledger, event: nat, count: nat)
    requires Faithful(body, l, event, 0)
    requires event < |body| && body[event].Post?
    requires count <= Accepted(body[event].wrs, body[event].failed, body[event].bad)
    ensures Faithful(body, Chain(l, body[event].target, body[event].wrs[..count], event), event, count)
  {
    hide Faithful, Posted;
    var wrs := body[event].wrs;
    if count > 0 {
      ChainFaithful(body, l, event, count - 1);
      PostedFaithful(body, Chain(l, body[event].target, wrs[..count - 1], event), event, count - 1);
      assert wrs[..count][..count - 1] == wrs[..count - 1];
    }
  }

  lemma CompletedFaithful(body: seq<Event>, l: Ledger, event: nat, index: nat)
    requires Faithful(body, l, event, index)
    requires event < |body| && body[event].Poll? && body[event].polled.Entries?
    requires index < |body[event].polled.wcs|
    ensures Faithful(body, Completed(l, body[event].cq, body[event].polled.wcs[index], event, index), event, index + 1)
  {
    hide Follows, Complete, Recorded, Has, Extends, Matches, FirstSignaled;
    var cq, wc := body[event].cq, body[event].polled.wcs[index];
    var l' := Completed(l, cq, wc, event, index);
    var k := FindNumber(QueuePairs(l.queues), cq, wc.number);
    if k < |l.queues| && l.queues[k].qp.rc && wc.success && !wc.recv && Matches(l.queues[k], wc.id) {
      assert InLedger(l, l.queues[k]);
      MatchesBound(l.queues[k], wc.id);
      PopFollows(body, l.queues[k], event, index);
      UpdateFollows(body, l, l', k, event, index, event, index + 1);
      UpdateExtends(l, l', k);
    } else {
      SameFollows(body, l, l', event, index, event, index + 1);
      SameExtends(l, l');
    }
    StillComplete(body, l, l', event, index, event, index + 1);
  }

  lemma {:induction false} BatchFaithful(body: seq<Event>, l: Ledger, event: nat, count: nat)
    requires Faithful(body, l, event, 0)
    requires event < |body| && body[event].Poll? && body[event].polled.Entries?
    requires count <= |body[event].polled.wcs|
    ensures Faithful(body, Batch(l, body[event].cq, body[event].polled.wcs[..count], event), event, count)
  {
    hide Faithful, Completed;
    var wcs := body[event].polled.wcs;
    if count > 0 {
      BatchFaithful(body, l, event, count - 1);
      CompletedFaithful(body, Batch(l, body[event].cq, wcs[..count - 1], event), event, count - 1);
      assert wcs[..count][..count - 1] == wcs[..count - 1];
    }
  }

  /** After its last request nothing more of a post can be accepted. */
  lemma NextEvent(body: seq<Event>, l: Ledger, event: nat, index: nat)
    requires Faithful(body, l, event, index) && event < |body|
    requires !body[event].Post? || index == Accepted(body[event].wrs, body[event].failed, body[event].bad)
    ensures Faithful(body, l, event + 1, 0)
  {
    SameFollows(body, l, l, event, index, event + 1, 0);
  }

  lemma OtherFaithful(body: seq<Event>, l: Ledger, l': Ledger, event: nat)
    requires Faithful(body, l, event, 0)
    requires l'.untracked == l.untracked
    requires forall q :: InLedger(l, q) ==> InLedger(l', q)
    requires forall q :: InLedger(l', q) ==> InLedger(l, q) || (q.retired == [] && q.waiting == [] && q.acks == [])
    ensures Faithful(body, l', event, 0)
  {
    hide Follows, Complete;
    SameFollows(body, l, l', event, 0, event, 0);
    SameExtends(l, l');
    StillComplete(body, l, l', event, 0, event, 0);
  }

  lemma NextFaithful(body: seq<Event>, l: Ledger, event: nat)
    requires Faithful(body, l, event, 0) && event < |body|
    ensures Faithful(body, Next(l, body[event], event), event + 1, 0)
  {
    hide Faithful, Chain, Batch;
    var l' := Next(l, body[event], event);
    match body[event]
    case Post(qp, wrs, failed, bad) =>
      var accepted := Accepted(wrs, failed, bad);
      ChainFaithful(body, l, event, accepted);
      NextEvent(body, l', event, accepted);
    case Poll(cq, _, Entries(wcs)) =>
      BatchFaithful(body, l, event, |wcs|);
      assert wcs[..|wcs|] == wcs;
      NextEvent(body, l', event, |wcs|);
    case Destroy(address) =>
      var k := FindQp(QueuePairs(l.queues), address);
      if k < |l.queues| {
        MovedSame(l, l', k);
      }
      OtherFaithful(body, l, l', event);
      NextEvent(body, l', event, 0);
    case _ =>
      OtherFaithful(body, l, l', event);
      NextEvent(body, l', event, 0);
  }

  lemma MovedSame(l: Ledger, l': Ledger, k: nat)
    requires k < |l.queues|
    requires l' == l.(queues := l.queues[..k] + l.queues[k + 1..], gone := l.gone + [l.queues[k]])
    ensures forall q :: InLedger(l, q) <==> InLedger(l', q)
  {
    assert l.queues == l.queues[..k] + [l.queues[k]] + l.queues[k + 1..];
  }

  lemma {:induction false} RecordFaithful(p: Probe, body: seq<Event>, n: nat)
    requires n <= |body|
    ensures Faithful(body, Record(p, body[..n]), n, 0)
  {
    if n == 0 {
      assert body[..0] == [];
      assert forall q :: InLedger(Record(p, []), q) ==> q.History() == [] && q.acks == [];
    } else {
      hide Faithful, Next;
      RecordFaithful(p, body, n - 1);
      NextFaithful(body, Record(p, body[..n - 1]), n - 1);
      assert body[..n][..n - 1] == body[..n - 1];
    }
  }

  // ----- The theorem -----------------------------------------------------------------------

  /** Entry `k` of `q` is at or before a signaled entry of `q` whose success CQE was polled. */
  ghost predicate Covered(body: seq<Event>, q: Queue, k: nat) {
    exists a <- q.acks :: FromPoll(body, q, a) && k <= a.entry
  }

  ghost predicate AllCovered(body: seq<Event>, l: Ledger) {
    forall q, k :: InLedger(l, q) && 0 <= k < |q.History()| && q.History()[k].write ==> Covered(body, q, k)
  }

  /** What has left the FIFO was acknowledged, by its last acknowledgement at the latest. */
  lemma RetiredIsCovered(body: seq<Event>, q: Queue, n: nat, k: nat)
    requires Follows(body, q, n, 0) && k < |q.retired|
    ensures Covered(body, q, k)
  {
    hide FromPost, Earlier, Later;
    var last := q.acks[|q.acks| - 1];
    assert last in q.acks && FromPoll(body, q, last);
  }

  lemma WaitingIsNotCovered(body: seq<Event>, q: Queue, k: nat)
    requires |q.retired| <= k
    ensures !Covered(body, q, k)
  {
  }

  lemma NothingOutstanding(body: seq<Event>, q: Queue, n: nat)
    requires Follows(body, q, n, 0)
    ensures OutstandingOf(q) == 0 <==>
            forall k :: 0 <= k < |q.History()| && q.History()[k].write ==> Covered(body, q, k)
  {
    hide Follows, Covered, Writes;
    NoWrites(q.waiting);
    if OutstandingOf(q) == 0 {
      forall k | 0 <= k < |q.History()| && q.History()[k].write
        ensures Covered(body, q, k)
      {
        assert k < |q.retired|;
        RetiredIsCovered(body, q, n, k);
      }
    } else {
      var i :| 0 <= i < |q.waiting| && q.waiting[i].write;
      assert q.History()[|q.retired| + i].write;
      WaitingIsNotCovered(body, q, |q.retired| + i);
    }
  }

  lemma SumIsZero(qs: seq<Queue>, f: Queue -> nat)
    ensures Sum(qs, f) == 0 <==> forall q <- qs :: f(q) == 0
  {
    if Sum(qs, f) == 0 {
      forall q | q in qs
        ensures f(q) == 0
      {
        var k :| 0 <= k < |qs| && qs[k] == q;
        SumAtLeast(qs, k, f);
      }
    } else if forall q <- qs :: f(q) == 0 {
      SumZero(qs, f);
    }
  }

  lemma NoneOutstanding(p: Probe, body: seq<Event>)
    requires Body(body)
    ensures var s := Measure(p, body).stats;
            s.completed == s.posted <==> forall q :: InLedger(Record(p, body), q) ==> OutstandingOf(q) == 0
  {
    var l := Record(p, body);
    Conservation(p, body);
    MeasurementRefines(p, body);
    hide Record, Compact, OutstandingOf, Measure;
    SumIsZero(l.queues, OutstandingOf);
    SumIsZero(l.gone, OutstandingOf);
  }

  /** A measurement ends with completed equal to posted exactly when every WRITE recorded on any
      queue pair, live or destroyed since, is covered by a polled success CQE. */
  lemma CompletionIsEvidence(p: Probe, body: seq<Event>)
    requires Body(body)
    ensures var s := Measure(p, body).stats;
            s.completed == s.posted <==> AllCovered(body, Record(p, body))
  {
    var l := Record(p, body);
    NoneOutstanding(p, body);
    RecordFaithful(p, body, |body|);
    assert body[..|body|] == body;
    hide Follows, Covered, Record, OutstandingOf, Measure;
    forall q | InLedger(l, q)
      ensures OutstandingOf(q) == 0 <==> forall k :: 0 <= k < |q.History()| && q.History()[k].write ==> Covered(body, q, k)
    {
      NothingOutstanding(body, q, |body|);
    }
  }

  /** In terms of the events alone: a signaled request accepted at or after request `index` of post
      `event`, on the same queue pair, and a later poll of that queue pair's success CQE for it. */
  ghost predicate Evidenced(body: seq<Event>, l: Ledger, event: nat, index: nat) {
    exists q, k, a ::
      && InLedger(l, q) && 0 <= k < |q.History()| && a in q.acks
      && FromPost(body, q, q.History()[k]) && q.History()[k].event == event && q.History()[k].index == index
      && FromPoll(body, q, a) && k <= a.entry && FromPost(body, q, q.retired[a.entry])
      && (k < a.entry ==> Earlier(q.History()[k], q.retired[a.entry].event, q.retired[a.entry].index))
      && OneCqeEach(q)
  }

  /** Different signaled entries of a queue pair are acknowledged by different CQEs, each later than the
      one before, also when work request ids are used again. */
  predicate OneCqeEach(q: Queue) {
    forall a <- q.acks, b <- q.acks :: a != b ==> Later(a, b) || Later(b, a)
  }

  /** No unobserved WRITE and completed equal to posted: completion evidence for every WRITE the
      provider accepted. Neither in_flight nor completion_errors is needed for this. */
  lemma CompletionEvidence(p: Probe, body: seq<Event>, event: nat, index: nat)
    requires Body(body) && AcceptedWrite(body, event, index)
    requires var s := Measure(p, body).stats; s.completed == s.posted && s.untrackedWrites == 0
    ensures Evidenced(body, Record(p, body), event, index)
  {
    hide AllCovered, Faithful, Measure, Record;
    var l := Record(p, body);
    CompletionIsEvidence(p, body);
    MeasurementRefines(p, body);
    LedgerCounts(Measure(p, body), l);
    RecordFaithful(p, body, |body|);
    assert body[..|body|] == body;
    Evidence(body, l, event, index);
  }

  lemma Evidence(body: seq<Event>, l: Ledger, event: nat, index: nat)
    requires AcceptedWrite(body, event, index)
    requires Faithful(body, l, |body|, 0) && l.untracked == 0 && AllCovered(body, l)
    ensures Evidenced(body, l, event, index)
  {
    hide FromPost, FromPoll, AcceptedWrite;
    assert Before(event, index, |body|, 0) by { AcceptedBound(body, event, index); }
    assert Recorded(l, event, index);
    var q :| InLedger(l, q) && Has(q, event, index);
    assert Follows(body, q, |body|, 0);
    var e :| e in q.History() && e.event == event && e.index == index;
    assert FromPost(body, q, e);
    var k :| 0 <= k < |q.History()| && q.History()[k] == e;
    assert e.write by { WriteEntry(body, q, e); }
    assert Covered(body, q, k);
    var a :| a in q.acks && FromPoll(body, q, a) && k <= a.entry;
    assert a.entry < |q.retired| by { PolledBound(body, q, a); }
    assert q.History()[a.entry] == q.retired[a.entry];
    assert FromPost(body, q, q.retired[a.entry]);
    DistinctCqes(body, q, |body|);
  }

  lemma DistinctCqes(body: seq<Event>, q: Queue, n: nat)
    requires Follows(body, q, n, 0)
    ensures OneCqeEach(q)
  {
    hide FromPost, FromPoll;
    forall a, b | a in q.acks && b in q.acks && a != b
      ensures Later(a, b) || Later(b, a)
    {
      var i :| 0 <= i < |q.acks| && q.acks[i] == a;
      var j :| 0 <= j < |q.acks| && q.acks[j] == b;
    }
  }

  lemma AcceptedBound(body: seq<Event>, event: nat, index: nat)
    requires AcceptedWrite(body, event, index)
    ensures event < |body|
  {
  }

  lemma WriteEntry(body: seq<Event>, q: Queue, e: Entry)
    requires FromPost(body, q, e) && AcceptedWrite(body, e.event, e.index)
    ensures e.write
  {
  }

  lemma PolledBound(body: seq<Event>, q: Queue, a: Ack)
    requires FromPoll(body, q, a)
    ensures a.entry < |q.retired|
  {
  }
}
