/** The reference the probe is compared with: every queue pair keeps the whole sequence of entries
    posted to its send queue in this measurement, and a matching success CQE pops everything up to
    and including the first signaled entry still outstanding. */
module ProbeLedger {
  import opened Probe

  /** An accepted work request: `event` and `index` say which post of the measurement and which
      request of its chain it was. `signaled` includes the queue pair's sq_sig_all. */
  datatype Entry = Entry(id: nat, write: bool, signaled: bool, event: nat, index: nat)

  /** A matched CQE: the entry it completed, the WRITEs it retired, and where it was polled. */
  datatype Ack = Ack(entry: nat, retired: nat, event: nat, index: nat)

  /** `waiting` is the FIFO of outstanding entries and `retired` what has left it, in order. */
  datatype Queue = Queue(
    qp: QueuePair, capacity: nat, signalAll: bool,
    retired: seq<Entry>, waiting: seq<Entry>, acks: seq<Ack>)
  {
    /** Every entry posted, oldest first. */
    function History(): seq<Entry> {
      retired + waiting
    }
  }

  datatype Ledger = Ledger(
    queues: seq<Queue>,  // live queue pairs, newest first
    gone: seq<Queue>,    // destroyed in this measurement
    faults: nat, overruns: nat, untracked: nat)

  // ----- Counting WRITEs -------------------------------------------------------------------

  function Writes(es: seq<Entry>): nat {
    if es == [] then 0 else Writes(es[..|es| - 1]) + Bit(es[|es| - 1].write)
  }

  function SignaledWrites(es: seq<Entry>): nat {
    if es == [] then 0
    else SignaledWrites(es[..|es| - 1]) + Bit(es[|es| - 1].write && es[|es| - 1].signaled)
  }

  function ProductiveAcks(acks: seq<Ack>): nat {
    if acks == [] then 0 else ProductiveAcks(acks[..|acks| - 1]) + Bit(acks[|acks| - 1].retired != 0)
  }

  lemma {:induction false} WritesConcat(a: seq<Entry>, b: seq<Entry>)
    ensures Writes(a + b) == Writes(a) + Writes(b)
  {
    if b == [] {
      assert a + b == a;
    } else {
      WritesConcat(a, b[..|b| - 1]);
      assert (a + b)[..|a + b| - 1] == a + b[..|b| - 1];
    }
  }

  lemma WritesSplit(es: seq<Entry>, k: nat)
    requires k <= |es|
    ensures Writes(es) == Writes(es[..k]) + Writes(es[k..])
  {
    WritesConcat(es[..k], es[k..]);
    assert es[..k] + es[k..] == es;
  }

  /** No WRITEs are counted exactly when none is there. */
  lemma {:induction false} NoWrites(es: seq<Entry>)
    ensures Writes(es) == 0 <==> forall i :: 0 <= i < |es| ==> !es[i].write
  {
    if es != [] {
      NoWrites(es[..|es| - 1]);
      assert forall i :: 0 <= i < |es| - 1 ==> es[..|es| - 1][i] == es[i];
    }
  }

  function PostedOf(q: Queue): nat { Writes(q.retired) + Writes(q.waiting) }

  function CompletedOf(q: Queue): nat { Writes(q.retired) }

  function OutstandingOf(q: Queue): nat { Writes(q.waiting) }

  function SignaledOf(q: Queue): nat { SignaledWrites(q.History()) }

  function CqesOf(q: Queue): nat { ProductiveAcks(q.acks) }

  // ----- The reference steps ---------------------------------------------------------------

  function QueuePairs(qs: seq<Queue>): (r: seq<QueuePair>)
    ensures |r| == |qs| && forall i :: 0 <= i < |r| ==> r[i] == qs[i].qp
  {
    seq(|qs|, i requires 0 <= i < |qs| => qs[i].qp)
  }

  /** The first signaled entry, or the length. */
  function FirstSignaled(es: seq<Entry>): (j: nat)
    ensures j <= |es|
    ensures j < |es| ==> es[j].signaled
    ensures forall i :: 0 <= i < j ==> !es[i].signaled
  {
    if es == [] || es[0].signaled then 0 else 1 + FirstSignaled(es[1..])
  }

  function Append(q: Queue, wr: SendWr, event: nat, index: nat): Queue {
    q.(waiting := q.waiting + [Entry(wr.id, wr.write, q.signalAll || wr.signaled, event, index)])
  }

  function Posted(l: Ledger, qp: QueuePair, wr: SendWr, event: nat, index: nat): Ledger {
    var k := FindQp(QueuePairs(l.queues), qp.address);
    if !qp.rc then l
    else if k == |l.queues| then l.(untracked := l.untracked + Bit(wr.write))
    else
      var q := Append(l.queues[k], wr, event, index);
      l.(queues := l.queues[k := q], overruns := l.overruns + Bit(wr.write && OutstandingOf(q) > q.capacity))
  }

  function Chain(l: Ledger, qp: QueuePair, wrs: seq<SendWr>, event: nat): Ledger {
    if wrs == [] then l
    else Posted(Chain(l, qp, wrs[..|wrs| - 1], event), qp, wrs[|wrs| - 1], event, |wrs| - 1)
  }

  /** The CQE names the first signaled outstanding entry. */
  predicate Matches(q: Queue, id: nat) {
    var j := FirstSignaled(q.waiting);
    j < |q.waiting| && q.waiting[j].id == id
  }

  /** Pop everything up to and including entry `j`. */
  function Pop(q: Queue, j: nat, event: nat, index: nat): Queue
    requires j < |q.waiting|
  {
    q.(retired := q.retired + q.waiting[..j + 1], waiting := q.waiting[j + 1..],
       acks := q.acks + [Ack(|q.retired| + j, Writes(q.waiting[..j + 1]), event, index)])
  }

  function Completed(l: Ledger, cq: nat, wc: Completion, event: nat, index: nat): Ledger {
    var k := FindNumber(QueuePairs(l.queues), cq, wc.number);
    if k == |l.queues| || !l.queues[k].qp.rc then l
    else
      var q := l.queues[k];
      if !wc.success then l.(faults := l.faults + Bit(OutstandingOf(q) != 0))
      else if wc.recv then l
      else if !Matches(q, wc.id) then l.(faults := l.faults + 1)
      else l.(queues := l.queues[k := Pop(q, FirstSignaled(q.waiting), event, index)])
  }

  function Batch(l: Ledger, cq: nat, wcs: seq<Completion>, event: nat): Ledger {
    if wcs == [] then l
    else Completed(Batch(l, cq, wcs[..|wcs| - 1], event), cq, wcs[|wcs| - 1], event, |wcs| - 1)
  }

  function Gone(l: Ledger, address: nat): Ledger {
    var k := FindQp(QueuePairs(l.queues), address);
    if k == |l.queues| then l
    else l.(queues := l.queues[..k] + l.queues[k + 1..], gone := l.gone + [l.queues[k]])
  }

  function NewQueue(qp: QueuePair, capacity: nat, signalAll: bool): Queue {
    Queue(qp, capacity, signalAll, [], [], [])
  }

  ghost function Next(l: Ledger, e: Event, event: nat): Ledger {
    match e
    case Create(qp, capacity, signalAll) => l.(queues := [NewQueue(qp, capacity, signalAll)] + l.queues)
    case Destroy(address) => Gone(l, address)
    case Observe(_) => l
    case Post(qp, wrs, failed, bad) => Chain(l, qp, wrs[..Accepted(wrs, failed, bad)], event)
    case Poll(cq, _, Failed) => l.(faults := l.faults + Bit(Sum(l.queues, OutstandingOf) > 0))
    case Poll(cq, _, Entries(wcs)) => Batch(l, cq, wcs, event)
  }

  function Opened(tracks: seq<Track>): (qs: seq<Queue>)
    ensures |qs| == |tracks|
    ensures forall i :: 0 <= i < |qs| ==> qs[i] == NewQueue(tracks[i].qp, tracks[i].capacity, tracks[i].signalAll)
  {
    seq(|tracks|, i requires 0 <= i < |tracks| => NewQueue(tracks[i].qp, tracks[i].capacity, tracks[i].signalAll))
  }

  ghost function Record(p: Probe, body: seq<Event>): Ledger {
    if body == [] then Ledger(Opened(p.tracks), [], 0, 0, 0)
    else Next(Record(p, body[..|body| - 1]), body[|body| - 1], |body| - 1)
  }

  // ----- Sums over queue pairs -------------------------------------------------------------

  ghost function Sum(qs: seq<Queue>, f: Queue -> nat): nat {
    if qs == [] then 0 else f(qs[0]) + Sum(qs[1..], f)
  }

  lemma {:induction false} SumConcat(a: seq<Queue>, b: seq<Queue>, f: Queue -> nat)
    ensures Sum(a + b, f) == Sum(a, f) + Sum(b, f)
  {
    if a == [] {
      assert a + b == b;
    } else {
      SumConcat(a[1..], b, f);
      assert (a + b)[1..] == a[1..] + b;
    }
  }

  lemma SumSplit(qs: seq<Queue>, k: nat, f: Queue -> nat)
    requires k < |qs|
    ensures Sum(qs, f) == Sum(qs[..k], f) + f(qs[k]) + Sum(qs[k + 1..], f)
    ensures Sum(qs[..k] + qs[k + 1..], f) == Sum(qs, f) - f(qs[k])
  {
    SumConcat(qs[..k], qs[k..], f);
    assert qs[..k] + qs[k..] == qs;
    SumConcat(qs[..k], qs[k + 1..], f);
    assert qs[k..][1..] == qs[k + 1..];
  }

  lemma SumUpdate(qs: seq<Queue>, k: nat, q: Queue, f: Queue -> nat)
    requires k < |qs|
    ensures Sum(qs[k := q], f) == Sum(qs, f) - f(qs[k]) + f(q)
  {
    SumSplit(qs, k, f);
    SumSplit(qs[k := q], k, f);
    assert qs[k := q][..k] == qs[..k] && qs[k := q][k + 1..] == qs[k + 1..];
  }

  lemma {:induction false} SumZero(qs: seq<Queue>, f: Queue -> nat)
    requires forall q <- qs :: f(q) == 0
    ensures Sum(qs, f) == 0
  {
    if qs != [] {
      SumZero(qs[1..], f);
    }
  }

  lemma {:induction false} SumAtLeast(qs: seq<Queue>, k: nat, f: Queue -> nat)
    requires k < |qs|
    ensures f(qs[k]) <= Sum(qs, f)
  {
    SumSplit(qs, k, f);
  }
}
