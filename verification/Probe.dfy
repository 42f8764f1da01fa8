/** The verbs probe's accounting on values: one record per observed queue pair holding two counters
    and the list of signaled work requests, and one structure of measured totals.

    Counters are unbounded here; ProbeTheorems.CountersStayInRange shows that none of the C
    program's unsigned subtractions goes below zero and bounds what every counter can reach. */
module Probe {

  /** The fields of an ibv_qp the probe reads. `address` is the pointer. */
  datatype QueuePair = QueuePair(address: nat, rc: bool, sendCq: nat, number: nat)

  datatype SendWr = SendWr(id: nat, write: bool, signaled: bool)

  /** A polled work completion: `recv` is the IBV_WC_RECV bit of its opcode. */
  datatype Completion = Completion(number: nat, success: bool, recv: bool, id: nat)

  datatype Pending = Pending(id: nat, sequence: int)

  datatype Track = Track(
    qp: QueuePair, capacity: nat, signalAll: bool,
    posted: int, completed: int, pending: seq<Pending>)

  datatype Stats = Stats(
    posted: int, completed: int, signaled: int, cqes: int,
    inFlight: int, peakInFlight: int, postBatch: int, pollEntries: int,
    postErrors: int, completionErrors: int, capacityErrors: int, untrackedWrites: int)

  const ZERO := Stats(0, 0, 0, 0, 0, 0, 0, 0, 0, 0, 0, 0)

  /** `postedWrs` is the one call counter the properties speak about. */
  datatype Probe = Probe(tracks: seq<Track>, stats: Stats, tracking: bool, postedWrs: int)

  /** Where bad_wr leaves the caller: no out-parameter, an unset one, the request at an index of the
      chain, or a request outside the chain. */
  datatype BadWr = NoParameter | Unset | At(index: nat) | Outside(write: bool)

  datatype Polled = Failed | Entries(wcs: seq<Completion>)

  datatype Event =
    | Create(qp: QueuePair, capacity: nat, signalAll: bool)
    | Destroy(address: nat)
    | Observe(enabled: bool)
    | Post(target: QueuePair, wrs: seq<SendWr>, failed: bool, bad: BadWr)
    | Poll(cq: nat, count: int, polled: Polled)

  function Max(a: int, b: int): int {
    if a < b then b else a
  }

  function Bit(b: bool): nat {
    if b then 1 else 0
  }

  // ----- Lookups in the list of queue pairs ------------------------------------------------

  function QpsOf(tracks: seq<Track>): (r: seq<QueuePair>)
    ensures |r| == |tracks| && forall i :: 0 <= i < |r| ==> r[i] == tracks[i].qp
  {
    seq(|tracks|, i requires 0 <= i < |tracks| => tracks[i].qp)
  }

  /** The first queue pair with this address, or the length of the list. */
  function FindQp(qps: seq<QueuePair>, address: nat): (k: nat)
    ensures k <= |qps|
    ensures k < |qps| ==> qps[k].address == address
    ensures forall i :: 0 <= i < k ==> qps[i].address != address
  {
    if qps == [] || qps[0].address == address then 0 else 1 + FindQp(qps[1..], address)
  }

  /** The first queue pair with this send CQ and number, or the length of the list. */
  function FindNumber(qps: seq<QueuePair>, cq: nat, number: nat): (k: nat)
    ensures k <= |qps|
    ensures k < |qps| ==> qps[k].sendCq == cq && qps[k].number == number
    ensures forall i :: 0 <= i < k ==> qps[i].sendCq != cq || qps[i].number != number
  {
    if qps == [] || (qps[0].sendCq == cq && qps[0].number == number) then 0
    else 1 + FindNumber(qps[1..], cq, number)
  }

  // ----- Posting ---------------------------------------------------------------------------

  function Counted(t: Track, write: bool): Track {
    t.(posted := t.posted + Bit(write))
  }

  /** One more signaled request at the end of the pending list. */
  function Pushed(t: Track, id: nat): Track {
    t.(pending := t.pending + [Pending(id, t.posted)])
  }

  function PostTrack(t: Track, wr: SendWr): Track {
    var counted := Counted(t, wr.write);
    if t.signalAll || wr.signaled then Pushed(counted, wr.id) else counted
  }

  function PostStats(s: Stats, t: Track, wr: SendWr): Stats {
    if !wr.write then s
    else
      s.(posted := s.posted + 1,
         inFlight := s.inFlight + 1,
         peakInFlight := Max(s.peakInFlight, s.inFlight + 1),
         capacityErrors := s.capacityErrors + Bit(t.posted + 1 - t.completed > t.capacity),
         signaled := s.signaled + Bit(t.signalAll || wr.signaled))
  }

  function RecordPosted(p: Probe, qp: QueuePair, wr: SendWr): Probe {
    if !qp.rc then p
    else
      var k := FindQp(QpsOf(p.tracks), qp.address);
      if k == |p.tracks| then
        p.(stats := p.stats.(untrackedWrites := p.stats.untrackedWrites + Bit(wr.write)))
      else
        p.(tracks := p.tracks[k := PostTrack(p.tracks[k], wr)], stats := PostStats(p.stats, p.tracks[k], wr))
  }

  function RecordAll(p: Probe, qp: QueuePair, wrs: seq<SendWr>): Probe {
    if wrs == [] then p else RecordPosted(RecordAll(p, qp, wrs[..|wrs| - 1]), qp, wrs[|wrs| - 1])
  }

  /** A failed call hands over no request from the one bad_wr points at on, and none at all if the
      caller has no bad_wr to go by. */
  predicate Refused(failed: bool, bad: BadWr, j: nat) {
    failed && (bad.NoParameter? || bad.Unset? || bad == At(j))
  }

  /** How many requests of the chain the loop over it takes before it stops. */
  function Accepted(wrs: seq<SendWr>, failed: bool, bad: BadWr): (k: nat)
    ensures k <= |wrs|
    ensures forall j :: 0 <= j < k ==> !Refused(failed, bad, j)
    ensures k < |wrs| ==> Refused(failed, bad, k)
  {
    if !failed || bad.Outside? then |wrs|
    else if bad.At? && bad.index < |wrs| then bad.index
    else if bad.At? then |wrs|
    else 0
  }

  predicate BadIsWrite(wrs: seq<SendWr>, bad: BadWr) {
    (bad.At? && bad.index < |wrs| && wrs[bad.index].write) || (bad.Outside? && bad.write)
  }

  function PostSend(p: Probe, qp: QueuePair, wrs: seq<SendWr>, failed: bool, bad: BadWr): Probe {
    var accepted := Accepted(wrs, failed, bad);
    var recorded := if p.tracking then RecordAll(p, qp, wrs[..accepted]) else p;
    var counted := recorded.(postedWrs := recorded.postedWrs + accepted);
    if !p.tracking then counted
    else
      counted.(stats := recorded.stats.(
        postErrors := recorded.stats.postErrors + Bit(failed && qp.rc && BadIsWrite(wrs, bad)),
        postBatch := Max(recorded.stats.postBatch, recorded.stats.posted - p.stats.posted)))
  }

  // ----- Polling ---------------------------------------------------------------------------

  function Error(p: Probe): Probe {
    p.(stats := p.stats.(completionErrors := p.stats.completionErrors + 1))
  }

  /** The oldest signaled request has completed. */
  function Retired(t: Track): Track
    requires t.pending != []
  {
    t.(completed := t.pending[0].sequence, pending := t.pending[1..])
  }

  function RetiredStats(s: Stats, retired: int): Stats {
    s.(completed := s.completed + retired, inFlight := s.inFlight - retired, cqes := s.cqes + Bit(retired != 0))
  }

  function RecordCompletion(p: Probe, cq: nat, wc: Completion): Probe {
    var k := FindNumber(QpsOf(p.tracks), cq, wc.number);
    if k == |p.tracks| || !p.tracks[k].qp.rc then p
    else
      var t := p.tracks[k];
      if !wc.success then (if t.posted != t.completed then Error(p) else p)
      else if wc.recv then p
      else if t.pending == [] || t.pending[0].id != wc.id then Error(p)
      else
        p.(tracks := p.tracks[k := Retired(t)],
           stats := RetiredStats(p.stats, t.pending[0].sequence - t.completed))
  }

  function CompleteAll(p: Probe, cq: nat, wcs: seq<Completion>): Probe {
    if wcs == [] then p else RecordCompletion(CompleteAll(p, cq, wcs[..|wcs| - 1]), cq, wcs[|wcs| - 1])
  }

  function PollCq(p: Probe, cq: nat, count: int, polled: Polled): Probe {
    if !p.tracking then p
    else
      var sized :=
        if p.stats.inFlight > 0 && count > 0 && count > p.stats.pollEntries
        then p.(stats := p.stats.(pollEntries := count)) else p;
      match polled
      case Failed => if p.stats.inFlight > 0 then Error(sized) else sized
      case Entries(wcs) => CompleteAll(sized, cq, wcs)
  }

  // ----- Queue pair lifetimes and measurements ---------------------------------------------

  function Reset(t: Track): Track {
    t.(posted := 0, completed := 0, pending := [])
  }

  function ResetAll(tracks: seq<Track>): (r: seq<Track>)
    ensures |r| == |tracks| && forall i :: 0 <= i < |r| ==> r[i] == Reset(tracks[i])
  {
    seq(|tracks|, i requires 0 <= i < |tracks| => Reset(tracks[i]))
  }

  function CreateQp(p: Probe, qp: QueuePair, capacity: nat, signalAll: bool): Probe {
    p.(tracks := [Track(qp, capacity, signalAll, 0, 0, [])] + p.tracks)
  }

  function DestroyQp(p: Probe, address: nat): Probe {
    var k := FindQp(QpsOf(p.tracks), address);
    if k == |p.tracks| then p
    else
      var t := p.tracks[k];
      p.(tracks := p.tracks[..k] + p.tracks[k + 1..],
         stats := if p.tracking then p.stats.(inFlight := p.stats.inFlight - (t.posted - t.completed)) else p.stats)
  }

  function ObserveWrites(p: Probe, enabled: bool): Probe {
    p.(tracks := ResetAll(p.tracks), stats := if enabled then ZERO else p.stats, tracking := enabled)
  }

  function Step(p: Probe, e: Event): Probe {
    match e
    case Create(qp, capacity, signalAll) => CreateQp(p, qp, capacity, signalAll)
    case Destroy(address) => DestroyQp(p, address)
    case Observe(enabled) => ObserveWrites(p, enabled)
    case Post(qp, wrs, failed, bad) => PostSend(p, qp, wrs, failed, bad)
    case Poll(cq, count, polled) => PollCq(p, cq, count, polled)
  }

  function Run(p: Probe, es: seq<Event>): Probe {
    if es == [] then p else Step(Run(p, es[..|es| - 1]), es[|es| - 1])
  }

  /** A measurement: everything from one r101_probe_observe_writes(1) up to the next call of it. */
  predicate Body(es: seq<Event>) {
    forall i :: 0 <= i < |es| ==> !es[i].Observe?
  }

  function Measure(p: Probe, body: seq<Event>): Probe {
    Run(ObserveWrites(p, true), body)
  }
}
