/** The probe as the C program keeps it: a linked list of queue pair records, each with a linked
    queue of signaled work requests, updated in place. Every method is proved equal to the function
    of the same name on values, so what is proved of measurements holds of this program. */
module ProbeHeap {
  import opened P = Probe

  class SignaledWr {
    const id: nat
    const sequence: int
    var next: SignaledWr?
    ghost const owner: QpState  // the record whose queue this is a node of

    constructor (id: nat, sequence: int, ghost owner: QpState)
      ensures this.id == id && this.sequence == sequence && next == null && this.owner == owner
    {
      this.id, this.sequence, next, this.owner := id, sequence, null, owner;
    }
  }

  /** The k-th node of a list, null at its end. */
  ghost function NodeAt(s: seq<SignaledWr>, k: nat): SignaledWr? {
    if k < |s| then s[k] else null
  }

  ghost function StateAt(s: seq<QpState>, k: nat): QpState? {
    if k < |s| then s[k] else null
  }

  class QpState {
    const qp: QueuePair
    const capacity: nat
    const signalAll: bool
    var posted: int
    var completed: int
    var pendingHead: SignaledWr?
    var pendingTail: SignaledWr?
    var next: QpState?
    ghost var spine: seq<SignaledWr>  // the nodes of the pending queue, in order
    ghost var owned: set<SignaledWr>  // every node this queue has had

    constructor (qp: QueuePair, capacity: nat, signalAll: bool)
      ensures Linked() && owned == {} && next == null
      ensures View() == Track(qp, capacity, signalAll, 0, 0, [])
    {
      this.qp, this.capacity, this.signalAll := qp, capacity, signalAll;
      posted, completed, pendingHead, pendingTail, next := 0, 0, null, null, null;
      spine, owned := [], {};
    }

    ghost predicate Linked()
      reads this`pendingHead, this`pendingTail, this`spine, this`owned, owned`next
    {
      && (forall i :: 0 <= i < |spine| ==> spine[i] in owned)
      && (forall i, j :: 0 <= i < j < |spine| ==> spine[i] != spine[j])
      && pendingHead == NodeAt(spine, 0)
      && pendingTail == (if spine == [] then null else spine[|spine| - 1])
      && (forall i :: 0 <= i < |spine| ==> spine[i].next == NodeAt(spine, i + 1))
    }

    ghost predicate Mine()
      reads this`owned
    {
      forall w <- owned :: w.owner == this
    }

    ghost function Pendings(): (ps: seq<Pending>)
      reads this`spine
      ensures |ps| == |spine| && forall i :: 0 <= i < |ps| ==> ps[i] == Pending(spine[i].id, spine[i].sequence)
    {
      var nodes := spine;
      seq(|nodes|, i requires 0 <= i < |nodes| => Pending(nodes[i].id, nodes[i].sequence))
    }

    ghost function View(): Track
      reads this`posted, this`completed, this`spine
    {
      Track(qp, capacity, signalAll, posted, completed, Pendings())
    }

    method LinkLast(completion: SignaledWr)
      requires Linked() && completion !in owned && completion.next == null
      modifies this`pendingHead, this`pendingTail, this`spine, this`owned, owned`next
      ensures Linked() && spine == old(spine) + [completion] && owned == old(owned) + {completion}
    {
      if pendingTail != null {
        pendingTail.next := completion;
      } else {
        pendingHead := completion;
      }
      pendingTail := completion;
      spine, owned := spine + [completion], owned + {completion};
    }

    /** Append to the pending queue. */
    method Push(id: nat)
      requires Linked() && Mine()
      modifies this`pendingHead, this`pendingTail, this`spine, this`owned, owned`next
      ensures Linked() && Mine() && old(owned) <= owned && fresh(owned - old(owned))
      ensures View() == Pushed(old(View()), id)
    {
      hide Linked;
      var completion := new SignaledWr(id, posted, this);
      LinkLast(completion);
    }

    /** Complete the head of the pending queue and remove it. */
    method Retire()
      requires Linked() && spine != []
      modifies this`completed, this`pendingHead, this`pendingTail, this`spine
      ensures Linked()
      ensures View() == Retired(old(View()))
    {
      assert pendingHead == spine[0] && Pendings()[0] == Pending(spine[0].id, spine[0].sequence);
      completed := pendingHead.sequence;
      PopHead();
    }

    method PopHead()
      requires Linked() && spine != []
      modifies this`pendingHead, this`pendingTail, this`spine
      ensures Linked() && Pendings() == old(Pendings())[1..]
    {
      assert pendingHead == spine[0];
      pendingHead := pendingHead.next;
      if pendingHead == null {
        pendingTail := null;
      }
      spine := spine[1..];
    }

    method ResetTracking()
      requires Linked()
      modifies this`posted, this`completed, this`pendingHead, this`pendingTail, this`spine
      ensures Linked() && View() == Reset(old(View()))
    {
      ghost var freed := 0;
      while pendingHead != null
        invariant freed <= |old(spine)|
        invariant pendingHead == NodeAt(old(spine), freed)
        decreases |old(spine)| - freed
      {
        assert pendingHead == old(spine)[freed];
        pendingHead := pendingHead.next;
        freed := freed + 1;
      }
      pendingTail := null;
      posted, completed := 0, 0;
      spine := [];
    }
  }

  /** The records are linked in this order, from `first` on. */
  ghost predicate Chain(states: seq<QpState>, first: QpState?)
    reads states`next
  {
    && (forall i, j :: 0 <= i < j < |states| ==> states[i] != states[j])
    && first == StateAt(states, 0)
    && (forall i :: 0 <= i < |states| ==> states[i].next == StateAt(states, i + 1))
  }

  lemma ChainWith(state: QpState, states: seq<QpState>)
    requires Chain(states, state.next) && state !in states
    ensures Chain([state] + states, state)
  {
  }

  ghost function Views(states: seq<QpState>): (ts: seq<Track>)
    reads states`posted, states`completed, states`spine
    ensures |ts| == |states| && forall i :: 0 <= i < |ts| ==> ts[i] == states[i].View()
  {
    if states == [] then [] else [states[0].View()] + Views(states[1..])
  }

  function Without<T>(s: seq<T>, k: nat): (r: seq<T>)
    requires k < |s|
    ensures |r| == |s| - 1
    ensures forall i :: 0 <= i < |r| ==> r[i] == s[if i < k then i else i + 1]
  {
    s[..k] + s[k + 1..]
  }

  lemma ViewsWith(state: QpState, states: seq<QpState>)
    ensures Views([state] + states) == [state.View()] + Views(states)
  {
    hide Views;
  }

  lemma ViewsWithout(states: seq<QpState>, k: nat)
    requires k < |states|
    ensures Views(Without(states, k)) == Without(Views(states), k)
  {
    hide Views;
  }

  class VerbsProbe {
    var queuePairs: QpState?
    var writes: Stats
    var trackWrites: bool
    var postedWrs: int
    ghost var list: seq<QpState>      // the queue pair records, in order
    ghost var nodes: set<SignaledWr>  // every pending node there has been

    constructor ()
      ensures Valid() && View() == Probe([], ZERO, false, 0)
    {
      queuePairs, writes, trackWrites, postedWrs, list, nodes := null, ZERO, false, 0, [], {};
    }

    ghost predicate Chained()
      reads this`list, this`queuePairs, list`next
    {
      Chain(list, queuePairs)
    }

    ghost predicate Owns(state: QpState)
      reads this`nodes, state`pendingHead, state`pendingTail, state`spine, state`owned, nodes`next
    {
      state.owned <= nodes && state.Mine() && state.Linked()
    }

    ghost predicate Valid()
      reads this`list, this`nodes, this`queuePairs, nodes`next
      reads list`next, list`pendingHead, list`pendingTail, list`spine, list`owned
    {
      Chained() && forall s <- list :: Owns(s)
    }

    ghost function Tracks(): (ts: seq<Track>)
      reads this`list, list`posted, list`completed, list`spine
      ensures |ts| == |list| && forall i :: 0 <= i < |ts| ==> ts[i] == list[i].View()
    {
      Views(list)
    }

    ghost function View(): Probe
      reads this, list`posted, list`completed, list`spine
    {
      Probe(Tracks(), writes, trackWrites, postedWrs)
    }

    method FindQp(qp: QueuePair) returns (state: QpState?, ghost k: nat)
      requires Valid()
      ensures state == StateAt(list, P.FindQp(QpsOf(View().tracks), qp.address))
      ensures k == P.FindQp(QpsOf(View().tracks), qp.address)
    {
      state, k := queuePairs, 0;
      while state != null
        invariant k <= |list| && state == StateAt(list, k)
        invariant forall i :: 0 <= i < k ==> list[i].qp.address != qp.address
        decreases |list| - k
      {
        if state.qp.address == qp.address {
          return;
        }
        assert state == list[k];
        state, k := state.next, k + 1;
      }
    }

    /** Only the record at `k` and its own pending nodes changed. */
    twostate predicate OnlyAt(k: nat)
      reads this, list, nodes
    {
      && k < |list| && list == old(list) && queuePairs == old(queuePairs) && old(nodes) <= nodes
      && (forall i :: 0 <= i < |list| && i != k ==> unchanged(list[i]))
      && (forall w <- old(nodes) :: w.owner == list[k] || unchanged(w))
      && list[k].next == old(list[k].next)
      && Owns(list[k])
    }

    twostate lemma OneChanged(k: nat)
      requires OnlyAt(k) && old(Valid())
      ensures Valid() && Tracks() == old(Tracks())[k := list[k].View()]
    {
      hide Views, Tracks, QpState.Linked, QpState.View;
      forall i | 0 <= i < |list| && i != k
        ensures Owns(list[i])
      {
        assert old(Owns(list[i]));
      }
    }

    lemma At(k: nat)
      requires Valid() && k < |list|
      ensures Owns(list[k])
      ensures forall i :: 0 <= i < |list| && i != k ==> list[i] != list[k]
    {
      assert Owns(list[k]);
    }

    /** What the fields of a record say about its value. */
    lemma FieldsAt(k: nat)
      requires Valid() && k < |list|
      ensures var t, s := Tracks()[k], list[k];
              && t == s.View() && t.qp == s.qp && t.signalAll == s.signalAll
              && t.posted == s.posted && t.completed == s.completed
              && (t.pending == [] <==> s.spine == []) && (s.spine == [] <==> s.pendingHead == null)
              && (s.pendingHead != null ==> t.pending[0] == Pending(s.pendingHead.id, s.pendingHead.sequence))
    {
      assert Owns(list[k]);
    }

    method PushAt(state: QpState, id: nat, ghost k: nat)
      requires Valid() && k < |list| && state == list[k]
      modifies this`nodes, state`pendingHead, state`pendingTail, state`spine, state`owned, nodes`next
      ensures Valid() && fresh(nodes - old(nodes))
      ensures Tracks() == old(Tracks())[k := Pushed(old(Tracks())[k], id)]
    {
      hide Views, Tracks, QpState.Linked, QpState.View, Valid, Pushed;
      At(k);
      state.Push(id);
      nodes := nodes + state.owned;
      OneChanged(k);
    }

    method RetireAt(state: QpState, ghost k: nat)
      requires Valid() && k < |list| && state == list[k] && state.spine != []
      modifies state`completed, state`pendingHead, state`pendingTail, state`spine
      ensures Valid()
      ensures Tracks() == old(Tracks())[k := Retired(old(Tracks())[k])]
    {
      hide Views, Tracks, QpState.Linked, QpState.View, Valid, Retired;
      At(k);
      state.Retire();
      OneChanged(k);
    }

    method CountAt(state: QpState, ghost k: nat)
      requires Valid() && k < |list| && state == list[k]
      modifies state`posted
      ensures Valid()
      ensures Tracks() == old(Tracks())[k := Counted(old(Tracks())[k], true)]
    {
      hide Views, Tracks, QpState.Linked, QpState.Pendings, Valid;
      At(k);
      state.posted := state.posted + 1;
      OneChanged(k);
    }

    method CountPosted(state: QpState, wr: SendWr)
      modifies this`writes
      ensures writes == PostStats(old(writes), state.View(), wr)
    {
      if wr.write {
        writes := writes.(posted := writes.posted + 1, inFlight := writes.inFlight + 1);
        if writes.inFlight > writes.peakInFlight {
          writes := writes.(peakInFlight := writes.inFlight);
        }
        if state.posted + 1 - state.completed > state.capacity {
          writes := writes.(capacityErrors := writes.capacityErrors + 1);
        }
        if state.signalAll || wr.signaled {
          writes := writes.(signaled := writes.signaled + 1);
        }
      }
    }

    method RecordAt(state: QpState, wr: SendWr, ghost k: nat)
      requires Valid() && k < |list| && state == list[k]
      modifies this`writes, this`nodes, state, nodes
      ensures Valid() && fresh(nodes - old(nodes))
      ensures Tracks() == old(Tracks())[k := PostTrack(old(Tracks())[k], wr)]
      ensures writes == PostStats(old(writes), old(Tracks())[k], wr)
    {
      hide Views, Tracks, Valid, PostStats, Pushed, QpState.View;
      CountPosted(state, wr);
      FieldsAt(k);
      if wr.write {
        CountAt(state, k);
      } else {
        assert Tracks()[k := Counted(Tracks()[k], false)] == Tracks();
      }
      if state.signalAll || wr.signaled {
        PushAt(state, wr.id, k);
      }
    }

    method RecordPosted(qp: QueuePair, wr: SendWr)
      requires Valid()
      modifies this`writes, this`nodes, list, nodes
      ensures Valid() && View() == P.RecordPosted(old(View()), qp, wr)
      ensures fresh(nodes - old(nodes))
    {
      hide Views, Tracks, Valid, PostStats, PostTrack, QpsOf, P.FindQp;
      if !qp.rc {
        return;
      }
      var state, k := FindQp(qp);
      if state == null {
        if wr.write {
          writes := writes.(untrackedWrites := writes.untrackedWrites + 1);
        }
        return;
      }
      RecordAt(state, wr, k);
    }

    method FindNumber(cq: nat, number: nat) returns (state: QpState?, ghost k: nat)
      requires Valid()
      ensures state == StateAt(list, P.FindNumber(QpsOf(View().tracks), cq, number))
      ensures k == P.FindNumber(QpsOf(View().tracks), cq, number)
    {
      state, k := queuePairs, 0;
      while state != null && (state.qp.sendCq != cq || state.qp.number != number)
        invariant k <= |list| && state == StateAt(list, k)
        invariant forall i :: 0 <= i < k ==> list[i].qp.sendCq != cq || list[i].qp.number != number
        decreases |list| - k
      {
        assert state == list[k];
        state, k := state.next, k + 1;
      }
    }

    method CountRetired(retired: int)
      modifies this`writes
      ensures writes == RetiredStats(old(writes), retired)
    {
      writes := writes.(completed := writes.completed + retired, inFlight := writes.inFlight - retired);
      if retired != 0 {
        writes := writes.(cqes := writes.cqes + 1);
      }
    }

    method RecordCompletion(cq: nat, wc: Completion)
      requires Valid()
      modifies this`writes, list
      ensures Valid() && View() == P.RecordCompletion(old(View()), cq, wc)
    {
      hide Views, Tracks, QpState.View, Valid, Retired, RetiredStats, QpsOf, P.FindNumber, Error;
      var state, k := FindNumber(cq, wc.number);
      if state == null {
        return;
      }
      FieldsAt(k);
      if !state.qp.rc {
        return;
      }
      if !wc.success {
        if state.posted != state.completed {
          Fault();
        }
        return;
      }
      if wc.recv {
        return;
      }
      if state.pendingHead == null || state.pendingHead.id != wc.id {
        Fault();
        return;
      }
      CountRetired(state.pendingHead.sequence - state.completed);
      RetireAt(state, k);
    }

    method Fault()
      modifies this`writes
      ensures Probe(Tracks(), writes, trackWrites, postedWrs) == Error(Probe(Tracks(), old(writes), trackWrites, postedWrs))
    {
      writes := writes.(completionErrors := writes.completionErrors + 1);
    }

    // ----- Calls of the verbs library --------------------------------------------------------

    /** The loop over the chain. */
    method RecordChain(qp: QueuePair, wrs: seq<SendWr>, failed: bool, bad: BadWr) returns (accepted: nat)
      requires Valid()
      modifies this`writes, this`nodes, list, nodes
      ensures Valid() && fresh(nodes - old(nodes)) && accepted == Accepted(wrs, failed, bad)
      ensures accepted <= |wrs| && (forall j :: 0 <= j < accepted ==> !Refused(failed, bad, j))
      ensures accepted < |wrs| ==> Refused(failed, bad, accepted)
      ensures View() == if trackWrites then RecordAll(old(View()), qp, wrs[..accepted]) else old(View())
    {
      hide Views, Tracks, Valid, P.RecordPosted, VerbsProbe.View;
      accepted := 0;
      while accepted < |wrs|
        invariant accepted <= Accepted(wrs, failed, bad)
        invariant Valid() && fresh(nodes - old(nodes))
        invariant View() == if trackWrites then RecordAll(old(View()), qp, wrs[..accepted]) else old(View())
      {
        if failed && (bad.NoParameter? || bad.Unset? || bad == BadWr.At(accepted)) {
          break;
        }
        if trackWrites {
          assert wrs[..accepted + 1][..accepted] == wrs[..accepted];
          RecordPosted(qp, wrs[accepted]);
        }
        accepted := accepted + 1;
      }
    }

    /** observed_post_send, after the provider answered `failed` and `bad` for this chain. */
    method PostSend(qp: QueuePair, wrs: seq<SendWr>, failed: bool, bad: BadWr)
      requires Valid()
      modifies this`writes, this`nodes, this`postedWrs, list, nodes
      ensures Valid() && View() == P.PostSend(old(View()), qp, wrs, failed, bad)
      ensures fresh(nodes - old(nodes))
    {
      hide Views, Tracks, Valid, RecordAll, BadIsWrite, Accepted;
      var writesBefore := writes.posted;
      var accepted := RecordChain(qp, wrs, failed, bad);
      postedWrs := postedWrs + accepted;
      if trackWrites {
        CountBatch(failed && qp.rc && BadIsWrite(wrs, bad), writes.posted - writesBefore);
      }
    }

    method CountBatch(lost: bool, acceptedWrites: int)
      modifies this`writes
      ensures writes == old(writes).(postErrors := old(writes).postErrors + Bit(lost), postBatch := Max(old(writes).postBatch, acceptedWrites))
    {
      if lost {
        writes := writes.(postErrors := writes.postErrors + 1);
      }
      if acceptedWrites > writes.postBatch {
        writes := writes.(postBatch := acceptedWrites);
      }
    }

    /** observed_poll_cq, after the provider answered `polled`. */
    method PollCq(cq: nat, count: int, polled: Polled)
      requires Valid()
      modifies this`writes, list
      ensures Valid() && View() == P.PollCq(old(View()), cq, count, polled)
    {
      hide Views, Tracks, Valid, P.RecordCompletion;
      if trackWrites {
        if writes.inFlight > 0 && count > 0 && count > writes.pollEntries {
          writes := writes.(pollEntries := count);
        }
        ghost var sized := View();
        if polled.Failed? {
          if writes.inFlight > 0 {
            Fault();
          }
        } else {
          var i := 0;
          while i < |polled.wcs|
            invariant i <= |polled.wcs| && Valid() && list == old(list)
            invariant View() == CompleteAll(sized, cq, polled.wcs[..i])
          {
            assert polled.wcs[..i + 1][..i] == polled.wcs[..i];
            RecordCompletion(cq, polled.wcs[i]);
            i := i + 1;
          }
          assert polled.wcs[..i] == polled.wcs;
        }
      }
    }

    method LinkInFront(state: QpState)
      requires Valid() && state !in list && Owns(state)
      modifies this`queuePairs, this`list, state`next
      ensures Valid() && list == [state] + old(list) && queuePairs == state
    {
      hide QpState.Linked, QpState.View, Chain;
      state.next := queuePairs;
      ChainWith(state, list);
      queuePairs := state;
      list := [state] + list;
      hide Owns;
      forall s | s in list
        ensures Owns(s)
      {
        assert s == state || s in old(list);
        assert old(Owns(s));
      }
    }

    method CreateQp(qp: QueuePair, capacity: nat, signalAll: bool)
      requires Valid()
      modifies this`queuePairs, this`list
      ensures Valid() && View() == P.CreateQp(old(View()), qp, capacity, signalAll)
      ensures fresh(queuePairs)
    {
      hide Views, QpState.Linked, QpState.View, Chain;
      var state := new QpState(qp, capacity, signalAll);
      assert Owns(state);
      hide Owns;
      ViewsWith(state, list);
      LinkInFront(state);
    }

    /** The link to a queue pair's record: the record before it, or none for the first. */
    method FindLink(qp: QueuePair) returns (previous: QpState?, state: QpState?, ghost k: nat)
      requires Valid()
      ensures state == StateAt(list, P.FindQp(QpsOf(View().tracks), qp.address))
      ensures previous == if state == queuePairs then null else StateAt(list, P.FindQp(QpsOf(View().tracks), qp.address) - 1)
      ensures k == P.FindQp(QpsOf(View().tracks), qp.address) && (k == 0 <==> state == queuePairs)
    {
      hide Views, Tracks, Owns, QpState.Pendings;
      previous, state, k := null, queuePairs, 0;
      while state != null && state.qp.address != qp.address
        invariant k <= |list| && state == StateAt(list, k)
        invariant previous == if k == 0 then null else StateAt(list, k - 1)
        invariant forall i :: 0 <= i < k ==> list[i].qp.address != qp.address
        decreases |list| - k
      {
        assert state == list[k];
        previous, state, k := state, state.next, k + 1;
      }
    }

    /** The chain with the record at `k` bypassed. */
    ghost predicate Bypassed(k: nat)
      reads this`list, this`queuePairs, list`next
    {
      && (forall i, j :: 0 <= i < j < |list| ==> list[i] != list[j])
      && queuePairs == StateAt(list, if k == 0 then 1 else 0)
      && (forall i :: 0 <= i < |list| && i != k ==> list[i].next == StateAt(list, if i + 1 == k then k + 1 else i + 1))
    }

    lemma BypassedChain(k: nat)
      requires k < |list| && Bypassed(k)
      ensures Chain(Without(list, k), queuePairs)
    {
      hide Without;
    }

    method Bypass(previous: QpState?, state: QpState, ghost k: nat)
      requires Chained() && k < |list| && state == list[k]
      requires previous == if k == 0 then null else StateAt(list, k - 1)
      modifies this`queuePairs, list`next
      ensures Bypassed(k)
    {
      if previous == null {
        queuePairs := state.next;
      } else {
        previous.next := state.next;
      }
    }

    method Unlink(previous: QpState?, state: QpState, ghost k: nat)
      requires Valid() && k < |list| && state == list[k]
      requires previous == if k == 0 then null else StateAt(list, k - 1)
      modifies this`queuePairs, this`list, list`next
      ensures Valid()
      ensures Tracks() == Without(old(Tracks()), k)
    {
      hide Views, QpState.View, Owns, Without, StateAt, Bypassed, Chain;
      ViewsWithout(list, k);
      Bypass(previous, state, k);
      BypassedChain(k);
      list := Without(list, k);
      forall s | s in list
        ensures Owns(s)
      {
        assert s in old(list) && old(Owns(s));
      }
    }

    /** ibv_destroy_qp succeeded: the record is unlinked. */
    method DestroyQp(qp: QueuePair)
      requires Valid()
      modifies this`writes, this`queuePairs, this`list, list`next
      ensures Valid() && View() == P.DestroyQp(old(View()), qp.address)
    {
      hide Views, Tracks, QpState.View, Valid, QpsOf, P.FindQp;
      var previous, state, k := FindLink(qp);
      if state == null {
        return;
      }
      FieldsAt(k);
      if trackWrites {
        writes := writes.(inFlight := writes.inFlight - (state.posted - state.completed));
      }
      Unlink(previous, state, k);
    }

    method ResetAt(state: QpState, ghost k: nat)
      requires Valid() && k < |list| && state == list[k]
      modifies state`posted, state`completed, state`pendingHead, state`pendingTail, state`spine
      ensures Valid()
      ensures Tracks() == old(Tracks())[k := Reset(old(Tracks())[k])]
    {
      hide Views, Tracks, QpState.Linked, QpState.View, Valid, Reset;
      At(k);
      state.ResetTracking();
      OneChanged(k);
    }

    lemma NextAt(k: nat)
      requires Valid() && k < |list|
      ensures list[k].next == StateAt(list, k + 1)
    {
    }

    lemma First()
      requires Valid()
      ensures queuePairs == StateAt(list, 0)
    {
    }

    method ResetList()
      requires Valid()
      modifies list`posted, list`completed, list`pendingHead, list`pendingTail, list`spine
      ensures Valid() && Tracks() == ResetAll(old(Tracks()))
    {
      hide Views, Tracks, Valid, Reset, ResetAll;
      First();
      var state := queuePairs;
      ghost var k, before := 0, Tracks();
      NothingReset(before);
      while state != null
        invariant k <= |list| && state == StateAt(list, k) && Valid()
        invariant Tracks() == ResetAll(before[..k]) + before[k..]
        decreases |list| - k
      {
        NextAt(k);
        ResetNext(before, k);
        ResetAt(state, k);
        state, k := state.next, k + 1;
      }
      assert before[..k] == before && before[k..] == [];
    }

    method ObserveWrites(enabled: bool)
      requires Valid()
      modifies this`writes, this`trackWrites, list
      ensures Valid() && View() == P.ObserveWrites(old(View()), enabled)
    {
      hide Views, Tracks, Valid, ResetAll;
      ResetList();
      if enabled {
        writes := ZERO;
      }
      trackWrites := enabled;
    }
  }

  lemma NothingReset(ts: seq<Track>)
    ensures ts == ResetAll(ts[..0]) + ts[0..]
  {
  }

  lemma ResetNext(ts: seq<Track>, k: nat)
    requires k < |ts|
    ensures (ResetAll(ts[..k]) + ts[k..])[k] == ts[k]
    ensures (ResetAll(ts[..k]) + ts[k..])[k := Reset(ts[k])] == ResetAll(ts[..k + 1]) + ts[k + 1..]
  {
  }
}
