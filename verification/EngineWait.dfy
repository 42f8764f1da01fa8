/** Engine.wait and Engine.transfer against an engine that keeps working between the calls. The clock
    is replaced by the number of polls before the deadline, which may be any. */
module EngineWait {
  import opened Codec
  import opened CodecArrays
  import opened NativeContract
  import opened Registry
  import opened Options

  /** What one poll is answered. */
  datatype Poll = Poll(code: Code, statuses: seq<Status>)

  /** The engine works a while, then answers as the contract demands. */
  ghost predicate HonestPoll(before: Native, n: Native, batch: nat, count: nat, p: Poll) {
    Works(before, n) && QueryObeys(n, batch, count, p.code, p.statuses) && |p.statuses| == count
  }

  ghost function Before(n: Native, works: seq<Native>, i: nat): Native
    requires i <= |works|
  {
    if i == 0 then n else works[i - 1]
  }

  ghost predicate HonestPolls(n: Native, batch: nat, count: nat, works: seq<Native>, polls: seq<Poll>) {
    && |works| == |polls|
    && forall i :: 0 <= i < |works| ==> HonestPoll(Before(n, works, i), works[i], batch, count, polls[i])
  }

  lemma LiveBatch(engine: NativeEngine, batch: nat)
    requires engine.Coupled() && engine.open && batch in engine.batches
    ensures batch in engine.native.batches && |engine.native.batches[batch]| == |engine.batches[batch]|
  {
  }

  /** Engine._check_open; `closing` is the control plane's own flag. */
  predicate IsOpen(engine: NativeEngine, closing: bool)
    reads engine
  {
    !closing && engine.open
  }

  /** One turn of the loop: the engine works, then the statuses are read. */
  method PollOnce(engine: NativeEngine, closing: bool, cpp: bool, batch: nat, address: nat, ghost next: Native, p: Poll)
    returns (r: Result<seq<Status>>)
    requires engine.Coupled() && address != 0 && address % STATUS_ALIGNMENT == 0
    requires IsOpen(engine, closing) && batch in engine.batches ==>
               HonestPoll(engine.native, next, batch, |engine.batches[batch]|, p)
    modifies engine`native
    ensures engine.Coupled()
    ensures !IsOpen(engine, closing) ==> r == Raised(EngineClosed) && engine.native == old(engine.native)
    ensures IsOpen(engine, closing) && batch !in engine.batches ==> r == Raised(KeyError) && engine.native == old(engine.native)
    ensures IsOpen(engine, closing) && batch in engine.batches ==>
              && engine.native == next && batch in next.batches
              && r == (if p.code == Ok then Done(Statuses(next.batches[batch])) else Raised(EngineError(p.code)))
              && p.code != Invalid
  {
    hide NativeEngine.Coupled, Works;
    if closing || !engine.open {
      return Raised(EngineClosed);
    }
    if batch in engine.batches {
      engine.Work(next);
      LiveBatch(engine, batch);
    }
    r := engine.GetTransferStatuses(cpp, batch, address, p.code, p.statuses);
  }

  /** The batch is live and has a task that has not ended. */
  ghost predicate Unfinished(n: Native, batch: nat) {
    batch in n.batches && !Terminal(n.batches[batch])
  }

  /** The first poll that is refused or finds every task ended, or their number. */
  ghost function Decisive(works: seq<Native>, polls: seq<Poll>, batch: nat): (k: nat)
    requires |works| == |polls|
    ensures k <= |polls|
    ensures forall i :: 0 <= i < k ==> polls[i].code == Ok && Unfinished(works[i], batch)
    ensures k < |polls| ==> polls[k].code != Ok || !Unfinished(works[k], batch)
  {
    if polls == [] || polls[0].code != Ok || !Unfinished(works[0], batch) then 0
    else 1 + Decisive(works[1..], polls[1..], batch)
  }

  /** What a wait for a live batch gives: the decisive poll's error or final statuses, or a timeout when
      no poll before the deadline is decisive. */
  ghost predicate WaitGives(works: seq<Native>, polls: seq<Poll>, batch: nat, turns: nat, r: Result<seq<Status>>)
    requires |works| == |polls|
  {
    var k := Decisive(works, polls, batch);
    if k < |polls| then
      && turns == k + 1 && batch in works[k].batches
      && r == if polls[k].code == Ok then Done(Statuses(works[k].batches[batch])) else Raised(EngineError(polls[k].code))
    else turns == |polls| && r == Raised(TimeoutError)
  }

  /** Poll `t`, when none before it was decisive, and the engine's state then. */
  lemma Turn(works: seq<Native>, polls: seq<Poll>, batch: nat, t: nat)
    requires |works| == |polls| && t < |polls| && t <= Decisive(works, polls, batch) && batch in works[t].batches
    ensures var n := works[t];
            if polls[t].code != Ok then WaitGives(works, polls, batch, t + 1, Raised(EngineError(polls[t].code)))
            else if Terminal(n.batches[batch]) then WaitGives(works, polls, batch, t + 1, Done(Statuses(n.batches[batch])))
            else t + 1 <= Decisive(works, polls, batch)
  {
    hide Terminal, Statuses;
  }

  /** Returns the final statuses of the whole batch, or raises with the batch retained; `turns` says
      how many polls of a live batch it made. */
  method Wait(engine: NativeEngine, closing: bool, cpp: bool, batch: nat, address: nat, ghost works: seq<Native>, polls: seq<Poll>)
    returns (r: Result<seq<Status>>, turns: nat)
    requires engine.Coupled() && address != 0 && address % STATUS_ALIGNMENT == 0 && 0 < |polls|
    requires IsOpen(engine, closing) && batch in engine.batches ==>
               HonestPolls(engine.native, batch, |engine.batches[batch]|, works, polls)
    modifies engine`native
    ensures engine.Coupled()
    ensures !IsOpen(engine, closing) ==> r == Raised(EngineClosed) && engine.native == old(engine.native)
    ensures IsOpen(engine, closing) && batch !in engine.batches ==> r == Raised(KeyError) && engine.native == old(engine.native)
    ensures IsOpen(engine, closing) && batch in engine.batches ==>
              && 0 < turns <= |polls| == |works| && engine.native == works[turns - 1] && batch in engine.native.batches
              && WaitGives(works, polls, batch, turns, r) && (r.Done? ==> Terminal(engine.native.batches[batch]))
              && r != Raised(EngineError(Invalid))
  {
    hide NativeEngine.Coupled, HonestPoll, Terminal, Statuses, Decisive, WaitGives, Unfinished;
    turns := 0;
    ghost var start, live := engine.native, IsOpen(engine, closing) && batch in engine.batches;
    while true
      invariant turns < |polls| && engine.Coupled() && (!live ==> turns == 0 && engine.native == start)
      invariant live ==> engine.native == Before(start, works, turns)
      invariant live ==> turns <= Decisive(works, polls, batch)
      decreases |polls| - turns
    {
      ghost var next := if live then works[turns] else start;
      var statuses := PollOnce(engine, closing, cpp, batch, address, next, polls[turns]);
      if !IsOpen(engine, closing) || batch !in engine.batches {
        return statuses, 0;
      }
      Turn(works, polls, batch, turns);
      turns := turns + 1;
      if statuses.Raised? {
        return statuses, turns;
      }
      FinalStatuses(engine.native.batches[batch]);
      if forall s <- statuses.value :: !s.Pending? {
        return statuses, turns;
      }
      if turns == |polls| {
        assert WaitGives(works, polls, batch, turns, Raised(TimeoutError)) by { TimedOut(works, polls, batch); }
        return Raised(TimeoutError), turns;
      }
    }
  }

  lemma TimedOut(works: seq<Native>, polls: seq<Poll>, batch: nat)
    requires |works| == |polls| <= Decisive(works, polls, batch)
    ensures WaitGives(works, polls, batch, |polls|, Raised(TimeoutError))
  {
    hide Decisive;
  }

  lemma FinalStatuses(tasks: seq<Task>)
    ensures Terminal(tasks) <==> forall s <- Statuses(tasks) :: !s.Pending?
  {
    assert forall i :: 0 <= i < |tasks| ==> Statuses(tasks)[i] == tasks[i].status;
    if forall s <- Statuses(tasks) :: !s.Pending? {
      forall t | t in tasks
        ensures !t.status.Pending?
      {
        var i :| 0 <= i < |tasks| && tasks[i] == t;
        assert Statuses(tasks)[i] in Statuses(tasks);
      }
    }
  }

  function FirstFailure(statuses: seq<Status>): (i: nat)
    ensures i <= |statuses|
    ensures i < |statuses| ==> statuses[i].Failed?
    ensures forall j :: 0 <= j < i ==> !statuses[j].Failed?
  {
    if statuses == [] || statuses[0].Failed? then 0 else 1 + FirstFailure(statuses[1..])
  }

  /** What the engine does between the last poll of a wait of `k + 1` turns and the release. */
  datatype Release = Release(n: Native, code: Code)

  ghost predicate HonestReleases(batch: nat, works: seq<Native>, releases: seq<Release>) {
    && |releases| == |works|
    && forall k :: 0 <= k < |works| ==> Works(works[k], releases[k].n) && FreeObeys(releases[k].n, batch, releases[k].code)
  }

  /** The first failed task of a released batch decides what transfer raises. */
  ghost predicate RaisesFor(r: Result<seq<Status>>, tasks: seq<Task>) {
    if exists t <- tasks :: t.status.Failed? then
      exists i :: 0 <= i < |tasks| && tasks[i].status.Failed? && r == Raised(EngineError(tasks[i].status.error))
                  && forall j :: 0 <= j < i ==> !tasks[j].status.Failed?
    else r == Done(Statuses(tasks))
  }

  ghost predicate Encodable(requests: seq<Request>) {
    forall q <- requests :: InRange(q)
  }

  /** What a transfer whose batch was accepted gives. Its release is asked for exactly when a poll finds every
      task ended before any is refused; then the batch goes unless the release fails, which raises just
      that code, and the first failed task decides the rest. Otherwise the batch stays. */
  ghost predicate Transferred(works: seq<Native>, polls: seq<Poll>, releases: seq<Release>, batch: nat, count: nat,
                              r: Result<seq<Status>>, asked: Option<seq<Task>>, kept: bool)
    requires |works| == |polls| == |releases|
  {
    var k := Decisive(works, polls, batch);
    if k < |polls| && polls[k].code == Ok then
      && batch in releases[k].n.batches
      && var tasks, code := releases[k].n.batches[batch], releases[k].code;
      && asked == Some(tasks) && Terminal(tasks) && |tasks| == count && code !in {Busy, Invalid}
      && (kept <==> code != Ok)
      && (if code == Ok then RaisesFor(r, tasks) else r == Raised(EngineError(code)))
    else
      && asked.None? && kept
      && r == if k < |polls| then Raised(EngineError(polls[k].code)) else Raised(TimeoutError)
  }

  /** Submit, wait, free: `asked` holds the tasks of the batch when its release is requested. */
  method Transfer(engine: NativeEngine, closing: bool, cpp: bool, requests: seq<Request>, a: Answer, address: nat,
                  ghost works: seq<Native>, polls: seq<Poll>, ghost releases: seq<Release>, codes: seq<Code>)
    returns (r: Result<seq<Status>>, ghost asked: Option<seq<Task>>)
    requires engine.Coupled() && address != 0 && address % STATUS_ALIGNMENT == 0 && 0 < |polls|
    requires IsOpen(engine, closing) && Encodable(requests) ==> SubmitObeys(engine.native, |requests|, a)
    requires IsOpen(engine, closing) && Encodable(requests) && a.code == Ok ==>
               && HonestPolls(SubmitNext(engine.native, requests, a), a.handle, |requests|, works, polls)
               && HonestReleases(a.handle, works, releases)
               && |codes| == |releases| && forall k :: 0 <= k < |codes| ==> codes[k] == releases[k].code
    modifies engine`native, engine`batches
    ensures engine.Coupled()
    ensures !IsOpen(engine, closing) ==> r == Raised(EngineClosed)
    ensures IsOpen(engine, closing) && !Encodable(requests) ==> r == Raised(OverflowError)
    ensures IsOpen(engine, closing) && Encodable(requests) && a.code != Ok ==> r == Raised(EngineError(a.code)) && asked.None?
    ensures !IsOpen(engine, closing) || !Encodable(requests) ==>
              asked.None? && engine.native == old(engine.native) && engine.batches == old(engine.batches)
    ensures IsOpen(engine, closing) && Encodable(requests) && a.code == Ok ==>
              Transferred(works, polls, releases, a.handle, |requests|, r, asked, a.handle in engine.batches)
  {
    hide NativeEngine.Coupled, HonestPoll, Terminal, Statuses, RaisesFor, Works, FreeObeys;
    asked := None;
    if closing || !engine.open {
      return Raised(EngineClosed), None;
    }
    var batch := engine.SubmitTransfer(requests, a);
    if batch.Raised? {
      return Raised(batch.error), None;
    }
    var statuses, turns := Wait(engine, closing, cpp, batch.value, address, works, polls);
    if statuses.Raised? {
      return statuses, None;
    }
    ghost var release := releases[turns - 1];
    TerminalStays(engine.native, release.n, a.handle);
    engine.Work(release.n);
    LiveBatch(engine, a.handle);
    asked := Some(engine.native.batches[a.handle]);
    RefusedRelease(engine.native, a.handle, codes[turns - 1]);
    var freed := engine.FreeBatch(batch.value, codes[turns - 1]);
    if freed.Raised? {
      return Raised(freed.error), asked;
    }
    Verdict(asked.value, statuses.value);
    var index := FirstFailure(statuses.value);
    if index < |statuses.value| {
      return Raised(EngineError(statuses.value[index].error)), asked;
    }
    r := statuses;
  }

  /** A batch of final statuses is never refused as busy or unknown. */
  lemma RefusedRelease(n: Native, batch: nat, code: Code)
    requires FreeObeys(n, batch, code) && batch in n.batches && Terminal(n.batches[batch])
    ensures code !in {Busy, Invalid}
  {
  }

  lemma Verdict(tasks: seq<Task>, statuses: seq<Status>)
    requires statuses == Statuses(tasks)
    ensures var i := FirstFailure(statuses);
            RaisesFor(if i < |statuses| then Raised(EngineError(statuses[i].error)) else Done(statuses), tasks)
  {
    var i := FirstFailure(statuses);
    if i < |statuses| {
      assert tasks[i] in tasks && tasks[i].status.Failed?;
      assert forall j :: 0 <= j < i ==> tasks[j].status == statuses[j];
    } else {
      forall t | t in tasks
        ensures !t.status.Failed?
      {
        var j :| 0 <= j < |tasks| && tasks[j] == t;
        assert statuses[j] == t.status;
      }
    }
  }
}
