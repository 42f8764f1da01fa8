/** The contract transfer_engine.h gives for every engine: what each call may answer in a given state
    and what the state is afterwards. Work goes on between calls; only task statuses change then. */
module NativeContract {
  import opened Codec
  import opened CodecArrays

  type Blob = seq<Byte>

  datatype Task = Task(peer: nat, opcode: nat, status: Status)

  datatype Import = Import(peer: nat, metadata: Blob)

  /** The live resources of an engine and the handles it has ever given out. */
  datatype Native = Native(
    memories: map<nat, Blob>, peers: map<nat, Blob>, imports: map<nat, Import>, batches: map<nat, seq<Task>>,
    usedMemories: set<nat>, usedPeers: set<nat>, usedImports: set<nat>)
  {
    ghost predicate Consistent() {
      && memories.Keys <= usedMemories && peers.Keys <= usedPeers && imports.Keys <= usedImports
      && (forall h <- imports :: imports[h].peer in peers)
      && (forall b <- batches :: b != 0 && GoodBatch(batches[b]))
    }
  }

  /** An accepted batch is a nonempty array of tasks with statuses that suit their operations. */
  ghost predicate GoodBatch(tasks: seq<Task>) {
    && 0 < |tasks| <= PTRDIFF_MAX / REQUEST_SIZE
    && forall i :: 0 <= i < |tasks| ==> WellFormed(tasks[i].status, tasks[i].opcode)
  }

  function Statuses(tasks: seq<Task>): (r: seq<Status>)
    ensures |r| == |tasks| && forall i :: 0 <= i < |r| ==> r[i] == tasks[i].status
  {
    seq(|tasks|, i requires 0 <= i < |tasks| => tasks[i].status)
  }

  function Opcodes(tasks: seq<Task>): (r: seq<nat>)
    ensures |r| == |tasks| && forall i :: 0 <= i < |r| ==> r[i] == tasks[i].opcode
  {
    seq(|tasks|, i requires 0 <= i < |tasks| => tasks[i].opcode)
  }

  /** A task may end at any time and then keeps its final status. */
  ghost predicate TaskAdvances(t: Task, t': Task) {
    t'.peer == t.peer && t'.opcode == t.opcode && (t.status.Pending? || t'.status == t.status)
    && WellFormed(t'.status, t'.opcode)
  }

  ghost predicate Advances(tasks: seq<Task>, tasks': seq<Task>) {
    |tasks'| == |tasks| && forall i :: 0 <= i < |tasks| ==> TaskAdvances(tasks[i], tasks'[i])
  }

  /** Background work: statuses advance, nothing else changes. */
  ghost predicate Works(n: Native, n': Native) {
    && n' == n.(batches := n'.batches) && n'.batches.Keys == n.batches.Keys
    && forall b <- n.batches :: Advances(n.batches[b], n'.batches[b])
  }

  ghost predicate Terminal(tasks: seq<Task>) {
    forall t <- tasks :: !t.status.Pending?
  }

  lemma WorkKeepsConsistent(n: Native, n': Native)
    requires n.Consistent() && Works(n, n')
    ensures n'.Consistent()
  {
    forall b | b in n'.batches
      ensures GoodBatch(n'.batches[b])
    {
      assert GoodBatch(n.batches[b]) && Advances(n.batches[b], n'.batches[b]);
    }
  }

  lemma TerminalStays(n: Native, n': Native, b: nat)
    requires Works(n, n') && b in n.batches && Terminal(n.batches[b])
    ensures b in n'.batches && Terminal(n'.batches[b]) && Statuses(n'.batches[b]) == Statuses(n.batches[b])
  {
    assert Advances(n.batches[b], n'.batches[b]);
    forall i | 0 <= i < |n.batches[b]|
      ensures n'.batches[b][i].status == n.batches[b][i].status
    {
      assert n.batches[b][i] in n.batches[b];
    }
  }

  // ----- What each call may answer ---------------------------------------------------------

  datatype Answer = Answer(code: Code, handle: nat, blob: Blob)

  ghost predicate RegisterObeys(n: Native, a: Answer) {
    a.code == Ok ==> a.handle != 0 && a.handle !in n.usedMemories && a.blob != []
  }

  function RegisterNext(n: Native, a: Answer): Native {
    if a.code != Ok then n
    else n.(memories := n.memories[a.handle := a.blob], usedMemories := n.usedMemories + {a.handle})
  }

  ghost predicate DeregisterObeys(n: Native, memory: nat, code: Code) {
    code == Ok ==> memory in n.memories
  }

  function DeregisterNext(n: Native, memory: nat, code: Code): Native {
    if code != Ok then n else n.(memories := n.memories - {memory})
  }

  /** Either a live handle of the same descriptor and peer is returned again, or a handle never used before. */
  ghost predicate ImportObeys(n: Native, peer: nat, metadata: Blob, a: Answer) {
    a.code == Ok ==>
      && peer in n.peers && a.handle != 0
      && (if a.handle in n.imports then n.imports[a.handle] == Import(peer, metadata) else a.handle !in n.usedImports)
  }

  function ImportNext(n: Native, peer: nat, metadata: Blob, a: Answer): Native {
    if a.code != Ok then n
    else n.(imports := n.imports[a.handle := Import(peer, metadata)], usedImports := n.usedImports + {a.handle})
  }

  ghost predicate RemoveObeys(n: Native, h: nat, code: Code) {
    code == Ok ==> h in n.imports
  }

  function RemoveNext(n: Native, h: nat, code: Code): Native {
    if code != Ok then n else n.(imports := n.imports - {h})
  }

  ghost predicate CreateObeys(n: Native, a: Answer) {
    a.code == Ok ==> a.handle != 0 && a.handle !in n.usedPeers && a.blob != []
  }

  function CreateNext(n: Native, a: Answer): Native {
    if a.code != Ok then n
    else n.(peers := n.peers[a.handle := a.blob], usedPeers := n.usedPeers + {a.handle})
  }

  ghost predicate DestroyObeys(n: Native, peer: nat, code: Code) {
    code == Ok ==> peer in n.peers
  }

  /** A destroyed peer takes its imports with it and cancels what was pending on it. */
  function Canceling(tasks: seq<Task>, peer: nat): (r: seq<Task>)
    ensures |r| == |tasks|
    ensures forall i :: 0 <= i < |r| ==>
              r[i] == if tasks[i].peer == peer && tasks[i].status.Pending? then tasks[i].(status := Failed(Canceled)) else tasks[i]
  {
    seq(|tasks|, i requires 0 <= i < |tasks| =>
      if tasks[i].peer == peer && tasks[i].status.Pending? then tasks[i].(status := Failed(Canceled)) else tasks[i])
  }

  function DestroyNext(n: Native, peer: nat, code: Code): Native {
    if code != Ok then n
    else
      n.(peers := n.peers - {peer},
         imports := map h | h in n.imports && n.imports[h].peer != peer :: n.imports[h],
         batches := map b | b in n.batches :: Canceling(n.batches[b], peer))
  }

  ghost predicate SubmitObeys(n: Native, count: nat, a: Answer) {
    a.code == Ok ==> a.handle != 0 && a.handle !in n.batches && 0 < count <= PTRDIFF_MAX / REQUEST_SIZE
  }

  function Accept(requests: seq<Request>): (tasks: seq<Task>)
    ensures |tasks| == |requests|
    ensures forall i :: 0 <= i < |tasks| ==> tasks[i] == Task(PeerOf(requests[i]), OpcodeOf(requests[i].operation), Pending)
  {
    seq(|requests|, i requires 0 <= i < |requests| => Task(PeerOf(requests[i]), OpcodeOf(requests[i].operation), Pending))
  }

  function PeerOf(r: Request): nat { if r.peer < 0 then 0 else r.peer }

  function SubmitNext(n: Native, requests: seq<Request>, a: Answer): Native {
    if a.code != Ok then n else n.(batches := n.batches[a.handle := Accept(requests)])
  }

  /** A query of a live batch with its own count is never invalid, and reports its statuses. */
  ghost predicate QueryObeys(n: Native, batch: nat, count: nat, code: Code, statuses: seq<Status>) {
    && (code == Ok ==> batch in n.batches && count == |n.batches[batch]| && statuses == Statuses(n.batches[batch]))
    && (batch in n.batches && count == |n.batches[batch]| ==> code != Invalid)
  }

  ghost predicate FreeObeys(n: Native, batch: nat, code: Code) {
    && (code == Ok ==> batch in n.batches && Terminal(n.batches[batch]))
    && (batch in n.batches && Terminal(n.batches[batch]) ==> code != Busy && code != Invalid)
  }

  function FreeNext(n: Native, batch: nat, code: Code): Native {
    if code != Ok then n else n.(batches := n.batches - {batch})
  }
}

/** NativeEngine: the Python tables that mirror an engine's live resources. */
module Registry {
  import opened Codec
  import opened CodecArrays
  import opened NativeContract
  import opened Options

  datatype Error =
    | EngineError(code: Code) | EngineClosed | ValueError | KeyError | OverflowError | TimeoutError
    | Inconsistent  // the RuntimeErrors that accuse the native engine

  datatype Result<+T> = Done(value: T) | Raised(error: Error)

  datatype Registered = Registered(storage: nat, metadata: Blob)

  class NativeEngine {
    var open: bool
    var memories: map<nat, Registered>
    var remoteMemories: map<nat, nat>
    var batches: map<nat, seq<nat>>
    var peers: set<nat>
    ghost var native: Native

    /** The tables hold exactly the engine's live resources: memories with their metadata, peers,
        imports with the peer each belongs to, batches with the operation of every request. */
    ghost predicate Coupled()
      reads this
    {
      if open then
        && native.Consistent()
        && memories.Keys == native.memories.Keys
        && (forall h <- memories :: memories[h].metadata == native.memories[h])
        && remoteMemories.Keys == native.imports.Keys
        && (forall h <- remoteMemories :: remoteMemories[h] == native.imports[h].peer)
        && batches.Keys == native.batches.Keys
        && (forall b <- batches :: batches[b] == Opcodes(native.batches[b]))
        && peers == native.peers.Keys
      else
        memories == map[] && remoteMemories == map[] && batches == map[] && peers == {}
    }

    constructor ()
      ensures open && Coupled()
      ensures native == Native(map[], map[], map[], map[], {}, {}, {})
    {
      open := true;
      memories, remoteMemories, batches, peers := map[], map[], map[], {};
      native := Native(map[], map[], map[], map[], {}, {}, {});
    }

    method RegisterLocalMemory(storage: nat, a: Answer) returns (r: Result<nat>)
      modifies this`memories, this`native
      ensures native == RegisterNext(old(native), a)
      ensures var known := a.handle == 0 || a.handle in old(memories);
              && r == (if a.code != Ok then Raised(EngineError(a.code))
                       else if known || a.blob == [] then Raised(Inconsistent) else Done(a.handle))
              && memories == if a.code == Ok && !known then old(memories)[a.handle := Registered(storage, a.blob)] else old(memories)
      ensures old(Coupled()) && open && RegisterObeys(old(native), a) ==> Coupled() && r != Raised(Inconsistent)
    {
      native := RegisterNext(native, a);
      if a.code != Ok {
        return Raised(EngineError(a.code));
      }
      if a.handle == 0 || a.handle in memories {
        return Raised(Inconsistent);
      }
      memories := memories[a.handle := Registered(storage, [])];
      if a.blob == [] {
        return Raised(Inconsistent);
      }
      memories := memories[a.handle := Registered(storage, a.blob)];
      r := Done(a.handle);
    }

    method DeregisterLocalMemory(memory: nat, code: Code) returns (r: Result<()>)
      modifies this`memories, this`native
      ensures native == DeregisterNext(old(native), memory, code)
      ensures memories == if code == Ok then old(memories) - {memory} else old(memories)
      ensures r == if code != Ok then Raised(EngineError(code)) else if memory in old(memories) then Done(()) else Raised(KeyError)
      ensures old(Coupled()) && open && DeregisterObeys(old(native), memory, code) ==> Coupled() && r != Raised(KeyError)
    {
      native := DeregisterNext(native, memory, code);
      if code != Ok {
        return Raised(EngineError(code));
      }
      if memory !in memories {
        return Raised(KeyError);
      }
      memories := memories - {memory};
      r := Done(());
    }

    method ImportRemoteMemory(peer: nat, metadata: Blob, a: Answer) returns (r: Result<nat>)
      modifies this`remoteMemories, this`native
      ensures metadata == [] ==> r == Raised(ValueError) && native == old(native) && remoteMemories == old(remoteMemories)
      ensures metadata != [] ==> native == ImportNext(old(native), peer, metadata, a)
      ensures metadata != [] ==>
                var foreign := a.handle == 0 || (a.handle in old(remoteMemories) && old(remoteMemories)[a.handle] != peer);
                && r == (if a.code != Ok then Raised(EngineError(a.code)) else if foreign then Raised(Inconsistent) else Done(a.handle))
                && remoteMemories == if r.Done? then old(remoteMemories)[a.handle := peer] else old(remoteMemories)
      ensures old(Coupled()) && open && ImportObeys(old(native), peer, metadata, a) ==> Coupled() && r != Raised(Inconsistent)
    {
      if metadata == [] {
        return Raised(ValueError);
      }
      native := ImportNext(native, peer, metadata, a);
      if a.code != Ok {
        return Raised(EngineError(a.code));
      }
      if a.handle == 0 || (a.handle in remoteMemories && remoteMemories[a.handle] != peer) {
        return Raised(Inconsistent);
      }
      remoteMemories := remoteMemories[a.handle := peer];
      r := Done(a.handle);
    }

    method RemoveRemoteMemory(h: nat, code: Code) returns (r: Result<()>)
      modifies this`remoteMemories, this`native
      ensures native == RemoveNext(old(native), h, code)
      ensures remoteMemories == if code == Ok then old(remoteMemories) - {h} else old(remoteMemories)
      ensures r == if code != Ok then Raised(EngineError(code)) else if h in old(remoteMemories) then Done(()) else Raised(KeyError)
      ensures old(Coupled()) && open && RemoveObeys(old(native), h, code) ==> Coupled() && r != Raised(KeyError)
    {
      native := RemoveNext(native, h, code);
      if code != Ok {
        return Raised(EngineError(code));
      }
      if h !in remoteMemories {
        return Raised(KeyError);
      }
      remoteMemories := remoteMemories - {h};
      r := Done(());
    }

    method CreatePeer(a: Answer) returns (r: Result<nat>)
      modifies this`peers, this`native
      ensures native == CreateNext(old(native), a)
      ensures peers == if r.Done? then old(peers) + {a.handle} else old(peers)
      ensures r == if a.code != Ok then Raised(EngineError(a.code))
                   else if a.handle == 0 || a.handle in old(peers) || a.blob == [] then Raised(Inconsistent) else Done(a.handle)
      ensures old(Coupled()) && open && CreateObeys(old(native), a) ==> Coupled() && r != Raised(Inconsistent)
    {
      native := CreateNext(native, a);
      if a.code != Ok {
        return Raised(EngineError(a.code));
      }
      if a.handle == 0 || a.handle in peers {
        return Raised(Inconsistent);
      }
      if a.blob == [] {
        return Raised(Inconsistent);
      }
      peers := peers + {a.handle};
      r := Done(a.handle);
    }

    static function Without(table: map<nat, nat>, peer: nat): map<nat, nat> {
      map h | h in table && table[h] != peer :: table[h]
    }

    /** The loop over a copy of the table. */
    method ForgetImports(peer: nat)
      modifies this`remoteMemories
      ensures remoteMemories == Without(old(remoteMemories), peer)
    {
      var items := remoteMemories;
      var rest := items.Keys;
      while rest != {}
        invariant rest <= items.Keys
        invariant remoteMemories == map h | h in items && (h in rest || items[h] != peer) :: items[h]
        decreases rest
      {
        var region :| region in rest;
        rest := rest - {region};
        if items[region] == peer {
          remoteMemories := remoteMemories - {region};
        }
      }
    }

    /** Forgets the peer and every import it owned. */
    method DestroyPeer(peer: nat, code: Code) returns (r: Result<()>)
      modifies this`peers, this`remoteMemories, this`native
      ensures native == DestroyNext(old(native), peer, code)
      ensures r == if code != Ok then Raised(EngineError(code)) else if peer in old(peers) then Done(()) else Raised(KeyError)
      ensures r.Raised? ==> peers == old(peers) && remoteMemories == old(remoteMemories)
      ensures r.Done? ==> peers == old(peers) - {peer} && remoteMemories == Without(old(remoteMemories), peer)
      ensures old(Coupled()) && open && DestroyObeys(old(native), peer, code) ==> Coupled() && r != Raised(KeyError)
    {
      native := DestroyNext(native, peer, code);
      if code != Ok {
        return Raised(EngineError(code));
      }
      if peer !in peers {
        return Raised(KeyError);
      }
      peers := peers - {peer};
      ForgetImports(peer);
      r := Done(());
    }

    method SubmitTransfer(requests: seq<Request>, a: Answer) returns (r: Result<nat>)
      modifies this`batches, this`native
      ensures (exists q <- requests :: !InRange(q)) ==>
                r == Raised(OverflowError) && native == old(native) && batches == old(batches)
      ensures (forall q <- requests :: InRange(q)) ==> native == SubmitNext(old(native), requests, a)
      ensures (forall q <- requests :: InRange(q)) ==>
                r == if a.code != Ok then Raised(EngineError(a.code))
                     else if a.handle == 0 || a.handle in old(batches) then Raised(Inconsistent) else Done(a.handle)
      ensures batches == if r.Done? then old(batches)[a.handle := Opcodes(Accept(requests))] else old(batches)
      ensures old(Coupled()) && open && SubmitObeys(old(native), |requests|, a) ==> Coupled() && r != Raised(Inconsistent)
    {
      hide InRange, Accept, Opcodes;
      EncodedAll(requests);
      var entries := EncodeAll(requests);
      if entries.None? {
        return Raised(OverflowError);
      }
      native := SubmitNext(native, requests, a);
      if a.code != Ok {
        return Raised(EngineError(a.code));
      }
      if a.handle == 0 || a.handle in batches {
        return Raised(Inconsistent);
      }
      batches := batches[a.handle := Opcodes(Accept(requests))];
      r := Done(a.handle);
    }

    /** Against an engine that obeys the contract, querying a live batch never mismatches its count
        and never meets an inconsistent status; it returns exactly the batch's statuses. */
    method GetTransferStatuses(cpp: bool, batch: nat, address: nat, code: Code, statuses: seq<Status>) returns (r: Result<seq<Status>>)
      requires address != 0 && address % STATUS_ALIGNMENT == 0
      requires code == Ok && batch in batches ==> |statuses| == |batches[batch]|
      ensures batch !in batches ==> r == Raised(KeyError)
      ensures batch in batches && code != Ok ==> r == Raised(EngineError(code))
      ensures batch in batches && code == Ok ==>
                if batch == 0 || !ValidArray(address, |statuses|, STATUS_SIZE, STATUS_ALIGNMENT) then r == Raised(EngineError(Invalid))
                else if exists i :: 0 <= i < |statuses| && !Meaningful(EncodeStatus(statuses[i]), batches[batch][i])
                then r == Raised(Inconsistent)
                else r.Done? && |r.value| == |statuses|
                     && forall i :: 0 <= i < |statuses| ==> Means(EncodeStatus(statuses[i]), batches[batch][i], r.value[i])
      ensures Coupled() && open && batch in batches && QueryObeys(native, batch, |batches[batch]|, code, statuses) ==>
                && r == (if code == Ok then Done(Statuses(native.batches[batch])) else Raised(EngineError(code)))
                && r != Raised(EngineError(Invalid))
    {
      if batch !in batches {
        return Raised(KeyError);
      }
      var operations := batches[batch];
      if code != Ok {
        return Raised(EngineError(code));
      }
      var storage := new RawStatus[|operations|](_ => RawStatus(0, 0, 0, 0, 0));
      if !ValidArray(address, |operations|, STATUS_SIZE, STATUS_ALIGNMENT) || batch == 0 {
        return Raised(EngineError(Invalid));
      }
      var results := QueryRoundTrip(cpp, batch, address, storage, operations, code, statuses);
      r := if results.None? then Raised(Inconsistent) else Done(results.value);
    }

    method FreeBatch(batch: nat, code: Code) returns (r: Result<()>)
      modifies this`batches, this`native
      ensures native == FreeNext(old(native), batch, code)
      ensures batches == if code == Ok then old(batches) - {batch} else old(batches)
      ensures r == if code != Ok then Raised(EngineError(code)) else if batch in old(batches) then Done(()) else Raised(KeyError)
      ensures old(Coupled()) && open && FreeObeys(old(native), batch, code) ==> Coupled() && r != Raised(KeyError)
    {
      native := FreeNext(native, batch, code);
      if code != Ok {
        return Raised(EngineError(code));
      }
      if batch !in batches {
        return Raised(KeyError);
      }
      batches := batches - {batch};
      r := Done(());
    }

    method Close(code: Code) returns (r: Result<()>)
      modifies this
      ensures old(Coupled()) ==> Coupled()
      ensures open == (old(open) && code != Ok)
      ensures !old(open) || code == Ok ==> r == Done(())
      ensures old(open) && code == Ok ==> memories == map[] && remoteMemories == map[] && batches == map[] && peers == {}
      ensures !open && !old(open) ==>
                memories == old(memories) && remoteMemories == old(remoteMemories) && batches == old(batches) && peers == old(peers)
      ensures old(open) && code != Ok ==>
                && r == Raised(EngineError(code)) && memories == old(memories) && remoteMemories == old(remoteMemories)
                && batches == old(batches) && peers == old(peers) && native == old(native)
    {
      if open {
        if code != Ok {
          return Raised(EngineError(code));
        }
        open := false;
        memories, remoteMemories, batches, peers := map[], map[], map[], {};
      }
      r := Done(());
    }

    /** Background work between two calls. */
    ghost method Work(next: Native)
      requires Works(native, next)
      modifies this`native
      ensures native == next
      ensures old(Coupled()) ==> Coupled()
    {
      if open && Coupled() {
        WorkKeepsConsistent(native, next);
        forall b | b in batches
          ensures Opcodes(next.batches[b]) == Opcodes(native.batches[b])
        {
          assert Advances(native.batches[b], next.batches[b]);
        }
      }
      native := next;
    }
  }
}
