# Verification of the rdma101 control plane, probe, codec and registries

A Dafny 4.11 model of the parts of rdma101 that hold state or transform data, with machine-checked
proofs. `dafny verify dfyconfig.toml` checks all of it.

## What is modelled

**The control plane** (`Control*.dfy`). One engine is a `Node`: the dictionary of live peers, a heap of
every `Peer` object ever created (found by its connection id, which stands for object identity), the
metadata list with everything ever appended to it, and the native engine as a typestate object. Every
block under the state lock is one function (`Control`); `ControlPlane` is the same code on a class with
mutable records, each method proved equal to its function. A `System` is any number of engines, each
with at most one outgoing operation (the resource lock) blocked in at most one call, plus every request
and reply ever sent. `connect` is three steps around two calls, `publish` one step and one call per
captured peer, `disconnect` one step and one call; handlers are single steps and never wait. `ControlAnswers`
says what every block answers, over the records and handles alone.

Three assumptions on the network are used, and each theorem says which:

- *hostile*: a request may be delivered at any time, any number of times or never, and a caller may give
  up at any time; requests are not forged;
- *reliable*: a request is handled once, while its caller waits; only calls to absent endpoints fail.
  Native calls may fail, peers may be disconnected and engines closed at any time;
- *fault-free*: reliable, and no native failure, disconnect, close or absent target.

**The verbs probe** (`Probe*.dfy`). `Probe` has the counters and pending lists; `ProbeLedger` is the simple
reference: per queue pair the whole FIFO of entries, popped through its first signaled entry by a matching
success CQE. `ProbeRefinement` relates the two, `ProbeTheorems`, `ProbeEvidence` and `ProbeAlarms` say what the
totals of a measurement mean, `ProbeProvider` is the converse for a provider that completes in order, and `ProbeHeap`
is the C program's own form, linked lists updated in place.

**The codec and registries** (`Codec*.dfy`, `Registry.dfy`, `EngineWait.dfy`). Requests are 56 bytes, with
the union as overlapping bytes. The Python encoder, the C check, the C++ and Rust decoders, both status
encoders and the Python status decoder are separate functions; the array entry points are methods with
their loops. `NativeContract` states what transfer_engine.h lets any engine answer in any state, with work
going on between calls; `Registry` is the `NativeEngine` class coupled to it.

**`Communicator`** (`Communicator.dfy`) is a step machine, one `put` or `get` at a time.

## Findings

- `connect` on a peer that is already READY returns at once, and the far end may then still be CONNECTED: it
  becomes READY only when the Ready reply, already sent, reaches it. This happens exactly when the near end was
  made READY by its handler alone (`ReusedPeer`); `ReuseBeforeFarIsReady` is such a run.
- READY is not always mutual on the hostile network: `ReadyWithoutMutual` is a run with a duplicated Connect, a
  disconnect and a late Ready. `ReadyIsMutualOnce` says exactly when it is, for every run: of the peers an engine
  ever had for one counterpart exactly one is mutual with it, so READY is mutual unless another peer of the same
  engine was linked to the same connection and is the mutual one.
- A failed native connect leaves the peer live and CREATED, although transfer_engine.h:295-296 wants it
  destroyed: the next offer calls connect on the same handle again. `FailedConnectIsRetried` is such a run, on the
  reliable network; `ConnectedTwice` says that this is the only way to a second call, and `ConnectedAgain` which
  steps make one.
- The Close handler compares ids without rejecting the empty one, unlike `_find_connection`; no engine sends
  an empty id, so no run reaches the difference (`CloseMatches`).
- `ffi.cast("void *", ...)` keeps the low 64 bits of an address where every other field raises
  `OverflowError`; a request survives the trip exactly when its address is in range (`RequestRoundTrip`).
- completed can stay below posted although the provider did all it owed: exactly when some queue pair ends in
  WRITEs that no signaled request follows, or was destroyed with a WRITE outstanding (`HonestProviderCompletes`).
- The evidence check of the probe does not depend on `in_flight` or `completion_errors` being zero
  (`CompletionEvidence`).

## Conventions

Endpoints, connection ids and metadata are only compared, so they are numbers with 0 for empty. Fresh ids and
handles are only assumed new within their own engine. Errors are values (`Raised`, `None`, a code), one
constructor for each kind the source raises. `Env`, `Answer`, `Submission` and `Poll` carry what the
environment answers to one call.

## Model

| member | source | states |
|---|---|---|
| ControlTheorems.RunIsSafe | rdma101/control.py:14-17 | Hostile network, every run: in every state each peer record agrees with its native handle, its link names a peer its counterpart really offered, and all traffic carries genuine offers and log prefixes |
| ControlTheorems.RunCanTakeAnyStep | rdma101/control.py:168-206 | No reachable state lacks what a step looks up, so a run may be extended by any request, reply, timeout or local call |
| ControlTheorems.RunGrows | rdma101/control.py:20-28 | Over any stretch of any run: a peer keeps its identity, its link is written once, its state and version only advance, a destroyed peer never changes again |
| ControlTheorems.NativeTypestate | rdma101/control.py:85-117 | Either network, whole runs: every handle sees create, at most one successful connect, imports only after it, at most one destroy and nothing afterwards, and no native call follows native.close() |
| ControlTheorems.ImportsAreLogPrefixes | rdma101/control.py:112-117 | Loss, duplication and reordering allowed: remote_version never decreases and never exceeds the length of the sender's log; the imported set is always exactly some prefix of it at least that long, and exactly that long unless an import raised |
| ControlTheorems.NoPrematureTeardown | rdma101/control.py:198-206 | Hostile network: a live peer goes away only by its own disconnect or close, or by a Close naming a counterpart whose owner has destroyed it already |
| ControlTheorems.CloseMatches | rdma101/control.py:198-206 | When Close destroys a peer: exactly if _find_connection would find it, or the id is empty and the peer is unlinked (the one case the code does not guard) |
| ControlTheorems.PublishWasStarted | rdma101/control.py:145-154 | A publish in progress was started by one earlier step that fixed its snapshot and captured exactly the READY peers of that moment |
| ControlTheorems.PublishReturns | rdma101/control.py:145-154 | When publish returns normally, even on the hostile network, every peer that was READY at the append has a counterpart that imported everything up to that entry |
| ControlTheorems.RunIsBackLinked | rdma101/control.py:181-188 | Hostile network, every run: the counterpart of a READY peer is linked to some peer of the READY peer's own engine |
| ControlTheorems.ReadyIsMutualOnce | rdma101/control.py:14-17 | Hostile network, exactly when READY is mutual: among the peers an engine ever had for one counterpart exactly one is mutual with it, so a READY peer is mutual if none of its engine's other peers was linked to the same connection, and in any case exactly if none of those others is mutual |
| ControlRetry.ConnectedAgain | rdma101/control.py:101-110 | Hostile network, every run: once native connect was called on a handle, exactly those steps call it again, once each, that bring an offer with an acceptable identity to its peer, still live, after the last call failed |
| ControlRetry.ConnectedTwice | rdma101/control.py:105-108 | Whole runs: native connect was called at least twice on a handle exactly if a call on it failed and a later offer reached its live peer; without native failures a handle is connected at most once |
| ControlRetry.StepTracks | rdma101/control.py:101-179 | What any step does to the native connects of one peer: one call if it brings an acceptable offer to the live, unlinked peer, leaving the handle joined or failed as the call went; otherwise none |
| ControlWitness.FailedConnectIsRetried | transfer-engine/transfer_engine.h:295-296 | A concrete run of the reliable network in which native connect is called a second time on a handle whose connect had failed |
| ControlAnswers.ConnectReturnsHandle | rdma101/control.py:119-143 | Hostile network, every run: a handle that connect returns stands for a READY peer of the endpoint connected to and for no other live peer, and its native side is connected; connect ends without returning one only by raising |
| ControlAnswers.ReturnedHandleStays | rdma101/control.py:143-162 | From then on, in every run, a disconnect with that handle closes exactly that peer while it is live (or leaves it live when native destroy fails) and finds none afterwards |
| ControlAnswers.StepRaises | rdma101/control.py:119-166 | Exactly when an operation raises: one of its locked blocks did, a reply was a failure, the caller gave up, or native close failed |
| ControlAnswers.CloseIsAnswered | rdma101/control.py:198-206 | A Close reaching an open engine is acknowledged unless native destroy fails |
| ControlAnswers.AnsweredDisconnectEnds | rdma101/control.py:166 | And the acknowledgement ends the disconnect that sent it without raising |
| ControlBackLink.StepKeepsBackLinks | rdma101/control.py:119-206 | Every step keeps the counterpart of each READY peer linked back, late, lost and duplicated calls included |
| ControlBackLink.OneIsMutual | rdma101/control.py:101-110 | Of the peers sharing a linked-back counterpart, one and only one is mutual with it |
| ControlTheorems.RunIsReliable | rdma101/control.py:119-143 | Reliable calls, arbitrary disconnects, failures and shutdowns: READY is mutual, and a peer waiting in the second half of its handshake is linked by nobody but its own answerer |
| ControlTheorems.ReadyMeansMutual | rdma101/control.py:14-17 | Reliable network: a READY peer and its counterpart (live or destroyed) name each other, and each QP was connected with exactly the metadata the other exported |
| ControlTeardown.DisconnectReturns | rdma101/control.py:156-166 | Reliable network: when disconnect returns normally its Close has been handled, and from then on the far engine has no live peer linked to the destroyed one, unless it was in a connect of its own then and held an answer offering that very peer |
| ControlTeardown.StaysClosed | rdma101/control.py:133-136 | After the Close no step but the second block of the far engine's own connect can link a peer to the destroyed one, and only with an answer it held before |
| ControlTeardown.AwaitedSince | rdma101/control.py:119-166 | An engine that awaits a call has awaited it in every state since it was sent |
| ControlTheorems.RunIsClean | rdma101/control.py:119-196 | Fault-free runs: one peer per endpoint, at most one reply per call, unlinked peers only inside a handshake |
| ControlTheorems.SimultaneousOpenConverges | rdma101/control.py:101-110 | Fault-free, disconnect-free runs of any number of engines, any interleaving of connects: no call or handler raises and at most one peer is ever created per ordered pair |
| ControlTheorems.ConnectReturns | rdma101/control.py:138-143 | When connect returns from its handshake, both ends are READY and mutually linked |
| ControlTheorems.RunIsReused | rdma101/control.py:119-188 | Fault-free runs: an answered Ready call has made the far peer READY, and a peer READY before its own handshake is through was made so by the far end's |
| ControlTheorems.ReusedPeer | rdma101/control.py:125-129 | When connect returns early because its peer is READY, the ends are mutually linked; the far end is not READY exactly when it still waits for a Ready reply already sent and this end never had a Ready call answered |
| ControlReuse.StepKeepsReuse | rdma101/control.py:119-188 | Every fault-free step keeps these two facts |
| ControlReuse.FarNotReady | rdma101/control.py:125-129 | The same condition, in any one such state |
| ControlTheorems.NoLostRegistration | rdma101/control.py:181-196 | Fault-free runs: when a peer is READY and neither end has an operation in progress, each version is the length of the other's list and each imported set is exactly that whole list |
| ControlWitness.ReuseBeforeFarIsReady | rdma101/control.py:125-129 | A concrete fault-free run in which connect reuses a READY peer while the other end is only CONNECTED |
| ControlWitness.ReadyWithoutMutual | rdma101/control.py:181-188 | A concrete hostile run in which a duplicated Connect and a late Ready make a re-created peer READY without being mutual |
| ControlSafetySteps.StepKeepsSafety | rdma101/control.py:119-220 | Every step of every engine, handlers interleaved anywhere, keeps the hostile-network invariant |
| ControlSafetySteps.InitialSafety | rdma101/control.py:38-51 | Engines that know no peer, with no traffic, satisfy the hostile-network invariant |
| ControlReliable.StepKeepsReliable | rdma101/control.py:119-206 | Every step of the reliable network keeps the mutuality invariants |
| ControlFaultFree.StepKeepsClean | rdma101/control.py:119-196 | Every fault-free step keeps the convergence invariants at every engine |
| ControlFaultFree.ConnectSucceeds | rdma101/control.py:168-179 | In a fault-free run the Connect handler never raises, also when both ends initiate together |
| ControlFaultFree.UpdateSucceeds | rdma101/control.py:181-196 | In a fault-free run Ready and Changed always find their connection |
| ControlFaultFree.LinkSucceeds | rdma101/control.py:133-136 | In a fault-free run the answered offer always matches the local peer |
| ControlFaultFree.FinishSucceeds | rdma101/control.py:139-143 | In a fault-free run the peer is still live when the Ready reply arrives |
| ControlProgress.EveryStepAdvances | rdma101/control.py:119-166 | Reliable network: a step that starts nothing strictly reduces the remaining stages or targets of exactly one operation and leaves all others |
| ControlProgress.NoDeadlock | rdma101/engine.py:63-85 | An engine with an operation in progress always has an enabled step that advances it; the resource lock causes no cross-engine deadlock |
| ControlProgress.WorkDecreases | rdma101/control.py:119-166 | The total work over all engines strictly decreases |
| ControlProgress.ContinuationIsBounded | rdma101/control.py:119-166 | However the steps interleave, the operations in progress finish within the work they had |
| ControlProgress.NoWorkLeft | rdma101/control.py:119-166 | With no work left every connect, publish, disconnect and close has returned or raised |
| ControlAnswers.BeginAnswers | rdma101/control.py:121-130 | First part of connect: each error exactly under its condition; at most one record is added, unlinked and under the target |
| ControlAnswers.BeginOffers | rdma101/control.py:125-130 | It returns at once exactly if the target's peer is READY, then with the handle that stands for it; otherwise it offers that peer's identity and exported metadata |
| ControlAnswers.LinkAnswers | rdma101/control.py:133-136 | Second part: each refusal exactly under its condition and without a change of records; otherwise the peer points at the answered connection and all registrations are sent |
| ControlAnswers.FinishAnswers | rdma101/control.py:139-143 | Third part: PeerDisconnected or NativeFailure exactly when the peer is gone or an import raises; otherwise the peer is READY, has the whole snapshot, and the handle returned stands for it |
| ControlAnswers.PublishAnswers | rdma101/control.py:147-150 | publish is refused exactly when closed, otherwise appends and answers with the list |
| ControlAnswers.DisconnectAnswers | rdma101/control.py:156-166 | EngineClosed, UnknownPeer and NativeFailure exactly under their conditions; with a live peer under the handle and native destroy succeeding, that peer alone leaves the dictionary and its handle alone is destroyed |
| ControlAnswers.CloseAnswers | rdma101/control.py:208-220 | close drops every record and registration, touches no handle and closes the native engine once |
| ControlAnswers.ConnectHandlerAnswers | rdma101/control.py:168-179 | Which offers the Connect handler answers, with whose metadata, and the error of every refusal |
| ControlAnswers.UpdateHandlersAnswer | rdma101/control.py:181-196 | Ready and Changed answer exactly for a live peer linked to the connection named, unless an import raises; both import the whole newer snapshot and only Ready makes the peer READY |
| ControlAnswers.CloseHandlerAnswers | rdma101/control.py:198-206 | The Close handler fails exactly when closed or when native destroy fails for a linked peer, and removes exactly that peer |
| ControlNode.CreatePeerKeeps | rdma101/control.py:85-89 | Creating a peer keeps the engine invariant: one handle per peer, one live peer per endpoint, states agree with native phases |
| ControlNode.ConnectNativeKeeps | rdma101/control.py:101-110 | A connected QP is never connected again; the invariant and the write-once link are kept on success, refusal and native failure |
| ControlNode.ImportSnapshotKeeps | rdma101/control.py:112-117 | Importing, also when an import raises half-way, keeps the invariant and only grows |
| ControlNode.MarkReadyKeeps | rdma101/control.py:142-187 | Becoming READY keeps handles, states and native phases in agreement and only advances the peer |
| ControlNode.DestroyPeerKeeps | rdma101/control.py:164-165 | Destroying a peer keeps the invariant whether or not the native call fails |
| ControlNode.FinishCloseKeeps | rdma101/control.py:208-220 | After closing no peer is live, the native engine is closed unless its own close failed, and the engine invariant still holds |
| ControlNode.HandleConnectKeeps | rdma101/control.py:168-179 | The Connect handler keeps the invariant for any offer |
| ControlNode.HandleReadyKeeps | rdma101/control.py:181-188 | The Ready handler keeps the invariant for any update |
| ControlNode.HandleChangedKeeps | rdma101/control.py:190-196 | The Changed handler keeps the invariant for any update |
| ControlNode.HandleCloseKeeps | rdma101/control.py:198-206 | The Close handler keeps the invariant for any connection |
| ControlNode.BeginDisconnectKeeps | rdma101/control.py:156-165 | Whatever disconnect answers, the engine invariant is kept; on success exactly the live peer with that handle is dropped, on an error no record |
| ControlPlane.PeerRecord.constructor | rdma101/control.py:20-28 | A new record is unlinked, CREATED, version -1 |
| ControlPlane.ImportOne | rdma101/control.py:115-116 | One more turn of the import loop extends the imported prefix by one entry |
| ControlPlane.ControlPlane.CreatePeer | rdma101/control.py:85-89 | In place on the dictionary, equal to the peer creation the invariants are about; nothing is registered when the native call fails |
| ControlPlane.ControlPlane.FindOrCreate | rdma101/control.py:125-127 | Answers with the peer already under the endpoint, or registers exactly one new peer, or nothing if the native call fails |
| ControlPlane.ControlPlane.ConnectNative | rdma101/control.py:101-110 | Connects a CREATED peer's QP and links it; refuses an empty or foreign identity and a second, different link without a native call; repeats are no-ops |
| ControlPlane.ControlPlane.ImportSnapshot | rdma101/control.py:112-117 | A newer snapshot is imported in order up to the first import that raises, and only a complete import raises the version; an older or equal one changes nothing |
| ControlPlane.ControlPlane.MarkReady | rdma101/control.py:187 | Changes only the state of that record |
| ControlPlane.ControlPlane.DestroyPeer | rdma101/control.py:164-165 | Native destroy first; the entry stays when it fails |
| ControlPlane.ControlPlane.BeginConnect | rdma101/control.py:119-130 | Raises for an empty or own endpoint and on a closed engine, returns the handle of a READY peer at once, and otherwise offers the found or created peer |
| ControlPlane.ControlPlane.LinkConnect | rdma101/control.py:133-136 | Links the peer to the answered offer and reports the current snapshot; raises if it is no longer the registered object |
| ControlPlane.ControlPlane.FinishConnect | rdma101/control.py:138-143 | In place, equal to the third block, whose answers FinishAnswers describes: the handle returned is the peer's |
| ControlPlane.ControlPlane.BeginPublish | rdma101/control.py:145-151 | Appends, and its loop captures exactly the READY peers, each once |
| ControlPlane.ControlPlane.BeginDisconnect | rdma101/control.py:156-165 | In place, whatever the search order: the peer with the handle is destroyed and dropped, with the answers of DisconnectAnswers |
| ControlPlane.ControlPlane.Close | rdma101/control.py:208-220 | Both parts in sequence, as when no handler comes between |
| ControlPlane.ControlPlane.BeginClose | rdma101/control.py:210-213 | Only the closed flag changes |
| ControlPlane.ControlPlane.FinishClose | rdma101/control.py:219-220 | No live peer and no metadata remain, and a native engine already closed is not closed again |
| ControlPlane.ControlPlane.HandleConnect | rdma101/control.py:168-179 | Links the caller's endpoint to the offered connection, creating the peer if there is none, and answers with that peer's own offer; any refusal leaves an existing link |
| ControlPlane.ControlPlane.FindConnection | rdma101/control.py:95-99 | Finds the live peer linked to exactly that connection |
| ControlPlane.ControlPlane.HandleReady | rdma101/control.py:181-188 | Only the live peer linked to the named connection imports and becomes READY; the answer is the current snapshot |
| ControlPlane.ControlPlane.HandleChanged | rdma101/control.py:190-196 | Only the live peer linked to the named connection imports; its state does not change |
| ControlPlane.ControlPlane.HandleClose | rdma101/control.py:198-206 | Destroys the live peer under the endpoint exactly if its link is the named id; otherwise nothing changes |
| ControlPlane.DisconnectsOnePeer | rdma101/control.py:160 | In every reachable engine at most one peer has a given handle, so the search order does not matter |
| ProbeRefinement.MeasurementRefines | tests/verbs_probe.c:136-203 | For every sequence of posts, polls, creations and destructions from any earlier state, the counters and pending lists are the compact view of the full FIFOs, and posted, completed, signaled, cqes, in_flight, untracked and the completion and capacity errors are counts over them |
| ProbeRefinement.StepAgrees | tests/verbs_probe.c:205-278 | One call of the probe is one step of the reference ledger |
| ProbeRefinement.PendingPops | tests/verbs_probe.c:156-167 | The head of the compact list is the first signaled outstanding entry, its sequence number the count of WRITEs posted up to it |
| ProbeRefinement.AppendRefines | tests/verbs_probe.c:147-169 | Recording a request on the counters is appending it to the FIFO |
| ProbeRefinement.MatchRefines | tests/verbs_probe.c:187-190 | A CQE matches on the counters exactly when it names the first signaled outstanding entry |
| ProbeRefinement.PopRefines | tests/verbs_probe.c:191-202 | The retired amount is the number of WRITEs popped, with mixed opcodes and reused ids |
| ProbeTheorems.Conservation | tests/verbs_probe.c:147-152 | While tracking, in_flight is the sum of posted - completed over live queue pairs, and posted = completed + in_flight + those dropped by destruction |
| ProbeTheorems.CountersOrdered | tests/verbs_probe.c:192-202 | Per queue pair completed <= posted, and the pending sequence numbers are nondecreasing between them, so no unsigned subtraction goes below zero |
| ProbeTheorems.CountersStayInRange | tests/verbs_probe.c:23-27 | No counter is negative or exceeds the number of requests, completions and calls of the measurement |
| ProbeTheorems.ChainRecords | tests/verbs_probe.c:224-230 | A posted chain extends the history of its queue pair by exactly its recorded requests in order and touches no other |
| ProbeTheorems.EveryWriteIsCounted | tests/verbs_probe.c:136-152 | Every RC WRITE the provider accepted is counted once: posted plus untracked is all of them |
| ProbeTheorems.PostedWrsCountsAccepted | tests/verbs_probe.c:222-231 | Over any run posted_wrs counts exactly the requests handed over: those of a chain for which neither they nor one before was refused, tracked or not |
| Probe.Accepted | tests/verbs_probe.c:224-226 | The loop stops exactly at the first request that is refused: the one bad_wr points at, or the first if the failed call left no bad_wr |
| ProbeTheorems.AcceptedCounts | tests/verbs_probe.c:222-231 | The numbers of requests and of RC WRITEs handed over, as sets of positions, are what the loop counts |
| ProbeTheorems.PostBatchIsMaximum | tests/verbs_probe.c:236-238 | post_batch is the maximum over the calls of the accepted WRITEs (exactly, unless WRITEs went unobserved) |
| ProbeTheorems.PeakIsMaximum | tests/verbs_probe.c:150-152 | peak_in_flight is the largest in_flight of the measurement |
| ProbeTheorems.PollEntriesIsMaximum | tests/verbs_probe.c:263-264 | poll_entries is the largest count passed to a poll while WRITEs were in flight |
| ProbeTheorems.PostErrorsCounts | tests/verbs_probe.c:233-235 | post_errors counts the failed calls whose refused request is an RC WRITE |
| ProbeTheorems.CapacityIsRespected | tests/verbs_probe.c:153-154 | capacity_errors is zero exactly when no queue pair ever had more WRITEs outstanding than its capacity |
| ProbeAlarms.CapacityErrorsCount | tests/verbs_probe.c:136-170 | capacity_errors counts exactly the accepted WRITEs that leave their queue pair with more WRITEs outstanding than its send capacity |
| ProbeAlarms.CompletionErrorsCount | tests/verbs_probe.c:172-203 | completion_errors counts exactly the failed polls with a WRITE outstanding, the error CQEs of an RC queue pair with a WRITE outstanding, and the success CQEs of sends other than the oldest signaled one outstanding: none is missed and nothing else counted |
| ProbeAlarms.CqesAreOccurrences | tests/verbs_probe.c:199-200 | cqes counts the matched CQEs that retired a WRITE |
| ProbeTheorems.StoppedTotalsStay | tests/verbs_probe.c:106-114 | After observation stops the totals stay until it is started again |
| ProbeEvidence.RecordFaithful | tests/verbs_probe.c:136-203 | Every entry of the ledger is one accepted request, in order; every acknowledgement one polled success CQE for a signaled entry posted before, no CQE counting twice for a queue pair; and unless WRITEs went unobserved no accepted WRITE is missing |
| ProbeEvidence.CompletionIsEvidence | tests/verbs_probe.py:109-118 | A measurement ends with completed = posted exactly when every recorded WRITE, on live and destroyed queue pairs, is at or before a signaled request of its queue pair whose success CQE was polled |
| ProbeEvidence.NoneOutstanding | tests/verbs_probe.c:191-198 | completed equals posted exactly if no queue pair, live or destroyed, has a WRITE outstanding |
| ProbeEvidence.CompletionEvidence | tests/verbs_probe.py:109-118 | With no untracked WRITEs and completed = posted, every accepted WRITE of the measurement has such a completion, and different signaled requests of a queue pair have different CQEs, later ones later, however ids are reused; in_flight and completion_errors are not even needed |
| ProbeProvider.HonestProviderIsFaultless | tests/verbs_probe.c:172-203 | If on RC queue pairs every CQE succeeds and arrives in queue order, and no poll fails while WRITEs are in flight, completion_errors stays zero, whatever arrives on queue pairs of other types |
| ProbeProvider.HonestProviderRetires | tests/verbs_probe.c:191-202 | Once such a provider owes nothing on RC queue pairs, only unsignaled tails are left outstanding |
| ProbeProvider.HonestProviderCompletes | tests/verbs_probe.py:102-117 | And then completed equals posted exactly if no live queue pair ends in WRITEs that no signaled request follows and none was destroyed with a WRITE outstanding |
| ProbeProvider.SettledProviderCompletes | tests/verbs_probe.py:102-117 | If besides queue pairs are destroyed only when nothing is owed on them: completed equals posted exactly if no queue pair, live or destroyed, ends in WRITEs that no signaled request follows |
| ProbeHeap.QpState.Push | tests/verbs_probe.c:159-167 | Appends to the linked pending queue through its tail pointer |
| ProbeHeap.QpState.Retire | tests/verbs_probe.c:192-202 | Unlinks the head and advances completed to its sequence number |
| ProbeHeap.QpState.ResetTracking | tests/verbs_probe.c:95-103 | The freeing loop empties the queue and both counters |
| ProbeHeap.VerbsProbe.FindQp | tests/verbs_probe.c:88-93 | The list search finds the first record of that queue pair |
| ProbeHeap.VerbsProbe.FindNumber | tests/verbs_probe.c:172-176 | The list search finds the first record with that CQ and number |
| ProbeHeap.VerbsProbe.RecordPosted | tests/verbs_probe.c:136-170 | One accepted RC request: counted, checked against the capacity and, if signaled, queued on the record of its queue pair, all other records untouched; without a record only WRITEs count, as untracked |
| ProbeHeap.VerbsProbe.RecordCompletion | tests/verbs_probe.c:172-203 | A success CQE naming the head of its queue pair's pending queue retires through it; any other is an error, receives are ignored, and error CQEs count only with WRITEs outstanding |
| ProbeHeap.VerbsProbe.RecordChain | tests/verbs_probe.c:222-230 | The loop over the chain stops at the first refused request and records exactly what went before |
| ProbeHeap.VerbsProbe.PostSend | tests/verbs_probe.c:205-242 | Exactly the requests before bad_wr are recorded and counted; the batch maximum and the post errors follow; nothing but the call counter moves while not tracking |
| ProbeHeap.VerbsProbe.PollCq | tests/verbs_probe.c:244-278 | Entries are recorded in order; poll_entries and a failed poll count only with WRITEs in flight; nothing changes while not tracking |
| ProbeHeap.VerbsProbe.CreateQp | tests/verbs_probe.c:300-315 | The new record is linked in front |
| ProbeHeap.VerbsProbe.FindLink | tests/verbs_probe.c:343-345 | The search for the link to the record to remove |
| ProbeHeap.VerbsProbe.Unlink | tests/verbs_probe.c:351 | Only that record leaves the list |
| ProbeHeap.VerbsProbe.DestroyQp | tests/verbs_probe.c:337-357 | in_flight loses exactly what was outstanding on the queue pair |
| ProbeHeap.VerbsProbe.ResetList | tests/verbs_probe.c:108-109 | Every record is reset, in place |
| ProbeHeap.VerbsProbe.ObserveWrites | tests/verbs_probe.c:106-114 | Starting zeroes the totals, stopping keeps them |
| Codec.LoadStore | transfer-engine/transfer_engine.h:91-113 | Reading a little-endian field gives back the number stored, if it fits |
| Codec.RequestRoundTrip | rdma101/native_engine.py:93-123 | Encoding is defined exactly for requests whose fields fit; decoding it in C++ and Rust gives the request with its address reduced to 64 bits, hence the request itself exactly when its address fits too |
| Codec.EncodingIsInjective | rdma101/native_engine.py:93-123 | Different requests in range have different encodings, although the members of args overlap |
| Codec.EncodedLayout | transfer-engine/transfer_engine.h:63-139 | Byte by byte an encoded request is the header's struct: every field little-endian at its offset, with the header's opcode and flag numbers, and zero in unused bytes of the union |
| Codec.OneLanguage | transfer-engine/cpp/ffi.cpp:80-122 | The C check, the C++ decoder and the Rust decoder accept the same bytes, characterized by opcode and flags; the two decoders agree on every one |
| Codec.DecodedIsEncodable | transfer-engine/rust/src/ffi.rs:88-129 | Whatever the unused bytes, a decoded request can be encoded and decodes to itself |
| CodecArrays.ArrayBound | transfer-engine/cpp/ffi.cpp:56-60 | The floor division accepts exactly the arrays whose byte length is at most 2^63 - 1, in all three forms |
| CodecArrays.SubmitC | transfer-engine/c/engine.c:116-148 | The validation loop accepts exactly the legal arrays and always clears the batch output |
| CodecArrays.SubmitCpp | transfer-engine/cpp/ffi.cpp:293-322 | The engine is called if and only if every element decodes, with that sequence; otherwise the batch output is 0 |
| CodecArrays.SubmitRust | transfer-engine/rust/src/ffi.rs:318-342 | The same all-or-nothing contract for the Rust loop |
| CodecArrays.SubmissionRoundTrip | rdma101/native_engine.py:256-262 | Every array Python can encode is legal and reaches either engine as the submitted requests, each address reduced to 64 bits |
| CodecArrays.StatusRoundTrip | transfer-engine/cpp/ffi.cpp:124-146 | Either encoder followed by the Python decoder returns the status exactly when it is well formed; the C++ encoder aborts just on a failure without an error |
| CodecArrays.StatusDecoding | rdma101/native_engine.py:281-299 | For any raw status and opcode, an exact description over the raw fields: failures by the header's numbers whatever the receive fields, pending and completed tasks without an error, receive results only for a RECV and with the other field zero; nothing else decodes |
| CodecArrays.ErrorNumbers | transfer-engine/transfer_engine.h:26-37 | The numbers the adapters write for results are the header's |
| CodecArrays.DecodeStatuses | rdma101/native_engine.py:273-300 | The decoding loop returns what each raw status means by the header, in submission order, or raises exactly if some one means nothing |
| CodecArrays.GetStatuses | transfer-engine/rust/src/ffi.rs:345-369 | Which code each refused query returns; caller storage is written only after a successful query, and then exactly the queried entries |
| CodecArrays.GetStatusesCpp | transfer-engine/cpp/ffi.cpp:324-348 | The same for the C++ entry point, which besides aborts exactly when a queried status is a failure without an error |
| CodecArrays.QueryRoundTrip | rdma101/native_engine.py:268-300 | A whole query through either adapter returns what the raw statuses mean, or an error exactly if one means nothing; these are the engine's statuses exactly when they are well formed; a refused query leaves every slot unchanged |
| CodecArrays.DecodeAccessCpp | transfer-engine/cpp/ffi.cpp:62-77 | Known flags decode to themselves, any other bit is refused |
| CodecArrays.DecodeAccessRust | transfer-engine/rust/src/ffi.rs:68-85 | The loop computes the same |
| Registry.NativeEngine.RegisterLocalMemory | rdma101/native_engine.py:166-193 | For any answer, what is raised and what the table holds; against an engine that obeys the header memories mirror its registrations and metadata, and the consistency errors never fire |
| Registry.NativeEngine.DeregisterLocalMemory | rdma101/native_engine.py:202-205 | The registration leaves both sides together, or neither if the engine refuses, which is raised; the deletion never misses |
| Registry.NativeEngine.ImportRemoteMemory | rdma101/native_engine.py:207-223 | For any answer, what is raised and what the table holds; imports mirror the engine's, with the peer each belongs to, also when a live import is returned again |
| Registry.NativeEngine.RemoveRemoteMemory | rdma101/native_engine.py:225-228 | The import leaves both sides together, or neither if the engine refuses; the deletion never misses |
| Registry.NativeEngine.CreatePeer | rdma101/native_engine.py:230-241 | For any answer, what is raised; peers mirror the engine's live peers, and the consistency errors never fire |
| Registry.NativeEngine.ForgetImports | rdma101/native_engine.py:252-254 | The loop over a copy of the table drops exactly that peer's imports |
| Registry.NativeEngine.DestroyPeer | rdma101/native_engine.py:248-254 | The peer and all its imports leave both sides together |
| Registry.NativeEngine.SubmitTransfer | rdma101/native_engine.py:256-266 | For any answer, what is raised; a batch is kept with the operation of every request; a request that does not fit changes nothing |
| Registry.NativeEngine.GetTransferStatuses | rdma101/native_engine.py:268-300 | For any answer, what is raised or returned; a live batch never mismatches its count and is answered with exactly its statuses |
| Registry.NativeEngine.FreeBatch | rdma101/native_engine.py:302-304 | The batch leaves both sides together, or neither if the engine refuses; the deletion never misses |
| Registry.NativeEngine.Close | rdma101/native_engine.py:306-314 | Tables are cleared only when the engine was destroyed |
| NativeContract.TerminalStays | transfer-engine/transfer_engine.h:49-54 | A final status never changes |
| NativeContract.WorkKeepsConsistent | transfer-engine/transfer_engine.h:156-166 | While tasks advance, batches stay nonempty, their statuses suit their operations and live handles stay among those given out |
| EngineWait.Wait | rdma101/engine.py:109-118 | The first poll that is refused or finds every task ended decides: its very code is raised, or the final statuses are returned; TimeoutError exactly if no poll before the deadline decides; raises at once on a closed engine or an unknown batch |
| EngineWait.Transfer | rdma101/engine.py:120-128 | Release is requested exactly when a poll finds every task ended before any is refused, so it is never refused as busy; a failed release raises its code and keeps the batch; the first failed task decides what is raised; a closed engine or a request that does not fit raises before anything is submitted |
| Communicator.ReachableInv | tests/processes.py:33-37 | Under every interleaving each queue holds exactly the values put and not yet got, and each rank has gathered a prefix of the current vector |
| Communicator.AllgatherIsCorrect | tests/processes.py:33-37 | Each rank's k-th call returns the vector of k-th contributions in rank order, for any number of ranks and rounds |
| Communicator.NeverStuck | tests/processes.py:26-37 | While a rank has calls left, some rank can take a step |
| Communicator.EveryRunEnds | tests/processes.py:33-37 | Every run is finite, and cannot be continued exactly when every rank has returned from all its calls |

## Left out

- gRPC transport, channels, server start and stop, the thread pool and listen parsing: only messages and handler steps remain.
- Handlers of one engine run one at a time under its state lock; the argument that the lock does this is not part of the model.
- Recovery after raced disconnects, timeouts or native connect failures: the protocol can stay half open, so only safety is claimed there.
- ControlPlane.ControlPlane.Close: both parts at once; the handlers that may run between them are covered by BeginClose and FinishClose, and by the steps of the system model.
- Delivery to the remaining peers when one Changed call raises: publish stops there, as in the code.
- ControlPlane.ControlPlane.BeginPublish: the order of the captured peers is any, where the dictionary has its insertion order.
- ProbeTheorems.CountersStayInRange: bounds every counter by the weight of the measurement; wrap-around of 64-bit counters beyond that is not modelled.
- Probe call counters other than posted_wrs, thread ids, the pause of completions and the release at shutdown: a held poll reports nothing and changes no measured total.
- ProbeHeap.VerbsProbe.DestroyQp: unlinks the record; freeing it and its pending nodes has no effect left to state.
- ibv_open_device and ibv_close_device hooks, symbol resolution and dlopen interposition.
- CFFI allocation and alignment, weak references and real pointers: addresses and byte sequences are enough.
- TypeError for values of a wrong Python type: the model is typed.
- Registry.NativeEngine.GetTransferStatuses: the lookup of metadata by memory object is not modelled, nor are calls of other threads between two polls.
- EngineWait.Wait: the monotonic clock is replaced by an arbitrary number of polls.
- Communicator.sendrecv and barrier: one send and one receive, and a primitive of the standard library.
- The transfer algorithms of the labs: the native engines return Unimplemented, so the header is their only specification.
- Scripts, fixtures, process spawning and log handling.
