# Verification of the PipeWire client session, hooks, event dispatch and POD framing

This project models four parts of the Rust PipeWire client and proves what they promise.

1. **The ClientNode session** (`session_*.dfy`). One owner applies configuration commands, binds generations of
   transport, output and peers over memory shared with the server, and turns eventfd wake-ups into at most one
   callback each. Operations are functions over a session and the world it shares (words of memory, eventfd
   counters, a trace of stores, callbacks and signals); the class `ClientNodeSession` performs them field by field
   and is proved equal to them. Runs interleave commands, wakes and arbitrary writes of the server. `SessionIntents`
   and `SessionLinks` say what a session is for as a fold over its commands, which the session refines. `FanIn` treats
   the compare-and-swap loop under contention, `SessionRuntime` the worker that owns a session.
2. **The hook list** (`hook_*.dfy`). Any number of threads emit, register and remove hooks; steps are the critical
   sections of the list's mutex.
3. **The event dispatcher** (`event_dispatch.dfy`). A re-entrant queue whose handler may be replaced, cleared or
   panic while it runs.
4. **PODs and the outbound connection** (`pod_*.dfy`, `wire_client_node.dfy`, `protocol_connection.dfy`). An in-place
   builder with back-patched headers, the recursive parser, the encoder of ClientNode methods with its growing buffer,
   and the numbering of outbound frames.

`dafny verify dfyconfig.toml` checks everything.

## Where the code keeps less than one might expect

- A transport candidate refused for overlap writes the client version into the record it aliases and, when it is
  dropped, deactivates it. The session is unchanged; the shared record is not
  (`OverlapRejectionDisturbs` gives the exact condition, `OverlapRejectionExample` an instance).
- `CommittedOutput` is copyable. A callback that returns one kept from an earlier cycle may publish more bytes than
  the current capacity; a clock panic is then not rolled back. Nor is one after which the server moved the own status,
  because the cycle then fails before the rollback (`ClockPanicRollsBackIff` gives the exact condition,
  `StaleCommitStays` and `MovedStatusStays` an instance of each branch).
- A server that replaces the version word of the session's own record while the callback runs keeps a failing session
  from leaving the graph: its record can no longer be viewed (`FailedCallbackRollsBack` and `ClockPanicRollsBackIff` say
  exactly when, `ReplacedVersionStays` and `ReplacedVersionAfterPublication` give instances).
- A clock panic on a cycle that selected nothing takes back an older publication (`ClockPanicTakesBackOlder` says exactly
  when, `UnconsumedIsTakenBack` gives an instance).
- A first `UseBuffers` and a first or changed `SetFormat` are retained although they were rejected
  (`RejectedBuffersRetained`, `RejectedFormatRetained`; instances in `FirstBuffersExample`, `FirstFormatExample`).
- The documentation of the runtime's `callbacks` counter (`node/src/runtime/mod.rs:130-131`) says completed callback
  cycles; the code also counts claimed cycles that ran no callback. The model follows the code: a processed wake ran a
  callback if and only if it found NEED_DATA (`WakeRunsIffAsked`), and the counter counts callbacks if and only if every
  processed wake did (`RuntimeCounters`; `SkippedIsCounted` is an instance in which it does not).
- `Builder::push_struct` and `push_object` compare their header with the whole buffer instead of the room left. A
  container header that straddles the end panics instead of returning NoSpace (`FirstMisfitDecides`). The encoder of
  ClientNode methods nests the info struct inside one builder and grows on NoSpace, so some methods that fit unwind
  instead (`TrappedIffUnencodable` says exactly which, `UnencodableExample` gives one), and so does the push that sends
  them (`EncodePayload`, `PushAllOrNothing`). Values that bring their own builder are refused correctly
  (`ValueRefusedIffNoRoom`).
- The payload buffer may grow to 2^24 bytes but a frame carries at most 2^24 - 1 (`LimitsDiffer` says exactly which
  pushes pass one limit and fail the other, `LargestMessage` is one).
- The iterator over an object's properties ends silently at the first error (`IteratorTruncates` says exactly when it
  drops something, `SilentlyEmpty` is an instance); popping properties one by one reports the error.

## Model

| member | source | states |
|---|---|---|
| `SessionRuns.RunsAreSafe` | node/src/session/owner.rs:258-513 | Over every run of commands, wakes and server writes from a fresh session, failed ones included: all mappings in use are pairwise disjoint, Running implies transport, format and output, an output keeps its three descriptors, CycleClaimed is never visible, and pending plus installed peers name at most 64 nodes |
| `SessionRuns.AllMappingsDisjoint` | node/src/session/owner.rs:515-600 | Disjointness checked piecewise when something is bound is disjointness of all mappings a session holds, taken together |
| `SessionRuns.StepKeeps` | node/src/session/owner.rs:258-513 | Every step, whatever it returns, keeps the session invariant |
| `SessionSafety.ApplyKeeps` | node/src/session/owner.rs:258-431 | Each of the fifteen commands keeps the invariant on every path, including those that fail half way |
| `SessionSafety.OnWakeKeeps` | node/src/session/owner.rs:444-513 | A wake keeps the invariant on every path, including claim, callback, propagation and clock failures |
| `SessionSafety.BindTransportCases` | node/src/session/owner.rs:515-537 | What a transport bind did: nothing installed and at most the client version written, or a fresh generation of the queued descriptor, mapped as leased, handed to the overlap check |
| `SessionSafety.OutputCandidateOk` | node/src/session/owner.rs:555-578 | A candidate changes only the generation counter, and when it exists its mappings fit their records, are disjoint from each other and from transport and peers |
| `SessionSafety.BoundBuffersApart` | node/src/session/output.rs:61-112 | Buffers bound one by one end up pairwise disjoint, with every chunk inside its metadata region and aligned |
| `SessionSafety.OnWakeFrame` | node/src/session/owner.rs:444-513 | A wake changes nothing of the session except turning Running into Failed |
| `SessionMachine.BindPeerKeepsOthers` | node/src/session/owner.rs:580-600 | Binding one pending peer leaves every other pending entry in place, so the lookup of a listed node cannot fail |
| `SessionTransaction.RejectedTransportKeepsSession` | node/src/session/owner.rs:515-537 | A replacement transport that cannot be bound or overlaps something fails and leaves installed generations, retained descriptors, intents and state as they were |
| `SessionTransaction.RejectedPeerKeepsSession` | node/src/session/owner.rs:580-600 | A rejected peer leaves everything installed as it was and writes nothing to shared memory |
| `SessionTransaction.RejectedBuffersKeepSession` | node/src/session/owner.rs:298-324 | A rejected replacement buffer set changes nothing but the generation counter |
| `SessionTransaction.RejectedIoKeepsSession` | node/src/session/owner.rs:332-354 | A rejected replacement IO area changes nothing but the generation counter |
| `SessionTransaction.RejectedFirstBuffersAreRetained` | node/src/session/owner.rs:320-323 | A first buffer set is retained although its binding failed: only replacements are transactional |
| `SessionTransaction.RejectedBuffersRetained` | node/src/session/owner.rs:298-324 | A rejected UseBuffers, whatever rejected it, leaves the retained buffer set as it was if and only if one was retained; a first set is retained although it was rejected |
| `SessionTransaction.RejectedFormatRetained` | node/src/session/owner.rs:276-289 | A rejected SetFormat leaves the retained format as it was if and only if it asked for that same format; the retained buffers and IO area always stay |
| `SessionTransaction.OverlapRejectionWrites` | node/src/session/transport.rs:38-72 | A transport refused for overlap has already written the client version and, when dropped, writes INACTIVE into the record it aliases |
| `SessionTransaction.OverlapRejectionDisturbs` | node/src/session/transport.rs:38-72 | An installed mapping survives such a refusal unchanged if and only if the candidate status and version words lie outside it or already hold those values |
| `SessionExamples.OverlapRejectionExample` | node/src/session/owner.rs:533-535 | A session reached by two commands whose installed peer is deactivated by the refusal of an overlapping transport |
| `SessionExamples.FirstBuffersExample` | node/src/session/owner.rs:320-323 | A session reached by three commands in which a first, empty buffer set is rejected and retained |
| `SessionExamples.FirstFormatExample` | node/src/session/owner.rs:276-289 | A session reached by three commands in which a first format is rejected and retained |
| `SessionExamples.SetupRuns` | node/src/session/owner.rs:258-431 | Seven commands take a fresh session, over a record as the server hands it out, to a given Running session |
| `SessionExamples.TriggeringIsReached` | node/src/session/owner.rs:258-431 | That session and a following step of the server are a run from a fresh session |
| `SessionOrigin.RemoveMemoryRevokes` | node/src/session/owner.rs:382-392 | After a successful RemoveMemory nothing depends on the key or resolves to it, and transport, output and peers bound to any other generation stay installed |
| `SessionOrigin.RevokedForever` | node/src/session/owner.rs:621-640 | A revoked key stays out of use through every later run that does not lease exactly that key |
| `SessionOrigin.RevokedAcrossRuns` | node/src/session/owner.rs:382-392 | Both halves joined over whole runs, wherever in the run the removal happened |
| `SessionOrigin.GenerationsNeverReused` | node/src/session/owner.rs:716-722 | Over every run a transport generation is installed at most once: any transport installed later carries a number never used before |
| `SessionOrigin.StepGenerations` | node/src/session/owner.rs:716-722 | One step never lowers the generation counter, and a transport it installs is numbered at or above the counter |
| `SessionConvergence.Convergence` | node/src/session/owner.rs:258-431 | After any run in which every step succeeded the session runs exactly when active is wanted, the last command is Start, a transport is bound and format, buffers and IO are retained with all their memory leased; nothing stays pending once its memory is available |
| `SessionConvergence.ArrivalOrderIrrelevant` | node/src/session/owner.rs:602-619 | Two successful runs that end with the same intents, descriptors and leases end with the same output binding and in the same run state, whatever the order of arrival |
| `SessionConvergence.ApplySchedules` | node/src/session/owner.rs:426-430 | One successful command re-establishes the scheduled state, even from Failed |
| `SessionIntents.SessionRefinesPlan` | node/src/session/owner.rs:258-431 | The session refines a fold over its commands that knows no bindings, worlds or wakes: after any successful run intents, descriptors, leases and bound transport are what the fold says, the output is bound exactly when the fold is furnished and to just those regions, and the session runs exactly when furnished, bound, active and started |
| `SessionIntents.OnlyThePlanMatters` | node/src/session/owner.rs:258-431 | Two successful runs whose commands fold to the same plan, in whatever order and over whatever worlds, end in the same configuration and run state |
| `SessionIntents.ApplyFollowsPlan` | node/src/session/owner.rs:271-425 | One successful command revises the plan as a table of fifteen short entries says, whatever is bound, shared or running |
| `SessionIntents.RunFollowsPlan` | node/src/session/owner.rs:258-513 | Wakes and server writes never change what was asked for; commands change it by the table alone |
| `SessionLinks.SessionRefinesLinks` | node/src/session/owner.rs:361-392 | After any successful run exactly the peers the fold has linked are installed, each with the key, eventfd and mapping its descriptor named, and exactly those it has waiting are queued |
| `SessionLinks.ApplyFollowsLinks` | node/src/session/owner.rs:361-392 | One successful command admits, drops or queues exactly the peers its table entry names |
| `SessionLinks.RetryPeersAdmits` | node/src/session/owner.rs:610-613 | The retry loop admits exactly the listed nodes whose memory is leased and leaves the others waiting |
| `SessionLinks.BindPeerLinks` | node/src/session/owner.rs:580-600 | Binding moves exactly one descriptor from waiting to linked, or nothing |
| `SessionAuthority.CallbacksNeedTriggers` | node/src/session/owner.rs:444-513 | Over every run, however large the eventfd counts, callbacks never exceed the tokens at the start plus the TRIGGERED transitions the server performed |
| `SessionAuthority.FreshCallbacksNeedTriggers` | node/src/session/owner.rs:444-513 | From a fresh session every callback is paid for by its own server trigger, with no assumption about the server |
| `SessionAuthority.OnWakeCosts` | node/src/session/transport.rs:113-147 | One wake spends at most one token, and a reported outcome stands for exactly the callbacks that ran: one when it produced, none otherwise |
| `SessionAuthority.ApplyTame` | node/src/session/owner.rs:258-431 | No command runs a callback or creates authority for one |
| `SessionQuiescence.IdleMeansInactive` | node/src/session/owner.rs:642-679 | With a server that keeps version 1 and never moves a status out of INACTIVE, over every run a session that is not Running has its own activation INACTIVE |
| `SessionQuiescence.ApplyCalm` | node/src/session/owner.rs:660-672 | Each command keeps that property, on failing paths too |
| `SessionCycle.FailedCallbackRollsBack` | node/src/session/transport.rs:131-147 | A callback that fails, panics or commits something unpublishable always leaves the chunk empty, IO at NEED_DATA with the same buffer, result -EIO, no peer touched and the session Failed, whatever clock and server do; its record is INACTIVE as well if and only if the server kept the version word or deactivated the record itself |
| `SessionCycle.ClockPanicRollsBackIff` | node/src/session/owner.rs:473-510 | After a publication and a clock panic the buffer is returned if and only if the committed bytes fit the capacity the cycle offered and the server left the own status AWAKE; the record leaves the graph too if and only if, besides, the version word was kept; otherwise the session is Failed and the whole publication still shows |
| `SessionCycle.OwnCommitFits` | node/src/session/cycle.rs:177-221 | What commit returns names the selected buffer, counts its frames in bytes and fits the capacity the cycle offered |
| `SessionCycle.OwnCommitIsTakenBack` | node/src/session/cycle.rs:177-221 | A callback that returns what its own commit gave is always rolled back when the clock panics, if the server left version and status alone |
| `SessionCycle.ClockPanicTakesBackOlder` | node/src/session/output.rs:172-200 | A claimed cycle that selects nothing and whose clock panics fails the session and leaves every word of the output as it was if and only if the IO area does not say HAVE_DATA for a buffer of the set whose view is sound; otherwise that older publication is taken back and its chunk emptied |
| `SessionExamples.StaleCommitStays` | node/src/session/cycle.rs:177-221 | A reached session whose first wake committed the whole plane at ring offset 0 and whose second wake returns that commit at offset 32: 64 bytes are published behind it and not taken back by the clock panic |
| `SessionExamples.MovedStatusStays` | node/src/session/owner.rs:473-478 | A reached session in which the server deactivates the record during the callback and the publication is not taken back |
| `SessionExamples.ReplacedVersionStays` | node/src/session/owner.rs:473-510 | A reached session in which the server replaces the version word during a failing callback and the record does not leave the graph |
| `SessionExamples.ReplacedVersionAfterPublication` | node/src/session/owner.rs:504-510 | The same after a publication: the clock panic returns the buffer and the record does not leave the graph |
| `SessionExamples.UnconsumedIsTakenBack` | node/src/session/output.rs:172-200 | A reached session whose first wake published 64 bytes and whose second wake, triggered before the server consumed them, selects nothing: its clock panic turns IO to NEED_DATA and the chunk size from 64 to 0 |
| `SessionExamples.FirstWakePublishes` | node/src/session/owner.rs:444-513 | The first wake of that session: the callback returns what commit gave for sixteen frames, the wake reports a product and the publication shows |
| `SessionExamples.AgainIsReached` | node/src/session/owner.rs:258-513 | Setup, request, publishing wake and another step of the server are a run from a fresh session |
| `SessionCycle.PublicationOrder` | node/src/session/cycle.rs:236-256 | Every wake that reports a product stored the chunk, then HAVE_DATA, then its own FINISHED, and only then touched the peers, in ascending node order |
| `SessionCycle.SkippedOrder` | node/src/session/owner.rs:489-498 | Every wake that reports a cycle without a product found no request for data, ran no callback, stored the claim, an OK result, the finish time and FINISHED, and then attempted the peers |
| `SessionCycle.UnclaimedChangesNothing` | node/src/session/owner.rs:485-488 | A wake whose record was not TRIGGERED changes nothing but the counter it drained |
| `SessionCycle.ProducedMeans` | node/src/session/output.rs:141-170 | A product means a buffer was selected, its commit was publishable and the clock did not panic |
| `SessionPropagation.TriggerAllIsPointwise` | node/src/session/peer.rs:108-127 | With eventfds of their own, each peer ends, counter included, as if it had been attempted alone |
| `SessionPropagation.TriggerAllRecords` | node/src/session/peer.rs:108-127 | Every peer is attempted exactly once even after an earlier failure: its record ends as if it had been attempted alone, whether or not eventfds are shared |
| `SessionPropagation.TriggerAllReportsFirst` | node/src/session/peer.rs:108-127 | Whatever the peers share, the error returned is that of the first attempt that fails in its turn, and there is none if and only if none fails |
| `SessionPropagation.TriggerAllCounts` | node/src/session/peer.rs:69-127 | Every eventfd, shared or not, grows by exactly the number of signals the loop sent to it |
| `SessionPropagation.TriggerAllReportsLowest` | node/src/session/peer.rs:108-127 | With eventfds of their own, the error returned is that of the lowest failing node, judged by the records before the loop |
| `SessionPropagation.TriggerAllTouchesOnlyPeers` | node/src/session/peer.rs:108-127 | Propagation changes nothing outside the records and eventfds of the peers |
| `SessionPropagation.TriggerAllInTurn` | node/src/session/peer.rs:108-127 | The stores and signals of the loop are those of its attempts, peer after peer in node order, each exactly once |
| `SessionPropagation.TriggerAllTrace` | node/src/session/peer.rs:108-127 | For peers with eventfds of their own they are those of single attempts made before the loop |
| `SessionPropagation.SignalOnlyAfterTriggered` | node/src/session/peer.rs:69-78 | An eventfd is signalled if and only if this attempt took the last dependency of a NOT_TRIGGERED record and the counter has room, and then after TRIGGERED and the signal time were stored |
| `SessionPropagation.AttemptTouchesOnlyItsPeer` | node/src/session/peer.rs:69-78 | An attempt writes only the record and the eventfd of its peer |
| `FanIn.DecrementLoop` | node/src/session/activation.rs:212-233 | Whatever other participants do to the counter between load and exchange, the retry loop amounts to one uninterrupted decrement after the changes it saw |
| `FanIn.FanInOutcome` | node/src/session/activation.rs:212-233 | For every interleaving of m threads over n pending until all return: with m >= n one triggers, the values n-1 to 1 are each returned by one waiter, the rest get InvalidPending(0) and the counter ends at zero; with fewer nobody triggers and n - m stay pending |
| `FanIn.ExactlyOneTriggers` | node/src/session/activation.rs:229-232 | With at least as many threads as dependencies there is exactly one thread that returns Triggered |
| `FanIn.PendingNeverNegative` | node/src/session/activation.rs:218-227 | The counter stays between zero and n in every state of every interleaving |
| `FanIn.FanInTerminates` | node/src/session/activation.rs:218-227 | No interleaving of live threads takes more than m * (n + 4) steps, because a failed exchange means the counter fell |
| `SessionOwner.EnsureDisjoint` | node/src/session/owner.rs:771-786 | True exactly when no candidate interval overlaps an existing one |
| `SessionOwner.RejectOverlaps` | node/src/session/output.rs:224-235 | True exactly when the intervals are pairwise disjoint |
| `SessionOwner.ChunkLayout` | node/src/session/output.rs:64-70 | The fold over the metadata sizes gives the recursive layout, overflow included |
| `SessionOwner.BindOneBuffer` | node/src/session/output.rs:64-91 | One buffer bound in the order of the checks agrees with its specification on every error |
| `SessionOwner.BindOutputGeneration` | node/src/session/output.rs:38-120 | The accumulating loop over buffers agrees with the recursive binding, including which error is reported |
| `SessionOwner.TriggerPeers` | node/src/session/peer.rs:108-127 | The loop that keeps the first error agrees with the recursive propagation |
| `SessionOwner.ProcessOutput` | node/src/session/output.rs:141-170 | The step-by-step process call agrees with its specification: views, selection, callback, publication or give-back |
| `SessionOwner.ClaimAndFinishCycle` | node/src/session/transport.rs:113-147 | The step-by-step claim agrees with its specification, with a panic of the callback or the clock turned into an error result |
| `SessionOwner.ClientNodeSession.constructor` | node/src/session/owner.rs:210-227 | A new session is empty, configuring, and satisfies the invariant |
| `SessionOwner.ClientNodeSession.AllocateGeneration` | node/src/session/owner.rs:716-722 | Hands out the next number, or fails without change at the end of the range |
| `SessionOwner.ClientNodeSession.Deactivate` | node/src/session/transport.rs:108-111 | Swaps the own status to INACTIVE; errors of view and decode are kept apart |
| `SessionOwner.ClientNodeSession.Stop` | node/src/session/owner.rs:660-672 | New state and result are those of the specification; nothing but the own status word and the state changes |
| `SessionOwner.ClientNodeSession.Fail` | node/src/session/owner.rs:674-679 | Leaves the session Failed whatever deactivation returned |
| `SessionOwner.ClientNodeSession.EnsureRunning` | node/src/session/owner.rs:642-658 | Starts only a ready, wanted session whose record is INACTIVE or FINISHED |
| `SessionOwner.ClientNodeSession.RefreshState` | node/src/session/owner.rs:699-714 | Recomputes only the states that are not Running, CycleClaimed, Failed or Disconnected |
| `SessionOwner.ClientNodeSession.DropTransport` | node/src/session/transport.rs:38-44 | Dropping a transport deactivates its record and forgets it |
| `SessionOwner.ClientNodeSession.DisconnectAll` | node/src/session/owner.rs:681-693 | Everything bound, queued or leased is released, in the order of the source |
| `SessionOwner.ClientNodeSession.BindTransport` | node/src/session/owner.rs:515-537 | The whole new state on each of the four ways out |
| `SessionOwner.ClientNodeSession.InstallTransport` | node/src/session/owner.rs:527-537 | A candidate is installed after the old one stopped, or dropped |
| `SessionOwner.ClientNodeSession.OutputCandidate` | node/src/session/owner.rs:555-578 | Unleased memory gives no candidate and no new generation; otherwise a checked candidate or its error |
| `SessionOwner.ClientNodeSession.RebindOutput` | node/src/session/owner.rs:539-553 | A complete set of descriptors is rebound behind a stop |
| `SessionOwner.ClientNodeSession.BindPeer` | node/src/session/owner.rs:580-600 | A pending peer is bound against everything but its own predecessor |
| `SessionOwner.ClientNodeSession.RetryPeers` | node/src/session/owner.rs:610-613 | The loop over a snapshot of nodes agrees with the recursive retry |
| `SessionOwner.ClientNodeSession.RetryPending` | node/src/session/owner.rs:602-619 | Transport, output and peers are retried in this order, stopping at the first error |
| `SessionOwner.ClientNodeSession.RemoveKey` | node/src/session/owner.rs:621-640 | Transport, output and peers that depend on the exact key are dropped, each behind a stop |
| `SessionOwner.ClientNodeSession.SetFormat` | node/src/session/owner.rs:276-289 | Replacement stops and clears the output configuration before rebinding |
| `SessionOwner.ClientNodeSession.UseBuffers` | node/src/session/owner.rs:298-324 | Replacement checks a candidate before anything is given up |
| `SessionOwner.ClientNodeSession.SetPortIo` | node/src/session/owner.rs:332-354 | The IO area is kept only after its candidate was accepted |
| `SessionOwner.ClientNodeSession.SetPeer` | node/src/session/owner.rs:361-372 | The bound of 64 counts both maps, but never refuses a known node |
| `SessionOwner.ClientNodeSession.RemovePeer` | node/src/session/owner.rs:373-377 | A peer leaves both maps |
| `SessionOwner.ClientNodeSession.MemoryAvailable` | node/src/session/owner.rs:378-381 | A lease replaces the one of its id and everything pending is retried |
| `SessionOwner.ClientNodeSession.RemoveMemory` | node/src/session/owner.rs:382-392 | Only a lease of exactly this generation is given up |
| `SessionOwner.ClientNodeSession.SetActive` | node/src/session/owner.rs:397-405 | Activation starts, deactivation stops |
| `SessionOwner.ClientNodeSession.SetNodeCommand` | node/src/session/owner.rs:406-420 | Start, Pause and Suspend, the last forgetting what was negotiated |
| `SessionOwner.ClientNodeSession.Clear` | node/src/session/owner.rs:290-297 | Clearing stops first and always takes output and IO |
| `SessionOwner.ClientNodeSession.ReplaceTransport` | node/src/session/owner.rs:272-275 | The descriptor is queued, then bound |
| `SessionOwner.ClientNodeSession.Dispatch` | node/src/session/owner.rs:271-425 | Each command does what its specification says |
| `SessionOwner.ClientNodeSession.Apply` | node/src/session/owner.rs:258-431 | The invariant is kept, and state and result are those of the specification on every path |
| `SessionOwner.ClientNodeSession.RunCycle` | node/src/session/owner.rs:470-513 | State and result of a claimed cycle, on all outcomes |
| `SessionOwner.ClientNodeSession.Propagate` | node/src/session/owner.rs:490-503 | A finished cycle wakes the peers and fails the session on their first error |
| `SessionOwner.ClientNodeSession.OnWake` | node/src/session/owner.rs:444-513 | The invariant is kept, and state and result are those of the specification on every path |
| `SessionRuntime.RuntimeAlwaysDisconnects` | node/src/runtime/mod.rs:276-345 | Over any turns the worker ends with the session disconnected and nothing bound, never recorded a stale or refused wake, and returns exactly what ended its loop |
| `SessionRuntime.RuntimeCounters` | node/src/runtime/mod.rs:367-381 | Over every run: every eventfd count drained by a recorded wake is a processed cycle, an unclaimed wake or a missed one; callbacks run are the produced cycles, and at most one more when the run ended in an error; in a run without an error the processed cycles, which the callbacks counter counts, are as many as the callbacks if and only if every processed cycle produced |
| `SessionAuthority.WakeRunsIffAsked` | node/src/session/owner.rs:477-498 | A wake reported as processed ran a callback if and only if the IO area said NEED_DATA before it |
| `SessionExamples.SkippedIsCounted` | node/src/runtime/mod.rs:367-381 | A reached session with two processed wakes of which only the first ran a callback: the callbacks counter says two |
| `SessionRuntime.LoopCurrent` | node/src/runtime/mod.rs:289-338 | Over every run of the loop: at the head after any number of turns through which it goes on, a trigger is registered exactly when the session runs, under its current generation, and no stale or refused wake is ever recorded |
| `SessionRuntime.HeadCurrent` | node/src/runtime/mod.rs:289-338 | Each head the loop comes by is current, and the rest of the loop is the loop from that head |
| `SessionRuntime.RegisteredWakeIsProper` | node/src/session/owner.rs:451-469 | Waking a running session under its own generation is neither stale nor refused |
| `SessionRuntime.DisconnectReleases` | node/src/session/owner.rs:681-693 | Disconnect always succeeds and leaves nothing bound |
| `SessionRuntime.Runtime.Registering` | node/src/runtime/mod.rs:347-365 | Registers under the current generation exactly when running |
| `SessionRuntime.Runtime.RecordOutcome` | node/src/runtime/mod.rs:367-381 | Wrapping counters, one kind of outcome each |
| `SessionRuntime.Runtime.Take` | node/src/runtime/mod.rs:290-336 | One select arm agrees with its specification |
| `SessionRuntime.Runtime.Drive` | node/src/runtime/mod.rs:289-338 | The loop agrees with the recursive one over all turns |
| `SessionRuntime.Runtime.RunWorker` | node/src/runtime/mod.rs:276-345 | The worker agrees with its specification, ends disconnected and counts no stale wake |
| `HookEmission.EmissionLock` | spa/src/hook.rs:154-186 | Over every interleaving of any number of threads the depth equals the live guards, all held by the owner, so emissions of two threads never overlap; a free lock with waiters has a woken thread that gets it by looking again |
| `HookEmission.CallbacksConserved` | spa/src/hook.rs:39-51 | Over every interleaving, nesting and unwinding, the callbacks of a registered hook are in the list exactly when no emission runs them, unchanged, and all are back when nobody emits |
| `HookEmission.SnapshotEmission` | spa/src/hook.rs:189-254 | Each emission has visited, in list order, exactly the snapshot hooks registered at their turn and not running in an enclosing emission; none was added after the snapshot, and no two emissions of a stack run the same hook |
| `HookEmission.RemovedForever` | spa/src/hook.rs:146-151 | A removed hook never comes back, not even from a dispatch it was removed during |
| `HookEmission.PerformKeepsLock` | spa/src/hook.rs:58-71 | Every step keeps ownership, depth and the wakeup promise |
| `HookEmission.PerformKeepsTable` | spa/src/hook.rs:113-217 | Every step keeps each callbacks value in exactly one place |
| `HookTable.RemoveKeepsOthers` | spa/src/hook.rs:146-151 | Removal keeps exactly the other hooks |
| `HookTable.HookList.constructor` | spa/src/hook.rs:103-111 | A new list is empty and its lock free |
| `HookTable.HookList.TryBegin` | spa/src/hook.rs:157-180 | One look at the lock: free is taken, own is nested, foreign is refused without change |
| `HookTable.HookList.EndEmission` | spa/src/hook.rs:58-71 | The last guard frees the lock and asks for a wakeup |
| `HookTable.HookList.Append` | spa/src/hook.rs:126-137 | A fresh id at the end, ids stay unique |
| `HookTable.HookList.Prepend` | spa/src/hook.rs:113-124 | A fresh id at the front, ids stay unique |
| `HookTable.HookList.Search` | spa/src/hook.rs:202-208 | Linear search finds the first hook with the id, or there is none |
| `HookTable.HookList.Unregister` | spa/src/hook.rs:146-151 | Exactly the hook with the id leaves, with the callbacks it holds |
| `HookTable.HookList.DispatchIds` | spa/src/hook.rs:189-199 | The ids in list order |
| `HookTable.HookList.Dispatch` | spa/src/hook.rs:202-217 | Callbacks leave the list, or there is nothing to dispatch |
| `HookTable.HookList.Restore` | spa/src/hook.rs:39-51 | Callbacks return to their hook if it is still registered |
| `EventDispatcher.EveryRun` | pipewire/src/proxy/client_node.rs:106-204 | Over every same-thread run of dispatch, replace, clear and panic, however re-entrant: each event is delivered, discarded or queued, once; deliveries are in dispatch order and went to the handler installed when popped; events are discarded only with no handler; afterwards no loop runs and the handler is in its slot |
| `EventDispatcher.AtMostOnce` | pipewire/src/proxy/client_node.rs:117-178 | Deliveries are strictly increasing in dispatch order, so none happens twice |
| `EventDispatcher.OneHandlerAtATime` | pipewire/src/proxy/client_node.rs:118-132 | Whatever a running handler calls, a further dispatch starts no second loop |
| `EventDispatcher.LoopRests` | pipewire/src/proxy/client_node.rs:140-177 | The loop ends with the installed handler back and an empty queue, unless it unwound |
| `EventDispatcher.ReenterLooping` | pipewire/src/proxy/client_node.rs:106-126 | Re-entrant calls only queue events and change the installed handler |
| `EventDispatcher.EventDispatch.constructor` | pipewire/src/proxy/client_node.rs:34-40 | A new dispatcher is at rest |
| `EventDispatcher.EventDispatch.SetEventHandler` | pipewire/src/proxy/client_node.rs:106-116 | Installs a handler under a new generation |
| `EventDispatcher.EventDispatch.TryEnter` | pipewire/src/proxy/client_node.rs:117-132 | Queues, discards or takes the handler out |
| `EventDispatcher.EventDispatch.Invoke` | pipewire/src/proxy/client_node.rs:176 | The calls of a running handler, in order |
| `EventDispatcher.EventDispatch.Drop` | pipewire/src/proxy/client_node.rs:186-204 | The handler goes back unless it was replaced, and no loop is marked as running |
| `EventDispatcher.EventDispatch.Offer` | pipewire/src/proxy/client_node.rs:117-178 | One dispatch, to its return or unwinding, agrees with its specification and leaves the dispatcher at rest |
| `PodCodec.RoundTrip` | spa/src/pod/parser.rs:290-442 | Parsing the encoding of any well-formed tree, with anything behind it, gives the tree back and takes exactly its bytes |
| `PodCodec.EncodingIsPrefixFree` | spa/src/pod/builder.rs:131-225 | No two well-formed trees share an encoding and none is a prefix of another |
| `PodCodec.Encode` | spa/src/pod/mod.rs:206-230 | Encodings are whole multiples of eight bytes |
| `PodCodec.Wrap` | spa/src/pod/mod.rs:73-94 | A wrapped POD lies inside its slice and its size is the padded body plus header |
| `PodCodec.ReadHeader` | spa/src/pod/parser.rs:290-405 | Accepts exactly what wrap accepts; a struct or object that runs over the end is Invalid, any other type that does is NoSpace |
| `PodCodec.Parse` | spa/src/pod/parser.rs:290-442 | Total on every byte sequence; what it accepts lies inside the slice |
| `PodCodec.ParseProp` | spa/src/pod/parser.rs:536-563 | A property takes at least sixteen bytes and stays inside its slice |
| `PodCodec.Pad` | spa/src/pod/mod.rs:44-50 | The padding is less than eight and completes a multiple of eight |
| `PodCodec.PropRoundTrip` | spa/src/pod/mod.rs:1008-1050 | A property is read back with key, flags and value |
| `PodRaw.Sees` | spa/src/pod/mod.rs:188-195 | An encoded tree with raw PODs copied into it parses, whatever follows, to the tree with each raw POD replaced by what its own bytes parse to |
| `PodRaw.ParseLocal` | spa/src/pod/parser.rs:290-442 | What parses stays the same whatever bytes follow |
| `PodRaw.WellFormedIsSeen` | spa/src/pod/parser.rs:290-442 | A tree without raw PODs is found exactly as it was written |
| `PodBuilder.PlacedIffRoom` | spa/src/pod/builder.rs:131-225 | A push succeeds if and only if the encoding fits the room left, and ends exactly behind it |
| `PodBuilder.FirstMisfitDecides` | spa/src/pod/builder.rs:139-147 | For every tree, position and buffer: the first piece that does not fit decides. A leaf or property is refused with NoSpace; the header of a struct or object panics, unless the whole buffer is shorter than that header or than that of an object the container opens into |
| `PodGrowth.EncodeGrowing` | protocol/src/wire/client_node/mod.rs:874-901 | For any call tree the doubling loop returns the encoding if and only if it fits 16 MiB and no capacity tried ends at the header of a container; if one does the loop unwinds, and otherwise it reports the limit |
| `PodGrowth.TrappedAtLastStruct` | protocol/src/wire/client_node/mod.rs:874-901 | For a struct of leaves and one last flat struct that condition is arithmetic: the last struct starts exactly where a capacity ends |
| `ClientNodeWire.TrappedIffUnencodable` | protocol/src/wire/client_node/mod.rs:428-466 | The call tree of an Update or PortUpdate traps its encoder if and only if its info struct starts at byte 1024 * 2^k for some k up to 14; SetActive and methods without info never do |
| `ClientNodeWire.EncodeMethod` | protocol/src/wire/client_node/mod.rs:423-466 | A method is encoded if and only if it is within the limits, its info struct does not start at such a byte and it fits 16 MiB; within the limits it unwinds if and only if the struct starts there; the rest is rejected |
| `ClientNodeWire.FrontSize` | protocol/src/wire/client_node/mod.rs:431-457 | Where the info struct starts, from the sizes of the raw parameters alone |
| `ClientNodeWire.InfoIsFlat` | protocol/src/wire/client_node/mod.rs:928-983 | The info of a node or port is a struct of leaves |
| `ClientNodeWire.UnencodableUpdate` | protocol/src/wire/client_node/mod.rs:431-441 | Every Update with one parameter of 984 bytes and any node info within the limits unwinds |
| `ClientNodeWire.UnencodableExample` | protocol/src/wire/client_node/mod.rs:431-441 | An Update of 1128 bytes within all limits whose encoding unwinds |
| `ClientNodeWire.MethodIsLegible` | protocol/src/wire/client_node/mod.rs:428-466 | Every method below 2^32 bytes whose container parameters parse by themselves is one the peer can read as a whole |
| `PodGrowth.AtCapacity` | spa/src/pod/builder.rs:139-147 | At each capacity a push is placed, refused or panics, according to room and to what does not fit first |
| `PodBuilder.FullBufferExample` | spa/src/pod/builder.rs:200-207 | On a full buffer an empty struct panics where a leaf is refused |
| `PodBuilder.ValueRefusedIffNoRoom` | macros/src/derive_pod_struct.rs:50-60 | A value that is encoded by itself is refused if and only if it does not fit, and never panics |
| `PodBuilder.BuildAndParse` | spa/src/pod/builder.rs:28-45 | Building in a buffer and popping succeeds exactly with room, and then returns the same tree having taken every byte |
| `PodBuilder.Builder.constructor` | spa/src/pod/builder.rs:20-26 | A new builder is at the start without error |
| `PodBuilder.Builder.Write` | spa/src/pod/builder.rs:155-156 | Exactly the given bytes change |
| `PodBuilder.Builder.PushLeaf` | spa/src/pod/mod.rs:212-230 | Size, type, body and zero padding are written, or nothing and NoSpace |
| `PodBuilder.Builder.WriteLeaf` | spa/src/pod/mod.rs:220-227 | The four pieces of a leaf land next to each other |
| `PodBuilder.Builder.PushProperty` | spa/src/pod/mod.rs:1015-1028 | Key, flags and value are written, earlier bytes keep their values |
| `PodBuilder.Builder.Push` | spa/src/pod/builder.rs:36-225 | Any tree: its encoding, an error or a panic, exactly as predicted, and bytes before its start never change |
| `PodBuilder.Builder.PushStruct` | spa/src/pod/builder.rs:131-159 | A struct is its back-patched header and its contents |
| `PodBuilder.Builder.PushObject` | spa/src/pod/builder.rs:191-225 | An object is its back-patched header and its properties |
| `PodBuilder.Builder.FillIn` | spa/src/pod/builder.rs:154-156 | Back-patching puts the header in front of contents already written and touches nothing else |
| `PodBuilder.Builder.PushAll` | spa/src/pod/builder.rs:241-243 | Pushes in sequence append, and an error is sticky |
| `PodBuilder.Builder.PushProps` | spa/src/pod/builder.rs:343-350 | Properties in sequence append, and an error is sticky |
| `PodBuilder.Builder.Build` | spa/src/pod/builder.rs:28-34 | The bytes up to the position, or the sticky error |
| `PodParser.Parser.constructor` | spa/src/pod/parser.rs:15-18 | A parser starts at the beginning of its slice |
| `PodParser.Parser.PopPod` | spa/src/pod/parser.rs:290-317 | Returns what the specification parses and moves exactly over it |
| `PodParser.Parser.PopObject` | spa/src/pod/parser.rs:385-442 | An object with its own header skipped before its properties |
| `PodParser.Parser.PopFields` | spa/src/pod/parser.rs:310-311 | The loop to the end of a struct agrees with the recursive parse |
| `PodParser.Parser.PopProperty` | spa/src/pod/parser.rs:536-563 | One property, with its value wrapped before it is parsed |
| `PodParser.Parser.PopProps` | node/src/session/config.rs:117-130 | Pops and parses properties to the end of the data and returns the first error, as a loop over pop_property with an error return does |
| `PodParser.Parser.Iterate` | spa/src/pod/parser.rs:566-575 | The iterator: the properties up to the end of the data or the first error |
| `PodParser.IteratorTruncates` | spa/src/pod/parser.rs:566-575 | The iterator drops properties silently if and only if popping them one by one would report an error, and then it yielded exactly those in front of the bytes that do not pop |
| `PodParser.SilentlyEmpty` | spa/src/pod/parser.rs:566-575 | A property of 24 bytes with an unknown flag, of which the iterator makes nothing |
| `PodParser.ParsedIsPopped` | spa/src/pod/parser.rs:536-563 | Parsing a property is popping it and then parsing its value, with the same extent |
| `OutboundConnection.OutboundBookkeeping` | pipewire/src/protocol/connection.rs:98-169 | Over every run since the last disconnect accepted frames carry consecutive numbers modulo 2^30 and announced generations strictly increase |
| `OutboundConnection.PushAllOrNothing` | pipewire/src/protocol/connection.rs:98-169 | A push that is refused or unwinds changes neither number, generation nor queue; it unwinds if and only if it carries a ClientNode method its encoder cannot encode; an accepted one appends exactly its frame, moves the number by one and leaves no generation to announce |
| `OutboundConnection.EncodePayload` | pipewire/src/protocol/connection.rs:121-147 | The growth loop ends. It unwinds if and only if the body is a ClientNode method within the limits that cannot be encoded; it reports an invalid body if and only if the method is over a limit or over 16 MiB by itself; otherwise there is a payload if and only if body plus footer fit 16777216 bytes |
| `OutboundConnection.EncodeBody` | pipewire/src/protocol/marshal/client_node.rs:26-38 | One call of the message encoder: written if and only if the body is valid, encodable and fits, and unwinding or invalid exactly for such methods |
| `OutboundConnection.UnwindingPushExample` | pipewire/src/protocol/marshal/client_node.rs:30-38 | A push that unwinds on every connection although body and footer fit the first buffer |
| `OutboundConnection.LimitsDiffer` | protocol/src/native/frame/send.rs:29-34 | A push fails the frame limit after passing the growth limit if and only if its body can be encoded and body plus footer take exactly 2^24 bytes |
| `OutboundConnection.LargestMessage` | protocol/src/native/frame/send.rs:29-34 | A message of exactly that size: the growth loop encodes it, the push is denied, and the connection stays as it was |
| `OutboundConnection.PayloadParses` | pipewire/src/protocol/marshal/message.rs:46-84 | The peer reads the body, with every raw parameter opened, then the footer, and nothing is left over |
| `OutboundConnection.FooterSize` | pipewire/src/protocol/marshal/message.rs:235-253 | A generation footer always takes 48 bytes |
| `OutboundConnection.RunBooked` | pipewire/src/protocol/connection.rs:98-169 | Every step keeps numbering and generations in order |
| `OutboundConnection.Connection.constructor` | pipewire/src/protocol/connection.rs:221-231 | A new connection starts at number zero with nothing announced |
| `OutboundConnection.Connection.Disconnect` | pipewire/src/protocol/connection.rs:69-80 | Disconnecting clears every counter and queue |
| `OutboundConnection.Connection.UpdateGeneration` | pipewire/src/protocol/connection.rs:206-217 | The last generation of a footer wins |
| `OutboundConnection.Connection.PushWithFds` | pipewire/src/protocol/connection.rs:98-169 | Counters move only after the frame was queued, and follow the specification |
| `OutboundConnection.Connection.Enqueue` | protocol/src/native/frame/send.rs:98-139 | The limits of the sender, and no change on refusal |

## Left out

- Memory is modelled in words at their start addresses: stores that overlap a word only partly, the two halves of a
  64-bit time, and torn or reordered accesses are not; every access is sequentially consistent.
- mmap, memfd sealing, descriptor passing and the kernel side of eventfd: represented by leases, intervals, counters
  and a set of system calls that fail.
- Conversion of wire events to commands, validation of descriptors, and the memory pool behind a lease.
- Tokio scheduling, cancellation of the worker, the command queue, and a panic of the clock before a claim: only the
  sequential loop is modelled, over any finite sequence of turns that a stop follows.
- Poisoned mutexes: the hook list and the dispatcher ignore poisoning, and so does the model.
- Hook ids are unbounded; the 32-bit counter's overflow after 2^32 registrations is not modelled.
- Dispatcher generations are unbounded; 2^64 replacements inside one handler call are not modelled.
- Two threads dispatching events at once: the dispatcher is modelled for calls of one thread, re-entrant ones included.
- `FnMut` arguments and results of hooks and handlers: callbacks are identities; what they do to the list or the
  dispatcher is any sequence of calls.
- SessionPropagation.TriggerAllIsPointwise: stated for peers that each have an eventfd of their own, which is the server's
  choice; TriggerAllRecords and TriggerAllCounts need no such assumption.
- SessionPropagation.TriggerAllReportsLowest: the same; TriggerAllReportsFirst needs no such assumption.
- SessionPropagation.TriggerAllTrace: the same; TriggerAllInTurn needs no such assumption.
- SessionQuiescence.IdleMeansInactive: assumes a server that keeps version 1, never moves a status out of INACTIVE, hands
  transports over INACTIVE, and never places a candidate record so that the status word of it or of the installed one is
  the version word of the other.
- SessionQuiescence.ApplyCalm: the same.
- The server acts between calls into the session and while a callback runs that was given a buffer, not between the
  single stores of one command or between claim and callback.
- POD arrays and choices (whose padding bytes are not written), typed primitive bodies, and `ObjectParser` with typed
  keys: leaves are a type and a body, object parsing is the untyped form.
- Native byte order is taken as little-endian.
- Bytes behind the body of a raw parameter POD: its padding is taken to be zero.
- Encoding errors of marshalled bodies other than NoSpace, the need_flush hook, and the socket side of flushing.
- The receiving side of the connection, proxies, the registry, plugins, configuration and logging.
