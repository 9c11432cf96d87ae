# Verified model of the spice-agent daemon and kernel

This project models the lock-protected state machines of spice-agent in Dafny and proves what they keep in
every run. Each critical section under a mutex is one atomic step, contexts are flags that only ever go up,
channels are sequences or one-shot counters, and every theorem about runs quantifies over all step sequences.

`dafny verify dfyconfig.toml` checks the whole project.

| files | what they model |
|---|---|
| `Basics` | definitions shared by the others |
| `EventLog`, `EventDelivery`, `EventStore`, `EventPages` | the bounded event log: retention, terminal reserve, paging, live tails, and the client that accepts its pages |
| `PendingFeed`, `PendingPartition`, `PendingHub`, `PendingSafety`, `PendingRouting`, `PendingTheorems`, `PendingIsolation`, `PendingGuarantees`, `PendingHistory`, `PendingStore`, `PendingBroker` | the pending-interaction hub: discovery streams, nested counters and reservations, run leases, fencing, shutdown |
| `SessionGate`, `SessionSafety`, `SessionGuarantees`, `SessionTable` | the session gate: commit lock, stream leases, reconnect epochs, wake-ups, drain |
| `HostErrors`, `HostAuthority`, `HostSlots`, `HostAdmission`, `HostTable` | the run host: error classification, ordering of durable authority and kernel execution, slots, terminal cache and why no run enters it twice |
| `Idempotency` | the ledger that runs each client operation once |
| `RunIdentity` | the engine's identity ledger with generation tokens, and its drained channel |
| `RunLifecycle`, `RunGuarantees`, `RunObject` | one kernel run: suspension at turn boundaries, local resume, interactions, cancellation, finalization |
| `ToolHistory`, `HistoryCheck`, `ToolRounds`, `Snapshots` | conversation histories, tool rounds, snapshots and portable resume |

Most components come in three layers. A pure state machine says what every step does. Invariants are proved for
each step and so for every run. A class then has the source's fields, and a method for each stretch of code that holds
the lock, with the source's branches and loops. Each method is proved to take exactly the machine's step, so the
invariants and theorems hold of the class too. Steps that only move a value through a channel have no method.

## Results that the code does not meet without a condition

Each of these has a concrete or general witness and an exact condition.

- A consumer that is cancelled just after the log closed stops without an error and without its queue
  (`EventDelivery.CancelledAfterClose`). `EventDelivery.GapFreeDelivery` says exactly what a clean end misses.
- The comments on Suspend do not mention it, but a Suspend call that ends by its own context can release a later
  caller's suspension (`RunGuarantees.StaleCancelReleases`). That happens exactly when the caller was answered
  before and has not returned yet (`RunGuarantees.CancelSparesOthers`).
- An initial user message may carry tool calls or results. Then no snapshot of the run ever passes
  (`ToolRounds.ToolInputIsNeverExportable`), and `ToolRounds.BoundaryHistories` is an equivalence.
- The history left by a failed tool round is exportable exactly when the round failed before its assistant message
  was recorded (`ToolRounds.FailedTurnHistory`).
- The authority's documentation says that uncertainty must never be retried. An error of its store that carries
  uncertainty is retried by the host if and only if it also carries a busy record and ends no context, because the busy
  record is looked for first (`HostErrors.UncertaintyIsRetriedExactly`, with the witness
  `HostErrors.UncertaintyCanBeRetried`). Today's store (daemon/internal/runauthority) returns its sentinels bare and
  never joins two of them, so it does not produce that witness, and its uncertainty is never retried
  (`HostErrors.LoneUncertaintyIsNotRetried`).

## Model

| member | source | states |
|---|---|---|
| EventLog.AppendRetains | event/log.go:186-230 | every accepted append leaves a contiguous suffix of everything appended, ending at the last sequence, within both bounds, with exact byte counts |
| EventLog.NewLogRetains | event/log.go:169-183 | a new log, also one continued after an imported sequence, retains the empty history |
| EventLog.Conservation | event/log.go:186-230 | retained plus evicted equals appended, in events and in bytes |
| EventLog.EvictsFewest | event/log.go:202-219 | keeping any one more of the evicted entries would break a bound of that append |
| EventLog.OrdinaryAppendSparesReserve | event/log.go:202-219 | after a non-terminal append the whole terminal reserve is free |
| EventLog.TerminalReserve | event/log.go:202-223 | consecutive terminal events that fit the free reserve are all appended and evict nothing |
| EventLog.ReserveIsKept | event/log.go:202-223 | after any non-terminal append the next terminal events evict nothing as long as they fit the reserve |
| EventLog.GreedyIsLongest | event/log.go:300-348 | a page takes the longest run of entries that both bounds allow |
| EventLog.ReplayCorrect | event/log.go:300-348 | replay from an accepted cursor is the longest correct page, or is refused because the next event alone exceeds the byte bound; the no-progress error is unreachable |
| EventLog.RecoveryAccepted | event/log.go:252-260 | a cursor is rejected exactly when out of range, and the recovery cursor named then is accepted |
| EventLog.PagesCompose | event/log.go:300-348 | following page cursors terminates and concatenates to the history after the cursor, up to the first event that no page can carry |
| EventLog.PagingReadsAll | event/log.go:266-348 | paging a retained log from any accepted cursor reads exactly the retained events after it, all of them when each fits the byte bound |
| EventDelivery.ApplyKeeps | event/log.go:511-620 | every step of append, subscribe, replay with tail, delivery, cancellation and close keeps the log and every tail sound, with exact bounded queue counts |
| EventDelivery.GapFreeDelivery | event/log.go:357-620 | in every run each consumer holds exactly the events after its cursor, in order without a gap; a clean end without cancellation means it received everything; exhaustion names its last delivered cursor |
| EventDelivery.CancelledAfterClose | event/log.go:541-620 | a consumer cancelled after close ends clean with its queue undelivered |
| EventStore.LogStore.New | event/log.go:164-183 | construction succeeds exactly for a token run ID, valid limits and a resumable last sequence, and yields the empty log |
| EventStore.LogStore.Evict | event/log.go:214-219 | the eviction loop drops exactly the fewest oldest entries and moves their bytes to the evicted count |
| EventStore.LogStore.Append | event/log.go:186-230 | outcome and new state are those of the machine, refusals change nothing |
| EventStore.LogStore.OfferToAll | event/log.go:224-228 | the loop offers the event to every subscriber once |
| EventStore.LogStore.Collect | event/log.go:300-348 | the single pass over the entries picks the longest allowed run after the cursor |
| EventStore.LogStore.ReplayPage | event/log.go:266-348 | the computed page equals the specified one |
| EventStore.LogStore.Exhaustion | event/log.go:408-433 | the refusal names a bound that the replay really exceeds; the missing-entry error is unreachable |
| EventStore.LogStore.ReplayAndTail | event/log.go:266-298 | a request is accepted exactly within its bounds, gets the specified page, and tails exactly when it asked to, the page is the last one and the log is open |
| EventStore.LogStore.Subscribe | event/log.go:376-406 | subscribing takes the machine's step; a refused one changes no tail |
| EventStore.LogStore.Close | event/log.go:436-450 | close finishes every tail once |
| EventPages.ReceivePage | client/grpcclient/streams.go:238-269 | the client accepts a frame list exactly when it is a contiguous bounded run of events from the cursor closed by a control at its last one |
| EventPages.PageReceiver.AcceptEvent | client/grpcclient/streams.go:280-302 | an event is accepted exactly when it extends such a run within the count and byte limits |
| EventPages.PageReceiver.AcceptControl | client/grpcclient/streams.go:304-333 | a control is accepted exactly when it is valid, matches the request and stands at the last event |
| EventPages.ReceiveTail | client/grpcclient/streams.go:335-388 | the tail loop hands over exactly the longest run of frames that continue the page, and tells a server failure from a protocol error |
| EventPages.PageControlValid | client/stream.go:57-94 | the bounds of every page of the log, empty windows included, form a valid control |
| EventPages.ClientAcceptsPage | daemon/grpcserver/stream_events.go:134-183 | the events of every log page followed by its control pass the client |
| EventPages.ClientAcceptsTail | daemon/grpcserver/stream_events.go:185-229 | whatever a subscription delivers past a page passes that loop in full |
| PendingFeed.Discovery | daemon/pending.go:840-971 | a subscriber's n-th delta has revision snapshot + n, and folding its deltas over its snapshot gives what the partition's stream amounts to at that revision |
| PendingFeed.CaughtUp | daemon/pending.go:923-971 | a live subscriber that acknowledged everything holds the current pending set |
| PendingFeed.OfferKeeps | daemon/pending.go:870-921 | a published delta, queued or refused, keeps a watcher in step with the longer stream |
| PendingFeed.MoveKeeps | daemon/pending.go:923-971 | every move of the delivery loop keeps the watcher in step |
| PendingFeed.QueueHasRoom | daemon/pending.go:905-921 | the delivery channel never holds more than the watcher's own count |
| PendingPartition.PublishedKeeps | daemon/pending.go:855-868 | publishing an opening or a closing keeps the stream equal to the pending set |
| PendingTheorems.ApplyKeeps | daemon/pending.go:520-1139 | every step of the hub keeps exact nested counters, routing of calls and leases, and the shutdown state |
| PendingTheorems.ExecKeeps | daemon/pending.go:520-1139 | every run keeps them |
| PendingTheorems.CloseKeeps | daemon/pending.go:1062-1139 | shutdown fails every call, releases every lease and ends every observer without breaking a counter |
| PendingGuarantees.DiscoveryAlways | daemon/pending.go:764-971 | in every run every subscriber follows its partition without a gap, and revisions stay within 64 bits |
| PendingHistory.StreamsGrow | daemon/pending.go:855-868 | over every run each partition's stream at an earlier point is a prefix of the later one |
| PendingHistory.DiscoveryIsHistory | daemon/pending.go:764-971 | what a subscriber rebuilds is the pending set the hub held at that revision, at any earlier point of the run that had it |
| PendingHistory.RevisionWasHeld | daemon/pending.go:714-724 | every revision up to the current one was held at some point of the run: between two steps, or, only if the hub was closed, inside the Close after some of its calls failed |
| PendingHistory.CloseHeld | daemon/pending.go:1107-1139 | a revision that Close passes was held before it, or after a number of the calls it fails one by one |
| PendingHistory.DiscoveryWasReal | daemon/pending.go:764-971 | so every subscriber's view, at any of its deltas and also after shutdown, is the pending set the hub held at such a point |
| PendingIsolation.RefusedByItselfOnly | daemon/pending.go:870-921 | all checks of the enqueue together refuse exactly what the watcher's own queue refuses |
| PendingGuarantees.ObserverIsolation | daemon/pending.go:870-921 | the aggregate and per-client refusals and the full-channel branch are unreachable for limits that pass validation |
| PendingGuarantees.ReservationNeverRefuses | daemon/pending.go:794-823 | a new observer is admitted exactly when the observer counts allow; reservations are never what refuses it |
| PendingGuarantees.BoundsAlways | daemon/pending.go:652-656 | hub counters are the sums over partitions and stay within every configured bound |
| PendingGuarantees.CallsAlways | daemon/pending.go:583-724 | a call's done channel closes at most once, its requester returns the recorded result, and an unfinished call can always be answered by its own client |
| PendingGuarantees.AnswersComeFromTheOwner | daemon/pending.go:660-698 | in every run an answered call was answered by a response of its own client to this very call, with that response |
| PendingGuarantees.BindingsAlways | daemon/pending.go:726-738 | a lease counts its pending calls exactly, and its released channel closes once, just when it stopped accepting and nothing is pending |
| PendingGuarantees.ResultsAreFinal | daemon/pending.go:700-724 | once a call finished, no later step of any run changes its result |
| PendingGuarantees.ClosedAlways | daemon/pending.go:1062-1139 | after close, in every continuation, no lease, no pending call and no live observer |
| PendingBroker.Broker.constructor | daemon/pending.go:405-414 | a new hub is the machine's initial state |
| PendingBroker.Broker.Bind | daemon/pending.go:520-560 | outcome and state of binding a run |
| PendingBroker.Broker.CheckRequest | daemon/pending.go:600-630 | the checks of a request in order |
| PendingBroker.Broker.CheckResponse | daemon/pending.go:673-692 | the checks of a response in order; looking the entry up suffices |
| PendingBroker.Broker.Ask | daemon/pending.go:583-650 | outcome and state of a request up to its wait |
| PendingBroker.Broker.Answer | daemon/pending.go:660-698 | outcome and state of a response |
| PendingBroker.Broker.Complete | daemon/pending.go:700-712 | the context's error is recorded unless the call already finished, and the recorded result is reported |
| PendingBroker.Broker.Finish | daemon/pending.go:714-724 | finishing a call unlists it, records the result and publishes the closing |
| PendingBroker.Broker.RemoveBinding | daemon/pending.go:726-738 | a drained binding is removed and its partition's lease count given back |
| PendingBroker.Broker.ReleaseRun | daemon/pending.go:337-347 | release stops admission and removes an idle binding |
| PendingBroker.Broker.Publish | daemon/pending.go:855-868 | the publishing loop offers the delta to every watcher and ends those that refuse it |
| PendingBroker.Broker.Enqueue | daemon/pending.go:870-921 | every refusal branch in order, or the queued delta with both charges |
| PendingBroker.Broker.Delivered | daemon/pending.go:956-971 | the delivered hook returns the charge and moves the cursor |
| PendingBroker.Broker.FinishWatcher | daemon/pending.go:979-1004 | ending a watcher returns its charges and reservation at once |
| PendingBroker.Broker.Watch | daemon/pending.go:764-838 | outcome and state of a subscription with its snapshot |
| PendingBroker.Broker.Fence | daemon/pending.go:1015-1049 | fencing ends every observer of the client and no other |
| PendingBroker.Broker.ListCalls | daemon/pending.go:1062-1139 | the shutdown lists cover every partition and every pending call |
| PendingBroker.Broker.CloseHub | daemon/pending.go:1062-1139 | the loops of shutdown together take the machine's close step; a second close changes nothing |
| SessionSafety.ApplyKeeps | daemon/session_gate.go:29-321 | every step of the gate keeps its lists, leases, grant order, epochs and blocked claims sound |
| SessionSafety.ExecKeeps | daemon/session_gate.go:29-321 | every run keeps them |
| SessionGuarantees.NoLostWakeup | daemon/session.go:244-250 | a claimant blocked on the current generation would block again if it looked now |
| SessionGuarantees.SomeoneCanRun | daemon/session_gate.go:79-105 | when all leases are released and someone waits, some claimant is enabled |
| SessionGuarantees.GateAlways | daemon/session_gate.go:79-223 | commit leases go in arrival order, leases belong to the current epoch, waiters never exceed 64, a fencing reconnect has stopped every stream |
| SessionGuarantees.OneReconnectPerEpoch | daemon/session_reconnect.go:101-156 | at most one reconnect enters each epoch, and it claimed the one before |
| SessionGuarantees.StepFenced | daemon/session_reconnect.go:79-156 | an epoch ends only once its leases are gone, and none is granted while a reconnect is registered |
| SessionGuarantees.DrainAlways | daemon/session.go:252-266 | the drained channel is closed exactly when the store is closed and no gate has a holder or waiter |
| SessionGuarantees.ClosedOnlyEmpties | daemon/session.go:167-199 | after close no step adds a holder or waiter |
| SessionGuarantees.DrainIsFinal | daemon/session.go:252-266 | a reported drain is final in every continuation and closes the channel once |
| SessionTable.Delete | daemon/session_gate.go:295-321 | the search loop removes the waiter and nothing else |
| SessionTable.Sessions.Register | daemon/session.go:80-131 | registering a fresh session within the maximum |
| SessionTable.Sessions.Acquire | daemon/session_gate.go:29-223 | a newcomer gets its lease exactly if it was free, waits only as the last of its list within the bound, and a refusal changes nothing |
| SessionTable.Sessions.TryMutation | daemon/session_gate.go:79-105 | one attempt at the commit lease, first or queued |
| SessionTable.Sessions.TryStream | daemon/session_gate.go:193-218 | one attempt at a stream lease, first or queued |
| SessionTable.Sessions.RegisterReconnect | daemon/session_reconnect.go:79-99 | a reconnect intent is registered within the bounds and signals |
| SessionTable.Sessions.ReconnectStep | daemon/session_reconnect.go:101-156 | wait for the commit, stop the streams once, wait for them, advance |
| SessionTable.Sessions.Turn | daemon/session_gate.go:47-77 | a later turn: refused and removed from its list, or one more attempt |
| SessionTable.Sessions.CloseLease | daemon/session_gate.go:124-140 | closing a lease releases it once and signals |
| SessionTable.Sessions.Remove | daemon/session_reconnect.go:158-170 | leaving a list signals exactly when something was removed |
| SessionTable.Sessions.Drain | daemon/session.go:252-266 | the loop over sessions closes the drained channel when all are idle |
| SessionTable.Sessions.CloseAll | daemon/session.go:167-199 | close signals every session once |
| HostAuthority.AuthorityBeforeExecution | daemon/run_host_mutations.go:187-239 | in every run of start, import, suspend, resume and cancel, with any authority error joined or not, released and uncancelled execution has an active record, and an operation classified as retryable left the record as it was and exposed no new execution |
| HostAuthority.TombstoneStays | daemon/run_authority.go:14-28 | no step of any operation moves a terminal record |
| HostAuthority.NeverReadmitted | daemon/run_host_mutations.go:394-525 | over whole runs a terminal run is never admitted again |
| HostAuthority.RetriedReplyDidNotMove | daemon/run_host_mutations.go:379-392 | an authority reply that is retried did not move the record |
| HostAuthority.HonestStore | daemon/run_authority.go:344-362 | the assumed contract in terms of store errors: a record moves only under an error reported as uncertain, or one that joins an ended context with something else |
| HostErrors.IsIsolated | daemon/run_host_state.go:569-586 | the loop over the error chain finds exactly the isolated context terminations |
| HostErrors.PublicIsPublic | daemon/run_host_state.go:500-564 | every error maps to one of the public faults with sound facts |
| HostErrors.FailureRoundTrip | daemon/run_host_outcome.go:47-155 | a public failure encoded in the ledger decodes to the same failure, facts included |
| HostErrors.AbandonRoundTrip | daemon/run_host_outcome.go:97-106 | the cause of an abandoned operation is given back unchanged and is never taken for a committed outcome |
| HostErrors.UncertaintyIsNotRetried | daemon/run_host_mutations.go:379-392 | a reported failure whose single cause is uncertainty is committed as uncertain |
| HostErrors.UncertaintyIsRetriedExactly | daemon/run_authority.go:344-362 | a store error that carries uncertainty is retried if and only if it also carries a busy record and ends no context |
| HostErrors.UncertaintyCanBeRetried | daemon/run_authority.go:351-356 | such an error |
| HostErrors.LoneUncertaintyIsNotRetried | daemon/run_authority.go:344-362 | a store error whose single cause is uncertainty, the only kind today's store returns, is never retried |
| HostErrors.PublicAuthorityIsPlain | daemon/run_authority.go:344-362 | the host sees one public sentinel, or an error that ends a context; the public uncertainty never comes among other causes |
| HostSlots.SlotsAlways | daemon/run_host_state.go:345-456 | slots in use are the active runs plus unreleased reservations, never above the limit, and no run is both reserved and owned |
| HostSlots.EvictFewest | daemon/run_host_lifecycle.go:156-167 | eviction drops the fewest oldest runs that bring the cache within both bounds |
| HostSlots.EvictKeeps | daemon/run_host_lifecycle.go:156-167 | eviction keeps the count exact, meets both bounds and never drops the newest run |
| HostSlots.FinishKeeps | daemon/run_host_lifecycle.go:142-152 | finishing a run that is not cached keeps the count exact and both bounds, with that run in the cache |
| HostAdmission.ApplyKeeps | daemon/run_host_lifecycle.go:78-154 | every step of host, engine and authority keeps cached runs barred by a terminal record or by an identity that was not retired |
| HostAdmission.PublishIsFresh | daemon/run_host_mutations.go:187-239 | a run that the authority made active and the kernel activated is not cached |
| HostAdmission.CachedIsBarred | daemon/run_host_mutations.go:187-239 | in every run of host, engine and authority no cached run is published again |
| HostAdmission.FinishActive | daemon/run_host_lifecycle.go:142-146 | a published generation that was not finished is running and its run is active, and finishing one takes no other generation's run from the active table |
| HostAdmission.CacheAlways | daemon/run_host_lifecycle.go:121-167 | in every run terminal bytes are the sum over cached runs, both bounds hold, no executing run is cached, and every finish leaves its run in the cache |
| HostTable.RunTable.ReserveSlot | daemon/run_host_state.go:345-357 | a slot is given exactly while the host is open and below its limit |
| HostTable.RunTable.ClaimRun | daemon/run_host_state.go:372-386 | a run identity is claimed exactly while the host is open and it is neither owned nor reserved |
| HostTable.RunTable.ReleaseSlot | daemon/run_host_state.go:401-420 | a reservation gives its slot and run back once |
| HostTable.RunTable.PublishSlot | daemon/run_host_state.go:436-456 | a bound reservation becomes an active owned run once authority and kernel agreed |
| HostTable.DrainIsEvict | daemon/run_host_lifecycle.go:156-167 | dropping the oldest entry while a bound is exceeded never finds the list empty and ends with exactly the specified entries |
| HostTable.FinishIsReady | daemon/run_host_lifecycle.go:142-152 | in every reachable state the run of an ended generation is active, and caching it can be brought within the bounds with the run kept |
| HostTable.RunTable.EvictTerminals | daemon/run_host_lifecycle.go:156-167 | the eviction loop drops exactly the specified oldest entries |
| HostTable.RunTable.FinishRun | daemon/run_host_lifecycle.go:121-154 | an ended run moves from the active table to the cache, with its bytes exactly if its snapshot was issued, and stays in it |
| Idempotency.EndsAreExplained | daemon/idempotency.go:184-201 | in every run the end of an entry is the return of the one caller that executed it: abandoned only by an exact abandonment without a result, committed as returned only for a valid outcome without error, otherwise as uncertain |
| Idempotency.OneExecutor | daemon/idempotency.go:136-204 | in every run at most one executor is in flight for an operation |
| Idempotency.DuplicatesAgree | daemon/idempotency.go:206-235 | everyone who gets a result for an operation gets the same one, for the same kind and digest |
| Idempotency.CommittedForever | daemon/idempotency.go:136-251 | a committed entry is never replaced or removed by any continuation |
| Idempotency.AbandonRemovesItsOwn | daemon/idempotency.go:237-251 | abandoning removes exactly the owner's entry |
| Idempotency.CapacityAlways | daemon/idempotency.go:114-126 | per-client counts equal the entries held and the ledger never exceeds 2^20 operations |
| IdempotencyTable.Operations.TakeTurn | daemon/idempotency.go:136-204 | one turn of the retry loop: conflict, wait, refuse or own |
| IdempotencyTable.Operations.AwaitExisting | daemon/idempotency.go:206-235 | a duplicate gets the committed outcome, looks again after an abandonment, or gives up with its own context |
| IdempotencyTable.Operations.AbandonEntry | daemon/idempotency.go:237-251 | the entry goes, the client's count goes down and vanishes at zero |
| IdempotencyTable.Operations.FinishExecution | daemon/idempotency.go:136-204 | the owner's entry is committed or abandoned as judged, and the caller gets that answer |
| RunIdentity.LedgerAlways | agent/run_identity.go:179-254 | in every run counters equal the records in each state, bytes the sum of charges within the limits, every registered run has a reserved or active record, and the drained channel is closed exactly when none is registered and never twice |
| RunIdentity.RecordsLeaveByTheirOwn | agent/run_identity.go:234-283 | a generation's record leaves the ledger only by its own holder's step: a reservation by its abort, a tombstone by its own retirement, an active record never |
| RunIdentity.TombstonesBar | agent/run_identity.go:179-205 | over any continuation without that retirement the run cannot be reserved again |
| RunIdentity.TokensAreFresh | agent/run_identity.go:179-205 | a new generation's token is larger than every token in the ledger |
| RunIdentity.ReserveExact | agent/run_identity.go:179-205 | reserving keeps counters and bytes exact |
| RunIdentity.TransitionExact | agent/run_identity.go:207-232 | a transition keeps counters and bytes exact |
| RunIdentity.RemoveExact | agent/run_identity.go:234-254 | aborting or retiring keeps counters and bytes exact |
| RunIdentity.OneGeneration | agent/prepared_execution.go:308-407 | two live holders of one run identity are the same holder |
| RunIdentityTable.IdentityLedger.ReserveRun | agent/run_identity.go:179-205 | reserve succeeds exactly within the limits for an unused identity and returns the next token |
| RunIdentityTable.IdentityLedger.Move | agent/run_identity.go:207-232 | only the exact generation in the exact state moves |
| RunIdentityTable.IdentityLedger.Discard | agent/run_identity.go:234-254 | only the exact generation in the exact state is removed |
| RunLifecycle.ApplyKeeps | agent/agent.go:447-614 | every step of suspend, resume, interactions, boundaries, cancellation and finalization keeps status, signals, decisions, waiters and boundaries consistent |
| RunLifecycle.ExecKeeps | agent/agent.go:1201-1290 | every run, fresh or imported, keeps them, so suspended, resume-pending and terminal runs have no active interaction and a local resume is pending exactly while resume-pending |
| RunGuarantees.ExportIsQuiet | agent/agent.go:509-526 | whenever a snapshot may be taken, no interaction is active and execution is done or held at the current, open, unpassed boundary |
| RunGuarantees.ChannelsAlways | agent/agent.go:1223-1276 | each resume signal and decision is closed at most once, each waiting Suspend caller is owed exactly one message, and boundaries are passed in order and only after release |
| RunGuarantees.CancelIsLatched | agent/agent.go:1244-1262 | once the context ended, no boundary is passed in any continuation |
| RunGuarantees.NoStrandedRun | agent/agent.go:1223-1263 | a goroutine held at a boundary or at a pending decision can always be freed by the callers |
| RunGuarantees.ResumeRoundTrip | agent/local_resume.go:29-135 | preparing and aborting restores the suspended run exactly, preparing and committing is the direct resume |
| RunGuarantees.StaleCancelReleases | agent/agent.go:469-479 | a run in which a cancelled Suspend call releases another caller's suspension |
| RunGuarantees.CancelSparesOthers | agent/agent.go:469-479 | exactly when that happens |
| RunObject.KernelRun.ReserveInteraction | agent/agent.go:591-607 | an interaction starts exactly on a started running run with an identity never used before |
| RunObject.KernelRun.ReleaseInteraction | agent/agent.go:609-614 | the interaction is no longer active |
| RunObject.KernelRun.Suspend | agent/agent.go:447-468 | a caller becomes the waiter exactly on a started running run |
| RunObject.KernelRun.CancelSuspend | agent/agent.go:469-479 | the waiter withdraws its request, or the reached boundary is released |
| RunObject.KernelRun.ReachBoundary | agent/agent.go:1223-1243 | pass, refuse or suspend at a turn boundary |
| RunObject.KernelRun.LeaveBoundary | agent/agent.go:1244-1256 | a cancelled boundary finishes, or waits for the pending decision |
| RunObject.KernelRun.PassBoundary | agent/agent.go:1257-1262 | a released boundary is passed only with a live context |
| RunObject.KernelRun.PrepareLocalResume | agent/local_resume.go:29-59 | a reservation is given exactly for a suspended run with a live context and a sequence left |
| RunObject.KernelRun.Commit | agent/local_resume.go:81-105 | commit succeeds exactly once, while undecided |
| RunObject.KernelRun.Abort | agent/local_resume.go:110-135 | abort is refused exactly after a commit, and restores or finishes the run |
| RunObject.KernelRun.BeginFinalization | agent/agent.go:1265-1276 | a pending waiter is told once and the context is stopped |
| ToolHistory.ScanIsMatching | agent/snapshot.go:330-355 | scanning parts in order accepts exactly the trails in which authors are right, identities are unique and every result follows its own call; nothing is pending exactly when every call has a later matching result |
| HistoryCheck.ValidateHistory | agent/snapshot.go:310-357 | the nested loops accept exactly the sound histories within the size cap |
| HistoryCheck.ScanPart | agent/snapshot.go:331-350 | a part is accepted exactly when its mark may follow, and the open calls stay exact |
| HistoryCheck.ScanMessage | agent/snapshot.go:330-351 | the loop over one message keeps the open calls exact, or refuses |
| HistoryCheck.AreNew | agent/agent.go:1127-1133 | the loop accepts exactly calls whose identities are new and distinct |
| HistoryCheck.ValidateNewToolCalls | agent/agent.go:1118-1134 | new calls are accepted exactly when no identity was used before in the history or the list |
| ToolRounds.RoundKeeps | agent/agent.go:1021-1087 | a finished round keeps the history sound; a failed one does exactly if it failed before its assistant message |
| ToolRounds.BoundaryHistories | agent/agent.go:792-908 | after any number of turns and calls the boundary history passes the snapshot check, apart from its size cap, exactly when the input carried no tool parts |
| ToolRounds.FailedTurnHistory | agent/agent.go:1278-1290 | exactly when the history of a failed turn passes |
| ToolRounds.ToolInputIsValid | agent/agent.go:141-149 | an input message with a tool result that validation admits |
| ToolRounds.ToolInputIsNeverExportable | agent/agent.go:141-149 | no boundary history of its run ever passes |
| ToolRoundLoop.Conversation.Add | agent/agent.go:1136-1153 | a message is recorded exactly when valid and with an unused identity |
| ToolRoundLoop.Conversation.AppendToolRound | agent/agent.go:1021-1087 | the loops build and record the specified round and stop at the first failure |
| Snapshots.ValidateInteractions | agent/snapshot.go:359-372 | the loop accepts exactly bounded, token-valid, strictly sorted identities |
| Snapshots.InteractionSet | agent/snapshot.go:382-388 | the loop collects exactly the listed identities |
| Snapshots.MessageIdSet | agent/snapshot.go:390-396 | the loop collects exactly the identities of the history |
| Snapshots.Validate | agent/snapshot.go:69-104 | validation accepts exactly the specified snapshots |
| Snapshots.SortKeys | agent/agent.go:521-525 | the used identities are listed strictly sorted |
| Snapshots.SortedUnique | agent/agent.go:521-525 | that listing is the only one, so an export is determined by the run |
| Snapshots.ExecKeeps | agent/agent.go:1201-1221 | every run keeps turn, sequence and message bookkeeping, and is sound between turns exactly for a plain input |
| Snapshots.ExportExactly | agent/agent.go:509-526 | a run suspended after a turn can be exported exactly when a turn remains, the size caps hold, a sequence remains and its input was plain |
| Snapshots.PortableResume | agent/prepared_execution.go:169-230 | importing an export rebuilds the suspended run: same history, next turn, next sequence, used interactions and message identities |

## Left out

- JSON, Protobuf, SHA-256 and HMAC encodings: payloads are values with a size and, for JSON, a validity flag.
- gRPC transport, endpoint discovery, process startup, files, logging and generated code.
- The durable authority store: modelled as a nondeterministic machine under its documented contract, for one run; locks between processes are not modelled.
- HostAuthority.AuthorityBeforeExecution: modelled on values, with deferred rollbacks as steps; a retryable operation may find that the run ended meanwhile, and that is allowed.
- Tool-plan leases and the format checks of plan identities: a plan is a value with a flag for its checks, and an import needs an equal one.
- PendingBroker.Broker.Fence: does not model the wait for the ended observers' loops to stop.
- SessionTable.Sessions.CloseAll: does not model the cancellation of session and stream contexts; `stopped` records it for reconnects only.
- HostAdmission.CacheAlways: the authority's rule that a terminal record never moves is assumed, as its documentation states it.
- Scheduler fairness and timeouts: enabledness is proved, not liveness in time.
- Memory identity of waiters, calls and leases: they are identified by their position in the list of all ever created.
- The delivery loops of watchers and subscriptions: their channel moves are steps of the machines, not methods.
- The sort order of hub snapshots and the order in which shutdown visits calls: any order is covered.
- Removal of finished subscriptions and watchers from their maps, statistics counters, and 64-bit overflow of the evicted byte count.
- White space in identifiers: space, tab, newline and carriage return only; text lengths count characters as bytes.
- RunObject.KernelRun.CancelSuspend: speaks of one waiting caller; the choice between an ended context and an answer that is ready is a step of its own.
- Event payloads, provider streams, tool dispatch and stage guards: a dispatched call is an arbitrary outcome.
- The order of error checks where several would refuse: refusals of validation are one case.
- Health reports, snapshot envelopes, and the server's send path beyond page control.
