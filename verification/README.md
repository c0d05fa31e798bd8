# Pi remote control: a verified model

A Pi process is observed and controlled from afar.  Its bridge records what happens in an outbox,
numbers the events, keeps them in a spool file and sends them over a connection that drops and
comes back; a daemon commits them to one durable log, recovers and trims that log, and replays it
to subscribers.  In the other direction the daemon dispatches commands, tool-call decisions and
pauses, under leases, to the instance that is connected.

The project models that system in Dafny and proves what it promises.  Each component has three
parts: functions on values that say what every operation does; a class with the original's fields
whose methods change them in place and are proved equal to those functions; and lemmas over whole
runs of the component.

| file | component |
|---|---|
| `Outbox.dfy`, `OutboxProperties.dfy`, `OutboxConditions.dfy`, `OutboxContents.dfy` | coalescing, numbering, spool bounds, degradation, reload |
| `EventStore.dfy`, `EventStoreProperties.dfy` | registration, idempotent commits, replay, retention, restart recovery |
| `EventRetention.dfy` | what retention deletes, and which replays then have gaps |
| `ReferenceStores.dfy`, `EventStoreRefinement.dfy` | the protocol package's simple stores, and the refinements |
| `Pipeline.dfy`, `PipelineResults.dfy`, `PipelineLossless.dfy`, `Bridge.dfy` | bridge, network and daemon together |
| `Subscription.dfy` | replay followed by a live tail |
| `Commands.dfy`, `CommandAnswers.dfy` | command dispatch: the router's memory and the durable table |
| `Leases.dfy`, `LeaseOutcomes.dfy` | dashboard leases in the control plane |
| `Gates.dfy`, `GateAnswers.dfy`, `Pause.dfy` | tool-call gates and pauses in the bridge |
| `Base64.dfy`, `CanonicalJson.dfy`, `Jsonl.dfy` | the codecs |

## How to read it

A run is any sequence of enabled steps from the initial state.  In `Pipeline`, everything ever sent
stays in a set, so the network may drop, duplicate, delay and reorder at will; the daemon's other
producers, retention, leases and restart recovery are steps too, and the bridge may restart from
its spool at any point.  Ids made by `randomUUID` are assumed fresh, one live outbox uses a spool,
and `#persist` is part of the operation that calls it.  Where a lookup may return any of several
rows, or rows come in an unspecified order, the model allows every choice.

Some promises turn out to hold under a condition only.  Each has a lemma with the failing input and
one that says exactly when the promise is kept:

- A box stays degraded after a fault-free reconnect, and goes on dropping events, when its gap was
  committed but the acknowledgement was lost (`LostAcknowledgementStaysDegraded`): nothing is sent
  again, so nothing is acknowledged.  `RecoveryConverges` says exactly when a reconnect ends the
  degraded state.
- A degradation keeps the latest snapshot, unless there is no room for gap and snapshot
  (`SnapshotCut`); `SnapshotKeptIff` says exactly when the last snapshot observed is kept.
- A key's text is kept in the order observed, unless a snapshot is observed under the key: its own
  text is lost when the next snapshot replaces it (`KeyedSnapshotLosesText`), and even without text
  it can leave later text in front of earlier text (`KeyedSnapshotReordersText`).  `TextKeptIff` says
  exactly which runs keep the text.  The bridge gives keys to text deltas only.
- A test of the outbox is titled "degradation clears only after assigned gap and latest snapshot are
  acknowledged" (`pi-extension/remote-control/outbox.test.mjs:53`).  A box that degrades again while a
  recovery mark is set leaves the degraded state with a newer gap pending (`RecoveryMayLeaveAGap`).
  `RecoveryLeavesAGapIff` says exactly which runs leave one.
- A replay that succeeds can skip events: one that was committed late, with an old time, expires
  before its elders (`LateEventLeavesAGap`), and so does one behind a pinned event
  (`PinnedReplaySkips`; the daemon itself pins nothing).  `GapFreeThroughoutIff` says exactly which
  runs have gap-free replays only: those whose retentions each delete oldest events first.
- An event committed while a subscriber's drained buffer is being delivered is lost to it
  (`LateItemIsLost`); `ReplayHandsOver` says exactly when nothing is lost.
- A record that fits on its line can be refused when a chunk ends between its CR and LF
  (`ReturnAtChunkEnd`); `ChunksReadAsWhole` says exactly when chunking does not matter.
- If one instance id were used under two process ids, a disconnect could fail a command in the table
  but not in the router's memory (`SharedInstanceDisagrees`); `AgreeThroughoutIff` says exactly which
  runs keep the two in agreement.
- The owner of a lease is answered by the leased instance, or by a connection that an earlier instance
  of the same process and session left open (`OldConnectionAnswers`), even while the process has no
  bridge (`OldConnectionAnswersAlone`); `ReplyComesFromRegistered` says exactly when.
- A closed connection leaves no dashboard lease, binding or subscription behind, unless it subscribed
  more than once: then every subscription but its last stays, with its replay lease
  (`SecondSubscriptionLeaves`).  `ClosedLeavesNothingIff` says exactly when.

## Model

| member | source | states |
|---|---|---|
| `PipelineResults.ExactlyOnce` | packages/daemon/src/store.ts:37-57 | in every run of bridge, network and daemon, the events ever committed for the bridge are exactly its numbered events below the expected number, in order, with ids and contents; no frame it ever sent meets a conflict or an unknown producer |
| `PipelineResults.NothingDiscardedEarly` | pi-extension/remote-control/outbox.ts:98-112 | while fewer events are numbered than the largest safe integer, no resumption the daemon can ask for is a conflict, and resuming from the expected number returns exactly the numbered events not yet committed |
| `PipelineResults.RecoveryConverges` | pi-extension/remote-control/bridge.ts:58-70 | from any reachable state one fault-free reconnect commits every numbered event once and in order, empties the spool and makes the counters equal; a degraded box stays degraded if and only if it has no recovery mark or everything was committed before |
| `PipelineResults.LostAcknowledgementStaysDegraded` | pi-extension/remote-control/outbox.ts:98-112 | a gap committed without its acknowledgement keeps the box degraded through a fault-free reconnect: a concrete run |
| `PipelineResults.ResumesAtExpected` | pi-extension/remote-control/outbox.ts:98-103 | under the pipeline invariant, resuming at the expected number keeps exactly the tail of the numbered events from that number |
| `PipelineLossless.CommittedIsWhatWasObserved` | pi-extension/remote-control/outbox.ts:50-96 | end to end over every healthy run: committed events are a prefix of the numbered ones, and numbered and pending events together carry exactly what was observed |
| `Pipeline.NextKeepsInv` | pi-extension/remote-control/bridge.ts:58-70 | every step of bridge, network or daemon keeps the invariant: spool is the tail of the numbered events, disk equals memory, committed events are their prefix, frames and numbers in flight are true |
| `Pipeline.AnswerToFrame` | packages/daemon/src/store.ts:43-55 | whatever frame arrives and whatever row its lookup returns, the answer is a duplicate of that very event, a commit of the next one, a sequence gap, or an exhausted cursor |
| `Bridge.BridgeConnection.OnWelcome` | pi-extension/remote-control/bridge.ts:60-63 | numbers and persists what is pending, and names the number after the last retained frame |
| `Bridge.BridgeConnection.OnRegistered` | pi-extension/remote-control/bridge.ts:64-69 | a resume conflict changes nothing; otherwise the spool is resumed, the backoff starts over and, if the socket is still open, the retained tail and everything pending is sent |
| `Bridge.BridgeConnection.Flush` | pi-extension/remote-control/bridge.ts:48 | while connected, numbers what is pending and sends every retained frame; otherwise does nothing |
| `Bridge.BridgeConnection.OnEventAck` | pi-extension/remote-control/bridge.ts:70 | acknowledges everything below the number the daemon expects next |
| `Bridge.BridgeConnection.ScheduleReconnect` | pi-extension/remote-control/bridge.ts:36-47 | unless closed, at most one reconnect is scheduled; each raises the attempt count, ends gates and pauses as a disconnect of the daemon does, lets the outbox observe the audit of each call that ends, and waits within a quarter of a cap that doubles up to 30 seconds |
| `Bridge.BridgeConnection.ObserveAudits` | pi-extension/remote-control/bridge.ts:36 | the outbox observes one mandatory event for each new audit, in order |
| `Bridge.AuditedIsRun` | pi-extension/remote-control/bridge.ts:36 | what the audits do to the outbox is a run of observations of the pipeline |
| `Bridge.AuditIsTaken` | pi-extension/remote-control/bridge.ts:36 | even a degraded outbox takes an audit for which it has room |
| `Bridge.BackoffDoubles` | pi-extension/remote-control/bridge.ts:43 | the cap starts at the base, doubles eight times and never exceeds thirty seconds |
| `Bridge.BridgeConnection.OnReconnectTimer` | pi-extension/remote-control/bridge.ts:45 | the next reconnect may be scheduled again |
| `OutboxClass.DurableOutbox.constructor` | pi-extension/remote-control/outbox.ts:31-46 | restores a spool of the same process and instance, or starts empty |
| `OutboxClass.DurableOutbox.Observe` | pi-extension/remote-control/outbox.ts:50-63 | appends to the first pending item with the key when both have text, replaces snapshots, or appends; degrades when the spool does not fit |
| `OutboxClass.DurableOutbox.Degrade` | pi-extension/remote-control/outbox.ts:69-76 | replaces everything pending by a gap marker and the latest snapshot, trimmed to the bounds; the trimming ends |
| `OutboxClass.DurableOutbox.Assign` | pi-extension/remote-control/outbox.ts:78-96 | numbers pending items consecutively under fresh ids, sets the recovery mark for a gap, and persists before returning the frames |
| `OutboxClass.DurableOutbox.ResumeFrom` | pi-extension/remote-control/outbox.ts:98-103 | refuses unsafe, non-positive and future numbers; otherwise drops exactly the frames below the number and persists |
| `OutboxClass.DurableOutbox.Acknowledge` | pi-extension/remote-control/outbox.ts:105-112 | drops exactly the frames up to the number, ends the degraded state when it reaches the mark, and persists |
| `OutboxClass.DurableOutbox.Persist` | pi-extension/remote-control/outbox.ts:114-121 | the file holds the assigned frames, the next number and the degradation state |
| `OutboxProperties.LosslessWhileHealthy` | pi-extension/remote-control/outbox.ts:50-96 | in every run that never degraded, each key's text concatenates to the observed text, every other event but snapshots appears exactly once in order, and at most one snapshot, the last observed, is pending |
| `OutboxConditions.ObserveKeepsTextIff` | pi-extension/remote-control/outbox.ts:50-63 | whatever is pending, one observation keeps a key's text in order if and only if text that coalesces commutes with the text behind it, and snapshots that are replaced bear none |
| `OutboxConditions.TextKeptIff` | pi-extension/remote-control/outbox.ts:50-96 | over every run that never degraded, a key's text is the observed text in each state if and only if each observation keeps it |
| `OutboxConditions.KeyedSnapshotLosesText` | pi-extension/remote-control/outbox.ts:52-61 | text of a replaced snapshot is lost: a concrete run |
| `OutboxConditions.KeyedSnapshotReordersText` | pi-extension/remote-control/outbox.ts:52-61 | after a textless keyed snapshot is replaced, "xyz" is kept as "xzy": a concrete run |
| `OutboxProperties.DegradationAlways` | pi-extension/remote-control/outbox.ts:65-112 | in every state the spool fits or only the gap marker is pending; a pending gap is unique, first, and names its own number; every numbered gap named its own; not degraded implies no mark; degraded without a mark implies a pending gap |
| `OutboxProperties.RecoveryNeedsTheGapAcknowledged` | pi-extension/remote-control/outbox.ts:105-112 | the degraded state ends only on an acknowledgement that covers a whole batch that opened with a gap marker |
| `OutboxConditions.RecoveryMayLeaveAGap` | pi-extension/remote-control/outbox.ts:79-110 | a box that degrades again while marked recovers with a newer gap pending: a concrete run |
| `OutboxConditions.RecoveryLeavesAGapIff` | pi-extension/remote-control/outbox.ts:69-112 | over every run, an acknowledgement that ends the degraded state leaves a gap behind if and only if the box degraded again after the assignment that set the mark, for a number that nothing has acknowledged or resumed past |
| `OutboxConditions.GapsToldAlways` | pi-extension/remote-control/outbox.ts:69-112 | in every state each gap marker ever made is pending, retained or passed, and the mark divides those made before it from those made since |
| `OutboxContents.CarriesAlways` | pi-extension/remote-control/outbox.ts:52-80 | over every run without a reload, however often the box degrades, the numbered and the pending items carry, key by key and event by event, exactly the log of what was taken since the last degradation or assignment: mandatory events are taken while degraded, others are not |
| `OutboxContents.DegradingLeaves` | pi-extension/remote-control/outbox.ts:71-79 | whatever the box, an observation that degrades it leaves exactly the gap and, if both fit, the last snapshot of what would have been pending |
| `OutboxContents.DegradingKeepsTheSnapshot` | pi-extension/remote-control/outbox.ts:71-79 | over every run without a reload, that snapshot is the last one observed of those pending |
| `OutboxContents.SnapshotKeptIff` | pi-extension/remote-control/outbox.ts:64-79 | over every run without a reload, the last snapshot observed is numbered or pending if and only if no degradation without room has cut it, or its equal was numbered last |
| `OutboxContents.SnapshotCut` | pi-extension/remote-control/outbox.ts:71-79 | a degradation without room for gap and snapshot loses the snapshot: a concrete run |
| `OutboxContents.SavedLoads` | pi-extension/remote-control/outbox.ts:35-47 | what is saved and loaded again is the whole box but what was pending; a file of another producer gives an empty box |
| `OutboxContents.BytesIsLength` | pi-extension/remote-control/outbox.ts:50 | the spool's size is the length of its JSON text |
| `EventStoreClass.DurableStore.Register` | packages/daemon/src/store.ts:26-36 | inserts or revives the process and the instance and answers the number the instance resumes from |
| `EventStoreClass.DurableStore.AppendEvent` | packages/daemon/src/store.ts:37-57 | for whichever matching row the lookup returns: unknown producer, conflict, duplicate, sequence gap, exhausted cursor, or commit under the next cursor |
| `EventStoreClass.DurableStore.Minimum` | packages/daemon/src/store.ts:108 | the least retained cursor, or head + 1 |
| `EventStoreClass.DurableStore.Replay` | packages/daemon/src/store.ts:58-69 | the rows behind a cursor that pass the filter, in cursor order, or the error for an invalid, future or expired cursor |
| `EventStoreClass.DurableStore.Pin` | packages/daemon/src/store.ts:70 | adds a cursor to the pins |
| `EventStoreClass.DurableStore.LeaseReplay` | packages/daemon/src/store.ts:71 | records a lease with its minimum cursor and expiry |
| `EventStoreClass.DurableStore.ReleaseReplay` | packages/daemon/src/store.ts:72 | removes the lease and nothing else |
| `EventStoreClass.DurableStore.ProtectedCursor` | packages/daemon/src/store.ts:74 | the least cursor an unexpired lease asks for, or the largest safe integer |
| `EventStoreClass.DurableStore.Retain` | packages/daemon/src/store.ts:73-78 | deletes exactly the rows below the protected cursor, not pinned, and too old or beyond the count; answers how many |
| `EventStoreClass.DurableStore.RecoverAfterRestart` | packages/daemon/src/store.ts:91-106 | commits one synthetic event for each live or stale instance, in whatever order the rows come, and marks it lost |
| `EventStoreProperties.ConsistentAlways` | packages/daemon/src/store.ts:37-106 | over every run of registration, commits, retention, pins, leases, state changes and recoveries: rows are committed events under their own cursors, both unique keys hold, each instance's events are numbered 1, 2, 3, ... up to the expected number, and each process names its highest cursor |
| `EventStoreProperties.StepKeepsConsistent` | packages/daemon/src/store.ts:26-106 | each operation keeps that consistency |
| `EventStoreProperties.RecoveryAlways` | packages/daemon/src/store.ts:91-106 | recovery in any reachable state collides with no row, uses fresh cursors above head, leaves every expected number unchanged and no instance live or stale, and a second recovery finds nothing |
| `EventStoreProperties.SyntheticIsFree` | packages/daemon/src/store.ts:95-96 | the synthetic number is not positive and matches no row of the instance |
| `EventStoreProperties.RegisterRevives` | packages/daemon/src/store.ts:30-36 | a registration in any state makes process and instance live in its session and keeps cursors and numbers |
| `EventStoreProperties.RecoveredProcessesAreLost` | packages/daemon/src/store.ts:91-106 | after a recovery the processes of the lost instances are lost too |
| `ReferenceStores.ProducerLedger.Commit` | packages/protocol/src/index.ts:87-106 | the reference ledger: duplicate, conflict, sequence gap, exhausted cursor or commit |
| `ReferenceStores.CursorStore.Append` | packages/protocol/src/index.ts:144-149 | appends under the next cursor, or says that cursors are exhausted |
| `ReferenceStores.CursorStore.Replay` | packages/protocol/src/index.ts:150-155 | the reference log's events behind a cursor that pass the filter, or its error |
| `ReferenceStores.CursorStore.ExpireThrough` | packages/protocol/src/index.ts:157-161 | drops the events up to a cursor and raises the minimum |
| `EventStoreRefinement.RefinesProducerLedger` | packages/daemon/src/store.ts:37-57 | on every history without retention and recovery, registered producers get from the store the cursors, duplicate flags, expected numbers and errors of the ledger, whichever row the lookup returns |
| `EventStoreRefinement.AppendAnswersAsLedger` | packages/protocol/src/index.ts:87-106 | in coupled states one append and one ledger commit answer the same |
| `EventRetention.RetainKeepsExactly` | packages/daemon/src/store.ts:73-78 | a row survives retention if and only if it is pinned, asked for by an unexpired lease, or young enough and among the newest |
| `EventRetention.RetainKeepsNewest` | packages/daemon/src/store.ts:73-78 | in terms of the options: a row that is neither pinned nor leased survives if and only if fewer than the limit were committed after it and it is not older than the limit |
| `EventRetention.RetainKeepsGapFreeIff` | packages/daemon/src/store.ts:58-78 | on a table without holes, retention leaves every replay gap-free if and only if it deletes no event that is newer than one it keeps |
| `EventRetention.GapFreeThroughoutIff` | packages/daemon/src/store.ts:37-106 | over every run, replays are gap-free in each state if and only if each retention deletes oldest events first |
| `EventRetention.OrderedRunsRetainOldestFirst` | packages/daemon/src/store.ts:73-78 | without pins, and with times that do not decrease in commit order, every retention does |
| `EventRetention.LateEventLeavesAGap` | packages/daemon/src/store.ts:73-78 | an event committed late with an old time leaves a gap: a concrete run without pins |
| `EventRetention.PinnedReplaySkips` | packages/daemon/src/store.ts:70-78 | a pin leaves a gap: a concrete run |
| `EventStoreRefinement.RetainIsExpire` | packages/protocol/src/index.ts:157-161 | retention that deletes oldest events first is expiration through some cursor |
| `EventStoreRefinement.RefinesCursorStore` | packages/daemon/src/store.ts:37-108 | over every run whose retentions delete oldest events first, the event table is a reference log that saw exactly the same commits, in order, and some expirations |
| `EventStoreRefinement.ReplayAnswersAsCursorStore` | packages/daemon/src/store.ts:58-69 | a replay then gives the reference log's answer under the same filter: the same error or rows; without a filter, the gap-free events up to head |
| `SubscriptionClass.ReplaySubscription.Buffer` | packages/daemon/src/subscriptions.ts:9-14 | skips what was delivered, delivers when live, overflows when full, or keeps the item |
| `SubscriptionClass.ReplaySubscription.Resume` | packages/daemon/src/subscriptions.ts:15-20 | between two awaits: advances the cursor, delivers the next item that qualifies, drains the sorted buffer, or goes live |
| `SubscriptionProperties.ReplayHandsOver` | packages/daemon/src/subscriptions.ts:9-20 | for whatever a consistent store replays and under every interleaving, cursors are delivered in strictly increasing order, and once live the delivered items are exactly the matching log behind the cursor if and only if no matching row had expired, nothing overflowed and no matching item came in during the drain |
| `SubscriptionProperties.SubscribeIsSettled` | packages/daemon/src/daemon.ts:32 | what the store replays at subscription is all that is due, or some due event has expired for good |
| `SubscriptionProperties.NothingExpiredIfHoleFree` | packages/daemon/src/store.ts:58-69 | a table trimmed from its oldest end only lacks nothing that it replays |
| `SubscriptionProperties.NextKeepsSettled` | packages/daemon/src/subscriptions.ts:9-20 | every commit and every turn keeps this: either nothing was turned away and what is delivered plus what waits is due, or some due item is missing for good |
| `SubscriptionProperties.NextKeepsOrdered` | packages/daemon/src/subscriptions.ts:9-20 | every commit and every turn keeps the order of what was and will be delivered |
| `SubscriptionProperties.LateItemIsLost` | packages/daemon/src/subscriptions.ts:18-19 | an item committed during the drain is never delivered: a concrete run |
| `SubscriptionProperties.OverflowsIff` | packages/daemon/src/subscriptions.ts:10-15 | in every state of every run the buffer is within its bound, and a commit overflows it if and only if it matches, the subscription is not live and the buffer is full |
| `SubscriptionProperties.BufferedOnce` | packages/daemon/src/subscriptions.ts:10-15 | an item that is published twice counts once |
| `CommandsClass.CommandRouter.Bind` | packages/daemon/src/command-router.ts:7 | adds the target to the bound ones |
| `CommandsClass.CommandRouter.Accept` | packages/daemon/src/command-router.ts:8 | conflict or duplicate by memory, unavailable target, conflict or duplicate by the table, or one request frame for a new command |
| `CommandsClass.CommandRouter.Acknowledge` | packages/daemon/src/command-router.ts:9 | an unknown acknowledgement is refused; a rejection completes the command as failed |
| `CommandsClass.CommandRouter.Complete` | packages/daemon/src/command-router.ts:10 | completes in the table first; an error there changes nothing |
| `CommandsClass.CommandRouter.Disconnect` | packages/daemon/src/command-router.ts:11 | unbinds the target, fails its accepted commands in table and memory, and tells the clients |
| `CommandsClass.CommandTable.AcceptCommand` | packages/daemon/src/store.ts:88 | inserts the command without replacement arguments, or answers a conflict or the stored state and result |
| `CommandsClass.CommandTable.CompleteCommand` | packages/daemon/src/store.ts:89 | stores the result and its status once; a different result is a conflict |
| `CommandsClass.CommandTable.FailCommandsForInstance` | packages/daemon/src/store.ts:90 | fails exactly the accepted commands of an instance |
| `CommandProperties.DispatchedAtMostOnce` | packages/daemon/src/command-router.ts:8-11 | over every run with restarts and crashes anywhere: at most one request frame for each id, carrying the accepted command to its target; all results told to clients are the stored one; accepted if and only if there is no result |
| `CommandProperties.DispatchedOnce` | packages/daemon/src/command-router.ts:8 | without a crash between row and frame, a command is in the table if and only if its frame was sent |
| `CommandProperties.ResultsAreWriteOnce` | packages/daemon/src/store.ts:88-90 | over the rest of every run rows are kept, and a stored result and its state never change |
| `CommandProperties.MemoryAgreesWithTable` | packages/daemon/src/command-router.ts:8-11 | when each instance belongs to one process, every command in memory has the state of its row |
| `CommandProperties.SharedInstanceDisagrees` | packages/daemon/src/command-router.ts:11 | the condition is needed: a concrete run |
| `CommandProperties.DisconnectAgreesIff` | packages/daemon/src/command-router.ts:11 | a disconnect keeps memory and table in agreement if and only if every accepted command in memory for the instance is for the disconnected process |
| `CommandProperties.AgreeThroughoutIff` | packages/daemon/src/command-router.ts:8-11 | over every run, memory and table agree in each state if and only if each disconnect found nothing waiting for the instance under another process |
| `CommandProperties.TableRefinesLedger` | packages/protocol/src/index.ts:112-138 | in every state the table accepts and completes as the reference ledger does |
| `CommandAnswers.ListenersAreTold` | packages/daemon/src/command-router.ts:8-11 | over every run, whoever listens for a command in memory that is no longer accepted has been told the stored result, be it by a result, a rejection, a disconnect or the table |
| `CommandAnswers.AcceptAnswers` | packages/daemon/src/command-router.ts:8 | in every state of every run: when a command is refused and why, when it is a duplicate, and that its frame goes out exactly when it is not |
| `CommandAnswers.CompleteAnswers` | packages/daemon/src/command-router.ts:10 | in every state of every run: a result from the command's own bridge that contradicts no stored one is stored and told; others change nothing |
| `CommandAnswers.AcknowledgeAnswers` | packages/daemon/src/command-router.ts:9 | in every state of every run: a rejection from the command's own bridge is stored and told as a failure under the code it gave |
| `CommandAnswers.DisconnectAnswers` | packages/daemon/src/command-router.ts:11 | in every state of every run: what waited for the disconnected instance has failed because its bridge is gone, and who listened has been told |
| `LeasesClass.ControlPlane.Register` | packages/daemon/src/daemon.ts:29 | a second registration of a connection is refused; otherwise leases on other instances of the process are revoked, with word to the old bridge and the owners, before the new bridge takes over |
| `LeasesClass.ControlPlane.Acquire` | packages/daemon/src/daemon.ts:34 | grants a lease on the live target's instance, or says the target is unavailable |
| `LeasesClass.ControlPlane.RouteEphemeral` | packages/daemon/src/daemon.ts:43-44 | refuses frames of others' leases; otherwise routes to the live target, revokes on a mismatch, or reports that the target is gone |
| `LeasesClass.ControlPlane.ReleaseDashboardLease` | packages/daemon/src/daemon.ts:45 | removes the lease and tells the process's bridge, if any |
| `LeasesClass.ControlPlane.RevokeDashboardLease` | packages/daemon/src/daemon.ts:46 | releases the lease and tells its owner |
| `LeasesClass.ControlPlane.ReleaseLease` | packages/daemon/src/daemon.ts:35 | releases an owned lease, or refuses |
| `LeasesClass.ControlPlane.AnswerOwner` | packages/daemon/src/daemon.ts:37 | passes a bridge's frame to the owner of a lease of its process and session, or refuses |
| `LeasesClass.ControlPlane.Subscribe` | packages/daemon/src/daemon.ts:32 | a subscription takes a replay lease and joins the earlier ones of its connection, which from then on knows the new one only |
| `LeasesClass.ControlPlane.CloseSocket` | packages/daemon/src/daemon.ts:26 | drops the subscription the connection knows, with its replay lease, and its dashboard leases, removes its bridge unless another instance took over, disconnects its target in the router, and marks its instance dead |
| `LeaseProperties.ClosedLeavesNothingIff` | packages/daemon/src/daemon.ts:26 | in every state of every run a closed connection owns no dashboard lease, is bound to nothing and is no process's bridge; it has left no subscription and no replay lease if and only if it subscribed at most once |
| `LeaseProperties.SecondSubscriptionLeaves` | packages/daemon/src/daemon.ts:32 | a connection that subscribes twice leaves the first subscription and its replay lease: a concrete run |
| `LeaseProperties.NextKeepsTidy` | packages/daemon/src/daemon.ts:26-32 | every step keeps all subscriptions of open connections and all but the last of closed ones, and the store's replay leases are exactly theirs |
| `LeaseProperties.CloseSettlesCommands` | packages/daemon/src/daemon.ts:26 | over every run, when a connection closes, every command ever accepted for its instance has a stored result, and none in memory for its target still waits |
| `LeaseProperties.ControlReachesTheLeased` | packages/daemon/src/daemon.ts:29-46 | over every run, each control frame ever sent came from its lease's owner and went to an open connection bound to the very process and instance, and registered in the very session, that the lease was granted for; every lease is on the instance that registered last |
| `LeaseProperties.NextKeepsFaithful` | packages/daemon/src/daemon.ts:26-46 | every message, disconnect and state change keeps leases on the instances registered last, bridges bound to their connections in the session the store knows, and owners connected |
| `LeaseProperties.MismatchIsUnreachable` | packages/daemon/src/daemon.ts:44 | the branch that revokes a lease while routing is never taken |
| `LeaseProperties.RegisterEndsOldLeases` | packages/daemon/src/daemon.ts:29 | registering an instance leaves no lease on another instance of its process |
| `LeaseProperties.ReplyComesFromRegistered` | packages/daemon/src/daemon.ts:37 | a reply that passes comes from the leased instance if and only if its connection is bound to the instance that registered last for the process |
| `LeaseProperties.OldConnectionAnswers` | packages/daemon/src/daemon.ts:37 | a connection that an earlier instance left open answers the owner: a concrete run |
| `LeaseProperties.OldConnectionAnswersAlone` | packages/daemon/src/daemon.ts:37 | it does so even while the process has no bridge: a concrete run |
| `LeaseOutcomes.AcquireIff` | packages/daemon/src/daemon.ts:34-41 | a lease is granted if and only if the process is live in the session and its bridge is the routable instance that the store names |
| `LeaseOutcomes.RegisteredCanBeLeased` | packages/daemon/src/daemon.ts:29-34 | over every run, whoever registers, also after an earlier connection closed, is live in its session, bound for commands, and can be leased at once |
| `LeaseOutcomes.ClosedCannotBeLeased` | packages/daemon/src/daemon.ts:26 | over every run, when the connection of a process's bridge closes, instance and process are dead and no lease is granted |
| `LeaseOutcomes.CloseKeepsOtherBridges` | packages/daemon/src/daemon.ts:26 | a connection that closes takes away the bridge of its own process and instance and no other |
| `LeaseOutcomes.RouteIff` | packages/daemon/src/daemon.ts:36-44 | in every state of every run a control frame is refused unless its sender owns the lease in that process and session; then it goes to the bridge while that is available, and otherwise its sender is told |
| `LeaseOutcomes.ReplyIff` | packages/daemon/src/daemon.ts:37 | a bridge's frame reaches the lease's owner if and only if its connection is bound to the lease's process and the frame names its process and session |
| `LeaseOutcomes.ReleaseIff` | packages/daemon/src/daemon.ts:35 | a release succeeds if and only if its sender owns the lease, and then ends it |
| `LeaseOutcomes.LeaseEndsIff` | packages/daemon/src/daemon.ts:26-46 | every step ends exactly the leases released by their owner, owned by the closing connection or superseded by a registration, and tells the bridge, and of a superseded lease the owner |
| `LeaseOutcomes.EndedIsGone` | packages/daemon/src/daemon.ts:26-46 | over every run a lease that ended is gone for good, its control frames are refused ever after, and its bridge, if any, has been told |
| `LeaseOutcomes.SubscriptionProtects` | packages/daemon/src/store.ts:71-78 | while a subscription's replay lease has not expired, retention keeps every row from its cursor |
| `GatesClass.GateController.Arm` | pi-extension/remote-control/gates.ts:26-30 | refuses when closed or when the policy is out of range; otherwise replaces the policy |
| `GatesClass.GateController.GateCall` | pi-extension/remote-control/gates.ts:32-54 | lets through without a policy, answers on the spot for stale sessions, repeated ids and unknown tools, or sends one request and waits with a timer |
| `GatesClass.GateController.Decide` | pi-extension/remote-control/gates.ts:56-77 | a stale decision changes nothing; otherwise the call is settled by verdict, and an acceptable replacement becomes its input |
| `GatesClass.GateController.Settle` | pi-extension/remote-control/gates.ts:88-96 | removes the waiting call, clears its timer, audits and resolves, or does nothing |
| `GatesClass.GateController.DisconnectLease` | pi-extension/remote-control/gates.ts:79-82 | drops the lease's policy and ends its waiting calls by their own policy |
| `GatesClass.GateController.TimerFires` | pi-extension/remote-control/gates.ts:51 | settles the call that waits under the timer's id by the timer's policy |
| `GatesClass.GateController.DaemonDisconnected` | pi-extension/remote-control/gates.ts:84 | ends every waiting call by its own policy |
| `GatesClass.GateController.Abort` | pi-extension/remote-control/gates.ts:85 | cancels every waiting call |
| `GatesClass.GateController.Shutdown` | pi-extension/remote-control/gates.ts:85-86 | closes, drops the policy and cancels every waiting call |
| `GatesClass.ReplaceOwnProperties` | pi-extension/remote-control/gates.ts:121-125 | the target ends with exactly the source's properties |
| `GateProperties.PromisesResolveOnce` | pi-extension/remote-control/gates.ts:26-97 | in every state of every run each gated call waits with its own live timer or was resolved once; requests are audits plus waiting calls; one arming of a one-shot policy sent at most one request |
| `GateProperties.LetThroughOnlyByOwner` | pi-extension/remote-control/gates.ts:56-97 | over every run, a fail-closed call was let through only by the step that settled it, an allow from its own lease while current; an input changed only by the accepted edit that settled its call, to exactly the replacement |
| `GateProperties.NextKeepsSound` | pi-extension/remote-control/gates.ts:26-97 | every call, decision, timer and disconnect keeps promises, timers, counts and armings in step |
| `GateProperties.DisconnectEndsAll` | pi-extension/remote-control/gates.ts:84 | after a disconnect nothing waits, no timer lives, and every waiting call ended by its own policy, in order |
| `GateProperties.TimerSettlesItsCall` | pi-extension/remote-control/gates.ts:51 | a timer, which knows an id only, settles its own call |
| `GateAnswers.WaitingCallEnds` | pi-extension/remote-control/gates.ts:51-97 | over every run: whatever waits is ended by exactly the decision, timer, disconnect or abort meant for it, in that very step, with the answer and the outcome that this gives it, for good |
| `GateAnswers.ResolvedByItsStep` | pi-extension/remote-control/gates.ts:51-97 | over every run: every resolution was made by such a step, while its call waited, with that answer and outcome |
| `GateAnswers.StepEnds` | pi-extension/remote-control/gates.ts:51-97 | every step ends exactly the waiting calls that it should, each with the answer it should |
| `GateAnswers.AuditsTellAll` | pi-extension/remote-control/gates.ts:88-96 | in every state of every run there is one audit for each resolution, which says whose call ended and how |
| `GateAnswers.InForceAlways` | pi-extension/remote-control/gates.ts:26-43 | in every state of every run the policy is the one armed last, until its lease disconnects, the controller shuts down or a call uses it up |
| `GateAnswers.GateReturns` | pi-extension/remote-control/gates.ts:32-54 | in every state of every run: what a tool call is told on the spot by the policy in force, and otherwise that it waits under that policy with a request to its lease |
| `PauseClass.PauseController.Boundary` | pi-extension/remote-control/gates.ts:139-147 | passes when idle, in another generation or after the deadline, which also releases; otherwise waits with a timer |
| `PauseClass.PauseController.Arm` | pi-extension/remote-control/gates.ts:135-138 | refuses a deadline in the past; otherwise releases everyone and takes the new scope |
| `PauseClass.PauseController.ResumeSession` | pi-extension/remote-control/gates.ts:148 | releases for the scope's own generation and lease only |
| `PauseClass.PauseController.DisconnectLease` | pi-extension/remote-control/gates.ts:149 | releases for the scope's own lease, unless it holds until the deadline |
| `PauseClass.PauseController.DaemonDisconnected` | pi-extension/remote-control/gates.ts:150 | releases unless the scope holds until the deadline |
| `PauseClass.PauseController.Release` | pi-extension/remote-control/gates.ts:152 | resolves every waiter once, clears its timer and the scope |
| `PauseProperties.WaitersResolveOnce` | pi-extension/remote-control/gates.ts:128-153 | in every state paused means someone waits, live timers are the waiters', idle means no scope, and whoever waited still waits or was resolved once |
| `PauseProperties.TimerEndsItsOwnArming` | pi-extension/remote-control/gates.ts:139-147 | a timer that fires releases waiters of its own arming only |
| `PauseProperties.HoldOutlivesDisconnects` | pi-extension/remote-control/gates.ts:148-151 | waiters that hold until the deadline outlive every disconnect until the timer, a new arming, their own resumption, a late boundary or shutdown |
| `PauseProperties.HoldsExactly` | pi-extension/remote-control/gates.ts:135-152 | in every state of every run a session waits at a boundary if and only if a scope of its generation is in force before its deadline, and a step releases everyone if and only if it ends that scope or arms another |
| `Base64.DecodeOfEncode` | packages/protocol/src/validation.ts:73-74 | decoding undoes encoding, for all bytes |
| `Base64.CanonicalIffPadBitsZero` | packages/protocol/src/validation.ts:71-74 | a well-shaped string is its own re-encoding if and only if its pad bits are zero |
| `Base64.AcceptsExactlyEncodings` | packages/protocol/src/validation.ts:70-76 | the validator accepts exactly the encodings of byte strings within the limit, and says too large of exactly the well-shaped strings that decode to more |
| `Base64.ValidatorsAgree` | pi-extension/remote-control/attachments.ts:7-14 | the bridge's own validator gives the same answer to every non-empty string at 5 MiB |
| `Base64.StandardVectors` | packages/protocol/src/validation.ts:73-74 | the alphabet and test vectors of RFC 4648 |
| `CanonicalJson.CanonicalFormDecides` | packages/protocol/src/validation.ts:91-94 | two values with unique keys have the same canonical form if and only if they are equal up to the order of object members at every depth |
| `CanonicalJson.CanonicalFormIsSameValue` | packages/protocol/src/validation.ts:91-94 | the canonical form is the same value, and its keys are unique |
| `CanonicalJson.VisitIsIdempotent` | packages/protocol/src/validation.ts:92 | canonical forms are their own canonical forms |
| `CanonicalJson.SameKeysSameOrder` | packages/protocol/src/validation.ts:92 | the order of canonical keys depends on the set of keys alone |
| `CanonicalJson.CanonicalKeysInOrder` | packages/protocol/src/validation.ts:92 | array indices come first by number, the other keys follow by code units |
| `CanonicalJson.LessIff` | packages/protocol/src/validation.ts:92 | the order by code units is decided where two texts first differ, and a proper prefix comes first |
| `CanonicalJson.IsIndexIff` | packages/protocol/src/validation.ts:92 | array indices are exactly the decimal forms of the integers below 2^32 - 1 |
| `JsonlClass.JsonlDecoder.Push` | packages/protocol/src/jsonl.ts:10-28 | reads the complete lines, strips one CR, enforces the limit on lines and on the rest, and stops at the first bad line |
| `JsonlClass.JsonlDecoder.End` | packages/protocol/src/jsonl.ts:30-34 | fails if and only if text is left without a newline |
| `JsonlProperties.ChunksReadAsWhole` | packages/protocol/src/jsonl.ts:10-28 | chunked pushes all succeed if and only if the whole text has no bad line and no unfinished line at a chunk's end is over the limit, and then give its records and rest; a bad line is otherwise reported as the whole's own error |
| `JsonlProperties.ChunkedImpliesWhole` | packages/protocol/src/jsonl.ts:10-28 | whenever chunked pushes succeed, one push of the whole gives the same |
| `JsonlProperties.ReturnAtChunkEnd` | packages/protocol/src/jsonl.ts:17-26 | the converse fails for a chunk that ends between CR and LF: a concrete input |
| `JsonlProperties.EncodedInChunks` | packages/protocol/src/jsonl.ts:37-39 | any list of encoded values within the limit, split anywhere, decodes to that list and leaves nothing |
| `JsonlProperties.LineIsRecordIff` | packages/protocol/src/jsonl.ts:14-24 | a terminated line is a record if and only if its text is within the limit, not empty and parses; what is wrong is said in that order |
| `JsonlProperties.WidthIsUtf8` | packages/protocol/src/jsonl.ts:18-26 | lengths count the bytes of UTF-8 |

## Left out

- PipelineResults.ExactlyOnce: takes for granted that event ids are fresh, that one live outbox uses a spool, and that a missing, corrupt or foreign spool file is not put in place of the bridge's own; the constructor's answer to such a file is modelled, but not as a step of the pipeline.
- PipelineResults.NothingDiscardedEarly: covers runs that number fewer events than the largest safe integer; the source answers a conflict beyond it.
- PipelineResults.RecoveryConverges: needs room below the largest safe integer for the numbers and cursors it uses.
- SubscriptionProperties.ReplayHandsOver: a replay that the store refuses with an error ends the connection, so only replays that succeed start a subscription.
- OutboxProperties.LosslessWhileHealthy: needs that no snapshot is observed under a coalesce key, as the bridge does; runs with a reload are covered by the pipeline's results on numbered events instead.
- OutboxContents.CarriesAlways: as do the other results of its module over runs, needs that no snapshot is observed under a coalesce key.
- OutboxConditions.RecoveryLeavesAGapIff: takes acknowledgements of numbers that were given, as every run of the pipeline makes them.
- OutboxProperties.DegradationAlways: covers runs without a reload and observations that are not themselves gap events.
- EventStoreProperties.RecoveryAlways: the recovery loop of the source does not test for an exhausted cursor, and neither does the model.
- CommandProperties.TableRefinesLedger: speaks of commands without replacement arguments, because the table never stores them; a result's status is one of the four that the schema allows.
- EventStoreRefinement.RefinesCursorStore: covers runs within the largest safe integer; the reference log has no pins or leases to compare.
- Bridge.BridgeConnection.ScheduleReconnect: the jitter is a real number, what an audit is printed as is a parameter, and what connecting does is left to the environment; audits of other ends of gated calls reach the outbox the same way and are not joined to it.
- SubscriptionClass.ReplaySubscription.Resume: sorts the buffer as a list of positive cursors; the settling of a delivery is a step of the environment.
- PauseClass.PauseController.Release: releases the waiters in any order; the source uses the order in which they began to wait.
- WebSocket framing, HTTP, pairing, tokens, rate limits, schemas and the session handshake: frames arrive valid and from connections in their role.
- The byte size of a JSON record, JSON.parse, JSON.stringify and fractional numbers: parameters, or opaque texts with equality; that equal printed texts mean equal trees is not proved.
- Splitting of UTF-8 sequences across chunks: JSONL text is taken by characters, with their UTF-8 lengths.
- Clocks, timers and random ids: parameters of the operations; a timer fires at any moment while it is live.
- I/O errors of `#persist`: a write happens as a whole with the operation.
- Cycles, accessors and unusual keys in tool arguments: whether an input can be cloned and whether a schema accepts a replacement are parameters of the gate.
- Host, session, capability and heartbeat columns, `getProcess` beyond what leases ask, and the v2 routes.
- The Android client, the command-line tools, log redaction, image signatures and attachments beyond base64.
