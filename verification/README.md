# Delivery and coordination protocols

This project models the protocols by which the browser server and the coordinator deliver messages and
keep state, and proves what they guarantee over every run. Timers, promise continuations and re-entrant
callbacks are steps that may come in any order the original allows; sends, saves and lease acquisition are
oracles; times are arguments of the steps.

Each component comes as a specification (a state, its steps and runs, with the lemmas about them) and, where
the original changes state in place, as a class whose methods and loops are proved to make exactly those steps.

| component | specification and proofs | in place |
|---|---|---|
| terminal channels | ChannelFrames, ChannelQueues, ChannelPlane, ChannelGaps, ChannelGapRuns, ChannelScheduling, ChannelEviction, ChannelLoss | ChannelManager |
| control lane of one client | ControlLane, ControlLaneProofs | ControlLaneClient |
| takeover arbitration | TakeoverProtocol, TakeoverProofs, TakeoverRuns, TakeoverClaims, TakeoverLimits, TakeoverFates, TakeoverExact | TakeoverArbiter |
| lease grace window | GraceWindow | GraceKeeper |
| debounced saves | PersistenceSchedule, PersistenceProofs | PersistenceScheduler |
| serialized coordinator runtimes | RuntimeTurns, RuntimeTurnProofs | RuntimeLoaders |
| prompt delivery | PromptDeliveries, PromptDeliveryProofs, PromptDeliveryRuns, PromptInFlight | PromptDelivery |
| workflows | WorkflowModel, WorkflowJournals, WorkflowHistory, WorkflowHistoryProofs, WorkflowRestore | WorkflowRecord |
| persisted state | Compaction, PersistedState | (expressions and one loop) |
| UTF-8 tail | Utf8Tail | (one loop) |

`dafny verify dfyconfig.toml` checks everything.

## What does not hold without a condition

These promises fail for some inputs; the lemmas give the run or the input and the exact condition.

- A channel gap without a marker: a control message that joins a recovering queue and does not fit evicts the
  waiting marker. The lane stays in order if and only if the message does not evict the only marker
  (ChannelEviction), and after one that does the client can come to see the gap (ChannelLoss). Binding again
  while recovering has its own exact guard (ChannelGapRuns).
- Two winners of one takeover cascade: the socket of the asked client is broken but not yet noticed. Working
  sockets suffice and cannot be dropped for any kind of granting event (TakeoverLimits). With one broken socket,
  which events still have a single winner is told exactly by the requests pending before them: for approvals
  and timeouts, when every client asks once, those with fewer than three requests pending for the task
  (TakeoverExact).
- A request that is never resolved: a second request with the id of a pending one replaces it. The books
  balance if and only if no pending id is reused (TakeoverRuns).
- A pending request without a controller: reading a lease drops it silently when it has expired. Over whole runs
  that happens if and only if such a lapse followed the acceptance and the client did not acquire the task
  again (TakeoverClaims).
- Stale data after a stop with nothing pending: a failed final save is not retried. The health report says so:
  degraded if and only if the final save failed (PersistenceProofs).
- Two deliveries of one prompt in flight: a stop lands between the release of a delivery and the end of its
  caller. They still write one at a time. Every continuation is safe if and only if each clearing of the key sets
  finds the callers of prompts that may be delivered again finished (PromptInFlight).
- A prompt left marked as delivering that nobody writes: its failure could not be recorded, or its target went
  away after the last write. Exactly then, and it stays so until the stale sweep requeues it or its task is
  cancelled (PromptDeliveryRuns).
- A state version used twice: a crash loses mutations whose versions are taken again after the restart. No
  version is taken twice if and only if nothing takes one any more after a restart that loaded an older file
  (WorkflowHistoryProofs).
- A pending approval of a cancelled task: its lane had already finished. None is left if and only if no
  approval was pending on a finished lane (WorkflowJournals).
- A journal with wrong numbers: a caller or a stored file brings a number that is not the next one. Exactly
  then (WorkflowJournals).

## Model

| member | source | states |
|---|---|---|
| ChannelGapRuns.MarkedGapsOnly | server/browser-channels.ts:299-317 | over every run of sends, refusals, degradations, drains, binds and unbinds: what any client received on a channel since it last bound it is what waited for it then followed by everything sent since, from the start, with gaps only where a recovery marker stands; by place, every byte in order and once |
| ChannelGapRuns.FirstBinderMissesNothing | server/browser-channels.ts:461-476 | a client that binds once and before anyone else gets everything sent on the channel, from the first byte, with gaps only at markers; by place, every byte in order and once |
| ChannelGaps.MarkedGapsAreLiteral | server/browser-channels.ts:669-716 | with every byte tagged by its place in the stream, the match is literal: seen places increase, neighbours with no marker in between were sent one after the other, and nothing is missing in front of the first marker |
| ChannelGaps.NoMarkerMeansNoGap | server/browser-channels.ts:669-716 | between two points of what a client received with no marker in between lies one slice of the stream: every byte, in order, once |
| ChannelGapRuns.StepKeepsTrack | server/browser-channels.ts:531-667 | every single event keeps what the client saw plus what its queue holds in line with the stream sent so far |
| ChannelGapRuns.BindStartsLane | server/browser-channels.ts:623-645 | a bind, the first or a later one, with other subscribers or without, starts a stretch without unmarked gaps |
| ChannelGapRuns.CopyWhileRecovering | server/browser-channels.ts:461-476 | binding again while recovering keeps the lane in order if and only if the marker still leads the recovering queue and the backlog holds only control messages or calls for recovery itself |
| ChannelGapRuns.BindWithNothingWaiting | server/browser-channels.ts:461-476 | a bind that finds nothing waiting owes the client exactly what is sent from then on |
| ChannelGapRuns.OwedGrows | server/browser-channels.ts:623-645 | without another bind, what a client is owed only grows by what is sent |
| ChannelGaps.SendToKeepsLane | server/browser-channels.ts:669-716 | a send to a subscriber, accepted, refused, queued or dropped in recovery, keeps the lane free of unmarked gaps |
| ChannelGaps.FlushKeepsLane | server/browser-channels.ts:531-575 | a flush, cut short or not, keeps the lane free of unmarked gaps and clears the recovery flag only when the queue is empty |
| ChannelGaps.ControlJoinsRecovery | server/browser-channels.ts:392-418 | a control message joining a recovering queue leaves the waiting marker in place exactly when the queue with it fits the byte limit |
| ChannelEviction.LaneSurvivesExactly | server/browser-channels.ts:370-390 | whatever is sent to a subscriber, its lane stays free of unmarked gaps if and only if the message does not evict the only marker: one that waits, with no marker received since the last data |
| ChannelEviction.MarkerSurvivesExactly | server/browser-channels.ts:370-390 | the waiting marker survives a control message if and only if the message fits the byte limit |
| ChannelEviction.EvictedMarkerHidesLoss | server/browser-channels.ts:224-234 | a run under the default limits that loses a byte with no marker once the guard is broken |
| ChannelLoss.LossIsSeen | server/browser-channels.ts:370-390 | the other half: after every run that kept the only marker, a message that evicts it has a continuation in which the client sees a gap with no marker |
| ChannelGapRuns.CopyKeepsStream | server/browser-channels.ts:461-476 | copying the backlog to the first subscriber hands over exactly the queued stream |
| ChannelScheduling.NoStrandedQueue | server/browser-channels.ts:577-621 | no stranded queue: a flagged queue is non-empty, a non-empty queue of a subscriber is on the drain list, a non-empty drain list has its timer armed, byte counts are exact; after any run, for every client and channel |
| ChannelScheduling.NoStrandedQueueFromStart | server/browser-channels.ts:577-667 | the same from an empty server, spelled out |
| ChannelScheduling.EnqueueWithinLimits | server/browser-channels.ts:420-445 | after a live enqueue a queue that is not in recovery is within every degradation limit |
| ChannelScheduling.DrainWithinLimits | server/browser-channels.ts:577-621 | so is a queue that a drain pass leaves non-empty |
| ChannelScheduling.PumpCountsBytes | server/browser-channels.ts:531-575 | what a flush sends and what it leaves add up: the remaining byte count stays exact |
| ChannelQueues.AppendKeepsStream | server/browser-channels.ts:195-222 | coalescing keeps the byte stream and the place of every control message, and the byte count |
| ChannelQueues.AppendRespectsCoalesceLimit | server/browser-channels.ts:195-222 | a merged message stays within the coalescing limit |
| ChannelQueues.TokensSplit | server/browser-channels.ts:177-187 | the client-visible stream of a queue splits wherever the queue does |
| ChannelQueues.CreatedTokens | server/browser-channels.ts:146-156 | a queued message carries exactly its payload |
| ChannelQueues.TrimShape | server/browser-channels.ts:224-234 | trimming drops whole messages from the front, and something exactly when the queue is over the limit with more than one message |
| ChannelQueues.TrimDropsShortestPrefix | server/browser-channels.ts:224-234 | the dropped prefix is the shortest that brings the queue under the limit |
| ChannelQueues.TrimPendingQueueToMaxBytes | server/browser-channels.ts:224-234 | the shift loop computes that trim and reports whether anything was dropped |
| ChannelFrames.BuildBinaryChannelFrame | server/channel-frames.ts:34-50 | a frame exists exactly for UUID channel ids and well-formed data, and parsing it returns the id and the bytes put in |
| ChannelManager.OrderIsPermutation | server/browser-outbound-lanes.ts:47-80 | the drain order is a permutation of the waiting channels with the focused ones first |
| ChannelManager.SplitIsPartition | server/browser-outbound-lanes.ts:47-80 | splitting by focus loses and repeats no channel |
| ChannelManager.BrowserChannelManager.MarkClientChannelRecoveryRequired | server/browser-channels.ts:299-317 | in place: the queue becomes the single marker and the client is flagged, once |
| ChannelManager.BrowserChannelManager.MarkPendingChannelRecoveryRequired | server/browser-channels.ts:292-297 | in place: the backlog becomes the single marker |
| ChannelManager.BrowserChannelManager.MaybeDegradeClientQueue | server/browser-channels.ts:420-445 | in place: a queue over a limit becomes the marker, any other stays |
| ChannelManager.BrowserChannelManager.AppendPendingMessage | server/browser-channels.ts:392-418 | append or coalesce, with the byte count adjusted |
| ChannelManager.BrowserChannelManager.QueueChannelMessagePerChannel | server/browser-channels.ts:352-368 | in place: the backlog of a channel without subscribers grows, is trimmed, and turns into the marker on overflow |
| ChannelManager.BrowserChannelManager.QueueChannelMessagePerClient | server/browser-channels.ts:370-390 | in place: the per-client queue, recovery and degradation included |
| ChannelManager.BrowserChannelManager.SendQueued | server/browser-channels.ts:531-575 | the send loop hands over a prefix of the queue and stops at the first refusal or at the budget |
| ChannelManager.BrowserChannelManager.FlushPendingChannelMessages | server/browser-channels.ts:531-575 | in place: sent messages leave the queue, a dead client is cleaned up |
| ChannelManager.BrowserChannelManager.SendToSubscriber | server/browser-channels.ts:669-716 | in place: one subscriber of a send |
| ChannelManager.BrowserChannelManager.SendChannelMessage | server/browser-channels.ts:669-716 | in place: a whole send, over all subscribers, with the drain scheduled if anything was left; no queue is stranded by it |
| ChannelManager.BrowserChannelManager.OrderChannelsForDrain | server/browser-outbound-lanes.ts:47-80 | the ordering loop computes the specified order and advances the rotation |
| ChannelManager.BrowserChannelManager.DrainOneChannel | server/browser-channels.ts:577-621 | in place: one channel of a drain pass over all its subscribers |
| ChannelManager.BrowserChannelManager.BackpressureDrainTimerFires | server/browser-channels.ts:577-621 | in place: a drain pass, re-armed while channels are left; no queue is stranded by it |
| ChannelManager.BrowserChannelManager.BindChannel | server/browser-channels.ts:623-645 | in place: subscription, backlog copy or recovery, cleanup timers; no queue is stranded by it |
| ChannelManager.BrowserChannelManager.UnbindChannel | server/browser-channels.ts:647-653 | in place: unsubscription with queue and flag removed; no queue is stranded by it |
| ChannelManager.BrowserChannelManager.CleanupSubscriber | server/browser-channels.ts:655-667 | in place: a client leaves all its channels; no queue is stranded by it |
| ChannelManager.BrowserChannelManager.Cleanup | server/browser-channels.ts:718-735 | in place: backlogs, subscriptions and the drain list go and every timer is cleared; client queues and recovery flags stay; nothing is left stranded |
| TakeoverRuns.CascadeHasOneWinner | server/browser-task-command-takeovers.ts:134-149 | the re-entrant cascade from resolving a request, applying the lease and reconciling ends quiescent, grants a task to at most one client and leaves that client in control |
| TakeoverRuns.RunsStayQuiescent | server/browser-task-command-takeovers.ts:239-252 | in every quiescent state of every run each pending request targets the current controller and was made by someone else |
| TakeoverRuns.RunsFromStart | server/browser-task-command-takeovers.ts:51-62 | the same, and exact books, for all runs of a fresh server |
| TakeoverRuns.StepConservesExactly | server/browser-task-command-takeovers.ts:254-321 | an event resolves each accepted request exactly once if and only if it does not reuse the id of a pending request |
| TakeoverRuns.AcceptConservesExactly | server/browser-task-command-takeovers.ts:300-310 | accepting a request keeps the books exactly when its id is not pending |
| TakeoverRuns.ExactlyOnce | server/browser-task-command-takeovers.ts:134-149 | every accepted request is pending or settled, and settled once, over whole runs |
| TakeoverProofs.OutcomeOfResolve | server/browser-task-command-takeovers.ts:115-149 | what one resolution may do to a task: all its other requests are closed when the lease moves |
| TakeoverProofs.GrantTakes | server/browser-control-plane.ts:357-376 | after an applied takeover the requester holds the lease and no other request for the task is pending |
| TakeoverProofs.ReconcileClears | server/browser-task-command-takeovers.ts:239-252 | reconciling a task leaves no request of it that asks somebody who is not the controller |
| TakeoverLimits.BrokenTargetTwoWinners | server/browser-task-command-takeovers.ts:80-93 | a run from a fresh server whose last event, an approval, grants the task to two clients and tells the first it was denied: the socket of the asked client is broken but not yet noticed |
| TakeoverLimits.SingleWinnerNeedsLiveTarget | server/browser-task-command-takeovers.ts:134-149 | for approvals, timeouts, acquisitions and releases alike, over all runs of a fresh server: a working socket of the asked client suffices for a single winner, and for no kind of event can that be dropped |
| TakeoverExact.OneWinnerExactly | server/browser-task-command-takeovers.ts:134-149 | with one broken socket not yet noticed, for every event in every quiescent state: no task is granted to two clients and whoever is granted one ends in control of it, if and only if the event fits, a condition on the requests pending before it |
| TakeoverExact.FewerThanThree | server/browser-task-command-takeovers.ts:134-149 | when every client asks for the task once, granting a request that asks the client with the broken socket has a single winner if and only if fewer than three requests for the task are pending |
| TakeoverExact.KeepsMeansFew | server/browser-task-command-takeovers.ts:226-252 | the first winner keeps the task if and only if at most one other client asks for it |
| TakeoverExact.AcquireMeansFew | server/browser-task-command-takeovers.ts:239-252 | an acquisition has a single winner if and only if the acquiring client is not among the first two that ask or few enough ask: two, or three where it asks first for another action or second for the same |
| TakeoverExact.OneWinnerExactlyAfterRuns | server/browser-task-command-takeovers.ts:134-149 | the same exact condition after every run of a fresh server, once one socket has broken |
| TakeoverFates.ReconcileFates | server/browser-task-command-takeovers.ts:239-252 | reconciling a task around a broken socket ends as the cascade over the other requests in their order: whoever is told first meets the socket, and the cleanup decides the rest |
| TakeoverFates.ResolveFates | server/browser-task-command-takeovers.ts:134-149 | so does granting a request, and the broken socket is found |
| TakeoverFates.CleanupSweeps | server/browser-task-command-takeovers.ts:226-237 | cleaning up after the client with the broken socket goes through the requests for a task in their order: those that ask for the lease as it stands are granted, and the first that moves the lease closes the rest |
| TakeoverClaims.LapseIsTheOnlyException | server/browser-task-command-takeovers.ts:207-224 | over every run, the client asked by a pending request controls the task unless its lease lapsed unannounced since the request was accepted and it did not acquire it again; then, and only then, nobody does |
| TakeoverClaims.StepKeepsClaim | server/browser-task-command-takeovers.ts:207-252 | what each event does to the lease under a request that stays pending: lost to an unseen lapse, regained by an acquisition of the asked client, otherwise unchanged |
| TakeoverClaims.LapsedRequestHangs | server/browser-task-command-takeovers.ts:207-224 | a run that gets there: the accepted request stays pending with nobody in control |
| TakeoverLimits.BothSidesAreTold | server/browser-task-command-takeovers.ts:80-93 | both sides hear the same decision, and a granting one only if the requester is then in control |
| TakeoverArbiter.TaskCommandTakeovers.ResolveRequest | server/browser-task-command-takeovers.ts:134-149 | in place: remove, apply, recheck, notify; re-entrant through the lease change |
| TakeoverArbiter.TaskCommandTakeovers.ApplyApprovedTakeover | server/browser-control-plane.ts:357-376 | in place: the lease is taken and announced |
| TakeoverArbiter.TaskCommandTakeovers.ReconcileTask | server/browser-task-command-takeovers.ts:239-252 | in place: the loop over a snapshot of the pending requests of a task |
| TakeoverArbiter.TaskCommandTakeovers.CleanupRequestsForClient | server/browser-task-command-takeovers.ts:226-237 | in place: all requests by or to a client are resolved |
| TakeoverArbiter.TaskCommandTakeovers.RequestTakeover | server/browser-task-command-takeovers.ts:254-321 | in place: refused, approved at once or accepted with a timer; what that sets off has one winner and ends quiescent |
| TakeoverArbiter.TaskCommandTakeovers.RespondTakeover | server/browser-task-command-takeovers.ts:323-336 | in place: only the asked client may answer; with its socket working the whole cascade has one winner, in control at its end, and ends quiescent |
| TakeoverArbiter.TaskCommandTakeovers.RequestTimesOut | server/browser-task-command-takeovers.ts:151-185 | in place: the timeout decision from presence and controller, with the same guarantee |
| TakeoverArbiter.TaskCommandTakeovers.ClientDisconnects | server/browser-control-plane.ts:391-395 | in place: disconnecting resolves the requests and keeps the leases; a task granted along the way has one winner |
| PersistenceProofs.NoLostUpdate | electron/coordinator/persistence-scheduler.ts:79-126 | before stop any mutation not on disk is covered by the dirty flag with an armed timer, a queued save or a running save that has it; nothing pending means the disk is current |
| PersistenceProofs.SavesNeverOverlap | electron/coordinator/persistence-scheduler.ts:79-100 | at most one save is at work and the version on disk never goes back |
| PersistenceProofs.NothingBehindFinalSave | electron/coordinator/persistence-scheduler.ts:140-155 | after stop no save is queued behind the final one, and if it succeeded the disk has all that existed at stop |
| PersistenceProofs.StopEndsTheChain | electron/coordinator/persistence-scheduler.ts:140-155 | the same for a stop in any reached state |
| PersistenceProofs.QuietAfterStop | electron/coordinator/persistence-scheduler.ts:140-171 | in every reached state, once a stopped scheduler has nothing pending: degraded tells exactly whether the final save failed, not degraded means the disk has all that existed at stop, and the disk has it if and only if the final write landed or there was nothing to write |
| PersistenceProofs.FailedFinalSaveIsNotRetried | electron/coordinator/persistence-scheduler.ts:61-77 | stopping in any quiet reached state with a final save that fails without landing ends with nothing pending and the disk behind exactly if there was something to save |
| PersistenceProofs.DebounceBounds | electron/coordinator/persistence-scheduler.ts:102-126 | without failed saves the first unsaved mutation reaches a save within the maximum interval however long the burst, and timer-driven saves keep their distance |
| PersistenceProofs.DebounceBoundsFromStart | electron/coordinator/persistence-scheduler.ts:102-126 | the same from the start |
| PersistenceProofs.StepKeepsInv | electron/coordinator/persistence-scheduler.ts:28-155 | every event keeps the chain serialized, the disk monotone and nothing forgotten |
| PersistenceScheduler.CoordinatorPersistenceScheduler.SchedulePersist | electron/coordinator/persistence-scheduler.ts:113-126 | in place, before stop: the timer ends armed, no later than the debounce from now and no later than the maximum interval after the first unsaved mutation; the scheduler invariant is kept |
| PersistenceScheduler.CoordinatorPersistenceScheduler.OnTimer | electron/coordinator/persistence-scheduler.ts:102-111 | in place: unsaved changes have a save queued behind the chain, and whatever is not on disk stays covered |
| PersistenceScheduler.CoordinatorPersistenceScheduler.RunSave | electron/coordinator/persistence-scheduler.ts:79-100 | in place: a save joins the end of the chain, the saves before it untouched, and the chain stays serialized |
| PersistenceScheduler.CoordinatorPersistenceScheduler.FlushNow | electron/coordinator/persistence-scheduler.ts:128-138 | in place: a save now, or the final save if stopped |
| PersistenceScheduler.CoordinatorPersistenceScheduler.Stop | electron/coordinator/persistence-scheduler.ts:140-155 | in place: the final save, once |
| PersistenceScheduler.CoordinatorPersistenceScheduler.RecordSaveFailure | electron/coordinator/persistence-scheduler.ts:61-77 | in place: degraded; before stop the changes are dirty again with a timer after the backoff, so nothing is forgotten; after stop there is no retry |
| PersistenceScheduler.CoordinatorPersistenceScheduler.GetHealth | electron/coordinator/persistence-scheduler.ts:157-171 | a report of nothing pending means the disk is current before stop, and after stop, if not degraded, that it has all that existed at stop |
| RuntimeTurnProofs.OwnersAreExclusive | server/coordinator-runtime-loader.ts:122-217 | over any number of loaders, cancellations and failures at most one loader holds owners, and a turn resolves only if all earlier turns resolved |
| RuntimeTurnProofs.RejectedTurnBlocksLaterLoaders | server/coordinator-runtime-loader.ts:158-200 | a failed cleanup or rollback blocks every later initialisation |
| RuntimeTurnProofs.ReleasesExactlyWhatWasAcquired | server/coordinator-runtime-loader.ts:64-116 | a cleanup or rollback releases exactly the acquired owners, each once, persistence last |
| RuntimeTurnProofs.PersistenceNeverRefused | electron/coordinator/service.ts:265-275 | the previous-owner error, and the silent sharing, are unreachable for loaders created this way |
| RuntimeTurnProofs.StepKeepsInv | server/coordinator-runtime-loader.ts:128-217 | every event keeps the loaders in turn order |
| RuntimeLoaders.CoordinatorRuntimeLoaders.StartSerializedLoad | server/coordinator-runtime-loader.ts:128-156 | in place: a loader waits for the previous turn and becomes the next previous turn |
| RuntimeLoaders.CoordinatorRuntimeLoaders.ResumeAfterPrior | server/coordinator-runtime-loader.ts:158-167 | in place: a loader imports only once all earlier turns resolved and nobody holds an owner, and passes a rejection on |
| RuntimeLoaders.CoordinatorRuntimeLoaders.StartPersistence | electron/coordinator/service.ts:265-310 | in place: the single-owner rule |
| RuntimeLoaders.CoordinatorRuntimeLoaders.InitializeOwners | server/coordinator-runtime-loader.ts:86-116 | in place: the factory calls up to the one that throws; what was acquired is held, and at most one loader holds owners |
| RuntimeLoaders.CoordinatorRuntimeLoaders.FinishPhase | server/coordinator-runtime-loader.ts:64-84 | in place: when the turn settles everything acquired was released; a resolved turn holds nothing; at most one loader holds owners |
| RuntimeTurnProofs.SettledTurnsStand | server/coordinator-runtime-loader.ts:138-152 | a settled turn is never overturned, over every run |
| PromptDeliveryRuns.OneDeliveryPastTheWait | electron/coordinator/prompt-delivery.ts:473-502 | in every interleaving at most one delivery per target is past its chain wait |
| PromptDeliveryRuns.ReservationsWithinCaps | electron/coordinator/prompt-delivery.ts:111-152 | the reserved targets never exceed the global and the per-run cap |
| PromptDeliveryRuns.ReservedExactlyWhileUnreleased | electron/coordinator/prompt-delivery.ts:494-501 | a target is reserved exactly while it has an unreleased delivery |
| PromptDeliveryRuns.RepeatedChecksAlwaysPass | electron/coordinator/prompt-delivery.ts:622-632 | the active check and the capacity check made again at a turn never fail |
| PromptDeliveryRuns.ShutdownDrains | electron/coordinator/prompt-delivery.ts:428-448 | when a stop has resolved the chain map is empty and every delivery released |
| PromptDeliveryRuns.NothingStartsUntilRestart | electron/coordinator/prompt-delivery.ts:504-510 | after a stop nothing is admitted, and after it resolved nothing moves, until a restart |
| PromptDeliveryRuns.DrainIsNeverStuck | electron/coordinator/prompt-delivery.ts:439-447 | while a target is reserved some delivery can take a step |
| PromptDeliveryRuns.DeliveredOnceAndForAll | electron/coordinator/prompt-delivery.ts:704-727 | no prompt is recorded delivered twice, and delivered prompts stay delivered |
| PromptDeliveryRuns.SweepSparesWriters | electron/coordinator/prompt-delivery.ts:320-351 | the stale sweep never requeues a prompt that is being written |
| PromptDeliveryRuns.DeliveringIsOwned | electron/coordinator/prompt-delivery.ts:673-758 | a prompt marked as delivering is being written, over every run without an unrecorded failure or a target lost after the last write |
| PromptDeliveryRuns.FinishOrphansExactly | electron/coordinator/prompt-delivery.ts:704-741 | the end of a write leaves its prompt marked as delivering if and only if it is one of those two |
| PromptDeliveryRuns.OrphaningFinishLasts | electron/coordinator/prompt-delivery.ts:704-741 | after such an end, in every reached state and over every run without a sweep or a cancellation that hits it, the prompt stays marked as delivering with nobody writing it |
| PromptDeliveryRuns.OrphanWaits | electron/coordinator/prompt-delivery.ts:320-351 | an orphaned prompt stays orphaned until the stale sweep requeues it or its task is cancelled |
| PromptInFlight.PromptInFlightOnce | electron/coordinator/prompt-delivery.ts:523-538 | a prompt has one delivery in flight at a time, over every run in which each clearing of the key sets finds the callers of prompts that may be delivered again finished |
| PromptInFlight.InFlightOnceExactly | electron/coordinator/prompt-delivery.ts:523-538 | after any such run and one more event: no continuation of that kind reaches two deliveries in flight if and only if that event clears safely too |
| PromptInFlight.UnsafeClearSchedulesTwice | electron/coordinator/prompt-delivery.ts:435-448 | every unsafe clearing has a continuation with two deliveries of one prompt in flight |
| PromptInFlight.ClearKeepsOnceExactly | electron/coordinator/prompt-delivery.ts:435-448 | a clearing keeps the one-in-flight invariant if and only if it is safe |
| PromptInFlight.LateEndSchedulesTwice | electron/coordinator/prompt-delivery.ts:435-438 | a run from the start with two deliveries of one prompt in flight |
| PromptDeliveryRuns.TargetTextsAreFaithful | electron/coordinator/prompt-delivery.ts:93-123 | joined keys and the prefix test identify targets and runs when run ids hold no colon |
| PromptDeliveryProofs.StepKeepsInv | electron/coordinator/prompt-delivery.ts:395-539 | every event keeps chains, caps, keys, shutdown and completion records |
| PromptDelivery.PromptDeliveryLoop.CountReservedTargets | electron/coordinator/prompt-delivery.ts:111-123 | the counting loop counts the reserved targets of a run, or all |
| PromptDelivery.PromptDeliveryLoop.HasDeliveryCapacity | electron/coordinator/prompt-delivery.ts:141-152 | both caps, with a target left out or not |
| PromptDelivery.PromptDeliveryLoop.DeliverWithAdmission | electron/coordinator/prompt-delivery.ts:504-539 | in place: the admission checks in order, then a place on the chain; at most one delivery per target stays past its wait, within the caps |
| PromptDelivery.PromptDeliveryLoop.BeginDelivery | electron/coordinator/prompt-delivery.ts:550-671 | in place: the turn of a delivery up to its first write; at most one delivery per target is past its wait |
| PromptDelivery.PromptDeliveryLoop.FinishDelivery | electron/coordinator/prompt-delivery.ts:673-758 | in place: the end of a write sequence with its failure paths; at most one delivery per target stays past its wait |
| PromptDelivery.PromptDeliveryLoop.ReleaseLifecycleOwner | electron/coordinator/prompt-delivery.ts:494-501 | in place: the chain entry goes unless a later delivery took it over, and still at most one delivery per target is past its wait |
| PromptDelivery.PromptDeliveryLoop.StopDeliveryLoop | electron/coordinator/prompt-delivery.ts:428-448 | in place: admission closes and the reserved deliveries are waited for |
| PromptDelivery.PromptDeliveryLoop.CancelPromptsForTask | electron/coordinator/runtime.ts:954-975 | in place: the loop cancels every pending prompt of a target |
| ControlLaneProofs.HoleFreeBroadcasts | server/browser-control-plane.ts:300-316 | the broadcasts handed to a socket are always a prefix of those queued for it, in order and once; while connected the rest are waiting in the delayed queue and the batch |
| ControlLaneProofs.FirstInFirstOut | server/browser-control-delayed-sends.ts:315-335 | everything accepted for a client is handed over in order: the direct path never overtakes a delayed queue |
| ControlLaneProofs.DelaysAndBytes | server/browser-control-delayed-sends.ts:272-313 | due times never decrease, nothing is sent before it is due, the byte count is exact and at most 1 MiB |
| ControlLaneProofs.WaitingMeansTimed | server/browser-control-delayed-sends.ts:201-229 | a waiting batch and a waiting delayed entry always have their timer armed |
| ControlLaneProofs.AmortisedDequeue | server/browser-control-delayed-sends.ts:96-111 | compaction copies no more entries over a run than were dequeued and keeps fewer consumed slots than 1024 or the live depth |
| ControlLaneProofs.TakeLive | server/browser-control-delayed-sends.ts:96-111 | dequeuing removes the first live entry and nothing else, compacted or not |
| ControlLaneProofs.DrainFromKeepsCore | server/browser-control-delayed-sends.ts:231-270 | a drain, ended by a due time, backpressure, failure or emptiness, keeps order and accounting and re-arms |
| ControlLaneProofs.FlushKeepsInv | server/browser-send-queue.ts:39-67 | a batch flush, cut short or not, keeps order and leaves nothing in the batch |
| ControlLaneClient.ControlLaneForClient.FlushClientBatch | server/browser-send-queue.ts:39-67 | in place: the flush loop, with the batch replaced at its end |
| ControlLaneClient.ControlLaneForClient.QueueBroadcast | server/browser-send-queue.ts:69-90 | in place: push and arm |
| ControlLaneClient.ControlLaneForClient.SendNow | server/browser-control-delayed-sends.ts:163-199 | in place: closed, backpressure, failed or handed over |
| ControlLaneClient.ControlLaneForClient.QueueDelayedSend | server/browser-control-delayed-sends.ts:272-313 | in place: refused over the limit or queued with a due time no earlier than its predecessor |
| ControlLaneClient.ControlLaneForClient.SendSafely | server/browser-control-delayed-sends.ts:315-326 | in place: direct or delayed |
| ControlLaneClient.ControlLaneForClient.TakeQueueHead | server/browser-control-delayed-sends.ts:96-111 | in place: the moving head and the occasional copy |
| ControlLaneClient.ControlLaneForClient.DrainDelayedQueue | server/browser-control-delayed-sends.ts:231-270 | in place: the drain loop with all its exits |
| ControlLaneClient.ControlLaneForClient.CleanupClient | server/browser-control-plane.ts:452-474 | in place: teardown of both queues |
| ControlLaneClient.ControlLaneForClient.BatchTimerFires | server/browser-send-queue.ts:39-67 | in place, a turn of the event loop: what was accepted is handed over or still waits behind it, in order; due times, bytes and timers stay right |
| ControlLaneClient.ControlLaneForClient.DelayTimerFires | server/browser-control-delayed-sends.ts:231-270 | in place, the same for the drain of the delayed queue |
| ControlLaneClient.ControlLaneForClient.SendsDirect | server/browser-control-delayed-sends.ts:315-326 | in place, the same for a direct send: it does not overtake the delayed queue |
| ControlLaneClient.ControlLaneForClient.Disconnects | server/browser-control-plane.ts:452-474 | in place: nothing waits any more, and what was handed over is the start of what was accepted |
| WorkflowRestore.RestoredRunIsAtRest | electron/coordinator/runtime.ts:468-553 | after restore nothing has a live status of the restored lists, no approval is pending and no prompt is deliverable or requeued |
| WorkflowRestore.RestoreIsIdempotent | electron/coordinator/runtime.ts:468-553 | restoring again changes only the time of the last tick |
| WorkflowRestore.RestoreWorkflowTwice | electron/coordinator/runtime.ts:519-553 | the same for one workflow, budget and execution summary included |
| WorkflowRestore.ExecutionIsStable | electron/coordinator/runtime.ts:1099-1149 | recomputing the execution summary from itself changes only its tick |
| WorkflowRestore.RestoredSummaryIsIdle | electron/coordinator/runtime.ts:1099-1149 | a restored workflow has nothing active, nothing ready and no planned lanes, and retries only lanes it has |
| WorkflowJournals.RestoreNumbers | electron/coordinator/runtime.ts:519-553 | restore leaves a journal numbered 1..n if and only if no stored number was wrong |
| WorkflowJournals.ExplicitNumberMustBeNext | electron/coordinator/runtime.ts:1287-1317 | appending keeps the numbering if and only if no number was given or the next one was |
| WorkflowHistoryProofs.JournalsStayNumbered | electron/coordinator/runtime.ts:998-1053 | every journal, in memory and in the saved file, is numbered 1..n through creation, appends, approval and lane cancellation, saves and restarts |
| WorkflowHistoryProofs.HistoriesFromStart | electron/coordinator/runtime.ts:1168-1317 | the same from an empty record; no two workflows share a version; with clean restarts the counter never goes back |
| WorkflowHistoryProofs.VersionsAreFreshExactly | electron/coordinator/runtime.ts:357-360 | after any history of mutations, saves and restarts from the saved file, a mutation takes only versions never taken before if and only if the counter stands at the highest version taken; a restart leaves it there if and only if the file holds the last mutation |
| WorkflowHistoryProofs.TakenOnceExactly | electron/coordinator/runtime.ts:1949-1963 | over every history: no version is ever taken twice if and only if nothing takes a version any more once a restart has loaded a file older than the state it replaces |
| WorkflowHistoryProofs.CleanRestartsKeepCount | electron/coordinator/runtime.ts:1949-1963 | if every restart loads a file that holds the last mutation no version is used twice |
| WorkflowHistoryProofs.CrashReusesVersion | electron/coordinator/runtime.ts:1963 | a run in which a version lost in a crash is taken again by another workflow |
| WorkflowHistoryProofs.TaskIsClosedEverywhere | electron/coordinator/runtime.ts:1601-1697 | cancelling a task leaves no live lane of it in any workflow, no approval pending on the cancelled lanes, and one new journal entry per cancelled lane or approval |
| WorkflowHistoryProofs.StepsAppendOnce | electron/coordinator/runtime.ts:1217-1285 | appending the same step batch again changes nothing, and a completed workflow that gets steps runs again |
| WorkflowJournals.CancellationCloses | electron/coordinator/runtime.ts:1601-1697 | in one workflow: exactly the live lanes of the task are cancelled and exactly the pending approvals on them; all else is untouched |
| WorkflowJournals.OneEntryPerCancellation | electron/coordinator/runtime.ts:1663-1690 | the journal is extended by one entry per cancelled lane and one per cancelled approval |
| WorkflowJournals.LaneEntriesAreExact | electron/coordinator/runtime.ts:1667-1677 | every cancelled lane has its entry and no other lane has one |
| WorkflowJournals.StagesFollowLanes | electron/coordinator/runtime.ts:1638-1662 | a stage that loses a lane ends cancelled exactly if none of its lanes is live then, others are untouched, and the workflow is cancelled exactly if it was or any stage is |
| WorkflowJournals.FinishedLanesKeepApprovals | electron/coordinator/runtime.ts:1608-1616 | no lane of the task, finished ones included, keeps a pending approval if and only if none was pending on a finished lane |
| WorkflowJournals.ApprovalOutlivesItsTask | electron/coordinator/runtime.ts:1608-1616 | the approval of a completed lane stays pending when its task is cancelled |
| WorkflowRecord.CoordinatorRunRecord.CreateWorkflow | electron/coordinator/runtime.ts:1168-1215 | in place: a new workflow with the first journal entry |
| WorkflowRecord.CoordinatorRunRecord.AppendWorkflowSteps | electron/coordinator/runtime.ts:1217-1285 | in place: idempotent per append id, reopens a completed workflow, keeps the numbering |
| WorkflowRecord.CoordinatorRunRecord.AppendWorkflowJournal | electron/coordinator/runtime.ts:1287-1317 | in place: one entry, numbered unless the caller numbers it |
| WorkflowRecord.CoordinatorRunRecord.CancelPendingApprovals | electron/coordinator/runtime.ts:1583-1599 | in place: no version is used when nothing is pending |
| WorkflowRecord.CoordinatorRunRecord.CancelLanesForTask | electron/coordinator/runtime.ts:1601-1697 | in place: the loop over all workflows; afterwards none has a live lane of the task |
| WorkflowRecord.CoordinatorRunRecord.RestoreCoordinatorRuntimeState | electron/coordinator/runtime.ts:1949-1963 | in place: the saved workflows, each normalised by the loop, and the saved version replace what was in memory; numbering and distinct versions survive |
| PersistedState.CompactIsIdempotent | electron/coordinator/persistence.ts:321-339 | compacting a compacted state changes nothing |
| PersistedState.LiveRunsAreKept | electron/coordinator/persistence.ts:281-295 | every non-terminal run is kept, in order |
| PersistedState.PendingPromptsAreKept | electron/coordinator/persistence.ts:243-261 | no run loses a pending prompt or its order; finished runs only lose delivery journals |
| PersistedState.LaunchesExactlyForLiveRuns | electron/coordinator/persistence.ts:321-339 | a launch payload is kept if and only if its run is live |
| PersistedState.LimitsHold | electron/coordinator/persistence.ts:243-319 | finished runs are cut to exactly the cap, settled prompts and result bytes stay within theirs, and of none of them is anything newer dropped for something older |
| PersistedState.CapToolCallResultBytes | electron/coordinator/persistence.ts:297-319 | the budget loop keeps the newest results that fit and stays within the byte cap |
| Compaction.KeptAreNewer | electron/coordinator/persistence.ts:253-260 | of finished runs and settled prompts nothing newer is dropped for something older |
| Compaction.KeepNewestPicks | electron/coordinator/persistence.ts:243-261 | the survivors keep their order |
| Compaction.OthersAreKept | electron/coordinator/persistence.ts:281-295 | entries outside the capped kind are kept, all of them and in order |
| Compaction.KeepsExactlyTheLimit | electron/coordinator/persistence.ts:281-295 | the number kept is the cap, or all if there are fewer |
| Compaction.CapKeepsNewer | electron/coordinator/persistence.ts:297-319 | no newer tool result is dropped while an older one is kept |
| Compaction.CapHoldsAndIsTight | electron/coordinator/persistence.ts:303-312 | the kept results fit, and the newest dropped one did not fit with them |
| Compaction.CapIsIdempotent | electron/coordinator/persistence.ts:297-319 | capping twice is capping once |
| Compaction.SortSorts | electron/coordinator/persistence.ts:256-258 | the stable sort puts newest first and earlier first among equals |
| Compaction.SumOfKept | electron/coordinator/persistence.ts:303-318 | the bytes of the kept list are the bytes counted in sorted order |
| GraceWindow.FirstReleaseAfterAbsence | server/browser-control-plane.ts:415-426 | the first prune that takes a lease from a client after its disconnect comes exactly when it was away for 30 s without a break |
| GraceWindow.ReconnectKeepsLeases | server/browser-control-plane.ts:391-395 | however often a client drops and reconnects within the window, its leases are untouched |
| GraceWindow.PruneReleasesExactly | server/browser-control-plane.ts:415-450 | who loses a lease in a prune, both ways: away with the window over, or away without grace |
| GraceWindow.GraceIsAbsence | server/browser-control-plane.ts:536-537 | a grace entry is the time of the last disconnect of a client that is still away |
| GraceKeeper.ReconnectGrace.HandleDisconnected | server/browser-control-plane.ts:391-395 | in place: presence goes, leases stay, the window starts |
| GraceKeeper.ReconnectGrace.Authenticate | server/browser-control-plane.ts:536-537 | in place: reconnecting ends the window; only absent clients have one |
| GraceKeeper.ReconnectGrace.PruneGrace | server/browser-control-plane.ts:415-426 | in place: the loop over the disconnects |
| GraceKeeper.ReconnectGrace.PruneInactive | server/browser-control-plane.ts:415-450 | in place: both loops; whoever is connected or within the window keeps its leases and nobody else does |
| Utf8Tail.TrimUtf8BufferTail | electron/coordinator/tool-gateway.ts:1557-1584 | on valid input the longest suffix at a character boundary within the limit, itself valid, at most three bytes short; dropped and kept bytes add up |
| Utf8Tail.BoundaryIsNoContinuation | electron/coordinator/tool-gateway.ts:1571-1578 | in valid UTF-8 the boundaries are the end and the bytes that continue no character |
| Utf8Tail.CutAtBoundary | electron/coordinator/tool-gateway.ts:1580-1583 | a suffix cut at a boundary is valid UTF-8 |

## Left out

- ChannelGapRuns.MarkedGapsOnly: counts from the client's last bind; whether the backlog it was handed then joins up with what other clients received live is not promised by the original (server/browser-channels.ts:461-476).
- PersistenceProofs.DebounceBounds: speaks of runs without failed saves whose timers fire on time; a retry re-arms the timer with its own delay.
- ControlLaneProofs.HoleFreeBroadcasts: simulated packet loss is off, since a simulated drop is meant to leave a hole.
- TakeoverRuns.RunsStayQuiescent: asks for working sockets of asked clients at each granting event. That suffices; it is not needed at every event, and TakeoverExact.OneWinnerExactly tells the events apart.
- TakeoverExact.OneWinnerExactly: one broken socket at a time; with several, working sockets of the asked clients are the sufficient condition given. When the reconnect window releases all leases of an absent client the guarantee holds without a condition.
- Pending queues are values that the class replaces in its maps, not mutable records shared between maps; aliasing of a queue record is not modelled. The set of channels bound by a client is derived from the subscriber lists.
- A client in the channel, takeover and grace models is one socket or one id; several sockets of one client id are not modelled.
- Message sizes, JSON lengths and buffered bytes are parameters; what base64 text decodes to, if anything, is a parameter.
- Lease expiry by time, lease generations and the other lease rules are not part of the model; a lease is a controller per task that an acquire grants or leaves alone, and it may lapse unseen.
- Channel focus beyond the drain order, trace points, diagnostics and latency simulation do not affect the guarantees.
- Snapshot requests, replay of control events, bootstrap categories and compaction keys of the control plane.
- The bodies of the checks before a prompt is written (hints, agent session, supervision, readiness) are one verdict; the terminal writes and their delays are one outcome. A lease acquisition that throws counts as a failed write.
- Prompt records are never removed during a run; run removal and run resumption are not modelled.
- Workflow fields that no modelled function reads (titles, results, verdicts, specs, agents) and policy knobs other than the budget limits; stage and result patches change no journal and are represented by the status patch.
- WorkflowHistory follows the workflows of one run; mutations of anything else only take versions.
- Lane ids are not assumed distinct; a cancelled id cancels every lane that carries it, as the original does.
- The executor that advances workflows, tool payload validation, authentication, HTTP and file formats.
- Salvage and quarantine of damaged state files.
