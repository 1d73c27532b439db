# A verified model of the pane and coding-agent daemon

The repository is a daemon that owns terminal panes (in Zellij) and the coding agents that run in
them. It holds several protocols behind locks. This Dafny project models those protocols and proves
what they promise over whole runs. `dafny verify dfyconfig.toml` checks everything.

How the model is built:

- A section that runs under one lock is one atomic step. Time is an integer. The outside world (the
  observer and sender of a queue, the database, Zellij, timers, other processes) answers anything:
  its answers are parameters, or steps that may come at any time.
- What the source does by changing fields is a class whose methods are proved against specification
  functions on values; what the protocol promises is proved about those functions over every run.
- What every step decides is stated once more, case by case, in terms of the answers from the
  outside alone; classes that call the outside keep a list of their calls and answers for that.
- A crash picks how many of the enqueued changes reached the database.

The parts:

- **Follow-up delivery**: `FollowupQueue` (the operations), `FollowupService` (the entry as an
  object), `FollowupDecisions` and `FollowupEdits` (what every scan and edit decides, case by case),
  `FollowupTexts` (the agent is sent what was asked for), `FollowupCoherence`, `FollowupDelivery`, `FollowupSteps`, `FollowupRuns` and
  `FollowupHistory` (at most one delivery, no overlapping work, coherence), `PaneInput` (the
  observation and the guarded input call), and `PersistenceWriter` with `FollowupPersistence` (the
  FIFO writer, and what a restart can read).
- **Agent monitor**: `AgentMonitor`, `AgentMonitorDecisions`, `AgentMonitorSafety`, `AgentMonitorRuns`,
  `AgentMonitorService`.
- **Pane registry**: `PaneRegistry`, `PaneRegistryDecisions`, `PaneRegistryInvariant`, `PaneRegistryOperations`,
  `PaneRegistryRows`, `PaneRegistrySaves`, `PaneRegistryRuns`, `PaneRegistryService`, and
  `PaneReconcile`, its client.
- **Tickets**: `TicketSlots`, `TicketManager`, `TicketCalls` (what the answers make of a slot),
  `TicketManagerLoop`, `TicketStore`.
- **Runtime**: `FrameChannel`, `PaneCreation`, `ExecutionPlan`, `AgentOwnership`,
  `AgentOwnershipDecisions`, `AgentOwnershipService`, `VoiceQueue`, `VoiceService`.
- **Screens and texts**: `PromptStyle`, `PromptStyleMeaning`, `EmptyPrompt`, `EmptyPromptMeaning`, `ShellQuoting`, `TextOrder`,
  `AgentHierarchy`, `AgentDashboard`, `DashboardHierarchyRoots`, `DashboardPanels`,
  `DashboardGroups`, `DashboardHeadings`.
- `Basics` holds what several parts share.

Three things that the code does not keep, with the exact condition under which it does:

- `UpdatePaneStatusGeneration` (internal/registry/registry.go:258-284) writes over terminal statuses,
  as `SendInput` does after a failed call (internal/runtime/service.go:624-632). If it revives a pane
  beside a live one with the same Zellij ID, the saved rows are refused by the next restart:
  `PaneRegistryOperations.StatusUpdateKeepsIff`, `PaneRegistryRuns.RevivalStopsRestarts`,
  `PaneRegistryRuns.RevivalHappens`.
- `Next` sorts creation times as text (internal/ticketworker/store.go:300-306), and the stored format
  drops trailing zeros. Of two tickets the earlier one is claimed first if and only if they are of
  different seconds or its fraction is no prefix of the later one's:
  `TicketStore.ClaimOrderIsTimeOrderIff`, `TicketStore.WholeSecondComesLast`.
- A ticket can be left in progress without a slot. Apart from a claim that was committed but
  answered an error, it happens if and only if a slot that holds the ticket completed is released after the manager has claimed the ticket once more, which the duplicate
  check sees and ignores (internal/ticketworker/manager.go:365-369), and nobody has moved the ticket
  since that claim: `TicketManagerLoop.Manager.LostIffReclaimed`, and `Manager.Run` for whole lives.
  `TicketManager.ReopenedTicketIsLost` gives the calls that lead there. Pane capacity is not affected.

## Model

| member | source | states |
|---|---|---|
| `FollowupRuns.AtMostOnceInOrder` | internal/followup/service.go:334-368 | Over every run of scans, edits, failed or late saves, crashes and restarts, two sends that may have reached the agent are of two different items, the later one further down the queue: no item is delivered twice. |
| `FollowupRuns.NeverRequeued` | internal/followup/service.go:346-368 | After a send that may have reached the agent its item is queued neither in memory nor in any queue that a restart may find, before or after recovery. |
| `FollowupRuns.NoOverlap` | internal/followup/service.go:286-315 | Between two possible deliveries the first one's work was observed (a counted working transition after the baseline, in the same epoch and not before the attempt) and then a newer ready prompt, or the operator settled it and then resumed the queue. |
| `FollowupRuns.RunKeeps` | internal/followup/service.go:259-369 | Every finite run of legal operations keeps the delivery invariant of memory and of every saved queue. |
| `FollowupRuns.ReachableOk` | internal/followup/service.go:40-78 | Every reachable state satisfies that invariant. |
| `FollowupRuns.RestartKeeps` | internal/followup/service.go:60-78 | A crash, a load of any prefix of the saves that covers the acknowledged ones, and recovery keep it. |
| `FollowupRuns.PerformKeeps` | internal/followup/service.go:111-369 | One operation keeps it at each of its outside calls, so the daemon may die between any two of them. |
| `FollowupRuns.Meaning` | internal/followup/service.go:286-315 | What the accounting of open work says is what the trace of outside calls shows. |
| `FollowupRuns.MeaningStep` | internal/followup/service.go:286-315 | One more outside call leaves the accounting truthful. |
| `FollowupRuns.DeliveryRemembered` | internal/followup/service.go:353-363 | Every possible delivery in the trace is among the deliveries that the invariant speaks of. |
| `FollowupHistory.SendsAreGrounded` | internal/followup/service.go:334-353 | Every send of every run rests on a saved and acknowledged claim of that very item. |
| `FollowupHistory.EveryQueueIsCoherent` | internal/followup/service.go:111-369 | In memory and in every queue that a restart may load, phase, active ID and item states agree, and at most 101 items are pending. |
| `FollowupHistory.RestartKeepsItems` | internal/followup/service.go:60-78 | A crash loses no item that an acknowledged save holds, adds none, and reorders none. |
| `FollowupHistory.StepLasting` | internal/followup/service.go:259-369 | A scan sends only on durable claims, keeps all items and their order, and never changes the owner. |
| `FollowupHistory.UpdateEntryLasting` | internal/followup/service.go:135-210 | An edit sends nothing, keeps all items and their order, and at most appends the new one. |
| `FollowupHistory.ClaimLasting` | internal/followup/service.go:334-368 | The claim is saved and acknowledged before the send, and the send follows no other save. |
| `FollowupHistory.DispatchLasting` | internal/followup/service.go:313-368 | Dispatching sends at most once, the first queued item of a queue that is not paused, on a ready observation, and only after its claim is durable. |
| `FollowupDecisions.ScanSends` | internal/followup/service.go:259-369 | A scan sends if and only if its unsaved changes are committed, the agent runs in the queue's pane and is ready, nothing is active or that is over and saved, the queue is not paused and has a queued item, the claim is committed, and the second observation runs, is ready and has the same target, epoch and revision; then it sends once, the first queued item with its text. |
| `FollowupDecisions.ScanClaims` | internal/followup/service.go:334-368 | What a claim comes to, by the answers to its save, to the second look, to the send and to the last save: the exact state of item, phase, active ID, pause and dirty mark, and every outside call in order. |
| `FollowupDecisions.ScanWhileActive` | internal/followup/service.go:286-312 | What an active delivery comes to that is not over: hold on a new epoch or on time out, work seen for the first time and saved, still waiting, or a release that is not committed. |
| `FollowupDecisions.ScanWithoutClaim` | internal/followup/service.go:313-333 | A free queue that is paused, not ready or without queued items only shows its reason. |
| `FollowupDecisions.ScanWithoutTarget` | internal/followup/service.go:271-285 | Without the agent in its pane an idle queue only says so; an active one is put on hold and that is saved. |
| `FollowupDecisions.ScanRests` | internal/followup/service.go:259-270 | Unsaved changes that cannot be committed, attention and an idle queue stop the scan with everything as it was. |
| `FollowupDecisions.LoadHolds` | internal/followup/service.go:65-76 | A restart puts exactly the queues with an outstanding delivery on hold, saves that, and fails if the save does. |
| `FollowupEdits.Adding` | internal/followup/service.go:147-169 | An Add under a new request ID appends exactly one queued item with the request's text and ID, if the text is valid and fewer than 100 items are pending; the same request again adds nothing, and another text under a known ID is refused. |
| `FollowupEdits.Rewording` | internal/followup/service.go:184-196 | An Edit gives the first item with the ID the request's text and changes nothing else; items that are not queued, unknown IDs and invalid texts are refused and change nothing. |
| `FollowupEdits.Canceling` | internal/followup/service.go:175-196 | A Cancel ends a queued item as canceled, and an uncertain delivery too, which frees the queue and leaves it paused; anything else is refused. |
| `FollowupEdits.Resolving` | internal/followup/service.go:175-183 | A Resolve ends exactly an uncertain delivery as sent, frees the queue and leaves it paused; anything else is refused. |
| `FollowupEdits.Pausing` | internal/followup/service.go:198-211 | Pause and Resume set the mark, a queue on hold cannot be resumed, and unknown actions are refused. |
| `FollowupEdits.CannotSetUp` | internal/followup/service.go:117-134 | Without a queue, and without a running agent in a pane with an owner, every edit is refused and no queue is set up. |
| `FollowupEdits.TextLimits` | internal/followup/service.go:213-218 | A text needs something visible in it and at most 65536 bytes: as many ASCII characters, and for any text at least a quarter as many. |
| `FollowupEdits.PendingAre` | internal/followup/types.go:55-63 | What counts against the limit are exactly the items that are queued, being sent or held. |
| `FollowupTexts.SentAsAsked` | internal/followup/service.go:135-211 | In every run of scans, edits, crashes and restarts, what the agent is sent as an item is the text of the last Add or Edit of that item that took effect and that no restart has lost. |
| `FollowupTexts.ScanKeepsTexts` | internal/followup/service.go:259-369 | A scan changes no item's text, in memory or in any save. |
| `FollowupTexts.EditMatches` | internal/followup/service.go:135-211 | After an edit every item, in memory and in the save, has the text asked for. |
| `FollowupTexts.RunFollows` | internal/followup/service.go:40-211 | Every run keeps memory and every save at the texts asked for at their time. |
| `FollowupCoherence.AddKeeps` | internal/followup/service.go:147-169 | Adding a new item keeps the queue coherent and within the limit. |
| `FollowupCoherence.EditKeeps` | internal/followup/service.go:184-196 | Rewording or canceling a queued item keeps it coherent. |
| `FollowupCoherence.ClaimKeeps` | internal/followup/service.go:323-337 | Claiming the first queued item leaves a coherent queue with that item active. |
| `FollowupCoherence.AttendKeeps` | internal/followup/service.go:233-240 | Putting the active delivery on hold marks that item alone. |
| `FollowupCoherence.CloseKeeps` | internal/followup/service.go:175-183 | Settling the active item frees the queue and keeps it coherent. |
| `FollowupCoherence.FinishKeeps` | internal/followup/service.go:305-311 | Releasing a finished delivery keeps it coherent. |
| `FollowupCoherence.SentKeeps` | internal/followup/service.go:363-368 | Recording a delivery keeps it coherent. |
| `FollowupCoherence.WorkingKeeps` | internal/followup/service.go:292-299 | Seeing the agent at work changes the phase alone. |
| `FollowupCoherence.RecoverKeeps` | internal/followup/service.go:65-76 | Recovery keeps every item and its place, ends in Ready or Attention, and queues nothing again. |
| `FollowupCoherence.MarkOne` | internal/followup/service.go:233-240 | Marking by ID touches the active item and no other. |
| `FollowupCoherence.PendingAfterUpdate` | internal/followup/types.go:55-63 | How one item's change of state changes the number of pending items. |
| `FollowupCoherence.PendingAfterAdd` | internal/followup/types.go:55-63 | How an appended item changes the number of pending items. |
| `FollowupSteps.StepGood` | internal/followup/service.go:259-369 | A scan is safe at each of its outside calls, whatever the outside answers. |
| `FollowupSteps.UpdateGood` | internal/followup/service.go:111-211 | An edit is safe at each of its outside calls, also when it creates the queue. |
| `FollowupSteps.LoadGood` | internal/followup/service.go:60-78 | Every queue that a restart may find is loaded safely. |
| `FollowupSteps.DispatchGood` | internal/followup/service.go:313-368 | Dispatching is safe: claim, commit, second look, send and record. |
| `FollowupSteps.RecheckGood` | internal/followup/service.go:345-351 | The second look before the send is safe. |
| `FollowupSteps.DeliverGood` | internal/followup/service.go:352-368 | Sending and what follows is safe for every outcome of the send and of the save. |
| `FollowupSteps.ClaimAfterDeliveries` | internal/followup/service.go:323-337 | A queued item stands behind everything that may have been delivered, and claiming it disturbs nothing. |
| `FollowupSteps.ProgressAtRest` | internal/followup/service.go:286-303 | With the observation taken in, the queue rests in the phase that the observation calls for. |
| `FollowupDelivery.CandidateStays` | internal/followup/service.go:175-203 | Observations and operator decisions never put a settled delivery back in doubt. |
| `FollowupDelivery.RestIsCandidate` | internal/followup/service.go:220-231 | What holds between operations may also be stored. |
| `FollowupDelivery.AttendAtRest` | internal/followup/service.go:233-240 | Putting the active delivery on hold is safe in every phase. |
| `FollowupQueue.FirstFrom` | internal/followup/service.go:139-145 | The first position from a place on that satisfies a condition, or none. |
| `FollowupQueue.IndexOf` | internal/followup/service.go:139-145 | The first item with an ID; none means that no item has it. |
| `FollowupQueue.FirstQueued` | internal/followup/service.go:323-333 | The first queued item; nothing before it is queued. |
| `FollowupService.QueueEntry.Scan` | internal/followup/service.go:259-285 | The scan moves entry and outside calls exactly as the specified step does. |
| `FollowupService.QueueEntry.ScanObserved` | internal/followup/service.go:286-333 | The part of a scan after a valid observation. |
| `FollowupService.QueueEntry.Release` | internal/followup/service.go:286-312 | The active delivery: attention, progress, timeout or release. |
| `FollowupService.QueueEntry.DispatchNext` | internal/followup/service.go:313-333 | Paused, not ready, nothing queued, or the claim of the first queued item. |
| `FollowupService.QueueEntry.ClaimAndSend` | internal/followup/service.go:334-344 | The claim is saved first; an unacknowledged claim goes to attention and sends nothing. |
| `FollowupService.QueueEntry.LookAgain` | internal/followup/service.go:345-351 | The second observation decides between unclaiming and sending; `FollowupDecisions.ScanSends` says which, and `FollowupDecisions.ScanClaims` with what end. |
| `FollowupService.QueueEntry.SendItem` | internal/followup/service.go:352-368 | The send and the three ways on: not ready, failed, delivered. |
| `FollowupService.QueueEntry.SaveQueue` | internal/followup/service.go:220-231 | Saving sets the dirty mark and clears it only on an acknowledged save. |
| `FollowupService.QueueEntry.Hold` | internal/followup/service.go:233-240 | The loop that marks the active item. |
| `FollowupService.QueueEntry.Pending` | internal/followup/types.go:55-63 | The counting loop returns the number of pending items. |
| `FollowupService.QueueEntry.Find` | internal/followup/service.go:139-145 | The search loop returns the first match or -1. |
| `FollowupService.QueueEntry.Edit` | internal/followup/service.go:135-211 | Every action of an edit, with its refusals. |
| `FollowupService.QueueEntry.AddNew` | internal/followup/service.go:147-169 | Adds an item once per request ID, within limits; `FollowupEdits.Adding` says which item. |
| `FollowupService.QueueEntry.Amend` | internal/followup/service.go:170-196 | Settles, rewords or cancels an item. |
| `FollowupService.LoadEntry` | internal/followup/service.go:65-76 | Recovery of one stored queue; a failed save stops the daemon's start. |
| `FollowupPersistence.RowIsLastSave` | internal/persistence/writer.go:248-273 | The queue's row in the tables is its last save. |
| `FollowupPersistence.RestartReadsCommittedPrefix` | internal/persistence/writer.go:192-214 | At every moment of the writer the stored row is that of the last acknowledged save or of a later one: the crash that the follow-up runs allow is the one that the writer can cause. |
| `FollowupPersistence.RestartReadsSomePrefix` | internal/persistence/writer.go:192-214 | Before any acknowledgement the row may also be the one from before the start. |
| `PersistenceWriter.RunKeeps` | internal/persistence/writer.go:275-326 | Committed, batched and pending changes together are what was enqueued, in order, in every state of every run. |
| `PersistenceWriter.StepKeeps` | internal/persistence/writer.go:173-334 | One lock-held section of a producer, of the writer or of the close keeps that. |
| `PersistenceWriter.HistoryIsSubmitted` | internal/persistence/writer.go:173-214 | The history that the writer works on is what its callers submitted, as the calls alone tell: every enqueued change in order without a waiter, and the change of each waiting caller that came in time and before the close. |
| `PersistenceWriter.NextAccepts` | internal/persistence/writer.go:173-214 | One section takes in exactly what its caller submits, and no other does. |
| `PersistenceWriter.AnsweredOnce` | internal/persistence/writer.go:328-334 | Nobody is answered twice, only submitted changes with a waiter are answered, and nil is told only for committed changes. |
| `PersistenceWriter.EveryWaiterAnswered` | internal/persistence/writer.go:275-334 | Of the submitted changes every committed waiter is told nil; once the writer has ended every other waiter has been told an error. |
| `PersistenceWriter.TablesArePrefix` | internal/persistence/writer.go:248-273 | At every moment, also after ambiguous commits, the tables are those of the first n submitted changes, for an n that covers everything acknowledged. |
| `PersistenceWriter.ReplayIsHarmless` | internal/persistence/writer.go:310-321 | Committing a batch again after an ambiguous commit changes nothing. |
| `PersistenceWriter.NoLostWakeup` | internal/persistence/writer.go:297-308 | A sleeping writer has committed everything submitted unless its wake-up is on the way. |
| `PersistenceWriter.CloseDrains` | internal/persistence/writer.go:338-356 | A writer that is closed without cancellation has committed everything that was submitted. |
| `PersistenceWriter.ServedWriterDrains` | internal/persistence/writer.go:275-326 | From every reachable state a run loop whose database accepts commits all that was submitted in finitely many sections, and then sleeps, or ends if it is closing. |
| `PersistenceWriter.TakeKeeps` | internal/persistence/writer.go:289-309 | A new batch is the front of the pending changes, at most the limit and empty only if nothing is pending; an unfinished one stays. |
| `PersistenceWriter.CommitKeeps` | internal/persistence/writer.go:310-325 | A commit that succeeds, fails or is ambiguous keeps the order. |
| `PersistenceWriter.WriterProcess.Enqueue` | internal/persistence/writer.go:173-190 | Appends the changes and signals the writer; `PersistenceWriter.HistoryIsSubmitted` says which. |
| `PersistenceWriter.WriterProcess.EnqueueAndWait` | internal/persistence/writer.go:192-214 | Appends one change with a waiter, unless the caller or the writer is done, and says whether the caller may wait. |
| `PersistenceWriter.WriterProcess.Take` | internal/persistence/writer.go:289-309 | The batch is the front of the pending changes, or the writer sleeps or ends. |
| `PersistenceWriter.WriterProcess.TryCommit` | internal/persistence/writer.go:310-325 | One try: retry, or acknowledge the whole batch in order. |
| `PersistenceWriter.WriterProcess.Answer` | internal/persistence/writer.go:328-334 | The loop answers every waiter of the batch once, in order. |
| `PersistenceWriter.WriterProcess.Finish` | internal/persistence/writer.go:278-287 | At the end batch and pending changes are all refused. |
| `PaneInput.Observe` | internal/followup/runtime.go:29-72 | An observation exists exactly when all calls for it succeed and agree; it is ready if and only if the agent is supported, its pane runs, a fresh screen shows an empty prompt, and the explanation taken after that screen is a positive, plain idle one of the same agent and pane. |
| `PaneInput.Guard` | internal/followup/runtime.go:78-88 | It passes if and only if the agent is ready under the same owner and pane, in the same epoch and with the same count of working spells. |
| `PaneInput.SendInput` | internal/runtime/service.go:594-644 | Text is typed if and only if nothing speaks against the pane, the guard passes where there is one and the pane found after it has the same owner; then once, into that pane, and the error says how it went. |
| `PaneInput.Send` | internal/followup/runtime.go:74-89 | Not ready exactly if the guard refuses, and then nothing was typed; whatever was typed was typed once, with one final newline, on an unchanged ready observation; delivered exactly if it was typed and noted. |
| `PaneInput.TargetError` | internal/runtime/service.go:646-660 | Which target an input call accepts, and the three refusals. |
| `AgentMonitorRuns.IdleIsDebounced` | internal/codingagent/monitor.go:316-377 | Working becomes plainly idle only at the deadline of a candidate or at its third tick in a row, and since the candidate began every state had plainly idle input in the same epoch. |
| `AgentMonitorRuns.CandidateHistory` | internal/codingagent/monitor.go:316-360 | Every pending candidate has a start, and exactly as many ticks since as it counts. |
| `AgentMonitorRuns.EvidenceOnlyGrows` | internal/codingagent/monitor.go:387-396 | Epochs of an agent only grow; within one epoch the revision counts exactly the transitions of the stored state into Working. |
| `AgentMonitorRuns.RevisionIsEvidence` | internal/codingagent/monitor.go:387-396 | A higher revision in the same epoch means that work started in between. |
| `AgentMonitorRuns.TokensGrow` | internal/codingagent/monitor.go:122-149 | No agent's token ever passes the counter. |
| `AgentMonitorRuns.TokenIsNeverReused` | internal/codingagent/monitor.go:122-149 | A lifecycle token is never given out again: whoever has it later is the same agent, monitored throughout. |
| `AgentMonitorRuns.TokensDiffer` | internal/codingagent/monitor.go:122-149 | At no moment do two agents have the same token. |
| `AgentMonitorRuns.PendingWaits` | internal/codingagent/monitor.go:316-331 | A pending candidate means Working, no startup grace and both idle timers set. |
| `AgentMonitorRuns.EvaluateNeverIdles` | internal/codingagent/monitor.go:298-314 | An evaluation never turns a working agent plainly idle. |
| `AgentMonitorRuns.NextIdles` | internal/codingagent/monitor.go:333-377 | Only a third tick or a deadline does. |
| `AgentMonitorRuns.NextSteps` | internal/codingagent/monitor.go:285-377 | How one event may change a candidate. |
| `AgentMonitorRuns.NextEpoch` | internal/codingagent/monitor.go:122-149 | How one event may change epoch and revision. |
| `AgentMonitorDecisions.OutputDecides` | internal/codingagent/monitor.go:165-190 | Output of the own pane is noted; past the grace an answer of detection other than none, skip or the plain idle of a working agent is stored with exactly its state, reason and rule, and a start of work is counted and timed. |
| `AgentMonitorDecisions.MetadataDecides` | internal/codingagent/monitor.go:192-221 | Titles likewise, where only an active one is evidence. |
| `AgentMonitorDecisions.GraceDecides` | internal/codingagent/monitor.go:285-296 | The end of the grace evaluates what was seen in it, if anything. |
| `AgentMonitorDecisions.TickDecides` | internal/codingagent/monitor.go:333-360 | A tick without an answer ends the candidate; another answer than plain idle, and plain idle at the third tick, is stored exactly; earlier ticks arm the next. |
| `AgentMonitorDecisions.DeadlineDecides` | internal/codingagent/monitor.go:362-377 | The deadline stores exactly what is found, or ends the candidate. |
| `AgentMonitorDecisions.OpeningDecides` | internal/codingagent/monitor.go:67-98 | Exactly a newer generation of the own pane begins an epoch: new token, nothing seen, a grace armed. |
| `AgentMonitorDecisions.ErrorDecides` | internal/codingagent/monitor.go:244-275 | An error of the own pane begins an epoch and stores Unknown with its reason. |
| `AgentMonitorDecisions.MonitoringDecides` | internal/codingagent/monitor.go:122-163 | Starting, stopping and the end of the pane change exactly that entry. |
| `AgentMonitorDecisions.StoresAnswers` | internal/codingagent/monitor.go:379-411 | No section changes the record of an agent but one it monitors, and to nothing but the answer of detection to its latest input, or to Unknown after an error. |
| `AgentMonitorDecisions.LastWorkingIsLastStart` | internal/codingagent/monitor.go:387-396 | In every run the noted time of work is that of the last counted start in the epoch; before any start there is none. |
| `AgentMonitorDecisions.NextTimesStarts` | internal/codingagent/monitor.go:387-396 | Every event counts and times a start of work exactly where the stored state goes into Working. |
| `AgentMonitorSafety.StaleCallbackDoesNothing` | internal/codingagent/monitor.go:285-296 | A callback that was stopped or replaced, however late it runs, changes nothing. |
| `AgentMonitorSafety.NextKeeps` | internal/codingagent/monitor.go:67-442 | Every event, late callbacks included, keeps the invariant of timers, tokens and candidates. |
| `AgentMonitorSafety.RunKeeps` | internal/codingagent/monitor.go:67-442 | So does every run. |
| `AgentMonitorSafety.HandleHolder` | internal/codingagent/monitor.go:285-377 | Only the entry that armed a callback, in the same epoch, can have a handle to it. |
| `AgentMonitorSafety.EvaluateKeeps` | internal/codingagent/monitor.go:298-314 | An evaluation leaves a candidate if and only if a working agent's input says plain idle, keeps one that was pending, and keeps the invariant. |
| `AgentMonitorSafety.StartKeeps` | internal/codingagent/monitor.go:122-149 | Starting the monitoring of an agent. |
| `AgentMonitorSafety.StopKeeps` | internal/codingagent/monitor.go:151-163 | Stopping it. |
| `AgentMonitorSafety.OpenedKeeps` | internal/codingagent/monitor.go:67-98 | A new pane generation starts a new epoch. |
| `AgentMonitorSafety.OutputKeeps` | internal/codingagent/monitor.go:165-190 | Pane output. |
| `AgentMonitorSafety.MetadataKeeps` | internal/codingagent/monitor.go:192-221 | Pane titles. |
| `AgentMonitorSafety.ErrorKeeps` | internal/codingagent/monitor.go:244-275 | Pane errors. |
| `AgentMonitorSafety.DropKeeps` | internal/codingagent/monitor.go:223-242 | The end of a pane. |
| `AgentMonitorSafety.GraceKeeps` | internal/codingagent/monitor.go:285-296 | The end of the startup grace. |
| `AgentMonitorSafety.TickKeeps` | internal/codingagent/monitor.go:333-360 | A confirmation tick. |
| `AgentMonitorSafety.DeadlineKeeps` | internal/codingagent/monitor.go:362-377 | The deadline. |
| `AgentMonitorService.Monitor.Begin` | internal/codingagent/monitor.go:122-149 | A new token and an entry without timers; timers of an earlier entry are stopped. |
| `AgentMonitorService.Monitor.End` | internal/codingagent/monitor.go:151-163 | Stops its timers and forgets it. |
| `AgentMonitorService.Monitor.OnPaneOpened` | internal/codingagent/monitor.go:67-98 | A newer pane generation starts a new epoch with its grace timer; any other changes nothing. |
| `AgentMonitorService.Monitor.OnPaneOutput` | internal/codingagent/monitor.go:165-190 | Output of the agent's own pane is taken in and evaluated. |
| `AgentMonitorService.Monitor.OnPaneMetadata` | internal/codingagent/monitor.go:192-221 | Titles likewise. |
| `AgentMonitorService.Monitor.OnPaneClosed` | internal/codingagent/monitor.go:223-242 | The agent's entry and record end with its pane. |
| `AgentMonitorService.Monitor.OnPaneError` | internal/codingagent/monitor.go:244-275 | An error stops all timers, starts a new epoch and leaves the state unknown. |
| `AgentMonitorService.Monitor.EvaluateEntry` | internal/codingagent/monitor.go:298-314 | Detect, and start, keep or cancel a candidate, or apply; `AgentMonitorDecisions` says what is stored. |
| `AgentMonitorService.Monitor.StartIdleCandidate` | internal/codingagent/monitor.go:316-331 | A candidate gets a new token and both timers. |
| `AgentMonitorService.Monitor.OnConfirm` | internal/codingagent/monitor.go:333-360 | A tick counts, gives up or concludes. |
| `AgentMonitorService.Monitor.OnDeadline` | internal/codingagent/monitor.go:362-377 | The deadline gives up or concludes. |
| `AgentMonitorService.Monitor.OnGraceOver` | internal/codingagent/monitor.go:285-296 | After the grace the entry is evaluated. |
| `AgentMonitorService.Monitor.UpdateAgentState` | internal/codingagent/monitor.go:387-411 | The stored state changes, and the revision counts transitions into Working. |
| `AgentMonitorService.Monitor.Run` | internal/codingagent/monitor.go:285-377 | Whatever callback the runtime runs, stopped or not; a stale one leaves agents and store alone. |
| `AgentMonitorService.Monitor.Shutdown` | internal/codingagent/monitor.go:435-442 | All timers are stopped and all entries forgotten, in any order. |
| `PaneRegistryOperations.DoKeeps` | internal/registry/registry.go:51-424 | Every operation keeps: indexes match the tree, generations are distinct, live Zellij panes are unique in their session, and the latest-pane index names the newest holder. |
| `PaneRegistryOperations.StatusUpdateKeepsIff` | internal/registry/registry.go:258-284 | The update that may overwrite a terminal status keeps live panes unique if and only if it revives no pane beside a live one with its Zellij ID. |
| `PaneRegistryOperations.RegisterInv` | internal/registry/registry.go:51-132 | A registered pane has the next generation and a free Zellij ID, and joins the panes. |
| `PaneRegistryOperations.RemoveInv` | internal/registry/registry.go:394-424 | Removal takes exactly that pane out of the tree and the indexes. |
| `PaneRegistryOperations.ReplaceInv` | internal/registry/registry.go:194-256 | A guarded rewrite changes exactly that pane. |
| `PaneRegistryOperations.HeldIff` | internal/registry/registry.go:554-571 | The uniqueness scan finds exactly the live panes of the session with the Zellij ID. |
| `PaneRegistryOperations.ResolvesAll` | internal/registry/registry.go:612-638 | Resolving by the location index finds every pane of the tree, and nothing else. |
| `PaneRegistryDecisions.RegistrationDecides` | internal/registry/registry.go:51-132 | A registration is refused exactly for a malformed request, a known ID or a Zellij pane in use; otherwise the pane asked for, with the defaults for what is left open, joins the others with the next generation, as the latest of its Zellij pane and in its session and tab. |
| `PaneRegistryDecisions.RefusalsDecide` | internal/registry/registry.go:612-638 | Unknown panes and other generations are refused, and nothing changes. |
| `PaneRegistryDecisions.StatusDecides` | internal/registry/registry.go:194-226 | A plain status update writes over any status, the other over a live one alone; exactly that pane changes. |
| `PaneRegistryDecisions.ClaimDecides` | internal/registry/registry.go:228-256 | A claim ends a live pane, keeps the status of an ended one, and is granted to the first caller alone. |
| `PaneRegistryDecisions.NotesDecide` | internal/registry/registry.go:286-365 | An instruction is noted and saved; output is noted and never saved, and not for an ended pane where only live ones count. |
| `PaneRegistryDecisions.RemovalDecides` | internal/registry/registry.go:367-424 | A removal takes exactly that pane out of the panes and the latest-pane index, and may claim its notification. |
| `PaneRegistryInvariant.AdmitKeeps` | internal/registry/registry.go:96-131 | Entering a pane extends tree and index by exactly that pane. |
| `PaneRegistryInvariant.MakeRoomKeeps` | internal/registry/registry.go:70-95 | Making a session and a tab changes no pane. |
| `PaneRegistryInvariant.ReplaceKeeps` | internal/registry/registry.go:268-284 | Rewriting a pane keeps the tree and the index. |
| `PaneRegistryInvariant.DeleteKeeps` | internal/registry/registry.go:411-424 | Deleting a pane keeps the tree and the index. |
| `PaneRegistryRows.TabStorageIdInjective` | internal/registry/persistence.go:10-12 | No two tabs share a storage key, whatever characters their names have. |
| `PaneRegistryRows.RestartSucceedsIff` | internal/registry/persistence.go:37-121 | A restart accepts the rows of a sound registry if and only if its live panes are unique. |
| `PaneRegistryRows.RoundTrip` | internal/registry/persistence.go:14-121 | Loading the rows rebuilds the tree up to what is not stored, the same location index and generation counter, and a latest-pane index that extends the old one. |
| `PaneRegistryRows.LatestAgrees` | internal/registry/persistence.go:94-103 | The rebuilt latest-pane index agrees with the old one. |
| `PaneRegistryRows.CounterAgrees` | internal/registry/persistence.go:90-118 | The rebuilt generation counter is the old one. |
| `PaneRegistrySaves.DoSaved` | internal/registry/persistence.go:14-35 | The four changes of every save may be cut short anywhere: the rows are always those of the registry before or after the operation. |
| `PaneRegistrySaves.RegisterSaved` | internal/registry/persistence.go:14-35 | So for a registration. |
| `PaneRegistrySaves.ReplaceSaved` | internal/registry/persistence.go:14-35 | So for a rewrite. |
| `PaneRegistrySaves.RemoveSaved` | internal/registry/persistence.go:14-35 | So for a removal. |
| `PaneRegistryRuns.RegistryStaysCoherent` | internal/registry/registry.go:51-424 | In every run with restarts the location index is the index of the tree, generations are distinct, and live Zellij panes are unique. |
| `PaneRegistryRuns.EveryRestartSucceeds` | internal/registry/persistence.go:37-121 | However many of the enqueued changes reached the database, a restart accepts them and has the panes of some earlier moment. |
| `PaneRegistryRuns.OneCloseNotification` | internal/registry/registry.go:228-256 | Within one daemon lifetime no generation's close notification is granted twice. |
| `PaneRegistryRuns.TerminalIsFinal` | internal/registry/registry.go:194-256 | While only guarded operations run, a terminal pane keeps its status, and its generation never comes back. |
| `PaneRegistryRuns.RevivalStopsRestarts` | internal/registry/registry.go:258-284 | An unguarded update that revives a pane beside a live one leaves rows that a restart refuses. |
| `PaneRegistryRuns.RevivalHappens` | internal/registry/registry.go:258-284 | Four calls on an empty registry that lead there. |
| `PaneRegistryRuns.RunKeeps` | internal/registry/persistence.go:14-121 | Every run keeps rows and registry in step. |
| `PaneRegistryRuns.RestartKeeps` | internal/registry/persistence.go:37-121 | A restart from any prefix does. |
| `PaneRegistryRuns.GrantsKeep` | internal/registry/registry.go:228-256 | The claim mark of a pane is set once its notification was granted. |
| `PaneRegistryService.PaneTable.RegisterPane` | internal/registry/registry.go:51-132 | Validates, checks uniqueness, numbers and enters a pane. |
| `PaneRegistryService.PaneTable.SetStatus` | internal/registry/registry.go:258-284 | Writes any status over any status. |
| `PaneRegistryService.PaneTable.SetActiveStatus` | internal/registry/registry.go:194-226 | Writes a status over a live one only. |
| `PaneRegistryService.PaneTable.Claim` | internal/registry/registry.go:228-256 | Ends a pane and grants its notification to the first caller. |
| `PaneRegistryService.PaneTable.Instruct` | internal/registry/registry.go:286-304 | Notes the last instruction of that very generation. |
| `PaneRegistryService.PaneTable.SetOutput` | internal/registry/registry.go:306-365 | Notes output without saving it. |
| `PaneRegistryService.PaneTable.RemovePane` | internal/registry/registry.go:367-424 | Removes a pane from tree and indexes, claiming or not. |
| `PaneRegistryService.PaneTable.Held` | internal/registry/registry.go:554-571 | The scan over all tabs and panes of a session. |
| `PaneRegistryService.PaneTable.Find` | internal/registry/registry.go:612-638 | The lookup through the location index. |
| `PaneRegistryService.PaneTable.Save` | internal/registry/persistence.go:14-35 | Hands the four changes to the writer in their order. |
| `PaneRegistryService.PaneTable.LoadSessions` | internal/registry/persistence.go:37-53 | Accepts exactly well-formed session rows. |
| `PaneRegistryService.PaneTable.LoadTabs` | internal/registry/persistence.go:54-69 | Accepts exactly well-formed tab rows. |
| `PaneRegistryService.PaneTable.LoadPanes` | internal/registry/persistence.go:70-93 | Accepts exactly well-formed pane rows without clashes. |
| `PaneRegistryService.PaneTable.RebuildLatest` | internal/registry/persistence.go:94-103 | Built from all panes in any order, the index names a newest pane for every Zellij ID. |
| `PaneRegistryService.PaneTable.Load` | internal/registry/persistence.go:37-121 | The whole restart: it succeeds exactly on acceptable rows, and then the table is what they describe. |
| `PaneReconcile.RegistryAgreesWithListing` | internal/runtime/reconcile.go:114-170 | After an undisturbed pass every live pane with a Zellij ID is listed, has not exited and runs; no exited pane is left; and a pane was ended only because it is not listed. |
| `PaneReconcile.ListedPaneStaysAlive` | internal/runtime/reconcile.go:139-170 | Whatever happened since the snapshot, a pane that was alive then and is listed as alive is not ended, and no other pane is touched. |
| `PaneReconcile.StaleRecordTouchesNothing` | internal/runtime/reconcile.go:114-200 | A pane that was removed or registered again since the snapshot is left alone. |
| `PaneReconcile.HeardIffGranted` | internal/runtime/reconcile.go:114-180 | Observers hear of an end exactly where the registry grants the notification. |
| `PaneReconcile.NewsAreExact` | internal/runtime/reconcile.go:114-180 | Every end that nobody was told of before is told, and told once. |
| `PaneReconcile.SettleCurrent` | internal/runtime/reconcile.go:114-170 | What one step does to a pane that has not changed since the snapshot. |
| `PaneReconcile.ReconcileRecord` | internal/runtime/reconcile.go:114-170 | One record is settled by exactly the guarded operation that the snapshot and the listing ask for. |
| `PaneReconcile.Reconcile` | internal/runtime/reconcile.go:64-91 | A pass settles every pane, reports every pane and tells each end once. |
| `PaneReconcile.Collect` | internal/runtime/reconcile.go:34-58 | The listing holds the last entry of every pane that is no plugin; a failed list ends the pass. |
| `PaneReconcile.Unmanaged` | internal/runtime/reconcile.go:93-97 | The listed panes that no record names, each once. |
| `TicketManager.CapacityIsNeverExceeded` | internal/ticketworker/manager.go:356-453 | No set of worker panes that may be alive outnumbers the slots. |
| `TicketManager.ReleaseKeeps` | internal/ticketworker/manager.go:535-576 | A slot may be emptied when its pane cannot be alive: all other panes stay accounted for. |
| `TicketManager.ReleaseKeepsTickets` | internal/ticketworker/manager.go:535-576 | What a release loses is at most the slot's ticket, and only if the slot was completed and the ticket claimed again since. |
| `TicketManager.ReleaseLosesTicketIff` | internal/ticketworker/manager.go:535-576 | A release loses its ticket if and only if the manager's claim of the ticket still stands. |
| `TicketManager.ReopenedTicketIsLost` | internal/ticketworker/manager.go:327-376 | From two empty slots on, call by call: a completed slot whose close fails, a reopened ticket, a second claim that is ignored as held elsewhere, and the release that leaves the ticket to nobody. |
| `TicketManager.ClaimKeepsTickets` | internal/ticketworker/manager.go:356-369 | What a claim took is all that may be missing after it, and a completed slot's ticket is noted as claimed again. |
| `TicketManager.RewriteKeeps` | internal/ticketworker/manager.go:356-453 | A slot that keeps its ticket and accounts for its pane may be rewritten. |
| `TicketManager.RewriteKeepsTickets` | internal/ticketworker/manager.go:535-556 | A slot may become completed when its ticket is not in progress; no claim gets lost by that. |
| `TicketManager.TakeKeeps` | internal/ticketworker/manager.go:356-372 | An empty slot may take a ticket that no slot holds; its pane cannot be alive yet. |
| `TicketManager.TakeKeepsTickets` | internal/ticketworker/manager.go:356-372 | The claimed ticket is then held. |
| `TicketManager.OnlyOwner` | internal/ticketworker/manager.go:507-512 | The slot of a pane that may be alive is the one that holds its ticket. |
| `TicketManager.AtMostOnePaneEach` | internal/ticketworker/manager.go:370-372 | Each slot names one pane, so live panes are no more than slots. |
| `TicketManager.ListedIsReal` | internal/ticketworker/manager.go:493-512 | A listed worker pane is the slot's own, alive or ended as listed. |
| `TicketManager.UnlistedIsAbsent` | internal/ticketworker/manager.go:706-733 | An unlisted one was never made, is gone, or is still on its way. |
| `TicketManager.DriftKeepsDead` | internal/ticketworker/manager.go:665-704 | A pane that cannot be alive stays so while the manager does not create it. |
| `TicketManager.LogGrows` | internal/ticketworker/manager.go:535-576 | One more release keeps the account of lost tickets exact. |
| `TicketManagerLoop.Manager.OnTick` | internal/ticketworker/manager.go:253-262 | A tick retries what is left over, reconnects a lost stream, and with a stream reads the workers' screens and then fills the empty slots; every slot comes out as the answers of its calls say. |
| `TicketManagerLoop.Manager.React` | internal/ticketworker/manager.go:243-276 | One turn of the loop for any signal, with its calls in order. |
| `TicketManagerLoop.Manager.Capacity` | internal/ticketworker/manager.go:356-453 | At every outside call of the manager's life no more panes may be alive than it has slots. |
| `TicketManagerLoop.Manager.LostIffReclaimed` | internal/ticketworker/manager.go:535-576 | At every moment: a ticket is lost if and only if its completed slot was released after the manager had claimed the ticket again, while that claim stood; and every ticket claimed again so is still held or was released. |
| `TicketManagerLoop.Manager.Run` | internal/ticketworker/manager.go:226-276 | For any signals, if every slot was given up: no worker pane may be alive; a claim stands only for lost tickets, exactly those released completed while a second claim of them stood, and for claims that failed without telling; without second claims of completed slots' tickets and such failures, none stands. All calls are those of the first fill, of the turns in their order and of the shutdown. |
| `TicketManagerLoop.Manager.Shutdown` | internal/ticketworker/manager.go:760-792 | Clean if and only if every slot was given up; then the same. Every slot is given up, or kept, exactly as the answers of its calls say. |
| `TicketManagerLoop.Manager.NothingHeld` | internal/ticketworker/manager.go:760-792 | With no slot held, nothing else is left behind. |
| `TicketManagerLoop.Manager.Release` | internal/ticketworker/manager.go:535-576 | Empties exactly that slot, notes how, and loses its ticket exactly if the claim of it stands. |
| `TicketManagerLoop.Manager.StartSlot` | internal/ticketworker/manager.go:356-421 | Nothing claimed: nothing changes and the filling stops. A ticket held elsewhere: nothing changes but the note of a second claim. Otherwise the slot works on the claimed ticket with its pane alive, or the ticket is ready again, or the slot waits for a cleanup of exactly that ticket. The calls and their answers decide which. |
| `TicketManagerLoop.Manager.Launch` | internal/ticketworker/manager.go:373-421 | Working if and only if the prompt could be made, a wanted worktree prepared and the pane created; uncertain if and only if the create failed unsafely; otherwise the ticket is given back or left for a cleanup, with no pane. |
| `TicketManagerLoop.Manager.ClearPane` | internal/ticketworker/manager.go:639-651 | Settles whether there is a pane and closes it if there is; gone means that it cannot be alive. |
| `TicketManagerLoop.Manager.MoveToDone` | internal/ticketworker/manager.go:541-556 | The ticket counts as done exactly if the move is accepted, or refused for a ticket that is done. |
| `TicketManagerLoop.Manager.GiveUp` | internal/ticketworker/manager.go:764-790 | One slot of the shutdown: given up exactly if its pane is gone and its ticket done or given back. |
| `TicketManagerLoop.Manager.RequeueWithoutPane` | internal/ticketworker/manager.go:446-453 | Without a pane the ticket is ready again and the slot freed, or the slot keeps both for a cleanup. |
| `TicketManagerLoop.Manager.TicketAssignedElsewhere` | internal/ticketworker/manager.go:423-434 | The scan finds another slot with the ticket if there is one. |
| `TicketManagerLoop.Manager.ResolveUncertainCreation` | internal/ticketworker/manager.go:665-704 | Asks, creates again, and asks once more, exactly as far as the answers leave it open; settled means created for certain or certainly not. |
| `TicketManagerLoop.Manager.RetryCleanup` | internal/ticketworker/manager.go:639-663 | Empties the slot only with its pane gone and its ticket not in progress, or keeps ticket and pane for the next try; it loses no ticket. Which of these the answers of its calls decide. |
| `TicketManagerLoop.Manager.RetryComplete` | internal/ticketworker/manager.go:535-556 | Moves the ticket to done, or finds it done, and goes on to the close, exactly if the store says so; otherwise keeps the slot as it is. |
| `TicketManagerLoop.Manager.RetryClose` | internal/ticketworker/manager.go:558-566 | Frees the slot exactly if its pane was closed or is not listed as alive, and else keeps it as it is. |
| `TicketManagerLoop.Manager.FinalizeCompletedSlot` | internal/ticketworker/manager.go:568-576 | Announces the completion if that is wanted, frees the slot of a pane that cannot be alive, and loses its ticket exactly if that is in progress for the manager again. |
| `TicketManagerLoop.Manager.CloseOrAbsent` | internal/ticketworker/manager.go:706-719 | Closed exactly if the close succeeds or the listing shows no such live pane; it means that the pane cannot be alive. |
| `TicketManagerLoop.Manager.PaneConsumesCapacity` | internal/ticketworker/manager.go:721-734 | Yes exactly if the first listed pane of that name, task and session has not ended; no means that the pane cannot be alive. |
| `TicketManagerLoop.Manager.FindsWorker` | internal/ticketworker/manager.go:493-512 | A worker is found if and only if it is listed, which is if and only if the pane exists. |
| `TicketManagerLoop.Manager.FillEmptySlots` | internal/ticketworker/manager.go:327-343 | Slots are visited in order until one says to stop; only empty ones change, each exactly as the answers of its start say, and none without a stream. |
| `TicketManagerLoop.Manager.RetrySlots` | internal/ticketworker/manager.go:522-533 | Each completing, closing or failed slot gets exactly as far as the answers of its calls let it; the others make no calls and are untouched. |
| `TicketManagerLoop.Manager.RecoverSnapshots` | internal/ticketworker/manager.go:736-758 | The screen of every working slot is read, and of no other: no answer, an inactive screen and one without the completion marker leave the slot as it is, an unknown pane goes to cleanup, and exactly an active screen with the marker starts the completion. |
| `TicketManagerLoop.Manager.HandleOutput` | internal/ticketworker/manager.go:455-491 | Only the slot that works in that pane may change: without the completion marker not at all, and with it towards completion exactly if an active screen or, failing that, the listing confirms the worker. |
| `TicketSlots.PaneNamesDiffer` | internal/ticketworker/manager.go:372 | Different tickets of one manager have different pane names. |
| `TicketCalls.FillIsFill` | internal/ticketworker/manager.go:327-343 | Filling changes only empty slots, each to working, cleanup or still empty. |
| `TicketStore.ActionsDecide` | internal/ticketworker/store.go:444-449 | Each action is allowed in exactly its states, leads to its state and notes its time; reopening forgets all times. |
| `TicketStore.TransitionsFit` | internal/ticketworker/store.go:444-449 | A ticket is done only after it was in progress and leaves that only by being reopened; its times fit its status. |
| `TicketStore.ClaimOrderIsTimeOrderIff` | internal/ticketworker/store.go:300-306 | Of two tickets the earlier one is claimed first if and only if they are of different seconds or its fraction, without trailing zeros, is no prefix of the later one's. |
| `TicketStore.WholeSecondComesLast` | internal/ticketworker/store.go:300-306 | So a ticket of a whole second is claimed after every later ticket of that second. |
| `TicketStore.SecondsKeepOrder` | internal/ticketworker/store.go:300-306 | Across different seconds, as dates and times, the order of the stored texts is the order in time, whatever the fractions are. |
| `TicketStore.TextOrderIsTimeOrderIff` | internal/ticketworker/store.go:300-306 | Within one second the text order is the time order if and only if the earlier fraction is no prefix of the later one. |
| `TicketStore.FieldsOrdered` | internal/ticketworker/store.go:300-306 | The first field of date and time that differs decides the order of the texts. |
| `TicketStore.PrecedesChains` | internal/ticketworker/store.go:300-306 | The claim order is transitive. |
| `TicketStore.Table.FirstReady` | internal/ticketworker/store.go:300-306 | The ready ticket that no other ready ticket precedes, if there is a ready one. |
| `TicketStore.Table.Next` | internal/ticketworker/store.go:284-329 | Claims exactly that ticket, or changes nothing. |
| `TicketStore.Table.Transition` | internal/ticketworker/store.go:331-394 | Moves a ticket exactly along the transition table, or refuses and changes nothing. |
| `TicketStore.Table.Requeue` | internal/ticketworker/store.go:396-442 | Gives back exactly a ticket in progress. |
| `TicketStore.Table.Insert` | internal/ticketworker/store.go:215-232 | A new ticket has a new ID and is ready. |
| `TextOrder.TextBefore` | internal/ticketworker/store.go:300-306 | The comparing loop decides the text order. |
| `TextOrder.OneIsBefore` | internal/ticketworker/store.go:300-306 | Of two different texts one comes before the other. |
| `TextOrder.BeforeChains` | internal/ticketworker/store.go:300-306 | The text order is transitive. |
| `TextOrder.NotBothBefore` | internal/ticketworker/store.go:300-306 | It never holds both ways. |
| `FrameChannel.DeliveredInOrder` | internal/runtime/subscriptions.go:370-425 | For every interleaving of the producer's micro-steps with the consumer the delivered frames are some of the offered ones in their order, and every control frame offered is delivered or on its way. |
| `FrameChannel.NothingImportantIsLost` | internal/runtime/subscriptions.go:370-425 | In the end every control frame was delivered, and without control frames the last update. |
| `FrameChannel.OnlyControlFramesBlock` | internal/runtime/subscriptions.go:391-425 | A frame that was put back never waits; the producer waits for the consumer only with a control frame behind another one. |
| `FrameChannel.LostGaveWay` | internal/runtime/subscriptions.go:391-425 | A frame that is neither delivered nor on its way is an update that gave way at some moment: a newer frame found it waiting, or it found a control frame waiting. |
| `FrameChannel.StepKeepsOrGivesWay` | internal/runtime/subscriptions.go:391-425 | A micro-step takes the next frame up or lets one such update give way; otherwise all that was delivered or on its way still is, in the same order. |
| `FrameChannel.NextKeeps` | internal/runtime/subscriptions.go:391-425 | Every micro-step keeps the channel's invariant. |
| `FrameChannel.RunKeeps` | internal/runtime/subscriptions.go:370-425 | So does every run. |
| `FrameChannel.StaleDropped` | internal/runtime/subscriptions.go:391-425 | A waiting update may give way to a newer frame. |
| `FrameChannel.NewerDropped` | internal/runtime/subscriptions.go:391-425 | A newer update may give way to a waiting control frame. |
| `FrameChannel.Subscription.OfferFrame` | internal/runtime/subscriptions.go:391-425 | Offering a frame takes at most two rounds, whatever the consumer takes between any two steps; it ends idle, or blocked with a control frame behind another one. |
| `FrameChannel.Subscription.Round` | internal/runtime/subscriptions.go:393-423 | After one round the frame is on its way, or the slot is empty and stays so for the producer. |
| `FrameChannel.Subscription.Resume` | internal/runtime/subscriptions.go:418-420 | A blocked producer puts its frame behind the one that was taken. |
| `AgentOwnership.OnlyMeantRecordsAreDeleted` | internal/codingagent/service.go:554-640 | In every interleaving of starts, listings, rollbacks and monitor deletions a cleanup deletes the very record that it observed or created, and listing deletes no agent that is still starting. |
| `AgentOwnership.RegisteredRecordsAreOwned` | internal/codingagent/service.go:490-517 | A record registered since the start keeps its own owner entry while it lives. |
| `AgentOwnership.NextKeeps` | internal/codingagent/service.go:490-680 | Every lock-held section keeps owners and store in step. |
| `AgentOwnership.RunKeeps` | internal/codingagent/service.go:490-680 | So does every run. |
| `AgentOwnership.StoreKept` | internal/codingagent/store.go:42-59 | Creating and deleting keep the store's two indexes inverse and touch one record. |
| `AgentOwnership.RegisterKeeps` | internal/codingagent/service.go:490-517 | A start reserves its ID. |
| `AgentOwnership.SweepKeeps` | internal/codingagent/service.go:656-680 | A sweep drops only owners whose record is gone or replaced. |
| `AgentOwnership.OrphanKeeps` | internal/codingagent/service.go:554-601 | The cleanup of an orphan. |
| `AgentOwnership.RollbackKeeps` | internal/codingagent/service.go:611-640 | The rollback of a failed start. |
| `AgentOwnership.MarkKeeps` | internal/codingagent/service.go:642-648 | The end of a start. |
| `AgentOwnershipDecisions.StartDecides` | internal/codingagent/service.go:490-517 | A start is accepted if and only if its ID and pane are free and no owner that still counts has the ID; then the store has its record, and the start the new token. |
| `AgentOwnershipDecisions.OrphanDecides` | internal/codingagent/service.go:554-601 | An orphan is cleaned up if and only if owner and record are those that the listing saw and no start is on its way or in doubt; its record is deleted if and only if it is still stored and both calls succeed. |
| `AgentOwnershipDecisions.StartEnds` | internal/codingagent/service.go:611-648 | A failed start is undone, and a finished one made active, if and only if it still owns its ID. |
| `AgentOwnershipDecisions.SweepDecides` | internal/codingagent/service.go:650-680 | A sweep drops exactly the owners whose start is over and whose record is gone or another one. |
| `AgentOwnershipDecisions.ListingDecides` | internal/codingagent/service.go:531-541 | A listing remembers exactly the record and its owner's token and life. |
| `AgentOwnershipService.MemoryStore.Add` | internal/codingagent/store.go:42-59 | Both indexes take the record, or neither. |
| `AgentOwnershipService.MemoryStore.Remove` | internal/codingagent/store.go:153-166 | Both indexes lose the record. |
| `AgentOwnershipService.MemoryStore.GetByPane` | internal/codingagent/store.go:71-80 | The record of a pane, if there is one. |
| `AgentOwnershipService.AgentService.Register` | internal/codingagent/service.go:490-517 | Sweeps, refuses a taken ID, or creates record and owner. |
| `AgentOwnershipService.AgentService.SweepInactive` | internal/codingagent/service.go:650-680 | The loop over all owners. |
| `AgentOwnershipService.AgentService.Observe` | internal/codingagent/service.go:531-541 | What a listing remembers of a record. |
| `AgentOwnershipService.AgentService.CleanOrphan` | internal/codingagent/service.go:554-601 | Deletes an orphan only if owner and record are still those observed. |
| `AgentOwnershipService.AgentService.RollBack` | internal/codingagent/service.go:611-640 | Deletes a record only if it is still the start's own. |
| `AgentOwnershipService.AgentService.Activate` | internal/codingagent/service.go:642-648 | Marks an owner only while it is current. |
| `PaneCreation.OneCreatorPerId` | internal/runtime/service.go:132-195 | For one pane ID at most one caller creates at any time. |
| `PaneCreation.LeadsIff` | internal/runtime/service.go:197-232 | A call leads if and only if none is recorded or the recorded one is spent; it follows an equal request and refuses a different one. |
| `PaneCreation.BeginChanges` | internal/runtime/service.go:197-232 | A leading call becomes the recorded one and takes the ended pane of a partial cleanup away; a call that does not lead changes nothing. |
| `PaneCreation.EndsAreRecorded` | internal/runtime/service.go:234-248 | The end of a call is recorded as it was, a plain failure alone frees the ID, and a pane is registered exactly if its ID is free. |
| `PaneCreation.NoSecondCreate` | internal/runtime/service.go:197-232 | No second create while one is under way, its pane is live, or its cleanup is partial. |
| `PaneCreation.CreatesAreSeparated` | internal/runtime/service.go:197-248 | When a call leads, every earlier one for its ID is over and its pane is no longer live. |
| `PaneCreation.NextKeeps` | internal/runtime/service.go:197-248 | Every section keeps the table of calls. |
| `PaneCreation.CreateTable.BeginCreate` | internal/runtime/service.go:197-232 | The decision and the recorded call. |
| `PaneCreation.CreateTable.FinishCreate` | internal/runtime/service.go:234-248 | The outcome is recorded for exactly that call. |
| `ExecutionPlan.PlanRunner.Apply` | internal/runtime/execution_plan.go:65-135 | Success returns one pane per spec in spec order; failure leaves no pane that the plan's creations returned, or registered before they failed, unless the answer says that a cleanup was partial. It fails if and only if a tab does; then later tabs are not begun and every pane obtained is closed again. |
| `ExecutionPlan.PlanRunner.ApplyTabs` | internal/runtime/execution_plan.go:73-135 | The loop over the tabs, stopped by the first that fails. |
| `ExecutionPlan.PlanRunner.CreatePane` | internal/runtime/service.go:132-195 | A creation leaves the pane that it returns, or nothing that it registered unless it answers that its cleanup was partial; the answers to its calls decide which. |
| `ExecutionPlan.PlanRunner.CreateTab` | internal/runtime/execution_plan.go:80-121 | One tab: its first pane, then the others; it fails exactly if a creation does, or if the backend does not tell the tab that the others need. |
| `ExecutionPlan.PlanRunner.CreateRemaining` | internal/runtime/execution_plan.go:137-180 | Whatever the completion order, all creations are made, success gives the panes in spec order and failure all that were obtained. |
| `ExecutionPlan.PlanRunner.CreateAll` | internal/runtime/execution_plan.go:145-177 | The concurrent creations end in any order, each once. |
| `ExecutionPlan.PlanRunner.Rollback` | internal/runtime/execution_plan.go:242-254 | Every pane is closed, in order; without an error all of them are gone. |
| `ExecutionPlan.PlanRunner.CleanupCreated` | internal/runtime/pane_initialization.go:16-32 | Without an error that pane is gone. |
| `ExecutionPlan.Collect` | internal/runtime/execution_plan.go:182-197 | Results in any order become one pane per index, or the panes that were obtained. |
| `ExecutionPlan.EveryIndexFinished` | internal/runtime/execution_plan.go:182-197 | As many results as indexes, without repeats, cover every index. |
| `ExecutionPlan.CollectedAll` | internal/runtime/execution_plan.go:182-197 | Without a failure the collected panes are exactly those created. |
| `ExecutionPlan.ObtainedIffOk` | internal/runtime/execution_plan.go:182-197 | On failure they are exactly those of the successful results. |
| `ExecutionPlan.Validate` | internal/runtime/execution_plan.go:199-226 | A plan is accepted if and only if it has tabs, each with panes, and no pane ID twice. |
| `VoiceQueue.BoundsHold` | internal/voice/service.go:133-156 | The queue stays within its capacity, known IDs within their limit, the order lists the recent IDs without repeats and apart from the active ones, and an eviction always finds one. |
| `VoiceQueue.AcceptedAgainOnlyLater` | internal/voice/service.go:133-217 | A finished ID is accepted again only after at least recentLimit - capacity - 1 different others finished. |
| `VoiceQueue.EnqueueDecides` | internal/voice/service.go:133-156 | A request is refused exactly when the queue is closed, knows it or is full; otherwise it waits behind the others, and only as many of the oldest known IDs are forgotten as must be. |
| `VoiceQueue.SpeakingDecides` | internal/voice/service.go:158-210 | The front of the queue is spoken, and when it is finished it becomes the latest known ID. |
| `VoiceQueue.SpokenInOrder` | internal/voice/service.go:133-190 | In every run accepted requests are spoken in their order, each once, and those not yet spoken wait in that order until the queue is closed. |
| `VoiceQueue.EvictToKeeps` | internal/voice/service.go:212-217 | Eviction stops as soon as there is room. |
| `VoiceQueue.EnqueueKeeps` | internal/voice/service.go:133-156 | Accepting a notification. |
| `VoiceQueue.TakeKeeps` | internal/voice/service.go:175-190 | Taking the next one. |
| `VoiceQueue.FinishKeeps` | internal/voice/service.go:198-210 | Finishing one, also after the close. |
| `VoiceQueue.RunKeeps` | internal/voice/service.go:133-217 | Every run keeps these bounds. |
| `VoiceService.Notifier.Submit` | internal/voice/service.go:133-156 | Closed, duplicate, full or queued, with the new state. |
| `VoiceService.Notifier.MakeRoom` | internal/voice/service.go:143-145 | The eviction loop ends, and never meets an empty list. |
| `VoiceService.Notifier.TakeNext` | internal/voice/service.go:175-190 | Takes the front of the queue. |
| `VoiceService.Notifier.FinishSpoken` | internal/voice/service.go:198-210 | Moves the ID from active to recent. |
| `VoiceService.Notifier.Shut` | internal/voice/service.go:158-173 | Forgets what was not spoken. |
| `PromptStyle.OnlyOwnCodes` | internal/followup/prompt.go:258-326 | Text becomes dim or italic only by a command of its own. |
| `PromptStyle.IndexedColorIsOneCommand` | internal/followup/prompt.go:288-323 | The arguments of an indexed color (SGR 38, 48 or 58 in form 5) are no commands, whatever they are. |
| `PromptStyle.DirectColorIsOneCommand` | internal/followup/prompt.go:288-323 | Nor are those of a direct color (form 2), with or without an empty color space. |
| `PromptStyle.StyleState.ApplySgr` | internal/followup/prompt.go:258-326 | The index loop applies exactly the commands of the parameter list. |
| `PromptStyle.StyledLines` | internal/followup/prompt.go:231-256 | The loop over tokens builds the lines with the style in force at each character. |
| `PromptStyleMeaning.LastWins` | internal/followup/prompt.go:258-326 | Of all commands that touch dim, italic, gray or inverse the last one decides. |
| `PromptStyleMeaning.MutedIff` | internal/followup/prompt.go:231-256 | Text is muted if and only if dim, italic or gray is in force and inverse is not. |
| `PromptStyleMeaning.CharacterLands` | internal/followup/prompt.go:231-256 | Every character stands in the line and column that the newlines and characters before it give, muted as the style in force says. |
| `PromptStyleMeaning.NoOtherCells` | internal/followup/prompt.go:231-256 | The screen has no other cells. |
| `PromptStyleMeaning.ColorParameter` | internal/followup/prompt.go:288-323 | What a color parameter takes with it in each form, and which colors are gray. |
| `PromptStyleMeaning.PlainParameter` | internal/followup/prompt.go:258-287 | Any other number is a command of its own, and a text that is no number resets the style and ends the list. |
| `PromptStyleMeaning.CodeOfDecimal` | internal/followup/prompt.go:261-264 | The decimal text of a number is that number, and the empty text zero. |
| `EmptyPromptMeaning.EmptyIff` | internal/followup/prompt.go:24-113 | The recogniser answers true if and only if the last prompt of the screen has no text or a known muted placeholder, and either stands without a draft above and with only blank lines and known muted footers below, or, for Claude, in a box whose other lines are empty. |
| `EmptyPromptMeaning.PromptIff` | internal/followup/prompt.go:115-131 | A line is a prompt, with this body, if and only if its text, for Claude inside a frame, begins with the marker alone or before a blank. |
| `EmptyPromptMeaning.FramedIff` | internal/followup/prompt.go:191-200 | Stripping a frame finds exactly what stands between one margin character at each end. |
| `EmptyPromptMeaning.TrimIff` | internal/followup/prompt.go:202-210 | Trimming finds exactly what stands between the blanks. |
| `EmptyPromptMeaning.UntypedIff` | internal/followup/prompt.go:133-146 | A body counts as empty if and only if there is none or it is a known placeholder in muted text. |
| `EmptyPromptMeaning.QuietIff` | internal/followup/prompt.go:160-175 | A line below is harmless if and only if it is blank or a known footer in muted text. |
| `EmptyPromptMeaning.BorderIff` | internal/followup/prompt.go:177-189 | A border has at least three strokes and nothing else but strokes and corners. |
| `EmptyPromptMeaning.NoDraftIff` | internal/followup/prompt.go:45-55 | The upward scan finds no draft if and only if a block of output begins between every earlier prompt and this one. |
| `EmptyPrompt.EmptyPromptIsEmpty` | internal/followup/prompt.go:24-62 | If the prompt counts as empty, every visible character from its marker to the end of the screen, but the marker, is muted or belongs to a box or a rule. |
| `EmptyPrompt.WholeBoxIsEmpty` | internal/followup/prompt.go:64-113 | In a boxed composer the lines above the marker's are empty as well. |
| `EmptyPrompt.NoDraftBefore` | internal/followup/prompt.go:46-55 | Without a box no other prompt stands between the current one and the block before it. |
| `EmptyPrompt.MarkerLineIsHarmless` | internal/followup/prompt.go:115-158 | On the marker's line every other cell is harmless. |
| `EmptyPrompt.TrimCuts` | internal/followup/prompt.go:202-210 | Trimming cuts off nothing but blanks. |
| `EmptyPrompt.CheckPrompt` | internal/followup/prompt.go:24-62 | The scanning loops decide exactly that predicate. |
| `EmptyPrompt.EmptyClaude` | internal/followup/prompt.go:64-113 | So do those of the boxed composer. |
| `ShellQuoting.CommandRoundTrip` | internal/work/work.go:237-254 | Reading a built command with POSIX quoting (sections 2.2.1 to 2.2.3 of the Shell Command Language, POSIX.1-2017) gives back exactly the arguments, in both escape styles. |
| `ShellQuoting.CommandInjective` | internal/work/work.go:237-254 | Two argument lists never share a command text. |
| `ShellQuoting.ReadsQuoted` | internal/planner/page.go:145-150 | A quoted argument is read as one word, whatever follows. |
| `ShellQuoting.BuildCommand` | internal/planner/page.go:137-143 | The loop joins the quoted arguments with single spaces. |
| `Basics.DecimalInjective` | internal/registry/persistence.go:10-12 | Different numbers have different decimal texts. |
| `Basics.ItemsSize` | internal/voice/service.go:198-217 | A list without repeats is as long as the set of its members is large. |
| `AgentHierarchy.OrderListsAllOnce` | internal/agentdashboard/hierarchy.go:31-43 | Even with parents in a cycle every row is listed exactly once. |
| `AgentHierarchy.OrderIsSubtrees` | internal/agentdashboard/hierarchy.go:31-43 | Without cycles the rows come as the subtrees of the roots, in the roots' order. |
| `AgentHierarchy.SubtreeIsContiguous` | internal/agentdashboard/hierarchy.go:8-43 | Directly behind every row comes all that is below it, and nothing else. |
| `AgentHierarchy.RootsAscend` | internal/agentdashboard/hierarchy.go:8-43 | Along the list the root never goes back. |
| `AgentHierarchy.VisitIsSubtree` | internal/agentdashboard/hierarchy.go:31-40 | A visit appends exactly the subtree of the row. |
| `AgentHierarchy.Visit` | internal/agentdashboard/hierarchy.go:31-40 | A visit terminates, keeps what was listed and adds no row twice. |
| `AgentHierarchy.VisitAllCovers` | internal/agentdashboard/hierarchy.go:41-43 | Visiting a list lists all of it. |
| `AgentHierarchy.SiblingsApart` | internal/agentdashboard/hierarchy.go:18-28 | Nothing is below two siblings. |
| `AgentHierarchy.RootIsUnique` | internal/agentdashboard/hierarchy.go:49-74 | Every row has one root. |
| `AgentDashboard.OrderChildren` | internal/agentdashboard/hierarchy.go:9-43 | Overwriting the slice from a copy leaves the specified order, a permutation of the input, whatever the parents are. |
| `AgentDashboard.Walk.VisitRow` | internal/agentdashboard/hierarchy.go:31-40 | The recursive closure with its visited set does what the specified visit does. |
| `AgentDashboard.Walk.VisitChildren` | internal/agentdashboard/hierarchy.go:37-43 | So do the loops around it. |
| `AgentDashboard.ChildLists` | internal/agentdashboard/hierarchy.go:17-28 | The loop that sorts every row to its parent or to the roots. |
| `AgentDashboard.ByPane` | internal/agentdashboard/hierarchy.go:10-16 | The last row with a pane ID. |
| `AgentDashboard.OrderedIsPermutation` | internal/agentdashboard/hierarchy.go:9-43 | The order is a permutation of the rows. |
| `DashboardHierarchyRoots.HierarchyRoot` | internal/agentdashboard/hierarchy.go:49-74 | The loop ends for all rows, and answers the end of the chain of parents or, on a cycle, the row with the least pane ID met. |
| `DashboardHierarchyRoots.Least` | internal/agentdashboard/hierarchy.go:58-62 | In whatever order the set is searched. |
| `DashboardHierarchyRoots.OneRootOnly` | internal/agentdashboard/hierarchy.go:49-74 | A row has at most one such root. |
| `DashboardHierarchyRoots.CycleSharesRoot` | internal/agentdashboard/hierarchy.go:57-64 | Rows that reach each other have the same root. |
| `DashboardHierarchyRoots.ClimbRepeats` | internal/agentdashboard/hierarchy.go:55-72 | A climb that comes back meets nothing new. |
| `DashboardPanels.ShowRows` | internal/agentdashboard/view.go:264-313 | Sorted rows without cycles: every row is shown once, in row order, in the panel of its root, and no session and no tab of a session gets a second heading; every unpinned row stands under the headings of its root's session and tab, which count their rows. |
| `DashboardPanels.PinnedFirst` | internal/agentdashboard/model.go:621-629 | Rows with a pinned root form a prefix. |
| `DashboardPanels.RootsSorted` | internal/agentdashboard/model.go:546-573 | The roots of the shown rows come in the order of the sort. |
| `DashboardPanels.ShownRoot` | internal/agentdashboard/hierarchy.go:49-74 | The root looked up among the shown rows is the root in the forest of parents. |
| `DashboardPanels.ChainEndsAtRoot` | internal/agentdashboard/hierarchy.go:49-74 | Without cycles the climb ends at the root of the forest. |
| `DashboardPanels.OrderKeepsClimb` | internal/agentdashboard/hierarchy.go:49-74 | The reordering changes no climb. |
| `DashboardPanels.UnpinnedTogether` | internal/agentdashboard/view.go:278-311 | Unpinned rows of one session stand together, and those of one tab. |
| `DashboardPanels.PanelsInOrder` | internal/agentdashboard/model.go:621-629 | One panel behind the other lists all rows in their order. |
| `DashboardPanels.PanelIndices` | internal/agentdashboard/model.go:621-629 | The loop collects exactly the rows whose root is pinned, or is not. |
| `DashboardPanels.FirstKeyDecides` | internal/agentdashboard/model.go:546-573 | The first key in which two rows differ decides: pinned first, the current session first, then session, tab, creation and agent ascending. |
| `DashboardPanels.SameNamesIff` | internal/agentdashboard/model.go:581-614 | Rows share a session or a tab exactly if they name the same; a tab is known by its ID, and by its name only without one. |
| `DashboardPanels.LessIsStrict` | internal/agentdashboard/model.go:546-573 | The comparison is asymmetric, and leaves open only what agrees in every key. |
| `DashboardPanels.LessChains` | internal/agentdashboard/model.go:546-573 | It is transitive. |
| `DashboardPanels.IsLess` | internal/agentdashboard/model.go:549-572 | The comparing branches decide it. |
| `DashboardGroups.DisplayRows` | internal/agentdashboard/view.go:264-313 | Both panels with their section headings and counts. |
| `DashboardGroups.ShowSession` | internal/agentdashboard/view.go:278-311 | The loops over one session's run, tab by tab. |
| `DashboardGroups.SessionsAppearOnce` | internal/agentdashboard/view.go:278-290 | Where equal sessions stand together no session heading appears twice. |
| `DashboardGroups.TabsAppearOnce` | internal/agentdashboard/view.go:291-308 | Where equal tabs stand together no tab heading of a session appears twice. |
| `DashboardGroups.AgentsListed` | internal/agentdashboard/view.go:304-306 | Every agent of the panel is listed once, in order. |
| `DashboardHeadings.AgentsStandUnder` | internal/agentdashboard/view.go:278-311 | Every agent stands under the headings of its own session and tab, which say how many agents there are and give the tab the name from its first agent; the hidden session has no headings. |
| `DashboardHeadings.HeadingsAbove` | internal/agentdashboard/view.go:278-308 | The last headings before an agent are those at which the runs of its session and tab begin. |
| `DashboardHeadings.SessionRunFrom` | internal/agentdashboard/view.go:279-285 | The scan to the end of a session finds all its agents. |
| `DashboardHeadings.TabRunFrom` | internal/agentdashboard/view.go:291-297 | So does the one to the end of a tab. |

## Left out

- SQLite, JSON, YAML, file locks, schema changes and git: tables are maps, a log is a sequence of changes.
- Zellij commands and processes: an environment that succeeds, fails or stays uncertain.
- HTTP, command lines, role launchers, screens, styles and popups: field copying and layout.
- `cmd/agent-role/lsp/main.go`, debate runners, voice backends, page trackers and project detection: heuristics and input or output.
- Liveness: the code retries without bound, so safety is stated; of progress only that a writer with a working database drains (`PersistenceWriter.ServedWriterDrains`).
- Follow-up without a repository (a save then does nothing); error texts, `UpdatedAt`, `CreatedAt` and `SentAt`, which no branch reads.
- FollowupRuns: one queue at a time; queues share nothing but the writer, and `FollowupPersistence` says what the writer does to one key among all.
- FollowupRuns: new item IDs are taken to be new, as random UUIDs are; a blank agent ID is refused before the model begins.
- PaneInput: the screen is a parameter that says whether its prompt is empty, which `EmptyPrompt` decides from the tokens.
- Counters (generations, tokens, revisions, ticket IDs) are unbounded; 64-bit wrap-around is not modelled.
- AgentMonitor: real durations, the detection rules and pane-title diagnostics; the detector is a parameter. Entries are values in a map field, so aliasing of `monitoredAgent` values is not captured.
- PaneRegistry: nested maps are values in map fields, copied on write as the source's clones are; `GetSession`, `ListSessions` and the other getters; row JSON that cannot be decoded.
- PaneRegistryRows.RoundTrip: rows are those that guarded operations leave, as stated; which of two panes of one generation the rebuilt index would name is not stated, since generations are distinct.
- PaneRegistryService.PaneTable.RebuildLatest: the rebuild takes the panes in any order.
- PaneReconcile.Reconcile: the pass as a whole is stated for an undisturbed registry; its steps (`ListedPaneStaysAlive`, `StaleRecordTouchesNothing`) are stated for a registry that others changed since the snapshot. Titles, health events and the order of the report are left out.
- Subscriptions other than the frame channel: the table of running subscriptions and their restarts.
- TicketManagerLoop: a failed inspection answers nothing, and a listing is taken to show exactly the manager's existing panes; the create errors that the source calls safe mean that there is no pane; output parsing, voice request IDs and logs; a completion is announced by one call, whose retries and summary are left out.
- TicketManager.CapacityIsNeverExceeded: one pane name has one truth: a create that is under way when another one for the same name is called counts as that one, and a pane that is listed is not made once more by it. The runtime gives this by letting equal creates join the recorded call (`PaneCreation.LeadsIff`, `PaneCreation.OneCreatorPerId`), each of which registers one pane; a restart of the daemon between two creates is not part of this model.
- TicketStore: validation of ticket texts and the listing of tickets; years of five digits; leap seconds are just seconds with their own text.
- AgentOwnership: a failing lookup of the sweep (it skips the entry), focus, pins and aliases; the delete of a stale owner in `registerStart` comes after a sweep that removed it, so both are one case. The monitor deletes by ID, as in the source, and may meet a later record.
- PaneCreation: what waiting callers do with the result they share, and the backend call itself.
- ExecutionPlan: the request's session fields, commands, directories and initial input of a pane; a plan is its pane IDs by tab.
- VoiceQueue: message texts, speech and the log.
- PromptStyle: splitting the screen into tokens; sub-parameters with colons are flattened as in the source, so nothing is said of those beyond 38, 48 and 58.
- EmptyPrompt: the footer patterns and the class of blanks are parameters.
- ShellQuoting: the reader knows blanks, single quotes, double quotes and backslashes; unquoted special characters make it fail, and quoted output has none. NUL is an ordinary character there.
- DashboardPanels: session, tab and tab names are taken as trimmed already; the library's stable sort is the predicate that it leaves nothing smaller behind something greater. Panels and headings are stated for parents without cycles and different pane IDs, as the design promises them; on cycles `AgentDashboard.OrderChildren`, `DashboardHierarchyRoots.HierarchyRoot` and `DashboardHierarchyRoots.CycleSharesRoot` hold.
- The dashboard's saved selection, viewport and labels.
