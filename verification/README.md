# Leros, verified

Leros runs AI agents. A server keeps assistants, sessions and messages; workers execute runs, journal their events and publish them; the server projects those events into session state and streams them to clients. This project models the components that carry state or parse text, and proves what they promise over every input, every interleaving and every delivery order.

`dafny verify dfyconfig.toml` checks everything with Dafny 4.11.

## What is modelled

**Worker deployments** (`WorkerDeployments.dfy`, `DeploymentController.dfy`, `DeploymentVisits.dfy`). One reconciler loop and any number of user requests race over the deployment rows, the assistant table and the scheduler. Every access to shared state is an atomic step with a program counter, and each call may fail on its own. `WorkerDeployments` is the step system; `DeploymentController` is the code with its own reads and writes of the tables, in which any party may move between two accesses. Each access is proved equal to the step the system prescribes there, with the answer the call gave. `DeploymentVisits` says what a whole visit or request does when nobody else moves: for each list of answers, the one state it ends in.

**Run and journal** (`Errors.dfy`, `Events.dfy`, `Journal.dfy`, `JournalRace.dfy`, `RunLifecycle.dfy`). A run is `run.started`, events, one terminal. The plan of a run says, from what preparer, runtime, finalizer and sink do, which events are handed to the journal, which result comes out and which error ended it; the code is proved to follow it. The runtime is an arbitrary list of events and an outcome; the sink is an arbitrary answer to its n-th call; errors wrap and join as Go's do, and an error is a cancellation if some path through its wraps and joins ends at one. The archive's meaning is a group-by; the one-pass loop computes it.

**Sessions** (`SessionViews.dfy`, `SessionMessages.dfy`, `SessionStream.dfy`). Live and history projections of one run, the message status machine under any deliveries, and the stream a client reads: replay position, subscription to the log, two concurrent lanes merged by sequence number, and the close that the first terminal brings.

**Batch translation** (`TranslateBatches.dfy`). Goroutines, a semaphore of four slots, a wait group and a buffered channel as a step system; the answer to a batch is arbitrary but fixed.

**Login limiter** (`LoginLimiter.dfy`). Fixed windows, with separate clock readings at admission, sweep and decision, and a flag for every database call. Requests under way at once are a step system of admissions, decisions and sweeps in any interleaving; recording a failure is a read and a save apart, as in the code, or both at once.

**Workspace** (`Text.dfy`, `Paths.dfy`, `Workspace.dfy`, `Scanner.dfy`, `Sorting.dfy`, `Artifacts.dfy`). Paths are lists of segments with printing and parsing to strings; the file system is a function from paths to answers.

**Small parsers** (`GitHubLinks.dfy`, `LLMBaseURL.dfy`, `SkillTokens.dfy`). GitHub links (with `url.Parse` as a parameter), model URLs, slash tokens.

## What the proofs found

Each of these is a theorem with the exact condition or a concrete witness.

- A worker can outlive a row that says stopped only if the reconciler's status write after a Start fails, or a user's way to Stop does (`LostStatusWriteOrphans`, `LostStopOrphans`).
- A run ends in exactly one terminal event if and only if every payload handed to its journal that the archive keeps is JSON. One broken tool result leaves a run with no terminal at all: neither the success nor the failure path can encode the archive (`Service.Run`, `OneTerminalExactly`, `RunWithBrokenToolResult`).
- Live shows unreadable approval, question and delta payloads, history drops them; apart from these the two views agree one by one (`SinglesAgree`).
- A completion is not idempotent; and stamping a start sequence, though it re-reads its row in one transaction, puts a finished message back to processing if that transaction overlaps the completion's, which in either order it would not (`EveryCompletionAddsAMessage`, `StaleStampUndoesCompletion`).
- Replay covers a message that is still being answered if and only if it was updated in the last half hour, so a run that lasts longer is missed however busy it is, and with no recent message a replaying client is sent nothing at all (`ReplayedExactly`, `StaleRunIsMissed`, `NothingRecentNothingSent`).
- Two runs replayed together lose events: every run numbers its events from one, and the second run's run.started is never sent (`SecondRunLosesItsStart`). A wanted event is sent for certain, once its lane is drained, if and only if no event for the client on the other lane and no different one before it on its own has its number (`SentExactly`).
- The first terminal closes the stream and may overtake deltas of the other lane, which are then lost (`TerminalOvertakes`); an event that nothing rivals is lost exactly when its lane had not delivered it before the close (`LostExactly`).
- A subscription from a log position delivers that position too, as the code does (`nats.go:344-370`); the comment at `bus.go:30` says it does not. Replay needs it: the position is that of run.started itself (`ReplayDeliversRun`).
- The schedule is invisible in the translation result exactly when successful batches agree on shared keys (`ScheduleIndependence`).
- Every run of login requests keeps to five failures per counter and nine in five minutes if and only if requests for an identifier come one after the other (`OnlyOneAtATimeKeeps`). A failure is read and then saved; two requests under way at once already fit fifteen failures into one instant before the counter says five (`StaleSavesPassTheBound`), and c requests 1 + 4c (`LostUpdatesPassTheBound`). With at most c under way the limits are 4 + c and 7 + 2c, met for every c, provided that no other request looks, decides or saves between a request's read and its save (`FailuresAreBounded`, `BoundIsReached`).
- Taking the storage key of a storage key changes it exactly when the key has a space at its edge (`RekeyingIsIdentity`, `RekeyingMayRename`).
- Collecting artifacts fails as a whole when a changed file is a plain `.git` or `.leros` at the top or starts with `..`, and when the manifest's last line has no newline, because the appended line continues it (`CollectAfterReconcile`, `ScannedFilesAreStorable`, `SecondReconcile`).
- An imported identifier reads back as itself exactly when no `.git` suffix and no last segment spelled like SKILL.md is left in it (`IdentifierGivesItself`).
- Normalising a model URL recovers its root unless the root's end and a shorter endpoint together spell a longer one, `/chat` before `/completions` or `/api` before `/generate` (`NormalizingRecoversRoot`); it is not idempotent on `<endpoint>/v1` (`EndpointBeforeV1`).
- A requested work directory given as an absolute path is only checked for lying in the repository, while the relative form also keeps out of runtime paths (`AbsoluteWorkDir`, `RelativeWorkDir`).

## Model

| member | source | states |
|---|---|---|
| WorkerDeployments.NoOrphanWhenQuiescent | backend/internal/service/worker_deployment_reconciler.go:74-162 | in every interleaving of the reconciler and any users, whatever else fails, once all are idle no worker runs behind a row that says stopped, unless a call dropped its own party's debt |
| WorkerDeployments.SafeStep | backend/internal/service/worker_deployment_reconciler.go:74-162 | each step keeps: an orphaned worker is still owed a status write or a Stop by somebody under way |
| WorkerDeployments.LostStatusWriteOrphans | backend/internal/service/worker_deployment_reconciler.go:129-162 | a run of the system that ends quiet with an orphan because the status write after Start failed |
| WorkerDeployments.LostStopOrphans | backend/internal/service/digital_assistant_service.go:265-291 | a run that ends quiet with an orphan because the user's Stop failed |
| WorkerDeployments.StartsAreSpaced | backend/internal/service/worker_deployment_reconciler.go:102-162 | two recorded starts of a deployment that no user, ready answer or refused Start released in between lie more than the provisioning timeout apart |
| WorkerDeployments.HeldStep | backend/internal/service/worker_deployment_reconciler.go:109-162 | every step of anybody keeps that a recorded start holds the deployment back until its timeout |
| WorkerDeployments.WellQueuedStep | backend/internal/service/worker_deployment_reconciler.go:50-72 | a pass visits each listed deployment at most once |
| DeploymentVisits.ReadyVisit | backend/internal/service/worker_deployment_reconciler.go:95-100 | undisturbed, a ready deployment of an active assistant is written ready if it is healthy and failed if not, and its worker is left alone |
| DeploymentVisits.ProvisioningVisit | backend/internal/service/worker_deployment_reconciler.go:109-127 | a provisioning one is written ready if healthy; if not, failed exactly when it never started or did so more than five minutes ago, and else provisioning |
| DeploymentVisits.InactiveVisit | backend/internal/service/worker_deployment_reconciler.go:88-93 | the worker of an assistant that is missing or not active is stopped, and its row says so |
| DeploymentVisits.StartingVisit | backend/internal/service/worker_deployment_reconciler.go:129-162 | a pending or failed one has the start recorded and its worker started; healthy it is ready, unhealthy provisioning |
| DeploymentVisits.RefusedVisit | backend/internal/service/worker_deployment_reconciler.go:129-162 | if the scheduler refuses the start, the row is failed and no worker is added |
| DeploymentVisits.FailedVisit | backend/internal/service/worker_deployment_reconciler.go:88-140 | when the Stop, or the record of a start, fails, the visit ends there with nothing changed |
| DeploymentVisits.Activating | backend/internal/service/worker_provisioning.go:77-112 | a request for active ends with the assistant active and its row pending |
| DeploymentVisits.Creating | backend/internal/service/worker_provisioning.go:77-112 | and creates that row where there is none |
| DeploymentVisits.Deactivating | backend/internal/service/digital_assistant_service.go:265-291 | a request for draft, inactive or archived ends with the row stopped and the worker stopped |
| DeploymentVisits.OtherStatus | backend/internal/service/digital_assistant_service.go:265-291 | a status that is none of these is saved and nothing else happens |
| DeploymentController.Server.ReconcileWorkerDeployment | backend/internal/service/worker_deployment_reconciler.go:74-107 | visiting one deployment, with anybody moving between its accesses and any call failing, is a run of the step system whose own steps got exactly the answers the calls gave, in order, and drops exactly the first of the listing |
| DeploymentController.Server.ReconcileProvisioningWorker | backend/internal/service/worker_deployment_reconciler.go:109-127 | the health check, the status chosen by start time and timeout, and its write are the steps prescribed there |
| DeploymentController.Server.StartWorkerDeployment | backend/internal/service/worker_deployment_reconciler.go:129-162 | recording the start, starting, checking and writing the status are the steps prescribed there, on the answers given, back into the pass |
| DeploymentController.Server.ReconcileWorkerDeployments | backend/internal/service/worker_deployment_reconciler.go:50-72 | the loop over whatever the listing query returns is a run of the step system on the answers given, and ends idle |
| DeploymentController.Server.ListWorkerDeployments | backend/internal/infra/db/worker_deployment_dao.go:57-67 | the listing holds every deployment that is not stopped, once each, as it is |
| DeploymentController.Server.MarkWorkerDeploymentStatus | backend/internal/infra/db/worker_deployment_dao.go:91-103 | writes one column of the row as it is now, and no other row |
| DeploymentController.Server.UpdateDigitalAssistantStatus | backend/internal/service/digital_assistant_service.go:244-294 | a status request, whatever fails and whoever moves in between, is a run of the step system on the answers given, and always leaves with its request finished |
| DeploymentController.Server.EnsureForAssistant | backend/internal/service/worker_provisioning.go:77-112 | the row found or created is the one the request goes on to save, or the request has left; its accesses are the steps prescribed there |
| DeploymentController.Server.MarkAssistantStopped | backend/internal/service/worker_provisioning.go:124-132 | finding and saving the row are the steps prescribed there, and without an error the request goes on to the worker |
| DeploymentController.Server.HaltDeployment | backend/internal/service/digital_assistant_service.go:282-290 | finding the row and stopping its worker are the steps prescribed there, and the request has left |
| Journal.ArchiveEvents | backend/internal/assistant/journal.go:163-205 | the one-pass index-map loop followed by the stable sort is the group-by, on any journal |
| Journal.FoldMerge | backend/internal/assistant/journal.go:184-199 | folding a delta into its record extends exactly that record of the group-by |
| Journal.FoldAppend | backend/internal/assistant/journal.go:172-201 | any other kept event adds its own record at the end, a dropped one none |
| Journal.RecordOpens | backend/internal/assistant/journal.go:174-180 | a record keeps the sequence number, type and time of the event that opened it |
| Journal.KeyHasOpener | backend/internal/assistant/journal.go:168-200 | every keyed delta belongs to the record its first event opened |
| Journal.StableSortSorts | backend/internal/assistant/journal.go:203 | the final sort orders by sequence number |
| Journal.ArchiveNeedsNoSort | backend/internal/assistant/journal.go:163-205 | on a journal in sequence order the archive is the bare group-by |
| Journal.RecordBelow | backend/internal/assistant/journal.go:163-205 | no record's first or last number exceeds the journal's bound |
| Journal.SnapshotsOnlyGrow | backend/internal/assistant/journal.go:62-81 | every record of an earlier snapshot stays at its index with its number, type, time, id and role, its content a prefix and its last number no smaller |
| Journal.ArchiveHoldsPlain | backend/internal/assistant/journal.go:163-205 | every event that is not a terminal, a result or a named delta is in the archive with its own number, type, time and payload |
| Journal.ArchiveHoldsMessage | backend/internal/assistant/journal.go:172-200 | every named delta is in a record of its type and message, whose text is what that message's deltas said, all of them in order |
| Journal.NormalizeExactly | backend/internal/assistant/journal.go:83-102 | recording fills in a missing run id and time, keeps a number above the highest and gives the next one otherwise, and leaves what the event says |
| Journal.RunJournal.Append | backend/internal/assistant/journal.go:48-102 | recording normalises the number above every earlier one and emits; the journal stays exactly the non-terminal part of what was emitted |
| Journal.RunJournal.Snapshot | backend/internal/assistant/journal.go:62-81 | a snapshot is the group-by of the journal, all its numbers at or below the highest given |
| JournalRace.RecordsAreOrderedAndEmittedOnce | backend/internal/assistant/journal.go:48-60 | under any interleaving of concurrent calls and any incoming numbers, the journal is strictly increasing, emitted numbers are distinct, the sort is a no-op, and in the end exactly the recorded events were emitted |
| JournalRace.EmissionMayReorder | backend/internal/assistant/journal.go:48-60 | two calls may emit in the opposite order of their numbers |
| RunLifecycle.Observer.Emit | backend/internal/assistant/service.go:273-284 | the service's observer drops the executor's lifecycle events and journals everything else |
| RunLifecycle.RecordedExactly | backend/internal/assistant/service.go:273-284 | what passes the observer is every event that is not a lifecycle one, and all of them if none is |
| Errors.CancellationIsHeld | backend/internal/assistant/service.go:165-172 | an error counts as a cancellation exactly when a path through any wraps and joins ends at a cancelled or an overdue context |
| RunLifecycle.Executor.Drive | backend/agent/runtime.go:76-79 | a runtime that obeys its contract adds exactly its events, in order, less the lifecycle ones under the service's observer; none of them a run event |
| RunLifecycle.Executor.Execute | backend/agent/executor.go:29-70 | the closing lifecycle event is completed for a result, cancelled for an error that holds a cancellation under any wraps and joins, failed for any other; the returned error then holds it too. Under an observer that drops nothing the trace is the start, the runtime's events and that closing; under the service's the outcome is exactly the missing id's, the missing runtime's or the runtime's own |
| RunLifecycle.ArchiveEncodes | backend/internal/assistant/service.go:226-266 | the archive can be encoded exactly when every kept event's payload can |
| RunLifecycle.NewTerminalEvent | backend/internal/assistant/service.go:214-266 | a terminal event exists exactly when result and archive encode, and carries the archive so far |
| RunLifecycle.RecordTerminal | backend/internal/assistant/service.go:226-266 | recording it closes the trace; it archives all that was emitted before, with every archived number below its own |
| RunLifecycle.Service.FinishError | backend/internal/assistant/service.go:154-212 | any failed phase gives one cancelled or failed terminal by its cause, or none when what was handed in does not encode, and the error is the cause, joined with what the terminal met |
| RunLifecycle.HandedOverMeans | backend/internal/assistant/service.go:117-130 | artifact events go out in order up to and with the first one the sink refuses |
| RunLifecycle.Service.Publish | backend/internal/assistant/service.go:117-151 | that refusal, wrapped, ends the run as failed or, for a cancellation, cancelled; with none the terminal follows, or the encoding error |
| RunLifecycle.Service.ExecuteAndFinalize | backend/internal/assistant/service.go:94-151 | the trace, result and error follow from the request, the runtime's outcome, the finalizer and the sink |
| RunLifecycle.Service.Run | backend/internal/assistant/service.go:54-151 | for every combination of failures in prepare, execute, finalize, publish and the sink, an accepted run tells exactly what was handed in up to the first failure, is closed by one terminal of the returned status exactly when all of it can be archived, and status and error follow the failed phase's own error; nothing follows a refused start |
| RunLifecycle.Service.PlanReports | backend/internal/assistant/service.go:154-212 | cancelled, with its fixed text, exactly when the cause holds a cancellation, which the returned error then still holds; the error is the cause itself, or none, when the terminal is encoded and accepted |
| RunLifecycle.Service.PhasesReport | backend/internal/assistant/service.go:82-130 | the phase and the error of a run are those of the first to fail of prepare, the missing id, the missing runtime, the runtime registered under the request's name or the default, and finalize |
| RunLifecycle.Service.FinalizedRun | backend/internal/assistant/service.go:94-151 | a finalized run ends with its first refused artifact event, cancelled or failed by that refusal; else completed with the finalizer's result exactly when that and all it was handed encode; else in the encoding |
| RunLifecycle.Service.HandsInOrder | backend/internal/assistant/service.go:54-151 | what is handed in is a prefix of what runtime and finalizer offer, all of it in a run that nothing ended early, and if all that is offered encodes then so does what was handed in |
| RunLifecycle.OneTerminalExactly | backend/internal/assistant/service.go:54-151 | an ended run has a terminal, it is the last event, of the kind of the run's status, and carries status, message, error and the archive of all before it, exactly when what was handed in can be archived |
| RunLifecycle.RunWithBrokenToolResult | backend/internal/assistant/service.go:214-252 | a run of a succeeding runtime that ends failed and without any terminal |
| SessionViews.TextsAgree | backend/internal/service/session_event_projector.go:17-298 | per delta type and message id, history shows one text exactly when the run spoke, and it is the concatenation of everything shown live |
| SessionViews.LiveText | backend/internal/service/session_event_projector.go:17-160 | the live texts of a message concatenate to the contents of its group |
| SessionViews.WholeHistoryText | backend/internal/service/session_event_projector.go:179-298 | history shows the contents of the group once, or nothing |
| SessionViews.SinglesAgree | backend/internal/service/session_event_projector.go:17-298 | started, tool, approval, question, artifact and unnamed delta events give the same views in the same order live and in history, exactly when every such payload can be read |
| SessionViews.SinglesCompared | backend/internal/service/session_service.go:1139-1152 | otherwise live shows strictly more |
| SessionViews.LiveShowsEach | backend/internal/service/session_event_projector.go:17-160 | live, each event of a kind that is shown has one view, in order, of its own kind and with what its payload says: the call, the outcome with its error flag, the delta, the todos, the artifact, the request, decision or answer, the terminal |
| SessionViews.HistoryShowsEach | backend/internal/service/session_event_projector.go:179-298 | in history the same for each event that is archived alone and can be read |
| SessionViews.ArtifactIsDated | backend/internal/service/session_event_projector.go:68-84 | live, an artifact carries the time its event was published |
| SessionMessages.ReplyMessageIDs | backend/internal/service/session_service.go:1239-1260 | the loop gives the listed ids, each at its first mention, or the request's own when none is listed |
| SessionMessages.ListedIDsMeaning | backend/internal/service/session_service.go:1239-1272 | exactly the positive numbers some string spells, none twice |
| SessionMessages.SpelledID | backend/internal/service/session_service.go:1239-1284 | a decimal number with any spaces around it is that id, zero is none, and a request id is read behind its prefix |
| SessionMessages.StoredIDsReadBack | backend/internal/service/session_service.go:1228-1237 | stored ids parse to themselves in order |
| SessionMessages.SessionService.HandleSessionRunStarted | backend/internal/service/session_service.go:716-765 | only pending user messages among the replied ones start processing, with their sequences |
| SessionMessages.SessionService.SetSessionStreamStartSeq | backend/internal/service/session_service.go:769-811 | stamps exactly the recent processing messages that have no stream start |
| SessionMessages.SessionService.CompleteSessionMessage | backend/internal/service/session_service.go:1332-1399 | one new assistant message, and the replied user messages completed |
| SessionMessages.SessionService.FailedSessionMessage | backend/internal/service/session_service.go:1401-1478 | one new assistant message, and the replied user messages failed or cancelled |
| SessionMessages.SessionService.HandleRunStateMessage | backend/internal/runnable/session_run_state_projector.go:55-226 | the dispatch of run events to message changes is one delivery of the machine |
| SessionMessages.CompletedRun | backend/internal/runnable/session_run_state_projector.go:144-166 | a completed run adds a completed reply with the run's message and no error, completes every user message listed, and changes nothing else; without a payload it changes nothing |
| SessionMessages.FailedRun | backend/internal/runnable/session_run_state_projector.go:168-203 | a failed run adds a reply with what it told, or its payload, or the error text, and that text; reply and listed user messages are failed, or cancelled if what it told came with that status |
| SessionMessages.CancelledRun | backend/internal/runnable/session_run_state_projector.go:205-240 | a cancelled run adds a cancelled reply with what it told, or the fixed text, and the error it gave, or the fixed one; the listed user messages are cancelled |
| SessionMessages.StartedRun | backend/internal/service/session_service.go:716-765 | a started run puts exactly the pending user messages it answers to processing, from the position of its event |
| SessionMessages.StampedMessages | backend/internal/service/session_service.go:769-811 | the first stream event stamps exactly the user messages that were processing within half an hour and carry no position |
| SessionMessages.SessionService.HandleRunStreamMessage | backend/internal/runnable/session_run_stream_projector.go:38-74 | only the first stream event since the process started stamps |
| SessionMessages.DeliveriesPreserve | backend/internal/service/session_service.go:716-855 | any sequence of deliveries keeps the invariant and moves every message forward only |
| SessionMessages.DeliveriesOnlyMoveForward | backend/internal/service/session_service.go:1332-1511 | under redelivery and reordering the status rank never falls, a processing message has a positive start, each start is written once, assistant messages never change |
| SessionMessages.EveryCompletionAddsAMessage | backend/internal/service/session_service.go:1332-1399 | every delivered completion adds an assistant message |
| SessionMessages.StaleStampUndoesCompletion | backend/internal/service/session_service.go:769-811 | read, save and completion in either serial order end completed; the completion between read and save ends processing |
| SessionStream.GetReplayState | backend/internal/service/session_service.go:1052-1079 | the scan finds the ids of the recent messages and the least of each kind of start |
| SessionStream.StartCovers | backend/internal/service/session_service.go:926-945 | after any deliveries, replay starts at or before a run still being answered exactly when some message updated within the window has a run that starts no later |
| SessionStream.ReplayedExactly | backend/internal/service/session_service.go:1052-1079 | a message being answered is asked for, from no later than its run's start, exactly when it was updated within the window and the position fits an int64 |
| SessionStream.ReplayCoversEveryRun | backend/internal/service/session_service.go:918-1079 | so every message being answered is covered exactly when each was updated within the window and the position fits |
| SessionStream.StaleRunIsMissed | backend/internal/service/session_service.go:1052-1079 | a session whose first message is being answered from position 5 while replay starts at 9 and asks for the second only |
| SessionStream.NothingRecentNothingSent | backend/internal/service/session_service.go:926-967 | with no recent message the client subscribes to new events only and none is admitted |
| SessionStream.RunEventDedup.Mark | backend/internal/service/session_service.go:1030-1044 | true exactly at the first sight of a number |
| SessionStream.SessionSink.EmitEvent | backend/internal/service/session_service.go:918-1021 | sends exactly the admitted, projectable, unseen event and closes on a terminal |
| SessionStream.EndsExactly | backend/internal/service/session_service.go:961-987 | the stream closes exactly at a completed, failed or cancelled run's terminal that is numbered, new and, on replay, answers one of the asked messages |
| SessionStream.LanesMergeFaithfully | backend/internal/service/session_service.go:918-1021 | for any interleaving of the lanes, if no two admitted events share a number, each lane's sent events plus the held one are its wanted events so far, in order |
| SessionStream.AtTheClose | backend/internal/service/session_service.go:982-1020 | when both subscriptions have ended, the client has each lane's wanted events up to where its subscription ended, and gets nothing more |
| SessionStream.TerminalOvertakes | backend/internal/service/session_service.go:982-1020 | a run in which the terminal is sent, the stream closes, and the delta of the other lane is never delivered |
| SessionStream.LostExactly | backend/internal/service/session_service.go:961-1020 | in every run, wherever it is cut, an event that nothing rivals has been sent exactly when its lane has delivered it |
| SessionStream.SentExactly | backend/internal/service/session_service.go:961-987 | a wanted event is sent in every run that drains its lane exactly when no admitted event on the other lane, and no different one before it on its own, has its number |
| SessionStream.HandlerIsTakeThenSend | backend/internal/service/session_service.go:961-999 | an uninterrupted handler is the two steps of the interleaved system, and marks, sends and closes as EmitEvent does |
| SessionStream.DeliveredExactly | backend/internal/infra/mq/nats.go:344-382 | a lane's subscription delivers exactly its events from the start position on, or only new ones |
| SessionStream.ReplayDeliversRun | backend/internal/service/session_service.go:918-1021 | every showable event of a recent run from its start on is on a lane of the replaying client and wanted; it is sent for certain exactly when nothing rivals its number, and then in every run exactly when its lane has delivered it |
| SessionStream.NoNumberIsSentTwice | backend/internal/service/session_service.go:1023-1044 | even with repeated deliveries and clashing numbers |
| SessionStream.SharedNumberIsSentOnce | backend/internal/service/session_service.go:961-970 | two events that share a number are never both sent, also when they belong to different runs |
| SessionStream.SecondRunLosesItsStart | backend/internal/service/session_service.go:918-1044 | two recent messages answered by a run each: both starts are delivered and wanted, both are numbered one, and in no run is the second sent |
| TranslateBatches.Slice | backend/internal/service/default_skill_description_translator.go:110-118 | batches of at most 25, all but the last full, that concatenate to the input |
| TranslateBatches.NoDeadlock | backend/internal/service/default_skill_description_translator.go:129-150 | in every schedule, whatever the batches answer, some step can be taken before the end |
| TranslateBatches.SendsFindTheChannelOpen | backend/internal/service/default_skill_description_translator.go:129-150 | in every schedule a worker with an answer finds the channel open, with room |
| TranslateBatches.EveryScheduleMergesTheUnion | backend/internal/service/default_skill_description_translator.go:110-163 | whatever the batches answer, every schedule keeps to four slots and a fixed number of steps, and ends with a union of exactly the successful answers |
| TranslateBatches.SchedulesAgree | backend/internal/service/default_skill_description_translator.go:258-311 | no two finished schedules differ in the result |
| TranslateBatches.ScheduleIndependence | backend/internal/service/default_skill_description_translator.go:110-163 | the result is schedule independent exactly when successful answers agree on shared keys |
| TranslateBatches.ConcurrentIsSequential | backend/internal/service/default_skill_description_translator.go:110-163 | every schedule ends with what a plain loop would build |
| TranslateBatches.MergeResults | backend/internal/service/default_skill_description_translator.go:152-162 | draining the closed channel merges in arrival order |
| TranslateBatches.AnyBatchCanBeLast | backend/internal/service/default_skill_description_translator.go:133-162 | for each batch some schedule lets it have the last word |
| LoginLimiter.AuthService.EnsureLoginAllowed | backend/internal/service/auth_service.go:476-491 | admission sweeps, reads and refuses a full live window |
| LoginLimiter.AuthService.RecordLoginFailure | backend/internal/service/auth_service.go:493-514 | a failure counts in the live window or opens one |
| LoginLimiter.AuthService.Login | backend/internal/service/auth_service.go:163-201 | a login changes its identifier's row by admission, sweep and outcome; of the other rows its sweeps delete those that have expired, and nothing else |
| LoginLimiter.LiveCounter | backend/internal/service/auth_service.go:476-520 | with a live counter a login is let in below five failures; a wrong password adds one in the same window, a right one clears the counter, and a refused login leaves it |
| LoginLimiter.NoLiveCounter | backend/internal/service/auth_service.go:476-520 | with none, or an expired one, it is let in, and a wrong password opens a five minute window with one failure |
| LoginLimiter.LoginIsARun | backend/internal/service/auth_service.go:163-201 | an uninterrupted login is a run of the request steps to the row it leaves |
| LoginLimiter.LookThenSave | backend/internal/service/auth_service.go:493-514 | reading and then saving undisturbed is recording the failure at once |
| LoginLimiter.FailuresAreBounded | backend/internal/service/auth_service.go:476-520 | over any run of interleaved requests, reads and saves apart, with at most c under way and no other one looking, deciding or saving between a read and its save, the count is at most 4 + c and any half-open five minutes since the last success hold at most 7 + 2c failures |
| LoginLimiter.AtMostNineInFiveMinutes | backend/internal/service/auth_service.go:476-520 | five and nine in every run of one request after the other, reads and saves as they are |
| LoginLimiter.TwoWindowsLater | backend/internal/service/auth_service.go:493-514 | two full windows' failures but one further on, a whole window has passed |
| LoginLimiter.BoundIsReached | backend/internal/service/auth_service.go:35-36 | for every c such a run that reaches both bounds |
| LoginLimiter.NineIsReached | backend/internal/service/auth_service.go:35-36 | a run of single requests with nine in five minutes |
| LoginLimiter.LostUpdatesPassTheBound | backend/internal/service/auth_service.go:493-514 | for every c a run in which 1 + 4c failures at one instant leave a count of five |
| LoginLimiter.StaleSavesPassTheBound | backend/internal/service/auth_service.go:493-514 | for every c above one a run in which fifteen failures at one instant leave a count of five |
| LoginLimiter.OnlyOneAtATimeKeeps | backend/internal/service/auth_service.go:476-520 | every run with at most c under way keeps to five and nine, and likewise to 4 + c and 7 + 2c, exactly when c is one |
| Paths.PrintParse | backend/internal/workspace/workspace.go:195 | a cleaned path is a list of segments: printing and parsing are inverse, so cleaning is idempotent |
| Paths.JoinToCleans | backend/internal/workspace/workspace.go:202 | joining segments is cleaning the joined string |
| Paths.PrefixAtSlash | backend/internal/workspace/workspace.go:249-262 | the string test "equal or up to a slash" is the prefix test on segments |
| Paths.CleanIsNoLonger | backend/internal/workspace/workspace.go:195 | cleaning never lengthens a non-empty path |
| Paths.NamesGoDown | backend/internal/workspace/workspace.go:195 | a name adds a segment, two dots take it back except at the root, a dot and an empty segment add none |
| Paths.RelLeadsThere | backend/internal/workspace/workspace.go:264-276 | walking the relative path from its base ends at its target |
| Workspace.RuntimePathExactly | backend/internal/workspace/workspace.go:249-262 | the protected places are all of .git and all of .leros but .leros/memory |
| Workspace.EnsureInsideExactly | backend/internal/workspace/workspace.go:264-276 | inside means below the root, with a first step that does not look like ".." |
| Workspace.NearestAncestorDecides | backend/internal/workspace/workspace.go:301-320 | resolution is that of the deepest existing ancestor with the missing rest put back |
| Workspace.SafeJoinExactly | backend/internal/workspace/workspace.go:183-213 | a path is accepted exactly when its trimmed, cleaned form is relative, not runtime and resolves inside, and the result is root plus that form |
| Workspace.StorageKeyIsCanonical | backend/internal/workspace/workspace.go:167-180 | the key is the cleaned form, is clean itself, may be stored, and leads back to the same file |
| Workspace.RekeyingIsIdentity | backend/internal/workspace/workspace.go:167-180 | keying a key gives itself exactly when the key has nothing to trim |
| Workspace.RekeyingMayRename | backend/internal/workspace/workspace.go:183-213 | for every name with a space in front, the key does not read back |
| Workspace.TurnsAreApart | backend/internal/workspace/workspace.go:91-134 | a turn's directory lies in another's exactly when all cleaned ids are equal, for any ids |
| Workspace.TurnAccepted | backend/internal/workspace/workspace.go:91-134 | a turn has a workspace exactly when it has an organisation, something is left of each id, and its repository accepts the requested work directory, which it then has |
| Workspace.PlainTurnsAreApart | backend/internal/workspace/workspace.go:91-134 | for ids that need no cleaning: exactly when organisation, project, task and request are equal |
| Workspace.PlainTurnLies | backend/internal/workspace/workspace.go:91-134 | such a turn is accepted, and its repository and directory are spelled out |
| Workspace.CleanIDExactly | backend/internal/workspace/workspace.go:430-437 | an id loses the spaces around it and then the slashes around that; what is left is the id, or nothing if it is empty, a dot or two, or has a slash of either kind |
| Workspace.EveryIDSplits | backend/internal/workspace/workspace.go:430-437 | every string has that form |
| Workspace.ArtifactsAvoidTurns | backend/internal/workspace/workspace.go:91-213 | no accepted path names a file of a turn in the same repository |
| Workspace.OwnFiles | backend/internal/workspace/workspace.go:121-133 | manifest and baseline are two files of the turn's own directory |
| Workspace.RelativeWorkDir | backend/internal/workspace/workspace.go:215-247 | a relative work directory is accepted exactly when it is the repository or may be stored |
| Workspace.AbsoluteWorkDir | backend/internal/workspace/workspace.go:215-247 | an absolute one exactly when it lies in the repository |
| Scanner.IgnoreChecker.IsIgnored | backend/internal/workspace/scanner.go:264-283 | the cached answer is the rules' answer |
| Scanner.ScanRepoFiles | backend/internal/workspace/scanner.go:174-213 | the walk with pruning appends the scan of the tree |
| Scanner.ScanIsFilter | backend/internal/workspace/scanner.go:174-261 | pruning directories on the way gives every file that no directory above it and no rule hides, in order |
| Scanner.ScanIsDistinct | backend/internal/workspace/scanner.go:174-213 | no path twice |
| Scanner.VisibleExactly | backend/internal/workspace/scanner.go:244-295 | a file is visible exactly when no directory on its way has an excluded name in any case of letters or is the repository's .git or .leros, and neither its own name nor git leaves it out |
| Sorting.AscendingIsUnique | backend/internal/workspace/artifacts.go:97 | a sorted list is determined by its elements, so map order does not matter |
| Sorting.SortStrings | backend/internal/workspace/artifacts.go:93-97 | the keys ascending, each once |
| Sorting.LessExactly | backend/internal/workspace/artifacts.go:97 | the order is by the first difference, a prefix first |
| Artifacts.ReadBaseline | backend/internal/workspace/scanner.go:134-156 | later lines win, unreadable ones are skipped |
| Artifacts.LastLineWins | backend/internal/workspace/scanner.go:134-156 | what is recorded of a file is the last readable line with its path, nothing without one |
| Artifacts.DiffFiles | backend/internal/workspace/scanner.go:158-172 | the candidates are the changed files in scan order |
| Artifacts.DiffIsExact | backend/internal/workspace/scanner.go:24-172 | against a recorded baseline these are exactly the files not recorded with this size and time |
| Artifacts.ManifestHasFinalEntries | backend/internal/workspace/scanner.go:107-132 | whether some readable line is final |
| Artifacts.TurnFiles.WriteBaseline | backend/internal/workspace/scanner.go:24-52 | the baseline holds one line a file |
| Artifacts.TurnFiles.ReconcileArtifacts | backend/internal/workspace/scanner.go:54-105 | appends one final line a candidate unless the manifest has finals |
| Artifacts.AppendDeclarations | backend/internal/workspace/scanner.go:81-104 | appending line by line glues at most the first to an unterminated line |
| Artifacts.SecondReconcile | backend/internal/workspace/scanner.go:54-105 | a second pass over the same tree changes nothing, except after a single candidate was glued |
| Artifacts.EveryLineCounts | backend/internal/workspace/artifacts.go:62-89 | reading succeeds exactly when every line is readable and every final path stays below |
| Artifacts.BadKeyExactly | backend/internal/workspace/artifacts.go:76-80 | a final path is refused exactly when it is the repository, absolute, or climbs out and on |
| Artifacts.LastClaimWins | backend/internal/workspace/artifacts.go:62-89 | for each cleaned path the last final declaration counts |
| Artifacts.TurnFiles.CollectFinalArtifacts | backend/internal/workspace/artifacts.go:48-109 | the collected records are those of the declared map in ascending path order, or the first error |
| Artifacts.BuildExactly | backend/internal/workspace/artifacts.go:111-154 | for a plain file the record exists exactly when the path may be stored, and carries its path, key, size and name |
| Artifacts.DeclaredRecord | backend/internal/workspace/artifacts.go:111-154 | a declaration gives its record, under its own trimmed title or else the file's name, with path, key and size, or the first thing wrong with it |
| Artifacts.CollectAfterReconcile | backend/internal/workspace/artifacts.go:48-109 | collecting after reconciling lists every changed file once, sorted, exactly when all of them may be stored and the manifest ended cleanly |
| Artifacts.ScannedFilesAreStorable | backend/internal/workspace/workspace.go:194-201 | of scanned files only a plain .git or .leros at the top and names starting with ".." cannot be stored |
| GitHubLinks.SplitCleanPath | backend/internal/service/skill_marketplace_service.go:1678-1691 | the loop keeps the trimmed non-empty segments |
| GitHubLinks.CleanPartsBack | backend/internal/service/skill_marketplace_service.go:1678-1691 | slashes around a path do not matter and clean segments come back |
| GitHubLinks.SkillDirExactly | backend/internal/service/skill_marketplace_service.go:1666-1676 | the directory of a file spelled like SKILL.md, an error for any other |
| GitHubLinks.NormalizedExactly | backend/internal/service/skill_marketplace_service.go:1649-1664 | an identifier is owner, repository without one .git, and the directory without a last skill file |
| GitHubLinks.SkillSpelledOut | backend/internal/service/skill_marketplace_service.go:1597-1664 | for a repository with or without .git and any directories, the answer as one string: owner, repository and directory, or a dot, with the ref |
| GitHubLinks.PathsAgree | backend/internal/service/skill_marketplace_service.go:1597-1647 | the segments of the tree, blob and raw form of a skill's path give the same identifier and ref |
| GitHubLinks.LinksAgree | backend/internal/service/skill_marketplace_service.go:1561-1647 | tree, blob and raw links of one skill give the same identifier and ref, for any clean segments including none |
| GitHubLinks.LinkAcceptedExactly | backend/internal/service/skill_marketplace_service.go:1577-1647 | a link is accepted exactly when it leads on a web host to a repository, a tree or a skill file's blob, or on the raw host to a skill file, and the repository is named more than .git |
| GitHubLinks.ShortPathGivesItself | backend/internal/service/skill_marketplace_service.go:1561-1595 | a short path parses to itself exactly when there is no .git to cut and no skill file to drop |
| GitHubLinks.IdentifierGivesItself | backend/internal/service/skill_marketplace_service.go:1561-1664 | the same for the identifier of a link |
| LLMBaseURL.NormalizeLLMBaseURL | backend/internal/service/llm_model_service.go:462-474 | the loop strips the first listed suffix and a /v1 before it |
| LLMBaseURL.DetectURLHasV1 | backend/internal/service/llm_model_service.go:490-507 | the loop looks for /v1 before the first endpoint or at the end |
| LLMBaseURL.NormalizingRecoversRoot | backend/internal/service/llm_model_service.go:462-488 | for every root, flag, endpoint and trailing slashes, normalising gives the root exactly when its end is not read as part of the endpoint |
| LLMBaseURL.DetectionRecoversFlag | backend/internal/service/llm_model_service.go:490-507 | detection gives the flag, with its exact exception |
| LLMBaseURL.RebuildingDropsEndpoint | backend/internal/service/llm_model_service.go:510-516 | rebuilding gives the URL without its endpoint exactly when nothing is hidden |
| LLMBaseURL.NormalizedIsStable | backend/internal/service/llm_model_service.go:462-474 | normalising leaves a URL as it is exactly when it is a root |
| LLMBaseURL.EndpointBeforeV1 | backend/internal/service/llm_model_service.go:462-474 | every endpoint in front of /v1 survives the first call and is no root |
| SkillTokens.ParseTokens | backend/internal/skill/token.go:12-23 | the loop computes the recursive reading and always ends, each turn strictly shortening the input |
| SkillTokens.MatchIsTheReading | backend/internal/skill/token.go:8 | the matcher finds the only decomposition the expression allows |
| SkillTokens.MatchReads | backend/internal/skill/token.go:8 | and finds nothing else |
| SkillTokens.RemainderHasNoToken | backend/internal/skill/token.go:12-23 | what remains starts with no token |
| SkillTokens.RemainderIsTrimmed | backend/internal/skill/token.go:20 | it is the input when nothing was taken and trimmed otherwise |
| SkillTokens.ParsePrinted | backend/internal/skill/token.go:12-23 | printed tokens come back, followed by whatever the trimmed text parses to |
| SkillTokens.RoundTrip | backend/internal/skill/token.go:12-23 | tokens and trimmed text come back exactly when that text starts with no token |

## Left out

- HTTP, NATS, gorm, git, object storage, model calls, SMS, bcrypt and JWT: only their success or failure and the meaning of a table or log.
- `observeLocked` counters, tool records and usage in the journal and its snapshot: bookkeeping beside the archive.
- Trace and event ids, and wall-clock timestamps of run events: field copies.
- JSON: a payload is a datatype with a decode function; only message ids, roles and contents of deltas are merged, fields one payload shares with another type are not.
- Events a runtime's goroutines emit after it returned: `Observer` does not check the cancelled context, so they would follow the terminal.
- Nil-service checks, and trimming and lower-casing of runtime kinds in the registry.
- Work-title events, message sequence numbers, other sessions, missing sessions, request-id and empty-session checks: one branch each.
- Transactions are atomic deliveries, as if serialised; `StaleStampUndoesCompletion` shows what that rests on.
- SessionStream.AtTheClose: for streams in which no two admitted events share a number; LostExactly and SentExactly say what becomes of a single event among clashing ones.
- LoginLimiter.FailuresAreBounded: a request's clock reading and its database access are one step. A failed save is a flag; that saving a new counter fails while an old row of the identifier is still there (its unique key) is one of the ways to fail, and the witnesses do not rely on such a save.
- LastError texts and gorm's zero-value updates on deployment rows, deleting assistants, and `EnsureDefaultWorkerForOrg`, which saves a whole row read earlier.
- The single-batch shortcut of the translator, which returns that batch's own error, and cancellation through the context.
- Sequence numbers are unbounded integers: no overflow of int64, and metadata keeps them exactly (the code stores them as floats, exact below 2^53).
- TurnFiles.ReconcileArtifacts: does not model failing opens, writes and reads of the two files, only a failing scan; TurnFiles.CollectFinalArtifacts: no context cancellation, and bufio's limit on the length of a line is not modelled.
- Content hashes, MIME detection, descriptions and types of artifact records: not part of their identity.
- `PrepareTaskWorkspace`, cloning, pulling and pushing repositories.
- Strings are sequences of code points; invalid UTF-8 is not part of this model. Letters outside ASCII are lower-cased or folded only where the result is ASCII.
- GitHubLinks.IdentifierGivesItself: for repositories whose name without .git is a segment that cleaning and trimming keep; `..git` is not.
