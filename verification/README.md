# smart-c playground: verified model

smart-c lets a visitor write a small C project in the browser, compile and run it on a worker, and
get language-server diagnostics while typing. This project models the parts of it where correctness
is hardest to see, and proves what they promise.

- **Executor control plane** (`ControlPlane`, `Sessions`, `Ledger`, `Subsequences`, `Line`,
  `Assignment`, `Wakeup`, `Invariant`, `Progress`, `Safety`, `Causes`, `Alone`, `Custody`,
  `Connections`, `Quiescence`, `Backlog`, `CancelRace`, `Observation`, `AppState`). `AppState` keeps sessions, a queue, a worker table and reservation counters, each
  behind its own lock. One lock segment is one atomic step; an operation suspended between two
  segments is part of the state. The tokio `Notify` is one permit bit. `Inv` is an invariant of every
  step, so the theorems in `Safety` hold in every state of every run, for every interleaving;
  `Causes` says why a session ended as it did, `Custody` where its job was until then, `Alone` what an
  operation does by itself; `Progress` and `Quiescence` say where operations under way lead. The class `AppState` runs the
  dispatcher and the ticket check imperatively; its methods are proved to perform paths of the same
  step relation.
- **Language-server guard** (`Text`, `Json`, `Positions`, `Guard`, `GuardLedger`, `JsonRpcGuard`, `GuardMethods`).
  `Guard` states which messages are acceptable, and what they change, in terms of the documents that
  are open; the class `LspJsonRpcGuard` decides it with the original's branches and running counts.
  `GuardLedger` proves what holds over any sequence of messages, `GuardMethods` what a message does by
  the text of its method.
- **WebSocket adapter and session table** (`Adapter`, `Mirror`, `Rebuilds`, `Draining`, `SessionManager`). A synchronous
  JavaScript segment is one step; the promise chain is a queue of tasks.
- **Worker job run** (`Processes`, `Execution`, `Delivery`). The two `select!` loops run over an
  arbitrary sequence of events. What an event must lead to is stated from the events before it; the
  loops compute it from running variables. `Delivery` replays what a job sends against the API, and
  `Observation` shows that every run of the control plane is such a replay.
- **Rate limiters** (`Windows`, `RateLimit`, `GuardRate`, `TokenBucket`).
- **Admission** (`Utf8`, `Names`, `Admission`). Four validators, two languages.

`Common`, `Phases` and `Sums` hold what several of them share.

## Results that differ from what one would expect

- The backlog can pass `queue_capacity` by one, and so can the queue itself: a job in the
  dispatcher's hand is not counted when the next ticket is accepted, and may be put back
  (`Backlog.QueueCanPassCapacity`). It happens exactly when a ticket is accepted while that job takes
  the last place (`Backlog.WithinCapacityIff`), and one is the most (`Safety.QueueDiscipline`).
- A cancellation can overtake an assignment: the worker then runs a job the API is completing. A report
  that reaches the API after the worker was freed is refused and ends the connection
  (`CancelRace.WorkerIsCutOff`, `Delivery.OvertakenReportIsRefused`); one that was past the gate when
  the session was removed is refused without that (`CancelRace.ReportIsLost`,
  `Delivery.OvertakenLookupIsRefused`). `Delivery.WorkerIsUnderstood` says exactly when nothing is
  refused.
- The worker allows 256 KiB of output to the compiler and again to the linker, the API allows
  256 KiB to both together. `Delivery.RunJob` states the exact condition; `Delivery.RunChattyJob` is
  a job that does not meet it.
- The web server admits projects that the API then rejects. `Admission.ApiAdmitsIff` says exactly
  which: those without a `main.c` in lower case, without any content, or with a lone surrogate.
- A document with a lone surrogate is tracked as it is and written as U+FFFD; a file gives back the
  tracked text exactly when the text is well formed (`Mirror.FileGivesBackTextIff`).
- A fixed window admits more than its limit in an interval of its own length: up to 2·limit − 1 in the
  web server, where a window opens with a counted request, and up to 2·limit in the guard, whose first
  window opens empty. Both are reached (`RateLimit.TwiceLessOneIsReached`, `GuardRate.TwiceIsReached`).
  The plain limit holds exactly for the rules and configurations `RateLimit.KeepsLimitIff` and
  `GuardRate.KeepsLimitIff` name.
- The guard's positions follow the code, which is stricter than the "Position" section of the
  Language Server Protocol 3.17: only a line feed ends a line, a carriage return before it is left
  out, and a character beyond the end of its line is rejected. So one offset, just after a
  line-final carriage return, has no position (`Positions.OffsetOfPosition`).

## Model

| member | source | states |
|---|---|---|
| `Invariant.InitInv` | crates/executor-api/src/state.rs:148-195 | The empty state satisfies the invariant over sessions, counters, queue, workers, permits and suspended operations. |
| `Invariant.StepKeeps` | crates/executor-api/src/state.rs:148-917 | Every lock segment of every operation, at any moment, keeps that invariant and lets each session only progress. |
| `Safety.RunInv` | crates/executor-api/src/state.rs:148-917 | The invariant holds in every state of every run. |
| `Safety.RunGrows` | crates/executor-api/src/state.rs:626-769 | Between any two points of a run sessions only progress, the activation and dispatch logs only get longer, and nothing finished gets dispatched. |
| `Safety.ReservationLedger` | crates/executor-api/src/state.rs:204-306 | The visitor and address counters equal the number of sessions holding a slot, the pending counter the number awaiting entry; caps hold, no zero entry stays, each reservation is given back exactly once. |
| `Safety.SubtractionsNeverClip` | crates/executor-api/src/state.rs:771-789 | Whenever a `saturating_sub` is about to run, its counter is above zero. |
| `Safety.AssignmentIntegrity` | crates/executor-api/src/state.rs:792-917 | No two workers hold the same job, busy workers stay within the global cap, and an assigned unfinished session is its worker's current job or is carried by an unregister in flight that, with nothing else running, completes it; even across reconnections. |
| `Safety.NeverHeldAgain` | crates/executor-api/src/state.rs:573-596 | Along a run, a dispatched job that no worker holds any more is never held again, so no later event for it passes the gate of the event handler. |
| `Safety.ClosedIsSilent` | crates/executor-api/src/state.rs:758-763 | Once a completion has freed the worker, no event for the session passes that gate. |
| `CancelRace.WorkerIsCutOff` | crates/executor-api/src/state.rs:365-390 | A concrete run: a cancellation reads that no worker is assigned, the job is assigned, the cancellation completes it as cancelled, and the connected worker that runs it can no longer report. |
| `CancelRace.ReportIsLost` | crates/executor-api/src/state.rs:580-602 | A concrete run: a report passes the gate while a cancellation completes the session, and its lookup finds the session gone. |
| `Safety.NoLostWakeup` | crates/executor-api/src/state.rs:838-917 | A dispatcher parked without a permit, with no notification due, has nothing to do: the queue is empty, no worker is idle, or the cap is reached. |
| `Safety.QueueDiscipline` | crates/executor-api/src/state.rs:229-306 | Dispatched jobs, the job in hand and the queue are a repetition-free subsequence of the activated ones; queue, hand and pending together pass the capacity by one at most. |
| `Safety.DispatchIsFifo` | crates/executor-api/src/state.rs:846-917 | Of two dispatched jobs the one activated earlier was dispatched earlier. |
| `Safety.CompletionOnce` | crates/executor-api/src/state.rs:727-769 | A session emits at most one Exit, exactly one when its completion is over; a finished session has a terminal phase; live sessions stay within the capacity. |
| `Safety.PhaseNeverFalls` | crates/executor-api/src/state.rs:626-646 | Along a run the rank of a session's phase never falls, and the phase is frozen once the session is finished. |
| `Safety.NeverDispatchedAfterFinish` | crates/executor-api/src/state.rs:846-917 | A session finished before it was dispatched is never dispatched. |
| `Safety.TotalsAtRest` | crates/executor-api/src/state.rs:182-195 | When no creation or completion is under way, created_total equals completed_total plus the live sessions. |
| `Causes.EndWasCalledFor` | crates/executor-api/src/state.rs:365-434 | Over every run a finished session is in a phase that an earlier step called for while it was unfinished: the phase of a cancellation made while no worker had the job, the phase standing for the reason the worker holding the job reported, or Exited because that worker was removed. |
| `Causes.StepCalled` | crates/executor-api/src/state.rs:365-917 | Every lock segment keeps each end under way, and each end of a session, one that was called for. |
| `Phases.TransitionMeans` | crates/executor-api/src/state.rs:1133-1148 | The automaton read backwards: which phases a report of each phase may find; a report repeats the phase or moves the job on. |
| `Phases.ExitPhaseStands` | crates/executor-api/src/state.rs:1180-1190 | The API's table leaves every exit reason in the one phase that stands for it. |
| `Alone.CancelEnds` | crates/executor-api/src/state.rs:365-390 | Left alone, a cancellation of a session no worker has takes the job out of the queue and ends the session, and no other, in the phase it asks for. |
| `Alone.CancelGoesToWorker` | crates/executor-api/src/state.rs:392-398 | Left alone, a cancellation of an assigned session changes no table and addresses a command to the assigned worker. |
| `Alone.ClosedChannelRemovesWorker` | crates/executor-api/src/state.rs:453-486 | A command that finds the worker's channel closed takes exactly that worker out of the table, and its unregister goes on with the worker's job. |
| `Alone.ExitEnds` | crates/executor-api/src/state.rs:573-622 | Left alone, an exit reported by the worker that holds the job ends the session, and no other, in the phase that stands for its reason. |
| `Alone.PhaseIsTaken` | crates/executor-api/src/state.rs:626-646 | Left alone, a reported phase is taken over exactly when the automaton allows it and the session is unfinished; nothing else changes. |
| `Alone.RemovalEnds` | crates/executor-api/src/state.rs:792-835 | Left alone, the removal of a worker takes it out of the table and ends the session of its job as exited. |
| `Custody.NoJobIsLost` | crates/executor-api/src/state.rs:365-917 | Over every run an activated job whose session is unfinished is queued, in the dispatcher's hand, held by a worker, carried by an unregister or about to be completed; once dispatched it is held or carried. |
| `Custody.StepKept` | crates/executor-api/src/state.rs:365-917 | Every lock segment keeps every activated job accounted for. |
| `Custody.RestingJobs` | crates/executor-api/src/state.rs:838-917 | Once nothing is under way, an unfinished activated job is with a worker, or queued while no worker can take one. |
| `Custody.UnregisterWaits` | crates/executor-api/src/state.rs:812-835 | An unregister that ended a session gives notice only once that session is closed: Exit broadcast, out of the table, reservation given back, held by no worker. |
| `Connections.StepConnects` | crates/executor-api/src/state.rs:490-535 | A worker is connected under a connection from its registration under a fresh one until its own unregister of that connection; no other step connects or disconnects it. |
| `Connections.EndedConnectionIsSilent` | crates/executor-api/src/state.rs:580-596 | Over every run a connection that has ended is never used again, so no later event under it passes the gate, whatever worker it names. |
| `Backlog.PassesCapacityIff` | crates/executor-api/src/state.rs:229-237 | One step takes the backlog over the capacity exactly when it accepts a ticket in that situation. |
| `Backlog.WithinCapacityIff` | crates/executor-api/src/state.rs:229-237 | A run keeps its backlog within the capacity exactly when no ticket is accepted while the dispatcher holds a job and that job takes the last place. |
| `Backlog.QueueCanPassCapacity` | crates/executor-api/src/state.rs:229-237 | A concrete run in which the queue itself holds one job more than its capacity, so the bound of `QueueDiscipline` is reached. |
| `Ledger.ReserveKeepsLedger` | crates/executor-api/src/state.rs:204-275 | Accepting a ticket books exactly one slot of the visitor, one of the address and one pending activation. |
| `Ledger.EnqueueKeepsLedger` | crates/executor-api/src/state.rs:290-306 | Enqueueing turns one pending activation into a queued job, without clipping. |
| `Ledger.BookKeepsLedger` | crates/executor-api/src/state.rs:771-789 | Releasing gives back exactly what was reserved, without clipping. |
| `Ledger.SlotGivenBack` | crates/executor-api/src/state.rs:1192-1199 | Decrementing a counter keeps it exact and drops the entry at zero. |
| `Assignment.UnregisterKeepsAssignment` | crates/executor-api/src/state.rs:792-835 | Removing a worker hands its job to the unregister that removed it, so no assigned session is orphaned. |
| `Assignment.AssignKeepsAssignment` | crates/executor-api/src/state.rs:886-892 | Giving a never dispatched job to an idle worker below the cap keeps assignments one to one. |
| `Line.WithoutIsSub` | crates/executor-api/src/state.rs:378-379 | Removing a cancelled id from the queue removes it, keeps all others and their order. |
| `Line.HandIsNew` | crates/executor-api/src/state.rs:847-871 | The job in the dispatcher's hand was activated and has never been dispatched. |
| `Sessions.ReportedOk` | crates/executor-api/src/state.rs:626-646 | A phase report keeps the session's flags consistent and never moves its phase backwards. |
| `Sessions.AdvancedOk` | crates/executor-api/src/state.rs:727-789 | Each segment of a completion keeps the session's flags, exit count and release count consistent. |
| `AppState.LeadsKeeps` | crates/executor-api/src/state.rs:838-917 | Whatever a method does through steps of the model keeps the invariant. |
| `Progress.CompletionRunsOut` | crates/executor-api/src/state.rs:727-769 | A completion is never blocked: from any of its segments its own segments alone lead to a session out of the table, one exit sent, the reservation given back and no worker holding it. |
| `Progress.CarriedIsCompleted` | crates/executor-api/src/state.rs:798-834 | An unregister that carries a job leads to that end by its own segments and those of the completion alone. |
| `Quiescence.InternalIsLighter` | crates/executor-api/src/state.rs:290-917 | Every segment of an operation under way, the dispatcher included, lowers the weight of the state. |
| `Quiescence.EveryScheduleEnds` | crates/executor-api/src/state.rs:290-917 | However the operations under way are scheduled, they take at most as many segments as the state weighs. |
| `Quiescence.StuckIsAtRest` | crates/executor-api/src/state.rs:838-917 | A state in which no operation under way can go on has none: no suspended operation, every finished session closed, and a parked dispatcher with an empty queue or no worker to give a job to. |
| `Quiescence.Settles` | crates/executor-api/src/state.rs:290-917 | From every state that satisfies the invariant, hence every reachable one, the operations under way lead by themselves to such a state. |
| `AppState.AppState.constructor` | crates/executor-api/src/state.rs:148-195 | A new control plane is in the initial state. |
| `AppState.AppState.ConsumeTicket` | crates/executor-api/src/state.rs:204-275 | A ticket is accepted exactly when it is unused, its session is unfinished and all three caps leave room; each refusal has its reason, and a refusal changes nothing. |
| `AppState.AppState.PickWorker` | crates/executor-api/src/state.rs:873-886 | No worker is picked exactly when the cap is reached or none is idle; otherwise an idle one is. |
| `AppState.AppState.PopLive` | crates/executor-api/src/state.rs:847-852 | Pops the front of the queue and keeps it in hand only if its session is live. |
| `AppState.AppState.Offer` | crates/executor-api/src/state.rs:886-904 | The job in hand becomes the picked worker's job, or stays in hand if there is none or its channel failed. |
| `AppState.AppState.DropFinished` | crates/executor-api/src/state.rs:868-871 | A job in hand whose session is finished is dropped. |
| `AppState.AppState.PutBack` | crates/executor-api/src/state.rs:905-916 | The job returns to the front of the queue; a worker whose channel failed is gone from the table. |
| `AppState.AppState.TryDispatchOne` | crates/executor-api/src/state.rs:846-917 | A true result means that queue plus workers shrank; a false one that the queue is empty or no worker can take a job. |
| `AppState.AppState.Drain` | crates/executor-api/src/state.rs:838-844 | Without interference the dispatcher's loop ends, and only when the queue is empty, no worker is idle or the cap is reached. |
| `Json.CleanIsNoStray` | apps/lsp/src/json-rpc-guard.ts:548-595 | The recursive reading of a clean value is that no member at any depth is a stray URI. |
| `Json.PushElems` | apps/lsp/src/json-rpc-guard.ts:563-571 | Pushing the elements of an array adds exactly their weight and their obligations to the stack. |
| `Json.PushFields` | apps/lsp/src/json-rpc-guard.ts:576-591 | Scanning the members of an object stops exactly at a stray URI and otherwise adds exactly its containers. |
| `Json.HasUnexpectedUri` | apps/lsp/src/json-rpc-guard.ts:548-595 | The bounded stack search answers false exactly when node count and depth are within their limits and no disallowed URI-named string occurs anywhere. |
| `Positions.Offset` | apps/lsp/src/json-rpc-guard.ts:632-664 | A valid position denotes an offset inside the text. |
| `Positions.OffsetEmbedsOrder` | apps/lsp/src/json-rpc-guard.ts:614-620 | Comparing the offsets of two valid positions is comparing the positions. |
| `Positions.OffsetOfPosition` | apps/lsp/src/json-rpc-guard.ts:632-664 | Every offset except those just after a line-final carriage return is the offset of its position. |
| `Positions.PositionOfOffset` | apps/lsp/src/json-rpc-guard.ts:632-664 | The position of the offset of a valid position is that position. |
| `Positions.PositionToOffset` | apps/lsp/src/json-rpc-guard.ts:632-664 | The line loop returns the offset of exactly the valid positions, and nothing for the others. |
| `Positions.ApplyDocumentChange` | apps/lsp/src/json-rpc-guard.ts:600-627 | A change is applied exactly when it is well formed, in range, ordered and leaves a safe text; the result is the full text or the spliced one. |
| `Positions.RangeIsSpliced` | apps/lsp/src/json-rpc-guard.ts:600-627 | A range change keeps every code unit outside the range and replaces all inside it. |
| `Positions.EditIsUndone` | apps/lsp/src/json-rpc-guard.ts:600-664 | After any range edit the inserted text can be addressed as a range exactly when neither end falls just after a line-final carriage return, and then putting the old text back restores the document. |
| `Positions.LoneReturnCannotBeUndone` | apps/lsp/src/json-rpc-guard.ts:656-661 | No valid position denotes the end of a carriage return typed at the end of a text, so that edit falls outside the condition. |
| `GuardLedger.MessageKeeps` | apps/lsp/src/json-rpc-guard.ts:175-199 | Every message, accepted or not, keeps the byte ledger, the allowed URIs, the NUL-free texts and the lifecycle order. |
| `GuardLedger.LedgerAlways` | apps/lsp/src/json-rpc-guard.ts:302-436 | After any sequence of messages the byte count is the sum of the UTF-8 lengths of the tracked texts and within the maximum, tracked documents are allowed and NUL-free, and documents are open only after `initialized`. |
| `GuardLedger.RejectionChangesNothing` | apps/lsp/src/json-rpc-guard.ts:338-378 | A rejected message, even one that fails midway through its changes, leaves every document as it was. |
| `GuardLedger.FrozenAfterShutdown` | apps/lsp/src/json-rpc-guard.ts:247-297 | After `shutdown` no message opens, changes or closes a document. |
| `GuardLedger.VersionsNeverFall` | apps/lsp/src/json-rpc-guard.ts:338-378 | While a document stays open its version never falls. |
| `GuardLedger.VersionsIncrease` | apps/lsp/src/json-rpc-guard.ts:338-378 | Each accepted `didChange` of a document that stays open strictly raises its version over all earlier ones. |
| `GuardLedger.CloseUndoesOpen` | apps/lsp/src/json-rpc-guard.ts:383-399 | Closing a document just opened takes the tracked documents and the byte count back to where they were. |
| `JsonRpcGuard.ApplyAll` | apps/lsp/src/json-rpc-guard.ts:357-364 | The change loop yields the text after all changes, or nothing at the first that does not apply. |
| `JsonRpcGuard.LspJsonRpcGuard.constructor` | apps/lsp/src/json-rpc-guard.ts:158-170 | A new guard tracks nothing and satisfies the ledger. |
| `JsonRpcGuard.LspJsonRpcGuard.ValidateClientMessage` | apps/lsp/src/json-rpc-guard.ts:175-199 | The mutated fields and the answer are those of `OnMessage`, and the ledger holds again. |
| `JsonRpcGuard.LspJsonRpcGuard.TakeDocumentUpdate` | apps/lsp/src/json-rpc-guard.ts:204-208 | The pending update is handed out once and then gone. |
| `JsonRpcGuard.LspJsonRpcGuard.ValidateClientMethod` | apps/lsp/src/json-rpc-guard.ts:247-297 | The comparisons of the method's name accept a call exactly in its stage of the life cycle and with sound parameters; then exactly its effect takes place, otherwise nothing does. |
| `JsonRpcGuard.LspJsonRpcGuard.ValidateDidOpen` | apps/lsp/src/json-rpc-guard.ts:302-336 | Accepted exactly when the document is allowed, not open, NUL-free and versioned and all open texts together fit; the branches and the running byte count decide as that sum does, and a refusal changes nothing. |
| `JsonRpcGuard.LspJsonRpcGuard.ValidateDidChange` | apps/lsp/src/json-rpc-guard.ts:338-378 | Accepted exactly when the document is open, the version newer, one to 128 changes all apply in turn and all open texts together fit; then exactly that text is tracked and handed out, otherwise nothing changes. |
| `JsonRpcGuard.LspJsonRpcGuard.ValidateDidClose` | apps/lsp/src/json-rpc-guard.ts:383-399 | Accepted exactly when the document is open; the byte count is then the sum over the remaining ones. |
| `JsonRpcGuard.LspJsonRpcGuard.ValidateDidSave` | apps/lsp/src/json-rpc-guard.ts:404-436 | Accepted exactly when the document is open and a text that comes with it is NUL-free and fits with all others; it is then tracked under the same version. |
| `JsonRpcGuard.LspJsonRpcGuard.StoreDocument` | apps/lsp/src/json-rpc-guard.ts:366-377 | The running difference of byte counts decides and leaves the count as the sum over all open documents would. |
| `JsonRpcGuard.ActiveMethod` | apps/lsp/src/json-rpc-guard.ts:67-71 | Of the client methods of an active session, the filter by prefix finds exactly the requests about a document. |
| `JsonRpcGuard.IsValidInitializeParams` | apps/lsp/src/json-rpc-guard.ts:463-493 | Accepted exactly when the workspace is the only root named and no options are passed. |
| `JsonRpcGuard.IsSafeConfigurationChange` | apps/lsp/src/json-rpc-guard.ts:498-508 | Accepted exactly when no settings are passed. |
| `JsonRpcGuard.HasAllowedTextDocument` | apps/lsp/src/json-rpc-guard.ts:513-520 | True exactly when the parameters name a document of the session. |
| `JsonRpcGuard.IsJsonRpcResponse` | apps/lsp/src/json-rpc-guard.ts:537-543 | True exactly for an identified message with either a result or an error. |
| `GuardMethods.DidOpenMeans` | apps/lsp/src/json-rpc-guard.ts:302-336 | A message whose method reads textDocument/didOpen is accepted exactly in an active session for an allowed document that is not open, with a NUL-free text that fits; it then opens that document with that text and version, charges its bytes, and changes nothing else. |
| `GuardMethods.DidChangeMeans` | apps/lsp/src/json-rpc-guard.ts:338-378 | One that reads textDocument/didChange is accepted exactly for an open document, a newer version and one to 128 changes that apply in turn and fit; it then tracks the text they lead to, under that version. |
| `GuardMethods.DidCloseMeans` | apps/lsp/src/json-rpc-guard.ts:383-399 | One that reads textDocument/didClose is accepted exactly for an open document; it then removes that one and gives its bytes back. |
| `GuardMethods.DidSaveMeans` | apps/lsp/src/json-rpc-guard.ts:404-436 | One that reads textDocument/didSave and carries no text changes nothing; one with a text tracks it under the same version exactly when it is NUL-free and fits. |
| `GuardMethods.InitializeMeans` | apps/lsp/src/json-rpc-guard.ts:251-257 | One that reads initialize is accepted exactly once and with sound parameters, and starts the session. |
| `GuardMethods.InitializedMeans` | apps/lsp/src/json-rpc-guard.ts:258-264 | One that reads initialized is accepted exactly once, after initialize, and makes the session active. |
| `GuardMethods.ShutdownMeans` | apps/lsp/src/json-rpc-guard.ts:265-271 | One that reads shutdown is accepted exactly in an active session, and ends it. |
| `GuardMethods.ExitMeans` | apps/lsp/src/json-rpc-guard.ts:272-274 | One that reads exit is accepted exactly after shutdown. |
| `GuardMethods.RequestMeans` | apps/lsp/src/json-rpc-guard.ts:292-295 | A document request is accepted exactly in an active session about a document of the session, and changes nothing. |
| `GuardMethods.OtherRequestMeans` | apps/lsp/src/json-rpc-guard.ts:275-295 | The other requests are accepted exactly in an active session, and change nothing. |
| `GuardMethods.DidChangeConfigurationMeans` | apps/lsp/src/json-rpc-guard.ts:288-291 | A change of configuration is accepted exactly in an active session and without settings, and changes nothing. |
| `GuardMethods.NoticeMeans` | apps/lsp/src/json-rpc-guard.ts:248-250 | A cancellation or trace notice is accepted whenever the message is heard, and changes nothing. |
| `GuardMethods.ResponseMeans` | apps/lsp/src/json-rpc-guard.ts:191-193 | A message without a method is accepted exactly when it is a response, and changes nothing. |
| `GuardMethods.RefusalCodes` | apps/lsp/src/json-rpc-guard.ts:441-457 | A refusal carries 1013 exactly when the window is used up, 1009 exactly when otherwise the session is over its bytes, and 1008 in every other case. |
| `GuardMethods.UnlistedMethodIsRefused` | apps/lsp/src/json-rpc-guard.ts:194-196 | A message whose method spells none of the client methods, or is no string, is refused. |
| `Mirror.StepKeeps` | apps/lsp/src/session-manager.ts:653-805 | Receiving, writing, forwarding, timers, rebuilds, failures and closing keep disk, queue and guard in agreement. |
| `Mirror.MirrorsStep` | apps/lsp/src/json-rpc-guard.ts:302-436 | A message changes the tracked texts exactly as its update will change the workspace. |
| `Mirror.DrainedDiskMirrorsGuard` | apps/lsp/src/session-manager.ts:343-353 | Once the queue has drained without a violation, the file of every open document holds the UTF-8 encoding of the guard's tracked text, exactly until the cleanup removes the workspace. |
| `Mirror.FileGivesBackTextIff` | apps/lsp/src/session-manager.ts:343-353 | Such a file reads back as the tracked text exactly when the text has no lone surrogate. |
| `Mirror.LoneSurrogateIsReplaced` | apps/lsp/src/session-manager.ts:343-353 | The guard admits a document consisting of half a surrogate pair, and its file reads as U+FFFD. |
| `Mirror.SplitPairIsReplaced` | apps/lsp/src/json-rpc-guard.ts:600-664 | The guard applies a range edit between the halves of a pair, and the text it then tracks is not well formed. |
| `Utf8.RoundTripIff` | apps/lsp/src/session-manager.ts:343-353 | Decoding the UTF-8 bytes of a text gives the text back exactly when it has no lone surrogate. |
| `Utf8.EncodeIsOneToOne` | apps/lsp/src/session-manager.ts:343-353 | Two well-formed texts with the same UTF-8 bytes are the same text. |
| `Mirror.ForwardedInOrder` | apps/lsp/src/session-manager.ts:653-696 | Messages are forwarded in arrival order, each only after the file holds its own update in UTF-8. |
| `Mirror.OneRebuildPerGeneration` | apps/lsp/src/session-manager.ts:718-805 | Each generation forces at most one rebuild, in generation order. |
| `Mirror.RebuildComesLast` | apps/lsp/src/session-manager.ts:718-805 | A forced rebuild is sent only while open and unviolated, after every header update accepted so far was written and forwarded. |
| `Rebuilds.NoHeaderUpdateIsLost` | apps/lsp/src/session-manager.ts:667-805 | When nothing is queued and no timer is armed, the last accepted header update, unless a violation, a close or a cancellation came after it, has forced its rebuild, or its rebuild found no translation unit open. |
| `Rebuilds.RebuildIsComplete` | apps/lsp/src/session-manager.ts:745-768 | Over every run each forced rebuild was sent while open, unviolated and current, and names exactly the translation units open at the step that sent it, at least one, each under its tracked version. |
| `Rebuilds.IdleMeans` | apps/lsp/src/session-manager.ts:757-762 | A generation counts as idle exactly when its due rebuild came up while no open document was a translation unit. |
| `Rebuilds.RebuildMeans` | apps/lsp/src/session-manager.ts:745-768 | A due rebuild forces all open translation units, or notes that there is none. |
| `Rebuilds.HeaderMeans` | apps/lsp/src/session-manager.ts:667-673 | An accepted message starts a new generation exactly when its update edits a header, and then disarms the timer of the one before. |
| `Rebuilds.CancelledIsNeverForced` | apps/lsp/src/session-manager.ts:790-793 | Over every run, a generation that was current when the rebuild was cancelled forces none afterwards, even if its rebuild was already queued. |
| `Draining.InternalIsLighter` | apps/lsp/src/session-manager.ts:674-768 | Every step the adapter takes by itself lowers the weight of its state. |
| `Draining.EveryScheduleEnds` | apps/lsp/src/session-manager.ts:674-768 | However those steps are scheduled, there are at most as many as the state weighs. |
| `Draining.EverythingIsForwarded` | apps/lsp/src/session-manager.ts:653-768 | When none is left in an open, unviolated session, every accepted message was forwarded, the workspace holds every tracked text, and the last header update, unless cancelled, has had its rebuild. |
| `Draining.MessageIsForwarded` | apps/lsp/src/session-manager.ts:653-696 | In an idle session an accepted message is written, then forwarded with the workspace that holds it; a header update arms the timer of its new generation. |
| `Draining.NothingAfterCutOff` | apps/lsp/src/session-manager.ts:676-691 | Over every run, after a close, a refused message, a violation or a failed write clangd is sent nothing more. |
| `Mirror.OutputsOnlyGrow` | apps/lsp/src/session-manager.ts:667-691 | Nothing sent is taken back, and only the rebuild step sends a forced rebuild. |
| `SessionManager.LspSessionManager.constructor` | apps/lsp/src/session-manager.ts:143-164 | An empty table satisfies the caps. |
| `SessionManager.LspSessionManager.CountSessions` | apps/lsp/src/session-manager.ts:846-854 | The counting loop returns the number of sessions with that visitor or address. |
| `SessionManager.LspSessionManager.Reserve` | apps/lsp/src/session-manager.ts:435-456 | A place is taken exactly when the service accepts and sessions plus creations under way leave room under all three caps; otherwise nothing changes and the first cap in the way is named. |
| `SessionManager.LspSessionManager.Release` | apps/lsp/src/session-manager.ts:461-465 | The pending counters stay exact; none is missing or below zero. |
| `SessionManager.LspSessionManager.Publish` | apps/lsp/src/session-manager.ts:202-226 | The session takes over the place of its creation in one segment, so no cap is exceeded in between. |
| `SessionManager.LspSessionManager.Abandon` | apps/lsp/src/session-manager.ts:221-226 | A failed creation gives its place back and leaves the table alone. |
| `SessionManager.LspSessionManager.AuthorizeWebSocket` | apps/lsp/src/session-manager.ts:232-282 | A ticket is accepted exactly for a waiting session with a valid ticket, which it moves on; each refusal has its exact condition, and an acceptance is logged. |
| `SessionManager.LspSessionManager.CapsHold` | apps/lsp/src/session-manager.ts:435-456 | After any sequence of calls, sessions and creations under way together are within the total, per-visitor and per-address caps. |
| `SessionManager.LspSessionManager.NeverTwice` | apps/lsp/src/session-manager.ts:232-320 | After any sequence of calls no session was authorized twice, none attached more often than authorized. |
| `SessionManager.OnceInALife` | apps/lsp/src/session-manager.ts:232-320 | A log in which a session leads a possible life holds at most one acceptance of its ticket, and an attachment only after it. |
| `SessionManager.LspSessionManager.AttachWebSocket` | apps/lsp/src/session-manager.ts:310-320 | Only an authorized session is connected, and only once. |
| `SessionManager.LspSessionManager.BeginCleanup` | apps/lsp/src/session-manager.ts:559-566 | Closing removes exactly that session, and its places are free at once. |
| `SessionManager.LspSessionManager.Shutdown` | apps/lsp/src/session-manager.ts:408-413 | After the synchronous part of a shutdown the table is empty; in the log no reservation follows a shutdown, so only creations already under way can still add a session. |
| `SessionManager.LspSessionManager.NothingStartsAfterShutdown` | apps/lsp/src/session-manager.ts:435-438 | After any sequence of calls, no creation was started after a shutdown. |
| `Processes.SelectLoop` | crates/executor-worker/src/execution.rs:657-795 | For every order of events the loop returns at the first decisive one and at no other, with the reason that event stands for, having forwarded exactly what was read before it, within the limit; polling and unwrapping never fail. |
| `Processes.ClassifyRuntimeExit` | crates/executor-worker/src/execution.rs:833-846 | An ended program violated the sandbox exactly when SIGSYS killed it, hit a limit exactly when SIGKILL, SIGXCPU or SIGXFSZ did, and else completed, whether a shell reported 128 plus the signal or not; code and signal are passed on. |
| `Processes.RunPtyProcess` | crates/executor-worker/src/execution.rs:576-795 | The result is the one the first decisive event stands for, and on every return, error paths included, the child has been reaped exactly once. |
| `Processes.PtyChildGuard.TryWait` | crates/executor-worker/src/execution.rs:547-557 | A poll that finds the exit reaps the child and lets go of it. |
| `Processes.PtyChildGuard.TerminateAndReap` | crates/executor-worker/src/execution.rs:560-573 | The child is reaped if it was not yet, never twice. |
| `Processes.RunCompileProcess` | crates/executor-worker/src/execution.rs:356-474 | For every order of events the loop returns at the first decisive one, with its verdict, the bytes read before it and the terminal size after the resizes before it. |
| `Execution.Outbound.Send` | crates/executor-worker/src/execution.rs:885-903 | A message the phase automaton allows is enqueued or, on failure, leaves the trace as it was. |
| `Execution.Outbound.Finish` | crates/executor-worker/src/execution.rs:289-302 | Reports the final phase and then the exit, and no exit without the phase. |
| `Execution.RunBuild` | crates/executor-worker/src/execution.rs:116-206 | A compiler process lets the job go on exactly when it ends with exit code 0; otherwise the job ends with the phase and reason that fit how it ended, or fails with it; exactly the bytes it printed were sent, and the terminal is left at the size of the last resize. |
| `Execution.ExecuteInner` | crates/executor-worker/src/execution.rs:86-246 | Every phase sent is one `valid_transition` allows from Queued; an exit is sent exactly when the job ended, justified by how its processes ended, and the last phase stands for its reason; the program is run exactly after both compiler processes passed, on a terminal of the size they left; exactly what each process printed was sent. |
| `Execution.RunProgram` | crates/executor-worker/src/execution.rs:208-246 | The program's outcome is reported with the phase and reason that stand for it, after exactly what it printed. |
| `Execution.OneFate` | crates/executor-worker/src/execution.rs:86-246 | Ending, failing and still running exclude each other, so what happened to its processes settles what a job reports. |
| `Execution.RuntimeEndsOnce` | crates/executor-worker/src/execution.rs:657-795 | A sequence of events ends a run in one way at most. |
| `Execution.ExecuteAssignment` | crates/executor-worker/src/execution.rs:53-84 | At most one exit is sent, nothing after it; an error and InternalError are sent only for a job that failed or whose messages were lost, and always for one that failed with none lost. |
| `Delivery.WorkerIsUnderstood` | crates/executor-api/src/state.rs:573-715 | However the three segments of each message interleave with completions from elsewhere, the API refuses none of a conforming worker's messages exactly when both output totals handled so far fit its limits, every message reaches the gate while the worker holds the job, and every message is looked up before the session is removed; one exit comes out of the session. |
| `Delivery.ExitFollows` | crates/executor-api/src/state.rs:708-715 | While nothing else ends the session, it is finished exactly by the worker's exit, in a phase that stands for the reported reason. |
| `Delivery.CanBeHeard` | crates/executor-api/src/state.rs:573-624 | Whatever a conforming worker sends, some arrivals in turn and on time let the API deal with all of it, so the conditions of `RunJob` can be met for every job. |
| `Delivery.OvertakenReportIsRefused` | crates/executor-api/src/state.rs:588-596 | A report that comes after the worker was freed is refused and ends the connection. |
| `Delivery.OvertakenLookupIsRefused` | crates/executor-api/src/state.rs:599-602 | A report that passed the gate before the session was removed is refused at the lookup and leaves the connection alone. |
| `Observation.SessionIsReplayed` | crates/executor-api/src/state.rs:573-917 | Every run of the control plane, read off one session from its creation on, is a sequence of such arrivals; replaying it gives the session's phase, finished flag, holder, presence in the table, messages under way and exit. |
| `Observation.StepSeen` | crates/executor-api/src/state.rs:573-917 | After every lock segment of every operation the replayed view shows the session again. |
| `Delivery.RunJob` | crates/executor-worker/src/execution.rs:53-246 | A job carried out never trips the 1 MiB terminal limit, so of what the API reads of it nothing is refused exactly when compiler and linker output together stay within 256 KiB and every message is on time at the gate and at the lookup; once all of a job that ended was heard, and nothing else ended its session, the API's phase is the worker's last one. |
| `Delivery.RunChattyJob` | crates/executor-worker/src/execution.rs:116-206 | A job whose compiler and linker both succeed within their own limits and which goes on to run; once the API has dealt with all of its messages it has refused one, whatever the interleaving. |
| `RateLimit.RateLimiter.constructor` | apps/web/lib/server/rate-limit.ts:18-26 | The store starts empty. |
| `RateLimit.RateLimiter.CleanupExpiredEntries` | apps/web/lib/server/rate-limit.ts:31-37 | The cleanup loop deletes exactly the expired entries. |
| `RateLimit.RateLimiter.ConsumeRateLimit` | apps/web/lib/server/rate-limit.ts:42-74 | The new store and the answer are those of `Consume`, and the store stays within its maximum. |
| `RateLimit.RetrySeconds` | apps/web/lib/server/rate-limit.ts:69-73 | The retry delay is the least whole number of seconds, at least one, that covers the wait. |
| `RateLimit.AtMostTwiceLessOne` | apps/web/lib/server/rate-limit.ts:42-74 | With a clock that does not run backwards, any half-open interval of one window length admits at most 2·limit − 1 requests per key. |
| `RateLimit.TwiceLessOneIsReached` | apps/web/lib/server/rate-limit.ts:56-66 | For every limit and every window of at least 2 ms a run admits 2·limit − 1 requests within one window length. |
| `RateLimit.AlignedAtMostLimitOf` | apps/web/lib/server/rate-limit.ts:56-66 | In a given run the plain limit holds for every interval that no window opened before it reaches into; the condition on the rule is `KeepsLimitIff`. |
| `RateLimit.KeepsLimitIff` | apps/web/lib/server/rate-limit.ts:42-74 | A rule keeps to its plain limit in every interval of one window length, over all runs, exactly when its limit or its window is at most 1. |
| `RateLimit.RefusedIff` | apps/web/lib/server/rate-limit.ts:44-73 | A request is refused exactly when the store has no room for its key, the limit is zero, or the limit is used up in a window that is still running. |
| `RateLimit.RemainingIsLeft` | apps/web/lib/server/rate-limit.ts:66-72 | While its window runs, the next request of a key is admitted exactly when the answer before left some remaining, and leaves one less. |
| `RateLimit.RetryIsHonoured` | apps/web/lib/server/rate-limit.ts:66-72 | A client that used up its window and then waits as long as it was told is admitted. |
| `RateLimit.EvictionIsInvisible` | apps/web/lib/server/rate-limit.ts:31-46 | While the store has room, evicting expired entries changes no answer of a whole run. |
| `RateLimit.StoreIsBounded` | apps/web/lib/server/rate-limit.ts:44-54 | After any run the store holds at most 10,000 entries. |
| `Windows.TwiceTheLimit` | apps/web/lib/server/rate-limit.ts:56-66 | Windows that each admit at most the limit admit at most twice the limit in an interval of their length. |
| `Windows.TwiceLessOne` | apps/web/lib/server/rate-limit.ts:56-66 | One less when every window was opened by an admission at its start. |
| `GuardRate.WindowStep` | apps/lsp/src/json-rpc-guard.ts:441-457 | The guard's window after a message: restarted when due, and one fuller if the message passed. |
| `GuardRate.ClientRateBound` | apps/lsp/src/json-rpc-guard.ts:441-457 | Any half-open interval of one window length lets at most twice the message limit through, over any session. |
| `GuardRate.TwiceIsReached` | apps/lsp/src/json-rpc-guard.ts:441-457 | For every limit whose messages the session's bytes pay for, some session, all of whose messages are accepted, lets twice the limit through within one window length, because the first window opens empty. |
| `GuardRate.ClientRateAligned` | apps/lsp/src/json-rpc-guard.ts:441-457 | In a given session the plain limit holds for every interval that no window opened before it reaches into; the condition on the configuration is `KeepsLimitIff`. |
| `GuardRate.KeepsLimitIff` | apps/lsp/src/json-rpc-guard.ts:441-457 | The guard keeps to its plain limit in every interval of one window length, over all sessions of accepted messages of at least a given size, exactly when the limit is zero, the window at most 1 ms, or the session's bytes do not last for one message more than the limit. |
| `TokenBucket.ClientMessageRateLimiter.constructor` | crates/executor-api/src/http.rs:302-307 | The bucket starts full. |
| `TokenBucket.ClientMessageRateLimiter.AllowAt` | crates/executor-api/src/http.rs:315-326 | A message is allowed exactly when it comes at most 31/16 s before the bucket would be full, and moves that time on by 1/16 s; a clock that went back costs no more than its refill. |
| `TokenBucket.Schedules` | crates/executor-api/src/http.rs:315-326 | The bucket is a schedule with one message every 1/16 s and 31 in advance. |
| `TokenBucket.RunSound` | crates/executor-api/src/http.rs:315-326 | Over any run the tokens stay between zero and the burst size. |
| `TokenBucket.Conservation` | crates/executor-api/src/http.rs:315-326 | Over any run, admitted messages plus tokens left are at most the tokens at the start plus the refill. |
| `TokenBucket.BurstBound` | crates/executor-api/src/http.rs:315-326 | Between any two calls of any run at times s and t at most 32 + 16 (t - s) messages are admitted. |
| `TokenBucket.SpacedIsNeverRefused` | crates/executor-api/src/http.rs:315-326 | A client that leaves at least 1/16 s between messages is never refused. |
| `Names.NamesAgree` | crates/executor-protocol/src/lib.rs:16-29 | The TypeScript pattern and the Rust byte scan accept the same strings, and on those UTF-8 changes nothing. |
| `Names.ScanMeans` | crates/executor-protocol/src/lib.rs:16-29 | Suffix stripping and the byte scan accept what the pattern describes, position by position. |
| `Names.LowerMeans` | packages/contracts/src/index.ts:218-239 | Lower-casing makes exactly those names equal that differ in the case of letters at most. |
| `Admission.CheckName` | packages/contracts/src/index.ts:207-213 | The name check accepts exactly strings that match the pattern, and nothing else of any type. |
| `Admission.IsValidSourceFiles` | packages/contracts/src/index.ts:218-239 | The loop accepts exactly lists of 1 to 16 sound files, unlike in name, with a main.c, within 64 KiB in total. |
| `Admission.ValidateFiles` | apps/web/lib/server/validation.ts:19-70 | The loop accepts exactly the same lists, returns their files, and otherwise reports the first fault. |
| `Admission.ValidateRequest` | crates/executor-api/src/state.rs:1058-1131 | The API accepts exactly admissible files with a valid identity and terminal, and otherwise reports the first fault in its order. |
| `Admission.ValidateAssignment` | crates/executor-worker/src/execution.rs:249-287 | The worker accepts exactly admissible files with a valid terminal, hence all the API accepted. |
| `Admission.ApiAdmitsIff` | crates/executor-api/src/state.rs:1058-1121 | Of the lists the web server admits the API admits exactly those with a lower-case main.c, some content and no lone surrogate. |
| `Admission.AdmittedInVain` | apps/web/lib/server/validation.ts:54-68 | Every single-file project outside that condition passes the web server and not the API. |
| `Admission.InVainExamples` | apps/web/lib/server/validation.ts:54-68 | One project of each of the three kinds. |
| `Utf8.EncodeLength` | packages/contracts/src/index.ts:196-202 | The byte length both sides count is the length of the UTF-8 encoding. |

## Left out

- Suspended operations: an activation and a completion are kept with their session, because the flag that starts each of them is tested and set under one lock and so has one owner.
- Identifiers: session, connection and thread identifiers are fresh by construction; the collision of random UUIDs is not modelled.
- Heartbeats and maintenance: their timing is not modelled; what they cause, cancellation and unregistering, may happen at any step.
- Standard input and resizing of a running job in the API: they only add byte counters and a command that may fail.
- Ticket signatures: HMAC, expiry and nonces are one yes-or-no outcome.
- Server-to-browser messages of the language server: `validateServerMessage` is a size check.
- JSON parsing: the guard starts from JSON trees and from the byte length of the message; property names are Dafny strings, JSON text values are UTF-16 sequences.
- The language-server session's timers, child process and workspace removal: cleanup is its synchronous part, which is where the table changes.
- The adapter is modelled for one connection; a write failure is a possible outcome of every write.
- `consumeRateLimits`: it combines answers of `consumeRateLimit` by minimum and maximum.
- Floating point: the token bucket and the clocks are exact; `f64` rounding is not modelled.
- Saturating sums of file sizes and byte counts are unbounded integers; the limits they are compared with are far below the saturation point.
- Signal names: exit statuses arrive with their signal number, so `signal_number` is not modelled; the order of events is arbitrary, durations are not modelled.
- Output chunks: the output messages of one process are kept as one message; the control plane has phases and exits only, so output occurs in `Delivery` and not in `Observation`.
- User interface, transports, metrics, configuration, sandboxing and ticket plumbing.
