# A verified model of the task board

`tb` keeps a task board as Markdown files in status directories; a GUI with a daemon runs
coding agents on the tasks. This project models the parts of both whose correctness spans
many steps, and proves what they keep, for all inputs and all runs.

Where the code changes state step by step, a class or a method with loops follows it and is
proved against functions on values; the laws are lemmas about those functions. Where several
goroutines or processes race, a datatype of steps, each one lock section, channel operation
or system call, gives the interleavings, and the laws hold in every reachable state. Files
that can be cut short by a crash are modelled by the sequence of writes they consist of.

| modules | what they model |
|---|---|
| `DaemonState` (Daemon.dfy), `DaemonProtocol`, `DaemonAlone` | worker slots, queue, reservations, generations and wakeups of the daemon |
| `RunLifecycle`, `RunBooks`, `RunLaunched`, `RunAdopted`, `RunOutcomes`, `RunOrder`, `RunRaces`, `RunAlone`, `AgentRuns` | the race to write an agent run's terminal record: its steps, what they keep, how it ends, in which orders of events, what can go wrong, and the objects it is run on |
| `EventLog`, `LogLaws`, `Recovery`, `RecoveryLaws`, `RecoveryCrashes` | the readers of a task's run history, and stale-run recovery with crashes |
| `Text`, `Outline`, `Sections`, `Upsert`, `SectionLaws`, `FenceLaws`, `FinderLaws`, `TaskHeadings`, `SectionPlacement` | the section finders and `upsertTaskSection` of cli/edit.go, through the outline of a text |
| `TaskSections`, `ScannerLaws` | the other section finder, of cli/task_sections.go, and the log; what starts a section for either finder |
| `Metadata`, `MetadataBlock`, `MetadataLaws`, `FieldLaws`, `Create`, `CreatedTask` | metadata lines, their grammar, and as a finite map behind a 28-line window |
| `Config`, `ConfigLaws`, `ConfigFile`, `InitConfig`, `InitText` | the config printer and parser, and repeated `tb init` |
| `BoardSwitch`, `BoardSwitchRuns`, `BoardSwitchHistory`, `BoardSwitchEvents` | the board switch coordinator of the GUI |
| `TriageCache` | the generation-checked triage cache |
| `ListSort` | the order of `tb ls` |
| `BoardDir`, `BoardScan`, `BoardPromotion`, `BoardRuns`, `BoardMoves`, `BoardLaws` | the board directories: lookup, scan, create, move, promote, edit, cleanup, and their crash points |

## Where the code does not do what one would hope

Each has a lemma with a run or an input, and one that says exactly when the hoped-for holds.

- `deactivate` checks that the active set is empty and resets it in two lock sections; a
  reservation that lands in between loses its slot (`ResetCanLeakASlot`, `ResetKeepsInvIffEmpty`).
- A recovery pass that reads the log before a run's record is appended, and looks for the run
  after it has gone, adds a second record (`RecoveryCanAddARecord`, `OneRecordByOrder`).
- AgentStatus need not repeat the record: needs-user is kept, and a review that failed its
  task clears it (`NeedsUserIsKept`, `HandoffIsCleared`, `AgentStatusRepeatsIff`).
- The monitor of an adopted run may read the log just before `CancelRun` writes and then find
  the entry gone: it adds `lost` after `cancelled` (`MonitorCanOverwriteACancel`, `AdoptedRunEndsOnce`).
- `recordTerminal` deletes the active entry by task, and can evict another run: a canceller of
  an adopted run, and a launched run that was itself evicted (`CancelCanEvictANewerRun`,
  `LaunchedEndCanEvict`, `EvictsIffTakenOver`).
- A run spared by recovery is never terminated when the same pass ended the latest run
  (`OlderRunIsAbandoned`, `LaterPassCatchesUpIff`).
- A section without a place of its own is appended, and the second write of it changes the text
  once more (`AppendingIsNotIdempotent`, `UpsertTwice`). At the end of a text inside an open
  fence it is not a section at all, but more of the text in front (`OthersKeptIff`).
- A missing goal, and missing acceptance criteria, pass over review sections on their way to the
  first section behind those, and land out of order (`InFrontOfAllFollowersIff`, `WritingKeepsTheOrderIff`).
- A missing log is appended even inside an open fence, where it is no section (`NewLogSectionIff`).
- Field-like and title-like body lines inside the 28-line window override the metadata, and
  malformed title lines make the task unreadable (`DescriptionCanOverrideAField`,
  `DescriptionCanOverrideTheTitle`, `DescriptionCanBreakTheTask`, `ReadsTheBlockIff`).
- A doubly quoted config value loses a pair of quotes at every `tb init`, and a board path is cut
  at a line break (`NestedQuotesAreNotStable`, `LineBreakIsNotStable`, `ReinitTwiceIff`).
- The recovery view and the reconciler may disagree on a run's mode (`ModesCanDisagree`,
  `ModesAgreeIff`).
- An older board open may replace a board that was already committed (`OlderOpenCanReplaceACommit`,
  `OlderOpenCommitsIff`).
- The lookup by ID fails on some directories that the scan accepts (`ScanListsWhatLookupRefuses`,
  `ResolversAgreeIff`).

Two comments in the source differ from its code, which the model follows: `allocateID` also
looks into `ready` and `code-review`, not only the four directories its comment names
(cli/board.go:502-520); and `recordTerminal` says AgentStatus is written last, while the
active entry, the worker and the notification follow it (gui/app/agent_run.go:970-1084).

## Model

| member | source | states |
|---|---|---|
| DaemonState.Daemon.constructor | gui/internal/daemon/daemon.go:199-241 | a worker count below 1 becomes 1 and a buffer below 1 becomes 256; no slot taken, nobody active, not activated |
| DaemonState.Daemon.SetMaxWorkers | gui/internal/daemon/daemon.go:254-272 | the clamped limit and a fresh wakeup channel, on every call; running slots untouched |
| DaemonState.Daemon.NotifyAgentActiveChanged | gui/internal/daemon/daemon.go:276-280 | closes and replaces the wakeup channel and changes nothing else |
| DaemonState.Daemon.TryAcquireWorkerSlotNow | gui/internal/daemon/daemon.go:769-777 | takes a slot exactly when running slots plus listed runs stay under the limit; otherwise changes nothing |
| DaemonState.Daemon.ReleaseWorkerSlot | gui/internal/daemon/daemon.go:779-786 | gives back one slot and wakes waiters; at zero it changes nothing |
| DaemonState.Daemon.TryEnqueue | gui/internal/daemon/daemon.go:627-638 | claims the id exactly when no run is listed for it and nobody else has claimed it |
| DaemonState.Daemon.Release | gui/internal/daemon/daemon.go:642-646 | drops exactly that id from the active set |
| DaemonState.Daemon.Enqueue | gui/internal/daemon/daemon.go:593-622 | each outcome with its condition; an id is active afterwards exactly when it was before or this call queued it, at the end of the queue, under the current generation |
| DaemonState.Daemon.CommitReservation | gui/internal/daemon/daemon.go:675-691 | the second half of a reservation: it sticks exactly when the id is still free and there is room, else the slot goes back |
| DaemonState.Daemon.TryReserveAutomationRun | gui/internal/daemon/daemon.go:652-691 | undisturbed, it reserves exactly when the id is free and there is room; a refusal leaves every field as it was |
| DaemonState.Daemon.ReleaseAutomationRun | gui/internal/daemon/daemon.go:727-742 | gives a slot back only for an id that is reserved, and drops the reservation |
| DaemonState.Daemon.Activate | gui/internal/daemon/daemon.go:343-387 | a second activation is refused; a first one starts the next generation with its own context |
| DaemonState.Daemon.ResetActive | gui/internal/daemon/daemon.go:455-463 | forgets the active and the reserved ids |
| DaemonState.ListedCountOnce | gui/internal/daemon/daemon.go:699-721 | a listed run that an active id stands for is counted once, under that id |
| DaemonProtocol.InvStep | gui/internal/daemon/daemon.go:593-903 | every step of every interleaving of enqueuers, reservations, releases, jobs, dispatcher, resizes, deactivations and agent runs keeps slot count, ownership, queue order, generation stamps and wakeups consistent |
| DaemonProtocol.ReachableInv | gui/internal/daemon/daemon.go:593-903 | so they hold in every state the daemon reaches, the reset of deactivate being one with its empty check |
| DaemonProtocol.NoSlotLeaks | gui/internal/daemon/daemon.go:652-786 | runningWorkers is the number of goroutines between acquire and release plus the reservations held; 0 when there are none |
| DaemonProtocol.GuardNeverHidesUnderflow | gui/internal/daemon/daemon.go:779-786 | whoever is about to release a slot finds the count above zero |
| DaemonProtocol.RaisesStayWithinLimit | gui/internal/daemon/daemon.go:744-777 | every step that raises the count leaves it at or below the limit of that moment, even after a shrink, and is one of the two acquires |
| DaemonProtocol.OneClaimPerTask | gui/internal/daemon/daemon.go:593-646 | each active id has exactly one owner, and owners own active ids only: a goroutine mid-enqueue or at work, a place in the queue, the dispatcher, a reservation |
| DaemonProtocol.JobsKeepTheirGeneration | gui/internal/daemon/daemon.go:808-903 | a job runs under the context of the activation that queued it; if that one is over, its context is cancelled or about to be |
| DaemonProtocol.NoLostWakeup | gui/internal/daemon/daemon.go:744-791 | while the dispatcher sleeps on an open channel no slot was given back and the limit did not rise since it looked, every run it saw listed that has ended still owes its notify, and once none is owed the count it took at that look still leaves no room |
| DaemonProtocol.NoOvertaking | gui/internal/daemon/daemon.go:832-869 | for each generation the tasks granted a slot are a subsequence of the tasks enqueued, whatever the timing of releases and resizes |
| DaemonProtocol.ResetKeepsInvIffEmpty | gui/internal/daemon/daemon.go:455-463 | taken as a step of its own, the reset keeps the invariants if and only if the active set is still empty when it happens |
| DaemonProtocol.ResetCanLeakASlot | gui/internal/daemon/daemon.go:455-463 | a reservation that lands between the empty check and the reset loses its slot for good, reached by a concrete run |
| DaemonAlone.EnqueueAlone | gui/internal/daemon/daemon.go:593-622 | with room in the queue an admitted id is active and last in the queue, under the present generation |
| DaemonAlone.EnqueueRefused | gui/internal/daemon/daemon.go:593-622 | otherwise nothing is left of the call |
| DaemonAlone.ReservationAlone | gui/internal/daemon/daemon.go:652-721 | undisturbed, a reservation succeeds when the id is neither active nor listed, active and listed ids together are fewer than the limit, and so are the slots taken and the listed ids outside the active set |
| DaemonAlone.ReservationRefused | gui/internal/daemon/daemon.go:652-721 | in every other case it is refused and leaves every field as it was |
| DaemonAlone.ReleaseAlone | gui/internal/daemon/daemon.go:727-742 | releasing a reservation frees the id and a slot and wakes whoever waits; an id that is not reserved is left alone |
| DaemonAlone.GrantedIff | gui/internal/daemon/daemon.go:744-767 | the dispatcher is granted the slot exactly when the slots taken and the listed runs outside the active set leave room, and waits otherwise |
| DaemonAlone.OwnJobsAreNotCountedTwice | gui/internal/daemon/daemon.go:699-767 | a dispatcher whose listed runs are all in the active set is granted the slot whenever fewer slots are taken than the limit |
| DaemonAlone.DispatchAlone | gui/internal/daemon/daemon.go:832-869 | a queued item of the present activation becomes a running job when there is room |
| DaemonAlone.StaleItemIsDropped | gui/internal/daemon/daemon.go:832-869 | an item of an earlier activation is dropped and its id is free again |
| DaemonAlone.JobAlone | gui/internal/daemon/daemon.go:870-903 | a job that is over frees its id and its slot and wakes whoever waits |
| DaemonAlone.ResizeAlone | gui/internal/daemon/daemon.go:254-272 | a new limit counts at once, between 1 and the number of processors, and wakes whoever waits; slots taken stay taken |
| DaemonAlone.ActivateAlone | gui/internal/daemon/daemon.go:343-387 | an activation is the next generation, under a context of its own |
| DaemonAlone.DeactivateAlone | gui/internal/daemon/daemon.go:436-463 | a deactivation ends the activation and cancels its context; when nothing is active any more, active ids and reservations are forgotten, queue and slots stay |
| DaemonAlone.AgentRunAlone | gui/internal/daemon/daemon.go:276-280 | an agent run that begins or ends is listed or no longer listed, and wakes whoever waits |
| RunOutcomes.AtMostOneBody | gui/app/agent_run.go:982-1084 | in every interleaving of exit, cancels, board switch, shutdown, monitor and recovery passes, the terminal body begins at most once and the worker is released at most once |
| RunOutcomes.LaunchedRunEndsOnce | gui/app/agent_run.go:780-966 | once all participants of a launched run are done: one terminal body, one release, Done closed, the entry gone; the body's record is `cancelled` exactly when the exit path saw the mark; it is the only record if and only if no recovery pass straddled the end |
| RunOrder.OneRecordByOrder | gui/app/agent_recovery.go:146-253 | from the order of events alone: a launched run has exactly one record if and only if no recovery pass read its log before the first record, asked for its entry after that had gone or not at all, and did not take the process for alive |
| RunOrder.StraddlersByOrder | gui/app/agent_recovery.go:146-253 | for every run, launched or adopted: the passes that end it once more are exactly those |
| RunOutcomes.UndisturbedRunRecordsFirst | gui/app/agent_run.go:982-1084 | if nobody else deleted the entry and every pass asked for it, the body's record is the first and no other run lost its entry |
| RunOutcomes.AgentStatusRepeatsIff | gui/app/agent_run.go:1020-1062 | what AgentStatus is at the end: unless an agent or a pass wrote it later, it repeats the record if and only if neither carve-out (needs-user, review handed back) applied to what recordTerminal read |
| RunOutcomes.AdoptedRunEndsOnce | gui/app/agent_recovery.go:487-578 | an adopted run has at most one terminal body; its records are that one's, the monitor's if it found the entry gone, and those of straddling passes; exactly one if and only if there is none of the latter |
| RunOutcomes.UndisturbedAdoptedRun | gui/app/agent_recovery.go:543-578 | its body is missing only after an eviction or a straddling pass; otherwise a monitor that finds the entry gone adds `lost` after the canceller's `cancelled` |
| RunOutcomes.EvictsIffTakenOver | gui/app/agent_run.go:1072-1074 | the delete by task takes another run's entry if and only if that run registered right before it, and that takes an entry gone before: deleted by an older run's body, or removed by the monitor once the log held a record |
| RunOutcomes.NoDeadlock | gui/app/agent_cancel.go:151-208 | while a participant is not done some participant can move, the waits for Done and for a busy Once included |
| RunOutcomes.StepKeepsInv | gui/app/agent_run.go:780-1084 | every step of every participant and of the environment keeps the accounts of body, records, entry and AgentStatus |
| RunRaces.MonitorCanOverwriteACancel | gui/app/agent_recovery.go:543-553 | a run in which the user's `cancelled` is followed by the monitor's `lost`, in the log and in AgentStatus |
| RunRaces.CancelCanEvictANewerRun | gui/app/agent_run.go:1072-1074 | a run in which a canceller's delete removes the entry of a newer run, which the monitor had made room for |
| RunRaces.LaunchedEndCanEvict | gui/app/agent_run.go:1072-1074 | a run in which a launched run whose entry an older one deleted deletes a third run's at its own end |
| RunRaces.RecoveryCanAddARecord | gui/app/agent_recovery.go:146-253 | a run in which a periodic pass reads before the body's append and asks after its delete, and adds `lost` to a success |
| RunRaces.NeedsUserIsKept | gui/app/agent_run.go:1020-1030 | a run that records success and leaves needs-user |
| RunRaces.HandoffIsCleared | gui/app/agent_run.go:1031-1050 | a run that records success and clears AgentStatus |
| RunAlone.RecordLeads | gui/app/agent_run.go:982-1084 | alone, the terminal body appends its record, settles AgentStatus (needs-user kept on an exit, blank after a review that sent the task back, else the record's status) and drops the task's entry; a second call does nothing |
| RunAlone.MonitorFinds | gui/app/agent_recovery.go:504-507 | a monitor that finds records repeats the last one's status, closes Done and removes the run's own entry |
| RunAlone.MonitorWaits | gui/app/agent_recovery.go:509-521 | without a record it polls on while the process lives |
| RunAlone.MonitorMourns | gui/app/agent_recovery.go:543-578 | when the process is dead: `lost` past the body when the entry has gone, nothing but Done for a cancelled run, else `lost` through the body |
| RunAlone.PassLeads | gui/app/agent_recovery.go:146-253 | a recovery pass repeats the status of the last record; without one it ends a dead run with its verdict, unless it asks what is tracked and finds the entry |
| RunAlone.CancelLeads | gui/app/agent_cancel.go:40-91 | a cancel without the entry does nothing; with it, it marks the run and waits for Done |
| RunAlone.CancelRecords | gui/app/agent_cancel.go:151-208 | once Done is closed it records `cancelled`; when the grace expires it closes Done itself for an adopted run and waits on for a launched one |
| RunAlone.ExitStarts | gui/app/agent_run.go:780-966 | a run that nobody cancels is marked running when its process has started |
| RunAlone.ExitRecords | gui/app/agent_run.go:955-966 | a run that exits uncancelled records its outcome and then closes Done |
| RunAlone.ExitLeavesARecord | gui/app/agent_run.go:955-966 | a cancelled one closes Done and leaves the record to whoever cancelled it, on the daemon's path to itself |
| RunAlone.WatcherCancels | gui/app/agent_run.go:548-735 | the watcher marks the run when the daemon's context ends, and then waits for Done |
| AgentRuns.ActiveRun.constructor | gui/app/agent_service.go:223-319 | a fresh run: not cancelled, Done open, terminal gate unused, no record |
| AgentRuns.ActiveRun.MarkCancelled | gui/app/agent_service.go:325-329 | sets the mark and no other field |
| AgentRuns.ActiveRun.CloseDone | gui/app/agent_service.go:359-361 | Done is closed afterwards, however often it is called |
| AgentRuns.AgentService.Register | gui/app/agent_run.go:470-479 | refuses a busy task and changes nothing; otherwise adds exactly that entry and notifies |
| AgentRuns.AgentService.AdoptRecoveredRun | gui/app/agent_service.go:374-387 | returns the existing entry unchanged, or installs the stub and notifies; no other entry moves |
| AgentRuns.AgentService.RemoveActiveRun | gui/app/agent_service.go:401-410 | is the monitor's removal step of the protocol: by pointer, so any other run's own entry stays, and it notifies only when it removed one |
| AgentRuns.AgentService.RecordTerminal | gui/app/agent_run.go:982-1084 | leaves what the protocol's terminal body leaves when nothing runs beside it; entries and statuses of other tasks untouched |
| AgentRuns.AgentService.WriteStatus | gui/app/agent_run.go:1012-1062 | the status that the two carve-outs leave, for that task only |
| AgentRuns.AgentService.PostRun | gui/app/agent_run.go:955-966 | nothing for a cancelled run, otherwise the protocol's terminal body with the outcome |
| AgentRuns.AgentService.CancelRun | gui/app/agent_cancel.go:40-90 | without an entry, or when the identity check fails: an error and no change; otherwise the protocol's mark and close followed by the terminal body with `cancelled` |
| AgentRuns.AgentService.ReconcileOrphanExit | gui/app/agent_recovery.go:543-578 | with its own stub: a cancelled one is only unblocked, otherwise the terminal body with `lost` and the entry gone; without it: append and edit, and the table untouched |
| AgentRuns.RecordAloneIs | gui/app/agent_run.go:982-1084 | the terminal body's whole effect: one record, the status unless carved out, entry removed, one release for a reserved run |
| AgentRuns.RecordTwice | gui/app/agent_run.go:982-983 | a second call changes nothing |
| EventLog.OrderIsFirstAppearances | gui/app/agent_recovery.go:633-712 | the runs of a log in order: each id that occurs, once |
| EventLog.UpdateView | gui/app/agent_recovery.go:657-702 | one event folded into a run's view gives the view of that run's events so far |
| EventLog.ReadRunViews | gui/app/agent_recovery.go:633-712 | the loop over the log computes, for every run in order of first appearance, the view of exactly that run's events |
| EventLog.UpdateReconcile | gui/app/stage_reconciler.go:316-335 | the same for the reconciler's record of a run |
| EventLog.LatestReconcileRun | gui/app/stage_reconciler.go:290-341 | returns the record of the last run of the same order, or nothing for a log without runs |
| EventLog.UpdateQueued | gui/app/agent_finish.go:80-109 | the same for the queued-run finder's record |
| EventLog.FindQueuedRun | gui/app/agent_finish.go:46-128 | returns the last run of the order that is queued and neither started nor finished, with its latest queued fields; nothing exactly when there is none |
| EventLog.LastPending | gui/app/agent_finish.go:112-127 | the scan from the end finds the last pending run |
| EventLog.NeverPickedAgain | gui/app/agent_finish.go:46-128 | once a run has a started or finished event, no longer log makes the finder return it |
| EventLog.ReadersAgree | gui/app/agent_recovery.go:633-712 | recovery's latest view and the reconciler's run are the same run with the same terminal status, and the run the finder picks is one recovery sees as unfinished |
| EventLog.ModesAgreeIff | gui/app/stage_reconciler.go:290-341 | the two readers agree on a run's mode if and only if no event carries one, or a queued one does and the last such reads the same as the last of all |
| EventLog.ModesCanDisagree | gui/app/agent_recovery.go:663-669 | a run queued without a mode that finishes with one: recovery has none, the reconciler does |
| LogLaws.OrderByFirstLine | gui/app/agent_recovery.go:633-712 | runs are listed in the order of their first lines in the log |
| LogLaws.ViewByLog | gui/app/agent_recovery.go:657-702 | every field of a view from the log's lines: agent, pid, session, directory, environment, mode and record are those of the last line of that run and kind that has one |
| LogLaws.ReconcileByLog | gui/app/stage_reconciler.go:316-335 | the reconciler's record: the mode of the run's last line with one, the initiator of its last queued line, the status of its last record |
| LogLaws.OpenByLog | gui/app/agent_finish.go:112-127 | a run is open when a line queues it and none starts or finishes it |
| LogLaws.QueuedByLog | gui/app/agent_finish.go:80-109 | what is learnt of a queued run, field by field, from the last queued line that has it |
| LogLaws.ModesRoundTrip | gui/app/agent_recovery.go:663-669 | every mode reads back from its text, and no other text reads as another mode than implement |
| Recovery.Task.constructor | gui/app/agent_recovery.go:103-142 | a task as it is on disk |
| Recovery.Task.AppendFinished | gui/app/agent_recovery.go:255-276 | one synthetic finished event at the end of the log, the status untouched |
| Recovery.Task.EditStatus | gui/app/agent_recovery.go:286-334 | the status alone |
| Recovery.Task.MarkRun | gui/app/agent_recovery.go:286-334 | the append first and then, for the latest run only, the edit |
| Recovery.Task.RecoverRun | gui/app/agent_recovery.go:162-252 | what one turn of the loop writes |
| Recovery.Task.RecoverOne | gui/app/agent_recovery.go:146-253 | the loop writes exactly the planned effects in order |
| Recovery.AppendTerminatesOneRun | gui/app/agent_recovery.go:255-276 | an appended finished line terminates that run's view and changes neither the order nor any other view |
| Recovery.PassSettles | gui/app/agent_recovery.go:146-253 | a whole pass terminates exactly the dead untracked runs without a record, and sets AgentStatus to the latest run's terminal status (`cancelled` kept), or leaves it when that run is alive or skipped |
| Recovery.PassWithoutRuns | gui/app/agent_recovery.go:151-160 | a running task without any run gets one lost run, unless it is tracked |
| RecoveryLaws.PassAddsRecords | gui/app/agent_recovery.go:162-253 | from the log's lines and the world alone: a pass appends exactly the records of the abandoned runs, in the order of their first lines |
| RecoveryLaws.RecordsAre | gui/app/agent_recovery.go:228-250 | which are one for each run without a record, untracked and dead: `interrupted` if a session line of it names a session, else `lost`, with the reason of each |
| RecoveryLaws.PassSetsStatus | gui/app/agent_recovery.go:176-253 | AgentStatus afterwards: the latest run's last recorded status, or the verdict by that same test if the pass ended it, or unchanged |
| RecoveryLaws.StaleByLog | gui/app/agent_recovery.go:189-250 | a run is ended exactly when no line finishes it, it is not the tracked one, and no live process has its last pid under its last agent's name |
| RecoveryLaws.PassMakesUpARun | gui/app/agent_recovery.go:151-160 | without any run in the log: one fresh run recorded as lost and AgentStatus `lost`, unless some run of the task is tracked |
| RecoveryLaws.PassLeavesOthers | gui/app/agent_recovery.go:103-142 | a task that is not running is left alone |
| Recovery.NextPassPlansTheRest | gui/app/agent_recovery.go:146-253 | wherever a pass stops, the next pass plans exactly the remaining effects |
| Recovery.CrashThenPass | gui/app/agent_recovery.go:286-334 | in an unchanged world, a crash between any two writes, followed by another pass, ends where an uninterrupted pass would, to the byte |
| Recovery.AnyCrashesThenPass | gui/app/agent_recovery.go:286-334 | the same for any number of crashed passes in an unchanged world |
| RecoveryCrashes.CrashesThenLaterPass | gui/app/agent_recovery.go:103-253 | crashed passes each in its own world, with processes dying and tracked runs forgotten in between: the pass that completes leaves what it would have made, in its world, of the history before them all |
| RecoveryCrashes.CrashWithoutRuns | gui/app/agent_recovery.go:313-334 | the run whose id a crashed pass drew is the one the later pass finishes with |
| Recovery.SecondPassIsIdle | gui/app/agent_recovery.go:103-253 | a further pass writes nothing |
| Recovery.NoRunEndsTwice | gui/app/agent_recovery.go:146-253 | at every crash point, no run that had a terminal record gets another, and none gets two |
| Recovery.LaterPassCatchesUpIff | gui/app/agent_recovery.go:103-142 | a run that a pass spared and that later dies is terminated by a later pass if and only if the pass spared the latest run too, or nothing spared has died |
| Recovery.OlderRunIsAbandoned | gui/app/agent_recovery.go:103-142 | the two-run history for which no later pass ever writes the older run's record |
| Outline.ParseConcat | cli/edit.go:582-661 | scanning whole lines followed by a text is scanning one after the other, fence state carried over |
| Outline.WholeOfParse | cli/edit.go:582-646 | every text is the text of its outline of sections |
| Outline.ParseOfWhole | cli/edit.go:582-646 | and every well-formed outline is the outline of its text |
| Outline.ParseIsWellFormed | cli/edit.go:582-646 | every parsed section starts and ends outside fences with its heading on its first line |
| Sections.MarkdownLineBounds | cli/edit.go:652-661 | the end of the line and the start of the next, one past the text after the last line |
| Sections.FindNextTaskMarkdownHeading | cli/edit.go:630-646 | the offset of the first managed heading of the outline of the rest of the text |
| Sections.FindMarkdownSections | cli/edit.go:582-604 | the ranges of exactly the outline's sections with that heading, in order |
| Sections.FindFirstMarkdownHeading | cli/edit.go:606-628 | the offset of the first section whose heading is one of the wanted ones |
| FinderLaws.FinderCutsOutSections | cli/edit.go:582-604 | the ranges are in order, pairwise disjoint, and each cuts out one whole section, starting and ending outside fences |
| ScannerLaws.EditSectionStartsIff | cli/edit.go:582-646 | a line starts a section exactly when it is one of the headings but for white space and stands below an even number of fence lines, of whichever marker |
| ScannerLaws.InsideIffOdd | cli/edit.go:648-650 | the editor's scanner is inside a fence exactly below an odd number of lines that begin, after white space, with either marker |
| ScannerLaws.TrimmedSpace | cli/edit.go:588-592 | trimming leaves what stands between the white space at both ends |
| Upsert.ReplaceAndRemoveDuplicateSections | cli/edit.go:540-552 | the block in place of the first range and every byte outside the ranges in order |
| Upsert.ReplaceSection | cli/edit.go:506-516 | coalescing for the headings that do so, else the first range alone |
| Upsert.UpsertTaskSection | cli/edit.go:480-534 | the loop-and-splice code computes the same text as the edit on outlines that the laws below are about |
| SectionLaws.UpsertedOutline | cli/edit.go:480-534 | the outline of the new text is the old outline with the one section put |
| SectionLaws.PutIsWellFormed | cli/edit.go:480-534 | putting a section in a well-formed outline leaves it well-formed |
| SectionLaws.BlockIsOneSection | cli/edit.go:663-665 | a body with balanced fences and no managed heading outside a fence makes one section |
| SectionLaws.FinderReturnsTheBlock | cli/edit.go:480-580 | in the new text the finder's first range is exactly the new block, and the only one when the section was new or coalesced |
| FenceLaws.UpsertTwice | cli/edit.go:480-534 | for every text: writing it twice equals writing it once if and only if the section or one of its anchors is there |
| FenceLaws.OthersKeptIff | cli/edit.go:480-534 | for every text: every other section and the text before the first are kept in order, but for newlines at the splice, if and only if the section has a place or the text does not end inside an open fence; to the letter, when the section was there |
| FenceLaws.UpsertedOutlineIff | cli/edit.go:480-534 | the same condition decides whether the outline of the new text is the old one with the one section put |
| FenceLaws.SwallowedTwice | cli/edit.go:480-534 | a section appended inside an open fence is not found there: the second write makes the text longer |
| TaskHeadings.TaskRulesAreProper | cli/edit.go:480-572 | the managed headings and anchors of the source meet what the laws ask for |
| SectionPlacement.ManagedAreRanked | cli/edit.go:559-572 | the managed headings are those of one written-down order, and the subtasks |
| SectionPlacement.AnchorsFollow | cli/edit.go:491-532 | what a missing section is put in front of: the headings after it in that order, except that the goal and the acceptance criteria pass over the review headings |
| SectionPlacement.MissingSectionIsPlaced | cli/edit.go:491-532 | the outline of the new text: a missing section stands directly in front of the first of them, everything else as it was |
| SectionPlacement.MissingSectionIsAppended | cli/edit.go:676-682 | without one it is appended, outside fences as the last section |
| SectionPlacement.MissingSectionText | cli/edit.go:663-682 | the text character by character: a blank line, the heading, a blank line, the body, a blank line, and the rest from the follower on |
| SectionPlacement.InFrontOfAllFollowersIff | cli/edit.go:491-532 | the new section stands in front of every section that follows it in the order if and only if it did not pass over a review section |
| SectionPlacement.OrderIsKeptIff | cli/edit.go:491-532 | inserting keeps sections that were in order in order if and only if it is not a goal or acceptance criteria passing over a review section |
| SectionPlacement.WritingKeepsTheOrderIff | cli/edit.go:480-534 | the same of the outline of the text that is written |
| SectionPlacement.DuplicatesAreMergedIff | cli/edit.go:536-538 | of a section that is there more than once, context and constraints alone are merged |
| SectionPlacement.FoundSectionText | cli/edit.go:487-489 | of a section that is there once: heading, blank line, body and blank line in its place, every other character as it was |
| TaskHeadings.AppendingIsNotIdempotent | cli/edit.go:676-682 | in an empty text the section is appended and the second write changes the text |
| TaskHeadings.EmptyGoalTwice | cli/edit.go:676-682 | for instance: an empty goal written twice into an empty text |
| TaskHeadings.WithALogUpsertIsIdempotent | cli/edit.go:480-534 | in a task with a log, every managed section with a place of its own is written idempotently |
| TaskSections.TaskSectionLineBounds | cli/task_sections.go:88-94 | the bounds of the line at an offset |
| TaskSections.FindTaskSectionWhere | cli/task_sections.go:28-72 | the range of the first section, by this scanner's fences and headings, whose trimmed title is wanted |
| TaskSections.AppendLogEntry | cli/move.go:379-390 | the entry at the end of the first log section, or a new log section at the end |
| TaskSections.LogGetsOneEntry | cli/move.go:379-390 | with a log section, the outline of the new text is the old one with that entry at the end of that section and nothing else changed |
| ScannerLaws.TaskSectionStartsIff | cli/task_sections.go:27-62 | a line starts a section exactly when it begins with `## ` and no fence is open above it |
| ScannerLaws.OutsideFences | cli/task_sections.go:68-76 | below lines that begin with neither marker no fence is open |
| ScannerLaws.FencedBlock | cli/task_sections.go:34-42 | a fence ends at the first line that begins with the marker which opened it, whatever lines of the other marker are inside; until then nothing starts a section |
| ScannerLaws.FirstTitled | cli/task_sections.go:43-57 | the section found is the first with a wanted title |
| ScannerLaws.TitleOfLine | cli/task_sections.go:64-66 | a title is the line without its line end and the blanks before that |
| ScannerLaws.NewLogSectionIff | cli/move.go:379-386 | a missing log section is appended, and is a section exactly when no fence is open where the text ends |
| Metadata.OneFieldPerLine | cli/task.go:209-223 | a line yields at most one field name |
| Metadata.FieldOfFieldLine | cli/task.go:209-223 | a written field line reads back its value for its name and nothing for any other |
| Metadata.ParseTaskHeader | cli/task.go:155-181 | the digit loop splits id and title, and tells a malformed header from no header |
| Metadata.HeaderOfHeaderLine | cli/task.go:155-181 | a written title line reads back as its id and title |
| FieldLaws.FieldOfSpelling | cli/task.go:209-223 | all four spellings of a field, colon inside or behind the bold, with or without a list dash, give the text behind it, trimmed |
| FieldLaws.OnlySpellings | cli/task.go:209-223 | and no other line is a line of the field |
| FieldLaws.HeldIff | cli/edit.go:747-783 | the editor looks for the same lines as the reader |
| FieldLaws.HeaderOfText | cli/task.go:155-181 | a title line is the prefix, digits, a colon and a title; without a title it is malformed |
| FieldLaws.HeaderWithoutColon | cli/task.go:172-174 | so are digits that no colon follows |
| FieldLaws.NoHeader | cli/task.go:155-168 | and any other line is no title line |
| FieldLaws.ReadsTheLastValues | cli/task.go:79-153 | for any lines: only the first 28 count; the first malformed title among them is reported, else the last title line counts, and for each field the last line that gives it |
| FieldLaws.RangeIs | cli/edit.go:684-709 | for any lines: the block begins at the first line that is not blank, below a heading if that is the first line, and ends at the first that is blank or a section's heading, within 28 lines |
| FieldLaws.SetLineIs | cli/edit.go:760-783 | for any lines: the first line of the block with the field is rewritten; without one a line is written in front of the first Branch line of the block, or at its end |
| FieldLaws.ClearLineIs | cli/edit.go:747-757 | for any lines: the first line of the block with the field is dropped, if there is one |
| FieldLaws.RetitledIs | cli/edit.go:723-742 | for any lines: the first of 28 that starts like a title line is rewritten under its ID; it fails when there is none, or that one is malformed or indented |
| Metadata.ParseTaskFile | cli/task.go:79-153 | the loop reads the first 28 lines, stops at a malformed header, requires a header, and keeps the last value of each field |
| Metadata.MetadataRange | cli/edit.go:684-709 | the block: from past the title and blank lines to the first blank line or section in the window |
| Metadata.SetField | cli/edit.go:760-783 | replaces the field's line in the block, or inserts one before the Branch line, or at the block's end when there is none |
| Metadata.ClearField | cli/edit.go:747-757 | drops the field's first line in the block and no other line |
| Metadata.ReplaceTaskTitle | cli/edit.go:723-742 | rewrites the first title line in the window, keeping its id, and returns the old title; else an error |
| MetadataBlock.BlockFits | cli/task.go:79-153 | a block with one line per known field fits the 28-line window with its title |
| MetadataBlock.BlockOfSheet | cli/edit.go:684-709 | on a task file the range found is exactly the block |
| MetadataBlock.SetIsOnTheBlock | cli/edit.go:760-783 | setField on the lines is one line replaced or added in the block |
| MetadataBlock.ClearIsOnTheBlock | cli/edit.go:747-757 | clearField on the lines is one line removed from the block |
| MetadataBlock.TitleIsOnTheHeader | cli/edit.go:723-742 | replaceTaskTitle changes the header alone |
| MetadataBlock.SetMetaIsUpdate | cli/edit.go:760-783 | seen as a finite map, setting is map update: no field disturbs another, and there is still one line per field |
| MetadataBlock.ClearMetaIsRemoval | cli/edit.go:747-757 | and clearing is removal |
| MetadataLaws.ParseOfSheet | cli/task.go:79-153 | for any body: a malformed title line in the window is reported by its number; otherwise the block's map overlaid with the field-like lines that the window exposes, under the last title line it exposes |
| MetadataLaws.ReadsTheBlockIff | cli/task.go:79-153 | for any body: title and map are what is read if and only if the exposed field-like and title-like lines agree with them and none is malformed |
| MetadataLaws.EditIsUpdate | cli/edit.go:684-783 | each edit updates title and map as a finite map would and keeps the file's layout, with a Branch line or without one, as long as a block stays or no blank line follows its place |
| MetadataLaws.KeptLineAnchors | cli/edit.go:684-783 | which holds of every run of edits that leaves one of the lines uncleared |
| MetadataLaws.EmptiedBlockMoves | cli/edit.go:684-783 | clearing the last line of a block above a blank line and setting it again gives another file |
| MetadataLaws.EditsKeepTheLayout | cli/edit.go:684-783 | after any run of edits that keeps the block's place: one line per field, in a block within the window, above the same body |
| MetadataLaws.ParseAfterEditsIff | cli/edit.go:684-783 | after any such run of edits, above any body: what is read is the task updated as a map if and only if the exposed lines agree with that |
| MetadataLaws.ParseAfterEdits | cli/edit.go:684-783 | what parseTaskFile reads after any such run of edits, above a quiet body, is the map updated by them |
| Create.BuildTaskContent | cli/create.go:248-275 | the builder's text is title, block, body |
| Create.CreatedIsValid | cli/create.go:248-275 | a created task meets what the metadata laws ask for |
| Create.CreatedStaysAnchored | cli/create.go:248-275 | a created task's block stays in place under every run of edits that does not clear Branch |
| Create.CreateEditParse | cli/create.go:248-275 | create, edit in any way that keeps the block, read: the created fields and title updated as a map, when the description has no field-like or title-like line |
| CreatedTask.CreatedReads | cli/create.go:248-263 | a created task reads back with the values it was created with, Branch being a dash; module, tags and parent only if given |
| CreatedTask.CreatedSections | cli/create.go:264-273 | its text has exactly the sections goal, acceptance criteria, attachments if it has any, and log, in this order, each with its lines |
| Create.DescriptionCanOverrideAField | cli/create.go:265-270 | a description that is a field line makes the created task read back with the wrong field |
| Create.DescriptionCanOverrideTheTitle | cli/create.go:265-270 | a description that is a title line gives it another ID and title |
| Create.DescriptionCanBreakTheTask | cli/create.go:265-270 | a description that is a bare title line makes it unreadable |
| Config.ParseSimpleYAML | cli/board.go:71-93 | the loop over the text's lines computes the map of the key lines: comments and lines without a colon skipped, values trimmed and unquoted, the last one kept |
| InitText.EntryOfText | cli/board.go:71-93 | a line that is no comment is a key up to its first colon and a value, both trimmed, one pair of quotes taken off the value |
| InitText.NoEntry | cli/board.go:71-93 | blank lines, comments and lines without a colon are no entries |
| InitText.QuotesOff | cli/board.go:82-88 | of the quotes around a value one pair goes, single or double |
| InitText.NoQuotes | cli/board.go:82-88 | any other value is only trimmed |
| InitText.LastEntryWins | cli/board.go:71-93 | the last entry for a key is the one that counts |
| InitText.KeysOfEntries | cli/board.go:71-93 | and a key without an entry is not there |
| InitText.LessIff | cli/config_template.go:57-57 | the extra keys are in dictionary order: by the first place where they differ, a beginning before the whole |
| InitText.InitShows | cli/config_template.go:22-77 | what is read from the file: board and prefix always, with their defaults; limits, enforcement and extensions only when they have a value; every other key of the values |
| InitText.InitReads | cli/init.go:108-197 | what is read after an init over an existing file: board and prefix are the flag's value, without one what was there, and the default when that is empty; every other key that had a value keeps it |
| InitText.FreshInit | cli/config_template.go:22-69 | the file of a fresh init, line by line |
| Config.SortSorts | cli/config_template.go:55-62 | sorting the extra keys gives a sorted list of the same keys |
| Config.SortedIsUnique | cli/config_template.go:55-62 | which is the only one |
| Config.CollectExtraKeys | cli/config_template.go:52-62 | whatever the map's iteration order, the unknown keys sorted |
| Config.RenderConfigTemplate | cli/config_template.go:22-77 | the builder writes the template's lines, each slot filled by its value, default or commented default, and then the extra keys |
| ConfigFile.RoundTripIff | cli/config_template.go:22-77 | for every map: the file's text reads back as the same map, unknown keys included, if and only if its keys are good, no value has a line break, outer quotes or spaces, known keys are not empty, and required ones are there |
| ConfigFile.RenderAgainIff | cli/config_template.go:22-77 | for every map that init renders: rendering what was read back is byte-identical if and only if no value shown has a line break or changes under trimming and unquoting |
| ConfigFile.BreaksAreNotKept | cli/config_template.go:22-77 | a file with a line break in a flag's value is not what any map that can be read renders to |
| InitConfig.TheTemplateIsValid | cli/config_template.go:22-69 | the template's slots, in the source's order, meet what the laws ask for |
| InitConfig.ReinitRenders | cli/init.go:108-197 | init on an existing file, without flags, renders the parsed file |
| InitConfig.ReinitTwiceIff | cli/init.go:108-197 | for every existing config and every flags: a second init, without flags, is a fixpoint if and only if no value shown has a line break, or quotes or spaces around it |
| InitConfig.NestedQuotesAreNotStable | cli/board.go:71-93 | a value in two pairs of quotes loses a pair at each init |
| InitConfig.LineBreakIsNotStable | cli/init.go:165-189 | a board path with a line break is cut at it by the next init |
| BoardSwitch.Coordinator.constructor | gui/frontend/src/lib/boardSwitch.ts:18-26 | nothing opening, nothing committed |
| BoardSwitch.Coordinator.CommitNow | gui/frontend/src/lib/boardSwitch.ts:28-45 | the state part of commit: stale numbers refused, a number committed before acknowledged, else committed and every deferral dropped |
| BoardSwitch.Coordinator.Open | gui/frontend/src/lib/boardSwitch.ts:56-64 | a new number and target, deferrals dropped, the open remembered |
| BoardSwitch.Coordinator.OpenResolved | gui/frontend/src/lib/boardSwitch.ts:85-93 | the segment after the backend's success: own commit, reconciled commit, deferral or nothing |
| BoardSwitch.Coordinator.OpenRejected | gui/frontend/src/lib/boardSwitch.ts:67-84 | the segment after its failure: the latest open hands over to a deferred root |
| BoardSwitch.Coordinator.HandleOpenedEvent | gui/frontend/src/lib/boardSwitch.ts:95-130 | every branch of the event handler up to its first await |
| BoardSwitch.Coordinator.Resume | gui/frontend/src/lib/boardSwitch.ts:88-92 | what follows the awaited callbacks |
| BoardSwitchRuns.StepKeepsInv | gui/frontend/src/lib/boardSwitch.ts:28-130 | every segment, in any order, keeps the coordinator's invariant |
| BoardSwitchRuns.OpeningIsTheLatestOpen | gui/frontend/src/lib/boardSwitch.ts:28-53 | openingSequence is 0 or equals sequence, exactly while the latest open is neither settled nor committed; each number commits at most once, in increasing order |
| BoardSwitchRuns.CommitWhileOpeningIsItsOwn | gui/frontend/src/lib/boardSwitch.ts:95-130 | a commit made while an open is pending commits that open's own target, the rejection of that open aside |
| BoardSwitchRuns.LatestOpenWins | gui/frontend/src/lib/boardSwitch.ts:56-93 | once the latest open resolves, its board is the committed one, whether its event came first or not |
| BoardSwitchHistory.OlderOpenCommitsIff | gui/frontend/src/lib/boardSwitch.ts:85-93 | over every run: an older open that resolves commits if and only if it was not forgotten and some step rejected the latest open, nothing having been opened or committed since |
| BoardSwitchRuns.OlderOpenCanReplaceACommit | gui/frontend/src/lib/boardSwitch.ts:85-93 | a run in which an older open replaces the board that the latest one's event had committed |
| BoardSwitchEvents.EventCommitsIff | gui/frontend/src/lib/boardSwitch.ts:95-130 | in every state of every run: exactly when an event commits its board, under which number, and that otherwise nothing but the deferral and the memory of it changes |
| BoardSwitchEvents.BoardOpenedElsewhere | gui/frontend/src/lib/boardSwitch.ts:119-127 | with no open pending, the event of a board neither committed nor remembered makes it the committed one under a new, larger number |
| BoardSwitchEvents.EventMemory | gui/frontend/src/lib/boardSwitch.ts:103-130 | what an event puts off and what it forgets |
| BoardSwitchEvents.EventThenFailure | gui/frontend/src/lib/boardSwitch.ts:67-106 | a remembered board whose event came while another was opening is the committed one once that open fails |
| BoardSwitchEvents.OlderOpenThenFailure | gui/frontend/src/lib/boardSwitch.ts:67-93 | so is an older open's that resolved meanwhile, unless an event has been put off too: then that event's is |
| BoardSwitchEvents.PlainFailure | gui/frontend/src/lib/boardSwitch.ts:67-84 | with nothing put off, a failure commits nothing |
| BoardSwitchEvents.OpenStartsAfresh | gui/frontend/src/lib/boardSwitch.ts:56-64 | a new open puts off nothing and is the one that is opening |
| BoardSwitchEvents.StepKeepsRemembered | gui/frontend/src/lib/boardSwitch.ts:28-130 | what every step keeps of the remembered opens: none is newer than the latest number, and one under that number is the one opening or committed |
| TriageCache.BoardService.constructor | gui/app/board_service.go:309-340 | no client, no cache, generation 0 |
| TriageCache.BoardService.SetClient | gui/app/board_service.go:145-155 | the client, an empty cache and the next generation |
| TriageCache.BoardService.ClearTriageCache | gui/app/board_service.go:682-687 | an empty cache and the next generation, the client kept |
| TriageCache.BoardService.Triage | gui/app/board_service.go:309-340 | undisturbed: what is cached is returned without asking the loader; otherwise no client and a failed load are errors that change nothing, and a loaded list is returned and cached |
| TriageCache.BoardService.StoreIfCurrent | gui/app/board_service.go:328-338 | stores only under the generation it was loaded for |
| TriageCache.StepKeepsInv | gui/app/board_service.go:309-340 | every step of loads, invalidations and client swaps keeps a cached result current and fresh |
| TriageCache.CacheIsCurrent | gui/app/board_service.go:145-155 | whenever a reader can look, a cached result is of the present client and reflects every change already invalidated for |
| TriageCache.ReturnsAreCurrent | gui/app/board_service.go:309-340 | Triage returns, from hit or miss, only results no invalidation has overtaken; an overtaken one is loaded again |
| TriageCache.EarlyClientIsDiscarded | gui/app/board_service.go:145-155 | a load that saw the new client before the generation moved is never stored, whatever happens next |
| ListSort.SortDoneSlotsByCompletion | cli/list.go:163-194 | writes the sorted done items into the done slots and leaves every other index alone |
| ListSort.SortListItems | cli/list.go:153-161 | the listing is the sort by priority and number with its done items placed so |
| ListSort.ComparatorsAreStrictWeakOrders | cli/list.go:170-188 | both comparators are strict weak orders |
| ListSort.PlacedParts | cli/list.go:163-194 | placing changes neither the other items nor the order of the placed ones |
| ListSort.ListingIsOrdered | cli/list.go:153-194 | a permutation; tasks not done at the exact indices of the priority order; done tasks dated first, newest first, then by priority and number |
| ListSort.ListingByFields | cli/list.go:153-194 | in the tasks' fields: of done tasks the dated first, then the newest, then lower rank and number; of the others lower rank, then lower number |
| ListSort.ListingIsUnique | cli/list.go:153-194 | with different numbers the result does not depend on how the library breaks ties |
| ListSort.SortIsUnique | cli/list.go:256-263 | one sorted arrangement under an order that tells all items apart |
| ListSort.SortExists | cli/list.go:153-194 | and there always is one |
| BoardDir.Board.constructor | cli/board.go:14-25 | a board as it is on disk |
| BoardDir.Untouched | cli/move.go:165-252 | any run of operations leaves every path that none of them names as it was |
| BoardDir.Board.ResolveTaskRefInStatus | cli/board.go:242-275 | folder form preferred, a directory or a plain file in the wrong place reported, else missing |
| BoardDir.Board.ResolveTaskRefsForID | cli/board.go:277-289 | the statuses the ID lives in, each once; fails exactly when one lookup fails |
| BoardDir.Board.ResolveMoveSource | cli/move.go:254-287 | failed lookup, not found, already there, collision, ambiguity or the one source, by the set of statuses the ID lives in |
| BoardMoves.NothingIsOverwritten | cli/move.go:337-351 | the destination check: a move leaves every other entry of the board in its place with its contents |
| BoardDir.Board.MoveTaskOnBoardWithGuard | cli/move.go:165-252 | refuses, does nothing, or performs exactly the planned operations, with the checks in the source's order |
| BoardDir.Board.CleanupOrphanFileFormSibling | cli/board.go:410-423 | removes the file beside a folder form, and nothing without a folder form |
| BoardDir.Board.EditTask | cli/edit.go:324-402 | refuses, or writes the markdown in place and then cleans up: exactly the planned operations |
| BoardDir.Board.IsTaken | cli/board.go:535-547 | whether either name of the number exists in any of the six directories |
| BoardDir.Board.AllocateID | cli/board.go:502-531 | the bump loop ends at the first number from .next-id on that is free in all six directories, and .next-id is then one past it |
| BoardDir.Board.CreateTask | cli/create.go:126-184 | allocates and writes the new task in the chosen form |
| BoardDir.Board.PromoteFileTaskWithAttachments | cli/attach.go:433-495 | refuses, or performs exactly staging, publication and removal in that order |
| BoardDir.DecimalIsInjective | cli/board.go:535-537 | different numbers have different names, so the bump loop passes a new name each time |
| BoardLaws.DecimalIs | cli/board.go:535-537 | an ID's digits are its number's, without a leading zero |
| BoardLaws.LookupIs | cli/board.go:242-275 | which entries make a lookup fail, which text it finds otherwise, and in which form |
| BoardLaws.ListedIs | cli/board.go:310-382 | which entries and names the scan lists, and in which form |
| BoardLaws.SourceByHomes | cli/move.go:254-287 | where a move takes a task from, by the set of statuses it lives in, every case |
| BoardLaws.MoveRefusedFor | cli/move.go:165-252 | why a move with one source is refused: review target, guard, destination, in this order |
| BoardLaws.PromotionHappensIff | cli/attach.go:433-495 | a promotion happens exactly for a file task with no entry under the folder's or the staging name and distinct, allowed attachment names |
| BoardLaws.PromotionRefusedFor | cli/attach.go:433-495 | why a promotion is refused, every reason in its order |
| BoardLaws.EditRefusedFor | cli/edit.go:324-402 | an edit is refused exactly when the task is not found or its lookup fails |
| BoardLaws.LeafNameIff | cli/attach.go:361-380 | which are neither blank nor paths, no dot names, and neither reserved name in whatever case |
| BoardLaws.NoOrphanAfterEdit | cli/edit.go:395-402 | an edit of a folder task leaves the rewritten markdown, every other member of the folder, and no file beside it |
| BoardLaws.CleanupIs | cli/board.go:410-423 | a cleanup removes what has the file's name beside a folder with a TASK.md, refuses a folder there that is not empty, and changes nothing else |
| BoardDir.NamesAhead | cli/board.go:502-531 | each turn of the bump loop uses up one of finitely many names: it terminates |
| BoardScan.DiscoverTaskRefsInStatus | cli/board.go:310-382 | the scan lists exactly the IDs with a folder or file form, folder preferred, dot names skipped; fails exactly when some TASK.md is a directory |
| BoardScan.SeeEntry | cli/board.go:334-363 | what one directory entry adds |
| BoardScan.DiscoverTaskRefs | cli/board.go:291-308 | succeeds exactly when every scan does and no ID is listed twice, and then lists each ID where it is |
| BoardScan.ResolversAgreeIff | cli/board.go:242-382 | scan and lookup find the same canonical path unless the lookup fails, which beside a clean scan is exactly when a file has the folder's name or a folder the file's |
| BoardScan.ScanListsWhatLookupRefuses | cli/board.go:242-382 | a plain file under the folder's name: the scan lists the task and the lookup fails |
| BoardScan.HiddenIsNeverFound | cli/board.go:329-332 | staging directories and other dot names are invisible to both |
| BoardPromotion.PromotionAtAnyCrash | cli/attach.go:433-495 | at every crash point the task resolves to one complete markdown, the old file until publication and the rewritten one in the folder after, and scan and lookup agree |
| BoardPromotion.TheFolderIsComplete | cli/attach.go:446-474 | the published folder holds every attachment with its contents, the rewritten markdown, and nothing else |
| BoardPromotion.CleanupFinishesPromotion | cli/board.go:407-423 | after a crash past publication the next cleanup leaves the folder alone with its contents; before it, nothing changes |
| BoardPromotion.FailedPromotionIsUndone | cli/attach.go:446-455 | a promotion that fails before publication leaves the board exactly as it was |
| BoardRuns.OthersAreUntouched | cli/move.go:165-252 | no operation of a command, whole or cut short, touches another task's entries |
| BoardRuns.MoveAtAnyCrash | cli/move.go:205-246 | at every crash point of a move the task resolves at its source or at its target, never at both and never at neither |
| BoardRuns.CreateAtAnyCrash | cli/create.go:126-184 | a creation cut short leaves nothing that resolves; a complete one resolves with its text |
| BoardRuns.EditAtAnyCrash | cli/edit.go:395-402 | an edit cut short leaves the old or the new text, in the same form |
| BoardRuns.CleanupAtAnyCrash | cli/board.go:410-423 | a cleanup changes no lookup |
| BoardRuns.StepAtAnyCrash | cli/move.go:165-252 | any command, whole or cut short: other tasks as they were, its own task still in one status with its old or its new text |
| BoardRuns.EachTaskInOneStatus | cli/move.go:165-287 | over every run of creates, moves, promotions, edits and cleanups with crashes anywhere, each ID lives in at most one status and no lookup fails |
| BoardRuns.NoTaskIsLost | cli/move.go:165-252 | over every such run a task that lives somewhere still does, in the same place with the same text if no command named it |
| BoardRuns.IdsAreNeverReused | cli/board.go:502-531 | over every such run an ID handed out is never handed out again, even if its creation crashed |
| BoardMoves.MoveHappensIff | cli/move.go:165-287 | exactly when a move happens; otherwise the board is unchanged |
| BoardMoves.MoveRelocatesOneTask | cli/move.go:165-252 | the whole board after a move: the folder with all it holds, or the file, at the target with one log entry more, an orphan file gone, every other path as it was |
| BoardMoves.MoveAddsOneLogEntry | cli/move.go:205-246 | the task lives in the target alone, in its form, and its markdown's outline has one entry more at the end of its log |
| BoardMoves.NoAmbiguousSource | cli/move.go:254-287 | on a board that keeps the invariant, a move finds the task, finds it already there, or finds nothing |
| BoardMoves.ScanAgrees | cli/board.go:242-382 | on such a board the scan never fails, lists each task exactly where the lookup finds it, and in one status only |

## Left out

- DaemonState.Daemon.TryReserveAutomationRun: is stated for a call that nothing interrupts; its interleavings are in `DaemonProtocol`, whose steps are these methods' functions.
- DaemonProtocol.ReachableInv: takes the reset of `deactivate` together with its empty check; `ResetKeepsInvIffEmpty` says what happens otherwise.
- RunOutcomes.LaunchedRunEndsOnce: is about runs whose goroutine was launched; starts that roll back before that are a separate exit and not modelled.
- RunOutcomes.AdoptedRunEndsOnce: a run that recovery adopts a second time has a second stub, which counts as another run here; so does whatever that one's writers do. What people write to AgentStatus by hand is not modelled.
- RunOutcomes.AgentStatusRepeatsIff: recordTerminal's reading of the task succeeds; when it fails the source writes the status as if nothing were carved out.
- AgentRuns.AgentService.RecordTerminal: leaves out the per-mode attribution fields and the event payload; whether a review has sent the task back is a parameter.
- AgentRuns.AgentService.CancelRun: is stated for a call that meets no other; the waits for Done and the signals are steps of `RunLifecycle`, and the identity check's verdict is a parameter.
- Recovery.PassSettles: append and edit succeed or the process stops there; a failed append or edit is a crash at that point. The monitors that recovery starts are in `RunLifecycle`.
- EventLog.ReadRunViews: a log line is an event value; JSON decoding, the skip of unreadable lines and the 1 MB line limit are not modelled.
- EventLog: `LatestQueuedInitiator` and `LastGroomTriageHash` are folds of the same kind and would only add easy members.
- Text: an offset counts characters where the program counts bytes, and invalid UTF-8 is not modelled.
- Sections.FindMarkdownSections: the heading is a managed one, as every caller's is; for any other heading the ranges may overlap.
- TaskSections.LogGetsOneEntry: is stated for a text with a log section, and an entry that is one line and neither a heading nor a fence; without a log section `NewLogSectionIff` says what is written and when it is a section.
- Metadata.SetField: takes and returns the lines as a value; that Go's slice may share its array with the caller's is not modelled.
- Metadata.ParseTaskFile: the scanner's 64 KB line limit and its treatment of a last empty line are not modelled.
- MetadataLaws.EditIsUpdate: leaves out edits that clear the last line of a block above a blank line; `EmptiedBlockMoves` says what goes wrong there.
- Create.CreateEditParse: asks for edits that keep the block (`CreatedStaysAnchored`), for trimmed one-line values, which the flags' validation and redaction leave, and for a description without lines that look like a field or a title in the window.
- Config.RenderConfigTemplate: the wording of the template's comments is a parameter; the laws hold for any wording of one line per comment in which the comment above the scanned extensions is repeated nowhere below it.
- ConfigFile.RenderAgainIff: of the values that are not read from a file, only those of the two flags can have line breaks, as in `tb init`.
- Recovery.AnyCrashesThenPass: one world serves all the passes; `RecoveryCrashes` has the law for changing ones, where the order of appended lines may differ.
- BoardSwitch.Coordinator.HandleOpenedEvent: the activation and commit callbacks have no state of their own, and a callback that throws is not modelled.
- TriageCache.ReturnsAreCurrent: the files that a load reads are read at one instant.
- ListSort.SortListItems: `sort.Slice` is any sorted permutation; `priorityRank` and `numericID` are functions of the item, not modelled themselves.
- BoardDir.Board.CreateTask: the parent's tag and subtask list are not modelled; writing them is an edit of the parent.
- BoardDir.Board.MoveTaskOnBoardWithGuard: BOARD.md is not modelled, a failed rename or write is a crash at that point, the review-target check and the guard are parameters that may read the whole board, and redaction of the entry has already happened.
- BoardDir.Board.PromoteFileTaskWithAttachments: the rewriting of the markdown is a parameter (it is `UpsertTaskSection` and `AppendLogEntry`), and the agent artifacts that move along are not modelled; attaching to a task that is already a folder is left out.
- BoardRuns.EachTaskInOneStatus: is about IDs that do not begin with a dot or end in `.md`, as `normalizeTaskID` makes them; the lock is mutual exclusion between whole commands and is lost with the process.
- BoardScan.DiscoverTaskRefsInStatus: the final sort by number and the symbolic links a directory may hold are not modelled.
- Redaction patterns, dates, random tokens, flock, fsync and signals: parameters or single steps.
- Coordinators for automatic grooming, implementation and review, stream translators, prompts, the CLI wrapper and the UI: plumbing around the parts modelled here.
