# grok-pi extension layer: a verified model

This project models the state machines, text transformers and logs of the
TypeScript extension layer in Dafny and proves what they are for. JavaScript
runs one stretch of code between two `await`s at a time, so each such stretch is
one step (exceptions are named at the end); timers, abort signals, socket data,
child exits, other programs' writes and restarts are steps of the environment. A
run is a sequence of steps, and the main results speak about every run.

Each component has a value-level transition function, the theorems about runs of
it, and, where the original updates objects in place, a class (or methods with
loops) proved to make exactly those transitions. Fields called observer's notes
(`history`, `notes`, `grant`, `settled`, `polls` and so on) record what a run has
done and are never read by the transitions.

A transition function could be wrong and still keep its invariants. So each
component also has a file that says what a run does without naming those
functions: from the events alone (`...Events`, `...Fates`, `...Inbox`,
`...Outcomes`), from the answers given so far (`OAuthHistory`), from the list of
what was published (`EventLog`), or from the way a text is made up of pieces
(`...Grammar`, `UiDocument`).

| file | what it models |
|---|---|
| `HostCallGate.dfy`, `HostCallEvents.dfy` | the gate for host calls of the evaluation kernel: parallel jobs up to a limit, sequential jobs as barriers, aborts that keep the slot |
| `EvalKernel.dfy`, `EvalFates.dfy` | the kernel itself: one cell at a time under racing replies, timeouts, aborts, exits and resets |
| `BashTasks.dfy`, `BashEvents.dfy` | Bash tasks: one answer per call, one notice per background result, under promotions, kills, aborts, late flushes and the turns of the agent |
| `SubagentRuntime.dfy` | the background scheduler of subagents, exactly-once finish, the append-only state log and crash recovery |
| `SchedulerOrder.dfy`, `TeamSchedule.dfy` | the order in which that scheduler serves its queue, over every run of calls and over every run of a team |
| `Team.dfy`, `TeamInbox.dfy`, `TeamOutcomes.dfy`, `TeamDeadlock.dfy`, `TeamStalls.dfy` | the team of agents on top of it: waiting, results, follow-ups, inboxes, reports, exactly when every wait stays covered, why a stall lasts, and three runs that stall |
| `FileRollback.dfy`, `RollbackEvents.dfy` | capture of writes and edits, the journal, the plan and the undo |
| `TomlText.dfy`, `TomlGrammar.dfy`, `UiTable.dfy`, `UiDocument.dfy` | the editor of the `[ui]` table of the host configuration |
| `JsonComments.dfy`, `JsonGrammar.dfy` | comment stripping of JSON configuration |
| `OAuthGrants.dfy`, `OAuthHistory.dfy` | the daemon's authorization server, its state file, restarts and lost writes |
| `EventQueues.dfy`, `EventLog.dfy` | the daemon's bounded event queues, their shared counter and the dedupe window |
| `RequestProtocol.dfy`, `RequestFates.dfy` | requests between daemon and Pi over a socket |
| `KeyReader.dfy`, `KeyMessages.dfy` | the incremental key file reader of the remote terminal |
| `ShortIds.dfy` | short subagent ids and their lookup |

## Where the code does not do what its words say

The model follows the code. For each of these there is a statement of exactly
when the promise holds and a run, a text or a family of runs that breaks it.

- A team can stall: a `waiting` report survives a result that arrives within the same run (`RunEndsWaiting`, `StaleReportStalls`), a queued record whose abort signal fires is skipped without being finished (`QueuedSignalIff`, `QueuedAbortStalls`), and a follow-up with an aborted signal clears the report of a waiting agent without waking it (`AbortedFollowUpIff`, `AbortedFollowUpStalls`). A wait is covered while a child or the agent's own next follow-up still owes it a wake-up. Every wait is covered in every state of a run if and only if none of the three happens to an agent whose parent waits for it alone (`WaitsStayCoveredIff`); a run of that kind never stalls (`TeamNeverStalls`), and a stall lasts until somebody outside steps in (`StalledForGood`). A wait that is not covered need not stall: a running grandchild may still wake the chain.
- A rollback selects every branch mutation except the target's own, ancestors included (`SelectionIsDescendantsIff`, `AncestorMutationIsUndone`); the one slot for the text an edit read loses the original when edits interleave (`EditFaithfulIff`, `InterleavedEditsLoseAFile`); a finished rollback can be planned again only when it had nothing to undo (`RollbackRepeatsIff`); and a mutation journalled after the second read of a binding that rewrites the journal is lost (`BindLosesAppendedIff`, and a run with `BindLosesAWrite`).
- The `[ui]` editor inserts new keys at a line number of the old text although rewriting may have removed lines above it (`SplicesAsIntendedIff`, `ShiftLosesKeys`, and one text with `ShiftedExampleLosesKey`). A string with U+2028 or U+2029 is written unescaped and cannot be read back, and a key with a name every object inherits is overwritten with `undefined` (`UpdateOverlaysIff`, and one text with `SeparatorExampleLosesKey` and `InheritedExampleIsOverwritten`). Whether a value is complete is tested before its comments are stripped, so a bracket in a comment makes it take the lines that follow: an assignment of a scalar takes its own line alone if and only if its comment is balanced (`CommentSwallowsIff`), documents with such comments read as written (`DocumentReads`), and one text loses a key (`CommentBracketSwallows`).
- When the event queues are full together, a publish can drop its event for a subscription that has room, without a notice to it, while another queue is cleared (`SilentLossIff`, `GlobalOverflowHitsAnother`, and a run with `SilentLossIsReachable`).
- A failed write to a child that was already replaced is ignored only when there is no child; otherwise, unlike its exit or error, it drops the new child and rejects the cell pending on it, if any (`StaleChildEvents`, and a run with `LateWriteErrorRejectsNewCell`).
- A line holding the JSON value `null` makes the key reader lose the rest of that poll (`NullLosesIff`, and a run with `NullRunLosesInput`), and the lines of a recreated key file are read rightly only when the next poll finds it shorter than what was read, or it begins with exactly the bytes that were kept back (`RecreatedIsReadIff`, and a run with `RecreatedRunSkipsALine`).
- A Bash call whose signal has fired still succeeds as promoted when the timer that sends it to the background comes before the exit, and the end of the aborted command then wakes the agent (`AbortedUnlessPromoted`, `PromotionOvertakesAbort`).

## Model

| member | source | states |
|---|---|---|
| `HostCallGate.BarrierAndOrder` | extensions/pi-grok-bash/eval.ts:121-208 | Over every run of submits, aborts and finished work: work of a sequential job overlaps no other, live work never exceeds the limit even after its caller was rejected, and jobs start in submission order with exactly the withdrawn ones left out |
| `HostCallGate.CallersSettleOnce` | extensions/pi-grok-bash/eval.ts:132-154 | Every submitted job has settled its caller exactly once unless it still waits or runs for that caller, and then not at all |
| `HostCallGate.NothingWaitsOnNothing` | extensions/pi-grok-bash/eval.ts:156-174 | In every reachable state a live job waits only while some job holds a slot |
| `HostCallGate.StepLowersRank` | extensions/pi-grok-bash/eval.ts:156-206 | No event lets a job overtake a waiting one: its rank (live work plus jobs ahead) never grows and falls with every slot given back |
| `HostCallGate.BoundedWaiting` | extensions/pi-grok-bash/eval.ts:156-206 | Whatever is submitted or aborted meanwhile, a waiting job starts before as many slots have been given back as its rank |
| `HostCallGate.PumpKeeps` | extensions/pi-grok-bash/eval.ts:156-174 | Pumping keeps the barrier and the order and stops only where the first live job must wait |
| `HostCallGate.StepKeeps` | extensions/pi-grok-bash/eval.ts:121-208 | Every event keeps barrier, order, slots and the reason why the front job waits |
| `HostCallGate.Gate.constructor` | extensions/pi-grok-bash/eval.ts:122-130 | A new gate is empty |
| `HostCallGate.Gate.Submit` | extensions/pi-grok-bash/eval.ts:132-154 | Submitting makes the submit transition, refused at once when the signal is already aborted |
| `HostCallGate.Gate.OnAbort` | extensions/pi-grok-bash/eval.ts:143-150 | An abort withdraws a waiting job or settles the caller of a running one without freeing its slot; over runs: `AbortSettlesForGood` |
| `HostCallGate.Gate.OnWorkSettled` | extensions/pi-grok-bash/eval.ts:200-206 | Finished work settles its caller once, frees the slot and pumps |
| `HostCallGate.Gate.Drain` | extensions/pi-grok-bash/eval.ts:156-174 | The two nested loops compute the recursive pump |
| `HostCallEvents.SettledIff` | extensions/pi-grok-bash/eval.ts:132-206 | From the events: a job has settled its caller exactly when it was refused at submit, was aborted since, or its work stopped while it held a slot |
| `HostCallEvents.WithdrawnIff` | extensions/pi-grok-bash/eval.ts:132-174 | The jobs left out of the starts are exactly those refused at submit or aborted before they started |
| `HostCallEvents.SlotHeldIff` | extensions/pi-grok-bash/eval.ts:175-206 | A job that holds a slot holds it until its own work stops, whatever is aborted meanwhile, and not after |
| `HostCallEvents.SequentialRunsAlone` | extensions/pi-grok-bash/eval.ts:156-174 | The work of a job submitted as sequential overlaps no other |
| `HostCallEvents.AbortSettlesForGood` | extensions/pi-grok-bash/eval.ts:143-198 | In every state after the abort of a submitted job its caller has been settled exactly once, and a job that had not started never starts |
| `EvalKernel.CellsSettleOnce` | extensions/pi-grok-bash/eval.ts:980-1031 | After every run each accepted cell is the pending one, on the live child it was sent to, or has been settled exactly once |
| `EvalKernel.NoChildNoCell` | extensions/pi-grok-bash/eval.ts:1090-1101 | When there is no child, every accepted cell has been settled: no reset or exit leaves one hanging |
| `EvalKernel.OnlyOwnReplyResolves` | extensions/pi-grok-bash/eval.ts:1196-1237 | Step fact of `ResolvedCellsWereAnswered`: a step settles at most the pending cell, and resolves it only by a reply that carries its id |
| `EvalKernel.ResolvedCellsWereAnswered` | extensions/pi-grok-bash/eval.ts:1196-1225 | Over every run, a cell is resolved only if a reply with its id came in |
| `EvalKernel.LateHostResultsAreDropped` | extensions/pi-grok-bash/eval.ts:1165-1193 | Step fact: a host call's result is written only while its cell is pending, and to the child that cell runs on |
| `EvalKernel.StaleChildEvents` | extensions/pi-grok-bash/eval.ts:1045-1047 | Exit and error of a replaced child change nothing; its failed write changes nothing if and only if there is no child, and otherwise drops the new child and rejects a cell if and only if one is pending |
| `EvalKernel.LateWriteErrorRejectsNewCell` | extensions/pi-grok-bash/eval.ts:1045-1047 | A run from the start: execute, reply, execute with a reset, and the late write error of the old child rejects the cell of the new one |
| `EvalKernel.StepKeeps` | extensions/pi-grok-bash/eval.ts:980-1248 | Every event keeps the accounts of cells, the link between cell and child, and that timers and abort handlers belong to the pending cell |
| `EvalKernel.ResetKeeps` | extensions/pi-grok-bash/eval.ts:1239-1248 | A reset keeps the accounts when it carries an error or nothing is pending, the only ways it is called |
| `EvalKernel.PersistentEvalKernel.RunCell` | extensions/pi-grok-bash/eval.ts:980-1031 | Running a cell makes the execute transition, with refusal, reset, start and early abort |
| `EvalKernel.PersistentEvalKernel.TakePending` | extensions/pi-grok-bash/eval.ts:1227-1237 | The pending cell is returned and removed with its timer and handler |
| `EvalKernel.PersistentEvalKernel.ResetKernel` | extensions/pi-grok-bash/eval.ts:1239-1248 | A reset drops the child and rejects the pending cell only when there is an error |
| `EvalKernel.PersistentEvalKernel.HandleEvalResult` | extensions/pi-grok-bash/eval.ts:1196-1225 | A reply settles the pending cell only when it carries its id |
| `EvalKernel.PersistentEvalKernel.HandleHostCall` | extensions/pi-grok-bash/eval.ts:1146-1163 | A host call of another cell, or any when there is no bridge to the host, is answered with an error; one of the pending cell is registered and counted |
| `EvalKernel.PersistentEvalKernel.HostCallSettled` | extensions/pi-grok-bash/eval.ts:1165-1193 | A finished host call answers its child or is dropped |
| `EvalKernel.PersistentEvalKernel.OnChildClose` | extensions/pi-grok-bash/eval.ts:1090-1101 | The current child's exit rejects the pending cell |
| `EvalFates.AcceptedIff` | extensions/pi-grok-bash/eval.ts:980-1031 | When a call is accepted, on which child and in which directory its cell runs, and what a refused call leaves behind |
| `EvalFates.CellFate` | extensions/pi-grok-bash/eval.ts:980-1248 | On every run from the state in which a cell is pending, it is settled by the first event that concerns it, as that event says, and is pending until then |
| `EvalFates.ChildStaysIff` | extensions/pi-grok-bash/eval.ts:1033-1248 | Which events end the child and which leave it running |
| `EvalFates.HostCallIff` | extensions/pi-grok-bash/eval.ts:1146-1163 | In every reachable state a host call is taken if and only if it is of the pending cell and there is a bridge; others are answered with an error |
| `BashTasks.CallsSettleOnce` | extensions/pi-grok-bash/index.ts:597-633 | After every run a foreground call in charge of its task has answered at most once, and has not only while the log is unflushed; it answers promoted exactly when the task went to the background, and otherwise what its own exit, timeout or signal says |
| `BashTasks.ResultsAreToldOnce` | extensions/pi-grok-bash/bash-tasks.ts:251-281 | Once the log is flushed the result reaches exactly one reader: the call itself, or one notice for a background task that nobody killed, or only the one who killed it |
| `BashTasks.NoticesInOrder` | extensions/pi-grok-bash/index.ts:111-153 | Notices are handed over in the order drafted, each once, in non-empty batches, and none is held back while the agent is idle |
| `BashTasks.WaitersSettleOnce` | extensions/pi-grok-bash/bash-tasks.ts:179-202 | Each waiter is released once and then has neither timer nor abort handler; none waits for a task whose log is flushed |
| `BashTasks.NothingIsLeftOver` | extensions/pi-grok-bash/bash-tasks.ts:251-281 | With every task registered and flushed and the agent idle, every call and waiter has been settled once, and the agent was handed one notice for exactly the background tasks nobody killed |
| `BashTasks.ReportsOwnExit` | extensions/pi-grok-bash/bash-tasks.ts:251-257 | An exit code in an answer or a notice is one the process of that very task ended with |
| `BashTasks.BackgroundedIff` | extensions/pi-grok-bash/index.ts:618-625 | Over every run, a call in charge of a running process goes to the background if and only if a promotion comes before the exit |
| `BashTasks.AbortedUnlessPromoted` | extensions/pi-grok-bash/index.ts:598-632 | Once the signal of a call in charge of a running process has fired, its answer is promoted if a promotion, by request or by a timer still armed, comes before the exit, and aborted otherwise |
| `BashTasks.PromotionOvertakesAbort` | extensions/pi-grok-bash/index.ts:618-625 | A run in which an aborted call succeeds as promoted and the end of its command wakes the agent |
| `BashTasks.PostsWakeUnlessAborted` | extensions/pi-grok-bash/index.ts:133-153 | Over every run, each batch was handed over by one event, and it is a post that leaves the agent asleep if and only if that very event is the settling of an aborted agent |
| `BashTasks.StepKeeps` | extensions/pi-grok-bash/bash-tasks.ts:251-367 | Every event keeps calls, notices, waiters and deliveries accounted for |
| `BashTasks.BashExtension.constructor` | extensions/pi-grok-bash/index.ts:107-113 | Starts with no task and nothing pending |
| `BashTasks.BashExtension.StartTask` | extensions/pi-grok-bash/bash-tasks.ts:301-367 | Launches a task, in the background or with its timers armed |
| `BashTasks.BashExtension.Settle` | extensions/pi-grok-bash/index.ts:598-615 | The call answers and lets go of its settler |
| `BashTasks.BashExtension.RegisterCall` | extensions/pi-grok-bash/index.ts:595-632 | Makes the register transition: a call whose process has exited meanwhile settles at once |
| `BashTasks.BashExtension.FinishTask` | extensions/pi-grok-bash/bash-tasks.ts:251-258 | Makes the exit transition, once, and disarms both timers |
| `BashTasks.BashExtension.NotifyBashCompletion` | extensions/pi-grok-bash/index.ts:150-153 | A notice waits for the next boundary while the agent runs and is posted at once otherwise |
| `BashTasks.BashExtension.ReleaseWaiters` | extensions/pi-grok-bash/bash-tasks.ts:277-278 | The loop releases every waiter, in order, with its timer and handler |
| `BashTasks.BashExtension.OnLogEnd` | extensions/pi-grok-bash/bash-tasks.ts:259-280 | Makes the flush transition: notice, call, waiters |
| `BashTasks.BashExtension.PromoteTask` | extensions/pi-grok-bash/index.ts:618-625 | Promotes a call that has neither exited nor gone to the background |
| `BashTasks.BashExtension.KillTask` | extensions/pi-grok-bash/index.ts:743-761 | Marks a listed task that has not exited as killed, and says whether it did |
| `BashTasks.BashExtension.SessionShutdown` | extensions/pi-grok-bash/index.ts:770-776 | The loop marks every listed task that has not exited as killed |
| `BashTasks.BashExtension.WaitForCompletion` | extensions/pi-grok-bash/bash-tasks.ts:179-202 | Makes the wait transition: released at once after an exit, refused when aborted, else waiting |
| `BashTasks.BashExtension.AppendBashCompletions` | extensions/pi-grok-bash/index.ts:118-132 | Hands all pending notices over at a boundary |
| `BashTasks.BashExtension.OnAgentSettled` | extensions/pi-grok-bash/index.ts:133-148 | Posts what is still pending as one batch when the agent settles |
| `BashEvents.MarkedIff` | extensions/pi-grok-bash/bash-tasks.ts:251-367 | Over every run a task is registered, signalled, exited, flushed, overdue, killed, in the background, or has spent one of its timers, if and only if some event of the run made it so |
| `BashEvents.AgentRunningIff` | extensions/pi-grok-bash/index.ts:111-148 | The agent runs if and only if it has started since it last settled |
| `BashEvents.HandedOver` | extensions/pi-grok-bash/index.ts:118-148 | At a boundary and when the agent settles everything pending is handed over in one batch |
| `BashEvents.FirstExitCounts` | extensions/pi-grok-bash/bash-tasks.ts:251-258 | The exit code of a task is that of the first exit reported for it |
| `BashEvents.ExitStays` | extensions/pi-grok-bash/bash-tasks.ts:251-258 | And later reports do not change it |
| `BashEvents.WaitBegins` | extensions/pi-grok-bash/bash-tasks.ts:179-202 | A waiter joins a task that has not exited, with the timer and signal it has; any other is answered at once |
| `BashEvents.WaiterFate` | extensions/pi-grok-bash/bash-tasks.ts:179-281 | A waiter waits until the first of its timeout, its signal and the end of its task's log, and is released as that one says |
| `Subagents.ScheduleKeeps` | extensions/pi-grok-subagents/runtime.ts:686-708 | Step fact of `SchedulerOverEveryRun`: scheduling keeps: the count is the number of running ids, at most four, a non-empty queue means all four are taken, the log agrees with the records, and each record finishes once |
| `Subagents.ReleaseKeeps` | extensions/pi-grok-subagents/runtime.ts:698-706 | Step fact of `SchedulerOverEveryRun`: giving a slot back keeps the same |
| `Subagents.FinishKeeps` | extensions/pi-grok-subagents/runtime.ts:360-389 | Step fact of `SchedulerOverEveryRun`: finishing keeps all of it; a finished record is left alone |
| `Subagents.CancelKeeps` | extensions/pi-grok-subagents/runtime.ts:797-807 | Step fact of `SchedulerOverEveryRun`: cancelling keeps all of it, and takes a queued record out of the queue |
| `Subagents.DiscardKeeps` | extensions/pi-grok-subagents/runtime.ts:809-815 | Step fact of `SchedulerOverEveryRun`: discarding keeps all of it |
| `Subagents.CreateKeeps` | extensions/pi-grok-subagents/runtime.ts:391-646 | Step fact of `SchedulerOverEveryRun`: a new or resumed record is logged as running before it can be scheduled |
| `Subagents.PromotionOrder` | extensions/pi-grok-subagents/runtime.ts:721-729 | Promotion moves one queued record to the front and keeps the order of the others |
| `Subagents.RecoveryCancelsOrphans` | extensions/pi-grok-subagents/runtime.ts:195-227 | In whatever order the records are listed, recovery turns exactly those left running into cancelled ones and keeps every other status |
| `Subagents.RecoveryIsIdempotent` | extensions/pi-grok-subagents/runtime.ts:195-227 | A second recovery appends nothing |
| `Subagents.CrashRecovery` | extensions/pi-grok-subagents/runtime.ts:184-264 | After a crash in any reachable state recovery yields the live statuses with unfinished records cancelled |
| `Subagents.LatestPersistedRecords` | extensions/pi-grok-subagents/bridge.ts:212-227 | The fold over the file yields the last status and the start of each record of the session, and their order by start |
| `Subagents.ReplayOrderLists` | extensions/pi-grok-subagents/bridge.ts:226-226 | The replay order lists every record of the session once, sorted by start |
| `Subagents.AppendPersisted` | extensions/pi-grok-subagents/runtime.ts:219-225 | Appending a cancellation changes the log of its own session alone |
| `Subagents.ReplayForRecovery` | extensions/pi-grok-subagents/runtime.ts:195-227 | The replay loop appends one cancellation per record of the session left running, in order of start, and leaves other sessions' logs alone |
| `Subagents.SubagentRuntime.ScheduleBackgroundTask` | extensions/pi-grok-subagents/runtime.ts:686-708 | Makes the schedule transition and returns whether the record now runs, is queued, or was skipped as finished or cancelled |
| `Subagents.SubagentRuntime.RunSettled` | extensions/pi-grok-subagents/runtime.ts:700-706 | Makes the release transition with its skipping loop |
| `Subagents.SubagentRuntime.FinishRecord` | extensions/pi-grok-subagents/runtime.ts:360-389 | Makes the finish transition: status, log line, one notice, handler taken |
| `Subagents.SubagentRuntime.PrioritizeBackground` | extensions/pi-grok-subagents/runtime.ts:721-729 | Makes the promotion and says whether the record was queued |
| `Subagents.SubagentRuntime.CancelRun` | extensions/pi-grok-subagents/runtime.ts:797-807 | Makes the cancel transition |
| `Subagents.SubagentRuntime.DiscardRun` | extensions/pi-grok-subagents/runtime.ts:809-815 | Makes the discard transition |
| `SchedulerOrder.ReleaseStartsFirstWanted` | extensions/pi-grok-subagents/runtime.ts:698-706 | A slot given back goes to the first queued record still wanted; those in front of it leave the queue, those behind keep their places |
| `SchedulerOrder.NoOvertakingStep` | extensions/pi-grok-subagents/runtime.ts:686-729 | Step fact of `FirstComeFirstServed`: in every call, while a record stays queued nothing behind it or not yet queued starts or gets ahead of it, except by its own promotion |
| `SchedulerOrder.FirstComeFirstServed` | extensions/pi-grok-subagents/runtime.ts:686-815 | Over every run of calls, as long as a record stays queued, no record that stood behind it or came later starts unless it was promoted |
| `SchedulerOrder.QueuedNotForLong` | extensions/pi-grok-subagents/runtime.ts:686-815 | Bounded waiting: while a record stays queued, no more slots are given back than records were ahead of it, plus one for each promoted past it |
| `SchedulerOrder.LeavesForASlot` | extensions/pi-grok-subagents/runtime.ts:686-815 | A wanted record leaves the queue only for a slot, as the first wanted one, or because it is stopped |
| `SchedulerOrder.ApplyKeeps` | extensions/pi-grok-subagents/runtime.ts:360-815 | Step fact of the results above: every call keeps the scheduler's invariant |
| `TeamSchedule.StepIsCalls` | extensions/pi-grok-subagents/v2.ts:276-476 | Whatever a team does in a step is a list of possible calls to the scheduler, with its own follow-ups as the promotions and its own released slots as the releases |
| `TeamSchedule.RunIsCalls` | extensions/pi-grok-subagents/v2.ts:276-859 | So is every run of a team, disciplined or not |
| `TeamSchedule.TeamQueueIsServedInOrder` | extensions/pi-grok-subagents/runtime.ts:686-729 | From any state of any run of a team, on any further run in all of whose states a record is queued: no record behind it or not yet queued starts unless a follow-up promotes it |
| `TeamSchedule.TeamQueuedNotForLong` | extensions/pi-grok-subagents/runtime.ts:686-729 | And the team gives back no more slots meanwhile than records were ahead of it, plus one for each follow-up that promoted a record past it |
| `TeamCoordination.TeamNeverStalls` | extensions/pi-grok-subagents/v2.ts:214-402 | In every state of a disciplined run a waiting agent has an agent at or below it that runs, is queued or has its finish handler under way, and then the team is not at rest |
| `TeamCoordination.WaitsStayCoveredIff` | extensions/pi-grok-subagents/v2.ts:276-760 | Every wait is covered in every state of a run if and only if every step is disciplined: no stale waiting report, no signal on a queued record and no aborted follow-up, except where the parent does not wait or has something else to wake it |
| `TeamCoordination.QueuedSignalIff` | extensions/pi-grok-subagents/runtime.ts:351-355 | The signal of a queued record leaves every wait covered if and only if the agent's parent does not wait or has something else to wake it |
| `TeamCoordination.AbortedFollowUpIff` | extensions/pi-grok-subagents/v2.ts:284-312 | A follow-up with an aborted signal to a waiting agent leaves every wait covered if and only if that agent's result is still on its way or its parent does not wait or has something else to wake it |
| `TeamCoordination.RunEndsWaiting` | extensions/pi-grok-subagents/v2.ts:748-760 | A run that ends with a waiting report leaves every wait covered if and only if something is still pending for it |
| `TeamCoordination.WakerBelow` | extensions/pi-grok-subagents/v2.ts:478-484 | Debts lead down the tree from any waiting agent to one that is at work |
| `TeamCoordination.StepKeepsIff` | extensions/pi-grok-subagents/v2.ts:276-760 | Every step keeps the tree, the records and the handlers sound; every wait is covered after it if and only if it was disciplined |
| `TeamCoordination.SoundAlways` | extensions/pi-grok-subagents/v2.ts:276-760 | Tree, placement of records, deferred members and handlers are sound in every state of every run, disciplined or not |
| `TeamDeadlock.StalledForGood` | extensions/pi-grok-subagents/v2.ts:276-760 | Once nothing at or below a waiting agent runs, is queued, deferred or has a handler under way, it waits in every later state, whatever the rest of the team does, until somebody spawns, follows up or interrupts at or below it |
| `TeamDeadlock.DisciplinedNeverStalls` | extensions/pi-grok-subagents/v2.ts:276-760 | A disciplined run never reaches such a state |
| `TeamDeadlock.RestIsStall` | extensions/pi-grok-subagents/v2.ts:748-760 | Whoever waits while the team is at rest is in such a state |
| `TeamCoordination.RuntimeAlwaysRight` | extensions/pi-grok-subagents/runtime.ts:360-815 | In every run, disciplined or not, scheduler, log and notices agree |
| `TeamCoordination.SchedulerOverEveryRun` | extensions/pi-grok-subagents/runtime.ts:686-815 | The same spelled out: count, bound, full slots under a queue, log equal to live status, one notice per record with its final status |
| `TeamCoordination.TeamCoordinator.SpawnAgent` | extensions/pi-grok-subagents/v2.ts:404-468 | Makes the spawn transition, deferred start included |
| `TeamCoordination.TeamCoordinator.StartMember` | extensions/pi-grok-subagents/v2.ts:859-859 | Schedules a deferred member |
| `TeamCoordination.TeamCoordinator.RollBackMember` | extensions/pi-grok-subagents/v2.ts:470-476 | Removes a deferred member and discards its record |
| `TeamCoordination.TeamCoordinator.ReactivateAgent` | extensions/pi-grok-subagents/v2.ts:276-312 | Clears the report and schedules a new run of the same agent |
| `TeamCoordination.TeamCoordinator.HandleFinished` | extensions/pi-grok-subagents/v2.ts:314-402 | Delivers the result unless the report is quiet: reactivates the parent, queues behind its run, or hands it to the running parent; over runs: `ResultWakesOrWaits` |
| `TeamCoordination.TeamCoordinator.TakeNextFollowUp` | extensions/pi-grok-subagents/v2.ts:345-357 | A completed run takes its next follow-up; another drops them all |
| `TeamCoordination.TeamCoordinator.TeamReport` | extensions/pi-grok-subagents/v2.ts:748-760 | Records a report; waiting only with a pending child |
| `TeamCoordination.TeamCoordinator.TeamFollowUp` | extensions/pi-grok-subagents/v2.ts:606-644 | Promotes and queues behind a queued run, hands over to a running one, reactivates a finished one |
| `TeamCoordination.TeamCoordinator.TeamInterrupt` | extensions/pi-grok-subagents/v2.ts:717-727 | Cancels an unfinished run |
| `TeamInbox.StepInbox` | extensions/pi-grok-subagents/v2.ts:276-476 | What one event adds to an agent's inbox, and what it takes out, said from the event and the state of the agent |
| `TeamInbox.InboxInOrder` | extensions/pi-grok-subagents/v2.ts:345-402 | Over every run what has arrived in an agent's inbox is what has left it followed by what is still there; an entry leaves only as the first one after a completed run, or with all others after a run that did not complete |
| `TeamInbox.ResultWakesOrWaits` | extensions/pi-grok-subagents/v2.ts:333-402 | In every reachable state, a result that is not to be kept quiet starts a new run of a parent that can receive, in that step, and is in the inbox of a queued parent |
| `TeamInbox.QuietResultWakesNobody` | extensions/pi-grok-subagents/v2.ts:333-344 | A result that is to be kept quiet changes nobody's run and nobody's inbox |
| `TeamInbox.NextEntryResumes` | extensions/pi-grok-subagents/v2.ts:345-357 | After a completed run the first entry leaves and starts a run of the agent, unless it can no longer receive |
| `TeamInbox.FollowUpWakesOrWaits` | extensions/pi-grok-subagents/v2.ts:606-644 | A follow-up is in the inbox of a queued target, and starts a new run of one that can receive unless its signal has fired |
| `TeamOutcomes.RunEndIs` | extensions/pi-grok-subagents/runtime.ts:360-389 | A run that ends is cancelled if that was asked for and else completed or failed; its finish handler is under way and its slot still held |
| `TeamOutcomes.StatusAfterRun` | extensions/pi-grok-subagents/v2.ts:214-227 | The status in which the end of its run leaves an agent, by cancel, outcome and report |
| `TeamOutcomes.InterruptedIsCancelled` | extensions/pi-grok-subagents/v2.ts:717-727 | In every state after an interrupt of an unfinished run, that run has not ended or has ended as cancelled; a queued one ends at once |
| `TeamOutcomes.SignalledIsCancelled` | extensions/pi-grok-subagents/runtime.ts:351-355 | The same for a run whose signal fires, but a queued one does not end by it |
| `TeamOutcomes.ReportIs` | extensions/pi-grok-subagents/v2.ts:748-760 | The report of an agent is the last it was allowed to make, until it gets a new run or an aborted follow-up reaches it when it can receive |
| `TeamOutcomes.JoinIff` | extensions/pi-grok-subagents/v2.ts:404-468 | Who may join, what the new agent starts with, and that nobody else is touched |
| `TeamOutcomes.MemberStarts` | extensions/pi-grok-subagents/v2.ts:470-476 | A deferred member runs or is queued when told to start, unless its cancel was asked for; taken out, it is gone and its record is cancelled without a handler |
| `TeamStalls.StaleReportStalls` | extensions/pi-grok-subagents/v2.ts:287-290 | A run that ends with an agent waiting and the team at rest because the report outlived the result |
| `TeamStalls.QueuedAbortStalls` | extensions/pi-grok-subagents/runtime.ts:351-355 | The same because the signal of a queued record fired |
| `TeamStalls.AbortedFollowUpStalls` | extensions/pi-grok-subagents/v2.ts:284-312 | The same because a follow-up with an aborted signal cleared a report without waking the agent |
| `FileRollback.UndoInvertsCapture` | extensions/pi-grok-rollback/rollback.ts:29-156 | For any file system and any run whose edits do not interleave, a rollback without conflicts takes every path with a selected mutation back to its content before the first of them and changes no other path |
| `FileRollback.ApartIsInStep` | extensions/pi-grok-rollback/index.ts:108-137 | When each edit's write follows its own read, with no other edit, resume or change of that file in between, every edit is captured with the file's true content |
| `FileRollback.SlotIsLastRead` | extensions/pi-grok-rollback/index.ts:108-137 | The hidden slot holds what the last edit read of the run found |
| `FileRollback.PlanHasNoConflictIff` | extensions/pi-grok-rollback/rollback.ts:57-90 | A plan has no conflict if and only if every selected path holds what its last selected mutation left |
| `FileRollback.ExecuteRestores` | extensions/pi-grok-rollback/rollback.ts:117-156 | Executing a plan commits and restores every path; a path to delete whose unlink fails stays as it was |
| `FileRollback.RollbackRestores` | extensions/pi-grok-rollback/rollback.ts:110-156 | The command as a whole restores every selected path, refusing only when all are already restored |
| `FileRollback.CapturedRunsDoNotConflict` | extensions/pi-grok-rollback/journal.ts:64-112 | Runs in which every change was captured meet no conflict, unless a mutation outside the selection came last on a path |
| `FileRollback.RollbackRepeatsIff` | extensions/pi-grok-rollback/rollback.ts:40-52 | After a rollback, planning it again meets no conflict if and only if on every selected path the last mutation left what the first one found |
| `FileRollback.SelectionIsDescendantsIff` | extensions/pi-grok-rollback/rollback.ts:40-44 | The selection is the strict descendants of the target if and only if no mutation is bound to a strict ancestor |
| `FileRollback.AncestorMutationIsUndone` | extensions/pi-grok-rollback/rollback.ts:40-44 | A file created at an ancestor exists at the target and is removed by the rollback to it |
| `FileRollback.EditFaithfulIff` | extensions/pi-grok-rollback/index.ts:111-137 | A journalled edit is journalled with the file's true content if and only if the last read of the run was of its path and the file has not changed since, or the last read was not of its path and the file does not exist |
| `FileRollback.InterleavedEditsLoseAFile` | extensions/pi-grok-rollback/index.ts:108-135 | A second edit's read between the first one's read and write makes undo delete a file that was there all along |
| `FileRollback.BindKeepsMutations` | extensions/pi-grok-rollback/journal.ts:118-160 | Rewriting the journal keeps every mutation, in order, and only adds entry ids |
| `FileRollback.BindLosesAppendedIff` | extensions/pi-grok-rollback/journal.ts:118-156 | A binding keeps every mutation journalled by the time it rewrites if and only if none was appended after its second read, or its first read holds nothing to bind |
| `FileRollback.RewriteHolds` | extensions/pi-grok-rollback/journal.ts:145-156 | A rewrite holds the mutations of the second read in order, those of the first read bound; what came between the reads is kept unbound |
| `FileRollback.BindAtOnce` | extensions/pi-grok-rollback/journal.ts:118-156 | With nothing in between it is the binding in one step |
| `FileRollback.BindLosesAWrite` | extensions/pi-grok-rollback/journal.ts:145-156 | A run: a write is journalled, the binding reads, a second write is journalled, and the rewrite drops it |
| `FileRollback.BlobRefRoundTrip` | extensions/pi-grok-rollback/store.ts:29-38 | A blob reference parses to its hash and is never the word for absent |
| `FileRollback.StepKeeps` | extensions/pi-grok-rollback/journal.ts:64-160 | Every step keeps: blobs are stored under their hash, the journal refers to stored blobs, sequence numbers grow, and each mutation's before is what the file held |
| `FileRollback.RollbackExtension.StoreBlob` | extensions/pi-grok-rollback/store.ts:62-79 | Stores under the hash, once, within the size limit |
| `FileRollback.RollbackExtension.CaptureMutation` | extensions/pi-grok-rollback/journal.ts:64-112 | Makes the capture transition with its symlink, size and no-change exits |
| `FileRollback.RollbackExtension.WriteFile` | extensions/pi-grok-rollback/index.ts:77-96 | Writes and captures |
| `FileRollback.RollbackExtension.EditReadFile` | extensions/pi-grok-rollback/index.ts:114-120 | Reads and fills the slot |
| `FileRollback.RollbackExtension.EditWriteFile` | extensions/pi-grok-rollback/index.ts:121-135 | Writes, captures with the slot and empties it |
| `FileRollback.RollbackExtension.ResumeJournal` | extensions/pi-grok-rollback/journal.ts:40-46 | The sequence goes on from the largest number journalled |
| `FileRollback.RollbackExtension.BindTreeEntries` | extensions/pi-grok-rollback/journal.ts:118-160 | Makes the bind transition when nothing comes between its reads and its rewrite; mutation by mutation: `BindGivesEntries` |
| `FileRollback.RollbackExtension.RewriteBound` | extensions/pi-grok-rollback/journal.ts:124-156 | The rest of a binding, given its two reads, makes that transition; mutation by mutation: `BindGivesEntries` |
| `FileRollback.RollbackExtension.SelectAfterTarget` | extensions/pi-grok-rollback/rollback.ts:41-44 | The filter loop computes the selection |
| `FileRollback.RollbackExtension.Group` | extensions/pi-grok-rollback/rollback.ts:46-52 | The loop finds first and last mutation of each path, in order of first appearance |
| `FileRollback.RollbackExtension.ComputeRollbackPlan` | extensions/pi-grok-rollback/rollback.ts:29-115 | Computes the plan |
| `FileRollback.RollbackExtension.ExecuteRollback` | extensions/pi-grok-rollback/rollback.ts:117-156 | Performs the plan and journals the transaction, failed when a blob is missing |
| `RollbackEvents.UndoOverEvents` | extensions/pi-grok-rollback/rollback.ts:29-156 | From the events: after any run whose edits do not interleave, a rollback takes each path back to what it held before its first write or edit whose call was bound to an entry of the branch other than the target, if every such path still holds what the last one left; it changes no other path, and nothing in every other case |
| `RollbackEvents.PlanOverEvents` | extensions/pi-grok-rollback/rollback.ts:54-136 | Which paths the plan reports as conflicts, which it restores or deletes, when it may be carried out, and that the transaction recorded names exactly the paths changed, each once |
| `RollbackEvents.JournalIsChanges` | extensions/pi-grok-rollback/journal.ts:64-160 | The journal holds exactly the changes the events add up to: call, path, content before and after, entry |
| `RollbackEvents.BindGivesEntries` | extensions/pi-grok-rollback/journal.ts:136-142 | Mutation by mutation: after a binding, one without an entry whose call has a non-empty result carries exactly that id, and every other keeps its own |
| `RollbackEvents.FilesFollowEvents` | extensions/pi-grok-rollback/index.ts:77-137 | The tools and other programs change exactly the file they name |
| `TomlText.ValueRoundTrip` | extensions/pi-grok-web-config/config-store.ts:386-403 | Every boolean, finite number and string reads back as itself from what is written for it |
| `TomlText.SerializedShape` | extensions/pi-grok-web-config/config-store.ts:356-403 | What is written is one line, balanced, free of comments, and holds a line terminator exactly when the string holds U+2028 or U+2029 |
| `TomlText.AssignmentReads` | extensions/pi-grok-web-config/config-store.ts:421-432 | A written assignment is no header and reads as its key and text, unless the text holds a line terminator |
| `TomlText.FinalNewline` | extensions/pi-grok-web-config/config-store.ts:481-481 | The final replacement drops exactly the trailing blank lines and ends the last line |
| `TomlText.BracketsBalanced` | extensions/pi-grok-web-config/config-store.ts:356-372 | The loop decides bracket balance outside strings; with strings defined on their own: `BalancedIff` |
| `TomlText.StripTomlComment` | extensions/pi-grok-web-config/config-store.ts:374-385 | The loop cuts at the first number sign outside quotes; with quoting defined on its own: `StripsTheComment` |
| `TomlGrammar.StripsTheComment` | extensions/pi-grok-web-config/config-store.ts:374-385 | A line made of plain characters and strings in double or single quotes, with a comment, with an open string or with nothing behind, is stripped to what stands before the comment |
| `TomlGrammar.EveryLineHasPieces` | extensions/pi-grok-web-config/config-store.ts:374-385 | Every line is made up in that way |
| `TomlGrammar.BalancedIff` | extensions/pi-grok-web-config/config-store.ts:356-372 | A text is balanced if and only if outside strings no more brackets are opened than closed and no string is left open |
| `TomlGrammar.EveryValueHasPieces` | extensions/pi-grok-web-config/config-store.ts:356-372 | Every text is made up of the pieces this speaks of |
| `TomlGrammar.CommentedValueReads` | extensions/pi-grok-web-config/config-store.ts:386-398 | A value on one line that ends outside quotes reads the same with a comment behind it |
| `TomlGrammar.LiteralReads` | extensions/pi-grok-web-config/config-store.ts:386-398 | A value in single quotes reads as what stands between them |
| `TomlGrammar.QuoteDecodes` | extensions/pi-grok-web-config/config-store.ts:400-403 | A written string is a string literal of section 7 of RFC 8259 and decodes to the string |
| `TomlGrammar.TrimIs` | extensions/pi-grok-web-config/config-store.ts:386-398 | Trimming takes away exactly the white space around a text |
| `TomlGrammar.HeaderReads` | extensions/pi-grok-web-config/config-store.ts:421-426 | A line of the form of a header reads as its name |
| `TomlGrammar.HeaderHasParts` | extensions/pi-grok-web-config/config-store.ts:421-426 | And nothing else is a header |
| `TomlGrammar.PairReads` | extensions/pi-grok-web-config/config-store.ts:431-433 | A line of the form of an assignment reads as its key and text |
| `TomlGrammar.PairHasParts` | extensions/pi-grok-web-config/config-store.ts:431-433 | And nothing else is an assignment |
| `UiTable.UpdateOverlaysIff` | extensions/pi-grok-web-config/config-store.ts:455-482 | For balanced text whose splice is not shifted, reading the edited text gives the old table overlaid by the updates if and only if no updated string holds a line separator and no other key with an inherited name would change; sub-tables are unchanged |
| `UiTable.UpdateIsOverlaid` | extensions/pi-grok-web-config/config-store.ts:455-482 | What every key of the table reads as after the edit, expressible or not |
| `UiTable.SaveOverlaysIff` | extensions/pi-grok-web-config/config-store.ts:554-563 | The same with the editor's own line patterns and value reader |
| `UiTable.UpdateKeepsTheRest` | extensions/pi-grok-web-config/config-store.ts:451-482 | All other lines keep content and order, up to trailing blank lines and the header of a new table |
| `UiTable.SplicesAsIntendedIff` | extensions/pi-grok-web-config/config-store.ts:456-480 | The splice by line numbers yields the intended file if and only if no rewritten multi-line assignment stands above the insertion point while keys are added and a header follows |
| `UiTable.ShiftLosesKeys` | extensions/pi-grok-web-config/config-store.ts:469-475 | In the shifted case, when no later section belongs to the table, every new key is lost |
| `UiTable.ShiftedExampleLosesKey` | extensions/pi-grok-web-config/config-store.ts:469-475 | A concrete text and two valid updates, with the editor's own patterns and reader, after which the new key is not in the table |
| `UiTable.SeparatorExampleLosesKey` | extensions/pi-grok-web-config/config-store.ts:386-403 | A concrete text and a valid update with a line separator, after which the key is not in the table read back |
| `UiTable.InheritedExampleIsOverwritten` | extensions/pi-grok-web-config/config-store.ts:460-468 | A concrete text with the key toString and a valid update of another key, after which toString reads as undefined |
| `UiTable.WellCutScans` | extensions/pi-grok-web-config/config-store.ts:405-449 | A list of chunks that fit their sections is what scanning its lines gives |
| `UiTable.OutIsRewriteAll` | extensions/pi-grok-web-config/config-store.ts:460-468 | The pass driven by recorded line ranges rewrites assignment by assignment |
| `UiTable.ReadValue` | extensions/pi-grok-web-config/config-store.ts:433-438 | The loop takes lines until the value is balanced or the text ends |
| `UiTable.ParseUiTable` | extensions/pi-grok-web-config/config-store.ts:405-449 | The scan loop yields tables, entries, header line and section end of the chunks of the text |
| `UiTable.UpdateUiTable` | extensions/pi-grok-web-config/config-store.ts:455-482 | The editor computes the update |
| `UiTable.SaveHostUi` | extensions/pi-grok-web-config/config-store.ts:554-563 | Saves if and only if every key and value passes the checks, and names an offender otherwise |
| `UiDocument.DocumentReads` | extensions/pi-grok-web-config/config-store.ts:405-449 | A document of sections with assignments of scalars, with or without balanced comments, reads as the table of the values assigned in its `[ui]` sections, the last of a key counting, and so for each sub-table |
| `UiDocument.CommentSwallowsIff` | extensions/pi-grok-web-config/config-store.ts:431-438 | An assignment of a scalar with a comment takes its own line alone if and only if brackets and double quotes of the comment are balanced as those of a value |
| `UiDocument.CommentBracketSwallows` | extensions/pi-grok-web-config/config-store.ts:433-438 | A text in which a bracket in a comment makes a value take the next line, so that its key is not read |
| `UiDocument.EndOfFirstSection` | extensions/pi-grok-web-config/config-store.ts:421-428 | The section end is the next header behind the first `[ui]` header, or the end of the file |
| `UiDocument.NewTableGoesLast` | extensions/pi-grok-web-config/config-store.ts:470-480 | A file without a `[ui]` section keeps its lines, and the header and all assignments in order go behind them, after a blank line unless there is one |
| `JsonComments.StripIsIdempotent` | extensions/pi-grok-web-config/config-store.ts:48-85 | Stripping twice is stripping once, on every text |
| `JsonComments.LeftAloneIff` | extensions/pi-grok-web-config/config-store.ts:48-85 | A text is left alone if and only if no comment opens outside a string |
| `JsonComments.StripIsCommentFree` | extensions/pi-grok-web-config/config-store.ts:70-82 | Removing comments never creates one |
| `JsonComments.StripKeepsLiterals` | extensions/pi-grok-web-config/config-store.ts:55-69 | String literals outside comments are copied verbatim |
| `JsonComments.StripJsonComments` | extensions/pi-grok-web-config/config-store.ts:48-85 | The index loop computes the stripped text |
| `JsonGrammar.StripsTheComments` | extensions/pi-grok-web-config/config-store.ts:48-85 | A text made of characters, strings and comments is stripped to the characters and strings, with a newline for each line comment |
| `JsonGrammar.EveryTextHasPieces` | extensions/pi-grok-web-config/config-store.ts:48-85 | Every text is made up in that way |
| `OAuthGrants.GrantsAreLinear` | extensions/pi-grok-bash/mcpeval-oauth.ts:183-291 | Over every run of requests, finished writes and restarts, each grant in memory and on disk is one unredeemed code or a chain with at most one refresh token, within the scopes authorized |
| `OAuthGrants.RedeemedAtMostOnce` | extensions/pi-grok-bash/mcpeval-oauth.ts:212-234 | No code and no refresh token is redeemed twice, even when a restart brings back a state whose writes were lost |
| `OAuthGrants.RedeemedIsRefused` | extensions/pi-grok-bash/mcpeval-oauth.ts:212-234 | What was redeemed is refused in every later state |
| `OAuthGrants.RestartIsInvisible` | extensions/pi-grok-bash/mcpeval-oauth.ts:112-144 | Once all writes have finished, a provider that reads its state back at any later time answers every list of later requests exactly as the one never restarted, although expired entries were dropped |
| `OAuthGrants.AnswersAlike` | extensions/pi-grok-bash/mcpeval-oauth.ts:146-251 | Two stores that agree on what has not expired answer every request alike and go on agreeing |
| `OAuthGrants.RenewNarrows` | extensions/pi-grok-bash/mcpeval-oauth.ts:225-235 | A refresh issues only scopes the token held and the server offers |
| `OAuthGrants.LostWriteIsNotAnswered` | extensions/pi-grok-bash/mcpeval-oauth.ts:126-144 | A restart answers no waiting request, and a code still on disk has not been redeemed |
| `OAuthGrants.StepKeeps` | extensions/pi-grok-bash/mcpeval-oauth.ts:112-291 | Every event keeps linearity of all stores, single redemption and the agreement of memory with the last write |
| `OAuthGrants.Provider.constructor` | extensions/pi-grok-bash/mcpeval-oauth.ts:112-125 | Loading keeps clients and what has not expired |
| `OAuthGrants.Provider.RegisterClient` | extensions/pi-grok-bash/mcpeval-oauth.ts:157-181 | Makes the register transition: one to eight distinct acceptable redirect URIs |
| `OAuthGrants.Provider.AuthorizeClient` | extensions/pi-grok-bash/mcpeval-oauth.ts:183-203 | Makes the authorize transition |
| `OAuthGrants.Provider.ExchangeAuthorizationCode` | extensions/pi-grok-bash/mcpeval-oauth.ts:212-222 | Makes the redeem transition with its refusals; over runs: `RedeemIff` |
| `OAuthGrants.Provider.ExchangeRefreshToken` | extensions/pi-grok-bash/mcpeval-oauth.ts:224-233 | Makes the renew transition with its refusals; over runs: `RenewIff` |
| `OAuthGrants.Provider.VerifyAccessToken` | extensions/pi-grok-bash/mcpeval-oauth.ts:235-245 | Answers as the verify request |
| `OAuthGrants.Provider.RevokeToken` | extensions/pi-grok-bash/mcpeval-oauth.ts:247-251 | Makes the revoke transition |
| `OAuthGrants.Provider.Issue` | extensions/pi-grok-bash/mcpeval-oauth.ts:280-291 | Adds one access and one refresh token |
| `OAuthHistory.AlwaysMatch` | extensions/pi-grok-bash/mcpeval-oauth.ts:112-144 | In every run memory, state file and writes under way hold, but for what has expired, what the answers that a restart has not lost add up to |
| `OAuthHistory.RedeemIff` | extensions/pi-grok-bash/mcpeval-oauth.ts:212-222 | From the answers: a code is redeemed if and only if an authorization of that client gave it less than five minutes ago, it has not been redeemed since, the digest of the verifier is that authorization's challenge, and a redirect URI given is the authorized one; what is issued is what was granted |
| `OAuthHistory.RenewIff` | extensions/pi-grok-bash/mcpeval-oauth.ts:224-233 | A refresh token is exchanged if and only if it was given as one to that client less than thirty days ago and has been neither exchanged nor revoked since; scopes are narrowed as asked |
| `OAuthHistory.VerifyIff` | extensions/pi-grok-bash/mcpeval-oauth.ts:235-251 | An access token is accepted if and only if it was given as one, has not expired and has not been revoked; what is told of it is what it was given for |
| `OAuthHistory.AuthorizeIff` | extensions/pi-grok-bash/mcpeval-oauth.ts:183-203 | An authorization is answered with its code if and only if the redirect URI is one of the client's and there is a challenge |
| `OAuthHistory.ChallengeIff` | extensions/pi-grok-bash/mcpeval-oauth.ts:205-210 | The challenge of a code is told as long as the code could be redeemed, and is the one of its authorization |
| `OAuthHistory.ClientIff` | extensions/pi-grok-bash/mcpeval-oauth.ts:146-155 | A client is found as it was registered, without its secret once that has expired |
| `OAuthHistory.RegisterIff` | extensions/pi-grok-bash/mcpeval-oauth.ts:157-181 | A client is registered if and only if it names one to eight different redirect URIs, all acceptable |
| `EventQueues.CounterIsExact` | extensions/pi-grok-bash/mcpeval-daemon.ts:172-221 | After every run the counter is the sum of the queue lengths and at most 256, each queue holds at most 64, and every subscription's binding is registered |
| `EventQueues.DeliveryIsFaithful` | extensions/pi-grok-bash/mcpeval-daemon.ts:187-221 | A subscription no overflow touched has been handed and has queued exactly the matching accepted events in order; any other a subsequence of them, with a notice unless a loss was silent |
| `EventQueues.NoRepeatInWindow` | extensions/pi-grok-bash/mcpeval-daemon.ts:196-199 | Two equal event keys are accepted only more than 4096 acceptances apart |
| `EventQueues.SilentLossIff` | extensions/pi-grok-bash/mcpeval-daemon.ts:187-221 | In terms of the state before a publish: some subscription that wants the event ends with neither it nor a notice if and only if the turn of one with room in its own queue meets the global bound and another queue gives way, or its own gave way and a later turn meets the bound again |
| `EventQueues.SilentLossIsReachable` | extensions/pi-grok-bash/mcpeval-daemon.ts:187-221 | A run from the start after which one more publish does so |
| `EventQueues.GlobalOverflowHitsAnother` | extensions/pi-grok-bash/mcpeval-daemon.ts:208-217 | Then its queue is unchanged and the first non-empty queue is replaced by a notice |
| `EventQueues.CloseEmpties` | extensions/pi-grok-bash/mcpeval-daemon.ts:404-409 | Failing all registrations leaves nothing to clear, so the counter ends at zero |
| `EventQueues.StepKeeps` | extensions/pi-grok-bash/mcpeval-daemon.ts:172-221 | Every event keeps the accounts, the delivery notes and the window |
| `EventQueues.EventDaemon.PublishEvent` | extensions/pi-grok-bash/mcpeval-daemon.ts:187-221 | Makes the publish transition with its loop over subscriptions |
| `EventQueues.EventDaemon.OfferTo` | extensions/pi-grok-bash/mcpeval-daemon.ts:200-220 | Offers one event to one subscription |
| `EventQueues.EventDaemon.ClearFirst` | extensions/pi-grok-bash/mcpeval-daemon.ts:208-217 | Finds and collapses the first non-empty queue |
| `EventQueues.EventDaemon.EventsSubscribe` | extensions/pi-grok-bash/mcpeval-mcp-facade.ts:56-61 | Subscribes only to a registered binding |
| `EventQueues.EventDaemon.EventsPoll` | extensions/pi-grok-bash/mcpeval-mcp-facade.ts:62-69 | Hands over the front of the queue and lowers the counter by as much |
| `EventQueues.EventDaemon.EventsUnsubscribe` | extensions/pi-grok-bash/mcpeval-mcp-facade.ts:70-74 | Removes the subscription and its share of the counter |
| `EventQueues.EventDaemon.FailRegistration` | extensions/pi-grok-bash/mcpeval-daemon.ts:172-185 | Removes the binding, its subscriptions and their share of the counter |
| `EventLog.LogIsKept` | extensions/pi-grok-bash/mcpeval-daemon.ts:187-221 | Over every run, what is due to a subscription is the accepted events it asks for since it was made, read off from the list of publications |
| `EventLog.UntouchedGetsAll` | extensions/pi-grok-bash/mcpeval-daemon.ts:187-221 | A subscription no overflow has touched has been handed and has queued exactly those, in order |
| `EventLog.PublishReaches` | extensions/pi-grok-bash/mcpeval-daemon.ts:187-221 | While the global bound is out of reach, who asks for an event gets it at the end of the queue, or a notice in place of a full one, and every other queue stays as it is |
| `EventLog.OffersDoNotHit` | extensions/pi-grok-bash/mcpeval-daemon.ts:200-221 | A publication that finds no full queue among those that ask for it, and the global bound out of reach, touches no subscription |
| `EventLog.PollHands` | extensions/pi-grok-bash/mcpeval-mcp-facade.ts:62-69 | A poll hands over the oldest items, as many as asked for, or 64, and keeps the rest |
| `EventLog.WantsIff` | extensions/pi-grok-bash/mcpeval-events.ts:17-24 | Which events a subscription asks for |
| `RequestProtocol.PendingIsUnsettled` | extensions/pi-grok-bash/mcpeval-daemon.ts:229-258 | In every run a request is pending exactly while its promise is not settled, and none is once the registration is gone |
| `RequestProtocol.SettledForGood` | extensions/pi-grok-bash/mcpeval-daemon.ts:229-258 | A settlement never changes under any later race of response, timeout, abort and disconnect |
| `RequestProtocol.ResolvedByOwnReply` | extensions/pi-grok-bash/mcpeval-client.ts:50-78 | A request resolves only with what Pi replied to that very request, on which it worked once |
| `RequestProtocol.CancelFindsTheHandler` | extensions/pi-grok-bash/mcpeval-client.ts:50-57 | When Pi has read a cancellation, a handler still at work is aborted and one not yet begun never begins |
| `RequestProtocol.StepKeeps` | extensions/pi-grok-bash/mcpeval-daemon.ts:172-178 | Every event keeps promises, frames under way, work in progress and replies consistent |
| `RequestProtocol.Registration.InvokeMethod` | extensions/pi-grok-bash/mcpeval-daemon.ts:229-258 | Makes the request transition: refused, aborted beforehand, too large, or sent |
| `RequestProtocol.Registration.OnTimeout` | extensions/pi-grok-bash/mcpeval-daemon.ts:233-236 | A timeout settles a pending request |
| `RequestProtocol.Registration.OnAbort` | extensions/pi-grok-bash/mcpeval-daemon.ts:238-243 | An abort settles a pending request and sends a cancellation, even after a response |
| `RequestProtocol.Registration.OnResponse` | extensions/pi-grok-bash/mcpeval-daemon.ts:335-342 | A response settles the pending request of its id and is ignored otherwise |
| `RequestProtocol.Registration.FailRegistration` | extensions/pi-grok-bash/mcpeval-daemon.ts:172-178 | A disconnect rejects every pending request |
| `RequestFates.RequestBegins` | extensions/pi-grok-bash/mcpeval-daemon.ts:229-258 | What a request begins as: refused, aborted, too large, or pending with its frame sent |
| `RequestFates.RequestFate` | extensions/pi-grok-bash/mcpeval-daemon.ts:229-258 | A pending request stays pending until the first of its timeout, its signal, the reading of its response and the disconnect, and is settled as that one says |
| `RequestFates.ListensUntilAbort` | extensions/pi-grok-bash/mcpeval-daemon.ts:238-243 | A signal that has not fired is listened to until it fires, also after a response |
| `RequestFates.SocketInOrder` | extensions/pi-grok-bash/mcpeval-daemon.ts:335-342 | Until the disconnect, what was sent to Pi is what Pi has read followed by what is on its way, and so for the responses |
| `RequestFates.PiServes` | extensions/pi-grok-bash/mcpeval-client.ts:50-81 | Pi begins an invocation it reads, a cancellation aborts the work it finds and a disconnect all work; work goes on until Pi finishes it |
| `KeyReader.PollingRefinesOnePass` | extensions/pi-grok-remote-tui/transport.ts:60-136 | Over any interleaving of appends and polls with reads of any length, unless a poll has a message behind a null and provided that hovering leaves no trace in the host, moves aside the dispatches are those of one pass over the complete lines read, in order and up to the close |
| `KeyReader.PollingRefinesWithoutNull` | extensions/pi-grok-remote-tui/transport.ts:60-136 | In particular when no complete line read is a null |
| `KeyReader.PollingMergesOnlyMoves` | extensions/pi-grok-remote-tui/transport.ts:99-121 | Whatever the lines hold and whenever the file is recreated, what is dispatched is the messages no null cut off without some moves, each replaced by a later one of its burst, and never merges more than one pass would; without recreation the messages are those of the file |
| `KeyReader.ClosedIsSilent` | extensions/pi-grok-remote-tui/transport.ts:61-61 | After the close no event changes the reader |
| `KeyReader.StepKeeps` | extensions/pi-grok-remote-tui/transport.ts:60-136 | Step fact of the results above: the lines taken are exactly the complete lines read, the buffer exactly the rest |
| `KeyReader.NullEndsThePoll` | extensions/pi-grok-remote-tui/transport.ts:99-105 | A null message ends the poll: what follows it in the poll is not dispatched |
| `KeyReader.NullLosesIff` | extensions/pi-grok-remote-tui/transport.ts:89-105 | A run, recreations included, keeps every message of the lines taken if and only if no poll holds a message behind a null |
| `KeyReader.NullRunLosesInput` | extensions/pi-grok-remote-tui/transport.ts:89-132 | Two lines, a null and a message for the host: read by one poll the message is lost, read by two it is dispatched |
| `KeyReader.RecreatedIsNoticedWhenShorter` | extensions/pi-grok-remote-tui/transport.ts:68-74 | Step fact of `RecreatedIsReadIff`: a recreated file is read from its start when it is shorter than the offset; otherwise its first bytes are skipped |
| `KeyReader.RecreatedIsReadIff` | extensions/pi-grok-remote-tui/transport.ts:68-88 | After any run, with the reader at offset k and a buffer kept back, the lines taken from a recreated file are exactly its complete lines if and only if the first poll finds it shorter than k or it begins with the k bytes of the buffer |
| `KeyReader.BufferIsOldIff` | extensions/pi-grok-remote-tui/transport.ts:68-88 | For the first recreation the second case means that the k bytes read were one unfinished line with which the new file begins as well |
| `KeyReader.RecreatedMessages` | extensions/pi-grok-remote-tui/transport.ts:60-98 | Then the messages parsed from then on are those of the new file |
| `KeyReader.RecreatedRunSkipsALine` | extensions/pi-grok-remote-tui/transport.ts:68-88 | A run: a line was read, the file is recreated with two lines, the first as long as that one, and the next poll takes only the second |
| `KeyReader.SmallerBatchesMergeLess` | extensions/pi-grok-remote-tui/transport.ts:102-121 | Two polls dispatch everything one poll of both would |
| `KeyReader.KeyHost.DrainKeys` | extensions/pi-grok-remote-tui/transport.ts:60-136 | One poll makes the drain transition |
| `KeyReader.KeyHost.LastOfBurst` | extensions/pi-grok-remote-tui/transport.ts:105-121 | The inner loop stops at the last move of a burst |
| `KeyReader.KeyHost.DispatchMessages` | extensions/pi-grok-remote-tui/transport.ts:99-132 | The outer loop dispatches the surviving messages until the host closes |
| `KeyReader.KeyHost.AfterLastNewline` | extensions/pi-grok-remote-tui/transport.ts:86-88 | Finds the end of the last complete line |
| `KeyReader.KeyHost.ParseLines` | extensions/pi-grok-remote-tui/transport.ts:89-98 | Parses every complete line, skipping what is no message |
| `KeyMessages.DispatchIff` | extensions/pi-grok-remote-tui/transport.ts:121-131 | Which messages lead to a cancellation, an input or a pointer event: those for this host, of a known kind |
| `KeyMessages.HostClosesIff` | extensions/pi-grok-remote-tui/transport.ts:98-132 | Over every run, the host has closed if and only if a message heard cancels it or leads to something it answers by closing; it has been handed what the messages up to the first such one call for, and nothing behind it |
| `KeyMessages.MergesIff` | extensions/pi-grok-remote-tui/transport.ts:104-120 | Which neighbours merge: pointer moves with the same id |
| `KeyMessages.BurstLeavesLast` | extensions/pi-grok-remote-tui/transport.ts:104-120 | Of a burst only the last message is left |
| `KeyMessages.MergedApart` | extensions/pi-grok-remote-tui/transport.ts:104-120 | Where two neighbours do not merge, the messages before and behind are merged apart |
| `ShortIds.ShortIdRoundTrip` | extensions/pi-grok-subagents/bridge.ts:246-282 | The short form of any member resolves to that member |
| `ShortIds.ShortIdIsShortest` | extensions/pi-grok-subagents/bridge.ts:273-282 | No shorter prefix of it resolves to that member |
| `ShortIds.ResolveIff` | extensions/pi-grok-subagents/bridge.ts:246-256 | What a lookup among different ids says: the id itself, the only one with a prefix of at least eight characters, several, none, or too short |
| `ShortIds.ShortSubagentId` | extensions/pi-grok-subagents/bridge.ts:274-282 | The loop over lengths computes the short form |

## Left out

- SHA-256, random ids and tokens: assumed free of collisions and fresh; JSON.parse and String(n) are parameters assumed to undo the serializer.
- File-system failures, permissions, concurrent rewriting of journal or state by another process, and the daemon's lock and stale-lock startup.
- Text of messages, prompts and results, buffered team messages and their flush, `team_wait` waiters, activity versions and path syntax: they carry no state the properties need. Members of a team preset whose start is deferred are taken not to run tools before they start.
- Failed log writes of the subagent runtime: a record's status is taken to be written.
- The walk that collects the ids of the active branch; the branch is a parameter of a rollback.
- `UiTable.UpdateOverlaysIff`: asks for balanced text, because an unbalanced last value swallows what is appended; the key `__proto__` is not modelled.
- `UiTable.ParseUiTable`: decides balance by a parameter of the host, which for the editor is the balance that `BracketsBalanced` computes.
- `OAuthGrants.RestartIsInvisible`: a request handled while the state file is still being read sees an empty store, because loading is marked done before the read ends; the model starts a provider when the read has ended. The clock is read once per request and the snapshot for a write is taken in the request's step.
- `OAuthHistory.RedeemIff`, `OAuthHistory.RenewIff`, `OAuthHistory.VerifyIff`: speak of the answers the provider still knows of; one that a restart lost before it was written counts as never given.
- HTTP handling, metadata documents and client authentication of the authorization server.
- `EventQueues.NoRepeatInWindow`: a key is the pair of binding and event id; that joining them with a colon is injective follows from the fixed form of binding ids and is not modelled.
- The frame cap of the socket protocol, which the receiver tests on its whole buffer; a frame too large to write is a parameter of the request.
- `KeyReader.PollingRefinesOnePass`: assumes that hovering leaves no trace in the host, as the source's own comment does: a pointer move does not close it, and whether something else does is the same with the moves left out. Exceptions thrown by handlers and a host closed from elsewhere between polls are not modelled.
- Output of a replaced child reaching the next cell's output or protocol buffer, output truncation and images of the evaluation kernel.
- Bash tasks: output and its truncation, the status line of the terminal, the list sent to the pager, answers of `kill_task` for unknown ids, and messages whose sending throws (they are swallowed). Task objects are values in a sequence, so aliasing is not captured.
- `FileRollback.RollbackExtension.WriteFile`, `FileRollback.RollbackExtension.EditWriteFile`, `FileRollback.RollbackExtension.ExecuteRollback`: one step each although the source awaits inside them, so a change between the write and its capture is not seen.
- `FileRollback.RollbackExtension.BindTreeEntries`: one step in the runs of the other results; its awaits are the subject of `BindLosesAppendedIff`, which takes the journal to be only appended to in between, so two bindings at once are not modelled.
- `TeamCoordination.TeamCoordinator.SpawnAgent`: one step although the source awaits the creation of the session inside it; the path reserved meanwhile is folded into it.
- `OAuthGrants.Provider.RegisterClient`: redirect URIs are taken as already normalised, and client metadata is not kept.
- Sub-tables of `[ui]` whose own name every object inherits.
- Image caches, dashboards, menus, the web server, embedded worker programs, and the goal, loop, plan-mode, todo, recap and shortcut extensions: plumbing or finite tables.
