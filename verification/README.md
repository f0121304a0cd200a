# ctswarm, verified

ctswarm runs coding builds on a swarm of command-line agents. Its state lives in an append-only event log and a few
small state machines: a durable build queue, a loop that monitors each build, a circuit breaker per model, a holdout per
subscription, a router with failover, a scoped local build, a review committee, and an operator policy over roles. This
project models those parts and proves what holds of them over every run, every history and every input.

Run `dafny verify dfyconfig.toml` to check all of it.

## How the model is laid out

| file | part of ctswarm |
|---|---|
| `EventLog.dfy`, `Common.dfy`, `Failures.dfy` | the log, its events and its order; the failure taxonomy |
| `Ledger.dfy` | the ledger object and the circuit breaker against the closed form of its history |
| `Progress.dfy` | the projection of a JSON response that ignores heartbeats |
| `Builds.dfy` | control signals, the build record, replay from the log, the monitoring loop and its watchdog |
| `BuildTask.dfy` | the coroutine of one build as a state machine whose steps are the stretches between awaits |
| `Refinement.dfy` | the coroutine run without interruption is the loop |
| `Scheduler.dfy` | the queue read off the log, one scheduling pass, and the scheduler object |
| `LogLaws.dfy`, `Readings.dfy` | what may be appended when; which readings of the log depend on which stamps |
| `TaskLaws.dfy`, `Outcomes.dfy`, `QueueLaws.dfy` | shape and soundness of every stretch; what each answer leaves of a build; a pass in closed form |
| `Fleet.dfy` | the whole system: queueing, passes, answers, cancellations, signals, foreign events, restarts |
| `Runs.dfy`, `Recovery.dfy`, `OwnerStop.dfy`, `Watchdog.dfy`, `Endings.dfy`, `Completion.dfy`, `ClockSetBack.dfy` | theorems over whole runs: finality and order, recovery, what an owner's stop is worth, the watchdog, how builds end and are shown, failing closed; two runs that lose a stop and an execution |
| `Capacity.dfy` | holding a subscription out, and choosing a runtime |
| `Committee.dfy` | votes, families, scanners and the decision |
| `RouterPolicy.dfy`, `Dispatch.dfy` | gates, tier descent, fallback chains; failover of answers and streams |
| `Scoped.dfy`, `ScopedMetering.dfy` | the scoped build pipeline; the build object and its metering in the ledger |
| `RoutingPolicy.dfy` | normalizing the operator's policy and overlaying it on the role maps |

Objects that the source updates in place are classes here (`Ledger`, `BuildRecord`, `BuildScheduler`,
`CapacityManager`, `CommitteeResult`, `Gateway`, `ScopedBuild`), and its loops are loops; each method is proved equal to
a function of the old state, and the laws are proved about those functions. HTTP answers, harness output, git, scanners,
clocks and the host's settings are inputs, arbitrary ones. A step of the whole system carries the time the clock shows,
and nothing says that the clock goes forward; the log is written in one order and read in that of its stamps. What needs
stamps in order says which: order of service those of the queue items, recovery those of the build's own starts and
retries.

## What turned out not to hold

Where the code does not do what it is meant to, the model keeps the code and the project proves exactly when it does.

- A clock that is set back can lose an owner's stop, because the signal with the latest stamp counts
  (`ClockSetBack.StopCanBeLost`); a signal takes effect iff none of the build carries a later stamp (`Readings.SignalEffect`,
  `OwnerStop.StopInForce`).
- It can also lose an execution that is running, so that a restart submits the build again
  (`ClockSetBack.ExecutionCanBeLost`); a restart goes on with an execution iff its start carries the latest stamp among the
  build's starts and retries (`Recovery.ResumesExecutionIff`).
- A stop is withdrawn by any later pause, not only by a resume, because only the newest signal counts
  (`Builds.StoppedIffNewestSignalIsStop`, `OwnerStop.LaterSignalWithdrawsStop`).
- Whether a stretch submits does not depend on the control signal: a build that is stopped or paused between its
  dispatch and its first stretch, or during the delay before a retry, is still submitted (`Recovery.SubmitsIff`). A build
  paused in the queue is dispatched like any other (`OwnerStop.SparedIsDispatched`).
- A submission is not at most once: a crash while it is under way leaves nothing outstanding in the log, and the revived
  scheduler submits again (`Recovery.CrashRecovery`).
- The circuit breaker follows its history only up to 1024 trips; the next one raises an overflow that rolls the update
  back, and the model is no longer held out (`LedgerModel.BreakerExactIff`, `LedgerModel.JammedIsNeverOpen`,
  `LedgerModel.BreakerJamsAt3075`). The same
  exception ends the request or the scoped build whose call could not be recorded (`LedgerModel.RaisesIff`,
  `Dispatch.Gateway.Complete`, `Metering.ScopedBuild.RunBuild`), although the documentation of an invocation says that it
  never raises and always writes a usage record (ctswarm/scoped.py:465-471).
- The watchdog catches silence only. A poll that fails with an error status is read as an empty body, which counts as
  news, so a flapping control plane keeps a dead execution alive (`Builds.ErrorPagesFeedWatchdog`); and a pause longer
  than the limit fails the build on resume (`Builds.PauseLongerThanLimitFails`).
- The operator catalog lists entries of undiscovered backends as routable that dispatch rejects
  (`RouterPolicy.ListedIsEligibleIff`, `RouterPolicy.UndiscoveredIsListedButRejected`).
- Below quorum, one more reject can be the vote that makes the quorum and so approve the change
  (`Committee.AddingRejectApprovesIff`).
- A failover is reported with an empty list of attempts when the earlier entries' backends were simply gone
  (`Dispatch.FailoverReportedIff`).

## Model

| member | source | states |
|---|---|---|
| `Fleet.EveryRunIsSound` | ctswarm/scheduler.py:398-511 | Over every interleaving of queueing, passes, task answers, cancellations, control signals, foreign events and restarts, whatever the clock shows at each: builds are queued once, end once and start only once submitted, at most `maxConcurrent` are tracked, a running one was queued and has not ended, and one that finished on its own has its terminal event |
| `Fleet.SafeFromTheStart` | ctswarm/scheduler.py:398-441 | From a fresh start and under any clock, no run ever exceeds the concurrency limit, queues a build twice or ends it twice |
| `Fleet.StepKeeps` | ctswarm/scheduler.py:288-511 | One arbitrary step of the system, with an arbitrary stamp, keeps the invariant |
| `Fleet.ResumeKeeps` | ctswarm/scheduler.py:443-511 | The stretch of code after any answer to an awaited operation keeps the invariant, whatever was answered |
| `Fleet.PassKeeps` | ctswarm/scheduler.py:398-441 | A scheduling pass keeps the invariant |
| `Fleet.SubmitKeeps` | ctswarm/scheduler.py:288-310 | Queueing a build under a fresh id keeps the invariant |
| `Fleet.UnknownIff` | ctswarm/scheduler.py:342-383 | The dashboard knows nothing of an id iff nothing was ever queued, submitted or ended for it and no task works on it; only then is it accepted |
| `Fleet.RestartSetsLimit` | ctswarm/scheduler.py:269-286 | Only a restart changes the settings; it takes the new ones, a limit of at least one, forgets every task and keeps the log |
| `Runs.FinalSnapshotStays` | ctswarm/scheduler.py:342-368 | Once a build has a terminal event its snapshot never changes again, over every run and under any clock |
| `Runs.NobodyOvertakes` | ctswarm/scheduler.py:319-340 | Over every run in which builds are queued in stamp order, whatever the other stamps, crashes and restarts with the same payload validation included: what is ahead of a waiting build is exactly what was ahead of it and has not ended |
| `Runs.DispatchedIff` | ctswarm/scheduler.py:428-441 | After any such run and a pass, a build that was waiting is tracked iff it has not ended and fewer than `maxConcurrent` of the builds once ahead of it have not ended |
| `Runs.EveryRunIsOrderly` | ctswarm/scheduler.py:398-441 | While builds are queued in stamp order, the tracked builds are the oldest pending ones at every moment of every run, restarts with any settings included |
| `Runs.NoneWaitsBehindATracked` | ctswarm/scheduler.py:432-441 | After every such run a tracked build has only tracked builds ahead of it |
| `Recovery.EveryRunStaysInStep` | ctswarm/scheduler.py:443-511 | Over every such run the task stays in step with the log and at most one execution is outstanding at a time |
| `Recovery.LogMatchesLiveRecord` | ctswarm/orchestrator.py:1160-1215 | Over every run in which the starts and retries of a build carry stamps in order, at every await of its monitored task replaying the log gives the live execution |
| `Recovery.LogMatchesLiveState` | ctswarm/orchestrator.py:1160-1215 | Whenever a status is being posted, the last one after monitoring included, replaying the log gives the live state, and the live phase detail and pull request unless they are empty, over every run in which what sets the state of the build carries stamps in order |
| `Recovery.LogMatchesTheEnd` | ctswarm/orchestrator.py:1160-1215 | Where a terminal event is the last word on a build and those words carry stamps in order, replaying the log gives state, phase detail, pull request and error of that event |
| `Recovery.SubmitsIff` | ctswarm/scheduler.py:451-468 | A stretch submits iff nothing raised, a harness has headroom, and the build is either being retried or starting with no execution outstanding in the log as read; the control signal plays no part |
| `Recovery.RestartResumesTheExecution` | ctswarm/scheduler.py:448-476 | The first stretch of a full build submits iff a harness has headroom and the log as read shows nothing outstanding; it goes on with execution `x`, monitoring or concluding it, iff the log as read shows `x` |
| `Recovery.SnapshotShowsTheExecution` | ctswarm/scheduler.py:360-368 | Whoever is asked, the running task or the log, the dashboard shows the outstanding execution of a build that has not ended |
| `Recovery.ResumesExecutionIff` | ctswarm/scheduler.py:443-476 | Under any clock, from any reachable state: after a crash the build goes on with execution `x` iff the start of `x` carries the latest stamp among its starts and retries, the later written among equals |
| `Recovery.RevivedTasksAreFresh` | ctswarm/scheduler.py:269-286 | After a crash and the first pass every dispatched build starts afresh, on the executions the log showed at the crash, under any clock |
| `Recovery.CrashRecovery` | ctswarm/scheduler.py:443-476 | After every run in which the starts and retries of a build carry stamps in order: crash, restart, first pass; a build dispatched again is submitted iff a harness has headroom and nothing was outstanding at the crash, goes on with the live execution if it was monitored, and is submitted a second time if the crash hit a submission under way |
| `OwnerStop.OwnerStopIsFinal` | ctswarm/scheduler.py:443-511 | With a stop in force and no later pause or resume, over every run and under any clock: the build stays stopped, is never retried, is never started by a pass, begins no poll, and every answer lowers its rank |
| `OwnerStop.StopInForce` | ctswarm/orchestrator.py:362-382 | A stop written at a given time is in force iff no signal of the build carries a later stamp or it was stopped already, and from then on it is final |
| `OwnerStop.StopEndsTheBuild` | ctswarm/scheduler.py:411-426 | At most five answers to its task and one pass after the stop, the build has its terminal event |
| `OwnerStop.StopWindsDown` | ctswarm/orchestrator.py:940-970 | Under a stop every stretch lowers the rank, enters no poll and no retry delay, and appends no retry event |
| `OwnerStop.PassAndStopped` | ctswarm/scheduler.py:411-441 | A pass never starts a stopped build; it ends it if no task holds it |
| `OwnerStop.SparedIsDispatched` | ctswarm/scheduler.py:411-441 | A pending build whose signal read last is not a stop, a paused one included, is dispatched by the next pass if few enough builds are ahead of it |
| `OwnerStop.LaterSignalWithdrawsStop` | ctswarm/orchestrator.py:362-382 | A pause or a resume stamped no earlier than the other signals withdraws a stop: the build is dispatched like any other |
| `Readings.OrderFree` | ctswarm/ledger.py:350-363 | Whether a build was queued, submitted, started or ended does not depend on the order in which stamps make the log be read |
| `Readings.StopInForceIff` | ctswarm/orchestrator.py:362-382 | A stop is in force iff it is the control signal of the build with the latest stamp, the later written among equals |
| `Readings.SignalEffect` | ctswarm/orchestrator.py:362-382 | A signal takes effect iff no signal of the build carries a later stamp; otherwise it changes nothing |
| `Readings.OutstandingIff` | ctswarm/orchestrator.py:1160-1215 | The log shows execution `x` iff its start carries the latest stamp among the starts and retries of the build |
| `Readings.StartEffect` | ctswarm/orchestrator.py:1160-1215 | A started execution is the one a restart finds iff no start or retry of the build carries a later stamp; otherwise a restart finds what it would have found before |
| `ClockSetBack.StopCanBeLost` | ctswarm/orchestrator.py:362-382 | A run that shows it: submit, resume, the clock set back, stop; the stop was written last, the build reads as running, and the next pass dispatches it |
| `ClockSetBack.ExecutionCanBeLost` | ctswarm/orchestrator.py:1160-1215 | A run that shows it: an execution is given up, the clock set back, the next one started; its task monitors it, the log as read shows none, and after a crash the build is submitted again |
| `ClockSetBack.CancellationIsCasualty` | ctswarm/scheduler.py:95-106 | There are answers that make such a run: a cancellation by the control plane |
| `Endings.ReportedEndIsShown` | ctswarm/orchestrator.py:984-1030 | A poll that reports an end takes the build out of the loop in the state reported, and after two more answers to its task that state, its execution, detail, pull request and error are what log and dashboard show, over every run that brings no crash, cancellation or exception to it; only a cancellation in the name of the control plane may be resubmitted instead |
| `Endings.OtherAnswersStay` | ctswarm/orchestrator.py:984-1026 | A poll answered otherwise, or not at all, keeps the build in the loop with its execution, unless the watchdog is due: exactly when the limit is set and has passed since the last progress |
| `Endings.CutOffIsShown` | ctswarm/orchestrator.py:943-1012 | A build that is cut off ends as stopped on the word of its owner and as failed at its deadline or by the watchdog, and is shown so |
| `Endings.CutOffByDeadlineIff` | ctswarm/orchestrator.py:936-982 | Over every run: at the top of an iteration a build is cut off by its deadline iff it is neither stopped nor paused, its request sets a limit, and more hours than that have passed on the clock since it last entered the loop |
| `Endings.ScopedOutcomeIsShown` | ctswarm/scheduler.py:513-533 | A scoped build ends in the state its outcome maps to, or as stopped if a stop of its owner was in force when the outcome came, and is shown so |
| `Endings.ResubmittedIff` | ctswarm/scheduler.py:477-496 | What monitoring leaves is resubmitted iff it was stopped, its error names a cancellation by the control plane in either spelling, and no owner's stop is in force; anything else ends at once as its record says |
| `Endings.LeavesAsRecorded` | ctswarm/scheduler.py:477-496 | A build on its way out of the loop ends as its record says after at most two more answers, whatever happens to other builds meanwhile |
| `Endings.EndedTaskIsShown` | ctswarm/scheduler.py:535-542 | Over every run and whatever brought a task to its end, exceptions included, log and dashboard show state, execution, detail, pull request and error of its record |
| `Endings.LiveRecordIsShown` | ctswarm/scheduler.py:360-368 | Over every run the dashboard shows the record of a watched task field by field, and of any other unended build what its log replays to |
| `Endings.CancelledStartsOver` | ctswarm/scheduler.py:398-511 | A cancelled task ends nothing: nothing is written, and unless its owner stopped the build the next pass starts it afresh, while the tracked builds are the oldest pending ones |
| `Endings.PassEndIsShown` | ctswarm/scheduler.py:398-441 | A build that a pass ends is shown as failed if its queue item could not be read and as stopped if its owner stopped it while it waited |
| `Endings.RunsWhatWasQueued` | ctswarm/scheduler.py:288-340 | Over every run after a build was queued, crashes included, its tasks work on exactly the request it was queued with, and the dashboard shows that one |
| `Endings.EveryRunStaysFit` | ctswarm/orchestrator.py:940-1030 | Under any clock, every monitored task has an execution, none in the loop is terminal and each one past it is |
| `Outcomes.SubmissionOutcome` | ctswarm/orchestrator.py:597-630 | An accepted submission is monitored under its id as planned; a refusal, or an answer without an id, fails the build for that reason |
| `Outcomes.BlockedOutcome` | ctswarm/scheduler.py:451-468 | Where no harness has headroom a submission ends the build as blocked |
| `Outcomes.ScopedBegins` | ctswarm/scheduler.py:513-533 | A scoped build begins executing without an execution id, and one that was stopped before it began ends as stopped |
| `Outcomes.CrashOutcome` | ctswarm/scheduler.py:499-509 | An unexpected exception ends the build as failed, without an execution, whatever the task awaited |
| `Outcomes.TopOutcome` | ctswarm/orchestrator.py:940-984 | What the top of the loop decides, by control signal, pause and deadline: state, events and next await |
| `Outcomes.PollOutcome` | ctswarm/orchestrator.py:984-1026 | What a poll leads to: the state the answer asks for, then the watchdog, a report if the state changed or none was posted for an interval, the end of the loop or another nap; nothing else leaves the loop |
| `Outcomes.CutOffOutcome` | ctswarm/orchestrator.py:943-1012 | State, texts and events a cut-off leaves, by its cause |
| `LogLaws.ReplayIsOutstanding` | ctswarm/orchestrator.py:1160-1215 | Replaying a log whose executions of the build are lawful gives exactly the last one started and not given up by an infrastructure retry |
| `Readings.ReplayIsLatest` | ctswarm/orchestrator.py:1160-1215 | A rebuilt record holds, in its state, phase detail, pull request and error, what the log as read says last about that field |
| `LogLaws.StartsAreSeparated` | ctswarm/scheduler.py:477-494 | Between two starts of one build there is always an infrastructure retry |
| `LogLaws.OnceEach` | ctswarm/scheduler.py:535-542 | Each build is queued at most once and ends at most once in a proper log, whatever the stamps |
| `TaskLaws.AdvanceShaped` | ctswarm/scheduler.py:443-533 | Every stretch, whatever the log shows and in whatever order it was read: it never queues and never signals, starts only what was submitted, ends with a terminal event iff it finishes and then tells the record field by field, has just noted the submission it awaits and just logged the status it posts |
| `TaskLaws.AdvanceSound` | ctswarm/scheduler.py:443-533 | Every stretch of a build, from any phase and for any answer, starts an execution only when none is outstanding, gives up only the outstanding one, and leaves the task in step with the execution the log then shows |
| `TaskLaws.BeginSound` | ctswarm/scheduler.py:444-468 | The first stretch of a build does so |
| `TaskLaws.SubmissionSound` | ctswarm/orchestrator.py:597-630 | So does the stretch after a submission that is refused, answered without an id or accepted |
| `TaskLaws.IterationSound` | ctswarm/orchestrator.py:940-984 | So does the stretch from the top of the loop to its next await |
| `TaskLaws.PollSound` | ctswarm/orchestrator.py:984-1026 | So does the stretch after a poll |
| `TaskLaws.CancelledSound` | ctswarm/orchestrator.py:943-1012 | So does the stretch after a cancellation |
| `TaskLaws.ConcludeSound` | ctswarm/scheduler.py:477-496 | So does the end of monitoring: the build is resubmitted iff it was stopped under an error that names the control plane and its owner has not stopped it, and otherwise its one terminal event tells state, execution, phase detail, pull request and error of its record |
| `QueueLaws.PassTracksOldest` | ctswarm/scheduler.py:398-441 | After a pass exactly the oldest `maxConcurrent` pending builds are tracked, if the tracked ones were the oldest before |
| `QueueLaws.PassFillsSlots` | ctswarm/scheduler.py:428-441 | Whatever was tracked before and whatever the clock did: running tasks run on, the others are pending builds dispatched afresh, none while an older pending build waits, and a slot stays free only when nothing waits |
| `QueueLaws.PassEnds` | ctswarm/scheduler.py:398-441 | A pass ends exactly the unreadable builds and the stopped ones that no task holds |
| `QueueLaws.WriteOffEnds` | ctswarm/scheduler.py:319-340 | Reading the queue writes off exactly the queued builds whose payload is unreadable, once each |
| `QueueLaws.SecondReadIsClean` | ctswarm/scheduler.py:432-432 | The second reading of the queue in a pass writes nothing |
| `QueueLaws.PendingMembers` | ctswarm/scheduler.py:319-340 | A build is pending iff it was queued, has not ended and is readable; it is listed once |
| `QueueLaws.PendingShrinks` | ctswarm/scheduler.py:319-340 | Terminal events only remove builds from the pending list and keep the order of the rest |
| `QueueLaws.SlotsFillOldest` | ctswarm/scheduler.py:428-441 | Handing out slots in order leaves exactly the oldest builds tracked |
| `Scheduler.BuildScheduler.constructor` | ctswarm/scheduler.py:269-286 | A scheduler starts with no tasks and a limit of at least one |
| `Scheduler.BuildScheduler.EnqueueBuild` | ctswarm/scheduler.py:288-310 | Refuses a known id, then a routing policy that cannot be applied, writing nothing; otherwise queues the build under the policy it names or else the stored one, which never refuses it |
| `Scheduler.BuildScheduler.PendingRequests` | ctswarm/scheduler.py:319-340 | The loop returns the pending builds, first come first, and writes off the unreadable ones |
| `Scheduler.BuildScheduler.RecordTerminalEvent` | ctswarm/scheduler.py:535-542 | Appends a terminal event unless there is one |
| `Scheduler.BuildScheduler.Reap` | ctswarm/scheduler.py:399-409 | Drops exactly the tasks that have ended |
| `Scheduler.BuildScheduler.EndIfStopped` | ctswarm/scheduler.py:413-426 | Ends a queued build that its owner stopped |
| `Scheduler.BuildScheduler.EndStopped` | ctswarm/scheduler.py:411-426 | Ends the queued builds their owners stopped, in order |
| `Scheduler.BuildScheduler.Dispatch` | ctswarm/scheduler.py:428-441 | Fills the free slots in queue order |
| `Scheduler.BuildScheduler.RunOncePass` | ctswarm/scheduler.py:398-441 | One pass, as the state function the laws are about |
| `Builds.StoppedIffNewestSignalIsStop` | ctswarm/orchestrator.py:362-382 | In the order read, a build counts as stopped iff the newest of its control signals is a stop |
| `Builds.UpdatedFields` | ctswarm/orchestrator.py:1067-1072 | What a response leaves alone and what it moves besides the state: the execution stays, the projection is the new one, and the progress clock moves iff the projection changed |
| `Builds.AnswerSetsState` | ctswarm/orchestrator.py:1081-1106 | What a response does to the state, status word by status word: pending and queued, running and in_progress, cancelled and canceled, failed and error put the build in the state of that name; completed, success and succeeded complete it iff the result itself holds `success: true`, and fail it otherwise; any other word leaves it alone |
| `Builds.AnswerSetsTexts` | ctswarm/orchestrator.py:1074-1113 | What a response with a result object leaves in pull request, phase detail and error: the result's pull request and summary if there are any; the error with its reason and detail, or else, behind a success the reasoner does not share, the reasoner's explanation |
| `Builds.RetryableIff` | ctswarm/scheduler.py:95-106 | A record is a casualty of the infrastructure iff it is stopped and its error mentions one of the two markers, anywhere and in any case |
| `Builds.ProgressIffMoreThanHeartbeat` | ctswarm/orchestrator.py:1067-1072 | A second answer counts as progress iff it differs from the first in more than volatile keys |
| `Builds.EndIsPostedLast` | ctswarm/orchestrator.py:1026-1030 | However the monitoring loop ends, the last status it posts is the state it ended in |
| `Builds.WatchdogTerminates` | ctswarm/orchestrator.py:986-1012 | While no answer shows anything new, the progress clock stands still and no unpaused poll at or past the limit is survived |
| `Builds.WatchdogEndsTheBuild` | ctswarm/orchestrator.py:986-1012 | If nothing shown is new, the first unpaused poll at or past the limit ends the loop |
| `Completion.CompleteOnlyWhenVouched` | ctswarm/orchestrator.py:1059-1114 | Over every run, crashes and any clock included: a build not yet shown as complete is shown so, in the log or in its task, only after an answer in which both the transport and the result of the reasoner itself reported success, or a scoped build that came out complete |
| `Completion.SnapshotIsShown` | ctswarm/scheduler.py:342-383 | The dashboard shows a build as complete for good iff a terminal event says so, while its task is watched iff the record of the task says so, and otherwise iff the log replays to it; and whatever it shows as complete is so in the log or the task |
| `Completion.VouchedIsShown` | ctswarm/scheduler.py:443-542 | The converse of failing closed: once an answer vouches for a build, two more answers to its task leave it complete on the dashboard for good, over every run that brings no crash, cancellation or exception to it and no owner's stop to a scoped build |
| `Completion.CompleteLoopIsShown` | ctswarm/scheduler.py:477-496 | A build whose loop ended complete is shown as complete for good as soon as its task is resumed without an exception |
| `Completion.AdvanceShows` | ctswarm/scheduler.py:443-533 | A stretch shows completion only if it was shown before or the answer vouches for it |
| `Watchdog.SilenceIsSurvivedOnlyBeforeTheLimit` | ctswarm/orchestrator.py:984-1012 | Over every run of the whole system in which no answer shows anything new, a build still in its loop has not moved its progress clock and every poll since was answered before the limit |
| `Watchdog.WatchdogCatches` | ctswarm/orchestrator.py:984-1012 | The first poll at or past the limit takes the build out of the loop, into the cancellation of a stalled execution if the answer neither failed nor reported an end; with polls at most `gap` apart it comes before the limit and one gap have passed since the last news |
| `Builds.ProgressClockIsLatestNews` | ctswarm/orchestrator.py:986-994 | The progress clock of a monitored build is the time of the latest answer that differed from the one before it |
| `Builds.NewsClockIsLatest` | ctswarm/orchestrator.py:1067-1072 | That time is the poll time of the last iteration with news |
| `Builds.NewsClockStands` | ctswarm/orchestrator.py:1067-1072 | Without news that time does not move |
| `Builds.PauseLongerThanLimitFails` | ctswarm/orchestrator.py:950-963 | A pause longer than the limit fails the build on resume when the first answer shows nothing new |
| `Builds.NewsDefeatsWatchdog` | ctswarm/orchestrator.py:986-994 | A stretch of answers each unlike the last is survived, however slowly it is polled |
| `Builds.ErrorPagesFeedWatchdog` | ctswarm/orchestrator.py:641-641 | A dead execution whose polls fail every other time is never caught, because an error page is read as an empty body |
| `Builds.DriveEndsOnce` | ctswarm/orchestrator.py:940-1028 | Once the loop has ended, later answers change nothing |
| `Builds.LoadBuildFromLog` | ctswarm/orchestrator.py:1160-1215 | The replay loop rebuilds the record event by event, or nothing if the build was never submitted |
| `Builds.BuildRecord.NoteProgress` | ctswarm/orchestrator.py:1067-1072 | Moves the progress clock iff the projection changed |
| `Builds.BuildRecord.NoteResult` | ctswarm/orchestrator.py:1074-1079 | Takes over the pull request and the summary of a structured result |
| `Builds.BuildRecord.NoteOutcome` | ctswarm/orchestrator.py:1081-1106 | Takes over the state each status word stands for; a success without the result agreeing is a failure with a reason |
| `Builds.BuildRecord.NoteError` | ctswarm/orchestrator.py:1108-1113 | Joins error, reason and detail |
| `Builds.BuildRecord.UpdateFromExecution` | ctswarm/orchestrator.py:1059-1114 | Applies one response, field by field; the state afterwards is the one the status word stands for |
| `Builds.BuildRecord.Poll` | ctswarm/orchestrator.py:632-681 | Nothing happens without an execution or without an answer |
| `Builds.BuildRecord.BeforePolling` | ctswarm/orchestrator.py:965-970 | Ends a pause and checks the wall-clock deadline |
| `Builds.BuildRecord.AfterPolling` | ctswarm/orchestrator.py:986-1025 | The watchdog and the status report after a poll |
| `Builds.BuildRecord.OneIteration` | ctswarm/orchestrator.py:941-1026 | One pass through the loop body |
| `Builds.BuildRecord.RunUntilDone` | ctswarm/orchestrator.py:927-1030 | The monitoring loop, against the state function the watchdog laws are about |
| `Refinement.StretchesRefineIteration` | ctswarm/orchestrator.py:940-1030 | Run without interruption, the stretches between two visits to the top of the loop post the same events and leave the same record as one pass through the loop body |
| `Progress.StableIdempotent` | ctswarm/orchestrator.py:1140-1151 | The projection of a response is idempotent |
| `Progress.StableIffSameButVolatile` | ctswarm/orchestrator.py:1140-1151 | Two JSON values project alike iff they differ at most in volatile keys, at any depth |
| `Progress.SettledIsFixpoint` | ctswarm/orchestrator.py:1140-1151 | A value without volatile keys projects to itself |
| `Progress.StableSettles` | ctswarm/orchestrator.py:1140-1151 | A projection holds no volatile key at any depth |
| `Progress.NoiseIff` | ctswarm/orchestrator.py:1140-1151 | Replacing one value of a body leaves its projection alone iff the key, in whatever case, is one of the nine noisy ones, or the two values project alike |
| `Progress.SameLoweredIff` | ctswarm/orchestrator.py:1145-1145 | Keys, status words and markers are recognised up to the case of letters and nothing else |
| `EventLog.ByTimeSorted` | ctswarm/ledger.py:350-363 | Events are read back sorted by time, and none is lost |
| `EventLog.ByTimeIffMonotone` | ctswarm/ledger.py:350-363 | Events are read in the order written iff no stamp steps back |
| `EventLog.ByTimeIsStable` | ctswarm/ledger.py:350-363 | Events of one instant are read in the order written |
| `EventLog.SelectByTime` | ctswarm/ledger.py:350-363 | Filtering what was read is reading what was filtered, so events of other topics play no part |
| `LedgerModel.BreakerExactIff` | ctswarm/ledger.py:188-232 | The breaker row equals the closed form of the history iff the history calls for at most 1024 trips |
| `LedgerModel.BreakerFollowsHistory` | ctswarm/ledger.py:188-232 | Up to 1024 trips the row is the one the history calls for; the trip count is the called-for one saturated at 1024 |
| `LedgerModel.BreakerJamsAt3075` | ctswarm/ledger.py:219-222 | After 3074 timeouts in a row the next one raises instead of tripping, and the model is not held out at all |
| `LedgerModel.RaisesIff` | ctswarm/ledger.py:190-232 | Recording a call raises iff it is a failure that counts, the row of its model already stands at two such failures, and the history has called for 1024 trips |
| `LedgerModel.OpenIffRecentTrip` | ctswarm/ledger.py:288-294 | Over every history, routing avoids a model exactly while its last relevant call was a trip younger than its backoff and no more than 1024 trips have been called for |
| `LedgerModel.JammedIsNeverOpen` | ctswarm/ledger.py:213-232 | Once the history has called for more than 1024 trips the breaker is never open |
| `LedgerModel.BackoffBounds` | ctswarm/ledger.py:219-222 | The backoff never shrinks with more trips, lies between a minute and an hour, and is an hour from the seventh trip on |
| `LedgerModel.BackoffDoubles` | ctswarm/ledger.py:219-222 | The backoff is a minute after the first trip and doubles with each further one until it is an hour |
| `LedgerModel.FailureCountsIff` | ctswarm/ledger.py:188-232 | Over every history: exactly the eight kinds the breaker counts lengthen the run of failures of a model, every third in a row trips it, and any other kind changes nothing |
| `LedgerModel.Ledger.constructor` | ctswarm/ledger.py:123-129 | A new ledger is empty |
| `LedgerModel.Ledger.RecordCall` | ctswarm/ledger.py:146-186 | The call and the breaker update happen together or not at all, and no other model is touched |
| `LedgerModel.Ledger.UpdatedRow` | ctswarm/ledger.py:188-232 | The statements of the update compute the row the history laws are about |
| `LedgerModel.Ledger.IsOpen` | ctswarm/ledger.py:288-294 | Reads the breaker as the closed form says, for every history |
| `LedgerModel.Ledger.RecordEvent` | ctswarm/ledger.py:234-242 | Appends one event |
| `Capacity.HeldOutIff` | ctswarm/capacity.py:583-654 | For any history, a configured subscription is unavailable iff its latest exhaustion outlives its latest clearance and its window, or four fifths of a positive cap are spent |
| `Capacity.HeadroomIsExact` | ctswarm/capacity.py:583-654 | When a runtime is offered at all, by credentials, mode, exhaustions and budget; and what its headroom reports: spending and calls in the window, the share of the cap that is left, and the end of the cooldown, one window after the latest exhaustion |
| `Capacity.ReportHoldsOut` | ctswarm/capacity.py:525-535 | A report of exhaustion holds the runtime out for one window, whatever came before |
| `Capacity.ClearanceReleases` | ctswarm/capacity.py:537-549 | A clearance takes back every earlier report; only the budget can still hold the runtime out |
| `Capacity.RuntimesAreIndependent` | ctswarm/capacity.py:551-581 | Other events never touch a runtime |
| `Capacity.CapacityManager.Choose` | ctswarm/capacity.py:668-743 | The choice of a runtime from mode, wish and free subscriptions: with subscriptions only Claude unless only Codex is free; else local-only work stays local, strong work goes to the roomier free subscription and without one to the local runtime if it is ready, and routine work to the local runtime if preferred and ready, else to Claude if free, else to Codex if free, else stays local |
| `Capacity.CapacityManager.RecordUsage` | ctswarm/capacity.py:497-523 | Metering a run enters one call, or none when the ledger raises, and adds its cost to exactly the windows of its runtime that are still open |
| `Capacity.CapacityManager.NoteRateLimited` | ctswarm/capacity.py:525-535 | Appends one exhaustion report |
| `Capacity.CapacityManager.ClearRateLimited` | ctswarm/capacity.py:537-549 | Appends one clearance |
| `Committee.CollapseRepresents` | ctswarm/committee.py:148-165 | For any votes in any order there is exactly one kept vote per counted family, and it rejects iff some counted vote of the family does |
| `Committee.ApprovedIff` | ctswarm/committee.py:341-400 | Exactly when a committee approves, and exactly when it leaves the decision to a human |
| `Committee.OrderFree` | ctswarm/committee.py:148-165 | The decision does not depend on the order of the votes or on repetitions |
| `Committee.CloneResistant` | ctswarm/committee.py:148-165 | Extra approvals from represented families, abstentions and failed votes change nothing |
| `Committee.RejectsNeverApprove` | ctswarm/committee.py:368-400 | With a quorum one more reject never turns a refusal into an approval, and blocks outright under the two strict rules |
| `Committee.AddingRejectApprovesIff` | ctswarm/committee.py:354-400 | The exact condition under which an extra reject does produce an approval: it is the vote that makes the quorum under the majority rule |
| `Committee.RejectMakesTheQuorum` | ctswarm/committee.py:354-366 | An input that shows it |
| `Committee.CountsAreSizes` | ctswarm/committee.py:351-369 | The approvals and rejections compared are the numbers of families without and with an objection |
| `Committee.CommitteeResult.IndependentVotes` | ctswarm/committee.py:148-165 | The dictionary loop computes the collapse |
| `Committee.CommitteeResult.AnyScannerFailed` | ctswarm/committee.py:341-342 | Looks for a failed scanner |
| `Committee.CommitteeResult.Conclude` | ctswarm/committee.py:330-400 | Combines votes and scanners into the decision the laws are about |
| `RouterPolicy.ScoreOrders` | ctswarm/router/policy.py:366-402 | Better evidence scores higher: an entry that is no worse in bench rates, throughput, live record, residence and locality scores no lower, and strictly higher if it is better in one of them, throughput counting up to sixty tokens a second and the live record from twenty calls on |
| `RouterPolicy.ScoreMoves` | ctswarm/router/policy.py:366-402 | By how much: each bench rate moves the score by its own weight, and half as much beside a live record, which makes up the other half |
| `RouterPolicy.UnmeasuredIsHalf` | ctswarm/router/policy.py:366-402 | An entry nobody measured scores as one of which every rate is one half, and as fast as its placement suggests |
| `RouterPolicy.ScoreRange` | ctswarm/router/policy.py:366-402 | A score lies between 0 and 1.05; being resident is worth exactly a tenth, being local a twentieth |
| `RouterPolicy.BetterEvidenceFirst` | ctswarm/router/policy.py:406-488 | An eligible entry that another eligible one matches in every respect and beats in one is never the primary |
| `RouterPolicy.ExcludedIff` | ctswarm/router/policy.py:304-364 | An entry is excluded iff it fails some gate, and the gate it is excluded under is one it fails |
| `RouterPolicy.ServedIsHighest` | ctswarm/router/policy.py:436-473 | A request is served from the highest tier, at or below the one requested, that has an eligible entry |
| `RouterPolicy.DegradedIff` | ctswarm/router/policy.py:436-488 | A decision is labelled degraded iff a lower tier served; there is no primary iff no tier at or below has an eligible entry |
| `RouterPolicy.PrimaryIsBest` | ctswarm/router/policy.py:475-488 | The primary has maximal score among the eligible, everything in the chain is eligible, and the chain has the promised length |
| `RouterPolicy.EligiblePassed` | ctswarm/router/policy.py:441-466 | A candidate is eligible iff it comes from a catalog entry that passed every gate, and carries its backend, its model, the requested tier and its score |
| `RouterPolicy.EveryEntryIsAccountedFor` | ctswarm/router/policy.py:441-473 | Eligible and excluded partition the catalog at the attempted tier |
| `RouterPolicy.CatalogOrderKept` | ctswarm/router/policy.py:441-466 | Eligible and excluded entries keep the order of the catalog |
| `RouterPolicy.ByScoreSorts` | ctswarm/router/policy.py:475-475 | Sorting is descending and loses nothing |
| `RouterPolicy.ByScoreIsStable` | ctswarm/router/policy.py:475-475 | Equally good candidates keep their catalog order |
| `RouterPolicy.ChainCrossesBackendsFirst` | ctswarm/router/policy.py:502-523 | The chain starts with the best candidate, has the promised length, and no two of its first entries, as many as there are backends, share a backend |
| `RouterPolicy.OptimalCoverage` | ctswarm/router/policy.py:502-523 | At every length no other choice of as many candidates touches more backends |
| `RouterPolicy.ChainKeepsBackendOrder` | ctswarm/router/policy.py:502-523 | Diversifying never reorders the candidates of one backend: the chain holds the best of each, best first |
| `RouterPolicy.ChainIsSelection` | ctswarm/router/policy.py:502-523 | The chain is a selection of the candidates, none taken twice |
| `RouterPolicy.FirstFresh` | ctswarm/router/policy.py:517-517 | Finds the first candidate of a backend not yet used |
| `RouterPolicy.Diversify` | ctswarm/router/policy.py:502-523 | The greedy loop computes the closed form: one candidate per backend first, then the rest, cut at the limit |
| `RouterPolicy.Attempt` | ctswarm/router/policy.py:437-466 | One attempt sorts the catalog into eligible and excluded |
| `RouterPolicy.DecideChain` | ctswarm/router/policy.py:406-488 | The descent loop computes the decision the laws are about |
| `RouterPolicy.ChainOfDecision` | ctswarm/router/policy.py:151-153 | Primary and fallbacks together are the diversified chain |
| `RouterPolicy.ListedIsEligibleIff` | ctswarm/router/policy.py:239-300 | A tier the operator catalog lists is one at which dispatch takes the entry iff the model is installed somewhere or nothing is installed anywhere; always so for a discovered backend |
| `RouterPolicy.ListedIff` | ctswarm/router/policy.py:239-300 | Exactly when the operator catalog lists a tier of an entry |
| `RouterPolicy.UndiscoveredIsListedButRejected` | ctswarm/router/policy.py:263-277 | The failing family: entries of a backend that was not discovered are listed as routable and rejected by dispatch |
| `Dispatch.FailoverProtocol` | ctswarm/router/server.py:397-489 | Backends are called in chain order, each live entry once and recorded once with its position, up to and including the first success or non-retryable failure, which decides the outcome; backends are looked for again once per entry that could not be reached, and the failover or the fatal failure is reported last with every attempt before it |
| `Dispatch.FailsOverIff` | ctswarm/router/server.py:433-470 | After a live entry fails the next one is tried unless the failure is an authentication error, a missing model, a bad request or a cancellation |
| `Dispatch.PositionsIncrease` | ctswarm/router/server.py:404-418 | Recorded positions only go up, name the entry at that position and say what it answered |
| `Dispatch.FailoverReportedIff` | ctswarm/router/server.py:420-431 | A failover is reported iff an entry other than the first served; the report is empty iff every earlier backend was gone |
| `Dispatch.OneCandidatePerStream` | ctswarm/router/server.py:522-614 | Every byte of a stream comes from one candidate, the first that starts, and every entry before it ended or failed before its first chunk |
| `Dispatch.OpeningsRecorded` | ctswarm/router/server.py:522-549 | Every entry the search for a stream passes over with an error is recorded as that failure under its position, nothing else is, and the search is broken off exactly by a failure another entry would not help |
| `Dispatch.BodyRecordedOnce` | ctswarm/router/server.py:550-612 | How a committed stream is recorded and what the client is sent when it finishes, breaks off, or just stops |
| `Dispatch.PinnedChain` | ctswarm/router/server.py:492-506 | A pin is served by the named or the first backend that has the model, and never by another model |
| `Dispatch.RaisedAtMeans` | ctswarm/router/server.py:397-418 | Recording raises at one entry at most, the first record of the protocol that raises |
| `Dispatch.Gateway.TakeReply` | ctswarm/router/server.py:404-470 | One answer: recorded first, then the decision whether to go on |
| `Dispatch.Gateway.Complete` | ctswarm/router/server.py:397-489 | The failover loop over the ledger: every call made is recorded in order and the outcome is that of the protocol; the request fails as a whole iff recording a call raises, and then the calls and notes before it stand |
| `Dispatch.Gateway.OpenStream` | ctswarm/router/server.py:522-549 | The search for a candidate that starts |
| `Dispatch.Gateway.ServeStream` | ctswarm/router/server.py:509-632 | Serving a stream over the ledger, against its state function; the request fails as a whole iff an opening error cannot be recorded |
| `Dispatch.Gateway.Body` | ctswarm/router/server.py:550-612 | Sends the chunks and records the accounting; nothing in it can raise |
| `Scoped.CompleteIff` | ctswarm/scoped.py:715-892 | A scoped build is complete iff its result holds the evidence: an implementer came first, every invocation succeeded, git saw a change, the last test run passed, the last invocation is a review that approves, and every scanner passed; and that evidence is what the harness, git, the suite and the scanners answered, the suite having failed until its last run |
| `Scoped.OutcomeIff` | ctswarm/scoped.py:715-892 | Each of the ten outcomes holds of a build iff its result shows what that outcome means, so no two of the meanings ever hold of one result; a build is approved iff its last invocation is a review that ends in an approval |
| `Scoped.ResultShowsTheWork` | ctswarm/scoped.py:765-892 | Whatever the outcome, the result shows the first diff as the change gate, and the diff and the verdict of the suite after the last successful repair |
| `Scoped.AnsweredIff` | ctswarm/scoped.py:455-537 | What an invocation comes to: an answer iff the harness is installed, exits cleanly and says something; otherwise one condition per failure, an exhausted subscription recognised iff the output decides and says so |
| `Scoped.InvocationsAreBounded` | ctswarm/scoped.py:715-892 | One implementer, then repairs, then at most one reviewer at the very end; at most `2 + maxRepairs` invocations, all but the last successful |
| `Scoped.ReviewedIff` | ctswarm/scoped.py:770-848 | A review is spent exactly on a build whose first invocation succeeded, whose change gate is not empty and whose last test run did not fail |
| `Scoped.RepairsAreRescanned` | ctswarm/scoped.py:805-826 | Every successful repair is followed by a fresh look at the diff and a fresh test run, whose result is the one that counts; attempts are left over only if the suite stopped failing or a repair failed |
| `Metering.TotalsGrow` | ctswarm/capacity.py:656-664 | Entering runs in the ledger adds exactly their costs and their number to what headroom is computed from, per runtime and in every window open at the time |
| `Metering.ScopedBuild.constructor` | ctswarm/scoped.py:398-414 | The repair limit is never negative |
| `Metering.ScopedBuild.RecordRun` | ctswarm/scoped.py:539-550 | One usage record per run, and one exhaustion per rate-limited run, unless recording raises |
| `Metering.ScopedBuild.Run` | ctswarm/scoped.py:455-537 | The statements of an invocation compute that: each failure under exactly its condition, cost and verdicts only from an answer |
| `Metering.MeteredAs` | ctswarm/scoped.py:539-550 | How a run stands in the ledger: runtime, cost, result and a failure of its own name; a timeout, an exhausted subscription and an empty answer count against the breaker, a missing, broken or logged-out harness does not |
| `Metering.ScopedBuild.Invoke` | ctswarm/scoped.py:455-550 | Every way out of an invocation is metered; when metering raises, the runs before it stand |
| `Metering.ScopedBuild.AttemptRepair` | ctswarm/scoped.py:810-826 | One repair attempt, metered |
| `Metering.ScopedBuild.RepairLoop` | ctswarm/scoped.py:806-826 | The bounded repair loop, metered up to the run whose metering raises |
| `Metering.ScopedBuild.Carry` | ctswarm/scoped.py:765-892 | The steps of a build once its roles are chosen |
| `Scoped.JudgedIff` | ctswarm/scoped.py:846-890 | Review and scanners turn work whose invocations all succeeded into a complete build exactly when the result then holds all of the evidence; the work itself stands |
| `Metering.ScopedBuild.RunBuild` | ctswarm/scoped.py:715-892 | The roles come from the headroom of the ledger; the runs of the result are entered in it in order up to the first that cannot be, with one exhaustion report per rate-limited run; the build ends in an exception iff one cannot be, and otherwise spending and call count of each runtime have grown by exactly its runs; an implementer that is out of quota ends it at once, with one exhaustion report |
| `RoutingPolicy.OverlayPreservesMeaning` | ctswarm/routing_config.py:142-186 | A role of an explicit lane resolves to exactly its target; a role of an automatic lane resolves as before, even when the implementation lane moves the default; a role of no lane follows the default |
| `RoutingPolicy.ExplicitRoles` | ctswarm/routing_config.py:166-184 | A role of an explicit lane runs on the harness the operator chose with that harness's model, or locally on exactly the backend and model the operator named |
| `RoutingPolicy.OverlayStaysCoherent` | ctswarm/routing_config.py:142-186 | Overlaying an applicable policy keeps every role's model valid for its provider |
| `RoutingPolicy.OverlayStaysOnSubscriptions` | ctswarm/routing_config.py:142-186 | With subscriptions only, no applicable policy brings back the local runtime or a router alias |
| `RoutingPolicy.HybridIsCoherent` | ctswarm/orchestrator.py:245-263 | The hybrid policy never hands a harness another harness's model |
| `RoutingPolicy.HybridRoles` | ctswarm/orchestrator.py:183-263 | Who does what in the hybrid policy: a hosted planner takes exactly planning, issue writing and review, with its own model; every other role runs locally under the alias of its kind |
| `RoutingPolicy.SubscriptionsAreCoherent` | ctswarm/orchestrator.py:212-242 | With subscriptions only, every role gets a subscription harness and a model of that harness, whatever is available |
| `RoutingPolicy.SubscriptionRoles` | ctswarm/orchestrator.py:206-242 | Who does what with subscriptions only: Claude plans and implements, Codex reviews and maintains, each steps in for the other where only one can be used, each with its own model |
| `RoutingPolicy.ReviewedByOtherVendorIff` | ctswarm/orchestrator.py:204-235 | With subscriptions only, another vendor reviews than the one that plans and implements, iff both can be used |
| `RoutingPolicy.NormalizedIff` | ctswarm/routing_config.py:63-94 | A payload is refused iff there is something to complain about, and with such a complaint; otherwise every lane keeps its target and, where one is needed, its model, and what comes out can be applied |
| `RoutingPolicy.NormalizeIsIdempotent` | ctswarm/routing_config.py:63-94 | An applicable policy is stored and read back unchanged |
| `RoutingPolicy.LoadIsApplicable` | ctswarm/routing_config.py:97-122 | Whatever is stored, the loaded policy can be applied in the current mode |
| `RoutingPolicy.LoadSalvages` | ctswarm/routing_config.py:97-122 | Of a stored policy that cannot be applied, subscription mode keeps each lane that is given to a subscription harness; everything else is left to the system |
| `RoutingPolicy.UnnamedPolicyIsAccepted` | ctswarm/scheduler.py:292-303 | A build that names no policy is never refused for one, and any policy it is queued with can be applied in the current mode |
| `RoutingPolicy.LanesPartitionRoles` | ctswarm/routing_config.py:32-52 | Every listed role is in exactly one lane, and which roles each of the four lanes holds |
| `RoutingPolicy.NormalizePolicy` | ctswarm/routing_config.py:63-94 | The validation loop |
| `RoutingPolicy.Salvage` | ctswarm/routing_config.py:112-122 | The salvage loop |
| `RoutingPolicy.HybridRolePolicy` | ctswarm/orchestrator.py:245-263 | The hybrid role maps |
| `RoutingPolicy.AssignLane` | ctswarm/orchestrator.py:237-239 | Gives every role of a lane its harness and model |
| `RoutingPolicy.SubscriptionRolePolicy` | ctswarm/orchestrator.py:212-242 | The subscription role maps, lane by lane; the base runtime is the implementation lane's |
| `RoutingPolicy.MaterializeLanes` | ctswarm/routing_config.py:156-164 | Gives every listed role but the default its own entry |
| `RoutingPolicy.OverlayLanes` | ctswarm/routing_config.py:166-184 | Overwrites the roles of the explicit lanes |
| `RoutingPolicy.ApplyPolicy` | ctswarm/routing_config.py:142-186 | The overlay, as the functions the laws are about |

## Left out

- Interleaving inside a stretch: each stretch of code between two awaits is one step, and within a whole run a build's task is a value that steps replace; `BuildRecord` shows the same loop updating a record in place, and `Refinement.StretchesRefineIteration` ties the two.
- Message texts: error and detail texts are abbreviated constants, and the texts a scoped outcome writes into its record are not modelled; nothing reads them back except the infrastructure markers, which are spelled out.
- JSON details: a number carries the spelling it is written out with, so `1` and `1.0` are different values; lists and objects render to a fixed text where the source takes one as a message.
- The hash of the projection: the projection itself stands for it, so hash collisions are not modelled.
- Elapsed and stalled seconds, gate results and start times of a record: presentation, not read by the loops.
- The record the dashboard shows while a submission is awaited is the replayed one; the source may still show the record of the execution before a retry.
- Exhaustion notes written while polling: they are foreign events of `Fleet`, and their effect is in `Capacity`; the text matching that triggers them is not modelled.
- What a recorded call stores besides backend, model, outcome, cost and attempt (role, tier, tokens, latency, build), and the progress notes a scoped build and the gateway's requests leave in the event log.
- Ties of the clock: the query orders events by their stamp alone (ctswarm/ledger.py:350-363), and reading equal stamps in the order written is an assumption about SQLite; `EventLog.ByTimeIsStable` and every condition on "the later written among equals" rest on it.
- Two clock readings within one stretch, or within one recording, are one.
- Payload readability: which stored queue items a scheduler version rejects is a set given to it, not the validation itself.
- Exceptions out of a backend's stream before its first item: the request then fails as a whole.
- Text recognition: verdict lines, failure classification, model families and provider names are inputs of the parts that use them.
- Floating point: costs, scores and timestamps are reals; rounding in reports is not modelled.
- Sorting of the catalog view, model families of committee members, and the choice of members from the bench table.
- SQLite, HTTP, Slack, subprocess and git calls, the dashboard, settings, approvals and the MCP registry.
