# Scale-in protocol of the legacy messenger ECS control plane

A Dafny model of the session-based auto-scaler and proofs about it. Two schedulers share a job table: the evaluation
scheduler adds up the sessions of the RUNNING tasks, judges the demand, and either raises the desired count or registers
a scale-in job; the scale-in scheduler picks a task, protects the others, drains it, lowers the count after three zero
observations in a row, and waits for the task to stop.

`dafny verify dfyconfig.toml` checks the whole project.

## How it is built

| file | what it holds |
|---|---|
| `Domain.dfy` | jobs, control states, results, errors |
| `ScaleInCoordinator.dfy`, `ScalingPolicy.dfy` | the two shared objects as classes over maps, each method tied to a function of one service's entry |
| `PolicyHistory.dfy` | the policy's counters against the evaluation history they summarise |
| `SessionCounts.dfy`, `FailSafe.dfy` | classification, totals, sizing, target selection; what partial and stale reports can do |
| `ReportStore.dfy` | the report hash and its expiry index, sweeps, runs of single calls |
| `FakeEcs.dfy` | the stateful fake: counters beside a task table, delayed starts, protection |
| `ScaleInJobs.dfy`, `Evaluation.dfy` | the two use cases as classes that drive the objects with scripted port answers |
| `TurnOutcomes.dfy` | what one turn of the scale-in scheduler does to a job, told from the answers alone |
| `ScaleInPasses.dfy` | order of a pass, duration of APPLIED in ticks and in runs |
| `Protocol.dfy` | both schedulers as a state machine, one step per locked section or port call, with arbitrary answers |
| `ProtocolSafety.dfy`, `Guarantees.dfy`, `ProtocolHistory.dfy` | the invariant, what it means, and the log of a run |
| `RequestSpacing.dfy`, `ExecutionSpacing.dfy` | what decides how far apart the lowerings of a service are; schedules that keep the cooldown and runs that do not |
| `Convergence.dfy`, `Progress.dfy` | runs under constant demand: direction and number of writes; rounds that reach the required count |
| `DrainReads.dfy` | what the drain reads of the report store are worth |
| `ClosedLoop.dfy` | the protocol against the fake, with timers, manual scaling and failed calls in between |
| `Protection.dfy` | whose survivors are protected, over every closed-loop run |
| `LoopRuns.dfy` | runs of the closed loop from an empty fake: undisturbed, disturbed, failed |
| `UndisturbedTick.dfy`, `Passes.dfy`, `Reachability.dfy` | the state machine and the use cases describe the same ticks and passes; runs that go somewhere exist |

Conventions. Time is a number of nanoseconds on one non-decreasing clock; a call and the `time.Now()` it is given are one
step. The report store keeps whole seconds, as the code does. Utilization and coverage are exact reals. Walking a map is a
nondeterministic choice. A port call answers with a value or fails; only the fake's stop notification fails after an
effect. The name of a service in ECS is a fixed attribute of the service. New task names come from outside; the agreement
of the fake's counters assumes that they are new and distinct. A panic ends a closed-loop run.

The protocol carries three things the program does not have: a trace per job (observations, attempts, successful
lowerings, the write counter its evaluation saw), a log of approvals and executions, and the list of replaced jobs. No
step looks at them.

## What comes out

- For every interleaving, every ECS and every pattern of failures: copies of jobs stay current, the coordinator's status
  guards never fire, each job lowers the count at most once and exactly if it reaches APPLIED, and it does so exactly at
  the first three zero observations in a row.
- The policy's two counters are the suffix lengths of the evaluation history, and approval is decided by them in both
  directions.
- Under constant demand every write of the count repeats it or moves it closer to the required one, without passing it.
  The number of writes made plus the number still to make grows by the repetitions only, which are bounded by the
  lowerings; where no write lands between an evaluation's read and its act there are none.
- The required count is reached: rounds in which calls succeed and drained tasks report no sessions get there within a
  bound computed from the writes to make and the cooldowns.
- Against the fake, a lowering that gets through stops exactly the drained task, whatever order the fake walks its tasks
  in, if and only if that task is the only unprotected RUNNING one and the count is above the job's target. That is so if
  the job has survivors and the count was not written since the evaluation behind the job read it.
- Reports that nothing touches between a tick's two reads of the store are summed only while less than 90s old.

Where the code does less than its documentation suggests:

- `EvaluateAndScale` does not ask whether a job is active, and the job's target count is fixed at its request. After a
  raise in between, the lowering can go down by more than one and stop a task that was never drained
  (`LoopRuns.DisturbedLoweringCanStopAnotherTask`). Which task stops is settled by `ClosedLoop.StopsExactlyTheTargetIff`,
  by how much the count falls by `ClosedLoop.LowersByOneIff`.
- An evaluation that stalls before its request can ask for a count that has been reached by then, and the job writes it
  once more (`ExecutionSpacing.StalledTickWritesIdly`, exact condition in `Convergence.IdleIff`).
- A tick reads reports and expiry in separate calls. A report that lands in between keeps its older predecessor in the sum
  (`ReportStore.ReplacedReportsCanBeSummed`, exact condition in `ReportStore.SummedIff`).
- The scale-in cooldown is checked at approval only. A tick that stalls between approval and request escapes it
  (`ExecutionSpacing.StalledTickEscapesCooldown`). What decides is whether the cooldown runs when the request registers
  its job: if it does not, lowerings stay 60s apart however the run goes on, and if it does they need not
  (`RequestSpacing.RequestKeepsCooldownIff`).
- A task without a report reads as zero sessions, so a drained task that fell silent with sessions is stopped
  (`DrainReads.SilencedTaskIsLoweredFor`). What decides is whether its report is still stored at the read
  (`DrainReads.ReadsAsNoneIff`); that of a punctual task is (`DrainReads.LoweredTasksReportedNothing`).
- A report younger than 90s can count as expired, because scores are whole seconds
  (`ReportStore.YoungerThanNinetySecondsCanBeExpired`, exact condition in `ReportStore.ExpiredIff`).
- The fake's counters leave the table behind when a lowering is not by one or finds pending tasks
  (`FakeEcs.LoweringKeepsAgreementIff`), and a later raise can then panic (`FakeEcs.LoweringWhilePendingLeadsToPanic`).
- `UpdateTaskProtection` of the fake ignores its flag. A job that fails releases nobody, and one that completes releases
  exactly the survivors that have stopped RUNNING by then (`Protection.SurvivorIsReleasedIff`; a failed job in
  `LoopRuns.FailedJobsLeaveSurvivorsProtected`).
- The required count in the README divides by the task capacity; the code divides by capacity times utilization, which is
  what is modelled.

## Model

| member | source | states |
|---|---|---|
| `ScaleInCoordinator.Coordinator.Request` | internal/application/usecase/scale_in_coordinator.go:35-61 | a new job replaces the entry of its service, reset to REQUESTED without target, exactly when no active job is there; otherwise the table is untouched |
| `ScaleInCoordinator.Coordinator.GetActiveJobs` | internal/application/usecase/scale_in_coordinator.go:64-81 | whatever order the map is walked in, the copies are the active jobs, each once, as stored |
| `ScaleInCoordinator.Coordinator.MarkDraining` | internal/application/usecase/scale_in_coordinator.go:84-132 | refusals in the order of the guards; on success target, survivors and status change in one stored job and nothing else |
| `ScaleInCoordinator.Coordinator.IncreaseZeroSessionStreak` | internal/application/usecase/scale_in_coordinator.go:135-153 | the answer is the stored streak after adding one; no status guard |
| `ScaleInCoordinator.Coordinator.ResetZeroSessionStreak` | internal/application/usecase/scale_in_coordinator.go:156-174 | the streak of the stored job becomes zero, everything else stays |
| `ScaleInCoordinator.Coordinator.MarkApplied` | internal/application/usecase/scale_in_coordinator.go:177-205 | only a DRAINING job becomes APPLIED, stamped with the time |
| `ScaleInCoordinator.Coordinator.Complete` | internal/application/usecase/scale_in_usecase.go:496-522 | only an APPLIED job becomes COMPLETED |
| `ScaleInCoordinator.Coordinator.MarkFailed` | internal/application/usecase/scale_in_usecase.go:462-494 | any stored job becomes FAILED with its cause; a missing one is refused |
| `ScaleInCoordinator.AcceptedIff` | internal/application/usecase/scale_in_coordinator.go:41-196 | exactly which stored jobs each operation accepts, and what it answers to the others |
| `ScalingPolicy.Policy.Evaluate` | internal/application/usecase/scaling_policy.go:68-128 | the service's counters, the result and the approval are those of the pure judgement `Judge`; no other service's policy state moves |
| `ScalingPolicy.Policy.EvaluateScaleOut` | internal/application/usecase/scaling_policy.go:130-211 | raising side of the judgement, with its limits in the order of the code |
| `ScalingPolicy.Policy.EvaluateScaleIn` | internal/application/usecase/scaling_policy.go:224-343 | lowering side of the judgement, with a reset of the streak on every early exit |
| `ScalingPolicy.Policy.RecordExecution` | internal/application/usecase/scaling_policy.go:347-362 | sets the last execution time of one direction of one service |
| `ScalingPolicy.Policy.ResetStreak` | internal/application/usecase/scaling_policy.go:364-369 | clears both counters of one service and nothing else |
| `ScalingPolicy.ApprovalIsBounded` | internal/application/usecase/scaling_policy.go:181-200 | an approval implies convergence and the cooldowns; a raise goes to min(current + 2, 10, demanded), a lowering to current - 1, which is at least 1 |
| `ScalingPolicy.UnapprovedAnswers` | internal/application/usecase/scaling_policy.go:79-125 | an evaluation that approves nothing answers SKIP if and only if the service has not settled, else the demanded action, with the demanded counts and nothing executed |
| `PolicyHistory.CooldownTimesAreLastRecorded` | internal/application/usecase/scaling_policy.go:347-362 | the cooldown times are the last recorded executions of the history |
| `PolicyHistory.CountersRefineHistory` | internal/application/usecase/scaling_policy.go:130-339 | each counter is the length of the longest suffix of qualifying, unapproved evaluations of its direction, where approval too is defined on the history alone |
| `PolicyHistory.ApprovalRefinesHistory` | internal/application/usecase/scaling_policy.go:68-128 | the policy approves an evaluation if and only if the history before it says so |
| `PolicyHistory.OutApprovalIff` | internal/application/usecase/scaling_policy.go:130-211 | a scale-out is approved if and only if that suffix reaches 3 and maximum, cooldown and demand allow it |
| `PolicyHistory.InApprovalIff` | internal/application/usecase/scaling_policy.go:224-343 | a scale-in is approved if and only if that suffix reaches 5 and the demanded count is below the current one |
| `SessionCounts.GetSeparatedRunningTask` | internal/application/usecase/session_auto_scaling_usecase.go:538-562 | splits the RUNNING tasks, in order, into expired, usable and missing ones; other reports are not looked at |
| `SessionCounts.CalculateTotalSessionCount` | internal/application/usecase/session_auto_scaling_usecase.go:260-309 | total of the usable reports, a sorted permutation of the per-task list, truncated average, coverage over RUNNING tasks |
| `SessionCounts.SeparationSharesOut` | internal/application/usecase/session_auto_scaling_usecase.go:538-562 | the three lists share out the RUNNING tasks: without report, with an expired one, and the rest |
| `SessionCounts.TruncDivIsTowardsZero` | internal/application/usecase/session_auto_scaling_usecase.go:298-301 | the average leaves a remainder smaller than the number of tasks, of the sign of the total |
| `SessionCounts.CoverageIsTheShare` | internal/application/usecase/session_auto_scaling_usecase.go:285-290 | coverage times the RUNNING tasks is the usable ones, and zero without RUNNING tasks |
| `SessionCounts.CeilIsLeast` | internal/application/usecase/session_auto_scaling_usecase.go:330-336 | the rounded-up quotient is the least task count that carries the sessions |
| `SessionCounts.RequiredIsLeastClamped` | internal/application/usecase/session_auto_scaling_usecase.go:311-347 | within the bounds the required count is the least one that carries the sessions at sessionPerTask * utilization each, clamped; without a positive capacity it is the minimum; for bounds the wrong way round, which of the two |
| `SessionCounts.RequiredIsMonotone` | internal/application/usecase/session_auto_scaling_usecase.go:311-347 | more sessions never require fewer tasks |
| `SessionCounts.SelectScaleInTarget` | internal/application/usecase/scale_in_usecase.go:228-259 | the loop finds what `SelectTarget` describes, or reports that there is no eligible target |
| `SessionCounts.SelectionIsFirstLeast` | internal/application/usecase/scale_in_usecase.go:228-259 | the target is the first RUNNING task of least count with an unexpired report; there is none exactly when no RUNNING task has one |
| `FailSafe.PartialTotalIsAtMostFull` | internal/application/usecase/session_auto_scaling_usecase.go:266-283 | the observed total is at most the total over all reports of RUNNING tasks |
| `FailSafe.RaiseOnPartialReportsIsJustified` | internal/application/usecase/session_auto_scaling_usecase.go:311-347 | a raise demanded on partial reports is demanded by all reports too, and is not exceeded |
| `FailSafe.FullCoverageMeansAll` | internal/application/usecase/session_auto_scaling_usecase.go:285-290 | coverage reaches 1 if and only if tasks are RUNNING and each has an unexpired report |
| `FailSafe.ScaleInNeedsEveryReport` | internal/application/usecase/scaling_policy.go:254-264 | no scale-in is approved while one RUNNING task lacks an unexpired report |
| `FailSafe.OrphanAndExpiredReportsAreInert` | internal/application/usecase/session_auto_scaling_usecase.go:538-562 | reports of tasks that are not RUNNING and counts in expired reports change neither totals nor target |
| `FailSafe.SumOfPermutation` | internal/application/usecase/session_auto_scaling_usecase.go:292-296 | sorting the per-task list does not change its sum |
| `FailSafe.EvaluatorAndSelectorAgree` | internal/application/usecase/scale_in_usecase.go:228-259 | on data that got a scale-in approved, a target is found; its count heads the sorted list and is at most the average |
| `ReportStore.Reports.SaveTaskSessionReport` | internal/adapters/redis/redis_client.go:67-122 | report and expiry second are written together |
| `ReportStore.Reports.PutTaskSessionReport` | internal/application/usecase/task_session_report_usecase.go:25-50 | a report expires 60s after its arrival |
| `ReportStore.Reports.GetInvalidReportTask` | internal/adapters/redis/redis_client.go:188-273 | expired tasks with their scores; the candidate list names each stop candidate once, after as many empty names |
| `ReportStore.Reports.ShouldStopTask` | internal/adapters/redis/redis_client.go:275-305 | true exactly for a known task whose expiry lies 30 whole seconds back |
| `ReportStore.Reports.DeleteTaskSessionState` | internal/adapters/redis/redis_client.go:307-345 | report and expiry disappear together |
| `ReportStore.Reports.GetTaskSessionReportByTask` | internal/adapters/redis/redis_client.go:347-392 | the stored count whatever its expiry, and zero for a task without report |
| `ReportStore.Reports.StopExpiredTasks` | internal/application/usecase/session_auto_scaling_usecase.go:484-536 | one sweep drops exactly the candidates that the recheck still finds due, up to the first store error |
| `ReportStore.IndexesAgree` | internal/adapters/redis/redis_client.go:99-115 | after any sequence of calls both indexes have the same tasks and each score is its report's time plus 60s |
| `ReportStore.ExpiredIff` | internal/adapters/redis/redis_client.go:195-206 | a report is expired, or due at the recheck, if and only if 90 whole seconds have passed; a candidate after 120 |
| `ReportStore.SweepDropsIff` | internal/application/usecase/session_auto_scaling_usecase.go:484-536 | a sweep drops exactly the candidates it gets to whose report is 90 whole seconds old, from both indexes, and changes no other |
| `ReportStore.SummedIff` | internal/application/usecase/session_auto_scaling_usecase.go:83-103 | reports and expiry are read in separate calls: a report read first is summed if and only if its task has been removed since or its newest report is less than 90 whole seconds old |
| `ReportStore.FreshnessOverRuns` | internal/adapters/redis/redis_client.go:195-256 | in every run, with anything between the two reads: stop candidates are expired; a summed report that is still stored is less than 90s old; one that was unexpired at the first read is older by at most the gap |
| `ReportStore.UntouchedReportsAreFresh` | internal/adapters/redis/redis_client.go:195-256 | a report that nothing replaces or removes between the reads is summed only below 90s |
| `ReportStore.ReplacedReportsCanBeSummed` | internal/application/usecase/session_auto_scaling_usecase.go:83-103 | a run in which a report lands between the reads and the count summed is 96s old |
| `ReportStore.YoungerThanNinetySecondsCanBeExpired` | internal/adapters/redis/redis_client.go:196-197 | the converse fails: whole-second scores let an 89.5s old report count as expired |
| `ReportStore.PunctualTasksAreKept` | internal/application/usecase/session_auto_scaling_usecase.go:491-533 | with checks and drops as separate calls, a task whose gaps stay below 90 whole seconds is never condemned or dropped |
| `ReportStore.PunctualTasksAreNeverExpired` | internal/adapters/redis/redis_client.go:195-206 | nor is it ever classified as expired |
| `DrainReads.PunctualTasksReadAsReported` | internal/adapters/redis/redis_client.go:347-392 | a drain read of a punctual task that no scale-in removed answers its last reported count |
| `DrainReads.ReadsAsNoneIff` | internal/adapters/redis/redis_client.go:386-392 | a task whose last report was of sessions is read as having none if and only if its report is no longer stored |
| `DrainReads.StoredReportsWereOfNothing` | internal/application/usecase/scale_in_usecase.go:271-309 | in every run that lowered the count for a job on reads of a store, at each of the three last reads a stored report of the drained task was its last and of no sessions, and if its last was of sessions it was gone |
| `DrainReads.LoweredTasksReportedNothing` | internal/application/usecase/scale_in_usecase.go:271-309 | so a punctual task that no scale-in removed is lowered for only if its last report at each of those reads was of no sessions, or it never reported |
| `DrainReads.SilencedTaskIsLoweredFor` | internal/adapters/redis/redis_client.go:386-392 | a run in which a task reports five sessions and falls silent, its report is dropped after 121s, the drain reads nothing before that, and three reads of nothing, at each of which the last report is that of five, lower the count |
| `FakeEcs.FakeECSClient.UpdateServiceDesiredCount` | internal/adapters/fake/fake_ecs_client.go:96-223 | every outcome with its effect: raise creates pending tasks, lowering stops some unprotected RUNNING task in unknown order, failed notification leaves the task stopped |
| `FakeEcs.FakeECSClient.StopFirstUnprotected` | internal/adapters/fake/fake_ecs_client.go:185-209 | walking the table in any order stops one unprotected RUNNING task, or none if there is none |
| `FakeEcs.FakeECSClient.CreatePending` | internal/adapters/fake/fake_ecs_client.go:148-164 | one PENDING entry per new name |
| `FakeEcs.FakeECSClient.TransitionPendingTaskToRunning` | internal/adapters/fake/fake_ecs_client.go:225-285 | starts the task exactly when it is pending and the counters leave room |
| `FakeEcs.FakeECSClient.UpdateTaskProtection` | internal/adapters/fake/fake_ecs_client.go:347-364 | the protected set is replaced, whatever the flag |
| `FakeEcs.FakeECSClient.GetRunningTaskIDs` | internal/adapters/fake/fake_ecs_client.go:329-345 | lists the RUNNING tasks, each once; an error exactly while the table is empty |
| `FakeEcs.RaiseKeepsAgreement` | internal/adapters/fake/fake_ecs_client.go:126-173 | a raise keeps counters and table in agreement |
| `FakeEcs.OutcomesOfAnUpdate` | internal/adapters/fake/fake_ecs_client.go:96-223 | answer, counters and task table of an update in every case, told in counts and tasks |
| `FakeEcs.TimerStartsIff` | internal/adapters/fake/fake_ecs_client.go:252-274 | a timer does something exactly if its task is pending and the counters leave room |
| `FakeEcs.LoweringKeepsAgreementIff` | internal/adapters/fake/fake_ecs_client.go:177-216 | a lowering keeps the agreement if and only if it lowers by one, nothing is pending and some RUNNING task is unprotected |
| `FakeEcs.PanicsIff` | internal/adapters/fake/fake_ecs_client.go:136-148 | the slice is made with a negative capacity if and only if a raise asks for fewer tasks than are counted |
| `FakeEcs.LoweringWhilePendingLeadsToPanic` | internal/adapters/fake/fake_ecs_client.go:136-148 | a run from an empty fake, in agreement up to a lowering while tasks are pending, after which the next raise panics |
| `FakeEcs.FireStartsPending` | internal/adapters/fake/fake_ecs_client.go:252-262 | in agreement, the guards never block a pending task's transition |
| `FakeEcs.OutstandingTimersSettle` | internal/adapters/fake/fake_ecs_client.go:225-285 | in any order of timers every pending task turns RUNNING exactly once and the service ends converged |
| `FakeEcs.AgreementOverRuns` | internal/adapters/fake/fake_ecs_client.go:126-218 | over every careful run counters and table agree and the missing-task count of a raise is positive |
| `ProtocolSafety.QuietGrows` | internal/application/usecase/scale_in_usecase.go:281-297 | how one more observation moves the streak towards the first three zeros in a row |
| `ProtocolSafety.RunKeepsInv` | internal/application/usecase/scale_in_usecase.go:83-102 | the invariant behind the guarantees holds in every state of every interleaved run |
| `Guarantees.CopiesStayCurrent` | internal/application/usecase/scale_in_usecase.go:52-81 | a copy from `GetActiveJobs` equals the stored active job until the scale-in scheduler changes it itself |
| `Guarantees.GuardsNeverFire` | internal/application/usecase/scale_in_coordinator.go:92-196 | in no run does a status guard of the coordinator fire; `MarkDraining` refuses only an empty target; `MarkFailed` only hits active jobs |
| `Guarantees.StatusDeterminesShape` | internal/application/usecase/scale_in_coordinator.go:50-60 | between passes REQUESTED, DRAINING and APPLIED fix target, survivors, streak and stamps |
| `Guarantees.ExactlyOnceLowering` | internal/application/usecase/scale_in_usecase.go:299-321 | each job lowers at most once, and exactly if it reached APPLIED; the update is asked for exactly at the first three zero observations in a row |
| `Guarantees.ActiveJobsMoveForward` | internal/application/usecase/scale_in_coordinator.go:41-48 | no step replaces an active job or changes its counts, or its target once DRAINING; the status only moves forward or to FAILED |
| `Guarantees.StoredJobsAreInOrder` | internal/application/usecase/scale_in_coordinator.go:50-60 | in every state of every run a stored job bears its service's names, its times are in order, and it has an error exactly if it FAILED |
| `Guarantees.ChangesAreStamped` | internal/application/usecase/scale_in_coordinator.go:50-60 | every change of a stored job bears the time it happens at; a new job is blank but for its counts |
| `ProtocolHistory.ExecutionsAreSpaced` | internal/application/usecase/scaling_policy.go:156-168 | recorded scale-outs 30s apart; scale-ins approved 60s after every earlier execution; recorded scale-ins 60s apart if the later was approved after the earlier was recorded |
| `RequestSpacing.RunKeepsLogged` | internal/application/usecase/scaling_policy.go:347-362 | a cooldown that was ever set is the time of a recorded lowering |
| `RequestSpacing.RequestKeepsCooldownIff` | internal/application/usecase/session_auto_scaling_usecase.go:588-620 | when an act registers a job, every lowering to come is at least 60s after every lowering before it, however the run goes on, if and only if the scale-in cooldown is not running then |
| `RequestSpacing.UncooledRequestsSpaceLowerings` | internal/application/usecase/scaling_policy.go:285-300 | in every run in which no job is registered during the cooldown, recorded lowerings of one service are at least 60s apart |
| `ExecutionSpacing.RunKeepsNewest` | internal/application/usecase/session_auto_scaling_usecase.go:138-171 | with atomic ticks, a held scale-in approval is newer than all recorded lowerings of its service |
| `ExecutionSpacing.AtomicTicksAreUncooled` | internal/application/usecase/session_auto_scaling_usecase.go:138-171 | with atomic ticks, no job is registered during the cooldown |
| `ExecutionSpacing.AtomicTicksSpaceLowerings` | internal/application/usecase/scaling_policy.go:285-300 | so with atomic ticks, recorded lowerings of one service are at least 60s apart in every run |
| `ExecutionSpacing.StalledTickEscapesCooldown` | internal/application/usecase/session_auto_scaling_usecase.go:138-153 | from every fresh process at two tasks, a tick that stalls between approval and request lets two jobs be applied at the same instant |
| `ProtocolHistory.WritesAreBounded` | internal/application/usecase/scaling_policy.go:181-200 | every automatic write stays within one step of the count it was decided on, manual writes or not |
| `ProtocolHistory.EveryLoweringBelongsToAJob` | internal/application/usecase/scale_in_usecase.go:304-312 | the lowerings logged for a service are exactly those its jobs, past and present, account for |
| `Convergence.WritesAreConserved` | internal/application/usecase/session_auto_scaling_usecase.go:350-397 | under constant demand, stalled evaluations included, writes made plus writes still separating the count from the required one grow by idle writes only, of which there are none from below and at most as many as lowerings from above |
| `Convergence.ConvergesWithoutOscillation` | internal/application/usecase/session_auto_scaling_usecase.go:350-397 | every write repeats the count or moves it strictly towards the required one without passing it; their number is bounded; at the required count it stays, and evaluations that read it approve nothing |
| `Convergence.NoRaiseBetweenRequestAndApply` | internal/application/usecase/scale_in_usecase.go:299-321 | under constant demand no raise is due between a job's request and its lowering, whose target is the count or one below it and not below the required one |
| `Convergence.IdleIff` | internal/application/usecase/scale_in_usecase.go:304-309 | a write repeats the count if and only if it is a lowering to a target that has been reached already |
| `Convergence.PromptTicksNeverWriteIdly` | internal/application/usecase/session_auto_scaling_usecase.go:350-397 | where no write lands between an evaluation's read and its act, no write is idle and the sum of writes made and writes to make is constant |
| `Progress.TheLoopSettles` | internal/application/usecase/session_auto_scaling_usecase.go:350-397 | progress: after (writes away + 1) * (60s / interval + 15) rounds, and 4 for a job whose write is idle, in which calls succeed, full reports require r tasks and drained tasks report no sessions, the count is r, from every standing in order |
| `Progress.TheProtocolSettles` | internal/application/usecase/session_auto_scaling_usecase.go:350-397 | from every state in which nobody is mid-way, such rounds are a run of the protocol without other writes, in which every evaluation requires r and which leaves the service as the rounds do: with enough of them, at r |
| `Progress.CalmRunsAreInOrder` | internal/application/usecase/scale_in_usecase.go:299-321 | every state of a run under constant demand, stalled evaluations included, is such a start once the scale-in scheduler is idle |
| `Progress.RoundIsARun` | internal/application/usecase/scale_in_usecase.go:52-81 | one round of the two use cases is a run of the protocol: the steps of the tick at its time and of a pass at its own, with the same policy state, job and count |
| `Progress.CooperationIsPossible` | internal/application/usecase/session_auto_scaling_usecase.go:311-347 | such rounds exist from every standing for as long as one likes, with the default session capacity and utilization and sessions that require r tasks |
| `ExecutionSpacing.StalledTickWritesIdly` | internal/application/usecase/scale_in_usecase.go:304-309 | from every fresh process at two tasks some run under constant demand writes a count that is there already |
| `ClosedLoop.StopsExactlyTheTargetIff` | internal/adapters/fake/fake_ecs_client.go:185-216 | whichever task the fake comes upon first, a job's lowering stops exactly the drained task if and only if the count is above the job's target and the drained task is the only unprotected RUNNING one |
| `ClosedLoop.UndisturbedTargetIsAlone` | internal/application/usecase/scale_in_usecase.go:135-161 | an undisturbed job with survivors meets that condition, and its target is one below the count |
| `ClosedLoop.OnlyTheDrainedTaskStops` | internal/application/usecase/scale_in_usecase.go:299-321 | so an undisturbed lowering takes the count down by one and stops exactly the drained task, whatever the walking order |
| `ClosedLoop.CarefulRunsStopOnlyDrainedTasks` | internal/adapters/fake/fake_ecs_client.go:177-218 | in runs that lowered carefully so far this needs no further hypothesis, and counters and table agree afterwards |
| `ClosedLoop.UndisturbedJobsHaveSurvivors` | internal/application/usecase/scale_in_usecase.go:135-161 | in agreement an undisturbed job protects at least one survivor |
| `ClosedLoop.SurvivorsOutliveTheirJob` | internal/adapters/fake/fake_ecs_client.go:192-194 | disturbed or not, a job's lowering never touches one of its survivors |
| `ClosedLoop.LowersByOneIff` | internal/application/usecase/scale_in_usecase.go:304-309 | a lowering goes down by exactly one if and only if the count is still what the job was requested for |
| `LoopRuns.UndisturbedLoweringHappens` | internal/application/usecase/scale_in_usecase.go:299-321 | some run from an empty fake takes a job undisturbed to its lowering |
| `LoopRuns.DisturbedLoweringCanStopAnotherTask` | internal/application/usecase/scale_in_usecase.go:304-309 | some run from an empty fake requests a job for two tasks, raises to four while it drains, and then lowers by three and stops a task that was never drained |
| `Protection.SurvivorsStayProtected` | internal/adapters/fake/fake_ecs_client.go:347-364 | in every state of every closed-loop run the survivors of a stored DRAINING, APPLIED or FAILED job are protected, until a completing job replaces the set |
| `Protection.SurvivorIsReleasedIff` | internal/application/usecase/scale_in_usecase.go:409-460 | a survivor of the stored job is unprotected if and only if the job has completed, or is about to be marked so, and the survivor was no longer RUNNING when the job read what still runs |
| `LoopRuns.FailedJobsLeaveSurvivorsProtected` | internal/adapters/fake/fake_ecs_client.go:347-364 | a witness: a run from an empty fake that ends with a FAILED job whose survivors are RUNNING and protected |
| `ClosedLoop.RunKeepsTie` | internal/adapters/fake/fake_ecs_client.go:96-223 | in every closed-loop run the fake and the protocol stay tied: same count, protected survivors, counters agreeing while careful |
| `ScaleInJobs.ScaleInUsecase.StartDrain` | internal/application/usecase/scale_in_usecase.go:106-197 | protection, drain request, roll-back of protection and the marking, in order, for every pattern of failures |
| `ScaleInJobs.ScaleInUsecase.CheckDrain` | internal/application/usecase/scale_in_usecase.go:265-322 | streak, update, record and marking for every observation and failure |
| `ScaleInJobs.ScaleInUsecase.CheckCompletion` | internal/application/usecase/scale_in_usecase.go:326-460 | timeout first, then convergence, task status, deletion, release and completion |
| `ScaleInJobs.ScaleInUsecase.ProcessJob` | internal/application/usecase/scale_in_usecase.go:83-102 | dispatch on the status of the copy |
| `TurnOutcomes.ErrorsAreStored` | internal/application/usecase/scale_in_usecase.go:462-494 | a turn that ends in an error leaves the job FAILED with that error and otherwise as it was |
| `TurnOutcomes.NothingToDrain` | internal/application/usecase/scale_in_usecase.go:106-133 | without a task to drain nothing is called and the job fails |
| `TurnOutcomes.StartOfADrain` | internal/application/usecase/scale_in_usecase.go:135-197 | the calls of a drain's start: the other RUNNING tasks protected if there are any, the drain asked for, and on refusal the same tasks released; DRAINING exactly if both are granted |
| `TurnOutcomes.StepOfADrain` | internal/application/usecase/scale_in_usecase.go:265-322 | what each read of sessions does to the count of zeros; at the third the count is lowered, and only then anything is called |
| `TurnOutcomes.TurnOfAnAppliedJob` | internal/application/usecase/scale_in_usecase.go:326-404 | COMPLETED if and only if in time, settled, STOPPED and cleaned up; untouched if and only if in time and ECS is still at it; else FAILED, and for what |
| `TurnOutcomes.CallsForAnAppliedJob` | internal/application/usecase/scale_in_usecase.go:406-457 | the clean-up deletes the stopped task's report and then releases all other RUNNING tasks |
| `ScaleInJobs.CollectSurvivors` | internal/application/usecase/scale_in_usecase.go:135-146 | every RUNNING task but the target, in order |
| `ScaleInJobs.ScaleInUsecase.ProcessOne` | internal/application/usecase/scale_in_usecase.go:55-78 | one job with the error handling of the pass; other services are left alone |
| `ScaleInJobs.ScaleInUsecase.Process` | internal/application/usecase/scale_in_usecase.go:52-81 | for every walking order of the job map each service ends in the state, and has made the calls, that its own entry and answers determine |
| `ScaleInPasses.PassOrderIsIrrelevant` | internal/application/usecase/scale_in_usecase.go:52-81 | two passes over the same jobs, states and answers, each in any walking order, leave the same job table and policy states and have made the same calls for each service |
| `ScaleInPasses.AppliedTick` | internal/application/usecase/scale_in_usecase.go:344-353 | one tick ends an APPLIED job or leaves it as it is within the timeout |
| `ScaleInPasses.AppliedIsBounded` | internal/application/usecase/scale_in_usecase.go:326-403 | after timeout / interval + 2 undisturbed ticks an APPLIED job is COMPLETED or FAILED whatever ECS answers |
| `ScaleInPasses.AppliedEndsInEveryRun` | internal/application/usecase/scale_in_usecase.go:344-353 | the same in every run of both schedulers, counted in turns of the service |
| `UndisturbedTick.UninterruptedTurnIsTheUseCase` | internal/application/usecase/scale_in_usecase.go:83-102 | the protocol's steps for one job without interruption leave the job and policy state, make the calls in their order, and write the count that `ProcessJob` and `MarkFailed` do |
| `Evaluation.SessionAutoScaling.EvaluateAndScale` | internal/application/usecase/session_auto_scaling_usecase.go:53-184 | policy state, job, asked count and answer of a tick for every pattern of failures; the sweep, complete or cut short, only after a tick without error |
| `Evaluation.SessionAutoScaling.ApplyScalingDecision` | internal/application/usecase/session_auto_scaling_usecase.go:399-482 | a raise asks ECS, a lowering registers a job, nothing else is supported |
| `Evaluation.SessionAutoScaling.RequestScaleIn` | internal/application/usecase/session_auto_scaling_usecase.go:588-620 | the recomputed target, current - 1, is registered unless a job is active |
| `Evaluation.RequestsIff` | internal/application/usecase/session_auto_scaling_usecase.go:105-153 | a tick registers a job if and only if the service is settled, all RUNNING tasks report, their sessions need fewer tasks, the streak is complete, no cooldown runs and no job is active; the job asks for one task less |
| `Evaluation.RaisesIff` | internal/application/usecase/session_auto_scaling_usecase.go:350-397 | a tick asks ECS for a count if and only if the service has settled, needs more tasks, has said so twice before, and neither maximum nor cooldown stands against it; and for how many |
| `Evaluation.AnswerDescribesTheTick` | internal/application/usecase/session_auto_scaling_usecase.go:350-397 | the answer bears the service, the total over usable RUNNING reports and the counts ECS reported, the action, the recommended count, and executed exactly if ECS took a raise |
| `Evaluation.FailuresOfATick` | internal/application/usecase/session_auto_scaling_usecase.go:62-171 | exactly when a tick fails and with what; the time of the last scale-out is set exactly if ECS took a raise |
| `Evaluation.RequestsNeedEveryReport` | internal/application/usecase/session_auto_scaling_usecase.go:138-153 | a tick registers a job only when every RUNNING task has an unexpired report; target selection then succeeds on the same data |
| `Evaluation.RaisesAreJustifiedByAllReports` | internal/application/usecase/session_auto_scaling_usecase.go:399-482 | the count a tick asks for exceeds the current one and is at most what all reports of RUNNING tasks require |
| `Evaluation.OrphansDoNotMatter` | internal/application/usecase/session_auto_scaling_usecase.go:105-123 | a tick does the same whatever orphan reports and expired counts say |
| `Evaluation.UninterruptedTickIsTheUseCase` | internal/application/usecase/session_auto_scaling_usecase.go:53-182 | the protocol's steps for one evaluation without interruption leave what `EvaluateAndScale` leaves |
| `Reachability.AJobCanBeApplied` | internal/application/usecase/scale_in_usecase.go:265-322 | from every fresh process that sees two tasks some run takes a job to APPLIED |

## Left out

- AWS, Redis, SSH and HTTP clients, JSON and ARN handling: only their effect as port answers, or as two maps for Redis, is modelled.
- Handlers, routing, bootstrap, environment parsing, the YAML registry, log files, reason strings and the ECS diagnostics attached to a result.
- Connection pressure, target health, redeploy and observation use cases: stateless tables that would add only easy members. Manual scaling appears as a step that may set the desired count.
- Rounding of floating-point numbers in the required count and the coverage, and the 32-bit width of the counts.
- Mutexes and goroutines as such: each locked section is one step, and reading the clock is part of the call that uses it. The fake's unlocked reads are steps too.
- A time limit for DRAINING, and release of protection after a failed job: the code has neither.
- Update in place through shared pointers: the job table holds values, and a changed job is written back to the table.
- Several services on one fake: its task table and protected set are shared by all services, so the closed loop has one service.
- ProtocolHistory.ExecutionsAreSpaced: over all interleavings, two recorded scale-ins are only claimed to be 60s apart when the later approval follows the earlier record; the exact condition is `RequestSpacing.RequestKeepsCooldownIff`.
- Progress.TheLoopSettles: rounds are whole ticks of the two schedulers in turn; progress of ticks that interrupt each other, or whose calls fail now and then, is not claimed.
- Convergence.ConvergesWithoutOscillation: a write may also leave the count as it is, where an evaluation stalled before its request; `Convergence.IdleIff` says exactly when.
