/**
 * The two descriptions of the scale-in scheduler meet: taking the protocol's steps for one job without interruption,
 * with the answers a tick gets, leaves exactly what `ProcessJob` and the error handling of `Process` leave.
 */
module UndisturbedTick {
  import opened Domain
  import opened ScaleInCoordinator
  import opened ScalingPolicy
  import opened SessionCounts
  import opened Protocol
  import opened ScaleInJobs

  function Acked(ok: bool): Answer {
    if ok then Ack else Failure
  }

  function StartAnswer(status: ScaleInStatus, ans: JobAnswers): Answer {
    match status
    case Requested => if ans.running.Some? then Tasks(ans.running.value) else Failure
    case Draining => if ans.sessions.Some? then Sessions(ans.sessions.value) else Failure
    case Applied => if ans.control.Some? then Control(ans.control.value) else Failure
    case _ => Ack
  }

  function DrainAnswer(p: DrainPoint, ans: JobAnswers): Answer {
    match p
    case HaveRunning(_) => if ans.reports.Some? then Counts(ans.reports.value) else Failure
    case HaveReports(_, _) => if ans.expired.Some? then Invalid(ans.expired.value) else Failure
    case Selected(_, _) => Acked(ans.protects)
    case Guarded(_, _) => Acked(ans.drains)
    case _ => Ack
  }

  function FinishAnswer(p: FinishPoint, ans: JobAnswers): Answer {
    match p
    case Settled => if ans.taskStatus.Some? then TaskStatus(ans.taskStatus.value) else Failure
    case TargetStopped => Acked(ans.deletes)
    case StateDeleted => if ans.remaining.Some? then Tasks(ans.remaining.value) else Failure
    case HaveSurvivors(_) => Acked(ans.releases)
    case Released => Ack
  }

  /** The answer the tick's ports give at the current point. */
  function AnswerAt(job: ScaleInJob, point: Point, ans: JobAnswers): Answer {
    match point
    case Start => StartAnswer(job.status, ans)
    case Starting(p) => DrainAnswer(p, ans)
    case Lowering(p) => if p == Ready then Acked(ans.updates) else Ack
    case Finishing(p) => FinishAnswer(p, ans)
    case Failing(_) => Ack
  }

  ghost predicate CanDrive(s: State) {
    s.pc.Working? && s.pc.job.serviceName in s.services
  }

  ghost function NextStep(s: State, ans: JobAnswers, timeout: Time): State
    requires CanDrive(s)
  {
    AdvanceStep(s, AnswerAt(s.pc.job, s.pc.point, ans), timeout)
  }

  /** Up to `fuel` uninterrupted steps, stopping when the job's turn is over. */
  ghost function Drive(s: State, ans: JobAnswers, timeout: Time, fuel: nat): State
    decreases fuel
  {
    if fuel == 0 || !CanDrive(s) then s else Drive(NextStep(s, ans, timeout), ans, timeout, fuel - 1)
  }

  /** `made`, and the call that changes something outside, if one is made at the current point; what it is answered
      does not matter. */
  function Noted(made: seq<PortCall>, job: ScaleInJob, point: Point): seq<PortCall> {
    var n := job.serviceName;
    match point
    case Starting(Selected(_, survivors)) => made + [Protect(n, survivors, true)]
    case Starting(Guarded(target, _)) => made + [RequestDrain(n, target)]
    case Starting(DrainRefused(survivors)) => made + [Protect(n, survivors, false)]
    case Lowering(Ready) => made + [UpdateDesired(n, job.targetDesiredCount)]
    case Finishing(TargetStopped) => made + [DeleteState(n, job.targetTaskID)]
    case Finishing(HaveSurvivors(survivors)) => made + [Protect(n, survivors, false)]
    case _ => made
  }

  /** `made`, and then the calls of the uninterrupted steps, in order. */
  ghost function CallsMade(s: State, ans: JobAnswers, timeout: Time, fuel: nat, made: seq<PortCall>): seq<PortCall>
    decreases fuel
  {
    if fuel == 0 || !CanDrive(s) then made
    else CallsMade(NextStep(s, ans, timeout), ans, timeout, fuel - 1, Noted(made, s.pc.job, s.pc.point))
  }

  /** What a turn leaves of its service, with the calls made for it. */
  datatype Turn = Turn(entry: Option<ScaleInJob>, policy: PolicyState, calls: seq<PortCall>, desired: int)

  /** The turn, in which `made` was called so far, ends within `fuel` steps as `r` says and leaves the rest alone. */
  ghost predicate EndsWith(s: State, ans: JobAnswers, timeout: Time, fuel: nat, made: seq<PortCall>, r: Turn)
    requires CanDrive(s)
  {
    var n, t := s.pc.job.serviceName, Drive(s, ans, timeout, fuel);
    && t.pc == Looping(s.pc.rest) && t.clock == s.clock
    && n in t.services && t.services == s.services[n := t.services[n]]
    && t.services[n].job == r.entry && t.services[n].policy == r.policy && t.services[n].desired == r.desired
    && CallsMade(s, ans, timeout, fuel, made) == r.calls
  }

  /** One step that keeps the turn going, then the rest. */
  lemma StepThenEnds(s: State, ans: JobAnswers, timeout: Time, fuel: nat, made: seq<PortCall>, r: Turn)
    requires CanDrive(s) && CanDrive(NextStep(s, ans, timeout)) && fuel > 0
    requires var t, n := NextStep(s, ans, timeout), s.pc.job.serviceName;
             && t.pc.job == s.pc.job && t.pc.rest == s.pc.rest && t.clock == s.clock
             && t.services == s.services[n := t.services[n]]
             && EndsWith(t, ans, timeout, fuel - 1, Noted(made, s.pc.job, s.pc.point), r)
    ensures EndsWith(s, ans, timeout, fuel, made, r)
  {
  }

  /** The last step of a turn. */
  lemma StepEnds(s: State, ans: JobAnswers, timeout: Time, fuel: nat, made: seq<PortCall>)
    requires CanDrive(s) && fuel > 0
    requires var t, n := NextStep(s, ans, timeout), s.pc.job.serviceName;
             && t.pc == Looping(s.pc.rest) && t.clock == s.clock
             && n in t.services && t.services == s.services[n := t.services[n]]
    ensures var w := NextStep(s, ans, timeout).services[s.pc.job.serviceName];
            EndsWith(s, ans, timeout, fuel, made, Turn(w.job, w.policy, Noted(made, s.pc.job, s.pc.point), w.desired))
  {
    var t := NextStep(s, ans, timeout);
    assert Drive(t, ans, timeout, fuel - 1) == t;
  }

  function FailedEntry(entry: Option<ScaleInJob>, cause: Error, now: Time): Option<ScaleInJob> {
    if entry.Some? then Some(AsFailed(entry.value, cause, now)) else None
  }

  /** What a turn leaves that fails from `s` with `made` called. */
  ghost function FailedTurn(s: State, cause: Error, made: seq<PortCall>): Turn
    requires CanDrive(s)
  {
    var v := s.services[s.pc.job.serviceName];
    Turn(FailedEntry(v.job, cause, s.clock), v.policy, made, v.desired)
  }

  lemma FailingEnds(s: State, ans: JobAnswers, timeout: Time, fuel: nat, made: seq<PortCall>)
    requires CanDrive(s) && s.pc.point.Failing? && fuel > 0
    ensures EndsWith(s, ans, timeout, fuel, made, FailedTurn(s, s.pc.point.cause, made))
  {
    StepEnds(s, ans, timeout, fuel, made);
  }

  /** A step that fails, then `MarkFailed`. */
  lemma FailsThenEnds(s: State, ans: JobAnswers, timeout: Time, fuel: nat, made: seq<PortCall>, cause: Error)
    requires CanDrive(s) && fuel > 1 && NextStep(s, ans, timeout) == Fail(s, cause)
    ensures EndsWith(s, ans, timeout, fuel, made, FailedTurn(s, cause, Noted(made, s.pc.job, s.pc.point)))
  {
    var calls := Noted(made, s.pc.job, s.pc.point);
    FailingEnds(Fail(s, cause), ans, timeout, fuel - 1, calls);
    StepThenEnds(s, ans, timeout, fuel, made, FailedTurn(s, cause, calls));
  }

  /** The count after the calls of a turn: an update is the last of them. */
  function LoweredTo(desired: int, calls: seq<PortCall>, updates: bool): int {
    if updates && calls != [] && calls[|calls| - 1].UpdateDesired? then calls[|calls| - 1].desired else desired
  }

  /** What the use case makes of the job at hand, from the stored entry, in one go. */
  ghost function WholeTurn(s: State, ans: JobAnswers, timeout: Time): Turn
    requires CanDrive(s)
  {
    var v := s.services[s.pc.job.serviceName];
    var r := Processed(v.job, v.policy, s.pc.job, ans, timeout, s.clock);
    Turn(r.entry, r.policy, r.calls, LoweredTo(v.desired, r.calls, ans.updates))
  }

  /** From here, with `made` called so far, the turn ends as the use case says. */
  ghost predicate EndsAsUseCase(s: State, ans: JobAnswers, timeout: Time, fuel: nat, made: seq<PortCall>)
    requires CanDrive(s)
  {
    EndsWith(s, ans, timeout, fuel, made, WholeTurn(s, ans, timeout))
  }

  // `startDrain`

  lemma DrainRefusedEnds(s: State, ans: JobAnswers, timeout: Time, made: seq<PortCall>)
    requires CanDrive(s) && s.pc.point.Starting? && s.pc.point.drain.DrainRefused?
    ensures EndsWith(s, ans, timeout, 2, made, FailedTurn(s, PortFailure, Noted(made, s.pc.job, s.pc.point)))
  {
    FailsThenEnds(s, ans, timeout, 2, made, PortFailure);
  }

  lemma DrainSentEnds(s: State, ans: JobAnswers, timeout: Time, made: seq<PortCall>)
    requires CanDrive(s) && s.pc.point.Starting? && s.pc.point.drain.DrainSent?
    ensures var v, p := s.services[s.pc.job.serviceName], s.pc.point.drain;
            var outcome := DrainingOutcome(v.job, p.target);
            EndsWith(s, ans, timeout, 2, made,
                     if outcome.Done?
                     then Turn(Some(AsDraining(v.job.value, p.target, p.survivors, s.clock)), v.policy, made, v.desired)
                     else FailedTurn(s, outcome.error, made))
  {
    var v, p := s.services[s.pc.job.serviceName], s.pc.point.drain;
    var outcome := DrainingOutcome(v.job, p.target);
    if outcome.Done? {
      StepEnds(s, ans, timeout, 2, made);
    } else {
      FailsThenEnds(s, ans, timeout, 2, made, outcome.error);
    }
  }

  ghost predicate Chose(s: State, ans: JobAnswers, target: TaskID, survivors: seq<TaskID>)
    requires CanDrive(s)
  {
    && s.pc.job.status.Requested?
    && ans.running.Some? && ans.reports.Some? && ans.expired.Some?
    && SelectTarget(ans.running.value, ans.reports.value, ans.expired.value).Some?
    && target == SelectTarget(ans.running.value, ans.reports.value, ans.expired.value).value.taskID
    && survivors == Survivors(ans.running.value, target)
  }

  function GuardCalls(job: ScaleInJob, survivors: seq<TaskID>): seq<PortCall> {
    if survivors == [] then [] else [Protect(job.serviceName, survivors, true)]
  }

  lemma GuardedEnds(s: State, ans: JobAnswers, timeout: Time, made: seq<PortCall>)
    requires CanDrive(s) && s.pc.point.Starting? && s.pc.point.drain.Guarded?
    requires Chose(s, ans, s.pc.point.drain.target, s.pc.point.drain.survivors)
    requires s.pc.point.drain.survivors != [] ==> ans.protects
    requires made == GuardCalls(s.pc.job, s.pc.point.drain.survivors)
    ensures EndsAsUseCase(s, ans, timeout, 3, made)
  {
    hide Drive, CallsMade;
    var p, r := s.pc.point.drain, WholeTurn(s, ans, timeout);
    var asked := Noted(made, s.pc.job, s.pc.point);
    if ans.drains {
      DrainSentEnds(NextStep(s, ans, timeout), ans, timeout, asked);
      StepThenEnds(s, ans, timeout, 3, made, r);
    } else if p.survivors == [] {
      FailsThenEnds(s, ans, timeout, 3, made, PortFailure);
    } else {
      DrainRefusedEnds(NextStep(s, ans, timeout), ans, timeout, asked);
      StepThenEnds(s, ans, timeout, 3, made, r);
    }
  }

  lemma SelectedEnds(s: State, ans: JobAnswers, timeout: Time)
    requires CanDrive(s) && s.pc.point.Starting? && s.pc.point.drain.Selected?
    requires Chose(s, ans, s.pc.point.drain.target, s.pc.point.drain.survivors) && s.pc.point.drain.survivors != []
    ensures EndsAsUseCase(s, ans, timeout, 4, [])
  {
    hide Drive, CallsMade;
    var r := WholeTurn(s, ans, timeout);
    assert Noted([], s.pc.job, s.pc.point) == GuardCalls(s.pc.job, s.pc.point.drain.survivors);
    if ans.protects {
      GuardedEnds(NextStep(s, ans, timeout), ans, timeout, Noted([], s.pc.job, s.pc.point));
      StepThenEnds(s, ans, timeout, 4, [], r);
    } else {
      FailsThenEnds(s, ans, timeout, 4, [], PortFailure);
    }
  }

  lemma MoreFuel(s: State, ans: JobAnswers, timeout: Time, fuel: nat, made: seq<PortCall>, r: Turn)
    requires CanDrive(s) && EndsWith(s, ans, timeout, fuel, made, r)
    ensures EndsWith(s, ans, timeout, fuel + 1, made, r)
  {
    DriveStops(s, ans, timeout, fuel, made);
  }

  lemma {:induction false} DriveStops(s: State, ans: JobAnswers, timeout: Time, fuel: nat, made: seq<PortCall>)
    requires !CanDrive(Drive(s, ans, timeout, fuel))
    ensures Drive(s, ans, timeout, fuel + 1) == Drive(s, ans, timeout, fuel)
    ensures CallsMade(s, ans, timeout, fuel + 1, made) == CallsMade(s, ans, timeout, fuel, made)
    decreases fuel
  {
    if fuel > 0 && CanDrive(s) {
      DriveStops(NextStep(s, ans, timeout), ans, timeout, fuel - 1, Noted(made, s.pc.job, s.pc.point));
    }
  }

  lemma HaveReportsEnds(s: State, ans: JobAnswers, timeout: Time)
    requires CanDrive(s) && s.pc.point.Starting? && s.pc.point.drain.HaveReports? && s.pc.job.status.Requested?
    requires ans.running == Some(s.pc.point.drain.running) && ans.reports == Some(s.pc.point.drain.reports)
    ensures EndsAsUseCase(s, ans, timeout, 5, [])
  {
    hide Drive, CallsMade;
    var p, r := s.pc.point.drain, WholeTurn(s, ans, timeout);
    if ans.expired.None? {
      FailsThenEnds(s, ans, timeout, 5, [], PortFailure);
    } else {
      var selected := SelectTarget(p.running, p.reports, ans.expired.value);
      if selected.None? {
        FailsThenEnds(s, ans, timeout, 5, [], NoEligibleTarget);
      } else {
        var t := NextStep(s, ans, timeout);
        if Survivors(p.running, selected.value.taskID) == [] {
          GuardedEnds(t, ans, timeout, []);
          MoreFuel(t, ans, timeout, 3, [], r);
        } else {
          SelectedEnds(t, ans, timeout);
        }
        StepThenEnds(s, ans, timeout, 5, [], r);
      }
    }
  }

  lemma StartDrainEnds(s: State, ans: JobAnswers, timeout: Time)
    requires CanDrive(s) && s.pc.point.Start? && s.pc.job.status.Requested?
    ensures EndsAsUseCase(s, ans, timeout, 7, [])
  {
    hide Drive, CallsMade;
    var r := WholeTurn(s, ans, timeout);
    if ans.running.None? {
      FailsThenEnds(s, ans, timeout, 7, [], PortFailure);
    } else {
      var t := NextStep(s, ans, timeout);
      if ans.reports.None? {
        FailsThenEnds(t, ans, timeout, 6, [], PortFailure);
      } else {
        HaveReportsEnds(NextStep(t, ans, timeout), ans, timeout);
        StepThenEnds(t, ans, timeout, 6, [], r);
      }
      StepThenEnds(s, ans, timeout, 7, [], r);
    }
  }

  // `checkDrain`

  lemma RecordedEnds(s: State, ans: JobAnswers, timeout: Time, made: seq<PortCall>)
    requires CanDrive(s) && s.pc.point == Lowering(Recorded)
    ensures var v := s.services[s.pc.job.serviceName];
            var outcome := AppliedOutcome(v.job);
            EndsWith(s, ans, timeout, 2, made,
                     if outcome.Done? then Turn(Some(AsApplied(v.job.value, s.clock)), v.policy, made, v.desired)
                     else FailedTurn(s, outcome.error, made))
  {
    var v := s.services[s.pc.job.serviceName];
    if AppliedOutcome(v.job).Done? {
      StepEnds(s, ans, timeout, 2, made);
    } else {
      FailsThenEnds(s, ans, timeout, 2, made, AppliedOutcome(v.job).error);
    }
  }

  lemma ReadyEnds(s: State, ans: JobAnswers, timeout: Time)
    requires CanDrive(s) && s.pc.point == Lowering(Ready)
    requires s.services[s.pc.job.serviceName].job.Some?
    ensures var v, calls := s.services[s.pc.job.serviceName], Noted([], s.pc.job, s.pc.point);
            var outcome := AppliedOutcome(v.job);
            EndsWith(s, ans, timeout, 4, [],
                     if !ans.updates then FailedTurn(s, PortFailure, calls)
                     else Turn(if outcome.Done? then Some(AsApplied(v.job.value, s.clock))
                               else FailedEntry(v.job, outcome.error, s.clock),
                               Record(v.policy, ScaleIn, s.clock), calls, s.pc.job.targetDesiredCount))
  {
    var v, calls := s.services[s.pc.job.serviceName], Noted([], s.pc.job, s.pc.point);
    var outcome := AppliedOutcome(v.job);
    var t := NextStep(s, ans, timeout);
    if ans.updates {
      var entry := if outcome.Done? then Some(AsApplied(v.job.value, s.clock))
                   else FailedEntry(v.job, outcome.error, s.clock);
      var r := Turn(entry, Record(v.policy, ScaleIn, s.clock), calls, s.pc.job.targetDesiredCount);
      RecordedEnds(NextStep(t, ans, timeout), ans, timeout, calls);
      StepThenEnds(t, ans, timeout, 3, calls, r);
      StepThenEnds(s, ans, timeout, 4, [], r);
    } else {
      FailingEnds(t, ans, timeout, 3, calls);
      StepThenEnds(s, ans, timeout, 4, [], FailedTurn(s, PortFailure, calls));
    }
  }

  /** Once the count has been read: with `entry` and `policy` as the use case leaves them. */
  lemma SawNoneEnds(s: State, ans: JobAnswers, timeout: Time)
    requires CanDrive(s) && s.pc.point == Lowering(SawNone) && s.pc.job.status.Draining?
    requires ans.sessions.Some? && ans.sessions.value <= 0
    ensures EndsAsUseCase(s, ans, timeout, 5, [])
  {
    hide Drive, CallsMade;
    var v, r := s.services[s.pc.job.serviceName], WholeTurn(s, ans, timeout);
    if v.job.None? {
      FailsThenEnds(s, ans, timeout, 5, [], JobNotFound);
    } else {
      var t := NextStep(s, ans, timeout);
      if v.job.value.zeroSessionStreak + 1 < 3 {
        StepEnds(s, ans, timeout, 5, []);
      } else {
        ReadyEnds(t, ans, timeout);
        StepThenEnds(s, ans, timeout, 5, [], r);
      }
    }
  }

  lemma SawSessionsEnds(s: State, ans: JobAnswers, timeout: Time)
    requires CanDrive(s) && s.pc.point == Lowering(SawSessions) && s.pc.job.status.Draining?
    requires ans.sessions.Some? && ans.sessions.value > 0
    ensures EndsAsUseCase(s, ans, timeout, 5, [])
  {
    if s.services[s.pc.job.serviceName].job.None? {
      FailsThenEnds(s, ans, timeout, 5, [], JobNotFound);
    } else {
      var t := NextStep(s, ans, timeout);
      StepEnds(s, ans, timeout, 5, []);
    }
  }

  lemma CheckDrainEnds(s: State, ans: JobAnswers, timeout: Time)
    requires CanDrive(s) && s.pc.point.Start? && s.pc.job.status.Draining?
    ensures EndsAsUseCase(s, ans, timeout, 6, [])
  {
    hide Drive, CallsMade;
    var r := WholeTurn(s, ans, timeout);
    if ans.sessions.None? {
      FailsThenEnds(s, ans, timeout, 6, [], PortFailure);
    } else {
      var t := NextStep(s, ans, timeout);
      if ans.sessions.value > 0 {
        SawSessionsEnds(t, ans, timeout);
      } else {
        SawNoneEnds(t, ans, timeout);
      }
      StepThenEnds(s, ans, timeout, 6, [], r);
    }
  }

  // `checkCompletion`

  lemma ReleasedEnds(s: State, ans: JobAnswers, timeout: Time, made: seq<PortCall>)
    requires CanDrive(s) && s.pc.point == Finishing(Released)
    ensures var v := s.services[s.pc.job.serviceName];
            var outcome := CompleteOutcome(v.job);
            EndsWith(s, ans, timeout, 2, made,
                     if outcome.Done? then Turn(Some(AsCompleted(v.job.value, s.clock)), v.policy, made, v.desired)
                     else FailedTurn(s, outcome.error, made))
  {
    var v := s.services[s.pc.job.serviceName];
    if CompleteOutcome(v.job).Done? {
      StepEnds(s, ans, timeout, 2, made);
    } else {
      FailsThenEnds(s, ans, timeout, 2, made, CompleteOutcome(v.job).error);
    }
  }

  /** The job is APPLIED, in time, the service has settled and the target is STOPPED. */
  ghost predicate InTime(s: State, ans: JobAnswers, timeout: Time)
    requires CanDrive(s)
  {
    && s.pc.job.status.Applied? && s.pc.job.appliedAt != 0 && s.clock - s.pc.job.appliedAt <= Timeout(timeout)
    && ans.control.Some? && ans.control.value.pendingCount <= 0
    && ans.control.value.runningCount == ans.control.value.desiredCount
  }

  lemma StateDeletedEnds(s: State, ans: JobAnswers, timeout: Time, made: seq<PortCall>)
    requires CanDrive(s) && s.pc.point == Finishing(StateDeleted) && InTime(s, ans, timeout)
    requires ans.taskStatus == Some("STOPPED") && ans.deletes
    requires made == [DeleteState(s.pc.job.serviceName, s.pc.job.targetTaskID)]
    ensures EndsAsUseCase(s, ans, timeout, 4, made)
  {
    hide Drive, CallsMade;
    var r := WholeTurn(s, ans, timeout);
    if ans.remaining.None? {
      FailsThenEnds(s, ans, timeout, 4, made, PortFailure);
    } else {
      var t := NextStep(s, ans, timeout);
      if ans.releases {
        ReleasedEnds(NextStep(t, ans, timeout), ans, timeout, Noted(made, t.pc.job, t.pc.point));
        StepThenEnds(t, ans, timeout, 3, made, r);
      } else {
        FailsThenEnds(t, ans, timeout, 3, made, PortFailure);
      }
      StepThenEnds(s, ans, timeout, 4, made, r);
    }
  }

  lemma SettledEnds(s: State, ans: JobAnswers, timeout: Time)
    requires CanDrive(s) && s.pc.point == Finishing(Settled) && InTime(s, ans, timeout)
    ensures EndsAsUseCase(s, ans, timeout, 6, [])
  {
    hide Drive, CallsMade;
    var r := WholeTurn(s, ans, timeout);
    var t := NextStep(s, ans, timeout);
    if ans.taskStatus.None? {
      FailsThenEnds(s, ans, timeout, 6, [], PortFailure);
    } else if IsStopping(ans.taskStatus.value) {
      StepEnds(s, ans, timeout, 6, []);
    } else if ans.taskStatus.value != "STOPPED" {
      FailsThenEnds(s, ans, timeout, 6, [], InvalidTaskStatus);
    } else {
      if ans.deletes {
        StateDeletedEnds(NextStep(t, ans, timeout), ans, timeout, Noted([], t.pc.job, t.pc.point));
        StepThenEnds(t, ans, timeout, 5, [], r);
      } else {
        FailsThenEnds(t, ans, timeout, 5, [], PortFailure);
      }
      StepThenEnds(s, ans, timeout, 6, [], r);
    }
  }

  lemma CheckCompletionEnds(s: State, ans: JobAnswers, timeout: Time)
    requires CanDrive(s) && s.pc.point.Start? && s.pc.job.status.Applied?
    ensures EndsAsUseCase(s, ans, timeout, 7, [])
  {
    hide Drive, CallsMade;
    var r, job := WholeTurn(s, ans, timeout), s.pc.job;
    var t := NextStep(s, ans, timeout);
    if job.appliedAt == 0 {
      FailsThenEnds(s, ans, timeout, 7, [], AppliedTimeEmpty);
    } else if s.clock - job.appliedAt > Timeout(timeout) {
      FailsThenEnds(s, ans, timeout, 7, [], CompletionTimeout);
    } else if ans.control.None? {
      FailsThenEnds(s, ans, timeout, 7, [], PortFailure);
    } else if InTime(s, ans, timeout) {
      SettledEnds(t, ans, timeout);
      StepThenEnds(s, ans, timeout, 7, [], r);
    } else {
      StepEnds(s, ans, timeout, 7, []);
    }
  }

  /** A turn nobody interrupts is the use case: the protocol's steps for one active job, driven by a tick's answers,
      end within seven steps with the entry and the policy state that `ProcessJob` and `MarkFailed` leave, having made
      the same calls in the same order and written the count if the update went through; no other service changes. */
  lemma UninterruptedTurnIsTheUseCase(s: State, ans: JobAnswers, timeout: Time)
    requires CanDrive(s) && s.pc.point.Start? && IsActive(s.pc.job.status)
    ensures EndsAsUseCase(s, ans, timeout, 7, [])
  {
    match s.pc.job.status
    case Requested => StartDrainEnds(s, ans, timeout);
    case Draining =>
      CheckDrainEnds(s, ans, timeout);
      MoreFuel(s, ans, timeout, 6, [], WholeTurn(s, ans, timeout));
    case Applied => CheckCompletionEnds(s, ans, timeout);
  }

  lemma ScriptedAnswersFit(s: State, ans: JobAnswers)
    requires CanDrive(s)
    ensures Fits(s.pc, AnswerAt(s.pc.job, s.pc.point, ans))
  {
  }

  /** The scale-in scheduler's steps retire and rename no job and leave every evaluation where it is. */
  ghost predicate LeavesEvaluations(s: State, t: State) {
    && t.past == s.past && t.services.Keys == s.services.Keys
    && forall n :: n in s.services ==>
         && t.services[n].eval == s.services[n].eval && t.services[n].ecsService == s.services[n].ecsService
         && (t.services[n].job.Some? ==>
               && s.services[n].job.Some?
               && t.services[n].job.value.serviceName == s.services[n].job.value.serviceName)
  }

  lemma {:induction false} DriveLeavesEvaluations(s: State, ans: JobAnswers, timeout: Time, fuel: nat)
    ensures LeavesEvaluations(s, Drive(s, ans, timeout, fuel))
    decreases fuel
  {
    if fuel > 0 && CanDrive(s) {
      hide AnswerAt, Fits, StartStep, DrainStep, LowerStep, CompletionStep, FailStep;
      var a := AnswerAt(s.pc.job, s.pc.point, ans);
      ScriptedAnswersFit(s, ans);
      match s.pc.point {
        case Start => StartingLeavesEvaluations(s, a, timeout);
        case Starting(_) => DrainingLeavesEvaluations(s, a);
        case Lowering(_) => LoweringLeavesEvaluations(s, a);
        case _ => FinishingLeavesEvaluations(s, a);
      }
      DriveLeavesEvaluations(NextStep(s, ans, timeout), ans, timeout, fuel - 1);
    }
  }

  lemma StartingLeavesEvaluations(s: State, a: Answer, timeout: Time)
    requires CanDrive(s) && Fits(s.pc, a) && s.pc.point.Start?
    ensures LeavesEvaluations(s, StartStep(s, a, timeout))
  {
  }

  lemma DrainingLeavesEvaluations(s: State, a: Answer)
    requires CanDrive(s) && Fits(s.pc, a) && s.pc.point.Starting?
    ensures LeavesEvaluations(s, DrainStep(s, a))
  {
  }

  lemma LoweringLeavesEvaluations(s: State, a: Answer)
    requires CanDrive(s) && Fits(s.pc, a) && s.pc.point.Lowering?
    ensures LeavesEvaluations(s, LowerStep(s, a))
  {
  }

  lemma FinishingLeavesEvaluations(s: State, a: Answer)
    requires CanDrive(s) && Fits(s.pc, a)
    ensures s.pc.point.Finishing? ==> LeavesEvaluations(s, CompletionStep(s, a))
    ensures s.pc.point.Failing? ==> LeavesEvaluations(s, FailStep(s))
  {
  }
}
