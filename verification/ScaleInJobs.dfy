/** The scale-in use case: one pass over the active jobs, each taken one step further with whatever the ports answer. */
module ScaleInJobs {
  import opened Domain
  import opened ScaleInCoordinator
  import opened ScalingPolicy
  import opened SessionCounts
  import opened Protocol

  /** What the ports answer while one job is processed; `None` and `false` are errors. */
  datatype JobAnswers = JobAnswers(
    running: Option<seq<TaskID>>,
    reports: Option<Reports>,
    expired: Option<set<TaskID>>,
    protects: bool,
    drains: bool,
    sessions: Option<int>,
    updates: bool,
    control: Option<ControlState>,
    taskStatus: Option<string>,
    deletes: bool,
    remaining: Option<seq<TaskID>>,
    releases: bool)

  /** The calls that reach out to change something. */
  datatype PortCall =
    | Protect(service: string, tasks: seq<TaskID>, flag: bool)
    | RequestDrain(service: string, task: TaskID)
    | UpdateDesired(service: string, desired: int)
    | DeleteState(service: string, task: TaskID)

  /** What processing one job leaves behind. */
  datatype JobRun = JobRun(entry: Option<ScaleInJob>, policy: PolicyState, calls: seq<PortCall>, error: Option<Error>)

  function MarkedEntry(entry: Option<ScaleInJob>, outcome: Outcome, after: ScaleInJob): Option<ScaleInJob> {
    if outcome.Done? then Some(after) else entry
  }

  function ErrorOf(outcome: Outcome): Option<Error> {
    if outcome.Done? then None else Some(outcome.error)
  }

  function StartDrainRun(entry: Option<ScaleInJob>, p: PolicyState, job: ScaleInJob, ans: JobAnswers, now: Time): JobRun
  {
    if ans.running.None? || ans.reports.None? || ans.expired.None? then JobRun(entry, p, [], Some(PortFailure))
    else
      var selected := SelectTarget(ans.running.value, ans.reports.value, ans.expired.value);
      if selected.None? then JobRun(entry, p, [], Some(NoEligibleTarget))
      else
        var target := selected.value.taskID;
        var survivors := Survivors(ans.running.value, target);
        var guarded := if survivors == [] then [] else [Protect(job.serviceName, survivors, true)];
        if survivors != [] && !ans.protects then JobRun(entry, p, guarded, Some(PortFailure))
        else
          var asked := guarded + [RequestDrain(job.serviceName, target)];
          if !ans.drains then
            JobRun(entry, p, asked + (if survivors == [] then [] else [Protect(job.serviceName, survivors, false)]),
                   Some(PortFailure))
          else
            var outcome := DrainingOutcome(entry, target);
            var after := if entry.Some? then AsDraining(entry.value, target, survivors, now) else job;
            JobRun(MarkedEntry(entry, outcome, after), p, asked, ErrorOf(outcome))
  }

  function CheckDrainRun(entry: Option<ScaleInJob>, p: PolicyState, job: ScaleInJob, ans: JobAnswers, now: Time): JobRun
  {
    if ans.sessions.None? then JobRun(entry, p, [], Some(PortFailure))
    else if entry.None? then JobRun(entry, p, [], Some(JobNotFound))
    else if ans.sessions.value > 0 then JobRun(Some(WithStreak(entry.value, 0, now)), p, [], None)
    else
      var counted := WithStreak(entry.value, entry.value.zeroSessionStreak + 1, now);
      if counted.zeroSessionStreak < 3 then JobRun(Some(counted), p, [], None)
      else
        var asked := [UpdateDesired(job.serviceName, job.targetDesiredCount)];
        if !ans.updates then JobRun(Some(counted), p, asked, Some(PortFailure))
        else
          var outcome := AppliedOutcome(Some(counted));
          JobRun(MarkedEntry(Some(counted), outcome, AsApplied(counted, now)), Record(p, ScaleIn, now), asked,
                 ErrorOf(outcome))
  }

  function CheckCompletionRun(entry: Option<ScaleInJob>, p: PolicyState, job: ScaleInJob, ans: JobAnswers,
                              timeout: Time, now: Time): JobRun {
    if job.appliedAt == 0 then JobRun(entry, p, [], Some(AppliedTimeEmpty))
    else if now - job.appliedAt > Timeout(timeout) then JobRun(entry, p, [], Some(CompletionTimeout))
    else if ans.control.None? then JobRun(entry, p, [], Some(PortFailure))
    else if ans.control.value.pendingCount > 0 || ans.control.value.runningCount != ans.control.value.desiredCount then
      JobRun(entry, p, [], None)
    else if ans.taskStatus.None? then JobRun(entry, p, [], Some(PortFailure))
    else if IsStopping(ans.taskStatus.value) then JobRun(entry, p, [], None)
    else if ans.taskStatus.value != "STOPPED" then JobRun(entry, p, [], Some(InvalidTaskStatus))
    else
      var deleted := [DeleteState(job.serviceName, job.targetTaskID)];
      if !ans.deletes || ans.remaining.None? then JobRun(entry, p, deleted, Some(PortFailure))
      else
        var freed := deleted + [Protect(job.serviceName, Survivors(ans.remaining.value, job.targetTaskID), false)];
        if !ans.releases then JobRun(entry, p, freed, Some(PortFailure))
        else
          var outcome := CompleteOutcome(entry);
          JobRun(MarkedEntry(entry, outcome, if entry.Some? then AsCompleted(entry.value, now) else job), p, freed,
                 ErrorOf(outcome))
  }

  predicate IsStopping(status: string) {
    status == "DEACTIVATING" || status == "STOPPING" || status == "RUNNING"
  }

  function JobRunOf(entry: Option<ScaleInJob>, p: PolicyState, job: ScaleInJob, ans: JobAnswers, timeout: Time,
                    now: Time): JobRun
  {
    match job.status
    case Requested => StartDrainRun(entry, p, job, ans, now)
    case Draining => CheckDrainRun(entry, p, job, ans, now)
    case Applied => CheckCompletionRun(entry, p, job, ans, timeout, now)
    case _ => JobRun(entry, p, [], None)
  }

  /** The same with `Process`'s handling of an error: the stored job, if any, is marked failed. */
  function Processed(entry: Option<ScaleInJob>, p: PolicyState, job: ScaleInJob, ans: JobAnswers, timeout: Time,
                     now: Time): JobRun
  {
    var r := JobRunOf(entry, p, job, ans, timeout, now);
    if r.error.Some? && r.entry.Some? then r.(entry := Some(AsFailed(r.entry.value, r.error.value, now))) else r
  }

  /** The port calls made for one service, in order. */
  function CallsOf(calls: seq<PortCall>, service: string): seq<PortCall> {
    if calls == [] then []
    else
      var last := calls[|calls| - 1];
      CallsOf(calls[..|calls| - 1], service) + (if last.service == service then [last] else [])
  }

  lemma {:induction false} CallsOfConcat(a: seq<PortCall>, b: seq<PortCall>, service: string)
    ensures CallsOf(a + b, service) == CallsOf(a, service) + CallsOf(b, service)
  {
    if b == [] {
      assert a + b == a;
    } else {
      CallsOfConcat(a, b[..|b| - 1], service);
      assert (a + b)[..|a + b| - 1] == a + b[..|b| - 1];
    }
  }

  lemma {:induction false} CallsOfOne(calls: seq<PortCall>, service: string, other: string)
    requires forall c :: c in calls ==> c.service == service
    ensures CallsOf(calls, other) == if other == service then calls else []
  {
    if calls != [] {
      CallsOfOne(calls[..|calls| - 1], service, other);
      assert calls == calls[..|calls| - 1] + [calls[|calls| - 1]];
    }
  }

  lemma RunCallsAreOwn(entry: Option<ScaleInJob>, p: PolicyState, job: ScaleInJob, ans: JobAnswers, timeout: Time,
                       now: Time)
    ensures forall c :: c in JobRunOf(entry, p, job, ans, timeout, now).calls ==> c.service == job.serviceName
  {
  }

  /** The loop `startDrain` and `checkCompletion` share: every RUNNING task but the target, in order. */
  method CollectSurvivors(running: seq<TaskID>, target: TaskID) returns (survivors: seq<TaskID>)
    ensures survivors == Survivors(running, target)
  {
    survivors := [];
    for i := 0 to |running|
      invariant survivors == Survivors(running[..i], target)
    {
      FilterStep(running, i, t => t != target);
      if running[i] == target { continue; }
      survivors := survivors + [running[i]];
    }
    assert running[..|running|] == running;
  }

  class ScaleInUsecase {
    const scalingPolicy: Policy
    const coordinator: Coordinator
    const timeout: Time
    var calls: seq<PortCall>

    constructor (scalingPolicy: Policy, coordinator: Coordinator, timeout: Time)
      ensures this.scalingPolicy == scalingPolicy && this.coordinator == coordinator && this.timeout == timeout
      ensures calls == []
    {
      this.scalingPolicy, this.coordinator, this.timeout, calls := scalingPolicy, coordinator, timeout, [];
    }

    /** `r` is what has happened to `service` between two states; the other services are as they were. */
    twostate predicate Did(service: string, r: JobRun)
      reads this, coordinator, scalingPolicy
    {
      && coordinator.Entry(service) == r.entry
      && (forall s :: s != service ==> coordinator.Entry(s) == old(coordinator.Entry(s)))
      && scalingPolicy.StateOf(service) == r.policy
      && (forall s :: s != service ==> scalingPolicy.StateOf(s) == old(scalingPolicy.StateOf(s)))
      && calls == old(calls) + r.calls
    }

    method StartDrain(job: ScaleInJob, ans: JobAnswers, now: Time) returns (err: Option<Error>)
      requires coordinator.Valid()
      modifies this`calls, coordinator
      ensures coordinator.Valid()
      ensures var r := StartDrainRun(old(coordinator.Entry(job.serviceName)),
                                     old(scalingPolicy.StateOf(job.serviceName)), job, ans, now);
              Did(job.serviceName, r) && err == r.error
    {
      if ans.running.None? { return Some(PortFailure); }
      var running := ans.running.value;
      if ans.reports.None? { return Some(PortFailure); }
      if ans.expired.None? { return Some(PortFailure); }
      var selected := SelectScaleInTarget(running, ans.reports.value, ans.expired.value);
      if selected.Err? { return Some(selected.error); }
      var target := selected.value.taskID;
      var survivors := CollectSurvivors(running, target);
      if |survivors| > 0 {
        calls := calls + [Protect(job.serviceName, survivors, true)];
        if !ans.protects { return Some(PortFailure); }
      }
      calls := calls + [RequestDrain(job.serviceName, target)];
      if !ans.drains {
        if |survivors| > 0 {
          calls := calls + [Protect(job.serviceName, survivors, false)];
        }
        return Some(PortFailure);
      }
      var outcome := coordinator.MarkDraining(job.serviceName, target, survivors, now);
      err := ErrorOf(outcome);
    }

    method CheckDrain(job: ScaleInJob, ans: JobAnswers, now: Time) returns (err: Option<Error>)
      requires coordinator.Valid()
      modifies this`calls, coordinator, scalingPolicy
      ensures coordinator.Valid()
      ensures var r := CheckDrainRun(old(coordinator.Entry(job.serviceName)),
                                     old(scalingPolicy.StateOf(job.serviceName)), job, ans, now);
              Did(job.serviceName, r) && err == r.error
    {
      if ans.sessions.None? { return Some(PortFailure); }
      if ans.sessions.value > 0 {
        var reset := coordinator.ResetZeroSessionStreak(job.serviceName, now);
        return ErrorOf(reset);
      }
      var streak, counted := coordinator.IncreaseZeroSessionStreak(job.serviceName, now);
      if counted.Refused? { return Some(counted.error); }
      if streak < 3 { return None; }
      calls := calls + [UpdateDesired(job.serviceName, job.targetDesiredCount)];
      if !ans.updates { return Some(PortFailure); }
      scalingPolicy.RecordExecution(job.serviceName, ScaleIn, now);
      var outcome := coordinator.MarkApplied(job.serviceName, now);
      err := ErrorOf(outcome);
    }

    method CheckCompletion(job: ScaleInJob, ans: JobAnswers, now: Time) returns (err: Option<Error>)
      requires coordinator.Valid()
      modifies this`calls, coordinator
      ensures coordinator.Valid()
      ensures var r := CheckCompletionRun(old(coordinator.Entry(job.serviceName)),
                                          old(scalingPolicy.StateOf(job.serviceName)), job, ans, timeout, now);
              Did(job.serviceName, r) && err == r.error
    {
      if job.appliedAt == 0 { return Some(AppliedTimeEmpty); }
      var limit := timeout;
      if limit <= 0 {
        limit := APPLIED_TIMEOUT_DEFAULT;
      }
      if now - job.appliedAt > limit { return Some(CompletionTimeout); }
      if ans.control.None? { return Some(PortFailure); }
      var ecs := ans.control.value;
      if ecs.pendingCount > 0 || ecs.runningCount != ecs.desiredCount { return None; }
      if ans.taskStatus.None? { return Some(PortFailure); }
      var status := ans.taskStatus.value;
      if IsStopping(status) { return None; }
      if status != "STOPPED" { return Some(InvalidTaskStatus); }
      calls := calls + [DeleteState(job.serviceName, job.targetTaskID)];
      if !ans.deletes { return Some(PortFailure); }
      if ans.remaining.None? { return Some(PortFailure); }
      var running := ans.remaining.value;
      var survivors := CollectSurvivors(running, job.targetTaskID);
      calls := calls + [Protect(job.serviceName, survivors, false)];
      if !ans.releases { return Some(PortFailure); }
      var outcome := coordinator.Complete(job.serviceName, now);
      err := ErrorOf(outcome);
    }

    method ProcessJob(job: ScaleInJob, ans: JobAnswers, now: Time) returns (err: Option<Error>)
      requires coordinator.Valid()
      modifies this`calls, coordinator, scalingPolicy
      ensures coordinator.Valid()
      ensures var r := JobRunOf(old(coordinator.Entry(job.serviceName)),
                                old(scalingPolicy.StateOf(job.serviceName)), job, ans, timeout, now);
              Did(job.serviceName, r) && err == r.error
    {
      match job.status
      case Requested => err := StartDrain(job, ans, now);
      case Draining => err := CheckDrain(job, ans, now);
      case Applied => err := CheckCompletion(job, ans, now);
      case _ => err := None;
    }

    /** What a pass leaves of one service that had `entry`, policy state `p` and had made calls `made` before it. */
    ghost predicate Left(service: string, entry: Option<ScaleInJob>, p: PolicyState, made: seq<PortCall>,
                         ans: JobAnswers, now: Time)
      reads this, coordinator, scalingPolicy
    {
      var r := if entry.Some? && IsActive(entry.value.status) then Processed(entry, p, entry.value, ans, timeout, now)
               else JobRun(entry, p, [], None);
      Is(service, r.entry, r.policy, made + r.calls)
    }

    ghost predicate Is(service: string, entry: Option<ScaleInJob>, p: PolicyState, made: seq<PortCall>)
      reads this, coordinator, scalingPolicy
    {
      coordinator.Entry(service) == entry && scalingPolicy.StateOf(service) == p && CallsOf(calls, service) == made
    }

    method ProcessOne(job: ScaleInJob, ans: JobAnswers, now: Time)
      requires coordinator.Valid() && coordinator.Entry(job.serviceName) == Some(job) && IsActive(job.status)
      modifies this`calls, coordinator, scalingPolicy
      ensures coordinator.Valid()
      ensures Left(job.serviceName, Some(job), old(scalingPolicy.StateOf(job.serviceName)),
                   old(CallsOf(calls, job.serviceName)), ans, now)
      ensures forall s :: s != job.serviceName ==>
        Is(s, old(coordinator.Entry(s)), old(scalingPolicy.StateOf(s)), old(CallsOf(calls, s)))
    {
      ghost var r := JobRunOf(Some(job), scalingPolicy.StateOf(job.serviceName), job, ans, timeout, now);
      RunCallsAreOwn(Some(job), scalingPolicy.StateOf(job.serviceName), job, ans, timeout, now);
      var err := ProcessJob(job, ans, now);
      if err.Some? {
        var marked := coordinator.MarkFailed(job.serviceName, err.value, now);
      }
      forall s
        ensures CallsOf(calls, s) == old(CallsOf(calls, s)) + (if s == job.serviceName then r.calls else [])
      {
        CallsOfConcat(old(calls), r.calls, s);
        CallsOfOne(r.calls, job.serviceName, s);
      }
    }

    /** One pass. The job map is walked in an order nobody controls, yet each service ends in a state, and has made
        calls, that depend on its own entry, its own policy state and its own answers only: the order does not
        matter, and a failure of one job leaves the others alone. */
    method Process(answers: string -> JobAnswers, now: Time)
      requires coordinator.Valid()
      modifies this`calls, coordinator, scalingPolicy
      ensures coordinator.Valid()
      ensures forall s ::
        Left(s, old(coordinator.Entry(s)), old(scalingPolicy.StateOf(s)), old(CallsOf(calls, s)), answers(s), now)
    {
      hide Processed, CallsOf;
      var jobs := coordinator.GetActiveJobs();
      ghost var done: set<string> := {};
      var i := 0;
      while i < |jobs|
        invariant 0 <= i <= |jobs|
        invariant done == set k | 0 <= k < i :: jobs[k].serviceName
        invariant coordinator.Valid()
        invariant forall s :: s in done ==>
          Left(s, old(coordinator.Entry(s)), old(scalingPolicy.StateOf(s)), old(CallsOf(calls, s)), answers(s), now)
        invariant forall s :: s !in done ==>
          Is(s, old(coordinator.Entry(s)), old(scalingPolicy.StateOf(s)), old(CallsOf(calls, s)))
      {
        var job := jobs[i];
        assert job.serviceName !in done;
        assert Is(job.serviceName, old(coordinator.Entry(job.serviceName)), old(scalingPolicy.StateOf(job.serviceName)),
                  old(CallsOf(calls, job.serviceName)));
        ProcessOne(job, answers(job.serviceName), now);
        done := done + {job.serviceName};
        i := i + 1;
      }
    }
  }
}
