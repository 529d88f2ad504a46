/** The job table both schedulers share. Each locked section is one method. */
module ScaleInCoordinator {
  import opened Domain

  /** What a locked section answers: done, or refused with the table left as it was. */
  datatype Outcome = Done | Refused(error: Error)

  // The entry of one service decides every operation on that service.

  function RequestOutcome(entry: Option<ScaleInJob>): Outcome {
    if entry.Some? && IsActive(entry.value.status) then Refused(JobAlreadyActive) else Done
  }

  function AsRequested(job: ScaleInJob, now: Time): ScaleInJob {
    job.(status := Requested, targetTaskID := "", protectedTaskIDs := [], requestedAt := now, updatedAt := now)
  }

  function DrainingOutcome(entry: Option<ScaleInJob>, target: TaskID): Outcome {
    if entry.None? then Refused(JobNotFound)
    else if !entry.value.status.Requested? then Refused(InvalidTransition)
    else if target == "" then Refused(EmptyTarget)
    else if entry.value.targetTaskID != "" then Refused(TargetAlreadySelected)
    else Done
  }

  function AsDraining(job: ScaleInJob, target: TaskID, survivors: seq<TaskID>, now: Time): ScaleInJob {
    job.(status := Draining, targetTaskID := target, protectedTaskIDs := survivors, updatedAt := now)
  }

  function StreakOutcome(entry: Option<ScaleInJob>): Outcome {
    if entry.None? then Refused(JobNotFound) else Done
  }

  function WithStreak(job: ScaleInJob, streak: int, now: Time): ScaleInJob {
    job.(zeroSessionStreak := streak, updatedAt := now)
  }

  function AppliedOutcome(entry: Option<ScaleInJob>): Outcome {
    if entry.None? then Refused(JobNotFound)
    else if !entry.value.status.Draining? then Refused(InvalidTransition)
    else Done
  }

  function AsApplied(job: ScaleInJob, now: Time): ScaleInJob {
    job.(status := Applied, appliedAt := now, updatedAt := now)
  }

  function CompleteOutcome(entry: Option<ScaleInJob>): Outcome {
    if entry.None? then Refused(JobNotFound)
    else if !entry.value.status.Applied? then Refused(InvalidTransition)
    else Done
  }

  function AsCompleted(job: ScaleInJob, now: Time): ScaleInJob {
    job.(status := Completed, updatedAt := now)
  }

  /** `MarkFailed` has no status guard: any stored job can be failed. */
  function FailedOutcome(entry: Option<ScaleInJob>): Outcome {
    if entry.None? then Refused(JobNotFound) else Done
  }

  function AsFailed(job: ScaleInJob, cause: Error, now: Time): ScaleInJob {
    job.(status := Failed, updatedAt := now, lastError := Some(cause))
  }

  /** Which stored jobs each operation accepts, and what it answers to the others. */
  lemma AcceptedIff(entry: Option<ScaleInJob>, target: TaskID)
    ensures RequestOutcome(entry) == (if entry.None? || entry.value.status in {Completed, Failed} then Done
                                      else Refused(JobAlreadyActive))
    ensures DrainingOutcome(entry, target).Done? <==>
              entry.Some? && entry.value.status == Requested && entry.value.targetTaskID == "" && target != ""
    ensures DrainingOutcome(entry, target) == Refused(InvalidTransition) <==>
              entry.Some? && entry.value.status != Requested
    ensures DrainingOutcome(entry, target) == Refused(EmptyTarget) <==>
              entry.Some? && entry.value.status == Requested && target == ""
    ensures DrainingOutcome(entry, target) == Refused(TargetAlreadySelected) <==>
              entry.Some? && entry.value.status == Requested && target != "" && entry.value.targetTaskID != ""
    ensures AppliedOutcome(entry).Done? <==> entry.Some? && entry.value.status == Draining
    ensures AppliedOutcome(entry) == Refused(InvalidTransition) <==> entry.Some? && entry.value.status != Draining
    ensures CompleteOutcome(entry).Done? <==> entry.Some? && entry.value.status == Applied
    ensures CompleteOutcome(entry) == Refused(InvalidTransition) <==> entry.Some? && entry.value.status != Applied
    ensures StreakOutcome(entry) == FailedOutcome(entry) == if entry.Some? then Done else Refused(JobNotFound)
    ensures entry.None? ==>
              DrainingOutcome(entry, target) == AppliedOutcome(entry) == CompleteOutcome(entry) == Refused(JobNotFound)
  {
  }

  function EntryIn(jobs: map<string, ScaleInJob>, service: string): Option<ScaleInJob> {
    if service in jobs then Some(jobs[service]) else None
  }

  /** `active` lists every active job of the table once, in some order, as it is stored. */
  ghost predicate IsSnapshot(jobs: map<string, ScaleInJob>, active: seq<ScaleInJob>) {
    && (forall i :: 0 <= i < |active| ==>
          && active[i].serviceName in jobs
          && jobs[active[i].serviceName] == active[i]
          && IsActive(active[i].status))
    && (forall i, j :: 0 <= i < j < |active| ==> active[i].serviceName != active[j].serviceName)
    && (forall s :: s in jobs && IsActive(jobs[s].status) ==> jobs[s] in active)
  }

  class Coordinator {
    var jobs: map<string, ScaleInJob>

    ghost predicate Valid()
      reads this
    {
      forall s :: s in jobs ==> jobs[s].serviceName == s
    }

    function Entry(service: string): Option<ScaleInJob>
      reads this
    {
      EntryIn(jobs, service)
    }

    constructor ()
      ensures Valid() && jobs == map[]
    {
      jobs := map[];
    }

    method Request(job: ScaleInJob, now: Time) returns (r: Outcome)
      requires Valid()
      modifies this
      ensures Valid()
      ensures r == RequestOutcome(old(Entry(job.serviceName)))
      ensures jobs == if r.Done? then old(jobs)[job.serviceName := AsRequested(job, now)] else old(jobs)
    {
      if job.serviceName in jobs && IsActive(jobs[job.serviceName].status) {
        return Refused(JobAlreadyActive);
      }
      var stored := job.(status := Requested, targetTaskID := "", protectedTaskIDs := []);
      stored := stored.(requestedAt := now, updatedAt := now);
      jobs := jobs[job.serviceName := stored];
      r := Done;
    }

    /** Copies of the active jobs; the table is walked in an order the caller cannot foresee. */
    method GetActiveJobs() returns (active: seq<ScaleInJob>)
      requires Valid()
      ensures IsSnapshot(jobs, active)
    {
      active := [];
      var unseen := jobs.Keys;
      while unseen != {}
        invariant unseen <= jobs.Keys
        invariant forall i :: 0 <= i < |active| ==>
          && active[i].serviceName in jobs.Keys - unseen
          && jobs[active[i].serviceName] == active[i]
          && IsActive(active[i].status)
        invariant forall i, j :: 0 <= i < j < |active| ==> active[i].serviceName != active[j].serviceName
        invariant forall s :: s in jobs.Keys - unseen && IsActive(jobs[s].status) ==> jobs[s] in active
        decreases |unseen|
      {
        var s :| s in unseen;
        unseen := unseen - {s};
        if IsActive(jobs[s].status) {
          active := active + [jobs[s]];
        }
      }
    }

    method MarkDraining(service: string, target: TaskID, survivors: seq<TaskID>, now: Time) returns (r: Outcome)
      requires Valid()
      modifies this
      ensures Valid()
      ensures r == DrainingOutcome(old(Entry(service)), target)
      ensures r.Done? ==> service in old(jobs)
      ensures jobs == if r.Done? then old(jobs)[service := AsDraining(old(jobs)[service], target, survivors, now)]
                      else old(jobs)
    {
      if service !in jobs { return Refused(JobNotFound); }
      var job := jobs[service];
      if job.status != Requested { return Refused(InvalidTransition); }
      if target == "" { return Refused(EmptyTarget); }
      if job.targetTaskID != "" { return Refused(TargetAlreadySelected); }
      job := job.(targetTaskID := target);
      job := job.(protectedTaskIDs := survivors);
      job := job.(status := Draining, updatedAt := now);
      jobs := jobs[service := job];
      r := Done;
    }

    method IncreaseZeroSessionStreak(service: string, now: Time) returns (streak: int, r: Outcome)
      requires Valid()
      modifies this
      ensures Valid()
      ensures r == StreakOutcome(old(Entry(service)))
      ensures r.Done? ==> service in old(jobs) && streak == old(jobs)[service].zeroSessionStreak + 1
      ensures jobs == if r.Done? then old(jobs)[service := WithStreak(old(jobs)[service], streak, now)] else old(jobs)
    {
      if service !in jobs { return 0, Refused(JobNotFound); }
      var job := jobs[service];
      streak := job.zeroSessionStreak + 1;
      jobs := jobs[service := job.(zeroSessionStreak := streak, updatedAt := now)];
      r := Done;
    }

    method ResetZeroSessionStreak(service: string, now: Time) returns (r: Outcome)
      requires Valid()
      modifies this
      ensures Valid()
      ensures r == StreakOutcome(old(Entry(service)))
      ensures r.Done? ==> service in old(jobs)
      ensures jobs == if r.Done? then old(jobs)[service := WithStreak(old(jobs)[service], 0, now)] else old(jobs)
    {
      if service !in jobs { return Refused(JobNotFound); }
      jobs := jobs[service := jobs[service].(zeroSessionStreak := 0, updatedAt := now)];
      r := Done;
    }

    method MarkApplied(service: string, now: Time) returns (r: Outcome)
      requires Valid()
      modifies this
      ensures Valid()
      ensures r == AppliedOutcome(old(Entry(service)))
      ensures r.Done? ==> service in old(jobs)
      ensures jobs == if r.Done? then old(jobs)[service := AsApplied(old(jobs)[service], now)] else old(jobs)
    {
      if service !in jobs { return Refused(JobNotFound); }
      if jobs[service].status != Draining { return Refused(InvalidTransition); }
      jobs := jobs[service := jobs[service].(status := Applied, appliedAt := now, updatedAt := now)];
      r := Done;
    }

    method Complete(service: string, now: Time) returns (r: Outcome)
      requires Valid()
      modifies this
      ensures Valid()
      ensures r == CompleteOutcome(old(Entry(service)))
      ensures r.Done? ==> service in old(jobs)
      ensures jobs == if r.Done? then old(jobs)[service := AsCompleted(old(jobs)[service], now)] else old(jobs)
    {
      if service !in jobs { return Refused(JobNotFound); }
      if jobs[service].status != Applied { return Refused(InvalidTransition); }
      jobs := jobs[service := jobs[service].(status := Completed, updatedAt := now)];
      r := Done;
    }

    method MarkFailed(service: string, cause: Error, now: Time) returns (r: Outcome)
      requires Valid()
      modifies this
      ensures Valid()
      ensures r == FailedOutcome(old(Entry(service)))
      ensures r.Done? ==> service in old(jobs)
      ensures jobs == if r.Done? then old(jobs)[service := AsFailed(old(jobs)[service], cause, now)] else old(jobs)
    {
      if service !in jobs { return Refused(JobNotFound); }
      jobs := jobs[service := jobs[service].(status := Failed, updatedAt := now, lastError := Some(cause))];
      r := Done;
    }
  }
}
