/**
 * What one turn of the scale-in scheduler does to a job, told from the answers of its calls alone: where the job ends,
 * which calls are made, and what is remembered of an error.
 */
module TurnOutcomes {
  import opened Domain
  import opened ScalingPolicy
  import opened SessionCounts
  import opened Protocol
  import opened ScaleInJobs

  /** `rest` names the tasks of `running` other than `target`, each as often as they are listed. */
  ghost predicate IsRest(rest: seq<TaskID>, running: seq<TaskID>, target: TaskID) {
    multiset(rest) == multiset(running)[target := 0]
  }

  lemma {:induction false} SurvivorsAreTheOthers(running: seq<TaskID>, target: TaskID)
    ensures IsRest(Survivors(running, target), running, target)
  {
    if running != [] {
      var before, last := running[..|running| - 1], running[|running| - 1];
      assert running == before + [last];
      SurvivorsAreTheOthers(before, target);
    }
  }

  /** `after` is `job` failed for `cause`, and nothing else about it has changed. */
  predicate FailsWith(after: ScaleInJob, job: ScaleInJob, cause: Error, now: Time) {
    && after.status.Failed? && after.lastError == Some(cause) && after.updatedAt == now
    && after.serviceName == job.serviceName && after.ecsServiceName == job.ecsServiceName
    && after.targetTaskID == job.targetTaskID && after.protectedTaskIDs == job.protectedTaskIDs
    && after.currentDesiredCount == job.currentDesiredCount && after.targetDesiredCount == job.targetDesiredCount
    && after.zeroSessionStreak == job.zeroSessionStreak
    && after.requestedAt == job.requestedAt && after.appliedAt == job.appliedAt
  }

  /** A turn that ends in an error leaves the job FAILED with that error; one that does not leaves the last error. */
  lemma ErrorsAreStored(job: ScaleInJob, p: PolicyState, ans: JobAnswers, timeout: Time, now: Time)
    requires IsActive(job.status)
    ensures var run, after := JobRunOf(Some(job), p, job, ans, timeout, now),
                              Processed(Some(job), p, job, ans, timeout, now).entry;
            && run.entry.Some? && after.Some?
            && (run.error.Some? ==> FailsWith(after.value, run.entry.value, run.error.value, now))
            && (run.error.None? ==> after.value.lastError == job.lastError && !after.value.status.Failed?)
  {
  }

  // ---- REQUESTED ----

  /** Every read of `startDrain` succeeds, and there is a task to drain. */
  predicate Chooses(ans: JobAnswers) {
    && ans.running.Some? && ans.reports.Some? && ans.expired.Some?
    && SelectTarget(ans.running.value, ans.reports.value, ans.expired.value).Some?
  }

  /** Without a task to drain nothing is called. */
  lemma NothingToDrain(job: ScaleInJob, p: PolicyState, ans: JobAnswers, timeout: Time, now: Time)
    requires job.status.Requested? && !Chooses(ans)
    ensures var r := Processed(Some(job), p, job, ans, timeout, now);
            && r.calls == [] && r.policy == p && r.entry.Some?
            && FailsWith(r.entry.value, job,
                         if ans.running.Some? && ans.reports.Some? && ans.expired.Some? then NoEligibleTarget
                         else PortFailure, now)
  {
  }

  /** A requested job with a task to drain: the others are protected first, if there are any; then the drain is asked
      for; and if that is refused, the protection of the same tasks is released. The job is DRAINING exactly if both are
      granted, and FAILED otherwise. */
  lemma StartOfADrain(job: ScaleInJob, p: PolicyState, ans: JobAnswers, timeout: Time, now: Time)
    returns (target: TaskID, rest: seq<TaskID>)
    requires job.status.Requested? && job.targetTaskID == "" && Chooses(ans)
    ensures SelectTarget(ans.running.value, ans.reports.value, ans.expired.value).value.taskID == target
    ensures IsRest(rest, ans.running.value, target)
    ensures var r, n := Processed(Some(job), p, job, ans, timeout, now), job.serviceName;
            && r.policy == p && r.entry.Some?
            && (if rest != [] && !ans.protects then
                  r.calls == [Protect(n, rest, true)] && FailsWith(r.entry.value, job, PortFailure, now)
                else if ans.drains then
                  && r.calls == (if rest == [] then [RequestDrain(n, target)]
                                 else [Protect(n, rest, true), RequestDrain(n, target)])
                  && (if target == "" then FailsWith(r.entry.value, job, EmptyTarget, now)
                      else r.entry.value == job.(status := Draining, targetTaskID := target, protectedTaskIDs := rest,
                                                 updatedAt := now))
                else
                  && r.calls == (if rest == [] then [RequestDrain(n, target)]
                                 else [Protect(n, rest, true), RequestDrain(n, target), Protect(n, rest, false)])
                  && FailsWith(r.entry.value, job, PortFailure, now))
  {
    target := SelectTarget(ans.running.value, ans.reports.value, ans.expired.value).value.taskID;
    rest := Survivors(ans.running.value, target);
    SurvivorsAreTheOthers(ans.running.value, target);
    hide SelectTarget, Survivors;
  }

  // ---- DRAINING ----

  /** A draining job: a read of sessions starts the count of zeros anew, a read of none adds one; at the third the count
      is lowered, and only then anything is called. */
  lemma StepOfADrain(job: ScaleInJob, p: PolicyState, ans: JobAnswers, timeout: Time, now: Time)
    requires job.status.Draining?
    ensures var r, zeros := Processed(Some(job), p, job, ans, timeout, now), job.zeroSessionStreak + 1;
            && r.entry.Some?
            && (if ans.sessions.None? then
                  r.calls == [] && r.policy == p && FailsWith(r.entry.value, job, PortFailure, now)
                else if ans.sessions.value > 0 then
                  r.calls == [] && r.policy == p && r.entry.value == job.(zeroSessionStreak := 0, updatedAt := now)
                else if zeros < 3 then
                  r.calls == [] && r.policy == p && r.entry.value == job.(zeroSessionStreak := zeros, updatedAt := now)
                else
                  && r.calls == [UpdateDesired(job.serviceName, job.targetDesiredCount)]
                  && (if ans.updates then
                        && r.policy == p.(lastIn := now)
                        && r.entry.value == job.(status := Applied, zeroSessionStreak := zeros, appliedAt := now,
                                                 updatedAt := now)
                      else
                        && r.policy == p
                        && FailsWith(r.entry.value, job.(zeroSessionStreak := zeros), PortFailure, now)))
  {
  }

  // ---- APPLIED ----

  /** The job was applied, and not longer ago than the configured timeout, or than five minutes if there is none. */
  predicate IsInTime(job: ScaleInJob, timeout: Time, now: Time) {
    job.appliedAt != 0 && now - job.appliedAt <= (if timeout > 0 then timeout else 300 * SECOND)
  }

  predicate HasSettled(ans: JobAnswers) {
    && ans.control.Some? && ans.control.value.pendingCount <= 0
    && ans.control.value.runningCount == ans.control.value.desiredCount
  }

  /** ECS is still at it: the service has not settled, or the drained task is on its way out. */
  predicate StillUnderWay(ans: JobAnswers) {
    && ans.control.Some?
    && (HasSettled(ans) ==>
          ans.taskStatus in {Some("DEACTIVATING"), Some("STOPPING"), Some("RUNNING")})
  }

  /** The drained task has stopped, and everything that follows succeeds. */
  predicate Concludes(ans: JobAnswers) {
    HasSettled(ans) && ans.taskStatus == Some("STOPPED") && ans.deletes && ans.remaining.Some? && ans.releases
  }

  /** An applied job: COMPLETED if and only if it is in time, the service has settled, the drained task has stopped, and
      the clean-up succeeds; untouched and without a call if and only if it is in time and ECS is still at it; and
      FAILED otherwise. */
  lemma TurnOfAnAppliedJob(job: ScaleInJob, p: PolicyState, ans: JobAnswers, timeout: Time, now: Time)
    requires job.status.Applied?
    ensures var r, inTime := Processed(Some(job), p, job, ans, timeout, now), IsInTime(job, timeout, now);
            && r.entry.Some? && r.policy == p
            && (r.entry.value.status.Completed? <==> inTime && Concludes(ans))
            && (r.entry.value.status.Completed? ==> r.entry.value == job.(status := Completed, updatedAt := now))
            && (r.entry.value == job <==> inTime && StillUnderWay(ans))
            && (r.entry.value == job ==> r.calls == [])
            && (!(inTime && (Concludes(ans) || StillUnderWay(ans))) ==>
                  FailsWith(r.entry.value, job,
                            if job.appliedAt == 0 then AppliedTimeEmpty
                            else if !inTime then CompletionTimeout
                            else if HasSettled(ans) && ans.taskStatus.Some? && ans.taskStatus != Some("STOPPED")
                            then InvalidTaskStatus else PortFailure, now))
  {
  }

  /** The calls of that turn: once the drained task has stopped its report is deleted, and then the protection of all
      other RUNNING tasks is released. */
  lemma CallsForAnAppliedJob(job: ScaleInJob, p: PolicyState, ans: JobAnswers, timeout: Time, now: Time)
    returns (rest: seq<TaskID>)
    requires job.status.Applied?
    ensures ans.remaining.Some? ==> IsRest(rest, ans.remaining.value, job.targetTaskID)
    ensures var r, n := Processed(Some(job), p, job, ans, timeout, now), job.serviceName;
            r.calls == if !IsInTime(job, timeout, now) || !HasSettled(ans) || ans.taskStatus != Some("STOPPED") then []
                       else if !ans.deletes || ans.remaining.None? then [DeleteState(n, job.targetTaskID)]
                       else [DeleteState(n, job.targetTaskID), Protect(n, rest, false)]
  {
    rest := [];
    if ans.remaining.Some? {
      rest := Survivors(ans.remaining.value, job.targetTaskID);
      SurvivorsAreTheOthers(ans.remaining.value, job.targetTaskID);
    }
    hide Survivors;
  }
}
