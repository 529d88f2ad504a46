/** Whole passes of the scale-in scheduler: their order, and how long a job can stay APPLIED. */
module ScaleInPasses {
  import opened Domain
  import opened ScalingPolicy
  import opened Protocol
  import opened ProtocolSafety
  import opened Guarantees
  import opened ScaleInJobs

  // ---- The order of a pass ----

  /** Two passes over the same jobs, policy states and answers, each in whatever order its map was walked, leave the
      same job table and the same policy state, and have made the same calls for each service in the same order. */
  lemma PassOrderIsIrrelevant(a: ScaleInUsecase, b: ScaleInUsecase, entry: string -> Option<ScaleInJob>,
                              policy: string -> PolicyState, made: string -> seq<PortCall>,
                              answers: string -> JobAnswers, now: Time)
    requires a.timeout == b.timeout
    requires forall s :: a.Left(s, entry(s), policy(s), made(s), answers(s), now)
    requires forall s :: b.Left(s, entry(s), policy(s), made(s), answers(s), now)
    ensures a.coordinator.jobs == b.coordinator.jobs
    ensures forall s :: a.scalingPolicy.StateOf(s) == b.scalingPolicy.StateOf(s)
    ensures forall s :: CallsOf(a.calls, s) == CallsOf(b.calls, s)
  {
    hide Processed, CallsOf;
    forall s
      ensures a.coordinator.Entry(s) == b.coordinator.Entry(s)
      ensures a.scalingPolicy.StateOf(s) == b.scalingPolicy.StateOf(s)
      ensures CallsOf(a.calls, s) == CallsOf(b.calls, s)
    {
      assert a.Left(s, entry(s), policy(s), made(s), answers(s), now);
      assert b.Left(s, entry(s), policy(s), made(s), answers(s), now);
    }
    forall s
      ensures s in a.coordinator.jobs <==> s in b.coordinator.jobs
      ensures s in a.coordinator.jobs ==> a.coordinator.jobs[s] == b.coordinator.jobs[s]
    {
      assert a.coordinator.Entry(s) == b.coordinator.Entry(s);
    }
  }

  // ---- How long a job can stay APPLIED ----

  /** What one tick leaves of a stored job, when nobody else touches it. */
  function JobAfter(job: ScaleInJob, p: PolicyState, ans: JobAnswers, timeout: Time, now: Time): ScaleInJob {
    var entry := Processed(Some(job), p, job, ans, timeout, now).entry;
    if entry.Some? then entry.value else job
  }

  /** The job after ticks at the given times, whatever the ports answered. */
  function Ticked(job: ScaleInJob, p: PolicyState, answers: seq<JobAnswers>, times: seq<Time>,
                  timeout: Time): ScaleInJob
    requires |answers| == |times|
  {
    if times == [] then job
    else
      var n := |times| - 1;
      var before := Ticked(job, p, answers[..n], times[..n], timeout);
      if !IsActive(before.status) then before
      else JobAfter(before, p, answers[n], timeout, times[n])
  }

  /** One tick of an APPLIED job: it ends, or it stays as it is and the timeout has not passed. */
  lemma AppliedTick(job: ScaleInJob, p: PolicyState, ans: JobAnswers, timeout: Time, now: Time)
    requires job.status.Applied?
    ensures var after := JobAfter(job, p, ans, timeout, now);
            after.status.Completed? || after.status.Failed? || (after == job && now - job.appliedAt <= Timeout(timeout))
  {
  }

  lemma {:induction false} StillAppliedMeansEarly(job: ScaleInJob, p: PolicyState, answers: seq<JobAnswers>,
                                                  times: seq<Time>, timeout: Time, interval: Time)
    requires job.status.Applied? && |answers| == |times| > 0
    requires times[0] >= job.appliedAt && interval > 0
    requires forall i :: 0 <= i < |times| - 1 ==> times[i + 1] - times[i] >= interval
    ensures var after := Ticked(job, p, answers, times, timeout);
            || after.status.Completed? || after.status.Failed?
            || (after == job && times[|times| - 1] - job.appliedAt <= Timeout(timeout))
    ensures times[|times| - 1] - job.appliedAt >= (|times| - 1) * interval
  {
    var n := |times| - 1;
    if n > 0 {
      StillAppliedMeansEarly(job, p, answers[..n], times[..n], timeout, interval);
      assert n * interval == (n - 1) * interval + interval;
      if Ticked(job, p, answers[..n], times[..n], timeout) == job {
        AppliedTick(job, p, answers[n], timeout, times[n]);
      }
    } else {
      assert Ticked(job, p, answers[..0], times[..0], timeout) == job;
      AppliedTick(job, p, answers[0], timeout, times[0]);
    }
  }

  /** With ticks at least `interval` apart, an APPLIED job is COMPLETED or FAILED after timeout / interval + 2 ticks,
      whatever ECS answers. */
  lemma AppliedIsBounded(job: ScaleInJob, p: PolicyState, answers: seq<JobAnswers>, times: seq<Time>,
                         timeout: Time, interval: Time)
    requires job.status.Applied? && interval > 0
    requires |answers| == |times| == Timeout(timeout) / interval + 2
    requires times[0] >= job.appliedAt
    requires forall i :: 0 <= i < |times| - 1 ==> times[i + 1] - times[i] >= interval
    ensures var after := Ticked(job, p, answers, times, timeout); after.status.Completed? || after.status.Failed?
  {
    StillAppliedMeansEarly(job, p, answers, times, timeout, interval);
    var q := Timeout(timeout) / interval;
    assert (q + 1) * interval == q * interval + interval > Timeout(timeout);
  }

  // The same over the runs of both schedulers.

  /** The scale-in scheduler begins the turn of service `n` at this state. */
  predicate TurnStarts(s: State, n: string) {
    s.pc.Working? && s.pc.job.serviceName == n && s.pc.point.Start?
  }

  /** The turn of an APPLIED job that is over its time: about to notice, or about to be marked. */
  ghost predicate Overdue(s: State, n: string, timeout: Time) {
    && s.pc.Working? && s.pc.job.serviceName == n && s.pc.job.status.Applied?
    && n in s.services && s.services[n].job == Some(s.pc.job)
    && (s.pc.point.Failing?
        || (s.pc.point.Start? && s.pc.job.appliedAt > 0 && s.clock - s.pc.job.appliedAt > Timeout(timeout)))
  }

  predicate HasEnded(s: State, n: string) {
    n in s.services && s.services[n].job.Some? && !IsActive(s.services[n].job.value.status)
  }

  lemma OverdueTurnFails(s: State, l: Label, timeout: Time, n: string)
    requires Inv(s) && Enabled(s, l) && Overdue(s, n, timeout)
    ensures Overdue(Step(s, l, timeout), n, timeout) || HasEnded(Step(s, l, timeout), n)
  {
  }

  /** The job of `n` is APPLIED in both states, and it is the same. */
  ghost predicate SameApplied(s: State, t: State, n: string) {
    && n in s.services && n in t.services && s.services[n].job.Some?
    && s.services[n].job.value.status.Applied? && t.services[n].job == s.services[n].job
  }

  /** An APPLIED job stays as it is until it ends. */
  lemma {:induction false} AppliedStays(states: seq<State>, labels: seq<Label>, timeout: Time, n: string, i: nat,
                                        k: nat)
    requires IsRun(states, labels, timeout) && i <= k < |states|
    requires n in states[i].services && states[i].services[n].job.Some?
    requires states[i].services[n].job.value.status.Applied?
    requires forall j :: i <= j <= k ==> !HasEnded(states[j], n)
    ensures SameApplied(states[i], states[k], n)
    decreases k
  {
    if k > i {
      hide Inv, Step, Enabled;
      AppliedStays(states, labels, timeout, n, i, k - 1);
      ActiveJobsMoveForward(states, labels, timeout, k - 1, n);
      assert !HasEnded(states[k], n);
    }
  }

  /** Once a turn has found the job over its time, the job has ended by the time the scheduler is idle. */
  lemma {:induction false} OverdueUntilEnded(states: seq<State>, labels: seq<Label>, timeout: Time, n: string, i: nat,
                                             k: nat)
    requires IsRun(states, labels, timeout) && i <= k < |states| && Overdue(states[i], n, timeout)
    requires forall j :: i <= j <= k ==> !HasEnded(states[j], n)
    ensures Overdue(states[k], n, timeout)
    decreases k
  {
    if k > i {
      hide Inv, Step, Enabled, Overdue;
      OverdueUntilEnded(states, labels, timeout, n, i, k - 1);
      RunKeepsInv(states, labels, timeout, k - 1);
      OverdueTurnFails(states[k - 1], labels[k - 1], timeout, n);
      assert !HasEnded(states[k], n);
    }
  }

  /** The turns of `n` at positions `turns` of the run start at least `interval` apart. */
  ghost predicate SpacedTurns(states: seq<State>, n: string, turns: seq<nat>, interval: Time) {
    && (forall j :: 0 <= j < |turns| ==> turns[j] < |states| && TurnStarts(states[turns[j]], n))
    && (forall j :: 0 < j < |turns| ==>
          turns[j - 1] < turns[j] && states[turns[j]].clock - states[turns[j - 1]].clock >= interval)
  }

  lemma {:induction false} SpacedTurnsTakeTime(states: seq<State>, n: string, turns: seq<nat>, interval: Time, j: nat)
    requires SpacedTurns(states, n, turns, interval) && j < |turns| && interval > 0
    ensures turns[0] <= turns[j] && states[turns[j]].clock - states[turns[0]].clock >= j * interval
  {
    if j > 0 {
      SpacedTurnsTakeTime(states, n, turns, interval, j - 1);
      assert j * interval == (j - 1) * interval + interval;
    }
  }

  /** In every run, whatever ECS answers and whatever evaluations do in between: when turns of a service start at least
      `interval` apart, a job found APPLIED by one turn has ended before the scheduler is idle after the
      (timeout / interval + 2)-th. */
  lemma AppliedEndsInEveryRun(states: seq<State>, labels: seq<Label>, timeout: Time, n: string, turns: seq<nat>,
                              interval: Time, k: nat)
    requires IsRun(states, labels, timeout) && interval > 0
    requires SpacedTurns(states, n, turns, interval) && |turns| == Timeout(timeout) / interval + 2
    requires states[turns[0]].pc.job.status.Applied?
    requires turns[|turns| - 1] <= k < |states| && states[k].pc.Idle?
    ensures exists j :: turns[0] <= j <= k && HasEnded(states[j], n)
  {
    var first, last := turns[0], turns[|turns| - 1];
    SpacedTurnsTakeTime(states, n, turns, interval, |turns| - 1);
    if forall j :: first <= j <= k ==> !HasEnded(states[j], n) {
      TurnFindsStoredJob(states, labels, timeout, n, first);
      TurnFindsStoredJob(states, labels, timeout, n, last);
      AppliedStays(states, labels, timeout, n, first, last);
      var q, applied := Timeout(timeout) / interval, states[first].pc.job.appliedAt;
      assert (q + 1) * interval == q * interval + interval > Timeout(timeout);
      assert states[last].clock - applied > Timeout(timeout);
      assert Overdue(states[last], n, timeout);
      OverdueUntilEnded(states, labels, timeout, n, last, k);
    }
  }

  lemma TurnFindsStoredJob(states: seq<State>, labels: seq<Label>, timeout: Time, n: string, i: nat)
    requires IsRun(states, labels, timeout) && i < |states| && TurnStarts(states[i], n)
    ensures n in states[i].services && states[i].services[n].job == Some(states[i].pc.job)
    ensures states[i].pc.job.status.Applied? ==> 0 < states[i].pc.job.appliedAt <= states[i].clock
  {
    RunKeepsInv(states, labels, timeout, i);
  }
}
