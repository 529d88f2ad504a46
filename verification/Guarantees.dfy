/** What the invariant means for whoever relies on the protocol: statements about every state of every run. */
module Guarantees {
  import opened Domain
  import opened ScaleInCoordinator
  import opened ScalingPolicy
  import opened Protocol
  import opened ProtocolSafety

  /** The point is before the scale-in scheduler's first own change of the stored job in this `processJob`. */
  predicate BeforeOwnChange(point: Point) {
    || point.Start? || point.Starting? || point.Finishing?
    || (point.Lowering? && (point.lower.SawSessions? || point.lower.SawNone?))
  }

  /** Whatever evaluations run in between, a copy handed out by `GetActiveJobs` equals the stored job, which is still
      active, until the scale-in scheduler itself changes it. */
  lemma CopiesStayCurrent(states: seq<State>, labels: seq<Label>, timeout: Time, k: nat)
    requires IsRun(states, labels, timeout) && k < |states|
    ensures var s := states[k];
            && (!s.pc.Idle? ==> forall i :: 0 <= i < |s.pc.rest| ==> IsActiveIn(s.services, s.pc.rest[i]))
            && (s.pc.Working? ==>
                  && s.pc.job.serviceName in s.services
                  && s.services[s.pc.job.serviceName].job.Some?
                  && IsActive(s.services[s.pc.job.serviceName].job.value.status)
                  && (BeforeOwnChange(s.pc.point) ==> s.services[s.pc.job.serviceName].job == Some(s.pc.job)))
  {
    RunKeepsInv(states, labels, timeout, k);
  }

  /** The guards of `IncreaseZeroSessionStreak`, `ResetZeroSessionStreak`, `MarkApplied` and `Complete` never fire,
      `MarkFailed` always finds an active job, and `MarkDraining` refuses only an empty target name. */
  lemma GuardsNeverFire(states: seq<State>, labels: seq<Label>, timeout: Time, k: nat)
    requires IsRun(states, labels, timeout) && k < |states| && states[k].pc.Working?
    ensures states[k].pc.job.serviceName in states[k].services
    ensures var s := states[k];
            var entry := s.services[s.pc.job.serviceName].job;
            match s.pc.point
            case Start => true
            case Starting(p) => p.DrainSent? ==> (DrainingOutcome(entry, p.target).Done? <==> p.target != "")
            case Lowering(p) =>
              && (p.SawSessions? || p.SawNone? ==> StreakOutcome(entry).Done?)
              && (p.Recorded? ==> AppliedOutcome(entry).Done?)
            case Finishing(p) => p.Released? ==> CompleteOutcome(entry).Done?
            case Failing(_) => FailedOutcome(entry).Done? && IsActive(entry.value.status)
  {
    RunKeepsInv(states, labels, timeout, k);
  }

  /** Between two passes the status of a job determines the rest of it. */
  lemma StatusDeterminesShape(states: seq<State>, labels: seq<Label>, timeout: Time, k: nat, n: string)
    requires IsRun(states, labels, timeout) && k < |states| && states[k].pc.Idle?
    requires n in states[k].services && states[k].services[n].job.Some?
    ensures var s := states[k];
            var v := s.services[n];
            var job := v.job.value;
            && job.serviceName == n
            && job.targetDesiredCount == job.currentDesiredCount - 1 >= 1
            && (job.status.Requested? ==>
                  job.targetTaskID == "" && job.zeroSessionStreak == 0 && v.trace.observed == [])
            && (job.status.Draining? ==>
                  && job.targetTaskID != "" && job.targetTaskID !in job.protectedTaskIDs
                  && Quiet(v.trace.observed, job.zeroSessionStreak))
            && (job.status.Applied? ==>
                  && job.targetTaskID != "" && job.targetTaskID !in job.protectedTaskIDs
                  && job.zeroSessionStreak == 3
                  && 0 < job.appliedAt <= s.clock && v.policy.lastIn <= job.appliedAt)
  {
    RunKeepsInv(states, labels, timeout, k);
    assert AtRest(states[k].services[n], states[k].clock);
  }

  /** The scale-in scheduler is between the third zero of service `n`'s job and having acted on it. */
  predicate ActingOn(s: State, n: string) {
    && s.pc.Working? && s.pc.job.serviceName == n
    && s.pc.point.Lowering? && !s.pc.point.lower.SawSessions?
  }

  /** A job's capacity was lowered at most once, and, once its tick is over, exactly when it reached APPLIED; a job
      that failed before that wrote nothing. */
  ghost predicate LoweredIffApplied(job: ScaleInJob, t: Trace) {
    t.lowerings == (if job.appliedAt != 0 then 1 else 0)
  }

  /** The lowering was asked for exactly when three non-positive counts in a row had been read for the first time:
      never earlier, never later, and nothing was read after it. */
  ghost predicate AskedAtFirstTriple(t: Trace) {
    || (t.attempts == 0 && NoTriple(t.observed))
    || (t.attempts == 1 && EndsInFirstTriple(t.observed))
  }

  lemma ShapeMeans(job: ScaleInJob, t: Trace, p: PolicyState, clock: Time)
    requires Shape(job, t, p, clock)
    ensures LoweredIffApplied(job, t) && AskedAtFirstTriple(t)
    ensures job.status.Applied? || job.status.Completed? ==> job.appliedAt > 0
    ensures job.status.Requested? || job.status.Draining? ==> job.appliedAt == 0
  {
    if t.observed == [] {
      assert NoTriple(t.observed);
    }
  }

  lemma ExactlyOnceLowering(states: seq<State>, labels: seq<Label>, timeout: Time, k: nat)
    requires IsRun(states, labels, timeout) && k < |states|
    ensures forall i :: 0 <= i < |states[k].past| ==>
              && LoweredIffApplied(states[k].past[i].job, states[k].past[i].trace)
              && AskedAtFirstTriple(states[k].past[i].trace)
    ensures forall n :: n in states[k].services && states[k].services[n].job.Some? ==>
              var v := states[k].services[n];
              && v.trace.lowerings <= v.trace.attempts <= 1
              && (!ActingOn(states[k], n) ==> LoweredIffApplied(v.job.value, v.trace) && AskedAtFirstTriple(v.trace))
  {
    RunKeepsInv(states, labels, timeout, k);
    var s := states[k];
    forall i | 0 <= i < |s.past|
      ensures LoweredIffApplied(s.past[i].job, s.past[i].trace) && AskedAtFirstTriple(s.past[i].trace)
    {
      ShapeMeans(s.past[i].job, s.past[i].trace, NEW_POLICY, 0);
    }
    forall n | n in s.services && s.services[n].job.Some?
      ensures var v := s.services[n];
              && v.trace.lowerings <= v.trace.attempts <= 1
              && (!ActingOn(s, n) ==> LoweredIffApplied(v.job.value, v.trace) && AskedAtFirstTriple(v.trace))
    {
      CurrentJobRecord(s, n);
    }
  }

  lemma CurrentJobRecord(s: State, n: string)
    requires Inv(s) && n in s.services && s.services[n].job.Some?
    ensures var v := s.services[n];
            && v.trace.lowerings <= v.trace.attempts <= 1
            && (!ActingOn(s, n) ==> LoweredIffApplied(v.job.value, v.trace) && AskedAtFirstTriple(v.trace))
  {
    var v := s.services[n];
    if AtRest(v, s.clock) {
      ShapeMeans(v.job.value, v.trace, v.policy, s.clock);
    } else {
      assert s.pc.Working? && s.pc.job.serviceName == n;
    }
  }

  ghost predicate StoredMovesForward(s: State, t: State, n: string) {
    && n in s.services && s.services[n].job.Some?
    && n in t.services && t.services[n].job.Some?
    && MovesForward(s.services[n].job.value, t.services[n].job.value)
  }

  lemma Unchanged(s: State, t: State, n: string)
    requires n in s.services && n in t.services && t.services[n] == s.services[n] && s.services[n].job.Some?
    ensures StoredMovesForward(s, t, n)
  {
  }

  lemma StepMovesForward(s: State, l: Label, timeout: Time, n: string)
    requires Inv(s) && Enabled(s, l) && n in s.services
    requires s.services[n].job.Some? && IsActive(s.services[n].job.value.status)
    ensures StoredMovesForward(s, Step(s, l, timeout), n)
  {
    hide AtRest, PastOk, EvalBounded, Judge;
    if l.Advance? && s.pc.Working? {
      hide AdvanceStep, StoredMovesForward;
      WorkIsLocal(s, l.answer, timeout);
      var t := AdvanceStep(s, l.answer, timeout);
      if s.pc.job.serviceName == n {
        LocalMovesForward(s, t);
      } else {
        assert t.services[n] == s.services[n];
        Unchanged(s, t, n);
      }
    }
  }

  lemma LocalMovesForward(s: State, t: State)
    requires Local(s) && LocalStep(s, t)
    ensures StoredMovesForward(s, t, s.pc.job.serviceName)
  {
  }

  /** In no run does a step of either scheduler replace an active job, and every step moves it forward. */
  lemma ActiveJobsMoveForward(states: seq<State>, labels: seq<Label>, timeout: Time, k: nat, n: string)
    requires IsRun(states, labels, timeout) && k < |labels| && n in states[k].services
    requires states[k].services[n].job.Some? && IsActive(states[k].services[n].job.value.status)
    ensures StoredMovesForward(states[k], states[k + 1], n)
  {
    hide Inv, Step, StoredMovesForward;
    RunKeepsInv(states, labels, timeout, k);
    StepMovesForward(states[k], labels[k], timeout, n);
  }

  /** In every state of every run a stored job bears its service's names, was requested, applied and last changed in
      this order, and has an error exactly if it FAILED. */
  lemma StoredJobsAreInOrder(states: seq<State>, labels: seq<Label>, timeout: Time, k: nat, n: string)
    requires IsRun(states, labels, timeout) && k < |states| && n in states[k].services
    requires states[k].services[n].job.Some?
    ensures var v := states[k].services[n];
            var job := v.job.value;
            && job.serviceName == n && job.ecsServiceName == v.ecsService
            && 0 < job.requestedAt <= job.updatedAt <= states[k].clock
            && (job.appliedAt != 0 ==> job.requestedAt <= job.appliedAt <= job.updatedAt)
            && (job.lastError.Some? <==> job.status.Failed?)
  {
    RunKeepsInv(states, labels, timeout, k);
    assert ServiceOk(n, states[k].services[n], states[k].clock);
    hide PcOk, PastOk, IsRun;
  }

  /** Every change of a stored job is stamped with the time it happens at; a new job is stamped as requested then, and
      has neither target nor survivors, zeros, application nor error. */
  lemma ChangesAreStamped(states: seq<State>, labels: seq<Label>, timeout: Time, k: nat, n: string)
    requires IsRun(states, labels, timeout) && k < |labels| && n in states[k].services
    ensures n in states[k + 1].services
    ensures var before, after, now := states[k].services[n].job, states[k + 1].services[n].job, states[k].clock;
            after != before ==>
              && after.Some? && after.value.updatedAt == now
              && (labels[k].Act? ==>
                    var job := after.value;
                    && job.status.Requested? && job.requestedAt == now && job.targetTaskID == ""
                    && job.protectedTaskIDs == [] && job.zeroSessionStreak == 0 && job.appliedAt == 0
                    && job.lastError.None?)
  {
    RunKeepsInv(states, labels, timeout, k);
    StepIsStamped(states[k], labels[k], timeout, n);
    hide Inv, Step, IsRun;
  }

  ghost predicate Stamps(s: State, t: State, n: string)
    requires n in s.services
  {
    && n in t.services
    && (t.services[n].job != s.services[n].job ==>
          t.services[n].job.Some? && t.services[n].job.value.updatedAt == s.clock)
  }

  lemma StepIsStamped(s: State, l: Label, timeout: Time, n: string)
    requires Inv(s) && Enabled(s, l) && n in s.services
    ensures Stamps(s, Step(s, l, timeout), n)
    ensures l.Act? && Step(s, l, timeout).services[n].job != s.services[n].job ==>
              var job := Step(s, l, timeout).services[n].job.value;
              && job.status.Requested? && job.requestedAt == s.clock && job.targetTaskID == ""
              && job.protectedTaskIDs == [] && job.zeroSessionStreak == 0 && job.appliedAt == 0 && job.lastError.None?
  {
    if l.Advance? && s.pc.Working? {
      CurrentIsLocal(s);
      hide AdvanceStep;
      WorkIsLocal(s, l.answer, timeout);
    }
  }
}
