/** What every run of the two schedulers keeps, whatever the ports answer. */
module ProtocolSafety {
  import opened Domain
  import opened ScaleInCoordinator
  import opened ScalingPolicy
  import opened Protocol

  // ---- Observation sequences ----

  predicate TripleAt(observed: seq<int>, i: int) {
    0 <= i && i + 2 < |observed| && observed[i] <= 0 && observed[i + 1] <= 0 && observed[i + 2] <= 0
  }

  ghost predicate NoTriple(observed: seq<int>) {
    forall i :: !TripleAt(observed, i)
  }

  /** The sequence ends with three non-positive counts in a row, for the first time. */
  ghost predicate EndsInFirstTriple(observed: seq<int>) {
    TripleAt(observed, |observed| - 3) && forall i :: i < |observed| - 3 ==> !TripleAt(observed, i)
  }

  /** No three in a row so far, and exactly the last `streak` counts are non-positive. */
  ghost predicate Quiet(observed: seq<int>, streak: int) {
    && NoTriple(observed)
    && 0 <= streak <= 2 && streak <= |observed|
    && (forall i :: |observed| - streak <= i < |observed| ==> observed[i] <= 0)
    && (streak < |observed| ==> observed[|observed| - 1 - streak] > 0)
  }

  lemma QuietGrows(observed: seq<int>, streak: int, count: int)
    requires Quiet(observed, streak)
    ensures count > 0 ==> Quiet(observed + [count], 0)
    ensures count <= 0 && streak < 2 ==> Quiet(observed + [count], streak + 1)
    ensures count <= 0 && streak == 2 ==> EndsInFirstTriple(observed + [count])
  {
    var grown := observed + [count];
    forall i | i < |grown| - 3
      ensures !TripleAt(grown, i)
    {
      assert !TripleAt(observed, i);
    }
    if count > 0 || streak < 2 {
      assert !TripleAt(grown, |grown| - 3);
    }
  }

  // ---- The invariant ----

  ghost predicate HasTarget(job: ScaleInJob) {
    job.targetTaskID != "" && job.targetTaskID !in job.protectedTaskIDs
  }

  ghost predicate Untouched(t: Trace) {
    t.attempts == 0 && t.lowerings == 0
  }

  /** The job lowered the desired count once, on the strength of its first three zero observations in a row. */
  ghost predicate LoweredOnce(job: ScaleInJob, t: Trace) {
    && job.appliedAt > 0 && job.zeroSessionStreak == 3
    && EndsInFirstTriple(t.observed) && t.attempts == 1 && t.lowerings == 1
  }

  ghost predicate OneStep(job: ScaleInJob) {
    job.targetDesiredCount == job.currentDesiredCount - 1 >= 1
  }

  /** What the stored status says about a job nobody is working on. */
  ghost predicate Shape(job: ScaleInJob, t: Trace, p: PolicyState, clock: Time) {
    && OneStep(job)
    && match job.status
       case Requested =>
         && job.targetTaskID == "" && job.protectedTaskIDs == [] && job.zeroSessionStreak == 0
         && job.appliedAt == 0 && t.observed == [] && Untouched(t)
       case Draining =>
         HasTarget(job) && job.appliedAt == 0 && Quiet(t.observed, job.zeroSessionStreak) && Untouched(t)
       case Applied =>
         HasTarget(job) && LoweredOnce(job, t) && p.lastIn <= job.appliedAt <= clock
       case Completed =>
         HasTarget(job) && LoweredOnce(job, t)
       case Failed =>
         if job.appliedAt > 0 then HasTarget(job) && LoweredOnce(job, t)
         else
           && job.appliedAt == 0 && t.lowerings == 0
           && ((t.attempts == 0 && NoTriple(t.observed)) || (t.attempts == 1 && EndsInFirstTriple(t.observed)))
  }

  ghost predicate AtRest(v: Service, clock: Time) {
    v.job.Some? ==> Shape(v.job.value, v.trace, v.policy, clock)
  }

  /** The stored job while its third zero is being acted on. */
  ghost predicate Acting(job: ScaleInJob, stored: ScaleInJob, t: Trace) {
    && job.status.Draining? && HasTarget(job) && job.appliedAt == 0 && OneStep(job)
    && stored == WithStreak(job, 3, stored.updatedAt)
    && EndsInFirstTriple(t.observed)
  }

  /** The copy `job` against the stored job, while the scale-in scheduler is at `point`. */
  ghost predicate Busy(job: ScaleInJob, point: Point, v: Service, clock: Time) {
    && v.job.Some?
    && IsActive(job.status)
    && match point
       case Start => v.job.value == job && AtRest(v, clock)
       case Starting(p) => v.job.value == job && AtRest(v, clock) && job.status.Requested? && TargetOutside(p)
       case Lowering(p) => BusyLowering(job, p, v)
       case Finishing(_) => v.job.value == job && AtRest(v, clock) && job.status.Applied?
       case Failing(_) =>
         || (v.job.value == job && AtRest(v, clock))
         || (Acting(job, v.job.value, v.trace) && v.trace.attempts == 1 && v.trace.lowerings == 0)
  }

  ghost predicate TargetOutside(p: DrainPoint) {
    p.Selected? || p.Guarded? || p.DrainSent? ==> p.target !in p.survivors
  }

  ghost predicate BusyLowering(job: ScaleInJob, p: LowerPoint, v: Service)
    requires v.job.Some?
  {
    match p
    case SawSessions =>
      && v.job.value == job && job.status.Draining? && HasTarget(job) && job.appliedAt == 0 && OneStep(job)
      && Untouched(v.trace) && Quiet(v.trace.observed, 0)
    case SawNone =>
      && v.job.value == job && job.status.Draining? && HasTarget(job) && job.appliedAt == 0 && OneStep(job)
      && Untouched(v.trace) && 0 <= job.zeroSessionStreak <= 2
      && (if job.zeroSessionStreak == 2 then EndsInFirstTriple(v.trace.observed)
          else Quiet(v.trace.observed, job.zeroSessionStreak + 1))
    case Ready => Acting(job, v.job.value, v.trace) && Untouched(v.trace)
    case _ => Acting(job, v.job.value, v.trace) && v.trace.attempts == 1 && v.trace.lowerings == 1
  }

  ghost predicate EvalBounded(n: string, e: EvalPoint) {
    e.EvalApproved? ==>
      && e.result.serviceName == n
      && e.result.currentDesiredCount == e.read.desiredCount
      && IsConverged(e.read)
      && (e.result.action == ScaleOut || e.result.action == ScaleIn)
      && (e.result.action == ScaleOut ==>
            && e.read.desiredCount < e.result.recommendedDesiredCount
            && e.result.recommendedDesiredCount == Min(Min(e.read.desiredCount + 2, 10), e.required))
      && (e.result.action == ScaleIn ==>
            e.required < e.read.desiredCount && e.result.recommendedDesiredCount == e.read.desiredCount - 1 >= 1)
  }

  /** The job bears its service's names, its times are in order, and it has an error exactly if it FAILED. */
  ghost predicate JobOk(n: string, job: ScaleInJob, ecsService: string, clock: Time) {
    && job.serviceName == n && job.ecsServiceName == ecsService
    && 0 < job.requestedAt <= job.updatedAt <= clock
    && (job.appliedAt != 0 ==> job.requestedAt <= job.appliedAt <= job.updatedAt)
    && (job.lastError.Some? <==> job.status.Failed?)
  }

  ghost predicate ServiceOk(n: string, v: Service, clock: Time) {
    && (v.job.Some? ==> JobOk(n, v.job.value, v.ecsService, clock))
    && EvalBounded(n, v.eval)
    && v.policy.lastIn <= clock && v.policy.lastOut <= clock
  }

  /** The rest of a pass: jobs still stored as they were copied. */
  ghost predicate StillStored(services: map<string, Service>, rest: seq<ScaleInJob>) {
    && (forall i :: 0 <= i < |rest| ==> IsActiveIn(services, rest[i]))
    && (forall i, j :: 0 <= i < j < |rest| ==> rest[i].serviceName != rest[j].serviceName)
  }

  ghost predicate PcOk(s: State) {
    match s.pc
    case Idle => forall n :: n in s.services ==> AtRest(s.services[n], s.clock)
    case Looping(rest) =>
      && StillStored(s.services, rest)
      && forall n :: n in s.services ==> AtRest(s.services[n], s.clock)
    case Working(job, point, rest) =>
      && StillStored(s.services, rest)
      && (forall i :: 0 <= i < |rest| ==> rest[i].serviceName != job.serviceName)
      && job.serviceName in s.services
      && (Busy(job, point, s.services[job.serviceName], s.clock) == true)
      && forall n :: n in s.services && n != job.serviceName ==> AtRest(s.services[n], s.clock)
  }

  ghost predicate PastOk(past: seq<Finished>) {
    forall i :: 0 <= i < |past| ==> !IsActive(past[i].job.status) && Shape(past[i].job, past[i].trace, NEW_POLICY, 0)
  }

  ghost predicate Inv(s: State) {
    && s.clock > 0
    && (forall n :: n in s.services ==> ServiceOk(n, s.services[n], s.clock))
    && PcOk(s)
    && PastOk(s.past)
  }

  // ---- Steps of the scale-in scheduler touch one service ----

  // Comparing a predicate with `true` keeps it folded where it is required or ensured.

  /** The part of the invariant that concerns the job being worked on. */
  ghost predicate Local(s: State) {
    && s.pc.Working? && s.pc.job.serviceName in s.services
    && s.clock > 0
    && (ServiceOk(s.pc.job.serviceName, s.services[s.pc.job.serviceName], s.clock) == true)
    && (Busy(s.pc.job, s.pc.point, s.services[s.pc.job.serviceName], s.clock) == true)
  }

  lemma CurrentIsLocal(s: State)
    requires Inv(s) && s.pc.Working?
    ensures Local(s)
  {
  }

  /** An active job keeps its counts and, once it is DRAINING, its target and survivors; its status stays, moves one
      forward, or turns FAILED; while APPLIED it does not change at all. */
  ghost predicate MovesForward(before: ScaleInJob, after: ScaleInJob) {
    && after.currentDesiredCount == before.currentDesiredCount
    && after.targetDesiredCount == before.targetDesiredCount
    && after.requestedAt == before.requestedAt
    && (!before.status.Requested? ==>
          after.targetTaskID == before.targetTaskID && after.protectedTaskIDs == before.protectedTaskIDs)
    && (before.status.Applied? && after.status.Applied? ==> after == before)
    && (after.status == before.status || after.status.Failed?
        || (before.status.Requested? && after.status.Draining?)
        || (before.status.Draining? && after.status.Applied?)
        || (before.status.Applied? && after.status.Completed?))
  }

  /** The two calls of the scale-in scheduler that reach beyond the job table. */
  predicate Executes(point: Point) {
    point.Lowering? && (point.lower.Ready? || point.lower.Written?)
  }

  /** Nothing but the job, its observations and attempts has changed. */
  ghost predicate OnlyJobChanges(v: Service, w: Service) {
    && w.policy == v.policy && w.desired == v.desired && w.writes == v.writes
    && w.trace.lowerings == v.trace.lowerings
  }

  /** `t` is `s` after one call for the current job, with the part of the invariant that concerns it. */
  ghost predicate LocalStep(s: State, t: State)
    requires Local(s)
  {
    var n := s.pc.job.serviceName;
    && n in t.services
    && t.services == s.services[n := t.services[n]]
    && t.clock == s.clock && t.past == s.past
    && (ServiceOk(n, t.services[n], t.clock) == true)
    && t.services[n].eval == s.services[n].eval && t.services[n].ecsService == s.services[n].ecsService
    && t.services[n].trace.approval == s.services[n].trace.approval
    && t.services[n].trace.writesAtRead == s.services[n].trace.writesAtRead
    && (!Executes(s.pc.point) ==> t.log == s.log && OnlyJobChanges(s.services[n], t.services[n]))
    && t.services[n].job.Some? && MovesForward(s.services[n].job.value, t.services[n].job.value)
    && (t.services[n].job == s.services[n].job || t.services[n].job.value.updatedAt == s.clock)
    && ((t.pc == Looping(s.pc.rest) && (AtRest(t.services[n], t.clock) == true))
        || (t.pc.Working? && t.pc.job == s.pc.job && t.pc.rest == s.pc.rest
            && (Busy(t.pc.job, t.pc.point, t.services[n], t.clock) == true)))
  }

  lemma LocalStepKeepsInv(s: State, t: State)
    requires Inv(s) && s.pc.Working? && Local(s) && LocalStep(s, t)
    ensures Inv(t)
  {
    var n := s.pc.job.serviceName;
    forall i | 0 <= i < |s.pc.rest|
      ensures IsActiveIn(t.services, s.pc.rest[i])
    {
      assert IsActiveIn(s.services, s.pc.rest[i]);
    }
  }

  lemma StartIsLocal(s: State, a: Answer, timeout: Time)
    requires Local(s) && s.pc.point.Start? && Fits(s.pc, a)
    ensures LocalStep(s, StartStep(s, a, timeout))
  {
    var job := s.pc.job;
    if job.status.Draining? && a.Sessions? {
      QuietGrows(s.services[job.serviceName].trace.observed, job.zeroSessionStreak, a.count);
    }
  }

  lemma DrainIsLocal(s: State, a: Answer)
    requires Local(s) && Fits(s.pc, a)
    requires s.pc.point.Starting?
    ensures LocalStep(s, DrainStep(s, a))
  {
  }

  lemma LowerIsLocal(s: State, a: Answer)
    requires Local(s) && Fits(s.pc, a)
    requires s.pc.point.Lowering? && !Executes(s.pc.point)
    ensures LocalStep(s, LowerStep(s, a))
  {
  }

  lemma ExecutionIsLocal(s: State, a: Answer)
    requires Local(s) && Fits(s.pc, a) && Executes(s.pc.point)
    ensures LocalStep(s, LowerStep(s, a))
  {
  }

  lemma CompletionIsLocal(s: State, a: Answer)
    requires Local(s) && Fits(s.pc, a)
    requires s.pc.point.Finishing?
    ensures LocalStep(s, CompletionStep(s, a))
  {
  }

  lemma FailIsLocal(s: State)
    requires Local(s) && s.pc.point.Failing?
    ensures LocalStep(s, FailStep(s))
  {
  }

  lemma WorkIsLocal(s: State, a: Answer, timeout: Time)
    requires Local(s) && Fits(s.pc, a)
    ensures LocalStep(s, AdvanceStep(s, a, timeout))
  {
    match s.pc.point
    case Start => StartIsLocal(s, a, timeout);
    case Starting(_) => DrainIsLocal(s, a);
    case Lowering(_) =>
      if Executes(s.pc.point) {
        ExecutionIsLocal(s, a);
      } else {
        LowerIsLocal(s, a);
      }
    case Finishing(_) => CompletionIsLocal(s, a);
    case Failing(_) => FailIsLocal(s);
  }

  lemma NextKeepsInv(s: State, a: Answer, timeout: Time)
    requires Inv(s) && s.pc.Looping? && a == Ack
    ensures Inv(AdvanceStep(s, a, timeout))
  {
    var rest := s.pc.rest;
    if rest != [] {
      assert IsActiveIn(s.services, rest[0]);
    }
  }

  // ---- Steps of the evaluation scheduler leave the jobs being worked on alone ----

  /** A change to one service that leaves active jobs as they are keeps the scale-in scheduler's part. */
  lemma ElsewhereKeepsPc(s: State, t: State, n: string)
    requires PcOk(s) && n in s.services && n in t.services
    requires t.services == s.services[n := t.services[n]] && t.pc == s.pc && t.clock == s.clock
    requires s.services[n].job.Some? && IsActive(s.services[n].job.value.status) ==>
               t.services[n].job == s.services[n].job
    requires AtRest(s.services[n], s.clock) ==> AtRest(t.services[n], s.clock)
    requires s.pc.Working? && s.pc.job.serviceName == n && Busy(s.pc.job, s.pc.point, s.services[n], s.clock) ==>
               Busy(s.pc.job, s.pc.point, t.services[n], s.clock)
    ensures PcOk(t)
  {
    if !s.pc.Idle? {
      forall i | 0 <= i < |s.pc.rest|
        ensures IsActiveIn(t.services, s.pc.rest[i])
      {
        assert IsActiveIn(s.services, s.pc.rest[i]);
      }
    }
  }

  lemma EvalKeepsInv(s: State, t: State, n: string)
    requires Inv(s) && n in s.services && n in t.services
    requires t.services == s.services[n := t.services[n]] && t.pc == s.pc && t.clock == s.clock && t.past == s.past
    requires ServiceOk(n, t.services[n], t.clock)
    requires t.services[n].job == s.services[n].job && t.services[n].trace == s.services[n].trace
    requires t.services[n].policy.lastIn == s.services[n].policy.lastIn
    ensures Inv(t)
  {
    hide PcOk, PastOk, ServiceOk;
    ElsewhereKeepsPc(s, t, n);
  }

  lemma DecideKeepsInv(s: State, n: string, total: int, required: int, coverage: real)
    requires Inv(s) && Enabled(s, Decide(n, total, required, coverage))
    ensures Inv(DecideStep(s, n, total, required, coverage))
  {
    var v := s.services[n];
    var demand := DemandedBy(n, total, v.eval.read, required);
    if Judge(v.policy, demand, v.eval.read, coverage, s.clock).approved {
      ApprovalIsBounded(v.policy, demand, v.eval.read, coverage, s.clock);
    }
    EvalKeepsInv(s, DecideStep(s, n, total, required, coverage), n);
  }

  lemma InactiveIsAtRest(s: State, n: string)
    requires PcOk(s) && n in s.services
    requires s.services[n].job.Some? ==> !IsActive(s.services[n].job.value.status)
    ensures s.pc.Working? ==> s.pc.job.serviceName != n
    ensures AtRest(s.services[n], s.clock)
  {
  }

  lemma RequestKeepsInv(s: State, n: string)
    requires Inv(s) && n in s.services
    requires s.services[n].eval.EvalApproved? && s.services[n].eval.result.action == ScaleIn
    requires RequestOutcome(s.services[n].job).Done?
    ensures Inv(ActStep(s, n, true)) && Inv(ActStep(s, n, false))
  {
    var t := ActStep(s, n, true);
    assert t == ActStep(s, n, false);
    hide PcOk;
    InactiveIsAtRest(s, n);
    ElsewhereKeepsPc(s, t, n);
    assert PastOk(t.past);
  }

  lemma ActKeepsInv(s: State, n: string, ok: bool)
    requires Inv(s) && Enabled(s, Act(n, ok))
    ensures Inv(ActStep(s, n, ok))
  {
    var e := s.services[n].eval;
    if e.result.action == ScaleIn && RequestOutcome(s.services[n].job).Done? {
      RequestKeepsInv(s, n);
    } else {
      EvalKeepsInv(s, ActStep(s, n, ok), n);
    }
  }

  lemma WaitKeepsInv(s: State, clock: Time)
    requires Inv(s) && clock >= s.clock
    ensures Inv(s.(clock := clock))
  {
    assert forall n :: n in s.services && AtRest(s.services[n], s.clock) ==> AtRest(s.services[n], clock);
  }

  lemma PassKeepsInv(s: State, snapshot: seq<ScaleInJob>)
    requires Inv(s) && Enabled(s, Pass(snapshot))
    ensures Inv(s.(pc := Looping(snapshot)))
  {
  }

  lemma AdvanceKeepsInv(s: State, a: Answer, timeout: Time)
    requires Inv(s) && Enabled(s, Advance(a))
    ensures Inv(AdvanceStep(s, a, timeout))
  {
    if s.pc.Looping? {
      NextKeepsInv(s, a, timeout);
    } else {
      hide AdvanceStep, LocalStep;
      WorkIsLocal(s, a, timeout);
      LocalStepKeepsInv(s, AdvanceStep(s, a, timeout));
    }
  }

  lemma OwnStepKeepsInv(s: State, l: Label, timeout: Time)
    requires Inv(s) && Enabled(s, l)
    requires l.Read? || l.GiveUp? || l.RecordOut? || l.Manual?
    ensures Inv(Step(s, l, timeout))
  {
    hide PcOk, PastOk;
    EvalKeepsInv(s, Step(s, l, timeout), l.service);
  }

  lemma StepKeepsInv(s: State, l: Label, timeout: Time)
    requires Inv(s) && Enabled(s, l)
    ensures Inv(Step(s, l, timeout))
  {
    hide Inv, AdvanceStep, DecideStep, ActStep;
    match l
    case Pass(snapshot) => PassKeepsInv(s, snapshot);
    case Advance(a) => AdvanceKeepsInv(s, a, timeout);
    case Decide(n, total, required, coverage) => DecideKeepsInv(s, n, total, required, coverage);
    case Act(n, ok) => ActKeepsInv(s, n, ok);
    case Wait(clock) => WaitKeepsInv(s, clock);
    case _ => OwnStepKeepsInv(s, l, timeout);
  }

  lemma {:induction false} RunKeepsInv(states: seq<State>, labels: seq<Label>, timeout: Time, k: nat)
    requires IsRun(states, labels, timeout) && k < |states|
    ensures Inv(states[k])
  {
    if k > 0 {
      hide Inv, Step;
      RunKeepsInv(states, labels, timeout, k - 1);
      StepKeepsInv(states[k - 1], labels[k - 1], timeout);
    }
  }
}
