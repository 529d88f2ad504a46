/** The evaluation use case: one tick from the reads to a write, a request, or neither, and then the sweep. */
module Evaluation {
  import opened Domain
  import opened ScaleInCoordinator
  import opened ScalingPolicy
  import opened SessionCounts
  import opened Protocol
  import opened FailSafe
  import ReportStore

  /** What a tick is told; `None` and `false` are errors. */
  datatype EvalAnswers = EvalAnswers(
    ecsServiceName: Option<string>,
    control: Option<ControlState>,
    reports: Option<Reports>,
    running: Option<seq<TaskID>>,
    expired: Option<set<TaskID>>,
    stopCandidates: seq<TaskID>,
    updates: bool)

  /** What a tick leaves of its service: policy state, job, the count it asked ECS for, and the answer. */
  datatype Evaluated = Evaluated(
    policy: PolicyState,
    entry: Option<ScaleInJob>,
    asked: Option<int>,
    answer: Result<ScalingResult>)

  predicate AllRead(ans: EvalAnswers) {
    ans.control.Some? && ans.reports.Some? && ans.running.Some? && ans.expired.Some?
  }

  function UsableTasks(ans: EvalAnswers): seq<TaskID>
    requires AllRead(ans)
  {
    Normal(ans.running.value, ans.reports.value, ans.expired.value)
  }

  function ObservedTotal(ans: EvalAnswers): int
    requires AllRead(ans)
  {
    Total(ans.reports.value, UsableTasks(ans))
  }

  function Required(total: int, cfg: SizingConfig): int {
    RequiredTaskCount(total, cfg.sessionPerTask, cfg.scaleOutUtilization, cfg.minTaskCount, cfg.maxTaskCount)
  }

  function Judged(p: PolicyState, service: string, ans: EvalAnswers, cfg: SizingConfig, now: Time): Verdict
    requires AllRead(ans)
  {
    Judge(p, DemandedBy(service, ObservedTotal(ans), ans.control.value, Required(ObservedTotal(ans), cfg)),
          ans.control.value, Coverage(|UsableTasks(ans)|, |ans.running.value|), now)
  }

  lemma JudgedIsBounded(p: PolicyState, service: string, ans: EvalAnswers, cfg: SizingConfig, now: Time)
    requires AllRead(ans) && Judged(p, service, ans, cfg, now).approved
    ensures var v, read := Judged(p, service, ans, cfg, now), ans.control.value;
            var required := Required(ObservedTotal(ans), cfg);
            && IsConverged(read)
            && v.result == DemandedBy(service, ObservedTotal(ans), read, required)
                           .(recommendedDesiredCount := v.result.recommendedDesiredCount)
            && (v.result.action == ScaleOut || v.result.action == ScaleIn)
            && (v.result.action == ScaleOut ==> read.desiredCount < v.result.recommendedDesiredCount <= required)
            && (v.result.action == ScaleIn ==>
                  && v.result.recommendedDesiredCount == read.desiredCount - 1 >= 1
                  && required < read.desiredCount
                  && Coverage(|UsableTasks(ans)|, |ans.running.value|) >= 1.0)
  {
    ApprovalIsBounded(p, DemandedBy(service, ObservedTotal(ans), ans.control.value, Required(ObservedTotal(ans), cfg)),
                      ans.control.value, Coverage(|UsableTasks(ans)|, |ans.running.value|), now);
  }

  function Requesting(entry: Option<ScaleInJob>, policy: PolicyState, result: ScalingResult, ecsService: string,
                      now: Time): Evaluated
  {
    var job := NewJob(result.serviceName, ecsService, result);
    var outcome := RequestOutcome(entry);
    if outcome.Refused? then Evaluated(policy, entry, None, Err(outcome.error))
    else Evaluated(policy, Some(AsRequested(job, now)), None,
                   Ok(result.(executed := false, recommendedDesiredCount := result.currentDesiredCount - 1)))
  }

  function Evaluate(p: PolicyState, entry: Option<ScaleInJob>, service: string, ans: EvalAnswers, cfg: SizingConfig,
                    now: Time): Evaluated
  {
    if ans.ecsServiceName.None? then Evaluated(p, entry, None, Err(ServiceNotFound))
    else if !AllRead(ans) then Evaluated(p, entry, None, Err(PortFailure))
    else
      var v := Judged(p, service, ans, cfg, now);
      if !v.approved then Evaluated(v.state, entry, None, Ok(v.result))
      else if v.result.action == ScaleIn then Requesting(entry, v.state, v.result, ans.ecsServiceName.value, now)
      else
        var asked := Some(v.result.recommendedDesiredCount);
        if !ans.updates then Evaluated(v.state, entry, asked, Err(PortFailure))
        else Evaluated(Record(v.state, ScaleOut, now), entry, asked, Ok(v.result.(executed := true)))
  }

  class SessionAutoScaling {
    const scalingPolicy: Policy
    const coordinator: Coordinator
    const store: ReportStore.Reports
    const cfg: SizingConfig

    constructor (scalingPolicy: Policy, coordinator: Coordinator, store: ReportStore.Reports, cfg: SizingConfig)
      ensures this.scalingPolicy == scalingPolicy && this.coordinator == coordinator
      ensures this.store == store && this.cfg == cfg
    {
      this.scalingPolicy, this.coordinator, this.store, this.cfg := scalingPolicy, coordinator, store, cfg;
    }

    /** `asked` is the desired count the tick asked ECS for, if it asked. The sweep runs only after a tick without
        error, and its own errors are dropped; `answered` candidates are swept before the store stops answering. */
    method EvaluateAndScale(service: string, ans: EvalAnswers, now: Time, answered: nat)
      returns (answer: Result<ScalingResult>, asked: Option<int>)
      requires coordinator.Valid()
      modifies scalingPolicy, coordinator, store
      ensures coordinator.Valid()
      ensures Evaluated(scalingPolicy.StateOf(service), coordinator.Entry(service), asked, answer)
           == Evaluate(old(scalingPolicy.StateOf(service)), old(coordinator.Entry(service)), service, ans, cfg, now)
      ensures forall s :: s != service ==>
        scalingPolicy.StateOf(s) == old(scalingPolicy.StateOf(s)) && coordinator.Entry(s) == old(coordinator.Entry(s))
      ensures store.Contents() == if answer.Err? then old(store.Contents())
                                  else ReportStore.Swept(old(store.Contents()), ans.stopCandidates, answered, now)
    {
      hide ReportStore.Swept, Judge, Total, Normal, SortedByCount;
      asked := None;
      if ans.ecsServiceName.None? { return Err(ServiceNotFound), None; }
      if ans.control.None? { return Err(PortFailure), None; }
      if ans.reports.None? { return Err(PortFailure), None; }
      if ans.running.None? { return Err(PortFailure), None; }
      if ans.expired.None? { return Err(PortFailure), None; }
      var ecs, running := ans.control.value, ans.running.value;
      var _, normalTask, _ := GetSeparatedRunningTask(running, ans.expired.value, ans.reports.value);
      var info := CalculateTotalSessionCount(ans.reports.value, normalTask, |running|);
      var required := RequiredTaskCount(info.totalSessionCount, cfg.sessionPerTask, cfg.scaleOutUtilization,
                                        cfg.minTaskCount, cfg.maxTaskCount);
      var demand := ScalingDemand(service, info, ecs.desiredCount, ecs.runningCount, required);
      ghost var p := scalingPolicy.StateOf(service);
      assert demand == DemandedBy(service, ObservedTotal(ans), ecs, Required(ObservedTotal(ans), cfg));
      var decision, approved := scalingPolicy.Evaluate(demand, ecs, info.reportCoverage, now);
      if !approved {
        answer := Ok(decision);
      } else {
        ApprovalIsBounded(p, demand, ecs, info.reportCoverage, now);
        answer, asked := ApplyScalingDecision(ans.ecsServiceName.value, decision, ans.updates, now);
        if answer.Err? { return; }
        if answer.value.executed {
          scalingPolicy.RecordExecution(service, answer.value.action, now);
        }
      }
      store.StopExpiredTasks(ans.stopCandidates, now, answered);
    }

    method ApplyScalingDecision(ecsService: string, result: ScalingResult, updates: bool, now: Time)
      returns (answer: Result<ScalingResult>, asked: Option<int>)
      requires coordinator.Valid()
      modifies coordinator
      ensures coordinator.Valid()
      ensures result.action == ScaleOut ==>
        && asked == Some(result.recommendedDesiredCount)
        && answer == (if updates then Ok(result.(executed := true)) else Err(PortFailure))
        && coordinator.jobs == old(coordinator.jobs)
      ensures result.action == ScaleIn ==>
        forall p :: Evaluated(p, coordinator.Entry(result.serviceName), asked, answer)
                 == Requesting(old(coordinator.Entry(result.serviceName)), p, result, ecsService, now)
      ensures result.action != ScaleOut && result.action != ScaleIn ==>
        answer == Err(UnsupportedAction) && asked == None && coordinator.jobs == old(coordinator.jobs)
      ensures forall s :: s != result.serviceName ==> coordinator.Entry(s) == old(coordinator.Entry(s))
    {
      asked := None;
      if result.action == ScaleOut {
        asked := Some(result.recommendedDesiredCount);
        if !updates { return Err(PortFailure), asked; }
        answer := Ok(result.(executed := true));
      } else if result.action == ScaleIn {
        answer := RequestScaleIn(ecsService, result, now);
      } else {
        answer := Err(UnsupportedAction);
      }
    }

    /** The job's target is computed anew, as the current count less one. */
    method RequestScaleIn(ecsService: string, result: ScalingResult, now: Time) returns (answer: Result<ScalingResult>)
      requires coordinator.Valid()
      modifies coordinator
      ensures coordinator.Valid()
      ensures forall p :: Evaluated(p, coordinator.Entry(result.serviceName), None, answer)
                       == Requesting(old(coordinator.Entry(result.serviceName)), p, result, ecsService, now)
      ensures forall s :: s != result.serviceName ==> coordinator.Entry(s) == old(coordinator.Entry(s))
    {
      var target := result.currentDesiredCount - 1;
      var job := ScaleInJob(result.serviceName, ecsService, Requested, "", [], result.currentDesiredCount, target,
                            0, 0, 0, 0, None);
      var outcome := coordinator.Request(job, now);
      if outcome.Refused? { return Err(outcome.error); }
      answer := Ok(result.(executed := false, recommendedDesiredCount := target));
    }
  }

  // ---- Incomplete reports, end to end ----

  /** A tick registers a job only when tasks are RUNNING and every one of them has an unexpired report; the drain
      target selection would then succeed on the same data. */
  lemma RequestsNeedEveryReport(p: PolicyState, entry: Option<ScaleInJob>, service: string, ans: EvalAnswers,
                                cfg: SizingConfig, now: Time)
    requires Evaluate(p, entry, service, ans, cfg, now).entry != entry
    ensures AllRead(ans) && ans.running.value != []
    ensures forall t :: t in ans.running.value ==> IsNormal(ans.reports.value, ans.expired.value, t)
    ensures SelectTarget(ans.running.value, ans.reports.value, ans.expired.value).Some?
  {
    var running, reports, expired := ans.running.value, ans.reports.value, ans.expired.value;
    JudgedIsBounded(p, service, ans, cfg, now);
    FullCoverageMeansAll(running, reports, expired);
    SelectionIsFirstLeast(running, reports, expired);
    assert running[0] in running;
  }

  /** The service is settled, every RUNNING task has an unexpired report, all their sessions need fewer tasks than are
      desired, four evaluations in a row have said the same, and no cooldown runs. */
  ghost predicate CanShrink(p: PolicyState, ans: EvalAnswers, cfg: SizingConfig, now: Time) {
    && AllRead(ans) && ans.running.value != []
    && ans.control.value.pendingCount == 0 && ans.control.value.runningCount == ans.control.value.desiredCount
    && (forall t :: t in ans.running.value ==> IsNormal(ans.reports.value, ans.expired.value, t))
    && Required(Total(ans.reports.value, ans.running.value), cfg) < ans.control.value.desiredCount
    && ans.control.value.desiredCount > 1
    && p.inStreak >= 4
    && (p.lastOut == 0 || now - p.lastOut >= 60 * SECOND) && (p.lastIn == 0 || now - p.lastIn >= 60 * SECOND)
  }

  /** Whether every RUNNING task reports decides the coverage, and with it which tasks are added up. */
  lemma AllReportIff(ans: EvalAnswers)
    requires AllRead(ans)
    ensures Coverage(|UsableTasks(ans)|, |ans.running.value|) >= 1.0 <==>
              && ans.running.value != []
              && forall t :: t in ans.running.value ==> IsNormal(ans.reports.value, ans.expired.value, t)
    ensures Coverage(|UsableTasks(ans)|, |ans.running.value|) >= 1.0 ==>
              ObservedTotal(ans) == Total(ans.reports.value, ans.running.value)
  {
    FullCoverageMeansAll(ans.running.value, ans.reports.value, ans.expired.value);
    if forall t :: t in ans.running.value ==> IsNormal(ans.reports.value, ans.expired.value, t) {
      AllKept(ans.running.value, t => IsNormal(ans.reports.value, ans.expired.value, t));
    }
  }

  /** A scale-in is approved exactly when the service can shrink. */
  lemma CanShrinkMeansApproved(p: PolicyState, service: string, ans: EvalAnswers, cfg: SizingConfig, now: Time)
    ensures CanShrink(p, ans, cfg, now) <==>
              && AllRead(ans) && Judged(p, service, ans, cfg, now).approved
              && Judged(p, service, ans, cfg, now).result.action == ScaleIn
  {
    if AllRead(ans) {
      AllReportIff(ans);
      hide Required, ObservedTotal, UsableTasks, Coverage, Total, IsNormal;
    }
  }

  /** A tick registers a job exactly when the service can shrink and has no active job; the job asks for one task
      less than the desired count that was read. */
  lemma RequestsIff(p: PolicyState, entry: Option<ScaleInJob>, service: string, ans: EvalAnswers, cfg: SizingConfig,
                    now: Time)
    ensures var after := Evaluate(p, entry, service, ans, cfg, now).entry;
            && (after != entry <==>
                  && ans.ecsServiceName.Some? && CanShrink(p, ans, cfg, now)
                  && (entry.Some? ==> !IsActive(entry.value.status)))
            && (after != entry ==>
                  && after.Some? && after.value.status.Requested?
                  && after.value.serviceName == service && after.value.ecsServiceName == ans.ecsServiceName.value
                  && after.value.currentDesiredCount == ans.control.value.desiredCount
                  && after.value.targetDesiredCount == ans.control.value.desiredCount - 1 >= 1)
  {
    CanShrinkMeansApproved(p, service, ans, cfg, now);
    if AllRead(ans) && Judged(p, service, ans, cfg, now).approved {
      JudgedIsBounded(p, service, ans, cfg, now);
    }
    hide Required, ObservedTotal, UsableTasks, Coverage, CanShrink, Judged;
  }

  /** A tick that asks ECS for a count asks for more than the current one and for no more than all the reports of
      RUNNING tasks, usable or not, would require. */
  lemma RaisesAreJustifiedByAllReports(p: PolicyState, entry: Option<ScaleInJob>, service: string, ans: EvalAnswers,
                                       cfg: SizingConfig, now: Time)
    requires Evaluate(p, entry, service, ans, cfg, now).asked.Some?
    requires AllRead(ans) ==> forall t :: t in ans.running.value && t in ans.reports.value ==> ans.reports.value[t] >= 0
    requires cfg.minTaskCount <= cfg.maxTaskCount
    ensures AllRead(ans)
    ensures ans.control.value.desiredCount
          < Evaluate(p, entry, service, ans, cfg, now).asked.value
         <= Required(Total(ans.reports.value, ans.running.value), cfg)
  {
    var running, reports, expired := ans.running.value, ans.reports.value, ans.expired.value;
    JudgedIsBounded(p, service, ans, cfg, now);
    PartialTotalIsAtMostFull(running, reports, expired);
    RequiredIsMonotone(ObservedTotal(ans), Total(reports, running),
                       cfg.sessionPerTask, cfg.scaleOutUtilization, cfg.minTaskCount, cfg.maxTaskCount);
  }

  /** A tick asks ECS for a count exactly when the service has settled, its sessions need more tasks, two evaluations in
      a row have said the same, and neither the maximum nor the cooldown stands against it; it asks for what is needed,
      but for two more at most and for ten at most. */
  lemma RaisesIff(p: PolicyState, entry: Option<ScaleInJob>, service: string, ans: EvalAnswers, cfg: SizingConfig,
                  now: Time)
    ensures var e := Evaluate(p, entry, service, ans, cfg, now);
            && (e.asked.Some? <==>
                  && ans.ecsServiceName.Some? && AllRead(ans)
                  && ans.control.value.pendingCount == 0
                  && ans.control.value.runningCount == ans.control.value.desiredCount
                  && ans.control.value.desiredCount < Required(ObservedTotal(ans), cfg)
                  && ans.control.value.desiredCount < 10
                  && p.outStreak >= 2 && (p.lastOut == 0 || now - p.lastOut >= 30 * SECOND))
            && (e.asked.Some? ==>
                  var current, required := ans.control.value.desiredCount, Required(ObservedTotal(ans), cfg);
                  && current < e.asked.value <= required && e.asked.value <= current + 2 && e.asked.value <= 10
                  && (e.asked.value == required || e.asked.value == current + 2 || e.asked.value == 10))
  {
    hide Required, ObservedTotal, UsableTasks, Coverage;
  }

  /** What a tick answers: the service, the sessions of its usable RUNNING tasks and the counts ECS reported; SKIP
      before the service has settled, and else the comparison of the counts; executed exactly if ECS took a raise. */
  lemma AnswerDescribesTheTick(p: PolicyState, entry: Option<ScaleInJob>, service: string, ans: EvalAnswers,
                               cfg: SizingConfig, now: Time)
    requires Evaluate(p, entry, service, ans, cfg, now).answer.Ok?
    ensures AllRead(ans)
    ensures var e := Evaluate(p, entry, service, ans, cfg, now);
            var r, read, required := e.answer.value, ans.control.value, Required(ObservedTotal(ans), cfg);
            && r.serviceName == service
            && r.totalSessionCount
                 == Total(ans.reports.value, Normal(ans.running.value, ans.reports.value, ans.expired.value))
            && r.currentDesiredCount == read.desiredCount && r.runningTaskCount == read.runningCount
            && r.action == (if read.pendingCount != 0 || read.runningCount != read.desiredCount then Skip
                            else if read.desiredCount < required then ScaleOut
                            else if required < read.desiredCount then ScaleIn else Keep)
            && r.recommendedDesiredCount == (if e.asked.Some? then e.asked.value
                                             else if e.entry != entry then read.desiredCount - 1 else required)
            && (r.executed <==> e.asked.Some? && ans.updates)
  {
    RequestsIff(p, entry, service, ans, cfg, now);
    hide Required, Total, Normal, Coverage, CanShrink;
  }

  /** When a tick fails, and with what: an unknown service, a read that fails, a raise ECS does not take, or a request
      while a job is active. A tick sets the time of the last scale-out exactly if ECS took a raise, and never that of
      the last scale-in. */
  lemma FailuresOfATick(p: PolicyState, entry: Option<ScaleInJob>, service: string, ans: EvalAnswers, cfg: SizingConfig,
                        now: Time)
    ensures var e := Evaluate(p, entry, service, ans, cfg, now);
            && (e.answer == Err(ServiceNotFound) <==> ans.ecsServiceName.None?)
            && (e.answer == Err(PortFailure) <==>
                  ans.ecsServiceName.Some? && (!AllRead(ans) || (e.asked.Some? && !ans.updates)))
            && (e.answer == Err(JobAlreadyActive) <==>
                  && ans.ecsServiceName.Some? && CanShrink(p, ans, cfg, now)
                  && entry.Some? && (entry.value.status.Requested? || entry.value.status.Draining?
                                     || entry.value.status.Applied?))
            && (e.answer.Err? ==>
                  e.entry == entry && e.answer.error in {ServiceNotFound, PortFailure, JobAlreadyActive})
            && e.policy.lastIn == p.lastIn
            && e.policy.lastOut == (if e.asked.Some? && ans.updates then now else p.lastOut)
  {
    CanShrinkMeansApproved(p, service, ans, cfg, now);
    hide Required, ObservedTotal, UsableTasks, Coverage, CanShrink;
  }

  /** Reports of tasks that are not RUNNING and counts in expired reports change nothing a tick does. */
  lemma OrphansDoNotMatter(p: PolicyState, entry: Option<ScaleInJob>, service: string, ans: EvalAnswers,
                           reports: Reports, expired: set<TaskID>, cfg: SizingConfig, now: Time)
    requires AllRead(ans)
    requires SameWhereItMatters(ans.running.value, ans.reports.value, ans.expired.value, reports, expired)
    ensures Evaluate(p, entry, service, ans.(reports := Some(reports), expired := Some(expired)), cfg, now)
         == Evaluate(p, entry, service, ans, cfg, now)
  {
    OrphanAndExpiredReportsAreInert(ans.running.value, ans.reports.value, ans.expired.value, reports, expired);
  }

  /** The steps the protocol takes for one tick of service `n` that nobody interrupts. */
  ghost function TickLabels(s: State, n: string, ans: EvalAnswers, cfg: SizingConfig): seq<Label>
    requires AllRead(ans) && n in s.services
  {
    var v := Judged(s.services[n].policy, n, ans, cfg, s.clock);
    var opening := [Read(n, ans.control.value.runningCount, ans.control.value.pendingCount),
                    Decide(n, ObservedTotal(ans), Required(ObservedTotal(ans), cfg),
                           Coverage(|UsableTasks(ans)|, |ans.running.value|))];
    if !v.approved then opening
    else if v.result.action == ScaleOut && ans.updates then opening + [Act(n, true), RecordOut(n)]
    else opening + [Act(n, ans.updates)]
  }

  /** `t` is `s` with service `n` left as `EvaluateAndScale` leaves it, with the count it asked for if ECS took it. */
  ghost predicate EndsTick(s: State, t: State, n: string, ans: EvalAnswers, cfg: SizingConfig)
    requires n in s.services
  {
    && n in t.services && t.services == s.services[n := t.services[n]] && t.pc == s.pc && t.clock == s.clock
    && t.services[n].ecsService == s.services[n].ecsService
    && var v, w := s.services[n], t.services[n];
       var e := Evaluate(v.policy, v.job, n, ans, cfg, s.clock);
       && w.policy == e.policy && w.job == e.entry && w.eval.EvalIdle?
       && w.desired == (if e.asked.Some? && ans.updates then e.asked.value else v.desired)
  }

  /** The tick has read the count and decided. */
  ghost predicate Decided(s: State, b: State, n: string, ans: EvalAnswers, cfg: SizingConfig, timeout: Time)
    requires AllRead(ans) && n in s.services
  {
    var labels := TickLabels(s, n, ans, cfg);
    && Enabled(s, labels[0]) && Enabled(Step(s, labels[0], timeout), labels[1])
    && b == Step(Step(s, labels[0], timeout), labels[1], timeout)
  }

  lemma ApprovedTick(s: State, n: string, ans: EvalAnswers, cfg: SizingConfig, timeout: Time, b: State)
    returns (t: State)
    requires n in s.services && s.services[n].eval.EvalIdle?
    requires AllRead(ans) && ans.ecsServiceName == Some(s.services[n].ecsService)
    requires ans.control.value.desiredCount == s.services[n].desired
    requires Decided(s, b, n, ans, cfg, timeout) && Judged(s.services[n].policy, n, ans, cfg, s.clock).approved
    ensures Leads(s, TickLabels(s, n, ans, cfg), timeout, t) && EndsTick(s, t, n, ans, cfg)
  {
    hide Leads, Required, ObservedTotal, UsableTasks, IsConverged;
    JudgedIsBounded(s.services[n].policy, n, ans, cfg, s.clock);
    var labels := TickLabels(s, n, ans, cfg);
    assert Step(s, labels[0], timeout).services[n].eval.read == ans.control.value;
    var c := Step(b, labels[2], timeout);
    if |labels| == 3 {
      Three(s, labels, timeout, Step(s, labels[0], timeout), b, c);
      t := c;
    } else {
      t := Step(c, labels[3], timeout);
      Four(s, labels, timeout, Step(s, labels[0], timeout), b, c, t);
    }
  }

  /** A tick nobody interrupts is the use case: the protocol's steps for it lead to the policy state and the job that
      `EvaluateAndScale` leaves, and to the count it asked for if ECS took it. */
  lemma UninterruptedTickIsTheUseCase(s: State, n: string, ans: EvalAnswers, cfg: SizingConfig, timeout: Time)
    returns (t: State)
    requires n in s.services && s.services[n].eval.EvalIdle?
    requires AllRead(ans) && ans.ecsServiceName == Some(s.services[n].ecsService)
    requires ans.control.value.desiredCount == s.services[n].desired
    ensures Leads(s, TickLabels(s, n, ans, cfg), timeout, t) && EndsTick(s, t, n, ans, cfg)
  {
    hide Leads, Required, ObservedTotal, UsableTasks, IsConverged;
    var labels := TickLabels(s, n, ans, cfg);
    var a := Step(s, labels[0], timeout);
    var b := Step(a, labels[1], timeout);
    if Judged(s.services[n].policy, n, ans, cfg, s.clock).approved {
      t := ApprovedTick(s, n, ans, cfg, timeout, b);
    } else {
      assert a.services[n].eval.read == ans.control.value;
      Two(s, labels, timeout, a, b);
      t := b;
    }
  }

  lemma Two(s: State, labels: seq<Label>, timeout: Time, a: State, b: State)
    requires |labels| == 2 && Enabled(s, labels[0]) && a == Step(s, labels[0], timeout)
    requires Enabled(a, labels[1]) && b == Step(a, labels[1], timeout)
    ensures Leads(s, labels, timeout, b)
  {
    assert Leads(b, labels[1..][1..], timeout, b);
    assert Leads(a, labels[1..], timeout, b);
  }

  lemma Three(s: State, labels: seq<Label>, timeout: Time, a: State, b: State, c: State)
    requires |labels| == 3 && Enabled(s, labels[0]) && a == Step(s, labels[0], timeout)
    requires Enabled(a, labels[1]) && b == Step(a, labels[1], timeout)
    requires Enabled(b, labels[2]) && c == Step(b, labels[2], timeout)
    ensures Leads(s, labels, timeout, c)
  {
    Two(a, labels[1..], timeout, b, c);
  }

  lemma Four(s: State, labels: seq<Label>, timeout: Time, a: State, b: State, c: State, d: State)
    requires |labels| == 4 && Enabled(s, labels[0]) && a == Step(s, labels[0], timeout)
    requires Enabled(a, labels[1]) && b == Step(a, labels[1], timeout)
    requires Enabled(b, labels[2]) && c == Step(b, labels[2], timeout)
    requires Enabled(c, labels[3]) && d == Step(c, labels[3], timeout)
    ensures Leads(s, labels, timeout, d)
  {
    Three(a, labels[1..], timeout, b, c, d);
  }
}
