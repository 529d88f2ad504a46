/**
 * Both schedulers at the grain of single calls: every coordinator or policy section and every port call is one
 * step, and between two steps of one scheduler the other may take any number of its own. What a port answers is
 * part of the step's label, so a statement about all runs holds for every ECS, every report store and every
 * pattern of failures.
 */
module Protocol {
  import opened Domain
  import opened ScaleInCoordinator
  import opened ScalingPolicy
  import opened SessionCounts

  /** What has happened for the sake of one job, kept for stating properties; the program does not look at it. */
  datatype Trace = Trace(
    approval: nat,        // position of the approval in the log
    writesAtRead: nat,    // desired-count writes when the evaluation behind the job read the count
    observed: seq<int>,   // session counts read while draining
    attempts: nat,        // desired-count updates asked for
    lowerings: nat)       // desired-count updates that succeeded

  datatype Event =
    | ApprovedOut(service: string, at: Time)
    | ApprovedIn(service: string, at: Time)
    | RecordedOut(service: string, at: Time)
    | RecordedIn(service: string, at: Time, approval: nat)
    | Raised(service: string, read: int, required: int, written: int)
    | Lowered(service: string, read: int, written: int)

  datatype EvalPoint =
    | EvalIdle
    | EvalRead(read: ControlState, writes: nat)
    | EvalApproved(result: ScalingResult, read: ControlState, required: int, writes: nat, approval: nat)
    | EvalWritten

  datatype Service = Service(
    ecsService: string,   // its name in ECS, fixed by the registry
    job: Option<ScaleInJob>,
    trace: Trace,
    policy: PolicyState,
    eval: EvalPoint,
    desired: int,         // the service's desired count in ECS
    writes: nat)          // how often it was written

  /** Where the scale-in scheduler is inside `processJob`: at its start, in `startDrain`, in `checkDrain`, in
      `checkCompletion`, or back in `Process` with an error. */
  datatype Point =
    | Start
    | Starting(drain: DrainPoint)
    | Lowering(lower: LowerPoint)
    | Finishing(finish: FinishPoint)
    | Failing(cause: Error)

  datatype DrainPoint =
    | HaveRunning(running: seq<TaskID>)
    | HaveReports(running: seq<TaskID>, reports: Reports)
    | Selected(target: TaskID, survivors: seq<TaskID>)
    | Guarded(target: TaskID, survivors: seq<TaskID>)
    | DrainRefused(survivors: seq<TaskID>)
    | DrainSent(target: TaskID, survivors: seq<TaskID>)

  datatype LowerPoint = SawSessions | SawNone | Ready | Written | Recorded

  datatype FinishPoint = Settled | TargetStopped | StateDeleted | HaveSurvivors(survivors: seq<TaskID>) | Released

  datatype Pc = Idle | Looping(rest: seq<ScaleInJob>) | Working(job: ScaleInJob, point: Point, rest: seq<ScaleInJob>)

  datatype Finished = Finished(job: ScaleInJob, trace: Trace)

  datatype State = State(
    services: map<string, Service>,
    pc: Pc,
    clock: Time,
    log: seq<Event>,
    past: seq<Finished>)

  /** What a port call answers. */
  datatype Answer =
    | Failure
    | Ack
    | Tasks(ids: seq<TaskID>)
    | Counts(reports: Reports)
    | Invalid(expired: set<TaskID>)
    | Sessions(count: int)
    | Control(state: ControlState)
    | TaskStatus(status: string)

  datatype Label =
    | Pass(snapshot: seq<ScaleInJob>)
    | Advance(answer: Answer)
    | Read(service: string, running: int, pending: int)
    | GiveUp(service: string)
    | Decide(service: string, total: int, required: int, coverage: real)
    | Act(service: string, ok: bool)
    | RecordOut(service: string)
    | Manual(service: string, desired: int)
    | Wait(clock: Time)

  // ---- The scale-in scheduler ----

  function Survivors(running: seq<TaskID>, target: TaskID): seq<TaskID> {
    Filter(running, t => t != target)
  }

  const APPLIED_TIMEOUT_DEFAULT: Time := 300 * SECOND

  function Timeout(configured: Time): Time {
    if configured <= 0 then APPLIED_TIMEOUT_DEFAULT else configured
  }

  function At(s: State, point: Point): State
    requires s.pc.Working?
  {
    s.(pc := s.pc.(point := point))
  }

  function AtDrain(s: State, p: DrainPoint): State
    requires s.pc.Working?
  {
    At(s, Starting(p))
  }

  function AtLower(s: State, p: LowerPoint): State
    requires s.pc.Working?
  {
    At(s, Lowering(p))
  }

  function AtFinish(s: State, p: FinishPoint): State
    requires s.pc.Working?
  {
    At(s, Finishing(p))
  }

  function Fail(s: State, cause: Error): State
    requires s.pc.Working?
  {
    At(s, Failing(cause))
  }

  function NextJob(s: State): State
    requires s.pc.Working?
  {
    s.(pc := Looping(s.pc.rest))
  }

  /** The answers a point can get; points that call the coordinator or the policy take none. */
  predicate Fits(pc: Pc, a: Answer) {
    if !pc.Working? then a == Ack
    else match pc.point
      case Start =>
        (match pc.job.status
         case Requested => a.Failure? || a.Tasks?
         case Draining => a.Failure? || a.Sessions?
         case Applied => a.Failure? || a.Control?
         case _ => a == Ack)
      case Starting(p) =>
        (match p
         case HaveRunning(_) => a.Failure? || a.Counts?
         case HaveReports(_, _) => a.Failure? || a.Invalid?
         case DrainSent(_, _) => a == Ack
         case _ => a.Failure? || a.Ack?)
      case Lowering(p) => a == Ack || (p.Ready? && a.Failure?)
      case Finishing(p) =>
        (match p
         case Settled => a.Failure? || a.TaskStatus?
         case StateDeleted => a.Failure? || a.Tasks?
         case Released => a == Ack
         case _ => a.Failure? || a.Ack?)
      case Failing(_) => a == Ack
  }

  function SetJob(s: State, name: string, job: ScaleInJob): State
    requires name in s.services
  {
    s.(services := s.services[name := s.services[name].(job := Some(job))])
  }

  function SetTrace(s: State, name: string, trace: Trace): State
    requires name in s.services
  {
    s.(services := s.services[name := s.services[name].(trace := trace)])
  }

  /** One call that changes the stored job, or its refusal. */
  function Marked(s: State, outcome: Outcome, job: ScaleInJob): State
    requires s.pc.Working? && s.pc.job.serviceName in s.services
  {
    if outcome.Refused? then Fail(s, outcome.error) else NextJob(SetJob(s, s.pc.job.serviceName, job))
  }

  function StartStep(s: State, a: Answer, timeout: Time): State
    requires s.pc.Working? && s.pc.point.Start? && Fits(s.pc, a) && s.pc.job.serviceName in s.services
  {
    var job := s.pc.job;
    match job.status
    case Requested => if a.Failure? then Fail(s, PortFailure) else AtDrain(s, HaveRunning(a.ids))
    case Draining =>
      if a.Failure? then Fail(s, PortFailure)
      else
        var trace := s.services[job.serviceName].trace;
        var seen := SetTrace(s, job.serviceName, trace.(observed := trace.observed + [a.count]));
        AtLower(seen, if a.count > 0 then SawSessions else SawNone)
    case Applied =>
      if job.appliedAt == 0 then Fail(s, AppliedTimeEmpty)
      else if s.clock - job.appliedAt > Timeout(timeout) then Fail(s, CompletionTimeout)
      else if a.Failure? then Fail(s, PortFailure)
      else if a.state.pendingCount > 0 || a.state.runningCount != a.state.desiredCount then NextJob(s)
      else AtFinish(s, Settled)
    case _ => NextJob(s)
  }

  function DrainStep(s: State, a: Answer): State
    requires s.pc.Working? && Fits(s.pc, a) && s.pc.job.serviceName in s.services
    requires s.pc.point.Starting?
  {
    var name := s.pc.job.serviceName;
    var entry := s.services[name].job;
    match s.pc.point.drain
    case HaveRunning(running) =>
      if a.Failure? then Fail(s, PortFailure) else AtDrain(s, HaveReports(running, a.reports))
    case HaveReports(running, reports) =>
      if a.Failure? then Fail(s, PortFailure)
      else
        (match SelectTarget(running, reports, a.expired)
         case None => Fail(s, NoEligibleTarget)
         case Some(target) =>
           var survivors := Survivors(running, target.taskID);
           AtDrain(s, if survivors == [] then Guarded(target.taskID, survivors)
                      else Selected(target.taskID, survivors)))
    case Selected(target, survivors) =>
      if a.Failure? then Fail(s, PortFailure) else AtDrain(s, Guarded(target, survivors))
    case Guarded(target, survivors) =>
      if a.Ack? then AtDrain(s, DrainSent(target, survivors))
      else if survivors == [] then Fail(s, PortFailure)
      else AtDrain(s, DrainRefused(survivors))
    case DrainRefused(_) => Fail(s, PortFailure)
    case DrainSent(target, survivors) =>
      var outcome := DrainingOutcome(entry, target);
      Marked(s, outcome, if outcome.Done? then AsDraining(entry.value, target, survivors, s.clock) else s.pc.job)
  }

  function LowerStep(s: State, a: Answer): State
    requires s.pc.Working? && Fits(s.pc, a) && s.pc.job.serviceName in s.services
    requires s.pc.point.Lowering?
  {
    var name := s.pc.job.serviceName;
    var service := s.services[name];
    var entry := service.job;
    match s.pc.point.lower
    case SawSessions =>
      var outcome := StreakOutcome(entry);
      Marked(s, outcome, if outcome.Done? then WithStreak(entry.value, 0, s.clock) else s.pc.job)
    case SawNone =>
      if entry.None? then Fail(s, JobNotFound)
      else
        var streak := entry.value.zeroSessionStreak + 1;
        var counted := SetJob(s, name, WithStreak(entry.value, streak, s.clock));
        if streak < 3 then NextJob(counted) else AtLower(counted, Ready)
    case Ready =>
      var asked := service.trace.(attempts := service.trace.attempts + 1);
      if a.Failure? then Fail(SetTrace(s, name, asked), PortFailure)
      else
        var lowered := service.(desired := s.pc.job.targetDesiredCount, writes := service.writes + 1,
                                trace := asked.(lowerings := asked.lowerings + 1));
        AtLower(s.(services := s.services[name := lowered],
                   log := s.log + [Lowered(name, s.pc.job.currentDesiredCount, s.pc.job.targetDesiredCount)]), Written)
    case Written =>
      AtLower(s.(services := s.services[name := service.(policy := Record(service.policy, ScaleIn, s.clock))],
                 log := s.log + [RecordedIn(name, s.clock, service.trace.approval)]), Recorded)
    case Recorded =>
      var outcome := AppliedOutcome(entry);
      Marked(s, outcome, if outcome.Done? then AsApplied(entry.value, s.clock) else s.pc.job)
  }

  function CompletionStep(s: State, a: Answer): State
    requires s.pc.Working? && Fits(s.pc, a) && s.pc.job.serviceName in s.services
    requires s.pc.point.Finishing?
  {
    var name := s.pc.job.serviceName;
    var entry := s.services[name].job;
    match s.pc.point.finish
    case Settled =>
      if a.Failure? then Fail(s, PortFailure)
      else if a.status == "STOPPED" then AtFinish(s, TargetStopped)
      else if a.status == "DEACTIVATING" || a.status == "STOPPING" || a.status == "RUNNING" then NextJob(s)
      else Fail(s, InvalidTaskStatus)
    case TargetStopped => if a.Failure? then Fail(s, PortFailure) else AtFinish(s, StateDeleted)
    case StateDeleted =>
      if a.Failure? then Fail(s, PortFailure)
      else AtFinish(s, HaveSurvivors(Survivors(a.ids, s.pc.job.targetTaskID)))
    case HaveSurvivors(_) => if a.Failure? then Fail(s, PortFailure) else AtFinish(s, Released)
    case Released =>
      var outcome := CompleteOutcome(entry);
      Marked(s, outcome, if outcome.Done? then AsCompleted(entry.value, s.clock) else s.pc.job)
  }

  /** Back in `Process` with an error: the job is marked failed, and a refusal of that is only printed. */
  function FailStep(s: State): State
    requires s.pc.Working? && s.pc.point.Failing? && s.pc.job.serviceName in s.services
  {
    var name := s.pc.job.serviceName;
    var entry := s.services[name].job;
    if FailedOutcome(entry).Refused? then NextJob(s)
    else NextJob(SetJob(s, name, AsFailed(entry.value, s.pc.point.cause, s.clock)))
  }

  function AdvanceStep(s: State, a: Answer, timeout: Time): State
    requires Fits(s.pc, a) && !s.pc.Idle?
    requires s.pc.Working? ==> s.pc.job.serviceName in s.services
  {
    if s.pc.Looping? then
      if s.pc.rest == [] then s.(pc := Idle) else s.(pc := Working(s.pc.rest[0], Start, s.pc.rest[1..]))
    else match s.pc.point
      case Start => StartStep(s, a, timeout)
      case Failing(_) => FailStep(s)
      case Starting(_) => DrainStep(s, a)
      case Lowering(_) => LowerStep(s, a)
      case Finishing(_) => CompletionStep(s, a)
  }

  // ---- The evaluation scheduler ----

  function SetService(s: State, name: string, service: Service): State {
    s.(services := s.services[name := service])
  }

  function DemandedBy(name: string, total: int, read: ControlState, required: int): ScalingResult {
    ScalingDemand(name, TaskSessionInfo([], 0, total, 0.0), read.desiredCount, read.runningCount, required)
  }

  function DecideStep(s: State, name: string, total: int, required: int, coverage: real): State
    requires name in s.services && s.services[name].eval.EvalRead?
  {
    var v := s.services[name];
    var verdict := Judge(v.policy, DemandedBy(name, total, v.eval.read, required), v.eval.read, coverage, s.clock);
    var decided := v.(policy := verdict.state);
    if !verdict.approved then SetService(s, name, decided.(eval := EvalIdle))
    else
      var approved := EvalApproved(verdict.result, v.eval.read, required, v.eval.writes, |s.log|);
      var event := if verdict.result.action == ScaleIn then ApprovedIn(name, s.clock) else ApprovedOut(name, s.clock);
      SetService(s, name, decided.(eval := approved)).(log := s.log + [event])
  }

  function NewJob(name: string, ecsService: string, result: ScalingResult): ScaleInJob {
    ScaleInJob(name, ecsService, Requested, "", [], result.currentDesiredCount, result.currentDesiredCount - 1,
               0, 0, 0, 0, None)
  }

  function ActStep(s: State, name: string, ok: bool): State
    requires name in s.services && s.services[name].eval.EvalApproved?
  {
    var v := s.services[name];
    var e := v.eval;
    if e.result.action == ScaleOut then
      if !ok then SetService(s, name, v.(eval := EvalIdle))
      else
        var raised := v.(desired := e.result.recommendedDesiredCount, writes := v.writes + 1, eval := EvalWritten);
        SetService(s, name, raised).(
          log := s.log + [Raised(name, e.result.currentDesiredCount, e.required, e.result.recommendedDesiredCount)])
    else if e.result.action == ScaleIn && RequestOutcome(v.job).Done? then
      var requested := v.(job := Some(AsRequested(NewJob(name, v.ecsService, e.result), s.clock)),
                          trace := Trace(e.approval, e.writes, [], 0, 0), eval := EvalIdle);
      SetService(s, name, requested).(past := if v.job.Some? then s.past + [Finished(v.job.value, v.trace)] else s.past)
    else SetService(s, name, v.(eval := EvalIdle))
  }

  // ---- Steps and runs ----

  /** `snapshot` is what `GetActiveJobs` may return. */
  ghost predicate ListsActive(services: map<string, Service>, snapshot: seq<ScaleInJob>) {
    && (forall i :: 0 <= i < |snapshot| ==> IsActiveIn(services, snapshot[i]))
    && (forall i, j :: 0 <= i < j < |snapshot| ==> snapshot[i].serviceName != snapshot[j].serviceName)
    && (forall n :: n in services && services[n].job.Some? && IsActive(services[n].job.value.status) ==>
          services[n].job.value in snapshot)
  }

  ghost predicate IsActiveIn(services: map<string, Service>, job: ScaleInJob) {
    && job.serviceName in services
    && services[job.serviceName].job == Some(job)
    && IsActive(job.status)
  }

  ghost predicate Enabled(s: State, l: Label) {
    match l
    case Pass(snapshot) => s.pc.Idle? && ListsActive(s.services, snapshot)
    case Advance(a) => !s.pc.Idle? && Fits(s.pc, a) && (s.pc.Working? ==> s.pc.job.serviceName in s.services)
    case Read(n, _, _) => n in s.services && s.services[n].eval.EvalIdle?
    case GiveUp(n) => n in s.services && s.services[n].eval.EvalRead?
    case Decide(n, _, _, _) => n in s.services && s.services[n].eval.EvalRead?
    case Act(n, _) => n in s.services && s.services[n].eval.EvalApproved?
    case RecordOut(n) => n in s.services && s.services[n].eval.EvalWritten?
    case Manual(n, _) => n in s.services
    case Wait(clock) => clock >= s.clock
  }

  ghost function Step(s: State, l: Label, timeout: Time): State
    requires Enabled(s, l)
  {
    match l
    case Pass(snapshot) => s.(pc := Looping(snapshot))
    case Advance(a) => AdvanceStep(s, a, timeout)
    case Read(n, running, pending) =>
      var v := s.services[n];
      SetService(s, n, v.(eval := EvalRead(ControlState(v.desired, running, pending), v.writes)))
    case GiveUp(n) => SetService(s, n, s.services[n].(eval := EvalIdle))
    case Decide(n, total, required, coverage) => DecideStep(s, n, total, required, coverage)
    case Act(n, ok) => ActStep(s, n, ok)
    case RecordOut(n) =>
      var v := s.services[n];
      SetService(s, n, v.(policy := Record(v.policy, ScaleOut, s.clock), eval := EvalIdle)).(
        log := s.log + [RecordedOut(n, s.clock)])
    case Manual(n, desired) =>
      var v := s.services[n];
      SetService(s, n, v.(desired := desired, writes := v.writes + 1))
    case Wait(clock) => s.(clock := clock)
  }

  /** Taking the labelled steps one after the other from `s` is possible and ends in `t`. */
  ghost predicate Leads(s: State, labels: seq<Label>, timeout: Time, t: State)
    decreases |labels|
  {
    if labels == [] then s == t
    else Enabled(s, labels[0]) && Leads(Step(s, labels[0], timeout), labels[1..], timeout, t)
  }

  /** A fresh process: no jobs, nothing remembered, nobody mid-way. */
  ghost predicate Init(s: State) {
    && s.pc.Idle? && s.clock > 0 && s.log == [] && s.past == []
    && forall n :: n in s.services ==>
         && s.services[n].job.None?
         && s.services[n].policy == NEW_POLICY
         && s.services[n].eval.EvalIdle?
  }

  ghost predicate IsRun(states: seq<State>, labels: seq<Label>, timeout: Time) {
    && |states| == |labels| + 1
    && Init(states[0])
    && forall i :: 0 <= i < |labels| ==>
         Enabled(states[i], labels[i]) && states[i + 1] == Step(states[i], labels[i], timeout)
  }
}
