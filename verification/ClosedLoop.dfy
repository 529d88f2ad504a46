/**
 * Both schedulers against the stateful fake ECS, one service. The fake's answers and effects are tied to the
 * protocol's steps; timers, manual scaling, failed calls and failed stop notifications happen in between.
 */
module ClosedLoop {
  import opened Domain
  import opened ScaleInCoordinator
  import opened ScalingPolicy
  import opened SessionCounts
  import opened FakeEcs
  import opened Protocol
  import opened ProtocolSafety
  import opened Convergence

  /** `careful` stays true while every lowering was by one, with nothing pending, something unprotected and the stop
      notification going out. */
  datatype Loop = Loop(s: Protocol.State, f: Fake, careful: bool)

  /** What an update of the desired count meets on its way: whether it gets through at all, the names it may use,
      the task it comes upon, whether the stop notification goes out. */
  datatype Circumstances = Circumstances(reached: bool, names: seq<TaskID>, victim: Option<TaskID>, notified: bool)

  datatype Move =
    | Scheduler(step: Label, c: Circumstances)
    | TimerFires(task: TaskID)
    | ManualScale(count: int, c: Circumstances)

  function Running(f: Fake): set<TaskID> { InStatus(f.tasks, RUNNING) }

  ghost predicate CanUpdate(f: Fake, count: int, c: Circumstances) {
    && MissingCount(f.state, count) <= |c.names| && AreNew(c.names, f) && CanBeVictim(f, c.victim)
    && Update(f, count, c.names, c.victim, c.notified).0 != Panicked
  }

  /** The fake after an update under way: untouched if the call never got there. */
  function Updating(f: Fake, count: int, c: Circumstances): Fake
    requires MissingCount(f.state, count) <= |c.names|
  {
    if c.reached then Update(f, count, c.names, c.victim, c.notified).1 else f
  }

  predicate Succeeds(f: Fake, count: int, c: Circumstances)
    requires MissingCount(f.state, count) <= |c.names|
  {
    c.reached && Update(f, count, c.names, c.victim, c.notified).0 == Updated
  }

  /** The count a scheduler step asks ECS for, if it asks. */
  function Asks(s: Protocol.State, l: Label): Option<int> {
    if l.Advance? && s.pc.Working? && s.pc.point == Lowering(Ready) then Some(s.pc.job.targetDesiredCount)
    else if l.Act? && l.service in s.services && s.services[l.service].eval.EvalApproved?
            && s.services[l.service].eval.result.action == ScaleOut
    then Some(s.services[l.service].eval.result.recommendedDesiredCount)
    else None
  }

  predicate ReportsSuccess(l: Label) {
    (l.Advance? && l.answer == Ack) || (l.Act? && l.ok)
  }

  /** The fake's side of the scale-in scheduler's port calls. */
  ghost predicate AnswersAgree(s: Protocol.State, f: Fake, a: Answer) {
    s.pc.Working? ==>
      && (a.Tasks? ==> f.tasks != map[] && Lists(a.ids, Running(f)))
      && (a.Control? ==> a.state == f.state)
      && (a.TaskStatus? ==>
            s.pc.job.targetTaskID in f.tasks && a.status == StatusName(f.tasks[s.pc.job.targetTaskID]))
  }

  function StatusName(status: LastStatus): string {
    match status
    case PENDING => "PENDING"
    case RUNNING => "RUNNING"
    case STOPPED => "STOPPED"
  }

  /** The protected set after a scale-in step: replaced by the three kinds of protection call. */
  function Protecting(s: Protocol.State, f: Fake, a: Answer): Fake {
    if s.pc.Working? && a == Ack then
      match s.pc.point
      case Starting(Selected(_, survivors)) => f.(protectedTask := Some(Names(survivors)))
      case Starting(DrainRefused(survivors)) => f.(protectedTask := Some(Names(survivors)))
      case Finishing(HaveSurvivors(survivors)) => f.(protectedTask := Some(Names(survivors)))
      case _ => f
    else f
  }

  ghost predicate Possible(x: Loop, m: Move, n: string) {
    match m
    case TimerFires(_) => true
    case ManualScale(count, c) => CanUpdate(x.f, count, c)
    case Scheduler(l, c) =>
      && Enabled(x.s, l) && !l.Manual?
      && (l.Read? ==> l.running == x.f.state.runningCount && l.pending == x.f.state.pendingCount)
      && (l.Advance? ==> AnswersAgree(x.s, x.f, l.answer))
      && (Asks(x.s, l).Some? ==>
            && CanUpdate(x.f, Asks(x.s, l).value, c)
            && (ReportsSuccess(l) <==> Succeeds(x.f, Asks(x.s, l).value, c)))
  }

  /** A change of the fake nobody was told about still counts as a write. */
  ghost function Touch(s: Protocol.State, n: string, desired: int, timeout: Time): Protocol.State {
    if n in s.services then Step(s, Manual(n, desired), timeout) else s
  }

  ghost function UpdateMove(x: Loop, t: Protocol.State, told: bool, count: int, c: Circumstances, n: string,
                            timeout: Time): Loop
    requires MissingCount(x.f.state, count) <= |c.names|
  {
    var g := Updating(x.f, count, c);
    Loop(if told || g == x.f then t else Touch(t, n, g.state.desiredCount, timeout), g,
         x.careful && (c.reached ==> Careful(x.f, SetDesired(count, c.names, c.victim, c.notified))))
  }

  ghost function After(x: Loop, m: Move, n: string, timeout: Time): Loop
    requires Possible(x, m, n)
  {
    match m
    case TimerFires(task) => x.(f := Fire(x.f, task))
    case ManualScale(count, c) => UpdateMove(x, x.s, false, count, c, n, timeout)
    case Scheduler(l, c) =>
      var t := Step(x.s, l, timeout);
      if Asks(x.s, l).Some? then UpdateMove(x, t, ReportsSuccess(l), Asks(x.s, l).value, c, n, timeout)
      else x.(s := t, f := if l.Advance? then Protecting(x.s, x.f, l.answer) else x.f)
  }

  ghost predicate IsLoopRun(xs: seq<Loop>, moves: seq<Move>, n: string, timeout: Time) {
    && |xs| == |moves| + 1
    && Init(xs[0].s) && xs[0].s.services.Keys == {n}
    && xs[0].s.services[n].desired == xs[0].f.state.desiredCount
    && (xs[0].careful ==> Agrees(xs[0].f))
    && forall i :: 0 <= i < |moves| ==> Possible(xs[i], moves[i], n) && xs[i + 1] == After(xs[i], moves[i], n, timeout)
  }

  // ---- How the fake and the protocol are tied together ----

  /** The desired count has not been written since the evaluation behind the job read it. */
  predicate Undisturbed(v: Service) {
    Unlowered(v) && v.trace.writesAtRead == v.writes
  }

  /** The RUNNING tasks are the target and the survivors. */
  ghost predicate TargetApart(f: Fake, target: TaskID, survivors: seq<TaskID>) {
    target in Running(f) && Names(survivors) == Running(f) - {target}
  }

  ghost predicate Protects(f: Fake, survivors: seq<TaskID>) {
    survivors != [] ==> f.protectedTask == Some(Names(survivors))
  }

  ghost predicate EvalTied(v: Service, f: Fake) {
    && v.desired == f.state.desiredCount
    && FreshRead(v)
    && (v.eval.EvalRead? && v.eval.writes == v.writes && v.eval.read.pendingCount == 0 ==> f.state == v.eval.read)
    && (v.eval.EvalApproved? && v.eval.writes == v.writes && v.eval.read.pendingCount == 0 ==> f.state == v.eval.read)
  }

  ghost predicate JobTied(v: Service, f: Fake) {
    && (v.job.Some? ==> v.trace.writesAtRead <= v.writes)
    && (Undisturbed(v) ==> IsConverged(f.state) && f.state.desiredCount == v.job.value.currentDesiredCount)
    && (Unlowered(v) && v.job.value.status.Draining? ==>
          && Protects(f, v.job.value.protectedTaskIDs)
          && (Undisturbed(v) ==> TargetApart(f, v.job.value.targetTaskID, v.job.value.protectedTaskIDs)))
  }

  ghost predicate DrainTied(p: DrainPoint, v: Service, f: Fake) {
    match p
    case HaveRunning(running) => Undisturbed(v) ==> Lists(running, Running(f))
    case HaveReports(running, _) => Undisturbed(v) ==> Lists(running, Running(f))
    case Selected(target, survivors) => Undisturbed(v) ==> TargetApart(f, target, survivors)
    case Guarded(target, survivors) => Protects(f, survivors) && (Undisturbed(v) ==> TargetApart(f, target, survivors))
    case DrainSent(target, survivors) =>
      Protects(f, survivors) && (Undisturbed(v) ==> TargetApart(f, target, survivors))
    case DrainRefused(_) => true
  }

  ghost predicate PcTied(pc: Pc, v: Service, f: Fake) {
    pc.Working? && pc.point.Starting? ==> DrainTied(pc.point.drain, v, f)
  }

  ghost predicate Tied(x: Loop, n: string) {
    && x.s.services.Keys == {n}
    && EvalTied(x.s.services[n], x.f)
    && JobTied(x.s.services[n], x.f)
    && PcTied(x.s.pc, x.s.services[n], x.f)
    && (x.careful ==> Agrees(x.f))
  }

  // ---- Moves keep the tie ----

  lemma TimerKeepsTie(x: Loop, task: TaskID, n: string)
    requires Tied(x, n)
    ensures Tied(x.(f := Fire(x.f, task)), n)
  {
    if x.careful {
      StepKeepsAgreement(x.f, Timer(task));
    }
  }

  /** After a counted write nothing is undisturbed; protection and the read-back of the count remain. */
  lemma WrittenKeepsTie(x: Loop, y: Loop, n: string)
    requires Tied(x, n) && y.s.services.Keys == {n}
    requires var v, w := x.s.services[n], y.s.services[n];
             && w.writes == v.writes + 1 && w.desired == y.f.state.desiredCount
             && (w.eval == v.eval || w.eval.EvalWritten?)
             && w.job == v.job && w.trace == v.trace && y.s.pc == x.s.pc
    requires y.f.protectedTask == x.f.protectedTask
    requires y.careful ==> Agrees(y.f)
    ensures Tied(y, n)
  {
  }

  lemma UpdatingKeeps(f: Fake, count: int, c: Circumstances)
    requires CanUpdate(f, count, c)
    ensures Updating(f, count, c).protectedTask == f.protectedTask
    ensures Agrees(f) && (c.reached ==> Careful(f, SetDesired(count, c.names, c.victim, c.notified))) ==>
              Agrees(Updating(f, count, c))
    ensures Succeeds(f, count, c) ==> Updating(f, count, c).state.desiredCount == count
    ensures !Succeeds(f, count, c) ==> Updating(f, count, c).state.desiredCount == f.state.desiredCount
  {
    if Agrees(f) && c.reached && Careful(f, SetDesired(count, c.names, c.victim, c.notified)) {
      StepKeepsAgreement(f, SetDesired(count, c.names, c.victim, c.notified));
    }
  }

  lemma ManualKeepsTie(x: Loop, count: int, c: Circumstances, n: string, timeout: Time)
    requires Tied(x, n) && CanUpdate(x.f, count, c)
    ensures Tied(After(x, ManualScale(count, c), n, timeout), n)
  {
    UpdatingKeeps(x.f, count, c);
    var y := After(x, ManualScale(count, c), n, timeout);
    if y.f != x.f {
      WrittenKeepsTie(x, y, n);
    }
  }

  // The evaluation scheduler.

  lemma PlainEvalKeepsTie(x: Loop, l: Label, n: string, timeout: Time)
    requires Tied(x, n) && Enabled(x.s, l)
    requires l.Read? || l.GiveUp? || l.RecordOut? || l.Pass? || l.Wait?
    requires l.Read? ==> l.running == x.f.state.runningCount && l.pending == x.f.state.pendingCount
    ensures Tied(x.(s := Step(x.s, l, timeout)), n)
  {
  }

  lemma DecideKeepsTie(x: Loop, total: int, required: int, coverage: real, n: string)
    requires Tied(x, n) && Enabled(x.s, Decide(n, total, required, coverage))
    ensures Tied(x.(s := DecideStep(x.s, n, total, required, coverage)), n)
  {
  }

  /** A request: the count and the convergence the evaluation read still hold if nothing was written since. */
  lemma RequestKeepsTie(x: Loop, ok: bool, n: string)
    requires Tied(x, n) && Inv(x.s) && Enabled(x.s, Act(n, ok))
    requires Asks(x.s, Act(n, ok)).None?
    ensures Tied(x.(s := ActStep(x.s, n, ok)), n)
  {
    assert ServiceOk(n, x.s.services[n], x.s.clock);
    hide PastOk;
    if RequestOutcome(x.s.services[n].job).Done? {
      InactiveIsAtRest(x.s, n);
    }
  }

  /** The state after a step that reported success carries the write; after one that did not, it carries one exactly
      if the fake changed behind its back. */
  lemma RaiseKeepsTie(x: Loop, ok: bool, c: Circumstances, n: string, timeout: Time)
    requires Tied(x, n) && Possible(x, Scheduler(Act(n, ok), c), n)
    requires Asks(x.s, Act(n, ok)).Some?
    ensures Tied(After(x, Scheduler(Act(n, ok), c), n, timeout), n)
  {
    var count := Asks(x.s, Act(n, ok)).value;
    UpdatingKeeps(x.f, count, c);
    var y := After(x, Scheduler(Act(n, ok), c), n, timeout);
    if ok {
      WrittenKeepsTie(x, y, n);
    } else {
      var z := x.(s := ActStep(x.s, n, ok));
      assert Tied(z, n);
      if y.f != x.f {
        WrittenKeepsTie(z, y, n);
      }
    }
  }

  // The scale-in scheduler.

  lemma SurvivorsAreTheRest(running: seq<TaskID>, target: TaskID)
    ensures Names(Survivors(running, target)) == Names(running) - {target}
  {
  }

  lemma SelectionIsRunning(running: seq<TaskID>, reports: Reports, expired: set<TaskID>)
    requires SelectTarget(running, reports, expired).Some?
    ensures SelectTarget(running, reports, expired).value.taskID in running
  {
    SelectionIsFirstLeast(running, reports, expired);
  }

  lemma DrainKeepsTie(x: Loop, a: Answer, n: string)
    requires Tied(x, n) && Local(x.s) && Fits(x.s.pc, a) && AnswersAgree(x.s, x.f, a)
    requires x.s.pc.point.Starting?
    ensures Tied(x.(s := DrainStep(x.s, a), f := Protecting(x.s, x.f, a)), n)
  {
    var p := x.s.pc.point.drain;
    if p.HaveReports? && a.Invalid? && SelectTarget(p.running, p.reports, a.expired).Some? {
      SelectionIsRunning(p.running, p.reports, a.expired);
      SurvivorsAreTheRest(p.running, SelectTarget(p.running, p.reports, a.expired).value.taskID);
    }
  }

  lemma StartKeepsTie(x: Loop, a: Answer, n: string, timeout: Time)
    requires Tied(x, n) && Local(x.s) && Fits(x.s.pc, a) && AnswersAgree(x.s, x.f, a)
    requires x.s.pc.point.Start?
    ensures Tied(x.(s := StartStep(x.s, a, timeout)), n)
  {
  }

  /** The survivors' protection of a job that has not lowered the count is only replaced while it is REQUESTED. */
  lemma QuietWorkKeepsTie(x: Loop, t: Protocol.State, a: Answer, n: string)
    requires Tied(x, n) && Local(x.s) && LocalStep(x.s, t)
    requires (x.s.pc.point.Lowering? && !Executes(x.s.pc.point)) || x.s.pc.point.Finishing?
    requires t.pc.Working? ==> !t.pc.point.Starting?
    ensures Tied(x.(s := t, f := Protecting(x.s, x.f, a)), n)
  {
    var v, w := x.s.services[n], t.services[n];
    assert Unlowered(w) ==> Unlowered(v) && w.job.value.status == v.job.value.status;
  }

  lemma FailKeepsTie(x: Loop, n: string)
    requires Tied(x, n) && Local(x.s) && x.s.pc.point.Failing?
    ensures Tied(x.(s := FailStep(x.s)), n)
  {
  }

  lemma RecordKeepsTie(x: Loop, a: Answer, n: string)
    requires Tied(x, n) && Local(x.s) && Fits(x.s.pc, a) && x.s.pc.point == Lowering(Written)
    ensures Tied(x.(s := LowerStep(x.s, a), f := Protecting(x.s, x.f, a)), n)
  {
  }

  /** The update got through: the job has lowered the count, and nothing is undisturbed any more. */
  lemma LoweredKeepsTie(x: Loop, y: Loop, n: string)
    requires Tied(x, n) && Local(x.s) && x.s.pc.point == Lowering(Ready)
    requires y.s == LowerStep(x.s, Ack) && y.f.protectedTask == x.f.protectedTask
    requires y.f.state.desiredCount == x.s.pc.job.targetDesiredCount
    requires y.careful ==> Agrees(y.f)
    ensures Tied(y, n)
  {
  }

  /** The update failed: the job will be, and the fake may have changed all the same. */
  lemma NotLoweredKeepsTie(x: Loop, n: string)
    requires Tied(x, n) && Local(x.s) && x.s.pc.point == Lowering(Ready)
    ensures Tied(x.(s := LowerStep(x.s, Failure)), n)
  {
  }

  lemma LoweringMove(x: Loop, a: Answer, c: Circumstances, n: string, timeout: Time)
    requires Possible(x, Scheduler(Advance(a), c), n)
    requires x.s.pc.Working? && x.s.pc.point == Lowering(Ready)
    ensures var count := x.s.pc.job.targetDesiredCount;
            && CanUpdate(x.f, count, c) && (a == Ack || a == Failure) && (a == Ack <==> Succeeds(x.f, count, c))
            && After(x, Scheduler(Advance(a), c), n, timeout)
                 == UpdateMove(x, LowerStep(x.s, a), a == Ack, count, c, n, timeout)
  {
    assert Asks(x.s, Advance(a)) == Some(x.s.pc.job.targetDesiredCount);
    hide LowerStep, UpdateMove, Update, CanUpdate, Succeeds;
  }

  lemma LoweringKeepsTie(x: Loop, a: Answer, c: Circumstances, n: string, timeout: Time)
    requires Tied(x, n) && Local(x.s) && Possible(x, Scheduler(Advance(a), c), n)
    requires x.s.pc.point == Lowering(Ready)
    ensures Tied(After(x, Scheduler(Advance(a), c), n, timeout), n)
  {
    var count := x.s.pc.job.targetDesiredCount;
    LoweringMove(x, a, c, n, timeout);
    UpdatingKeeps(x.f, count, c);
    hide After, Possible, CanUpdate, Succeeds, Updating;
    var y := UpdateMove(x, LowerStep(x.s, a), a == Ack, count, c, n, timeout);
    if a == Ack {
      LoweredKeepsTie(x, y, n);
    } else {
      NotLoweredKeepsTie(x, n);
      if y.f != x.f {
        WrittenKeepsTie(x.(s := LowerStep(x.s, a)), y, n);
      }
    }
  }

  lemma FinishingStaysOut(s: Protocol.State, a: Answer)
    requires Local(s) && Fits(s.pc, a)
    ensures s.pc.point.Finishing? ==> var t := CompletionStep(s, a); t.pc.Working? ==> !t.pc.point.Starting?
    ensures s.pc.point.Lowering? ==> var t := LowerStep(s, a); t.pc.Working? ==> !t.pc.point.Starting?
  {
  }

  lemma WorkKeepsTie(x: Loop, a: Answer, n: string, timeout: Time)
    requires Tied(x, n) && Local(x.s) && Fits(x.s.pc, a) && AnswersAgree(x.s, x.f, a)
    requires x.s.pc.point != Lowering(Ready)
    ensures Tied(x.(s := AdvanceStep(x.s, a, timeout), f := Protecting(x.s, x.f, a)), n)
  {
    hide Tied, LocalStep, StartStep, DrainStep, LowerStep, CompletionStep, FailStep, AnswersAgree;
    WorkIsLocal(x.s, a, timeout);
    match x.s.pc.point
    case Start => StartKeepsTie(x, a, n, timeout);
    case Starting(_) => DrainKeepsTie(x, a, n);
    case Lowering(p) =>
      if p == Written {
        RecordKeepsTie(x, a, n);
      } else {
        FinishingStaysOut(x.s, a);
        QuietWorkKeepsTie(x, LowerStep(x.s, a), a, n);
      }
    case Finishing(_) =>
      FinishingStaysOut(x.s, a);
      QuietWorkKeepsTie(x, CompletionStep(x.s, a), a, n);
    case Failing(_) => FailKeepsTie(x, n);
  }

  lemma NextKeepsTie(x: Loop, a: Answer, n: string, timeout: Time)
    requires Tied(x, n) && Enabled(x.s, Advance(a)) && x.s.pc.Looping?
    ensures Tied(x.(s := AdvanceStep(x.s, a, timeout)), n)
  {
  }

  lemma SchedulerKeepsTie(x: Loop, l: Label, c: Circumstances, n: string, timeout: Time)
    requires Tied(x, n) && Inv(x.s) && Possible(x, Scheduler(l, c), n)
    ensures Tied(After(x, Scheduler(l, c), n, timeout), n)
  {
    hide Tied, PcOk, PastOk, AdvanceStep, DecideStep, ActStep;
    match l
    case Advance(a) =>
      if !x.s.pc.Working? {
        NextKeepsTie(x, a, n, timeout);
      } else {
        CurrentIsLocal(x.s);
        if x.s.pc.point == Lowering(Ready) {
          LoweringKeepsTie(x, a, c, n, timeout);
        } else {
          WorkKeepsTie(x, a, n, timeout);
        }
      }
    case Decide(m, total, required, coverage) =>
      OnlyService(x, m, n);
      DecideKeepsTie(x, total, required, coverage, n);
    case Act(m, ok) =>
      OnlyService(x, m, n);
      if Asks(x.s, l).Some? {
        RaiseKeepsTie(x, ok, c, n, timeout);
      } else {
        RequestKeepsTie(x, ok, n);
      }
    case _ => PlainEvalKeepsTie(x, l, n, timeout);
  }

  lemma OnlyService(x: Loop, m: string, n: string)
    requires Tied(x, n) && m in x.s.services
    ensures m == n
  {
  }

  /** The protocol's invariant also survives a move: a move is one protocol step, or two when the fake changed
      behind a failed call. */
  lemma MoveKeepsInv(x: Loop, m: Move, n: string, timeout: Time)
    requires Inv(x.s) && Possible(x, m, n)
    ensures Inv(After(x, m, n, timeout).s)
  {
    hide Inv, Step;
    match m
    case TimerFires(_) =>
    case ManualScale(count, c) =>
      TouchKeepsInv(x.s, n, Updating(x.f, count, c).state.desiredCount, timeout);
    case Scheduler(l, c) =>
      StepKeepsInv(x.s, l, timeout);
      if Asks(x.s, l).Some? {
        TouchKeepsInv(Step(x.s, l, timeout), n, Updating(x.f, Asks(x.s, l).value, c).state.desiredCount, timeout);
      }
  }

  lemma TouchKeepsInv(s: Protocol.State, n: string, desired: int, timeout: Time)
    requires Inv(s)
    ensures Inv(Touch(s, n, desired, timeout))
  {
    if n in s.services {
      StepKeepsInv(s, Manual(n, desired), timeout);
    }
  }

  lemma {:induction false} RunKeepsTie(xs: seq<Loop>, moves: seq<Move>, n: string, timeout: Time, k: nat)
    requires IsLoopRun(xs, moves, n, timeout) && k < |xs|
    ensures Inv(xs[k].s) && Tied(xs[k], n)
  {
    if k > 0 {
      RunKeepsTie(xs, moves, n, timeout, k - 1);
      MoveKeepsInv(xs[k - 1], moves[k - 1], n, timeout);
      MoveKeepsTie(xs[k - 1], moves[k - 1], n, timeout);
    }
  }

  lemma MoveKeepsTie(x: Loop, m: Move, n: string, timeout: Time)
    requires Inv(x.s) && Tied(x, n) && Possible(x, m, n)
    ensures Tied(After(x, m, n, timeout), n)
  {
    hide Inv, Tied;
    match m
    case TimerFires(task) => TimerKeepsTie(x, task, n);
    case ManualScale(count, c) => ManualKeepsTie(x, count, c, n, timeout);
    case Scheduler(l, c) => SchedulerKeepsTie(x, l, c, n, timeout);
  }

  // ---- What the closed loop guarantees ----

  /** The scale-in scheduler is about to lower the count for a job, and the call goes through. */
  ghost predicate Applies(x: Loop, m: Move, n: string) {
    && m.Scheduler? && m.step == Advance(Ack)
    && x.s.pc.Working? && x.s.pc.point == Lowering(Ready)
    && Possible(x, m, n)
  }

  /** The desired count has not been written between the read behind the job and now. */
  ghost predicate NotDisturbed(x: Loop, n: string) {
    n in x.s.services && x.s.services[n].trace.writesAtRead == x.s.services[n].writes
  }

  lemma ReadyFacts(x: Loop, m: Move, n: string)
    requires Inv(x.s) && Tied(x, n) && Applies(x, m, n)
    ensures var v, job := x.s.services[n], x.s.pc.job;
            && job.serviceName == n && v.job.Some? && Unlowered(v) && v.job.value.status.Draining?
            && job.targetTaskID == v.job.value.targetTaskID
            && job.protectedTaskIDs == v.job.value.protectedTaskIDs
            && job.currentDesiredCount == v.job.value.currentDesiredCount
            && OneStep(job) && HasTarget(job)
  {
    CurrentIsLocal(x.s);
  }

  /** The same update, coming upon another task first. */
  function WithVictim(m: Move, victim: Option<TaskID>): Move
    requires m.Scheduler?
  {
    Scheduler(m.step, m.c.(victim := victim))
  }

  /** The tasks a move takes from RUNNING to STOPPED. */
  ghost function StoppedBy(x: Loop, m: Move, n: string, timeout: Time): set<TaskID>
    requires Possible(x, m, n)
  {
    Running(x.f) * InStatus(After(x, m, n, timeout).f.tasks, STOPPED)
  }

  /** Whichever task the fake comes upon, the move stops `target` and no other task. */
  ghost predicate StopsExactly(x: Loop, m: Move, n: string, timeout: Time, target: TaskID)
    requires m.Scheduler?
  {
    forall v :: CanBeVictim(x.f, v) ==>
      Applies(x, WithVictim(m, v), n) && StoppedBy(x, WithVictim(m, v), n, timeout) == {target}
  }

  lemma UpdateStops(f: Fake, count: int, names: seq<TaskID>, v: Option<TaskID>)
    requires MissingCount(f.state, count) <= |names| && AreNew(names, f) && CanBeVictim(f, v)
    requires Update(f, count, names, v, true).0 == Updated
    ensures var g := Update(f, count, names, v, true).1;
            && Running(f) * InStatus(g.tasks, STOPPED)
                 == (if count < f.state.desiredCount && v.Some? then {v.value} else {})
            && (count < f.state.desiredCount && v.Some? ==> g.tasks == f.tasks[v.value := STOPPED])
            && g.state.desiredCount == count
  {
    if count > f.state.desiredCount {
      var created := names[..MissingCount(f.state, count)];
      assert forall t :: t in created ==> t in names;
    }
  }

  /** A lowering that goes through is the fake's update for the job's target, whatever task it comes upon. */
  lemma ApplyingUpdates(x: Loop, m: Move, n: string, timeout: Time, v: Option<TaskID>)
    requires Applies(x, m, n) && m.c.notified && CanBeVictim(x.f, v)
    ensures Applies(x, WithVictim(m, v), n) && CanBeVictim(x.f, m.c.victim)
    ensures var f, count := x.f, x.s.pc.job.targetDesiredCount;
            && MissingCount(f.state, count) <= |m.c.names| && AreNew(m.c.names, f)
            && Update(f, count, m.c.names, v, true).0 == Updated
            && After(x, WithVictim(m, v), n, timeout).f == Update(f, count, m.c.names, v, true).1
  {
    hide AdvanceStep, Touch;
    assert Asks(x.s, m.step) == Some(x.s.pc.job.targetDesiredCount);
  }

  /** Only the drained task dies, exactly: whichever task the fake comes upon first, a job's lowering stops the drained
      task and no other if and only if the count is above the job's target and the drained task is the only RUNNING
      task that is not protected. */
  lemma StopsExactlyTheTargetIff(x: Loop, m: Move, n: string, timeout: Time)
    requires Applies(x, m, n) && m.c.notified
    ensures StopsExactly(x, m, n, timeout, x.s.pc.job.targetTaskID)
       <==> x.s.pc.job.targetDesiredCount < x.f.state.desiredCount && Unprotected(x.f) == {x.s.pc.job.targetTaskID}
  {
    var count, target := x.s.pc.job.targetDesiredCount, x.s.pc.job.targetTaskID;
    forall v | CanBeVictim(x.f, v)
      ensures Applies(x, WithVictim(m, v), n)
      ensures StoppedBy(x, WithVictim(m, v), n, timeout)
           == if count < x.f.state.desiredCount && v.Some? then {v.value} else {}
    {
      ApplyingUpdates(x, m, n, timeout, v);
      UpdateStops(x.f, count, m.c.names, v);
    }
    ApplyingUpdates(x, m, n, timeout, m.c.victim);
    hide Applies, Possible, StoppedBy, Update;
    if StopsExactly(x, m, n, timeout, target) {
      assert CanBeVictim(x.f, m.c.victim) && m.c.victim == Some(target);
      forall u | u in Unprotected(x.f)
        ensures u == target
      {
        assert CanBeVictim(x.f, Some(u));
      }
    }
  }

  /** An undisturbed job with survivors meets that condition. */
  lemma UndisturbedTargetIsAlone(x: Loop, m: Move, n: string)
    requires Inv(x.s) && Tied(x, n) && Applies(x, m, n) && NotDisturbed(x, n)
    requires x.s.pc.job.protectedTaskIDs != []
    ensures x.s.pc.job.targetDesiredCount == x.f.state.desiredCount - 1
    ensures Unprotected(x.f) == {x.s.pc.job.targetTaskID}
    ensures m.c.notified && m.c.victim == Some(x.s.pc.job.targetTaskID)
  {
    ReadyFacts(x, m, n);
  }

  /** When the count was not written between the read behind a job and the job's own lowering, and the job has
      survivors, the lowering takes the count down by one and stops exactly the drained task, in whatever order the
      fake walks its tasks. */
  lemma OnlyTheDrainedTaskStops(xs: seq<Loop>, moves: seq<Move>, n: string, timeout: Time, k: nat)
    requires IsLoopRun(xs, moves, n, timeout) && k < |moves|
    requires Applies(xs[k], moves[k], n) && NotDisturbed(xs[k], n)
    requires xs[k].s.pc.job.protectedTaskIDs != []
    ensures var x, y, target := xs[k], xs[k + 1], xs[k].s.pc.job.targetTaskID;
            && target in x.f.tasks && x.f.tasks[target] == RUNNING
            && y.f.tasks == x.f.tasks[target := STOPPED]
            && y.f.state.desiredCount == x.f.state.desiredCount - 1
            && StopsExactly(x, moves[k], n, timeout, target)
  {
    RunKeepsTie(xs, moves, n, timeout, k);
    var x, m := xs[k], moves[k];
    UndisturbedTargetIsAlone(x, m, n);
    StopsExactlyTheTargetIff(x, m, n, timeout);
    ApplyingUpdates(x, m, n, timeout, m.c.victim);
    UpdateStops(x.f, x.s.pc.job.targetDesiredCount, m.c.names, m.c.victim);
    assert WithVictim(m, m.c.victim) == m;
    assert x.s.pc.job.targetTaskID in Unprotected(x.f);
    hide Inv, Tied, Applies, Possible, StopsExactly, Update, After;
  }

  lemma NoSurvivorsMeansOne(f: Fake, target: TaskID, survivors: seq<TaskID>)
    requires TargetApart(f, target, survivors) && survivors == []
    ensures |Running(f)| == 1
  {
    assert Names(survivors) == {};
    assert forall t :: t in Running(f) ==> t == target || t in Running(f) - {target};
    assert Running(f) == {target};
  }

  /** While counters and table agree, an undisturbed job has survivors: it was requested for at least two tasks. */
  lemma UndisturbedJobsHaveSurvivors(x: Loop, m: Move, n: string)
    requires Inv(x.s) && Tied(x, n) && Applies(x, m, n) && NotDisturbed(x, n) && x.careful
    ensures x.s.pc.job.protectedTaskIDs != []
  {
    ReadyFacts(x, m, n);
    var job := x.s.pc.job;
    if job.protectedTaskIDs == [] {
      NoSurvivorsMeansOne(x.f, job.targetTaskID, job.protectedTaskIDs);
    }
  }

  lemma UndisturbedStaysCareful(x: Loop, m: Move, n: string, timeout: Time)
    requires Inv(x.s) && Tied(x, n) && Applies(x, m, n) && NotDisturbed(x, n) && x.careful
    requires x.s.pc.job.protectedTaskIDs != []
    ensures After(x, m, n, timeout).careful
  {
    ReadyFacts(x, m, n);
    UndisturbedTargetIsAlone(x, m, n);
    LoweringMove(x, Ack, m.c, n, timeout);
    assert x.s.pc.job.targetTaskID in Unprotected(x.f);
    hide Inv, Possible, After, LowerStep, Update;
  }

  /** In a run that has been careful so far, the whole claim needs only that the count was not written in between,
      and the lowering itself is careful again if its stop notification goes out. */
  lemma CarefulRunsStopOnlyDrainedTasks(xs: seq<Loop>, moves: seq<Move>, n: string, timeout: Time, k: nat)
    requires IsLoopRun(xs, moves, n, timeout) && k < |moves|
    requires Applies(xs[k], moves[k], n) && NotDisturbed(xs[k], n) && xs[k].careful
    ensures var x, y, target := xs[k], xs[k + 1], xs[k].s.pc.job.targetTaskID;
            && target in x.f.tasks && x.f.tasks[target] == RUNNING
            && y.f.tasks == x.f.tasks[target := STOPPED]
            && y.f.state.desiredCount == x.f.state.desiredCount - 1
            && StopsExactly(x, moves[k], n, timeout, target)
            && y.careful && Agrees(y.f)
  {
    RunKeepsTie(xs, moves, n, timeout, k);
    RunKeepsTie(xs, moves, n, timeout, k + 1);
    hide Inv, Applies, Possible, After, StopsExactly, Agrees, NotDisturbed;
    UndisturbedJobsHaveSurvivors(xs[k], moves[k], n);
    OnlyTheDrainedTaskStops(xs, moves, n, timeout, k);
    UndisturbedStaysCareful(xs[k], moves[k], n, timeout);
  }

  /** With or without interference: a job's lowering never touches a survivor of that job. */
  lemma SurvivorsOutliveTheirJob(xs: seq<Loop>, moves: seq<Move>, n: string, timeout: Time, k: nat, survivor: TaskID)
    requires IsLoopRun(xs, moves, n, timeout) && k < |moves|
    requires Applies(xs[k], moves[k], n)
    requires survivor in xs[k].s.pc.job.protectedTaskIDs && survivor in xs[k].f.tasks
    ensures survivor in xs[k + 1].f.tasks && xs[k + 1].f.tasks[survivor] == xs[k].f.tasks[survivor]
  {
    RunKeepsTie(xs, moves, n, timeout, k);
    ReadyFacts(xs[k], moves[k], n);
    assert survivor in Names(xs[k].s.pc.job.protectedTaskIDs);
  }

  /** A lowering takes the count down by exactly one exactly when the count is what the job was requested for: the
      target is fixed at the request and is not adjusted to writes in between. */
  lemma LowersByOneIff(xs: seq<Loop>, moves: seq<Move>, n: string, timeout: Time, k: nat)
    requires IsLoopRun(xs, moves, n, timeout) && k < |moves| && Applies(xs[k], moves[k], n)
    ensures xs[k + 1].f.state.desiredCount == xs[k].f.state.desiredCount - 1
       <==> xs[k].f.state.desiredCount == xs[k].s.pc.job.currentDesiredCount
  {
    RunKeepsTie(xs, moves, n, timeout, k);
    ReadyFacts(xs[k], moves[k], n);
    UpdatingKeeps(xs[k].f, xs[k].s.pc.job.targetDesiredCount, moves[k].c);
  }
}
