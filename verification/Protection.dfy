/**
 * Who is protected by a job, over every run of the closed loop: its survivors from DRAINING on, failed or not, until
 * a completing job replaces them by what is RUNNING then.
 */
module Protection {
  import opened Domain
  import opened ScaleInCoordinator
  import opened FakeEcs
  import opened Protocol
  import opened ProtocolSafety
  import opened ClosedLoop

  predicate IsProtected(f: Fake, task: TaskID) {
    f.protectedTask.Some? && task in f.protectedTask.value
  }

  predicate WorksOn(pc: Pc, n: string) {
    pc.Working? && pc.job.serviceName == n
  }

  /** The protection of the survivors has been replaced on the way to COMPLETED. */
  predicate Replaced(s: Protocol.State, n: string) {
    && n in s.services && s.services[n].job.Some?
    && (s.services[n].job.value.status.Completed? || (WorksOn(s.pc, n) && s.pc.point == Finishing(Released)))
  }

  /** Unless it was replaced, the protection is that of the stored job's survivors. */
  ghost predicate KeepsSurvivors(x: Loop, n: string) {
    && n in x.s.services
    && (x.s.services[n].job.Some? && !Replaced(x.s, n) ==> Protects(x.f, x.s.services[n].job.value.protectedTaskIDs))
  }

  // ---- Moves ----

  /** Neither the job nor the protected set changes, and the scheduler stays where it is. */
  lemma SameJobKeeps(x: Loop, y: Loop, n: string)
    requires KeepsSurvivors(x, n) && n in y.s.services
    requires y.s.services[n].job == x.s.services[n].job && y.s.pc == x.s.pc && y.f.protectedTask == x.f.protectedTask
    ensures KeepsSurvivors(y, n)
  {
  }

  lemma StartKeeps(x: Loop, a: Answer, n: string, timeout: Time)
    requires Tied(x, n) && Local(x.s) && Fits(x.s.pc, a) && KeepsSurvivors(x, n) && x.s.pc.point.Start?
    ensures KeepsSurvivors(x.(s := StartStep(x.s, a, timeout)), n)
  {
  }

  lemma DrainKeeps(x: Loop, a: Answer, n: string)
    requires Tied(x, n) && Local(x.s) && Fits(x.s.pc, a) && KeepsSurvivors(x, n) && x.s.pc.point.Starting?
    ensures KeepsSurvivors(x.(s := DrainStep(x.s, a), f := Protecting(x.s, x.f, a)), n)
  {
  }

  lemma LowerKeeps(x: Loop, a: Answer, n: string)
    requires Tied(x, n) && Local(x.s) && Fits(x.s.pc, a) && KeepsSurvivors(x, n) && x.s.pc.point.Lowering?
    ensures KeepsSurvivors(x.(s := LowerStep(x.s, a)), n)
  {
  }

  lemma FinishKeeps(x: Loop, a: Answer, n: string)
    requires Tied(x, n) && Local(x.s) && Fits(x.s.pc, a) && KeepsSurvivors(x, n)
    ensures x.s.pc.point.Finishing? ==>
              KeepsSurvivors(x.(s := CompletionStep(x.s, a), f := Protecting(x.s, x.f, a)), n)
    ensures x.s.pc.point.Failing? ==> KeepsSurvivors(x.(s := FailStep(x.s)), n)
  {
  }

  lemma WorkKeeps(x: Loop, a: Answer, n: string, timeout: Time)
    requires Tied(x, n) && Local(x.s) && Fits(x.s.pc, a) && KeepsSurvivors(x, n)
    ensures KeepsSurvivors(x.(s := AdvanceStep(x.s, a, timeout), f := Protecting(x.s, x.f, a)), n)
  {
    hide Tied, KeepsSurvivors, StartStep, DrainStep, LowerStep, CompletionStep, FailStep;
    match x.s.pc.point
    case Start => StartKeeps(x, a, n, timeout);
    case Starting(_) => DrainKeeps(x, a, n);
    case Lowering(_) => LowerKeeps(x, a, n);
    case Finishing(_) => FinishKeeps(x, a, n);
    case Failing(_) => FinishKeeps(x, a, n);
  }

  /** A write behind or within a step leaves the protected set alone. */
  lemma UpdateKeeps(x: Loop, t: Protocol.State, told: bool, count: int, c: Circumstances, n: string, timeout: Time)
    requires CanUpdate(x.f, count, c) && KeepsSurvivors(x.(s := t), n)
    ensures KeepsSurvivors(UpdateMove(x, t, told, count, c, n, timeout), n)
  {
    UpdatingKeeps(x.f, count, c);
    SameJobKeeps(x.(s := t), UpdateMove(x, t, told, count, c, n, timeout), n);
  }

  lemma PlainStepKeeps(x: Loop, l: Label, n: string, timeout: Time)
    requires Inv(x.s) && x.s.services.Keys == {n} && KeepsSurvivors(x, n) && Enabled(x.s, l)
    requires !l.Advance? || !x.s.pc.Working?
    ensures KeepsSurvivors(x.(s := Step(x.s, l, timeout)), n)
  {
    if l.Act? {
      assert l.service == n;
      if RequestOutcome(x.s.services[n].job).Done? {
        InactiveIsAtRest(x.s, n);
      }
    }
  }

  lemma SchedulerKeeps(x: Loop, l: Label, c: Circumstances, n: string, timeout: Time)
    requires Inv(x.s) && Tied(x, n) && KeepsSurvivors(x, n) && ClosedLoop.Possible(x, Scheduler(l, c), n)
    ensures KeepsSurvivors(ClosedLoop.After(x, Scheduler(l, c), n, timeout), n)
  {
    hide KeepsSurvivors, Inv, Tied, AdvanceStep, DecideStep, ActStep, UpdateMove;
    assert x.s.services.Keys == {n} by {
      TiedKeys(x, n);
    }
    if l.Advance? && x.s.pc.Working? {
      CurrentIsLocal(x.s);
      WorkKeeps(x, l.answer, n, timeout);
      if Asks(x.s, l).Some? {
        UpdateKeeps(x, Step(x.s, l, timeout), ReportsSuccess(l), Asks(x.s, l).value, c, n, timeout);
      }
    } else {
      PlainStepKeeps(x, l, n, timeout);
      if Asks(x.s, l).Some? {
        UpdateKeeps(x, Step(x.s, l, timeout), ReportsSuccess(l), Asks(x.s, l).value, c, n, timeout);
      }
    }
  }

  lemma TiedKeys(x: Loop, n: string)
    requires Tied(x, n)
    ensures x.s.services.Keys == {n}
  {
  }

  lemma MoveKeeps(x: Loop, m: Move, n: string, timeout: Time)
    requires Inv(x.s) && Tied(x, n) && KeepsSurvivors(x, n) && ClosedLoop.Possible(x, m, n)
    ensures KeepsSurvivors(ClosedLoop.After(x, m, n, timeout), n)
  {
    hide KeepsSurvivors, Inv, Tied;
    match m
    case TimerFires(task) =>
      TiedKeys(x, n);
      SameJobKeeps(x, ClosedLoop.After(x, m, n, timeout), n);
    case ManualScale(count, c) => UpdateKeeps(x, x.s, false, count, c, n, timeout);
    case Scheduler(l, c) => SchedulerKeeps(x, l, c, n, timeout);
  }

  /** In every state of every closed-loop run a stored job's survivors are protected, DRAINING, APPLIED or FAILED,
      unless a completing job has replaced the protected set. */
  lemma {:induction false} SurvivorsStayProtected(xs: seq<Loop>, moves: seq<Move>, n: string, timeout: Time, k: nat)
    requires IsLoopRun(xs, moves, n, timeout) && k < |xs|
    ensures KeepsSurvivors(xs[k], n)
  {
    if k > 0 {
      hide KeepsSurvivors, Inv, Tied, ClosedLoop.After, ClosedLoop.Possible;
      SurvivorsStayProtected(xs, moves, n, timeout, k - 1);
      RunKeepsTie(xs, moves, n, timeout, k - 1);
      MoveKeeps(xs[k - 1], moves[k - 1], n, timeout);
    }
  }

  // ---- What a completing job leaves protected ----

  /** The scheduler is about to read which tasks still run, to complete the job of `n`. */
  predicate ReadsRest(x: Loop, n: string) {
    && n in x.s.services && WorksOn(x.s.pc, n) && x.s.pc.point == Finishing(StateDeleted)
    && x.s.services[n].job == Some(x.s.pc.job)
  }

  /** `job` is `before`, completed or not. */
  predicate SameButStatus(job: ScaleInJob, before: ScaleInJob) {
    job == before.(status := job.status, updatedAt := job.updatedAt)
  }

  /** Past its read of the RUNNING tasks, the job of `n`, which was `before` then, leaves `rest` protected. */
  ghost predicate Leaves(x: Loop, n: string, before: ScaleInJob, rest: set<TaskID>) {
    && n in x.s.services && x.s.services[n].job.Some? && SameButStatus(x.s.services[n].job.value, before)
    && (if WorksOn(x.s.pc, n) && x.s.pc.point.Finishing? && x.s.pc.point.finish.HaveSurvivors?
        then x.s.pc.job == before && Names(x.s.pc.point.finish.survivors) == rest
        else Replaced(x.s, n) && x.f.protectedTask == Some(rest))
  }

  /** The job of `n` is past that read. */
  predicate IsPastRead(s: Protocol.State, n: string) {
    Replaced(s, n) || (WorksOn(s.pc, n) && s.pc.point.Finishing? && s.pc.point.finish.HaveSurvivors?)
  }

  /** What was left protected still is, and whoever gets past the read leaves the RUNNING tasks but its target. */
  ghost predicate LeavesOn(x: Loop, y: Loop, n: string) {
    IsPastRead(y.s, n) ==>
      if IsPastRead(x.s, n)
      then forall before, rest :: Leaves(x, n, before, rest) ==> Leaves(y, n, before, rest)
      else ReadsRest(x, n) && Leaves(y, n, x.s.pc.job, Running(x.f) - {x.s.pc.job.targetTaskID})
  }

  lemma FinishLeaves(x: Loop, a: Answer, n: string)
    requires Tied(x, n) && Local(x.s) && Fits(x.s.pc, a) && AnswersAgree(x.s, x.f, a)
    requires x.s.pc.point.Finishing?
    ensures LeavesOn(x, x.(s := CompletionStep(x.s, a), f := Protecting(x.s, x.f, a)), n)
  {
    if a.Tasks? {
      SurvivorsAreTheRest(a.ids, x.s.pc.job.targetTaskID);
    }
  }

  /** Work before `checkCompletion` is not past the read, and failing ends nothing that is. */
  lemma EarlierWorkLeaves(x: Loop, a: Answer, n: string, timeout: Time)
    requires Tied(x, n) && Local(x.s) && Fits(x.s.pc, a)
    ensures x.s.pc.point.Start? ==> !IsPastRead(StartStep(x.s, a, timeout), n)
    ensures x.s.pc.point.Starting? ==> !IsPastRead(DrainStep(x.s, a), n)
    ensures x.s.pc.point.Lowering? ==> !IsPastRead(LowerStep(x.s, a), n)
    ensures x.s.pc.point.Failing? ==> !IsPastRead(FailStep(x.s), n)
  {
  }

  lemma WorkLeaves(x: Loop, a: Answer, n: string, timeout: Time)
    requires Tied(x, n) && Local(x.s) && Fits(x.s.pc, a) && AnswersAgree(x.s, x.f, a)
    ensures LeavesOn(x, x.(s := AdvanceStep(x.s, a, timeout), f := Protecting(x.s, x.f, a)), n)
    ensures !x.s.pc.point.Finishing? ==> !IsPastRead(AdvanceStep(x.s, a, timeout), n)
  {
    if x.s.pc.point.Finishing? {
      FinishLeaves(x, a, n);
    } else {
      EarlierWorkLeaves(x, a, n, timeout);
      hide IsPastRead, Leaves, StartStep, DrainStep, LowerStep, FailStep;
    }
  }

  lemma SameJobLeaves(x: Loop, y: Loop, n: string)
    requires n in x.s.services && n in y.s.services && y.s.services[n].job == x.s.services[n].job
    requires y.s.pc == x.s.pc && y.f.protectedTask == x.f.protectedTask
    ensures LeavesOn(x, y, n)
  {
  }

  lemma PlainStepLeaves(x: Loop, l: Label, n: string, timeout: Time)
    requires Inv(x.s) && x.s.services.Keys == {n} && Enabled(x.s, l)
    requires !l.Advance? || !x.s.pc.Working?
    ensures LeavesOn(x, x.(s := Step(x.s, l, timeout)), n)
  {
    if l.Act? {
      ActLeaves(x, l.ok, n);
    } else {
      hide Inv;
    }
  }

  lemma ActLeaves(x: Loop, ok: bool, n: string)
    requires Inv(x.s) && x.s.services.Keys == {n} && Enabled(x.s, Act(n, ok))
    ensures LeavesOn(x, x.(s := ActStep(x.s, n, ok)), n)
  {
    if RequestOutcome(x.s.services[n].job).Done? {
      InactiveIsAtRest(x.s, n);
    }
    hide Inv;
  }

  lemma UpdateLeaves(x: Loop, t: Protocol.State, told: bool, count: int, c: Circumstances, n: string, timeout: Time)
    requires CanUpdate(x.f, count, c) && n in t.services && LeavesOn(x, x.(s := t), n)
    ensures LeavesOn(x, UpdateMove(x, t, told, count, c, n, timeout), n)
  {
    UpdatingKeeps(x.f, count, c);
    var y := UpdateMove(x, t, told, count, c, n, timeout);
    SameJobLeaves(x.(s := t), y, n);
  }

  lemma SchedulerLeaves(x: Loop, l: Label, c: Circumstances, n: string, timeout: Time)
    requires Inv(x.s) && Tied(x, n) && ClosedLoop.Possible(x, Scheduler(l, c), n)
    ensures LeavesOn(x, ClosedLoop.After(x, Scheduler(l, c), n, timeout), n)
  {
    hide LeavesOn, Inv, Tied, AdvanceStep, DecideStep, ActStep, UpdateMove;
    TiedKeys(x, n);
    var t := Step(x.s, l, timeout);
    StepKeepsInv(x.s, l, timeout);
    if l.Advance? && x.s.pc.Working? {
      CurrentIsLocal(x.s);
      WorkLeaves(x, l.answer, n, timeout);
    } else {
      PlainStepLeaves(x, l, n, timeout);
    }
    if Asks(x.s, l).Some? {
      StepKeepsService(x.s, l, n, timeout);
      UpdateLeaves(x, t, ReportsSuccess(l), Asks(x.s, l).value, c, n, timeout);
    }
  }

  lemma StepKeepsService(s: Protocol.State, l: Label, n: string, timeout: Time)
    requires Inv(s) && Enabled(s, l) && n in s.services
    ensures n in Step(s, l, timeout).services
  {
    if l.Advance? && s.pc.Working? {
      CurrentIsLocal(s);
      hide AdvanceStep;
      WorkIsLocal(s, l.answer, timeout);
    }
  }

  lemma MoveLeaves(x: Loop, m: Move, n: string, timeout: Time)
    requires Inv(x.s) && Tied(x, n) && ClosedLoop.Possible(x, m, n)
    ensures LeavesOn(x, ClosedLoop.After(x, m, n, timeout), n)
  {
    hide LeavesOn, Inv, Tied;
    TiedKeys(x, n);
    SameJobLeaves(x, x, n);
    match m
    case TimerFires(task) => SameJobLeaves(x, ClosedLoop.After(x, m, n, timeout), n);
    case ManualScale(count, c) => UpdateLeaves(x, x.s, false, count, c, n, timeout);
    case Scheduler(l, c) => SchedulerLeaves(x, l, c, n, timeout);
  }

  lemma RunLeaves(xs: seq<Loop>, moves: seq<Move>, n: string, timeout: Time, k: nat)
    requires IsLoopRun(xs, moves, n, timeout) && 0 < k < |xs|
    ensures LeavesOn(xs[k - 1], xs[k], n)
  {
    hide Inv, Tied, LeavesOn, ClosedLoop.After, ClosedLoop.Possible;
    RunKeepsTie(xs, moves, n, timeout, k - 1);
    MoveLeaves(xs[k - 1], moves[k - 1], n, timeout);
  }

  lemma FreshIsNotPast(xs: seq<Loop>, moves: seq<Move>, n: string, timeout: Time)
    requires IsLoopRun(xs, moves, n, timeout)
    ensures !IsPastRead(xs[0].s, n)
  {
  }

  lemma LeavesStill(x: Loop, y: Loop, n: string, before: ScaleInJob, rest: set<TaskID>)
    requires LeavesOn(x, y, n) && IsPastRead(x.s, n) && IsPastRead(y.s, n) && Leaves(x, n, before, rest)
    ensures Leaves(y, n, before, rest)
  {
  }

  lemma LeavesFirst(x: Loop, y: Loop, n: string)
    requires LeavesOn(x, y, n) && !IsPastRead(x.s, n) && IsPastRead(y.s, n)
    ensures ReadsRest(x, n) && Leaves(y, n, x.s.pc.job, Running(x.f) - {x.s.pc.job.targetTaskID})
  {
  }

  /** A job past its read was at it before, and leaves protected what was RUNNING then, but for its target. */
  lemma {:induction false} CompletionRead(xs: seq<Loop>, moves: seq<Move>, n: string, timeout: Time, k: nat)
    returns (read: nat)
    requires IsLoopRun(xs, moves, n, timeout) && k < |xs| && IsPastRead(xs[k].s, n)
    ensures read < k && ReadsRest(xs[read], n)
    ensures Leaves(xs[k], n, xs[read].s.pc.job, Running(xs[read].f) - {xs[read].s.pc.job.targetTaskID})
  {
    FreshIsNotPast(xs, moves, n, timeout);
    hide IsLoopRun, Leaves, LeavesOn, IsPastRead, Running;
    RunLeaves(xs, moves, n, timeout, k);
    if IsPastRead(xs[k - 1].s, n) {
      read := CompletionRead(xs, moves, n, timeout, k - 1);
      var before := xs[read].s.pc.job;
      LeavesStill(xs[k - 1], xs[k], n, before, Running(xs[read].f) - {before.targetTaskID});
    } else {
      read := k - 1;
      LeavesFirst(xs[k - 1], xs[k], n);
    }
  }

  lemma TargetIsNoSurvivor(x: Loop, n: string, survivor: TaskID)
    requires Inv(x.s) && n in x.s.services && Replaced(x.s, n)
    requires survivor in x.s.services[n].job.value.protectedTaskIDs
    ensures survivor != x.s.services[n].job.value.targetTaskID
  {
    if x.s.pc.Working? && x.s.pc.job.serviceName == n {
      CurrentIsLocal(x.s);
    } else {
      assert AtRest(x.s.services[n], x.s.clock);
    }
  }

  /** When a job's end releases a survivor, exactly: in every state of every closed-loop run, a survivor of the stored
      job is unprotected if and only if the job has completed, or is about to be marked so, and the survivor was no
      longer RUNNING when the job read what still runs. A job that fails releases nobody. */
  lemma SurvivorIsReleasedIff(xs: seq<Loop>, moves: seq<Move>, n: string, timeout: Time, k: nat, survivor: TaskID)
    returns (read: nat)
    requires IsLoopRun(xs, moves, n, timeout) && k < |xs|
    requires n in xs[k].s.services && xs[k].s.services[n].job.Some?
    requires survivor in xs[k].s.services[n].job.value.protectedTaskIDs
    ensures Replaced(xs[k].s, n) ==>
              && read < k && ReadsRest(xs[read], n)
              && SameButStatus(xs[k].s.services[n].job.value, xs[read].s.pc.job)
    ensures !IsProtected(xs[k].f, survivor) <==> Replaced(xs[k].s, n) && survivor !in Running(xs[read].f)
  {
    read := 0;
    if Replaced(xs[k].s, n) {
      read := CompletionRead(xs, moves, n, timeout, k);
      RunKeepsTie(xs, moves, n, timeout, k);
      TargetIsNoSurvivor(xs[k], n, survivor);
    } else {
      SurvivorsStayProtected(xs, moves, n, timeout, k);
      assert survivor in Names(xs[k].s.services[n].job.value.protectedTaskIDs);
    }
    hide IsLoopRun, Inv, Tied, Running;
  }
}
