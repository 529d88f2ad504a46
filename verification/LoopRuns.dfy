/**
 * Runs of the closed loop from an empty fake: a job whose lowering stops the task it drained, the same job after a
 * raise in between, and a job that fails and leaves its survivors protected.
 */
module LoopRuns {
  import opened Domain
  import opened ScalingPolicy
  import opened SessionCounts
  import opened FakeEcs
  import opened Protocol
  import opened Reachability
  import opened ClosedLoop

  /** A fresh process against a fake that has never had a task. */
  ghost predicate FreshLoop(x: Loop, n: string) {
    && Init(x.s) && x.s.services.Keys == {n} && x.s.services[n].desired == 0
    && x.f == Fake(ControlState(0, 0, 0), map[], None) && x.careful
  }

  /** Some run of the closed loop from `x0` ends in `x`. */
  ghost predicate Reaches(x0: Loop, x: Loop, n: string, timeout: Time) {
    exists xs: seq<Loop>, moves: seq<Move> :: IsLoopRun(xs, moves, n, timeout) && xs[0] == x0 && xs[|moves|] == x
  }

  lemma ReachesItself(x: Loop, n: string, timeout: Time)
    requires FreshLoop(x, n)
    ensures Reaches(x, x, n, timeout)
  {
    assert InStatus(x.f.tasks, RUNNING) == {} && InStatus(x.f.tasks, PENDING) == {};
    assert IsLoopRun([x], [], n, timeout);
  }

  lemma RunGrows(xs: seq<Loop>, moves: seq<Move>, m: Move, n: string, timeout: Time)
    requires IsLoopRun(xs, moves, n, timeout) && ClosedLoop.Possible(xs[|moves|], m, n)
    ensures IsLoopRun(xs + [After(xs[|moves|], m, n, timeout)], moves + [m], n, timeout)
  {
    hide After, ClosedLoop.Possible, Init, Agrees;
  }

  /** A run from `x0` whose last move is `m`, made from `x`. */
  ghost predicate EndsInMove(xs: seq<Loop>, moves: seq<Move>, x0: Loop, x: Loop, m: Move, n: string, timeout: Time) {
    && IsLoopRun(xs, moves, n, timeout) && xs[0] == x0
    && |moves| > 0 && xs[|moves| - 1] == x && moves[|moves| - 1] == m
  }

  lemma LastMove(x0: Loop, x: Loop, m: Move, n: string, timeout: Time) returns (xs: seq<Loop>, moves: seq<Move>)
    requires Reaches(x0, x, n, timeout) && ClosedLoop.Possible(x, m, n)
    ensures EndsInMove(xs, moves, x0, x, m, n, timeout)
    ensures xs[|moves|] == After(x, m, n, timeout)
  {
    hide After, ClosedLoop.Possible, Init, Agrees;
    var ys: seq<Loop>, before: seq<Move> :| IsLoopRun(ys, before, n, timeout) && ys[0] == x0 && ys[|before|] == x;
    RunGrows(ys, before, m, n, timeout);
    xs, moves := ys + [After(x, m, n, timeout)], before + [m];
  }

  lemma Go(x0: Loop, x: Loop, m: Move, n: string, timeout: Time) returns (y: Loop)
    requires Reaches(x0, x, n, timeout) && ClosedLoop.Possible(x, m, n)
    ensures y == After(x, m, n, timeout) && Reaches(x0, y, n, timeout)
  {
    hide After, ClosedLoop.Possible, Init, Agrees;
    var xs, moves := LastMove(x0, x, m, n, timeout);
    y := xs[|moves|];
  }

  const CALL := Circumstances(true, [], None, true)

  const TWO := map["a" := RUNNING, "b" := RUNNING]

  // ---- Up to a job that has seen its third zero ----

  /** Two tasks run, and nothing has happened but `k` evaluations in favour of a scale-in. */
  ghost predicate TwoRunning(x: Loop, n: string, k: int) {
    && Waiting(x.s, n, k) && x.s.services[n].job.None?
    && x.f == Fake(ControlState(2, 2, 0), TWO, None) && x.careful
  }

  lemma AskForTwo(x0: Loop, n: string, timeout: Time) returns (y: Loop)
    requires FreshLoop(x0, n)
    ensures Reaches(x0, y, n, timeout) && Waiting(y.s, n, 0) && y.s.services[n].job.None? && y.careful
    ensures y.f == Fake(ControlState(2, 0, 2), map["a" := PENDING, "b" := PENDING], None)
  {
    ReachesItself(x0, n, timeout);
    assert Unprotected(x0.f) == {};
    CreatingTwo(x0.f.tasks, "a", "b");
    hide Reaches, WithPending, Unprotected;
    y := Go(x0, x0, ManualScale(2, CALL.(names := ["a", "b"])), n, timeout);
    assert map["a" := PENDING, "b" := PENDING] == map[]["a" := PENDING]["b" := PENDING];
  }

  lemma StartTwo(x0: Loop, n: string, timeout: Time) returns (y: Loop)
    requires FreshLoop(x0, n)
    ensures Reaches(x0, y, n, timeout) && TwoRunning(y, n, 0)
  {
    hide Reaches;
    y := AskForTwo(x0, n, timeout);
    y := Go(x0, y, TimerFires("a"), n, timeout);
    y := Go(x0, y, TimerFires("b"), n, timeout);
    assert y.f.tasks == TWO;
  }

  /** Two tasks run as far as an evaluation can see. */
  ghost predicate SeesTwo(x: Loop, n: string) {
    && x.s.services.Keys == {n} && x.s.services[n].eval.EvalIdle? && x.s.services[n].desired == 2
    && x.f.state == ControlState(2, 2, 0)
  }

  /** An evaluation that finds no sessions, full coverage and `required` tasks to be enough. */
  lemma Evaluated(x0: Loop, x: Loop, n: string, timeout: Time, required: int) returns (y: Loop)
    requires Reaches(x0, x, n, timeout) && SeesTwo(x, n)
    ensures Reaches(x0, y, n, timeout)
    ensures var v := x.s.services[n];
            var held := SetService(x.s, n, v.(eval := EvalRead(ControlState(2, 2, 0), v.writes)));
            y == x.(s := DecideStep(held, n, 0, required, 1.0))
  {
    hide Reaches, DecideStep;
    y := Go(x0, x, Scheduler(Read(n, 2, 0), CALL), n, timeout);
    y := Go(x0, y, Scheduler(Decide(n, 0, required, 1.0), CALL), n, timeout);
  }

  lemma FourEvaluations(x0: Loop, n: string, timeout: Time) returns (y: Loop)
    requires FreshLoop(x0, n)
    ensures Reaches(x0, y, n, timeout) && TwoRunning(y, n, 4)
  {
    hide Reaches;
    y := StartTwo(x0, n, timeout);
    var k := 0;
    while k < 4
      invariant 0 <= k <= 4 && Reaches(x0, y, n, timeout) && TwoRunning(y, n, k)
    {
      y := Evaluated(x0, y, n, timeout, 1);
      k := k + 1;
    }
  }

  /** Two tasks run, and there is a job to make it one; the count has not been written since the read behind it. */
  ghost predicate TwoWithJob(x: Loop, n: string) {
    && SeesTwo(x, n) && x.careful && x.f.tasks == TWO && x.s.services[n].policy == NEW_POLICY
    && x.s.services[n].trace.writesAtRead == x.s.services[n].writes
    && x.s.services[n].job.Some? && x.s.services[n].job.value.serviceName == n
    && x.s.services[n].job.value.currentDesiredCount == 2 && x.s.services[n].job.value.targetDesiredCount == 1
  }

  lemma JobRequested(x0: Loop, n: string, timeout: Time) returns (y: Loop)
    requires FreshLoop(x0, n)
    ensures Reaches(x0, y, n, timeout) && TwoWithJob(y, n) && JustRequested(y.s, n) && y.f.protectedTask.None?
  {
    hide Reaches;
    y := FourEvaluations(x0, n, timeout);
    y := Evaluated(x0, y, n, timeout, 1);
    y := Go(x0, y, Scheduler(Act(n, true), CALL), n, timeout);
  }

  /** The job of `n` drains "a" and protects "b", and has seen `streak` zeros. */
  ghost predicate Drains(x: Loop, n: string, streak: int) {
    && TwoWithJob(x, n) && x.f.protectedTask == Some({"b"})
    && var job := x.s.services[n].job.value;
    && job.status.Draining? && job.zeroSessionStreak == streak
    && job.targetTaskID == "a" && job.protectedTaskIDs == ["b"]
  }

  function Call(a: Answer): Move {
    Scheduler(Advance(a), CALL)
  }

  /** The scheduler at the start of the only job's turn. */
  lemma TurnOpens(x0: Loop, x: Loop, n: string, timeout: Time) returns (y: Loop)
    requires Reaches(x0, x, n, timeout) && x.s.pc.Idle? && TwoWithJob(x, n)
    requires IsActive(x.s.services[n].job.value.status)
    ensures Reaches(x0, y, n, timeout)
    ensures y == x.(s := x.s.(pc := Working(x.s.services[n].job.value, Start, [])))
  {
    hide Reaches;
    var job := x.s.services[n].job.value;
    y := Go(x0, x, Scheduler(Pass([job]), CALL), n, timeout);
    y := Go(x0, y, Call(Ack), n, timeout);
    assert [job][1..] == [];
  }

  lemma SelectA()
    ensures SelectTarget(["a", "b"], map["a" := 0, "b" := 3], {}) == Some(TaskInfo("a", 0))
    ensures Survivors(["a", "b"], "a") == ["b"]
  {
    SmoothSelection();
    assert ["a", "b"][..1] == ["a"];
    assert ["a"][..0] == [];
  }

  lemma DrainStarts(x0: Loop, n: string, timeout: Time) returns (y: Loop)
    requires FreshLoop(x0, n)
    ensures Reaches(x0, y, n, timeout) && Drains(y, n, 0) && y.s.pc.Idle?
  {
    hide Reaches;
    y := JobRequested(x0, n, timeout);
    y := TurnOpens(x0, y, n, timeout);
    y := ReportsRead(x0, y, n, timeout);
    y := TargetGuarded(x0, y, n, timeout);
    y := TargetSent(x0, y, n, timeout);
  }

  /** The only job, just requested, is being worked on at `point`. */
  ghost predicate WorksOnRequested(x: Loop, n: string, point: Point) {
    && TwoWithJob(x, n) && JustRequested(x.s.(pc := Idle), n)
    && x.s.pc == Working(x.s.services[n].job.value, point, [])
  }

  lemma ReportsRead(x0: Loop, x: Loop, n: string, timeout: Time) returns (y: Loop)
    requires Reaches(x0, x, n, timeout) && WorksOnRequested(x, n, Start)
    ensures Reaches(x0, y, n, timeout)
    ensures WorksOnRequested(y, n, Starting(HaveReports(["a", "b"], map["a" := 0, "b" := 3])))
  {
    hide Reaches;
    assert Running(x.f) == {"a", "b"};
    y := Go(x0, x, Call(Tasks(["a", "b"])), n, timeout);
    y := Go(x0, y, Call(Counts(map["a" := 0, "b" := 3])), n, timeout);
  }

  lemma TargetGuarded(x0: Loop, x: Loop, n: string, timeout: Time) returns (y: Loop)
    requires Reaches(x0, x, n, timeout)
    requires WorksOnRequested(x, n, Starting(HaveReports(["a", "b"], map["a" := 0, "b" := 3])))
    ensures Reaches(x0, y, n, timeout)
    ensures WorksOnRequested(y, n, Starting(Guarded("a", ["b"]))) && y.f.protectedTask == Some({"b"})
  {
    hide Reaches;
    SelectA();
    y := Go(x0, x, Call(Invalid({})), n, timeout);
    y := Go(x0, y, Call(Ack), n, timeout);
    assert Names(["b"]) == {"b"};
  }

  lemma TargetSent(x0: Loop, x: Loop, n: string, timeout: Time) returns (y: Loop)
    requires Reaches(x0, x, n, timeout)
    requires WorksOnRequested(x, n, Starting(Guarded("a", ["b"]))) && x.f.protectedTask == Some({"b"})
    ensures Reaches(x0, y, n, timeout) && Drains(y, n, 0) && y.s.pc.Idle?
  {
    hide Reaches;
    y := Go(x0, x, Call(Ack), n, timeout);
    y := Go(x0, y, Call(Ack), n, timeout);
    y := Go(x0, y, Call(Ack), n, timeout);
  }

  lemma ZeroSeen(x0: Loop, x: Loop, n: string, timeout: Time, streak: int) returns (y: Loop)
    requires Reaches(x0, x, n, timeout) && Drains(x, n, streak) && x.s.pc.Idle? && streak < 2
    ensures Reaches(x0, y, n, timeout) && Drains(y, n, streak + 1) && y.s.pc.Idle?
  {
    hide Reaches;
    y := TurnOpens(x0, x, n, timeout);
    y := Go(x0, y, Call(Sessions(0)), n, timeout);
    y := Go(x0, y, Call(Ack), n, timeout);
    y := Go(x0, y, Call(Ack), n, timeout);
  }

  /** The third zero has been counted; the update for the job, requested for two tasks, is due. */
  predicate AtUpdate(pc: Pc, n: string) {
    && pc.Working? && pc.point == Lowering(Ready) && pc.job.serviceName == n
    && pc.job.targetTaskID == "a" && pc.job.protectedTaskIDs == ["b"]
    && pc.job.currentDesiredCount == 2 && pc.job.targetDesiredCount == 1
  }

  lemma ThirdZero(x0: Loop, n: string, timeout: Time) returns (y: Loop)
    requires FreshLoop(x0, n)
    ensures Reaches(x0, y, n, timeout) && Drains(y, n, 3) && AtUpdate(y.s.pc, n)
  {
    hide Reaches;
    y := DrainStarts(x0, n, timeout);
    y := ZeroSeen(x0, y, n, timeout, 0);
    y := ZeroSeen(x0, y, n, timeout, 1);
    y := TurnOpens(x0, y, n, timeout);
    y := Go(x0, y, Call(Sessions(0)), n, timeout);
    y := Go(x0, y, Call(Ack), n, timeout);
  }

  /** Some run from an empty fake takes a job to its lowering without any disturbance. */
  lemma UndisturbedLoweringHappens(x0: Loop, n: string, timeout: Time)
    requires FreshLoop(x0, n)
    ensures exists xs: seq<Loop>, moves: seq<Move>, x: Loop, m: Move ::
              && EndsInMove(xs, moves, x0, x, m, n, timeout)
              && Applies(x, m, n) && NotDisturbed(x, n) && x.careful && x.s.pc.job.protectedTaskIDs != []
  {
    var x := ThirdZero(x0, n, timeout);
    var m := Scheduler(Advance(Ack), CALL.(victim := Some("a")));
    DueCanApply(x, n);
    var xs, moves := LastMove(x0, x, m, n, timeout);
    hide *;
    assert EndsInMove(xs, moves, x0, x, m, n, timeout);
  }

  lemma DueCanApply(x: Loop, n: string)
    requires Drains(x, n, 3) && AtUpdate(x.s.pc, n)
    ensures var m := Scheduler(Advance(Ack), CALL.(victim := Some("a")));
            Applies(x, m, n) && NotDisturbed(x, n) && x.s.pc.job.protectedTaskIDs != []
  {
    assert "a" in Unprotected(x.f);
  }

  // ---- The same job after a raise in between ----

  const FOUR := map["a" := RUNNING, "b" := RUNNING, "c" := RUNNING, "d" := RUNNING]

  /** The update is due, but two more tasks are desired and running than when the job was requested. */
  ghost predicate IsOvertaken(x: Loop, n: string) {
    && x.s.services.Keys == {n} && x.careful && AtUpdate(x.s.pc, n)
    && x.f == Fake(ControlState(4, 4, 0), FOUR, Some({"b"}))
  }

  /** An evaluation has approved a raise from two to four. */
  ghost predicate RaiseApproved(x: Loop, n: string) {
    && x.s.services.Keys == {n} && x.careful && AtUpdate(x.s.pc, n)
    && x.f == Fake(ControlState(2, 2, 0), TWO, Some({"b"}))
    && var e := x.s.services[n].eval;
    && e.EvalApproved? && e.result.action == ScaleOut && e.result.recommendedDesiredCount == 4
  }

  lemma RaiseWhileDue(x0: Loop, n: string, timeout: Time) returns (y: Loop)
    requires FreshLoop(x0, n)
    ensures Reaches(x0, y, n, timeout) && RaiseApproved(y, n)
  {
    hide Reaches;
    y := ThirdZero(x0, n, timeout);
    y := Evaluated(x0, y, n, timeout, 4);
    y := Evaluated(x0, y, n, timeout, 4);
    y := Evaluated(x0, y, n, timeout, 4);
  }

  lemma RaiseToFour(x0: Loop, n: string, timeout: Time) returns (y: Loop)
    requires FreshLoop(x0, n)
    ensures Reaches(x0, y, n, timeout)
    ensures y.s.services.Keys == {n} && y.careful && AtUpdate(y.s.pc, n)
    ensures y.f == Fake(ControlState(4, 2, 2), TWO["c" := PENDING]["d" := PENDING], Some({"b"}))
  {
    hide Reaches;
    y := RaiseWhileDue(x0, n, timeout);
    assert "a" in Unprotected(y.f);
    CreatingTwo(y.f.tasks, "c", "d");
    hide WithPending, Unprotected;
    y := Go(x0, y, Scheduler(Act(n, true), CALL.(names := ["c", "d"], victim := Some("a"))), n, timeout);
  }

  lemma Overtake(x0: Loop, n: string, timeout: Time) returns (y: Loop)
    requires FreshLoop(x0, n)
    ensures Reaches(x0, y, n, timeout) && IsOvertaken(y, n)
  {
    hide Reaches;
    y := RaiseToFour(x0, n, timeout);
    y := Go(x0, y, TimerFires("c"), n, timeout);
    y := Go(x0, y, TimerFires("d"), n, timeout);
    assert y.f.tasks == FOUR;
  }

  lemma FourAgree(f: Fake)
    requires f == Fake(ControlState(4, 4, 0), FOUR, Some({"b"}))
    ensures Agrees(f) && "c" in Unprotected(f) && "a" in Running(f)
    ensures var g := Fake(ControlState(1, 1, 0), FOUR["c" := STOPPED], Some({"b"}));
            !Agrees(g) && Running(f) * InStatus(g.tasks, STOPPED) == {"c"}
  {
    assert Running(f) == {"a", "b", "c", "d"};
    assert InStatus(f.tasks, PENDING) == {};
    var g := Fake(ControlState(1, 1, 0), FOUR["c" := STOPPED], Some({"b"}));
    assert Running(g) == {"a", "b", "d"};
    assert InStatus(g.tasks, STOPPED) == {"c"};
  }

  lemma OvertakenStopsAnother(x: Loop, n: string, timeout: Time)
    requires IsOvertaken(x, n)
    ensures var m := Scheduler(Advance(Ack), CALL.(victim := Some("c")));
            && Applies(x, m, n) && StoppedBy(x, m, n, timeout) == {"c"}
            && After(x, m, n, timeout).f == Fake(ControlState(1, 1, 0), FOUR["c" := STOPPED], Some({"b"}))
  {
    FourAgree(x.f);
    hide AdvanceStep, Touch, Agrees, InStatus, Unprotected;
    assert Asks(x.s, Advance(Ack)) == Some(1);
  }

  /** From an empty fake, a job is requested for two tasks and drains one; an evaluation raises the count to four while
      it drains; and its lowering, to the target fixed at the request, takes the count down by three, stops a task that
      was never drained, leaves the drained one RUNNING and the counters apart from the table. */
  lemma DisturbedLoweringCanStopAnotherTask(x0: Loop, n: string, timeout: Time)
    requires FreshLoop(x0, n)
    ensures exists xs: seq<Loop>, moves: seq<Move>, x: Loop, m: Move ::
              && EndsInMove(xs, moves, x0, x, m, n, timeout) && Applies(x, m, n) && x.careful && Agrees(x.f)
              && StoppedBy(x, m, n, timeout) == {"c"} && x.s.pc.job.targetTaskID == "a"
              && var y := xs[|moves|];
              && "a" in y.f.tasks && y.f.tasks["a"] == RUNNING
              && y.f.state.desiredCount == x.f.state.desiredCount - 3 && !Agrees(y.f)
  {
    var x := Overtake(x0, n, timeout);
    var m := Scheduler(Advance(Ack), CALL.(victim := Some("c")));
    OvertakenStopsAnother(x, n, timeout);
    FourAgree(x.f);
    var xs, moves := LastMove(x0, x, m, n, timeout);
    hide Applies, StoppedBy, Agrees, After, ClosedLoop.Possible, IsLoopRun;
    assert EndsInMove(xs, moves, x0, x, m, n, timeout);
  }

  // ---- A job that fails ----

  lemma DrainFails(x0: Loop, n: string, timeout: Time) returns (y: Loop)
    requires FreshLoop(x0, n)
    ensures Reaches(x0, y, n, timeout) && y.s.pc.Idle? && y.s.services.Keys == {n} && y.s.services[n].job.Some?
    ensures y.s.services[n].job.value.status.Failed? && y.s.services[n].job.value.protectedTaskIDs == ["b"]
    ensures y.f == Fake(ControlState(2, 2, 0), TWO, Some({"b"}))
  {
    hide Reaches;
    y := DrainStarts(x0, n, timeout);
    y := TurnOpens(x0, y, n, timeout);
    y := Go(x0, y, Call(Failure), n, timeout);
    y := Go(x0, y, Call(Ack), n, timeout);
    y := Go(x0, y, Call(Ack), n, timeout);
  }

  /** From an empty fake, a job that fails while draining leaves its survivor protected, with the scheduler idle and no
      active job left to release it. */
  lemma FailedJobsLeaveSurvivorsProtected(x0: Loop, n: string, timeout: Time)
    requires FreshLoop(x0, n)
    ensures exists xs: seq<Loop>, moves: seq<Move> ::
              && IsLoopRun(xs, moves, n, timeout) && xs[0] == x0
              && var y := xs[|moves|];
              && y.s.pc.Idle? && y.s.services.Keys == {n} && y.s.services[n].job.Some?
              && var job := y.s.services[n].job.value;
              && job.status.Failed? && job.protectedTaskIDs != []
              && Protects(y.f, job.protectedTaskIDs) && Names(job.protectedTaskIDs) <= Running(y.f)
  {
    var y := DrainFails(x0, n, timeout);
    assert Names(["b"]) == {"b"};
  }
}
