/**
 * Chains of steps, and passes at one instant: whatever the scale-in scheduler is at, it can be brought to an end, and
 * the job of one service can be taken through a pass with given answers while the others' calls fail.
 */
module Passes {
  import opened Domain
  import opened ScalingPolicy
  import opened SessionCounts
  import opened Protocol
  import opened ScaleInJobs
  import opened UndisturbedTick
  import opened Convergence

  /** Nobody else writes the count of `n`, and every evaluation requires `r` tasks. */
  ghost predicate AllCalm(labels: seq<Label>, n: string, r: int) {
    forall i :: 0 <= i < |labels| ==> Calm(labels[i], n, r)
  }

  /** Only the scale-in scheduler moves. */
  ghost predicate AllPassing(labels: seq<Label>) {
    forall i :: 0 <= i < |labels| ==> labels[i].Pass? || labels[i].Advance?
  }

  lemma {:induction false} LeadsOn(s: State, first: seq<Label>, timeout: Time, t: State, then_: seq<Label>, u: State)
    requires Leads(s, first, timeout, t) && Leads(t, then_, timeout, u)
    ensures Leads(s, first + then_, timeout, u)
    decreases |first|
  {
    if first == [] {
      assert first + then_ == then_;
    } else {
      LeadsOn(Step(s, first[0], timeout), first[1..], timeout, t, then_, u);
      assert (first + then_)[1..] == first[1..] + then_;
    }
  }

  lemma LeadsOne(s: State, l: Label, timeout: Time)
    requires Enabled(s, l)
    ensures Leads(s, [l], timeout, Step(s, l, timeout))
  {
    assert [l][1..] == [];
  }

  /** Every chain of steps from an initial state is a run. */
  lemma {:induction false} LeadsIsRun(s: State, labels: seq<Label>, timeout: Time, t: State)
    returns (states: seq<State>)
    requires Leads(s, labels, timeout, t)
    ensures |states| == |labels| + 1 && states[0] == s && states[|labels|] == t
    ensures forall i :: 0 <= i < |labels| ==>
              Enabled(states[i], labels[i]) && states[i + 1] == Step(states[i], labels[i], timeout)
    decreases |labels|
  {
    if labels == [] {
      states := [s];
    } else {
      hide Enabled, Step;
      var rest := LeadsIsRun(Step(s, labels[0], timeout), labels[1..], timeout, t);
      states := [s] + rest;
      forall i | 0 <= i < |labels|
        ensures Enabled(states[i], labels[i]) && states[i + 1] == Step(states[i], labels[i], timeout)
      {
        if i > 0 {
          assert labels[i] == labels[1..][i - 1];
        }
      }
    }
  }

  lemma {:induction false} DriveLeads(s: State, ans: JobAnswers, timeout: Time, fuel: nat) returns (labels: seq<Label>)
    ensures Leads(s, labels, timeout, Drive(s, ans, timeout, fuel))
    ensures forall i :: 0 <= i < |labels| ==> labels[i].Advance?
    decreases fuel
  {
    labels := [];
    if fuel > 0 && CanDrive(s) {
      hide AdvanceStep;
      ScriptedAnswersFit(s, ans);
      var l := Advance(AnswerAt(s.pc.job, s.pc.point, ans));
      var rest := DriveLeads(NextStep(s, ans, timeout), ans, timeout, fuel - 1);
      LeadsOne(s, l, timeout);
      LeadsOn(s, [l], timeout, NextStep(s, ans, timeout), rest, Drive(s, ans, timeout, fuel));
      labels := [l] + rest;
    }
  }

  lemma Chained(s: State, n: string, first: seq<Label>, timeout: Time, t: State, then_: seq<Label>, u: State)
    returns (labels: seq<Label>)
    requires Leads(s, first, timeout, t) && Leads(t, then_, timeout, u) && AllCalm(first, n, 1) && AllCalm(then_, n, 1)
    ensures Leads(s, labels, timeout, u) && AllCalm(labels, n, 1)
  {
    LeadsOn(s, first, timeout, t, then_, u);
    labels := first + then_;
  }

  /** Two chains from an initial state are a run that passes through the state between them. */
  lemma JoinedRun(s: State, first: seq<Label>, timeout: Time, t: State, then_: seq<Label>, u: State)
    returns (states: seq<State>)
    requires Init(s) && Leads(s, first, timeout, t) && Leads(t, then_, timeout, u)
    ensures IsRun(states, first + then_, timeout) && states[0] == s && states[|first|] == t
    ensures states[|first + then_|] == u
  {
    hide Leads, Enabled, Step, Init;
    var before := LeadsIsRun(s, first, timeout, t);
    var after := LeadsIsRun(t, then_, timeout, u);
    states := before + after[1..];
    forall i | 0 <= i < |first + then_|
      ensures Enabled(states[i], (first + then_)[i]) && states[i + 1] == Step(states[i], (first + then_)[i], timeout)
    {
      if i >= |first| {
        assert (first + then_)[i] == then_[i - |first|] && states[i] == after[i - |first|];
      }
    }
  }

  // ---- Bringing a pass to its end ----

  /** Jobs are stored under their service's name. */
  ghost predicate Named(s: State) {
    forall m :: m in s.services && s.services[m].job.Some? ==> s.services[m].job.value.serviceName == m
  }

  /** What happened between the states happened to other services, at one instant. */
  ghost predicate Aside(s: State, t: State, n: string) {
    && n in s.services && t.services.Keys == s.services.Keys && t.services[n] == s.services[n]
    && t.clock == s.clock && t.past == s.past && (Named(s) ==> Named(t))
  }

  /** An error where one can come, and what the coordinator or the policy answers elsewhere. */
  function ErrorAnswer(pc: Pc): (a: Answer)
    ensures Fits(pc, a)
  {
    if Fits(pc, Failure) then Failure else Ack
  }

  /** How long a turn can go on when every call fails that can. */
  function StepsLeft(point: Point): nat {
    match point
    case Failing(_) => 1
    case Starting(Guarded(_, _)) => 3
    case Lowering(SawNone) => 3
    case Lowering(Written) => 3
    case _ => 2
  }

  /** A step of another service's turn that ends it or brings its end closer. */
  ghost predicate GivesUp(s: State, t: State, n: string)
    requires s.pc.Working?
  {
    && Aside(s, t, n)
    && (t.pc == Looping(s.pc.rest)
        || (t.pc.Working? && t.pc.job == s.pc.job && t.pc.rest == s.pc.rest
            && StepsLeft(t.pc.point) < StepsLeft(s.pc.point)))
  }

  lemma GivingUpEarly(s: State, n: string, timeout: Time)
    requires CanDrive(s) && n in s.services && s.pc.job.serviceName != n
    ensures s.pc.point.Start? ==> GivesUp(s, StartStep(s, ErrorAnswer(s.pc), timeout), n)
    ensures s.pc.point.Starting? ==> GivesUp(s, DrainStep(s, ErrorAnswer(s.pc)), n)
  {
  }

  lemma GivingUpLowering(s: State, n: string)
    requires CanDrive(s) && n in s.services && s.pc.job.serviceName != n && s.pc.point.Lowering?
    ensures GivesUp(s, LowerStep(s, ErrorAnswer(s.pc)), n)
  {
  }

  lemma GivingUpLate(s: State, n: string)
    requires CanDrive(s) && n in s.services && s.pc.job.serviceName != n
    ensures s.pc.point.Finishing? ==> GivesUp(s, CompletionStep(s, ErrorAnswer(s.pc)), n)
    ensures s.pc.point.Failing? ==> GivesUp(s, FailStep(s), n)
  {
  }

  lemma GivingUp(s: State, n: string, timeout: Time)
    requires CanDrive(s) && n in s.services && s.pc.job.serviceName != n
    ensures GivesUp(s, AdvanceStep(s, ErrorAnswer(s.pc), timeout), n)
  {
    hide GivesUp, StartStep, DrainStep, LowerStep, CompletionStep, FailStep, ErrorAnswer;
    GivingUpEarly(s, n, timeout);
    if s.pc.point.Lowering? {
      GivingUpLowering(s, n);
    } else {
      GivingUpLate(s, n);
    }
  }

  /** `rest` is about other services, which exist. */
  ghost predicate AboutOthers(s: State, rest: seq<ScaleInJob>, n: string) {
    forall i :: 0 <= i < |rest| ==> rest[i].serviceName in s.services && rest[i].serviceName != n
  }

  lemma {:induction false} FinishTurn(s: State, n: string, timeout: Time) returns (labels: seq<Label>, t: State)
    requires CanDrive(s) && n in s.services && s.pc.job.serviceName != n
    ensures Leads(s, labels, timeout, t) && AllCalm(labels, n, 1) && AllPassing(labels)
    ensures Aside(s, t, n) && t.pc == Looping(s.pc.rest)
    decreases StepsLeft(s.pc.point)
  {
    var l := Advance(ErrorAnswer(s.pc));
    GivingUp(s, n, timeout);
    LeadsOne(s, l, timeout);
    var u := AdvanceStep(s, l.answer, timeout);
    hide AdvanceStep, StepsLeft, Fits, ErrorAnswer;
    if u.pc.Working? {
      var more;
      more, t := FinishTurn(u, n, timeout);
      LeadsOn(s, [l], timeout, u, more, t);
      labels := [l] + more;
    } else {
      labels, t := [l], u;
    }
  }

  lemma {:induction false} FinishPass(s: State, n: string, timeout: Time) returns (labels: seq<Label>, t: State)
    requires s.pc.Looping? && n in s.services && AboutOthers(s, s.pc.rest, n)
    ensures Leads(s, labels, timeout, t) && AllCalm(labels, n, 1) && AllPassing(labels) && Aside(s, t, n) && t.pc.Idle?
    decreases |s.pc.rest|
  {
    LeadsOne(s, Advance(Ack), timeout);
    var u := AdvanceStep(s, Ack, timeout);
    if s.pc.rest == [] {
      labels, t := [Advance(Ack)], u;
    } else {
      var turn, v := FinishTurn(u, n, timeout);
      LeadsOn(s, [Advance(Ack)], timeout, u, turn, v);
      var more;
      more, t := FinishPass(v, n, timeout);
      LeadsOn(s, [Advance(Ack)] + turn, timeout, v, more, t);
      labels := [Advance(Ack)] + turn + more;
    }
  }

  /** Whatever the scheduler is doing for other services, it can be idle at this instant. */
  lemma GetIdle(s: State, n: string, timeout: Time) returns (labels: seq<Label>, t: State)
    requires n in s.services
    requires s.pc.Working? ==> s.pc.job.serviceName in s.services && s.pc.job.serviceName != n
    requires !s.pc.Idle? ==> AboutOthers(s, s.pc.rest, n)
    ensures Leads(s, labels, timeout, t) && AllCalm(labels, n, 1) && AllPassing(labels) && Aside(s, t, n) && t.pc.Idle?
  {
    match s.pc
    case Idle => labels, t := [], s;
    case Looping(_) => labels, t := FinishPass(s, n, timeout);
    case Working(_, _, _) =>
      var turn, u := FinishTurn(s, n, timeout);
      var more;
      more, t := FinishPass(u, n, timeout);
      LeadsOn(s, turn, timeout, u, more, t);
      labels := turn + more;
  }

  // ---- A pass ----

  lemma {:induction false} ListJobs(s: State, names: set<string>) returns (jobs: seq<ScaleInJob>)
    requires Named(s)
    requires forall m :: m in names ==>
               m in s.services && s.services[m].job.Some? && IsActive(s.services[m].job.value.status)
    ensures forall i :: 0 <= i < |jobs| ==> IsActiveIn(s.services, jobs[i]) && jobs[i].serviceName in names
    ensures forall i, j :: 0 <= i < j < |jobs| ==> jobs[i].serviceName != jobs[j].serviceName
    ensures forall m :: m in names ==> s.services[m].job.value in jobs
    decreases |names|
  {
    jobs := [];
    if names != {} {
      var m :| m in names;
      jobs := ListJobs(s, names - {m});
      jobs := jobs + [s.services[m].job.value];
    }
  }

  /** The job of `n` is active, and the scheduler is idle. */
  ghost predicate ReadyForPass(s: State, n: string) {
    && s.pc.Idle? && Named(s) && n in s.services && s.services[n].job.Some? && IsActive(s.services[n].job.value.status)
  }

  /** `GetActiveJobs` may list the job of `n` first. */
  lemma ListedFirst(s: State, n: string) returns (rest: seq<ScaleInJob>)
    requires ReadyForPass(s, n)
    ensures ListsActive(s.services, [s.services[n].job.value] + rest) && AboutOthers(s, rest, n)
  {
    var others := set m | m in s.services && m != n
                            && s.services[m].job.Some? && IsActive(s.services[m].job.value.status);
    rest := ListJobs(s, others);
    var jobs := [s.services[n].job.value] + rest;
    assert forall m :: m in s.services && s.services[m].job.Some? && IsActive(s.services[m].job.value.status) ==>
             m == n || m in others;
  }

  /** A pass begins with the job of `n`. */
  lemma PassBegins(s: State, n: string, timeout: Time) returns (labels: seq<Label>, t: State)
    requires ReadyForPass(s, n)
    ensures Leads(s, labels, timeout, t) && AllCalm(labels, n, 1) && AllPassing(labels)
    ensures t.pc.Working? && t == s.(pc := Working(s.services[n].job.value, Start, t.pc.rest))
    ensures AboutOthers(s, t.pc.rest, n)
  {
    var job := s.services[n].job.value;
    var rest := ListedFirst(s, n);
    var l := Pass([job] + rest);
    LeadsOne(s, l, timeout);
    var u := Step(s, l, timeout);
    LeadsOne(u, Advance(Ack), timeout);
    t := AdvanceStep(u, Ack, timeout);
    LeadsOn(s, [l], timeout, u, [Advance(Ack)], t);
    labels := [l] + [Advance(Ack)];
    assert ([job] + rest)[1..] == rest;
  }

  lemma StepObservesNothing(s: State, a: Answer, timeout: Time)
    requires CanDrive(s) && Fits(s.pc, a) && !(s.pc.point.Start? && s.pc.job.status.Draining?)
    ensures var t, n := AdvanceStep(s, a, timeout), s.pc.job.serviceName;
            && n in t.services && t.services[n].trace.observed == s.services[n].trace.observed
            && (t.pc.Working? ==> t.pc.job == s.pc.job && !t.pc.point.Start?)
  {
    hide SelectTarget, Survivors, Timeout, Record;
  }

  /** Only the turn of a DRAINING job reads its sessions. */
  lemma {:induction false} DriveObservesNothing(s: State, ans: JobAnswers, timeout: Time, fuel: nat)
    requires CanDrive(s) && !(s.pc.point.Start? && s.pc.job.status.Draining?)
    ensures var t, n := Drive(s, ans, timeout, fuel), s.pc.job.serviceName;
            n in t.services && t.services[n].trace.observed == s.services[n].trace.observed
    decreases fuel
  {
    if fuel > 0 {
      hide AdvanceStep, AnswerAt, Fits;
      ScriptedAnswersFit(s, ans);
      StepObservesNothing(s, AnswerAt(s.pc.job, s.pc.point, ans), timeout);
      if CanDrive(NextStep(s, ans, timeout)) {
        DriveObservesNothing(NextStep(s, ans, timeout), ans, timeout, fuel - 1);
      }
    }
  }

  /** The service after the turn of its job, as the use case leaves it. */
  ghost predicate TakesTurn(v: Service, w: Service, ans: JobAnswers, timeout: Time, now: Time)
    requires v.job.Some?
  {
    var run := Processed(v.job, v.policy, v.job.value, ans, timeout, now);
    w.job == run.entry && w.policy == run.policy && w.desired == LoweredTo(v.desired, run.calls, ans.updates)
  }

  /** One pass: the job of `n` with the given answers, the others giving up. */
  lemma OnePass(s: State, n: string, ans: JobAnswers, timeout: Time) returns (labels: seq<Label>, t: State)
    requires ReadyForPass(s, n)
    ensures Leads(s, labels, timeout, t) && AllCalm(labels, n, 1) && AllPassing(labels)
    ensures t.pc.Idle? && Named(t) && t.services.Keys == s.services.Keys && t.clock == s.clock
    ensures t.past == s.past && t.services[n].eval == s.services[n].eval
    ensures t.services[n].ecsService == s.services[n].ecsService
    ensures TakesTurn(s.services[n], t.services[n], ans, timeout, s.clock)
    ensures !s.services[n].job.value.status.Draining? ==>
              t.services[n].trace.observed == s.services[n].trace.observed
  {
    hide Drive, Processed, CallsMade;
    var begin, a := PassBegins(s, n, timeout);
    UninterruptedTurnIsTheUseCase(a, ans, timeout);
    DriveLeavesEvaluations(a, ans, timeout, 7);
    if !a.pc.job.status.Draining? {
      DriveObservesNothing(a, ans, timeout, 7);
    }
    var turn := DriveLeads(a, ans, timeout, 7);
    var b := Drive(a, ans, timeout, 7);
    LeadsOn(s, begin, timeout, a, turn, b);
    var more;
    more, t := FinishPass(b, n, timeout);
    LeadsOn(s, begin + turn, timeout, b, more, t);
    labels := begin + turn + more;
  }
}
