/**
 * Schedules that keep the scale-in cooldown, and runs that do not: an evaluation that stalls between approval and
 * request while a job of its service runs its course.
 */
module ExecutionSpacing {
  import opened Domain
  import opened Protocol
  import opened ProtocolSafety
  import opened ProtocolHistory
  import opened RequestSpacing
  import opened Passes
  import opened Reachability
  import opened ScaleInJobs
  import opened Convergence
  import opened Guarantees

  predicate HoldsScaleIn(v: Service) {
    v.eval.EvalApproved? && v.eval.result.action == ScaleIn
  }

  /** No lowering of a service is recorded while an evaluation of it holds a scale-in approval. */
  ghost predicate RespectsTicks(s: State, l: Label) {
    l.Advance? && s.pc.Working? && s.pc.point == Lowering(Written) && s.pc.job.serviceName in s.services ==>
      !HoldsScaleIn(s.services[s.pc.job.serviceName])
  }

  /** A run in which evaluation ticks are atomic, as far as this matters. */
  ghost predicate AtomicTicks(states: seq<State>, labels: seq<Label>, timeout: Time) {
    && IsRun(states, labels, timeout)
    && forall i :: 0 <= i < |labels| ==> RespectsTicks(states[i], labels[i])
  }

  ghost predicate NoneRecordedFrom(log: seq<Event>, n: string, from: nat) {
    forall i :: from <= i < |log| ==> !IsRecordedIn(log[i], n)
  }

  /** A held scale-in approval is newer than all recorded lowerings of its service. */
  ghost predicate HeldAreNewest(s: State) {
    forall n :: n in s.services && HoldsScaleIn(s.services[n]) ==>
      NoneRecordedFrom(s.log, n, s.services[n].eval.approval)
  }

  lemma OneServiceKeepsNewest(s: State, t: State, n: string)
    requires HeldAreNewest(s) && ChangesOne(s, t, n)
    requires HoldsScaleIn(t.services[n]) ==> NoneRecordedFrom(t.log, n, t.services[n].eval.approval)
    ensures HeldAreNewest(t)
  {
    forall m | m in t.services && HoldsScaleIn(t.services[m])
      ensures NoneRecordedFrom(t.log, m, t.services[m].eval.approval)
    {
      if m != n {
        assert t.services[m] == s.services[m];
      }
    }
  }

  lemma WorkKeepsNewest(s: State, a: Answer, timeout: Time)
    requires Local(s) && Fits(s.pc, a) && HeldAreNewest(s) && RespectsTicks(s, Advance(a))
    ensures HeldAreNewest(AdvanceStep(s, a, timeout))
  {
    var n, t := s.pc.job.serviceName, AdvanceStep(s, a, timeout);
    WorkIsLocal(s, a, timeout);
    if Executes(s.pc.point) {
      ExecutionAppends(s, a, timeout);
      hide StartStep, DrainStep, CompletionStep, FailStep;
      OneServiceKeepsNewest(s, t, n);
    } else {
      hide AdvanceStep;
      OneServiceKeepsNewest(s, t, n);
    }
  }

  lemma EvaluationKeepsNewest(s: State, l: Label, timeout: Time)
    requires HeldAreNewest(s) && Enabled(s, l)
    requires l.Read? || l.GiveUp? || l.Decide? || l.Act? || l.RecordOut? || l.Manual?
    ensures HeldAreNewest(Step(s, l, timeout))
  {
    OneServiceKeepsNewest(s, Step(s, l, timeout), l.service);
  }

  lemma StepKeepsNewest(s: State, l: Label, timeout: Time)
    requires Inv(s) && HeldAreNewest(s) && Enabled(s, l) && RespectsTicks(s, l)
    ensures HeldAreNewest(Step(s, l, timeout))
  {
    match l
    case Advance(a) =>
      if s.pc.Working? {
        CurrentIsLocal(s);
        hide AdvanceStep, Inv, HeldAreNewest;
        WorkKeepsNewest(s, a, timeout);
      }
    case Pass(_) =>
    case Wait(_) =>
    case _ =>
      hide Inv, Step, HeldAreNewest;
      EvaluationKeepsNewest(s, l, timeout);
  }

  lemma {:induction false} RunKeepsNewest(states: seq<State>, labels: seq<Label>, timeout: Time, k: nat)
    requires AtomicTicks(states, labels, timeout) && k < |states|
    ensures HeldAreNewest(states[k])
  {
    if k > 0 {
      hide Inv, HeldAreNewest, Step;
      RunKeepsNewest(states, labels, timeout, k - 1);
      RunKeepsInv(states, labels, timeout, k - 1);
      StepKeepsNewest(states[k - 1], labels[k - 1], timeout);
    }
  }

  lemma NewestIsUncooled(s: State, n: string)
    requires LogOk(s) && AllLogged(s) && HeldAreNewest(s) && n in s.services && HoldsScaleIn(s.services[n])
    ensures !CoolsDown(s, n)
  {
    var v := s.services[n];
    assert Remembered(n, v, s.log, s.clock) && LastIsLogged(n, v, s.log);
    if v.policy.lastIn != 0 {
      var i :| 0 <= i < |s.log| && IsRecordedIn(s.log[i], n) && s.log[i].at == v.policy.lastIn;
      assert NoneRecordedFrom(s.log, n, v.eval.approval);
      assert Spaced(s.log[i], s.log[v.eval.approval]);
    }
  }

  /** With atomic ticks, no job is ever registered while its service cools down. */
  lemma AtomicTicksAreUncooled(states: seq<State>, labels: seq<Label>, timeout: Time, k: nat)
    requires AtomicTicks(states, labels, timeout) && k < |labels|
    ensures UncooledStep(states[k], labels[k])
  {
    if labels[k].Act? && Registers(states[k], labels[k].service) {
      RunKeepsNewest(states, labels, timeout, k);
      RunKeepsLog(states, labels, timeout, k);
      RunKeepsLogged(states, labels, timeout, k);
      NewestIsUncooled(states[k], labels[k].service);
    }
  }

  /** With atomic ticks, recorded lowerings of one service are at least 60s apart. */
  lemma AtomicTicksSpaceLowerings(states: seq<State>, labels: seq<Label>, timeout: Time, k: nat, i: nat, j: nat)
    requires AtomicTicks(states, labels, timeout) && k < |states|
    requires i < j < |states[k].log| && states[k].log[i].service == states[k].log[j].service
    requires states[k].log[i].RecordedIn? && states[k].log[j].RecordedIn?
    ensures states[k].log[j].at - states[k].log[i].at >= 60 * SECOND
  {
    hide UncooledStep, RespectsTicks, Step;
    forall l | 0 <= l < |labels|
      ensures UncooledStep(states[l], labels[l])
    {
      AtomicTicksAreUncooled(states, labels, timeout, l);
    }
    UncooledRequestsSpaceLowerings(states, labels, timeout, k, i, j);
  }

  /** One more smooth pass finds no control state, and the APPLIED job fails. */
  lemma AppliedJobFails(s: State, n: string, timeout: Time) returns (labels: seq<Label>, t: State)
    requires ReadyForPass(s, n) && s.services[n].job.value.status.Applied?
    ensures Leads(s, labels, timeout, t) && AllCalm(labels, n, 1) && OnlyPasses(s, t, n)
    ensures t.pc.Idle? && Named(t) && t.services[n].job.Some?
    ensures var before, after := s.services[n].job.value, t.services[n].job.value;
            after.status.Failed? && after.serviceName == n && after.appliedAt == before.appliedAt
  {
    labels, t := OnePass(s, n, SMOOTH, timeout);
  }

  /** A job of `n` was applied and is in the past, and another one is applied at the same instant. */
  ghost predicate AppliedTwice(t: State, n: string) {
    && t.services.Keys == {n} && t.services[n].job.Some? && |t.past| == 1
    && var earlier, later := t.past[0].job, t.services[n].job.value;
    && earlier.serviceName == later.serviceName == n && later.status.Applied?
    && earlier.appliedAt == later.appliedAt > 0
  }

  /** A job is requested, and a second approval is held back. */
  lemma HeldApproval(s: State, n: string, timeout: Time) returns (labels: seq<Label>, t: State)
    requires Init(s) && s.services.Keys == {n} && s.services[n].desired == 2
    ensures Leads(s, labels, timeout, t) && AllCalm(labels, n, 1) && HasApproval(t, n) && JustRequested(t, n)
    ensures t.clock == s.clock && t.past == []
  {
    hide Leads, Step, AllCalm;
    var a;
    labels, a := ManyEvaluations(s, n, timeout, 4);
    var more, b := FifthApproves(a, n, timeout);
    labels := Chained(s, n, labels, timeout, a, more, b);
    var c := ActRequests(b, n, timeout);
    labels := Chained(s, n, labels, timeout, b, [Act(n, true)], c);
    more, a := ManyEvaluations(c, n, timeout, 4);
    labels := Chained(s, n, labels, timeout, c, more, a);
    more, t := FifthApproves(a, n, timeout);
    labels := Chained(s, n, labels, timeout, a, more, t);
  }

  /** An evaluation stalls between approval and request while a job of its service runs its course and fails to
      complete. */
  lemma StalledTick(s: State, n: string, timeout: Time) returns (labels: seq<Label>, t: State)
    requires Init(s) && s.services.Keys == {n} && s.services[n].desired == 2
    ensures Leads(s, labels, timeout, t) && AllCalm(labels, n, 1) && AppliedTwice(t, n)
  {
    hide Leads, Step, Processed, AllCalm;
    var a, more, b;
    labels, a := HeldApproval(s, n, timeout);
    more, b := FourPasses(a, n, timeout);
    labels := Chained(s, n, labels, timeout, a, more, b);
    more, a := AppliedJobFails(b, n, timeout);
    labels := Chained(s, n, labels, timeout, b, more, a);
    b := ActRequests(a, n, timeout);
    labels := Chained(s, n, labels, timeout, a, [Act(n, true)], b);
    more, t := FourPasses(b, n, timeout);
    labels := Chained(s, n, labels, timeout, b, more, t);
  }

  /** Without that, an evaluation that stalls between approval and request lets two jobs of one service be applied at
      the same instant: the second was approved before the first was recorded. */
  lemma StalledTickEscapesCooldown(s: State, n: string, timeout: Time)
    requires Init(s) && s.services.Keys == {n} && s.services[n].desired == 2
    ensures exists states: seq<State>, labels: seq<Label> ::
              IsRun(states, labels, timeout) && states[0] == s && AppliedTwice(states[|labels|], n)
  {
    var labels, t := StalledTick(s, n, timeout);
    var states := LeadsIsRun(s, labels, timeout, t);
    hide Enabled, Step;
    assert IsRun(states, labels, timeout);
  }

  lemma {:induction false} LoweringsAreWrites(log: seq<Event>, n: string)
    ensures CountLowered(log, n) <= CountWrites(log, n)
  {
    if log != [] {
      LoweringsAreWrites(log[..|log| - 1], n);
    }
  }

  /** The same run is calm, and its second lowering writes a count that was there already: constant demand alone does
      not make every write get closer. */
  lemma StalledTickWritesIdly(s: State, n: string, timeout: Time)
    requires Init(s) && s.services.Keys == {n} && s.services[n].desired == 2
    ensures exists states: seq<State>, labels: seq<Label> ::
              CalmRun(states, labels, timeout, n, 1) && states[0] == s && IdleWrites(states, n, |labels|) == 1
  {
    var labels, t := StalledTick(s, n, timeout);
    var states := LeadsIsRun(s, labels, timeout, t);
    hide Enabled, Step;
    assert CalmRun(states, labels, timeout, n, 1);
    TwoLoweringsFromTwo(states, labels, timeout, n);
  }

  lemma TwoLoweringsFromTwo(states: seq<State>, labels: seq<Label>, timeout: Time, n: string)
    requires CalmRun(states, labels, timeout, n, 1) && AppliedTwice(states[|labels|], n)
    requires states[0].services[n].desired == 2
    ensures IdleWrites(states, n, |labels|) == 1
  {
    var k, t := |labels|, states[|labels|];
    EveryLoweringBelongsToAJob(states, labels, timeout, k);
    ExactlyOnceLowering(states, labels, timeout, k);
    RunKeepsInv(states, labels, timeout, k);
    AppliedIsNotActing(t, n);
    LoweringsAreWrites(t.log, n);
    WritesAreConserved(states, labels, timeout, n, 1, k);
    assert t.past == t.past[..0] + [t.past[0]];
    PastGrows(t.past[..0], t.past[0], n);
    hide IsRun, Inv;
  }

  lemma AppliedIsNotActing(s: State, n: string)
    requires Inv(s) && n in s.services && s.services[n].job.Some? && s.services[n].job.value.status.Applied?
    ensures !ActingOn(s, n)
  {
  }
}
