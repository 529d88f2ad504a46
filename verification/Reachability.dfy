/** Runs that go somewhere: the statements about all runs are not about empty ones. */
module Reachability {
  import opened Domain
  import opened ScaleInCoordinator
  import opened ScalingPolicy
  import opened SessionCounts
  import opened Protocol
  import opened ScaleInJobs
  import opened Passes

  /** The only service has two tasks, nothing was ever executed, and its last `k` evaluations favour a scale-in. */
  ghost predicate Waiting(s: State, n: string, k: int) {
    && s.pc.Idle? && s.services.Keys == {n} && s.clock > 0
    && s.services[n].eval.EvalIdle? && s.services[n].desired == 2
    && s.services[n].policy == PolicyState(0, k, 0, 0)
  }

  /** Evaluations happened, but the job and its past are the same. */
  ghost predicate SameJob(s: State, t: State, n: string) {
    && n in s.services && n in t.services
    && t.services[n].job == s.services[n].job && t.services[n].trace == s.services[n].trace
    && t.past == s.past && t.clock == s.clock
  }

  lemma {:induction false} ManyEvaluations(s: State, n: string, timeout: Time, k: nat)
    returns (labels: seq<Label>, t: State)
    requires Waiting(s, n, 0) && k <= 4
    ensures Leads(s, labels, timeout, t) && AllCalm(labels, n, 1) && Waiting(t, n, k) && SameJob(s, t, n)
    decreases k
  {
    if k == 0 {
      labels, t := [], s;
    } else {
      var before, u := ManyEvaluations(s, n, timeout, k - 1);
      var a := Step(u, Read(n, 2, 0), timeout);
      LeadsOne(u, Read(n, 2, 0), timeout);
      LeadsOne(a, Decide(n, 0, 1, 1.0), timeout);
      t := Step(a, Decide(n, 0, 1, 1.0), timeout);
      LeadsOn(s, before, timeout, u, [Read(n, 2, 0)], a);
      LeadsOn(s, before + [Read(n, 2, 0)], timeout, a, [Decide(n, 0, 1, 1.0)], t);
      labels := before + [Read(n, 2, 0)] + [Decide(n, 0, 1, 1.0)];
    }
  }

  /** A scale-in of the only service is approved and not acted on yet. */
  ghost predicate HasApproval(s: State, n: string) {
    && s.pc.Idle? && s.services.Keys == {n} && s.clock > 0
    && s.services[n].eval.EvalApproved? && s.services[n].eval.result.action == ScaleIn
  }

  lemma FifthApproves(s: State, n: string, timeout: Time) returns (labels: seq<Label>, t: State)
    requires Waiting(s, n, 4)
    ensures Leads(s, labels, timeout, t) && AllCalm(labels, n, 1) && HasApproval(t, n) && SameJob(s, t, n)
    ensures t.services[n].desired == 2 && t.services[n].policy == NEW_POLICY
  {
    var a := Step(s, Read(n, 2, 0), timeout);
    t := Step(a, Decide(n, 0, 1, 1.0), timeout);
    LeadsOne(s, Read(n, 2, 0), timeout);
    LeadsOne(a, Decide(n, 0, 1, 1.0), timeout);
    LeadsOn(s, [Read(n, 2, 0)], timeout, a, [Decide(n, 0, 1, 1.0)], t);
    labels := [Read(n, 2, 0)] + [Decide(n, 0, 1, 1.0)];
  }

  /** The service has a fresh job. */
  ghost predicate JustRequested(s: State, n: string) {
    && s.pc.Idle? && n in s.services && s.services[n].job.Some? && s.services[n].trace.observed == []
    && var job := s.services[n].job.value;
    && job.serviceName == n && job.status.Requested? && job.targetTaskID == "" && job.zeroSessionStreak == 0
  }

  lemma ActRequests(s: State, n: string, timeout: Time) returns (t: State)
    requires HasApproval(s, n) && (s.services[n].job.Some? ==> !IsActive(s.services[n].job.value.status))
    ensures Leads(s, [Act(n, true)], timeout, t) && AllCalm([Act(n, true)], n, 1)
    ensures JustRequested(t, n) && t.clock == s.clock && t.services.Keys == {n}
    ensures t.services[n].eval.EvalIdle? && t.services[n].desired == s.services[n].desired
    ensures t.services[n].policy == s.services[n].policy
    ensures s.services[n].job.None? ==> t.past == s.past
    ensures s.services[n].job.Some? ==> t.past == s.past + [Finished(s.services[n].job.value, s.services[n].trace)]
  {
    t := Step(s, Act(n, true), timeout);
    LeadsOne(s, Act(n, true), timeout);
  }

  /** A tick in which every port works and the drained task reports no sessions. */
  const SMOOTH := JobAnswers(Some(["a", "b"]), Some(map["a" := 0, "b" := 3]), Some({}), true, true, Some(0), true,
                             None, None, false, None, false)

  lemma SmoothSelection()
    ensures SelectTarget(["a", "b"], map["a" := 0, "b" := 3], {}) == Some(TaskInfo("a", 0))
  {
    assert ["a", "b"][..1] == ["a"];
    assert ["a"][..0] == [];
  }

  /** The job of `n` drains `target` and has read `streak` counts, all zero; the scheduler is idle. */
  ghost predicate DrainsWith(s: State, n: string, target: TaskID, streak: nat) {
    && ReadyForPass(s, n)
    && s.services[n].job.value.status.Draining? && s.services[n].job.value.targetTaskID == target
    && s.services[n].job.value.zeroSessionStreak == streak && s.services[n].trace.observed == seq(streak, _ => 0)
  }

  /** Passes changed jobs, and nothing else has moved. */
  ghost predicate OnlyPasses(s: State, t: State, n: string) {
    && n in s.services && t.services.Keys == s.services.Keys && t.clock == s.clock && t.past == s.past
    && t.services[n].eval == s.services[n].eval
  }

  /** A smooth pass starts the drain of a fresh job. */
  lemma FirstPass(s: State, n: string, timeout: Time) returns (labels: seq<Label>, t: State)
    requires JustRequested(s, n) && Named(s)
    ensures Leads(s, labels, timeout, t) && AllCalm(labels, n, 1) && OnlyPasses(s, t, n) && DrainsWith(t, n, "a", 0)
  {
    SmoothSelection();
    labels, t := OnePass(s, n, SMOOTH, timeout);
  }

  /** The turn of a drained task that is seen without sessions once more. */
  lemma ZeroTurn(s: State, n: string, timeout: Time) returns (t: State)
    requires s.pc.Working? && s.pc.job.serviceName == n && s.pc.point.Start? && n in s.services
    requires s.services[n].job == Some(s.pc.job) && s.pc.job.status.Draining? && s.pc.job.zeroSessionStreak < 2
    ensures Leads(s, [Advance(Sessions(0))] + [Advance(Ack)], timeout, t) && t.pc == Looping(s.pc.rest)
    ensures n in t.services && t.services == s.services[n := t.services[n]] && t.clock == s.clock && t.past == s.past
    ensures t.services[n].eval == s.services[n].eval
    ensures t.services[n].trace.observed == s.services[n].trace.observed + [0]
    ensures t.services[n].job == Some(WithStreak(s.pc.job, s.pc.job.zeroSessionStreak + 1, s.clock))
  {
    var b := AdvanceStep(s, Sessions(0), timeout);
    t := AdvanceStep(b, Ack, timeout);
    LeadsOne(s, Advance(Sessions(0)), timeout);
    LeadsOne(b, Advance(Ack), timeout);
    LeadsOn(s, [Advance(Sessions(0))], timeout, b, [Advance(Ack)], t);
  }

  /** The drained task is seen without sessions once more. */
  lemma ZeroPass(s: State, n: string, target: TaskID, streak: nat, timeout: Time) returns (labels: seq<Label>, t: State)
    requires DrainsWith(s, n, target, streak) && streak < 2
    ensures Leads(s, labels, timeout, t) && AllCalm(labels, n, 1) && OnlyPasses(s, t, n)
    ensures DrainsWith(t, n, target, streak + 1)
  {
    hide Leads;
    var begin, a := PassBegins(s, n, timeout);
    var c := ZeroTurn(a, n, timeout);
    var turn := [Advance(Sessions(0))] + [Advance(Ack)];
    labels := Chained(s, n, begin, timeout, a, turn, c);
    var finish;
    finish, t := FinishPass(c, n, timeout);
    labels := Chained(s, n, labels, timeout, c, finish, t);
    assert seq(streak, _ => 0) + [0] == seq(streak + 1, _ => 0);
  }

  /** Three passes take a fresh job through two zeros. */
  lemma ThreePasses(s: State, n: string, timeout: Time) returns (labels: seq<Label>, t: State)
    requires JustRequested(s, n) && Named(s)
    ensures Leads(s, labels, timeout, t) && AllCalm(labels, n, 1) && OnlyPasses(s, t, n) && DrainsWith(t, n, "a", 2)
  {
    hide DrainsWith, Leads;
    var one, a := FirstPass(s, n, timeout);
    var two, b := ZeroPass(a, n, "a", 0, timeout);
    LeadsOn(s, one, timeout, a, two, b);
    var three;
    three, t := ZeroPass(b, n, "a", 1, timeout);
    LeadsOn(s, one + two, timeout, b, three, t);
    labels := one + two + three;
  }

  /** Four smooth passes take a fresh job to APPLIED. */
  lemma FourPasses(s: State, n: string, timeout: Time) returns (labels: seq<Label>, t: State)
    requires JustRequested(s, n) && Named(s)
    ensures Leads(s, labels, timeout, t) && AllCalm(labels, n, 1) && OnlyPasses(s, t, n)
    ensures t.pc.Idle? && Named(t) && t.services[n].job.Some?
    ensures var job := t.services[n].job.value; job.status.Applied? && job.appliedAt == s.clock
  {
    var three, a := ThreePasses(s, n, timeout);
    var four;
    four, t := OnePass(a, n, SMOOTH, timeout);
    LeadsOn(s, three, timeout, a, four, t);
    labels := three + four;
  }

  /** From any fresh process that sees a service at two tasks, some run takes a job to APPLIED. */
  lemma AJobCanBeApplied(s: State, n: string, timeout: Time)
    requires Init(s) && s.services.Keys == {n} && s.services[n].desired == 2
    ensures exists states: seq<State>, labels: seq<Label> ::
              && IsRun(states, labels, timeout) && states[0] == s
              && n in states[|labels|].services && states[|labels|].services[n].job.Some?
              && states[|labels|].services[n].job.value.status.Applied?
  {
    hide Leads, AllCalm;
    var labels, a := ManyEvaluations(s, n, timeout, 4);
    var more, b := FifthApproves(a, n, timeout);
    labels := Chained(s, n, labels, timeout, a, more, b);
    var c := ActRequests(b, n, timeout);
    labels := Chained(s, n, labels, timeout, b, [Act(n, true)], c);
    more, a := FourPasses(c, n, timeout);
    labels := Chained(s, n, labels, timeout, c, more, a);
    var states := LeadsIsRun(s, labels, timeout, a);
    hide Enabled, Step;
    assert IsRun(states, labels, timeout);
  }
}
