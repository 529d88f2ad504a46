/**
 * The closed loop under a constant demand. In a calm run of service `n` every evaluation requires `r` tasks and nobody
 * else writes the desired count; evaluations may stall anywhere.
 */
module Convergence {
  import opened Domain
  import opened ScalingPolicy
  import opened Protocol
  import opened ProtocolSafety

  predicate Calm(l: Label, n: string, r: int) {
    && (l.Manual? ==> l.service != n)
    && (l.Decide? && l.service == n ==> l.required == r)
  }

  /** How many automatic writes separate a desired count from the required one: raises go by two, lowerings by one. */
  function WritesAway(desired: int, r: int): nat {
    if desired < r then (r - desired + 1) / 2 else desired - r
  }

  function CountWrites(log: seq<Event>, n: string): nat {
    if log == [] then 0
    else
      var e := log[|log| - 1];
      CountWrites(log[..|log| - 1], n) + (if (e.Raised? || e.Lowered?) && e.service == n then 1 else 0)
  }

  lemma CountWritesGrows(log: seq<Event>, e: Event, n: string)
    ensures CountWrites(log + [e], n)
         == CountWrites(log, n) + (if (e.Raised? || e.Lowered?) && e.service == n then 1 else 0)
  {
    assert (log + [e])[..|log|] == log;
  }

  /** The job has been requested and has not lowered the count. */
  predicate Unlowered(v: Service) {
    v.job.Some? && (v.job.value.status.Requested? || v.job.value.status.Draining?) && v.trace.lowerings == 0
  }

  ghost predicate FreshRead(v: Service) {
    && (v.eval.EvalRead? ==> v.eval.writes <= v.writes)
    && (v.eval.EvalApproved? ==> v.eval.writes <= v.writes)
    && (v.eval.EvalRead? && v.eval.writes == v.writes ==> v.eval.read.desiredCount == v.desired)
    && (v.eval.EvalApproved? && v.eval.writes == v.writes ==> v.eval.read.desiredCount == v.desired)
  }

  /** The evaluation under way has read `count` and not acted on it. */
  predicate Holds(v: Service, count: int) {
    (v.eval.EvalRead? || v.eval.EvalApproved?) && v.eval.read.desiredCount == count
  }

  predicate HoldsSome(v: Service) {
    v.eval.EvalRead? || v.eval.EvalApproved?
  }

  /** What a calm run keeps: an evaluation holds the current count, or, after a lowering, the one before it; and an
      unlowered job was requested for the current count, or for the one before it. */
  ghost predicate Steady(v: Service, r: int) {
    && FreshRead(v)
    && (v.eval.EvalApproved? ==> v.eval.required == r)
    && (HoldsSome(v) ==> Holds(v, v.desired) || (r <= v.desired && Holds(v, v.desired + 1) && !Unlowered(v)))
    && (Unlowered(v) ==>
          && v.job.value.targetDesiredCount == v.job.value.currentDesiredCount - 1
          && r <= v.job.value.targetDesiredCount <= v.desired <= v.job.value.currentDesiredCount)
  }

  /** One write of the count already reached is to be feared: a job for it is stored, or an approval may request one. */
  function Slack(v: Service): nat {
    if (Unlowered(v) && v.job.value.targetDesiredCount == v.desired) || Holds(v, v.desired + 1) then 1 else 0
  }

  /** The count comes from below: nothing asks for a lowering. */
  predicate Rising(v: Service, r: int) {
    v.desired <= r && !Unlowered(v) && (HoldsSome(v) ==> Holds(v, v.desired))
  }

  /** No write came between the read behind the job and now. */
  predicate TargetBelow(v: Service) {
    Unlowered(v) ==> v.job.value.currentDesiredCount == v.desired
  }

  /** A write moves the desired count strictly towards `r` and not past it. */
  predicate Approaches(before: int, after: int, r: int) {
    before < after <= r || r <= after < before
  }

  /** One more automatic write, of the count that was there already. */
  ghost predicate WritesIdly(s: State, t: State, n: string)
    requires n in s.services && n in t.services
  {
    CountWrites(t.log, n) == CountWrites(s.log, n) + 1 && t.services[n].desired == s.services[n].desired
  }

  /** What one step does to service `n`: it leaves the count, writes it once more as it is, or writes once and
      approaches `r`. Idle writes are paid for by earlier lowerings. */
  ghost predicate KeepsCourse(s: State, t: State, n: string, r: int) {
    && n in s.services && n in t.services
    && var v, w, idle := s.services[n], t.services[n], if WritesIdly(s, t, n) then 1 else 0;
    && Steady(w, r)
    && CountWrites(t.log, n) + WritesAway(w.desired, r) == CountWrites(s.log, n) + WritesAway(v.desired, r) + idle
    && (w.desired != v.desired ==> Approaches(v.desired, w.desired, r))
    && Slack(w) + idle + WritesAway(w.desired, r) <= Slack(v) + WritesAway(v.desired, r)
    && (Rising(v, r) ==> Rising(w, r) && idle == 0)
    && (TargetBelow(v) && (v.eval.EvalApproved? && w.eval != v.eval ==> v.eval.writes == v.writes) ==> TargetBelow(w))
  }

  lemma LoweringApproaches(s: State, a: Answer, r: int)
    requires Local(s) && Fits(s.pc, a) && Executes(s.pc.point)
    requires Steady(s.services[s.pc.job.serviceName], r)
    ensures KeepsCourse(s, LowerStep(s, a), s.pc.job.serviceName, r)
  {
    var n, t := s.pc.job.serviceName, LowerStep(s, a);
    if t.log != s.log {
      CountWritesGrows(s.log, t.log[|s.log|], n);
    }
  }

  lemma QuietWorkKeepsCourse(s: State, t: State, r: int)
    requires Local(s) && LocalStep(s, t) && !Executes(s.pc.point)
    requires Steady(s.services[s.pc.job.serviceName], r)
    ensures KeepsCourse(s, t, s.pc.job.serviceName, r)
  {
  }

  /** Work for another service appends at most events of that service. */
  lemma OtherWorkKeepsCourse(s: State, a: Answer, timeout: Time, n: string, r: int)
    requires Local(s) && Fits(s.pc, a) && n in s.services && s.pc.job.serviceName != n
    requires Steady(s.services[n], r)
    ensures KeepsCourse(s, AdvanceStep(s, a, timeout), n, r)
  {
    var t := AdvanceStep(s, a, timeout);
    WorkIsLocal(s, a, timeout);
    hide AdvanceStep, DrainStep, CompletionStep, FailStep, StartStep;
    assert t.services[n] == s.services[n];
    if Executes(s.pc.point) {
      ExecutionAppends(s, a, timeout);
      if t.log != s.log {
        CountWritesGrows(s.log, t.log[|s.log|], n);
      }
    }
  }

  lemma ExecutionAppends(s: State, a: Answer, timeout: Time)
    requires Local(s) && Fits(s.pc, a) && Executes(s.pc.point)
    ensures var t := AdvanceStep(s, a, timeout);
            t == LowerStep(s, a) && (t.log == s.log || (|t.log| == |s.log| + 1 && t.log == s.log + [t.log[|s.log|]]
            && t.log[|s.log|].service == s.pc.job.serviceName))
  {
  }

  lemma AdvanceKeepsCourse(s: State, a: Answer, timeout: Time, n: string, r: int)
    requires Inv(s) && Enabled(s, Advance(a)) && n in s.services && Steady(s.services[n], r)
    ensures KeepsCourse(s, AdvanceStep(s, a, timeout), n, r)
  {
    if s.pc.Working? {
      if s.pc.job.serviceName != n {
        OtherWorkKeepsCourse(s, a, timeout, n, r);
      } else if Executes(s.pc.point) {
        ExecutionAppends(s, a, timeout);
        LoweringApproaches(s, a, r);
      } else {
        hide AdvanceStep;
        WorkIsLocal(s, a, timeout);
        QuietWorkKeepsCourse(s, AdvanceStep(s, a, timeout), r);
      }
    }
  }

  lemma ActApproaches(s: State, n: string, ok: bool, r: int)
    requires Enabled(s, Act(n, ok)) && EvalBounded(n, s.services[n].eval) && Steady(s.services[n], r)
    requires r <= 10
    ensures KeepsCourse(s, ActStep(s, n, ok), n, r)
  {
    var t := ActStep(s, n, ok);
    if t.log != s.log {
      CountWritesGrows(s.log, t.log[|s.log|], n);
    }
  }

  lemma DecideKeepsCourse(s: State, n: string, total: int, coverage: real, r: int)
    requires Enabled(s, Decide(n, total, r, coverage)) && Steady(s.services[n], r)
    ensures KeepsCourse(s, DecideStep(s, n, total, r, coverage), n, r)
  {
    var t := DecideStep(s, n, total, r, coverage);
    var v := s.services[n];
    if t.log != s.log {
      CountWritesGrows(s.log, t.log[|s.log|], n);
      ApprovalIsBounded(v.policy, DemandedBy(n, total, v.eval.read, r), v.eval.read, coverage, s.clock);
    }
  }

  /** A step of another service's evaluation. */
  lemma ElsewhereKeepsCourse(s: State, t: State, n: string, m: string, r: int)
    requires m != n && n in s.services && m in t.services && Steady(s.services[n], r)
    requires t.services == s.services[m := t.services[m]]
    requires t.log == s.log
          || (|t.log| == |s.log| + 1 && t.log == s.log + [t.log[|s.log|]] && t.log[|s.log|].service == m)
    ensures KeepsCourse(s, t, n, r)
  {
    assert t.services[n] == s.services[n];
    if t.log != s.log {
      CountWritesGrows(s.log, t.log[|s.log|], n);
    }
  }

  lemma OwnStepKeepsCourse(s: State, l: Label, timeout: Time, n: string, r: int)
    requires Enabled(s, l) && n in s.services && Steady(s.services[n], r)
    requires (l.Read? || l.GiveUp? || l.RecordOut?) && l.service == n
    ensures KeepsCourse(s, Step(s, l, timeout), n, r)
  {
    var t := Step(s, l, timeout);
    if t.log != s.log {
      CountWritesGrows(s.log, t.log[|s.log|], n);
    }
  }

  lemma StepKeepsCourse(s: State, l: Label, timeout: Time, n: string, r: int)
    requires Inv(s) && Enabled(s, l) && Calm(l, n, r) && r <= 10
    requires n in s.services && Steady(s.services[n], r)
    ensures KeepsCourse(s, Step(s, l, timeout), n, r)
  {
    hide KeepsCourse, PcOk, PastOk, AdvanceStep;
    match l
    case Advance(a) => AdvanceKeepsCourse(s, a, timeout, n, r);
    case Pass(_) => SameKeepsCourse(s, Step(s, l, timeout), n, r);
    case Wait(_) => SameKeepsCourse(s, Step(s, l, timeout), n, r);
    case Decide(m, total, required, coverage) =>
      if m == n {
        DecideKeepsCourse(s, n, total, coverage, r);
      } else {
        ElsewhereKeepsCourse(s, Step(s, l, timeout), n, m, r);
      }
    case Act(m, ok) =>
      if m == n {
        ActApproaches(s, n, ok, r);
      } else {
        ElsewhereKeepsCourse(s, Step(s, l, timeout), n, m, r);
      }
    case _ =>
      if l.service == n {
        OwnStepKeepsCourse(s, l, timeout, n, r);
      } else {
        ElsewhereKeepsCourse(s, Step(s, l, timeout), n, l.service, r);
      }
  }

  lemma SameKeepsCourse(s: State, t: State, n: string, r: int)
    requires n in s.services && Steady(s.services[n], r) && t.services == s.services && t.log == s.log
    ensures KeepsCourse(s, t, n, r)
  {
  }

  ghost predicate CalmRun(states: seq<State>, labels: seq<Label>, timeout: Time, n: string, r: int) {
    && IsRun(states, labels, timeout)
    && n in states[0].services
    && forall i :: 0 <= i < |labels| ==> Calm(labels[i], n, r)
  }

  lemma {:induction false} RunKeepsSteady(states: seq<State>, labels: seq<Label>, timeout: Time, n: string, r: int,
                                          k: nat)
    requires CalmRun(states, labels, timeout, n, r) && 1 <= r <= 10 && k < |states|
    ensures n in states[k].services && Steady(states[k].services[n], r)
    ensures k < |labels| ==> KeepsCourse(states[k], states[k + 1], n, r)
  {
    hide Inv, Step, KeepsCourse;
    if k > 0 {
      RunKeepsSteady(states, labels, timeout, n, r, k - 1);
      CourseIsSteady(states[k - 1], states[k], n, r);
    } else {
      FreshIsSteady(states[0], n, r);
    }
    if k < |labels| {
      RunKeepsInv(states, labels, timeout, k);
      StepKeepsCourse(states[k], labels[k], timeout, n, r);
    }
  }

  lemma CourseIsSteady(s: State, t: State, n: string, r: int)
    requires KeepsCourse(s, t, n, r)
    ensures n in t.services && Steady(t.services[n], r)
  {
  }

  lemma FreshIsSteady(s: State, n: string, r: int)
    requires Init(s) && n in s.services
    ensures Steady(s.services[n], r) && Slack(s.services[n]) == 0 && CountWrites(s.log, n) == 0
  {
  }

  ghost predicate IdleAt(states: seq<State>, n: string, i: int) {
    && 0 <= i && i + 1 < |states| && n in states[i].services && n in states[i + 1].services
    && WritesIdly(states[i], states[i + 1], n)
  }

  /** How many of the first `k` steps write the count that is there already. */
  ghost function IdleWrites(states: seq<State>, n: string, k: nat): nat {
    if k == 0 then 0 else IdleWrites(states, n, k - 1) + (if IdleAt(states, n, k - 1) then 1 else 0)
  }

  /** Conservation: in a calm run the writes made so far and the writes still separating the count from `r` add up to
      what separated them at the start and the idle writes; and there are at most as many idle writes as writes that
      got closer, none on the way up. */
  lemma {:induction false} WritesAreConserved(states: seq<State>, labels: seq<Label>, timeout: Time, n: string, r: int,
                                              k: nat)
    requires CalmRun(states, labels, timeout, n, r) && 1 <= r <= 10 && k < |states|
    ensures n in states[k].services
    ensures var v, idle := states[k].services[n], IdleWrites(states, n, k);
            var away := WritesAway(states[0].services[n].desired, r);
            && CountWrites(states[k].log, n) + WritesAway(v.desired, r) == away + idle
            && Slack(v) + idle + WritesAway(v.desired, r) <= away
            && (states[0].services[n].desired <= r ==> Rising(v, r) && idle == 0)
  {
    hide Inv, Step, Steady, Slack;
    FreshIsSteady(states[0], n, r);
    if k > 0 {
      WritesAreConserved(states, labels, timeout, n, r, k - 1);
      RunKeepsSteady(states, labels, timeout, n, r, k - 1);
    }
  }

  /** Convergence without oscillation: every write of a calm run either repeats the count, or moves it strictly towards
      `r` without passing it. From below there are at most ceil((r - d) / 2) writes; from above at most d - r lowerings
      and as many repetitions. Once the count is `r` it stays, at most one write repeats it, and evaluations that read
      it approve nothing. */
  lemma ConvergesWithoutOscillation(states: seq<State>, labels: seq<Label>, timeout: Time, n: string, r: int, k: nat)
    requires CalmRun(states, labels, timeout, n, r) && 1 <= r <= 10 && k < |labels|
    ensures n in states[k].services && n in states[k + 1].services
    ensures var v, w, d := states[k].services[n], states[k + 1].services[n], states[0].services[n].desired;
            && (v.desired != w.desired ==> Approaches(v.desired, w.desired, r))
            && CountWrites(states[k].log, n) <= WritesAway(d, r) * (if d <= r then 1 else 2)
            && (v.desired == r ==> w.desired == r && Slack(w) <= Slack(v) <= 1)
            && (v.desired == r && Slack(v) == 0 ==> CountWrites(states[k + 1].log, n) == CountWrites(states[k].log, n))
            && (v.desired == r && WritesIdly(states[k], states[k + 1], n) ==> Slack(w) == 0)
            && (labels[k].Decide? && labels[k].service == n && Holds(v, r) ==> w.eval.EvalIdle?)
  {
    WritesAreConserved(states, labels, timeout, n, r, k);
    RunKeepsSteady(states, labels, timeout, n, r, k);
    if labels[k].Decide? && labels[k].service == n && Holds(states[k].services[n], r) {
      DecidingAtRequiredCount(states[k], labels[k], timeout, n, r);
    }
    hide Inv, Step, Steady, Slack;
  }

  /** In a calm run no raise is due while a requested job has not lowered the count; the target it was given is the
      count or one below it, and not below `r`. */
  lemma NoRaiseBetweenRequestAndApply(states: seq<State>, labels: seq<Label>, timeout: Time, n: string, r: int, k: nat)
    requires CalmRun(states, labels, timeout, n, r) && 1 <= r <= 10 && k < |labels|
    ensures n in states[k].services
    ensures var v := states[k].services[n];
            Unlowered(v) ==>
              && r <= v.job.value.targetDesiredCount <= v.desired <= v.job.value.currentDesiredCount
              && v.job.value.targetDesiredCount == v.job.value.currentDesiredCount - 1
              && !(labels[k].Act? && labels[k].service == n && v.eval.EvalApproved? && v.eval.result.action == ScaleOut)
  {
    RunKeepsSteady(states, labels, timeout, n, r, k);
    RunKeepsInv(states, labels, timeout, k);
    assert ServiceOk(n, states[k].services[n], states[k].clock);
    hide Step, KeepsCourse;
  }

  /** An evaluation that read `r` demands KEEP, and nothing is approved. */
  lemma DecidingAtRequiredCount(s: State, l: Label, timeout: Time, n: string, r: int)
    requires Enabled(s, l) && l.Decide? && l.service == n && l.required == r
    requires n in s.services && Holds(s.services[n], r)
    ensures n in Step(s, l, timeout).services && Step(s, l, timeout).services[n].eval.EvalIdle?
  {
  }

  /** The scale-in scheduler's update for service `n` goes through. */
  predicate Lowers(s: State, l: Label, n: string) {
    l == Advance(Ack) && s.pc.Working? && s.pc.job.serviceName == n && s.pc.point == Lowering(Ready)
  }

  lemma StepIsIdleIff(s: State, l: Label, timeout: Time, n: string, r: int)
    requires Inv(s) && Enabled(s, l) && Calm(l, n, r) && r <= 10
    requires n in s.services && Steady(s.services[n], r)
    requires n in Step(s, l, timeout).services
    ensures WritesIdly(s, Step(s, l, timeout), n)
       <==> Lowers(s, l, n) && s.pc.job.targetDesiredCount == s.services[n].desired
  {
    var t := Step(s, l, timeout);
    if Lowers(s, l, n) {
      CountWritesGrows(s.log, t.log[|s.log|], n);
    } else {
      OtherStepsDoNotRepeat(s, l, timeout, n, r);
    }
  }

  lemma OtherWorkDoesNotRepeat(s: State, a: Answer, timeout: Time, n: string)
    requires Inv(s) && Enabled(s, Advance(a)) && n in s.services && !Lowers(s, Advance(a), n)
    requires n in AdvanceStep(s, a, timeout).services
    ensures !WritesIdly(s, AdvanceStep(s, a, timeout), n)
  {
    var t := AdvanceStep(s, a, timeout);
    if s.pc.Working? {
      hide StartStep, DrainStep, CompletionStep, FailStep;
      CurrentIsLocal(s);
      if Executes(s.pc.point) {
        ExecutionAppends(s, a, timeout);
        if t.log != s.log {
          CountWritesGrows(s.log, t.log[|s.log|], n);
        }
      } else {
        hide AdvanceStep;
        WorkIsLocal(s, a, timeout);
      }
    }
  }

  lemma OtherStepsDoNotRepeat(s: State, l: Label, timeout: Time, n: string, r: int)
    requires Inv(s) && Enabled(s, l) && Calm(l, n, r) && r <= 10
    requires n in s.services && Steady(s.services[n], r) && !Lowers(s, l, n)
    requires n in Step(s, l, timeout).services
    ensures !WritesIdly(s, Step(s, l, timeout), n)
  {
    var t := Step(s, l, timeout);
    assert ServiceOk(n, s.services[n], s.clock);
    hide AdvanceStep, PcOk, PastOk;
    match l
    case Advance(a) => OtherWorkDoesNotRepeat(s, a, timeout, n);
    case Decide(_, _, _, _) =>
      if t.log != s.log {
        CountWritesGrows(s.log, t.log[|s.log|], n);
      }
    case Act(_, _) =>
      if t.log != s.log {
        CountWritesGrows(s.log, t.log[|s.log|], n);
      }
    case RecordOut(_) => CountWritesGrows(s.log, t.log[|s.log|], n);
    case _ =>
  }

  /** A write of a calm run repeats the count exactly when it is a lowering whose target has been reached already. */
  lemma IdleIff(states: seq<State>, labels: seq<Label>, timeout: Time, n: string, r: int, k: nat)
    requires CalmRun(states, labels, timeout, n, r) && 1 <= r <= 10 && k < |labels|
    ensures IdleAt(states, n, k)
       <==> n in states[k].services && Lowers(states[k], labels[k], n)
            && states[k].pc.job.targetDesiredCount == states[k].services[n].desired
  {
    RunKeepsSteady(states, labels, timeout, n, r, k);
    RunKeepsInv(states, labels, timeout, k);
    StepIsIdleIff(states[k], labels[k], timeout, n, r);
    hide Inv, Step, KeepsCourse;
  }

  /** The step that ends an approval of `n` finds no write since the read behind it. */
  ghost predicate ActsPromptly(s: State, t: State, n: string) {
    n in s.services && n in t.services ==>
      var v := s.services[n];
      v.eval.EvalApproved? && t.services[n].eval != v.eval ==> v.eval.writes == v.writes
  }

  ghost predicate PromptRun(states: seq<State>, n: string) {
    forall i :: 0 < i < |states| ==> ActsPromptly(states[i - 1], states[i], n)
  }

  lemma {:induction false} PromptTicksKeepTargets(states: seq<State>, labels: seq<Label>, timeout: Time, n: string,
                                                  r: int, k: nat)
    requires CalmRun(states, labels, timeout, n, r) && 1 <= r <= 10 && PromptRun(states, n) && k < |states|
    ensures n in states[k].services && TargetBelow(states[k].services[n])
  {
    hide Step, Steady, Slack, WritesAway, CountWrites, Approaches;
    if k > 0 {
      PromptTicksKeepTargets(states, labels, timeout, n, r, k - 1);
      RunKeepsSteady(states, labels, timeout, n, r, k - 1);
      assert ActsPromptly(states[k - 1], states[k], n);
    }
  }

  /** Where no write lands between an evaluation's read and its act, every write of a calm run gets closer. */
  lemma {:induction false} PromptTicksNeverWriteIdly(states: seq<State>, labels: seq<Label>, timeout: Time, n: string,
                                                     r: int, k: nat)
    requires k < |states| == |labels| + 1
    requires CalmRun(states, labels, timeout, n, r) && 1 <= r <= 10 && PromptRun(states, n)
    ensures IdleWrites(states, n, k) == 0
    ensures n in states[k].services
    ensures CountWrites(states[k].log, n) + WritesAway(states[k].services[n].desired, r)
         == WritesAway(states[0].services[n].desired, r)
  {
    hide IdleAt, CalmRun, PromptRun, WritesAway, CountWrites, Slack;
    if k > 0 {
      PromptTicksNeverWriteIdly(states, labels, timeout, n, r, k - 1);
      PromptStepIsNotIdle(states, labels, timeout, n, r, k - 1);
    }
    WritesAreConserved(states, labels, timeout, n, r, k);
  }

  lemma PromptStepIsNotIdle(states: seq<State>, labels: seq<Label>, timeout: Time, n: string, r: int, k: nat)
    requires CalmRun(states, labels, timeout, n, r) && 1 <= r <= 10 && PromptRun(states, n) && k < |labels|
    ensures !IdleAt(states, n, k)
  {
    PromptTicksKeepTargets(states, labels, timeout, n, r, k);
    NoRaiseBetweenRequestAndApply(states, labels, timeout, n, r, k);
    IdleIff(states, labels, timeout, n, r, k);
    RunKeepsInv(states, labels, timeout, k);
    if Lowers(states[k], labels[k], n) {
      ReadyIsUnlowered(states[k], labels[k], n);
    }
    hide Inv, Step, IdleAt, PromptRun;
  }

  lemma ReadyIsUnlowered(s: State, l: Label, n: string)
    requires Inv(s) && Lowers(s, l, n)
    ensures n in s.services && Unlowered(s.services[n])
    ensures s.pc.job.targetDesiredCount == s.services[n].job.value.targetDesiredCount
  {
  }
}
