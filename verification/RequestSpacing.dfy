/**
 * What decides how far apart the lowerings of one service are. The cooldown is checked at an evaluation's approval
 * and not at its request; whether it runs when the request registers a job is what matters.
 */
module RequestSpacing {
  import opened Domain
  import opened ScaleInCoordinator
  import opened ScalingPolicy
  import opened Protocol
  import opened ProtocolSafety
  import opened ProtocolHistory
  import opened Passes
  import opened Reachability

  // ---- A cooldown time was recorded ----

  predicate IsRecordedIn(e: Event, n: string) {
    e.RecordedIn? && e.service == n
  }

  ghost predicate LastIsLogged(n: string, v: Service, log: seq<Event>) {
    v.policy.lastIn != 0 ==> exists i :: 0 <= i < |log| && IsRecordedIn(log[i], n) && log[i].at == v.policy.lastIn
  }

  ghost predicate AllLogged(s: State) {
    forall n :: n in s.services ==> LastIsLogged(n, s.services[n], s.log)
  }

  lemma LoggedGrows(n: string, v: Service, w: Service, log: seq<Event>, more: seq<Event>)
    requires LastIsLogged(n, v, log) && w.policy.lastIn == v.policy.lastIn
    ensures LastIsLogged(n, w, log + more)
  {
    if v.policy.lastIn != 0 {
      var i :| 0 <= i < |log| && IsRecordedIn(log[i], n) && log[i].at == v.policy.lastIn;
      assert (log + more)[i] == log[i];
    }
  }

  /** A step that changes service `n`, appends `more` to the log, and keeps or has logged its last scale-in. */
  lemma OneServiceKeepsLogged(s: State, t: State, n: string, more: seq<Event>)
    requires AllLogged(s) && n in s.services && n in t.services
    requires t.services == s.services[n := t.services[n]] && t.log == s.log + more
    requires t.services[n].policy.lastIn == s.services[n].policy.lastIn
          || (more != [] && IsRecordedIn(more[0], n) && more[0].at == t.services[n].policy.lastIn)
    ensures AllLogged(t)
  {
    forall m | m in t.services
      ensures LastIsLogged(m, t.services[m], t.log)
    {
      if m != n || t.services[n].policy.lastIn == s.services[n].policy.lastIn {
        LoggedGrows(m, s.services[m], t.services[m], s.log, more);
      } else {
        assert t.log[|s.log|] == more[0];
      }
    }
  }

  lemma WorkKeepsLogged(s: State, a: Answer, timeout: Time)
    requires Local(s) && Fits(s.pc, a) && AllLogged(s)
    ensures AllLogged(AdvanceStep(s, a, timeout))
  {
    var n, t := s.pc.job.serviceName, AdvanceStep(s, a, timeout);
    if Executes(s.pc.point) {
      OneServiceKeepsLogged(s, t, n, if t.log == s.log then [] else [t.log[|s.log|]]);
    } else {
      hide AdvanceStep;
      WorkIsLocal(s, a, timeout);
      OneServiceKeepsLogged(s, t, n, []);
    }
  }

  lemma EvaluationKeepsLogged(s: State, l: Label, timeout: Time)
    requires AllLogged(s) && Enabled(s, l)
    requires l.Read? || l.GiveUp? || l.Decide? || l.Act? || l.RecordOut? || l.Manual?
    ensures AllLogged(Step(s, l, timeout))
  {
    var t := Step(s, l, timeout);
    OneServiceKeepsLogged(s, t, l.service, if t.log == s.log then [] else [t.log[|s.log|]]);
  }

  lemma StepKeepsLogged(s: State, l: Label, timeout: Time)
    requires Inv(s) && AllLogged(s) && Enabled(s, l)
    ensures AllLogged(Step(s, l, timeout))
  {
    match l
    case Advance(a) =>
      if s.pc.Working? {
        CurrentIsLocal(s);
        WorkKeepsLogged(s, a, timeout);
      }
    case Pass(_) =>
    case Wait(_) =>
    case _ => EvaluationKeepsLogged(s, l, timeout);
  }

  lemma {:induction false} RunKeepsLogged(states: seq<State>, labels: seq<Label>, timeout: Time, k: nat)
    requires IsRun(states, labels, timeout) && k < |states|
    ensures AllLogged(states[k])
  {
    if k > 0 {
      hide Inv, AllLogged, Step;
      RunKeepsLogged(states, labels, timeout, k - 1);
      RunKeepsInv(states, labels, timeout, k - 1);
      StepKeepsLogged(states[k - 1], labels[k - 1], timeout);
    }
  }

  // ---- What comes later happens later ----

  /** `t` continues `s`: its log goes on from there, and what is recorded from then on is recorded no earlier. */
  ghost predicate Continues(s: State, t: State) {
    && s.clock <= t.clock && |s.log| <= |t.log| && t.log[..|s.log|] == s.log
    && forall j :: |s.log| <= j < |t.log| && t.log[j].RecordedIn? ==> s.clock <= t.log[j].at
  }

  lemma StepContinues(s: State, l: Label, timeout: Time)
    requires Enabled(s, l)
    ensures Continues(s, Step(s, l, timeout))
  {
  }

  lemma ContinuesOn(s: State, t: State, u: State)
    requires Continues(s, t) && Continues(t, u)
    ensures Continues(s, u)
  {
    assert u.log[..|s.log|] == t.log[..|s.log|];
    assert forall j :: |s.log| <= j < |t.log| ==> u.log[j] == t.log[j];
  }

  lemma {:induction false} LeadsContinues(s: State, labels: seq<Label>, timeout: Time, t: State)
    requires Leads(s, labels, timeout, t)
    ensures Continues(s, t)
    decreases |labels|
  {
    if labels != [] {
      hide Step, Continues, Enabled;
      StepContinues(s, labels[0], timeout);
      LeadsContinues(Step(s, labels[0], timeout), labels[1..], timeout, t);
      ContinuesOn(s, Step(s, labels[0], timeout), t);
    }
  }

  // ---- The request ----

  /** The evaluation of `n` holds an approval whose act will register a job. */
  predicate Registers(s: State, n: string) {
    && n in s.services && s.services[n].eval.EvalApproved? && s.services[n].eval.result.action == ScaleIn
    && RequestOutcome(s.services[n].job).Done?
  }

  /** The scale-in cooldown of `n` is running. */
  predicate CoolsDown(s: State, n: string)
    requires n in s.services
  {
    Cooling(s.services[n].policy.lastIn, 60 * SECOND, s.clock)
  }

  /** Lowerings of `n` recorded from position `cut` on are at least 60s after those recorded before it. */
  ghost predicate ApartAt(log: seq<Event>, n: string, cut: int) {
    forall i, j :: 0 <= i < cut <= j < |log| && IsRecordedIn(log[i], n) && IsRecordedIn(log[j], n) ==>
      log[j].at - log[i].at >= 60 * SECOND
  }

  /** However the run goes on from `s`, the lowerings of `n` to come stay apart from those before `cut`. */
  ghost predicate StaysApart(s: State, timeout: Time, n: string, cut: int) {
    forall labels: seq<Label>, t: State :: Leads(s, labels, timeout, t) ==> ApartAt(t.log, n, cut)
  }

  /** Where no cooldown runs, all recorded lowerings are at least 60s old. */
  lemma NotCoolingMeansOld(s: State, n: string, i: nat)
    requires LogOk(s) && n in s.services && !CoolsDown(s, n)
    requires i < |s.log| && IsRecordedIn(s.log[i], n)
    ensures s.clock - s.log[i].at >= 60 * SECOND
  {
    assert Remembered(n, s.services[n], s.log, s.clock);
    assert Behind(s.log[i], n, s.services[n]);
  }

  lemma NotCoolingStaysApart(s: State, t: State, labels: seq<Label>, timeout: Time, n: string, u: State)
    requires LogOk(s) && n in s.services && !CoolsDown(s, n)
    requires t.log == s.log && t.clock == s.clock && Leads(t, labels, timeout, u)
    ensures ApartAt(u.log, n, |s.log|)
  {
    LeadsContinues(t, labels, timeout, u);
    forall i, j | 0 <= i < |s.log| <= j < |u.log| && IsRecordedIn(u.log[i], n) && IsRecordedIn(u.log[j], n)
      ensures u.log[j].at - u.log[i].at >= 60 * SECOND
    {
      assert u.log[i] == u.log[..|s.log|][i];
      NotCoolingMeansOld(s, n, i);
    }
  }

  /** The turn in which the third zero is seen, up to the record of the lowering. */
  lemma LoweringTurn(s: State, n: string, timeout: Time) returns (labels: seq<Label>, t: State)
    requires s.pc.Working? && s.pc.job.serviceName == n && s.pc.point.Start? && n in s.services
    requires s.services[n].job == Some(s.pc.job) && s.pc.job.status.Draining? && s.pc.job.zeroSessionStreak == 2
    ensures Leads(s, labels, timeout, t) && AllCalm(labels, n, 1)
    ensures t.clock == s.clock && t.pc == s.pc.(point := Lowering(Recorded)) && n in t.services
    ensures t.services[n].trace.observed == s.services[n].trace.observed + [0]
    ensures t.services[n].job == Some(WithStreak(s.pc.job, 3, s.clock))
    ensures |t.log| > |s.log| && IsRecordedIn(t.log[|t.log| - 1], n) && t.log[|t.log| - 1].at == s.clock
  {
    var b := AdvanceStep(s, Sessions(0), timeout);
    var c := AdvanceStep(b, Ack, timeout);
    var d := AdvanceStep(c, Ack, timeout);
    t := AdvanceStep(d, Ack, timeout);
    LeadsOne(s, Advance(Sessions(0)), timeout);
    LeadsOne(b, Advance(Ack), timeout);
    LeadsOne(c, Advance(Ack), timeout);
    LeadsOne(d, Advance(Ack), timeout);
    hide Leads, AdvanceStep;
    labels := Chained(s, n, [Advance(Sessions(0))], timeout, b, [Advance(Ack)], c);
    labels := Chained(s, n, labels, timeout, c, [Advance(Ack)], d);
    labels := Chained(s, n, labels, timeout, d, [Advance(Ack)], t);
  }

  /** A draining job that has seen two zeros sees the third, lowers the count and has that recorded, in one turn. */
  lemma LowersNow(s: State, n: string, target: TaskID, timeout: Time) returns (labels: seq<Label>, t: State)
    requires DrainsWith(s, n, target, 2)
    ensures Leads(s, labels, timeout, t) && AllCalm(labels, n, 1) && |t.log| > |s.log|
    ensures t.clock == s.clock && t.pc.Working? && t.pc.job.serviceName == n && t.pc.point == Lowering(Recorded)
    ensures n in t.services && t.services[n].trace.observed == seq(3, _ => 0) && t.services[n].job.Some?
    ensures t.services[n].job.value.status.Draining? && t.services[n].job.value.targetTaskID == target
    ensures IsRecordedIn(t.log[|t.log| - 1], n) && t.log[|t.log| - 1].at == s.clock
  {
    hide Leads;
    var begin, a := PassBegins(s, n, timeout);
    labels, t := LoweringTurn(a, n, timeout);
    labels := Chained(s, n, begin, timeout, a, labels, t);
    assert seq(2, _ => 0) + [0] == seq(3, _ => 0);
  }

  /** After its request a job can lower the count without the clock moving, whatever else is going on. */
  lemma RequestCanLowerNow(s: State, n: string, ok: bool, timeout: Time) returns (labels: seq<Label>, t: State)
    requires Inv(s) && Registers(s, n)
    ensures Leads(ActStep(s, n, ok), labels, timeout, t) && |t.log| > |s.log|
    ensures IsRecordedIn(t.log[|t.log| - 1], n) && t.log[|t.log| - 1].at == s.clock
  {
    var a := ActStep(s, n, ok);
    RequestIsAside(s, n, ok);
    var finish, b := GetIdle(a, n, timeout);
    assert JustRequested(b, n);
    var three, c := ThreePasses(b, n, timeout);
    LeadsOn(a, finish, timeout, b, three, c);
    var last;
    last, t := LowersNow(c, n, "a", timeout);
    LeadsOn(a, finish + three, timeout, c, last, t);
    labels := finish + three + last;
    LeadsContinues(a, finish + three, timeout, c);
  }

  /** The registering act leaves the scale-in scheduler where it is, at work for other services. */
  lemma RequestIsAside(s: State, n: string, ok: bool)
    requires Inv(s) && Registers(s, n)
    ensures var a := ActStep(s, n, ok);
            && JustRequested(a.(pc := Idle), n) && Named(a) && a.log == s.log && a.clock == s.clock
            && (a.pc.Working? ==> a.pc.job.serviceName in a.services && a.pc.job.serviceName != n)
            && (!a.pc.Idle? ==> AboutOthers(a, a.pc.rest, n))
  {
    InactiveIsAtRest(s, n);
    assert ServiceOk(n, s.services[n], s.clock);
    if !s.pc.Idle? {
      forall i | 0 <= i < |s.pc.rest|
        ensures s.pc.rest[i].serviceName in s.services && s.pc.rest[i].serviceName != n
      {
        assert IsActiveIn(s.services, s.pc.rest[i]);
      }
    }
  }

  /** The scale-in cooldown is kept, exactly: when an act registers a job, every lowering to come is at least 60s after
      every lowering recorded so far, however the run goes on, if and only if the cooldown is not running then. */
  lemma RequestKeepsCooldownIff(states: seq<State>, labels: seq<Label>, timeout: Time, k: nat, n: string, ok: bool)
    requires IsRun(states, labels, timeout) && k < |states| && Registers(states[k], n)
    ensures StaysApart(ActStep(states[k], n, ok), timeout, n, |states[k].log|) <==> !CoolsDown(states[k], n)
  {
    var s, a := states[k], ActStep(states[k], n, ok);
    RunKeepsLog(states, labels, timeout, k);
    RunKeepsLogged(states, labels, timeout, k);
    if CoolsDown(s, n) {
      var more, t := RequestCanLowerNow(s, n, ok, timeout);
      LeadsContinues(a, more, timeout, t);
      CoolingBreaksApart(s, n, t);
    } else {
      forall more: seq<Label>, t: State | Leads(a, more, timeout, t)
        ensures ApartAt(t.log, n, |s.log|)
      {
        NotCoolingStaysApart(s, a, more, timeout, n, t);
      }
    }
  }

  lemma CoolingBreaksApart(s: State, n: string, t: State)
    requires AllLogged(s) && n in s.services && CoolsDown(s, n)
    requires |t.log| > |s.log| && t.log[..|s.log|] == s.log
    requires IsRecordedIn(t.log[|t.log| - 1], n) && t.log[|t.log| - 1].at == s.clock
    ensures !ApartAt(t.log, n, |s.log|)
  {
    assert LastIsLogged(n, s.services[n], s.log);
    var i :| 0 <= i < |s.log| && IsRecordedIn(s.log[i], n) && s.log[i].at == s.services[n].policy.lastIn;
    assert t.log[i] == t.log[..|s.log|][i];
  }

  // ---- Whole runs ----

  predicate AtWritten(pc: Pc, n: string) {
    pc.Working? && pc.job.serviceName == n && pc.point == Lowering(Written)
  }

  /** The job of `n` may still have a lowering recorded. */
  predicate Awaits(n: string, v: Service, pc: Pc) {
    v.job.Some? && (v.trace.lowerings == 0 || AtWritten(pc, n))
  }

  ghost predicate AllOld(log: seq<Event>, n: string, clock: Time) {
    forall i :: 0 <= i < |log| && IsRecordedIn(log[i], n) ==> clock - log[i].at >= 60 * SECOND
  }

  ghost predicate AllApart(log: seq<Event>) {
    forall i, j :: 0 <= i < j < |log| && log[i].RecordedIn? && IsRecordedIn(log[j], log[i].service) ==>
      log[j].at - log[i].at >= 60 * SECOND
  }

  /** Lowerings are apart, and those of a service whose job may have another one recorded are old enough for it. */
  ghost predicate Spaced60(s: State) {
    && AllApart(s.log)
    && forall n :: n in s.services && Awaits(n, s.services[n], s.pc) ==> AllOld(s.log, n, s.clock)
  }

  /** `t` is `s` with service `n` changed and at most one event of `n` appended, a lowering only if a job awaited it;
      whoever awaits one in `t` did in `s`, or has only old ones behind it. */
  lemma OneServiceKeepsSpaced(s: State, t: State, n: string)
    requires Spaced60(s) && ChangesOne(s, t, n)
    requires forall m :: m != n && AtWritten(t.pc, m) ==> AtWritten(s.pc, m)
    requires t.log != s.log && t.log[|s.log|].RecordedIn? ==>
               && Awaits(n, s.services[n], s.pc) && t.log[|s.log|].at == s.clock && !Awaits(n, t.services[n], t.pc)
    requires Awaits(n, t.services[n], t.pc) ==> Awaits(n, s.services[n], s.pc) || AllOld(s.log, n, s.clock)
    ensures Spaced60(t)
  {
    forall m | m in t.services && Awaits(m, t.services[m], t.pc)
      ensures AllOld(t.log, m, t.clock)
    {
      if m != n {
        assert t.services[m] == s.services[m] && Awaits(m, s.services[m], s.pc);
      }
    }
  }

  lemma WrittenFollowsReady(s: State, a: Answer, timeout: Time, n: string)
    requires s.pc.Working? && Fits(s.pc, a) && s.pc.job.serviceName in s.services
    requires AtWritten(AdvanceStep(s, a, timeout).pc, n)
    ensures s.pc.job.serviceName == n && s.pc.point == Lowering(Ready)
  {
  }

  lemma ExecutionKeepsSpaced(s: State, a: Answer)
    requires Local(s) && Fits(s.pc, a) && Executes(s.pc.point) && Spaced60(s)
    ensures Spaced60(LowerStep(s, a))
  {
    OneServiceKeepsSpaced(s, LowerStep(s, a), s.pc.job.serviceName);
  }

  lemma QuietWorkKeepsSpaced(s: State, t: State)
    requires Local(s) && LocalStep(s, t) && !Executes(s.pc.point) && Spaced60(s)
    requires forall m :: !AtWritten(t.pc, m)
    ensures Spaced60(t)
  {
    OneServiceKeepsSpaced(s, t, s.pc.job.serviceName);
  }

  lemma AdvanceKeepsSpaced(s: State, a: Answer, timeout: Time)
    requires Inv(s) && Spaced60(s) && Enabled(s, Advance(a))
    ensures Spaced60(AdvanceStep(s, a, timeout))
  {
    hide Spaced60, LocalStep, StartStep, DrainStep, LowerStep, CompletionStep, FailStep;
    var t := AdvanceStep(s, a, timeout);
    if !s.pc.Working? {
      SameLogKeepsSpaced(s, t);
    } else if Executes(s.pc.point) {
      CurrentIsLocal(s);
      ExecutionKeepsSpaced(s, a);
    } else {
      CurrentIsLocal(s);
      WorkIsLocal(s, a, timeout);
      forall m
        ensures !AtWritten(t.pc, m)
      {
        if AtWritten(t.pc, m) {
          WrittenFollowsReady(s, a, timeout, m);
        }
      }
      QuietWorkKeepsSpaced(s, t);
    }
  }

  lemma SameLogKeepsSpaced(s: State, t: State)
    requires Spaced60(s) && t.services == s.services && t.log == s.log && t.clock >= s.clock
    requires forall m :: AtWritten(t.pc, m) ==> AtWritten(s.pc, m)
    ensures Spaced60(t)
  {
  }

  lemma EvaluationKeepsSpaced(s: State, l: Label, timeout: Time)
    requires Spaced60(s) && Enabled(s, l)
    requires l.Read? || l.GiveUp? || l.Decide? || l.Act? || l.RecordOut? || l.Manual?
    requires l.Act? && Registers(s, l.service) ==> AllOld(s.log, l.service, s.clock)
    ensures Spaced60(Step(s, l, timeout))
  {
    OneServiceKeepsSpaced(s, Step(s, l, timeout), l.service);
  }

  /** No job is registered while its service cools down. */
  ghost predicate UncooledStep(s: State, l: Label) {
    l.Act? && Registers(s, l.service) ==> !CoolsDown(s, l.service)
  }

  lemma StepKeepsSpaced(s: State, l: Label, timeout: Time)
    requires Inv(s) && LogOk(s) && Spaced60(s) && Enabled(s, l) && UncooledStep(s, l)
    ensures Spaced60(Step(s, l, timeout))
  {
    match l
    case Advance(a) =>
      hide Inv, LogOk, Spaced60, AdvanceStep;
      AdvanceKeepsSpaced(s, a, timeout);
    case Pass(_) => SameLogKeepsSpaced(s, Step(s, l, timeout));
    case Wait(_) => SameLogKeepsSpaced(s, Step(s, l, timeout));
    case Act(n, _) =>
      if Registers(s, n) {
        UncooledMeansOld(s, n);
      }
      hide Inv, LogOk, Spaced60, Step;
      EvaluationKeepsSpaced(s, l, timeout);
    case _ =>
      hide Inv, LogOk, Spaced60, Step;
      EvaluationKeepsSpaced(s, l, timeout);
  }

  lemma UncooledMeansOld(s: State, n: string)
    requires LogOk(s) && n in s.services && !CoolsDown(s, n)
    ensures AllOld(s.log, n, s.clock)
  {
    forall i | 0 <= i < |s.log| && IsRecordedIn(s.log[i], n)
      ensures s.clock - s.log[i].at >= 60 * SECOND
    {
      NotCoolingMeansOld(s, n, i);
    }
  }

  lemma {:induction false} RunKeepsSpaced(states: seq<State>, labels: seq<Label>, timeout: Time, k: nat)
    requires IsRun(states, labels, timeout) && k < |states|
    requires forall i :: 0 <= i < |labels| ==> UncooledStep(states[i], labels[i])
    ensures Spaced60(states[k])
  {
    if k > 0 {
      hide Inv, LogOk, Spaced60, Step, UncooledStep;
      RunKeepsSpaced(states, labels, timeout, k - 1);
      RunKeepsLog(states, labels, timeout, k - 1);
      StepKeepsSpaced(states[k - 1], labels[k - 1], timeout);
    }
  }

  /** In every run in which no job is registered while its service cools down, recorded lowerings of one service are at
      least 60s apart. */
  lemma UncooledRequestsSpaceLowerings(states: seq<State>, labels: seq<Label>, timeout: Time, k: nat, i: nat, j: nat)
    requires IsRun(states, labels, timeout) && k < |states|
    requires forall l :: 0 <= l < |labels| ==> UncooledStep(states[l], labels[l])
    requires i < j < |states[k].log| && states[k].log[i].service == states[k].log[j].service
    requires states[k].log[i].RecordedIn? && states[k].log[j].RecordedIn?
    ensures states[k].log[j].at - states[k].log[i].at >= 60 * SECOND
  {
    RunKeepsSpaced(states, labels, timeout, k);
    hide Step, UncooledStep;
  }
}
