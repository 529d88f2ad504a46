/** The log of a run: how far executions are apart, how far a write may move the count, who lowered it. */
module ProtocolHistory {
  import opened Domain
  import opened ScalingPolicy
  import opened Protocol
  import opened ProtocolSafety

  /** What an earlier event `e` demands of a later event `f` of the same service. */
  ghost predicate Spaced(e: Event, f: Event) {
    e.service == f.service ==>
      && (f.RecordedOut? && e.RecordedOut? ==> f.at - e.at >= 30 * SECOND)
      && (f.ApprovedOut? && e.RecordedOut? ==> f.at - e.at >= 30 * SECOND)
      && (f.ApprovedIn? && (e.RecordedOut? || e.RecordedIn?) ==> f.at - e.at >= 60 * SECOND)
  }

  ghost predicate AllSpaced(log: seq<Event>) {
    forall i, j :: 0 <= i < j < |log| ==> Spaced(log[i], log[j])
  }

  /** The approval at position `a` is one of service `n`, not later than `now`. */
  ghost predicate IsApproval(log: seq<Event>, n: string, a: nat, now: Time) {
    a < |log| && log[a].ApprovedIn? && log[a].service == n && log[a].at <= now
  }

  ghost predicate AllLinked(log: seq<Event>) {
    forall j :: 0 <= j < |log| && log[j].RecordedIn? ==>
      IsApproval(log[..j], log[j].service, log[j].approval, log[j].at)
  }

  /** How far one automatic write may move the count it was decided on. */
  ghost predicate WriteBounded(e: Event) {
    && (e.Raised? ==> e.read < e.written <= Min(Min(e.read + 2, 10), e.required))
    && (e.Lowered? ==> e.written == e.read - 1 >= 1)
  }

  /** The recorded executions of `n` are behind the policy's last ones. */
  ghost predicate Behind(e: Event, n: string, v: Service) {
    e.service == n ==>
      && (e.RecordedOut? ==> 0 < e.at <= v.policy.lastOut)
      && (e.RecordedIn? ==> 0 < e.at <= v.policy.lastIn)
  }

  ghost predicate Remembered(n: string, v: Service, log: seq<Event>, clock: Time) {
    && (forall i :: 0 <= i < |log| ==> Behind(log[i], n, v))
    && (v.eval.EvalWritten? || (v.eval.EvalApproved? && v.eval.result.action == ScaleOut) ==>
          !Cooling(v.policy.lastOut, 30 * SECOND, clock))
    && (v.eval.EvalApproved? && v.eval.result.action == ScaleIn ==> IsApproval(log, n, v.eval.approval, clock))
    && (v.job.Some? ==> IsApproval(log, n, v.trace.approval, clock))
  }

  ghost predicate LogOk(s: State) {
    && AllSpaced(s.log) && AllLinked(s.log)
    && (forall i :: 0 <= i < |s.log| ==> WriteBounded(s.log[i]))
    && (forall n :: n in s.services ==> Remembered(n, s.services[n], s.log, s.clock))
  }

  lemma AppendKeeps(log: seq<Event>, e: Event)
    requires AllSpaced(log) && AllLinked(log) && (forall i :: 0 <= i < |log| ==> WriteBounded(log[i]))
    requires forall i :: 0 <= i < |log| ==> Spaced(log[i], e)
    requires e.RecordedIn? ==> IsApproval(log, e.service, e.approval, e.at)
    requires WriteBounded(e)
    ensures AllSpaced(log + [e]) && AllLinked(log + [e])
    ensures forall i :: 0 <= i < |log + [e]| ==> WriteBounded((log + [e])[i])
  {
    var grown := log + [e];
    assert grown[..|log|] == log;
    forall j | 0 <= j < |grown| && grown[j].RecordedIn?
      ensures IsApproval(grown[..j], grown[j].service, grown[j].approval, grown[j].at)
    {
      if j < |log| {
        assert grown[..j] == log[..j];
      }
    }
  }

  /** Another service's event does not concern `n`. */
  lemma RememberedGrows(n: string, v: Service, log: seq<Event>, e: Event, clock: Time, later: Time)
    requires Remembered(n, v, log, clock) && clock <= later
    requires Behind(e, n, v)
    ensures Remembered(n, v, log + [e], later)
    ensures Remembered(n, v, log, later)
  {
  }

  /** `t` is `s` with service `n` changed and at most one event of `n` appended. */
  ghost predicate ChangesOne(s: State, t: State, n: string) {
    && n in s.services && n in t.services
    && t.services == s.services[n := t.services[n]] && t.clock == s.clock
    && (t.log == s.log || (|t.log| == |s.log| + 1 && t.log == s.log + [t.log[|s.log|]] && t.log[|s.log|].service == n))
  }

  lemma OneServiceKeepsLog(s: State, t: State, n: string)
    requires LogOk(s) && ChangesOne(s, t, n)
    requires t.log != s.log ==>
               var e := t.log[|s.log|];
               && WriteBounded(e)
               && (forall i :: 0 <= i < |s.log| ==> Spaced(s.log[i], e))
               && (e.RecordedIn? ==> IsApproval(s.log, n, e.approval, e.at))
    requires Remembered(n, t.services[n], t.log, t.clock)
    ensures LogOk(t)
  {
    if t.log != s.log {
      AppendKeeps(s.log, t.log[|s.log|]);
    }
    forall m | m in t.services
      ensures Remembered(m, t.services[m], t.log, t.clock)
    {
      if m != n {
        assert t.services[m] == s.services[m];
        if t.log != s.log {
          RememberedGrows(m, s.services[m], s.log, t.log[|s.log|], s.clock, s.clock);
        }
      }
    }
  }

  lemma QuietWorkKeepsLog(s: State, t: State)
    requires Local(s) && LocalStep(s, t) && LogOk(s) && !Executes(s.pc.point)
    ensures LogOk(t)
  {
    var n := s.pc.job.serviceName;
    assert Remembered(n, s.services[n], s.log, s.clock);
    OneServiceKeepsLog(s, t, n);
  }

  lemma ExecutionKeepsLog(s: State, a: Answer)
    requires Local(s) && Fits(s.pc, a) && LogOk(s)
    requires Executes(s.pc.point)
    ensures LogOk(LowerStep(s, a))
  {
    var n, t := s.pc.job.serviceName, LowerStep(s, a);
    assert Remembered(n, s.services[n], s.log, s.clock);
    assert ChangesOne(s, t, n);
    OneServiceKeepsLog(s, t, n);
  }

  lemma AdvanceKeepsLog(s: State, a: Answer, timeout: Time)
    requires Inv(s) && LogOk(s) && Enabled(s, Advance(a))
    ensures LogOk(AdvanceStep(s, a, timeout))
  {
    hide LogOk, LocalStep, StartStep, DrainStep, LowerStep, CompletionStep, FailStep;
    if s.pc.Working? {
      if Executes(s.pc.point) {
        ExecutionKeepsLog(s, a);
      } else {
        WorkIsLocal(s, a, timeout);
        QuietWorkKeepsLog(s, AdvanceStep(s, a, timeout));
      }
    } else {
      OnlyPcChanges(s, AdvanceStep(s, a, timeout));
    }
  }

  lemma OnlyPcChanges(s: State, t: State)
    requires LogOk(s) && t.services == s.services && t.log == s.log && t.clock == s.clock
    ensures LogOk(t)
  {
  }

  lemma DecideKeepsLog(s: State, n: string, total: int, required: int, coverage: real)
    requires LogOk(s) && s.clock > 0 && Enabled(s, Decide(n, total, required, coverage))
    ensures LogOk(DecideStep(s, n, total, required, coverage))
  {
    var v, t := s.services[n], DecideStep(s, n, total, required, coverage);
    assert Remembered(n, v, s.log, s.clock);
    var demand := DemandedBy(n, total, v.eval.read, required);
    if Judge(v.policy, demand, v.eval.read, coverage, s.clock).approved {
      ApprovalIsBounded(v.policy, demand, v.eval.read, coverage, s.clock);
      assert forall i :: 0 <= i < |s.log| ==> Behind(s.log[i], n, v);
    }
    OneServiceKeepsLog(s, t, n);
  }

  lemma ActKeepsLog(s: State, n: string, ok: bool)
    requires LogOk(s) && Enabled(s, Act(n, ok)) && EvalBounded(n, s.services[n].eval)
    ensures LogOk(ActStep(s, n, ok))
  {
    assert Remembered(n, s.services[n], s.log, s.clock);
    OneServiceKeepsLog(s, ActStep(s, n, ok), n);
  }

  lemma OwnStepKeepsLog(s: State, l: Label, timeout: Time)
    requires LogOk(s) && s.clock > 0 && Enabled(s, l)
    requires l.Read? || l.GiveUp? || l.RecordOut? || l.Manual?
    requires l.service in s.services && s.services[l.service].policy.lastOut <= s.clock
    ensures LogOk(Step(s, l, timeout))
  {
    var v := s.services[l.service];
    assert Remembered(l.service, v, s.log, s.clock);
    if l.RecordOut? {
      assert forall i :: 0 <= i < |s.log| ==> Behind(s.log[i], l.service, v);
    }
    OneServiceKeepsLog(s, Step(s, l, timeout), l.service);
  }

  lemma WaitKeepsLog(s: State, clock: Time)
    requires LogOk(s) && clock >= s.clock
    ensures LogOk(s.(clock := clock))
  {
    forall n | n in s.services
      ensures Remembered(n, s.services[n], s.log, clock)
    {
      assert Remembered(n, s.services[n], s.log, s.clock);
    }
  }

  lemma StepKeepsLog(s: State, l: Label, timeout: Time)
    requires Inv(s) && LogOk(s) && Enabled(s, l)
    ensures LogOk(Step(s, l, timeout))
  {
    hide LogOk, PcOk, PastOk, AdvanceStep, DecideStep, ActStep;
    match l
    case Pass(_) => OnlyPcChanges(s, Step(s, l, timeout));
    case Advance(a) => AdvanceKeepsLog(s, a, timeout);
    case Decide(n, total, required, coverage) => DecideKeepsLog(s, n, total, required, coverage);
    case Act(n, ok) => ActKeepsLog(s, n, ok);
    case Wait(clock) => WaitKeepsLog(s, clock);
    case _ => OwnStepKeepsLog(s, l, timeout);
  }

  lemma {:induction false} RunKeepsLog(states: seq<State>, labels: seq<Label>, timeout: Time, k: nat)
    requires IsRun(states, labels, timeout) && k < |states|
    ensures Inv(states[k]) && LogOk(states[k])
  {
    if k > 0 {
      hide Inv, LogOk, Step;
      RunKeepsLog(states, labels, timeout, k - 1);
      StepKeepsInv(states[k - 1], labels[k - 1], timeout);
      StepKeepsLog(states[k - 1], labels[k - 1], timeout);
    }
  }

  /** Over every run: recorded scale-outs of a service are at least 30s apart; a scale-in is approved at least 60s
      after every earlier recorded execution; and two applied scale-ins are at least 60s apart unless the later one
      was approved before the earlier one was recorded. */
  lemma ExecutionsAreSpaced(states: seq<State>, labels: seq<Label>, timeout: Time, k: nat, i: nat, j: nat)
    requires IsRun(states, labels, timeout) && k < |states|
    requires i < j < |states[k].log| && states[k].log[i].service == states[k].log[j].service
    ensures var log := states[k].log;
            && (log[i].RecordedOut? && log[j].RecordedOut? ==> log[j].at - log[i].at >= 30 * SECOND)
            && (log[j].ApprovedOut? && log[i].RecordedOut? ==> log[j].at - log[i].at >= 30 * SECOND)
            && (log[j].ApprovedIn? && (log[i].RecordedOut? || log[i].RecordedIn?) ==>
                  log[j].at - log[i].at >= 60 * SECOND)
            && (log[i].RecordedIn? && log[j].RecordedIn? && i < log[j].approval ==>
                  log[j].at - log[i].at >= 60 * SECOND)
  {
    RunKeepsLog(states, labels, timeout, k);
    var log := states[k].log;
    assert Spaced(log[i], log[j]);
    if log[i].RecordedIn? && log[j].RecordedIn? && i < log[j].approval {
      assert IsApproval(log[..j], log[j].service, log[j].approval, log[j].at);
      assert Spaced(log[i], log[log[j].approval]);
    }
  }

  /** Every automatic write, whatever manual writes come in between, stays within one step of the count its decision
      was made on: up by at most two, to at most ten and at most the required count; down by exactly one, never
      below one. */
  lemma WritesAreBounded(states: seq<State>, labels: seq<Label>, timeout: Time, k: nat, i: nat)
    requires IsRun(states, labels, timeout) && k < |states| && i < |states[k].log|
    ensures WriteBounded(states[k].log[i])
  {
    RunKeepsLog(states, labels, timeout, k);
  }

  // ---- Who lowered the count ----

  function CountLowered(log: seq<Event>, n: string): nat {
    if log == [] then 0
    else
      var e := log[|log| - 1];
      CountLowered(log[..|log| - 1], n) + (if e.Lowered? && e.service == n then 1 else 0)
  }

  function PastLowerings(past: seq<Finished>, n: string): nat {
    if past == [] then 0
    else
      var f := past[|past| - 1];
      PastLowerings(past[..|past| - 1], n) + (if f.job.serviceName == n then f.trace.lowerings else 0)
  }

  function CurrentLowerings(v: Service): nat {
    if v.job.Some? then v.trace.lowerings else 0
  }

  ghost predicate Accounted(s: State) {
    forall n :: n in s.services ==>
      CountLowered(s.log, n) == PastLowerings(s.past, n) + CurrentLowerings(s.services[n])
  }

  lemma CountGrows(log: seq<Event>, e: Event, n: string)
    ensures CountLowered(log + [e], n) == CountLowered(log, n) + (if e.Lowered? && e.service == n then 1 else 0)
  {
    assert (log + [e])[..|log|] == log;
  }

  lemma PastGrows(past: seq<Finished>, f: Finished, n: string)
    ensures PastLowerings(past + [f], n)
         == PastLowerings(past, n) + (if f.job.serviceName == n then f.trace.lowerings else 0)
  {
    assert (past + [f])[..|past|] == past;
  }

  /** `t` is `s` with service `n` changed; every event appended and every job retired is one of `n`, and the books
      of `n` balance. */
  lemma BooksBalance(s: State, t: State, n: string)
    requires Accounted(s) && n in s.services && n in t.services && t.services == s.services[n := t.services[n]]
    requires t.log == s.log
          || (|t.log| == |s.log| + 1 && t.log == s.log + [t.log[|s.log|]] && t.log[|s.log|].service == n)
    requires t.past == s.past
          || (|t.past| == |s.past| + 1 && t.past == s.past + [t.past[|s.past|]]
              && t.past[|s.past|].job.serviceName == n)
    requires (if t.log != s.log && t.log[|s.log|].Lowered? then 1 else 0) + CurrentLowerings(s.services[n])
          == (if t.past != s.past then t.past[|s.past|].trace.lowerings else 0) + CurrentLowerings(t.services[n])
    ensures Accounted(t)
  {
    forall m | m in t.services
      ensures CountLowered(t.log, m) == PastLowerings(t.past, m) + CurrentLowerings(t.services[m])
    {
      if t.log != s.log {
        CountGrows(s.log, t.log[|s.log|], m);
      }
      if t.past != s.past {
        PastGrows(s.past, t.past[|s.past|], m);
      }
      assert m != n ==> t.services[m] == s.services[m];
    }
  }

  lemma WorkIsAccounted(s: State, a: Answer, timeout: Time)
    requires Local(s) && Accounted(s) && Fits(s.pc, a)
    ensures Accounted(AdvanceStep(s, a, timeout))
  {
    hide StartStep, DrainStep, CompletionStep, FailStep;
    WorkIsLocal(s, a, timeout);
    BooksBalance(s, AdvanceStep(s, a, timeout), s.pc.job.serviceName);
  }

  lemma AdvanceIsAccounted(s: State, a: Answer, timeout: Time)
    requires Inv(s) && Accounted(s) && Enabled(s, Advance(a))
    ensures Accounted(AdvanceStep(s, a, timeout))
  {
    if s.pc.Working? {
      hide AdvanceStep, Accounted;
      WorkIsAccounted(s, a, timeout);
    } else {
      SameBooks(s, AdvanceStep(s, a, timeout));
    }
  }

  lemma StepIsAccounted(s: State, l: Label, timeout: Time)
    requires Inv(s) && Accounted(s) && Enabled(s, l)
    ensures Accounted(Step(s, l, timeout))
  {
    hide Accounted, PastOk, AdvanceStep;
    match l
    case Advance(a) => AdvanceIsAccounted(s, a, timeout);
    case Pass(_) => SameBooks(s, Step(s, l, timeout));
    case Wait(_) => SameBooks(s, Step(s, l, timeout));
    case _ => BooksBalance(s, Step(s, l, timeout), l.service);
  }

  lemma SameBooks(s: State, t: State)
    requires Accounted(s) && t.services == s.services && t.log == s.log && t.past == s.past
    ensures Accounted(t)
  {
  }

  /** Every successful lowering in the log belongs to exactly one job: the log holds as many lowerings of a service
      as its jobs, past and present, have to their names. */
  lemma {:induction false} EveryLoweringBelongsToAJob(states: seq<State>, labels: seq<Label>, timeout: Time, k: nat)
    requires IsRun(states, labels, timeout) && k < |states|
    ensures Accounted(states[k])
  {
    if k > 0 {
      hide Inv, Accounted, Step;
      EveryLoweringBelongsToAJob(states, labels, timeout, k - 1);
      RunKeepsInv(states, labels, timeout, k - 1);
      StepIsAccounted(states[k - 1], labels[k - 1], timeout);
    }
  }
}
