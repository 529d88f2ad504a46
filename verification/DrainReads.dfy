/**
 * What the drain reads are worth. The scheduler asks the report store for the count of the drained task; a task without
 * a report reads as zero.
 */
module DrainReads {
  import opened Domain
  import opened Protocol
  import opened ProtocolSafety
  import opened Guarantees
  import opened Passes
  import opened Reachability
  import opened RequestSpacing
  import Store = ReportStore

  /** What `GetTaskSessionReportByTask` answers after `ops`. */
  function Answered(ops: seq<Store.Op>, t: TaskID): int {
    var reports := Store.After(ops).store.reports;
    if t in reports then reports[t].sessionCount else 0
  }

  /** The count in the last report of `t`, if it ever reported. */
  function LastCount(ops: seq<Store.Op>, t: TaskID): Option<int> {
    if ops == [] then None
    else
      var op := ops[|ops| - 1];
      if op.Report? && op.task == t then Some(op.sessionCount) else LastCount(ops[..|ops| - 1], t)
  }

  ghost predicate NeverRemoved(ops: seq<Store.Op>, t: TaskID) {
    forall i :: 0 <= i < |ops| ==> !(ops[i].Remove? && ops[i].task == t)
  }

  lemma PunctualBefore(ops: seq<Store.Op>, t: TaskID, n: nat)
    requires Store.Punctual(ops, t) && NeverRemoved(ops, t) && n <= |ops|
    ensures Store.Punctual(ops[..n], t) && NeverRemoved(ops[..n], t)
  {
    forall i | 0 <= i < n && Store.LastReport(ops[..n][..i], t).Some?
      ensures Store.Unix(ops[..n][i].at) - Store.Unix(Store.LastReport(ops[..n][..i], t).value) < 90
    {
      assert ops[..n][..i] == ops[..i];
    }
  }

  /** A punctual task that no scale-in removed reads as it last reported. */
  lemma {:induction false} PunctualTasksReadAsReported(ops: seq<Store.Op>, t: TaskID)
    requires Store.Punctual(ops, t) && NeverRemoved(ops, t)
    ensures LastCount(ops, t).Some? <==> t in Store.After(ops).store.reports
    ensures LastCount(ops, t).Some? ==> Answered(ops, t) == LastCount(ops, t).value
  {
    if ops != [] {
      var before := ops[..|ops| - 1];
      PunctualBefore(ops, t, |ops| - 1);
      PunctualTasksReadAsReported(before, t);
      Store.PunctualTasksAreKept(before, t);
    }
  }

  /** The counts were read from the store at the given positions of its history, in order. */
  ghost predicate ReadFrom(observed: seq<int>, places: seq<nat>, ops: seq<Store.Op>, t: TaskID) {
    && |places| == |observed|
    && (forall i :: 0 <= i < |places| ==> places[i] <= |ops| && observed[i] == Answered(ops[..places[i]], t))
    && (forall i, j :: 0 <= i < j < |places| ==> places[i] <= places[j])
  }

  /** Whether a report of `t` is stored after `ops`. */
  predicate IsStored(ops: seq<Store.Op>, t: TaskID) {
    t in Store.After(ops).store.reports
  }

  /** A stored report is the last one. */
  lemma {:induction false} StoredReportsAreLast(ops: seq<Store.Op>, t: TaskID)
    requires IsStored(ops, t)
    ensures LastCount(ops, t) == Some(Answered(ops, t))
  {
    if ops != [] {
      var before, op := ops[..|ops| - 1], ops[|ops| - 1];
      if !(op.Report? && op.task == t) {
        StoredReportsAreLast(before, t);
      }
    }
  }

  /** A task whose last report was of sessions reads as having none if and only if its report is gone. */
  lemma {:induction false} ReadsAsNoneIff(ops: seq<Store.Op>, t: TaskID)
    requires LastCount(ops, t).Some? && LastCount(ops, t).value > 0
    ensures Answered(ops, t) <= 0 <==> !IsStored(ops, t)
  {
    if IsStored(ops, t) {
      StoredReportsAreLast(ops, t);
    }
  }

  /** The job of `n` was lowered for on counts read from a store at `places` of its history. */
  ghost predicate LoweredOn(s: State, n: string, places: seq<nat>, ops: seq<Store.Op>) {
    && n in s.services && s.services[n].job.Some? && s.services[n].job.value.appliedAt != 0
    && ReadFrom(s.services[n].trace.observed, places, ops, s.services[n].job.value.targetTaskID)
  }

  lemma LastThreeReadNothing(states: seq<State>, labels: seq<Label>, timeout: Time, k: nat, n: string,
                             places: seq<nat>, ops: seq<Store.Op>)
    requires IsRun(states, labels, timeout) && k < |states|
    requires LoweredOn(states[k], n, places, ops) && !ActingOn(states[k], n)
    ensures |places| >= 3
    ensures forall i :: |places| - 3 <= i < |places| ==>
              places[i] <= |ops| && Answered(ops[..places[i]], states[k].services[n].job.value.targetTaskID) <= 0
  {
    var v := states[k].services[n];
    ExactlyOnceLowering(states, labels, timeout, k);
    assert AskedAtFirstTriple(v.trace) && v.trace.lowerings == 1;
    assert TripleAt(v.trace.observed, |v.trace.observed| - 3);
    hide IsRun, AskedAtFirstTriple, Answered;
  }

  /** In every run, if the count was lowered for a job on counts read from a store: at each of the three last reads, a
      stored report of the drained task was its last and of no sessions, and if its last was of sessions it was gone. */
  lemma StoredReportsWereOfNothing(states: seq<State>, labels: seq<Label>, timeout: Time, k: nat, n: string,
                               places: seq<nat>, ops: seq<Store.Op>, i: nat)
    requires IsRun(states, labels, timeout) && k < |states|
    requires LoweredOn(states[k], n, places, ops) && !ActingOn(states[k], n)
    requires |places| - 3 <= i < |places|
    ensures places[i] <= |ops|
    ensures var target, before := states[k].services[n].job.value.targetTaskID, ops[..places[i]];
            var last := LastCount(before, target);
            && (last.Some? && last.value > 0 ==> !IsStored(before, target))
            && (IsStored(before, target) ==> last.Some? && last.value <= 0)
  {
    LastThreeReadNothing(states, labels, timeout, k, n, places, ops);
    var target, before := states[k].services[n].job.value.targetTaskID, ops[..places[i]];
    hide IsRun, LoweredOn, Answered, IsStored;
    if IsStored(before, target) {
      StoredReportsAreLast(before, target);
    }
  }

  /** So a task that reports punctually, and whose report no scale-in removed, is lowered for only if its last report at
      each of the three last reads was of no sessions, or it had never reported. */
  lemma LoweredTasksReportedNothing(states: seq<State>, labels: seq<Label>, timeout: Time, k: nat, n: string,
                                    places: seq<nat>, ops: seq<Store.Op>)
    requires IsRun(states, labels, timeout) && k < |states|
    requires LoweredOn(states[k], n, places, ops) && !ActingOn(states[k], n)
    requires var target := states[k].services[n].job.value.targetTaskID;
             Store.Punctual(ops, target) && NeverRemoved(ops, target)
    ensures |places| >= 3
    ensures forall i :: |places| - 3 <= i < |places| ==>
              && places[i] <= |ops|
              && var last := LastCount(ops[..places[i]], states[k].services[n].job.value.targetTaskID);
                 last.None? || last.value <= 0
  {
    LastThreeReadNothing(states, labels, timeout, k, n, places, ops);
    var target := states[k].services[n].job.value.targetTaskID;
    hide IsRun, LoweredOn, Answered;
    forall i | |places| - 3 <= i < |places|
      ensures places[i] <= |ops|
      ensures var last := LastCount(ops[..places[i]], target); last.None? || last.value <= 0
    {
      StoredReportsWereOfNothing(states, labels, timeout, k, n, places, ops, i);
      PunctualBefore(ops, target, places[i]);
      PunctualTasksReadAsReported(ops[..places[i]], target);
    }
  }

  /** What happens to the report of a task that reports five sessions and then falls silent: 121s later a sweep finds
      it due and drops it. */
  function Silenced(t: TaskID, at: Time): seq<Store.Op> {
    var later := at + 121 * SECOND;
    [Store.Report(t, 0, at), Store.Report(t, 5, at), Store.Check(t, later), Store.Drop(later)]
  }

  lemma HistoryGrows(ops: seq<Store.Op>, op: Store.Op, t: TaskID)
    ensures Store.After(ops + [op]) == Store.Apply(Store.After(ops), op)
    ensures LastCount(ops + [op], t) == if op.Report? && op.task == t then Some(op.sessionCount) else LastCount(ops, t)
  {
    assert (ops + [op])[..|ops|] == ops;
  }

  lemma SilencedReadsAsZero(t: TaskID, at: Time)
    ensures Answered(Silenced(t, at), t) == 0 && LastCount(Silenced(t, at), t) == Some(5)
  {
    var ops := Silenced(t, at);
    HistoryGrows([], ops[0], t);
    HistoryGrows([] + [ops[0]], ops[1], t);
    HistoryGrows([] + [ops[0]] + [ops[1]], ops[2], t);
    HistoryGrows([] + [ops[0]] + [ops[1]] + [ops[2]], ops[3], t);
    assert ops == [] + [ops[0]] + [ops[1]] + [ops[2]] + [ops[3]];
    Store.UnixShift(at, 60);
    Store.UnixShift(at, 91);
  }

  /** The requested job starts its drain, and 121s pass. */
  lemma DrainThenWait(s: State, n: string, timeout: Time) returns (labels: seq<Label>, t: State)
    requires Init(s) && s.services.Keys == {n} && s.services[n].desired == 2
    ensures Leads(s, labels, timeout, t) && AllCalm(labels, n, 1) && DrainsWith(t, n, "a", 0)
    ensures t.clock == s.clock + 121 * SECOND
  {
    hide Leads, Step, DrainsWith, AllCalm;
    var a;
    labels, a := ManyEvaluations(s, n, timeout, 4);
    var more, b := FifthApproves(a, n, timeout);
    labels := Chained(s, n, labels, timeout, a, more, b);
    var c := ActRequests(b, n, timeout);
    labels := Chained(s, n, labels, timeout, b, [Act(n, true)], c);
    more, a := FirstPass(c, n, timeout);
    labels := Chained(s, n, labels, timeout, c, more, a);
    more, t := Waits(a, n, a.clock + 121 * SECOND, timeout);
    labels := Chained(s, n, labels, timeout, a, more, t);
  }

  lemma Waits(s: State, n: string, clock: Time, timeout: Time) returns (labels: seq<Label>, t: State)
    requires DrainsWith(s, n, "a", 0) && clock >= s.clock
    ensures Leads(s, labels, timeout, t) && AllCalm(labels, n, 1) && DrainsWith(t, n, "a", 0) && t.clock == clock
  {
    LeadsOne(s, Wait(clock), timeout);
    labels, t := [Wait(clock)], s.(clock := clock);
  }

  /** A drain that sees no sessions is applied at this instant. */
  lemma DrainsToApplied(s: State, n: string, timeout: Time) returns (labels: seq<Label>, t: State)
    requires DrainsWith(s, n, "a", 0)
    ensures Leads(s, labels, timeout, t) && AllCalm(labels, n, 1) && t.clock == s.clock
    ensures n in t.services && t.services[n].job.Some? && t.services[n].trace.observed == seq(3, _ => 0)
    ensures t.services[n].job.value.status.Applied? && t.services[n].job.value.targetTaskID == "a"
  {
    var a, more, b;
    labels, a := ZeroPass(s, n, "a", 0, timeout);
    more, b := ZeroPass(a, n, "a", 1, timeout);
    labels := Chained(s, n, labels, timeout, a, more, b);
    more, a := LowersNow(b, n, "a", timeout);
    labels := Chained(s, n, labels, timeout, b, more, a);
    hide DrainsWith;
    LeadsOne(a, Advance(Ack), timeout);
    t := AdvanceStep(a, Ack, timeout);
    labels := Chained(s, n, labels, timeout, a, [Advance(Ack)], t);
  }

  /** The run of the silenced task: at `middle` its drain has read nothing yet, 121s after the reports. */
  lemma SilencedRun(s: State, n: string, timeout: Time) returns (states: seq<State>, labels: seq<Label>, middle: nat)
    requires Init(s) && s.services.Keys == {n} && s.services[n].desired == 2
    ensures IsRun(states, labels, timeout) && states[0] == s && middle < |labels|
    ensures DrainsWith(states[middle], n, "a", 0) && states[middle].clock == s.clock + 121 * SECOND
    ensures var t := states[|labels|];
            && n in t.services && t.services[n].job.Some? && t.services[n].trace.observed == seq(3, _ => 0)
            && t.services[n].job.value.status.Applied? && t.services[n].job.value.targetTaskID == "a"
  {
    var first, a := DrainThenWait(s, n, timeout);
    var second, t := DrainsToApplied(a, n, timeout);
    states := JoinedRun(s, first, timeout, a, second, t);
    labels, middle := first + second, |first|;
    assert second != [] by {
      assert a.services[n].job.value.status.Draining?;
    }
    hide IsRun, Leads;
  }

  /** A task whose last report was of five sessions can be drained and stopped: its report expires, a sweep drops it,
      and only then the drain reads three times nothing. At every read the last report is that of five sessions. */
  lemma SilencedTaskIsLoweredFor(s: State, n: string, timeout: Time)
    requires Init(s) && s.services.Keys == {n} && s.services[n].desired == 2
    ensures exists states: seq<State>, labels: seq<Label>, middle: nat, places: seq<nat>, ops: seq<Store.Op> ::
              && IsRun(states, labels, timeout) && states[0] == s && ops == Silenced("a", s.clock)
              && middle < |labels| && DrainsWith(states[middle], n, "a", 0)
              && states[middle].clock == s.clock + 121 * SECOND
              && LoweredOn(states[|labels|], n, places, ops) && |places| == 3
              && states[|labels|].services[n].job.value.targetTaskID == "a"
              && states[|labels|].services[n].job.value.status.Applied?
              && (forall i :: 0 <= i < 3 ==> LastCount(ops[..places[i]], "a") == Some(5))
  {
    var ops := Silenced("a", s.clock);
    SilencedReadsAsZero("a", s.clock);
    var states, labels, middle := SilencedRun(s, n, timeout);
    AppliedJobsAreStamped(states, labels, timeout, n);
    var places: seq<nat> := [4, 4, 4];
    assert |ops| == 4 && ops[..4] == ops;
    hide IsRun, DrainsWith, Answered, Silenced, LastCount;
    assert LoweredOn(states[|labels|], n, places, ops);
  }

  lemma AppliedJobsAreStamped(states: seq<State>, labels: seq<Label>, timeout: Time, n: string)
    requires IsRun(states, labels, timeout) && n in states[|labels|].services
    requires states[|labels|].services[n].job.Some? && states[|labels|].services[n].job.value.status.Applied?
    ensures states[|labels|].services[n].job.value.appliedAt != 0
  {
    var t := states[|labels|];
    RunKeepsInv(states, labels, timeout, |labels|);
    if t.pc.Working? && t.pc.job.serviceName == n {
      CurrentIsLocal(t);
    } else {
      assert AtRest(t.services[n], t.clock);
    }
  }
}
