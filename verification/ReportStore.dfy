/**
 * The session reports of one service: a hash of reports and an index of expiry seconds, written together.
 * Three thresholds read the index: a report counts as expired 30s after its expiry, makes its task a stop
 * candidate after 60s, and a stop candidate is rechecked against 30s before it is dropped.
 */
module ReportStore {
  import opened Domain

  const REPORT_LIFETIME: Time := 60 * SECOND
  const EXPIRES_PERIOD: int := 30
  const STOP_CANDIDATE_PERIOD: int := 60
  const STOP_GRACE: Time := 30 * SECOND

  /** Whole seconds of a time, as the expiry index keeps them. */
  function Unix(t: Time): int { t / SECOND }

  datatype StoredReport = StoredReport(sessionCount: int, reportedAt: Time)

  datatype Store = Store(reports: map<TaskID, StoredReport>, expires: map<TaskID, int>)

  const EMPTY := Store(map[], map[])

  function Saved(s: Store, task: TaskID, report: StoredReport, expiresAt: Time): Store {
    Store(s.reports[task := report], s.expires[task := Unix(expiresAt)])
  }

  function Without(s: Store, tasks: set<TaskID>): Store {
    Store(s.reports - tasks, s.expires - tasks)
  }

  /** Members whose score is at most the whole second that lies `period` seconds back. */
  function PastDue(s: Store, now: Time, period: int): set<TaskID> {
    set t | t in s.expires && s.expires[t] <= Unix(now - period * SECOND)
  }

  predicate ShouldStop(s: Store, task: TaskID, now: Time) {
    task in s.expires && s.expires[task] <= Unix(now - STOP_GRACE)
  }

  /** What one sweep over `candidates` drops. */
  function Doomed(s: Store, candidates: seq<TaskID>, now: Time): set<TaskID> {
    set t | t in candidates && ShouldStop(s, t, now)
  }

  /** The store after a sweep that handled `answered` candidates before the store stopped answering. */
  function Swept(s: Store, candidates: seq<TaskID>, answered: nat, now: Time): Store {
    Without(s, Doomed(s, if answered < |candidates| then candidates[..answered] else candidates, now))
  }

  lemma {:induction false} SweepStart(s: Store, candidates: seq<TaskID>, now: Time)
    ensures Swept(s, candidates, 0, now) == s
  {
  }

  /** Sweeping one candidate more: it is dropped if the recheck still finds it due in what is left. */
  lemma {:induction false} SweepStep(s: Store, candidates: seq<TaskID>, i: nat, now: Time)
    requires i < |candidates|
    ensures var left, task := Swept(s, candidates, i, now), candidates[i];
            Swept(s, candidates, i + 1, now) == if ShouldStop(left, task, now) then Without(left, {task}) else left
  {
    var before, task := Doomed(s, candidates[..i], now), candidates[i];
    assert candidates[..i + 1] == candidates[..i] + [task];
    assert candidates[..|candidates|] == candidates;
    assert Doomed(s, candidates[..i + 1], now) == before + (if ShouldStop(s, task, now) then {task} else {});
  }

  class Reports {
    var reports: map<TaskID, StoredReport>
    var expires: map<TaskID, int>

    function Contents(): Store
      reads this
    {
      Store(reports, expires)
    }

    constructor ()
      ensures Contents() == EMPTY
    {
      reports, expires := map[], map[];
    }

    method SaveTaskSessionReport(task: TaskID, report: StoredReport, expiresAt: Time)
      modifies this
      ensures Contents() == Saved(old(Contents()), task, report, expiresAt)
    {
      reports := reports[task := report];
      expires := expires[task := Unix(expiresAt)];
    }

    /** The use case behind the report endpoint: a report lives 60s from its arrival. */
    method PutTaskSessionReport(task: TaskID, sessionCount: int, now: Time)
      modifies this
      ensures Contents() == Reported(old(Contents()), task, sessionCount, now)
    {
      SaveTaskSessionReport(task, StoredReport(sessionCount, now), now + REPORT_LIFETIME);
    }

    /** The expired members with their scores, and the stop candidates; the candidate list starts with as many
        empty names as it has members, because it is made with a length and then appended to. */
    method GetInvalidReportTask(now: Time, expiresPeriod: int, stopCandidatePeriod: int)
      returns (expired: map<TaskID, int>, stop: seq<TaskID>)
      ensures expired.Keys == PastDue(Contents(), now, expiresPeriod)
      ensures forall t :: t in expired ==> expired[t] == expires[t]
      ensures |stop| == 2 * |PastDue(Contents(), now, stopCandidatePeriod)|
      ensures forall i :: 0 <= i < |stop| / 2 ==> stop[i] == ""
      ensures forall t :: t in stop[|stop| / 2..] <==> t in PastDue(Contents(), now, stopCandidatePeriod)
    {
      expired := map t | t in expires && expires[t] <= Unix(now - expiresPeriod * SECOND) :: expires[t];
      var left := PastDue(Contents(), now, stopCandidatePeriod);
      var n := |left|;
      stop := seq(n, i => "");
      while left != {}
        invariant left <= PastDue(Contents(), now, stopCandidatePeriod)
        invariant n == |PastDue(Contents(), now, stopCandidatePeriod)|
        invariant |stop| == 2 * n - |left| >= n
        invariant forall i :: 0 <= i < n ==> stop[i] == ""
        invariant forall t :: t in stop[n..] <==> t in PastDue(Contents(), now, stopCandidatePeriod) - left
        decreases |left|
      {
        var t :| t in left;
        left := left - {t};
        assert (stop + [t])[n..] == stop[n..] + [t];
        stop := stop + [t];
      }
    }

    method ShouldStopTask(task: TaskID, now: Time) returns (r: bool)
      ensures r == ShouldStop(Contents(), task, now)
    {
      if task !in expires { return false; }
      r := expires[task] <= Unix(now - STOP_GRACE);
    }

    method DeleteTaskSessionState(task: TaskID)
      modifies this
      ensures Contents() == Without(old(Contents()), {task})
    {
      reports := reports - {task};
      expires := expires - {task};
    }

    /** A task without a report reads as zero sessions, and expiry is not looked at. */
    method GetTaskSessionReportByTask(task: TaskID) returns (sessionCount: int)
      ensures task in reports ==> sessionCount == reports[task].sessionCount
      ensures task !in reports ==> sessionCount == 0
    {
      sessionCount := 0;
      if task in reports {
        sessionCount := reports[task].sessionCount;
      }
    }

    /** One sweep. `answered` candidates are handled before the store stops answering. */
    method StopExpiredTasks(candidates: seq<TaskID>, now: Time, answered: nat)
      modifies this
      ensures Contents() == Swept(old(Contents()), candidates, answered, now)
    {
      ghost var before := Contents();
      SweepStart(before, candidates, now);
      hide Without, Doomed, ShouldStop;
      var i := 0;
      while i < |candidates| && i < answered
        invariant 0 <= i <= |candidates| && i <= answered
        invariant Contents() == Swept(before, candidates, i, now)
      {
        SweepStep(before, candidates, i, now);
        var stop := ShouldStopTask(candidates[i], now);
        if stop {
          DeleteTaskSessionState(candidates[i]);
        }
        i := i + 1;
      }
    }
  }

  function Reported(s: Store, task: TaskID, sessionCount: int, now: Time): Store {
    Saved(s, task, StoredReport(sessionCount, now), now + REPORT_LIFETIME)
  }

  // ---- Runs ----

  /** Everything that happens to one store, at the grain of single calls. A sweep checks a task and, if the check
      said so, drops it in a later call; a completed scale-in removes its target. */
  datatype Op =
    | Report(task: TaskID, sessionCount: int, at: Time)
    | Check(task: TaskID, at: Time)
    | Drop(at: Time)
    | Remove(task: TaskID, at: Time)

  datatype World = World(store: Store, condemned: Option<TaskID>)

  function Apply(w: World, op: Op): World {
    match op
    case Report(t, n, at) => w.(store := Reported(w.store, t, n, at))
    case Check(t, at) => w.(condemned := if ShouldStop(w.store, t, at) then Some(t) else None)
    case Drop(_) =>
      if w.condemned.None? then w else World(Without(w.store, {w.condemned.value}), None)
    case Remove(t, _) => w.(store := Without(w.store, {t}))
  }

  function After(ops: seq<Op>): World {
    if ops == [] then World(EMPTY, None) else Apply(After(ops[..|ops| - 1]), ops[|ops| - 1])
  }

  /** Both indexes have the same tasks, and each score is its report's time plus 60s in whole seconds. */
  ghost predicate Agree(s: Store) {
    && s.reports.Keys == s.expires.Keys
    && forall t :: t in s.reports ==> s.expires[t] == Unix(s.reports[t].reportedAt + REPORT_LIFETIME)
  }

  lemma {:induction false} IndexesAgree(ops: seq<Op>)
    ensures Agree(After(ops).store)
  {
    if ops != [] {
      IndexesAgree(ops[..|ops| - 1]);
    }
  }

  /** Within an agreeing store, a report is expired exactly when 90 whole seconds have passed since it. */
  lemma {:induction false} ExpiredIff(s: Store, now: Time, t: TaskID)
    requires Agree(s) && t in s.reports
    ensures t in PastDue(s, now, EXPIRES_PERIOD) <==> Unix(now) - Unix(s.reports[t].reportedAt) >= 90
    ensures ShouldStop(s, t, now) <==> Unix(now) - Unix(s.reports[t].reportedAt) >= 90
    ensures t in PastDue(s, now, STOP_CANDIDATE_PERIOD) <==> Unix(now) - Unix(s.reports[t].reportedAt) >= 120
  {
    UnixShift(s.reports[t].reportedAt, 60);
    UnixShift(now, -30);
    UnixShift(now, -60);
  }

  lemma {:induction false} UnixShift(t: Time, seconds: int)
    ensures Unix(t + seconds * SECOND) == Unix(t) + seconds
  {
  }

  /** A sweep drops exactly the candidates it gets to whose report is 90 whole seconds old, from both indexes. */
  lemma {:induction false} SweepDropsIff(s: Store, candidates: seq<TaskID>, answered: nat, now: Time, t: TaskID)
    requires Agree(s)
    ensures var swept := Swept(s, candidates, answered, now);
            var due := && (exists i :: 0 <= i < |candidates| && i < answered && candidates[i] == t)
                       && t in s.reports && Unix(now) - Unix(s.reports[t].reportedAt) >= 90;
            && (t in swept.reports <==> t in s.reports && !due) && (t in swept.expires <==> t in s.expires && !due)
            && (t in swept.reports ==> swept.reports[t] == s.reports[t])
            && (t in swept.expires ==> swept.expires[t] == s.expires[t])
  {
    var handled := if answered < |candidates| then candidates[..answered] else candidates;
    assert t in handled <==> exists i :: 0 <= i < |candidates| && i < answered && candidates[i] == t;
    if t in s.reports {
      ExpiredIff(s, now, t);
    }
  }

  /** A tick reads the reports first and the expiry index in a later call. It sums the count of `t` it read after
      `early` if `t` is not expired after `early + more`. */
  ghost predicate Summed(early: seq<Op>, more: seq<Op>, checkAt: Time, t: TaskID) {
    && t in After(early).store.reports
    && t !in PastDue(After(early + more).store, checkAt, EXPIRES_PERIOD)
  }

  /** The report of `t` read after `early` is still the stored one after `early + more`. */
  ghost predicate StillStored(early: seq<Op>, more: seq<Op>, t: TaskID) {
    && t in After(early).store.reports && t in After(early + more).store.reports
    && After(early + more).store.reports[t] == After(early).store.reports[t]
  }

  /** What is summed: reports whose task has since been removed, or whose newest successor is less than 90 whole
      seconds old. */
  lemma {:induction false} SummedIff(early: seq<Op>, more: seq<Op>, checkAt: Time, t: TaskID)
    requires t in After(early).store.reports
    ensures Summed(early, more, checkAt, t) <==>
              var late := After(early + more).store.reports;
              t in late ==> Unix(checkAt) - Unix(late[t].reportedAt) < 90
  {
    IndexesAgree(early + more);
    if t in After(early + more).store.reports {
      ExpiredIff(After(early + more).store, checkAt, t);
    }
  }

  /** In every run, with anything happening to the store between the two reads: stop candidates are expired; a summed
      report that is still the stored one at the second read is less than 90s old; and one that had not expired at the
      first read is older than that by at most the time between the reads. */
  lemma {:induction false} FreshnessOverRuns(early: seq<Op>, more: seq<Op>, readAt: Time, checkAt: Time)
    ensures var s := After(early + more).store;
            && s.reports.Keys == s.expires.Keys
            && PastDue(s, checkAt, STOP_CANDIDATE_PERIOD) <= PastDue(s, checkAt, EXPIRES_PERIOD)
    ensures forall t :: Summed(early, more, checkAt, t) ==>
              var age := checkAt - After(early).store.reports[t].reportedAt;
              && (StillStored(early, more, t) ==> age < 90 * SECOND)
              && (t !in PastDue(After(early).store, readAt, EXPIRES_PERIOD) ==> age < 90 * SECOND + (checkAt - readAt))
  {
    var first, s := After(early).store, After(early + more).store;
    IndexesAgree(early);
    IndexesAgree(early + more);
    forall t | t in s.reports
      ensures t in PastDue(s, checkAt, STOP_CANDIDATE_PERIOD) ==> t in PastDue(s, checkAt, EXPIRES_PERIOD)
    {
      ExpiredIff(s, checkAt, t);
    }
    forall t | Summed(early, more, checkAt, t)
      ensures var age := checkAt - first.reports[t].reportedAt;
              && (StillStored(early, more, t) ==> age < 90 * SECOND)
              && (t !in PastDue(first, readAt, EXPIRES_PERIOD) ==> age < 90 * SECOND + (checkAt - readAt))
    {
      SummedIff(early, more, checkAt, t);
      ExpiredIff(first, readAt, t);
    }
  }

  /** The operation can replace or remove the report of `t`. */
  predicate Touches(op: Op, t: TaskID) {
    op.Drop? || ((op.Report? || op.Remove?) && op.task == t)
  }

  /** A report that nothing touches between the reads is still the stored one, so it is summed only below 90s. */
  lemma {:induction false} UntouchedReportsAreFresh(early: seq<Op>, more: seq<Op>, checkAt: Time, t: TaskID)
    requires t in After(early).store.reports
    requires forall i :: 0 <= i < |more| ==> !Touches(more[i], t)
    ensures StillStored(early, more, t)
    ensures Summed(early, more, checkAt, t) ==> checkAt - After(early).store.reports[t].reportedAt < 90 * SECOND
  {
    UntouchedReportsStay(early, more, t);
    FreshnessOverRuns(early, more, checkAt, checkAt);
  }

  lemma {:induction false} UntouchedReportsStay(early: seq<Op>, more: seq<Op>, t: TaskID)
    requires t in After(early).store.reports
    requires forall i :: 0 <= i < |more| ==> !Touches(more[i], t)
    ensures StillStored(early, more, t)
  {
    if more == [] {
      assert early + more == early;
    } else {
      UntouchedReportsStay(early, more[..|more| - 1], t);
      assert (early + more)[..|early + more| - 1] == early + more[..|more| - 1];
    }
  }

  /** A report that lands between the two reads keeps an older one in the sum: read at 95s, checked at 96s, the count
      from second 0 is summed, 96s old. */
  lemma {:induction false} ReplacedReportsCanBeSummed()
    ensures exists early: seq<Op>, more: seq<Op>, t: TaskID ::
      && Summed(early, more, 96 * SECOND, t)
      && After(early).store.reports[t] == StoredReport(7, 0)
      && (forall i :: 0 <= i < |more| ==> 95 * SECOND <= more[i].at <= 96 * SECOND)
  {
    var early, more := [Report("a", 7, 0)], [Report("a", 1, 95 * SECOND + SECOND / 2)];
    assert early[..0] == [];
    assert After(early) == World(Reported(EMPTY, "a", 7, 0), None);
    assert (early + more)[..1] == early;
    assert After(early + more).store.reports["a"].reportedAt == 95 * SECOND + SECOND / 2;
    SummedIff(early, more, 96 * SECOND, "a");
    assert Summed(early, more, 96 * SECOND, "a");
  }

  /** Because the index keeps whole seconds, the converse fails: a report 89.5s old can already be expired. */
  lemma {:induction false} YoungerThanNinetySecondsCanBeExpired()
    ensures exists s, now, t ::
      && Agree(s) && t in s.reports
      && now - s.reports[t].reportedAt < 90 * SECOND
      && t in PastDue(s, now, EXPIRES_PERIOD)
  {
    var at, now := SECOND + SECOND / 2 + SECOND / 4, 91 * SECOND + SECOND / 4;
    var s := Reported(EMPTY, "a", 1, at);
    assert Unix(at + REPORT_LIFETIME) == 61 && Unix(now - 30 * SECOND) == 61;
    assert Agree(s) && "a" in s.reports && now - s.reports["a"].reportedAt < 90 * SECOND;
    assert "a" in PastDue(s, now, EXPIRES_PERIOD);
  }

  /** The time of the last report of `t`, if it ever reported. */
  function LastReport(ops: seq<Op>, t: TaskID): Option<Time> {
    if ops == [] then None
    else
      var op := ops[|ops| - 1];
      if op.Report? && op.task == t then Some(op.at) else LastReport(ops[..|ops| - 1], t)
  }

  /** Whenever something happens after the first report of `t`, its last report is less than 90 whole seconds old. */
  ghost predicate Punctual(ops: seq<Op>, t: TaskID) {
    forall i :: 0 <= i < |ops| && LastReport(ops[..i], t).Some? ==>
      Unix(ops[i].at) - Unix(LastReport(ops[..i], t).value) < 90
  }

  /** A punctual task that no scale-in removed is never condemned or dropped by a sweep: its last report is there. */
  lemma {:induction false} PunctualTasksAreKept(ops: seq<Op>, t: TaskID)
    requires Punctual(ops, t)
    requires forall i :: 0 <= i < |ops| ==> !(ops[i].Remove? && ops[i].task == t)
    ensures After(ops).condemned != Some(t)
    ensures var last := LastReport(ops, t);
            && (last.Some? <==> t in After(ops).store.reports)
            && (last.Some? ==> After(ops).store.reports[t].reportedAt == last.value)
  {
    if ops != [] {
      var n := |ops| - 1;
      var before := ops[..n];
      forall i | 0 <= i < n && LastReport(before[..i], t).Some?
        ensures Unix(before[i].at) - Unix(LastReport(before[..i], t).value) < 90
      {
        assert before[..i] == ops[..i];
      }
      PunctualTasksAreKept(before, t);
      IndexesAgree(before);
      if t in After(before).store.reports {
        ExpiredIff(After(before).store, ops[n].at, t);
      }
    }
  }

  /** Nor is it expired at a later moment that still finds its last report less than 90 whole seconds old. */
  lemma {:induction false} PunctualTasksAreNeverExpired(ops: seq<Op>, t: TaskID, now: Time)
    requires Punctual(ops, t)
    requires forall i :: 0 <= i < |ops| ==> !(ops[i].Remove? && ops[i].task == t)
    requires LastReport(ops, t).Some? && Unix(now) - Unix(LastReport(ops, t).value) < 90
    ensures t in After(ops).store.reports && t !in PastDue(After(ops).store, now, EXPIRES_PERIOD)
  {
    PunctualTasksAreKept(ops, t);
    IndexesAgree(ops);
    ExpiredIff(After(ops).store, now, t);
  }
}
