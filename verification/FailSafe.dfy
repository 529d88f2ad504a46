/** What incomplete or stale session reports can and cannot do to a scaling decision. */
module FailSafe {
  import opened Domain
  import opened ScalingPolicy
  import opened SessionCounts

  lemma {:induction false} PartialTotalIsAtMostFull(running: seq<TaskID>, reports: Reports, expired: set<TaskID>)
    requires forall t :: t in running && t in reports ==> reports[t] >= 0
    ensures Total(reports, Normal(running, reports, expired)) <= Total(reports, running)
  {
    if running != [] {
      var before, task := running[..|running| - 1], running[|running| - 1];
      PartialTotalIsAtMostFull(before, reports, expired);
      var normal := Normal(before, reports, expired);
      assert (normal + [task])[..|normal|] == normal;
    }
  }

  /** A raise demanded on the reports that are usable is demanded by all the reports of RUNNING tasks too, and what
      the policy then writes does not exceed what they demand. */
  lemma RaiseOnPartialReportsIsJustified(service: string, running: seq<TaskID>, reports: Reports, expired: set<TaskID>,
                                         partial: TaskSessionInfo, full: TaskSessionInfo,
                                         ecs: ControlState, cfg: SizingConfig, p: PolicyState, now: Time)
    requires forall t :: t in running && t in reports ==> reports[t] >= 0
    requires cfg.minTaskCount <= cfg.maxTaskCount
    requires IsInfoOf(partial, reports, Normal(running, reports, expired), |running|)
    requires full.totalSessionCount == Total(reports, running)
    requires DemandFor(service, partial, ecs, cfg).action == ScaleOut
    ensures DemandFor(service, full, ecs, cfg).action == ScaleOut
    ensures var v := Judge(p, DemandFor(service, partial, ecs, cfg), ecs, partial.reportCoverage, now);
            v.approved ==>
              v.result.recommendedDesiredCount <= DemandFor(service, full, ecs, cfg).recommendedDesiredCount
  {
    PartialTotalIsAtMostFull(running, reports, expired);
    RequiredIsMonotone(partial.totalSessionCount, full.totalSessionCount,
                       cfg.sessionPerTask, cfg.scaleOutUtilization, cfg.minTaskCount, cfg.maxTaskCount);
  }

  lemma CoverageIsFullIff(n: nat, r: nat)
    requires n <= r
    ensures Coverage(n, r) >= 1.0 <==> r > 0 && n == r
  {
    if r > 0 {
      var c, d := Coverage(n, r), r as real;
      assert c * d == n as real;
      if c >= 1.0 {
        Scale(1.0, c, d);
      }
    }
  }

  lemma FullCoverageMeansAll(running: seq<TaskID>, reports: Reports, expired: set<TaskID>)
    ensures Coverage(|Normal(running, reports, expired)|, |running|) >= 1.0
       <==> running != [] && forall t :: t in running ==> IsNormal(reports, expired, t)
  {
    CoverageIsFullIff(|Normal(running, reports, expired)|, |running|);
    if forall t :: t in running ==> IsNormal(reports, expired, t) {
      AllKept(running, t => IsNormal(reports, expired, t));
    }
  }

  lemma {:induction false} AllKept(tasks: seq<TaskID>, keep: TaskID -> bool)
    requires forall t :: t in tasks ==> keep(t)
    ensures Filter(tasks, keep) == tasks
  {
    if tasks != [] {
      assert tasks == tasks[..|tasks| - 1] + [tasks[|tasks| - 1]];
      AllKept(tasks[..|tasks| - 1], keep);
    }
  }

  /** A scale-in is approved only when tasks are RUNNING and each of them has a report that has not expired. */
  lemma ScaleInNeedsEveryReport(running: seq<TaskID>, reports: Reports, expired: set<TaskID>, info: TaskSessionInfo,
                                demand: ScalingResult, ecs: ControlState, p: PolicyState, now: Time)
    requires IsInfoOf(info, reports, Normal(running, reports, expired), |running|)
    requires demand.action == ScaleIn
    requires Judge(p, demand, ecs, info.reportCoverage, now).approved
    ensures running != []
    ensures forall t :: t in running ==> IsNormal(reports, expired, t)
    ensures Normal(running, reports, expired) == running
  {
    ApprovalIsBounded(p, demand, ecs, info.reportCoverage, now);
    FullCoverageMeansAll(running, reports, expired);
    AllKept(running, t => IsNormal(reports, expired, t));
  }

  /** Two observations look alike to the RUNNING tasks: the same ones are usable, with the same counts. */
  ghost predicate SameWhereItMatters(running: seq<TaskID>, reports: Reports, expired: set<TaskID>,
                                     reports': Reports, expired': set<TaskID>) {
    forall t :: t in running ==>
      && (IsNormal(reports, expired, t) <==> IsNormal(reports', expired', t))
      && (IsNormal(reports, expired, t) ==> reports[t] == reports'[t])
  }

  /** Reports of tasks that are not RUNNING, and the counts inside expired reports, change neither the totals the
      decision is made from nor the task that would be drained. */
  lemma {:induction false} OrphanAndExpiredReportsAreInert(running: seq<TaskID>, reports: Reports, expired: set<TaskID>,
                                                           reports': Reports, expired': set<TaskID>)
    requires SameWhereItMatters(running, reports, expired, reports', expired')
    ensures Normal(running, reports, expired) == Normal(running, reports', expired')
    ensures Total(reports, Normal(running, reports, expired)) == Total(reports', Normal(running, reports', expired'))
    ensures PerTask(reports, Normal(running, reports, expired))
         == PerTask(reports', Normal(running, reports', expired'))
    ensures SelectTarget(running, reports, expired) == SelectTarget(running, reports', expired')
  {
    if running != [] {
      var before, task := running[..|running| - 1], running[|running| - 1];
      OrphanAndExpiredReportsAreInert(before, reports, expired, reports', expired');
      var normal := Normal(before, reports, expired);
      assert (normal + [task])[..|normal|] == normal;
    }
  }

  // ---- Evaluator and selector ----

  lemma {:induction false} PerTaskOfReported(reports: Reports, tasks: seq<TaskID>)
    requires forall t :: t in tasks ==> t in reports
    ensures |PerTask(reports, tasks)| == |tasks|
    ensures forall i :: 0 <= i < |tasks| ==> PerTask(reports, tasks)[i] == TaskInfo(tasks[i], reports[tasks[i]])
  {
    if tasks != [] {
      PerTaskOfReported(reports, tasks[..|tasks| - 1]);
    }
  }

  lemma {:induction false} SumOfPerTask(reports: Reports, tasks: seq<TaskID>)
    ensures SumCounts(PerTask(reports, tasks)) == Total(reports, tasks)
  {
    if tasks != [] {
      var before := PerTask(reports, tasks[..|tasks| - 1]);
      SumOfPerTask(reports, tasks[..|tasks| - 1]);
      if tasks[|tasks| - 1] in reports {
        assert PerTask(reports, tasks)[..|before|] == before;
      } else {
        assert PerTask(reports, tasks) == before;
      }
    }
  }

  lemma {:induction false} SumWithout(infos: seq<TaskInfo>, k: nat)
    requires k < |infos|
    ensures SumCounts(infos) == SumCounts(infos[..k] + infos[k + 1..]) + infos[k].sessionCount
  {
    var n := |infos| - 1;
    if k == n {
      assert infos[..k] + infos[k + 1..] == infos[..n];
    } else {
      SumWithout(infos[..n], k);
      var rest := infos[..k] + infos[k + 1..];
      assert rest[..|rest| - 1] == infos[..n][..k] + infos[..n][k + 1..];
    }
  }

  lemma WithoutOne(infos: seq<TaskInfo>, k: nat)
    requires k < |infos|
    ensures multiset(infos[..k] + infos[k + 1..]) == multiset(infos) - multiset{infos[k]}
  {
    assert infos == infos[..k] + [infos[k]] + infos[k + 1..];
  }

  lemma {:induction false} SumOfPermutation(a: seq<TaskInfo>, b: seq<TaskInfo>)
    requires multiset(a) == multiset(b)
    ensures SumCounts(a) == SumCounts(b)
    decreases |b|
  {
    SameMultisetSameSize(a, b);
    if b != [] {
      var last := b[|b| - 1];
      var n := |b| - 1;
      assert last in multiset(a);
      var k :| 0 <= k < |a| && a[k] == last;
      var a', b' := a[..k] + a[k + 1..], b[..n];
      WithoutOne(a, k);
      WithoutOne(b, n);
      assert b[..n] + b[n + 1..] == b';
      SumWithout(a, k);
      SumOfPermutation(a', b');
    }
  }

  lemma {:induction false} SumAtLeast(infos: seq<TaskInfo>, least: int)
    requires forall i :: 0 <= i < |infos| ==> least <= infos[i].sessionCount
    ensures |infos| * least <= SumCounts(infos)
  {
    if infos != [] {
      SumAtLeast(infos[..|infos| - 1], least);
      assert |infos| * least == (|infos| - 1) * least + least;
    }
  }

  lemma MulCancel(n: int, a: int, b: int)
    requires n > 0 && n * a < n * b
    ensures a < b
  {
    assert n * (b - a) > 0;
  }

  lemma AverageAtLeast(sum: int, n: int, least: int)
    requires n > 0 && n * least <= sum
    ensures least <= TruncDiv(sum, n)
  {
    var q := TruncDiv(sum, n);
    assert sum < n * q + n by {
      if sum < 0 {
        assert n * q == -(n * ((-sum) / n));
      }
    }
    assert n * (q + 1) == n * q + n;
    MulCancel(n, least, q + 1);
  }

  /** When every RUNNING task has an unexpired report, the selected task heads the sorted list. */
  lemma SelectionHeadsList(running: seq<TaskID>, reports: Reports, expired: set<TaskID>, sorted: seq<TaskInfo>)
    requires running != [] && forall t :: t in running ==> IsNormal(reports, expired, t)
    requires SortedByCount(sorted) && multiset(sorted) == multiset(PerTask(reports, running))
    ensures |sorted| == |running|
    ensures var selected := SelectTarget(running, reports, expired);
            && selected.Some?
            && IsFirstLeast(running, reports, expired, selected.value)
            && selected.value.sessionCount == sorted[0].sessionCount
  {
    var listed := PerTask(reports, running);
    SelectionIsFirstLeast(running, reports, expired);
    PerTaskOfReported(reports, running);
    SameMultisetSameSize(sorted, listed);
    assert running[0] in running;
    var target := SelectTarget(running, reports, expired).value;
    var k :| 0 <= k < |running| && IsFirstLeastAt(running, reports, expired, target, k);
    assert listed[k] in multiset(sorted);
    assert sorted[0] in multiset(listed);
  }

  /** The head of a sorted list is at most its truncated average. */
  lemma HeadAtMostAverage(sorted: seq<TaskInfo>)
    requires sorted != [] && SortedByCount(sorted)
    ensures sorted[0].sessionCount <= TruncDiv(SumCounts(sorted), |sorted|)
  {
    SumAtLeast(sorted, sorted[0].sessionCount);
    AverageAtLeast(SumCounts(sorted), |sorted|, sorted[0].sessionCount);
  }

  /** On the data that got a scale-in approved, the drain-target selection succeeds: it takes the first RUNNING task
      of least count, which heads the evaluator's sorted list and is at most the evaluator's average; that list adds
      up to the evaluator's total. */
  lemma EvaluatorAndSelectorAgree(running: seq<TaskID>, reports: Reports, expired: set<TaskID>, info: TaskSessionInfo,
                                  demand: ScalingResult, ecs: ControlState, p: PolicyState, now: Time)
    requires IsInfoOf(info, reports, Normal(running, reports, expired), |running|)
    requires demand.action == ScaleIn
    requires Judge(p, demand, ecs, info.reportCoverage, now).approved
    ensures var selected := SelectTarget(running, reports, expired);
            && selected.Some?
            && IsFirstLeast(running, reports, expired, selected.value)
            && |info.sessionCountPerTask| == |running| > 0
            && SumCounts(info.sessionCountPerTask) == info.totalSessionCount
            && selected.value.sessionCount == info.sessionCountPerTask[0].sessionCount <= info.avgSessionCount
  {
    ScaleInNeedsEveryReport(running, reports, expired, info, demand, ecs, p, now);
    SelectionHeadsList(running, reports, expired, info.sessionCountPerTask);
    SumOfPerTask(reports, running);
    SumOfPermutation(info.sessionCountPerTask, PerTask(reports, running));
    HeadAtMostAverage(info.sessionCountPerTask);
  }
}
