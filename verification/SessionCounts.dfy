/** From session reports to a demand: classify the RUNNING tasks, add up, size, compare; and pick a drain target. */
module SessionCounts {
  import opened Domain

  /** Session counts by task, as the report store hands them out. */
  type Reports = map<TaskID, int>

  datatype TaskSessionInfo = TaskSessionInfo(
    sessionCountPerTask: seq<TaskInfo>,
    avgSessionCount: int,
    totalSessionCount: int,
    reportCoverage: real)

  datatype SizingConfig = SizingConfig(
    sessionPerTask: int,
    scaleOutUtilization: real,
    minTaskCount: int,
    maxTaskCount: int)

  function Filter(tasks: seq<TaskID>, keep: TaskID -> bool): (kept: seq<TaskID>)
    ensures forall t :: t in kept <==> t in tasks && keep(t)
    ensures |kept| <= |tasks|
    ensures |kept| == |tasks| ==> kept == tasks
  {
    if tasks == [] then []
    else
      var last := tasks[|tasks| - 1];
      var kept := Filter(tasks[..|tasks| - 1], keep);
      assert tasks == tasks[..|tasks| - 1] + [last];
      if keep(last) then kept + [last] else kept
  }

  predicate IsNormal(reports: Reports, expired: set<TaskID>, task: TaskID) {
    task in reports && task !in expired
  }

  function Normal(running: seq<TaskID>, reports: Reports, expired: set<TaskID>): seq<TaskID> {
    Filter(running, t => IsNormal(reports, expired, t))
  }

  function Expired(running: seq<TaskID>, reports: Reports, expired: set<TaskID>): seq<TaskID> {
    Filter(running, t => t in reports && t in expired)
  }

  function Missing(running: seq<TaskID>, reports: Reports): seq<TaskID> {
    Filter(running, t => t !in reports)
  }

  lemma FilterStep(tasks: seq<TaskID>, i: nat, keep: TaskID -> bool)
    requires i < |tasks|
    ensures Filter(tasks[..i + 1], keep) == Filter(tasks[..i], keep) + (if keep(tasks[i]) then [tasks[i]] else [])
  {
    assert tasks[..i + 1][..i] == tasks[..i];
  }

  /** One more RUNNING task belongs to exactly one of the three lists. */
  lemma SeparationStep(running: seq<TaskID>, i: nat, expired: set<TaskID>, reported: Reports)
    requires i < |running|
    ensures var task, before, upTo := running[i], running[..i], running[..i + 1];
            && Expired(upTo, reported, expired) == Expired(before, reported, expired)
                 + (if task in reported && task in expired then [task] else [])
            && Normal(upTo, reported, expired) == Normal(before, reported, expired)
                 + (if task in reported && task !in expired then [task] else [])
            && Missing(upTo, reported) == Missing(before, reported) + (if task !in reported then [task] else [])
  {
    FilterStep(running, i, t => IsNormal(reported, expired, t));
    FilterStep(running, i, t => t in reported && t in expired);
    FilterStep(running, i, t => t !in reported);
    hide Filter;
  }

  /** The three lists share out the RUNNING tasks: those without report, those whose report expired, and the rest. */
  lemma SeparationSharesOut(running: seq<TaskID>, reports: Reports, expired: set<TaskID>, t: TaskID)
    ensures t in Missing(running, reports) <==> t in running && t !in reports
    ensures t in Expired(running, reports, expired) <==> t in running && t in reports && t in expired
    ensures t in Normal(running, reports, expired) <==> t in running && t in reports && t !in expired
    ensures |Missing(running, reports)| + |Expired(running, reports, expired)| + |Normal(running, reports, expired)|
         == |running|
  {
    SeparationCounts(running, reports, expired);
  }

  lemma {:induction false} SeparationCounts(running: seq<TaskID>, reports: Reports, expired: set<TaskID>)
    ensures |Missing(running, reports)| + |Expired(running, reports, expired)| + |Normal(running, reports, expired)|
         == |running|
  {
    if running != [] {
      var n := |running| - 1;
      SeparationCounts(running[..n], reports, expired);
      SeparationStep(running, n, expired, reports);
      assert running[..n + 1] == running;
      hide Missing, Expired, Normal;
    } else {
      assert |Missing(running, reports)| == 0;
    }
  }

  method GetSeparatedRunningTask(running: seq<TaskID>, expiredReport: set<TaskID>, reported: Reports)
    returns (expiredTask: seq<TaskID>, normalTask: seq<TaskID>, missingTask: seq<TaskID>)
    ensures expiredTask == Expired(running, reported, expiredReport)
    ensures normalTask == Normal(running, reported, expiredReport)
    ensures missingTask == Missing(running, reported)
  {
    expiredTask, normalTask, missingTask := [], [], [];
    for i := 0 to |running|
      invariant expiredTask == Expired(running[..i], reported, expiredReport)
      invariant normalTask == Normal(running[..i], reported, expiredReport)
      invariant missingTask == Missing(running[..i], reported)
    {
      SeparationStep(running, i, expiredReport, reported);
      hide Expired, Normal, Missing;
      var task := running[i];
      if task !in reported {
        missingTask := missingTask + [task];
      } else if task in expiredReport {
        expiredTask := expiredTask + [task];
      } else {
        normalTask := normalTask + [task];
      }
    }
    assert running[..|running|] == running;
  }

  // ---- Totals ----

  function Total(reports: Reports, tasks: seq<TaskID>): int {
    if tasks == [] then 0
    else
      var last := tasks[|tasks| - 1];
      Total(reports, tasks[..|tasks| - 1]) + (if last in reports then reports[last] else 0)
  }

  /** The per-task list in the order of `tasks`, before sorting. */
  function PerTask(reports: Reports, tasks: seq<TaskID>): (infos: seq<TaskInfo>)
    ensures |infos| <= |tasks|
  {
    if tasks == [] then []
    else
      var last := tasks[|tasks| - 1];
      PerTask(reports, tasks[..|tasks| - 1]) + (if last in reports then [TaskInfo(last, reports[last])] else [])
  }

  function SumCounts(infos: seq<TaskInfo>): int {
    if infos == [] then 0 else SumCounts(infos[..|infos| - 1]) + infos[|infos| - 1].sessionCount
  }

  ghost predicate SortedByCount(infos: seq<TaskInfo>) {
    forall i, j :: 0 <= i < j < |infos| ==> infos[i].sessionCount <= infos[j].sessionCount
  }

  /** Go's integer division: towards zero. */
  function TruncDiv(a: int, b: int): int
    requires b > 0
  {
    if a >= 0 then a / b else -((-a) / b)
  }

  /** The quotient leaves a remainder smaller than the divisor, of the dividend's sign. */
  lemma TruncDivIsTowardsZero(a: int, b: int)
    requires b > 0
    ensures var rest := a - TruncDiv(a, b) * b; (a >= 0 ==> 0 <= rest < b) && (a <= 0 ==> -b < rest <= 0)
  {
    if a < 0 {
      assert -a == ((-a) / b) * b + (-a) % b;
      assert TruncDiv(a, b) * b == -(((-a) / b) * b);
    }
  }

  lemma CoverageIsTheShare(normal: int, running: int)
    requires 0 <= normal && 0 <= running
    ensures running > 0 ==> Coverage(normal, running) * running as real == normal as real
    ensures running == 0 ==> Coverage(normal, running) == 0.0
  {
  }

  function Coverage(normal: int, running: int): real
    requires 0 <= normal && 0 <= running
  {
    if running > 0 then normal as real / running as real else 0.0
  }

  /** `info` is what the evaluator may hold after adding up `tasks`: any sorted order of the per-task list will do. */
  ghost predicate IsInfoOf(info: TaskSessionInfo, reports: Reports, tasks: seq<TaskID>, running: nat) {
    && info.totalSessionCount == Total(reports, tasks)
    && SortedByCount(info.sessionCountPerTask)
    && multiset(info.sessionCountPerTask) == multiset(PerTask(reports, tasks))
    && info.avgSessionCount == (if |info.sessionCountPerTask| > 0
                                then TruncDiv(info.totalSessionCount, |info.sessionCountPerTask|) else 0)
    && info.reportCoverage == Coverage(|tasks|, running)
  }

  function InsertByCount(sorted: seq<TaskInfo>, info: TaskInfo): (r: seq<TaskInfo>)
    requires SortedByCount(sorted)
    ensures SortedByCount(r)
    ensures forall i :: 0 <= i < |r| ==> r[i] in sorted || r[i] == info
  {
    if sorted == [] || sorted[|sorted| - 1].sessionCount <= info.sessionCount then sorted + [info]
    else InsertByCount(sorted[..|sorted| - 1], info) + [sorted[|sorted| - 1]]
  }

  lemma {:induction false} InsertAddsOne(sorted: seq<TaskInfo>, info: TaskInfo)
    requires SortedByCount(sorted)
    ensures multiset(InsertByCount(sorted, info)) == multiset(sorted) + multiset{info}
  {
    if sorted != [] && sorted[|sorted| - 1].sessionCount > info.sessionCount {
      var front, last := sorted[..|sorted| - 1], sorted[|sorted| - 1];
      InsertAddsOne(front, info);
      assert sorted == front + [last];
      assert InsertByCount(sorted, info) == InsertByCount(front, info) + [last];
    }
  }

  /** Stands for the library sort: all a caller may use is that the result is a sorted permutation. */
  function SortByCount(infos: seq<TaskInfo>): (sorted: seq<TaskInfo>)
    ensures SortedByCount(sorted)
    ensures multiset(sorted) == multiset(infos)
  {
    if infos == [] then []
    else
      InsertAddsOne(SortByCount(infos[..|infos| - 1]), infos[|infos| - 1]);
      assert infos == infos[..|infos| - 1] + [infos[|infos| - 1]];
      InsertByCount(SortByCount(infos[..|infos| - 1]), infos[|infos| - 1])
  }

  lemma SameMultisetSameSize(a: seq<TaskInfo>, b: seq<TaskInfo>)
    requires multiset(a) == multiset(b)
    ensures |a| == |b|
  {
    assert |multiset(a)| == |a| && |multiset(b)| == |b|;
  }

  lemma TotalsStep(reports: Reports, tasks: seq<TaskID>, i: nat)
    requires i < |tasks|
    ensures Total(reports, tasks[..i + 1])
         == Total(reports, tasks[..i]) + (if tasks[i] in reports then reports[tasks[i]] else 0)
    ensures PerTask(reports, tasks[..i + 1])
         == PerTask(reports, tasks[..i]) + (if tasks[i] in reports then [TaskInfo(tasks[i], reports[tasks[i]])] else [])
  {
    assert tasks[..i + 1][..i] == tasks[..i];
  }

  method CalculateTotalSessionCount(reported: Reports, normalTask: seq<TaskID>, runningTask: nat)
    returns (info: TaskSessionInfo)
    ensures IsInfoOf(info, reported, normalTask, runningTask)
  {
    var totalCount := 0;
    var perTask: seq<TaskInfo> := [];
    for i := 0 to |normalTask|
      invariant totalCount == Total(reported, normalTask[..i])
      invariant perTask == PerTask(reported, normalTask[..i])
    {
      TotalsStep(reported, normalTask, i);
      var task := normalTask[i];
      if task in reported {
        totalCount := totalCount + reported[task];
        perTask := perTask + [TaskInfo(task, reported[task])];
      }
    }
    assert normalTask[..|normalTask|] == normalTask;
    var coverage := Coverage(|normalTask|, runningTask);
    var sorted := SortByCount(perTask);
    var avg := 0;
    if |sorted| > 0 {
      avg := TruncDiv(totalCount, |sorted|);
    }
    info := TaskSessionInfo(sorted, avg, totalCount, coverage);
  }

  // ---- Sizing ----

  function Ceil(x: real): int {
    -((-x).Floor)
  }

  function Clamp(n: int, lo: int, hi: int): int {
    if n < lo then lo else if n > hi then hi else n
  }

  function RequiredFor(total: int, capacity: real, minCount: int, maxCount: int): int {
    if capacity <= 0.0 then minCount else Clamp(Ceil(total as real / capacity), minCount, maxCount)
  }

  /** The sessions one task is meant to carry before a scale-out. */
  function EffectiveCapacity(sessionPerTask: int, utilization: real): real {
    sessionPerTask as real * utilization
  }

  function RequiredTaskCount(total: int, sessionPerTask: int, utilization: real, minCount: int, maxCount: int): int {
    if sessionPerTask <= 0 then minCount
    else RequiredFor(total, EffectiveCapacity(sessionPerTask, utilization), minCount, maxCount)
  }

  /** `count` tasks carry `total` sessions at the given capacity each. */
  predicate Carries(count: int, total: int, capacity: real) {
    total as real <= count as real * capacity
  }

  lemma CeilIsLeast(total: int, capacity: real)
    requires capacity > 0.0
    ensures var k := Ceil(total as real / capacity); Carries(k, total, capacity) && !Carries(k - 1, total, capacity)
  {
    var x := total as real / capacity;
    var k := Ceil(x);
    assert x * capacity == total as real;
    Scale(x, k as real, capacity);
    var j := k - 1;
    assert j as real < x;
    ScaleStrictly(j as real, x, capacity);
    assert !Carries(j, total, capacity);
  }

  lemma Scale(a: real, b: real, c: real)
    requires a <= b && c > 0.0
    ensures a * c <= b * c
  {
    assert (b - a) * c >= 0.0;
  }

  lemma ScaleStrictly(a: real, b: real, c: real)
    requires a < b && c > 0.0
    ensures a * c < b * c
  {
    assert (b - a) * c > 0.0;
  }

  /** More tasks carry what fewer carry, and fewer sessions. */
  lemma CarriesIsMonotone(fewer: int, count: int, total: int, more: int, capacity: real)
    requires fewer <= count && total <= more && capacity > 0.0
    requires Carries(fewer, more, capacity)
    ensures Carries(count, total, capacity)
  {
    Scale(fewer as real, count as real, capacity);
  }

  lemma ClampedLeast(total: int, capacity: real, lo: int, hi: int)
    requires capacity > 0.0 && lo <= hi
    ensures var r := RequiredFor(total, capacity, lo, hi);
            && lo <= r <= hi
            && (r < hi ==> Carries(r, total, capacity))
            && (r > lo ==> !Carries(r - 1, total, capacity))
  {
    CeilIsLeast(total, capacity);
    hide Carries;
    var k := Ceil(total as real / capacity);
    if k < lo {
      CarriesIsMonotone(k, lo, total, total, capacity);
    } else if k > hi && Carries(hi - 1, total, capacity) {
      CarriesIsMonotone(hi - 1, k - 1, total, total, capacity);
    }
  }

  /** The required count is the least number of tasks that carries the sessions when each takes its share of the
      capacity, clamped: within the bounds no smaller `fewer` does; at the lower bound fewer may do; at the upper bound
      it may not be enough. Without a capacity it is the lower bound; with bounds the wrong way round, one of them. */
  lemma RequiredIsLeastClamped(total: int, sessionPerTask: int, utilization: real, minCount: int, maxCount: int,
                               fewer: int)
    ensures var r := RequiredTaskCount(total, sessionPerTask, utilization, minCount, maxCount);
            && (sessionPerTask <= 0 || sessionPerTask as real * utilization <= 0.0 ==> r == minCount)
            && (sessionPerTask > 0 && sessionPerTask as real * utilization > 0.0 && minCount <= maxCount ==>
                  && minCount <= r <= maxCount
                  && (r < maxCount ==> total as real <= r as real * (sessionPerTask as real * utilization))
                  && (minCount <= fewer < r ==> total as real > fewer as real * (sessionPerTask as real * utilization)))
            && (sessionPerTask > 0 && sessionPerTask as real * utilization > 0.0 && minCount > maxCount ==>
                  r == if total as real <= (minCount - 1) as real * (sessionPerTask as real * utilization) then minCount
                       else maxCount)
  {
    var capacity := EffectiveCapacity(sessionPerTask, utilization);
    if sessionPerTask > 0 && capacity > 0.0 && minCount <= maxCount {
      ClampedLeast(total, capacity, minCount, maxCount);
      var r := RequiredTaskCount(total, sessionPerTask, utilization, minCount, maxCount);
      if minCount <= fewer < r && Carries(fewer, total, capacity) {
        CarriesIsMonotone(fewer, r - 1, total, total, capacity);
      }
    } else if sessionPerTask > 0 && capacity > 0.0 {
      CarriesFromLeast(minCount - 1, total, capacity);
    }
  }

  lemma CarriesFromLeast(count: int, total: int, capacity: real)
    requires capacity > 0.0
    ensures Carries(count, total, capacity) <==> Ceil(total as real / capacity) <= count
  {
    CeilIsLeast(total, capacity);
    var k := Ceil(total as real / capacity);
    hide Carries;
    if k <= count {
      CarriesIsMonotone(k, count, total, total, capacity);
    } else if Carries(count, total, capacity) {
      CarriesIsMonotone(count, k - 1, total, total, capacity);
    }
  }

  lemma RequiredIsMonotone(total: int, more: int, sessionPerTask: int, utilization: real, minCount: int, maxCount: int)
    requires total <= more && minCount <= maxCount
    ensures RequiredTaskCount(total, sessionPerTask, utilization, minCount, maxCount)
         <= RequiredTaskCount(more, sessionPerTask, utilization, minCount, maxCount)
  {
    var capacity := EffectiveCapacity(sessionPerTask, utilization);
    if sessionPerTask > 0 && capacity > 0.0 {
      hide Carries;
      CeilIsLeast(total, capacity);
      CeilIsLeast(more, capacity);
      var k, m := Ceil(total as real / capacity), Ceil(more as real / capacity);
      if m < k {
        CarriesIsMonotone(m, k - 1, total, more, capacity);
      }
    }
  }

  function ScalingDemand(service: string, info: TaskSessionInfo, desired: int, running: int,
                         required: int): ScalingResult
  {
    ScalingResult(service, info.totalSessionCount, desired, running, required,
                  if required > desired then ScaleOut else if required < desired then ScaleIn else Keep, false)
  }

  /** The demand derived from one observation of the service. */
  function DemandFor(service: string, info: TaskSessionInfo, ecs: ControlState, cfg: SizingConfig): ScalingResult {
    ScalingDemand(service, info, ecs.desiredCount, ecs.runningCount,
                  RequiredTaskCount(info.totalSessionCount, cfg.sessionPerTask, cfg.scaleOutUtilization,
                                    cfg.minTaskCount, cfg.maxTaskCount))
  }

  // ---- Target selection ----

  function SelectTarget(running: seq<TaskID>, reports: Reports, expired: set<TaskID>): Option<TaskInfo> {
    if running == [] then None
    else
      var best := SelectTarget(running[..|running| - 1], reports, expired);
      var task := running[|running| - 1];
      if IsNormal(reports, expired, task) && (best.None? || reports[task] < best.value.sessionCount)
      then Some(TaskInfo(task, reports[task]))
      else best
  }

  method SelectScaleInTarget(running: seq<TaskID>, reports: Reports, expired: set<TaskID>)
    returns (result: Result<TaskInfo>)
    ensures result == match SelectTarget(running, reports, expired)
                      case None => Err(NoEligibleTarget)
                      case Some(target) => Ok(target)
  {
    var target := TaskInfo("", 0);
    var found := false;
    for i := 0 to |running|
      invariant SelectTarget(running[..i], reports, expired) == if found then Some(target) else None
    {
      assert running[..i + 1][..i] == running[..i];
      var task := running[i];
      if task !in reports { continue; }
      if task in expired { continue; }
      if !found || reports[task] < target.sessionCount {
        target := TaskInfo(task, reports[task]);
        found := true;
      }
    }
    assert running[..|running|] == running;
    if !found { return Err(NoEligibleTarget); }
    result := Ok(target);
  }

  /** `target` is the first of the tasks with an unexpired report that has the least count. */
  ghost predicate IsFirstLeast(running: seq<TaskID>, reports: Reports, expired: set<TaskID>, target: TaskInfo) {
    exists k :: 0 <= k < |running| && IsFirstLeastAt(running, reports, expired, target, k)
  }

  ghost predicate IsFirstLeastAt(running: seq<TaskID>, reports: Reports, expired: set<TaskID>, target: TaskInfo, k: int)
    requires 0 <= k < |running|
  {
    && running[k] == target.taskID
    && IsNormal(reports, expired, target.taskID)
    && reports[target.taskID] == target.sessionCount
    && (forall i :: 0 <= i < |running| && IsNormal(reports, expired, running[i]) ==>
          target.sessionCount <= reports[running[i]])
    && (forall i :: 0 <= i < k && IsNormal(reports, expired, running[i]) ==>
          target.sessionCount < reports[running[i]])
  }

  /** The selected target is the first RUNNING task with an unexpired report that has the least count, and there
      is none exactly when no RUNNING task has an unexpired report. */
  lemma {:induction false} SelectionIsFirstLeast(running: seq<TaskID>, reports: Reports, expired: set<TaskID>)
    ensures var selected := SelectTarget(running, reports, expired);
            && (selected.Some? ==> IsFirstLeast(running, reports, expired, selected.value))
            && (selected.None? ==> forall t :: t in running ==> !IsNormal(reports, expired, t))
  {
    if running != [] {
      var before, task := running[..|running| - 1], running[|running| - 1];
      SelectionIsFirstLeast(before, reports, expired);
      var best := SelectTarget(before, reports, expired);
      if IsNormal(reports, expired, task) && (best.None? || reports[task] < best.value.sessionCount) {
        var k := |running| - 1;
        assert IsFirstLeastAt(running, reports, expired, TaskInfo(task, reports[task]), k);
      } else if best.Some? {
        var k :| 0 <= k < |before| && IsFirstLeastAt(before, reports, expired, best.value, k);
        assert IsFirstLeastAt(running, reports, expired, best.value, k);
      } else {
        assert running == before + [task];
      }
    }
  }
}
