/**
 * Progress under constant demand: when ticks do not interrupt each other, calls succeed and drained tasks report no
 * sessions, the desired count reaches the required one after a bounded number of rounds, and stays there.
 */
module Progress {
  import opened Domain
  import opened ScalingPolicy
  import opened SessionCounts
  import opened Protocol
  import opened ProtocolSafety
  import opened FailSafe
  import opened ScaleInJobs
  import opened UndisturbedTick
  import opened Evaluation
  import opened Convergence
  import opened Passes

  /** What there is of one service between two rounds. */
  datatype Standing = Standing(policy: PolicyState, entry: Option<ScaleInJob>, desired: int)

  /** One round: a tick of the evaluation scheduler, then one of the scale-in scheduler. */
  datatype Round = Round(evalAt: Time, eval: EvalAnswers, passAt: Time, pass: JobAnswers)

  /** The standing after `EvaluateAndScale`. */
  function Ticked(x: Standing, service: string, round: Round, cfg: SizingConfig): Standing {
    var e := Evaluate(x.policy, x.entry, service, round.eval, cfg, round.evalAt);
    Standing(e.policy, e.entry, if e.asked.Some? && round.eval.updates then e.asked.value else x.desired)
  }

  /** The standing after `Process`. */
  function Passed(x: Standing, round: Round, timeout: Time): Standing {
    if x.entry.None? || !IsActive(x.entry.value.status) then x
    else
      var r := Processed(x.entry, x.policy, x.entry.value, round.pass, timeout, round.passAt);
      Standing(r.policy, r.entry, LoweredTo(x.desired, r.calls, round.pass.updates))
  }

  function AfterRound(x: Standing, service: string, round: Round, cfg: SizingConfig, timeout: Time): Standing {
    Passed(Ticked(x, service, round, cfg), round, timeout)
  }

  /** ECS has settled at the desired count, every RUNNING task reports, and the sessions require `r` tasks. */
  ghost predicate EvalCooperates(a: EvalAnswers, desired: int, r: int, cfg: SizingConfig) {
    && a.ecsServiceName.Some? && AllRead(a) && a.updates
    && a.control.value == ControlState(desired, desired, 0)
    && a.running.value != []
    && (forall t :: t in a.running.value ==> IsNormal(a.reports.value, a.expired.value, t))
    && Required(Total(a.reports.value, a.running.value), cfg) == r
  }

  /** Every call for the job succeeds; there is a task to drain, which reports no sessions and is STOPPED in the end. */
  ghost predicate PassCooperates(a: JobAnswers) {
    && a.running.Some? && a.reports.Some? && a.expired.Some? && "" !in a.running.value
    && (exists t :: t in a.running.value && IsNormal(a.reports.value, a.expired.value, t))
    && a.protects && a.drains && a.sessions.Some? && a.sessions.value <= 0 && a.updates
    && a.control.Some? && a.control.value.pendingCount <= 0
    && a.control.value.runningCount == a.control.value.desiredCount
    && a.taskStatus == Some("STOPPED") && a.deletes && a.remaining.Some? && a.releases
  }

  predicate Unapplied(entry: Option<ScaleInJob>) {
    entry.Some? && (entry.value.status.Requested? || entry.value.status.Draining?)
  }

  predicate IsApplied(entry: Option<ScaleInJob>) {
    entry.Some? && entry.value.status.Applied?
  }

  /** What every run keeps under constant demand: a job that has not lowered the count is to take it down by one, or to
      write it once more, and not below `r`. */
  ghost predicate InOrder(x: Standing, r: int) {
    && x.policy.outStreak >= 0 && x.policy.inStreak >= 0
    && (Unapplied(x.entry) ==>
          var job := x.entry.value;
          && r <= job.targetDesiredCount && x.desired - 1 <= job.targetDesiredCount <= x.desired
          && (job.status.Requested? ==> job.targetTaskID == "" && job.zeroSessionStreak == 0)
          && (job.status.Draining? ==> 0 <= job.zeroSessionStreak <= 2))
  }

  // ---- One tick ----

  lemma FullReports(a: EvalAnswers, desired: int, r: int, cfg: SizingConfig)
    requires EvalCooperates(a, desired, r, cfg)
    ensures UsableTasks(a) == a.running.value && Required(ObservedTotal(a), cfg) == r
    ensures Coverage(|UsableTasks(a)|, |a.running.value|) >= 1.0
  {
    FullCoverageMeansAll(a.running.value, a.reports.value, a.expired.value);
    AllKept(a.running.value, t => IsNormal(a.reports.value, a.expired.value, t));
  }

  lemma RaisingTick(x: Standing, service: string, round: Round, cfg: SizingConfig, r: int)
    requires EvalCooperates(round.eval, x.desired, r, cfg) && x.desired < r <= 10
    ensures var y, p, now := Ticked(x, service, round, cfg), x.policy, round.evalAt;
            y == if Cooling(p.lastOut, 30 * SECOND, now) || p.outStreak < 2
                 then x.(policy := p.(outStreak := p.outStreak + 1, inStreak := 0))
                 else x.(policy := p.(outStreak := 0, inStreak := 0, lastOut := now), desired := Min(x.desired + 2, r))
  {
    FullReports(round.eval, x.desired, r, cfg);
    hide ObservedTotal, UsableTasks, Required;
  }

  /** Whether a scale-in cooldown runs at `now`. */
  predicate CoolsIn(p: PolicyState, now: Time) {
    Cooling(p.lastOut, 60 * SECOND, now) || Cooling(p.lastIn, 60 * SECOND, now)
  }

  lemma LoweringTick(x: Standing, service: string, round: Round, cfg: SizingConfig, r: int)
    requires EvalCooperates(round.eval, x.desired, r, cfg) && 1 <= r < x.desired
    ensures var y, p := Ticked(x, service, round, cfg), x.policy;
            && y.desired == x.desired
            && y.policy == (if CoolsIn(p, round.evalAt) || p.inStreak >= 4 then p.(outStreak := 0, inStreak := 0)
                            else p.(outStreak := 0, inStreak := p.inStreak + 1))
            && (if CoolsIn(p, round.evalAt) || p.inStreak < 4 || (x.entry.Some? && IsActive(x.entry.value.status))
                then y.entry == x.entry
                else
                  && y.entry.Some? && y.entry.value.status.Requested? && y.entry.value.targetTaskID == ""
                  && y.entry.value.zeroSessionStreak == 0 && y.entry.value.targetDesiredCount == x.desired - 1)
  {
    FullReports(round.eval, x.desired, r, cfg);
    hide ObservedTotal, UsableTasks, Required;
  }

  lemma KeepingTick(x: Standing, service: string, round: Round, cfg: SizingConfig, r: int)
    requires EvalCooperates(round.eval, x.desired, r, cfg) && x.desired == r
    ensures Ticked(x, service, round, cfg) == x.(policy := x.policy.(outStreak := 0, inStreak := 0))
  {
    FullReports(round.eval, x.desired, r, cfg);
    hide ObservedTotal, UsableTasks, Required;
  }

  /** One pass over the job: it starts to drain, counts one more zero, lowers the count at the third, or ends. */
  lemma PassMoves(x: Standing, round: Round, timeout: Time, r: int)
    requires PassCooperates(round.pass) && InOrder(x, r)
    ensures var y := Passed(x, round, timeout);
            && (!Unapplied(x.entry) ==>
                  y.desired == x.desired && y.policy == x.policy && !Unapplied(y.entry) && !IsApplied(y.entry))
            && (Unapplied(x.entry) ==>
                  var job := x.entry.value;
                  if job.status.Draining? && job.zeroSessionStreak == 2
                  then
                    && y.desired == job.targetDesiredCount
                    && y.policy == x.policy.(lastIn := round.passAt) && IsApplied(y.entry)
                  else
                    && y.desired == x.desired && y.policy == x.policy && InOrder(y, r)
                    && y.entry.Some? && y.entry.value.status.Draining?
                    && y.entry.value.targetDesiredCount == job.targetDesiredCount
                    && y.entry.value.zeroSessionStreak
                         == (if job.status.Requested? then 0 else job.zeroSessionStreak + 1))
  {
    if x.entry.Some? && x.entry.value.status.Requested? {
      var a := round.pass;
      SelectionIsFirstLeast(a.running.value, a.reports.value, a.expired.value);
      hide SelectTarget, Survivors;
    }
  }

  // ---- How long the next write can take ----

  /** The rounds, `interval` apart, that a cooldown can still block. */
  function WaitRounds(last: Time, cooldown: Time, now: Time, interval: Time): nat
    requires interval > 0
  {
    if Cooling(last, cooldown, now) then (last + cooldown - now) / interval + 1 else 0
  }

  lemma WaitShrinks(last: Time, cooldown: Time, now: Time, later: Time, interval: Time)
    requires interval > 0 && later >= now + interval
    ensures WaitRounds(last, cooldown, later, interval) < Max(WaitRounds(last, cooldown, now, interval), 1)
  {
    if Cooling(last, cooldown, later) {
      var left := last + cooldown - now;
      DivShrinks(left, last + cooldown - later, interval);
    }
  }

  lemma DivShrinks(more: int, less: int, d: int)
    requires d > 0 && 0 <= less <= more - d
    ensures less / d + 1 <= more / d
  {
    var q := less / d;
    assert (q + 1) * d == q * d + d <= more;
    DivAtLeast(more, q + 1, d);
  }

  lemma DivAtLeast(a: int, q: int, d: int)
    requires d > 0 && q * d <= a
    ensures q <= a / d
  {
    assert d * q < d * (a / d + 1);
    MulCancel(d, q, a / d + 1);
  }

  lemma WaitIsBounded(last: Time, cooldown: Time, now: Time, interval: Time)
    requires interval > 0 && last <= now && cooldown >= 0
    ensures WaitRounds(last, cooldown, now, interval) <= cooldown / interval + 1
  {
    if Cooling(last, cooldown, now) {
      var left := last + cooldown - now;
      assert (left / interval) * interval <= left <= cooldown;
      DivAtLeast(cooldown, left / interval, interval);
    }
  }

  /** How long both scale-in cooldowns can block. */
  function WaitIn(lastOut: Time, lastIn: Time, now: Time, interval: Time): nat
    requires interval > 0
  {
    Max(WaitRounds(lastOut, 60 * SECOND, now, interval), WaitRounds(lastIn, 60 * SECOND, now, interval))
  }

  lemma WaitInShrinks(p: PolicyState, now: Time, later: Time, interval: Time)
    requires interval > 0 && later >= now + interval && CoolsIn(p, later)
    ensures CoolsIn(p, now) && WaitIn(p.lastOut, p.lastIn, later, interval) < WaitIn(p.lastOut, p.lastIn, now, interval)
  {
    WaitShrinks(p.lastOut, 60 * SECOND, now, later, interval);
    WaitShrinks(p.lastIn, 60 * SECOND, now, later, interval);
  }

  /** A bound on the rounds until the next write that gets closer, if the next tick is not before `now`: below `r`, the
      third evaluation or the cooldown; above it, the rest of the drain, or a cooldown, five evaluations and a drain,
      and once more five if an approval can meet a job that is still APPLIED. A job whose write is idle comes first. */
  function Patience(x: Standing, now: Time, interval: Time, r: int): nat
    requires interval > 0
  {
    if x.desired == r then 0
    else if x.desired < r then
      Max(Max(3 - x.policy.outStreak, 1), WaitRounds(x.policy.lastOut, 30 * SECOND, now, interval) + 1)
    else if Unapplied(x.entry) then
      DrainLeft(x.entry.value) + (if IsIdle(x) then PatienceBound(interval) else 0)
    else
      4 + (if CoolsIn(x.policy, now) then WaitIn(x.policy.lastOut, x.policy.lastIn, now, interval) + 5
           else 5 - Max(0, Min(x.policy.inStreak, 4)))
        + (if IsApplied(x.entry) then 5 else 0)
  }

  /** The passes until a job that has not lowered the count does so. */
  function DrainLeft(job: ScaleInJob): nat {
    if job.status.Requested? then 4 else Max(3 - job.zeroSessionStreak, 1)
  }

  /** The stored job is to write the count that is there. */
  predicate IsIdle(x: Standing) {
    Unapplied(x.entry) && x.entry.value.targetDesiredCount == x.desired
  }

  function PatienceBound(interval: Time): nat
    requires interval > 0
  {
    (60 * SECOND) / interval + 15
  }

  /** Enough rounds from `x`: for each write to make, and once more, the longest wait for a write, and the drain of a
      job whose write is idle. */
  function RoundsToSettle(x: Standing, r: int, interval: Time): nat
    requires interval > 0
  {
    (WritesAway(x.desired, r) + 1) * PatienceBound(interval) + (if IsIdle(x) then 4 else 0)
  }

  /** The last executions are not after `now`. */
  predicate InTime(x: Standing, now: Time) {
    x.policy.lastOut <= now && x.policy.lastIn <= now
  }

  lemma PatienceIsBounded(x: Standing, now: Time, interval: Time, r: int)
    requires interval > 0 && InTime(x, now) && InOrder(x, r)
    ensures Patience(x, now, interval, r) <= PatienceBound(interval) + (if IsIdle(x) then 4 else 0)
    ensures x.desired != r ==> Patience(x, now, interval, r) >= 1
  {
    WaitIsBounded(x.policy.lastOut, 30 * SECOND, now, interval);
    WaitIsBounded(x.policy.lastOut, 60 * SECOND, now, interval);
    WaitIsBounded(x.policy.lastIn, 60 * SECOND, now, interval);
    assert (30 * SECOND / interval) * interval <= 60 * SECOND;
    DivAtLeast(60 * SECOND, 30 * SECOND / interval, interval);
  }

  // ---- One round ----

  /** One round closer: a write that approaches `r`, or more of what the next one waits for; at `r`, nothing. */
  ghost predicate ComesCloser(x: Standing, now: Time, y: Standing, later: Time, interval: Time, r: int)
    requires interval > 0
  {
    && InOrder(y, r) && InTime(y, later)
    && (if x.desired == r then y.desired == r
        else if y.desired == x.desired then Patience(y, later, interval, r) < Patience(x, now, interval, r)
        else WritesAway(y.desired, r) < WritesAway(x.desired, r) && !Unapplied(y.entry))
  }

  /** When the round comes, and when the next one may. */
  predicate Spaced(now: Time, round: Round, later: Time, interval: Time) {
    0 < now <= round.evalAt <= round.passAt <= later && round.evalAt + interval <= later
  }

  lemma RaisingRound(x: Standing, service: string, round: Round, cfg: SizingConfig, timeout: Time, r: int,
                     now: Time, later: Time, interval: Time)
    requires interval > 0 && Spaced(now, round, later, interval) && InOrder(x, r) && InTime(x, now)
    requires EvalCooperates(round.eval, x.desired, r, cfg) && PassCooperates(round.pass) && x.desired < r <= 10
    ensures ComesCloser(x, now, AfterRound(x, service, round, cfg, timeout), later, interval, r)
  {
    var y := Ticked(x, service, round, cfg);
    RaisingTick(x, service, round, cfg, r);
    PassMoves(y, round, timeout, r);
    WaitShrinks(x.policy.lastOut, 30 * SECOND, now, later, interval);
    hide Ticked, Passed, EvalCooperates, PassCooperates, WaitRounds;
  }

  /** A job is on its way to lower the count. */
  lemma DrainingRound(x: Standing, service: string, round: Round, cfg: SizingConfig, timeout: Time, r: int,
                      now: Time, later: Time, interval: Time)
    requires interval > 0 && Spaced(now, round, later, interval) && InOrder(x, r) && InTime(x, now)
    requires EvalCooperates(round.eval, x.desired, r, cfg) && PassCooperates(round.pass) && 1 <= r < x.desired
    requires Unapplied(x.entry)
    ensures ComesCloser(x, now, AfterRound(x, service, round, cfg, timeout), later, interval, r)
  {
    LoweringTick(x, service, round, cfg, r);
    PassMoves(Ticked(x, service, round, cfg), round, timeout, r);
    hide Ticked, Passed, EvalCooperates, PassCooperates, WaitIn, WaitRounds;
    var y := AfterRound(x, service, round, cfg, timeout);
    if IsIdle(x) && !Unapplied(y.entry) {
      PatienceIsBounded(y, later, interval, r);
      hide WritesAway;
    }
  }

  /** The next job is still to be requested. */
  lemma WaitingRound(x: Standing, service: string, round: Round, cfg: SizingConfig, timeout: Time, r: int,
                     now: Time, later: Time, interval: Time)
    requires interval > 0 && Spaced(now, round, later, interval) && InOrder(x, r) && InTime(x, now)
    requires EvalCooperates(round.eval, x.desired, r, cfg) && PassCooperates(round.pass) && 1 <= r < x.desired
    requires !Unapplied(x.entry)
    ensures ComesCloser(x, now, AfterRound(x, service, round, cfg, timeout), later, interval, r)
  {
    LoweringTick(x, service, round, cfg, r);
    PassMoves(Ticked(x, service, round, cfg), round, timeout, r);
    if CoolsIn(x.policy, later) {
      WaitInShrinks(x.policy, now, later, interval);
    }
    hide Ticked, Passed, EvalCooperates, PassCooperates, WaitIn, WaitRounds, WritesAway;
  }

  lemma KeepingRound(x: Standing, service: string, round: Round, cfg: SizingConfig, timeout: Time, r: int,
                     now: Time, later: Time, interval: Time)
    requires interval > 0 && Spaced(now, round, later, interval) && InOrder(x, r) && InTime(x, now)
    requires EvalCooperates(round.eval, x.desired, r, cfg) && PassCooperates(round.pass) && x.desired == r
    ensures ComesCloser(x, now, AfterRound(x, service, round, cfg, timeout), later, interval, r)
  {
    KeepingTick(x, service, round, cfg, r);
    PassMoves(Ticked(x, service, round, cfg), round, timeout, r);
    hide Ticked, Passed, EvalCooperates, PassCooperates;
  }

  lemma RoundComesCloser(x: Standing, service: string, round: Round, cfg: SizingConfig, timeout: Time, r: int,
                         now: Time, later: Time, interval: Time)
    requires interval > 0 && Spaced(now, round, later, interval) && InOrder(x, r) && InTime(x, now)
    requires EvalCooperates(round.eval, x.desired, r, cfg) && PassCooperates(round.pass) && 1 <= r <= 10
    ensures ComesCloser(x, now, AfterRound(x, service, round, cfg, timeout), later, interval, r)
  {
    hide ComesCloser, AfterRound, EvalCooperates, PassCooperates;
    if x.desired < r {
      RaisingRound(x, service, round, cfg, timeout, r, now, later, interval);
    } else if x.desired > r {
      if Unapplied(x.entry) {
        DrainingRound(x, service, round, cfg, timeout, r, now, later, interval);
      } else {
        WaitingRound(x, service, round, cfg, timeout, r, now, later, interval);
      }
    } else {
      KeepingRound(x, service, round, cfg, timeout, r, now, later, interval);
    }
  }

  // ---- Many rounds ----

  function AfterRounds(x: Standing, service: string, rounds: seq<Round>, cfg: SizingConfig, timeout: Time): Standing
    decreases |rounds|
  {
    if rounds == [] then x
    else AfterRounds(AfterRound(x, service, rounds[0], cfg, timeout), service, rounds[1..], cfg, timeout)
  }

  /** The earliest time of the round after `round`. */
  function NextAt(round: Round, interval: Time): Time {
    Max(round.evalAt + interval, round.passAt)
  }

  /** Rounds from `now` on, their ticks in order and at least `interval` apart, each finding ECS settled, full reports
      that require `r` tasks, and calls that succeed. */
  ghost predicate Cooperative(x: Standing, service: string, rounds: seq<Round>, cfg: SizingConfig, timeout: Time,
                              r: int, now: Time, interval: Time)
    decreases |rounds|
  {
    rounds == [] ||
    (var round, y := rounds[0], AfterRound(x, service, rounds[0], cfg, timeout);
     && Spaced(now, round, NextAt(round, interval), interval)
     && EvalCooperates(round.eval, x.desired, r, cfg) && PassCooperates(round.pass)
     && Cooperative(y, service, rounds[1..], cfg, timeout, r, NextAt(round, interval), interval))
  }

  /** Rounds left in the worst case. */
  function RoundsLeft(x: Standing, now: Time, interval: Time, r: int): nat
    requires interval > 0
  {
    WritesAway(x.desired, r) * PatienceBound(interval) + Patience(x, now, interval, r)
  }

  lemma {:induction false} TimesGrows(fewer: nat, more: nat, bound: nat)
    requires fewer <= more
    ensures fewer * bound <= more * bound
    decreases more - fewer
  {
    if fewer < more {
      OneMoreTime(fewer, bound);
      TimesGrows(fewer + 1, more, bound);
    }
  }

  lemma OneMoreTime(n: nat, bound: nat)
    ensures (n + 1) * bound == n * bound + bound
  {
  }

  lemma FewerWritesAreLess(fewer: nat, more: nat, bound: nat, left: nat)
    requires fewer < more && left <= bound
    ensures fewer * bound + left <= more * bound
  {
    OneMoreTime(fewer, bound);
    TimesGrows(fewer + 1, more, bound);
  }

  lemma CloserIsLess(x: Standing, now: Time, y: Standing, later: Time, interval: Time, r: int)
    requires interval > 0 && InOrder(x, r) && InTime(x, now) && ComesCloser(x, now, y, later, interval, r)
    ensures RoundsLeft(y, later, interval, r) < Max(RoundsLeft(x, now, interval, r), 1)
  {
    PatienceIsBounded(x, now, interval, r);
    PatienceIsBounded(y, later, interval, r);
    if x.desired == r {
      assert RoundsLeft(y, later, interval, r) == 0;
    } else if y.desired != x.desired {
      FewerWritesAreLess(WritesAway(y.desired, r), WritesAway(x.desired, r), PatienceBound(interval),
                         Patience(y, later, interval, r));
      hide WritesAway, Patience, PatienceBound;
    } else {
      hide WritesAway, Patience, PatienceBound;
    }
  }

  lemma {:induction false} EnoughRoundsSettle(x: Standing, service: string, rounds: seq<Round>, cfg: SizingConfig,
                                              timeout: Time, r: int, now: Time, interval: Time)
    requires interval > 0 && now > 0 && InOrder(x, r) && InTime(x, now) && 1 <= r <= 10
    requires Cooperative(x, service, rounds, cfg, timeout, r, now, interval)
    requires |rounds| >= RoundsLeft(x, now, interval, r)
    ensures AfterRounds(x, service, rounds, cfg, timeout).desired == r
    decreases |rounds|
  {
    hide AfterRound, ComesCloser, Patience, EvalCooperates, PassCooperates, WritesAway;
    if rounds == [] {
      PatienceIsBounded(x, now, interval, r);
    } else {
      var y, later := AfterRound(x, service, rounds[0], cfg, timeout), NextAt(rounds[0], interval);
      RoundComesCloser(x, service, rounds[0], cfg, timeout, r, now, later, interval);
      CloserIsLess(x, now, y, later, interval, r);
      CloserIsInOrder(x, now, y, later, interval, r);
      EnoughRoundsSettle(y, service, rounds[1..], cfg, timeout, r, later, interval);
    }
  }

  lemma CloserIsInOrder(x: Standing, now: Time, y: Standing, later: Time, interval: Time, r: int)
    requires interval > 0 && ComesCloser(x, now, y, later, interval, r)
    ensures InOrder(y, r) && InTime(y, later)
  {
  }

  lemma RoundsLeftAreEnough(x: Standing, now: Time, interval: Time, r: int)
    requires interval > 0 && InOrder(x, r) && InTime(x, now)
    ensures RoundsLeft(x, now, interval, r) <= RoundsToSettle(x, r, interval)
  {
    PatienceIsBounded(x, now, interval, r);
    OneMoreTime(WritesAway(x.desired, r), PatienceBound(interval));
  }

  /** The loop settles: after as many rounds as there are writes to make, and one, times the longest wait for a write,
      and four if a job is to write the count that is there, the desired count is the required one, whatever the
      rounds' reports, tasks and times are. */
  lemma TheLoopSettles(x: Standing, service: string, rounds: seq<Round>, cfg: SizingConfig, timeout: Time, r: int,
                       now: Time, interval: Time)
    requires interval > 0 && now > 0 && InOrder(x, r) && InTime(x, now) && 1 <= r <= 10
    requires Cooperative(x, service, rounds, cfg, timeout, r, now, interval)
    requires |rounds| >= RoundsToSettle(x, r, interval)
    ensures AfterRounds(x, service, rounds, cfg, timeout).desired == r
  {
    RoundsLeftAreEnough(x, now, interval, r);
    hide *;
    EnoughRoundsSettle(x, service, rounds, cfg, timeout, r, now, interval);
  }

  // ---- Rounds in the protocol ----

  function StandingOf(v: Service): Standing {
    Standing(v.policy, v.job, v.desired)
  }

  /** Nobody is mid-way, and jobs are stored under their service's name. */
  ghost predicate BetweenRounds(s: State, n: string) {
    s.pc.Idle? && Named(s) && n in s.services && s.services[n].eval.EvalIdle?
  }

  /** The tick may take place in `s`: the reads succeed, and ECS reports the count it holds. */
  predicate Finds(s: State, n: string, a: EvalAnswers)
    requires n in s.services
  {
    && AllRead(a) && a.ecsServiceName == Some(s.services[n].ecsService)
    && a.control.value.desiredCount == s.services[n].desired
  }

  lemma TickIsARun(s: State, n: string, round: Round, cfg: SizingConfig, timeout: Time) returns (t: State)
    requires BetweenRounds(s, n) && Finds(s, n, round.eval) && s.clock == round.evalAt
    ensures Leads(s, TickLabels(s, n, round.eval, cfg), timeout, t) && BetweenRounds(t, n) && t.clock == s.clock
    ensures AllCalm(TickLabels(s, n, round.eval, cfg), n, Required(ObservedTotal(round.eval), cfg))
    ensures t.services[n].ecsService == s.services[n].ecsService
    ensures StandingOf(t.services[n]) == Ticked(StandingOf(s.services[n]), n, round, cfg)
  {
    var ans := round.eval;
    t := UninterruptedTickIsTheUseCase(s, n, ans, cfg, timeout);
    RequestsAreNamed(s.services[n].policy, s.services[n].job, n, ans, cfg, s.clock);
    hide Leads, Evaluate, Judged, Required, ObservedTotal;
  }

  lemma RequestsAreNamed(p: PolicyState, entry: Option<ScaleInJob>, n: string, ans: EvalAnswers, cfg: SizingConfig,
                         now: Time)
    ensures var after := Evaluate(p, entry, n, ans, cfg, now).entry;
            after == entry || (after.Some? && after.value.serviceName == n)
  {
    RequestsIff(p, entry, n, ans, cfg, now);
    hide Evaluate;
  }

  lemma PassIsARun(s: State, n: string, round: Round, timeout: Time) returns (labels: seq<Label>, t: State)
    requires BetweenRounds(s, n) && s.clock == round.passAt
    ensures Leads(s, labels, timeout, t) && AllPassing(labels) && BetweenRounds(t, n) && t.clock == s.clock
    ensures t.services[n].ecsService == s.services[n].ecsService
    ensures StandingOf(t.services[n]) == Passed(StandingOf(s.services[n]), round, timeout)
  {
    hide Processed;
    if s.services[n].job.Some? && IsActive(s.services[n].job.value.status) {
      labels, t := OnePass(s, n, round.pass, timeout);
    } else {
      labels, t := [], s;
    }
  }

  lemma WaitIsARun(s: State, n: string, clock: Time, timeout: Time) returns (t: State)
    requires BetweenRounds(s, n) && s.clock <= clock
    ensures Leads(s, [Wait(clock)], timeout, t) && BetweenRounds(t, n) && t == s.(clock := clock)
  {
    LeadsOne(s, Wait(clock), timeout);
    t := s.(clock := clock);
  }

  /** The steps of a round: those of the tick at its time, and `pass` at the time of the pass. */
  ghost function RoundLabels(s: State, n: string, round: Round, cfg: SizingConfig, pass: seq<Label>): seq<Label>
    requires n in s.services && AllRead(round.eval)
  {
    [Wait(round.evalAt)] + TickLabels(s.(clock := round.evalAt), n, round.eval, cfg) + [Wait(round.passAt)] + pass
  }

  /** A round is a run of the protocol: the tick's steps, and then those of a pass that takes the job of `n`. */
  lemma RoundIsARun(s: State, n: string, round: Round, cfg: SizingConfig, timeout: Time)
    returns (pass: seq<Label>, t: State)
    requires BetweenRounds(s, n) && Finds(s, n, round.eval) && s.clock <= round.evalAt <= round.passAt
    ensures AllPassing(pass)
    ensures AllCalm(RoundLabels(s, n, round, cfg, pass), n, Required(ObservedTotal(round.eval), cfg))
    ensures Leads(s, RoundLabels(s, n, round, cfg, pass), timeout, t) && BetweenRounds(t, n) && t.clock == round.passAt
    ensures t.services[n].ecsService == s.services[n].ecsService
    ensures StandingOf(t.services[n]) == AfterRound(StandingOf(s.services[n]), n, round, cfg, timeout)
  {
    hide Leads, Ticked, Passed, TickLabels, Required, ObservedTotal;
    var a := WaitIsARun(s, n, round.evalAt, timeout);
    var tick := TickLabels(a, n, round.eval, cfg);
    var b := TickIsARun(a, n, round, cfg, timeout);
    var c := WaitIsARun(b, n, round.passAt, timeout);
    pass, t := PassIsARun(c, n, round, timeout);
    LeadsOn(s, [Wait(round.evalAt)], timeout, a, tick, b);
    LeadsOn(s, [Wait(round.evalAt)] + tick, timeout, b, [Wait(round.passAt)], c);
    LeadsOn(s, [Wait(round.evalAt)] + tick + [Wait(round.passAt)], timeout, c, pass, t);
  }

  /** Cooperative rounds that find the registry's name for `n`. */
  ghost predicate CooperativeFor(s: State, n: string, rounds: seq<Round>, cfg: SizingConfig, timeout: Time, r: int,
                                 interval: Time)
    requires n in s.services
  {
    && Cooperative(StandingOf(s.services[n]), n, rounds, cfg, timeout, r, s.clock, interval)
    && forall i :: 0 <= i < |rounds| ==> rounds[i].eval.ecsServiceName == Some(s.services[n].ecsService)
  }

  /** Cooperative rounds are a run of the protocol. */
  lemma {:induction false} RoundsAreARun(s: State, n: string, rounds: seq<Round>, cfg: SizingConfig, timeout: Time,
                                         r: int, now: Time, interval: Time) returns (labels: seq<Label>, t: State)
    requires BetweenRounds(s, n) && s.clock <= now && interval > 0
    requires Cooperative(StandingOf(s.services[n]), n, rounds, cfg, timeout, r, now, interval)
    requires forall i :: 0 <= i < |rounds| ==> rounds[i].eval.ecsServiceName == Some(s.services[n].ecsService)
    ensures Leads(s, labels, timeout, t) && AllCalm(labels, n, r) && BetweenRounds(t, n)
    ensures StandingOf(t.services[n]) == AfterRounds(StandingOf(s.services[n]), n, rounds, cfg, timeout)
    decreases |rounds|
  {
    if rounds == [] {
      labels, t := [], s;
    } else {
      hide AfterRound, PassCooperates;
      var round := rounds[0];
      assert EvalCooperates(round.eval, s.services[n].desired, r, cfg);
      assert Finds(s, n, round.eval);
      FullReports(round.eval, s.services[n].desired, r, cfg);
      hide EvalCooperates, Finds, Leads, RoundLabels, Required, ObservedTotal;
      var pass, u := RoundIsARun(s, n, round, cfg, timeout);
      var first := RoundLabels(s, n, round, cfg, pass);
      var more;
      more, t := RoundsAreARun(u, n, rounds[1..], cfg, timeout, r, NextAt(round, interval), interval);
      LeadsOn(s, first, timeout, u, more, t);
      labels := first + more;
    }
  }

  /** From every state of the protocol in which nobody is mid-way, cooperative rounds are a run in which nobody else
      writes the count, every evaluation requires `r` tasks, and the service is left as the rounds leave it: with enough
      of them, at the required count. */
  lemma TheProtocolSettles(s: State, n: string, rounds: seq<Round>, cfg: SizingConfig, timeout: Time, r: int,
                           interval: Time)
    requires BetweenRounds(s, n) && interval > 0 && s.clock > 0 && 1 <= r <= 10
    requires InOrder(StandingOf(s.services[n]), r) && InTime(StandingOf(s.services[n]), s.clock)
    requires CooperativeFor(s, n, rounds, cfg, timeout, r, interval)
    ensures exists labels: seq<Label>, t: State ::
              && Leads(s, labels, timeout, t) && AllCalm(labels, n, r) && n in t.services
              && StandingOf(t.services[n]) == AfterRounds(StandingOf(s.services[n]), n, rounds, cfg, timeout)
              && (|rounds| >= RoundsToSettle(StandingOf(s.services[n]), r, interval) ==> t.services[n].desired == r)
  {
    hide Leads, Cooperative, AfterRounds, InOrder, InTime, Named, AllCalm, RoundsToSettle;
    var x := StandingOf(s.services[n]);
    var labels, t := RoundsAreARun(s, n, rounds, cfg, timeout, r, s.clock, interval);
    if |rounds| >= RoundsToSettle(x, r, interval) {
      TheLoopSettles(x, n, rounds, cfg, timeout, r, s.clock, interval);
    }
  }

  // ---- Where the rounds may start ----

  /** No counter of the policy is negative. */
  ghost predicate CountersOk(s: State) {
    forall m :: m in s.services ==> s.services[m].policy.outStreak >= 0 && s.services[m].policy.inStreak >= 0
  }

  lemma WorkKeepsCounters(s: State, a: Answer, timeout: Time)
    requires Local(s) && Fits(s.pc, a) && CountersOk(s)
    ensures CountersOk(AdvanceStep(s, a, timeout))
  {
    WorkIsLocal(s, a, timeout);
    if Executes(s.pc.point) {
      hide LocalStep, Local, StartStep, DrainStep, CompletionStep, FailStep;
    } else {
      hide AdvanceStep;
    }
  }

  lemma StepKeepsCounters(s: State, l: Label, timeout: Time)
    requires Inv(s) && CountersOk(s) && Enabled(s, l)
    ensures CountersOk(Step(s, l, timeout))
  {
    if l.Advance? && s.pc.Working? {
      CurrentIsLocal(s);
      hide AdvanceStep, Inv, Local, CountersOk;
      WorkKeepsCounters(s, l.answer, timeout);
    } else {
      hide Inv;
    }
  }

  lemma {:induction false} RunKeepsCounters(states: seq<State>, labels: seq<Label>, timeout: Time, k: nat)
    requires IsRun(states, labels, timeout) && k < |states|
    ensures CountersOk(states[k])
  {
    if k > 0 {
      hide Inv, CountersOk, Step;
      RunKeepsCounters(states, labels, timeout, k - 1);
      RunKeepsInv(states, labels, timeout, k - 1);
      StepKeepsCounters(states[k - 1], labels[k - 1], timeout);
    }
  }

  /** They may start in every state of a run under constant demand, stalled evaluations included, once the scale-in
      scheduler is idle. */
  lemma CalmRunsAreInOrder(states: seq<State>, labels: seq<Label>, timeout: Time, n: string, r: int, k: nat)
    requires CalmRun(states, labels, timeout, n, r) && 1 <= r <= 10
    requires k < |states| && states[k].pc.Idle?
    ensures n in states[k].services && Named(states[k]) && states[k].clock > 0
    ensures InOrder(StandingOf(states[k].services[n]), r) && InTime(StandingOf(states[k].services[n]), states[k].clock)
  {
    RunKeepsInv(states, labels, timeout, k);
    RunKeepsCounters(states, labels, timeout, k);
    RunKeepsSteady(states, labels, timeout, n, r, k);
    RestIsInOrder(states[k], n, r);
  }

  lemma RestIsInOrder(s: State, n: string, r: int)
    requires Inv(s) && CountersOk(s) && s.pc.Idle? && n in s.services && Steady(s.services[n], r)
    ensures Named(s) && InOrder(StandingOf(s.services[n]), r) && InTime(StandingOf(s.services[n]), s.clock)
  {
    assert AtRest(s.services[n], s.clock) && ServiceOk(n, s.services[n], s.clock);
  }

  // ---- Such rounds exist ----

  /** The capacity the code defaults to: a hundred sessions per task, of which eighty are to be used. */
  function Sized(most: int): SizingConfig {
    SizingConfig(100, 0.8, 1, most)
  }

  lemma EightyEach(r: int, most: int)
    requires 1 <= r <= most
    ensures Required(80 * r, Sized(most)) == r
  {
    var k := Required(80 * r, Sized(most));
    assert 100 as real * 0.8 == 80.0;
    RequiredIsLeastClamped(80 * r, 100, 0.8, 1, most, k - 1);
    assert k < most ==> 80 * r <= 80 * k;
    assert k > 1 ==> 80 * r > 80 * (k - 1);
  }

  /** One task has all the sessions, the other none. */
  lemma ACooperativeRound(desired: int, ecsService: string, r: int, most: int, now: Time) returns (round: Round)
    requires 1 <= r <= most
    ensures EvalCooperates(round.eval, desired, r, Sized(most)) && PassCooperates(round.pass)
    ensures round.eval.ecsServiceName == Some(ecsService) && round.evalAt == round.passAt == now
  {
    var control, running := ControlState(desired, desired, 0), ["a", "b"];
    var reports := map["a" := 80 * r, "b" := 0];
    round := Round(now, EvalAnswers(Some(ecsService), Some(control), Some(reports), Some(running), Some({}), [], true),
                   now, JobAnswers(Some(running), Some(reports), Some({}), true, true, Some(0), true, Some(control),
                                   Some("STOPPED"), true, Some(["a"]), true));
    assert "b" in running && IsNormal(reports, {}, "b");
    assert running[..1] == ["a"] && ["a"][..0] == [];
    assert Total(reports, running[..1]) == 80 * r;
    EightyEach(r, most);
  }

  /** From any standing, rounds in which the sessions require `r` tasks can go on as long as one likes. */
  lemma {:induction false} CooperationIsPossible(x: Standing, service: string, ecsService: string, timeout: Time,
                                                 r: int, most: int, now: Time, interval: Time, count: nat)
    returns (rounds: seq<Round>)
    requires now > 0 && interval > 0 && 1 <= r <= most
    ensures |rounds| == count
    ensures Cooperative(x, service, rounds, Sized(most), timeout, r, now, interval)
    ensures forall i :: 0 <= i < count ==> rounds[i].eval.ecsServiceName == Some(ecsService)
    decreases count
  {
    rounds := [];
    if count > 0 {
      hide AfterRound, EvalCooperates, PassCooperates;
      var round := ACooperativeRound(x.desired, ecsService, r, most, now);
      var y := AfterRound(x, service, round, Sized(most), timeout);
      var later := NextAt(round, interval);
      var more := CooperationIsPossible(y, service, ecsService, timeout, r, most, later, interval, count - 1);
      rounds := [round] + more;
      assert rounds[1..] == more;
    }
  }
}
