/** Streak counters, cooldowns and step limits, kept per service. */
module ScalingPolicy {
  import opened Domain

  const MIN_DESIRED := 1
  const MAX_DESIRED := 10
  const MAX_OUT_STEP := 2
  const MAX_IN_STEP := 1
  const OUT_CONSECUTIVE := 3
  const IN_CONSECUTIVE := 5
  const OUT_COOLDOWN: Time := 30 * SECOND
  const IN_COOLDOWN: Time := 60 * SECOND
  const MIN_COVERAGE := 1.0

  /** What the policy remembers about one service. */
  datatype PolicyState = PolicyState(outStreak: int, inStreak: int, lastOut: Time, lastIn: Time)

  const NEW_POLICY := PolicyState(0, 0, 0, 0)

  datatype Verdict = Verdict(state: PolicyState, result: ScalingResult, approved: bool)

  predicate IsConverged(ecs: ControlState) {
    ecs.pendingCount == 0 && ecs.runningCount == ecs.desiredCount
  }

  /** A recorded execution time blocks for `cooldown`; the zero time never blocks. */
  predicate Cooling(last: Time, cooldown: Time, now: Time) {
    last != 0 && now - last < cooldown
  }

  function Min(a: int, b: int): int { if a < b then a else b }

  function Max(a: int, b: int): int { if a > b then a else b }

  function EvaluateOut(p: PolicyState, demand: ScalingResult, ecs: ControlState, now: Time): Verdict {
    var q := p.(inStreak := 0, outStreak := p.outStreak + 1);
    var target := Min(Min(demand.recommendedDesiredCount, demand.currentDesiredCount + MAX_OUT_STEP), MAX_DESIRED);
    if demand.currentDesiredCount >= MAX_DESIRED || ecs.pendingCount > 0 || Cooling(p.lastOut, OUT_COOLDOWN, now)
       || q.outStreak < OUT_CONSECUTIVE || target <= demand.currentDesiredCount
    then Verdict(q, demand, false)
    else Verdict(q.(outStreak := 0), demand.(recommendedDesiredCount := target), true)
  }

  function EvaluateIn(p: PolicyState, demand: ScalingResult, ecs: ControlState, coverage: real, now: Time): Verdict {
    var q := p.(outStreak := 0);
    if demand.currentDesiredCount <= MIN_DESIRED || ecs.pendingCount > 0 || coverage < MIN_COVERAGE
       || Cooling(p.lastOut, IN_COOLDOWN, now) || Cooling(p.lastIn, IN_COOLDOWN, now)
    then Verdict(q.(inStreak := 0), demand, false)
    else
      var q' := q.(inStreak := p.inStreak + 1);
      var target := Max(Max(demand.currentDesiredCount - MAX_IN_STEP, demand.recommendedDesiredCount), MIN_DESIRED);
      if q'.inStreak < IN_CONSECUTIVE || target >= demand.currentDesiredCount then Verdict(q', demand, false)
      else Verdict(q'.(inStreak := 0), demand.(recommendedDesiredCount := target), true)
  }

  function Judge(p: PolicyState, demand: ScalingResult, ecs: ControlState, coverage: real, now: Time): Verdict {
    var cleared := p.(outStreak := 0, inStreak := 0);
    if !IsConverged(ecs) then Verdict(cleared, demand.(action := Skip, executed := false), false)
    else if demand.action == ScaleOut then EvaluateOut(p, demand, ecs, now)
    else if demand.action == ScaleIn then EvaluateIn(p, demand, ecs, coverage, now)
    else Verdict(cleared, demand.(executed := false), false)
  }

  function Record(p: PolicyState, action: Action, at: Time): PolicyState {
    if action == ScaleOut then p.(lastOut := at)
    else if action == ScaleIn then p.(lastIn := at)
    else p
  }

  /** What an approval promises, whatever the counters say: convergence, direction, cooldowns, and a write
      that moves one bounded step towards the demanded count. */
  lemma ApprovalIsBounded(p: PolicyState, demand: ScalingResult, ecs: ControlState, coverage: real, now: Time)
    requires Judge(p, demand, ecs, coverage, now).approved
    ensures IsConverged(ecs) && ecs.pendingCount == 0 && ecs.runningCount == ecs.desiredCount
    ensures demand.action == ScaleOut || demand.action == ScaleIn
    ensures var r := Judge(p, demand, ecs, coverage, now).result;
            && r == demand.(recommendedDesiredCount := r.recommendedDesiredCount)
            && (demand.action == ScaleOut ==>
                  && demand.currentDesiredCount < r.recommendedDesiredCount
                  && r.recommendedDesiredCount
                       == Min(Min(demand.currentDesiredCount + 2, 10), demand.recommendedDesiredCount)
                  && r.recommendedDesiredCount <= demand.currentDesiredCount + 2
                  && r.recommendedDesiredCount <= 10 && r.recommendedDesiredCount <= demand.recommendedDesiredCount
                  && (p.lastOut == 0 || now - p.lastOut >= 30 * SECOND))
            && (demand.action == ScaleIn ==>
                  && r.recommendedDesiredCount == demand.currentDesiredCount - 1 >= 1
                  && demand.recommendedDesiredCount < demand.currentDesiredCount
                  && coverage >= 1.0
                  && (p.lastOut == 0 || now - p.lastOut >= 60 * SECOND)
                  && (p.lastIn == 0 || now - p.lastIn >= 60 * SECOND))
  {
  }

  /** What an evaluation that approves nothing answers: SKIP if the service has not settled, else the demand as it came;
      never that anything was executed. */
  lemma UnapprovedAnswers(p: PolicyState, demand: ScalingResult, ecs: ControlState, coverage: real, now: Time)
    requires !Judge(p, demand, ecs, coverage, now).approved
    ensures var r, settled := Judge(p, demand, ecs, coverage, now).result,
                              ecs.pendingCount == 0 && ecs.runningCount == ecs.desiredCount;
            && r == demand.(action := r.action, executed := r.executed)
            && (settled ==> r.action == demand.action)
            && (!settled ==> r.action == Skip)
            && (demand.action != Skip ==> (r.action == Skip <==> !settled))
            && (!demand.executed ==> !r.executed)
  {
  }

  function At(m: map<string, int>, service: string): int {
    if service in m then m[service] else 0
  }

  class Policy {
    var scaleOutStreak: map<string, int>
    var scaleInStreak: map<string, int>
    var lastScaleOutAt: map<string, Time>
    var lastScaleInAt: map<string, Time>

    function StateOf(service: string): PolicyState
      reads this
    {
      PolicyState(At(scaleOutStreak, service), At(scaleInStreak, service),
                  At(lastScaleOutAt, service), At(lastScaleInAt, service))
    }

    constructor ()
      ensures forall s :: StateOf(s) == NEW_POLICY
    {
      scaleOutStreak, scaleInStreak, lastScaleOutAt, lastScaleInAt := map[], map[], map[], map[];
    }

    method Evaluate(demand: ScalingResult, ecs: ControlState, coverage: real, now: Time)
      returns (result: ScalingResult, approved: bool)
      modifies this
      ensures Verdict(StateOf(demand.serviceName), result, approved)
           == Judge(old(StateOf(demand.serviceName)), demand, ecs, coverage, now)
      ensures forall s :: s != demand.serviceName ==> StateOf(s) == old(StateOf(s))
    {
      result, approved := demand, false;
      if !IsConverged(ecs) {
        ResetStreak(demand.serviceName);
        result := result.(action := Skip, executed := false);
      } else if demand.action == Keep {
        ResetStreak(demand.serviceName);
        result := result.(executed := false);
      } else if demand.action == ScaleOut {
        result, approved := EvaluateScaleOut(demand, ecs, now);
      } else if demand.action == ScaleIn {
        result, approved := EvaluateScaleIn(demand, ecs, coverage, now);
      } else {
        ResetStreak(demand.serviceName);
        result := result.(executed := false);
      }
    }

    method EvaluateScaleOut(demand: ScalingResult, ecs: ControlState, now: Time)
      returns (result: ScalingResult, approved: bool)
      modifies this
      ensures Verdict(StateOf(demand.serviceName), result, approved)
           == EvaluateOut(old(StateOf(demand.serviceName)), demand, ecs, now)
      ensures forall s :: s != demand.serviceName ==> StateOf(s) == old(StateOf(s))
    {
      var service := demand.serviceName;
      result, approved := demand, false;
      scaleInStreak := scaleInStreak[service := 0];
      scaleOutStreak := scaleOutStreak[service := At(scaleOutStreak, service) + 1];
      if demand.currentDesiredCount >= MAX_DESIRED { return; }
      if ecs.pendingCount > 0 { return; }
      var last := At(lastScaleOutAt, service);
      if last != 0 && now - last < OUT_COOLDOWN { return; }
      if scaleOutStreak[service] < OUT_CONSECUTIVE { return; }
      var target := demand.recommendedDesiredCount;
      if target > demand.currentDesiredCount + MAX_OUT_STEP {
        target := demand.currentDesiredCount + MAX_OUT_STEP;
      }
      if target > MAX_DESIRED {
        target := MAX_DESIRED;
      }
      if target <= demand.currentDesiredCount { return; }
      result := result.(recommendedDesiredCount := target);
      scaleOutStreak := scaleOutStreak[service := 0];
      approved := true;
    }

    method EvaluateScaleIn(demand: ScalingResult, ecs: ControlState, coverage: real, now: Time)
      returns (result: ScalingResult, approved: bool)
      modifies this
      ensures Verdict(StateOf(demand.serviceName), result, approved)
           == EvaluateIn(old(StateOf(demand.serviceName)), demand, ecs, coverage, now)
      ensures forall s :: s != demand.serviceName ==> StateOf(s) == old(StateOf(s))
    {
      var service := demand.serviceName;
      result, approved := demand, false;
      scaleOutStreak := scaleOutStreak[service := 0];
      if demand.currentDesiredCount <= MIN_DESIRED {
        scaleInStreak := scaleInStreak[service := 0];
        return;
      }
      if ecs.pendingCount > 0 {
        scaleInStreak := scaleInStreak[service := 0];
        return;
      }
      if coverage < MIN_COVERAGE {
        scaleInStreak := scaleInStreak[service := 0];
        return;
      }
      var lastOut := At(lastScaleOutAt, service);
      if lastOut != 0 && now - lastOut < IN_COOLDOWN {
        scaleInStreak := scaleInStreak[service := 0];
        return;
      }
      var lastIn := At(lastScaleInAt, service);
      if lastIn != 0 && now - lastIn < IN_COOLDOWN {
        scaleInStreak := scaleInStreak[service := 0];
        return;
      }
      scaleInStreak := scaleInStreak[service := At(scaleInStreak, service) + 1];
      if scaleInStreak[service] < IN_CONSECUTIVE { return; }
      var target := demand.currentDesiredCount - MAX_IN_STEP;
      if target < demand.recommendedDesiredCount {
        target := demand.recommendedDesiredCount;
      }
      if target < MIN_DESIRED {
        target := MIN_DESIRED;
      }
      if target >= demand.currentDesiredCount { return; }
      result := result.(recommendedDesiredCount := target);
      scaleInStreak := scaleInStreak[service := 0];
      approved := true;
    }

    method RecordExecution(service: string, action: Action, at: Time)
      modifies this
      ensures StateOf(service) == Record(old(StateOf(service)), action, at)
      ensures forall s :: s != service ==> StateOf(s) == old(StateOf(s))
    {
      match action
      case ScaleOut => lastScaleOutAt := lastScaleOutAt[service := at];
      case ScaleIn => lastScaleInAt := lastScaleInAt[service := at];
      case _ =>
    }

    method ResetStreak(service: string)
      modifies this
      ensures StateOf(service) == old(StateOf(service)).(outStreak := 0, inStreak := 0)
      ensures forall s :: s != service ==> StateOf(s) == old(StateOf(s))
    {
      scaleOutStreak := scaleOutStreak[service := 0];
      scaleInStreak := scaleInStreak[service := 0];
    }
  }
}
