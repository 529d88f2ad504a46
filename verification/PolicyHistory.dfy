/**
 * The policy's counters against the history they stand for. `After` runs the policy over everything that
 * happened to one service; the reference side looks only at the history: which evaluations qualified, how many
 * qualifying ones in a row end it, and which of them are approved for that.
 */
module PolicyHistory {
  import opened Domain
  import opened ScalingPolicy

  datatype Event =
    | Evaluated(demand: ScalingResult, ecs: ControlState, coverage: real, now: Time)
    | Recorded(action: Action, at: Time)

  function After(h: seq<Event>): PolicyState {
    if h == [] then NEW_POLICY
    else
      var p := After(h[..|h| - 1]);
      match h[|h| - 1]
      case Evaluated(demand, ecs, coverage, now) => Judge(p, demand, ecs, coverage, now).state
      case Recorded(action, at) => Record(p, action, at)
  }

  /** The policy's answer to an evaluation that follows history `h`. */
  function Approves(h: seq<Event>, e: Event): bool
    requires e.Evaluated?
  {
    Judge(After(h), e.demand, e.ecs, e.coverage, e.now).approved
  }

  // ---- The reference side ----

  /** The time of the last recorded execution of `action`, 0 if there is none. */
  function LastRecorded(h: seq<Event>, action: Action): Time {
    if h == [] then 0
    else
      var last := h[|h| - 1];
      if last.Recorded? && last.action == action then last.at else LastRecorded(h[..|h| - 1], action)
  }

  /** Nothing was recorded yet, or the last time is at least so many seconds back. */
  predicate Elapsed(last: Time, seconds: int, now: Time) {
    last == 0 || now - last >= seconds * SECOND
  }

  /** No task is pending, and as many run as are desired. */
  predicate HasSettled(ecs: ControlState) {
    ecs.pendingCount == 0 && ecs.runningCount == ecs.desiredCount
  }

  predicate QualifiesOut(e: Event)
    requires e.Evaluated?
  {
    HasSettled(e.ecs) && e.demand.action == ScaleOut
  }

  predicate QualifiesIn(h: seq<Event>, e: Event)
    requires e.Evaluated?
  {
    && HasSettled(e.ecs)
    && e.demand.action == ScaleIn
    && e.demand.currentDesiredCount > 1
    && e.coverage >= 1.0
    && Elapsed(LastRecorded(h, ScaleOut), 60, e.now)
    && Elapsed(LastRecorded(h, ScaleIn), 60, e.now)
  }

  /** How many flags in a row, counted from the end, are true. */
  function Trailing(flags: seq<bool>): (n: nat)
    ensures n <= |flags|
  {
    if flags == [] || !flags[|flags| - 1] then 0 else Trailing(flags[..|flags| - 1]) + 1
  }

  /** The evaluations of a history in order: did each keep the scale-out streak alive, that is, did it qualify
      without being approved? */
  function OutFlags(h: seq<Event>): seq<bool>
    decreases |h|, 0
  {
    if h == [] then []
    else
      var before, last := h[..|h| - 1], h[|h| - 1];
      if last.Recorded? then OutFlags(before)
      else OutFlags(before) + [QualifiesOut(last) && !OutApproved(before, last)]
  }

  /** The third qualifying evaluation in a row since the last approval, below the maximum, 30s after the last
      recorded scale-out, and for more tasks than there are. */
  predicate OutApproved(h: seq<Event>, e: Event)
    requires e.Evaluated?
    decreases |h|, 1
  {
    && QualifiesOut(e)
    && Trailing(OutFlags(h)) >= 2
    && e.demand.currentDesiredCount < 10
    && Elapsed(LastRecorded(h, ScaleOut), 30, e.now)
    && e.demand.currentDesiredCount < e.demand.recommendedDesiredCount
  }

  /** The same for the scale-in streak. */
  function InFlags(h: seq<Event>): seq<bool>
    decreases |h|, 0
  {
    if h == [] then []
    else
      var before, last := h[..|h| - 1], h[|h| - 1];
      if last.Recorded? then InFlags(before)
      else InFlags(before) + [QualifiesIn(before, last) && !InApproved(before, last)]
  }

  /** The fifth qualifying evaluation in a row since the last approval, for fewer tasks than there are. */
  predicate InApproved(h: seq<Event>, e: Event)
    requires e.Evaluated?
    decreases |h|, 1
  {
    && QualifiesIn(h, e)
    && Trailing(InFlags(h)) >= 4
    && e.demand.recommendedDesiredCount < e.demand.currentDesiredCount
  }

  /** `n` is the length of the longest suffix of `flags` that is all true. */
  ghost predicate IsLongestTrueSuffix(flags: seq<bool>, n: int) {
    && 0 <= n <= |flags|
    && (forall i :: |flags| - n <= i < |flags| ==> flags[i])
    && (n < |flags| ==> !flags[|flags| - n - 1])
  }

  lemma {:induction false} LongestIsUnique(flags: seq<bool>, m: int, n: int)
    requires IsLongestTrueSuffix(flags, m) && IsLongestTrueSuffix(flags, n)
    ensures m == n
  {
  }

  lemma {:induction false} CooldownTimesAreLastRecorded(h: seq<Event>)
    ensures After(h).lastOut == LastRecorded(h, ScaleOut)
    ensures After(h).lastIn == LastRecorded(h, ScaleIn)
  {
    if h != [] {
      CooldownTimesAreLastRecorded(h[..|h| - 1]);
    }
  }

  lemma {:induction false} TrailingIsLongest(flags: seq<bool>)
    ensures IsLongestTrueSuffix(flags, Trailing(flags))
  {
    if flags != [] && flags[|flags| - 1] {
      TrailingIsLongest(flags[..|flags| - 1]);
    }
  }

  lemma {:induction false} TrailingGrows(flags: seq<bool>, flag: bool)
    ensures Trailing(flags + [flag]) == if flag then Trailing(flags) + 1 else 0
  {
    assert (flags + [flag])[..|flags|] == flags;
  }

  ghost predicate CountersMatch(h: seq<Event>) {
    After(h).outStreak == Trailing(OutFlags(h)) && After(h).inStreak == Trailing(InFlags(h))
  }

  lemma {:induction false} ApprovalGivenMatch(h: seq<Event>, e: Event)
    requires e.Evaluated?
    requires CountersMatch(h)
    ensures Approves(h, e) <==> OutApproved(h, e) || InApproved(h, e)
  {
    CooldownTimesAreLastRecorded(h);
  }

  /** One more evaluation either lengthens the streak of its direction or ends it. */
  lemma {:induction false} EvaluationMovesStreaks(h: seq<Event>, e: Event)
    requires e.Evaluated? && CountersMatch(h)
    ensures var p, q := After(h), Judge(After(h), e.demand, e.ecs, e.coverage, e.now).state;
            && q.outStreak == (if QualifiesOut(e) && !OutApproved(h, e) then p.outStreak + 1 else 0)
            && q.inStreak == (if QualifiesIn(h, e) && !InApproved(h, e) then p.inStreak + 1 else 0)
  {
    ApprovalGivenMatch(h, e);
    CooldownTimesAreLastRecorded(h);
    hide After, LastRecorded, Trailing, OutFlags, InFlags, OutApproved, InApproved;
  }

  lemma {:induction false} EvaluationKeepsMatch(h: seq<Event>, e: Event)
    requires e.Evaluated? && CountersMatch(h)
    ensures CountersMatch(h + [e])
  {
    EvaluationMovesStreaks(h, e);
    assert (h + [e])[..|h|] == h;
    TrailingGrows(OutFlags(h), QualifiesOut(e) && !OutApproved(h, e));
    TrailingGrows(InFlags(h), QualifiesIn(h, e) && !InApproved(h, e));
    hide Trailing, Judge, QualifiesOut, QualifiesIn, OutApproved, InApproved;
  }

  lemma {:induction false} CountersAlwaysMatch(h: seq<Event>)
    ensures CountersMatch(h)
  {
    if h != [] {
      var before, e := h[..|h| - 1], h[|h| - 1];
      assert h == before + [e];
      CountersAlwaysMatch(before);
      if e.Evaluated? {
        hide CountersMatch;
        EvaluationKeepsMatch(before, e);
      }
    }
  }

  /** Each counter is the length of the longest suffix of qualifying, unapproved evaluations of its direction. */
  lemma {:induction false} CountersRefineHistory(h: seq<Event>)
    ensures After(h).outStreak == Trailing(OutFlags(h)) && IsLongestTrueSuffix(OutFlags(h), After(h).outStreak)
    ensures After(h).inStreak == Trailing(InFlags(h)) && IsLongestTrueSuffix(InFlags(h), After(h).inStreak)
  {
    CountersAlwaysMatch(h);
    TrailingIsLongest(OutFlags(h));
    TrailingIsLongest(InFlags(h));
  }

  /** The policy approves an evaluation exactly when the history before it says so. */
  lemma {:induction false} ApprovalRefinesHistory(h: seq<Event>, e: Event)
    requires e.Evaluated?
    ensures Approves(h, e) <==> OutApproved(h, e) || InApproved(h, e)
  {
    CountersAlwaysMatch(h);
    ApprovalGivenMatch(h, e);
  }

  /** A scale-out is approved exactly when this evaluation is at least the third of a converged SCALE_OUT suffix
      since the last approval, the service is below its maximum, the last recorded scale-out is 30s old, and the
      demanded count exceeds the current one. */
  lemma {:induction false} OutApprovalIff(h: seq<Event>, e: Event, n: int)
    requires e.Evaluated? && e.demand.action == ScaleOut
    requires IsLongestTrueSuffix(OutFlags(h), n)
    ensures Approves(h, e) <==>
            && QualifiesOut(e)
            && n + 1 >= 3
            && e.demand.currentDesiredCount < 10
            && Elapsed(LastRecorded(h, ScaleOut), 30, e.now)
            && e.demand.currentDesiredCount < e.demand.recommendedDesiredCount
  {
    CountersRefineHistory(h);
    ApprovalRefinesHistory(h, e);
    LongestIsUnique(OutFlags(h), n, After(h).outStreak);
  }

  /** A scale-in is approved exactly when this evaluation is at least the fifth of a qualifying suffix since the
      last approval and the demanded count is below the current one. */
  lemma {:induction false} InApprovalIff(h: seq<Event>, e: Event, n: int)
    requires e.Evaluated? && e.demand.action == ScaleIn
    requires IsLongestTrueSuffix(InFlags(h), n)
    ensures Approves(h, e) <==>
            && QualifiesIn(h, e)
            && n + 1 >= 5
            && e.demand.recommendedDesiredCount < e.demand.currentDesiredCount
  {
    CountersRefineHistory(h);
    ApprovalRefinesHistory(h, e);
    LongestIsUnique(InFlags(h), n, After(h).inStreak);
  }
}
