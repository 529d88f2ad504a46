/**
 * The stateful stand-in for ECS: counters per service kept beside one task table. `Fake` is the view one service
 * has of it. Task names and the order in which a map is walked come from outside.
 */
module FakeEcs {
  import opened Domain
  import opened ScalingPolicy

  datatype LastStatus = PENDING | RUNNING | STOPPED

  datatype Fake = Fake(state: ControlState, tasks: map<TaskID, LastStatus>, protectedTask: Option<set<TaskID>>)

  datatype UpdateOutcome =
    | Updated
    | NegativeCount
    | ServiceUnknown
    | NothingProtected
    | StopNotificationFailed
    | Panicked    // a slice made with a negative capacity

  function InStatus(tasks: map<TaskID, LastStatus>, status: LastStatus): set<TaskID> {
    set t | t in tasks && tasks[t] == status
  }

  /** The RUNNING tasks a lowering may stop. */
  function Unprotected(f: Fake): set<TaskID> {
    InStatus(f.tasks, RUNNING) - (if f.protectedTask.Some? then f.protectedTask.value else {})
  }

  function MissingCount(state: ControlState, desired: int): int {
    desired - (state.runningCount + state.pendingCount)
  }

  /** `victim` is what walking the task map in some order can come upon first. */
  predicate CanBeVictim(f: Fake, victim: Option<TaskID>) {
    if victim.Some? then victim.value in Unprotected(f) else Unprotected(f) == {}
  }

  function Names(ids: seq<TaskID>): set<TaskID> {
    set t | t in ids
  }

  function WithPending(tasks: map<TaskID, LastStatus>, names: seq<TaskID>): map<TaskID, LastStatus> {
    map t | t in tasks.Keys + Names(names) :: if t in names then PENDING else tasks[t]
  }

  /** `UpdateServiceDesiredCount` on the view: what it answers, and what is left behind in each case. */
  function Update(f: Fake, desired: int, names: seq<TaskID>, victim: Option<TaskID>, notified: bool)
    : (UpdateOutcome, Fake)
    requires MissingCount(f.state, desired) <= |names|
  {
    if desired < 0 then (NegativeCount, f)
    else if desired > f.state.desiredCount then
      var missing := MissingCount(f.state, desired);
      var state := f.state.(desiredCount := desired, pendingCount := f.state.pendingCount + Max(missing, 0));
      if missing < 0 then (Panicked, f.(state := state))
      else (Updated, f.(state := state, tasks := WithPending(f.tasks, names[..missing])))
    else if desired == f.state.desiredCount then (Updated, f)
    else if f.protectedTask.None? then (NothingProtected, f)
    else
      var g := if victim.Some? then f.(tasks := f.tasks[victim.value := STOPPED]) else f;
      if victim.Some? && !notified then (StopNotificationFailed, g)
      else (Updated, g.(state := f.state.(desiredCount := desired, runningCount := desired)))
  }

  predicate Starts(f: Fake, task: TaskID) {
    && task in f.tasks && f.tasks[task] == PENDING
    && f.state.pendingCount > 0 && f.state.runningCount < f.state.desiredCount
  }

  /** The delayed transition of one task, when its timer fires. */
  function Fire(f: Fake, task: TaskID): Fake {
    if !Starts(f, task) then f
    else f.(tasks := f.tasks[task := RUNNING],
            state := f.state.(pendingCount := f.state.pendingCount - 1, runningCount := f.state.runningCount + 1))
  }

  class FakeECSClient {
    var serviceStates: map<string, ControlState>
    var tasks: map<TaskID, LastStatus>
    var protectedTask: Option<set<TaskID>>

    function View(service: string): Fake
      requires service in serviceStates
      reads this
    {
      Fake(serviceStates[service], tasks, protectedTask)
    }

    constructor (initialStates: map<string, ControlState>)
      ensures serviceStates == initialStates && tasks == map[] && protectedTask == None
    {
      serviceStates, tasks, protectedTask := initialStates, map[], None;
    }

    method UpdateServiceDesiredCount(service: string, desired: int, names: seq<TaskID>, notified: bool)
      returns (outcome: UpdateOutcome, ghost victim: Option<TaskID>)
      requires service in serviceStates ==> MissingCount(serviceStates[service], desired) <= |names|
      modifies this
      ensures desired < 0 ==> outcome == NegativeCount
      ensures desired >= 0 && service !in old(serviceStates) ==> outcome == ServiceUnknown
      ensures service !in old(serviceStates) ==>
        serviceStates == old(serviceStates) && tasks == old(tasks) && protectedTask == old(protectedTask)
      ensures service in old(serviceStates) ==>
        && CanBeVictim(old(View(service)), victim)
        && serviceStates.Keys == old(serviceStates.Keys)
        && (outcome, View(service)) == Update(old(View(service)), desired, names, victim, notified)
        && forall s :: s in serviceStates && s != service ==> serviceStates[s] == old(serviceStates)[s]
    {
      victim := AnyVictim(service);
      if desired < 0 { return NegativeCount, victim; }
      if service !in serviceStates { return ServiceUnknown, victim; }
      var state := serviceStates[service];
      outcome := Updated;
      if desired > state.desiredCount {
        var missing := desired - (state.runningCount + state.pendingCount);
        state := state.(desiredCount := desired);
        if missing > 0 {
          state := state.(pendingCount := state.pendingCount + missing);
        }
        serviceStates := serviceStates[service := state];
        if missing < 0 { return Panicked, victim; }
        CreatePending(names[..missing]);
      } else if desired == state.desiredCount {
      } else {
        if protectedTask.None? { return NothingProtected, victim; }
        var stopped: bool;
        stopped, victim := StopFirstUnprotected(service);
        if stopped && !notified { return StopNotificationFailed, victim; }
        state := state.(desiredCount := desired, runningCount := desired);
        serviceStates := serviceStates[service := state];
      }
    }

    /** Walks the table and stops the first RUNNING task that is not protected. */
    method StopFirstUnprotected(service: string) returns (stopped: bool, ghost victim: Option<TaskID>)
      requires service in serviceStates && protectedTask.Some?
      modifies this`tasks
      ensures CanBeVictim(old(View(service)), victim)
      ensures stopped == victim.Some?
      ensures tasks == if stopped then old(tasks)[victim.value := STOPPED] else old(tasks)
    {
      var unseen := tasks.Keys;
      while unseen != {}
        invariant unseen <= tasks.Keys
        invariant tasks == old(tasks)
        invariant Unprotected(View(service)) <= unseen
        decreases |unseen|
      {
        var t :| t in unseen;
        unseen := unseen - {t};
        if tasks[t] == RUNNING && t !in protectedTask.value {
          tasks := tasks[t := STOPPED];
          return true, Some(t);
        }
      }
      return false, None;
    }

    ghost method AnyVictim(service: string) returns (victim: Option<TaskID>)
      ensures service in serviceStates ==> CanBeVictim(View(service), victim)
    {
      victim := None;
      if service in serviceStates && Unprotected(View(service)) != {} {
        var t :| t in Unprotected(View(service));
        victim := Some(t);
      }
    }

    method CreatePending(names: seq<TaskID>)
      modifies this`tasks
      ensures tasks == WithPending(old(tasks), names)
    {
      var i := 0;
      while i < |names|
        invariant 0 <= i <= |names|
        invariant tasks == WithPending(old(tasks), names[..i])
      {
        assert names[..i + 1] == names[..i] + [names[i]];
        tasks := tasks[names[i] := PENDING];
        i := i + 1;
      }
      assert names[..|names|] == names;
    }

    /** `started` tells whether the running notification goes out. */
    method TransitionPendingTaskToRunning(service: string, task: TaskID) returns (started: bool)
      modifies this
      ensures serviceStates.Keys == old(serviceStates.Keys) && protectedTask == old(protectedTask)
      ensures service !in old(serviceStates) ==>
        !started && serviceStates == old(serviceStates) && tasks == old(tasks)
      ensures service in old(serviceStates) ==>
        && started == Starts(old(View(service)), task)
        && View(service) == Fire(old(View(service)), task)
        && forall s :: s in serviceStates && s != service ==> serviceStates[s] == old(serviceStates)[s]
    {
      if service !in serviceStates { return false; }
      var state := serviceStates[service];
      if task !in tasks { return false; }
      if tasks[task] != PENDING { return false; }
      if state.pendingCount <= 0 || state.runningCount >= state.desiredCount { return false; }
      tasks := tasks[task := RUNNING];
      state := state.(pendingCount := state.pendingCount - 1);
      state := state.(runningCount := state.runningCount + 1);
      serviceStates := serviceStates[service := state];
      started := true;
    }

    /** The protected set is replaced, whatever `flag` says. */
    method UpdateTaskProtection(taskIDs: seq<TaskID>, flag: bool)
      modifies this`protectedTask
      ensures protectedTask == Some(Names(taskIDs))
    {
      var temp := {};
      var i := 0;
      while i < |taskIDs|
        invariant 0 <= i <= |taskIDs|
        invariant temp == Names(taskIDs[..i])
      {
        assert taskIDs[..i + 1] == taskIDs[..i] + [taskIDs[i]];
        temp := temp + {taskIDs[i]};
        i := i + 1;
      }
      assert taskIDs[..|taskIDs|] == taskIDs;
      protectedTask := Some(temp);
    }

    /** Every RUNNING task of the table once, whichever service asks; an error while the table is empty. */
    method GetRunningTaskIDs() returns (r: Result<seq<TaskID>>)
      ensures r.Err? <==> tasks == map[]
      ensures r.Ok? ==> Lists(r.value, InStatus(tasks, RUNNING))
    {
      if |tasks| == 0 { return Err(PortFailure); }
      var running: seq<TaskID> := [];
      var unseen := tasks.Keys;
      while unseen != {}
        invariant unseen <= tasks.Keys
        invariant Lists(running, InStatus(tasks, RUNNING) - unseen)
        decreases |unseen|
      {
        var t :| t in unseen;
        unseen := unseen - {t};
        if tasks[t] == RUNNING {
          running := running + [t];
        }
      }
      r := Ok(running);
    }
  }

  /** `ids` names the members of `s`, each once. */
  ghost predicate Lists(ids: seq<TaskID>, s: set<TaskID>) {
    && (forall i, j :: 0 <= i < j < |ids| ==> ids[i] != ids[j])
    && (forall t :: t in ids <==> t in s)
  }

  // ---- The counters against the table ----

  ghost predicate Agrees(f: Fake) {
    && f.state.runningCount == |InStatus(f.tasks, RUNNING)|
    && f.state.pendingCount == |InStatus(f.tasks, PENDING)|
    && f.state.runningCount + f.state.pendingCount == f.state.desiredCount
  }

  /** Names the generator may hand out: distinct and unused. */
  ghost predicate AreNew(names: seq<TaskID>, f: Fake) {
    && (forall i, j :: 0 <= i < j < |names| ==> names[i] != names[j])
    && (forall t :: t in names ==> t !in f.tasks)
  }

  lemma {:induction false} CountDistinct(names: seq<TaskID>)
    requires forall i, j :: 0 <= i < j < |names| ==> names[i] != names[j]
    ensures |Names(names)| == |names|
  {
    if names != [] {
      var front, last := names[..|names| - 1], names[|names| - 1];
      CountDistinct(front);
      assert Names(names) == Names(front) + {last};
    }
  }

  lemma CreatingMovesNone(tasks: map<TaskID, LastStatus>, names: seq<TaskID>)
    requires forall t :: t in names ==> t !in tasks
    requires forall i, j :: 0 <= i < j < |names| ==> names[i] != names[j]
    ensures InStatus(WithPending(tasks, names), RUNNING) == InStatus(tasks, RUNNING)
    ensures InStatus(WithPending(tasks, names), PENDING) == InStatus(tasks, PENDING) + Names(names)
    ensures |InStatus(WithPending(tasks, names), PENDING)| == |InStatus(tasks, PENDING)| + |names|
  {
    CountDistinct(names);
    assert InStatus(tasks, PENDING) !! Names(names);
  }

  lemma RaiseKeepsAgreement(f: Fake, desired: int, names: seq<TaskID>, victim: Option<TaskID>, notified: bool)
    requires Agrees(f) && desired > f.state.desiredCount
    requires MissingCount(f.state, desired) <= |names| && AreNew(names, f)
    ensures var (outcome, g) := Update(f, desired, names, victim, notified);
            && outcome == Updated && Agrees(g)
            && g.state == f.state.(desiredCount := desired, pendingCount := g.state.pendingCount)
            && InStatus(g.tasks, RUNNING) == InStatus(f.tasks, RUNNING)
  {
    var created := names[..MissingCount(f.state, desired)];
    assert forall t :: t in created ==> t in names;
    CreatingMovesNone(f.tasks, created);
  }

  lemma StopMovesOne(f: Fake, v: TaskID)
    requires v in InStatus(f.tasks, RUNNING)
    ensures InStatus(f.tasks[v := STOPPED], RUNNING) == InStatus(f.tasks, RUNNING) - {v}
    ensures InStatus(f.tasks[v := STOPPED], PENDING) == InStatus(f.tasks, PENDING)
  {
  }

  /** A lowering that goes through keeps the agreement exactly when it lowers by one, nothing is pending, and some
      RUNNING task is unprotected. */
  lemma LoweringKeepsAgreementIff(f: Fake, desired: int, names: seq<TaskID>, victim: Option<TaskID>)
    requires Agrees(f) && 0 <= desired < f.state.desiredCount && f.protectedTask.Some?
    requires MissingCount(f.state, desired) <= |names| && CanBeVictim(f, victim)
    ensures var (outcome, g) := Update(f, desired, names, victim, true);
            && outcome == Updated
            && (Agrees(g) <==>
                  desired == f.state.desiredCount - 1 && f.state.pendingCount == 0 && Unprotected(f) != {})
  {
    if victim.Some? {
      StopMovesOne(f, victim.value);
    }
  }

  /** What an update answers and leaves, case by case: a negative count, a lowering before any protection and the count
      that is there change nothing; a raise adds a PENDING task for each that is missing, and panics with only the
      count written if fewer than none are; a lowering stops one unprotected RUNNING task, if there is one, and writes
      the counters only if the notification goes out. */
  lemma OutcomesOfAnUpdate(f: Fake, desired: int, names: seq<TaskID>, victim: Option<TaskID>, notified: bool)
    requires desired - f.state.runningCount - f.state.pendingCount <= |names| && CanBeVictim(f, victim)
    ensures var (outcome, g) := Update(f, desired, names, victim, notified);
            var missing := desired - f.state.runningCount - f.state.pendingCount;
            && g.protectedTask == f.protectedTask
            && (desired < 0 ==> outcome == NegativeCount && g == f)
            && (desired == f.state.desiredCount >= 0 ==> outcome == Updated && g == f)
            && (desired >= 0 && desired > f.state.desiredCount && missing < 0 ==>
                  outcome == Panicked && g.tasks == f.tasks && g.state == f.state.(desiredCount := desired))
            && (desired >= 0 && desired > f.state.desiredCount && missing >= 0 ==>
                  && outcome == Updated
                  && g.state == ControlState(desired, f.state.runningCount, f.state.pendingCount + missing)
                  && (forall t :: t in g.tasks <==> t in f.tasks || t in names[..missing])
                  && (forall t :: t in g.tasks ==> g.tasks[t] == if t in names[..missing] then PENDING else f.tasks[t]))
            && (0 <= desired < f.state.desiredCount && f.protectedTask.None? ==> outcome == NothingProtected && g == f)
            && (0 <= desired < f.state.desiredCount && f.protectedTask.Some? ==>
                  var open := set t | t in f.tasks && f.tasks[t] == RUNNING && t !in f.protectedTask.value;
                  && (victim.Some? <==> open != {}) && (victim.Some? ==> victim.value in open)
                  && g.tasks == (if victim.Some? then f.tasks[victim.value := STOPPED] else f.tasks)
                  && (outcome == StopNotificationFailed <==> victim.Some? && !notified)
                  && (outcome == StopNotificationFailed ==> g.state == f.state)
                  && (outcome != StopNotificationFailed ==>
                        outcome == Updated && g.state == ControlState(desired, desired, f.state.pendingCount)))
  {
    if 0 <= desired < f.state.desiredCount && f.protectedTask.Some? {
      assert Unprotected(f) == set t | t in f.tasks && f.tasks[t] == RUNNING && t !in f.protectedTask.value;
    }
  }

  /** A timer does something exactly if its task is pending and the counters leave room: it starts that task. */
  lemma TimerStartsIff(f: Fake, task: TaskID)
    ensures var g := Fire(f, task);
            && (g != f <==> task in f.tasks && f.tasks[task] == PENDING
                            && f.state.pendingCount > 0 && f.state.runningCount < f.state.desiredCount)
            && (g != f ==>
                  && g.tasks == f.tasks[task := RUNNING] && g.protectedTask == f.protectedTask
                  && g.state == ControlState(f.state.desiredCount, f.state.runningCount + 1, f.state.pendingCount - 1))
  {
  }

  /** `make` gets a negative capacity exactly when a raise finds more tasks counted than it asks for. */
  lemma PanicsIff(f: Fake, desired: int, names: seq<TaskID>, victim: Option<TaskID>, notified: bool)
    requires desired >= 0 && MissingCount(f.state, desired) <= |names|
    ensures Update(f, desired, names, victim, notified).0 == Panicked
       <==> f.state.desiredCount < desired < f.state.runningCount + f.state.pendingCount
  {
  }

  // ---- Settling ----

  /** Where counters and table agree, a pending task's transition is never blocked. */
  lemma FireStartsPending(f: Fake, task: TaskID)
    requires Agrees(f) && task in InStatus(f.tasks, PENDING)
    ensures Starts(f, task)
    ensures var g := Fire(f, task);
            && Agrees(g)
            && g.state.pendingCount == f.state.pendingCount - 1
            && g.tasks == f.tasks[task := RUNNING]
            && InStatus(g.tasks, PENDING) == InStatus(f.tasks, PENDING) - {task}
            && InStatus(g.tasks, RUNNING) == InStatus(f.tasks, RUNNING) + {task}
  {
    var g := Fire(f, task);
    assert InStatus(f.tasks, PENDING) == (InStatus(f.tasks, PENDING) - {task}) + {task};
    assert |InStatus(f.tasks, PENDING)| >= 1;
    assert InStatus(g.tasks, PENDING) == InStatus(f.tasks, PENDING) - {task};
    assert InStatus(g.tasks, RUNNING) == InStatus(f.tasks, RUNNING) + {task};
  }

  /** A timer that fires for any other task does nothing. */
  lemma FireIgnoresOthers(f: Fake, task: TaskID)
    requires task !in InStatus(f.tasks, PENDING)
    ensures Fire(f, task) == f && !Starts(f, task)
  {
  }

  function FireAll(f: Fake, order: seq<TaskID>): Fake
    decreases |order|
  {
    if order == [] then f else FireAll(Fire(f, order[0]), order[1..])
  }

  /** The tasks whose running notification goes out along the way. */
  function StartedBy(f: Fake, order: seq<TaskID>): seq<TaskID>
    decreases |order|
  {
    if order == [] then []
    else (if Starts(f, order[0]) then [order[0]] else []) + StartedBy(Fire(f, order[0]), order[1..])
  }

  /** In whatever order the outstanding timers fire, every pending task turns RUNNING exactly once and the service
      ends converged. */
  lemma {:induction false} OutstandingTimersSettle(f: Fake, order: seq<TaskID>)
    requires Agrees(f) && Lists(order, InStatus(f.tasks, PENDING))
    ensures var g := FireAll(f, order);
            && Agrees(g) && IsConverged(g.state) && g.state.desiredCount == f.state.desiredCount
            && g.tasks.Keys == f.tasks.Keys
            && (forall t :: t in f.tasks ==> g.tasks[t] == if f.tasks[t] == PENDING then RUNNING else f.tasks[t])
    ensures StartedBy(f, order) == order
    decreases |order|
  {
    if order == [] {
      assert InStatus(f.tasks, PENDING) == {};
      assert forall t :: t in f.tasks ==> t !in InStatus(f.tasks, PENDING);
    } else {
      FireStartsPending(f, order[0]);
      var g := Fire(f, order[0]);
      RestIsPending(f, order);
      OutstandingTimersSettle(g, order[1..]);
    }
  }

  lemma RestIsPending(f: Fake, order: seq<TaskID>)
    requires order != [] && Lists(order, InStatus(f.tasks, PENDING))
    ensures Lists(order[1..], InStatus(f.tasks, PENDING) - {order[0]})
  {
    assert order == [order[0]] + order[1..];
  }

  // ---- Runs ----

  datatype Op =
    | SetDesired(desired: int, names: seq<TaskID>, victim: Option<TaskID>, notified: bool)
    | Timer(task: TaskID)
    | Protect(tasks: set<TaskID>)

  /** The operation can happen in `f`. */
  ghost predicate Possible(f: Fake, op: Op) {
    op.SetDesired? ==>
      MissingCount(f.state, op.desired) <= |op.names| && AreNew(op.names, f) && CanBeVictim(f, op.victim)
  }

  /** The operation lowers only by one, with nothing pending, something unprotected and the notification going out. */
  ghost predicate Careful(f: Fake, op: Op) {
    op.SetDesired? && op.desired < f.state.desiredCount ==>
      op.desired == f.state.desiredCount - 1 && f.state.pendingCount == 0 && Unprotected(f) != {} && op.notified
  }

  function Apply(f: Fake, op: Op): Fake
    requires op.SetDesired? ==> MissingCount(f.state, op.desired) <= |op.names|
  {
    match op
    case SetDesired(n, names, victim, notified) => Update(f, n, names, victim, notified).1
    case Timer(t) => Fire(f, t)
    case Protect(ts) => f.(protectedTask := Some(ts))
  }

  ghost predicate IsRun(fs: seq<Fake>, ops: seq<Op>) {
    && |fs| == |ops| + 1
    && forall i :: 0 <= i < |ops| ==> Possible(fs[i], ops[i]) && fs[i + 1] == Apply(fs[i], ops[i])
  }

  lemma StepKeepsAgreement(f: Fake, op: Op)
    requires Agrees(f) && Possible(f, op) && Careful(f, op)
    ensures Agrees(Apply(f, op))
    ensures op.SetDesired? && op.desired > f.state.desiredCount ==> MissingCount(f.state, op.desired) > 0
  {
    match op
    case SetDesired(n, names, victim, notified) =>
      if n > f.state.desiredCount {
        RaiseKeepsAgreement(f, n, names, victim, notified);
      } else if 0 <= n < f.state.desiredCount && f.protectedTask.Some? {
        LoweringKeepsAgreementIff(f, n, names, victim);
      }
    case Timer(t) =>
      if t in InStatus(f.tasks, PENDING) {
        FireStartsPending(f, t);
      } else {
        FireIgnoresOthers(f, t);
      }
    case Protect(_) =>
  }

  /** Over every careful run the counters agree with the table, and no raise finds a negative number missing. */
  lemma {:induction false} AgreementOverRuns(fs: seq<Fake>, ops: seq<Op>, k: nat)
    requires IsRun(fs, ops) && Agrees(fs[0])
    requires forall i :: 0 <= i < |ops| ==> Careful(fs[i], ops[i])
    requires k < |fs|
    ensures Agrees(fs[k])
    ensures k < |ops| && ops[k].SetDesired? && ops[k].desired > fs[k].state.desiredCount ==>
              MissingCount(fs[k].state, ops[k].desired) > 0
  {
    if k > 0 {
      AgreementOverRuns(fs, ops, k - 1);
      StepKeepsAgreement(fs[k - 1], ops[k - 1]);
    }
    if k < |ops| {
      StepKeepsAgreement(fs[k], ops[k]);
    }
  }

  const EMPTY := Fake(ControlState(0, 0, 0), map[], None)

  function BothPending(a: TaskID, b: TaskID): Fake {
    Fake(ControlState(2, 0, 2), map[a := PENDING, b := PENDING], None)
  }

  lemma CreatingTwo(tasks: map<TaskID, LastStatus>, a: TaskID, b: TaskID)
    requires a != b
    ensures [a, b][..2] == [a, b]
    ensures WithPending(tasks, [a, b]) == tasks[a := PENDING][b := PENDING]
  {
  }

  lemma RaiseToTwo(a: TaskID, b: TaskID)
    requires a != b
    ensures var op := SetDesired(2, [a, b], None, true); Possible(EMPTY, op) && Apply(EMPTY, op) == BothPending(a, b)
  {
    CreatingTwo(map[], a, b);
    assert Unprotected(EMPTY) == {};
    hide WithPending, Unprotected;
    assert map[a := PENDING, b := PENDING] == map[][a := PENDING][b := PENDING];
  }

  lemma BothPendingAgree(f: Fake, a: TaskID, b: TaskID)
    requires a != b && f.state == ControlState(2, 0, 2) && f.tasks == map[a := PENDING, b := PENDING]
    ensures Agrees(f) && Unprotected(f) == {}
  {
    assert InStatus(f.tasks, RUNNING) == {};
    assert InStatus(f.tasks, PENDING) == {a, b};
  }

  /** From an empty fake: a raise to two, protection called for nobody, and a lowering to one while both tasks are
      pending. The counters it leaves make the next raise panic. */
  lemma LoweringWhilePendingLeadsToPanic(a: TaskID, b: TaskID) returns (fs: seq<Fake>, ops: seq<Op>)
    requires a != b
    ensures IsRun(fs, ops) && fs[0] == EMPTY && |ops| == 3
    ensures Agrees(fs[2]) && ops[2].SetDesired? && ops[2].desired == fs[2].state.desiredCount - 1
    ensures MissingCount(fs[3].state, 2) <= 0 && CanBeVictim(fs[3], None)
    ensures Update(fs[3], 2, [], None, true).0 == Panicked
  {
    var f := BothPending(a, b).(protectedTask := Some({}));
    RaiseToTwo(a, b);
    BothPendingAgree(f, a, b);
    ops := [SetDesired(2, [a, b], None, true), Protect({}), SetDesired(1, [], None, true)];
    fs := [EMPTY, BothPending(a, b), f, f.(state := ControlState(1, 1, 2))];
  }
}
