/** The values the two schedulers exchange: scale-in jobs, ECS control states and scaling results. */
module Domain {

  type TaskID = string

  /** Nanoseconds on one non-decreasing clock; 0 is the zero time that `IsZero` tests for. */
  type Time = int

  const SECOND: int := 1_000_000_000

  datatype Option<+T> = None | Some(value: T)

  datatype Result<+T> = Ok(value: T) | Err(error: Error)

  datatype Error =
    | PortFailure
    | ServiceNotFound
    | JobNotFound
    | JobAlreadyActive
    | InvalidTransition
    | EmptyTarget
    | TargetAlreadySelected
    | NoEligibleTarget
    | AppliedTimeEmpty
    | CompletionTimeout
    | InvalidTaskStatus
    | UnsupportedAction

  datatype ScaleInStatus = Requested | Draining | Applied | Completed | Failed

  predicate IsActive(status: ScaleInStatus) {
    status.Requested? || status.Draining? || status.Applied?
  }

  datatype ScaleInJob = ScaleInJob(
    serviceName: string,
    ecsServiceName: string,
    status: ScaleInStatus,
    targetTaskID: TaskID,
    protectedTaskIDs: seq<TaskID>,
    currentDesiredCount: int,
    targetDesiredCount: int,
    zeroSessionStreak: int,
    requestedAt: Time,
    appliedAt: Time,
    updatedAt: Time,
    lastError: Option<Error>)

  datatype ControlState = ControlState(desiredCount: int, runningCount: int, pendingCount: int)

  datatype Action = ScaleOut | ScaleIn | ScaleInCandidate | Keep | NotScalable | Skip

  datatype ScalingResult = ScalingResult(
    serviceName: string,
    totalSessionCount: int,
    currentDesiredCount: int,
    runningTaskCount: int,
    recommendedDesiredCount: int,
    action: Action,
    executed: bool)

  datatype TaskInfo = TaskInfo(taskID: TaskID, sessionCount: int)
}
