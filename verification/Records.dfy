/** Execution records shared by the runner and its store. */
module Records {
  datatype Option<+T> = None | Some(value: T)

  /** An instant. 0 is Go's zero `time.Time`; all clocks here are already in UTC. */
  type Time = int

  datatype TransitionState = TPending | TRunning | TCompleted | TFailed | TPartial | TCanceled | TPlanned

  datatype TaskState = Pending | Running | Succeeded | Failed | Canceled | Planned

  /** `isTerminalTaskState`. */
  predicate Terminal(s: TaskState) {
    s.Succeeded? || s.Failed? || s.Canceled? || s.Planned?
  }

  datatype Transition = Transition(
    id: string,
    requestID: string,
    operation: string,
    state: TransitionState,
    requestedBy: string,
    dryRun: bool,
    targetCount: int,
    successCount: int,
    failureCount: int,
    queuedAt: Time,
    startedAt: Option<Time>,
    completedAt: Option<Time>,
    createdAt: Time,
    updatedAt: Time)

  datatype Task = Task(
    id: string,
    transitionID: string,
    nodeID: string,
    bmcID: string,
    bmcEndpoint: string,
    credentialID: string,
    operation: string,
    state: TaskState,
    dryRun: bool,
    insecureSkipVerify: bool,
    attemptCount: int,
    finalPowerState: string,
    errorDetail: string,
    queuedAt: Time,
    startedAt: Option<Time>,
    completedAt: Option<Time>,
    createdAt: Time,
    updatedAt: Time)
}
