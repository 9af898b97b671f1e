/** The rows of the two mutable tables of the registry: `tasks` and `notifications`. */
module Rows {
  import opened Wrappers

  datatype ExecutionState =
    | STARTING | RUNNING | TOOL_RUNNING | WAITING | STALLED | UNRESPONSIVE
    | SETTLED | CRASHED | ABORTED

  datatype VerificationState = NOT_RUN | PENDING | PASS | FAIL | UNRUNNABLE

  datatype WakeState = WakePending | Dispatching | Accepted | Disabled | Uncertain | Exhausted

  /** The persisted `verifier_spec` column: NULL, a text the loader turns back
      into a verifier, or a text it cannot (bad JSON, or an empty argv). */
  datatype VerifierSpec = NoSpec | Unloadable | Loadable

  /** The progress-bearing fields of one `get_state` answer. The state hash is
      treated as an injective function of them, so the snapshot is its own hash. */
  datatype Snapshot = Snapshot(
    messageCount: Option<int>, pendingMessageCount: Option<int>,
    isStreaming: bool, isCompacting: bool,
    activeTool: Option<string>, activeRequestId: Option<string>)

  datatype TaskRow = TaskRow(
    executionState: ExecutionState,
    verificationState: VerificationState,
    verifierSpec: VerifierSpec,
    startedAt: Timestamp,
    settledAt: Timestamp,
    lastStateAt: Timestamp,
    lastProgressAt: Timestamp,
    lastEventType: Option<string>,
    lastStateHash: Option<Snapshot>,
    activeTool: Option<string>,
    messageCount: Option<int>,
    isStreaming: bool,
    isCompacting: bool,
    verifierSummary: Option<string>,
    lspSummary: Option<string>,
    abortRequested: bool,
    continuationEnabled: bool,
    wakeState: Option<WakeState>,
    wakeAttempts: nat,
    wakeRequestedAt: Timestamp,
    wakeAcceptedAt: Timestamp)

  datatype Status = Pending | Leased | Sent | Failed

  datatype Kind = Progress | Settlement | Verifier | Failure | Stall

  datatype NotificationRow = NotificationRow(
    taskId: string,
    kind: Kind,
    target: Option<string>,
    status: Status,
    attempts: nat,
    nextRetryAt: Timestamp,
    leaseUntil: Timestamp,
    workerId: Option<string>,
    createdAt: real,
    sentAt: Timestamp)

  type Tasks = map<string, TaskRow>
  type Notifications = map<string, NotificationRow>

  predicate Final(e: ExecutionState) {
    e in {SETTLED, CRASHED, ABORTED}
  }

  predicate Resumable(e: ExecutionState) {
    e in {STARTING, RUNNING, TOOL_RUNNING, WAITING, STALLED, UNRESPONSIVE}
  }

  /** Two rows that differ at most outside the wake columns. */
  predicate SameWakeColumns(a: TaskRow, b: TaskRow) {
    && a.continuationEnabled == b.continuationEnabled
    && a.wakeState == b.wakeState
    && a.wakeAttempts == b.wakeAttempts
    && a.wakeRequestedAt == b.wakeRequestedAt
    && a.wakeAcceptedAt == b.wakeAcceptedAt
  }
}
