/** Records kept by the Redis delivery queue.  Identifiers drawn by uuid4 are integers; the protocol
    model keeps them fresh.  JSON text is replaced by the record it encodes. */
module QueueTypes {
  import opened Options

  type MessageId = int
  type TaskId = int
  type WorkerId = int
  type RecordId = int
  type DedupeKey = int
  type Time = real

  /** TaskPriority: 0 critical, 1 high, 2 normal, 3 low. */
  type Priority = p: int | 0 <= p < 4 witness 2

  /** owner_token: the worker's name and a uuid. */
  datatype Token = Token(worker: WorkerId, nonce: int)

  datatype TaskState =
    | Received | Validated | AwaitingApproval | Queued | Planning | Executing | Testing | Guarding
    | Reviewing | Fixing | ReadyForPr | PrOpened | Completed | Failed | Cancelled
    | ContextReady | Planned | ApprovalRequired | Verifying
  {
    predicate Terminal() { Completed? || Failed? || Cancelled? }
  }

  /** What a claim writes into the envelope it takes. */
  datatype Stamp = Stamp(token: Token, worker: WorkerId, claimedAt: Time, expiresAt: Time)

  /** state is the task's state inside the frozen task_json snapshot. */
  datatype Envelope = Envelope(
    messageId: MessageId,
    taskId: TaskId,
    state: TaskState,
    attempt: nat,
    priority: Priority,
    stamp: Option<Stamp>)

  datatype Lease = Lease(
    messageId: MessageId,
    taskId: TaskId,
    worker: WorkerId,
    token: Token,
    claimedAt: Time,
    deadline: Time,
    attempt: nat)

  datatype FailureClass =
    | RetryableProvider | RetryableInfrastructure | RateLimited | PermanentValidation
    | PermanentAuthorization | CancelledFailure | TimeoutFailure | OwnershipLost | RetryExhaustion

  datatype ExecutionFailure = ExecutionFailure(class_: FailureClass, retryable: bool, retryAfter: Option<real>)

  datatype HistoryEntry = HistoryEntry(
    attempt: nat, class_: FailureClass, failedAt: Time, previousWorker: Option<WorkerId>, leaseDeadline: Option<Time>)

  datatype RetryRecord = RetryRecord(
    messageId: MessageId,
    taskId: TaskId,
    envelope: Envelope,
    priority: Priority,
    attempt: nat,
    dueAt: Time,
    class_: FailureClass,
    firstFailedAt: Time,
    latestFailedAt: Time,
    history: seq<HistoryEntry>)

  /** A field of the delayed hash: a retry record, or the text "{}" that recovery passes when it read
      no envelope or no lease. */
  datatype DelayedEntry = Scheduled(record: RetryRecord) | Malformed

  datatype Approval = NotRequired | Pending | Approved | Denied

  datatype DeadLetter = DeadLetter(
    id: RecordId,
    messageId: MessageId,
    taskId: TaskId,
    envelope: Envelope,
    priority: Priority,
    attempts: nat,
    class_: FailureClass,
    worker: Option<WorkerId>,
    eligible: bool,
    approval: Approval,
    replayedAs: Option<MessageId>,
    history: seq<HistoryEntry>)

  /** The keys of one queue prefix.  Metric counters and cancellation metadata are left out. */
  datatype Store = Store(
    ready: seq<seq<Envelope>>,
    inflight: map<MessageId, Envelope>,
    leases: map<MessageId, Lease>,
    leaseExpiry: map<MessageId, Time>,
    delayed: map<MessageId, DelayedEntry>,
    delayedDue: map<MessageId, Time>,
    dlq: map<MessageId, DeadLetter>,
    dlqTaskIndex: map<TaskId, MessageId>,
    dlqRecordIndex: map<RecordId, MessageId>,
    cancelled: set<TaskId>,
    taskIndex: map<TaskId, MessageId>,
    dedupe: map<DedupeKey, MessageId>)

  const EMPTY: Store :=
    Store([[], [], [], []], map[], map[], map[], map[], map[], map[], map[], map[], {}, map[], map[])
}
