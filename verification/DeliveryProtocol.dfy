/** The delivery protocol as a step machine: scripts and SQL transactions are single steps, and any
    number of workers, recoverers, replayers and approvers interleave between them and may crash
    between any two of their awaits.  Worker phases follow worker/runtime.py and
    worker/failure_delivery.py; recoverer phases follow queue/recovery.py. */
module DeliveryProtocol {
  import opened Options
  import opened QueueTypes
  import opened QueueScripts
  import opened RetryPolicies

  type ActorId = int

  /** maximumAttempts is recover_expired's optional argument, already defaulted by the caller. */
  datatype Config = Config(policy: RetryPolicy, maximumAttempts: int, visibility: Time)
  {
    predicate Valid() { policy.Valid() && 0.0 < visibility }
  }

  // ----- Workers -----

  /** What claim returned to the worker. */
  datatype Delivery = Delivery(
    messageId: MessageId, taskId: TaskId, state: TaskState, token: Token, attempt: nat, priority: Priority)

  datatype Phase =
    | Claimed                            // before record_claim
    | Running                            // handler started
    | Succeeded                          // handler returned, before record_success
    | Acking                             // before the acknowledgement of a success
    | NotAcked                           // acknowledgement refused, before record_interrupted
    | Interrupting                       // cancelled, before record_interrupted
    | Failing(failure: ExecutionFailure) // before record_failure
    | Dispatching(failure: ExecutionFailure)
    | Finalizing(failure: ExecutionFailure)
    | DispatchAcking

  datatype Worker = Worker(delivery: Delivery, phase: Phase)

  /** Causes of failure, as classify_failure tells them apart. */
  datatype WorkError =
    | ProviderCancelled | ProviderRateLimited(after: Option<real>) | ProviderDenied | ProviderRejected | ProviderDown
    | TimedOut | PermissionDenied | InvalidValue | LostOwnership | OtherError

  function Classify(error: WorkError): ExecutionFailure {
    match error
    case ProviderCancelled => ExecutionFailure(CancelledFailure, false, None)
    case ProviderRateLimited(after) => ExecutionFailure(RateLimited, true, after)
    case ProviderDenied => ExecutionFailure(PermanentAuthorization, false, None)
    case ProviderRejected => ExecutionFailure(PermanentValidation, false, None)
    case ProviderDown => ExecutionFailure(RetryableProvider, true, None)
    case TimedOut => ExecutionFailure(TimeoutFailure, true, None)
    case PermissionDenied => ExecutionFailure(PermanentAuthorization, false, None)
    case InvalidValue => ExecutionFailure(PermanentValidation, false, None)
    case LostOwnership => ExecutionFailure(OwnershipLost, true, None)
    case OtherError => ExecutionFailure(RetryableInfrastructure, true, None)
  }

  // ----- Recoverers, replayers, approvers -----

  datatype RecoveryPhase =
    | Looking
    | GotEnvelope(envelope: Option<Envelope>)
    | GotLease(envelope: Option<Envelope>, lease: Option<Lease>)
    | Decided(envelope: Option<Envelope>, lease: Option<Lease>, terminal: bool)

  /** now is the clock sampled before discovery, or a caller's earlier time; pending are the candidates not yet
      handled. */
  datatype Recoverer = Recoverer(now: Time, pending: seq<MessageId>, phase: RecoveryPhase)

  datatype Approver = Approver(read: DeadLetter, approved: bool)

  // ----- The whole system -----

  /** How a message id was issued: its frozen snapshot, first attempt number, and whether a replay made it. */
  datatype Issue = Issue(taskId: TaskId, state: TaskState, attempt: nat, replay: bool)

  /** issued, used, everTerminal and claims are history: no step reads them except to keep ids fresh. */
  datatype System = System(
    store: Store,
    durable: map<TaskId, TaskState>,
    clock: Time,
    workers: map<ActorId, Worker>,
    recoverers: map<ActorId, Recoverer>,
    replayers: map<ActorId, DeadLetter>,
    approvers: map<ActorId, Approver>,
    issued: map<MessageId, Issue>,
    used: map<Token, MessageId>,
    everTerminal: set<TaskId>,
    claims: map<MessageId, nat>)

  const INITIAL: System :=
    System(EMPTY, map[], 0.0, map[], map[], map[], map[], map[], map[], {}, map[])

  /** How the worker learns what a call did: the answer arrives, the call raises after it took effect (and the
      renewal loop may have found the lease lost by then), or the worker is cancelled after it took effect. */
  datatype Answer = Heard | Unheard(lost: bool) | CutShort

  datatype WorkerStep =
    | ClaimNext(token: Token, sampled: Time)
    | RenewLease(sampled: Time)
    | RecordClaim(answer: Answer)
    | FinishHandler
    | RecordSuccess(answer: Answer)
    | AckSuccess(answer: Answer)
    | Interrupt
    | RecordInterrupted(answer: Answer)
    | Raise(error: WorkError)
    | RecordFailure
    | ScheduleFailure(now: Time, draw: Draw)
    | FinalizeFailure(id: RecordId)
    | AckFailure
    | CrashWorker

  datatype RecovererStep =
    | Discover(now: Time, page: seq<MessageId>, count: nat)
    | ReadEnvelope
    | ReadLease
    | ReadDurable(configured: bool)
    | RunRecovery(draw: Draw, id: RecordId)
    | CrashRecoverer

  datatype OperatorStep =
    | ReadForReplay(message: MessageId)
    | RunReplay(newMessage: MessageId)
    | ReadForApproval(message: MessageId, approved: bool)
    | RunApproval

  /** SetDurable stands for any other transaction on a task row: creation, queueing, cancellation, retry. */
  datatype Action =
    | Tick(to: Time)
    | SetDurable(task: TaskId, state: TaskState)
    | ExpireDedupe(key: DedupeKey)
    | EnqueueTask(key: DedupeKey, message: MessageId, task: TaskId, state: TaskState, priority: Priority)
    | CancelTask(task: TaskId)
    | PromoteDue(now: Time, count: nat, page: seq<MessageId>)
    | Work(actor: ActorId, work: WorkerStep)
    | Recover(actor: ActorId, recover: RecovererStep)
    | Operate(actor: ActorId, operate: OperatorStep)

  predicate WorkerIn(s: System, a: ActorId, phase: Phase) {
    a in s.workers && s.workers[a].phase == phase
  }

  predicate TaskEnded(s: System, task: TaskId) {
    task in s.durable && s.durable[task].Terminal()
  }

  predicate InTry(phase: Phase) {
    phase.Claimed? || phase.Running? || phase.Succeeded? || phase.Acking? || phase.NotAcked?
  }

  function WithPhase(s: System, a: ActorId, phase: Phase): System
    requires a in s.workers
  {
    s.(workers := s.workers[a := s.workers[a].(phase := phase)])
  }

  function WithDurable(s: System, task: TaskId, state: TaskState): System {
    s.(durable := s.durable[task := state],
       everTerminal := if state.Terminal() then s.everTerminal + {task} else s.everTerminal)
  }

  /** The dispatcher rebuilds the envelope from the delivery, without the claim's stamp. */
  function Rebuilt(d: Delivery): Envelope {
    Envelope(d.messageId, d.taskId, d.state, d.attempt, d.priority, None)
  }

  function DeliveryOf(e: Envelope, token: Token): Delivery {
    Delivery(e.messageId, e.taskId, e.state, token, e.attempt, e.priority)
  }

  function FailureDeadLetter(d: Delivery, f: ExecutionFailure, id: RecordId): DeadLetter {
    Finalizable(DeadLetter(id, d.messageId, d.taskId, Rebuilt(d), d.priority, d.attempt + 1, f.class_,
                           Some(d.token.worker), f.retryable, Pending, None, []))
  }

  function PlanOf(c: Config, r: Recoverer, draw: Draw, id: RecordId): RecoveryPlan
    requires r.phase.Decided? && r.pending != []
  {
    PlanRecovery(c.policy, c.maximumAttempts, r.pending[0], r.now, r.phase.envelope, r.phase.lease, draw, id)
  }

  ghost predicate WorkEnabled(c: Config, s: System, a: ActorId, x: WorkerStep) {
    match x
    case ClaimNext(token, sampled) =>
      a !in s.workers && token !in s.used && sampled <= s.clock < sampled + c.visibility
    case RenewLease(sampled) => a in s.workers && sampled <= s.clock < sampled + c.visibility
    case RecordClaim(_) =>
      WorkerIn(s, a, Claimed) && s.workers[a].delivery.taskId in s.durable
          && !TaskEnded(s, s.workers[a].delivery.taskId)
    case FinishHandler => WorkerIn(s, a, Running)
    case RecordSuccess(_) =>
      WorkerIn(s, a, Succeeded) && s.workers[a].delivery.taskId in s.durable
          && !s.durable[s.workers[a].delivery.taskId].Cancelled?
    case AckSuccess(_) => WorkerIn(s, a, Acking)
    case Interrupt => a in s.workers && InTry(s.workers[a].phase)
    case RecordInterrupted(_) =>
      (WorkerIn(s, a, Interrupting) || WorkerIn(s, a, NotAcked)) && s.workers[a].delivery.taskId in s.durable
    case Raise(_) => a in s.workers && InTry(s.workers[a].phase)
    case RecordFailure => a in s.workers && s.workers[a].phase.Failing? && s.workers[a].delivery.taskId in s.durable
    case ScheduleFailure(_, _) => a in s.workers && s.workers[a].phase.Dispatching?
    case FinalizeFailure(_) => a in s.workers && s.workers[a].phase.Finalizing?
    case AckFailure => WorkerIn(s, a, DispatchAcking)
    case CrashWorker => a in s.workers
  }

  ghost predicate RecoverEnabled(s: System, a: ActorId, x: RecovererStep) {
    match x
    case Discover(now, page, count) =>
      a !in s.recoverers && now <= s.clock && IsDuePage(s.store.leaseExpiry, now, count, page)
    case CrashRecoverer => a in s.recoverers
    case _ =>
      && a in s.recoverers && s.recoverers[a].pending != []
      && (x.ReadEnvelope? ==> s.recoverers[a].phase.Looking?)
      && (x.ReadLease? ==> s.recoverers[a].phase.GotEnvelope?)
      && (x.ReadDurable? ==> s.recoverers[a].phase.GotLease?)
      && (x.RunRecovery? ==> s.recoverers[a].phase.Decided?)
  }

  predicate OperateEnabled(s: System, a: ActorId, x: OperatorStep) {
    match x
    case ReadForReplay(m) => a !in s.replayers && m in s.store.dlq
    case RunReplay(m) => a in s.replayers && m !in s.issued
    case ReadForApproval(m, _) => a !in s.approvers && m in s.store.dlq
    case RunApproval => a in s.approvers
  }

  /** Which steps can happen.  Assumptions: the clock never runs back, and a claim or renewal reaches
      Redis before the deadline it computed from its own clock sample. */
  ghost predicate Enabled(c: Config, s: System, x: Action) {
    match x
    case Tick(to) => s.clock <= to
    case EnqueueTask(_, message, _, _, _) => message !in s.issued
    case PromoteDue(now, count, page) => IsDuePage(s.store.delayedDue, now, count, page)
    case Work(a, step) => WorkEnabled(c, s, a, step)
    case Recover(a, step) => RecoverEnabled(s, a, step)
    case Operate(a, step) => OperateEnabled(s, a, step)
    case _ => true
  }

  ghost function NextWork(c: Config, s: System, a: ActorId, x: WorkerStep): System
    requires |s.store.ready| == 4 && WorkEnabled(c, s, a, x)
  {
    match x
    case ClaimNext(token, sampled) => NextClaim(s, a, token, sampled, sampled + c.visibility)
    case RenewLease(sampled) => NextRenew(s, a, sampled + c.visibility)
    case RecordClaim(answer) =>
      WithPhase(WithDurable(s, s.workers[a].delivery.taskId, Executing), a, AfterAnswer(answer, Running))
    case FinishHandler => WithPhase(s, a, Succeeded)
    case RecordSuccess(answer) =>
      WithPhase(WithDurable(s, s.workers[a].delivery.taskId, Completed), a, AfterAnswer(answer, Acking))
    case AckSuccess(answer) => NextAckSuccess(s, a, answer)
    case Interrupt => WithPhase(s, a, Interrupting)
    case RecordInterrupted(answer) => NextInterrupted(s, a, answer)
    case Raise(error) => WithPhase(s, a, Failing(Classify(error)))
    case RecordFailure => NextFailure(s, a)
    case ScheduleFailure(now, draw) => NextSchedule(c, s, a, now, draw)
    case FinalizeFailure(id) => NextFinalize(s, a, id)
    case AckFailure => AfterAck(s, s.workers[a].delivery).(workers := s.workers - {a})
    case CrashWorker => s.(workers := s.workers - {a})
  }

  /** The recoverer after its next unlocked read. */
  function NextReader(s: System, a: ActorId, x: RecovererStep): Recoverer
    requires !x.RunRecovery? && !x.CrashRecoverer?
    requires !x.Discover? ==> a in s.recoverers && s.recoverers[a].pending != []
    requires x.ReadLease? ==> s.recoverers[a].phase.GotEnvelope?
    requires x.ReadDurable? ==> s.recoverers[a].phase.GotLease?
  {
    if x.Discover? then Recoverer(x.now, x.page, Looking)
    else
      var r := s.recoverers[a];
      var m := r.pending[0];
      if x.ReadEnvelope? then
        r.(phase := GotEnvelope(if m in s.store.inflight then Some(s.store.inflight[m]) else None))
      else if x.ReadLease? then
        r.(phase := GotLease(r.phase.envelope, if m in s.store.leases then Some(s.store.leases[m]) else None))
      else
        r.(phase := Decided(r.phase.envelope, r.phase.lease,
                            x.configured && r.phase.envelope.Some? && TaskEnded(s, r.phase.envelope.value.taskId)))
  }

  ghost function NextRecover(c: Config, s: System, a: ActorId, x: RecovererStep): System
    requires RecoverEnabled(s, a, x)
  {
    match x
    case RunRecovery(draw, id) => NextRecovery(c, s, a, draw, id)
    case CrashRecoverer => s.(recoverers := s.recoverers - {a})
    case _ => s.(recoverers := s.recoverers[a := NextReader(s, a, x)])
  }

  function NextOperate(s: System, a: ActorId, x: OperatorStep): System
    requires |s.store.ready| == 4 && OperateEnabled(s, a, x)
  {
    match x
    case ReadForReplay(m) => s.(replayers := s.replayers[a := s.store.dlq[m]])
    case RunReplay(m) => NextReplay(s, a, m)
    case ReadForApproval(m, approved) => s.(approvers := s.approvers[a := Approver(s.store.dlq[m], approved)])
    case RunApproval =>
      s.(store := WriteApproval(s.store, s.approvers[a].read, s.approvers[a].approved), approvers := s.approvers - {a})
  }

  ghost function Next(c: Config, s: System, x: Action): System
    requires |s.store.ready| == 4 && Enabled(c, s, x)
  {
    match x
    case Tick(to) => s.(clock := to)
    case SetDurable(task, state) => WithDurable(s, task, state)
    case ExpireDedupe(key) => s.(store := s.store.(dedupe := s.store.dedupe - {key}))
    case EnqueueTask(key, m, task, state, priority) => NextEnqueue(s, key, m, task, state, priority)
    case CancelTask(task) => s.(store := Cancel(s.store, task).0)
    case PromoteDue(_, _, page) => s.(store := PromoteAll(s.store, page, Tally(0, 0, 0)).0)
    case Work(a, step) => NextWork(c, s, a, step)
    case Recover(a, step) => NextRecover(c, s, a, step)
    case Operate(a, step) => NextOperate(s, a, step)
  }

  function NextEnqueue(s: System, key: DedupeKey, m: MessageId, task: TaskId, state: TaskState,
                       priority: Priority): System
    requires |s.store.ready| == 4
  {
    if key in s.store.dedupe then s
    else
      s.(store := Enqueue(s.store, key, Envelope(m, task, state, 0, priority, None)).0,
         issued := s.issued[m := Issue(task, state, 0, false)], claims := s.claims[m := 0])
  }

  /** A token that claimed nothing reached no worker and stays out of the history of used tokens. */
  function NextClaim(s: System, a: ActorId, token: Token, sampled: Time, deadline: Time): System
    requires |s.store.ready| == 4
  {
    Deliver(s, a, token, Claim(s.store, token, sampled, deadline))
  }

  /** Hands the outcome of a claim script to the worker. */
  function Deliver(s: System, a: ActorId, token: Token, outcome: (Store, Option<Envelope>)): System {
    match outcome.1
    case None => s.(store := outcome.0)
    case Some(e) =>
      s.(store := outcome.0,
         workers := s.workers[a := Worker(DeliveryOf(e, token), Claimed)],
         used := s.used[token := e.messageId],
         claims := s.claims[e.messageId := (if e.messageId in s.claims then s.claims[e.messageId] else 0) + 1])
  }

  function NextRenew(s: System, a: ActorId, deadline: Time): System
    requires a in s.workers
  {
    var d := s.workers[a].delivery;
    s.(store := Renew(s.store, d.messageId, d.token, d.taskId, deadline, d.token.worker).0)
  }

  function AfterAck(s: System, d: Delivery): System {
    s.(store := Acknowledge(s.store, d.messageId, d.token, d.token.worker).0)
  }

  function AckResult(s: System, d: Delivery): int {
    Acknowledge(s.store, d.messageId, d.token, d.token.worker).1
  }

  /** A lost lease hides every other cause of failure. */
  function Seen(lost: bool, error: WorkError): WorkError { if lost then LostOwnership else error }

  /** The worker's phase after a call in its try block, which goes on to next when it is answered. */
  function AfterAnswer(answer: Answer, next: Phase): Phase {
    match answer
    case Heard => next
    case Unheard(lost) => Failing(Classify(Seen(lost, OtherError)))
    case CutShort => Interrupting
  }

  function NextAckSuccess(s: System, a: ActorId, answer: Answer): System
    requires a in s.workers
  {
    var d := s.workers[a].delivery;
    if answer.Heard? && AckResult(s, d) == 1 then AfterAck(s, d).(workers := s.workers - {a})
    else WithPhase(AfterAck(s, d), a, AfterAnswer(answer, NotAcked))
  }

  function NextFailure(s: System, a: ActorId): System
    requires a in s.workers && s.workers[a].phase.Failing?
  {
    var f := s.workers[a].phase.failure;
    WithPhase(WithDurable(s, s.workers[a].delivery.taskId, if f.retryable then Queued else Failed), a, Dispatching(f))
  }

  function NextFinalize(s: System, a: ActorId, id: RecordId): System
    requires a in s.workers && s.workers[a].phase.Finalizing?
  {
    var w := s.workers[a];
    WithPhase(s.(store := Finalize(s.store, FailureDeadLetter(w.delivery, w.phase.failure, id)).0), a, DispatchAcking)
  }

  /** The record made while handling a cancellation ends the worker; in the try block only its answer does. */
  function NextInterrupted(s: System, a: ActorId, answer: Answer): System
    requires a in s.workers && s.workers[a].delivery.taskId in s.durable
  {
    var task := s.workers[a].delivery.taskId;
    var recorded := if TaskEnded(s, task) then s else WithDurable(s, task, Queued);
    if answer.Heard? || s.workers[a].phase.Interrupting? then recorded.(workers := s.workers - {a})
    else WithPhase(recorded, a, AfterAnswer(answer, NotAcked))
  }

  function NextSchedule(c: Config, s: System, a: ActorId, now: Time, draw: Draw): System
    requires a in s.workers && s.workers[a].phase.Dispatching?
  {
    var w := s.workers[a];
    match FailureRecord(c.policy, Rebuilt(w.delivery), w.phase.failure, now, now, draw)
    case None => WithPhase(s, a, Finalizing(w.phase.failure))
    case Some(r) => WithPhase(s.(store := Schedule(s.store, r).0), a, DispatchAcking)
  }

  function NextRecovery(c: Config, s: System, a: ActorId, draw: Draw, id: RecordId): System
    requires a in s.recoverers && s.recoverers[a].phase.Decided? && s.recoverers[a].pending != []
  {
    var r := s.recoverers[a];
    s.(store := RecoverOne(s.store, r.pending[0], r.now, r.phase.terminal, PlanOf(c, r, draw, id)).0,
       recoverers := s.recoverers[a := r.(pending := r.pending[1..], phase := Looking)])
  }

  function NextReplay(s: System, a: ActorId, m: MessageId): System
    requires |s.store.ready| == 4 && a in s.replayers
  {
    var read := s.replayers[a];
    var outcome := Replay(s.store, read.messageId, m, read.(replayedAs := Some(m)));
    if outcome.1.Replayed? then
      var e := s.store.dlq[read.messageId].envelope;
      s.(store := outcome.0, replayers := s.replayers - {a},
         issued := s.issued[m := Issue(e.taskId, e.state, e.attempt, true)], claims := s.claims[m := 0])
    else
      s.(replayers := s.replayers - {a})
  }

  // ----- Runs -----

  ghost predicate Run(c: Config, s: System, xs: seq<Action>)
    requires |s.store.ready| == 4
    decreases xs
  {
    xs != [] ==>
      && Enabled(c, s, xs[0])
      && |Next(c, s, xs[0]).store.ready| == 4
      && Run(c, Next(c, s, xs[0]), xs[1..])
  }

  ghost function After(c: Config, s: System, xs: seq<Action>): System
    requires |s.store.ready| == 4 && Run(c, s, xs)
    decreases xs
  {
    if xs == [] then s else After(c, Next(c, s, xs[0]), xs[1..])
  }

  /** No lease reaches the delayed hash or the dead-letter hash except through recovery. */
  predicate CrashOnly(x: Action) {
    x.Work? ==> !x.work.ScheduleFailure? && !x.work.FinalizeFailure?
  }
}
