/** The worker's code for one delivery, call by call, over the mutable queue and the durable task rows.
    Every call may raise before or after its effect.  Whatever happens, what it does is a run of that
    worker's steps in DeliveryProtocol. */
module WorkerRuntimes {
  import opened Options
  import opened QueueTypes
  import opened QueueScripts
  import opened RedisQueues
  import opened RetryPolicies
  import opened DeliveryProtocol

  /** A call: answered, raised without effect, raised although it took effect, or cancelled while awaited, after
      or before its effect. */
  datatype Fault = Fine | Unsent | Unanswered | Cancelling(done: bool)
  {
    predicate TakesEffect() { Fine? || Unanswered? || (Cancelling? && done) }

    predicate Raises() { Unsent? || Unanswered? }

    /** How a call that took effect is answered; lost says whether the lease was found lost by then. */
    function Answered(lost: bool): Answer
      requires TakesEffect()
    {
      if Fine? then Heard else if Unanswered? then Unheard(lost) else CutShort
    }
  }

  // ----- Durable rows -----

  class ExecutionGateway {
    var states: map<TaskId, TaskState>

    constructor (states: map<TaskId, TaskState>)
      ensures this.states == states
    {
      this.states := states;
    }

    method RecordClaim(task: TaskId, fault: Fault) returns (done: bool)
      modifies this
      ensures done <==> fault.TakesEffect() && task in old(states) && !old(states)[task].Terminal()
      ensures states == if done then old(states)[task := Executing] else old(states)
    {
      done := fault.TakesEffect() && task in states && !states[task].Terminal();
      if done {
        states := states[task := Executing];
      }
    }

    method RecordSuccess(task: TaskId, fault: Fault) returns (done: bool)
      modifies this
      ensures done <==> fault.TakesEffect() && task in old(states) && !old(states)[task].Cancelled?
      ensures states == if done then old(states)[task := Completed] else old(states)
    {
      done := fault.TakesEffect() && task in states && !states[task].Cancelled?;
      if done {
        states := states[task := Completed];
      }
    }

    /** No guard on the current state. */
    method RecordFailure(task: TaskId, f: ExecutionFailure, fault: Fault) returns (done: bool)
      modifies this
      ensures done <==> fault.TakesEffect() && task in old(states)
      ensures states == if done then old(states)[task := if f.retryable then Queued else Failed] else old(states)
    {
      done := fault.TakesEffect() && task in states;
      if done {
        states := states[task := if f.retryable then Queued else Failed];
      }
    }

    method RecordInterrupted(task: TaskId, fault: Fault) returns (done: bool)
      modifies this
      ensures done <==> fault.TakesEffect() && task in old(states)
      ensures states == if done && !old(states)[task].Terminal() then old(states)[task := Queued] else old(states)
    {
      done := fault.TakesEffect() && task in states;
      if done && !states[task].Terminal() {
        states := states[task := Queued];
      }
    }
  }

  // ----- Failure delivery -----

  /** The clock, the jitter and the record id that the dispatcher draws, and what its three calls meet. */
  datatype DispatchWeather = DispatchWeather(now: Time, draw: Draw, id: RecordId, schedule: Fault, finalize: Fault,
      ack: Fault)

  /** How far the dispatcher got: calls of it that took effect, and whether it returned. */
  datatype Dispatched = Dispatched(exhausted: bool, scheduled: bool, finalized: bool, acknowledged: bool,
      returned: bool)

  class QueueFailureDispatcher {
    const queue: RedisQueue
    const policy: RetryPolicy

    constructor (queue: RedisQueue, policy: RetryPolicy)
      ensures this.queue == queue && this.policy == policy
    {
      this.queue := queue;
      this.policy := policy;
    }

    /** Schedule a retry or file a dead letter, and only then acknowledge: if the acknowledgement was sent, the
        message has another copy or its task is cancelled, so releasing the lease loses nothing. */
    method Dispatch(d: Delivery, f: ExecutionFailure, w: DispatchWeather) returns (outcome: Dispatched)
      requires queue.Valid()
      modifies queue
      ensures queue.Valid()
      ensures outcome == Progress(policy, d, f, w)
      ensures queue.Value() == Delivered(policy, old(queue.Value()), d, f, w)
      ensures outcome.acknowledged ==>
                d.taskId in queue.cancelled || d.messageId in queue.delayed || d.messageId in queue.dlq
      ensures outcome.returned ==> outcome.acknowledged
      ensures Reached(policy, d, f, w, outcome)
      ensures RetryFiled(policy, old(queue.Value()), queue.Value(), d, f, w, outcome)
      ensures LetterFiled(old(queue.Value()), queue.Value(), d, f, w, outcome)
      ensures LeaseReleased(old(queue.Value()), queue.Value(), d, outcome)
    {
      DeliveredMeans(policy, queue.Value(), d, f, w);
      hide Reached, RetryFiled, LetterFiled, LeaseReleased;
      hide FailureRecord, FailureDeadLetter, Schedule, Finalize, Acknowledge;
      var record := FailureRecord(policy, Rebuilt(d), f, w.now, w.now, w.draw);
      outcome := Dispatched(record.None?, false, false, false, false);
      if record.Some? && w.schedule.TakesEffect() {
        var _ := queue.Schedule(record.value);
      }
      outcome := outcome.(scheduled := w.schedule.TakesEffect());
      if !w.schedule.Fine? {
        return;
      }
      if record.None? {
        if w.finalize.TakesEffect() {
          var _ := queue.Finalize(FailureDeadLetter(d, f, w.id));
        }
        outcome := outcome.(finalized := w.finalize.TakesEffect());
        if !w.finalize.Fine? {
          return;
        }
      }
      FiledLeavesCopy(policy, old(queue.Value()), d, f, w);
      if w.ack.TakesEffect() {
        AckKeepsCopies(queue.Value(), d);
        var _ := queue.Acknowledge(d.messageId, d.token, d.token.worker);
      }
      outcome := outcome.(acknowledged := w.ack.TakesEffect(), returned := w.ack.Fine?);
    }
  }

  // ----- A dispatch, field by field -----

  /** The calls that are reached and take effect; the retry budget is spent when no retry is affordable. */
  predicate Reached(policy: RetryPolicy, d: Delivery, f: ExecutionFailure, w: DispatchWeather, o: Dispatched) {
    && (o.exhausted <==> !Affordable(policy, d.attempt + 1, f.retryable, f.retryAfter, w.draw))
    && (o.scheduled <==> w.schedule.TakesEffect())
    && (o.finalized <==> w.schedule.Fine? && o.exhausted && w.finalize.TakesEffect())
    && (o.acknowledged <==> w.schedule.Fine? && (o.exhausted ==> w.finalize.Fine?) && w.ack.TakesEffect())
    && (o.returned <==> w.schedule.Fine? && (o.exhausted ==> w.finalize.Fine?) && w.ack.Fine?)
  }

  /** The dispatcher's retry, due after the wait of the attempt that failed: the server's wish, or else the
      capped exponential within its jitter band (RetryPolicies.WaitInBand). */
  predicate RetryByFailure(policy: RetryPolicy, r: RetryRecord, d: Delivery, f: ExecutionFailure, now: Time,
                           draw: Draw) {
    && r.messageId == d.messageId && r.taskId == d.taskId
    && r.envelope == Envelope(d.messageId, d.taskId, d.state, d.attempt + 1, d.priority, None)
    && r.priority == d.priority && r.attempt == d.attempt + 1 && r.class_ == f.class_
    && r.dueAt == now + Wait(policy, d.attempt + 1, f.retryAfter, draw)
    && r.firstFailedAt == now && r.latestFailedAt == now
    && r.history == [HistoryEntry(d.attempt + 1, f.class_, now, None, None)]
  }

  /** The dispatcher's dead letter: a replay is possible only for a retryable failure, and not approved. */
  predicate DeadByFailure(r: DeadLetter, d: Delivery, f: ExecutionFailure, id: RecordId) {
    && r.id == id && r.messageId == d.messageId && r.taskId == d.taskId
    && r.envelope == Envelope(d.messageId, d.taskId, d.state, d.attempt, d.priority, None)
    && r.priority == d.priority && r.attempts == d.attempt + 1 && r.class_ == f.class_
    && r.worker == Some(d.token.worker) && r.approval == Pending && r.replayedAs == None && r.history == []
    && (r.eligible <==> f.retryable && f.class_ !in {PermanentAuthorization, PermanentValidation})
  }

  /** An affordable retry is filed unless the task is cancelled or the message delayed already. */
  predicate RetryFiled(policy: RetryPolicy, st: Store, u: Store, d: Delivery, f: ExecutionFailure, w: DispatchWeather,
                       o: Dispatched) {
    if o.scheduled && !o.exhausted && d.taskId !in st.cancelled && d.messageId !in st.delayed then
      && d.messageId in u.delayed && u.delayed == st.delayed[d.messageId := u.delayed[d.messageId]]
      && u.delayed[d.messageId].Scheduled?
      && RetryByFailure(policy, u.delayed[d.messageId].record, d, f, w.now, w.draw)
      && u.delayedDue == st.delayedDue[d.messageId := u.delayed[d.messageId].record.dueAt]
    else u.delayed == st.delayed && u.delayedDue == st.delayedDue
  }

  /** A spent budget leaves a dead letter, unless there is one already. */
  predicate LetterFiled(st: Store, u: Store, d: Delivery, f: ExecutionFailure, w: DispatchWeather, o: Dispatched) {
    if o.finalized && d.messageId !in st.dlq then
      && d.messageId in u.dlq && u.dlq == st.dlq[d.messageId := u.dlq[d.messageId]]
      && DeadByFailure(u.dlq[d.messageId], d, f, w.id)
      && u.dlqTaskIndex == st.dlqTaskIndex[d.taskId := d.messageId]
      && u.dlqRecordIndex == st.dlqRecordIndex[w.id := d.messageId]
    else u.dlq == st.dlq && u.dlqTaskIndex == st.dlqTaskIndex && u.dlqRecordIndex == st.dlqRecordIndex
  }

  /** The acknowledgement releases the lease of its holder, if the task may still run; nothing else changes. */
  predicate LeaseReleased(st: Store, u: Store, d: Delivery, o: Dispatched) {
    && u.ready == st.ready && u.cancelled == st.cancelled && u.taskIndex == st.taskIndex && u.dedupe == st.dedupe
    && if o.acknowledged && d.messageId in st.leases && st.leases[d.messageId].token == d.token
          && st.leases[d.messageId].worker == d.token.worker && st.leases[d.messageId].taskId !in st.cancelled
       then
         && u.inflight == st.inflight - {d.messageId} && u.leases == st.leases - {d.messageId}
         && u.leaseExpiry == st.leaseExpiry - {d.messageId}
       else u.inflight == st.inflight && u.leases == st.leases && u.leaseExpiry == st.leaseExpiry
  }

  lemma DeliveredMeans(policy: RetryPolicy, st: Store, d: Delivery, f: ExecutionFailure, w: DispatchWeather)
    ensures var u := Delivered(policy, st, d, f, w);
            var o := Progress(policy, d, f, w);
            && Reached(policy, d, f, w, o) && RetryFiled(policy, st, u, d, f, w, o)
            && LetterFiled(st, u, d, f, w, o) && LeaseReleased(st, u, d, o)
  {
    FiledMeans(policy, st, d, f, w);
    var filed := Filed(policy, st, d, f, w);
    hide Filed, Progress, RetryByFailure, DeadByFailure;
    if Acknowledge(filed, d.messageId, d.token, d.token.worker).1 == 1 {
    } else {
    }
  }

  lemma RecordMeans(policy: RetryPolicy, d: Delivery, f: ExecutionFailure, now: Time, draw: Draw)
    ensures var r := FailureRecord(policy, Rebuilt(d), f, now, now, draw);
            && (r.Some? <==> Affordable(policy, d.attempt + 1, f.retryable, f.retryAfter, draw))
            && (r.Some? ==>
                  && RetryByFailure(policy, r.value, d, f, now, draw)
                  && r.value.messageId == d.messageId && r.value.taskId == d.taskId)
  {
    DecideIsAffordable(policy, d.attempt + 1, f.retryable, f.retryAfter, draw);
    hide Decide, Affordable, Wait;
  }

  lemma LetterMeans(d: Delivery, f: ExecutionFailure, id: RecordId)
    ensures DeadByFailure(FailureDeadLetter(d, f, id), d, f, id)
  {
  }

  lemma FiledMeans(policy: RetryPolicy, st: Store, d: Delivery, f: ExecutionFailure, w: DispatchWeather)
    ensures var u := Filed(policy, st, d, f, w);
            var o := Progress(policy, d, f, w);
            && Reached(policy, d, f, w, o) && RetryFiled(policy, st, u, d, f, w, o) && LetterFiled(st, u, d, f, w, o)
            && u == st.(delayed := u.delayed, delayedDue := u.delayedDue, dlq := u.dlq,
                        dlqTaskIndex := u.dlqTaskIndex, dlqRecordIndex := u.dlqRecordIndex)
  {
    RecordMeans(policy, d, f, w.now, w.draw);
    LetterMeans(d, f, w.id);
    hide FailureRecord, FailureDeadLetter, Affordable, RetryByFailure, DeadByFailure, Schedule, Finalize;
    match FailureRecord(policy, Rebuilt(d), f, w.now, w.now, w.draw)
    case None =>
      if Progress(policy, d, f, w).finalized {
        LetterEffect(st, FailureDeadLetter(d, f, w.id), d, f, w.id);
      }
    case Some(r) =>
      if Progress(policy, d, f, w).scheduled {
        RetryEffect(st, r);
      }
  }

  lemma LetterEffect(st: Store, r: DeadLetter, d: Delivery, f: ExecutionFailure, id: RecordId)
    requires DeadByFailure(r, d, f, id)
    ensures var u := Finalize(st, r).0;
            && u == (if d.messageId in st.dlq then st
                     else st.(dlq := st.dlq[d.messageId := r],
                              dlqTaskIndex := st.dlqTaskIndex[d.taskId := d.messageId],
                              dlqRecordIndex := st.dlqRecordIndex[id := d.messageId]))
  {
  }

  lemma RetryEffect(st: Store, r: RetryRecord)
    ensures Schedule(st, r).0 ==
            if r.taskId in st.cancelled || r.messageId in st.delayed then st
            else st.(delayed := st.delayed[r.messageId := Scheduled(r)],
                     delayedDue := st.delayedDue[r.messageId := r.dueAt])
  {
  }

  /** Which calls are reached and take effect. */
  function Progress(policy: RetryPolicy, d: Delivery, f: ExecutionFailure, w: DispatchWeather): Dispatched {
    var exhausted := FailureRecord(policy, Rebuilt(d), f, w.now, w.now, w.draw).None?;
    var filed := w.schedule.Fine? && (exhausted ==> w.finalize.Fine?);
    Dispatched(exhausted, w.schedule.TakesEffect(), w.schedule.Fine? && exhausted && w.finalize.TakesEffect(),
               filed && w.ack.TakesEffect(), filed && w.ack.Fine?)
  }

  /** The queue once the failure is scheduled or finalized, as far as that was reached. */
  function Filed(policy: RetryPolicy, st: Store, d: Delivery, f: ExecutionFailure, w: DispatchWeather): Store {
    match FailureRecord(policy, Rebuilt(d), f, w.now, w.now, w.draw)
    case None => if Progress(policy, d, f, w).finalized then Finalize(st, FailureDeadLetter(d, f, w.id)).0 else st
    case Some(r) => if Progress(policy, d, f, w).scheduled then Schedule(st, r).0 else st
  }

  function Delivered(policy: RetryPolicy, st: Store, d: Delivery, f: ExecutionFailure, w: DispatchWeather): Store {
    var filed := Filed(policy, st, d, f, w);
    if Progress(policy, d, f, w).acknowledged then Acknowledge(filed, d.messageId, d.token, d.token.worker).0 else filed
  }

  /** Another copy, or no need of one. */
  predicate CopyLeft(st: Store, d: Delivery) {
    d.taskId in st.cancelled || d.messageId in st.delayed || d.messageId in st.dlq
  }

  lemma FiledLeavesCopy(policy: RetryPolicy, st: Store, d: Delivery, f: ExecutionFailure, w: DispatchWeather)
    requires var p := Progress(policy, d, f, w); if p.exhausted then p.finalized else p.scheduled
    ensures CopyLeft(Filed(policy, st, d, f, w), d)
  {
    hide FailureRecord;
    RecordNames(policy, d, f, w);
    match FailureRecord(policy, Rebuilt(d), f, w.now, w.now, w.draw)
    case None => FinalizeLeavesCopy(st, FailureDeadLetter(d, f, w.id), d);
    case Some(r) => ScheduleLeavesCopy(st, r, d);
  }

  lemma RecordNames(policy: RetryPolicy, d: Delivery, f: ExecutionFailure, w: DispatchWeather)
    ensures var r := FailureRecord(policy, Rebuilt(d), f, w.now, w.now, w.draw);
            r.Some? ==> r.value.messageId == d.messageId && r.value.taskId == d.taskId
  {
    hide Decide;
  }

  lemma FinalizeLeavesCopy(st: Store, r: DeadLetter, d: Delivery)
    requires r.messageId == d.messageId
    ensures CopyLeft(Finalize(st, r).0, d)
  {
  }

  lemma ScheduleLeavesCopy(st: Store, r: RetryRecord, d: Delivery)
    requires r.messageId == d.messageId && r.taskId == d.taskId
    ensures CopyLeft(Schedule(st, r).0, d)
  {
  }

  lemma AckKeepsCopies(st: Store, d: Delivery)
    ensures CopyLeft(Acknowledge(st, d.messageId, d.token, d.token.worker).0, d) <==> CopyLeft(st, d)
  {
    if Acknowledge(st, d.messageId, d.token, d.token.worker).1 == 1 {
    } else {
    }
  }

  // ----- One worker's steps -----

  ghost predicate WorkRun(c: Config, s: System, a: ActorId, xs: seq<WorkerStep>)
    requires |s.store.ready| == 4
    decreases |xs|, 0
  {
    xs != [] ==>
      var before := xs[..|xs| - 1];
      && WorkRun(c, s, a, before)
      && |WorkAfter(c, s, a, before).store.ready| == 4
      && WorkEnabled(c, WorkAfter(c, s, a, before), a, xs[|xs| - 1])
  }

  ghost function WorkAfter(c: Config, s: System, a: ActorId, xs: seq<WorkerStep>): System
    requires |s.store.ready| == 4 && WorkRun(c, s, a, xs)
    decreases |xs|, 1
  {
    if xs == [] then s else NextWork(c, WorkAfter(c, s, a, xs[..|xs| - 1]), a, xs[|xs| - 1])
  }

  /** A worker's steps are actions of the protocol. */
  function Actions(a: ActorId, xs: seq<WorkerStep>): seq<Action> {
    if xs == [] then [] else Actions(a, xs[..|xs| - 1]) + [Work(a, xs[|xs| - 1])]
  }

  lemma {:induction false} RunAppend(c: Config, s: System, xs: seq<Action>, y: Action)
    requires |s.store.ready| == 4 && Run(c, s, xs) && |After(c, s, xs).store.ready| == 4
             && Enabled(c, After(c, s, xs), y)
    requires |Next(c, After(c, s, xs), y).store.ready| == 4
    ensures Run(c, s, xs + [y]) && After(c, s, xs + [y]) == Next(c, After(c, s, xs), y)
    decreases xs
  {
    hide Next, Enabled;
    if xs == [] {
      assert [] + [y] == [y] && [y][1..] == [];
      assert Run(c, Next(c, s, y), []);
    } else {
      RunAppend(c, Next(c, s, xs[0]), xs[1..], y);
      assert (xs + [y])[1..] == xs[1..] + [y];
    }
  }

  lemma {:induction false} StepsAreARun(c: Config, s: System, a: ActorId, xs: seq<WorkerStep>)
    requires |s.store.ready| == 4 && WorkRun(c, s, a, xs) && |WorkAfter(c, s, a, xs).store.ready| == 4
    ensures Run(c, s, Actions(a, xs)) && After(c, s, Actions(a, xs)) == WorkAfter(c, s, a, xs)
    decreases |xs|
  {
    hide NextWork, WorkEnabled;
    if xs == [] {
    } else {
      var before := xs[..|xs| - 1];
      StepsAreARun(c, s, a, before);
      RunAppend(c, s, Actions(a, before), Work(a, xs[|xs| - 1]));
    }
  }

  // ----- What each step does -----

  /** The parts of the system that the worker's code reads and writes. */
  ghost predicate Becomes(t: System, store: Store, durable: map<TaskId, TaskState>, workers: map<ActorId, Worker>) {
    t.store == store && t.durable == durable && t.workers == workers
  }

  lemma TakeRecordClaim(c: Config, s: System, a: ActorId, d: Delivery, answer: Answer)
    requires |s.store.ready| == 4 && a in s.workers && s.workers[a] == Worker(d, Claimed)
    requires d.taskId in s.durable && !s.durable[d.taskId].Terminal()
    ensures WorkEnabled(c, s, a, RecordClaim(answer))
    ensures Becomes(NextWork(c, s, a, RecordClaim(answer)), s.store, s.durable[d.taskId := Executing],
                    s.workers[a := Worker(d, AfterAnswer(answer, Running))])
  {
  }

  lemma TakeRaise(c: Config, s: System, a: ActorId, d: Delivery, error: WorkError)
    requires |s.store.ready| == 4 && a in s.workers && s.workers[a].delivery == d && InTry(s.workers[a].phase)
    ensures WorkEnabled(c, s, a, Raise(error))
    ensures Becomes(NextWork(c, s, a, Raise(error)), s.store, s.durable,
            s.workers[a := Worker(d, Failing(Classify(error)))])
  {
  }

  lemma TakeInterrupt(c: Config, s: System, a: ActorId, d: Delivery)
    requires |s.store.ready| == 4 && a in s.workers && s.workers[a].delivery == d && InTry(s.workers[a].phase)
    ensures WorkEnabled(c, s, a, Interrupt)
    ensures Becomes(NextWork(c, s, a, Interrupt), s.store, s.durable, s.workers[a := Worker(d, Interrupting)])
  {
  }

  lemma TakeFinishHandler(c: Config, s: System, a: ActorId, d: Delivery)
    requires |s.store.ready| == 4 && a in s.workers && s.workers[a] == Worker(d, Running)
    ensures WorkEnabled(c, s, a, FinishHandler)
    ensures Becomes(NextWork(c, s, a, FinishHandler), s.store, s.durable, s.workers[a := Worker(d, Succeeded)])
  {
  }

  lemma TakeRecordSuccess(c: Config, s: System, a: ActorId, d: Delivery, answer: Answer)
    requires |s.store.ready| == 4 && a in s.workers && s.workers[a] == Worker(d, Succeeded)
    requires d.taskId in s.durable && !s.durable[d.taskId].Cancelled?
    ensures WorkEnabled(c, s, a, RecordSuccess(answer))
    ensures Becomes(NextWork(c, s, a, RecordSuccess(answer)), s.store, s.durable[d.taskId := Completed],
                    s.workers[a := Worker(d, AfterAnswer(answer, Acking))])
  {
  }

  lemma TakeAckSuccess(c: Config, s: System, a: ActorId, d: Delivery, answer: Answer)
    requires |s.store.ready| == 4 && a in s.workers && s.workers[a] == Worker(d, Acking)
    ensures WorkEnabled(c, s, a, AckSuccess(answer))
    ensures var (store, result) := Acknowledge(s.store, d.messageId, d.token, d.token.worker);
            Becomes(NextWork(c, s, a, AckSuccess(answer)), store, s.durable,
                    if answer.Heard? && result == 1 then s.workers - {a}
                        else s.workers[a := Worker(d, AfterAnswer(answer, NotAcked))])
  {
    hide AckResult, AfterAck, AfterAnswer;
    AckParts(s, d);
    if answer.Heard? && AckResult(s, d) == 1 {
    } else {
    }
  }

  lemma AckParts(s: System, d: Delivery)
    ensures var (store, result) := Acknowledge(s.store, d.messageId, d.token, d.token.worker);
            AckResult(s, d) == result && Becomes(AfterAck(s, d), store, s.durable, s.workers)
  {
    hide Acknowledge;
  }

  lemma TakeRecordInterrupted(c: Config, s: System, a: ActorId, d: Delivery, answer: Answer)
    requires |s.store.ready| == 4 && a in s.workers && s.workers[a].delivery == d && d.taskId in s.durable
    requires s.workers[a].phase.Interrupting? || s.workers[a].phase.NotAcked?
    ensures WorkEnabled(c, s, a, WorkerStep.RecordInterrupted(answer))
    ensures Becomes(NextWork(c, s, a, WorkerStep.RecordInterrupted(answer)), s.store,
                    if s.durable[d.taskId].Terminal() then s.durable else s.durable[d.taskId := Queued],
                    if answer.Heard? || s.workers[a].phase.Interrupting? then s.workers - {a}
                    else s.workers[a := Worker(d, AfterAnswer(answer, NotAcked))])
  {
    hide AfterAnswer;
  }

  lemma TakeRecordFailure(c: Config, s: System, a: ActorId, d: Delivery, f: ExecutionFailure)
    requires |s.store.ready| == 4 && a in s.workers && s.workers[a] == Worker(d, Failing(f)) && d.taskId in s.durable
    ensures WorkEnabled(c, s, a, WorkerStep.RecordFailure)
    ensures Becomes(NextWork(c, s, a, WorkerStep.RecordFailure), s.store,
                    s.durable[d.taskId := if f.retryable then Queued else Failed],
                        s.workers[a := Worker(d, Dispatching(f))])
  {
  }

  lemma TakeSchedule(c: Config, s: System, a: ActorId, d: Delivery, f: ExecutionFailure, now: Time, draw: Draw)
    requires |s.store.ready| == 4 && a in s.workers && s.workers[a] == Worker(d, Dispatching(f))
    ensures WorkEnabled(c, s, a, ScheduleFailure(now, draw))
    ensures var record := FailureRecord(c.policy, Rebuilt(d), f, now, now, draw);
            Becomes(NextWork(c, s, a, ScheduleFailure(now, draw)),
                    if record.Some? then Schedule(s.store, record.value).0 else s.store, s.durable,
                    s.workers[a := Worker(d, if record.Some? then DispatchAcking else Finalizing(f))])
  {
    hide FailureRecord, Schedule;
    match FailureRecord(c.policy, Rebuilt(d), f, now, now, draw)
    case None =>
    case Some(_) =>
  }

  lemma TakeFinalize(c: Config, s: System, a: ActorId, d: Delivery, f: ExecutionFailure, id: RecordId)
    requires |s.store.ready| == 4 && a in s.workers && s.workers[a] == Worker(d, Finalizing(f))
    ensures WorkEnabled(c, s, a, FinalizeFailure(id))
    ensures Becomes(NextWork(c, s, a, FinalizeFailure(id)), Finalize(s.store, FailureDeadLetter(d, f, id)).0, s.durable,
                    s.workers[a := Worker(d, DispatchAcking)])
  {
    hide Finalize, FailureDeadLetter;
  }

  lemma TakeAckFailure(c: Config, s: System, a: ActorId, d: Delivery)
    requires |s.store.ready| == 4 && a in s.workers && s.workers[a] == Worker(d, DispatchAcking)
    ensures WorkEnabled(c, s, a, AckFailure)
    ensures Becomes(NextWork(c, s, a, AckFailure), Acknowledge(s.store, d.messageId, d.token, d.token.worker).0,
                    s.durable, s.workers - {a})
  {
    hide Acknowledge;
  }

  lemma TakeCrash(c: Config, s: System, a: ActorId)
    requires |s.store.ready| == 4 && a in s.workers
    ensures WorkEnabled(c, s, a, CrashWorker)
    ensures Becomes(NextWork(c, s, a, CrashWorker), s.store, s.durable, s.workers - {a})
  {
  }

  // ----- The runtime -----

  /** The handler returns, is cancelled (or finds its lease lost or its task cancelled), or raises. */
  datatype HandlerEnd = HandlerReturned | HandlerCancelled | HandlerRaised(error: WorkError)

  /** What the awaits of one execution meet; refused is the record after a refused acknowledgement, interrupt the
      one while handling a cancellation.  ownershipLost is what the renewal loop has found by the time of an error. */
  datatype Weather = Weather(
    ownershipLost: bool, claim: Fault, handler: HandlerEnd, success: Fault, ack: Fault, refused: Fault,
    interrupt: Fault, failure: Fault, dispatch: DispatchWeather)

  datatype Ending = Settled | Interrupted | Raising(error: WorkError)

  // ----- What one execution comes to -----

  function RowOf(states: map<TaskId, TaskState>, task: TaskId): Option<TaskState> {
    if task in states then Some(states[task]) else None
  }

  /** A task that was never created or is finished cannot be claimed. */
  predicate Claimable(row: Option<TaskState>) {
    row.Some? && row.value !in {Completed, Failed, TaskState.Cancelled}
  }

  /** How an awaited call that was not answered leaves the try block; a lost lease hides every other cause. */
  function Broken(fault: Fault, lost: bool): Ending {
    if fault.Cancelling? then Interrupted else Raising(if lost then LostOwnership else OtherError)
  }

  /** record_claim and the handler; none means that the handler returned. */
  function Tried(w: Weather, row: Option<TaskState>): Option<Ending> {
    if !(w.claim.Fine? && Claimable(row)) then Some(Broken(w.claim, w.ownershipLost))
    else
      match w.handler
      case HandlerReturned => None
      case HandlerCancelled => Some(Interrupted)
      case HandlerRaised(error) => Some(Raising(if w.ownershipLost then LostOwnership else error))
  }

  lemma TriedOn(w: Weather, row: Option<TaskState>)
    ensures Tried(w, row).None? ==> w.claim.TakesEffect() && Claimable(row)
  {
  }

  /** record_success, the acknowledgement, and the record when it is refused; released is the script's answer. */
  function Finished(w: Weather, released: bool): Ending {
    if !w.success.Fine? then Broken(w.success, w.ownershipLost)
    else if !w.ack.Fine? then Broken(w.ack, w.ownershipLost)
    else if released || w.refused.Fine? then Settled
    else Broken(w.refused, w.ownershipLost)
  }

  /** Does the lease belong to the delivery, and may its task still run? */
  predicate Releases(st: Store, d: Delivery) {
    && d.messageId in st.leases && st.leases[d.messageId].token == d.token
    && st.leases[d.messageId].worker == d.token.worker && st.leases[d.messageId].taskId !in st.cancelled
  }

  function EndingOf(w: Weather, row: Option<TaskState>, st: Store, d: Delivery): Ending {
    var tried := Tried(w, row);
    if tried.Some? then tried.value else Finished(w, Releases(st, d))
  }

  /** The queue after the try block. */
  function TriedStore(w: Weather, row: Option<TaskState>, st: Store, d: Delivery): Store {
    if Tried(w, row).None? && w.success.Fine? && w.ack.TakesEffect() && Releases(st, d)
    then st.(inflight := st.inflight - {d.messageId}, leases := st.leases - {d.messageId},
             leaseExpiry := st.leaseExpiry - {d.messageId})
    else st
  }

  /** The task row after the try block. */
  function TriedRow(w: Weather, row: Option<TaskState>): Option<TaskState> {
    if Tried(w, row).None? && w.success.TakesEffect() then Some(Completed)
    else if w.claim.TakesEffect() && Claimable(row) then Some(Executing)
    else row
  }

  /** The task row in the end: a cancelled execution puts unfinished tasks back, a failed one queues or fails
      them, finished or not. */
  function FinalRow(w: Weather, row: Option<TaskState>, ending: Ending): Option<TaskState> {
    match ending
    case Settled => row
    case Interrupted => if w.interrupt.TakesEffect() && Claimable(row) then Some(Queued) else row
    case Raising(error) =>
      if w.failure.TakesEffect() && row.Some? then Some(if Classify(error).retryable then Queued else Failed) else row
  }

  /** The queue in the end: a failure that was recorded is dispatched. */
  function FinalStore(policy: RetryPolicy, w: Weather, row: Option<TaskState>, st: Store, d: Delivery,
                      ending: Ending): Store {
    if ending.Raising? && w.failure.Fine? && row.Some? then Delivered(policy, st, d, Classify(ending.error), w.dispatch)
    else st
  }

  /** No call fails. */
  predicate Calm(w: Weather) {
    && w.claim.Fine? && w.success.Fine? && w.ack.Fine? && w.refused.Fine? && w.interrupt.Fine? && w.failure.Fine?
    && w.dispatch.schedule.Fine? && w.dispatch.finalize.Fine? && w.dispatch.ack.Fine?
  }

  /** When no call fails: a handler that returns completes the task and gives the lease up; one that raises has its
      failure recorded and dispatched; one that is cancelled puts the task back and keeps the lease.  A delivery of
      a finished task puts the task back in the queue. */
  lemma CalmExecution(policy: RetryPolicy, w: Weather, row: Option<TaskState>, st: Store, d: Delivery)
    requires Calm(w)
    ensures var ending := EndingOf(w, row, st, d);
            var last := FinalRow(w, TriedRow(w, row), ending);
            var u := FinalStore(policy, w, TriedRow(w, row), TriedStore(w, row, st, d), d, ending);
            && (Claimable(row) && w.handler.HandlerReturned? ==>
                  last == Some(Completed) && u == Acknowledge(st, d.messageId, d.token, d.token.worker).0)
            && (Claimable(row) && w.handler.HandlerRaised? ==>
                  var f := Classify(if w.ownershipLost then LostOwnership else w.handler.error);
                  last == Some(if f.retryable then Queued else Failed) && u == Delivered(policy, st, d, f, w.dispatch))
            && (Claimable(row) && w.handler.HandlerCancelled? ==> last == Some(Queued) && u == st)
            && (row.Some? && !Claimable(row) ==> last == Some(Queued))
            && (row.None? ==> last.None? && u == st)
  {
    AckReleases(st, d);
    hide Acknowledge, Delivered;
  }

  /** Which failures may be retried, which class they have, and that only a rate limit carries a server's wish. */
  lemma ClassifyMeans(error: WorkError)
    ensures var f := Classify(error);
            && (f.retryable <==>
                  error.ProviderRateLimited? || error in {ProviderDown, TimedOut, LostOwnership, OtherError})
            && f.retryAfter == (if error.ProviderRateLimited? then error.after else None)
            && (f.class_ == CancelledFailure <==> error == ProviderCancelled)
            && (f.class_ == RateLimited <==> error.ProviderRateLimited?)
            && (f.class_ == PermanentAuthorization <==> error in {ProviderDenied, PermissionDenied})
            && (f.class_ == PermanentValidation <==> error in {ProviderRejected, InvalidValue})
            && (f.class_ == RetryableProvider <==> error == ProviderDown)
            && (f.class_ == TimeoutFailure <==> error == TimedOut)
            && (f.class_ == OwnershipLost <==> error == LostOwnership)
            && (f.class_ == RetryableInfrastructure <==> error == OtherError)
  {
    match error
    case ProviderRateLimited(_) =>
    case _ =>
  }

  class WorkerRuntime {
    const queue: RedisQueue
    const gateway: ExecutionGateway
    const dispatcher: QueueFailureDispatcher
    const config: Config
    ghost const actor: ActorId
    ghost const start: System
    ghost var steps: seq<WorkerStep>
    ghost var model: System

    /** model is the protocol state that the worker's steps so far lead to. */
    ghost predicate Modelled()
      reads this
    {
      && |start.store.ready| == 4 && WorkRun(config, start, actor, steps)
         && model == WorkAfter(config, start, actor, steps)
      && |model.store.ready| == 4 && dispatcher.queue == queue && dispatcher.policy == config.policy
    }

    /** It is also the state of the mutable objects. */
    ghost predicate Linked()
      reads this, queue, gateway
    {
      Modelled() && queue.Valid() && queue.Value() == model.store && gateway.states == model.durable
    }

    ghost predicate At(d: Delivery, phase: Phase)
      reads this
    {
      actor in model.workers && model.workers[actor] == Worker(d, phase)
    }

    /** Where an ending of the try block leaves the worker. */
    ghost predicate EndsAt(d: Delivery, ending: Ending)
      reads this
    {
      match ending
      case Settled => actor !in model.workers
      case Interrupted => At(d, Interrupting)
      case Raising(error) => At(d, Failing(Classify(error)))
    }

    constructor (queue: RedisQueue, gateway: ExecutionGateway, dispatcher: QueueFailureDispatcher, config: Config,
                 ghost actor: ActorId, ghost start: System)
      requires queue.Valid() && queue.Value() == start.store && gateway.states == start.durable
      requires dispatcher.queue == queue && dispatcher.policy == config.policy
      ensures this.queue == queue && this.gateway == gateway && this.dispatcher == dispatcher && this.config == config
      ensures this.actor == actor && this.start == start && Linked() && model == start
    {
      this.queue := queue;
      this.gateway := gateway;
      this.dispatcher := dispatcher;
      this.config := config;
      this.actor := actor;
      this.start := start;
      steps := [];
      model := start;
    }

    /** Records the protocol step that a call was. */
    ghost method Take(x: WorkerStep)
      requires Modelled() && WorkEnabled(config, model, actor, x)
               && |NextWork(config, model, actor, x).store.ready| == 4
      modifies `steps, `model
      ensures Modelled() && model == NextWork(config, old(model), actor, x)
    {
      hide NextWork, WorkEnabled;
      var more := steps + [x];
      assert more[..|more| - 1] == steps;
      model := NextWork(config, model, actor, x);
      steps := more;
    }

    ghost method TakeError(d: Delivery, error: WorkError)
      requires Modelled() && actor in model.workers && model.workers[actor].delivery == d
               && InTry(model.workers[actor].phase)
      modifies `steps, `model
      ensures Modelled() && At(d, Failing(Classify(error))) && model.store == old(model.store)
              && model.durable == old(model.durable)
    {
      hide NextWork, WorkEnabled, Classify, WorkRun, WorkAfter;
      TakeRaise(config, model, actor, d, error);
      Take(Raise(error));
    }

    ghost method TakeCancel(d: Delivery)
      requires Modelled() && actor in model.workers && model.workers[actor].delivery == d
               && InTry(model.workers[actor].phase)
      modifies `steps, `model
      ensures Modelled() && At(d, Interrupting) && model.store == old(model.store)
              && model.durable == old(model.durable)
    {
      hide NextWork, WorkEnabled, WorkRun, WorkAfter;
      TakeInterrupt(config, model, actor, d);
      Take(Interrupt);
    }

    ghost method Crash()
      requires Modelled() && actor in model.workers
      modifies `steps, `model
      ensures Modelled() && actor !in model.workers && model.store == old(model.store)
              && model.durable == old(model.durable)
    {
      hide NextWork, WorkEnabled, WorkRun, WorkAfter;
      TakeCrash(config, model, actor);
      Take(CrashWorker);
    }

    /** The try block up to the handler; none means that the handler returned. */
    method Attempt(d: Delivery, w: Weather) returns (ending: Option<Ending>)
      requires Linked() && At(d, Claimed)
      modifies this, gateway
      ensures Linked()
      ensures if ending.None? then At(d, Succeeded) else EndsAt(d, ending.value)
      ensures var row := RowOf(old(gateway.states), d.taskId);
              && ending == Tried(w, row)
              && gateway.states == (if w.claim.TakesEffect() && Claimable(row) then
                                      old(gateway.states)[d.taskId := Executing]
                                    else old(gateway.states))
    {
      hide NextWork, WorkEnabled, Classify, WorkRun, WorkAfter;
      var claimed := gateway.RecordClaim(d.taskId, w.claim);
      if claimed {
        TakeRecordClaim(config, model, actor, d, w.claim.Answered(w.ownershipLost));
        Take(RecordClaim(w.claim.Answered(w.ownershipLost)));
        if !w.claim.Fine? {
          return Some(if w.claim.Unanswered? then Raising(Seen(w.ownershipLost, OtherError)) else Interrupted);
        }
      } else if w.claim.Cancelling? {
        TakeCancel(d);
        return Some(Interrupted);
      } else {
        TakeError(d, Seen(w.ownershipLost, OtherError));
        return Some(Raising(Seen(w.ownershipLost, OtherError)));
      }
      match w.handler {
        case HandlerCancelled =>
          TakeCancel(d);
          return Some(Interrupted);
        case HandlerRaised(error) =>
          TakeError(d, Seen(w.ownershipLost, error));
          return Some(Raising(Seen(w.ownershipLost, error)));
        case HandlerReturned =>
          TakeFinishHandler(config, model, actor, d);
          Take(FinishHandler);
          return None;
      }
    }

    /** record_success; none means that it was recorded. */
    method Complete(d: Delivery, w: Weather) returns (ending: Option<Ending>)
      requires Linked() && At(d, Succeeded) && RowOf(gateway.states, d.taskId) == Some(Executing)
      modifies this, gateway
      ensures Linked()
      ensures if ending.None? then At(d, Acking) else EndsAt(d, ending.value)
      ensures ending == if w.success.Fine? then None else Some(Broken(w.success, w.ownershipLost))
      ensures gateway.states ==
              if w.success.TakesEffect() then old(gateway.states)[d.taskId := Completed] else old(gateway.states)
    {
      hide NextWork, WorkEnabled, Classify, WorkRun, WorkAfter;
      var recorded := gateway.RecordSuccess(d.taskId, w.success);
      if recorded {
        TakeRecordSuccess(config, model, actor, d, w.success.Answered(w.ownershipLost));
        Take(RecordSuccess(w.success.Answered(w.ownershipLost)));
        if w.success.Fine? {
          return None;
        }
        return Some(if w.success.Unanswered? then Raising(Seen(w.ownershipLost, OtherError)) else Interrupted);
      }
      if w.success.Cancelling? {
        TakeCancel(d);
        return Some(Interrupted);
      }
      TakeError(d, Seen(w.ownershipLost, OtherError));
      return Some(Raising(Seen(w.ownershipLost, OtherError)));
    }

    /** The acknowledgement of a success, and the record when it is refused. */
    method Finish(d: Delivery, w: Weather) returns (ending: Ending)
      requires Linked() && At(d, Acking) && RowOf(gateway.states, d.taskId) == Some(Completed) && w.success.Fine?
      modifies this, queue, gateway
      ensures Linked() && EndsAt(d, ending)
      ensures gateway.states == old(gateway.states) && ending == Finished(w, Releases(old(queue.Value()), d))
      ensures queue.Value() == if w.ack.TakesEffect() then
                                 Acknowledge(old(queue.Value()), d.messageId, d.token, d.token.worker).0
                               else old(queue.Value())
    {
      AckReleases(queue.Value(), d);
      hide NextWork, WorkEnabled, Acknowledge, Classify, WorkRun, WorkAfter;
      if !w.ack.TakesEffect() {
        if w.ack.Unsent? {
          TakeError(d, Seen(w.ownershipLost, OtherError));
          return Raising(Seen(w.ownershipLost, OtherError));
        }
        TakeCancel(d);
        return Interrupted;
      }
      var result := queue.Acknowledge(d.messageId, d.token, d.token.worker);
      TakeAckSuccess(config, model, actor, d, w.ack.Answered(w.ownershipLost));
      Take(AckSuccess(w.ack.Answered(w.ownershipLost)));
      if w.ack.Unanswered? {
        return Raising(Seen(w.ownershipLost, OtherError));
      }
      if w.ack.Cancelling? {
        return Interrupted;
      }
      if result == 1 {
        return Settled;
      }
      ending := Refused(d, w.refused, w.ownershipLost);
    }

    method Refused(d: Delivery, fault: Fault, lost: bool) returns (ending: Ending)
      requires Linked() && At(d, NotAcked) && RowOf(gateway.states, d.taskId) == Some(Completed)
      modifies this, gateway
      ensures Linked() && EndsAt(d, ending)
      ensures gateway.states == old(gateway.states)
      ensures ending == if fault.Fine? then Settled else Broken(fault, lost)
    {
      hide NextWork, WorkEnabled, Classify, WorkRun, WorkAfter;
      var recorded := gateway.RecordInterrupted(d.taskId, fault);
      if recorded {
        TakeRecordInterrupted(config, model, actor, d, fault.Answered(lost));
        Take(WorkerStep.RecordInterrupted(fault.Answered(lost)));
        return if fault.Fine? then Settled
               else if fault.Unanswered? then Raising(Seen(lost, OtherError))
               else Interrupted;
      }
      if fault.Cancelling? {
        TakeCancel(d);
        return Interrupted;
      }
      TakeError(d, Seen(lost, OtherError));
      return Raising(Seen(lost, OtherError));
    }

    /** The except block for a cancellation. */
    method RecordCancelled(d: Delivery, fault: Fault)
      requires Linked() && At(d, Interrupting)
      modifies this, gateway
      ensures Linked() && actor !in model.workers
      ensures gateway.states == if fault.TakesEffect() && Claimable(RowOf(old(gateway.states), d.taskId)) then
                                  old(gateway.states)[d.taskId := Queued]
                                else old(gateway.states)
    {
      hide NextWork, WorkEnabled, WorkRun, WorkAfter;
      var recorded := gateway.RecordInterrupted(d.taskId, fault);
      if recorded {
        TakeRecordInterrupted(config, model, actor, d, fault.Answered(false));
        Take(WorkerStep.RecordInterrupted(fault.Answered(false)));
      } else {
        Crash();
      }
    }

    /** The protocol steps of a dispatch that got as far as its calls say. */
    ghost method TakeDispatch(d: Delivery, f: ExecutionFailure, w: DispatchWeather)
      requires Modelled() && At(d, Dispatching(f))
      modifies `steps, `model
      ensures Modelled() && actor !in model.workers && model.durable == old(model.durable)
      ensures model.store == Delivered(config.policy, old(model.store), d, f, w)
    {
      hide NextWork, WorkEnabled, Acknowledge, Schedule, Finalize, FailureRecord, FailureDeadLetter, WorkRun, WorkAfter;
      ScriptsKeepFour(model.store, d);
      if !w.schedule.TakesEffect() {
        Crash();
        return;
      }
      TakeSchedule(config, model, actor, d, f, w.now, w.draw);
      KeepsFour(config.policy, model.store, d, f, w);
      Take(ScheduleFailure(w.now, w.draw));
      if !w.schedule.Fine? {
        Crash();
        return;
      }
      if FailureRecord(config.policy, Rebuilt(d), f, w.now, w.now, w.draw).None? {
        if !w.finalize.TakesEffect() {
          Crash();
          return;
        }
        TakeFinalize(config, model, actor, d, f, w.id);
        Take(FinalizeFailure(w.id));
        if !w.finalize.Fine? {
          Crash();
          return;
        }
      }
      if !w.ack.TakesEffect() {
        Crash();
        return;
      }
      ScriptsKeepFour(model.store, d);
      TakeAckFailure(config, model, actor, d);
      Take(AckFailure);
    }

    /** The except block for a failure: durable record, then the dispatcher. */
    method Fail(d: Delivery, f: ExecutionFailure, w: Weather)
      requires Linked() && At(d, Failing(f))
      modifies this, queue, gateway
      ensures Linked() && actor !in model.workers
      ensures gateway.states == if w.failure.TakesEffect() && d.taskId in old(gateway.states) then
                                  old(gateway.states)[d.taskId := if f.retryable then Queued else Failed]
                                else old(gateway.states)
      ensures queue.Value() == if w.failure.Fine? && d.taskId in old(gateway.states) then
                                 Delivered(config.policy, old(queue.Value()), d, f, w.dispatch)
                               else old(queue.Value())
    {
      hide NextWork, WorkEnabled, WorkRun, WorkAfter, Delivered, Progress;
      var recorded := gateway.RecordFailure(d.taskId, f, w.failure);
      if recorded {
        TakeRecordFailure(config, model, actor, d, f);
        Take(WorkerStep.RecordFailure);
      }
      if !recorded || !w.failure.Fine? {
        Crash();
        return;
      }
      var _ := dispatcher.Dispatch(d, f, w.dispatch);
      TakeDispatch(d, f, w.dispatch);
    }

    /** The try block. */
    method Try(d: Delivery, w: Weather) returns (ending: Ending)
      requires Linked() && At(d, Claimed)
      modifies this, queue, gateway
      ensures Linked() && EndsAt(d, ending)
      ensures var row, st := RowOf(old(gateway.states), d.taskId), old(queue.Value());
              && ending == EndingOf(w, row, st, d)
              && RowOf(gateway.states, d.taskId) == TriedRow(w, row) && queue.Value() == TriedStore(w, row, st, d)
      ensures forall task :: task != d.taskId ==> RowOf(gateway.states, task) == RowOf(old(gateway.states), task)
    {
      hide NextWork, WorkEnabled, WorkRun, WorkAfter, Classify, Acknowledge, Seen, Broken, Releases, Tried;
      AckReleases(queue.Value(), d);
      TriedOn(w, RowOf(gateway.states, d.taskId));
      var tried := Attempt(d, w);
      if tried.None? {
        tried := Complete(d, w);
      }
      if tried.None? {
        ending := Finish(d, w);
      } else {
        ending := tried.value;
      }
    }

    /** One delivery, from the durable claim to whatever ends its coroutine: what it does to the queue and to
        the task rows is a run of the protocol, at whose end the worker is gone. */
    method Execute(d: Delivery, w: Weather)
      requires Linked() && At(d, Claimed)
      modifies this, queue, gateway
      ensures actor !in model.workers
      ensures |start.store.ready| == 4 && Run(config, start, Actions(actor, steps))
      ensures var t := After(config, start, Actions(actor, steps));
              t == model && queue.Value() == t.store && gateway.states == t.durable
      ensures var row, st := RowOf(old(gateway.states), d.taskId), old(queue.Value());
              var ending := EndingOf(w, row, st, d);
              && RowOf(gateway.states, d.taskId) == FinalRow(w, TriedRow(w, row), ending)
              && queue.Value() ==
                 FinalStore(config.policy, w, TriedRow(w, row), TriedStore(w, row, st, d), d, ending)
      ensures forall task :: task != d.taskId ==> RowOf(gateway.states, task) == RowOf(old(gateway.states), task)
    {
      hide NextWork, WorkEnabled, WorkRun, WorkAfter, Classify, EndingOf, TriedRow, TriedStore, Delivered;
      var ending := Try(d, w);
      match ending {
        case Settled =>
        case Interrupted => RecordCancelled(d, w.interrupt);
        case Raising(error) => Fail(d, Classify(error), w);
      }
      StepsAreARun(config, start, actor, steps);
    }
  }

  lemma AckReleases(st: Store, d: Delivery)
    ensures var (u, result) := Acknowledge(st, d.messageId, d.token, d.token.worker);
            && (result == 1 <==> Releases(st, d))
            && u == (if Releases(st, d) then
                       st.(inflight := st.inflight - {d.messageId}, leases := st.leases - {d.messageId},
                           leaseExpiry := st.leaseExpiry - {d.messageId})
                     else st)
  {
  }

  lemma ScriptsKeepFour(st: Store, d: Delivery)
    requires |st.ready| == 4
    ensures |Acknowledge(st, d.messageId, d.token, d.token.worker).0.ready| == 4
    ensures forall r :: |Schedule(st, r).0.ready| == 4
    ensures forall r :: |Finalize(st, r).0.ready| == 4
  {
  }

  lemma KeepsFour(policy: RetryPolicy, st: Store, d: Delivery, f: ExecutionFailure, w: DispatchWeather)
    requires |st.ready| == 4
    ensures var r := FailureRecord(policy, Rebuilt(d), f, w.now, w.now, w.draw);
            r.Some? ==> |Schedule(st, r.value).0.ready| == 4
  {
    ScriptsKeepFour(st, d);
    hide Schedule, FailureRecord;
  }
}
