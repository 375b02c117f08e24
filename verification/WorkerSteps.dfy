/** What a worker's step leaves alone: most steps touch only the worker and its task row. */
module WorkerSteps {
  import opened QueueTypes
  import opened QueueScripts
  import opened DeliveryProtocol
  import opened RetryPolicies

  /** Steps that run no script. */
  predicate Quiet(x: WorkerStep) {
    && !x.ClaimNext? && !x.RenewLease? && !x.AckSuccess? && !x.ScheduleFailure? && !x.FinalizeFailure?
    && !x.AckFailure?
  }

  ghost predicate SameButWorkersAndTasks(s: System, t: System) {
    && t.store == s.store && t.clock == s.clock && t.recoverers == s.recoverers && t.replayers == s.replayers
    && t.approvers == s.approvers && t.issued == s.issued && t.used == s.used && t.claims == s.claims
  }

  lemma PhaseFrame(s: System, u: System, a: ActorId, phase: Phase)
    requires a in u.workers && SameButWorkersAndTasks(s, u)
    ensures SameButWorkersAndTasks(s, WithPhase(u, a, phase))
    ensures SameButWorkersAndTasks(s, u.(workers := u.workers - {a}))
  {
  }

  lemma DurableFrame(s: System, task: TaskId, state: TaskState)
    ensures SameButWorkersAndTasks(s, WithDurable(s, task, state)) && WithDurable(s, task, state).workers == s.workers
  {
  }

  lemma InterruptedFrame(s: System, a: ActorId, answer: Answer)
    requires a in s.workers && s.workers[a].delivery.taskId in s.durable
    ensures SameButWorkersAndTasks(s, NextInterrupted(s, a, answer))
  {
    hide WithDurable, WithPhase, AfterAnswer, SameButWorkersAndTasks;
    var task := s.workers[a].delivery.taskId;
    DurableFrame(s, task, Queued);
    Unmoved(s);
    PhaseFrame(s, if TaskEnded(s, task) then s else WithDurable(s, task, Queued), a, AfterAnswer(answer, NotAcked));
  }

  lemma Unmoved(s: System)
    ensures SameButWorkersAndTasks(s, s)
  {
  }

  lemma FailureFrame(s: System, a: ActorId)
    requires a in s.workers && s.workers[a].phase.Failing?
    ensures SameButWorkersAndTasks(s, NextFailure(s, a))
  {
    hide WithDurable, WithPhase, SameButWorkersAndTasks;
    var f := s.workers[a].phase.failure;
    var task := s.workers[a].delivery.taskId;
    var state := if f.retryable then Queued else Failed;
    DurableFrame(s, task, state);
    PhaseFrame(s, WithDurable(s, task, state), a, Dispatching(f));
  }

  lemma QuietFrame(c: Config, s: System, a: ActorId, x: WorkerStep)
    requires |s.store.ready| == 4 && WorkEnabled(c, s, a, x) && Quiet(x)
    ensures SameButWorkersAndTasks(s, NextWork(c, s, a, x))
  {
    hide WithDurable, WithPhase, SameButWorkersAndTasks, NextInterrupted, NextFailure, Classify;
    var task := s.workers[a].delivery.taskId;
    DurableFrame(s, task, Executing);
    DurableFrame(s, task, Completed);
    Unmoved(s);
    match x
    case RecordClaim(answer) => PhaseFrame(s, WithDurable(s, task, Executing), a, AfterAnswer(answer, Running));
    case FinishHandler => PhaseFrame(s, s, a, Succeeded);
    case RecordSuccess(answer) => PhaseFrame(s, WithDurable(s, task, Completed), a, AfterAnswer(answer, Acking));
    case Interrupt => PhaseFrame(s, s, a, Interrupting);
    case RecordInterrupted(answer) => InterruptedFrame(s, a, answer);
    case Raise(error) => PhaseFrame(s, s, a, Failing(Classify(error)));
    case RecordFailure => FailureFrame(s, a);
    case CrashWorker => PhaseFrame(s, s, a, Interrupting);
  }

  /** The steps that run a script. */
  lemma ScriptStep(c: Config, s: System, a: ActorId, x: WorkerStep)
    requires |s.store.ready| == 4 && WorkEnabled(c, s, a, x)
    ensures x.ClaimNext? ==> NextWork(c, s, a, x) == NextClaim(s, a, x.token, x.sampled, x.sampled + c.visibility)
    ensures x.RenewLease? ==> NextWork(c, s, a, x) == NextRenew(s, a, x.sampled + c.visibility)
    ensures x.AckSuccess? ==> NextWork(c, s, a, x) == NextAckSuccess(s, a, x.answer)
    ensures x.ScheduleFailure? ==> NextWork(c, s, a, x) == NextSchedule(c, s, a, x.now, x.draw)
    ensures x.FinalizeFailure? ==> NextWork(c, s, a, x) == NextFinalize(s, a, x.id)
    ensures x.AckFailure? ==>
              NextWork(c, s, a, x) == AfterAck(s, s.workers[a].delivery).(workers := s.workers - {a})
  {
    hide NextClaim, NextRenew, NextAckSuccess, NextSchedule, NextFinalize, AfterAck, NextInterrupted, NextFailure,
        WithDurable, WithPhase;
  }

  /** An acknowledgement touches the store and the worker. */
  lemma AckFrame(s: System, a: ActorId, answer: Answer)
    requires a in s.workers
    ensures var t := NextAckSuccess(s, a, answer);
            var u := AfterAck(s, s.workers[a].delivery);
            t == u.(workers := t.workers) && u == s.(store := u.store)
  {
    hide Acknowledge, AckResult, AfterAnswer;
    if answer.Heard? && AckResult(s, s.workers[a].delivery) == 1 {
    } else {
    }
  }

  lemma AckOnlyStore(s: System, d: Delivery)
    ensures AfterAck(s, d) == s.(store := AfterAck(s, d).store)
  {
    hide Acknowledge;
  }

  /** A schedule touches the store and the worker; the store as its script says, if the policy grants a retry. */
  lemma ScheduleStore(c: Config, s: System, a: ActorId, now: Time, draw: Draw)
    requires a in s.workers && s.workers[a].phase.Dispatching?
    ensures var w := s.workers[a];
            var record := FailureRecord(c.policy, Rebuilt(w.delivery), w.phase.failure, now, now, draw);
            var t := NextSchedule(c, s, a, now, draw);
            && t.store == (if record.Some? then Schedule(s.store, record.value).0 else s.store)
            && t.claims == s.claims && t.issued == s.issued && t.used == s.used && t.durable == s.durable
            && t.replayers == s.replayers && t.approvers == s.approvers
  {
    hide FailureRecord, Schedule;
    match FailureRecord(c.policy, Rebuilt(s.workers[a].delivery), s.workers[a].phase.failure, now, now, draw)
    case None =>
    case Some(_) =>
  }
}
