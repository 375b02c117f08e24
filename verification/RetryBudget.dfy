/** Retries end: live envelopes stay below the attempt budget, and a message is claimed only as often
    as its budget allows. */
module RetryBudget {
  import opened Options
  import opened QueueTypes
  import opened QueueScripts
  import opened DeliveryProtocol
  import opened DeliveryInvariant
  import opened WorkerSteps
  import opened RetryPolicies
  import OnePlace

  // ----- The full protocol: attempts of live envelopes -----

  predicate Budgeted(c: Config, issued: map<MessageId, Issue>, e: Envelope) {
    e.messageId in issued && (issued[e.messageId].replay || e.attempt < c.policy.maximumAttempts)
  }

  predicate EntryBudgeted(c: Config, issued: map<MessageId, Issue>, entry: DelayedEntry) {
    entry.Scheduled? ==>
      entry.record.envelope.messageId in issued && entry.record.envelope.attempt < c.policy.maximumAttempts
  }

  ghost predicate StoreBudgeted(c: Config, issued: map<MessageId, Issue>, st: Store) {
    && |st.ready| == 4
    && (forall p, i :: 0 <= p < 4 && 0 <= i < |st.ready[p]| ==> Budgeted(c, issued, st.ready[p][i]))
    && (forall m :: m in st.inflight ==> Budgeted(c, issued, st.inflight[m]))
    && (forall m :: m in st.delayed ==> EntryBudgeted(c, issued, st.delayed[m]))
  }

  lemma DecideBudget(p: RetryPolicy, attempt: int, retryable: bool, retryAfter: Option<real>, elapsed: real, draw: Draw)
    ensures Decide(p, attempt, retryable, retryAfter, elapsed, draw).retry ==> attempt < p.maximumAttempts
  {
    hide Wish;
  }

  lemma {:induction false} ClaimBudgeted(c: Config, issued: map<MessageId, Issue>, st: Store, p: nat,
                                         token: Token, claimedAt: Time, deadline: Time)
    requires StoreBudgeted(c, issued, st) && p <= 4
    ensures StoreBudgeted(c, issued, ClaimFrom(st, p, token, claimedAt, deadline).0)
    decreases 4 - p
  {
    hide ClaimFrom, Dead;
    ClaimIteration(st, p, token, claimedAt, deadline);
    if p < 4 {
      if st.ready[p] == [] {
        ClaimBudgeted(c, issued, st, p + 1, token, claimedAt, deadline);
      } else if Dead(st, st.ready[p][0]) {
        DropBudgeted(c, issued, st, p);
        ClaimBudgeted(c, issued, DropHead(st, p), p + 1, token, claimedAt, deadline);
      } else {
        LeaseBudgeted(c, issued, st, p, token, claimedAt, deadline);
      }
    }
  }

  lemma DropBudgeted(c: Config, issued: map<MessageId, Issue>, st: Store, p: Priority)
    requires StoreBudgeted(c, issued, st) && st.ready[p] != []
    ensures StoreBudgeted(c, issued, DropHead(st, p))
  {
  }

  lemma LeaseBudgeted(c: Config, issued: map<MessageId, Issue>, st: Store, p: Priority, token: Token, claimedAt: Time,
                      deadline: Time)
    requires StoreBudgeted(c, issued, st) && st.ready[p] != []
    ensures StoreBudgeted(c, issued, LeaseHead(st, p, token, claimedAt, deadline))
  {
  }

  lemma PushBudgeted(c: Config, issued: map<MessageId, Issue>, st: Store, e: Envelope)
    requires StoreBudgeted(c, issued, st) && Budgeted(c, issued, e)
    ensures StoreBudgeted(c, issued, PushReady(st, e))
  {
  }

  lemma DelayBudgeted(c: Config, issued: map<MessageId, Issue>, st: Store, m: MessageId, entry: DelayedEntry, due: Time)
    requires StoreBudgeted(c, issued, st) && EntryBudgeted(c, issued, entry)
    ensures StoreBudgeted(c, issued, st.(delayed := st.delayed[m := entry], delayedDue := st.delayedDue[m := due]))
  {
  }

  /** Entries may only disappear, and the bookkeeping tables may change freely. */
  lemma ShrinkBudgeted(c: Config, issued: map<MessageId, Issue>, st: Store, t: Store)
    requires StoreBudgeted(c, issued, st) && t.ready == st.ready
    requires forall m :: m in t.inflight ==> m in st.inflight && t.inflight[m] == st.inflight[m]
    requires forall m :: m in t.delayed ==> m in st.delayed && t.delayed[m] == st.delayed[m]
    ensures StoreBudgeted(c, issued, t)
  {
  }

  lemma PromoteOneBudgeted(c: Config, issued: map<MessageId, Issue>, st: Store, m: MessageId, tally: Tally)
    requires StoreBudgeted(c, issued, st)
    ensures PromoteOne(st, m, tally).Some? ==> StoreBudgeted(c, issued, PromoteOne(st, m, tally).value.0)
  {
    ShrinkBudgeted(c, issued, st, Unschedule(st, m));
    if m in st.delayed && st.delayed[m].Scheduled? {
      assert EntryBudgeted(c, issued, st.delayed[m]);
      PushBudgeted(c, issued, Unschedule(st, m), st.delayed[m].record.envelope);
    } else {
      ShrinkBudgeted(c, issued, st, st.(delayedDue := st.delayedDue - {m}));
    }
    hide StoreBudgeted;
  }

  lemma {:induction false} PromoteBudgeted(c: Config, issued: map<MessageId, Issue>, st: Store, ids: seq<MessageId>,
                                           tally: Tally)
    requires StoreBudgeted(c, issued, st)
    ensures StoreBudgeted(c, issued, PromoteAll(st, ids, tally).0)
    decreases ids
  {
    hide PromoteOne, EntryBudgeted, Budgeted;
    if ids != [] && PromoteOne(st, ids[0], tally).Some? {
      PromoteOneBudgeted(c, issued, st, ids[0], tally);
      var next := PromoteOne(st, ids[0], tally).value;
      PromoteBudgeted(c, issued, next.0, ids[1..], next.1);
    }
  }

  lemma PlanBudgeted(c: Config, issued: map<MessageId, Issue>, m: MessageId, now: Time, e: Envelope, l: Lease,
                     draw: Draw, id: RecordId)
    requires e.messageId in issued
    ensures var plan := PlanRecovery(c.policy, c.maximumAttempts, m, now, Some(e), Some(l), draw, id);
            plan.RetryPlan? ==> EntryBudgeted(c, issued, plan.entry)
  {
    DecideBudget(c.policy, e.attempt + 1, true, None, 0.0, draw);
    hide Decide;
  }

  lemma RecoverBudgeted(c: Config, issued: map<MessageId, Issue>, st: Store, m: MessageId, now: Time, terminal: bool,
                        plan: RecoveryPlan)
    requires StoreBudgeted(c, issued, st)
    requires Expired(st, m, now) && plan.RetryPlan? ==> EntryBudgeted(c, issued, plan.entry)
    ensures StoreBudgeted(c, issued, RecoverOne(st, m, now, terminal, plan).0)
  {
    var free := ReleaseLease(st, m);
    ShrinkBudgeted(c, issued, st, free);
    hide StoreBudgeted;
    if Expired(st, m, now) {
      var task := st.inflight[m].taskId;
      if plan.RetryPlan? {
        DelayBudgeted(c, issued, free, m, plan.entry, plan.due);
      } else {
        ShrinkBudgeted(c, issued, free, FilePlan(free, m, task, plan).0);
      }
    }
  }

  ghost predicate AttemptsOk(c: Config, s: System) {
    c.Valid() && Inv(s) && StoreBudgeted(c, s.issued, s.store)
  }

  lemma IssueBudgeted(c: Config, issued: map<MessageId, Issue>, st: Store, e: Envelope, issue: Issue)
    requires StoreBudgeted(c, issued, st) && e.messageId !in issued
    requires issue.replay || e.attempt < c.policy.maximumAttempts
    ensures StoreBudgeted(c, issued[e.messageId := issue], PushReady(st, e))
  {
  }

  lemma EnqueueBudgeted(c: Config, s: System, key: DedupeKey, m: MessageId, task: TaskId, state: TaskState,
                        priority: Priority)
    requires AttemptsOk(c, s) && m !in s.issued
    ensures StoreBudgeted(c, NextEnqueue(s, key, m, task, state, priority).issued,
            NextEnqueue(s, key, m, task, state, priority).store)
  {
    var e := Envelope(m, task, state, 0, priority, None);
    var issue := Issue(task, state, 0, false);
    hide Inv, StoreBudgeted;
    if key !in s.store.dedupe {
      IssueBudgeted(c, s.issued, s.store, e, issue);
      ShrinkIndexed(c, s.issued[m := issue], PushReady(s.store, e), key, task, m);
      hide PushReady;
    }
  }

  lemma ShrinkIndexed(c: Config, issued: map<MessageId, Issue>, st: Store, key: DedupeKey, task: TaskId, m: MessageId)
    requires StoreBudgeted(c, issued, st)
    ensures StoreBudgeted(c, issued, st.(dedupe := st.dedupe[key := m], taskIndex := st.taskIndex[task := m]))
  {
  }

  lemma ReplayBudgeted(c: Config, s: System, a: ActorId, m: MessageId)
    requires AttemptsOk(c, s) && a in s.replayers && m !in s.issued
    ensures StoreBudgeted(c, NextReplay(s, a, m).issued, NextReplay(s, a, m).store)
  {
    var k := s.replayers[a].messageId;
    var updated := s.replayers[a].(replayedAs := Some(m));
    OnePlace.ReaderKeyExists(s, a);
    hide Inv, StoreBudgeted;
    FourLists(s);
    if Replay(s.store, k, m, updated).1.Replayed? {
      var rewritten := s.store.(dlq := s.store.dlq[k := updated]);
      var e := s.store.dlq[k].envelope;
      ShrinkBudgeted(c, s.issued, s.store, rewritten);
      IssueBudgeted(c, s.issued, rewritten, e.(messageId := m, stamp := None),
          Issue(e.taskId, e.state, e.attempt, true));
    }
  }

  lemma ScheduleBudgeted(c: Config, s: System, a: ActorId, now: Time, draw: Draw)
    requires AttemptsOk(c, s) && a in s.workers && s.workers[a].phase.Dispatching?
    ensures StoreBudgeted(c, s.issued, NextSchedule(c, s, a, now, draw).store)
  {
    hide Inv, StoreBudgeted, FailureRecord, NextSchedule, DeliveryOk;
    var w := s.workers[a];
    DeliveryIssued(s, a);
    RecordBudgeted(c, s.issued, w, now, draw);
    ScheduleStore(c, s, a, now, draw);
    match FailureRecord(c.policy, Rebuilt(w.delivery), w.phase.failure, now, now, draw)
    case None =>
    case Some(r) => DelayBudgeted(c, s.issued, s.store, r.messageId, Scheduled(r), r.dueAt);
  }

  lemma DeliveryIssued(s: System, a: ActorId)
    requires Inv(s) && a in s.workers
    ensures s.workers[a].delivery.messageId in s.issued
  {
    assert DeliveryOk(s.issued, s.used, s.workers[a].delivery);
  }

  lemma RecordBudgeted(c: Config, issued: map<MessageId, Issue>, w: Worker, now: Time, draw: Draw)
    requires w.phase.Dispatching? && w.delivery.messageId in issued
    ensures var r := FailureRecord(c.policy, Rebuilt(w.delivery), w.phase.failure, now, now, draw);
            r.Some? ==> EntryBudgeted(c, issued, Scheduled(r.value))
  {
    DecideBudget(c.policy, w.delivery.attempt + 1, w.phase.failure.retryable, w.phase.failure.retryAfter, now - now,
        draw);
    hide Decide;
  }

  lemma AckBudgeted(c: Config, s: System, d: Delivery)
    requires AttemptsOk(c, s)
    ensures StoreBudgeted(c, s.issued, AfterAck(s, d).store)
  {
    ShrinkBudgeted(c, s.issued, s.store, AfterAck(s, d).store);
  }

  lemma WorkBudgeted(c: Config, s: System, a: ActorId, x: WorkerStep)
    requires AttemptsOk(c, s) && WorkEnabled(c, s, a, x)
    ensures StoreBudgeted(c, s.issued, NextWork(c, s, a, x).store)
  {
    hide Inv, StoreBudgeted, NextWork, NextClaim, NextRenew, NextSchedule, NextFinalize, NextAckSuccess, AfterAck;
    FourLists(s);
    ScriptStep(c, s, a, x);
    match x
    case ClaimNext(token, sampled) => ClaimStepBudgeted(c, s, a, token, sampled, sampled + c.visibility);
    case ScheduleFailure(now, draw) => ScheduleBudgeted(c, s, a, now, draw);
    case AckSuccess(answer) =>
      AckFrame(s, a, answer);
      AckBudgeted(c, s, s.workers[a].delivery);
    case AckFailure => AckBudgeted(c, s, s.workers[a].delivery);
    case RenewLease(sampled) => RenewBudgeted(c, s, a, sampled + c.visibility);
    case FinalizeFailure(id) => FinalizeBudgeted(c, s, a, id);
    case _ => QuietFrame(c, s, a, x);
  }

  lemma ClaimStepBudgeted(c: Config, s: System, a: ActorId, token: Token, sampled: Time, deadline: Time)
    requires StoreBudgeted(c, s.issued, s.store) && |s.store.ready| == 4
    ensures StoreBudgeted(c, s.issued, NextClaim(s, a, token, sampled, deadline).store)
  {
    hide StoreBudgeted, ClaimFrom;
    ClaimBudgeted(c, s.issued, s.store, 0, token, sampled, deadline);
    match ClaimFrom(s.store, 0, token, sampled, deadline).1
    case None =>
    case Some(_) =>
  }

  lemma RenewBudgeted(c: Config, s: System, a: ActorId, deadline: Time)
    requires StoreBudgeted(c, s.issued, s.store) && a in s.workers
    ensures StoreBudgeted(c, s.issued, NextRenew(s, a, deadline).store)
  {
    hide StoreBudgeted, Renew;
    var d := s.workers[a].delivery;
    RenewFrame(s.store, d.messageId, d.token, d.taskId, deadline, d.token.worker);
    ShrinkBudgeted(c, s.issued, s.store, NextRenew(s, a, deadline).store);
  }

  lemma FinalizeBudgeted(c: Config, s: System, a: ActorId, id: RecordId)
    requires StoreBudgeted(c, s.issued, s.store) && a in s.workers && s.workers[a].phase.Finalizing?
    ensures StoreBudgeted(c, s.issued, NextFinalize(s, a, id).store)
  {
    hide StoreBudgeted, FailureDeadLetter;
    ShrinkBudgeted(c, s.issued, s.store, NextFinalize(s, a, id).store);
  }

  lemma RecoveryBudgeted(c: Config, s: System, a: ActorId, x: RecovererStep)
    requires AttemptsOk(c, s) && RecoverEnabled(s, a, x)
    ensures StoreBudgeted(c, s.issued, NextRecover(c, s, a, x).store)
  {
    if x.RunRecovery? {
      var r := s.recoverers[a];
      var m := r.pending[0];
      if Expired(s.store, m, r.now) {
        PassedCheckMeansFreshPlan(s, a, c, x.draw, x.id);
        assert Known(s.issued, s.store.inflight[m]);
        PlanBudgeted(c, s.issued, m, r.now, s.store.inflight[m], s.store.leases[m], x.draw, x.id);
      }
      hide Inv, PlanRecovery;
      RecoverBudgeted(c, s.issued, s.store, m, r.now, r.phase.terminal, PlanOf(c, r, x.draw, x.id));
    }
  }

  lemma OperateBudgeted(c: Config, s: System, a: ActorId, x: OperatorStep)
    requires AttemptsOk(c, s) && Enabled(c, s, Operate(a, x)) && |s.store.ready| == 4
    ensures StoreBudgeted(c, NextOperate(s, a, x).issued, NextOperate(s, a, x).store)
  {
    hide Inv, StoreBudgeted, NextReplay;
    if x.RunReplay? {
      ReplayBudgeted(c, s, a, x.newMessage);
    } else if x.RunApproval? {
      ShrinkBudgeted(c, s.issued, s.store, NextOperate(s, a, x).store);
    }
  }

  lemma StepBudgeted(c: Config, s: System, x: Action)
    requires AttemptsOk(c, s) && Enabled(c, s, x)
    ensures StoreBudgeted(c, Next(c, s, x).issued, Next(c, s, x).store)
  {
    hide Inv, StoreBudgeted, NextWork, WorkEnabled, NextRecover, RecoverEnabled, NextOperate, OperateEnabled,
        NextEnqueue, PromoteAll, Cancel, IsDuePage;
    FourLists(s);
    match x
    case Work(a, step) =>
      WorkBudgeted(c, s, a, step);
      OnePlace.WorkIssuesNothing(c, s, a, step);
    case Recover(a, step) =>
      RecoveryBudgeted(c, s, a, step);
      OnePlace.RecoverIssuesNothing(c, s, a, step);
    case EnqueueTask(key, m, task, state, priority) => EnqueueBudgeted(c, s, key, m, task, state, priority);
    case PromoteDue(_, _, page) => PromoteBudgeted(c, s.issued, s.store, page, Tally(0, 0, 0));
    case CancelTask(task) =>
      CancelFrame(s.store, task);
      CancelShrinks(s.store, task);
      ShrinkBudgeted(c, s.issued, s.store, Cancel(s.store, task).0);
    case ExpireDedupe(key) => ShrinkBudgeted(c, s.issued, s.store, Next(c, s, x).store);
    case Operate(a, step) => OperateBudgeted(c, s, a, step);
    case Tick(_) =>
    case SetDurable(_, _) =>
  }

  /** In every interleaving, every live envelope that does not descend from a replay is below the
      attempt budget. */
  lemma {:induction false} AttemptsStayBelowMaximum(c: Config, s: System, xs: seq<Action>)
    requires AttemptsOk(c, s) && Run(c, s, xs)
    ensures AttemptsOk(c, After(c, s, xs))
    decreases xs
  {
    hide Inv, StoreBudgeted, Next, Enabled;
    FourLists(s);
    if xs == [] {
    } else {
      StepBudgeted(c, s, xs[0]);
      StepKeepsInv(c, s, xs[0]);
      AttemptsStayBelowMaximum(c, Next(c, s, xs[0]), xs[1..]);
    }
  }

  lemma InitialAttempts(c: Config)
    requires c.Valid()
    ensures AttemptsOk(c, INITIAL)
  {
    InitialInv();
    hide Inv;
  }
}
