/** A granted retry waits out its back-off: until a promotion looks at a later time than it is due, every run
    leaves it delayed, unless its task is cancelled. */
module Backoffs {
  import opened Options
  import opened QueueTypes
  import opened QueueScripts
  import opened RetryPolicies
  import opened DeliveryProtocol
  import opened DeliveryInvariant
  import opened WorkerSteps
  import CancellationDrain
  import LeaseRecoveries
  import ProtocolLimits

  /** Retry r of message m is delayed until it is due. */
  predicate Waiting(st: Store, m: MessageId, r: RetryRecord) {
    m in st.delayed && st.delayed[m] == Scheduled(r) && m in st.delayedDue && st.delayedDue[m] == r.dueAt
  }

  /** The delayed hash and its index are as they were. */
  predicate SameDelays(st: Store, t: Store) {
    t.delayed == st.delayed && t.delayedDue == st.delayedDue
  }

  /** What is delayed stays so. */
  ghost predicate KeepsDelays(st: Store, t: Store) {
    forall m, r :: Waiting(st, m, r) ==> Waiting(t, m, r)
  }

  // ----- Which steps take entries from the delayed hash -----

  lemma LeaseHeadDelays(st: Store, p: Priority, token: Token, claimedAt: Time, deadline: Time)
    requires |st.ready| == 4 && st.ready[p] != []
    ensures SameDelays(st, LeaseHead(st, p, token, claimedAt, deadline)) && SameDelays(st, DropHead(st, p))
  {
  }

  lemma {:induction false} ClaimDelays(st: Store, p: nat, token: Token, claimedAt: Time, deadline: Time)
    requires |st.ready| == 4 && p <= 4
    ensures SameDelays(st, ClaimFrom(st, p, token, claimedAt, deadline).0)
    decreases 4 - p
  {
    hide ClaimFrom, Dead, DropHead, LeaseHead;
    ClaimIteration(st, p, token, claimedAt, deadline);
    if p == 4 {
    } else if st.ready[p] == [] {
      ClaimDelays(st, p + 1, token, claimedAt, deadline);
    } else if Dead(st, st.ready[p][0]) {
      LeaseHeadDelays(st, p, token, claimedAt, deadline);
      ProtocolLimits.DropPops(st, p);
      ClaimDelays(DropHead(st, p), p + 1, token, claimedAt, deadline);
    } else {
      LeaseHeadDelays(st, p, token, claimedAt, deadline);
    }
  }

  lemma ClaimStepDelays(s: System, a: ActorId, token: Token, sampled: Time, deadline: Time)
    requires |s.store.ready| == 4
    ensures SameDelays(s.store, NextClaim(s, a, token, sampled, deadline).store)
  {
    hide ClaimFrom;
    ClaimDelays(s.store, 0, token, sampled, deadline);
    match ClaimFrom(s.store, 0, token, sampled, deadline).1
    case None =>
    case Some(_) =>
  }

  lemma ScheduleDelays(st: Store, r: RetryRecord)
    ensures KeepsDelays(st, Schedule(st, r).0)
  {
  }

  lemma AckDelays(s: System, d: Delivery)
    ensures SameDelays(s.store, AfterAck(s, d).store)
  {
    if AckResult(s, d) == 1 {
    } else {
    }
  }

  lemma FinalizeDelays(s: System, a: ActorId, id: RecordId)
    requires a in s.workers && s.workers[a].phase.Finalizing?
    ensures SameDelays(s.store, NextFinalize(s, a, id).store)
  {
    hide FailureDeadLetter;
    var r := FailureDeadLetter(s.workers[a].delivery, s.workers[a].phase.failure, id);
    if r.messageId in s.store.dlq {
    } else {
    }
  }

  lemma WorkDelays(c: Config, s: System, a: ActorId, x: WorkerStep)
    requires |s.store.ready| == 4 && WorkEnabled(c, s, a, x)
    ensures KeepsDelays(s.store, NextWork(c, s, a, x).store)
  {
    hide NextWork, NextClaim, NextSchedule, NextFinalize, NextAckSuccess, AfterAck, NextRenew, Renew, FailureRecord,
        Schedule, WorkEnabled;
    EnabledPhases(c, s, a, x);
    ScriptStep(c, s, a, x);
    match x
    case ClaimNext(token, sampled) => ClaimStepDelays(s, a, token, sampled, sampled + c.visibility);
    case RenewLease(sampled) => RenewDelays(s, a, sampled + c.visibility);
    case ScheduleFailure(now, draw) =>
      ScheduleStore(c, s, a, now, draw);
      match FailureRecord(c.policy, Rebuilt(s.workers[a].delivery), s.workers[a].phase.failure, now, now, draw) {
        case None =>
        case Some(r) => ScheduleDelays(s.store, r);
      }
    case FinalizeFailure(id) => FinalizeDelays(s, a, id);
    case AckSuccess(answer) =>
      AckDelays(s, s.workers[a].delivery);
      AckFrame(s, a, answer);
    case AckFailure => AckDelays(s, s.workers[a].delivery);
    case _ => QuietFrame(c, s, a, x);
  }

  lemma EnabledPhases(c: Config, s: System, a: ActorId, x: WorkerStep)
    requires WorkEnabled(c, s, a, x)
    ensures !x.ClaimNext? ==> a in s.workers
    ensures x.ScheduleFailure? ==> s.workers[a].phase.Dispatching?
    ensures x.FinalizeFailure? ==> s.workers[a].phase.Finalizing?
  {
  }

  lemma RenewDelays(s: System, a: ActorId, deadline: Time)
    requires a in s.workers
    ensures SameDelays(s.store, NextRenew(s, a, deadline).store)
  {
    var d := s.workers[a].delivery;
    RenewFrame(s.store, d.messageId, d.token, d.taskId, deadline, d.token.worker);
    hide Renew;
  }

  lemma RecoverOneDelays(st: Store, m: MessageId, now: Time, terminal: bool, plan: RecoveryPlan)
    ensures KeepsDelays(st, RecoverOne(st, m, now, terminal, plan).0)
  {
    if Expired(st, m, now) {
      FilePlanDelays(ReleaseLease(st, m), m, st.inflight[m].taskId, plan);
      hide FilePlan;
    }
  }

  lemma FilePlanDelays(st: Store, m: MessageId, task: TaskId, plan: RecoveryPlan)
    ensures KeepsDelays(st, FilePlan(st, m, task, plan).0)
  {
  }

  lemma RecoverDelays(c: Config, s: System, a: ActorId, x: RecovererStep)
    requires RecoverEnabled(s, a, x)
    ensures KeepsDelays(s.store, NextRecover(c, s, a, x).store)
  {
    hide RecoverOne, PlanRecovery, NextReader;
    if x.RunRecovery? {
      var r := s.recoverers[a];
      RecoverOneDelays(s.store, r.pending[0], r.now, r.phase.terminal, PlanOf(c, r, x.draw, x.id));
    }
  }

  lemma OperateDelays(s: System, a: ActorId, x: OperatorStep)
    requires |s.store.ready| == 4 && OperateEnabled(s, a, x)
    ensures SameDelays(s.store, NextOperate(s, a, x).store)
  {
    hide NextReplay;
    match x
    case RunReplay(n) => ReplayDelays(s, a, n);
    case RunApproval =>
    case ReadForReplay(_) =>
    case ReadForApproval(_, _) =>
  }

  lemma ReplayDelays(s: System, a: ActorId, n: MessageId)
    requires |s.store.ready| == 4 && a in s.replayers
    ensures SameDelays(s.store, NextReplay(s, a, n).store)
  {
    hide Replay;
    var read := s.replayers[a];
    ReplayFrame(s.store, read.messageId, n, read.(replayedAs := Some(n)));
    if Replay(s.store, read.messageId, n, read.(replayedAs := Some(n))).1.Replayed? {
    } else {
    }
  }

  lemma PromoteOneKeeps(st: Store, k: MessageId, t: Tally, m: MessageId, r: RetryRecord)
    requires |st.ready| == 4 && Waiting(st, m, r) && k != m
    ensures PromoteOne(st, k, t).Some? ==> Waiting(PromoteOne(st, k, t).value.0, m, r)
  {
    if k in st.delayed && st.delayed[k].Scheduled? {
      var e := st.delayed[k].record.envelope;
      assert Waiting(Unschedule(st, k), m, r);
      assert SameDelays(Unschedule(st, k), PushReady(Unschedule(st, k), e));
      hide Unschedule, PushReady;
    }
  }

  /** A promotion whose page leaves m out leaves it delayed. */
  lemma {:induction false} PromoteKeeps(st: Store, page: seq<MessageId>, t: Tally, m: MessageId, r: RetryRecord)
    requires |st.ready| == 4 && Waiting(st, m, r) && m !in page
    ensures Waiting(PromoteAll(st, page, t).0, m, r)
    decreases page
  {
    hide PromoteOne, Waiting;
    if page == [] {
    } else {
      PromoteOneKeeps(st, page[0], t, m, r);
      PromoteOneFrame(st, page[0], t);
      if PromoteOne(st, page[0], t).Some? {
        var next := PromoteOne(st, page[0], t).value;
        PromoteKeeps(next.0, page[1..], next.1, m, r);
      }
    }
  }

  lemma CancelDelays(s: System, task: TaskId, m: MessageId, r: RetryRecord)
    requires Inv(s) && Waiting(s.store, m, r)
    ensures var t := Cancel(s.store, task).0; Waiting(t, m, r) || r.taskId in t.cancelled
  {
    assert RetryOk(s.issued, m, s.store.delayed[m], s.store.delayedDue[m]);
    if task in s.store.taskIndex && s.store.taskIndex[task] == m {
      assert s.issued[m].taskId == task == r.taskId;
    }
    hide Inv;
    if task in s.store.cancelled {
    } else if task in s.store.taskIndex {
    } else {
    }
  }

  /** The step is a promotion that looks at a time when r is due. */
  predicate LooksLater(x: Action, r: RetryRecord) { x.PromoteDue? && r.dueAt <= x.now }

  lemma StepWaits(c: Config, s: System, x: Action, m: MessageId, r: RetryRecord)
    requires Inv(s) && |s.store.ready| == 4 && Enabled(c, s, x) && Waiting(s.store, m, r) && !LooksLater(x, r)
    ensures Waiting(Next(c, s, x).store, m, r) || r.taskId in Next(c, s, x).store.cancelled
  {
    hide Inv, NextWork, WorkEnabled, NextRecover, RecoverEnabled, NextOperate, OperateEnabled, NextEnqueue, PromoteAll,
        Cancel, WithDurable;
    match x
    case Work(a, step) => WorkDelays(c, s, a, step);
    case Recover(a, step) => RecoverDelays(c, s, a, step);
    case Operate(a, step) => OperateDelays(s, a, step);
    case PromoteDue(now, _, page) =>
      assert m !in page;
      PromoteKeeps(s.store, page, Tally(0, 0, 0), m, r);
    case CancelTask(task) => CancelDelays(s, task, m, r);
    case EnqueueTask(key, k, task, state, priority) => EnqueueDelays(s, key, k, task, state, priority);
    case SetDurable(task, state) => DurableFrame(s, task, state);
    case ExpireDedupe(_) =>
    case Tick(_) =>
  }

  lemma EnqueueDelays(s: System, key: DedupeKey, m: MessageId, task: TaskId, state: TaskState, priority: Priority)
    requires |s.store.ready| == 4
    ensures SameDelays(s.store, NextEnqueue(s, key, m, task, state, priority).store)
  {
    EnqueueFrame(s.store, key, Envelope(m, task, state, 0, priority, None));
    hide Enqueue;
  }

  // ----- Runs -----

  ghost predicate NobodyLooksLater(xs: seq<Action>, r: RetryRecord) {
    forall k :: 0 <= k < |xs| ==> !LooksLater(xs[k], r)
  }

  /** In every run, whatever else interleaves, a delayed retry stays delayed until a promotion looks at a time
      when it is due, or its task is cancelled. */
  lemma {:induction false} BackoffIsWaited(c: Config, s: System, xs: seq<Action>, m: MessageId, r: RetryRecord)
    requires Inv(s) && |s.store.ready| == 4 && Run(c, s, xs) && Waiting(s.store, m, r) && NobodyLooksLater(xs, r)
    ensures var t := After(c, s, xs); Waiting(t.store, m, r) || r.taskId in t.store.cancelled
    decreases xs
  {
    hide Inv, Next, Enabled, Waiting;
    if xs == [] {
    } else {
      var t := Next(c, s, xs[0]);
      StepWaits(c, s, xs[0], m, r);
      StepKeepsInv(c, s, xs[0]);
      if Waiting(t.store, m, r) {
        BackoffIsWaited(c, t, xs[1..], m, r);
      } else {
        CancellationDrain.CancelledForever(c, t, xs[1..], r.taskId);
      }
    }
  }

  // ----- When retries are due -----

  /** The worker's dispatcher files a retry of its delivery: possible, affordable, and neither cancelled nor
      delayed already. */
  predicate FilesRetry(c: Config, s: System, a: ActorId, draw: Draw) {
    && a in s.workers && s.workers[a].phase.Dispatching?
    && var d := s.workers[a].delivery;
       var f := s.workers[a].phase.failure;
       && Affordable(c.policy, d.attempt + 1, f.retryable, f.retryAfter, draw)
       && d.taskId !in s.store.cancelled && d.messageId !in s.store.delayed
  }

  /** A retry that the dispatcher files is due exactly the wait of its attempt later, and stays delayed until
      then. */
  lemma DispatchedRetryWaits(c: Config, s: System, a: ActorId, now: Time, draw: Draw, xs: seq<Action>)
    returns (r: RetryRecord)
    requires Inv(s) && |s.store.ready| == 4 && FilesRetry(c, s, a, draw)
    requires Run(c, s, [Work(a, ScheduleFailure(now, draw))] + xs)
    ensures var d := s.workers[a].delivery;
            && r.messageId == d.messageId && r.taskId == d.taskId
            && r.dueAt == now + Wait(c.policy, d.attempt + 1, s.workers[a].phase.failure.retryAfter, draw)
            && (NobodyLooksLater(xs, r) ==>
                  var t := After(c, s, [Work(a, ScheduleFailure(now, draw))] + xs);
                  Waiting(t.store, d.messageId, r) || r.taskId in t.store.cancelled)
  {
    var x := Work(a, ScheduleFailure(now, draw));
    r := ScheduledRetry(c, s, a, now, draw);
    StepKeepsInv(c, s, x);
    hide Inv, Next, Enabled, Waiting, FilesRetry, Wait;
    assert ([x] + xs)[1..] == xs;
    if NobodyLooksLater(xs, r) {
      BackoffIsWaited(c, Next(c, s, x), xs, s.workers[a].delivery.messageId, r);
    }
  }

  lemma ScheduledRetry(c: Config, s: System, a: ActorId, now: Time, draw: Draw) returns (r: RetryRecord)
    requires |s.store.ready| == 4 && FilesRetry(c, s, a, draw)
    ensures var d := s.workers[a].delivery;
            && r.messageId == d.messageId && r.taskId == d.taskId
            && r.dueAt == now + Wait(c.policy, d.attempt + 1, s.workers[a].phase.failure.retryAfter, draw)
            && Enabled(c, s, Work(a, ScheduleFailure(now, draw)))
            && Waiting(Next(c, s, Work(a, ScheduleFailure(now, draw))).store, d.messageId, r)
  {
    var w := s.workers[a];
    var f := w.phase.failure;
    DecideIsAffordable(c.policy, w.delivery.attempt + 1, f.retryable, f.retryAfter, draw);
    hide Decide, Affordable, Wait, NextSchedule;
    r := FailureRecord(c.policy, Rebuilt(w.delivery), f, now, now, draw).value;
    ScheduleStore(c, s, a, now, draw);
  }

  /** The same for a lease that a recoverer finds lapsed. */
  lemma RecoveredRetryWaits(c: Config, s: System, a: ActorId, draw: Draw, id: RecordId, xs: seq<Action>)
    returns (r: RetryRecord)
    requires Inv(s) && |s.store.ready| == 4 && Run(c, s, [Recover(a, RunRecovery(draw, id))] + xs)
    requires var k := s.recoverers[a];
             && RecoverEnabled(s, a, RunRecovery(draw, id))
             && Expired(s.store, k.pending[0], k.now)
             && RecoverOne(s.store, k.pending[0], k.now, k.phase.terminal, PlanOf(c, k, draw, id)).1 == RetryScheduled
    ensures var k := s.recoverers[a];
            var e := s.store.inflight[k.pending[0]];
            && r.messageId == k.pending[0] && r.taskId == e.taskId
            && r.dueAt == k.now + Wait(c.policy, e.attempt + 1, None, draw)
            && (NobodyLooksLater(xs, r) ==>
                  var t := After(c, s, [Recover(a, RunRecovery(draw, id))] + xs);
                  Waiting(t.store, k.pending[0], r) || r.taskId in t.store.cancelled)
  {
    var x := Recover(a, RunRecovery(draw, id));
    r := RecoveredRetry(c, s, a, draw, id);
    StepKeepsInv(c, s, x);
    hide Inv, Next, Enabled, Waiting, Wait, RecoverOne, RecoverEnabled;
    assert ([x] + xs)[1..] == xs;
    if NobodyLooksLater(xs, r) {
      BackoffIsWaited(c, Next(c, s, x), xs, s.recoverers[a].pending[0], r);
    }
  }

  lemma RecoveredRetry(c: Config, s: System, a: ActorId, draw: Draw, id: RecordId) returns (r: RetryRecord)
    requires Inv(s) && |s.store.ready| == 4 && RecoverEnabled(s, a, RunRecovery(draw, id))
    requires var k := s.recoverers[a];
             && Expired(s.store, k.pending[0], k.now)
             && RecoverOne(s.store, k.pending[0], k.now, k.phase.terminal, PlanOf(c, k, draw, id)).1 == RetryScheduled
    ensures var k := s.recoverers[a];
            var e := s.store.inflight[k.pending[0]];
            && r.messageId == k.pending[0] && r.taskId == e.taskId
            && r.dueAt == k.now + Wait(c.policy, e.attempt + 1, None, draw)
            && Waiting(Next(c, s, Recover(a, RunRecovery(draw, id))).store, k.pending[0], r)
  {
    hide Inv, PlanOf, RecoverOne, Affordable, Wait, LeaseRecoveries.Planned;
    var k := s.recoverers[a];
    var m := k.pending[0];
    var plan := PlanOf(c, k, draw, id);
    FreshPlan(c, s, a, draw, id);
    RetryFiled(s.store, m, k.now, k.phase.terminal, plan);
    PlannedRetry(c.policy, plan, c.maximumAttempts, m, k.now, s.store.inflight[m], s.store.leases[m], draw, id);
    r := plan.entry.record;
  }

  lemma FreshPlan(c: Config, s: System, a: ActorId, draw: Draw, id: RecordId)
    requires Inv(s) && RecoverEnabled(s, a, RunRecovery(draw, id))
    requires Expired(s.store, s.recoverers[a].pending[0], s.recoverers[a].now)
    ensures var k := s.recoverers[a];
            var m := k.pending[0];
            LeaseRecoveries.Planned(c.policy, PlanOf(c, k, draw, id), c.maximumAttempts, m, k.now, s.store.inflight[m],
                                    s.store.leases[m], draw, id)
  {
    PassedCheckMeansFreshPlan(s, a, c, draw, id);
    hide Inv, PlanRecovery, LeaseRecoveries.Planned;
    var k := s.recoverers[a];
    var m := k.pending[0];
    LeaseRecoveries.PlanMeans(c.policy, c.maximumAttempts, m, k.now, s.store.inflight[m], s.store.leases[m], draw, id);
  }

  lemma PlannedRetry(policy: RetryPolicy, plan: RecoveryPlan, limit: int, m: MessageId, now: Time, e: Envelope,
                     l: Lease, draw: Draw, id: RecordId)
    requires LeaseRecoveries.Planned(policy, plan, limit, m, now, e, l, draw, id) && plan.RetryPlan?
    ensures plan.entry.Scheduled? && plan.due == plan.entry.record.dueAt
    ensures var r := plan.entry.record;
            r.messageId == m && r.taskId == e.taskId && r.dueAt == now + Wait(policy, e.attempt + 1, None, draw)
  {
    hide Wait, Affordable;
  }

  lemma RetryFiled(st: Store, m: MessageId, now: Time, terminal: bool, plan: RecoveryPlan)
    requires Expired(st, m, now) && RecoverOne(st, m, now, terminal, plan).1 == RetryScheduled
    ensures plan.RetryPlan?
    ensures var u := RecoverOne(st, m, now, terminal, plan).0;
            m in u.delayed && u.delayed[m] == plan.entry && m in u.delayedDue && u.delayedDue[m] == plan.due
  {
  }
}
