/** As long as no step copies a message, the number of times it is claimed is exactly what its attempt number
    says, and bounded by its retry budget. */
module ClaimBudget {
  import opened Options
  import opened QueueTypes
  import opened QueueScripts
  import opened DeliveryProtocol
  import opened DeliveryInvariant
  import opened WorkerSteps
  import opened RetryPolicies
  import opened ReadyCounts
  import opened OnePlace
  import RetryBudget

  /** At most max(1, maximum_attempts - first attempt) claims. */
  function ClaimCap(c: Config, first: nat): int {
    if c.policy.maximumAttempts - first < 1 then 1 else c.policy.maximumAttempts - first
  }

  ghost predicate Queued(c: Config, ready: seq<seq<Envelope>>, first: nat, n: nat, m: MessageId) {
    forall p, i :: 0 <= p < |ready| && 0 <= i < |ready[p]| && ready[p][i].messageId == m ==>
      ready[p][i].attempt == first + n && (n == 0 || ready[p][i].attempt < c.policy.maximumAttempts)
  }

  /** Message m was issued with attempt number `first` and has been claimed n times. */
  ghost predicate Tracked(c: Config, st: Store, first: nat, n: nat, m: MessageId) {
    && n <= ClaimCap(c, first)
    && Queued(c, st.ready, first, n, m)
    && (m in st.inflight ==>
          1 <= n && st.inflight[m].attempt == first + n - 1
              && (n == 1 || st.inflight[m].attempt < c.policy.maximumAttempts))
    && (m in st.delayed && st.delayed[m].Scheduled? ==>
          st.delayed[m].record.envelope.attempt == first + n
              && st.delayed[m].record.envelope.attempt < c.policy.maximumAttempts)
  }

  lemma DropTracked(c: Config, st: Store, p: Priority, first: nat, n: nat, m: MessageId)
    requires |st.ready| == 4 && st.ready[p] != [] && Tracked(c, st, first, n, m)
    ensures |DropHead(st, p).ready| == 4 && Tracked(c, DropHead(st, p), first, n, m)
  {
  }

  /** Leasing the only occurrence of m moves it in flight and counts one claim. */
  lemma LeaseTracked(c: Config, st: Store, p: Priority, token: Token, claimedAt: Time, deadline: Time, first: nat,
                     n: nat, m: MessageId)
    requires |st.ready| == 4 && st.ready[p] != [] && Tracked(c, st, first, n, m) && Places(st, m) <= 1
    ensures var t := LeaseHead(st, p, token, claimedAt, deadline);
            |t.ready| == 4 && Tracked(c, t, first, n + One(st.ready[p][0].messageId == m), m)
  {
    var t := LeaseHead(st, p, token, claimedAt, deadline);
    var popped := PopHead(st, p);
    if st.ready[p][0].messageId == m {
      PopCount(st, p, OfMessage(m));
      InReadyMember(st, OfMessage(m), p, 0);
      forall q, i | 0 <= q < 4 && 0 <= i < |t.ready[q]| ensures t.ready[q][i].messageId != m {
        if t.ready[q][i].messageId == m {
          InReadyMember(popped, OfMessage(m), q, i);
        }
      }
    }
  }

  lemma {:induction false} ClaimTracked(c: Config, st: Store, p: nat, token: Token, claimedAt: Time, deadline: Time,
                                        first: nat, n: nat, m: MessageId)
    requires |st.ready| == 4 && p <= 4 && Tracked(c, st, first, n, m) && Places(st, m) <= 1
    ensures var (t, claimed) := ClaimFrom(st, p, token, claimedAt, deadline);
            |t.ready| == 4 && Tracked(c, t, first, n + One(claimed.Some? && claimed.value.messageId == m), m)
    decreases 4 - p
  {
    hide ClaimFrom, Tracked, Places, Dead;
    ClaimIteration(st, p, token, claimedAt, deadline);
    if p < 4 {
      if st.ready[p] == [] {
        ClaimTracked(c, st, p + 1, token, claimedAt, deadline, first, n, m);
      } else if Dead(st, st.ready[p][0]) {
        DropTracked(c, st, p, first, n, m);
        DropHeadPlaces(st, p, m);
        ClaimTracked(c, DropHead(st, p), p + 1, token, claimedAt, deadline, first, n, m);
      } else {
        LeaseTracked(c, st, p, token, claimedAt, deadline, first, n, m);
      }
    }
  }

  lemma PushTracked(c: Config, st: Store, e: Envelope, first: nat, n: nat, m: MessageId)
    requires |st.ready| == 4 && Tracked(c, st, first, n, m)
    requires e.messageId == m ==> e.attempt == first + n && (n == 0 || e.attempt < c.policy.maximumAttempts)
    ensures Tracked(c, PushReady(st, e), first, n, m)
  {
    PushQueued(c, st.ready, e, first, n, m);
    hide Queued;
  }

  lemma PushQueued(c: Config, ready: seq<seq<Envelope>>, e: Envelope, first: nat, n: nat, m: MessageId)
    requires |ready| == 4 && Queued(c, ready, first, n, m)
    requires e.messageId == m ==> e.attempt == first + n && (n == 0 || e.attempt < c.policy.maximumAttempts)
    ensures Queued(c, ready[e.priority := ready[e.priority] + [e]], first, n, m)
  {
  }

  lemma ShrinkTracked(c: Config, st: Store, t: Store, first: nat, n: nat, m: MessageId)
    requires |st.ready| == 4 && Tracked(c, st, first, n, m) && t.ready == st.ready
    requires m in t.inflight ==> m in st.inflight && t.inflight[m] == st.inflight[m]
    requires m in t.delayed ==> m in st.delayed && t.delayed[m] == st.delayed[m]
    ensures Tracked(c, t, first, n, m)
  {
  }

  lemma PromoteOneTracked(c: Config, st: Store, k: MessageId, tally: Tally, first: nat, n: nat, m: MessageId)
    requires |st.ready| == 4 && Tracked(c, st, first, n, m)
    requires k in st.delayed && st.delayed[k].Scheduled? ==> st.delayed[k].record.envelope.messageId == k
    ensures PromoteOne(st, k, tally).Some? ==>
              |PromoteOne(st, k, tally).value.0.ready| == 4 && Tracked(c, PromoteOne(st, k, tally).value.0, first, n, m)
  {
    if k in st.delayed {
      ShrinkTracked(c, st, Unschedule(st, k), first, n, m);
      if st.delayed[k].Scheduled? {
        PushTracked(c, Unschedule(st, k), st.delayed[k].record.envelope, first, n, m);
      }
    } else {
      ShrinkTracked(c, st, st.(delayedDue := st.delayedDue - {k}), first, n, m);
    }
    hide Tracked;
  }

  lemma {:induction false} PromoteTracked(c: Config, s: System, ids: seq<MessageId>, tally: Tally, first: nat, n: nat,
                                          m: MessageId)
    requires Inv(s) && Tracked(c, s.store, first, n, m)
    ensures |PromoteAll(s.store, ids, tally).0.ready| == 4 && Tracked(c, PromoteAll(s.store, ids, tally).0, first, n, m)
    decreases ids
  {
    FourLists(s);
    if ids == [] {
    } else {
      assert ids[0] in s.store.delayed ==> RetryOk(s.issued, ids[0], s.store.delayed[ids[0]],
             s.store.delayedDue[ids[0]]);
      hide Inv, PromoteOne, Tracked;
      PromoteOneKeepsInv(s, ids[0], tally);
      PromoteOneTracked(c, s.store, ids[0], tally, first, n, m);
      var next := PromoteOne(s.store, ids[0], tally).value;
      PromoteTracked(c, s.(store := next.0), ids[1..], next.1, first, n, m);
    }
  }

  /** A planned retry carries the next attempt number, below the budget. */
  predicate NextAttempt(c: Config, e: Envelope, plan: RecoveryPlan) {
    plan.RetryPlan? ==>
      && plan.entry.Scheduled?
      && plan.entry.record.envelope.attempt == e.attempt + 1
      && e.attempt + 1 < c.policy.maximumAttempts
  }

  lemma PlanNextAttempt(c: Config, m: MessageId, now: Time, e: Envelope, l: Lease, draw: Draw, id: RecordId)
    ensures NextAttempt(c, e, PlanRecovery(c.policy, c.maximumAttempts, m, now, Some(e), Some(l), draw, id))
  {
    RetryBudget.DecideBudget(c.policy, e.attempt + 1, true, None, 0.0, draw);
    hide Decide;
  }

  lemma FileTracked(c: Config, st: Store, m: MessageId, task: TaskId, plan: RecoveryPlan, e: Envelope, first: nat,
                    n: nat)
    requires |st.ready| == 4 && Tracked(c, st, first, n, m) && NextAttempt(c, e, plan) && e.attempt == first + n - 1
    ensures |FilePlan(st, m, task, plan).0.ready| == 4 && Tracked(c, FilePlan(st, m, task, plan).0, first, n, m)
  {
  }

  lemma FileOther(c: Config, st: Store, k: MessageId, task: TaskId, plan: RecoveryPlan, first: nat, n: nat,
                  m: MessageId)
    requires |st.ready| == 4 && Tracked(c, st, first, n, m) && k != m
    ensures |FilePlan(st, k, task, plan).0.ready| == 4 && Tracked(c, FilePlan(st, k, task, plan).0, first, n, m)
  {
  }

  lemma RecoverTracked(c: Config, st: Store, k: MessageId, now: Time, terminal: bool, plan: RecoveryPlan, first: nat,
                       n: nat, m: MessageId)
    requires |st.ready| == 4 && Tracked(c, st, first, n, m)
    requires k == m && Expired(st, k, now) ==> NextAttempt(c, st.inflight[k], plan)
    ensures |RecoverOne(st, k, now, terminal, plan).0.ready| == 4
    ensures Tracked(c, RecoverOne(st, k, now, terminal, plan).0, first, n, m)
  {
    var free := ReleaseLease(st, k);
    ShrinkTracked(c, st, free, first, n, m);
    if Expired(st, k, now) {
      var e := st.inflight[k];
      assert k == m ==> e.attempt == first + n - 1;
      hide Tracked, FilePlan;
      if k == m {
        FileTracked(c, free, m, e.taskId, plan, e, first, n);
      } else {
        FileOther(c, free, k, e.taskId, plan, first, n, m);
      }
    }
  }

  // ----- Steps -----

  /** m, if it exists, is in one place at most and its attempt number tells its claims. */
  ghost predicate Accounted(c: Config, s: System, m: MessageId) {
    && Single(s, m)
    && (m in s.issued ==> m in s.claims && Tracked(c, s.store, s.issued[m].attempt, s.claims[m], m))
  }

  lemma At(c: Config, s: System, m: MessageId)
    requires Accounted(c, s, m) && m in s.issued
    ensures Inv(s) && |s.store.ready| == 4 && m in s.claims
    ensures Places(s.store, m) <= 1 && Tracked(c, s.store, s.issued[m].attempt, s.claims[m], m)
  {
  }

  lemma WorkTracked(c: Config, s: System, a: ActorId, x: WorkerStep, m: MessageId)
    requires Accounted(c, s, m) && WorkEnabled(c, s, a, x) && !Copies(c, s, Work(a, x), m) && m in s.issued
    ensures var t := NextWork(c, s, a, x);
            |t.store.ready| == 4 && m in t.claims && Tracked(c, t.store, s.issued[m].attempt, t.claims[m], m)
  {
    hide Inv, Tracked, Places, Accounted, NextWork, AfterAck, NextAckSuccess, NextClaim, NextRenew, NextSchedule,
        NextFinalize, DelaysAgain;
    At(c, s, m);
    ScriptStep(c, s, a, x);
    var first, n := s.issued[m].attempt, s.claims[m];
    match x
    case ClaimNext(token, sampled) => ClaimStepTracked(c, s, a, token, sampled, sampled + c.visibility, m);
    case AckSuccess(answer) =>
      AckFrame(s, a, answer);
      AckTracked(c, s, s.workers[a].delivery, first, n, m);
    case AckFailure => AckTracked(c, s, s.workers[a].delivery, first, n, m);
    case RenewLease(sampled) => RenewTracked(c, s, a, sampled + c.visibility, first, n, m);
    case ScheduleFailure(now, draw) => ScheduleTracked(c, s, a, x, first, n, m);
    case FinalizeFailure(id) => FinalizeTracked(c, s, a, id, first, n, m);
    case _ => QuietFrame(c, s, a, x);
  }

  /** A schedule that does not copy m leaves m's entries alone. */
  lemma ScheduleTracked(c: Config, s: System, a: ActorId, x: WorkerStep, first: nat, n: nat, m: MessageId)
    requires |s.store.ready| == 4 && x.ScheduleFailure? && WorkEnabled(c, s, a, x) && Tracked(c, s.store, first, n, m)
    requires !(s.workers[a].delivery.messageId == m && DelaysAgain(c, s, a, x))
    ensures var t := NextSchedule(c, s, a, x.now, x.draw);
            |t.store.ready| == 4 && t.claims == s.claims && Tracked(c, t.store, first, n, m)
  {
    hide FailureRecord, Tracked, Schedule, NextSchedule;
    var w := s.workers[a];
    ScheduleStore(c, s, a, x.now, x.draw);
    match FailureRecord(c.policy, Rebuilt(w.delivery), w.phase.failure, x.now, x.now, x.draw)
    case None =>
    case Some(r) =>
      RecordIds(c.policy, Rebuilt(w.delivery), w.phase.failure, x.now, x.draw);
      ScheduleOther(c, s.store, r, first, n, m);
  }

  lemma ScheduleOther(c: Config, st: Store, r: RetryRecord, first: nat, n: nat, m: MessageId)
    requires |st.ready| == 4 && Tracked(c, st, first, n, m)
    requires r.messageId == m ==> r.taskId in st.cancelled || m in st.delayed
    ensures |Schedule(st, r).0.ready| == 4 && Tracked(c, Schedule(st, r).0, first, n, m)
  {
    hide Tracked;
    if Schedule(st, r).1 {
      ShrinkTracked(c, st, Schedule(st, r).0, first, n, m);
    } else {
      assert Schedule(st, r).0 == st;
    }
  }

  lemma FinalizeTracked(c: Config, s: System, a: ActorId, id: RecordId, first: nat, n: nat, m: MessageId)
    requires |s.store.ready| == 4 && a in s.workers && s.workers[a].phase.Finalizing?
             && Tracked(c, s.store, first, n, m)
    ensures var t := NextFinalize(s, a, id);
            |t.store.ready| == 4 && t.claims == s.claims && Tracked(c, t.store, first, n, m)
  {
    hide Tracked, FailureDeadLetter;
    ShrinkTracked(c, s.store, NextFinalize(s, a, id).store, first, n, m);
  }

  lemma RenewTracked(c: Config, s: System, a: ActorId, deadline: Time, first: nat, n: nat, m: MessageId)
    requires |s.store.ready| == 4 && a in s.workers && Tracked(c, s.store, first, n, m)
    ensures var t := NextRenew(s, a, deadline);
            |t.store.ready| == 4 && t.claims == s.claims && Tracked(c, t.store, first, n, m)
  {
    hide Tracked, Renew;
    var d := s.workers[a].delivery;
    RenewFrame(s.store, d.messageId, d.token, d.taskId, deadline, d.token.worker);
    ShrinkTracked(c, s.store, NextRenew(s, a, deadline).store, first, n, m);
  }

  lemma ClaimStepTracked(c: Config, s: System, a: ActorId, token: Token, sampled: Time, deadline: Time, m: MessageId)
    requires |s.store.ready| == 4 && m in s.issued && m in s.claims && Places(s.store, m) <= 1
    requires Tracked(c, s.store, s.issued[m].attempt, s.claims[m], m)
    ensures var t := NextClaim(s, a, token, sampled, deadline);
            |t.store.ready| == 4 && m in t.claims && Tracked(c, t.store, s.issued[m].attempt, t.claims[m], m)
  {
    hide ClaimFrom, Tracked, Places;
    ClaimTracked(c, s.store, 0, token, sampled, deadline, s.issued[m].attempt, s.claims[m], m);
    match ClaimFrom(s.store, 0, token, sampled, deadline).1
    case None =>
    case Some(e) =>
  }

  lemma AckTracked(c: Config, s: System, d: Delivery, first: nat, n: nat, m: MessageId)
    requires |s.store.ready| == 4 && Tracked(c, s.store, first, n, m)
    ensures AfterAck(s, d) == s.(store := AfterAck(s, d).store)
    ensures |AfterAck(s, d).store.ready| == 4 && Tracked(c, AfterAck(s, d).store, first, n, m)
  {
    hide Tracked;
    var t := AfterAck(s, d).store;
    if AckResult(s, d) == 1 {
      assert t == ReleaseLease(s.store, d.messageId);
    } else {
      assert t == s.store;
    }
    ShrinkTracked(c, s.store, t, first, n, m);
  }

  lemma RecoveryStepTracked(c: Config, s: System, a: ActorId, draw: Draw, id: RecordId, first: nat, n: nat,
                            m: MessageId)
    requires Inv(s) && RecoverEnabled(s, a, RunRecovery(draw, id)) && Tracked(c, s.store, first, n, m)
    ensures var t := NextRecovery(c, s, a, draw, id);
            |t.store.ready| == 4 && t.claims == s.claims && Tracked(c, t.store, first, n, m)
  {
    FourLists(s);
    var r := s.recoverers[a];
    var k := r.pending[0];
    hide Inv, PlanRecovery, Tracked, RecoverOne;
    if Expired(s.store, k, r.now) {
      PassedCheckMeansFreshPlan(s, a, c, draw, id);
      PlanNextAttempt(c, k, r.now, s.store.inflight[k], s.store.leases[k], draw, id);
    }
    RecoverTracked(c, s.store, k, r.now, r.phase.terminal, PlanOf(c, r, draw, id), first, n, m);
  }

  lemma OldReplayTracked(c: Config, s: System, a: ActorId, k: MessageId, first: nat, n: nat, m: MessageId)
    requires Inv(s) && a in s.replayers && k != m && k !in s.issued && m in s.claims && s.claims[m] == n
             && Tracked(c, s.store, first, n, m)
    ensures var t := NextReplay(s, a, k);
            |t.store.ready| == 4 && m in t.claims && t.claims[m] == n && Tracked(c, t.store, first, n, m)
  {
    hide Inv, Tracked, NextReplay;
    var key := s.replayers[a].messageId;
    var updated := s.replayers[a].(replayedAs := Some(k));
    ReaderKeyExists(s, a);
    FourLists(s);
    ReplayShape(s, a, k);
    var rewritten := s.store.(dlq := s.store.dlq[key := updated]);
    ShrinkTracked(c, s.store, rewritten, first, n, m);
    PushTracked(c, rewritten, s.store.dlq[key].envelope.(messageId := k, stamp := None), first, n, m);
  }

  lemma OldEnqueueTracked(c: Config, s: System, key: DedupeKey, k: MessageId, task: TaskId, state: TaskState,
                          priority: Priority,
                          first: nat, n: nat, m: MessageId)
    requires |s.store.ready| == 4 && k != m && m in s.claims && s.claims[m] == n && Tracked(c, s.store, first, n, m)
    ensures var t := NextEnqueue(s, key, k, task, state, priority);
            |t.store.ready| == 4 && m in t.claims && t.claims[m] == n && Tracked(c, t.store, first, n, m)
  {
    hide Tracked;
    if key !in s.store.dedupe {
      var pushed := PushReady(s.store, Envelope(k, task, state, 0, priority, None));
      PushTracked(c, s.store, Envelope(k, task, state, 0, priority, None), first, n, m);
      ShrinkTracked(c, pushed, pushed.(dedupe := s.store.dedupe[key := k], taskIndex := s.store.taskIndex[task := k]),
          first, n, m);
      hide PushReady;
    }
  }

  lemma StepTracked(c: Config, s: System, x: Action, m: MessageId)
    requires Accounted(c, s, m) && Enabled(c, s, x) && !Copies(c, s, x, m) && m in s.issued
    ensures var t := Next(c, s, x);
            |t.store.ready| == 4 && m in t.claims && Tracked(c, t.store, s.issued[m].attempt, t.claims[m], m)
  {
    hide Inv, Tracked, Places, Accounted, Copies, NextWork, WorkEnabled, NextRecover, RecoverEnabled, NextEnqueue,
        PromoteAll, Cancel, IsDuePage,
         NextOperate, OperateEnabled;
    At(c, s, m);
    var first, n := s.issued[m].attempt, s.claims[m];
    match x
    case Work(a, step) => WorkTracked(c, s, a, step, m);
    case Recover(a, step) => RecoverTrackedStep(c, s, a, step, first, n, m);
    case EnqueueTask(key, k, task, state, priority) => OldEnqueueTracked(c, s, key, k, task, state, priority, first, n,
        m);
    case PromoteDue(_, _, page) => PromoteTracked(c, s, page, Tally(0, 0, 0), first, n, m);
    case CancelTask(task) => CancelTracked(c, s.store, task, first, n, m);
    case ExpireDedupe(key) => ShrinkTracked(c, s.store, s.store.(dedupe := s.store.dedupe - {key}), first, n, m);
    case Operate(a, step) => OperateTracked(c, s, a, step, first, n, m);
    case Tick(_) =>
    case SetDurable(_, _) =>
  }

  lemma RecoverTrackedStep(c: Config, s: System, a: ActorId, x: RecovererStep, first: nat, n: nat, m: MessageId)
    requires Inv(s) && |s.store.ready| == 4 && RecoverEnabled(s, a, x)
    requires m in s.issued && m in s.claims && s.claims[m] == n && Tracked(c, s.store, first, n, m)
    ensures var t := NextRecover(c, s, a, x);
            |t.store.ready| == 4 && m in t.claims && t.claims[m] == n && Tracked(c, t.store, first, n, m)
  {
    hide Inv, Tracked, NextRecovery, NextReader;
    if x.RunRecovery? {
      RecoveryStepTracked(c, s, a, x.draw, x.id, first, n, m);
    }
  }

  lemma CancelTracked(c: Config, st: Store, task: TaskId, first: nat, n: nat, m: MessageId)
    requires |st.ready| == 4 && Tracked(c, st, first, n, m)
    ensures |Cancel(st, task).0.ready| == 4 && Tracked(c, Cancel(st, task).0, first, n, m)
  {
    hide Tracked, Cancel;
    CancelFrame(st, task);
    CancelShrinks(st, task);
    ShrinkTracked(c, st, Cancel(st, task).0, first, n, m);
  }

  lemma OperateTracked(c: Config, s: System, a: ActorId, x: OperatorStep, first: nat, n: nat, m: MessageId)
    requires Inv(s) && |s.store.ready| == 4 && OperateEnabled(s, a, x)
    requires m in s.issued && m in s.claims && s.claims[m] == n && Tracked(c, s.store, first, n, m)
    ensures var t := NextOperate(s, a, x);
            |t.store.ready| == 4 && m in t.claims && t.claims[m] == n && Tracked(c, t.store, first, n, m)
  {
    hide Inv, Tracked, NextReplay;
    match x
    case RunReplay(k) => OldReplayTracked(c, s, a, k, first, n, m);
    case RunApproval => ShrinkTracked(c, s.store, NextOperate(s, a, x).store, first, n, m);
    case _ =>
  }

  /** A message that is in no place but, after the push, in its ready list with its first attempt number. */
  lemma BornTracked(c: Config, st: Store, e: Envelope)
    requires |st.ready| == 4 && Places(st, e.messageId) == 0
    ensures Tracked(c, PushReady(st, e), e.attempt, 0, e.messageId)
  {
    var m := e.messageId;
    forall p, i | 0 <= p < 4 && 0 <= i < |st.ready[p]| ensures st.ready[p][i].messageId != m {
      if st.ready[p][i].messageId == m {
        InReadyMember(st, OfMessage(m), p, i);
      }
    }
  }

  lemma NewMessageTracked(c: Config, s: System, x: Action, m: MessageId)
    requires Inv(s) && Enabled(c, s, x) && m !in s.issued && m in Next(c, s, x).issued
    ensures var t := Next(c, s, x);
            |t.store.ready| == 4 && m in t.claims && t.claims[m] == 0 && Tracked(c, t.store, t.issued[m].attempt, 0, m)
  {
    hide Inv, Tracked, Places, NextWork, NextRecover, WorkEnabled, RecoverEnabled, NextEnqueue, NextReplay;
    UnissuedNowhere(s, m);
    FourLists(s);
    OnlyTwoStepsIssue(c, s, x);
    match x
    case EnqueueTask(key, k, task, state, priority) => EnqueuedTracked(c, s, key, k, task, state, priority, m);
    case Operate(a, step) => ReplayedTracked(c, s, a, step.newMessage, m);
  }

  lemma EnqueuedTracked(c: Config, s: System, key: DedupeKey, k: MessageId, task: TaskId, state: TaskState,
                        priority: Priority, m: MessageId)
    requires |s.store.ready| == 4 && Places(s.store, m) == 0 && m !in s.issued
    requires m in NextEnqueue(s, key, k, task, state, priority).issued
    ensures var t := NextEnqueue(s, key, k, task, state, priority);
            |t.store.ready| == 4 && m in t.claims && t.claims[m] == 0 && Tracked(c, t.store, t.issued[m].attempt, 0, m)
  {
    hide Tracked, Places;
    if key !in s.store.dedupe {
      var e := Envelope(k, task, state, 0, priority, None);
      BornTracked(c, s.store, e);
      var pushed := PushReady(s.store, e);
      ShrinkTracked(c, pushed, pushed.(dedupe := s.store.dedupe[key := k], taskIndex := s.store.taskIndex[task := k]),
          0, 0, m);
      hide PushReady;
    }
  }

  lemma ReplayedTracked(c: Config, s: System, a: ActorId, k: MessageId, m: MessageId)
    requires Inv(s) && a in s.replayers && Places(s.store, m) == 0 && m !in s.issued && m in NextReplay(s, a, k).issued
    ensures var t := NextReplay(s, a, k);
            |t.store.ready| == 4 && m in t.claims && t.claims[m] == 0 && Tracked(c, t.store, t.issued[m].attempt, 0, m)
  {
    hide Inv, Tracked, Places, NextReplay;
    var key := s.replayers[a].messageId;
    var updated := s.replayers[a].(replayedAs := Some(k));
    ReaderKeyExists(s, a);
    FourLists(s);
    ReplayShape(s, a, k);
    var rewritten := s.store.(dlq := s.store.dlq[key := updated]);
    RewritePlaces(s.store, key, updated, m);
    BornTracked(c, rewritten, s.store.dlq[key].envelope.(messageId := m, stamp := None));
  }

  /** A replay that issues a message issues exactly its own new id, for the recorded envelope. */
  lemma ReplayShape(s: System, a: ActorId, k: MessageId)
    requires |s.store.ready| == 4 && a in s.replayers && s.replayers[a].messageId in s.store.dlq
    ensures var key := s.replayers[a].messageId;
            var e := s.store.dlq[key].envelope;
            var rewritten := s.store.(dlq := s.store.dlq[key := s.replayers[a].(replayedAs := Some(k))]);
            var t := NextReplay(s, a, k);
            || (t.issued == s.issued && t.store == s.store && t.claims == s.claims)
            || (&& t.store == PushReady(rewritten, e.(messageId := k, stamp := None))
                && t.issued == s.issued[k := Issue(e.taskId, e.state, e.attempt, true)]
                && t.claims == s.claims[k := 0])
  {
    hide PushReady;
    var read := s.replayers[a];
    if Replay(s.store, read.messageId, k, read.(replayedAs := Some(k))).1.Replayed? {
    } else {
      assert NextReplay(s, a, k).store == s.store;
    }
  }

  lemma RewritePlaces(st: Store, key: MessageId, r: DeadLetter, m: MessageId)
    requires |st.ready| == 4 && key in st.dlq
    ensures Places(st.(dlq := st.dlq[key := r]), m) == Places(st, m)
  {
    assert st.dlq[key := r].Keys == st.dlq.Keys;
  }

  lemma StepKeepsTracked(c: Config, s: System, x: Action, m: MessageId)
    requires Accounted(c, s, m) && Enabled(c, s, x) && !Copies(c, s, x, m)
    ensures Accounted(c, Next(c, s, x), m)
  {
    StepKeepsSingle(c, s, x, m);
    var t := Next(c, s, x);
    IssuesAreKept(c, s, x);
    hide Next, Enabled, Tracked, Inv, Places, Copies;
    if m in s.issued {
      StepTracked(c, s, x, m);
    } else if m in t.issued {
      NewMessageTracked(c, s, x, m);
    }
  }

  lemma IssuesAreKept(c: Config, s: System, x: Action)
    requires |s.store.ready| == 4 && Enabled(c, s, x)
    ensures forall m :: m in s.issued ==> m in Next(c, s, x).issued && Next(c, s, x).issued[m] == s.issued[m]
  {
    hide NextWork, WorkEnabled, NextRecover, RecoverEnabled, PromoteAll, Cancel, NextEnqueue, NextReplay, IsDuePage;
    OnlyTwoStepsIssue(c, s, x);
    match x
    case EnqueueTask(key, n, task, state, priority) => EnqueueIssuesOne(s, key, n, task, state, priority);
    case Operate(a, step) =>
      if step.RunReplay? {
        ReplayIssuesOne(s, a, step.newMessage);
      } else {
        OperateIssues(s, a, step);
      }
    case _ =>
  }

  lemma EnqueueIssuesOne(s: System, key: DedupeKey, n: MessageId, task: TaskId, state: TaskState, priority: Priority)
    requires |s.store.ready| == 4 && n !in s.issued
    ensures forall m :: m in s.issued ==>
              m in NextEnqueue(s, key, n, task, state, priority).issued
                  && NextEnqueue(s, key, n, task, state, priority).issued[m] == s.issued[m]
  {
    hide Enqueue;
  }

  lemma ReplayIssuesOne(s: System, a: ActorId, n: MessageId)
    requires |s.store.ready| == 4 && a in s.replayers && n !in s.issued
    ensures forall m :: m in s.issued ==>
              m in NextReplay(s, a, n).issued && NextReplay(s, a, n).issued[m] == s.issued[m]
  {
    var read := s.replayers[a];
    if Replay(s.store, read.messageId, n, read.(replayedAs := Some(n))).1.Replayed? {
    }
  }

  /** A message issued with attempt number a is claimed at most max(1, maximum_attempts - a) times in every
      run that never copies it. */
  lemma {:induction false} ClaimsAreBounded(c: Config, s: System, xs: seq<Action>, m: MessageId)
    requires Accounted(c, s, m) && Run(c, s, xs) && NeverCopies(c, s, xs, m)
    ensures Accounted(c, After(c, s, xs), m)
    ensures var t := After(c, s, xs);
            m in t.issued ==> m in t.claims && t.claims[m] <= ClaimCap(c, t.issued[m].attempt)
    decreases xs
  {
    hide Next, Enabled, Inv, Places, Copies;
    if xs == [] {
    } else {
      StepKeepsTracked(c, s, xs[0], m);
      ClaimsAreBounded(c, Next(c, s, xs[0]), xs[1..], m);
    }
  }

  lemma InitialTracked(c: Config, m: MessageId)
    ensures Accounted(c, INITIAL, m)
  {
    InitialInv();
    hide Inv;
  }
}
