/** A tombstoned task never runs again, and its entries only drain. */
module CancellationDrain {
  import opened Options
  import opened QueueTypes
  import opened QueueScripts
  import opened DeliveryProtocol
  import opened DeliveryInvariant
  import opened WorkerSteps
  import opened RetryPolicies
  import opened ReadyCounts
  import OnePlace

  function TaskInflight(inflight: map<MessageId, Envelope>, t: TaskId): set<MessageId> {
    set m | m in inflight && inflight[m].taskId == t
  }

  function TaskDelayed(delayed: map<MessageId, DelayedEntry>, t: TaskId): set<MessageId> {
    set m | m in delayed && delayed[m].Scheduled? && delayed[m].record.taskId == t
  }

  /** Entries of task t over the ready lists, the inflight hash and the delayed hash. */
  function Entries(st: Store, t: TaskId): nat
    requires |st.ready| == 4
  {
    InReady(st, OfTask(t)) + |TaskInflight(st.inflight, t)| + |TaskDelayed(st.delayed, t)|
  }

  lemma SubsetCard<T>(a: set<T>, b: set<T>)
    requires a <= b
    ensures |a| <= |b| && (a < b ==> |a| < |b|)
  {
    assert b == a + (b - a);
    if a < b {
      assert b - a != {};
    }
  }

  /** Tables that only lost entries of t. */
  lemma ShrinkEntries(st: Store, u: Store, t: TaskId)
    requires |st.ready| == 4 && |u.ready| == 4 && InReady(u, OfTask(t)) <= InReady(st, OfTask(t))
    requires TaskInflight(u.inflight, t) <= TaskInflight(st.inflight, t)
    requires TaskDelayed(u.delayed, t) <= TaskDelayed(st.delayed, t)
    ensures Entries(u, t) <= Entries(st, t)
    ensures (InReady(u, OfTask(t)) < InReady(st, OfTask(t))
            || TaskInflight(u.inflight, t) < TaskInflight(st.inflight, t)
             || TaskDelayed(u.delayed, t) < TaskDelayed(st.delayed, t)) ==> Entries(u, t) < Entries(st, t)
  {
    SubsetCard(TaskInflight(u.inflight, t), TaskInflight(st.inflight, t));
    SubsetCard(TaskDelayed(u.delayed, t), TaskDelayed(st.delayed, t));
  }

  // ----- Claims -----

  lemma DropEntries(st: Store, p: Priority, t: TaskId)
    requires |st.ready| == 4 && st.ready[p] != []
    ensures |DropHead(st, p).ready| == 4 && Entries(DropHead(st, p), t) <= Entries(st,
            t) - One(st.ready[p][0].taskId == t)
  {
    PopCount(st, p, OfTask(t));
    var u := DropHead(st, p);
    assert InReady(u, OfTask(t)) == InReady(PopHead(st, p), OfTask(t));
    ShrinkEntries(st, u, t);
  }

  lemma LeaseEntries(st: Store, p: Priority, token: Token, claimedAt: Time, deadline: Time, t: TaskId)
    requires |st.ready| == 4 && st.ready[p] != [] && st.ready[p][0].taskId != t
    ensures var u := LeaseHead(st, p, token, claimedAt, deadline); |u.ready| == 4 && Entries(u, t) <= Entries(st, t)
  {
    PopCount(st, p, OfTask(t));
    var u := LeaseHead(st, p, token, claimedAt, deadline);
    assert InReady(u, OfTask(t)) == InReady(PopHead(st, p), OfTask(t));
    ShrinkEntries(st, u, t);
  }

  /** The claim loop gets as far as list q: every list before it is empty or has a dead head. */
  predicate Reaches(st: Store, p: nat, q: nat)
    requires |st.ready| == 4
  {
    p <= q < 4 && forall k :: p <= k < q ==> st.ready[k] == [] || Dead(st, st.ready[k][0])
  }

  lemma {:induction false} ClaimEntries(st: Store, p: nat, token: Token, claimedAt: Time, deadline: Time, t: TaskId)
    requires |st.ready| == 4 && p <= 4 && t in st.cancelled
    ensures var (u, claimed) := ClaimFrom(st, p, token, claimedAt, deadline);
            && |u.ready| == 4 && u.cancelled == st.cancelled && Entries(u, t) <= Entries(st, t)
            && (claimed.Some? ==> claimed.value.taskId != t)
    decreases 4 - p
  {
    hide ClaimFrom, Entries, LeaseHead, DropHead;
    ClaimIteration(st, p, token, claimedAt, deadline);
    if p < 4 {
      if st.ready[p] == [] {
        ClaimEntries(st, p + 1, token, claimedAt, deadline, t);
      } else if Dead(st, st.ready[p][0]) {
        DropEntries(st, p, t);
        DropKeepsRest(st, p);
        ClaimEntries(DropHead(st, p), p + 1, token, claimedAt, deadline, t);
      } else {
        LeaseEntries(st, p, token, claimedAt, deadline, t);
        LeaseKeepsCancelled(st, p, token, claimedAt, deadline);
      }
    }
  }

  lemma DropKeepsRest(st: Store, p: Priority)
    requires |st.ready| == 4 && st.ready[p] != []
    ensures var u := DropHead(st, p);
            |u.ready| == 4 && u.cancelled == st.cancelled && forall k :: 0 <= k < 4 && k != p ==>
                u.ready[k] == st.ready[k]
  {
  }

  lemma LeaseKeepsCancelled(st: Store, p: Priority, token: Token, claimedAt: Time, deadline: Time)
    requires |st.ready| == 4 && st.ready[p] != []
    ensures LeaseHead(st, p, token, claimedAt, deadline).cancelled == st.cancelled
  {
  }

  /** A claim that gets as far as a list headed by the cancelled task strictly drains it. */
  lemma {:induction false} ClaimDrains(st: Store, p: nat, q: nat, token: Token, claimedAt: Time, deadline: Time,
                                       t: TaskId)
    requires |st.ready| == 4 && t in st.cancelled && Reaches(st, p, q) && st.ready[q] != []
             && st.ready[q][0].taskId == t
    ensures var u := ClaimFrom(st, p, token, claimedAt, deadline).0;
            |u.ready| == 4 && Entries(u, t) < Entries(st, t)
    decreases 4 - p
  {
    hide ClaimFrom, Entries, LeaseHead, DropHead;
    ClaimIteration(st, p, token, claimedAt, deadline);
    if st.ready[p] == [] {
      ClaimDrains(st, p + 1, q, token, claimedAt, deadline, t);
    } else {
      DropEntries(st, p, t);
      DropKeepsRest(st, p);
      if p == q {
        ClaimEntries(DropHead(st, p), p + 1, token, claimedAt, deadline, t);
      } else {
        ClaimDrains(DropHead(st, p), p + 1, q, token, claimedAt, deadline, t);
      }
    }
  }

  // ----- Promotion -----

  lemma PromoteOneEntries(st: Store, k: MessageId, tally: Tally, t: TaskId)
    requires |st.ready| == 4 && t in st.cancelled
    requires k in st.delayed ==>
               st.delayed[k].Scheduled? && st.delayed[k].record.envelope.taskId == st.delayed[k].record.taskId
    ensures var u := PromoteOne(st, k, tally).value.0;
            && |u.ready| == 4 && u.cancelled == st.cancelled
            && Entries(u, t) <= Entries(st, t) - One(k in TaskDelayed(st.delayed, t))
            && (forall m :: m != k ==> (m in TaskDelayed(u.delayed, t) <==> m in TaskDelayed(st.delayed, t)))
  {
    var u := PromoteOne(st, k, tally).value.0;
    if k in st.delayed {
      PushCount(Unschedule(st, k), st.delayed[k].record.envelope, OfTask(t));
      assert TaskDelayed(u.delayed, t) == TaskDelayed(st.delayed, t) - {k};
    }
    ShrinkEntries(st, u, t);
  }

  /** Promoting a page that contains an entry of the cancelled task strictly drains it. */
  lemma {:induction false} PromoteEntries(s: System, ids: seq<MessageId>, tally: Tally, t: TaskId)
    requires Inv(s) && t in s.store.cancelled
    ensures var u := PromoteAll(s.store, ids, tally).0;
            && |u.ready| == 4 && Entries(u, t) <= Entries(s.store, t)
            && ((exists k :: k in ids && k in TaskDelayed(s.store.delayed, t)) ==> Entries(u, t) < Entries(s.store, t))
    decreases ids
  {
    hide Inv, PromoteOne, Entries;
    FourLists(s);
    if ids == [] {
    } else {
      var k := ids[0];
      DelayedAt(s, k);
      PromoteOneEntries(s.store, k, tally, t);
      PromoteOneKeepsInv(s, k, tally);
      var next := PromoteOne(s.store, k, tally).value;
      PromoteEntries(s.(store := next.0), ids[1..], next.1, t);
      if m :| m in ids && m in TaskDelayed(s.store.delayed, t) {
        assert m == k || m in ids[1..];
      }
    }
  }

  lemma DelayedAt(s: System, k: MessageId)
    requires Inv(s)
    ensures k in s.store.delayed ==>
                s.store.delayed[k].Scheduled?
                && s.store.delayed[k].record.envelope.taskId == s.store.delayed[k].record.taskId
  {
    assert k in s.store.delayed ==> RetryOk(s.issued, k, s.store.delayed[k], s.store.delayedDue[k]);
  }

  // ----- Recovery -----

  lemma ReleaseEntries(st: Store, k: MessageId, t: TaskId)
    requires |st.ready| == 4
    ensures var u := ReleaseLease(st, k);
            |u.ready| == 4 && Entries(u, t) <= Entries(st, t) && (k in TaskInflight(st.inflight, t) ==>
                Entries(u, t) < Entries(st, t))
  {
    var u := ReleaseLease(st, k);
    assert TaskInflight(u.inflight, t) == TaskInflight(st.inflight, t) - {k};
    assert InReady(u, OfTask(t)) == InReady(st, OfTask(t));
    ShrinkEntries(st, u, t);
  }

  lemma DelayEntries(st: Store, k: MessageId, entry: DelayedEntry, due: Time, t: TaskId)
    requires |st.ready| == 4 && k !in st.delayed
    requires entry.Scheduled? ==> entry.record.taskId != t
    ensures Entries(st.(delayed := st.delayed[k := entry], delayedDue := st.delayedDue[k := due]), t) == Entries(st, t)
  {
    assert TaskDelayed(st.delayed[k := entry], t) == TaskDelayed(st.delayed, t);
  }

  lemma FileEntries(st: Store, k: MessageId, task: TaskId, plan: RecoveryPlan, t: TaskId)
    requires |st.ready| == 4
    requires plan.RetryPlan? && plan.entry.Scheduled? ==> plan.entry.record.taskId != t
    ensures var u := FilePlan(st, k, task, plan).0; |u.ready| == 4 && Entries(u, t) == Entries(st, t)
  {
    hide Entries;
    match plan
    case DeadPlan(r) => SameEntries(st, FilePlan(st, k, task, plan).0, t);
    case RetryPlan(entry, due) => if k !in st.delayed { DelayEntries(st, k, entry, due, t); }
  }

  /** Recovery of an expired lease of the cancelled task strictly drains it. */
  lemma RecoverEntries(st: Store, k: MessageId, now: Time, terminal: bool, plan: RecoveryPlan, t: TaskId)
    requires |st.ready| == 4 && t in st.cancelled
    requires st.inflight.Keys == st.leases.Keys == st.leaseExpiry.Keys
    requires Expired(st, k, now) && plan.RetryPlan? && plan.entry.Scheduled? ==>
             plan.entry.record.taskId == st.inflight[k].taskId
    ensures var u := RecoverOne(st, k, now, terminal, plan).0;
            && |u.ready| == 4 && Entries(u, t) <= Entries(st, t)
            && (Expired(st, k, now) && st.inflight[k].taskId == t ==> Entries(u, t) < Entries(st, t))
  {
    hide Entries, FilePlan, ReleaseLease;
    ReleaseEntries(st, k, t);
    if Expired(st, k, now) && st.inflight[k].taskId != t {
      FileEntries(ReleaseLease(st, k), k, st.inflight[k].taskId, plan, t);
    }
  }

  // ----- The other steps -----

  lemma PushEntries(st: Store, e: Envelope, t: TaskId)
    requires |st.ready| == 4 && e.taskId != t
    ensures Entries(PushReady(st, e), t) == Entries(st, t)
  {
    PushCount(st, e, OfTask(t));
  }

  lemma SameEntries(st: Store, u: Store, t: TaskId)
    requires |st.ready| == 4 && u.ready == st.ready && u.inflight == st.inflight && u.delayed == st.delayed
    ensures Entries(u, t) == Entries(st, t)
  {
  }

  lemma CancelEntries(st: Store, task: TaskId, t: TaskId)
    requires |st.ready| == 4
    ensures var u := Cancel(st, task).0;
              |u.ready| == 4 && Entries(u, t) <= Entries(st, t) && st.cancelled <= u.cancelled
  {
    hide Cancel;
    var u := Cancel(st, task).0;
    CancelFrame(st, task);
    CancelGrows(st, task);
    CancelShrinks(st, task);
    forall m | m in TaskDelayed(u.delayed, t) ensures m in TaskDelayed(st.delayed, t) {
      assert m in u.delayed;
    }
    ShrinkEntries(st, u, t);
  }

  lemma CancelGrows(st: Store, task: TaskId)
    ensures st.cancelled <= Cancel(st, task).0.cancelled
  {
    if task in st.cancelled {
    } else if task in st.taskIndex {
    } else if task in st.dlqTaskIndex {
    }
  }

  lemma EnqueueEntries(s: System, key: DedupeKey, m: MessageId, task: TaskId, state: TaskState, priority: Priority,
                       t: TaskId)
    requires |s.store.ready| == 4 && task != t
    ensures var u := NextEnqueue(s, key, m, task, state, priority).store;
            |u.ready| == 4 && u.cancelled == s.store.cancelled && Entries(u, t) == Entries(s.store, t)
  {
    hide Entries;
    if key !in s.store.dedupe {
      var pushed := PushReady(s.store, Envelope(m, task, state, 0, priority, None));
      PushEntries(s.store, Envelope(m, task, state, 0, priority, None), t);
      SameEntries(pushed, pushed.(dedupe := s.store.dedupe[key := m], taskIndex := s.store.taskIndex[task := m]), t);
    }
  }

  lemma DeadLetterTask(s: System, k: MessageId)
    requires Inv(s) && k in s.store.dlq
    ensures s.store.dlq[k].envelope.taskId == s.store.dlq[k].taskId
  {
    assert DeadLetterOk(s.issued, s.store.dlq[k]);
  }

  lemma ReplayEntries(s: System, a: ActorId, n: MessageId, t: TaskId)
    requires Inv(s) && a in s.replayers && t in s.store.cancelled
    ensures var u := NextReplay(s, a, n).store;
            |u.ready| == 4 && u.cancelled == s.store.cancelled && Entries(u, t) == Entries(s.store, t)
  {
    hide Inv, Entries;
    var k := s.replayers[a].messageId;
    var updated := s.replayers[a].(replayedAs := Some(n));
    OnePlace.ReaderKeyExists(s, a);
    FourLists(s);
    DeadLetterTask(s, k);
    var e := s.store.dlq[k].envelope;
    var rewritten := s.store.(dlq := s.store.dlq[k := updated]);
    SameEntries(s.store, rewritten, t);
    if Replay(s.store, k, n, updated).1.Replayed? {
      PushEntries(rewritten, e.(messageId := n, stamp := None), t);
    } else {
      assert NextReplay(s, a, n).store == s.store;
    }
  }

  lemma ScheduleEntries(c: Config, s: System, a: ActorId, now: Time, draw: Draw, t: TaskId)
    requires |s.store.ready| == 4 && a in s.workers && s.workers[a].phase.Dispatching? && t in s.store.cancelled
    ensures var u := NextSchedule(c, s, a, now, draw).store;
            |u.ready| == 4 && u.cancelled == s.store.cancelled && Entries(u, t) <= Entries(s.store, t)
  {
    hide FailureRecord, Entries, NextSchedule, Schedule;
    ScheduleStore(c, s, a, now, draw);
    match FailureRecord(c.policy, Rebuilt(s.workers[a].delivery), s.workers[a].phase.failure, now, now, draw)
    case None =>
    case Some(r) => ScheduleScriptEntries(s.store, r, t);
  }

  lemma ScheduleScriptEntries(st: Store, r: RetryRecord, t: TaskId)
    requires |st.ready| == 4 && t in st.cancelled
    ensures var u := Schedule(st, r).0; |u.ready| == 4 && u.cancelled == st.cancelled && Entries(u, t) <= Entries(st, t)
  {
    hide Entries;
    if Schedule(st, r).1 {
      DelayEntries(st, r.messageId, Scheduled(r), r.dueAt, t);
    } else {
      assert Schedule(st, r).0 == st;
    }
  }

  lemma AckEntries(s: System, d: Delivery, t: TaskId)
    requires |s.store.ready| == 4
    ensures var u := AfterAck(s, d).store;
            |u.ready| == 4 && u.cancelled == s.store.cancelled && Entries(u, t) <= Entries(s.store, t)
  {
    ReleaseEntries(s.store, d.messageId, t);
    hide Entries;
  }

  lemma WorkEntries(c: Config, s: System, a: ActorId, x: WorkerStep, t: TaskId)
    requires Inv(s) && WorkEnabled(c, s, a, x) && t in s.store.cancelled
    ensures var u := NextWork(c, s, a, x).store;
            |u.ready| == 4 && u.cancelled == s.store.cancelled && Entries(u, t) <= Entries(s.store, t)
  {
    hide Inv, Entries, NextWork, NextClaim, AfterAck, NextSchedule, NextRenew, NextFinalize, NextAckSuccess;
    FourLists(s);
    ScriptStep(c, s, a, x);
    match x
    case ClaimNext(token, sampled) => ClaimStepEntries(s, a, token, sampled, sampled + c.visibility, t);
    case ScheduleFailure(now, draw) => ScheduleEntries(c, s, a, now, draw, t);
    case AckSuccess(answer) =>
      AckEntries(s, s.workers[a].delivery, t);
      AckFrame(s, a, answer);
    case AckFailure => AckEntries(s, s.workers[a].delivery, t);
    case RenewLease(sampled) => RenewEntries(s, a, sampled + c.visibility, t);
    case FinalizeFailure(id) => FinalizeEntries(s, a, id, t);
    case _ => QuietFrame(c, s, a, x);
  }

  lemma ClaimStepEntries(s: System, a: ActorId, token: Token, sampled: Time, deadline: Time, t: TaskId)
    requires |s.store.ready| == 4 && t in s.store.cancelled
    ensures var u := NextClaim(s, a, token, sampled, deadline).store;
            |u.ready| == 4 && u.cancelled == s.store.cancelled && Entries(u, t) <= Entries(s.store, t)
  {
    hide Entries, ClaimFrom;
    ClaimEntries(s.store, 0, token, sampled, deadline, t);
    match ClaimFrom(s.store, 0, token, sampled, deadline).1
    case None =>
    case Some(e) =>
  }

  lemma RenewEntries(s: System, a: ActorId, deadline: Time, t: TaskId)
    requires |s.store.ready| == 4 && a in s.workers
    ensures var u := NextRenew(s, a, deadline).store;
            |u.ready| == 4 && u.cancelled == s.store.cancelled && Entries(u, t) == Entries(s.store, t)
  {
    hide Renew, Entries;
    var d := s.workers[a].delivery;
    RenewFrame(s.store, d.messageId, d.token, d.taskId, deadline, d.token.worker);
    SameEntries(s.store, NextRenew(s, a, deadline).store, t);
  }

  lemma FinalizeEntries(s: System, a: ActorId, id: RecordId, t: TaskId)
    requires |s.store.ready| == 4 && a in s.workers && s.workers[a].phase.Finalizing?
    ensures var u := NextFinalize(s, a, id).store;
            |u.ready| == 4 && u.cancelled == s.store.cancelled && Entries(u, t) == Entries(s.store, t)
  {
    hide Entries;
    SameEntries(s.store, NextFinalize(s, a, id).store, t);
  }

  lemma RecoverStepEntries(c: Config, s: System, a: ActorId, draw: Draw, id: RecordId, t: TaskId)
    requires Inv(s) && RecoverEnabled(s, a, RunRecovery(draw, id)) && t in s.store.cancelled
    ensures var r := s.recoverers[a];
            var u := NextRecovery(c, s, a, draw, id).store;
            && |u.ready| == 4 && u.cancelled == s.store.cancelled && Entries(u, t) <= Entries(s.store, t)
            && (Expired(s.store, r.pending[0], r.now) && s.store.inflight[r.pending[0]].taskId == t ==>
               Entries(u, t) < Entries(s.store, t))
  {
    hide Inv, PlanRecovery, RecoverOne, Entries;
    var r := s.recoverers[a];
    var m := r.pending[0];
    FourLists(s);
    SameKeys(s);
    if Expired(s.store, m, r.now) {
      PassedCheckMeansFreshPlan(s, a, c, draw, id);
      PlanTask(c, m, r.now, s.store.inflight[m], s.store.leases[m], draw, id);
    }
    RecoverEntries(s.store, m, r.now, r.phase.terminal, PlanOf(c, r, draw, id), t);
    RecoverKeepsCancelled(s.store, m, r.now, r.phase.terminal, PlanOf(c, r, draw, id));
  }

  lemma RecoverEntriesStep(c: Config, s: System, a: ActorId, x: RecovererStep, t: TaskId)
    requires Inv(s) && RecoverEnabled(s, a, x) && t in s.store.cancelled
    ensures var u := NextRecover(c, s, a, x).store;
            |u.ready| == 4 && u.cancelled == s.store.cancelled && Entries(u, t) <= Entries(s.store, t)
  {
    hide Inv, Entries, NextRecovery, NextReader;
    FourLists(s);
    if x.RunRecovery? {
      RecoverStepEntries(c, s, a, x.draw, x.id, t);
    }
  }

  lemma SameKeys(s: System)
    requires Inv(s)
    ensures s.store.inflight.Keys == s.store.leases.Keys == s.store.leaseExpiry.Keys
  {
  }

  lemma RecoverKeepsCancelled(st: Store, m: MessageId, now: Time, terminal: bool, plan: RecoveryPlan)
    ensures RecoverOne(st, m, now, terminal, plan).0.cancelled == st.cancelled
  {
  }

  lemma PlanTask(c: Config, m: MessageId, now: Time, e: Envelope, l: Lease, draw: Draw, id: RecordId)
    ensures var plan := PlanRecovery(c.policy, c.maximumAttempts, m, now, Some(e), Some(l), draw, id);
            plan.RetryPlan? ==> plan.entry.Scheduled? && plan.entry.record.taskId == e.taskId
  {
    hide Decide;
  }

  lemma OperateEntries(s: System, a: ActorId, x: OperatorStep, t: TaskId)
    requires Inv(s) && OperateEnabled(s, a, x) && t in s.store.cancelled
    ensures var u := NextOperate(s, a, x).store;
            |u.ready| == 4 && u.cancelled == s.store.cancelled && Entries(u, t) == Entries(s.store, t)
  {
    hide Inv, Entries, NextReplay;
    FourLists(s);
    match x
    case RunReplay(n) => ReplayEntries(s, a, n, t);
    case RunApproval => SameEntries(s.store, NextOperate(s, a, x).store, t);
    case _ =>
  }

  // ----- The theorems -----

  /** A cancelled task stays cancelled, and no step but enqueueing that task again adds an entry for it. */
  lemma CancelledOnlyDrains(c: Config, s: System, x: Action, t: TaskId)
    requires Inv(s) && Enabled(c, s, x) && t in s.store.cancelled
    ensures var u := Next(c, s, x).store;
            && |u.ready| == 4 && t in u.cancelled
            && (!(x.EnqueueTask? && x.task == t) ==> Entries(u, t) <= Entries(s.store, t))
  {
    hide Inv, Entries, NextWork, WorkEnabled, NextRecover, RecoverEnabled, NextOperate, OperateEnabled, NextEnqueue,
        PromoteAll, Cancel,
         IsDuePage;
    FourLists(s);
    match x
    case Work(a, step) => WorkEntries(c, s, a, step, t);
    case Recover(a, step) => RecoverEntriesStep(c, s, a, step, t);
    case Operate(a, step) => OperateEntries(s, a, step, t);
    case EnqueueTask(key, m, task, state, priority) =>
      EnqueueKeepsShape(s, key, m, task, state, priority);
      if task != t {
        EnqueueEntries(s, key, m, task, state, priority, t);
      }
    case PromoteDue(_, _, page) =>
      PromoteAllFrame(s.store, page, Tally(0, 0, 0));
      PromoteEntries(s, page, Tally(0, 0, 0), t);
    case CancelTask(task) => CancelEntries(s.store, task, t);
    case ExpireDedupe(key) => SameEntries(s.store, s.store.(dedupe := s.store.dedupe - {key}), t);
    case Tick(_) =>
    case SetDurable(_, _) =>
  }

  lemma EnqueueKeepsShape(s: System, key: DedupeKey, m: MessageId, task: TaskId, state: TaskState, priority: Priority)
    requires |s.store.ready| == 4
    ensures var u := NextEnqueue(s, key, m, task, state, priority).store;
            |u.ready| == 4 && u.cancelled == s.store.cancelled
  {
  }

  /** Each step that touches the cancelled task takes an entry away: a claim that reaches it, a promotion
      whose page holds it, a recovery that finds its lease expired. */
  predicate Touches(s: System, x: Action, t: TaskId)
    requires |s.store.ready| == 4
  {
    match x
    case Work(_, step) =>
      step.ClaimNext? && exists q ::
        0 <= q < 4 && Reaches(s.store, 0, q) && s.store.ready[q] != [] && s.store.ready[q][0].taskId == t
    case PromoteDue(_, _, page) => exists k :: k in page && k in TaskDelayed(s.store.delayed, t)
    case Recover(a, step) =>
      && step.RunRecovery? && a in s.recoverers && s.recoverers[a].pending != []
      && Expired(s.store, s.recoverers[a].pending[0], s.recoverers[a].now)
      && s.store.inflight[s.recoverers[a].pending[0]].taskId == t
    case _ => false
  }

  lemma TouchDrains(c: Config, s: System, x: Action, t: TaskId)
    requires Inv(s) && Enabled(c, s, x) && t in s.store.cancelled && |s.store.ready| == 4 && Touches(s, x, t)
    ensures var u := Next(c, s, x).store; |u.ready| == 4 && Entries(u, t) < Entries(s.store, t)
  {
    match x
    case Work(a, step) => ClaimTouchDrains(c, s, a, step, t);
    case PromoteDue(_, _, page) =>
      hide Inv, Entries, PromoteAll, IsDuePage;
      PromoteEntries(s, page, Tally(0, 0, 0), t);
    case Recover(a, step) =>
      hide Inv, Entries, NextRecovery;
      RecoverStepEntries(c, s, a, step.draw, step.id, t);
  }

  lemma ClaimTouchDrains(c: Config, s: System, a: ActorId, step: WorkerStep, t: TaskId)
    requires Inv(s) && WorkEnabled(c, s, a, step) && t in s.store.cancelled && |s.store.ready| == 4
    requires Touches(s, Work(a, step), t)
    ensures var u := NextWork(c, s, a, step).store; |u.ready| == 4 && Entries(u, t) < Entries(s.store, t)
  {
    hide Inv, Entries, ClaimFrom;
    var q :| 0 <= q < 4 && Reaches(s.store, 0, q) && s.store.ready[q] != [] && s.store.ready[q][0].taskId == t;
    ClaimDrains(s.store, 0, q, step.token, step.sampled, step.sampled + c.visibility, t);
  }

  lemma {:induction false} CancelledForever(c: Config, s: System, xs: seq<Action>, t: TaskId)
    requires Inv(s) && t in s.store.cancelled && Run(c, s, xs)
    ensures t in After(c, s, xs).store.cancelled && Inv(After(c, s, xs))
    decreases xs
  {
    hide Inv, Next, Enabled, Entries;
    FourLists(s);
    if xs == [] {
    } else {
      CancelledOnlyDrains(c, s, xs[0], t);
      StepKeepsInv(c, s, xs[0]);
      CancelledForever(c, Next(c, s, xs[0]), xs[1..], t);
    }
  }

  /** In every state after the tombstone: no claim returns the task, no delivery of it is acknowledged or
      renewed, nothing schedules it, and no replay of it goes through. */
  lemma CancelledNeverRuns(c: Config, s: System, xs: seq<Action>, t: TaskId,
                           token: Token, claimedAt: Time, deadline: Time, d: Delivery, r: RetryRecord,
                           m: MessageId, n: MessageId, updated: DeadLetter)
    requires Inv(s) && t in s.store.cancelled && |s.store.ready| == 4 && Run(c, s, xs)
    requires DeliveryOk(After(c, s, xs).issued, After(c, s, xs).used, d) && d.taskId == t && r.taskId == t
    ensures var u := After(c, s, xs);
            && |u.store.ready| == 4
            && (var claimed := Claim(u.store, token, claimedAt, deadline).1;
               claimed.Some? ==> claimed.value.taskId != t)
            && AckResult(u, d) != 1
            && Renew(u.store, d.messageId, d.token, t, deadline, d.token.worker) == (u.store, 0)
            && Schedule(u.store, r) == (u.store, false)
            && (m in u.store.dlq && u.store.dlq[m].taskId == t ==> !Replay(u.store, m, n, updated).1.Replayed?)
  {
    hide Run, Inv;
    FourLists(s);
    CancelledForever(c, s, xs, t);
    var u := After(c, s, xs);
    FourLists(u);
    ClaimEntries(u.store, 0, token, claimedAt, deadline, t);
    LeaseTask(u, d);
    hide ClaimFrom, Entries;
  }

  lemma LeaseTask(s: System, d: Delivery)
    requires Inv(s) && DeliveryOk(s.issued, s.used, d)
    ensures d.messageId in s.store.leases ==> s.store.leases[d.messageId].taskId == d.taskId
  {
    assert d.messageId in s.store.inflight ==> Known(s.issued, s.store.inflight[d.messageId]);
  }
}
