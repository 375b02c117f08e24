/** What every step of the delivery protocol keeps: the tables and their indexes agree, entries belong
    to issued messages, tokens are fresh, and a recoverer's unlocked reads are still good for every
    lease that its script will find expired. */
module DeliveryInvariant {
  import opened Options
  import opened QueueTypes
  import opened QueueScripts
  import opened DeliveryProtocol
  import opened RetryPolicies

  // ----- The parts -----

  predicate Known(issued: map<MessageId, Issue>, e: Envelope) {
    e.messageId in issued && issued[e.messageId].taskId == e.taskId && issued[e.messageId].state == e.state
  }

  ghost predicate ReadyOk(ready: seq<seq<Envelope>>, issued: map<MessageId, Issue>) {
    && |ready| == 4
    && (forall p, i :: 0 <= p < 4 && 0 <= i < |ready[p]| ==> Known(issued, ready[p][i]) && ready[p][i].priority == p)
  }

  /** The three lease tables: same keys, same message, score equal to deadline, token spent on this message. */
  ghost predicate LeasesOk(inflight: map<MessageId, Envelope>, leases: map<MessageId, Lease>, expiry: map<MessageId,
                           Time>,
                           issued: map<MessageId, Issue>, used: map<Token, MessageId>) {
    && inflight.Keys == leases.Keys == expiry.Keys
    && (forall m :: m in inflight ==>
          && inflight[m].messageId == m == leases[m].messageId
          && Known(issued, inflight[m])
          && leases[m].taskId == inflight[m].taskId
          && leases[m].attempt == inflight[m].attempt
          && leases[m].deadline == expiry[m]
          && leases[m].worker == leases[m].token.worker
          && leases[m].token in used && used[leases[m].token] == m)
  }

  predicate RetryOk(issued: map<MessageId, Issue>, m: MessageId, entry: DelayedEntry, due: Time) {
    && entry.Scheduled?
    && entry.record.messageId == m == entry.record.envelope.messageId
    && entry.record.taskId == entry.record.envelope.taskId
    && entry.record.priority == entry.record.envelope.priority
    && entry.record.dueAt == due
    && Known(issued, entry.record.envelope)
  }

  ghost predicate DelayedOk(delayed: map<MessageId, DelayedEntry>, due: map<MessageId, Time>, issued: map<MessageId,
                            Issue>) {
    && delayed.Keys == due.Keys
    && (forall m :: m in delayed ==> RetryOk(issued, m, delayed[m], due[m]))
  }

  predicate DeadLetterOk(issued: map<MessageId, Issue>, r: DeadLetter) {
    && r.messageId == r.envelope.messageId
    && r.taskId == r.envelope.taskId
    && r.priority == r.envelope.priority
    && Known(issued, r.envelope)
  }

  ghost predicate DlqOk(dlq: map<MessageId, DeadLetter>, byTask: map<TaskId, MessageId>, byRecord: map<RecordId,
                        MessageId>,
                        issued: map<MessageId, Issue>) {
    && (forall m :: m in dlq ==> dlq[m].messageId == m && DeadLetterOk(issued, dlq[m]))
    && (forall t :: t in byTask ==> byTask[t] in dlq && issued[byTask[t]].taskId == t)
    && (forall r :: r in byRecord ==> byRecord[r] in dlq)
  }

  ghost predicate TaskIndexOk(taskIndex: map<TaskId, MessageId>, issued: map<MessageId, Issue>) {
    forall t :: t in taskIndex ==> taskIndex[t] in issued && issued[taskIndex[t]].taskId == t
  }

  predicate DeliveryOk(issued: map<MessageId, Issue>, used: map<Token, MessageId>, d: Delivery) {
    && d.messageId in issued && issued[d.messageId].taskId == d.taskId && issued[d.messageId].state == d.state
    && d.token in used && used[d.token] == d.messageId
  }

  ghost predicate WorkersOk(workers: map<ActorId, Worker>, issued: map<MessageId, Issue>, used: map<Token, MessageId>,
                            everTerminal: set<TaskId>) {
    && (forall a :: a in workers ==> DeliveryOk(issued, used, workers[a].delivery))
    && (forall a, b :: a in workers && b in workers && workers[a].delivery.token == workers[b].delivery.token ==>
       a == b)
    && (forall a :: a in workers && workers[a].phase.Acking? ==> workers[a].delivery.taskId in everTerminal)
  }

  /** The read of the inflight hash is the current envelope of any lease that has expired by `now`. */
  predicate EnvelopeFresh(st: Store, now: Time, m: MessageId, read: Option<Envelope>) {
    m in st.leases && m in st.inflight && st.leases[m].deadline <= now ==> read == Some(st.inflight[m])
  }

  predicate LeaseFresh(st: Store, now: Time, m: MessageId, read: Option<Lease>) {
    m in st.leases && m in st.inflight && st.leases[m].deadline <= now ==> read == Some(st.leases[m])
  }

  predicate ReadOk(issued: map<MessageId, Issue>, m: MessageId, read: Option<Envelope>) {
    read.Some? ==> read.value.messageId == m && Known(issued, read.value)
  }

  predicate RecovererOk(st: Store, clock: Time, issued: map<MessageId, Issue>, everTerminal: set<TaskId>,
                        r: Recoverer) {
    && r.now <= clock
    && (!r.phase.Looking? ==>
          && r.pending != []
          && EnvelopeFresh(st, r.now, r.pending[0], r.phase.envelope)
          && ReadOk(issued, r.pending[0], r.phase.envelope))
    && (r.phase.GotLease? || r.phase.Decided? ==> LeaseFresh(st, r.now, r.pending[0], r.phase.lease))
    && (r.phase.Decided? && r.phase.terminal ==>
         r.phase.envelope.Some? && r.phase.envelope.value.taskId in everTerminal)
  }

  ghost predicate RecoverersOk(st: Store, clock: Time, issued: map<MessageId, Issue>, everTerminal: set<TaskId>,
                               recoverers: map<ActorId, Recoverer>) {
    forall a :: a in recoverers ==> RecovererOk(st, clock, issued, everTerminal, recoverers[a])
  }

  ghost predicate ReadersOk(replayers: map<ActorId, DeadLetter>, approvers: map<ActorId, Approver>,
                            dlq: map<MessageId, DeadLetter>, issued: map<MessageId, Issue>) {
    && (forall a :: a in replayers ==> DeadLetterOk(issued, replayers[a]) && replayers[a].messageId in dlq)
    && (forall a :: a in approvers ==> DeadLetterOk(issued, approvers[a].read) && approvers[a].read.messageId in dlq)
  }

  ghost predicate DurableOk(durable: map<TaskId, TaskState>, everTerminal: set<TaskId>) {
    forall t :: t in durable && durable[t].Terminal() ==> t in everTerminal
  }

  ghost predicate Inv(s: System) {
    && ReadyOk(s.store.ready, s.issued)
    && LeasesOk(s.store.inflight, s.store.leases, s.store.leaseExpiry, s.issued, s.used)
    && DelayedOk(s.store.delayed, s.store.delayedDue, s.issued)
    && DlqOk(s.store.dlq, s.store.dlqTaskIndex, s.store.dlqRecordIndex, s.issued)
    && TaskIndexOk(s.store.taskIndex, s.issued)
    && WorkersOk(s.workers, s.issued, s.used, s.everTerminal)
    && RecoverersOk(s.store, s.clock, s.issued, s.everTerminal, s.recoverers)
    && ReadersOk(s.replayers, s.approvers, s.store.dlq, s.issued)
    && DurableOk(s.durable, s.everTerminal)
    && s.claims.Keys == s.issued.Keys
  }

  lemma InitialInv()
    ensures Inv(INITIAL)
  {
  }

  lemma FourLists(s: System)
    requires Inv(s)
    ensures |s.store.ready| == 4
  {
  }

  // ----- Steps that touch the ready lists and the lease tables -----

  lemma PushKeepsReady(s: Store, e: Envelope, issued: map<MessageId, Issue>)
    requires ReadyOk(s.ready, issued) && Known(issued, e)
    ensures ReadyOk(PushReady(s, e).ready, issued)
  {
  }

  lemma ReleaseKeepsInv(s: System, m: MessageId)
    requires Inv(s)
    ensures Inv(s.(store := ReleaseLease(s.store, m)))
  {
  }

  lemma DropHeadKeepsInv(s: System, p: Priority)
    requires Inv(s) && s.store.ready[p] != []
    ensures Inv(s.(store := DropHead(s.store, p)))
  {
    PopHeadKeepsInv(s, p);
    ReleaseKeepsInv(s.(store := PopHead(s.store, p)), s.store.ready[p][0].messageId);
  }

  lemma PopHeadKeepsInv(s: System, p: Priority)
    requires Inv(s) && s.store.ready[p] != []
    ensures Inv(s.(store := PopHead(s.store, p)))
  {
  }

  lemma LeasingKeepsLeases(s: System, e: Envelope, token: Token, claimedAt: Time, deadline: Time)
    requires LeasesOk(s.store.inflight, s.store.leases, s.store.leaseExpiry, s.issued, s.used)
    requires Known(s.issued, e) && token !in s.used
    ensures LeasesOk(s.store.inflight[e.messageId := Stamped(e, token, claimedAt, deadline)],
                     s.store.leases[e.messageId := LeaseOf(e, token, claimedAt, deadline)],
                     s.store.leaseExpiry[e.messageId := deadline], s.issued, s.used[token := e.messageId])
  {
  }

  lemma LeasingKeepsWorkers(s: System, a: ActorId, e: Envelope, token: Token)
    requires WorkersOk(s.workers, s.issued, s.used, s.everTerminal)
    requires Known(s.issued, e) && token !in s.used && a !in s.workers
    ensures WorkersOk(s.workers[a := Worker(DeliveryOf(e, token), Claimed)], s.issued, s.used[token := e.messageId],
            s.everTerminal)
  {
  }

  /** The new deadline lies beyond the clock, so no recoverer that has already sampled its clock can
      find the new lease expired. */
  lemma LeasingKeepsRecoverers(s: System, st: Store, m: MessageId)
    requires RecoverersOk(s.store, s.clock, s.issued, s.everTerminal, s.recoverers)
    requires m in st.leases && s.clock < st.leases[m].deadline
    requires st.leases - {m} == s.store.leases - {m} && st.inflight - {m} == s.store.inflight - {m}
    ensures RecoverersOk(st, s.clock, s.issued, s.everTerminal, s.recoverers)
  {
    forall b | b in s.recoverers ensures RecovererOk(st, s.clock, s.issued, s.everTerminal, s.recoverers[b]) {
      var r := s.recoverers[b];
      assert RecovererOk(s.store, s.clock, s.issued, s.everTerminal, r);
      if r.pending != [] && r.pending[0] != m {
        var k := r.pending[0];
        assert k in st.leases <==> k in s.store.leases by { assert k in st.leases - {m} <==>
               k in s.store.leases - {m}; }
        assert k in st.inflight <==> k in s.store.inflight by { assert k in st.inflight - {m} <==>
               k in s.store.inflight - {m}; }
        assert k in st.leases ==>
                 st.leases[k] == (st.leases - {m})[k] == (s.store.leases - {m})[k] == s.store.leases[k];
        assert k in st.inflight ==>
                 st.inflight[k] == (st.inflight - {m})[k] == (s.store.inflight - {m})[k] == s.store.inflight[k];
      }
    }
  }

  /** Leasing a live head with a fresh token. */
  lemma LeaseHeadKeepsInv(s: System, a: ActorId, p: Priority, token: Token, claimedAt: Time, deadline: Time)
    requires Inv(s) && s.store.ready[p] != []
    requires a !in s.workers && token !in s.used && s.clock < deadline
    ensures Inv(Deliver(s, a, token, (LeaseHead(s.store, p, token, claimedAt, deadline),
                                      Some(Stamped(s.store.ready[p][0], token, claimedAt, deadline)))))
  {
    PopHeadKeepsInv(s, p);
    var e := s.store.ready[p][0];
    assert Known(s.issued, e);
    var st := LeaseHead(s.store, p, token, claimedAt, deadline);
    hide ReadyOk, LeasesOk, DelayedOk, DlqOk, TaskIndexOk, WorkersOk, RecoverersOk, ReadersOk, DurableOk;
    LeasingKeepsLeases(s, e, token, claimedAt, deadline);
    LeasingKeepsWorkers(s, a, e, token);
    assert st.leases - {e.messageId} == s.store.leases - {e.messageId};
    assert st.inflight - {e.messageId} == s.store.inflight - {e.messageId};
    LeasingKeepsRecoverers(s, st, e.messageId);
  }

  lemma {:induction false} ClaimKeepsInv(s: System, a: ActorId, p: nat, token: Token, claimedAt: Time, deadline: Time)
    requires Inv(s) && p <= 4
    requires a !in s.workers && token !in s.used && s.clock < deadline
    ensures Inv(Deliver(s, a, token, ClaimFrom(s.store, p, token, claimedAt, deadline)))
    decreases 4 - p
  {
    hide *;
    FourLists(s);
    ClaimIteration(s.store, p, token, claimedAt, deadline);
    if p == 4 {
      DeliverNothing(s, a, token);
    } else if s.store.ready[p] == [] {
      ClaimKeepsInv(s, a, p + 1, token, claimedAt, deadline);
    } else if Dead(s.store, s.store.ready[p][0]) {
      DropHeadKeepsInv(s, p);
      DeliverIgnoresOldStore(s, DropHead(s.store, p), a, token, ClaimFrom(s.store, p, token, claimedAt, deadline));
      ClaimKeepsInv(s.(store := DropHead(s.store, p)), a, p + 1, token, claimedAt, deadline);
    } else {
      LeaseHeadKeepsInv(s, a, p, token, claimedAt, deadline);
    }
  }

  lemma DeliverIgnoresOldStore(s: System, st: Store, a: ActorId, token: Token, outcome: (Store, Option<Envelope>))
    ensures Deliver(s.(store := st), a, token, outcome) == Deliver(s, a, token, outcome)
  {
  }

  lemma DeliverNothing(s: System, a: ActorId, token: Token)
    ensures Deliver(s, a, token, (s.store, None)) == s
  {
  }

  lemma RenewKeepsInv(s: System, a: ActorId, deadline: Time)
    requires Inv(s) && a in s.workers && s.clock < deadline
    ensures Inv(NextRenew(s, a, deadline))
  {
    var d := s.workers[a].delivery;
    var st := NextRenew(s, a, deadline).store;
    if st != s.store {
      assert st.leases - {d.messageId} == s.store.leases - {d.messageId};
      LeasingKeepsRecoverers(s, st, d.messageId);
      assert LeasesOk(st.inflight, st.leases, st.leaseExpiry, s.issued, s.used);
      hide ReadyOk, LeasesOk, DelayedOk, DlqOk, TaskIndexOk, WorkersOk, RecoverersOk, ReadersOk, DurableOk;
    }
  }

  // ----- Delayed entries -----

  lemma UnscheduleKeepsInv(s: System, m: MessageId)
    requires Inv(s)
    ensures Inv(s.(store := Unschedule(s.store, m)))
  {
  }

  lemma PromoteOneKeepsInv(s: System, m: MessageId, t: Tally)
    requires Inv(s)
    ensures var r := PromoteOne(s.store, m, t);
            r.Some? && Inv(s.(store := r.value.0))
  {
    UnscheduleKeepsInv(s, m);
    if m in s.store.delayed {
      var e := s.store.delayed[m].record.envelope;
      PushKeepsReady(Unschedule(s.store, m), e, s.issued);
    } else {
      assert s.store.delayedDue - {m} == s.store.delayedDue;
    }
  }

  /** Promotion never meets a malformed entry, so its script never aborts half-way. */
  lemma {:induction false} PromoteKeepsInv(s: System, ids: seq<MessageId>, t: Tally)
    requires Inv(s)
    ensures var r := PromoteAll(s.store, ids, t);
            r.1.Some? && Inv(s.(store := r.0))
    decreases ids
  {
    if ids == [] {
    } else {
      PromoteOneKeepsInv(s, ids[0], t);
      var next := PromoteOne(s.store, ids[0], t).value;
      PromoteKeepsInv(s.(store := next.0), ids[1..], next.1);
    }
  }

  lemma DelayKeepsInv(s: System, m: MessageId, entry: DelayedEntry, due: Time)
    requires Inv(s) && RetryOk(s.issued, m, entry, due)
    ensures Inv(s.(store := s.store.(delayed := s.store.delayed[m := entry],
            delayedDue := s.store.delayedDue[m := due])))
  {
    var st := s.store.(delayed := s.store.delayed[m := entry], delayedDue := s.store.delayedDue[m := due]);
    assert DelayedOk(st.delayed, st.delayedDue, s.issued);
    SameLeasesKeepRecoverers(s, st);
    hide ReadyOk, LeasesOk, DelayedOk, DlqOk, TaskIndexOk, WorkersOk, RecoverersOk, ReadersOk, DurableOk;
  }

  lemma SameLeasesKeepRecoverers(s: System, st: Store)
    requires Inv(s) && st.leases == s.store.leases && st.inflight == s.store.inflight
    ensures RecoverersOk(st, s.clock, s.issued, s.everTerminal, s.recoverers)
  {
    forall a | a in s.recoverers ensures RecovererOk(st, s.clock, s.issued, s.everTerminal, s.recoverers[a]) {
      assert RecovererOk(s.store, s.clock, s.issued, s.everTerminal, s.recoverers[a]);
    }
  }

  lemma PhaseKeepsInv(s: System, a: ActorId, phase: Phase)
    requires Inv(s) && a in s.workers
    requires phase.Acking? ==> s.workers[a].delivery.taskId in s.everTerminal
    ensures Inv(WithPhase(s, a, phase))
  {
    assert WorkersOk(WithPhase(s, a, phase).workers, s.issued, s.used, s.everTerminal);
    hide ReadyOk, LeasesOk, DelayedOk, DlqOk, TaskIndexOk, WorkersOk, RecoverersOk, ReadersOk, DurableOk;
  }

  lemma RemoveWorkerKeepsInv(s: System, a: ActorId)
    requires Inv(s)
    ensures Inv(s.(workers := s.workers - {a}))
  {
  }

  lemma DurableKeepsInv(s: System, task: TaskId, state: TaskState)
    requires Inv(s)
    ensures Inv(WithDurable(s, task, state))
  {
    var t := WithDurable(s, task, state);
    forall a | a in s.recoverers ensures RecovererOk(t.store, t.clock, t.issued, t.everTerminal, t.recoverers[a]) {
      assert RecovererOk(s.store, s.clock, s.issued, s.everTerminal, s.recoverers[a]);
    }
  }

  /** The record that schedule_failure builds describes the delivery's own message. */
  lemma FailureRecordOk(policy: RetryPolicy, d: Delivery, f: ExecutionFailure, now: Time, first: Time, draw: Draw,
                        issued: map<MessageId, Issue>, used: map<Token, MessageId>)
    requires DeliveryOk(issued, used, d)
    ensures var r := FailureRecord(policy, Rebuilt(d), f, now, first, draw);
            r.Some? ==> r.value.messageId == d.messageId && RetryOk(issued, d.messageId, Scheduled(r.value),
                r.value.dueAt)
  {
    hide Decide;
  }

  lemma ScheduleKeepsInv(c: Config, s: System, a: ActorId, now: Time, draw: Draw)
    requires Inv(s) && a in s.workers && s.workers[a].phase.Dispatching?
    ensures Inv(NextSchedule(c, s, a, now, draw))
  {
    var w := s.workers[a];
    FailureRecordOk(c.policy, w.delivery, w.phase.failure, now, now, draw, s.issued, s.used);
    hide Inv, FailureRecord;
    match FailureRecord(c.policy, Rebuilt(w.delivery), w.phase.failure, now, now, draw)
    case None => PhaseKeepsInv(s, a, Finalizing(w.phase.failure));
    case Some(r) =>
      DelayKeepsInv(s, r.messageId, Scheduled(r), r.dueAt);
      PhaseKeepsInv(s.(store := Schedule(s.store, r).0), a, DispatchAcking);
  }

  // ----- Optimistic recovery -----

  /** If the script's re-check passes, the plan was made from the current envelope and the current lease. */
  lemma PassedCheckMeansFreshPlan(s: System, a: ActorId, c: Config, draw: Draw, id: RecordId)
    requires Inv(s) && RecoverEnabled(s, a, RunRecovery(draw, id))
    requires Expired(s.store, s.recoverers[a].pending[0], s.recoverers[a].now)
    ensures var r := s.recoverers[a];
            var m := r.pending[0];
            && r.phase.envelope == Some(s.store.inflight[m])
            && r.phase.lease == Some(s.store.leases[m])
            && PlanOf(c, r, draw, id) ==
               PlanRecovery(c.policy, c.maximumAttempts, m, r.now, Some(s.store.inflight[m]), Some(s.store.leases[m]),
                   draw, id)
  {
    assert RecovererOk(s.store, s.clock, s.issued, s.everTerminal, s.recoverers[a]);
  }

  lemma PlanFromLeaseOk(c: Config, m: MessageId, now: Time, e: Envelope, l: Lease, draw: Draw, id: RecordId,
                        issued: map<MessageId, Issue>)
    requires Known(issued, e) && e.messageId == m
    ensures var plan := PlanRecovery(c.policy, c.maximumAttempts, m, now, Some(e), Some(l), draw, id);
            && (plan.RetryPlan? ==> RetryOk(issued, m, plan.entry, plan.due))
            && (plan.DeadPlan? ==>
                 DeadLetterOk(issued, plan.record) && plan.record.messageId == m && plan.record.taskId == e.taskId)
  {
    hide Decide;
  }

  /** A dead letter for its own message; an existing record for that message stays. */
  lemma BuryKeepsInv(s: System, r: DeadLetter)
    requires Inv(s) && DeadLetterOk(s.issued, r)
    ensures Inv(s.(store := s.store.(dlq := if r.messageId in s.store.dlq then s.store.dlq
            else s.store.dlq[r.messageId := r],
                                     dlqTaskIndex := s.store.dlqTaskIndex[r.taskId := r.messageId],
                                     dlqRecordIndex := s.store.dlqRecordIndex[r.id := r.messageId])))
  {
    var dlq := if r.messageId in s.store.dlq then s.store.dlq else s.store.dlq[r.messageId := r];
    var st := s.store.(dlq := dlq, dlqTaskIndex := s.store.dlqTaskIndex[r.taskId := r.messageId],
                       dlqRecordIndex := s.store.dlqRecordIndex[r.id := r.messageId]);
    assert DlqOk(dlq, st.dlqTaskIndex, st.dlqRecordIndex, s.issued);
    assert ReadersOk(s.replayers, s.approvers, dlq, s.issued);
    SameLeasesKeepRecoverers(s, st);
    hide ReadyOk, LeasesOk, DelayedOk, DlqOk, TaskIndexOk, WorkersOk, RecoverersOk, ReadersOk, DurableOk;
  }

  lemma UpdateRecovererKeepsInv(s: System, a: ActorId, r: Recoverer)
    requires Inv(s) && RecovererOk(s.store, s.clock, s.issued, s.everTerminal, r)
    ensures Inv(s.(recoverers := s.recoverers[a := r]))
  {
    hide RecovererOk, ReadyOk, LeasesOk, DelayedOk, DlqOk, TaskIndexOk, WorkersOk, ReadersOk, DurableOk;
  }

  /** The recoverer moves on to its next candidate. */
  lemma AdvanceKeepsInv(s: System, a: ActorId)
    requires Inv(s) && a in s.recoverers && s.recoverers[a].pending != []
    ensures var r := s.recoverers[a];
            Inv(s.(recoverers := s.recoverers[a := r.(pending := r.pending[1..], phase := Looking)]))
  {
    var r := s.recoverers[a];
    assert RecovererOk(s.store, s.clock, s.issued, s.everTerminal, r);
    UpdateRecovererKeepsInv(s, a, r.(pending := r.pending[1..], phase := Looking));
  }

  lemma RecoverOneKeepsInv(s: System, m: MessageId, now: Time, terminal: bool, plan: RecoveryPlan)
    requires Inv(s)
    requires Expired(s.store, m, now) ==>
               && (plan.RetryPlan? ==> RetryOk(s.issued, m, plan.entry, plan.due))
               && (plan.DeadPlan? ==> DeadLetterOk(s.issued, plan.record) && plan.record.messageId == m
                                      && plan.record.taskId == s.store.inflight[m].taskId)
    ensures Inv(s.(store := RecoverOne(s.store, m, now, terminal, plan).0))
  {
    ReleaseKeepsInv(s, m);
    hide Inv;
    if Expired(s.store, m, now) {
      var free := s.(store := ReleaseLease(s.store, m));
      match plan
      case RetryPlan(entry, due) => DelayKeepsInv(free, m, entry, due);
      case DeadPlan(r) => BuryKeepsInv(free, r);
    }
  }

  /** The script's own effect, with the plan the recoverer computed from its unlocked reads. */
  lemma RecoverPlanKeepsInv(c: Config, s: System, a: ActorId, draw: Draw, id: RecordId)
    requires Inv(s) && RecoverEnabled(s, a, RunRecovery(draw, id))
    ensures var r := s.recoverers[a];
            Inv(s.(store := RecoverOne(s.store, r.pending[0], r.now, r.phase.terminal, PlanOf(c, r, draw, id)).0))
  {
    var r := s.recoverers[a];
    var m := r.pending[0];
    if Expired(s.store, m, r.now) {
      PassedCheckMeansFreshPlan(s, a, c, draw, id);
      assert Known(s.issued, s.store.inflight[m]) && s.store.inflight[m].messageId == m;
      PlanFromLeaseOk(c, m, r.now, s.store.inflight[m], s.store.leases[m], draw, id, s.issued);
    }
    hide Inv, PlanRecovery;
    RecoverOneKeepsInv(s, m, r.now, r.phase.terminal, PlanOf(c, r, draw, id));
  }

  lemma RecoveryKeepsInv(c: Config, s: System, a: ActorId, draw: Draw, id: RecordId)
    requires Inv(s) && RecoverEnabled(s, a, RunRecovery(draw, id))
    ensures Inv(NextRecovery(c, s, a, draw, id))
  {
    var r := s.recoverers[a];
    hide Inv, PlanRecovery;
    RecoverPlanKeepsInv(c, s, a, draw, id);
    AdvanceKeepsInv(s.(store := RecoverOne(s.store, r.pending[0], r.now, r.phase.terminal, PlanOf(c, r, draw, id)).0),
        a);
  }

  // ----- New messages -----

  lemma IssueKeepsRecoverers(s: System, m: MessageId, issue: Issue)
    requires Inv(s) && m !in s.issued
    ensures RecoverersOk(s.store, s.clock, s.issued[m := issue], s.everTerminal, s.recoverers)
  {
    forall a | a in s.recoverers ensures RecovererOk(s.store, s.clock, s.issued[m := issue], s.everTerminal,
        s.recoverers[a]) {
      assert RecovererOk(s.store, s.clock, s.issued, s.everTerminal, s.recoverers[a]);
    }
  }

  /** Issuing a fresh message id keeps every fact about the messages already issued. */
  lemma IssueKeepsInv(s: System, m: MessageId, issue: Issue)
    requires Inv(s) && m !in s.issued
    ensures Inv(s.(issued := s.issued[m := issue], claims := s.claims[m := 0]))
  {
    IssueKeepsRecoverers(s, m, issue);
    hide RecoverersOk, RecovererOk;
  }

  lemma PushKeepsInv(s: System, e: Envelope)
    requires Inv(s) && Known(s.issued, e)
    ensures Inv(s.(store := PushReady(s.store, e)))
  {
    PushKeepsReady(s.store, e, s.issued);
    SameLeasesKeepRecoverers(s, PushReady(s.store, e));
    hide ReadyOk, LeasesOk, DelayedOk, DlqOk, TaskIndexOk, WorkersOk, RecoverersOk, ReadersOk, DurableOk;
  }

  lemma IndexKeepsInv(s: System, key: DedupeKey, task: TaskId, m: MessageId)
    requires Inv(s) && m in s.issued && s.issued[m].taskId == task
    ensures Inv(s.(store := s.store.(dedupe := s.store.dedupe[key := m], taskIndex := s.store.taskIndex[task := m])))
  {
    SameLeasesKeepRecoverers(s, s.store.(dedupe := s.store.dedupe[key := m],
        taskIndex := s.store.taskIndex[task := m]));
  }

  lemma EnqueueKeepsInv(s: System, key: DedupeKey, m: MessageId, task: TaskId, state: TaskState, priority: Priority)
    requires Inv(s) && m !in s.issued
    ensures Inv(NextEnqueue(s, key, m, task, state, priority))
  {
    var e := Envelope(m, task, state, 0, priority, None);
    var issued := s.(issued := s.issued[m := Issue(task, state, 0, false)], claims := s.claims[m := 0]);
    hide Inv;
    IssueKeepsInv(s, m, Issue(task, state, 0, false));
    PushKeepsInv(issued, e);
    IndexKeepsInv(issued.(store := PushReady(s.store, e)), key, task, m);
  }

  /** A record may be overwritten by another one for the same message. */
  lemma RewriteKeepsInv(s: System, r: DeadLetter)
    requires Inv(s) && DeadLetterOk(s.issued, r) && r.messageId in s.store.dlq
    ensures Inv(s.(store := s.store.(dlq := s.store.dlq[r.messageId := r])))
  {
    SameLeasesKeepRecoverers(s, s.store.(dlq := s.store.dlq[r.messageId := r]));
  }

  lemma RemoveReplayerKeepsInv(s: System, a: ActorId)
    requires Inv(s)
    ensures Inv(s.(replayers := s.replayers - {a}))
  {
  }

  lemma ReplayKeepsInv(s: System, a: ActorId, m: MessageId)
    requires Inv(s) && a in s.replayers && m !in s.issued
    ensures Inv(NextReplay(s, a, m))
  {
    var read := s.replayers[a];
    var k := read.messageId;
    assert k in s.store.dlq && s.store.dlq[k].messageId == k;
    assert DeadLetterOk(s.issued, s.store.dlq[k]) && DeadLetterOk(s.issued, read);
    RemoveReplayerKeepsInv(s, a);
    if Replay(s.store, k, m, read.(replayedAs := Some(m))).1.Replayed? {
      ReplayedKeepsInv(s.(replayers := s.replayers - {a}), read, m);
    }
    hide Inv;
  }

  lemma ReplayedKeepsInv(s: System, read: DeadLetter, m: MessageId)
    requires Inv(s) && m !in s.issued && read.messageId in s.store.dlq
    requires DeadLetterOk(s.issued, read) && DeadLetterOk(s.issued, s.store.dlq[read.messageId])
    ensures var e := s.store.dlq[read.messageId].envelope;
            Inv(s.(store := PushReady(s.store.(dlq := s.store.dlq[read.messageId := read.(replayedAs := Some(m))]),
                                      e.(messageId := m, stamp := None)),
                   issued := s.issued[m := Issue(e.taskId, e.state, e.attempt, true)], claims := s.claims[m := 0]))
  {
    var updated := read.(replayedAs := Some(m));
    var e := s.store.dlq[read.messageId].envelope.(messageId := m, stamp := None);
    var issue := Issue(e.taskId, e.state, e.attempt, true);
    hide Inv;
    RewriteKeepsInv(s, updated);
    var rewritten := s.(store := s.store.(dlq := s.store.dlq[read.messageId := updated]));
    IssueKeepsInv(rewritten, m, issue);
    PushKeepsInv(rewritten.(issued := s.issued[m := issue], claims := s.claims[m := 0]), e);
  }

  lemma RemoveApproverKeepsInv(s: System, a: ActorId)
    requires Inv(s)
    ensures Inv(s.(approvers := s.approvers - {a}))
  {
  }

  lemma OperateKeepsInv(s: System, a: ActorId, x: OperatorStep)
    requires Inv(s) && OperateEnabled(s, a, x)
    ensures Inv(NextOperate(s, a, x))
  {
    match x
    case ReadForReplay(m) =>
    case RunReplay(m) => ReplayKeepsInv(s, a, m);
    case ReadForApproval(m, approved) =>
    case RunApproval =>
      var read := s.approvers[a].read;
      RemoveApproverKeepsInv(s, a);
      RewriteKeepsInv(s.(approvers := s.approvers - {a}), read.(approval := if s.approvers[a].approved then Approved
          else Denied));
  }

  // ----- Recoverer steps -----

  lemma ReadIsFresh(s: System, a: ActorId, x: RecovererStep)
    requires Inv(s) && RecoverEnabled(s, a, x) && !x.RunRecovery? && !x.CrashRecoverer?
    ensures RecovererOk(s.store, s.clock, s.issued, s.everTerminal, NextReader(s, a, x))
  {
    if !x.Discover? {
      assert RecovererOk(s.store, s.clock, s.issued, s.everTerminal, s.recoverers[a]);
    }
  }

  lemma RemoveRecovererKeepsInv(s: System, a: ActorId)
    requires Inv(s)
    ensures Inv(s.(recoverers := s.recoverers - {a}))
  {
  }

  lemma RecoverKeepsInv(c: Config, s: System, a: ActorId, x: RecovererStep)
    requires Inv(s) && RecoverEnabled(s, a, x)
    ensures Inv(NextRecover(c, s, a, x))
  {
    hide Inv, NextRecovery, NextReader, RecovererOk;
    match x
    case RunRecovery(draw, id) => RecoveryKeepsInv(c, s, a, draw, id);
    case CrashRecoverer => RemoveRecovererKeepsInv(s, a);
    case _ =>
      ReadIsFresh(s, a, x);
      UpdateRecovererKeepsInv(s, a, NextReader(s, a, x));
  }

  // ----- Worker steps -----

  lemma AckKeepsInv(s: System, d: Delivery)
    requires Inv(s)
    ensures Inv(AfterAck(s, d))
  {
    ReleaseKeepsInv(s, d.messageId);
    hide Inv;
  }

  lemma AckSuccessKeepsInv(s: System, a: ActorId, answer: Answer)
    requires Inv(s) && a in s.workers
    ensures Inv(NextAckSuccess(s, a, answer))
  {
    var d := s.workers[a].delivery;
    hide Inv, Acknowledge;
    AckKeepsInv(s, d);
    RemoveWorkerKeepsInv(AfterAck(s, d), a);
    PhaseKeepsInv(AfterAck(s, d), a, Failing(Classify(OtherError)));
    PhaseKeepsInv(AfterAck(s, d), a, NotAcked);
  }

  lemma AckFailureKeepsInv(s: System, a: ActorId)
    requires Inv(s) && a in s.workers
    ensures Inv(AfterAck(s, s.workers[a].delivery).(workers := s.workers - {a}))
  {
    hide Inv, Acknowledge;
    AckKeepsInv(s, s.workers[a].delivery);
    RemoveWorkerKeepsInv(AfterAck(s, s.workers[a].delivery), a);
  }

  lemma FinalizeKeepsInv(s: System, a: ActorId, id: RecordId)
    requires Inv(s) && a in s.workers && s.workers[a].phase.Finalizing?
    ensures Inv(NextFinalize(s, a, id))
  {
    var w := s.workers[a];
    var r := FailureDeadLetter(w.delivery, w.phase.failure, id);
    assert DeliveryOk(s.issued, s.used, w.delivery);
    hide Inv;
    BuryKeepsInv(s, r);
    PhaseKeepsInv(s.(store := Finalize(s.store, r).0), a, DispatchAcking);
  }

  lemma TransactionKeepsInv(s: System, a: ActorId, state: TaskState, phase: Phase)
    requires Inv(s) && a in s.workers && (phase.Acking? ==> state.Terminal())
    ensures Inv(WithPhase(WithDurable(s, s.workers[a].delivery.taskId, state), a, phase))
  {
    hide Inv;
    DurableKeepsInv(s, s.workers[a].delivery.taskId, state);
    PhaseKeepsInv(WithDurable(s, s.workers[a].delivery.taskId, state), a, phase);
  }

  lemma InterruptedKeepsInv(s: System, a: ActorId, answer: Answer)
    requires Inv(s) && a in s.workers && s.workers[a].delivery.taskId in s.durable
    ensures Inv(NextInterrupted(s, a, answer))
  {
    hide Inv;
    var task := s.workers[a].delivery.taskId;
    DurableKeepsInv(s, task, Queued);
    var recorded := if TaskEnded(s, task) then s else WithDurable(s, task, Queued);
    RemoveWorkerKeepsInv(recorded, a);
    PhaseKeepsInv(recorded, a, AfterAnswer(answer, NotAcked));
  }

  lemma ClaimStep(c: Config, s: System, a: ActorId, token: Token, sampled: Time)
    requires |s.store.ready| == 4 && WorkEnabled(c, s, a, ClaimNext(token, sampled))
    ensures NextClaim(s, a, token, sampled, sampled + c.visibility) ==
            Deliver(s, a, token, ClaimFrom(s.store, 0, token, sampled, sampled + c.visibility))
    ensures a !in s.workers && token !in s.used && s.clock < sampled + c.visibility
  {
    hide ClaimFrom, Deliver;
  }

  lemma ClaimStepKeepsInv(c: Config, s: System, a: ActorId, token: Token, sampled: Time)
    requires Inv(s) && WorkEnabled(c, s, a, ClaimNext(token, sampled))
    ensures Inv(NextClaim(s, a, token, sampled, sampled + c.visibility))
  {
    hide *;
    FourLists(s);
    ClaimStep(c, s, a, token, sampled);
    ClaimKeepsInv(s, a, 0, token, sampled, sampled + c.visibility);
  }

  lemma WorkKeepsInv(c: Config, s: System, a: ActorId, x: WorkerStep)
    requires Inv(s) && WorkEnabled(c, s, a, x)
    ensures Inv(NextWork(c, s, a, x))
  {
    hide Inv, NextClaim, NextRenew, NextAckSuccess, NextInterrupted, NextSchedule, NextFinalize, AfterAck;
    match x
    case ClaimNext(token, sampled) => ClaimStepKeepsInv(c, s, a, token, sampled);
    case RenewLease(sampled) => RenewKeepsInv(s, a, sampled + c.visibility);
    case RecordClaim(answer) => TransactionKeepsInv(s, a, Executing, AfterAnswer(answer, Running));
    case FinishHandler => PhaseKeepsInv(s, a, Succeeded);
    case RecordSuccess(answer) => TransactionKeepsInv(s, a, Completed, AfterAnswer(answer, Acking));
    case AckSuccess(answer) => AckSuccessKeepsInv(s, a, answer);
    case Interrupt => PhaseKeepsInv(s, a, Interrupting);
    case RecordInterrupted(answer) => InterruptedKeepsInv(s, a, answer);
    case Raise(error) => PhaseKeepsInv(s, a, Failing(Classify(error)));
    case RecordFailure =>
      var f := s.workers[a].phase.failure;
      TransactionKeepsInv(s, a, if f.retryable then Queued else Failed, Dispatching(f));
    case ScheduleFailure(now, draw) => ScheduleKeepsInv(c, s, a, now, draw);
    case FinalizeFailure(id) => FinalizeKeepsInv(s, a, id);
    case AckFailure => AckFailureKeepsInv(s, a);
    case CrashWorker => RemoveWorkerKeepsInv(s, a);
  }

  // ----- Every step -----

  lemma CancelKeepsInv(s: System, task: TaskId)
    requires Inv(s)
    ensures Inv(s.(store := Cancel(s.store, task).0))
  {
    var marked := s.(store := s.store.(cancelled := s.store.cancelled + {task}));
    SameLeasesKeepRecoverers(s, marked.store);
    assert Inv(marked) by {
      hide ReadyOk, LeasesOk, DelayedOk, DlqOk, TaskIndexOk, WorkersOk, RecoverersOk, ReadersOk, DurableOk;
    }
    if task in s.store.taskIndex {
      UnscheduleKeepsInv(marked, s.store.taskIndex[task]);
    }
    hide Inv;
  }

  lemma TickKeepsInv(s: System, to: Time)
    requires Inv(s) && s.clock <= to
    ensures Inv(s.(clock := to))
  {
  }

  lemma DedupeKeepsInv(s: System, key: DedupeKey)
    requires Inv(s)
    ensures Inv(s.(store := s.store.(dedupe := s.store.dedupe - {key})))
  {
    SameLeasesKeepRecoverers(s, s.store.(dedupe := s.store.dedupe - {key}));
  }

  lemma StepKeepsInv(c: Config, s: System, x: Action)
    requires Inv(s) && Enabled(c, s, x)
    ensures Inv(Next(c, s, x))
  {
    hide Inv, NextEnqueue, NextWork, NextRecover, NextOperate, WorkEnabled, RecoverEnabled, OperateEnabled, IsDuePage,
         WithDurable, PromoteAll, Cancel;
    match x
    case Tick(to) => TickKeepsInv(s, to);
    case SetDurable(task, state) => DurableKeepsInv(s, task, state);
    case ExpireDedupe(key) => DedupeKeepsInv(s, key);
    case EnqueueTask(key, m, task, state, priority) => EnqueueKeepsInv(s, key, m, task, state, priority);
    case CancelTask(task) => CancelKeepsInv(s, task);
    case PromoteDue(_, _, page) => PromoteKeepsInv(s, page, Tally(0, 0, 0));
    case Work(a, step) => WorkKeepsInv(c, s, a, step);
    case Recover(a, step) => RecoverKeepsInv(c, s, a, step);
    case Operate(a, step) => OperateKeepsInv(s, a, step);
  }

  /** Every run that starts in such a state is well defined and stays in such states. */
  lemma {:induction false} RunKeepsInv(c: Config, s: System, xs: seq<Action>)
    requires Inv(s) && Run(c, s, xs)
    ensures Inv(After(c, s, xs))
    decreases xs
  {
    hide Inv, Next, Enabled;
    FourLists(s);
    if xs == [] {
    } else {
      StepKeepsInv(c, s, xs[0]);
      RunKeepsInv(c, Next(c, s, xs[0]), xs[1..]);
    }
  }
}
