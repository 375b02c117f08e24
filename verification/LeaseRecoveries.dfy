/** recover_expired's batch loop, run without interference; DeliveryProtocol interleaves its awaits. */
module LeaseRecoveries {
  import opened Options
  import opened QueueTypes
  import opened QueueScripts
  import opened RetryPolicies
  import opened RedisQueues
  import Fencing

  datatype RecoveryResult = RecoveryResult(
    candidates: nat, retryScheduled: nat, deadLettered: nat, terminalCleaned: nat, cancelledCleaned: nat,
    orphanCleaned: nat, renewed: nat)

  function Times(counts: map<RecoveryStatus, nat>, status: RecoveryStatus): nat {
    if status in counts then counts[status] else 0
  }

  predicate LeaseTablesAgree(st: Store) {
    && st.inflight.Keys == st.leases.Keys == st.leaseExpiry.Keys
    && forall m :: m in st.leases ==> st.leases[m].deadline == st.leaseExpiry[m]
  }

  /** The lease tables without the messages in page. */
  ghost predicate LeasesWithout(st: Store, u: Store, page: seq<MessageId>) {
    && (forall m :: m in page ==> m !in u.leases)
    && (forall m :: m !in page ==> (m in u.leases <==> m in st.leases))
    && (forall m :: m in u.leases ==> m in st.leases && u.leases[m] == st.leases[m])
  }

  lemma ExpiredLeaseGoes(st: Store, m: MessageId, now: Time, terminal: bool, plan: RecoveryPlan)
    requires LeaseTablesAgree(st) && m in st.leases && st.leases[m].deadline <= now
    ensures var (u, status) := RecoverOne(st, m, now, terminal, plan);
            && LeaseTablesAgree(u) && u.leases == st.leases - {m}
            && status in {RetryScheduled, DeadLettered, TerminalCleaned, CancelledCleaned, RetryAlreadyScheduled}
  {
    Fencing.StatusIffExpired(st, m, now, terminal, plan);
    KeysStayEqual(st, m, now, terminal, plan);
    hide RecoverOne;
  }

  lemma KeysStayEqual(st: Store, m: MessageId, now: Time, terminal: bool, plan: RecoveryPlan)
    requires Expired(st, m, now)
    ensures var u := RecoverOne(st, m, now, terminal, plan).0;
            u.leases == st.leases - {m} && u.inflight == st.inflight - {m} && u.leaseExpiry == st.leaseExpiry - {m}
  {
    Fencing.FilePlanStatus(ReleaseLease(st, m), m, st.inflight[m].taskId, plan);
    hide FilePlan;
  }

  /** One candidate read and recovered with nothing in between. */
  function Recovered(st: Store, policy: RetryPolicy, m: MessageId, now: Time, limit: int,
                     durable: TaskId -> Option<TaskState>, draw: Draw, id: RecordId): (Store, RecoveryStatus)
  {
    var envelope := if m in st.inflight then Some(st.inflight[m]) else None;
    var lease := if m in st.leases then Some(st.leases[m]) else None;
    var state := if envelope.Some? then durable(envelope.value.taskId) else None;
    RecoverOne(st, m, now, state.Some? && state.value.Terminal(),
        PlanRecovery(policy, limit, m, now, envelope, lease, draw, id))
  }

  lemma RecoveredLeaseGoes(st: Store, policy: RetryPolicy, m: MessageId, now: Time, limit: int,
                           durable: TaskId -> Option<TaskState>, draw: Draw, id: RecordId)
    requires LeaseTablesAgree(st) && m in st.leases && st.leases[m].deadline <= now
    ensures var (u, status) := Recovered(st, policy, m, now, limit, durable, draw, id);
            && LeaseTablesAgree(u) && u.leases == st.leases - {m}
            && status in {RetryScheduled, DeadLettered, TerminalCleaned, CancelledCleaned, RetryAlreadyScheduled}
  {
    hide RecoverOne, PlanRecovery, LeaseTablesAgree;
    var envelope := if m in st.inflight then Some(st.inflight[m]) else None;
    var lease := if m in st.leases then Some(st.leases[m]) else None;
    var state := if envelope.Some? then durable(envelope.value.taskId) else None;
    ExpiredLeaseGoes(st, m, now, state.Some? && state.value.Terminal(),
                     PlanRecovery(policy, limit, m, now, envelope, lease, draw, id));
  }

  lemma ExtendWithout(before: Store, at: Store, u: Store, page: seq<MessageId>, k: nat)
    requires k < |page| && LeasesWithout(before, at, page[..k]) && u.leases == at.leases - {page[k]}
    ensures LeasesWithout(before, u, page[..k + 1])
  {
    assert page[..k + 1] == page[..k] + [page[k]];
  }

  lemma PageIsExpired(st: Store, now: Time, count: nat, page: seq<MessageId>, i: nat)
    requires LeaseTablesAgree(st) && IsDuePage(st.leaseExpiry, now, count, page) && i < |page|
    ensures page[i] !in page[..i] && page[i] in st.leases && st.leases[page[i]].deadline <= now
  {
    var m := page[i];
    assert m in st.leases && st.leases[m].deadline == st.leaseExpiry[m];
  }

  function ResultOf(candidates: nat, counts: map<RecoveryStatus, nat>): RecoveryResult {
    RecoveryResult(candidates, Times(counts, RetryScheduled), Times(counts, DeadLettered),
                   Times(counts, TerminalCleaned), Times(counts, CancelledCleaned),
                   Times(counts, OrphanCleaned), Times(counts, Renewed))
  }

  /** Exactly the leases in the page are gone, a page shorter than asked for leaves no expired lease, and
      every candidate was settled (the result does not report retries that were scheduled already). */
  ghost predicate BatchDone(st: Store, u: Store, now: Time, count: nat, page: seq<MessageId>, r: RecoveryResult) {
    && LeasesWithout(st, u, page)
    && (|page| < count ==> forall m :: m in u.leases ==> u.leases[m].deadline > now)
    && r.candidates == |page| && r.orphanCleaned == 0 && r.renewed == 0
    && r.retryScheduled + r.deadLettered + r.terminalCleaned + r.cancelledCleaned <= |page|
  }

  // ----- One candidate, field by field -----

  /** The lease's score and its deadline have both passed. */
  predicate Lapsed(st: Store, m: MessageId, now: Time) {
    && m in st.leaseExpiry && st.leaseExpiry[m] <= now
    && m in st.leases && m in st.inflight && st.leases[m].deadline <= now
  }

  predicate Resent(e: Envelope, next: Envelope) {
    && next.messageId == e.messageId && next.taskId == e.taskId && next.state == e.state
    && next.attempt == e.attempt + 1 && next.priority == e.priority && next.stamp == e.stamp
  }

  predicate Expiry(h: HistoryEntry, e: Envelope, l: Lease, now: Time) {
    && h.attempt == e.attempt + 1 && h.class_ == RetryableInfrastructure && h.failedAt == now
    && h.previousWorker == Some(l.worker) && h.leaseDeadline == Some(l.deadline)
  }

  /** The dead letter of a lease that expired once too often: eligible for a replay, which nobody has approved. */
  predicate DeadByExpiry(r: DeadLetter, m: MessageId, e: Envelope, l: Lease, now: Time, id: RecordId) {
    && r.id == id && r.messageId == m && r.taskId == e.taskId && Resent(e, r.envelope)
    && r.priority == e.priority && r.attempts == e.attempt + 1 && r.class_ == RetryExhaustion
    && r.worker == Some(l.worker) && r.eligible && r.approval == Pending && r.replayedAs == None
    && |r.history| == 1 && Expiry(r.history[0], e, l, now)
  }

  /** The retry of an expired lease, due after the back-off of its attempt. */
  predicate RetryByExpiry(policy: RetryPolicy, r: RetryRecord, m: MessageId, e: Envelope, l: Lease, now: Time,
                          draw: Draw) {
    && r.messageId == m && r.taskId == e.taskId && Resent(e, r.envelope)
    && r.priority == e.priority && r.attempt == e.attempt + 1 && r.class_ == RetryableInfrastructure
    && r.dueAt == now + Wait(policy, e.attempt + 1, None, draw)
    && r.firstFailedAt == now && r.latestFailedAt == now
    && |r.history| == 1 && Expiry(r.history[0], e, l, now)
  }

  predicate OnlyLeases(st: Store, u: Store) {
    && u.ready == st.ready && u.delayed == st.delayed && u.delayedDue == st.delayedDue && u.dlq == st.dlq
    && u.dlqTaskIndex == st.dlqTaskIndex && u.dlqRecordIndex == st.dlqRecordIndex
    && u.cancelled == st.cancelled && u.taskIndex == st.taskIndex && u.dedupe == st.dedupe
  }

  predicate WithoutLease(st: Store, u: Store, m: MessageId) {
    u.inflight == st.inflight - {m} && u.leases == st.leases - {m} && u.leaseExpiry == st.leaseExpiry - {m}
  }

  /** A candidate whose lease has not lapsed. */
  predicate LeftAlone(st: Store, u: Store, m: MessageId, now: Time, status: RecoveryStatus) {
    && OnlyLeases(st, u)
    && (status == MissingIndex <==> m !in st.leaseExpiry)
    && (status == OrphanCleaned <==>
          m in st.leaseExpiry && st.leaseExpiry[m] <= now && (m !in st.leases || m !in st.inflight))
    && (status in {MissingIndex, OrphanCleaned, Renewed})
    && (status == OrphanCleaned ==> WithoutLease(st, u, m))
    && (status != OrphanCleaned ==> u == st)
  }

  /** A lapsed lease: finished and cancelled tasks are cleaned up; otherwise the retry budget decides between a
      dead letter, which never replaces an older one, and a retry, which never replaces a delayed one. */
  predicate TakenOver(policy: RetryPolicy, st: Store, u: Store, m: MessageId, now: Time, limit: int,
                      durable: Option<TaskState>, draw: Draw, id: RecordId, status: RecoveryStatus)
    requires Lapsed(st, m, now)
  {
    var e, l := st.inflight[m], st.leases[m];
    var finished := durable in {Some(Completed), Some(Failed), Some(Cancelled)} || e.state in {Completed, Failed};
    var stopped := e.taskId in st.cancelled || e.state == Cancelled;
    var spent := e.attempt + 1 >= limit || !Affordable(policy, e.attempt + 1, true, None, draw);
    && WithoutLease(st, u, m)
    && u.ready == st.ready && u.cancelled == st.cancelled && u.taskIndex == st.taskIndex && u.dedupe == st.dedupe
    && (status == TerminalCleaned <==> finished)
    && (status == CancelledCleaned <==> !finished && stopped)
    && (status == DeadLettered <==> !finished && !stopped && spent)
    && (status == RetryAlreadyScheduled <==> !finished && !stopped && !spent && m in st.delayed)
    && (status == RetryScheduled <==> !finished && !stopped && !spent && m !in st.delayed)
    && (status in {TerminalCleaned, CancelledCleaned, RetryAlreadyScheduled} ==> OnlyLeases(st, u))
    && (status == DeadLettered ==>
          && u.delayed == st.delayed && u.delayedDue == st.delayedDue
          && u.dlqTaskIndex == st.dlqTaskIndex[e.taskId := m] && u.dlqRecordIndex == st.dlqRecordIndex[id := m]
          && m in u.dlq && u.dlq == st.dlq[m := u.dlq[m]]
          && if m in st.dlq then u.dlq[m] == st.dlq[m] else DeadByExpiry(u.dlq[m], m, e, l, now, id))
    && (status == RetryScheduled ==>
          && u.dlq == st.dlq && u.dlqTaskIndex == st.dlqTaskIndex && u.dlqRecordIndex == st.dlqRecordIndex
          && m in u.delayed && u.delayed == st.delayed[m := u.delayed[m]] && u.delayed[m].Scheduled?
          && RetryByExpiry(policy, u.delayed[m].record, m, e, l, now, draw)
          && u.delayedDue == st.delayedDue[m := u.delayed[m].record.dueAt])
  }

  lemma RecoveryMeans(policy: RetryPolicy, st: Store, m: MessageId, now: Time, limit: int,
                      durable: TaskId -> Option<TaskState>, draw: Draw, id: RecordId)
    ensures var (u, status) := Recovered(st, policy, m, now, limit, durable, draw, id);
            if Lapsed(st, m, now) then
              TakenOver(policy, st, u, m, now, limit, durable(st.inflight[m].taskId), draw, id, status)
            else LeftAlone(st, u, m, now, status)
  {
    if Lapsed(st, m, now) {
      LapsedMeans(policy, st, m, now, limit, durable, draw, id);
      hide Recovered, TakenOver, LeftAlone;
    } else {
      UnlapsedMeans(policy, st, m, now, limit, durable, draw, id);
      hide Recovered, LeftAlone;
    }
  }

  lemma UnlapsedMeans(policy: RetryPolicy, st: Store, m: MessageId, now: Time, limit: int,
                      durable: TaskId -> Option<TaskState>, draw: Draw, id: RecordId)
    requires !Lapsed(st, m, now)
    ensures var (u, status) := Recovered(st, policy, m, now, limit, durable, draw, id);
            LeftAlone(st, u, m, now, status)
  {
    hide PlanRecovery, FilePlan;
    if m !in st.leaseExpiry {
    } else if st.leaseExpiry[m] > now {
    } else if m !in st.leases || m !in st.inflight {
    } else {
    }
  }

  lemma LapsedMeans(policy: RetryPolicy, st: Store, m: MessageId, now: Time, limit: int,
                    durable: TaskId -> Option<TaskState>, draw: Draw, id: RecordId)
    requires Lapsed(st, m, now)
    ensures var (u, status) := Recovered(st, policy, m, now, limit, durable, draw, id);
            TakenOver(policy, st, u, m, now, limit, durable(st.inflight[m].taskId), draw, id, status)
  {
    hide PlanRecovery, TakenOver, Planned, RecoverOne;
    var e, l := st.inflight[m], st.leases[m];
    PlanMeans(policy, limit, m, now, e, l, draw, id);
    var plan := PlanRecovery(policy, limit, m, now, Some(e), Some(l), draw, id);
    ScriptTakesOver(policy, st, m, now, limit, durable(e.taskId), draw, id, plan);
  }

  /** The plan for a lapsed lease, and what it files. */
  predicate Planned(policy: RetryPolicy, plan: RecoveryPlan, limit: int, m: MessageId, now: Time, e: Envelope, l: Lease,
                    draw: Draw, id: RecordId) {
    var spent := e.attempt + 1 >= limit || !Affordable(policy, e.attempt + 1, true, None, draw);
    if spent then plan.DeadPlan? && DeadByExpiry(plan.record, m, e, l, now, id) && plan.record.id == id
    else
      && plan.RetryPlan? && plan.entry.Scheduled? && plan.due == plan.entry.record.dueAt
      && RetryByExpiry(policy, plan.entry.record, m, e, l, now, draw)
  }

  lemma PlanMeans(policy: RetryPolicy, limit: int, m: MessageId, now: Time, e: Envelope, l: Lease, draw: Draw,
                  id: RecordId)
    ensures Planned(policy, PlanRecovery(policy, limit, m, now, Some(e), Some(l), draw, id), limit, m, now, e, l, draw,
                    id)
  {
    DecideIsAffordable(policy, e.attempt + 1, true, None, draw);
    hide Decide, Affordable, Wait;
  }

  lemma ScriptTakesOver(policy: RetryPolicy, st: Store, m: MessageId, now: Time, limit: int, state: Option<TaskState>,
                        draw: Draw, id: RecordId, plan: RecoveryPlan)
    requires Lapsed(st, m, now) && Planned(policy, plan, limit, m, now, st.inflight[m], st.leases[m], draw, id)
    ensures var (u, status) := RecoverOne(st, m, now, state.Some? && state.value.Terminal(), plan);
            TakenOver(policy, st, u, m, now, limit, state, draw, id, status)
  {
    hide Affordable, DeadByExpiry, RetryByExpiry, RecoverOne, ReleaseLease, FilePlan, TakenOver;
    LapsedScript(st, m, now, state.Some? && state.value.Terminal(), plan);
    var e := st.inflight[m];
    if (state.Some? && state.value.Terminal()) || e.state.Completed? || e.state.Failed? || e.taskId in st.cancelled
       || e.state.Cancelled? {
      CleanedUp(policy, st, m, now, limit, state, draw, id);
    } else {
      FiledByScript(policy, st, m, now, limit, state, draw, id, plan);
    }
  }

  lemma LapsedScript(st: Store, m: MessageId, now: Time, terminal: bool, plan: RecoveryPlan)
    requires Lapsed(st, m, now)
    ensures var e := st.inflight[m];
            RecoverOne(st, m, now, terminal, plan) ==
            if terminal || e.state.Completed? || e.state.Failed? then (ReleaseLease(st, m), TerminalCleaned)
            else if e.taskId in st.cancelled || e.state.Cancelled? then (ReleaseLease(st, m), CancelledCleaned)
            else FilePlan(ReleaseLease(st, m), m, e.taskId, plan)
  {
    hide ReleaseLease, FilePlan;
  }

  lemma CleanedUp(policy: RetryPolicy, st: Store, m: MessageId, now: Time, limit: int, state: Option<TaskState>,
                  draw: Draw, id: RecordId)
    requires Lapsed(st, m, now)
    requires var e := st.inflight[m];
             (state.Some? && state.value.Terminal()) || e.state.Completed? || e.state.Failed?
             || e.taskId in st.cancelled || e.state.Cancelled?
    ensures var e := st.inflight[m];
            var finished := (state.Some? && state.value.Terminal()) || e.state.Completed? || e.state.Failed?;
            TakenOver(policy, st, ReleaseLease(st, m), m, now, limit, state, draw, id,
                      if finished then TerminalCleaned else CancelledCleaned)
  {
    hide Affordable, DeadByExpiry, RetryByExpiry;
  }

  lemma FiledByScript(policy: RetryPolicy, st: Store, m: MessageId, now: Time, limit: int, state: Option<TaskState>,
                      draw: Draw, id: RecordId, plan: RecoveryPlan)
    requires Lapsed(st, m, now) && Planned(policy, plan, limit, m, now, st.inflight[m], st.leases[m], draw, id)
    requires var e := st.inflight[m];
             !((state.Some? && state.value.Terminal()) || e.state.Completed? || e.state.Failed?
               || e.taskId in st.cancelled || e.state.Cancelled?)
    ensures var (u, status) := FilePlan(ReleaseLease(st, m), m, st.inflight[m].taskId, plan);
            TakenOver(policy, st, u, m, now, limit, state, draw, id, status)
  {
    hide Affordable, DeadByExpiry, RetryByExpiry, FilePlan, Wait;
    PlanFiled(ReleaseLease(st, m), m, st.inflight[m].taskId, plan);
    match plan
    case DeadPlan(_) =>
    case RetryPlan(_, _) =>
  }

  lemma PlanFiled(st: Store, m: MessageId, task: TaskId, plan: RecoveryPlan)
    ensures var (u, status) := FilePlan(st, m, task, plan);
            && (plan.DeadPlan? ==>
                  && status == DeadLettered
                  && u == st.(dlq := u.dlq, dlqTaskIndex := st.dlqTaskIndex[task := m],
                              dlqRecordIndex := st.dlqRecordIndex[plan.record.id := m])
                  && u.dlq == (if m in st.dlq then st.dlq else st.dlq[m := plan.record]))
            && (plan.RetryPlan? && m in st.delayed ==> status == RetryAlreadyScheduled && u == st)
            && (plan.RetryPlan? && m !in st.delayed ==>
                  && status == RetryScheduled
                  && u == st.(delayed := st.delayed[m := plan.entry], delayedDue := st.delayedDue[m := plan.due]))
  {
  }

  /** The first k candidates recovered one after the other, and what became of each. */
  function Batch(st: Store, policy: RetryPolicy, page: seq<MessageId>, now: Time, limit: int,
                 durable: TaskId -> Option<TaskState>, draws: nat -> Draw, ids: nat -> RecordId, k: nat)
    : (Store, seq<RecoveryStatus>)
    requires k <= |page|
  {
    if k == 0 then (st, [])
    else
      var (at, statuses) := Batch(st, policy, page, now, limit, durable, draws, ids, k - 1);
      var (u, status) := Recovered(at, policy, page[k - 1], now, limit, durable, draws(k - 1), ids(k - 1));
      (u, statuses + [status])
  }

  lemma NobodyYet(st: Store, policy: RetryPolicy, page: seq<MessageId>, now: Time, limit: int,
                  durable: TaskId -> Option<TaskState>, draws: nat -> Draw, ids: nat -> RecordId)
    ensures Batch(st, policy, page, now, limit, durable, draws, ids, 0) == (st, [])
  {
  }

  lemma OneMore(st: Store, policy: RetryPolicy, page: seq<MessageId>, now: Time, limit: int,
                durable: TaskId -> Option<TaskState>, draws: nat -> Draw, ids: nat -> RecordId, k: nat)
    requires k < |page|
    ensures var (at, statuses) := Batch(st, policy, page, now, limit, durable, draws, ids, k);
            var (u, status) := Recovered(at, policy, page[k], now, limit, durable, draws(k), ids(k));
            Batch(st, policy, page, now, limit, durable, draws, ids, k + 1) == (u, statuses + [status])
  {
    hide Recovered;
  }

  function Tallied(statuses: seq<RecoveryStatus>, status: RecoveryStatus): nat {
    if statuses == [] then 0
    else Tallied(statuses[..|statuses| - 1], status) + (if statuses[|statuses| - 1] == status then 1 else 0)
  }

  predicate CountsAll(counts: map<RecoveryStatus, nat>, statuses: seq<RecoveryStatus>) {
    forall status :: Times(counts, status) == Tallied(statuses, status)
  }

  lemma CountOne(counts: map<RecoveryStatus, nat>, statuses: seq<RecoveryStatus>, status: RecoveryStatus)
    requires CountsAll(counts, statuses)
    ensures CountsAll(counts[status := Times(counts, status) + 1], statuses + [status])
  {
    var more := statuses + [status];
    assert more[..|more| - 1] == statuses;
    var counted := counts[status := Times(counts, status) + 1];
    forall other ensures Times(counted, other) == Tallied(more, other) {
      assert Times(counts, other) == Tallied(statuses, other);
    }
  }

  lemma NothingCounted()
    ensures CountsAll(map[], [])
  {
  }

  /** The result counts every candidate under what became of it. */
  predicate Reports(r: RecoveryResult, candidates: nat, statuses: seq<RecoveryStatus>) {
    && r.candidates == candidates
    && r.retryScheduled == Tallied(statuses, RetryScheduled)
    && r.deadLettered == Tallied(statuses, DeadLettered)
    && r.terminalCleaned == Tallied(statuses, TerminalCleaned)
    && r.cancelledCleaned == Tallied(statuses, CancelledCleaned)
    && r.orphanCleaned == Tallied(statuses, OrphanCleaned)
    && r.renewed == Tallied(statuses, Renewed)
  }

  lemma ResultReports(candidates: nat, counts: map<RecoveryStatus, nat>, statuses: seq<RecoveryStatus>)
    requires CountsAll(counts, statuses)
    ensures Reports(ResultOf(candidates, counts), candidates, statuses)
  {
    hide Times, Tallied;
  }

  /** Every status is one that settles its candidate. */
  predicate AllSettled(statuses: seq<RecoveryStatus>) {
    forall i :: 0 <= i < |statuses| ==> Settles(statuses[i])
  }

  predicate Settles(status: RecoveryStatus) { status !in {MissingIndex, Renewed, OrphanCleaned} }

  lemma {:induction false} SettledTallies(statuses: seq<RecoveryStatus>)
    requires AllSettled(statuses)
    ensures Tallied(statuses, RetryScheduled) + Tallied(statuses, DeadLettered) + Tallied(statuses, TerminalCleaned)
            + Tallied(statuses, CancelledCleaned) + Tallied(statuses, RetryAlreadyScheduled) == |statuses|
    ensures Tallied(statuses, OrphanCleaned) == Tallied(statuses, Renewed) == Tallied(statuses, MissingIndex) == 0
  {
    if statuses == [] {
    } else {
      SettledTallies(statuses[..|statuses| - 1]);
      assert Settles(statuses[|statuses| - 1]);
    }
  }

  lemma {:induction false} BatchSettles(st: Store, policy: RetryPolicy, page: seq<MessageId>, now: Time, count: nat,
                                        limit: int, durable: TaskId -> Option<TaskState>, draws: nat -> Draw,
                                        ids: nat -> RecordId, k: nat)
    requires LeaseTablesAgree(st) && IsDuePage(st.leaseExpiry, now, count, page) && k <= |page|
    ensures var (u, statuses) := Batch(st, policy, page, now, limit, durable, draws, ids, k);
            && LeaseTablesAgree(u) && LeasesWithout(st, u, page[..k])
            && |statuses| == k && AllSettled(statuses)
  {
    hide Recovered, LeaseTablesAgree, IsDuePage;
    if k == 0 {
    } else {
      BatchSettles(st, policy, page, now, count, limit, durable, draws, ids, k - 1);
      PageIsExpired(st, now, count, page, k - 1);
      var at := Batch(st, policy, page, now, limit, durable, draws, ids, k - 1).0;
      var m := page[k - 1];
      assert m in at.leases && at.leases[m] == st.leases[m];
      RecoveredLeaseGoes(at, policy, m, now, limit, durable, draws(k - 1), ids(k - 1));
      var u := Batch(st, policy, page, now, limit, durable, draws, ids, k).0;
      ExtendWithout(st, at, u, page, k - 1);
    }
  }

  lemma BatchIsDone(st: Store, policy: RetryPolicy, page: seq<MessageId>, now: Time, count: nat, limit: int,
                    durable: TaskId -> Option<TaskState>, draws: nat -> Draw, ids: nat -> RecordId,
                    counts: map<RecoveryStatus, nat>)
    requires LeaseTablesAgree(st) && IsDuePage(st.leaseExpiry, now, count, page)
    requires CountsAll(counts, Batch(st, policy, page, now, limit, durable, draws, ids, |page|).1)
    ensures var (u, statuses) := Batch(st, policy, page, now, limit, durable, draws, ids, |page|);
            && LeaseTablesAgree(u) && BatchDone(st, u, now, count, page, ResultOf(|page|, counts))
            && Reports(ResultOf(|page|, counts), |page|, statuses)
  {
    var (u, statuses) := Batch(st, policy, page, now, limit, durable, draws, ids, |page|);
    BatchSettles(st, policy, page, now, count, limit, durable, draws, ids, |page|);
    assert page[..|page|] == page;
    SettledTallies(statuses);
    ResultReports(|page|, counts, statuses);
    ShortPage(st, u, now, count, page);
    hide Batch, LeaseTablesAgree, IsDuePage, LeasesWithout, Tallied, CountsAll;
  }

  lemma ShortPage(st: Store, u: Store, now: Time, count: nat, page: seq<MessageId>)
    requires LeaseTablesAgree(st) && IsDuePage(st.leaseExpiry, now, count, page) && LeasesWithout(st, u, page)
    ensures |page| < count ==> forall m :: m in u.leases ==> u.leases[m].deadline > now
  {
  }

  class LeaseRecovery {
    const queue: RedisQueue
    const policy: RetryPolicy

    constructor (queue: RedisQueue, policy: RetryPolicy)
      ensures this.queue == queue && this.policy == policy
    {
      this.queue := queue;
      this.policy := policy;
    }

    /** One candidate: two reads, the durable state, the plan, and then the script. */
    method RecoverCandidate(m: MessageId, now: Time, limit: int, durable: TaskId -> Option<TaskState>, draw: Draw,
                            id: RecordId)
      returns (status: RecoveryStatus)
      requires queue.Valid()
      modifies queue
      ensures queue.Valid()
      ensures (queue.Value(), status) == Recovered(old(queue.Value()), policy, m, now, limit, durable, draw, id)
      ensures var st := old(queue.Value());
              if Lapsed(st, m, now) then
                TakenOver(policy, st, queue.Value(), m, now, limit, durable(st.inflight[m].taskId), draw, id, status)
              else LeftAlone(st, queue.Value(), m, now, status)
    {
      RecoveryMeans(policy, queue.Value(), m, now, limit, durable, draw, id);
      hide TakenOver, LeftAlone;
      var envelope := if m in queue.inflight then Some(queue.inflight[m]) else None;
      var lease := if m in queue.leases then Some(queue.leases[m]) else None;
      var state := if envelope.Some? then durable(envelope.value.taskId) else None;
      var terminal := state.Some? && state.value.Terminal();
      var plan := PlanRecovery(policy, limit, m, now, envelope, lease, draw, id);
      status := queue.RecoverOne(m, now, terminal, plan);
    }

    /** page answers the discovery query; durable answers the durable state reader, draws and ids supply
        jitter and record ids.  None is the ValueError.  Every candidate is settled, each in one of five
        ways, no other lease is touched, and a short page leaves no expired lease behind. */
    method RecoverExpired(page: seq<MessageId>, batchSize: int, maximum: Option<int>, now: Time,
                          durable: TaskId -> Option<TaskState>, draws: nat -> Draw, ids: nat -> RecordId)
      returns (result: Option<RecoveryResult>)
      requires queue.Valid() && LeaseTablesAgree(queue.Value())
      requires batchSize >= 1 ==> IsDuePage(queue.leaseExpiry, now, batchSize, page)
      modifies queue
      ensures queue.Valid() && LeaseTablesAgree(queue.Value())
      ensures result.None? <==> batchSize < 1
      ensures result.None? ==> queue.Value() == old(queue.Value())
      ensures result.Some? ==> BatchDone(old(queue.Value()), queue.Value(), now, batchSize, page, result.value)
      ensures result.Some? ==>
                var limit := if maximum.None? || maximum == Some(0) then policy.maximumAttempts else maximum.value;
                var (u, statuses) := Batch(old(queue.Value()), policy, page, now, limit, durable, draws, ids, |page|);
                queue.Value() == u && Reports(result.value, |page|, statuses)
    {
      if batchSize < 1 {
        return None;
      }
      hide Recovered, LeaseTablesAgree, IsDuePage, BatchDone, ResultOf, CountsAll, Reports, TakenOver, LeftAlone,
          Lapsed, Times, Batch;
      var limit := if maximum.Some? && maximum.value != 0 then maximum.value else policy.maximumAttempts;
      var counts: map<RecoveryStatus, nat> := map[];
      var k := 0;
      ghost var before := queue.Value();
      ghost var statuses: seq<RecoveryStatus> := [];
      NothingCounted();
      NobodyYet(before, policy, page, now, limit, durable, draws, ids);
      while k < |page|
        invariant 0 <= k <= |page| && queue.Valid()
        invariant CountsAll(counts, statuses)
        invariant (queue.Value(), statuses) == Batch(before, policy, page, now, limit, durable, draws, ids, k)
      {
        OneMore(before, policy, page, now, limit, durable, draws, ids, k);
        var status := RecoverCandidate(page[k], now, limit, durable, draws(k), ids(k));
        CountOne(counts, statuses, status);
        counts := counts[status := Times(counts, status) + 1];
        statuses := statuses + [status];
        k := k + 1;
      }
      result := Some(ResultOf(|page|, counts));
      BatchIsDone(before, policy, page, now, batchSize, limit, durable, draws, ids, counts);
    }
  }
}
