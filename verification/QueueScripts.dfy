/** What each Lua script does to the keys, and what the Python around it computes from its own
    arguments.  One function call is one atomic script. */
module QueueScripts {
  import opened Options
  import opened QueueTypes
  import opened RetryPolicies

  function PushReady(s: Store, e: Envelope): Store
    requires |s.ready| == 4
  {
    s.(ready := s.ready[e.priority := s.ready[e.priority] + [e]])
  }

  // ----- producer.py -----

  /** A dedupe mapping is created only together with its message. */
  function Enqueue(s: Store, key: DedupeKey, e: Envelope): (Store, bool, MessageId)
    requires |s.ready| == 4
  {
    if key in s.dedupe then
      (s, false, s.dedupe[key])
    else
      (PushReady(s, e).(dedupe := s.dedupe[key := e.messageId],
                        taskIndex := s.taskIndex[e.taskId := e.messageId]),
       true, e.messageId)
  }

  // ----- consumer.py -----

  /** A popped envelope that no worker may run any more. */
  predicate Dead(s: Store, e: Envelope) {
    e.taskId in s.cancelled || e.state.Terminal()
  }

  function ReleaseLease(s: Store, m: MessageId): Store {
    s.(inflight := s.inflight - {m}, leases := s.leases - {m}, leaseExpiry := s.leaseExpiry - {m})
  }

  function PopHead(s: Store, p: Priority): Store
    requires |s.ready| == 4 && s.ready[p] != []
  {
    s.(ready := s.ready[p := s.ready[p][1..]])
  }

  function DropHead(s: Store, p: Priority): Store
    requires |s.ready| == 4 && s.ready[p] != []
  {
    ReleaseLease(PopHead(s, p), s.ready[p][0].messageId)
  }

  function Stamped(e: Envelope, token: Token, claimedAt: Time, deadline: Time): Envelope {
    e.(stamp := Some(Stamp(token, token.worker, claimedAt, deadline)))
  }

  function LeaseOf(e: Envelope, token: Token, claimedAt: Time, deadline: Time): Lease {
    Lease(e.messageId, e.taskId, token.worker, token, claimedAt, deadline, e.attempt)
  }

  function LeaseHead(s: Store, p: Priority, token: Token, claimedAt: Time, deadline: Time): Store
    requires |s.ready| == 4 && s.ready[p] != []
  {
    var e := s.ready[p][0];
    PopHead(s, p).(inflight := s.inflight[e.messageId := Stamped(e, token, claimedAt, deadline)],
                   leases := s.leases[e.messageId := LeaseOf(e, token, claimedAt, deadline)],
                   leaseExpiry := s.leaseExpiry[e.messageId := deadline])
  }

  /** The claim loop from ready list p on: at most one element leaves each list. */
  function ClaimFrom(s: Store, p: nat, token: Token, claimedAt: Time, deadline: Time): (Store, Option<Envelope>)
    requires |s.ready| == 4
    decreases 4 - p
  {
    if p >= 4 then
      (s, None)
    else if s.ready[p] == [] then
      ClaimFrom(s, p + 1, token, claimedAt, deadline)
    else if Dead(s, s.ready[p][0]) then
      ClaimFrom(DropHead(s, p), p + 1, token, claimedAt, deadline)
    else
      (LeaseHead(s, p, token, claimedAt, deadline), Some(Stamped(s.ready[p][0], token, claimedAt, deadline)))
  }

  /** One iteration of the claim loop: skip an empty list, drop a dead head, or lease a live one. */
  lemma ClaimIteration(s: Store, p: nat, token: Token, claimedAt: Time, deadline: Time)
    requires |s.ready| == 4 && p <= 4
    ensures var r := ClaimFrom(s, p, token, claimedAt, deadline);
            if p == 4 then r == (s, None)
            else if s.ready[p] == [] then r == ClaimFrom(s, p + 1, token, claimedAt, deadline)
            else if Dead(s, s.ready[p][0]) then r == ClaimFrom(DropHead(s, p), p + 1, token, claimedAt, deadline)
            else r == (LeaseHead(s, p, token, claimedAt, deadline),
                Some(Stamped(s.ready[p][0], token, claimedAt, deadline)))
  {
  }

  function Claim(s: Store, token: Token, claimedAt: Time, deadline: Time): (Store, Option<Envelope>)
    requires |s.ready| == 4
  {
    ClaimFrom(s, 0, token, claimedAt, deadline)
  }

  predicate Owns(s: Store, m: MessageId, token: Token, worker: WorkerId) {
    m in s.leases && s.leases[m].token == token && s.leases[m].worker == worker
  }

  function Acknowledge(s: Store, m: MessageId, token: Token, worker: WorkerId): (Store, int) {
    if m !in s.leases then (s, 0)
    else if !Owns(s, m, token, worker) then (s, -1)
    else if s.leases[m].taskId in s.cancelled then (s, -2)
    else (ReleaseLease(s, m), 1)
  }

  function Renew(s: Store, m: MessageId, token: Token, task: TaskId, deadline: Time, worker: WorkerId): (Store, int) {
    if m !in s.leases || task in s.cancelled then (s, 0)
    else if !Owns(s, m, token, worker) then (s, -1)
    else (s.(leases := s.leases[m := s.leases[m].(deadline := deadline)],
             leaseExpiry := s.leaseExpiry[m := deadline]), 1)
  }

  // ----- retry_scheduler.py -----

  function Schedule(s: Store, r: RetryRecord): (Store, bool) {
    if r.taskId in s.cancelled || r.messageId in s.delayed then (s, false)
    else (s.(delayed := s.delayed[r.messageId := Scheduled(r)],
             delayedDue := s.delayedDue[r.messageId := r.dueAt]), true)
  }

  /** schedule_failure before its script: None when the policy refuses a retry.  elapsed is zero
      unless the caller passes the time of the first failure. */
  function FailureRecord(policy: RetryPolicy, e: Envelope, f: ExecutionFailure, now: Time, first: Time, draw: Draw)
    : Option<RetryRecord>
  {
    var attempt := e.attempt + 1;
    var d := Decide(policy, attempt, f.retryable, f.retryAfter, now - first, draw);
    if !d.retry then None
    else Some(RetryRecord(e.messageId, e.taskId, e.(attempt := attempt), e.priority, attempt, now + d.delay,
                          f.class_, first, now, [HistoryEntry(attempt, f.class_, now, None, None)]))
  }

  function Unschedule(s: Store, m: MessageId): Store {
    s.(delayed := s.delayed - {m}, delayedDue := s.delayedDue - {m})
  }

  datatype Tally = Tally(promoted: nat, cancelled: nat, terminal: nat)

  /** One iteration of the promotion loop.  A malformed entry makes the script raise, which keeps the
      effects so far; None stands for that abort. */
  function PromoteOne(s: Store, m: MessageId, t: Tally): Option<(Store, Tally)>
    requires |s.ready| == 4
  {
    if m !in s.delayed then Some((s.(delayedDue := s.delayedDue - {m}), t))
    else if s.delayed[m].Malformed? then None
    else
      var r := s.delayed[m].record;
      if r.taskId in s.cancelled then Some((Unschedule(s, m), t.(cancelled := t.cancelled + 1)))
      else if r.envelope.state.Terminal() then Some((Unschedule(s, m), t.(terminal := t.terminal + 1)))
      else Some((PushReady(Unschedule(s, m), r.envelope), t.(promoted := t.promoted + 1)))
  }

  function PromoteAll(s: Store, ids: seq<MessageId>, t: Tally): (Store, Option<Tally>)
    requires |s.ready| == 4
    decreases ids
  {
    if ids == [] then (s, Some(t))
    else
      match PromoteOne(s, ids[0], t)
      case None => (s, None)
      case Some(next) => PromoteAll(next.0, ids[1..], next.1)
  }

  /** Promotion moves entries from the delayed hash to the ready lists and touches nothing else. */
  predicate OnlyPromotes(s: Store, t: Store) {
    t == s.(ready := t.ready, delayed := t.delayed, delayedDue := t.delayedDue) && |t.ready| == 4
  }

  lemma PromoteOneFrame(s: Store, m: MessageId, t: Tally)
    requires |s.ready| == 4
    ensures PromoteOne(s, m, t).Some? ==> OnlyPromotes(s, PromoteOne(s, m, t).value.0)
  {
  }

  lemma {:induction false} PromoteAllFrame(s: Store, ids: seq<MessageId>, t: Tally)
    requires |s.ready| == 4
    ensures OnlyPromotes(s, PromoteAll(s, ids, t).0)
    decreases ids
  {
    hide PromoteOne;
    if ids == [] {
    } else {
      PromoteOneFrame(s, ids[0], t);
      if PromoteOne(s, ids[0], t).Some? {
        var next := PromoteOne(s, ids[0], t).value;
        PromoteAllFrame(next.0, ids[1..], next.1);
      }
    }
  }

  /** The answer of ZRANGEBYSCORE key -inf now LIMIT 0 count: due members by score, then by member. */
  ghost predicate IsDuePage(index: map<MessageId, Time>, now: Time, count: nat, ids: seq<MessageId>) {
    && |ids| <= count
    && (forall i :: 0 <= i < |ids| ==> ids[i] in index && index[ids[i]] <= now)
    && (forall i, j :: 0 <= i < j < |ids| ==>
          index[ids[i]] < index[ids[j]] || (index[ids[i]] == index[ids[j]] && ids[i] < ids[j]))
    && (forall m :: m in index && index[m] <= now && m !in ids ==>
          |ids| == count && forall i :: 0 <= i < |ids| ==>
            index[ids[i]] < index[m] || (index[ids[i]] == index[m] && ids[i] < m))
  }

  // ----- recovery.py -----

  datatype RecoveryPlan = RetryPlan(entry: DelayedEntry, due: Time) | DeadPlan(record: DeadLetter)

  datatype RecoveryStatus =
    | MissingIndex | Renewed | OrphanCleaned | TerminalCleaned | CancelledCleaned
    | DeadLettered | RetryAlreadyScheduled | RetryScheduled

  /** The Python between the reads and the script: what to write if the lease is still expired. */
  function PlanRecovery(policy: RetryPolicy, maximumAttempts: int, m: MessageId, now: Time,
                        envelope: Option<Envelope>, lease: Option<Lease>, draw: Draw, id: RecordId): RecoveryPlan
  {
    if envelope.None? || lease.None? then RetryPlan(Malformed, now)
    else
      var e := envelope.value;
      var attempt := e.attempt + 1;
      var d := Decide(policy, attempt, true, None, 0.0, draw);
      var history := [HistoryEntry(attempt, RetryableInfrastructure, now, Some(lease.value.worker),
          Some(lease.value.deadline))];
      var updated := e.(attempt := attempt);
      if attempt >= maximumAttempts || !d.retry then
        DeadPlan(DeadLetter(id, m, e.taskId, updated, e.priority, attempt, RetryExhaustion, Some(lease.value.worker),
                            true, Pending, None, history))
      else
        RetryPlan(Scheduled(RetryRecord(m, e.taskId, updated, e.priority, attempt, now + d.delay,
                                        RetryableInfrastructure, now, now, history)), now + d.delay)
  }

  /** Has the lease passed both expiry checks of the script? */
  predicate Expired(s: Store, m: MessageId, now: Time) {
    && m in s.leaseExpiry && s.leaseExpiry[m] <= now
    && m in s.leases && m in s.inflight && s.leases[m].deadline <= now
  }

  /** The writing branches of the script, once the lease is released. */
  function FilePlan(s: Store, m: MessageId, task: TaskId, plan: RecoveryPlan): (Store, RecoveryStatus) {
    match plan
    case DeadPlan(r) =>
      (s.(dlq := if m in s.dlq then s.dlq else s.dlq[m := r],
          dlqTaskIndex := s.dlqTaskIndex[task := m],
          dlqRecordIndex := s.dlqRecordIndex[r.id := m]), DeadLettered)
    case RetryPlan(entry, due) =>
      if m in s.delayed then (s, RetryAlreadyScheduled)
      else (s.(delayed := s.delayed[m := entry], delayedDue := s.delayedDue[m := due]), RetryScheduled)
  }

  function RecoverOne(s: Store, m: MessageId, now: Time, terminal: bool, plan: RecoveryPlan): (Store, RecoveryStatus) {
    if m !in s.leaseExpiry then (s, MissingIndex)
    else if s.leaseExpiry[m] > now then (s, Renewed)
    else if m !in s.leases || m !in s.inflight then (ReleaseLease(s, m), OrphanCleaned)
    else if s.leases[m].deadline > now then (s, Renewed)
    else
      var e := s.inflight[m];
      if terminal || e.state.Completed? || e.state.Failed? then (ReleaseLease(s, m), TerminalCleaned)
      else if e.taskId in s.cancelled || e.state.Cancelled? then (ReleaseLease(s, m), CancelledCleaned)
      else FilePlan(ReleaseLease(s, m), m, e.taskId, plan)
  }

  // ----- cancellation.py -----

  datatype CancelStatus = CancelAccepted | AlreadyCancelled | NothingToCancel

  function Tombstone(s: Store, task: TaskId): Store { s.(cancelled := s.cancelled + {task}) }

  function Cancel(s: Store, task: TaskId): (Store, CancelStatus) {
    if task in s.cancelled then (s, AlreadyCancelled)
    else if task in s.taskIndex then (Unschedule(Tombstone(s, task), s.taskIndex[task]), CancelAccepted)
    else if task in s.dlqTaskIndex then (Tombstone(s, task), CancelAccepted)
    else (s, NothingToCancel)
  }

  // ----- dead_letter_queue.py -----

  /** finalize clears the eligibility of permanent failures before its script. */
  function Finalizable(r: DeadLetter): DeadLetter {
    r.(eligible := r.eligible && !r.class_.PermanentAuthorization? && !r.class_.PermanentValidation?)
  }

  function Finalize(s: Store, r: DeadLetter): (Store, DeadLetter) {
    if r.messageId in s.dlq then (s, s.dlq[r.messageId])
    else (s.(dlq := s.dlq[r.messageId := r],
             dlqTaskIndex := s.dlqTaskIndex[r.taskId := r.messageId],
             dlqRecordIndex := s.dlqRecordIndex[r.id := r.messageId]), r)
  }

  /** The second half of approve_replay: an unconditional write of the record read before. */
  function WriteApproval(s: Store, read: DeadLetter, approved: bool): Store {
    s.(dlq := s.dlq[read.messageId := read.(approval := if approved then Approved else Denied)])
  }

  datatype ReplayStatus = Replayed | ReplayNotFound | AlreadyReplayed | NotApproved | ReplayCancelled | ReplayTerminal

  /** m is the message id of the record that replay read before; updated is that record with the new
      message id written into it. */
  function Replay(s: Store, m: MessageId, freshId: MessageId, updated: DeadLetter): (Store, ReplayStatus)
    requires |s.ready| == 4
  {
    if m !in s.dlq then (s, ReplayNotFound)
    else
      var r := s.dlq[m];
      if r.replayedAs.Some? then (s, AlreadyReplayed)
      else if !r.eligible || r.approval != Approved then (s, NotApproved)
      else if r.taskId in s.cancelled then (s, ReplayCancelled)
      else if r.envelope.state.Completed? || r.envelope.state.Cancelled? then (s, ReplayTerminal)
      else (PushReady(s.(dlq := s.dlq[m := updated]), r.envelope.(messageId := freshId, stamp := None)), Replayed)
  }

  /** A replay rewrites its record and pushes an envelope, nothing else. */
  lemma ReplayFrame(s: Store, m: MessageId, freshId: MessageId, updated: DeadLetter)
    requires |s.ready| == 4
    ensures var t := Replay(s, m, freshId, updated).0; t == s.(ready := t.ready, dlq := t.dlq)
  {
    if m !in s.dlq {
    } else if s.dlq[m].replayedAs.Some? {
    } else if !s.dlq[m].eligible || s.dlq[m].approval != Approved {
    } else if s.dlq[m].taskId in s.cancelled {
    } else if s.dlq[m].envelope.state.Completed? || s.dlq[m].envelope.state.Cancelled? {
    } else {
    }
  }

  lemma EnqueueFrame(s: Store, key: DedupeKey, e: Envelope)
    requires |s.ready| == 4
    ensures var t := Enqueue(s, key, e).0; t == s.(ready := t.ready, dedupe := t.dedupe, taskIndex := t.taskIndex)
  {
  }

  lemma CancelFrame(s: Store, task: TaskId)
    ensures var t := Cancel(s, task).0; t == s.(delayed := t.delayed, delayedDue := t.delayedDue,
            cancelled := t.cancelled)
  {
    if task in s.cancelled {
    } else if task in s.taskIndex {
    } else if task in s.dlqTaskIndex {
    }
  }

  lemma CancelShrinks(s: Store, task: TaskId)
    ensures var t := Cancel(s, task).0;
            forall m :: m in t.delayed ==> m in s.delayed && t.delayed[m] == s.delayed[m]
  {
    if task in s.cancelled {
    } else if task in s.taskIndex {
    } else if task in s.dlqTaskIndex {
    } else {
    }
  }

  lemma RenewFrame(s: Store, m: MessageId, token: Token, task: TaskId, deadline: Time, worker: WorkerId)
    ensures var t := Renew(s, m, token, task, deadline, worker).0;
            t == s.(leases := t.leases, leaseExpiry := t.leaseExpiry)
  {
    if m !in s.leases || task in s.cancelled {
    } else if !Owns(s, m, token, worker) {
    }
  }
}
