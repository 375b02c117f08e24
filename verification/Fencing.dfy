/** Leases are fenced: a token that has stopped being a current lease token never works again, and
    recovery that reads without locks behaves like recovery that locks. */
module Fencing {
  import opened Options
  import opened QueueTypes
  import opened QueueScripts
  import opened DeliveryProtocol
  import opened DeliveryInvariant
  import opened WorkerSteps
  import opened RetryPolicies

  /** A token that was handed out and that no lease carries now. */
  ghost predicate Stale(s: System, token: Token) {
    token in s.used && forall m :: m in s.store.leases ==> s.store.leases[m].token != token
  }

  /** What each step may do to the tokens of leases: keep them, drop them, or add the claim's fresh one. */
  ghost predicate OnlyKnownTokens(s: System, t: System) {
    && s.used.Keys <= t.used.Keys
    && (forall m :: m in t.store.leases ==>
          || (m in s.store.leases && t.store.leases[m].token == s.store.leases[m].token)
          || t.store.leases[m].token !in s.used)
  }

  // ----- Tokens of one script -----

  lemma {:induction false} ClaimTokens(st: Store, p: nat, token: Token, claimedAt: Time, deadline: Time)
    requires |st.ready| == 4 && p <= 4
    ensures var t := ClaimFrom(st, p, token, claimedAt, deadline).0;
            forall m :: m in t.leases ==>
              (m in st.leases && t.leases[m].token == st.leases[m].token) || t.leases[m].token == token
    decreases 4 - p
  {
    hide ClaimFrom, Dead;
    ClaimIteration(st, p, token, claimedAt, deadline);
    if p < 4 {
      if st.ready[p] == [] {
        ClaimTokens(st, p + 1, token, claimedAt, deadline);
      } else if Dead(st, st.ready[p][0]) {
        ClaimTokens(DropHead(st, p), p + 1, token, claimedAt, deadline);
      }
    }
  }

  lemma ClaimStepTokens(s: System, a: ActorId, token: Token, claimedAt: Time, deadline: Time)
    requires |s.store.ready| == 4 && token !in s.used
    ensures OnlyKnownTokens(s, NextClaim(s, a, token, claimedAt, deadline))
  {
    hide ClaimFrom, OnlyKnownTokens, Deliver;
    ClaimTokens(s.store, 0, token, claimedAt, deadline);
    DeliverTokens(s, a, token, Claim(s.store, token, claimedAt, deadline));
  }

  lemma DeliverTokens(s: System, a: ActorId, token: Token, outcome: (Store, Option<Envelope>))
    requires token !in s.used
    requires forall m :: m in outcome.0.leases ==>
               || (m in s.store.leases && outcome.0.leases[m].token == s.store.leases[m].token)
               || outcome.0.leases[m].token == token
    ensures OnlyKnownTokens(s, Deliver(s, a, token, outcome))
  {
    match outcome.1
    case None =>
    case Some(_) =>
  }

  lemma ScheduleTokens(c: Config, s: System, a: ActorId, now: Time, draw: Draw)
    requires a in s.workers && s.workers[a].phase.Dispatching?
    ensures OnlyKnownTokens(s, NextSchedule(c, s, a, now, draw))
  {
    hide FailureRecord, NextSchedule, OnlyKnownTokens;
    ScheduleStore(c, s, a, now, draw);
    SameTokens(s, NextSchedule(c, s, a, now, draw));
  }

  lemma SameTokens(s: System, t: System)
    requires t.store.leases == s.store.leases && t.used == s.used
    ensures OnlyKnownTokens(s, t)
  {
  }

  lemma ReleasedTokens(s: System, t: System, m: MessageId)
    requires t.store.leases == s.store.leases - {m} && t.used == s.used
    ensures OnlyKnownTokens(s, t)
  {
  }

  lemma AckTokens(s: System, d: Delivery)
    ensures OnlyKnownTokens(s, AfterAck(s, d))
  {
    if AckResult(s, d) == 1 {
      ReleasedTokens(s, AfterAck(s, d), d.messageId);
    }
  }

  lemma RenewTokens(s: System, a: ActorId, deadline: Time)
    requires a in s.workers
    ensures OnlyKnownTokens(s, NextRenew(s, a, deadline))
  {
  }

  lemma AckSuccessTokens(s: System, a: ActorId, answer: Answer)
    requires a in s.workers
    ensures OnlyKnownTokens(s, NextAckSuccess(s, a, answer))
  {
    AckTokens(s, s.workers[a].delivery);
    AckFrame(s, a, answer);
    hide AfterAck, NextAckSuccess;
  }

  lemma FinalizeTokens(s: System, a: ActorId, id: RecordId)
    requires a in s.workers && s.workers[a].phase.Finalizing?
    ensures OnlyKnownTokens(s, NextFinalize(s, a, id))
  {
  }

  lemma WorkTokens(c: Config, s: System, a: ActorId, x: WorkerStep)
    requires |s.store.ready| == 4 && WorkEnabled(c, s, a, x)
    ensures OnlyKnownTokens(s, NextWork(c, s, a, x))
  {
    hide NextWork, NextClaim, NextSchedule, NextRenew, NextAckSuccess, NextFinalize, AfterAck, OnlyKnownTokens;
    ScriptStep(c, s, a, x);
    match x
    case ClaimNext(token, sampled) => ClaimStepTokens(s, a, token, sampled, sampled + c.visibility);
    case RenewLease(sampled) => RenewTokens(s, a, sampled + c.visibility);
    case ScheduleFailure(now, draw) => ScheduleTokens(c, s, a, now, draw);
    case AckSuccess(answer) => AckSuccessTokens(s, a, answer);
    case AckFailure => AckFailureTokens(s, a);
    case FinalizeFailure(id) => FinalizeTokens(s, a, id);
    case _ =>
      QuietFrame(c, s, a, x);
      SameTokens(s, NextWork(c, s, a, x));
  }

  lemma AckFailureTokens(s: System, a: ActorId)
    requires a in s.workers
    ensures OnlyKnownTokens(s, AfterAck(s, s.workers[a].delivery).(workers := s.workers - {a}))
  {
    AckTokens(s, s.workers[a].delivery);
    hide AfterAck;
  }

  lemma RecoveryTokens(st: Store, m: MessageId, now: Time, terminal: bool, plan: RecoveryPlan)
    ensures var t := RecoverOne(st, m, now, terminal, plan).0;
            t.leases == st.leases || t.leases == st.leases - {m}
  {
  }

  lemma RecoverTokens(c: Config, s: System, a: ActorId, x: RecovererStep)
    requires RecoverEnabled(s, a, x)
    ensures OnlyKnownTokens(s, NextRecover(c, s, a, x))
  {
    hide OnlyKnownTokens, RecoverOne, PlanRecovery, NextReader;
    match x
    case RunRecovery(draw, id) =>
      var r := s.recoverers[a];
      var m := r.pending[0];
      RecoveryTokens(s.store, m, r.now, r.phase.terminal, PlanOf(c, r, draw, id));
      if NextRecover(c, s, a, x).store.leases == s.store.leases {
        SameTokens(s, NextRecover(c, s, a, x));
      } else {
        ReleasedTokens(s, NextRecover(c, s, a, x), m);
      }
    case _ => SameTokens(s, NextRecover(c, s, a, x));
  }

  lemma ReplayTokens(s: System, a: ActorId, m: MessageId)
    requires |s.store.ready| == 4 && a in s.replayers
    ensures OnlyKnownTokens(s, NextReplay(s, a, m))
  {
    var read := s.replayers[a];
    ReplayFrame(s.store, read.messageId, m, read.(replayedAs := Some(m)));
    hide Replay;
  }

  lemma OperateTokens(s: System, a: ActorId, x: OperatorStep)
    requires |s.store.ready| == 4 && OperateEnabled(s, a, x)
    ensures OnlyKnownTokens(s, NextOperate(s, a, x))
  {
    hide NextReplay, OnlyKnownTokens;
    match x
    case RunReplay(m) => ReplayTokens(s, a, m);
    case _ => SameTokens(s, NextOperate(s, a, x));
  }

  lemma StepTokens(c: Config, s: System, x: Action)
    requires |s.store.ready| == 4 && Enabled(c, s, x)
    ensures OnlyKnownTokens(s, Next(c, s, x))
  {
    hide NextWork, WorkEnabled, NextRecover, RecoverEnabled, NextOperate, OperateEnabled, IsDuePage, PromoteAll,
        OnlyKnownTokens,
         NextEnqueue, Cancel;
    match x
    case Work(a, step) => WorkTokens(c, s, a, step);
    case Recover(a, step) => RecoverTokens(c, s, a, step);
    case Operate(a, step) => OperateTokens(s, a, step);
    case PromoteDue(_, _, page) =>
      PromoteAllFrame(s.store, page, Tally(0, 0, 0));
      SameTokens(s, Next(c, s, x));
    case EnqueueTask(key, m, task, state, priority) => EnqueueTokens(s, key, m, task, state, priority);
    case CancelTask(task) => CancelTokens(s, task);
    case Tick(to) => SameTokens(s, Next(c, s, x));
    case SetDurable(task, state) => SameTokens(s, Next(c, s, x));
    case ExpireDedupe(key) => SameTokens(s, Next(c, s, x));
  }

  lemma EnqueueTokens(s: System, key: DedupeKey, m: MessageId, task: TaskId, state: TaskState, priority: Priority)
    requires |s.store.ready| == 4
    ensures OnlyKnownTokens(s, NextEnqueue(s, key, m, task, state, priority))
  {
    EnqueueFrame(s.store, key, Envelope(m, task, state, 0, priority, None));
    hide Enqueue, OnlyKnownTokens;
    SameTokens(s, NextEnqueue(s, key, m, task, state, priority));
  }

  lemma CancelTokens(s: System, task: TaskId)
    ensures OnlyKnownTokens(s, s.(store := Cancel(s.store, task).0))
  {
    CancelFrame(s.store, task);
    hide Cancel, OnlyKnownTokens;
    SameTokens(s, s.(store := Cancel(s.store, task).0));
  }

  // ----- Fencing over whole runs -----

  /** Once stale, a token stays stale through every run. */
  lemma {:induction false} StaleForever(c: Config, s: System, xs: seq<Action>, token: Token)
    requires Inv(s) && Stale(s, token) && Run(c, s, xs)
    ensures Stale(After(c, s, xs), token)
    decreases xs
  {
    hide Inv, Next, Enabled;
    FourLists(s);
    if xs == [] {
    } else {
      StepTokens(c, s, xs[0]);
      StepKeepsInv(c, s, xs[0]);
      StaleForever(c, Next(c, s, xs[0]), xs[1..], token);
    }
  }

  /** A worker whose token is stale gets neither an acknowledgement nor a renewal through, in any later
      state: both scripts change nothing and answer something other than one. */
  lemma FencedOut(c: Config, s: System, xs: seq<Action>, d: Delivery, deadline: Time)
    requires Inv(s) && Stale(s, d.token) && Run(c, s, xs)
    ensures var t := After(c, s, xs);
            && AckResult(t, d) != 1 && AfterAck(t, d) == t
            && Renew(t.store, d.messageId, d.token, d.taskId, deadline, d.token.worker).1 != 1
            && Renew(t.store, d.messageId, d.token, d.taskId, deadline, d.token.worker).0 == t.store
  {
    hide Run, Inv;
    StaleForever(c, s, xs, d.token);
  }

  /** Releasing the lease that carries a token makes the token stale: it can be on no other message. */
  lemma ReleaseMakesStale(s: System, m: MessageId)
    requires Inv(s) && m in s.store.leases
    ensures Stale(s.(store := ReleaseLease(s.store, m)), s.store.leases[m].token)
  {
  }

  /** An acknowledgement succeeds exactly for the current holder of the lease of a task that is not
      cancelled, and afterwards the token is stale; so a token acknowledges at most once. */
  lemma AcknowledgesOnce(s: System, d: Delivery)
    requires Inv(s)
    ensures AckResult(s, d) == 1 <==>
              && d.messageId in s.store.leases && s.store.leases[d.messageId].token == d.token
              && s.store.leases[d.messageId].taskId !in s.store.cancelled
    ensures AckResult(s, d) == 1 ==> Stale(AfterAck(s, d), d.token)
  {
    if d.messageId in s.store.leases {
      ReleaseMakesStale(s, d.messageId);
    }
  }

  lemma {:induction false} ClaimTakesLease(st: Store, p: nat, token: Token, claimedAt: Time, deadline: Time)
    requires |st.ready| == 4 && p <= 4
    ensures var (t, claimed) := ClaimFrom(st, p, token, claimedAt, deadline);
            claimed.Some? ==> claimed.value.messageId in t.leases && t.leases[claimed.value.messageId].token == token
    decreases 4 - p
  {
    ClaimIteration(st, p, token, claimedAt, deadline);
    if p < 4 {
      if st.ready[p] == [] {
        ClaimTakesLease(st, p + 1, token, claimedAt, deadline);
      } else if Dead(st, st.ready[p][0]) {
        ClaimTakesLease(DropHead(st, p), p + 1, token, claimedAt, deadline);
      }
    }
  }

  /** A second delivery of a message fences the first one. */
  lemma ReclaimFences(s: System, a: ActorId, token: Token, claimedAt: Time, deadline: Time, d: Delivery)
    requires Inv(s) && a !in s.workers && token !in s.used && s.clock < deadline
    requires DeliveryOk(s.issued, s.used, d)
    ensures var outcome := Claim(s.store, token, claimedAt, deadline);
            outcome.1.Some? && outcome.1.value.messageId == d.messageId ==>
              Stale(Deliver(s, a, token, outcome), d.token)
  {
    FourLists(s);
    ClaimKeepsInv(s, a, 0, token, claimedAt, deadline);
    ClaimTakesLease(s.store, 0, token, claimedAt, deadline);
    hide ClaimFrom;
  }

  // ----- Optimistic recovery -----

  /** Reading without a lock, planning, and re-checking in the script has the same effect as reading
      and planning inside the script: same store, same status, whatever happened in between. */
  lemma RecoveryIsAtomic(c: Config, s: System, a: ActorId, draw: Draw, id: RecordId)
    requires Inv(s) && RecoverEnabled(s, a, RunRecovery(draw, id))
    ensures var r := s.recoverers[a];
            var m := r.pending[0];
            var envelope := if m in s.store.inflight then Some(s.store.inflight[m]) else None;
            var lease := if m in s.store.leases then Some(s.store.leases[m]) else None;
            RecoverOne(s.store, m, r.now, r.phase.terminal, PlanOf(c, r, draw, id)) ==
            RecoverOne(s.store, m, r.now, r.phase.terminal,
                       PlanRecovery(c.policy, c.maximumAttempts, m, r.now, envelope, lease, draw, id))
  {
    var r := s.recoverers[a];
    var m := r.pending[0];
    assert s.store.inflight.Keys == s.store.leases.Keys == s.store.leaseExpiry.Keys;
    if Expired(s.store, m, r.now) {
      PassedCheckMeansFreshPlan(s, a, c, draw, id);
    }
    hide Inv, PlanRecovery, FilePlan;
  }

  /** The durable state is read before the script too, and nothing re-checks it: a different answer changes the
      recovery exactly when the lease is expired and the envelope's own snapshot does not settle it. */
  lemma DurableReadMattersIff(st: Store, m: MessageId, now: Time, plan: RecoveryPlan, earlier: bool, later: bool)
    ensures RecoverOne(st, m, now, earlier, plan) == RecoverOne(st, m, now, later, plan) <==>
              earlier == later || !Expired(st, m, now) ||
              st.inflight[m].state.Completed? || st.inflight[m].state.Failed?
  {
    if Expired(st, m, now) {
      FilePlanStatus(ReleaseLease(st, m), m, st.inflight[m].taskId, plan);
      hide FilePlan;
    }
  }

  /** The status tells the truth about what was expired: the script acts exactly when the lease is past
      its deadline at the recoverer's clock sample; a lease renewed or re-claimed since then wins. */
  lemma RecoveryActsIffExpired(s: System, m: MessageId, now: Time, terminal: bool, plan: RecoveryPlan)
    requires Inv(s)
    ensures var (t, status) := RecoverOne(s.store, m, now, terminal, plan);
            && (Expired(s.store, m, now) <==> status !in {MissingIndex, Renewed})
            && status != OrphanCleaned
            && (status in {MissingIndex, Renewed} ==> t == s.store)
            && (status !in {MissingIndex, Renewed} ==> m !in t.leases && m !in t.inflight && m !in t.leaseExpiry)
  {
    assert m in s.store.leases ==> s.store.leases[m].deadline == s.store.leaseExpiry[m];
    StatusIffExpired(s.store, m, now, terminal, plan);
    hide Inv, RecoverOne;
  }

  lemma StatusIffExpired(st: Store, m: MessageId, now: Time, terminal: bool, plan: RecoveryPlan)
    requires st.inflight.Keys == st.leases.Keys == st.leaseExpiry.Keys
    requires m in st.leases ==> st.leases[m].deadline == st.leaseExpiry[m]
    ensures var (t, status) := RecoverOne(st, m, now, terminal, plan);
            && (Expired(st, m, now) <==> status !in {MissingIndex, Renewed})
            && status != OrphanCleaned
            && (status in {MissingIndex, Renewed} ==> t == st)
            && (status !in {MissingIndex, Renewed} ==> m !in t.leases && m !in t.inflight && m !in t.leaseExpiry)
  {
    if Expired(st, m, now) {
      FilePlanStatus(ReleaseLease(st, m), m, st.inflight[m].taskId, plan);
      hide FilePlan;
    }
  }

  lemma FilePlanStatus(st: Store, m: MessageId, task: TaskId, plan: RecoveryPlan)
    ensures var (t, status) := FilePlan(st, m, task, plan);
            && t.leases == st.leases && t.inflight == st.inflight && t.leaseExpiry == st.leaseExpiry
            && status in {DeadLettered, RetryScheduled, RetryAlreadyScheduled}
  {
  }

  /** Two recoverers that read the same lease: after one has acted on it, the other one's script, in any
      later state, finds nothing expired that it read; so one lease yields at most one retry. */
  lemma OneLeaseRecoveredOnce(c: Config, s: System, a: ActorId, draw: Draw, id: RecordId,
                              xs: seq<Action>, b: ActorId, draw': Draw, id': RecordId)
    requires Inv(s) && RecoverEnabled(s, a, RunRecovery(draw, id))
    requires Expired(s.store, s.recoverers[a].pending[0], s.recoverers[a].now)
    requires Run(c, s, [Recover(a, RunRecovery(draw, id))] + xs)
    requires var t := After(c, s, [Recover(a, RunRecovery(draw, id))] + xs);
             && RecoverEnabled(t, b, RunRecovery(draw', id'))
             && t.recoverers[b].phase.lease == s.recoverers[a].phase.lease
             && t.recoverers[b].pending[0] == s.recoverers[a].pending[0]
    ensures var t := After(c, s, [Recover(a, RunRecovery(draw, id))] + xs);
            && !Expired(t.store, t.recoverers[b].pending[0], t.recoverers[b].now)
            && NextRecovery(c, t, b, draw', id').store == t.store
  {
    var m := s.recoverers[a].pending[0];
    PassedCheckMeansFreshPlan(s, a, c, draw, id);
    StaleAfterRecovery(c, s, a, draw, id, xs);
    hide Run, After;
    var t := After(c, s, [Recover(a, RunRecovery(draw, id))] + xs);
    if Expired(t.store, m, t.recoverers[b].now) {
      PassedCheckMeansFreshPlan(t, b, c, draw', id');
    }
    RecoveryActsIffExpired(t, m, t.recoverers[b].now, t.recoverers[b].phase.terminal,
        PlanOf(c, t.recoverers[b], draw', id'));
  }

  lemma StaleAfterRecovery(c: Config, s: System, a: ActorId, draw: Draw, id: RecordId, xs: seq<Action>)
    requires Inv(s) && RecoverEnabled(s, a, RunRecovery(draw, id))
    requires Expired(s.store, s.recoverers[a].pending[0], s.recoverers[a].now)
    requires Run(c, s, [Recover(a, RunRecovery(draw, id))] + xs)
    ensures var t := After(c, s, [Recover(a, RunRecovery(draw, id))] + xs);
            Inv(t) && Stale(t, s.store.leases[s.recoverers[a].pending[0]].token)
  {
    RecoveredIsStale(c, s, a, draw, id);
    StepKeepsInv(c, s, Recover(a, RunRecovery(draw, id)));
    hide Inv, Stale, NextRecovery, Expired;
    var u := NextRecovery(c, s, a, draw, id);
    assert ([Recover(a, RunRecovery(draw, id))] + xs)[1..] == xs;
    StaleForever(c, u, xs, s.store.leases[s.recoverers[a].pending[0]].token);
    RunKeepsInv(c, u, xs);
  }

  lemma RecoveredIsStale(c: Config, s: System, a: ActorId, draw: Draw, id: RecordId)
    requires Inv(s) && RecoverEnabled(s, a, RunRecovery(draw, id))
    requires Expired(s.store, s.recoverers[a].pending[0], s.recoverers[a].now)
    ensures Stale(NextRecovery(c, s, a, draw, id), s.store.leases[s.recoverers[a].pending[0]].token)
  {
    var r := s.recoverers[a];
    var m := r.pending[0];
    hide Inv, PlanRecovery, RecoverOne;
    ReleaseMakesStale(s, m);
    RecoveryReleases(s.store, m, r.now, r.phase.terminal, PlanOf(c, r, draw, id));
  }

  lemma RecoveryReleases(st: Store, m: MessageId, now: Time, terminal: bool, plan: RecoveryPlan)
    requires Expired(st, m, now)
    ensures RecoverOne(st, m, now, terminal, plan).0.leases == st.leases - {m}
  {
  }
}
