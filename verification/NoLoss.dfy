/** No message is lost in the full protocol, whatever interleaves and wherever a process crashes. */
module NoLoss {
  import opened Options
  import opened QueueTypes
  import opened QueueScripts
  import opened DeliveryProtocol
  import opened DeliveryInvariant
  import opened ReadyCounts
  import opened RetryPolicies

  /** A message is excused when its task was tombstoned, its frozen snapshot was already terminal, or
      its durable task has at some point been terminal. */
  predicate Excused(s: System, m: MessageId)
    requires m in s.issued
  {
    s.issued[m].taskId in s.store.cancelled || s.issued[m].state.Terminal() || s.issued[m].taskId in s.everTerminal
  }

  /** A copy outside the lease tables. */
  predicate Elsewhere(st: Store, m: MessageId)
    requires |st.ready| == 4
  {
    InReady(st, OfMessage(m)) > 0 || m in st.delayed || m in st.dlq
  }

  predicate Present(st: Store, m: MessageId)
    requires |st.ready| == 4
  {
    Elsewhere(st, m) || m in st.inflight
  }

  predicate HoldsLease(st: Store, d: Delivery) {
    d.messageId in st.leases && st.leases[d.messageId].token == d.token
  }

  predicate Kept(s: System, m: MessageId)
    requires |s.store.ready| == 4 && m in s.issued
  {
    Present(s.store, m) || Excused(s, m)
  }

  /** A dispatcher about to acknowledge, whose token still holds the lease, has left another copy behind. */
  predicate Covered(s: System, w: Worker)
    requires |s.store.ready| == 4 && w.delivery.messageId in s.issued
  {
    w.phase.DispatchAcking? && HoldsLease(s.store, w.delivery) ==>
      Elsewhere(s.store, w.delivery.messageId) || Excused(s, w.delivery.messageId)
  }

  ghost predicate Live(s: System) {
    && Inv(s)
    && (forall m :: m in s.issued ==> Kept(s, m))
    && (forall a :: a in s.workers ==> Covered(s, s.workers[a]))
  }

  lemma InitialLive()
    ensures Live(INITIAL)
  {
  }

  // ----- Steps on the ready lists and leases -----

  lemma DropHeadKeepsLive(s: System, p: Priority)
    requires Live(s) && s.store.ready[p] != [] && Dead(s.store, s.store.ready[p][0])
    ensures Live(s.(store := DropHead(s.store, p)))
  {
    var t := s.(store := DropHead(s.store, p));
    var e := s.store.ready[p][0];
    assert Known(s.issued, e);
    DropHeadKeepsInv(s, p);
    hide Inv;
    forall m | m in s.issued
      ensures Elsewhere(s.store, m) ==> Elsewhere(t.store, m) || Excused(t, m)
      ensures Present(s.store, m) ==> Present(t.store, m) || Excused(t, m)
    {
      PopCount(s.store, p, OfMessage(m));
      assert InReady(t.store, OfMessage(m)) == InReady(PopHead(s.store, p), OfMessage(m));
    }
    KeepsLive(s, t);
  }

  /** Enough for a step that hands out no lease: messages and workers stay, leases only disappear, and
      no copy vanishes without an excuse. */
  lemma KeepsLive(s: System, t: System)
    requires Live(s) && Inv(t)
    requires t.issued == s.issued && t.workers == s.workers
    requires s.store.cancelled <= t.store.cancelled && s.everTerminal <= t.everTerminal
    requires forall m :: m in t.store.leases ==>
               m in s.store.leases && t.store.leases[m].token == s.store.leases[m].token
    requires forall m :: m in s.issued && Elsewhere(s.store, m) ==> Elsewhere(t.store, m) || Excused(t, m)
    requires forall m :: m in s.issued && Present(s.store, m) ==> Present(t.store, m) || Excused(t, m)
    ensures Live(t)
  {
    forall m | m in t.issued ensures Kept(t, m) {
      assert Kept(s, m);
    }
    forall a | a in t.workers ensures Covered(t, t.workers[a]) {
      assert Covered(s, s.workers[a]);
    }
  }

  lemma LeaseHeadKeepsLive(s: System, a: ActorId, p: Priority, token: Token, claimedAt: Time, deadline: Time)
    requires Live(s) && s.store.ready[p] != []
    requires a !in s.workers && token !in s.used && s.clock < deadline
    ensures Live(Deliver(s, a, token, (LeaseHead(s.store, p, token, claimedAt, deadline),
                                       Some(Stamped(s.store.ready[p][0], token, claimedAt, deadline)))))
  {
    var t := Deliver(s, a, token, (LeaseHead(s.store, p, token, claimedAt, deadline),
                                   Some(Stamped(s.store.ready[p][0], token, claimedAt, deadline))));
    LeaseHeadKeepsInv(s, a, p, token, claimedAt, deadline);
    forall m | m in t.issued ensures Kept(t, m) {
      assert Kept(s, m);
      PopCount(s.store, p, OfMessage(m));
      assert InReady(t.store, OfMessage(m)) == InReady(PopHead(s.store, p), OfMessage(m));
    }
    forall b | b in t.workers ensures Covered(t, t.workers[b]) {
      if b != a {
        LeaseHeadKeepsCovered(s, a, p, token, claimedAt, deadline, b);
      }
    }
  }

  lemma LeaseHeadKeepsCovered(s: System, a: ActorId, p: Priority, token: Token, claimedAt: Time, deadline: Time,
                              b: ActorId)
    requires Live(s) && s.store.ready[p] != [] && b in s.workers && b != a && token !in s.used
    ensures var t := Deliver(s, a, token, (LeaseHead(s.store, p, token, claimedAt, deadline),
                                           Some(Stamped(s.store.ready[p][0], token, claimedAt, deadline))));
            && |t.store.ready| == 4 && b in t.workers && t.workers[b].delivery.messageId in t.issued
            && Covered(t, t.workers[b])
  {
    var t := Deliver(s, a, token, (LeaseHead(s.store, p, token, claimedAt, deadline),
                                   Some(Stamped(s.store.ready[p][0], token, claimedAt, deadline))));
    var d := s.workers[b].delivery;
    assert Covered(s, s.workers[b]) && DeliveryOk(s.issued, s.used, d);
    PopCount(s.store, p, OfMessage(d.messageId));
    assert InReady(t.store, OfMessage(d.messageId)) == InReady(PopHead(s.store, p), OfMessage(d.messageId));
  }

  lemma {:induction false} ClaimKeepsLive(s: System, a: ActorId, p: nat, token: Token, claimedAt: Time, deadline: Time)
    requires Live(s) && p <= 4
    requires a !in s.workers && token !in s.used && s.clock < deadline
    ensures Live(Deliver(s, a, token, ClaimFrom(s.store, p, token, claimedAt, deadline)))
    decreases 4 - p
  {
    hide *;
    FourListsLive(s);
    ClaimIteration(s.store, p, token, claimedAt, deadline);
    if p == 4 {
      DeliverNothing(s, a, token);
    } else if s.store.ready[p] == [] {
      ClaimKeepsLive(s, a, p + 1, token, claimedAt, deadline);
    } else if Dead(s.store, s.store.ready[p][0]) {
      DropHeadKeepsLive(s, p);
      DeliverIgnoresOldStore(s, DropHead(s.store, p), a, token, ClaimFrom(s.store, p, token, claimedAt, deadline));
      ClaimKeepsLive(s.(store := DropHead(s.store, p)), a, p + 1, token, claimedAt, deadline);
    } else {
      LeaseHeadKeepsLive(s, a, p, token, claimedAt, deadline);
    }
  }

  // ----- Promotion, scheduling, cancellation -----

  lemma PromoteOneEffect(st: Store, m: MessageId, tally: Tally, k: MessageId)
    requires |st.ready| == 4 && (m in st.delayed ==>
               st.delayed[m].Scheduled? && st.delayed[m].record.envelope.messageId == m)
    ensures var t := PromoteOne(st, m, tally).value.0;
            && t.inflight == st.inflight && t.leases == st.leases && t.cancelled == st.cancelled && t.dlq == st.dlq
            && |t.ready| == 4
            && (Elsewhere(st, k) ==>
                  || Elsewhere(t, k)
                  || (k == m && m in st.delayed && (st.delayed[m].record.taskId in st.cancelled
                     || st.delayed[m].record.envelope.state.Terminal())))
  {
    if m in st.delayed {
      PushCount(Unschedule(st, m), st.delayed[m].record.envelope, OfMessage(k));
    }
  }

  lemma PromoteOneKeepsLive(s: System, m: MessageId, tally: Tally)
    requires Live(s)
    ensures var r := PromoteOne(s.store, m, tally);
            r.Some? && Live(s.(store := r.value.0))
  {
    PromoteOneKeepsInv(s, m, tally);
    var t := s.(store := PromoteOne(s.store, m, tally).value.0);
    assert m in s.store.delayed ==> RetryOk(s.issued, m, s.store.delayed[m], s.store.delayedDue[m]);
    hide Inv, PromoteOne, InReady;
    PromoteOneEffect(s.store, m, tally, m);
    forall k | k in s.issued ensures Elsewhere(s.store, k) ==> Elsewhere(t.store, k) || Excused(t, k) {
      PromoteOneEffect(s.store, m, tally, k);
    }
    KeepsLive(s, t);
  }

  lemma {:induction false} PromoteKeepsLive(s: System, ids: seq<MessageId>, tally: Tally)
    requires Live(s)
    ensures Live(s.(store := PromoteAll(s.store, ids, tally).0))
    decreases ids
  {
    FourLists(s);
    hide Live;
    if ids == [] {
      assert s.(store := s.store) == s;
    } else {
      PromoteOneKeepsLive(s, ids[0], tally);
      var next := PromoteOne(s.store, ids[0], tally).value;
      PromoteKeepsLive(s.(store := next.0), ids[1..], next.1);
    }
  }

  lemma CancelKeepsLive(s: System, task: TaskId)
    requires Live(s)
    ensures Live(s.(store := Cancel(s.store, task).0))
  {
    CancelKeepsInv(s, task);
    assert task in s.store.taskIndex ==> s.issued[s.store.taskIndex[task]].taskId == task;
    hide Inv;
    KeepsLive(s, s.(store := Cancel(s.store, task).0));
  }

  // ----- Recovery -----

  /** A lease may go when its message is excused or has been copied in the same step. */
  lemma ReleaseKeepsLive(s: System, t: System, m: MessageId)
    requires Live(s) && Inv(t) && m in s.issued
    requires t == s.(store := t.store) && t.store.ready == s.store.ready && t.store.cancelled == s.store.cancelled
    requires t.store.inflight == s.store.inflight - {m} && t.store.leases == s.store.leases - {m}
    requires s.store.delayed.Keys <= t.store.delayed.Keys && s.store.dlq.Keys <= t.store.dlq.Keys
    requires Elsewhere(t.store, m) || Excused(s, m)
    ensures Live(t)
  {
    hide Inv;
    KeepsLive(s, t);
  }

  lemma FilePlanEffect(st: Store, m: MessageId, task: TaskId, plan: RecoveryPlan)
    ensures var t := FilePlan(st, m, task, plan).0;
            && t.ready == st.ready && t.cancelled == st.cancelled && t.inflight == st.inflight && t.leases == st.leases
            && st.delayed.Keys <= t.delayed.Keys && st.dlq.Keys <= t.dlq.Keys
            && (m in t.delayed || m in t.dlq)
  {
  }

  /** The script frees the lease only past both expiry checks, and then the message was excused or has
      an entry in the delayed hash or the dead-letter hash. */
  lemma RecoverOneEffect(st: Store, m: MessageId, now: Time, terminal: bool, plan: RecoveryPlan)
    requires |st.ready| == 4
    requires st.inflight.Keys == st.leases.Keys == st.leaseExpiry.Keys
    requires m in st.leases ==> st.leases[m].deadline == st.leaseExpiry[m]
    ensures var t := RecoverOne(st, m, now, terminal, plan).0;
            && t.ready == st.ready && t.cancelled == st.cancelled
            && (!Expired(st, m, now) ==> t == st)
            && (Expired(st, m, now) ==>
                  && t.inflight == st.inflight - {m} && t.leases == st.leases - {m}
                  && st.delayed.Keys <= t.delayed.Keys && st.dlq.Keys <= t.dlq.Keys
                  && (m in t.delayed || m in t.dlq || terminal || st.inflight[m].state.Terminal()
                     || st.inflight[m].taskId in st.cancelled))
  {
    if Expired(st, m, now) {
      FilePlanEffect(ReleaseLease(st, m), m, st.inflight[m].taskId, plan);
      hide FilePlan;
    }
  }

  lemma RecoverOneKeepsLive(s: System, m: MessageId, now: Time, terminal: bool, plan: RecoveryPlan)
    requires Live(s) && Inv(s.(store := RecoverOne(s.store, m, now, terminal, plan).0))
    requires terminal && Expired(s.store, m, now) ==> s.store.inflight[m].taskId in s.everTerminal
    ensures Live(s.(store := RecoverOne(s.store, m, now, terminal, plan).0))
  {
    var t := s.(store := RecoverOne(s.store, m, now, terminal, plan).0);
    assert m in s.store.inflight ==> Known(s.issued, s.store.inflight[m]) && s.store.inflight[m].messageId == m;
    assert m in s.store.leases ==> s.store.leases[m].deadline == s.store.leaseExpiry[m];
    RecoverOneEffect(s.store, m, now, terminal, plan);
    hide Inv, Live, RecoverOne;
    if Expired(s.store, m, now) {
      ReleaseKeepsLive(s, t, m);
    } else {
      assert t == s;
    }
  }

  lemma UpdateRecoverersKeepsLive(s: System, recoverers: map<ActorId, Recoverer>)
    requires Live(s) && Inv(s.(recoverers := recoverers))
    ensures Live(s.(recoverers := recoverers))
  {
    hide Inv;
    KeepsLive(s, s.(recoverers := recoverers));
  }

  lemma RecoveryKeepsLive(c: Config, s: System, a: ActorId, draw: Draw, id: RecordId)
    requires Live(s) && RecoverEnabled(s, a, RunRecovery(draw, id))
    ensures Live(NextRecovery(c, s, a, draw, id))
  {
    var r := s.recoverers[a];
    var m := r.pending[0];
    assert RecovererOk(s.store, s.clock, s.issued, s.everTerminal, r);
    RecoverPlanKeepsInv(c, s, a, draw, id);
    RecoveryKeepsInv(c, s, a, draw, id);
    hide Inv, PlanRecovery, RecoverOne;
    RecoverOneKeepsLive(s, m, r.now, r.phase.terminal, PlanOf(c, r, draw, id));
    UpdateRecoverersKeepsLive(s.(store := RecoverOne(s.store, m, r.now, r.phase.terminal, PlanOf(c, r, draw, id)).0),
                              s.recoverers[a := r.(pending := r.pending[1..], phase := Looking)]);
  }

  // ----- New messages and dead letters -----

  lemma IssueAndPushKeepsLive(s: System, e: Envelope, issue: Issue)
    requires Live(s) && e.messageId !in s.issued && issue.taskId == e.taskId && issue.state == e.state
    ensures Live(s.(store := PushReady(s.store, e), issued := s.issued[e.messageId := issue],
            claims := s.claims[e.messageId := 0]))
  {
    var m := e.messageId;
    var issued := s.(issued := s.issued[m := issue], claims := s.claims[m := 0]);
    var t := issued.(store := PushReady(s.store, e));
    IssueKeepsInv(s, m, issue);
    PushKeepsInv(issued, e);
    forall k | k in t.issued ensures Kept(t, k) {
      PushCount(s.store, e, OfMessage(k));
      if k != m {
        assert Kept(s, k);
      }
    }
    forall a | a in t.workers ensures Covered(t, t.workers[a]) {
      assert Covered(s, s.workers[a]) && DeliveryOk(s.issued, s.used, s.workers[a].delivery);
      PushCount(s.store, e, OfMessage(s.workers[a].delivery.messageId));
    }
  }

  /** Changes of dedupe keys, task index and existing dead letters touch no copy. */
  lemma SameCopiesKeepLive(s: System, t: System)
    requires Live(s) && Inv(t) && t.issued == s.issued && t.workers == s.workers
    requires t.store.ready == s.store.ready && t.store.inflight == s.store.inflight && t.store.leases == s.store.leases
    requires t.store.delayed == s.store.delayed && t.store.cancelled == s.store.cancelled
    requires s.store.dlq.Keys <= t.store.dlq.Keys && s.everTerminal <= t.everTerminal
    ensures Live(t)
  {
    hide Inv;
    KeepsLive(s, t);
  }

  lemma EnqueueKeepsLive(s: System, key: DedupeKey, m: MessageId, task: TaskId, state: TaskState, priority: Priority)
    requires Live(s) && m !in s.issued
    ensures Live(NextEnqueue(s, key, m, task, state, priority))
  {
    var e := Envelope(m, task, state, 0, priority, None);
    EnqueueKeepsInv(s, key, m, task, state, priority);
    hide Inv;
    IssueAndPushKeepsLive(s, e, Issue(task, state, 0, false));
    var pushed := s.(store := PushReady(s.store, e), issued := s.issued[m := Issue(task, state, 0, false)],
        claims := s.claims[m := 0]);
    if key !in s.store.dedupe {
      SameCopiesKeepLive(pushed, NextEnqueue(s, key, m, task, state, priority));
    }
  }

  lemma ReplayedKeepsLive(s: System, read: DeadLetter, m: MessageId)
    requires Live(s) && m !in s.issued && read.messageId in s.store.dlq
    requires DeadLetterOk(s.issued, read)
    ensures var e := s.store.dlq[read.messageId].envelope;
            Live(s.(store := PushReady(s.store.(dlq := s.store.dlq[read.messageId := read.(replayedAs := Some(m))]),
                                       e.(messageId := m, stamp := None)),
                    issued := s.issued[m := Issue(e.taskId, e.state, e.attempt, true)], claims := s.claims[m := 0]))
  {
    var updated := read.(replayedAs := Some(m));
    RewriteKeepsInv(s, updated);
    var rewritten := s.(store := s.store.(dlq := s.store.dlq[read.messageId := updated]));
    var e := s.store.dlq[read.messageId].envelope.(messageId := m, stamp := None);
    SameCopiesKeepLive(s, rewritten);
    hide Inv, Live;
    IssueAndPushKeepsLive(rewritten, e, Issue(e.taskId, e.state, e.attempt, true));
  }

  lemma ReplayKeepsLive(s: System, a: ActorId, m: MessageId)
    requires Live(s) && a in s.replayers && m !in s.issued
    ensures Live(NextReplay(s, a, m))
  {
    var read := s.replayers[a];
    var k := read.messageId;
    assert k in s.store.dlq && DeadLetterOk(s.issued, read);
    RemoveReplayerKeepsInv(s, a);
    var gone := s.(replayers := s.replayers - {a});
    SameCopiesKeepLive(s, gone);
    if Replay(s.store, k, m, read.(replayedAs := Some(m))).1.Replayed? {
      ReplayedKeepsLive(gone, read, m);
    }
    hide Inv, Live;
  }

  // ----- Workers -----

  lemma PhaseKeepsLive(s: System, a: ActorId, phase: Phase)
    requires Live(s) && a in s.workers && Inv(WithPhase(s, a, phase))
    requires phase.DispatchAcking? ==> Covered(s, s.workers[a].(phase := phase))
    ensures Live(WithPhase(s, a, phase))
  {
    var t := WithPhase(s, a, phase);
    forall m | m in t.issued ensures Kept(t, m) {
      assert Kept(s, m);
    }
    forall b | b in t.workers ensures Covered(t, t.workers[b]) {
      assert Covered(s, s.workers[b]);
    }
  }

  lemma RemoveWorkerKeepsLive(s: System, a: ActorId)
    requires Live(s)
    ensures Live(s.(workers := s.workers - {a}))
  {
    var t := s.(workers := s.workers - {a});
    RemoveWorkerKeepsInv(s, a);
    hide Inv;
    forall m | m in t.issued ensures Kept(t, m) {
      assert Kept(s, m);
    }
    forall b | b in t.workers ensures Covered(t, t.workers[b]) {
      assert Covered(s, s.workers[b]);
    }
  }

  /** An acknowledgement by a worker that recorded success, or by a dispatcher that left a copy. */
  lemma AckKeepsLive(s: System, a: ActorId)
    requires Live(s) && a in s.workers && (s.workers[a].phase.Acking? || s.workers[a].phase.DispatchAcking?)
    ensures Live(AfterAck(s, s.workers[a].delivery))
  {
    var d := s.workers[a].delivery;
    var t := AfterAck(s, d);
    AckKeepsInv(s, d);
    assert DeliveryOk(s.issued, s.used, d);
    assert Covered(s, s.workers[a]);
    assert s.workers[a].phase.Acking? ==> d.taskId in s.everTerminal;
    hide Inv;
    KeepsLive(s, t);
  }

  lemma AckSuccessKeepsLive(s: System, a: ActorId, answer: Answer)
    requires Live(s) && WorkerIn(s, a, Acking)
    ensures Live(NextAckSuccess(s, a, answer))
  {
    var d := s.workers[a].delivery;
    AckKeepsLive(s, a);
    AckWorkers(s, d);
    hide Live, AfterAck, AckResult, AfterAnswer;
    RemoveWorkerKeepsLive(AfterAck(s, d), a);
    AnswerPhase(answer);
    SimplePhaseKeepsLive(AfterAck(s, d), a, AfterAnswer(answer, NotAcked));
  }

  lemma AckWorkers(s: System, d: Delivery)
    ensures AfterAck(s, d).workers == s.workers
  {
    hide Acknowledge;
  }

  lemma AnswerPhase(answer: Answer)
    ensures !AfterAnswer(answer, NotAcked).Acking? && !AfterAnswer(answer, NotAcked).DispatchAcking?
  {
  }

  lemma ScheduleKeepsLive(c: Config, s: System, a: ActorId, now: Time, draw: Draw)
    requires Live(s) && a in s.workers && s.workers[a].phase.Dispatching?
    ensures Live(NextSchedule(c, s, a, now, draw))
  {
    var w := s.workers[a];
    assert DeliveryOk(s.issued, s.used, w.delivery);
    FailureRecordOk(c.policy, w.delivery, w.phase.failure, now, now, draw, s.issued, s.used);
    hide Inv, FailureRecord;
    match FailureRecord(c.policy, Rebuilt(w.delivery), w.phase.failure, now, now, draw)
    case None =>
      PhaseKeepsInv(s, a, Finalizing(w.phase.failure));
      PhaseKeepsLive(s, a, Finalizing(w.phase.failure));
    case Some(r) =>
      var t := s.(store := Schedule(s.store, r).0);
      DelayKeepsInv(s, r.messageId, Scheduled(r), r.dueAt);
      KeepsLive(s, t);
      PhaseKeepsInv(t, a, DispatchAcking);
      PhaseKeepsLive(t, a, DispatchAcking);
  }

  lemma FinalizeKeepsLive(s: System, a: ActorId, id: RecordId)
    requires Live(s) && a in s.workers && s.workers[a].phase.Finalizing?
    ensures Live(NextFinalize(s, a, id))
  {
    var w := s.workers[a];
    var r := FailureDeadLetter(w.delivery, w.phase.failure, id);
    assert DeliveryOk(s.issued, s.used, w.delivery);
    hide Inv;
    BuryKeepsInv(s, r);
    var t := s.(store := Finalize(s.store, r).0);
    SameCopiesKeepLive(s, t);
    PhaseKeepsInv(t, a, DispatchAcking);
    PhaseKeepsLive(t, a, DispatchAcking);
  }

  lemma DurableKeepsLive(s: System, task: TaskId, state: TaskState)
    requires Live(s)
    ensures Live(WithDurable(s, task, state))
  {
    DurableKeepsInv(s, task, state);
    SameCopiesKeepLive(s, WithDurable(s, task, state));
  }

  lemma TransactionKeepsLive(s: System, a: ActorId, state: TaskState, phase: Phase)
    requires Live(s) && a in s.workers && (phase.Acking? ==> state.Terminal()) && !phase.DispatchAcking?
    ensures Live(WithPhase(WithDurable(s, s.workers[a].delivery.taskId, state), a, phase))
  {
    TransactionKeepsInv(s, a, state, phase);
    hide Inv, Live;
    DurableKeepsLive(s, s.workers[a].delivery.taskId, state);
    PhaseKeepsLive(WithDurable(s, s.workers[a].delivery.taskId, state), a, phase);
  }

  lemma InterruptedKeepsLive(s: System, a: ActorId, answer: Answer)
    requires Live(s) && a in s.workers && s.workers[a].delivery.taskId in s.durable
    ensures Live(NextInterrupted(s, a, answer))
  {
    var task := s.workers[a].delivery.taskId;
    hide Live;
    DurableKeepsLive(s, task, Queued);
    var recorded := if TaskEnded(s, task) then s else WithDurable(s, task, Queued);
    RemoveWorkerKeepsLive(recorded, a);
    SimplePhaseKeepsLive(recorded, a, AfterAnswer(answer, NotAcked));
  }

  lemma SimplePhaseKeepsLive(s: System, a: ActorId, phase: Phase)
    requires Live(s) && a in s.workers && !phase.Acking? && !phase.DispatchAcking?
    ensures Live(WithPhase(s, a, phase))
  {
    PhaseKeepsInv(s, a, phase);
    PhaseKeepsLive(s, a, phase);
  }

  lemma AckFailureKeepsLive(s: System, a: ActorId)
    requires Live(s) && WorkerIn(s, a, DispatchAcking)
    ensures Live(AfterAck(s, s.workers[a].delivery).(workers := s.workers - {a}))
  {
    hide Live, Acknowledge;
    AckKeepsLive(s, a);
    RemoveWorkerKeepsLive(AfterAck(s, s.workers[a].delivery), a);
  }

  lemma ClaimStepKeepsLive(c: Config, s: System, a: ActorId, token: Token, sampled: Time)
    requires Live(s) && WorkEnabled(c, s, a, ClaimNext(token, sampled))
    ensures Live(NextClaim(s, a, token, sampled, sampled + c.visibility))
  {
    hide *;
    FourListsLive(s);
    ClaimStep(c, s, a, token, sampled);
    ClaimKeepsLive(s, a, 0, token, sampled, sampled + c.visibility);
  }

  lemma FourListsLive(s: System)
    requires Live(s)
    ensures |s.store.ready| == 4
  {
  }

  lemma WorkKeepsLive(c: Config, s: System, a: ActorId, x: WorkerStep)
    requires Live(s) && WorkEnabled(c, s, a, x)
    ensures Live(NextWork(c, s, a, x))
  {
    hide Live, Inv, NextClaim, NextRenew, NextAckSuccess, NextInterrupted, NextSchedule, NextFinalize, AfterAck;
    match x
    case ClaimNext(token, sampled) => ClaimStepKeepsLive(c, s, a, token, sampled);
    case RenewLease(sampled) => RenewKeepsLive(s, a, sampled + c.visibility);
    case RecordClaim(answer) => TransactionKeepsLive(s, a, Executing, AfterAnswer(answer, Running));
    case FinishHandler => SimplePhaseKeepsLive(s, a, Succeeded);
    case RecordSuccess(answer) => TransactionKeepsLive(s, a, Completed, AfterAnswer(answer, Acking));
    case AckSuccess(answer) => AckSuccessKeepsLive(s, a, answer);
    case Interrupt => SimplePhaseKeepsLive(s, a, Interrupting);
    case RecordInterrupted(answer) => InterruptedKeepsLive(s, a, answer);
    case Raise(error) => SimplePhaseKeepsLive(s, a, Failing(Classify(error)));
    case RecordFailure =>
      var f := s.workers[a].phase.failure;
      TransactionKeepsLive(s, a, if f.retryable then Queued else Failed, Dispatching(f));
    case ScheduleFailure(now, draw) => ScheduleKeepsLive(c, s, a, now, draw);
    case FinalizeFailure(id) => FinalizeKeepsLive(s, a, id);
    case AckFailure => AckFailureKeepsLive(s, a);
    case CrashWorker => RemoveWorkerKeepsLive(s, a);
  }

  lemma RenewKeepsLive(s: System, a: ActorId, deadline: Time)
    requires Live(s) && a in s.workers && s.clock < deadline
    ensures Live(NextRenew(s, a, deadline))
  {
    RenewKeepsInv(s, a, deadline);
    hide Inv;
    KeepsLive(s, NextRenew(s, a, deadline));
  }

  lemma RecoverKeepsLive(c: Config, s: System, a: ActorId, x: RecovererStep)
    requires Live(s) && RecoverEnabled(s, a, x)
    ensures Live(NextRecover(c, s, a, x))
  {
    RecoverKeepsInv(c, s, a, x);
    hide Inv, NextRecovery, NextReader, RecovererOk;
    match x
    case RunRecovery(draw, id) => RecoveryKeepsLive(c, s, a, draw, id);
    case CrashRecoverer => UpdateRecoverersKeepsLive(s, s.recoverers - {a});
    case _ => UpdateRecoverersKeepsLive(s, s.recoverers[a := NextReader(s, a, x)]);
  }

  lemma OperateKeepsLive(s: System, a: ActorId, x: OperatorStep)
    requires Live(s) && OperateEnabled(s, a, x)
    ensures Live(NextOperate(s, a, x))
  {
    OperateKeepsInv(s, a, x);
    if x.RunReplay? {
      ReplayKeepsLive(s, a, x.newMessage);
    } else {
      SameCopiesKeepLive(s, NextOperate(s, a, x));
    }
  }

  // ----- Every step, every run -----

  lemma StepKeepsLive(c: Config, s: System, x: Action)
    requires Live(s) && Enabled(c, s, x)
    ensures Live(Next(c, s, x))
  {
    FourLists(s);
    StepKeepsInv(c, s, x);
    hide Inv, NextEnqueue, NextWork, NextRecover, NextOperate, WorkEnabled, RecoverEnabled, OperateEnabled, IsDuePage,
         PromoteAll, Cancel;
    match x
    case Tick(to) => SameCopiesKeepLive(s, s.(clock := to));
    case SetDurable(task, state) => DurableKeepsLive(s, task, state);
    case ExpireDedupe(key) => SameCopiesKeepLive(s, s.(store := s.store.(dedupe := s.store.dedupe - {key})));
    case EnqueueTask(key, m, task, state, priority) => EnqueueKeepsLive(s, key, m, task, state, priority);
    case CancelTask(task) => CancelKeepsLive(s, task);
    case PromoteDue(_, _, page) => PromoteKeepsLive(s, page, Tally(0, 0, 0));
    case Work(a, step) => WorkKeepsLive(c, s, a, step);
    case Recover(a, step) => RecoverKeepsLive(c, s, a, step);
    case Operate(a, step) => OperateKeepsLive(s, a, step);
  }

  /** The theorem: after any run, with any interleaving and any crashes, every issued message is in a
      ready list, in flight, delayed or dead-lettered, or it is excused. */
  lemma {:induction false} NothingIsLost(c: Config, s: System, xs: seq<Action>)
    requires Live(s) && Run(c, s, xs)
    ensures Live(After(c, s, xs))
    ensures forall m :: m in After(c, s, xs).issued ==> Kept(After(c, s, xs), m)
    decreases xs
  {
    FourLists(s);
    hide Next, Enabled, Inv;
    if xs == [] {
    } else {
      StepKeepsLive(c, s, xs[0]);
      NothingIsLost(c, Next(c, s, xs[0]), xs[1..]);
    }
  }
}
