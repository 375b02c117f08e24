/** In how many places a message is: which steps copy it, and what holds as long as none does. */
module OnePlace {
  import opened Options
  import opened QueueTypes
  import opened QueueScripts
  import opened DeliveryProtocol
  import opened DeliveryInvariant
  import opened WorkerSteps
  import opened ReadyCounts
  import opened RetryPolicies
  import NoLoss

  /** Occurrences in the ready lists, plus one for each of the inflight, delayed and dead-letter hashes. */
  function Places(st: Store, m: MessageId): nat
    requires |st.ready| == 4
  {
    InReady(st, OfMessage(m)) + One(m in st.inflight) + One(m in st.delayed) + One(m in st.dlq)
  }

  lemma PushPlaces(st: Store, e: Envelope, m: MessageId)
    requires |st.ready| == 4
    ensures Places(PushReady(st, e), m) == Places(st, m) + One(e.messageId == m)
  {
    PushCount(st, e, OfMessage(m));
    hide InReady;
  }

  lemma SamePlaces(st: Store, t: Store, m: MessageId)
    requires |st.ready| == 4 && t.ready == st.ready && t.inflight == st.inflight
    requires t.delayed == st.delayed && t.dlq.Keys == st.dlq.Keys
    ensures Places(t, m) == Places(st, m)
  {
  }

  lemma ReleasePlaces(st: Store, k: MessageId, m: MessageId)
    requires |st.ready| == 4
    ensures |ReleaseLease(st, k).ready| == 4
    ensures Places(ReleaseLease(st, k), m) == Places(st, m) - One(m == k && k in st.inflight)
  {
  }

  // ----- No script multiplies a message -----

  lemma DropHeadPlaces(st: Store, p: Priority, m: MessageId)
    requires |st.ready| == 4 && st.ready[p] != []
    ensures |DropHead(st, p).ready| == 4 && Places(DropHead(st, p), m) <= Places(st, m)
  {
    PopCount(st, p, OfMessage(m));
    assert InReady(DropHead(st, p), OfMessage(m)) == InReady(PopHead(st, p), OfMessage(m));
  }

  lemma LeaseHeadPlaces(st: Store, p: Priority, token: Token, claimedAt: Time, deadline: Time, m: MessageId)
    requires |st.ready| == 4 && st.ready[p] != []
    ensures |LeaseHead(st, p, token, claimedAt, deadline).ready| == 4
    ensures Places(LeaseHead(st, p, token, claimedAt, deadline), m) <= Places(st, m)
  {
    PopCount(st, p, OfMessage(m));
    assert InReady(LeaseHead(st, p, token, claimedAt, deadline), OfMessage(m)) == InReady(PopHead(st, p), OfMessage(m));
  }

  lemma {:induction false} ClaimPlaces(st: Store, p: nat, token: Token, claimedAt: Time, deadline: Time, m: MessageId)
    requires |st.ready| == 4 && p <= 4
    ensures |ClaimFrom(st, p, token, claimedAt, deadline).0.ready| == 4
    ensures Places(ClaimFrom(st, p, token, claimedAt, deadline).0, m) <= Places(st, m)
    decreases 4 - p
  {
    hide *;
    ClaimIteration(st, p, token, claimedAt, deadline);
    if p < 4 {
      if st.ready[p] == [] {
        ClaimPlaces(st, p + 1, token, claimedAt, deadline, m);
      } else if Dead(st, st.ready[p][0]) {
        DropHeadPlaces(st, p, m);
        ClaimPlaces(DropHead(st, p), p + 1, token, claimedAt, deadline, m);
      } else {
        LeaseHeadPlaces(st, p, token, claimedAt, deadline, m);
      }
    }
  }

  lemma PromoteOnePlaces(st: Store, k: MessageId, tally: Tally, m: MessageId)
    requires |st.ready| == 4 && (k in st.delayed && st.delayed[k].Scheduled? ==>
             st.delayed[k].record.envelope.messageId == k)
    ensures PromoteOne(st, k, tally).Some? ==>
              |PromoteOne(st, k, tally).value.0.ready| == 4
                  && Places(PromoteOne(st, k, tally).value.0, m) <= Places(st, m)
  {
    if k in st.delayed && st.delayed[k].Scheduled? {
      PushCount(Unschedule(st, k), st.delayed[k].record.envelope, OfMessage(m));
    }
  }

  lemma {:induction false} PromotePlaces(s: System, ids: seq<MessageId>, tally: Tally, m: MessageId)
    requires Inv(s)
    ensures |PromoteAll(s.store, ids, tally).0.ready| == 4
    ensures Places(PromoteAll(s.store, ids, tally).0, m) <= Places(s.store, m)
    decreases ids
  {
    FourLists(s);
    if ids == [] {
    } else {
      assert ids[0] in s.store.delayed ==> RetryOk(s.issued, ids[0], s.store.delayed[ids[0]],
             s.store.delayedDue[ids[0]]);
      hide Inv, PromoteOne, Places;
      PromoteOneKeepsInv(s, ids[0], tally);
      PromoteOnePlaces(s.store, ids[0], tally, m);
      var next := PromoteOne(s.store, ids[0], tally).value;
      PromotePlaces(s.(store := next.0), ids[1..], next.1, m);
    }
  }

  lemma BuryPlaces(st: Store, k: MessageId, r: DeadLetter, byTask: map<TaskId, MessageId>,
                   byId: map<RecordId, MessageId>, m: MessageId)
    requires |st.ready| == 4
    ensures var t := st.(dlq := if k in st.dlq then st.dlq else st.dlq[k := r], dlqTaskIndex := byTask,
                         dlqRecordIndex := byId);
            |t.ready| == 4 && Places(t, m) <= Places(st, m) + One(m == k)
  {
  }

  lemma DelayPlaces(st: Store, k: MessageId, entry: DelayedEntry, due: Time, m: MessageId)
    requires |st.ready| == 4
    ensures var t := st.(delayed := st.delayed[k := entry], delayedDue := st.delayedDue[k := due]);
            |t.ready| == 4 && Places(t, m) <= Places(st, m) + One(m == k)
  {
  }

  lemma FilePlanPlaces(st: Store, k: MessageId, task: TaskId, plan: RecoveryPlan, m: MessageId)
    requires |st.ready| == 4
    ensures |FilePlan(st, k, task, plan).0.ready| == 4
    ensures Places(FilePlan(st, k, task, plan).0, m) <= Places(st, m) + One(m == k)
  {
    hide Places;
    match plan
    case DeadPlan(r) => BuryPlaces(st, k, r, st.dlqTaskIndex[task := k], st.dlqRecordIndex[r.id := k], m);
    case RetryPlan(entry, due) => DelayPlaces(st, k, entry, due, m);
  }

  lemma RecoverPlaces(st: Store, k: MessageId, now: Time, terminal: bool, plan: RecoveryPlan, m: MessageId)
    requires |st.ready| == 4
    ensures |RecoverOne(st, k, now, terminal, plan).0.ready| == 4
    ensures Places(RecoverOne(st, k, now, terminal, plan).0, m) <= Places(st, m)
  {
    hide Places, FilePlan, ReleaseLease;
    ReleasePlaces(st, k, m);
    if k in st.inflight {
      FilePlanPlaces(ReleaseLease(st, k), k, st.inflight[k].taskId, plan, m);
    }
  }

  lemma CancelPlaces(st: Store, task: TaskId, m: MessageId)
    requires |st.ready| == 4
    ensures |Cancel(st, task).0.ready| == 4
    ensures Places(Cancel(st, task).0, m) <= Places(st, m)
  {
    hide Cancel;
    CancelFrame(st, task);
    CancelShrinks(st, task);
  }

  lemma AckPlaces(s: System, d: Delivery, m: MessageId)
    requires |s.store.ready| == 4
    ensures |AfterAck(s, d).store.ready| == 4
    ensures Places(AfterAck(s, d).store, m) <= Places(s.store, m)
  {
  }

  lemma ReplayPlaces(s: System, a: ActorId, n: MessageId, m: MessageId)
    requires Inv(s) && a in s.replayers
    ensures |NextReplay(s, a, n).store.ready| == 4
    ensures m != n ==> Places(NextReplay(s, a, n).store, m) == Places(s.store, m)
    ensures m == n && m in NextReplay(s, a, n).issued && m !in s.issued ==>
              Places(NextReplay(s, a, n).store, m) == Places(s.store, m) + 1
  {
    var k := s.replayers[a].messageId;
    var updated := s.replayers[a].(replayedAs := Some(n));
    ReaderKeyExists(s, a);
    hide Inv, Places;
    FourLists(s);
    var rewritten := s.store.(dlq := s.store.dlq[k := updated]);
    assert rewritten.dlq.Keys == s.store.dlq.Keys;
    SamePlaces(s.store, rewritten, m);
    PushPlaces(rewritten, s.store.dlq[k].envelope.(messageId := n, stamp := None), m);
  }

  lemma ReaderKeyExists(s: System, a: ActorId)
    requires Inv(s) && a in s.replayers
    ensures s.replayers[a].messageId in s.store.dlq
  {
  }

  lemma EnqueuePlaces(s: System, key: DedupeKey, n: MessageId, task: TaskId, state: TaskState, priority: Priority,
                      m: MessageId)
    requires |s.store.ready| == 4
    ensures |NextEnqueue(s, key, n, task, state, priority).store.ready| == 4
    ensures m != n ==> Places(NextEnqueue(s, key, n, task, state, priority).store, m) == Places(s.store, m)
    ensures m == n && m in NextEnqueue(s, key, n, task, state, priority).issued && m !in s.issued ==>
              Places(NextEnqueue(s, key, n, task, state, priority).store, m) == Places(s.store, m) + 1
  {
    hide Places;
    if key !in s.store.dedupe {
      var e := Envelope(n, task, state, 0, priority, None);
      var pushed := PushReady(s.store, e);
      PushPlaces(s.store, e, m);
      SamePlaces(pushed, pushed.(dedupe := s.store.dedupe[key := n], taskIndex := s.store.taskIndex[task := n]), m);
      hide PushReady;
    }
  }

  // ----- Steps -----

  /** The step is the failure dispatcher's, and it files m a second time: a retry is granted, the task is not
      cancelled and m is not delayed yet; or a dead letter is due and m has none. */
  ghost predicate Copies(c: Config, s: System, x: Action, m: MessageId) {
    && x.Work? && x.actor in s.workers && s.workers[x.actor].delivery.messageId == m
    && (DelaysAgain(c, s, x.actor, x.work) || BuriesAgain(s, x.actor, x.work))
  }

  predicate DelaysAgain(c: Config, s: System, a: ActorId, x: WorkerStep)
    requires a in s.workers
  {
    var w := s.workers[a];
    && x.ScheduleFailure? && w.phase.Dispatching?
    && FailureRecord(c.policy, Rebuilt(w.delivery), w.phase.failure, x.now, x.now, x.draw).Some?
    && w.delivery.taskId !in s.store.cancelled && w.delivery.messageId !in s.store.delayed
  }

  predicate BuriesAgain(s: System, a: ActorId, x: WorkerStep)
    requires a in s.workers
  {
    x.FinalizeFailure? && s.workers[a].phase.Finalizing? && s.workers[a].delivery.messageId !in s.store.dlq
  }

  lemma SchedulePlaces(c: Config, s: System, a: ActorId, x: WorkerStep, m: MessageId)
    requires |s.store.ready| == 4 && x.ScheduleFailure? && WorkEnabled(c, s, a, x)
    ensures |NextWork(c, s, a, x).store.ready| == 4
    ensures Places(NextWork(c, s, a, x).store, m) ==
            Places(s.store, m) + One(s.workers[a].delivery.messageId == m && DelaysAgain(c, s, a, x))
  {
    hide FailureRecord, Places, Schedule, NextSchedule;
    var w := s.workers[a];
    var record := FailureRecord(c.policy, Rebuilt(w.delivery), w.phase.failure, x.now, x.now, x.draw);
    ScheduleStore(c, s, a, x.now, x.draw);
    if record.Some? {
      RecordIds(c.policy, Rebuilt(w.delivery), w.phase.failure, x.now, x.draw);
      ScheduleScriptPlaces(s.store, record.value, m);
    }
  }

  lemma ScheduleScriptPlaces(st: Store, r: RetryRecord, m: MessageId)
    requires |st.ready| == 4
    ensures var (u, done) := Schedule(st, r);
            && (done <==> r.taskId !in st.cancelled && r.messageId !in st.delayed)
            && |u.ready| == 4 && Places(u, m) == Places(st, m) + One(done && r.messageId == m)
  {
    if Schedule(st, r).1 {
    } else {
    }
  }

  lemma RecordIds(policy: RetryPolicy, e: Envelope, f: ExecutionFailure, now: Time, draw: Draw)
    ensures var r := FailureRecord(policy, e, f, now, now, draw);
            r.Some? ==> r.value.messageId == e.messageId && r.value.taskId == e.taskId
  {
    hide Decide;
  }

  lemma FinalizePlaces(c: Config, s: System, a: ActorId, x: WorkerStep, m: MessageId)
    requires |s.store.ready| == 4 && x.FinalizeFailure? && WorkEnabled(c, s, a, x)
    ensures |NextWork(c, s, a, x).store.ready| == 4
    ensures Places(NextWork(c, s, a, x).store, m) ==
            Places(s.store, m) + One(s.workers[a].delivery.messageId == m && BuriesAgain(s, a, x))
  {
    hide Places, Finalize, FailureDeadLetter;
    var w := s.workers[a];
    DeadLetterIds(w.delivery, w.phase.failure, x.id);
    FinalizeScriptPlaces(s.store, FailureDeadLetter(w.delivery, w.phase.failure, x.id), m);
  }

  lemma DeadLetterIds(d: Delivery, f: ExecutionFailure, id: RecordId)
    ensures FailureDeadLetter(d, f, id).messageId == d.messageId && FailureDeadLetter(d, f, id).taskId == d.taskId
  {
  }

  lemma FinalizeScriptPlaces(st: Store, r: DeadLetter, m: MessageId)
    requires |st.ready| == 4
    ensures var u := Finalize(st, r).0;
            |u.ready| == 4 && Places(u, m) == Places(st, m) + One(r.messageId !in st.dlq && r.messageId == m)
  {
    if r.messageId in st.dlq {
    } else {
    }
  }

  lemma WorkPlaces(c: Config, s: System, a: ActorId, x: WorkerStep, m: MessageId)
    requires Inv(s) && WorkEnabled(c, s, a, x) && !x.ScheduleFailure? && !x.FinalizeFailure?
    ensures |NextWork(c, s, a, x).store.ready| == 4
    ensures Places(NextWork(c, s, a, x).store, m) <= Places(s.store, m)
  {
    hide Inv, Places, NextWork, NextClaim, NextRenew, NextAckSuccess, AfterAck;
    FourLists(s);
    ScriptStep(c, s, a, x);
    match x
    case ClaimNext(token, sampled) => ClaimStepPlaces(s, a, token, sampled, sampled + c.visibility, m);
    case RenewLease(sampled) => RenewPlaces(s, a, sampled + c.visibility, m);
    case AckSuccess(answer) =>
      AckFrame(s, a, answer);
      AckPlaces(s, s.workers[a].delivery, m);
    case AckFailure => AckPlaces(s, s.workers[a].delivery, m);
    case _ => QuietFrame(c, s, a, x);
  }

  lemma ClaimStepPlaces(s: System, a: ActorId, token: Token, sampled: Time, deadline: Time, m: MessageId)
    requires |s.store.ready| == 4
    ensures var t := NextClaim(s, a, token, sampled, deadline);
            |t.store.ready| == 4 && Places(t.store, m) <= Places(s.store, m)
  {
    hide Places, ClaimFrom;
    ClaimPlaces(s.store, 0, token, sampled, deadline, m);
    match ClaimFrom(s.store, 0, token, sampled, deadline).1
    case None =>
    case Some(_) =>
  }

  /** A worker's step adds a place exactly when it copies, and then one. */
  lemma WorkOrCopyPlaces(c: Config, s: System, a: ActorId, x: WorkerStep, m: MessageId)
    requires Inv(s) && WorkEnabled(c, s, a, x)
    ensures var t := NextWork(c, s, a, x);
            && |t.store.ready| == 4
            && (Copies(c, s, Work(a, x), m) ==> Places(t.store, m) == Places(s.store, m) + 1)
            && (!Copies(c, s, Work(a, x), m) ==> Places(t.store, m) <= Places(s.store, m))
  {
    FourLists(s);
    if x.ScheduleFailure? {
      SchedulePlaces(c, s, a, x, m);
    } else if x.FinalizeFailure? {
      FinalizePlaces(c, s, a, x, m);
    } else {
      WorkPlaces(c, s, a, x, m);
    }
    hide Inv, Places, NextWork, DelaysAgain, BuriesAgain;
  }

  lemma RenewPlaces(s: System, a: ActorId, deadline: Time, m: MessageId)
    requires |s.store.ready| == 4 && a in s.workers
    ensures |NextRenew(s, a, deadline).store.ready| == 4
    ensures Places(NextRenew(s, a, deadline).store, m) == Places(s.store, m)
  {
  }

  lemma ApprovalPlaces(s: System, a: ActorId, m: MessageId)
    requires Inv(s) && a in s.approvers
    ensures |NextOperate(s, a, RunApproval).store.ready| == 4
    ensures Places(NextOperate(s, a, RunApproval).store, m) == Places(s.store, m)
  {
    FourLists(s);
    assert s.approvers[a].read.messageId in s.store.dlq;
    hide Inv;
  }

  lemma StepPlaces(c: Config, s: System, x: Action, m: MessageId)
    requires Inv(s) && Enabled(c, s, x) && m in s.issued
    ensures |Next(c, s, x).store.ready| == 4
    ensures Copies(c, s, x, m) ==> Places(Next(c, s, x).store, m) == Places(s.store, m) + 1
    ensures !Copies(c, s, x, m) ==> Places(Next(c, s, x).store, m) <= Places(s.store, m)
  {
    hide Inv, Places, NextEnqueue, NextWork, WorkEnabled, NextRecover, RecoverEnabled, NextReplay, PromoteAll, Cancel,
         IsDuePage, DelaysAgain, BuriesAgain;
    FourLists(s);
    match x
    case Work(a, step) => WorkOrCopyPlaces(c, s, a, step, m);
    case EnqueueTask(key, n, task, state, priority) => EnqueuePlaces(s, key, n, task, state, priority, m);
    case CancelTask(task) => CancelPlaces(s.store, task, m);
    case PromoteDue(_, _, page) => PromotePlaces(s, page, Tally(0, 0, 0), m);
    case Recover(a, step) => RecoverStepPlaces(c, s, a, step, m);
    case Operate(a, step) => OperatePlaces(s, a, step, m);
    case Tick(_) =>
    case SetDurable(_, _) =>
    case ExpireDedupe(key) => DedupePlaces(s.store, key, m);
  }

  /** A step adds a place for a message that exists exactly when it is a dispatcher's copy. */
  lemma PlacesGrowIff(c: Config, s: System, x: Action, m: MessageId)
    requires Inv(s) && Enabled(c, s, x) && m in s.issued
    ensures |s.store.ready| == 4 && |Next(c, s, x).store.ready| == 4
    ensures Places(Next(c, s, x).store, m) > Places(s.store, m) <==> Copies(c, s, x, m)
  {
    FourLists(s);
    StepPlaces(c, s, x, m);
    hide *;
  }

  lemma RecoverStepPlaces(c: Config, s: System, a: ActorId, x: RecovererStep, m: MessageId)
    requires |s.store.ready| == 4 && RecoverEnabled(s, a, x)
    ensures |NextRecover(c, s, a, x).store.ready| == 4
    ensures Places(NextRecover(c, s, a, x).store, m) <= Places(s.store, m)
  {
    hide Places, RecoverOne, PlanRecovery, NextReader;
    if x.RunRecovery? {
      var r := s.recoverers[a];
      RecoverPlaces(s.store, r.pending[0], r.now, r.phase.terminal, PlanOf(c, r, x.draw, x.id), m);
    }
  }

  lemma DedupePlaces(st: Store, key: DedupeKey, m: MessageId)
    requires |st.ready| == 4
    ensures Places(st.(dedupe := st.dedupe - {key}), m) == Places(st, m)
  {
  }

  lemma OperatePlaces(s: System, a: ActorId, x: OperatorStep, m: MessageId)
    requires Inv(s) && OperateEnabled(s, a, x) && m in s.issued
    ensures |NextOperate(s, a, x).store.ready| == 4
    ensures Places(NextOperate(s, a, x).store, m) <= Places(s.store, m)
  {
    hide Inv, Places, NextReplay;
    FourLists(s);
    match x
    case RunReplay(n) => ReplayPlaces(s, a, n, m);
    case RunApproval => ApprovalPlaces(s, a, m);
    case _ =>
  }

  // ----- New messages -----

  lemma PlacedMeansIssued(s: System, m: MessageId)
    requires Inv(s) && Places(s.store, m) > 0
    ensures m in s.issued
  {
    if InReady(s.store, OfMessage(m)) > 0 {
      var p, i := InReadyWitness(s.store, OfMessage(m));
      assert Known(s.issued, s.store.ready[p][i]);
    } else if m in s.store.delayed {
      assert RetryOk(s.issued, m, s.store.delayed[m], s.store.delayedDue[m]);
    }
  }

  lemma UnissuedNowhere(s: System, m: MessageId)
    requires Inv(s) && m !in s.issued
    ensures Places(s.store, m) == 0
  {
    if Places(s.store, m) > 0 {
      PlacedMeansIssued(s, m);
    }
  }

  /** A message issued by a step, by enqueueing or by replay, is born in exactly one place. */
  lemma NewMessagePlaces(c: Config, s: System, x: Action, m: MessageId)
    requires Inv(s) && Enabled(c, s, x) && m !in s.issued && m in Next(c, s, x).issued
    ensures |Next(c, s, x).store.ready| == 4 && Places(Next(c, s, x).store, m) == 1
  {
    hide Inv, Places, NextEnqueue, NextReplay, NextWork, NextRecover, WorkEnabled, RecoverEnabled;
    UnissuedNowhere(s, m);
    FourLists(s);
    OnlyTwoStepsIssue(c, s, x);
    match x
    case EnqueueTask(key, n, task, state, priority) =>
      EnqueueIssues(s, key, n, task, state, priority);
      EnqueuePlaces(s, key, n, task, state, priority, m);
    case Operate(a, step) =>
      ReplayIssues(s, a, step.newMessage);
      ReplayPlaces(s, a, step.newMessage, m);
  }

  lemma EnqueueIssues(s: System, key: DedupeKey, n: MessageId, task: TaskId, state: TaskState, priority: Priority)
    requires |s.store.ready| == 4
    ensures s.issued.Keys <= NextEnqueue(s, key, n, task, state, priority).issued.Keys <= s.issued.Keys + {n}
  {
    hide Enqueue;
  }

  lemma ReplayIssues(s: System, a: ActorId, n: MessageId)
    requires |s.store.ready| == 4 && a in s.replayers
    ensures s.issued.Keys <= NextReplay(s, a, n).issued.Keys <= s.issued.Keys + {n}
  {
    var read := s.replayers[a];
    if Replay(s.store, read.messageId, n, read.(replayedAs := Some(n))).1.Replayed? {
    }
  }

  lemma ClaimIssuesNothing(s: System, a: ActorId, token: Token, sampled: Time, deadline: Time)
    requires |s.store.ready| == 4
    ensures NextClaim(s, a, token, sampled, deadline).issued == s.issued
  {
    hide ClaimFrom;
    match ClaimFrom(s.store, 0, token, sampled, deadline).1
    case None =>
    case Some(e) =>
  }

  lemma WorkIssuesNothing(c: Config, s: System, a: ActorId, x: WorkerStep)
    requires |s.store.ready| == 4 && WorkEnabled(c, s, a, x)
    ensures NextWork(c, s, a, x).issued == s.issued
  {
    hide NextWork, NextClaim, NextSchedule, NextAckSuccess, AfterAck, Finalize, Renew;
    ScriptStep(c, s, a, x);
    match x
    case ClaimNext(token, sampled) => ClaimIssuesNothing(s, a, token, sampled, sampled + c.visibility);
    case ScheduleFailure(now, draw) => ScheduleStore(c, s, a, now, draw);
    case AckSuccess(answer) => AckFrame(s, a, answer);
    case AckFailure => AckOnlyStore(s, s.workers[a].delivery);
    case RenewLease(_) =>
    case FinalizeFailure(_) =>
    case _ => QuietFrame(c, s, a, x);
  }

  lemma OperateIssues(s: System, a: ActorId, x: OperatorStep)
    requires |s.store.ready| == 4 && OperateEnabled(s, a, x) && !x.RunReplay?
    ensures NextOperate(s, a, x).issued == s.issued
  {
  }

  lemma RecoverIssuesNothing(c: Config, s: System, a: ActorId, x: RecovererStep)
    requires RecoverEnabled(s, a, x)
    ensures NextRecover(c, s, a, x).issued == s.issued
  {
    hide RecoverOne, PlanRecovery, NextReader;
  }

  lemma OnlyTwoStepsIssue(c: Config, s: System, x: Action)
    requires |s.store.ready| == 4 && Enabled(c, s, x)
    ensures Next(c, s, x).issued == s.issued || x.EnqueueTask? || (x.Operate? && x.operate.RunReplay?)
  {
    hide NextWork, WorkEnabled, NextRecover, RecoverEnabled, PromoteAll, Cancel, NextEnqueue, NextOperate,
        OperateEnabled, IsDuePage;
    match x
    case Work(a, step) => WorkIssuesNothing(c, s, a, step);
    case Recover(a, step) => RecoverIssuesNothing(c, s, a, step);
    case Operate(a, step) => if !step.RunReplay? { OperateIssues(s, a, step); }
    case _ =>
  }

  // ----- Runs -----

  /** In at most one place, if it exists at all. */
  ghost predicate Single(s: System, m: MessageId) {
    Inv(s) && |s.store.ready| == 4 && (m in s.issued ==> Places(s.store, m) <= 1)
  }

  lemma StepKeepsSingle(c: Config, s: System, x: Action, m: MessageId)
    requires Single(s, m) && Enabled(c, s, x) && !Copies(c, s, x, m)
    ensures Single(Next(c, s, x), m)
  {
    StepKeepsInv(c, s, x);
    FourLists(Next(c, s, x));
    hide Inv, Places, Next, Enabled, Copies;
    if m in s.issued {
      StepPlaces(c, s, x, m);
    } else if m in Next(c, s, x).issued {
      NewMessagePlaces(c, s, x, m);
    }
  }

  /** No step of the run files m a second time. */
  ghost predicate NeverCopies(c: Config, s: System, xs: seq<Action>, m: MessageId)
    requires |s.store.ready| == 4 && Run(c, s, xs)
    decreases xs
  {
    xs != [] ==> !Copies(c, s, xs[0], m) && NeverCopies(c, Next(c, s, xs[0]), xs[1..], m)
  }

  /** As long as no step copies it, a message is in one place at most, and one that has retired from every
      place never reappears. */
  lemma {:induction false} OnePlacePerMessage(c: Config, s: System, xs: seq<Action>, m: MessageId)
    requires Single(s, m) && Run(c, s, xs) && NeverCopies(c, s, xs, m)
    ensures Single(After(c, s, xs), m)
    ensures m in s.issued && Places(s.store, m) == 0 ==> Places(After(c, s, xs).store, m) == 0
    decreases xs
  {
    hide Inv, Places, Next, Enabled, Copies;
    if xs == [] {
    } else {
      var t := Next(c, s, xs[0]);
      StepKeepsSingle(c, s, xs[0], m);
      OnePlacePerMessage(c, t, xs[1..], m);
      if m in s.issued && Places(s.store, m) == 0 {
        StepPlaces(c, s, xs[0], m);
        IssuedGrows(c, s, xs[0]);
      }
    }
  }

  /** Runs in which leases leave only through recovery never copy. */
  lemma {:induction false} CrashOnlyNeverCopies(c: Config, s: System, xs: seq<Action>, m: MessageId)
    requires |s.store.ready| == 4 && Run(c, s, xs) && forall i :: 0 <= i < |xs| ==> CrashOnly(xs[i])
    ensures NeverCopies(c, s, xs, m)
    decreases xs
  {
    hide Next, Enabled;
    if xs == [] {
    } else {
      assert CrashOnly(xs[0]);
      CrashOnlyNeverCopies(c, Next(c, s, xs[0]), xs[1..], m);
    }
  }

  lemma IssuedGrows(c: Config, s: System, x: Action)
    requires |s.store.ready| == 4 && Enabled(c, s, x)
    ensures s.issued.Keys <= Next(c, s, x).issued.Keys
  {
    hide NextWork, WorkEnabled, NextRecover, RecoverEnabled, PromoteAll, Cancel, NextEnqueue, NextReplay, IsDuePage;
    OnlyTwoStepsIssue(c, s, x);
    match x
    case EnqueueTask(key, n, task, state, priority) => EnqueueIssues(s, key, n, task, state, priority);
    case Operate(a, step) =>
      if step.RunReplay? {
        ReplayIssues(s, a, step.newMessage);
      } else {
        OperateIssues(s, a, step);
      }
    case _ =>
  }

  /** With no loss: a message that was never copied, and whose task was never ended or cancelled, is in exactly
      one place. */
  lemma ExactlyOnePlace(c: Config, xs: seq<Action>, m: MessageId)
    requires Run(c, INITIAL, xs) && NeverCopies(c, INITIAL, xs, m)
    requires m in After(c, INITIAL, xs).issued && !NoLoss.Excused(After(c, INITIAL, xs), m)
    ensures var t := After(c, INITIAL, xs); |t.store.ready| == 4 && Places(t.store, m) == 1
  {
    NoLoss.InitialLive();
    NoLoss.NothingIsLost(c, INITIAL, xs);
    OnePlacePerMessage(c, INITIAL, xs, m);
    FourLists(After(c, INITIAL, xs));
  }
}
