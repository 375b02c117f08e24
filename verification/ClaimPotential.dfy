/** Retries end in the full protocol too, copies and all.  A message carries a potential: the claims made so
    far, and for every entry and every worker that can still lead to claims, how many. */
module ClaimPotential {
  import opened Options
  import opened QueueTypes
  import opened QueueScripts
  import opened DeliveryProtocol
  import opened DeliveryInvariant
  import opened RetryPolicies
  import ClaimBudget
  import OnePlace
  import RetryBudget

  /** Claims that an entry with attempt number k can lead to: its own, and those of a copy by the worker that
      claims it and of a copy by the recovery of the lease. */
  function Weight(c: Config, k: nat): nat
    decreases if k < c.policy.maximumAttempts then c.policy.maximumAttempts - k else 0
  {
    if k + 1 < c.policy.maximumAttempts then 1 + 2 * Weight(c, k + 1) else 1
  }

  /** What one retry of a delivery with attempt number k can still lead to. */
  function Left(c: Config, k: nat): nat { if k + 1 < c.policy.maximumAttempts then Weight(c, k + 1) else 0 }

  function Power(n: nat): (p: nat)
    ensures p >= 1
  {
    if n == 0 then 1 else 2 * Power(n - 1)
  }

  /** max(1, 2^(maximum_attempts - a) - 1) */
  function FullCap(c: Config, a: nat): nat {
    if a < c.policy.maximumAttempts then Power(c.policy.maximumAttempts - a) - 1 else 1
  }

  lemma {:induction false} WeightIsCap(c: Config, k: nat)
    ensures Weight(c, k) == FullCap(c, k)
    decreases if k < c.policy.maximumAttempts then c.policy.maximumAttempts - k else 0
  {
    if k + 1 < c.policy.maximumAttempts {
      WeightIsCap(c, k + 1);
    } else if k < c.policy.maximumAttempts {
      assert Power(1) == 2 * Power(0);
    }
  }

  // ----- Weights of the tables -----

  function WeightIn(c: Config, q: seq<Envelope>, m: MessageId): nat {
    if q == [] then 0
    else (if q[0].messageId == m then Weight(c, q[0].attempt) else 0) + WeightIn(c, q[1..], m)
  }

  function ReadyWeight(c: Config, ready: seq<seq<Envelope>>, m: MessageId): nat
    requires |ready| == 4
  {
    WeightIn(c, ready[0], m) + WeightIn(c, ready[1], m) + WeightIn(c, ready[2], m) + WeightIn(c, ready[3], m)
  }

  function DelayedWeight(c: Config, delayed: map<MessageId, DelayedEntry>, m: MessageId): nat {
    if m in delayed && delayed[m].Scheduled? then Weight(c, delayed[m].record.envelope.attempt) else 0
  }

  function LeaseWeight(c: Config, inflight: map<MessageId, Envelope>, m: MessageId): nat {
    if m in inflight then Left(c, inflight[m].attempt) else 0
  }

  function StoreWeight(c: Config, st: Store, m: MessageId): nat
    requires |st.ready| == 4
  {
    ReadyWeight(c, st.ready, m) + DelayedWeight(c, st.delayed, m) + LeaseWeight(c, st.inflight, m)
  }

  lemma {:induction false} WeightInAppend(c: Config, q: seq<Envelope>, e: Envelope, m: MessageId)
    ensures WeightIn(c, q + [e], m) == WeightIn(c, q, m) + if e.messageId == m then Weight(c, e.attempt) else 0
  {
    if q == [] {
      assert q + [e] == [e];
    } else {
      assert (q + [e])[1..] == q[1..] + [e];
      WeightInAppend(c, q[1..], e, m);
    }
  }

  lemma PushWeight(c: Config, st: Store, e: Envelope, m: MessageId)
    requires |st.ready| == 4
    ensures var u := PushReady(st, e);
            && |u.ready| == 4
            && StoreWeight(c, u, m) == StoreWeight(c, st, m) + if e.messageId == m then Weight(c, e.attempt) else 0
  {
    WeightInAppend(c, st.ready[e.priority], e, m);
    hide Weight, WeightIn;
  }

  lemma PopWeight(c: Config, ready: seq<seq<Envelope>>, p: Priority, m: MessageId)
    requires |ready| == 4 && ready[p] != []
    ensures var e := ready[p][0];
            ReadyWeight(c, ready[p := ready[p][1..]], m) + (if e.messageId == m then Weight(c, e.attempt) else 0)
            == ReadyWeight(c, ready, m)
  {
    hide Weight;
    assert WeightIn(c, ready[p], m) ==
           (if ready[p][0].messageId == m then Weight(c, ready[p][0].attempt) else 0) + WeightIn(c, ready[p][1..], m);
    hide WeightIn;
  }

  /** Entries of m only disappear. */
  lemma ShrinkWeight(c: Config, st: Store, u: Store, m: MessageId)
    requires |st.ready| == 4 && u.ready == st.ready
    requires m in u.inflight ==> m in st.inflight && u.inflight[m] == st.inflight[m]
    requires m in u.delayed ==> m in st.delayed && u.delayed[m] == st.delayed[m]
    ensures StoreWeight(c, u, m) <= StoreWeight(c, st, m)
  {
    hide Weight, Left, ReadyWeight;
  }

  // ----- Scripts -----

  lemma DropWeight(c: Config, st: Store, p: Priority, m: MessageId)
    requires |st.ready| == 4 && st.ready[p] != []
    ensures |DropHead(st, p).ready| == 4 && StoreWeight(c, DropHead(st, p), m) <= StoreWeight(c, st, m)
  {
    hide Weight, Left, ReadyWeight;
    PopWeight(c, st.ready, p, m);
  }

  lemma LeasingWeight(c: Config, st: Store, p: Priority, token: Token, claimedAt: Time, deadline: Time, m: MessageId)
    requires |st.ready| == 4 && st.ready[p] != []
    ensures var u := LeaseHead(st, p, token, claimedAt, deadline);
            var e := st.ready[p][0];
            && |u.ready| == 4
            && StoreWeight(c, u, m) + (if e.messageId == m then 1 + Left(c, e.attempt) else 0) <= StoreWeight(c, st, m)
  {
    var e := st.ready[p][0];
    PopWeight(c, st.ready, p, m);
    assert Weight(c, e.attempt) == 1 + 2 * Left(c, e.attempt);
    hide Weight, Left, ReadyWeight;
  }

  /** A claim of m pays for itself and for what its worker may schedule. */
  lemma {:induction false} ClaimWeight(c: Config, st: Store, p: nat, token: Token, claimedAt: Time, deadline: Time,
                                       m: MessageId)
    requires |st.ready| == 4 && p <= 4
    ensures var (u, claimed) := ClaimFrom(st, p, token, claimedAt, deadline);
            && |u.ready| == 4
            && StoreWeight(c, u, m)
               + (if claimed.Some? && claimed.value.messageId == m then 1 + Left(c, claimed.value.attempt) else 0)
               <= StoreWeight(c, st, m)
    decreases 4 - p
  {
    hide ClaimFrom, StoreWeight, Left, Dead, DropHead, LeaseHead;
    ClaimIteration(st, p, token, claimedAt, deadline);
    if p < 4 {
      if st.ready[p] == [] {
        ClaimWeight(c, st, p + 1, token, claimedAt, deadline, m);
      } else if Dead(st, st.ready[p][0]) {
        DropWeight(c, st, p, m);
        ClaimWeight(c, DropHead(st, p), p + 1, token, claimedAt, deadline, m);
      } else {
        LeasingWeight(c, st, p, token, claimedAt, deadline, m);
      }
    }
  }

  lemma UnscheduleWeight(c: Config, st: Store, k: MessageId, m: MessageId)
    requires |st.ready| == 4 && k in st.delayed && st.delayed[k].Scheduled?
    ensures var u := Unschedule(st, k);
            && |u.ready| == 4
            && StoreWeight(c, u, m) + (if k == m then Weight(c, st.delayed[k].record.envelope.attempt) else 0)
               == StoreWeight(c, st, m)
  {
    hide Weight, Left, ReadyWeight;
  }

  lemma PromoteOneWeight(c: Config, st: Store, k: MessageId, tally: Tally, m: MessageId)
    requires |st.ready| == 4
    requires k in st.delayed ==> st.delayed[k].Scheduled? && st.delayed[k].record.envelope.messageId == k
    ensures var u := PromoteOne(st, k, tally).value.0; |u.ready| == 4 && StoreWeight(c, u, m) <= StoreWeight(c, st, m)
  {
    hide StoreWeight, Weight, Unschedule, PushReady;
    if k in st.delayed {
      UnscheduleWeight(c, st, k, m);
      PushWeight(c, Unschedule(st, k), st.delayed[k].record.envelope, m);
    } else {
      ShrinkWeight(c, st, st.(delayedDue := st.delayedDue - {k}), m);
    }
  }

  lemma DelayedAt(s: System, k: MessageId)
    requires Inv(s)
    ensures k in s.store.delayed ==> s.store.delayed[k].Scheduled? && s.store.delayed[k].record.envelope.messageId == k
  {
    assert k in s.store.delayed ==> RetryOk(s.issued, k, s.store.delayed[k], s.store.delayedDue[k]);
  }

  lemma {:induction false} PromoteWeight(c: Config, s: System, ids: seq<MessageId>, tally: Tally, m: MessageId)
    requires Inv(s)
    ensures var u := PromoteAll(s.store, ids, tally).0;
            |s.store.ready| == 4 && |u.ready| == 4 && StoreWeight(c, u, m) <= StoreWeight(c, s.store, m)
    decreases ids
  {
    hide Inv, PromoteOne, StoreWeight;
    FourLists(s);
    if ids == [] {
    } else {
      DelayedAt(s, ids[0]);
      PromoteOneWeight(c, s.store, ids[0], tally, m);
      PromoteOneKeepsInv(s, ids[0], tally);
      var next := PromoteOne(s.store, ids[0], tally).value;
      PromoteWeight(c, s.(store := next.0), ids[1..], next.1, m);
    }
  }

  lemma ReleaseWeight(c: Config, st: Store, k: MessageId, m: MessageId)
    requires |st.ready| == 4
    ensures var u := ReleaseLease(st, k);
            && |u.ready| == 4
            && StoreWeight(c, u, m) + (if k == m && k in st.inflight then Left(c, st.inflight[k].attempt) else 0)
               == StoreWeight(c, st, m)
  {
    hide Weight, Left, ReadyWeight;
  }

  lemma DelayWeight(c: Config, st: Store, k: MessageId, entry: DelayedEntry, due: Time, m: MessageId)
    requires |st.ready| == 4 && k !in st.delayed
    ensures var u := st.(delayed := st.delayed[k := entry], delayedDue := st.delayedDue[k := due]);
            StoreWeight(c, u, m) == StoreWeight(c, st, m)
              + if k == m && entry.Scheduled? then Weight(c, entry.record.envelope.attempt) else 0
  {
    hide Weight, Left, ReadyWeight;
  }

  lemma FileWeight(c: Config, st: Store, k: MessageId, task: TaskId, plan: RecoveryPlan, e: Envelope, m: MessageId)
    requires |st.ready| == 4 && ClaimBudget.NextAttempt(c, e, plan)
    ensures var u := FilePlan(st, k, task, plan).0;
            |u.ready| == 4 && StoreWeight(c, u, m) <= StoreWeight(c, st, m) + if k == m then Left(c, e.attempt) else 0
  {
    hide Weight, StoreWeight;
    match plan
    case DeadPlan(r) => ShrinkWeight(c, st, FilePlan(st, k, task, plan).0, m);
    case RetryPlan(entry, due) => if k !in st.delayed { DelayWeight(c, st, k, entry, due, m); }
  }

  lemma RecoverWeight(c: Config, st: Store, k: MessageId, now: Time, terminal: bool, plan: RecoveryPlan, m: MessageId)
    requires |st.ready| == 4
    requires Expired(st, k, now) ==> ClaimBudget.NextAttempt(c, st.inflight[k], plan)
    ensures var u := RecoverOne(st, k, now, terminal, plan).0;
            |u.ready| == 4 && StoreWeight(c, u, m) <= StoreWeight(c, st, m)
  {
    hide StoreWeight, Left, FilePlan, ReleaseLease, ClaimBudget.NextAttempt;
    ReleaseWeight(c, st, k, m);
    if Expired(st, k, now) {
      FileWeight(c, ReleaseLease(st, k), k, st.inflight[k].taskId, plan, st.inflight[k], m);
    }
  }

  lemma ScheduleWeight(c: Config, st: Store, r: RetryRecord, m: MessageId)
    requires |st.ready| == 4
    ensures var u := Schedule(st, r).0;
            && |u.ready| == 4
            && StoreWeight(c, u, m) <= StoreWeight(c, st, m) + if r.messageId == m then Weight(c, r.envelope.attempt)
               else 0
  {
    hide StoreWeight, Weight;
    if Schedule(st, r).1 {
      DelayWeight(c, st, r.messageId, Scheduled(r), r.dueAt, m);
    }
  }

  // ----- Workers -----

  /** Before its dispatcher has scheduled or given up, a worker may still schedule a retry. */
  predicate MaySchedule(phase: Phase) { !phase.Finalizing? && !phase.DispatchAcking? }

  function WorkerWeight(c: Config, w: Worker, m: MessageId): nat {
    if w.delivery.messageId == m && MaySchedule(w.phase) then Left(c, w.delivery.attempt) else 0
  }

  ghost function Pick<T(!new)>(keys: set<T>): T
    requires keys != {}
    ensures Pick(keys) in keys
  {
    var a :| a in keys;
    a
  }

  ghost function WorkersWeight(c: Config, ws: map<ActorId, Worker>, m: MessageId): nat
    decreases |ws|
  {
    if ws == map[] then 0
    else
      var a := Pick(ws.Keys);
      WorkerWeight(c, ws[a], m) + WorkersWeight(c, ws - {a}, m)
  }

  lemma {:induction false} WithoutWorker(c: Config, ws: map<ActorId, Worker>, a: ActorId, m: MessageId)
    requires a in ws
    ensures WorkersWeight(c, ws, m) == WorkerWeight(c, ws[a], m) + WorkersWeight(c, ws - {a}, m)
    decreases |ws|
  {
    hide WorkerWeight, Pick;
    assert ws != map[];
    var b := Pick(ws.Keys);
    if a != b {
      WithoutWorker(c, ws - {b}, a, m);
      WithoutWorker(c, ws - {a}, b, m);
      assert ws - {b} - {a} == ws - {a} - {b};
    }
  }

  lemma WithWorker(c: Config, ws: map<ActorId, Worker>, a: ActorId, w: Worker, m: MessageId)
    ensures WorkersWeight(c, ws[a := w], m) == WorkerWeight(c, w, m) + WorkersWeight(c, ws - {a}, m)
  {
    WithoutWorker(c, ws[a := w], a, m);
    assert ws[a := w] - {a} == ws - {a};
  }

  lemma NewWorkerWeight(c: Config, ws: map<ActorId, Worker>, a: ActorId, w: Worker, m: MessageId)
    requires a !in ws
    ensures WorkersWeight(c, ws[a := w], m) == WorkersWeight(c, ws, m) + WorkerWeight(c, w, m)
  {
    WithWorker(c, ws, a, w, m);
    assert ws - {a} == ws;
  }

  /** A worker that moves on without regaining its chance to schedule, or leaves. */
  lemma MovedWorkerWeight(c: Config, ws: map<ActorId, Worker>, a: ActorId, phase: Phase, m: MessageId)
    requires a in ws && (MaySchedule(phase) ==> MaySchedule(ws[a].phase))
    ensures WorkersWeight(c, ws[a := ws[a].(phase := phase)], m) <= WorkersWeight(c, ws, m)
    ensures WorkersWeight(c, ws - {a}, m) <= WorkersWeight(c, ws, m)
    ensures !MaySchedule(phase) ==>
              WorkersWeight(c, ws[a := ws[a].(phase := phase)], m) + WorkerWeight(c, ws[a], m) ==
                  WorkersWeight(c, ws, m)
  {
    WithWorker(c, ws, a, ws[a].(phase := phase), m);
    WithoutWorker(c, ws, a, m);
    hide WorkersWeight, Left;
  }

  // ----- The potential -----

  ghost function Potential(c: Config, s: System, m: MessageId): nat
    requires |s.store.ready| == 4 && m in s.claims
  {
    s.claims[m] + StoreWeight(c, s.store, m) + WorkersWeight(c, s.workers, m)
  }

  /** The step does not raise the potential of m. */
  ghost predicate NoHigher(c: Config, s: System, t: System, m: MessageId)
    requires |s.store.ready| == 4 && m in s.claims
  {
    |t.store.ready| == 4 && m in t.claims && Potential(c, t, m) <= Potential(c, s, m)
  }

  lemma Calm(c: Config, s: System, t: System, m: MessageId)
    requires |s.store.ready| == 4 && |t.store.ready| == 4 && m in s.claims && m in t.claims
             && t.claims[m] == s.claims[m]
    requires StoreWeight(c, t.store, m) <= StoreWeight(c, s.store, m)
    requires WorkersWeight(c, t.workers, m) <= WorkersWeight(c, s.workers, m)
    ensures NoHigher(c, s, t, m)
  {
    hide StoreWeight, WorkersWeight;
  }

  lemma ClaimStepWeight(c: Config, s: System, a: ActorId, token: Token, sampled: Time, deadline: Time, m: MessageId)
    requires |s.store.ready| == 4 && m in s.claims && a !in s.workers
    ensures NoHigher(c, s, NextClaim(s, a, token, sampled, deadline), m)
  {
    hide ClaimFrom, StoreWeight, WorkersWeight, Left;
    ClaimWeight(c, s.store, 0, token, sampled, deadline, m);
    match ClaimFrom(s.store, 0, token, sampled, deadline).1
    case None =>
    case Some(e) => NewWorkerWeight(c, s.workers, a, Worker(DeliveryOf(e, token), Claimed), m);
  }

  lemma RetryAttempt(c: Config, e: Envelope, f: ExecutionFailure, now: Time, draw: Draw)
    ensures var r := FailureRecord(c.policy, e, f, now, now, draw);
            r.Some? ==> r.value.messageId == e.messageId && Weight(c, r.value.envelope.attempt) == Left(c, e.attempt)
  {
    RetryBudget.DecideBudget(c.policy, e.attempt + 1, f.retryable, f.retryAfter, 0.0, draw);
    hide Decide;
  }

  lemma ScheduleStepWeight(c: Config, s: System, a: ActorId, now: Time, draw: Draw, m: MessageId)
    requires |s.store.ready| == 4 && m in s.claims && a in s.workers && s.workers[a].phase.Dispatching?
    ensures NoHigher(c, s, NextSchedule(c, s, a, now, draw), m)
  {
    hide FailureRecord, Schedule, StoreWeight, WorkersWeight, Weight, Left;
    var w := s.workers[a];
    RetryAttempt(c, Rebuilt(w.delivery), w.phase.failure, now, draw);
    match FailureRecord(c.policy, Rebuilt(w.delivery), w.phase.failure, now, now, draw)
    case None => MovedWorkerWeight(c, s.workers, a, Finalizing(w.phase.failure), m);
    case Some(r) =>
      MovedWorkerWeight(c, s.workers, a, DispatchAcking, m);
      ScheduleWeight(c, s.store, r, m);
  }

  lemma FinalizeStepWeight(c: Config, s: System, a: ActorId, id: RecordId, m: MessageId)
    requires |s.store.ready| == 4 && m in s.claims && a in s.workers && s.workers[a].phase.Finalizing?
    ensures NoHigher(c, s, NextFinalize(s, a, id), m)
  {
    hide StoreWeight, WorkersWeight, FailureDeadLetter;
    MovedWorkerWeight(c, s.workers, a, DispatchAcking, m);
    ShrinkWeight(c, s.store, NextFinalize(s, a, id).store, m);
  }

  lemma AckWeight(c: Config, s: System, d: Delivery, m: MessageId)
    requires |s.store.ready| == 4
    ensures var t := AfterAck(s, d);
            && t == s.(store := t.store) && |t.store.ready| == 4
            && StoreWeight(c, t.store, m) <= StoreWeight(c, s.store, m)
  {
    hide StoreWeight;
    var t := AfterAck(s, d);
    if AckResult(s, d) == 1 {
      assert t.store == ReleaseLease(s.store, d.messageId);
    } else {
      assert t.store == s.store;
    }
    ShrinkWeight(c, s.store, t.store, m);
  }

  lemma AckSuccessWeight(c: Config, s: System, a: ActorId, answer: Answer, m: MessageId)
    requires |s.store.ready| == 4 && m in s.claims && a in s.workers && s.workers[a].phase.Acking?
    ensures NoHigher(c, s, NextAckSuccess(s, a, answer), m)
  {
    hide StoreWeight, WorkersWeight, AfterAck, AckResult;
    AckWeight(c, s, s.workers[a].delivery, m);
    MovedWorkerWeight(c, s.workers, a, AfterAnswer(answer, NotAcked), m);
    if answer.Unheard? {
    } else if answer.CutShort? {
    } else if AckResult(s, s.workers[a].delivery) == 1 {
    } else {
    }
  }

  lemma RenewWeight(c: Config, s: System, a: ActorId, deadline: Time, m: MessageId)
    requires |s.store.ready| == 4 && m in s.claims && a in s.workers
    ensures NoHigher(c, s, NextRenew(s, a, deadline), m)
  {
    hide StoreWeight, WorkersWeight, Renew;
    var d := s.workers[a].delivery;
    RenewFrame(s.store, d.messageId, d.token, d.taskId, deadline, d.token.worker);
    ShrinkWeight(c, s.store, NextRenew(s, a, deadline).store, m);
  }

  lemma DurableParts(s: System, task: TaskId, state: TaskState)
    ensures var t := WithDurable(s, task, state); t.store == s.store && t.claims == s.claims && t.workers == s.workers
  {
  }

  lemma PhaseStepWeight(c: Config, s: System, u: System, a: ActorId, phase: Phase, m: MessageId)
    requires |s.store.ready| == 4 && m in s.claims && a in s.workers && (MaySchedule(phase) ==>
             MaySchedule(s.workers[a].phase))
    requires u.store == s.store && u.claims == s.claims && u.workers == s.workers
    ensures NoHigher(c, s, WithPhase(u, a, phase), m) && NoHigher(c, s, u.(workers := u.workers - {a}), m)
  {
    MovedWorkerWeight(c, s.workers, a, phase, m);
    hide WorkersWeight, StoreWeight;
  }

  lemma WorkWeight(c: Config, s: System, a: ActorId, x: WorkerStep, m: MessageId)
    requires |s.store.ready| == 4 && m in s.claims && WorkEnabled(c, s, a, x)
    ensures NoHigher(c, s, NextWork(c, s, a, x), m)
  {
    hide NoHigher, NextClaim, NextRenew, NextSchedule, NextFinalize, NextAckSuccess, AfterAck, WithDurable, WithPhase,
        Classify;
    match x
    case ClaimNext(token, sampled) => ClaimStepWeight(c, s, a, token, sampled, sampled + c.visibility, m);
    case RenewLease(sampled) => RenewWeight(c, s, a, sampled + c.visibility, m);
    case RecordClaim(answer) =>
      DurableParts(s, s.workers[a].delivery.taskId, Executing);
      PhaseStepWeight(c, s, WithDurable(s, s.workers[a].delivery.taskId, Executing), a, AfterAnswer(answer, Running),
                      m);
    case FinishHandler => PhaseStepWeight(c, s, s, a, Succeeded, m);
    case RecordSuccess(answer) =>
      DurableParts(s, s.workers[a].delivery.taskId, Completed);
      PhaseStepWeight(c, s, WithDurable(s, s.workers[a].delivery.taskId, Completed), a, AfterAnswer(answer, Acking),
                      m);
    case AckSuccess(answer) => AckSuccessWeight(c, s, a, answer, m);
    case Interrupt => PhaseStepWeight(c, s, s, a, Interrupting, m);
    case RecordInterrupted(answer) => InterruptedWeight(c, s, a, answer, m);
    case Raise(error) => PhaseStepWeight(c, s, s, a, Failing(Classify(error)), m);
    case RecordFailure => FailureWeight(c, s, a, m);
    case ScheduleFailure(now, draw) => ScheduleStepWeight(c, s, a, now, draw, m);
    case FinalizeFailure(id) => FinalizeStepWeight(c, s, a, id, m);
    case AckFailure => AckFailureWeight(c, s, a, m);
    case CrashWorker => PhaseStepWeight(c, s, s, a, DispatchAcking, m);
  }

  lemma InterruptedWeight(c: Config, s: System, a: ActorId, answer: Answer, m: MessageId)
    requires |s.store.ready| == 4 && m in s.claims && a in s.workers && s.workers[a].delivery.taskId in s.durable
    requires MaySchedule(s.workers[a].phase)
    ensures NoHigher(c, s, NextInterrupted(s, a, answer), m)
  {
    hide NoHigher, WithDurable, WithPhase;
    var task := s.workers[a].delivery.taskId;
    DurableParts(s, task, Queued);
    PhaseStepWeight(c, s, if TaskEnded(s, task) then s else WithDurable(s, task, Queued), a,
                    AfterAnswer(answer, NotAcked), m);
  }

  lemma FailureWeight(c: Config, s: System, a: ActorId, m: MessageId)
    requires |s.store.ready| == 4 && m in s.claims && a in s.workers && s.workers[a].phase.Failing?
    ensures NoHigher(c, s, NextFailure(s, a), m)
  {
    hide NoHigher, WithDurable, WithPhase;
    var f := s.workers[a].phase.failure;
    var task := s.workers[a].delivery.taskId;
    var state := if f.retryable then Queued else Failed;
    DurableParts(s, task, state);
    PhaseStepWeight(c, s, WithDurable(s, task, state), a, Dispatching(f), m);
  }

  lemma AckFailureWeight(c: Config, s: System, a: ActorId, m: MessageId)
    requires |s.store.ready| == 4 && m in s.claims && WorkerIn(s, a, DispatchAcking)
    ensures NoHigher(c, s, AfterAck(s, s.workers[a].delivery).(workers := s.workers - {a}), m)
  {
    hide StoreWeight, WorkersWeight, AfterAck;
    AckWeight(c, s, s.workers[a].delivery, m);
    MovedWorkerWeight(c, s.workers, a, DispatchAcking, m);
  }

  lemma RecoverStepWeight(c: Config, s: System, a: ActorId, x: RecovererStep, m: MessageId)
    requires Inv(s) && |s.store.ready| == 4 && m in s.claims && RecoverEnabled(s, a, x)
    ensures NoHigher(c, s, NextRecover(c, s, a, x), m)
  {
    hide StoreWeight, WorkersWeight, RecoverOne, PlanRecovery, NextReader, Inv, ClaimBudget.NextAttempt;
    if x.RunRecovery? {
      var r := s.recoverers[a];
      var k := r.pending[0];
      if Expired(s.store, k, r.now) {
        PassedCheckMeansFreshPlan(s, a, c, x.draw, x.id);
        ClaimBudget.PlanNextAttempt(c, k, r.now, s.store.inflight[k], s.store.leases[k], x.draw, x.id);
      }
      RecoverWeight(c, s.store, k, r.now, r.phase.terminal, PlanOf(c, r, x.draw, x.id), m);
    }
  }

  lemma EnqueueWeight(c: Config, s: System, key: DedupeKey, k: MessageId, task: TaskId, state: TaskState,
                      priority: Priority, m: MessageId)
    requires |s.store.ready| == 4 && m in s.claims && k != m
    ensures NoHigher(c, s, NextEnqueue(s, key, k, task, state, priority), m)
  {
    hide StoreWeight, WorkersWeight;
    if key !in s.store.dedupe {
      var e := Envelope(k, task, state, 0, priority, None);
      PushWeight(c, s.store, e, m);
      var pushed := PushReady(s.store, e);
      ShrinkWeight(c, pushed, pushed.(dedupe := s.store.dedupe[key := k], taskIndex := s.store.taskIndex[task := k]),
          m);
      hide PushReady;
    }
  }

  lemma ReplayWeight(c: Config, s: System, a: ActorId, k: MessageId, m: MessageId)
    requires Inv(s) && |s.store.ready| == 4 && m in s.claims && k != m && a in s.replayers
    ensures NoHigher(c, s, NextReplay(s, a, k), m)
  {
    hide Inv, StoreWeight, WorkersWeight, NextReplay;
    var key := s.replayers[a].messageId;
    OnePlace.ReaderKeyExists(s, a);
    ClaimBudget.ReplayShape(s, a, k);
    ReplayWorkers(s, a, k);
    var rewritten := s.store.(dlq := s.store.dlq[key := s.replayers[a].(replayedAs := Some(k))]);
    ShrinkWeight(c, s.store, rewritten, m);
    PushWeight(c, rewritten, s.store.dlq[key].envelope.(messageId := k, stamp := None), m);
  }

  lemma ReplayWorkers(s: System, a: ActorId, k: MessageId)
    requires |s.store.ready| == 4 && a in s.replayers
    ensures NextReplay(s, a, k).workers == s.workers
  {
    hide Replay;
  }

  lemma OperateWeight(c: Config, s: System, a: ActorId, x: OperatorStep, m: MessageId)
    requires Inv(s) && |s.store.ready| == 4 && m in s.claims && m in s.issued && OperateEnabled(s, a, x)
    ensures NoHigher(c, s, NextOperate(s, a, x), m)
  {
    hide Inv, StoreWeight, WorkersWeight, NextReplay;
    match x
    case RunReplay(k) => ReplayWeight(c, s, a, k, m);
    case RunApproval => ShrinkWeight(c, s.store, NextOperate(s, a, x).store, m);
    case ReadForReplay(_) =>
    case ReadForApproval(_, _) =>
  }

  /** No step of any actor raises the potential of a message that exists. */
  lemma StepWeight(c: Config, s: System, x: Action, m: MessageId)
    requires Inv(s) && |s.store.ready| == 4 && Enabled(c, s, x) && m in s.issued && m in s.claims
    ensures NoHigher(c, s, Next(c, s, x), m)
  {
    hide Inv, NoHigher, StoreWeight, WorkersWeight, NextWork, WorkEnabled, NextRecover, RecoverEnabled, NextOperate,
        OperateEnabled,
         NextEnqueue, PromoteAll, Cancel, IsDuePage, WithDurable;
    match x
    case Work(a, step) => WorkWeight(c, s, a, step, m);
    case Recover(a, step) => RecoverStepWeight(c, s, a, step, m);
    case Operate(a, step) => OperateWeight(c, s, a, step, m);
    case EnqueueTask(key, k, task, state, priority) => EnqueueWeight(c, s, key, k, task, state, priority, m);
    case CancelTask(task) =>
      CancelFrame(s.store, task);
      CancelShrinks(s.store, task);
      ShrinkWeight(c, s.store, Cancel(s.store, task).0, m);
      Calm(c, s, Next(c, s, x), m);
    case PromoteDue(_, _, page) =>
      PromoteWeight(c, s, page, Tally(0, 0, 0), m);
      Calm(c, s, Next(c, s, x), m);
    case ExpireDedupe(key) =>
      ShrinkWeight(c, s.store, s.store.(dedupe := s.store.dedupe - {key}), m);
      Calm(c, s, Next(c, s, x), m);
    case Tick(_) => Calm(c, s, Next(c, s, x), m);
    case SetDurable(task, state) =>
      DurableParts(s, task, state);
      Calm(c, s, Next(c, s, x), m);
  }

  // ----- New messages and runs -----

  /** Before a message is issued nothing anywhere weighs for it. */
  lemma {:induction false} NoWorkersNoWeight(c: Config, ws: map<ActorId, Worker>, m: MessageId)
    requires forall a :: a in ws ==> ws[a].delivery.messageId != m
    ensures WorkersWeight(c, ws, m) == 0
    decreases |ws|
  {
    hide Left;
    if ws != map[] {
      NoWorkersNoWeight(c, ws - {Pick(ws.Keys)}, m);
    }
  }

  lemma {:induction false} NoEntriesNoWeight(c: Config, q: seq<Envelope>, m: MessageId)
    requires forall i :: 0 <= i < |q| ==> q[i].messageId != m
    ensures WeightIn(c, q, m) == 0
  {
    hide Weight;
    if q == [] {
    } else {
      NoEntriesNoWeight(c, q[1..], m);
    }
  }

  lemma UnissuedWeight(c: Config, s: System, m: MessageId)
    requires Inv(s) && m !in s.issued
    ensures |s.store.ready| == 4 && StoreWeight(c, s.store, m) == 0 && WorkersWeight(c, s.workers, m) == 0
  {
    UnissuedEntries(s, m);
    NoWorkersNoWeight(c, s.workers, m);
    FourLists(s);
    hide Inv, Weight, Left;
    NoEntriesNoWeight(c, s.store.ready[0], m);
    NoEntriesNoWeight(c, s.store.ready[1], m);
    NoEntriesNoWeight(c, s.store.ready[2], m);
    NoEntriesNoWeight(c, s.store.ready[3], m);
  }

  lemma UnissuedEntries(s: System, m: MessageId)
    requires Inv(s) && m !in s.issued
    ensures |s.store.ready| == 4 && m !in s.store.inflight && m !in s.store.delayed
    ensures forall p, i :: 0 <= p < 4 && 0 <= i < |s.store.ready[p]| ==> s.store.ready[p][i].messageId != m
    ensures forall a :: a in s.workers ==> s.workers[a].delivery.messageId != m
  {
    assert m in s.store.inflight ==> Known(s.issued, s.store.inflight[m]);
    assert m in s.store.delayed ==> RetryOk(s.issued, m, s.store.delayed[m], s.store.delayedDue[m]);
    forall p, i | 0 <= p < 4 && 0 <= i < |s.store.ready[p]| ensures s.store.ready[p][i].messageId != m {
      assert Known(s.issued, s.store.ready[p][i]);
    }
    forall a | a in s.workers ensures s.workers[a].delivery.messageId != m {
      assert DeliveryOk(s.issued, s.used, s.workers[a].delivery);
    }
  }

  /** The potential of m never exceeds the weight of the attempt number it was issued with. */
  ghost predicate Paid(c: Config, s: System, m: MessageId) {
    && Inv(s) && |s.store.ready| == 4
    && (m in s.issued ==> m in s.claims && Potential(c, s, m) <= Weight(c, s.issued[m].attempt))
  }

  lemma NewMessageWeight(c: Config, s: System, x: Action, m: MessageId)
    requires Inv(s) && |s.store.ready| == 4 && Enabled(c, s, x) && m !in s.issued && m in Next(c, s, x).issued
    ensures var t := Next(c, s, x);
            |t.store.ready| == 4 && m in t.claims && Potential(c, t, m) <= Weight(c, t.issued[m].attempt)
  {
    hide Inv, StoreWeight, WorkersWeight, Weight, NextWork, NextRecover, WorkEnabled, RecoverEnabled, NextEnqueue,
        NextReplay;
    UnissuedWeight(c, s, m);
    OnlyIssuers(c, s, x);
    match x
    case EnqueueTask(key, k, task, state, priority) => EnqueuedWeight(c, s, key, k, task, state, priority, m);
    case Operate(a, step) => ReplayedWeight(c, s, a, step.newMessage, m);
  }

  lemma OnlyIssuers(c: Config, s: System, x: Action)
    requires |s.store.ready| == 4 && Enabled(c, s, x)
    ensures Next(c, s, x).issued == s.issued || x.EnqueueTask? || (x.Operate? && x.operate.RunReplay?)
  {
    OnePlace.OnlyTwoStepsIssue(c, s, x);
    hide *;
  }

  lemma EnqueuedWeight(c: Config, s: System, key: DedupeKey, k: MessageId, task: TaskId, state: TaskState,
                       priority: Priority, m: MessageId)
    requires |s.store.ready| == 4 && StoreWeight(c, s.store, m) == 0 && WorkersWeight(c, s.workers, m) == 0
    requires m !in s.issued && m in NextEnqueue(s, key, k, task, state, priority).issued
    ensures var t := NextEnqueue(s, key, k, task, state, priority);
            |t.store.ready| == 4 && m in t.claims && Potential(c, t, m) <= Weight(c, t.issued[m].attempt)
  {
    hide StoreWeight, WorkersWeight, Weight;
    if key !in s.store.dedupe {
      var e := Envelope(k, task, state, 0, priority, None);
      PushWeight(c, s.store, e, m);
      var pushed := PushReady(s.store, e);
      ShrinkWeight(c, pushed, pushed.(dedupe := s.store.dedupe[key := k], taskIndex := s.store.taskIndex[task := k]),
          m);
      hide PushReady;
    }
  }

  lemma ReplayedWeight(c: Config, s: System, a: ActorId, k: MessageId, m: MessageId)
    requires Inv(s) && |s.store.ready| == 4 && StoreWeight(c, s.store, m) == 0 && WorkersWeight(c, s.workers, m) == 0
    requires a in s.replayers && m !in s.issued && m in NextReplay(s, a, k).issued
    ensures var t := NextReplay(s, a, k);
            |t.store.ready| == 4 && m in t.claims && Potential(c, t, m) <= Weight(c, t.issued[m].attempt)
  {
    hide Inv, StoreWeight, WorkersWeight, Weight, NextReplay;
    var key := s.replayers[a].messageId;
    OnePlace.ReaderKeyExists(s, a);
    ClaimBudget.ReplayShape(s, a, k);
    ReplayWorkers(s, a, k);
    var rewritten := s.store.(dlq := s.store.dlq[key := s.replayers[a].(replayedAs := Some(k))]);
    ShrinkWeight(c, s.store, rewritten, m);
    PushWeight(c, rewritten, s.store.dlq[key].envelope.(messageId := k, stamp := None), m);
  }

  lemma StepPaid(c: Config, s: System, x: Action, m: MessageId)
    requires Paid(c, s, m) && Enabled(c, s, x)
    ensures Paid(c, Next(c, s, x), m)
  {
    StepKeepsInv(c, s, x);
    FourLists(Next(c, s, x));
    ClaimBudget.IssuesAreKept(c, s, x);
    hide Inv, Next, Enabled, StoreWeight, WorkersWeight, Weight;
    if m in s.issued {
      StepWeight(c, s, x, m);
    } else if m in Next(c, s, x).issued {
      NewMessageWeight(c, s, x, m);
    }
  }

  lemma {:induction false} RunPaid(c: Config, s: System, xs: seq<Action>, m: MessageId)
    requires Paid(c, s, m) && Run(c, s, xs)
    ensures Paid(c, After(c, s, xs), m)
    decreases xs
  {
    hide Inv, Next, Enabled, Potential, Weight;
    if xs == [] {
    } else {
      StepPaid(c, s, xs[0], m);
      RunPaid(c, Next(c, s, xs[0]), xs[1..], m);
    }
  }

  lemma InitialPaid(c: Config, m: MessageId)
    ensures Paid(c, INITIAL, m)
  {
    InitialInv();
    hide Inv;
  }

  /** Whatever interleaves, crashes and is copied: a message issued with attempt number a is claimed at most
      max(1, 2^(maximum_attempts - a) - 1) times. */
  lemma ClaimsAlwaysBounded(c: Config, xs: seq<Action>, m: MessageId)
    requires Run(c, INITIAL, xs) && m in After(c, INITIAL, xs).issued
    ensures var t := After(c, INITIAL, xs); m in t.claims && t.claims[m] <= FullCap(c, t.issued[m].attempt)
  {
    InitialPaid(c, m);
    RunPaid(c, INITIAL, xs, m);
    WeightIsCap(c, After(c, INITIAL, xs).issued[m].attempt);
    hide Run, After, Inv, Weight, StoreWeight, WorkersWeight;
  }
}
