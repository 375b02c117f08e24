/** Where the queue's guarantees stop, and exactly when: claims behind dead heads, claims that land after
    their own deadline, and durable states that a failure record reopens. */
module ProtocolLimits {
  import opened Options
  import opened QueueTypes
  import opened QueueScripts
  import opened DeliveryProtocol
  import opened WorkerSteps
  import opened RetryPolicies

  // ----- Priority -----

  predicate LiveHead(st: Store, p: nat)
    requires |st.ready| == 4 && p < 4
  {
    st.ready[p] != [] && !Dead(st, st.ready[p][0])
  }

  function Tail<T>(xs: seq<T>): seq<T> { if xs == [] then [] else xs[1..] }

  /** The claim stops at list k of q, the first list from p on with a live head. */
  predicate FirstLive(st: Store, p: nat, k: nat)
    requires |st.ready| == 4
  {
    p <= k < 4 && LiveHead(st, k) && forall j :: p <= j < k ==> !LiveHead(st, j)
  }

  /** Lists p up to and including last lost their head; all others are unchanged. */
  predicate PoppedThrough(st: Store, u: Store, p: nat, last: int)
    requires |st.ready| == 4
  {
    && |u.ready| == 4
    && forall j :: 0 <= j < 4 ==> u.ready[j] == if p <= j <= last then Tail(st.ready[j]) else st.ready[j]
  }

  lemma DropPops(st: Store, p: Priority)
    requires |st.ready| == 4 && st.ready[p] != []
    ensures var u := DropHead(st, p);
            && |u.ready| == 4 && u.cancelled == st.cancelled && u.ready[p] == st.ready[p][1..]
            && forall j: nat :: j < 4 && j != p ==> u.ready[j] == st.ready[j] && (LiveHead(u, j) <==> LiveHead(st, j))
  {
  }

  lemma LeasePops(st: Store, p: Priority, token: Token, claimedAt: Time, deadline: Time)
    requires |st.ready| == 4 && st.ready[p] != []
    ensures var u := LeaseHead(st, p, token, claimedAt, deadline);
            && |u.ready| == 4 && u.cancelled == st.cancelled && u.ready[p] == st.ready[p][1..]
            && forall j: nat :: j < 4 && j != p ==> u.ready[j] == st.ready[j] && (LiveHead(u, j) <==> LiveHead(st, j))
  {
  }

  /** A claim returns the head of the first list whose head may run, and nothing exactly when no list has
      one; on the way every earlier list loses its dead head, and only its head. */
  lemma {:induction false} ClaimTakesFirstLiveHead(st: Store, p: nat, token: Token, claimedAt: Time, deadline: Time)
    requires |st.ready| == 4 && p <= 4
    ensures var (u, claimed) := ClaimFrom(st, p, token, claimedAt, deadline);
            && u.cancelled == st.cancelled
            && (claimed.None? <==> forall j :: p <= j < 4 ==> !LiveHead(st, j))
            && (claimed.None? ==> PoppedThrough(st, u, p, 3))
            && (forall k: nat :: FirstLive(st, p, k) ==>
                  claimed == Some(Stamped(st.ready[k][0], token, claimedAt, deadline)) && PoppedThrough(st, u, p, k))
    decreases 4 - p
  {
    hide ClaimFrom, DropHead, LeaseHead;
    ClaimIteration(st, p, token, claimedAt, deadline);
    if p < 4 {
      if st.ready[p] == [] {
        assert !LiveHead(st, p);
        ClaimTakesFirstLiveHead(st, p + 1, token, claimedAt, deadline);
        forall k: nat | FirstLive(st, p, k) ensures FirstLive(st, p + 1, k) {
          assert k != p;
        }
      } else if Dead(st, st.ready[p][0]) {
        DropPops(st, p);
        var d := DropHead(st, p);
        ClaimTakesFirstLiveHead(d, p + 1, token, claimedAt, deadline);
        assert !LiveHead(st, p);
        forall k: nat | FirstLive(st, p, k) ensures FirstLive(d, p + 1, k) {
          assert k != p;
        }
      } else {
        LeasePops(st, p, token, claimedAt, deadline);
        assert LiveHead(st, p);
      }
    }
  }

  /** Element i of list j could run. */
  predicate Waits(st: Store, j: nat, i: nat)
    requires |st.ready| == 4
  {
    j < 4 && i < |st.ready[j]| && !Dead(st, st.ready[j][i])
  }

  /** A message that could run waits in a more urgent list than the one claimed from, or nothing was claimed. */
  ghost predicate Overtaken(st: Store, claimed: Option<Envelope>)
    requires |st.ready| == 4
  {
    exists j: nat, i: nat :: Waits(st, j, i) && (claimed.None? || j < claimed.value.priority)
  }

  /** Some list that comes before every live head hides a message that could run. */
  ghost predicate HiddenBehindDead(st: Store)
    requires |st.ready| == 4
  {
    exists j: nat, i: nat :: Waits(st, j, i) && forall k: nat :: k <= j ==> !LiveHead(st, k)
  }

  lemma {:induction false} LeastLive(st: Store, p: nat, k: nat) returns (f: nat)
    requires |st.ready| == 4 && p <= k < 4 && LiveHead(st, k)
    ensures FirstLive(st, p, f)
    decreases 4 - p
  {
    if LiveHead(st, p) {
      f := p;
    } else {
      f := LeastLive(st, p + 1, k);
    }
  }

  /** A claim respects priority exactly when no list before the first live head holds a message that could run
      behind its dead head.  A dead head with nothing live behind it does no harm. */
  lemma ClaimOvertakesIff(st: Store, token: Token, claimedAt: Time, deadline: Time)
    requires |st.ready| == 4 && forall p, i :: 0 <= p < 4 && 0 <= i < |st.ready[p]| ==> st.ready[p][i].priority == p
    ensures Overtaken(st, Claim(st, token, claimedAt, deadline).1) <==> HiddenBehindDead(st)
  {
    hide ClaimFrom, Dead;
    var claimed := Claim(st, token, claimedAt, deadline).1;
    ClaimTakesFirstLiveHead(st, 0, token, claimedAt, deadline);
    if claimed.Some? {
      var k: nat :| k < 4 && LiveHead(st, k);
      var f := LeastLive(st, 0, k);
      assert claimed.value.priority == f;
      FirstLiveSplits(st, f);
    } else {
      NoneLive(st);
    }
  }

  lemma FirstLiveSplits(st: Store, f: nat)
    requires |st.ready| == 4 && FirstLive(st, 0, f)
    ensures (exists j: nat, i: nat :: Waits(st, j, i) && j < f) <==> HiddenBehindDead(st)
  {
    hide Dead;
    if j: nat, i: nat :| Waits(st, j, i) && j < f {
      assert Waits(st, j, i) && forall k: nat :: k <= j ==> !LiveHead(st, k);
    }
    if j: nat, i: nat :| Waits(st, j, i) && forall k: nat :: k <= j ==> !LiveHead(st, k) {
      assert Waits(st, j, i) && j < f;
    }
  }

  lemma NoneLive(st: Store)
    requires |st.ready| == 4 && forall k :: 0 <= k < 4 ==> !LiveHead(st, k)
    ensures (exists j: nat, i: nat :: Waits(st, j, i)) <==> HiddenBehindDead(st)
  {
    hide Dead, LiveHead;
    if j: nat, i: nat :| Waits(st, j, i) {
      assert Waits(st, j, i) && forall k: nat :: k <= j ==> !LiveHead(st, k);
    }
  }

  /** How many claims in a row, at most n, come back empty before one succeeds. */
  ghost function EmptyClaims(st: Store, token: Token, claimedAt: Time, deadline: Time, n: nat): nat
    requires |st.ready| == 4
    decreases n
  {
    ClaimTakesFirstLiveHead(st, 0, token, claimedAt, deadline);
    var (u, claimed) := Claim(st, token, claimedAt, deadline);
    if n == 0 || claimed.Some? then 0 else 1 + EmptyClaims(u, token, claimedAt, deadline, n - 1)
  }

  /** A live message i places down any list delays the first successful claim by at most i empty ones. */
  lemma {:induction false} EmptyClaimsBounded(st: Store, token: Token, claimedAt: Time, deadline: Time, p: nat, i: nat,
                                              n: nat)
    requires |st.ready| == 4 && p < 4 && i < |st.ready[p]| && !Dead(st, st.ready[p][i])
    ensures EmptyClaims(st, token, claimedAt, deadline, n) <= i
    decreases n
  {
    hide ClaimFrom, Dead;
    ClaimTakesFirstLiveHead(st, 0, token, claimedAt, deadline);
    var (u, claimed) := Claim(st, token, claimedAt, deadline);
    if n != 0 && claimed.None? {
      assert !LiveHead(st, p);
      SameDead(st, u, st.ready[p][i]);
      EmptyClaimsBounded(u, token, claimedAt, deadline, p, i - 1, n - 1);
    }
  }

  lemma SameDead(st: Store, u: Store, e: Envelope)
    requires u.cancelled == st.cancelled
    ensures Dead(u, e) <==> Dead(st, e)
  {
  }

  /** Strict priority fails behind a dead head: a critical message waits while a low one is claimed. */
  lemma LowBeforeCritical()
    ensures exists st: Store, token: Token, critical: Envelope, low: Envelope ::
              && |st.ready| == 4 && critical in st.ready[0] && low in st.ready[3] && !Dead(st, critical)
              && Claim(st, token, 0.0, 1.0).1 == Some(Stamped(low, token, 0.0, 1.0))
  {
    var token := Token(0, 0);
    var gone := Envelope(1, 1, Queued, 0, 0, None);
    var critical := Envelope(2, 2, Queued, 0, 0, None);
    var low := Envelope(3, 3, Queued, 0, 3, None);
    var st := EMPTY.(ready := [[gone, critical], [], [], [low]], cancelled := {1});
    assert FirstLive(st, 0, 3);
    ClaimTakesFirstLiveHead(st, 0, token, 0.0, 1.0);
    hide ClaimFrom;
    assert critical in st.ready[0] && low in st.ready[3];
  }

  // ----- Claims after their own deadline -----

  /** A recoverer found m in the expiry index, read no envelope or no lease, and then a claim of m landed.
      The script files a malformed retry exactly when that claim's deadline had passed before the
      recoverer sampled its clock. */
  lemma LateClaimPoisonsIff(policy: RetryPolicy, maximum: int, st: Store, m: MessageId, now: Time,
                            envelope: Option<Envelope>, lease: Option<Lease>, draw: Draw, id: RecordId)
    requires m in st.inflight && m in st.leases && m in st.leaseExpiry && st.leases[m].deadline == st.leaseExpiry[m]
    requires !Dead(st, st.inflight[m]) && m !in st.delayed
    requires envelope.None? || lease.None?
    ensures var u := RecoverOne(st, m, now, false, PlanRecovery(policy, maximum, m, now, envelope, lease, draw, id)).0;
            m in u.delayed && u.delayed[m].Malformed? <==> st.leaseExpiry[m] <= now
  {
    if st.leaseExpiry[m] > now {
    } else {
    }
  }

  /** A promotion raises exactly when its page holds a malformed entry; the entry stays, so every later
      page that holds it raises too. */
  lemma {:induction false} PromotionRaisesIff(st: Store, ids: seq<MessageId>, tally: Tally)
    requires |st.ready| == 4
    ensures var (u, outcome) := PromoteAll(st, ids, tally);
            && (outcome.None? <==> exists m :: m in ids && m in st.delayed && st.delayed[m].Malformed?)
            && (forall m :: m in st.delayed && st.delayed[m].Malformed? ==> m in u.delayed && u.delayed[m].Malformed?)
    decreases ids
  {
    if ids == [] {
    } else {
      PromoteOneEntry(st, ids[0], tally);
      hide PromoteOne;
      assert forall m :: m in ids <==> m == ids[0] || m in ids[1..];
      if PromoteOne(st, ids[0], tally).Some? {
        var next := PromoteOne(st, ids[0], tally).value;
        PromotionRaisesIff(next.0, ids[1..], next.1);
      }
    }
  }

  lemma PromoteOneEntry(st: Store, k: MessageId, tally: Tally)
    requires |st.ready| == 4
    ensures PromoteOne(st, k, tally).None? <==> k in st.delayed && st.delayed[k].Malformed?
    ensures PromoteOne(st, k, tally).Some? ==>
              var u := PromoteOne(st, k, tally).value.0;
              |u.ready| == 4 && u.delayed == st.delayed - {k}
  {
    hide Unschedule, PushReady;
    if k !in st.delayed {
      assert st.delayed == st.delayed - {k};
    } else if st.delayed[k].Scheduled? {
      UnscheduledDelayed(st, k);
      PushKeepsDelayed(Unschedule(st, k), st.delayed[k].record.envelope);
    }
  }

  lemma UnscheduledDelayed(st: Store, k: MessageId)
    ensures Unschedule(st, k).ready == st.ready && Unschedule(st, k).delayed == st.delayed - {k}
  {
  }

  lemma PushKeepsDelayed(st: Store, e: Envelope)
    requires |st.ready| == 4
    ensures |PushReady(st, e).ready| == 4 && PushReady(st, e).delayed == st.delayed
  {
  }

  // ----- Durable states -----

  /** A failure of t that its worker is about to record as retryable. */
  predicate RecordsRetryable(s: System, x: Action, t: TaskId) {
    && x.Work? && x.work.RecordFailure? && x.actor in s.workers
    && s.workers[x.actor].delivery.taskId == t
    && s.workers[x.actor].phase.Failing? && s.workers[x.actor].phase.failure.retryable
  }

  predicate Reopens(s: System, x: Action, t: TaskId) {
    RecordsRetryable(s, x, t) || (x.SetDurable? && x.task == t && !x.state.Terminal())
  }

  /** A terminal durable task leaves its terminal states exactly through a retryable failure record or a
      transaction of another component. */
  lemma TerminalLeftIff(c: Config, s: System, x: Action, t: TaskId)
    requires |s.store.ready| == 4 && Enabled(c, s, x) && TaskEnded(s, t)
    ensures !TaskEnded(Next(c, s, x), t) <==> Reopens(s, x, t)
  {
    hide NextWork, NextRecover, NextOperate, NextEnqueue, WorkEnabled, RecoverEnabled, OperateEnabled, Cancel,
        PromoteAll, IsDuePage;
    match x
    case Work(a, step) => WorkTerminal(c, s, a, step, t);
    case Recover(a, step) => RecoverDurable(c, s, a, step);
    case Operate(a, step) => OperateDurable(s, a, step);
    case Tick(_) =>
    case SetDurable(_, _) =>
    case ExpireDedupe(_) =>
    case EnqueueTask(key, m, task, state, priority) => EnqueueDurable(s, key, m, task, state, priority);
    case CancelTask(_) =>
    case PromoteDue(_, _, _) =>
  }

  lemma RecoverDurable(c: Config, s: System, a: ActorId, x: RecovererStep)
    requires RecoverEnabled(s, a, x)
    ensures NextRecover(c, s, a, x).durable == s.durable
  {
    hide RecoverOne, PlanRecovery, NextReader;
  }

  lemma OperateDurable(s: System, a: ActorId, x: OperatorStep)
    requires |s.store.ready| == 4 && OperateEnabled(s, a, x)
    ensures NextOperate(s, a, x).durable == s.durable
  {
    hide NextReplay, WriteApproval;
    match x
    case RunReplay(m) => ReplayDurable(s, a, m);
    case RunApproval =>
    case ReadForReplay(_) =>
    case ReadForApproval(_, _) =>
  }

  lemma ReplayDurable(s: System, a: ActorId, m: MessageId)
    requires |s.store.ready| == 4 && a in s.replayers
    ensures NextReplay(s, a, m).durable == s.durable
  {
    hide Replay;
    var read := s.replayers[a];
    if Replay(s.store, read.messageId, m, read.(replayedAs := Some(m))).1.Replayed? {
    } else {
    }
  }

  lemma EnqueueDurable(s: System, key: DedupeKey, m: MessageId, task: TaskId, state: TaskState, priority: Priority)
    requires |s.store.ready| == 4
    ensures NextEnqueue(s, key, m, task, state, priority).durable == s.durable
  {
    hide Enqueue;
  }

  lemma ClaimDurable(s: System, a: ActorId, token: Token, sampled: Time, deadline: Time)
    requires |s.store.ready| == 4
    ensures NextClaim(s, a, token, sampled, deadline).durable == s.durable
  {
    hide Claim, ClaimFrom;
    match Claim(s.store, token, sampled, deadline).1
    case None =>
    case Some(_) =>
  }

  lemma FinalizeDurable(s: System, a: ActorId, id: RecordId)
    requires a in s.workers && s.workers[a].phase.Finalizing?
    ensures NextFinalize(s, a, id).durable == s.durable
  {
    hide Finalize, FailureDeadLetter;
  }

  lemma AckDurable(s: System, a: ActorId, answer: Answer)
    requires a in s.workers
    ensures NextAckSuccess(s, a, answer).durable == s.durable && AfterAck(s, s.workers[a].delivery).durable == s.durable
  {
    hide Acknowledge, AckResult;
    if answer.Unheard? {
    } else if answer.CutShort? {
    } else if AckResult(s, s.workers[a].delivery) == 1 {
    } else {
    }
  }

  lemma InterruptedTerminal(s: System, a: ActorId, answer: Answer, t: TaskId)
    requires a in s.workers && s.workers[a].delivery.taskId in s.durable && TaskEnded(s, t)
    ensures TaskEnded(NextInterrupted(s, a, answer), t)
  {
    hide AfterAnswer;
  }

  lemma WorkTerminal(c: Config, s: System, a: ActorId, x: WorkerStep, t: TaskId)
    requires |s.store.ready| == 4 && WorkEnabled(c, s, a, x) && TaskEnded(s, t)
    ensures !TaskEnded(NextWork(c, s, a, x), t) <==> RecordsRetryable(s, Work(a, x), t)
  {
    hide NextClaim, NextSchedule, NextFinalize, NextAckSuccess, NextInterrupted, NextRenew, AfterAck, Classify;
    match x
    case ClaimNext(token, sampled) => ClaimDurable(s, a, token, sampled, sampled + c.visibility);
    case RenewLease(sampled) => RenewDurable(s, a, sampled + c.visibility);
    case RecordClaim(_) =>
    case FinishHandler =>
    case RecordSuccess(_) =>
    case AckSuccess(answer) => AckDurable(s, a, answer);
    case Interrupt =>
    case RecordInterrupted(answer) => InterruptedTerminal(s, a, answer, t);
    case Raise(_) =>
    case RecordFailure =>
    case ScheduleFailure(now, draw) => ScheduleStore(c, s, a, now, draw);
    case FinalizeFailure(id) => FinalizeDurable(s, a, id);
    case AckFailure => AckDurable(s, a, Heard);
    case CrashWorker =>
  }

  lemma RenewDurable(s: System, a: ActorId, deadline: Time)
    requires a in s.workers
    ensures NextRenew(s, a, deadline).durable == s.durable
  {
    hide Renew;
  }

  ghost predicate NeverReopens(c: Config, s: System, xs: seq<Action>, t: TaskId)
    requires |s.store.ready| == 4 && Run(c, s, xs)
    decreases xs
  {
    xs != [] ==> !Reopens(s, xs[0], t) && NeverReopens(c, Next(c, s, xs[0]), xs[1..], t)
  }

  /** Along every run without such a step a finished task stays finished, and no worker can start its handler. */
  lemma {:induction false} FinishedStaysFinished(c: Config, s: System, xs: seq<Action>, t: TaskId, a: ActorId,
                                                 answer: Answer)
    requires |s.store.ready| == 4 && Run(c, s, xs) && TaskEnded(s, t) && NeverReopens(c, s, xs, t)
    ensures TaskEnded(After(c, s, xs), t)
    ensures a in After(c, s, xs).workers && After(c, s, xs).workers[a].delivery.taskId == t ==>
              !WorkEnabled(c, After(c, s, xs), a, RecordClaim(answer))
    decreases xs
  {
    hide Next, Enabled, Reopens;
    if xs == [] {
    } else {
      TerminalLeftIff(c, s, xs[0], t);
      FinishedStaysFinished(c, Next(c, s, xs[0]), xs[1..], t, a, answer);
    }
  }

  /** A completed task goes back to the queue when the answer of its acknowledgement is lost. */
  lemma LostAnswerReopens(c: Config, s: System, a: ActorId, lost: bool)
    requires |s.store.ready| == 4 && WorkerIn(s, a, Acking)
    requires s.workers[a].delivery.taskId in s.durable && s.durable[s.workers[a].delivery.taskId].Completed?
    ensures var xs := [Work(a, AckSuccess(Unheard(lost))), Work(a, RecordFailure)];
            && Run(c, s, xs)
            && var t := After(c, s, xs); var task := s.workers[a].delivery.taskId;
               task in t.durable && t.durable[task] == Queued
  {
    var x, y := Work(a, AckSuccess(Unheard(lost))), Work(a, RecordFailure);
    LostAnswer(c, s, a, lost);
    var s1 := Next(c, s, x);
    FailureRequeues(c, s1, a);
    var s2 := Next(c, s1, y);
    hide Next, Enabled;
    assert [x, y][1..] == [y] && [y][1..] == [];
    assert Run(c, s2, []) && After(c, s2, []) == s2;
    assert Run(c, s1, [y]) && After(c, s1, [y]) == s2;
    assert After(c, s, [x, y]) == s2;
  }

  lemma LostAnswer(c: Config, s: System, a: ActorId, lost: bool)
    requires |s.store.ready| == 4 && WorkerIn(s, a, Acking)
    ensures Enabled(c, s, Work(a, AckSuccess(Unheard(lost))))
    ensures var t := Next(c, s, Work(a, AckSuccess(Unheard(lost))));
            && t.store.ready == s.store.ready && t.durable == s.durable
            && WorkerIn(t, a, Failing(Classify(Seen(lost, OtherError))))
            && t.workers[a].delivery == s.workers[a].delivery
  {
    AckKeepsReady(s, s.workers[a].delivery);
    hide Acknowledge, Classify;
  }

  lemma AckKeepsReady(s: System, d: Delivery)
    ensures Acknowledge(s.store, d.messageId, d.token, d.token.worker).0.ready == s.store.ready
  {
    if AckResult(s, d) == 1 {
    } else {
    }
  }

  lemma FailureRequeues(c: Config, s: System, a: ActorId)
    requires |s.store.ready| == 4 && a in s.workers && s.workers[a].phase.Failing?
             && s.workers[a].phase.failure.retryable && s.workers[a].delivery.taskId in s.durable
    ensures Enabled(c, s, Work(a, RecordFailure))
    ensures var t := Next(c, s, Work(a, RecordFailure));
            t.store == s.store && s.workers[a].delivery.taskId in t.durable
                && t.durable[s.workers[a].delivery.taskId] == Queued
  {
  }
}
