/** Runs of the protocol from the empty queue that reach the limits of its guarantees: a message in two places,
    a dead letter replayed twice, a completed task whose handler starts again. */
module ProtocolRuns {
  import opened Options
  import opened QueueTypes
  import opened QueueScripts
  import opened DeliveryProtocol
  import opened RetryPolicies
  import opened DeadLetterReplay
  import opened OnePlace

  // ----- Runs, step by step -----

  ghost predicate Step(c: Config, s: System, x: Action, t: System) {
    |s.store.ready| == 4 && Enabled(c, s, x) && t == Next(c, s, x) && |t.store.ready| == 4
  }

  /** The run leads from s to t and replays dead letter 0 n times. */
  ghost predicate Path(c: Config, s: System, xs: seq<Action>, t: System, n: nat) {
    |s.store.ready| == 4 && Run(c, s, xs) && After(c, s, xs) == t && |t.store.ready| == 4
        && ReplayCount(c, s, xs, 0) == n
  }

  function Counted(t: System, x: Action): nat
    requires |t.store.ready| == 4
  {
    if Replays(t, x, 0) then 1 else 0
  }

  lemma NoSteps(c: Config, s: System)
    requires |s.store.ready| == 4
    ensures Path(c, s, [], s, 0)
  {
    hide Next, Enabled, Replays;
  }

  lemma {:induction false} OneMore(c: Config, s: System, xs: seq<Action>, t: System, n: nat, x: Action, u: System)
    requires Path(c, s, xs, t, n) && Step(c, t, x, u)
    ensures Path(c, s, xs + [x], u, n + Counted(t, x))
    decreases xs
  {
    hide Next, Enabled, Replays;
    if xs == [] {
      assert [] + [x] == [x] && [x][1..] == [];
      NoSteps(c, u);
    } else {
      var v := Next(c, s, xs[0]);
      assert Path(c, v, xs[1..], t, n - Counted(s, xs[0]));
      OneMore(c, v, xs[1..], t, n - Counted(s, xs[0]), x, u);
      assert (xs + [x])[1..] == xs[1..] + [x];
    }
  }

  /** A step that replays nothing. */
  lemma Extend(c: Config, xs: seq<Action>, t: System, n: nat, x: Action, u: System)
    requires Path(c, INITIAL, xs, t, n) && Step(c, t, x, u) && !x.Operate?
    ensures Path(c, INITIAL, xs + [x], u, n)
  {
    OneMore(c, INITIAL, xs, t, n, x, u);
    hide Path, Step;
  }

  // ----- One message, claimed -----

  const TASK: TaskId := 0
  const MESSAGE: MessageId := 0
  const NORMAL: Priority := 2
  const FIRST: Token := Token(0, 0)
  const SECOND: Token := Token(1, 1)

  function Letter(m: MessageId, attempt: nat): Envelope { Envelope(m, TASK, Queued, attempt, NORMAL, None) }

  function Delivered(token: Token, attempt: nat): Delivery { Delivery(MESSAGE, TASK, Queued, token, attempt, NORMAL) }

  function Lists(queued: seq<Envelope>): seq<seq<Envelope>> { [[], [], queued, []] }

  /** The queue with these entries, and the message's dedupe and task index entries. */
  function Tables(queued: seq<Envelope>, lease: Option<(Envelope, Token, Time)>, delayed: Option<RetryRecord>,
                  dead: Option<DeadLetter>): Store {
    EMPTY.(ready := Lists(queued),
           inflight := if lease.Some? then map[MESSAGE := Stamped(lease.value.0, lease.value.1, 0.0, lease.value.2)]
               else map[],
           leases := if lease.Some? then map[MESSAGE := LeaseOf(lease.value.0, lease.value.1, 0.0, lease.value.2)]
               else map[],
           leaseExpiry := if lease.Some? then map[MESSAGE := lease.value.2] else map[],
           delayed := if delayed.Some? then map[MESSAGE := Scheduled(delayed.value)] else map[],
           delayedDue := if delayed.Some? then map[MESSAGE := delayed.value.dueAt] else map[],
           dlq := if dead.Some? then map[MESSAGE := dead.value] else map[],
           dlqTaskIndex := if dead.Some? then map[TASK := MESSAGE] else map[],
           dlqRecordIndex := if dead.Some? then map[0 := MESSAGE] else map[],
           taskIndex := map[TASK := MESSAGE], dedupe := map[0 := MESSAGE])
  }

  function Leased(c: Config, attempt: nat, token: Token): Option<(Envelope, Token, Time)> {
    Some((Letter(MESSAGE, attempt), token, 0.0 + c.visibility))
  }

  const ONCE: map<MessageId, Issue> := map[MESSAGE := Issue(TASK, Queued, 0, false)]

  /** A system with one worker at most and nobody else. */
  function Scene(store: Store, state: TaskState, workers: map<ActorId, Worker>, used: map<Token, MessageId>,
                 ended: set<TaskId>, claims: nat): System {
    System(store, map[TASK := state], 0.0, workers, map[], map[], map[], ONCE, used, ended, map[MESSAGE := claims])
  }

  function Held(c: Config, state: TaskState, phase: Phase, ended: set<TaskId>): System {
    Scene(Tables([], Leased(c, 0, FIRST), None, None), state, map[0 := Worker(Delivered(FIRST, 0), phase)],
          map[FIRST := MESSAGE], ended, 1)
  }

  lemma FourLists(queued: seq<Envelope>, lease: Option<(Envelope, Token, Time)>, delayed: Option<RetryRecord>,
                  dead: Option<DeadLetter>)
    ensures |Tables(queued, lease, delayed, dead).ready| == 4
  {
  }

  lemma PushesInto(queued: seq<Envelope>, e: Envelope)
    requires e.priority == NORMAL
    ensures Lists(queued)[e.priority := Lists(queued)[e.priority] + [e]] == Lists(queued + [e])
  {
    var updated := Lists(queued)[e.priority := Lists(queued)[e.priority] + [e]];
    forall p | 0 <= p < 4 ensures updated[p] == Lists(queued + [e])[p] {
    }
  }

  lemma PopsFrom(e: Envelope)
    ensures Lists([e])[NORMAL := Lists([e])[NORMAL][1..]] == Lists([])
  {
    var updated := Lists([e])[NORMAL := Lists([e])[NORMAL][1..]];
    forall p | 0 <= p < 4 ensures updated[p] == Lists([])[p] {
    }
  }

  lemma EnqueueScript(e: Envelope)
    requires e == Letter(MESSAGE, 0)
    ensures Enqueue(EMPTY, 0, e) == (Tables([e], None, None, None), true, MESSAGE)
  {
    PushesInto([], e);
    assert EMPTY.ready == Lists([]) && [] + [e] == [e];
    var u := Enqueue(EMPTY, 0, e).0;
    assert u.ready == Lists([e]);
    assert u.dedupe == map[0 := MESSAGE] && u.taskIndex == map[TASK := MESSAGE];
  }

  lemma FirstSteps(c: Config)
    requires c.Valid()
    ensures Step(c, INITIAL, SetDurable(TASK, Queued), INITIAL.(durable := map[TASK := Queued]))
    ensures Step(c, INITIAL.(durable := map[TASK := Queued]), EnqueueTask(0, MESSAGE, TASK, Queued, NORMAL),
                 Scene(Tables([Letter(MESSAGE, 0)], None, None, None), Queued, map[], map[], {}, 0))
  {
    EnqueueScript(Letter(MESSAGE, 0));
    hide Enqueue;
  }

  lemma LeaseScript(e: Envelope, token: Token, deadline: Time)
    requires e == Letter(MESSAGE, e.attempt)
    ensures LeaseHead(Tables([e], None, None, None), NORMAL, token, 0.0, deadline)
            == Tables([], Some((e, token, deadline)), None, None)
  {
    PopsFrom(e);
    var u := LeaseHead(Tables([e], None, None, None), NORMAL, token, 0.0, deadline);
    assert u.ready == Lists([]);
    assert u.inflight == map[MESSAGE := Stamped(e, token, 0.0, deadline)];
    assert u.leases == map[MESSAGE := LeaseOf(e, token, 0.0, deadline)];
    assert u.leaseExpiry == map[MESSAGE := deadline];
  }

  lemma ClaimScript(e: Envelope, token: Token, deadline: Time)
    requires e == Letter(MESSAGE, e.attempt)
    ensures Claim(Tables([e], None, None, None), token, 0.0, deadline)
            == (Tables([], Some((e, token, deadline)), None, None), Some(Stamped(e, token, 0.0, deadline)))
  {
    var st := Tables([e], None, None, None);
    LeaseScript(e, token, deadline);
    assert !Dead(st, e) && st.ready[0] == [] && st.ready[1] == [] && st.ready[2] == [e];
    hide ClaimFrom, Tables, LeaseHead, Dead;
    ClaimIteration(st, 0, token, 0.0, deadline);
    ClaimIteration(st, 1, token, 0.0, deadline);
    ClaimIteration(st, 2, token, 0.0, deadline);
  }

  /** Claiming the only message, by actor a. */
  lemma ClaimOnly(c: Config, a: ActorId, attempt: nat, state: TaskState, used: map<Token, MessageId>,
                  ended: set<TaskId>, claims: nat, token: Token)
    requires c.Valid() && token !in used
    ensures Step(c, Scene(Tables([Letter(MESSAGE, attempt)], None, None, None), state, map[], used, ended, claims),
                 Work(a, ClaimNext(token, 0.0)),
                 Scene(Tables([], Leased(c, attempt, token), None, None), state,
                     map[a := Worker(Delivered(token, attempt), Claimed)],
                       used[token := MESSAGE], ended, claims + 1))
  {
    hide Claim, Tables, NextRenew, NextAckSuccess, NextSchedule, NextFinalize, NextInterrupted, NextFailure, AfterAck;
    ClaimScript(Letter(MESSAGE, attempt), token, 0.0 + c.visibility);
    FourLists([Letter(MESSAGE, attempt)], None, None, None);
    FourLists([], Leased(c, attempt, token), None, None);
  }

  function Opening(): seq<Action> {
    [SetDurable(TASK, Queued), EnqueueTask(0, MESSAGE, TASK, Queued, NORMAL), Work(0, ClaimNext(FIRST, 0.0))]
  }

  lemma Opened(c: Config)
    requires c.Valid()
    ensures Path(c, INITIAL, Opening(), Held(c, Queued, Claimed, {}), 0)
  {
    NoSteps(c, INITIAL);
    FirstSteps(c);
    ClaimOnly(c, 0, 0, Queued, map[], {}, 0, FIRST);
    var s1 := INITIAL.(durable := map[TASK := Queued]);
    var s2 := Scene(Tables([Letter(MESSAGE, 0)], None, None, None), Queued, map[], map[], {}, 0);
    hide Path, Step;
    Extend(c, [], INITIAL, 0, SetDurable(TASK, Queued), s1);
    Extend(c, [] + [SetDurable(TASK, Queued)], s1, 0, EnqueueTask(0, MESSAGE, TASK, Queued, NORMAL), s2);
    Extend(c, [] + [SetDurable(TASK, Queued)] + [EnqueueTask(0, MESSAGE, TASK, Queued, NORMAL)], s2, 0,
           Work(0, ClaimNext(FIRST, 0.0)), Held(c, Queued, Claimed, {}));
    assert [] + [SetDurable(TASK, Queued)] + [EnqueueTask(0, MESSAGE, TASK, Queued, NORMAL)] + [Work(0,
           ClaimNext(FIRST, 0.0))] == Opening();
  }

  // ----- Phases of the only worker -----

  lemma Fails(c: Config, error: WorkError, ended: set<TaskId>)
    requires c.Valid()
    ensures Step(c, Held(c, Queued, Claimed, ended), Work(0, Raise(error)),
            Held(c, Queued, Failing(Classify(error)), ended))
  {
    hide Tables, Classify;
    FourTables(c);
    assert map[0 := Worker(Delivered(FIRST, 0), Claimed)][0 := Worker(Delivered(FIRST, 0), Failing(Classify(error)))]
           == map[0 := Worker(Delivered(FIRST, 0), Failing(Classify(error)))];
  }

  lemma FourTables(c: Config)
    ensures |Tables([], Leased(c, 0, FIRST), None, None).ready| == 4
  {
  }

  lemma RecordsFailure(c: Config, f: ExecutionFailure)
    requires c.Valid() && f.retryable
    ensures Step(c, Held(c, Queued, Failing(f), {}), Work(0, RecordFailure), Held(c, Queued, Dispatching(f), {}))
  {
    hide Tables, NextClaim, NextRenew, NextAckSuccess, NextSchedule, NextFinalize, NextInterrupted, AfterAck;
    FourTables(c);
    assert map[0 := Worker(Delivered(FIRST, 0), Failing(f))][0 := Worker(Delivered(FIRST, 0), Dispatching(f))]
           == map[0 := Worker(Delivered(FIRST, 0), Dispatching(f))];
    assert map[TASK := Queued][TASK := Queued] == map[TASK := Queued];
  }

  lemma GivesUp(c: Config, f: ExecutionFailure)
    requires c.Valid() && FailureRecord(c.policy, Letter(MESSAGE, 0), f, 0.0, 0.0, 0.0).None?
    ensures Step(c, Held(c, Queued, Dispatching(f), {}), Work(0, ScheduleFailure(0.0, 0.0)),
            Held(c, Queued, Finalizing(f), {}))
  {
    hide Tables, FailureRecord;
    FourTables(c);
    assert Rebuilt(Delivered(FIRST, 0)) == Letter(MESSAGE, 0);
    assert map[0 := Worker(Delivered(FIRST, 0), Dispatching(f))][0 := Worker(Delivered(FIRST, 0), Finalizing(f))]
           == map[0 := Worker(Delivered(FIRST, 0), Finalizing(f))];
  }

  function Buried(f: ExecutionFailure): DeadLetter { FailureDeadLetter(Delivered(FIRST, 0), f, 0) }

  /** The lease is still held when the dead letter is filed. */
  function Doubled(c: Config, f: ExecutionFailure): System {
    Scene(Tables([], Leased(c, 0, FIRST), None, Some(Buried(f))), Queued,
          map[0 := Worker(Delivered(FIRST, 0), DispatchAcking)], map[FIRST := MESSAGE], {}, 1)
  }

  lemma FinalizeScript(lease: Option<(Envelope, Token, Time)>, r: DeadLetter)
    requires r.messageId == MESSAGE && r.taskId == TASK && r.id == 0
    ensures Finalize(Tables([], lease, None, None), r).0 == Tables([], lease, None, Some(r))
  {
    var u := Finalize(Tables([], lease, None, None), r).0;
    assert u.dlq == map[MESSAGE := r] && u.dlqTaskIndex == map[TASK := MESSAGE]
           && u.dlqRecordIndex == map[0 := MESSAGE];
  }

  lemma Files(c: Config, f: ExecutionFailure)
    requires c.Valid()
    ensures Step(c, Held(c, Queued, Finalizing(f), {}), Work(0, FinalizeFailure(0)), Doubled(c, f))
  {
    FinalizeScript(Leased(c, 0, FIRST), Buried(f));
    FourTables(c);
    assert |Tables([], Leased(c, 0, FIRST), None, Some(Buried(f))).ready| == 4;
    hide Tables, Finalize;
    assert map[0 := Worker(Delivered(FIRST, 0), Finalizing(f))][0 := Worker(Delivered(FIRST, 0), DispatchAcking)]
           == map[0 := Worker(Delivered(FIRST, 0), DispatchAcking)];
  }

  /** A rate limit whose wish exceeds the elapsed budget: retryable, but never retried. */
  function Hopeless(c: Config): WorkError { ProviderRateLimited(Some(c.policy.maximumElapsed + 1.0)) }

  function Hope(c: Config): ExecutionFailure { Classify(Hopeless(c)) }

  function Burying(c: Config): seq<Action> {
    Opening() + [Work(0, Raise(Hopeless(c)))] + [Work(0, RecordFailure)] + [Work(0, ScheduleFailure(0.0, 0.0))]
    + [Work(0, FinalizeFailure(0))]
  }

  lemma Buries(c: Config)
    requires c.Valid()
    ensures Path(c, INITIAL, Burying(c), Doubled(c, Hope(c)), 0)
  {
    Opened(c);
    var f := Hope(c);
    assert FailureRecord(c.policy, Letter(MESSAGE, 0), f, 0.0, 0.0, 0.0).None?;
    Fails(c, Hopeless(c), {});
    RecordsFailure(c, f);
    GivesUp(c, f);
    Files(c, f);
    hide Path, Step, Held, Doubled, Opening;
    var xs := Opening();
    Extend(c, xs, Held(c, Queued, Claimed, {}), 0, Work(0, Raise(Hopeless(c))), Held(c, Queued, Failing(f), {}));
    xs := xs + [Work(0, Raise(Hopeless(c)))];
    Extend(c, xs, Held(c, Queued, Failing(f), {}), 0, Work(0, RecordFailure), Held(c, Queued, Dispatching(f), {}));
    xs := xs + [Work(0, RecordFailure)];
    Extend(c, xs, Held(c, Queued, Dispatching(f), {}), 0, Work(0, ScheduleFailure(0.0, 0.0)),
        Held(c, Queued, Finalizing(f), {}));
    xs := xs + [Work(0, ScheduleFailure(0.0, 0.0))];
    Extend(c, xs, Held(c, Queued, Finalizing(f), {}), 0, Work(0, FinalizeFailure(0)), Doubled(c, f));
  }

  /** For every configuration a run leaves a message in two places: in flight and among the dead letters. */
  lemma TwoPlaces(c: Config)
    requires c.Valid()
    ensures Run(c, INITIAL, Burying(c))
    ensures var t := After(c, INITIAL, Burying(c)); |t.store.ready| == 4 && Places(t.store, MESSAGE) == 2
  {
    Buries(c);
    DoubledPlaces(c, Hope(c));
    hide Run, After, Places, Burying;
  }

  lemma DoubledPlaces(c: Config, f: ExecutionFailure)
    ensures |Doubled(c, f).store.ready| == 4 && Places(Doubled(c, f).store, MESSAGE) == 2
  {
  }

  // ----- Two replays -----

  /** The record desk after the worker has gone: approvers, replayers, the record, and what was replayed. */
  function Desk(r: DeadLetter, approvers: map<ActorId, Approver>, replayers: map<ActorId, DeadLetter>,
                queued: seq<Envelope>, issued: map<MessageId, Issue>, claims: map<MessageId, nat>): System
  {
    System(Tables(queued, None, None, Some(r)), map[TASK := Queued], 0.0, map[], map[], replayers, approvers,
           issued, map[FIRST := MESSAGE], {}, claims)
  }

  lemma ReleaseScript(e: Envelope, token: Token, deadline: Time, delayed: Option<RetryRecord>, dead: Option<DeadLetter>)
    requires e == Letter(MESSAGE, e.attempt)
    ensures Acknowledge(Tables([], Some((e, token, deadline)), delayed, dead), MESSAGE, token, token.worker)
            == (Tables([], None, delayed, dead), 1)
  {
    var u := Acknowledge(Tables([], Some((e, token, deadline)), delayed, dead), MESSAGE, token, token.worker).0;
    assert u.inflight == map[] && u.leases == map[] && u.leaseExpiry == map[];
  }

  lemma Leaves(c: Config, f: ExecutionFailure)
    requires c.Valid()
    ensures Step(c, Doubled(c, f), Work(0, AckFailure), Desk(Buried(f), map[], map[], [], ONCE, map[MESSAGE := 1]))
  {
    ReleaseScript(Letter(MESSAGE, 0), FIRST, 0.0 + c.visibility, None, Some(Buried(f)));
    assert |Tables([], Leased(c, 0, FIRST), None, Some(Buried(f))).ready| == 4;
    assert |Tables([], None, None, Some(Buried(f))).ready| == 4;
    hide Tables, Acknowledge;
    assert map[0 := Worker(Delivered(FIRST, 0), DispatchAcking)] - {0} == map[];
  }

  /** An approver reads the record, and writes its copy back approved. */
  lemma ReadsForApproval(c: Config, a: ActorId, r: DeadLetter, approvers: map<ActorId, Approver>, queued: seq<Envelope>,
                         issued: map<MessageId, Issue>, claims: map<MessageId, nat>)
    requires a !in approvers
    ensures Step(c, Desk(r, approvers, map[], queued, issued, claims), Operate(a, ReadForApproval(MESSAGE, true)),
                 Desk(r, approvers[a := Approver(r, true)], map[], queued, issued, claims))
    ensures Counted(Desk(r, approvers, map[], queued, issued, claims), Operate(a, ReadForApproval(MESSAGE, true))) == 0
  {
  }

  lemma WritesApproval(c: Config, a: ActorId, r: DeadLetter, read: DeadLetter, queued: seq<Envelope>,
                       issued: map<MessageId, Issue>, claims: map<MessageId, nat>)
    requires read.messageId == MESSAGE
    ensures Step(c, Desk(r, map[a := Approver(read, true)], map[], queued, issued, claims), Operate(a, RunApproval),
                 Desk(read.(approval := Approved), map[], map[], queued, issued, claims))
    ensures Counted(Desk(r, map[a := Approver(read, true)], map[], queued, issued, claims), Operate(a, RunApproval)) ==
            0
  {
    assert map[a := Approver(read, true)] - {a} == map[];
    assert map[MESSAGE := r][MESSAGE := read.(approval := Approved)] == map[MESSAGE := read.(approval := Approved)];
  }

  lemma ReadsForReplay(c: Config, r: DeadLetter, approvers: map<ActorId, Approver>, queued: seq<Envelope>,
                       issued: map<MessageId, Issue>, claims: map<MessageId, nat>)
    ensures Step(c, Desk(r, approvers, map[], queued, issued, claims), Operate(0, ReadForReplay(MESSAGE)),
                 Desk(r, approvers, map[0 := r], queued, issued, claims))
    ensures Counted(Desk(r, approvers, map[], queued, issued, claims), Operate(0, ReadForReplay(MESSAGE))) == 0
  {
  }

  /** A record that the replay script accepts. */
  predicate Replayable(r: DeadLetter) {
    && r.messageId == MESSAGE && r.envelope == Letter(MESSAGE, 0) && r.taskId == TASK
    && r.eligible && r.approval == Approved && r.replayedAs.None?
  }

  lemma ReplayScript(r: DeadLetter, queued: seq<Envelope>, n: MessageId)
    requires Replayable(r)
    ensures Replay(Tables(queued, None, None, Some(r)), MESSAGE, n, r.(replayedAs := Some(n)))
            == (Tables(queued + [Letter(n, 0)], None, None, Some(r.(replayedAs := Some(n)))), Replayed)
  {
    PushesInto(queued, Letter(n, 0));
    assert map[MESSAGE := r][MESSAGE := r.(replayedAs := Some(n))] == map[MESSAGE := r.(replayedAs := Some(n))];
  }

  lemma ReplaysOnce(c: Config, r: DeadLetter, approvers: map<ActorId, Approver>, queued: seq<Envelope>,
                    issued: map<MessageId, Issue>, claims: map<MessageId, nat>, n: MessageId)
    requires Replayable(r) && n !in issued
    ensures Step(c, Desk(r, approvers, map[0 := r], queued, issued, claims), Operate(0, RunReplay(n)),
                 Desk(r.(replayedAs := Some(n)), approvers, map[], queued + [Letter(n, 0)],
                      issued[n := Issue(TASK, Queued, 0, true)], claims[n := 0]))
    ensures Counted(Desk(r, approvers, map[0 := r], queued, issued, claims), Operate(0, RunReplay(n))) == 1
  {
    ReplayScript(r, queued, n);
    assert Tables(queued, None, None, Some(r)).dlq[MESSAGE] == r;
    assert |Tables(queued, None, None, Some(r)).ready| == 4;
    assert |Tables(queued + [Letter(n, 0)], None, None, Some(r.(replayedAs := Some(n)))).ready| == 4;
    hide Tables, Replay;
    assert map[0 := r] - {0} == map[];
  }

  /** Extends a run by an operator's step that replays k records. */
  lemma ExtendBy(c: Config, xs: seq<Action>, t: System, n: nat, x: Action, u: System, k: nat)
    requires Path(c, INITIAL, xs, t, n) && Step(c, t, x, u) && Counted(t, x) == k
    ensures Path(c, INITIAL, xs + [x], u, n + k)
  {
    OneMore(c, INITIAL, xs, t, n, x, u);
    hide Path, Step, Counted;
  }

  function Approving(c: Config): seq<Action> {
    Burying(c) + [Work(0, AckFailure)] + [Operate(0, ReadForApproval(MESSAGE, true))] + [Operate(0, RunApproval)]
  }

  function ApprovedLetter(c: Config): DeadLetter { Buried(Hope(c)).(approval := Approved) }

  lemma BuriedReplayable(c: Config)
    ensures Replayable(ApprovedLetter(c)) && Buried(Hope(c)).messageId == MESSAGE
  {
  }

  lemma Approves(c: Config)
    requires c.Valid()
    ensures Path(c, INITIAL, Approving(c), Desk(ApprovedLetter(c), map[], map[], [], ONCE, map[MESSAGE := 1]), 0)
  {
    Buries(c);
    var f := Hope(c);
    var r := Buried(f);
    var one := map[MESSAGE := 1];
    BuriedReplayable(c);
    Leaves(c, f);
    ReadsForApproval(c, 0, r, map[], [], ONCE, one);
    WritesApproval(c, 0, r, r, [], ONCE, one);
    hide Path, Step, Doubled, Desk, Burying, Counted, Hope, Buried;
    var xs := Burying(c);
    Extend(c, xs, Doubled(c, f), 0, Work(0, AckFailure), Desk(r, map[], map[], [], ONCE, one));
    xs := xs + [Work(0, AckFailure)];
    ExtendBy(c, xs, Desk(r, map[], map[], [], ONCE, one), 0, Operate(0, ReadForApproval(MESSAGE, true)),
             Desk(r, map[][0 := Approver(r, true)], map[], [], ONCE, one), 0);
    xs := xs + [Operate(0, ReadForApproval(MESSAGE, true))];
    assert map[][0 := Approver(r, true)] == map[0 := Approver(r, true)];
    ExtendBy(c, xs, Desk(r, map[0 := Approver(r, true)], map[], [], ONCE, one), 0, Operate(0, RunApproval),
             Desk(r.(approval := Approved), map[], map[], [], ONCE, one), 0);
  }

  /** A second approval is read before the first replay and written after it. */
  function ReplayingTwice(c: Config): seq<Action> {
    Approving(c) + [Operate(1, ReadForApproval(MESSAGE, true))] + [Operate(0, ReadForReplay(MESSAGE))] + [Operate(0,
        RunReplay(1))]
    + [Operate(1, RunApproval)] + [Operate(0, ReadForReplay(MESSAGE))] + [Operate(0, RunReplay(2))]
  }

  function ReplayIssue(): Issue { Issue(TASK, Queued, 0, true) }

  lemma FirstReplay(c: Config) returns (xs: seq<Action>)
    requires c.Valid()
    ensures xs == Approving(c) + [Operate(1, ReadForApproval(MESSAGE, true))] + [Operate(0, ReadForReplay(MESSAGE))]
                  + [Operate(0, RunReplay(1))]
    ensures Path(c, INITIAL, xs, Desk(ApprovedLetter(c).(replayedAs := Some(1)),
            map[1 := Approver(ApprovedLetter(c), true)], map[],
                                      [] + [Letter(1, 0)], ONCE[1 := ReplayIssue()], map[MESSAGE := 1][1 := 0]), 1)
  {
    Approves(c);
    BuriedReplayable(c);
    var r := ApprovedLetter(c);
    var one := map[MESSAGE := 1];
    var late := map[1 := Approver(r, true)];
    ReadsForApproval(c, 1, r, map[], [], ONCE, one);
    ReadsForReplay(c, r, late, [], ONCE, one);
    ReplaysOnce(c, r, late, [], ONCE, one, 1);
    hide Path, Step, Desk, Approving, Counted, ApprovedLetter;
    xs := Approving(c);
    assert map[][1 := Approver(r, true)] == late;
    ExtendBy(c, xs, Desk(r, map[], map[], [], ONCE, one), 0, Operate(1, ReadForApproval(MESSAGE, true)),
             Desk(r, late, map[], [], ONCE, one), 0);
    xs := xs + [Operate(1, ReadForApproval(MESSAGE, true))];
    ExtendBy(c, xs, Desk(r, late, map[], [], ONCE, one), 0, Operate(0, ReadForReplay(MESSAGE)),
             Desk(r, late, map[0 := r], [], ONCE, one), 0);
    xs := xs + [Operate(0, ReadForReplay(MESSAGE))];
    ExtendBy(c, xs, Desk(r, late, map[0 := r], [], ONCE, one), 0, Operate(0, RunReplay(1)),
             Desk(r.(replayedAs := Some(1)), late, map[], [] + [Letter(1, 0)], ONCE[1 := ReplayIssue()], one[1 := 0]),
                 1);
    xs := xs + [Operate(0, RunReplay(1))];
  }

  /** For every configuration some run replays one dead letter twice. */
  lemma ReplayedTwice(c: Config)
    requires c.Valid()
    ensures Run(c, INITIAL, ReplayingTwice(c)) && ReplayCount(c, INITIAL, ReplayingTwice(c), MESSAGE) == 2
  {
    var xs := FirstReplay(c);
    BuriedReplayable(c);
    var r := ApprovedLetter(c);
    var once := r.(replayedAs := Some(1));
    var late := map[1 := Approver(r, true)];
    var queued := [] + [Letter(1, 0)];
    var issued := ONCE[1 := ReplayIssue()];
    var claims := map[MESSAGE := 1][1 := 0];
    WritesApproval(c, 1, once, r, queued, issued, claims);
    assert r.(approval := Approved) == r;
    ReadsForReplay(c, r, map[], queued, issued, claims);
    ReplaysOnce(c, r, map[], queued, issued, claims, 2);
    var done := Desk(r.(replayedAs := Some(2)), map[], map[], queued + [Letter(2, 0)], issued[2 := ReplayIssue()],
        claims[2 := 0]);
    hide Path, Step, Desk, Approving, Counted, ApprovedLetter;
    ExtendBy(c, xs, Desk(once, late, map[], queued, issued, claims), 1, Operate(1, RunApproval),
             Desk(r, map[], map[], queued, issued, claims), 0);
    xs := xs + [Operate(1, RunApproval)];
    ExtendBy(c, xs, Desk(r, map[], map[], queued, issued, claims), 1, Operate(0, ReadForReplay(MESSAGE)),
             Desk(r, map[], map[0 := r], queued, issued, claims), 0);
    xs := xs + [Operate(0, ReadForReplay(MESSAGE))];
    ExtendBy(c, xs, Desk(r, map[], map[0 := r], queued, issued, claims), 1, Operate(0, RunReplay(2)), done, 1);
    PathCounts(c, xs + [Operate(0, RunReplay(2))], done, 2);
  }

  lemma PathCounts(c: Config, xs: seq<Action>, t: System, n: nat)
    requires Path(c, INITIAL, xs, t, n)
    ensures Run(c, INITIAL, xs) && ReplayCount(c, INITIAL, xs, MESSAGE) == n && After(c, INITIAL, xs) == t
  {
  }

  // ----- A completed task runs again -----

  lemma OneWorker(phase: Phase, after: Phase)
    ensures map[0 := Worker(Delivered(FIRST, 0), phase)][0 := Worker(Delivered(FIRST, 0), after)]
            == map[0 := Worker(Delivered(FIRST, 0), after)]
  {
  }

  lemma Starts(c: Config)
    requires c.Valid()
    ensures Step(c, Held(c, Queued, Claimed, {}), Work(0, RecordClaim(Heard)), Held(c, Executing, Running, {}))
  {
    FourTables(c);
    hide Tables;
    OneWorker(Claimed, Running);
    assert map[TASK := Queued][TASK := Executing] == map[TASK := Executing];
  }

  lemma Finishes(c: Config)
    requires c.Valid()
    ensures Step(c, Held(c, Executing, Running, {}), Work(0, FinishHandler), Held(c, Executing, Succeeded, {}))
  {
    FourTables(c);
    hide Tables;
    OneWorker(Running, Succeeded);
  }

  lemma Succeeds(c: Config)
    requires c.Valid()
    ensures Step(c, Held(c, Executing, Succeeded, {}), Work(0, RecordSuccess(Heard)),
                 Held(c, Completed, Acking, {TASK}))
  {
    FourTables(c);
    hide Tables;
    OneWorker(Succeeded, Acking);
    assert map[TASK := Executing][TASK := Completed] == map[TASK := Completed];
    assert {} + {TASK} == {TASK};
  }

  /** Worker 0 with its lease gone. */
  function Freed(state: TaskState, phase: Phase, delayed: Option<RetryRecord>): System {
    Scene(Tables([], None, delayed, None), state, map[0 := Worker(Delivered(FIRST, 0), phase)], map[FIRST := MESSAGE],
        {TASK}, 1)
  }

  function Lost(): ExecutionFailure { Classify(OtherError) }

  lemma LosesAnswer(c: Config)
    requires c.Valid()
    ensures Step(c, Held(c, Completed, Acking, {TASK}), Work(0, AckSuccess(Unheard(false))),
            Freed(Completed, Failing(Lost()), None))
  {
    ReleaseScript(Letter(MESSAGE, 0), FIRST, 0.0 + c.visibility, None, None);
    FourTables(c);
    assert |Tables([], None, None, None).ready| == 4;
    hide Tables, Acknowledge;
    assert map[0 := Worker(Delivered(FIRST, 0), Acking)][0 := Worker(Delivered(FIRST, 0), Failing(Lost()))]
           == map[0 := Worker(Delivered(FIRST, 0), Failing(Lost()))];
  }

  lemma Reopens(c: Config)
    requires c.Valid()
    ensures Step(c, Freed(Completed, Failing(Lost()), None), Work(0, RecordFailure),
            Freed(Queued, Dispatching(Lost()), None))
  {
    hide Tables, Lost, NextWork, WorkEnabled;
    FourLists([], None, None, None);
    LostIsRetryable();
    FailureStep(c, Freed(Completed, Failing(Lost()), None), 0);
    assert map[TASK := Completed][TASK := Queued] == map[TASK := Queued];
    assert map[0 := Worker(Delivered(FIRST, 0), Failing(Lost()))][0 := Worker(Delivered(FIRST, 0), Dispatching(Lost()))]
           == map[0 := Worker(Delivered(FIRST, 0), Dispatching(Lost()))];
  }

  lemma FailureStep(c: Config, s: System, a: ActorId)
    requires |s.store.ready| == 4 && a in s.workers && s.workers[a].phase.Failing?
    requires s.workers[a].delivery.taskId in s.durable
    ensures WorkEnabled(c, s, a, RecordFailure) && NextWork(c, s, a, RecordFailure) == NextFailure(s, a)
  {
    hide NextFailure;
  }

  lemma LostIsRetryable()
    ensures Lost().retryable
  {
  }

  lemma ScheduleScript(r: RetryRecord)
    requires r.messageId == MESSAGE && r.taskId == TASK
    ensures Schedule(Tables([], None, None, None), r).0 == Tables([], None, Some(r), None)
  {
    var u := Schedule(Tables([], None, None, None), r).0;
    assert u.delayed == map[MESSAGE := Scheduled(r)] && u.delayedDue == map[MESSAGE := r.dueAt];
  }

  lemma Retries(c: Config, draw: Draw, r: RetryRecord)
    requires c.Valid() && FailureRecord(c.policy, Letter(MESSAGE, 0), Lost(), 0.0, 0.0, draw) == Some(r)
    requires r.messageId == MESSAGE && r.taskId == TASK
    ensures Step(c, Freed(Queued, Dispatching(Lost()), None), Work(0, ScheduleFailure(0.0, draw)),
            Freed(Queued, DispatchAcking, Some(r)))
  {
    ScheduleScript(r);
    assert |Tables([], None, None, None).ready| == 4 && |Tables([], None, Some(r), None).ready| == 4;
    assert Rebuilt(Delivered(FIRST, 0)) == Letter(MESSAGE, 0);
    hide Tables, FailureRecord, Schedule;
    assert map[0 := Worker(Delivered(FIRST, 0), Dispatching(Lost()))][0 := Worker(Delivered(FIRST, 0), DispatchAcking)]
           == map[0 := Worker(Delivered(FIRST, 0), DispatchAcking)];
  }

  function Empty(queued: seq<Envelope>, delayed: Option<RetryRecord>): System {
    Scene(Tables(queued, None, delayed, None), Queued, map[], map[FIRST := MESSAGE], {TASK}, 1)
  }

  lemma LeavesDelayed(c: Config, r: RetryRecord)
    requires c.Valid()
    ensures Step(c, Freed(Queued, DispatchAcking, Some(r)), Work(0, AckFailure), Empty([], Some(r)))
  {
    assert |Tables([], None, Some(r), None).ready| == 4;
    assert Acknowledge(Tables([], None, Some(r), None), MESSAGE, FIRST, 0).0 == Tables([], None, Some(r), None);
    hide Tables, Acknowledge;
    assert map[0 := Worker(Delivered(FIRST, 0), DispatchAcking)] - {0} == map[];
  }

  lemma PromoteScript(r: RetryRecord)
    requires r.messageId == MESSAGE && r.taskId == TASK && r.envelope == Letter(MESSAGE, 1)
    ensures PromoteAll(Tables([], None, Some(r), None), [MESSAGE], Tally(0, 0, 0)).0 ==
            Tables([Letter(MESSAGE, 1)], None, None, None)
  {
    var st := Tables([], None, Some(r), None);
    PushesInto([], Letter(MESSAGE, 1));
    assert [] + [Letter(MESSAGE, 1)] == [Letter(MESSAGE, 1)];
    var free := Unschedule(st, MESSAGE);
    assert free.delayed == map[] && free.delayedDue == map[];
    assert free == Tables([], None, None, None);
    var u := PushReady(free, Letter(MESSAGE, 1));
    assert u == Tables([Letter(MESSAGE, 1)], None, None, None);
    assert PromoteOne(st, MESSAGE, Tally(0, 0, 0)) == Some((u, Tally(1, 0, 0)));
    hide PromoteOne, Tables, Unschedule, PushReady;
    assert [MESSAGE][1..] == [];
    assert PromoteAll(u, [], Tally(1, 0, 0)) == (u, Some(Tally(1, 0, 0)));
  }

  lemma Promotes(c: Config, r: RetryRecord)
    requires c.Valid() && r.messageId == MESSAGE && r.taskId == TASK && r.envelope == Letter(MESSAGE, 1)
    ensures Step(c, Empty([], Some(r)), PromoteDue(r.dueAt, 1, [MESSAGE]), Empty([Letter(MESSAGE, 1)], None))
  {
    PromoteScript(r);
    assert IsDuePage(map[MESSAGE := r.dueAt], r.dueAt, 1, [MESSAGE]);
    assert |Tables([], None, Some(r), None).ready| == 4 && |Tables([Letter(MESSAGE, 1)], None, None, None).ready| == 4;
    assert Tables([], None, Some(r), None).delayedDue == map[MESSAGE := r.dueAt];
    hide Tables, PromoteAll, IsDuePage;
  }

  /** A second worker with the second delivery. */
  function Again(c: Config, state: TaskState, phase: Phase): System {
    Scene(Tables([], Leased(c, 1, SECOND), None, None), state, map[1 := Worker(Delivered(SECOND, 1), phase)],
          map[FIRST := MESSAGE][SECOND := MESSAGE], {TASK}, 2)
  }

  lemma StartsAgain(c: Config)
    requires c.Valid()
    ensures Step(c, Again(c, Queued, Claimed), Work(1, RecordClaim(Heard)), Again(c, Executing, Running))
  {
    assert |Tables([], Leased(c, 1, SECOND), None, None).ready| == 4;
    hide Tables;
    assert map[TASK := Queued][TASK := Executing] == map[TASK := Executing];
    assert map[1 := Worker(Delivered(SECOND, 1), Claimed)][1 := Worker(Delivered(SECOND, 1), Running)]
           == map[1 := Worker(Delivered(SECOND, 1), Running)];
  }

  function Completing(): seq<Action> {
    Opening() + [Work(0, RecordClaim(Heard))] + [Work(0, FinishHandler)] + [Work(0, RecordSuccess(Heard))]
  }

  lemma Completes(c: Config)
    requires c.Valid()
    ensures Path(c, INITIAL, Completing(), Held(c, Completed, Acking, {TASK}), 0)
  {
    Opened(c);
    Starts(c);
    Finishes(c);
    Succeeds(c);
    hide Path, Step, Held, Opening;
    var xs := Opening();
    Extend(c, xs, Held(c, Queued, Claimed, {}), 0, Work(0, RecordClaim(Heard)), Held(c, Executing, Running, {}));
    xs := xs + [Work(0, RecordClaim(Heard))];
    Extend(c, xs, Held(c, Executing, Running, {}), 0, Work(0, FinishHandler), Held(c, Executing, Succeeded, {}));
    xs := xs + [Work(0, FinishHandler)];
    Extend(c, xs, Held(c, Executing, Succeeded, {}), 0, Work(0, RecordSuccess(Heard)),
        Held(c, Completed, Acking, {TASK}));
  }

  /** The answer of the acknowledgement is lost, and the retry waits to be promoted. */
  function Losing(draw: Draw): seq<Action> {
    Completing() + [Work(0, AckSuccess(Unheard(false)))] + [Work(0, RecordFailure)] +
    [Work(0, ScheduleFailure(0.0, draw))]
    + [Work(0, AckFailure)]
  }

  lemma Loses(c: Config, draw: Draw, r: RetryRecord)
    requires c.Valid() && FailureRecord(c.policy, Letter(MESSAGE, 0), Lost(), 0.0, 0.0, draw) == Some(r)
    requires r.messageId == MESSAGE && r.taskId == TASK
    ensures Path(c, INITIAL, Losing(draw), Empty([], Some(r)), 0)
  {
    Completes(c);
    LosesAnswer(c);
    Reopens(c);
    Retries(c, draw, r);
    LeavesDelayed(c, r);
    hide Path, Step, Held, Freed, Empty, Completing, FailureRecord;
    var xs := Completing();
    Extend(c, xs, Held(c, Completed, Acking, {TASK}), 0, Work(0, AckSuccess(Unheard(false))),
        Freed(Completed, Failing(Lost()), None));
    xs := xs + [Work(0, AckSuccess(Unheard(false)))];
    Extend(c, xs, Freed(Completed, Failing(Lost()), None), 0, Work(0, RecordFailure),
        Freed(Queued, Dispatching(Lost()), None));
    xs := xs + [Work(0, RecordFailure)];
    Extend(c, xs, Freed(Queued, Dispatching(Lost()), None), 0, Work(0, ScheduleFailure(0.0, draw)),
           Freed(Queued, DispatchAcking, Some(r)));
    xs := xs + [Work(0, ScheduleFailure(0.0, draw))];
    Extend(c, xs, Freed(Queued, DispatchAcking, Some(r)), 0, Work(0, AckFailure), Empty([], Some(r)));
  }

  /** The retry is promoted and claimed, and its handler starts. */
  function Repeating(draw: Draw, due: Time): seq<Action> {
    Losing(draw) + [PromoteDue(due, 1, [MESSAGE])] + [Work(1, ClaimNext(SECOND, 0.0))] + [Work(1, RecordClaim(Heard))]
  }

  lemma Repeats(c: Config, draw: Draw, r: RetryRecord)
    requires c.Valid() && FailureRecord(c.policy, Letter(MESSAGE, 0), Lost(), 0.0, 0.0, draw) == Some(r)
    requires r.messageId == MESSAGE && r.taskId == TASK && r.envelope == Letter(MESSAGE, 1)
    ensures Path(c, INITIAL, Repeating(draw, r.dueAt), Again(c, Executing, Running), 0)
  {
    Loses(c, draw, r);
    Promotes(c, r);
    ClaimOnly(c, 1, 1, Queued, map[FIRST := MESSAGE], {TASK}, 1, SECOND);
    AgainShape(c);
    StartsAgain(c);
    hide Path, Step, Empty, Losing, Again, Scene, FailureRecord, Letter, Tables, Leased;
    var xs := Losing(draw);
    Extend(c, xs, Empty([], Some(r)), 0, PromoteDue(r.dueAt, 1, [MESSAGE]), Empty([Letter(MESSAGE, 1)], None));
    xs := xs + [PromoteDue(r.dueAt, 1, [MESSAGE])];
    Extend(c, xs, Empty([Letter(MESSAGE, 1)], None), 0, Work(1, ClaimNext(SECOND, 0.0)), Again(c, Queued, Claimed));
    xs := xs + [Work(1, ClaimNext(SECOND, 0.0))];
    Extend(c, xs, Again(c, Queued, Claimed), 0, Work(1, RecordClaim(Heard)), Again(c, Executing, Running));
  }

  lemma GrantedRecord(c: Config, draw: Draw) returns (r: RetryRecord)
    requires Decide(c.policy, 1, true, None, 0.0, draw).retry
    ensures FailureRecord(c.policy, Letter(MESSAGE, 0), Lost(), 0.0, 0.0, draw) == Some(r)
    ensures r.messageId == MESSAGE && r.taskId == TASK && r.envelope == Letter(MESSAGE, 1)
  {
    hide Decide;
    r := FailureRecord(c.policy, Letter(MESSAGE, 0), Lost(), 0.0, 0.0, draw).value;
  }

  /** Whenever the policy grants the first retry, some run completes a task and then starts its handler again. */
  lemma CompletedRunsAgain(c: Config, draw: Draw) returns (xs: seq<Action>, ys: seq<Action>)
    requires c.Valid() && Decide(c.policy, 1, true, None, 0.0, draw).retry
    ensures Run(c, INITIAL, xs) && TASK in After(c, INITIAL, xs).durable
    ensures After(c, INITIAL, xs).durable[TASK].Completed?
    ensures xs <= ys && Run(c, INITIAL, ys)
    ensures var t := After(c, INITIAL, ys);
            && |t.workers| == 1 && 1 in t.workers && t.workers[1].phase.Running?
            && t.workers[1].delivery.taskId == TASK
            && TASK !in t.store.cancelled
  {
    hide Path, Run, After, Decide, FailureRecord, Again, Held, Repeating, Completing, Losing;
    var r := GrantedRecord(c, draw);
    Completes(c);
    Repeats(c, draw, r);
    AgainShape(c);
    LosingExtends(draw, r.dueAt);
    xs, ys := Completing(), Repeating(draw, r.dueAt);
    PathCounts(c, xs, Held(c, Completed, Acking, {TASK}), 0);
    PathCounts(c, ys, Again(c, Executing, Running), 0);
  }

  lemma LosingExtends(draw: Draw, due: Time)
    ensures Completing() <= Repeating(draw, due)
  {
    hide Completing;
  }

  lemma AgainShape(c: Config)
    ensures var t := Again(c, Executing, Running);
            && |t.workers| == 1 && 1 in t.workers && t.workers[1].phase.Running? && t.workers[1].delivery.taskId == TASK
            && TASK !in t.store.cancelled
    ensures var s := Held(c, Completed, Acking, {TASK}); TASK in s.durable && s.durable[TASK].Completed?
    ensures Again(c, Queued, Claimed) ==
            Scene(Tables([], Leased(c, 1, SECOND), None, None), Queued, map[1 := Worker(Delivered(SECOND, 1), Claimed)],
                  map[FIRST := MESSAGE][SECOND := MESSAGE], {TASK}, 2)
    ensures Empty([Letter(MESSAGE, 1)], None) ==
            Scene(Tables([Letter(MESSAGE, 1)], None, None, None), Queued, map[], map[FIRST := MESSAGE], {TASK}, 1)
  {
    hide Tables;
    assert Tables([], Leased(c, 1, SECOND), None, None).cancelled == {} by { NothingCancelled(Leased(c, 1, SECOND)); }
  }

  lemma NothingCancelled(lease: Option<(Envelope, Token, Time)>)
    ensures Tables([], lease, None, None).cancelled == {}
  {
  }
}
