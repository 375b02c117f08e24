/** The claim bound is exact: runs in which every delivery leaves both of its copies, the dispatcher's and the
    recovered lease's, until the attempts run out. */
module ClaimsAttained {
  import opened Options
  import opened QueueTypes
  import opened QueueScripts
  import opened DeliveryProtocol
  import opened ClaimPotential
  import opened RetryPolicies

  const TASK: TaskId := 0
  const MESSAGE: MessageId := 0
  const NORMAL: Priority := 2

  predicate Ours(e: Envelope) {
    e.messageId == MESSAGE && e.taskId == TASK && e.state == Queued && e.priority == NORMAL
  }

  /** What one message with one worker and one recoverer needs to know of the system. */
  datatype View = View(
    queued: seq<Envelope>, held: Option<(Envelope, Lease)>, delayed: Option<RetryRecord>, workers: map<ActorId, Worker>,
    recoverers: map<ActorId, Recoverer>, clock: Time, claims: nat)

  predicate TablesShow(st: Store, v: View) {
    && st.ready == [[], [], v.queued, []] && st.cancelled == {}
    && st.inflight == (if v.held.Some? then map[MESSAGE := v.held.value.0] else map[])
    && st.leases == (if v.held.Some? then map[MESSAGE := v.held.value.1] else map[])
    && st.leaseExpiry == (if v.held.Some? then map[MESSAGE := v.held.value.1.deadline] else map[])
    && st.delayed == (if v.delayed.Some? then map[MESSAGE := Scheduled(v.delayed.value)] else map[])
    && st.delayedDue == (if v.delayed.Some? then map[MESSAGE := v.delayed.value.dueAt] else map[])
  }

  ghost predicate Shows(s: System, v: View) {
    && TablesShow(s.store, v)
    && s.workers == v.workers && s.recoverers == v.recoverers && s.clock == v.clock
    && TASK in s.durable && MESSAGE in s.issued && s.issued[MESSAGE].attempt == 0
    && MESSAGE in s.claims && s.claims[MESSAGE] == v.claims
    && forall token :: token in s.used ==> token.nonce < v.claims
  }

  /** The steps lead from a system that shows v to one that shows u. */
  ghost predicate Leads(c: Config, s: System, xs: seq<Action>, v: View) {
    |s.store.ready| == 4 && Run(c, s, xs) && |After(c, s, xs).store.ready| == 4 && Shows(After(c, s, xs), v)
  }

  lemma NoSteps(c: Config, s: System, v: View)
    requires Shows(s, v)
    ensures Leads(c, s, [], v)
  {
  }

  lemma {:induction false} OneMore(c: Config, s: System, xs: seq<Action>, v: View, x: Action, u: View)
    requires Leads(c, s, xs, v)
    requires Enabled(c, After(c, s, xs), x) && Shows(Next(c, After(c, s, xs), x), u)
    ensures Leads(c, s, xs + [x], u)
    decreases xs
  {
    hide Next, Enabled;
    if xs == [] {
      assert [] + [x] == [x] && [x][1..] == [];
      NoSteps(c, Next(c, s, x), u);
    } else {
      OneMore(c, Next(c, s, xs[0]), xs[1..], v, x, u);
      assert (xs + [x])[1..] == xs[1..] + [x];
    }
  }

  // ----- Single steps -----

  function Owner(v: View): Token { Token(0, v.claims) }

  function Taken(c: Config, v: View): View
    requires v.queued != []
  {
    var e := v.queued[0];
    var deadline := v.clock + c.visibility;
    var stamped := Stamped(e, Owner(v), v.clock, deadline);
    v.(queued := v.queued[1..], held := Some((stamped, LeaseOf(e, Owner(v), v.clock, deadline))),
       workers := map[0 := Worker(DeliveryOf(stamped, Owner(v)), Claimed)], claims := v.claims + 1)
  }

  lemma ClaimScript(c: Config, st: Store, v: View)
    requires TablesShow(st, v) && v.held.None? && v.queued != [] && Ours(v.queued[0])
    ensures var (t, claimed) := Claim(st, Owner(v), v.clock, v.clock + c.visibility);
            && TablesShow(t, Taken(c, v))
            && claimed == Some(Stamped(v.queued[0], Owner(v), v.clock, v.clock + c.visibility))
  {
    hide ClaimFrom, LeaseHead;
    var token, at, deadline := Owner(v), v.clock, v.clock + c.visibility;
    ClaimIteration(st, 0, token, at, deadline);
    ClaimIteration(st, 1, token, at, deadline);
    ClaimIteration(st, 2, token, at, deadline);
    assert !Dead(st, v.queued[0]);
    HeadTaken(c, st, v);
  }

  lemma HeadTaken(c: Config, st: Store, v: View)
    requires TablesShow(st, v) && v.held.None? && v.queued != [] && Ours(v.queued[0])
    ensures TablesShow(LeaseHead(st, 2, Owner(v), v.clock, v.clock + c.visibility), Taken(c, v))
  {
    assert LeaseHead(st, 2, Owner(v), v.clock, v.clock + c.visibility).ready == [[], [], v.queued[1..], []];
  }

  lemma ClaimStep(c: Config, s: System, v: View)
    requires c.Valid() && Shows(s, v) && v.held.None? && v.workers == map[] && v.queued != [] && Ours(v.queued[0])
    ensures var x := Work(0, ClaimNext(Owner(v), v.clock));
            Enabled(c, s, x) && Shows(Next(c, s, x), Taken(c, v))
  {
    ClaimScript(c, s.store, v);
    hide Claim, TablesShow;
  }

  function Moved(v: View, phase: Phase): View
    requires 0 in v.workers
  {
    v.(workers := map[0 := v.workers[0].(phase := phase)])
  }

  predicate Alone(v: View) { v.workers.Keys == {0} && v.workers[0].delivery.taskId == TASK }

  const BROKEN: ExecutionFailure := ExecutionFailure(RetryableInfrastructure, true, None)

  lemma RaiseStep(c: Config, s: System, v: View)
    requires Shows(s, v) && Alone(v) && v.workers[0].phase.Claimed?
    ensures var x := Work(0, Raise(OtherError)); Enabled(c, s, x) && Shows(Next(c, s, x), Moved(v, Failing(BROKEN)))
  {
    hide TablesShow;
    assert s.workers[0 := s.workers[0].(phase := Failing(BROKEN))] == Moved(v, Failing(BROKEN)).workers;
    SameTables(s.store, v, Moved(v, Failing(BROKEN)));
  }

  lemma FailStep(c: Config, s: System, v: View)
    requires Shows(s, v) && Alone(v) && v.workers[0].phase == Failing(BROKEN)
    ensures var x := Work(0, RecordFailure); Enabled(c, s, x) && Shows(Next(c, s, x), Moved(v, Dispatching(BROKEN)))
  {
    hide TablesShow;
    assert s.workers[0 := s.workers[0].(phase := Dispatching(BROKEN))] == Moved(v, Dispatching(BROKEN)).workers;
    SameTables(s.store, v, Moved(v, Dispatching(BROKEN)));
  }

  lemma SameTables(st: Store, v: View, u: View)
    requires TablesShow(st, v) && u.queued == v.queued && u.held == v.held && u.delayed == v.delayed
    ensures TablesShow(st, u)
  {
  }

  lemma ScheduleStep(c: Config, s: System, v: View, draw: Draw, r: RetryRecord)
    requires Shows(s, v) && Alone(v) && v.workers[0].phase == Dispatching(BROKEN) && v.delayed.None?
    requires FailureRecord(c.policy, Rebuilt(v.workers[0].delivery), BROKEN, v.clock, v.clock, draw) == Some(r)
    requires r.messageId == MESSAGE && r.taskId == TASK
    ensures var x := Work(0, ScheduleFailure(v.clock, draw));
            Enabled(c, s, x) && Shows(Next(c, s, x), Moved(v, DispatchAcking).(delayed := Some(r)))
  {
    hide FailureRecord;
    assert s.workers[0 := s.workers[0].(phase := DispatchAcking)] == Moved(v, DispatchAcking).workers;
  }

  lemma CrashStep(c: Config, s: System, v: View)
    requires Shows(s, v) && Alone(v)
    ensures var x := Work(0, CrashWorker); Enabled(c, s, x) && Shows(Next(c, s, x), v.(workers := map[]))
  {
    hide TablesShow;
    assert s.workers - {0} == map[];
    SameTables(s.store, v, v.(workers := map[]));
  }

  lemma PromoteScript(st: Store, v: View)
    requires TablesShow(st, v) && v.delayed.Some? && v.delayed.value.taskId == TASK && Ours(v.delayed.value.envelope)
    ensures |st.ready| == 4
    ensures IsDuePage(st.delayedDue, v.delayed.value.dueAt, 1, [MESSAGE])
    ensures TablesShow(PromoteAll(st, [MESSAGE], Tally(0, 0, 0)).0,
                       v.(delayed := None, queued := v.queued + [v.delayed.value.envelope]))
  {
    PromoteHead(st, v);
    hide PromoteOne, TablesShow, IsDuePage;
    var t := PromoteOne(st, MESSAGE, Tally(0, 0, 0));
    assert [MESSAGE][1..] == [];
    assert PromoteAll(st, [MESSAGE], Tally(0, 0, 0)).0 == PromoteAll(t.value.0, [], t.value.1).0 == t.value.0;
  }

  lemma PromoteHead(st: Store, v: View)
    requires TablesShow(st, v) && v.delayed.Some? && v.delayed.value.taskId == TASK && Ours(v.delayed.value.envelope)
    ensures |st.ready| == 4
    ensures IsDuePage(st.delayedDue, v.delayed.value.dueAt, 1, [MESSAGE])
    ensures var t := PromoteOne(st, MESSAGE, Tally(0, 0, 0));
            && t.Some? && |t.value.0.ready| == 4
            && TablesShow(t.value.0, v.(delayed := None, queued := v.queued + [v.delayed.value.envelope]))
  {
    var t := PromoteOne(st, MESSAGE, Tally(0, 0, 0)).value.0;
    assert t.ready == [[], [], v.queued + [v.delayed.value.envelope], []];
  }

  lemma PromoteStep(c: Config, s: System, v: View)
    requires Shows(s, v) && v.delayed.Some? && v.delayed.value.taskId == TASK && Ours(v.delayed.value.envelope)
    ensures var x := PromoteDue(v.delayed.value.dueAt, 1, [MESSAGE]);
            && Enabled(c, s, x)
            && Shows(Next(c, s, x), v.(delayed := None, queued := v.queued + [v.delayed.value.envelope]))
  {
    hide TablesShow, PromoteAll, IsDuePage;
    PromoteScript(s.store, v);
  }

  lemma TickStep(c: Config, s: System, v: View, to: Time)
    requires Shows(s, v) && v.clock <= to
    ensures Enabled(c, s, Tick(to)) && Shows(Next(c, s, Tick(to)), v.(clock := to))
  {
    hide TablesShow;
    SameTables(s.store, v, v.(clock := to));
  }

  function Recovering(v: View, phase: RecoveryPhase): View {
    v.(recoverers := map[0 := Recoverer(v.clock, [MESSAGE], phase)])
  }

  lemma DiscoverStep(c: Config, s: System, v: View)
    requires Shows(s, v) && v.held.Some? && v.held.value.1.deadline <= v.clock && v.recoverers == map[]
    ensures var x := Recover(0, Discover(v.clock, [MESSAGE], 1));
            Enabled(c, s, x) && Shows(Next(c, s, x), Recovering(v, Looking))
  {
  }

  /** An unlocked read of the held lease takes the recoverer from one phase to the next. */
  predicate Reading(v: View, x: RecovererStep, before: RecoveryPhase, after: RecoveryPhase)
    requires v.held.Some?
  {
    match x
    case ReadEnvelope => before.Looking? && after == GotEnvelope(Some(v.held.value.0))
    case ReadLease => before.GotEnvelope? && after == GotLease(before.envelope, Some(v.held.value.1))
    case ReadDurable(configured) =>
      before.GotLease? && !configured && after == Decided(before.envelope, before.lease, false)
    case _ => false
  }

  lemma ReaderMoves(s: System, v: View, x: RecovererStep, before: RecoveryPhase, after: RecoveryPhase)
    requires Shows(s, v) && v.held.Some? && v.recoverers == map[0 := Recoverer(v.clock, [MESSAGE], before)]
    requires Reading(v, x, before, after)
    ensures RecoverEnabled(s, 0, x) && NextReader(s, 0, x) == Recoverer(v.clock, [MESSAGE], after)
  {
    assert s.store.inflight[MESSAGE] == v.held.value.0 && s.store.leases[MESSAGE] == v.held.value.1;
    hide TablesShow;
  }

  lemma ReadSteps(c: Config, s: System, v: View, x: RecovererStep, before: RecoveryPhase, after: RecoveryPhase)
    requires Shows(s, v) && v.held.Some? && v.recoverers == map[0 := Recoverer(v.clock, [MESSAGE], before)]
    requires Reading(v, x, before, after)
    ensures Enabled(c, s, Recover(0, x)) && Shows(Next(c, s, Recover(0, x)), Recovering(v, after))
  {
    hide TablesShow, NextReader, RecoverEnabled;
    ReaderMoves(s, v, x, before, after);
    SameTables(s.store, v, Recovering(v, after));
    TablesAreFour(s.store, v);
    assert s.recoverers[0 := Recoverer(v.clock, [MESSAGE], after)] == Recovering(v, after).recoverers;
  }

  lemma TablesAreFour(st: Store, v: View)
    requires TablesShow(st, v)
    ensures |st.ready| == 4
  {
  }

  /** What the recovery of the held lease delays, if it may still be retried. */
  function Plan(c: Config, v: View, draw: Draw, id: RecordId): RecoveryPlan
    requires v.held.Some?
  {
    PlanRecovery(c.policy, c.maximumAttempts, MESSAGE, v.clock, Some(v.held.value.0), Some(v.held.value.1), draw, id)
  }

  predicate Retries(plan: RecoveryPlan) {
    plan.RetryPlan? ==> plan.entry.Scheduled? && plan.due == plan.entry.record.dueAt
  }

  function Recovered(v: View, plan: RecoveryPlan): View
    requires Retries(plan)
  {
    v.(held := None, delayed := if plan.RetryPlan? then Some(plan.entry.record) else None,
       recoverers := map[0 := Recoverer(v.clock, [], Looking)])
  }

  lemma RecoverScript(st: Store, v: View, plan: RecoveryPlan)
    requires TablesShow(st, v) && v.held.Some? && v.held.value.1.deadline <= v.clock && Ours(v.held.value.0)
    requires v.delayed.None? && Retries(plan)
    ensures TablesShow(RecoverOne(st, MESSAGE, v.clock, false, plan).0, Recovered(v, plan))
  {
    var released := ReleaseLease(st, MESSAGE);
    assert released.inflight == map[] && released.leases == map[] && released.leaseExpiry == map[];
    assert st.inflight[MESSAGE] == v.held.value.0;
  }

  lemma RecoverStep(c: Config, s: System, v: View, draw: Draw, id: RecordId)
    requires Shows(s, v) && v.held.Some? && v.held.value.1.deadline <= v.clock && Ours(v.held.value.0)
    requires v.delayed.None? && Retries(Plan(c, v, draw, id))
    requires v.recoverers ==
             map[0 := Recoverer(v.clock, [MESSAGE], Decided(Some(v.held.value.0), Some(v.held.value.1), false))]
    ensures var x := Recover(0, RunRecovery(draw, id));
            Enabled(c, s, x) && Shows(Next(c, s, x), Recovered(v, Plan(c, v, draw, id)))
  {
    hide TablesShow, RecoverOne, Plan, PlanOf;
    PlanIs(c, s, v, draw, id);
    RecoverScript(s.store, v, Plan(c, v, draw, id));
    TablesAreFour(s.store, v);
    assert [MESSAGE][1..] == [];
    assert s.recoverers[0 := Recoverer(v.clock, [], Looking)] == map[0 := Recoverer(v.clock, [], Looking)];
  }

  lemma PlanIs(c: Config, s: System, v: View, draw: Draw, id: RecordId)
    requires v.held.Some? && s.recoverers == v.recoverers
    requires v.recoverers ==
             map[0 := Recoverer(v.clock, [MESSAGE], Decided(Some(v.held.value.0), Some(v.held.value.1), false))]
    ensures PlanOf(c, s.recoverers[0], draw, id) == Plan(c, v, draw, id)
  {
    hide PlanRecovery;
  }

  lemma LeaveStep(c: Config, s: System, v: View)
    requires Shows(s, v) && v.recoverers.Keys == {0}
    ensures var x := Recover(0, CrashRecoverer); Enabled(c, s, x) && Shows(Next(c, s, x), v.(recoverers := map[]))
  {
    hide TablesShow;
    assert s.recoverers - {0} == map[];
    SameTables(s.store, v, v.(recoverers := map[]));
  }

  // ----- One delivery -----

  /** Every retry below the attempt limit is granted, to the dispatcher and to the recoverer alike. */
  predicate Generous(c: Config, draw: Draw) {
    && c.Valid() && c.policy.maximumAttempts <= c.maximumAttempts
    && forall k :: 1 <= k < c.policy.maximumAttempts ==> Decide(c.policy, k, true, None, 0.0, draw).retry
  }

  predicate Resting(v: View) {
    && v.held.None? && v.delayed.None? && v.workers == map[] && v.recoverers == map[]
    && forall i :: 0 <= i < |v.queued| ==> Ours(v.queued[i])
  }

  lemma DispatcherRetries(c: Config, d: Delivery, now: Time, draw: Draw) returns (r: RetryRecord)
    requires Generous(c, draw) && d.messageId == MESSAGE && d.taskId == TASK && d.state == Queued
    requires d.priority == NORMAL && d.attempt + 1 < c.policy.maximumAttempts
    ensures FailureRecord(c.policy, Rebuilt(d), BROKEN, now, now, draw) == Some(r)
    ensures r.messageId == MESSAGE && r.taskId == TASK && Ours(r.envelope) && r.envelope.attempt == d.attempt + 1
  {
    hide Decide;
    assert Decide(c.policy, d.attempt + 1, true, None, 0.0, draw).retry;
    r := FailureRecord(c.policy, Rebuilt(d), BROKEN, now, now, draw).value;
  }

  lemma RecovererRetriesIff(c: Config, v: View, draw: Draw, id: RecordId)
    requires Generous(c, draw) && v.held.Some? && Ours(v.held.value.0)
    ensures var plan := Plan(c, v, draw, id);
            && Retries(plan)
            && (plan.RetryPlan? <==> v.held.value.0.attempt + 1 < c.policy.maximumAttempts)
            && (plan.RetryPlan? ==> plan.entry.record.taskId == TASK && Ours(plan.entry.record.envelope)
                                    && plan.entry.record.envelope.attempt == v.held.value.0.attempt + 1)
  {
    var attempt := v.held.value.0.attempt + 1;
    if attempt >= c.policy.maximumAttempts {
      assert !Decide(c.policy, attempt, true, None, 0.0, draw).retry;
    } else {
      assert Decide(c.policy, attempt, true, None, 0.0, draw).retry;
    }
    hide Decide;
  }

  lemma Breaks(c: Config, s: System, xs: seq<Action>, v: View) returns (ys: seq<Action>)
    requires Leads(c, s, xs, v) && Alone(v) && v.workers[0].phase.Claimed?
    ensures Leads(c, s, ys, Moved(v, Dispatching(BROKEN)))
  {
    hide Next, Enabled, Shows, Leads, Moved;
    var failing := Moved(v, Failing(BROKEN));
    MovedTwice(v);
    Ends(c, s, xs, v);
    RaiseStep(c, After(c, s, xs), v);
    OneMore(c, s, xs, v, Work(0, Raise(OtherError)), failing);
    ys := xs + [Work(0, Raise(OtherError))];
    Ends(c, s, ys, failing);
    FailStep(c, After(c, s, ys), failing);
    OneMore(c, s, ys, failing, Work(0, RecordFailure), Moved(v, Dispatching(BROKEN)));
    ys := ys + [Work(0, RecordFailure)];
  }

  lemma MovedTwice(v: View)
    requires Alone(v)
    ensures var failing := Moved(v, Failing(BROKEN));
            && Alone(failing) && failing.workers[0].phase == Failing(BROKEN)
            && Moved(failing, Dispatching(BROKEN)) == Moved(v, Dispatching(BROKEN))
  {
  }

  /** The worker claims, fails, files its retry and crashes before it acknowledges; the retry is promoted. */
  lemma Dispatches(c: Config, s: System, v: View, draw: Draw) returns (xs: seq<Action>, next: Envelope)
    requires Generous(c, draw) && Shows(s, v) && Resting(v) && v.queued != []
    requires v.queued[0].attempt + 1 < c.policy.maximumAttempts
    ensures Ours(next) && next.attempt == v.queued[0].attempt + 1
    ensures Leads(c, s, xs, Taken(c, v).(workers := map[], queued := v.queued[1..] + [next]))
  {
    hide Next, Enabled, Shows, Leads, Generous, Resting, FailureRecord;
    Queueing(c, v);
    var v1 := Taken(c, v);
    xs := Claims(c, s, v, draw);
    var r := DispatcherRetries(c, v1.workers[0].delivery, v1.clock, draw);
    next := r.envelope;
    xs := Breaks(c, s, xs, v1);
    var v3 := Moved(v1, Dispatching(BROKEN));
    var v4 := Moved(v3, DispatchAcking).(delayed := Some(r));
    Ends(c, s, xs, v3);
    ScheduleStep(c, After(c, s, xs), v3, draw, r);
    OneMore(c, s, xs, v3, Work(0, ScheduleFailure(v3.clock, draw)), v4);
    xs := xs + [Work(0, ScheduleFailure(v3.clock, draw))];
    xs := Leaves(c, s, xs, v4);
    var v5 := v4.(workers := map[]);
    Ends(c, s, xs, v5);
    PromoteStep(c, After(c, s, xs), v5);
    OneMore(c, s, xs, v5, PromoteDue(r.dueAt, 1, [MESSAGE]), v5.(delayed := None, queued := v5.queued + [next]));
    xs := xs + [PromoteDue(r.dueAt, 1, [MESSAGE])];
  }

  lemma Queueing(c: Config, v: View)
    requires Resting(v) && v.queued != []
    ensures Ours(v.queued[0]) && v.held.None? && v.delayed.None? && v.workers == map[] && v.recoverers == map[]
    ensures Alone(Taken(c, v)) && Taken(c, v).workers[0].phase.Claimed? && Taken(c, v).delayed.None?
    ensures forall i :: 0 <= i < |v.queued[1..]| ==> Ours(v.queued[1..][i])
  {
  }

  lemma Ends(c: Config, s: System, xs: seq<Action>, v: View)
    requires Leads(c, s, xs, v)
    ensures |s.store.ready| == 4 && Run(c, s, xs) && |After(c, s, xs).store.ready| == 4 && Shows(After(c, s, xs), v)
  {
  }

  lemma Claims(c: Config, s: System, v: View, draw: Draw) returns (xs: seq<Action>)
    requires Generous(c, draw) && Shows(s, v)
    requires v.held.None? && v.workers == map[] && v.queued != [] && Ours(v.queued[0])
    ensures Leads(c, s, xs, Taken(c, v))
  {
    NoSteps(c, s, v);
    ClaimStep(c, s, v);
    hide Next, Enabled, Shows;
    OneMore(c, s, [], v, Work(0, ClaimNext(Owner(v), v.clock)), Taken(c, v));
    xs := [] + [Work(0, ClaimNext(Owner(v), v.clock))];
  }

  lemma Leaves(c: Config, s: System, xs: seq<Action>, v: View) returns (ys: seq<Action>)
    requires Leads(c, s, xs, v) && Alone(v)
    ensures Leads(c, s, ys, v.(workers := map[]))
  {
    Ends(c, s, xs, v);
    CrashStep(c, After(c, s, xs), v);
    hide Next, Enabled, Shows, Leads;
    OneMore(c, s, xs, v, Work(0, CrashWorker), v.(workers := map[]));
    ys := xs + [Work(0, CrashWorker)];
  }

  /** The clock runs out on the lease, and a recoverer reads it, settles it and leaves. */
  lemma Sweeps(c: Config, s: System, xs: seq<Action>, v: View, draw: Draw) returns (ys: seq<Action>)
    requires Generous(c, draw) && Leads(c, s, xs, v) && v.held.Some? && Ours(v.held.value.0) && v.delayed.None?
    requires v.workers == map[] && v.recoverers == map[] && v.clock <= v.held.value.1.deadline
    ensures var at := v.(clock := v.held.value.1.deadline);
            && Retries(Plan(c, at, draw, 0))
            && Leads(c, s, ys, Recovered(at, Plan(c, at, draw, 0)).(recoverers := map[]))
  {
    hide Next, Enabled, Shows, Leads, Generous, Plan, Recovered;
    var deadline := v.held.value.1.deadline;
    Ends(c, s, xs, v);
    TickStep(c, After(c, s, xs), v, deadline);
    var at := v.(clock := deadline);
    OneMore(c, s, xs, v, Tick(deadline), at);
    ys := xs + [Tick(deadline)];
    Ends(c, s, ys, at);
    DiscoverStep(c, After(c, s, ys), at);
    OneMore(c, s, ys, at, Recover(0, Discover(deadline, [MESSAGE], 1)), Recovering(at, Looking));
    ys := ys + [Recover(0, Discover(deadline, [MESSAGE], 1))];
    ys := Reads(c, s, ys, at);
    RecovererRetriesIff(c, at, draw, 0);
    var decided := Recovering(at, Decided(Some(at.held.value.0), Some(at.held.value.1), false));
    SamePlan(c, at, decided, draw);
    Ends(c, s, ys, decided);
    RecoverStep(c, After(c, s, ys), decided, draw, 0);
    var gone := Recovered(at, Plan(c, at, draw, 0));
    OneMore(c, s, ys, decided, Recover(0, RunRecovery(draw, 0)), gone);
    ys := ys + [Recover(0, RunRecovery(draw, 0))];
    Ends(c, s, ys, gone);
    LeaveStep(c, After(c, s, ys), gone);
    OneMore(c, s, ys, gone, Recover(0, CrashRecoverer), gone.(recoverers := map[]));
    ys := ys + [Recover(0, CrashRecoverer)];
  }

  lemma SamePlan(c: Config, at: View, decided: View, draw: Draw)
    requires at.held.Some? && decided == at.(recoverers := decided.recoverers) && Retries(Plan(c, at, draw, 0))
    ensures Plan(c, decided, draw, 0) == Plan(c, at, draw, 0)
    ensures Recovered(decided, Plan(c, at, draw, 0)) == Recovered(at, Plan(c, at, draw, 0))
    ensures Recovered(at, Plan(c, at, draw, 0)).recoverers.Keys == {0}
  {
  }

  lemma Reads(c: Config, s: System, xs: seq<Action>, at: View) returns (ys: seq<Action>)
    requires Leads(c, s, xs, Recovering(at, Looking)) && at.held.Some?
    ensures Leads(c, s, ys, Recovering(at, Decided(Some(at.held.value.0), Some(at.held.value.1), false)))
  {
    hide Next, Enabled, Shows, Leads;
    var p1 := GotEnvelope(Some(at.held.value.0));
    var p2 := GotLease(Some(at.held.value.0), Some(at.held.value.1));
    var p3 := Decided(Some(at.held.value.0), Some(at.held.value.1), false);
    Ends(c, s, xs, Recovering(at, Looking));
    ReadSteps(c, After(c, s, xs), Recovering(at, Looking), ReadEnvelope, Looking, p1);
    OneMore(c, s, xs, Recovering(at, Looking), Recover(0, ReadEnvelope), Recovering(at, p1));
    ys := xs + [Recover(0, ReadEnvelope)];
    Ends(c, s, ys, Recovering(at, p1));
    ReadSteps(c, After(c, s, ys), Recovering(at, p1), ReadLease, p1, p2);
    OneMore(c, s, ys, Recovering(at, p1), Recover(0, ReadLease), Recovering(at, p2));
    ys := ys + [Recover(0, ReadLease)];
    Ends(c, s, ys, Recovering(at, p2));
    ReadSteps(c, After(c, s, ys), Recovering(at, p2), ReadDurable(false), p2, p3);
    OneMore(c, s, ys, Recovering(at, p2), Recover(0, ReadDurable(false)), Recovering(at, p3));
    ys := ys + [Recover(0, ReadDurable(false))];
  }

  // ----- All deliveries -----

  /** One delivery takes an entry from the list and one from its weight: both copies come back while attempts are
      left, and none afterwards. */
  lemma Delivers(c: Config, s: System, v: View, draw: Draw) returns (xs: seq<Action>, u: View)
    requires Generous(c, draw) && Shows(s, v) && Resting(v) && v.queued != []
    ensures Leads(c, s, xs, u) && Resting(u)
    ensures u.claims == v.claims + 1 && WeightIn(c, u.queued, MESSAGE) + 1 == WeightIn(c, v.queued, MESSAGE)
  {
    hide Next, Enabled, Shows, Leads, Generous, FailureRecord, Plan;
    Queueing(c, v);
    var e := v.queued[0];
    if e.attempt + 1 < c.policy.maximumAttempts {
      var next;
      xs, next := Dispatches(c, s, v, draw);
      var held := Taken(c, v).(workers := map[], queued := v.queued[1..] + [next]);
      InTime(c, v, draw);
      xs := Sweeps(c, s, xs, held, draw);
      var at := held.(clock := held.held.value.1.deadline);
      RecovererRetriesIff(c, at, draw, 0);
      var plan := Plan(c, at, draw, 0);
      var settled := Recovered(at, plan).(recoverers := map[]);
      Ends(c, s, xs, settled);
      PromoteStep(c, After(c, s, xs), settled);
      var last := plan.entry.record.envelope;
      u := settled.(delayed := None, queued := settled.queued + [last]);
      OneMore(c, s, xs, settled, PromoteDue(plan.entry.record.dueAt, 1, [MESSAGE]), u);
      xs := xs + [PromoteDue(plan.entry.record.dueAt, 1, [MESSAGE])];
      TwoMore(c, v.queued, next, last);
    } else {
      xs := Claims(c, s, v, draw);
      xs := Leaves(c, s, xs, Taken(c, v));
      var held := Taken(c, v).(workers := map[]);
      InTime(c, v, draw);
      xs := Sweeps(c, s, xs, held, draw);
      var at := held.(clock := held.held.value.1.deadline);
      RecovererRetriesIff(c, at, draw, 0);
      u := Recovered(at, Plan(c, at, draw, 0)).(recoverers := map[]);
    }
  }

  lemma InTime(c: Config, v: View, draw: Draw)
    requires Generous(c, draw) && v.queued != [] && Ours(v.queued[0])
    ensures var t := Taken(c, v); t.clock <= t.held.value.1.deadline && Ours(t.held.value.0)
    ensures Taken(c, v).held.value.0.attempt == v.queued[0].attempt
  {
  }

  lemma TwoMore(c: Config, q: seq<Envelope>, a: Envelope, b: Envelope)
    requires q != [] && Ours(q[0]) && Ours(a) && Ours(b) && a.attempt == b.attempt == q[0].attempt + 1
    requires q[0].attempt + 1 < c.policy.maximumAttempts
    ensures WeightIn(c, q[1..] + [a] + [b], MESSAGE) + 1 == WeightIn(c, q, MESSAGE)
  {
    WeightInAppend(c, q[1..], a, MESSAGE);
    WeightInAppend(c, q[1..] + [a], b, MESSAGE);
  }

  lemma {:induction false} LeadsJoin(c: Config, s: System, xs: seq<Action>, v: View, ys: seq<Action>, u: View)
    requires Leads(c, s, xs, v) && Leads(c, After(c, s, xs), ys, u)
    ensures Leads(c, s, xs + ys, u)
    decreases xs
  {
    hide Next, Enabled, Shows;
    if xs == [] {
      assert xs + ys == ys;
    } else {
      assert (xs + ys)[1..] == xs[1..] + ys;
      LeadsJoin(c, Next(c, s, xs[0]), xs[1..], v, ys, u);
    }
  }

  lemma {:induction false} DeliversAll(c: Config, s: System, v: View, draw: Draw) returns (xs: seq<Action>, u: View)
    requires Generous(c, draw) && Shows(s, v) && Resting(v)
    ensures Leads(c, s, xs, u) && u.claims == v.claims + WeightIn(c, v.queued, MESSAGE)
    decreases WeightIn(c, v.queued, MESSAGE)
  {
    hide Next, Enabled, Shows, Leads, Generous, Resting;
    if v.queued == [] {
      NoSteps(c, s, v);
      xs, u := [], v;
    } else {
      var next;
      xs, next := Delivers(c, s, v, draw);
      Ends(c, s, xs, next);
      var ys;
      ys, u := DeliversAll(c, After(c, s, xs), next, draw);
      LeadsJoin(c, s, xs, next, ys, u);
      xs := xs + ys;
    }
  }

  function Letter(): Envelope { Envelope(MESSAGE, TASK, Queued, 0, NORMAL, None) }

  lemma Begins(c: Config) returns (xs: seq<Action>)
    ensures Leads(c, INITIAL, xs, View([Letter()], None, None, map[], map[], 0.0, 0))
  {
    var x, y := SetDurable(TASK, Queued), EnqueueTask(0, MESSAGE, TASK, Queued, NORMAL);
    var s := Next(c, INITIAL, x);
    var t := Next(c, s, y);
    assert EMPTY.ready[2] + [Letter()] == [Letter()];
    assert t.store.ready == EMPTY.ready[2 := [Letter()]] == [[], [], [Letter()], []];
    assert Shows(t, View([Letter()], None, None, map[], map[], 0.0, 0));
    hide Next, Enabled, Shows;
    xs := [x, y];
    assert [x, y][1..] == [y] && [y][1..] == [];
    assert Run(c, t, []) && Run(c, s, [y]);
    assert After(c, INITIAL, xs) == After(c, s, [y]) == t;
  }

  /** Whenever the policy grants every retry below its attempt limit, some run from the empty queue claims one
      message 2^maximum_attempts - 1 times: the bound of ClaimPotential cannot be lowered. */
  lemma ClaimBoundAttained(c: Config, draw: Draw) returns (xs: seq<Action>)
    requires Generous(c, draw)
    ensures Run(c, INITIAL, xs)
    ensures var t := After(c, INITIAL, xs);
            && MESSAGE in t.issued && t.issued[MESSAGE].attempt == 0
            && MESSAGE in t.claims && t.claims[MESSAGE] == FullCap(c, 0)
    ensures FullCap(c, 0) == Power(c.policy.maximumAttempts) - 1
  {
    hide Next, Enabled, TablesShow, Leads;
    xs := Begins(c);
    var v := View([Letter()], None, None, map[], map[], 0.0, 0);
    Ends(c, INITIAL, xs, v);
    var ys, u := DeliversAll(c, After(c, INITIAL, xs), v, draw);
    LeadsJoin(c, INITIAL, xs, v, ys, u);
    xs := xs + ys;
    Ends(c, INITIAL, xs, u);
    WeightIsCap(c, 0);
    hide Run, After;
  }
}
