/** What a crash forgets: runs of several engines in turn over one store. */
module WorkflowResumes {
  import opened Options
  import opened Checkpoints
  import opened Workflows
  import opened WorkflowProperties
  import opened WorkflowConcurrency
  import opened WorkflowReviews

  ghost predicate Path(w: World, task: TaskId, s: Shared, xs: seq<Action>, t: Shared) {
    Run(w, task, s, xs) && After(w, task, s, xs) == t
  }

  lemma {:induction false} PathsJoin(w: World, task: TaskId, s: Shared, xs: seq<Action>, t: Shared, ys: seq<Action>,
                                     u: Shared)
    requires Path(w, task, s, xs, t) && Path(w, task, t, ys, u)
    ensures Path(w, task, s, xs + ys, u)
    decreases xs
  {
    if xs == [] {
      assert xs + ys == ys;
    } else {
      assert (xs + ys)[1..] == xs[1..] + ys;
      PathsJoin(w, task, Next(w, task, s, xs[0]), xs[1..], t, ys, u);
    }
  }

  // ----- A correction accepted and lost -----

  /** In every state: an engine that has accepted a correction goes into a corrective round, but if it crashes
      there, the engine that takes over goes on behind the stage that asked for it. */
  lemma CrashSkipsCorrection(w: World, task: TaskId, s: Shared, a: EngineId, result: StageResult, b: EngineId,
                             config: Config, flow: Flow)
    requires Enabled(s, Answer(a, Answered(result)))
    requires var e := s.engines[a];
             var (v, kept) := Finish(e.config, w, task, e.flow, e.phase.hash, e.phase.length, s.items,
                                     Answered(result));
             v.Go? && v.flow.stage.CorrectiveRound? && |kept| > |s.items|
    requires b !in s.engines && flow.stage.Receive?
    ensures Run(w, task, s, [Answer(a, Answered(result)), Crash(a), Launch(b, config, flow)])
    ensures var t := After(w, task, s, [Answer(a, Answered(result)), Crash(a), Launch(b, config, flow)]);
            && a in Next(w, task, s, Answer(a, Answered(result))).engines
            && Next(w, task, s, Answer(a, Answered(result))).engines[a].flow.stage.CorrectiveRound?
            && t.engines.Keys == s.engines.Keys - {a} + {b}
            && t.engines[b] ==
               Engine(config, flow.(stage := NextStage(s.engines[a].flow.stage).value), AtLoop)
            && !t.engines[b].flow.stage.CorrectiveRound?
  {
    var e := s.engines[a];
    RejectionForgotten(e.config, w, task, e.flow, e.phase.hash, e.phase.length, s.items, Answered(result), flow);
    hide Finish, Resume;
    var x, y, z := Answer(a, Answered(result)), Crash(a), Launch(b, config, flow);
    var s1 := Next(w, task, s, x);
    var s2 := Next(w, task, s1, y);
    var s3 := Next(w, task, s2, z);
    assert [x, y, z][1..] == [y, z] && [y, z][1..] == [z] && [z][1..] == [];
    assert Run(w, task, s3, []) && Run(w, task, s2, [z]) && Run(w, task, s1, [y, z]);
    assert After(w, task, s, [x, y, z]) == After(w, task, s1, [y, z]) == After(w, task, s2, [z]) == s3;
  }

  // ----- Engines that work alone -----

  function Alone(items: seq<Checkpoint>, a: EngineId, c: Config, flow: Flow): Shared {
    Shared(items, map[a := Engine(c, flow, AtLoop)])
  }

  function Silent(blocks: bool): HandlerOutcome { Answered(StageResult(map[], [], [], blocks, false, false)) }

  function Point(w: World, task: TaskId, items: seq<Checkpoint>, flow: Flow): Checkpoint {
    Checkpoint(task, flow.stage, |items| + 1, w.hash(flow.payload), w.hash(map[]), [])
  }

  function Answering(flow: Flow, blocks: bool): Flow
    requires !Halted(flow.stage)
  {
    if blocks then flow.(rounds := flow.rounds + 1, stage := CorrectiveRound)
    else flow.(stage := NextStage(flow.stage).value)
  }

  lemma OneStage(w: World, task: TaskId, items: seq<Checkpoint>, a: EngineId, c: Config, flow: Flow, i: nat,
                 blocks: bool)
    requires !Halted(flow.stage) && flow.stage in c.registered && !flow.cancelled && !w.cancelled(i) && !w.late(i)
    requires !Recorded(items, flow.stage, w.hash(flow.payload)) && (blocks ==> flow.rounds < c.maxRounds)
    ensures Path(w, task, Alone(items, a, c, flow), [OpenLoop(a, i), Answer(a, Silent(blocks))],
                 Alone(items + [Point(w, task, items, flow)], a, c, Answering(flow, blocks)))
  {
    var s := Alone(items, a, c, flow);
    var x, y := OpenLoop(a, i), Answer(a, Silent(blocks));
    var hash := w.hash(flow.payload);
    var s1 := Shared(items, map[a := Engine(c, flow, Calling(hash, |items|))]);
    assert Next(w, task, s, x) == s1;
    var s2 := Alone(items + [Point(w, task, items, flow)], a, c, Answering(flow, blocks));
    assert Next(w, task, s1, y) == s2 by {
      assert flow.payload + map[] == flow.payload;
      assert Finish(c, w, task, flow, hash, |items|, items, Silent(blocks)) ==
             (Go(Answering(flow, blocks)), items + [Point(w, task, items, flow)]);
    }
    hide Next, Finish;
    assert [x, y][1..] == [y] && [y][1..] == [];
    assert Run(w, task, s2, []) && Run(w, task, s1, [y]);
    assert After(w, task, s, [x, y]) == After(w, task, s1, [y]) == s2;
  }

  // ----- A draft that no review has passed -----

  /** Engine a takes the stages from position p to q in turn; the blind review asks for a correction. */
  function Stages(a: EngineId, p: nat, q: nat): seq<Action>
    decreases q - p
  {
    if p >= q then [] else [OpenLoop(a, p), Answer(a, Silent(p == 11))] + Stages(a, p + 1, q)
  }

  ghost predicate Upto(items: seq<Checkpoint>, p: nat) {
    forall k :: 0 <= k < |items| ==> Position(items[k].stage) < p
  }

  function StageAt(p: nat): Stage
    requires p < 16
  {
    ORDER[p]
  }

  function Reached(flow: Flow, q: nat): Flow
    requires q < 16
  {
    if q == 12 then flow.(rounds := flow.rounds + 1, stage := CorrectiveRound) else flow.(stage := StageAt(q))
  }

  lemma StageRun(hash: Payload -> Hash, fingerprint: string -> Fingerprint, task: TaskId, items: seq<Checkpoint>,
                 a: EngineId, c: Config, flow: Flow, p: nat)
    returns (kept: seq<Checkpoint>)
    requires AllRegistered(c) && !flow.cancelled && flow.rounds < c.maxRounds
    requires p < 15 && flow.stage == StageAt(p) && Upto(items, p)
    ensures Path(Stubborn(hash, fingerprint), task, Alone(items, a, c, flow),
                 [OpenLoop(a, p), Answer(a, Silent(p == 11))], Alone(kept, a, c, Reached(flow, p + 1)))
    ensures Upto(kept, p + 1) && kept != [] && kept[|kept| - 1].stage == StageAt(p)
  {
    var w := Stubborn(hash, fingerprint);
    InOrder(p);
    assert !Recorded(items, flow.stage, hash(flow.payload));
    OneStage(w, task, items, a, c, flow, p, p == 11);
    kept := items + [Point(w, task, items, flow)];
    hide Path;
  }

  lemma {:induction false} StagesRun(hash: Payload -> Hash, fingerprint: string -> Fingerprint, task: TaskId,
                                     items: seq<Checkpoint>, a: EngineId, c: Config, flow: Flow, p: nat, q: nat)
    returns (kept: seq<Checkpoint>)
    requires AllRegistered(c) && !flow.cancelled && flow.rounds < c.maxRounds
    requires p < q <= 15 && (q <= 12 || p >= 12) && flow.stage == StageAt(p) && Upto(items, p)
    ensures Path(Stubborn(hash, fingerprint), task, Alone(items, a, c, flow), Stages(a, p, q),
                 Alone(kept, a, c, Reached(flow, q)))
    ensures Upto(kept, q) && kept != [] && kept[|kept| - 1].stage == StageAt(q - 1)
    decreases q - p
  {
    hide Path, Stubborn, Upto, AllRegistered, Silent, StageAt, Alone;
    var w := Stubborn(hash, fingerprint);
    kept := StageRun(hash, fingerprint, task, items, a, c, flow, p);
    var xs := [OpenLoop(a, p), Answer(a, Silent(p == 11))];
    if p + 1 == q {
      assert Stages(a, p + 1, q) == [];
      assert Stages(a, p, q) == xs;
    } else {
      var next := Reached(flow, p + 1);
      var middle := Alone(kept, a, c, next);
      kept := StagesRun(hash, fingerprint, task, kept, a, c, next, p + 1, q);
      PathsJoin(w, task, Alone(items, a, c, flow), xs, middle, Stages(a, p + 1, q),
                Alone(kept, a, c, Reached(next, q)));
    }
  }

  lemma InOrder(p: nat)
    requires p < 16
    ensures Position(ORDER[p]) == p
    ensures p < 15 ==> NextStage(ORDER[p]) == Some(ORDER[p + 1])
  {
  }

  lemma StepPath(w: World, task: TaskId, s: Shared, x: Action)
    requires Enabled(s, x)
    ensures Path(w, task, s, [x], Next(w, task, s, x))
  {
    var t := Next(w, task, s, x);
    assert [x][1..] == [];
    assert Run(w, task, t, []);
  }

  lemma LaunchPath(w: World, task: TaskId, items: seq<Checkpoint>, a: EngineId, c: Config, flow: Flow, f: Flow)
    requires flow.stage.Receive? && Resume(flow, items) == Go(f)
    ensures Path(w, task, Shared(items, map[]), [Launch(a, c, flow)], Alone(items, a, c, f))
  {
    StepPath(w, task, Shared(items, map[]), Launch(a, c, flow));
    hide Path;
  }

  lemma CrashPath(w: World, task: TaskId, items: seq<Checkpoint>, a: EngineId, c: Config, flow: Flow)
    ensures Path(w, task, Alone(items, a, c, flow), [Crash(a)], Shared(items, map[]))
  {
    StepPath(w, task, Alone(items, a, c, flow), Crash(a));
    hide Path;
    assert map[a := Engine(c, flow, AtLoop)] - {a} == map[];
  }

  /** From the empty store, with any configuration, payload and digest: the blind review asks for a correction,
      the engine accepts it and crashes in the corrective round, and the next engine prepares the draft and
      completes.  No corrective round was run and no review was asked again. */
  lemma CrashedReviewCompletes(hash: Payload -> Hash, fingerprint: string -> Fingerprint, task: TaskId, c: Config,
                               flow: Flow)
    returns (xs: seq<Action>, ys: seq<Action>)
    requires AllRegistered(c) && !flow.cancelled && flow.stage.Receive? && flow.rounds < c.maxRounds
    ensures var w := Stubborn(hash, fingerprint);
            var s := Shared([], map[]);
            && Run(w, task, s, xs) && 0 in After(w, task, s, xs).engines
            && After(w, task, s, xs).engines[0].flow.stage.CorrectiveRound?
            && xs <= ys && Run(w, task, s, ys) && 1 in After(w, task, s, ys).engines
            && After(w, task, s, ys).engines[1].flow.stage.Completed?
            && !Has(After(w, task, s, ys).items, CorrectiveRound)
            && Answer(0, Silent(true)) in xs && Answer(1, Silent(true)) !in ys
  {
    hide Path, Stubborn, AllRegistered, Stages, StageAt;
    var w := Stubborn(hash, fingerprint);
    var s := Shared([], map[]);
    FirstAndLast();
    LaunchPath(w, task, [], 0, c, flow, flow);
    var half := StagesRun(hash, fingerprint, task, [], 0, c, flow, 0, 12);
    xs := [Launch(0, c, flow)] + Stages(0, 0, 12);
    var blocked := Alone(half, 0, c, Reached(flow, 12));
    PathsJoin(w, task, s, [Launch(0, c, flow)], Alone([], 0, c, flow), Stages(0, 0, 12), blocked);
    CrashPath(w, task, half, 0, c, Reached(flow, 12));
    var f := flow.(stage := SecurityReview);
    LaunchPath(w, task, half, 1, c, flow, f);
    PathsJoin(w, task, blocked, [Crash(0)], Shared(half, map[]), [Launch(1, c, flow)], Alone(half, 1, c, f));
    var all := StagesRun(hash, fingerprint, task, half, 1, c, f, 12, 15);
    var zs := [Crash(0)] + [Launch(1, c, flow)];
    PathsJoin(w, task, blocked, zs, Alone(half, 1, c, f), Stages(1, 12, 15), Alone(all, 1, c, Reached(f, 15)));
    ys := xs + (zs + Stages(1, 12, 15));
    PathsJoin(w, task, s, xs, blocked, zs + Stages(1, 12, 15), Alone(all, 1, c, Reached(f, 15)));
    PathEnds(w, task, s, xs, blocked);
    PathEnds(w, task, s, ys, Alone(all, 1, c, Reached(f, 15)));
    BlockedOnce();
  }

  lemma PathEnds(w: World, task: TaskId, s: Shared, xs: seq<Action>, t: Shared)
    requires Path(w, task, s, xs, t)
    ensures Run(w, task, s, xs) && After(w, task, s, xs) == t
  {
  }

  lemma FirstAndLast()
    ensures StageAt(0) == Receive && StageAt(11) == BlindReview && StageAt(12) == SecurityReview
    ensures StageAt(15) == Completed
  {
  }

  lemma BlockedOnce()
    ensures Answer(0, Silent(true)) in Stages(0, 0, 12)
    ensures Answer(1, Silent(true)) !in Stages(0, 0, 12) && Answer(1, Silent(true)) !in Stages(1, 12, 15)
  {
    StagesAnswers(0, 0, 12);
    StagesAnswers(1, 12, 15);
  }

  lemma {:induction false} StagesAnswers(a: EngineId, p: nat, q: nat)
    ensures forall b :: Answer(b, Silent(true)) in Stages(a, p, q) <==> b == a && p <= 11 < q
    decreases q - p
  {
    if p >= q {
    } else {
      StagesAnswers(a, p + 1, q);
    }
  }

  // ----- Corrective rounds start over -----

  /** Engine k meets the task with payload k, is sent into a corrective round, finishes it and crashes. */
  function Numbered(k: nat): Flow { Flow(map["n" := k], Receive, 0, map[], false) }

  function Digits(): World {
    World(i => false, i => false, (i, stage, payload) => Raised,
          payload => if "n" in payload then payload["n"] else 0, finding => 0)
  }

  function Round(c: Config, k: nat): seq<Action> {
    [Launch(k, c, Numbered(k))] + [OpenLoop(k, 0), Answer(k, Silent(true))] +
    [OpenLoop(k, 1), Answer(k, Silent(false))] + [Crash(k)]
  }

  function Rounds(c: Config, n: nat): seq<Action> {
    if n == 0 then [] else Rounds(c, n - 1) + Round(c, n - 1)
  }

  ghost predicate RoundsKept(items: seq<Checkpoint>, n: nat) {
    && |items| == 2 * n
    && (forall k :: 0 <= k < |items| ==> items[k].inputHash < n)
    && forall k :: 0 <= k < n ==> items[2 * k + 1].stage.CorrectiveRound?
  }

  lemma RoundRun(task: TaskId, c: Config, items: seq<Checkpoint>, n: nat) returns (kept: seq<Checkpoint>)
    requires AllRegistered(c) && c.maxRounds > 0 && RoundsKept(items, n)
    ensures RoundsKept(kept, n + 1)
    ensures Path(Digits(), task, Shared(items, map[]), Round(c, n), Shared(kept, map[]))
  {
    var w := Digits();
    var s := Shared(items, map[]);
    assert n > 0 ==> items[2 * (n - 1) + 1].stage.CorrectiveRound?;
    var f := Resume(Numbered(n), items).flow;
    assert !Recorded(items, f.stage, n);
    LaunchPath(w, task, items, n, c, Numbered(n), f);
    OneStage(w, task, items, n, c, f, 0, true);
    var one := items + [Point(w, task, items, f)];
    var g := Answering(f, true);
    assert !Recorded(one, CorrectiveRound, n);
    OneStage(w, task, one, n, c, g, 1, false);
    kept := one + [Point(w, task, one, g)];
    var h := Answering(g, false);
    CrashPath(w, task, kept, n, c, h);
    hide Path;
    var x0, x1, x2 := [Launch(n, c, Numbered(n))], [OpenLoop(n, 0), Answer(n, Silent(true))],
      [OpenLoop(n, 1), Answer(n, Silent(false))];
    PathsJoin(w, task, s, x0, Alone(items, n, c, f), x1, Alone(one, n, c, g));
    PathsJoin(w, task, s, x0 + x1, Alone(one, n, c, g), x2, Alone(kept, n, c, h));
    PathsJoin(w, task, s, x0 + x1 + x2, Alone(kept, n, c, h), [Crash(n)], Shared(kept, map[]));
  }

  /** Rounds are counted in the run's own object: however few are allowed, crashes and resumed runs go through
      any number of them. */
  lemma {:induction false} RoundsStartOver(task: TaskId, c: Config, n: nat) returns (items: seq<Checkpoint>)
    requires AllRegistered(c) && c.maxRounds > 0
    ensures Path(Digits(), task, Shared([], map[]), Rounds(c, n), Shared(items, map[]))
    ensures RoundsKept(items, n)
  {
    if n == 0 {
      items := [];
    } else {
      var before := RoundsStartOver(task, c, n - 1);
      items := RoundRun(task, c, before, n - 1);
      hide Path;
      PathsJoin(Digits(), task, Shared([], map[]), Rounds(c, n - 1), Shared(before, map[]), Round(c, n - 1),
                Shared(items, map[]));
    }
  }
}
