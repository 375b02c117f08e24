/** Any number of engines run, crash and resume the same task over one checkpoint store.  Reading the list
    and opening an iteration is one step, the append after the handler another. */
module WorkflowConcurrency {
  import opened Checkpoints
  import opened Workflows
  import opened WorkflowProperties

  type EngineId = int

  datatype Phase = AtLoop | Calling(hash: Hash, length: nat)

  datatype Engine = Engine(config: Config, flow: Flow, phase: Phase)

  datatype Shared = Shared(items: seq<Checkpoint>, engines: map<EngineId, Engine>)

  datatype Action =
    | Launch(engine: EngineId, config: Config, flow: Flow)
    | OpenLoop(engine: EngineId, iteration: nat)
    | Answer(engine: EngineId, outcome: HandlerOutcome)
    | Crash(engine: EngineId)

  predicate Enabled(s: Shared, x: Action) {
    match x
    case Launch(a, _, flow) => a !in s.engines && flow.stage.Receive?
    case OpenLoop(a, _) => a in s.engines && s.engines[a].phase.AtLoop?
    case Answer(a, _) => a in s.engines && s.engines[a].phase.Calling? && !Halted(s.engines[a].flow.stage)
    case Crash(a) => a in s.engines
  }

  function Continue(s: Shared, a: EngineId, v: Verdict): Shared
    requires a in s.engines
  {
    match v
    case Go(f) => s.(engines := s.engines[a := s.engines[a].(flow := f, phase := AtLoop)])
    case End(_, _) => s.(engines := s.engines - {a})
  }

  function Next(w: World, task: TaskId, s: Shared, x: Action): Shared
    requires Enabled(s, x)
  {
    match x
    case Launch(a, config, flow) =>
      (match Resume(flow, s.items)
       case Go(f) => s.(engines := s.engines[a := Engine(config, f, AtLoop)])
       case End(_, _) => s)
    case OpenLoop(a, i) => NextOpen(w, s, a, i)
    case Answer(a, outcome) =>
      var e := s.engines[a];
      var (v, kept) := Finish(e.config, w, task, e.flow, e.phase.hash, e.phase.length, s.items, outcome);
      Continue(s, a, v).(items := kept)
    case Crash(a) => s.(engines := s.engines - {a})
  }

  function NextOpen(w: World, s: Shared, a: EngineId, i: nat): Shared
    requires a in s.engines
  {
    var e := s.engines[a];
    if Halted(e.flow.stage) then s.(engines := s.engines - {a})
    else
      match Open(e.config, w, e.flow, s.items, i)
      case Stop(_, _) => s.(engines := s.engines - {a})
      case Skip => Continue(s, a, Go(e.flow.(stage := NextStage(e.flow.stage).value)))
      case Invoke(hash) => s.(engines := s.engines[a := e.(phase := Calling(hash, |s.items|))])
  }

  ghost predicate Run(w: World, task: TaskId, s: Shared, xs: seq<Action>)
    decreases xs
  {
    xs != [] ==> Enabled(s, xs[0]) && Run(w, task, Next(w, task, s, xs[0]), xs[1..])
  }

  ghost function After(w: World, task: TaskId, s: Shared, xs: seq<Action>): Shared
    requires Run(w, task, s, xs)
    decreases xs
  {
    if xs == [] then s else After(w, task, Next(w, task, s, xs[0]), xs[1..])
  }

  // ----- Checkpoints under concurrency -----

  ghost predicate Kept(s: Shared) {
    && WellKept(s.items)
    && forall a :: a in s.engines && s.engines[a].phase.Calling? ==> s.engines[a].phase.length <= |s.items|
  }

  lemma StepAppends(w: World, task: TaskId, s: Shared, x: Action)
    requires Kept(s) && Enabled(s, x)
    ensures Kept(Next(w, task, s, x)) && s.items <= Next(w, task, s, x).items
  {
    hide WellKept, Resume, Open, AppendTo;
    if x.Answer? && x.outcome.Answered? {
      var e := s.engines[x.engine];
      AppendKeeps(s.items, Checkpoint(task, e.flow.stage, e.phase.length + 1, e.phase.hash,
                                      w.hash(x.outcome.result.output), x.outcome.result.evidence));
    }
  }

  lemma RecordedMore(items: seq<Checkpoint>, more: seq<Checkpoint>, stage: Stage, hash: Hash)
    requires items <= more && Recorded(items, stage, hash)
    ensures Recorded(more, stage, hash)
  {
    var k :| 0 <= k < |items| && Matches(items[k], stage, hash);
    assert more[k] == items[k];
  }

  /** Along every run the list only grows at its end and stays well kept. */
  lemma {:induction false} RunAppends(w: World, task: TaskId, s: Shared, xs: seq<Action>)
    requires Kept(s) && Run(w, task, s, xs)
    ensures Kept(After(w, task, s, xs)) && s.items <= After(w, task, s, xs).items
    decreases xs
  {
    hide Kept, Next, Enabled;
    if xs == [] {
    } else {
      StepAppends(w, task, s, xs[0]);
      RunAppends(w, task, Next(w, task, s, xs[0]), xs[1..]);
    }
  }

  /** Once a stage is recorded for an input, no engine that opens an iteration at that stage and input,
      however much later, calls its handler: it skips unless it stops. */
  lemma RecordedNeverCalledAgain(w: World, task: TaskId, s: Shared, xs: seq<Action>, stage: Stage, hash: Hash,
                                 a: EngineId, i: nat)
    requires Kept(s) && Run(w, task, s, xs) && Recorded(s.items, stage, hash)
    requires var t := After(w, task, s, xs);
             && Enabled(t, OpenLoop(a, i)) && t.engines[a].flow.stage == stage
                && w.hash(t.engines[a].flow.payload) == hash
    ensures var t := After(w, task, s, xs); !Open(t.engines[a].config, w, t.engines[a].flow, t.items, i).Invoke?
  {
    RunAppends(w, task, s, xs);
    RecordedMore(s.items, After(w, task, s, xs).items, stage, hash);
  }

  /** Engines race for a place in the list: an accepted answer is lost to a sequence conflict exactly when
      its pair is not recorded yet and another engine has appended since the list was read. */
  lemma ConflictIffOvertaken(w: World, task: TaskId, s: Shared, a: EngineId, result: StageResult)
    requires Kept(s) && Enabled(s, Answer(a, Answered(result))) && !result.approvalPending && !result.approvalDenied
    ensures var e := s.engines[a];
            var (v, kept) := Finish(e.config, w, task, e.flow, e.phase.hash, e.phase.length, s.items, Answered(result));
            && ((v.End? && v.ending.SequenceConflict?) <==>
               !Recorded(s.items, e.flow.stage, e.phase.hash) && e.phase.length < |s.items|)
            && (v.End? && v.ending.SequenceConflict? ==> kept == s.items)
  {
    hide RecordFindings, WellKept;
  }

  // ----- Stage coverage under concurrency -----

  ghost predicate Coherent(s: Shared) {
    && AllCovered(s.items)
    && forall a :: a in s.engines ==> Covered(s.items, s.engines[a].flow.stage)
  }

  /** The step takes an engine from a stage before EXECUTE_TOOLS into a corrective round. */
  predicate Jumps(w: World, task: TaskId, s: Shared, x: Action)
    requires Enabled(s, x)
  {
    x.Answer? &&
    var e := s.engines[x.engine];
    JumpsAhead(e.flow.stage, Finish(e.config, w, task, e.flow, e.phase.hash, e.phase.length, s.items, x.outcome).0)
  }

  lemma EngineCovered(s: Shared, a: EngineId)
    requires Coherent(s) && a in s.engines
    ensures Covered(s.items, s.engines[a].flow.stage) && AllCovered(s.items)
  {
  }

  lemma StillCoherent(s: Shared, t: Shared)
    requires Coherent(s) && s.items <= t.items && AllCovered(t.items)
    requires forall a :: a in t.engines ==>
               (a in s.engines && t.engines[a].flow.stage == s.engines[a].flow.stage)
                   || Covered(t.items, t.engines[a].flow.stage)
    ensures Coherent(t)
  {
    forall a | a in t.engines ensures Covered(t.items, t.engines[a].flow.stage) {
      if a in s.engines && t.engines[a].flow.stage == s.engines[a].flow.stage {
        CoveredMore(s.items, t.items, s.engines[a].flow.stage);
      }
    }
  }

  lemma LaunchCovered(items: seq<Checkpoint>, flow: Flow)
    requires AllCovered(items) && flow.stage.Receive? && Resume(flow, items).Go?
    ensures Covered(items, Resume(flow, items).flow.stage)
  {
    if items == [] {
      NothingNeeded(items);
    } else {
      var k := |items| - 1;
      assert Covered(items[..k], items[k].stage);
      CoveredMore(items[..k], items, items[k].stage);
      assert Has(items, items[k].stage);
      NextCovered(items, items[k].stage);
    }
  }

  lemma StepCovers(w: World, task: TaskId, s: Shared, x: Action)
    requires Coherent(s) && Enabled(s, x) && !Jumps(w, task, s, x)
    ensures Coherent(Next(w, task, s, x))
  {
    hide Coherent, Covered, AllCovered, Open, Finish;
    var t := Next(w, task, s, x);
    CoherentList(s);
    match x
    case Launch(a, config, flow) =>
      if Resume(flow, s.items).Go? {
        LaunchCovered(s.items, flow);
      }
      hide Resume;
      StillCoherent(s, t);
    case OpenLoop(a, i) =>
      OpenCovers(w, s, a, i);
    case Answer(a, outcome) =>
      var e := s.engines[a];
      EngineCovered(s, a);
      FinishCoversIff(e.config, w, task, e.flow, e.phase.hash, e.phase.length, s.items, outcome);
      StillCoherent(s, t);
    case Crash(a) => StillCoherent(s, t);
  }

  lemma CoherentList(s: Shared)
    requires Coherent(s)
    ensures AllCovered(s.items)
  {
  }

  lemma OpenCovers(w: World, s: Shared, a: EngineId, i: nat)
    requires Coherent(s) && a in s.engines
    ensures Coherent(NextOpen(w, s, a, i))
  {
    hide Coherent, AllCovered, Covered;
    EngineCovered(s, a);
    var e := s.engines[a];
    if !Halted(e.flow.stage) && Open(e.config, w, e.flow, s.items, i).Skip? {
      var k :| 0 <= k < |s.items| && Matches(s.items[k], e.flow.stage, w.hash(e.flow.payload));
      assert Has(s.items, e.flow.stage);
      NextCovered(s.items, e.flow.stage);
    }
    StillCoherent(s, NextOpen(w, s, a, i));
  }

  ghost predicate NeverJumps(w: World, task: TaskId, s: Shared, xs: seq<Action>)
    requires Run(w, task, s, xs)
    decreases xs
  {
    xs != [] ==> !Jumps(w, task, s, xs[0]) && NeverJumps(w, task, Next(w, task, s, xs[0]), xs[1..])
  }

  /** Corrections only at EXECUTE_TOOLS or later: at every checkpoint, by whichever engine, all earlier
      stages had been checkpointed, and an engine that reached COMPLETED has all fifteen behind it. */
  lemma {:induction false} RunCovers(w: World, task: TaskId, s: Shared, xs: seq<Action>)
    requires Coherent(s) && Run(w, task, s, xs) && NeverJumps(w, task, s, xs)
    ensures var t := After(w, task, s, xs);
            && AllCovered(t.items)
            && forall a :: a in t.engines && t.engines[a].flow.stage.Completed? ==>
                 forall stage :: Position(stage) < 15 ==> Has(t.items, stage)
    decreases xs
  {
    if xs == [] {
      forall a | a in s.engines && s.engines[a].flow.stage.Completed?
        ensures forall stage :: Position(stage) < 15 ==> Has(s.items, stage)
      {
        assert forall stage :: Position(stage) < 15 ==> Needs(Completed, stage);
      }
    } else {
      StepCovers(w, task, s, xs[0]);
      hide Coherent, Next, Enabled, Jumps;
      RunCovers(w, task, Next(w, task, s, xs[0]), xs[1..]);
    }
  }

  lemma EmptyIsCoherent()
    ensures Coherent(Shared([], map[])) && Kept(Shared([], map[]))
  {
  }

  /** The two together for a store that begins empty: the sequence is kept and every checkpoint stands on all
      the stages before it. */
  lemma FreshStoreCovers(w: World, task: TaskId, xs: seq<Action>)
    requires Run(w, task, Shared([], map[]), xs) && NeverJumps(w, task, Shared([], map[]), xs)
    ensures var t := After(w, task, Shared([], map[]), xs);
            && WellKept(t.items) && AllCovered(t.items)
            && forall a :: a in t.engines && t.engines[a].flow.stage.Completed? ==>
                 forall stage :: Position(stage) < 15 ==> Has(t.items, stage)
  {
    EmptyIsCoherent();
    RunAppends(w, task, Shared([], map[]), xs);
    RunCovers(w, task, Shared([], map[]), xs);
  }
}
