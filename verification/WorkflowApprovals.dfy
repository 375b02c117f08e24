/** What a pending or refused approval stops: with any number of engines, crashes and resumed runs over one store,
    nothing behind OBTAIN_APPROVAL happens before an answer of that stage is accepted, unless a correction is asked
    for before it. */
module WorkflowApprovals {
  import opened Options
  import opened Checkpoints
  import opened Workflows
  import opened WorkflowProperties
  import opened WorkflowConcurrency
  import WorkflowResumes

  /** The handler answered, and neither awaits an approval nor had it refused. */
  predicate Accepted(outcome: HandlerOutcome) {
    outcome.Answered? && !outcome.result.approvalPending && !outcome.result.approvalDenied
  }

  // ----- What is written -----

  /** The checkpoint records this outcome. */
  predicate Records(w: World, point: Checkpoint, outcome: HandlerOutcome) {
    Accepted(outcome) && point.outputHash == w.hash(outcome.result.output) && point.evidence == outcome.result.evidence
  }

  lemma FinishWrites(c: Config, w: World, task: TaskId, flow: Flow, hash: Hash, length: nat, items: seq<Checkpoint>,
                     outcome: HandlerOutcome)
    requires !Halted(flow.stage)
    ensures var kept := Finish(c, w, task, flow, hash, length, items, outcome).1;
            && (!Accepted(outcome) ==> kept == items)
            && (kept == items || (|kept| == |items| + 1 && kept[..|items|] == items
                                  && Records(w, kept[|items|], outcome) && kept[|items|].stage == flow.stage))
  {
    hide RecordFindings;
  }

  /** Along every run of many engines each new checkpoint records an answer that was accepted: none is written for
      a handler that raised, or whose approval is pending or was refused. */
  lemma {:induction false} WrittenByAcceptance(w: World, task: TaskId, s: Shared, xs: seq<Action>, j: nat)
    returns (k: nat)
    requires Run(w, task, s, xs) && |s.items| <= j < |After(w, task, s, xs).items|
    ensures k < |xs| && xs[k].Answer? && Records(w, After(w, task, s, xs).items[j], xs[k].outcome)
    decreases xs
  {
    if xs == [] {
      assert false;
    } else {
      var t := Next(w, task, s, xs[0]);
      StepWrites(w, task, s, xs[0]);
      hide Next, Enabled, Records;
      if j < |t.items| {
        k := 0;
        RunExtends(w, task, t, xs[1..]);
      } else {
        k := WrittenByAcceptance(w, task, t, xs[1..], j);
        k := k + 1;
      }
    }
  }

  lemma StepWrites(w: World, task: TaskId, s: Shared, x: Action)
    requires Enabled(s, x)
    ensures var t := Next(w, task, s, x);
            t.items == s.items || (|t.items| == |s.items| + 1 && t.items[..|s.items|] == s.items
                                   && x.Answer? && Records(w, t.items[|s.items|], x.outcome))
  {
    hide Finish, Resume, Open;
    if x.Answer? {
      var e := s.engines[x.engine];
      FinishWrites(e.config, w, task, e.flow, e.phase.hash, e.phase.length, s.items, x.outcome);
    }
  }

  lemma {:induction false} RunExtends(w: World, task: TaskId, s: Shared, xs: seq<Action>)
    requires Run(w, task, s, xs)
    ensures s.items <= After(w, task, s, xs).items
    decreases xs
  {
    hide Next, Enabled, Records;
    if xs == [] {
    } else {
      StepWrites(w, task, s, xs[0]);
      RunExtends(w, task, Next(w, task, s, xs[0]), xs[1..]);
    }
  }

  // ----- Behind the approval -----

  predicate BehindApproval(s: Stage) {
    s in {CreateBranch, ProvisionSandbox, ExecuteTools, RunTests, RunSkills, BlindReview, SecurityReview,
          CorrectiveRound, FinalVerification, PrepareDraftPr, Completed}
  }

  /** Some engine stands behind the approval, or the list says that some engine did. */
  ghost predicate Passed(s: Shared) {
    || (exists a :: a in s.engines && BehindApproval(s.engines[a].flow.stage))
    || (exists k :: 0 <= k < |s.items| && (s.items[k].stage.ObtainApproval? || BehindApproval(s.items[k].stage)))
  }

  /** The step lets an engine pass: an accepted answer of OBTAIN_APPROVAL that the store takes, or a correction
      that an earlier stage asks for and the engine goes into. */
  predicate Lets(w: World, task: TaskId, s: Shared, x: Action)
    requires Enabled(s, x)
  {
    x.Answer? &&
    var e := s.engines[x.engine];
    var v := Finish(e.config, w, task, e.flow, e.phase.hash, e.phase.length, s.items, x.outcome).0;
    || (e.flow.stage.ObtainApproval? && Accepted(x.outcome) && EndingOf(v) != Some(SequenceConflict))
    || (v.Go? && v.flow.stage.CorrectiveRound?)
  }

  /** Not behind the approval: before it, at it, or halted without completing. */
  predicate NotYet(s: Stage) {
    s in {Receive, Validate, BuildContext, Plan, EvaluateRisk, ObtainApproval, Failed, Stage.Cancelled}
  }

  lemma NotYetIs(s: Stage)
    ensures NotYet(s) <==> !BehindApproval(s)
    ensures NotYet(s) && !s.ObtainApproval? && !Halted(s) ==> NotYet(NextStage(s).value)
  {
    StagesInOrder();
  }

  lemma FinishLets(c: Config, w: World, task: TaskId, flow: Flow, hash: Hash, length: nat, items: seq<Checkpoint>,
                   outcome: HandlerOutcome)
    requires !Halted(flow.stage) && NotYet(flow.stage) && !Recorded(items, ObtainApproval, hash)
    ensures var (v, kept) := Finish(c, w, task, flow, hash, length, items, outcome);
            var lets := (flow.stage.ObtainApproval? && Accepted(outcome) && EndingOf(v) != Some(SequenceConflict))
                        || (v.Go? && v.flow.stage.CorrectiveRound?);
            && (!lets && v.Go? ==> NotYet(v.flow.stage))
            && (!lets ==> kept == items || (|kept| == |items| + 1 && kept[..|items|] == items
                                            && !kept[|items|].stage.ObtainApproval? && NotYet(kept[|items|].stage)))
            && (lets ==> (v.Go? && BehindApproval(v.flow.stage))
                         || (|kept| > |items| && kept[|items|].stage.ObtainApproval?))
  {
    NotYetIs(flow.stage);
    StagesInOrder();
    hide RecordFindings, NextStage;
  }

  /** While nobody has passed, a step passes the approval exactly when it lets an engine pass. */
  lemma StepPasses(w: World, task: TaskId, s: Shared, x: Action)
    requires Enabled(s, x) && !Passed(s)
    ensures Passed(Next(w, task, s, x)) <==> Lets(w, task, s, x)
  {
    match x
    case Launch(a, config, flow) => LaunchPasses(w, task, s, a, config, flow);
    case OpenLoop(a, i) => OpenPasses(w, s, a, i);
    case Answer(a, outcome) => AnswerPasses(w, task, s, a, outcome);
    case Crash(a) =>
  }

  lemma LaunchPasses(w: World, task: TaskId, s: Shared, a: EngineId, config: Config, flow: Flow)
    requires Enabled(s, Launch(a, config, flow)) && !Passed(s)
    ensures !Passed(Next(w, task, s, Launch(a, config, flow)))
  {
    if s.items != [] {
      var last := s.items[|s.items| - 1].stage;
      assert !last.ObtainApproval? && !BehindApproval(last);
      NotYetIs(last);
      NotYetIs(if NextStage(last).Some? then NextStage(last).value else last);
    }
    hide BehindApproval, NextStage;
    NotYetIs(Receive);
  }

  lemma OpenPasses(w: World, s: Shared, a: EngineId, i: nat)
    requires a in s.engines && !Passed(s)
    ensures !Passed(NextOpen(w, s, a, i))
  {
    var e := s.engines[a];
    assert !BehindApproval(e.flow.stage);
    NotYetIs(e.flow.stage);
    if !Halted(e.flow.stage) && Open(e.config, w, e.flow, s.items, i).Skip? {
      var k :| 0 <= k < |s.items| && Matches(s.items[k], e.flow.stage, w.hash(e.flow.payload));
      assert s.items[k].stage == e.flow.stage;
      assert !e.flow.stage.ObtainApproval?;
      NotYetIs(NextStage(e.flow.stage).value);
    }
    hide BehindApproval, NextStage, NotYet;
  }

  lemma AnswerPasses(w: World, task: TaskId, s: Shared, a: EngineId, outcome: HandlerOutcome)
    requires Enabled(s, Answer(a, outcome)) && !Passed(s)
    ensures Passed(Next(w, task, s, Answer(a, outcome))) <==> Lets(w, task, s, Answer(a, outcome))
  {
    var e := s.engines[a];
    assert !BehindApproval(e.flow.stage);
    NotYetIs(e.flow.stage);
    NothingRecorded(s, e.phase.hash);
    FinishLets(e.config, w, task, e.flow, e.phase.hash, e.phase.length, s.items, outcome);
    var (v, kept) := Finish(e.config, w, task, e.flow, e.phase.hash, e.phase.length, s.items, outcome);
    hide Finish, BehindApproval, NotYet;
    var t := Next(w, task, s, Answer(a, outcome));
    if Lets(w, task, s, Answer(a, outcome)) {
      if v.Go? && BehindApproval(v.flow.stage) {
        assert a in t.engines && BehindApproval(t.engines[a].flow.stage);
      } else {
        assert t.items[|s.items|].stage.ObtainApproval?;
      }
    } else {
      if v.Go? {
        NotYetIs(v.flow.stage);
      }
      if kept != s.items {
        NotYetIs(kept[|s.items|].stage);
      }
      StillNotPassed(s, t, a, kept);
    }
  }

  lemma NothingRecorded(s: Shared, hash: Hash)
    requires !Passed(s)
    ensures !Recorded(s.items, ObtainApproval, hash)
  {
    forall k | 0 <= k < |s.items| ensures !Matches(s.items[k], ObtainApproval, hash) {
      assert !s.items[k].stage.ObtainApproval?;
    }
  }

  lemma StillNotPassed(s: Shared, t: Shared, a: EngineId, kept: seq<Checkpoint>)
    requires !Passed(s) && t.items == kept
    requires kept == s.items || (|kept| == |s.items| + 1 && kept[..|s.items|] == s.items
                                 && !kept[|s.items|].stage.ObtainApproval? && !BehindApproval(kept[|s.items|].stage))
    requires forall b :: b in t.engines ==>
               (b in s.engines && t.engines[b].flow.stage == s.engines[b].flow.stage)
               || !BehindApproval(t.engines[b].flow.stage)
    ensures !Passed(t)
  {
    hide BehindApproval;
    forall k | 0 <= k < |kept| ensures !(kept[k].stage.ObtainApproval? || BehindApproval(kept[k].stage)) {
      if k < |s.items| {
        assert kept[k] == s.items[k];
      }
    }
  }

  ghost predicate EverPassed(w: World, task: TaskId, s: Shared, xs: seq<Action>)
    requires Run(w, task, s, xs)
    decreases xs
  {
    Passed(s) || (xs != [] && EverPassed(w, task, Next(w, task, s, xs[0]), xs[1..]))
  }

  ghost predicate EverLets(w: World, task: TaskId, s: Shared, xs: seq<Action>)
    requires Run(w, task, s, xs)
    decreases xs
  {
    xs != [] && (Lets(w, task, s, xs[0]) || EverLets(w, task, Next(w, task, s, xs[0]), xs[1..]))
  }

  lemma {:induction false} PassedIff(w: World, task: TaskId, s: Shared, xs: seq<Action>)
    requires Run(w, task, s, xs) && !Passed(s)
    ensures EverPassed(w, task, s, xs) <==> EverLets(w, task, s, xs)
    ensures !EverLets(w, task, s, xs) ==> !Passed(After(w, task, s, xs))
    decreases xs
  {
    hide Next, Enabled, Passed, Lets;
    if xs == [] {
    } else {
      StepPasses(w, task, s, xs[0]);
      if !Lets(w, task, s, xs[0]) {
        PassedIff(w, task, Next(w, task, s, xs[0]), xs[1..]);
      }
    }
  }

  /** From the empty store, with any engines, crashes and resumed runs: some engine gets behind OBTAIN_APPROVAL, or
      leaves a checkpoint from there on, exactly when an answer of OBTAIN_APPROVAL was accepted or an earlier stage
      asked for a correction.  As long as neither has happened every engine stands before the approval or at it,
      the next run begins there, and an engine that opens OBTAIN_APPROVAL asks its handler again. */
  lemma ApprovalGuards(w: World, task: TaskId, xs: seq<Action>)
    requires Run(w, task, Shared([], map[]), xs)
    ensures EverPassed(w, task, Shared([], map[]), xs) <==> EverLets(w, task, Shared([], map[]), xs)
    ensures !EverLets(w, task, Shared([], map[]), xs) ==>
              var t := After(w, task, Shared([], map[]), xs);
              && (forall a :: a in t.engines ==> NotYet(t.engines[a].flow.stage))
              && (forall k :: 0 <= k < |t.items| ==> !t.items[k].stage.ObtainApproval? && NotYet(t.items[k].stage))
              && (forall flow: Flow :: flow.stage.Receive? && Resume(flow, t.items).Go? ==>
                    NotYet(Resume(flow, t.items).flow.stage))
              && (forall a, i: nat :: a in t.engines && t.engines[a].flow.stage.ObtainApproval? ==>
                    !Open(t.engines[a].config, w, t.engines[a].flow, t.items, i).Skip?)
  {
    PassedIff(w, task, Shared([], map[]), xs);
    if !EverLets(w, task, Shared([], map[]), xs) {
      var t := After(w, task, Shared([], map[]), xs);
      hide Run, After, EverPassed, EverLets;
      NotPassedMeans(w, t);
    }
  }

  lemma NotPassedMeans(w: World, t: Shared)
    requires !Passed(t)
    ensures forall a :: a in t.engines ==> NotYet(t.engines[a].flow.stage)
    ensures forall k :: 0 <= k < |t.items| ==> !t.items[k].stage.ObtainApproval? && NotYet(t.items[k].stage)
    ensures forall flow: Flow :: flow.stage.Receive? && Resume(flow, t.items).Go? ==>
              NotYet(Resume(flow, t.items).flow.stage)
    ensures forall a, i: nat :: a in t.engines && t.engines[a].flow.stage.ObtainApproval? ==>
              !Open(t.engines[a].config, w, t.engines[a].flow, t.items, i).Skip?
  {
    forall a | a in t.engines ensures NotYet(t.engines[a].flow.stage) {
      NotYetIs(t.engines[a].flow.stage);
      NothingRecorded(t, w.hash(t.engines[a].flow.payload));
    }
    forall k | 0 <= k < |t.items| ensures !t.items[k].stage.ObtainApproval? && NotYet(t.items[k].stage) {
      NotYetIs(t.items[k].stage);
    }
    if t.items != [] {
      var last := t.items[|t.items| - 1].stage;
      NotYetIs(last);
    }
    forall a, i: nat | a in t.engines && t.engines[a].flow.stage.ObtainApproval?
      ensures !Open(t.engines[a].config, w, t.engines[a].flow, t.items, i).Skip?
    {
      NothingRecorded(t, w.hash(t.engines[a].flow.payload));
    }
  }

  /** The second way past is real: with any configuration that allows a round, a correction that RECEIVE asks for
      takes the first engine behind OBTAIN_APPROVAL although that stage was never asked. */
  lemma EarlyCorrectionPasses(w: World, task: TaskId, c: Config, flow: Flow) returns (xs: seq<Action>)
    requires Receive in c.registered && flow.stage.Receive? && !flow.cancelled && flow.rounds < c.maxRounds
    requires !w.cancelled(0) && !w.late(0)
    ensures Run(w, task, Shared([], map[]), xs) && Passed(After(w, task, Shared([], map[]), xs))
    ensures |After(w, task, Shared([], map[]), xs).items| == 1
            && After(w, task, Shared([], map[]), xs).items[0].stage.Receive?
  {
    WorkflowResumes.LaunchPath(w, task, [], 0, c, flow, flow);
    WorkflowResumes.OneStage(w, task, [], 0, c, flow, 0, true);
    var ys := [OpenLoop(0, 0), Answer(0, WorkflowResumes.Silent(true))];
    var point := WorkflowResumes.Point(w, task, [], flow);
    var last := WorkflowResumes.Alone([] + [point], 0, c, WorkflowResumes.Answering(flow, true));
    WorkflowResumes.PathsJoin(w, task, Shared([], map[]), [Launch(0, c, flow)],
                              WorkflowResumes.Alone([], 0, c, flow), ys, last);
    xs := [Launch(0, c, flow)] + ys;
    WorkflowResumes.PathEnds(w, task, Shared([], map[]), xs, last);
    hide Run, After, WorkflowResumes.Path;
    assert BehindApproval(last.engines[0].flow.stage);
  }
}
