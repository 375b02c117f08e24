/** What every run of the workflow loop keeps and reaches, for arbitrary handlers. */
module WorkflowProperties {
  import opened Checkpoints
  import opened Workflows

  // ----- Termination -----

  /** Corrective rounds never exceed the maximum, and the loop is bounded by the stages that the rounds
      left can still add. */
  lemma {:induction false} ExecuteBounded(c: Config, w: World, task: TaskId, flow: Flow, items: seq<Checkpoint>, i: nat)
    ensures var r := Execute(c, w, task, flow, items, i);
            && i <= r.iterations <= i + Measure(c, flow)
            && (r.flow.rounds <= c.maxRounds || r.flow.rounds == flow.rounds)
    decreases Measure(c, flow)
  {
    hide Iterate, Measure;
    if Halted(flow.stage) {
    } else {
      IterateRounds(c, w, task, flow, items, i);
      StageLeft(c, flow);
      var (v, kept) := Iterate(c, w, task, flow, items, i);
      if v.Go? {
        ExecuteBounded(c, w, task, v.flow, kept, i + 1);
      }
    }
  }

  lemma StageLeft(c: Config, flow: Flow)
    requires !Halted(flow.stage)
    ensures Measure(c, flow) >= 1
  {
  }

  lemma IterateRounds(c: Config, w: World, task: TaskId, flow: Flow, items: seq<Checkpoint>, i: nat)
    requires !Halted(flow.stage)
    ensures var v := Iterate(c, w, task, flow, items, i).0; v.flow.rounds <= c.maxRounds || v.flow.rounds == flow.rounds
  {
    hide AppendTo, RecordFindings;
    match Open(c, w, flow, items, i)
    case Stop(_, _) =>
    case Skip =>
    case Invoke(hash) =>
      match w.handler(i, flow.stage, flow.payload) {
        case Raised =>
        case Answered(result) => if result.requiresCorrection { } else { }
      }
  }

  /** A fresh run passes the loop at most 15 + 7 * maxRounds times. */
  lemma FreshRunBounded(c: Config, w: World, task: TaskId, flow: Flow)
    requires flow.stage.Receive? && flow.rounds == 0
    ensures var r := RunWorkflow(c, w, task, flow, []);
            && r.iterations <= 15 + 7 * (if c.maxRounds > 0 then c.maxRounds else 0)
            && (r.flow.rounds <= c.maxRounds || r.flow.rounds == 0)
  {
    ExecuteBounded(c, w, task, flow, [], 0);
  }

  /** Each stage counts its iteration, and PREPARE_DRAFT_PR asks for a correction while rounds are left. */
  function Restless(c: Config): World {
    var rounds := if c.maxRounds > 0 then c.maxRounds else 0;
    World(i => false, i => false,
          (i: nat, stage: Stage, payload) =>
            Answered(StageResult(map["i" := i + 1], [], [], stage.PrepareDraftPr? && i < 14 + 7 * rounds, false,
                                 false)),
          payload => if "i" in payload then payload["i"] else 0,
          finding => 0)
  }

  /** At iteration i the payload's digest is i, and the measure says how far the run has come. */
  ghost predicate Paced(c: Config, flow: Flow, items: seq<Checkpoint>, i: nat) {
    && !flow.cancelled && !flow.stage.Failed? && !flow.stage.Cancelled?
    && (forall s: Stage :: !Halted(s) ==> s in c.registered)
    && i + Measure(c, flow) == 15 + 7 * (if c.maxRounds > 0 then c.maxRounds else 0)
    && (flow.rounds <= c.maxRounds || flow.rounds == 0)
    && (i == 0 ==> flow.stage.Receive? && items == [])
    && (flow.stage.Completed? ==> Measure(c, flow) == 0)
    && (i > 0 ==> !flow.stage.Receive? && "i" in flow.payload && flow.payload["i"] == i)
    && forall k :: 0 <= k < |items| ==> items[k].stage.Receive? || items[k].inputHash < i
  }

  lemma RestlessStep(c: Config, task: TaskId, flow: Flow, items: seq<Checkpoint>, i: nat)
    requires Paced(c, flow, items, i) && !Halted(flow.stage)
    ensures var (v, kept) := Iterate(c, Restless(c), task, flow, items, i);
            v.Go? && Measure(c, v.flow) == Measure(c, flow) - 1 && Paced(c, v.flow, kept, i + 1)
  {
    var w := Restless(c);
    var hash := w.hash(flow.payload);
    assert !Recorded(items, flow.stage, hash);
    assert Open(c, w, flow, items, i) == Invoke(hash);
    var result := w.handler(i, flow.stage, flow.payload).result;
    RestlessAdvance(c, flow, i, result);
    hide Advance, Open, Measure;
    assert AppendTo(items, Checkpoint(task, flow.stage, |items| + 1, hash, w.hash(result.output), [])).1.Some?;
  }

  lemma RestlessAdvance(c: Config, flow: Flow, i: nat, result: StageResult)
    requires !Halted(flow.stage) && (flow.rounds <= c.maxRounds || flow.rounds == 0)
    requires i + Measure(c, flow) == 15 + 7 * (if c.maxRounds > 0 then c.maxRounds else 0)
    requires Restless(c).handler(i, flow.stage, flow.payload) == Answered(result)
    ensures var updated := flow.(payload := flow.payload + result.output);
            var v := Advance(c, Restless(c), updated, result);
            && v.Go? && v.flow.payload == updated.payload && v.flow.cancelled == flow.cancelled
            && !v.flow.stage.Failed? && !v.flow.stage.Cancelled? && !v.flow.stage.Receive?
            && (v.flow.rounds <= c.maxRounds || v.flow.rounds == 0)
            && Measure(c, v.flow) == Measure(c, flow) - 1
            && (v.flow.stage.Completed? ==> Measure(c, v.flow) == 0)
  {
    assert RecordFindings(flow.prints, [], c.repeatLimit, Restless(c).fingerprint) == (flow.prints, false);
  }

  lemma {:induction false} RestlessRun(c: Config, task: TaskId, flow: Flow, items: seq<Checkpoint>, i: nat)
    requires Paced(c, flow, items, i)
    ensures var r := Execute(c, Restless(c), task, flow, items, i);
            r.flow.stage.Completed? && r.iterations == i + Measure(c, flow)
    decreases Measure(c, flow)
  {
    hide Iterate, Restless;
    if Halted(flow.stage) {
    } else {
      RestlessStep(c, task, flow, items, i);
      var (v, kept) := Iterate(c, Restless(c), task, flow, items, i);
      RestlessRun(c, task, v.flow, kept, i + 1);
    }
  }

  /** The bound is exact: for every configuration and payload some handlers make a fresh run that long. */
  lemma FreshRunBoundAttained(c: Config, task: TaskId, flow: Flow) returns (w: World)
    requires flow.stage.Receive? && flow.rounds == 0 && !flow.cancelled
    requires forall s: Stage :: !Halted(s) ==> s in c.registered
    ensures var r := RunWorkflow(c, w, task, flow, []);
            && r.flow.stage.Completed?
            && r.iterations == 15 + 7 * (if c.maxRounds > 0 then c.maxRounds else 0)
  {
    w := Restless(c);
    RestlessRun(c, task, flow, [], 0);
  }

  // ----- Findings -----

  function Occurrences(findings: seq<string>, f: Fingerprint, fingerprint: string -> Fingerprint): nat {
    if findings == [] then 0
    else (if fingerprint(findings[0]) == f then 1 else 0) + Occurrences(findings[1..], f, fingerprint)
  }

  predicate ReachesLimit(prints: map<Fingerprint, nat>, findings: seq<string>, f: Fingerprint, limit: int,
                         fingerprint: string -> Fingerprint) {
    CountOf(prints, f) + Occurrences(findings, f, fingerprint) >= limit
  }

  /** The run is stopped exactly when some finding's total reaches the limit; otherwise every total grew
      by its number of occurrences. */
  lemma {:induction false} FindingsCounted(prints: map<Fingerprint, nat>, findings: seq<string>, limit: int,
                                           fingerprint: string -> Fingerprint)
    requires forall f :: f in prints ==> prints[f] < limit
    ensures var (counted, repeated) := RecordFindings(prints, findings, limit, fingerprint);
            && (repeated <==> exists k ::
                 0 <= k < |findings| && ReachesLimit(prints, findings, fingerprint(findings[k]), limit, fingerprint))
            && (repeated <==> exists f :: f in counted && counted[f] >= limit)
            && (!repeated ==> forall f ::
                 CountOf(counted, f) == CountOf(prints, f) + Occurrences(findings, f, fingerprint))
    decreases findings
  {
    if findings == [] {
    } else {
      var f0 := fingerprint(findings[0]);
      var next := prints[f0 := CountOf(prints, f0) + 1];
      var rest := findings[1..];
      if next[f0] >= limit {
        assert ReachesLimit(prints, findings, fingerprint(findings[0]), limit, fingerprint);
        assert f0 in next;
      } else {
        FindingsCounted(next, rest, limit, fingerprint);
        assert forall f ::
                 CountOf(next, f) + Occurrences(rest, f, fingerprint) ==
                 CountOf(prints, f) + Occurrences(findings, f, fingerprint);
        if k :| 0 <= k < |rest| && ReachesLimit(next, rest, fingerprint(rest[k]), limit, fingerprint) {
          assert findings[k + 1] == rest[k];
        }
        if k :| 0 <= k < |findings| && ReachesLimit(prints, findings, fingerprint(findings[k]), limit, fingerprint) {
          if k == 0 {
            if Occurrences(rest, f0, fingerprint) > 0 {
              Occurs(rest, f0, fingerprint);
            }
          } else {
            assert rest[k - 1] == findings[k];
          }
        }
      }
    }
  }

  lemma {:induction false} Occurs(findings: seq<string>, f: Fingerprint, fingerprint: string -> Fingerprint)
    requires Occurrences(findings, f, fingerprint) > 0
    ensures exists k :: 0 <= k < |findings| && fingerprint(findings[k]) == f
  {
    if fingerprint(findings[0]) == f {
    } else {
      Occurs(findings[1..], f, fingerprint);
      var k :| 0 <= k < |findings[1..]| && fingerprint(findings[1..][k]) == f;
      assert findings[k + 1] == findings[1..][k];
    }
  }

  ghost predicate BelowLimit(prints: map<Fingerprint, nat>, limit: int) {
    forall f :: f in prints ==> prints[f] < limit
  }

  /** A run ends with a repeated finding exactly when a finding count has reached the limit; every other
      ending leaves all counts below it. */
  lemma {:induction false} RepeatedIffAtLimit(c: Config, w: World, task: TaskId, flow: Flow, items: seq<Checkpoint>,
                                              i: nat)
    requires BelowLimit(flow.prints, c.repeatLimit)
    ensures var r := Execute(c, w, task, flow, items, i);
            r.ending.RepeatedFinding? <==> !BelowLimit(r.flow.prints, c.repeatLimit)
    decreases Measure(c, flow)
  {
    hide BelowLimit, AppendTo;
    if Halted(flow.stage) {
    } else {
      IterateBelow(c, w, task, flow, items, i);
      var (v, kept) := Iterate(c, w, task, flow, items, i);
      hide Iterate;
      if v.Go? {
        RepeatedIffAtLimit(c, w, task, v.flow, kept, i + 1);
      }
    }
  }

  lemma IterateBelow(c: Config, w: World, task: TaskId, flow: Flow, items: seq<Checkpoint>, i: nat)
    requires !Halted(flow.stage) && BelowLimit(flow.prints, c.repeatLimit)
    ensures var v := Iterate(c, w, task, flow, items, i).0;
            !BelowLimit(v.flow.prints, c.repeatLimit) <==> v.End? && v.ending.RepeatedFinding?
  {
    hide AppendTo;
    match w.handler(i, flow.stage, flow.payload)
    case Raised =>
    case Answered(result) =>
      FindingsCounted(flow.prints, result.findings, c.repeatLimit, w.fingerprint);
      hide RecordFindings;
  }

  // ----- Checkpoints -----

  lemma IterateAppends(c: Config, w: World, task: TaskId, flow: Flow, items: seq<Checkpoint>, i: nat)
    requires !Halted(flow.stage) && WellKept(items)
    ensures var kept := Iterate(c, w, task, flow, items, i).1;
            && WellKept(kept) && items <= kept && |kept| <= |items| + 1
            && (|kept| > |items| ==> Matches(kept[|items|], flow.stage, w.hash(flow.payload)))
  {
    match w.handler(i, flow.stage, flow.payload)
    case Raised =>
    case Answered(result) =>
      AppendKeeps(items, Checkpoint(task, flow.stage, |items| + 1, w.hash(flow.payload), w.hash(result.output),
          result.evidence));
      hide WellKept;
  }

  /** Runs, resumes and crashes only append, in sequence, one checkpoint per stage and input. */
  lemma {:induction false} ExecuteAppends(c: Config, w: World, task: TaskId, flow: Flow, items: seq<Checkpoint>, i: nat)
    requires WellKept(items)
    ensures var r := Execute(c, w, task, flow, items, i); WellKept(r.items) && items <= r.items
    ensures Execute(c, w, task, flow, items, i).ending != SequenceConflict
    decreases Measure(c, flow)
  {
    hide WellKept;
    if Halted(flow.stage) {
    } else {
      IterateAppends(c, w, task, flow, items, i);
      NeverConflicts(c, w, task, flow, items, i);
      var (v, kept) := Iterate(c, w, task, flow, items, i);
      hide Iterate;
      if v.Go? {
        ExecuteAppends(c, w, task, v.flow, kept, i + 1);
      }
    }
  }

  /** Alone on its store an engine never meets a sequence conflict. */
  lemma NeverConflicts(c: Config, w: World, task: TaskId, flow: Flow, items: seq<Checkpoint>, i: nat)
    requires !Halted(flow.stage)
    ensures Iterate(c, w, task, flow, items, i).0.End? ==>
              Iterate(c, w, task, flow, items, i).0.ending != SequenceConflict
  {
    hide RecordFindings;
  }

  // ----- Stage coverage -----

  predicate Has(items: seq<Checkpoint>, s: Stage) {
    exists k :: 0 <= k < |items| && items[k].stage == s
  }

  /** Must t have been checkpointed before the loop stands at s? */
  predicate Needs(s: Stage, t: Stage) {
    if s.CorrectiveRound? then Position(t) <= 8 else Position(s) < 16 && Position(t) < Position(s)
  }

  ghost predicate Covered(items: seq<Checkpoint>, s: Stage) {
    forall t :: Needs(s, t) ==> Has(items, t)
  }

  ghost predicate AllCovered(items: seq<Checkpoint>) {
    forall k :: 0 <= k < |items| ==> Covered(items[..k], items[k].stage)
  }

  /** The loop goes from a stage before EXECUTE_TOOLS into a corrective round. */
  predicate JumpsAhead(stage: Stage, v: Verdict) {
    v.Go? && v.flow.stage.CorrectiveRound? && Position(stage) < 8
  }

  lemma HasMore(items: seq<Checkpoint>, more: seq<Checkpoint>, s: Stage)
    requires items <= more && Has(items, s)
    ensures Has(more, s)
  {
    var k :| 0 <= k < |items| && items[k].stage == s;
    assert more[k] == items[k];
  }

  lemma CoveredMore(items: seq<Checkpoint>, more: seq<Checkpoint>, s: Stage)
    requires items <= more && Covered(items, s)
    ensures Covered(more, s)
  {
    forall t | Needs(s, t) ensures Has(more, t) {
      HasMore(items, more, t);
    }
  }

  /** Stage s itself is recorded: what comes after it is covered. */
  lemma NextCovered(items: seq<Checkpoint>, s: Stage)
    requires !Halted(s) && Covered(items, s) && Has(items, s)
    ensures Covered(items, NextStage(s).value)
  {
    var n := NextStage(s).value;
    forall t | Needs(n, t) ensures Has(items, t) {
      if !s.CorrectiveRound? && Position(t) == Position(s) {
        assert ORDER[Position(t)] == t && ORDER[Position(s)] == s;
      } else {
        assert Needs(s, t);
      }
    }
  }

  lemma CorrectionCovered(items: seq<Checkpoint>, s: Stage)
    requires !Halted(s) && Covered(items, s) && Has(items, s) && Position(s) >= 8
    ensures Covered(items, CorrectiveRound)
  {
    forall t | Needs(CorrectiveRound, t) ensures Has(items, t) {
      if Position(s) == 8 && Position(t) == 8 {
        assert ORDER[8] == t && ORDER[8] == s;
      } else {
        assert Needs(s, t);
      }
    }
  }

  /** After a correction at stage s the corrective round is covered exactly when s is EXECUTE_TOOLS or
      later, or the stages between were recorded some other way. */
  lemma CorrectionCoveredIff(items: seq<Checkpoint>, s: Stage)
    requires !Halted(s) && Covered(items, s) && Has(items, s)
    ensures Covered(items, CorrectiveRound) <==>
              Position(s) >= 8 || forall t :: Position(s) < Position(t) <= 8 ==> Has(items, t)
  {
    if Position(s) >= 8 {
      CorrectionCovered(items, s);
    } else if forall t :: Position(s) < Position(t) <= 8 ==> Has(items, t) {
      forall t | Needs(CorrectiveRound, t) ensures Has(items, t) {
        if Position(t) == Position(s) {
          assert ORDER[Position(t)] == t && ORDER[Position(s)] == s;
        } else if Position(t) < Position(s) {
          assert Needs(s, t);
        }
      }
    } else {
      var t :| Position(s) < Position(t) <= 8 && !Has(items, t);
      assert Needs(CorrectiveRound, t);
    }
  }

  lemma AppendCovered(items: seq<Checkpoint>, c: Checkpoint)
    requires AllCovered(items) && Covered(items, c.stage)
    ensures AllCovered(items + [c])
  {
    var more := items + [c];
    forall k | 0 <= k < |more| ensures Covered(more[..k], more[k].stage) {
      if k < |items| {
        assert more[..k] == items[..k];
      } else {
        assert more[..k] == items;
      }
    }
  }

  /** A finished iteration keeps coverage, whatever other engines appended meanwhile, except exactly when it
      jumps ahead over stages that nobody has recorded. */
  lemma FinishCoversIff(c: Config, w: World, task: TaskId, flow: Flow, hash: Hash, length: nat, items: seq<Checkpoint>,
                        outcome: HandlerOutcome)
    requires !Halted(flow.stage) && AllCovered(items) && Covered(items, flow.stage)
    ensures var (v, kept) := Finish(c, w, task, flow, hash, length, items, outcome);
            && items <= kept && AllCovered(kept)
            && (Covered(kept, v.flow.stage) <==>
                  !JumpsAhead(flow.stage, v) || forall t :: Position(flow.stage) < Position(t) <= 8 ==> Has(kept, t))
  {
    var (v, kept) := Finish(c, w, task, flow, hash, length, items, outcome);
    if outcome.Answered? && !outcome.result.approvalPending && !outcome.result.approvalDenied {
      var point := Checkpoint(task, flow.stage, length + 1, hash, w.hash(outcome.result.output),
          outcome.result.evidence);
      AppendToCovers(items, point);
      hide AllCovered, Covered, Has, Advance, AppendTo;
      if AppendTo(items, point).1.Some? {
        AdvanceCoversIff(c, w, flow.(payload := flow.payload + outcome.result.output), outcome.result, kept);
      }
    }
    hide AllCovered, Covered;
    NothingNeeded(kept);
  }

  lemma AdvanceCoversIff(c: Config, w: World, flow: Flow, result: StageResult, items: seq<Checkpoint>)
    requires !Halted(flow.stage) && Covered(items, flow.stage) && Has(items, flow.stage)
    ensures var v := Advance(c, w, flow, result);
            Covered(items, v.flow.stage) <==>
              !JumpsAhead(flow.stage, v) || forall t :: Position(flow.stage) < Position(t) <= 8 ==> Has(items, t)
  {
    hide Covered, Has, RecordFindings;
    NextCovered(items, flow.stage);
    CorrectionCoveredIff(items, flow.stage);
    NothingNeeded(items);
  }

  lemma NothingNeeded(items: seq<Checkpoint>)
    ensures Covered(items, Failed) && Covered(items, Stage.Cancelled) && Covered(items, Receive)
  {
  }

  lemma AppendToCovers(items: seq<Checkpoint>, c: Checkpoint)
    requires AllCovered(items) && Covered(items, c.stage)
    ensures var (kept, answer) := AppendTo(items, c);
            && items <= kept && AllCovered(kept) && Covered(kept, c.stage)
            && (answer.Some? ==> Has(kept, c.stage))
  {
    var (kept, answer) := AppendTo(items, c);
    if Recorded(items, c.stage, c.inputHash) {
      var k :| 0 <= k < |items| && Matches(items[k], c.stage, c.inputHash);
      assert items[k].stage == c.stage;
    } else if answer.Some? {
      AppendCovered(items, c);
      CoveredMore(items, items + [c], c.stage);
      assert kept[|items|].stage == c.stage;
    }
  }

  // ----- Coverage of a fresh run -----

  /** Does some iteration of the run ask for a correction before EXECUTE_TOOLS and go on? */
  ghost predicate CorrectsEarly(c: Config, w: World, task: TaskId, flow: Flow, items: seq<Checkpoint>, i: nat)
    decreases Measure(c, flow)
  {
    !Halted(flow.stage) &&
    var (v, kept) := Iterate(c, w, task, flow, items, i);
    && v.Go?
    && (JumpsAhead(flow.stage, v) || CorrectsEarly(c, w, task, v.flow, kept, i + 1))
  }

  /** Between RECEIVE and the first correction: nothing from the current stage on is recorded yet. */
  ghost predicate Climbing(flow: Flow, items: seq<Checkpoint>) {
    && Position(flow.stage) <= 8
    && forall t :: Has(items, t) ==> Position(t) < Position(flow.stage)
  }

  /** Past EXECUTE_TOOLS no run returns to an earlier stage. */
  predicate Late(s: Stage) { Position(s) >= 9 }

  lemma IterateShape(c: Config, w: World, task: TaskId, flow: Flow, items: seq<Checkpoint>, i: nat)
    requires !Halted(flow.stage)
    ensures var (v, kept) := Iterate(c, w, task, flow, items, i);
            && (kept == items || (|kept| == |items| + 1 && kept[..|items|] == items
               && kept[|items|].stage == flow.stage))
            && (v.Go? ==> v.flow.stage == NextStage(flow.stage).value || v.flow.stage.CorrectiveRound?)
            && (v.End? ==> v.flow.stage == flow.stage || v.flow.stage.Failed? || v.flow.stage.Cancelled?)
  {
    hide RecordFindings;
    match w.handler(i, flow.stage, flow.payload)
    case Raised =>
    case Answered(result) =>
  }

  lemma HasOneMore(items: seq<Checkpoint>, kept: seq<Checkpoint>, s: Stage, t: Stage)
    requires kept == items || (|kept| == |items| + 1 && kept[..|items|] == items && kept[|items|].stage == s)
    ensures Has(items, t) ==> Has(kept, t)
    ensures Has(kept, t) ==> Has(items, t) || t == s
  {
    if Has(items, t) {
      HasMore(items, kept, t);
    }
    if Has(kept, t) && kept != items {
      var k :| 0 <= k < |kept| && kept[k].stage == t;
      if k < |items| {
        assert items[k] == kept[..|items|][k];
      }
    }
  }

  lemma {:induction false} LateAddsNoEarlierStage(c: Config, w: World, task: TaskId, flow: Flow,
                                                  items: seq<Checkpoint>, i: nat, t: Stage)
    requires Late(flow.stage) && Position(t) <= 8
    ensures Has(Execute(c, w, task, flow, items, i).items, t) <==> Has(items, t)
    ensures !CorrectsEarly(c, w, task, flow, items, i)
    decreases Measure(c, flow)
  {
    hide Has;
    if Halted(flow.stage) {
    } else {
      IterateShape(c, w, task, flow, items, i);
      var (v, kept) := Iterate(c, w, task, flow, items, i);
      hide Iterate;
      HasOneMore(items, kept, flow.stage, t);
      if v.Go? {
        assert Late(v.flow.stage);
        LateAddsNoEarlierStage(c, w, task, v.flow, kept, i + 1, t);
      }
    }
  }

  /** An early correction leaves a stage before EXECUTE_TOOLS, or itself, without a checkpoint for good. */
  lemma {:induction false} EarlyCorrectionSkips(c: Config, w: World, task: TaskId, flow: Flow, items: seq<Checkpoint>,
                                                i: nat)
    returns (t: Stage)
    requires Climbing(flow, items) && CorrectsEarly(c, w, task, flow, items, i)
    ensures Position(t) <= 8 && !Has(Execute(c, w, task, flow, items, i).items, t)
    decreases Measure(c, flow)
  {
    hide Has;
    IterateShape(c, w, task, flow, items, i);
    var (v, kept) := Iterate(c, w, task, flow, items, i);
    hide Iterate;
    if v.flow.stage.CorrectiveRound? {
      t := ORDER[Position(flow.stage) + 1];
      HasOneMore(items, kept, flow.stage, t);
      if Position(flow.stage) < 8 {
        LateAddsNoEarlierStage(c, w, task, v.flow, kept, i + 1, t);
      } else {
        LateAddsNoEarlierStage(c, w, task, v.flow, kept, i + 1, Receive);
        assert false;
      }
    } else if Position(flow.stage) < 8 {
      forall u | Has(kept, u) ensures Position(u) < Position(v.flow.stage) {
        HasOneMore(items, kept, flow.stage, u);
      }
      t := EarlyCorrectionSkips(c, w, task, v.flow, kept, i + 1);
    } else {
      LateAddsNoEarlierStage(c, w, task, v.flow, kept, i + 1, Receive);
      assert false;
    }
  }

  lemma {:induction false} ExecuteCovers(c: Config, w: World, task: TaskId, flow: Flow, items: seq<Checkpoint>, i: nat)
    requires AllCovered(items) && Covered(items, flow.stage) && !CorrectsEarly(c, w, task, flow, items, i)
    ensures var r := Execute(c, w, task, flow, items, i); AllCovered(r.items) && Covered(r.items, r.flow.stage)
    decreases Measure(c, flow)
  {
    hide AllCovered, Covered;
    if Halted(flow.stage) {
    } else {
      IterateCovers(c, w, task, flow, items, i);
      var (v, kept) := Iterate(c, w, task, flow, items, i);
      hide Iterate;
      if v.Go? {
        ExecuteCovers(c, w, task, v.flow, kept, i + 1);
      }
    }
  }

  lemma IterateCovers(c: Config, w: World, task: TaskId, flow: Flow, items: seq<Checkpoint>, i: nat)
    requires !Halted(flow.stage) && AllCovered(items) && Covered(items, flow.stage)
    requires !JumpsAhead(flow.stage, Iterate(c, w, task, flow, items, i).0)
    ensures var (v, kept) := Iterate(c, w, task, flow, items, i); AllCovered(kept) && Covered(kept, v.flow.stage)
  {
    var (v, kept) := Iterate(c, w, task, flow, items, i);
    match Open(c, w, flow, items, i)
    case Stop(f, ending) => NothingNeeded(items);
    case Skip =>
      var k :| 0 <= k < |items| && Matches(items[k], flow.stage, w.hash(flow.payload));
      assert Has(items, flow.stage);
      NextCovered(items, flow.stage);
    case Invoke(hash) =>
      FinishCoversIff(c, w, task, flow, hash, |items|, items, w.handler(i, flow.stage, flow.payload));
      hide Finish, AllCovered, Covered;
  }

  /** A fresh run that completes has checkpointed every stage before COMPLETED, each after all its
      predecessors, exactly when no correction was asked for before EXECUTE_TOOLS. */
  lemma CompletedCoversIff(c: Config, w: World, task: TaskId, flow: Flow)
    requires flow.stage.Receive?
    requires var r := RunWorkflow(c, w, task, flow, []); r.ending.Done? && r.flow.stage.Completed?
    ensures var r := RunWorkflow(c, w, task, flow, []);
            (AllCovered(r.items) && Covered(r.items, Completed)) <==> !CorrectsEarly(c, w, task, flow, [], 0)
  {
    if CorrectsEarly(c, w, task, flow, [], 0) {
      var t := EarlyCorrectionSkips(c, w, task, flow, [], 0);
      hide Execute, CorrectsEarly;
      assert Needs(Completed, t);
    } else {
      ExecuteCovers(c, w, task, flow, [], 0);
    }
  }

  // ----- Resuming -----

  /** Whatever a stage answered and whichever engine appends, once its checkpoint is written the next run
      resumes at the stage after it, never in a corrective round: where this run goes on exactly when the
      answer asked for no correction. */
  lemma RejectionForgotten(c: Config, w: World, task: TaskId, flow: Flow, hash: Hash, length: nat,
                           items: seq<Checkpoint>, outcome: HandlerOutcome, next: Flow)
    requires !Halted(flow.stage)
    requires |Finish(c, w, task, flow, hash, length, items, outcome).1| > |items|
    ensures var (v, kept) := Finish(c, w, task, flow, hash, length, items, outcome);
            && Resume(next, kept) == Go(next.(stage := NextStage(flow.stage).value))
            && !Resume(next, kept).flow.stage.CorrectiveRound?
            && outcome.Answered?
            && (Resume(next, kept).flow.stage == v.flow.stage <==> !outcome.result.requiresCorrection)
  {
    hide RecordFindings;
    if outcome.result.requiresCorrection {
      assert !Recorded(items, flow.stage, hash);
    } else {
    }
  }
}
