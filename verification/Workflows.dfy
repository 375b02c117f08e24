/** The resumable workflow loop as functions: how one iteration opens, how it finishes once the handler
    has answered, and what a whole run returns.  Handlers, clocks, cancellation and hashing come from a
    World, so every theorem holds whatever they do. */
module Workflows {
  import opened Options
  import opened Checkpoints

  type Payload = map<string, int>
  type Fingerprint = int

  datatype StageResult = StageResult(
    output: Payload, evidence: Evidence, findings: seq<string>,
    requiresCorrection: bool, approvalPending: bool, approvalDenied: bool)

  datatype HandlerOutcome = Raised | Answered(result: StageResult)

  /** What the loop cannot control, by iteration: cancellation, the deadline, the handlers; and the two
      digests, which need not be injective. */
  datatype World = World(
    cancelled: nat -> bool,
    late: nat -> bool,
    handler: (nat, Stage, Payload) -> HandlerOutcome,
    hash: Payload -> Hash,
    fingerprint: string -> Fingerprint)

  datatype Config = Config(registered: set<Stage>, maxRounds: int, repeatLimit: int)

  /** The mutable fields of a WorkflowRun. */
  datatype Flow = Flow(payload: Payload, stage: Stage, rounds: int, prints: map<Fingerprint, nat>, cancelled: bool)

  datatype Ending =
    | Done | DeadlineExceeded | NoHandler | HandlerRaised | ApprovalAwaited | ApprovalRefused | SequenceConflict
    | RepeatedFinding | RoundsExhausted | NoTransition

  // ----- Stages -----

  const ORDER: seq<Stage> := [
    Receive, Validate, BuildContext, Plan, EvaluateRisk, ObtainApproval, CreateBranch, ProvisionSandbox,
    ExecuteTools, RunTests, RunSkills, BlindReview, SecurityReview, FinalVerification, PrepareDraftPr, Completed]

  /** The index of s in ORDER, or 16 for the three stages that are not in it. */
  function Position(s: Stage): (p: nat)
    ensures p < 16 ==> ORDER[p] == s
    ensures p >= 16 <==> s in {CorrectiveRound, Failed, Stage.Cancelled}
    ensures p == 15 <==> s.Completed?
  {
    match s
    case Receive => 0
    case Validate => 1
    case BuildContext => 2
    case Plan => 3
    case EvaluateRisk => 4
    case ObtainApproval => 5
    case CreateBranch => 6
    case ProvisionSandbox => 7
    case ExecuteTools => 8
    case RunTests => 9
    case RunSkills => 10
    case BlindReview => 11
    case SecurityReview => 12
    case FinalVerification => 13
    case PrepareDraftPr => 14
    case Completed => 15
    case CorrectiveRound => 16
    case Failed => 16
    case Cancelled => 16
  }

  predicate Halted(s: Stage) { s.Completed? || s.Failed? || s.Cancelled? }

  function NextStage(s: Stage): (r: Option<Stage>)
    ensures r.None? <==> Halted(s)
    ensures r.Some? ==> Remaining(r.value) == Remaining(s) - 1 && !r.value.CorrectiveRound? && Position(r.value) < 16
  {
    if s.CorrectiveRound? then Some(RunTests)
    else if Position(s) < 15 then Some(ORDER[Position(s) + 1])
    else None
  }

  /** Iterations from stage s to COMPLETED when nothing is corrected. */
  function Remaining(s: Stage): nat {
    if s.CorrectiveRound? then 7 else if Position(s) < 16 then 15 - Position(s) else 0
  }

  // ----- Findings -----

  function CountOf(prints: map<Fingerprint, nat>, f: Fingerprint): nat { if f in prints then prints[f] else 0 }

  /** true when a count reached the limit; later findings are then not counted. */
  function RecordFindings(prints: map<Fingerprint, nat>, findings: seq<string>, limit: int,
                          fingerprint: string -> Fingerprint)
    : (map<Fingerprint, nat>, bool)
    decreases findings
  {
    if findings == [] then (prints, false)
    else
      var f := fingerprint(findings[0]);
      var counted := prints[f := CountOf(prints, f) + 1];
      if counted[f] >= limit then (counted, true) else RecordFindings(counted, findings[1..], limit, fingerprint)
  }

  // ----- One iteration -----

  datatype Opening = Skip | Stop(flow: Flow, ending: Ending) | Invoke(hash: Hash)

  /** From the loop guard to the handler call. */
  function Open(c: Config, w: World, flow: Flow, items: seq<Checkpoint>, i: nat): Opening {
    if w.cancelled(i) || flow.cancelled then Stop(flow.(stage := Stage.Cancelled), Done)
    else if w.late(i) then Stop(flow.(stage := Failed), DeadlineExceeded)
    else if flow.stage !in c.registered then Stop(flow.(stage := Failed), NoHandler)
    else if Recorded(items, flow.stage, w.hash(flow.payload)) then Skip
    else Invoke(w.hash(flow.payload))
  }

  datatype Verdict = Go(flow: Flow) | End(flow: Flow, ending: Ending)

  /** From the handler's answer to the next iteration.  length is the length of the list read when the
      iteration opened; items is the list when the append runs. */
  function Finish(c: Config, w: World, task: TaskId, flow: Flow, hash: Hash, length: nat, items: seq<Checkpoint>,
                  outcome: HandlerOutcome)
    : (Verdict, seq<Checkpoint>)
    requires !Halted(flow.stage)
  {
    if outcome.Raised? then (End(flow, HandlerRaised), items)
    else if outcome.result.approvalPending then (End(flow, ApprovalAwaited), items)
    else if outcome.result.approvalDenied then (End(flow.(stage := Failed), ApprovalRefused), items)
    else
      var result := outcome.result;
      var updated := flow.(payload := flow.payload + result.output);
      var (kept, answer) := AppendTo(items, Checkpoint(task, flow.stage, length + 1, hash, w.hash(result.output),
          result.evidence));
      if answer.None? then (End(updated, SequenceConflict), kept)
      else (Advance(c, w, updated, result), kept)
  }

  /** Where the loop goes once the checkpoint is written. */
  function Advance(c: Config, w: World, flow: Flow, result: StageResult): (v: Verdict)
    requires !Halted(flow.stage)
    ensures v.Go? ==> Measure(c, v.flow) < Measure(c, flow)
  {
    if !result.requiresCorrection then Go(flow.(stage := NextStage(flow.stage).value))
    else
      var (prints, repeated) := RecordFindings(flow.prints, result.findings, c.repeatLimit, w.fingerprint);
      var counted := flow.(prints := prints);
      if repeated then End(counted.(stage := Failed), RepeatedFinding)
      else if counted.rounds >= c.maxRounds then End(counted.(stage := Failed), RoundsExhausted)
      else Go(counted.(rounds := counted.rounds + 1, stage := CorrectiveRound))
  }

  /** Seven more stages for every corrective round still allowed. */
  function Measure(c: Config, flow: Flow): nat {
    7 * (if flow.rounds < c.maxRounds then c.maxRounds - flow.rounds else 0) + Remaining(flow.stage)
  }

  function Iterate(c: Config, w: World, task: TaskId, flow: Flow, items: seq<Checkpoint>,
                   i: nat): (r: (Verdict, seq<Checkpoint>))
    requires !Halted(flow.stage)
    ensures r.0.Go? ==> Measure(c, r.0.flow) < Measure(c, flow)
  {
    match Open(c, w, flow, items, i)
    case Stop(f, ending) => (End(f, ending), items)
    case Skip => (Go(flow.(stage := NextStage(flow.stage).value)), items)
    case Invoke(hash) => Finish(c, w, task, flow, hash, |items|, items, w.handler(i, flow.stage, flow.payload))
  }

  // ----- One iteration, field by field -----

  lemma StagesInOrder()
    ensures NextStage(Receive) == Some(Validate) && NextStage(Validate) == Some(BuildContext)
    ensures NextStage(BuildContext) == Some(Plan) && NextStage(Plan) == Some(EvaluateRisk)
    ensures NextStage(EvaluateRisk) == Some(ObtainApproval) && NextStage(ObtainApproval) == Some(CreateBranch)
    ensures NextStage(CreateBranch) == Some(ProvisionSandbox) && NextStage(ProvisionSandbox) == Some(ExecuteTools)
    ensures NextStage(ExecuteTools) == Some(RunTests) && NextStage(RunTests) == Some(RunSkills)
    ensures NextStage(RunSkills) == Some(BlindReview) && NextStage(BlindReview) == Some(SecurityReview)
    ensures NextStage(SecurityReview) == Some(FinalVerification)
    ensures NextStage(FinalVerification) == Some(PrepareDraftPr) && NextStage(PrepareDraftPr) == Some(Completed)
    ensures NextStage(CorrectiveRound) == Some(RunTests)
    ensures NextStage(Completed) == NextStage(Failed) == NextStage(Stage.Cancelled) == None
  {
  }

  /** What an answer does to the fields and to the list.  One that awaits or refuses an approval writes nothing. */
  ghost predicate Settled(c: Config, w: World, task: TaskId, f: Flow, g: Flow, hash: Hash, length: nat,
                          items: seq<Checkpoint>, kept: seq<Checkpoint>, result: StageResult, ending: Option<Ending>)
    requires !Halted(f.stage)
  {
    if result.approvalPending then ending == Some(ApprovalAwaited) && g == f && kept == items
    else if result.approvalDenied then ending == Some(ApprovalRefused) && g == f.(stage := Failed) && kept == items
    else
      var known := exists k :: 0 <= k < |items| && items[k].stage == f.stage && items[k].inputHash == hash;
      var conflict := !known && |items| != length;
      && g.payload == f.payload + result.output && g.cancelled == f.cancelled
      && kept == (if known || conflict then items
                  else items + [Checkpoint(task, f.stage, length + 1, hash, w.hash(result.output), result.evidence)])
      && (ending == Some(SequenceConflict) <==> conflict)
      && (conflict ==> g == f.(payload := g.payload))
      && (!conflict && !result.requiresCorrection ==>
            ending == None && g == f.(payload := g.payload, stage := NextStage(f.stage).value))
      && (!conflict && result.requiresCorrection ==>
            var (prints, repeated) := RecordFindings(f.prints, result.findings, c.repeatLimit, w.fingerprint);
            && ending == (if repeated then Some(RepeatedFinding)
                          else if f.rounds >= c.maxRounds then Some(RoundsExhausted) else None)
            && g.prints == prints && g.stage == (if ending == None then CorrectiveRound else Failed)
            && g.rounds == (if ending == None then f.rounds + 1 else f.rounds))
  }

  function EndingOf(v: Verdict): Option<Ending> { if v.Go? then None else Some(v.ending) }

  lemma FinishSettles(c: Config, w: World, task: TaskId, flow: Flow, hash: Hash, length: nat, items: seq<Checkpoint>,
                      result: StageResult)
    requires !Halted(flow.stage)
    ensures var (v, kept) := Finish(c, w, task, flow, hash, length, items, Answered(result));
            Settled(c, w, task, flow, v.flow, hash, length, items, kept, result, EndingOf(v))
  {
    hide NextStage, RecordFindings;
    if Recorded(items, flow.stage, hash) {
      var k :| 0 <= k < |items| && Matches(items[k], flow.stage, hash);
      assert items[k].stage == flow.stage && items[k].inputHash == hash;
    } else {
      forall k | 0 <= k < |items| ensures !(items[k].stage == flow.stage && items[k].inputHash == hash) {
        assert !Matches(items[k], flow.stage, hash);
      }
    }
  }

  /** One pass of the loop: cancellation, deadline and a missing handler stop it in this order; a stage already
      recorded for this input is passed over; a handler that raises changes nothing. */
  ghost predicate Iterated(c: Config, w: World, task: TaskId, f: Flow, g: Flow, items: seq<Checkpoint>,
                           kept: seq<Checkpoint>, i: nat, ending: Option<Ending>)
    requires !Halted(f.stage)
  {
    var hash := w.hash(f.payload);
    if w.cancelled(i) || f.cancelled then ending == Some(Done) && g == f.(stage := Stage.Cancelled) && kept == items
    else if w.late(i) then ending == Some(DeadlineExceeded) && g == f.(stage := Failed) && kept == items
    else if f.stage !in c.registered then ending == Some(NoHandler) && g == f.(stage := Failed) && kept == items
    else if exists k :: 0 <= k < |items| && items[k].stage == f.stage && items[k].inputHash == hash then
      ending == None && g == f.(stage := NextStage(f.stage).value) && kept == items
    else
      match w.handler(i, f.stage, f.payload)
      case Raised => ending == Some(HandlerRaised) && g == f && kept == items
      case Answered(result) => Settled(c, w, task, f, g, hash, |items|, items, kept, result, ending)
  }

  lemma IterateMeans(c: Config, w: World, task: TaskId, flow: Flow, items: seq<Checkpoint>, i: nat)
    requires !Halted(flow.stage)
    ensures var (v, kept) := Iterate(c, w, task, flow, items, i);
            Iterated(c, w, task, flow, v.flow, items, kept, i, EndingOf(v))
  {
    hide NextStage, Finish, Settled;
    var hash := w.hash(flow.payload);
    if Recorded(items, flow.stage, hash) {
      var k :| 0 <= k < |items| && Matches(items[k], flow.stage, hash);
      assert items[k].stage == flow.stage && items[k].inputHash == hash;
    } else {
      forall k | 0 <= k < |items| ensures !(items[k].stage == flow.stage && items[k].inputHash == hash) {
        assert !Matches(items[k], flow.stage, hash);
      }
    }
    match w.handler(i, flow.stage, flow.payload)
    case Raised => RaisedChangesNothing(c, w, task, flow, hash, |items|, items);
    case Answered(result) => FinishSettles(c, w, task, flow, hash, |items|, items, result);
  }

  lemma RaisedChangesNothing(c: Config, w: World, task: TaskId, flow: Flow, hash: Hash, length: nat,
                             items: seq<Checkpoint>)
    requires !Halted(flow.stage)
    ensures Finish(c, w, task, flow, hash, length, items, Raised) == (End(flow, HandlerRaised), items)
  {
  }

  // ----- Whole runs -----

  datatype Outcome = Outcome(flow: Flow, items: seq<Checkpoint>, ending: Ending, iterations: nat)

  /** The loop, from iteration i on. */
  function Execute(c: Config, w: World, task: TaskId, flow: Flow, items: seq<Checkpoint>, i: nat): Outcome
    decreases Measure(c, flow)
  {
    if Halted(flow.stage) then Outcome(flow, items, Done, i)
    else
      match Iterate(c, w, task, flow, items, i)
      case (End(f, ending), kept) => Outcome(f, kept, ending, i + 1)
      case (Go(f), kept) => Execute(c, w, task, f, kept, i + 1)
  }

  /** A run first moves past the latest checkpoint, whatever that stage decided. */
  function Resume(flow: Flow, items: seq<Checkpoint>): Verdict {
    if items == [] then Go(flow)
    else
      match NextStage(items[|items| - 1].stage)
      case None => End(flow, NoTransition)
      case Some(stage) => Go(flow.(stage := stage))
  }

  function RunWorkflow(c: Config, w: World, task: TaskId, flow: Flow, items: seq<Checkpoint>): Outcome {
    match Resume(flow, items)
    case End(f, ending) => Outcome(f, items, ending, 0)
    case Go(f) => Execute(c, w, task, f, items, 0)
  }
}
