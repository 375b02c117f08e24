/** The engine as it is written: a loop over the mutable fields of a WorkflowRun and a shared checkpoint
    store, proved to return exactly what RunWorkflow says. */
module WorkflowEngines {
  import opened Options
  import opened Checkpoints
  import opened Workflows

  class WorkflowRun {
    const task: TaskId
    var payload: Payload
    var stage: Stage
    var rounds: int
    var prints: map<Fingerprint, nat>
    var cancelled: bool

    ghost function Value(): Flow
      reads this
    {
      Flow(payload, stage, rounds, prints, cancelled)
    }

    constructor (task: TaskId, payload: Payload)
      ensures this.task == task && Value() == Flow(payload, Receive, 0, map[], false)
    {
      this.task := task;
      this.payload := payload;
      stage, rounds, prints, cancelled := Receive, 0, map[], false;
    }
  }

  class ResumableWorkflowEngine {
    const checkpoints: InMemoryCheckpointStore
    const config: Config

    constructor (checkpoints: InMemoryCheckpointStore, config: Config)
      ensures this.checkpoints == checkpoints && this.config == config
    {
      this.checkpoints := checkpoints;
      this.config := config;
    }

    method CountFindings(workflow: WorkflowRun, findings: seq<string>,
                         fingerprint: string -> Fingerprint) returns (repeated: bool)
      modifies workflow`prints, workflow`stage
      ensures (workflow.prints, repeated) == RecordFindings(old(workflow.prints), findings, config.repeatLimit,
              fingerprint)
      ensures workflow.stage == if repeated then Failed else old(workflow.stage)
    {
      var k := 0;
      assert findings[0..] == findings;
      while k < |findings|
        invariant 0 <= k <= |findings| && workflow.stage == old(workflow.stage)
        invariant RecordFindings(workflow.prints, findings[k..], config.repeatLimit, fingerprint)
                  == RecordFindings(old(workflow.prints), findings, config.repeatLimit, fingerprint)
      {
        var f := fingerprint(findings[k]);
        var count := CountOf(workflow.prints, f) + 1;
        assert findings[k..][1..] == findings[k + 1..];
        workflow.prints := workflow.prints[f := count];
        if count >= config.repeatLimit {
          workflow.stage := Failed;
          return true;
        }
        k := k + 1;
      }
      return false;
    }

    /** The handler has answered: update the payload, write the checkpoint, choose the next stage.
        None means that the loop goes on. */
    method Settle(workflow: WorkflowRun, w: World, hash: Hash, length: nat,
                  result: StageResult) returns (ending: Option<Ending>)
      requires checkpoints.Valid() && !Halted(workflow.stage)
      modifies workflow, checkpoints
      ensures checkpoints.Valid()
      ensures checkpoints.items == old(checkpoints.items)[workflow.task := checkpoints.Of(workflow.task)]
              || checkpoints.items == old(checkpoints.items)
      ensures (if ending.Some? then End(workflow.Value(), ending.value)
              else Go(workflow.Value()), checkpoints.Of(workflow.task))
              == Finish(config, w, workflow.task, old(workflow.Value()), hash, length,
                  old(checkpoints.Of(workflow.task)), Answered(result))
      ensures Settled(config, w, workflow.task, old(workflow.Value()), workflow.Value(), hash, length,
                      old(checkpoints.Of(workflow.task)), checkpoints.Of(workflow.task), result, ending)
    {
      hide Settled, RecordFindings, NextStage, WellKept;
      FinishSettles(config, w, workflow.task, workflow.Value(), hash, length, checkpoints.Of(workflow.task), result);
      if result.approvalPending {
        return Some(ApprovalAwaited);
      }
      if result.approvalDenied {
        workflow.stage := Failed;
        return Some(ApprovalRefused);
      }
      workflow.payload := workflow.payload + result.output;
      var kept := checkpoints.Append(
        Checkpoint(workflow.task, workflow.stage, length + 1, hash, w.hash(result.output), result.evidence));
      if kept.None? {
        return Some(SequenceConflict);
      }
      if result.requiresCorrection {
        var repeated := CountFindings(workflow, result.findings, w.fingerprint);
        if repeated {
          return Some(RepeatedFinding);
        }
        if workflow.rounds >= config.maxRounds {
          workflow.stage := Failed;
          return Some(RoundsExhausted);
        }
        workflow.rounds := workflow.rounds + 1;
        workflow.stage := CorrectiveRound;
      } else {
        workflow.stage := NextStage(workflow.stage).value;
      }
      return None;
    }

    /** The body of the loop; None means that the loop goes on. */
    method Iteration(workflow: WorkflowRun, w: World, i: nat) returns (ending: Option<Ending>)
      requires checkpoints.Valid() && !Halted(workflow.stage)
      modifies workflow, checkpoints
      ensures checkpoints.Valid()
      ensures checkpoints.items == old(checkpoints.items)[workflow.task := checkpoints.Of(workflow.task)]
              || checkpoints.items == old(checkpoints.items)
      ensures (if ending.Some? then End(workflow.Value(), ending.value)
              else Go(workflow.Value()), checkpoints.Of(workflow.task))
              == Iterate(config, w, workflow.task, old(workflow.Value()), old(checkpoints.Of(workflow.task)), i)
      ensures Iterated(config, w, workflow.task, old(workflow.Value()), workflow.Value(),
                       old(checkpoints.Of(workflow.task)), checkpoints.Of(workflow.task), i, ending)
    {
      hide Settled, Iterated, RecordFindings, NextStage;
      IterateMeans(config, w, workflow.task, workflow.Value(), checkpoints.Of(workflow.task), i);
      if w.cancelled(i) || workflow.cancelled {
        workflow.stage := Stage.Cancelled;
        return Some(Done);
      }
      if w.late(i) {
        workflow.stage := Failed;
        return Some(DeadlineExceeded);
      }
      if workflow.stage !in config.registered {
        workflow.stage := Failed;
        return Some(NoHandler);
      }
      var hash := w.hash(workflow.payload);
      var existing := checkpoints.List(workflow.task);
      var duplicate := FindFirst(existing, workflow.stage, hash);
      if duplicate.Some? {
        workflow.stage := NextStage(workflow.stage).value;
        return None;
      }
      var outcome := w.handler(i, workflow.stage, workflow.payload);
      if outcome.Raised? {
        return Some(HandlerRaised);
      }
      ending := Settle(workflow, w, hash, |existing|, outcome.result);
    }

    /** iterations counts the passes of the loop. */
    method Run(workflow: WorkflowRun, w: World) returns (ending: Ending, iterations: nat)
      requires checkpoints.Valid()
      modifies workflow, checkpoints
      ensures checkpoints.Valid()
      ensures Outcome(workflow.Value(), checkpoints.Of(workflow.task), ending, iterations)
              == RunWorkflow(config, w, workflow.task, old(workflow.Value()), old(checkpoints.Of(workflow.task)))
      ensures forall task :: task != workflow.task ==> checkpoints.Of(task) == old(checkpoints.Of(task))
    {
      hide Iterate;
      iterations := 0;
      ghost var task := workflow.task;
      ghost var goal := RunWorkflow(config, w, task, workflow.Value(), checkpoints.Of(task));
      var latest := checkpoints.Latest(workflow.task);
      if latest.Some? {
        var next := NextStage(latest.value.stage);
        if next.None? {
          return NoTransition, 0;
        }
        workflow.stage := next.value;
      }
      while !Halted(workflow.stage)
        invariant checkpoints.Valid()
        invariant Execute(config, w, task, workflow.Value(), checkpoints.Of(task), iterations) == goal
        invariant forall other :: other != task ==> checkpoints.Of(other) == old(checkpoints.Of(other))
        decreases Measure(config, workflow.Value())
      {
        iterations := iterations + 1;
        var settled := Iteration(workflow, w, iterations - 1);
        if settled.Some? {
          return settled.value, iterations;
        }
      }
      return Done, iterations;
    }
  }
}
