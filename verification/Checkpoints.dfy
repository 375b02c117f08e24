/** The workflow's checkpoints and the in-memory store that keeps them per task. */
module Checkpoints {
  import opened Options

  type TaskId = int
  type Hash = int
  type Evidence = seq<string>

  datatype Stage =
    | Receive | Validate | BuildContext | Plan | EvaluateRisk | ObtainApproval | CreateBranch | ProvisionSandbox
    | ExecuteTools | RunTests | RunSkills | BlindReview | SecurityReview | CorrectiveRound | FinalVerification
    | PrepareDraftPr | Completed | Failed | Cancelled

  datatype Checkpoint = Checkpoint(
    task: TaskId, stage: Stage, sequence: int, inputHash: Hash, outputHash: Hash, evidence: Evidence)

  predicate Matches(c: Checkpoint, stage: Stage, hash: Hash) {
    c.stage == stage && c.inputHash == hash
  }

  predicate Recorded(items: seq<Checkpoint>, stage: Stage, hash: Hash) {
    exists i :: 0 <= i < |items| && Matches(items[i], stage, hash)
  }

  /** The first checkpoint of that stage and input, as next(...) finds it. */
  function FirstMatch(items: seq<Checkpoint>, stage: Stage, hash: Hash): (r: Option<Checkpoint>)
    ensures r.Some? <==> Recorded(items, stage, hash)
    ensures r.Some? ==> r.value in items && Matches(r.value, stage, hash)
  {
    if items == [] then None
    else if Matches(items[0], stage, hash) then
      assert Matches(items[0], stage, hash);
      Some(items[0])
    else
      var r := FirstMatch(items[1..], stage, hash);
      assert forall i :: 0 < i < |items| ==> items[i] == items[1..][i - 1];
      r
  }

  /** What append does to a task's list: keep it and answer the earlier checkpoint, extend it, or raise. */
  function AppendTo(items: seq<Checkpoint>, c: Checkpoint): (seq<Checkpoint>, Option<Checkpoint>) {
    if Recorded(items, c.stage, c.inputHash) then (items, FirstMatch(items, c.stage, c.inputHash))
    else if c.sequence != |items| + 1 then (items, None)
    else (items + [c], Some(c))
  }

  /** Sequence numbers run 1..n and no stage is recorded twice for one input. */
  ghost predicate WellKept(items: seq<Checkpoint>) {
    && (forall i :: 0 <= i < |items| ==> items[i].sequence == i + 1)
    && (forall i, j :: 0 <= i < j < |items| ==> !Matches(items[j], items[i].stage, items[i].inputHash))
  }

  ghost function AppendAll(items: seq<Checkpoint>, cs: seq<Checkpoint>): seq<Checkpoint>
    decreases cs
  {
    if cs == [] then items else AppendAll(AppendTo(items, cs[0]).0, cs[1..])
  }

  /** However appends are ordered, repeated or misnumbered, the list only grows at its end and stays well
      kept; a pair recorded once keeps its first checkpoint for ever. */
  lemma {:induction false} AppendsKeepOrder(items: seq<Checkpoint>, cs: seq<Checkpoint>)
    requires WellKept(items)
    ensures WellKept(AppendAll(items, cs)) && items <= AppendAll(items, cs)
    ensures forall i :: 0 <= i < |items| ==>
              FirstMatch(AppendAll(items, cs), items[i].stage, items[i].inputHash) == Some(items[i])
    decreases cs
  {
    if cs == [] {
    } else {
      AppendKeeps(items, cs[0]);
      var next := AppendTo(items, cs[0]).0;
      AppendsKeepOrder(next, cs[1..]);
    }
    var all := AppendAll(items, cs);
    forall i | 0 <= i < |items| ensures FirstMatch(all, items[i].stage, items[i].inputHash) == Some(items[i]) {
      assert all[i] == items[i];
      FirstIsOnly(all, i);
    }
  }

  lemma AppendKeeps(items: seq<Checkpoint>, c: Checkpoint)
    requires WellKept(items)
    ensures WellKept(AppendTo(items, c).0) && items <= AppendTo(items, c).0
  {
    if !Recorded(items, c.stage, c.inputHash) && c.sequence == |items| + 1 {
      var next := items + [c];
      forall i, j | 0 <= i < j < |next| ensures !Matches(next[j], next[i].stage, next[i].inputHash) {
        if j == |items| {
          assert !Matches(items[i], c.stage, c.inputHash);
        }
      }
    }
  }

  lemma FirstIsOnly(items: seq<Checkpoint>, i: nat)
    requires WellKept(items) && i < |items|
    ensures FirstMatch(items, items[i].stage, items[i].inputHash) == Some(items[i])
  {
    assert Matches(items[i], items[i].stage, items[i].inputHash);
    var r := FirstMatch(items, items[i].stage, items[i].inputHash);
    assert r.Some? && r.value in items;
    var j :| 0 <= j < |items| && items[j] == r.value;
    OneMatch(items, i, j);
  }

  lemma OneMatch(items: seq<Checkpoint>, i: nat, j: nat)
    requires WellKept(items) && i < |items| && j < |items| && Matches(items[j], items[i].stage, items[i].inputHash)
    ensures i == j
  {
    assert Matches(items[i], items[j].stage, items[j].inputHash);
  }

  /** A pair is recorded exactly when some checkpoint carries it, and the first of them is found. */
  lemma DuplicateIs(items: seq<Checkpoint>, stage: Stage, hash: Hash)
    ensures Recorded(items, stage, hash) <==>
              exists k :: 0 <= k < |items| && items[k].stage == stage && items[k].inputHash == hash
    ensures Recorded(items, stage, hash) ==>
              exists k :: 0 <= k < |items| && IsFirst(items, stage, hash, k)
                          && FirstMatch(items, stage, hash) == Some(items[k])
  {
    if k :| 0 <= k < |items| && items[k].stage == stage && items[k].inputHash == hash {
      assert Matches(items[k], stage, hash);
    }
    if Recorded(items, stage, hash) {
      var i :| 0 <= i < |items| && Matches(items[i], stage, hash);
      assert items[i].stage == stage && items[i].inputHash == hash;
      var k := FirstIs(items, stage, hash);
    }
  }

  predicate IsFirst(items: seq<Checkpoint>, stage: Stage, hash: Hash, k: nat) {
    && k < |items| && items[k].stage == stage && items[k].inputHash == hash
    && forall j :: 0 <= j < k ==> items[j].stage != stage || items[j].inputHash != hash
  }

  lemma {:induction false} FirstIs(items: seq<Checkpoint>, stage: Stage, hash: Hash) returns (k: nat)
    requires Recorded(items, stage, hash)
    ensures IsFirst(items, stage, hash, k) && FirstMatch(items, stage, hash) == Some(items[k])
  {
    if Matches(items[0], stage, hash) {
      k := 0;
    } else {
      var i :| 0 <= i < |items| && Matches(items[i], stage, hash);
      assert Matches(items[1..][i - 1], stage, hash);
      k := FirstIs(items[1..], stage, hash);
      assert forall j :: 0 <= j < |items[1..]| ==> items[1..][j] == items[j + 1];
      k := k + 1;
      forall j | 0 <= j < k ensures items[j].stage != stage || items[j].inputHash != hash {
        assert j > 0 ==> items[j] == items[1..][j - 1];
      }
    }
  }

  class InMemoryCheckpointStore {
    var items: map<TaskId, seq<Checkpoint>>

    ghost function Of(task: TaskId): seq<Checkpoint>
      reads this
    {
      if task in items then items[task] else []
    }

    ghost predicate Valid()
      reads this
    {
      forall task :: task in items ==> WellKept(items[task])
    }

    constructor ()
      ensures Valid() && items == map[]
    {
      items := map[];
    }

    /** None stands for the ValueError; setdefault leaves an empty list behind even then. */
    method Append(c: Checkpoint) returns (kept: Option<Checkpoint>)
      requires Valid()
      modifies this
      ensures Valid()
      ensures (Of(c.task), kept) == AppendTo(old(Of(c.task)), c)
      ensures var list := old(Of(c.task));
              if exists k :: 0 <= k < |list| && list[k].stage == c.stage && list[k].inputHash == c.inputHash then
                && Of(c.task) == list && kept.Some?
                && exists k :: 0 <= k < |list| && IsFirst(list, c.stage, c.inputHash, k) && kept.value == list[k]
              else if c.sequence != |list| + 1 then Of(c.task) == list && kept == None
              else Of(c.task) == list + [c] && kept == Some(c)
      ensures items == old(items)[c.task := Of(c.task)]
    {
      var list := if c.task in items then items[c.task] else [];
      AppendKeeps(list, c);
      DuplicateIs(list, c.stage, c.inputHash);
      items := items[c.task := list];
      var earlier := FindFirst(list, c.stage, c.inputHash);
      if earlier.Some? {
        return earlier;
      }
      if c.sequence != |list| + 1 {
        return None;
      }
      items := items[c.task := list + [c]];
      return Some(c);
    }

    method Latest(task: TaskId) returns (latest: Option<Checkpoint>)
      ensures latest == if Of(task) == [] then None else Some(Of(task)[|Of(task)| - 1])
    {
      if task in items && items[task] != [] {
        return Some(items[task][|items[task]| - 1]);
      }
      return None;
    }

    method List(task: TaskId) returns (list: seq<Checkpoint>)
      ensures list == Of(task)
    {
      return if task in items then items[task] else [];
    }
  }

  /** The scan for a duplicate, by append and by the engine. */
  method FindFirst(items: seq<Checkpoint>, stage: Stage, hash: Hash) returns (found: Option<Checkpoint>)
    ensures found == FirstMatch(items, stage, hash)
  {
    var k := 0;
    assert items[0..] == items;
    while k < |items|
      invariant 0 <= k <= |items|
      invariant FirstMatch(items[k..], stage, hash) == FirstMatch(items, stage, hash)
    {
      if items[k].stage == stage && items[k].inputHash == hash {
        return Some(items[k]);
      }
      assert items[k..][1..] == items[k + 1..];
      k := k + 1;
    }
    return None;
  }
}
