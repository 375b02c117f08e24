/** A review that asks for a correction should be answered before the draft is prepared.  These are the runs
    that get there with a stage still blocked, exactly. */
module WorkflowReviews {
  import opened Checkpoints
  import opened Workflows
  import opened WorkflowProperties

  // ----- The passes of a run -----

  /** How the loop left a stage behind it: as a duplicate, or by its handler's answer. */
  datatype Kind = Skipped | Clean | Blocked

  datatype Pass = Pass(stage: Stage, hash: Hash, kind: Kind)

  function PassOf(c: Config, w: World, flow: Flow, items: seq<Checkpoint>, i: nat): Pass {
    var outcome := w.handler(i, flow.stage, flow.payload);
    var kind :=
      if Open(c, w, flow, items, i).Skip? then Skipped
      else if outcome.Answered? && outcome.result.requiresCorrection then Blocked
      else Clean;
    Pass(flow.stage, w.hash(flow.payload), kind)
  }

  /** The loop goes through n more iterations and on. */
  ghost predicate Goes(c: Config, w: World, task: TaskId, flow: Flow, items: seq<Checkpoint>, i: nat, n: nat)
    decreases n
  {
    n > 0 ==>
      && !Halted(flow.stage)
      && var (v, kept) := Iterate(c, w, task, flow, items, i);
         v.Go? && Goes(c, w, task, v.flow, kept, i + 1, n - 1)
  }

  ghost function Passes(c: Config, w: World, task: TaskId, flow: Flow, items: seq<Checkpoint>, i: nat, n: nat)
    : (ps: seq<Pass>)
    requires Goes(c, w, task, flow, items, i, n)
    ensures |ps| == n
    decreases n
  {
    if n == 0 then []
    else
      var (v, kept) := Iterate(c, w, task, flow, items, i);
      [PassOf(c, w, flow, items, i)] + Passes(c, w, task, v.flow, kept, i + 1, n - 1)
  }

  /** The fields and the list after n iterations. */
  ghost function At(c: Config, w: World, task: TaskId, flow: Flow, items: seq<Checkpoint>, i: nat, n: nat)
    : (Flow, seq<Checkpoint>)
    requires Goes(c, w, task, flow, items, i, n)
    decreases n
  {
    if n == 0 then (flow, items)
    else
      var (v, kept) := Iterate(c, w, task, flow, items, i);
      At(c, w, task, v.flow, kept, i + 1, n - 1)
  }

  /** A run that halts by itself is the passes counted by its iterations. */
  lemma {:induction false} DoneGoes(c: Config, w: World, task: TaskId, flow: Flow, items: seq<Checkpoint>, i: nat)
    requires var r := Execute(c, w, task, flow, items, i); r.flow.stage.Completed?
    ensures var r := Execute(c, w, task, flow, items, i);
            && i <= r.iterations && Goes(c, w, task, flow, items, i, r.iterations - i)
            && At(c, w, task, flow, items, i, r.iterations - i) == (r.flow, r.items)
    decreases Measure(c, flow)
  {
    hide Iterate, Measure;
    if Halted(flow.stage) {
    } else {
      IterateShape(c, w, task, flow, items, i);
      var (v, kept) := Iterate(c, w, task, flow, items, i);
      assert v.Go?;
      DoneGoes(c, w, task, v.flow, kept, i + 1);
    }
  }

  // ----- Stages still blocked -----

  /** The last answer of stage t asked for a correction. */
  ghost predicate StandsBlocked(ps: seq<Pass>, t: Stage) {
    exists k :: 0 <= k < |ps| && ps[k].stage == t && ps[k].kind.Blocked? && !CalledAfter(ps, k, t)
  }

  ghost predicate CalledAfter(ps: seq<Pass>, k: int, t: Stage) {
    exists l :: k < l < |ps| && 0 <= l && ps[l].stage == t && !ps[l].kind.Skipped?
  }

  /** The stage at pass l has seen this input before: earlier in the run, or before the run began. */
  ghost predicate Repeats(items: seq<Checkpoint>, ps: seq<Pass>, l: nat)
    requires l < |ps|
  {
    || Recorded(items, ps[l].stage, ps[l].hash)
    || exists k :: 0 <= k < l && ps[k].stage == ps[l].stage && ps[k].hash == ps[l].hash
  }

  /** Pass l is where the correction that t asked for is lost for good: t comes before RUN_TESTS, so that no
      corrective round returns to it, or it is met again with an input it has already answered. */
  ghost predicate Overlooks(items: seq<Checkpoint>, ps: seq<Pass>, l: nat, t: Stage)
    requires l < |ps|
  {
    && ps[l].stage == t && !CalledAfter(ps, l, t)
    && ((Position(t) <= 8 && ps[l].kind.Blocked?) || (Repeats(items, ps, l) && StandsBlocked(ps[..l], t)))
  }

  // ----- Following the passes -----

  /** From stage s on the loop must meet t before it can leave it behind. */
  predicate Ahead(t: Stage, s: Stage) {
    s.CorrectiveRound? || (!t.CorrectiveRound? && Position(s) <= Position(t))
  }

  predicate Follows(s: Stage, kind: Kind, next: Stage)
    requires !Halted(s)
  {
    next == if kind.Blocked? then CorrectiveRound else NextStage(s).value
  }

  ghost predicate Linked(ps: seq<Pass>, last: Stage) {
    && (forall k :: 0 <= k < |ps| ==> !Halted(ps[k].stage))
    && (forall k :: 0 <= k < |ps| - 1 ==> Follows(ps[k].stage, ps[k].kind, ps[k + 1].stage))
    && (|ps| > 0 ==> Follows(ps[|ps| - 1].stage, ps[|ps| - 1].kind, last))
  }

  lemma PassShape(c: Config, w: World, task: TaskId, flow: Flow, items: seq<Checkpoint>, i: nat)
    requires !Halted(flow.stage) && Iterate(c, w, task, flow, items, i).0.Go?
    ensures var (v, kept) := Iterate(c, w, task, flow, items, i);
            var p := PassOf(c, w, flow, items, i);
            && Follows(flow.stage, p.kind, v.flow.stage)
            && p.stage == flow.stage && p.hash == w.hash(flow.payload)
            && (p.kind.Skipped? <==> Recorded(items, p.stage, p.hash))
            && (forall s, h :: Recorded(kept, s, h) <==> Recorded(items, s, h) || (s == p.stage && h == p.hash))
  {
    hide RecordFindings;
    var (v, kept) := Iterate(c, w, task, flow, items, i);
    var p := PassOf(c, w, flow, items, i);
    if !Open(c, w, flow, items, i).Skip? {
      var result := w.handler(i, flow.stage, flow.payload).result;
      var point := Checkpoint(task, flow.stage, |items| + 1, p.hash, w.hash(result.output), result.evidence);
      assert kept == items + [point];
      RecordedOneMore(items, point);
    }
  }

  lemma RecordedOneMore(items: seq<Checkpoint>, point: Checkpoint)
    ensures forall s, h :: Recorded(items + [point], s, h) <==>
                           Recorded(items, s, h) || (s == point.stage && h == point.inputHash)
  {
    var more := items + [point];
    forall s, h
      ensures Recorded(more, s, h) <==> Recorded(items, s, h) || (s == point.stage && h == point.inputHash)
    {
      if Recorded(items, s, h) {
        var k :| 0 <= k < |items| && Matches(items[k], s, h);
        assert Matches(more[k], s, h);
      }
      if s == point.stage && h == point.inputHash {
        assert Matches(more[|items|], s, h);
      }
      if Recorded(more, s, h) {
        var k :| 0 <= k < |more| && Matches(more[k], s, h);
        assert k < |items| ==> Matches(items[k], s, h);
      }
    }
  }

  /** The passes of a run follow each other, and a pass is skipped exactly when its input is a repetition. */
  lemma {:induction false} PassesLinked(c: Config, w: World, task: TaskId, flow: Flow, items: seq<Checkpoint>, i: nat,
                                        n: nat)
    requires Goes(c, w, task, flow, items, i, n)
    ensures var ps := Passes(c, w, task, flow, items, i, n);
            && Linked(ps, At(c, w, task, flow, items, i, n).0.stage)
            && (n > 0 ==> ps[0].stage == flow.stage)
            && (n == 0 ==> At(c, w, task, flow, items, i, n).0.stage == flow.stage)
            && forall l :: 0 <= l < n ==> (ps[l].kind.Skipped? <==> Repeats(items, ps, l))
    decreases n
  {
    if n == 0 {
    } else {
      PassShape(c, w, task, flow, items, i);
      var (v, kept) := Iterate(c, w, task, flow, items, i);
      var p := PassOf(c, w, flow, items, i);
      hide Iterate, PassOf, Follows, Recorded;
      PassesLinked(c, w, task, v.flow, kept, i + 1, n - 1);
      var rest := Passes(c, w, task, v.flow, kept, i + 1, n - 1);
      var ps := Passes(c, w, task, flow, items, i, n);
      assert ps == [p] + rest;
      forall l | 0 <= l < n ensures ps[l].kind.Skipped? <==> Repeats(items, ps, l) {
        if l > 0 {
          RepeatsShifted(items, kept, p, rest, l);
        }
      }
      LinkedShifted(p, rest, v.flow.stage, At(c, w, task, v.flow, kept, i + 1, n - 1).0.stage);
    }
  }

  lemma LinkedShifted(p: Pass, rest: seq<Pass>, next: Stage, last: Stage)
    requires !Halted(p.stage) && Follows(p.stage, p.kind, next) && Linked(rest, last)
    requires if rest == [] then last == next else rest[0].stage == next
    ensures Linked([p] + rest, last)
  {
    hide Follows;
    var ps := [p] + rest;
    forall k | 0 <= k < |ps| - 1 ensures Follows(ps[k].stage, ps[k].kind, ps[k + 1].stage) {
      assert ps[k + 1] == rest[k];
      assert k > 0 ==> ps[k] == rest[k - 1];
    }
  }

  lemma RepeatsShifted(items: seq<Checkpoint>, kept: seq<Checkpoint>, p: Pass, rest: seq<Pass>, l: nat)
    requires 0 < l <= |rest|
    requires forall s, h :: Recorded(kept, s, h) <==> Recorded(items, s, h) || (s == p.stage && h == p.hash)
    ensures Repeats(items, [p] + rest, l) <==> Repeats(kept, rest, l - 1)
  {
    hide Recorded;
    var ps := [p] + rest;
    assert ps[l] == rest[l - 1];
    if k :| 0 <= k < l && ps[k].stage == ps[l].stage && ps[k].hash == ps[l].hash {
      assert k > 0 ==> ps[k] == rest[k - 1];
    }
    if k :| 0 <= k < l - 1 && rest[k].stage == rest[l - 1].stage && rest[k].hash == rest[l - 1].hash {
      assert ps[k + 1] == rest[k];
    }
    if p.stage == ps[l].stage && p.hash == ps[l].hash {
      assert ps[0] == p;
    }
  }

  /** Between a blocked pass k and a place n where t is no longer ahead, the loop met t again. */
  lemma {:induction false} MetAgain(ps: seq<Pass>, last: Stage, k: nat, n: nat, t: Stage) returns (l: nat)
    requires Linked(ps, last) && k < n <= |ps|
    requires ps[k].kind.Blocked? && (t.CorrectiveRound? || Position(t) >= 9)
    requires !Ahead(t, if n == |ps| then last else ps[n].stage)
    ensures k < l < n && ps[l].stage == t
    decreases n
  {
    l := n - 1;
    assert Follows(ps[l].stage, ps[l].kind, if n == |ps| then last else ps[n].stage);
    if n == k + 1 {
      assert false;
    } else if ps[l].stage != t {
      SamePosition(ps[l].stage, t);
      l := MetAgain(ps, last, k, l, t);
    }
  }

  lemma SamePosition(s: Stage, t: Stage)
    ensures Position(s) == Position(t) < 16 ==> s == t
  {
    if Position(s) == Position(t) < 16 {
      assert ORDER[Position(s)] == s && ORDER[Position(t)] == t;
    }
  }

  /** No corrective round returns to a stage before RUN_TESTS. */
  lemma {:induction false} NeverMetAgain(ps: seq<Pass>, last: Stage, k: nat, l: nat)
    requires Linked(ps, last) && k < l < |ps| && ps[k].kind.Blocked?
    ensures ps[l].stage.CorrectiveRound? || Position(ps[l].stage) >= 9
    decreases l
  {
    assert Follows(ps[l - 1].stage, ps[l - 1].kind, ps[l].stage);
    if l == k + 1 {
    } else {
      NeverMetAgain(ps, last, k, l - 1);
    }
  }

  lemma {:induction false} LastPassOver(ps: seq<Pass>, t: Stage, l: nat) returns (z: nat)
    requires l < |ps| && ps[l].stage == t
    ensures l <= z < |ps| && ps[z].stage == t && forall m :: z < m < |ps| ==> ps[m].stage != t
    decreases |ps| - l
  {
    if m :| l < m < |ps| && ps[m].stage == t {
      z := LastPassOver(ps, t, m);
    } else {
      z := l;
    }
  }

  // ----- Main results -----

  /** The loop stands behind stage t: at PREPARE_DRAFT_PR or COMPLETED, t being an earlier stage of the run. */
  predicate Behind(t: Stage, s: Stage) {
    && (s.PrepareDraftPr? || s.Completed?)
    && (t.CorrectiveRound? || Position(t) < Position(s))
  }

  lemma CalledSplit(ps: seq<Pass>, k: nat, l: nat, t: Stage)
    requires k < l < |ps|
    ensures CalledAfter(ps, k, t) <==>
              CalledAfter(ps[..l], k, t) || (ps[l].stage == t && !ps[l].kind.Skipped?) || CalledAfter(ps, l, t)
  {
    var before := ps[..l];
    if CalledAfter(before, k, t) {
      var j :| k < j < |before| && 0 <= j && before[j].stage == t && !before[j].kind.Skipped?;
      assert ps[j] == before[j];
    }
    if CalledAfter(ps, k, t) {
      var j :| k < j < |ps| && 0 <= j && ps[j].stage == t && !ps[j].kind.Skipped?;
      assert j < l ==> before[j] == ps[j];
    }
  }

  lemma BlockedIsOverlooked(items: seq<Checkpoint>, ps: seq<Pass>, last: Stage, t: Stage) returns (l: nat)
    requires Linked(ps, last) && Behind(t, last) && StandsBlocked(ps, t)
    requires forall j :: 0 <= j < |ps| ==> (ps[j].kind.Skipped? <==> Repeats(items, ps, j))
    ensures l < |ps| && Overlooks(items, ps, l, t)
  {
    hide Linked, Repeats;
    var k :| 0 <= k < |ps| && ps[k].stage == t && ps[k].kind.Blocked? && !CalledAfter(ps, k, t);
    if Position(t) <= 8 {
      l := k;
    } else {
      var m := MetAgain(ps, last, k, |ps|, t);
      l := LastPassOver(ps, t, m);
      assert ps[l].kind.Skipped?;
      var before := ps[..l];
      assert before[k] == ps[k];
      CalledSplit(ps, k, l, t);
      assert StandsBlocked(before, t);
    }
  }

  lemma OverlookedIsBlocked(items: seq<Checkpoint>, ps: seq<Pass>, last: Stage, t: Stage, l: nat)
    requires Linked(ps, last) && l < |ps| && Overlooks(items, ps, l, t)
    requires forall j :: 0 <= j < |ps| ==> (ps[j].kind.Skipped? <==> Repeats(items, ps, j))
    ensures StandsBlocked(ps, t)
  {
    hide Linked, Repeats;
    if !(Position(t) <= 8 && ps[l].kind.Blocked?) {
      var before := ps[..l];
      var k :| 0 <= k < |before| && before[k].stage == t && before[k].kind.Blocked? && !CalledAfter(before, k, t);
      assert ps[k] == before[k];
      CalledSplit(ps, k, l, t);
    }
  }

  /** Whatever the handlers, the payloads and the digests, and wherever the run begins: it comes to
      PREPARE_DRAFT_PR or to COMPLETED while the last answer of stage t asked for a correction exactly when
      that correction was overlooked. */
  lemma DraftBlockedIff(c: Config, w: World, task: TaskId, flow: Flow, items: seq<Checkpoint>, i: nat, n: nat, t: Stage)
    requires Goes(c, w, task, flow, items, i, n) && Behind(t, At(c, w, task, flow, items, i, n).0.stage)
    ensures var ps := Passes(c, w, task, flow, items, i, n);
            StandsBlocked(ps, t) <==> exists l :: 0 <= l < n && Overlooks(items, ps, l, t)
  {
    hide Overlooks, StandsBlocked;
    PassesLinked(c, w, task, flow, items, i, n);
    var ps := Passes(c, w, task, flow, items, i, n);
    var last := At(c, w, task, flow, items, i, n).0.stage;
    if StandsBlocked(ps, t) {
      var l := BlockedIsOverlooked(items, ps, last, t);
    }
    if l :| 0 <= l < n && Overlooks(items, ps, l, t) {
      OverlookedIsBlocked(items, ps, last, t, l);
    }
  }

  /** What a caller can see to: corrections from RUN_TESTS on only, and no stage meets an input twice.  Then
      no draft is prepared while any stage stands blocked. */
  lemma NewInputsSettle(c: Config, w: World, task: TaskId, flow: Flow, items: seq<Checkpoint>, i: nat, n: nat, t: Stage)
    requires Goes(c, w, task, flow, items, i, n) && Behind(t, At(c, w, task, flow, items, i, n).0.stage)
    requires var ps := Passes(c, w, task, flow, items, i, n);
             forall l :: 0 <= l < n ==>
               !Repeats(items, ps, l) && (ps[l].kind.Blocked? ==> Position(ps[l].stage) >= 9)
    ensures !StandsBlocked(Passes(c, w, task, flow, items, i, n), t)
  {
    DraftBlockedIff(c, w, task, flow, items, i, n, t);
  }

  // ----- Resuming -----

  /** A run that stops after any of its iterations is resumed behind the stage it called last, never in a
      corrective round: where that call had led it exactly when the answer asked for no correction. */
  lemma ResumeForgetsIff(c: Config, w: World, task: TaskId, flow: Flow, items: seq<Checkpoint>, i: nat, n: nat,
                         next: Flow)
    returns (k: nat)
    requires Goes(c, w, task, flow, items, i, n)
    requires |At(c, w, task, flow, items, i, n).1| > |items|
    ensures k < n
    ensures var ps := Passes(c, w, task, flow, items, i, n);
            var (f, kept) := At(c, w, task, flow, items, i, n);
            && !ps[k].kind.Skipped? && (forall l :: k < l < n ==> ps[l].kind.Skipped?)
            && !Halted(ps[k].stage)
            && Resume(next, kept) == Go(next.(stage := NextStage(ps[k].stage).value))
            && !Resume(next, kept).flow.stage.CorrectiveRound?
            && (Resume(next, kept).flow.stage == (if k + 1 < n then ps[k + 1].stage else f.stage)
                <==> !ps[k].kind.Blocked?)
  {
    hide Goes, Passes, At, Repeats, Linked, Follows;
    PassesLinked(c, w, task, flow, items, i, n);
    k := LastCall(c, w, task, flow, items, i, n);
    var ps := Passes(c, w, task, flow, items, i, n);
    var last := At(c, w, task, flow, items, i, n).0.stage;
    LinkedAt(ps, last, k);
    FollowsIff(ps[k].stage, ps[k].kind, if k + 1 < n then ps[k + 1].stage else last);
  }

  lemma FollowsIff(s: Stage, kind: Kind, next: Stage)
    requires !Halted(s) && Follows(s, kind, next)
    ensures NextStage(s).value == next <==> !kind.Blocked?
    ensures !NextStage(s).value.CorrectiveRound?
  {
  }

  lemma LinkedAt(ps: seq<Pass>, last: Stage, k: nat)
    requires Linked(ps, last) && k < |ps|
    ensures !Halted(ps[k].stage)
    ensures Follows(ps[k].stage, ps[k].kind, if k + 1 < |ps| then ps[k + 1].stage else last)
  {
  }

  lemma {:induction false} LastCall(c: Config, w: World, task: TaskId, flow: Flow, items: seq<Checkpoint>, i: nat,
                                    n: nat)
    returns (k: nat)
    requires Goes(c, w, task, flow, items, i, n)
    requires |At(c, w, task, flow, items, i, n).1| > |items|
    ensures k < n
    ensures var ps := Passes(c, w, task, flow, items, i, n);
            var kept := At(c, w, task, flow, items, i, n).1;
            && !ps[k].kind.Skipped? && (forall l :: k < l < n ==> ps[l].kind.Skipped?)
            && kept != [] && kept[|kept| - 1].stage == ps[k].stage
    decreases n
  {
    hide Iterate, PassOf, Measure;
    PassGrows(c, w, task, flow, items, i);
    var (v, kept) := Iterate(c, w, task, flow, items, i);
    var rest := Passes(c, w, task, v.flow, kept, i + 1, n - 1);
    if |At(c, w, task, v.flow, kept, i + 1, n - 1).1| > |kept| {
      k := LastCall(c, w, task, v.flow, kept, i + 1, n - 1);
      k := k + 1;
    } else {
      NoCall(c, w, task, v.flow, kept, i + 1, n - 1);
      k := 0;
    }
  }

  lemma {:induction false} NoCall(c: Config, w: World, task: TaskId, flow: Flow, items: seq<Checkpoint>, i: nat,
                                  n: nat)
    requires Goes(c, w, task, flow, items, i, n)
    ensures var kept := At(c, w, task, flow, items, i, n).1;
            && |kept| >= |items|
            && (|kept| == |items| ==>
                  && kept == items
                  && forall l :: 0 <= l < n ==> Passes(c, w, task, flow, items, i, n)[l].kind.Skipped?)
    decreases n
  {
    if n == 0 {
    } else {
      PassGrows(c, w, task, flow, items, i);
      var (v, kept) := Iterate(c, w, task, flow, items, i);
      hide Iterate, PassOf;
      NoCall(c, w, task, v.flow, kept, i + 1, n - 1);
    }
  }

  lemma PassGrows(c: Config, w: World, task: TaskId, flow: Flow, items: seq<Checkpoint>, i: nat)
    requires !Halted(flow.stage) && Iterate(c, w, task, flow, items, i).0.Go?
    ensures var kept := Iterate(c, w, task, flow, items, i).1;
            var p := PassOf(c, w, flow, items, i);
            && p.stage == flow.stage
            && if p.kind.Skipped? then kept == items
               else |kept| == |items| + 1 && kept[..|items|] == items && kept[|items|].stage == flow.stage
  {
    hide RecordFindings;
  }

  // ----- A review that blocks and a draft that is prepared -----

  predicate AllRegistered(c: Config) { forall s: Stage :: !Halted(s) ==> s in c.registered }

  /** Every handler answers without output; the blind review, whenever it is asked, asks for a correction. */
  function Stubborn(hash: Payload -> Hash, fingerprint: string -> Fingerprint): World {
    World(i => false, i => false,
          (i, stage: Stage, payload) => Answered(StageResult(map[], [], [], stage.BlindReview?, false, false)),
          hash, fingerprint)
  }

  predicate Uncancelled(c: Config, flow: Flow) {
    AllRegistered(c) && !flow.cancelled && !flow.stage.Failed? && !flow.stage.Cancelled?
  }

  lemma StubbornStep(c: Config, hash: Payload -> Hash, fingerprint: string -> Fingerprint, task: TaskId, flow: Flow,
                     items: seq<Checkpoint>, i: nat)
    requires Uncancelled(c, flow) && !Halted(flow.stage)
    requires flow.rounds < c.maxRounds || !flow.stage.BlindReview? || Recorded(items, BlindReview, hash(flow.payload))
    ensures var w := Stubborn(hash, fingerprint);
            var (v, kept) := Iterate(c, w, task, flow, items, i);
            var p := PassOf(c, w, flow, items, i);
            && v.Go? && Uncancelled(c, v.flow) && v.flow.payload == flow.payload
            && p.stage == flow.stage
            && (p.kind.Blocked? <==> flow.stage.BlindReview? && !Recorded(items, BlindReview, hash(flow.payload)))
            && (p.kind.Skipped? <==> Recorded(items, flow.stage, hash(flow.payload)))
            && Follows(flow.stage, p.kind, v.flow.stage)
            && (!p.kind.Blocked? ==> v.flow.rounds == flow.rounds)
            && (Recorded(items, BlindReview, hash(flow.payload)) || flow.stage.BlindReview? ==>
                  Recorded(kept, BlindReview, hash(flow.payload)))
            && forall t :: Has(kept, t) ==> Has(items, t) || t == flow.stage
  {
    var w := Stubborn(hash, fingerprint);
    assert flow.payload + map[] == flow.payload;
    var (v, kept) := Iterate(c, w, task, flow, items, i);
    assert v.Go?;
    PassShape(c, w, task, flow, items, i);
    IterateShape(c, w, task, flow, items, i);
    forall t | Has(kept, t) ensures Has(items, t) || t == flow.stage {
      HasOneMore(items, kept, flow.stage, t);
    }
  }

  /** Once the blocked review is recorded for this payload, nothing calls it again. */
  lemma {:induction false} StubbornCompletes(c: Config, hash: Payload -> Hash, fingerprint: string -> Fingerprint,
                                             task: TaskId, flow: Flow, items: seq<Checkpoint>, i: nat)
    requires Uncancelled(c, flow) && Recorded(items, BlindReview, hash(flow.payload))
    ensures var r := Execute(c, Stubborn(hash, fingerprint), task, flow, items, i);
            r.flow.stage.Completed? && r.ending.Done?
    decreases Measure(c, flow)
  {
    hide Iterate, Measure, Stubborn;
    if Halted(flow.stage) {
    } else {
      StubbornStep(c, hash, fingerprint, task, flow, items, i);
      var (v, kept) := Iterate(c, Stubborn(hash, fingerprint), task, flow, items, i);
      StubbornCompletes(c, hash, fingerprint, task, v.flow, kept, i + 1);
    }
  }

  ghost predicate NothingFrom(items: seq<Checkpoint>, s: Stage) {
    forall t :: Has(items, t) ==> Position(t) < Position(s)
  }

  lemma {:induction false} StubbornClimbs(c: Config, hash: Payload -> Hash, fingerprint: string -> Fingerprint,
                                          task: TaskId, flow: Flow, items: seq<Checkpoint>, i: nat)
    requires Uncancelled(c, flow) && Position(flow.stage) <= 11 && NothingFrom(items, flow.stage)
    requires flow.rounds < c.maxRounds
    ensures var r := Execute(c, Stubborn(hash, fingerprint), task, flow, items, i);
            r.flow.stage.Completed? && r.ending.Done?
    decreases Measure(c, flow)
  {
    hide Iterate, Measure, Stubborn;
    StubbornStep(c, hash, fingerprint, task, flow, items, i);
    var (v, kept) := Iterate(c, Stubborn(hash, fingerprint), task, flow, items, i);
    if flow.stage.BlindReview? {
      StubbornCompletes(c, hash, fingerprint, task, v.flow, kept, i + 1);
    } else {
      StubbornClimbs(c, hash, fingerprint, task, v.flow, kept, i + 1);
    }
  }

  ghost predicate OnlySkips(ps: seq<Pass>, t: Stage) {
    forall k :: 0 <= k < |ps| && ps[k].stage == t ==> ps[k].kind.Skipped?
  }

  lemma {:induction false} StubbornSkips(c: Config, hash: Payload -> Hash, fingerprint: string -> Fingerprint,
                                         task: TaskId, flow: Flow, items: seq<Checkpoint>, i: nat, n: nat)
    requires Uncancelled(c, flow) && Recorded(items, BlindReview, hash(flow.payload))
    requires Goes(c, Stubborn(hash, fingerprint), task, flow, items, i, n)
    ensures OnlySkips(Passes(c, Stubborn(hash, fingerprint), task, flow, items, i, n), BlindReview)
    decreases n
  {
    hide Iterate, PassOf, Stubborn;
    if n == 0 {
    } else {
      StubbornStep(c, hash, fingerprint, task, flow, items, i);
      var (v, kept) := Iterate(c, Stubborn(hash, fingerprint), task, flow, items, i);
      StubbornSkips(c, hash, fingerprint, task, v.flow, kept, i + 1, n - 1);
    }
  }

  lemma {:induction false} StubbornBlocks(c: Config, hash: Payload -> Hash, fingerprint: string -> Fingerprint,
                                          task: TaskId, flow: Flow, items: seq<Checkpoint>, i: nat, n: nat)
    requires Uncancelled(c, flow) && Position(flow.stage) <= 11 && NothingFrom(items, flow.stage)
    requires flow.rounds < c.maxRounds
    requires Goes(c, Stubborn(hash, fingerprint), task, flow, items, i, n)
    requires At(c, Stubborn(hash, fingerprint), task, flow, items, i, n).0.stage.Completed?
    ensures StandsBlocked(Passes(c, Stubborn(hash, fingerprint), task, flow, items, i, n), BlindReview)
    decreases n
  {
    hide Iterate, PassOf, Stubborn;
    StubbornStep(c, hash, fingerprint, task, flow, items, i);
    var w := Stubborn(hash, fingerprint);
    var (v, kept) := Iterate(c, w, task, flow, items, i);
    var p := PassOf(c, w, flow, items, i);
    var rest := Passes(c, w, task, v.flow, kept, i + 1, n - 1);
    if flow.stage.BlindReview? {
      StubbornSkips(c, hash, fingerprint, task, v.flow, kept, i + 1, n - 1);
      assert p.kind.Blocked?;
      BlockedFirst(p, rest, BlindReview);
    } else {
      StubbornBlocks(c, hash, fingerprint, task, v.flow, kept, i + 1, n - 1);
      BlockedLater(p, rest, BlindReview);
    }
  }

  lemma BlockedFirst(p: Pass, rest: seq<Pass>, t: Stage)
    requires p.stage == t && p.kind.Blocked?
    requires OnlySkips(rest, t)
    ensures StandsBlocked([p] + rest, t)
  {
    var ps := [p] + rest;
    assert forall l :: 0 < l < |ps| ==> ps[l] == rest[l - 1];
    assert ps[0] == p && !CalledAfter(ps, 0, t);
  }

  lemma BlockedLater(p: Pass, rest: seq<Pass>, t: Stage)
    requires StandsBlocked(rest, t)
    ensures StandsBlocked([p] + rest, t)
  {
    var ps := [p] + rest;
    var k :| 0 <= k < |rest| && rest[k].stage == t && rest[k].kind.Blocked? && !CalledAfter(rest, k, t);
    assert ps[k + 1] == rest[k];
    assert forall l :: 0 < l < |ps| ==> ps[l] == rest[l - 1];
    assert !CalledAfter(ps, k + 1, t);
  }

  /** However the engine is configured and whatever is hashed, the draft is prepared and the run completes
      although the blind review asked for a correction each time it was asked. */
  lemma BlockedReviewCompletes(c: Config, hash: Payload -> Hash, fingerprint: string -> Fingerprint, task: TaskId,
                               flow: Flow)
    requires AllRegistered(c) && !flow.cancelled && flow.stage.Receive? && flow.rounds < c.maxRounds
    ensures var w := Stubborn(hash, fingerprint);
            var r := RunWorkflow(c, w, task, flow, []);
            && r.ending.Done? && r.flow.stage.Completed? && Has(r.items, PrepareDraftPr)
            && Goes(c, w, task, flow, [], 0, r.iterations)
            && StandsBlocked(Passes(c, w, task, flow, [], 0, r.iterations), BlindReview)
  {
    var w := Stubborn(hash, fingerprint);
    StubbornClimbs(c, hash, fingerprint, task, flow, [], 0);
    DoneGoes(c, w, task, flow, [], 0);
    var n := RunWorkflow(c, w, task, flow, []).iterations;
    StubbornBlocks(c, hash, fingerprint, task, flow, [], 0, n);
    StubbornNeverEarly(c, hash, fingerprint, task, flow, [], 0);
    ExecuteCovers(c, w, task, flow, [], 0);
    hide Execute, Goes, Passes, At;
    assert Needs(Completed, PrepareDraftPr);
  }

  lemma {:induction false} StubbornNeverEarly(c: Config, hash: Payload -> Hash, fingerprint: string -> Fingerprint,
                                              task: TaskId, flow: Flow, items: seq<Checkpoint>, i: nat)
    requires Uncancelled(c, flow) && Position(flow.stage) <= 11 && NothingFrom(items, flow.stage)
    requires flow.rounds < c.maxRounds
    ensures !CorrectsEarly(c, Stubborn(hash, fingerprint), task, flow, items, i)
    decreases Measure(c, flow)
  {
    hide Iterate, Measure, Stubborn;
    StubbornStep(c, hash, fingerprint, task, flow, items, i);
    var (v, kept) := Iterate(c, Stubborn(hash, fingerprint), task, flow, items, i);
    if flow.stage.BlindReview? {
      LateAddsNoEarlierStage(c, Stubborn(hash, fingerprint), task, v.flow, kept, i + 1, Receive);
    } else {
      StubbornNeverEarly(c, hash, fingerprint, task, v.flow, kept, i + 1);
    }
  }
}
