/** Dead letters are written once and replayed at most once, unless an approval that was read before a
    replay is written after it. */
module DeadLetterReplay {
  import opened Options
  import opened QueueTypes
  import opened QueueScripts
  import opened DeliveryProtocol
  import opened DeliveryInvariant
  import opened WorkerSteps
  import opened RetryPolicies
  import OnePlace

  /** Everything in a record but its approval and its replay marker. */
  function Core(r: DeadLetter): DeadLetter { r.(approval := Pending, replayedAs := None) }

  ghost predicate ReadersAgree(s: System) {
    && (forall a :: a in s.replayers ==>
          s.replayers[a].messageId in s.store.dlq && Core(s.replayers[a]) ==
              Core(s.store.dlq[s.replayers[a].messageId]))
    && (forall a :: a in s.approvers ==>
          s.approvers[a].read.messageId in s.store.dlq
          && Core(s.approvers[a].read) == Core(s.store.dlq[s.approvers[a].read.messageId]))
  }

  // ----- Which steps write the dead-letter hash -----

  /** Records stay, except that a step may add records, which nobody has approved or replayed. */
  predicate DlqGrows(st: Store, t: Store) {
    && (forall m :: m in st.dlq ==> m in t.dlq && t.dlq[m] == st.dlq[m])
    && forall m :: m in t.dlq && m !in st.dlq ==> Untouched(t.dlq[m])
  }

  predicate Untouched(r: DeadLetter) { r.approval == Pending && r.replayedAs == None }

  lemma DropKeepsDlq(st: Store, p: Priority)
    requires |st.ready| == 4 && st.ready[p] != []
    ensures |DropHead(st, p).ready| == 4 && DropHead(st, p).dlq == st.dlq
  {
  }

  lemma LeaseKeepsDlq(st: Store, p: Priority, token: Token, claimedAt: Time, deadline: Time)
    requires |st.ready| == 4 && st.ready[p] != []
    ensures LeaseHead(st, p, token, claimedAt, deadline).dlq == st.dlq
  {
  }

  lemma {:induction false} ClaimKeepsDlq(st: Store, p: nat, token: Token, claimedAt: Time, deadline: Time)
    requires |st.ready| == 4 && p <= 4
    ensures ClaimFrom(st, p, token, claimedAt, deadline).0.dlq == st.dlq
    decreases 4 - p
  {
    hide ClaimFrom, Dead, DropHead, LeaseHead;
    ClaimIteration(st, p, token, claimedAt, deadline);
    if p < 4 {
      if st.ready[p] == [] {
        ClaimKeepsDlq(st, p + 1, token, claimedAt, deadline);
      } else if Dead(st, st.ready[p][0]) {
        DropKeepsDlq(st, p);
        ClaimKeepsDlq(DropHead(st, p), p + 1, token, claimedAt, deadline);
      } else {
        LeaseKeepsDlq(st, p, token, claimedAt, deadline);
      }
    }
  }

  /** The step at most adds records, and no operator moves. */
  predicate OnlyAdds(s: System, t: System) {
    DlqGrows(s.store, t.store) && t.replayers == s.replayers && t.approvers == s.approvers
  }

  lemma ClaimAdds(s: System, a: ActorId, token: Token, sampled: Time, deadline: Time)
    requires |s.store.ready| == 4
    ensures OnlyAdds(s, NextClaim(s, a, token, sampled, deadline))
  {
    hide ClaimFrom;
    ClaimKeepsDlq(s.store, 0, token, sampled, deadline);
    match ClaimFrom(s.store, 0, token, sampled, deadline).1
    case None =>
    case Some(e) =>
  }

  lemma ScheduleKeepsDlq(st: Store, r: RetryRecord)
    ensures Schedule(st, r).0.dlq == st.dlq
  {
    if Schedule(st, r).1 {
    } else {
    }
  }

  lemma ScheduleAdds(c: Config, s: System, a: ActorId, now: Time, draw: Draw)
    requires a in s.workers && s.workers[a].phase.Dispatching?
    ensures OnlyAdds(s, NextSchedule(c, s, a, now, draw))
  {
    hide FailureRecord, Schedule, NextSchedule;
    ScheduleStore(c, s, a, now, draw);
    match FailureRecord(c.policy, Rebuilt(s.workers[a].delivery), s.workers[a].phase.failure, now, now, draw)
    case None =>
    case Some(r) => ScheduleKeepsDlq(s.store, r);
  }

  lemma FailureUntouched(d: Delivery, f: ExecutionFailure, id: RecordId)
    ensures Untouched(FailureDeadLetter(d, f, id))
  {
  }

  lemma FinalizeAdds(s: System, a: ActorId, id: RecordId)
    requires a in s.workers && s.workers[a].phase.Finalizing?
    ensures OnlyAdds(s, NextFinalize(s, a, id))
  {
    hide FailureDeadLetter, Finalize, Untouched;
    FailureUntouched(s.workers[a].delivery, s.workers[a].phase.failure, id);
    FinalizeGrows(s.store, FailureDeadLetter(s.workers[a].delivery, s.workers[a].phase.failure, id));
  }

  lemma FinalizeGrows(st: Store, r: DeadLetter)
    requires Untouched(r)
    ensures DlqGrows(st, Finalize(st, r).0)
  {
    if r.messageId in st.dlq {
    } else {
    }
  }

  lemma AckAdds(s: System, d: Delivery)
    ensures OnlyAdds(s, AfterAck(s, d))
  {
    if AckResult(s, d) == 1 {
    } else {
    }
  }

  lemma AckSuccessAdds(s: System, a: ActorId, answer: Answer)
    requires a in s.workers
    ensures OnlyAdds(s, NextAckSuccess(s, a, answer))
  {
    AckAdds(s, s.workers[a].delivery);
    AckFrame(s, a, answer);
    hide AfterAck, NextAckSuccess;
  }

  lemma RenewAdds(s: System, a: ActorId, deadline: Time)
    requires a in s.workers
    ensures OnlyAdds(s, NextRenew(s, a, deadline))
  {
    var d := s.workers[a].delivery;
    RenewFrame(s.store, d.messageId, d.token, d.taskId, deadline, d.token.worker);
    hide Renew;
  }

  lemma WorkAdds(c: Config, s: System, a: ActorId, x: WorkerStep)
    requires |s.store.ready| == 4 && WorkEnabled(c, s, a, x)
    ensures OnlyAdds(s, NextWork(c, s, a, x))
  {
    hide NextWork, NextClaim, NextSchedule, NextFinalize, NextAckSuccess, AfterAck, NextRenew;
    ScriptStep(c, s, a, x);
    match x
    case ClaimNext(token, sampled) => ClaimAdds(s, a, token, sampled, sampled + c.visibility);
    case RenewLease(sampled) => RenewAdds(s, a, sampled + c.visibility);
    case ScheduleFailure(now, draw) => ScheduleAdds(c, s, a, now, draw);
    case FinalizeFailure(id) => FinalizeAdds(s, a, id);
    case AckSuccess(answer) => AckSuccessAdds(s, a, answer);
    case AckFailure => AckAdds(s, s.workers[a].delivery);
    case _ => QuietFrame(c, s, a, x);
  }

  lemma RecoverOneGrows(st: Store, m: MessageId, now: Time, terminal: bool, plan: RecoveryPlan)
    requires plan.DeadPlan? ==> Untouched(plan.record)
    ensures DlqGrows(st, RecoverOne(st, m, now, terminal, plan).0)
  {
    if Expired(st, m, now) {
      FilePlanGrows(ReleaseLease(st, m), m, st.inflight[m].taskId, plan);
      hide FilePlan;
    }
  }

  lemma PlanUntouched(c: Config, r: Recoverer, draw: Draw, id: RecordId)
    requires r.phase.Decided? && r.pending != []
    ensures PlanOf(c, r, draw, id).DeadPlan? ==> Untouched(PlanOf(c, r, draw, id).record)
  {
    hide Decide;
  }

  lemma FilePlanGrows(st: Store, m: MessageId, task: TaskId, plan: RecoveryPlan)
    requires plan.DeadPlan? ==> Untouched(plan.record)
    ensures DlqGrows(st, FilePlan(st, m, task, plan).0)
  {
  }

  lemma RecoverAdds(c: Config, s: System, a: ActorId, x: RecovererStep)
    requires RecoverEnabled(s, a, x)
    ensures OnlyAdds(s, NextRecover(c, s, a, x))
  {
    hide RecoverOne, PlanRecovery, NextReader;
    if x.RunRecovery? {
      var r := s.recoverers[a];
      PlanUntouched(c, r, x.draw, x.id);
      RecoverOneGrows(s.store, r.pending[0], r.now, r.phase.terminal, PlanOf(c, r, x.draw, x.id));
    }
  }

  /** Only replays and approvals rewrite a record; every other step at most adds records. */
  lemma OthersAdd(c: Config, s: System, x: Action)
    requires |s.store.ready| == 4 && Enabled(c, s, x) && !x.Operate?
    ensures OnlyAdds(s, Next(c, s, x))
  {
    hide NextWork, WorkEnabled, NextRecover, RecoverEnabled, PromoteAll, Cancel, NextEnqueue, IsDuePage;
    match x
    case Work(a, step) => WorkAdds(c, s, a, step);
    case Recover(a, step) => RecoverAdds(c, s, a, step);
    case PromoteDue(_, _, page) => PromoteAllFrame(s.store, page, Tally(0, 0, 0));
    case CancelTask(task) => CancelFrame(s.store, task);
    case EnqueueTask(key, m, task, state, priority) => EnqueueAdds(s, key, m, task, state, priority);
    case _ =>
  }

  lemma EnqueueAdds(s: System, key: DedupeKey, m: MessageId, task: TaskId, state: TaskState, priority: Priority)
    requires |s.store.ready| == 4
    ensures OnlyAdds(s, NextEnqueue(s, key, m, task, state, priority))
  {
    EnqueueFrame(s.store, key, Envelope(m, task, state, 0, priority, None));
    hide Enqueue;
  }

  // ----- First writer wins -----

  /** The record's identity, envelope, attempts and reasons never change once written. */
  lemma RecordsAreFixed(c: Config, s: System, x: Action)
    requires Inv(s) && ReadersAgree(s) && Enabled(c, s, x)
    ensures ReadersAgree(Next(c, s, x))
    ensures forall m :: m in s.store.dlq ==>
              m in Next(c, s, x).store.dlq && Core(Next(c, s, x).store.dlq[m]) == Core(s.store.dlq[m])
  {
    hide Inv, ReadersAgree, Core, Next, Enabled, NextOperate, OperateEnabled;
    FourLists(s);
    KeysAreIds(s);
    OperateStep(c, s, x);
    if x.Operate? {
      OperateFixed(s, x.actor, x.operate);
    } else {
      OthersAdd(c, s, x);
      StillAgree(s, Next(c, s, x));
    }
  }

  lemma KeysAreIds(s: System)
    requires Inv(s)
    ensures forall m :: m in s.store.dlq ==> s.store.dlq[m].messageId == m
  {
  }

  lemma OperateStep(c: Config, s: System, x: Action)
    requires |s.store.ready| == 4 && Enabled(c, s, x)
    ensures x.Operate? ==>
              OperateEnabled(s, x.actor, x.operate) && Next(c, s, x) == NextOperate(s, x.actor, x.operate)
  {
    hide NextOperate, OperateEnabled, NextWork, WorkEnabled, NextRecover, RecoverEnabled, NextEnqueue, Cancel,
        PromoteAll, WithDurable;
  }

  lemma StillAgree(s: System, t: System)
    requires ReadersAgree(s) && OnlyAdds(s, t)
    ensures ReadersAgree(t)
    ensures forall m :: m in s.store.dlq ==> m in t.store.dlq && Core(t.store.dlq[m]) == Core(s.store.dlq[m])
  {
  }

  lemma OperateFixed(s: System, a: ActorId, x: OperatorStep)
    requires |s.store.ready| == 4 && ReadersAgree(s) && OperateEnabled(s, a, x)
    requires forall m :: m in s.store.dlq ==> s.store.dlq[m].messageId == m
    ensures ReadersAgree(NextOperate(s, a, x))
    ensures forall m :: m in s.store.dlq ==>
              m in NextOperate(s, a, x).store.dlq && Core(NextOperate(s, a, x).store.dlq[m]) == Core(s.store.dlq[m])
  {
    match x
    case RunReplay(n) =>
      ReplayFixed(s, a, n);
      hide NextReplay;
    case _ =>
  }

  lemma ReplayFixed(s: System, a: ActorId, n: MessageId)
    requires |s.store.ready| == 4 && ReadersAgree(s) && a in s.replayers
    ensures ReadersAgree(NextReplay(s, a, n))
    ensures forall m :: m in s.store.dlq ==>
              m in NextReplay(s, a, n).store.dlq && Core(NextReplay(s, a, n).store.dlq[m]) == Core(s.store.dlq[m])
  {
    ReplayDlq(s, a, n);
    hide NextReplay;
  }

  lemma ReplayDlq(s: System, a: ActorId, n: MessageId)
    requires |s.store.ready| == 4 && a in s.replayers
    ensures var read := s.replayers[a];
            var t := NextReplay(s, a, n);
            && t.replayers == s.replayers - {a} && t.approvers == s.approvers
            && (Replay(s.store, read.messageId, n, read.(replayedAs := Some(n))).1.Replayed? ==>
                  t.store.dlq == s.store.dlq[read.messageId := read.(replayedAs := Some(n))])
            && (!Replay(s.store, read.messageId, n, read.(replayedAs := Some(n))).1.Replayed? ==> t.store == s.store)
  {
    var read := s.replayers[a];
    if Replay(s.store, read.messageId, n, read.(replayedAs := Some(n))).1.Replayed? {
    } else {
    }
  }

  /** Whatever runs in between, a second finalization of a message returns the first record's content. */
  lemma {:induction false} FirstWriterWins(c: Config, s: System, xs: seq<Action>, r: DeadLetter)
    requires Inv(s) && ReadersAgree(s) && |s.store.ready| == 4 && Run(c, s, xs) && r.messageId in s.store.dlq
    ensures var t := After(c, s, xs);
            && Finalize(t.store, r).0 == t.store
            && Core(Finalize(t.store, r).1) == Core(s.store.dlq[r.messageId])
    decreases xs
  {
    hide Inv, Next, Enabled, ReadersAgree;
    if xs == [] {
    } else {
      RecordsAreFixed(c, s, xs[0]);
      StepKeepsInv(c, s, xs[0]);
      FourLists(Next(c, s, xs[0]));
      FirstWriterWins(c, Next(c, s, xs[0]), xs[1..], r);
    }
  }

  // ----- The replay marker -----

  predicate Marked(st: Store, m: MessageId, n: MessageId) {
    m in st.dlq && st.dlq[m].replayedAs == Some(n)
  }

  /** An approval write whose copy of the record does not carry the current marker. */
  predicate Overwrites(s: System, x: Action, m: MessageId) {
    && x.Operate? && x.operate.RunApproval? && x.actor in s.approvers
    && s.approvers[x.actor].read.messageId == m && m in s.store.dlq
    && s.approvers[x.actor].read.replayedAs != s.store.dlq[m].replayedAs
  }

  /** A replay marker survives a step exactly when the step is not an approval written from a copy that
      lacks it. */
  lemma MarkerSurvivesIff(c: Config, s: System, x: Action, m: MessageId, n: MessageId)
    requires Inv(s) && Enabled(c, s, x) && Marked(s.store, m, n)
    ensures Marked(Next(c, s, x).store, m, n) <==> !Overwrites(s, x, m)
  {
    hide Inv;
    FourLists(s);
    if x.Operate? {
      OperateMarker(s, x.actor, x.operate, m, n);
      hide NextOperate;
    } else {
      OthersAdd(c, s, x);
      hide Next, Enabled;
    }
  }

  lemma OperateMarker(s: System, a: ActorId, x: OperatorStep, m: MessageId, n: MessageId)
    requires |s.store.ready| == 4 && OperateEnabled(s, a, x) && Marked(s.store, m, n)
    ensures Marked(NextOperate(s, a, x).store, m, n) <==> !Overwrites(s, Operate(a, x), m)
  {
    match x
    case RunReplay(k) =>
      ReplayDlq(s, a, k);
      hide NextReplay;
    case RunApproval =>
    case ReadForReplay(_) =>
    case ReadForApproval(_, _) =>
  }

  /** The step is a replay of record m that succeeds. */
  predicate Replays(s: System, x: Action, m: MessageId)
    requires |s.store.ready| == 4
  {
    && x.Operate? && x.operate.RunReplay? && x.actor in s.replayers && s.replayers[x.actor].messageId == m
    && Replay(s.store, m, x.operate.newMessage,
       s.replayers[x.actor].(replayedAs := Some(x.operate.newMessage))).1.Replayed?
  }

  /** Successful replays of m along a run. */
  ghost function ReplayCount(c: Config, s: System, xs: seq<Action>, m: MessageId): nat
    requires |s.store.ready| == 4 && Run(c, s, xs)
    decreases xs
  {
    if xs == [] then 0
    else (if Replays(s, xs[0], m) then 1 else 0) + ReplayCount(c, Next(c, s, xs[0]), xs[1..], m)
  }

  /** No approval of m along the run is written from a copy with an outdated marker. */
  ghost predicate ApprovalsCurrent(c: Config, s: System, xs: seq<Action>, m: MessageId)
    requires |s.store.ready| == 4 && Run(c, s, xs)
    decreases xs
  {
    xs != [] ==> !Overwrites(s, xs[0], m) && ApprovalsCurrent(c, Next(c, s, xs[0]), xs[1..], m)
  }

  lemma ReplayMarks(c: Config, s: System, x: Action, m: MessageId)
    requires |s.store.ready| == 4 && Enabled(c, s, x) && Replays(s, x, m)
    ensures m in s.store.dlq && s.store.dlq[m].replayedAs.None?
    ensures Marked(Next(c, s, x).store, m, x.operate.newMessage)
  {
    ReplayDlq(s, x.actor, x.operate.newMessage);
    hide NextReplay;
  }

  /** Any number of replayers may interleave their reads and scripts: at most one of them succeeds. */
  lemma {:induction false} ReplayedAtMostOnce(c: Config, s: System, xs: seq<Action>, m: MessageId)
    requires Inv(s) && |s.store.ready| == 4 && Run(c, s, xs) && ApprovalsCurrent(c, s, xs, m)
    ensures ReplayCount(c, s, xs, m) <= 1
    ensures m in s.store.dlq && s.store.dlq[m].replayedAs.Some? ==> ReplayCount(c, s, xs, m) == 0
    decreases xs
  {
    hide Inv, Next, Enabled, Overwrites;
    if xs == [] {
    } else {
      var x := xs[0];
      StepKeepsInv(c, s, x);
      FourLists(Next(c, s, x));
      ReplayedAtMostOnce(c, Next(c, s, x), xs[1..], m);
      if Replays(s, x, m) {
        ReplayMarks(c, s, x, m);
      } else if m in s.store.dlq && s.store.dlq[m].replayedAs.Some? {
        MarkerSurvivesIff(c, s, x, m, s.store.dlq[m].replayedAs.value);
      }
    }
  }

  /** approve_replay reads and writes in two steps.  After a replay, an approval written from an earlier
      copy makes a second replay succeed exactly when that copy lacks the marker. */
  lemma SecondReplayIff(st: Store, m: MessageId, first: MessageId, second: MessageId, read: DeadLetter, u: DeadLetter)
    requires |st.ready| == 4 && m in st.dlq && read.messageId == m && Core(read) == Core(st.dlq[m])
    requires Replay(st, m, first, st.dlq[m].(replayedAs := Some(first))).1.Replayed?
    ensures var replayed := Replay(st, m, first, st.dlq[m].(replayedAs := Some(first))).0;
            var approved := WriteApproval(replayed, read, true);
            && |approved.ready| == 4
            && (Replay(approved, m, second, u).1.Replayed? <==> read.replayedAs.None?)
  {
    var r := st.dlq[m];
    assert read == Core(read).(approval := read.approval, replayedAs := read.replayedAs);
    assert r == Core(r).(approval := r.approval, replayedAs := r.replayedAs);
  }

  /** A successful replay pushes exactly one envelope, the recorded one under the new id, at the recorded
      priority, and changes nothing else but the marker. */
  lemma ReplayPushesOne(s: System, a: ActorId, n: MessageId)
    requires Inv(s) && a in s.replayers && n !in s.issued
    ensures |s.store.ready| == 4
    ensures var read := s.replayers[a];
            var (t, status) := Replay(s.store, read.messageId, n, read.(replayedAs := Some(n)));
            var r := s.store.dlq[read.messageId];
            && read.messageId in s.store.dlq
            && (status.Replayed? ==>
                  && r.replayedAs.None? && r.eligible && r.approval == Approved && r.taskId !in s.store.cancelled
                  && t.ready == s.store.ready[r.priority := s.store.ready[r.priority] +
                                  [Envelope(n, r.taskId, r.envelope.state, r.envelope.attempt, r.priority, None)]]
                  && t == s.store.(ready := t.ready,
                     dlq := s.store.dlq[read.messageId := read.(replayedAs := Some(n))]))
            && (!status.Replayed? ==> t == s.store)
  {
    var k := s.replayers[a].messageId;
    OnePlace.ReaderKeyExists(s, a);
    FourLists(s);
    assert DeadLetterOk(s.issued, s.store.dlq[k]);
    hide Inv;
  }
}
