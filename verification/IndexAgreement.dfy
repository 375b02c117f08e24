/** In every reachable state the indexes agree with the tables, so the scripts' repair branches are never taken. */
module IndexAgreement {
  import opened QueueTypes
  import opened QueueScripts
  import opened DeliveryProtocol
  import opened DeliveryInvariant
  import Fencing
  import ProtocolLimits

  lemma ReachableInv(c: Config, xs: seq<Action>)
    requires Run(c, INITIAL, xs)
    ensures Inv(After(c, INITIAL, xs))
  {
    InitialInv();
    RunKeepsInv(c, INITIAL, xs);
  }

  /** The three lease tables have the same keys and the score is the lease's deadline; the delayed hash and
      its index have the same keys and the score is the due time; both dead-letter indexes and the task
      index point at existing entries of their own task; every ready list holds its own priority. */
  ghost predicate IndexesAgree(t: System) {
    var st := t.store;
    && st.inflight.Keys == st.leases.Keys == st.leaseExpiry.Keys
    && (forall m :: m in st.leases ==>
         st.leaseExpiry[m] == st.leases[m].deadline && st.leases[m].taskId == st.inflight[m].taskId)
    && st.delayed.Keys == st.delayedDue.Keys
    && (forall m :: m in st.delayed ==> st.delayed[m].Scheduled? && st.delayed[m].record.dueAt == st.delayedDue[m])
    && (forall task :: task in st.dlqTaskIndex ==>
          st.dlqTaskIndex[task] in st.dlq && st.dlq[st.dlqTaskIndex[task]].taskId == task)
    && (forall id :: id in st.dlqRecordIndex ==> st.dlqRecordIndex[id] in st.dlq)
    && (forall task :: task in st.taskIndex ==>
         st.taskIndex[task] in t.issued && t.issued[st.taskIndex[task]].taskId == task)
    && |st.ready| == 4 && (forall p, i :: 0 <= p < 4 && 0 <= i < |st.ready[p]| ==> st.ready[p][i].priority == p)
  }

  lemma DelayedAt(s: System, m: MessageId)
    requires Inv(s) && m in s.store.delayed
    ensures s.store.delayed[m].Scheduled? && s.store.delayed[m].record.dueAt == s.store.delayedDue[m]
  {
    assert RetryOk(s.issued, m, s.store.delayed[m], s.store.delayedDue[m]);
  }

  lemma DeadLetterIndexAt(s: System, task: TaskId)
    requires Inv(s) && task in s.store.dlqTaskIndex
    ensures s.store.dlqTaskIndex[task] in s.store.dlq && s.store.dlq[s.store.dlqTaskIndex[task]].taskId == task
  {
    var m := s.store.dlqTaskIndex[task];
    assert m in s.store.dlq && s.store.dlq[m].messageId == m;
    assert DeadLetterOk(s.issued, s.store.dlq[m]);
  }

  lemma LeaseAt(s: System, m: MessageId)
    requires Inv(s) && m in s.store.leases
    ensures s.store.leaseExpiry[m] == s.store.leases[m].deadline
            && s.store.leases[m].taskId == s.store.inflight[m].taskId
  {
    assert m in s.store.inflight;
  }

  lemma InvAgrees(s: System)
    requires Inv(s)
    ensures IndexesAgree(s)
  {
    forall m | m in s.store.leases
      ensures s.store.leaseExpiry[m] == s.store.leases[m].deadline
              && s.store.leases[m].taskId == s.store.inflight[m].taskId
    {
      LeaseAt(s, m);
    }
    forall m | m in s.store.delayed ensures s.store.delayed[m].Scheduled?
        && s.store.delayed[m].record.dueAt == s.store.delayedDue[m] {
      DelayedAt(s, m);
    }
    forall task | task in s.store.dlqTaskIndex
      ensures s.store.dlqTaskIndex[task] in s.store.dlq && s.store.dlq[s.store.dlqTaskIndex[task]].taskId == task
    {
      DeadLetterIndexAt(s, task);
    }
  }

  lemma IndexesAlwaysAgree(c: Config, xs: seq<Action>)
    requires Run(c, INITIAL, xs)
    ensures IndexesAgree(After(c, INITIAL, xs))
  {
    ReachableInv(c, xs);
    InvAgrees(After(c, INITIAL, xs));
    hide Run, After, Inv;
  }

  /** No recovery ever cleans an orphan, and no promotion ever raises or meets an id without an entry. */
  lemma RepairBranchesUnreachable(c: Config, xs: seq<Action>, m: MessageId, now: Time, terminal: bool,
                                  plan: RecoveryPlan,
                                  count: nat, page: seq<MessageId>)
    requires Run(c, INITIAL, xs) && IsDuePage(After(c, INITIAL, xs).store.delayedDue, now, count, page)
    ensures var st := After(c, INITIAL, xs).store;
            && RecoverOne(st, m, now, terminal, plan).1 != OrphanCleaned
            && (forall k :: k in page ==> k in st.delayed)
            && |st.ready| == 4 && PromoteAll(st, page, Tally(0, 0, 0)).1.Some?
  {
    IndexesAlwaysAgree(c, xs);
    ReachableInv(c, xs);
    var t := After(c, INITIAL, xs);
    hide Run, After, Inv, RecoverOne;
    Fencing.RecoveryActsIffExpired(t, m, now, terminal, plan);
    ProtocolLimits.PromotionRaisesIff(t.store, page, Tally(0, 0, 0));
  }
}
