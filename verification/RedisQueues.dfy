/** The queue's keys as mutable state.  Each script is a method that updates them in place and is
    proved to do exactly what its function in QueueScripts says; the theorems about runs are proved
    about those functions. */
module RedisQueues {
  import opened Options
  import opened QueueTypes
  import opened QueueScripts

  class RedisQueue {
    var ready: seq<seq<Envelope>>
    var inflight: map<MessageId, Envelope>
    var leases: map<MessageId, Lease>
    var leaseExpiry: map<MessageId, Time>
    var delayed: map<MessageId, DelayedEntry>
    var delayedDue: map<MessageId, Time>
    var dlq: map<MessageId, DeadLetter>
    var dlqTaskIndex: map<TaskId, MessageId>
    var dlqRecordIndex: map<RecordId, MessageId>
    var cancelled: set<TaskId>
    var taskIndex: map<TaskId, MessageId>
    var dedupe: map<DedupeKey, MessageId>

    ghost function Value(): Store
      reads this
    {
      Store(ready, inflight, leases, leaseExpiry, delayed, delayedDue, dlq, dlqTaskIndex, dlqRecordIndex,
            cancelled, taskIndex, dedupe)
    }

    ghost predicate Valid()
      reads this
    {
      |ready| == 4
    }

    constructor ()
      ensures Valid() && Value() == EMPTY
    {
      ready := [[], [], [], []];
      inflight, leases, leaseExpiry := map[], map[], map[];
      delayed, delayedDue := map[], map[];
      dlq, dlqTaskIndex, dlqRecordIndex := map[], map[], map[];
      cancelled, taskIndex, dedupe := {}, map[], map[];
    }

    method Enqueue(key: DedupeKey, e: Envelope) returns (accepted: bool, id: MessageId)
      requires Valid()
      modifies this
      ensures Valid()
      ensures (Value(), accepted, id) == QueueScripts.Enqueue(old(Value()), key, e)
    {
      if key in dedupe {
        return false, dedupe[key];
      }
      dedupe := dedupe[key := e.messageId];
      taskIndex := taskIndex[e.taskId := e.messageId];
      ready := ready[e.priority := ready[e.priority] + [e]];
      return true, e.messageId;
    }

    method Release(m: MessageId)
      requires Valid()
      modifies this
      ensures Valid() && Value() == ReleaseLease(old(Value()), m)
    {
      inflight := inflight - {m};
      leases := leases - {m};
      leaseExpiry := leaseExpiry - {m};
    }

    /** One pass over the four ready lists; at most one element is popped from each. */
    method Claim(token: Token, claimedAt: Time, deadline: Time) returns (claimed: Option<Envelope>)
      requires Valid()
      modifies this
      ensures Valid()
      ensures (Value(), claimed) == QueueScripts.Claim(old(Value()), token, claimedAt, deadline)
    {
      var p := 0;
      while p < 4
        invariant 0 <= p <= 4 && Valid()
        invariant ClaimFrom(Value(), p, token, claimedAt, deadline) ==
                  QueueScripts.Claim(old(Value()), token, claimedAt, deadline)
      {
        if ready[p] != [] {
          ghost var before := Value();
          var e := ready[p][0];
          ready := ready[p := ready[p][1..]];
          if e.taskId in cancelled || e.state.Terminal() {
            Release(e.messageId);
            assert Value() == DropHead(before, p);
          } else {
            var stamped := Stamped(e, token, claimedAt, deadline);
            inflight := inflight[e.messageId := stamped];
            leases := leases[e.messageId := LeaseOf(e, token, claimedAt, deadline)];
            leaseExpiry := leaseExpiry[e.messageId := deadline];
            assert Value() == LeaseHead(before, p, token, claimedAt, deadline);
            return Some(stamped);
          }
        }
        p := p + 1;
      }
      return None;
    }

    method Acknowledge(m: MessageId, token: Token, worker: WorkerId) returns (result: int)
      requires Valid()
      modifies this
      ensures Valid()
      ensures (Value(), result) == QueueScripts.Acknowledge(old(Value()), m, token, worker)
      ensures result == 0 <==> m !in old(leases)
      ensures result == -1 <==> m in old(leases) && (old(leases)[m].token != token || old(leases)[m].worker != worker)
      ensures result == -2 || result == 1 ==> (result == -2 <==> old(leases)[m].taskId in cancelled)
      ensures result in {-2, -1, 0, 1}
    {
      if m !in leases {
        return 0;
      }
      if leases[m].token != token || leases[m].worker != worker {
        return -1;
      }
      if leases[m].taskId in cancelled {
        return -2;
      }
      Release(m);
      return 1;
    }

    method Renew(m: MessageId, token: Token, task: TaskId, deadline: Time, worker: WorkerId) returns (result: int)
      requires Valid()
      modifies this
      ensures Valid()
      ensures (Value(), result) == QueueScripts.Renew(old(Value()), m, token, task, deadline, worker)
      ensures result == 0 <==> m !in old(leases) || task in cancelled
      ensures result == 1 <==>
                && m in old(leases) && task !in cancelled
                && old(leases)[m].token == token && old(leases)[m].worker == worker
      ensures result in {-1, 0, 1}
    {
      if m !in leases || task in cancelled {
        return 0;
      }
      if leases[m].token != token || leases[m].worker != worker {
        return -1;
      }
      leases := leases[m := leases[m].(deadline := deadline)];
      leaseExpiry := leaseExpiry[m := deadline];
      return 1;
    }

    method Schedule(r: RetryRecord) returns (scheduled: bool)
      requires Valid()
      modifies this
      ensures Valid()
      ensures (Value(), scheduled) == QueueScripts.Schedule(old(Value()), r)
      ensures scheduled <==> r.taskId !in old(cancelled) && r.messageId !in old(delayed)
    {
      if r.taskId in cancelled {
        return false;
      }
      if r.messageId in delayed {
        return false;
      }
      delayed := delayed[r.messageId := Scheduled(r)];
      delayedDue := delayedDue[r.messageId := r.dueAt];
      return true;
    }

    /** ids is the page that ZRANGEBYSCORE answered at the start of the script; None is a script error. */
    method Promote(now: Time, count: nat, ids: seq<MessageId>) returns (tally: Option<Tally>)
      requires Valid()
      requires IsDuePage(delayedDue, now, count, ids)
      modifies this
      ensures Valid()
      ensures (Value(), tally) == PromoteAll(old(Value()), ids, Tally(0, 0, 0))
    {
      var t := Tally(0, 0, 0);
      var k := 0;
      assert ids[0..] == ids;
      while k < |ids|
        invariant 0 <= k <= |ids| && Valid()
        invariant PromoteAll(Value(), ids[k..], t) == PromoteAll(old(Value()), ids, Tally(0, 0, 0))
      {
        ghost var before, tallied := Value(), t;
        var m := ids[k];
        assert ids[k..][1..] == ids[k + 1..];
        if m !in delayed {
          delayedDue := delayedDue - {m};
        } else if delayed[m].Malformed? {
          return None;
        } else {
          var r := delayed[m].record;
          delayed := delayed - {m};
          delayedDue := delayedDue - {m};
          if r.taskId in cancelled {
            t := t.(cancelled := t.cancelled + 1);
          } else if r.envelope.state.Terminal() {
            t := t.(terminal := t.terminal + 1);
          } else {
            ready := ready[r.envelope.priority := ready[r.envelope.priority] + [r.envelope]];
            t := t.(promoted := t.promoted + 1);
          }
        }
        assert PromoteOne(before, m, tallied) == Some((Value(), t));
        k := k + 1;
      }
      return Some(t);
    }

    method RecoverOne(m: MessageId, now: Time, terminal: bool, plan: RecoveryPlan) returns (status: RecoveryStatus)
      requires Valid()
      modifies this
      ensures Valid()
      ensures (Value(), status) == QueueScripts.RecoverOne(old(Value()), m, now, terminal, plan)
    {
      if m !in leaseExpiry {
        return MissingIndex;
      }
      if leaseExpiry[m] > now {
        return Renewed;
      }
      if m !in leases || m !in inflight {
        Release(m);
        return OrphanCleaned;
      }
      if leases[m].deadline > now {
        return Renewed;
      }
      var e := inflight[m];
      Release(m);
      if terminal || e.state.Completed? || e.state.Failed? {
        return TerminalCleaned;
      }
      if e.taskId in cancelled || e.state.Cancelled? {
        return CancelledCleaned;
      }
      match plan
      case DeadPlan(r) =>
        if m !in dlq {
          dlq := dlq[m := r];
        }
        dlqTaskIndex := dlqTaskIndex[e.taskId := m];
        dlqRecordIndex := dlqRecordIndex[r.id := m];
        return DeadLettered;
      case RetryPlan(entry, due) =>
        if m in delayed {
          return RetryAlreadyScheduled;
        }
        delayed := delayed[m := entry];
        delayedDue := delayedDue[m := due];
        return RetryScheduled;
    }

    method Cancel(task: TaskId) returns (status: CancelStatus)
      requires Valid()
      modifies this
      ensures Valid()
      ensures (Value(), status) == QueueScripts.Cancel(old(Value()), task)
    {
      if task in cancelled {
        return AlreadyCancelled;
      }
      if task !in taskIndex && task !in dlqTaskIndex {
        return NothingToCancel;
      }
      cancelled := cancelled + {task};
      if task in taskIndex {
        var m := taskIndex[task];
        delayed := delayed - {m};
        delayedDue := delayedDue - {m};
      }
      return CancelAccepted;
    }

    method Finalize(r: DeadLetter) returns (kept: DeadLetter)
      requires Valid()
      modifies this
      ensures Valid()
      ensures (Value(), kept) == QueueScripts.Finalize(old(Value()), r)
    {
      if r.messageId in dlq {
        return dlq[r.messageId];
      }
      dlq := dlq[r.messageId := r];
      dlqTaskIndex := dlqTaskIndex[r.taskId := r.messageId];
      dlqRecordIndex := dlqRecordIndex[r.id := r.messageId];
      return r;
    }

    method WriteApproval(read: DeadLetter, approved: bool)
      requires Valid()
      modifies this
      ensures Valid()
      ensures Value() == QueueScripts.WriteApproval(old(Value()), read, approved)
    {
      dlq := dlq[read.messageId := read.(approval := if approved then Approved else Denied)];
    }

    method Replay(m: MessageId, freshId: MessageId, updated: DeadLetter) returns (status: ReplayStatus)
      requires Valid()
      modifies this
      ensures Valid()
      ensures (Value(), status) == QueueScripts.Replay(old(Value()), m, freshId, updated)
    {
      if m !in dlq {
        return ReplayNotFound;
      }
      var r := dlq[m];
      if r.replayedAs.Some? {
        return AlreadyReplayed;
      }
      if !r.eligible || r.approval != Approved {
        return NotApproved;
      }
      if r.taskId in cancelled {
        return ReplayCancelled;
      }
      if r.envelope.state.Completed? || r.envelope.state.Cancelled? {
        return ReplayTerminal;
      }
      dlq := dlq[m := updated];
      var e := r.envelope.(messageId := freshId, stamp := None);
      ready := ready[e.priority := ready[e.priority] + [e]];
      return Replayed;
    }
  }
}
