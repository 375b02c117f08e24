/** The queue's callers: what each Python method makes of its script, run without interference;
    DeliveryProtocol interleaves the awaits of those that have more than one. */
module QueueClients {
  import opened Options
  import opened QueueTypes
  import opened QueueScripts
  import opened RetryPolicies
  import opened RedisQueues
  import DeliveryProtocol
  import ProtocolLimits

  class TaskProducer {
    const queue: RedisQueue

    constructor (queue: RedisQueue)
      ensures this.queue == queue
    {
      this.queue := queue;
    }

    /** The key is bound to the answered message from now on; a message is pushed exactly when it is new. */
    method Enqueue(task: TaskId, state: TaskState, key: DedupeKey, priority: Priority, newId: MessageId)
      returns (id: MessageId, accepted: bool)
      requires queue.Valid()
      modifies queue
      ensures queue.Valid()
      ensures accepted <==> key !in old(queue.dedupe)
      ensures queue.dedupe == old(queue.dedupe)[key := id]
      ensures accepted ==> id == newId && queue.taskIndex == old(queue.taskIndex)[task := newId]
      ensures accepted ==>
                queue.ready == old(queue.ready)[priority := old(queue.ready)[priority] +
                                   [Envelope(newId, task, state, 0, priority, None)]]
      ensures !accepted ==> queue.Value() == old(queue.Value())
      ensures queue.Value() == old(queue.Value()).(ready := queue.ready, dedupe := queue.dedupe,
                                                   taskIndex := queue.taskIndex)
    {
      accepted, id := queue.Enqueue(key, Envelope(newId, task, state, 0, priority, None));
    }
  }

  class TaskConsumer {
    const queue: RedisQueue
    const worker: WorkerId

    constructor (queue: RedisQueue, worker: WorkerId)
      ensures this.queue == queue && this.worker == worker
    {
      this.queue := queue;
      this.worker := worker;
    }

    /** Does the delivery's token hold the lease of a task that may still run? */
    ghost predicate Holds(d: DeliveryProtocol.Delivery)
      reads this, queue
    {
      && Owns(queue.Value(), d.messageId, d.token, worker)
      && d.taskId !in queue.cancelled && queue.leases[d.messageId].taskId == d.taskId
    }

    /** A delivery holds its lease for the visibility from the sampled time on; there is none exactly when no
        list has a head that may run. */
    method Claim(now: Time, visibility: Time, nonce: int) returns (claimed: Option<DeliveryProtocol.Delivery>)
      requires queue.Valid()
      modifies queue
      ensures queue.Valid()
      ensures claimed.None? <==> forall p :: 0 <= p < 4 ==> !ProtocolLimits.LiveHead(old(queue.Value()), p)
      ensures claimed.Some? ==>
                && Holds(claimed.value) && claimed.value.token == Token(worker, nonce)
                && queue.leases[claimed.value.messageId].deadline == now + visibility
      ensures forall k: nat :: ProtocolLimits.FirstLive(old(queue.Value()), 0, k) ==>
                && ProtocolLimits.PoppedThrough(old(queue.Value()), queue.Value(), 0, k)
                && claimed.Some? && Hands(old(queue.ready)[k][0], claimed.value, Token(worker, nonce))
                && Leases(old(queue.Value()), queue.Value(), 0, k, old(queue.ready)[k][0], Token(worker, nonce), now,
                          now + visibility)
      ensures claimed.None? ==>
                && ProtocolLimits.PoppedThrough(old(queue.Value()), queue.Value(), 0, 3)
                && forall m :: DroppedFrom(old(queue.Value()), queue.Value(), 0, 4, m)
      ensures queue.Value() == old(queue.Value()).(ready := queue.ready, inflight := queue.inflight,
                                                   leases := queue.leases, leaseExpiry := queue.leaseExpiry)
    {
      hide QueueScripts.Claim, ProtocolLimits.LiveHead, ProtocolLimits.FirstLive, ProtocolLimits.PoppedThrough,
          DroppedFrom, Leases;
      var token := Token(worker, nonce);
      ClaimOutcome(queue.Value(), token, now, now + visibility);
      ClaimTables(queue.Value(), token, now, now + visibility);
      var envelope := queue.Claim(token, now, now + visibility);
      match envelope {
        case None => return None;
        case Some(e) => return Some(DeliveryProtocol.DeliveryOf(e, token));
      }
    }

    method Acknowledge(d: DeliveryProtocol.Delivery) returns (done: bool)
      requires queue.Valid()
      modifies queue
      ensures queue.Valid()
      ensures old(Holds(d)) ==> done
      ensures done ==> old(Owns(queue.Value(), d.messageId, d.token, worker))
      ensures done <==>
                && d.messageId in old(queue.leases) && old(queue.leases)[d.messageId].token == d.token
                && old(queue.leases)[d.messageId].worker == worker
                && old(queue.leases)[d.messageId].taskId !in old(queue.cancelled)
      ensures done ==>
                && queue.inflight == old(queue.inflight) - {d.messageId}
                && queue.leases == old(queue.leases) - {d.messageId}
                && queue.leaseExpiry == old(queue.leaseExpiry) - {d.messageId}
      ensures queue.Value() == if done then ReleaseLease(old(queue.Value()), d.messageId) else old(queue.Value())
    {
      var result := queue.Acknowledge(d.messageId, d.token, worker);
      return result == 1;
    }

    method RenewLease(d: DeliveryProtocol.Delivery, now: Time, visibility: Time) returns (done: bool)
      requires queue.Valid()
      modifies queue
      ensures queue.Valid()
      ensures old(Holds(d)) ==> done && Holds(d) && queue.leases[d.messageId].deadline == now + visibility
      ensures done ==> old(Owns(queue.Value(), d.messageId, d.token, worker)) && d.taskId !in queue.cancelled
      ensures done <==>
                && d.messageId in old(queue.leases) && d.taskId !in old(queue.cancelled)
                && old(queue.leases)[d.messageId].token == d.token && old(queue.leases)[d.messageId].worker == worker
      ensures done ==>
                && queue.leaseExpiry == old(queue.leaseExpiry)[d.messageId := now + visibility]
                && queue.leases ==
                   old(queue.leases)[d.messageId := old(queue.leases)[d.messageId].(deadline := now + visibility)]
      ensures queue.Value() == old(queue.Value()).(leases := queue.leases, leaseExpiry := queue.leaseExpiry)
      ensures !done ==> queue.Value() == old(queue.Value())
    {
      var result := queue.Renew(d.messageId, d.token, d.taskId, now + visibility, worker);
      return result == 1;
    }
  }

  /** The claimed envelope's lease, for a task without a tombstone. */
  predicate Leased(st: Store, e: Envelope, token: Token, deadline: Time) {
    && e.taskId !in st.cancelled && e.messageId in st.leases
    && st.leases[e.messageId].token == token && st.leases[e.messageId].worker == token.worker
    && st.leases[e.messageId].taskId == e.taskId && st.leases[e.messageId].deadline == deadline
  }

  lemma {:induction false} ClaimLeases(st: Store, p: nat, token: Token, claimedAt: Time, deadline: Time)
    requires |st.ready| == 4 && p <= 4
    ensures var (u, claimed) := ClaimFrom(st, p, token, claimedAt, deadline);
            |u.ready| == 4 && (claimed.Some? ==> Leased(u, claimed.value, token, deadline))
    decreases 4 - p
  {
    hide ClaimFrom, DropHead, LeaseHead, Leased;
    ClaimIteration(st, p, token, claimedAt, deadline);
    if p == 4 {
    } else if st.ready[p] == [] {
      ClaimLeases(st, p + 1, token, claimedAt, deadline);
    } else if Dead(st, st.ready[p][0]) {
      ProtocolLimits.DropPops(st, p);
      ClaimLeases(DropHead(st, p), p + 1, token, claimedAt, deadline);
    } else {
      HeadLeased(st, p, token, claimedAt, deadline);
    }
  }

  lemma HeadLeased(st: Store, p: Priority, token: Token, claimedAt: Time, deadline: Time)
    requires |st.ready| == 4 && st.ready[p] != [] && !Dead(st, st.ready[p][0])
    ensures var u := LeaseHead(st, p, token, claimedAt, deadline);
            |u.ready| == 4 && Leased(u, Stamped(st.ready[p][0], token, claimedAt, deadline), token, deadline)
  {
  }

  lemma ClaimOutcome(st: Store, token: Token, claimedAt: Time, deadline: Time)
    requires |st.ready| == 4
    ensures var (u, claimed) := QueueScripts.Claim(st, token, claimedAt, deadline);
            && (claimed.None? <==> forall p :: 0 <= p < 4 ==> !ProtocolLimits.LiveHead(st, p))
            && (claimed.Some? ==> Leased(u, claimed.value, token, deadline))
  {
    ProtocolLimits.ClaimTakesFirstLiveHead(st, 0, token, claimedAt, deadline);
    ClaimLeases(st, 0, token, claimedAt, deadline);
    hide ClaimFrom, Leased, ProtocolLimits.LiveHead, ProtocolLimits.PoppedThrough;
  }

  // ----- A claim, table by table -----

  /** The delivery carries the claimed envelope. */
  predicate Hands(e: Envelope, d: DeliveryProtocol.Delivery, token: Token) {
    && d.messageId == e.messageId && d.taskId == e.taskId && d.state == e.state && d.attempt == e.attempt
    && d.priority == e.priority && d.token == token
  }

  /** The head of list j is m's, and its task is cancelled or finished. */
  predicate DeadHead(st: Store, j: nat, m: MessageId)
    requires |st.ready| == 4 && j < 4
  {
    && st.ready[j] != [] && st.ready[j][0].messageId == m
    && (st.ready[j][0].taskId in st.cancelled || st.ready[j][0].state in {Completed, Failed, TaskState.Cancelled})
  }

  lemma DropHeadTables(st: Store, p: Priority)
    requires |st.ready| == 4 && st.ready[p] != []
    ensures var u := DropHead(st, p);
            var m := st.ready[p][0].messageId;
            && |u.ready| == 4 && u.cancelled == st.cancelled && (forall j :: p < j < 4 ==> u.ready[j] == st.ready[j])
            && u.inflight == st.inflight - {m} && u.leases == st.leases - {m} && u.leaseExpiry == st.leaseExpiry - {m}
            && u == st.(ready := u.ready, inflight := u.inflight, leases := u.leases, leaseExpiry := u.leaseExpiry)
  {
  }

  /** m's lease went with a dead head of lists p to k - 1, and otherwise is as it was. */
  ghost predicate DroppedFrom(st: Store, u: Store, p: nat, k: nat, m: MessageId)
    requires |st.ready| == 4 && p <= k <= 4
  {
    if exists j :: p <= j < k && DeadHead(st, j, m) then m !in u.inflight && m !in u.leases && m !in u.leaseExpiry
    else
      && (m in u.inflight <==> m in st.inflight) && (m in u.leases <==> m in st.leases)
      && (m in u.leaseExpiry <==> m in st.leaseExpiry)
      && (m in u.inflight ==> u.inflight[m] == st.inflight[m]) && (m in u.leases ==> u.leases[m] == st.leases[m])
      && (m in u.leaseExpiry ==> u.leaseExpiry[m] == st.leaseExpiry[m])
  }

  lemma SkipList(st: Store, u: Store, p: nat, k: nat, m: MessageId)
    requires |st.ready| == 4 && p < k <= 4 && st.ready[p] == [] && DroppedFrom(st, u, p + 1, k, m)
    ensures DroppedFrom(st, u, p, k, m)
  {
    if j :| p <= j < k && DeadHead(st, j, m) {
      assert j != p;
    }
  }

  lemma DropList(st: Store, u: Store, p: nat, k: nat, m: MessageId)
    requires |st.ready| == 4 && p < k <= 4 && st.ready[p] != [] && Dead(st, st.ready[p][0])
    requires var d := DropHead(st, p); |d.ready| == 4 && DroppedFrom(d, u, p + 1, k, m)
    ensures DroppedFrom(st, u, p, k, m)
  {
    DropHeadTables(st, p);
    var d := DropHead(st, p);
    hide DropHead;
    forall j: nat | p < j < k ensures DeadHead(d, j, m) <==> DeadHead(st, j, m) {
    }
    if st.ready[p][0].messageId == m {
      assert DeadHead(st, p, m);
    } else {
      assert !DeadHead(st, p, m);
    }
  }

  /** Everything but the ready lists and the lease tables. */
  predicate SameElsewhere(st: Store, u: Store) {
    u == st.(ready := u.ready, inflight := u.inflight, leases := u.leases, leaseExpiry := u.leaseExpiry)
  }

  /** Envelope e was leased; lists p to k - 1 lost their dead heads' leases. */
  ghost predicate Leases(st: Store, u: Store, p: nat, k: nat, e: Envelope, token: Token, at: Time, deadline: Time)
    requires |st.ready| == 4 && p <= k <= 4
  {
    && (forall m :: m != e.messageId ==> DroppedFrom(st, u, p, k, m))
    && e.messageId in u.inflight && e.messageId in u.leases && e.messageId in u.leaseExpiry
    && u.inflight[e.messageId] == e.(stamp := Some(Stamp(token, token.worker, at, deadline)))
    && u.leases[e.messageId] == Lease(e.messageId, e.taskId, token.worker, token, at, deadline, e.attempt)
    && u.leaseExpiry[e.messageId] == deadline
  }

  lemma HeadTables(st: Store, p: Priority, token: Token, at: Time, deadline: Time)
    requires |st.ready| == 4 && st.ready[p] != []
    ensures var u := LeaseHead(st, p, token, at, deadline);
            Leases(st, u, p, p, st.ready[p][0], token, at, deadline) && SameElsewhere(st, u)
  {
  }

  lemma {:induction false} ClaimFromTables(st: Store, p: nat, token: Token, at: Time, deadline: Time)
    returns (k: nat)
    requires |st.ready| == 4 && p <= 4
    ensures var (u, claimed) := ClaimFrom(st, p, token, at, deadline);
            && SameElsewhere(st, u) && p <= k <= 4
            && (claimed.None? ==> k == 4 && forall m :: DroppedFrom(st, u, p, 4, m))
            && (claimed.Some? ==>
                  && k < 4 && ProtocolLimits.FirstLive(st, p, k)
                  && Leases(st, u, p, k, st.ready[k][0], token, at, deadline))
    decreases 4 - p
  {
    hide ClaimFrom, DropHead, LeaseHead, Dead, DroppedFrom;
    ClaimIteration(st, p, token, at, deadline);
    if p == 4 {
      k := 4;
      NothingDropped(st);
    } else if st.ready[p] == [] {
      k := ClaimFromTables(st, p + 1, token, at, deadline);
      var (u, claimed) := ClaimFrom(st, p, token, at, deadline);
      forall m | DroppedFrom(st, u, p + 1, k, m) ensures DroppedFrom(st, u, p, k, m) {
        SkipList(st, u, p, k, m);
      }
    } else if Dead(st, st.ready[p][0]) {
      DropHeadTables(st, p);
      ProtocolLimits.DropPops(st, p);
      var d := DropHead(st, p);
      k := ClaimFromTables(d, p + 1, token, at, deadline);
      var (u, claimed) := ClaimFrom(st, p, token, at, deadline);
      forall m | DroppedFrom(d, u, p + 1, k, m) ensures DroppedFrom(st, u, p, k, m) {
        DropList(st, u, p, k, m);
      }
    } else {
      k := p;
      HeadTables(st, p, token, at, deadline);
    }
  }

  lemma NothingDropped(st: Store)
    requires |st.ready| == 4
    ensures forall m :: DroppedFrom(st, st, 4, 4, m)
  {
  }

  lemma ClaimTables(st: Store, token: Token, at: Time, deadline: Time)
    requires |st.ready| == 4
    ensures var (u, claimed) := QueueScripts.Claim(st, token, at, deadline);
            && SameElsewhere(st, u)
            && (claimed.None? ==>
                  ProtocolLimits.PoppedThrough(st, u, 0, 3) && forall m :: DroppedFrom(st, u, 0, 4, m))
            && (forall k: nat :: ProtocolLimits.FirstLive(st, 0, k) ==>
                  && ProtocolLimits.PoppedThrough(st, u, 0, k)
                  && claimed == Some(Stamped(st.ready[k][0], token, at, deadline))
                  && Leases(st, u, 0, k, st.ready[k][0], token, at, deadline))
  {
    hide ClaimFrom, DroppedFrom, Leases, ProtocolLimits.PoppedThrough, SameElsewhere;
    ProtocolLimits.ClaimTakesFirstLiveHead(st, 0, token, at, deadline);
    var n := ClaimFromTables(st, 0, token, at, deadline);
    forall k: nat | ProtocolLimits.FirstLive(st, 0, k) ensures n == k {
    }
  }

  // ----- A promotion, entry by entry -----

  predicate BadEntry(st: Store, m: MessageId) { m in st.delayed && st.delayed[m] == Malformed }

  predicate TaskStopped(st: Store, m: MessageId) {
    m in st.delayed && st.delayed[m].Scheduled? && st.delayed[m].record.taskId in st.cancelled
  }

  predicate TaskOver(st: Store, m: MessageId) {
    && m in st.delayed && st.delayed[m].Scheduled? && st.delayed[m].record.taskId !in st.cancelled
    && st.delayed[m].record.envelope.state in {Completed, Failed, TaskState.Cancelled}
  }

  /** The entry's message may run. */
  predicate Ripe(st: Store, m: MessageId) {
    && m in st.delayed && st.delayed[m].Scheduled? && st.delayed[m].record.taskId !in st.cancelled
    && st.delayed[m].record.envelope.state !in {Completed, Failed, TaskState.Cancelled}
  }

  /** The envelopes that a promotion of ids pushes to list p, in their order. */
  function Pushed(st: Store, ids: seq<MessageId>, p: Priority): seq<Envelope> {
    if ids == [] then []
    else
      (if Ripe(st, ids[0]) && st.delayed[ids[0]].record.envelope.priority == p
       then [st.delayed[ids[0]].record.envelope] else [])
      + Pushed(st, ids[1..], p)
  }

  function Counted(st: Store, ids: seq<MessageId>, t: Tally): Tally
    decreases ids
  {
    if ids == [] then t
    else
      var m := ids[0];
      Counted(st, ids[1..], Tally(t.promoted + (if Ripe(st, m) then 1 else 0),
                                  t.cancelled + (if TaskStopped(st, m) then 1 else 0),
                                  t.terminal + (if TaskOver(st, m) then 1 else 0)))
  }

  /** The entries of ids are gone, those that may run are at the end of their lists, and all else is as it was. */
  ghost predicate Promoted(st: Store, u: Store, ids: seq<MessageId>)
    requires |st.ready| == 4
  {
    && |u.ready| == 4 && (forall p: Priority :: u.ready[p] == st.ready[p] + Pushed(st, ids, p))
    && (forall m :: m in u.delayed <==> m in st.delayed && m !in ids)
    && (forall m :: m in u.delayedDue <==> m in st.delayedDue && m !in ids)
    && (forall m :: m in u.delayed ==> u.delayed[m] == st.delayed[m])
    && (forall m :: m in u.delayedDue ==> u.delayedDue[m] == st.delayedDue[m])
    && u == st.(ready := u.ready, delayed := u.delayed, delayedDue := u.delayedDue)
  }

  lemma PromoteOneMeans(st: Store, m: MessageId, t: Tally)
    requires |st.ready| == 4 && !BadEntry(st, m)
    ensures var r := PromoteOne(st, m, t);
            && r.Some? && Promoted(st, r.value.0, [m])
            && r.value.1 == Counted(st, [m], t)
  {
    assert [m][1..] == [];
    hide Promoted, Unschedule, PushReady;
    if Ripe(st, m) {
      PushedMeans(st, m);
    } else {
      ClearedMeans(st, m);
    }
  }

  lemma PushedOne(st: Store, m: MessageId, p: Priority)
    ensures Pushed(st, [m], p) ==
            if Ripe(st, m) && st.delayed[m].record.envelope.priority == p then [st.delayed[m].record.envelope] else []
  {
    assert [m][1..] == [];
  }

  lemma ClearedMeans(st: Store, m: MessageId)
    requires |st.ready| == 4 && !Ripe(st, m)
    ensures Promoted(st, Unschedule(st, m), [m])
    ensures m !in st.delayed ==> Promoted(st, st.(delayedDue := st.delayedDue - {m}), [m])
  {
    forall p: Priority ensures Pushed(st, [m], p) == [] {
      PushedOne(st, m, p);
    }
    hide Pushed, Ripe;
  }

  lemma PushedMeans(st: Store, m: MessageId)
    requires |st.ready| == 4 && Ripe(st, m)
    ensures Promoted(st, PushReady(Unschedule(st, m), st.delayed[m].record.envelope), [m])
  {
    var e := st.delayed[m].record.envelope;
    forall p: Priority ensures Pushed(st, [m], p) == if e.priority == p then [e] else [] {
      PushedOne(st, m, p);
    }
    hide Pushed, Ripe;
  }

  ghost predicate Same(st: Store, u: Store, ids: seq<MessageId>) {
    && u.cancelled == st.cancelled
    && forall m :: m in ids ==>
         (m in u.delayed <==> m in st.delayed) && (m in u.delayed ==> u.delayed[m] == st.delayed[m])
  }

  lemma {:induction false} PushedSame(st: Store, u: Store, ids: seq<MessageId>, t: Tally)
    requires Same(st, u, ids)
    ensures forall p: Priority :: Pushed(u, ids, p) == Pushed(st, ids, p)
    ensures Counted(u, ids, t) == Counted(st, ids, t)
    decreases ids
  {
    if ids == [] {
    } else {
      var m := ids[0];
      assert m in ids;
      PushedSame(st, u, ids[1..], Tally(t.promoted + (if Ripe(st, m) then 1 else 0),
                                        t.cancelled + (if TaskStopped(st, m) then 1 else 0),
                                        t.terminal + (if TaskOver(st, m) then 1 else 0)));
    }
  }

  ghost predicate Distinct(ids: seq<MessageId>) { forall i, j :: 0 <= i < j < |ids| ==> ids[i] != ids[j] }

  /** The first n entries are well formed, and the script ends behind them or raises at the next. */
  ghost predicate GoodUpTo(st: Store, ids: seq<MessageId>, n: nat) {
    n <= |ids| && (forall i :: 0 <= i < n ==> !BadEntry(st, ids[i])) && (n < |ids| ==> BadEntry(st, ids[n]))
  }

  lemma PromotedOne(st: Store, next: Store, u: Store, m: MessageId, rest: seq<MessageId>)
    requires |st.ready| == 4 && m !in rest && Promoted(st, next, [m]) && Promoted(next, u, rest)
    ensures Promoted(st, u, [m] + rest)
  {
    var ids := [m] + rest;
    assert ids[1..] == rest;
    assert Same(st, next, rest);
    PushedSame(st, next, rest, Tally(0, 0, 0));
    forall p: Priority ensures u.ready[p] == st.ready[p] + Pushed(st, ids, p) {
      assert [m][1..] == [] && Pushed(st, [m], p) + Pushed(st, rest, p) == Pushed(st, ids, p);
    }
    hide Pushed, Ripe;
  }

  /** A promotion pushes and clears exactly the entries up to the first malformed one, and counts each as what it
      was; it answers exactly when there is none. */
  lemma {:induction false} PromoteMeans(st: Store, ids: seq<MessageId>, t: Tally, n: nat)
    requires |st.ready| == 4 && Distinct(ids) && GoodUpTo(st, ids, n)
    ensures var (u, tally) := PromoteAll(st, ids, t);
            && Promoted(st, u, ids[..n])
            && tally == if n == |ids| then Some(Counted(st, ids, t)) else None
    decreases ids
  {
    hide PromoteOne, Promoted, Pushed;
    if n == 0 {
      NothingPromoted(st);
      if ids != [] {
        BadRaises(st, ids[0], t);
      }
    } else {
      var m := ids[0];
      PromoteOneMeans(st, m, t);
      var (next, tallied) := PromoteOne(st, m, t).value;
      PromotedSame(st, next, m, ids[1..]);
      assert forall i :: 0 <= i < |ids[1..]| ==> ids[1..][i] == ids[i + 1];
      PromoteMeans(next, ids[1..], tallied, n - 1);
      var u := PromoteAll(st, ids, t).0;
      assert ids[..n] == [m] + ids[1..][..n - 1];
      PromotedOne(st, next, u, m, ids[1..][..n - 1]);
      PushedSame(st, next, ids[1..], tallied);
      assert [m][1..] == [];
    }
  }

  lemma NothingPromoted(st: Store)
    requires |st.ready| == 4
    ensures Promoted(st, st, [])
  {
    assert forall p: Priority :: Pushed(st, [], p) == [];
  }

  lemma BadRaises(st: Store, m: MessageId, t: Tally)
    requires |st.ready| == 4 && BadEntry(st, m)
    ensures PromoteOne(st, m, t) == None
  {
  }

  lemma PromotedSame(st: Store, next: Store, m: MessageId, rest: seq<MessageId>)
    requires |st.ready| == 4 && m !in rest && Promoted(st, next, [m])
    ensures |next.ready| == 4 && Same(st, next, rest)
    ensures forall k :: k in rest ==> (BadEntry(next, k) <==> BadEntry(st, k))
  {
  }

  lemma {:induction false} FirstBad(st: Store, ids: seq<MessageId>) returns (n: nat)
    ensures GoodUpTo(st, ids, n)
  {
    if ids == [] || BadEntry(st, ids[0]) {
      n := 0;
    } else {
      n := FirstBad(st, ids[1..]);
      n := n + 1;
      assert forall i :: 0 < i < n ==> ids[i] == ids[1..][i - 1];
    }
  }

  /** The record of a failure is made exactly when one more wait fits both budgets, the time since the first failure
      counted, and says when it is due. */
  lemma FailureRecordMeans(policy: RetryPolicy, e: Envelope, f: ExecutionFailure, now: Time, first: Time, draw: Draw)
    ensures var r := FailureRecord(policy, e, f, now, first, draw);
            var n := e.attempt + 1;
            && (r.Some? <==>
                  f.retryable && n < policy.maximumAttempts && now - first < policy.maximumElapsed
                  && now - first + Wait(policy, n, f.retryAfter, draw) <= policy.maximumElapsed)
            && (r.Some? ==>
                  r.value == RetryRecord(e.messageId, e.taskId, e.(attempt := n), e.priority, n,
                                         now + Wait(policy, n, f.retryAfter, draw), f.class_, first, now,
                                         [HistoryEntry(n, f.class_, now, None, None)]))
  {
    WishIsWait(policy, e.attempt + 1, f.retryAfter, draw);
    hide Wish, Wait;
  }

  class RetryScheduler {
    const queue: RedisQueue
    const policy: RetryPolicy

    constructor (queue: RedisQueue, policy: RetryPolicy)
      ensures this.queue == queue && this.policy == policy
    {
      this.queue := queue;
      this.policy := policy;
    }

    /** None is an exhausted budget, which writes nothing.  The record is answered even when the task is cancelled or
        the message is delayed already; only then is nothing scheduled. */
    method ScheduleFailure(e: Envelope, f: ExecutionFailure, now: Time, firstFailedAt: Option<Time>,
                           history: seq<HistoryEntry>, draw: Draw)
      returns (scheduled: bool, record: Option<RetryRecord>)
      requires queue.Valid()
      modifies queue
      ensures queue.Valid()
      ensures var elapsed := if firstFailedAt.Some? then now - firstFailedAt.value else 0.0;
              var wait := Wait(policy, e.attempt + 1, f.retryAfter, draw);
              && (record.Some? <==>
                    f.retryable && e.attempt + 1 < policy.maximumAttempts && elapsed < policy.maximumElapsed
                    && elapsed + wait <= policy.maximumElapsed)
              && (record.Some? ==>
                    record.value ==
                    RetryRecord(e.messageId, e.taskId, e.(attempt := e.attempt + 1), e.priority, e.attempt + 1,
                                now + wait, f.class_, now - elapsed, now,
                                history + [HistoryEntry(e.attempt + 1, f.class_, now, None, None)]))
      ensures scheduled <==> record.Some? && e.taskId !in old(queue.cancelled) && e.messageId !in old(queue.delayed)
      ensures scheduled ==>
                queue.Value() == old(queue.Value()).(
                  delayed := old(queue.delayed)[e.messageId := Scheduled(record.value)],
                  delayedDue := old(queue.delayedDue)[e.messageId := record.value.dueAt])
      ensures !scheduled ==> queue.Value() == old(queue.Value())
    {
      var first := if firstFailedAt.Some? then firstFailedAt.value else now;
      FailureRecordMeans(policy, e, f, now, first, draw);
      hide FailureRecord, Wait;
      record := FailureRecord(policy, e, f, now, first, draw);
      if record.None? {
        return false, None;
      }
      record := Some(record.value.(history := history + record.value.history));
      scheduled := queue.Schedule(record.value);
    }

    /** page answers the query inside the script.  None is the ValueError or the script's error: then the entries
        up to the malformed one are promoted, and otherwise the whole page. */
    method PromoteDue(page: seq<MessageId>, batchSize: int, now: Time) returns (tally: Option<Tally>)
      requires queue.Valid()
      requires batchSize >= 1 ==> IsDuePage(queue.delayedDue, now, batchSize, page)
      modifies queue
      ensures queue.Valid()
      ensures batchSize < 1 ==> tally.None? && queue.Value() == old(queue.Value())
      ensures batchSize >= 1 ==> forall n: nat :: GoodUpTo(old(queue.Value()), page, n) ==>
                && Promoted(old(queue.Value()), queue.Value(), page[..n])
                && (tally.Some? <==> n == |page|)
      ensures tally.Some? ==>
                && Promoted(old(queue.Value()), queue.Value(), page)
                && tally.value == Counted(old(queue.Value()), page, Tally(0, 0, 0))
    {
      if batchSize < 1 {
        return None;
      }
      PromotionMeans(queue.Value(), page);
      hide PromoteAll, Promoted, Counted;
      tally := queue.Promote(now, batchSize, page);
    }
  }

  lemma PromotionMeans(st: Store, page: seq<MessageId>)
    requires |st.ready| == 4 && Distinct(page)
    ensures var (u, tally) := PromoteAll(st, page, Tally(0, 0, 0));
            && (forall n: nat :: GoodUpTo(st, page, n) ==> Promoted(st, u, page[..n]) && (tally.Some? <==> n == |page|))
            && (tally.Some? ==> Promoted(st, u, page) && tally.value == Counted(st, page, Tally(0, 0, 0)))
  {
    var first := FirstBad(st, page);
    assert page[..|page|] == page;
    hide PromoteAll, Promoted, Counted;
    PromoteMeans(st, page, Tally(0, 0, 0), first);
    forall n: nat | GoodUpTo(st, page, n) ensures n == first {
    }
  }

  /** What the durable cancellation answered, if there is one. */
  datatype DurableAnswer = DurablyCancelled | DurablyTerminal | DurablyUnknown

  datatype CancelAnswer = Answered(status: CancelStatus) | Signalled | Refused(reason: DurableAnswer)

  /** The tombstone is set and the task's latest message is delayed no longer; nothing else changes. */
  predicate Withdrawn(st: Store, u: Store, task: TaskId) {
    && u.cancelled == st.cancelled + {task}
    && u.delayed == (if task in st.taskIndex then st.delayed - {st.taskIndex[task]} else st.delayed)
    && u.delayedDue == (if task in st.taskIndex then st.delayedDue - {st.taskIndex[task]} else st.delayedDue)
    && u == st.(cancelled := u.cancelled, delayed := u.delayed, delayedDue := u.delayedDue)
  }

  lemma CancelOutcome(st: Store, task: TaskId)
    ensures var (u, status) := QueueScripts.Cancel(st, task);
            && (status == AlreadyCancelled <==> task in st.cancelled)
            && (status == NothingToCancel <==>
                  task !in st.cancelled && task !in st.taskIndex && task !in st.dlqTaskIndex)
            && (status != CancelAccepted ==> u == st)
            && (status == CancelAccepted ==> Withdrawn(st, u, task))
  {
    if task in st.cancelled {
    } else if task in st.taskIndex {
    } else {
    }
  }

  class CancellationService {
    const queue: RedisQueue

    constructor (queue: RedisQueue)
      ensures this.queue == queue
    {
      this.queue := queue;
    }

    /** running says whether this process runs the task.  A refusal leaves the queue alone; every other answer
        but "nothing to cancel" leaves the tombstone. */
    method Cancel(task: TaskId, durable: Option<DurableAnswer>, running: bool) returns (answer: CancelAnswer)
      requires queue.Valid()
      modifies queue
      ensures queue.Valid()
      ensures answer.Refused? <==> durable in {Some(DurablyTerminal), Some(DurablyUnknown)}
      ensures answer.Refused? ==> queue.Value() == old(queue.Value())
      ensures !answer.Refused? ==>
                var known := task in old(queue.taskIndex) || task in old(queue.dlqTaskIndex);
                var status := if task in old(queue.cancelled) then AlreadyCancelled
                              else if known then CancelAccepted else NothingToCancel;
                && answer == (if running && status != NothingToCancel then Signalled else Answered(status))
                && if status == CancelAccepted then Withdrawn(old(queue.Value()), queue.Value(), task)
                   else queue.Value() == old(queue.Value())
    {
      if durable in {Some(DurablyTerminal), Some(DurablyUnknown)} {
        return Refused(durable.value);
      }
      hide QueueScripts.Cancel, Withdrawn;
      CancelOutcome(queue.Value(), task);
      var status := queue.Cancel(task);
      if running && !status.NothingToCancel? {
        return Signalled;
      }
      return Answered(status);
    }
  }

  // ----- Dead letters -----

  /** get: by record id, or by the message id that the caller passed in its place. */
  function Found(st: Store, record: RecordId): Option<DeadLetter> {
    var key := if record in st.dlqRecordIndex then st.dlqRecordIndex[record] else record;
    if key in st.dlq then Some(st.dlq[key]) else None
  }

  predicate KeyedByMessage(dlq: map<MessageId, DeadLetter>) {
    forall m :: m in dlq ==> dlq[m].messageId == m
  }

  predicate Replayable(st: Store, r: DeadLetter) {
    && r.replayedAs.None? && r.eligible && r.approval.Approved? && r.taskId !in st.cancelled
    && !r.envelope.state.Completed? && !r.envelope.state.Cancelled?
  }

  class DeadLetterQueue {
    const queue: RedisQueue

    constructor (queue: RedisQueue)
      ensures this.queue == queue
    {
      this.queue := queue;
    }

    method Get(record: RecordId) returns (found: Option<DeadLetter>)
      ensures found == Found(queue.Value(), record)
    {
      var key := if record in queue.dlqRecordIndex then queue.dlqRecordIndex[record] else record;
      return if key in queue.dlq then Some(queue.dlq[key]) else None;
    }

    /** The first record of a message stays and is answered.  A new one may be replayed only if its failure was not
        a permanent one. */
    method Finalize(r: DeadLetter) returns (kept: DeadLetter)
      requires queue.Valid()
      modifies queue
      ensures queue.Valid()
      ensures r.messageId in old(queue.dlq) ==>
                kept == old(queue.dlq)[r.messageId] && queue.Value() == old(queue.Value())
      ensures r.messageId !in old(queue.dlq) ==>
                && kept == r.(eligible := kept.eligible)
                && (kept.eligible <==> r.eligible && r.class_ !in {PermanentAuthorization, PermanentValidation})
                && queue.Value() == old(queue.Value()).(dlq := old(queue.dlq)[r.messageId := kept],
                     dlqTaskIndex := old(queue.dlqTaskIndex)[r.taskId := r.messageId],
                     dlqRecordIndex := old(queue.dlqRecordIndex)[r.id := r.messageId])
    {
      kept := queue.Finalize(Finalizable(r));
    }

    /** The record read is the record written, with nothing but its approval changed. */
    method ApproveReplay(record: RecordId, approved: bool) returns (updated: Option<DeadLetter>)
      requires queue.Valid() && KeyedByMessage(queue.dlq)
      modifies queue
      ensures queue.Valid() && KeyedByMessage(queue.dlq)
      ensures updated == Found(queue.Value(), record)
      ensures updated.None? <==> old(Found(queue.Value(), record)).None?
      ensures updated.None? ==> queue.Value() == old(queue.Value())
      ensures updated.Some? ==>
                && updated.value == old(Found(queue.Value(), record)).value.(approval := updated.value.approval)
                && updated.value.approval == (if approved then Approved else Denied)
                && queue.Value() == old(queue.Value()).(dlq :=
                   old(queue.dlq)[updated.value.messageId := updated.value])
    {
      var found := Get(record);
      if found.None? {
        return None;
      }
      queue.WriteApproval(found.value, approved);
      return Some(found.value.(approval := if approved then Approved else Denied));
    }

    /** Undisturbed, a replay succeeds exactly for an approved, eligible record that was not replayed before, of a
        task that may still run; then the record says so, and no later replay of it can succeed. */
    method Replay(record: RecordId, newId: MessageId) returns (status: ReplayStatus, id: Option<MessageId>)
      requires queue.Valid() && KeyedByMessage(queue.dlq)
      modifies queue
      ensures queue.Valid() && KeyedByMessage(queue.dlq)
      ensures var found := old(Found(queue.Value(), record));
              && (status.Replayed? <==> found.Some? && Replayable(old(queue.Value()), found.value))
              && (status.ReplayNotFound? <==> found.None?)
              && (status.Replayed? ==>
                    && id == Some(newId)
                    && Found(queue.Value(), record) == Some(found.value.(replayedAs := Some(newId)))
                    && queue.ready == PushReady(old(queue.Value()),
                           found.value.envelope.(messageId := newId, stamp := None)).ready)
      ensures queue.Value() == old(queue.Value()).(ready := queue.ready, dlq := queue.dlq)
      ensures status.Replayed? ==>
                var found := old(Found(queue.Value(), record)).value;
                var e := found.envelope;
                && queue.dlq == old(queue.dlq)[found.messageId := found.(replayedAs := Some(newId))]
                && queue.ready == old(queue.ready)[e.priority := old(queue.ready)[e.priority] +
                                      [Envelope(newId, e.taskId, e.state, e.attempt, e.priority, None)]]
      ensures old(Found(queue.Value(), record)).Some? ==>
                var r := old(Found(queue.Value(), record)).value;
                && (status == AlreadyReplayed <==> r.replayedAs != None)
                && (status == NotApproved <==> r.replayedAs == None && (!r.eligible || r.approval != Approved))
                && (status == ReplayCancelled <==>
                      r.replayedAs == None && r.eligible && r.approval == Approved && r.taskId in old(queue.cancelled))
      ensures !status.Replayed? ==> id.None? && queue.Value() == old(queue.Value())
    {
      var found := Get(record);
      if found.None? {
        return ReplayNotFound, None;
      }
      status := queue.Replay(found.value.messageId, newId, found.value.(replayedAs := Some(newId)));
      id := if status.Replayed? then Some(newId) else None;
    }
  }
}
