/** The Telegram surface's two guards: a bounded memory of updates, and a bucket per user and per chat. */
module TelegramSurfaces {
  import opened Options
  import opened RateLimits

  type UpdateId = int

  // ----- Remembered updates -----

  const MAX_UPDATES: nat := 10_000

  /** A set for lookups and a bounded deque that says which id to forget next. */
  datatype Memory = Memory(updates: set<UpdateId>, order: seq<UpdateId>)

  function Remember(m: Memory, id: UpdateId, capacity: nat): Memory
    requires capacity > 0
  {
    var full := |m.order| == capacity;
    var kept := if full then m.updates - {m.order[0]} else m.updates;
    Memory(kept + {id}, (if full then m.order[1..] else m.order) + [id])
  }

  ghost predicate Distinct(order: seq<UpdateId>) {
    forall i, j :: 0 <= i < j < |order| ==> order[i] != order[j]
  }

  /** The set is the deque's contents, and the deque repeats nothing and fits. */
  ghost predicate Mirrors(m: Memory, capacity: nat) {
    && |m.order| <= capacity && Distinct(m.order)
    && forall id :: id in m.updates <==> id in m.order
  }

  /** Remembering keeps the set and the deque in step exactly when the id is new, or is the very one that
      falls out. */
  lemma RememberMirrorsIff(m: Memory, id: UpdateId, capacity: nat)
    requires capacity > 0 && Mirrors(m, capacity)
    ensures Mirrors(Remember(m, id, capacity), capacity) <==>
              id !in m.updates || (|m.order| == capacity && id == m.order[0])
  {
    var next := Remember(m, id, capacity);
    var base := if |m.order| == capacity then m.order[1..] else m.order;
    assert next.order == base + [id];
    if id in base {
      var k :| 0 <= k < |base| && base[k] == id;
      assert next.order[k] == next.order[|base|];
      assert id in m.order;
      if |m.order| == capacity {
        assert m.order[k + 1] == id;
      }
    } else {
      forall x ensures x in next.updates <==> x in next.order {
        assert x in next.order <==> x in base || x == id;
        if |m.order| == capacity {
          assert m.order == [m.order[0]] + base;
        }
      }
    }
  }

  /** handle's guard: ids already remembered are dropped. */
  function HandleAll(m: Memory, ids: seq<UpdateId>, capacity: nat, handled: seq<UpdateId>): (Memory, seq<UpdateId>)
    requires capacity > 0
    decreases ids
  {
    if ids == [] then (m, handled)
    else if ids[0] in m.updates then HandleAll(m, ids[1..], capacity, handled)
    else HandleAll(Remember(m, ids[0], capacity), ids[1..], capacity, handled + [ids[0]])
  }

  function LastOf(xs: seq<UpdateId>, n: nat): seq<UpdateId> { if |xs| <= n then xs else xs[|xs| - n..] }

  /** The same id is handled twice only when more than capacity others were handled from one to the other. */
  ghost predicate FarApart(handled: seq<UpdateId>, capacity: nat) {
    forall i, j :: 0 <= i < j < |handled| && handled[i] == handled[j] ==> j - i > capacity
  }

  lemma StaysApart(handled: seq<UpdateId>, id: UpdateId, capacity: nat)
    requires FarApart(handled, capacity) && id !in LastOf(handled, capacity)
    ensures FarApart(handled + [id], capacity)
  {
    LastHolds(handled, capacity);
    hide LastOf;
    var next := handled + [id];
    forall i, j | 0 <= i < j < |next| && next[i] == next[j] ensures j - i > capacity {
      assert j == |handled| ==> handled[i] == id;
    }
  }

  lemma RememberKeepsLast(m: Memory, handled: seq<UpdateId>, id: UpdateId, capacity: nat)
    requires capacity > 0 && m.order == LastOf(handled, capacity)
    ensures Remember(m, id, capacity).order == LastOf(handled + [id], capacity)
  {
  }

  lemma NotInOrder(m: Memory, id: UpdateId, capacity: nat)
    requires Mirrors(m, capacity) && id !in m.updates
    ensures id !in m.order
  {
  }

  lemma LastHolds(xs: seq<UpdateId>, n: nat)
    ensures forall i :: 0 <= i < |xs| && i >= |xs| - n ==> xs[i] in LastOf(xs, n)
  {
    forall i | 0 <= i < |xs| && i >= |xs| - n ensures xs[i] in LastOf(xs, n) {
      assert LastOf(xs, n)[i - (|xs| - |LastOf(xs, n)|)] == xs[i];
    }
  }

  /** Over any stream of updates the deque holds the last handled ids, the set mirrors it, and an id comes
      through again only after it fell out. */
  lemma {:induction false} MemoryIsRecentHistory(m: Memory, ids: seq<UpdateId>, capacity: nat, handled: seq<UpdateId>)
    requires capacity > 0 && Mirrors(m, capacity) && m.order == LastOf(handled, capacity) && FarApart(handled, capacity)
    ensures var (t, all) := HandleAll(m, ids, capacity, handled);
            Mirrors(t, capacity) && t.order == LastOf(all, capacity) && FarApart(all, capacity)
    decreases ids
  {
    hide Mirrors, LastOf, FarApart, Remember;
    if ids == [] {
    } else {
      if ids[0] in m.updates {
        MemoryIsRecentHistory(m, ids[1..], capacity, handled);
      } else {
        RememberMirrorsIff(m, ids[0], capacity);
        RememberKeepsLast(m, handled, ids[0], capacity);
        NotInOrder(m, ids[0], capacity);
        StaysApart(handled, ids[0], capacity);
        MemoryIsRecentHistory(Remember(m, ids[0], capacity), ids[1..], capacity, handled + [ids[0]]);
      }
    }
  }

  // ----- Two buckets per message -----

  datatype Identity = User(id: int) | Chat(id: int)

  datatype Message = Message(user: int, chat: int, now: Time)

  /** The user's bucket is charged before the chat is asked, and keeps the charge when the chat refuses. */
  function Allow(l: Limit, b: Buckets<Identity>, m: Message): (Buckets<Identity>, bool) {
    var (charged, passed) := Touch(l, b, User(m.user), m.now);
    if passed then Touch(l, charged, Chat(m.chat), m.now) else (charged, false)
  }

  function AllowAll(l: Limit, b: Buckets<Identity>, ms: seq<Message>, allowed: seq<Message>): (Buckets<Identity>,
                    seq<Message>)
    decreases ms
  {
    if ms == [] then (b, allowed)
    else
      var (next, passed) := Allow(l, b, ms[0]);
      AllowAll(l, next, ms[1..], if passed then allowed + [ms[0]] else allowed)
  }

  /** Times of the allowed messages of one user or chat. */
  function TimesOf(allowed: seq<Message>, i: Identity): seq<Time> {
    if allowed == [] then []
    else
      var m := allowed[|allowed| - 1];
      TimesOf(allowed[..|allowed| - 1], i) + (if i == User(m.user) || i == Chat(m.chat) then [m.now] else [])
  }

  /** No window counts more allowed messages than entries in the log. */
  ghost predicate Bounded(times: seq<Time>, log: seq<Time>) {
    forall lo, hi :: Within(times, lo, hi) <= Within(log, lo, hi)
        && WithinUpTo(times, lo, hi) <= WithinUpTo(log, lo, hi)
  }

  ghost predicate Charged(b: Buckets<Identity>, allowed: seq<Message>) {
    forall i :: Bounded(TimesOf(allowed, i), At(b.log, i))
  }

  lemma AppendBoth(times: seq<Time>, log: seq<Time>, now: Time)
    requires Bounded(times, log)
    ensures Bounded(times, log + [now]) && Bounded(times + [now], log + [now])
  {
    forall lo, hi
      ensures Within(log + [now], lo, hi) == Within(log, lo, hi) + (if lo <= now < hi then 1 else 0)
      ensures Within(times + [now], lo, hi) == Within(times, lo, hi) + (if lo <= now < hi then 1 else 0)
      ensures WithinUpTo(log + [now], lo, hi) == WithinUpTo(log, lo, hi) + (if lo < now <= hi then 1 else 0)
      ensures WithinUpTo(times + [now], lo, hi) == WithinUpTo(times, lo, hi) + (if lo < now <= hi then 1 else 0)
    {
      assert (log + [now])[..|log|] == log && (times + [now])[..|times|] == times;
    }
  }

  lemma AllowCharges(l: Limit, b: Buckets<Identity>, m: Message, allowed: seq<Message>)
    requires Charged(b, allowed)
    ensures var (next, passed) := Allow(l, b, m); Charged(next, if passed then allowed + [m] else allowed)
  {
    var (next, passed) := Allow(l, b, m);
    var more := if passed then allowed + [m] else allowed;
    hide Bounded, Admit;
    forall i ensures Bounded(TimesOf(more, i), At(next.log, i)) {
      assert Bounded(TimesOf(allowed, i), At(b.log, i));
      AppendBoth(TimesOf(allowed, i), At(b.log, i), m.now);
      assert passed ==> more[..|more| - 1] == allowed;
      assert TimesOf(allowed, i) + [] == TimesOf(allowed, i);
    }
  }

  lemma AllowTracks(l: Limit, b: Buckets<Identity>, m: Message, last: Time)
    requires AllTrack(l, b, last) && last <= m.now
    ensures AllTrack(l, Allow(l, b, m).0, m.now)
  {
    TouchTracks(l, b, User(m.user), last, m.now);
    TouchTracks(l, Touch(l, b, User(m.user), m.now).0, Chat(m.chat), m.now, m.now);
    hide AllTrack, Touch;
  }

  ghost predicate MessagesRise(ms: seq<Message>, last: Time)
    decreases ms
  {
    ms != [] ==> last <= ms[0].now && MessagesRise(ms[1..], ms[0].now)
  }

  lemma BoundedLimits(l: Limit, b: Buckets<Identity>, allowed: seq<Message>, last: Time, i: Identity, start: Time)
    requires AllTrack(l, b, last) && Charged(b, allowed)
    ensures Within(TimesOf(allowed, i), start, start + l.window) <= (if l.count > 0 then l.count else 0)
    ensures WithinUpTo(TimesOf(allowed, i), start, start + l.window) <= (if l.count > 0 then l.count else 0)
  {
    IdentitySpaced(l, b, last, i);
    EveryWindowLimited(l, At(b.log, i), start);
    assert Bounded(TimesOf(allowed, i), At(b.log, i));
    hide AllTrack;
  }

  /** Every window holds at most the limit of allowed messages, per user and per chat at once. */
  lemma {:induction false} SurfaceLimits(l: Limit, b: Buckets<Identity>, ms: seq<Message>, allowed: seq<Message>,
                                         last: Time, i: Identity, start: Time)
    requires AllTrack(l, b, last) && Charged(b, allowed) && MessagesRise(ms, last)
    ensures var times := TimesOf(AllowAll(l, b, ms, allowed).1, i);
            && Within(times, start, start + l.window) <= (if l.count > 0 then l.count else 0)
            && WithinUpTo(times, start, start + l.window) <= (if l.count > 0 then l.count else 0)
    decreases ms
  {
    hide AllTrack, Charged, Allow;
    if ms == [] {
      BoundedLimits(l, b, allowed, last, i, start);
    } else {
      AllowTracks(l, b, ms[0], last);
      AllowCharges(l, b, ms[0], allowed);
      var (next, passed) := Allow(l, b, ms[0]);
      SurfaceLimits(l, next, ms[1..], if passed then allowed + [ms[0]] else allowed, ms[0].now, i, start);
    }
  }

  /** A message passes exactly when both windows have room; its user is charged even when only the chat
      refuses. */
  lemma AllowIffBothRoom(l: Limit, b: Buckets<Identity>, m: Message, last: Time)
    requires AllTrack(l, b, last) && last <= m.now
    ensures var (next, passed) := Allow(l, b, m);
            var user := WithinUpTo(At(b.log, User(m.user)), m.now - l.window, m.now) < l.count;
            var chat := WithinUpTo(At(b.log, Chat(m.chat)), m.now - l.window, m.now) < l.count;
            && (passed <==> user && chat)
            && (|At(next.log, User(m.user))| == |At(b.log, User(m.user))| + (if user then 1 else 0))
            && (|At(next.log, Chat(m.chat))| == |At(b.log, Chat(m.chat))| + (if user && chat then 1 else 0))
  {
    hide AllTrack, Touch, At, WithinUpTo;
    var charged := Touch(l, b, User(m.user), m.now).0;
    TouchTracks(l, b, User(m.user), last, m.now);
    TouchTracks(l, charged, Chat(m.chat), m.now, m.now);
    TouchLogs(l, b, User(m.user), m.now);
    TouchLogs(l, charged, Chat(m.chat), m.now);
  }

  lemma TouchLogs(l: Limit, b: Buckets<Identity>, i: Identity, now: Time)
    ensures var (next, passed) := Touch(l, b, i, now);
            && At(next.log, i) == At(b.log, i) + (if passed then [now] else [])
            && forall j :: j != i ==> At(next.log, j) == At(b.log, j)
  {
    hide Admit;
  }

  // ----- The surface -----

  datatype Handling = Ignored | RateLimited | Accepted

  class TelegramControlSurface {
    const limit: Limit
    var updates: set<UpdateId>
    var updateOrder: seq<UpdateId>
    var rates: map<Identity, seq<Time>>
    ghost var log: map<Identity, seq<Time>>
    var closing: bool

    ghost function Seen(): Memory
      reads this
    {
      Memory(updates, updateOrder)
    }

    ghost function Value(): Buckets<Identity>
      reads this
    {
      Buckets(rates, log)
    }

    constructor (limit: Limit)
      ensures this.limit == limit && !closing
      ensures Mirrors(Seen(), MAX_UPDATES) && Value() == Buckets(map[], map[])
      ensures AllTrack(limit, Value(), 0.0) && Charged(Value(), [])
    {
      this.limit := limit;
      updates, updateOrder, rates, closing := {}, [], map[], false;
      log := map[];
    }

    method RememberUpdate(id: UpdateId)
      modifies `updates, `updateOrder
      ensures Seen() == Remember(old(Seen()), id, MAX_UPDATES)
    {
      if |updateOrder| == MAX_UPDATES {
        updates := updates - {updateOrder[0]};
        updateOrder := updateOrder[1..];
      }
      updateOrder := updateOrder + [id];
      updates := updates + {id};
    }

    method Ask(identity: Identity, now: Time) returns (passed: bool)
      modifies `rates, `log
      ensures (Value(), passed) == Touch(limit, old(Value()), identity, now)
    {
      var bucket := if identity in rates then rates[identity] else [];
      ghost var arrived := bucket;
      while bucket != [] && bucket[0] <= now - limit.window
        invariant Prune(bucket, now - limit.window) == Prune(arrived, now - limit.window)
        decreases |bucket|
      {
        bucket := bucket[1..];
      }
      passed := |bucket| < limit.count;
      if passed {
        bucket := bucket + [now];
        log := log[identity := At(log, identity) + [now]];
      }
      rates := rates[identity := bucket];
    }

    method AllowMessage(m: Message) returns (passed: bool)
      modifies `rates, `log
      ensures (Value(), passed) == Allow(limit, old(Value()), m)
    {
      passed := Ask(User(m.user), m.now);
      if passed {
        passed := Ask(Chat(m.chat), m.now);
      }
    }

    /** Up to the point where a command is dispatched.  message is absent for updates without a target;
        permitted is the access policy's answer for it. */
    method Handle(id: UpdateId, message: Option<Message>, permitted: bool) returns (outcome: Handling)
      requires Mirrors(Seen(), MAX_UPDATES)
      modifies this
      ensures Mirrors(Seen(), MAX_UPDATES) && closing == old(closing)
      ensures Seen() == if old(closing) || id in old(updates) then old(Seen())
              else Remember(old(Seen()), id, MAX_UPDATES)
      ensures !old(closing) && id !in old(updates) ==>
                if |old(updateOrder)| == 10_000 then
                  updateOrder == old(updateOrder)[1..] + [id] && updates == old(updates) - {old(updateOrder)[0]} + {id}
                else updateOrder == old(updateOrder) + [id] && updates == old(updates) + {id}
      ensures var asked := !old(closing) && id !in old(updates) && message.Some? && permitted;
              if asked then (Value(), outcome) == (Allow(limit, old(Value()), message.value).0,
                                                   if Allow(limit, old(Value()), message.value).1 then Accepted
                                                       else RateLimited)
              else Value() == old(Value()) && outcome == Ignored
    {
      if closing || id in updates {
        return Ignored;
      }
      RememberMirrorsIff(Seen(), id, MAX_UPDATES);
      RememberUpdate(id);
      if message.None? || !permitted {
        return Ignored;
      }
      var passed := AllowMessage(message.value);
      return if passed then Accepted else RateLimited;
    }
  }
}
