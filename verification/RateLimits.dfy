/** Sliding-window buckets: the API middleware has one per identity, the Telegram surface asks one per user
    and one per chat.  Times are real and never run back. */
module RateLimits {
  type Time = real

  datatype Limit = Limit(count: int, window: Time)

  // ----- One bucket -----

  function Prune(bucket: seq<Time>, cutoff: Time): seq<Time> {
    if bucket != [] && bucket[0] <= cutoff then Prune(bucket[1..], cutoff) else bucket
  }

  /** One request at time now: the bucket afterwards, and whether it was let through. */
  function Admit(l: Limit, bucket: seq<Time>, now: Time): (seq<Time>, bool) {
    var pruned := Prune(bucket, now - l.window);
    if |pruned| >= l.count then (pruned, false) else (pruned + [now], true)
  }

  /** Entries at or after lo and before hi. */
  function Within(log: seq<Time>, lo: Time, hi: Time): nat {
    if log == [] then 0
    else Within(log[..|log| - 1], lo, hi) + (if lo <= log[|log| - 1] < hi then 1 else 0)
  }

  /** Entries after lo and up to hi. */
  function WithinUpTo(log: seq<Time>, lo: Time, hi: Time): nat {
    if log == [] then 0
    else WithinUpTo(log[..|log| - 1], lo, hi) + (if lo < log[|log| - 1] <= hi then 1 else 0)
  }

  ghost predicate Rising(log: seq<Time>) {
    forall i, j :: 0 <= i < j < |log| ==> log[i] <= log[j]
  }

  /** Any count + 1 consecutive entries span at least the window. */
  ghost predicate Spaced(l: Limit, log: seq<Time>) {
    if l.count <= 0 then log == []
    else forall j :: l.count <= j < |log| ==> log[j - l.count] <= log[j] - l.window
  }

  /** The bucket is the end of the log, and what was dropped is too old to matter at time last. */
  ghost predicate EndsWith(l: Limit, log: seq<Time>, bucket: seq<Time>, last: Time) {
    && |bucket| <= |log| && log[|log| - |bucket|..] == bucket
    && forall i :: 0 <= i < |log| - |bucket| ==> log[i] <= last - l.window
  }

  ghost predicate Tracks(l: Limit, log: seq<Time>, bucket: seq<Time>, last: Time) {
    && Rising(log) && Spaced(l, log) && EndsWith(l, log, bucket, last)
    && forall i :: 0 <= i < |log| ==> log[i] <= last
  }

  lemma {:induction false} PruneKeepsEnd(l: Limit, log: seq<Time>, bucket: seq<Time>, last: Time, now: Time)
    requires Tracks(l, log, bucket, last) && last <= now
    ensures Tracks(l, log, Prune(bucket, now - l.window), now)
    ensures var pruned := Prune(bucket, now - l.window); pruned != [] ==> pruned[0] > now - l.window
    decreases |bucket|
  {
    if bucket != [] && bucket[0] <= now - l.window {
      var i := |log| - |bucket|;
      assert log[i] == log[i..][0] == bucket[0];
      assert log[i + 1..] == log[i..][1..];
      PruneKeepsEnd(l, log, bucket[1..], now, now);
    }
  }

  lemma PrunedIsRecent(l: Limit, log: seq<Time>, pruned: seq<Time>, now: Time)
    requires Tracks(l, log, pruned, now) && (pruned != [] ==> pruned[0] > now - l.window)
    ensures WithinUpTo(log, now - l.window, now) == |pruned|
  {
    var k := |log| - |pruned|;
    forall i | k <= i < |log| ensures now - l.window < log[i] <= now {
      assert log[k] == pruned[0];
    }
    RecentAreTheEnd(log, k, now - l.window, now);
  }

  /** A request is let through exactly when fewer than count requests were let through in the window that
      ends now. */
  lemma AdmitIffRoom(l: Limit, log: seq<Time>, bucket: seq<Time>, last: Time, now: Time)
    requires Tracks(l, log, bucket, last) && last <= now
    ensures Admit(l, bucket, now).1 <==> WithinUpTo(log, now - l.window, now) < l.count
    ensures var (next, admitted) := Admit(l, bucket, now); Tracks(l, if admitted then log + [now] else log, next, now)
  {
    hide Tracks, Prune, WithinUpTo;
    PruneKeepsEnd(l, log, bucket, last, now);
    var pruned := Prune(bucket, now - l.window);
    PrunedIsRecent(l, log, pruned, now);
    if |pruned| < l.count {
      AppendTracks(l, log, pruned, now);
    }
  }

  lemma AppendTracks(l: Limit, log: seq<Time>, pruned: seq<Time>, now: Time)
    requires Tracks(l, log, pruned, now) && |pruned| < l.count
    ensures Tracks(l, log + [now], pruned + [now], now)
  {
    var next := log + [now];
    assert next[|next| - |pruned + [now]|..] == pruned + [now];
    forall j | l.count <= j < |next| ensures next[j - l.count] <= next[j] - l.window {
      if j == |log| {
        assert j - l.count < |log| - |pruned|;
      }
    }
  }

  lemma {:induction false} RecentAreTheEnd(log: seq<Time>, k: nat, lo: Time, hi: Time)
    requires k <= |log| && (forall i :: 0 <= i < k ==> log[i] <= lo) && (forall i :: k <= i < |log| ==>
             lo < log[i] <= hi)
    ensures WithinUpTo(log, lo, hi) == |log| - k
    decreases |log|
  {
    if log == [] {
    } else {
      if k == |log| {
        RecentAreTheEnd(log[..|log| - 1], k - 1, lo, hi);
      } else {
        RecentAreTheEnd(log[..|log| - 1], k, lo, hi);
      }
    }
  }

  // ----- Every window -----

  lemma {:induction false} AtMostAll(log: seq<Time>, k: nat, lo: Time, hi: Time)
    requires k <= |log|
    ensures (forall i :: 0 <= i < k ==> log[i] < lo) ==> Within(log, lo, hi) <= |log| - k
    ensures (forall i :: 0 <= i < k ==> log[i] <= lo) ==> WithinUpTo(log, lo, hi) <= |log| - k
    decreases |log|
  {
    if log == [] {
    } else {
      AtMostAll(log[..|log| - 1], if k == |log| then k - 1 else k, lo, hi);
    }
  }

  lemma PrefixSpaced(l: Limit, log: seq<Time>)
    requires Rising(log) && Spaced(l, log) && log != []
    ensures l.count > 0 && Rising(log[..|log| - 1]) && Spaced(l, log[..|log| - 1])
  {
  }

  lemma OlderAreBefore(l: Limit, log: seq<Time>, i: nat)
    requires Rising(log) && Spaced(l, log) && log != [] && i < |log| - l.count
    ensures log[i] <= log[|log| - 1] - l.window
  {
    assert log[i] <= log[|log| - 1 - l.count];
  }

  /** No half-open window of the configured length, wherever it starts, holds more than count requests. */
  lemma {:induction false} EveryWindowLimited(l: Limit, log: seq<Time>, start: Time)
    requires Rising(log) && Spaced(l, log)
    ensures Within(log, start, start + l.window) <= (if l.count > 0 then l.count else 0)
    ensures WithinUpTo(log, start, start + l.window) <= (if l.count > 0 then l.count else 0)
    decreases |log|
  {
    hide Rising, Spaced;
    if log == [] {
    } else {
      PrefixSpaced(l, log);
      EveryWindowLimited(l, log[..|log| - 1], start);
      forall i | 0 <= i < |log| - l.count ensures log[i] <= log[|log| - 1] - l.window {
        OlderAreBefore(l, log, i);
      }
      AtMostAll(log, if |log| < l.count then 0 else |log| - l.count, start, start + l.window);
    }
  }

  // ----- Closed windows -----

  /** Entries from lo to hi, both included. */
  function WithinClosed(log: seq<Time>, lo: Time, hi: Time): nat {
    if log == [] then 0
    else WithinClosed(log[..|log| - 1], lo, hi) + (if lo <= log[|log| - 1] <= hi then 1 else 0)
  }

  lemma {:induction false} ClosedInTwo(log: seq<Time>, lo: Time, mid: Time, hi: Time)
    requires mid < hi
    ensures WithinClosed(log, lo, mid) <= Within(log, lo, mid) + Within(log, mid, hi)
  {
    if log == [] {
    } else {
      ClosedInTwo(log[..|log| - 1], lo, mid, hi);
    }
  }

  lemma {:induction false} ClosedAtMostAll(log: seq<Time>, k: nat, lo: Time, hi: Time)
    requires k <= |log| && forall i :: 0 <= i < k ==> log[i] < lo
    ensures WithinClosed(log, lo, hi) <= |log| - k
    decreases |log|
  {
    if log == [] {
    } else {
      ClosedAtMostAll(log[..|log| - 1], if k == |log| then k - 1 else k, lo, hi);
    }
  }

  /** Entries i to j all lie in the window. */
  lemma {:induction false} ClosedAtLeast(log: seq<Time>, i: nat, j: nat, lo: Time, hi: Time)
    requires i <= j < |log| && forall k :: i <= k <= j ==> lo <= log[k] <= hi
    ensures WithinClosed(log, lo, hi) >= j - i + 1
    decreases |log|
  {
    var n := |log| - 1;
    if j < n {
      ClosedAtLeast(log[..n], i, j, lo, hi);
    } else if i < j {
      ClosedAtLeast(log[..n], i, j - 1, lo, hi);
    }
  }

  /** An entry exactly one window after the one count places before it. */
  predicate OnTheEdge(l: Limit, log: seq<Time>, j: nat) {
    0 < l.count <= j < |log| && log[j - l.count] == log[j] - l.window
  }

  ghost predicate NoEdges(l: Limit, log: seq<Time>) {
    forall j: nat :: !OnTheEdge(l, log, j)
  }

  lemma PrefixEdges(l: Limit, log: seq<Time>)
    requires log != [] && NoEdges(l, log)
    ensures NoEdges(l, log[..|log| - 1]) && !OnTheEdge(l, log, |log| - 1)
  {
    var prefix := log[..|log| - 1];
    forall j: nat ensures !OnTheEdge(l, prefix, j) {
      assert !OnTheEdge(l, log, j);
    }
  }

  lemma {:induction false} NoEdgeLimits(l: Limit, log: seq<Time>, start: Time)
    requires Rising(log) && Spaced(l, log) && NoEdges(l, log)
    ensures WithinClosed(log, start, start + l.window) <= (if l.count > 0 then l.count else 0)
    decreases |log|
  {
    hide Rising, Spaced, NoEdges, OnTheEdge;
    if log == [] {
    } else {
      PrefixSpaced(l, log);
      PrefixEdges(l, log);
      NoEdgeLimits(l, log[..|log| - 1], start);
      if log[|log| - 1] <= start + l.window {
        forall i | 0 <= i < |log| - l.count ensures log[i] < start {
          EdgeBefore(l, log, i);
        }
        ClosedAtMostAll(log, if |log| < l.count then 0 else |log| - l.count, start, start + l.window);
      }
    }
  }

  lemma EdgeBefore(l: Limit, log: seq<Time>, i: nat)
    requires Rising(log) && Spaced(l, log) && log != [] && i < |log| - l.count && !OnTheEdge(l, log, |log| - 1)
    ensures log[i] < log[|log| - 1] - l.window
  {
    assert log[i] <= log[|log| - 1 - l.count];
  }

  /** A closed window of the configured length holds at most twice the limit. */
  lemma ClosedWindowTwice(l: Limit, log: seq<Time>, start: Time)
    requires Rising(log) && Spaced(l, log)
    ensures l.window != 0.0 ==> WithinClosed(log, start, start + l.window) <= 2 * (if l.count > 0 then l.count else 0)
  {
    if l.window > 0.0 {
      EveryWindowLimited(l, log, start);
      EveryWindowLimited(l, log, start + l.window);
      ClosedInTwo(log, start, start + l.window, start + l.window + l.window);
    } else if l.window < 0.0 {
      EmptyWindow(log, start, start + l.window);
    }
  }

  lemma {:induction false} EmptyWindow(log: seq<Time>, lo: Time, hi: Time)
    requires hi < lo
    ensures WithinClosed(log, lo, hi) == 0
  {
    if log == [] {
    } else {
      EmptyWindow(log[..|log| - 1], lo, hi);
    }
  }

  /** Twice the limit does occur, for every limit: count requests at once, and count more one window later. */
  lemma TwiceIsAttained(l: Limit) returns (log: seq<Time>)
    requires l.count > 0 && l.window > 0.0
    ensures Rising(log) && Spaced(l, log) && ServeTimes(l, log).1 == log
            && WithinClosed(log, 0.0, l.window) == 2 * l.count
  {
    log := seq(2 * l.count, i requires 0 <= i < 2 * l.count => if i < l.count then 0.0 else l.window);
    SpacedIsServed(l, log);
    ClosedAtLeast(log, 0, 2 * l.count - 1, 0.0, l.window);
    ClosedAtMostAll(log, 0, 0.0, l.window);
    hide ServeTimes, WithinClosed;
  }

  /** The closed window from start on holds at most the limit. */
  predicate KeepsTo(l: Limit, log: seq<Time>, start: Time) {
    WithinClosed(log, start, start + l.window) <= if l.count > 0 then l.count else 0
  }

  /** Every closed window keeps to the limit exactly when no request came precisely one window after the one
      count places before it. */
  lemma ClosedWindowsLimitedIff(l: Limit, log: seq<Time>)
    requires Rising(log) && Spaced(l, log)
    ensures (forall start :: KeepsTo(l, log, start)) <==> NoEdges(l, log)
  {
    if NoEdges(l, log) {
      forall start ensures KeepsTo(l, log, start) {
        NoEdgeLimits(l, log, start);
      }
    } else {
      var j: nat :| OnTheEdge(l, log, j);
      var start := log[j - l.count];
      ClosedAtLeast(log, j - l.count, j, start, start + l.window);
      assert !KeepsTo(l, log, start);
    }
  }

  /** The bucket and the log after requests at these times. */
  ghost function ServeTimes(l: Limit, times: seq<Time>): (seq<Time>, seq<Time>) {
    if times == [] then ([], [])
    else
      var (bucket, log) := ServeTimes(l, times[..|times| - 1]);
      var now := times[|times| - 1];
      var (next, admitted) := Admit(l, bucket, now);
      (next, if admitted then log + [now] else log)
  }

  /** Exactly the rising, spaced logs occur: requests at the times of such a log are all let through. */
  lemma {:induction false} SpacedIsServed(l: Limit, log: seq<Time>)
    requires Rising(log) && Spaced(l, log)
    ensures ServeTimes(l, log).1 == log
    ensures log != [] ==> Tracks(l, log, ServeTimes(l, log).0, log[|log| - 1])
    decreases |log|
  {
    hide Rising, Spaced, Tracks, Admit, WithinUpTo;
    if log == [] {
    } else {
      var n := |log| - 1;
      PrefixSpaced(l, log);
      SpacedIsServed(l, log[..n]);
      var bucket := ServeTimes(l, log[..n]).0;
      if n == 0 {
        NothingTracked(l, log[0]);
        assert log[..0] == [];
        AdmitIffRoom(l, [], [], log[0], log[0]);
        FewRecent(l, log);
        assert log == [] + [log[0]];
      } else {
        LastRises(log);
        AdmitIffRoom(l, log[..n], bucket, log[n - 1], log[n]);
        FewRecent(l, log);
        assert log == log[..n] + [log[n]];
      }
    }
  }

  lemma LastRises(log: seq<Time>)
    requires Rising(log) && |log| > 1
    ensures log[|log| - 2] <= log[|log| - 1]
  {
  }

  lemma NothingTracked(l: Limit, now: Time)
    ensures Tracks(l, [], [], now)
  {
  }

  lemma FewRecent(l: Limit, log: seq<Time>)
    requires Rising(log) && Spaced(l, log) && log != []
    ensures var n := |log| - 1; WithinUpTo(log[..n], log[n] - l.window, log[n]) < l.count
  {
    var n := |log| - 1;
    var k := if n < l.count then 0 else n - l.count + 1;
    forall i | 0 <= i < k ensures log[..n][i] <= log[n] - l.window {
      OlderAreBefore(l, log, i);
    }
    AtMostAll(log[..n], k, log[n] - l.window, log[n]);
  }

  // ----- Many identities -----

  /** log is history: every time that was appended to an identity's bucket. */
  datatype Buckets<!I> = Buckets(rates: map<I, seq<Time>>, log: map<I, seq<Time>>)

  function At<I>(m: map<I, seq<Time>>, i: I): seq<Time> { if i in m then m[i] else [] }

  function Touch<I>(l: Limit, b: Buckets<I>, i: I, now: Time): (Buckets<I>, bool) {
    var (next, admitted) := Admit(l, At(b.rates, i), now);
    (Buckets(b.rates[i := next], if admitted then b.log[i := At(b.log, i) + [now]] else b.log), admitted)
  }

  ghost predicate AllTrack<I(!new)>(l: Limit, b: Buckets<I>, last: Time) {
    forall i :: Tracks(l, At(b.log, i), At(b.rates, i), last)
  }

  lemma TracksLater(l: Limit, log: seq<Time>, bucket: seq<Time>, last: Time, now: Time)
    requires Tracks(l, log, bucket, last) && last <= now
    ensures Tracks(l, log, bucket, now)
  {
  }

  lemma TouchParts<I>(l: Limit, b: Buckets<I>, i: I, now: Time)
    ensures var t := Touch(l, b, i, now).0;
            var (next, admitted) := Admit(l, At(b.rates, i), now);
            && Touch(l, b, i, now).1 == admitted && At(t.rates, i) == next
            && At(t.log, i) == (if admitted then At(b.log, i) + [now] else At(b.log, i))
            && forall j :: j != i ==> At(t.log, j) == At(b.log, j) && At(t.rates, j) == At(b.rates, j)
  {
    hide Admit;
  }

  lemma TouchTracks<I(!new)>(l: Limit, b: Buckets<I>, i: I, last: Time, now: Time)
    requires AllTrack(l, b, last) && last <= now
    ensures AllTrack(l, Touch(l, b, i, now).0, now)
    ensures Touch(l, b, i, now).1 <==> WithinUpTo(At(b.log, i), now - l.window, now) < l.count
  {
    hide Tracks, Touch, At, Admit, WithinUpTo;
    AdmitIffRoom(l, At(b.log, i), At(b.rates, i), last, now);
    TouchParts(l, b, i, now);
    var t := Touch(l, b, i, now).0;
    forall j ensures Tracks(l, At(t.log, j), At(t.rates, j), now) {
      if j != i {
        TracksLater(l, At(b.log, j), At(b.rates, j), last, now);
      }
    }
  }

  // ----- The middleware -----

  datatype Request<I> = Request(identity: I, now: Time)

  ghost predicate TimesRise<I>(rs: seq<Request<I>>, last: Time)
    decreases rs
  {
    rs != [] ==> last <= rs[0].now && TimesRise(rs[1..], rs[0].now)
  }

  ghost function ServeAll<I(!new)>(l: Limit, b: Buckets<I>, rs: seq<Request<I>>): Buckets<I>
    decreases rs
  {
    if rs == [] then b else ServeAll(l, Touch(l, b, rs[0].identity, rs[0].now).0, rs[1..])
  }

  /** Whatever requests arrive, every window of every identity holds at most the limit. */
  lemma {:induction false} MiddlewareLimits<I(!new)>(l: Limit, b: Buckets<I>, rs: seq<Request<I>>, last: Time, i: I,
          start: Time)
    requires AllTrack(l, b, last) && TimesRise(rs, last)
    ensures var log := At(ServeAll(l, b, rs).log, i);
            && Within(log, start, start + l.window) <= (if l.count > 0 then l.count else 0)
            && WithinUpTo(log, start, start + l.window) <= (if l.count > 0 then l.count else 0)
    decreases rs
  {
    hide AllTrack, Touch;
    if rs == [] {
      IdentitySpaced(l, b, last, i);
      EveryWindowLimited(l, At(b.log, i), start);
    } else {
      TouchTracks(l, b, rs[0].identity, last, rs[0].now);
      MiddlewareLimits(l, Touch(l, b, rs[0].identity, rs[0].now).0, rs[1..], rs[0].now, i, start);
    }
  }

  lemma IdentitySpaced<I(!new)>(l: Limit, b: Buckets<I>, last: Time, i: I)
    requires AllTrack(l, b, last)
    ensures Rising(At(b.log, i)) && Spaced(l, At(b.log, i))
  {
    assert Tracks(l, At(b.log, i), At(b.rates, i), last);
  }

  class RateLimitMiddleware {
    const limit: Limit
    var requests: map<string, seq<Time>>
    ghost var log: map<string, seq<Time>>

    ghost function Value(): Buckets<string>
      reads this
    {
      Buckets(requests, log)
    }

    constructor (limit: Limit)
      ensures this.limit == limit && Value() == Buckets(map[], map[]) && AllTrack(limit, Value(), 0.0)
    {
      this.limit := limit;
      requests := map[];
      log := map[];
    }

    method Dispatch(identity: string, now: Time, ghost last: Time) returns (passed: bool)
      requires AllTrack(limit, Value(), last) && last <= now
      modifies this
      ensures (Value(), passed) == Touch(limit, old(Value()), identity, now)
      ensures AllTrack(limit, Value(), now)
      ensures passed <==> WithinUpTo(At(old(log), identity), now - limit.window, now) < limit.count
    {
      TouchTracks(limit, Value(), identity, last, now);
      var bucket := if identity in requests then requests[identity] else [];
      ghost var arrived := bucket;
      while bucket != [] && bucket[0] <= now - limit.window
        invariant Prune(bucket, now - limit.window) == Prune(arrived, now - limit.window)
        decreases |bucket|
      {
        bucket := bucket[1..];
      }
      passed := |bucket| < limit.count;
      if passed {
        bucket := bucket + [now];
        log := log[identity := At(log, identity) + [now]];
      }
      requests := requests[identity := bucket];
    }
  }
}
