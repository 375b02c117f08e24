/** Retry back-off (queue/retry_policy.py).  Seconds are reals; the random draw of the
    jitter is an argument between zero and one. */
module RetryPolicies {
  import opened Options

  datatype RetryReason =
    | PermanentFailure
    | AttemptBudgetExhausted
    | ElapsedBudgetExhausted
    | RetryAfter
    | ExponentialBackoff

  datatype RetryDecision = RetryDecision(retry: bool, delay: real, reason: RetryReason)

  datatype RetryPolicy = RetryPolicy(
    maximumAttempts: int,
    baseDelay: real,
    maximumDelay: real,
    maximumElapsed: real,
    jitterRatio: real)
  {
    /** The constructor rejects every other combination; it does not check maximumDelay. */
    predicate Valid() {
      && 1 <= maximumAttempts
      && 0.0 < baseDelay
      && 0.0 < maximumElapsed
      && 0.0 <= jitterRatio <= 1.0
    }
  }

  type Draw = d: real | 0.0 <= d <= 1.0 witness 0.0

  function Min(a: real, b: real): real { if a <= b then a else b }

  function Max(a: real, b: real): real { if a <= b then b else a }

  function Pow2(n: nat): real { if n == 0 then 1.0 else 2.0 * Pow2(n - 1) }

  /** base * 2^n, by doubling; DoublingIsPower gives the closed form. */
  function Doubled(base: real, n: nat): real { if n == 0 then base else 2.0 * Doubled(base, n - 1) }

  lemma {:induction false} DoublingIsPower(base: real, n: nat)
    ensures Doubled(base, n) == base * Pow2(n)
  {
    if n > 0 {
      DoublingIsPower(base, n - 1);
    }
  }

  /** The back-off before jitter. */
  function Unjittered(p: RetryPolicy, attempt: int): real {
    Min(p.maximumDelay, Doubled(p.baseDelay, if attempt <= 1 then 0 else attempt - 1))
  }

  function Uniform(lo: real, hi: real, draw: Draw): real { lo + (hi - lo) * draw }

  /** A uniform draw from the band of the given ratio around c. */
  function Jitter(c: real, ratio: real, draw: Draw): real {
    var spread := c * ratio;
    Uniform(c - spread, c + spread, draw)
  }

  function Jittered(p: RetryPolicy, attempt: int, draw: Draw): real {
    Jitter(Unjittered(p, attempt), p.jitterRatio, draw)
  }

  /** Seconds asked for: the server's wish when it sent one, else the jittered back-off. */
  function Wish(p: RetryPolicy, attempt: int, retryAfter: Option<real>, draw: Draw): real {
    if retryAfter.Some? then Max(0.0, retryAfter.value) else Jittered(p, attempt, draw)
  }

  /** The budget checks of the decision, for a wished delay. */
  function Grant(p: RetryPolicy, attempt: int, retryable: bool, elapsed: real, wish: real,
                 reason: RetryReason): RetryDecision {
    if !retryable then
      RetryDecision(false, 0.0, PermanentFailure)
    else if attempt >= p.maximumAttempts then
      RetryDecision(false, 0.0, AttemptBudgetExhausted)
    else if elapsed >= p.maximumElapsed || elapsed + wish > p.maximumElapsed then
      RetryDecision(false, 0.0, ElapsedBudgetExhausted)
    else
      RetryDecision(true, wish, reason)
  }

  function Decide(p: RetryPolicy, attempt: int, retryable: bool, retryAfter: Option<real>, elapsed: real, draw: Draw)
    : RetryDecision
  {
    Grant(p, attempt, retryable, elapsed, Wish(p, attempt, retryAfter, draw),
          if retryAfter.Some? then RetryAfter else ExponentialBackoff)
  }

  // ----- Arithmetic of one delay -----

  lemma {:induction false} DoubledGrows(base: real, m: nat, n: nat)
    requires 0.0 < base && m <= n
    ensures base <= Doubled(base, m) <= Doubled(base, n)
  {
    if m < n {
      DoubledGrows(base, m, n - 1);
    } else if m > 0 {
      DoubledGrows(base, m - 1, m - 1);
    }
  }

  /** More failures never shorten the back-off before jitter, and it never passes the cap. */
  lemma UnjitteredMonotone(p: RetryPolicy, a: int, b: int)
    requires p.Valid() && a <= b
    ensures Unjittered(p, a) <= Unjittered(p, b) <= p.maximumDelay
  {
    DoubledGrows(p.baseDelay, if a <= 1 then 0 else a - 1, if b <= 1 then 0 else b - 1);
  }

  lemma ScaleMonotone(k: real, x: real, y: real)
    requires 0.0 <= k && x <= y
    ensures k * x <= k * y
  {
    assert 0.0 <= k * (y - x);
  }

  lemma UnjitteredSign(p: RetryPolicy, attempt: int)
    requires p.Valid()
    ensures 0.0 < Unjittered(p, attempt) <==> 0.0 < p.maximumDelay
    ensures 0.0 <= Unjittered(p, attempt) <==> 0.0 <= p.maximumDelay
  {
    DoubledGrows(p.baseDelay, 0, if attempt <= 1 then 0 else attempt - 1);
  }

  lemma UniformInRange(lo: real, hi: real, draw: Draw)
    requires lo <= hi
    ensures lo <= Uniform(lo, hi, draw) <= hi
  {
    ScaleMonotone(hi - lo, 0.0, draw);
    ScaleMonotone(hi - lo, draw, 1.0);
  }

  lemma JitterBounds(c: real, j: real, draw: Draw)
    requires 0.0 <= c && 0.0 <= j
    ensures (1.0 - j) * c <= Jitter(c, j, draw) <= (1.0 + j) * c
  {
    var spread := c * j;
    ScaleMonotone(c, 0.0, j);
    assert (1.0 - j) * c == c - spread;
    assert (1.0 + j) * c == c + spread;
    hide Uniform;
    UniformInRange(c - spread, c + spread, draw);
  }

  /** The upper edge of the jitter band. */
  function Widened(p: RetryPolicy, seconds: real): real { (1.0 + p.jitterRatio) * seconds }

  /** Whatever the random draw, a jittered delay stays in the band around the capped exponential. */
  lemma JitteredInBand(p: RetryPolicy, attempt: int, draw: Draw)
    requires p.Valid() && 0.0 <= p.maximumDelay
    ensures var c := Unjittered(p, attempt);
            0.0 <= (1.0 - p.jitterRatio) * c <= Jittered(p, attempt, draw) <= Widened(p, c)
  {
    UnjitteredSign(p, attempt);
    hide Unjittered, Jitter;
    InBand(Unjittered(p, attempt), p.jitterRatio, draw);
  }

  lemma InBand(c: real, j: real, draw: Draw)
    requires 0.0 <= c && 0.0 <= j <= 1.0
    ensures 0.0 <= (1.0 - j) * c <= Jitter(c, j, draw) <= (1.0 + j) * c
  {
    JitterBounds(c, j, draw);
    ScaleMonotone(c, 0.0, 1.0 - j);
  }

  /** The constructor accepts a negative cap.  Jittered delays are never negative exactly when the
      cap is not. */
  lemma JitteredNonNegativeIff(p: RetryPolicy, attempt: int)
    requires p.Valid()
    ensures (forall draw: Draw :: 0.0 <= Jittered(p, attempt, draw)) <==> 0.0 <= p.maximumDelay
  {
    if 0.0 <= p.maximumDelay {
      forall draw: Draw ensures 0.0 <= Jittered(p, attempt, draw) {
        JitteredInBand(p, attempt, draw);
      }
    } else {
      NegativeMiddle(p, attempt);
    }
  }

  lemma NegativeMiddle(p: RetryPolicy, attempt: int)
    requires p.Valid() && p.maximumDelay < 0.0
    ensures Jittered(p, attempt, 0.5) < 0.0
  {
    UnjitteredSign(p, attempt);
    hide Unjittered, Jitter;
    Halfway(Unjittered(p, attempt), p.jitterRatio);
  }

  lemma Halfway(c: real, j: real)
    ensures Jitter(c, j, 0.5) == c
  {
  }

  /** A retry is granted exactly when the failure is retryable and both budgets hold; what is granted
      is the wish, otherwise the delay is zero and the reason says which check refused. */
  lemma DecideMeaning(p: RetryPolicy, attempt: int, retryable: bool, retryAfter: Option<real>, elapsed: real,
                      draw: Draw)
    requires p.Valid() && 0.0 <= p.maximumDelay
    ensures var d := Decide(p, attempt, retryable, retryAfter, elapsed, draw);
            var wish := Wish(p, attempt, retryAfter, draw);
            && 0.0 <= d.delay
            && (d.retry <==>
                  retryable && attempt < p.maximumAttempts && elapsed < p.maximumElapsed
                  && elapsed + wish <= p.maximumElapsed)
            && d.delay == (if d.retry then wish else 0.0)
            && (d.reason == PermanentFailure <==> !retryable)
            && (d.reason == AttemptBudgetExhausted <==> retryable && p.maximumAttempts <= attempt)
  {
    WishNonNegative(p, attempt, retryAfter, draw);
    GrantMeaning(p, attempt, retryable, elapsed, Wish(p, attempt, retryAfter, draw),
                 if retryAfter.Some? then RetryAfter else ExponentialBackoff);
  }

  lemma WishNonNegative(p: RetryPolicy, attempt: int, retryAfter: Option<real>, draw: Draw)
    requires p.Valid() && 0.0 <= p.maximumDelay
    ensures 0.0 <= Wish(p, attempt, retryAfter, draw)
  {
    JitteredInBand(p, attempt, draw);
  }

  lemma GrantMeaning(p: RetryPolicy, attempt: int, retryable: bool, elapsed: real, wish: real, reason: RetryReason)
    requires 0.0 <= wish && reason in {RetryAfter, ExponentialBackoff}
    ensures var d := Grant(p, attempt, retryable, elapsed, wish, reason);
            && 0.0 <= d.delay
            && (d.retry <==>
                  retryable && attempt < p.maximumAttempts && elapsed < p.maximumElapsed
                  && elapsed + wish <= p.maximumElapsed)
            && d.delay == (if d.retry then wish else 0.0)
            && (d.reason == PermanentFailure <==> !retryable)
            && (d.reason == AttemptBudgetExhausted <==> retryable && p.maximumAttempts <= attempt)
  {
  }

  // ----- Closed form -----

  lemma PowersOfTwo(n: nat)
    ensures Pow2(0) == 1.0 && Pow2(n + 1) == Pow2(n) + Pow2(n)
  {
  }

  /** Seconds to wait after failure number n: what the server asked for, else min(max, base * 2^(n - 1)) moved
      within its jitter band by the draw. */
  function Wait(p: RetryPolicy, n: nat, after: Option<real>, draw: Draw): real
    requires n >= 1
  {
    match after
    case Some(seconds) => if seconds > 0.0 then seconds else 0.0
    case None =>
      var exponential := p.baseDelay * Pow2(n - 1);
      var capped := if exponential < p.maximumDelay then exponential else p.maximumDelay;
      (1.0 - p.jitterRatio) * capped + 2.0 * p.jitterRatio * capped * draw
  }

  /** May a retry follow failure number n, no time having been counted against the elapsed budget? */
  predicate Affordable(p: RetryPolicy, n: nat, retryable: bool, after: Option<real>, draw: Draw)
    requires n >= 1
  {
    retryable && n < p.maximumAttempts && 0.0 < p.maximumElapsed && Wait(p, n, after, draw) <= p.maximumElapsed
  }

  lemma JitterIs(c: real, j: real, draw: Draw)
    ensures Jitter(c, j, draw) == (1.0 - j) * c + 2.0 * j * c * draw
  {
    var spread := c * j;
    assert (c + spread) - (c - spread) == 2.0 * spread;
    assert 2.0 * spread * draw == 2.0 * j * c * draw by {
      assert spread == j * c;
    }
    assert c - spread == (1.0 - j) * c;
  }

  lemma WishIsWait(p: RetryPolicy, n: nat, after: Option<real>, draw: Draw)
    requires n >= 1
    ensures Wish(p, n, after, draw) == Wait(p, n, after, draw)
  {
    if after.None? {
      DoublingIsPower(p.baseDelay, n - 1);
      hide Doubled, Pow2, Jitter;
      JitterIs(Unjittered(p, n), p.jitterRatio, draw);
    }
  }

  /** The dispatcher's and the recoverer's decisions, which see no elapsed time. */
  lemma DecideIsAffordable(p: RetryPolicy, n: nat, retryable: bool, after: Option<real>, draw: Draw)
    requires n >= 1
    ensures var d := Decide(p, n, retryable, after, 0.0, draw);
            && (d.retry <==> Affordable(p, n, retryable, after, draw))
            && (d.retry ==> d.delay == Wait(p, n, after, draw))
  {
    WishIsWait(p, n, after, draw);
    hide Wish, Wait;
  }

  /** Without a server's wish the wait stays in the jitter band of the capped exponential. */
  lemma WaitInBand(p: RetryPolicy, n: nat, draw: Draw)
    requires p.Valid() && 0.0 <= p.maximumDelay && n >= 1
    ensures var exponential := p.baseDelay * Pow2(n - 1);
            var capped := if exponential < p.maximumDelay then exponential else p.maximumDelay;
            (1.0 - p.jitterRatio) * capped <= Wait(p, n, None, draw) <= (1.0 + p.jitterRatio) * capped
  {
    DoublingIsPower(p.baseDelay, n - 1);
    WishIsWait(p, n, None, draw);
    JitteredInBand(p, n, draw);
    hide Jittered, Wait, Pow2, Doubled;
  }

  // ----- Sums of delays -----

  /** Total of the back-offs after failures 1, 2, ..., |draws|. */
  function TotalBackoff(p: RetryPolicy, draws: seq<Draw>): real {
    if draws == [] then 0.0
    else TotalBackoff(p, draws[..|draws| - 1]) + Jittered(p, |draws|, draws[|draws| - 1])
  }

  lemma CapStep(n: nat, max: real, c: real)
    requires 1 <= n && c <= max
    ensures (n - 1) as real * max + c <= n as real * max
  {
    assert n as real * max == (n - 1) as real * max + max;
  }

  /** min(n * max, base * (2^n - 1)): both caps on n consecutive back-offs. */
  function BackoffCap(p: RetryPolicy, n: nat): real {
    Min(n as real * p.maximumDelay, Doubled(p.baseDelay, n) - p.baseDelay)
  }

  lemma BackoffCapStep(p: RetryPolicy, n: nat)
    requires 1 <= n
    ensures BackoffCap(p, n - 1) + Unjittered(p, n) <= BackoffCap(p, n)
  {
    CapStep(n, p.maximumDelay, Unjittered(p, n));
  }

  /** The same with the jitter on top. */
  function BackoffBound(p: RetryPolicy, n: nat): real { Widened(p, BackoffCap(p, n)) }

  lemma BackoffBoundStep(p: RetryPolicy, n: nat)
    requires p.Valid() && 1 <= n
    ensures BackoffBound(p, n - 1) + Widened(p, Unjittered(p, n)) <= BackoffBound(p, n)
  {
    BackoffCapStep(p, n);
    hide BackoffCap, Unjittered;
    ScaleMonotone(1.0 + p.jitterRatio, BackoffCap(p, n - 1) + Unjittered(p, n), BackoffCap(p, n));
  }

  /** n consecutive back-offs sum to at most (1 + jitter) * min(n * max, base * (2^n - 1)). */
  lemma {:induction false} TotalBackoffBound(p: RetryPolicy, draws: seq<Draw>)
    requires p.Valid() && 0.0 < p.maximumDelay
    ensures 0.0 <= TotalBackoff(p, draws) <= BackoffBound(p, |draws|)
  {
    hide BackoffBound, Unjittered, Widened, Jittered;
    var n := |draws|;
    if n == 0 {
      NothingScheduled(p, draws);
    } else {
      TotalBackoffBound(p, draws[..n - 1]);
      JitteredInBand(p, n, draws[n - 1]);
      BackoffBoundStep(p, n);
    }
  }

  lemma NothingScheduled(p: RetryPolicy, draws: seq<Draw>)
    requires 0.0 < p.maximumDelay && draws == []
    ensures TotalBackoff(p, draws) == BackoffBound(p, 0) == 0.0
  {
    assert BackoffCap(p, 0) == 0.0;
  }

  /** One failure: how long the attempt ran, and what the classifier said about it. */
  datatype Failure = Failure(ran: real, retryable: bool, retryAfter: Option<real>, draw: Draw)

  /** Delays granted when the time since the first failure is passed to every decision. */
  function Granted(p: RetryPolicy, attempt: int, elapsed: real, failures: seq<Failure>): seq<real>
    decreases failures
  {
    if failures == [] then []
    else
      var f := failures[0];
      var now := elapsed + f.ran;
      var d := Decide(p, attempt, f.retryable, f.retryAfter, now, f.draw);
      if !d.retry then [] else [d.delay] + Granted(p, attempt + 1, now + d.delay, failures[1..])
  }

  function Sum(xs: seq<real>): real { if xs == [] then 0.0 else xs[0] + Sum(xs[1..]) }

  /** When elapsed time is threaded through, everything scheduled fits in the elapsed budget and the
      number of retries fits in the attempt budget. */
  lemma {:induction false} GrantedFitsBudgets(p: RetryPolicy, attempt: int, elapsed: real, failures: seq<Failure>)
    requires p.Valid() && 0.0 <= p.maximumDelay
    requires forall i :: 0 <= i < |failures| ==> 0.0 <= failures[i].ran
    ensures var g := Granted(p, attempt, elapsed, failures);
            && 0.0 <= Sum(g)
            && (g != [] ==> elapsed + Sum(g) <= p.maximumElapsed)
            && (g != [] ==> |g| <= p.maximumAttempts - attempt)
    decreases failures
  {
    if failures == [] {
    } else {
      var f := failures[0];
      var now := elapsed + f.ran;
      var d := Decide(p, attempt, f.retryable, f.retryAfter, now, f.draw);
      DecideMeaning(p, attempt, f.retryable, f.retryAfter, now, f.draw);
      if d.retry {
        var rest := Granted(p, attempt + 1, now + d.delay, failures[1..]);
        GrantedFitsBudgets(p, attempt + 1, now + d.delay, failures[1..]);
        var g := Granted(p, attempt, elapsed, failures);
        assert g == [d.delay] + rest && g[1..] == rest;
        assert rest == [] ==> Sum(rest) == 0.0;
      }
    }
  }

  /** Delays granted when every decision sees zero elapsed seconds, as for the worker's failure dispatcher
      (worker/failure_delivery.py:33). */
  function GrantedUnthreaded(p: RetryPolicy, attempt: int, failures: seq<Failure>): seq<real>
    decreases failures
  {
    if failures == [] then []
    else
      var f := failures[0];
      var d := Decide(p, attempt, f.retryable, f.retryAfter, 0.0, f.draw);
      if !d.retry then [] else [d.delay] + GrantedUnthreaded(p, attempt + 1, failures[1..])
  }

  lemma FewRetriesFit(p: RetryPolicy, attempt: int, failures: seq<Failure>)
    requires p.Valid() && p.maximumAttempts <= attempt + 1
    ensures Sum(GrantedUnthreaded(p, attempt, failures)) <= p.maximumElapsed
  {
    if failures == [] {
    } else {
      var f := failures[0];
      var wish := Wish(p, attempt, f.retryAfter, f.draw);
      hide Wish;
      var d := Decide(p, attempt, f.retryable, f.retryAfter, 0.0, f.draw);
      assert d.retry ==> d.delay == wish <= p.maximumElapsed;
      if failures[1..] != [] {
        var g := failures[1..][0];
        assert !Decide(p, attempt + 1, g.retryable, g.retryAfter, 0.0, g.draw).retry;
      }
      assert GrantedUnthreaded(p, attempt + 1, failures[1..]) == [];
    }
  }

  /** Two failures whose server wishes take the whole budget each. */
  function GreedyFailures(p: RetryPolicy): seq<Failure> {
    [Failure(0.0, true, Some(p.maximumElapsed), 0.0), Failure(0.0, true, Some(p.maximumElapsed), 0.0)]
  }

  lemma ManyRetriesOverrun(p: RetryPolicy, attempt: int)
    requires p.Valid() && attempt + 1 < p.maximumAttempts
    ensures Sum(GrantedUnthreaded(p, attempt, GreedyFailures(p))) == 2.0 * p.maximumElapsed
  {
    var fs := GreedyFailures(p);
    assert fs[1..] == [fs[1]] && fs[1..][1..] == [];
    assert GrantedUnthreaded(p, attempt + 2, []) == [];
    assert GrantedUnthreaded(p, attempt + 1, fs[1..]) == [p.maximumElapsed];
    var g := GrantedUnthreaded(p, attempt, fs);
    assert g == [p.maximumElapsed] + [p.maximumElapsed];
    var rest := g[1..];
    assert rest == [p.maximumElapsed] && rest[1..] == [];
    assert Sum(rest) == p.maximumElapsed;
  }

  /** Without the elapsed time the delays granted from an attempt on fit the elapsed budget, whatever fails,
      exactly when at most one retry is left. */
  lemma UnthreadedFitsIff(p: RetryPolicy, attempt: int)
    requires p.Valid()
    ensures (forall fs: seq<Failure> :: Sum(GrantedUnthreaded(p, attempt, fs)) <= p.maximumElapsed)
            <==> p.maximumAttempts <= attempt + 1
  {
    if p.maximumAttempts <= attempt + 1 {
      forall fs: seq<Failure> ensures Sum(GrantedUnthreaded(p, attempt, fs)) <= p.maximumElapsed {
        FewRetriesFit(p, attempt, fs);
      }
    } else {
      ManyRetriesOverrun(p, attempt);
    }
  }
}
