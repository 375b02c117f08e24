/** How often a message, or a task, occurs in the ready lists. */
module ReadyCounts {
  import opened QueueTypes
  import opened QueueScripts

  datatype Key = OfMessage(message: MessageId) | OfTask(task: TaskId)

  predicate Has(k: Key, e: Envelope) {
    match k
    case OfMessage(m) => e.messageId == m
    case OfTask(t) => e.taskId == t
  }

  function One(b: bool): nat { if b then 1 else 0 }

  function Count(q: seq<Envelope>, k: Key): nat {
    if q == [] then 0 else One(Has(k, q[0])) + Count(q[1..], k)
  }

  function InReady(s: Store, k: Key): nat
    requires |s.ready| == 4
  {
    Count(s.ready[0], k) + Count(s.ready[1], k) + Count(s.ready[2], k) + Count(s.ready[3], k)
  }

  lemma {:induction false} CountAppend(q: seq<Envelope>, e: Envelope, k: Key)
    ensures Count(q + [e], k) == Count(q, k) + One(Has(k, e))
  {
    if q == [] {
      assert q + [e] == [e];
    } else {
      assert (q + [e])[1..] == q[1..] + [e];
      CountAppend(q[1..], e, k);
    }
  }

  lemma {:induction false} CountPositive(q: seq<Envelope>, k: Key) returns (i: nat)
    requires Count(q, k) > 0
    ensures i < |q| && Has(k, q[i])
  {
    if Has(k, q[0]) {
      i := 0;
    } else {
      i := CountPositive(q[1..], k);
      i := i + 1;
    }
  }

  lemma {:induction false} CountMember(q: seq<Envelope>, k: Key, i: nat)
    requires i < |q| && Has(k, q[i])
    ensures Count(q, k) > 0
  {
    if i > 0 {
      CountMember(q[1..], k, i - 1);
    }
  }

  lemma {:induction false} CountTwo(q: seq<Envelope>, k: Key, i: nat, j: nat)
    requires i < j < |q| && Has(k, q[i]) && Has(k, q[j])
    ensures Count(q, k) > 1
  {
    if i > 0 {
      CountTwo(q[1..], k, i - 1, j - 1);
    } else {
      CountMember(q[1..], k, j - 1);
    }
  }

  lemma PushCount(s: Store, e: Envelope, k: Key)
    requires |s.ready| == 4
    ensures InReady(PushReady(s, e), k) == InReady(s, k) + One(Has(k, e))
  {
    CountAppend(s.ready[e.priority], e, k);
  }

  lemma PopCount(s: Store, p: Priority, k: Key)
    requires |s.ready| == 4 && s.ready[p] != []
    ensures InReady(PopHead(s, p), k) == InReady(s, k) - One(Has(k, s.ready[p][0]))
  {
  }

  lemma InReadyWitness(s: Store, k: Key) returns (p: Priority, i: nat)
    requires |s.ready| == 4 && InReady(s, k) > 0
    ensures i < |s.ready[p]| && Has(k, s.ready[p][i])
  {
    if Count(s.ready[0], k) > 0 {
      p := 0;
    } else if Count(s.ready[1], k) > 0 {
      p := 1;
    } else if Count(s.ready[2], k) > 0 {
      p := 2;
    } else {
      p := 3;
    }
    i := CountPositive(s.ready[p], k);
  }

  lemma InReadyMember(s: Store, k: Key, p: Priority, i: nat)
    requires |s.ready| == 4 && i < |s.ready[p]| && Has(k, s.ready[p][i])
    ensures InReady(s, k) > 0
  {
    CountMember(s.ready[p], k, i);
  }
}
