/** Where an approval comes from: nothing but an operator's approval makes a dead letter replayable. */
module ReplayConsent {
  import Options
  import opened QueueTypes
  import opened QueueScripts
  import opened DeliveryProtocol
  import opened DeliveryInvariant
  import opened DeadLetterReplay

  predicate Consented(st: Store, m: MessageId) { m in st.dlq && st.dlq[m].approval == Approved }

  /** The step is an operator's approval of dead letter m. */
  predicate Approves(s: System, x: Action, m: MessageId) {
    && x.Operate? && x.operate.RunApproval? && x.actor in s.approvers
    && s.approvers[x.actor].read.messageId == m && s.approvers[x.actor].approved
  }

  /** A dead letter becomes approved exactly when an operator approves it. */
  lemma ConsentedIff(c: Config, s: System, x: Action, m: MessageId)
    requires |s.store.ready| == 4 && Enabled(c, s, x) && !Consented(s.store, m)
    ensures Consented(Next(c, s, x).store, m) <==> Approves(s, x, m)
  {
    if x.Operate? {
      OperateStep(c, s, x);
      OperateConsents(s, x.actor, x.operate, m);
      hide Next, Enabled, NextOperate;
    } else {
      OthersAdd(c, s, x);
      hide Next, Enabled;
    }
  }

  lemma OperateConsents(s: System, a: ActorId, x: OperatorStep, m: MessageId)
    requires |s.store.ready| == 4 && OperateEnabled(s, a, x) && !Consented(s.store, m)
    ensures Consented(NextOperate(s, a, x).store, m) <==> Approves(s, Operate(a, x), m)
  {
    match x
    case RunReplay(n) =>
      ReplayDlq(s, a, n);
      var read := s.replayers[a];
      if Replay(s.store, read.messageId, n, read.(replayedAs := Options.Some(n))).1.Replayed? {
        ReplayNeedsConsent(s.store, read.messageId, n, read.(replayedAs := Options.Some(n)));
      }
      hide NextReplay, Replay;
    case RunApproval =>
    case ReadForReplay(_) =>
    case ReadForApproval(_, _) =>
  }

  lemma ReplayNeedsConsent(st: Store, m: MessageId, n: MessageId, updated: DeadLetter)
    requires |st.ready| == 4 && Replay(st, m, n, updated).1.Replayed?
    ensures Consented(st, m)
  {
  }

  ghost predicate EverApproves(c: Config, s: System, xs: seq<Action>, m: MessageId)
    requires |s.store.ready| == 4 && Run(c, s, xs)
    decreases xs
  {
    xs != [] && (Approves(s, xs[0], m) || EverApproves(c, Next(c, s, xs[0]), xs[1..], m))
  }

  ghost predicate EverConsented(c: Config, s: System, xs: seq<Action>, m: MessageId)
    requires |s.store.ready| == 4 && Run(c, s, xs)
    decreases xs
  {
    Consented(s.store, m) || (xs != [] && EverConsented(c, Next(c, s, xs[0]), xs[1..], m))
  }

  /** In every run from the empty queue a dead letter is approved at some point exactly when an operator has
      approved it, and it is never replayed without. */
  lemma NoReplayWithoutConsent(c: Config, xs: seq<Action>, m: MessageId)
    requires Run(c, INITIAL, xs)
    ensures EverConsented(c, INITIAL, xs, m) <==> EverApproves(c, INITIAL, xs, m)
    ensures !EverApproves(c, INITIAL, xs, m) ==> ReplayCount(c, INITIAL, xs, m) == 0
  {
    ConsentedInRuns(c, INITIAL, xs, m);
  }

  lemma {:induction false} ConsentedInRuns(c: Config, s: System, xs: seq<Action>, m: MessageId)
    requires |s.store.ready| == 4 && Run(c, s, xs) && !Consented(s.store, m)
    ensures EverConsented(c, s, xs, m) <==> EverApproves(c, s, xs, m)
    ensures !EverApproves(c, s, xs, m) ==> ReplayCount(c, s, xs, m) == 0
    decreases xs
  {
    hide Next, Enabled, Approves, Consented;
    if xs == [] {
    } else {
      ConsentedIff(c, s, xs[0], m);
      var t := Next(c, s, xs[0]);
      if !Consented(t.store, m) {
        ConsentedInRuns(c, t, xs[1..], m);
      }
      if Replays(s, xs[0], m) {
        ReplayNeedsConsent(s.store, m, xs[0].operate.newMessage,
          s.replayers[xs[0].actor].(replayedAs := Options.Some(xs[0].operate.newMessage)));
      }
    }
  }
}
