/** Declarative policy decisions: rules are sorted once, filtered per request, and joined with the effect the
    platform imposes. */
module Policies {
  import opened Sorting

  datatype Effect = Allow | Approval | Deny

  datatype Rule = Rule(
    id: string, version: string, priority: int, effect: Effect, actions: set<string>, pathPatterns: seq<string>,
    commandNames: seq<string>, requiredRoles: set<string>, requiredSkills: set<string>, requiredChecks: set<string>,
    reason: string)

  datatype Risk = Low | Medium | High | Critical

  datatype RiskInput = RiskInput(
    changedPaths: nat, changedBytes: nat, authentication: bool, authorization: bool, secret: bool, migration: bool,
    workflow: bool, infrastructure: bool, deployment: bool, network: bool, dependency: bool, destructive: bool,
    resources: bool, criticalFindings: nat)

  datatype Request = Request(action: string, role: string, paths: seq<string>, command: seq<string>, risk: RiskInput)

  /** fnmatch and the last component of a path. */
  datatype Matching = Matching(fnmatch: (string, string) -> bool, baseName: string -> string)

  /** The lists that the program sorts after removing duplicates are sets here. */
  datatype Decision = Decision(
    effect: Effect, risk: Risk, reasons: seq<string>, matched: seq<string>, versions: set<string>,
    skills: set<string>, checks: set<string>)

  function Rank(e: Effect): nat { match e case Allow => 0 case Approval => 1 case Deny => 2 }

  function Join(e: Effect, f: Effect): Effect { if Rank(e) >= Rank(f) then e else f }

  // ----- Risk and the mandatory effect -----

  function AssessRisk(v: RiskInput): Risk {
    if v.criticalFindings > 0 || v.destructive || v.secret then Critical
    else if v.migration || v.workflow || v.infrastructure || v.deployment || v.network || v.resources
            || v.authentication || v.authorization then High
    else if v.changedPaths > 20 || v.changedBytes > 500_000 || v.dependency then Medium
    else Low
  }

  predicate Protected(path: string) {
    ".github/workflows/" <= path || "alembic/" <= path || "migrations/" <= path || "infra/production/" <= path
  }

  function MandatoryEffect(m: Matching, r: Request): Effect {
    if r.risk.destructive || (r.command != [] && m.baseName(r.command[0]) in {"rm", "dd", "mkfs"}) then Deny
    else if (exists i :: 0 <= i < |r.paths| && Protected(r.paths[i]))
            || r.risk.migration || r.risk.workflow || r.risk.deployment || r.risk.secret || r.risk.network
            || r.risk.resources || r.risk.criticalFindings > 0 then Approval
    else Allow
  }

  predicate Implies(a: bool, b: bool) { a ==> b }

  /** b reports everything that a reports, and at least as much of it. */
  predicate Riskier(a: RiskInput, b: RiskInput) {
    && a.changedPaths <= b.changedPaths && a.changedBytes <= b.changedBytes && a.criticalFindings <= b.criticalFindings
    && Implies(a.authentication, b.authentication) && Implies(a.authorization, b.authorization)
       && Implies(a.secret, b.secret)
    && Implies(a.migration, b.migration) && Implies(a.workflow, b.workflow)
       && Implies(a.infrastructure, b.infrastructure)
    && Implies(a.deployment, b.deployment) && Implies(a.network, b.network) && Implies(a.dependency, b.dependency)
    && Implies(a.destructive, b.destructive) && Implies(a.resources, b.resources)
  }

  function RiskRank(r: Risk): nat { match r case Low => 0 case Medium => 1 case High => 2 case Critical => 3 }

  /** Reporting more never lowers the risk or the mandatory effect. */
  lemma MoreRiskNeverWeakens(m: Matching, r: Request, s: Request)
    requires Riskier(r.risk, s.risk) && r.command == s.command && r.paths <= s.paths
    ensures RiskRank(AssessRisk(r.risk)) <= RiskRank(AssessRisk(s.risk))
    ensures Rank(MandatoryEffect(m, r)) <= Rank(MandatoryEffect(m, s))
  {
    if i :| 0 <= i < |r.paths| && Protected(r.paths[i]) {
      assert s.paths[i] == r.paths[i];
    }
  }

  // ----- Matching -----

  predicate MatchesPaths(m: Matching, rule: Rule, r: Request) {
    exists i, j :: 0 <= i < |r.paths| && 0 <= j < |rule.pathPatterns| && m.fnmatch(r.paths[i], rule.pathPatterns[j])
  }

  predicate Matches(m: Matching, rule: Rule, r: Request) {
    && r.action in rule.actions
    && (rule.pathPatterns != [] ==> MatchesPaths(m, rule, r))
    && (rule.commandNames != [] ==> r.command != [] && m.baseName(r.command[0]) in rule.commandNames)
    && (rule.requiredRoles != {} ==> r.role in rule.requiredRoles)
  }

  function Matched(m: Matching, rules: seq<Rule>, r: Request): seq<Rule> {
    if rules == [] then []
    else Matched(m, rules[..|rules| - 1], r) + (if Matches(m, rules[|rules| - 1], r) then [rules[|rules| - 1]] else [])
  }

  lemma {:induction false} MatchedAre(m: Matching, rules: seq<Rule>, r: Request)
    ensures forall x :: x in Matched(m, rules, r) <==> x in rules && Matches(m, x, r)
  {
    if rules == [] {
    } else {
      MatchedAre(m, rules[..|rules| - 1], r);
      hide Matches;
    }
  }

  // ----- Decisions -----

  /** Higher priority first, then rule id. */
  predicate RuleLe(x: Rule, y: Rule) {
    x.priority > y.priority || (x.priority == y.priority && StringLe(x.id, y.id))
  }

  lemma RuleLeIsPreorder()
    ensures TotalPreorder(RuleLe)
  {
    forall x, y ensures RuleLe(x, y) || RuleLe(y, x) {
      StringLeTotal(x.id, y.id);
    }
    forall x, y, z | RuleLe(x, y) && RuleLe(y, z) ensures RuleLe(x, z) {
      if x.priority == y.priority == z.priority {
        StringLeTransitive(x.id, y.id, z.id);
      }
    }
  }

  function JoinAll(e: Effect, rules: seq<Rule>): Effect {
    if rules == [] then e else Join(JoinAll(e, rules[..|rules| - 1]), rules[|rules| - 1].effect)
  }

  function Reasons(rules: seq<Rule>): seq<string> {
    if rules == [] then [] else Reasons(rules[..|rules| - 1]) + [rules[|rules| - 1].reason]
  }

  function Ids(rules: seq<Rule>): seq<string> {
    if rules == [] then [] else Ids(rules[..|rules| - 1]) + [rules[|rules| - 1].id]
  }

  function Versions(rules: seq<Rule>): set<string> { set x | x in rules :: x.version }

  function Skills(rules: seq<Rule>): set<string> { set x, s | x in rules && s in x.requiredSkills :: s }

  function Checks(rules: seq<Rule>): set<string> { set x, c | x in rules && c in x.requiredChecks :: c }

  function EffectName(e: Effect): string {
    match e case Allow => "allow" case Approval => "approval_required" case Deny => "deny"
  }

  function DecisionOf(m: Matching, sorted: seq<Rule>, r: Request): Decision {
    var matched := Matched(m, sorted, r);
    var mandatory := MandatoryEffect(m, r);
    var reasons := if matched == [] then ["No matching declarative rule"] else Reasons(matched);
    Decision(JoinAll(mandatory, matched), AssessRisk(r.risk),
             if mandatory.Allow? then reasons else reasons + ["Mandatory platform effect: " + EffectName(mandatory)],
             Ids(matched), Versions(matched), Skills(matched), Checks(matched))
  }

  function Decide(m: Matching, rules: seq<Rule>, r: Request): Decision {
    DecisionOf(m, SortBy(rules, RuleLe), r)
  }

  lemma {:induction false} JoinAllMeaning(e: Effect, rules: seq<Rule>)
    ensures var j := JoinAll(e, rules);
            && (j.Deny? <==> e.Deny? || exists x :: x in rules && x.effect.Deny?)
            && (j.Allow? <==> e.Allow? && forall x :: x in rules ==> x.effect.Allow?)
  {
    if rules == [] {
    } else {
      var n := |rules| - 1;
      JoinAllMeaning(e, rules[..n]);
      assert rules[n] in rules;
      assert forall x :: x in rules <==> x in rules[..n] || x == rules[n];
    }
  }

  /** DENY exactly when the platform or a matching rule denies, ALLOW exactly when all of them allow, approval
      otherwise: neither priorities nor the order of rules has a say. */
  lemma EffectIsJoin(m: Matching, rules: seq<Rule>, r: Request)
    ensures var effect := Decide(m, rules, r).effect;
            && (effect.Deny? <==> MandatoryEffect(m, r).Deny? || exists x ::
                 x in rules && Matches(m, x, r) && x.effect.Deny?)
            && (effect.Allow? <==> MandatoryEffect(m, r).Allow? && forall x :: x in rules && Matches(m, x, r) ==>
               x.effect.Allow?)
  {
    var sorted := SortBy(rules, RuleLe);
    SortedSame(rules);
    MatchedAre(m, sorted, r);
    JoinAllMeaning(MandatoryEffect(m, r), Matched(m, sorted, r));
    hide Matches, MandatoryEffect, RuleLe;
  }

  lemma SortedSame(rules: seq<Rule>)
    ensures forall x :: x in SortBy(rules, RuleLe) <==> x in rules
  {
    RuleLeIsPreorder();
    SortByCorrect(rules, RuleLe);
    forall x ensures x in SortBy(rules, RuleLe) <==> x in rules {
      assert x in multiset(SortBy(rules, RuleLe)) <==> x in multiset(rules);
    }
  }

  /** Rules that match the same requests in the same way decide alike, whatever their priorities are. */
  lemma PrioritiesNeverDecide(m: Matching, rules: seq<Rule>, other: seq<Rule>, r: Request)
    requires |rules| == |other| && forall i :: 0 <= i < |rules| ==> other[i] == rules[i].(priority := other[i].priority)
    ensures Decide(m, rules, r).effect == Decide(m, other, r).effect
  {
    EffectIsJoin(m, rules, r);
    EffectIsJoin(m, other, r);
    hide Decide;
    assert forall i :: 0 <= i < |rules| ==> other[i].effect == rules[i].effect && (Matches(m, other[i], r) <==>
           Matches(m, rules[i], r));
    hide Matches, MandatoryEffect;
    if x :| x in rules && Matches(m, x, r) && x.effect.Deny? {
      var i :| 0 <= i < |rules| && rules[i] == x;
      assert other[i] in other;
    }
    if x :| x in other && Matches(m, x, r) && x.effect.Deny? {
      var i :| 0 <= i < |other| && other[i] == x;
      assert rules[i] in rules;
    }
    if x :| x in rules && Matches(m, x, r) && !x.effect.Allow? {
      var i :| 0 <= i < |rules| && rules[i] == x;
      assert other[i] in other;
    }
    if x :| x in other && Matches(m, x, r) && !x.effect.Allow? {
      var i :| 0 <= i < |other| && other[i] == x;
      assert rules[i] in rules;
    }
  }

  /** Adding rules never weakens a decision. */
  lemma MoreRulesNeverWeaken(m: Matching, rules: seq<Rule>, more: seq<Rule>, r: Request)
    requires forall x :: x in rules ==> x in more
    ensures Rank(Decide(m, rules, r).effect) <= Rank(Decide(m, more, r).effect)
  {
    EffectIsJoin(m, rules, r);
    EffectIsJoin(m, more, r);
    hide Decide, Matches, MandatoryEffect;
  }

  ghost predicate UniqueIds(rules: seq<Rule>) {
    forall x, y :: x in rules && y in rules && x.id == y.id ==> x == y
  }

  /** With unique rule ids the whole decision, reasons and all, is the same for every order of the rules. */
  lemma DecisionForgetsOrder(m: Matching, rules: seq<Rule>, other: seq<Rule>, r: Request)
    requires multiset(rules) == multiset(other) && UniqueIds(rules)
    ensures Decide(m, rules, r) == Decide(m, other, r)
  {
    RuleLeIsPreorder();
    forall x, y | x in rules && y in rules && RuleLe(x, y) && RuleLe(y, x) ensures x == y {
      StringLeTotal(x.id, y.id);
    }
    SortForgetsOrder(rules, other, RuleLe);
  }

  /** Matched rules are reported by priority, then id. */
  lemma {:induction false} MatchedInOrder(m: Matching, rules: seq<Rule>, r: Request)
    requires Ordered(rules, RuleLe)
    ensures Ordered(Matched(m, rules, r), RuleLe)
  {
    if rules == [] {
    } else {
      var n := |rules| - 1;
      MatchedInOrder(m, rules[..n], r);
      MatchedAre(m, rules[..n], r);
      hide Matches, RuleLe;
      var before := Matched(m, rules[..n], r);
      forall i | 0 <= i < |before| ensures RuleLe(before[i], rules[n]) {
        assert before[i] in rules[..n];
      }
    }
  }

  // ----- Without unique ids -----

  /** A rule reduced to what the sort looks at. */
  function KeyOf(x: Rule): Rule {
    Rule(x.id, "", x.priority, Allow, {}, [], [], {}, {}, {}, "")
  }

  predicate SameKey(x: Rule, y: Rule) { x.priority == y.priority && x.id == y.id }

  lemma KeysCompare(x: Rule, y: Rule)
    ensures RuleLe(KeyOf(x), KeyOf(y)) <==> RuleLe(x, y)
    ensures KeyOf(x) == KeyOf(y) <==> SameKey(x, y)
    ensures RuleLe(x, y) && RuleLe(y, x) <==> SameKey(x, y)
  {
    StringLeTotal(x.id, y.id);
  }

  lemma KeysOrdered(xs: seq<Rule>)
    requires Ordered(xs, RuleLe)
    ensures Ordered(MapSeq(KeyOf, xs), RuleLe)
  {
    var keys := MapSeq(KeyOf, xs);
    forall i, j | 0 <= i < j < |keys| ensures RuleLe(keys[i], keys[j]) {
      KeysCompare(xs[i], xs[j]);
    }
  }

  lemma KeysDistinguished(xs: seq<Rule>)
    ensures Distinguishes(MapSeq(KeyOf, xs), RuleLe)
  {
    var keys := MapSeq(KeyOf, xs);
    forall x, y | x in keys && y in keys && RuleLe(x, y) && RuleLe(y, x) ensures x == y {
      var i :| 0 <= i < |keys| && keys[i] == x;
      var j :| 0 <= j < |keys| && keys[j] == y;
      KeysCompare(xs[i], xs[j]);
    }
  }

  /** Two orders of the same rules, both sorted, carry the same key at every position. */
  lemma SortedKeysAgree(xs: seq<Rule>, ys: seq<Rule>)
    requires multiset(xs) == multiset(ys) && Ordered(xs, RuleLe) && Ordered(ys, RuleLe)
    ensures |xs| == |ys| && forall i :: 0 <= i < |xs| ==> SameKey(xs[i], ys[i])
  {
    assert |multiset(xs)| == |xs| && |multiset(ys)| == |ys|;
    RuleLeIsPreorder();
    KeysOrdered(xs);
    KeysOrdered(ys);
    KeysDistinguished(xs);
    MapSeqContents(KeyOf, xs, ys);
    OrderedUnique(MapSeq(KeyOf, xs), MapSeq(KeyOf, ys), RuleLe);
    forall i | 0 <= i < |xs| ensures SameKey(xs[i], ys[i]) {
      KeysCompare(xs[i], ys[i]);
    }
  }

  lemma {:induction false} MatchedContents(m: Matching, rules: seq<Rule>, r: Request, x: Rule)
    ensures multiset(Matched(m, rules, r))[x] == if Matches(m, x, r) then multiset(rules)[x] else 0
  {
    hide Matches;
    if rules == [] {
    } else {
      var n := |rules| - 1;
      MatchedContents(m, rules[..n], r, x);
      assert rules == rules[..n] + [rules[n]];
    }
  }

  /** The matched rules of two orders, after sorting: same bag, same key at every position. */
  lemma MatchedKeysAgree(m: Matching, rules: seq<Rule>, other: seq<Rule>, r: Request)
    requires multiset(rules) == multiset(other)
    ensures var a, b := Matched(m, SortBy(rules, RuleLe), r), Matched(m, SortBy(other, RuleLe), r);
            multiset(a) == multiset(b) && |a| == |b| && forall i :: 0 <= i < |a| ==> SameKey(a[i], b[i])
  {
    var p, q := SortBy(rules, RuleLe), SortBy(other, RuleLe);
    RuleLeIsPreorder();
    SortByCorrect(rules, RuleLe);
    SortByCorrect(other, RuleLe);
    MatchedInOrder(m, p, r);
    MatchedInOrder(m, q, r);
    forall x ensures multiset(Matched(m, p, r))[x] == multiset(Matched(m, q, r))[x] {
      MatchedContents(m, p, r, x);
      MatchedContents(m, q, r, x);
    }
    assert multiset(Matched(m, p, r)) == multiset(Matched(m, q, r));
    SortedKeysAgree(Matched(m, p, r), Matched(m, q, r));
  }

  lemma {:induction false} IdsAt(rules: seq<Rule>)
    ensures |Ids(rules)| == |Reasons(rules)| == |rules|
    ensures forall i :: 0 <= i < |rules| ==> Ids(rules)[i] == rules[i].id && Reasons(rules)[i] == rules[i].reason
  {
    if rules == [] {
    } else {
      IdsAt(rules[..|rules| - 1]);
    }
  }

  /** Only the reasons can depend on the order of the rules: the effect, the matched ids in their order and
      everything collected never do. */
  lemma OnlyReasonsDependOnOrder(m: Matching, rules: seq<Rule>, other: seq<Rule>, r: Request)
    requires multiset(rules) == multiset(other)
    ensures var d, e := Decide(m, rules, r), Decide(m, other, r); d == e.(reasons := d.reasons)
  {
    MatchedKeysAgree(m, rules, other, r);
    var a, b := Matched(m, SortBy(rules, RuleLe), r), Matched(m, SortBy(other, RuleLe), r);
    SameCollections(a, b);
    IdsAt(a);
    IdsAt(b);
    assert Ids(a) == Ids(b);
    SameBagSameJoin(MandatoryEffect(m, r), a, b);
    hide Matches, MandatoryEffect, RuleLe, AssessRisk, Matched;
  }

  lemma SameCollections(a: seq<Rule>, b: seq<Rule>)
    requires multiset(a) == multiset(b)
    ensures forall x :: x in a <==> x in b
    ensures Versions(a) == Versions(b) && Skills(a) == Skills(b) && Checks(a) == Checks(b)
  {
    forall x ensures x in a <==> x in b {
      assert x in multiset(a) <==> x in multiset(b);
    }
  }

  lemma SameBagSameJoin(e: Effect, a: seq<Rule>, b: seq<Rule>)
    requires multiset(a) == multiset(b)
    ensures JoinAll(e, a) == JoinAll(e, b)
  {
    SameCollections(a, b);
    JoinAllMeaning(e, a);
    JoinAllMeaning(e, b);
  }

  /** Matching rules that the sort cannot tell apart give the same reason. */
  ghost predicate ReasonsSettled(m: Matching, rules: seq<Rule>, r: Request) {
    forall x, y :: x in rules && y in rules && Matches(m, x, r) && Matches(m, y, r) && SameKey(x, y) ==>
        x.reason == y.reason
  }

  lemma SettledDecides(m: Matching, rules: seq<Rule>, other: seq<Rule>, r: Request)
    requires multiset(rules) == multiset(other) && ReasonsSettled(m, rules, r)
    ensures Decide(m, rules, r) == Decide(m, other, r)
  {
    OnlyReasonsDependOnOrder(m, rules, other, r);
    MatchedKeysAgree(m, rules, other, r);
    var a, b := Matched(m, SortBy(rules, RuleLe), r), Matched(m, SortBy(other, RuleLe), r);
    SameCollections(a, b);
    SortedSame(rules);
    MatchedAre(m, SortBy(rules, RuleLe), r);
    IdsAt(a);
    IdsAt(b);
    hide Matches, MandatoryEffect, RuleLe, AssessRisk, Matched, Ids, Reasons, JoinAll;
    forall i | 0 <= i < |a| ensures a[i].reason == b[i].reason {
      assert a[i] in a && b[i] in b;
    }
    assert Reasons(a) == Reasons(b);
  }

  lemma {:induction false} MatchedAppend(m: Matching, xs: seq<Rule>, ys: seq<Rule>, r: Request)
    ensures Matched(m, xs + ys, r) == Matched(m, xs, r) + Matched(m, ys, r)
    decreases |ys|
  {
    hide Matches;
    if ys == [] {
      assert xs + ys == xs;
    } else {
      var n := |ys| - 1;
      MatchedAppend(m, xs, ys[..n], r);
      assert (xs + ys)[..|xs| + n] == xs + ys[..n];
    }
  }

  /** Two matching rules with one key and different reasons, given in either order, are reported in it. */
  lemma SwapShows(m: Matching, x: Rule, y: Rule, rest: seq<Rule>, r: Request)
    requires SameKey(x, y) && Matches(m, x, r) && Matches(m, y, r) && x.reason != y.reason
    ensures Decide(m, [x, y] + rest, r).reasons != Decide(m, [y, x] + rest, r).reasons
  {
    hide Matches, RuleLe, MandatoryEffect, AssessRisk, Matched, Ids, Reasons, JoinAll;
    KeysCompare(x, y);
    RuleLeIsPreorder();
    var sorted := SortBy(rest, RuleLe);
    var k := InsertSplit(x, y, sorted, RuleLe);
    TwoFirst(x, y, rest);
    TwoFirst(y, x, rest);
    var before := Matched(m, sorted[..k], r);
    MatchedAround(m, sorted[..k], x, y, sorted[k..], r);
    MatchedAround(m, sorted[..k], y, x, sorted[k..], r);
    ReasonOf(m, [x, y] + rest, r, |before|);
    ReasonOf(m, [y, x] + rest, r, |before|);
  }

  lemma TwoFirst(x: Rule, y: Rule, rest: seq<Rule>)
    ensures SortBy([x, y] + rest, RuleLe) == Insert(x, Insert(y, SortBy(rest, RuleLe), RuleLe), RuleLe)
  {
    assert ([x, y] + rest)[1..] == [y] + rest && ([y] + rest)[1..] == rest;
  }

  lemma MatchedAround(m: Matching, xs: seq<Rule>, x: Rule, y: Rule, ys: seq<Rule>, r: Request)
    requires Matches(m, x, r) && Matches(m, y, r)
    ensures Matched(m, xs + [x, y] + ys, r) == Matched(m, xs, r) + [x, y] + Matched(m, ys, r)
  {
    hide Matches;
    MatchedAppend(m, xs + [x, y], ys, r);
    MatchedAppend(m, xs, [x, y], r);
    assert [x, y][..1] == [x] && [x][..0] == [];
    assert Matched(m, [x], r) == [x];
    assert Matched(m, [x, y], r) == [x, y];
  }

  lemma ReasonOf(m: Matching, rules: seq<Rule>, r: Request, k: nat)
    requires k < |Matched(m, SortBy(rules, RuleLe), r)|
    ensures var d := Decide(m, rules, r);
            k < |d.reasons| && d.reasons[k] == Matched(m, SortBy(rules, RuleLe), r)[k].reason
  {
    IdsAt(Matched(m, SortBy(rules, RuleLe), r));
    hide Matched, Matches, RuleLe, MandatoryEffect, AssessRisk, Ids, Reasons, JoinAll;
  }

  lemma UnsettledShows(m: Matching, rules: seq<Rule>, r: Request) returns (p: seq<Rule>, q: seq<Rule>)
    requires !ReasonsSettled(m, rules, r)
    ensures multiset(p) == multiset(q) == multiset(rules) && Decide(m, p, r) != Decide(m, q, r)
  {
    var x, y :| x in rules && y in rules && Matches(m, x, r) && Matches(m, y, r) && SameKey(x, y)
        && x.reason != y.reason;
    var i := Find(rules, x);
    var j := Find(rules, y);
    var rest := ToFront(rules, i, j);
    p, q := [x, y] + rest, [y, x] + rest;
    hide Decide, Matches;
    SwapShows(m, x, y, rest, r);
  }

  /** Every order of the rules gives the same decision exactly when matching rules with one priority and one
      id give one reason. */
  lemma SameForEveryOrderIff(m: Matching, rules: seq<Rule>, r: Request)
    ensures (forall p, q :: multiset(p) == multiset(q) == multiset(rules) ==> Decide(m, p, r) == Decide(m, q, r))
            <==> ReasonsSettled(m, rules, r)
  {
    hide Decide, ReasonsSettled;
    if ReasonsSettled(m, rules, r) {
      forall p, q | multiset(p) == multiset(q) == multiset(rules) ensures Decide(m, p, r) == Decide(m, q, r) {
        SettledDecides(m, rules, p, r);
        SettledDecides(m, rules, q, r);
      }
    } else {
      var p, q := UnsettledShows(m, rules, r);
    }
  }

  // ----- A decision, in terms of the request and the rules -----

  /** What the platform always denies. */
  predicate Destructive(m: Matching, r: Request) {
    r.risk.destructive || (r.command != [] && m.baseName(r.command[0]) in {"rm", "dd", "mkfs"})
  }

  /** What the platform never allows without an approval. */
  predicate Sensitive(r: Request) {
    || (exists i :: 0 <= i < |r.paths| && (".github/workflows/" <= r.paths[i] || "alembic/" <= r.paths[i]
                                           || "migrations/" <= r.paths[i] || "infra/production/" <= r.paths[i]))
    || r.risk.migration || r.risk.workflow || r.risk.deployment || r.risk.secret || r.risk.network
    || r.risk.resources || r.risk.criticalFindings > 0
  }

  /** The rule speaks about the request. */
  predicate Applies(m: Matching, rule: Rule, r: Request) {
    && r.action in rule.actions
    && (rule.pathPatterns == []
        || exists i, j :: 0 <= i < |r.paths| && 0 <= j < |rule.pathPatterns|
                          && m.fnmatch(r.paths[i], rule.pathPatterns[j]))
    && (rule.commandNames == [] || (r.command != [] && m.baseName(r.command[0]) in rule.commandNames))
    && (rule.requiredRoles == {} || r.role in rule.requiredRoles)
  }

  ghost predicate Ranks(x: Rule, y: Rule) {
    x.priority > y.priority || (x.priority == y.priority && exists k: nat :: Precedes(x.id, y.id, k))
  }

  /** matched holds exactly the rules that speak about the request, as often as they are given, by falling
      priority and then by id. */
  ghost predicate MatchedRules(m: Matching, rules: seq<Rule>, r: Request, matched: seq<Rule>) {
    && (forall x :: multiset(matched)[x] == if Applies(m, x, r) then multiset(rules)[x] else 0)
    && forall i, j :: 0 <= i < j < |matched| ==> Ranks(matched[i], matched[j])
  }

  predicate EffectFollows(m: Matching, r: Request, matched: seq<Rule>, effect: Effect) {
    && (effect == Deny <==> Destructive(m, r) || exists i :: 0 <= i < |matched| && matched[i].effect == Deny)
    && (effect == Allow <==>
          !Destructive(m, r) && !Sensitive(r) && forall i :: 0 <= i < |matched| ==> matched[i].effect == Allow)
  }

  predicate RiskFollows(v: RiskInput, risk: Risk) {
    var critical := v.criticalFindings > 0 || v.destructive || v.secret;
    var high := v.migration || v.workflow || v.infrastructure || v.deployment || v.network || v.resources
                || v.authentication || v.authorization;
    var medium := v.changedPaths > 20 || v.changedBytes > 500_000 || v.dependency;
    && (risk == Critical <==> critical)
    && (risk == High <==> !critical && high)
    && (risk == Medium <==> !critical && !high && medium)
    && (risk == Low <==> !critical && !high && !medium)
  }

  /** The matched rules' reasons in order, or a note that there are none; and then the platform's own, if it
      imposes an effect. */
  predicate ReasonsFollow(m: Matching, r: Request, matched: seq<Rule>, reasons: seq<string>) {
    var n := if |matched| == 0 then 1 else |matched|;
    var own := Destructive(m, r) || Sensitive(r);
    && |reasons| == n + (if own then 1 else 0)
    && (matched == [] ==> reasons[0] == "No matching declarative rule")
    && (forall i :: 0 <= i < |matched| ==> reasons[i] == matched[i].reason)
    && (own ==> reasons[n] == if Destructive(m, r) then "Mandatory platform effect: deny"
                              else "Mandatory platform effect: approval_required")
  }

  ghost predicate CollectionsFollow(matched: seq<Rule>, d: Decision) {
    && |d.matched| == |matched| && (forall i :: 0 <= i < |matched| ==> d.matched[i] == matched[i].id)
    && (forall v :: v in d.versions <==> exists i :: 0 <= i < |matched| && v == matched[i].version)
    && (forall s :: s in d.skills <==> exists i :: 0 <= i < |matched| && s in matched[i].requiredSkills)
    && (forall c :: c in d.checks <==> exists i :: 0 <= i < |matched| && c in matched[i].requiredChecks)
  }

  lemma MandatoryMeans(m: Matching, r: Request)
    ensures MandatoryEffect(m, r) == Deny <==> Destructive(m, r)
    ensures MandatoryEffect(m, r) == Allow <==> !Destructive(m, r) && !Sensitive(r)
  {
    assert forall i :: 0 <= i < |r.paths| ==>
        (Protected(r.paths[i]) <==> ".github/workflows/" <= r.paths[i] || "alembic/" <= r.paths[i]
                                    || "migrations/" <= r.paths[i] || "infra/production/" <= r.paths[i]);
  }

  lemma RiskMeans(v: RiskInput)
    ensures RiskFollows(v, AssessRisk(v))
  {
  }

  lemma MatchesMeans(m: Matching, rule: Rule, r: Request)
    ensures Matches(m, rule, r) <==> Applies(m, rule, r)
  {
  }

  lemma RanksMeans(x: Rule, y: Rule)
    ensures RuleLe(x, y) <==> Ranks(x, y)
  {
    StringLeMeans(x.id, y.id);
    hide Precedes;
  }

  lemma MatchedMeans(m: Matching, rules: seq<Rule>, r: Request)
    requires Ordered(rules, RuleLe)
    ensures MatchedRules(m, rules, r, Matched(m, rules, r))
  {
    var matched := Matched(m, rules, r);
    MatchedInOrder(m, rules, r);
    hide Matched, Matches, Applies, RuleLe, Ranks;
    forall x ensures multiset(matched)[x] == if Applies(m, x, r) then multiset(rules)[x] else 0 {
      MatchedContents(m, rules, r, x);
      MatchesMeans(m, x, r);
    }
    forall i, j | 0 <= i < j < |matched| ensures Ranks(matched[i], matched[j]) {
      RanksMeans(matched[i], matched[j]);
    }
  }

  lemma EffectMeans(m: Matching, r: Request, matched: seq<Rule>)
    ensures EffectFollows(m, r, matched, JoinAll(MandatoryEffect(m, r), matched))
  {
    MandatoryMeans(m, r);
    JoinAllMeaning(MandatoryEffect(m, r), matched);
    hide MandatoryEffect, Destructive, Sensitive, JoinAll;
    assert forall i :: 0 <= i < |matched| ==> matched[i] in matched;
  }

  lemma EffectNames()
    ensures "Mandatory platform effect: " + EffectName(Deny) == "Mandatory platform effect: deny"
    ensures "Mandatory platform effect: " + EffectName(Approval) == "Mandatory platform effect: approval_required"
  {
  }

  lemma ReasonsMean(m: Matching, r: Request, matched: seq<Rule>)
    ensures var reasons := if matched == [] then ["No matching declarative rule"] else Reasons(matched);
            var own := "Mandatory platform effect: " + EffectName(MandatoryEffect(m, r));
            ReasonsFollow(m, r, matched, if MandatoryEffect(m, r).Allow? then reasons else reasons + [own])
  {
    hide MandatoryEffect, Destructive, Sensitive, Reasons, Ids;
    MandatoryMeans(m, r);
    IdsAt(matched);
    if matched == [] {
      assert (["No matching declarative rule"] + ["x"])[1] == "x";
    } else {
      assert Reasons(matched) != [];
    }
    EffectNames();
    hide EffectName;
  }

  lemma CollectionsMean(matched: seq<Rule>, d: Decision)
    requires d.matched == Ids(matched) && d.versions == Versions(matched) && d.skills == Skills(matched)
             && d.checks == Checks(matched)
    ensures CollectionsFollow(matched, d)
  {
    IdsAt(matched);
    hide Ids, Reasons;
    forall v ensures v in d.versions <==> exists i :: 0 <= i < |matched| && v == matched[i].version {
      if x :| x in matched && x.version == v {
        var i :| 0 <= i < |matched| && matched[i] == x;
      }
      if i :| 0 <= i < |matched| && v == matched[i].version {
        assert matched[i] in matched;
      }
    }
    forall s ensures s in d.skills <==> exists i :: 0 <= i < |matched| && s in matched[i].requiredSkills {
      if x :| x in matched && s in x.requiredSkills {
        var i :| 0 <= i < |matched| && matched[i] == x;
      }
      if i :| 0 <= i < |matched| && s in matched[i].requiredSkills {
        assert matched[i] in matched;
      }
    }
    forall c ensures c in d.checks <==> exists i :: 0 <= i < |matched| && c in matched[i].requiredChecks {
      if x :| x in matched && c in x.requiredChecks {
        var i :| 0 <= i < |matched| && matched[i] == x;
      }
      if i :| 0 <= i < |matched| && c in matched[i].requiredChecks {
        assert matched[i] in matched;
      }
    }
  }

  // ----- The engine -----

  class PolicyEngine {
    const rules: seq<Rule>

    ghost predicate Valid() { Ordered(rules, RuleLe) }

    constructor (rules: seq<Rule>)
      ensures this.rules == SortBy(rules, RuleLe) && Valid() && multiset(this.rules) == multiset(rules)
    {
      this.rules := SortBy(rules, RuleLe);
      RuleLeIsPreorder();
      SortByCorrect(rules, RuleLe);
    }

    method Filter(m: Matching, r: Request) returns (matched: seq<Rule>)
      ensures matched == Matched(m, rules, r)
    {
      matched := [];
      var k := 0;
      while k < |rules|
        invariant 0 <= k <= |rules| && matched == Matched(m, rules[..k], r)
      {
        assert rules[..k + 1][..k] == rules[..k];
        if Matches(m, rules[k], r) {
          matched := matched + [rules[k]];
        }
        k := k + 1;
      }
      assert rules[..k] == rules;
    }

    /** The loop stops at the first denial and looks no further. */
    method Strongest(mandatory: Effect, matched: seq<Rule>) returns (strongest: Effect)
      ensures strongest == JoinAll(mandatory, matched)
    {
      strongest := mandatory;
      var k := 0;
      while k < |matched|
        invariant 0 <= k <= |matched| && strongest == JoinAll(mandatory, matched[..k])
      {
        assert matched[..k + 1][..k] == matched[..k];
        if matched[k].effect.Deny? {
          strongest := Deny;
          assert matched[k] in matched;
          JoinAllMeaning(mandatory, matched);
          return;
        }
        if matched[k].effect.Approval? && strongest.Allow? {
          strongest := Approval;
        }
        k := k + 1;
      }
      assert matched[..k] == matched;
    }

    /** The platform's effect and the matching rules decide together; what they say is collected. */
    method DecideRequest(m: Matching, r: Request) returns (d: Decision, ghost applied: seq<Rule>)
      requires Valid()
      ensures d == DecisionOf(m, rules, r)
      ensures MatchedRules(m, rules, r, applied) && EffectFollows(m, r, applied, d.effect)
      ensures RiskFollows(r.risk, d.risk)
      ensures ReasonsFollow(m, r, applied, d.reasons) && CollectionsFollow(applied, d)
    {
      var matched := Filter(m, r);
      var mandatory := MandatoryEffect(m, r);
      var strongest := Strongest(mandatory, matched);
      var reasons := if matched == [] then ["No matching declarative rule"] else Reasons(matched);
      if !mandatory.Allow? {
        reasons := reasons + ["Mandatory platform effect: " + EffectName(mandatory)];
      }
      d := Decision(strongest, AssessRisk(r.risk), reasons, Ids(matched),
                    Versions(matched), Skills(matched), Checks(matched));
      applied := matched;
      MatchedMeans(m, rules, r);
      EffectMeans(m, r, matched);
      RiskMeans(r.risk);
      ReasonsMean(m, r, matched);
      CollectionsMean(matched, d);
      hide MatchedRules, EffectFollows, RiskFollows, ReasonsFollow, CollectionsFollow;
    }
  }
}
