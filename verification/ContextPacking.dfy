/** Choosing context items within a token budget: candidates, their order, and the greedy selection. */
module ContextPacking {
  import opened Chunking
  import opened Sorting

  type Digest = int

  const LINES_PER_CHUNK: nat := 80

  datatype ContextItem = ContextItem(
    path: string, startLine: nat, endLine: nat, hash: Digest, content: string, score: nat, tokens: nat)

  /** A readable, non-excluded file; test and rules tell whether its name mentions "test", or is AGENTS.md. */
  datatype SourceFile = SourceFile(path: string, lines: seq<string>, test: bool, rules: bool)

  datatype ContextRequest = ContextRequest(changed: set<string>, maxTokens: int, reservedTokens: int)

  /** How many task terms a chunk contains, and SHA-256. */
  datatype Analysis = Analysis(matches: string -> nat, digest: string -> Digest)

  // ----- Candidates -----

  function Score(a: Analysis, r: ContextRequest, f: SourceFile, text: string): nat {
    a.matches(text) + (if f.path in r.changed then 3 else 0) + (if f.test then 1 else 0) + (if f.rules then 4 else 0)
  }

  function ItemOf(a: Analysis, r: ContextRequest, f: SourceFile, c: Chunk): ContextItem {
    ContextItem(f.path, c.start, EndLine(c), a.digest(c.text), c.text, Score(a, r, f, c.text),
                if |c.text| / 4 > 1 then |c.text| / 4 else 1)
  }

  function FileItems(a: Analysis, r: ContextRequest, f: SourceFile, cs: seq<Chunk>): seq<ContextItem>
    decreases cs
  {
    if cs == [] then []
    else
      var rest := FileItems(a, r, f, cs[..|cs| - 1]);
      var c := cs[|cs| - 1];
      if Score(a, r, f, c.text) == 0 then rest else rest + [ItemOf(a, r, f, c)]
  }

  function FileCandidates(a: Analysis, r: ContextRequest, f: SourceFile): seq<ContextItem> {
    FileItems(a, r, f, ChunksFrom(f.lines, LINES_PER_CHUNK, 0))
  }

  function Candidates(a: Analysis, r: ContextRequest, files: seq<SourceFile>): seq<ContextItem> {
    if files == [] then []
    else Candidates(a, r, files[..|files| - 1]) + FileCandidates(a, r, files[|files| - 1])
  }

  /** Higher score first, then path, then first line. */
  predicate KeyLe(x: ContextItem, y: ContextItem) {
    x.score > y.score || (x.score == y.score && (if x.path == y.path then x.startLine <= y.startLine
        else StringLe(x.path, y.path)))
  }

  lemma KeyLeIsPreorder()
    ensures TotalPreorder(KeyLe)
  {
    forall x, y ensures KeyLe(x, y) || KeyLe(y, x) {
      StringLeTotal(x.path, y.path);
    }
    forall x, y, z | KeyLe(x, y) && KeyLe(y, z) ensures KeyLe(x, z) {
      if x.score == y.score == z.score && x.path != y.path && y.path != z.path {
        StringLeTransitive(x.path, y.path, z.path);
        StringLeTotal(x.path, y.path);
      }
    }
  }

  function Ranked(a: Analysis, r: ContextRequest, files: seq<SourceFile>): seq<ContextItem> {
    SortBy(Candidates(a, r, files), KeyLe)
  }

  function Budget(r: ContextRequest): nat {
    if r.maxTokens - r.reservedTokens > 0 then r.maxTokens - r.reservedTokens else 0
  }

  // ----- Greedy selection -----

  /** Tokens of the picks among the first k items. */
  function Used(items: seq<ContextItem>, picks: set<nat>, k: nat): nat
    requires k <= |items|
  {
    if k == 0 then 0 else Used(items, picks, k - 1) + (if k - 1 in picks then items[k - 1].tokens else 0)
  }

  function Chosen(items: seq<ContextItem>, picks: set<nat>, k: nat): seq<ContextItem>
    requires k <= |items|
  {
    if k == 0 then [] else Chosen(items, picks, k - 1) + (if k - 1 in picks then [items[k - 1]] else [])
  }

  predicate Seen(items: seq<ContextItem>, picks: set<nat>, k: nat, hash: Digest)
    requires k <= |items|
  {
    exists j: nat :: j < k && j in picks && items[j].hash == hash
  }

  /** Item k is new and fits beside the picks that rank before it. */
  predicate Admits(items: seq<ContextItem>, picks: set<nat>, budget: nat, k: nat)
    requires k < |items|
  {
    !Seen(items, picks, k, items[k].hash) && Used(items, picks, k) + items[k].tokens <= budget
  }

  /** Among the first n items exactly those are picked that are admitted by the picks before them. */
  ghost predicate GreedyBelow(items: seq<ContextItem>, picks: set<nat>, budget: nat, n: nat)
    requires n <= |items|
  {
    && (forall j :: j in picks ==> j < n)
    && forall k: nat :: k < n ==> (k in picks <==> Admits(items, picks, budget, k))
  }

  ghost predicate IsGreedy(items: seq<ContextItem>, picks: set<nat>, budget: nat) {
    GreedyBelow(items, picks, budget, |items|)
  }

  lemma {:induction false} UsedAgrees(items: seq<ContextItem>, p: set<nat>, q: set<nat>, k: nat)
    requires k <= |items| && forall j: nat :: j < k ==> (j in p <==> j in q)
    ensures Used(items, p, k) == Used(items, q, k) && Chosen(items, p, k) == Chosen(items, q, k)
    ensures forall h :: Seen(items, p, k, h) <==> Seen(items, q, k, h)
  {
    if k > 0 {
      UsedAgrees(items, p, q, k - 1);
    }
  }

  lemma {:induction false} GreedyAgree(items: seq<ContextItem>, p: set<nat>, q: set<nat>, budget: nat, k: nat)
    requires IsGreedy(items, p, budget) && IsGreedy(items, q, budget) && k <= |items|
    ensures forall j: nat :: j < k ==> (j in p <==> j in q)
  {
    hide IsGreedy, Admits;
    if k > 0 {
      GreedyAgree(items, p, q, budget, k - 1);
      AdmitsAgree(items, p, q, budget, k - 1);
      PickedIff(items, p, budget, k - 1);
      PickedIff(items, q, budget, k - 1);
    }
  }

  lemma AdmitsAgree(items: seq<ContextItem>, p: set<nat>, q: set<nat>, budget: nat, k: nat)
    requires k < |items| && forall j: nat :: j < k ==> (j in p <==> j in q)
    ensures Admits(items, p, budget, k) <==> Admits(items, q, budget, k)
  {
    UsedAgrees(items, p, q, k);
  }

  lemma PickedIff(items: seq<ContextItem>, picks: set<nat>, budget: nat, k: nat)
    requires IsGreedy(items, picks, budget) && k < |items|
    ensures k in picks <==> Admits(items, picks, budget, k)
  {
    hide Admits;
  }

  /** There is one greedy selection. */
  lemma GreedyIsUnique(items: seq<ContextItem>, p: set<nat>, q: set<nat>, budget: nat)
    requires IsGreedy(items, p, budget) && IsGreedy(items, q, budget)
    ensures p == q
  {
    GreedyAgree(items, p, q, budget, |items|);
    hide Admits;
    assert forall j :: j in p <==> j in q;
  }

  /** One step of the selection loop. */
  lemma ExtendGreedy(items: seq<ContextItem>, picks: set<nat>, budget: nat, k: nat)
    requires k < |items| && GreedyBelow(items, picks, budget, k)
    ensures var take := Admits(items, picks, budget, k);
            var next := if take then picks + {k} else picks;
            && (take <==> !Seen(items, picks, k, items[k].hash) && Used(items, picks, k) + items[k].tokens <= budget)
            && GreedyBelow(items, next, budget, k + 1)
            && Used(items, next, k + 1) == Used(items, picks, k) + (if take then items[k].tokens else 0)
            && Chosen(items, next, k + 1) == Chosen(items, picks, k) + (if take then [items[k]] else [])
            && forall h :: Seen(items, next, k + 1, h) <==> Seen(items, picks, k, h) || (take && h == items[k].hash)
  {
    var take := Admits(items, picks, budget, k);
    var next := if take then picks + {k} else picks;
    NextGreedy(items, picks, budget, k);
    NextSeen(items, picks, next, k, take);
    UsedAgrees(items, picks, next, k);
    hide GreedyBelow, Seen;
  }

  lemma NextGreedy(items: seq<ContextItem>, picks: set<nat>, budget: nat, k: nat)
    requires k < |items| && GreedyBelow(items, picks, budget, k)
    ensures GreedyBelow(items, if Admits(items, picks, budget, k) then picks + {k} else picks, budget, k + 1)
  {
    hide Admits;
    var next := if Admits(items, picks, budget, k) then picks + {k} else picks;
    forall j: nat | j < k + 1 ensures j in next <==> Admits(items, next, budget, j) {
      AdmitsAgree(items, picks, next, budget, j);
    }
  }

  lemma NextSeen(items: seq<ContextItem>, picks: set<nat>, next: set<nat>, k: nat, take: bool)
    requires k < |items| && next == (if take then picks + {k} else picks) && forall j :: j in picks ==> j < k
    ensures forall h :: Seen(items, next, k + 1, h) <==> Seen(items, picks, k, h) || (take && h == items[k].hash)
  {
    forall h ensures Seen(items, next, k + 1, h) <==> Seen(items, picks, k, h) || (take && h == items[k].hash) {
      if take && h == items[k].hash {
        assert k in next && items[k].hash == h;
      }
      if Seen(items, picks, k, h) {
        var j: nat :| j < k && j in picks && items[j].hash == h;
        assert j in next;
      }
    }
  }

  lemma {:induction false} UsedGrows(items: seq<ContextItem>, picks: set<nat>, j: nat, k: nat)
    requires j <= k <= |items|
    ensures Used(items, picks, j) <= Used(items, picks, k)
    ensures j < k && j in picks ==> Used(items, picks, j) + items[j].tokens <= Used(items, picks, k)
    decreases k - j
  {
    if j < k {
      UsedGrows(items, picks, j + 1, k);
    }
  }

  lemma RuleAt(items: seq<ContextItem>, picks: set<nat>, budget: nat, k: nat)
    requires IsGreedy(items, picks, budget) && k < |items| && k in picks
    ensures Used(items, picks, k) + items[k].tokens <= budget
  {
    assert Admits(items, picks, budget, k);
  }

  lemma {:induction false} WithinBudget(items: seq<ContextItem>, picks: set<nat>, budget: nat, k: nat)
    requires IsGreedy(items, picks, budget) && k <= |items|
    ensures Used(items, picks, k) <= budget
  {
    hide IsGreedy;
    if k > 0 {
      WithinBudget(items, picks, budget, k - 1);
      if k - 1 in picks {
        RuleAt(items, picks, budget, k - 1);
      }
    }
  }

  /** The selection fits, repeats no content, and is maximal: every item left out has the content of a pick
      that ranks before it, or does not fit even beside the whole selection. */
  lemma GreedyIsMaximal(items: seq<ContextItem>, picks: set<nat>, budget: nat)
    requires IsGreedy(items, picks, budget)
    ensures Used(items, picks, |items|) <= budget
    ensures forall j, k :: j in picks && k in picks && j != k ==> items[j].hash != items[k].hash
    ensures forall k: nat :: k < |items| && k !in picks ==>
              Seen(items, picks, k, items[k].hash) || Used(items, picks, |items|) + items[k].tokens > budget
  {
    WithinBudget(items, picks, budget, |items|);
    forall j, k | j in picks && k in picks && j < k ensures items[j].hash != items[k].hash {
      assert !Seen(items, picks, k, items[k].hash);
    }
    forall k: nat | k < |items| && k !in picks
      ensures Seen(items, picks, k, items[k].hash) || Used(items, picks, |items|) + items[k].tokens > budget
    {
      UsedGrows(items, picks, k, |items|);
    }
  }

  /** What was chosen, in the ranking's order, and its cost. */
  function Cost(items: seq<ContextItem>): nat { if items == [] then 0
      else Cost(items[..|items| - 1]) + items[|items| - 1].tokens }

  lemma {:induction false} ChosenCost(items: seq<ContextItem>, picks: set<nat>, k: nat)
    requires k <= |items|
    ensures Cost(Chosen(items, picks, k)) == Used(items, picks, k)
    ensures forall x :: x in Chosen(items, picks, k) ==> exists j: nat :: j < k && j in picks && items[j] == x
    ensures forall j: nat :: j < k && j in picks ==> items[j] in Chosen(items, picks, k)
  {
    if k > 0 {
      ChosenCost(items, picks, k - 1);
      var before := Chosen(items, picks, k - 1);
      if k - 1 in picks {
        assert (before + [items[k - 1]])[..|before|] == before;
      } else {
        assert before + [] == before;
      }
    }
  }

  lemma {:induction false} ChosenOrdered(items: seq<ContextItem>, picks: set<nat>, k: nat)
    requires k <= |items| && Ordered(items, KeyLe)
    ensures Ordered(Chosen(items, picks, k), KeyLe)
  {
    if k > 0 {
      ChosenOrdered(items, picks, k - 1);
      ChosenCost(items, picks, k - 1);
      hide KeyLe;
      var before := Chosen(items, picks, k - 1);
      forall i | 0 <= i < |before| ensures KeyLe(before[i], items[k - 1]) {
        assert before[i] in before;
      }
    }
  }

  // ----- The order in which files are found -----

  ghost predicate DistinctPaths(files: seq<SourceFile>) {
    forall i, j :: 0 <= i < j < |files| ==> files[i].path != files[j].path
  }

  lemma {:induction false} FileItemsComeFrom(a: Analysis, r: ContextRequest, f: SourceFile, cs: seq<Chunk>,
                                             x: ContextItem)
    requires x in FileItems(a, r, f, cs)
    ensures exists c :: c in cs && x == ItemOf(a, r, f, c)
    decreases cs
  {
    var n := |cs| - 1;
    if x in FileItems(a, r, f, cs[..n]) {
      FileItemsComeFrom(a, r, f, cs[..n], x);
      var c :| c in cs[..n] && x == ItemOf(a, r, f, c);
      assert c in cs;
    } else {
      assert cs[n] in cs;
    }
  }

  lemma {:induction false} CandidatesComeFrom(a: Analysis, r: ContextRequest, files: seq<SourceFile>, x: ContextItem)
    returns (f: SourceFile, c: Chunk)
    requires x in Candidates(a, r, files)
    ensures f in files && c in ChunksFrom(f.lines, LINES_PER_CHUNK, 0) && x == ItemOf(a, r, f, c)
  {
    var n := |files| - 1;
    if x in Candidates(a, r, files[..n]) {
      f, c := CandidatesComeFrom(a, r, files[..n], x);
    } else {
      f := files[n];
      FileItemsComeFrom(a, r, f, ChunksFrom(f.lines, LINES_PER_CHUNK, 0), x);
      c :| c in ChunksFrom(f.lines, LINES_PER_CHUNK, 0) && x == ItemOf(a, r, f, c);
    }
  }

  lemma {:induction false} ChunkStarts(lines: seq<string>, index: nat, c: Chunk, d: Chunk)
    requires c in ChunksFrom(lines, LINES_PER_CHUNK, index)
    ensures c.start > index
    ensures d in ChunksFrom(lines, LINES_PER_CHUNK, index) && d.start == c.start ==> c == d
    decreases |lines| - index
  {
    hide Join;
    var cs := ChunksFrom(lines, LINES_PER_CHUNK, index);
    var rest := ChunksFrom(lines, LINES_PER_CHUNK, index + LINES_PER_CHUNK);
    if c in rest {
      ChunkStarts(lines, index + LINES_PER_CHUNK, c, d);
    }
    if d in rest {
      ChunkStarts(lines, index + LINES_PER_CHUNK, d, c);
    }
  }

  lemma CandidatesDistinguished(a: Analysis, r: ContextRequest, files: seq<SourceFile>)
    requires DistinctPaths(files)
    ensures Distinguishes(Candidates(a, r, files), KeyLe)
  {
    var all := Candidates(a, r, files);
    forall x, y | x in all && y in all && KeyLe(x, y) && KeyLe(y, x) ensures x == y {
      StringLeTotal(x.path, y.path);
      var f, c := CandidatesComeFrom(a, r, files, x);
      var g, d := CandidatesComeFrom(a, r, files, y);
      hide Candidates, ChunksFrom, Score;
      assert f.path == g.path;
      assert f == g;
      ChunkStarts(f.lines, 0, c, d);
    }
  }

  lemma {:induction false} CandidatesAppend(a: Analysis, r: ContextRequest, files: seq<SourceFile>,
                                            more: seq<SourceFile>)
    ensures Candidates(a, r, files + more) == Candidates(a, r, files) + Candidates(a, r, more)
    decreases |more|
  {
    hide FileCandidates;
    if more == [] {
      assert files + more == files;
    } else {
      var m := |more| - 1;
      CandidatesAppend(a, r, files, more[..m]);
      assert (files + more)[..|files| + m] == files + more[..m];
    }
  }

  /** Candidates as a bag: the bags of the parts, in any order. */
  lemma RemoveFile(a: Analysis, r: ContextRequest, files: seq<SourceFile>, k: nat)
    requires k < |files|
    ensures multiset(Candidates(a, r, files)) ==
            multiset(Candidates(a, r, files[..k] + files[k + 1..])) + multiset(Candidates(a, r, [files[k]]))
  {
    hide Candidates;
    assert files == files[..k] + ([files[k]] + files[k + 1..]);
    CandidatesAppend(a, r, files[..k], [files[k]] + files[k + 1..]);
    CandidatesAppend(a, r, [files[k]], files[k + 1..]);
    CandidatesAppend(a, r, files[..k], files[k + 1..]);
  }

  lemma {:induction false} SameFilesSameCandidates(a: Analysis, r: ContextRequest, files: seq<SourceFile>,
                                                   other: seq<SourceFile>)
    requires multiset(files) == multiset(other)
    ensures multiset(Candidates(a, r, files)) == multiset(Candidates(a, r, other))
    decreases |files|
  {
    hide Candidates, FileCandidates;
    assert |multiset(files)| == |files| && |multiset(other)| == |other|;
    if files == [] {
      assert other == [];
    } else {
      assert files[0] in multiset(other);
      var k :| 0 <= k < |other| && other[k] == files[0];
      WithoutOne(files, 0);
      WithoutOne(other, k);
      SameFilesSameCandidates(a, r, files[..0] + files[1..], other[..k] + other[k + 1..]);
      PutBack(a, r, files, other, k);
    }
  }

  lemma PutBack(a: Analysis, r: ContextRequest, files: seq<SourceFile>, other: seq<SourceFile>, k: nat)
    requires files != [] && k < |other| && other[k] == files[0]
    requires multiset(Candidates(a, r, files[..0] + files[1..])) ==
             multiset(Candidates(a, r, other[..k] + other[k + 1..]))
    ensures multiset(Candidates(a, r, files)) == multiset(Candidates(a, r, other))
  {
    hide Candidates;
    RemoveFile(a, r, files, 0);
    RemoveFile(a, r, other, k);
  }

  /** The ranking, and with it the selection, does not depend on the order in which files are found. */
  lemma RankingForgetsTraversal(a: Analysis, r: ContextRequest, files: seq<SourceFile>, other: seq<SourceFile>)
    requires multiset(files) == multiset(other) && DistinctPaths(files)
    ensures Ranked(a, r, files) == Ranked(a, r, other)
  {
    KeyLeIsPreorder();
    CandidatesDistinguished(a, r, files);
    SameFilesSameCandidates(a, r, files, other);
    SortForgetsOrder(Candidates(a, r, files), Candidates(a, r, other), KeyLe);
  }

  // ----- The builder -----

  method CollectCandidates(a: Analysis, r: ContextRequest,
                           files: seq<SourceFile>) returns (candidates: seq<ContextItem>)
    ensures candidates == Candidates(a, r, files)
  {
    candidates := [];
    var n := 0;
    while n < |files|
      invariant 0 <= n <= |files| && candidates == Candidates(a, r, files[..n])
    {
      var f := files[n];
      var cs := ChunksFrom(f.lines, LINES_PER_CHUNK, 0);
      ghost var before := candidates;
      var k := 0;
      while k < |cs|
        invariant 0 <= k <= |cs| && candidates == before + FileItems(a, r, f, cs[..k])
      {
        var score := Score(a, r, f, cs[k].text);
        assert cs[..k + 1][..k] == cs[..k];
        if score != 0 {
          candidates := candidates + [ItemOf(a, r, f, cs[k])];
        }
        k := k + 1;
      }
      assert cs[..k] == cs;
      assert files[..n + 1][..n] == files[..n];
      n := n + 1;
    }
    assert files[..n] == files;
  }

  /** Picks among the first k items, one item at a time. */
  ghost function Picks(items: seq<ContextItem>, budget: nat, k: nat): set<nat>
    requires k <= |items|
  {
    if k == 0 then {}
    else
      var before := Picks(items, budget, k - 1);
      if Admits(items, before, budget, k - 1) then before + {k - 1} else before
  }

  lemma {:induction false} PicksAreGreedy(items: seq<ContextItem>, budget: nat, k: nat)
    requires k <= |items|
    ensures GreedyBelow(items, Picks(items, budget, k), budget, k)
  {
    hide GreedyBelow, Admits;
    if k == 0 {
      NothingPicked(items, budget);
    } else {
      PicksAreGreedy(items, budget, k - 1);
      ExtendGreedy(items, Picks(items, budget, k - 1), budget, k - 1);
    }
  }

  /** The items of the greedy selection, in ranking order. */
  ghost function Packing(items: seq<ContextItem>, budget: nat): seq<ContextItem> {
    Chosen(items, Picks(items, budget, |items|), |items|)
  }

  /** A selection is the greedy one exactly when every item follows the rule. */
  lemma GreedyIff(items: seq<ContextItem>, budget: nat, picks: set<nat>)
    ensures IsGreedy(items, picks, budget) <==> picks == Picks(items, budget, |items|)
  {
    PicksAreGreedy(items, budget, |items|);
    if IsGreedy(items, picks, budget) {
      GreedyIsUnique(items, picks, Picks(items, budget, |items|), budget);
    }
    hide GreedyBelow, Picks;
  }

  /** Within budget, in ranking order, from the ranking, and maximal. */
  lemma PackingIsMaximal(ranked: seq<ContextItem>, budget: nat)
    requires Ordered(ranked, KeyLe)
    ensures var chosen := Packing(ranked, budget);
            && Cost(chosen) <= budget && Ordered(chosen, KeyLe)
            && (forall x :: x in chosen ==> x in ranked)
            && (forall y :: y in ranked ==>
                  y in chosen || (exists x :: x in chosen && x.hash == y.hash) || Cost(chosen) + y.tokens > budget)
  {
    hide KeyLe, Used, Chosen, Cost, GreedyBelow, Picks;
    var picks := Picks(ranked, budget, |ranked|);
    var chosen := Packing(ranked, budget);
    PicksAreGreedy(ranked, budget, |ranked|);
    GreedyIsMaximal(ranked, picks, budget);
    ChosenCost(ranked, picks, |ranked|);
    ChosenOrdered(ranked, picks, |ranked|);
    forall y | y in ranked
      ensures y in chosen || (exists x :: x in chosen && x.hash == y.hash) || Cost(chosen) + y.tokens > budget
    {
      var k :| 0 <= k < |ranked| && ranked[k] == y;
      if k !in picks && Seen(ranked, picks, k, ranked[k].hash) {
        var j: nat :| j < k && j in picks && ranked[j].hash == ranked[k].hash;
        assert ranked[j] in chosen;
      }
    }
  }

  // ----- The context, item by item -----

  /** Item x is the k-th chunk of eighty lines of file f, cited and scored. */
  predicate IsChunk(a: Analysis, r: ContextRequest, f: SourceFile, k: nat, x: ContextItem) {
    && 80 * k < |f.lines| && x.path == f.path && x.startLine == 80 * k + 1
    && x.content == Join(if 80 * k + 80 <= |f.lines| then f.lines[80 * k..80 * k + 80] else f.lines[80 * k..])
    && x.endLine == x.startLine + Newlines(x.content) && x.hash == a.digest(x.content)
    && x.score == a.matches(x.content) + (if f.path in r.changed then 3 else 0) + (if f.test then 1 else 0)
                  + (if f.rules then 4 else 0)
    && x.tokens == (if |x.content| < 4 then 1 else |x.content| / 4)
  }

  /** The candidates are the chunks with a score, of all the files. */
  ghost predicate AreCandidates(a: Analysis, r: ContextRequest, files: seq<SourceFile>, xs: seq<ContextItem>) {
    forall x :: x in xs <==> x.score > 0 && exists f, k: nat :: f in files && IsChunk(a, r, f, k, x)
  }

  /** x is named before y: a higher score, or the same and a smaller path, or the same and an earlier line. */
  ghost predicate Before(x: ContextItem, y: ContextItem) {
    || x.score > y.score
    || (x.score == y.score && x.path == y.path && x.startLine <= y.startLine)
    || (x.score == y.score && x.path != y.path && exists k: nat :: Precedes(x.path, y.path, k))
  }

  lemma BeforeMeans(x: ContextItem, y: ContextItem)
    ensures KeyLe(x, y) <==> Before(x, y)
  {
    StringLeMeans(x.path, y.path);
    hide Precedes;
  }

  /** y repeats one of the first n chosen items, which are all named before it, or does not fit beside those. */
  ghost predicate LeftOut(chosen: seq<ContextItem>, budget: nat, y: ContextItem, n: nat) {
    && n <= |chosen| && (forall i :: 0 <= i < n ==> Before(chosen[i], y))
    && ((exists i :: 0 <= i < n && chosen[i].hash == y.hash) || Cost(chosen[..n]) + y.tokens > budget)
  }

  predicate Repeatless(xs: seq<ContextItem>) { forall i, j :: 0 <= i < j < |xs| ==> xs[i].hash != xs[j].hash }

  lemma {:induction false} ChosenPrefix(items: seq<ContextItem>, picks: set<nat>, k: nat, n: nat)
    requires k <= n <= |items|
    ensures Chosen(items, picks, k) <= Chosen(items, picks, n)
    decreases n
  {
    if k < n {
      ChosenPrefix(items, picks, k, n - 1);
    }
  }

  lemma {:induction false} ChosenDistinct(items: seq<ContextItem>, picks: set<nat>, k: nat)
    requires k <= |items| && forall j :: j in picks ==> j < |items|
    requires forall i, j :: i in picks && j in picks && i != j ==> items[i].hash != items[j].hash
    ensures Repeatless(Chosen(items, picks, k))
  {
    if k > 0 {
      ChosenDistinct(items, picks, k - 1);
      ChosenCost(items, picks, k - 1);
      var before := Chosen(items, picks, k - 1);
      forall i | 0 <= i < |before| && k - 1 in picks ensures before[i].hash != items[k - 1].hash {
        assert before[i] in before;
      }
    }
  }

  lemma OmittedIsLeftOut(ranked: seq<ContextItem>, budget: nat, k: nat) returns (n: nat)
    requires Ordered(ranked, KeyLe) && k < |ranked| && k !in Picks(ranked, budget, |ranked|)
    ensures LeftOut(Packing(ranked, budget), budget, ranked[k], n)
  {
    var picks := Picks(ranked, budget, |ranked|);
    PicksAreGreedy(ranked, budget, |ranked|);
    var before := Chosen(ranked, picks, k);
    ChosenPrefix(ranked, picks, k, |ranked|);
    ChosenCost(ranked, picks, k);
    n := |before|;
    var chosen := Packing(ranked, budget);
    assert chosen[..n] == before;
    assert !Admits(ranked, picks, budget, k);
    hide KeyLe, Before, Used, Chosen, Cost, Picks, Packing;
    forall i | 0 <= i < n ensures Before(chosen[i], ranked[k]) {
      assert before[i] in before;
      BeforeMeans(chosen[i], ranked[k]);
    }
    if Seen(ranked, picks, k, ranked[k].hash) {
      var j: nat :| j < k && j in picks && ranked[j].hash == ranked[k].hash;
      assert ranked[j] in before;
      var i :| 0 <= i < |before| && before[i] == ranked[j];
      assert chosen[i] == before[i];
    }
  }

  /** The selection repeats no content, and every item left out repeats, or does not fit beside, those
      chosen before it. */
  lemma PackingIsGreedy(ranked: seq<ContextItem>, budget: nat)
    requires Ordered(ranked, KeyLe)
    ensures Repeatless(Packing(ranked, budget))
    ensures forall y :: y in ranked && y !in Packing(ranked, budget) ==>
              exists n :: LeftOut(Packing(ranked, budget), budget, y, n)
  {
    var picks := Picks(ranked, budget, |ranked|);
    var chosen := Packing(ranked, budget);
    PicksAreGreedy(ranked, budget, |ranked|);
    GreedyIsMaximal(ranked, picks, budget);
    ChosenDistinct(ranked, picks, |ranked|);
    ChosenCost(ranked, picks, |ranked|);
    hide KeyLe, Before, Used, Chosen, Cost, GreedyBelow, Picks, LeftOut, Repeatless, Seen;
    forall y | y in ranked && y !in chosen ensures exists n :: LeftOut(chosen, budget, y, n) {
      var k :| 0 <= k < |ranked| && ranked[k] == y;
      var n := OmittedIsLeftOut(ranked, budget, k);
    }
  }

  lemma FirstText(lines: seq<string>, index: nat)
    requires index < |lines|
    ensures ChunksFrom(lines, LINES_PER_CHUNK, index)[0].text ==
            Join(if index + 80 <= |lines| then lines[index..index + 80] else lines[index..])
  {
    hide Join;
    assert index + 80 > |lines| ==> lines[index..] == lines[index..Min(index + 80, |lines|)];
  }

  lemma {:induction false} ChunkAt(lines: seq<string>, index: nat, c: Chunk) returns (k: nat)
    requires index % 80 == 0 && c in ChunksFrom(lines, LINES_PER_CHUNK, index)
    ensures 80 * k < |lines| && c.start == 80 * k + 1
    ensures c.text == Join(if 80 * k + 80 <= |lines| then lines[80 * k..80 * k + 80] else lines[80 * k..])
    decreases |lines| - index
  {
    hide Join;
    var rest := ChunksFrom(lines, LINES_PER_CHUNK, index + 80);
    if c in rest {
      k := ChunkAt(lines, index + 80, c);
    } else {
      k := index / 80;
      assert 80 * k == index;
      FirstText(lines, index);
    }
  }

  lemma {:induction false} ChunkExists(lines: seq<string>, index: nat, k: nat) returns (c: Chunk)
    requires index % 80 == 0 && index <= 80 * k < |lines|
    ensures c in ChunksFrom(lines, LINES_PER_CHUNK, index) && c.start == 80 * k + 1
    ensures c.text == Join(if 80 * k + 80 <= |lines| then lines[80 * k..80 * k + 80] else lines[80 * k..])
    decreases |lines| - index
  {
    hide Join;
    var cs := ChunksFrom(lines, LINES_PER_CHUNK, index);
    if index == 80 * k {
      c := cs[0];
      FirstText(lines, index);
    } else {
      c := ChunkExists(lines, index + 80, k);
      assert cs[1..] == ChunksFrom(lines, LINES_PER_CHUNK, index + 80);
    }
  }

  lemma ItemIsChunk(a: Analysis, r: ContextRequest, f: SourceFile, c: Chunk, k: nat)
    requires 80 * k < |f.lines| && c.start == 80 * k + 1
    requires c.text == Join(if 80 * k + 80 <= |f.lines| then f.lines[80 * k..80 * k + 80] else f.lines[80 * k..])
    ensures IsChunk(a, r, f, k, ItemOf(a, r, f, c)) && ItemOf(a, r, f, c).score == Score(a, r, f, c.text)
    ensures forall x :: IsChunk(a, r, f, k, x) ==> x == ItemOf(a, r, f, c)
  {
    hide Join, Newlines;
  }

  lemma {:induction false} FileItemsHold(a: Analysis, r: ContextRequest, f: SourceFile, cs: seq<Chunk>, c: Chunk)
    requires c in cs && Score(a, r, f, c.text) > 0
    ensures ItemOf(a, r, f, c) in FileItems(a, r, f, cs)
    decreases cs
  {
    hide Score, ItemOf;
    var n := |cs| - 1;
    if c != cs[n] {
      assert c in cs[..n];
      FileItemsHold(a, r, f, cs[..n], c);
    }
  }

  lemma {:induction false} FileItemsScore(a: Analysis, r: ContextRequest, f: SourceFile, cs: seq<Chunk>, x: ContextItem)
    requires x in FileItems(a, r, f, cs)
    ensures x.score > 0
    decreases cs
  {
    var n := |cs| - 1;
    if x in FileItems(a, r, f, cs[..n]) {
      FileItemsScore(a, r, f, cs[..n], x);
    }
  }

  lemma {:induction false} CandidatesHold(a: Analysis, r: ContextRequest, files: seq<SourceFile>, f: SourceFile,
                                          x: ContextItem)
    requires f in files && x in FileCandidates(a, r, f)
    ensures x in Candidates(a, r, files)
  {
    hide FileCandidates;
    var n := |files| - 1;
    if f != files[n] {
      assert f in files[..n];
      CandidatesHold(a, r, files[..n], f, x);
    }
  }

  lemma {:induction false} CandidatesScore(a: Analysis, r: ContextRequest, files: seq<SourceFile>, x: ContextItem)
    requires x in Candidates(a, r, files)
    ensures x.score > 0
  {
    var n := |files| - 1;
    if x in Candidates(a, r, files[..n]) {
      CandidatesScore(a, r, files[..n], x);
    } else {
      FileItemsScore(a, r, files[n], ChunksFrom(files[n].lines, LINES_PER_CHUNK, 0), x);
    }
  }

  lemma CandidatesMean(a: Analysis, r: ContextRequest, files: seq<SourceFile>)
    ensures AreCandidates(a, r, files, Candidates(a, r, files))
  {
    forall x
      ensures x in Candidates(a, r, files) <==>
                x.score > 0 && exists f, k: nat :: f in files && IsChunk(a, r, f, k, x)
    {
      if x in Candidates(a, r, files) {
        CandidatesScore(a, r, files, x);
        var f, c := CandidatesComeFrom(a, r, files, x);
        var k := ChunkAt(f.lines, 0, c);
        ItemIsChunk(a, r, f, c, k);
      }
      if x.score > 0 {
        if f, k: nat :| f in files && IsChunk(a, r, f, k, x) {
          var c := ChunkExists(f.lines, 0, k);
          ItemIsChunk(a, r, f, c, k);
          FileItemsHold(a, r, f, ChunksFrom(f.lines, LINES_PER_CHUNK, 0), c);
          CandidatesHold(a, r, files, f, x);
        }
      }
    }
  }

  lemma BuiltMeans(a: Analysis, r: ContextRequest, files: seq<SourceFile>, ranked: seq<ContextItem>,
                   chosen: seq<ContextItem>)
    requires multiset(ranked) == multiset(Candidates(a, r, files)) && Ordered(chosen, KeyLe)
    requires forall x :: x in chosen ==> x in ranked
    requires Repeatless(chosen)
    requires forall y :: y in ranked && y !in chosen ==> exists n :: LeftOut(chosen, Budget(r), y, n)
    ensures Built(a, r, files, chosen)
  {
    CandidatesMean(a, r, files);
    hide KeyLe, IsChunk, Candidates, Before, Cost, Budget, LeftOut;
    forall x ensures x in ranked <==> x in Candidates(a, r, files) {
      assert x in multiset(ranked) <==> x in multiset(Candidates(a, r, files));
    }
    forall i, j | 0 <= i < j < |chosen| ensures Before(chosen[i], chosen[j]) {
      BeforeMeans(chosen[i], chosen[j]);
    }
  }

  /** Chunks with a score, in ranking order and without repetition; and one that is left out repeats the content of
      a chosen one named before it, or does not fit beside some of those. */
  ghost predicate Built(a: Analysis, r: ContextRequest, files: seq<SourceFile>, chosen: seq<ContextItem>) {
    && (forall x :: x in chosen ==> x.score > 0 && exists f, k: nat :: f in files && IsChunk(a, r, f, k, x))
    && (forall i, j :: 0 <= i < j < |chosen| ==> Before(chosen[i], chosen[j]))
    && (forall i, j :: 0 <= i < j < |chosen| ==> chosen[i].hash != chosen[j].hash)
    && forall f, k: nat, y :: f in files && IsChunk(a, r, f, k, y) && y.score > 0 && y !in chosen ==>
         exists n :: LeftOut(chosen, Budget(r), y, n)
  }

  method Build(a: Analysis, r: ContextRequest, files: seq<SourceFile>) returns (chosen: seq<ContextItem>)
    ensures chosen == Packing(Ranked(a, r, files), Budget(r))
    ensures Cost(chosen) <= Budget(r) && Ordered(chosen, KeyLe)
    ensures Cost(chosen) <= (if r.maxTokens > r.reservedTokens then r.maxTokens - r.reservedTokens else 0)
    ensures Built(a, r, files, chosen)
  {
    var candidates := CollectCandidates(a, r, files);
    var ranked := SortBy(candidates, KeyLe);
    chosen := Select(ranked, Budget(r));
    KeyLeIsPreorder();
    SortByCorrect(candidates, KeyLe);
    PackingIsMaximal(ranked, Budget(r));
    PackingIsGreedy(ranked, Budget(r));
    BuiltMeans(a, r, files, ranked, chosen);
  }

  method Select(ranked: seq<ContextItem>, budget: nat) returns (chosen: seq<ContextItem>)
    ensures chosen == Packing(ranked, budget)
  {
    hide Seen, Used, Chosen, Admits, GreedyBelow;
    NothingPicked(ranked, budget);
    chosen := [];
    var used := 0;
    var seen: set<Digest> := {};
    var k := 0;
    while k < |ranked|
      invariant 0 <= k <= |ranked|
      invariant chosen == Chosen(ranked, Picks(ranked, budget, k), k)
                && used == Used(ranked, Picks(ranked, budget, k), k)
      invariant forall h :: h in seen <==> Seen(ranked, Picks(ranked, budget, k), k, h)
    {
      var item := ranked[k];
      PicksAreGreedy(ranked, budget, k);
      ExtendGreedy(ranked, Picks(ranked, budget, k), budget, k);
      if !(item.hash in seen || used + item.tokens > budget) {
        chosen := chosen + [item];
        seen := seen + {item.hash};
        used := used + item.tokens;
      }
      k := k + 1;
    }
  }

  lemma NothingPicked(items: seq<ContextItem>, budget: nat)
    ensures GreedyBelow(items, {}, budget, 0) && Used(items, {}, 0) == 0 && Chosen(items, {}, 0) == []
    ensures forall h :: !Seen(items, {}, 0, h)
  {
  }
}
