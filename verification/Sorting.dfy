/** sorted(...): a stable insertion sort, its order, its contents, and when its result does not depend on
    the order of its input. */
module Sorting {
  ghost predicate TotalPreorder<T(!new)>(le: (T, T) -> bool) {
    && (forall x, y :: le(x, y) || le(y, x))
    && (forall x, y, z :: le(x, y) && le(y, z) ==> le(x, z))
  }

  ghost predicate Ordered<T>(xs: seq<T>, le: (T, T) -> bool) {
    forall i, j :: 0 <= i < j < |xs| ==> le(xs[i], xs[j])
  }

  /** Elements that compare both ways are equal. */
  ghost predicate Distinguishes<T>(xs: seq<T>, le: (T, T) -> bool) {
    forall x, y :: x in xs && y in xs && le(x, y) && le(y, x) ==> x == y
  }

  function Insert<T>(x: T, xs: seq<T>, le: (T, T) -> bool): seq<T> {
    if xs == [] || le(x, xs[0]) then [x] + xs else [xs[0]] + Insert(x, xs[1..], le)
  }

  function SortBy<T>(xs: seq<T>, le: (T, T) -> bool): seq<T> {
    if xs == [] then [] else Insert(xs[0], SortBy(xs[1..], le), le)
  }

  lemma {:induction false} InsertContents<T>(x: T, xs: seq<T>, le: (T, T) -> bool)
    ensures multiset(Insert(x, xs, le)) == multiset(xs) + multiset{x}
  {
    if !(xs == [] || le(x, xs[0])) {
      InsertContents(x, xs[1..], le);
      assert xs == [xs[0]] + xs[1..];
    }
  }

  lemma {:induction false} InsertOrdered<T(!new)>(x: T, xs: seq<T>, le: (T, T) -> bool)
    requires TotalPreorder(le) && Ordered(xs, le)
    ensures Ordered(Insert(x, xs, le), le)
  {
    if !(xs == [] || le(x, xs[0])) {
      InsertOrdered(x, xs[1..], le);
      InsertContents(x, xs[1..], le);
      var rest := Insert(x, xs[1..], le);
      forall j | 0 <= j < |rest| ensures le(xs[0], rest[j]) {
        assert rest[j] in multiset(rest);
        assert rest[j] in multiset(xs[1..]) || rest[j] == x;
      }
    }
  }

  /** The sort orders its input and keeps every element as often as it occurs. */
  lemma {:induction false} SortByCorrect<T(!new)>(xs: seq<T>, le: (T, T) -> bool)
    requires TotalPreorder(le)
    ensures Ordered(SortBy(xs, le), le) && multiset(SortBy(xs, le)) == multiset(xs)
  {
    if xs == [] {
    } else {
      SortByCorrect(xs[1..], le);
      InsertOrdered(xs[0], SortBy(xs[1..], le), le);
      InsertContents(xs[0], SortBy(xs[1..], le), le);
      assert xs == [xs[0]] + xs[1..];
    }
  }

  function Alike<T>(xs: seq<T>, x: T, le: (T, T) -> bool): seq<T> {
    if xs == [] then []
    else (if le(xs[0], x) && le(x, xs[0]) then [xs[0]] else []) + Alike(xs[1..], x, le)
  }

  lemma {:induction false} InsertStable<T(!new)>(y: T, xs: seq<T>, x: T, le: (T, T) -> bool)
    requires TotalPreorder(le)
    ensures Alike(Insert(y, xs, le), x, le) == Alike([y] + xs, x, le)
  {
    assert ([y] + xs)[1..] == xs;
    if !(xs == [] || le(y, xs[0])) {
      InsertStable(y, xs[1..], x, le);
      assert ([y] + xs[1..])[1..] == xs[1..];
      assert Insert(y, xs, le)[1..] == Insert(y, xs[1..], le);
    }
  }

  /** Stable: elements that compare equal keep their input order. */
  lemma {:induction false} SortByStable<T(!new)>(xs: seq<T>, x: T, le: (T, T) -> bool)
    requires TotalPreorder(le)
    ensures Alike(SortBy(xs, le), x, le) == Alike(xs, x, le)
  {
    if xs == [] {
    } else {
      SortByStable(xs[1..], x, le);
      var rest := SortBy(xs[1..], le);
      InsertStable(xs[0], rest, x, le);
      assert ([xs[0]] + rest)[1..] == rest;
    }
  }

  /** Two ordered sequences with the same distinguishable elements are the same. */
  lemma {:induction false} OrderedUnique<T(!new)>(xs: seq<T>, ys: seq<T>, le: (T, T) -> bool)
    requires TotalPreorder(le) && Ordered(xs, le) && Ordered(ys, le) && multiset(xs) == multiset(ys)
             && Distinguishes(xs, le)
    ensures xs == ys
    decreases |xs|
  {
    assert |multiset(xs)| == |xs| && |multiset(ys)| == |ys|;
    if xs == [] {
    } else {
      HeadsAgree(xs, ys, le);
      TailsAgree(xs, ys, le);
      hide TotalPreorder, Ordered, Distinguishes;
      OrderedUnique(xs[1..], ys[1..], le);
      assert xs == [xs[0]] + xs[1..] && ys == [ys[0]] + ys[1..];
    }
  }

  lemma HeadsAgree<T(!new)>(xs: seq<T>, ys: seq<T>, le: (T, T) -> bool)
    requires TotalPreorder(le) && Ordered(xs, le) && Ordered(ys, le) && multiset(xs) == multiset(ys)
             && Distinguishes(xs, le)
    requires xs != [] && ys != []
    ensures xs[0] == ys[0]
  {
    assert xs[0] in multiset(ys) && ys[0] in multiset(xs);
    var i :| 0 <= i < |ys| && ys[i] == xs[0];
    var j :| 0 <= j < |xs| && xs[j] == ys[0];
    assert le(ys[0], xs[0]) && le(xs[0], ys[0]);
  }

  lemma TailsAgree<T(!new)>(xs: seq<T>, ys: seq<T>, le: (T, T) -> bool)
    requires Ordered(xs, le) && Ordered(ys, le) && multiset(xs) == multiset(ys) && Distinguishes(xs, le)
    requires xs != [] && ys != [] && xs[0] == ys[0]
    ensures Ordered(xs[1..], le) && Ordered(ys[1..], le) && Distinguishes(xs[1..], le)
            && multiset(xs[1..]) == multiset(ys[1..])
  {
    assert xs == [xs[0]] + xs[1..] && ys == [ys[0]] + ys[1..];
    assert multiset(xs[1..]) == multiset(xs) - multiset{xs[0]};
    assert multiset(ys[1..]) == multiset(ys) - multiset{ys[0]};
  }

  /** Sorting forgets the input order of distinguishable elements. */
  lemma SortForgetsOrder<T(!new)>(xs: seq<T>, ys: seq<T>, le: (T, T) -> bool)
    requires TotalPreorder(le) && multiset(xs) == multiset(ys) && Distinguishes(xs, le)
    ensures SortBy(xs, le) == SortBy(ys, le)
  {
    SortByCorrect(xs, le);
    SortByCorrect(ys, le);
    forall x | x in SortBy(xs, le) ensures x in xs {
      assert x in multiset(SortBy(xs, le));
    }
    OrderedUnique(SortBy(xs, le), SortBy(ys, le), le);
  }

  // ----- Elements that compare equal -----

  /** Inserting y, and then an x that compares equal, leaves x directly before y; swapping them swaps only
      those two. */
  lemma {:induction false} InsertSplit<T(!new)>(x: T, y: T, xs: seq<T>, le: (T, T) -> bool) returns (k: nat)
    requires TotalPreorder(le) && le(x, y) && le(y, x)
    ensures k <= |xs|
    ensures Insert(x, Insert(y, xs, le), le) == xs[..k] + [x, y] + xs[k..]
    ensures Insert(y, Insert(x, xs, le), le) == xs[..k] + [y, x] + xs[k..]
  {
    if xs == [] || le(y, xs[0]) {
      k := 0;
      assert xs != [] ==> le(x, xs[0]);
      assert ([y] + xs)[0] == y && ([x] + xs)[0] == x;
    } else {
      assert !le(x, xs[0]);
      k := InsertSplit(x, y, xs[1..], le);
      assert Insert(y, xs, le)[1..] == Insert(y, xs[1..], le) && Insert(x, xs, le)[1..] == Insert(x, xs[1..], le);
      assert xs == [xs[0]] + xs[1..];
      k := k + 1;
    }
  }

  function MapSeq<T, U>(f: T -> U, xs: seq<T>): (ys: seq<U>)
    ensures |ys| == |xs| && forall i :: 0 <= i < |xs| ==> ys[i] == f(xs[i])
  {
    seq(|xs|, i requires 0 <= i < |xs| => f(xs[i]))
  }

  lemma WithoutOne<T>(xs: seq<T>, k: nat)
    requires k < |xs|
    ensures multiset(xs[..k] + xs[k + 1..]) == multiset(xs) - multiset{xs[k]}
  {
    assert xs == xs[..k] + [xs[k]] + xs[k + 1..];
  }

  lemma MapWithoutOne<T, U>(f: T -> U, xs: seq<T>, k: nat)
    requires k < |xs|
    ensures multiset(MapSeq(f, xs)) == multiset(MapSeq(f, xs[..k] + xs[k + 1..])) + multiset{f(xs[k])}
  {
    var ys := MapSeq(f, xs);
    assert MapSeq(f, xs[..k] + xs[k + 1..]) == ys[..k] + ys[k + 1..];
    assert ys == ys[..k] + [ys[k]] + ys[k + 1..];
  }

  lemma {:induction false} MapSeqContents<T, U>(f: T -> U, xs: seq<T>, ys: seq<T>)
    requires multiset(xs) == multiset(ys)
    ensures multiset(MapSeq(f, xs)) == multiset(MapSeq(f, ys))
    decreases |xs|
  {
    assert |multiset(xs)| == |xs| && |multiset(ys)| == |ys|;
    if xs == [] {
      assert ys == [];
    } else {
      assert xs[0] in multiset(ys);
      var k := Find(ys, xs[0]);
      RemoveBoth(xs, 0, ys, k);
      MapSeqContents(f, xs[..0] + xs[1..], ys[..k] + ys[k + 1..]);
      MapWithoutOne(f, xs, 0);
      MapWithoutOne(f, ys, k);
    }
  }

  lemma Find<T>(xs: seq<T>, x: T) returns (k: nat)
    requires x in xs
    ensures k < |xs| && xs[k] == x
  {
    k :| 0 <= k < |xs| && xs[k] == x;
  }

  lemma RemoveBoth<T>(xs: seq<T>, i: nat, ys: seq<T>, k: nat)
    requires multiset(xs) == multiset(ys) && i < |xs| && k < |ys| && xs[i] == ys[k]
    ensures multiset(xs[..i] + xs[i + 1..]) == multiset(ys[..k] + ys[k + 1..])
  {
    WithoutOne(xs, i);
    WithoutOne(ys, k);
  }

  lemma AddBack<T>(xs: seq<T>, k: nat)
    requires k < |xs|
    ensures multiset(xs) == multiset{xs[k]} + multiset(xs[..k] + xs[k + 1..])
  {
    assert xs == xs[..k] + [xs[k]] + xs[k + 1..];
  }

  lemma TwoInFront<T>(x: T, y: T, rest: seq<T>)
    ensures multiset([x, y] + rest) == multiset{x} + (multiset{y} + multiset(rest))
  {
  }

  /** Takes the elements at i and j to the front, in either order. */
  lemma ToFront<T>(xs: seq<T>, i: nat, j: nat) returns (rest: seq<T>)
    requires i < |xs| && j < |xs| && i != j
    ensures multiset([xs[i], xs[j]] + rest) == multiset([xs[j], xs[i]] + rest) == multiset(xs)
  {
    var once := xs[..i] + xs[i + 1..];
    var k := if j < i then j else j - 1;
    assert once[k] == xs[j];
    rest := once[..k] + once[k + 1..];
    AddBack(xs, i);
    AddBack(once, k);
    TwoInFront(xs[i], xs[j], rest);
    TwoInFront(xs[j], xs[i], rest);
  }

  // ----- String order -----

  /** Lexicographic by character, as Python compares str. */
  predicate StringLe(a: string, b: string) {
    a == "" || (b != "" && (a[0] < b[0] || (a[0] == b[0] && StringLe(a[1..], b[1..]))))
  }

  /** The two strings agree up to k, where the first ends or has the smaller character. */
  predicate Precedes(a: string, b: string, k: nat) {
    k <= |a| && k <= |b| && a[..k] == b[..k] && (k == |a| || (k < |b| && a[k] < b[k]))
  }

  /** Lexicographic order. */
  lemma {:induction false} StringLeMeans(a: string, b: string)
    ensures StringLe(a, b) <==> exists k: nat :: Precedes(a, b, k)
  {
    if a == "" {
      assert Precedes(a, b, 0);
    } else if b == "" {
    } else {
      StringLeMeans(a[1..], b[1..]);
      if a[0] < b[0] {
        assert Precedes(a, b, 0);
      }
      if a[0] == b[0] && StringLe(a[1..], b[1..]) {
        var k: nat :| Precedes(a[1..], b[1..], k);
        assert a[..k + 1] == [a[0]] + a[1..][..k] && b[..k + 1] == [b[0]] + b[1..][..k];
        assert Precedes(a, b, k + 1);
      }
      if k: nat :| Precedes(a, b, k) {
        if k > 0 {
          assert a[0] == a[..k][0] == b[..k][0] == b[0];
          assert a[1..][..k - 1] == a[..k][1..] && b[1..][..k - 1] == b[..k][1..];
          assert Precedes(a[1..], b[1..], k - 1);
        }
      }
    }
  }

  lemma {:induction false} StringLeTotal(a: string, b: string)
    ensures StringLe(a, b) || StringLe(b, a)
    ensures StringLe(a, b) && StringLe(b, a) ==> a == b
  {
    if a != "" && b != "" && a[0] == b[0] {
      StringLeTotal(a[1..], b[1..]);
      assert a == [a[0]] + a[1..] && b == [b[0]] + b[1..];
    }
  }

  lemma {:induction false} StringLeTransitive(a: string, b: string, c: string)
    requires StringLe(a, b) && StringLe(b, c)
    ensures StringLe(a, c)
  {
    if a != "" && a[0] == b[0] && b[0] == c[0] {
      StringLeTransitive(a[1..], b[1..], c[1..]);
    }
  }
}
