/** Sums over sequences and the stable sort of Go's sort package. */
module Sequences {

  function Sum<T>(s: seq<T>, f: T -> int): int {
    if s == [] then 0 else Sum(s[..|s| - 1], f) + f(s[|s| - 1])
  }

  function Max(a: int, b: int): int {
    if a >= b then a else b
  }

  function Min(a: int, b: int): int {
    if a < b then a else b
  }

  // s[:n] when the slice is longer than n, s otherwise.
  function Take<T>(s: seq<T>, n: nat): seq<T> {
    if |s| > n then s[..n] else s
  }

  // The last n elements, or all of them.
  function Last<T>(s: seq<T>, n: nat): seq<T> {
    if |s| > n then s[|s| - n..] else s
  }

  function Reverse<T>(s: seq<T>): (r: seq<T>)
    ensures |r| == |s| && forall i :: 0 <= i < |s| ==> r[i] == s[|s| - 1 - i]
  {
    if s == [] then [] else [s[|s| - 1]] + Reverse(s[..|s| - 1])
  }

  // Inserts a later element behind everything it does not come strictly before.
  function InsertBy<T>(s: seq<T>, x: T, before: (T, T) -> bool): (r: seq<T>)
    ensures |r| == |s| + 1 && multiset(r) == multiset(s) + multiset{x}
  {
    if s == [] || !before(x, s[|s| - 1]) then s + [x]
    else
      assert s == s[..|s| - 1] + [s[|s| - 1]];
      InsertBy(s[..|s| - 1], x, before) + [s[|s| - 1]]
  }

  /** sort.SliceStable with the given strict order. */
  function SortBy<T>(s: seq<T>, before: (T, T) -> bool): (r: seq<T>)
    ensures |r| == |s| && multiset(r) == multiset(s)
  {
    if s == [] then []
    else
      assert s == s[..|s| - 1] + [s[|s| - 1]];
      InsertBy(SortBy(s[..|s| - 1], before), s[|s| - 1], before)
  }

  lemma {:induction false} SumAppend<T>(s: seq<T>, t: seq<T>, f: T -> int)
    ensures Sum(s + t, f) == Sum(s, f) + Sum(t, f)
  {
    if t == [] {
      assert s + t == s;
    } else {
      assert (s + t)[..|s + t| - 1] == s + t[..|t| - 1];
      SumAppend(s, t[..|t| - 1], f);
    }
  }

  lemma SumExtend<T>(s: seq<T>, i: nat, f: T -> int)
    requires i < |s|
    ensures Sum(s[..i + 1], f) == Sum(s[..i], f) + f(s[i])
  {
    assert s[..i + 1][..i] == s[..i];
  }

  lemma SumEnds<T>(s: seq<T>, f: T -> int)
    ensures Sum(s[..0], f) == 0 && Sum(s[..|s|], f) == Sum(s, f)
  {
    assert s[..|s|] == s;
  }

  lemma {:induction false} SumInsert<T>(s: seq<T>, x: T, before: (T, T) -> bool, f: T -> int)
    ensures Sum(InsertBy(s, x, before), f) == Sum(s, f) + f(x)
  {
    if s == [] || !before(x, s[|s| - 1]) {
      assert (s + [x])[..|s|] == s;
    } else {
      var front, last := s[..|s| - 1], s[|s| - 1];
      var r := InsertBy(front, x, before);
      SumInsert(front, x, before, f);
      assert (r + [last])[..|r|] == r;
    }
  }

  /** Sorting changes no total. */
  lemma {:induction false} SumSort<T>(s: seq<T>, before: (T, T) -> bool, f: T -> int)
    ensures Sum(SortBy(s, before), f) == Sum(s, f)
  {
    if s != [] {
      SumSort(s[..|s| - 1], before, f);
      SumInsert(SortBy(s[..|s| - 1], before), s[|s| - 1], before, f);
    }
  }

  lemma SortKeepsMembers<T(!new)>(s: seq<T>, before: (T, T) -> bool)
    ensures forall x :: x in SortBy(s, before) <==> x in s
  {
    var r := SortBy(s, before);
    forall x
      ensures x in r <==> x in s
    {
      assert x in r <==> x in multiset(r);
      assert x in s <==> x in multiset(s);
    }
  }

  // A strict weak order: irreflexive, and "not after" is transitive.
  ghost predicate Ordering<T(!new)>(before: (T, T) -> bool) {
    && (forall a, b :: before(a, b) ==> !before(b, a))
    && (forall a, b, c :: !before(b, a) && !before(c, b) ==> !before(c, a))
  }

  ghost predicate SortedBy<T(!new)>(s: seq<T>, before: (T, T) -> bool) {
    forall i, j :: 0 <= i < j < |s| ==> !before(s[j], s[i])
  }

  lemma {:induction false} InsertSorted<T(!new)>(s: seq<T>, x: T, before: (T, T) -> bool)
    requires Ordering(before) && SortedBy(s, before)
    ensures SortedBy(InsertBy(s, x, before), before)
    decreases |s|
  {
    if s != [] && before(x, s[|s| - 1]) {
      var front, last := s[..|s| - 1], s[|s| - 1];
      var r := InsertBy(front, x, before);
      InsertSorted(front, x, before);
      forall i | 0 <= i < |r|
        ensures !before(last, r[i])
      {
        assert r[i] in multiset(front) + multiset{x};
      }
    }
  }

  /** The sort really sorts. */
  lemma {:induction false} SortSorts<T(!new)>(s: seq<T>, before: (T, T) -> bool)
    requires Ordering(before)
    ensures SortedBy(SortBy(s, before), before)
  {
    if s != [] {
      SortSorts(s[..|s| - 1], before);
      InsertSorted(SortBy(s[..|s| - 1], before), s[|s| - 1], before);
    }
  }

  // The elements that are neither before x nor behind it.
  function Alike<T>(s: seq<T>, x: T, before: (T, T) -> bool): seq<T> {
    if s == [] then []
    else
      var front, last := s[..|s| - 1], s[|s| - 1];
      if !before(last, x) && !before(x, last) then Alike(front, x, before) + [last] else Alike(front, x, before)
  }

  lemma AlikeUnfolds<T>(s: seq<T>, y: T, x: T, before: (T, T) -> bool)
    ensures Alike(s + [y], x, before) ==
            if !before(y, x) && !before(x, y) then Alike(s, x, before) + [y] else Alike(s, x, before)
  {
    assert (s + [y])[..|s|] == s;
  }

  lemma {:induction false} InsertBehindItsLike<T(!new)>(s: seq<T>, y: T, x: T, before: (T, T) -> bool)
    requires Ordering(before)
    ensures Alike(InsertBy(s, y, before), x, before) == Alike(s + [y], x, before)
  {
    if s != [] && before(y, s[|s| - 1]) {
      var front, last := s[..|s| - 1], s[|s| - 1];
      InsertBehindItsLike(front, y, x, before);
      assert s == front + [last];
      // Not both can be like x.
      assert before(last, x) || before(x, last) || before(y, x) || before(x, y);
      hide Alike;
      AlikeUnfolds(InsertBy(front, y, before), last, x, before);
      AlikeUnfolds(front, last, x, before);
      AlikeUnfolds(front, y, x, before);
      AlikeUnfolds(s, y, x, before);
    }
  }

  lemma SortUnfolds<T>(s: seq<T>, before: (T, T) -> bool)
    ensures SortBy(s, before) ==
            if s == [] then [] else InsertBy(SortBy(s[..|s| - 1], before), s[|s| - 1], before)
  {
  }

  /** The sort is stable: elements neither of which comes before the other keep their order. */
  lemma {:induction false} SortIsStable<T(!new)>(s: seq<T>, x: T, before: (T, T) -> bool)
    requires Ordering(before)
    ensures Alike(SortBy(s, before), x, before) == Alike(s, x, before)
  {
    hide Alike, Ordering, SortBy, InsertBy;
    SortUnfolds(s, before);
    if s != [] {
      var front, last := s[..|s| - 1], s[|s| - 1];
      SortIsStable(front, x, before);
      InsertBehindItsLike(SortBy(front, before), last, x, before);
      AlikeUnfolds(SortBy(front, before), last, x, before);
      AlikeUnfolds(front, last, x, before);
      assert s == front + [last];
    }
  }
}
