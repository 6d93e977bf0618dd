/** `sort.Slice` and `sort.Strings`: some sorted permutation of the input, found by insertion. */
module Sorting {

  predicate SortedBy<T>(xs: seq<T>, leq: (T, T) -> bool)
  {
    forall i, j :: 0 <= i < j < |xs| ==> leq(xs[i], xs[j])
  }

  ghost predicate TotalPreorder<T(!new)>(leq: (T, T) -> bool)
  {
    && (forall x, y :: leq(x, y) || leq(y, x))
    && (forall x, y, z :: leq(x, y) && leq(y, z) ==> leq(x, z))
  }

  lemma InsertedSorted<T(!new)>(x: T, xs: seq<T>, i: nat, leq: (T, T) -> bool)
    requires TotalPreorder(leq) && SortedBy(xs, leq) && i <= |xs|
    requires (forall j :: 0 <= j < i ==> leq(xs[j], x)) && (i < |xs| ==> !leq(xs[i], x))
    ensures SortedBy(xs[..i] + [x] + xs[i..], leq)
  {
    var ys := xs[..i] + [x] + xs[i..];
    forall j | i <= j < |xs| ensures leq(x, xs[j]) {
      assert leq(x, xs[i]) && (j > i ==> leq(xs[i], xs[j]));
    }
    forall a, b | 0 <= a < b < |ys| ensures leq(ys[a], ys[b]) {
      assert ys[a] == if a < i then xs[a] else if a == i then x else xs[a - 1];
      assert ys[b] == if b < i then xs[b] else if b == i then x else xs[b - 1];
    }
  }

  method Insert<T(!new)>(x: T, xs: seq<T>, leq: (T, T) -> bool) returns (ys: seq<T>)
    requires TotalPreorder(leq) && SortedBy(xs, leq)
    ensures SortedBy(ys, leq) && multiset(ys) == multiset(xs) + multiset{x}
  {
    hide TotalPreorder, SortedBy;
    var i := 0;
    while i < |xs| && leq(xs[i], x)
      invariant 0 <= i <= |xs|
      invariant forall j :: 0 <= j < i ==> leq(xs[j], x)
    {
      i := i + 1;
    }
    ys := xs[..i] + [x] + xs[i..];
    assert xs == xs[..i] + xs[i..];
    InsertedSorted(x, xs, i, leq);
  }

  method Sort<T(!new)>(xs: seq<T>, leq: (T, T) -> bool) returns (ys: seq<T>)
    requires TotalPreorder(leq)
    ensures SortedBy(ys, leq) && multiset(ys) == multiset(xs)
  {
    ys := [];
    for i := 0 to |xs|
      invariant SortedBy(ys, leq) && multiset(ys) == multiset(xs[..i])
    {
      ys := Insert(xs[i], ys, leq);
      assert xs[..i + 1] == xs[..i] + [xs[i]];
    }
    assert xs[..|xs|] == xs;
  }

  lemma SameMembers<T>(xs: seq<T>, ys: seq<T>)
    requires multiset(xs) == multiset(ys)
    ensures |xs| == |ys|
    ensures forall x :: x in xs <==> x in ys
  {
    assert |multiset(xs)| == |multiset(ys)|;
    forall x ensures x in xs <==> x in ys {
      assert x in multiset(xs) <==> x in multiset(ys);
    }
  }

  /** The first of a sorted permutation is below every member. */
  lemma FirstIsLeast<T(!new)>(xs: seq<T>, ys: seq<T>, leq: (T, T) -> bool)
    requires SortedBy(xs, leq) && xs != [] && multiset(xs) == multiset(ys) && TotalPreorder(leq)
    ensures ys != [] && ys[0] in xs && leq(xs[0], ys[0])
  {
    SameMembers(xs, ys);
    assert ys[0] in ys;
    var i :| 0 <= i < |xs| && xs[i] == ys[0];
  }

  lemma TailMultiset<T>(xs: seq<T>)
    requires xs != []
    ensures xs == [xs[0]] + xs[1..]
    ensures multiset(xs[1..]) == multiset(xs) - multiset{xs[0]}
    ensures forall x :: x in xs[1..] ==> x in xs
  {
    assert xs == [xs[0]] + xs[1..];
  }

  /** Where the order tells all members apart, a list has only one sorted permutation. */
  lemma {:induction false} SortedUnique<T(!new)>(xs: seq<T>, ys: seq<T>, leq: (T, T) -> bool)
    requires TotalPreorder(leq)
    requires SortedBy(xs, leq) && SortedBy(ys, leq) && multiset(xs) == multiset(ys)
    requires forall x, y :: x in xs && y in xs && leq(x, y) && leq(y, x) ==> x == y
    ensures xs == ys
    decreases |xs|
  {
    SameMembers(xs, ys);
    if xs != [] {
      FirstIsLeast(xs, ys, leq);
      FirstIsLeast(ys, xs, leq);
      TailMultiset(xs);
      TailMultiset(ys);
      SortedUnique(xs[1..], ys[1..], leq);
    }
  }
}
