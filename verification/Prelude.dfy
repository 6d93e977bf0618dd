/** Datatypes that every other module uses. */
module Prelude {

  datatype Option<+T> = None | Some(value: T)

  /** The source's `(value, error)` pairs; error texts are not modelled, only their kind. */
  datatype Result<+T, +E> = Ok(value: T) | Err(error: E)

  function MapSeq<A, B>(f: A -> B, xs: seq<A>): (ys: seq<B>)
    ensures |ys| == |xs|
    ensures forall i :: 0 <= i < |xs| ==> ys[i] == f(xs[i])
  {
    seq(|xs|, i requires 0 <= i < |xs| => f(xs[i]))
  }

  predicate Distinct<T(==)>(xs: seq<T>)
  {
    forall i, j :: 0 <= i < j < |xs| ==> xs[i] != xs[j]
  }

  /** `xs` without its element at `i`. */
  function Without<T>(xs: seq<T>, i: nat): (ys: seq<T>)
    requires i < |xs|
    ensures |ys| == |xs| - 1
    ensures forall j :: 0 <= j < |ys| ==> ys[j] == if j < i then xs[j] else xs[j + 1]
  {
    xs[..i] + xs[i + 1..]
  }

  lemma WithoutMembers<T>(xs: seq<T>, i: nat)
    requires i < |xs|
    ensures forall x :: x in Without(xs, i) ==> x in xs
    ensures forall x :: x in xs ==> x == xs[i] || x in Without(xs, i)
  {
    forall x | x in xs ensures x == xs[i] || x in Without(xs, i) {
      var j :| 0 <= j < |xs| && xs[j] == x;
      if j < i {
        assert Without(xs, i)[j] == x;
      } else if j > i {
        assert Without(xs, i)[j - 1] == x;
      }
    }
  }
}
