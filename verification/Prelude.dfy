/** Option and Result, and two facts about sets that the counting results use. */
module Prelude {

  datatype Option<+T> = None | Some(value: T)

  datatype Result<+T, +E> = Success(value: T) | Failure(error: E)

  /** A map that is injective on `xs` and hits every element of `ys` makes the two sets equally large. */
  lemma {:induction false} BijectionSize<A, B>(xs: set<A>, ys: set<B>, f: A -> B)
    requires forall x :: x in xs ==> f(x) in ys
    requires forall x, x' :: x in xs && x' in xs && f(x) == f(x') ==> x == x'
    requires forall y :: y in ys ==> exists x :: x in xs && f(x) == y
    ensures |xs| == |ys|
  {
    if xs == {} {
      assert ys == {};
    } else {
      var x :| x in xs;
      BijectionSize(xs - {x}, ys - {f(x)}, f);
    }
  }

  lemma SubsetSize<A>(xs: set<A>, ys: set<A>)
    requires xs <= ys
    ensures |xs| <= |ys|
  {
    assert ys == xs + (ys - xs);
  }
}
