/** Counting finite sets. */
module Cardinality {

  lemma {:induction false} SubsetSize<T>(a: set<T>, b: set<T>)
    requires a <= b
    ensures |a| <= |b|
  {
    assert b == a + (b - a);
  }

  /** An injective function does not lose elements. */
  lemma {:induction false} InjectionSize<A, B>(f: A -> B, a: set<A>, b: set<B>)
    requires forall x | x in a :: f(x) in b
    requires forall x, y | x in a && y in a && f(x) == f(y) :: x == y
    ensures |a| <= |b|
    decreases a
  {
    if a != {} {
      var x :| x in a;
      InjectionSize(f, a - {x}, b - {f(x)});
    }
  }
}
