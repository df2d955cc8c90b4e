/** What several modules share. */
module Basics {

  datatype Option<T> = None | Some(value: T)

  predicate NoDup<T(==)>(q: seq<T>) { forall i, j | 0 <= i < j < |q| :: q[i] != q[j] }

  lemma NoDupJoin<T>(a: seq<T>, b: seq<T>)
    requires NoDup(a) && NoDup(b) && forall x | x in a :: x !in b
    ensures NoDup(a + b)
  {
    forall i, j | 0 <= i < j < |a + b| ensures (a + b)[i] != (a + b)[j] {
      if i < |a| <= j { assert a[i] in a && b[j - |a|] in b; }
    }
  }
}
