/** Iteration over sets and maps in an arbitrary order, as Go iterates over maps and lists the objects of a cluster. */
module Collections {
  predicate NoDuplicates<T(==)>(q: seq<T>) {
    forall i, j :: 0 <= i < j < |q| ==> q[i] != q[j]
  }

  method Enumerate<T>(s: set<T>) returns (q: seq<T>)
    ensures forall x :: x in q <==> x in s
    ensures NoDuplicates(q)
  {
    q := [];
    var rest := s;
    while rest != {}
      invariant rest <= s
      invariant forall x :: x in q <==> x in s && x !in rest
      invariant NoDuplicates(q)
    {
      var x :| x in rest;
      q := q + [x];
      rest := rest - {x};
    }
  }

  /** The same for proofs: every set can be listed. */
  lemma {:induction false} ListOf<T>(s: set<T>) returns (list: seq<T>)
    ensures forall x :: x in list <==> x in s
    ensures NoDuplicates(list)
  {
    list := [];
    if s != {} {
      var x :| x in s;
      var rest := ListOf(s - {x});
      list := [x] + rest;
    }
  }
}
