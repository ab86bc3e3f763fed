/** Facts about sequences that every queue of the kernel relies on. */
module Seqs {

  datatype Option<+T> = None | Some(value: T)

  ghost predicate NoDup<T>(q: seq<T>) {
    forall i, j :: 0 <= i < j < |q| ==> q[i] != q[j]
  }

  /** The queue without its first occurrence of x: what TAILQ_REMOVE does to the order. */
  function Remove<T(==)>(q: seq<T>, x: T): (r: seq<T>)
    ensures x !in q ==> r == q
    ensures x in q ==> |r| == |q| - 1
  {
    if q == [] then []
    else if q[0] == x then q[1..]
    else [q[0]] + Remove(q[1..], x)
  }

  lemma {:induction false} RemoveKeeps<T>(q: seq<T>, x: T, y: T)
    ensures y in Remove(q, x) ==> y in q
    ensures y != x && y in q ==> y in Remove(q, x)
  {
    if q != [] {
      RemoveKeeps(q[1..], x, y);
    }
  }

  lemma {:induction false} RemoveNoDup<T>(q: seq<T>, x: T)
    requires NoDup(q)
    ensures NoDup(Remove(q, x))
    ensures x !in Remove(q, x)
  {
    if q != [] && q[0] != x {
      var rest := q[1..];
      RemoveNoDup(rest, x);
      RemoveKeeps(rest, x, q[0]);
      assert q[0] !in rest;
      ConsNoDup(q[0], Remove(rest, x));
    }
  }

  lemma {:induction false} RemoveLast<T>(q: seq<T>, x: T)
    requires x !in q
    ensures Remove(q + [x], x) == q && Remove([x] + q, x) == q
  {
    if q != [] {
      assert (q + [x])[1..] == q[1..] + [x];
      RemoveLast(q[1..], x);
    }
  }

  lemma ConsNoDup<T>(x: T, q: seq<T>)
    requires NoDup(q) && x !in q
    ensures NoDup([x] + q)
  {}

  lemma SnocNoDup<T>(q: seq<T>, x: T)
    requires NoDup(q) && x !in q
    ensures NoDup(q + [x])
  {}
}
