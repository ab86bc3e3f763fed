/** The intrusive tail queue of include/sys/queue.h as pointers, and the sequence it stands for. */
module TailQueue {
  import opened Seqs

  /** The address of a variable that holds an Entry pointer: a queue's first, or an entry's next. */
  datatype Cell = Null | FirstOf(q: Queue) | NextOf(e: Entry)

  class Entry {
    var next: Entry?
    var pprev: Cell

    /** TAILQ_ENTRY_INIT */
    constructor ()
      ensures pprev == Null
    {
      pprev := Null;
    }
  }

  /** The entry at position i, or the null pointer behind the last one. */
  ghost function At(items: seq<Entry>, i: nat): Entry? {
    if i < |items| then items[i] else null
  }

  /** The cell that holds the entry at position i, or the null pointer behind the last one. */
  ghost function CellAt(q: Queue, items: seq<Entry>, i: nat): Cell
    requires i <= |items|
  {
    if i == 0 then FirstOf(q) else NextOf(items[i - 1])
  }

  class Queue {
    var first: Entry?
    var ptail: Cell
    ghost var items: seq<Entry>

    /** The entry at position i points to its successor, and back to the cell that points to it. */
    ghost predicate Tied(i: nat)
      requires i < |items|
      reads this, items[i]
    {
      items[i].next == At(items, i + 1) && items[i].pprev == CellAt(this, items, i)
    }

    ghost predicate Valid()
      reads this, items
    {
      && NoDup(items)
      && first == At(items, 0)
      && ptail == CellAt(this, items, |items|)
      && (forall i: nat :: i < |items| ==> Tied(i))
    }

    /** TAILQ_INIT */
    constructor ()
      ensures Valid() && items == []
    {
      first := null;
      ptail := FirstOf(this);
      items := [];
    }

    method Empty() returns (r: bool)
      requires Valid()
      ensures r <==> items == []
    {
      r := first == null;
    }

    method InsertHead(e: Entry)
      requires Valid() && e !in items
      modifies this, e, first
      ensures Valid() && items == [e] + old(items) && e.pprev != Null
    {
      hide NoDup, Tied;
      e.next := first;
      e.pprev := FirstOf(this);
      if first != null {
        first.pprev := NextOf(e);
      } else {
        ptail := NextOf(e);
      }
      first := e;
      items := [e] + items;
      HeadInserted(e);
    }

    twostate lemma HeadInserted(e: Entry)
      requires old(Valid()) && e !in old(items) && items == [e] + old(items)
      requires first == e && e.next == old(first) && e.pprev == FirstOf(this)
      requires ptail == if old(items) == [] then NextOf(e) else old(ptail)
      requires forall x :: x in old(items) ==> x.next == old(x.next) && x.pprev == if x == old(first) then NextOf(e) else old(x.pprev)
      ensures Valid()
    {
      var s := old(items);
      ConsNoDup(e, s);
      forall i: nat | i < |items| ensures Tied(i) {
        if i > 0 {
          assert old(Tied(i - 1)) && items[i] == s[i - 1];
          assert At(items, i + 1) == At(s, i);
        }
      }
    }

    method InsertTail(e: Entry)
      requires Valid() && e !in items
      modifies this, e, items
      ensures Valid() && items == old(items) + [e] && e.pprev != Null
    {
      hide NoDup, Tied;
      e.next := null;
      e.pprev := ptail;
      match ptail {
        case FirstOf(q) => q.first := e;
        case NextOf(x) => x.next := e;
      }
      ptail := NextOf(e);
      items := items + [e];
      TailInserted(e);
    }

    twostate lemma TailInserted(e: Entry)
      requires old(Valid()) && e !in old(items) && items == old(items) + [e]
      requires e.next == null && e.pprev == old(ptail) && ptail == NextOf(e)
      requires first == if old(items) == [] then e else old(first)
      requires forall x :: x in old(items) ==> x.pprev == old(x.pprev) && x.next == if old(ptail) == NextOf(x) then e else old(x.next)
      ensures Valid()
    {
      var s := old(items);
      SnocNoDup(s, e);
      forall i: nat | i < |items| ensures Tied(i) {
        if i < |s| {
          assert old(Tied(i)) && items[i] == s[i];
        }
      }
    }
  
    /** TAILQ_REMOVE: the links of e itself stay as they were. */
    method Unlink(e: Entry)
      requires Valid() && e in items
      modifies this, items
      ensures Valid() && items == Remove(old(items), e)
      ensures e.next == old(e.next) && e.pprev == old(e.pprev) && e.pprev != Null
    {
      hide NoDup, Tied;
      ghost var k: nat :| k < |items| && items[k] == e;
      Links(k);
      if e.next != null {
        e.next.pprev := e.pprev;
      } else {
        ptail := e.pprev;
      }
      match e.pprev {
        case FirstOf(q) => q.first := e.next;
        case NextOf(x) => x.next := e.next;
      }
      RemoveAt(items, k);
      items := items[..k] + items[k + 1..];
      Unlinked(k);
    }

    /** Who an entry is tied to. */
    lemma Links(k: nat)
      requires Valid() && k < |items|
      ensures items[k].next == At(items, k + 1) && items[k].pprev == CellAt(this, items, k)
      ensures forall i: nat :: i < |items| && i != k ==> items[i] != items[k]
      ensures forall i: nat :: i < |items| && i != k + 1 && k + 1 < |items| ==> items[i] != items[k + 1]
      ensures forall i: nat :: i < |items| && k > 0 && i != k - 1 ==> items[i] != items[k - 1]
    {
      assert Tied(k);
    }

    twostate lemma Unlinked(k: nat)
      requires old(Valid()) && k < |old(items)| && items == old(items)[..k] + old(items)[k + 1..]
      requires first == if k == 0 then At(old(items), 1) else old(first)
      requires ptail == if k == |old(items)| - 1 then CellAt(this, old(items), k) else old(ptail)
      requires forall i: nat :: i < |old(items)| && i != k ==>
                 var x := old(items)[i];
                 && x.next == (if i + 1 == k then At(old(items), k + 1) else old(x.next))
                 && x.pprev == (if i == k + 1 then CellAt(this, old(items), k) else old(x.pprev))
      ensures Valid()
    {
      var s := old(items);
      forall i: nat | i < |items| ensures Tied(i) {
        var j := if i < k then i else i + 1;
        assert items[i] == s[j] && old(Tied(j));
      }
    }

    /** TAILQ_FOREACH visits the entries of the sequence in order. */
    method Foreach() returns (seen: seq<Entry>)
      requires Valid()
      ensures seen == items
    {
      var it := first;
      seen := [];
      while it != null
        invariant |seen| <= |items| && seen == items[..|seen|] && it == At(items, |seen|)
        decreases |items| - |seen|
      {
        assert Tied(|seen|);
        seen := seen + [it];
        it := it.next;
      }
    }
  }

  lemma {:induction false} RemoveAt<T>(s: seq<T>, k: nat)
    requires NoDup(s) && k < |s|
    ensures Remove(s, s[k]) == s[..k] + s[k + 1..]
  {
    if k > 0 {
      assert s[0] != s[k] == s[1..][k - 1];
      RemoveAt(s[1..], k - 1);
    }
  }
}
