/** pthread_setschedprio and priority inheritance: when a new priority reaches everyone it concerns. */
module PriorityChange {
  import opened Seqs
  import opened Sched
  import opened Locks
  import opened Inherit
  import opened Kernel

  lemma OthersSettled(s: Sched, l: Locks, t: Tid, p: nat, v: Tid)
    requires Linked(s, l) && AllSettled(s, l) && t in s.task && v in s.task && v != t
    ensures Settled(WithPriority(s, t, p), l, v)
  {
    hide Valid, Consistent;
    assert Settled(s, l, v);
    StaysSettled(s, WithPriority(s, t, p), l, v);
  }

  /** The thread itself and those it does not wait for are settled once its priority has been recomputed. */
  lemma RecomputedSettled(s: Sched, l: Locks, t: Tid, p: nat, v: Tid)
    requires Linked(s, l) && AllSettled(s, l) && t in s.task && p <= PRIORITY_MAX && v in s.task && !WaitsFor(l, t, v)
    ensures Linked(WithPriority(s, t, p), l)
    ensures Settled(Recompute(WithPriority(s, t, p), l, t), l, v)
  {
    hide Valid, Consistent, Recompute, Settled;
    PriorityLinked(s, l, t, p);
    if v != t {
      OthersSettled(s, l, t, p, v);
    }
    RecomputeSettles(WithPriority(s, t, p), l, t, v);
  }

  /** A new priority equal to the effective one needs no recomputation. */
  lemma SameEffSettled(s: Sched, l: Locks, t: Tid)
    requires Linked(s, l) && AllSettled(s, l) && t in s.task
    ensures AllSettled(WithPriority(s, t, s.task[t].eff), l)
  {
    hide Valid, Consistent;
    var r := WithPriority(s, t, s.task[t].eff);
    forall v | v in s.task ensures Settled(r, l, v) {
      assert Settled(s, l, v);
      if v != t {
        OthersSettled(s, l, t, s.task[t].eff, v);
      }
    }
  }

  /** The priority of a thread outside the run queue is passed on: inheritance holds again for all threads. */
  lemma PrioritySettles(s: Sched, l: Locks, t: Tid, p: nat)
    requires Linked(s, l) && AllSettled(s, l) && t in s.task && p <= PRIORITY_MAX && !s.task[t].queued && (Propagates(s, l, t, p) ==> WalkEnds(l, t))
    ensures Linked(Repriority(s, l, t, p), l) && AllSettled(Repriority(s, l, t, p), l)
  {
    hide Valid, Consistent, Recompute, Spread, AllSettled, Inherited;
    PriorityLinked(s, l, t, p);
    var s0 := WithPriority(s, t, p);
    if s.task[t].eff == p {
      SameEffSettled(s, l, t);
    } else {
      RecomputeLinked(s0, l, t);
      if Propagates(s, l, t, p) {
        SpreadFromSettled(s, l, t, p, ChainLength(l, t));
      } else {
        if s.task[t].priority == p { SamePriority(s, l, t); }
        UnchangedSettled(s, l, t, p);
      }
    }
  }

  lemma SamePriority(s: Sched, l: Locks, t: Tid)
    requires Linked(s, l) && AllSettled(s, l) && t in s.task
    ensures WithPriority(s, t, s.task[t].priority) == s && Inherited(s, l, t) == s.task[t].eff
  {
    hide Valid, Consistent, Inherited;
    assert s.task[t := s.task[t].(priority := s.task[t].priority)] == s.task;
    InheritedIsHighest(s, l, t);
    assert Settled(s, l, t);
    HighestUnique(s, l, t, s.task[t].eff, Inherited(s, l, t));
  }

  lemma SpreadFromSettled(s: Sched, l: Locks, t: Tid, p: nat, n: nat)
    requires Linked(s, l) && AllSettled(s, l) && t in s.task && p <= PRIORITY_MAX && OwnedChain(l, t, n)
    ensures Linked(WithPriority(s, t, p), l) && Linked(Recompute(WithPriority(s, t, p), l, t), l)
    ensures AllSettled(Spread(Recompute(WithPriority(s, t, p), l, t), l, t, n), l)
  {
    hide Valid, Consistent, Recompute, Settled;
    PriorityLinked(s, l, t, p);
    var s0 := WithPriority(s, t, p);
    RecomputeLinked(s0, l, t);
    var s1 := Recompute(s0, l, t);
    forall v | v in s.task ensures Settled(Spread(s1, l, t, n), l, v) {
      SpreadSettles(s1, l, t, n, v);
      if !OnChain(l, t, n, v) {
        if WaitsFor(l, t, v) {
          ChainTail(l, t, n, t, v);
        } else {
          RecomputedSettled(s, l, t, p, v);
        }
      }
    }
  }

  /** If the recomputed priority is the old one, nobody else is concerned. */
  lemma UnchangedSettled(s: Sched, l: Locks, t: Tid, p: nat)
    requires Linked(s, l) && AllSettled(s, l) && t in s.task && p <= PRIORITY_MAX && Linked(WithPriority(s, t, p), l)
    requires Inherited(WithPriority(s, t, p), l, t) == s.task[t].eff
    ensures AllSettled(Recompute(WithPriority(s, t, p), l, t), l)
  {
    hide Valid, Consistent, Inherited;
    var s0 := WithPriority(s, t, p);
    InheritedIsHighest(s0, l, t);
    assert Recompute(s0, l, t) == s0;
    forall v | v in s.task ensures Settled(s0, l, v) {
      if v != t {
        OthersSettled(s, l, t, p, v);
      }
    }
  }

  /**
   Another thread, or its own priority, gives o its effective priority already, and t with the
   priority e would not exceed it; or t alone keeps it where it is.
   */
  ghost predicate Covered(s: Sched, l: Locks, t: Tid, e: nat, o: Tid)
    requires o in s.task && l.lk.Keys == s.task.Keys
  {
    || e == s.task[o].eff
    || (e < s.task[o].eff && (s.task[o].eff == s.task[o].priority || exists w :: w != t && WaitsFor(l, w, o) && s.task[w].eff == s.task[o].eff))
  }

  lemma OwnerSettledIff(s: Sched, l: Locks, t: Tid, p: nat, o: Tid)
    requires Linked(s, l) && AllSettled(s, l) && t in s.task && p <= PRIORITY_MAX && o in s.task && o != t && WaitsFor(l, t, o)
    requires Linked(WithPriority(s, t, p), l)
    ensures Settled(Recompute(WithPriority(s, t, p), l, t), l, o) <==> Covered(s, l, t, Inherited(WithPriority(s, t, p), l, t), o)
  {
    hide Linked, Recompute, Inherited, Settled, Covered, WaitsFor;
    var s0 := WithPriority(s, t, p);
    RecomputeLinked(s0, l, t);
    KeysAgree(s, l);
    CoveredIff(s, Recompute(s0, l, t), l, t, o);
  }

  lemma CoveredIff(s: Sched, r: Sched, l: Locks, t: Tid, o: Tid)
    requires l.lk.Keys == s.task.Keys == r.task.Keys && t in s.task && o in s.task && o != t && WaitsFor(l, t, o) && Settled(s, l, o)
    requires forall u :: u in s.task && u != t ==> r.task[u].eff == s.task[u].eff && r.task[u].priority == s.task[u].priority
    ensures Settled(r, l, o) <==> Covered(s, l, t, r.task[t].eff, o)
  {
    assert forall w :: WaitsFor(l, w, o) ==> w in s.task;
    if Settled(r, l, o) && r.task[t].eff != s.task[o].eff && s.task[o].eff != s.task[o].priority {
      var w :| WaitsFor(l, w, o) && r.task[w].eff == r.task[o].eff;
      assert w != t && s.task[w].eff == s.task[o].eff;
    }
    if Covered(s, l, t, r.task[t].eff, o) && r.task[t].eff != s.task[o].eff && s.task[o].eff != s.task[o].priority {
      var w :| w != t && WaitsFor(l, w, o) && s.task[w].eff == s.task[o].eff;
      assert r.task[w].eff == r.task[o].eff;
    }
  }

  /**
   A thread in the run queue gets its new priority without passing it on.  If it was woken at a
   mutex that someone else has taken since, inheritance survives exactly when the owner does not depend on it.
   */
  lemma QueuedPriorityIff(s: Sched, l: Locks, t: Tid, p: nat)
    requires Linked(s, l) && AllSettled(s, l) && t in s.task && p <= PRIORITY_MAX && s.task[t].queued && s.task[t].eff != p && !WaitsFor(l, t, t)
    ensures Linked(WithPriority(s, t, p), l) && Linked(Repriority(s, l, t, p), l)
    ensures AllSettled(Repriority(s, l, t, p), l) <==>
              forall o :: o in s.task && WaitsFor(l, t, o) ==> Covered(s, l, t, Inherited(WithPriority(s, t, p), l, t), o)
  {
    hide Valid, Consistent, Recompute, Settled, Covered, Inherited;
    PriorityLinked(s, l, t, p);
    var s0 := WithPriority(s, t, p);
    RecomputeLinked(s0, l, t);
    var r := Recompute(s0, l, t);
    assert Repriority(s, l, t, p) == r;
    forall v | v in s.task
      ensures WaitsFor(l, t, v) ==> (Settled(r, l, v) <==> Covered(s, l, t, Inherited(s0, l, t), v))
      ensures !WaitsFor(l, t, v) ==> Settled(r, l, v)
    {
      if WaitsFor(l, t, v) {
        OwnerSettledIff(s, l, t, p, v);
      } else {
        RecomputedSettled(s, l, t, p, v);
      }
    }
  }
}
