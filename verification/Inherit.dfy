/**
 Transitive priority inheritance.  A thread runs at the highest of its own priority and
 the effective priorities of the threads that wait for its mutexes; queueing on a held
 mutex walks the sleep_on/owner chain to restore that.
 */
module Inherit {
  import opened Seqs
  import opened Sched
  import opened Locks

  ghost predicate Linked(s: Sched, l: Locks) {
    && Valid(s) && Consistent(l) && l.lk.Keys == s.task.Keys
    && forall t :: t in s.task ==> s.task[t].priority <= PRIORITY_MAX
  }

  /** The inner loop of __pthread_setschedprio: the highest effective priority in one wait queue, or the floor. */
  function MaxEff(task: map<Tid, Task>, ws: seq<Tid>, floor: nat): nat
    requires forall w :: w in ws ==> w in task
  {
    if ws == [] then floor
    else MaxEff(task, ws[1..], if task[ws[0]].eff > floor then task[ws[0]].eff else floor)
  }

  /** The outer loop, over the mutexes a thread owns. */
  function MaxHeld(task: map<Tid, Task>, mx: map<Mid, Mutex>, ms: seq<Mid>, floor: nat): nat
    requires forall m :: m in ms ==> m in mx && forall w :: w in mx[m].wq ==> w in task
  {
    if ms == [] then floor else MaxHeld(task, mx, ms[1..], MaxEff(task, mx[ms[0]].wq, floor))
  }

  lemma Reachable(s: Sched, l: Locks, t: Tid)
    requires Linked(s, l) && t in s.task
    ensures forall m :: m in l.lk[t].held ==> m in l.mx && forall w :: w in l.mx[m].wq ==> w in s.task
  {
    assert ThreadOk(l, t);
    forall m | m in l.lk[t].held ensures m in l.mx && forall w :: w in l.mx[m].wq ==> w in s.task {
      assert MutexOk(l, m);
    }
  }

  /** The priority __pthread_setschedprio computes. */
  function Inherited(s: Sched, l: Locks, t: Tid): nat
    requires Linked(s, l) && t in s.task
  {
    Reachable(s, l, t);
    MaxHeld(s.task, l.mx, l.lk[t].held, s.task[t].priority)
  }

  /** t waits for a mutex that u owns. */
  ghost predicate WaitsFor(l: Locks, t: Tid, u: Tid) {
    && t in l.lk && l.lk[t].sleepOn.Some? && l.lk[t].sleepOn.value in l.mx
    && l.mx[l.lk[t].sleepOn.value].owner == Some(u)
  }

  /** v is the highest of t's own priority and of the effective priorities of those who wait for t. */
  ghost predicate IsHighest(s: Sched, l: Locks, t: Tid, v: nat)
    requires t in s.task && l.lk.Keys == s.task.Keys
  {
    && s.task[t].priority <= v
    && (forall w :: WaitsFor(l, w, t) ==> s.task[w].eff <= v)
    && (v == s.task[t].priority || exists w :: WaitsFor(l, w, t) && s.task[w].eff == v)
  }

  lemma {:induction false} MaxEffIsMax(task: map<Tid, Task>, ws: seq<Tid>, floor: nat)
    requires forall w :: w in ws ==> w in task
    ensures floor <= MaxEff(task, ws, floor)
    ensures forall w :: w in ws ==> task[w].eff <= MaxEff(task, ws, floor)
    ensures MaxEff(task, ws, floor) == floor || exists w :: w in ws && task[w].eff == MaxEff(task, ws, floor)
  {
    if ws != [] {
      MaxEffIsMax(task, ws[1..], if task[ws[0]].eff > floor then task[ws[0]].eff else floor);
    }
  }

  lemma {:induction false} MaxHeldIsMax(task: map<Tid, Task>, mx: map<Mid, Mutex>, ms: seq<Mid>, floor: nat)
    requires forall m :: m in ms ==> m in mx && forall w :: w in mx[m].wq ==> w in task
    ensures var v := MaxHeld(task, mx, ms, floor);
            && floor <= v
            && (forall m, w :: m in ms && w in mx[m].wq ==> task[w].eff <= v)
            && (v == floor || exists m, w :: m in ms && w in mx[m].wq && task[w].eff == v)
  {
    if ms != [] {
      MaxEffIsMax(task, mx[ms[0]].wq, floor);
      MaxHeldIsMax(task, mx, ms[1..], MaxEff(task, mx[ms[0]].wq, floor));
    }
  }

  lemma WaitersOf(s: Sched, l: Locks, t: Tid, w: Tid)
    requires Linked(s, l) && t in s.task
    ensures WaitsFor(l, w, t) <==> exists m :: m in l.lk[t].held && m in l.mx && w in l.mx[m].wq
  {
    assert ThreadOk(l, t);
    if WaitsFor(l, w, t) {
      var m := l.lk[w].sleepOn.value;
      assert MutexOk(l, m);
    }
    if m :| m in l.lk[t].held && m in l.mx && w in l.mx[m].wq {
      assert MutexOk(l, m);
    }
  }

  /** The two nested loops compute the highest priority that t has or inherits. */
  lemma InheritedIsHighest(s: Sched, l: Locks, t: Tid)
    requires Linked(s, l) && t in s.task
    ensures IsHighest(s, l, t, Inherited(s, l, t)) && Inherited(s, l, t) <= PRIORITY_MAX
  {
    Reachable(s, l, t);
    MaxHeldIsMax(s.task, l.mx, l.lk[t].held, s.task[t].priority);
    forall w ensures WaitsFor(l, w, t) <==> exists m :: m in l.lk[t].held && m in l.mx && w in l.mx[m].wq {
      WaitersOf(s, l, t, w);
    }
  }

  lemma KeysAgree(s: Sched, l: Locks)
    requires Linked(s, l)
    ensures l.lk.Keys == s.task.Keys
  {}

  lemma HighestUnique(s: Sched, l: Locks, t: Tid, v: nat, v': nat)
    requires t in s.task && l.lk.Keys == s.task.Keys && IsHighest(s, l, t, v) && IsHighest(s, l, t, v')
    ensures v == v'
  {}

  ghost predicate Settled(s: Sched, l: Locks, t: Tid)
    requires t in s.task && l.lk.Keys == s.task.Keys
  {
    IsHighest(s, l, t, s.task[t].eff)
  }

  /** Priority inheritance holds everywhere. */
  ghost predicate AllSettled(s: Sched, l: Locks)
    requires l.lk.Keys == s.task.Keys
  {
    forall t :: t in s.task ==> Settled(s, l, t)
  }

  // ---- the chain ----

  /** From t the sleep_on/owner links lead through owned mutexes, over n of them, to a thread that waits for none. */
  ghost predicate OwnedChain(l: Locks, t: Tid, n: nat)
    decreases n
  {
    && t in l.lk
    && match l.lk[t].sleepOn
       case None => n == 0
       case Some(m) => m in l.mx && l.mx[m].owner.Some? && n > 0 && OwnedChain(l, l.mx[m].owner.value, n - 1)
  }

  function Next(l: Locks, t: Tid): Tid
    requires t in l.lk && l.lk[t].sleepOn.Some? && l.lk[t].sleepOn.value in l.mx
    requires l.mx[l.lk[t].sleepOn.value].owner.Some?
  {
    l.mx[l.lk[t].sleepOn.value].owner.value
  }

  /** u comes after t on the chain. */
  ghost predicate OnChain(l: Locks, t: Tid, n: nat, u: Tid)
    requires OwnedChain(l, t, n)
    decreases n
  {
    n > 0 && (u == Next(l, t) || OnChain(l, Next(l, t), n - 1, u))
  }

  /** One recomputation, without propagation. */
  function Recompute(s: Sched, l: Locks, t: Tid): Sched
    requires Linked(s, l) && t in s.task
  {
    InheritedIsHighest(s, l, t);
    SetEff(s, t, Inherited(s, l, t))
  }

  lemma RecomputeLinked(s: Sched, l: Locks, t: Tid)
    requires Linked(s, l) && t in s.task
    ensures Linked(Recompute(s, l, t), l)
    ensures Recompute(s, l, t).cur == s.cur && Recompute(s, l, t).task.Keys == s.task.Keys
    ensures forall u :: u in s.task ==> SameButSlice(s.task[u].(eff := if u == t then Inherited(s, l, t) else s.task[u].eff), Recompute(s, l, t).task[u])
  {
    InheritedIsHighest(s, l, t);
    SetEffValid(s, t, Inherited(s, l, t));
  }

  /** Propagation as one pass along the chain. */
  function Spread(s: Sched, l: Locks, t: Tid, n: nat): (r: Sched)
    requires Linked(s, l) && OwnedChain(l, t, n)
    ensures Linked(r, l)
    decreases n
  {
    hide Recompute, Valid, Consistent;
    if n == 0 then s
    else
      var u := Next(l, t);
      assert OwnedChain(l, u, n - 1);
      RecomputeLinked(s, l, u);
      Spread(Recompute(s, l, u), l, u, n - 1)
  }

  // ---- propagation restores inheritance ----

  /** The chain of a thread has one length, so it never comes back to where it was. */
  lemma {:induction false} NeverBack(l: Locks, t: Tid, n: nat, u: Tid, k: nat)
    requires OwnedChain(l, t, n) && OnChain(l, t, n, u) && OwnedChain(l, u, k)
    ensures k < n
    decreases n
  {
    if u == Next(l, t) {
      OneLength(l, u, n - 1, k);
    } else {
      NeverBack(l, Next(l, t), n - 1, u, k);
    }
  }

  lemma {:induction false} OneLength(l: Locks, t: Tid, n: nat, k: nat)
    requires OwnedChain(l, t, n) && OwnedChain(l, t, k)
    ensures n == k
    decreases n
  {
    if n > 0 {
      OneLength(l, Next(l, t), n - 1, k - 1);
    }
  }

  lemma {:induction false} ChainTail(l: Locks, t: Tid, n: nat, w: Tid, v: Tid)
    requires OwnedChain(l, t, n) && (w == t || OnChain(l, t, n, w)) && WaitsFor(l, w, v)
    ensures OnChain(l, t, n, v)
    decreases n
  {
    if w != t {
      ChainTail(l, Next(l, t), n - 1, w, v);
    }
  }

  /** A thread stays settled while its priority and the priorities of those who wait for it stay. */
  lemma StaysSettled(s: Sched, s': Sched, l: Locks, v: Tid)
    requires l.lk.Keys == s.task.Keys == s'.task.Keys && v in s.task && Settled(s, l, v)
    requires s'.task[v].priority == s.task[v].priority && s'.task[v].eff == s.task[v].eff
    requires forall w :: WaitsFor(l, w, v) ==> s'.task[w].eff == s.task[w].eff
    ensures Settled(s', l, v)
  {
    if w :| WaitsFor(l, w, v) && s.task[w].eff == s.task[v].eff {
      assert s'.task[w].eff == s'.task[v].eff;
    }
  }

  /** Recomputing a thread that does not wait for itself settles it and disturbs only the one it waits for. */
  lemma RecomputeSettles(s: Sched, l: Locks, u: Tid, v: Tid)
    requires Linked(s, l) && u in s.task && v in s.task && !WaitsFor(l, u, v)
    ensures v == u || Settled(s, l, v) ==> Settled(Recompute(s, l, u), l, v)
  {
    hide Recompute, Valid, Consistent, Inherited;
    RecomputeLinked(s, l, u);
    InheritedIsHighest(s, l, u);
    var r := Recompute(s, l, u);
    assert forall w :: WaitsFor(l, w, v) ==> w != u && r.task[w].eff == s.task[w].eff;
    if v == u {
      var p := Inherited(s, l, u);
      assert r.task[u].eff == p;
      if w :| WaitsFor(l, w, u) && s.task[w].eff == p {
        assert r.task[w].eff == p;
      }
    } else if Settled(s, l, v) {
      StaysSettled(s, r, l, v);
    }
  }

  /**
   The walk settles every thread on the chain, leaves the effective priority of every other
   thread alone, and keeps settled whoever was.
   */
  lemma {:induction false} SpreadSettles(s: Sched, l: Locks, t: Tid, n: nat, v: Tid)
    requires Linked(s, l) && OwnedChain(l, t, n) && v in s.task
    ensures OnChain(l, t, n, v) ==> Settled(Spread(s, l, t, n), l, v)
    ensures !OnChain(l, t, n, v) ==> Spread(s, l, t, n).task[v].eff == s.task[v].eff
    ensures !OnChain(l, t, n, v) && Settled(s, l, v) ==> Settled(Spread(s, l, t, n), l, v)
    decreases n
  {
    hide Recompute, Valid, Consistent, Settled;
    if n > 0 {
      var u := Next(l, t);
      assert OwnedChain(l, u, n - 1);
      RecomputeLinked(s, l, u);
      SpreadSettles(Recompute(s, l, u), l, u, n - 1, v);
      if WaitsFor(l, u, v) {
        ChainTail(l, u, n - 1, u, v);
        if v == u {
          NeverBack(l, u, n - 1, u, n - 1);
        }
      } else {
        RecomputeSettles(s, l, u, v);
      }
      if v == u && OnChain(l, u, n - 1, u) {
        NeverBack(l, u, n - 1, u, n - 1);
      }
    }
  }

  /** Once everyone on the chain is settled, walking it again changes nothing. */
  lemma {:induction false} SpreadAgain(s: Sched, l: Locks, t: Tid, n: nat)
    requires Linked(s, l) && OwnedChain(l, t, n)
    requires forall v :: v in s.task && OnChain(l, t, n, v) ==> Settled(s, l, v)
    ensures Spread(s, l, t, n) == s
    decreases n
  {
    if n > 0 {
      var u := Next(l, t);
      InheritedIsHighest(s, l, u);
      HighestUnique(s, l, u, s.task[u].eff, Inherited(s, l, u));
      assert Recompute(s, l, u) == s;
      SpreadAgain(s, l, u, n - 1);
    }
  }

  /**
   Priority inheritance is restored when a thread queues on a held mutex: if it held for all
   threads before, then after the walk along an owned chain it holds for all threads again, and
   only threads on the chain have a new effective priority.
   */
  lemma QueueingSettles(s: Sched, l: Locks, c: Tid, m: Mid, n: nat)
    requires Linked(s, l) && c in s.task && m in l.mx && l.lk[c].sleepOn == None && AllSettled(s, l)
    requires Linked(s, Join(l, c, m)) && OwnedChain(Join(l, c, m), c, n)
    ensures AllSettled(Spread(s, Join(l, c, m), c, n), Join(l, c, m))
    ensures forall v :: v in s.task && !OnChain(Join(l, c, m), c, n, v) ==>
      Spread(s, Join(l, c, m), c, n).task[v].eff == s.task[v].eff
  {
    hide Valid, Consistent, Spread;
    var l1 := Join(l, c, m);
    forall v | v in s.task
      ensures Settled(Spread(s, l1, c, n), l1, v)
      ensures !OnChain(l1, c, n, v) ==> Spread(s, l1, c, n).task[v].eff == s.task[v].eff
    {
      SpreadSettles(s, l1, c, n, v);
      if !OnChain(l1, c, n, v) {
        assert forall w :: WaitsFor(l1, w, v) <==> WaitsFor(l, w, v);
        assert Settled(s, l, v);
      }
    }
  }

  // ---- what propagation leaves alone ----

  /** Only effective priorities, and the slices of threads that moved, differ. */
  ghost predicate Repriced(s: Sched, s': Sched) {
    && s'.cur == s.cur && s'.task.Keys == s.task.Keys
    && forall t :: t in s.task ==>
         var a, b := s.task[t], s'.task[t];
         a.priority == b.priority && a.state == b.state && a.queued == b.queued && (b.slice == a.slice || b.slice == TIMESLICE)
  }

  lemma RepricedStable(s: Sched, s': Sched)
    requires Stable(s) && Valid(s') && Repriced(s, s')
    ensures Stable(s')
  {
    hide Valid;
  }

  lemma RecomputeRepriced(s: Sched, l: Locks, t: Tid)
    requires Linked(s, l) && t in s.task
    ensures Repriced(s, Recompute(s, l, t))
  {
    InheritedIsHighest(s, l, t);
  }

  lemma {:induction false} SpreadRepriced(s: Sched, l: Locks, t: Tid, n: nat)
    requires Linked(s, l) && OwnedChain(l, t, n)
    ensures Repriced(s, Spread(s, l, t, n))
    decreases n
  {
    hide Recompute, Valid, Consistent;
    if n > 0 {
      var u := Next(l, t);
      assert OwnedChain(l, u, n - 1);
      RecomputeLinked(s, l, u);
      RecomputeRepriced(s, l, u);
      SpreadRepriced(Recompute(s, l, u), l, u, n - 1);
    }
  }

  // ---- when the other operations keep inheritance ----

  lemma AcquireWaits(l: Locks, c: Tid, m: Mid, w: Tid, v: Tid)
    requires Consistent(l) && c in l.lk && m in l.mx && l.mx[m].lock == 1
    ensures WaitsFor(Acquire(l, c, m), w, v) <==> WaitsFor(l, w, v) || (v == c && w in l.mx[m].wq)
  {
    assert MutexOk(l, m);
  }

  lemma GrabWaits(l: Locks, c: Tid, m: Mid, w: Tid, v: Tid)
    requires Consistent(l) && c in l.lk && m in l.mx && l.mx[m].lock == 1 && l.lk[c].sleepOn == Some(m)
    ensures v != c ==> (WaitsFor(Grab(l, c, m), w, v) <==> WaitsFor(l, w, v))
  {
    assert MutexOk(l, m);
  }

  /**
   Taking a free mutex does not recompute the taker's priority, so inheritance survives it
   exactly when no thread still queued there has a higher priority than the taker.
   */
  lemma AcquireSettledIff(s: Sched, l: Locks, c: Tid, m: Mid)
    requires Linked(s, l) && AllSettled(s, l) && c in s.task && m in l.mx && l.mx[m].lock == 1
    requires forall w :: w in l.mx[m].wq ==> w in s.task
    ensures AllSettled(s, Acquire(l, c, m)) <==> forall w :: w in l.mx[m].wq ==> s.task[w].eff <= s.task[c].eff
  {
    hide Valid, Consistent, WaitsFor;
    var r := Acquire(l, c, m);
    forall w, v ensures WaitsFor(r, w, v) <==> WaitsFor(l, w, v) || (v == c && w in l.mx[m].wq) {
      AcquireWaits(l, c, m, w, v);
    }
    assert Settled(s, l, c);
    forall v | v in s.task && v != c ensures Settled(s, r, v) {
      assert Settled(s, l, v);
    }
    if forall w :: w in l.mx[m].wq ==> s.task[w].eff <= s.task[c].eff {
      assert Settled(s, r, c);
    } else {
      assert !Settled(s, r, c);
    }
  }

  /** The last unlock recomputes the priority of the thread that gives the mutex up. */
  lemma ReleaseSettles(s: Sched, l: Locks, c: Tid, m: Mid)
    requires Linked(s, l) && AllSettled(s, l) && c in s.task && m in l.mx && l.mx[m].owner == Some(c)
    requires l.lk[c].sleepOn == None && Linked(s, Release(l, c, m))
    ensures AllSettled(Recompute(s, Release(l, c, m), c), Release(l, c, m))
  {
    hide Valid, Consistent, Recompute;
    var r := Release(l, c, m);
    RecomputeLinked(s, r, c);
    forall v | v in s.task ensures Settled(Recompute(s, r, c), r, v) {
      assert forall w :: v != c ==> (WaitsFor(l, w, v) <==> WaitsFor(r, w, v));
      assert Settled(s, l, v);
      RecomputeSettles(s, r, c, v);
    }
  }

  /** So does the lock call of a waiter that finds the mutex free. */
  lemma GrabSettles(s: Sched, l: Locks, c: Tid, m: Mid)
    requires Linked(s, l) && AllSettled(s, l) && c in s.task && m in l.mx && l.mx[m].lock == 1
    requires l.lk[c].sleepOn == Some(m) && Linked(s, Grab(l, c, m))
    ensures AllSettled(Recompute(s, Grab(l, c, m), c), Grab(l, c, m))
  {
    hide Valid, Recompute, Consistent;
    var r := Grab(l, c, m);
    RecomputeLinked(s, r, c);
    forall v | v in s.task ensures Settled(Recompute(s, r, c), r, v) {
      forall w ensures v != c ==> (WaitsFor(l, w, v) <==> WaitsFor(r, w, v)) {
        GrabWaits(l, c, m, w, v);
      }
      assert Settled(s, l, v);
      RecomputeSettles(s, r, c, v);
    }
  }
}
