/** Priority inheritance and strict priority over whole runs: exactly which steps break the one, and what the other needs. */
module Settling {
  import opened Seqs
  import opened Sched
  import opened Locks
  import opened Inherit
  import opened Kernel
  import opened Preservation
  import opened Runs
  import opened PriorityChange

  lemma SameSettled(s: Sched, l: Locks, s': Sched, l': Locks)
    requires l.lk.Keys == s.task.Keys == s'.task.Keys == l'.lk.Keys
    requires forall t :: t in s.task ==> s'.task[t].priority == s.task[t].priority && s'.task[t].eff == s.task[t].eff
    requires forall w, v :: WaitsFor(l', w, v) <==> WaitsFor(l, w, v)
    ensures AllSettled(s', l') <==> AllSettled(s, l)
  {
    hide WaitsFor;
    forall v | v in s.task ensures Settled(s', l', v) <==> Settled(s, l, v) {
      SameSettledOne(s, l, s', l', v);
    }
  }

  lemma SameSettledOne(s: Sched, l: Locks, s': Sched, l': Locks, v: Tid)
    requires l.lk.Keys == s.task.Keys == s'.task.Keys == l'.lk.Keys && v in s.task
    requires forall t :: t in s.task ==> s'.task[t].priority == s.task[t].priority && s'.task[t].eff == s.task[t].eff
    requires forall w, v :: WaitsFor(l', w, v) <==> WaitsFor(l, w, v)
    ensures Settled(s', l', v) <==> Settled(s, l, v)
  {
    assert forall w :: WaitsFor(l, w, v) ==> w in s.task;
    hide WaitsFor;
    forall w | WaitsFor(l, w, v) ensures s'.task[w].eff == s.task[w].eff && WaitsFor(l', w, v) {}
  }

  /** Only lock values, counts and places in calls differ. */
  lemma SameWaits(l: Locks, l': Locks)
    requires l'.lk.Keys == l.lk.Keys && l'.mx.Keys == l.mx.Keys
    requires forall t :: t in l.lk ==> l'.lk[t].sleepOn == l.lk[t].sleepOn
    requires forall m :: m in l.mx ==> l'.mx[m].owner == l.mx[m].owner
    ensures forall w, v :: WaitsFor(l', w, v) <==> WaitsFor(l, w, v)
  {}

  // ---- the guard ----

  /** The free mutex that a step takes without having waited for it. */
  function Taken(k: Kernel, e: Event): Option<Mid> {
    match e
    case Lock(m) => if m in k.locks.mx && k.locks.mx[m].lock == 1 then Some(m) else None
    case TryLock(m) => if m in k.locks.mx && k.locks.mx[m].lock == 1 then Some(m) else None
    case Resume =>
      if k.sched.cur in k.locks.lk && k.locks.lk[k.sched.cur].sleepOn == None && k.locks.lk[k.sched.cur].pc.InSchedule?
         && k.locks.lk[k.sched.cur].pc.mutex in k.locks.mx && k.locks.mx[k.locks.lk[k.sched.cur].pc.mutex].lock == 1
      then Some(k.locks.lk[k.sched.cur].pc.mutex) else None
    case _ => None
  }

  /** Nobody queued on the mutex has a higher effective priority than the running thread. */
  predicate TakesFairly(k: Kernel, m: Mid)
    requires m in k.locks.mx
  {
    k.sched.cur in k.sched.task && forall w :: w in k.locks.mx[m].wq && w in k.sched.task ==> k.sched.task[w].eff <= k.sched.task[k.sched.cur].eff
  }

  /** A new priority for a thread in the run queue does not matter to the owner of a mutex that the thread still waits for. */
  ghost predicate ChangesAlone(s: Sched, l: Locks, t: Tid, p: nat)
    requires Linked(s, l) && t in s.task && p <= PRIORITY_MAX
  {
    PriorityLinked(s, l, t, p);
    s.task[t].priority != p && s.task[t].eff != p && s.task[t].queued ==>
      forall o :: o in s.task && WaitsFor(l, t, o) ==> Covered(s, l, t, Inherited(WithPriority(s, t, p), l, t), o)
  }

  /** What decides whether a step keeps priority inheritance. */
  ghost predicate Heeds(k: Kernel, e: Event)
    requires Linked(k.sched, k.locks)
  {
    && (Taken(k, e).Some? ==> TakesFairly(k, Taken(k, e).value))
    && (e.SetPriority? && e.t in k.sched.task && e.p <= PRIORITY_MAX ==> ChangesAlone(k.sched, k.locks, e.t, e.p))
  }

  /** Priority inheritance holds for all threads. */
  ghost predicate Inherits(k: Kernel) {
    k.locks.lk.Keys == k.sched.task.Keys && AllSettled(k.sched, k.locks)
  }

  lemma AcquireHeeds(k: Kernel, m: Mid)
    requires Calm(k) && Inherits(k) && m in k.locks.mx && k.locks.mx[m].lock == 1
    ensures Inherits(k.(locks := Acquire(k.locks, k.sched.cur, m))) <==> TakesFairly(k, m)
  {
    hide Stable, Valid, Consistent, AllSettled;
    RunningNow(k);
    WaitersInTask(k.sched, k.locks, m);
    AcquireSettledIff(k.sched, k.locks, k.sched.cur, m);
  }

  lemma AgainHeeds(k: Kernel, m: Mid)
    requires Inherits(k) && m in k.locks.mx
    ensures Inherits(k.(locks := Again(k.locks, m))) && Inherits(k.(locks := Drop(k.locks, m)))
  {
    hide AllSettled, WaitsFor;
    SameWaits(k.locks, Again(k.locks, m));
    SameWaits(k.locks, Drop(k.locks, m));
    SameSettled(k.sched, k.locks, k.sched, Again(k.locks, m));
    SameSettled(k.sched, k.locks, k.sched, Drop(k.locks, m));
  }

  lemma QueueHeeds(k: Kernel, m: Mid)
    requires Calm(k) && Inherits(k) && Me(k) && m in k.locks.mx && WalkEnds(Join(k.locks, k.sched.cur, m), k.sched.cur)
    ensures Inherits(Queue(k, m))
  {
    hide Stable, Valid, Consistent, AllSettled, GiveUp, Spread, WaitsFor;
    RunningNow(k);
    var me := k.sched.cur;
    var l := Join(k.locks, me, m);
    JoinOk(k.locks, me, m);
    var n := ChainLength(l, me);
    QueueingSettles(k.sched, k.locks, me, m, n);
    WalkedStable(k.sched, k.locks, m);
    var s1 := Walked(k.sched, k.locks, m);
    GiveUpStable(s1, Sleeping);
    SameWaits(l, Contend(l, m));
    SameSettled(s1, l, GiveUp(s1, Sleeping), Contend(l, m));
  }

  lemma LockHeeds(k: Kernel, m: Mid)
    requires Calm(k) && Inherits(k) && Me(k) && m in k.locks.mx
    requires MustWait(k, m) ==> WalkEnds(Join(k.locks, k.sched.cur, m), k.sched.cur)
    ensures Inherits(LockCall(k, m)) <==> (k.locks.mx[m].lock == 1 ==> TakesFairly(k, m))
  {
    hide Calm, Inherits, Queue, Acquire, Again, WalkEnds, TakesFairly;
    if k.locks.mx[m].lock == 1 {
      AcquireHeeds(k, m);
    } else if MustWait(k, m) {
      QueueHeeds(k, m);
    } else {
      AgainHeeds(k, m);
    }
  }

  /** The last unlock before the switch. */
  lemma HandOverHeeds(s: Sched, l: Locks, m: Mid)
    requires Stable(s) && Linked(s, l) && AllSettled(s, l) && m in l.mx && l.mx[m].owner == Some(s.cur) && s.cur in s.task && l.lk[s.cur].sleepOn == None
    ensures HandOver(s, l, m).task.Keys == s.task.Keys == Release(l, s.cur, m).lk.Keys
    ensures AllSettled(HandOver(s, l, m), Release(l, s.cur, m))
  {
    hide Stable, Valid, Consistent, AllSettled, Recompute, SetRunning, Best, WaitsFor;
    WaitersInTask(s, l, m);
    ReleaseOk(l, s.cur, m);
    var l1 := Release(l, s.cur, m);
    ReleaseSettles(s, l, s.cur, m);
    RecomputeLinked(s, l1, s.cur);
    RecomputeRepriced(s, l1, s.cur);
    var r := Recompute(s, l1, s.cur);
    RepricedStable(s, r);
    var t := Target(s, l.mx[m]);
    if t.Some? {
      SetRunningOk(r, t.value);
      SameSettled(r, l1, SetRunning(r, t.value), l1);
    }
  }

  lemma UnlockHeeds(k: Kernel, m: Mid)
    requires Calm(k) && Inherits(k) && Me(k) && m in k.locks.mx && k.locks.mx[m].owner == Some(k.sched.cur)
    ensures Inherits(UnlockCall(k, m))
  {
    hide Stable, Valid, Consistent, AllSettled, HandOver, Reschedule, WaitsFor, Release;
    RunningNow(k);
    if k.locks.mx[m].count > 1 {
      AgainHeeds(k, m);
    } else {
      WaitersInTask(k.sched, k.locks, m);
      HandOverHeeds(k.sched, k.locks, m);
      HandOverStable(k.sched, k.locks, m);
      var s1 := HandOver(k.sched, k.locks, m);
      StableBeforeSwitch(s1);
      RescheduleStable(s1);
      SameSettled(s1, Release(k.locks, k.sched.cur, m), Reschedule(s1), Release(k.locks, k.sched.cur, m));
    }
  }

  /** A step that changes no priority and no wait. */
  lemma SameHeeds(k: Kernel, k': Kernel)
    requires Inherits(k) && k'.sched.task.Keys == k.sched.task.Keys
    requires forall t :: t in k.sched.task ==> k'.sched.task[t].priority == k.sched.task[t].priority && k'.sched.task[t].eff == k.sched.task[t].eff
    requires k'.locks.lk.Keys == k.locks.lk.Keys && k'.locks.mx.Keys == k.locks.mx.Keys
    requires forall t :: t in k.locks.lk ==> k'.locks.lk[t].sleepOn == k.locks.lk[t].sleepOn
    requires forall m :: m in k.locks.mx ==> k'.locks.mx[m].owner == k.locks.mx[m].owner
    ensures Inherits(k')
  {
    hide AllSettled, WaitsFor;
    SameWaits(k.locks, k'.locks);
    SameSettled(k.sched, k.locks, k'.sched, k'.locks);
  }

  lemma CondWaitHeeds(k: Kernel, c: Cid, m: Mid)
    requires Calm(k) && Inherits(k) && Me(k) && m in k.locks.mx && k.locks.mx[m].owner == Some(k.sched.cur) && c in k.cv
    ensures Inherits(CondWaitCall(k, c, m))
  {
    hide Stable, Valid, Consistent, AllSettled, HandOver, GiveUp, WaitsFor;
    RunningNow(k);
    WaitersInTask(k.sched, k.locks, m);
    var k' := CondWaitCall(k, c, m);
    if k.locks.mx[m].count > 1 {
      GiveUpStable(k.sched, Sleeping);
      SameHeeds(k, k');
    } else {
      HandOverHeeds(k.sched, k.locks, m);
      HandOverStable(k.sched, k.locks, m);
      var s1 := HandOver(k.sched, k.locks, m);
      GiveUpStable(s1, Sleeping);
      SameHeeds(Kernel(s1, Release(k.locks, k.sched.cur, m), k.cv), k');
    }
  }

  lemma SignalHeeds(k: Kernel, c: Cid)
    requires Calm(k) && Inherits(k) && c in k.cv && forall w :: w in k.cv[c] ==> w in k.sched.task
    ensures Inherits(SignalCall(k, c)) && Inherits(BroadcastCall(k, c))
  {
    hide Stable, Linked, AllSettled, WakeUp, Best, WakeAll, Reschedule;
    var t := Best(k.sched.task, k.cv[c]);
    if t.Some? {
      WakeUpStable(k.sched, t.value);
      SameHeeds(k, SignalCall(k, c));
    }
    if k.cv[c] != [] {
      var s1 := WakeAll(k.sched, k.cv[c]);
      StableBeforeSwitch(s1);
      RescheduleStable(s1);
      SameHeeds(k, BroadcastCall(k, c));
    }
  }

  lemma RetryHeeds(k: Kernel, m: Mid)
    requires Calm(k) && Inherits(k) && k.sched.cur != IDLE && m in k.locks.mx && k.sched.cur in k.locks.lk && k.locks.lk[k.sched.cur].sleepOn == Some(m)
    ensures Inherits(Retry(k, m))
  {
    hide Stable, Valid, Consistent, AllSettled, Recompute, GiveUp, WaitsFor;
    RunningNow(k);
    if k.locks.mx[m].lock == 1 {
      GrabLinked(k.sched, k.locks, m);
      GrabSettles(k.sched, k.locks, k.sched.cur, m);
    } else {
      GiveUpStable(k.sched, Sleeping);
      SameHeeds(k, Retry(k, m));
    }
  }

  lemma FinishHeeds(k: Kernel, t: Tid, c: Cid)
    requires t in k.locks.lk && c in k.cv && k.locks.lk.Keys == k.sched.task.Keys
    ensures Inherits(FinishWait(k, t, c)) <==> Inherits(k)
  {
    hide AllSettled, WaitsFor;
    SameWaits(k.locks, FinishWait(k, t, c).locks);
    SameSettled(k.sched, k.locks, k.sched, FinishWait(k, t, c).locks);
  }

  lemma PcHeeds(k: Kernel, t: Tid, pc: Pc)
    requires t in k.locks.lk && k.locks.lk.Keys == k.sched.task.Keys
    ensures Inherits(k.(locks := SetPc(k.locks, t, pc))) <==> Inherits(k)
  {
    hide AllSettled, WaitsFor;
    SameWaits(k.locks, SetPc(k.locks, t, pc));
    SameSettled(k.sched, k.locks, k.sched, SetPc(k.locks, t, pc));
  }

  lemma ResumeHeeds(k: Kernel)
    requires Possible(k, Resume) && Inherits(k)
    ensures Inherits(Step(k, Resume)) <==> (Taken(k, Resume).Some? ==> TakesFairly(k, Taken(k, Resume).value))
  {
    hide Stable, Linked, NoLostWakeup, CondOk, Unlocked, AllSettled, LockCall, Retry, Reschedule, TakesFairly, FinishWait, SetPc;
    ResumePoint(k);
    var me := k.sched.cur;
    var x := k.locks.lk[me];
    if x.sleepOn.Some? {
      RetryHeeds(k, x.sleepOn.value);
      if x.pc.InRelock? && k.locks.mx[x.sleepOn.value].lock == 1 {
        RetryKeys(k, x.sleepOn.value);
        FinishHeeds(Retry(k, x.sleepOn.value), me, x.pc.cond);
      }
    } else if x.pc.InUnlock? {
      StableBeforeSwitch(k.sched);
      RescheduleStable(k.sched);
      var k1 := k.(sched := Reschedule(k.sched));
      SameHeeds(k, k1);
      PcHeeds(k1, me, InSchedule(x.pc.cond, x.pc.mutex));
    } else {
      LockHeeds(k, x.pc.mutex);
      LockKeys(k, x.pc.mutex);
      if MustWait(k, x.pc.mutex) {
        PcHeeds(LockCall(k, x.pc.mutex), me, InRelock(x.pc.cond, x.pc.mutex));
      } else {
        FinishHeeds(LockCall(k, x.pc.mutex), me, x.pc.cond);
      }
    }
  }

  lemma RetryKeys(k: Kernel, m: Mid)
    requires Calm(k) && k.sched.cur != IDLE && m in k.locks.mx && k.sched.cur in k.locks.lk && k.locks.lk[k.sched.cur].sleepOn == Some(m)
    ensures var r := Retry(k, m); k.sched.cur in r.locks.lk && r.cv == k.cv && r.locks.lk.Keys == r.sched.task.Keys
  {
    hide Stable, Valid, Consistent, Recompute, GiveUp;
    RunningNow(k);
    if k.locks.mx[m].lock == 1 {
      GrabLinked(k.sched, k.locks, m);
    } else {
      GiveUpStable(k.sched, Sleeping);
    }
  }

  lemma LockKeys(k: Kernel, m: Mid)
    requires Calm(k) && Me(k) && m in k.locks.mx
    requires MustWait(k, m) ==> WalkEnds(Join(k.locks, k.sched.cur, m), k.sched.cur)
    ensures var r := LockCall(k, m); k.sched.cur in r.locks.lk && r.cv == k.cv && r.locks.lk.Keys == r.sched.task.Keys
  {
    hide Stable, Valid, Consistent, GiveUp, Walked;
    if MustWait(k, m) {
      WalkedStable(k.sched, k.locks, m);
      GiveUpStable(Walked(k.sched, k.locks, m), Sleeping);
    }
  }

  /** A new thread holds nothing and waits for nothing. */
  lemma CreateHeeds(k: Kernel, t: Tid, p: nat)
    requires Possible(k, Create(t, p)) && Inherits(k)
    ensures Inherits(Step(k, Create(t, p)))
  {
    hide Stable, Linked, NoLostWakeup, CondOk, WakeUp, AllSettled;
    NewThreadStable(k.sched, t, p);
    var n := NewThread(k.sched, t, p);
    WakeUpStable(n, t);
    NewThreadHeeds(k, t, p);
    SameHeeds(k.(sched := n), Step(k, Create(t, p)));
  }

  lemma NewThreadHeeds(k: Kernel, t: Tid, p: nat)
    requires Inv(k) && Inherits(k) && t in k.sched.task && k.sched.task[t].state == Unused
    ensures Inherits(k.(sched := NewThread(k.sched, t, p)))
  {
    hide Stable, Linked, NoLostWakeup, CondOk, WaitsFor;
    FreshWaits(k, t);
    var n := NewThread(k.sched, t, p);
    forall v | v in k.sched.task ensures Settled(n, k.locks, v) {
      assert Settled(k.sched, k.locks, v);
      if v != t { StaysSettled(k.sched, n, k.locks, v); }
    }
  }

  lemma FreshWaits(k: Kernel, t: Tid)
    requires Inv(k) && t in k.locks.lk && k.locks.lk[t] == FRESH
    ensures forall v :: !WaitsFor(k.locks, v, t) && !WaitsFor(k.locks, t, v)
  {
    hide Stable, NoLostWakeup, CondOk, Unlocked;
    assert ThreadOk(k.locks, t);
  }

  lemma PriorityHeeds(k: Kernel, t: Tid, p: nat)
    requires Possible(k, SetPriority(t, p)) && Inherits(k) && !WaitsFor(k.locks, t, t)
    ensures Inherits(Step(k, SetPriority(t, p))) <==> ChangesAlone(k.sched, k.locks, t, p)
  {
    hide Stable, Valid, Consistent, NoLostWakeup, CondOk, Unlocked, Repriority, Reschedule, AllSettled, Covered, Inherited;
    RepriorityStable(k.sched, k.locks, t, p);
    PriorityLinked(k.sched, k.locks, t, p);
    var r := Repriority(k.sched, k.locks, t, p);
    if k.sched.task[t].priority != p {
      RepriorityHeeds(k, t, p);
      if k.sched.task[t].eff != p {
        StableBeforeSwitch(r);
        RescheduleStable(r);
        SameSettled(r, k.locks, Reschedule(r), k.locks);
      }
    }
  }

  lemma RepriorityHeeds(k: Kernel, t: Tid, p: nat)
    requires Calm(k) && t in k.sched.task && p <= PRIORITY_MAX && Inherits(k) && !WaitsFor(k.locks, t, t) && k.sched.task[t].priority != p
    requires Propagates(k.sched, k.locks, t, p) ==> WalkEnds(k.locks, t)
    ensures Linked(Repriority(k.sched, k.locks, t, p), k.locks)
    ensures AllSettled(Repriority(k.sched, k.locks, t, p), k.locks) <==> ChangesAlone(k.sched, k.locks, t, p)
  {
    hide Stable, Linked, Recompute, Spread, AllSettled, Covered, Inherited, WaitsFor;
    var s := k.sched;
    PriorityLinked(s, k.locks, t, p);
    if s.task[t].eff == p {
      SameEffSettled(s, k.locks, t);
    } else if s.task[t].queued {
      QueuedPriorityIff(s, k.locks, t, p);
    } else {
      PrioritySettles(s, k.locks, t, p);
    }
  }

  // ---- nobody waits for itself ----

  ghost predicate NoSelfWait(l: Locks) {
    forall t :: !WaitsFor(l, t, t)
  }

  lemma TakingNoSelf(l: Locks, t: Tid, m: Mid)
    requires NoSelfWait(l) && t in l.lk && m in l.mx
    ensures l.lk[t].sleepOn == None ==> NoSelfWait(Acquire(l, t, m))
    ensures NoSelfWait(Grab(l, t, m)) && NoSelfWait(Release(l, t, m))
  {
    forall u ensures !WaitsFor(Grab(l, t, m), u, u) && !WaitsFor(Release(l, t, m), u, u) { assert !WaitsFor(l, u, u); }
    if l.lk[t].sleepOn == None {
      forall u ensures !WaitsFor(Acquire(l, t, m), u, u) { assert !WaitsFor(l, u, u); }
    }
  }

  lemma SameNoSelf(l: Locks, l': Locks)
    requires NoSelfWait(l) && l'.lk.Keys == l.lk.Keys && l'.mx.Keys == l.mx.Keys
    requires forall t :: t in l.lk ==> l'.lk[t].sleepOn == l.lk[t].sleepOn
    requires forall m :: m in l.mx ==> l'.mx[m].owner == l.mx[m].owner
    ensures NoSelfWait(l')
  {
    hide WaitsFor;
    SameWaits(l, l');
  }

  lemma QueueNoSelf(l: Locks, t: Tid, m: Mid)
    requires NoSelfWait(l) && t in l.lk && m in l.mx && l.mx[m].owner != Some(t)
    ensures NoSelfWait(Contend(Join(l, t, m), m))
  {
    forall u ensures !WaitsFor(Contend(Join(l, t, m), m), u, u) { assert !WaitsFor(l, u, u); }
  }

  lemma LockNoSelf(k: Kernel, m: Mid)
    requires Calm(k) && Me(k) && m in k.locks.mx && NoSelfWait(k.locks)
    requires k.locks.mx[m].owner == Some(k.sched.cur) ==> k.locks.mx[m].recursive
    requires MustWait(k, m) ==> WalkEnds(Join(k.locks, k.sched.cur, m), k.sched.cur)
    ensures NoSelfWait(LockCall(k, m).locks)
  {
    hide Stable, Valid, Consistent, NoSelfWait, Walked, GiveUp;
    if k.locks.mx[m].lock == 1 {
      TakingNoSelf(k.locks, k.sched.cur, m);
    } else if MustWait(k, m) {
      QueueNoSelf(k.locks, k.sched.cur, m);
    } else {
      SameNoSelf(k.locks, Again(k.locks, m));
    }
  }

  lemma UnlockNoSelf(k: Kernel, c: Cid, m: Mid)
    requires Calm(k) && Me(k) && m in k.locks.mx && k.locks.mx[m].owner == Some(k.sched.cur) && NoSelfWait(k.locks)
    ensures NoSelfWait(UnlockCall(k, m).locks)
    ensures c in k.cv ==> NoSelfWait(CondWaitCall(k, c, m).locks)
  {
    hide Stable, Valid, Consistent, NoSelfWait, HandOver, GiveUp, Reschedule;
    TakingNoSelf(k.locks, k.sched.cur, m);
    SameNoSelf(k.locks, Drop(k.locks, m));
    if c in k.cv {
      var l1 := if k.locks.mx[m].count > 1 then Drop(k.locks, m) else Release(k.locks, k.sched.cur, m);
      SameNoSelf(l1, CondWaitCall(k, c, m).locks);
    }
  }

  lemma ResumeNoSelf(k: Kernel)
    requires Possible(k, Resume) && NoSelfWait(k.locks)
    ensures NoSelfWait(Step(k, Resume).locks)
  {
    hide Stable, Linked, NoLostWakeup, Unlocked, NoSelfWait, LockCall, GiveUp, Recompute, Reschedule, WalkEnds;
    ResumePoint(k);
    var me := k.sched.cur;
    var x := k.locks.lk[me];
    RunningNow(k);
    WaiterIsOk(k, me);
    if x.sleepOn.Some? {
      TakingNoSelf(k.locks, me, x.sleepOn.value);
      RetryKeys(k, x.sleepOn.value);
      var r := Retry(k, x.sleepOn.value).locks;
      SameNoSelf(k.locks, Contend(k.locks, x.sleepOn.value));
      if x.pc.InRelock? && k.locks.mx[x.sleepOn.value].lock == 1 {
        SameNoSelf(r, SetPc(r, me, Plain));
      }
    } else if x.pc.InUnlock? {
      SameNoSelf(k.locks, SetPc(k.locks, me, InSchedule(x.pc.cond, x.pc.mutex)));
    } else {
      LockNoSelf(k, x.pc.mutex);
      LockKeys(k, x.pc.mutex);
      var r := LockCall(k, x.pc.mutex).locks;
      SameNoSelf(r, SetPc(r, me, InRelock(x.pc.cond, x.pc.mutex)));
      SameNoSelf(r, SetPc(r, me, Plain));
    }
  }

  lemma TryLockNoSelf(k: Kernel, m: Mid)
    requires Me(k) && m in k.locks.mx && NoSelfWait(k.locks)
    ensures NoSelfWait(TryLockCall(k, m).0.locks)
  {
    hide NoSelfWait;
    if k.locks.mx[m].lock == 1 {
      TakingNoSelf(k.locks, k.sched.cur, m);
    } else if !MustWait(k, m) {
      SameNoSelf(k.locks, Again(k.locks, m));
    }
  }

  /** In every run nobody comes to wait for itself. */
  lemma StepNoSelfWait(k: Kernel, e: Event)
    requires Possible(k, e) && NoSelfWait(k.locks)
    ensures NoSelfWait(Step(k, e).locks)
  {
    hide Inv, Calm, NoSelfWait, ResumeCall, WakeUp, Tick, GiveUp, UnlockCall, CondWaitCall, LockCall, Best, WakeAll, Reschedule, Repriority;
    CalmNow(k);
    match e
    case Lock(m) => LockNoSelf(k, m);
    case TryLock(m) => TryLockNoSelf(k, m);
    case Unlock(m) => UnlockNoSelf(k, 0, m);
    case CondWait(c, m) => UnlockNoSelf(k, c, m);
    case Signal(c) => CondTasks(k, c);
    case Broadcast(c) => CondTasks(k, c);
    case Resume => ResumeNoSelf(k);
    case _ =>
  }

  /**
   Exactly which steps break priority inheritance, among all that the kernel can take: taking a
   free mutex with a waiter of higher priority, and a priority change that is not passed on.
   */
  lemma StepSettledIff(k: Kernel, e: Event)
    requires Possible(k, e) && Inherits(k) && NoSelfWait(k.locks)
    ensures Inherits(Step(k, e)) <==> Heeds(k, e)
  {
    hide Inv, Inherits, ResumeCall, WakeUp, Tick, GiveUp, UnlockCall, CondWaitCall, SignalCall, BroadcastCall, LockCall, Queue, TakesFairly, ChangesAlone;
    CalmNow(k);
    match e
    case Lock(m) => LockHeeds(k, m);
    case TryLock(m) => TryLockHeeds(k, m);
    case Unlock(m) => UnlockHeeds(k, m);
    case CondWait(c, m) => CondWaitHeeds(k, c, m);
    case Signal(c) => CondTasks(k, c); SignalHeeds(k, c);
    case Broadcast(c) => CondTasks(k, c); SignalHeeds(k, c);
    case Resume => ResumeHeeds(k);
    case Sleep => PlainHeeds(k, e);
    case Exit => PlainHeeds(k, e);
    case Create(t, p) => CreateHeeds(k, t, p);
    case SetPriority(t, p) => PriorityHeeds(k, t, p);
    case TimerTick => PlainHeeds(k, e);
    case Wake(t) => PlainHeeds(k, e);
  }

  lemma TryLockHeeds(k: Kernel, m: Mid)
    requires Calm(k) && Inherits(k) && m in k.locks.mx && k.sched.cur in k.locks.lk
    ensures Inherits(TryLockCall(k, m).0) <==> (k.locks.mx[m].lock == 1 ==> TakesFairly(k, m))
  {
    hide Calm, Inherits, Acquire, Again, TakesFairly;
    if k.locks.mx[m].lock == 1 {
      AcquireHeeds(k, m);
    } else if !MustWait(k, m) {
      AgainHeeds(k, m);
    }
  }

  lemma PlainHeeds(k: Kernel, e: Event)
    requires Possible(k, e) && Inherits(k) && (e == Sleep || e == Exit || e == TimerTick || e.Wake?)
    ensures Inherits(Step(k, e))
  {
    hide Stable, Linked, NoLostWakeup, CondOk, Unlocked, AllSettled, GiveUp, Tick, WakeUp;
    match e {
      case Sleep => GiveUpStable(k.sched, Sleeping);
      case Exit => GiveUpStable(k.sched, Unused);
      case TimerTick => TickStable(k.sched);
      case Wake(t) => WakeUpStable(k.sched, t);
    }
    SameHeeds(k, Step(k, e));
  }

  // ---- strict priority ----

  lemma SameHighest(s: Sched, s': Sched)
    requires Highest(s) && SameThreads(s, s') && s'.cur == s.cur
    ensures Highest(s')
  {}

  /** A waiter that takes the mutex can only gain priority by it. */
  lemma GrabGains(s: Sched, l: Locks, c: Tid, m: Mid)
    requires Linked(s, l) && c in s.task && m in l.mx && Settled(s, l, c)
    requires l.mx[m].lock == 1 && l.lk[c].sleepOn == Some(m) && Linked(s, Grab(l, c, m))
    ensures s.task[c].eff <= Inherited(s, Grab(l, c, m), c)
  {
    hide Valid, Inherited, Consistent, Grab;
    InheritedIsHighest(s, Grab(l, c, m), c);
    if s.task[c].eff != s.task[c].priority {
      var w :| WaitsFor(l, w, c) && s.task[w].eff == s.task[c].eff;
      GrabWaiters(l, c, m, w);
    }
  }

  lemma GrabWaiters(l: Locks, c: Tid, m: Mid, w: Tid)
    requires Consistent(l) && c in l.lk && m in l.mx && WaitsFor(l, w, c) && l.mx[m].lock == 1 && l.lk[c].sleepOn == Some(m)
    ensures WaitsFor(Grab(l, c, m), w, c)
  {
    assert MutexOk(l, m);
  }

  /** So no switch is needed. */
  lemma GrabHighest(k: Kernel, m: Mid)
    requires Calm(k) && Inherits(k) && Highest(k.sched) && k.sched.cur in k.locks.lk && m in k.locks.mx
    requires k.locks.mx[m].lock == 1 && k.locks.lk[k.sched.cur].sleepOn == Some(m)
    ensures Linked(k.sched, Grab(k.locks, k.sched.cur, m)) && Highest(Recompute(k.sched, Grab(k.locks, k.sched.cur, m), k.sched.cur))
  {
    hide Stable, Valid, Consistent, Recompute, Inherited, Settled, Grab;
    var s, me := k.sched, k.sched.cur;
    RunningNow(k);
    GrabLinked(s, k.locks, m);
    var l := Grab(k.locks, me, m);
    RecomputeLinked(s, l, me);
    GrabGains(s, k.locks, me, m);
  }

  lemma RetryHighest(k: Kernel, m: Mid)
    requires Calm(k) && Inherits(k) && Highest(k.sched) && k.sched.cur != IDLE && m in k.locks.mx && k.sched.cur in k.locks.lk && k.locks.lk[k.sched.cur].sleepOn == Some(m)
    ensures Highest(Retry(k, m).sched)
  {
    hide Stable, Linked, Recompute, GiveUp, Highest, Inherits;
    if k.locks.mx[m].lock == 1 {
      GrabHighest(k, m);
    } else {
      GiveUpStable(k.sched, Sleeping);
    }
  }

  lemma LockHighest(k: Kernel, m: Mid)
    requires Calm(k) && Me(k) && m in k.locks.mx && Highest(k.sched)
    requires MustWait(k, m) ==> WalkEnds(Join(k.locks, k.sched.cur, m), k.sched.cur)
    ensures Highest(LockCall(k, m).sched)
  {
    hide Stable, Linked, Walked, GiveUp, Highest;
    if MustWait(k, m) {
      WalkedStable(k.sched, k.locks, m);
      GiveUpStable(Walked(k.sched, k.locks, m), Sleeping);
    }
  }

  lemma ResumeHighest(k: Kernel)
    requires Possible(k, Resume) && Inherits(k) && Highest(k.sched)
    ensures Highest(Step(k, Resume).sched)
  {
    hide Stable, Linked, NoLostWakeup, CondOk, Unlocked, AllSettled, LockCall, Retry, Reschedule, Highest;
    ResumePoint(k);
    var x := k.locks.lk[k.sched.cur];
    if x.sleepOn.Some? {
      RetryHighest(k, x.sleepOn.value);
      RetryKeys(k, x.sleepOn.value);
    } else if x.pc.InUnlock? {
      StableBeforeSwitch(k.sched);
      RescheduleStable(k.sched);
    } else {
      LockHighest(k, x.pc.mutex);
      LockKeys(k, x.pc.mutex);
    }
  }

  lemma UnlockHighest(k: Kernel, m: Mid)
    requires Calm(k) && Me(k) && m in k.locks.mx && k.locks.mx[m].owner == Some(k.sched.cur) && Highest(k.sched)
    ensures Highest(UnlockCall(k, m).sched)
    ensures forall c :: c in k.cv ==> Highest(CondWaitCall(k, c, m).sched)
  {
    hide Stable, Valid, Consistent, HandOver, GiveUp, Reschedule, Highest;
    RunningNow(k);
    WaitersInTask(k.sched, k.locks, m);
    HandOverStable(k.sched, k.locks, m);
    var s1 := HandOver(k.sched, k.locks, m);
    StableBeforeSwitch(s1);
    RescheduleStable(s1);
    GiveUpStable(s1, Sleeping);
    GiveUpStable(k.sched, Sleeping);
  }

  lemma CondHighest(k: Kernel, c: Cid)
    requires Calm(k) && c in k.cv && Highest(k.sched) && forall w :: w in k.cv[c] ==> w in k.sched.task
    ensures Highest(SignalCall(k, c).sched) && Highest(BroadcastCall(k, c).sched)
  {
    hide Stable, Linked, WakeUp, Best, WakeAll, Reschedule, Highest;
    var t := Best(k.sched.task, k.cv[c]);
    if t.Some? { WakeUpStable(k.sched, t.value); }
    if k.cv[c] != [] {
      StableBeforeSwitch(WakeAll(k.sched, k.cv[c]));
      RescheduleStable(WakeAll(k.sched, k.cv[c]));
    }
  }

  lemma PlainHighest(k: Kernel, e: Event)
    requires Possible(k, e) && Highest(k.sched) && (e == Sleep || e == Exit || e == TimerTick || e.Wake? || e.Create?)
    ensures Highest(Step(k, e).sched)
  {
    hide Stable, Linked, NoLostWakeup, CondOk, Unlocked, GiveUp, Tick, WakeUp, Highest;
    match e {
      case Sleep => GiveUpStable(k.sched, Sleeping);
      case Exit => GiveUpStable(k.sched, Unused);
      case TimerTick => TickHighest(k.sched);
      case Wake(t) => WakeUpStable(k.sched, t);
      case Create(t, p) => NewThreadStable(k.sched, t, p); WakeUpStable(NewThread(k.sched, t, p), t);
    }
  }

  lemma TickHighest(s: Sched)
    requires Stable(s) && Highest(s)
    ensures Highest(Tick(s))
  {
    hide Reschedule, Valid;
    SpendOk(s);
    if Spend(s).task[s.cur].slice == 0 {
      RescheduleStable(Spend(s));
    }
  }

  lemma PriorityHighest(k: Kernel, t: Tid, p: nat)
    requires Possible(k, SetPriority(t, p)) && Highest(k.sched)
    ensures Highest(Step(k, SetPriority(t, p)).sched)
  {
    hide Stable, Linked, NoLostWakeup, CondOk, Unlocked, Recompute, Reschedule, Spread, Propagates;
    RepriorityStable(k.sched, k.locks, t, p);
    var r := Repriority(k.sched, k.locks, t, p);
    if k.sched.task[t].priority != p && k.sched.task[t].eff != p {
      StableBeforeSwitch(r);
      RescheduleStable(r);
    }
  }

  /** From a state where inheritance holds, a step leaves a thread of the highest effective priority running. */
  lemma StepHighest(k: Kernel, e: Event)
    requires Possible(k, e) && Inherits(k) && Highest(k.sched)
    ensures Highest(Step(k, e).sched)
  {
    hide Inv, Inherits, Highest, ResumeCall, WakeUp, Tick, GiveUp, UnlockCall, CondWaitCall, SignalCall, BroadcastCall, LockCall, Repriority;
    CalmNow(k);
    match e
    case Lock(m) => LockHighest(k, m);
    case TryLock(m) =>
    case Unlock(m) => UnlockHighest(k, m);
    case CondWait(c, m) => UnlockHighest(k, m);
    case Signal(c) => CondTasks(k, c); CondHighest(k, c);
    case Broadcast(c) => CondTasks(k, c); CondHighest(k, c);
    case Resume => ResumeHighest(k);
    case SetPriority(t, p) => PriorityHighest(k, t, p);
    case _ => PlainHighest(k, e);
  }

  // ---- runs ----

  /** No step of the run is one that breaks inheritance. */
  ghost predicate HeedfulRun(k: Kernel, es: seq<Event>)
    requires CanRun(k, es)
    decreases |es|
  {
    es == [] || (Heeds(k, es[0]) && HeedfulRun(Step(k, es[0]), es[1..]))
  }

  ghost predicate Orderly(k: Kernel) {
    Inherits(k) && NoSelfWait(k.locks) && Highest(k.sched)
  }

  lemma StepOrderly(k: Kernel, e: Event)
    requires Possible(k, e) && Orderly(k)
    ensures Orderly(Step(k, e)) <==> Heeds(k, e)
  {
    hide Possible, Step, Inherits, NoSelfWait, Highest, Heeds;
    StepSettledIff(k, e);
    StepNoSelfWait(k, e);
    StepHighest(k, e);
  }

  /**
   In every run without such a step, inheritance holds throughout and a thread of the highest
   effective priority is running throughout.
   */
  lemma {:induction false} HeedfulRunOrderly(k: Kernel, es: seq<Event>)
    requires Inv(k) && Orderly(k) && CanRun(k, es) && HeedfulRun(k, es)
    ensures Orderly(After(k, es))
    decreases |es|
  {
    hide Inv, Allowed, Walks, Step, Orderly, Heeds;
    if es != [] {
      StepKeeps(k, es[0]);
      StepOrderly(k, es[0]);
      HeedfulRunOrderly(Step(k, es[0]), es[1..]);
    }
  }
}
