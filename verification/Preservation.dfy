/** Each operation keeps the invariant of the kernel. */
module Preservation {
  import opened Seqs
  import opened Sched
  import opened Locks
  import opened Inherit
  import opened Kernel

  /** Threads only wake up: what runs keeps running, and nobody falls asleep or ends. */
  ghost predicate OnlyWakes(s: Sched, s': Sched) {
    && s'.task.Keys == s.task.Keys
    && forall t :: t in s.task ==> s'.task[t].state == s.task[t].state || s'.task[t].state == Running
  }

  lemma WakeupsKept(k: Kernel, k': Kernel)
    requires NoLostWakeup(k)
    requires forall m :: m in k'.locks.mx && k'.locks.mx[m].wq != [] && k'.locks.mx[m].lock != -1 ==>
               && m in k.locks.mx && k.locks.mx[m].lock != -1 && k'.locks.mx[m].wq == k.locks.mx[m].wq
               && forall t :: t in k.locks.mx[m].wq && Awake(k, t) ==> Awake(k', t)
    ensures NoLostWakeup(k')
  {
    forall m | m in k'.locks.mx && k'.locks.mx[m].wq != [] && k'.locks.mx[m].lock != -1
      ensures exists t :: t in k'.locks.mx[m].wq && Awake(k', t)
    {
      var t :| t in k.locks.mx[m].wq && Awake(k, t);
      assert Awake(k', t);
    }
  }

  /** As far as condition waits are concerned, nothing happens to t but that it may wake up. */
  ghost predicate SameWait(k: Kernel, k': Kernel, t: Tid)
    requires t in k.locks.lk && t in k'.locks.lk && t in k.sched.task && t in k'.sched.task
  {
    var x, x' := k.locks.lk[t], k'.locks.lk[t];
    && x'.pc == x.pc
    && (!x.pc.Plain? && x.pc.mutex in k.locks.mx ==>
          && x'.sleepOn == x.sleepOn && x.pc.mutex in k'.locks.mx
          && k'.locks.mx[x.pc.mutex].recursive == k.locks.mx[x.pc.mutex].recursive
          && (k'.locks.mx[x.pc.mutex].owner == Some(t) ==> k.locks.mx[x.pc.mutex].owner == Some(t))
          && (x.pc.InRelock? || k'.sched.task[t].state != Sleeping || k.sched.task[t].state == Sleeping))
  }

  /** Threads may leave condition queues when they wake up or have left the wait. */
  lemma CondShrink(k: Kernel, k': Kernel)
    requires k.locks.lk.Keys == k.sched.task.Keys == k'.locks.lk.Keys == k'.sched.task.Keys
    requires CondOk(k) && k'.cv.Keys == k.cv.Keys
    requires forall c :: c in k.cv ==> NoDup(k'.cv[c])
    requires forall c :: c in k.cv ==> forall t :: t in k'.cv[c] ==> t in k.cv[c] && t in k'.locks.lk && !k'.locks.lk[t].pc.Plain?
    requires forall t :: t in k.locks.lk && !k'.locks.lk[t].pc.Plain? ==> SameWait(k, k', t)
    requires forall c :: c in k.cv ==> forall t :: t in k.cv[c] && t in k'.sched.task && k'.sched.task[t].state == Sleeping && !k'.locks.lk[t].pc.Plain? ==> t in k'.cv[c]
    ensures CondOk(k')
  {
    forall c | c in k'.cv ensures QueueOk(k', c) {
      assert QueueOk(k, c);
      forall t | t in k'.cv[c] ensures t in k'.locks.lk && !k'.locks.lk[t].pc.Plain? && k'.locks.lk[t].pc.cond == c {
        assert c in k.cv && t in k.cv[c];
        assert SameWait(k, k', t);
      }
    }
    forall t | t in k'.locks.lk && !k'.locks.lk[t].pc.Plain? ensures WaiterOk(k', t) { assert WaiterOk(k, t) && SameWait(k, k', t); }
  }

  lemma CondKept(k: Kernel, k': Kernel)
    requires k.locks.lk.Keys == k.sched.task.Keys == k'.locks.lk.Keys == k'.sched.task.Keys
    requires CondOk(k) && k'.cv == k.cv && forall t :: t in k.locks.lk ==> SameWait(k, k', t)
    ensures CondOk(k')
  {
    hide WaiterOk;
    forall c | c in k.cv ensures NoDup(k'.cv[c]) && forall t :: t in k.cv[c] ==> t in k.locks.lk && !k'.locks.lk[t].pc.Plain? {
      assert QueueOk(k, c);
    }
    CondShrink(k, k');
  }

  lemma InQueue(k: Kernel, c: Cid)
    requires k.locks.lk.Keys == k.sched.task.Keys && CondOk(k) && c in k.cv
    ensures QueueOk(k, c) && forall t :: t in k.cv[c] ==> t in k.sched.task
  {
    assert QueueOk(k, c);
  }

  lemma LinkedFrame(s: Sched, s': Sched, l: Locks)
    requires Linked(s, l) && Valid(s') && s'.task.Keys == s.task.Keys
    requires forall t :: t in s.task ==> s'.task[t].priority == s.task[t].priority
    ensures Linked(s', l)
  {}

  /** A step of the scheduler alone. */
  lemma SchedStep(k: Kernel, s': Sched)
    requires Inv(k) && Stable(s') && Linked(s', k.locks) && OnlyWakes(k.sched, s')
    ensures Inv(k.(sched := s'))
  {
    hide Stable, Valid, Consistent, CondOk;
    var k' := k.(sched := s');
    WakeupsKept(k, k');
    CondKept(k, k');
  }

  lemma WakeKeeps(k: Kernel, t: Tid)
    requires Inv(k) && t in k.sched.task
    ensures Inv(k.(sched := WakeUp(k.sched, t)))
  {
    hide WakeUp, Valid, Consistent, NoLostWakeup, CondOk;
    WakeUpStable(k.sched, t);
    LinkedFrame(k.sched, WakeUp(k.sched, t), k.locks);
    SchedStep(k, WakeUp(k.sched, t));
  }

  lemma TickKeeps(k: Kernel)
    requires Inv(k)
    ensures Inv(k.(sched := Tick(k.sched)))
  {
    hide Tick, Valid, Consistent, NoLostWakeup, CondOk;
    TickStable(k.sched);
    LinkedFrame(k.sched, Tick(k.sched), k.locks);
    SchedStep(k, Tick(k.sched));
  }

  lemma RepriorityStable(s: Sched, l: Locks, t: Tid, p: nat)
    requires Stable(s) && Linked(s, l) && t in s.task && p <= PRIORITY_MAX
    requires Propagates(s, l, t, p) ==> WalkEnds(l, t)
    ensures var r := Repriority(s, l, t, p); Stable(r) && Linked(r, l) && OnlyWakes(s, r)
  {
    hide Valid, Consistent, Recompute, Spread;
    var s0 := WithPriority(s, t, p);
    PriorityLinked(s, l, t, p);
    assert Stable(s0);
    if s.task[t].eff != p {
      RecomputeLinked(s0, l, t);
      RecomputeRepriced(s0, l, t);
      var s1 := Recompute(s0, l, t);
      RepricedStable(s0, s1);
      if Propagates(s, l, t, p) {
        SpreadRepriced(s1, l, t, ChainLength(l, t));
        RepricedStable(s1, Spread(s1, l, t, ChainLength(l, t)));
      }
    }
  }

  lemma CreateKeeps(k: Kernel, t: Tid, p: nat)
    requires Inv(k) && t in k.sched.task && k.sched.task[t].state == Unused && p <= PRIORITY_MAX
    requires Stable(NewThread(k.sched, t, p))
    ensures Inv(k.(sched := WakeUp(NewThread(k.sched, t, p), t)))
  {
    hide WakeUp, Valid, Consistent, NoLostWakeup, CondOk;
    var n := NewThread(k.sched, t, p);
    WakeUpStable(n, t);
    assert Linked(n, k.locks);
    LinkedFrame(n, WakeUp(n, t), k.locks);
    SchedStep(k, WakeUp(n, t));
  }

  /** The running thread sleeps without waiting for a mutex or a condition. */
  lemma SleepKeeps(k: Kernel, state: RunState)
    requires Inv(k) && Me(k) && k.locks.lk[k.sched.cur].pc == Plain
    requires state == Sleeping || (state == Unused && k.locks.lk[k.sched.cur].held == [])
    ensures Inv(k.(sched := GiveUp(k.sched, state)))
  {
    hide GiveUp, Valid, Stable, Consistent, CondOk;
    var s' := GiveUp(k.sched, state);
    var k' := k.(sched := s');
    GiveUpStable(k.sched, state);
    assert Valid(s') by { StableValid(s'); }
    LinkedFrame(k.sched, s', k.locks);
    forall m | m in k.locks.mx ensures k.sched.cur !in k.locks.mx[m].wq {
      NotQueued(k.locks, m, k.sched.cur);
    }
    WakeupsKept(k, k');
    CondKept(k, k');
  }

  lemma StableValid(s: Sched)
    requires Stable(s)
    ensures Valid(s)
  {}

  lemma NotQueued(l: Locks, m: Mid, t: Tid)
    requires Consistent(l) && m in l.mx && t in l.lk && l.lk[t].sleepOn != Some(m)
    ensures t !in l.mx[m].wq
  {
    assert MutexOk(l, m);
  }

  lemma AcquireKeeps(k: Kernel, m: Mid)
    requires Inv(k) && Me(k) && k.locks.lk[k.sched.cur].pc == Plain && m in k.locks.mx && k.locks.mx[m].lock == 1
    ensures Inv(k.(locks := Acquire(k.locks, k.sched.cur, m)))
  {
    hide Stable, Valid, Consistent, CondOk;
    var k' := k.(locks := Acquire(k.locks, k.sched.cur, m));
    AcquireOk(k.locks, k.sched.cur, m);
    WakeupsKept(k, k');
    CondKept(k, k');
    RunningNow(k);
  }

  lemma RunningNow(k: Kernel)
    requires Calm(k)
    ensures k.sched.cur in k.sched.task && k.sched.task[k.sched.cur].state == Running
  {}

  lemma RecountKeeps(k: Kernel, m: Mid, count: int)
    requires Inv(k) && m in k.locks.mx && k.locks.mx[m].owner.Some? && k.locks.mx[m].recursive && count >= 1
    ensures Inv(k.(locks := SetMutex(k.locks, m, k.locks.mx[m].(count := count))))
  {
    hide Stable, Valid, Consistent, CondOk;
    var x := k.locks.mx[m];
    var k' := k.(locks := SetMutex(k.locks, m, x.(count := count)));
    LockValue(k.locks, m);
    RetuneOk(k.locks, m, x.lock, count);
    assert x.(count := count) == x.(lock := x.lock, count := count);
    WakeupsKept(k, k');
    CondKept(k, k');
  }

  lemma LockValue(l: Locks, m: Mid)
    requires Consistent(l) && m in l.mx
    ensures var x := l.mx[m];
            && (x.lock == 1 <==> x.owner == None) && (x.lock == 1 || x.lock == 0 || x.lock == -1)
            && (x.owner == None <==> x.count == 0) && x.count >= 0 && (x.lock == -1 ==> x.wq != []) && (!x.recursive ==> x.count <= 1)
  {
    assert MutexOk(l, m);
  }

  lemma QueuedOk(l: Locks, t: Tid, m: Mid, pc: Pc)
    requires Consistent(l) && t in l.lk && m in l.mx && l.lk[t].sleepOn == None && l.mx[m].lock != 1
    ensures Consistent(Join(l, t, m)) && Consistent(SetPc(Contend(Join(l, t, m), m), t, pc))
  {
    hide Consistent;
    LockValue(l, m);
    JoinOk(l, t, m);
    var l1 := Join(l, t, m);
    RetuneOk(l1, m, -1, l1.mx[m].count);
    assert Contend(l1, m) == SetMutex(l1, m, l1.mx[m].(lock := -1, count := l1.mx[m].count));
    PcOk(Contend(l1, m), t, pc);
  }

  /** Queueing on a held mutex, in a lock call or in the lock call that ends a condition wait. */
  lemma QueueKeeps(k: Kernel, m: Mid, pc: Pc)
    requires Inv(k) && Me(k) && m in k.locks.mx && MustWait(k, m)
    requires WalkEnds(Join(k.locks, k.sched.cur, m), k.sched.cur)
    requires var old_pc := k.locks.lk[k.sched.cur].pc;
             (old_pc == Plain && pc == Plain) || (old_pc.InSchedule? && old_pc.mutex == m && pc == InRelock(old_pc.cond, m))
    ensures Inv(Queue(k, m).(locks := SetPc(Queue(k, m).locks, k.sched.cur, pc)))
  {
    hide Stable, Valid, Consistent, GiveUp, Walked;
    var me := k.sched.cur;
    RunningNow(k);
    var l1 := Join(k.locks, me, m);
    QueuedOk(k.locks, me, m, pc);
    WalkedStable(k.sched, k.locks, m);
    var s1 := Walked(k.sched, k.locks, m);
    GiveUpStable(s1, Sleeping);
    var s2 := GiveUp(s1, Sleeping);
    StableValid(s2);
    LinkedFrame(s1, s2, l1);
    var l2 := SetPc(Contend(l1, m), me, pc);
    var k' := Kernel(s2, l2, k.cv);
    assert Linked(s2, l2);
    QueueRest(k, m, pc, k');
  }

  lemma QueueRest(k: Kernel, m: Mid, pc: Pc, k': Kernel)
    requires Inv(k) && Me(k) && m in k.locks.mx
    requires var old_pc := k.locks.lk[k.sched.cur].pc;
             (old_pc == Plain && pc == Plain) || (old_pc.InSchedule? && old_pc.mutex == m && pc == InRelock(old_pc.cond, m))
    requires k'.locks == SetPc(Contend(Join(k.locks, k.sched.cur, m), m), k.sched.cur, pc) && k'.cv == k.cv && Calm(k')
    requires k'.sched.task.Keys == k.sched.task.Keys && k.sched.cur in k.sched.task
    requires forall t :: t in k.sched.task ==> k'.sched.task[t].state == if t == k.sched.cur then Sleeping else k.sched.task[t].state
    ensures Inv(k')
  {
    hide Stable, Valid, Consistent, WaiterOk, QueueOk;
    forall n | n in k.locks.mx ensures k.sched.cur !in k.locks.mx[n].wq {
      NotQueued(k.locks, n, k.sched.cur);
    }
    WakeupsKept(k, k');
    forall t | t in k'.locks.lk ensures WaiterOk(k', t) {
      assert WaiterOk(k, t);
      QueueWaiter(k, m, pc, k', t);
    }
    forall c | c in k'.cv ensures QueueOk(k', c) {
      assert WaiterOk(k, k.sched.cur) && QueueOk(k, c);
      QueueCond(k, m, pc, k', c);
    }
  }

  lemma QueueWaiter(k: Kernel, m: Mid, pc: Pc, k': Kernel, t: Tid)
    requires t in k.locks.lk && t in k.sched.task && t in k'.sched.task && k.sched.cur in k.locks.lk && m in k.locks.mx && WaiterOk(k, t)
    requires var old_pc := k.locks.lk[k.sched.cur].pc;
             (old_pc == Plain && pc == Plain) || (old_pc.InSchedule? && old_pc.mutex == m && pc == InRelock(old_pc.cond, m))
    requires k'.locks == SetPc(Contend(Join(k.locks, k.sched.cur, m), m), k.sched.cur, pc) && k'.cv == k.cv
    requires k'.sched.task[t].state == if t == k.sched.cur then Sleeping else k.sched.task[t].state
    ensures WaiterOk(k', t)
  {}

  lemma QueueCond(k: Kernel, m: Mid, pc: Pc, k': Kernel, c: Cid)
    requires k.sched.cur in k.locks.lk && m in k.locks.mx && c in k.cv && QueueOk(k, c)
    requires var old_pc := k.locks.lk[k.sched.cur].pc;
             (old_pc == Plain && pc == Plain) || (old_pc.InSchedule? && old_pc.mutex == m && pc == InRelock(old_pc.cond, m))
    requires k'.locks == SetPc(Contend(Join(k.locks, k.sched.cur, m), m), k.sched.cur, pc) && k'.cv == k.cv
    ensures QueueOk(k', c)
  {}

  /** Leaving pthread_cond_wait. */
  lemma FinishWaitKeeps(k: Kernel)
    requires Inv(k) && k.sched.cur in k.locks.lk && !k.locks.lk[k.sched.cur].pc.Plain? && k.locks.lk[k.sched.cur].pc.cond in k.cv
    ensures Inv(FinishWait(k, k.sched.cur, k.locks.lk[k.sched.cur].pc.cond))
  {
    hide Stable, Valid, Consistent, CondOk, WaiterOk;
    var me := k.sched.cur;
    var c := k.locks.lk[me].pc.cond;
    var k' := FinishWait(k, me, c);
    RunningNow(k);
    PcOk(k.locks, me, Plain);
    WakeupsKept(k, k');
    forall d | d in k.cv
      ensures QueueOk(k, d) && NoDup(k'.cv[d]) && forall t :: t in k'.cv[d] <==> t in k.cv[d] && t != me
    {
      InQueue(k, d);
      RemoveNoDup(k.cv[d], me);
      forall t ensures t in k'.cv[d] <==> t in k.cv[d] && t != me { RemoveKeeps(k.cv[d], me, t); }
    }
    CondShrink(k, k');
  }

  lemma GrabLinked(s: Sched, l: Locks, m: Mid)
    requires Stable(s) && Linked(s, l) && s.cur in s.task && m in l.mx && l.lk[s.cur].sleepOn == Some(m) && l.mx[m].lock == 1
    ensures Linked(s, Grab(l, s.cur, m))
    ensures var r := Recompute(s, Grab(l, s.cur, m), s.cur);
            Stable(r) && Linked(r, Grab(l, s.cur, m)) && Repriced(s, r)
  {
    hide Stable, Valid, Consistent, Recompute;
    GrabOk(l, s.cur, m);
    RecomputeLinked(s, Grab(l, s.cur, m), s.cur);
    RecomputeRepriced(s, Grab(l, s.cur, m), s.cur);
    RepricedStable(s, Recompute(s, Grab(l, s.cur, m), s.cur));
  }

  /** A woken waiter that finds the mutex free owns it. */
  lemma RetryTakes(k: Kernel, m: Mid)
    requires Inv(k) && k.sched.cur != IDLE && m in k.locks.mx && k.sched.cur in k.locks.lk
    requires k.locks.lk[k.sched.cur].sleepOn == Some(m) && k.locks.lk[k.sched.cur].pc == Plain && k.locks.mx[m].lock == 1
    ensures Inv(Retry(k, m))
  {
    hide Stable, Valid, Consistent, Recompute, CondOk;
    RunningNow(k);
    GrabLinked(k.sched, k.locks, m);
    var k' := Retry(k, m);
    WakeupsKept(k, k');
    CondKept(k, k');
  }

  lemma ContendOk(l: Locks, m: Mid, t: Tid)
    requires Consistent(l) && m in l.mx && t in l.mx[m].wq && l.mx[m].lock != 1
    ensures Consistent(Contend(l, m))
  {
    hide Consistent;
    LockValue(l, m);
    RetuneOk(l, m, -1, l.mx[m].count);
    assert Contend(l, m) == SetMutex(l, m, l.mx[m].(lock := -1, count := l.mx[m].count));
  }

  lemma BackToSleep(k: Kernel, m: Mid)
    requires Calm(k) && k.sched.cur != IDLE && m in k.locks.mx && k.sched.cur in k.locks.lk
    requires k.locks.lk[k.sched.cur].sleepOn == Some(m) && k.locks.mx[m].lock != 1
    ensures Calm(Retry(k, m)) && OnlyState(k.sched, Retry(k, m).sched, k.sched.cur, Sleeping)
  {
    hide Stable, Valid, Consistent, GiveUp;
    MutexIsOk(k.locks, m);
    ContendOk(k.locks, m, k.sched.cur);
    GiveUpStable(k.sched, Sleeping);
    StableValid(Retry(k, m).sched);
    LinkedFrame(k.sched, Retry(k, m).sched, k.locks);
  }

  lemma WaiterIsOk(k: Kernel, t: Tid)
    requires Calm(k) && CondOk(k) && t in k.locks.lk
    ensures WaiterOk(k, t)
  {}

  /** One that does not goes back to sleep, and the mutex is contended again. */
  lemma RetrySleeps(k: Kernel, m: Mid)
    requires Inv(k) && k.sched.cur != IDLE && m in k.locks.mx && k.sched.cur in k.locks.lk
    requires k.locks.lk[k.sched.cur].sleepOn == Some(m) && k.locks.mx[m].lock != 1
    ensures Inv(Retry(k, m))
  {
    hide Stable, Valid, Consistent, GiveUp, CondOk;
    RunningNow(k);
    BackToSleep(k, m);
    var k' := Retry(k, m);
    forall n | n in k.locks.mx && n != m ensures k.sched.cur !in k.locks.mx[n].wq {
      NotQueued(k.locks, n, k.sched.cur);
    }
    WakeupsKept(k, k');
    WaiterIsOk(k, k.sched.cur);
    CondKept(k, k');
  }

  lemma MutexIsOk(l: Locks, m: Mid)
    requires Consistent(l) && m in l.mx
    ensures MutexOk(l, m)
  {}

  /** Giving a mutex up, in unlock or in a condition wait: whoever the mutex goes to is awake. */
  lemma ReleaseRest(k: Kernel, m: Mid, k': Kernel, pc: Pc)
    requires Inv(k) && Me(k) && m in k.locks.mx && k.locks.mx[m].owner == Some(k.sched.cur) && k.locks.lk[k.sched.cur].pc == Plain
    requires forall w :: w in k.locks.mx[m].wq ==> w in k.sched.task
    requires Calm(k') && k'.locks == SetPc(Release(k.locks, k.sched.cur, m), k.sched.cur, pc)
    requires k'.sched.task.Keys == k.sched.task.Keys
    requires forall t :: t in k.sched.task && t != k.sched.cur ==>
               k'.sched.task[t].state == if Target(k.sched, k.locks.mx[m]) == Some(t) then Running else k.sched.task[t].state
    ensures NoLostWakeup(k')
  {
    hide Stable, Valid, Consistent, Best;
    var me := k.sched.cur;
    forall n | n in k.locks.mx ensures me !in k.locks.mx[n].wq {
      NotQueued(k.locks, n, me);
    }
    LockValue(k.locks, m);
    forall n | n in k'.locks.mx && k'.locks.mx[n].wq != [] && k'.locks.mx[n].lock != -1
      ensures exists t :: t in k'.locks.mx[n].wq && Awake(k', t)
    {
      if n == m && k.locks.mx[m].lock == -1 {
        var t := Target(k.sched, k.locks.mx[m]);
        assert t.Some? && t.value in k.locks.mx[m].wq;
        assert Awake(k', t.value);
      } else {
        var t :| t in k.locks.mx[n].wq && Awake(k, t);
        assert Awake(k', t);
      }
    }
  }

  lemma UnlockCalm(k: Kernel, m: Mid)
    requires Calm(k) && m in k.locks.mx && k.locks.mx[m].owner == Some(k.sched.cur) && k.locks.mx[m].count == 1
    requires forall w :: w in k.locks.mx[m].wq ==> w in k.sched.task
    ensures var k' := UnlockCall(k, m);
            && Calm(k') && Highest(k'.sched) && k'.sched.task.Keys == k.sched.task.Keys
            && (forall t :: t in k.sched.task ==>
                  k'.sched.task[t].state == if Target(k.sched, k.locks.mx[m]) == Some(t) then Running else k.sched.task[t].state)
  {
    hide Stable, Valid, Consistent, HandOver, Reschedule, Target;
    RunningNow(k);
    HandOverStable(k.sched, k.locks, m);
    var s1 := HandOver(k.sched, k.locks, m);
    StableBeforeSwitch(s1);
    RescheduleStable(s1);
    ReleaseOk(k.locks, k.sched.cur, m);
    StableValid(UnlockCall(k, m).sched);
  }

  lemma UnlockKeeps(k: Kernel, m: Mid)
    requires Inv(k) && Me(k) && m in k.locks.mx && k.locks.mx[m].owner == Some(k.sched.cur)
    requires k.locks.lk[k.sched.cur].pc == Plain && k.locks.mx[m].count == 1
    ensures Inv(UnlockCall(k, m))
  {
    hide Stable, Valid, Consistent, HandOver, Reschedule, Target, CondOk;
    RunningNow(k);
    WaitersInTask(k.sched, k.locks, m);
    UnlockCalm(k, m);
    var k' := UnlockCall(k, m);
    assert k'.locks == SetPc(Release(k.locks, k.sched.cur, m), k.sched.cur, Plain);
    ReleaseRest(k, m, k', Plain);
    CondKept(k, k');
  }

  lemma WaitCalm(k: Kernel, c: Cid, m: Mid)
    requires Calm(k) && Me(k) && m in k.locks.mx && k.locks.mx[m].owner == Some(k.sched.cur) && c in k.cv && k.locks.mx[m].count == 1
    requires forall w :: w in k.locks.mx[m].wq ==> w in k.sched.task
    ensures var k' := CondWaitCall(k, c, m);
            && Calm(k') && Highest(k'.sched) && k'.sched.task.Keys == k.sched.task.Keys
            && k'.sched.task[k.sched.cur].state == Sleeping
            && (forall t :: t in k.sched.task && t != k.sched.cur ==>
                  k'.sched.task[t].state == if Target(k.sched, k.locks.mx[m]) == Some(t) then Running else k.sched.task[t].state)
  {
    hide Stable, Valid, Consistent, HandOver, GiveUp, Target;
    RunningNow(k);
    HandOverStable(k.sched, k.locks, m);
    GiveUpStable(HandOver(k.sched, k.locks, m), Sleeping);
    ReleaseOk(k.locks, k.sched.cur, m);
    PcOk(Release(k.locks, k.sched.cur, m), k.sched.cur, InUnlock(c, m));
    StableValid(CondWaitCall(k, c, m).sched);
  }

  lemma RewaitCalm(k: Kernel, c: Cid, m: Mid)
    requires Calm(k) && Me(k) && m in k.locks.mx && k.locks.mx[m].owner == Some(k.sched.cur) && c in k.cv && k.locks.mx[m].count > 1
    ensures var k' := CondWaitCall(k, c, m); Calm(k') && Highest(k'.sched) && OnlyState(k.sched, k'.sched, k.sched.cur, Sleeping)
  {
    hide Stable, Valid, Consistent, GiveUp;
    LockValue(k.locks, m);
    var x := k.locks.mx[m];
    RetuneOk(k.locks, m, x.lock, x.count - 1);
    assert Drop(k.locks, m) == SetMutex(k.locks, m, x.(lock := x.lock, count := x.count - 1));
    PcOk(Drop(k.locks, m), k.sched.cur, InSchedule(c, m));
    GiveUpStable(k.sched, Sleeping);
    StableValid(CondWaitCall(k, c, m).sched);
  }

  /** A condition wait puts the thread to sleep in the queue of the condition. */
  lemma RewaitWakeups(k: Kernel, c: Cid, m: Mid)
    requires Inv(k) && Me(k) && m in k.locks.mx && k.locks.mx[m].owner == Some(k.sched.cur) && c in k.cv && k.locks.mx[m].count > 1
    ensures NoLostWakeup(CondWaitCall(k, c, m))
  {
    hide Stable, Valid, Consistent, HandOver, GiveUp, CondOk;
    forall n | n in k.locks.mx ensures k.sched.cur !in k.locks.mx[n].wq {
      NotQueued(k.locks, n, k.sched.cur);
    }
    GiveUpStable(k.sched, Sleeping);
    WakeupsKept(k, CondWaitCall(k, c, m));
  }

  lemma CondWaitKeeps(k: Kernel, c: Cid, m: Mid)
    requires Inv(k) && Me(k) && m in k.locks.mx && k.locks.mx[m].owner == Some(k.sched.cur) && c in k.cv
    requires k.locks.lk[k.sched.cur].pc == Plain
    ensures Inv(CondWaitCall(k, c, m))
  {
    hide Stable, Valid, Consistent, HandOver, GiveUp, Target, CondOk;
    RunningNow(k);
    LockValue(k.locks, m);
    WaitersInTask(k.sched, k.locks, m);
    var k' := CondWaitCall(k, c, m);
    if k.locks.mx[m].count > 1 {
      RewaitCalm(k, c, m);
      RewaitWakeups(k, c, m);
    } else {
      WaitCalm(k, c, m);
      ReleaseRest(k, m, k', InUnlock(c, m));
    }
    CondWaitCond(k, c, m, k');
  }

  lemma CondWaitCond(k: Kernel, c: Cid, m: Mid, k': Kernel)
    requires Calm(k) && Calm(k') && CondOk(k) && k.sched.cur in k.locks.lk && k.locks.lk[k.sched.cur].pc == Plain
    requires k.locks.lk[k.sched.cur].sleepOn == None && c in k.cv && m in k.locks.mx
    requires k'.cv == k.cv[c := k.cv[c] + [k.sched.cur]]
    requires k'.locks.lk.Keys == k.locks.lk.Keys && k'.locks.mx.Keys == k.locks.mx.Keys
    requires k'.locks.lk[k.sched.cur].sleepOn == None
    requires k'.locks.lk[k.sched.cur].pc == InUnlock(c, m) || k'.locks.lk[k.sched.cur].pc == InSchedule(c, m)
    requires k'.locks.mx[m].owner == Some(k.sched.cur) ==> k'.locks.mx[m].recursive
    requires forall t :: t in k.locks.lk && t != k.sched.cur ==> t in k.sched.task && t in k'.sched.task && SameWait(k, k', t)
    ensures CondOk(k')
  {
    hide Stable, Valid, Consistent, WaiterOk;
    var me := k.sched.cur;
    forall d | d in k'.cv ensures QueueOk(k', d) {
      InQueue(k, d);
      CondWaitQueue(k, c, k', d);
    }
    forall t | t in k'.locks.lk ensures WaiterOk(k', t) {
      if t != me {
        WaiterIsOk(k, t);
      }
      CondWaitWaiter(k, c, m, k', t);
    }
  }

  lemma CondWaitQueue(k: Kernel, c: Cid, k': Kernel, d: Cid)
    requires c in k.cv && d in k.cv && QueueOk(k, d) && k.sched.cur in k.locks.lk && k.locks.lk[k.sched.cur].pc == Plain
    requires k'.cv == k.cv[c := k.cv[c] + [k.sched.cur]] && k'.locks.lk.Keys == k.locks.lk.Keys
    requires !k'.locks.lk[k.sched.cur].pc.Plain? && k'.locks.lk[k.sched.cur].pc.cond == c
    requires forall t :: t in k.locks.lk && t != k.sched.cur ==> k'.locks.lk[t].pc == k.locks.lk[t].pc
    ensures QueueOk(k', d)
  {
    assert k.sched.cur !in k.cv[d];
    SnocNoDup(k.cv[d], k.sched.cur);
  }

  lemma CondWaitWaiter(k: Kernel, c: Cid, m: Mid, k': Kernel, t: Tid)
    requires t in k.locks.lk && t in k'.locks.lk && t in k.sched.task && t in k'.sched.task
    requires t != k.sched.cur ==> WaiterOk(k, t) && SameWait(k, k', t)
    requires c in k.cv && k'.cv == k.cv[c := k.cv[c] + [k.sched.cur]] && m in k'.locks.mx
    requires t == k.sched.cur ==>
               && k'.locks.lk[t].sleepOn == None
               && (k'.locks.lk[t].pc == InUnlock(c, m) || k'.locks.lk[t].pc == InSchedule(c, m))
               && (k'.locks.mx[m].owner == Some(t) ==> k'.locks.mx[m].recursive)
    ensures WaiterOk(k', t)
  {}

  lemma SignalKeeps(k: Kernel, c: Cid)
    requires Inv(k) && c in k.cv && forall w :: w in k.cv[c] ==> w in k.sched.task
    ensures Inv(SignalCall(k, c))
  {
    hide Stable, Valid, Consistent, CondOk, WaiterOk, WakeUp, Best;
    var target := Best(k.sched.task, k.cv[c]);
    if target.Some? {
      var t := target.value;
      var k' := SignalCall(k, c);
      WakeUpStable(k.sched, t);
      StableValid(k'.sched);
      LinkedFrame(k.sched, k'.sched, k.locks);
      WakeupsKept(k, k');
      forall d | d in k.cv
        ensures QueueOk(k, d) && NoDup(k'.cv[d])
        ensures forall u :: u in k.cv[d] ==> u in k.locks.lk && !k.locks.lk[u].pc.Plain?
        ensures forall u :: u in k'.cv[d] ==> u in k.cv[d]
        ensures forall u :: u in k.cv[d] && u != t ==> u in k'.cv[d]
      {
        InQueue(k, d);
        RemoveNoDup(k.cv[d], t);
        forall u ensures (u in Remove(k.cv[d], t) ==> u in k.cv[d]) && (u in k.cv[d] && u != t ==> u in Remove(k.cv[d], t)) {
          RemoveKeeps(k.cv[d], t, u);
        }
      }
      CondShrink(k, k');
    }
  }

  lemma BroadcastCalm(k: Kernel, c: Cid)
    requires Calm(k) && c in k.cv && k.cv[c] != [] && forall w :: w in k.cv[c] ==> w in k.sched.task
    ensures var k' := BroadcastCall(k, c);
            && Calm(k') && k'.sched.task.Keys == k.sched.task.Keys
            && forall t :: t in k.sched.task ==> k'.sched.task[t].state == if t in k.cv[c] then Running else k.sched.task[t].state
  {
    hide Stable, Valid, Consistent, WakeAll, Reschedule;
    var s1 := WakeAll(k.sched, k.cv[c]);
    StableBeforeSwitch(s1);
    RescheduleStable(s1);
    StableValid(BroadcastCall(k, c).sched);
    LinkedFrame(k.sched, BroadcastCall(k, c).sched, k.locks);
  }

  lemma BroadcastKeeps(k: Kernel, c: Cid)
    requires Inv(k) && c in k.cv && forall w :: w in k.cv[c] ==> w in k.sched.task
    ensures Inv(BroadcastCall(k, c))
  {
    hide Stable, Valid, Consistent, CondOk, WaiterOk, WakeAll, Reschedule;
    if k.cv[c] != [] {
      var k' := BroadcastCall(k, c);
      BroadcastCalm(k, c);
      WakeupsKept(k, k');
      forall d | d in k.cv
        ensures QueueOk(k, d) && forall u :: u in k.cv[d] ==> u in k.locks.lk && !k.locks.lk[u].pc.Plain?
      {
        InQueue(k, d);
      }
      CondShrink(k, k');
    }
  }

  /** Back from the switch inside the unlock of a condition wait. */
  lemma UnlockedKeeps(k: Kernel)
    requires Inv(k) && Midway(k) && k.sched.cur != IDLE && k.locks.lk[k.sched.cur].pc.InUnlock? && k.locks.lk[k.sched.cur].sleepOn == None
    ensures Inv(ResumeCall(k))
  {
    hide Stable, Valid, Consistent, CondOk, Reschedule;
    var me := k.sched.cur;
    var x := k.locks.lk[me];
    var k' := ResumeCall(k);
    StableBeforeSwitch(k.sched);
    RescheduleStable(k.sched);
    RunningNow(k);
    WaiterIsOk(k, me);
    StableValid(k'.sched);
    PcOk(k.locks, me, InSchedule(x.pc.cond, x.pc.mutex));
    WakeupsKept(k, k');
    UnlockedCond(k, k');
  }

  lemma UnlockedCond(k: Kernel, k': Kernel)
    requires k.locks.lk.Keys == k.sched.task.Keys == k'.sched.task.Keys && CondOk(k) && k.sched.cur in k.locks.lk
    requires k.locks.lk[k.sched.cur].pc.InUnlock? && k'.cv == k.cv
    requires var pc := k.locks.lk[k.sched.cur].pc; k'.locks == SetPc(k.locks, k.sched.cur, InSchedule(pc.cond, pc.mutex))
    requires forall t :: t in k.sched.task ==> k'.sched.task[t].state == k.sched.task[t].state
    ensures CondOk(k')
  {
    forall c | c in k'.cv ensures QueueOk(k', c) { assert QueueOk(k, c); }
    forall t | t in k'.locks.lk ensures WaiterOk(k', t) { assert WaiterOk(k, t); }
  }

  /** Taking the mutex and leaving the condition wait can be told in either order. */
  lemma GrabThenFinish(k: Kernel, m: Mid, c: Cid)
    requires Inv(k) && k.sched.cur in k.locks.lk && m in k.locks.mx && k.locks.lk[k.sched.cur].sleepOn == Some(m)
    requires k.locks.mx[m].lock == 1 && c in k.cv && k.sched.cur != IDLE && Inv(FinishWait(k, k.sched.cur, c))
    ensures FinishWait(Retry(k, m), k.sched.cur, c) == Retry(FinishWait(k, k.sched.cur, c), m)
  {
    hide Stable, Valid, Recompute, NoLostWakeup, CondOk, Unlocked, Consistent;
    var me := k.sched.cur;
    GrabOk(k.locks, me, m);
    var l := Grab(k.locks, me, m);
    PcOk(l, me, Plain);
    GrabPc(k.locks, me, m);
    RecomputePc(k.sched, l, me);
  }

  lemma GrabPc(l: Locks, t: Tid, m: Mid)
    requires t in l.lk && m in l.mx
    ensures Grab(SetPc(l, t, Plain), t, m) == SetPc(Grab(l, t, m), t, Plain)
  {
    assert Grab(SetPc(l, t, Plain), t, m).lk == SetPc(Grab(l, t, m), t, Plain).lk;
  }

  lemma RecomputePc(s: Sched, l: Locks, t: Tid)
    requires Linked(s, l) && t in s.task && Linked(s, SetPc(l, t, Plain))
    ensures Recompute(s, SetPc(l, t, Plain), t) == Recompute(s, l, t)
  {
    hide SetEff;
  }

  lemma AcquireThenFinish(k: Kernel, m: Mid, c: Cid)
    requires k.sched.cur in k.locks.lk && m in k.locks.mx && c in k.cv
    ensures var k0, me := FinishWait(k, k.sched.cur, c), k.sched.cur;
            && k0.(locks := Acquire(k0.locks, me, m)) == FinishWait(k.(locks := Acquire(k.locks, me, m)), me, c)
            && k0.(locks := Again(k0.locks, m)) == FinishWait(k.(locks := Again(k.locks, m)), me, c)
  {
    var k0, me := FinishWait(k, k.sched.cur, c), k.sched.cur;
    assert Acquire(k0.locks, me, m).lk == SetPc(Acquire(k.locks, me, m), me, Plain).lk;
  }

  lemma ResumeKeeps(k: Kernel)
    requires Inv(k) && Midway(k) && k.sched.cur != IDLE
    requires var x := k.locks.lk[k.sched.cur];
             x.pc.InSchedule? && x.pc.mutex in k.locks.mx && MustWait(k, x.pc.mutex) ==> WalkEnds(Join(k.locks, k.sched.cur, x.pc.mutex), k.sched.cur)
    ensures Inv(ResumeCall(k))
  {
    hide Inv, Calm, Retry, LockCall, Queue;
    var me := k.sched.cur;
    ResumePoint(k);
    var x := k.locks.lk[me];
    if x.sleepOn.Some? {
      var m := x.sleepOn.value;
      if k.locks.mx[m].lock != 1 {
        RetrySleeps(k, m);
      } else if x.pc.InRelock? {
        FinishWaitKeeps(k);
        GrabThenFinish(k, m, x.pc.cond);
        RetryTakes(FinishWait(k, me, x.pc.cond), m);
      } else {
        RetryTakes(k, m);
      }
    } else if x.pc.InUnlock? {
      UnlockedKeeps(k);
    } else if MustWait(k, x.pc.mutex) {
      QueueKeeps(k, x.pc.mutex, InRelock(x.pc.cond, x.pc.mutex));
      assert LockCall(k, x.pc.mutex) == Queue(k, x.pc.mutex) by { MustQueue(k, x.pc.mutex); }
    } else {
      RelockKeeps(k);
    }
  }

  lemma MustQueue(k: Kernel, m: Mid)
    requires Calm(k) && Me(k) && m in k.locks.mx && MustWait(k, m) && WalkEnds(Join(k.locks, k.sched.cur, m), k.sched.cur)
    ensures LockCall(k, m) == Queue(k, m)
  {}

  lemma RelockKeeps(k: Kernel)
    requires Inv(k) && Me(k)
    requires var pc := k.locks.lk[k.sched.cur].pc; pc.InSchedule? && pc.cond in k.cv && pc.mutex in k.locks.mx && !MustWait(k, pc.mutex)
    ensures var pc := k.locks.lk[k.sched.cur].pc; Inv(FinishWait(LockCall(k, pc.mutex), k.sched.cur, pc.cond))
  {
    hide Stable, Valid, Consistent, CondOk, NoLostWakeup, Unlocked, Queue;
    var pc := k.locks.lk[k.sched.cur].pc;
    var k0 := FinishWait(k, k.sched.cur, pc.cond);
    FinishWaitKeeps(k);
    AcquireThenFinish(k, pc.mutex, pc.cond);
    if k.locks.mx[pc.mutex].lock == 1 {
      AcquireKeeps(k0, pc.mutex);
    } else {
      LockValue(k.locks, pc.mutex);
      RecountKeeps(k0, pc.mutex, k.locks.mx[pc.mutex].count + 1);
    }
  }

  /** Where a thread inside a call can be. */
  lemma ResumePoint(k: Kernel)
    requires Inv(k) && Midway(k)
    ensures var x := k.locks.lk[k.sched.cur];
            && Calm(k)
            && (x.sleepOn.Some? ==> x.sleepOn.value in k.locks.mx && (x.pc.Plain? || x.pc == InRelock(x.pc.cond, x.sleepOn.value)))
            && (x.sleepOn == None ==> x.pc.InUnlock? || x.pc.InSchedule?)
            && (!x.pc.Plain? ==> x.pc.cond in k.cv && x.pc.mutex in k.locks.mx)
  {
    assert WaiterOk(k, k.sched.cur);
    assert ThreadOk(k.locks, k.sched.cur);
  }
}
