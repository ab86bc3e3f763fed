/**
 The inheritance walk can meet a mutex that nobody owns: a run in which every thread takes
 its mutexes in ascending order and the last lock call has no step to take.
 */
module NullOwner {
  import opened Seqs
  import opened Sched
  import opened Locks
  import opened Inherit
  import opened Kernel
  import opened Preservation
  import opened Runs
  import opened Safety
  import opened Effects
  import opened Boot

  const B: Tid := 1
  const A: Tid := 2
  const C: Tid := 3

  /** Threads A and B in states a and b, C not created yet, and the locks as given. */
  ghost predicate Snap(k: Kernel, b: RunState, a: RunState, l: Locks) {
    && Inv(k) && Fair(k) && Ceiling(k.sched, DEFAULT_PRIORITY) && k.locks == l
    && IDLE in k.sched.task && B in k.sched.task && A in k.sched.task && C in k.sched.task
    && k.sched.task[IDLE].priority == 0 && (forall t :: t in k.sched.task ==> t <= 3)
    && k.sched.task[B].state == b && k.sched.task[A].state == a && k.sched.task[C].state == Unused
    && (b != Unused ==> k.sched.task[B].priority == DEFAULT_PRIORITY)
    && (a != Unused ==> k.sched.task[A].priority == DEFAULT_PRIORITY)
  }

  /** If only one of them is awake, it runs. */
  lemma RunsAlone(k: Kernel, b: RunState, a: RunState, l: Locks)
    requires Snap(k, b, a, l) && (a == Running <==> b != Running)
    ensures k.sched.cur == if b == Running then B else A
  {
    hide Linked, NoLostWakeup, CondOk, Unlocked, Ceiling;
  }

  lemma SnapCreate(k: Kernel, b: RunState, a: RunState, l: Locks, t: Tid)
    requires Snap(k, b, a, l) && ((t == B && b == Unused) || (t == A && a == Unused))
    ensures Possible(k, Create(t, DEFAULT_PRIORITY))
    ensures Snap(Step(k, Create(t, DEFAULT_PRIORITY)), if t == B then Running else b, if t == A then Running else a, l)
  {
    hide WakeUp, Stable, NoLostWakeup, CondOk, Unlocked, Fair, Valid, Consistent;
    var e := Create(t, DEFAULT_PRIORITY);
    StepKeeps(k, e);
    NewThreadStable(k.sched, t, DEFAULT_PRIORITY);
    WakeUpStable(NewThread(k.sched, t, DEFAULT_PRIORITY), t);
    CreateFair(k, t, DEFAULT_PRIORITY);
  }

  lemma SnapSleep(k: Kernel, b: RunState, a: RunState, l: Locks)
    requires Snap(k, b, a, l) && (a == Running <==> b != Running)
    requires k.sched.cur in l.lk && l.lk[k.sched.cur].sleepOn == None && l.lk[k.sched.cur].pc == Plain
    ensures Possible(k, Sleep)
    ensures Snap(Step(k, Sleep), if b == Running then Sleeping else b, if a == Running then Sleeping else a, l)
  {
    hide GiveUp, Stable, NoLostWakeup, CondOk, Unlocked, Fair, Valid, Consistent;
    RunsAlone(k, b, a, l);
    GiveUpStepEffect(k, Sleep);
    GiveUpStable(k.sched, Sleeping);
    CeilingFrame(k.sched, Step(k, Sleep).sched, DEFAULT_PRIORITY);
  }

  lemma SnapWake(k: Kernel, b: RunState, a: RunState, l: Locks, t: Tid)
    requires Snap(k, b, a, l) && ((t == B && b == Sleeping) || (t == A && a == Sleeping))
    ensures Possible(k, Wake(t))
    ensures Snap(Step(k, Wake(t)), if t == B then Running else b, if t == A then Running else a, l)
  {
    hide WakeUp, Stable, NoLostWakeup, CondOk, Unlocked, Fair, Valid, Consistent;
    CurIn(k);
    InterruptEffect(k, Wake(t));
    WakeUpStable(k.sched, t);
    CeilingFrame(k.sched, Step(k, Wake(t)).sched, DEFAULT_PRIORITY);
  }

  lemma SnapTake(k: Kernel, b: RunState, a: RunState, l: Locks, m: Mid)
    requires Snap(k, b, a, l) && (a == Running <==> b != Running) && m in l.mx && l.mx[m].lock == 1 && l.mx[m].owner == None && !l.mx[m].recursive
    requires k.sched.cur in l.lk && l.lk[k.sched.cur].sleepOn == None && l.lk[k.sched.cur].pc == Plain
    ensures Possible(k, Lock(m)) && Snap(Step(k, Lock(m)), b, a, Acquire(l, if b == Running then B else A, m))
  {
    hide Stable, NoLostWakeup, CondOk, Unlocked, Fair, Valid, Consistent;
    RunsAlone(k, b, a, l);
    LockEffect(k, m);
  }

  /** B, which runs alone, waits for a mutex of A. */
  lemma SnapQueue(k: Kernel, l: Locks, m: Mid)
    requires Snap(k, Running, Sleeping, l) && m in l.mx && l.mx[m].lock != 1 && l.mx[m].owner == Some(A) && !l.mx[m].recursive
    requires A in l.lk && B in l.lk && l.lk[A].sleepOn == None && l.lk[B].sleepOn == None && l.lk[B].pc == Plain
    ensures Possible(k, Lock(m)) && Snap(Step(k, Lock(m)), Sleeping, Sleeping, Contend(Join(l, B, m), m))
  {
    hide Stable, NoLostWakeup, CondOk, Unlocked, Fair, Valid, Consistent, Queue, Ceiling;
    RunsAlone(k, Running, Sleeping, l);
    assert OwnedChain(Join(l, B, m), A, 0);
    assert OwnedChain(Join(l, B, m), B, 1);
    LockEffect(k, m);
    QueueCeiling(k, m, DEFAULT_PRIORITY);
  }

  /** A, which runs alone, gives B the mutex it waits for. */
  lemma SnapUnlock(k: Kernel, l: Locks, m: Mid)
    requires Snap(k, Sleeping, Running, l) && m in l.mx && l.mx[m].lock == -1 && l.mx[m].owner == Some(A) && !l.mx[m].recursive && l.mx[m].wq == [B]
    requires A in l.lk && l.lk[A].sleepOn == None && l.lk[A].pc == Plain
    ensures Possible(k, Unlock(m)) && Snap(Step(k, Unlock(m)), Running, Running, Release(l, A, m))
  {
    hide Stable, NoLostWakeup, CondOk, Unlocked, Fair, Valid, Consistent, HandOver, Reschedule, Ceiling;
    RunsAlone(k, Sleeping, Running, l);
    CountOne(k, m);
    UnlockStepEffect(k, m);
    UnlockCeiling(k, m, DEFAULT_PRIORITY);
  }

  /** A new thread of the highest priority runs at once. */
  lemma SnapOvertake(k: Kernel, b: RunState, a: RunState, l: Locks)
    requires Snap(k, b, a, l)
    ensures Possible(k, Create(C, PRIORITY_MAX))
    ensures var r := Step(k, Create(C, PRIORITY_MAX)); Inv(r) && r.locks == l && r.sched.cur == C
  {
    hide WakeUp, Stable, NoLostWakeup, CondOk, Unlocked, Fair, Valid, Consistent;
    StepKeeps(k, Create(C, PRIORITY_MAX));
    var s := NewThread(k.sched, C, PRIORITY_MAX);
    NewThreadStable(k.sched, C, PRIORITY_MAX);
    WakeUpStable(s, C);
  }

  /** A run in ascending order leads from a start to k. */
  ghost predicate ReachedInOrder(k: Kernel) {
    exists k0, es :: Booted(k0) && Inv(k0) && CanRun(k0, es) && AscendingRun(k0, es) && After(k0, es) == k
  }

  lemma {:induction false} AscendingOn(k: Kernel, es: seq<Event>, e: Event)
    requires Inv(k) && CanRun(k, es) && AscendingRun(k, es)
    requires Possible(After(k, es), e) && Ascending(After(k, es), e) && CanRun(k, es + [e])
    ensures AscendingRun(k, es + [e])
    decreases |es|
  {
    hide Inv, Allowed, Walks, Step, Ascending;
    if es == [] {
      assert (es + [e])[1..] == [];
    } else {
      StepKeeps(k, es[0]);
      assert (es + [e])[1..] == es[1..] + [e];
      AscendingOn(Step(k, es[0]), es[1..], e);
    }
  }

  lemma ReachedInOrderStep(k: Kernel, e: Event)
    requires ReachedInOrder(k) && Possible(k, e) && Ascending(k, e)
    ensures ReachedInOrder(Step(k, e))
  {
    hide Inv, Allowed, Walks, Step, Ascending, Booted;
    var k0, es :| Booted(k0) && Inv(k0) && CanRun(k0, es) && AscendingRun(k0, es) && After(k0, es) == k;
    RunOn(k0, es, e);
    AscendingOn(k0, es, e);
  }

  // The locks before and after the four calls.
  function L0(): Locks { InitKernel(3, {0, 1}, {}, {}).locks }
  function L1(): Locks { Acquire(L0(), B, 0) }
  function L2(): Locks { Acquire(L1(), A, 1) }
  function L3(): Locks { Contend(Join(L2(), B, 1), 1) }
  function L4(): Locks { Release(L3(), A, 1) }

  lemma Start() returns (k: Kernel)
    ensures ReachedInOrder(k) && Snap(k, Unused, Unused, L0())
  {
    hide InitSched, Booted, Inv, Fair;
    k := InitKernel(3, {0, 1}, {}, {});
    InitBooted(3, {0, 1}, {}, {});
    BootedInv(k);
    InitTasks(3);
    InitEff(3);
    assert CanRun(k, []) && AscendingRun(k, []) && After(k, []) == k;
  }

  lemma InitEff(n: nat)
    ensures Ceiling(InitSched(n), 0)
  {}

  lemma StartLocks()
    ensures L0().lk.Keys == {0, 1, 2, 3} && L0().mx.Keys == {0, 1}
    ensures forall t :: t in L0().lk ==> L0().lk[t] == FRESH
    ensures forall m :: m in L0().mx ==> L0().mx[m] == Mutex(1, [], false, None, 0)
  {
    assert Upto(3) == {0, 1, 2, 3};
  }

  /** The one that is awake takes a free mutex, its first, and sleeps. */
  lemma TakeAndSleep(k: Kernel, b: RunState, a: RunState, l: Locks, m: Mid) returns (k': Kernel)
    requires ReachedInOrder(k) && Snap(k, b, a, l) && (a == Running <==> b != Running) && m in l.mx && l.mx[m] == Mutex(1, [], false, None, 0)
    requires var t := if b == Running then B else A; t in l.lk && l.lk[t] == FRESH
    ensures ReachedInOrder(k') && Snap(k', if b == Running then Sleeping else b, if a == Running then Sleeping else a, Acquire(l, if b == Running then B else A, m))
  {
    hide ReachedInOrder, Inv, Fair, Ceiling, Step;
    RunsAlone(k, b, a, l);
    SnapTake(k, b, a, l, m);
    ReachedInOrderStep(k, Lock(m));
    var k1 := Step(k, Lock(m));
    var l1 := Acquire(l, if b == Running then B else A, m);
    RunsAlone(k1, b, a, l1);
    SnapSleep(k1, b, a, l1);
    ReachedInOrderStep(k1, Sleep);
    k' := Step(k1, Sleep);
  }

  /** B takes the first mutex, A the second, and both sleep. */
  lemma BothHold() returns (k: Kernel)
    ensures ReachedInOrder(k) && Snap(k, Sleeping, Sleeping, L2())
  {
    hide ReachedInOrder, Snap, Possible, Step, L0;
    StartLocks();
    k := Start();
    SnapCreate(k, Unused, Unused, L0(), B);
    ReachedInOrderStep(k, Create(B, DEFAULT_PRIORITY));
    k := Step(k, Create(B, DEFAULT_PRIORITY));
    k := TakeAndSleep(k, Running, Unused, L0(), 0);
    SnapCreate(k, Sleeping, Unused, L1(), A);
    ReachedInOrderStep(k, Create(A, DEFAULT_PRIORITY));
    k := Step(k, Create(A, DEFAULT_PRIORITY));
    k := TakeAndSleep(k, Sleeping, Running, L1(), 1);
  }

  /** B waits for the second mutex, and A gives it back. */
  lemma BothAwake() returns (k: Kernel)
    ensures ReachedInOrder(k) && Snap(k, Running, Running, L4())
  {
    hide ReachedInOrder, Possible, Step, L0, Inv, Fair, Ceiling;
    StartLocks();
    k := BothHold();
    SnapWake(k, Sleeping, Sleeping, L2(), B);
    ReachedInOrderStep(k, Wake(B));
    k := Step(k, Wake(B));
    SnapQueue(k, L2(), 1);
    RunsAlone(k, Running, Sleeping, L2());
    ReachedInOrderStep(k, Lock(1));
    k := Step(k, Lock(1));
    SnapWake(k, Sleeping, Sleeping, L3(), A);
    ReachedInOrderStep(k, Wake(A));
    k := Step(k, Wake(A));
    SnapUnlock(k, L3(), 1);
    ReachedInOrderStep(k, Unlock(1));
    k := Step(k, Unlock(1));
  }

  /**
   Ordered acquisition alone does not save the walk: a thread may lock a mutex, by the rules
   and in order, whose owner is a woken waiter that has not run yet, and the walk meets the
   mutex that this waiter is still queued on and nobody owns.
   */
  lemma OrderedRunMeetsNullOwner() returns (k: Kernel, m: Mid)
    ensures ReachedInOrder(k) && Allowed(k, Lock(m)) && Ascending(k, Lock(m)) && MustWait(k, m)
    ensures Dangles(Join(k.locks, k.sched.cur, m), k.sched.cur, 1)
    ensures !WalkEnds(Join(k.locks, k.sched.cur, m), k.sched.cur)
  {
    hide ReachedInOrder, Possible, Step, L0, Inv, Fair, Ceiling;
    StartLocks();
    k := BothAwake();
    SnapOvertake(k, Running, Running, L4());
    ReachedInOrderStep(k, Create(C, PRIORITY_MAX));
    k := Step(k, Create(C, PRIORITY_MAX));
    m := 0;
    var l := Join(k.locks, C, 0);
    assert Dangles(l, B, 0);
    assert Dangles(l, C, 1);
    if WalkEnds(l, C) {
      OneEnd(l, C, ChainLength(l, C), 1);
    }
  }
}
