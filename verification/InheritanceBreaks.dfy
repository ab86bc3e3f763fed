/**
 Two runs after which priority inheritance does not hold, one for each kind of step that breaks it.
 Every state on the way is orderly, so priorities and locks decide who runs.
 */
module InheritanceBreaks {
  import opened Seqs
  import opened Sched
  import opened Locks
  import opened Inherit
  import opened Kernel
  import opened Preservation
  import opened Runs
  import opened Safety
  import opened Effects
  import opened PriorityChange
  import opened Settling
  import Boot

  datatype Role = Role(priority: nat, state: RunState)

  /** An orderly state with the given locks, in which thread t is as f[t] says. */
  ghost predicate At(k: Kernel, l: Locks, f: seq<Role>) {
    && Inv(k) && Orderly(k) && k.locks == l
    && (forall t: Tid :: t in k.sched.task <==> t < |f|)
    && (forall t: Tid :: t < |f| ==> k.sched.task[t].state == f[t].state && (f[t].state != Unused ==> k.sched.task[t].priority == f[t].priority))
  }

  lemma OrderlyFair(k: Kernel)
    requires Inv(k) && Orderly(k)
    ensures Fair(k)
  {
    hide NoLostWakeup, CondOk, WaitsFor, Stable;
    IdleBare(k);
    FreshWaits(k, IDLE);
    forall t | t in k.sched.task ensures k.sched.task[t].priority <= k.sched.task[t].eff {
      assert Settled(k.sched, k.locks, t);
    }
    assert IDLE in k.sched.task ==> Settled(k.sched, k.locks, IDLE);
  }

  /** A thread that nobody waits for runs at its own priority. */
  lemma OwnPriority(k: Kernel, l: Locks, f: seq<Role>, t: Tid)
    requires At(k, l, f) && t < |f| && f[t].state != Unused && forall w :: !WaitsFor(l, w, t)
    ensures t in k.sched.task && k.sched.task[t].eff == f[t].priority
  {
    hide Inv, NoSelfWait, Highest, WaitsFor;
    assert Settled(k.sched, k.locks, t);
  }

  /** Of all threads that are awake, t has the highest priority, and nobody else inherits one. */
  lemma Runner(k: Kernel, l: Locks, f: seq<Role>, t: Tid)
    requires At(k, l, f) && t < |f| && f[t].state == Running
    requires forall u: Tid :: u < |f| && u != t && f[u].state == Running ==> f[u].priority < f[t].priority && forall w :: !WaitsFor(l, w, u)
    ensures k.sched.cur == t
  {
    hide At, WaitsFor;
    Leader(k, l, f, t, f[t].priority);
  }

  lemma AtCreate(k: Kernel, l: Locks, f: seq<Role>, t: Tid, p: nat)
    requires At(k, l, f) && t < |f| && f[t].state == Unused && p <= PRIORITY_MAX
    ensures Possible(k, Create(t, p)) && At(Step(k, Create(t, p)), l, f[t := Role(p, Running)])
  {
    hide WakeUp, Stable, Linked, NoLostWakeup, CondOk, Unlocked, Orderly;
    var e := Create(t, p);
    assert Linked(k.sched, k.locks) by { CalmNow(k); }
    StepKeeps(k, e);
    StepOrderly(k, e);
    NewThreadStable(k.sched, t, p);
    WakeUpStable(NewThread(k.sched, t, p), t);
  }

  /** After a step that keeps inheritance. */
  lemma StillAt(k: Kernel, e: Event, l: Locks, f: seq<Role>)
    requires Possible(k, e) && Orderly(k) && Heeds(k, e) && Step(k, e).locks == l
    requires forall t: Tid :: t in Step(k, e).sched.task <==> t < |f|
    requires forall t: Tid :: t < |f| ==>
               var x := Step(k, e).sched.task[t]; x.state == f[t].state && (f[t].state != Unused ==> x.priority == f[t].priority)
    ensures At(Step(k, e), l, f)
  {
    hide Inv, Orderly, Step, Heeds;
    StepKeeps(k, e);
    CalmNow(k);
    StepOrderly(k, e);
  }

  /** A step that takes no free mutex and changes no priority keeps inheritance. */
  lemma PlainlyHeeds(k: Kernel, e: Event)
    requires Linked(k.sched, k.locks) && Taken(k, e) == None && !e.SetPriority?
    ensures Heeds(k, e)
  {}

  /** The running thread may make a call. */
  predicate Calls(l: Locks, t: Tid) {
    t != IDLE && t in l.lk && l.lk[t].sleepOn == None && l.lk[t].pc == Plain
  }

  lemma AtSleep(k: Kernel, l: Locks, f: seq<Role>, t: Tid)
    requires At(k, l, f) && k.sched.cur == t < |f| && Calls(l, t)
    ensures Possible(k, Sleep) && At(Step(k, Sleep), l, f[t := f[t].(state := Sleeping)])
  {
    hide Inv, Orderly, GiveUp;
    CalmNow(k);
    OrderlyFair(k);
    GiveUpStepEffect(k, Sleep);
    RunningNow(k);
    StillAt(k, Sleep, l, f[t := f[t].(state := Sleeping)]);
  }

  lemma AtWake(k: Kernel, l: Locks, f: seq<Role>, t: Tid)
    requires At(k, l, f) && t < |f| && f[t].state == Sleeping
    ensures Possible(k, Wake(t)) && At(Step(k, Wake(t)), l, f[t := f[t].(state := Running)])
  {
    hide Inv, Orderly, WakeUp;
    CalmNow(k);
    OrderlyFair(k);
    RunningNow(k);
    InterruptEffect(k, Wake(t));
    StillAt(k, Wake(t), l, f[t := f[t].(state := Running)]);
  }

  /** Taking a free mutex that nobody waits for, or nobody of a higher priority. */
  lemma AtTake(k: Kernel, l: Locks, f: seq<Role>, t: Tid, m: Mid)
    requires At(k, l, f) && k.sched.cur == t < |f| && Calls(l, t) && m in l.mx && l.mx[m].lock == 1 && l.mx[m].owner == None && !l.mx[m].recursive
    requires TakesFairly(k, m)
    ensures Possible(k, Lock(m)) && At(Step(k, Lock(m)), Acquire(l, t, m), f)
  {
    hide Inv, Orderly, Calm, Stable, Linked, Step, Acquire;
    CalmNow(k);
    OrderlyFair(k);
    LockEffect(k, m);
    StillAt(k, Lock(m), Acquire(l, t, m), f);
  }

  lemma ShortWalk(l: Locks, t: Tid, m: Mid, o: Tid)
    requires t in l.lk && m in l.mx && l.mx[m].owner == Some(o) && o != t && o in l.lk && l.lk[o].sleepOn == None
    ensures WalkEnds(Join(l, t, m), t)
  {
    assert OwnedChain(Join(l, t, m), o, 0);
    assert OwnedChain(Join(l, t, m), t, 1);
  }

  /** Waiting for a mutex whose owner waits for nothing. */
  lemma AtQueue(k: Kernel, l: Locks, f: seq<Role>, t: Tid, m: Mid, o: Tid)
    requires At(k, l, f) && k.sched.cur == t < |f| && Calls(l, t) && m in l.mx && l.mx[m].lock != 1 && l.mx[m].owner == Some(o) && !l.mx[m].recursive
    requires o != t && o in l.lk && l.lk[o].sleepOn == None
    ensures Possible(k, Lock(m)) && At(Step(k, Lock(m)), Contend(Join(l, t, m), m), f[t := f[t].(state := Sleeping)])
  {
    hide Inv, Orderly, Calm, Stable, Linked, Step, Heeds;
    CalmNow(k);
    OrderlyFair(k);
    ShortWalk(l, t, m, o);
    LockEffect(k, m);
    PlainlyHeeds(k, Lock(m));
    StillAt(k, Lock(m), Contend(Join(l, t, m), m), f[t := f[t].(state := Sleeping)]);
  }

  /** The unlock of a contended mutex, whose best waiter is w. */
  lemma AtUnlock(k: Kernel, l: Locks, f: seq<Role>, t: Tid, m: Mid, w: Tid)
    requires At(k, l, f) && k.sched.cur == t < |f| && Calls(l, t) && m in l.mx && l.mx[m].lock == -1 && l.mx[m].owner == Some(t) && !l.mx[m].recursive
    requires w < |f| && w != t && (forall u :: u in l.mx[m].wq ==> u in k.sched.task) && Best(k.sched.task, l.mx[m].wq) == Some(w)
    ensures Possible(k, Unlock(m)) && At(Step(k, Unlock(m)), Release(l, t, m), f[w := f[w].(state := Running)])
  {
    hide Inv, Orderly, Calm, Stable, Linked, Step, Release, Best, Heeds;
    CalmNow(k);
    OrderlyFair(k);
    UnlockStepEffect(k, m);
    PlainlyHeeds(k, Unlock(m));
    AwakeUsed(k, l, f, m, w);
    StillAt(k, Unlock(m), Release(l, t, m), f[w := f[w].(state := Running)]);
  }

  lemma AwakeUsed(k: Kernel, l: Locks, f: seq<Role>, m: Mid, w: Tid)
    requires At(k, l, f) && m in l.mx && (forall u :: u in l.mx[m].wq ==> u in k.sched.task) && Best(k.sched.task, l.mx[m].wq) == Some(w)
    ensures w < |f| && f[w].state != Unused
  {
    hide Stable, NoLostWakeup, CondOk, Orderly, Best;
    assert w in l.mx[m].wq;
    assert MutexOk(l, m);
  }

  /** A waiter that finds the mutex free. */
  lemma AtGrab(k: Kernel, l: Locks, f: seq<Role>, t: Tid, m: Mid)
    requires At(k, l, f) && k.sched.cur == t < |f| && t != IDLE && t in l.lk && l.lk[t].sleepOn == Some(m) && l.lk[t].pc == Plain && m in l.mx && l.mx[m].lock == 1
    ensures Possible(k, Resume) && At(Step(k, Resume), Grab(l, t, m), f)
  {
    hide Inv, Orderly, Calm, Stable, Linked, Step, Grab, Heeds;
    CalmNow(k);
    OrderlyFair(k);
    ResumeLockEffect(k, m);
    PlainlyHeeds(k, Resume);
    StillAt(k, Resume, Grab(l, t, m), f);
  }

  lemma RepriorityQueued(k: Kernel, t: Tid, p: nat)
    requires Calm(k) && t in k.sched.task && k.sched.task[t].state == Running && p <= PRIORITY_MAX
    ensures k.sched.task[t].queued && !Propagates(k.sched, k.locks, t, p)
    ensures var r := Repriority(k.sched, k.locks, t, p);
            && r.task.Keys == k.sched.task.Keys
            && forall u :: u in k.sched.task ==>
                 r.task[u].state == k.sched.task[u].state && r.task[u].priority == if u == t then p else k.sched.task[u].priority
  {
    hide Valid, Consistent, Recompute, Inherited;
    PriorityLinked(k.sched, k.locks, t, p);
    var s0 := WithPriority(k.sched, t, p);
    RecomputeRepriced(s0, k.locks, t);
  }

  /** A new priority for a thread in the run queue that waits for no owner. */
  lemma AtPriority(k: Kernel, l: Locks, f: seq<Role>, c: Tid, t: Tid, p: nat)
    requires At(k, l, f) && k.sched.cur == c && Calls(l, c) && t < |f| && f[t].state == Running && p <= PRIORITY_MAX && forall o :: !WaitsFor(l, t, o)
    ensures Possible(k, SetPriority(t, p)) && At(Step(k, SetPriority(t, p)), l, f[t := f[t].(priority := p)])
  {
    hide Inv, Orderly, Calm, Stable, Linked, Step, Propagates, WaitsFor, Heeds;
    CalmNow(k);
    PriorityEffect(k, t, p);
    Unconcerned(k, t, p);
    StillAt(k, SetPriority(t, p), l, f[t := f[t].(priority := p)]);
  }

  lemma Unconcerned(k: Kernel, t: Tid, p: nat)
    requires Linked(k.sched, k.locks) && forall o :: !WaitsFor(k.locks, t, o)
    ensures Heeds(k, SetPriority(t, p))
  {
    hide Linked, WaitsFor, Covered, Inherited;
  }

  lemma PriorityEffect(k: Kernel, t: Tid, p: nat)
    requires Inv(k) && Allowed(k, SetPriority(t, p)) && k.sched.task[t].state == Running
    ensures Possible(k, SetPriority(t, p))
    ensures var k' := Step(k, SetPriority(t, p));
            && k'.locks == k.locks && k'.sched.task.Keys == k.sched.task.Keys
            && forall u :: u in k.sched.task ==>
                 k'.sched.task[u].state == k.sched.task[u].state && k'.sched.task[u].priority == if u == t then p else k.sched.task[u].priority
  {
    hide Inv, Stable, Linked, Repriority, Reschedule, Propagates;
    CalmNow(k);
    RepriorityQueued(k, t, p);
    RepriorityStable(k.sched, k.locks, t, p);
    var r := Repriority(k.sched, k.locks, t, p);
    StableBeforeSwitch(r);
    RescheduleStable(r);
  }

  // ---- the start ----

  const FREE := Role(0, Unused)

  function Empty(n: nat): (f: seq<Role>)
    ensures |f| == n + 1 && f[0] == Role(0, Running) && forall t :: 1 <= t <= n ==> f[t] == FREE
  {
    [Role(0, Running)] + seq(n, _ => FREE)
  }

  lemma InitAt(n: nat, mx: set<Mid>)
    ensures var k := Boot.InitKernel(n, mx, {}, {}); Reached(k) && At(k, k.locks, Empty(n))
  {
    hide Booted, Inv, Reached, Orderly, Boot.InitSched;
    var k := Boot.InitKernel(n, mx, {}, {});
    Boot.InitBooted(n, mx, {}, {});
    BootedInv(k);
    Boot.InitTasks(n);
    StartReached(k);
    InitOrderly(n, mx);
  }

  lemma StartReached(k: Kernel)
    requires Booted(k) && Inv(k)
    ensures Reached(k)
  {
    hide Booted, Inv;
    assert CanRun(k, []) && After(k, []) == k;
  }

  lemma InitOrderly(n: nat, mx: set<Mid>)
    ensures Orderly(Boot.InitKernel(n, mx, {}, {}))
  {
    var k := Boot.InitKernel(n, mx, {}, {});
    assert forall w, v :: !WaitsFor(k.locks, w, v);
    forall t | t in k.sched.task ensures Settled(k.sched, k.locks, t) {}
  }

  // ---- a priority that is not passed on ----

  const A: Tid := 1
  const B: Tid := 2
  const C: Tid := 3

  function L0(): Locks { Boot.InitKernel(3, {0}, {}, {}).locks }
  function L1(): Locks { Acquire(L0(), A, 0) }
  function L2(): Locks { Contend(Join(L1(), B, 0), 0) }
  function L3(): Locks { Release(L2(), A, 0) }
  function L4(): Locks { Acquire(L3(), C, 0) }

  const IDLING := Role(0, Running)

  lemma StartLocks()
    ensures L0().lk.Keys == {0, 1, 2, 3} && L0().mx.Keys == {0}
    ensures forall t :: t in L0().lk ==> L0().lk[t] == FRESH
    ensures L0().mx[0] == Mutex(1, [], false, None, 0)
  {
    assert Boot.Upto(3) == {0, 1, 2, 3};
  }

  lemma Begin() returns (k: Kernel)
    ensures Reached(k) && At(k, L0(), [IDLING, FREE, FREE, FREE])
  {
    hide Reached, At;
    InitAt(3, {0});
    k := Boot.InitKernel(3, {0}, {}, {});
    assert Empty(3) == [IDLING, FREE, FREE, FREE];
  }

  lemma Untaken(k: Kernel, l: Locks, f: seq<Role>, m: Mid)
    requires At(k, l, f) && m in l.mx && l.mx[m].wq == []
    ensures TakesFairly(k, m)
  {
    hide Linked, NoLostWakeup, CondOk, Unlocked, Orderly;
  }

  /** A takes the mutex and sleeps, with B ready. */
  lemma Taken0() returns (k: Kernel)
    ensures Reached(k) && At(k, L1(), [IDLING, Role(17, Sleeping), Role(16, Running), FREE])
  {
    hide Reached, At, Possible, Step, L0;
    StartLocks();
    k := Begin();
    var f := [IDLING, FREE, FREE, FREE];
    AtCreate(k, L0(), f, A, 17);
    ReachedStep(k, Create(A, 17));
    k := Step(k, Create(A, 17));
    var g := [IDLING, Role(17, Running), FREE, FREE];
    assert f[A := Role(17, Running)] == g;
    Runner(k, L0(), g, A);
    Untaken(k, L0(), g, 0);
    AtTake(k, L0(), g, A, 0);
    ReachedStep(k, Lock(0));
    k := Step(k, Lock(0));
    AtCreate(k, L1(), g, B, 16);
    ReachedStep(k, Create(B, 16));
    k := Step(k, Create(B, 16));
    var h := [IDLING, Role(17, Running), Role(16, Running), FREE];
    assert g[B := Role(16, Running)] == h;
    Runner(k, L1(), h, A);
    AtSleep(k, L1(), h, A);
    ReachedStep(k, Sleep);
    k := Step(k, Sleep);
    assert h[A := h[A].(state := Sleeping)] == [IDLING, Role(17, Sleeping), Role(16, Running), FREE];
  }

  /** B waits for it, and A comes back and gives it up. */
  lemma GivenUp() returns (k: Kernel)
    ensures Reached(k) && At(k, L3(), [IDLING, Role(17, Running), Role(16, Running), FREE])
  {
    hide Reached, At, Possible, Step, L0, Best;
    StartLocks();
    k := Taken0();
    var f := [IDLING, Role(17, Sleeping), Role(16, Running), FREE];
    Runner(k, L1(), f, B);
    AtQueue(k, L1(), f, B, 0, A);
    ReachedStep(k, Lock(0));
    k := Step(k, Lock(0));
    var g := [IDLING, Role(17, Sleeping), Role(16, Sleeping), FREE];
    assert f[B := f[B].(state := Sleeping)] == g;
    AtWake(k, L2(), g, A);
    ReachedStep(k, Wake(A));
    k := Step(k, Wake(A));
    var h := [IDLING, Role(17, Running), Role(16, Sleeping), FREE];
    assert g[A := g[A].(state := Running)] == h;
    Runner(k, L2(), h, A);
    OnlyWaiter(k, L2(), h, 0, B);
    AtUnlock(k, L2(), h, A, 0, B);
    ReachedStep(k, Unlock(0));
    k := Step(k, Unlock(0));
    assert h[B := h[B].(state := Running)] == [IDLING, Role(17, Running), Role(16, Running), FREE];
  }

  lemma OnlyWaiter(k: Kernel, l: Locks, f: seq<Role>, m: Mid, w: Tid)
    requires At(k, l, f) && m in l.mx && l.mx[m].wq == [w] && w < |f|
    ensures (forall u :: u in l.mx[m].wq ==> u in k.sched.task) && Best(k.sched.task, l.mx[m].wq) == Some(w)
  {
    hide Inv, Orderly;
  }

  /**
   C takes the mutex before B has run and raises B.  B waits for C now, and C does not get B's
   priority, because B is in the run queue.
   */
  lemma PriorityNotPassedOn() returns (k: Kernel, e: Event)
    ensures Reached(k) && Possible(k, e) && e.SetPriority? && Orderly(k) && !Inherits(Step(k, e))
  {
    hide Reached, At, Possible, Step, L0, Orderly, Heeds, Inherits, WaitsFor, TakesFairly;
    StartLocks();
    Waits();
    k := GivenUp();
    var f := [IDLING, Role(17, Running), Role(16, Running), FREE];
    AtCreate(k, L3(), f, C, 20);
    ReachedStep(k, Create(C, 20));
    k := Step(k, Create(C, 20));
    var g := [IDLING, Role(17, Running), Role(16, Running), Role(20, Running)];
    assert f[C := Role(20, Running)] == g;
    Runner(k, L3(), g, C);
    FairTo(k, L3(), g, C, 0, B);
    AtTake(k, L3(), g, C, 0);
    ReachedStep(k, Lock(0));
    k := Step(k, Lock(0));
    e := SetPriority(B, PRIORITY_MAX);
    Runner(k, L4(), g, C);
    Raises(k, L4(), g, C, B, C, PRIORITY_MAX);
    OrderlyThere(k, L4(), g);
    BreaksIff(k, e);
  }

  lemma OrderlyThere(k: Kernel, l: Locks, f: seq<Role>)
    requires At(k, l, f)
    ensures Orderly(k)
  {}

  lemma BreaksIff(k: Kernel, e: Event)
    requires Possible(k, e) && Orderly(k)
    ensures Inherits(Step(k, e)) <==> Heeds(k, e)
  {
    hide Possible, Step, Inherits, NoSelfWait, Highest, Heeds;
    StepSettledIff(k, e);
  }

  lemma FairTo(k: Kernel, l: Locks, f: seq<Role>, t: Tid, m: Mid, w: Tid)
    requires At(k, l, f) && k.sched.cur == t < |f| && w < |f| && m in l.mx && l.mx[m].wq == [w] && f[w].state != Unused && f[t].state != Unused
    requires f[w].priority <= f[t].priority && forall u :: !WaitsFor(l, u, w) && !WaitsFor(l, u, t)
    ensures TakesFairly(k, m)
  {
    hide Inv, Orderly, WaitsFor;
    OwnPriority(k, l, f, w);
    OwnPriority(k, l, f, t);
  }

  /** Raising a queued waiter above the owner it waits for. */
  lemma Raises(k: Kernel, l: Locks, f: seq<Role>, c: Tid, t: Tid, o: Tid, p: nat)
    requires At(k, l, f) && k.sched.cur == c && Calls(l, c) && t < |f| && o < |f| && f[t].state == Running && f[o].state != Unused
    requires f[t].priority < p && f[o].priority < p <= PRIORITY_MAX
    requires WaitsFor(l, t, o) && (forall w :: !WaitsFor(l, w, t)) && (forall w :: WaitsFor(l, w, o) ==> w == t)
    ensures Possible(k, SetPriority(t, p)) && !Heeds(k, SetPriority(t, p))
  {
    hide Inv, Orderly, WaitsFor, Inherited, Linked, Stable, Calm, Step, Repriority, Propagates;
    CalmNow(k);
    PriorityEffect(k, t, p);
    RepriorityQueued(k, t, p);
    OwnPriority(k, l, f, t);
    BelowNew(k, l, f, t, o, p);
    PriorityLinked(k.sched, l, t, p);
    NewPriority(k.sched, l, t, p);
  }

  lemma NewPriority(s: Sched, l: Locks, t: Tid, p: nat)
    requires t in s.task && Linked(WithPriority(s, t, p), l) && forall w :: !WaitsFor(l, w, t)
    ensures Inherited(WithPriority(s, t, p), l, t) == p
  {
    hide Linked, Inherited, WaitsFor;
    InheritedIsHighest(WithPriority(s, t, p), l, t);
  }

  lemma BelowNew(k: Kernel, l: Locks, f: seq<Role>, t: Tid, o: Tid, p: nat)
    requires At(k, l, f) && t < |f| && o < |f| && f[o].state != Unused && f[o].priority < p
    requires k.sched.task[t].eff < p && forall w :: WaitsFor(l, w, o) ==> w == t
    ensures k.sched.task[o].eff < p
  {
    hide Inv, NoSelfWait, Highest, WaitsFor;
    assert Settled(k.sched, k.locks, o);
  }

  lemma Waits()
    ensures forall w, v :: !WaitsFor(L3(), w, v)
    ensures forall w, v :: WaitsFor(L4(), w, v) <==> w == B && v == C
  {
    hide L0;
    StartLocks();
  }

  // ---- a mutex taken over the head of a waiter ----

  const B1: Tid := 2
  const B2: Tid := 3
  const D: Tid := 4

  function K0(): Locks { Boot.InitKernel(4, {0, 1}, {}, {}).locks }
  function K1(): Locks { Acquire(K0(), A, 0) }
  function K2(): Locks { Acquire(K1(), A, 1) }
  function K3(): Locks { Contend(Join(K2(), B1, 0), 0) }
  function K4(): Locks { Contend(Join(K3(), B2, 0), 0) }
  function K5(): Locks { Contend(Join(K4(), D, 1), 1) }
  function K6(): Locks { Release(K5(), A, 0) }
  function K7(): Locks { Release(K6(), A, 1) }
  function K8(): Locks { Grab(K7(), D, 1) }

  lemma MoreLocks()
    ensures K0().lk.Keys == {0, 1, 2, 3, 4} && K0().mx.Keys == {0, 1}
    ensures forall t :: t in K0().lk ==> K0().lk[t] == FRESH
    ensures forall m :: m in K0().mx ==> K0().mx[m] == Mutex(1, [], false, None, 0)
  {
    assert Boot.Upto(4) == {0, 1, 2, 3, 4};
  }

  /** Who waits for whom. */
  lemma MoreWaits()
    ensures forall w, v :: !WaitsFor(K0(), w, v) && !WaitsFor(K1(), w, v) && !WaitsFor(K2(), w, v)
    ensures forall w, v :: WaitsFor(K3(), w, v) <==> w == B1 && v == A
    ensures forall w, v :: WaitsFor(K4(), w, v) <==> (w == B1 || w == B2) && v == A
    ensures forall w, v :: WaitsFor(K5(), w, v) <==> (w == B1 || w == B2 || w == D) && v == A
  {
    hide K0;
    MoreLocks();
  }

  lemma LaterWaits()
    ensures forall w, v :: WaitsFor(K6(), w, v) <==> w == D && v == A
    ensures forall w, v :: !WaitsFor(K7(), w, v) && !WaitsFor(K8(), w, v)
  {
    hide K0;
    MoreLocks();
  }

  /** t has at least the priority p, its own or a waiter's, and every other thread that is awake has less. */
  lemma Leader(k: Kernel, l: Locks, f: seq<Role>, t: Tid, p: nat)
    requires At(k, l, f) && t < |f| && f[t].state == Running
    requires p <= f[t].priority || exists w: Tid :: w < |f| && f[w].state != Unused && p <= f[w].priority && WaitsFor(l, w, t)
    requires forall u: Tid :: u < |f| && u != t && f[u].state == Running ==> f[u].priority < p
    requires forall u: Tid, w: Tid :: u < |f| && u != t && f[u].state == Running && WaitsFor(l, w, u) ==>
               w < |f| && f[w].state != Unused && f[w].priority < p && forall v :: !WaitsFor(l, v, w)
    ensures k.sched.cur == t
  {
    hide Linked, NoLostWakeup, CondOk, Unlocked, NoSelfWait, WaitsFor;
    assert Settled(k.sched, k.locks, t);
    if w: Tid :| w < |f| && f[w].state != Unused && p <= f[w].priority && WaitsFor(l, w, t) {
      assert Settled(k.sched, k.locks, w);
    }
    var u := k.sched.cur;
    if u != t {
      assert Settled(k.sched, k.locks, u);
      if w :| WaitsFor(l, w, u) && k.sched.task[w].eff == k.sched.task[u].eff {
        OwnPriority(k, l, f, w);
      }
    }
  }

  /** A holds both mutexes. */
  lemma HoldsBoth() returns (k: Kernel)
    ensures Reached(k) && At(k, K2(), [IDLING, Role(10, Running), FREE, FREE, FREE])
  {
    hide Reached, At, Possible, Step, K0, WaitsFor;
    MoreLocks();
    MoreWaits();
    k := BeginMore();
    var f := [IDLING, FREE, FREE, FREE, FREE];
    AtCreate(k, K0(), f, A, 10);
    ReachedStep(k, Create(A, 10));
    k := Step(k, Create(A, 10));
    var g := [IDLING, Role(10, Running), FREE, FREE, FREE];
    assert f[A := Role(10, Running)] == g;
    Leader(k, K0(), g, A, 10);
    Untaken(k, K0(), g, 0);
    AtTake(k, K0(), g, A, 0);
    ReachedStep(k, Lock(0));
    k := Step(k, Lock(0));
    Leader(k, K1(), g, A, 10);
    Untaken(k, K1(), g, 1);
    AtTake(k, K1(), g, A, 1);
    ReachedStep(k, Lock(1));
    k := Step(k, Lock(1));
  }

  lemma BeginMore() returns (k: Kernel)
    ensures Reached(k) && At(k, K0(), [IDLING, FREE, FREE, FREE, FREE])
  {
    hide Reached, At;
    InitAt(4, {0, 1});
    k := Boot.InitKernel(4, {0, 1}, {}, {});
    assert Empty(4) == [IDLING, FREE, FREE, FREE, FREE];
  }

  /** A new thread of priority p runs at once and waits for a mutex of A. */
  lemma Arrives(k: Kernel, l: Locks, f: seq<Role>, t: Tid, p: nat, m: Mid) returns (k': Kernel)
    requires Reached(k) && At(k, l, f) && t < |f| && f[t] == FREE && 0 < p <= PRIORITY_MAX && Calls(l, t) && t != A && A < |f|
    requires m in l.mx && l.mx[m].lock != 1 && l.mx[m].owner == Some(A) && !l.mx[m].recursive && A in l.lk && l.lk[A].sleepOn == None
    requires forall u: Tid :: u < |f| ==> f[u].priority < p && (f[u].state == Running ==> u == A || u == IDLE)
    requires forall w: Tid, v :: WaitsFor(l, w, v) ==> v == A && w != A && w < |f| && f[w].state != Unused
    ensures Reached(k') && At(k', Contend(Join(l, t, m), m), f[t := Role(p, Sleeping)])
  {
    hide Reached, At, Possible, Step, WaitsFor;
    AtCreate(k, l, f, t, p);
    ReachedStep(k, Create(t, p));
    k' := Step(k, Create(t, p));
    var g := f[t := Role(p, Running)];
    Leader(k', l, g, t, p);
    AtQueue(k', l, g, t, m, A);
    ReachedStep(k', Lock(m));
    k' := Step(k', Lock(m));
    assert g[t := g[t].(state := Sleeping)] == f[t := Role(p, Sleeping)];
  }

  /** Two threads wait for the one mutex and D for the other. */
  lemma ThreeWait() returns (k: Kernel)
    ensures Reached(k) && At(k, K5(), [IDLING, Role(10, Running), Role(16, Sleeping), Role(20, Sleeping), Role(31, Sleeping)])
  {
    hide Reached, At, K0, WaitsFor;
    MoreLocks();
    MoreWaits();
    k := HoldsBoth();
    var f := [IDLING, Role(10, Running), FREE, FREE, FREE];
    k := Arrives(k, K2(), f, B1, 16, 0);
    var g := [IDLING, Role(10, Running), Role(16, Sleeping), FREE, FREE];
    assert f[B1 := Role(16, Sleeping)] == g;
    k := Arrives(k, K3(), g, B2, 20, 0);
    var h := [IDLING, Role(10, Running), Role(16, Sleeping), Role(20, Sleeping), FREE];
    assert g[B2 := Role(20, Sleeping)] == h;
    k := Arrives(k, K4(), h, D, 31, 1);
    assert h[D := Role(31, Sleeping)] == [IDLING, Role(10, Running), Role(16, Sleeping), Role(20, Sleeping), Role(31, Sleeping)];
  }

  /** A gives up the first: B2 wakes up, but A goes on with the priority of D. */
  lemma GivesOne() returns (k: Kernel)
    ensures Reached(k) && At(k, K6(), [IDLING, Role(10, Running), Role(16, Sleeping), Role(20, Running), Role(31, Sleeping)])
  {
    hide Reached, At, Possible, Step, K0, WaitsFor, Best;
    MoreLocks();
    MoreWaits();
    k := ThreeWait();
    var f := [IDLING, Role(10, Running), Role(16, Sleeping), Role(20, Sleeping), Role(31, Sleeping)];
    Leader(k, K5(), f, A, 10);
    BestOfTwo(k, K5(), f, 0, B1, B2);
    AtUnlock(k, K5(), f, A, 0, B2);
    ReachedStep(k, Unlock(0));
    k := Step(k, Unlock(0));
    assert f[B2 := f[B2].(state := Running)] == [IDLING, Role(10, Running), Role(16, Sleeping), Role(20, Running), Role(31, Sleeping)];
  }

  /** A gives up the other: D wakes up. */
  lemma GivesBoth() returns (k: Kernel)
    ensures Reached(k) && At(k, K7(), [IDLING, Role(10, Running), Role(16, Sleeping), Role(20, Running), Role(31, Running)])
  {
    hide Reached, At, Possible, Step, K0, WaitsFor, Best;
    MoreLocks();
    LaterWaits();
    k := GivesOne();
    var g := [IDLING, Role(10, Running), Role(16, Sleeping), Role(20, Running), Role(31, Sleeping)];
    assert WaitsFor(K6(), D, A);
    Leader(k, K6(), g, A, 31);
    OnlyWaiter(k, K6(), g, 1, D);
    AtUnlock(k, K6(), g, A, 1, D);
    ReachedStep(k, Unlock(1));
    k := Step(k, Unlock(1));
    assert g[D := g[D].(state := Running)] == [IDLING, Role(10, Running), Role(16, Sleeping), Role(20, Running), Role(31, Running)];
  }

  lemma BestOfTwo(k: Kernel, l: Locks, f: seq<Role>, m: Mid, w: Tid, v: Tid)
    requires At(k, l, f) && m in l.mx && l.mx[m].wq == [w, v] && w < |f| && v < |f| && f[w].state != Unused && f[v].state != Unused
    requires f[w].priority < f[v].priority && forall u :: !WaitsFor(l, u, w) && !WaitsFor(l, u, v)
    ensures (forall u :: u in l.mx[m].wq ==> u in k.sched.task) && Best(k.sched.task, l.mx[m].wq) == Some(v)
  {
    hide Inv, Orderly, WaitsFor;
    OwnPriority(k, l, f, w);
    OwnPriority(k, l, f, v);
    assert [w, v][1..] == [v];
    assert BestFrom(k.sched.task, [v], Some(w)) == Some(v);
  }

  /** D lowers B2, which was woken for the mutex, and goes to sleep. */
  lemma Lowered() returns (k: Kernel)
    ensures Reached(k) && At(k, K8(), [IDLING, Role(10, Running), Role(16, Sleeping), Role(1, Running), Role(31, Sleeping)])
  {
    hide Reached, At, Possible, Step, K0, WaitsFor;
    MoreLocks();
    LaterWaits();
    k := GivesBoth();
    var f := [IDLING, Role(10, Running), Role(16, Sleeping), Role(20, Running), Role(31, Running)];
    Leader(k, K7(), f, D, 31);
    AtGrab(k, K7(), f, D, 1);
    ReachedStep(k, Resume);
    k := Step(k, Resume);
    Leader(k, K8(), f, D, 31);
    AtPriority(k, K8(), f, D, B2, 1);
    ReachedStep(k, SetPriority(B2, 1));
    k := Step(k, SetPriority(B2, 1));
    var g := [IDLING, Role(10, Running), Role(16, Sleeping), Role(1, Running), Role(31, Running)];
    assert f[B2 := f[B2].(priority := 1)] == g;
    Leader(k, K8(), g, D, 31);
    AtSleep(k, K8(), g, D);
    ReachedStep(k, Sleep);
    k := Step(k, Sleep);
    assert g[D := g[D].(state := Sleeping)] == [IDLING, Role(10, Running), Role(16, Sleeping), Role(1, Running), Role(31, Sleeping)];
  }

  /** A takes the mutex again, while B1, of a higher priority, still sleeps in its queue: A does not inherit it. */
  lemma WaiterPassedOver() returns (k: Kernel, e: Event)
    ensures Reached(k) && Possible(k, e) && e.Lock? && Orderly(k) && !Inherits(Step(k, e))
  {
    hide Reached, At, Possible, Step, K0, Orderly, Heeds, Inherits, WaitsFor;
    MoreLocks();
    LaterWaits();
    k := Lowered();
    e := Lock(0);
    var f := [IDLING, Role(10, Running), Role(16, Sleeping), Role(1, Running), Role(31, Sleeping)];
    Leader(k, K8(), f, A, 10);
    OrderlyThere(k, K8(), f);
    PassesOver(k, K8(), f, A, 0, B1);
    BreaksIff(k, e);
  }

  lemma PassesOver(k: Kernel, l: Locks, f: seq<Role>, t: Tid, m: Mid, w: Tid)
    requires At(k, l, f) && k.sched.cur == t < |f| && Calls(l, t) && m in l.mx && l.mx[m].lock == 1 && l.mx[m].owner == None
    requires w < |f| && w in l.mx[m].wq && f[w].state != Unused && f[t].state != Unused && f[w].priority > f[t].priority
    requires forall u :: !WaitsFor(l, u, w) && !WaitsFor(l, u, t)
    ensures Possible(k, Lock(m)) && !Heeds(k, Lock(m))
  {
    hide Inv, Orderly, WaitsFor, Linked, Stable;
    CalmNow(k);
    OwnPriority(k, l, f, w);
    OwnPriority(k, l, f, t);
    assert !TakesFairly(k, m);
    assert Taken(k, Lock(m)) == Some(m);
    assert Possible(k, Lock(m));
  }
}
