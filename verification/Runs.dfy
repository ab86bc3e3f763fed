/** Whole runs of the kernel: any sequence of calls, resumptions and interrupts. */
module Runs {
  import opened Seqs
  import opened Sched
  import opened Locks
  import opened Inherit
  import opened Kernel
  import opened Preservation

  /** The running thread is about to make a call. */
  predicate Caller(k: Kernel) {
    Me(k) && k.locks.lk[k.sched.cur].pc == Plain
  }

  /** What the callers promise: unlock by the owner, no relock of a plain mutex by its owner, no exit with a mutex. */
  predicate Allowed(k: Kernel, e: Event) {
    match e
    case Lock(m) => Caller(k) && m in k.locks.mx && (k.locks.mx[m].owner == Some(k.sched.cur) ==> k.locks.mx[m].recursive)
    case TryLock(m) => Caller(k) && m in k.locks.mx
    case Unlock(m) => Caller(k) && m in k.locks.mx && k.locks.mx[m].owner == Some(k.sched.cur)
    case CondWait(c, m) => Caller(k) && m in k.locks.mx && k.locks.mx[m].owner == Some(k.sched.cur) && c in k.cv
    case Signal(c) => Caller(k) && c in k.cv
    case Broadcast(c) => Caller(k) && c in k.cv
    case Resume =>
      k.sched.cur != IDLE && k.sched.cur in k.locks.lk
      && (k.locks.lk[k.sched.cur].sleepOn.Some? || !k.locks.lk[k.sched.cur].pc.Plain?)
    case Sleep => Caller(k)
    case Exit => Caller(k) && k.locks.lk[k.sched.cur].held == []
    case Create(t, p) => t in k.sched.task && k.sched.task[t].state == Unused && p <= PRIORITY_MAX
    case SetPriority(t, p) => Caller(k) && t in k.sched.task && p <= PRIORITY_MAX
    case TimerTick => true
    case Wake(t) => t in k.sched.task && (k.sched.task[t].state == Running || k.sched.task[t].state == Sleeping)
  }

  /** The mutex a step may have to queue on. */
  function Wanted(k: Kernel, e: Event): Option<Mid> {
    match e
    case Lock(m) => Some(m)
    case Resume =>
      if k.sched.cur in k.locks.lk && k.locks.lk[k.sched.cur].sleepOn == None && k.locks.lk[k.sched.cur].pc.InSchedule?
      then Some(k.locks.lk[k.sched.cur].pc.mutex) else None
    case _ => None
  }

  /**
   The step does not run into the inheritance walk's two defects: a mutex on the chain that
   nobody owns, whose NULL owner the walk would use, or a chain that closes on itself.
   */
  ghost predicate Walks(k: Kernel, e: Event)
    requires Linked(k.sched, k.locks)
  {
    && (Wanted(k, e).Some? && Wanted(k, e).value in k.locks.mx && MustWait(k, Wanted(k, e).value) && k.sched.cur in k.locks.lk ==>
          WalkEnds(Join(k.locks, k.sched.cur, Wanted(k, e).value), k.sched.cur))
    && (e.SetPriority? && e.t in k.sched.task && e.p <= PRIORITY_MAX && Propagates(k.sched, k.locks, e.t, e.p) ==> WalkEnds(k.locks, e.t))
  }

  ghost predicate Possible(k: Kernel, e: Event) {
    Inv(k) && Allowed(k, e) && Walks(k, e)
  }

  lemma CondTasks(k: Kernel, c: Cid)
    requires Inv(k) && c in k.cv
    ensures forall w :: w in k.cv[c] ==> w in k.sched.task
  {
    InQueue(k, c);
  }

  /** One step of the machine. */
  ghost function Step(k: Kernel, e: Event): Kernel
    requires Possible(k, e)
  {
    hide Stable, Linked, NoLostWakeup, CondOk, Unlocked;
    match e
    case Lock(m) => LockCall(k, m)
    case TryLock(m) => TryLockCall(k, m).0
    case Unlock(m) => UnlockCall(k, m)
    case CondWait(c, m) => CondWaitCall(k, c, m)
    case Signal(c) => CondTasks(k, c); SignalCall(k, c)
    case Broadcast(c) => CondTasks(k, c); BroadcastCall(k, c)
    case Resume => ResumePoint(k); ResumeCall(k)
    case Sleep => k.(sched := GiveUp(k.sched, Sleeping))
    case Exit => k.(sched := GiveUp(k.sched, Unused))
    case Create(t, p) => NewThreadStable(k.sched, t, p); k.(sched := WakeUp(NewThread(k.sched, t, p), t))
    case SetPriority(t, p) =>
      RepriorityStable(k.sched, k.locks, t, p);
      k.(sched := if k.sched.task[t].priority == p then k.sched
                  else if k.sched.task[t].eff == p then Repriority(k.sched, k.locks, t, p)
                  else StableBeforeSwitch(Repriority(k.sched, k.locks, t, p)); Reschedule(Repriority(k.sched, k.locks, t, p)))
    case TimerTick => k.(sched := Tick(k.sched))
    case Wake(t) => k.(sched := WakeUp(k.sched, t))
  }

  lemma StepKeeps(k: Kernel, e: Event)
    requires Possible(k, e)
    ensures Inv(Step(k, e))
  {
    hide Inv, Calm, ResumeCall, WakeUp, Tick, GiveUp, UnlockCall, CondWaitCall, SignalCall, BroadcastCall, LockCall, Queue;
    CalmNow(k);
    match e
    case Lock(m) => LockKeeps(k, m);
    case TryLock(m) => TryLockKeeps(k, m);
    case Unlock(m) => UnlockAnyKeeps(k, m);
    case CondWait(c, m) => CondWaitKeeps(k, c, m);
    case Signal(c) => CondTasks(k, c); SignalKeeps(k, c);
    case Broadcast(c) => CondTasks(k, c); BroadcastKeeps(k, c);
    case Resume => ResumePoint(k); ResumeKeeps(k);
    case Sleep => SleepKeeps(k, Sleeping);
    case Exit => SleepKeeps(k, Unused);
    case Create(t, p) => NewThreadStable(k.sched, t, p); CreateKeeps(k, t, p);
    case SetPriority(t, p) => PriorityKeeps(k, t, p);
    case TimerTick => TickKeeps(k);
    case Wake(t) => WakeKeeps(k, t);
  }

  lemma CalmNow(k: Kernel)
    requires Inv(k)
    ensures Calm(k) && Stable(k.sched) && Linked(k.sched, k.locks)
  {}

  lemma LockKeeps(k: Kernel, m: Mid)
    requires Possible(k, Lock(m)) && Calm(k)
    ensures Inv(LockCall(k, m))
  {
    hide Stable, Linked, NoLostWakeup, CondOk, Unlocked, Queue;
    if k.locks.mx[m].lock == 1 {
      AcquireKeeps(k, m);
    } else if MustWait(k, m) {
      QueueKeeps(k, m, Plain);
      assert SetPc(Queue(k, m).locks, k.sched.cur, Plain) == Queue(k, m).locks by { QueuePlain(k, m); }
    } else {
      AgainKeeps(k, m);
    }
  }

  lemma QueuePlain(k: Kernel, m: Mid)
    requires Calm(k) && Caller(k) && m in k.locks.mx && WalkEnds(Join(k.locks, k.sched.cur, m), k.sched.cur)
    ensures k.sched.cur in Queue(k, m).locks.lk && SetPc(Queue(k, m).locks, k.sched.cur, Plain) == Queue(k, m).locks
  {
    hide Stable, Linked, Walked, GiveUp;
    var l := Queue(k, m).locks;
    assert l.lk[k.sched.cur].pc == Plain;
    assert l.lk[k.sched.cur := l.lk[k.sched.cur].(pc := Plain)] == l.lk;
  }

  lemma AgainKeeps(k: Kernel, m: Mid)
    requires Inv(k) && m in k.locks.mx && k.locks.mx[m].owner.Some? && k.locks.mx[m].recursive
    ensures Inv(k.(locks := Again(k.locks, m)))
  {
    hide Stable, Valid, Consistent, NoLostWakeup, CondOk, Unlocked;
    LockValue(k.locks, m);
    RecountKeeps(k, m, k.locks.mx[m].count + 1);
  }

  lemma TryLockKeeps(k: Kernel, m: Mid)
    requires Inv(k) && Caller(k) && m in k.locks.mx
    ensures Inv(TryLockCall(k, m).0)
  {
    hide Inv;
    if k.locks.mx[m].lock == 1 {
      AcquireKeeps(k, m);
    } else if !MustWait(k, m) {
      AgainKeeps(k, m);
    }
  }

  lemma UnlockAnyKeeps(k: Kernel, m: Mid)
    requires Inv(k) && Calm(k) && Caller(k) && m in k.locks.mx && k.locks.mx[m].owner == Some(k.sched.cur)
    ensures Inv(UnlockCall(k, m))
  {
    hide Stable, Valid, Consistent, NoLostWakeup, CondOk, Unlocked, HandOver;
    LockValue(k.locks, m);
    if k.locks.mx[m].count > 1 {
      RecountKeeps(k, m, k.locks.mx[m].count - 1);
    } else {
      UnlockKeeps(k, m);
    }
  }

  lemma PriorityKeeps(k: Kernel, t: Tid, p: nat)
    requires Possible(k, SetPriority(t, p))
    ensures Inv(Step(k, SetPriority(t, p)))
  {
    hide Stable, Valid, Consistent, NoLostWakeup, CondOk, Unlocked, Repriority, Reschedule, Propagates;
    RepriorityStable(k.sched, k.locks, t, p);
    var r := Repriority(k.sched, k.locks, t, p);
    if k.sched.task[t].priority != p && k.sched.task[t].eff != p {
      StableBeforeSwitch(r);
      RescheduleStable(r);
      StableValid(Reschedule(r));
      LinkedFrame(r, Reschedule(r), k.locks);
      SchedStep(k, Reschedule(r));
    } else if k.sched.task[t].priority != p {
      SchedStep(k, r);
    }
  }

  // ---- runs ----

  /** The events can happen one after the other, starting from k. */
  ghost predicate CanRun(k: Kernel, es: seq<Event>)
    decreases |es|
  {
    es == [] || (Possible(k, es[0]) && CanRun(Step(k, es[0]), es[1..]))
  }

  /** The state a run leads to. */
  ghost function After(k: Kernel, es: seq<Event>): (r: Kernel)
    requires Inv(k) && CanRun(k, es)
    ensures Inv(r)
    decreases |es|
  {
    hide Inv, Allowed, Walks, Step;
    if es == [] then k else StepKeeps(k, es[0]); After(Step(k, es[0]), es[1..])
  }

  /** Before any lock call: some threads are ready, the mutexes and conditions are new. */
  ghost predicate Booted(k: Kernel) {
    && Stable(k.sched) && k.locks.lk.Keys == k.sched.task.Keys
    && (forall t :: t in k.sched.task ==> k.sched.task[t].priority <= PRIORITY_MAX)
    && (forall t :: t in k.locks.lk ==> k.locks.lk[t] == FRESH)
    && (forall m :: m in k.locks.mx ==> k.locks.mx[m] == Mutex(1, [], k.locks.mx[m].recursive, None, 0))
    && (forall c :: c in k.cv ==> k.cv[c] == [])
  }

  lemma BootedInv(k: Kernel)
    requires Booted(k)
    ensures Inv(k)
  {
    hide Stable;
    StableValid(k.sched);
    forall t | t in k.locks.lk ensures ThreadOk(k.locks, t) && WaiterOk(k, t) {}
    forall m | m in k.locks.mx ensures MutexOk(k.locks, m) {}
    forall c | c in k.cv ensures QueueOk(k, c) {}
  }

  /** A run goes on with any event that is possible where it has led. */
  lemma {:induction false} RunOn(k: Kernel, es: seq<Event>, e: Event)
    requires Inv(k) && CanRun(k, es) && Possible(After(k, es), e)
    ensures CanRun(k, es + [e]) && After(k, es + [e]) == Step(After(k, es), e)
    decreases |es|
  {
    hide Inv, Allowed, Walks, Step;
    if es == [] {
      StepKeeps(k, e);
      assert (es + [e])[1..] == [];
    } else {
      StepKeeps(k, es[0]);
      assert (es + [e])[1..] == es[1..] + [e];
      RunOn(Step(k, es[0]), es[1..], e);
    }
  }

  /** A run leads from a start to k. */
  ghost predicate Reached(k: Kernel) {
    exists k0, es :: Booted(k0) && Inv(k0) && CanRun(k0, es) && After(k0, es) == k
  }

  lemma ReachedStep(k: Kernel, e: Event)
    requires Reached(k) && Possible(k, e)
    ensures Reached(Step(k, e))
  {
    hide Inv, Allowed, Walks, Step, Booted;
    var k0, es :| Booted(k0) && Inv(k0) && CanRun(k0, es) && After(k0, es) == k;
    RunOn(k0, es, e);
  }
}
