/** What the single steps do to the locks, to who is awake, and to who may run: the view a program over the kernel needs. */
module Effects {
  import opened Seqs
  import opened Sched
  import opened Locks
  import opened Inherit
  import opened Kernel
  import opened Preservation
  import opened Runs
  import opened Safety

  /** No thread runs below its own priority, and the idle thread runs at its own. */
  ghost predicate Floor(s: Sched) {
    && (forall t :: t in s.task ==> s.task[t].priority <= s.task[t].eff)
    && (IDLE in s.task ==> s.task[IDLE].eff == s.task[IDLE].priority)
  }

  /** The idle thread runs only when no thread of a higher priority is awake. */
  ghost predicate IdleLast(s: Sched) {
    s.cur == IDLE && IDLE in s.task ==>
      forall t :: t in s.task && s.task[t].state == Running ==> s.task[t].priority <= s.task[IDLE].priority
  }

  ghost predicate Fair(k: Kernel) {
    Floor(k.sched) && IdleLast(k.sched)
  }

  lemma HighestIdle(s: Sched)
    requires Highest(s) && Floor(s)
    ensures IdleLast(s)
  {}

  lemma RecomputeFloor(s: Sched, l: Locks, t: Tid)
    requires Linked(s, l) && t in s.task && Floor(s) && (IDLE in l.lk ==> l.lk[IDLE].held == [])
    ensures Floor(Recompute(s, l, t))
  {
    hide Recompute, Valid, Consistent;
    RecomputeLinked(s, l, t);
    InheritedIsHighest(s, l, t);
    var r := Recompute(s, l, t);
    forall u | u in r.task ensures r.task[u].priority <= r.task[u].eff && (u == IDLE ==> r.task[u].eff == r.task[u].priority) {
      assert u in s.task;
      assert SameButSlice(s.task[u].(eff := if u == t then Inherited(s, l, t) else s.task[u].eff), r.task[u]);
    }
  }

  lemma {:induction false} SpreadFloor(s: Sched, l: Locks, t: Tid, n: nat)
    requires Linked(s, l) && OwnedChain(l, t, n) && Floor(s) && (IDLE in l.lk ==> l.lk[IDLE].held == [])
    ensures Floor(Spread(s, l, t, n))
    decreases n
  {
    hide Recompute, Valid, Consistent, Floor;
    if n > 0 {
      var u := Next(l, t);
      assert OwnedChain(l, u, n - 1);
      RecomputeLinked(s, l, u);
      RecomputeFloor(s, l, u);
      SpreadFloor(Recompute(s, l, u), l, u, n - 1);
    }
  }

  lemma FloorFrame(s: Sched, s': Sched)
    requires Floor(s) && s'.task.Keys == s.task.Keys
    requires forall t :: t in s.task ==> s'.task[t].priority == s.task[t].priority && s'.task[t].eff == s.task[t].eff
    ensures Floor(s')
  {}

  /** States after a step in which t gets the given state and nothing else changes for the threads. */
  ghost predicate StateOf(k: Kernel, k': Kernel, t: Tid, state: RunState) {
    && k'.sched.task.Keys == k.sched.task.Keys
    && forall u :: u in k.sched.task ==>
         && k'.sched.task[u].priority == k.sched.task[u].priority
         && k'.sched.task[u].state == if u == t then state else k.sched.task[u].state
  }

  lemma QueueEffect(k: Kernel, m: Mid)
    requires Inv(k) && Fair(k) && Me(k) && m in k.locks.mx && WalkEnds(Join(k.locks, k.sched.cur, m), k.sched.cur)
    ensures var k' := Queue(k, m);
            && Fair(k') && k'.locks == Contend(Join(k.locks, k.sched.cur, m), m) && k'.cv == k.cv
            && StateOf(k, k', k.sched.cur, Sleeping)
  {
    hide Stable, Valid, Consistent, GiveUp, NoLostWakeup, CondOk, Spread, Floor, IdleLast;
    WalkedStable(k.sched, k.locks, m);
    var l := Join(k.locks, k.sched.cur, m);
    var s1 := Walked(k.sched, k.locks, m);
    JoinOk(k.locks, k.sched.cur, m);
    IdleBare(k);
    SpreadFloor(k.sched, l, k.sched.cur, ChainLength(l, k.sched.cur));
    GiveUpStable(s1, Sleeping);
    FloorFrame(s1, GiveUp(s1, Sleeping));
    HighestIdle(GiveUp(s1, Sleeping));
  }

  lemma IdleBare(k: Kernel)
    requires Inv(k)
    ensures IDLE in k.locks.lk && k.locks.lk[IDLE] == FRESH
  {}

  /** The running thread sleeps or ends. */
  lemma GiveUpEffect(k: Kernel, state: RunState)
    requires Inv(k) && Fair(k) && k.sched.cur != IDLE && state != Running
    ensures var k' := k.(sched := GiveUp(k.sched, state)); Fair(k') && StateOf(k, k', k.sched.cur, state)
  {
    hide Stable, Linked, GiveUp, NoLostWakeup, CondOk, Unlocked, Floor, IdleLast;
    GiveUpStable(k.sched, state);
    FloorFrame(k.sched, GiveUp(k.sched, state));
    HighestIdle(GiveUp(k.sched, state));
  }

  /** A thread is woken by an interrupt. */
  lemma WakeEffect(k: Kernel, t: Tid)
    requires Inv(k) && Fair(k) && t in k.sched.task
    ensures var k' := k.(sched := WakeUp(k.sched, t)); Fair(k') && StateOf(k, k', t, Running)
  {
    hide Stable, Linked, WakeUp, NoLostWakeup, CondOk, Unlocked, Floor, IdleLast;
    WakeUpStable(k.sched, t);
    FloorFrame(k.sched, WakeUp(k.sched, t));
    HighestIdle(WakeUp(k.sched, t));
  }

  lemma TickEffect(k: Kernel)
    requires Inv(k) && Fair(k)
    ensures var k' := k.(sched := Tick(k.sched)); Fair(k') && StateOf(k, k', k.sched.cur, k.sched.task[k.sched.cur].state)
  {
    hide Valid, Linked, NoLostWakeup, CondOk, Unlocked, Reschedule;
    SpendOk(k.sched);
    FloorFrame(k.sched, Spend(k.sched));
    if Spend(k.sched).task[k.sched.cur].slice == 0 {
      var r := Reschedule(Spend(k.sched));
      RescheduleStable(Spend(k.sched));
      FloorFrame(k.sched, r);
      HighestIdle(r);
    }
  }

  /** A waiter comes back from a switch. */
  lemma RetryEffect(k: Kernel, m: Mid)
    requires Inv(k) && Fair(k) && k.sched.cur != IDLE && m in k.locks.mx && k.sched.cur in k.locks.lk && k.locks.lk[k.sched.cur].sleepOn == Some(m)
    ensures var k' := Retry(k, m);
            && Fair(k') && k'.cv == k.cv && k.sched.cur in k.sched.task
            && (k.locks.mx[m].lock == 1 ==>
                  k'.sched.cur == k.sched.cur && k'.locks == Grab(k.locks, k.sched.cur, m) && StateOf(k, k', k.sched.cur, Running))
            && (k.locks.mx[m].lock != 1 ==>
                  k'.locks == Contend(k.locks, m) && StateOf(k, k', k.sched.cur, Sleeping))
  {
    hide Stable, Valid, Consistent, Recompute, GiveUp, NoLostWakeup, CondOk, Floor, IdleLast;
    RunningNow(k);
    if k.locks.mx[m].lock == 1 {
      GrabLinked(k.sched, k.locks, m);
      IdleBare(k);
      RecomputeFloor(k.sched, Grab(k.locks, k.sched.cur, m), k.sched.cur);
      NotIdle(Retry(k, m).sched);
    } else {
      GiveUpEffect(k, Sleeping);
    }
  }

  /** Whoever a mutex goes to is queued on it. */
  lemma WaitersQueued(k: Kernel, m: Mid)
    requires Inv(k) && m in k.locks.mx
    ensures forall w :: w in k.locks.mx[m].wq ==> w in k.sched.task && w in k.locks.lk && k.locks.lk[w].sleepOn == Some(m)
  {
    assert MutexOk(k.locks, m);
  }

  lemma NotIdle(s: Sched)
    requires s.cur != IDLE
    ensures IdleLast(s)
  {}

  /** The last unlock of a mutex. */
  lemma UnlockEffect(k: Kernel, m: Mid)
    requires Inv(k) && Fair(k) && m in k.locks.mx && k.locks.mx[m].owner == Some(k.sched.cur) && k.locks.mx[m].count == 1 && Me(k)
    requires forall w :: w in k.locks.mx[m].wq ==> w in k.sched.task
    ensures var k' := UnlockCall(k, m);
            && Fair(k') && k'.cv == k.cv && k'.locks == Release(k.locks, k.sched.cur, m) && k'.sched.task.Keys == k.sched.task.Keys
            && (forall t :: t in k.sched.task ==>
                  && k'.sched.task[t].priority == k.sched.task[t].priority
                  && k'.sched.task[t].state == if Target(k.sched, k.locks.mx[m]) == Some(t) then Running else k.sched.task[t].state)
  {
    hide Stable, Valid, Consistent, HandOver, Reschedule, Target, NoLostWakeup, CondOk, Floor, IdleLast;
    RunningNow(k);
    HandOverStable(k.sched, k.locks, m);
    HandOverFloor(k, m);
    var s1 := HandOver(k.sched, k.locks, m);
    StableBeforeSwitch(s1);
    RescheduleStable(s1);
    FloorFrame(s1, Reschedule(s1));
    HighestIdle(Reschedule(s1));
  }

  lemma HandOverFloor(k: Kernel, m: Mid)
    requires Inv(k) && Fair(k) && m in k.locks.mx && k.locks.mx[m].owner == Some(k.sched.cur) && k.sched.cur in k.sched.task && Me(k)
    requires forall w :: w in k.locks.mx[m].wq ==> w in k.sched.task
    ensures Floor(HandOver(k.sched, k.locks, m))
  {
    hide Valid, Consistent, Recompute, SetRunning, Best, NoLostWakeup, CondOk, Floor, IdleLast;
    var l1 := Release(k.locks, k.sched.cur, m);
    ReleaseOk(k.locks, k.sched.cur, m);
    IdleBare(k);
    RecomputeFloor(k.sched, l1, k.sched.cur);
    RecomputeLinked(k.sched, l1, k.sched.cur);
    RecomputeRepriced(k.sched, l1, k.sched.cur);
    var r := Recompute(k.sched, l1, k.sched.cur);
    RepricedStable(k.sched, r);
    var t := Target(k.sched, k.locks.mx[m]);
    if t.Some? {
      SetRunningOk(r, t.value);
      FloorFrame(r, SetRunning(r, t.value));
    }
  }

  // ---- the same, for the steps of a run ----

  lemma StillFair(k: Kernel, k': Kernel)
    requires Fair(k) && k'.sched == k.sched
    ensures Fair(k')
  {}

  /** A lock call of a plain mutex either takes it at once or sleeps in its queue. */
  lemma LockEffect(k: Kernel, m: Mid)
    requires Possible(k, Lock(m)) && Fair(k) && m in k.locks.mx && !k.locks.mx[m].recursive
    ensures var k' := Step(k, Lock(m));
            && Inv(k') && Fair(k') && k'.cv == k.cv && k.sched.cur in k.locks.lk && k.sched.cur in k.sched.task
            && (k.locks.mx[m].lock == 1 ==> k' == k.(locks := Acquire(k.locks, k.sched.cur, m)) && StateOf(k, k', k.sched.cur, Running))
            && (k.locks.mx[m].lock != 1 ==> k'.locks == Contend(Join(k.locks, k.sched.cur, m), m) && StateOf(k, k', k.sched.cur, Sleeping))
  {
    hide Inv, Fair, Queue, Walks;
    CurIn(k);
    RunningNow(k);
    WalksLock(k, m);
    StepKeeps(k, Lock(m));
    if k.locks.mx[m].lock == 1 {
      StillFair(k, Step(k, Lock(m)));
    } else {
      QueueEffect(k, m);
      MustQueue(k, m);
    }
  }

  /** A thread that waits for a mutex in a plain lock call takes it if it is free and goes back to sleep if not. */
  lemma ResumeLockEffect(k: Kernel, m: Mid)
    requires Possible(k, Resume) && Fair(k) && k.sched.cur in k.locks.lk && k.locks.lk[k.sched.cur].sleepOn == Some(m) && k.locks.lk[k.sched.cur].pc == Plain
    ensures var k' := Step(k, Resume);
            && Inv(k') && Fair(k') && k'.cv == k.cv && m in k.locks.mx && k.sched.cur in k.sched.task
            && (k.locks.mx[m].lock == 1 ==> k'.sched.cur == k.sched.cur && k'.locks == Grab(k.locks, k.sched.cur, m) && StateOf(k, k', k.sched.cur, Running))
            && (k.locks.mx[m].lock != 1 ==> k'.locks == Contend(k.locks, m) && StateOf(k, k', k.sched.cur, Sleeping))
  {
    hide Inv, Fair, Retry, Walks, Step, StateOf, Calm, Stable, Linked;
    StepKeeps(k, Resume);
    StepIsRetry(k, m);
    RetryEffect(k, m);
  }

  lemma StepIsRetry(k: Kernel, m: Mid)
    requires Possible(k, Resume) && k.sched.cur in k.locks.lk && k.locks.lk[k.sched.cur].sleepOn == Some(m) && k.locks.lk[k.sched.cur].pc == Plain
    ensures Calm(k) && m in k.locks.mx && Step(k, Resume) == Retry(k, m)
  {
    hide Inv, Retry, Walks, ResumeCall, Calm, Stable, Linked, MustWait, WalkEnds, Wanted;
    ResumePoint(k);
    ResumeIsRetry(k, m);
  }

  lemma ResumeIsRetry(k: Kernel, m: Mid)
    requires Possible(k, Resume) && Calm(k) && m in k.locks.mx && k.sched.cur in k.locks.lk && k.locks.lk[k.sched.cur].sleepOn == Some(m) && k.locks.lk[k.sched.cur].pc == Plain
    ensures ResumeCall(k) == Retry(k, m)
  {
    hide Retry, Stable, Linked, NoLostWakeup, CondOk;
  }

  /** The unlock of a plain mutex frees it; if it was contended, the earliest waiter of the highest priority is awake. */
  lemma UnlockStepEffect(k: Kernel, m: Mid)
    requires Possible(k, Unlock(m)) && Fair(k) && m in k.locks.mx && !k.locks.mx[m].recursive
    requires forall w :: w in k.locks.mx[m].wq ==> w in k.sched.task
    ensures var k' := Step(k, Unlock(m));
            && Inv(k') && Fair(k') && k'.cv == k.cv && k'.locks == Release(k.locks, k.sched.cur, m) && k'.sched.task.Keys == k.sched.task.Keys
            && (forall t :: t in k.sched.task ==>
                  && k'.sched.task[t].priority == k.sched.task[t].priority
                  && k'.sched.task[t].state == if Target(k.sched, k.locks.mx[m]) == Some(t) then Running else k.sched.task[t].state)
  {
    hide Inv, Fair, HandOver, Reschedule, Target;
    CurIn(k);
    CountOne(k, m);
    UnlockEffect(k, m);
    StepKeeps(k, Unlock(m));
  }

  lemma CountOne(k: Kernel, m: Mid)
    requires Inv(k) && m in k.locks.mx && k.locks.mx[m].owner.Some? && !k.locks.mx[m].recursive
    ensures k.locks.mx[m].count == 1
  {
    assert MutexOk(k.locks, m);
  }

  lemma GiveUpStepEffect(k: Kernel, e: Event)
    requires Possible(k, e) && Fair(k) && (e == Sleep || e == Exit)
    ensures var k' := Step(k, e);
            Inv(k') && Fair(k') && k'.cv == k.cv && k'.locks == k.locks && StateOf(k, k', k.sched.cur, if e == Sleep then Sleeping else Unused)
  {
    hide Inv, Fair, GiveUp;
    GiveUpEffect(k, if e == Sleep then Sleeping else Unused);
    StepKeeps(k, e);
  }

  lemma InterruptEffect(k: Kernel, e: Event)
    requires Possible(k, e) && Fair(k) && (e == TimerTick || e.Wake?) && k.sched.cur in k.sched.task
    ensures var k' := Step(k, e);
            && Inv(k') && Fair(k') && k'.cv == k.cv && k'.locks == k.locks
            && (e == TimerTick ==> StateOf(k, k', k.sched.cur, k.sched.task[k.sched.cur].state))
            && (e.Wake? ==> StateOf(k, k', e.t, Running))
  {
    hide Inv, Fair, Tick, WakeUp;
    StepKeeps(k, e);
    if e == TimerTick { TickEffect(k); } else { WakeEffect(k, e.t); }
  }

  // ---- condition waits ----

  lemma WaitFair(k: Kernel, c: Cid, m: Mid)
    requires Inv(k) && Fair(k) && Me(k) && m in k.locks.mx && k.locks.mx[m].owner == Some(k.sched.cur) && c in k.cv && k.locks.mx[m].count == 1
    requires forall w :: w in k.locks.mx[m].wq ==> w in k.sched.task
    ensures Fair(CondWaitCall(k, c, m))
    ensures forall t :: t in k.sched.task ==> t in CondWaitCall(k, c, m).sched.task && CondWaitCall(k, c, m).sched.task[t].priority == k.sched.task[t].priority
  {
    hide Stable, Valid, Consistent, HandOver, GiveUp, Target, NoLostWakeup, CondOk, Floor, IdleLast;
    RunningNow(k);
    HandOverStable(k.sched, k.locks, m);
    HandOverFloor(k, m);
    var s1 := HandOver(k.sched, k.locks, m);
    GiveUpStable(s1, Sleeping);
    FloorFrame(s1, GiveUp(s1, Sleeping));
    HighestIdle(GiveUp(s1, Sleeping));
  }

  /** A condition wait frees the mutex, and the thread sleeps in the queue of the condition. */
  lemma CondWaitEffect(k: Kernel, c: Cid, m: Mid)
    requires Possible(k, CondWait(c, m)) && Fair(k) && m in k.locks.mx && !k.locks.mx[m].recursive
    requires k.sched.cur in k.locks.lk && c in k.cv && forall w :: w in k.locks.mx[m].wq ==> w in k.sched.task
    ensures var k' := Step(k, CondWait(c, m));
            && Inv(k') && Fair(k') && k'.cv == k.cv[c := k.cv[c] + [k.sched.cur]]
            && k'.locks == SetPc(Release(k.locks, k.sched.cur, m), k.sched.cur, InUnlock(c, m))
            && k.sched.cur in k.sched.task && k'.sched.task.Keys == k.sched.task.Keys && k'.sched.task[k.sched.cur].state == Sleeping
            && (forall t :: t in k.sched.task ==> k'.sched.task[t].priority == k.sched.task[t].priority)
            && (forall t :: t in k.sched.task && t != k.sched.cur ==>
                  k'.sched.task[t].state == if Target(k.sched, k.locks.mx[m]) == Some(t) then Running else k.sched.task[t].state)
  {
    hide Inv, Fair, HandOver, GiveUp, Target;
    CurIn(k);
    RunningNow(k);
    CountOne(k, m);
    StepKeeps(k, CondWait(c, m));
    WaitFair(k, c, m);
    WaitCalm(k, c, m);
  }

  /** A signal takes one thread off the queue of the condition and wakes it. */
  lemma SignalEffect(k: Kernel, c: Cid)
    requires Possible(k, Signal(c)) && Fair(k) && c in k.cv && forall w :: w in k.cv[c] ==> w in k.sched.task
    ensures var k', t := Step(k, Signal(c)), Best(k.sched.task, k.cv[c]);
            && Inv(k') && Fair(k') && k'.locks == k.locks
            && (t == None ==> k' == k)
            && (t.Some? ==> k'.cv == k.cv[c := Remove(k.cv[c], t.value)] && StateOf(k, k', t.value, Running))
  {
    hide Inv, Fair, WakeUp, Best;
    CurIn(k);
    StepKeeps(k, Signal(c));
    var t := Best(k.sched.task, k.cv[c]);
    if t.Some? {
      WakeEffect(k, t.value);
      StillFair(k.(sched := WakeUp(k.sched, t.value)), Step(k, Signal(c)));
    }
  }

  /** Back from the switch in the unlock: nothing changes but the place in the call. */
  lemma UnlockedEffect(k: Kernel)
    requires Possible(k, Resume) && Fair(k) && k.sched.cur in k.locks.lk && k.locks.lk[k.sched.cur].sleepOn == None && k.locks.lk[k.sched.cur].pc.InUnlock?
    ensures var k', pc := Step(k, Resume), k.locks.lk[k.sched.cur].pc;
            && Inv(k') && Fair(k') && k'.cv == k.cv && k'.locks == SetPc(k.locks, k.sched.cur, InSchedule(pc.cond, pc.mutex))
            && k.sched.cur in k.sched.task && StateOf(k, k', k.sched.cur, Running)
  {
    hide Stable, Valid, Consistent, NoLostWakeup, CondOk, Unlocked, Reschedule, Walks, Floor, IdleLast;
    CurIn(k);
    RunningNow(k);
    StepKeeps(k, Resume);
    StableBeforeSwitch(k.sched);
    RescheduleStable(k.sched);
    FloorFrame(k.sched, Reschedule(k.sched));
    HighestIdle(Reschedule(k.sched));
  }

  /** The lock call that ends a condition wait. */
  lemma RelockEffect(k: Kernel)
    requires Possible(k, Resume) && Fair(k) && k.sched.cur in k.locks.lk && k.locks.lk[k.sched.cur].sleepOn == None && k.locks.lk[k.sched.cur].pc.InSchedule?
    requires var m := k.locks.lk[k.sched.cur].pc.mutex; m in k.locks.mx && !k.locks.mx[m].recursive
    ensures var k', me := Step(k, Resume), k.sched.cur;
            var c, m := k.locks.lk[me].pc.cond, k.locks.lk[me].pc.mutex;
            && Inv(k') && Fair(k') && c in k.cv && me in k.sched.task
            && (k.locks.mx[m].lock == 1 ==>
                  k' == k.(locks := SetPc(Acquire(k.locks, me, m), me, Plain), cv := k.cv[c := Remove(k.cv[c], me)]) && StateOf(k, k', me, Running))
            && (k.locks.mx[m].lock != 1 ==>
                  k'.locks == SetPc(Contend(Join(k.locks, me, m), m), me, InRelock(c, m)) && k'.cv == k.cv && StateOf(k, k', me, Sleeping))
  {
    hide Inv, Fair, Queue, ResumeCall;
    var me := k.sched.cur;
    var pc := k.locks.lk[me].pc;
    CurIn(k);
    RunningNow(k);
    ResumePoint(k);
    StepKeeps(k, Resume);
    RelockIs(k);
    if k.locks.mx[pc.mutex].lock == 1 {
      StillFair(k, Step(k, Resume));
    } else {
      QueueEffect(k, pc.mutex);
      StillFair(Queue(k, pc.mutex), Step(k, Resume));
    }
  }

  lemma RelockIs(k: Kernel)
    requires Possible(k, Resume) && Calm(k) && k.sched.cur in k.locks.lk && k.locks.lk[k.sched.cur].sleepOn == None && k.locks.lk[k.sched.cur].pc.InSchedule?
    requires var pc := k.locks.lk[k.sched.cur].pc; pc.mutex in k.locks.mx && !k.locks.mx[pc.mutex].recursive && pc.cond in k.cv
    ensures var me, pc := k.sched.cur, k.locks.lk[k.sched.cur].pc;
            && (k.locks.mx[pc.mutex].lock == 1 ==> ResumeCall(k) == FinishWait(k.(locks := Acquire(k.locks, me, pc.mutex)), me, pc.cond))
            && (k.locks.mx[pc.mutex].lock != 1 ==>
                  && Me(k) && WalkEnds(Join(k.locks, me, pc.mutex), me) && me in Queue(k, pc.mutex).locks.lk
                  && ResumeCall(k) == Queue(k, pc.mutex).(locks := SetPc(Queue(k, pc.mutex).locks, me, InRelock(pc.cond, pc.mutex))))
  {
    hide Stable, Linked, NoLostWakeup, CondOk, Unlocked, Walked, GiveUp;
  }

  /** A thread that waits for the mutex at the end of a condition wait. */
  lemma RelockRetryEffect(k: Kernel, m: Mid)
    requires Possible(k, Resume) && Fair(k) && k.sched.cur in k.locks.lk && k.locks.lk[k.sched.cur].sleepOn == Some(m) && k.locks.lk[k.sched.cur].pc.InRelock?
    ensures var k', me := Step(k, Resume), k.sched.cur;
            var c := k.locks.lk[me].pc.cond;
            && Inv(k') && Fair(k') && c in k.cv && m in k.locks.mx && me in k.sched.task
            && (k.locks.mx[m].lock == 1 ==>
                  k'.locks == SetPc(Grab(k.locks, me, m), me, Plain) && k'.cv == k.cv[c := Remove(k.cv[c], me)] && StateOf(k, k', me, Running))
            && (k.locks.mx[m].lock != 1 ==> k'.locks == Contend(k.locks, m) && k'.cv == k.cv && StateOf(k, k', me, Sleeping))
  {
    hide Inv, Fair, Retry, Walks, ResumeCall;
    ResumePoint(k);
    StepKeeps(k, Resume);
    RetryEffect(k, m);
    RetryIs(k, m);
    StillFair(Retry(k, m), Step(k, Resume));
  }

  lemma RetryIs(k: Kernel, m: Mid)
    requires Possible(k, Resume) && Calm(k) && m in k.locks.mx && k.sched.cur in k.locks.lk && k.locks.lk[k.sched.cur].sleepOn == Some(m)
    requires k.locks.lk[k.sched.cur].pc.InRelock? && k.locks.lk[k.sched.cur].pc.cond in k.cv && k.sched.cur in Retry(k, m).locks.lk && Retry(k, m).cv == k.cv
    ensures ResumeCall(k) == if k.locks.mx[m].lock == 1 then FinishWait(Retry(k, m), k.sched.cur, k.locks.lk[k.sched.cur].pc.cond) else Retry(k, m)
  {
    hide Retry, Stable, Linked, NoLostWakeup, CondOk;
  }

  // ---- a ceiling on priorities ----

  /** No effective priority exceeds p. */
  ghost predicate Ceiling(s: Sched, p: nat) {
    forall t :: t in s.task ==> s.task[t].eff <= p && s.task[t].priority <= p
  }

  lemma RecomputeCeiling(s: Sched, l: Locks, t: Tid, p: nat)
    requires Linked(s, l) && t in s.task && Ceiling(s, p)
    ensures Ceiling(Recompute(s, l, t), p)
  {
    hide Recompute, Valid, Consistent;
    RecomputeLinked(s, l, t);
    InheritedIsHighest(s, l, t);
    forall u | u in s.task ensures Recompute(s, l, t).task[u].eff <= p && Recompute(s, l, t).task[u].priority <= p {
      assert SameButSlice(s.task[u].(eff := if u == t then Inherited(s, l, t) else s.task[u].eff), Recompute(s, l, t).task[u]);
    }
  }

  lemma {:induction false} SpreadCeiling(s: Sched, l: Locks, t: Tid, n: nat, p: nat)
    requires Linked(s, l) && OwnedChain(l, t, n) && Ceiling(s, p)
    ensures Ceiling(Spread(s, l, t, n), p)
    decreases n
  {
    hide Recompute, Valid, Consistent, Ceiling;
    if n > 0 {
      var u := Next(l, t);
      assert OwnedChain(l, u, n - 1);
      RecomputeLinked(s, l, u);
      RecomputeCeiling(s, l, u, p);
      SpreadCeiling(Recompute(s, l, u), l, u, n - 1, p);
    }
  }

  lemma CeilingFrame(s: Sched, s': Sched, p: nat)
    requires Ceiling(s, p) && s'.task.Keys == s.task.Keys
    requires forall t :: t in s.task ==> s'.task[t].priority == s.task[t].priority && s'.task[t].eff == s.task[t].eff
    ensures Ceiling(s', p)
  {}

  lemma QueueCeiling(k: Kernel, m: Mid, p: nat)
    requires Inv(k) && Me(k) && m in k.locks.mx && WalkEnds(Join(k.locks, k.sched.cur, m), k.sched.cur) && Ceiling(k.sched, p)
    ensures Ceiling(Queue(k, m).sched, p)
  {
    hide Stable, Valid, Consistent, GiveUp, NoLostWakeup, CondOk, Unlocked, Spread, Ceiling;
    WalkedStable(k.sched, k.locks, m);
    var l := Join(k.locks, k.sched.cur, m);
    var s1 := Walked(k.sched, k.locks, m);
    JoinOk(k.locks, k.sched.cur, m);
    SpreadCeiling(k.sched, l, k.sched.cur, ChainLength(l, k.sched.cur), p);
    GiveUpStable(s1, Sleeping);
    CeilingFrame(s1, GiveUp(s1, Sleeping), p);
  }

  lemma UnlockCeiling(k: Kernel, m: Mid, p: nat)
    requires Inv(k) && Me(k) && m in k.locks.mx && k.locks.mx[m].owner == Some(k.sched.cur) && k.locks.mx[m].count == 1 && Ceiling(k.sched, p)
    requires forall w :: w in k.locks.mx[m].wq ==> w in k.sched.task
    ensures Ceiling(UnlockCall(k, m).sched, p)
  {
    hide Stable, Valid, Consistent, Recompute, SetRunning, Reschedule, Best, NoLostWakeup, CondOk, Unlocked, Ceiling;
    RunningNow(k);
    var l1 := Release(k.locks, k.sched.cur, m);
    ReleaseOk(k.locks, k.sched.cur, m);
    RecomputeCeiling(k.sched, l1, k.sched.cur, p);
    RecomputeLinked(k.sched, l1, k.sched.cur);
    RecomputeRepriced(k.sched, l1, k.sched.cur);
    var r := Recompute(k.sched, l1, k.sched.cur);
    RepricedStable(k.sched, r);
    var t := Target(k.sched, k.locks.mx[m]);
    if t.Some? {
      SetRunningOk(r, t.value);
      CeilingFrame(r, SetRunning(r, t.value), p);
    }
    HandOverStable(k.sched, k.locks, m);
    var s1 := HandOver(k.sched, k.locks, m);
    StableBeforeSwitch(s1);
    RescheduleStable(s1);
    CeilingFrame(s1, Reschedule(s1), p);
  }

  /** A switch leaves the head of the highest level running. */
  lemma RescheduleTop(s: Sched)
    requires BeforeSwitch(s)
    ensures AtTop(Reschedule(s))
  {
    PutBackOk(s);
    RescheduleStable(s);
  }

  lemma GiveUpTop(s: Sched, state: RunState)
    requires Stable(s) && s.cur != IDLE && state != Running
    ensures AtTop(GiveUp(s, state))
  {
    hide Reschedule, Valid;
    GiveUpOk(s, state);
    RescheduleTop(SetState(s, s.cur, state));
  }

  lemma WakeUpTop(s: Sched, t: Tid)
    requires Stable(s) && t in s.task
    ensures AtTop(WakeUp(s, t))
  {
    hide Reschedule, SetRunning, Valid;
    SetRunningOk(s, t);
    StableBeforeSwitch(SetRunning(s, t));
    RescheduleTop(SetRunning(s, t));
  }
}
