/** The operations of kernel/pthread.c on the kernel's own fields, each proved to take the step that Kernel.dfy specifies. */
module KernelObject {
  import opened Bits
  import opened Seqs
  import opened Sched
  import opened Locks
  import opened Inherit
  import opened Kernel
  import opened Preservation
  import opened Runs
  import Boot

  class Machine {
    var level: seq<seq<Tid>>
    var bitmap: nat
    var task: map<Tid, Task>
    var cur: Tid
    var lk: map<Tid, Locker>
    var mx: map<Mid, Mutex>
    var cv: map<Cid, seq<Tid>>

    ghost function S(): Sched
      reads this
    {
      Sched(level, bitmap, task, cur)
    }

    ghost function L(): Locks
      reads this
    {
      Locks(lk, mx)
    }

    ghost function View(): Kernel
      reads this
    {
      Kernel(S(), L(), cv)
    }

    /** pthread_init on n free slots, with new mutexes and conditions. */
    constructor (n: nat, mutexes: set<Mid>, recursive: set<Mid>, conds: set<Cid>)
      ensures View() == Boot.InitKernel(n, mutexes, recursive, conds)
    {
      level := seq(PRIORITY_MAX + 1, _ => []);
      bitmap := 0;
      task := Boot.BareSched(n).task;
      cur := IDLE;
      lk := map t | t in Boot.Upto(n) :: FRESH;
      mx := map m | m in mutexes :: Mutex(1, [], m in recursive, None, 0);
      cv := map c | c in conds :: [];
      new;
      RunQueueEnqueue(IDLE, false);
    }

    /** run_queue_enqueue */
    method RunQueueEnqueue(t: Tid, head: bool)
      requires t in task && task[t].eff < |level| == PRIORITY_MAX + 1
      modifies this`level, this`bitmap, this`task
      ensures S() == Enqueue(old(S()), t, head)
    {
      var p := task[t].eff;
      if level[p] == [] {
        bitmap := SetBit(bitmap, PRIORITY_MAX - p);
      }
      task := task[t := task[t].(slice := TIMESLICE, queued := true)];
      if head {
        level := level[p := [t] + level[p]];
      } else {
        level := level[p := level[p] + [t]];
      }
    }

    /** run_queue_dequeue */
    method RunQueueDequeue(t: Tid)
      requires t in task && task[t].eff < |level| == PRIORITY_MAX + 1
      modifies this`level, this`bitmap, this`task
      ensures S() == Dequeue(old(S()), t)
    {
      if task[t].queued {
        var p := task[t].eff;
        level := level[p := Remove(level[p], t)];
        task := task[t := task[t].(queued := false)];
        if level[p] == [] {
          bitmap := ClearBit(bitmap, PRIORITY_MAX - p);
        }
      }
    }

    /** run_queue_peek: never without a thread while the idle thread is queued. */
    method RunQueuePeek() returns (t: Tid)
      requires Ready(S())
      ensures t == Peek(S())
    {
      var i := Ffs(bitmap);
      assert LevelOk(S(), task[IDLE].eff);
      assert i > 0 && LevelOk(S(), PRIORITY_MAX - (i - 1));
      t := level[PRIORITY_MAX - (i - 1)][0];
    }

    /** The two nested loops of __pthread_setschedprio. */
    method InheritedPriority(t: Tid) returns (prio: nat)
      requires Linked(S(), L()) && t in task
      ensures prio == Inherited(S(), L(), t)
    {
      hide Linked;
      Reachable(S(), L(), t);
      KeysAgree(S(), L());
      prio := task[t].priority;
      var held := lk[t].held;
      var i := 0;
      while i < |held|
        invariant 0 <= i <= |held|
        invariant MaxHeld(task, mx, held[i..], prio) == Inherited(S(), L(), t)
      {
        var wq := mx[held[i]].wq;
        ghost var before := prio;
        var j := 0;
        while j < |wq|
          invariant 0 <= j <= |wq|
          invariant MaxEff(task, wq[j..], prio) == MaxEff(task, wq, before)
        {
          if task[wq[j]].eff > prio {
            prio := task[wq[j]].eff;
          }
          j := j + 1;
        }
        i := i + 1;
      }
    }

    /**
     __pthread_spread.  The loop goes on to the next owner even when the recursion below has been
     there already; that second visit changes nothing, so the two functions together make one pass.
     */
    method PthreadSpread(t: Tid, ghost n: nat)
      requires Linked(S(), L()) && OwnedChain(L(), t, n)
      modifies this`level, this`bitmap, this`task
      ensures S() == Spread(old(S()), L(), t, n)
      decreases n, 0
    {
      hide Linked, Recompute, Settled;
      var th := t;
      ghost var rest: nat := n;
      while lk[th].sleepOn.Some?
        invariant Linked(S(), L()) && OwnedChain(L(), th, rest) && rest <= n
        invariant Spread(S(), L(), th, rest) == Spread(old(S()), L(), t, n)
        decreases rest
      {
        ghost var s0 := S();
        th := mx[lk[th].sleepOn.value].owner.value;
        rest := rest - 1;
        assert OwnedChain(L(), th, rest);
        KeysAgree(S(), L());
        PthreadSetSchedPrio(th, rest);
        SpreadOnce(s0, S(), L(), th, rest);
      }
    }

    /** __pthread_setschedprio */
    method PthreadSetSchedPrio(t: Tid, ghost n: nat)
      requires Linked(S(), L()) && t in task && (Spreads(S(), L(), t) ==> OwnedChain(L(), t, n))
      modifies this`level, this`bitmap, this`task
      ensures Linked(old(S()), L())
      ensures S() == if Spreads(old(S()), L(), t) then Propagated(old(S()), L(), t, n) else Recompute(old(S()), L(), t)
      decreases n, 1
    {
      hide Consistent, Settled;
      var prio := InheritedPriority(t);
      InheritedIsHighest(S(), L(), t);
      RecomputeLinked(S(), L(), t);
      if task[t].eff != prio {
        if task[t].queued {
          RunQueueDequeue(t);
          task := task[t := task[t].(eff := prio)];
          RunQueueEnqueue(t, true);
        } else {
          task := task[t := task[t].(eff := prio)];
          PthreadSpread(t, n);
        }
      }
    }

    /** __schedule and the switch */
    method Schedule()
      requires BeforeSwitch(S())
      modifies this`level, this`bitmap, this`task, this`cur
      ensures S() == Reschedule(old(S()))
    {
      PutBackOk(S());
      ghost var s0 := S();
      if task[cur].state != Running {
        RunQueueDequeue(cur);
      } else if task[cur].slice == 0 {
        RunQueueDequeue(cur);
        RunQueueEnqueue(cur, false);
      }
      assert S() == PutBack(s0);
      cur := RunQueuePeek();
    }

    /** __pthread_set_running */
    method PthreadSetRunning(t: Tid)
      requires Valid(S()) && t in task
      modifies this`level, this`bitmap, this`task
      ensures S() == SetRunning(old(S()), t)
    {
      task := task[t := task[t].(state := Running)];
      if !task[t].queued {
        RunQueueEnqueue(t, false);
      }
    }

    /** wake_up, outside an interrupt */
    method PthreadWakeUp(t: Tid)
      requires Stable(S()) && t in task
      modifies this`level, this`bitmap, this`task, this`cur
      ensures S() == WakeUp(old(S()), t)
    {
      SetRunningOk(S(), t);
      PthreadSetRunning(t);
      StableBeforeSwitch(S());
      Schedule();
    }

    /** The running thread leaves the run queue. */
    method Leave(state: RunState)
      requires Stable(S()) && cur != IDLE && state != Running
      modifies this`level, this`bitmap, this`task, this`cur
      ensures S() == GiveUp(old(S()), state)
    {
      GiveUpOk(S(), state);
      task := task[cur := task[cur].(state := state)];
      Schedule();
    }

    /** pthread_mutex_lock up to its return or its first sleep; the inheritance walk must be able to end. */
    method MutexLock(m: Mid)
      requires Calm(View()) && Me(View()) && m in mx
      requires MustWait(View(), m) ==> WalkEnds(Join(L(), cur, m), cur)
      modifies this
      ensures View() == LockCall(old(View()), m)
    {
      hide Stable, Linked, Walked, GiveUp;
      ghost var k0 := View();
      if mx[m].lock == 1 {
        mx := mx[m := mx[m].(lock := 0, owner := Some(cur), count := 1)];
        lk := lk[cur := lk[cur].(held := lk[cur].held + [m])];
      } else if mx[m].recursive && mx[m].owner == Some(cur) {
        mx := mx[m := mx[m].(count := mx[m].count + 1)];
      } else {
        WalkedStable(S(), L(), m);
        ghost var n := ChainLength(Join(L(), cur, m), cur);
        JoinLinked(S(), L(), m);
        mx := mx[m := mx[m].(wq := mx[m].wq + [cur])];
        lk := lk[cur := lk[cur].(sleepOn := Some(m))];
        assert L() == Join(k0.locks, cur, m);
        PthreadSpread(cur, n);
        WalkedIs(k0.sched, k0.locks, m);
        mx := mx[m := mx[m].(lock := -1)];
        Leave(Sleeping);
      }
    }

    /** The loop of pthread_mutex_lock after a wake-up. */
    method MutexRetry(m: Mid)
      requires Calm(View()) && cur != IDLE && m in mx && cur in lk && lk[cur].sleepOn == Some(m)
      modifies this
      ensures View() == Retry(old(View()), m)
    {
      hide Stable, Valid, Consistent, GiveUp, Recompute;
      if mx[m].lock == 1 {
        ghost var k0 := View();
        CurInTask(S());
        GrabLinked(S(), L(), m);
        LeaveQueue(m);
        PthreadSetSchedPrio(cur, 0);
        SpreadNone(k0.sched, L(), cur);
      } else {
        mx := mx[m := mx[m].(lock := -1)];
        Leave(Sleeping);
      }
    }

    /** The waiter leaves the queue as the owner. */
    method LeaveQueue(m: Mid)
      requires m in mx && cur in lk
      modifies this`lk, this`mx
      ensures L() == Grab(old(L()), cur, m)
    {
      lk := lk[cur := lk[cur].(sleepOn := None, held := lk[cur].held + [m])];
      var wq := Remove(mx[m].wq, cur);
      mx := mx[m := mx[m].(lock := -1, wq := wq)];
      if wq == [] {
        mx := mx[m := mx[m].(lock := 0)];
      }
      mx := mx[m := mx[m].(owner := Some(cur), count := 1)];
    }

    /** pthread_mutex_trylock */
    method MutexTryLock(m: Mid) returns (taken: bool)
      requires cur in lk && m in mx
      modifies this`lk, this`mx
      ensures (View(), taken) == TryLockCall(old(View()), m)
    {
      taken := true;
      if mx[m].lock == 1 {
        mx := mx[m := mx[m].(lock := 0, owner := Some(cur), count := 1)];
        lk := lk[cur := lk[cur].(held := lk[cur].held + [m])];
      } else if mx[m].recursive && mx[m].owner == Some(cur) {
        mx := mx[m := mx[m].(count := mx[m].count + 1)];
      } else {
        taken := false;
      }
    }

    /** The choice loop of unlock and signal. */
    method Choose(ws: seq<Tid>) returns (target: Option<Tid>)
      requires forall w :: w in ws ==> w in task
      ensures target == Best(task, ws)
    {
      target := None;
      var i := 0;
      while i < |ws|
        invariant 0 <= i <= |ws| && (target.Some? ==> target.value in task)
        invariant BestFrom(task, ws[i..], target) == Best(task, ws)
      {
        if target == None || task[target.value].eff < task[ws[i]].eff {
          target := Some(ws[i]);
        }
        i := i + 1;
      }
    }

    /** The last unlock of m, before the switch. */
    method GiveMutex(m: Mid)
      requires Calm(View()) && m in mx && mx[m].owner == Some(cur) && lk[cur].sleepOn == None
      modifies this`level, this`bitmap, this`task, this`lk, this`mx
      ensures Linked(old(S()), old(L())) && S() == HandOver(old(S()), old(L()), m) && L() == Release(old(L()), cur, m)
    {
      hide Stable, Valid, Consistent, Recompute, SetRunning, Best;
      ghost var s0, l0 := S(), L();
      CurInTask(s0);
      WaitersInTask(S(), L(), m);
      ReleaseOk(L(), cur, m);
      lk := lk[cur := lk[cur].(held := Remove(lk[cur].held, m))];
      mx := mx[m := mx[m].(owner := None, count := 0)];
      var target := None;
      if mx[m].lock != 0 {
        target := Choose(mx[m].wq);
      }
      mx := mx[m := mx[m].(lock := 1)];
      assert L() == Release(l0, cur, m);
      RecomputeLinked(s0, L(), cur);
      PthreadSetSchedPrio(cur, 0);
      SpreadNone(s0, L(), cur);
      if target.Some? {
        PthreadSetRunning(target.value);
      }
    }

    /** pthread_mutex_unlock by the owner */
    method MutexUnlock(m: Mid)
      requires Calm(View()) && m in mx && mx[m].owner == Some(cur) && lk[cur].sleepOn == None
      modifies this
      ensures View() == UnlockCall(old(View()), m)
    {
      hide Stable, Valid, Consistent, HandOver, Reschedule;
      LockValue(L(), m);
      if mx[m].count > 1 {
        mx := mx[m := mx[m].(count := mx[m].count - 1)];
      } else {
        CurInTask(S());
        WaitersInTask(S(), L(), m);
        HandOverStable(S(), L(), m);
        GiveMutex(m);
        StableBeforeSwitch(S());
        Schedule();
      }
    }

    /** pthread_cond_wait up to the sleep */
    method CondWaitStart(c: Cid, m: Mid)
      requires Calm(View()) && Me(View()) && m in mx && mx[m].owner == Some(cur) && c in cv
      modifies this
      ensures View() == CondWaitCall(old(View()), c, m)
    {
      hide Stable, Valid, Consistent, HandOver, GiveUp;
      LockValue(L(), m);
      cv := cv[c := cv[c] + [cur]];
      if mx[m].count > 1 {
        mx := mx[m := mx[m].(count := mx[m].count - 1)];
        lk := lk[cur := lk[cur].(pc := InSchedule(c, m))];
      } else {
        CurInTask(S());
        WaitersInTask(S(), L(), m);
        HandOverStable(S(), L(), m);
        GiveMutex(m);
        lk := lk[cur := lk[cur].(pc := InUnlock(c, m))];
      }
      Leave(Sleeping);
    }

    /** pthread_cond_signal */
    method CondSignal(c: Cid)
      requires Calm(View()) && c in cv && forall w :: w in cv[c] ==> w in task
      modifies this
      ensures View() == SignalCall(old(View()), c)
    {
      hide Stable, Linked, Best, WakeUp;
      var target := Choose(cv[c]);
      if target.Some? {
        cv := cv[c := Remove(cv[c], target.value)];
        PthreadWakeUp(target.value);
      }
    }

    /** The first waiter leaves the queue of the condition and is made ready. */
    method WakeFirst(c: Cid)
      requires Stable(S()) && c in cv && cv[c] != [] && cv[c][0] in task
      modifies this`level, this`bitmap, this`task, this`cv
      ensures S() == SetRunning(old(S()), old(cv[c][0])) && cv == old(cv)[c := old(cv)[c][1..]]
      ensures Stable(S()) && S().task.Keys == old(S()).task.Keys
    {
      hide Stable, Valid, SetRunning;
      var w := cv[c][0];
      SetRunningOk(S(), w);
      StableValid(S());
      cv := cv[c := cv[c][1..]];
      PthreadSetRunning(w);
    }

    /** pthread_cond_broadcast */
    method CondBroadcast(c: Cid)
      requires Calm(View()) && c in cv && forall w :: w in cv[c] ==> w in task
      modifies this
      ensures View() == BroadcastCall(old(View()), c)
    {
      hide Stable, Valid, Linked, SetRunning, Reschedule;
      if cv[c] != [] {
        while cv[c] != []
          invariant c in cv && cv == old(cv)[c := cv[c]] && cur == old(cur) && lk == old(lk) && mx == old(mx)
          invariant Stable(S()) && forall w :: w in cv[c] ==> w in task
          invariant WakeAll(S(), cv[c]) == WakeAll(old(S()), old(cv[c]))
          decreases |cv[c]|
        {
          WakeFirst(c);
        }
        StableBeforeSwitch(S());
        Schedule();
      }
    }

    /** pthread_setschedprio; n is the length of the inheritance chain of t where propagation needs it. */
    method PthreadSetPriority(t: Tid, p: nat, ghost n: nat)
      requires Calm(View()) && t in task && p <= PRIORITY_MAX && (Propagates(S(), L(), t, p) ==> OwnedChain(L(), t, n))
      modifies this`level, this`bitmap, this`task, this`cur
      ensures Linked(old(S()), L()) && (Propagates(old(S()), L(), t, p) ==> WalkEnds(L(), t))
      ensures old(task[t].priority == p) ==> S() == old(S())
      ensures old(task[t].priority != p && task[t].eff == p) ==> S() == Repriority(old(S()), L(), t, p)
      ensures old(task[t].priority != p && task[t].eff != p) ==>
                BeforeSwitch(Repriority(old(S()), L(), t, p)) && S() == Reschedule(Repriority(old(S()), L(), t, p))
    {
      hide Stable, Valid, Consistent, Recompute, Reschedule, Spread;
      ghost var s0 := S();
      if Propagates(s0, L(), t, p) {
        OneLength(L(), t, n, ChainLength(L(), t));
      }
      if task[t].priority != p {
        PriorityLinked(S(), L(), t, p);
        RepriorityStable(S(), L(), t, p);
        task := task[t := task[t].(priority := p)];
        if task[t].eff != p {
          RecomputeLinked(S(), L(), t);
          PthreadSetSchedPrio(t, n);
          assert S() == Repriority(s0, L(), t, p);
          StableBeforeSwitch(S());
          Schedule();
        }
      }
    }

    /** The end of timer_update: the running thread spends a tick. */
    method SpendTick()
      requires Stable(S())
      modifies this`level, this`bitmap, this`task, this`cur
      ensures S() == Tick(old(S()))
    {
      SpendOk(S());
      task := task[cur := task[cur].(slice := (task[cur].slice + 255) % 256)];
      if task[cur].slice == 0 {
        Schedule();
      }
    }

    /** A thread goes on inside a call after a switch. */
    method Continue()
      requires Possible(View(), Resume)
      modifies this
      ensures Possible(old(View()), Resume) && View() == Step(old(View()), Resume)
    {
      hide Stable, Linked, NoLostWakeup, CondOk, Unlocked, Retry, LockCall, Reschedule;
      ghost var k0 := View();
      ResumePoint(k0);
      var t := cur;
      var x := lk[t];
      if x.sleepOn.Some? {
        var m := x.sleepOn.value;
        var free := mx[m].lock == 1;
        MutexRetry(m);
        if free && x.pc.InRelock? {
          RetryKeepsKeys(k0, m);
          cv := cv[x.pc.cond := Remove(cv[x.pc.cond], t)];
          lk := lk[t := lk[t].(pc := Plain)];
        }
      } else if x.pc.InUnlock? {
        lk := lk[t := x.(pc := InSchedule(x.pc.cond, x.pc.mutex))];
        StableBeforeSwitch(S());
        Schedule();
      } else {
        var wait := mx[x.pc.mutex].lock != 1 && !(mx[x.pc.mutex].recursive && mx[x.pc.mutex].owner == Some(t));
        MutexLock(x.pc.mutex);
        LockKeepsKeys(k0, x.pc.mutex);
        if wait {
          lk := lk[t := lk[t].(pc := InRelock(x.pc.cond, x.pc.mutex))];
        } else {
          cv := cv[x.pc.cond := Remove(cv[x.pc.cond], t)];
          lk := lk[t := lk[t].(pc := Plain)];
        }
      }
    }
  }

  lemma RetryKeepsKeys(k: Kernel, m: Mid)
    requires Calm(k) && k.sched.cur != IDLE && m in k.locks.mx && k.sched.cur in k.locks.lk && k.locks.lk[k.sched.cur].sleepOn == Some(m)
    ensures k.sched.cur in Retry(k, m).locks.lk && Retry(k, m).cv == k.cv
  {
    hide Stable, Linked, Recompute, GiveUp;
  }

  lemma LockKeepsKeys(k: Kernel, m: Mid)
    requires Calm(k) && Me(k) && m in k.locks.mx
    requires MustWait(k, m) ==> WalkEnds(Join(k.locks, k.sched.cur, m), k.sched.cur)
    ensures k.sched.cur in LockCall(k, m).locks.lk && LockCall(k, m).cv == k.cv
  {
    hide Stable, Linked, Walked, GiveUp;
  }

  lemma JoinLinked(s: Sched, l: Locks, m: Mid)
    requires Linked(s, l) && s.cur in l.lk && m in l.mx && l.lk[s.cur].sleepOn == None
    ensures Linked(s, Join(l, s.cur, m))
  {
    hide Consistent;
    JoinOk(l, s.cur, m);
  }

  lemma WalkedIs(s: Sched, l: Locks, m: Mid)
    requires Linked(s, l) && s.cur in l.lk && m in l.mx && l.lk[s.cur].sleepOn == None && WalkEnds(Join(l, s.cur, m), s.cur)
    requires Linked(s, Join(l, s.cur, m))
    ensures Walked(s, l, m) == Spread(s, Join(l, s.cur, m), s.cur, ChainLength(Join(l, s.cur, m), s.cur))
  {
    hide Spread, Linked;
  }

  lemma CurInTask(s: Sched)
    requires Stable(s)
    ensures s.cur in s.task
  {}

  /** A thread that waits for nothing has nobody to propagate to. */
  lemma SpreadNone(s: Sched, l: Locks, t: Tid)
    requires Linked(s, l) && t in s.task && OwnedChain(l, t, 0)
    ensures Propagated(s, l, t, 0) == Recompute(s, l, t)
  {
    hide Linked, Recompute;
  }

  /** Recomputing t makes __pthread_setschedprio walk on: its priority changes, and it is not queued. */
  ghost predicate Spreads(s: Sched, l: Locks, t: Tid)
    requires Linked(s, l) && t in s.task
  {
    Inherited(s, l, t) != s.task[t].eff && !s.task[t].queued
  }

  ghost function Propagated(s: Sched, l: Locks, t: Tid, n: nat): Sched
    requires Linked(s, l) && t in s.task && OwnedChain(l, t, n)
  {
    RecomputeLinked(s, l, t);
    Spread(Recompute(s, l, t), l, t, n)
  }

  /** Whether or not the recursion has run ahead, the pass that is left leads to the same state. */
  lemma SpreadOnce(s: Sched, s': Sched, l: Locks, t: Tid, n: nat)
    requires Linked(s, l) && t in s.task && OwnedChain(l, t, n)
    requires s' == Recompute(s, l, t) || s' == Propagated(s, l, t, n)
    ensures Linked(s', l) && Spread(s', l, t, n) == Propagated(s, l, t, n)
  {
    hide Recompute, Valid, Consistent, Settled;
    RecomputeLinked(s, l, t);
    var r := Recompute(s, l, t);
    if s' == Propagated(s, l, t, n) {
      forall v | v in s'.task && OnChain(l, t, n, v) ensures Settled(s', l, v) {
        SpreadSettles(r, l, t, n, v);
      }
      SpreadAgain(s', l, t, n);
    }
  }
}
