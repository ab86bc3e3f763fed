/** Who runs next: where threads enter their levels, and when the running thread keeps the processor. */
module Turns {
  import opened Seqs
  import opened Sched
  import opened Locks
  import opened Inherit
  import opened Kernel
  import opened Preservation
  import opened Runs
  import opened Effects
  import opened Settling

  /** The running thread is the first of its level. */
  ghost predicate Heads(s: Sched) {
    && |s.level| == PRIORITY_MAX + 1 && s.cur in s.task && s.task[s.cur].eff <= PRIORITY_MAX
    && s.level[s.task[s.cur].eff] != [] && s.level[s.task[s.cur].eff][0] == s.cur
  }

  lemma TopHeads(s: Sched)
    requires AtTop(s)
    ensures Heads(s) && Highest(s)
  {
    TopHead(s);
    PeekIsHighest(s);
  }

  /** A thread that heads its level, has a slice left and is not exceeded keeps the processor. */
  lemma KeepsCpu(s: Sched)
    requires BeforeSwitch(s) && Heads(s) && s.task[s.cur].state == Running && s.task[s.cur].slice > 0 && Highest(s)
    ensures Reschedule(s).cur == s.cur
  {
    PeekIsHighest(s);
  }

  // ---- requeueing ----

  /** A running thread that gets a new priority goes to the head of its new level. */
  lemma RequeueHeads(s: Sched, p: nat)
    requires Stable(s) && Heads(s) && p <= PRIORITY_MAX
    ensures Heads(SetEff(s, s.cur, p))
  {
    SetEffValid(s, s.cur, p);
  }

  lemma SetRunningHeads(s: Sched, t: Tid)
    requires Stable(s) && Heads(s) && t in s.task
    ensures Heads(SetRunning(s, t))
  {
    SetRunningOk(s, t);
  }

  /** So it keeps the processor unless its new priority is exceeded. */
  lemma LoweredKeepsCpu(s: Sched, p: nat)
    requires AtTop(s) && p <= PRIORITY_MAX && forall t :: t in s.task && t != s.cur && s.task[t].state == Running ==> s.task[t].eff <= p
    ensures Stable(SetEff(s, s.cur, p)) && BeforeSwitch(SetEff(s, s.cur, p)) && Reschedule(SetEff(s, s.cur, p)).cur == s.cur
  {
    hide SetEff, Valid, Reschedule, Peek;
    TopHeads(s);
    RequeueHeads(s, p);
    SetEffValid(s, s.cur, p);
    var r := SetEff(s, s.cur, p);
    assert Stable(r);
    StableBeforeSwitch(r);
    KeepsCpu(r);
  }

  // ---- waking up ----

  /** A woken thread goes behind its equals: it runs at once exactly when it was off the queue and has a higher effective priority. */
  lemma WakeUpRuns(s: Sched, t: Tid)
    requires AtTop(s) && t in s.task
    ensures WakeUp(s, t).cur == if !s.task[t].queued && s.task[t].eff > s.task[s.cur].eff then t else s.cur
  {
    hide Valid, Reschedule, Peek, SetRunning;
    TopHeads(s);
    SetRunningOk(s, t);
    var r := SetRunning(s, t);
    StableBeforeSwitch(r);
    if !s.task[t].queued && s.task[t].eff > s.task[s.cur].eff {
      OnlyOneThere(s, t);
      FirstRuns(r, t);
    } else {
      SetRunningHeads(s, t);
      KeepsCpu(r);
    }
  }

  /** Above the running thread the levels are empty. */
  lemma OnlyOneThere(s: Sched, t: Tid)
    requires AtTop(s) && t in s.task && s.task[t].eff > s.task[s.cur].eff
    ensures s.task[t].eff <= PRIORITY_MAX < |s.level| && s.level[s.task[t].eff] == []
  {
    TopHeads(s);
    assert LevelOk(s, s.task[t].eff);
    Nobody(s.level[s.task[t].eff]);
  }

  lemma Nobody(q: seq<Tid>)
    ensures q == [] || q[0] in q
  {}

  /** The first thread of the highest level runs after a switch. */
  lemma FirstRuns(s: Sched, t: Tid)
    requires Stable(s) && t in s.task && s.task[t].eff < |s.level| && s.level[s.task[t].eff] != [] && s.level[s.task[t].eff][0] == t
    requires forall u :: u in s.task && s.task[u].state == Running ==> s.task[u].eff <= s.task[t].eff
    ensures BeforeSwitch(s) && Reschedule(s).cur == t
  {
    StableBeforeSwitch(s);
    assert LevelOk(s, s.task[t].eff);
    assert t in s.level[s.task[t].eff];
    PeekIsHighest(s);
  }

  /** The threads of ws that are off the run queue and have effective priority p, in order. */
  function Arrivals(task: map<Tid, Task>, ws: seq<Tid>, p: nat): seq<Tid> {
    if ws == [] then []
    else (if ws[0] in task && !task[ws[0]].queued && task[ws[0]].eff == p then [ws[0]] else []) + Arrivals(task, ws[1..], p)
  }

  lemma {:induction false} SameArrivals(a: map<Tid, Task>, b: map<Tid, Task>, ws: seq<Tid>, p: nat)
    requires forall w :: w in ws ==> w in a && w in b && a[w] == b[w]
    ensures Arrivals(a, ws, p) == Arrivals(b, ws, p)
  {
    if ws != [] {
      SameArrivals(a, b, ws[1..], p);
    }
  }

  /** A broadcast lets its threads enter their levels in the order of the queue, behind those already there. */
  lemma {:induction false} WakeAllEnters(s: Sched, ws: seq<Tid>, p: nat)
    requires Stable(s) && NoDup(ws) && p <= PRIORITY_MAX && forall w :: w in ws ==> w in s.task
    ensures |s.level| == PRIORITY_MAX + 1 == |WakeAll(s, ws).level|
    ensures WakeAll(s, ws).level[p] == s.level[p] + Arrivals(s.task, ws, p)
    decreases |ws|
  {
    hide Stable, SetRunning, NoDup;
    LevelsOf(s);
    if ws != [] {
      var w, rest := ws[0], ws[1..];
      StableValid(s);
      OneWakes(s, w);
      var r := SetRunning(s, w);
      RestNoDup(ws);
      WakeAllEnters(r, rest, p);
      SameArrivals(s.task, r.task, rest, p);
      OneEnters(s, w, p);
      var x := if !s.task[w].queued && s.task[w].eff == p then [w] else [];
      Regroup(s.level[p], x, Arrivals(s.task, rest, p));
    }
  }

  lemma RestNoDup(ws: seq<Tid>)
    requires NoDup(ws) && ws != []
    ensures NoDup(ws[1..]) && ws[0] !in ws[1..]
  {}

  lemma Regroup(a: seq<Tid>, b: seq<Tid>, c: seq<Tid>)
    ensures a + b + c == a + (b + c)
  {}

  lemma OneWakes(s: Sched, w: Tid)
    requires Stable(s) && w in s.task
    ensures Valid(s) && Stable(SetRunning(s, w)) && SetRunning(s, w).task.Keys == s.task.Keys
    ensures forall u :: u in s.task && u != w ==> SetRunning(s, w).task[u] == s.task[u]
  {
    hide SetRunning;
    SetRunningOk(s, w);
  }

  lemma OneEnters(s: Sched, w: Tid, p: nat)
    requires Stable(s) && w in s.task && p <= PRIORITY_MAX
    ensures |s.level| == |SetRunning(s, w).level| == PRIORITY_MAX + 1
    ensures SetRunning(s, w).level[p] == s.level[p] + if !s.task[w].queued && s.task[w].eff == p then [w] else []
  {
    hide SetRunning;
    SetRunningOk(s, w);
    LevelsOf(s);
  }

  /** Nobody else is touched, and whoever enters has a whole slice. */
  lemma {:induction false} WakeAllSlices(s: Sched, ws: seq<Tid>)
    requires Stable(s) && NoDup(ws) && forall w :: w in ws ==> w in s.task
    ensures Heads(s) ==> Heads(WakeAll(s, ws)) && WakeAll(s, ws).task[s.cur].slice == s.task[s.cur].slice
    ensures forall w :: w in ws && !s.task[w].queued ==> WakeAll(s, ws).task[w].slice == 10
    ensures forall t :: t in s.task && t !in ws ==> WakeAll(s, ws).task[t] == s.task[t]
    decreases |ws|
  {
    hide Stable, SetRunning, NoDup, Heads;
    if ws != [] {
      var w, rest := ws[0], ws[1..];
      StableValid(s);
      SetRunningOk(s, w);
      var r := SetRunning(s, w);
      RestNoDup(ws);
      WakeAllSlices(r, rest);
      if Heads(s) {
        SetRunningHeads(s, w);
        HeadsQueued(s);
      }
    }
  }

  lemma HeadsQueued(s: Sched)
    requires Stable(s) && Heads(s)
    ensures s.task[s.cur].queued
  {
    assert LevelOk(s, s.task[s.cur].eff);
  }

  lemma LevelsOf(s: Sched)
    requires Stable(s)
    ensures |s.level| == PRIORITY_MAX + 1
  {}

  // ---- no needless switch ----

  lemma RecomputeHeads(s: Sched, l: Locks)
    requires Stable(s) && Linked(s, l) && Heads(s) && s.task[s.cur].slice > 0
    ensures var r := Recompute(s, l, s.cur); Heads(r) && r.cur == s.cur && Stable(r) && r.task[r.cur].slice > 0
  {
    hide SetEff, Valid, Consistent, Heads, Inherited;
    InheritedIsHighest(s, l, s.cur);
    RequeueHeads(s, Inherited(s, l, s.cur));
    RecomputeLinked(s, l, s.cur);
    RecomputeRepriced(s, l, s.cur);
    RepricedStable(s, Recompute(s, l, s.cur));
    SetEffValid(s, s.cur, Inherited(s, l, s.cur));
  }

  lemma HandOverHeads(s: Sched, l: Locks, m: Mid)
    requires Stable(s) && Linked(s, l) && Heads(s) && m in l.mx && l.mx[m].owner == Some(s.cur) && s.cur in s.task
    ensures Heads(HandOver(s, l, m)) && HandOver(s, l, m).task[s.cur].slice > 0
  {
    hide Valid, Consistent, Heads, Recompute, SetRunning, Best;
    HeadsQueued(s);
    WaitersInTask(s, l, m);
    ReleaseOk(l, s.cur, m);
    var l1 := Release(l, s.cur, m);
    RecomputeHeads(s, l1);
    var r := Recompute(s, l1, s.cur);
    RecomputeLinked(s, l1, s.cur);
    var t := Target(s, l.mx[m]);
    if t.Some? {
      SetRunningOk(r, t.value);
      SetRunningHeads(r, t.value);
    }
  }

  /** The running thread, still awake, is exceeded by nobody. */
  ghost predicate Unexceeded(k: Kernel, t: Tid) {
    t in k.sched.task && k.sched.task[t].state == Running
    && forall u :: u in k.sched.task && k.sched.task[u].state == Running ==> k.sched.task[u].eff <= k.sched.task[t].eff
  }

  /** A switch between states that agree on threads. */
  lemma SwitchKeeps(s: Sched, k': Kernel)
    requires Stable(s) && Heads(s) && s.task[s.cur].slice > 0 && BeforeSwitch(s) && k'.sched == Reschedule(s) && Unexceeded(k', s.cur)
    ensures k'.sched.cur == s.cur
  {
    hide Heads, Valid, Reschedule;
    RescheduleStable(s);
    KeepsCpu(s);
  }

  lemma UnlockKeepsCpu(k: Kernel, m: Mid)
    requires Calm(k) && Me(k) && m in k.locks.mx && k.locks.mx[m].owner == Some(k.sched.cur) && AtTop(k.sched) && Unexceeded(UnlockCall(k, m), k.sched.cur)
    ensures UnlockCall(k, m).sched.cur == k.sched.cur
  {
    hide Valid, Consistent, Heads, HandOver, Reschedule, Unexceeded, AtTop;
    if k.locks.mx[m].count <= 1 {
      RunningNow(k);
      TopHeads(k.sched);
      WaitersInTask(k.sched, k.locks, m);
      HandOverStable(k.sched, k.locks, m);
      HandOverHeads(k.sched, k.locks, m);
      var s1 := HandOver(k.sched, k.locks, m);
      StableBeforeSwitch(s1);
      SwitchKeeps(s1, UnlockCall(k, m));
    }
  }

  lemma CondKeepsCpu(k: Kernel, c: Cid)
    requires Calm(k) && CondOk(k) && c in k.cv && (forall w :: w in k.cv[c] ==> w in k.sched.task) && AtTop(k.sched)
    ensures Unexceeded(SignalCall(k, c), k.sched.cur) ==> SignalCall(k, c).sched.cur == k.sched.cur
    ensures Unexceeded(BroadcastCall(k, c), k.sched.cur) ==> BroadcastCall(k, c).sched.cur == k.sched.cur
  {
    hide Valid, Linked, Heads, WakeUp, Best, Reschedule, AtTop, WakeAll;
    TopHeads(k.sched);
    var t := Best(k.sched.task, k.cv[c]);
    if t.Some? { WakeUpStays(k.sched, t.value); }
    if k.cv[c] != [] && Unexceeded(BroadcastCall(k, c), k.sched.cur) {
      assert QueueOk(k, c);
      WakeAllSlices(k.sched, k.cv[c]);
      HeadsQueued(k.sched);
      var s1 := WakeAll(k.sched, k.cv[c]);
      StableBeforeSwitch(s1);
      SwitchKeeps(s1, BroadcastCall(k, c));
    }
  }

  lemma WakeUpStays(s: Sched, t: Tid)
    requires AtTop(s) && t in s.task
    ensures Highest(s) && (WakeUp(s, t).cur != s.cur ==> t in WakeUp(s, t).task && WakeUp(s, t).task[t].state == Running)
    ensures WakeUp(s, t).cur != s.cur ==> WakeUp(s, t).task[t].eff > WakeUp(s, t).task[s.cur].eff
  {
    hide WakeUp, Valid, Peek;
    TopHeads(s);
    WakeUpRuns(s, t);
    WakeUpStable(s, t);
  }

  lemma ResumeKeepsCpu(k: Kernel)
    requires Possible(k, Resume) && AtTop(k.sched) && Unexceeded(Step(k, Resume), k.sched.cur)
    ensures Step(k, Resume).sched.cur == k.sched.cur
  {
    hide Stable, Linked, NoLostWakeup, CondOk, Unlocked, LockCall, Retry, Reschedule, AtTop, FinishWait;
    ResumePoint(k);
    var x := k.locks.lk[k.sched.cur];
    if x.sleepOn.Some? {
      RetryStays(k, x.sleepOn.value);
      RetryKeys(k, x.sleepOn.value);
      FinishSched(Retry(k, x.sleepOn.value), k.sched.cur, x.pc);
    } else if x.pc.InUnlock? {
      StableBeforeSwitch(k.sched);
      TopSlice(k.sched);
      SwitchKeeps(k.sched, Step(k, Resume));
    } else {
      LockStays(k, x.pc.mutex);
      LockKeys(k, x.pc.mutex);
      FinishSched(LockCall(k, x.pc.mutex), k.sched.cur, x.pc);
    }
  }

  lemma FinishSched(k: Kernel, t: Tid, pc: Pc)
    ensures !pc.Plain? && t in k.locks.lk && pc.cond in k.cv ==> FinishWait(k, t, pc.cond).sched == k.sched
  {}

  lemma TopSlice(s: Sched)
    requires AtTop(s)
    ensures Heads(s) && s.task[s.cur].slice > 0
  {
    TopHeads(s);
    HeadsQueued(s);
  }

  lemma RetryStays(k: Kernel, m: Mid)
    requires Calm(k) && k.sched.cur != IDLE && m in k.locks.mx && k.sched.cur in k.locks.lk && k.locks.lk[k.sched.cur].sleepOn == Some(m)
    ensures Unexceeded(Retry(k, m), k.sched.cur) ==> Retry(k, m).sched.cur == k.sched.cur
  {
    hide Stable, Valid, Consistent, Recompute, GiveUp;
    RunningNow(k);
    if k.locks.mx[m].lock == 1 {
      GrabLinked(k.sched, k.locks, m);
    } else {
      GiveUpStable(k.sched, Sleeping);
    }
  }

  lemma LockStays(k: Kernel, m: Mid)
    requires Calm(k) && Me(k) && m in k.locks.mx && (MustWait(k, m) ==> WalkEnds(Join(k.locks, k.sched.cur, m), k.sched.cur))
    ensures Unexceeded(LockCall(k, m), k.sched.cur) ==> LockCall(k, m).sched.cur == k.sched.cur
  {
    hide Stable, Linked, Walked, GiveUp;
    if MustWait(k, m) {
      WalkedStable(k.sched, k.locks, m);
      GiveUpStable(Walked(k.sched, k.locks, m), Sleeping);
    }
  }

  lemma CondWaitStays(k: Kernel, c: Cid, m: Mid)
    requires Calm(k) && Me(k) && m in k.locks.mx && k.locks.mx[m].owner == Some(k.sched.cur) && c in k.cv
    ensures !Unexceeded(CondWaitCall(k, c, m), k.sched.cur)
  {
    hide Stable, Valid, Consistent, HandOver, GiveUp;
    RunningNow(k);
    WaitersInTask(k.sched, k.locks, m);
    HandOverStable(k.sched, k.locks, m);
    GiveUpStable(HandOver(k.sched, k.locks, m), Sleeping);
    GiveUpStable(k.sched, Sleeping);
  }

  lemma OwnPriorityKeepsCpu(k: Kernel, p: nat)
    requires Possible(k, SetPriority(k.sched.cur, p)) && AtTop(k.sched) && Unexceeded(Step(k, SetPriority(k.sched.cur, p)), k.sched.cur)
    ensures Step(k, SetPriority(k.sched.cur, p)).sched.cur == k.sched.cur
  {
    hide Valid, Consistent, NoLostWakeup, CondOk, Unlocked, Recompute, Reschedule, Heads, Unexceeded, Peek, Inherited;
    var s, t := k.sched, k.sched.cur;
    TopSlice(s);
    HeadsQueued(s);
    RepriorityStable(s, k.locks, t, p);
    PriorityLinked(s, k.locks, t, p);
    if s.task[t].priority != p && s.task[t].eff != p {
      var s0 := WithPriority(s, t, p);
      NewPriorityStable(s, t, p);
      RecomputeHeads(s0, k.locks);
      StableBeforeSwitch(Repriority(s, k.locks, t, p));
      SwitchKeeps(Repriority(s, k.locks, t, p), Step(k, SetPriority(t, p)));
    }
  }

  lemma NewPriorityStable(s: Sched, t: Tid, p: nat)
    requires Stable(s) && t in s.task
    ensures Stable(WithPriority(s, t, p)) && (Heads(s) ==> Heads(WithPriority(s, t, p))) && WithPriority(s, t, p).task[t].slice == s.task[t].slice
  {
    SameQueues(s, WithPriority(s, t, p));
  }

  /**
   No needless switch: whatever the running thread calls or an interrupt does, short of the end of
   its slice and of a priority given to another thread, it goes on running as long as it is awake and
   no thread that is awake has a higher effective priority.
   */
  lemma NoNeedlessSwitch(k: Kernel, e: Event)
    requires Possible(k, e) && AtTop(k.sched) && e != TimerTick && !(e.SetPriority? && e.t != k.sched.cur)
    requires Unexceeded(Step(k, e), k.sched.cur)
    ensures Step(k, e).sched.cur == k.sched.cur
  {
    hide Inv, AtTop, Unexceeded, ResumeCall, WakeUp, GiveUp, UnlockCall, CondWaitCall, SignalCall, BroadcastCall, LockCall, Repriority;
    CalmNow(k);
    match e
    case Lock(m) => LockStays(k, m);
    case TryLock(m) =>
    case Unlock(m) => UnlockKeepsCpu(k, m);
    case CondWait(c, m) => CondWaitStays(k, c, m);
    case Signal(c) => CondTasks(k, c); CondFacts(k); CondKeepsCpu(k, c);
    case Broadcast(c) => CondTasks(k, c); CondFacts(k); CondKeepsCpu(k, c);
    case Resume => ResumeKeepsCpu(k);
    case Sleep => EndsTurn(k, e);
    case Exit => EndsTurn(k, e);
    case Create(t, p) => CreateStays(k, t, p);
    case SetPriority(t, p) => OwnPriorityKeepsCpu(k, p);
    case Wake(t) => WakeStays(k, t);
  }

  lemma CondFacts(k: Kernel)
    requires Inv(k)
    ensures CondOk(k)
  {}

  lemma EndsTurn(k: Kernel, e: Event)
    requires Possible(k, e) && (e == Sleep || e == Exit)
    ensures !Unexceeded(Step(k, e), k.sched.cur)
  {
    hide Stable, Linked, NoLostWakeup, CondOk, Unlocked, GiveUp;
    CalmNow(k);
    RunningNow(k);
    GiveUpStable(k.sched, if e == Sleep then Sleeping else Unused);
  }

  lemma WakeStays(k: Kernel, t: Tid)
    requires Possible(k, Wake(t)) && AtTop(k.sched) && Unexceeded(Step(k, Wake(t)), k.sched.cur)
    ensures Step(k, Wake(t)).sched.cur == k.sched.cur
  {
    hide Stable, Linked, NoLostWakeup, CondOk, Unlocked, WakeUp, AtTop;
    WakeUpStays(k.sched, t);
  }

  lemma CreateStays(k: Kernel, t: Tid, p: nat)
    requires Possible(k, Create(t, p)) && AtTop(k.sched) && Unexceeded(Step(k, Create(t, p)), k.sched.cur)
    ensures Step(k, Create(t, p)).sched.cur == k.sched.cur
  {
    hide Linked, NoLostWakeup, CondOk, Unlocked, WakeUp, Valid, Peek;
    NewThreadStable(k.sched, t, p);
    NewThreadTop(k.sched, t, p);
    WakeUpStays(NewThread(k.sched, t, p), t);
  }

  lemma NewThreadTop(s: Sched, t: Tid, p: nat)
    requires AtTop(s) && t in s.task && s.task[t].state == Unused && Stable(NewThread(s, t, p))
    ensures AtTop(NewThread(s, t, p))
  {
    PeekIsHighest(s);
    PeekIsHighest(NewThread(s, t, p));
  }

  // ---- a priority given to another thread ----

  /** A queued thread that is moved goes to the head of its new level, so it takes over as soon as it equals the running one. */
  lemma MovedTakesOver(s: Sched, t: Tid, q: nat)
    requires AtTop(s) && t in s.task && s.task[t].queued && t != s.cur && q <= PRIORITY_MAX && s.task[t].eff != q
    ensures Stable(SetEff(s, t, q)) && BeforeSwitch(SetEff(s, t, q))
    ensures Reschedule(SetEff(s, t, q)).cur == if q >= s.task[s.cur].eff then t else s.cur
  {
    hide SetEff, Valid, Reschedule, Peek;
    TopSlice(s);
    TopHeads(s);
    SetEffValid(s, t, q);
    var r := SetEff(s, t, q);
    assert Stable(r);
    StableBeforeSwitch(r);
    if q >= s.task[s.cur].eff {
      FirstRuns(r, t);
    } else {
      assert Heads(r);
      KeepsCpu(r);
    }
  }

  lemma OtherPriorityRuns(k: Kernel, t: Tid, p: nat)
    requires Possible(k, SetPriority(t, p)) && AtTop(k.sched) && t != k.sched.cur && k.sched.task[t].state == Running
    ensures t in Step(k, SetPriority(t, p)).sched.task && k.sched.cur in k.sched.task
    ensures var k', q := Step(k, SetPriority(t, p)), Step(k, SetPriority(t, p)).sched.task[t].eff;
            k'.sched.cur == if q != k.sched.task[t].eff && q >= k.sched.task[k.sched.cur].eff then t else k.sched.cur
  {
    hide Valid, Consistent, NoLostWakeup, CondOk, Unlocked, SetEff, Reschedule, Peek, Inherited;
    var s := k.sched;
    PriorityLinked(s, k.locks, t, p);
    RepriorityStable(s, k.locks, t, p);
    var s0 := WithPriority(s, t, p);
    NewPriorityTop(s, t, p);
    var q := Inherited(s0, k.locks, t);
    InheritedIsHighest(s0, k.locks, t);
    SetEffValid(s0, t, q);
    if s.task[t].priority != p && s.task[t].eff != p {
      var r := SetEff(s0, t, q);
      assert Repriority(s, k.locks, t, p) == r;
      StableBeforeSwitch(r);
      RescheduleStable(r);
      if q != s.task[t].eff {
        MovedTakesOver(s0, t, q);
      } else {
        SameEff(s0, t);
        TopStays(s0);
      }
    }
  }

  lemma SameEff(s: Sched, t: Tid)
    requires Valid(s) && t in s.task && s.task[t].eff <= PRIORITY_MAX
    ensures SetEff(s, t, s.task[t].eff) == s
  {}

  lemma TopStays(s: Sched)
    requires AtTop(s)
    ensures BeforeSwitch(s) && Reschedule(s).cur == s.cur
  {
    hide Valid, Reschedule, Peek;
    TopSlice(s);
    TopHeads(s);
    StableBeforeSwitch(s);
    KeepsCpu(s);
  }

  lemma NewPriorityTop(s: Sched, t: Tid, p: nat)
    requires AtTop(s) && t in s.task
    ensures AtTop(WithPriority(s, t, p))
  {
    NewPriorityStable(s, t, p);
    PeekIsHighest(s);
    PeekIsHighest(WithPriority(s, t, p));
  }

  // ---- the head of the highest level runs, in every run ----

  /** A running thread whose priority is raised stays at the top. */
  lemma RaisedTop(s: Sched, q: nat)
    requires AtTop(s) && s.task[s.cur].eff <= q <= PRIORITY_MAX
    ensures AtTop(SetEff(s, s.cur, q))
  {
    hide SetEff, Valid, Peek;
    TopSlice(s);
    TopHeads(s);
    RequeueHeads(s, q);
    SetEffValid(s, s.cur, q);
    var r := SetEff(s, s.cur, q);
    assert Stable(r);
    HeadsTop(r);
  }

  lemma HeadsTop(s: Sched)
    requires Stable(s) && Heads(s) && Highest(s)
    ensures AtTop(s)
  {
    PeekIsHighest(s);
  }

  lemma RetryTop(k: Kernel, m: Mid)
    requires Calm(k) && Inherits(k) && AtTop(k.sched) && k.sched.cur != IDLE && m in k.locks.mx && k.sched.cur in k.locks.lk && k.locks.lk[k.sched.cur].sleepOn == Some(m)
    ensures AtTop(Retry(k, m).sched)
  {
    hide Stable, Valid, Consistent, SetEff, GiveUp, AtTop, Inherited, Settled;
    RunningNow(k);
    if k.locks.mx[m].lock == 1 {
      GrabLinked(k.sched, k.locks, m);
      GrabGains(k.sched, k.locks, k.sched.cur, m);
      InheritedIsHighest(k.sched, Grab(k.locks, k.sched.cur, m), k.sched.cur);
      RaisedTop(k.sched, Inherited(k.sched, Grab(k.locks, k.sched.cur, m), k.sched.cur));
    } else {
      GiveUpTop(k.sched, Sleeping);
    }
  }

  lemma LockTop(k: Kernel, m: Mid)
    requires Calm(k) && Me(k) && m in k.locks.mx && AtTop(k.sched)
    requires MustWait(k, m) ==> WalkEnds(Join(k.locks, k.sched.cur, m), k.sched.cur)
    ensures AtTop(LockCall(k, m).sched)
  {
    hide Stable, Linked, Walked, GiveUp, AtTop;
    if MustWait(k, m) {
      WalkedStable(k.sched, k.locks, m);
      GiveUpTop(Walked(k.sched, k.locks, m), Sleeping);
    }
  }

  lemma ResumeTop(k: Kernel)
    requires Possible(k, Resume) && Inherits(k) && AtTop(k.sched)
    ensures AtTop(Step(k, Resume).sched)
  {
    hide Stable, Linked, NoLostWakeup, CondOk, Unlocked, AllSettled, LockCall, Retry, Reschedule, AtTop, FinishWait;
    ResumePoint(k);
    var x := k.locks.lk[k.sched.cur];
    if x.sleepOn.Some? {
      RetryTop(k, x.sleepOn.value);
      RetryKeys(k, x.sleepOn.value);
      FinishSched(Retry(k, x.sleepOn.value), k.sched.cur, x.pc);
    } else if x.pc.InUnlock? {
      StableBeforeSwitch(k.sched);
      RescheduleTop(k.sched);
    } else {
      LockTop(k, x.pc.mutex);
      LockKeys(k, x.pc.mutex);
      FinishSched(LockCall(k, x.pc.mutex), k.sched.cur, x.pc);
    }
  }

  lemma UnlockTop(k: Kernel, m: Mid)
    requires Calm(k) && Me(k) && m in k.locks.mx && k.locks.mx[m].owner == Some(k.sched.cur) && AtTop(k.sched)
    ensures AtTop(UnlockCall(k, m).sched)
    ensures forall c :: c in k.cv ==> AtTop(CondWaitCall(k, c, m).sched)
  {
    hide Stable, Valid, Consistent, HandOver, GiveUp, Reschedule, AtTop;
    RunningNow(k);
    WaitersInTask(k.sched, k.locks, m);
    HandOverStable(k.sched, k.locks, m);
    var s1 := HandOver(k.sched, k.locks, m);
    StableBeforeSwitch(s1);
    RescheduleTop(s1);
    GiveUpTop(s1, Sleeping);
    GiveUpTop(k.sched, Sleeping);
  }

  lemma CondTop(k: Kernel, c: Cid)
    requires Calm(k) && c in k.cv && AtTop(k.sched) && forall w :: w in k.cv[c] ==> w in k.sched.task
    ensures AtTop(SignalCall(k, c).sched) && AtTop(BroadcastCall(k, c).sched)
  {
    hide Stable, Linked, WakeUp, Best, WakeAll, Reschedule, AtTop;
    var t := Best(k.sched.task, k.cv[c]);
    if t.Some? { WakeUpTop(k.sched, t.value); }
    if k.cv[c] != [] {
      StableBeforeSwitch(WakeAll(k.sched, k.cv[c]));
      RescheduleTop(WakeAll(k.sched, k.cv[c]));
    }
  }

  lemma PlainTop(k: Kernel, e: Event)
    requires Possible(k, e) && AtTop(k.sched) && (e == Sleep || e == Exit || e == TimerTick || e.Wake? || e.Create?)
    ensures AtTop(Step(k, e).sched)
  {
    hide Stable, Linked, NoLostWakeup, CondOk, Unlocked, GiveUp, Tick, WakeUp, AtTop;
    match e {
      case Sleep => GiveUpTop(k.sched, Sleeping);
      case Exit => GiveUpTop(k.sched, Unused);
      case TimerTick => TickTop(k.sched);
      case Wake(t) => WakeUpTop(k.sched, t);
      case Create(t, p) => NewThreadStable(k.sched, t, p); WakeUpTop(NewThread(k.sched, t, p), t);
    }
  }

  lemma TickTop(s: Sched)
    requires AtTop(s)
    ensures Stable(s) && AtTop(Tick(s))
  {
    hide Reschedule;
    SpendOk(s);
    if Spend(s).task[s.cur].slice == 0 {
      RescheduleTop(Spend(s));
    } else {
      PeekIsHighest(s);
      PeekIsHighest(Spend(s));
    }
  }

  lemma PriorityTop(k: Kernel, t: Tid, p: nat)
    requires Possible(k, SetPriority(t, p)) && AtTop(k.sched)
    ensures AtTop(Step(k, SetPriority(t, p)).sched)
  {
    hide Stable, Linked, NoLostWakeup, CondOk, Unlocked, Recompute, Reschedule, Spread, Propagates, AtTop;
    RepriorityStable(k.sched, k.locks, t, p);
    var r := Repriority(k.sched, k.locks, t, p);
    NewPriorityTop(k.sched, t, p);
    if k.sched.task[t].priority != p && k.sched.task[t].eff != p {
      StableBeforeSwitch(r);
      RescheduleTop(r);
    }
  }

  /** From a state where inheritance holds, every step leaves the head of the highest level running. */
  lemma StepTop(k: Kernel, e: Event)
    requires Possible(k, e) && Inherits(k) && AtTop(k.sched)
    ensures AtTop(Step(k, e).sched)
  {
    hide Inv, Inherits, AtTop, ResumeCall, WakeUp, Tick, GiveUp, UnlockCall, CondWaitCall, SignalCall, BroadcastCall, LockCall, Repriority;
    CalmNow(k);
    match e
    case Lock(m) => LockTop(k, m);
    case TryLock(m) =>
    case Unlock(m) => UnlockTop(k, m);
    case CondWait(c, m) => UnlockTop(k, m);
    case Signal(c) => CondTasks(k, c); CondTop(k, c);
    case Broadcast(c) => CondTasks(k, c); CondTop(k, c);
    case Resume => ResumeTop(k);
    case SetPriority(t, p) => PriorityTop(k, t, p);
    case _ => PlainTop(k, e);
  }

  /** In every run that keeps inheritance the head of the highest level runs throughout. */
  lemma {:induction false} HeedfulRunTop(k: Kernel, es: seq<Event>)
    requires Inv(k) && Orderly(k) && AtTop(k.sched) && CanRun(k, es) && HeedfulRun(k, es)
    ensures Orderly(After(k, es)) && AtTop(After(k, es).sched)
    decreases |es|
  {
    hide Inv, Allowed, Walks, Step, Inherits, NoSelfWait, Highest, AtTop, Heeds;
    if es != [] {
      StepKeeps(k, es[0]);
      StepOrderly(k, es[0]);
      StepTop(k, es[0]);
      HeedfulRunTop(Step(k, es[0]), es[1..]);
    }
  }

  // ---- who changes a priority ----

  ghost predicate SamePriorities(s: Sched, s': Sched) {
    s'.task.Keys == s.task.Keys && forall t :: t in s.task ==> s'.task[t].priority == s.task[t].priority
  }

  lemma LockPriorities(k: Kernel, m: Mid)
    requires Calm(k) && Me(k) && m in k.locks.mx && (MustWait(k, m) ==> WalkEnds(Join(k.locks, k.sched.cur, m), k.sched.cur))
    ensures SamePriorities(k.sched, LockCall(k, m).sched)
  {
    hide Stable, Linked, Walked, GiveUp;
    if MustWait(k, m) {
      WalkedStable(k.sched, k.locks, m);
      GiveUpStable(Walked(k.sched, k.locks, m), Sleeping);
    }
  }

  lemma UnlockPriorities(k: Kernel, m: Mid)
    requires Calm(k) && Me(k) && m in k.locks.mx && k.locks.mx[m].owner == Some(k.sched.cur)
    ensures SamePriorities(k.sched, UnlockCall(k, m).sched)
    ensures forall c :: c in k.cv ==> SamePriorities(k.sched, CondWaitCall(k, c, m).sched)
  {
    hide Stable, Valid, Consistent, HandOver, GiveUp, Reschedule;
    RunningNow(k);
    WaitersInTask(k.sched, k.locks, m);
    HandOverStable(k.sched, k.locks, m);
    var s1 := HandOver(k.sched, k.locks, m);
    StableBeforeSwitch(s1);
    RescheduleStable(s1);
    GiveUpStable(s1, Sleeping);
    GiveUpStable(k.sched, Sleeping);
  }

  lemma CondPriorities(k: Kernel, c: Cid)
    requires Calm(k) && c in k.cv && forall w :: w in k.cv[c] ==> w in k.sched.task
    ensures SamePriorities(k.sched, SignalCall(k, c).sched) && SamePriorities(k.sched, BroadcastCall(k, c).sched)
  {
    hide Stable, Linked, WakeUp, Best, WakeAll, Reschedule;
    var t := Best(k.sched.task, k.cv[c]);
    if t.Some? { WakeUpStable(k.sched, t.value); }
    if k.cv[c] != [] {
      StableBeforeSwitch(WakeAll(k.sched, k.cv[c]));
      RescheduleStable(WakeAll(k.sched, k.cv[c]));
    }
  }

  lemma ResumePriorities(k: Kernel)
    requires Possible(k, Resume)
    ensures SamePriorities(k.sched, Step(k, Resume).sched)
  {
    hide Stable, Linked, NoLostWakeup, CondOk, Unlocked, LockCall, Retry, Reschedule, FinishWait;
    ResumePoint(k);
    var x := k.locks.lk[k.sched.cur];
    if x.sleepOn.Some? {
      RetryPriorities(k, x.sleepOn.value);
      RetryKeys(k, x.sleepOn.value);
      FinishSched(Retry(k, x.sleepOn.value), k.sched.cur, x.pc);
    } else if x.pc.InUnlock? {
      StableBeforeSwitch(k.sched);
      RescheduleStable(k.sched);
    } else {
      LockPriorities(k, x.pc.mutex);
      LockKeys(k, x.pc.mutex);
      FinishSched(LockCall(k, x.pc.mutex), k.sched.cur, x.pc);
    }
  }

  lemma RetryPriorities(k: Kernel, m: Mid)
    requires Calm(k) && k.sched.cur != IDLE && m in k.locks.mx && k.sched.cur in k.locks.lk && k.locks.lk[k.sched.cur].sleepOn == Some(m)
    ensures SamePriorities(k.sched, Retry(k, m).sched)
  {
    hide Stable, Valid, Consistent, Recompute, GiveUp;
    RunningNow(k);
    if k.locks.mx[m].lock == 1 {
      GrabLinked(k.sched, k.locks, m);
    } else {
      GiveUpStable(k.sched, Sleeping);
    }
  }

  lemma PlainPriorities(k: Kernel, e: Event)
    requires Possible(k, e) && (e == Sleep || e == Exit || e == TimerTick || e.Wake?)
    ensures SamePriorities(k.sched, Step(k, e).sched)
  {
    hide Stable, Linked, NoLostWakeup, CondOk, Unlocked, GiveUp, Tick, WakeUp;
    match e {
      case Sleep => GiveUpStable(k.sched, Sleeping);
      case Exit => GiveUpStable(k.sched, Unused);
      case TimerTick => TickStable(k.sched);
      case Wake(t) => WakeUpStable(k.sched, t);
    }
  }

  lemma GivenPriority(k: Kernel, t: Tid, p: nat)
    requires Possible(k, SetPriority(t, p))
    ensures SamePriorities(WithPriority(k.sched, t, p), Step(k, SetPriority(t, p)).sched)
  {
    hide Stable, Valid, Consistent, NoLostWakeup, CondOk, Unlocked, Recompute, Spread, Reschedule, Inherited;
    var s := k.sched;
    PriorityLinked(s, k.locks, t, p);
    RepriorityStable(s, k.locks, t, p);
    var s0, r := WithPriority(s, t, p), Repriority(s, k.locks, t, p);
    RecomputeLinked(s0, k.locks, t);
    RecomputeRepriced(s0, k.locks, t);
    if Propagates(s, k.locks, t, p) {
      SpreadRepriced(Recompute(s0, k.locks, t), k.locks, t, ChainLength(k.locks, t));
    }
    StableBeforeSwitch(r);
    RescheduleStable(r);
  }

  /** A new thread is ready with the priority it was given, its own and its effective one, and a whole slice. */
  lemma CreatedReady(k: Kernel, t: Tid, p: nat)
    requires Possible(k, Create(t, p))
    ensures var x := Step(k, Create(t, p)).sched.task[t]; x.priority == x.eff == p && x.state == Running && x.slice == 10
    ensures SamePriorities(NewThread(k.sched, t, p), Step(k, Create(t, p)).sched)
  {
    hide Valid, Linked, NoLostWakeup, CondOk, Unlocked, SetRunning, Peek;
    NewThreadStable(k.sched, t, p);
    var n := NewThread(k.sched, t, p);
    WakeUpStable(n, t);
    SetRunningOk(n, t);
    StableBeforeSwitch(SetRunning(n, t));
    SwitchSlices(SetRunning(n, t));
  }

  lemma SwitchSlices(s: Sched)
    requires Stable(s)
    ensures BeforeSwitch(s) && forall t :: t in s.task ==> t in Reschedule(s).task && Reschedule(s).task[t].slice == s.task[t].slice
  {}

  /** The scheduler after those calls that have a specification of their own. */
  lemma StepCases(k: Kernel, e: Event)
    requires Possible(k, e)
    ensures Calm(k)
    ensures e.Lock? ==> Step(k, e).sched == LockCall(k, e.m).sched
    ensures e.TryLock? ==> Step(k, e).sched == k.sched
    ensures e.Unlock? ==> Step(k, e).sched == UnlockCall(k, e.m).sched
    ensures e.CondWait? ==> Step(k, e).sched == CondWaitCall(k, e.c, e.m).sched
  {
    hide Inv, ResumeCall, WakeUp, Tick, GiveUp, UnlockCall, CondWaitCall, SignalCall, BroadcastCall, LockCall, Repriority, Reschedule;
    CalmNow(k);
  }

  lemma CondCases(k: Kernel, e: Event)
    requires Possible(k, e) && (e.Signal? || e.Broadcast?)
    ensures Calm(k) && (forall w :: w in k.cv[e.c] ==> w in k.sched.task)
    ensures Step(k, e).sched == if e.Signal? then SignalCall(k, e.c).sched else BroadcastCall(k, e.c).sched
  {
    hide Inv, WakeUp, Reschedule, SignalCall, BroadcastCall;
    CalmNow(k);
    CondTasks(k, e.c);
  }

  /** A thread's own priority is changed by the call that says so, or when its slot gets a new thread, and by nothing else. */
  lemma StepPriorities(k: Kernel, e: Event, u: Tid)
    requires Possible(k, e) && u in k.sched.task
    ensures u in Step(k, e).sched.task
    ensures Step(k, e).sched.task[u].priority == if (e.SetPriority? || e.Create?) && e.t == u then e.p else k.sched.task[u].priority
  {
    hide Inv, Step, ResumeCall, WakeUp, Tick, GiveUp, UnlockCall, CondWaitCall, SignalCall, BroadcastCall, LockCall, Repriority, Reschedule;
    StepCases(k, e);
    CalmNow(k);
    match e
    case Lock(m) => LockPriorities(k, m);
    case TryLock(m) =>
    case Unlock(m) => UnlockPriorities(k, m);
    case CondWait(c, m) => UnlockPriorities(k, m);
    case Signal(c) => CondCases(k, e); CondPriorities(k, c);
    case Broadcast(c) => CondCases(k, e); CondPriorities(k, c);
    case Resume => ResumePriorities(k);
    case Create(t, p) => CreatedReady(k, t, p);
    case SetPriority(t, p) => GivenPriority(k, t, p);
    case _ => PlainPriorities(k, e);
  }
}
