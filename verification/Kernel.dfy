/**
 The kernel as a machine whose steps are the atomic sections of kernel/pthread.c: each runs
 with interrupts disabled up to a switch, and a thread that slept goes on in a later step.
 */
module Kernel {
  import opened Seqs
  import opened Sched
  import opened Locks
  import opened Inherit

  datatype Kernel = Kernel(sched: Sched, locks: Locks, cv: map<Cid, seq<Tid>>)

  /** What the running thread calls, what it does when it comes back from a switch, and interrupts. */
  datatype Event =
    | Lock(m: Mid) | TryLock(m: Mid) | Unlock(m: Mid)
    | CondWait(c: Cid, m: Mid) | Signal(c: Cid) | Broadcast(c: Cid)
    | Resume
    | Sleep | Exit
    | Create(t: Tid, p: nat) | SetPriority(t: Tid, p: nat)
    | TimerTick | Wake(t: Tid)

  predicate Awake(k: Kernel, t: Tid) {
    t in k.sched.task && k.sched.task[t].state == Running
  }

  /** A mutex that threads wait for is contended, or one of its waiters is about to look at it again. */
  ghost predicate NoLostWakeup(k: Kernel) {
    forall m :: m in k.locks.mx && k.locks.mx[m].wq != [] && k.locks.mx[m].lock != -1 ==>
      exists t :: t in k.locks.mx[m].wq && Awake(k, t)
  }

  ghost predicate QueueOk(k: Kernel, c: Cid)
    requires c in k.cv
  {
    NoDup(k.cv[c]) && forall t :: t in k.cv[c] ==> t in k.locks.lk && !k.locks.lk[t].pc.Plain? && k.locks.lk[t].pc.cond == c
  }

  /** A thread inside pthread_cond_wait: while it sleeps there it is in the queue of the condition. */
  ghost predicate WaiterOk(k: Kernel, t: Tid)
    requires t in k.locks.lk && t in k.sched.task
  {
    var x := k.locks.lk[t];
    !x.pc.Plain? ==>
      && x.pc.cond in k.cv && x.pc.mutex in k.locks.mx
      && (x.pc.InRelock? ==> x.sleepOn == Some(x.pc.mutex))
      && (!x.pc.InRelock? ==>
            && x.sleepOn == None
            && (k.locks.mx[x.pc.mutex].owner == Some(t) ==> k.locks.mx[x.pc.mutex].recursive)
            && (k.sched.task[t].state == Sleeping ==> t in k.cv[x.pc.cond]))
  }

  ghost predicate CondOk(k: Kernel)
    requires k.locks.lk.Keys == k.sched.task.Keys
  {
    && (forall c :: c in k.cv ==> QueueOk(k, c))
    && (forall t :: t in k.locks.lk ==> WaiterOk(k, t))
  }

  const FRESH := Locker(None, [], Plain)

  /** A slot without a thread, and the idle thread, neither hold nor wait for anything. */
  ghost predicate Unlocked(k: Kernel)
    requires k.locks.lk.Keys == k.sched.task.Keys
  {
    && (forall t :: t in k.sched.task && k.sched.task[t].state != Running && k.sched.task[t].state != Sleeping ==> k.locks.lk[t] == FRESH)
    && (IDLE in k.locks.lk ==> k.locks.lk[IDLE] == FRESH)
  }

  /** No operation is under way: the scheduler is stable and the lock structures agree. */
  ghost predicate Calm(k: Kernel) {
    Stable(k.sched) && Linked(k.sched, k.locks)
  }

  ghost predicate Inv(k: Kernel) {
    && Calm(k)
    && NoLostWakeup(k) && CondOk(k) && Unlocked(k)
  }

  // ---- choosing whom to wake ----

  /** The loop of unlock and signal: a later thread wins only with a higher effective priority. */
  function BestFrom(task: map<Tid, Task>, ws: seq<Tid>, best: Option<Tid>): (r: Option<Tid>)
    requires forall w :: w in ws ==> w in task
    requires best.Some? ==> best.value in task
    ensures r == None <==> ws == [] && best == None
    ensures r.Some? ==> r.value in ws || r == best
  {
    if ws == [] then best
    else if best == None || task[best.value].eff < task[ws[0]].eff then BestFrom(task, ws[1..], Some(ws[0]))
    else BestFrom(task, ws[1..], best)
  }

  function Best(task: map<Tid, Task>, ws: seq<Tid>): (r: Option<Tid>)
    requires forall w :: w in ws ==> w in task
    ensures r == None <==> ws == []
    ensures r.Some? ==> r.value in ws
  {
    BestFrom(task, ws, None)
  }

  lemma {:induction false} BestFromIsHighest(task: map<Tid, Task>, ws: seq<Tid>, best: Option<Tid>)
    requires forall w :: w in ws ==> w in task
    requires best.Some? ==> best.value in task
    ensures var r := BestFrom(task, ws, best);
            && (best.Some? ==> r.Some? && (r == best || task[r.value].eff > task[best.value].eff))
            && (forall w :: w in ws ==> r.Some? && task[w].eff <= task[r.value].eff)
            && (r.Some? && r != best ==> exists i ::
                  0 <= i < |ws| && ws[i] == r.value && forall j :: 0 <= j < i ==> task[ws[j]].eff < task[r.value].eff)
  {
    if ws != [] {
      var best' := if best == None || task[best.value].eff < task[ws[0]].eff then Some(ws[0]) else best;
      BestFromIsHighest(task, ws[1..], best');
      var r := BestFrom(task, ws, best);
      if r != best {
        if r == Some(ws[0]) {
          assert ws[0] == r.value;
        } else {
          var i :| 0 <= i < |ws[1..]| && ws[1..][i] == r.value && forall j :: 0 <= j < i ==> task[ws[1..][j]].eff < task[r.value].eff;
          assert ws[i + 1] == r.value;
          forall j | 0 <= j < i + 1 ensures task[ws[j]].eff < task[r.value].eff {
            if j > 0 {
              assert ws[j] == ws[1..][j - 1];
            }
          }
        }
      }
    }
  }

  /** Unlock and signal pick the earliest waiter among those of the highest effective priority. */
  lemma BestIsEarliestHighest(task: map<Tid, Task>, ws: seq<Tid>)
    requires ws != [] && forall w :: w in ws ==> w in task
    ensures Best(task, ws).Some?
    ensures exists i ::
              && 0 <= i < |ws| && Best(task, ws) == Some(ws[i])
              && (forall j :: 0 <= j < |ws| ==> task[ws[j]].eff <= task[ws[i]].eff)
              && (forall j :: 0 <= j < i ==> task[ws[j]].eff < task[ws[i]].eff)
  {
    BestFromIsHighest(task, ws, None);
    assert ws[0] in ws;
  }

  // ---- the steps ----

  /** The inheritance walk from t comes to an end and meets only owned mutexes. */
  ghost predicate WalkEnds(l: Locks, t: Tid) {
    exists n :: OwnedChain(l, t, n)
  }

  ghost function ChainLength(l: Locks, t: Tid): (n: nat)
    requires WalkEnds(l, t)
    ensures OwnedChain(l, t, n)
  {
    var n: nat :| OwnedChain(l, t, n);
    n
  }

  /** The thread that runs may call the kernel: it is not the idle thread and not in the middle of a call. */
  predicate Me(k: Kernel) {
    k.sched.cur != IDLE && k.sched.cur in k.locks.lk && k.locks.lk[k.sched.cur].sleepOn == None
  }

  predicate MustWait(k: Kernel, m: Mid)
    requires m in k.locks.mx
  {
    k.locks.mx[m].lock != 1 && !(k.locks.mx[m].recursive && k.locks.mx[m].owner == Some(k.sched.cur))
  }

  /** The scheduler after the walk that follows joining a wait queue. */
  ghost function Walked(s: Sched, l: Locks, m: Mid): Sched
    requires Linked(s, l) && s.cur in l.lk && m in l.mx && l.lk[s.cur].sleepOn == None
    requires WalkEnds(Join(l, s.cur, m), s.cur)
  {
    JoinOk(l, s.cur, m);
    Spread(s, Join(l, s.cur, m), s.cur, ChainLength(Join(l, s.cur, m), s.cur))
  }

  lemma WalkedStable(s: Sched, l: Locks, m: Mid)
    requires Stable(s) && Linked(s, l) && s.cur in l.lk && m in l.mx && l.lk[s.cur].sleepOn == None
    requires WalkEnds(Join(l, s.cur, m), s.cur)
    ensures Stable(Walked(s, l, m)) && Repriced(s, Walked(s, l, m)) && Linked(Walked(s, l, m), Join(l, s.cur, m))
  {
    hide Stable, Valid, Consistent, Spread;
    JoinOk(l, s.cur, m);
    var l1 := Join(l, s.cur, m);
    SpreadRepriced(s, l1, s.cur, ChainLength(l1, s.cur));
    RepricedStable(s, Walked(s, l, m));
  }

  /** Queueing on a mutex that is held: join, propagate, mark it contended, sleep. */
  ghost function Queue(k: Kernel, m: Mid): Kernel
    requires Calm(k) && Me(k) && m in k.locks.mx && WalkEnds(Join(k.locks, k.sched.cur, m), k.sched.cur)
  {
    hide Stable, Linked, Walked;
    WalkedStable(k.sched, k.locks, m);
    Kernel(GiveUp(Walked(k.sched, k.locks, m), Sleeping), Contend(Join(k.locks, k.sched.cur, m), m), k.cv)
  }

  /** pthread_mutex_lock up to its return or its first sleep. */
  ghost function LockCall(k: Kernel, m: Mid): Kernel
    requires Calm(k) && Me(k) && m in k.locks.mx
    requires MustWait(k, m) ==> WalkEnds(Join(k.locks, k.sched.cur, m), k.sched.cur)
  {
    if k.locks.mx[m].lock == 1 then k.(locks := Acquire(k.locks, k.sched.cur, m))
    else if MustWait(k, m) then Queue(k, m)
    else k.(locks := Again(k.locks, m))
  }

  /** pthread_mutex_trylock; false is EBUSY. */
  function TryLockCall(k: Kernel, m: Mid): (Kernel, bool)
    requires k.sched.cur in k.locks.lk && m in k.locks.mx
  {
    if k.locks.mx[m].lock == 1 then (k.(locks := Acquire(k.locks, k.sched.cur, m)), true)
    else if MustWait(k, m) then (k, false)
    else (k.(locks := Again(k.locks, m)), true)
  }

  /** The lock loop after a wake-up: take the mutex if it is free, else sleep again. */
  ghost function Retry(k: Kernel, m: Mid): Kernel
    requires Calm(k) && k.sched.cur != IDLE && m in k.locks.mx && k.locks.lk[k.sched.cur].sleepOn == Some(m)
  {
    if k.locks.mx[m].lock == 1 then
      GrabOk(k.locks, k.sched.cur, m);
      k.(sched := Recompute(k.sched, Grab(k.locks, k.sched.cur, m), k.sched.cur), locks := Grab(k.locks, k.sched.cur, m))
    else
      k.(sched := GiveUp(k.sched, Sleeping), locks := Contend(k.locks, m))
  }

  /** Whom the last unlock wakes. */
  function Target(s: Sched, x: Mutex): Option<Tid>
    requires forall w :: w in x.wq ==> w in s.task
  {
    if x.lock != 0 then Best(s.task, x.wq) else None
  }

  lemma WaitersInTask(s: Sched, l: Locks, m: Mid)
    requires Linked(s, l) && m in l.mx
    ensures forall w :: w in l.mx[m].wq ==> w in s.task
  {
    assert MutexOk(l, m);
  }

  /** The run queue after the last unlock of m, before the switch. */
  ghost function HandOver(s: Sched, l: Locks, m: Mid): Sched
    requires Linked(s, l) && m in l.mx && l.mx[m].owner == Some(s.cur) && s.cur in s.task
  {
    WaitersInTask(s, l, m);
    ReleaseOk(l, s.cur, m);
    RecomputeLinked(s, Release(l, s.cur, m), s.cur);
    var r := Recompute(s, Release(l, s.cur, m), s.cur);
    var t := Target(s, l.mx[m]);
    if t.Some? then SetRunning(r, t.value) else r
  }

  lemma HandOverStable(s: Sched, l: Locks, m: Mid)
    requires Stable(s) && Linked(s, l) && m in l.mx && l.mx[m].owner == Some(s.cur) && s.cur in s.task
    requires forall w :: w in l.mx[m].wq ==> w in s.task
    ensures var r := HandOver(s, l, m);
            && Stable(r) && r.cur == s.cur && r.task.Keys == s.task.Keys
            && (forall t :: t in s.task ==>
                  && r.task[t].priority == s.task[t].priority
                  && (t != s.cur ==> r.task[t].eff == s.task[t].eff)
                  && r.task[t].state == if Target(s, l.mx[m]) == Some(t) then Running else s.task[t].state)
  {
    hide Stable, Valid, Consistent, Recompute, SetRunning, Best;
    ReleaseOk(l, s.cur, m);
    var l1 := Release(l, s.cur, m);
    RecomputeLinked(s, l1, s.cur);
    RecomputeRepriced(s, l1, s.cur);
    var r := Recompute(s, l1, s.cur);
    RepricedStable(s, r);
    var t := Target(s, l.mx[m]);
    if t.Some? {
      SetRunningOk(r, t.value);
    }
  }

  /** pthread_mutex_unlock by the owner. */
  ghost function UnlockCall(k: Kernel, m: Mid): Kernel
    requires Calm(k) && m in k.locks.mx && k.locks.mx[m].owner == Some(k.sched.cur)
  {
    if k.locks.mx[m].count > 1 then k.(locks := Drop(k.locks, m))
    else
      hide Valid, Consistent, HandOver;
      WaitersInTask(k.sched, k.locks, m);
      HandOverStable(k.sched, k.locks, m);
      StableBeforeSwitch(HandOver(k.sched, k.locks, m));
      k.(sched := Reschedule(HandOver(k.sched, k.locks, m)), locks := Release(k.locks, k.sched.cur, m))
  }

  function SetPc(l: Locks, t: Tid, pc: Pc): Locks
    requires t in l.lk
  {
    SetLocker(l, t, l.lk[t].(pc := pc))
  }

  /** pthread_cond_wait up to the sleep: in the unlock, or in the schedule after it if the mutex is still held. */
  ghost function CondWaitCall(k: Kernel, c: Cid, m: Mid): Kernel
    requires Calm(k) && Me(k) && m in k.locks.mx && k.locks.mx[m].owner == Some(k.sched.cur) && c in k.cv
  {
    var cv := k.cv[c := k.cv[c] + [k.sched.cur]];
    if k.locks.mx[m].count > 1 then
      Kernel(GiveUp(k.sched, Sleeping), SetPc(Drop(k.locks, m), k.sched.cur, InSchedule(c, m)), cv)
    else
      hide Valid, Consistent, HandOver;
      WaitersInTask(k.sched, k.locks, m);
      HandOverStable(k.sched, k.locks, m);
      Kernel(GiveUp(HandOver(k.sched, k.locks, m), Sleeping), SetPc(Release(k.locks, k.sched.cur, m), k.sched.cur, InUnlock(c, m)), cv)
  }

  /** The end of pthread_cond_wait: a thread that was not signalled takes itself off the queue. */
  function FinishWait(k: Kernel, t: Tid, c: Cid): Kernel
    requires t in k.locks.lk && c in k.cv
  {
    k.(cv := k.cv[c := Remove(k.cv[c], t)], locks := SetPc(k.locks, t, Plain))
  }

  /** pthread_cond_signal */
  ghost function SignalCall(k: Kernel, c: Cid): Kernel
    requires Calm(k) && c in k.cv && forall w :: w in k.cv[c] ==> w in k.sched.task
  {
    var t := Best(k.sched.task, k.cv[c]);
    if t == None then k
    else k.(sched := WakeUp(k.sched, t.value), cv := k.cv[c := Remove(k.cv[c], t.value)])
  }

  /** The loop of pthread_cond_broadcast. */
  ghost function WakeAll(s: Sched, ws: seq<Tid>): (r: Sched)
    requires Stable(s) && forall w :: w in ws ==> w in s.task
    ensures Stable(r) && r.cur == s.cur && r.task.Keys == s.task.Keys
    ensures forall t :: t in s.task ==>
              && r.task[t].priority == s.task[t].priority && r.task[t].eff == s.task[t].eff
              && r.task[t].state == if t in ws then Running else s.task[t].state
    decreases |ws|
  {
    hide Stable, SetRunning;
    if ws == [] then s
    else SetRunningOk(s, ws[0]); WakeAll(SetRunning(s, ws[0]), ws[1..])
  }

  ghost function BroadcastCall(k: Kernel, c: Cid): Kernel
    requires Calm(k) && c in k.cv && forall w :: w in k.cv[c] ==> w in k.sched.task
  {
    if k.cv[c] == [] then k
    else
      StableBeforeSwitch(WakeAll(k.sched, k.cv[c]));
      k.(sched := Reschedule(WakeAll(k.sched, k.cv[c])), cv := k.cv[c := []])
  }

  ghost predicate Midway(k: Kernel) {
    k.sched.cur in k.locks.lk && (k.locks.lk[k.sched.cur].sleepOn.Some? || !k.locks.lk[k.sched.cur].pc.Plain?)
  }

  /** A thread that comes back from a switch inside a call goes on with it. */
  ghost function ResumeCall(k: Kernel): Kernel
    requires Inv(k) && Midway(k) && k.sched.cur != IDLE
    requires var x := k.locks.lk[k.sched.cur];
             x.pc.InSchedule? && MustWait(k, x.pc.mutex) ==> WalkEnds(Join(k.locks, k.sched.cur, x.pc.mutex), k.sched.cur)
  {
    hide Stable, Valid;
    var t := k.sched.cur;
    var x := k.locks.lk[t];
    assert WaiterOk(k, t);
    assert ThreadOk(k.locks, t);
    if x.sleepOn.Some? then
      var r := Retry(k, x.sleepOn.value);
      if x.pc.InRelock? && k.locks.mx[x.sleepOn.value].lock == 1 then FinishWait(r, t, x.pc.cond) else r
    else if x.pc.InUnlock? then
      StableBeforeSwitch(k.sched);
      k.(sched := Reschedule(k.sched), locks := SetPc(k.locks, t, InSchedule(x.pc.cond, x.pc.mutex)))
    else
      var r := LockCall(k, x.pc.mutex);
      if MustWait(k, x.pc.mutex) then r.(locks := SetPc(r.locks, t, InRelock(x.pc.cond, x.pc.mutex)))
      else FinishWait(r, t, x.pc.cond)
  }

  /** pthread_create on a free slot: the fields are set before the thread can run. */
  function NewThread(s: Sched, t: Tid, p: nat): Sched
    requires t in s.task
  {
    s.(task := s.task[t := Task(p, p, TIMESLICE, Starting, false)])
  }

  lemma NewThreadStable(s: Sched, t: Tid, p: nat)
    requires Stable(s) && t in s.task && s.task[t].state == Unused && p <= PRIORITY_MAX
    ensures Stable(NewThread(s, t, p))
  {
    UnqueuedEff(s, t, p);
    SameQueues(s.(task := s.task[t := s.task[t].(eff := p)]), NewThread(s, t, p));
  }

  function WithPriority(s: Sched, t: Tid, p: nat): Sched
    requires t in s.task
  {
    s.(task := s.task[t := s.task[t].(priority := p)])
  }

  /** Whether pthread_setschedprio has to propagate: only for a thread that is not in the run queue. */
  ghost predicate Propagates(s: Sched, l: Locks, t: Tid, p: nat)
    requires Linked(s, l) && t in s.task && p <= PRIORITY_MAX
  {
    PriorityLinked(s, l, t, p);
    s.task[t].priority != p && s.task[t].eff != p && !s.task[t].queued && Inherited(WithPriority(s, t, p), l, t) != s.task[t].eff
  }

  /** pthread_setschedprio before the switch. */
  ghost function Repriority(s: Sched, l: Locks, t: Tid, p: nat): Sched
    requires Linked(s, l) && t in s.task && p <= PRIORITY_MAX
    requires Propagates(s, l, t, p) ==> WalkEnds(l, t)
  {
    hide Valid, Consistent;
    var s0 := WithPriority(s, t, p);
    PriorityLinked(s, l, t, p);
    if s.task[t].eff == p then s0
    else
      RecomputeLinked(s0, l, t);
      var s1 := Recompute(s0, l, t);
      if Propagates(s, l, t, p) then Spread(s1, l, t, ChainLength(l, t)) else s1
  }

  lemma PriorityLinked(s: Sched, l: Locks, t: Tid, p: nat)
    requires Linked(s, l) && t in s.task && p <= PRIORITY_MAX
    ensures Linked(WithPriority(s, t, p), l)
  {
    SameQueues(s, WithPriority(s, t, p));
  }
}
