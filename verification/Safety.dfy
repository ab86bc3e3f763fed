/** What holds in every run of the kernel: ownership, wake-ups, and the shape of the inheritance chain. */
module Safety {
  import opened Seqs
  import opened Sched
  import opened Locks
  import opened Inherit
  import opened Kernel
  import opened Preservation
  import opened Runs

  /**
   Mutual exclusion: whatever has happened, a mutex is not free exactly when it has an owner,
   it is in the queue of that thread, once, and in the queue of no other.
   */
  lemma MutualExclusion(k: Kernel, es: seq<Event>, m: Mid, t: Tid)
    requires Booted(k) && Inv(k) && CanRun(k, es)
    ensures var r := After(k, es).locks;
            m in r.mx && t in r.lk ==>
              && (r.mx[m].lock != 1 <==> r.mx[m].owner.Some?)
              && (r.mx[m].owner.Some? <==> r.mx[m].count > 0)
              && (r.mx[m].owner.Some? ==> r.mx[m].owner.value in r.lk)
              && (r.mx[m].owner == Some(t) <==> m in r.lk[t].held)
              && (forall i, j :: 0 <= i < |r.lk[t].held| && 0 <= j < |r.lk[t].held| && r.lk[t].held[i] == m == r.lk[t].held[j] ==> i == j)
  {
    hide After, CanRun;
    var r := After(k, es).locks;
    if m in r.mx && t in r.lk {
      assert MutexOk(r, m) && ThreadOk(r, t);
    }
  }

  /**
   No wake-up is lost: whatever has happened, a mutex with waiters whose lock value is 1 or 0 has
   a waiter that is awake, and lock value -1 means an owner and at least one waiter.
   */
  lemma WakeupsNeverLost(k: Kernel, es: seq<Event>, m: Mid)
    requires Booted(k) && Inv(k) && CanRun(k, es)
    ensures var r := After(k, es);
            m in r.locks.mx ==>
              var x := r.locks.mx[m];
              && (x.lock == 1 || x.lock == 0 || x.lock == -1)
              && (x.wq != [] && x.lock != -1 ==> exists t :: t in x.wq && Awake(r, t))
              && (x.lock == -1 ==> x.owner.Some? && x.wq != [])
              && (forall t :: t in x.wq <==> t in r.locks.lk && r.locks.lk[t].sleepOn == Some(m))
  {
    hide After, CanRun;
    var r := After(k, es);
    if m in r.locks.mx {
      assert MutexOk(r.locks, m);
    }
  }

  // ---- recursion counts ----

  /** How often t holds m. */
  function Held(l: Locks, t: Tid, m: Mid): int {
    if m in l.mx && l.mx[m].owner == Some(t) then l.mx[m].count else 0
  }

  /** +1 when a lock or successful trylock of m by t returns in this step, -1 when t gives m up once. */
  function Gain(k: Kernel, e: Event, t: Tid, m: Mid): int {
    if t != k.sched.cur || m !in k.locks.mx then 0
    else match e
      case Lock(n) => if n == m && !MustWait(k, m) then 1 else 0
      case TryLock(n) => if n == m && !MustWait(k, m) then 1 else 0
      case Unlock(n) => if n == m then -1 else 0
      case CondWait(_, n) => if n == m then -1 else 0
      case Resume =>
        if t !in k.locks.lk then 0
        else if k.locks.lk[t].sleepOn == Some(m) && k.locks.mx[m].lock == 1 then 1
        else if k.locks.lk[t].sleepOn == None && k.locks.lk[t].pc.InSchedule? && k.locks.lk[t].pc.mutex == m && !MustWait(k, m) then 1
        else 0
      case _ => 0
  }

  lemma StepGain(k: Kernel, e: Event, t: Tid, m: Mid)
    requires Possible(k, e)
    ensures Held(Step(k, e).locks, t, m) == Held(k.locks, t, m) + Gain(k, e, t, m)
  {
    hide Inv, Calm, LockCall, TryLockCall, UnlockCall, CondWaitCall, SignalCall, BroadcastCall, ResumeCall, GiveUp, WakeUp, Tick, Reschedule, Repriority;
    CalmNow(k);
    match e {
      case Lock(n) => LockGain(k, n, t, m);
      case TryLock(n) => TryLockGain(k, n, t, m);
      case Unlock(n) => UnlockGain(k, n, t, m);
      case CondWait(c, n) => UnlockGain(k, n, t, m);
      case Signal(c) => CondTasks(k, c); CondFrame(k, c);
      case Broadcast(c) => CondTasks(k, c); CondFrame(k, c);
      case Resume => ResumePoint(k); ResumeGain(k, t, m);
      case _ =>
    }
  }

  lemma TryLockGain(k: Kernel, n: Mid, t: Tid, m: Mid)
    requires Consistent(k.locks) && k.sched.cur in k.locks.lk && n in k.locks.mx
    ensures Held(TryLockCall(k, n).0.locks, t, m) ==
            Held(k.locks, t, m) + if n == m && t == k.sched.cur && !MustWait(k, n) then 1 else 0
  {
    hide Consistent;
    LockValue(k.locks, n);
  }

  lemma UnlockGain(k: Kernel, n: Mid, t: Tid, m: Mid)
    requires Calm(k) && n in k.locks.mx && k.locks.mx[n].owner == Some(k.sched.cur)
    ensures var gain := if n == m && t == k.sched.cur then -1 else 0;
            && Held(UnlockCall(k, n).locks, t, m) == Held(k.locks, t, m) + gain
            && forall c :: Me(k) && c in k.cv ==> Held(CondWaitCall(k, c, n).locks, t, m) == Held(k.locks, t, m) + gain
  {
    hide Stable, Valid, Consistent, HandOver, Reschedule, GiveUp;
    LockValue(k.locks, n);
  }

  lemma CondFrame(k: Kernel, c: Cid)
    requires Calm(k) && c in k.cv && forall w :: w in k.cv[c] ==> w in k.sched.task
    ensures SignalCall(k, c).locks == k.locks && BroadcastCall(k, c).locks == k.locks
  {
    hide Stable, Linked, WakeUp, WakeAll, Reschedule, Best;
  }

  lemma LockGain(k: Kernel, n: Mid, t: Tid, m: Mid)
    requires Calm(k) && Me(k) && n in k.locks.mx && Consistent(k.locks)
    requires MustWait(k, n) ==> WalkEnds(Join(k.locks, k.sched.cur, n), k.sched.cur)
    ensures Held(LockCall(k, n).locks, t, m) ==
            Held(k.locks, t, m) + if n == m && t == k.sched.cur && !MustWait(k, n) then 1 else 0
  {
    hide Stable, Linked, Walked, GiveUp, Consistent;
    LockValue(k.locks, n);
  }

  lemma ResumeGain(k: Kernel, t: Tid, m: Mid)
    requires Possible(k, Resume) && Calm(k)
    ensures Held(ResumeCall(k).locks, t, m) == Held(k.locks, t, m) + Gain(k, Resume, t, m)
  {
    hide Stable, Linked, NoLostWakeup, CondOk, Unlocked, LockCall, GiveUp, Recompute, Reschedule;
    ResumePoint(k);
    CalmNow(k);
    var x := k.locks.lk[k.sched.cur];
    if x.sleepOn.Some? {
      LockValue(k.locks, x.sleepOn.value);
    } else if x.pc.InSchedule? {
      LockGain(k, x.pc.mutex, t, m);
    }
  }

  ghost function TotalGain(k: Kernel, es: seq<Event>, t: Tid, m: Mid): int
    requires CanRun(k, es)
    decreases |es|
  {
    if es == [] then 0 else Gain(k, es[0], t, m) + TotalGain(Step(k, es[0]), es[1..], t, m)
  }

  /** The recursion count is the number of lock calls of the owner that have returned less those it has undone. */
  lemma {:induction false} CountIsOutstanding(k: Kernel, es: seq<Event>, t: Tid, m: Mid)
    requires Inv(k) && CanRun(k, es)
    ensures Held(After(k, es).locks, t, m) == Held(k.locks, t, m) + TotalGain(k, es, t, m)
    decreases |es|
  {
    hide Inv, Allowed, Walks, Step, Held, Gain;
    if es != [] {
      StepGain(k, es[0], t, m);
      StepKeeps(k, es[0]);
      CountIsOutstanding(Step(k, es[0]), es[1..], t, m);
    }
  }

  lemma NothingHeldAtBoot(k: Kernel, t: Tid, m: Mid)
    requires Booted(k)
    ensures Held(k.locks, t, m) == 0
  {}

  // ---- ordered acquisition ----

  /** Every waiting thread waits for a mutex that comes after all those it holds. */
  ghost predicate InOrder(l: Locks) {
    forall t :: t in l.lk ==> OrderedThread(l.lk[t])
  }

  ghost predicate OrderedThread(x: Locker) {
    && (x.sleepOn.Some? ==> forall n :: n in x.held ==> n < x.sleepOn.value)
    && (x.pc.InUnlock? || x.pc.InSchedule? ==> forall n :: n in x.held ==> n <= x.pc.mutex)
  }

  /** The caller takes mutexes in ascending order. */
  predicate Ascending(k: Kernel, e: Event) {
    match e
    case Lock(m) =>
      k.sched.cur in k.locks.lk && m in k.locks.mx
      && (k.locks.mx[m].owner == Some(k.sched.cur) || forall n | n in k.locks.lk[k.sched.cur].held :: n < m)
    case CondWait(_, m) => k.sched.cur in k.locks.lk && forall n | n in k.locks.lk[k.sched.cur].held :: n <= m
    case _ => true
  }

  /** l' differs from l in the entry of the running thread and in mutexes. */
  ghost predicate Mine(k: Kernel, l': Locks) {
    k.sched.cur in l'.lk && k.sched.cur in k.locks.lk && l'.lk == k.locks.lk[k.sched.cur := l'.lk[k.sched.cur]]
  }

  lemma LockMine(k: Kernel, n: Mid)
    requires Calm(k) && Me(k) && n in k.locks.mx
    requires MustWait(k, n) ==> WalkEnds(Join(k.locks, k.sched.cur, n), k.sched.cur)
    ensures Mine(k, LockCall(k, n).locks)
    ensures var x, x' := k.locks.lk[k.sched.cur], LockCall(k, n).locks.lk[k.sched.cur];
            x'.pc == x.pc && x'.sleepOn == (if MustWait(k, n) then Some(n) else None) && (MustWait(k, n) ==> x'.held == x.held)
  {
    hide Stable, Linked, Walked, GiveUp;
  }

  lemma TryLockMine(k: Kernel, n: Mid)
    requires k.sched.cur in k.locks.lk && n in k.locks.mx
    ensures Mine(k, TryLockCall(k, n).0.locks)
    ensures var x, x' := k.locks.lk[k.sched.cur], TryLockCall(k, n).0.locks.lk[k.sched.cur]; x'.pc == x.pc && x'.sleepOn == x.sleepOn
  {}

  lemma UnlockMine(k: Kernel, n: Mid)
    requires Calm(k) && n in k.locks.mx && k.locks.mx[n].owner == Some(k.sched.cur) && k.sched.cur in k.locks.lk
    ensures Mine(k, UnlockCall(k, n).locks)
    ensures var x, x' := k.locks.lk[k.sched.cur], UnlockCall(k, n).locks.lk[k.sched.cur];
            x'.pc == x.pc && x'.sleepOn == x.sleepOn
    ensures forall c :: Me(k) && c in k.cv ==>
              && Mine(k, CondWaitCall(k, c, n).locks)
              && (forall i :: i in CondWaitCall(k, c, n).locks.lk[k.sched.cur].held ==> i in k.locks.lk[k.sched.cur].held)
              && CondWaitCall(k, c, n).locks.lk[k.sched.cur].sleepOn == None
              && (CondWaitCall(k, c, n).locks.lk[k.sched.cur].pc == InUnlock(c, n) || CondWaitCall(k, c, n).locks.lk[k.sched.cur].pc == InSchedule(c, n))
  {
    hide Stable, Valid, Consistent, HandOver, Reschedule, GiveUp;
    forall i ensures i in Remove(k.locks.lk[k.sched.cur].held, n) ==> i in k.locks.lk[k.sched.cur].held {
      RemoveKeeps(k.locks.lk[k.sched.cur].held, n, i);
    }
  }

  lemma ResumeMine(k: Kernel)
    requires Possible(k, Resume) && Calm(k)
    ensures Mine(k, ResumeCall(k).locks)
    ensures var x, x' := k.locks.lk[k.sched.cur], ResumeCall(k).locks.lk[k.sched.cur];
            && (x'.sleepOn.Some? ==> x'.held == x.held && (x'.sleepOn == x.sleepOn || (x.pc.InSchedule? && x'.sleepOn == Some(x.pc.mutex) && x.pc.mutex in k.locks.mx && MustWait(k, x.pc.mutex))))
            && (x'.pc.InUnlock? || x'.pc.InSchedule? ==> x'.held == x.held && (x.pc.InUnlock? || x.pc.InSchedule?) && x'.pc.mutex == x.pc.mutex)
  {
    hide Stable, Linked, NoLostWakeup, CondOk, Unlocked, LockCall, GiveUp, Recompute, Reschedule;
    ResumePoint(k);
    CalmNow(k);
    var x := k.locks.lk[k.sched.cur];
    if x.sleepOn == None && x.pc.InSchedule? {
      LockMine(k, x.pc.mutex);
    }
  }

  /** A step changes the locking state of the running thread only, makes it wait only for a mutex it must wait for, and keeps the order. */
  lemma StepMine(k: Kernel, e: Event)
    requires Possible(k, e)
    ensures Step(k, e).locks.lk == k.locks.lk || Mine(k, Step(k, e).locks)
    ensures k.sched.cur in k.locks.lk && k.sched.cur in Step(k, e).locks.lk
    ensures var y := Step(k, e).locks.lk[k.sched.cur].sleepOn;
            y == None || y == k.locks.lk[k.sched.cur].sleepOn || (y == Wanted(k, e) && y.value in k.locks.mx && MustWait(k, y.value))
    ensures Ascending(k, e) && OrderedThread(k.locks.lk[k.sched.cur]) ==> OrderedThread(Step(k, e).locks.lk[k.sched.cur])
  {
    hide Inv, Calm, Stable, Linked, LockCall, TryLockCall, UnlockCall, CondWaitCall, SignalCall, BroadcastCall, ResumeCall, GiveUp, WakeUp, Tick, Reschedule, Repriority, Walks;
    CurIn(k);
    match e {
      case Lock(n) => WalksLock(k, n); LockMine(k, n);
      case TryLock(n) => TryLockMine(k, n);
      case Unlock(n) => UnlockMine(k, n);
      case CondWait(c, n) => UnlockMine(k, n);
      case Signal(c) => CondTasks(k, c); CondFrame(k, c);
      case Broadcast(c) => CondTasks(k, c); CondFrame(k, c);
      case Resume => ResumePoint(k); ResumeMine(k); ResumeOwn(k);
      case _ =>
    }
  }

  lemma CurIn(k: Kernel)
    requires Inv(k)
    ensures Calm(k) && k.sched.cur in k.locks.lk
  {}

  lemma WalksLock(k: Kernel, n: Mid)
    requires Possible(k, Lock(n))
    ensures MustWait(k, n) ==> WalkEnds(Join(k.locks, k.sched.cur, n), k.sched.cur)
  {}

  lemma ResumeOwn(k: Kernel)
    requires Inv(k) && k.sched.cur in k.locks.lk
    ensures var x := k.locks.lk[k.sched.cur];
            x.pc.InSchedule? && x.pc.mutex in k.locks.mx && MustWait(k, x.pc.mutex) ==> x.pc.mutex !in x.held
  {
    assert WaiterOk(k, k.sched.cur) && ThreadOk(k.locks, k.sched.cur);
    var x := k.locks.lk[k.sched.cur];
    if x.pc.InSchedule? {
      assert MutexOk(k.locks, x.pc.mutex);
    }
  }

  lemma StepInOrder(k: Kernel, e: Event)
    requires Possible(k, e) && InOrder(k.locks) && Ascending(k, e)
    ensures InOrder(Step(k, e).locks)
  {
    hide Possible, Step, OrderedThread;
    StepMine(k, e);
    forall t | t in Step(k, e).locks.lk ensures OrderedThread(Step(k, e).locks.lk[t]) {
      assert t in k.locks.lk;
    }
  }

  /** From t the walk comes, over n owned mutexes, to a thread that waits for a mutex nobody owns. */
  ghost predicate Dangles(l: Locks, t: Tid, n: nat)
    decreases n
  {
    && t in l.lk && l.lk[t].sleepOn.Some? && l.lk[t].sleepOn.value in l.mx
    && var o := l.mx[l.lk[t].sleepOn.value].owner;
       if n == 0 then o == None else o.Some? && Dangles(l, o.value, n - 1)
  }

  /** The walk from t comes to a mutex that nobody owns. */
  ghost predicate MeetsUnowned(l: Locks, t: Tid) {
    exists n :: Dangles(l, t, n)
  }

  /** A number above all of a finite set. */
  ghost function Bound(s: set<nat>): (b: nat)
    ensures forall x :: x in s ==> x < b
  {
    if s == {} then 0
    else
      var x :| x in s;
      var b := Bound(s - {x});
      assert forall y :: y in s ==> y == x || y in s - {x};
      if x < b then b else x + 1
  }

  /** With ordered acquisition every walk comes to an end: at a thread that waits for nothing, or at a mutex nobody owns. */
  lemma {:induction false} OrderedWalkEnds(l: Locks, t: Tid, bound: nat) returns (n: nat)
    requires Consistent(l) && InOrder(l) && t in l.lk && forall m :: m in l.mx ==> m < bound
    ensures OwnedChain(l, t, n) || Dangles(l, t, n)
    decreases bound - if l.lk[t].sleepOn.Some? then l.lk[t].sleepOn.value else bound
  {
    assert ThreadOk(l, t);
    n := 0;
    if l.lk[t].sleepOn.Some? {
      var m := l.lk[t].sleepOn.value;
      assert MutexOk(l, m);
      if l.mx[m].owner.Some? {
        var u := l.mx[m].owner.value;
        assert ThreadOk(l, u) && OrderedThread(l.lk[u]);
        if l.lk[u].sleepOn.Some? {
          assert m < l.lk[u].sleepOn.value;
        }
        n := OrderedWalkEnds(l, u, bound);
        n := n + 1;
      }
    }
  }

  /** The two ends exclude each other. */
  lemma {:induction false} OneEnd(l: Locks, t: Tid, n: nat, i: nat)
    requires OwnedChain(l, t, n) && Dangles(l, t, i)
    ensures false
    decreases n
  {
    OneEnd(l, l.mx[l.lk[t].sleepOn.value].owner.value, n - 1, i - 1);
  }

  /** An ordered walk ends well exactly when it does not come to a mutex that nobody owns. */
  lemma WalkOrDangle(l: Locks, t: Tid)
    requires Consistent(l) && InOrder(l) && t in l.lk
    ensures WalkEnds(l, t) <==> !MeetsUnowned(l, t)
  {
    hide Consistent, InOrder;
    var n := OrderedWalkEnds(l, t, Bound(l.mx.Keys));
    if WalkEnds(l, t) && MeetsUnowned(l, t) {
      var i :| Dangles(l, t, i);
      OneEnd(l, t, ChainLength(l, t), i);
    }
  }

  /** Every step of the run takes mutexes in ascending order. */
  ghost predicate AscendingRun(k: Kernel, es: seq<Event>)
    requires CanRun(k, es)
    decreases |es|
  {
    es == [] || (Ascending(k, es[0]) && AscendingRun(Step(k, es[0]), es[1..]))
  }

  lemma {:induction false} RunInOrder(k: Kernel, es: seq<Event>)
    requires Inv(k) && InOrder(k.locks) && CanRun(k, es) && AscendingRun(k, es)
    ensures InOrder(After(k, es).locks)
    decreases |es|
  {
    hide Inv, Allowed, Walks, Step, InOrder, Ascending;
    if es != [] {
      StepKeeps(k, es[0]);
      StepInOrder(k, es[0]);
      RunInOrder(Step(k, es[0]), es[1..]);
    }
  }

  /** n waits-for steps lead from t to u. */
  ghost predicate Hops(l: Locks, t: Tid, n: nat, u: Tid)
    decreases n
  {
    if n == 0 then t == u
    else t in l.lk && l.lk[t].sleepOn.Some? && l.lk[t].sleepOn.value in l.mx && l.mx[l.lk[t].sleepOn.value].owner.Some?
         && Hops(l, l.mx[l.lk[t].sleepOn.value].owner.value, n - 1, u)
  }

  lemma {:induction false} HopsAscend(l: Locks, t: Tid, n: nat, u: Tid)
    requires Consistent(l) && InOrder(l) && t in l.lk && n > 0 && Hops(l, t, n, u)
    ensures u in l.lk && (l.lk[u].sleepOn.Some? ==> l.lk[t].sleepOn.value < l.lk[u].sleepOn.value)
    decreases n
  {
    assert ThreadOk(l, t) && MutexOk(l, l.lk[t].sleepOn.value);
    var v := l.mx[l.lk[t].sleepOn.value].owner.value;
    assert ThreadOk(l, v) && OrderedThread(l.lk[v]);
    if n > 1 {
      HopsAscend(l, v, n - 1, u);
    }
  }

  /** In every run that takes mutexes in ascending order, no thread ever waits, directly or not, for itself. */
  lemma OrderedRunHasNoCycle(k: Kernel, es: seq<Event>, t: Tid, n: nat)
    requires Booted(k) && Inv(k) && CanRun(k, es) && AscendingRun(k, es) && t in After(k, es).locks.lk && n > 0
    ensures !Hops(After(k, es).locks, t, n, t)
  {
    hide CanRun, After, AscendingRun, Stable, Consistent;
    assert InOrder(k.locks);
    RunInOrder(k, es);
    var l := After(k, es).locks;
    if Hops(l, t, n, t) {
      HopsAscend(l, t, n, t);
    }
  }

  /** A cycle of waiting threads is a walk without end. */
  lemma {:induction false} CycleNeverEnds(l: Locks, t: Tid, n: nat, i: nat)
    requires OwnedChain(l, t, n) && Hops(l, t, i, t)
    ensures i == 0
  {
    HopsShorten(l, t, n, i, t);
    if i > 0 {
      OneLength(l, t, n, n - i);
    }
  }

  lemma {:induction false} HopsShorten(l: Locks, t: Tid, n: nat, i: nat, u: Tid)
    requires OwnedChain(l, t, n) && Hops(l, t, i, u)
    ensures i <= n && OwnedChain(l, u, n - i)
    decreases i
  {
    if i > 0 {
      HopsShorten(l, l.mx[l.lk[t].sleepOn.value].owner.value, n - 1, i - 1, u);
    }
  }

  /**
   Exactly when a lock call can go wrong after an ordered run: the walk it starts is never
   endless, and it finishes unless it meets a mutex that has been released and not taken again.
   */
  lemma OrderedLockWalks(k: Kernel, es: seq<Event>, m: Mid)
    requires Booted(k) && Inv(k) && CanRun(k, es) && AscendingRun(k, es)
    requires var r := After(k, es);
             Allowed(r, Lock(m)) && Ascending(r, Lock(m)) && MustWait(r, m)
    ensures var r := After(k, es);
            WalkEnds(Join(r.locks, r.sched.cur, m), r.sched.cur) <==> !MeetsUnowned(Join(r.locks, r.sched.cur, m), r.sched.cur)
  {
    hide CanRun, After, AscendingRun, Stable, Consistent, NoLostWakeup, CondOk, Unlocked;
    assert InOrder(k.locks);
    RunInOrder(k, es);
    var r := After(k, es);
    var me := r.sched.cur;
    var l := Join(r.locks, me, m);
    JoinOk(r.locks, me, m);
    forall t | t in l.lk ensures OrderedThread(l.lk[t]) {
      assert OrderedThread(r.locks.lk[t]);
    }
    WalkOrDangle(l, me);
  }
}
