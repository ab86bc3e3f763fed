/** First come, first served: the order of wait queues, and whom unlock, signal and broadcast wake. */
module Queues {
  import opened Seqs
  import opened Sched
  import opened Locks
  import opened Inherit
  import opened Kernel
  import opened Preservation
  import opened Runs
  import opened Safety
  import opened Settling

  // ---- trylock ----

  /** A trylock reports success exactly when the caller holds the mutex once more, and otherwise changes nothing. */
  lemma TryLockResult(k: Kernel, m: Mid)
    requires Consistent(k.locks) && k.sched.cur in k.locks.lk && m in k.locks.mx
    ensures var k', ok, me := TryLockCall(k, m).0, TryLockCall(k, m).1, k.sched.cur;
            && (ok <==> Held(k'.locks, me, m) == Held(k.locks, me, m) + 1)
            && (ok <==> k.locks.mx[m].owner == None || (k.locks.mx[m].recursive && k.locks.mx[m].owner == Some(me)))
            && (!ok ==> k' == k)
  {
    assert MutexOk(k.locks, m);
  }

  // ---- the order of a queue ----

  /** a stands before b. */
  ghost predicate Before<T(!new)>(q: seq<T>, a: T, b: T) {
    exists i, j :: 0 <= i < j < |q| && q[i] == a && q[j] == b
  }

  /** A queue changes at its end, by one who leaves, or is emptied. */
  ghost predicate Served(q: seq<Tid>, q': seq<Tid>) {
    q' == q || q' == [] || (exists c :: q' == q + [c]) || (exists c :: q' == Remove(q, c))
  }

  lemma {:induction false} RemoveOrder(q: seq<Tid>, c: Tid, a: Tid, b: Tid)
    requires NoDup(q) && Before(q, a, b) && a != c && b != c
    ensures Before(Remove(q, c), a, b)
  {
    var i, j :| 0 <= i < j < |q| && q[i] == a && q[j] == b;
    if q[0] == c {
      assert q[1..][i - 1] == a && q[1..][j - 1] == b;
    } else if i == 0 {
      RemoveKeeps(q[1..], c, b);
      assert q[1..][j - 1] == b;
      var n :| 0 <= n < |Remove(q[1..], c)| && Remove(q[1..], c)[n] == b;
      assert Remove(q, c)[0] == a && Remove(q, c)[n + 1] == b;
    } else {
      assert q[1..][i - 1] == a && q[1..][j - 1] == b;
      RemoveOrder(q[1..], c, a, b);
      var m, n :| 0 <= m < n < |Remove(q[1..], c)| && Remove(q[1..], c)[m] == a && Remove(q[1..], c)[n] == b;
      assert Remove(q, c)[m + 1] == a && Remove(q, c)[n + 1] == b;
    }
  }

  /** Whoever stays keeps its place relative to the others, and a newcomer stands behind all of them. */
  lemma ServedInOrder(q: seq<Tid>, q': seq<Tid>, a: Tid, b: Tid)
    requires NoDup(q) && Served(q, q') && a in q' && b in q'
    ensures Before(q, a, b) ==> Before(q', a, b)
    ensures a in q && b !in q ==> Before(q', a, b)
  {
    if c :| q' == q + [c] {
      if Before(q, a, b) {
        var i, j :| 0 <= i < j < |q| && q[i] == a && q[j] == b;
        assert q'[i] == a && q'[j] == b;
      }
      if a in q && b !in q {
        var i :| 0 <= i < |q| && q[i] == a;
        assert q'[i] == a && q'[|q|] == b;
      }
    } else if c :| q' == Remove(q, c) {
      RemoveNoDup(q, c);
      RemoveKeeps(q, c, b);
      if Before(q, a, b) {
        RemoveOrder(q, c, a, b);
      }
    }
  }

  // ---- the queues of the kernel ----

  ghost predicate AllServed(l: Locks, l': Locks) {
    l'.mx.Keys == l.mx.Keys && forall m :: m in l.mx ==> Served(l.mx[m].wq, l'.mx[m].wq)
  }

  lemma SameServed(l: Locks, l': Locks)
    requires l'.mx.Keys == l.mx.Keys && forall m :: m in l.mx ==> l'.mx[m].wq == l.mx[m].wq
    ensures AllServed(l, l')
  {}

  lemma JoinServed(l: Locks, l': Locks, t: Tid, m: Mid)
    requires t in l.lk && m in l.mx && l'.mx == Contend(Join(l, t, m), m).mx
    ensures AllServed(l, l')
  {
    assert l'.mx[m].wq == l.mx[m].wq + [t];
  }

  lemma GrabServed(l: Locks, l': Locks, t: Tid, m: Mid)
    requires t in l.lk && m in l.mx && l'.mx == Grab(l, t, m).mx
    ensures AllServed(l, l')
  {
    assert l'.mx[m].wq == Remove(l.mx[m].wq, t);
  }

  lemma LockServed(k: Kernel, m: Mid)
    requires Calm(k) && Me(k) && m in k.locks.mx && (MustWait(k, m) ==> WalkEnds(Join(k.locks, k.sched.cur, m), k.sched.cur))
    ensures AllServed(k.locks, LockCall(k, m).locks)
  {
    hide Stable, Linked, Walked, GiveUp, AllServed;
    if MustWait(k, m) {
      JoinServed(k.locks, LockCall(k, m).locks, k.sched.cur, m);
    } else {
      SameServed(k.locks, LockCall(k, m).locks);
    }
  }

  lemma UnlockServed(k: Kernel, m: Mid)
    requires Calm(k) && Me(k) && m in k.locks.mx && k.locks.mx[m].owner == Some(k.sched.cur)
    ensures AllServed(k.locks, UnlockCall(k, m).locks)
    ensures forall c :: c in k.cv ==> AllServed(k.locks, CondWaitCall(k, c, m).locks)
  {
    hide Stable, Valid, Consistent, HandOver, GiveUp, Reschedule, AllServed;
    SameServed(k.locks, UnlockCall(k, m).locks);
    forall c | c in k.cv ensures AllServed(k.locks, CondWaitCall(k, c, m).locks) {
      SameServed(k.locks, CondWaitCall(k, c, m).locks);
    }
  }

  lemma ResumeServed(k: Kernel)
    requires Possible(k, Resume)
    ensures AllServed(k.locks, Step(k, Resume).locks)
  {
    hide Stable, Linked, NoLostWakeup, CondOk, Unlocked, LockCall, GiveUp, Recompute, Reschedule, AllServed, WalkEnds;
    ResumePoint(k);
    var me, x := k.sched.cur, k.locks.lk[k.sched.cur];
    var l' := Step(k, Resume).locks;
    if x.sleepOn.Some? {
      RetryKeys(k, x.sleepOn.value);
      if k.locks.mx[x.sleepOn.value].lock == 1 {
        GrabServed(k.locks, l', me, x.sleepOn.value);
      } else {
        SameServed(k.locks, l');
      }
    } else if x.pc.InUnlock? {
      SameServed(k.locks, l');
    } else {
      LockServed(k, x.pc.mutex);
      LockKeys(k, x.pc.mutex);
      assert l'.mx == LockCall(k, x.pc.mutex).locks.mx;
      ServedAlike(k.locks, LockCall(k, x.pc.mutex).locks, l');
    }
  }

  lemma ServedAlike(l: Locks, l': Locks, l'': Locks)
    requires AllServed(l, l') && l''.mx == l'.mx
    ensures AllServed(l, l'')
  {}

  lemma StepServed(k: Kernel, e: Event)
    requires Possible(k, e)
    ensures AllServed(k.locks, Step(k, e).locks)
  {
    hide Inv, Calm, AllServed, ResumeCall, WakeUp, Tick, GiveUp, UnlockCall, CondWaitCall, LockCall, Best, WakeAll, Reschedule, Repriority;
    CalmNow(k);
    SameServed(k.locks, k.locks);
    match e
    case Lock(m) => LockServed(k, m);
    case TryLock(m) => SameServed(k.locks, TryLockCall(k, m).0.locks);
    case Unlock(m) => UnlockServed(k, m);
    case CondWait(c, m) => UnlockServed(k, m);
    case Signal(c) => CondTasks(k, c);
    case Broadcast(c) => CondTasks(k, c);
    case Resume => ResumeServed(k);
    case _ =>
  }

  /** Of two threads that wait for a mutex and go on waiting, the one that came first stays ahead. */
  lemma MutexFirstCome(k: Kernel, e: Event, m: Mid, a: Tid, b: Tid)
    requires Possible(k, e) && m in k.locks.mx && m in Step(k, e).locks.mx
    requires a in Step(k, e).locks.mx[m].wq && b in Step(k, e).locks.mx[m].wq
    ensures var q, q' := k.locks.mx[m].wq, Step(k, e).locks.mx[m].wq;
            (Before(q, a, b) || (a in q && b !in q)) ==> Before(q', a, b)
  {
    hide Step, Inv, Allowed, Walks, Served, Before, NoDup;
    StepServed(k, e);
    QueueNoDup(k, m);
    ServedInOrder(k.locks.mx[m].wq, Step(k, e).locks.mx[m].wq, a, b);
  }

  lemma QueueNoDup(k: Kernel, m: Mid)
    requires Inv(k) && m in k.locks.mx
    ensures NoDup(k.locks.mx[m].wq)
  {
    assert MutexOk(k.locks, m);
  }

  lemma ResumeConds(k: Kernel, c: Cid)
    requires Possible(k, Resume) && c in k.cv
    ensures c in Step(k, Resume).cv && Served(k.cv[c], Step(k, Resume).cv[c])
  {
    hide Stable, Linked, NoLostWakeup, CondOk, Unlocked, LockCall, Retry, Reschedule, WalkEnds;
    ResumePoint(k);
    var x := k.locks.lk[k.sched.cur];
    if x.sleepOn.Some? {
      RetryKeys(k, x.sleepOn.value);
    } else if x.pc.InSchedule? {
      LockKeys(k, x.pc.mutex);
    }
  }

  lemma StepConds(k: Kernel, e: Event, c: Cid)
    requires Possible(k, e) && c in k.cv
    ensures c in Step(k, e).cv && Served(k.cv[c], Step(k, e).cv[c])
  {
    hide Inv, Calm, ResumeCall, WakeUp, Tick, GiveUp, UnlockCall, LockCall, WakeAll, Reschedule, Repriority, HandOver, Served;
    CalmNow(k);
    match e
    case Lock(m) => LockCv(k, m);
    case Unlock(m) => UnlockCv(k, c, m);
    case CondWait(d, m) => UnlockCv(k, d, m); Joined(k.cv[c], k.sched.cur);
    case Signal(d) => CondTasks(k, d); Left(k.cv[c], Best(k.sched.task, k.cv[d]));
    case Broadcast(d) => CondTasks(k, d); Left(k.cv[c], None);
    case Resume => ResumeConds(k, c);
    case _ => Left(k.cv[c], None);
  }

  lemma Joined(q: seq<Tid>, t: Tid)
    ensures Served(q, q) && Served(q, q + [t])
  {}

  lemma Left(q: seq<Tid>, t: Option<Tid>)
    ensures Served(q, q) && Served(q, []) && (t.Some? ==> Served(q, Remove(q, t.value)))
  {}

  lemma LockCv(k: Kernel, m: Mid)
    requires Possible(k, Lock(m))
    ensures Step(k, Lock(m)).cv == k.cv && forall q :: Served(q, q)
  {
    hide Stable, Linked, NoLostWakeup, CondOk, Unlocked, Walked, GiveUp;
  }

  lemma UnlockCv(k: Kernel, c: Cid, m: Mid)
    requires Calm(k) && Me(k) && m in k.locks.mx && k.locks.mx[m].owner == Some(k.sched.cur)
    ensures UnlockCall(k, m).cv == k.cv && (forall q :: Served(q, q))
    ensures c in k.cv ==> CondWaitCall(k, c, m).cv == k.cv[c := k.cv[c] + [k.sched.cur]]
  {
    hide Stable, Valid, Consistent, HandOver, GiveUp, Reschedule;
  }

  /** The same for the queue of a condition. */
  lemma CondFirstCome(k: Kernel, e: Event, c: Cid, a: Tid, b: Tid)
    requires Possible(k, e) && c in k.cv && c in Step(k, e).cv && a in Step(k, e).cv[c] && b in Step(k, e).cv[c]
    ensures var q, q' := k.cv[c], Step(k, e).cv[c];
            (Before(q, a, b) || (a in q && b !in q)) ==> Before(q', a, b)
  {
    hide Step, Inv, Allowed, Walks, Served, Before, NoDup;
    StepConds(k, e, c);
    CondNoDup(k, c);
    ServedInOrder(k.cv[c], Step(k, e).cv[c], a, b);
  }

  lemma CondNoDup(k: Kernel, c: Cid)
    requires Inv(k) && c in k.cv
    ensures NoDup(k.cv[c])
  {
    assert QueueOk(k, c);
  }

  // ---- who is woken ----

  /** w is the earliest of those with the highest effective priority. */
  ghost predicate Chosen(task: map<Tid, Task>, q: seq<Tid>, w: Tid) {
    exists i ::
      && 0 <= i < |q| && q[i] == w && w in task
      && (forall j :: 0 <= j < |q| && q[j] in task ==> task[q[j]].eff <= task[w].eff)
      && (forall j :: 0 <= j < i && q[j] in task ==> task[q[j]].eff < task[w].eff)
  }

  lemma BestChosen(task: map<Tid, Task>, q: seq<Tid>)
    requires q != [] && forall w :: w in q ==> w in task
    ensures Best(task, q).Some? && Chosen(task, q, Best(task, q).value)
  {
    hide Best;
    BestIsEarliestHighest(task, q);
  }

  /** Exactly w wakes up. */
  ghost predicate Wakes(k: Kernel, k': Kernel, w: Tid) {
    && k'.sched.task.Keys == k.sched.task.Keys
    && forall t :: t in k.sched.task ==> k'.sched.task[t].state == if t == w then Running else k.sched.task[t].state
  }

  /** The last unlock wakes the chosen waiter of a contended mutex, and nobody otherwise. */
  lemma UnlockWakes(k: Kernel, m: Mid)
    requires Possible(k, Unlock(m)) && k.locks.mx[m].count == 1
    ensures var k', x := Step(k, Unlock(m)), k.locks.mx[m];
            if x.lock == -1 then exists w :: Chosen(k.sched.task, x.wq, w) && Wakes(k, k', w)
            else Wakes(k, k', k.sched.cur)
  {
    hide Stable, Valid, Consistent, NoLostWakeup, CondOk, Unlocked, HandOver, Reschedule, Best, Chosen;
    RunningNow(k);
    WaitersInTask(k.sched, k.locks, m);
    LockValue(k.locks, m);
    UnlockCalm(k, m);
    if k.locks.mx[m].lock == -1 {
      BestChosen(k.sched.task, k.locks.mx[m].wq);
      assert Wakes(k, Step(k, Unlock(m)), Best(k.sched.task, k.locks.mx[m].wq).value);
    }
  }

  /** A signal takes the chosen waiter off the queue and wakes it, and does nothing if nobody waits. */
  lemma SignalWakes(k: Kernel, c: Cid)
    requires Possible(k, Signal(c))
    ensures var k', q := Step(k, Signal(c)), k.cv[c];
            if q == [] then k' == k
            else exists w :: Chosen(k.sched.task, q, w) && Wakes(k, k', w) && k'.cv == k.cv[c := Remove(q, w)] && k'.locks == k.locks
  {
    hide Inv, Stable, Linked, WakeUp, Best, Chosen;
    CalmNow(k);
    CondTasks(k, c);
    if k.cv[c] != [] {
      BestChosen(k.sched.task, k.cv[c]);
      var w := Best(k.sched.task, k.cv[c]).value;
      WakeUpStable(k.sched, w);
      assert Wakes(k, Step(k, Signal(c)), w);
    }
  }

  /** A broadcast empties the queue and wakes exactly those who were in it. */
  lemma BroadcastWakes(k: Kernel, c: Cid)
    requires Possible(k, Broadcast(c))
    ensures var k', q := Step(k, Broadcast(c)), k.cv[c];
            && k'.cv == k.cv[c := []] && k'.locks == k.locks && k'.sched.task.Keys == k.sched.task.Keys
            && forall t :: t in k.sched.task ==> k'.sched.task[t].state == if t in q then Running else k.sched.task[t].state
  {
    hide Inv, Stable, Linked, WakeAll, Reschedule;
    CalmNow(k);
    CondTasks(k, c);
    if k.cv[c] != [] {
      BroadcastCalm(k, c);
    }
  }
}
