/**
 Mutexes, wait queues and ownership: the locking half of struct pthread, struct
 pthread_mutex, and what holds of them whenever no operation is under way.
 */
module Locks {
  import opened Seqs
  import opened Sched

  type Mid = nat
  type Cid = nat

  /** Where a thread will go on when it next runs, if that is inside pthread_cond_wait. */
  datatype Pc =
    | Plain
    | InUnlock(cond: Cid, mutex: Mid)
    | InSchedule(cond: Cid, mutex: Mid)
    | InRelock(cond: Cid, mutex: Mid)

  datatype Locker = Locker(sleepOn: Option<Mid>, held: seq<Mid>, pc: Pc)

  /** lock is 1 when free, 0 when held, -1 when held with waiters that sleep. */
  datatype Mutex = Mutex(lock: int, wq: seq<Tid>, recursive: bool, owner: Option<Tid>, count: int)

  datatype Locks = Locks(lk: map<Tid, Locker>, mx: map<Mid, Mutex>)

  ghost predicate ThreadOk(l: Locks, t: Tid)
    requires t in l.lk
  {
    && NoDup(l.lk[t].held)
    && (forall m :: m in l.lk[t].held <==> m in l.mx && l.mx[m].owner == Some(t))
    && (l.lk[t].sleepOn.Some? ==> l.lk[t].sleepOn.value in l.mx)
  }

  ghost predicate MutexOk(l: Locks, m: Mid)
    requires m in l.mx
  {
    var x := l.mx[m];
    && NoDup(x.wq)
    && (forall t :: t in x.wq <==> t in l.lk && l.lk[t].sleepOn == Some(m))
    && (x.lock == 1 || x.lock == 0 || x.lock == -1)
    && (x.lock == 1 <==> x.owner == None)
    && (x.owner == None <==> x.count == 0) && x.count >= 0
    && (x.owner.Some? ==> x.owner.value in l.lk)
    && (x.lock == -1 ==> x.wq != [])
    && (!x.recursive ==> x.count <= 1)
  }

  ghost predicate Consistent(l: Locks) {
    && (forall t :: t in l.lk ==> ThreadOk(l, t))
    && (forall m :: m in l.mx ==> MutexOk(l, m))
  }

  // ---- the changes an operation makes ----

  function SetLocker(l: Locks, t: Tid, x: Locker): Locks {
    l.(lk := l.lk[t := x])
  }

  function SetMutex(l: Locks, m: Mid, x: Mutex): Locks {
    l.(mx := l.mx[m := x])
  }

  /** Taking a free mutex: the first branch of lock and trylock. */
  function Acquire(l: Locks, t: Tid, m: Mid): Locks
    requires t in l.lk && m in l.mx
  {
    var l1 := SetLocker(l, t, l.lk[t].(held := l.lk[t].held + [m]));
    SetMutex(l1, m, l.mx[m].(lock := 0, owner := Some(t), count := 1))
  }

  function Again(l: Locks, m: Mid): Locks
    requires m in l.mx
  {
    SetMutex(l, m, l.mx[m].(count := l.mx[m].count + 1))
  }

  /** Joining the wait queue. */
  function Join(l: Locks, t: Tid, m: Mid): Locks
    requires t in l.lk && m in l.mx
  {
    var l1 := SetLocker(l, t, l.lk[t].(sleepOn := Some(m)));
    SetMutex(l1, m, l.mx[m].(wq := l.mx[m].wq + [t]))
  }

  function Contend(l: Locks, m: Mid): Locks
    requires m in l.mx
  {
    SetMutex(l, m, l.mx[m].(lock := -1))
  }

  /** Leaving the wait queue as the owner. */
  function Grab(l: Locks, t: Tid, m: Mid): Locks
    requires t in l.lk && m in l.mx
  {
    var l1 := SetLocker(l, t, l.lk[t].(sleepOn := None, held := l.lk[t].held + [m]));
    var wq := Remove(l.mx[m].wq, t);
    SetMutex(l1, m, l.mx[m].(lock := if wq == [] then 0 else -1, wq := wq, owner := Some(t), count := 1))
  }

  function Drop(l: Locks, m: Mid): Locks
    requires m in l.mx
  {
    SetMutex(l, m, l.mx[m].(count := l.mx[m].count - 1))
  }

  /** The last unlock. */
  function Release(l: Locks, t: Tid, m: Mid): Locks
    requires t in l.lk && m in l.mx
  {
    var l1 := SetLocker(l, t, l.lk[t].(held := Remove(l.lk[t].held, m)));
    SetMutex(l1, m, l.mx[m].(lock := 1, owner := None, count := 0))
  }

  lemma AcquireOk(l: Locks, t: Tid, m: Mid)
    requires Consistent(l) && t in l.lk && m in l.mx && l.mx[m].lock == 1
    ensures Consistent(Acquire(l, t, m))
  {
    var r := Acquire(l, t, m);
    assert MutexOk(l, m) && ThreadOk(l, t);
    SnocNoDup(l.lk[t].held, m);
    forall u | u in r.lk ensures ThreadOk(r, u) { assert ThreadOk(l, u); }
    forall n | n in r.mx ensures MutexOk(r, n) { assert MutexOk(l, n); }
  }

  lemma JoinOk(l: Locks, t: Tid, m: Mid)
    requires Consistent(l) && t in l.lk && m in l.mx && l.lk[t].sleepOn == None
    ensures Consistent(Join(l, t, m))
  {
    var r := Join(l, t, m);
    assert MutexOk(l, m) && ThreadOk(l, t);
    SnocNoDup(l.mx[m].wq, t);
    forall u | u in r.lk ensures ThreadOk(r, u) { assert ThreadOk(l, u); }
    forall n | n in r.mx ensures MutexOk(r, n) { assert MutexOk(l, n); }
  }

  lemma GrabOk(l: Locks, t: Tid, m: Mid)
    requires Consistent(l) && t in l.lk && m in l.mx && l.lk[t].sleepOn == Some(m) && l.mx[m].lock == 1
    ensures Consistent(Grab(l, t, m))
  {
    var r := Grab(l, t, m);
    assert MutexOk(l, m) && ThreadOk(l, t);
    RemoveNoDup(l.mx[m].wq, t);
    SnocNoDup(l.lk[t].held, m);
    forall u ensures u in r.mx[m].wq <==> u in l.mx[m].wq && u != t { RemoveKeeps(l.mx[m].wq, t, u); }
    forall u | u in r.lk ensures ThreadOk(r, u) { assert ThreadOk(l, u); }
    forall n | n in r.mx ensures MutexOk(r, n) { assert MutexOk(l, n); }
  }

  lemma ReleaseOk(l: Locks, t: Tid, m: Mid)
    requires Consistent(l) && t in l.lk && m in l.mx && l.mx[m].owner == Some(t)
    ensures Consistent(Release(l, t, m))
  {
    var r := Release(l, t, m);
    assert MutexOk(l, m) && ThreadOk(l, t);
    RemoveNoDup(l.lk[t].held, m);
    forall n ensures n in r.lk[t].held <==> n in l.lk[t].held && n != m { RemoveKeeps(l.lk[t].held, m, n); }
    forall u | u in r.lk ensures ThreadOk(r, u) { assert ThreadOk(l, u); }
    forall n | n in r.mx ensures MutexOk(r, n) { assert MutexOk(l, n); }
  }

  /** A mutex whose queue and owner stay put may change its lock value and its count. */
  lemma RetuneOk(l: Locks, m: Mid, lock: int, count: int)
    requires Consistent(l) && m in l.mx && l.mx[m].owner.Some? && count >= 1
    requires l.mx[m].recursive || count == 1
    requires lock == 0 || (lock == -1 && l.mx[m].wq != [])
    ensures Consistent(SetMutex(l, m, l.mx[m].(lock := lock, count := count)))
  {
    var r := SetMutex(l, m, l.mx[m].(lock := lock, count := count));
    assert MutexOk(l, m);
    forall u | u in r.lk ensures ThreadOk(r, u) { assert ThreadOk(l, u); }
    forall n | n in r.mx ensures MutexOk(r, n) { assert MutexOk(l, n); }
  }

  lemma PcOk(l: Locks, t: Tid, pc: Pc)
    requires Consistent(l) && t in l.lk
    ensures Consistent(SetLocker(l, t, l.lk[t].(pc := pc)))
  {
    var r := SetLocker(l, t, l.lk[t].(pc := pc));
    forall u | u in r.lk ensures ThreadOk(r, u) { assert ThreadOk(l, u); }
    forall n | n in r.mx ensures MutexOk(r, n) { assert MutexOk(l, n); }
  }
}
