/** applications/producer_consumer.c over the kernel: one slot, one mutex, two conditions, every schedule. */
module ProducerConsumer {
  import opened Seqs
  import opened Sched
  import opened Locks
  import opened Inherit
  import opened Kernel
  import opened Preservation
  import opened Runs
  import opened Safety
  import opened Effects

  const PRODUCER: Tid := 1
  const CONSUMER: Tid := 2
  const MUTEX: Mid := 0
  const EMPTY: Cid := 0
  const FULL: Cid := 1
  const WORD: nat := 0x1_0000_0000

  /**
   p and c tell how far the two loops are: 0 before the lock, 1 before the test of the slot, 2 before the
   signal, 3 before the unlock, 4 after it.  full says that pcount points to the producer's counter;
   filled counts how often it was set, taken lists what the consumer read.
   */
  datatype Handoff = Handoff(k: Kernel, p: nat, c: nat, full: bool, filled: nat, count: nat, taken: seq<nat>)

  datatype Action = Call(e: Event) | Fill | Take | Increment | Print

  predicate Works(h: Handoff) {
    (h.k.sched.cur == PRODUCER || h.k.sched.cur == CONSUMER) && h.k.sched.cur in h.k.locks.lk
  }

  predicate InCall(h: Handoff)
    requires Works(h)
  {
    h.k.locks.lk[h.k.sched.cur].sleepOn.Some? || !h.k.locks.lk[h.k.sched.cur].pc.Plain?
  }

  /** What the running thread does next. */
  function NextAction(h: Handoff): Action
    requires Works(h)
  {
    if InCall(h) then Call(Resume)
    else if h.k.sched.cur == PRODUCER then
      match h.p
      case 0 => Call(Lock(MUTEX))
      case 1 => if h.full then Call(CondWait(FULL, MUTEX)) else Fill
      case 2 => Call(Signal(EMPTY))
      case 3 => Call(Unlock(MUTEX))
      case _ => Increment
    else
      match h.c
      case 0 => Call(Lock(MUTEX))
      case 1 => if !h.full then Call(CondWait(EMPTY, MUTEX)) else Take
      case 2 => Call(Signal(FULL))
      case 3 => Call(Unlock(MUTEX))
      case _ => Print
  }

  /** Where the loop of the running thread is after a kernel call. */
  function Moved(h: Handoff, at: nat, e: Event): nat
    requires Works(h)
  {
    var x := h.k.locks.lk[h.k.sched.cur];
    match e
    case Lock(m) => if m in h.k.locks.mx && !MustWait(h.k, m) then 1 else 0
    case Resume => if x.pc.Plain? && x.sleepOn.Some? && x.sleepOn.value in h.k.locks.mx && h.k.locks.mx[x.sleepOn.value].lock == 1 then 1 else at
    case Signal(_) => 3
    case Unlock(_) => 4
    case _ => at
  }

  ghost predicate CanAct(h: Handoff) {
    Works(h) && (NextAction(h).Call? ==> Possible(h.k, NextAction(h).e))
  }

  ghost function Act(h: Handoff): Handoff
    requires CanAct(h)
  {
    match NextAction(h)
    case Fill => h.(full := true, filled := h.filled + 1, p := 2)
    case Take => h.(full := false, taken := h.taken + [h.count], c := 2)
    case Increment => h.(count := (h.count + 1) % WORD, p := 0)
    case Print => h.(c := 0)
    case Call(e) =>
      if h.k.sched.cur == PRODUCER then h.(k := Step(h.k, e), p := Moved(h, h.p, e))
      else h.(k := Step(h.k, e), c := Moved(h, h.c, e))
  }

  // ---- the invariant ----

  /** Nobody and nothing else takes part. */
  ghost predicate Cast(k: Kernel) {
    k.sched.task.Keys == k.locks.lk.Keys == {IDLE, PRODUCER, CONSUMER} && k.locks.mx.Keys == {MUTEX} && k.cv.Keys == {EMPTY, FULL}
  }

  ghost predicate Setting(k: Kernel) {
    && Cast(k)
    && IDLE in k.sched.task && PRODUCER in k.sched.task && CONSUMER in k.sched.task
    && IDLE in k.locks.lk && PRODUCER in k.locks.lk && CONSUMER in k.locks.lk
    && MUTEX in k.locks.mx && EMPTY in k.cv && FULL in k.cv
    && !k.locks.mx[MUTEX].recursive
  }

  lemma SameSetting(k: Kernel, k': Kernel)
    requires Setting(k) && MUTEX in k'.locks.mx && !k'.locks.mx[MUTEX].recursive
    requires k'.sched.task.Keys == k.sched.task.Keys && k'.locks.lk.Keys == k.locks.lk.Keys
    requires k'.locks.mx.Keys == k.locks.mx.Keys && k'.cv.Keys == k.cv.Keys
    ensures Setting(k')
  {}

  /** Thread t, whose condition is q, at place a of its loop. */
  ghost predicate Seat(k: Kernel, t: Tid, a: nat, q: Cid)
    requires t in k.locks.lk && t in k.sched.task && IDLE in k.sched.task
  {
    var x, task := k.locks.lk[t], k.sched.task[t];
    && a <= 4
    && (task.state == Running || task.state == Sleeping)
    && (task.state == Sleeping ==> x.sleepOn.Some? || x.pc.InUnlock?)
    && task.priority > k.sched.task[IDLE].priority
    && if x.pc.Plain? then
         && (a == 0 ==> x.held == [] && (x.sleepOn == None || x.sleepOn == Some(MUTEX)))
         && (1 <= a <= 3 ==> x.held == [MUTEX] && x.sleepOn == None)
         && (a == 4 ==> x.held == [] && x.sleepOn == None)
       else
         && a == 1 && x.held == []
         && (x == Locker(None, [], InUnlock(q, MUTEX)) || x == Locker(None, [], InSchedule(q, MUTEX)) || x == Locker(Some(MUTEX), [], InRelock(q, MUTEX)))
  }

  /** t sleeps inside pthread_cond_wait and has not been signalled. */
  ghost predicate AsleepInWait(k: Kernel, t: Tid) {
    t in k.locks.lk && t in k.sched.task && k.sched.task[t].state == Sleeping && k.locks.lk[t].pc.InUnlock?
  }

  /** The increments done so far: the one for the last fill may still be to come. */
  function Increments(h: Handoff): int {
    h.filled - if 2 <= h.p <= 4 then 1 else 0
  }

  ghost predicate DataOk(h: Handoff) {
    && h.filled == |h.taken| + (if h.full then 1 else 0)
    && Increments(h) >= 0 && h.count == Increments(h) % WORD
    && (forall i :: 0 <= i < |h.taken| ==> h.taken[i] == i % WORD || h.taken[i] == (i + 1) % WORD)
  }

  ghost predicate WaitsOk(h: Handoff) {
    && (AsleepInWait(h.k, PRODUCER) ==> h.full || h.c == 2)
    && (AsleepInWait(h.k, CONSUMER) ==> !h.full || h.p == 2)
  }

  ghost predicate HandoffInv(h: Handoff) {
    && Inv(h.k) && Fair(h.k) && Setting(h.k)
    && Seat(h.k, PRODUCER, h.p, FULL) && Seat(h.k, CONSUMER, h.c, EMPTY)
    && DataOk(h) && WaitsOk(h)
  }

  function Other(t: Tid): Tid { if t == PRODUCER then CONSUMER else PRODUCER }

  /** The thread that does not run stays where it is, or is woken up. */
  ghost predicate OtherStays(k: Kernel, k': Kernel)
    requires Setting(k) && Setting(k')
  {
    var o := Other(k.sched.cur);
    && k'.locks.lk[o] == k.locks.lk[o]
    && k'.sched.task[o].priority == k.sched.task[o].priority && k'.sched.task[IDLE].priority == k.sched.task[IDLE].priority
    && (k'.sched.task[o].state == k.sched.task[o].state || k'.sched.task[o].state == Running)
  }

  lemma OtherSeat(k: Kernel, k': Kernel, t: Tid, a: nat, q: Cid)
    requires Setting(k) && Setting(k') && (t == PRODUCER || t == CONSUMER) && Seat(k, t, a, q)
    requires k'.locks.lk[t] == k.locks.lk[t] && k'.sched.task[t].priority == k.sched.task[t].priority
    requires k'.sched.task[IDLE].priority == k.sched.task[IDLE].priority
    requires k'.sched.task[t].state == k.sched.task[t].state || k'.sched.task[t].state == Running
    ensures Seat(k', t, a, q)
    ensures AsleepInWait(k', t) ==> AsleepInWait(k, t)
  {}

  // ---- the steps ----

  /** Filling and emptying the slot, and the work outside the lock. */
  lemma LocalStep(h: Handoff)
    requires HandoffInv(h) && CanAct(h) && !NextAction(h).Call?
    ensures HandoffInv(Act(h))
  {
    hide Inv, Fair, Possible, Seat, DataOk, WaitsOk;
    NotAsleep(h);
    LocalPlaces(h);
    LocalData(h);
  }

  /** The place in the loop moves on, and the other thread is not forgotten. */
  lemma LocalPlaces(h: Handoff)
    requires Setting(h.k) && CanAct(h) && !NextAction(h).Call? && WaitsOk(h) && h.k.sched.task[h.k.sched.cur].state == Running
    requires Seat(h.k, PRODUCER, h.p, FULL) && Seat(h.k, CONSUMER, h.c, EMPTY)
    ensures Act(h).k == h.k && Seat(h.k, PRODUCER, Act(h).p, FULL) && Seat(h.k, CONSUMER, Act(h).c, EMPTY) && WaitsOk(Act(h))
    ensures h.p <= 4 && (NextAction(h) == Fill ==> h.p == 1)
  {
    hide Possible, Cast;
  }

  lemma LocalData(h: Handoff)
    requires DataOk(h) && CanAct(h) && !NextAction(h).Call? && h.p <= 4
    requires NextAction(h) == Fill ==> h.p == 1
    ensures DataOk(Act(h))
  {
    hide Possible;
    if NextAction(h) == Increment {
      NextCount(Increments(h));
    }
  }

  lemma NextCount(n: nat)
    ensures (n % WORD + 1) % WORD == (n + 1) % WORD
  {}

  /** The running thread is awake. */
  lemma NotAsleep(h: Handoff)
    requires HandoffInv(h) && Works(h)
    ensures h.k.sched.task[h.k.sched.cur].state == Running && Calm(h.k)
  {
    hide NoLostWakeup, CondOk, Unlocked, Linked;
  }

  function At(h: Handoff): nat { if h.k.sched.cur == PRODUCER then h.p else h.c }

  function Own(h: Handoff): Cid { if h.k.sched.cur == PRODUCER then FULL else EMPTY }

  /** The kernel after the call: the caller has lock record x and state st, the other thread is left alone or woken. */
  ghost predicate CallFacts(h: Handoff, x: Locker, st: RunState)
    requires CanAct(h) && Setting(h.k)
  {
    var k', me := Act(h).k, h.k.sched.cur;
    && Inv(k') && Fair(k') && Setting(k') && OtherStays(h.k, k')
    && k'.locks.lk[me] == x && k'.sched.task[me].state == st && k'.sched.task[me].priority == h.k.sched.task[me].priority
    && k'.sched.task[IDLE].priority == h.k.sched.task[IDLE].priority
  }

  /** What is left to show of a call: the caller is where its program says. */
  lemma CallDone(h: Handoff, x: Locker, st: RunState)
    requires HandoffInv(h) && CanAct(h) && NextAction(h).Call? && CallFacts(h, x, st)
    requires Seat(Act(h).k, h.k.sched.cur, At'(h), Own(h))
    requires WaitsOk(Act(h))
    ensures HandoffInv(Act(h))
  {
    hide Inv, Fair, Possible, Step, Seat, WaitsOk, Cast;
    OtherSeat(h.k, Act(h).k, Other(h.k.sched.cur), if h.k.sched.cur == PRODUCER then h.c else h.p, if h.k.sched.cur == PRODUCER then EMPTY else FULL);
    SamePlace(h);
  }

  /** The place of the caller after its call. */
  ghost function At'(h: Handoff): nat
    requires CanAct(h)
  {
    if h.k.sched.cur == PRODUCER then Act(h).p else Act(h).c
  }

  /** A kernel call does not change how many increments are owed. */
  lemma SamePlace(h: Handoff)
    requires HandoffInv(h) && CanAct(h) && NextAction(h).Call?
    ensures 2 <= h.p <= 4 <==> 2 <= Act(h).p <= 4
  {
    hide Inv, Fair, Possible, Step, Cast;
  }

  /** Nobody is forgotten in a call that is no signal and puts nobody to sleep in a condition wait. */
  lemma WaitsKept(h: Handoff, x: Locker, st: RunState)
    requires HandoffInv(h) && CanAct(h) && NextAction(h).Call? && !NextAction(h).e.Signal? && CallFacts(h, x, st)
    requires st == Running || !x.pc.InUnlock?
    ensures WaitsOk(Act(h))
  {
    hide Inv, Fair, Possible, Step, DataOk, Cast;
    OtherSeat(h.k, Act(h).k, Other(h.k.sched.cur), if h.k.sched.cur == PRODUCER then h.c else h.p, if h.k.sched.cur == PRODUCER then EMPTY else FULL);
  }

  lemma LockFacts(h: Handoff)
    requires HandoffInv(h) && CanAct(h) && NextAction(h) == Call(Lock(MUTEX))
    ensures var x := h.k.locks.lk[h.k.sched.cur];
            if h.k.locks.mx[MUTEX].lock == 1 then CallFacts(h, x.(held := x.held + [MUTEX]), Running)
            else CallFacts(h, x.(sleepOn := Some(MUTEX)), Sleeping)
  {
    hide Inv, Fair, Step, DataOk, WaitsOk, Seat, Cast, Possible;
    LockEffect(h.k, MUTEX);
    SameSetting(h.k, Act(h).k);
  }

  lemma LockStep(h: Handoff)
    requires HandoffInv(h) && CanAct(h) && NextAction(h) == Call(Lock(MUTEX))
    ensures HandoffInv(Act(h))
  {
    hide Inv, Fair, Step, DataOk, WaitsOk, Cast, Possible, OtherStays;
    LockFacts(h);
    var x := Act(h).k.locks.lk[h.k.sched.cur];
    var st := Act(h).k.sched.task[h.k.sched.cur].state;
    WaitsKept(h, x, st);
    MutexFree(h.k);
    CallDone(h, x, st);
  }

  lemma MutexFree(k: Kernel)
    requires Inv(k) && MUTEX in k.locks.mx
    ensures k.locks.mx[MUTEX].lock == 1 <==> k.locks.mx[MUTEX].owner == None
  {
    assert MutexOk(k.locks, MUTEX);
  }

  lemma UnlockFacts(h: Handoff)
    requires HandoffInv(h) && CanAct(h) && NextAction(h) == Call(Unlock(MUTEX))
    ensures var x := h.k.locks.lk[h.k.sched.cur]; CallFacts(h, x.(held := Remove(x.held, MUTEX)), Running)
  {
    hide Inv, Fair, Step, Target, DataOk, WaitsOk, Seat, Cast, Possible;
    NotAsleep(h);
    UnlockKernel(h.k);
  }

  lemma UnlockKernel(k: Kernel)
    requires Possible(k, Unlock(MUTEX)) && Fair(k) && Setting(k) && (k.sched.cur == PRODUCER || k.sched.cur == CONSUMER)
    requires k.sched.task[k.sched.cur].state == Running
    ensures var k', me := Step(k, Unlock(MUTEX)), k.sched.cur;
            && Inv(k') && Fair(k') && Setting(k') && OtherStays(k, k')
            && k'.locks.lk[me] == k.locks.lk[me].(held := Remove(k.locks.lk[me].held, MUTEX)) && k'.sched.task[me].state == Running
            && k'.sched.task[me].priority == k.sched.task[me].priority
  {
    hide Inv, Fair, Step, Target, Cast, Walks;
    WaitersQueued(k, MUTEX);
    UnlockStepEffect(k, MUTEX);
    SameSetting(k, Step(k, Unlock(MUTEX)));
  }

  lemma UnlockStep(h: Handoff)
    requires HandoffInv(h) && CanAct(h) && NextAction(h) == Call(Unlock(MUTEX))
    ensures HandoffInv(Act(h))
  {
    hide Inv, Fair, Step, DataOk, WaitsOk, Cast, Possible, OtherStays;
    UnlockFacts(h);
    var x := h.k.locks.lk[h.k.sched.cur];
    assert Remove([MUTEX], MUTEX) == [];
    WaitsKept(h, x.(held := Remove(x.held, MUTEX)), Running);
    CallDone(h, x.(held := Remove(x.held, MUTEX)), Running);
  }

  lemma CondWaitFacts(h: Handoff)
    requires HandoffInv(h) && CanAct(h) && NextAction(h) == Call(CondWait(Own(h), MUTEX))
    ensures var x := h.k.locks.lk[h.k.sched.cur]; CallFacts(h, x.(held := Remove(x.held, MUTEX), pc := InUnlock(Own(h), MUTEX)), Sleeping)
  {
    hide Inv, Fair, Step, Target, DataOk, WaitsOk, Seat, Cast, Possible;
    WaitersQueued(h.k, MUTEX);
    CondWaitEffect(h.k, Own(h), MUTEX);
    SameSetting(h.k, Act(h).k);
  }

  lemma CondWaitStep(h: Handoff)
    requires HandoffInv(h) && CanAct(h) && NextAction(h) == Call(CondWait(Own(h), MUTEX))
    ensures HandoffInv(Act(h))
  {
    hide Inv, Fair, Step, DataOk, Cast, Possible;
    CondWaitFacts(h);
    var x := h.k.locks.lk[h.k.sched.cur];
    assert Remove([MUTEX], MUTEX) == [];
    CallDone(h, x.(held := Remove(x.held, MUTEX), pc := InUnlock(Own(h), MUTEX)), Sleeping);
  }

  /** Both threads stay where they are; one may be woken. */
  ghost predicate BothStay(k: Kernel, k': Kernel)
    requires Setting(k) && Setting(k')
  {
    && k'.locks.lk == k.locks.lk && k'.sched.task[IDLE].priority == k.sched.task[IDLE].priority
    && k'.sched.task[PRODUCER].priority == k.sched.task[PRODUCER].priority && k'.sched.task[CONSUMER].priority == k.sched.task[CONSUMER].priority
    && (k'.sched.task[PRODUCER].state == k.sched.task[PRODUCER].state || k'.sched.task[PRODUCER].state == Running)
    && (k'.sched.task[CONSUMER].state == k.sched.task[CONSUMER].state || k'.sched.task[CONSUMER].state == Running)
  }

  lemma InterruptFacts(k: Kernel, e: Event)
    requires Possible(k, e) && Fair(k) && Setting(k) && (e == TimerTick || e.Wake?)
    ensures var k' := Step(k, e); Inv(k') && Fair(k') && Setting(k') && BothStay(k, k')
  {
    hide Inv, Fair, Step, Cast, Walks;
    CurIn(k);
    InterruptEffect(k, e);
    SameSetting(k, Step(k, e));
  }

  lemma InterruptStep(h: Handoff, e: Event)
    requires HandoffInv(h) && Possible(h.k, e) && (e == TimerTick || e.Wake?)
    ensures HandoffInv(h.(k := Step(h.k, e)))
  {
    hide Inv, Fair, Step, Seat, Cast, Possible;
    InterruptFacts(h.k, e);
    OtherSeat(h.k, Step(h.k, e), PRODUCER, h.p, FULL);
    OtherSeat(h.k, Step(h.k, e), CONSUMER, h.c, EMPTY);
  }

  lemma ResumePlainFacts(h: Handoff)
    requires HandoffInv(h) && CanAct(h) && NextAction(h) == Call(Resume) && h.k.locks.lk[h.k.sched.cur].pc == Plain
    requires h.k.locks.lk[h.k.sched.cur].sleepOn == Some(MUTEX)
    ensures var x := h.k.locks.lk[h.k.sched.cur];
            if h.k.locks.mx[MUTEX].lock == 1 then CallFacts(h, x.(sleepOn := None, held := x.held + [MUTEX]), Running) else CallFacts(h, x, Sleeping)
  {
    hide Inv, Fair, Step, DataOk, WaitsOk, Seat, Cast, Possible;
    ResumeLockEffect(h.k, MUTEX);
    SameSetting(h.k, Act(h).k);
  }

  lemma ResumePlainStep(h: Handoff)
    requires HandoffInv(h) && CanAct(h) && NextAction(h) == Call(Resume) && h.k.locks.lk[h.k.sched.cur].pc == Plain
    ensures HandoffInv(Act(h))
  {
    hide Inv, Fair, Step, DataOk, WaitsOk, Cast, Possible, OtherStays;
    ResumePlainFacts(h);
    var x := Act(h).k.locks.lk[h.k.sched.cur];
    var st := Act(h).k.sched.task[h.k.sched.cur].state;
    WaitsKept(h, x, st);
    CallDone(h, x, st);
  }

  lemma ResumeUnlockedFacts(h: Handoff)
    requires HandoffInv(h) && CanAct(h) && NextAction(h) == Call(Resume) && h.k.locks.lk[h.k.sched.cur].pc.InUnlock?
    requires h.k.locks.lk[h.k.sched.cur].sleepOn == None
    ensures var x := h.k.locks.lk[h.k.sched.cur]; CallFacts(h, x.(pc := InSchedule(x.pc.cond, x.pc.mutex)), Running)
  {
    hide Inv, Fair, Step, DataOk, WaitsOk, Seat, Cast, Possible;
    UnlockedEffect(h.k);
    SameSetting(h.k, Act(h).k);
  }

  lemma ResumeUnlockedStep(h: Handoff)
    requires HandoffInv(h) && CanAct(h) && NextAction(h) == Call(Resume) && h.k.locks.lk[h.k.sched.cur].pc.InUnlock?
    ensures HandoffInv(Act(h))
  {
    hide Inv, Fair, Step, DataOk, WaitsOk, Cast, Possible, OtherStays;
    ResumeUnlockedFacts(h);
    var x := h.k.locks.lk[h.k.sched.cur];
    WaitsKept(h, x.(pc := InSchedule(x.pc.cond, x.pc.mutex)), Running);
    CallDone(h, x.(pc := InSchedule(x.pc.cond, x.pc.mutex)), Running);
  }

  lemma ResumeRelockFacts(h: Handoff)
    requires HandoffInv(h) && CanAct(h) && NextAction(h) == Call(Resume) && h.k.locks.lk[h.k.sched.cur].pc.InSchedule?
    requires h.k.locks.lk[h.k.sched.cur].sleepOn == None && h.k.locks.lk[h.k.sched.cur].pc.mutex == MUTEX
    ensures var x := h.k.locks.lk[h.k.sched.cur];
            if h.k.locks.mx[MUTEX].lock == 1 then CallFacts(h, x.(held := x.held + [MUTEX], pc := Plain), Running)
            else CallFacts(h, x.(sleepOn := Some(MUTEX), pc := InRelock(x.pc.cond, MUTEX)), Sleeping)
  {
    hide Inv, Fair, Step, DataOk, WaitsOk, Seat, Cast, Possible;
    RelockEffect(h.k);
    SameSetting(h.k, Act(h).k);
  }

  lemma ResumeRelockStep(h: Handoff)
    requires HandoffInv(h) && CanAct(h) && NextAction(h) == Call(Resume) && h.k.locks.lk[h.k.sched.cur].pc.InSchedule?
    ensures HandoffInv(Act(h))
  {
    hide Inv, Fair, Step, DataOk, WaitsOk, Cast, Possible, OtherStays;
    ResumeRelockFacts(h);
    var x := Act(h).k.locks.lk[h.k.sched.cur];
    var st := Act(h).k.sched.task[h.k.sched.cur].state;
    WaitsKept(h, x, st);
    CallDone(h, x, st);
  }

  lemma ResumeRetryFacts(h: Handoff)
    requires HandoffInv(h) && CanAct(h) && NextAction(h) == Call(Resume) && h.k.locks.lk[h.k.sched.cur].pc.InRelock?
    requires h.k.locks.lk[h.k.sched.cur].sleepOn == Some(MUTEX)
    ensures var x := h.k.locks.lk[h.k.sched.cur];
            if h.k.locks.mx[MUTEX].lock == 1 then CallFacts(h, x.(sleepOn := None, held := x.held + [MUTEX], pc := Plain), Running)
            else CallFacts(h, x, Sleeping)
  {
    hide Inv, Fair, Step, DataOk, WaitsOk, Seat, Cast, Possible;
    RelockRetryEffect(h.k, MUTEX);
    SameSetting(h.k, Act(h).k);
  }

  lemma ResumeRetryStep(h: Handoff)
    requires HandoffInv(h) && CanAct(h) && NextAction(h) == Call(Resume) && h.k.locks.lk[h.k.sched.cur].pc.InRelock?
    ensures HandoffInv(Act(h))
  {
    hide Inv, Fair, Step, DataOk, WaitsOk, Cast, Possible, OtherStays;
    ResumeRetryFacts(h);
    var x := Act(h).k.locks.lk[h.k.sched.cur];
    var st := Act(h).k.sched.task[h.k.sched.cur].state;
    WaitsKept(h, x, st);
    CallDone(h, x, st);
  }

  /** The only thread in the queue of a condition is the one that waits for it. */
  lemma OnlyWaiter(h: Handoff, t: Tid, q: Cid)
    requires HandoffInv(h) && ((t == PRODUCER && q == FULL) || (t == CONSUMER && q == EMPTY))
    ensures forall w :: w in h.k.cv[q] ==> w == t && w in h.k.sched.task
    ensures AsleepInWait(h.k, t) ==> Best(h.k.sched.task, h.k.cv[q]) == Some(t)
  {
    hide Stable, Linked, NoLostWakeup, Fair;
    assert QueueOk(h.k, q);
    if AsleepInWait(h.k, t) {
      assert WaiterOk(h.k, t);
    }
  }

  /** The condition that the other thread waits for. */
  function Theirs(k: Kernel): Cid { if k.sched.cur == PRODUCER then EMPTY else FULL }

  /** A signal with nobody in the queue changes nothing; otherwise it wakes the other thread. */
  lemma SignalKernel(k: Kernel, q: Cid, t: Tid)
    requires Possible(k, Signal(q)) && Fair(k) && Setting(k) && q in k.cv && (forall w :: w in k.cv[q] ==> w == t && w in k.sched.task)
    requires t == Other(k.sched.cur) && (k.sched.cur == PRODUCER || k.sched.cur == CONSUMER) && k.sched.task[k.sched.cur].state == Running
    requires AsleepInWait(k, t) ==> Best(k.sched.task, k.cv[q]) == Some(t)
    ensures var k', me := Step(k, Signal(q)), k.sched.cur;
            && Inv(k') && Fair(k') && Setting(k') && OtherStays(k, k') && !AsleepInWait(k', t)
            && k'.locks.lk == k.locks.lk && k'.sched.task[me].state == Running && k'.sched.task[me].priority == k.sched.task[me].priority
            && k'.sched.task[IDLE].priority == k.sched.task[IDLE].priority
  {
    hide Inv, Fair, Step, Possible, Best, Setting, OtherStays;
    SignalEffect(k, q);
    var k' := Step(k, Signal(q));
    if Best(k.sched.task, k.cv[q]) == None {
      StaysItself(k);
    } else {
      SignalWakes(k, k', t);
    }
  }

  lemma StaysItself(k: Kernel)
    requires Setting(k) && (k.sched.cur == PRODUCER || k.sched.cur == CONSUMER)
    ensures OtherStays(k, k)
  {}

  lemma SignalWakes(k: Kernel, k': Kernel, t: Tid)
    requires Setting(k) && k'.locks == k.locks && k'.cv.Keys == k.cv.Keys && StateOf(k, k', t, Running)
    requires t == Other(k.sched.cur) && (k.sched.cur == PRODUCER || k.sched.cur == CONSUMER)
    ensures Setting(k') && OtherStays(k, k') && !AsleepInWait(k', t)
  {
    SameSetting(k, k');
  }

  lemma SignalFacts(h: Handoff, q: Cid)
    requires HandoffInv(h) && CanAct(h) && NextAction(h) == Call(Signal(q)) && q == Theirs(h.k)
    ensures CallFacts(h, h.k.locks.lk[h.k.sched.cur], Running) && !AsleepInWait(Act(h).k, Other(h.k.sched.cur))
  {
    hide Inv, Fair, Step, Best, DataOk, WaitsOk, Seat, Cast, Possible, OtherStays, AsleepInWait;
    NotAsleep(h);
    OnlyWaiter(h, Other(h.k.sched.cur), q);
    SignalKernel(h.k, q, Other(h.k.sched.cur));
  }

  /** The signal comes before the place where the other thread would be forgotten. */
  lemma SignalStep(h: Handoff)
    requires HandoffInv(h) && CanAct(h) && NextAction(h).Call? && NextAction(h).e.Signal?
    ensures HandoffInv(Act(h))
  {
    hide Inv, Fair, Step, DataOk, Cast, Possible, OtherStays;
    SignalFacts(h, NextAction(h).e.c);
    CallDone(h, h.k.locks.lk[h.k.sched.cur], Running);
  }

  /** The running thread takes a step of its program, or an interrupt comes in. */
  datatype Move = Turn | Interrupt(e: Event)

  ghost predicate CanMove(h: Handoff, m: Move) {
    match m
    case Turn => CanAct(h)
    case Interrupt(e) => Possible(h.k, e) && (e == TimerTick || e.Wake?)
  }

  ghost function Next(h: Handoff, m: Move): Handoff
    requires CanMove(h, m)
  {
    match m
    case Turn => Act(h)
    case Interrupt(e) => h.(k := Step(h.k, e))
  }

  lemma NextKeeps(h: Handoff, m: Move)
    requires HandoffInv(h) && CanMove(h, m)
    ensures HandoffInv(Next(h, m))
  {
    hide HandoffInv, Possible, Act;
    match m
    case Interrupt(e) => InterruptStep(h, e);
    case Turn =>
      match NextAction(h) {
        case Call(Lock(_)) => LockStep(h);
        case Call(Unlock(_)) => UnlockStep(h);
        case Call(CondWait(_, _)) => CondWaitStep(h);
        case Call(Signal(_)) => SignalStep(h);
        case Call(Resume) =>
          ResumeWhere(h);
          var pc := h.k.locks.lk[h.k.sched.cur].pc;
          if pc.Plain? { ResumePlainStep(h); } else if pc.InUnlock? { ResumeUnlockedStep(h); }
          else if pc.InSchedule? { ResumeRelockStep(h); } else { ResumeRetryStep(h); }
        case _ => LocalStep(h);
      }
  }

  lemma ResumeWhere(h: Handoff)
    requires HandoffInv(h) && Works(h) && InCall(h)
    ensures h.k.sched.cur in h.k.locks.lk
  {}

  // ---- whole runs ----

  ghost predicate CanWork(h: Handoff, ms: seq<Move>)
    decreases |ms|
  {
    ms == [] || (CanMove(h, ms[0]) && CanWork(Next(h, ms[0]), ms[1..]))
  }

  ghost function AfterWork(h: Handoff, ms: seq<Move>): (r: Handoff)
    requires HandoffInv(h) && CanWork(h, ms)
    ensures HandoffInv(r)
    decreases |ms|
  {
    hide HandoffInv, CanMove, Next;
    if ms == [] then h else NextKeeps(h, ms[0]); AfterWork(Next(h, ms[0]), ms[1..])
  }

  ghost predicate Start(h: Handoff) {
    && Booted(h.k) && Setting(h.k) && Fair(h.k)
    && h == Handoff(h.k, 0, 0, false, 0, 0, [])
    && Awake(h.k, PRODUCER) && Awake(h.k, CONSUMER)
    && h.k.sched.task[PRODUCER].priority > h.k.sched.task[IDLE].priority && h.k.sched.task[CONSUMER].priority > h.k.sched.task[IDLE].priority
  }

  lemma StartInv(h: Handoff)
    requires Start(h)
    ensures HandoffInv(h)
  {
    hide Stable;
    BootedInv(h.k);
  }

  /**
   What the consumer gets, in every run: as many values as the slot was filled, or one less, and the
   i-th is i or i + 1 modulo 2^32, because the counter is incremented outside the lock.
   */
  lemma ConsumedInOrder(h: Handoff, ms: seq<Move>)
    requires Start(h) && HandoffInv(h) && CanWork(h, ms)
    ensures var r := AfterWork(h, ms);
            && |r.taken| <= r.filled <= |r.taken| + 1
            && (r.full <==> r.filled == |r.taken| + 1)
            && forall i :: 0 <= i < |r.taken| ==> r.taken[i] == i % WORD || r.taken[i] == (i + 1) % WORD
  {
    hide CanWork, Start, Inv, Fair, Seat, WaitsOk;
    var r := AfterWork(h, ms);
    assert DataOk(r);
  }

  /** If the mutex is contended, its owner is one of the two threads and does not wait for it. */
  lemma OwnerIsOutside(h: Handoff)
    requires HandoffInv(h) && h.k.locks.mx[MUTEX].owner.Some?
    ensures var u := h.k.locks.mx[MUTEX].owner.value;
            (u == PRODUCER || u == CONSUMER) && h.k.locks.lk[u].sleepOn == None && h.k.locks.lk[u].pc == Plain && h.k.locks.lk[u].held == [MUTEX]
  {
    hide NoLostWakeup, CondOk, Fair, Stable;
    assert MutexOk(h.k.locks, MUTEX);
    var u := h.k.locks.mx[MUTEX].owner.value;
    assert ThreadOk(h.k.locks, u);
    assert MUTEX in h.k.locks.lk[u].held;
  }

  /** Somebody who waits for the mutex is awake, or the mutex is held. */
  lemma WaiterAwake(h: Handoff)
    requires HandoffInv(h) && h.k.locks.mx[MUTEX].wq != []
    ensures h.k.locks.mx[MUTEX].owner.Some? || Awake(h.k, PRODUCER) || Awake(h.k, CONSUMER)
  {
    hide CondOk, Fair, Stable;
    WaitersQueued(h.k, MUTEX);
    MutexFree(h.k);
    assert MutexOk(h.k.locks, MUTEX);
    if h.k.locks.mx[MUTEX].owner == None {
      var t :| t in h.k.locks.mx[MUTEX].wq && Awake(h.k, t);
      assert t != IDLE;
    }
  }

  lemma InQueueOf(k: Kernel, t: Tid)
    requires Inv(k) && t in k.locks.lk && k.locks.lk[t].sleepOn == Some(MUTEX) && MUTEX in k.locks.mx
    ensures k.locks.mx[MUTEX].wq != []
  {
    assert MutexOk(k.locks, MUTEX);
  }

  /** In every run, at most one of the two threads is asleep. */
  lemma NeverBothBlocked(h: Handoff)
    requires HandoffInv(h)
    ensures Awake(h.k, PRODUCER) || Awake(h.k, CONSUMER)
  {
    hide Inv, Fair, DataOk, Cast;
    if !Awake(h.k, PRODUCER) && !Awake(h.k, CONSUMER) {
      if h.k.locks.lk[PRODUCER].sleepOn.Some? || h.k.locks.lk[CONSUMER].sleepOn.Some? {
        InQueueOf(h.k, if h.k.locks.lk[PRODUCER].sleepOn.Some? then PRODUCER else CONSUMER);
        WaiterAwake(h);
        OwnerIsOutside(h);
      }
      assert false;
    }
  }

  lemma WhoRuns(h: Handoff)
    requires HandoffInv(h)
    ensures Works(h)
  {
    hide Linked, NoLostWakeup, CondOk, DataOk;
    NeverBothBlocked(h);
  }

  lemma ActionAllowed(h: Handoff)
    requires HandoffInv(h) && Works(h) && NextAction(h).Call?
    ensures Allowed(h.k, NextAction(h).e)
  {
    hide Inv, Fair, DataOk, WaitsOk, Cast;
    OwnsWhatItHolds(h.k, h.k.sched.cur);
  }

  lemma OwnsWhatItHolds(k: Kernel, t: Tid)
    requires Inv(k) && t in k.locks.lk && MUTEX in k.locks.mx
    ensures MUTEX in k.locks.lk[t].held <==> k.locks.mx[MUTEX].owner == Some(t)
  {
    assert ThreadOk(k.locks, t);
  }

  lemma ActionWalks(h: Handoff)
    requires HandoffInv(h) && Works(h) && NextAction(h).Call? && Allowed(h.k, NextAction(h).e)
    ensures Linked(h.k.sched, h.k.locks) && Walks(h.k, NextAction(h).e)
  {
    hide Stable, Valid, Consistent, NoLostWakeup, CondOk, Unlocked, Fair, DataOk, WaitsOk, Cast;
    var me := h.k.sched.cur;
    var l := Join(h.k.locks, me, MUTEX);
    MutexFree(h.k);
    if MustWait(h.k, MUTEX) {
      OwnerIsOutside(h);
      var u := h.k.locks.mx[MUTEX].owner.value;
      if u != me {
        assert OwnedChain(l, u, 0);
        assert OwnedChain(l, me, 1);
      } else {
        assert !InCall(h);
        assert h.k.locks.lk[me].held == [MUTEX];
      }
    }
  }

  /**
   Neither deadlock nor fault: in every run, the running thread is the producer or the consumer,
   and the next action of its program is one the kernel can carry out.
   */
  lemma AlwaysGoesOn(h: Handoff, ms: seq<Move>)
    requires Start(h) && HandoffInv(h) && CanWork(h, ms)
    ensures CanMove(AfterWork(h, ms), Turn)
    ensures Awake(AfterWork(h, ms).k, PRODUCER) || Awake(AfterWork(h, ms).k, CONSUMER)
  {
    hide CanWork, AfterWork, Start, HandoffInv, Inv, Allowed, Walks;
    var r := AfterWork(h, ms);
    NeverBothBlocked(r);
    WhoRuns(r);
    if NextAction(r).Call? {
      ActionAllowed(r);
      ActionWalks(r);
      KernelInv(r);
    }
  }

  lemma KernelInv(h: Handoff)
    requires HandoffInv(h)
    ensures Inv(h.k)
  {}
}
