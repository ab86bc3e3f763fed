/**
 applications/philosophers.c over the kernel, for any number of philosophers: philosopher i is
 thread i + 1, fork m is mutex m, and every schedule the kernel can produce is a run.
 */
module Philosophers {
  import opened Seqs
  import opened Sched
  import opened Locks
  import opened Inherit
  import opened Kernel
  import opened Preservation
  import opened Runs
  import opened Safety
  import opened Effects

  /**
   How far each philosopher is: 0 and 1 before the first and the second lock, 2 before the meal,
   3 in or after it, 4 before the last unlock, 5 before returning, 6 gone.
   */
  datatype Dinner = Dinner(k: Kernel, at: seq<nat>)

  function First(n: nat, i: nat): nat { if i + 1 >= n then 0 else i }

  function Second(n: nat, i: nat): nat { if i + 1 >= n then i else i + 1 }

  function Forks(n: nat, i: nat, at: nat): seq<Mid> {
    if at == 1 || at == 4 then [First(n, i)]
    else if at == 2 || at == 3 then [First(n, i), Second(n, i)]
    else []
  }

  /** The philosopher that runs. */
  predicate AtTable(d: Dinner) {
    1 <= d.k.sched.cur <= |d.at| && d.k.sched.cur in d.k.locks.lk
  }

  function Who(d: Dinner): nat
    requires AtTable(d)
  {
    d.k.sched.cur - 1
  }

  /** What the running philosopher does next. */
  function Program(d: Dinner): Event
    requires AtTable(d)
  {
    var i := Who(d);
    if d.k.locks.lk[i + 1].sleepOn.Some? then Resume
    else match d.at[i]
      case 0 => Lock(First(|d.at|, i))
      case 1 => Lock(Second(|d.at|, i))
      case 2 => Sleep
      case 3 => Unlock(Second(|d.at|, i))
      case 4 => Unlock(First(|d.at|, i))
      case _ => Exit
  }

  /** Whether the call returns in this step: a lock call may have to sleep first. */
  predicate Returns(d: Dinner)
    requires AtTable(d)
  {
    var x := d.k.locks.lk[d.k.sched.cur];
    match Program(d)
    case Resume => x.sleepOn.Some? && x.sleepOn.value in d.k.locks.mx && d.k.locks.mx[x.sleepOn.value].lock == 1
    case Lock(m) => m in d.k.locks.mx && !MustWait(d.k, m)
    case _ => true
  }

  /** The running philosopher takes its next step, or an interrupt comes in. */
  ghost predicate CanHappen(d: Dinner, e: Event) {
    Possible(d.k, e) && (e == TimerTick || e.Wake? || (AtTable(d) && e == Program(d)))
  }

  ghost function Happens(d: Dinner, e: Event): Dinner
    requires CanHappen(d, e)
  {
    Dinner(Step(d.k, e),
           if e == TimerTick || e.Wake? || !Returns(d) then d.at else d.at[Who(d) := d.at[Who(d)] + 1])
  }

  ghost predicate Seated(d: Dinner, i: nat)
    requires i < |d.at| && i + 1 in d.k.locks.lk && i + 1 in d.k.sched.task && IDLE in d.k.sched.task
  {
    var x, a, task := d.k.locks.lk[i + 1], d.at[i], d.k.sched.task[i + 1];
    && a <= 6
    && x.pc == Plain
    && x.held == Forks(|d.at|, i, a)
    && (x.sleepOn.Some? ==> (a == 0 && x.sleepOn.value == First(|d.at|, i)) || (a == 1 && x.sleepOn.value == Second(|d.at|, i)))
    && (a == 6 ==> task.state == Unused) && (a < 6 ==> task.state == Running || task.state == Sleeping)
    && (task.state == Sleeping ==> x.sleepOn.Some? || a == 3)
    && task.priority > d.k.sched.task[IDLE].priority
  }

  ghost predicate Table(d: Dinner) {
    && |d.at| >= 2
    && (forall t: Tid :: t in d.k.sched.task <==> t <= |d.at|)
    && (forall t: Tid :: t in d.k.locks.lk <==> t <= |d.at|)
    && (forall m: Mid :: m in d.k.locks.mx <==> m < |d.at|)
    && (forall m :: m in d.k.locks.mx ==> !d.k.locks.mx[m].recursive)
  }

  ghost predicate DinnerInv(d: Dinner) {
    && Inv(d.k) && Fair(d.k) && Table(d)
    && (forall i :: 0 <= i < |d.at| ==> Seated(d, i))
  }

  /** Another philosopher stays as it was, or is woken up. */
  lemma Bystander(d: Dinner, d': Dinner, j: nat)
    requires Table(d) && Table(d') && j < |d.at| == |d'.at| && Seated(d, j)
    requires d'.at[j] == d.at[j] && d'.k.locks.lk[j + 1] == d.k.locks.lk[j + 1]
    requires var a, b := d.k.sched.task[j + 1], d'.k.sched.task[j + 1];
             b.priority == a.priority && (b.state == a.state || (b.state == Running && a.state == Sleeping))
    requires d'.k.sched.task[IDLE].priority == d.k.sched.task[IDLE].priority
    ensures Seated(d', j)
  {}

  /** The step of philosopher i is one of the dinner if i ends up where its program says and the others are bystanders. */
  ghost predicate Moves(d: Dinner, d': Dinner, i: nat)
    requires i < |d.at|
  {
    && |d'.at| == |d.at| && (forall j :: 0 <= j < |d.at| && j != i ==> d'.at[j] == d.at[j])
    && d'.k.sched.task.Keys == d.k.sched.task.Keys && d'.k.locks.lk.Keys == d.k.locks.lk.Keys && d'.k.locks.mx.Keys == d.k.locks.mx.Keys
    && (forall t :: t in d.k.locks.lk && t != i + 1 ==> d'.k.locks.lk[t] == d.k.locks.lk[t])
    && (forall t :: t in d.k.sched.task ==> d'.k.sched.task[t].priority == d.k.sched.task[t].priority)
    && (forall t :: t in d.k.sched.task && t != i + 1 ==>
          d'.k.sched.task[t].state == d.k.sched.task[t].state || (d'.k.sched.task[t].state == Running && d.k.sched.task[t].state == Sleeping))
    && (forall m :: m in d.k.locks.mx ==> d'.k.locks.mx[m].recursive == d.k.locks.mx[m].recursive)
  }

  lemma MovesKeeps(d: Dinner, d': Dinner, i: nat)
    requires DinnerInv(d) && i < |d.at| && Moves(d, d', i) && Inv(d'.k) && Fair(d'.k)
    requires i + 1 in d'.k.locks.lk && i + 1 in d'.k.sched.task && IDLE in d'.k.sched.task && Seated(d', i)
    ensures DinnerInv(d')
  {
    hide Inv, Fair, Seated;
    assert Table(d');
    forall j | 0 <= j < |d'.at| ensures Seated(d', j) {
      if j != i { Bystander(d, d', j); }
    }
  }

  lemma PhilosopherIn(d: Dinner)
    requires DinnerInv(d) && AtTable(d)
    ensures d.k.locks.lk[d.k.sched.cur].sleepOn == None ==> Me(d.k)
    ensures Seated(d, Who(d)) && d.k.sched.cur in d.k.sched.task && d.k.sched.task[d.k.sched.cur].state == Running && d.at[Who(d)] < 6
  {
    hide Linked, NoLostWakeup, CondOk, Unlocked;
    assert Seated(d, Who(d));
  }

  lemma InterruptStep(d: Dinner, e: Event)
    requires DinnerInv(d) && CanHappen(d, e) && (e == TimerTick || e.Wake?)
    ensures DinnerInv(Happens(d, e))
  {
    hide Inv, Fair, Step, Walks, Seated;
    CurIn(d.k);
    InterruptEffect(d.k, e);
    var d' := Happens(d, e);
    Bystander(d, d', 0);
    MovesKeeps(d, d', 0);
  }

  lemma GiveUpStep(d: Dinner)
    requires DinnerInv(d) && AtTable(d) && CanHappen(d, Program(d)) && (Program(d) == Sleep || Program(d) == Exit)
    ensures DinnerInv(Happens(d, Program(d)))
  {
    hide Inv, Fair, Step, Walks;
    PhilosopherIn(d);
    GiveUpStepEffect(d.k, Program(d));
    MovesKeeps(d, Happens(d, Program(d)), Who(d));
  }

  lemma LockStep(d: Dinner)
    requires DinnerInv(d) && AtTable(d) && CanHappen(d, Program(d)) && Program(d).Lock?
    ensures DinnerInv(Happens(d, Program(d)))
  {
    hide Inv, Fair, Step, Walks;
    PhilosopherIn(d);
    LockEffect(d.k, Program(d).m);
    MovesKeeps(d, Happens(d, Program(d)), Who(d));
  }

  lemma ResumeStep(d: Dinner)
    requires DinnerInv(d) && AtTable(d) && CanHappen(d, Program(d)) && Program(d) == Resume
    ensures DinnerInv(Happens(d, Program(d)))
  {
    hide Inv, Fair, Step, Walks;
    PhilosopherIn(d);
    ResumeLockEffect(d.k, d.k.locks.lk[d.k.sched.cur].sleepOn.value);
    MovesKeeps(d, Happens(d, Program(d)), Who(d));
  }

  lemma UnlockStep(d: Dinner)
    requires DinnerInv(d) && AtTable(d) && CanHappen(d, Program(d)) && Program(d).Unlock?
    ensures DinnerInv(Happens(d, Program(d)))
  {
    hide Inv, Fair, Step, Walks, Best, Target, Seated;
    PhilosopherIn(d);
    var m, i := Program(d).m, Who(d);
    WaitersQueued(d.k, m);
    UnlockStepEffect(d.k, m);
    var d' := Happens(d, Program(d));
    ForksLeft(d, i);
    UnlockSeat(d, d', i);
    TargetQueued(d.k.sched, d.k.locks.mx[m]);
    forall t | Target(d.k.sched, d.k.locks.mx[m]) == Some(t)
      ensures d.k.sched.task[t].state == Running || d.k.sched.task[t].state == Sleeping
    {
      WokenIsSeated(d, t, m);
    }
    MovesKeeps(d, d', i);
  }

  lemma TargetQueued(s: Sched, x: Mutex)
    requires forall w :: w in x.wq ==> w in s.task
    ensures Target(s, x).Some? ==> Target(s, x).value in x.wq
  {}

  /** The forks left after an unlock are those the program says. */
  lemma ForksLeft(d: Dinner, i: nat)
    requires Table(d) && i < |d.at| && Seated(d, i)
    ensures d.at[i] == 3 ==> Remove(d.k.locks.lk[i + 1].held, Second(|d.at|, i)) == Forks(|d.at|, i, 4)
    ensures d.at[i] == 4 ==> Remove(d.k.locks.lk[i + 1].held, First(|d.at|, i)) == Forks(|d.at|, i, 5)
  {
    var f, g := First(|d.at|, i), Second(|d.at|, i);
    assert [f, g][1..] == [g];
  }

  lemma UnlockSeat(d: Dinner, d': Dinner, i: nat)
    requires Table(d) && i < |d.at| == |d'.at| && i + 1 in d'.k.locks.lk && i + 1 in d'.k.sched.task && IDLE in d'.k.sched.task
    requires Seated(d, i) && (d.at[i] == 3 || d.at[i] == 4) && d'.at[i] == d.at[i] + 1
    requires d'.k.locks.lk[i + 1] == d.k.locks.lk[i + 1].(held := Forks(|d.at|, i, d'.at[i]))
    requires d'.k.sched.task[i + 1].state == Running
    requires d'.k.sched.task[i + 1].priority == d.k.sched.task[i + 1].priority && d'.k.sched.task[IDLE].priority == d.k.sched.task[IDLE].priority
    ensures Seated(d', i)
  {}

  lemma WokenIsSeated(d: Dinner, t: Tid, m: Mid)
    requires DinnerInv(d) && t in d.k.locks.lk && d.k.locks.lk[t].sleepOn == Some(m)
    ensures 1 <= t <= |d.at| && t in d.k.sched.task && (d.k.sched.task[t].state == Running || d.k.sched.task[t].state == Sleeping)
  {
    hide Linked, NoLostWakeup, CondOk;
    assert t != IDLE;
    assert Seated(d, t - 1);
  }

  /** Every step of the dinner keeps its invariant. */
  lemma DinnerGoesOn(d: Dinner, e: Event)
    requires DinnerInv(d) && CanHappen(d, e)
    ensures DinnerInv(Happens(d, e))
  {
    hide DinnerInv, Possible, Happens;
    match e {
      case TimerTick => InterruptStep(d, e);
      case Wake(t) => InterruptStep(d, e);
      case Lock(_) => LockStep(d);
      case Unlock(_) => UnlockStep(d);
      case Resume => ResumeStep(d);
      case Sleep => GiveUpStep(d);
      case Exit => GiveUpStep(d);
      case _ =>
    }
  }

  // ---- whole dinners ----

  ghost predicate CanDine(d: Dinner, es: seq<Event>)
    decreases |es|
  {
    es == [] || (CanHappen(d, es[0]) && CanDine(Happens(d, es[0]), es[1..]))
  }

  ghost function AfterDinner(d: Dinner, es: seq<Event>): (r: Dinner)
    requires DinnerInv(d) && CanDine(d, es)
    ensures DinnerInv(r) && |r.at| == |d.at|
    decreases |es|
  {
    hide DinnerInv, Possible, Step;
    if es == [] then d else DinnerGoesOn(d, es[0]); AfterDinner(Happens(d, es[0]), es[1..])
  }

  /** All philosophers are ready and all forks are on the table. */
  ghost predicate Opening(d: Dinner) {
    && Booted(d.k) && Table(d) && Fair(d.k)
    && (forall i: nat :: i < |d.at| ==> Arrived(d, i))
  }

  ghost predicate Arrived(d: Dinner, i: nat)
    requires i < |d.at|
  {
    d.at[i] == 0 && Awake(d.k, i + 1) && IDLE in d.k.sched.task && d.k.sched.task[i + 1].priority > d.k.sched.task[IDLE].priority
  }

  lemma OpeningInv(d: Dinner)
    requires Opening(d)
    ensures DinnerInv(d)
  {
    hide Stable;
    BootedInv(d.k);
    forall i | 0 <= i < |d.at| ensures Seated(d, i) {
      assert Arrived(d, i);
    }
  }

  predicate Eating(d: Dinner, i: nat)
    requires i < |d.at|
  {
    d.at[i] == 2 || d.at[i] == 3
  }

  predicate ShareFork(n: nat, i: nat, j: nat) {
    First(n, i) == First(n, j) || First(n, i) == Second(n, j) || Second(n, i) == First(n, j) || Second(n, i) == Second(n, j)
  }

  /** Philosophers who sit next to each other share a fork. */
  lemma NeighboursShare(n: nat, i: nat)
    requires n >= 2 && i < n
    ensures ShareFork(n, i, (i + 1) % n)
  {
    if i + 1 == n {
      assert (i + 1) % n == 0;
    } else {
      assert (i + 1) % n == i + 1;
    }
  }

  /** The forks of philosopher i are the two beside it, the one with the lower number first. */
  lemma ForksBeside(n: nat, i: nat)
    requires n >= 2 && i < n
    ensures First(n, i) < Second(n, i) < n && {First(n, i), Second(n, i)} == {i, (i + 1) % n}
  {
    if i + 1 == n {
      assert (i + 1) % n == 0;
    } else {
      assert (i + 1) % n == i + 1;
    }
  }

  /** They are put down in the reverse of the order they were picked up in: what is held before a place is held again as far from the end. */
  lemma ForksNest(n: nat, i: nat, a: nat)
    requires a <= 5
    ensures Forks(n, i, a) == Forks(n, i, 5 - a) && |Forks(n, i, a)| == (if a == 0 || a == 5 then 0 else if a == 1 || a == 4 then 1 else 2)
    ensures a > 0 && a < 5 ==> Forks(n, i, a)[0] == First(n, i)
  {}

  lemma HolderIsOwner(d: Dinner, i: nat, m: Mid)
    requires DinnerInv(d) && i < |d.at| && m in Forks(|d.at|, i, d.at[i])
    ensures m in d.k.locks.mx && d.k.locks.mx[m].owner == Some(i + 1)
  {
    hide NoLostWakeup, CondOk, Unlocked, Fair, Stable;
    assert Seated(d, i);
    assert ThreadOk(d.k.locks, i + 1);
  }

  /** A fork is free, or a philosopher holds it. */
  lemma ForkOnTable(d: Dinner, m: Mid)
    requires DinnerInv(d) && m < |d.at|
    ensures m in d.k.locks.mx && (d.k.locks.mx[m].lock == 1 <==> d.k.locks.mx[m].owner == None)
    ensures var o := d.k.locks.mx[m].owner; o.Some? ==> 1 <= o.value <= |d.at| && m in Forks(|d.at|, o.value - 1, d.at[o.value - 1])
  {
    hide Inv, Fair, Seated;
    OwnedIsHeld(d.k, m);
    if d.k.locks.mx[m].owner.Some? {
      SeatedForks(d, d.k.locks.mx[m].owner.value - 1);
    }
  }

  lemma SeatedForks(d: Dinner, i: nat)
    requires DinnerInv(d) && i < |d.at|
    ensures d.k.locks.lk[i + 1].held == Forks(|d.at|, i, d.at[i])
  {
    hide Inv, Fair;
    assert Seated(d, i);
  }

  lemma OwnedIsHeld(k: Kernel, m: Mid)
    requires Inv(k) && m in k.locks.mx
    ensures k.locks.mx[m].lock == 1 <==> k.locks.mx[m].owner == None
    ensures var o := k.locks.mx[m].owner; o.Some? ==> o.value != IDLE && o.value in k.locks.lk && m in k.locks.lk[o.value].held
  {
    hide Stable, NoLostWakeup, CondOk;
    assert MutexOk(k.locks, m);
    if k.locks.mx[m].owner.Some? {
      assert ThreadOk(k.locks, k.locks.mx[m].owner.value);
    }
  }

  /** In every run, two philosophers who share a fork never eat at the same time. */
  lemma NeighboursNeverEatTogether(d: Dinner, es: seq<Event>, i: nat, j: nat)
    requires Opening(d) && DinnerInv(d) && CanDine(d, es) && i < |d.at| && j < |d.at| && i != j && ShareFork(|d.at|, i, j)
    ensures !(Eating(AfterDinner(d, es), i) && Eating(AfterDinner(d, es), j))
  {
    hide CanDine, AfterDinner, DinnerInv, Opening;
    var r := AfterDinner(d, es);
    var n := |d.at|;
    if Eating(r, i) && Eating(r, j) {
      assert Forks(n, i, r.at[i]) == [First(n, i), Second(n, i)];
      assert Forks(n, j, r.at[j]) == [First(n, j), Second(n, j)];
      HolderIsOwner(r, i, First(n, i));
      HolderIsOwner(r, i, Second(n, i));
      HolderIsOwner(r, j, First(n, j));
      HolderIsOwner(r, j, Second(n, j));
    }
  }

  lemma ForksInOrder(d: Dinner)
    requires DinnerInv(d)
    ensures InOrder(d.k.locks) && Consistent(d.k.locks)
  {
    hide NoLostWakeup, CondOk, Fair, Stable;
    forall t | t in d.k.locks.lk ensures OrderedThread(d.k.locks.lk[t]) {
      if t != IDLE {
        assert Seated(d, t - 1);
      }
    }
  }

  /** In every run, no philosopher ever waits, directly or through others, for itself. */
  lemma NoCircularWait(d: Dinner, es: seq<Event>, t: Tid, n: nat)
    requires Opening(d) && DinnerInv(d) && CanDine(d, es) && n > 0 && t in AfterDinner(d, es).k.locks.lk
    ensures !Hops(AfterDinner(d, es).k.locks, t, n, t)
  {
    hide CanDine, AfterDinner, DinnerInv, Opening, Consistent, InOrder;
    var l := AfterDinner(d, es).k.locks;
    ForksInOrder(AfterDinner(d, es));
    if Hops(l, t, n, t) {
      HopsAscend(l, t, n, t);
    }
  }

  /** If no philosopher is awake, a fork that one sleeps on is contended, so it has an owner. */
  lemma AsleepIsContended(d: Dinner, m: Mid)
    requires DinnerInv(d) && m in d.k.locks.mx && d.k.locks.mx[m].wq != []
    requires forall j :: 0 <= j < |d.at| && d.at[j] < 6 ==> !Awake(d.k, j + 1)
    ensures d.k.locks.mx[m].owner.Some? && 1 <= d.k.locks.mx[m].owner.value <= |d.at|
    ensures m in d.k.locks.lk[d.k.locks.mx[m].owner.value].held
  {
    hide CondOk, Fair, Stable;
    WaitersQueued(d.k, m);
    forall t | t in d.k.locks.mx[m].wq ensures !Awake(d.k, t) {
      assert t != IDLE;
      assert Seated(d, t - 1);
    }
    assert MutexOk(d.k.locks, m);
    assert d.k.locks.mx[m].lock == -1;
    var u := d.k.locks.mx[m].owner.value;
    assert ThreadOk(d.k.locks, u);
    assert u != IDLE;
  }

  /** If every philosopher that is not done sleeps on a fork, the forks they sleep on climb without end. */
  lemma {:induction false} Climb(d: Dinner, i: nat)
    requires DinnerInv(d) && i < |d.at| && d.k.locks.lk[i + 1].sleepOn.Some?
    requires forall j :: 0 <= j < |d.at| && d.at[j] < 6 ==> !Awake(d.k, j + 1) && d.k.locks.lk[j + 1].sleepOn.Some?
    ensures false
    decreases |d.at| - d.k.locks.lk[i + 1].sleepOn.value
  {
    hide Inv, Fair;
    var m := d.k.locks.lk[i + 1].sleepOn.value;
    assert Seated(d, i);
    MutexHasWaiter(d.k, i + 1, m);
    AsleepIsContended(d, m);
    var u := d.k.locks.mx[m].owner.value;
    assert Seated(d, u - 1);
    Climb(d, u - 1);
  }

  lemma MutexHasWaiter(k: Kernel, t: Tid, m: Mid)
    requires Inv(k) && t in k.locks.lk && k.locks.lk[t].sleepOn == Some(m) && m in k.locks.mx
    ensures t in k.locks.mx[m].wq
  {
    assert MutexOk(k.locks, m);
  }

  /** The next action of a philosopher that runs is always one it may take. */
  lemma ProgramAllowed(d: Dinner)
    requires DinnerInv(d) && AtTable(d)
    ensures Allowed(d.k, Program(d))
  {
    hide Inv, Fair;
    PhilosopherIn(d);
    var n, i := |d.at|, Who(d);
    assert Seated(d, i);
    ForkOwner(d, i, First(n, i));
    ForkOwner(d, i, Second(n, i));
  }

  /** What a philosopher has taken is what it owns. */
  lemma ForkOwner(d: Dinner, i: nat, m: Mid)
    requires DinnerInv(d) && i < |d.at| && m < |d.at|
    ensures i + 1 in d.k.locks.lk && m in d.k.locks.mx && (m in d.k.locks.lk[i + 1].held <==> d.k.locks.mx[m].owner == Some(i + 1))
  {
    hide Stable, Valid, NoLostWakeup, CondOk, Fair, Unlocked, Seated;
    assert ThreadOk(d.k.locks, i + 1);
  }

  /** The next action is a lock call whose inheritance walk comes to a fork that was put down and has not been picked up again. */
  ghost predicate Faults(d: Dinner)
    requires AtTable(d)
  {
    && Program(d).Lock? && Program(d).m in d.k.locks.mx && MustWait(d.k, Program(d).m)
    && MeetsUnowned(Join(d.k.locks, d.k.sched.cur, Program(d).m), d.k.sched.cur)
  }

  /** The kernel carries out the next action of the philosopher that runs exactly when the walk does not come to such a fork. */
  lemma StepsIff(d: Dinner)
    requires DinnerInv(d) && AtTable(d)
    ensures CanHappen(d, Program(d)) <==> !Faults(d)
  {
    hide DinnerInv, Stable, Consistent, NoLostWakeup, CondOk, Unlocked, Join;
    ProgramAllowed(d);
    ForksInOrder(d);
    DinnerKernel(d);
    if Program(d).Lock? {
      var m, me := Program(d).m, d.k.sched.cur;
      JoinOk(d.k.locks, me, m);
      JoinInOrder(d);
      WalkOrDangle(Join(d.k.locks, me, m), me);
      LockPossibleIff(d.k, m);
    } else {
      assert Wanted(d.k, Program(d)) == None && !Program(d).SetPriority?;
    }
  }

  lemma LockPossibleIff(k: Kernel, m: Mid)
    requires Inv(k) && Allowed(k, Lock(m))
    ensures Possible(k, Lock(m)) <==> (MustWait(k, m) ==> WalkEnds(Join(k.locks, k.sched.cur, m), k.sched.cur))
  {
    hide Stable, NoLostWakeup, CondOk, Unlocked;
  }

  /**
   In every run, while some philosopher is not done: if a philosopher runs, the kernel carries out its
   next action unless the walk of a lock call fails; if none runs, one is asleep over its meal and the timer can wake it.
   */
  lemma SomeoneCanStep(d: Dinner, es: seq<Event>, i: nat)
    requires Opening(d) && DinnerInv(d) && CanDine(d, es) && i < |d.at| && AfterDinner(d, es).at[i] < 6
    ensures var r := AfterDinner(d, es);
            if AtTable(r) then CanHappen(r, Program(r)) <==> !Faults(r)
            else exists j :: 0 <= j < |r.at| && r.at[j] == 3 && CanHappen(r, Wake(j + 1))
  {
    hide CanDine, AfterDinner, Opening, Stable, Linked, NoLostWakeup, CondOk, Faults;
    var r := AfterDinner(d, es);
    CurIn(r.k);
    if r.k.sched.cur != IDLE {
      StepsIff(r);
    } else if j :| 0 <= j < |r.at| && r.at[j] == 3 {
      assert Seated(r, j);
      assert CanHappen(r, Wake(j + 1));
    } else {
      forall j | 0 <= j < |r.at| && r.at[j] < 6 ensures !Awake(r.k, j + 1) && r.k.locks.lk[j + 1].sleepOn.Some? {
        assert Seated(r, j);
      }
      Climb(r, i);
    }
  }

  // ---- two philosophers ----

  /** Of two philosophers, neither ever waits for the second fork: who has the first finds it free. */
  ghost predicate Pair(d: Dinner) {
    |d.at| == 2 && forall t :: t in d.k.locks.lk ==> d.k.locks.lk[t].sleepOn != Some(1)
  }

  lemma SecondIsFree(d: Dinner)
    requires DinnerInv(d) && |d.at| == 2 && AtTable(d) && d.at[Who(d)] == 1
    ensures 1 in d.k.locks.mx && d.k.locks.mx[1].lock == 1
  {
    hide Inv, Fair, Seated;
    var i := Who(d);
    ForkOnTable(d, 1);
    assert Forks(2, i, 1) == [0];
    HolderIsOwner(d, i, 0);
    if d.k.locks.mx[1].owner.Some? {
      var j := d.k.locks.mx[1].owner.value - 1;
      assert Forks(2, j, d.at[j]) == [0, 1];
      HolderIsOwner(d, j, 0);
    }
  }

  lemma PairKeeps(d: Dinner, e: Event)
    requires DinnerInv(d) && Pair(d) && CanHappen(d, e)
    ensures Pair(Happens(d, e))
  {
    hide Inv, Fair, Step, Walks, Seated;
    StepMine(d.k, e);
    if e.Lock? && e.m == 1 {
      AtSecond(d);
      SecondIsFree(d);
    }
    if e == Resume { DinnerKernel(d); }
  }

  lemma AtSecond(d: Dinner)
    requires DinnerInv(d) && |d.at| == 2 && AtTable(d) && Program(d) == Lock(1)
    ensures d.at[Who(d)] == 1
  {
    hide Inv, Fair;
  }

  /** So the walk of a lock call is never longer than one step. */
  lemma PairNeverFaults(d: Dinner)
    requires DinnerInv(d) && Pair(d) && AtTable(d)
    ensures !Faults(d)
  {
    hide Inv, Fair;
    if Program(d).Lock? && MustWait(d.k, Program(d).m) {
      var m, me := Program(d).m, d.k.sched.cur;
      assert Seated(d, Who(d));
      if m == 1 {
        SecondIsFree(d);
      }
      ShortChain(d);
      var l := Join(d.k.locks, me, m);
      if MeetsUnowned(l, me) {
        var n :| Dangles(l, me, n);
        OneEnd(l, me, 1, n);
      }
    }
  }

  lemma ShortChain(d: Dinner)
    requires DinnerInv(d) && Pair(d) && AtTable(d) && Program(d) == Lock(0) && MustWait(d.k, 0)
    ensures OwnedChain(Join(d.k.locks, d.k.sched.cur, 0), d.k.sched.cur, 1)
  {
    hide Inv, Fair;
    ForkOnTable(d, 0);
    var t := d.k.locks.mx[0].owner.value;
    assert Seated(d, t - 1) && Seated(d, Who(d));
    assert OwnedChain(Join(d.k.locks, d.k.sched.cur, 0), t, 0);
  }

  lemma {:induction false} PairStays(d: Dinner, es: seq<Event>)
    requires DinnerInv(d) && Pair(d) && CanDine(d, es)
    ensures Pair(AfterDinner(d, es))
    decreases |es|
  {
    hide DinnerInv, Possible, Happens, Pair;
    if es != [] {
      DinnerGoesOn(d, es[0]);
      PairKeeps(d, es[0]);
      PairStays(Happens(d, es[0]), es[1..]);
    }
  }

  /** With two philosophers the kernel carries out every action, in every run. */
  lemma TwoAlwaysStep(d: Dinner, es: seq<Event>)
    requires Opening(d) && DinnerInv(d) && |d.at| == 2 && CanDine(d, es) && AtTable(AfterDinner(d, es))
    ensures CanHappen(AfterDinner(d, es), Program(AfterDinner(d, es)))
  {
    hide CanDine, AfterDinner, DinnerInv, Stable, Faults, CanHappen;
    PairStays(d, es);
    PairNeverFaults(AfterDinner(d, es));
    StepsIff(AfterDinner(d, es));
  }

  lemma DinnerKernel(d: Dinner)
    requires DinnerInv(d)
    ensures Inv(d.k)
    ensures AtTable(d) && Program(d) == Resume ==> d.k.locks.lk[d.k.sched.cur].pc == Plain
  {
    if AtTable(d) {
      assert Seated(d, Who(d));
    }
  }

  lemma JoinInOrder(d: Dinner)
    requires DinnerInv(d) && AtTable(d) && Program(d).Lock? && Program(d).m in d.k.locks.mx && InOrder(d.k.locks)
    ensures InOrder(Join(d.k.locks, d.k.sched.cur, Program(d).m)) && d.k.sched.cur in Join(d.k.locks, d.k.sched.cur, Program(d).m).lk
  {
    hide Inv, Fair;
    assert Seated(d, Who(d));
    var l := Join(d.k.locks, d.k.sched.cur, Program(d).m);
    forall t | t in l.lk ensures OrderedThread(l.lk[t]) {
      assert OrderedThread(d.k.locks.lk[t]);
    }
  }
}
