/** pthread_init and the threads created at start-up: the states that runs begin in exist. */
module Boot {
  import opened Bits
  import opened Seqs
  import opened Sched
  import opened Locks
  import opened Inherit
  import opened Kernel
  import opened Preservation
  import opened Runs
  import opened Safety
  import opened Effects
  import opened Philosophers
  import opened ProducerConsumer

  const DEFAULT_PRIORITY: nat := 16

  /** The numbers from 0 to n. */
  function Upto(n: nat): (s: set<nat>)
    ensures forall x: nat :: x in s <==> x <= n
  {
    if n == 0 then {0} else Upto(n - 1) + {n}
  }

  /** Empty run levels, the idle thread and n free slots. */
  function BareSched(n: nat): Sched {
    Sched(seq(PRIORITY_MAX + 1, _ => []), 0,
          map t | t in Upto(n) :: Task(0, 0, TIMESLICE, if t == IDLE then Running else Unused, false), IDLE)
  }

  /** The scheduler after pthread_init. */
  function InitSched(n: nat): Sched {
    Enqueue(BareSched(n), IDLE, false)
  }

  lemma InitStable(n: nat)
    ensures Stable(InitSched(n))
  {
    var s := BareSched(n);
    forall p: nat | p <= PRIORITY_MAX ensures LevelOk(s, p) {
      NoBits(PRIORITY_MAX - p);
    }
    EnqueueValid(s, IDLE, false);
  }

  /** The kernel after pthread_init, with new mutexes and conditions. */
  function InitKernel(n: nat, mx: set<Mid>, recursive: set<Mid>, cv: set<Cid>): Kernel {
    Kernel(InitSched(n),
           Locks(map t | t in Upto(n) :: FRESH, map m | m in mx :: Mutex(1, [], m in recursive, None, 0)),
           map c | c in cv :: [])
  }

  lemma InitBooted(n: nat, mx: set<Mid>, recursive: set<Mid>, cv: set<Cid>)
    ensures Booted(InitKernel(n, mx, recursive, cv)) && Fair(InitKernel(n, mx, recursive, cv))
  {
    InitStable(n);
  }

  /** Threads 1 to i have been created with priority p, the other slots are free, and nobody has more. */
  ghost predicate Spawned(k: Kernel, n: nat, i: nat, p: nat) {
    && Booted(k) && Fair(k) && (forall t: Tid :: t in k.sched.task <==> t <= n) && i <= n
    && k.sched.task[IDLE].priority == 0
    && (forall t :: 1 <= t <= n ==> k.sched.task[t].state == if t <= i then Running else Unused)
    && (forall t :: 1 <= t <= i ==> k.sched.task[t].priority == p)
    && Ceiling(k.sched, p) && AtTop(k.sched)
  }

  lemma CreateSpawns(k: Kernel, n: nat, i: nat, p: nat)
    requires Spawned(k, n, i, p) && i < n && p <= PRIORITY_MAX
    ensures Possible(k, Create(i + 1, p))
    ensures Spawned(Step(k, Create(i + 1, p)), n, i + 1, p)
    ensures Step(k, Create(i + 1, p)).locks == k.locks && Step(k, Create(i + 1, p)).cv == k.cv
  {
    hide WakeUp, Stable, Inv, Fair, Linked, Ceiling, AtTop;
    BootedInv(k);
    LinkedNow(k);
    NewThreadStable(k.sched, i + 1, p);
    var s := NewThread(k.sched, i + 1, p);
    WakeUpStable(s, i + 1);
    WakeUpTop(s, i + 1);
    CreateFair(k, i + 1, p);
    CreateCeiling(k.sched, i + 1, p);
  }

  lemma CreateCeiling(s: Sched, t: Tid, p: nat)
    requires Ceiling(s, p) && t in s.task && Stable(NewThread(s, t, p))
    ensures Ceiling(WakeUp(NewThread(s, t, p), t), p)
  {
    hide WakeUp, Stable;
    WakeUpStable(NewThread(s, t, p), t);
  }

  lemma LinkedNow(k: Kernel)
    requires Inv(k)
    ensures Linked(k.sched, k.locks)
  {}

  lemma CreateFair(k: Kernel, t: Tid, p: nat)
    requires Stable(k.sched) && Fair(k) && t in k.sched.task && t != IDLE && Stable(NewThread(k.sched, t, p))
    ensures Fair(k.(sched := WakeUp(NewThread(k.sched, t, p), t)))
  {
    hide WakeUp, Stable;
    var s := NewThread(k.sched, t, p);
    WakeUpStable(s, t);
    FloorFrame(s, WakeUp(s, t));
    HighestIdle(WakeUp(s, t));
  }

  /** Creating the remaining threads of priority p, one after the other. */
  lemma {:induction false} SpawnAll(k: Kernel, n: nat, i: nat, p: nat) returns (es: seq<Event>)
    requires Spawned(k, n, i, p) && p <= PRIORITY_MAX && Inv(k)
    ensures CanRun(k, es) && Spawned(After(k, es), n, n, p) && After(k, es).locks == k.locks && After(k, es).cv == k.cv
    decreases n - i
  {
    hide Spawned, Possible, Step, Inv;
    es := [];
    SpawnBound(k, n, i, p);
    if i < n {
      CreateSpawns(k, n, i, p);
      var e := Create(i + 1, p);
      StepKeeps(k, e);
      es := SpawnAll(Step(k, e), n, i + 1, p);
      assert ([e] + es)[1..] == es;
      es := [e] + es;
    }
  }

  lemma SpawnBound(k: Kernel, n: nat, i: nat, p: nat)
    requires Spawned(k, n, i, p)
    ensures i <= n
  {}

  /** n threads of the default priority, created after pthread_init. */
  lemma InitSpawned(n: nat, mx: set<Mid>, cv: set<Cid>) returns (es: seq<Event>)
    ensures var k0 := InitKernel(n, mx, {}, cv);
            && Inv(k0) && CanRun(k0, es) && Spawned(After(k0, es), n, n, DEFAULT_PRIORITY)
            && After(k0, es).locks == k0.locks && After(k0, es).cv == k0.cv
  {
    hide InitSched, Fair, Inv, AtTop;
    var k0 := InitKernel(n, mx, {}, cv);
    InitBooted(n, mx, {}, cv);
    BootedInv(k0);
    InitTasks(n);
    InitTop(n);
    es := SpawnAll(k0, n, 0, DEFAULT_PRIORITY);
  }

  lemma InitTop(n: nat)
    ensures AtTop(InitSched(n)) && Ceiling(InitSched(n), DEFAULT_PRIORITY)
  {
    InitStable(n);
    PeekIsHighest(InitSched(n));
  }

  lemma InitTasks(n: nat)
    ensures forall t: Tid :: t in InitSched(n).task <==> t <= n
    ensures InitSched(n).task[IDLE].priority == 0 && InitSched(n).task[IDLE].state == Running
    ensures forall t :: 1 <= t <= n ==> InitSched(n).task[t].state == Unused
  {}

  lemma SpawnedBooted(k: Kernel, n: nat)
    requires Spawned(k, n, n, DEFAULT_PRIORITY)
    ensures Booted(k) && Fair(k) && k.locks.lk.Keys == k.sched.task.Keys && IDLE in k.sched.task
  {}

  lemma InitTable(k: Kernel, n: nat)
    requires n >= 1 && Spawned(k, n, n, DEFAULT_PRIORITY) && k.locks == InitKernel(n, Upto(n - 1), {}, {}).locks
    ensures forall t: Tid :: t in k.sched.task <==> t <= n
    ensures forall t: Tid :: t in k.locks.lk <==> t <= n
    ensures forall m: Mid :: m in k.locks.mx <==> m < n
    ensures forall m :: m in k.locks.mx ==> !k.locks.mx[m].recursive
  {
    hide Booted, Fair;
  }

  /** A dinner of any size can begin, with all philosophers at the default priority: the creation of n threads leads to it. */
  lemma DinnerCanStart(n: nat) returns (d: Dinner, es: seq<Event>)
    requires n >= 2
    ensures Opening(d) && |d.at| == n && Spawned(d.k, n, n, DEFAULT_PRIORITY)
    ensures var k0 := InitKernel(n, Upto(n - 1), {}, {}); Inv(k0) && CanRun(k0, es) && After(k0, es) == d.k
  {
    hide Booted, Fair, Spawned, Opening, InitKernel;
    es := InitSpawned(n, Upto(n - 1), {});
    var k := After(InitKernel(n, Upto(n - 1), {}, {}), es);
    d := Dinner(k, seq(n, _ => 0));
    SpawnedBooted(k, n);
    InitTable(k, n);
    OpeningIs(d);
  }

  lemma OpeningIs(d: Dinner)
    requires Spawned(d.k, |d.at|, |d.at|, DEFAULT_PRIORITY) && Table(d) && forall i: nat :: i < |d.at| ==> d.at[i] == 0
    ensures Opening(d)
  {
    hide Fair;
    forall i: nat | i < |d.at| ensures Arrived(d, i) {
      var t := i + 1;
      assert t in d.k.sched.task && d.k.sched.task[t].state == Running && d.k.sched.task[t].priority == DEFAULT_PRIORITY;
    }
  }

  /** So can the producer and the consumer. */
  lemma HandoffCanStart() returns (h: Handoff, es: seq<Event>)
    ensures Start(h)
    ensures var k0 := InitKernel(2, {MUTEX}, {}, {EMPTY, FULL}); Inv(k0) && CanRun(k0, es) && After(k0, es) == h.k
  {
    hide Spawned, CanRun, After, Start, InitKernel;
    es := InitSpawned(2, {MUTEX}, {EMPTY, FULL});
    var k := After(InitKernel(2, {MUTEX}, {}, {EMPTY, FULL}), es);
    h := Handoff(k, 0, 0, false, 0, 0, []);
    StartIs(k);
  }

  lemma StartIs(k: Kernel)
    requires Spawned(k, 2, 2, DEFAULT_PRIORITY)
    requires var k0 := InitKernel(2, {MUTEX}, {}, {EMPTY, FULL}); k.locks == k0.locks && k.cv == k0.cv
    ensures Start(Handoff(k, 0, 0, false, 0, 0, []))
  {
    hide Booted, Fair, AtTop, Ceiling;
    SpawnedBooted(k, 2);
    assert k.sched.task.Keys == {IDLE, PRODUCER, CONSUMER};
    assert k.locks.lk.Keys == {IDLE, PRODUCER, CONSUMER};
    assert k.locks.mx.Keys == {MUTEX} && k.cv.Keys == {EMPTY, FULL};
  }
}
