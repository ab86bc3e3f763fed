/**
 Three or more philosophers can bring the kernel down: a run of the dinner, all threads at the same
 priority, after which the running philosopher asks for a fork whose owner was woken for a fork
 that nobody owns.
 */
module DinnerFault {
  import opened Seqs
  import opened Sched
  import opened Locks
  import opened Inherit
  import opened Kernel
  import opened Preservation
  import opened Runs
  import opened Safety
  import opened Effects
  import opened Philosophers
  import Boot

  // ---- any awake philosopher can be made to run by ticks alone ----

  /** All philosophers have the same priority, nobody has more, and the head of the highest level runs. */
  ghost predicate Level(d: Dinner, p: nat) {
    && DinnerInv(d) && Ceiling(d.k.sched, p) && AtTop(d.k.sched)
    && forall t :: t in d.k.sched.task && t != IDLE ==> d.k.sched.task[t].priority == p
  }

  lemma {:induction false} TicksSame(s: Sched, n: nat)
    requires Stable(s)
    ensures SameThreads(s, Ticks(s, n))
    decreases n
  {
    hide Stable, Tick;
    TickStable(s);
    if n > 0 {
      TicksSame(Tick(s), n - 1);
    }
  }

  lemma TickHappens(d: Dinner)
    requires DinnerInv(d)
    ensures Stable(d.k.sched) && CanHappen(d, TimerTick) && Happens(d, TimerTick) == d.(k := d.k.(sched := Tick(d.k.sched)))
  {
    hide Fair, Table, Linked, NoLostWakeup, CondOk, Unlocked, Tick;
  }

  lemma {:induction false} TickRun(d: Dinner, n: nat) returns (es: seq<Event>)
    requires DinnerInv(d)
    ensures Stable(d.k.sched) && CanDine(d, es) && AfterDinner(d, es) == d.(k := d.k.(sched := Ticks(d.k.sched, n)))
    decreases n
  {
    hide DinnerInv, Stable, CanHappen, Happens, Tick;
    TickHappens(d);
    es := [];
    if n > 0 {
      DinnerGoesOn(d, TimerTick);
      TickStable(d.k.sched);
      es := TickRun(Happens(d, TimerTick), n - 1);
      assert ([TimerTick] + es)[1..] == es;
      es := [TimerTick] + es;
    }
  }

  /** In a level state every thread that is awake is in the level that takes turns. */
  lemma InTurn(s: Sched, t: Tid, p: nat)
    requires AtTop(s) && Ceiling(s, p) && t in s.task && s.task[t].state == Running && s.task[t].eff >= p
    ensures |s.level| == PRIORITY_MAX + 1 && t in TopLevel(s)
  {
    PeekIsHighest(s);
    TopHead(s);
    assert LevelOk(s, s.task[t].eff);
  }

  /** When the slices of those ahead are used up, it runs. */
  lemma Turn(s: Sched, t: Tid) returns (n: nat)
    requires AtTop(s) && |s.level| == PRIORITY_MAX + 1 && t in TopLevel(s)
    ensures AtTop(Ticks(s, n)) && Ticks(s, n).cur == t
  {
    hide Tick, Valid, Scan;
    TopHead(s);
    var q := TopLevel(s);
    var j: nat :| j < |q| && q[j] == t;
    n := SliceSum(s, q[..j]);
    SliceLeft(s, t);
    RoundRobin(s, j, 0);
    var r := Ticks(s, n);
    Levels(r);
    HeadRuns(r);
  }

  lemma Levels(s: Sched)
    requires Stable(s)
    ensures |s.level| == PRIORITY_MAX + 1
  {}

  lemma SliceLeft(s: Sched, t: Tid)
    requires AtTop(s) && |s.level| == PRIORITY_MAX + 1 && t in TopLevel(s)
    ensures t in s.task && s.task[t].slice > 0
  {
    TopHead(s);
    PeekIsHighest(s);
    assert LevelOk(s, Scan(s.level, PRIORITY_MAX));
  }

  lemma HeadRuns(s: Sched)
    requires Stable(s) && |s.level| == PRIORITY_MAX + 1 && TopLevel(s) != [] && s.cur == TopLevel(s)[0]
    ensures AtTop(s)
  {
    PeekIsHighest(s);
  }

  /** A run of the dinner leads from d to r. */
  ghost predicate Leads(d: Dinner, r: Dinner) {
    DinnerInv(d) && exists es :: CanDine(d, es) && AfterDinner(d, es) == r
  }

  lemma {:induction false} DineOn(d: Dinner, es: seq<Event>, fs: seq<Event>)
    requires DinnerInv(d) && CanDine(d, es) && CanDine(AfterDinner(d, es), fs)
    ensures CanDine(d, es + fs) && AfterDinner(d, es + fs) == AfterDinner(AfterDinner(d, es), fs)
    decreases |es|
  {
    hide DinnerInv, CanHappen, Happens;
    if es == [] {
      assert es + fs == fs;
    } else {
      DinnerGoesOn(d, es[0]);
      assert (es + fs)[1..] == es[1..] + fs;
      DineOn(Happens(d, es[0]), es[1..], fs);
    }
  }

  lemma LeadsOn(d: Dinner, r: Dinner, fs: seq<Event>)
    requires Leads(d, r) && DinnerInv(r) && CanDine(r, fs)
    ensures Leads(d, AfterDinner(r, fs))
  {
    hide DinnerInv, CanHappen, Happens;
    var es :| CanDine(d, es) && AfterDinner(d, es) == r;
    DineOn(d, es, fs);
  }

  lemma LeadsStep(d: Dinner, r: Dinner, e: Event)
    requires Leads(d, r) && DinnerInv(r) && CanHappen(r, e)
    ensures Leads(d, Happens(r, e))
  {
    hide DinnerInv, CanHappen, Happens;
    DinnerGoesOn(r, e);
    assert [e][1..] == [];
    assert CanDine(Happens(r, e), []);
    LeadsOn(d, r, [e]);
  }

  /** Nothing has changed but whose turn it is. */
  ghost predicate OnlyTurns(d: Dinner, d': Dinner) {
    d'.at == d.at && d'.k.locks == d.k.locks && SameThreads(d.k.sched, d'.k.sched)
  }

  /** Ticks bring any philosopher that is awake to run. */
  lemma Bring(d0: Dinner, d: Dinner, p: nat, t: Tid) returns (d': Dinner)
    requires Leads(d0, d) && Level(d, p) && 1 <= t <= |d.at| && Awake(d.k, t)
    ensures Leads(d0, d') && Level(d', p) && OnlyTurns(d, d') && d'.k.sched.cur == t
  {
    hide Leads, DinnerInv, AtTop, Stable, Ceiling;
    Facts(d, p, t);
    InTurn(d.k.sched, t, p);
    var n := Turn(d.k.sched, t);
    var es := TickRun(d, n);
    LeadsOn(d0, d, es);
    TicksSame(d.k.sched, n);
    d' := AfterDinner(d, es);
    CeilingFrame(d.k.sched, d'.k.sched, p);
  }

  lemma Facts(d: Dinner, p: nat, t: Tid)
    requires Level(d, p) && 1 <= t <= |d.at|
    ensures Stable(d.k.sched) && t in d.k.sched.task && d.k.sched.task[t].eff >= p && DinnerInv(d)
  {
    hide Linked, NoLostWakeup, CondOk, Unlocked, Seated;
  }

  // ---- the steps of the run ----

  /** Philosopher i has gone on to the place a, in the given state and waiting for w; the others stay or are woken. */
  ghost predicate Goes(d: Dinner, d': Dinner, i: nat, a: nat, state: RunState, w: Option<Mid>) {
    && i < |d.at| && Moves(d, d', i) && i < |d'.at| && d'.at[i] == a && i + 1 in d'.k.locks.lk && i + 1 in d'.k.sched.task
    && d'.k.locks.lk[i + 1].sleepOn == w && d'.k.sched.task[i + 1].state == state
  }

  lemma StaysLevel(d: Dinner, d': Dinner, p: nat, i: nat)
    requires Level(d, p) && i < |d.at| && Moves(d, d', i) && DinnerInv(d') && Ceiling(d'.k.sched, p) && AtTop(d'.k.sched)
    ensures Level(d', p)
  {
    hide DinnerInv, Ceiling, AtTop;
  }

  /** A free fork is picked up. */
  lemma Takes(d0: Dinner, d: Dinner, p: nat) returns (d': Dinner)
    requires Leads(d0, d) && Level(d, p) && AtTable(d) && Program(d).Lock? && Program(d).m in d.k.locks.mx && d.k.locks.mx[Program(d).m].lock == 1
    ensures Leads(d0, d') && Level(d', p) && Goes(d, d', Who(d), d.at[Who(d)] + 1, Running, None)
  {
    hide Leads, Inv, Fair, Step, Walks, Seated, Ceiling, AtTop;
    PhilosopherIn(d);
    ProgramAllowed(d);
    LockPossibleIff(d.k, Program(d).m);
    LeadsStep(d0, d, Program(d));
    DinnerGoesOn(d, Program(d));
    d' := Happens(d, Program(d));
    LockEffect(d.k, Program(d).m);
    StaysLevel(d, d', p, Who(d));
  }

  /** A fork in the hands of a philosopher who waits for nothing is waited for. */
  lemma WaitsOn(d0: Dinner, d: Dinner, p: nat, o: Tid) returns (d': Dinner)
    requires Leads(d0, d) && Level(d, p) && AtTable(d) && Program(d).Lock? && Program(d).m in d.k.locks.mx && d.k.locks.mx[Program(d).m].owner == Some(o)
    requires o != d.k.sched.cur && o in d.k.locks.lk && d.k.locks.lk[o].sleepOn == None
    ensures Leads(d0, d') && Level(d', p) && Goes(d, d', Who(d), d.at[Who(d)], Sleeping, Some(Program(d).m))
  {
    hide Leads, Inv, Fair, Step, Walks, Seated, Ceiling, AtTop;
    var m := Program(d).m;
    PhilosopherIn(d);
    ProgramAllowed(d);
    OwnedIsHeld(d.k, m);
    assert OwnedChain(Join(d.k.locks, d.k.sched.cur, m), o, 0);
    assert OwnedChain(Join(d.k.locks, d.k.sched.cur, m), d.k.sched.cur, 1);
    LockPossibleIff(d.k, m);
    LeadsStep(d0, d, Program(d));
    DinnerGoesOn(d, Program(d));
    d' := Happens(d, Program(d));
    LockEffect(d.k, m);
    QueueTop(d.k, m, p);
    StaysLevel(d, d', p, Who(d));
  }

  lemma QueueTop(k: Kernel, m: Mid, p: nat)
    requires Possible(k, Lock(m)) && MustWait(k, m) && Ceiling(k.sched, p)
    ensures Ceiling(Step(k, Lock(m)).sched, p) && AtTop(Step(k, Lock(m)).sched)
  {
    hide Stable, Linked, NoLostWakeup, CondOk, Unlocked, Walked, GiveUp, Ceiling, AtTop;
    CalmNow(k);
    QueueCeiling(k, m, p);
    WalkedStable(k.sched, k.locks, m);
    GiveUpTop(Walked(k.sched, k.locks, m), Sleeping);
  }

  /** The meal begins, or the philosopher goes. */
  lemma Retires(d0: Dinner, d: Dinner, p: nat) returns (d': Dinner)
    requires Leads(d0, d) && Level(d, p) && AtTable(d) && (Program(d) == Sleep || Program(d) == Exit)
    ensures Leads(d0, d') && Level(d', p)
    ensures Goes(d, d', Who(d), d.at[Who(d)] + 1, if Program(d) == Sleep then Sleeping else Unused, None)
  {
    hide Leads, Inv, Fair, Step, Walks, Seated, Ceiling, AtTop;
    PhilosopherIn(d);
    ProgramAllowed(d);
    NoWalk(d.k, Program(d));
    LeadsStep(d0, d, Program(d));
    DinnerGoesOn(d, Program(d));
    d' := Happens(d, Program(d));
    GiveUpStepEffect(d.k, Program(d));
    RetiresTop(d.k, Program(d), p);
    StaysLevel(d, d', p, Who(d));
  }

  lemma NoWalk(k: Kernel, e: Event)
    requires Inv(k) && Allowed(k, e) && Wanted(k, e) == None && !e.SetPriority?
    ensures Possible(k, e)
  {
    hide Stable, NoLostWakeup, CondOk, Unlocked;
  }

  lemma RetiresTop(k: Kernel, e: Event, p: nat)
    requires Possible(k, e) && (e == Sleep || e == Exit || e.Wake?) && Ceiling(k.sched, p)
    ensures Ceiling(Step(k, e).sched, p) && AtTop(Step(k, e).sched)
  {
    hide Stable, Linked, NoLostWakeup, CondOk, Unlocked, GiveUp, WakeUp, Ceiling, AtTop;
    CalmNow(k);
    match e {
      case Wake(t) => WakeUpTop(k.sched, t); WakeUpStable(k.sched, t);
      case Sleep => GiveUpTop(k.sched, Sleeping); GiveUpStable(k.sched, Sleeping);
      case Exit => GiveUpTop(k.sched, Unused); GiveUpStable(k.sched, Unused);
    }
    CeilingFrame(k.sched, Step(k, e).sched, p);
  }

  /** The timer ends a meal. */
  lemma Rises(d0: Dinner, d: Dinner, p: nat, i: nat) returns (d': Dinner)
    requires Leads(d0, d) && Level(d, p) && i < |d.at| && i + 1 in d.k.sched.task && i + 1 in d.k.locks.lk && d.k.sched.task[i + 1].state == Sleeping
    ensures Leads(d0, d') && Level(d', p) && Goes(d, d', i, d.at[i], Running, d.k.locks.lk[i + 1].sleepOn)
  {
    hide Leads, Inv, Fair, Step, Walks, Seated, Ceiling, AtTop;
    var e := Wake(i + 1);
    NoWalk(d.k, e);
    LeadsStep(d0, d, e);
    DinnerGoesOn(d, e);
    d' := Happens(d, e);
    CurIn(d.k);
    RunningNow(d.k);
    InterruptEffect(d.k, e);
    RetiresTop(d.k, e, p);
    StaysLevel(d, d', p, i);
  }

  /** A fork is put down. */
  lemma PutsDown(d0: Dinner, d: Dinner, p: nat) returns (d': Dinner)
    requires Leads(d0, d) && Level(d, p) && AtTable(d) && Program(d).Unlock?
    ensures Leads(d0, d') && Level(d', p) && Goes(d, d', Who(d), d.at[Who(d)] + 1, Running, None)
  {
    hide Leads, Inv, Fair, Step, Walks, Seated, Ceiling, AtTop, Goes;
    PhilosopherIn(d);
    ProgramAllowed(d);
    NoWalk(d.k, Program(d));
    LeadsStep(d0, d, Program(d));
    DinnerGoesOn(d, Program(d));
    d' := Happens(d, Program(d));
    UnlockTop(d.k, Program(d).m, p);
    UnlockGoes(d);
    GoesMoves(d, d', Who(d), d.at[Who(d)] + 1, Running, None);
    StaysLevel(d, d', p, Who(d));
  }

  lemma GoesMoves(d: Dinner, d': Dinner, i: nat, a: nat, state: RunState, w: Option<Mid>)
    requires Goes(d, d', i, a, state, w)
    ensures i < |d.at| && Moves(d, d', i)
  {}

  lemma UnlockGoes(d: Dinner)
    requires DinnerInv(d) && AtTable(d) && CanHappen(d, Program(d)) && Program(d).Unlock?
    ensures Goes(d, Happens(d, Program(d)), Who(d), d.at[Who(d)] + 1, Running, None)
  {
    hide Inv, Fair, Step, Walks, Seated, Target, Best;
    var m := Program(d).m;
    PhilosopherIn(d);
    WaitersQueued(d.k, m);
    UnlockStepEffect(d.k, m);
    TargetQueued(d.k.sched, d.k.locks.mx[m]);
    forall t | Target(d.k.sched, d.k.locks.mx[m]) == Some(t) ensures d.k.sched.task[t].state == Running || d.k.sched.task[t].state == Sleeping {
      WokenIsSeated(d, t, m);
    }
  }

  lemma UnlockTop(k: Kernel, m: Mid, p: nat)
    requires Possible(k, Unlock(m)) && !k.locks.mx[m].recursive && Ceiling(k.sched, p)
    ensures Ceiling(Step(k, Unlock(m)).sched, p) && AtTop(Step(k, Unlock(m)).sched)
  {
    hide Stable, Linked, NoLostWakeup, CondOk, Unlocked, HandOver, Reschedule, Ceiling, AtTop;
    CalmNow(k);
    CountOne(k, m);
    WaitersInTask(k.sched, k.locks, m);
    UnlockCeiling(k, m, p);
    RunningNow(k);
    HandOverStable(k.sched, k.locks, m);
    StableBeforeSwitch(HandOver(k.sched, k.locks, m));
    RescheduleTop(HandOver(k.sched, k.locks, m));
  }

  // ---- the run ----

  /**
   The first three philosophers are at the places a, awake where aw says so, and wait for w; the
   others have not begun.
   */
  ghost predicate Scene(d: Dinner, p: nat, a: seq<nat>, aw: seq<bool>, w: seq<Option<Mid>>) {
    && Level(d, p) && |d.at| >= 3 && |a| == |aw| == |w| == 3
    && (forall j: nat :: 3 <= j < |d.at| ==> d.at[j] == 0)
    && (forall j: nat :: j < 3 ==> d.at[j] == a[j] && (aw[j] ==> Awake(d.k, j + 1)) && j + 1 in d.k.locks.lk && d.k.locks.lk[j + 1].sleepOn == w[j])
  }

  lemma SceneGoes(d: Dinner, d': Dinner, p: nat, a: seq<nat>, aw: seq<bool>, w: seq<Option<Mid>>, i: nat, a': nat, state: RunState, w': Option<Mid>)
    requires Scene(d, p, a, aw, w) && i < 3 && Goes(d, d', i, a', state, w') && Level(d', p)
    ensures Scene(d', p, a[i := a'], aw[i := state == Running], w[i := w']) && |d'.at| == |d.at|
  {
    hide Level;
    SceneTable(d, p, a, aw, w);
  }

  lemma SceneTable(d: Dinner, p: nat, a: seq<nat>, aw: seq<bool>, w: seq<Option<Mid>>)
    requires Scene(d, p, a, aw, w)
    ensures Table(d) && DinnerInv(d)
  {}

  /** Bringing philosopher i to run does not change the scene. */
  lemma SceneTurn(d0: Dinner, d: Dinner, p: nat, a: seq<nat>, aw: seq<bool>, w: seq<Option<Mid>>, i: nat) returns (d': Dinner)
    requires Leads(d0, d) && Scene(d, p, a, aw, w) && i < 3 && aw[i]
    ensures Leads(d0, d') && Scene(d', p, a, aw, w) && AtTable(d') && Who(d') == i && |d'.at| == |d.at|
  {
    hide Leads, Level;
    SceneTable(d, p, a, aw, w);
    d' := Bring(d0, d, p, i + 1);
  }

  /** A fork that none of the three holds is free. */
  lemma SceneFree(d: Dinner, p: nat, a: seq<nat>, aw: seq<bool>, w: seq<Option<Mid>>, m: Mid)
    requires Scene(d, p, a, aw, w) && m < |d.at| && forall j: nat :: j < 3 ==> m !in Forks(|d.at|, j, a[j])
    ensures m in d.k.locks.mx && d.k.locks.mx[m].lock == 1 && d.k.locks.mx[m].owner == None
  {
    hide Level;
    SceneTable(d, p, a, aw, w);
    ForkOnTable(d, m);
  }

  /** Philosopher i picks up its next fork. */
  lemma SceneTakes(d0: Dinner, d: Dinner, p: nat, a: seq<nat>, aw: seq<bool>, w: seq<Option<Mid>>, i: nat) returns (d': Dinner)
    requires Leads(d0, d) && Scene(d, p, a, aw, w) && i < 3 && aw[i] && w[i] == None && a[i] < 2
    requires var m := if a[i] == 0 then First(|d.at|, i) else Second(|d.at|, i);
             m < |d.at| && forall j: nat :: j < 3 ==> m !in Forks(|d.at|, j, a[j])
    ensures Leads(d0, d') && Scene(d', p, a[i := a[i] + 1], aw, w) && |d'.at| == |d.at|
  {
    hide Leads, Level, Goes, Forks, First, Second;
    d' := SceneTurn(d0, d, p, a, aw, w, i);
    var m := if a[i] == 0 then First(|d.at|, i) else Second(|d.at|, i);
    SceneFree(d', p, a, aw, w, m);
    assert Program(d') == Lock(m);
    var d1 := d';
    d' := Takes(d0, d1, p);
    SceneGoes(d1, d', p, a, aw, w, i, a[i] + 1, Running, None);
    assert aw[i := true] == aw && w[i := None] == w;
  }

  /** Philosopher 2 begins its meal, puts down a fork, or goes. */
  lemma SceneOn(d0: Dinner, d: Dinner, p: nat, a: seq<nat>, aw: seq<bool>, w: seq<Option<Mid>>) returns (d': Dinner)
    requires Leads(d0, d) && Scene(d, p, a, aw, w) && aw[2] && w[2] == None && 2 <= a[2] < 6
    ensures Leads(d0, d') && Scene(d', p, a[2 := a[2] + 1], aw[2 := a[2] == 3 || a[2] == 4], w) && |d'.at| == |d.at|
  {
    hide Leads, Level, Goes, Forks, First, Second;
    var d1 := SceneTurn(d0, d, p, a, aw, w, 2);
    assert w[2 := None] == w;
    if a[2] == 3 || a[2] == 4 {
      d' := PutsDown(d0, d1, p);
      SceneGoes(d1, d', p, a, aw, w, 2, a[2] + 1, Running, None);
    } else {
      d' := Retires(d0, d1, p);
      SceneGoes(d1, d', p, a, aw, w, 2, a[2] + 1, if a[2] == 2 then Sleeping else Unused, None);
    }
  }

  /** Philosopher 2 is awake, or the timer wakes it. */
  lemma SceneRises(d0: Dinner, d: Dinner, p: nat, a: seq<nat>, aw: seq<bool>, w: seq<Option<Mid>>) returns (d': Dinner)
    requires Leads(d0, d) && Scene(d, p, a, aw, w) && a[2] == 3
    ensures Leads(d0, d') && Scene(d', p, a, aw[2 := true], w) && |d'.at| == |d.at|
  {
    hide Leads, Level, Goes, Forks;
    SceneTable(d, p, a, aw, w);
    SeatState(d, 2);
    d' := d;
    if d.k.sched.task[3].state == Sleeping {
      d' := Rises(d0, d, p, 2);
      SceneGoes(d, d', p, a, aw, w, 2, 3, Running, w[2]);
      assert a[2 := 3] == a && w[2 := w[2]] == w;
    }
  }

  lemma SeatState(d: Dinner, i: nat)
    requires DinnerInv(d) && i < |d.at|
    ensures i + 1 in d.k.sched.task && i + 1 in d.k.locks.lk
    ensures d.at[i] < 6 ==> d.k.sched.task[i + 1].state == Running || d.k.sched.task[i + 1].state == Sleeping
  {
    hide Inv, Fair;
    assert Seated(d, i);
  }

  /** Philosopher 1 holds fork 1, and philosopher 2 eats. */
  lemma OneEats(d: Dinner, p: nat) returns (r: Dinner)
    requires Leads(d, d) && Scene(d, p, [0, 0, 0], [true, true, true], [None, None, None])
    ensures Leads(d, r) && Scene(r, p, [0, 1, 3], [true, true, false], [None, None, None]) && |r.at| == |d.at|
  {
    hide Leads, Scene;
    var n := |d.at|;
    SceneSize(d, p, [0, 0, 0], [true, true, true], [None, None, None]);
    var aw, w := [true, true, true], [None, None, None];
    r := SceneTakes(d, d, p, [0, 0, 0], aw, w, 1);
    assert [0, 0, 0][1 := 1] == [0, 1, 0];
    r := SceneTakes(d, r, p, [0, 1, 0], aw, w, 2);
    assert [0, 1, 0][2 := 1] == [0, 1, 1];
    r := SceneTakes(d, r, p, [0, 1, 1], aw, w, 2);
    assert [0, 1, 1][2 := 2] == [0, 1, 2];
    r := SceneOn(d, r, p, [0, 1, 2], aw, w);
    assert [0, 1, 2][2 := 3] == [0, 1, 3] && aw[2 := false] == [true, true, false];
  }

  lemma SceneAt(d: Dinner, p: nat, a: seq<nat>, aw: seq<bool>, w: seq<Option<Mid>>, j: nat)
    requires Scene(d, p, a, aw, w) && j < 3
    ensures |d.at| >= 3 && |a| == |aw| == |w| == 3 && d.at[j] == a[j] && j + 1 in d.k.locks.lk && d.k.locks.lk[j + 1].sleepOn == w[j]
    ensures DinnerInv(d) && Level(d, p) && forall m: Mid :: m in d.k.locks.mx ==> !d.k.locks.mx[m].recursive
  {
    SceneTable(d, p, a, aw, w);
  }

  lemma SceneSize(d: Dinner, p: nat, a: seq<nat>, aw: seq<bool>, w: seq<Option<Mid>>)
    requires Scene(d, p, a, aw, w)
    ensures |d.at| >= 3 && |a| == |aw| == |w| == 3
  {}

  /** Philosopher 1 waits for fork 2, which is in the hands of philosopher 2. */
  lemma OneWaits(d: Dinner, p: nat) returns (r: Dinner)
    requires Leads(d, d) && Scene(d, p, [0, 0, 0], [true, true, true], [None, None, None])
    ensures Leads(d, r) && Scene(r, p, [0, 1, 3], [true, false, false], [None, Some(2), None]) && |r.at| == |d.at|
  {
    hide Leads, Level, Goes, Forks, DinnerInv, Scene;
    var r0 := OneEats(d, p);
    var a, aw, w := [0, 1, 3], [true, true, false], [None, None, None];
    var r1 := SceneTurn(d, r0, p, a, aw, w, 1);
    SceneAt(r1, p, a, aw, w, 1);
    SceneAt(r1, p, a, aw, w, 2);
    assert Program(r1) == Lock(2);
    assert 2 in Forks(|d.at|, 2, 3) by { Eats(|d.at|); }
    HolderIsOwner(r1, 2, 2);
    r := WaitsOn(d, r1, p, 3);
    SceneGoes(r1, r, p, a, aw, w, 1, 1, Sleeping, Some(2));
    assert a[1 := 1] == a && aw[1 := false] == [true, false, false] && w[1 := Some(2)] == [None, Some(2), None];
  }

  lemma Eats(n: nat)
    requires n >= 3
    ensures 2 in Forks(n, 2, 3)
  {
    assert Forks(n, 2, 3)[0] == 2 || Forks(n, 2, 3)[1] == 2;
  }

  /** Philosopher 2 has put down both forks and gone. */
  lemma TwoGoes(d: Dinner, p: nat) returns (r: Dinner)
    requires Leads(d, d) && Scene(d, p, [0, 0, 0], [true, true, true], [None, None, None])
    ensures Leads(d, r) && Scene(r, p, [0, 1, 6], [true, false, false], [None, Some(2), None]) && |r.at| == |d.at|
  {
    hide Leads, Scene;
    var w := [None, Some(2), None];
    r := OneWaits(d, p);
    r := SceneRises(d, r, p, [0, 1, 3], [true, false, false], w);
    var aw := [true, false, true];
    assert [true, false, false][2 := true] == aw && aw[2 := true] == aw;
    r := SceneOn(d, r, p, [0, 1, 3], aw, w);
    assert [0, 1, 3][2 := 4] == [0, 1, 4];
    r := SceneOn(d, r, p, [0, 1, 4], aw, w);
    assert [0, 1, 4][2 := 5] == [0, 1, 5];
    r := SceneOn(d, r, p, [0, 1, 5], aw, w);
    assert [0, 1, 5][2 := 6] == [0, 1, 6] && aw[2 := false] == [true, false, false];
  }

  /** Philosopher 0 has its first fork and is about to ask for the second. */
  lemma ZeroAsks(d: Dinner, p: nat) returns (r: Dinner)
    requires Leads(d, d) && Scene(d, p, [0, 0, 0], [true, true, true], [None, None, None])
    ensures Leads(d, r) && Scene(r, p, [1, 1, 6], [true, false, false], [None, Some(2), None]) && |r.at| == |d.at| && AtTable(r) && Who(r) == 0
  {
    hide Leads, Scene;
    var aw, w := [true, false, false], [None, Some(2), None];
    SceneSize(d, p, [0, 0, 0], [true, true, true], [None, None, None]);
    r := TwoGoes(d, p);
    r := SceneTakes(d, r, p, [0, 1, 6], aw, w, 0);
    assert [0, 1, 6][0 := 1] == [1, 1, 6];
    r := SceneTurn(d, r, p, [1, 1, 6], aw, w, 0);
  }

  /** There the walk goes to philosopher 1, which waits for fork 2, which nobody has. */
  lemma AskFaults(d: Dinner, p: nat)
    requires Scene(d, p, [1, 1, 6], [true, false, false], [None, Some(2), None]) && AtTable(d) && Who(d) == 0
    ensures Faults(d)
  {
    hide Level, Forks, DinnerInv, Scene;
    var a, aw, w := [1, 1, 6], [true, false, false], [None, Some(2), None];
    SceneAt(d, p, a, aw, w, 0);
    SceneAt(d, p, a, aw, w, 1);
    Leftovers(|d.at|);
    assert d.at[2] == 6 by { SceneAt(d, p, a, aw, w, 2); }
    assert forall j: nat :: j < 3 ==> 2 !in Forks(|d.at|, j, a[j]);
    HolderIsOwner(d, 1, 1);
    ForkOnTable(d, 1);
    SceneFree(d, p, a, aw, w, 2);
    assert Program(d) == Lock(1);
    var l := Join(d.k.locks, 1, 1);
    assert Dangles(l, 2, 0);
    assert Dangles(l, 1, 1);
  }

  lemma Leftovers(n: nat)
    requires n >= 3
    ensures Forks(n, 0, 1) == [0] && Forks(n, 1, 1) == [1] && Forks(n, 2, 6) == []
  {}

  /**
   A dinner of three or more can come to a lock call that the kernel does not survive, although all
   philosophers have the same priority and take their forks in ascending order.
   */
  lemma DinnerCanFault(n: nat) returns (d: Dinner, es: seq<Event>)
    requires n >= 3
    ensures Opening(d) && DinnerInv(d) && |d.at| == n && CanDine(d, es)
    ensures forall t :: t in d.k.sched.task && t != IDLE ==> d.k.sched.task[t].priority == Boot.DEFAULT_PRIORITY
    ensures var r := AfterDinner(d, es); AtTable(r) && Faults(r) && !CanHappen(r, Program(r))
  {
    hide Opening, DinnerInv, Scene, Faults, CanHappen, CanDine, Boot.Spawned, Boot.InitKernel;
    var created;
    d, created := Boot.DinnerCanStart(n);
    FirstScene(d);
    var r := ZeroAsks(d, Boot.DEFAULT_PRIORITY);
    AskFaults(r, Boot.DEFAULT_PRIORITY);
    es :| CanDine(d, es) && AfterDinner(d, es) == r;
    StepsIff(r);
  }

  lemma FirstScene(d: Dinner)
    requires Opening(d) && |d.at| >= 3 && Boot.Spawned(d.k, |d.at|, |d.at|, Boot.DEFAULT_PRIORITY)
    ensures Scene(d, Boot.DEFAULT_PRIORITY, [0, 0, 0], [true, true, true], [None, None, None]) && Leads(d, d) && DinnerInv(d)
    ensures forall t :: t in d.k.sched.task && t != IDLE ==> d.k.sched.task[t].priority == Boot.DEFAULT_PRIORITY
  {
    hide Booted, Fair, AtTop, Ceiling, DinnerInv;
    OpeningInv(d);
    assert CanDine(d, []) && AfterDinner(d, []) == d;
    forall j: nat | j < |d.at| ensures d.at[j] == 0 && Awake(d.k, j + 1) {
      assert Arrived(d, j);
    }
    NobodyWaits(d.k);
  }

  lemma NobodyWaits(k: Kernel)
    requires Booted(k)
    ensures forall t :: t in k.locks.lk ==> k.locks.lk[t].sleepOn == None
  {
    hide Stable;
  }
}
