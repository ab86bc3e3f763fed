/**
 The run queue and the round-robin scheduler: 32 FIFO levels, a bitmap that tells which
 of them hold a thread, and the running thread.  A Task is the scheduling half of
 struct pthread; Locks.dfy has the other half.
 */
module Sched {
  import opened Bits
  import opened Seqs

  type Tid = nat

  const PRIORITY_MAX: nat := 31
  const TIMESLICE: nat := 10
  const IDLE: Tid := 0

  datatype RunState = Unused | Starting | Running | Sleeping | Exited

  /** queued says that the link of the thread is in a run level. */
  datatype Task = Task(priority: nat, eff: nat, slice: nat, state: RunState, queued: bool)

  datatype Sched = Sched(level: seq<seq<Tid>>, bitmap: nat, task: map<Tid, Task>, cur: Tid)

  /** One level: its members are exactly the queued threads of that effective priority, once each. */
  ghost predicate LevelOk(s: Sched, p: nat)
    requires p < |s.level| == PRIORITY_MAX + 1
  {
    && NoDup(s.level[p])
    && (forall t :: t in s.level[p] <==> t in s.task && s.task[t].queued && s.task[t].eff == p)
    && (Bit(s.bitmap, PRIORITY_MAX - p) <==> s.level[p] != [])
  }

  ghost predicate Valid(s: Sched) {
    && |s.level| == PRIORITY_MAX + 1
    && (forall t :: t in s.task ==> s.task[t].eff <= PRIORITY_MAX)
    && (forall p: nat :: p <= PRIORITY_MAX ==> LevelOk(s, p))
  }

  /** run_queue_enqueue */
  function Enqueue(s: Sched, t: Tid, head: bool): Sched
    requires t in s.task && s.task[t].eff < |s.level| == PRIORITY_MAX + 1
  {
    var p := s.task[t].eff;
    var bitmap := if s.level[p] == [] then SetBit(s.bitmap, PRIORITY_MAX - p) else s.bitmap;
    var q := if head then [t] + s.level[p] else s.level[p] + [t];
    s.(level := s.level[p := q], bitmap := bitmap,
       task := s.task[t := s.task[t].(slice := TIMESLICE, queued := true)])
  }

  /** run_queue_dequeue */
  function Dequeue(s: Sched, t: Tid): Sched
    requires t in s.task && s.task[t].eff < |s.level| == PRIORITY_MAX + 1
  {
    if s.task[t].queued then
      var p := s.task[t].eff;
      var q := Remove(s.level[p], t);
      s.(level := s.level[p := q],
         bitmap := if q == [] then ClearBit(s.bitmap, PRIORITY_MAX - p) else s.bitmap,
         task := s.task[t := s.task[t].(queued := false)])
    else s
  }

  lemma EnqueueLevel(s: Sched, t: Tid, head: bool, p: nat)
    requires Valid(s) && t in s.task && !s.task[t].queued && p <= PRIORITY_MAX
    ensures LevelOk(Enqueue(s, t, head), p)
  {
    var e := s.task[t].eff;
    assert LevelOk(s, p) && LevelOk(s, e);
    SetAndClear(s.bitmap, PRIORITY_MAX - e, PRIORITY_MAX - p);
    ConsNoDup(t, s.level[e]);
    SnocNoDup(s.level[e], t);
  }

  lemma EnqueueValid(s: Sched, t: Tid, head: bool)
    requires Valid(s) && t in s.task && !s.task[t].queued
    ensures Valid(Enqueue(s, t, head))
    ensures var r, e := Enqueue(s, t, head), s.task[t].eff;
            && r.task[t].slice == 10
            && |r.level[e]| == |s.level[e]| + 1 && r.level[e][if head then 0 else |s.level[e]|] == t && Remove(r.level[e], t) == s.level[e]
            && forall p: nat :: p <= PRIORITY_MAX && p != e ==> r.level[p] == s.level[p]
  {
    assert LevelOk(s, s.task[t].eff);
    RemoveLast(s.level[s.task[t].eff], t);
    forall p: nat | p <= PRIORITY_MAX ensures LevelOk(Enqueue(s, t, head), p) {
      EnqueueLevel(s, t, head, p);
    }
  }

  lemma DequeueLevel(s: Sched, t: Tid, p: nat)
    requires Valid(s) && t in s.task && p <= PRIORITY_MAX
    ensures LevelOk(Dequeue(s, t), p)
  {
    var e := s.task[t].eff;
    assert LevelOk(s, p) && LevelOk(s, e);
    SetAndClear(s.bitmap, PRIORITY_MAX - e, PRIORITY_MAX - p);
    RemoveNoDup(s.level[e], t);
    forall u ensures u in Remove(s.level[e], t) <==> u in s.level[e] && u != t {
      RemoveKeeps(s.level[e], t, u);
    }
  }

  lemma DequeueValid(s: Sched, t: Tid)
    requires Valid(s) && t in s.task
    ensures Valid(Dequeue(s, t))
  {
    forall p: nat | p <= PRIORITY_MAX ensures LevelOk(Dequeue(s, t), p) {
      DequeueLevel(s, t, p);
    }
  }

  /** The idle thread is always there to run. */
  ghost predicate Ready(s: Sched) {
    Valid(s) && IDLE in s.task && s.task[IDLE].queued
  }

  /** The levels from p down to 0 searched one by one: what the bitmap is a shortcut for. */
  function Scan(level: seq<seq<Tid>>, p: nat): (r: nat)
    requires p < |level|
    ensures r <= p
    ensures r > 0 ==> level[r] != []
    ensures forall i: nat :: r < i <= p ==> level[i] == []
  {
    if p == 0 || level[p] != [] then p else Scan(level, p - 1)
  }

  /** run_queue_peek: the head of the level that find-first-set designates. */
  function Peek(s: Sched): (t: Tid)
    requires Ready(s)
    ensures t in s.task && s.task[t].queued
  {
    assert LevelOk(s, s.task[IDLE].eff);
    assert Ffs(s.bitmap) > 0;
    var i := Ffs(s.bitmap) - 1;
    assert LevelOk(s, PRIORITY_MAX - i);
    s.level[PRIORITY_MAX - i][0]
  }

  /** Find-first-set finds the same thread as the linear search, and no queued thread has a higher priority. */
  lemma PeekIsHighest(s: Sched)
    requires Ready(s)
    ensures var p := Scan(s.level, PRIORITY_MAX);
            s.level[p] != [] && Peek(s) == s.level[p][0] && s.task[Peek(s)].eff == p
    ensures forall t :: t in s.task && s.task[t].queued ==> s.task[t].eff <= s.task[Peek(s)].eff
  {
    var p := Scan(s.level, PRIORITY_MAX);
    var i := Ffs(s.bitmap) - 1;
    assert LevelOk(s, s.task[IDLE].eff);
    assert LevelOk(s, PRIORITY_MAX - i);
    assert LevelOk(s, p);
    assert s.level[p] != [] ==> Bit(s.bitmap, PRIORITY_MAX - p);
    assert p == PRIORITY_MAX - i;
    forall t | t in s.task && s.task[t].queued ensures s.task[t].eff <= p {
      assert LevelOk(s, s.task[t].eff);
    }
  }

  /** The tail of __pthread_setschedprio without the propagation: a queued thread moves to the head of its new level. */
  function SetEff(s: Sched, t: Tid, p: nat): Sched
    requires Valid(s) && t in s.task && p <= PRIORITY_MAX
  {
    if s.task[t].eff == p then s
    else if s.task[t].queued then
      var d := Dequeue(s, t);
      Enqueue(d.(task := d.task[t := d.task[t].(eff := p)]), t, true)
    else s.(task := s.task[t := s.task[t].(eff := p)])
  }

  lemma UnqueuedEff(s: Sched, t: Tid, p: nat)
    requires Valid(s) && t in s.task && !s.task[t].queued && p <= PRIORITY_MAX
    ensures Valid(s.(task := s.task[t := s.task[t].(eff := p)]))
  {
    var s' := s.(task := s.task[t := s.task[t].(eff := p)]);
    forall q: nat | q <= PRIORITY_MAX ensures LevelOk(s', q) {
      assert LevelOk(s, q);
    }
  }

  lemma SetEffValid(s: Sched, t: Tid, p: nat)
    requires Valid(s) && t in s.task && p <= PRIORITY_MAX
    ensures Valid(SetEff(s, t, p))
    ensures SetEff(s, t, p).cur == s.cur
    ensures SetEff(s, t, p).task.Keys == s.task.Keys
    ensures forall u :: u in s.task ==> SameButSlice(s.task[u].(eff := if u == t then p else s.task[u].eff), SetEff(s, t, p).task[u])
    ensures forall u :: u in s.task && u != t ==> SetEff(s, t, p).task[u].slice == s.task[u].slice
    ensures var r, e := SetEff(s, t, p), s.task[t].eff;
            if s.task[t].queued && e != p then r.level == s.level[e := Remove(s.level[e], t)][p := [t] + s.level[p]] && r.task[t].slice == 10
            else r.level == s.level && r.task[t].slice == s.task[t].slice
  {
    DequeueValid(s, t);
    var d := Dequeue(s, t);
    UnqueuedEff(d, t, p);
    var e := d.(task := d.task[t := d.task[t].(eff := p)]);
    EnqueueValid(e, t, true);
  }

  predicate SameButSlice(a: Task, b: Task) {
    a.(slice := b.slice) == b
  }

  /** State changes keep the queues valid as long as the links stay as they are. */
  function SetState(s: Sched, t: Tid, state: RunState): (r: Sched)
    requires t in s.task
  {
    s.(task := s.task[t := s.task[t].(state := state)])
  }

  lemma SameQueues(s: Sched, s': Sched)
    requires Valid(s) && s'.level == s.level && s'.bitmap == s.bitmap && s'.task.Keys == s.task.Keys
    requires forall t :: t in s.task ==> s'.task[t].eff == s.task[t].eff && s'.task[t].queued == s.task[t].queued
    ensures Valid(s')
  {
    forall p: nat | p <= PRIORITY_MAX ensures LevelOk(s', p) {
      assert LevelOk(s, p);
    }
  }

  /** What holds whenever a thread runs outside an atomic section. */
  ghost predicate Stable(s: Sched) {
    && Valid(s)
    && IDLE in s.task && s.task[IDLE].state == Running
    && s.cur in s.task && s.task[s.cur].state == Running
    && (forall t :: t in s.task ==> (s.task[t].queued <==> s.task[t].state == Running))
    && (forall t :: t in s.task && s.task[t].queued ==> 1 <= s.task[t].slice <= TIMESLICE)
  }

  /** What holds just before __schedule: the running thread may have given up the CPU or used up its slice. */
  ghost predicate BeforeSwitch(s: Sched) {
    && Valid(s)
    && IDLE in s.task && s.task[IDLE].state == Running && s.task[IDLE].queued
    && s.cur in s.task && s.task[s.cur].queued
    && (forall t :: t in s.task && t != s.cur ==> (s.task[t].queued <==> s.task[t].state == Running))
    && (forall t :: t in s.task && s.task[t].queued ==> s.task[t].slice <= TIMESLICE)
    && (forall t :: t in s.task && s.task[t].queued && t != s.cur ==> 1 <= s.task[t].slice)
  }

  /** The first half of __schedule: what becomes of the thread that was running. */
  function PutBack(s: Sched): Sched
    requires Valid(s) && s.cur in s.task
  {
    if s.task[s.cur].state != Running then Dequeue(s, s.cur)
    else if s.task[s.cur].slice == 0 then Enqueue(Dequeue(s, s.cur), s.cur, false)
    else s
  }

  lemma PutBackOk(s: Sched)
    requires BeforeSwitch(s)
    ensures Ready(PutBack(s))
    ensures PutBack(s).task.Keys == s.task.Keys && PutBack(s).cur == s.cur
    ensures forall t :: t in s.task ==>
      var a, b := s.task[t], PutBack(s).task[t];
      a.priority == b.priority && a.eff == b.eff && a.state == b.state
      && (b.queued <==> b.state == Running) && (b.queued ==> 1 <= b.slice <= TIMESLICE)
  {
    DequeueValid(s, s.cur);
    if s.task[s.cur].state == Running && s.task[s.cur].slice == 0 {
      EnqueueValid(Dequeue(s, s.cur), s.cur, false);
    }
  }

  /** __schedule followed by the context switch: current := next. */
  function Reschedule(s: Sched): Sched
    requires BeforeSwitch(s)
  {
    PutBackOk(s);
    PutBack(s).(cur := Peek(PutBack(s)))
  }

  ghost predicate SameThreads(s: Sched, s': Sched) {
    && s'.task.Keys == s.task.Keys
    && forall t :: t in s.task ==>
         s'.task[t].priority == s.task[t].priority && s'.task[t].eff == s.task[t].eff && s'.task[t].state == s.task[t].state
  }

  /** No runnable thread has a higher effective priority than the running one. */
  ghost predicate Highest(s: Sched) {
    s.cur in s.task && forall t :: t in s.task && s.task[t].state == Running ==> s.task[t].eff <= s.task[s.cur].eff
  }

  /** Every switch leaves a runnable thread of the highest priority running, its slice not used up. */
  lemma RescheduleStable(s: Sched)
    requires BeforeSwitch(s)
    ensures Stable(Reschedule(s)) && Highest(Reschedule(s)) && SameThreads(s, Reschedule(s))
  {
    PutBackOk(s);
    var b := PutBack(s);
    PeekIsHighest(b);
    SameQueues(b, Reschedule(s));
  }

  /** __pthread_set_running */
  function SetRunning(s: Sched, t: Tid): Sched
    requires Valid(s) && t in s.task
  {
    var r := SetState(s, t, Running);
    if s.task[t].queued then r else Enqueue(r, t, false)
  }

  lemma SetRunningValid(s: Sched, t: Tid)
    requires Valid(s) && t in s.task
    ensures Valid(SetRunning(s, t))
  {
    SameQueues(s, SetState(s, t, Running));
    if !s.task[t].queued {
      EnqueueValid(SetState(s, t, Running), t, false);
    }
  }

  lemma SetRunningOk(s: Sched, t: Tid)
    requires Stable(s) && t in s.task
    ensures var r := SetRunning(s, t);
            Stable(r) && r.cur == s.cur && r.task.Keys == s.task.Keys && r.task[t].state == Running
            && (forall u :: u in s.task && u != t ==> r.task[u] == s.task[u])
            && r.task[t].eff == s.task[t].eff && r.task[t].priority == s.task[t].priority
    ensures var r, e := SetRunning(s, t), s.task[t].eff;
            if s.task[t].queued then r.level == s.level && r.task[t].slice == s.task[t].slice
            else r.level == s.level[e := s.level[e] + [t]] && r.task[t].slice == 10
  {
    SetRunningValid(s, t);
  }

  lemma StableBeforeSwitch(s: Sched)
    requires Stable(s)
    ensures BeforeSwitch(s)
  {}

  /** wake_up */
  function WakeUp(s: Sched, t: Tid): Sched
    requires Stable(s) && t in s.task
  {
    SetRunningOk(s, t);
    StableBeforeSwitch(SetRunning(s, t));
    Reschedule(SetRunning(s, t))
  }

  lemma GiveUpOk(s: Sched, state: RunState)
    requires Stable(s) && s.cur != IDLE && state != Running
    ensures BeforeSwitch(SetState(s, s.cur, state))
  {
    SameQueues(s, SetState(s, s.cur, state));
  }

  /** The running thread leaves the run queue: it sleeps, or it has come to its end. */
  function GiveUp(s: Sched, state: RunState): Sched
    requires Stable(s) && s.cur != IDLE && state != Running
  {
    GiveUpOk(s, state);
    Reschedule(SetState(s, s.cur, state))
  }

  /** s' differs from s in the run state of t at most, apart from queues, slices and who runs. */
  ghost predicate OnlyState(s: Sched, s': Sched, t: Tid, state: RunState) {
    && s'.task.Keys == s.task.Keys
    && forall u :: u in s.task ==>
         && s'.task[u].priority == s.task[u].priority && s'.task[u].eff == s.task[u].eff
         && s'.task[u].state == if u == t then state else s.task[u].state
  }

  lemma GiveUpStable(s: Sched, state: RunState)
    requires Stable(s) && s.cur != IDLE && state != Running
    ensures Stable(GiveUp(s, state)) && Highest(GiveUp(s, state)) && OnlyState(s, GiveUp(s, state), s.cur, state)
  {
    hide Reschedule, Valid;
    GiveUpOk(s, state);
    RescheduleStable(SetState(s, s.cur, state));
  }

  lemma WakeUpStable(s: Sched, t: Tid)
    requires Stable(s) && t in s.task
    ensures Stable(WakeUp(s, t)) && Highest(WakeUp(s, t)) && OnlyState(s, WakeUp(s, t), t, Running)
  {
    hide Reschedule, Valid, SetRunning;
    SetRunningOk(s, t);
    StableBeforeSwitch(SetRunning(s, t));
    RescheduleStable(SetRunning(s, t));
  }

  /** One tick taken off the slice of the running thread; the slice is a byte. */
  function Spend(s: Sched): Sched
    requires s.cur in s.task
  {
    s.(task := s.task[s.cur := s.task[s.cur].(slice := (s.task[s.cur].slice + 255) % 256)])
  }

  lemma SpendOk(s: Sched)
    requires Stable(s)
    ensures Spend(s).task[s.cur].slice == s.task[s.cur].slice - 1
    ensures BeforeSwitch(Spend(s)) && SameThreads(s, Spend(s))
    ensures Spend(s).task[s.cur].slice > 0 ==> Stable(Spend(s))
  {
    SameQueues(s, Spend(s));
  }

  /** The timer interrupt as far as the running thread is concerned: a used-up slice forces a switch. */
  function Tick(s: Sched): Sched
    requires Stable(s)
  {
    SpendOk(s);
    if Spend(s).task[s.cur].slice == 0 then Reschedule(Spend(s)) else Spend(s)
  }

  lemma TickStable(s: Sched)
    requires Stable(s)
    ensures Stable(Tick(s)) && SameThreads(s, Tick(s))
  {
    SpendOk(s);
    if Spend(s).task[s.cur].slice == 0 {
      RescheduleStable(Spend(s));
    }
  }

  /** n timer interrupts in a row, with nothing else going on. */
  function Ticks(s: Sched, n: nat): (r: Sched)
    requires Stable(s)
    ensures Stable(r)
    decreases n
  {
    TickStable(s);
    if n == 0 then s else Ticks(Tick(s), n - 1)
  }

  lemma {:induction false} TicksCompose(s: Sched, m: nat, n: nat)
    requires Stable(s)
    ensures Ticks(s, m + n) == Ticks(Ticks(s, m), n)
    decreases m
  {
    hide Tick, Stable;
    TickStable(s);
    if m > 0 {
      TicksCompose(Tick(s), m - 1, n);
    }
  }

  /** The ticks left to the threads of q together. */
  function SliceSum(s: Sched, q: seq<Tid>): nat
    requires forall t :: t in q ==> t in s.task
  {
    if q == [] then 0 else s.task[q[0]].slice + SliceSum(s, q[1..])
  }

  /** The running thread is the head of the highest non-empty level. */
  ghost predicate AtTop(s: Sched) {
    Stable(s) && s.cur == Peek(s)
  }

  function TopLevel(s: Sched): seq<Tid>
    requires |s.level| == PRIORITY_MAX + 1
  {
    s.level[Scan(s.level, PRIORITY_MAX)]
  }

  /** The scheduler after n ticks of a slice that is not used up. */
  function Later(s: Sched, n: nat): Sched
    requires s.cur in s.task && n <= s.task[s.cur].slice
  {
    s.(task := s.task[s.cur := s.task[s.cur].(slice := s.task[s.cur].slice - n)])
  }

  lemma LaterTop(s: Sched, n: nat)
    requires AtTop(s) && n < s.task[s.cur].slice
    ensures AtTop(Later(s, n))
  {
    SameQueues(s, Later(s, n));
  }

  lemma FirstTick(s: Sched)
    requires AtTop(s) && 1 < s.task[s.cur].slice
    ensures Tick(s) == Later(s, 1)
  {
    SpendOk(s);
  }

  lemma {:induction false} WithinSlice(s: Sched, n: nat)
    requires AtTop(s) && n < s.task[s.cur].slice
    ensures Ticks(s, n) == Later(s, n)
    decreases n
  {
    hide Tick, Stable, Peek;
    if n == 0 {
      assert Later(s, 0).task == s.task;
    } else {
      LaterTop(s, 1);
      FirstTick(s);
      WithinSlice(Later(s, 1), n - 1);
      assert Later(Later(s, 1), n - 1).task == Later(s, n).task;
    }
  }

  lemma TopHead(s: Sched)
    requires AtTop(s)
    ensures |s.level| == PRIORITY_MAX + 1 && s.cur in s.task && 1 <= s.task[s.cur].slice
    ensures var p := Scan(s.level, PRIORITY_MAX);
            TopLevel(s) == s.level[p] && s.level[p] != [] && s.level[p][0] == s.cur && s.task[s.cur].eff == p
            && NoDup(s.level[p]) && Remove(s.level[p], s.cur) == s.level[p][1..]
    ensures forall t :: t in TopLevel(s) ==> t in s.task
  {
    PeekIsHighest(s);
    assert LevelOk(s, Scan(s.level, PRIORITY_MAX));
  }

  lemma ScanFound(level: seq<seq<Tid>>, p: nat, top: nat)
    requires p <= top < |level| && level[p] != [] && forall i :: p < i <= top ==> level[i] == []
    ensures Scan(level, top) == p
  {
    if p < top && top > 0 {
      ScanFound(level, p, top - 1);
    }
  }

  /** When the slice runs out, the thread goes to the back of its level and the next one runs. */
  lemma SliceEnd(s: Sched)
    requires AtTop(s) && s.task[s.cur].slice == 1
    ensures AtTop(Tick(s)) && TopLevel(s) != []
    ensures TopLevel(Tick(s)) == TopLevel(s)[1..] + [TopLevel(s)[0]]
    ensures s.cur in Tick(s).task && Tick(s).task[s.cur].slice == 10
    ensures forall t :: t in s.task && t != s.cur ==> Tick(s).task[t] == s.task[t]
  {
    TopHead(s);
    SpendOk(s);
    var d := Spend(s);
    var p := Scan(s.level, PRIORITY_MAX);
    PutBackOk(d);
    var b := PutBack(d);
    assert Dequeue(d, s.cur).level[p] == s.level[p][1..];
    assert b.level == s.level[p := s.level[p][1..] + [s.cur]];
    ScanFound(b.level, p, PRIORITY_MAX);
    RescheduleStable(d);
    assert Tick(s) == Reschedule(d);
    PeekIsHighest(b);
    PeekIsHighest(Tick(s));
  }

  lemma {:induction false} SameSliceSum(s: Sched, s': Sched, q: seq<Tid>)
    requires forall t :: t in q ==> t in s.task && t in s'.task && s.task[t].slice == s'.task[t].slice
    ensures SliceSum(s, q) == SliceSum(s', q)
  {
    if q != [] {
      SameSliceSum(s, s', q[1..]);
    }
  }

  lemma WholeSlice(s: Sched)
    requires AtTop(s)
    ensures var s' := Ticks(s, s.task[s.cur].slice);
            AtTop(s') && TopLevel(s) != [] && TopLevel(s') == TopLevel(s)[1..] + [TopLevel(s)[0]]
            && s.cur in s'.task && s'.task[s.cur].slice == 10
            && forall t :: t in s.task && t != s.cur ==> t in s'.task && s'.task[t] == s.task[t]
  {
    hide Tick, Stable, Peek, Scan, Valid;
    TopHead(s);
    var k := s.task[s.cur].slice;
    WithinSlice(s, k - 1);
    LaterTop(s, k - 1);
    var l := Later(s, k - 1);
    TopHead(l);
    TicksCompose(s, k - 1, 1);
    SliceEnd(l);
    TickStable(l);
    assert Ticks(l, 1) == Ticks(Tick(l), 0) == Tick(l);
    assert TopLevel(l) == TopLevel(s);
  }

  /**
   With no wake-up, sleep or priority change, the threads of the top level take turns in
   queue order, each for what is left of its slice: the one at position j runs its (k+1)st tick
   exactly when j whole slices and k ticks have gone by.
   */
  lemma {:induction false} RoundRobin(s: Sched, j: nat, k: nat)
    requires AtTop(s) && j < |TopLevel(s)|
    requires forall t :: t in TopLevel(s) ==> t in s.task
    requires k < s.task[TopLevel(s)[j]].slice
    ensures var q, s' := TopLevel(s), Ticks(s, SliceSum(s, TopLevel(s)[..j]) + k);
            s'.cur == q[j] && TopLevel(s') == q[j..] + q[..j]
    decreases j
  {
    hide Tick, Stable, Peek, Scan, Valid;
    TopHead(s);
    var q := TopLevel(s);
    if j == 0 {
      WithinSlice(s, k);
      LaterTop(s, k);
      TopHead(Later(s, k));
      assert q[0..] + q[..0] == q;
    } else {
      WholeSlice(s);
      var s1 := Ticks(s, s.task[s.cur].slice);
      TopHead(s1);
      var q1 := TopLevel(s1);
      assert q1[j - 1] == q[j];
      assert q[j] != s.cur;
      RoundRobin(s1, j - 1, k);
      assert q1[..j - 1] == q[..j][1..];
      SameSliceSum(s, s1, q1[..j - 1]);
      TicksCompose(s, s.task[s.cur].slice, SliceSum(s1, q1[..j - 1]) + k);
      assert q1[j - 1..] + q1[..j - 1] == q[j..] + q[..j];
    }
  }

  /** So a thread of the top level waits at most ten ticks for each thread ahead of it. */
  lemma {:induction false} BoundedWait(s: Sched, q: seq<Tid>)
    requires Stable(s) && forall t :: t in q ==> t in s.task && s.task[t].queued
    ensures |q| <= SliceSum(s, q) <= TIMESLICE * |q|
  {
    if q != [] {
      BoundedWait(s, q[1..]);
    }
  }

  /** Every thread of q has a whole slice. */
  predicate Fresh(s: Sched, q: seq<Tid>) {
    forall t :: t in q ==> t in s.task && s.task[t].slice == 10
  }

  /** With whole slices the top level moves on by one thread every ten ticks. */
  lemma {:induction false} Rounds(s: Sched, j: nat)
    requires AtTop(s) && |s.level| == PRIORITY_MAX + 1 && Fresh(s, TopLevel(s)) && j <= |TopLevel(s)|
    ensures var q, s' := TopLevel(s), Ticks(s, 10 * j);
            AtTop(s') && |s'.level| == PRIORITY_MAX + 1 && TopLevel(s') == q[j..] + q[..j] && Fresh(s', q)
    decreases j
  {
    hide Tick, Stable, Peek, Scan, Valid;
    var q := TopLevel(s);
    if j == 0 {
      assert q[0..] + q[..0] == q;
    } else {
      Rounds(s, j - 1);
      var s1 := Ticks(s, 10 * (j - 1));
      TopHead(s1);
      WholeSlice(s1);
      TopHead(Ticks(s1, 10));
      TicksCompose(s, 10 * (j - 1), 10);
      assert q[j - 1..] == [q[j - 1]] + q[j..];
      assert q[..j] == q[..j - 1] + [q[j - 1]];
    }
  }

  /** After ten ticks for each thread of the top level, order and slices are as they were and the same thread runs. */
  lemma RoundTrip(s: Sched)
    requires AtTop(s) && |s.level| == PRIORITY_MAX + 1 && Fresh(s, TopLevel(s))
    ensures var q, s' := TopLevel(s), Ticks(s, 10 * |TopLevel(s)|);
            s'.cur == s.cur && |s'.level| == PRIORITY_MAX + 1 && TopLevel(s') == q && Fresh(s', q)
  {
    hide Tick, Stable, Peek, Scan, Valid;
    var q := TopLevel(s);
    Rounds(s, |q|);
    assert q[|q|..] + q[..|q|] == q;
    TopHead(s);
    TopHead(Ticks(s, 10 * |q|));
  }
}
