/** Joining, detaching and ending threads: the waiter pointers of kernel/pthread.c. */
module Join {
  import opened Seqs

  type Tid = nat

  datatype Life = Free | Initial | Running | Sleeping | Exited

  /** joining is the thread whose end this one waits for inside pthread_join. */
  datatype Slot = Slot(life: Life, detached: bool, waiter: Option<Tid>, retval: int, joining: Option<Tid>)

  type Table = seq<Slot>

  // ---- the waiter graph ----

  /** n waiter pointers lead from t to u. */
  ghost predicate Reaches(s: Table, t: Tid, n: nat, u: Tid)
    decreases n
  {
    if n == 0 then t == u
    else t < |s| && s[t].waiter.Some? && Reaches(s, s[t].waiter.value, n - 1, u)
  }

  /** t waits for itself, through one pointer or more. */
  ghost predicate OnCycle(s: Table, t: Tid) {
    exists n :: n > 0 && Reaches(s, t, n, t)
  }

  /** After n waiter pointers the walk from t is at its end. */
  ghost predicate Ends(s: Table, t: Tid, n: nat)
    decreases n
  {
    t < |s| && if s[t].waiter == None then n == 0 else n > 0 && Ends(s, s[t].waiter.value, n - 1)
  }

  ghost predicate Finite(s: Table, t: Tid) {
    exists n :: Ends(s, t, n)
  }

  /** Every walk along waiter pointers comes to an end. */
  ghost predicate Acyclic(s: Table) {
    forall t: Tid :: t < |s| ==> Finite(s, t)
  }

  lemma {:induction false} EndsAfter(s: Table, t: Tid, n: nat, i: nat, u: Tid)
    requires Ends(s, t, n) && Reaches(s, t, i, u)
    ensures i <= n && Ends(s, u, n - i)
    decreases i
  {
    if i > 0 {
      EndsAfter(s, s[t].waiter.value, n - 1, i - 1, u);
    }
  }

  lemma {:induction false} OneEnd(s: Table, t: Tid, m: nat, n: nat)
    requires Ends(s, t, m) && Ends(s, t, n)
    ensures m == n
    decreases m
  {
    if m > 0 && n > 0 {
      OneEnd(s, s[t].waiter.value, m - 1, n - 1);
    }
  }

  lemma {:induction false} EndsOnce(s: Table, t: Tid, n: nat, i: nat)
    requires Ends(s, t, n) && Reaches(s, t, i, t)
    ensures i == 0
  {
    EndsAfter(s, t, n, i, t);
    if i > 0 {
      OneEnd(s, t, n, n - i);
    }
  }

  lemma {:induction false} EndsBefore(s: Table, t: Tid, i: nat, u: Tid, n: nat)
    requires Reaches(s, t, i, u) && Ends(s, u, n)
    ensures Ends(s, t, i + n)
    decreases i
  {
    if i > 0 {
      EndsBefore(s, s[t].waiter.value, i - 1, u, n);
    }
  }

  /** A walk that ends is on no cycle. */
  lemma EndsNoCycle(s: Table, t: Tid, n: nat)
    requires Ends(s, t, n)
    ensures !OnCycle(s, t)
  {
    if OnCycle(s, t) {
      var i :| i > 0 && Reaches(s, t, i, t);
      EndsOnce(s, t, n, i);
    }
  }

  lemma {:induction false} ReachesOn(s: Table, t: Tid, n: nat, u: Tid)
    requires Reaches(s, t, n, u) && u < |s| && s[u].waiter.Some?
    ensures Reaches(s, t, n + 1, s[u].waiter.value)
    decreases n
  {
    if n > 0 {
      ReachesOn(s, s[t].waiter.value, n - 1, u);
    }
  }

  /** Only the waiter pointer of t may differ. */
  ghost predicate ElsewhereSame(s: Table, s': Table, t: Tid) {
    |s'| == |s| && forall u: Tid :: u < |s| && u != t ==> s'[u].waiter == s[u].waiter
  }

  lemma {:induction false} EndsVia(s: Table, s': Table, t: Tid, m: nat, u: Tid, n: nat) returns (k: nat)
    requires ElsewhereSame(s, s', t) && Ends(s', t, m) && Ends(s, u, n)
    ensures Ends(s', u, k)
    decreases n
  {
    if u == t {
      k := m;
    } else if s[u].waiter == None {
      k := 0;
    } else {
      k := EndsVia(s, s', t, m, s[u].waiter.value, n - 1);
      k := k + 1;
    }
  }

  /** A changed pointer after which the walk from its thread still ends leaves the graph without cycles. */
  lemma AcyclicVia(s: Table, s': Table, t: Tid, m: nat)
    requires Acyclic(s) && ElsewhereSame(s, s', t) && Ends(s', t, m)
    ensures Acyclic(s')
  {
    forall u: Tid | u < |s'| ensures Finite(s', u) {
      assert Finite(s, u);
      var n :| Ends(s, u, n);
      var k := EndsVia(s, s', t, m, u, n);
    }
  }

  lemma AcyclicCleared(s: Table, s': Table, t: Tid)
    requires Acyclic(s) && ElsewhereSame(s, s', t) && (t < |s| ==> s'[t].waiter == None || s'[t].waiter == s[t].waiter)
    ensures Acyclic(s')
  {
    if t < |s| && s'[t].waiter == None {
      AcyclicVia(s, s', t, 0);
    } else {
      forall u: Tid | u < |s'| ensures Finite(s', u) {
        assert Finite(s, u);
      var n :| Ends(s, u, n);
        SameEnds(s, s', u, n);
      }
    }
  }

  lemma {:induction false} SameEnds(s: Table, s': Table, t: Tid, n: nat)
    requires |s'| == |s| && (forall u: Tid :: u < |s| ==> s'[u].waiter == s[u].waiter) && Ends(s, t, n)
    ensures Ends(s', t, n)
    decreases n
  {
    if n > 0 {
      SameEnds(s, s', s[t].waiter.value, n - 1);
    }
  }

  lemma {:induction false} SameReaches(s: Table, s': Table, t: Tid, n: nat, u: Tid)
    requires |s'| == |s| && (forall v: Tid :: v < |s| ==> s'[v].waiter == s[v].waiter) && Reaches(s, t, n, u)
    ensures Reaches(s', t, n, u)
    decreases n
  {
    if n > 0 {
      SameReaches(s, s', s[t].waiter.value, n - 1, u);
    }
  }

  lemma SameCycle(s: Table, s': Table, t: Tid)
    requires |s'| == |s| && (forall v: Tid :: v < |s| ==> s'[v].waiter == s[v].waiter)
    ensures OnCycle(s, t) <==> OnCycle(s', t)
  {
    if OnCycle(s, t) {
      var n :| n > 0 && Reaches(s, t, n, t);
      SameReaches(s, s', t, n, t);
    }
    if OnCycle(s', t) {
      var n :| n > 0 && Reaches(s', t, n, t);
      SameReaches(s', s, t, n, t);
    }
  }

  // ---- the calls ----

  datatype Outcome = Asleep | Ok(retval: int) | ESRCH | EINVAL | EDEADLK

  function SetWaiter(s: Table, t: Tid, w: Option<Tid>): Table
    requires t < |s|
  {
    s[t := s[t].(waiter := w)]
  }

  /** One pass of the loop of pthread_join, up to its return or its sleep. */
  ghost function Attempt(s: Table, me: Tid, t: Tid): (Table, Outcome)
    requires me < |s| && t < |s|
  {
    var idle := s[me := s[me].(joining := None)];
    if s[t].life == Exited then (idle[t := idle[t].(life := Free)], Ok(s[t].retval))
    else if s[t].life == Free then (idle, ESRCH)
    else if s[t].detached || s[t].waiter.Some? then (idle, EINVAL)
    else if OnCycle(SetWaiter(s, t, Some(me)), t) then (idle, EDEADLK)
    else
      var s1 := SetWaiter(s, t, Some(me));
      (s1[me := s1[me].(life := Sleeping, joining := Some(t))], Asleep)
  }

  /** Back from the sleep: the pointer is cleared, whoever it now belongs to, and the loop goes on. */
  ghost function Resumed(s: Table, me: Tid): (Table, Outcome)
    requires me < |s| && s[me].joining.Some? && s[me].joining.value < |s|
  {
    Attempt(SetWaiter(s, s[me].joining.value, None), me, s[me].joining.value)
  }

  function Woken(s: Table, w: Option<Tid>): Table {
    if w.Some? && w.value < |s| then s[w.value := s[w.value].(life := Running)] else s
  }

  function Detached(s: Table, t: Tid): (Table, Outcome)
    requires t < |s|
  {
    match s[t].life
    case Free => (s, ESRCH)
    case Initial => (s, ESRCH)
    case Exited => (s[t := s[t].(life := Free)], Ok(0))
    case _ =>
      if s[t].detached then (s, EINVAL)
      else (Woken(s[t := s[t].(detached := true)], s[t].waiter), Ok(0))
  }

  function Ended(s: Table, me: Tid, value: int): Table
    requires me < |s|
  {
    var s1 := s[me := s[me].(retval := value)];
    if s[me].detached then s1[me := s1[me].(life := Free)]
    else Woken(s1[me := s1[me].(life := Exited)], s[me].waiter)
  }

  /** The two halves of pthread_create: a slot is claimed, and its fields are set later. */
  function Claimed(s: Table, t: Tid): Table
    requires t < |s|
  {
    s[t := s[t].(life := Initial)]
  }

  function Installed(s: Table, t: Tid, detached: bool): Table
    requires t < |s|
  {
    s[t := s[t].(life := Running, detached := detached, waiter := None, retval := 0)]
  }

  // ---- runs ----

  datatype Event =
    | JoinStarts(me: Tid, t: Tid) | JoinGoesOn(me: Tid) | Detach(me: Tid, t: Tid) | Exit(me: Tid, value: int)
    | Claim(me: Tid, t: Tid) | Install(me: Tid, t: Tid, detach: bool) | Sleep(me: Tid) | Wake(t: Tid)

  /** A thread that is running its own code. */
  predicate Acts(s: Table, me: Tid) {
    me < |s| && s[me].life == Running && s[me].joining == None
  }

  predicate Enabled(s: Table, e: Event) {
    match e
    case JoinStarts(me, t) => Acts(s, me) && t < |s|
    case JoinGoesOn(me) => me < |s| && s[me].life == Running && s[me].joining.Some?
    case Detach(me, t) => Acts(s, me) && t < |s|
    case Exit(me, value) => Acts(s, me)
    case Claim(me, t) => Acts(s, me) && t < |s| && s[t].life == Free
    case Install(me, t, _) => Acts(s, me) && t < |s| && s[t].life == Initial
    case Sleep(me) => Acts(s, me)
    case Wake(t) => t < |s| && (s[t].life == Running || s[t].life == Sleeping)
  }

  /** A waiter pointer names a thread that is inside the join of this very slot; only threads with a life join. */
  ghost predicate Linked(s: Table) {
    forall t: Tid :: t < |s| ==>
      && (s[t].waiter.Some? ==> s[t].waiter.value < |s| && s[s[t].waiter.value].joining == Some(t))
      && (s[t].joining.Some? ==> s[t].joining.value < |s| && (s[t].life == Running || s[t].life == Sleeping))
  }

  ghost predicate Inv(s: Table) {
    Acyclic(s) && Linked(s)
  }

  ghost function Step(s: Table, e: Event): Table
    requires Inv(s) && Enabled(s, e)
  {
    match e
    case JoinStarts(me, t) => Attempt(s, me, t).0
    case JoinGoesOn(me) => Resumed(s, me).0
    case Detach(me, t) => Detached(s, t).0
    case Exit(me, value) => Ended(s, me, value)
    case Claim(me, t) => Claimed(s, t)
    case Install(me, t, d) => Installed(s, t, d)
    case Sleep(me) => s[me := s[me].(life := Sleeping)]
    case Wake(t) => Woken(s, Some(t))
  }

  /** With the new pointer the walk from its thread either closes the only possible cycle or ends. */
  lemma {:induction false} NewPointer(s: Table, me: Tid, t: Tid, u: Tid, i: nat, n: nat)
    requires me < |s| && t < |s| && s[t].waiter == None && Ends(s, u, n)
    requires Reaches(SetWaiter(s, t, Some(me)), t, i + 1, u)
    ensures var s' := SetWaiter(s, t, Some(me)); OnCycle(s', t) || Finite(s', u)
    decreases n
  {
    var s' := SetWaiter(s, t, Some(me));
    if u != t {
      if n == 0 {
        assert Ends(s', u, 0);
      } else {
        ReachesOn(s', t, i + 1, u);
        NewPointer(s, me, t, s[u].waiter.value, i + 1, n - 1);
        if !OnCycle(s', t) {
          var m: nat :| Ends(s', s[u].waiter.value, m);
          assert Ends(s', u, m + 1);
        }
      }
    }
  }

  /** So a pointer that closes no cycle keeps the graph acyclic. */
  lemma PointerKeeps(s: Table, me: Tid, t: Tid)
    requires Acyclic(s) && me < |s| && t < |s| && s[t].waiter == None && !OnCycle(SetWaiter(s, t, Some(me)), t)
    ensures Acyclic(SetWaiter(s, t, Some(me)))
  {
    var s' := SetWaiter(s, t, Some(me));
    assert Finite(s, me);
    var n :| Ends(s, me, n);
    assert Reaches(s', me, 0, me);
    assert Reaches(s', t, 1, me);
    NewPointer(s, me, t, me, 0, n);
    var m: nat :| Ends(s', me, m);
    assert Ends(s', t, m + 1);
    AcyclicVia(s, s', t, m + 1);
  }

  lemma AttemptKeeps(s: Table, me: Tid, t: Tid)
    requires Acyclic(s) && me < |s| && t < |s| && s[me].life == Running
    requires forall u: Tid :: u < |s| ==> s[u].waiter != Some(me)
    requires Linked(s)
    ensures Inv(Attempt(s, me, t).0)
  {
    var r := Attempt(s, me, t);
    if r.1 == Asleep {
      PointerKeeps(s, me, t);
      AcyclicCleared(SetWaiter(s, t, Some(me)), r.0, |s|);
    } else {
      AcyclicCleared(s, r.0, |s|);
    }
  }

  lemma NobodyWaits(s: Table, me: Tid)
    requires Linked(s) && me < |s|
    ensures s[me].joining == None ==> forall u: Tid :: u < |s| ==> s[u].waiter != Some(me)
    ensures s[me].joining.Some? ==> forall u: Tid :: u < |s| && u != s[me].joining.value ==> s[u].waiter != Some(me)
  {}

  lemma ResumedKeeps(s: Table, me: Tid)
    requires Inv(s) && Enabled(s, JoinGoesOn(me))
    ensures Inv(Resumed(s, me).0)
  {
    hide Attempt, Acyclic;
    var t := s[me].joining.value;
    var s1 := SetWaiter(s, t, None);
    NobodyWaits(s, me);
    AcyclicCleared(s, s1, t);
    AttemptKeeps(s1, me, t);
  }

  lemma DetachedKeeps(s: Table, t: Tid)
    requires Inv(s) && t < |s|
    ensures Inv(Detached(s, t).0)
  {
    hide Acyclic;
    AcyclicCleared(s, Detached(s, t).0, |s|);
  }

  lemma EndedKeeps(s: Table, me: Tid, value: int)
    requires Inv(s) && Acts(s, me)
    ensures Inv(Ended(s, me, value))
  {
    hide Acyclic;
    AcyclicCleared(s, Ended(s, me, value), |s|);
  }

  /** Every step of every thread keeps the waiter graph acyclic. */
  lemma StepKeeps(s: Table, e: Event)
    requires Inv(s) && Enabled(s, e)
    ensures Inv(Step(s, e))
  {
    hide Attempt, Acyclic, Detached, Ended, Resumed;
    match e {
      case JoinStarts(me, t) => NobodyWaits(s, me); AttemptKeeps(s, me, t);
      case JoinGoesOn(me) => ResumedKeeps(s, me);
      case Detach(me, t) => DetachedKeeps(s, t);
      case Exit(me, value) => EndedKeeps(s, me, value);
      case Install(me, t, d) => AcyclicCleared(s, Step(s, e), t);
      case _ => AcyclicCleared(s, Step(s, e), |s|);
    }
  }

  /** The events can happen one after the other, starting from s. */
  ghost predicate CanRun(s: Table, es: seq<Event>)
    decreases |es|
  {
    es == [] || (Inv(s) && Enabled(s, es[0]) && CanRun(Step(s, es[0]), es[1..]))
  }

  ghost function After(s: Table, es: seq<Event>): (r: Table)
    requires CanRun(s, es)
    decreases |es|
  {
    if es == [] then s else After(Step(s, es[0]), es[1..])
  }

  /** At the start nobody joins anybody. */
  ghost predicate Start(s: Table) {
    forall t: Tid :: t < |s| ==> s[t].waiter == None && s[t].joining == None
  }

  lemma StartInv(s: Table)
    requires Start(s)
    ensures Inv(s)
  {
    forall t: Tid | t < |s| ensures Finite(s, t) {
      assert Ends(s, t, 0);
    }
  }

  lemma {:induction false} RunKeeps(s: Table, es: seq<Event>)
    requires Inv(s) && CanRun(s, es)
    ensures Inv(After(s, es))
    decreases |es|
  {
    hide Inv, Enabled, Step;
    if es != [] {
      StepKeeps(s, es[0]);
      RunKeeps(Step(s, es[0]), es[1..]);
    }
  }

  /** In every run of join, detach, exit and create steps, no thread is ever on a cycle of waiter pointers. */
  lemma NoWaiterCycle(s: Table, es: seq<Event>, t: Tid)
    requires Start(s) && CanRun(s, es) && t < |After(s, es)|
    ensures !OnCycle(After(s, es), t)
  {
    hide CanRun, After;
    StartInv(s);
    RunKeeps(s, es);
    assert Finite(After(s, es), t);
    var n :| Ends(After(s, es), t, n);
    EndsNoCycle(After(s, es), t, n);
  }

  // ---- is a sleeping joiner always found? ----

  /**
   Whoever is inside the join of a slot is the one its pointer names, and whoever sleeps there
   sleeps on a thread that is alive and not detached, so that its end will wake the sleeper.
   */
  ghost predicate Registered(s: Table) {
    forall w: Tid :: w < |s| && s[w].joining.Some? && s[w].joining.value < |s| ==>
      var x := s[s[w].joining.value];
      x.waiter == Some(w) && (s[w].life == Sleeping ==> !x.detached && x.life != Free && x.life != Exited)
  }

  /** Somebody is inside the join of this slot. */
  predicate Joined(s: Table, t: Tid) {
    exists w: Tid :: w < |s| && s[w].joining == Some(t)
  }

  lemma AttemptRegistered(s: Table, me: Tid, t: Tid)
    requires Linked(s) && me < |s| && t < |s| && s[me].life == Running
    requires forall u: Tid :: u < |s| ==> s[u].waiter != Some(me)
    requires Registered(s[me := s[me].(joining := None)])
    ensures Registered(Attempt(s, me, t).0)
  {
    hide OnCycle;
    var idle := s[me := s[me].(joining := None)];
    var r := Attempt(s, me, t);
    forall w: Tid | w < |s| && w != me && s[w].joining.Some? && s[w].joining.value < |s|
      ensures var x := r.0[s[w].joining.value];
              r.0[w].joining == s[w].joining && r.0[w].life == (if r.1.Ok? && w == t then Free else s[w].life)
              && x.waiter == Some(w) && (s[w].life == Sleeping ==> !x.detached && x.life != Free && x.life != Exited)
    {
      assert idle[w].joining == s[w].joining;
    }
  }

  lemma ResumedRegistered(s: Table, me: Tid)
    requires Inv(s) && Enabled(s, JoinGoesOn(me)) && Registered(s)
    ensures Registered(Resumed(s, me).0)
  {
    hide Attempt, Acyclic;
    NobodyWaits(s, me);
    AttemptRegistered(SetWaiter(s, s[me].joining.value, None), me, s[me].joining.value);
  }

  lemma StartsRegistered(s: Table, me: Tid, t: Tid)
    requires Inv(s) && Enabled(s, JoinStarts(me, t)) && Registered(s)
    ensures Registered(Attempt(s, me, t).0)
  {
    hide Attempt, Acyclic;
    NobodyWaits(s, me);
    AttemptRegistered(s, me, t);
  }

  lemma DetachedRegistered(s: Table, t: Tid)
    requires Inv(s) && t < |s| && Registered(s)
    ensures Registered(Detached(s, t).0)
  {
    hide Acyclic;
  }

  lemma EndedRegistered(s: Table, me: Tid, value: int)
    requires Inv(s) && Acts(s, me) && Registered(s)
    ensures Registered(Ended(s, me, value))
  {
    hide Acyclic;
  }

  /**
   A step loses a joiner exactly when pthread_create sets up a slot that somebody is still
   joining: a joiner that has been woken and has not run yet.
   */
  lemma StepRegisteredIff(s: Table, e: Event)
    requires Inv(s) && Enabled(s, e) && Registered(s)
    ensures Registered(Step(s, e)) <==> !(e.Install? && Joined(s, e.t))
  {
    hide Attempt, Inv, Resumed, Detached, Ended, Registered;
    match e {
      case Detach(me, t) => DetachedRegistered(s, t);
      case Exit(me, value) => EndedRegistered(s, me, value);
      case JoinStarts(me, t) => StartsRegistered(s, me, t);
      case JoinGoesOn(me) => ResumedRegistered(s, me);
      case Install(me, t, d) => InstalledRegistered(s, t, d);
      case Claim(me, t) => ClaimedRegistered(s, t);
      case Sleep(me) => SleepRegistered(s, me);
      case Wake(t) => WokenRegistered(s, t);
    }
  }

  lemma InstalledRegistered(s: Table, t: Tid, d: bool)
    requires Inv(s) && t < |s| && Registered(s) && s[t].life == Initial
    ensures Registered(Installed(s, t, d)) <==> !Joined(s, t)
  {
    hide Acyclic;
    if Joined(s, t) {
      var w: Tid :| w < |s| && s[w].joining == Some(t);
      assert Installed(s, t, d)[w].joining == Some(t);
    }
  }

  lemma ClaimedRegistered(s: Table, t: Tid)
    requires Inv(s) && t < |s| && Registered(s) && s[t].life == Free
    ensures Registered(Claimed(s, t))
  {
    hide Acyclic;
  }

  lemma SleepRegistered(s: Table, me: Tid)
    requires Inv(s) && Acts(s, me) && Registered(s)
    ensures Registered(s[me := s[me].(life := Sleeping)])
  {
    hide Acyclic;
  }

  lemma WokenRegistered(s: Table, t: Tid)
    requires Inv(s) && t < |s| && Registered(s) && (s[t].life == Running || s[t].life == Sleeping)
    ensures Registered(Woken(s, Some(t)))
  {
    hide Acyclic;
  }

  /** No step of the run sets up a slot that is being joined. */
  ghost predicate Careful(s: Table, es: seq<Event>)
    requires CanRun(s, es)
    decreases |es|
  {
    es == [] || (!(es[0].Install? && Joined(s, es[0].t)) && Careful(Step(s, es[0]), es[1..]))
  }

  /** In every such run the end of a thread finds whoever sleeps in its join. */
  lemma {:induction false} CarefulRunRegistered(s: Table, es: seq<Event>)
    requires Inv(s) && Registered(s) && CanRun(s, es) && Careful(s, es)
    ensures Inv(After(s, es)) && Registered(After(s, es))
    decreases |es|
  {
    hide Inv, Enabled, Step, Registered, Joined;
    if es != [] {
      StepKeeps(s, es[0]);
      StepRegisteredIff(s, es[0]);
      CarefulRunRegistered(Step(s, es[0]), es[1..]);
    }
  }

  /** n joins lead from t to u. */
  ghost predicate JoinsTo(s: Table, t: Tid, n: nat, u: Tid)
    decreases n
  {
    if n == 0 then t == u
    else t < |s| && s[t].joining.Some? && JoinsTo(s, s[t].joining.value, n - 1, u)
  }

  lemma {:induction false} JoinsBack(s: Table, t: Tid, n: nat, u: Tid)
    requires Linked(s) && Registered(s) && t < |s| && JoinsTo(s, t, n, u)
    ensures u < |s| && Reaches(s, u, n, t)
    decreases n
  {
    if n > 0 {
      var v := s[t].joining.value;
      JoinsBack(s, v, n - 1, u);
      ReachesOn(s, u, n - 1, v);
    }
  }

  /** No set of threads joins itself in a circle. */
  lemma NoJoinDeadlock(s: Table, t: Tid, n: nat)
    requires Inv(s) && Registered(s) && t < |s| && JoinsTo(s, t, n, t)
    ensures n == 0
  {
    JoinsBack(s, t, n, t);
    assert Finite(s, t);
    var i :| Ends(s, t, i);
    EndsOnce(s, t, i, n);
  }

  // ---- a joiner that is lost ----

  const ALIVE := Slot(Running, false, None, 0, None)

  /** The state after thread 0 has joined 1, 2 has detached 1, and 1 has ended. */
  function Recycling(): Table {
    [ALIVE.(joining := Some(1)), Slot(Free, true, Some(0), 5, None), ALIVE]
  }

  lemma FirstHalf() returns (es: seq<Event>)
    ensures var s := [ALIVE, ALIVE, ALIVE]; Start(s) && CanRun(s, es) && After(s, es) == Recycling()
  {
    var s0: Table := [ALIVE, ALIVE, ALIVE];
    es := [JoinStarts(0, 1), Detach(2, 1), Exit(1, 5)];
    StartInv(s0);
    var s1: Table := [Slot(Sleeping, false, None, 0, Some(1)), ALIVE.(waiter := Some(0)), ALIVE];
    var p: Table := SetWaiter(s0, 1, Some(0));
    assert Ends(p, 0, 0) && Ends(p, 1, 1);
    EndsNoCycle(p, 1, 1);
    assert Step(s0, es[0]) == s1;
    StepKeeps(s0, es[0]);
    var s2: Table := [ALIVE.(joining := Some(1)), Slot(Running, true, Some(0), 0, None), ALIVE];
    assert Step(s1, es[1]) == s2;
    StepKeeps(s1, es[1]);
    assert Step(s2, es[2]) == Recycling();
    assert CanRun(Recycling(), es[1..][1..][1..]) && CanRun(s2, es[1..][1..]) && CanRun(s1, es[1..]);
  }

  /** The state after slot 1 has been set up again and 2 has joined it. */
  function Rejoined(): Table {
    [ALIVE.(joining := Some(1)), ALIVE.(waiter := Some(2)), Slot(Sleeping, false, None, 0, Some(1))]
  }

  lemma SecondHalf() returns (es: seq<Event>)
    requires Inv(Recycling())
    ensures CanRun(Recycling(), es) && After(Recycling(), es) == Rejoined()
  {
    var s0 := Recycling();
    es := [Claim(2, 1), Install(2, 1, false), JoinStarts(2, 1)];
    var s1: Table := [s0[0], s0[1].(life := Initial), ALIVE];
    assert Step(s0, es[0]) == s1;
    StepKeeps(s0, es[0]);
    var s2: Table := [s0[0], ALIVE, ALIVE];
    assert Step(s1, es[1]) == s2;
    StepKeeps(s1, es[1]);
    var p: Table := SetWaiter(s2, 1, Some(2));
    assert Ends(p, 2, 0) && Ends(p, 1, 1);
    EndsNoCycle(p, 1, 1);
    assert Step(s2, es[2]) == Rejoined();
    assert CanRun(Rejoined(), es[1..][1..][1..]) && CanRun(s2, es[1..][1..]) && CanRun(s1, es[1..]);
  }

  /** Thread 0 goes on with the join of the thread that is gone, and the new thread ends. */
  lemma Ending() returns (es: seq<Event>)
    requires Inv(Rejoined())
    ensures CanRun(Rejoined(), es)
    ensures var s := After(Rejoined(), es);
            |s| == 3 && s[2] == Slot(Sleeping, false, None, 0, Some(1)) && s[1].life == Exited && s[1].waiter == Some(0)
  {
    var s3 := Rejoined();
    es := [JoinGoesOn(0), Exit(1, 7)];
    var s4 := Overwritten(s3);
    assert Step(s3, es[0]) == s4;
    StepKeeps(s3, es[0]);
    var s5: Table := [s3[0], Slot(Exited, false, Some(0), 7, None), s3[2]];
    assert Step(s4, es[1]) == s5;
    assert CanRun(s5, es[1..][1..]) && CanRun(s4, es[1..]);
  }

  /** Thread 0 takes the pointer that names 2 for its own. */
  lemma Overwritten(s: Table) returns (r: Table)
    requires s == [ALIVE.(joining := Some(1)), ALIVE.(waiter := Some(2)), Slot(Sleeping, false, None, 0, Some(1))]
    ensures r == [Slot(Sleeping, false, None, 0, Some(1)), ALIVE.(waiter := Some(0)), s[2]]
    ensures Resumed(s, 0).0 == r
  {
    r := [Slot(Sleeping, false, None, 0, Some(1)), ALIVE.(waiter := Some(0)), s[2]];
    var c := SetWaiter(s, 1, None);
    var p := SetWaiter(c, 1, Some(0));
    assert Ends(p, 0, 0) && Ends(p, 1, 1);
    EndsNoCycle(p, 1, 1);
  }

  lemma {:induction false} RunOn(s: Table, es: seq<Event>, fs: seq<Event>)
    requires CanRun(s, es) && CanRun(After(s, es), fs)
    ensures CanRun(s, es + fs) && After(s, es + fs) == After(After(s, es), fs)
    decreases |es|
  {
    hide Inv, Enabled, Step;
    if es == [] {
      assert es + fs == fs;
    } else {
      assert (es + fs)[1..] == es[1..] + fs;
      RunOn(Step(s, es[0]), es[1..], fs);
    }
  }

  /** Three threads are enough to lose a joiner: it sleeps in the join of a thread that has ended without waking it. */
  lemma JoinerCanBeLost() returns (s: Table, es: seq<Event>)
    ensures Start(s) && CanRun(s, es)
    ensures var r := After(s, es);
            exists t: Tid, w: Tid :: t < |r| && w < |r| && r[w].life == Sleeping && r[w].joining == Some(t) && r[t].life == Exited && r[t].waiter != Some(w)
  {
    hide CanRun, After, Recycling, Rejoined;
    s := [ALIVE, ALIVE, ALIVE];
    es := FirstHalf();
    StartInv(s);
    RunKeeps(s, es);
    var fs := SecondHalf();
    RunOn(s, es, fs);
    RunKeeps(s, es + fs);
    var gs := Ending();
    RunOn(s, es + fs, gs);
    es := es + fs + gs;
    var r := After(s, es);
    assert r[2].joining == Some(1);
  }

  // ---- what a join returns ----

  /** The outcome of a join pass, a detach, or nothing. */
  ghost function Result(s: Table, e: Event): Option<Outcome>
    requires Inv(s) && Enabled(s, e)
  {
    match e
    case JoinStarts(me, t) => Some(Attempt(s, me, t).1)
    case JoinGoesOn(me) => Some(Resumed(s, me).1)
    case Detach(me, t) => Some(Detached(s, t).1)
    case _ => None
  }

  /** The thread that a join pass or a detach is about. */
  function Subject(s: Table, e: Event): Option<Tid> {
    match e
    case JoinStarts(me, t) => Some(t)
    case JoinGoesOn(me) => if me < |s| then s[me].joining else None
    case Detach(me, t) => Some(t)
    case _ => None
  }

  /** Which answer a join pass gives: whether the thread has ended, is gone, cannot be joined, or would wait for the caller. */
  lemma JoinAnswers(s: Table, me: Tid, t: Tid)
    requires Inv(s) && Enabled(s, JoinStarts(me, t))
    ensures var x, r := s[t], Attempt(s, me, t).1;
            && (r.Ok? <==> x.life == Exited) && (r.Ok? ==> r.retval == x.retval)
            && (r == ESRCH <==> x.life == Free)
            && (r == EINVAL <==> (x.life != Exited && x.life != Free && (x.detached || x.waiter.Some?)))
            && (r == EDEADLK <==> x.life != Exited && x.life != Free && !x.detached && x.waiter == None && OnCycle(SetWaiter(s, t, Some(me)), t))
            && (me == t && !x.detached && x.waiter == None ==> r == EDEADLK)
  {
    if me == t && !s[t].detached && s[t].waiter == None {
      var p := SetWaiter(s, t, Some(me));
      assert Reaches(p, t, 0, t);
      assert Reaches(p, t, 1, t);
    }
  }

  /** A detach succeeds exactly on a thread that has ended or that lives and is not detached yet. */
  lemma DetachAnswers(s: Table, t: Tid)
    requires t < |s|
    ensures var x, r := s[t], Detached(s, t).1;
            && (r.Ok? <==> x.life == Exited || ((x.life == Running || x.life == Sleeping) && !x.detached))
            && (r == ESRCH <==> x.life == Free || x.life == Initial)
            && (r == EINVAL <==> (x.life == Running || x.life == Sleeping) && x.detached)
            && (!r.Ok? ==> Detached(s, t).0 == s)
  {}

  /** The step takes notice of the end of t: its slot is free afterwards. */
  ghost predicate Collects(s: Table, e: Event, t: Tid)
    requires Inv(s) && Enabled(s, e)
  {
    t < |s| && s[t].life == Exited && Subject(s, e) == Some(t)
  }

  /** t ends and leaves its value behind. */
  ghost predicate LeavesValue(s: Table, e: Event, t: Tid) {
    e.Exit? && e.me == t && t < |s| && !s[t].detached
  }

  lemma AttemptLives(s: Table, me: Tid, t: Tid, u: Tid)
    requires me < |s| && t < |s| && u < |s| && s[me].life == Running
    ensures var s' := Attempt(s, me, t).0;
            && |s'| == |s| && s'[u].retval == s[u].retval
            && (s'[u].life == Exited <==> s[u].life == Exited && u != t)
            && (Attempt(s, me, t).1.Ok? <==> s[t].life == Exited) && (Attempt(s, me, t).1.Ok? ==> Attempt(s, me, t).1.retval == s[t].retval)
  {
    hide OnCycle;
  }

  lemma WakingLives(s: Table, e: Event, u: Tid)
    requires Inv(s) && Enabled(s, e) && u < |s| && (e.Detach? || e.Exit?)
    ensures var s' := Step(s, e);
            && |s'| == |s|
            && (s'[u].life == Exited <==> (s[u].life == Exited && !Collects(s, e, u)) || LeavesValue(s, e, u))
            && (s'[u].life == Exited ==> s'[u].retval == if LeavesValue(s, e, u) then e.value else s[u].retval)
  {
    hide Acyclic;
  }

  /** A thread is in the ended state exactly from its end until a join or a detach takes notice of it, and keeps its value. */
  lemma EndedUntilCollected(s: Table, e: Event, u: Tid)
    requires Inv(s) && Enabled(s, e) && u < |s|
    ensures var s' := Step(s, e);
            && |s'| == |s|
            && (s'[u].life == Exited <==> (s[u].life == Exited && !Collects(s, e, u)) || LeavesValue(s, e, u))
            && (s'[u].life == Exited ==> s'[u].retval == if LeavesValue(s, e, u) then e.value else s[u].retval)
  {
    hide Attempt, Acyclic, Detached, Ended;
    match e {
      case JoinStarts(me, t) => AttemptLives(s, me, t, u);
      case JoinGoesOn(me) => AttemptLives(SetWaiter(s, s[me].joining.value, None), me, s[me].joining.value, u);
      case Detach(me, t) => WakingLives(s, e, u);
      case Exit(me, value) => WakingLives(s, e, u);
      case _ =>
    }
  }

  /** If t has ended at the end of a run, it ended in the run with that value, or before it, and its slot was not used again since. */
  lemma {:induction false} LastEnd(s: Table, es: seq<Event>, t: Tid) returns (i: nat)
    requires Inv(s) && CanRun(s, es) && t < |s| && t < |After(s, es)| && After(s, es)[t].life == Exited
    ensures i <= |es|
    ensures i < |es| ==> es[i] == Exit(t, After(s, es)[t].retval)
    ensures i == |es| ==> s[t].life == Exited && s[t].retval == After(s, es)[t].retval
    ensures forall j :: (if i < |es| then i + 1 else 0) <= j < |es| ==> !(es[j].Exit? && es[j].me == t) && !(es[j].Install? && es[j].t == t)
    decreases |es|
  {
    hide Inv, Step;
    i := 0;
    if es != [] {
      var e, s1, rest := es[0], Step(s, es[0]), es[1..];
      StepKeeps(s, e);
      EndedUntilCollected(s, e, t);
      i := LastEnd(s1, rest, t);
      if i < |rest| {
        i := i + 1;
      } else if LeavesValue(s, e, t) {
        i := 0;
      } else {
        i := |es|;
      }
    }
  }

  /** A join returns the value that the thread ended with: that of its last end, since when its slot was not used again. */
  lemma JoinReturnsLastValue(s: Table, es: seq<Event>, e: Event, t: Tid, v: int) returns (i: nat)
    requires Start(s) && (forall u: Tid :: u < |s| ==> s[u].life != Exited)
    requires CanRun(s, es) && Inv(After(s, es)) && Enabled(After(s, es), e) && (e.JoinStarts? || e.JoinGoesOn?)
    requires Subject(After(s, es), e) == Some(t) && t < |s| == |After(s, es)| && Result(After(s, es), e) == Some(Ok(v))
    ensures i < |es| && es[i] == Exit(t, v)
    ensures forall j :: i < j < |es| ==> !(es[j].Exit? && es[j].me == t) && !(es[j].Install? && es[j].t == t)
  {
    hide CanRun, After, Attempt, Acyclic;
    StartInv(s);
    var r := After(s, es);
    if e.JoinStarts? {
      AttemptLives(r, e.me, t, t);
    } else {
      AttemptLives(SetWaiter(r, t, None), e.me, t, t);
    }
    i := LastEnd(s, es, t);
  }

  /** How often t ends with a value in a run, and how often that is taken notice of. */
  ghost function EndsIn(s: Table, es: seq<Event>, t: Tid): int
    requires CanRun(s, es)
    decreases |es|
  {
    if es == [] then 0 else (if LeavesValue(s, es[0], t) then 1 else 0) + EndsIn(Step(s, es[0]), es[1..], t)
  }

  ghost function CollectedIn(s: Table, es: seq<Event>, t: Tid): int
    requires CanRun(s, es)
    decreases |es|
  {
    if es == [] then 0 else (if Collects(s, es[0], t) then 1 else 0) + CollectedIn(Step(s, es[0]), es[1..], t)
  }

  /** Every end is taken notice of once, by a join or a detach, except that the last may still wait for it. */
  lemma {:induction false} EndsAreCollectedOnce(s: Table, es: seq<Event>, t: Tid)
    requires Inv(s) && CanRun(s, es) && t < |s|
    ensures t < |After(s, es)|
    ensures EndsIn(s, es, t) + (if s[t].life == Exited then 1 else 0) == CollectedIn(s, es, t) + (if After(s, es)[t].life == Exited then 1 else 0)
    decreases |es|
  {
    hide Inv, Step;
    if es != [] {
      StepKeeps(s, es[0]);
      EndedUntilCollected(s, es[0], t);
      if LeavesValue(s, es[0], t) { ActsAlive(s, es[0], t); }
      EndsAreCollectedOnce(Step(s, es[0]), es[1..], t);
    }
  }

  lemma ActsAlive(s: Table, e: Event, t: Tid)
    requires Inv(s) && Enabled(s, e) && LeavesValue(s, e, t)
    ensures s[t].life == Running && !Collects(s, e, t)
  {}

  // ---- the code ----

  /** pthreads[], as far as join, detach, exit and create use it. */
  class ThreadTable {
    const slot: array<Slot>

    constructor (n: nat)
      ensures fresh(slot) && slot.Length == n && Start(slot[..]) && forall t: Tid :: t < n ==> slot[t].life == Free
    {
      slot := new Slot[n](_ => Slot(Free, false, None, 0, None));
    }

    /** has_loop, just after the pointer of t has been set in a graph without cycles. */
    method HasLoop(t: Tid, ghost before: Table) returns (r: bool)
      requires Acyclic(before) && t < |before| == slot.Length && before[t].waiter == None
      requires slot[t].waiter.Some? && slot[t].waiter.value < |before| && slot[..] == SetWaiter(before, t, slot[t].waiter)
      ensures r <==> OnCycle(slot[..], t)
    {
      ghost var s := slot[..];
      var i := slot[t].waiter;
      assert Finite(before, i.value);
      ghost var n: nat :| Ends(before, i.value, n);
      ghost var k: nat := 1;
      assert Reaches(s, i.value, 0, i.value);
      assert Reaches(s, t, 1, i.value);
      while i.Some?
        invariant i.Some? ==> Ends(before, i.value, n) && Reaches(s, t, k, i.value) && k > 0
        invariant i == None ==> exists u: Tid :: Reaches(s, t, k, u) && Ends(s, u, 0)
        decreases i.Some?, n
      {
        if i.value == t {
          return true;
        }
        if slot[i.value].waiter.Some? {
          ReachesOn(s, t, k, i.value);
          n := n - 1;
          k := k + 1;
        } else {
          assert Ends(s, i.value, 0);
        }
        i := slot[i.value].waiter;
      }
      ghost var u: Tid :| Reaches(s, t, k, u) && Ends(s, u, 0);
      EndsBefore(s, t, k, u, 0);
      EndsNoCycle(s, t, k);
      return false;
    }

    /** One pass of pthread_join by thread me. */
    method PthreadJoin(me: Tid, t: Tid) returns (ret: Outcome)
      requires Acyclic(slot[..]) && me < slot.Length && t < slot.Length
      modifies slot
      ensures (slot[..], ret) == Attempt(old(slot[..]), me, t)
    {
      ghost var s := slot[..];
      slot[me] := slot[me].(joining := None);
      if slot[t].life == Exited {
        slot[t] := slot[t].(life := Free);
        ret := Ok(slot[t].retval);
      } else if slot[t].life == Free {
        ret := ESRCH;
      } else if slot[t].detached || slot[t].waiter.Some? {
        ret := EINVAL;
      } else {
        ghost var before := slot[..];
        slot[t] := slot[t].(waiter := Some(me));
        AcyclicCleared(s, before, me);
        SameCycle(SetWaiter(s, t, Some(me)), slot[..], t);
        var loop := HasLoop(t, before);
        if loop {
          slot[t] := slot[t].(waiter := None);
          assert slot[..] == before;
          ret := EDEADLK;
        } else {
          slot[me] := slot[me].(life := Sleeping, joining := Some(t));
          ret := Asleep;
        }
      }
      assert slot[..] == Attempt(s, me, t).0;
    }

    /** What pthread_join does when it comes back from its sleep. */
    method JoinResumes(me: Tid) returns (ret: Outcome)
      requires Inv(slot[..]) && Enabled(slot[..], JoinGoesOn(me))
      modifies slot
      ensures (slot[..], ret) == Resumed(old(slot[..]), me)
    {
      ghost var s := slot[..];
      var t := slot[me].joining.value;
      slot[t] := slot[t].(waiter := None);
      assert slot[..] == SetWaiter(s, t, None);
      AcyclicCleared(s, slot[..], t);
      ret := PthreadJoin(me, t);
    }

    method PthreadDetach(t: Tid) returns (ret: Outcome)
      requires t < slot.Length && Linked(slot[..])
      modifies slot
      ensures (slot[..], ret) == Detached(old(slot[..]), t)
    {
      match slot[t].life {
        case Free => ret := ESRCH;
        case Initial => ret := ESRCH;
        case Exited =>
          slot[t] := slot[t].(life := Free);
          ret := Ok(0);
        case _ =>
          if slot[t].detached {
            ret := EINVAL;
          } else {
            slot[t] := slot[t].(detached := true);
            if slot[t].waiter.Some? {
              slot[slot[t].waiter.value] := slot[slot[t].waiter.value].(life := Running);
            }
            ret := Ok(0);
          }
      }
    }

    method PthreadExit(me: Tid, value: int)
      requires me < slot.Length && Linked(slot[..])
      modifies slot
      ensures slot[..] == Ended(old(slot[..]), me, value)
    {
      slot[me] := slot[me].(retval := value);
      if slot[me].detached {
        slot[me] := slot[me].(life := Free);
      } else {
        slot[me] := slot[me].(life := Exited);
        if slot[me].waiter.Some? {
          slot[slot[me].waiter.value] := slot[slot[me].waiter.value].(life := Running);
        }
      }
    }

    /** The search of pthread_create: the first free slot is claimed; None is EAGAIN. */
    method ClaimSlot() returns (r: Option<Tid>)
      modifies slot
      ensures r == None <==> forall t: Tid :: t < slot.Length ==> old(slot[t]).life != Free
      ensures r == None ==> slot[..] == old(slot[..])
      ensures r.Some? ==>
                && r.value < slot.Length && old(slot[..])[r.value].life == Free && slot[..] == Claimed(old(slot[..]), r.value)
                && forall t: Tid :: t < r.value ==> old(slot[t]).life != Free
    {
      var i := 0;
      while i < slot.Length && slot[i].life != Free
        invariant i <= slot.Length && forall t: Tid :: t < i ==> slot[t].life != Free
      {
        i := i + 1;
      }
      if i == slot.Length {
        return None;
      }
      slot[i] := slot[i].(life := Initial);
      return Some(i);
    }
  }
}
