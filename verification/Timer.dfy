/** The timer queue of kernel/timer.c: an array heap whose timers know their own index. */
module Timer {
  import opened Seqs

  type Id = nat

  const WORD: nat := 0x1_0000_0000
  const HALF: nat := 0x8000_0000
  const CAPACITY: nat := 32
  const INVALID_INDEX: nat := 0xFFFF_FFFF

  // ---- comparing ticks that wrap around ----

  /** time_after: the difference, as a signed 32-bit number, is negative. */
  predicate TimeAfter(a: nat, b: nat) {
    (b - a) % WORD >= HALF
  }

  lemma ModOfDifference(a: nat, b: nat)
    ensures (b % WORD - a % WORD) % WORD == (b - a) % WORD
  {
    var q := b / WORD - a / WORD;
    assert b - a == (b % WORD - a % WORD) + q * WORD;
    ModShift(b % WORD - a % WORD, q);
  }

  lemma ModShift(x: int, q: int)
    ensures (x + q * WORD) % WORD == x % WORD
  {
    var r := (x + q * WORD) % WORD;
    var d := (x + q * WORD) / WORD - x / WORD - q;
    assert r - x % WORD == -d * WORD;
  }

  /** The wrapped comparison is the true one as long as the two times are less than half the range apart. */
  lemma AfterIsLater(a: nat, b: nat)
    requires a <= b + HALF && b < a + HALF
    ensures TimeAfter(a % WORD, b % WORD) <==> a > b
  {
    ModOfDifference(a, b);
    if a > b {
      ModShift(b - a, 1);
    }
  }

  /** The bound is sharp: a time more than half the range ahead looks like the past. */
  lemma TooFarLooksPast(now: nat, d: nat)
    requires d < WORD
    ensures TimeAfter((now + d) % WORD, now % WORD) <==> 0 < d <= HALF
  {
    ModOfDifference(now + d, now);
    if d > 0 {
      ModShift(0 - d, 1);
    }
  }

  // ---- heap order ----

  function Parent(i: nat): nat
    requires i > 0
  {
    (i - 1) / 2
  }

  ghost predicate Known(h: seq<Id>, due: map<Id, nat>) {
    forall k :: 0 <= k < |h| ==> h[k] in due
  }

  /** The pair of a place and its parent is in order. */
  ghost predicate Above(h: seq<Id>, due: map<Id, nat>, j: nat)
    requires Known(h, due) && 0 < j < |h|
  {
    due[h[Parent(j)]] <= due[h[j]]
  }

  ghost predicate Ordered(h: seq<Id>, due: map<Id, nat>)
    requires Known(h, due)
  {
    forall j: nat :: 0 < j < |h| ==> Above(h, due, j)
  }

  /** Below place i the timers are no earlier than the parent of i. */
  ghost predicate Skips(h: seq<Id>, due: map<Id, nat>, i: nat)
    requires Known(h, due)
  {
    0 < i < |h| ==> forall j: nat :: 0 < j < |h| && Parent(j) == i ==> due[h[Parent(i)]] <= due[h[j]]
  }

  /** In order, except that the timer at i may be too early for its parent. */
  ghost predicate Rising(h: seq<Id>, due: map<Id, nat>, i: nat)
    requires Known(h, due)
  {
    Skips(h, due, i) && forall j: nat :: 0 < j < |h| && j != i ==> Above(h, due, j)
  }

  /** In order, except that the timer at i may be too late for its children. */
  ghost predicate Sinking(h: seq<Id>, due: map<Id, nat>, i: nat)
    requires Known(h, due)
  {
    Skips(h, due, i) && forall j: nat :: 0 < j < |h| && Parent(j) != i ==> Above(h, due, j)
  }

  /** The root of a heap is due first. */
  lemma {:induction false} RootIsFirst(h: seq<Id>, due: map<Id, nat>, k: nat)
    requires Known(h, due) && Ordered(h, due) && k < |h|
    ensures due[h[0]] <= due[h[k]]
    decreases k
  {
    if k > 0 {
      assert Above(h, due, k);
      RootIsFirst(h, due, Parent(k));
    }
  }

  function Swapped(h: seq<Id>, i: nat, j: nat): seq<Id>
    requires i < |h| && j < |h|
  {
    h[i := h[j]][j := h[i]]
  }

  lemma SwapUp(h: seq<Id>, due: map<Id, nat>, i: nat)
    requires Known(h, due) && Rising(h, due, i) && 0 < i < |h| && due[h[i]] < due[h[Parent(i)]]
    ensures var g := Swapped(h, i, Parent(i)); Known(g, due) && Rising(g, due, Parent(i))
  {
    var p := Parent(i);
    var g := Swapped(h, i, p);
    forall j: nat | 0 < j < |g| && j != p ensures Above(g, due, j) {
      if j != i { assert Above(h, due, j); }
    }
    if p > 0 {
      assert Above(h, due, p);
      forall j: nat | 0 < j < |g| && Parent(j) == p ensures due[g[Parent(p)]] <= due[g[j]] {
        if j != i { assert Above(h, due, j); }
      }
    }
  }

  lemma SwapDown(h: seq<Id>, due: map<Id, nat>, i: nat, c: nat)
    requires Known(h, due) && Sinking(h, due, i) && i < c < |h| && Parent(c) == i && due[h[c]] < due[h[i]]
    requires forall j: nat :: 0 < j < |h| && Parent(j) == i ==> due[h[c]] <= due[h[j]]
    ensures var g := Swapped(h, i, c); Known(g, due) && Sinking(g, due, c)
  {
    var g := Swapped(h, i, c);
    forall j: nat | 0 < j < |g| && Parent(j) != c ensures Above(g, due, j) {
      if j != i && Parent(j) != i { assert Above(h, due, j); }
    }
    forall j: nat | 0 < j < |g| && Parent(j) == c ensures due[g[Parent(c)]] <= due[g[j]] {
      assert Above(h, due, j);
    }
  }

  lemma SwapKeepsAll(h: seq<Id>, i: nat, j: nat)
    requires i < |h| && j < |h|
    ensures multiset(Swapped(h, i, j)) == multiset(h)
  {}

  /** What the queue stores in a struct timer. */
  datatype Timer = Timer(expires: nat, i: nat)

  /** All times in h are less than half the range apart. */
  ghost predicate Close(h: seq<Id>, due: map<Id, nat>)
    requires Known(h, due)
  {
    forall j, k :: 0 <= j < |h| && 0 <= k < |h| ==> due[h[j]] < due[h[k]] + HALF
  }

  /** Every timer in the heap knows its place, and its expiry is its due time, wrapped. */
  ghost predicate Placed(h: seq<Id>, timer: map<Id, Timer>, due: map<Id, nat>) {
    Known(h, due) && forall k :: 0 <= k < |h| ==> h[k] in timer && timer[h[k]].i == k && timer[h[k]].expires == due[h[k]] % WORD
  }

  /** Only the places of timers in m may differ. */
  ghost predicate Untouched(m: multiset<Id>, timer: map<Id, Timer>, timer': map<Id, Timer>) {
    && timer'.Keys == timer.Keys
    && forall x :: x in timer ==> timer'[x].expires == timer[x].expires && (x !in m ==> timer'[x] == timer[x])
  }

  lemma StillUntouched(m: multiset<Id>, a: map<Id, Timer>, b: map<Id, Timer>, c: map<Id, Timer>)
    requires Untouched(m, a, b) && Untouched(m, b, c)
    ensures Untouched(m, a, c)
  {}

  /** Comparing two stored timers is comparing when they are due. */
  lemma Compared(h: seq<Id>, timer: map<Id, Timer>, due: map<Id, nat>, j: nat, k: nat)
    requires Placed(h, timer, due) && Close(h, due) && j < |h| && k < |h|
    ensures h[j] in timer && h[k] in timer && h[j] in due && h[k] in due
    ensures TimeAfter(timer[h[j]].expires, timer[h[k]].expires) <==> due[h[j]] > due[h[k]]
  {
    AfterIsLater(due[h[j]], due[h[k]]);
  }

  lemma Risen(h: seq<Id>, due: map<Id, nat>, i: nat)
    requires Known(h, due) && i < |h| && Rising(h, due, i) && (i == 0 || due[h[Parent(i)]] <= due[h[i]])
    ensures Ordered(h, due)
  {}

  lemma UntouchedYet(m: multiset<Id>, timer: map<Id, Timer>)
    ensures Untouched(m, timer, timer)
  {}

  lemma Sunk(h: seq<Id>, due: map<Id, nat>, i: nat)
    requires Known(h, due) && i < |h| && Sinking(h, due, i)
    requires forall j: nat :: 0 < j < |h| && (j == 2 * i + 1 || j == 2 * i + 2) ==> due[h[i]] <= due[h[j]]
    ensures Ordered(h, due)
  {
    forall j: nat | 0 < j < |h| ensures Above(h, due, j) {
      Children(i, j);
    }
  }

  lemma Children(i: nat, j: nat)
    requires j > 0
    ensures Parent(j) == i <==> j == 2 * i + 1 || j == 2 * i + 2
  {}

  /** In order, except that the timer at i may be misplaced either way. */
  ghost predicate Loose(h: seq<Id>, due: map<Id, nat>, i: nat)
    requires Known(h, due)
  {
    Skips(h, due, i) && forall j: nat :: 0 < j < |h| && j != i && Parent(j) != i ==> Above(h, due, j)
  }

  lemma LooseRises(h: seq<Id>, due: map<Id, nat>, i: nat)
    requires Known(h, due) && 0 < i < |h| && Loose(h, due, i) && due[h[Parent(i)]] > due[h[i]]
    ensures Rising(h, due, i)
  {}

  lemma LooseSinks(h: seq<Id>, due: map<Id, nat>, i: nat)
    requires Known(h, due) && i < |h| && Loose(h, due, i) && (i == 0 || due[h[Parent(i)]] <= due[h[i]])
    ensures Sinking(h, due, i)
  {}

  /** The heap once the last timer has taken place i. */
  function Refilled(h: seq<Id>, i: nat): seq<Id>
    requires i < |h|
  {
    h[i := h[|h| - 1]][..|h| - 1]
  }

  lemma RefilledLoose(h: seq<Id>, due: map<Id, nat>, i: nat)
    requires Known(h, due) && Ordered(h, due) && i < |h|
    ensures Known(Refilled(h, i), due) && Loose(Refilled(h, i), due, i)
  {
    var g := Refilled(h, i);
    forall j: nat | 0 < j < |g| && j != i && Parent(j) != i ensures Above(g, due, j) {
      assert Above(h, due, j);
    }
    if 0 < i < |g| {
      assert Above(h, due, i);
      forall j: nat | 0 < j < |g| && Parent(j) == i ensures due[g[Parent(i)]] <= due[g[j]] {
        assert Above(h, due, j);
      }
    }
  }

  lemma CancelSum(a: multiset<Id>, b: multiset<Id>, c: multiset<Id>)
    requires a + c == b + c
    ensures a == b
  {
    forall x ensures a[x] == b[x] {
      assert (a + c)[x] == (b + c)[x];
    }
  }

  lemma RefilledLacks(h: seq<Id>, i: nat)
    requires i < |h|
    ensures multiset(Refilled(h, i)) == multiset(h) - multiset{h[i]}
  {
    var g := h[i := h[|h| - 1]];
    assert g == g[..|h| - 1] + [g[|h| - 1]];
    assert multiset(g) == multiset(Refilled(h, i)) + multiset{h[|h| - 1]};
    assert multiset(g) == multiset(h) - multiset{h[i]} + multiset{h[|h| - 1]};
    CancelSum(multiset(Refilled(h, i)), multiset(h) - multiset{h[i]}, multiset{h[|h| - 1]});
  }

  lemma RefilledClose(h: seq<Id>, due: map<Id, nat>, i: nat)
    requires Known(h, due) && Close(h, due) && i < |h|
    ensures Known(Refilled(h, i), due) && Close(Refilled(h, i), due)
  {
    var g := Refilled(h, i);
    forall j, k | 0 <= j < |g| && 0 <= k < |g| ensures due[g[j]] < due[g[k]] + HALF {
      var j' := if j == i then |h| - 1 else j;
      var k' := if k == i then |h| - 1 else k;
      assert due[h[j']] < due[h[k']] + HALF;
    }
  }

  lemma RefilledPlaced(h: seq<Id>, timer: map<Id, Timer>, due: map<Id, nat>, i: nat)
    requires Placed(h, timer, due) && i < |h|
    ensures Placed(Refilled(h, i), if i == |h| - 1 then timer else timer[h[|h| - 1] := timer[h[|h| - 1]].(i := i)], due)
  {
    var g := Refilled(h, i);
    forall k | 0 <= k < |g| ensures g[k] == if k == i then h[|h| - 1] else h[k] {}
  }

  lemma {:induction false} Counted(h: seq<Id>, timer: map<Id, Timer>, due: map<Id, nat>, i: nat)
    requires Placed(h, timer, due) && i < |h|
    ensures multiset(h)[h[i]] == 1
  {
    assert h == h[..i] + [h[i]] + h[i + 1..];
    assert h[i] !in h[..i] && h[i] !in h[i + 1..];
  }

  lemma PlacedWithout(g: seq<Id>, timer: map<Id, Timer>, due: map<Id, nat>, x: Id, i: nat)
    requires Placed(g, timer, due) && x in timer && x !in g
    ensures Placed(g, timer[x := timer[x].(i := i)], due)
  {}

  lemma UntouchedAt(m: multiset<Id>, timer: map<Id, Timer>, timer': map<Id, Timer>, x: Id, i: nat)
    requires Untouched(m, timer, timer') && x in m && x in timer'
    ensures Untouched(m, timer, timer'[x := timer'[x].(i := i)])
  {}

  lemma SameKeys(m: multiset<Id>, timer: map<Id, Timer>, timer': map<Id, Timer>)
    requires Untouched(m, timer, timer')
    ensures timer'.Keys == timer.Keys
  {}

  lemma UntouchedMore(m: multiset<Id>, m': multiset<Id>, timer: map<Id, Timer>, timer': map<Id, Timer>)
    requires Untouched(m, timer, timer') && m <= m'
    ensures Untouched(m', timer, timer')
  {}

  lemma SwapPlaced(h: seq<Id>, timer: map<Id, Timer>, due: map<Id, nat>, i: nat, j: nat)
    requires Placed(h, timer, due) && i < |h| && j < |h| && i != j
    ensures h[i] in timer && h[j] in timer && h[i] != h[j]
    ensures var timer' := timer[h[j] := timer[h[j]].(i := i)][h[i] := timer[h[i]].(i := j)];
            Placed(Swapped(h, i, j), timer', due) && Untouched(multiset(h), timer, timer')
  {}

  lemma SwapClose(h: seq<Id>, due: map<Id, nat>, i: nat, j: nat)
    requires Known(h, due) && Close(h, due) && i < |h| && j < |h|
    ensures Known(Swapped(h, i, j), due) && Close(Swapped(h, i, j), due)
  {}

  // ---- what the queue is for ----

  /** The tick count without wrap-around, and when each pending timer is due. */
  datatype Clock = Clock(now: nat, queue: map<Id, nat>)

  ghost function DueOf(h: seq<Id>, due: map<Id, nat>): map<Id, nat>
    requires Known(h, due)
  {
    map x | x in h :: due[x]
  }

  /** The timers that go off at the next tick. */
  ghost function Expired(c: Clock): set<Id> {
    set x | x in c.queue && c.queue[x] <= c.now + 1
  }

  ghost function Ticked(c: Clock): Clock {
    Clock(c.now + 1, c.queue - Expired(c))
  }

  /** fired lists exactly the expired timers, each once, the earlier due first. */
  ghost predicate FiresInOrder(c: Clock, fired: seq<Id>) {
    && multiset(fired) == multiset(Expired(c))
    && forall j, k :: 0 <= j < k < |fired| && fired[j] in c.queue && fired[k] in c.queue ==> c.queue[fired[j]] <= c.queue[fired[k]]
  }

  /** Every pending timer is due now or later, by less than half the range. */
  ghost predicate Timely(h: seq<Id>, due: map<Id, nat>, now: nat) {
    Known(h, due) && forall x :: x in h ==> now <= due[x] < now + HALF
  }

  lemma TimelyClose(h: seq<Id>, due: map<Id, nat>, now: nat)
    requires Timely(h, due, now)
    ensures Close(h, due)
  {}

  /** A timer outside the heap is marked as such. */
  ghost predicate Marked(h: seq<Id>, timer: map<Id, Timer>) {
    forall x :: x in timer && x !in h ==> timer[x].i == INVALID_INDEX
  }

  lemma Appended(h: seq<Id>, timer: map<Id, Timer>, due: map<Id, nat>, now: nat, x: Id, at: nat)
    requires Placed(h, timer, due) && Ordered(h, due) && Timely(h, due, now) && Marked(h, timer) && x !in h && now <= at < now + HALF
    ensures var h', due' := h + [x], due[x := at];
            && Known(h', due') && Rising(h', due', |h|) && Timely(h', due', now)
            && Placed(h', timer[x := Timer(at % WORD, |h|)], due') && Marked(h', timer[x := Timer(at % WORD, |h|)])
            && DueOf(h', due') == DueOf(h, due)[x := at]
  {
    var h', due' := h + [x], due[x := at];
    forall j: nat | 0 < j < |h'| && j != |h| ensures Above(h', due', j) {
      assert Above(h, due, j);
    }
  }

  /** What a change of places keeps. */
  lemma Rearranged(h: seq<Id>, h': seq<Id>, due: map<Id, nat>, now: nat, timer: map<Id, Timer>, timer': map<Id, Timer>)
    requires multiset(h') == multiset(h) && Timely(h, due, now) && Marked(h, timer) && Untouched(multiset(h), timer, timer')
    ensures Timely(h', due, now) && Marked(h', timer') && DueOf(h', due) == DueOf(h, due)
  {
    SameMembers(h, h');
    forall k | 0 <= k < |h'| ensures h'[k] in due { assert h'[k] in h; }
  }

  lemma SameMembers(h: seq<Id>, h': seq<Id>)
    requires multiset(h') == multiset(h)
    ensures forall x :: x in h <==> x in h'
  {
    forall x ensures x in h <==> x in h' {
      assert x in h <==> x in multiset(h);
      assert x in h' <==> x in multiset(h');
    }
  }

  lemma UntouchedMarks(h: seq<Id>, timer: map<Id, Timer>, timer': map<Id, Timer>)
    requires Marked(h, timer) && Untouched(multiset(h), timer, timer')
    ensures Marked(h, timer')
  {}

  lemma Removed(h: seq<Id>, h': seq<Id>, due: map<Id, nat>, timer: map<Id, Timer>, timer': map<Id, Timer>, x: Id)
    requires Known(h, due) && multiset(h') == multiset(h) - multiset{x} && x !in h' && Marked(h, timer) && Untouched(multiset(h), timer, timer')
    requires x in timer' && timer'[x].i == INVALID_INDEX
    ensures forall y :: y in h' <==> y in h && y != x
    ensures Known(h', due) && DueOf(h', due) == DueOf(h, due) - {x} && Marked(h', timer')
  {
    hide Untouched;
    UntouchedMarks(h, timer, timer');
    forall y ensures y in h' <==> y in h && y != x {
      assert y in h <==> y in multiset(h);
      assert y in h' <==> y in multiset(h');
    }
    forall k | 0 <= k < |h'| ensures h'[k] in due { assert h'[k] in h; }
  }

  /** Part of the way through a tick: fired have gone off, h are still pending. */
  ghost predicate Draining(h0: seq<Id>, h: seq<Id>, fired: seq<Id>, due: map<Id, nat>, now: nat)
    requires Known(h0, due)
  {
    && Known(h, due) && Known(fired, due)
    && multiset(fired) + multiset(h) == multiset(h0)
    && (forall f :: f in fired ==> due[f] <= now)
    && (forall f, y :: f in fired && y in h ==> due[f] <= due[y])
    && (forall j, k :: 0 <= j < k < |fired| ==> due[fired[j]] <= due[fired[k]])
  }

  lemma DrainOne(h0: seq<Id>, h: seq<Id>, fired: seq<Id>, h': seq<Id>, due: map<Id, nat>, now: nat)
    requires Known(h0, due) && Draining(h0, h, fired, due, now) && |h| > 0 && due[h[0]] <= now
    requires Ordered(h, due) && Known(h', due) && multiset(h') == multiset(h) - multiset{h[0]} && forall y :: y in h' ==> y in h
    ensures Draining(h0, h', fired + [h[0]], due, now)
  {
    var fired' := fired + [h[0]];
    forall y | y in h' ensures due[h[0]] <= due[y] {
      var k: nat :| k < |h| && h[k] == y;
      RootIsFirst(h, due, k);
    }
    assert h[0] in multiset(h);
    assert multiset(fired') == multiset(fired) + multiset{h[0]};
    forall j, k | 0 <= j < k < |fired'| ensures due[fired'[j]] <= due[fired'[k]] {
      assert fired'[j] == fired[j];
      assert fired[j] in fired && h[0] in h;
    }
  }

  lemma Drained(h0: seq<Id>, timer: map<Id, Timer>, h: seq<Id>, fired: seq<Id>, due: map<Id, nat>, now: nat)
    requires Placed(h0, timer, due) && Draining(h0, h, fired, due, now + 1) && forall y :: y in h ==> due[y] > now + 1
    ensures var c := Clock(now, DueOf(h0, due)); Clock(now + 1, DueOf(h, due)) == Ticked(c) && FiresInOrder(c, fired)
  {
    var c := Clock(now, DueOf(h0, due));
    forall x ensures x in h0 <==> x in multiset(h0) {}
    forall x ensures x in h <==> x in multiset(h) {}
    forall x ensures x in fired <==> x in multiset(fired) {}
    forall x ensures multiset(fired)[x] == multiset(Expired(c))[x] {
      if x in h0 {
        var i: nat :| i < |h0| && h0[i] == x;
        Counted(h0, timer, due, i);
        assert (multiset(fired) + multiset(h))[x] == 1;
      } else {
        assert (multiset(fired) + multiset(h))[x] == 0;
      }
    }
    forall x ensures x in h <==> x in h0 && x !in Expired(c) {
      assert (multiset(fired) + multiset(h))[x] == multiset(h0)[x];
    }
  }

  lemma DrainStart(h: seq<Id>, timer: map<Id, Timer>, due: map<Id, nat>, now: nat)
    requires Placed(h, timer, due)
    ensures Known(h, due) && Draining(h, h, [], due, now) && (|h| > 0 ==> h[0] in timer)
  {}

  lemma NextTick(now: nat)
    ensures (now % WORD + 1) % WORD == (now + 1) % WORD
  {}

  /** The test that the loop makes, at the tick after since. */
  lemma RootDue(h: seq<Id>, timer: map<Id, Timer>, due: map<Id, nat>, since: nat)
    requires |h| > 0 && Placed(h, timer, due) && Timely(h, due, since)
    ensures h[0] in timer && h[0] in due
    ensures TimeAfter(timer[h[0]].expires, (since + 1) % WORD) <==> due[h[0]] > since + 1
  {
    AfterIsLater(due[h[0]], since + 1);
  }

  /** If the root is not due yet, nothing is. */
  lemma AllLater(h: seq<Id>, due: map<Id, nat>, since: nat)
    requires Known(h, due) && Ordered(h, due) && Timely(h, due, since) && (|h| > 0 ==> due[h[0]] > since + 1)
    ensures Timely(h, due, since + 1) && forall y :: y in h ==> due[y] > since + 1
  {
    forall y | y in h ensures due[y] > since + 1 {
      var k: nat :| k < |h| && h[k] == y;
      RootIsFirst(h, due, k);
    }
  }

  lemma WrappedSum(now: nat, d: nat)
    ensures (now % WORD + d) % WORD == (now + d) % WORD
  {
    ModShift(now % WORD + d, now / WORD);
  }

  /** A 32-bit word as a signed number. */
  function Signed(w: nat): int {
    if w < HALF then w else w - WORD
  }

  lemma SignedDifference(a: nat, b: nat)
    requires a < b + HALF && b < a + HALF
    ensures Signed((b % WORD - a % WORD) % WORD) == b - a
  {
    ModOfDifference(a, b);
    if b < a { ModShift(b - a, 1); }
  }

  // ---- runs ----

  datatype Event = Arm(x: Id, timeout: nat) | Cancel(x: Id) | Tick

  /** A timer is armed only while it is not pending, for less than half the range. */
  predicate Allowed(c: Clock, e: Event) {
    e.Arm? ==> e.x !in c.queue && e.timeout < HALF
  }

  ghost function Next(c: Clock, e: Event): Clock {
    match e
    case Arm(x, timeout) => c.(queue := c.queue[x := c.now + timeout])
    case Cancel(x) => c.(queue := c.queue - {x})
    case Tick => Ticked(c)
  }

  ghost function Run(c: Clock, es: seq<Event>): Clock
    decreases |es|
  {
    if es == [] then c else Run(Next(c, es[0]), es[1..])
  }

  ghost predicate CanRun(c: Clock, es: seq<Event>)
    decreases |es|
  {
    es == [] || (Allowed(c, es[0]) && CanRun(Next(c, es[0]), es[1..]))
  }

  function TicksIn(es: seq<Event>): (n: nat)
    ensures n <= |es|
  {
    if es == [] then 0 else (if es[0] == Tick then 1 else 0) + TicksIn(es[1..])
  }

  /** The tick at the end of this run sets off x. */
  ghost predicate GoesOff(c: Clock, es: seq<Event>, x: Id) {
    es != [] && es[|es| - 1] == Tick && x in Expired(Run(c, es[..|es| - 1]))
  }

  lemma {:induction false} PendingUntil(c: Clock, es: seq<Event>, x: Id)
    requires CanRun(c, es) && x in c.queue && Cancel(x) !in es && c.now + TicksIn(es) < (if c.queue[x] > c.now then c.queue[x] else c.now + 1)
    ensures var r := Run(c, es); r.now == c.now + TicksIn(es) && x in r.queue && r.queue[x] == c.queue[x]
    decreases |es|
  {
    if es != [] {
      assert x in Next(c, es[0]).queue;
      PendingUntil(Next(c, es[0]), es[1..], x);
    }
  }

  lemma {:induction false} StaysGone(c: Clock, es: seq<Event>, x: Id)
    requires x !in c.queue && forall d :: Arm(x, d) !in es
    ensures x !in Run(c, es).queue
    decreases |es|
  {
    if es != [] {
      assert es[0] in es;
      assert x !in Next(c, es[0]).queue;
      StaysGone(Next(c, es[0]), es[1..], x);
    }
  }

  lemma {:induction false} GoneAfter(c: Clock, es: seq<Event>, x: Id)
    requires x in c.queue && (forall d :: Arm(x, d) !in es) && TicksIn(es) > 0 && c.now + TicksIn(es) >= c.queue[x]
    ensures x !in Run(c, es).queue
    decreases |es|
  {
    assert es[0] in es;
    var c' := Next(c, es[0]);
    if x !in c'.queue {
      StaysGone(c', es[1..], x);
    } else {
      GoneAfter(c', es[1..], x);
    }
  }

  lemma {:induction false} TicksSnoc(es: seq<Event>)
    requires es != []
    ensures TicksIn(es) == TicksIn(es[..|es| - 1]) + if es[|es| - 1] == Tick then 1 else 0
  {
    if |es| > 1 {
      TicksSnoc(es[1..]);
      assert es[1..][..|es[1..]| - 1] == es[..|es| - 1][1..];
    }
  }

  lemma {:induction false} CanRunPrefix(c: Clock, es: seq<Event>)
    requires CanRun(c, es) && es != []
    ensures CanRun(c, es[..|es| - 1])
    decreases |es|
  {
    if |es| > 1 {
      CanRunPrefix(Next(c, es[0]), es[1..]);
      assert es[1..][..|es[1..]| - 1] == es[..|es| - 1][1..];
    }
  }

  /**
   A timer that is armed for a timeout d and neither cancelled nor armed again goes off in the
   tick that makes it max(d, 1) ticks since, and in no other, whatever else is armed or cancelled.
   */
  lemma FiresOnTime(c: Clock, x: Id, d: nat, es: seq<Event>)
    requires Allowed(c, Arm(x, d)) && CanRun(Next(c, Arm(x, d)), es)
    requires Cancel(x) !in es && forall d :: Arm(x, d) !in es
    ensures GoesOff(Next(c, Arm(x, d)), es, x) <==> es != [] && es[|es| - 1] == Tick && TicksIn(es) == if d > 1 then d else 1
  {
    if es != [] && es[|es| - 1] == Tick {
      var c1, pre := Next(c, Arm(x, d)), es[..|es| - 1];
      TicksSnoc(es);
      CanRunPrefix(c1, es);
      if TicksIn(pre) < if d > 1 then d else 1 {
        PendingUntil(c1, pre, x);
      } else {
        GoneAfter(c1, pre, x);
      }
    }
  }

  lemma StillTimely(h: seq<Id>, h': seq<Id>, due: map<Id, nat>, now: nat)
    requires Timely(h, due, now) && Known(h', due) && forall y :: y in h' ==> y in h
    ensures Timely(h', due, now)
  {}

  lemma SameExpires(m: multiset<Id>, timer: map<Id, Timer>, timer': map<Id, Timer>, x: Id)
    requires Untouched(m, timer, timer') && x in timer
    ensures x in timer' && timer'[x].expires == timer[x].expires
  {}

  lemma NotQueued(h: seq<Id>, due: map<Id, nat>, x: Id)
    requires Known(h, due) && x !in h
    ensures DueOf(h, due) - {x} == DueOf(h, due) && multiset(h) - multiset{x} == multiset(h)
  {}

  class TimerQueue {
    const heap: array<Id>
    var n: nat
    var timer: map<Id, Timer>
    var ticks: nat
    ghost var due: map<Id, nat>
    ghost var now: nat

    /** The stored timers know their places and can be compared. */
    ghost predicate Sound()
      reads this, heap
    {
      n <= heap.Length == CAPACITY && Known(heap[..n], due) && Placed(heap[..n], timer, due) && Close(heap[..n], due)
    }

    method HeapSwap(i: nat, j: nat)
      requires Sound() && i < n && j < n && i != j
      modifies heap, this`timer
      ensures Sound() && heap[..n] == Swapped(old(heap[..n]), i, j)
      ensures multiset(heap[..n]) == multiset(old(heap[..n]))
      ensures Untouched(multiset(old(heap[..n])), old(timer), timer)
    {
      hide Close, Untouched, Placed;
      ghost var h := heap[..n];
      SwapPlaced(h, timer, due, i, j);
      SwapClose(h, due, i, j);
      SwapKeepsAll(h, i, j);
      var tmp := heap[i];
      heap[i] := heap[j];
      heap[j] := tmp;
      timer := timer[heap[i] := timer[heap[i]].(i := i)];
      timer := timer[heap[j] := timer[heap[j]].(i := j)];
      assert heap[..n] == Swapped(h, i, j);
    }

    method HeapPullUp(start: nat)
      requires Sound() && start < n && Rising(heap[..n], due, start)
      modifies heap, this`timer
      ensures Sound() && Ordered(heap[..n], due)
      ensures multiset(heap[..n]) == multiset(old(heap[..n]))
      ensures Untouched(multiset(old(heap[..n])), old(timer), timer)
    {
      hide Placed, Close, Untouched, Rising, Ordered, Swapped, TimeAfter;
      var i: nat := start;
      ghost var m := multiset(heap[..n]);
      UntouchedYet(m, timer);
      while i > 0
        invariant Sound() && i < n && Known(heap[..n], due) && Rising(heap[..n], due, i)
        invariant multiset(heap[..n]) == m
        invariant Untouched(m, old(timer), timer)
      {
        var p: nat := (i - 1) / 2;
        ghost var h, before := heap[..n], timer;
        Compared(h, timer, due, p, i);
        if !TimeAfter(timer[heap[p]].expires, timer[heap[i]].expires) {
          break;
        }
        SwapUp(h, due, i);
        HeapSwap(i, p);
        StillUntouched(m, old(timer), before, timer);
        i := p;
      }
      Risen(heap[..n], due, i);
    }

    method HeapPushDown(start: nat)
      requires Sound() && start < n && Sinking(heap[..n], due, start)
      modifies heap, this`timer
      ensures Sound() && Ordered(heap[..n], due)
      ensures multiset(heap[..n]) == multiset(old(heap[..n]))
      ensures Untouched(multiset(old(heap[..n])), old(timer), timer)
    {
      hide Placed, Close, Untouched, Sinking, Ordered, Swapped, TimeAfter;
      var i: nat := start;
      ghost var m := multiset(heap[..n]);
      UntouchedYet(m, timer);
      while true
        invariant Sound() && i < n && Sinking(heap[..n], due, i)
        invariant multiset(heap[..n]) == m
        invariant Untouched(m, old(timer), timer)
        decreases n - i
      {
        ghost var h, before := heap[..n], timer;
        var smallest := i;
        var c: nat := i * 2 + 1;
        if c >= n {
          break;
        }
        Compared(h, timer, due, smallest, c);
        if TimeAfter(timer[heap[smallest]].expires, timer[heap[c]].expires) {
          smallest := c;
        }
        c := c + 1;
        if c < n {
          Compared(h, timer, due, smallest, c);
          if TimeAfter(timer[heap[smallest]].expires, timer[heap[c]].expires) {
            smallest := c;
          }
        }
        if i == smallest {
          break;
        }
        forall j: nat | 0 < j < |h| && Parent(j) == i ensures due[h[smallest]] <= due[h[j]] { Children(i, j); }
        SwapDown(h, due, i, smallest);
        HeapSwap(i, smallest);
        StillUntouched(m, old(timer), before, timer);
        i := smallest;
      }
      Sunk(heap[..n], due, i);
    }

    method HeapAdjust(i: nat)
      requires Sound() && i < n && Loose(heap[..n], due, i)
      modifies heap, this`timer
      ensures Sound() && Ordered(heap[..n], due)
      ensures multiset(heap[..n]) == multiset(old(heap[..n]))
      ensures Untouched(multiset(old(heap[..n])), old(timer), timer)
    {
      hide Placed, Close, Untouched, Sinking, Rising, Loose, Ordered, TimeAfter;
      if i > 0 {
        var p: nat := (i - 1) / 2;
        Compared(heap[..n], timer, due, p, i);
        if TimeAfter(timer[heap[p]].expires, timer[heap[i]].expires) {
          LooseRises(heap[..n], due, i);
          HeapPullUp(i);
          return;
        }
      }
      LooseSinks(heap[..n], due, i);
      HeapPushDown(i);
    }

    /** __timer_delete */
    method Unlink(x: Id)
      requires Sound() && Ordered(heap[..n], due) && x in heap[..n]
      modifies heap, this`n, this`timer
      ensures Sound() && Ordered(heap[..n], due)
      ensures n == old(n) - 1 && multiset(heap[..n]) == multiset(old(heap[..n])) - multiset{x} && x !in heap[..n]
      ensures x in timer && timer[x].i == INVALID_INDEX
      ensures Untouched(multiset(old(heap[..n])), old(timer), timer)
    {
      hide Close, Untouched, Loose, Ordered, Placed, Refilled;
      ghost var h := heap[..n];
      UnlinkFacts(h, timer, due, x);
      var i := timer[x].i;
      n := n - 1;
      if i != n {
        Refill(i, h);
      } else {
        RefilledIs(h, heap[..], i);
        RefilledLast(h, due);
      }
      assert x !in multiset(heap[..n]);
      SameKeys(multiset(h), old(timer), timer);
      PlacedWithout(heap[..n], timer, due, x, INVALID_INDEX);
      UntouchedAt(multiset(h), old(timer), timer, x, INVALID_INDEX);
      timer := timer[x := timer[x].(i := INVALID_INDEX)];
    }

    /** What holds whenever no call is under way. */
    ghost predicate Valid()
      reads this, heap
    {
      && Sound() && Ordered(heap[..n], due) && Timely(heap[..n], due, now) && Marked(heap[..n], timer)
      && ticks == now % WORD
    }

    ghost function View(): Clock
      requires Sound()
      reads this, heap
    {
      Clock(now, DueOf(heap[..n], due))
    }

    constructor ()
      ensures Valid() && View() == Clock(0, map[]) && n == 0 && fresh(heap)
    {
      heap := new Id[CAPACITY];
      n := 0;
      timer := map[];
      ticks := 0;
      due := map[];
      now := 0;
    }

    /** timer_add for a timer whose expiry has been set. */
    method TimerAdd(x: Id, expires: nat, ghost at: nat)
      requires Valid() && x !in heap[..n] && n < CAPACITY && now <= at < now + HALF && expires == at % WORD
      modifies heap, this`n, this`timer, this`due
      ensures Valid() && View() == Clock(now, old(View()).queue[x := at])
      ensures multiset(heap[..n]) == multiset(old(heap[..n])) + multiset{x}
    {
      hide Placed, Close, Ordered, Rising, Timely, Marked, Untouched, Known, DueOf;
      ghost var h := heap[..n];
      Appended(h, timer, due, now, x, at);
      due := due[x := at];
      timer := timer[x := Timer(expires, n)];
      heap[n] := x;
      n := n + 1;
      assert heap[..n] == h + [x];
      TimelyClose(heap[..n], due, now);
      ghost var before := timer;
      HeapPullUp(n - 1);
      Rearranged(h + [x], heap[..n], due, now, before, timer);
    }

    /** timer_delete: without effect on a timer that has gone off or has been deleted before. */
    method TimerDelete(x: Id)
      requires Valid() && x in timer
      modifies heap, this`n, this`timer
      ensures Valid() && View() == Clock(now, old(View()).queue - {x})
      ensures x in timer && timer[x].i == INVALID_INDEX && timer[x].expires == old(timer)[x].expires
      ensures multiset(heap[..n]) == multiset(old(heap[..n])) - multiset{x}
      ensures old(timer)[x].i == INVALID_INDEX ==> n == old(n) && timer == old(timer) && heap[..] == old(heap[..])
    {
      hide Close, Ordered, Timely, Known, DueOf, Untouched;
      if timer[x].i != INVALID_INDEX {
        ghost var h := heap[..n];
        Unlink(x);
        Removed(h, heap[..n], due, old(timer), timer, x);
        StillTimely(h, heap[..n], due, now);
        SameExpires(multiset(h), old(timer), timer, x);
      } else {
        assert x !in heap[..n];
        NotQueued(heap[..n], due, x);
      }
    }

    /** The part of timer_update that concerns timers; fired lists the callbacks in the order of the calls. */
    method TimerUpdate() returns (fired: seq<Id>)
      requires Valid()
      modifies heap, this`n, this`timer, this`ticks, this`now
      ensures Valid() && View() == Ticked(old(View())) && FiresInOrder(old(View()), fired)
    {
      hide Placed, Close, Ordered, Timely, Marked, Untouched, Known, DueOf, Draining, TimeAfter, FiresInOrder, Ticked;
      ghost var h0 := heap[..n];
      ghost var since := now;
      now := now + 1;
      ticks := (ticks + 1) % WORD;
      fired := [];
      DrainStart(h0, timer, due, now);
      NextTick(since);
      while n > 0 && !TimeAfter(timer[heap[0]].expires, ticks)
        invariant Sound() && Ordered(heap[..n], due) && Marked(heap[..n], timer) && Timely(heap[..n], due, since)
        invariant Draining(h0, heap[..n], fired, due, now)
        invariant n > 0 ==> heap[0] in timer
        invariant now == since + 1 && ticks == now % WORD
      {
        RootDue(heap[..n], timer, due, since);
        var x := FireRoot(h0, fired, since);
        fired := fired + [x];
      }
      if n > 0 { RootDue(heap[..n], timer, due, since); }
      AllLater(heap[..n], due, since);
      Drained(h0, old(timer), heap[..n], fired, due, since);
    }

    /** schedule_timeout up to the switch. */
    method StartTimeout(x: Id, timeout: nat)
      requires Valid() && x !in heap[..n] && n < CAPACITY && timeout < HALF
      modifies heap, this`n, this`timer, this`due
      ensures Valid() && View() == Clock(now, old(View()).queue[x := now + timeout])
    {
      hide Sound, Ordered, Timely, Marked;
      WrappedSum(now, timeout);
      TimerAdd(x, (ticks + timeout) % WORD, now + timeout);
    }

    /** schedule_timeout after the switch: what is left of the timeout, negative if it is over. */
    method EndTimeout(x: Id) returns (left: int)
      requires Valid() && x in timer && x in due && timer[x].expires == due[x] % WORD
      requires now < due[x] + HALF && due[x] < now + HALF
      modifies heap, this`n, this`timer
      ensures Valid() && View() == Clock(now, old(View()).queue - {x})
      ensures left == due[x] - now
    {
      hide Sound, Ordered, Timely, Marked, Signed;
      TimerDelete(x);
      left := Signed((timer[x].expires - ticks) % WORD);
      SignedDifference(now, due[x]);
    }

    /** The loop body of timer_update: the root is deleted and then called. */
    method FireRoot(ghost h0: seq<Id>, ghost fired: seq<Id>, ghost since: nat) returns (x: Id)
      requires Sound() && Ordered(heap[..n], due) && Marked(heap[..n], timer) && Timely(heap[..n], due, since)
      requires Known(h0, due) && Draining(h0, heap[..n], fired, due, now) && n > 0 && due[heap[0]] <= now
      modifies heap, this`n, this`timer
      ensures Sound() && Ordered(heap[..n], due) && Marked(heap[..n], timer) && Timely(heap[..n], due, since)
      ensures Draining(h0, heap[..n], fired + [x], due, now) && (n > 0 ==> heap[0] in timer) && n < old(n)
    {
      hide Close, Ordered, Timely, Marked, Untouched, Draining, DueOf;
      ghost var h := heap[..n];
      x := heap[0];
      Unlink(x);
      Removed(h, heap[..n], due, old(timer), timer, x);
      StillTimely(h, heap[..n], due, since);
      DrainOne(h0, h, fired, heap[..n], due, now);
    }

    method MoveLast(i: nat, ghost h: seq<Id>)
      requires i < n < heap.Length && h == heap[..n + 1] && heap[n] in timer
      modifies heap, this`timer
      ensures heap[..n] == Refilled(h, i) && timer == old(timer[heap[n] := timer[heap[n]].(i := i)])
    {
      heap[i] := heap[n];
      timer := timer[heap[i] := timer[heap[i]].(i := i)];
      assert heap[..n + 1] == h[i := h[n]];
      RefilledIs(h, heap[..], i);
    }

    /** The last timer takes place i, and the heap is adjusted around it. */
    method Refill(i: nat, ghost h: seq<Id>)
      requires i < n < heap.Length == CAPACITY && h == heap[..n + 1] && heap[n] in timer
      requires Known(Refilled(h, i), due) && Loose(Refilled(h, i), due, i) && Close(Refilled(h, i), due)
      requires Placed(Refilled(h, i), timer[heap[n] := timer[heap[n]].(i := i)], due)
      requires multiset(Refilled(h, i)) <= multiset(h) && Untouched(multiset(h), timer, timer[heap[n] := timer[heap[n]].(i := i)])
      modifies heap, this`timer
      ensures Sound() && Ordered(heap[..n], due) && multiset(heap[..n]) == multiset(Refilled(h, i))
      ensures Untouched(multiset(h), old(timer), timer)
    {
      hide Close, Untouched, Loose, Ordered, Placed, Refilled, Known;
      MoveLast(i, h);
      ghost var before := timer;
      HeapAdjust(i);
      UntouchedMore(multiset(Refilled(h, i)), multiset(h), before, timer);
      StillUntouched(multiset(h), old(timer), before, timer);
    }
  }

  lemma UnlinkFacts(h: seq<Id>, timer: map<Id, Timer>, due: map<Id, nat>, x: Id)
    requires Known(h, due) && Placed(h, timer, due) && Close(h, due) && Ordered(h, due) && x in h
    ensures x in timer && timer[x].i < |h| && h[timer[x].i] == x && h[|h| - 1] in timer
    ensures var g, timer' := Refilled(h, timer[x].i), timer[h[|h| - 1] := timer[h[|h| - 1]].(i := timer[x].i)];
            && Known(g, due) && Loose(g, due, timer[x].i) && Close(g, due)
            && Placed(g, if timer[x].i == |h| - 1 then timer else timer', due)
            && multiset(g) == multiset(h) - multiset{x} && x !in multiset(g)
            && Untouched(multiset(h), timer, timer') && Untouched(multiset(h), timer, timer)
  {
    hide Close, Ordered, Loose, Refilled;
    var i := timer[x].i;
    RefilledLoose(h, due, i);
    RefilledLacks(h, i);
    RefilledClose(h, due, i);
    RefilledPlaced(h, timer, due, i);
    Counted(h, timer, due, i);
  }

  lemma RefilledIs(h: seq<Id>, a: seq<Id>, i: nat)
    requires i < |h| <= |a| && a[..|h|] == h[i := h[|h| - 1]]
    ensures a[..|h| - 1] == Refilled(h, i)
  {
    assert a[..|h| - 1] == a[..|h|][..|h| - 1];
  }

  lemma RefilledLast(h: seq<Id>, due: map<Id, nat>)
    requires |h| > 0 && Known(h, due) && Ordered(h, due)
    ensures Known(Refilled(h, |h| - 1), due) && Ordered(Refilled(h, |h| - 1), due)
  {
    var g := Refilled(h, |h| - 1);
    forall j: nat | 0 < j < |g| ensures Above(g, due, j) {
      assert Above(h, due, j);
    }
  }
}