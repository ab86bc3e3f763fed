# Turnix, verified

A model of the core of Turnix, a small single-CPU kernel, and proofs about it.

* **Threads, mutexes, priority inheritance, scheduling** (`kernel/pthread.c`). `Sched.dfy` holds the run
  queue (32 FIFO levels and a bitmap), the switch and the round-robin slices; `Locks.dfy` mutexes, wait queues
  and ownership; `Inherit.dfy` and `PriorityChange.dfy` transitive priority inheritance; `Kernel.dfy` the
  atomic steps; `Preservation.dfy`, `Runs.dfy` and `Safety.dfy` what every step keeps and what holds in every
  run; `Settling.dfy` which steps keep inheritance and strict priority; `Turns.dfy` who runs next and
  `Queues.dfy` who is served first; `Effects.dfy` what a program over the
  kernel needs to know of a step; `KernelObject.dfy` the operations as imperative code over sequences and
  maps, proved to take those steps; `NullOwner.dfy` and `InheritanceBreaks.dfy` runs in which the walk or
  inheritance fails.
* **Programs over it**: `Philosophers.dfy` for any number of philosophers, `DinnerFault.dfy` for what goes
  wrong with three or more, `ProducerConsumer.dfy`, and `Boot.dfy`, which creates their start states.
* **Join, detach, exit** with the waiter graph: `Join.dfy`.
* **The timer queue** (`kernel/timer.c`): `Timer.dfy`.
* **The intrusive tail queue** (`include/sys/queue.h`): `TailQueue.dfy`. Its sequence operations are the ones
  that the thread model uses for run levels, wait queues and mutex queues (`Seqs.dfy`).
* **Calendar, text screen, numbers, keyboard**: `Calendar.dfy`, `Screen.dfy`, `NumberText.dfy`, `Ring.dfy`
  and `Keyboard.dfy`.

## How the kernel is modelled

Code that runs with interrupts disabled is atomic up to each switch. A thread that sleeps inside a call goes on
in a later step; the place is its program counter (`Pc`, together with `sleepOn`). An event is a call of the
running thread, its coming back from a switch, or an interrupt; a run is any sequence of events that the
callers' obligations allow (`Runs.Allowed`): unlock by the owner, no relock of a plain mutex by its owner, no
exit with a mutex held. `Runs.Walks` adds that the inheritance walk of the step does not use a NULL owner and does
not go round in circles; `Safety.OrderedLockWalks`, `NullOwner.OrderedRunMeetsNullOwner`,
`Philosophers.StepsIff` and `ProducerConsumer.AlwaysGoesOn` say when that is so. Wake-ups may come at any time and for any thread, so
every spurious wake-up is covered.

`struct pthread` is split into the fields the scheduler uses (`Task`) and those the locks use (`Locker`). The
bitmap is the natural number with the same bits. Where a lemma asks for a start state and for the invariant,
the invariant follows from the start state (`Runs.BootedInv`, `Philosophers.OpeningInv`,
`ProducerConsumer.StartInv`); it is there so that the run is defined.

## What is false of the code, and exactly when

* Inheritance is not an invariant: `InheritanceBreaks.PriorityNotPassedOn` and
  `InheritanceBreaks.WaiterPassedOver` are runs that end without it, and `Settling.StepSettledIff` is the
  condition, over all steps.
* A dinner of three or more philosophers can bring the kernel down: `DinnerFault.DinnerCanFault`, and
  `Philosophers.StepsIff` for the condition; two philosophers cannot (`Philosophers.TwoAlwaysStep`).
* The walk can meet a NULL owner, even under ordered locking: `NullOwner.OrderedRunMeetsNullOwner`, and
  `Safety.OrderedLockWalks` for the condition.
* A joiner can be lost when a slot is used again too early: `Join.JoinerCanBeLost`, and
  `Join.StepRegisteredIff` for the condition.
* A minus sign behind padding zeros ends the number: `NumberText.ZeroPaddingSurvives`.
* A bare hexadecimal prefix is refused, unlike in C99: `NumberText.StandardUnlessBarePrefix`.
* `gmtime_r` of a negative time is no date, though `mktime` still undoes it: `Calendar.Gmtime`.

## Model

| member | source | states |
|---|---|---|
| `Sched.EnqueueValid` | kernel/pthread.c:62-81 | enqueueing at either end keeps, for every level p: bit 31-p of the bitmap set iff the level is not empty, each queued thread exactly once in the level of its effective priority; the thread becomes the first or the last of its level as asked, the others keep their order, and its slice is ten |
| `Sched.DequeueValid` | kernel/pthread.c:98-113 | dequeueing, also of a thread that is not queued, keeps the same; the bit is cleared exactly when the level becomes empty |
| `Sched.SetEffValid` | kernel/pthread.c:130-152 | a changed effective priority moves a queued thread to the head of its new level with a new slice, leaves the order of all others, and keeps the run queue valid; an unqueued thread and an unchanged priority move nothing |
| `Bits.Ffs` | kernel/pthread.c:83-96 | find-first-set on the bitmap gives the lowest set bit, counted from one, and zero iff there is none |
| `Bits.SetAndClear` | kernel/pthread.c:62-113 | setting or clearing one bit of the bitmap changes that bit to the value asked for and no other bit |
| `Sched.PeekIsHighest` | kernel/pthread.c:83-96 | peek through the bitmap returns the head of the level that a linear scan from the highest priority finds, and cannot fail while the idle thread is queued |
| `Sched.RescheduleStable` | kernel/pthread.c:202-231 | every switch leaves running a runnable thread of the highest effective priority whose slice is not used up, and changes no priority and no run state |
| `Sched.SpendOk` | kernel/timer.c:237-240 | the slice counter, a byte, never underflows: it is at least one before every decrement |
| `Sched.SetRunningOk` | kernel/pthread.c:233-241 | a thread that becomes ready enters its level at the end with a slice of ten; one that is queued already stays where it is |
| `Sched.SliceEnd` | kernel/pthread.c:202-214 | a used-up slice puts the thread behind its equals with a slice of ten, and the next one runs |
| `Sched.RoundRobin` | kernel/pthread.c:62-81 | with no other event, the thread at position j of the top level is running at exactly the ticks from the sum of the slices of the j threads ahead of it, for its own slice, and the level is then rotated by j |
| `Sched.BoundedWait` | kernel/pthread.c:202-214 | that sum is at least one and at most ten ticks for each thread ahead |
| `Sched.RoundTrip` | kernel/pthread.c:62-81 | from whole slices, ten ticks for each thread of the top level bring back the same order, slices and running thread |
| `Inherit.InheritedIsHighest` | kernel/pthread.c:130-141 | the two nested loops compute the highest of the own priority and of the effective priorities of all threads that wait for a mutex of this thread |
| `Inherit.SpreadSettles` | kernel/pthread.c:117-152 | propagation along an owned chain settles every thread on the chain, changes the effective priority of no other thread, and keeps settled whoever was |
| `Inherit.SpreadAgain` | kernel/pthread.c:117-152 | a second walk over a settled chain changes nothing |
| `Inherit.QueueingSettles` | kernel/pthread.c:496-499 | if inheritance holds for all threads and one queues on a held mutex, then after the walk it holds for all threads again, and only threads on the chain changed |
| `Inherit.AcquireSettledIff` | kernel/pthread.c:485-489 | taking a free mutex, which recomputes nothing, keeps inheritance iff no thread still queued there has a higher effective priority than the taker |
| `Inherit.GrabSettles` | kernel/pthread.c:510-517 | a waiter that takes the mutex after a wake-up restores inheritance |
| `Inherit.ReleaseSettles` | kernel/pthread.c:549-565 | the last unlock restores inheritance |
| `PriorityChange.PrioritySettles` | kernel/pthread.c:154-170 | a new priority of a thread outside the run queue is passed on: inheritance holds for all threads afterwards |
| `PriorityChange.QueuedPriorityIff` | kernel/pthread.c:143-146 | a queued thread gets its new priority without propagation: inheritance survives iff every owner it still waits for already has that priority, or has a higher one from its own priority or from another waiter |
| `Settling.StepSettledIff` | kernel/pthread.c:117-669 | of all steps the kernel can take, from a state where inheritance holds for all threads, exactly two kinds break it: taking a free mutex while a thread of a higher priority is queued there, and a new priority for a queued thread that the owner it waits for depends on |
| `Settling.StepNoSelfWait` | kernel/pthread.c:478-522 | no step makes a thread wait for itself |
| `Settling.StepHighest` | kernel/pthread.c:202-231 | from a state where inheritance holds, every step leaves a thread of the highest effective priority running, also the steps that do not switch |
| `Settling.HeedfulRunOrderly` | kernel/pthread.c:117-669 | in every run without a step of those two kinds, inheritance holds and a thread of the highest effective priority runs throughout |
| `Turns.LoweredKeepsCpu` | kernel/pthread.c:143-146 | a running thread whose own new priority no other awake thread exceeds keeps the processor |
| `Turns.WakeUpRuns` | kernel/pthread.c:233-247 | a woken thread takes the processor iff it was off the run queue and has a higher effective priority than the running one |
| `Turns.WakeAllEnters` | kernel/pthread.c:619-623 | the threads of a broadcast enter their levels in queue order, behind those already there |
| `Turns.WakeAllSlices` | kernel/pthread.c:619-623 | they enter with whole slices, and nobody else is touched |
| `Turns.NoNeedlessSwitch` | kernel/pthread.c:202-669 | whatever is called or interrupts, short of the end of its slice and of a priority given to another thread, the running thread goes on as long as it is awake and not exceeded |
| `Turns.OtherPriorityRuns` | kernel/pthread.c:154-170 | a queued thread that is given a new effective priority takes over iff that is at least the one of the running thread |
| `Turns.StepTop` | kernel/pthread.c:202-669 | from a state where inheritance holds, every step leaves the head of the highest level running |
| `Turns.HeedfulRunTop` | kernel/pthread.c:202-669 | so in every run without the two kinds of steps that break inheritance |
| `Turns.StepPriorities` | kernel/pthread.c:154-170 | the own priority of a thread changes by the call that says so or when its slot gets a new thread, and by no other step |
| `Turns.CreatedReady` | kernel/pthread.c:388-410 | a new thread is ready with its priority, own and effective, and a whole slice |
| `Queues.TryLockResult` | kernel/pthread.c:524-543 | trylock reports success iff the caller holds the mutex once more, which is iff it was free or recursive and its own; a failure changes nothing |
| `Queues.MutexFirstCome` | kernel/pthread.c:496-511 | of two threads that go on waiting for a mutex the one that came first stays ahead, in every step |
| `Queues.CondFirstCome` | kernel/pthread.c:638-665 | the same for the queue of a condition |
| `Queues.UnlockWakes` | kernel/pthread.c:549-567 | the last unlock wakes exactly the earliest of the highest waiters of a contended mutex, and nobody otherwise |
| `Queues.SignalWakes` | kernel/pthread.c:590-610 | a signal takes exactly the earliest of the highest waiters off the queue and wakes it, and does nothing on an empty queue |
| `Queues.BroadcastWakes` | kernel/pthread.c:612-629 | a broadcast empties the queue and wakes exactly those who were in it |
| `InheritanceBreaks.PriorityNotPassedOn` | kernel/pthread.c:143-146 | a concrete run from start-up whose last step, a priority change, breaks inheritance |
| `InheritanceBreaks.WaiterPassedOver` | kernel/pthread.c:485-489 | a concrete run from start-up whose last step, the lock of a free mutex, breaks inheritance |
| `InheritanceBreaks.InitOrderly` | kernel/pthread.c:177-200 | inheritance and strict priority hold after initialisation |
| `Kernel.BestIsEarliestHighest` | kernel/pthread.c:557-562 | unlock and signal choose the earliest waiter among those of the highest effective priority |
| `Preservation.AcquireKeeps` | kernel/pthread.c:485-489 | taking a free mutex keeps the kernel invariant |
| `Preservation.QueueKeeps` | kernel/pthread.c:493-509 | queueing on a held mutex, as a plain lock or at the end of a condition wait, keeps the kernel invariant |
| `Preservation.UnlockKeeps` | kernel/pthread.c:545-573 | the last unlock, with wake-up and switch, keeps the kernel invariant |
| `Preservation.CondWaitKeeps` | kernel/pthread.c:631-661 | the first part of an untimed condition wait keeps it, on recursive mutexes with a deeper count too |
| `Preservation.SignalKeeps` | kernel/pthread.c:590-610 | a signal keeps the kernel invariant |
| `Preservation.BroadcastKeeps` | kernel/pthread.c:612-629 | a broadcast keeps the kernel invariant |
| `Preservation.ResumeKeeps` | kernel/pthread.c:500-517 | a thread that comes back from any of its sleeps inside a call goes on and keeps the kernel invariant |
| `Runs.StepKeeps` | kernel/pthread.c:202-669 | every step of the machine (thirteen kinds of calls, resumptions and interrupts) keeps the kernel invariant |
| `Runs.BootedInv` | kernel/pthread.c:177-200 | the invariant holds at the start |
| `Safety.MutualExclusion` | kernel/pthread.c:478-573 | in every run: the lock value is not 1 iff the owner is set iff the mutex is in the mutex queue of exactly that thread, where it occurs once |
| `Safety.WakeupsNeverLost` | kernel/pthread.c:500-573 | in every run: a mutex with waiters and lock value 0 or 1 has an awake waiter, and lock value -1 implies an owner and a waiter |
| `Safety.CountIsOutstanding` | kernel/pthread.c:485-492 | in every run: the recursive count of a mutex for a thread is its successful locks minus its unlocks |
| `Safety.NothingHeldAtBoot` | kernel/pthread.c:459-468 | at the start that count is zero for every thread and mutex |
| `Safety.OrderedRunHasNoCycle` | kernel/pthread.c:117-128 | in every run that takes mutexes in ascending order no thread waits, directly or not, for itself |
| `Safety.OrderedWalkEnds` | kernel/pthread.c:117-128 | under ordered acquisition every inheritance walk is finite: it ends at a thread that waits for nothing or at a mutex without owner |
| `Safety.CycleNeverEnds` | kernel/pthread.c:117-128 | a walk that ends has no cycle on it |
| `Safety.OrderedLockWalks` | kernel/pthread.c:125-126 | after an ordered run, the walk of a lock call completes iff it meets no mutex that has been released and not taken again |
| `NullOwner.OrderedRunMeetsNullOwner` | kernel/pthread.c:125-126 | a concrete run, every lock in ascending order, after which an allowed lock call walks into a mutex whose owner is NULL |
| `KernelObject.Machine.constructor` | kernel/pthread.c:177-200 | the fields after initialisation are the start state of the runs |
| `KernelObject.Machine.RunQueueEnqueue` | kernel/pthread.c:62-81 | the fields become those of the specified enqueue |
| `KernelObject.Machine.RunQueueDequeue` | kernel/pthread.c:98-113 | the fields become those of the specified dequeue |
| `KernelObject.Machine.RunQueuePeek` | kernel/pthread.c:83-96 | returns the specified thread |
| `KernelObject.Machine.InheritedPriority` | kernel/pthread.c:134-141 | the nested loops return the inherited priority |
| `KernelObject.Machine.PthreadSpread` | kernel/pthread.c:117-128 | the mutual recursion and the loop terminate, with the remaining chain as measure, and have the effect of one pass along the chain although they visit owners repeatedly |
| `KernelObject.Machine.PthreadSetSchedPrio` | kernel/pthread.c:130-152 | recomputes one thread, and propagates exactly when its priority changed and it is not queued |
| `KernelObject.Machine.PthreadSetPriority` | kernel/pthread.c:154-170 | has the specified effect, switch included |
| `KernelObject.Machine.Schedule` | kernel/pthread.c:202-231 | has the effect of the specified switch |
| `KernelObject.Machine.MutexLock` | kernel/pthread.c:478-509 | takes the specified step up to its return or first sleep |
| `KernelObject.Machine.MutexRetry` | kernel/pthread.c:500-517 | takes the specified step after a wake-up |
| `KernelObject.Machine.MutexTryLock` | kernel/pthread.c:524-543 | takes the specified step and returns whether the mutex was taken |
| `KernelObject.Machine.Choose` | kernel/pthread.c:557-562 | the loop returns the specified waiter |
| `KernelObject.Machine.MutexUnlock` | kernel/pthread.c:545-573 | takes the specified step |
| `KernelObject.Machine.CondWaitStart` | kernel/pthread.c:638-661 | takes the specified step up to the sleep, which is inside the unlock if the mutex is released |
| `KernelObject.Machine.CondSignal` | kernel/pthread.c:590-610 | takes the specified step |
| `KernelObject.Machine.CondBroadcast` | kernel/pthread.c:612-629 | takes the specified step |
| `KernelObject.Machine.Continue` | kernel/pthread.c:661-665 | takes the specified step of whichever sleep the thread comes back from |
| `KernelObject.Machine.SpendTick` | kernel/timer.c:237-240 | takes the specified tick |
| `Philosophers.DinnerGoesOn` | applications/philosophers.c:37-56 | for any number of philosophers from two on, every step of the dinner keeps its invariant |
| `Philosophers.NeighboursNeverEatTogether` | applications/philosophers.c:37-56 | in every run two philosophers who share a fork never eat at the same time |
| `Philosophers.NeighboursShare` | applications/philosophers.c:40-46 | neighbours, around the whole table, share a fork under the fork order of the code |
| `Philosophers.ForksBeside` | applications/philosophers.c:39-46 | the forks of a philosopher are the two beside it, the lower number first |
| `Philosophers.ForksNest` | applications/philosophers.c:47-53 | forks are put down in the reverse of the order they were picked up in |
| `Philosophers.NoCircularWait` | applications/philosophers.c:40-48 | in every run no philosopher waits, directly or not, for itself |
| `Philosophers.SomeoneCanStep` | applications/philosophers.c:37-56 | in every run, while someone is not finished: if a philosopher runs, the kernel carries out its next action iff the walk of that lock call does not meet a released fork; if none runs, one is asleep over its meal and the timer can wake it |
| `Philosophers.StepsIff` | applications/philosophers.c:47-48 | in every state of a dinner the kernel carries out the next action of the running philosopher iff it is not a lock call that must wait and whose walk meets a fork that was put down and not picked up again |
| `Philosophers.TwoAlwaysStep` | applications/philosophers.c:37-56 | with two philosophers the kernel carries out every action in every run |
| `DinnerFault.DinnerCanFault` | applications/philosophers.c:37-56 | for every number of philosophers from three on there is a run, all at the same priority and driven by ticks and the timer alone, after which the kernel cannot carry out the next lock call |
| `DinnerFault.Bring` | kernel/pthread.c:202-214 | among threads of one priority, ticks alone bring any that is awake to run |
| `Boot.DinnerCanStart` | applications/philosophers.c:58-75 | for every number of philosophers, creating the threads after initialisation leads to a start state of the dinner |
| `ProducerConsumer.NextKeeps` | applications/producer_consumer.c:37-72 | every action of the two loops and every interrupt keeps the handoff invariant |
| `ProducerConsumer.ConsumedInOrder` | applications/producer_consumer.c:37-72 | in every run the slot was filled as often as it was emptied or once more, and the k-th value consumed is k or k+1 modulo 2^32 |
| `ProducerConsumer.NeverBothBlocked` | applications/producer_consumer.c:37-72 | producer and consumer are never both asleep |
| `ProducerConsumer.AlwaysGoesOn` | applications/producer_consumer.c:37-72 | in every run the thread that runs is one of the two and the kernel can carry out its next action, without a fault |
| `Boot.HandoffCanStart` | applications/producer_consumer.c:74-96 | creating the two threads after initialisation leads to a start state of the handoff |
| `Join.StepKeeps` | kernel/pthread.c:249-339 | every join, resumption, detach, exit, creation, sleep and wake-up keeps the waiter graph acyclic and its pointers true |
| `Join.NoWaiterCycle` | kernel/pthread.c:293-339 | in every run no thread is on a cycle of waiter pointers |
| `Join.StepRegisteredIff` | kernel/pthread.c:404-404 | a step loses track of a joiner iff it initialises a slot whose previous thread is still being joined |
| `Join.CarefulRunRegistered` | kernel/pthread.c:305-339 | in every run without such a step, whoever sleeps in a join sleeps on a living thread that is not detached and names it as waiter |
| `Join.NoJoinDeadlock` | kernel/pthread.c:324-331 | then no circle of threads joins itself |
| `Join.JoinAnswers` | kernel/pthread.c:305-339 | which of the five answers a join pass gives, each iff its condition, a self-join included |
| `Join.DetachAnswers` | kernel/pthread.c:262-291 | which answer a detach gives, each iff its condition; a failure changes nothing |
| `Join.JoinReturnsLastValue` | kernel/pthread.c:311-316 | in every run a join returns the value of the last exit of that thread, since when its slot was not set up again |
| `Join.EndsAreCollectedOnce` | kernel/pthread.c:249-339 | in every run the exits of a slot that leave a value are as many as the joins and detaches that take notice of one, up to the last, which may still wait |
| `Join.JoinerCanBeLost` | kernel/pthread.c:332-334 | a concrete run of three threads in which a joiner sleeps on a thread that has ended without waking it |
| `Join.ThreadTable.HasLoop` | kernel/pthread.c:293-303 | the loop terminates, and returns true iff the new pointer closes a cycle, a self-join included |
| `Join.ThreadTable.PthreadJoin` | kernel/pthread.c:310-331 | one pass of the join loop has the specified effect and result |
| `Join.ThreadTable.JoinResumes` | kernel/pthread.c:332-334 | so has the pass after the sleep |
| `Join.ThreadTable.PthreadDetach` | kernel/pthread.c:262-291 | has the specified effect and result in each of the five thread states |
| `Join.ThreadTable.PthreadExit` | kernel/pthread.c:249-260 | has the specified effect |
| `Join.ThreadTable.ClaimSlot` | kernel/pthread.c:376-386 | claims the first free slot, and none iff there is none |
| `Timer.AfterIsLater` | include/timer.h:33-34 | the wrapped comparison is the true one for times less than half the range apart |
| `Timer.TooFarLooksPast` | include/timer.h:33-34 | a time d ticks ahead looks later iff 0 < d <= 2^31 |
| `Timer.RootIsFirst` | kernel/timer.c:67-108 | the root of an ordered heap is due first |
| `Timer.FiresOnTime` | kernel/timer.c:221-235 | a timer armed at tick t for d < 2^31 ticks and left alone goes off in the tick that makes the count t + max(d, 1) and in no other, whatever else happens in the run |
| `Timer.TimerQueue.HeapSwap` | kernel/timer.c:56-65 | exchanges two timers; both know their new places |
| `Timer.TimerQueue.HeapPullUp` | kernel/timer.c:67-80 | restores heap order above a timer that may be too early, keeps the multiset and all back-indices |
| `Timer.TimerQueue.HeapPushDown` | kernel/timer.c:82-108 | restores heap order below a timer that may be too late, keeps the multiset and all back-indices |
| `Timer.TimerQueue.HeapAdjust` | kernel/timer.c:110-124 | restores heap order around a timer that may be misplaced either way |
| `Timer.TimerQueue.TimerAdd` | kernel/timer.c:126-138 | heap order and back-indices are kept and the multiset grows by exactly this timer |
| `Timer.TimerQueue.Unlink` | kernel/timer.c:140-150 | deleting the timer at any index keeps heap order and back-indices, and the multiset loses exactly this timer |
| `Timer.TimerQueue.TimerDelete` | kernel/timer.c:152-159 | removes the timer; a second deletion changes nothing at all |
| `Timer.TimerQueue.StartTimeout` | kernel/timer.c:174-183 | arms the timer at the wrapped expiry, which stands for the unbounded due time |
| `Timer.TimerQueue.EndTimeout` | kernel/timer.c:185-187 | returns the exact difference to the due time, negative if it has passed, across a wrap too |
| `Timer.TimerQueue.TimerUpdate` | kernel/timer.c:221-235 | fires exactly the expired timers, each once, in non-decreasing order of expiry, and leaves no expired timer in the heap |
| `TailQueue.Queue.InsertHead` | include/sys/queue.h:63-72 | the pointers then stand for the entry in front of the old sequence |
| `TailQueue.Queue.InsertTail` | include/sys/queue.h:74-80 | the pointers then stand for the old sequence with the entry behind it, the store through ptail included |
| `TailQueue.Queue.Unlink` | include/sys/queue.h:82-89 | the pointers then stand for the sequence without the entry, wherever it was; its own links stay as they were |
| `TailQueue.Queue.Foreach` | include/sys/queue.h:91-92 | visits exactly the sequence, in order |
| `TailQueue.Queue.Empty` | include/sys/queue.h:59-59 | true iff the sequence is empty |
| `Calendar.Mktime` | lib/time.c:44-61 | returns the seconds since 1970 of the fields, by sums over the lengths of years and months |
| `Calendar.Gmtime` | lib/time.c:63-104 | the fields stand for exactly the given time; they form a valid date, with the right weekday, iff the time is not negative |
| `Calendar.TimeAndBack` | lib/time.c:44-104 | mktime undoes gmtime_r on every time, negative ones included |
| `Calendar.DateAndBack` | lib/time.c:44-104 | gmtime_r undoes mktime on every valid date from 1970 on |
| `Calendar.OneDatePerSecond` | lib/time.c:44-61 | no two valid dates have the same time |
| `Calendar.SecondsArePosix` | lib/time.c:44-61 | the time is that of the closed formula of section 4.16 of POSIX.1-2017, Base Definitions |
| `Calendar.TableIsRight` | lib/time.c:30-42 | the table of days before a month agrees with the lengths of the months, in leap years too |
| `Calendar.MonthsClosed` | lib/time.c:30-42 | from March on the days before a month follow from one division |
| `Calendar.Millennium` | lib/time.c:44-104 | the first of January 2000 was a Saturday, 946684800 seconds after the Epoch |
| `Calendar.Localtime` | lib/time.c:106-111 | the fields stand for the time moved by the zone, and form a valid date with its weekday iff that is not negative |
| `Calendar.FirstOfMonth` | applications/shell.c:250-250 | the formula for the first column is the weekday of the first of the month |
| `Calendar.MonthSheet` | applications/shell.c:250-266 | every day of the month sheet is printed in the column of its weekday |
| `Screen.TextBuffer.DrawChar` | arch/i386/drivers/text_buffer.c:81-130 | for every character below 0x80 the 25x80 cells stay the window of an endless page that changes as the character says; the cursor stays in range |
| `Screen.TextBuffer.WriteChar` | arch/i386/drivers/text_buffer.c:132-135 | the same in the default colours |
| `Screen.TextBuffer.Clear` | arch/i386/drivers/text_buffer.c:70-79 | shows an empty page |
| `Screen.TextBuffer.DrawCharAt` | arch/i386/drivers/text_buffer.c:51-58 | changes one cell |
| `Screen.TextBuffer.Scroll` | arch/i386/drivers/text_buffer.c:117-129 | moves the window down by one line when the cursor has left it |
| `Screen.Memmove` | lib/string.c:61-63 | the overlapping copy to a lower place moves the old contents |
| `Screen.SpacesMakeTab` | arch/i386/drivers/text_buffer.c:101-107 | the spaces written for a tab add up to blanking up to the next multiple of eight, a line end included |
| `Screen.AboveIsFinal` | arch/i386/drivers/text_buffer.c:81-130 | for every stream the cursor stays in the window and lines that have left it never change |
| `Screen.RubOut` | arch/i386/drivers/text_buffer.c:84-94 | a character and a backspace leave the cursor where it was, its cell blank, and the rest of the page alone |
| `Screen.BackBlanks` | arch/i386/drivers/text_buffer.c:84-94 | backspace goes back one cell, over a line end too, but not out of the window, and blanks the cell |
| `Screen.LineEnds` | arch/i386/drivers/text_buffer.c:95-100 | a newline goes to the first cell of the next line and a carriage return nowhere; neither writes |
| `Screen.TabStops` | arch/i386/drivers/text_buffer.c:101-107 | a tab goes to the next multiple of eight and blanks what it passes |
| `Screen.GlyphParts` | arch/i386/drivers/text_buffer.c:51-53 | character, foreground and background can be read off a cell |
| `Screen.TextReadsBack` | arch/i386/drivers/text_buffer.c:108-115 | text without control characters stands on the page cell by cell, wrapped at 80, and nothing else changed |
| `NumberText.FitsBuffer` | lib/stdio.c:58-73 | twelve bytes hold any 32-bit number in base 8 or more, and its sign in base 10 or more |
| `NumberText.RawPrintNumber` | lib/stdio.c:55-75 | prints the padded numeral and returns its length; no store leaves the buffer |
| `NumberText.PrintNumber` | lib/stdio.c:83-95 | the same for a signed number, the least one included |
| `NumberText.PrintStr` | lib/stdio.c:39-53 | prints the padding and the string |
| `NumberText.NumeralCase` | lib/stdio.c:36-37 | hexadecimal digits are capitals iff the upper table is asked for |
| `NumberText.PaddedFits` | lib/stdio.c:44-50 | the output ends with the string, padded in front to the width |
| `NumberText.SpaceIsSkipped` | lib/stdlib.c:54-56 | each of the six white-space characters in front of a number is skipped |
| `NumberText.SignsMean` | lib/stdlib.c:58-69 | a plus sign changes nothing and a minus sign the sign |
| `NumberText.ValDigits` | lib/stdio.c:63-70 | the digits that are printed stand for the number, without a leading zero |
| `NumberText.RawStrtoul` | lib/stdlib.c:45-117 | finds sign, digits and end of the number at the head of the string; the overflow flag is set iff the exact value exceeds 2^32-1, for digit strings of any length |
| `NumberText.Strtol` | lib/stdlib.c:119-147 | returns the exact value iff it is in range and saturates with ERANGE on the right side otherwise; EINVAL iff there is no number |
| `NumberText.Strtoul` | lib/stdlib.c:149-168 | returns the exact value, negated modulo 2^32 after a minus sign, and saturates iff the magnitude is out of range |
| `NumberText.PrintedIsRead` | lib/stdio.c:55-75 | what is printed with any padding of blanks is scanned as the same number, to the end of the text |
| `NumberText.SignedAndBack` | lib/stdio.c:83-95 | printing in decimal and parsing returns every 32-bit signed number |
| `NumberText.UnsignedAndBack` | lib/stdio.c:55-81 | printing in base 8, 10 or 16 and parsing returns every 32-bit unsigned number |
| `NumberText.ZeroPaddingSurvives` | lib/stdio.c:44-47 | with zero padding the number is read back iff it has no minus sign, is zero, or needs no padding |
| `NumberText.StandardUnlessBarePrefix` | lib/stdlib.c:84-112 | the scan is that of section 7.20.1.4 of C99 iff there is no hexadecimal prefix without a digit behind it |
| `Ring.CircularBuffer.Write` | lib/circular_buffer.c:27-41 | appends the longest prefix that fits |
| `Ring.CircularBuffer.Read` | lib/circular_buffer.c:43-57 | takes the oldest bytes, as many as asked for or as there are |
| `Keyboard.Driver.Chr` | arch/i386/drivers/keyboard.c:122-148 | appends the byte of the key in the current mode, if there is one and it fits |
| `Keyboard.Driver.Keypad` | arch/i386/drivers/keyboard.c:240-280 | appends the whole sequence of the key or nothing; every table index is in range |
| `Keyboard.Driver.Fn` | arch/i386/drivers/keyboard.c:282-289 | appends the whole sequence or nothing |
| `Keyboard.Driver.ChrKeypad` | arch/i386/drivers/keyboard.c:291-299 | a slash after 0xe0, for press and release, else the character |
| `Keyboard.Driver.KeyboardHandler` | arch/i386/drivers/keyboard.c:327-346 | mode, ring and waiting reader move as the step of the specification says, for each of the 256 scan codes; every code but the two prefixes wakes the reader |
| `Keyboard.Driver.GetcharPass` | arch/i386/drivers/keyboard.c:353-359 | takes the oldest byte, or registers the caller as waiter and lets it sleep iff the ring is empty |
| `Keyboard.NextMissesNothing` | arch/i386/drivers/keyboard.c:342-359 | a reader that sleeps has nothing to read: every code that adds bytes wakes it |
| `Keyboard.Legends` | arch/i386/drivers/keyboard.c:72-118 | the plain and the shifted table are the legends of the keys, row by row |
| `Keyboard.KeyTypesLegend` | arch/i386/drivers/keyboard.c:122-148 | a key types its legend, its shifted legend with either shift, its third legend with the right alt key, and nothing on release |
| `Keyboard.LetterKeys` | arch/i386/drivers/keyboard.c:130-144 | on letters caps lock does what shift does, control types the control character, and the left alt key sets the high bit |
| `Keyboard.CapsLeavesOthers` | arch/i386/drivers/keyboard.c:130-136 | caps lock concerns letters only |
| `Keyboard.ControlKeys` | arch/i386/drivers/keyboard.c:137-142 | control maps @ to _ to the control characters and the question mark to delete |
| `Keyboard.AltSetsHighBit` | arch/i386/drivers/keyboard.c:143-144 | in every mode the left alt key sets the high bit of what the key types and changes nothing else |
| `Keyboard.KeypadDigits` | arch/i386/drivers/keyboard.c:231-237 | with num lock the keypad types its digits |
| `Keyboard.KeypadArrows` | arch/i386/drivers/keyboard.c:250-272 | without num lock it types the escape sequences of the cursor keys |
| `Keyboard.KeypadModes` | arch/i386/drivers/keyboard.c:250-279 | shift and the prefix do to the keypad what switching num lock off does; its star types only with num lock |
| `Keyboard.FunctionKeys` | arch/i386/drivers/keyboard.c:282-299 | the function keys are lettered in order; the slash of the keypad types itself |
| `Keyboard.ShiftTracksKeys` | arch/i386/drivers/keyboard.c:158-166 | after any codes each shift key is down iff its last code was a press |
| `Keyboard.PrefixMeansRight` | arch/i386/drivers/keyboard.c:150-174 | the prefix tells the right control and alt keys from the left ones |
| `Keyboard.LocksToggle` | arch/i386/drivers/keyboard.c:193-215 | a lock key switches on press only; scroll lock switches num lock |
| `Keyboard.TypingKeepsMode` | arch/i386/drivers/keyboard.c:122-346 | a key that types leaves modifiers and locks alone |
| `Keyboard.EncodingComplete` | arch/i386/drivers/keyboard.c:122-289 | every key stands for one byte or for one of three forms of escape sequence at full length |
| `Keyboard.RunConserves` | arch/i386/drivers/keyboard.c:122-346 | for every interleaving of scan codes and reads, the bytes read followed by the bytes in the ring are the concatenated complete encodings of the accepted keys, in order, and no reader sleeps on beside waiting bytes |

## Left out

- Port I/O, interrupt controller, CMOS, boot code and the context switch itself: hardware plumbing; a switch is "the current thread becomes the next one".
- Timed condition waits, `sleep` and `usleep` as whole-run guarantees: the thread is marked asleep before its timer is armed, outside an atomic section (kernel/timer.c:194-195, kernel/pthread.c:641-655). The timer queue and both halves of `schedule_timeout` are modelled on their own.
- Unlock by another thread than the owner, relock of a plain mutex by its owner, exit while holding a mutex: unsupported uses, excluded from runs.
- `pthread_mutex_init` with NULL attributes (kernel/pthread.c:463), which the two client programs pass: the mutex type is taken as given, and plain for the clients.
- Join and the kernel machine are two models: in `Join.dfy` any awake thread may act next, which covers every schedule of the real one.
- The creation of a thread in the kernel machine is one step; its two halves are apart in `Join.dfy`, where it matters.
- Callbacks of timers that arm further timers from inside the tick: the only callback in the repository wakes a thread.
- The clocks that `timer_update` advances: `update_timeval` compares with `>` (kernel/timer.c:215), so the microseconds can reach 1000000; only ticks and timers are modelled.
- Calendar.Mktime: does not model 32-bit overflow, which starts with dates after January 2038.
- Screen.Memmove: copies cell by cell, where the driver's call copies the two bytes of each cell; moving upward (lib/string.c:65-68), which starts one byte too far, is not modelled.
- Characters from 0x80 on the screen, whose sign extension overwrites the colours.
- NumberText.PrintNumber: takes the magnitude of the least number as 2^31, where the code negates it with a signed overflow that wraps to that value.
- `printf`'s parsing of formats and its arguments, `print_char` with a width above one (it does not return), hexdump: formatting glue.
- Keyboard.Driver.Keypad: the restart by control, alt and delete is a key without bytes; LED commands are device effects.
- Shell dispatch, readline, thread names, stack painting, `uname`, `memcpy`, `strlen` and their like: thin or easy.
