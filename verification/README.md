# A verified model of platoon's runtime

platoon is a single-threaded async runtime: nothing runs in parallel, and every public call is
one atomic step. What is hard about it is what every interleaving of polls, wakes,
cancellations and drops keeps. This project models the parts of the runtime where that matters
and proves what they keep, over every run and without a bound.

Each component has two or three modules.

- A *specification* (`SemaphoreSpec`, `LockSpec`, `ExecutorSpec`, `BlockOnSpec`, `ClockSpec`,
  `ReactorSpec`, `OneshotSpec`): the state as a value and each operation as a function on it,
  with lemmas that say what the operation achieves without following its steps.
- *Runs* (`SemaphoreRuns`, `ClockRuns`, and the last part of the other specifications): the
  state together with everything its users hold - live futures, permits, guards, sleeps - and
  one `Step` function for every call from outside. Theorems about runs quantify over all
  sequences of steps. A step that nobody can make, such as polling a future that was dropped,
  leaves the state alone. The theorems start from any state that meets the invariant, and the
  initial state of each component does (`StartIsSafe`, `StartIsFree`, `StartIsSound`,
  `StartAgrees`, `StartIsOrderly`).
- The *implementation* (`Semaphores`, `Locks`, `Executors`, `Clocks`, `Reactors`, `Oneshots`):
  classes with the source's fields, updated in place with its branches and loops. The contract
  of each method equates the new state with the specification's function of the old one.

Wakers are numbers, and calling one appends to a log. The slab's choice of a vacant slot, the
time, the kernel's reports and whether it accepts an update, and whatever a future does in one
poll are parameters, so the theorems hold for every choice. Panics are outcomes, not
preconditions.

## What is proved

**Semaphore.** The code relies on an invariant it never writes down (`SemaphoreSpec.Safe`):
woken waiters are the oldest ones, what they were promised fits together in the free permits,
and the head of the queue has been told unless it cannot be served. Every run keeps it, so the
assertion before a grant never fails, a wake is never taken back, each waiter is called at most
once per stay and on its latest waker, nobody overtakes, and no permit is created or lost.
From a state without outstanding permits the queue can be served to its end if and only if
nobody in it asks for more permits than there are; whoever does is never served, and blocks
everybody behind, until permits are added or it gives up. The linked list through the slab is
proved to be that queue, for removal from any position. Dropping all live permits overflows
exactly when the permits in circulation exceed a machine word.

**Locks.** Mutual exclusion follows from permit arithmetic: a live exclusive guard is the only
guard, the `RefCell` is always in the state that the live guards call for, no borrow conflicts
and no guard's drop overflows. Once no guard is live, everybody who waits gets one in turn.

**Executor.** Over any number of turns of `block_on`, with arbitrary futures: a scheduled task
is queued exactly once and an idle one not at all, tasks run in the order in which they were
queued, no wake of an unfinished task is lost, a future is never polled after it completed or
was cancelled, its output is delivered at most once, and completion calls the latest waker the
join handle left. The schedule has at most one park and one poll of the main future between two
pops, parks without a timeout only when the queue is empty, and never runs more than 61 tasks
without looking up. The task at any index of the queue is run within a number of turns that is
linear in the index, unless the loop ends first. Each turn is also described from before and
after, without its steps: what becomes of every task, the queue, the flag and the record.

**Clock.** The alarm map agrees with the live sleeps. Whatever else happens, an alarm fires once,
at the first park at or after its deadline and on the waker of the latest poll before that; over
a whole run alarms fire in the order of their deadlines.

**Reactor.** Every waker ever stored for a live source was handed out to be woken, or is still
stored, whatever fails. What the kernel watches agrees with the stored wakers as long as no
update fails; a poll that reports an error leaves its waker stored but unwatched, and polls for
that direction go on to return pending unwatched until a report about the source or the other
direction arms it again.

**Oneshot.** An accepted message is returned by the first ask of the receiver, exactly once and
unchanged, a failed send gives it back, and whoever waits is woken on its latest waker.

Four statements one might expect are false of the code. Each has an input that shows it, and the
condition under which it fails, both ways and for all inputs:

- `Sleep::reset` panics exactly when the alarm has already fired
  (`ClockRuns.ResetPanicsIffFired`). An `Interval::tick` that found its sleep pending therefore
  ends in a panic if and only if a park was made at or after the deadline before the poll that
  was ready (`ClockRuns.TickPanicsIffParked`); both ends exist, the second when tasks keep the
  executor from parking (`ClockRuns.TicksOfBothKinds`).
- The comment in the clock says that timeouts are rounded up; the code truncates them. A timeout
  reaches the earliest alarm exactly when the wait is a whole number of milliseconds that fits a
  64-bit word, and is short by less than a millisecond exactly when its whole milliseconds fit
  one (`ClockSpec.TimeoutIsTight`, with inputs for both ways to fall short in
  `ClockSpec.TimeoutsThatFallShort`).
- `block_on` blocks on the outside while its main future has asked to be polled again if and only
  if the turn right before was a poll of the main future that wakes itself, returns pending, finds
  the queue empty and neither spawns a task nor wakes an idle one
  (`BlockOnSpec.BlocksWokenIff`; `BlockOnSpec.YieldingMainBlocks` is such a future).
- Dropping permits can overflow although every addition succeeded
  (`SemaphoreRuns.DropAfterAddsOverflows`), exactly when the permits in circulation exceed a
  machine word (`SemaphoreRuns.DropsOverflowIff`).

## Model

| member | source | states |
|---|---|---|
| SemaphoreSpec.WakeMarksWhatFits | src/sync/semaphore.rs:210-233 | `wake` raises the flag of exactly the waiters that fit together with everyone ahead of them, and changes nothing else |
| SemaphoreSpec.SignalsAreRaisedFlags | src/sync/semaphore.rs:210-233 | the wakers called by `wake` are those of the waiters whose flag went up, in queue order |
| SemaphoreSpec.WakeRestores | src/sync/semaphore.rs:210-233 | from any queue whose grants still fit, `wake` re-establishes the invariant and leaves the flag up on exactly the longest oldest-first prefix that fits |
| SemaphoreSpec.LeaveIsSafe | src/sync/semaphore.rs:68-77 | cancelling a waiter at any position, or paying out a woken one, keeps the invariant, and a woken waiter's permits are there |
| SemaphoreSpec.JoinIsSafe | src/sync/semaphore.rs:175-182 | a waiter that joins, even one that would fit behind woken ones, keeps the invariant |
| Semaphores.UnlinkKeepsList | src/sync/semaphore.rs:154-166 | unlinking any position leaves head, tail, next and prev consistent |
| Semaphores.UnlinkCutsQueue | src/sync/semaphore.rs:154-166 | and takes exactly that waiter out, the others keeping their order |
| Semaphores.Semaphore.constructor | src/sync/semaphore.rs:35-44 | a new semaphore has its permits and an empty queue |
| Semaphores.Semaphore.Add | src/sync/semaphore.rs:134-152 | the list stays well formed and the new waiter is the youngest |
| Semaphores.Semaphore.Unlink | src/sync/semaphore.rs:154-166 | the node leaves the slab and its neighbours, head and tail point past it |
| Semaphores.Semaphore.Remove | src/sync/semaphore.rs:154-166 | the list stays well formed without the waiter at any position |
| Semaphores.Semaphore.Raise | src/sync/semaphore.rs:223-229 | raises one flag and calls its waker if it was down |
| Semaphores.Semaphore.Wake | src/sync/semaphore.rs:210-233 | the walk over the links is the wake of the queue, with the same calls in the same order |
| Semaphores.Semaphore.TryAcquire | src/sync/semaphore.rs:235-242 | succeeds exactly on the fast path, without underflow |
| Semaphores.Semaphore.PollWaiting | src/sync/semaphore.rs:184-205 | a woken waiter pays, leaves and wakes the rest; another one renews its waker |
| Semaphores.Semaphore.PollAcquire | src/sync/semaphore.rs:168-208 | all three states of the future, with their panics |
| Semaphores.Semaphore.AddPermits | src/sync/semaphore.rs:98-106 | adds and wakes, or panics on overflow before anything changed |
| Semaphores.Acquire.Poll | src/sync/semaphore.rs:56-65 | the future's poll is that of the semaphore and updates its state |
| Semaphores.Acquire.Drop | src/sync/semaphore.rs:68-77 | a waiting future leaves the queue and wakes the rest |
| Semaphores.Permit.Drop | src/sync/semaphore.rs:127-131 | gives the permits back |
| Semaphores.Permit.Forget | src/sync/semaphore.rs:121-125 | gives nothing back and wakes nobody |
| SemaphoreRuns.PollStepKeepsInv | src/sync/semaphore.rs:168-208 | a poll keeps the invariant of the system and panics only for a completed future |
| SemaphoreRuns.DropStepKeepsInv | src/sync/semaphore.rs:68-77 | cancelling a future keeps the invariant and never panics |
| SemaphoreRuns.PermitStepKeepsInv | src/sync/semaphore.rs:86-131 | so do `try_acquire`, `add_permits`, and dropping or forgetting a permit |
| SemaphoreRuns.EveryRunIsSafe | src/sync/semaphore.rs:46-243 | after any run: woken waiters are oldest and their grants fit, no wakeup is lost, waiting futures and slab slots correspond one to one, and free, held and retired permits add up to those added |
| SemaphoreRuns.PollNeverPanics | src/sync/semaphore.rs:184-206 | in no reachable state does the assertion before a grant or a slab lookup fail |
| SemaphoreRuns.FirstPollIff | src/sync/semaphore.rs:168-182 | a first poll is granted at once exactly if it asks for nothing or there is enough and nobody queues, and joins the queue otherwise |
| SemaphoreRuns.TryAcquireIff | src/sync/semaphore.rs:235-242 | so does an attempt, which else changes nothing |
| SemaphoreRuns.AddFrees | src/sync/semaphore.rs:98-106 | added permits are free, exactly if they fit a machine word |
| SemaphoreRuns.DropFrees | src/sync/semaphore.rs:127-131 | dropping a permit frees it and leaves the others, exactly if it fits |
| SemaphoreRuns.ForgetRetires | src/sync/semaphore.rs:121-125 | a forgotten permit is free to nobody and nobody is called |
| SemaphoreRuns.DropsOverflowIff | src/sync/semaphore.rs:98-131 | dropping all live permits panics somewhere if and only if the permits in circulation exceed a machine word |
| SemaphoreRuns.DropAfterAddsOverflows | src/sync/semaphore.rs:98-131 | a run from a new semaphore whose calls all succeed and whose next drop overflows |
| SemaphoreRuns.NoDropOverflows | src/sync/semaphore.rs:98-131 | no drop overflows while the permits added less those retired fit a machine word |
| SemaphoreRuns.WakeCallsWhomItMarks | src/sync/semaphore.rs:210-233 | one wake calls a given waiter exactly if it raises that waiter's flag |
| SemaphoreRuns.CalledAtMostOnce | src/sync/semaphore.rs:184-233 | over a whole stay a waiter is called at most once, exactly when it becomes woken, on its latest waker, and stays woken |
| SemaphoreRuns.LeaverIsNotCalled | src/sync/semaphore.rs:68-77 | the call that grants or cancels a waiter calls others, never the leaver |
| SemaphoreRuns.CalledOncePerStay | src/sync/semaphore.rs:168-233 | from joining to the end of its stay a waiter that is granted is called exactly once, on its latest waker |
| SemaphoreRuns.WakeIsAPromise | src/sync/semaphore.rs:184-195 | whatever others do, the next poll of a woken waiter is granted with its full requirement |
| SemaphoreRuns.NoOvertaking | src/sync/semaphore.rs:168-233 | no run reorders two waiters, and the younger is granted only after the older was woken |
| SemaphoreRuns.FastPathOnlyWhenEmpty | src/sync/semaphore.rs:235-242 | an immediate grant of at least one permit happens only on an empty queue |
| SemaphoreRuns.QueueDrains | src/sync/semaphore.rs:98-233 | with no permit outstanding and nobody asking for more than there is, polling the oldest and dropping its permit serves the whole queue in order and ends with all permits free |
| SemaphoreRuns.OversizedIsNeverGranted | src/sync/semaphore.rs:184-233 | a waiter that asks for more than is in circulation is never woken, nor is anybody behind it, unless permits are added or it is cancelled |
| SemaphoreRuns.QueueDrainsIff | src/sync/semaphore.rs:98-233 | with no permit outstanding, some run without additions and cancellations empties the queue if and only if nobody in it asks for more than there is |
| LockSpec.StepKeepsInv | src/sync/rwlock.rs:22-52 | no borrow conflicts, no guard's drop overflows, and only the poll of a completed future panics |
| LockSpec.WriterIsAlone | src/sync/rwlock.rs:37-52 | a write guard is the only guard |
| LockSpec.EveryRunExcludes | src/sync/mutex.rs:20-33 | mutual exclusion and the right borrow state after every run, for the mutex and the lock |
| LockSpec.TryIff | src/sync/rwlock.rs:30-52 | an attempt gets the guard it asked for exactly if nobody waits and, for a writer, nobody is inside, for a reader, no writer is and a permit is left |
| LockSpec.BeginIsForKind | src/sync/rwlock.rs:22-43 | a begun acquisition is for its kind |
| LockSpec.BegunForKind | src/sync/rwlock.rs:22-43 | and gets a guard of that kind when it is granted, whatever happens before |
| LockSpec.DropGuardFrees | src/sync/rwlock.rs:74-78 | dropping a guard ends that guard and frees what it held |
| LockSpec.ReadersCoexist | src/sync/rwlock.rs:30-35 | with no writer and nobody waiting, one more reader is always let in |
| LockSpec.LockDrains | src/sync/rwlock.rs:22-78 | once no guard is live, everybody waiting gets its guard and borrow in turn by polling the oldest and dropping its guard, and the lock ends free |
| Locks.RwLock.constructor | src/sync/rwlock.rs:15-20 | all permits are free and the value is not borrowed |
| Locks.RwLock.TryRead | src/sync/rwlock.rs:30-35 | one permit and a shared borrow, or nothing |
| Locks.RwLock.TryWrite | src/sync/rwlock.rs:45-52 | all permits and an exclusive borrow, or nothing |
| Locks.RwLock.Poll | src/sync/rwlock.rs:22-43 | the acquisition's poll, followed by the borrow once it is granted |
| Locks.RwLock.DropGuard | src/sync/rwlock.rs:74-78 | the borrow ends and the permits go back |
| Locks.Mutex.constructor | src/sync/mutex.rs:13-18 | the one permit is free and the value is not borrowed |
| Locks.Mutex.TryLock | src/sync/mutex.rs:28-33 | the permit and an exclusive borrow, or nothing |
| Locks.Mutex.PollLock | src/sync/mutex.rs:20-26 | the acquisition's poll, followed by the borrow once it is granted |
| Locks.Mutex.DropGuard | src/sync/mutex.rs:55-59 | the borrow ends and the permit goes back |
| ExecutorSpec.WakeKeepsQueued | src/runtime/executor.rs:252-264 | a wake adds one entry for an idle task and none for anybody else, and keeps queue and states in step |
| ExecutorSpec.RunKeepsQueued | src/runtime/executor.rs:210-238 | running the head of the queue keeps queue and states in step, whatever its future does |
| ExecutorSpec.RunOnlyPushes | src/runtime/executor.rs:210-264 | a run only adds to the far end of the queue |
| ExecutorSpec.NoLostWake | src/runtime/executor.rs:252-264 | waking a task that has neither completed nor been cancelled leaves it queued |
| ExecutorSpec.RunKeepsLives | src/runtime/executor.rs:196-244 | a run keeps the record of every task's result legal |
| ExecutorSpec.CompleteWakesAwaiter | src/runtime/executor.rs:232-237 | completion stores the output, calls exactly the waker of the handle's latest poll, and a task that awaits it is queued |
| ExecutorSpec.LegalLife | src/runtime/executor.rs:172-244 | in a legal record nothing is polled after completion or cancellation, and the output is delivered at most once and unchanged |
| ExecutorSpec.PerformDoes | src/runtime/executor.rs:55-264 | every wake, spawn, handle poll and cancellation that a future makes in one poll takes its effect, seen from before and after, and nothing else changes |
| ExecutorSpec.PanicsIffMisused | src/runtime/executor.rs:196-244 | a call panics exactly if it polls a handle whose output was taken, or uses the handle of the task being polled |
| ExecutorSpec.RunDoes | src/runtime/executor.rs:210-238 | a run polls the future once; if it was ready the output is stored, the task is done, one completion is recorded and the latest awaiter called; if not the future stays; whom it woke is queued; without a future nothing is polled |
| BlockOnSpec.TurnKeepsSound | src/runtime/executor.rs:87-126 | every turn of the loop keeps queue and results in order |
| BlockOnSpec.EveryTurnIsSound | src/runtime/executor.rs:74-127 | after any number of turns each task is queued as its state says, no unfinished task is done, and no record is broken |
| BlockOnSpec.ServedInOrder | src/runtime/executor.rs:94-117 | what is served and what is queued only ever extend the same row |
| BlockOnSpec.BoundedWaiting | src/runtime/executor.rs:94-117 | the task at index k is run by the (k+1)-th pop from now |
| BlockOnSpec.TurnKeepsShape | src/runtime/executor.rs:87-126 | every turn keeps the shape of the schedule and the limit of 61 tasks in a row |
| BlockOnSpec.EveryTurnIsScheduled | src/runtime/executor.rs:74-127 | the same for any number of turns of any `block_on` |
| BlockOnSpec.EveryTurnDoes | src/runtime/executor.rs:87-126 | every turn of every run is a poll of the main future exactly if it is woken at the head of the loop, else the run of the oldest task, or a park when 61 have run or none is queued, with all their effects on tasks, queue, flag and record; whoever a park hands out is called in order and queued |
| BlockOnSpec.ReturnsWhatMainReturned | src/runtime/executor.rs:88-92 | the value returned is that of the latest poll of the main future |
| BlockOnSpec.NeverPolledAgain | src/runtime/executor.rs:210-244 | a task that was cancelled or has completed is never polled again over any number of turns |
| BlockOnSpec.BetweenPops | src/runtime/executor.rs:87-126 | between two pops at most one park and one poll of the main future, and a park without timeout only after finding the queue empty |
| BlockOnSpec.ParksOnlyWhenEmpty | src/runtime/executor.rs:99-109 | a park without timeout is made only with an empty queue |
| BlockOnSpec.RunsWithin | src/runtime/executor.rs:87-126 | the task at index k is run within three turns per task ahead of it and the current detour, or the loop has ended |
| BlockOnSpec.BlocksOnWokenMainOnlyAfterItsPoll | src/runtime/executor.rs:88-117 | a turn leads into the inner loop with the flag of the main future up only if it was the main future's own poll |
| BlockOnSpec.YieldsThenBlocks | src/runtime/executor.rs:88-109 | a poll of the main future is followed by blocking under its raised flag if and only if it yields with nothing to run |
| BlockOnSpec.BlocksWokenIff | src/runtime/executor.rs:87-126 | over every run, the loop blocks while the main future is woken if and only if the turn before was such a poll |
| BlockOnSpec.YieldingMainBlocks | src/runtime/executor.rs:88-109 | an example: a main future that only wakes itself, with nothing queued, is followed by a park without timeout |
| Executors.Executor.Spawn | src/runtime/executor.rs:55-72 | the new task has its future, is scheduled and last in the queue |
| Executors.Executor.Wake | src/runtime/executor.rs:252-264 | an idle task is scheduled and queued, the main future's flag is raised |
| Executors.Executor.PollOutput | src/runtime/executor.rs:196-208 | delivers the output, stores the awaiter, or panics |
| Executors.Executor.Cancel | src/runtime/executor.rs:240-244 | takes the payload and the handle, returns and records the output if it was there, and records the cancellation; another task is untouched |
| Executors.Executor.Run | src/runtime/executor.rs:210-238 | one run of a task, with everything its future does, seen from before and after |
| Executors.Executor.PollMain | src/runtime/executor.rs:88-92 | clears the flag and polls the main future |
| Executors.Executor.RunNext | src/runtime/executor.rs:95-98 | pops the oldest task and runs it |
| Executors.Executor.Park | src/runtime/executor.rs:99-125 | calls the wakers that a park hands out, or panics when the park fails |
| Executors.Executor.Tick | src/runtime/executor.rs:94-125 | the inner loop is some number of turns of the machine |
| Executors.Executor.BlockOn | src/runtime/executor.rs:74-127 | the nested loops are some number of turns of the machine, the result is the main future's, and the executor stays in order |
| ClockSpec.ParkFiresWhatIsDue | src/runtime/clock.rs:61-80 | splitting the map fires exactly the alarms that are due, in order |
| ClockSpec.TimeoutIsTight | src/runtime/clock.rs:66-79 | a timeout never reaches past the earliest alarm, reaches it exactly when the wait is a whole number of milliseconds that fits 64 bits, and is short by less than one exactly when its whole milliseconds fit |
| ClockSpec.TimeoutsThatFallShort | src/runtime/clock.rs:66-79 | an alarm a nanosecond away and one past 64-bit milliseconds both give a timeout of zero |
| ClockRuns.PollKeepsInv | src/time.rs:84-110 | a poll keeps clock and sleeps in agreement and always finds its entry |
| ClockRuns.ResetPanicsIffFired | src/time.rs:72-78 | a reset panics if and only if the alarm has fired, and otherwise keeps the agreement |
| ClockRuns.DropKeepsInv | src/time.rs:113-119 | dropping a sleep removes exactly its entry |
| ClockRuns.ParkKeepsInv | src/runtime/clock.rs:61-80 | a park keeps the agreement and fires nothing early or twice |
| ClockRuns.EveryRunAgrees | src/runtime/clock.rs:32-80 | after any run ids are unique and bounded, every entry belongs to one live sleep, and every registered sleep has its entry or has fired |
| ClockRuns.PendingIsListed | src/time.rs:95-109 | a pending poll leaves its waker in the map under the deadline |
| ClockRuns.ReadyIffDue | src/time.rs:84-110 | a poll is ready exactly from the deadline on, and before that pending, registered before or not, with its entry and waker in the map and nothing else changed |
| ClockRuns.NewSleepWaits | src/time.rs:84-110 | a new sleep waits for exactly the deadline it was made for |
| ClockRuns.ResetMoves | src/time.rs:72-78 | a reset that succeeds moves the deadline, the entry and its waker, and nothing else |
| ClockRuns.DropForgets | src/time.rs:113-119 | a dropped sleep is gone with its entry, and nothing else changes |
| ClockRuns.HandedOutAreFired | src/runtime/clock.rs:61-80 | the wakers that a park hands out are those of the alarms it fires, in order |
| ClockRuns.FiresAtFirstPark | src/runtime/clock.rs:61-80 | over every run that does not reset or drop the sleep, its alarm fires once, at the first park at or after the deadline and on the latest waker, or not at all |
| ClockRuns.ParkWakesSleeper | src/time.rs:72-110 | after any such run, polls are ready exactly from the deadline on, and resets panic exactly if such a park was made |
| ClockRuns.TickPanicsIffParked | src/time.rs:179-190 | a tick that had to wait panics in its reset if and only if a park was made at or after the deadline before its last poll |
| ClockRuns.TicksOfBothKinds | src/time.rs:179-190 | ticks of both kinds exist |
| ClockRuns.FiringsAreSorted | src/runtime/clock.rs:61-80 | without resets into the past, everything fires in the order of (deadline, id) across all parks |
| Clocks.Clock.InsertAlarm | src/runtime/clock.rs:32-38 | an id above all others, and its entry is the only change to the map |
| Clocks.Clock.RemoveAlarm | src/runtime/clock.rs:40-42 | the map stays sorted and loses the entry with this key, if there is one, and no other |
| Clocks.Clock.ResetAlarm | src/runtime/clock.rs:44-48 | the entry moves with its waker, or the lookup panics |
| Clocks.Clock.ReplaceAlarmWaker | src/runtime/clock.rs:50-57 | the entry's waker is exchanged, or the lookup panics |
| Clocks.Clock.ExtendWithExpired | src/runtime/clock.rs:61-80 | due alarms leave the map and their wakers are appended; the timeout is as specified |
| Clocks.Clock.Park | src/runtime/clock.rs:87-94 | waits for the clock's timeout, or without one |
| Clocks.Clock.ParkTimeout | src/runtime/clock.rs:96-103 | waits for the smaller of the two timeouts |
| Clocks.Sleep.Poll | src/time.rs:84-110 | ready at the deadline, else registered with the current waker |
| Clocks.Sleep.Reset | src/time.rs:72-78 | moves the entry and the deadline, or panics with nothing changed |
| Clocks.Sleep.Drop | src/time.rs:113-119 | removes the sleep's entry |
| ReactorSpec.PollReadyAgreesIff | src/runtime/reactor.rs:71-106 | a poll for readiness loses the agreement with the kernel exactly when it returns an error, and is ready exactly when its flag is up |
| ReactorSpec.PollReadyKeepsSlots | src/runtime/reactor.rs:71-95 | no direction is both reported and waiting, and every stored waker is accounted for |
| ReactorSpec.HandedOutIsWoken | src/runtime/reactor.rs:118-132 | every waker taken from a source is in the list to be woken |
| ReactorSpec.HandleMeans | src/runtime/reactor.rs:118-132 | each reported direction of a live source is ready and without a waker afterwards, the other is unchanged, and exactly the wakers of the reported ones are handed out |
| ReactorSpec.ReadyIffReported | src/runtime/reactor.rs:39-140 | over every run of a new reactor, a poll for a direction is ready if and only if a report of it was handled since the source was inserted and since the last poll for it |
| ReactorSpec.PollReadyTouches | src/runtime/reactor.rs:71-95 | a poll stores the waker or takes the report, hands out whom it displaces, and changes nothing else |
| ReactorSpec.WaitFailsIff | src/runtime/reactor.rs:108-140 | a wait fails exactly if the kernel fails it or refuses an update that somebody needs |
| ReactorSpec.DeliverAgreesIff | src/runtime/reactor.rs:108-140 | after the kernel's one-shot reports are handled, the agreement holds exactly if no update failed |
| ReactorSpec.EveryRunKeepsBooks | src/runtime/reactor.rs:39-140 | over every run, whatever fails, no direction is both reported and waiting, and no waker is lost |
| ReactorSpec.EveryRunAgrees | src/runtime/reactor.rs:39-140 | over every run with working updates the kernel watches exactly the directions that have a waker |
| ReactorSpec.ErrStrands | src/runtime/reactor.rs:89-92 | a poll leaves its waker stored but unwatched exactly when it returns an error |
| ReactorSpec.StaysStranded | src/runtime/reactor.rs:84-132 | such a direction stays unwatched through every call but the other direction's arming poll, a report about the source and its removal |
| ReactorSpec.RescueEnds | src/runtime/reactor.rs:84-132 | each of those ends it, if the kernel takes the update |
| ReactorSpec.StrandedUntilRescued | src/runtime/reactor.rs:71-106 | until then every poll for it returns pending, wakes whom it displaces and does not ask the kernel |
| ReactorSpec.PollIoTriesTwice | src/net/mod.rs:60-81 | `poll_io` tries once, or twice exactly when the direction had been reported; pending leaves the waker stored and watched |
| Reactors.Reactor.InsertSource | src/runtime/reactor.rs:39-63 | a source without interest, or nothing when the kernel refuses |
| Reactors.Reactor.RemoveSource | src/runtime/reactor.rs:65-69 | the source is gone |
| Reactors.Reactor.PollReady | src/runtime/reactor.rs:71-95 | consumes a report, or stores the waker, wakes the one it displaces and arms the kernel |
| Reactors.Reactor.UpdateInterest | src/runtime/reactor.rs:97-106 | asks for exactly the directions that have a waker |
| Reactors.Reactor.Handle | src/runtime/reactor.rs:119-131 | takes the reported directions and arms what is left |
| Reactors.Reactor.Poll | src/runtime/reactor.rs:108-140 | an interrupted wait reports nothing, a failed one is an error, else the reports are handled |
| Reactors.Reactor.HandleAll | src/runtime/reactor.rs:116-132 | the loop over the reports, up to the first failed update |
| Reactors.PollIo | src/net/mod.rs:60-81 | the retry loop |
| OneshotSpec.StepKeepsInv | src/sync/oneshot.rs:59-161 | every call keeps the channel orderly |
| OneshotSpec.EveryRunIsOrderly | src/sync/oneshot.rs:59-161 | after any run the channel is complete exactly if a half is gone or closed, stored wakers are the latest, and none is left once a half is gone |
| OneshotSpec.AcceptedIsReceivedOnce | src/sync/oneshot.rs:123-150 | an accepted message is received exactly once and unchanged by a receiver that keeps asking, even after closing |
| OneshotSpec.NothingElseIsReceived | src/sync/oneshot.rs:123-150 | nothing else is ever received |
| OneshotSpec.LedgerTellsOutcomes | src/sync/oneshot.rs:123-150 | what counts as received is exactly the messages that the calls returned |
| OneshotSpec.AskMeans | src/sync/oneshot.rs:123-150 | an ask finds nothing while the channel is open, then the accepted message once, then the end |
| OneshotSpec.SentIsAnswered | src/sync/oneshot.rs:64-150 | after an accepted send the first ask of a receiver returns that message by either call, and every later one the end |
| OneshotSpec.SenderSeesClosed | src/sync/oneshot.rs:64-94 | a live sender sees the channel closed, and a send fails and returns its message, exactly if the receiver closed or is gone |
| OneshotSpec.WaitingSideIsWoken | src/sync/oneshot.rs:97-161 | whoever waits is called on its latest waker when the other half goes or closes |
| Oneshots.Shared.Send | src/sync/oneshot.rs:64-71 | stores or returns the message, then drops the sender |
| Oneshots.Shared.DropSender | src/sync/oneshot.rs:97-105 | completes the channel and wakes the receiver |
| Oneshots.Shared.PollClosed | src/sync/oneshot.rs:77-84 | ready when complete, else the waker is stored |
| Oneshots.Shared.Close | src/sync/oneshot.rs:112-117 | completes the channel and wakes the sender |
| Oneshots.Shared.TryRecv | src/sync/oneshot.rs:123-132 | takes the message once complete |
| Oneshots.Shared.PollRecv | src/sync/oneshot.rs:138-149 | takes the message once complete, else stores the waker |
| Oneshots.Shared.DropReceiver | src/sync/oneshot.rs:152-161 | completes the channel, forgets its own waker and wakes the sender |

## Left out

- Executors.Executor.BlockOn: takes a bound on the passes of its outer loop, because the source's loop need not end; the theorems about turns hold for every number of them, so every finite part of an execution is covered, but nothing is said about whether it returns.
- Executors.Executor.Run: the tasks are records in the executor's table, not reference-counted objects; sharing of task objects and their deallocation are not captured. A future is the list of calls that its polls make, which cannot depend on what those calls return; since that list is arbitrary, every actual execution is one of those covered.
- Executors.Executor.PollOutput: a panic inside a poll ends what that poll does and the `block_on` around it; other panics of futures, and the catching of panics around wakers, are not modelled.
- Semaphores.Semaphore.AddPermits: an overflowing addition panics, as in a debug build; the wrap-around of a release build is not modelled.
- Clocks.Clock.ExtendWithExpired: the ordered map is the sorted sequence of its entries; the tree behind it is not modelled. The alarm counter is unbounded.
- Reactors.Reactor.RemoveSource: the kernel always forgets a removed source; a failing deregistration is not modelled. The kernel reports a source at most once per poll, as epoll does; kqueue, which may report both directions separately, is not modelled.
- The slab behind semaphore and reactor: a map whose next vacant slot is a parameter, reused after removal.
- The values inside locks, and `into_inner` and `get_mut`: only the borrow state matters to exclusion, and its reader count is unbounded.
- A `block_on` inside a task's poll: it would share the queue and the flag of the main future with the outer one; the model has one loop at a time.
- Raw waker tables, reference counts, thread checks, pinning, thread-local context, formatting: language plumbing without a property of its own.
- System pollers, sockets and TCP: foreign calls; the conversion of a timeout to the poller's own unit is not modelled.
- `Interval` and `Timeout` as types: only the calls that `Interval::tick` makes are modelled.
