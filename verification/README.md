# The FreeRTOS kernel, modelled and proved

A Dafny model of the FreeRTOS V10.5.1 kernel in `FreeRTOS/FreeRTOS-Kernel`: the intrusive
lists, the tick and the two delayed lists, scheduler suspension, queues and their locks,
mutexes with priority inheritance, software timers, stream and message buffers, event
groups and co-routines. `dafny verify dfyconfig.toml` checks it all.

Each part has a specification over values (sequences, maps, records) on which the main
theorems are proved over all runs, and, where the source updates variables in place, a
class whose methods carry the source's branches and loops and are proved to do what the
specification says.

| part | modules |
|---|---|
| `list.c` | `Rings` (the order a list keeps), `IntrusiveLists` (heap nodes), `Boards` (many lists, one container field) |
| the tick and delays of `tasks.c` | `Ticks`, `TimedLists`, `DelayedLists`, `Timeouts` |
| where tasks are | `Placement`, `Kernel` (operations, invariant, suspension), `Whereabouts` (every operation on maps), `Fairness`, `FairRuns` and `Arrivals` (who has its turn, in which order), `KernelTime` (the kernel against unbounded time), `Deadlines` (one task against the clock), `TicklessIdle`, `EventLists` and `EventOrder`, `Preemption` and `YieldRules` (who runs, and when a switch is owed), `LostSwitches`, `KernelCalls` (the class) |
| `queue.c` | `QueueWakeups` (the lock protocol), `ItemRings` (the ring), `Queues` (the class, on bytes), `Mutexes` |
| `timers.c` | `TimerRules`, `Timers` |
| `stream_buffer.c` | `StreamProtocol` (writer and reader interleaved), `MessageFraming`, `MessageProtocol` (messages under interleaving), `StreamBuffers` (the class) |
| `event_groups.c` | `EventGroups`, `Barriers` |
| `croutine.c` | `CoRoutines`, `CoRoutineRuns` (turn by turn, interrupted), `CoRoutineCalls` (the class) |
| shared | `Bytes`, `Priorities`, `Wrappers` |

Conventions. The tick counter has 32 bits. An absolute time is an epoch and a tick,
epoch * 2^32 + tick; the epoch of the clock is the number of overflows. A critical section is
one atomic step. Critical sections, trace macros and memory allocation have no counterpart of
their own; yields are part of the modules on preemption only. The configuration is the one of
`soc2022_project/projects/FreeRTOSConfig.h` where it matters (7 priorities, generic task
selection, indefinite blocking, no queue sets), with tickless idle, and so the resets of the
next unblock time that come with it, delay abort and co-routines modelled as if switched on. A
message length is stored in 4 bytes, least significant first.

Assumptions on the environment appear as preconditions: the idle task never blocks; the timer
task samples the time at least once in each turn of the counter, and a timer command is less
than a turn old; only one task writes to a stream buffer and one reads; the claim on the
holder's priority takes base priorities as fixed, and waits for a mutex as made by tasks that hold
none; in a run of the kernel a step of the tick does not cross the wrap.

Eight properties do not hold on all inputs. Each has a lemma with a concrete input that fails
and one with the exact condition:

- a timeout is noticed once it is over: `Timeouts.LateCheckMisses`, `Timeouts.CheckIsExactIff`;
- a periodic delay blocks exactly if its next wake time lies ahead, which fails for calls a turn
  late, `Timeouts.LateCallBlocks`, and for calls before the previous wake time, as a resume or an
  aborted delay brings about, `Timeouts.EarlyCallReturns`: `Timeouts.DelayUntilIsExactIff`;
- a timer command is judged right: `TimerRules.OldCommandIsMisjudged`, `TimerRules.DecideIsExactIff`;
- a step of the tick is so many ticks: `TicklessIdle.WrappingStepLosesTheOverflow`,
  `TicklessIdle.StepTickIsTicks`;
- a reset forgets no sender: `QueueWakeups.ResetLeavesASenderAsleep`, `QueueWakeups.ResetCoversSendersIff`;
- a blocked task waits on the list of its epoch, which fails for a wait of 0 ticks, made only by
  the timer task and only at tick 0: both are in `DelayedLists.BlockIsHeldIff`;
- a task's priority is not below its base: `Mutexes.SetBaseLeavesItBelow`, `Mutexes.SetBaseKeepsOrderIff`;
- a give of a mutex leaves no ready task above the running one without a switch:
  `LostSwitches.SwitchIsLost`, `Preemption.GiveKeepsIff`. The comment at
  `FreeRTOS/FreeRTOS-Kernel/tasks.c:4208-4214` asks for the switch whether a task waits for the
  mutex or not; `queue.c:934-956` makes it only if none does. The model follows the code.

## Model

| member | source | states |
|---|---|---|
| Rings.InsertPosKeepsSorted | FreeRTOS/FreeRTOS-Kernel/list.c:128-196 | The scan of `vListInsert` finds the one place that keeps an ascending list ascending, behind all items of the same value |
| Rings.RoundRobin | FreeRTOS/FreeRTOS-Kernel/include/list.h:285-296 | n selections on an unchanged list of n items visit every item exactly once, in ring order from the walking index |
| Rings.InsertionsDoNotDelay | FreeRTOS/FreeRTOS-Kernel/list.c:98-126 | However picks and end insertions alternate, an item the index is not resting on is selected after exactly as many picks as on the unchanged list |
| Rings.InsertedComesLast | FreeRTOS/FreeRTOS-Kernel/list.c:98-126 | An item inserted before the index is selected last: every other item not being served comes first |
| IntrusiveLists.List.constructor | FreeRTOS/FreeRTOS-Kernel/list.c:50-83 | A new list is a cycle of the end marker alone, with the index on it |
| IntrusiveLists.List.InsertEnd | FreeRTOS/FreeRTOS-Kernel/list.c:98-126 | On heap nodes: the links stay inverse and cyclic, container and count exact, and the item comes just before the index |
| IntrusiveLists.List.FindPosition | FreeRTOS/FreeRTOS-Kernel/list.c:150-186 | The pointer walk of `vListInsert` terminates, at the latest at the maximal marker, and ends at the position of stable sorted insertion |
| IntrusiveLists.List.Insert | FreeRTOS/FreeRTOS-Kernel/list.c:128-196 | On heap nodes: the list afterwards is the old one with the item at its sorted place, the index on the item it was on |
| IntrusiveLists.List.Remove | FreeRTOS/FreeRTOS-Kernel/list.c:199-225 | On heap nodes: the list afterwards is the old one without the item; the index moves back if it rested on it; the count left is returned |
| IntrusiveLists.List.NextEntry | FreeRTOS/FreeRTOS-Kernel/include/list.h:285-296 | The index moves one item on, skips the marker, and its item is returned |
| IntrusiveLists.List.HookedIsDraft | FreeRTOS/FreeRTOS-Kernel/list.c:112-125 | The four pointer writes of an insertion splice the item into the cycle at the one place, and nowhere else |
| IntrusiveLists.List.UnhookedIsDraft | FreeRTOS/FreeRTOS-Kernel/list.c:205-216 | The two pointer writes of a removal cut the item out of the cycle, with the index on a node that stays |
| DelayedLists.BlockIsHeldIff | FreeRTOS/FreeRTOS-Kernel/tasks.c:201-213 | Whatever the wait, the lists hold it as they should if and only if it is not a wait of 0 ticks that begins at the last tick before the wrap: that one would still be on the current list when the lists change places |
| DelayedLists.BlockRefines | FreeRTOS/FreeRTOS-Kernel/tasks.c:5404-5438 | Blocking for 0 to 2^32-1 ticks, the first only before the last tick of an epoch, on the two wrapped lists is blocking on one unbounded list until now + w, whichever list the wrapped comparison picks |
| DelayedLists.OnCurrentIffThisEpoch | FreeRTOS/FreeRTOS-Kernel/tasks.c:5414-5438 | A task is on the current list if and only if its absolute wake time lies in the present epoch, and otherwise it lies in the next |
| DelayedLists.BothListsAscend | FreeRTOS/FreeRTOS-Kernel/tasks.c:2762-2795 | Both lists are always in the order of their wake times |
| DelayedLists.EmptyAtSwitch | FreeRTOS/FreeRTOS-Kernel/tasks.c:201-213 | The current list is empty whenever the counter comes round, so the assertion in the switch never fires |
| DelayedLists.ExpireTakesTheDue | FreeRTOS/FreeRTOS-Kernel/tasks.c:2759-2805 | The cached unblock time never hides a task that is due: the guarded loop takes off exactly the due prefix of the list |
| DelayedLists.TickRefines | FreeRTOS/FreeRTOS-Kernel/tasks.c:2733-2838 | One tick times out the same tasks as the unbounded agenda, in the same order, each of them at exactly its wake time |
| DelayedLists.LeaveRefines | FreeRTOS/FreeRTOS-Kernel/tasks.c:3194-3200 | A task that leaves by an event leaves the agenda, and the cached time stays a lower bound |
| DelayedLists.RunRefines | FreeRTOS/FreeRTOS-Kernel/tasks.c:2724-2838 | Over every run of blocks, leaves, ticks and refreshes the wrapped lists give the same log of timeouts, with the same absolute times, as the agenda |
| DelayedLists.TimesOutOnTime | FreeRTOS/FreeRTOS-Kernel/tasks.c:2733-2838 | Whatever else happens, a waiter that no event removes is still waiting before its absolute wake time and has timed out from then on |
| DelayedLists.QuietTicks | FreeRTOS/FreeRTOS-Kernel/tasks.c:2754-2758 | Until the cached unblock time a tick does nothing but count |
| TicklessIdle.StepTickIsTicks | FreeRTOS/FreeRTOS-Kernel/tasks.c:2585-2615 | On the whole kernel state, ticks already pended and ready lists included: a step that passes the assertions, then the resume, is the resume and then that many ordinary ticks if and only if the counter does not wrap on the way; the assertion adds in tick arithmetic, so it lets wrapping steps through |
| TicklessIdle.WrappingStepLosesTheOverflow | FreeRTOS/FreeRTOS-Kernel/tasks.c:2585-2615 | A concrete step over the wrap that passes the assertions and loses the overflow for good |
| TicklessIdle.WrappedStepIsBehind | FreeRTOS/FreeRTOS-Kernel/tasks.c:2585-2615 | Every step over the wrap leaves the clock exactly one turn behind |
| TicklessIdle.UnlockKeepsCachedTime | FreeRTOS/FreeRTOS-Kernel/tasks.c:2222-2230 | Resuming never brings the cached unblock time nearer, so skipped ticks stay quiet |
| TimedLists.InsertIsStable | FreeRTOS/FreeRTOS-Kernel/list.c:150-186 | Sorted insertion by item value puts ties behind the entries already there |
| TimedLists.LiftOfInsert | FreeRTOS/FreeRTOS-Kernel/list.c:150-186 | Inserting by wrapped value and reading the list as absolute times is inserting by absolute time |
| Timeouts.TimeOut.CheckForTimeOut | FreeRTOS/FreeRTOS-Kernel/tasks.c:3310-3372 | The method updates the stored entry time and the remaining wait exactly as the specification function says, abort and endless wait included |
| Timeouts.CheckIsExactIff | FreeRTOS/FreeRTOS-Kernel/tasks.c:3318-3366 | For every input the verdict is right if and only if the check is not more than one epoch late at an earlier tick with less than the wait gone by in tick arithmetic |
| Timeouts.LateCheckMisses | FreeRTOS/FreeRTOS-Kernel/tasks.c:3340-3360 | A concrete late check that does not report a wait long over |
| Timeouts.CheckKeepsTheEnd | FreeRTOS/FreeRTOS-Kernel/tasks.c:3340-3366 | As long as it is not over, entry time plus remaining wait stays the same absolute time |
| Timeouts.PollIsExact | FreeRTOS/FreeRTOS-Kernel/tasks.c:3310-3372 | Over any sequence of checks, each at most an epoch after the one before, the first to report a timeout is the first made at or after start + wait |
| Timeouts.DelayUntilIsExactIff | FreeRTOS/FreeRTOS-Kernel/tasks.c:1230-1262 | For every input, the previous wake time behind or ahead: with W for less than the increment gone by since it in tick arithmetic, the periodic delay blocks exactly if its next wake time lies ahead, if and only if W holds where the previous wake time is ahead of now, W fails where it is a turn or more behind, and always in between |
| Timeouts.LateCallBlocks | FreeRTOS/FreeRTOS-Kernel/tasks.c:1235-1262 | A concrete call, a turn of the counter late, that blocks all the same |
| Timeouts.EarlyCallReturns | FreeRTOS/FreeRTOS-Kernel/tasks.c:1235-1247 | A concrete call, by a task that was resumed before its wake time, that does not block although the next wake time lies ahead |
| Timeouts.EarlyTaskRunsFree | FreeRTOS/FreeRTOS-Kernel/tasks.c:1235-1269 | A task whose previous wake time is ahead of now, and whose work fits in its period, is held by none of its calls until the next wake time is more than a whole turn ahead; from then on it returns at marks a turn before the times asked for |
| Timeouts.FreeRunBounds | FreeRTOS/FreeRTOS-Kernel/tasks.c:1235-1269 | How long it runs so: every call whose next wake time is within a turn of the beginning returns at once, and no more calls do than are ticks between the previous wake time and a turn after the beginning |
| Timeouts.LateWorkIsCaughtUp | FreeRTOS/FreeRTOS-Kernel/tasks.c:1249-1269 | Whatever the work takes, if no call comes a turn after the previous wake time, each call returns at its mark, or at once if that has passed |
| Timeouts.PeriodicTask.Delay | FreeRTOS/FreeRTOS-Kernel/tasks.c:1218-1278 | The stored wake time is replaced, and the verdict and the ticks are those of the specification |
| Timeouts.DelayUntilWakesOnSchedule | FreeRTOS/FreeRTOS-Kernel/tasks.c:1230-1277 | With the previous wake time less than a full turn old it blocks if and only if P + increment > T, and for exactly P + increment - T ticks |
| Timeouts.NoDrift | FreeRTOS/FreeRTOS-Kernel/tasks.c:1218-1278 | A periodic task whose work fits in its period returns from its calls exactly at the marks of the period, however often the counter wraps |
| Timeouts.MarkAt | FreeRTOS/FreeRTOS-Kernel/tasks.c:1218-1278 | The k-th mark is the start plus k + 1 increments |
| Timeouts.StoredTimeNeverDrifts | FreeRTOS/FreeRTOS-Kernel/tasks.c:1268-1269 | After k calls, late or not, the stored wake time is the first one plus k increments, modulo 2^32 |
| QueueWakeups.NoReceiverIsForgotten | FreeRTOS/FreeRTOS-Kernel/queue.c:1099-1196 | Over every interleaving of tasks and interrupts, if tasks wait to receive, every message has a woken receiver that has not run; while the queue is locked the counted posts make up the difference, or the count is full |
| QueueWakeups.NoSenderIsForgotten | FreeRTOS/FreeRTOS-Kernel/queue.c:1927-1959 | The mirror claim for free places and waiting senders, over every run without a reset |
| QueueWakeups.SleepersMeanEmpty | FreeRTOS/FreeRTOS-Kernel/queue.c:1378-1519 | Once every woken receiver has run and nobody holds the lock, a task that still waits to receive waits on an empty queue |
| QueueWakeups.ResetCoversSendersIff | FreeRTOS/FreeRTOS-Kernel/queue.c:309-338 | A reset keeps the sender claim if and only if at most one sender waits, or the senders already woken plus one are enough for all the places |
| QueueWakeups.ResetLeavesASenderAsleep | FreeRTOS/FreeRTOS-Kernel/queue.c:309-338 | A concrete reset that frees two places and leaves one of two senders asleep |
| QueueWakeups.UnlockKeeps | FreeRTOS/FreeRTOS-Kernel/queue.c:2279-2396 | The unlock hands on every wake-up that was counted; a count that stopped at the number of tasks has lost none, because there are no more waiters than tasks |
| QueueWakeups.UnlockWakesTheCounted | FreeRTOS/FreeRTOS-Kernel/queue.c:2279-2396 | The unlock wakes one waiter for each post that was counted, the first ones first, and no more |
| QueueWakeups.EventsTakeTheFirst | FreeRTOS/FreeRTOS-Kernel/queue.c:2279-2396 | Every step but a task's own joining or leaving takes waiters off the front of a list only, wakes exactly those, and has a reason for each, now or counted before |
| QueueWakeups.NoSpuriousWakeup | FreeRTOS/FreeRTOS-Kernel/queue.c:1099-1196 | Over every interleaving the wake-ups on one side, and those still counted, are no more than the messages or places that came, the wake-ups that readers passed on, and the resets |
| QueueWakeups.BlockingJoins | FreeRTOS/FreeRTOS-Kernel/queue.c:999-1025 | A task that suspends the scheduler, locks the queue and finds nothing is on the list in its place after the unlock, and nothing else has changed; if it leaves the list everything is as it was before |
| QueueWakeups.LookingChangesNothing | FreeRTOS/FreeRTOS-Kernel/queue.c:1028-1043 | If there is something after all, or the time is over, the lock and the unlock change nothing |
| QueueWakeups.WaitersAddUp | FreeRTOS/FreeRTOS-Kernel/queue.c:2279-2396 | Over every run as many wait as waited before, with those that joined, and without those that left by themselves or were woken |
| QueueWakeups.NextKeeps | FreeRTOS/FreeRTOS-Kernel/queue.c:999-1031 | Every single step keeps both halves covered; only a reset can fail the senders |
| QueueWakeups.CountsFit | FreeRTOS/FreeRTOS-Kernel/queue.c:268-293 | With fewer than 127 tasks the 8-bit lock counts never reach the value their assertion forbids |
| QueueWakeups.PeekKeeps | FreeRTOS/FreeRTOS-Kernel/queue.c:1770-1800 | A receiver woken to peek passes its wake-up on, so the message it leaves stays covered |
| ItemRings.PutBackAppends | FreeRTOS/FreeRTOS-Kernel/queue.c:2203-2215 | A send to the back appends to the contents, and the write position stays count + 1 items past the read position |
| ItemRings.PutFrontPrepends | FreeRTOS/FreeRTOS-Kernel/queue.c:2216-2229 | A send to the front puts the item before the contents |
| ItemRings.OverwriteReplaces | FreeRTOS/FreeRTOS-Kernel/queue.c:2230-2246 | On a queue of length 1 an overwrite leaves exactly the new item, full or empty |
| ItemRings.TakeTakesTheFirst | FreeRTOS/FreeRTOS-Kernel/queue.c:2258-2276 | A receive and a peek both give the oldest item; the receive leaves the others |
| ItemRings.RingIsBoundedDeque | FreeRTOS/FreeRTOS-Kernel/queue.c:2175-2276 | Any run of sends to either end, overwrites, receives, peeks and resets gets the same replies from the ring as from a sequence of at most uxLength items |
| Queues.WriteSlot | FreeRTOS/FreeRTOS-Kernel/queue.c:2205-2218 | Copying one item over its slot changes that slot of the byte array and no other |
| Queues.Queue.CopyTo | FreeRTOS/FreeRTOS-Kernel/queue.c:2175-2253 | On the byte array, for any item size > 0: the storage and both pointers afterwards are those of the item ring |
| Queues.Queue.CopyFrom | FreeRTOS/FreeRTOS-Kernel/queue.c:2258-2276 | The read pointer advances around the ring, and the bytes of its slot are returned |
| Queues.Queue.Send | FreeRTOS/FreeRTOS-Kernel/queue.c:862-935 | The critical section of a send: the item ring and the wait lists change as specified, or the send is refused because the queue is full |
| Queues.Queue.Receive | FreeRTOS/FreeRTOS-Kernel/queue.c:1407-1440 | The critical section of a receive: the oldest item, one message less, and the first waiting sender woken |
| Queues.Queue.Peek | FreeRTOS/FreeRTOS-Kernel/queue.c:1762-1800 | The oldest item without removing it, and the next waiting receiver woken |
| Queues.Queue.Reset | FreeRTOS/FreeRTOS-Kernel/queue.c:296-338 | Empty again, unlocked, one waiting sender woken |
| Queues.Queue.SendFromIsr | FreeRTOS/FreeRTOS-Kernel/queue.c:1047-1196 | From an interrupt: the item is stored, and either the first receiver is woken or, on a locked queue, the capped count goes up |
| Queues.Queue.ReceiveFromIsr | FreeRTOS/FreeRTOS-Kernel/queue.c:1882-1969 | From an interrupt: the oldest item, and the first sender woken or the capped count raised |
| Queues.Queue.LockQueue | FreeRTOS/FreeRTOS-Kernel/queue.c:251-263 | Both counts start at 0 unless the queue is locked already |
| Queues.Queue.UnlockTx | FreeRTOS/FreeRTOS-Kernel/queue.c:2285-2363 | The counting loop wakes one receiver for each counted post while any waits, and unlocks |
| Queues.Queue.UnlockRx | FreeRTOS/FreeRTOS-Kernel/queue.c:2365-2396 | The counting loop wakes one sender for each counted reception while any waits, and unlocks |
| Mutexes.RunConserves | FreeRTOS/FreeRTOS-Kernel/queue.c:1559-1573 | Over every run of takes, gives, recursive takes and gives, waits, timeouts, priority changes and waits for event groups: the held count of a task is the number of mutexes naming it, a mutex has count 0 exactly while it has a holder, and a task that holds none runs at its base priority |
| Mutexes.AssertionsHold | FreeRTOS/FreeRTOS-Kernel/tasks.c:4167-4176 | The assertions on held counts and the recursive count never fire for a holder |
| Mutexes.ReleasedByTheBalancingGive | FreeRTOS/FreeRTOS-Kernel/queue.c:668-759 | A recursive mutex is as deep as its takes exceed its gives over the whole run, and stays with its holder until the give that balances the first take |
| Mutexes.HolderPriority | FreeRTOS/FreeRTOS-Kernel/tasks.c:4071-4154 | With base priorities fixed, and tasks waiting for a mutex only while they hold none, a holder of any number of mutexes always runs at least at its base priority and at the priority of every task that has blocked on one of them during this hold and still waits, through timeouts, disinheritance and waits for event groups |
| Mutexes.DisownIsExact | FreeRTOS/FreeRTOS-Kernel/tasks.c:4241-4340 | After a waiter that had raised it has timed out, a holder of this mutex alone is left at exactly the higher of its base priority and the highest priority that still waits; a holder of several keeps its priority, and so does everybody if nothing was inherited |
| Mutexes.PriorityFallsOnly | FreeRTOS/FreeRTOS-Kernel/tasks.c:4161-4340 | A priority falls only when it is set, when the last mutex held is given back, or when a waiter of the only mutex held has timed out |
| Mutexes.GiveWakesTheFirst | FreeRTOS/FreeRTOS-Kernel/queue.c:929-961 | A give takes the first waiter off the list and wakes it, and nobody else, and leaves the other mutexes alone |
| Mutexes.WaitListMoves | FreeRTOS/FreeRTOS-Kernel/queue.c:929-961 | Every step moves a wait list as it should: a freeing give takes the first, a timeout the task it is about, a task that blocks joins, and everything else leaves it alone |
| Mutexes.FreeMutexIsSeen | FreeRTOS/FreeRTOS-Kernel/queue.c:1542-1680 | Over every run, while a mutex is free and tasks wait for it, a task has been woken that has not tried again |
| Mutexes.SetBaseMeans | FreeRTOS/FreeRTOS-Kernel/tasks.c:1533-1625 | Setting a priority sets the base, below the limit; the priority follows unless it is inherited; an item value in use is left alone |
| Mutexes.SetBaseKeepsOrderIff | FreeRTOS/FreeRTOS-Kernel/tasks.c:1594-1625 | The priority is not below the base afterwards if and only if it was not inherited or the base is not set above it; the item value stands for the priority if and only if it was not inherited, or the base is set to the inherited priority or left |
| Mutexes.SetBaseLeavesItBelow | FreeRTOS/FreeRTOS-Kernel/tasks.c:1594-1609 | A concrete holder left below its base priority |
| Mutexes.OwnRecord | FreeRTOS/FreeRTOS-Kernel/tasks.c:1533-1625 | A priority that is set changes the record of that task and no other; a wait for event bits puts the item value in use, and the reset gives it back to the priority |
| Mutexes.ResetUndoesAwait | FreeRTOS/FreeRTOS-Kernel/tasks.c:4730-4741 | A wait for event bits and the reset after it leave every record as it was |
| Mutexes.UsedItemStays | FreeRTOS/FreeRTOS-Kernel/tasks.c:4084-4110 | No change of priority touches an item value that holds event bits |
| Mutexes.BlockRaises | FreeRTOS/FreeRTOS-Kernel/tasks.c:4084-4146 | Blocking lifts the holder to the blocker's priority, and is remembered for a timeout exactly if the holder's base priority is lower |
| Mutexes.FirstIsHighest | FreeRTOS/FreeRTOS-Kernel/queue.c:2150-2170 | The priority read off the head of the wait list is the highest that waits |
| Mutexes.SetPriorityConserves | FreeRTOS/FreeRTOS-Kernel/tasks.c:1594-1609 | A change of base priority keeps the conservation claims, whether or not a priority is inherited |
| Mutexes.ItemSafe | FreeRTOS/FreeRTOS-Kernel/tasks.c:4730-4741 | A holder may wait for an event group, its item value in use, and reset it again: all claims on priorities still hold |
| Mutexes.FreshIsSafe | FreeRTOS/FreeRTOS-Kernel/queue.c:542-566 | With every mutex free and every task at its base priority all claims hold to begin with |
| Mutexes.MutexCalls.PriorityInherit | FreeRTOS/FreeRTOS-Kernel/tasks.c:4071-4154 | The holder's record and the returned flag are those of the specification; the item value is left alone while it is in use |
| Mutexes.MutexCalls.PriorityDisinherit | FreeRTOS/FreeRTOS-Kernel/tasks.c:4161-4234 | The holder holds one mutex less, and is back at its base priority if that was the last; the result asks for a yield exactly if its priority has changed |
| Mutexes.MutexCalls.PriorityDisinheritAfterTimeout | FreeRTOS/FreeRTOS-Kernel/tasks.c:4241-4340 | The holder drops to the given priority or its base, whichever is higher, if it holds only this mutex; the item value is left alone while it is in use |
| Mutexes.MutexCalls.SemaphoreTake | FreeRTOS/FreeRTOS-Kernel/queue.c:1542-1600 | The take succeeds if and only if nobody holds the mutex |
| Mutexes.MutexCalls.WaitFor | FreeRTOS/FreeRTOS-Kernel/queue.c:1636-1672 | Inherit, then join the wait list in the order of the event item values |
| Mutexes.MutexCalls.TimedOut | FreeRTOS/FreeRTOS-Kernel/queue.c:1688-1725 | The inherited priority is taken back only if the mutex is still held and inheritance had occurred |
| Mutexes.MutexCalls.GenericSend | FreeRTOS/FreeRTOS-Kernel/queue.c:929-961 | A give clears the holder, disinherits, raises the count and takes the first waiter off the list, who counts as woken; it yields if that one is above the giver, or, if none waits, if the giver has lost priority |
| Mutexes.MutexCalls.TakeMutexRecursive | FreeRTOS/FreeRTOS-Kernel/queue.c:723-759 | Succeeds if and only if the mutex is free or already held by the caller |
| Mutexes.MutexCalls.GiveMutexRecursive | FreeRTOS/FreeRTOS-Kernel/queue.c:668-715 | Succeeds if and only if the caller is the holder, and gives the mutex back at depth 0 |
| StreamProtocol.NothingIsLostOrMadeUp | FreeRTOS/FreeRTOS-Kernel/stream_buffer.c:1248-1335 | Over every interleaving of one writer and one reader, at every index read, byte copied and index published: what is read is a prefix of what was accepted, the rest is in the ring, and a stale index only under-reports |
| StreamProtocol.CompareFindsTheSpace | FreeRTOS/FreeRTOS-Kernel/stream_buffer.c:607-614 | The loop that reads the tail until it has not moved ends exactly if it is where it was read first, and then the space found is the space there is |
| StreamProtocol.DroppingStartsOver | FreeRTOS/FreeRTOS-Kernel/stream_buffer.c:824-878 | A side that gives up may begin again, and has changed nothing for the other |
| StreamProtocol.SendGetsThrough | FreeRTOS/FreeRTOS-Kernel/stream_buffer.c:1248-1291 | A send whose data fit, with nothing between its steps, appends the data to what is pending and leaves the reader alone |
| StreamProtocol.ReceiveGetsThrough | FreeRTOS/FreeRTOS-Kernel/stream_buffer.c:1294-1335 | A receive of bytes that are there, with nothing between its steps, takes the first of them, and leaves the writer alone |
| StreamProtocol.SidesAreApart | FreeRTOS/FreeRTOS-Kernel/stream_buffer.c:1248-1335 | No byte the writer may touch is one the reader may touch |
| StreamProtocol.UsedAndSpaces | FreeRTOS/FreeRTOS-Kernel/stream_buffer.c:597-628 | The two counts always add up to one less than the length of the ring |
| MessageProtocol.MessagesStayWhole | FreeRTOS/FreeRTOS-Kernel/stream_buffer.c:824-871 | Over every interleaving, byte by byte, of a writer and a reader of messages: the buffer always holds whole messages, the messages consumed are the first of those sent, in order, the others are in the buffer, and a reader that finds anything finds all of the first message |
| MessageProtocol.NextMessages | FreeRTOS/FreeRTOS-Kernel/stream_buffer.c:1075-1124 | Every single step of either side keeps the buffer, and the part of it the reader has seen, whole messages |
| MessageProtocol.FrameIsFrame | FreeRTOS/FreeRTOS-Kernel/stream_buffer.c:833-868 | What is written for a message is a length and that many bytes, so the writer keeps to its side |
| MessageProtocol.FirstFrame | FreeRTOS/FreeRTOS-Kernel/stream_buffer.c:1083-1108 | A length and that many bytes at the front of a buffer are its first message, and what is behind them are the others |
| StreamProtocol.TailMoves | FreeRTOS/FreeRTOS-Kernel/stream_buffer.c:1115-1121 | Publishing the tail drops exactly the bytes read from the pending ones and gives exactly that much space |
| MessageFraming.DecodeEncoded | FreeRTOS/FreeRTOS-Kernel/stream_buffer.c:833-851 | Decoding the buffer gives back exactly the messages that were encoded |
| MessageFraming.EncodeDecoded | FreeRTOS/FreeRTOS-Kernel/stream_buffer.c:1083-1108 | Encoding what was decoded gives back the bytes, so the layout is unique |
| MessageFraming.FrameBehind | FreeRTOS/FreeRTOS-Kernel/stream_buffer.c:833-871 | A frame behind whole messages is one more whole message behind them |
| StreamBuffers.SendAppendsOneMessage | FreeRTOS/FreeRTOS-Kernel/stream_buffer.c:824-871 | A send to a message buffer appends the whole message, or nothing if it is empty or does not fit |
| StreamBuffers.StreamTakesWhatFits | FreeRTOS/FreeRTOS-Kernel/stream_buffer.c:824-878 | A send to a stream buffer appends the beginning of the data, all of it or as much as fills the buffer up |
| StreamBuffers.WroteBehind | FreeRTOS/FreeRTOS-Kernel/stream_buffer.c:1248-1291 | A write behind the contents, wrapped or not, adds its bytes and disturbs none |
| StreamBuffers.StreamBuffer.WriteBytes | FreeRTOS/FreeRTOS-Kernel/stream_buffer.c:1248-1291 | The one or two copies write exactly the given bytes around the ring, change nothing else, and return the next place |
| StreamBuffers.StreamBuffer.ReadBytes | FreeRTOS/FreeRTOS-Kernel/stream_buffer.c:1294-1335 | The one or two copies return exactly the bytes of the ring from the given place on |
| StreamBuffers.StreamBuffer.BytesInBuffer | FreeRTOS/FreeRTOS-Kernel/stream_buffer.c:1338-1356 | The count is the number of bytes sent and not received |
| StreamBuffers.StreamBuffer.SpacesAvailable | FreeRTOS/FreeRTOS-Kernel/stream_buffer.c:597-628 | The space and the bytes in the buffer add up to one less than its length |
| StreamBuffers.StreamBuffer.WriteMessage | FreeRTOS/FreeRTOS-Kernel/stream_buffer.c:824-871 | The prefix and the body are published together; a message that does not fit, or is empty, leaves the contents unchanged |
| StreamBuffers.StreamBuffer.WriteStream | FreeRTOS/FreeRTOS-Kernel/stream_buffer.c:855-871 | As many bytes as there is space for are appended, and counted |
| StreamBuffers.StreamBuffer.Send | FreeRTOS/FreeRTOS-Kernel/stream_buffer.c:773-821 | Either kind of send, without waiting |
| StreamBuffers.WroteTwice | FreeRTOS/FreeRTOS-Kernel/stream_buffer.c:840-868 | The copy of the length and the copy of the body behind it are one copy of the framed message, wherever either wraps |
| StreamBuffers.StreamBuffer.ReadLength | FreeRTOS/FreeRTOS-Kernel/stream_buffer.c:1085-1090 | The length read is that of the oldest message, all of which is there |
| StreamBuffers.StreamBuffer.ReadMessage | FreeRTOS/FreeRTOS-Kernel/stream_buffer.c:1075-1124 | Exactly the oldest message is returned and removed, or nothing is returned and nothing changed if the caller's buffer is too small, wherever prefix and body wrap |
| StreamBuffers.StreamBuffer.ReadStream | FreeRTOS/FreeRTOS-Kernel/stream_buffer.c:1106-1124 | The first bytes, as many as wanted and available, are returned and removed |
| StreamBuffers.StreamBuffer.ReceiveMessage | FreeRTOS/FreeRTOS-Kernel/stream_buffer.c:1018-1072 | Without waiting: the oldest message if there is one and it fits, and otherwise an unchanged buffer |
| StreamBuffers.StreamBuffer.ReceiveStream | FreeRTOS/FreeRTOS-Kernel/stream_buffer.c:1018-1072 | What is returned and what is left together are the old contents |
| StreamBuffers.StreamBuffer.NextMessageLength | FreeRTOS/FreeRTOS-Kernel/stream_buffer.c:978-1015 | The length of the oldest message of a message buffer, or 0 if there is none or it is a stream buffer |
| TimerRules.DecideIsExact | FreeRTOS/FreeRTOS-Kernel/timers.c:716-757 | For a command less than a full turn old: processed now if and only if the absolute expiry is not ahead, and otherwise put on the list of the epoch it expires in |
| TimerRules.DecideIsExactIff | FreeRTOS/FreeRTOS-Kernel/timers.c:726-752 | For every command, however old: the verdict is right if and only if the command is less than a full turn old or its period is over in tick arithmetic too |
| TimerRules.OldCommandIsMisjudged | FreeRTOS/FreeRTOS-Kernel/timers.c:726-752 | A concrete command, a turn of the counter old, whose timer is listed though it has expired |
| TimerRules.FiredIsFloor | FreeRTOS/FreeRTOS-Kernel/timers.c:522-538 | If the next callback lies ahead and the one before does not, the callbacks made are the whole periods gone by |
| TimerRules.CaughtUp | FreeRTOS/FreeRTOS-Kernel/timers.c:604-662 | With nothing expired on the current list, every periodic timer on either list has made one callback for each whole period since its start |
| Timers.TimerService.ExactlyOnePerPeriod | FreeRTOS/FreeRTOS-Kernel/timers.c:604-662 | Whenever the service has caught up to T, every active auto-reload timer started at C has made exactly floor((T - C) / period) callbacks: no drift, none missed, none doubled |
| Timers.TimerService.InsertExactly | FreeRTOS/FreeRTOS-Kernel/timers.c:716-757 | The insertion says that the timer has expired, or puts it on the list of its epoch |
| Timers.TimerService.Reload | FreeRTOS/FreeRTOS-Kernel/timers.c:522-538 | The reload loop terminates with a callback for every period already over, and the timer listed for the first expiry ahead |
| Timers.TimerService.ProcessExpired | FreeRTOS/FreeRTOS-Kernel/timers.c:541-565 | The head timer makes its callback; an auto-reload timer is listed again, a one-shot timer becomes inactive |
| Timers.TimerService.Switch | FreeRTOS/FreeRTOS-Kernel/timers.c:908-931 | The drain loop terminates; nothing that was on the old list is forgotten; the lists change places |
| Timers.TimerService.Sample | FreeRTOS/FreeRTOS-Kernel/timers.c:693-713 | If sampled at least once in each turn of the counter, the lists are switched exactly when the counter has wrapped |
| Timers.TimerService.ProcessOrBlock | FreeRTOS/FreeRTOS-Kernel/timers.c:604-662 | Either the head timer is processed or the lists were switched, or the service blocks, with nothing expired left, exactly until the next expiry or the next wrap |
| Timers.TimerService.Start | FreeRTOS/FreeRTOS-Kernel/timers.c:821-850 | A start or reset command, with the time it was given, also if it is processed only after one or more periods: the timer keeps its period and reload flag, and has made one callback for each whole period since then, or is idle again after its one |
| Timers.TimerService.ChangePeriod | FreeRTOS/FreeRTOS-Kernel/timers.c:858-871 | The new period, and nothing else of the settings, replaces the old one and counts from now, so the expiry always lies ahead |
| Timers.TimerService.Stop | FreeRTOS/FreeRTOS-Kernel/timers.c:852-856 | The timer is on no list and not active, its settings as they were |
| Timers.TimerService.Delete | FreeRTOS/FreeRTOS-Kernel/timers.c:873-897 | A timer with memory of its own is gone, another one inactive; the others go on |
| Timers.TimerService.ProcessReceivedCommands | FreeRTOS/FreeRTOS-Kernel/timers.c:760-905 | The loop over the messages on the queue leaves every timer with the settings the messages give it, and none forgotten |
| TimerRules.SettingsAreTheLastGiven | FreeRTOS/FreeRTOS-Kernel/timers.c:858-871 | Whatever the messages are, a timer that is left has the period of the last change, or the one it was created with, and the reload flag it was created with |
| EventGroups.PackingIsLossless | FreeRTOS/FreeRTOS-Kernel/tasks.c:3112-3135 | Wanted bits and control bits packed into one item value all come out again, and waiting and released values can be told apart |
| EventGroups.SameTest | FreeRTOS/FreeRTOS-Kernel/event_groups.c:693-727 | The test before blocking and the test on the packed value agree |
| EventGroups.AlwaysStable | FreeRTOS/FreeRTOS-Kernel/event_groups.c:317-397 | In every reachable state nobody waits for what is already there, and the control bits are clear |
| EventGroups.ApplyKeepsStable | FreeRTOS/FreeRTOS-Kernel/event_groups.c:194-314 | Each single call, sync, wait, set, clear, timeout and late test, keeps it so |
| EventGroups.StayingIffNotSatisfied | FreeRTOS/FreeRTOS-Kernel/event_groups.c:562-612 | A waiter stays if and only if it is not satisfied by old \| set |
| EventGroups.StayingKeepsOrder | FreeRTOS/FreeRTOS-Kernel/event_groups.c:562-612 | Those that stay keep their order |
| EventGroups.DeliveredIffSatisfied | FreeRTOS/FreeRTOS-Kernel/tasks.c:3241-3277 | Every task released gets that same value old \| set, and nobody else gets one |
| EventGroups.ClearMaskIsUnion | FreeRTOS/FreeRTOS-Kernel/event_groups.c:594-616 | The bits cleared at the end are exactly those wanted by a released task that clears on exit |
| EventGroups.BitAfter | FreeRTOS/FreeRTOS-Kernel/event_groups.c:194-498 | Each bit after each call, from the bits and waiters before |
| EventGroups.WaitersAfter | FreeRTOS/FreeRTOS-Kernel/event_groups.c:194-626 | Who waits after each call: those it does not release, in their order, without one that has timed out, and behind them the one that blocks |
| EventGroups.ReleasedSeesItsBits | FreeRTOS/FreeRTOS-Kernel/event_groups.c:400-466 | A task that is released returns bits that meet the condition it waited for |
| EventGroups.EventGroup.SetEventBits | FreeRTOS/FreeRTOS-Kernel/event_groups.c:533-626 | The walk along the wait list, from which it removes items on the way, does what the specification says |
| EventGroups.EventGroup.ClearEventBits | FreeRTOS/FreeRTOS-Kernel/event_groups.c:473-498 | The bits before the call are returned and the given bits cleared |
| EventGroups.EventGroup.WaitForBits | FreeRTOS/FreeRTOS-Kernel/event_groups.c:338-397 | Return at once with the bits, cleared if asked, or join the end of the wait list with the packed condition |
| EventGroups.EventGroup.Rendezvous | FreeRTOS/FreeRTOS-Kernel/event_groups.c:210-257 | Set, then return at once if the rendezvous is complete, or join the wait list; the tasks that are released get the bits |
| EventGroups.EventGroup.Resume | FreeRTOS/FreeRTOS-Kernel/event_groups.c:400-466 | A task that blocked gets the bits it was released with, or after a timeout the bits as they are now, cleared if the condition is met after all |
| Barriers.Barrier | FreeRTOS/FreeRTOS-Kernel/event_groups.c:194-314 | For any number of tasks with bits of their own and any number of rounds: nobody returns from more rounds than anybody has entered, whoever is released sees the whole mask, the bits are clear when nobody waits, and somebody is always still to come |
| Barriers.LastIffOthersWait | FreeRTOS/FreeRTOS-Kernel/event_groups.c:218-230 | The mask is complete exactly when everybody else is already waiting |
| Barriers.LastArrival | FreeRTOS/FreeRTOS-Kernel/event_groups.c:212-230 | The last arrival leaves nobody waiting and no bit set |
| Boards.OnExactlyOneList | FreeRTOS/FreeRTOS-Kernel/list.c:199-225 | An item stands on the list its container field names, on no other, and once |
| Placement.NothingAboveTop | FreeRTOS/FreeRTOS-Kernel/tasks.c:126-151 | No ready list above the recorded top priority has anything on it |
| Placement.ExpireAllTakesTheDue | FreeRTOS/FreeRTOS-Kernel/tasks.c:2759-2838 | The tick's loop takes off the current list exactly what is due and changes nothing else that is delayed |
| Placement.ExpiredIsReadyOnce | FreeRTOS/FreeRTOS-Kernel/croutine.c:253-277 | What has expired is ready on the list of its priority, once, and on no event list, even if an interrupt had already put its event item on the pending-ready list |
| Placement.MovePendingEmpties | FreeRTOS/FreeRTOS-Kernel/tasks.c:2197-2230 | The loop over the pending-ready list terminates and empties it |
| Placement.LowerTopFinds | FreeRTOS/FreeRTOS-Kernel/tasks.c:135-150 | The downward search stops at the highest priority anything ready has, or at 0 if nothing is ready |
| Placement.PickIsHighest | FreeRTOS/FreeRTOS-Kernel/tasks.c:146-150 | What is selected is ready, and nothing ready has a higher priority |
| Placement.PendingIsReadied | FreeRTOS/FreeRTOS-Kernel/tasks.c:2197-2230 | Whatever is pending is ready afterwards, with its priority, and waits for no event |
| Fairness.PickIsNext | FreeRTOS/FreeRTOS-Kernel/tasks.c:146-150 | What is selected is the item behind the index, or the first one; the index comes to rest on it, and no list changes otherwise |
| Fairness.TasksTakeTurns | FreeRTOS/FreeRTOS-Kernel/tasks.c:3013-3078 | n context switches in a row, with n tasks ready at the highest priority, make each of them run once, in the order of the list from the index on |
| Fairness.CoRoutinesTakeTurns | FreeRTOS/FreeRTOS-Kernel/croutine.c:284-316 | n choices in a row choose each of the n ready co-routines of the highest priority once, in the order of the list |
| FairRuns.TurnComes | FreeRTOS/FreeRTOS-Kernel/tasks.c:146-150 | Over kernel runs, whatever is readied, blocks or goes meanwhile: a task that stays ready with nothing ready above it, and that the index does not come to rest on, runs after one of the next switches, as many as tasks were ready with its priority |
| FairRuns.StepNoFurther | FreeRTOS/FreeRTOS-Kernel/tasks.c:2202-2220 | No operation but a context switch, and one that moves the task itself, brings a ready task further from its turn |
| Arrivals.ReadiedComesLast | FreeRTOS/FreeRTOS-Kernel/tasks.c:221-226 | A task that is readied is chosen after every other task of its priority that the index does not rest on |
| Arrivals.FirstComeFirstServed | FreeRTOS/FreeRTOS-Kernel/tasks.c:3112-3135 | After every run: who begins to wait for an event group is behind all that wait for it, with its condition; who is deferred, behind all that are pending; who deletes itself, behind all that await their clean-up, which takes the one in front |
| Arrivals.NextRests | FreeRTOS/FreeRTOS-Kernel/list.c:199-225 | No operation moves the index of a list that is not a ready list |
| Arrivals.ResumeUndoesSuspend | FreeRTOS/FreeRTOS-Kernel/tasks.c:1677-1872 | Suspending a task takes it off every other list; resuming it leaves it ready with its priority and nobody else moved |
| Whereabouts.NextIsExpected | FreeRTOS/FreeRTOS-Kernel/tasks.c:3173-3239 | Every operation but a tick and a resume of the scheduler moves exactly the task it is about, to exactly the state list and event list it should, and sets exactly its priority |
| Whereabouts.SuspendedOrBlocked | FreeRTOS/FreeRTOS-Kernel/tasks.c:1785-1826 | A task is taken for suspended after it has been suspended, and not while it waits for an event or a time or is pending; one that waits for a notification without a timeout is taken for suspended too |
| Whereabouts.MovingMap | FreeRTOS/FreeRTOS-Kernel/tasks.c:2197-2230 | The loop over the pending-ready list readies exactly what is pending |
| Whereabouts.ExpiringMap | FreeRTOS/FreeRTOS-Kernel/tasks.c:2759-2838 | The loop of the tick readies exactly what is due |
| Whereabouts.CachedTime | FreeRTOS/FreeRTOS-Kernel/tasks.c:3191-3205 | Which operation resets the cached unblock time to the head of the current delayed list, which leaves it alone, and which may bring it nearer |
| Whereabouts.SuspensionNests | FreeRTOS/FreeRTOS-Kernel/tasks.c:2094-2112 | Suspending the scheduler once more and resuming it changes nothing |
| Whereabouts.NothingPended | FreeRTOS/FreeRTOS-Kernel/tasks.c:2178-2262 | Ticks are pended only while the scheduler is suspended |
| Placement.ChangePriorityKeeps | FreeRTOS/FreeRTOS-Kernel/tasks.c:1627-1653 | A priority change keeps a ready task on the list of its priority and moves nothing else |
| Kernel.PlacementAlwaysHolds | FreeRTOS/FreeRTOS-Kernel/tasks.c:3173-3219 | Over every run of twenty-three kernel operations: whatever is alive is on exactly one state list, once; a ready task on that of its priority; no ready list above the top has anything on it; an event item is on one list at most, once; and nothing is pending while the scheduler runs |
| Kernel.SwitchAlwaysPicksHighest | FreeRTOS/FreeRTOS-Kernel/tasks.c:3013-3078 | After every run, a context switch with the scheduler not suspended picks a task that is ready and has the highest priority of all that are |
| Kernel.NextKeeps | FreeRTOS/FreeRTOS-Kernel/tasks.c:2202-2220 | Every kernel operation keeps the placement invariant |
| Kernel.SwitchPicksHighest | FreeRTOS/FreeRTOS-Kernel/tasks.c:3013-3078 | With the idle task ready every context switch terminates and picks a highest-priority ready task |
| Kernel.SuspensionIsTransparent | FreeRTOS/FreeRTOS-Kernel/tasks.c:2178-2262 | Any number of ticks while suspended and then a resume give exactly the state of resuming first and then taking the ticks: counters, delayed lists, ready lists and all |
| EventOrder.EventsReadyTheHighest | FreeRTOS/FreeRTOS-Kernel/tasks.c:3173-3189 | Over every run that leaves the priorities of waiters alone, the head of an event list, which the event readies, has the highest priority of all that wait on it |
| EventOrder.NextArranged | FreeRTOS/FreeRTOS-Kernel/tasks.c:3087-3107 | Every kernel operation keeps the event lists in the order of priorities |
| Preemption.HighestRunsOrSwitchIsOwed | FreeRTOS/FreeRTOS-Kernel/tasks.c:3013-3078 | Over every run of the kernel operations, in which no give of a mutex drops its switch: whenever no switch is owed the running task is ready, on the ready list of its priority, and no ready task has a higher priority |
| Preemption.NextKeepsHighest | FreeRTOS/FreeRTOS-Kernel/tasks.c:3219-3233 | Every operation but a losing give leaves a switch owed or the running task a highest-priority ready one, each with the test for a switch that the source makes there |
| Preemption.TickKeepsHighest | FreeRTOS/FreeRTOS-Kernel/tasks.c:2816-2850 | A tick that asks for no switch has readied nothing above the running task |
| Preemption.ResumeKeepsHighest | FreeRTOS/FreeRTOS-Kernel/tasks.c:2197-2275 | Nor has a resume that does not yield, with everything pending and every pended tick |
| Preemption.GiveKeepsIff | FreeRTOS/FreeRTOS-Kernel/queue.c:929-961 | Giving a mutex back leaves the running task highest, or a switch owed, if and only if it is not so that the giver loses priority, a task that is not above it then waits for the mutex, and some ready task is above it |
| Preemption.OwedUntilSwitched | FreeRTOS/FreeRTOS-Kernel/tasks.c:3013-3078 | What is owed stays owed until a context switch with the scheduler running, and that leaves nothing owed and the running task highest |
| Preemption.OwedOnlyWithReason | FreeRTOS/FreeRTOS-Kernel/tasks.c:3219-3233 | No switch is asked for without a reason: a yield, a request while the scheduler is suspended, a running task that has blocked, gone or lost priority, or another task, not below it, that is ready, pending or set so high |
| YieldRules.ReadyingAsksIff | FreeRTOS/FreeRTOS-Kernel/tasks.c:1845-1857 | When a call that readies a task asks for a switch, and how: a resume also for an equal, every other call only for a higher one; a task asks the port, an event or an interrupt pends a yield; an interrupt that resumes while the scheduler is suspended leaves it to the resume of the scheduler |
| YieldRules.ResumeAsksIff | FreeRTOS/FreeRTOS-Kernel/tasks.c:2197-2275 | The resume of the scheduler yields if and only if something at least of the running task's priority was pending or one of the pended ticks asks for a switch |
| YieldRules.MovesUpIff | FreeRTOS/FreeRTOS-Kernel/tasks.c:2208-2216 | The loop over the pending-ready list finds a reason to yield if and only if something of at least the priority is pending |
| YieldRules.RaisesIff | FreeRTOS/FreeRTOS-Kernel/tasks.c:2816-2828 | The loop of the tick finds one if and only if something above the priority is due |
| YieldRules.OtherAsksIff | FreeRTOS/FreeRTOS-Kernel/tasks.c:1540-1585 | When a change of priority, a new task, a give, a yield and a request while the scheduler is suspended ask for a switch |
| YieldRules.RequestWhileSuspendedIsPended | FreeRTOS/FreeRTOS-Kernel/tasks.c:3015-3020 | A request for a switch that comes up while the scheduler is suspended is served by pending a yield, and nothing else |
| YieldRules.YieldTurnsLeavingIntoAsking | FreeRTOS/FreeRTOS-Kernel/tasks.c:1337-1340 | A task on its way to a yield asks for the switch by it |
| YieldRules.PrioritiesAreGiven | FreeRTOS/FreeRTOS-Kernel/tasks.c:4084-4230 | Inheriting, falling back and being set give exactly that task that priority, on its ready list if it is ready; a give gives the giver its own and readies the first task that waits |
| Preemption.PendingIsAskedFor | FreeRTOS/FreeRTOS-Kernel/tasks.c:2842-2880 | A pending yield is asked for at the next tick, or when the scheduler is resumed; so is a switch at a tick with another ready task of the same priority |
| LostSwitches.SwitchIsLost | FreeRTOS/FreeRTOS-Kernel/queue.c:929-961 | A concrete run from the start: a task gives back two mutexes and falls below a ready task, no switch is owed, and however many ticks come after it none is |
| Kernel.ResumeInv | FreeRTOS/FreeRTOS-Kernel/tasks.c:2178-2262 | A resume leaves nothing pending and keeps the invariant |
| Kernel.TickOnceIsTick | FreeRTOS/FreeRTOS-Kernel/tasks.c:2733-2838 | A kernel tick is a tick of the delayed lists |
| KernelTime.DelaysAreAlwaysTheAgenda | FreeRTOS/FreeRTOS-Kernel/tasks.c:2724-2838 | Over every run of the kernel the two delayed lists are the unbounded agenda of that run, both ascending, the cached time never past the head, the current list empty before each wrap |
| KernelTime.NextRefines | FreeRTOS/FreeRTOS-Kernel/tasks.c:5369-5440 | Every kernel operation does to the delayed lists what it means on unbounded time |
| KernelTime.ResumeRefines | FreeRTOS/FreeRTOS-Kernel/tasks.c:2202-2262 | A resume forgets what was pending and then turns one page for each pended tick |
| KernelTime.ReadyingRefines | FreeRTOS/FreeRTOS-Kernel/tasks.c:3188-3216 | Whatever readies a task, from a task or an interrupt, takes it off the delayed lists at once, or leaves it there while it is pending; the reset of the cached time with tickless idle changes nothing on unbounded time |
| KernelTime.SkippingRefines | FreeRTOS/FreeRTOS-Kernel/tasks.c:2585-2615 | Skipped ticks are ticks on which nothing was due |
| KernelTime.FreeSameView | FreeRTOS/FreeRTOS-Kernel/tasks.c:3693-3718 | The clean-up by the idle task leaves delayed lists and cached time alone |
| Deadlines.WaitsExactly | FreeRTOS/FreeRTOS-Kernel/tasks.c:2724-2838 | Over kernel runs: from the moment a task blocks for w ticks, whatever happens that is not about it, suspensions, interrupts and skipped ticks included, it is on the delayed list of the epoch in which it is due as long as the clock shows less than w ticks more, and ready, on no event list, from then on |
| Deadlines.SomebodyCanWait | FreeRTOS/FreeRTOS-Kernel/tasks.c:3013-3078 | Runs that the claim about waiting exactly speaks of exist: a task is created, a context switch chooses one of its priority, and that one may wait |
| Deadlines.NextOnTime | FreeRTOS/FreeRTOS-Kernel/tasks.c:2724-2838 | Every kernel operation that is not about a task keeps it waiting until it is due and ready from then on |
| Deadlines.ResumeOnTime | FreeRTOS/FreeRTOS-Kernel/tasks.c:2178-2262 | A resume, with everything pending and every pended tick, keeps it so |
| KernelTime.DeleteLeaves | FreeRTOS/FreeRTOS-Kernel/tasks.c:1116-1190 | A deletion takes the task off the delayed lists and refreshes the cached time, unless the task deletes itself |
| KernelTime.SuspendLeaves | FreeRTOS/FreeRTOS-Kernel/tasks.c:1677-1740 | A suspension takes the task off the delayed lists and refreshes the cached time |
| KernelCalls.Scheduler.Expire | FreeRTOS/FreeRTOS-Kernel/tasks.c:2761-2838 | The loop over the due tasks, with its two exits, does what the specification says, leaves the cached time at the head and reports whether it readied a task above the running one |
| KernelCalls.Scheduler.IncrementTick | FreeRTOS/FreeRTOS-Kernel/tasks.c:2724-2898 | A tick with the scheduler running, or one more pended tick; the result asks for a switch exactly if a readied task is above the running one, another of its priority is ready, or a yield is pending |
| KernelCalls.Scheduler.ResumeAll | FreeRTOS/FreeRTOS-Kernel/tasks.c:2178-2285 | Both loops of the resume, over the pending-ready list and the pended ticks; it yields exactly if a yield was pending, a task of at least the running one's priority was moved, or one of the ticks asks for a switch |
| KernelCalls.Scheduler.SwitchContext | FreeRTOS/FreeRTOS-Kernel/tasks.c:3013-3078 | A pending yield and nothing else while the scheduler is suspended; otherwise no pending yield, the selection loop terminates without its assertion firing and the chosen task is a highest-priority ready one |
| KernelCalls.Scheduler.AddCurrentToDelayedList | FreeRTOS/FreeRTOS-Kernel/tasks.c:5369-5440 | The running task goes to the suspended list, or to the delayed list its wake time belongs on, and the cached time is lowered if need be |
| KernelCalls.Scheduler.PlaceOnEventList | FreeRTOS/FreeRTOS-Kernel/tasks.c:3087-3107 | The running task joins the event list in the order of its priority and blocks |
| KernelCalls.Scheduler.PlaceOnEventListRestricted | FreeRTOS/FreeRTOS-Kernel/tasks.c:3139-3169 | The running task joins the end of the list and blocks, for ever if told so |
| KernelCalls.Scheduler.StepTick | FreeRTOS/FreeRTOS-Kernel/tasks.c:2585-2615 | The counter moves on, one tick less and one pended if the jump ends on the cached time |
| KernelCalls.Scheduler.RemoveFromEventList | FreeRTOS/FreeRTOS-Kernel/tasks.c:3173-3239 | The head of the event list is readied and the cached time reset, or it is put on the pending-ready list while the scheduler is suspended; the result, and with it a pending yield, says whether its priority is above the current one |
| KernelCalls.Scheduler.Suspend | FreeRTOS/FreeRTOS-Kernel/tasks.c:1677-1772 | Off whatever list it was on, off its event list, on the suspended list, and no longer waiting for any notification; the caller yields exactly if it suspends itself |
| KernelCalls.Scheduler.AwaitNotice | FreeRTOS/FreeRTOS-Kernel/tasks.c:4763-4800 | The running task waits for a notification, and blocks if it is given time to |
| KernelCalls.Scheduler.GenericNotify | FreeRTOS/FreeRTOS-Kernel/tasks.c:4988-5030 | A task that waits for the notification is readied and the cached time reset, any other is left where it is; the caller yields exactly if it readied a task above itself |
| KernelCalls.Scheduler.Resume | FreeRTOS/FreeRTOS-Kernel/tasks.c:1829-1872 | Readied exactly if it is really suspended, neither pending nor blocked without a timeout; the caller yields exactly if the task is not below it |
| KernelCalls.Scheduler.ChangeTaskPriority | FreeRTOS/FreeRTOS-Kernel/tasks.c:1627-1653 | A ready task changes its list with its priority, any other only its priority |
| CoRoutines.CatchUpIsEveryTick | FreeRTOS/FreeRTOS-Kernel/croutine.c:225-281 | For any gap of less than a full turn of the counter, one call of the catch-up gives the same lists as a call at every tick |
| CoRoutines.CatchUpRefines | FreeRTOS/FreeRTOS-Kernel/croutine.c:225-281 | Through the whole catch-up the lists stay what they are on unbounded time, and the current list is empty before each wrap |
| CoRoutines.OneTickIsTick | FreeRTOS/FreeRTOS-Kernel/croutine.c:231-278 | One turn of the catch-up loop is one tick of the delayed lists, without a cached time |
| CoRoutines.AddToDelayedKeeps | FreeRTOS/FreeRTOS-Kernel/croutine.c:163-199 | Delaying keeps every co-routine on exactly one of the ready and delayed lists, and blocks it for the right time |
| CoRoutines.RemoveFromEventListKeeps | FreeRTOS/FreeRTOS-Kernel/croutine.c:339-361 | Readying from an interrupt moves the event item only; the scheduler's lists stay as they are |
| CoRoutineRuns.CoRoutinesAreAlwaysTheAgenda | FreeRTOS/FreeRTOS-Kernel/croutine.c:202-316 | Over every run, each turn of each loop of the scheduler a step and interrupts between any two: the two delayed lists are the unbounded agenda of the run, apart from those due at the tick just counted and still to be readied; the current one is empty before each wrap; every co-routine is on exactly one ready or delayed list, once |
| CoRoutineRuns.NextKeeps | FreeRTOS/FreeRTOS-Kernel/croutine.c:202-281 | Every turn of a loop and every interrupt keeps every co-routine on exactly one of the ready and delayed lists |
| CoRoutineRuns.NextRefines | FreeRTOS/FreeRTOS-Kernel/croutine.c:163-281 | Every turn of a loop and every interrupt does to the delayed lists what it means on unbounded time |
| CoRoutineRuns.EventReadiesTheHighest | FreeRTOS/FreeRTOS-Kernel/croutine.c:339-361 | Over every run an event takes a co-routine of the highest priority that waits on its list, and no other; it is pending then, and ready once the scheduler has moved what is pending |
| CoRoutineRuns.NextArranged | FreeRTOS/FreeRTOS-Kernel/croutine.c:163-199 | Every step keeps the event lists of co-routines in the order of priorities, and every priority below the limit |
| CoRoutineRuns.NextIsExpected | FreeRTOS/FreeRTOS-Kernel/croutine.c:103-281 | Every step moves exactly the co-routine it is about, to exactly the state list and event list it should; a new one is ready with the priority it was given or the highest there is |
| CoRoutineRuns.StepKeepsOutcome | FreeRTOS/FreeRTOS-Kernel/croutine.c:202-316 | From any point within a call, each of its steps keeps what the call comes to if nothing interrupts it |
| CoRoutineRuns.CallIsItsSteps | FreeRTOS/FreeRTOS-Kernel/croutine.c:284-316 | A call that nothing interrupts terminates, and is its steps one after the other |
| CoRoutines.ChosenIsHighest | FreeRTOS/FreeRTOS-Kernel/croutine.c:296-315 | What is chosen is ready, and nothing ready has a higher priority; with nothing ready nothing changes but the recorded top |
| CoRoutineCalls.CoScheduler.constructor | FreeRTOS/FreeRTOS-Kernel/croutine.c:103-160 | The state after the first co-routine has been created, its priority clamped |
| CoRoutineCalls.CoScheduler.CheckDelayedList | FreeRTOS/FreeRTOS-Kernel/croutine.c:225-281 | The nested loops do what the specification says |
| CoRoutineCalls.CoScheduler.CheckPendingReadyList | FreeRTOS/FreeRTOS-Kernel/croutine.c:202-222 | The loop empties the pending-ready list and readies everything on it |
| CoRoutineCalls.CoScheduler.AddToDelayedList | FreeRTOS/FreeRTOS-Kernel/croutine.c:163-199 | The running co-routine goes to the delayed list of its wake time, and to an event list if one is given; placement is sound afterwards |
| CoRoutineCalls.CoScheduler.RemoveFromEvent | FreeRTOS/FreeRTOS-Kernel/croutine.c:339-361 | The head of the event list becomes pending; the result says whether its priority is not below the current one |
| CoRoutineCalls.CoScheduler.Choose | FreeRTOS/FreeRTOS-Kernel/croutine.c:296-315 | The search and the choice of the specification; the result says whether any co-routine is ready |
| CoRoutineCalls.CoScheduler.Schedule | FreeRTOS/FreeRTOS-Kernel/croutine.c:284-316 | Pending first, then the delays, then the choice |

## Left out

- Queue sets: the cap on the lock counts also limits deferred set notifications, so that conserving handles would need a bound on posts while the queue is locked.
- QueueWakeups.NoSenderIsForgotten: does not cover runs with a reset, which wakes one sender by design; QueueWakeups.ResetCoversSendersIff gives the exact condition.
- QueueWakeups.NoReceiverIsForgotten: the number of tasks is fixed during a run, and a task that is deleted after it was woken and before it ran takes its wake-up with it.
- Mutexes.HolderPriority: does not cover tasks that already waited when the present holder took the mutex, which the code does not inherit from; nor priority changes in mid-hold, nor chains of mutexes, where the code inherits one level and leaves the wait list of the other mutex as it is.
- Mutexes.MutexCalls.PriorityInherit: the move of a ready holder to the ready list of its new priority is KernelCalls.Scheduler.ChangeTaskPriority, and is not repeated here.
- Mutexes.MutexCalls.PriorityDisinherit: nor is the move of the holder.
- Mutexes.MutexCalls.PriorityDisinheritAfterTimeout: nor is the move of the holder.
- EventOrder.EventsReadyTheHighest: does not cover runs in which a waiter's priority changes, because the code rewrites the item value in place without sorting again; event groups and the timer task have unordered lists of their own.
- Preemption.HighestRunsOrSwitchIsOwed: does not cover runs with a give that drops its switch, of which LostSwitches.SwitchIsLost is one; who holds a mutex and with which base priority is not part of these runs, so a give may return the giver to any priority not above its own. How the port makes a switch that is asked for, and a change of the base priority of a task that has inherited, are not modelled.
- Kernel.PlacementAlwaysHolds: tasks are numbers with map entries instead of heap records, and a list is a ring value; the heap form of one list is module IntrusiveLists.
- Kernel.Next: a notification from an interrupt, while the scheduler is suspended, to a task whose wait for it is over but which has not run since, is not a step; nor are the notification values.
- KernelCalls: deletion, creation, abort, notification from interrupts and unordered event lists are specified in module Kernel, without a method of their own.
- The overflow counts are unbounded; the code's wrap after 2^32 epochs.
- Timers.TimerService.ExactlyOnePerPeriod: callbacks are counted and not run, so a callback that deletes or restarts its own timer comes in as a later command; pended function calls are not modelled.
- StreamBuffers.StreamBuffer.Send: the waiting loops of send and receive, task notifications and the trigger level are not modelled, nor a message length near 2^32 whose required space wraps, which an assertion forbids; the retry loop of the space count is in module StreamProtocol.
- Barriers.Barrier: timeouts and other writers are left out of the rendezvous, as its claim needs.
- FairRuns.TurnComes: when the item the index rests on is removed the index steps back, and comes to rest on the item before; what is readied while it rests there comes before that item, which then waits one turn longer. Such runs are excluded, as the condition on the index says.
- Counting semaphores and zero-size queues: their storage is empty, and only the counts of module QueueWakeups apply.
- Memory allocation, static creation, MPU, thread-local storage, stack checks, run-time statistics, names, queue registry, tracing and the port layer.
- LwIP, board support and drivers, and the demo tasks.
