# Mini RTOS simulator: verified model

The Mini RTOS simulator is a single-threaded kernel: a table of task control blocks, a ready queue, time slices,
sleep countdowns, software timers, four blocking primitives, one simulated register file and a block allocator that
keeps its free list inside the free blocks. This project models that kernel in Dafny and proves what its
documentation promises about whole runs, for every task body and every timer callback.

## How the model is built

- **State and steps.** `KernelTypes`, `ReadyQueues`, `KernelStates` and `Worlds` define the kernel and the blocking
  objects as values, the effect of every API call (`Apply`), one scheduler cycle (`Cycle`) and a run of cycles and
  outside calls (`Run`). Function pointers become scripts: a task body or a timer callback is any finite sequence of
  calls, task bodies may also write the active registers, and every theorem quantifies over all scripts. A body whose
  calls depend on their results is covered too: the kernel is deterministic, so each of its executions is one script.
- **History.** A world carries a log of what happened (locks, sends, wake-ups, task starts and so on). It is never
  read by a step; theorems about runs speak about it.
- **Calls.** `Calls` states for every API call, on any existing object, its whole effect on the program's fields, and
  `TickPhases` does so for the phases of a scheduler cycle. `Traces` reads off the scripts of a run the calls it makes,
  each with the state it is made in, and relates them to the state the run ends in. Theorems that count calls speak
  about this trace and not about the log.
- **Theorems.** `RunInduction` carries a property through calls, callbacks, bodies, cycles and runs. On it rest
  `Scheduling`, `BoundedWaiting`, `FreshSlices`, `RoundRobin`, `SleepDeadlines`, `Suspension`, `SoftTimers`,
  `RegisterIsolation`, `Semaphores`, `Mutexes`, `MessageQueues`, `FairWaiting` and `EventFlags`. `FairWaiting` treats
  the waiters of semaphores, mutexes and queues alike. `TimerExpiry`, `PrivateRegisters` and `EventBits` follow timers,
  registers and event bits through the calls of a run. `EventScan` and `EventWakes` treat the waiter-table scan,
  `PoolSpec` the allocator over bytes, and `BlockLives` what its clients may rely on.
- **Reachable failures.** For the promises below that fail in the kernel, `StrandedWaiters` and `Witnesses` work out
  runs from initialisation in which they do, on the steps of `ConcreteRuns`.
- **The program in place.** The classes `Kernel`, `Semaphore`, `MutexLock`, `RingQueue`, `EventFlagGroup`,
  `MemoryPool` and `System` keep the C code's arrays, counters and loops and update them in place. Each method's
  contract equates the whole new state with the specification function applied to the old one. `Systems.Boot` shows
  that a freshly built program starts in an initial world, and `System.SchedulerRun` that the concrete scheduler loop
  is an abstract run.

Sizes are parameters: number of table entries, slice ticks, queue slots, waiter slots, timer slots, blocks and block
size. Numbers that the code keeps in 32 bits are modelled as such where their width shows (event masks, registers,
links in the pool, the narrowing in `block_index`). Sleep counts, timer periods, the tick, slice counts and semaphore
counts are unbounded, so the theorems hold for runs in which those counters do not overflow.

"Leaves alone" in a hypothesis (`Sparing`, `TimerSparing`) means that no call targets the task or timer in question;
it says nothing about what else the calls do.

## Where the code and its documentation disagree

The model follows the code in each case.

- `include/event.h:128-149`: a wait that returns false is said to have blocked its caller. It has not when the mask
  is zero or the waiter table is full (`EventFlags.FalseWaitBlocksIff`, `Witnesses.FullTableDropsAWait`).
- `include/event.h:105-115`: setting flags is said to unblock every task whose mask is a subset of the flags. Waking
  a task clears bits that an older entry may need. The promise holds exactly if every satisfied task owns an entry
  that shares no bit with the newer entries served before it (`EventWakes.WakesEveryTaskIff`). It is enough that the
  satisfied entries of different tasks share no bit, and where no task owns two satisfied entries that is also
  necessary (`EventWakes.DisjointOwnersAllWake`, `EventWakes.SingleEntriesAllWakeIff`). A failing run:
  `Witnesses.SatisfiedTaskNotWoken`.
- `README.md:375` presents suspend and resume as explicit lifecycle control. A task that is suspended while it waits
  for event flags keeps its table entry, and setting the flags makes it READY without a resume; a task that suspends
  itself and then makes a blocking call is BLOCKED instead (`Suspension.StaysSuspendedIff`,
  `Suspension.StaleEntryEndsSuspension`).
- `include/timer.h:174-182`: starting a timer is said to restart its countdown. A one-shot that restarts itself from
  its own callback is disarmed when the callback returns (`SoftTimers.SelfRestart`,
  `Witnesses.OneShotCannotRestartItself`), and a timer started from the callback of an earlier slot loses a tick in
  the same pass (`SoftTimers.StartedByOtherCallback`, `Witnesses.LaterSlotLosesATick`).
- `include/memory.h:114-125`: a pointer that is not the start of a pool block is said to be rejected. The quotient is
  narrowed to `int` before its range check (`PoolSpec.AcceptsBlockStartsIff`, `PoolSpec.DistantPointerAccepted`).
- `README.md:388-390` says that signals wake a waiter and that mutexes and queues block. Wake-ups select a task by
  block reason and not by object, so with several objects of a kind a task can stay blocked on one that has something
  to give (`StrandedWaiters` has a run for semaphores, mutexes, receivers and senders). `FairWaiting` proves exactly
  when that cannot happen: a run keeps every object fair after every call if and only if each signal, unlock, send and
  receive is made when nobody is blocked on its object, or the most urgent waiter for the reason is one of the
  object's own, or a woken task is left to take the item (`FairWaiting.FairThroughoutIff`). With a single object of a
  kind that is always so (`FairWaiting.OneObjectStrandsNobody`).
- `include/rtos.h:89-94` says the slice counter is reset to 0 on every switch away from a task. The switch leaves it
  alone, so it is 0 afterwards exactly when it was 0 before (`FreshSlices.SliceSurvivesSwitchAway`,
  `Witnesses.CountKeptAfterSwitch`). The code sets it to 1 when a task gets the CPU and to 0 in an idle tick; the
  latter lets the last task run before peers that the queue puts first (`FreshSlices.IdleTickJumpsTheQueue`,
  `Witnesses.LastTaskJumpsTheQueue`).
- `README.md:389` calls the mutex non-recursive. A second lock by the owner returns true, and one unlock releases it
  (`Mutexes.RunTracksHolders`).

## Model

| member | source | states |
|---|---|---|
| `Sequences.RemoveMembers` | src/scheduler.c:92-106 | Removing a task from a duplicate-free queue takes out exactly that task, keeps every other one once, and shortens the queue by one only if the task was there. |
| `ReadyQueues.BestIsFirstMaximum` | src/scheduler.c:142-162 | The scan picks the earliest queue entry of maximum priority: nothing in the queue has a higher priority, and everything before the pick has a strictly lower one. |
| `ReadyQueues.ReadyOnlyMembers` | src/scheduler.c:142-149 | Evicting stale entries keeps exactly the READY ones and creates no duplicate. |
| `ReadyQueues.ReadyOnlyIsStable` | src/scheduler.c:142-149 | Eviction never reorders two READY tasks. |
| `ReadyQueues.AheadRemove` | src/scheduler.c:92-106 | Taking another task out of the queue brings a waiting task one place forward exactly when the removed task stood before it with the same priority. |
| `ReadyQueues.BestIsFirstPeer` | src/scheduler.c:138-163 | The scan's choice is the first of the top-priority peers in arrival order. |
| `KernelStates.Waiter` | src/scheduler.c:473-487 | The wake-up scan returns -1 exactly when nobody is blocked for the reason; otherwise a task blocked for it that no other such task beats by priority, or by lower index at equal priority. |
| `KernelStates.IndexFromId` | src/rtos.c:15-24 | The search returns a task with the id, and -1 exactly when there is none. |
| `Worlds.FreeSlot` | src/timer.c:255-260 | The slot search returns the first unclaimed slot, and -1 exactly when every slot is claimed. |
| `Scheduling.SetReady` | src/scheduler.c:434-462 | On an exact queue a transition to READY always puts the task at the tail: the capacity and duplicate guards never drop it. |
| `Scheduling.ApplyExact` | src/scheduler.c:434-471 | Every API call, made from a task, a callback or between runs, keeps the queue duplicate-free and equal to the set of READY tasks, with at most the current task RUNNING. |
| `Scheduling.AtDecisionRested` | src/scheduler.c:292-314 | After the tick, the sleep pass and any callbacks no task is RUNNING, and the eviction has nothing to evict. |
| `Scheduling.CycleRested` | src/scheduler.c:288-432 | A whole scheduler cycle, for any callbacks and any task body, ends with no task RUNNING and an exact queue. |
| `Scheduling.ReadyQueueIsExact` | src/scheduler.c:434-462 | At every loop head of every run the queue holds exactly the READY tasks, each once, no task is RUNNING, and ids follow table positions. |
| `Scheduling.DecideFromTable` | src/scheduler.c:314-427 | The decision idles exactly when no task is READY; otherwise it runs a READY task that no READY task outranks, on the continue path too. |
| `Scheduling.DispatchExact` | src/scheduler.c:189-252 | When the task function is called its task is RUNNING, has left the queue, and everything else about the queue is unchanged. |
| `Scheduling.HighestPriorityRuns` | src/scheduler.c:314-427 | On every tick of every run: idle exactly when no task is READY after timer processing, otherwise the executed task was READY and of maximum priority among the READY ones. |
| `Scheduling.InitialIsRested` | src/rtos.c:36-42 | An initialised kernel has an exact queue and no RUNNING task, so the theorems about rested kernels apply from the start. |
| `TickPhases.WakeEffect` | src/timer.c:205-227 | The start of a tick in full: the tick count goes up, each sleeper counts once, those due are READY and join the queue in table order, and nothing else changes. |
| `TickPhases.IdleEffect` | src/scheduler.c:316-325 | An idle tick zeroes the slice count of the last task and changes nothing else. |
| `TickPhases.ContinueEffect` | src/scheduler.c:409-418 | If the current task is READY and is the queue's choice, or ties with it with slice left, it leaves the queue and runs with one more slice tick used. |
| `TickPhases.SwitchEffect` | src/scheduler.c:204-239 | Otherwise the queue's choice leaves the queue and runs with slice count 1 and its own registers, the outgoing task's registers are saved, and nothing else changes. |
| `TickPhases.EndEffect` | src/scheduler.c:425-427 | When its function returns, a task still RUNNING goes READY to the queue tail; one in any other state stays as it is. |
| `BoundedWaiting.DispatchSpendsPatience` | src/scheduler.c:332-427 | Each dispatch of another task strictly decreases N * (peers ahead) + slack for a READY task of top priority. |
| `BoundedWaiting.TickSpendsPatience` | src/scheduler.c:288-432 | So does each whole tick, for any callbacks and any body that leave the waiting task alone. |
| `BoundedWaiting.WaitEnds` | src/scheduler.c:288-432 | From any loop head, a READY task that is of top priority at each decision and left alone by the others until it runs gets the CPU within N * (peers ahead) + slack + 1 ticks, whatever its own function does then. |
| `BoundedWaiting.BoundedWait` | src/scheduler.c:288-432 | The same bound after any run from initialisation. |
| `FreshSlices.FirstInQueueRunsIff` | src/scheduler.c:338-409 | The task the queue puts first is passed over exactly when the current task is READY, of the same priority, and its slice is not used up. |
| `FreshSlices.IdleTickJumpsTheQueue` | src/scheduler.c:316-325 | After an idle tick the last task has a whole new slice: if it is READY and of top priority at the next decision it runs, whatever peers stand before it. |
| `FreshSlices.SliceSurvivesSwitchAway` | include/rtos.h:89-94 | A tick that takes the CPU from a task to another leaves the slice count of the first as it was, so it is 0 afterwards exactly when it was 0 before. |
| `Witnesses.CountKeptAfterSwitch` | src/scheduler.c:377-393 | A run of two ticks after which the CPU has left a task whose slice count is 1. |
| `Witnesses.LastTaskJumpsTheQueue` | src/scheduler.c:316-325 | A run in which two sleepers wake together after an idle tick and the one the queue puts second runs. |
| `RoundRobin.MoveKeepsTurn` | src/scheduler.c:377-427 | One more tick keeps the rotation: the top-priority peers in the queue are the group rotated to start behind the task that just ran, and its slice count is its tick within the turn. |
| `RoundRobin.TickKeepsTurn` | src/scheduler.c:288-432 | The rotation survives a whole cycle whose body makes no kernel call. |
| `RoundRobin.RunsInTurn` | src/scheduler.c:377-427 | For freshly created tasks whose bodies make no kernel calls, tick t runs member ((t - 1) / N) mod k of the k tasks of highest priority in creation order, with any lower-priority tasks present. |
| `SleepDeadlines.WakeIffDue` | src/timer.c:213-227 | The next sleep pass makes a sleeping task READY exactly when its absolute wake-up tick is due; otherwise the wake-up tick is unchanged. |
| `SleepDeadlines.SleepsUntilDue` | src/timer.c:205-231 | However other tasks, callbacks and calls interleave, a sleeper nobody touches stays BLOCKED with the same wake-up tick until it is due. |
| `SleepDeadlines.SleepSetsWakeTick` | src/rtos.c:74-83 | Sleeping for n at tick t sets the wake-up tick to t + max(1, n), for zero and negative n too. |
| `SleepDeadlines.SleepIsExact` | src/timer.c:205-231 | A task that calls sleep(n) anywhere in its body in tick t of any run is still BLOCKED before tick t + max(1, n), and the sleep pass of the next tick readies it exactly if that is this tick. |
| `SleepDeadlines.SleeperRunsOnTime` | src/timer.c:205-231 | A task that sleeps n in tick t of any run and is left alone gets the CPU in tick t + max(1, n) if it is strictly most urgent at that decision, whatever callbacks do around it. |
| `Suspension.StaysSuspendedIff` | src/scheduler.c:434-471 | A call ends a suspension exactly when it resumes the task, or sets event flags that reach an entry the task left in a waiter table (they satisfy it and no newer entry takes its bits), or blocks its caller while the suspended task is still the current one. |
| `Suspension.StaleEntryEndsSuspension` | src/event.c:83-97 | A task that waits for flags and is then suspended becomes READY when the flags are set, without a resume, in every state in which the wait blocks. |
| `Suspension.ResumeReadiesOnlySuspended` | src/rtos.c:98-109 | Resume puts a suspended task READY at the tail of the queue, and changes nothing at all for an unknown id or a task in any other state. |
| `Suspension.SuspendedNeverRuns` | src/scheduler.c:350-359 | In every run without a call that ends its suspension, a suspended task stays suspended and is never given the CPU. |
| `SoftTimers.SoftSlotTimersOk` | src/timer.c:97-135 | After each slot of the timer pass, armed timers are claimed and have 1 to period ticks to go, even if the callback creates, starts, stops or deletes timers, its own included. |
| `SoftTimers.RunTimersOk` | src/timer.c:97-135 | The same holds at every loop head of every run. |
| `SoftTimers.CycleCountsOnce` | src/timer.c:97-135 | A cycle counts a timer nobody touches exactly once, and it expires exactly when it had at most one tick to go. |
| `SoftTimers.TimerClosedForm` | src/timer.c:97-135 | d ticks after arming, the remaining count and the number of expiries are closed forms in d and the period. |
| `SoftTimers.ArmedTimerFires` | src/timer.c:97-135 | A periodic timer armed outside the pass and left alone has expired d / period times after d ticks; a one-shot 0 times before tick `period` and once from then on. |
| `SoftTimers.FiresOnMultiples` | src/timer.c:110-132 | The d-th tick after arming fires a periodic timer exactly when the period divides d, and a one-shot exactly when d is the period. |
| `SoftTimers.StartArms` | src/timer.c:285-297 | Starting a claimed timer restarts its countdown at the full period, whether or not it was running. |
| `SoftTimers.StopSilences` | src/timer.c:299-323 | In every run, a timer that a call between two cycles stops or deletes does not fire and stays disarmed while it is left alone, and a deleted slot is free; for stops made anywhere see `TimerExpiry.SilencedNeverFires`. |
| `TimerExpiry.SlotCounts` | src/timer.c:97-110 | A slot fires exactly if it is claimed, armed and has at most one tick to go; otherwise an armed one counts down by one and nothing else changes. |
| `TimerExpiry.SlotExpires` | src/timer.c:110-133 | For any callback: when the slot is done, the timer is armed exactly if the callback left it armed and periodic, a periodic one has a full period to go, and all else is as the callback left it. |
| `TimerExpiry.TickReaches` | src/timer.c:205-231 | A tick is the sleep pass, then the slots in order, each seeing what the earlier ones left, and then the decision. |
| `TimerExpiry.SilencedNeverFires` | src/timer.c:237-323 | In every run and within its timer passes: a slot is claimed exactly as the calls so far say, and it does not fire if it was stopped or deleted after its last start, be it by the main program, a task, another timer's callback or its own. |
| `SoftTimers.SelfRestart` | src/timer.c:118-132 | A timer that its own callback starts, after any calls and before any calls that leave it alone, is armed afterwards exactly if it is periodic. |
| `SoftTimers.StartedByOtherCallback` | src/timer.c:99-118 | A timer started by the callback of another slot, among any other calls, is counted again in the same pass exactly if its slot comes later, and then expires at once exactly if its period is 1; it leaves the pass as armed exactly if its slot comes earlier or it reloads every tick. |
| `Witnesses.OneShotCannotRestartItself` | src/timer.c:118-132 | A run in which a one-shot starts itself from its callback and is disarmed at the end of that tick. |
| `Witnesses.LaterSlotLosesATick` | src/timer.c:99-118 | A run in which a timer of period 2 started by an earlier slot's callback has one tick left at the end of that tick. |
| `RegisterIsolation.ApplyAgrees` | src/context.c:42-58 | No API call mixes up the register files; only a write by the executing task changes one. |
| `RegisterIsolation.DispatchAgrees` | src/scheduler.c:204-221 | Idle, continue, first, forced, preempting and slice-expiry dispatches all hand the task its own registers and save the outgoing ones. |
| `RegisterIsolation.TasksResumeTheirRegisters` | src/context.c:92-103 | In every run in which only task functions write registers, each task function starts with exactly the registers its task left, or its initial context: one shared file behaves like one private file per task. |
| `PrivateRegisters.RegistersArePrivate` | src/context.c:92-103 | In every run, whoever writes registers, each task's registers are a private file: the one its creation call gave it, changed only by the writes made while it was current. |
| `PrivateRegisters.StartsWithItsRegisters` | src/context.c:30-40 | In every run a task function is entered with its task's private file, and on the first start that is pc = the entry its creation was called with, lr = 0xFFFFFFFD, xpsr = 0x01000000 and zero general registers. |
| `Calls.SignalCall` | src/rtos.c:175-180 | A signal adds one token whether or not anybody waits, readies the most urgent waiter if there is one, and changes nothing else. |
| `Calls.WaitCall` | src/rtos.c:160-173 | A wait takes one token if there is one, and otherwise blocks its caller; nothing else changes. |
| `Calls.LockCall` | src/rtos.c:182-200 | A lock takes a free mutex for its caller, changes nothing for the owner, and blocks anybody else. |
| `Calls.UnlockCall` | src/rtos.c:202-215 | The owner's unlock frees the mutex, contended or not, and readies the most urgent waiter if there is one; any other unlock changes nothing. |
| `Calls.SendCall` | src/rtos.c:217-234 | A send stores its value at the rear and readies a receiver if the buffer has room, and otherwise blocks its caller. |
| `Calls.ReceiveCall` | src/rtos.c:236-253 | A receive takes the front value and readies a sender if there is one, and otherwise blocks its caller. |
| `Calls.ClearCall` | src/event.c:101-111 | A clear takes exactly the bits of the mask out of the flags, whoever waits, and changes nothing else. |
| `Calls.WaitOnGroup` | src/event.c:113-191 | A wait returns true exactly if the mask is not zero and all its bits are set; the old flags then split into the mask and the new ones. Otherwise the flags stay, and a wait with a mask and room in the table adds exactly its caller and mask. |
| `Calls.WaitFlagsCall` | src/event.c:113-191 | The same for the whole program: a wait that adds an entry blocks its caller, no other wait touches a task. |
| `Calls.CreateCall` | src/rtos.c:44-67 | A table with room gains a READY task at the queue tail with the next id, the given priority, zero counts, pc = entry, lr = 0xFFFFFFFD, xpsr = 0x01000000 and zero general registers; a full one refuses. |
| `Calls.SleepCall` | src/rtos.c:74-83 | Sleep blocks exactly the current task with the count and takes it off the queue. |
| `Calls.SuspendCall` | src/rtos.c:85-96 | Suspend suspends exactly the task with the id, in any state, and takes it off the queue. |
| `Calls.ResumeCall` | src/rtos.c:98-109 | Resume puts exactly a suspended task with the id READY at the queue tail; any other resume changes nothing. |
| `Calls.TimerCreateCall` | src/timer.c:237-283 | A create claims the first free slot with the given mode and period, disarmed; a zero period or a full pool changes nothing. |
| `Calls.TimerCalls` | src/timer.c:285-323 | On a claimed slot, start arms at the full period, stop disarms, delete disarms and releases; on any other slot they change nothing. |
| `Traces.TracksFromStart` | src/scheduler.c:288-432 | What holds initially of the world and no calls, and is kept by every call and by what the scheduler does itself, holds after every run of the world and all calls that its callbacks, tasks and main program made, in order. |
| `Waiters.WakeOneWaiters` | src/scheduler.c:473-493 | A wake-up takes exactly the chosen task out of the set of tasks blocked for the reason, and does nothing exactly when the set is empty. |
| `Semaphores.TokensConserved` | src/rtos.c:160-180 | In every run, for every semaphore, over the calls that its scripts make: count = initial + signal calls - wait calls of a current task that find a token, whoever is or is not blocked; it never goes negative from a non-negative start, and the log records exactly those calls. |
| `Mutexes.RunTracksHolders` | src/rtos.c:182-215 | In every run, locks succeed only on a free mutex or for its holder, are refused only to others, only the holder unlocks, and the lock bit and owner id name the holder. |
| `Mutexes.MutualExclusion` | src/rtos.c:182-215 | In every run with any number of mutexes: after a task locked one, another task's lock of it succeeds only if the first unlocked it in between. |
| `Mutexes.HeldAsCalled` | src/rtos.c:182-215 | In every run, for every mutex, over the calls that its scripts make: it is locked exactly if somebody's lock of it while free has not been followed by that task's unlock, and its owner is that task; the log names the same holder. |
| `MessageQueues.SendAppends` | src/rtos.c:227-229 | Sending to a ring buffer with room appends to its contents, across wrap-around, and keeps rear = (front + count) mod Q. |
| `MessageQueues.ReceiveTakesOldest` | src/rtos.c:246-248 | Receiving hands out the oldest value and leaves the rest in order. |
| `MessageQueues.FirstInFirstOut` | src/rtos.c:217-253 | In every run, for every queue, over the calls that its scripts make: the values sent by calls that find room are the values got by calls that find one, followed by the buffered values; the log records exactly those calls. |
| `MessageQueues.SendersAndReceiversNeverBothBlock` | src/rtos.c:217-253 | With one queue, in every run: blocked receivers + count and blocked senders + free slots fit the number of tasks, and with at least as many slots as table entries the two kinds of waiter never coexist. |
| `FairWaiting.GrantedResult` | src/rtos.c:160-253 | A wait, lock, receive or send that is served at once takes one item of its object, or re-locks, and blocks nobody. |
| `FairWaiting.RefusedResult` | src/rtos.c:160-253 | One that is not served finds nothing to take, changes no object and adds exactly its caller to the blocked tasks. |
| `FairWaiting.GiveResult` | src/rtos.c:175-253 | A signal, an unlock by the owner, a send or a receive that is served gives one item to its own object and wakes the most urgent task blocked for the reason, whatever object that task waits for. |
| `FairWaiting.GivingServesItsOwnIff` | src/scheduler.c:473-493 | Giving to an object readies a task blocked on that very object exactly when the most urgent of all tasks blocked for the reason is one. |
| `FairWaiting.GivingKeepsFairIff` | src/scheduler.c:473-493 | Giving to an object keeps the others fair, and that one exactly if nobody is blocked on it, or the most urgent waiter is one of its own, or a woken task is left to take the item. |
| `FairWaiting.CallKeepsFairIff` | src/rtos.c:160-253 | From a state in which every object is fair, any call leaves every object fair exactly if it is safe in that sense. |
| `FairWaiting.FairThroughoutIff` | src/rtos.c:160-253 | For any number of semaphores, mutexes or queues: a run from initialisation leaves every object fair after every single call exactly if every call that gives is safe when it is made. |
| `FairWaiting.SafeRunsStrandNobody` | src/rtos.c:160-253 | At the end of every such run, while a task is blocked on an object, what the object has to give is at most the number of tasks woken for it that have not tried it again. |
| `FairWaiting.OneObjectStrandsNobody` | src/rtos.c:160-253 | With a single object of the kind every giving call is safe, so nobody is stranded in any run, and blocked tasks and supply together fit the number of tasks. |
| `FairWaiting.NoStrandedWaiter` | src/rtos.c:160-180 | With one semaphore of non-negative initial count, while a task is blocked on it the count is at most the number of tasks woken for it that have not called wait again. |
| `FairWaiting.NobodyWaitsForFreeMutex` | src/rtos.c:182-215 | With one mutex, a task blocked on it implies that it is held or a woken task has not retried yet. |
| `FairWaiting.NoStrandedQueueWaiter` | src/rtos.c:217-253 | With one queue, while a task is blocked on the empty queue the buffered messages are at most the receivers woken for them that have not called receive again, and while one is blocked on the full queue the free slots are at most such senders. |
| `StrandedWaiters.TwoSemaphoresStrandAWaiter` | src/scheduler.c:473-493 | A run with two semaphores that leaves a task blocked on a semaphore of count 1 with nobody woken for it. |
| `StrandedWaiters.TwoMutexesStrandAWaiter` | src/scheduler.c:473-493 | A run with two mutexes that leaves a task blocked on a free mutex with nobody woken for it. |
| `StrandedWaiters.TwoQueuesStrandAReceiver` | src/scheduler.c:473-493 | A run with two queues that leaves a receiver blocked on a queue holding a message with nobody woken for it. |
| `StrandedWaiters.TwoQueuesStrandASender` | src/scheduler.c:473-493 | A run with two queues that leaves a sender blocked on a queue with a free slot with nobody woken for it. |
| `EventScan.ScanIsComplete` | src/event.c:76-98 | Despite the swap with the last entry and the shrinking flags, the reverse scan leaves no entry whose mask the remaining flags satisfy. |
| `EventScan.ScanPartitionsFlags` | src/event.c:83-86 | Auto-reset conserves bits: the woken masks are pairwise disjoint and with the remaining flags partition the flags scanned. |
| `EventScan.ScanConservesWaiters` | src/event.c:88-92 | As multisets, remaining and woken entries together are the old table. |
| `EventScan.ScanWakesAllIff` | src/event.c:76-98 | Every entry the scanned flags satisfy is taken exactly when no two of them share a bit. |
| `EventScan.SetFlagsContract` | src/event.c:60-99 | All of these for one call with a non-zero mask. |
| `EventBits.BitSatisfiesAtMostOneWait` | src/event.c:60-125 | A bit set once satisfies at most one wait: over any stretch of any run, the satisfied waits for a bit, from the table or at once, plus the bit at the end are at most the calls that set it plus the bit at the beginning. |
| `EventBits.SetReadiesTheServed` | src/event.c:83-97 | A set call makes READY exactly the tasks that own a served entry and leaves every other task's block unchanged. |
| `EventWakes.ScanServesNewestFirst` | src/event.c:71-98 | Although it moves entries while it walks, the scan serves the table as it stood before the call, from the newest entry to the oldest. |
| `EventWakes.ServedIff` | src/event.c:79-86 | An entry is served exactly if the flags satisfy it and it shares no bit with a newer entry that is served. |
| `EventWakes.WakesExactlyTheServed` | src/event.c:83-97 | A set wakes exactly the tasks that own a served entry. |
| `EventWakes.OnlySatisfiedWillWake` | src/event.c:79-81 | Only a task with an entry that the joined flags satisfy is woken. |
| `EventWakes.UnsharedWillWake` | src/event.c:79-97 | A task is woken if one of its satisfied entries shares no bit with another satisfied entry. |
| `EventWakes.WakesEveryTaskIff` | include/event.h:105-115 | Every task whose mask is a subset of the flags is woken exactly if each of them owns an entry that shares no bit with the newer entries served before it. |
| `EventWakes.DisjointOwnersAllWake` | include/event.h:105-115 | If satisfied entries of different tasks share no bit, every satisfied task is woken; overlaps among one task's entries do no harm. |
| `EventWakes.SingleEntriesAllWakeIff` | include/event.h:105-115 | Where no task owns two satisfied entries, every satisfied task is woken exactly if no two of them share a bit. |
| `Witnesses.SatisfiedTaskNotWoken` | src/event.c:83-86 | A run in which two tasks wait for one flag; setting it wakes the one that waited last and leaves the other blocked. |
| `EventScan.GroupStaysQuiet` | src/event.c:60-191 | Set, clear and wait each leave a group in which no live entry is satisfied. |
| `EventFlags.SetOrphansNobody` | src/event.c:83-97 | A set removes entries only of tasks it wakes, so whoever is still blocked on events keeps an entry. |
| `EventFlags.EventWaitersNeverOrphaned` | src/event.c:113-191 | In every run: no live entry is satisfied, tables never overflow, and every task blocked on events has a live entry in some group, through suspensions, resumptions and stale entries. |
| `EventFlags.FalseWaitBlocksIff` | include/event.h:128-149 | After a wait that returns false the caller is blocked on events exactly when it was before, or the mask is not zero and the table has room. |
| `Witnesses.FullTableDropsAWait` | src/event.c:127-132 | A run in which a wait finds the table full, returns false and leaves its caller READY. |
| `PoolSpec.LinkRoundTrip` | src/memory.c:114-124 | A link written into a block's bytes is read back unchanged, for every 32-bit value and whatever follows it. |
| `PoolSpec.ChainIsFreeList` | include/memory.h:22-29 | The chain decoded from the bytes is the whole free stack, without repetition or early end. |
| `PoolSpec.InitStores` | src/memory.c:130-143 | Initialisation, from any earlier contents, yields the stack 0, 1, ..., M - 1. |
| `PoolSpec.AllocPops` | src/memory.c:151-172 | Allocation pops the stack and returns that block's address; on an empty stack it returns null and changes nothing. |
| `PoolSpec.FreePushes` | src/memory.c:174-205 | Freeing the pointer base + i * size pushes block i if it is live, changing no byte but its link, and changes nothing if it is free. |
| `PoolSpec.FreeRejects` | src/memory.c:176-188 | Null, and any pointer that is not a block start and whose quotient fits an `int`, is ignored. |
| `PoolSpec.FreeIsStackStep` | src/memory.c:78-205 | Any free is the push of block (offset / size) mod 2^32 if the offset is a non-negative multiple of the size and that is a live block, and nothing otherwise. |
| `PoolSpec.ClientWriteKeeps` | include/memory.h:22-29 | Bytes a client writes into a block it holds never reach the free list. |
| `PoolSpec.RunRefines` | src/memory.c:130-205 | Every sequence of operations on the bytes simulates the same sequence on a plain stack of block numbers. |
| `PoolSpec.FreeListSurvives` | src/memory.c:130-205 | After any sequence of initialisations, allocations, frees (valid, invalid or double) and client writes: the chain is acyclic, ends, holds exactly the blocks marked free, and has the advertised length. |
| `PoolSpec.AllocNeverReturnsLiveBlock` | src/memory.c:151-172 | In every such run, allocation returns a block that was not live, and fails exactly when all are live. |
| `BlockLives.LifeEndsIff` | src/memory.c:130-205 | A live block stops being live exactly with an initialisation or a free of its pointer, up to multiples of 2^32 blocks. |
| `BlockLives.LifeBeginsIff` | src/memory.c:151-172 | A free block becomes live exactly with the allocation that returns its pointer. |
| `BlockLives.HoldersKeepTheirBytes` | include/memory.h:22-29 | In every run, until a block's life ends it stays live, and each of its bytes is what was last stored into that byte, whatever is allocated, freed and stored elsewhere. |
| `BlockLives.FreedBlockIsNext` | src/memory.c:151-205 | In every run, freeing the pointer of a live block ends exactly that block's life and changes no byte but its link, and the next allocation returns the same pointer and restores the set of live blocks. |
| `BlockLives.LiveAreHeld` | include/memory.h:114-125 | In every run that frees only pointers whose quotient fits an `int`, the blocks marked live are exactly those whose pointers were handed out and not given back, so no pointer is handed out twice. |
| `PoolSpec.AcceptsBlockStartsIff` | include/memory.h:114-125 | A pointer is accepted exactly if it is a block start, if and only if the offset quotient survives the narrowing to `int` or narrows to a number outside the pool. |
| `PoolSpec.DistantPointerAccepted` | src/memory.c:98-104 | 2^32 blocks past the pool a pointer that is no block start frees block 0 if it is live. |
| `MemoryPools.MemoryPool.ReadNextLink` | src/memory.c:114-119 | The bytes in place, read as the link. |
| `MemoryPools.MemoryPool.WriteNextLink` | src/memory.c:121-124 | Stores the link's bytes in one block and changes no other byte. |
| `MemoryPools.MemoryPool.Init` | src/memory.c:130-149 | The in-place loop initialises the pool as the specification does. |
| `MemoryPools.MemoryPool.Alloc` | src/memory.c:151-172 | The in-place allocation equals the specification, whole state and result. |
| `MemoryPools.MemoryPool.FindBlock` | src/memory.c:78-105 | The checks in order compute the block a pointer names, or -1. |
| `MemoryPools.MemoryPool.Free` | src/memory.c:174-205 | The in-place free equals the specification, including the error cases. |
| `MemoryPools.MemoryPool.Execute` | src/memory.c:130-205 | Each call and each client store in place is the step of the specification and keeps the bytes in step with the plain stack. |
| `MemoryPools.MemoryPool.RunOps` | src/memory.c:130-205 | Initialisation and any sequence of calls and client stores after it, in place, is the run of the specification, so the theorems about the pool hold of the concrete one. |
| `Kernels.Kernel.constructor` | src/rtos.c:36-42 | A fresh kernel: no task, empty queue, no current task, tick 0, all timer slots free. |
| `Kernels.Kernel.ReadyQueueContains` | src/scheduler.c:81-90 | True exactly if the task is in the queue. |
| `Kernels.Kernel.CloseGap` | src/scheduler.c:99-103 | Shifting left closes the gap: the queue is its prefix followed by its suffix. |
| `Kernels.Kernel.ReadyQueueRemove` | src/scheduler.c:92-106 | The shifting loop removes the first occurrence and nothing else. |
| `Kernels.Kernel.ReadyQueueEnqueue` | src/scheduler.c:108-128 | Appends a READY task once, if there is room. |
| `Kernels.Kernel.PeekHighestPriority` | src/scheduler.c:138-163 | Although it mutates the queue it scans, on every duplicate-free queue it terminates, leaves the stable filter to READY tasks and returns its first maximum, or -1 if it is empty. |
| `Kernels.Kernel.SetState` | src/scheduler.c:434-462 | The transition in place equals the specification, whole kernel state. |
| `Kernels.Kernel.SetCurrentState` | src/scheduler.c:464-471 | The same for the current task; without one nothing changes. |
| `Kernels.Kernel.FindWaiter` | src/scheduler.c:475-487 | The loop finds the most urgent waiter, the earliest among equals. |
| `Kernels.Kernel.UnblockOne` | src/scheduler.c:473-493 | Readies that waiter and changes nothing if there is none. |
| `Kernels.Kernel.FindIndex` | src/rtos.c:15-24 | The search by id in place. |
| `Kernels.Kernel.CreateTask` | src/rtos.c:44-67 | Adds the task READY at the tail and returns its id, or returns -1 and changes nothing when the table is full. |
| `Kernels.Kernel.Sleep` | src/rtos.c:74-83 | Blocks the current task with the given count; without one nothing changes. |
| `Kernels.Kernel.Suspend` | src/rtos.c:85-96 | Suspends a known task in any state; returns false for an unknown id. |
| `Kernels.Kernel.Resume` | src/rtos.c:98-109 | Returns true exactly if the task exists and was suspended, and only then changes anything. |
| `Kernels.Kernel.UpdateSleep` | src/timer.c:205-227 | The countdown loop equals the specification pass, queue included. |
| `Kernels.Kernel.TimerCreate` | src/timer.c:237-283 | Claims the first free slot, disarmed; -1 for a zero period or a full pool. |
| `Kernels.Kernel.TimerStart` | src/timer.c:285-297 | Arms a claimed slot at its full period; ignores an unclaimed one. |
| `Kernels.Kernel.TimerStop` | src/timer.c:299-309 | Disarms a claimed slot, which stays claimed. |
| `Kernels.Kernel.TimerDelete` | src/timer.c:311-323 | Disarms and releases a claimed slot. |
| `Kernels.Kernel.CountTimer` | src/timer.c:102-110 | Counts one armed slot down, without underflow, and says whether it expired. |
| `Kernels.Kernel.RearmTimer` | src/timer.c:123-132 | After the callback, reloads a periodic timer and disarms a one-shot. |
| `Kernels.Kernel.SwitchContext` | src/context.c:92-103 | Saves the active registers into the outgoing task and loads the incoming ones; on the first tick only loads. |
| `Kernels.Kernel.StartTask` | src/scheduler.c:189-239 | Everything a switch does before the task function is called. |
| `Kernels.Kernel.RequeueCurrent` | src/scheduler.c:425-427 | A task still RUNNING goes to the queue tail; any other is left alone. |
| `Kernels.Kernel.DispatchBest` | src/scheduler.c:316-418 | The case analysis in place equals the decision and dispatch of the specification. |
| `SyncObjects.Semaphore.Wait` | src/rtos.c:160-173 | Takes a token and returns true, or blocks the caller and returns false. |
| `SyncObjects.Semaphore.Signal` | src/rtos.c:175-180 | Adds a token and wakes at most one waiter. |
| `SyncObjects.MutexLock.Lock` | src/rtos.c:182-200 | Takes a free mutex, succeeds again for its owner, blocks anybody else. |
| `SyncObjects.MutexLock.Unlock` | src/rtos.c:202-215 | Releases and wakes one waiter if the caller is the owner; otherwise changes nothing. |
| `SyncObjects.RingQueue.Send` | src/rtos.c:217-234 | Appends and wakes one receiver, or blocks the caller on a full buffer and changes no slot. |
| `SyncObjects.RingQueue.Receive` | src/rtos.c:236-253 | Takes the oldest value and wakes one sender, or blocks the caller on an empty buffer. |
| `SyncObjects.EventFlagGroup.TakeWaiter` | src/event.c:83-92 | One hit of the scan: clears the bits, moves the last entry into the slot, frees the last slot. |
| `SyncObjects.EventFlagGroup.Set` | src/event.c:60-99 | The reverse loop over the table in place equals the recursive scan, table, flags and wake-up order included. |
| `SyncObjects.EventFlagGroup.ClearFlags` | src/event.c:101-111 | Clears the bits and leaves the table. |
| `SyncObjects.EventFlagGroup.Wait` | src/event.c:113-191 | Takes satisfied bits, or lists and blocks the caller, or drops the request for a zero mask or a full table. |
| `Systems.System.Execute` | src/rtos.c:44-253 | Every API call on the concrete kernel and objects, with any number of objects in separate storage, is the abstract call. |
| `Systems.System.RunScript` | src/scheduler.c:244 | A task function or callback is any finite sequence of calls. |
| `Systems.System.UpdateSoft` | src/timer.c:97-135 | The timer loop with its callbacks equals the specification pass. |
| `Systems.System.PeekAndDispatch` | src/scheduler.c:314-418 | Peek and dispatch in place equal eviction and dispatch of the specification. |
| `Systems.System.RunCycle` | src/scheduler.c:290-431 | One pass of the loop in place is one abstract cycle. |
| `Systems.System.SchedulerRun` | src/scheduler.c:288-432 | The whole loop, for any scripts, refines the abstract run, so the theorems about runs hold of the concrete program. |
| `Systems.Boot` | src/rtos.c:36-42 | A freshly built kernel with freshly initialised objects is an initial world, for all sizes and counts. |

## Left out

- Logging, `printf`, task and timer names, callback arguments: output only.
- The demonstration program and the finite tests.
- Task stack memory, stack pointers and the getters in `src/rtos.c:111-158`: never used by scheduling.
- Raw pointers and function pointers: pool pointers are null or byte offsets, code is scripts.
- Guards against NULL arguments, and primitives called with no current task, which dereference NULL in the code: the
  methods require a current task, and scripts skip such a call.
- Wrap-around of the tick, slice and semaphore counters, and `sleep_ticks` at the smallest `int`.
- `rtos_run` called from a task, re-initialising an object that has waiters, and `context_restore` called by the
  application.
- Structures inside C arrays are values inside Dafny arrays: a field is updated by assigning the element. Aliasing
  between a `TCB` pointer and its table entry is not modelled.
- RegisterIsolation.TasksResumeTheirRegisters: assumes that callbacks and the main program do not write the active
  registers; `PrivateRegisters` drops the assumption and gives such a write to the task that is current.
- BlockLives.LiveAreHeld: assumes that freed pointers are less than 2^31 blocks from the pool; further off,
  `PoolSpec.FreeIsStackStep` says which block a pointer is taken for.
- BoundedWaiting.BoundedWait: assumes at each decision up to the one that runs the waiting task that it is of top
  priority among READY tasks, and that nobody blocks, suspends or re-readies it before it runs; without either the
  code gives no bound. What its own function does when it runs is not restricted. The bound for a configured slice of
  0 is that for 1; otherwise the two differ, since with 0 the task the queue puts first always runs.
- SleepDeadlines.SleepIsExact: assumes that nobody resumes, wakes or re-blocks the sleeper meanwhile.
- MemoryPools.MemoryPool.Alloc: requires the head to be a block or the end mark, which `MemoryPool.RunOps` shows for
  every run from an initialised pool.
- Kernels.Kernel.PeekHighestPriority: requires a queue without duplicates, which `Scheduling.ReadyQueueIsExact` shows
  for every run.
- The byte order of links is little-endian; the pool's theorems depend only on the round trip.
