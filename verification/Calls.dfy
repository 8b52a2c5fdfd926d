/**
 * What each API call does, in full and in terms of the program's own fields: on an object that exists, and with a
 * current task where the call needs one. Everything not mentioned stays as it was.
 */
module Calls {
  import opened KernelTypes
  import opened Sequences
  import opened KernelStates
  import opened EventScan
  import opened Worlds
  import opened Scheduling

  // ---------------------------------------------------------------- state changes

  /** Any state but READY: the task gets the state and the reason, and leaves the queue. */
  lemma LeavesQueue(k: KernelState, i: int, state: TaskState, reason: BlockReason)
    requires 0 <= i < |k.tasks| && state != Ready
    ensures SetTaskState(k, i, state, reason) ==
            k.(tasks := k.tasks[i := k.tasks[i].(state := state, reason := reason)], ready := Remove(k.ready, i))
  {
  }

  /** The current task blocks for the given reason. */
  function BlockCurrent(k: KernelState, reason: BlockReason): KernelState
    requires k.HasCurrent()
  {
    k.(tasks := k.tasks[k.current := k.tasks[k.current].(state := Blocked, reason := reason)],
       ready := Remove(k.ready, k.current))
  }

  lemma CurrentBlocks(k: KernelState, reason: BlockReason)
    requires k.HasCurrent()
    ensures PerformAll(k, [SetState(k.current, Blocked, reason)]) == BlockCurrent(k, reason)
    ensures SetTaskState(k, k.current, Blocked, reason) == BlockCurrent(k, reason)
  {
    hide Remove;
    PerformOne(k, SetState(k.current, Blocked, reason));
  }

  // ---------------------------------------------------------------- semaphores

  lemma SignalCall(w: World, s: nat)
    requires s < |w.sems|
    ensures Apply(w, SemSignal(s)) ==
            w.(sems := w.sems[s := w.sems[s] + 1], k := WakeMostUrgent(w.k, OnSemaphore),
               log := Then(w.log, Signalled(s, Waiter(w.k.tasks, OnSemaphore, |w.k.tasks|))))
  {
    hide PerformAll, WakeOne, Waiter, WakeMostUrgent;
    WakesMostUrgent(w.k, OnSemaphore);
  }

  lemma WaitCall(w: World, s: nat)
    requires s < |w.sems| && w.k.HasCurrent()
    ensures Apply(w, SemWait(s)) ==
            if w.sems[s] > 0 then w.(sems := w.sems[s := w.sems[s] - 1], log := Then(w.log, Took(s, w.k.current)))
            else w.(k := BlockCurrent(w.k, OnSemaphore), log := Then(w.log, Waited(s, w.k.current)))
  {
    hide PerformAll, BlockCurrent;
    PerformNone(w.k);
    CurrentBlocks(w.k, OnSemaphore);
  }

  // ---------------------------------------------------------------- mutexes

  lemma LockCall(w: World, m: nat)
    requires m < |w.mutexes| && w.k.HasCurrent()
    ensures var id := w.k.tasks[w.k.current].id;
            Apply(w, Lock(m)) ==
            if !w.mutexes[m].locked then
              w.(mutexes := w.mutexes[m := Mutex(true, id)], log := Then(w.log, Locked(m, w.k.current)))
            else if w.mutexes[m].owner == id then w.(log := Then(w.log, Locked(m, w.k.current)))
            else w.(k := BlockCurrent(w.k, OnMutex), log := Then(w.log, Refused(m, w.k.current)))
  {
    hide PerformAll, BlockCurrent;
    PerformNone(w.k);
    CurrentBlocks(w.k, OnMutex);
  }

  lemma UnlockCall(w: World, m: nat)
    requires m < |w.mutexes| && w.k.HasCurrent()
    ensures Apply(w, Unlock(m)) ==
            if w.mutexes[m].locked && w.mutexes[m].owner == w.k.tasks[w.k.current].id then
              w.(mutexes := w.mutexes[m := Mutex(false, -1)], k := WakeMostUrgent(w.k, OnMutex),
                 log := Then(w.log, Unlocked(m, w.k.current, Waiter(w.k.tasks, OnMutex, |w.k.tasks|))))
            else w
  {
    hide PerformAll, WakeOne, Waiter, WakeMostUrgent;
    PerformNone(w.k);
    WakesMostUrgent(w.k, OnMutex);
  }

  // ---------------------------------------------------------------- message queues

  lemma SendCall(w: World, q: nat, value: int)
    requires q < |w.queues| && w.k.HasCurrent() && w.queues[q].InRange()
    ensures var mq := w.queues[q];
            Apply(w, Send(q, value)) ==
            if mq.count == |mq.buffer| then
              w.(k := BlockCurrent(w.k, OnQueueFull), log := Then(w.log, SendRefused(q, w.k.current)))
            else
              w.(queues := w.queues[q := mq.(buffer := mq.buffer[mq.rear := value], count := mq.count + 1,
                                             rear := (mq.rear + 1) % |mq.buffer|)],
                 k := WakeMostUrgent(w.k, OnQueueEmpty),
                 log := Then(w.log, Sent(q, w.k.current, value, Waiter(w.k.tasks, OnQueueEmpty, |w.k.tasks|))))
  {
    hide PerformAll, WakeOne, Waiter, WakeMostUrgent, BlockCurrent;
    CurrentBlocks(w.k, OnQueueFull);
    WakesMostUrgent(w.k, OnQueueEmpty);
  }

  lemma ReceiveCall(w: World, q: nat)
    requires q < |w.queues| && w.k.HasCurrent() && w.queues[q].InRange()
    ensures var mq := w.queues[q];
            Apply(w, Receive(q)) ==
            if mq.count == 0 then
              w.(k := BlockCurrent(w.k, OnQueueEmpty), log := Then(w.log, ReceiveRefused(q, w.k.current)))
            else
              w.(queues := w.queues[q := mq.(front := (mq.front + 1) % |mq.buffer|, count := mq.count - 1)],
                 k := WakeMostUrgent(w.k, OnQueueFull),
                 log := Then(w.log, Received(q, w.k.current, mq.buffer[mq.front],
                                             Waiter(w.k.tasks, OnQueueFull, |w.k.tasks|))))
  {
    hide PerformAll, WakeOne, Waiter, WakeMostUrgent, BlockCurrent;
    CurrentBlocks(w.k, OnQueueEmpty);
    WakesMostUrgent(w.k, OnQueueFull);
  }

  // ---------------------------------------------------------------- event flags

  lemma SetCall(w: World, e: nat, mask: bv32)
    requires e < |w.groups|
    ensures var g, r := w.groups[e], SetFlags(w.groups[e], mask);
            Apply(w, EventSet(e, mask)) ==
            w.(groups := w.groups[e := g.(flags := r.flags, waiters := r.waiters)],
               k := PerformAll(w.k, WakeAll(r.woken)))
  {
    hide PerformAll, SetFlags;
  }

  lemma ClearsBits(w: World, e: nat, mask: bv32)
    requires e < |w.groups|
    ensures Apply(w, EventClear(e, mask)) ==
            w.(groups := w.groups[e := w.groups[e].(flags := Clear(w.groups[e].flags, mask))])
  {
    hide Clear, PerformAll;
    PerformNone(w.k);
  }

  /** Clearing takes exactly the bits of the mask out of the flags. */
  lemma ClearCall(w: World, e: nat, mask: bv32)
    requires e < |w.groups|
    ensures var w' := Apply(w, EventClear(e, mask));
            && |w'.groups| == |w.groups|
            && w' == w.(groups := w.groups[e := w.groups[e].(flags := w'.groups[e].flags)])
            && w'.groups[e].flags & mask == 0
            && w'.groups[e].flags | (w.groups[e].flags & mask) == w.groups[e].flags
  {
    hide Apply, Clear;
    ClearsBits(w, e, mask);
    ClearTakes(w.groups[e].flags, mask);
  }

  lemma ClearTakes(flags: bv32, mask: bv32)
    ensures Clear(flags, mask) & mask == 0 && Clear(flags, mask) | (flags & mask) == flags
  {
  }

  /** Every bit of the mask is set. */
  predicate AllSet(flags: bv32, mask: bv32) {
    flags & mask == mask
  }

  /** The flags split into the mask and what is left. */
  predicate Takes(flags: bv32, mask: bv32, left: bv32) {
    left & mask == 0 && left | mask == flags
  }

  lemma TakesItsBits(flags: bv32, mask: bv32)
    ensures Satisfied(flags, mask) <==> AllSet(flags, mask)
    ensures Satisfied(flags, mask) ==> Takes(flags, mask, Clear(flags, mask))
  {
  }

  /**
   * A wait returns true exactly if the mask is not zero and all its bits are set; it then takes exactly them. Any
   * other wait leaves the flags alone; with a mask and room in the table it adds the caller's entry.
   */
  lemma WaitOnGroup(g: EventGroup, mask: bv32, caller: int)
    ensures WaitFor(g, mask) == TookFlags <==> mask != 0 && AllSet(g.flags, mask)
    ensures WaitFor(g, mask) == MustBlock <==> mask != 0 && !AllSet(g.flags, mask) && |g.waiters| < g.capacity
    ensures var g' := AfterWait(g, mask, caller);
            if WaitFor(g, mask) == TookFlags then g' == g.(flags := g'.flags) && Takes(g.flags, mask, g'.flags)
            else if WaitFor(g, mask) == MustBlock then g' == g.(waiters := g.waiters + [EventWaiter(caller, mask)])
            else g' == g
  {
    hide Satisfied, Clear, AllSet, Takes;
    TakesItsBits(g.flags, mask);
  }

  lemma WaitsOnGroup(w: World, e: nat, mask: bv32)
    requires e < |w.groups|
    ensures Apply(w, EventWait(e, mask)) ==
            w.(groups := w.groups[e := AfterWait(w.groups[e], mask, w.k.current)],
               k := if WaitFor(w.groups[e], mask) != MustBlock then w.k
                    else if w.k.HasCurrent() then BlockCurrent(w.k, OnEvent) else w.k)
  {
    hide WaitFor, AfterWait, PerformAll, BlockCurrent;
    PerformNone(w.k);
    WaiterBlocks(w.k);
  }

  /** The same call on the whole program: a wait that adds an entry blocks its caller, no other wait does. */
  lemma WaitFlagsCall(w: World, e: nat, mask: bv32)
    requires e < |w.groups|
    ensures var w', g := Apply(w, EventWait(e, mask)), w.groups[e];
            && |w'.groups| == |w.groups|
            && (if mask != 0 && AllSet(g.flags, mask) then
                  && w' == w.(groups := w.groups[e := g.(flags := w'.groups[e].flags)])
                  && Takes(g.flags, mask, w'.groups[e].flags)
                else if mask != 0 && |g.waiters| < g.capacity then
                  w' == w.(groups := w.groups[e := g.(waiters := g.waiters + [EventWaiter(w.k.current, mask)])],
                           k := if w.k.HasCurrent() then BlockCurrent(w.k, OnEvent) else w.k)
                else w' == w)
  {
    hide Apply, WaitFor, AfterWait, BlockCurrent, AllSet, Takes;
    var g := w.groups[e];
    WaitOnGroup(g, mask, w.k.current);
    WaitsOnGroup(w, e, mask);
    assert w.groups[e := w.groups[e]] == w.groups;
  }

  lemma WaiterBlocks(k: KernelState)
    ensures PerformAll(k, [SetState(k.current, Blocked, OnEvent)]) ==
            if k.HasCurrent() then BlockCurrent(k, OnEvent) else k
    ensures SetTaskState(k, k.current, Blocked, OnEvent) == if k.HasCurrent() then BlockCurrent(k, OnEvent) else k
  {
    hide Remove;
    PerformOne(k, SetState(k.current, Blocked, OnEvent));
  }

  // ---------------------------------------------------------------- tasks

  /** A table with room gains a READY task at the tail of the queue, with fresh registers; a full one refuses. */
  lemma CreateCall(w: World, priority: int, entry: bv32)
    requires Exact(w.k)
    ensures var n := |w.k.tasks|;
            var registers := CpuContext(seq(13, _ => 0), 0xFFFF_FFFD, entry, 0x0100_0000);
            Apply(w, CreateTask(priority, entry)) ==
            if n < w.k.cfg.maxTasks then
              w.(k := w.k.(tasks := w.k.tasks + [Tcb(n + 1, priority, Ready, NoReason, 0, 0, registers)],
                           ready := w.k.ready + [n]),
                 log := Then(w.log, Created(n, registers)))
            else w
  {
    PerformOne(w.k, Add(priority, entry));
    hide PerformAll, SetTaskState;
    var n := |w.k.tasks|;
    if n < w.k.cfg.maxTasks {
      var k1 := w.k.(tasks := w.k.tasks + [NewTcb(n + 1, priority, entry)]);
      assert Exact(k1) && n !in w.k.ready by { RoomForOne(w.k, NewTcb(n + 1, priority, entry)); }
      SetReady(k1, n, NoReason);
      RemoveAbsent(w.k.ready, n);
      hide Exact, Remove;
    }
  }

  lemma RoomForOne(k: KernelState, t: Tcb)
    requires Exact(k) && |k.tasks| < k.cfg.maxTasks && t.state == Suspended && t.id == |k.tasks| + 1
    ensures Exact(k.(tasks := k.tasks + [t])) && |k.tasks| !in k.ready
  {
    hide Distinct;
  }

  lemma SleepCall(w: World, ticks: int)
    ensures var c := w.k.current;
            Apply(w, Action.Sleep(ticks)) ==
            if w.k.HasCurrent() then
              w.(k := w.k.(tasks := w.k.tasks[c := w.k.tasks[c].(sleep := ticks, state := Blocked, reason := OnSleep)],
                           ready := Remove(w.k.ready, c)))
            else w
  {
    hide Remove;
    PerformNone(w.k);
    PerformOne(w.k, Nap(w.k.current, ticks));
    hide PerformAll;
  }

  lemma SuspendCall(w: World, id: int)
    ensures var i := IndexFromId(w.k.tasks, id);
            Apply(w, Action.Suspend(id)) ==
            if i < 0 then w
            else
              w.(k := w.k.(tasks := w.k.tasks[i := w.k.tasks[i].(state := Suspended, reason := NoReason)],
                           ready := Remove(w.k.ready, i)))
  {
    hide Remove, IndexFromId;
    PerformNone(w.k);
    PerformOne(w.k, SetState(IndexFromId(w.k.tasks, id), Suspended, NoReason));
    hide PerformAll;
  }

  lemma ResumeCall(w: World, id: int)
    requires Exact(w.k)
    ensures var i := IndexFromId(w.k.tasks, id);
            Apply(w, Action.Resume(id)) ==
            if i < 0 || w.k.tasks[i].state != Suspended then w
            else
              w.(k := w.k.(tasks := w.k.tasks[i := w.k.tasks[i].(state := Ready, reason := NoReason, sleep := 0)],
                           ready := w.k.ready + [i]))
  {
    hide PerformAll, SetTaskState, IndexFromId, Remove;
    PerformNone(w.k);
    var i := IndexFromId(w.k.tasks, id);
    PerformOne(w.k, SetState(i, Ready, NoReason));
    if i >= 0 && w.k.tasks[i].state == Suspended {
      SetReady(w.k, i, NoReason);
      RemoveAbsent(w.k.ready, i);
    }
  }

  lemma WriteCall(w: World, registers: CpuContext)
    ensures Apply(w, WriteRegisters(registers)) == w.(k := w.k.(active := registers))
  {
    PerformOne(w.k, SetRegisters(registers));
    hide PerformAll;
  }

  // ---------------------------------------------------------------- timers

  function WithTimers(w: World, timers: seq<SoftTimer>): World {
    w.(k := w.k.(timers := timers))
  }

  /** The first free slot gets the timer, stopped; a zero period or a full pool changes nothing. */
  lemma TimerCreateCall(w: World, mode: TimerMode, period: nat)
    ensures var slot := FreeSlot(w.k.timers, 0);
            Apply(w, TimerCreate(mode, period)) ==
            if period == 0 || slot < 0 then w
            else WithTimers(w, w.k.timers[slot := SoftTimer(mode, period, period, false, true)])
  {
    hide PerformAll, FreeSlot;
    PerformNone(w.k);
    PerformOne(w.k, SetTimer(if FreeSlot(w.k.timers, 0) < 0 then 0 else FreeSlot(w.k.timers, 0),
                             SoftTimer(mode, period, period, false, true)));
  }

  lemma TimerCalls(w: World, i: nat)
    requires i < |w.k.timers|
    ensures var t := w.k.timers[i];
            && Apply(w, TimerStart(i)) ==
               (if t.inUse then WithTimers(w, w.k.timers[i := t.(remaining := t.period, active := true)]) else w)
            && Apply(w, TimerStop(i)) ==
               (if t.inUse then WithTimers(w, w.k.timers[i := t.(active := false)]) else w)
            && Apply(w, TimerDelete(i)) ==
               (if t.inUse then WithTimers(w, w.k.timers[i := t.(active := false, inUse := false)]) else w)
  {
    hide PerformAll;
    var t := w.k.timers[i];
    PerformNone(w.k);
    PerformOne(w.k, SetTimer(i, t.(remaining := t.period, active := true)));
    PerformOne(w.k, SetTimer(i, t.(active := false)));
    PerformOne(w.k, SetTimer(i, t.(active := false, inUse := false)));
  }

  // ---------------------------------------------------------------- calls without a meaning

  /** A call on an object that does not exist, or one that dereferences the missing current task, is skipped. */
  lemma SkippedCall(w: World, a: Action)
    requires !Defined(w, a)
    ensures Apply(w, a) == w
  {
    PerformNone(w.k);
    hide PerformAll;
  }
}
