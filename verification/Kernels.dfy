/** The kernel as the program keeps it: static tables, counters and one register file, updated in place. */
module Kernels {
  import opened KernelTypes
  import opened Sequences
  import opened ReadyQueues
  import opened KernelStates
  import opened Worlds

  class Kernel {
    const cfg: Config
    const taskList: array<Tcb>
    const readyQueue: array<int>
    const softTimers: array<SoftTimer>
    var taskCount: nat
    var readyCount: nat
    var current: int
    var tick: nat
    var active: CpuContext

    ghost predicate Valid()
      reads this
    {
      && taskList.Length == cfg.maxTasks && readyQueue.Length == cfg.maxTasks
      && taskCount <= cfg.maxTasks && readyCount <= cfg.maxTasks
    }

    ghost function View(): KernelState
      requires Valid()
      reads this, taskList, readyQueue, softTimers
    {
      KernelState(cfg, taskList[..taskCount], readyQueue[..readyCount], current, tick, softTimers[..], active)
    }

    /** `rtos_init`, `scheduler_init` and `timer_init`. */
    constructor (cfg: Config, timerCount: nat)
      ensures Valid() && fresh(taskList) && fresh(readyQueue) && fresh(softTimers)
      ensures View().cfg == cfg && |View().timers| == timerCount
      ensures View().tasks == [] && View().ready == [] && View().current == -1 && View().tick == 0
      ensures forall i :: 0 <= i < timerCount ==> View().timers[i] == FREE_TIMER
    {
      this.cfg := cfg;
      taskList := new Tcb[cfg.maxTasks](_ => NewTcb(0, 0, 0));
      readyQueue := new int[cfg.maxTasks](_ => 0);
      softTimers := new SoftTimer[timerCount](_ => FREE_TIMER);
      taskCount, readyCount, current, tick := 0, 0, -1, 0;
      active := CpuContext(seq(13, _ => 0), 0, 0, 0);
    }

    // -------------------------------------------------------------- ready queue

    method ReadyQueueContains(i: int) returns (found: bool)
      requires Valid()
      ensures found <==> i in View().ready
    {
      for j := 0 to readyCount
        invariant i !in readyQueue[..j]
      {
        if readyQueue[j] == i {
          return true;
        }
      }
      return false;
    }

    /** The inner loop of `ready_queue_remove`: close the gap at pos. */
    method CloseGap(pos: nat)
      requires Valid() && pos < readyCount
      modifies this`readyCount, readyQueue
      ensures Valid() && readyCount == old(readyCount) - 1
      ensures readyQueue[..readyCount] == old(readyQueue[..pos] + readyQueue[pos + 1..readyCount])
    {
      ghost var q := readyQueue[..readyCount];
      var j := pos;
      while j < readyCount - 1
        invariant pos <= j < readyCount == |q|
        invariant forall m :: 0 <= m < pos ==> readyQueue[m] == q[m]
        invariant forall m :: pos <= m < j ==> readyQueue[m] == q[m + 1]
        invariant forall m :: j <= m < readyCount ==> readyQueue[m] == q[m]
      {
        readyQueue[j] := readyQueue[j + 1];
        j := j + 1;
      }
      readyCount := readyCount - 1;
      assert readyQueue[..readyCount] == q[..pos] + q[pos + 1..];
    }

    method ReadyQueueRemove(i: int)
      requires Valid()
      modifies this`readyCount, readyQueue
      ensures Valid() && View() == old(View()).(ready := Remove(old(View()).ready, i))
    {
      ghost var q := readyQueue[..readyCount];
      for pos := 0 to readyCount
        invariant readyQueue[..readyCount] == q
        invariant i !in q[..pos]
      {
        assert readyQueue[pos] == q[pos] && readyQueue[..pos] == q[..pos];
        if readyQueue[pos] == i {
          CloseGap(pos);
          RemoveAt(q, pos);
          return;
        }
      }
      RemoveAbsent(q, i);
    }

    method ReadyQueueEnqueue(i: int)
      requires Valid()
      modifies this`readyCount, readyQueue
      ensures Valid() && View() == Enqueue(old(View()), i)
    {
      if i < 0 || i >= taskCount {
        return;
      }
      if taskList[i].state != Ready {
        return;
      }
      var present := ReadyQueueContains(i);
      if readyCount >= cfg.maxTasks || present {
        return;
      }
      readyQueue[readyCount] := i;
      readyCount := readyCount + 1;
      assert readyQueue[..readyCount] == old(readyQueue[..readyCount]) + [i];
    }

    /**
     * `ready_queue_peek_highest_priority`: the scan evicts stale entries while it walks the queue. On a queue
     * without duplicates it leaves the stable filter to READY entries and returns its first maximum.
     */
    method PeekHighestPriority() returns (best: int)
      requires Valid() && InTable(View().tasks, View().ready) && Distinct(View().ready)
      modifies this`readyCount, readyQueue
      ensures Valid() && View() == Evict(old(View()))
      ensures best == BestOf(View().tasks, View().ready)
    {
      hide BestOf, ReadyOnly, Distinct, InTable, Remove, Scanned;
      ghost var tasks, kept, rest := View().tasks, [], View().ready;
      ghost var target := ReadyOnly(tasks, rest);
      ScanStarts(tasks, rest);
      var bestPos := -1;
      var i := 0;
      while i < readyCount
        invariant Valid() && readyQueue[..readyCount] == kept + rest
        invariant i == |kept| && Scanned(tasks, target, kept, rest, bestPos)
        decreases |rest|
      {
        ScanReads(tasks, target, kept, rest, bestPos);
        var x := readyQueue[i];
        assert x == (kept + rest)[i] && taskList[x] == tasks[x];
        if taskList[x].state != Ready {
          ScanEvicts(tasks, target, kept, rest, bestPos);
          ReadyQueueRemove(x);
          rest := rest[1..];
          continue;
        }
        ScanKeeps(tasks, target, kept, rest, bestPos);
        assert bestPos >= 0 ==> readyQueue[bestPos] == (kept + rest)[bestPos];
        if bestPos < 0 || taskList[x].priority > taskList[readyQueue[bestPos]].priority {
          bestPos := i;
        }
        kept, rest := kept + [x], rest[1..];
        i := i + 1;
      }
      assert rest == [];
      QueueScanned(tasks, target, kept, bestPos);
      assert bestPos >= 0 ==> readyQueue[bestPos] == kept[bestPos];
      best := if bestPos < 0 then -1 else readyQueue[bestPos];
    }

    // -------------------------------------------------------------- task states

    /** `scheduler_set_task_state` */
    method SetState(i: int, state: TaskState, reason: BlockReason)
      requires Valid()
      modifies this`readyCount, readyQueue, taskList
      ensures Valid() && View() == SetTaskState(old(View()), i, state, reason)
    {
      if i < 0 || i >= taskCount {
        return;
      }
      ReadyQueueRemove(i);
      ghost var k := View();
      taskList[i] := taskList[i].(state := state, reason := reason);
      assert View() == k.(tasks := k.tasks[i := k.tasks[i].(state := state, reason := reason)]);
      if state == Ready {
        taskList[i] := taskList[i].(sleep := 0, reason := NoReason);
        assert View() == k.(tasks := k.tasks[i := k.tasks[i].(state := state, reason := NoReason, sleep := 0)]);
        ReadyQueueEnqueue(i);
      }
    }

    /** `scheduler_set_current_task_state` */
    method SetCurrentState(state: TaskState, reason: BlockReason)
      requires Valid()
      modifies this`readyCount, readyQueue, taskList
      ensures Valid() && View() == SetTaskState(old(View()), current, state, reason)
    {
      SetState(current, state, reason);
    }

    /** The scan of `scheduler_unblock_one`. */
    method FindWaiter(reason: BlockReason) returns (best: int)
      requires Valid()
      ensures best == Waiter(View().tasks, reason, taskCount)
    {
      hide Waiter;
      ghost var tasks := View().tasks;
      best := -1;
      for i := 0 to taskCount
        invariant best == Waiter(tasks, reason, i)
      {
        WaiterStep(tasks, reason, i);
        assert taskList[i] == tasks[i] && (best >= 0 ==> taskList[best] == tasks[best]);
        if taskList[i].state != Blocked || taskList[i].reason != reason {
          continue;
        }
        if best < 0 || taskList[i].priority > taskList[best].priority {
          best := i;
        }
      }
    }

    /** `scheduler_unblock_one` */
    method UnblockOne(reason: BlockReason)
      requires Valid()
      modifies this`readyCount, readyQueue, taskList
      ensures Valid() && View() == WakeMostUrgent(old(View()), reason)
    {
      var best := FindWaiter(reason);
      if best >= 0 {
        SetState(best, Ready, NoReason);
      }
    }

    // -------------------------------------------------------------- tasks

    method FindIndex(id: int) returns (i: int)
      requires Valid()
      ensures i == IndexFromId(View().tasks, id)
    {
      for j := 0 to taskCount
        invariant IndexFromId(View().tasks[..j], id) == -1
      {
        assert View().tasks[..j + 1][..j] == View().tasks[..j];
        if taskList[j].id == id {
          FirstId(View().tasks, id, j);
          return j;
        }
      }
      assert View().tasks[..taskCount] == View().tasks;
      return -1;
    }

    /** `rtos_create_task`: the new task's id, or -1 if the table is full. */
    method CreateTask(priority: int, entry: bv32) returns (id: int)
      requires Valid()
      modifies this`taskCount, this`readyCount, readyQueue, taskList
      ensures Valid() && View() == AddTask(old(View()), priority, entry)
      ensures id == if old(taskCount) < cfg.maxTasks then old(taskCount) + 1 else -1
    {
      hide SetTaskState;
      if taskCount >= cfg.maxTasks {
        return -1;
      }
      ghost var k := View();
      taskList[taskCount] := NewTcb(taskCount + 1, priority, entry);
      taskCount := taskCount + 1;
      assert View() == k.(tasks := k.tasks + [NewTcb(taskCount, priority, entry)]);
      SetState(taskCount - 1, Ready, NoReason);
      return taskCount;
    }

    /** `rtos_task_sleep` */
    method Sleep(ticks: int)
      requires Valid()
      modifies this`readyCount, readyQueue, taskList
      ensures Valid() && View() == PutToSleep(old(View()), current, ticks)
    {
      if current < 0 || current >= taskCount {
        return;
      }
      ghost var k := View();
      taskList[current] := taskList[current].(sleep := ticks);
      assert View() == k.(tasks := k.tasks[current := k.tasks[current].(sleep := ticks)]);
      SetCurrentState(Blocked, OnSleep);
    }

    /** `rtos_suspend_task` */
    method Suspend(id: int) returns (ok: bool)
      requires Valid()
      modifies this`readyCount, readyQueue, taskList
      ensures Valid()
      ensures var i := IndexFromId(old(View()).tasks, id);
              && ok == (i >= 0)
              && View() == SetTaskState(old(View()), i, Suspended, NoReason)
    {
      var i := FindIndex(id);
      if i < 0 {
        return false;
      }
      SetState(i, Suspended, NoReason);
      return true;
    }

    /** `rtos_resume_task` */
    method Resume(id: int) returns (ok: bool)
      requires Valid()
      modifies this`readyCount, readyQueue, taskList
      ensures Valid()
      ensures var i := IndexFromId(old(View()).tasks, id);
              && ok == (i >= 0 && old(View()).tasks[i].state == Suspended)
              && View() == if ok then SetTaskState(old(View()), i, Ready, NoReason) else old(View())
    {
      var i := FindIndex(id);
      if i < 0 || taskList[i].state != Suspended {
        return false;
      }
      SetState(i, Ready, NoReason);
      return true;
    }

    // -------------------------------------------------------------- time

    /** `timer_tick` and the sleep loop of `timer_update_sleep`. */
    method UpdateSleep()
      requires Valid()
      modifies this`tick, this`readyCount, readyQueue, taskList
      ensures Valid() && View() == SleepPass(old(View()).(tick := old(tick) + 1), 0)
    {
      ghost var target := SleepPass(View().(tick := tick + 1), 0);
      tick := tick + 1;
      assert View() == old(View()).(tick := old(tick) + 1);
      for i := 0 to taskCount
        invariant Valid() && SleepPass(View(), i) == target
        invariant taskCount == old(taskCount)
      {
        ghost var k := View();
        if taskList[i].state != Blocked || taskList[i].reason != OnSleep {
          assert CountDown(k, i) == k;
          continue;
        }
        taskList[i] := taskList[i].(sleep := taskList[i].sleep - 1);
        assert View() == k.(tasks := k.tasks[i := k.tasks[i].(sleep := k.tasks[i].sleep - 1)]);
        if taskList[i].sleep <= 0 {
          SetState(i, Ready, NoReason);
        }
        assert View() == CountDown(k, i);
      }
    }

    /** `timer_soft_create`: the claimed slot, or -1 for a zero period or a full pool. */
    method TimerCreate(mode: TimerMode, period: nat) returns (slot: int)
      requires Valid()
      modifies softTimers
      ensures slot == if period == 0 then -1 else FreeSlot(old(View()).timers, 0)
      ensures View() == if slot < 0 then old(View())
                        else old(View()).(timers :=
                          old(View()).timers[slot := SoftTimer(mode, period, period, false, true)])
    {
      if period == 0 {
        return -1;
      }
      for i := 0 to softTimers.Length
        invariant FreeSlot(View().timers, 0) == FreeSlot(View().timers, i)
      {
        if softTimers[i].inUse {
          continue;
        }
        softTimers[i] := SoftTimer(mode, period, period, false, true);
        return i;
      }
      return -1;
    }

    /** `timer_soft_start` */
    method TimerStart(t: nat)
      requires Valid() && t < softTimers.Length
      modifies softTimers
      ensures var before := old(View()).timers[t];
              View() == if !before.inUse then old(View())
                        else old(View()).(timers :=
                          old(View()).timers[t := before.(remaining := before.period, active := true)])
    {
      if !softTimers[t].inUse {
        return;
      }
      softTimers[t] := softTimers[t].(remaining := softTimers[t].period);
      softTimers[t] := softTimers[t].(active := true);
    }

    /** `timer_soft_stop` */
    method TimerStop(t: nat)
      requires Valid() && t < softTimers.Length
      modifies softTimers
      ensures var before := old(View()).timers[t];
              View() == if !before.inUse then old(View())
                        else old(View()).(timers := old(View()).timers[t := before.(active := false)])
    {
      if !softTimers[t].inUse {
        return;
      }
      softTimers[t] := softTimers[t].(active := false);
    }

    /** `timer_soft_delete` */
    method TimerDelete(t: nat)
      requires Valid() && t < softTimers.Length
      modifies softTimers
      ensures var before := old(View()).timers[t];
              View() == if !before.inUse then old(View())
                        else old(View()).(timers := old(View()).timers[t := before.(active := false, inUse := false)])
    {
      if !softTimers[t].inUse {
        return;
      }
      softTimers[t] := softTimers[t].(active := false);
      softTimers[t] := softTimers[t].(inUse := false);
    }

    /** `timer_update_soft` on one slot up to the call of its callback; returns whether the timer has expired. */
    method CountTimer(t: nat) returns (expired: bool)
      requires Valid() && t < softTimers.Length
      modifies softTimers
      ensures var before := old(View()).timers[t];
              var left := if before.remaining > 0 then before.remaining - 1 else 0;
              if before.inUse && before.active then
                && expired == (left == 0)
                && View() == old(View()).(timers := old(View()).timers[t := before.(remaining := left)])
              else !expired && View() == old(View())
    {
      if !softTimers[t].inUse || !softTimers[t].active {
        return false;
      }
      if softTimers[t].remaining > 0 {
        softTimers[t] := softTimers[t].(remaining := softTimers[t].remaining - 1);
      }
      assert softTimers[..] == old(softTimers[..])[t := softTimers[t]];
      expired := softTimers[t].remaining == 0;
    }

    /** `timer_update_soft` on one slot after its callback: reload or disarm. */
    method RearmTimer(t: nat)
      requires Valid() && t < softTimers.Length
      modifies softTimers
      ensures var before := old(View()).timers[t];
              View() == old(View()).(timers := old(View()).timers[t :=
                if before.mode == Periodic then before.(remaining := before.period) else before.(active := false)])
    {
      if softTimers[t].mode == Periodic {
        softTimers[t] := softTimers[t].(remaining := softTimers[t].period);
      } else {
        softTimers[t] := softTimers[t].(active := false);
      }
    }

    // -------------------------------------------------------------- contexts

    /** `context_switch` from the current task, or `context_restore` when there is none. */
    method SwitchContext(incoming: nat)
      requires Valid() && incoming < taskCount
      modifies this`active, taskList
      ensures Valid() && View() == LoadContext(old(View()), incoming)
    {
      ghost var k := View();
      if 0 <= current < taskCount {
        taskList[current] := taskList[current].(context := active);
        assert View() == k.(tasks := k.tasks[current := k.tasks[current].(context := k.active)]);
      }
      active := taskList[incoming].context;
    }

    // -------------------------------------------------------------- dispatch

    method SetSlice(i: nat, slice: nat)
      requires Valid() && i < taskCount
      modifies taskList
      ensures Valid()
      ensures View() == old(View()).(tasks := old(View()).tasks[i := old(View()).tasks[i].(slice := slice)])
    {
      taskList[i] := taskList[i].(slice := slice);
    }

    /** A task that is still RUNNING goes back to the queue: before it is preempted, and after its function returns. */
    method RequeueCurrent()
      requires Valid()
      modifies this`readyCount, readyQueue, taskList
      ensures Valid() && View() == Requeue(old(View()))
    {
      if 0 <= current < taskCount && taskList[current].state == Running {
        SetState(current, Ready, NoReason);
      }
    }

    /** `ready_queue_pop` and `do_context_switch` up to the call of the task function. */
    method StartTask(i: nat)
      requires Valid() && i < taskCount
      modifies this, readyQueue, taskList
      ensures Valid() && View() == SwitchTo(old(View()), i)
    {
      ReadyQueueRemove(i);
      SwitchContext(i);
      ghost var k1 := View();
      current := i;
      assert View() == k1.(current := i);
      SetSlice(i, 1);
      SetState(i, Running, NoReason);
    }

    /**
     * The decision of `scheduler_run` and what it does before the chosen task's function is called; returns whether
     * the cycle is idle.
     */
    method DispatchBest(best: int) returns (idle: bool)
      requires Valid() && InTable(View().tasks, View().ready) && best == BestOf(View().tasks, View().ready)
      modifies this, readyQueue, taskList
      ensures Valid() && View() == Dispatch(old(View()))
      ensures idle == (Decide(old(View())) == Idle)
    {
      hide BestOf, SetTaskState, SwitchTo, Requeue;
      var hasCurrent := 0 <= current < taskCount;
      if best < 0 {
        if hasCurrent {
          SetSlice(current, 0);
        }
        return true;
      }
      assert best < taskCount by { BestInTable(View()); }
      if !hasCurrent {
        StartTask(best);
        return false;
      }
      var state, slice := taskList[current].state, taskList[current].slice;
      var currentPriority, bestPriority := taskList[current].priority, taskList[best].priority;
      if state != Running && state != Ready {
        StartTask(best);
        return false;
      }
      if bestPriority > currentPriority
         || (bestPriority == currentPriority && slice >= cfg.sliceTicks && best != current)
      {
        RequeueCurrent();
        StartTask(best);
        return false;
      }
      SetSlice(current, slice + 1);
      SetState(current, Running, NoReason);
      return false;
    }
  }

  lemma WaiterStep(tasks: seq<Tcb>, reason: BlockReason, n: nat)
    requires n < |tasks|
    ensures var b := Waiter(tasks, reason, n);
            Waiter(tasks, reason, n + 1) ==
            if WaitsFor(tasks[n], reason) && (b < 0 || tasks[n].priority > tasks[b].priority) then n else b
  {
  }

  lemma BestInTable(k: KernelState)
    requires InTable(k.tasks, k.ready)
    ensures BestOf(k.tasks, k.ready) < |k.tasks|
  {
  }

  /**
   * Part of the queue is scanned: `kept` holds its READY entries, `rest` is still to come, and bestPos is the place
   * of the first maximum kept so far, -1 if there is none.
   */
  ghost predicate Scanned(tasks: seq<Tcb>, target: seq<int>, kept: seq<int>, rest: seq<int>, bestPos: int) {
    && InTable(tasks, kept + rest) && Distinct(kept + rest) && InTable(tasks, kept)
    && kept + ReadyOnly(tasks, rest) == target
    && -1 <= bestPos < |kept|
    && BestOf(tasks, kept) == if bestPos < 0 then -1 else kept[bestPos]
  }

  lemma ScanStarts(tasks: seq<Tcb>, q: seq<int>)
    requires InTable(tasks, q) && Distinct(q)
    ensures [] + q == q && Scanned(tasks, ReadyOnly(tasks, q), [], q, -1)
  {
    assert [] + q == q && [] + ReadyOnly(tasks, q) == ReadyOnly(tasks, q);
  }

  /** What the scan reads is in range. */
  lemma ScanReads(tasks: seq<Tcb>, target: seq<int>, kept: seq<int>, rest: seq<int>, bestPos: int)
    requires Scanned(tasks, target, kept, rest, bestPos) && rest != []
    ensures (kept + rest)[|kept|] == rest[0] && 0 <= rest[0] < |tasks| && -1 <= bestPos < |kept|
    ensures bestPos >= 0 ==> (kept + rest)[bestPos] == kept[bestPos] && 0 <= kept[bestPos] < |tasks|
  {
  }

  /** Evicting a stale entry: it is the only one of its value, so removal by value hits the scanned position. */
  lemma ScanEvicts(tasks: seq<Tcb>, target: seq<int>, kept: seq<int>, rest: seq<int>, bestPos: int)
    requires Scanned(tasks, target, kept, rest, bestPos) && rest != [] && !IsReady(tasks, rest[0])
    ensures Remove(kept + rest, rest[0]) == kept + rest[1..]
    ensures Scanned(tasks, target, kept, rest[1..], bestPos)
  {
    var q := kept + rest;
    assert q[..|kept|] == kept && q[|kept|] == rest[0] && q[|kept| + 1..] == rest[1..];
    forall j | 0 <= j < |kept| ensures kept[j] != rest[0] {
      assert q[j] == kept[j];
    }
    RemoveAt(q, |kept|);
    RemoveMembers(q, rest[0]);
  }

  /** Keeping a READY entry: it wins only with a higher priority than the best one kept so far. */
  lemma ScanKeeps(tasks: seq<Tcb>, target: seq<int>, kept: seq<int>, rest: seq<int>, bestPos: int)
    requires Scanned(tasks, target, kept, rest, bestPos) && rest != [] && IsReady(tasks, rest[0])
    ensures kept + [rest[0]] + rest[1..] == kept + rest
    ensures Scanned(tasks, target, kept + [rest[0]], rest[1..],
                    if bestPos < 0 || tasks[rest[0]].priority > tasks[kept[bestPos]].priority then |kept| else bestPos)
  {
    var x := rest[0];
    assert kept + [x] + rest[1..] == kept + rest;
    assert kept + [x] + ReadyOnly(tasks, rest[1..]) == kept + ReadyOnly(tasks, rest);
    assert forall j :: 0 <= j < |kept| ==> kept[j] == (kept + rest)[j];
    assert (kept + [x])[..|kept|] == kept;
  }

  lemma QueueScanned(tasks: seq<Tcb>, target: seq<int>, kept: seq<int>, bestPos: int)
    requires Scanned(tasks, target, kept, [], bestPos)
    ensures kept + [] == kept == target && InTable(tasks, kept) && -1 <= bestPos < |kept|
    ensures BestOf(tasks, kept) == if bestPos < 0 then -1 else kept[bestPos]
  {
  }

  lemma {:induction false} FirstId(tasks: seq<Tcb>, id: int, j: nat)
    requires j < |tasks| && tasks[j].id == id && IndexFromId(tasks[..j], id) == -1
    ensures IndexFromId(tasks, id) == j
    decreases |tasks|
  {
    var n := |tasks| - 1;
    if j < n {
      assert tasks[..n][..j] == tasks[..j];
      FirstId(tasks[..n], id, j);
    }
  }
}
