/** The blocking objects an application declares, updated in place against a kernel. */
module SyncObjects {
  import opened KernelTypes
  import opened KernelStates
  import opened EventScan
  import opened Worlds
  import opened Kernels

  class Semaphore {
    var count: int

    /** `semaphore_init` */
    constructor (initial: int)
      ensures count == initial
    {
      count := initial;
    }

    /** `rtos_sem_wait` */
    method Wait(k: Kernel) returns (ok: bool)
      requires k.Valid() && k.View().HasCurrent()
      modifies this, k`readyCount, k.readyQueue, k.taskList
      ensures k.Valid() && ok == (old(count) > 0)
      ensures count == if ok then old(count) - 1 else old(count)
      ensures k.View() == if ok then old(k.View())
                          else SetTaskState(old(k.View()), old(k.current), Blocked, OnSemaphore)
    {
      if count > 0 {
        count := count - 1;
        return true;
      }
      k.SetCurrentState(Blocked, OnSemaphore);
      return false;
    }

    /** `rtos_sem_signal` */
    method Signal(k: Kernel)
      requires k.Valid()
      modifies this, k`readyCount, k.readyQueue, k.taskList
      ensures k.Valid() && count == old(count) + 1
      ensures k.View() == WakeMostUrgent(old(k.View()), OnSemaphore)
    {
      count := count + 1;
      k.UnblockOne(OnSemaphore);
    }
  }

  class MutexLock {
    var locked: bool
    var owner: int

    /** `mutex_init` */
    constructor ()
      ensures View() == FREE_MUTEX
    {
      locked, owner := false, -1;
    }

    ghost function View(): Mutex
      reads this
    {
      Mutex(locked, owner)
    }

    /** `rtos_mutex_lock` */
    method Lock(k: Kernel) returns (ok: bool)
      requires k.Valid() && k.View().HasCurrent()
      modifies this, k`readyCount, k.readyQueue, k.taskList
      ensures k.Valid()
      ensures var id := old(k.View()).tasks[old(k.current)].id;
              && ok == (!old(locked) || old(owner) == id)
              && View() == (if !old(locked) then Mutex(true, id) else old(View()))
              && k.View() == if ok then old(k.View())
                             else SetTaskState(old(k.View()), old(k.current), Blocked, OnMutex)
    {
      if !locked {
        locked := true;
        owner := k.taskList[k.current].id;
        return true;
      }
      if owner == k.taskList[k.current].id {
        return true;
      }
      k.SetCurrentState(Blocked, OnMutex);
      return false;
    }

    /** `rtos_mutex_unlock` */
    method Unlock(k: Kernel)
      requires k.Valid() && k.View().HasCurrent()
      modifies this, k`readyCount, k.readyQueue, k.taskList
      ensures k.Valid()
      ensures var id := old(k.View()).tasks[old(k.current)].id;
              if old(locked) && old(owner) == id then
                View() == FREE_MUTEX && k.View() == WakeMostUrgent(old(k.View()), OnMutex)
              else View() == old(View()) && k.View() == old(k.View())
    {
      if !locked || owner != k.taskList[k.current].id {
        return;
      }
      locked := false;
      owner := -1;
      k.UnblockOne(OnMutex);
    }
  }

  class RingQueue {
    const buffer: array<int>
    var front: int
    var rear: int
    var count: int

    /** `queue_init` on a buffer of RTOS_QUEUE_SIZE slots. */
    constructor (size: nat)
      requires size > 0
      ensures fresh(buffer) && buffer.Length == size && front == 0 && rear == 0 && count == 0
    {
      buffer := new int[size](_ => 0);
      front, rear, count := 0, 0, 0;
    }

    ghost function View(): MessageQueue
      reads this, buffer
    {
      MessageQueue(buffer[..], front, rear, count)
    }

    /** `rtos_queue_send` */
    method Send(k: Kernel, value: int) returns (ok: bool)
      requires k.Valid() && k.View().HasCurrent() && View().InRange() && buffer != k.readyQueue
      modifies this, buffer, k`readyCount, k.readyQueue, k.taskList
      ensures k.Valid() && View().InRange()
      ensures var mq := old(View());
              && ok == (mq.count != |mq.buffer|)
              && (if ok then
                    && View() == MessageQueue(mq.buffer[mq.rear := value], mq.front, (mq.rear + 1) % |mq.buffer|,
                                              mq.count + 1)
                    && k.View() == WakeMostUrgent(old(k.View()), OnQueueEmpty)
                  else
                    && View() == mq
                    && k.View() == SetTaskState(old(k.View()), old(k.current), Blocked, OnQueueFull))
    {
      if count == buffer.Length {
        k.SetCurrentState(Blocked, OnQueueFull);
        return false;
      }
      buffer[rear] := value;
      rear := (rear + 1) % buffer.Length;
      count := count + 1;
      k.UnblockOne(OnQueueEmpty);
      return true;
    }

    /** `rtos_queue_receive` */
    method Receive(k: Kernel) returns (ok: bool, value: int)
      requires k.Valid() && k.View().HasCurrent() && View().InRange() && buffer != k.readyQueue
      modifies this, k`readyCount, k.readyQueue, k.taskList
      ensures k.Valid() && View().InRange()
      ensures var mq := old(View());
              && ok == (mq.count != 0)
              && (if ok then
                    && value == mq.buffer[mq.front]
                    && View() == mq.(front := (mq.front + 1) % |mq.buffer|, count := mq.count - 1)
                    && k.View() == WakeMostUrgent(old(k.View()), OnQueueFull)
                  else
                    && View() == mq
                    && k.View() == SetTaskState(old(k.View()), old(k.current), Blocked, OnQueueEmpty))
    {
      value := 0;
      if count == 0 {
        k.SetCurrentState(Blocked, OnQueueEmpty);
        return false, value;
      }
      value := buffer[front];
      front := (front + 1) % buffer.Length;
      count := count - 1;
      k.UnblockOne(OnQueueFull);
      return true, value;
    }
  }

  /** A free slot of the waiter table. */
  const NO_WAITER := EventWaiter(-1, 0)

  class EventFlagGroup {
    const waiters: array<EventWaiter>
    var flags: bv32
    var waiterCount: nat

    /** `event_flags_init` on a table of RTOS_EVENT_MAX_WAITERS slots. */
    constructor (capacity: nat)
      ensures fresh(waiters) && Valid() && View() == EventGroup(capacity, 0, [])
    {
      waiters := new EventWaiter[capacity](_ => NO_WAITER);
      flags, waiterCount := 0, 0;
    }

    ghost predicate Valid()
      reads this
    {
      waiterCount <= waiters.Length
    }

    ghost function View(): EventGroup
      requires Valid()
      reads this, waiters
    {
      EventGroup(waiters.Length, flags, waiters[..waiterCount])
    }

    /** One hit of the scan: clear the bits, move the last entry into the slot, free the last slot. */
    method TakeWaiter(i: nat) returns (task: int)
      requires Valid() && i < waiterCount
      modifies this, waiters
      ensures Valid() && task == old(waiters[i]).task && waiterCount == old(waiterCount) - 1
      ensures var g := old(View());
              View() == g.(flags := Clear(g.flags, g.waiters[i].mask),
                           waiters := g.waiters[i := g.waiters[|g.waiters| - 1]][..|g.waiters| - 1])
    {
      task := waiters[i].task;
      flags := flags & !waiters[i].mask;
      waiters[i] := waiters[waiterCount - 1];
      waiters[waiterCount - 1] := NO_WAITER;
      waiterCount := waiterCount - 1;
    }

    /** `event_flags_set` */
    method Set(k: Kernel, mask: bv32)
      requires k.Valid() && Valid()
      modifies this, waiters, k`readyCount, k.readyQueue, k.taskList
      ensures k.Valid() && Valid()
      ensures var r := SetFlags(old(View()), mask);
              && View() == old(View()).(flags := r.flags, waiters := r.waiters)
              && k.View() == PerformAll(old(k.View()), WakeAll(r.woken))
    {
      hide Satisfied, Clear, Join, Scan, Remains, PerformAll, SetTaskState;
      if mask == 0 {
        assert WakeAll([]) == [];
        PerformNone(k.View());
        return;
      }
      ghost var k0, r := k.View(), SetFlags(View(), mask);
      flags := flags | mask;
      assert flags == Join(old(flags), mask) by { JoinIsOr(old(flags), mask); }
      ghost var woken: seq<EventWaiter> := [];
      ScanBegins(r, flags, View().waiters);
      PerformNone(k0);
      var i: int := waiterCount;
      while i > 0
        invariant k.Valid() && Valid() && 0 <= i <= waiterCount
        invariant Remains(r, flags, View().waiters, i, woken)
        invariant k.View() == PerformAll(k0, WakeAll(woken))
      {
        i := i - 1;
        ghost var w := View().waiters[i];
        ScanStep(r, flags, View().waiters, i, woken);
        var hit := IsSatisfied(flags, waiters[i].mask);
        if hit {
          var task := TakeWaiter(i);
          k.SetState(task, Ready, NoReason);
          WakeOneMore(k0, woken, w);
          woken := woken + [w];
        }
      }
      ScanEnds(r, flags, View().waiters, woken);
    }

    /** `event_flags_clear` */
    method ClearFlags(mask: bv32)
      requires Valid()
      modifies this
      ensures Valid() && View() == old(View()).(flags := Clear(old(flags), mask))
    {
      flags := flags & !mask;
    }

    /** `event_flags_wait` */
    method Wait(k: Kernel, mask: bv32) returns (ok: bool)
      requires k.Valid() && Valid()
      modifies this, waiters, k`readyCount, k.readyQueue, k.taskList
      ensures k.Valid() && Valid()
      ensures var outcome := WaitFor(old(View()), mask);
              && ok == (outcome == TookFlags)
              && View() == AfterWait(old(View()), mask, old(k.current))
              && k.View() == if outcome == MustBlock
                             then SetTaskState(old(k.View()), old(k.current), Blocked, OnEvent)
                             else old(k.View())
    {
      if mask == 0 {
        return false;
      }
      var satisfied := IsSatisfied(flags, mask);
      if satisfied {
        flags := flags & !mask;
        return true;
      }
      hide Satisfied, Clear;
      if waiterCount >= waiters.Length {
        return false;
      }
      waiters[waiterCount] := EventWaiter(k.current, mask);
      waiterCount := waiterCount + 1;
      assert View().waiters == old(View()).waiters + [EventWaiter(k.current, mask)];
      k.SetCurrentState(Blocked, OnEvent);
      return false;
    }
  }

  method IsSatisfied(flags: bv32, mask: bv32) returns (b: bool)
    ensures b == Satisfied(flags, mask)
  {
    b := flags & mask == mask;
  }

  /** r is what the scan will have found, given what it has found and the entries below n still to be scanned. */
  ghost predicate Remains(r: ScanResult, flags: bv32, ws: seq<EventWaiter>, n: nat, woken: seq<EventWaiter>) {
    n <= |ws| && var s := Scan(flags, ws, n); r == ScanResult(s.flags, s.waiters, woken + s.woken)
  }

  lemma ScanBegins(r: ScanResult, flags: bv32, ws: seq<EventWaiter>)
    requires r == Scan(flags, ws, |ws|)
    ensures Remains(r, flags, ws, |ws|, []) && WakeAll([]) == []
  {
    hide Scan;
  }

  lemma ScanStep(r: ScanResult, flags: bv32, ws: seq<EventWaiter>, i: nat, woken: seq<EventWaiter>)
    requires Remains(r, flags, ws, i + 1, woken)
    ensures if Satisfied(flags, ws[i].mask) then
              Remains(r, Clear(flags, ws[i].mask), ws[i := ws[|ws| - 1]][..|ws| - 1], i, woken + [ws[i]])
            else Remains(r, flags, ws, i, woken)
  {
    hide Satisfied, Clear;
    if Satisfied(flags, ws[i].mask) {
      var rest := Scan(Clear(flags, ws[i].mask), ws[i := ws[|ws| - 1]][..|ws| - 1], i);
      assert woken + ([ws[i]] + rest.woken) == (woken + [ws[i]]) + rest.woken;
    }
  }

  lemma ScanEnds(r: ScanResult, flags: bv32, ws: seq<EventWaiter>, woken: seq<EventWaiter>)
    requires Remains(r, flags, ws, 0, woken)
    ensures r == ScanResult(flags, ws, woken)
  {
    assert woken + [] == woken;
  }

  lemma JoinIsOr(a: bv32, b: bv32)
    ensures Join(a, b) == a | b
  {
  }

  lemma {:induction false} PerformAllSnoc(k: KernelState, es: seq<Effect>, e: Effect)
    ensures PerformAll(k, es + [e]) == Perform(PerformAll(k, es), e)
    decreases |es|
  {
    if es == [] {
      assert [e][1..] == [];
    } else {
      assert (es + [e])[1..] == es[1..] + [e];
      PerformAllSnoc(Perform(k, es[0]), es[1..], e);
    }
  }

  lemma WakeOneMore(k: KernelState, woken: seq<EventWaiter>, w: EventWaiter)
    ensures PerformAll(k, WakeAll(woken + [w])) == SetTaskState(PerformAll(k, WakeAll(woken)), w.task, Ready, NoReason)
  {
    assert WakeAll(woken + [w]) == WakeAll(woken) + [SetState(w.task, Ready, NoReason)];
    PerformAllSnoc(k, WakeAll(woken), SetState(w.task, Ready, NoReason));
  }
}
