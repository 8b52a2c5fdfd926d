/**
 * The running program: a kernel and the blocking objects of an application, driven by scripts that stand for the C
 * function pointers. A ghost field holds the world the concrete state represents, with its history.
 */
module Systems {
  import opened KernelTypes
  import opened ReadyQueues
  import opened KernelStates
  import opened EventScan
  import opened Worlds
  import opened Scheduling
  import opened Kernels
  import opened SyncObjects
  import opened Calls

  /** No object occurs twice. */
  ghost predicate Apart<T>(s: seq<T>) {
    forall i, j :: 0 <= i < j < |s| ==> s[i] != s[j]
  }

  ghost predicate BuffersApart(queues: seq<RingQueue>) {
    forall i, j :: 0 <= i < j < |queues| ==> queues[i].buffer != queues[j].buffer
  }

  ghost predicate TablesApart(groups: seq<EventFlagGroup>) {
    forall i, j :: 0 <= i < j < |groups| ==> groups[i].waiters != groups[j].waiters
  }

  ghost function Counts(sems: seq<Semaphore>): (r: seq<int>)
    reads sems
    ensures |r| == |sems| && forall i :: 0 <= i < |sems| ==> r[i] == sems[i].count
  {
    if sems == [] then [] else [sems[0].count] + Counts(sems[1..])
  }

  ghost function MutexViews(mutexes: seq<MutexLock>): (r: seq<Mutex>)
    reads mutexes
    ensures |r| == |mutexes| && forall i :: 0 <= i < |mutexes| ==> r[i] == mutexes[i].View()
  {
    if mutexes == [] then [] else [mutexes[0].View()] + MutexViews(mutexes[1..])
  }

  ghost function QueueViews(queues: seq<RingQueue>): (r: seq<MessageQueue>)
    reads queues, set q | q in queues :: q.buffer
    ensures |r| == |queues| && forall i :: 0 <= i < |queues| ==> r[i] == queues[i].View()
  {
    if queues == [] then [] else [queues[0].View()] + QueueViews(queues[1..])
  }

  ghost function GroupViews(groups: seq<EventFlagGroup>): (r: seq<EventGroup>)
    requires forall i :: 0 <= i < |groups| ==> groups[i].Valid()
    reads groups, set g | g in groups :: g.waiters
    ensures |r| == |groups| && forall i :: 0 <= i < |groups| ==> r[i] == groups[i].View()
  {
    if groups == [] then [] else [groups[0].View()] + GroupViews(groups[1..])
  }

  // ---------------------------------------------------------------- what each call amounts to

  /** w' differs from w in the kernel, the history and nothing else. */
  ghost predicate SameObjects(w: World, w': World) {
    w'.sems == w.sems && w'.mutexes == w.mutexes && w'.queues == w.queues && w'.groups == w.groups
  }

  lemma TaskCallResult(w: World, a: Action)
    requires a.CreateTask? || a.Sleep? || a.Suspend? || a.Resume? || a.WriteRegisters?
    ensures var w' := Apply(w, a);
            && SameObjects(w, w')
            && (match a
                case CreateTask(priority, entry) => w'.k == AddTask(w.k, priority, entry)
                case Sleep(ticks) => w'.k == PutToSleep(w.k, w.k.current, ticks)
                case Suspend(id) => w'.k == SetTaskState(w.k, IndexFromId(w.k.tasks, id), Suspended, NoReason)
                case Resume(id) =>
                  var i := IndexFromId(w.k.tasks, id);
                  w'.k == if i >= 0 && w.k.tasks[i].state == Suspended then SetTaskState(w.k, i, Ready, NoReason)
                          else w.k
                case WriteRegisters(context) => w'.k == w.k.(active := context))
  {
    PerformNone(w.k);
    match a {
      case CreateTask(priority, entry) => PerformOne(w.k, Add(priority, entry));
      case Sleep(ticks) => PerformOne(w.k, Nap(w.k.current, ticks));
      case Suspend(id) => PerformOne(w.k, SetState(IndexFromId(w.k.tasks, id), Suspended, NoReason));
      case Resume(id) => PerformOne(w.k, SetState(IndexFromId(w.k.tasks, id), Ready, NoReason));
      case WriteRegisters(context) => PerformOne(w.k, SetRegisters(context));
    }
    hide PerformAll, AddTask, IndexFromId;
  }

  class System {
    const k: Kernel
    const sems: seq<Semaphore>
    const mutexes: seq<MutexLock>
    const queues: seq<RingQueue>
    const groups: seq<EventFlagGroup>
    ghost const footprint: set<object>
    ghost var w: World

    /** No two objects share storage. */
    ghost predicate Separate() {
      && {k, k.taskList, k.readyQueue, k.softTimers} <= footprint && this !in footprint
      && (forall i :: 0 <= i < |sems| ==> sems[i] in footprint)
      && (forall i :: 0 <= i < |mutexes| ==> mutexes[i] in footprint)
      && (forall i :: 0 <= i < |queues| ==>
            queues[i] in footprint && queues[i].buffer in footprint && queues[i].buffer != k.readyQueue)
      && (forall i :: 0 <= i < |groups| ==> groups[i] in footprint && groups[i].waiters in footprint)
      && Apart(sems) && Apart(mutexes) && Apart(queues) && Apart(groups)
      && BuffersApart(queues) && TablesApart(groups)
    }

    ghost predicate SemsMatch()
      requires Separate()
      reads this, footprint
    {
      |w.sems| == |sems| && forall i :: 0 <= i < |sems| ==> w.sems[i] == sems[i].count
    }

    ghost predicate MutexesMatch()
      requires Separate()
      reads this, footprint
    {
      |w.mutexes| == |mutexes| && forall i :: 0 <= i < |mutexes| ==> w.mutexes[i] == mutexes[i].View()
    }

    ghost predicate QueuesMatch()
      requires Separate()
      reads this, footprint
    {
      && |w.queues| == |queues|
      && forall i :: 0 <= i < |queues| ==> w.queues[i] == queues[i].View() && w.queues[i].InRange()
    }

    ghost predicate GroupsMatch()
      requires Separate()
      reads this, footprint
    {
      |w.groups| == |groups| && forall i :: 0 <= i < |groups| ==> groups[i].Valid() && w.groups[i] == groups[i].View()
    }

    /** The concrete state represents the world w. */
    ghost predicate Valid()
      reads this, footprint
    {
      && Separate()
      && k.Valid() && w.k == k.View()
      && SemsMatch() && MutexesMatch() && QueuesMatch() && GroupsMatch()
    }

    /** An application declares its objects in storage of its own and binds them to a kernel; the history is empty. */
    constructor (k: Kernel, sems: seq<Semaphore>, mutexes: seq<MutexLock>, queues: seq<RingQueue>,
                 groups: seq<EventFlagGroup>, ghost footprint: set<object>)
      requires k.Valid() && {k, k.taskList, k.readyQueue, k.softTimers} <= footprint
      requires forall i :: 0 <= i < |sems| ==> sems[i] in footprint
      requires forall i :: 0 <= i < |mutexes| ==> mutexes[i] in footprint
      requires forall i :: 0 <= i < |queues| ==>
                             && queues[i] in footprint && queues[i].buffer in footprint
                             && queues[i].buffer != k.readyQueue && queues[i].View().InRange()
      requires forall i :: 0 <= i < |groups| ==>
                             groups[i] in footprint && groups[i].waiters in footprint && groups[i].Valid()
      requires Apart(sems) && Apart(mutexes) && Apart(queues) && Apart(groups)
      requires BuffersApart(queues) && TablesApart(groups)
      ensures Valid() && this.k == k && this.sems == sems && this.mutexes == mutexes
      ensures this.queues == queues && this.groups == groups
      ensures w.k == k.View() && w.log == Beginning
    {
      this.k, this.sems, this.mutexes, this.queues, this.groups := k, sems, mutexes, queues, groups;
      this.footprint := footprint;
      this.w := World(
        k.View(), Counts(sems), MutexViews(mutexes), QueueViews(queues), GroupViews(groups), Beginning);
      hide Apart, BuffersApart, TablesApart;
    }

    // -------------------------------------------------------------- API calls

    method SemWait(s: nat)
      requires Valid() && Defined(w, Action.SemWait(s))
      modifies this, footprint
      ensures Valid() && w == Apply(old(w), Action.SemWait(s))
    {
      hide Apply, SetTaskState, PerformAll, BlockCurrent, WakeMostUrgent;
      WaitCall(w, s);
      CurrentBlocks(w.k, OnSemaphore);
      assert forall j :: 0 <= j < |sems| && j != s ==> sems[j] != sems[s];
      hide Apart, BuffersApart, TablesApart;
      var sem := sems[s];
      var ok := sem.Wait(k);
      w := Apply(w, Action.SemWait(s));
      assert SemsMatch() && MutexesMatch();
      assert QueuesMatch() && GroupsMatch();
    }

    method SemSignal(s: nat)
      requires Valid() && Defined(w, Action.SemSignal(s))
      modifies this, footprint
      ensures Valid() && w == Apply(old(w), Action.SemSignal(s))
    {
      hide Apply, SetTaskState, PerformAll, BlockCurrent, WakeMostUrgent;
      SignalCall(w, s);
      assert forall j :: 0 <= j < |sems| && j != s ==> sems[j] != sems[s];
      hide Apart, BuffersApart, TablesApart;
      var sem := sems[s];
      sem.Signal(k);
      w := Apply(w, Action.SemSignal(s));
      assert SemsMatch() && MutexesMatch();
      assert QueuesMatch() && GroupsMatch();
    }

    method Lock(m: nat)
      requires Valid() && Defined(w, Action.Lock(m))
      modifies this, footprint
      ensures Valid() && w == Apply(old(w), Action.Lock(m))
    {
      hide Apply, SetTaskState, PerformAll, BlockCurrent, WakeMostUrgent;
      LockCall(w, m);
      CurrentBlocks(w.k, OnMutex);
      assert forall j :: 0 <= j < |mutexes| && j != m ==> mutexes[j] != mutexes[m];
      hide Apart, BuffersApart, TablesApart;
      var mutex := mutexes[m];
      var ok := mutex.Lock(k);
      w := Apply(w, Action.Lock(m));
      assert SemsMatch() && MutexesMatch();
      assert QueuesMatch() && GroupsMatch();
    }

    method Unlock(m: nat)
      requires Valid() && Defined(w, Action.Unlock(m))
      modifies this, footprint
      ensures Valid() && w == Apply(old(w), Action.Unlock(m))
    {
      hide Apply, SetTaskState, PerformAll, BlockCurrent, WakeMostUrgent;
      UnlockCall(w, m);
      assert forall j :: 0 <= j < |mutexes| && j != m ==> mutexes[j] != mutexes[m];
      hide Apart, BuffersApart, TablesApart;
      var mutex := mutexes[m];
      mutex.Unlock(k);
      w := Apply(w, Action.Unlock(m));
      assert SemsMatch() && MutexesMatch();
      assert QueuesMatch() && GroupsMatch();
    }

    method Send(q: nat, value: int)
      requires Valid() && Defined(w, Action.Send(q, value))
      modifies this, footprint
      ensures Valid() && w == Apply(old(w), Action.Send(q, value))
    {
      hide Apply, SetTaskState, PerformAll, BlockCurrent, WakeMostUrgent;
      SendCall(w, q, value);
      CurrentBlocks(w.k, OnQueueFull);
      assert forall j :: 0 <= j < |queues| && j != q ==> queues[j] != queues[q] && queues[j].buffer != queues[q].buffer;
      hide Apart, BuffersApart, TablesApart;
      var queue := queues[q];
      var ok := queue.Send(k, value);
      w := Apply(w, Action.Send(q, value));
      assert SemsMatch() && MutexesMatch();
      assert QueuesMatch() && GroupsMatch();
    }

    method Receive(q: nat)
      requires Valid() && Defined(w, Action.Receive(q))
      modifies this, footprint
      ensures Valid() && w == Apply(old(w), Action.Receive(q))
    {
      hide Apply, SetTaskState, PerformAll, BlockCurrent, WakeMostUrgent;
      ReceiveCall(w, q);
      CurrentBlocks(w.k, OnQueueEmpty);
      assert forall j :: 0 <= j < |queues| && j != q ==> queues[j] != queues[q] && queues[j].buffer != queues[q].buffer;
      hide Apart, BuffersApart, TablesApart;
      var queue := queues[q];
      var ok, value := queue.Receive(k);
      w := Apply(w, Action.Receive(q));
      assert SemsMatch() && MutexesMatch();
      assert QueuesMatch() && GroupsMatch();
    }

    method EventSet(e: nat, mask: bv32)
      requires Valid() && Defined(w, Action.EventSet(e, mask))
      modifies this, footprint
      ensures Valid() && w == Apply(old(w), Action.EventSet(e, mask))
    {
      hide Apply, SetTaskState, PerformAll, SetFlags, AfterWait, WaitFor, Clear, BlockCurrent;
      SetCall(w, e, mask);
      assert forall j :: 0 <= j < |groups| && j != e ==>
                           groups[j] != groups[e] && groups[j].waiters != groups[e].waiters;
      hide Apart, BuffersApart, TablesApart;
      var group := groups[e];
      group.Set(k, mask);
      w := Apply(w, Action.EventSet(e, mask));
      assert SemsMatch() && MutexesMatch();
      assert QueuesMatch() && GroupsMatch();
    }

    method EventClear(e: nat, mask: bv32)
      requires Valid() && Defined(w, Action.EventClear(e, mask))
      modifies this, footprint
      ensures Valid() && w == Apply(old(w), Action.EventClear(e, mask))
    {
      hide Apply, SetTaskState, PerformAll, SetFlags, AfterWait, WaitFor, Clear, BlockCurrent;
      ClearsBits(w, e, mask);
      assert forall j :: 0 <= j < |groups| && j != e ==>
                           groups[j] != groups[e] && groups[j].waiters != groups[e].waiters;
      hide Apart, BuffersApart, TablesApart;
      var group := groups[e];
      group.ClearFlags(mask);
      w := Apply(w, Action.EventClear(e, mask));
      assert SemsMatch() && MutexesMatch();
      assert QueuesMatch() && GroupsMatch();
    }

    method EventWait(e: nat, mask: bv32)
      requires Valid() && Defined(w, Action.EventWait(e, mask))
      modifies this, footprint
      ensures Valid() && w == Apply(old(w), Action.EventWait(e, mask))
    {
      hide Apply, SetTaskState, PerformAll, SetFlags, AfterWait, WaitFor, Clear, BlockCurrent;
      WaitsOnGroup(w, e, mask);
      WaiterBlocks(w.k);
      assert forall j :: 0 <= j < |groups| && j != e ==>
                           groups[j] != groups[e] && groups[j].waiters != groups[e].waiters;
      hide Apart, BuffersApart, TablesApart;
      var group := groups[e];
      var ok := group.Wait(k, mask);
      w := Apply(w, Action.EventWait(e, mask));
      assert SemsMatch() && MutexesMatch();
      assert QueuesMatch() && GroupsMatch();
    }

    method CreateTask(priority: int, entry: bv32)
      requires Valid()
      modifies this, footprint
      ensures Valid() && w == Apply(old(w), Action.CreateTask(priority, entry))
    {
      hide Apply, SetTaskState, AddTask, PutToSleep, IndexFromId;
      TaskCallResult(w, Action.CreateTask(priority, entry));
      hide Apart, BuffersApart, TablesApart;
      var id := k.CreateTask(priority, entry);
      w := Apply(w, Action.CreateTask(priority, entry));
    }

    method Sleep(ticks: int)
      requires Valid()
      modifies this, footprint
      ensures Valid() && w == Apply(old(w), Action.Sleep(ticks))
    {
      hide Apply, SetTaskState, AddTask, PutToSleep, IndexFromId;
      TaskCallResult(w, Action.Sleep(ticks));
      hide Apart, BuffersApart, TablesApart;
      k.Sleep(ticks);
      w := Apply(w, Action.Sleep(ticks));
    }

    method Suspend(id: int)
      requires Valid()
      modifies this, footprint
      ensures Valid() && w == Apply(old(w), Action.Suspend(id))
    {
      hide Apply, SetTaskState, AddTask, PutToSleep, IndexFromId;
      TaskCallResult(w, Action.Suspend(id));
      hide Apart, BuffersApart, TablesApart;
      var ok := k.Suspend(id);
      w := Apply(w, Action.Suspend(id));
    }

    method Resume(id: int)
      requires Valid()
      modifies this, footprint
      ensures Valid() && w == Apply(old(w), Action.Resume(id))
    {
      hide Apply, SetTaskState, AddTask, PutToSleep, IndexFromId;
      TaskCallResult(w, Action.Resume(id));
      hide Apart, BuffersApart, TablesApart;
      var ok := k.Resume(id);
      w := Apply(w, Action.Resume(id));
    }

    method WriteRegisters(context: CpuContext)
      requires Valid()
      modifies this, footprint
      ensures Valid() && w == Apply(old(w), Action.WriteRegisters(context))
    {
      hide Apply, SetTaskState, AddTask, PutToSleep, IndexFromId;
      TaskCallResult(w, Action.WriteRegisters(context));
      hide Apart, BuffersApart, TablesApart;
      k.active := context;
      w := Apply(w, Action.WriteRegisters(context));
    }

    method TimerCreate(mode: TimerMode, period: nat)
      requires Valid()
      modifies this, footprint
      ensures Valid() && w == Apply(old(w), Action.TimerCreate(mode, period))
    {
      hide Apply, FreeSlot;
      TimerCreateCall(w, mode, period);
      hide Apart, BuffersApart, TablesApart;
      var slot := k.TimerCreate(mode, period);
      w := Apply(w, Action.TimerCreate(mode, period));
    }

    method TimerStart(t: nat)
      requires Valid() && Defined(w, Action.TimerStart(t))
      modifies this, footprint
      ensures Valid() && w == Apply(old(w), Action.TimerStart(t))
    {
      hide Apply;
      TimerCalls(w, t);
      hide Apart, BuffersApart, TablesApart;
      k.TimerStart(t);
      w := Apply(w, Action.TimerStart(t));
    }

    method TimerStop(t: nat)
      requires Valid() && Defined(w, Action.TimerStop(t))
      modifies this, footprint
      ensures Valid() && w == Apply(old(w), Action.TimerStop(t))
    {
      hide Apply;
      TimerCalls(w, t);
      hide Apart, BuffersApart, TablesApart;
      k.TimerStop(t);
      w := Apply(w, Action.TimerStop(t));
    }

    method TimerDelete(t: nat)
      requires Valid() && Defined(w, Action.TimerDelete(t))
      modifies this, footprint
      ensures Valid() && w == Apply(old(w), Action.TimerDelete(t))
    {
      hide Apply;
      TimerCalls(w, t);
      hide Apart, BuffersApart, TablesApart;
      k.TimerDelete(t);
      w := Apply(w, Action.TimerDelete(t));
    }

    /** One call of a script; a call without a defined meaning is skipped. */
    method Execute(a: Action)
      requires Valid()
      modifies this, footprint
      ensures Valid() && w == Apply(old(w), a)
    {
      var hasCurrent := 0 <= k.current < k.taskCount;
      match a {
        case SemWait(s) => if s < |sems| && hasCurrent { SemWait(s); return; }
        case SemSignal(s) => if s < |sems| { SemSignal(s); return; }
        case Lock(m) => if m < |mutexes| && hasCurrent { Lock(m); return; }
        case Unlock(m) => if m < |mutexes| && hasCurrent { Unlock(m); return; }
        case Send(q, value) => if q < |queues| && hasCurrent { Send(q, value); return; }
        case Receive(q) => if q < |queues| && hasCurrent { Receive(q); return; }
        case EventSet(e, mask) => if e < |groups| { EventSet(e, mask); return; }
        case EventClear(e, mask) => if e < |groups| { EventClear(e, mask); return; }
        case EventWait(e, mask) => if e < |groups| { EventWait(e, mask); return; }
        case CreateTask(priority, entry) => CreateTask(priority, entry); return;
        case Sleep(ticks) => Sleep(ticks); return;
        case Suspend(id) => Suspend(id); return;
        case Resume(id) => Resume(id); return;
        case WriteRegisters(context) => WriteRegisters(context); return;
        case TimerCreate(mode, period) => TimerCreate(mode, period); return;
        case TimerStart(t) => if t < k.softTimers.Length { TimerStart(t); return; }
        case TimerStop(t) => if t < k.softTimers.Length { TimerStop(t); return; }
        case TimerDelete(t) => if t < k.softTimers.Length { TimerDelete(t); return; }
      }
      SkippedCall(w, a);
    }

    /** A task function or timer callback. */
    method RunScript(acts: seq<Action>)
      requires Valid()
      modifies this, footprint
      ensures Valid() && w == ApplyAll(old(w), acts)
    {
      ghost var target := ApplyAll(w, acts);
      assert acts[0..] == acts;
      for i := 0 to |acts|
        invariant Valid() && ApplyAll(w, acts[i..]) == target
      {
        assert acts[i..][1..] == acts[i + 1..];
        Execute(acts[i]);
      }
    }

    // -------------------------------------------------------------- the scheduler loop

    method CountTimerSlot(slot: nat) returns (fires: bool)
      requires Valid() && slot < k.softTimers.Length
      modifies this, footprint
      ensures Valid() && slot < |old(w).k.timers| && w == CountSlot(old(w), slot) && fires == Fires(old(w), slot)
    {
      hide Apart, BuffersApart, TablesApart;
      fires := k.CountTimer(slot);
      w := CountSlot(w, slot);
    }

    method RearmTimerSlot(slot: nat)
      requires Valid() && slot < k.softTimers.Length
      modifies this, footprint
      ensures Valid() && slot < |old(w).k.timers| && w == Rearm(old(w), slot)
    {
      hide Apart, BuffersApart, TablesApart;
      k.RearmTimer(slot);
      w := Rearm(w, slot);
    }

    /** `timer_update_soft` */
    method UpdateSoft(callbacks: seq<seq<Action>>)
      requires Valid()
      modifies this, footprint
      ensures Valid() && w == SoftPass(old(w), callbacks, 0)
    {
      hide CountSlot, Rearm, ApplyAll, SemsMatch, MutexesMatch, QueuesMatch, GroupsMatch, Separate;
      ghost var target := SoftPass(w, callbacks, 0);
      for slot := 0 to k.softTimers.Length
        invariant Valid() && SoftPass(w, callbacks, slot) == target
      {
        var callback := CallbackOf(callbacks, slot);
        var fires := CountTimerSlot(slot);
        if fires {
          RunScript(callback);
          RearmTimerSlot(slot);
        }
      }
    }

    method TickAndWake()
      requires Valid()
      modifies this, footprint
      ensures Valid() && w == Wake(old(w))
    {
      hide Apart, BuffersApart, TablesApart, SleepPass;
      k.UpdateSleep();
      w := Wake(w);
    }

    /** The eviction of stale entries and the dispatch. */
    method PeekAndDispatch() returns (idle: bool)
      requires Valid() && Rested(w.k)
      modifies this, footprint
      ensures Valid()
      ensures var d := old(w).(k := Evict(old(w).k));
              InTable(d.k.tasks, d.k.ready) && w == Begin(d) && idle == (Decide(d.k) == Idle)
    {
      hide Apart, BuffersApart, TablesApart, Dispatch, Decide, BestOf, ReadyOnly;
      ghost var d := w.(k := Evict(w.k));
      var best := k.PeekHighestPriority();
      idle := k.DispatchBest(best);
      w := Begin(d);
    }

    method FinishTask()
      requires Valid()
      modifies this, footprint
      ensures Valid() && w == End(old(w))
    {
      hide Apart, BuffersApart, TablesApart, Requeue;
      k.RequeueCurrent();
      w := End(w);
    }

    /** One cycle of `scheduler_run`. */
    method RunCycle(s: TickScript)
      requires Valid() && Rested(w.k)
      modifies this, footprint
      ensures Valid() && w == Cycle(old(w), s) && Rested(w.k)
    {
      CycleRested(w, s);
      AtDecisionRested(w, s.callbacks);
      ghost var target, d := Cycle(w, s), AtDecision(w, s.callbacks);
      TickAndWake();
      UpdateSoft(s.callbacks);
      var idle := PeekAndDispatch();
      assert w == Begin(d);
      if idle {
        return;
      }
      RunScript(s.body);
      FinishTask();
    }

    /** `rtos_run` and `scheduler_run`, for as many ticks as there are scripts. */
    method SchedulerRun(scripts: seq<TickScript>)
      requires Valid() && Rested(w.k)
      modifies this, footprint
      ensures Valid() && Rested(w.k) && w == Run(old(w), AsTicks(scripts))
    {
      hide SemsMatch, MutexesMatch, QueuesMatch, GroupsMatch, Separate, Rested, Cycle;
      ghost var target := Run(w, AsTicks(scripts));
      assert scripts[0..] == scripts;
      for tick := 0 to |scripts|
        invariant Valid() && Rested(w.k) && Run(w, AsTicks(scripts[tick..])) == target
      {
        assert scripts[tick..][1..] == scripts[tick + 1..];
        assert AsTicks(scripts[tick..])[1..] == AsTicks(scripts[tick + 1..]);
        RunCycle(scripts[tick]);
      }
    }
  }

  // ---------------------------------------------------------------- start-up

  method NewSemaphores(counts: seq<int>) returns (sems: seq<Semaphore>)
    ensures |sems| == |counts| && Apart(sems)
    ensures forall i :: 0 <= i < |sems| ==> fresh(sems[i]) && sems[i].count == counts[i]
  {
    sems := [];
    for n := 0 to |counts|
      invariant |sems| == n && Apart(sems)
      invariant forall i :: 0 <= i < n ==> fresh(sems[i]) && sems[i].count == counts[i]
    {
      var sem := new Semaphore(counts[n]);
      sems := sems + [sem];
    }
  }

  method NewMutexes(number: nat) returns (mutexes: seq<MutexLock>)
    ensures |mutexes| == number && Apart(mutexes)
    ensures forall i :: 0 <= i < number ==> fresh(mutexes[i]) && mutexes[i].View() == FREE_MUTEX
  {
    mutexes := [];
    for n := 0 to number
      invariant |mutexes| == n && Apart(mutexes)
      invariant forall i :: 0 <= i < n ==> fresh(mutexes[i]) && mutexes[i].View() == FREE_MUTEX
    {
      var mutex := new MutexLock();
      mutexes := mutexes + [mutex];
    }
  }

  ghost predicate IsEmpty(mq: MessageQueue) {
    mq.buffer != [] && mq.front == 0 && mq.rear == 0 && mq.count == 0
  }

  method NewQueues(sizes: seq<nat>) returns (queues: seq<RingQueue>)
    requires forall i :: 0 <= i < |sizes| ==> sizes[i] > 0
    ensures |queues| == |sizes| && Apart(queues) && BuffersApart(queues)
    ensures forall i :: 0 <= i < |queues| ==>
                          && fresh(queues[i]) && fresh(queues[i].buffer) && queues[i].buffer.Length == sizes[i]
                          && IsEmpty(queues[i].View())
  {
    queues := [];
    for n := 0 to |sizes|
      invariant |queues| == n && Apart(queues) && BuffersApart(queues)
      invariant forall i :: 0 <= i < n ==>
                              && fresh(queues[i]) && fresh(queues[i].buffer) && queues[i].buffer.Length == sizes[i]
                              && IsEmpty(queues[i].View())
    {
      var queue := new RingQueue(sizes[n]);
      queues := queues + [queue];
    }
  }

  method NewGroups(capacities: seq<nat>) returns (groups: seq<EventFlagGroup>)
    ensures |groups| == |capacities| && Apart(groups) && TablesApart(groups)
    ensures forall i :: 0 <= i < |groups| ==>
                          && fresh(groups[i]) && fresh(groups[i].waiters) && groups[i].Valid()
                          && groups[i].View() == EventGroup(capacities[i], 0, [])
  {
    groups := [];
    for n := 0 to |capacities|
      invariant |groups| == n && Apart(groups) && TablesApart(groups)
      invariant forall i :: 0 <= i < n ==>
                              && fresh(groups[i]) && fresh(groups[i].waiters) && groups[i].Valid()
                              && groups[i].View() == EventGroup(capacities[i], 0, [])
    {
      var group := new EventFlagGroup(capacities[n]);
      groups := groups + [group];
    }
  }

  /** Binds the objects of an application to a kernel. */
  method Assemble(k: Kernel, sems: seq<Semaphore>, mutexes: seq<MutexLock>, queues: seq<RingQueue>,
                  groups: seq<EventFlagGroup>) returns (s: System)
    requires k.Valid() && Apart(sems) && Apart(mutexes) && Apart(queues) && Apart(groups)
    requires BuffersApart(queues) && TablesApart(groups)
    requires forall i :: 0 <= i < |queues| ==> queues[i].buffer != k.readyQueue && IsEmpty(queues[i].View())
    requires forall i :: 0 <= i < |groups| ==> groups[i].Valid()
    ensures fresh(s) && s.Valid() && s.w.k == k.View() && s.w.log == Beginning
    ensures s.sems == sems && s.mutexes == mutexes && s.queues == queues && s.groups == groups
  {
    ghost var footprint: set<object> := {k, k.taskList, k.readyQueue, k.softTimers}
    + (set i | 0 <= i < |sems| :: sems[i]) + (set i | 0 <= i < |mutexes| :: mutexes[i])
    + (set i | 0 <= i < |queues| :: queues[i]) + (set i | 0 <= i < |queues| :: queues[i].buffer)
    + (set i | 0 <= i < |groups| :: groups[i]) + (set i | 0 <= i < |groups| :: groups[i].waiters);
    s := new System(k, sems, mutexes, queues, groups, footprint);
  }

  /** `rtos_init` and the initialisation of an application's objects: the world it starts in is an initial one. */
  method Boot(cfg: Config, timerCount: nat, counts: seq<int>, mutexCount: nat, sizes: seq<nat>, capacities: seq<nat>)
    returns (s: System)
    requires forall i :: 0 <= i < |sizes| ==> sizes[i] > 0
    ensures fresh(s) && s.Valid() && Initial(s.w) && Rested(s.w.k)
    ensures s.w.k.cfg == cfg && |s.w.k.timers| == timerCount && s.w.sems == counts
    ensures |s.w.mutexes| == mutexCount && |s.w.queues| == |sizes| && |s.w.groups| == |capacities|
  {
    hide Apart, BuffersApart, TablesApart, Rested;
    var k := new Kernel(cfg, timerCount);
    var sems := NewSemaphores(counts);
    var mutexes := NewMutexes(mutexCount);
    var queues := NewQueues(sizes);
    var groups := NewGroups(capacities);
    s := Assemble(k, sems, mutexes, queues, groups);
    InitialIsRested(s.w);
  }
}
