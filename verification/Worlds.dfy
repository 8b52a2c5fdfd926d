/**
 * The whole simulated system as a value: the kernel, the blocking objects an application declared, and a history
 * of what happened. C function pointers become scripts: a task body or timer callback is any finite sequence of
 * API calls, chosen afresh for every tick.
 */
module Worlds {
  import opened KernelTypes
  import opened ReadyQueues
  import opened KernelStates
  import opened EventScan

  datatype Mutex = Mutex(locked: bool, owner: int)

  const FREE_MUTEX := Mutex(false, -1)

  datatype MessageQueue = MessageQueue(buffer: seq<int>, front: int, rear: int, count: int)
  {
    /** What the ring buffer needs of its indices; `queue_init` establishes it for a non-empty buffer. */
    predicate InRange() {
      0 <= front < |buffer| && 0 <= rear < |buffer| && 0 <= count <= |buffer|
    }
  }

  // ---------------------------------------------------------------- history

  /** Task indices, object indices and the values that passed; `woken` is -1 when nobody was waiting. */
  datatype Event =
    | Created(task: int, context: CpuContext)
    | Took(sem: nat, task: int)
    | Waited(sem: nat, task: int)
    | Signalled(sem: nat, woken: int)
    | Locked(mutex: nat, task: int)
    | Refused(mutex: nat, task: int)
    | Unlocked(mutex: nat, task: int, woken: int)
    | Sent(queue: nat, task: int, value: int, woken: int)
    | SendRefused(queue: nat, task: int)
    | Received(queue: nat, task: int, value: int, woken: int)
    | ReceiveRefused(queue: nat, task: int)
    | Fired(timer: nat)
    | Started(task: int, context: CpuContext)
    | Finished(task: int, context: CpuContext)
    | Idled

  datatype History = Beginning | Then(past: History, event: Event)

  datatype World = World(
    k: KernelState, sems: seq<int>, mutexes: seq<Mutex>, queues: seq<MessageQueue>, groups: seq<EventGroup>,
    log: History)
  {
    function Log(e: Event): World {
      this.(log := Then(log, e))
    }
  }

  // ---------------------------------------------------------------- API calls

  datatype Action =
    | CreateTask(priority: int, entry: bv32)
    | Sleep(ticks: int)
    | Suspend(id: int)
    | Resume(id: int)
    | SemWait(sem: nat)
    | SemSignal(sem: nat)
    | Lock(mutex: nat)
    | Unlock(mutex: nat)
    | Send(queue: nat, value: int)
    | Receive(queue: nat)
    | EventSet(group: nat, mask: bv32)
    | EventClear(group: nat, mask: bv32)
    | EventWait(group: nat, mask: bv32)
    | TimerCreate(mode: TimerMode, period: nat)
    | TimerStart(timer: nat)
    | TimerStop(timer: nat)
    | TimerDelete(timer: nat)
    | WriteRegisters(context: CpuContext)

  /**
   * A call the C code gives a meaning to. A call on an object that does not exist, or one that dereferences the
   * current task when there is none, has no defined effect; a script that contains one skips it.
   */
  predicate Defined(w: World, a: Action) {
    match a
    case SemWait(s) => s < |w.sems| && w.k.HasCurrent()
    case SemSignal(s) => s < |w.sems|
    case Lock(m) => m < |w.mutexes| && w.k.HasCurrent()
    case Unlock(m) => m < |w.mutexes| && w.k.HasCurrent()
    case Send(q, _) => q < |w.queues| && w.k.HasCurrent() && w.queues[q].InRange()
    case Receive(q) => q < |w.queues| && w.k.HasCurrent() && w.queues[q].InRange()
    case EventSet(e, _) => e < |w.groups|
    case EventClear(e, _) => e < |w.groups|
    case EventWait(e, _) => e < |w.groups|
    case TimerStart(t) => t < |w.k.timers|
    case TimerStop(t) => t < |w.k.timers|
    case TimerDelete(t) => t < |w.k.timers|
    case _ => true
  }

  /** What a call does to the kernel, as a list of elementary transitions. */
  datatype Effect =
    | SetState(task: int, state: TaskState, reason: BlockReason)
    | Nap(task: int, ticks: int)
    | Add(priority: int, entry: bv32)
    | SetTimer(slot: nat, timer: SoftTimer)
    | SetRegisters(context: CpuContext)

  function Perform(k: KernelState, e: Effect): KernelState {
    match e
    case SetState(i, state, reason) => SetTaskState(k, i, state, reason)
    case Nap(i, ticks) => PutToSleep(k, i, ticks)
    case Add(priority, entry) => AddTask(k, priority, entry)
    case SetTimer(slot, timer) => if slot < |k.timers| then k.(timers := k.timers[slot := timer]) else k
    case SetRegisters(context) => k.(active := context)
  }

  function PerformAll(k: KernelState, es: seq<Effect>): KernelState
    decreases |es|
  {
    if es == [] then k else PerformAll(Perform(k, es[0]), es[1..])
  }

  lemma PerformNone(k: KernelState)
    ensures PerformAll(k, []) == k
  {
  }

  lemma PerformOne(k: KernelState, e: Effect)
    ensures PerformAll(k, [e]) == Perform(k, e)
  {
  }

  /** `scheduler_unblock_one`. */
  function WakeOne(k: KernelState, reason: BlockReason): seq<Effect> {
    var b := Waiter(k.tasks, reason, |k.tasks|);
    if b < 0 then [] else [SetState(b, Ready, NoReason)]
  }

  /** The kernel after it: the most urgent task blocked for the reason is READY. */
  function WakeMostUrgent(k: KernelState, reason: BlockReason): KernelState {
    var b := Waiter(k.tasks, reason, |k.tasks|);
    if b < 0 then k else SetTaskState(k, b, Ready, NoReason)
  }

  lemma WakesMostUrgent(k: KernelState, reason: BlockReason)
    ensures PerformAll(k, WakeOne(k, reason)) == WakeMostUrgent(k, reason)
  {
    var b := Waiter(k.tasks, reason, |k.tasks|);
    hide SetTaskState, PerformAll, Waiter;
    PerformNone(k);
    PerformOne(k, SetState(b, Ready, NoReason));
  }

  /** The first free timer slot from i on, or -1. */
  function FreeSlot(timers: seq<SoftTimer>, i: nat): (s: int)
    requires i <= |timers|
    ensures s == -1 || i <= s < |timers|
    ensures s == -1 <==> forall j :: i <= j < |timers| ==> timers[j].inUse
    ensures s >= 0 ==> !timers[s].inUse && forall j :: i <= j < s ==> timers[j].inUse
    decreases |timers| - i
  {
    if i == |timers| then -1 else if !timers[i].inUse then i else FreeSlot(timers, i + 1)
  }

  function WakeAll(woken: seq<EventWaiter>): (es: seq<Effect>)
    ensures |es| == |woken|
    ensures forall j :: 0 <= j < |es| ==> es[j] == SetState(woken[j].task, Ready, NoReason)
  {
    seq(|woken|, i requires 0 <= i < |woken| => SetState(woken[i].task, Ready, NoReason))
  }

  function Effects(w: World, a: Action): seq<Effect> {
    var k := w.k;
    if !Defined(w, a) then [] else
    match a
    case CreateTask(priority, entry) => [Add(priority, entry)]
    case Sleep(ticks) => if k.HasCurrent() then [Nap(k.current, ticks)] else []
    case Suspend(id) =>
      var i := IndexFromId(k.tasks, id);
      if i < 0 then [] else [SetState(i, Suspended, NoReason)]
    case Resume(id) =>
      var i := IndexFromId(k.tasks, id);
      if i < 0 || k.tasks[i].state != Suspended then [] else [SetState(i, Ready, NoReason)]
    case SemWait(s) => if w.sems[s] > 0 then [] else [SetState(k.current, Blocked, OnSemaphore)]
    case SemSignal(s) => WakeOne(k, OnSemaphore)
    case Lock(m) =>
      if !w.mutexes[m].locked || w.mutexes[m].owner == k.tasks[k.current].id then []
      else [SetState(k.current, Blocked, OnMutex)]
    case Unlock(m) =>
      if !w.mutexes[m].locked || w.mutexes[m].owner != k.tasks[k.current].id then [] else WakeOne(k, OnMutex)
    case Send(q, _) =>
      if w.queues[q].count == |w.queues[q].buffer| then [SetState(k.current, Blocked, OnQueueFull)]
      else WakeOne(k, OnQueueEmpty)
    case Receive(q) =>
      if w.queues[q].count == 0 then [SetState(k.current, Blocked, OnQueueEmpty)] else WakeOne(k, OnQueueFull)
    case EventSet(e, mask) => WakeAll(SetFlags(w.groups[e], mask).woken)
    case EventClear(e, mask) => []
    case EventWait(e, mask) =>
      if WaitFor(w.groups[e], mask) == MustBlock then [SetState(k.current, Blocked, OnEvent)] else []
    case TimerCreate(mode, period) =>
      var slot := FreeSlot(k.timers, 0);
      if period == 0 || slot < 0 then [] else [SetTimer(slot, SoftTimer(mode, period, period, false, true))]
    case TimerStart(t) =>
      if !k.timers[t].inUse then []
      else [SetTimer(t, k.timers[t].(remaining := k.timers[t].period, active := true))]
    case TimerStop(t) => if !k.timers[t].inUse then [] else [SetTimer(t, k.timers[t].(active := false))]
    case TimerDelete(t) =>
      if !k.timers[t].inUse then [] else [SetTimer(t, k.timers[t].(active := false, inUse := false))]
    case WriteRegisters(context) => [SetRegisters(context)]
  }

  /** What a call does to the blocking objects, and the event it leaves. */
  function Objects(w: World, a: Action): World {
    var k := w.k;
    if !Defined(w, a) then w else
    match a
    case CreateTask(priority, entry) =>
      if |k.tasks| >= k.cfg.maxTasks then w else w.Log(Created(|k.tasks|, InitialContext(entry)))
    case SemWait(s) =>
      if w.sems[s] > 0 then w.(sems := w.sems[s := w.sems[s] - 1]).Log(Took(s, k.current))
      else w.Log(Waited(s, k.current))
    case SemSignal(s) =>
      w.(sems := w.sems[s := w.sems[s] + 1]).Log(Signalled(s, Waiter(k.tasks, OnSemaphore, |k.tasks|)))
    case Lock(m) =>
      if !w.mutexes[m].locked then
        w.(mutexes := w.mutexes[m := Mutex(true, k.tasks[k.current].id)]).Log(Locked(m, k.current))
      else if w.mutexes[m].owner == k.tasks[k.current].id then w.Log(Locked(m, k.current))
      else w.Log(Refused(m, k.current))
    case Unlock(m) =>
      if !w.mutexes[m].locked || w.mutexes[m].owner != k.tasks[k.current].id then w
      else
        w.(mutexes := w.mutexes[m := FREE_MUTEX]).Log(
          Unlocked(m, k.current, Waiter(k.tasks, OnMutex, |k.tasks|)))
    case Send(q, value) =>
      var mq := w.queues[q];
      if mq.count == |mq.buffer| then w.Log(SendRefused(q, k.current))
      else
        var mq' := MessageQueue(mq.buffer[mq.rear := value], mq.front, (mq.rear + 1) % |mq.buffer|, mq.count + 1);
        w.(queues := w.queues[q := mq']).Log(
          Sent(q, k.current, value, Waiter(k.tasks, OnQueueEmpty, |k.tasks|)))
    case Receive(q) =>
      var mq := w.queues[q];
      if mq.count == 0 then w.Log(ReceiveRefused(q, k.current))
      else
        var mq' := mq.(front := (mq.front + 1) % |mq.buffer|, count := mq.count - 1);
        w.(queues := w.queues[q := mq']).Log(
          Received(q, k.current, mq.buffer[mq.front], Waiter(k.tasks, OnQueueFull, |k.tasks|)))
    case EventSet(e, mask) =>
      var r := SetFlags(w.groups[e], mask);
      w.(groups := w.groups[e := w.groups[e].(flags := r.flags, waiters := r.waiters)])
    case EventClear(e, mask) =>
      w.(groups := w.groups[e := w.groups[e].(flags := Clear(w.groups[e].flags, mask))])
    case EventWait(e, mask) =>
      w.(groups := w.groups[e := AfterWait(w.groups[e], mask, k.current)])
    case _ => w
  }

  /** One API call. */
  function Apply(w: World, a: Action): World {
    Objects(w, a).(k := PerformAll(w.k, Effects(w, a)))
  }

  function ApplyAll(w: World, acts: seq<Action>): World
    decreases |acts|
  {
    if acts == [] then w else ApplyAll(Apply(w, acts[0]), acts[1..])
  }

  // ---------------------------------------------------------------- a scheduler cycle

  /** What the timer callbacks (by slot) and the task that gets the CPU do in one tick. */
  datatype TickScript = TickScript(callbacks: seq<seq<Action>>, body: seq<Action>)

  function CallbackOf(callbacks: seq<seq<Action>>, slot: nat): seq<Action> {
    if slot < |callbacks| then callbacks[slot] else []
  }

  function WithTimer(w: World, slot: nat, t: SoftTimer): World
    requires slot < |w.k.timers|
  {
    w.(k := w.k.(timers := w.k.timers[slot := t]))
  }

  lemma {:induction false} PerformAllFrame(k: KernelState, es: seq<Effect>)
    ensures var k' := PerformAll(k, es);
            && k'.cfg == k.cfg
            && k'.current == k.current
            && k'.tick == k.tick
            && |k'.timers| == |k.timers|
            && |k'.tasks| >= |k.tasks|
    decreases |es|
  {
    if es != [] {
      PerformAllFrame(Perform(k, es[0]), es[1..]);
    }
  }

  lemma {:induction false} ApplyAllFrame(w: World, acts: seq<Action>)
    ensures var w' := ApplyAll(w, acts);
            && w'.k.cfg == w.k.cfg
            && w'.k.current == w.k.current
            && w'.k.tick == w.k.tick
            && |w'.k.timers| == |w.k.timers|
            && |w'.k.tasks| >= |w.k.tasks|
    decreases |acts|
  {
    if acts != [] {
      PerformAllFrame(w.k, Effects(w, acts[0]));
      ApplyAllFrame(Apply(w, acts[0]), acts[1..]);
    }
  }

  /** One slot of `timer_update_soft` up to the call of its callback. */
  function CountSlot(w: World, slot: nat): World
    requires slot < |w.k.timers|
  {
    var t := w.k.timers[slot];
    if !t.inUse || !t.active then w else
      var left := if t.remaining > 0 then t.remaining - 1 else 0;
      var w' := WithTimer(w, slot, t.(remaining := left));
      if left == 0 then w'.Log(Fired(slot)) else w'
  }

  predicate Fires(w: World, slot: nat)
    requires slot < |w.k.timers|
  {
    w.k.timers[slot].inUse && w.k.timers[slot].active && w.k.timers[slot].remaining <= 1
  }

  /** After the callback: reload or disarm whatever the slot now holds. */
  function Rearm(w: World, slot: nat): World
    requires slot < |w.k.timers|
  {
    var t := w.k.timers[slot];
    WithTimer(w, slot, if t.mode == Periodic then t.(remaining := t.period) else t.(active := false))
  }

  /** One iteration of `timer_update_soft`. */
  function SoftSlot(w: World, callback: seq<Action>, slot: nat): (w': World)
    requires slot < |w.k.timers|
    ensures |w'.k.timers| == |w.k.timers|
  {
    if Fires(w, slot) then
      ApplyAllFrame(CountSlot(w, slot), callback);
      Rearm(ApplyAll(CountSlot(w, slot), callback), slot)
    else CountSlot(w, slot)
  }

  /** `timer_update_soft` from the given slot on. */
  function SoftPass(w: World, callbacks: seq<seq<Action>>, slot: nat): (w': World)
    ensures |w'.k.timers| == |w.k.timers|
    decreases |w.k.timers| - slot
  {
    if slot >= |w.k.timers| then w
    else SoftPass(SoftSlot(w, CallbackOf(callbacks, slot), slot), callbacks, slot + 1)
  }

  /** `timer_tick` and the sleep loop of `timer_update_sleep`. */
  function Wake(w: World): World {
    w.(k := SleepPass(w.k.(tick := w.k.tick + 1), 0))
  }

  /** `timer_tick`, `timer_update_sleep` and the eviction of stale queue entries: the state the decision is made in. */
  function AtDecision(w: World, callbacks: seq<seq<Action>>): (w': World)
    ensures InTable(w'.k.tasks, w'.k.ready)
  {
    var w1 := SoftPass(Wake(w), callbacks, 0);
    w1.(k := Evict(w1.k))
  }

  /** The dispatch, from the decision to the call of the task function. */
  function Begin(w: World): World
    requires InTable(w.k.tasks, w.k.ready)
  {
    var k := Dispatch(w.k);
    w.(k := k).Log(if Decide(w.k) == Idle then Idled else Started(k.current, k.active))
  }

  /** A task that is still RUNNING when its function returns is READY again. */
  function End(w: World): World {
    w.(k := Requeue(w.k)).Log(Finished(w.k.current, w.k.active))
  }

  /** One cycle of `scheduler_run`. */
  function Cycle(w: World, s: TickScript): World {
    var d := AtDecision(w, s.callbacks);
    if Decide(d.k) == Idle then Begin(d) else End(ApplyAll(Begin(d), s.body))
  }

  // ---------------------------------------------------------------- runs

  /** A scheduler cycle, or an API call made by the program between calls of `rtos_run`. */
  datatype Step = Tick(script: TickScript) | Call(action: Action)

  function Do(w: World, s: Step): World {
    match s
    case Tick(script) => Cycle(w, script)
    case Call(a) => Apply(w, a)
  }

  function Run(w: World, steps: seq<Step>): World
    decreases |steps|
  {
    if steps == [] then w else Run(Do(w, steps[0]), steps[1..])
  }

  /** The cycles of one `rtos_run`. */
  function AsTicks(scripts: seq<TickScript>): seq<Step>
    decreases |scripts|
  {
    if scripts == [] then [] else [Tick(scripts[0])] + AsTicks(scripts[1..])
  }

  /** `rtos_init` together with freshly initialised objects. */
  ghost predicate Initial(w: World) {
    && w.k.tasks == [] && w.k.ready == [] && w.k.current == -1 && w.k.tick == 0
    && (forall i :: 0 <= i < |w.k.timers| ==> w.k.timers[i] == FREE_TIMER)
    && (forall i :: 0 <= i < |w.mutexes| ==> w.mutexes[i] == FREE_MUTEX)
    && (forall i :: 0 <= i < |w.queues| ==>
                      && w.queues[i].buffer != []
                      && w.queues[i].front == 0 && w.queues[i].rear == 0 && w.queues[i].count == 0)
    && (forall i :: 0 <= i < |w.groups| ==> w.groups[i].flags == 0 && w.groups[i].waiters == [])
    && w.log == Beginning
  }
}
