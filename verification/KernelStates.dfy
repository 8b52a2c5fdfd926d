/** The kernel's state as a value, and the state transformers of scheduler.c, timer.c and context.c. */
module KernelStates {
  import opened KernelTypes
  import opened Sequences
  import opened ReadyQueues

  /** `current` is -1 until the first task runs; `active` is the one shared register file. */
  datatype KernelState = KernelState(
    cfg: Config, tasks: seq<Tcb>, ready: seq<int>, current: int, tick: nat, timers: seq<SoftTimer>, active: CpuContext)
  {
    predicate HasCurrent() {
      0 <= current < |tasks|
    }
  }

  // ---------------------------------------------------------------- task states

  /** `ready_queue_enqueue`, with its capacity and duplicate guards. */
  function Enqueue(k: KernelState, i: int): KernelState {
    if !IsReady(k.tasks, i) || |k.ready| >= k.cfg.maxTasks || i in k.ready then k
    else k.(ready := k.ready + [i])
  }

  /** `scheduler_set_task_state`; an index outside the table is ignored. */
  function SetTaskState(k: KernelState, i: int, state: TaskState, reason: BlockReason): (k': KernelState)
    ensures |k'.tasks| == |k.tasks|
    ensures k' == k.(tasks := k'.tasks, ready := k'.ready)
  {
    if !(0 <= i < |k.tasks|) then k else
      var t := k.tasks[i].(state := state, reason := reason);
      if state != Ready then
        k.(tasks := k.tasks[i := t], ready := Remove(k.ready, i))
      else
        Enqueue(k.(tasks := k.tasks[i := t.(sleep := 0, reason := NoReason)], ready := Remove(k.ready, i)), i)
  }

  predicate WaitsFor(t: Tcb, reason: BlockReason) {
    t.state == Blocked && t.reason == reason
  }

  /** The scan of `scheduler_unblock_one` over the first n tasks: the waiter it would wake, or -1. */
  function Waiter(tasks: seq<Tcb>, reason: BlockReason, n: nat): (b: int)
    requires n <= |tasks|
    ensures -1 <= b < n
    ensures b == -1 <==> forall i :: 0 <= i < n ==> !WaitsFor(tasks[i], reason)
    ensures b >= 0 ==> WaitsFor(tasks[b], reason)
    ensures b >= 0 ==> forall i :: 0 <= i < n && WaitsFor(tasks[i], reason) ==>
                                     tasks[i].priority < tasks[b].priority
                                     || (tasks[i].priority == tasks[b].priority && b <= i)
  {
    if n == 0 then -1 else
      var b := Waiter(tasks, reason, n - 1);
      if WaitsFor(tasks[n - 1], reason) && (b < 0 || tasks[n - 1].priority > tasks[b].priority) then n - 1 else b
  }

  /** `task_index_from_id`: the first entry with the id, or -1. */
  function IndexFromId(tasks: seq<Tcb>, id: int): (i: int)
    ensures -1 <= i < |tasks|
    ensures i == -1 <==> forall j :: 0 <= j < |tasks| ==> tasks[j].id != id
    ensures i >= 0 ==> tasks[i].id == id
  {
    if tasks == [] then -1 else
      var n := |tasks| - 1;
      var i := IndexFromId(tasks[..n], id);
      if i >= 0 then assert tasks[..n][i] == tasks[i]; i else
        assert forall j :: 0 <= j < n ==> tasks[..n][j] == tasks[j];
        if tasks[n].id == id then n else -1
  }

  function NewTcb(id: int, priority: int, entry: bv32): Tcb {
    Tcb(id, priority, Suspended, NoReason, 0, 0, InitialContext(entry))
  }

  /** `rtos_create_task`; a full table refuses. */
  function AddTask(k: KernelState, priority: int, entry: bv32): KernelState {
    var n := |k.tasks|;
    if n >= k.cfg.maxTasks then k
    else SetTaskState(k.(tasks := k.tasks + [NewTcb(n + 1, priority, entry)]), n, Ready, NoReason)
  }

  /** `rtos_task_sleep` for task i. */
  function PutToSleep(k: KernelState, i: int, ticks: int): KernelState {
    if !(0 <= i < |k.tasks|) then k
    else SetTaskState(k.(tasks := k.tasks[i := k.tasks[i].(sleep := ticks)]), i, Blocked, OnSleep)
  }

  // ---------------------------------------------------------------- the tick

  /** One iteration of the loop of `timer_update_sleep`. */
  function CountDown(k: KernelState, i: nat): (k': KernelState)
    requires i < |k.tasks|
    ensures |k'.tasks| == |k.tasks|
  {
    if !WaitsFor(k.tasks[i], OnSleep) then k else
      var left := k.tasks[i].sleep - 1;
      var k1 := k.(tasks := k.tasks[i := k.tasks[i].(sleep := left)]);
      if left <= 0 then SetTaskState(k1, i, Ready, NoReason) else k1
  }

  /** The sleep loop from task i on. */
  function SleepPass(k: KernelState, i: nat): (k': KernelState)
    ensures |k'.tasks| == |k.tasks|
    decreases |k.tasks| - i
  {
    if i >= |k.tasks| then k else SleepPass(CountDown(k, i), i + 1)
  }

  // ---------------------------------------------------------------- the decision

  /** What one scheduler cycle does with the CPU. */
  datatype Decision =
    | Idle
    | Switch(next: int, requeue: bool)
    | Continue

  /** The queue after `ready_queue_peek_highest_priority` evicted its stale entries. */
  function Evict(k: KernelState): KernelState {
    k.(ready := ReadyOnly(k.tasks, k.ready))
  }

  /** The case analysis of `scheduler_run` on a queue without stale entries. */
  function Decide(k: KernelState): Decision
    requires InTable(k.tasks, k.ready)
  {
    var best := BestOf(k.tasks, k.ready);
    if best < 0 then Idle
    else if !k.HasCurrent() then Switch(best, false)
    else
      var c := k.tasks[k.current];
      var p := k.tasks[best].priority;
      if c.state != Running && c.state != Ready then Switch(best, false)
      else if p > c.priority then Switch(best, true)
      else if p == c.priority && c.slice >= k.cfg.sliceTicks && best != k.current then Switch(best, true)
      else Continue
  }

  /** `context_switch` from the current task, if any, to task i. */
  function LoadContext(k: KernelState, i: nat): KernelState
    requires i < |k.tasks|
  {
    var saved := if k.HasCurrent() then k.tasks[k.current := k.tasks[k.current].(context := k.active)] else k.tasks;
    k.(tasks := saved, active := saved[i].context)
  }

  /** `ready_queue_pop` and `do_context_switch` up to the call of the task function. */
  function SwitchTo(k: KernelState, i: nat): KernelState
    requires i < |k.tasks|
  {
    var k1 := LoadContext(k.(ready := Remove(k.ready, i)), i);
    var k2 := k1.(current := i, tasks := k1.tasks[i := k1.tasks[i].(slice := 1)]);
    SetTaskState(k2, i, Running, NoReason)
  }

  /** The preempted task goes back to the queue if it is still RUNNING. */
  function Requeue(k: KernelState): KernelState {
    if k.HasCurrent() && k.tasks[k.current].state == Running then SetTaskState(k, k.current, Ready, NoReason) else k
  }

  /** The kernel when the chosen task's function is called, or after an idle tick. */
  function Dispatch(k: KernelState): (k': KernelState)
    requires InTable(k.tasks, k.ready)
    ensures k'.current == match Decide(k) { case Switch(next, _) => next case _ => k.current }
  {
    match Decide(k)
    case Idle =>
      if k.HasCurrent() then k.(tasks := k.tasks[k.current := k.tasks[k.current].(slice := 0)]) else k
    case Switch(next, requeue) =>
      SwitchTo(if requeue then Requeue(k) else k, next)
    case Continue =>
      var c := k.tasks[k.current];
      SetTaskState(k.(tasks := k.tasks[k.current := c.(slice := c.slice + 1)]), k.current, Running, NoReason)
  }
}
