/** The values the kernel stores: task control blocks, timer control blocks and register files. */
module KernelTypes {

  datatype TaskState = Ready | Running | Blocked | Suspended

  datatype BlockReason = NoReason | OnSleep | OnSemaphore | OnMutex | OnQueueEmpty | OnQueueFull | OnEvent

  /** The simulated register file; `general` holds R0 to R12. */
  datatype CpuContext = CpuContext(general: seq<bv32>, lr: bv32, pc: bv32, xpsr: bv32)

  const INITIAL_LR: bv32 := 0xFFFF_FFFD
  const INITIAL_XPSR: bv32 := 0x0100_0000

  /** What `context_init` leaves in a new task's context. */
  function InitialContext(entry: bv32): CpuContext {
    CpuContext(seq(13, _ => 0), INITIAL_LR, entry, INITIAL_XPSR)
  }

  /** A task control block without its stack and name. */
  datatype Tcb = Tcb(
    id: int, priority: int, state: TaskState, reason: BlockReason, sleep: int, slice: nat, context: CpuContext)

  datatype TimerMode = OneShot | Periodic

  datatype SoftTimer = SoftTimer(mode: TimerMode, period: nat, remaining: nat, active: bool, inUse: bool)

  /** A zeroed timer slot, as `timer_init` leaves it. */
  const FREE_TIMER := SoftTimer(OneShot, 0, 0, false, false)

  /** The compile-time sizes: RTOS_MAX_TASKS and RTOS_TIME_SLICE_TICKS. */
  datatype Config = Config(maxTasks: nat, sliceTicks: nat)
}
