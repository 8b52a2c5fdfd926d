/** When the first task in the queue does not get the CPU, and what an idle tick does to the time slice. */
module FreshSlices {
  import opened KernelTypes
  import opened Sequences
  import opened ReadyQueues
  import opened KernelStates
  import opened Worlds
  import opened RunInduction
  import opened Scheduling
  import opened BoundedWaiting

  /**
   * The current task keeps the CPU from the task chosen by the queue exactly when it is READY, of the same priority,
   * and has used fewer ticks than a slice holds.
   */
  lemma FirstInQueueRunsIff(k: KernelState)
    requires Rested(k) && Decide(k) != Idle
    ensures var best := BestOf(k.tasks, k.ready);
            && 0 <= best < |k.tasks|
            && (Dispatch(k).current != best <==>
                && k.current != best && k.HasCurrent() && k.tasks[k.current].state == Ready
                && k.tasks[k.current].priority == k.tasks[best].priority
                && k.tasks[k.current].slice < k.cfg.sliceTicks)
  {
    var p := BestIsFirstMaximum(k.tasks, k.ready);
    assert k.ready[p] in k.ready;
    if k.HasCurrent() && k.tasks[k.current].state == Ready {
      assert k.current in k.ready;
    }
    hide BestOf, SwitchTo, SetTaskState, Distinct;
  }

  /** Under the given sizes, `current` is the current task and task c has used n ticks of its slice. */
  ghost predicate Used(k: KernelState, cfg: Config, current: int, c: int, n: nat) {
    k.cfg == cfg && k.current == current && 0 <= c < |k.tasks| && k.tasks[c].slice == n
  }

  lemma SetStateKeepsUsed(
      k: KernelState, i: int, state: TaskState, reason: BlockReason, cfg: Config, current: int, c: int, n: nat)
    requires Used(k, cfg, current, c, n)
    ensures Used(SetTaskState(k, i, state, reason), cfg, current, c, n)
  {
    if 0 <= i < |k.tasks| {
      SetKeepsOthers(k, i, state, reason);
    }
    hide Remove;
  }

  lemma PerformKeepsUsed(k: KernelState, e: Effect, cfg: Config, current: int, c: int, n: nat)
    requires Used(k, cfg, current, c, n)
    ensures Used(Perform(k, e), cfg, current, c, n)
  {
    hide SetTaskState;
    match e
    case SetState(i, state, reason) =>
      SetStateKeepsUsed(k, i, state, reason, cfg, current, c, n);
    case Nap(i, ticks) =>
      if 0 <= i < |k.tasks| {
        SetStateKeepsUsed(
          k.(tasks := k.tasks[i := k.tasks[i].(sleep := ticks)]), i, Blocked, OnSleep, cfg, current, c, n);
      }
    case Add(priority, entry) =>
      var n' := |k.tasks|;
      if n' < k.cfg.maxTasks {
        SetStateKeepsUsed(
          k.(tasks := k.tasks + [NewTcb(n' + 1, priority, entry)]), n', Ready, NoReason, cfg, current, c, n);
      }
    case SetTimer(slot, timer) =>
    case SetRegisters(context) =>
  }

  lemma CallKeepsUsed(w: World, a: Action, cfg: Config, current: int, c: int, n: nat)
    requires Used(w.k, cfg, current, c, n)
    ensures Used(Apply(w, a).k, cfg, current, c, n)
  {
    hide Perform, Effects, Objects;
    forall k: KernelState, e: Effect | Used(k, cfg, current, c, n) ensures Used(Perform(k, e), cfg, current, c, n) {
      PerformKeepsUsed(k, e, cfg, current, c, n);
    }
    PerformAllKeeps(k => Used(k, cfg, current, c, n), e => true, w.k, Effects(w, a));
  }

  lemma {:induction false} SleepPassKeepsUsed(k: KernelState, i: nat, cfg: Config, current: int, c: int, n: nat)
    requires Used(k, cfg, current, c, n)
    ensures Used(SleepPass(k, i), cfg, current, c, n)
    decreases |k.tasks| - i
  {
    if i < |k.tasks| {
      assert Used(CountDown(k, i), cfg, current, c, n) by { hide Remove; }
      hide CountDown;
      SleepPassKeepsUsed(CountDown(k, i), i + 1, cfg, current, c, n);
    }
  }

  /** Neither waking sleepers nor timer callbacks touch the slice count. */
  lemma UsedAtDecision(w: World, callbacks: seq<seq<Action>>, cfg: Config, current: int, c: int, n: nat)
    requires Used(w.k, cfg, current, c, n)
    ensures Used(AtDecision(w, callbacks).k, cfg, current, c, n)
  {
    SleepPassKeepsUsed(w.k.(tick := w.k.tick + 1), 0, cfg, current, c, n);
    var P := (x: World) => Used(x.k, cfg, current, c, n);
    forall x: World, a: Action | P(x) ensures P(Apply(x, a)) {
      CallKeepsUsed(x, a, cfg, current, c, n);
    }
    AnyCallbacksAreOk(Wake(w), callbacks, 0);
    hide Apply;
    SoftPassKeeps(P, Anything(), Wake(w), callbacks, 0);
  }

  /**
   * An idle tick hands the last task a fresh slice. If that task is READY at the next decision and nobody READY is
   * more urgent, it runs, whatever peers stand before it in the queue.
   */
  lemma IdleTickJumpsTheQueue(w: World, idle: TickScript, s: TickScript)
    requires Rested(w.k) && w.k.HasCurrent() && w.k.cfg.sliceTicks >= 1
    requires Runner(w, idle) == -1
    requires var k := AtDecision(Cycle(w, idle), s.callbacks).k;
             IsTop(k, w.k.current) && k.tasks[w.k.current].state == Ready
    ensures Runner(Cycle(w, idle), s) == w.k.current
  {
    var c, cfg := w.k.current, w.k.cfg;
    IdleCycle(w, idle);
    var w1 := Cycle(w, idle);
    CycleRested(w, idle);
    UsedAtDecision(w1, s.callbacks, cfg, c, c, 0);
    AtDecisionRested(w1, s.callbacks);
    hide AtDecision, Cycle, Rested;
    FreshSliceRuns(AtDecision(w1, s.callbacks).k);
  }

  lemma IdleCycle(w: World, idle: TickScript)
    requires Rested(w.k) && w.k.HasCurrent() && Runner(w, idle) == -1
    ensures Used(Cycle(w, idle).k, w.k.cfg, w.k.current, w.k.current, 0)
  {
    UsedAtDecision(w, idle.callbacks, w.k.cfg, w.k.current, w.k.current, w.k.tasks[w.k.current].slice);
    AtDecisionRested(w, idle.callbacks);
    var d := AtDecision(w, idle.callbacks);
    hide AtDecision;
    DecideFromTable(d.k);
    hide Decide;
  }

  lemma FreshSliceRuns(k: KernelState)
    requires Rested(k) && Used(k, k.cfg, k.current, k.current, 0) && k.cfg.sliceTicks >= 1
    requires IsTop(k, k.current) && k.tasks[k.current].state == Ready
    ensures Decide(k) != Idle && Dispatch(k).current == k.current
  {
    DecideFromTable(k);
    FirstInQueueRunsIff(k);
    hide Dispatch, BestOf;
  }

  // ---------------------------------------------------------------- the count when the CPU leaves a task

  lemma BodyKeepsUsed(w: World, body: seq<Action>, cfg: Config, current: int, c: int, n: nat)
    requires Used(w.k, cfg, current, c, n)
    ensures Used(ApplyAll(w, body).k, cfg, current, c, n)
    ensures Used(End(ApplyAll(w, body)).k, cfg, current, c, n)
  {
    var P := (x: World) => Used(x.k, cfg, current, c, n);
    forall x: World, a: Action | P(x) ensures P(Apply(x, a)) {
      CallKeepsUsed(x, a, cfg, current, c, n);
    }
    AnythingIsOk(w, body);
    hide Apply, SetTaskState;
    ApplyAllKeeps(P, Anything(), w, body);
    SetStateKeepsUsed(ApplyAll(w, body).k, current, Ready, NoReason, cfg, current, c, n);
  }

  /** A switch gives the incoming task the count 1 and leaves the outgoing one's alone. */
  lemma SwitchLeavesSlice(k: KernelState)
    requires Rested(k) && k.HasCurrent() && Decide(k).Switch?
    ensures var k' := Dispatch(k);
            && k'.current != k.current
            && Used(k', k.cfg, k'.current, k'.current, 1)
            && Used(k', k.cfg, k'.current, k.current, k.tasks[k.current].slice)
  {
    var x := Decide(k).next;
    DecideFromTable(k);
    assert Requeue(k) == k;
    var k1 := LoadContext(k.(ready := Remove(k.ready, x)), x);
    var k2 := k1.(current := x, tasks := k1.tasks[x := k1.tasks[x].(slice := 1)]);
    hide BestOf, SetTaskState;
    SetStateKeepsUsed(k2, x, Running, NoReason, k.cfg, x, x, 1);
    SetStateKeepsUsed(k2, x, Running, NoReason, k.cfg, x, k.current, k.tasks[k.current].slice);
  }

  /**
   * The header says that a task's slice count is reset to 0 on every switch away from it. In a tick that takes the
   * CPU from a task to another, the count stays what it was, so it is 0 afterwards exactly when it was 0 before.
   */
  lemma SliceSurvivesSwitchAway(w: World, s: TickScript)
    requires Rested(w.k) && w.k.HasCurrent() && Runner(w, s) !in {-1, w.k.current}
    ensures var k, c := Cycle(w, s).k, w.k.current;
            && Used(k, w.k.cfg, Runner(w, s), c, w.k.tasks[c].slice)
            && (k.tasks[c].slice == 0 <==> w.k.tasks[c].slice == 0)
  {
    var c, n := w.k.current, w.k.tasks[w.k.current].slice;
    UsedAtDecision(w, s.callbacks, w.k.cfg, c, c, n);
    AtDecisionRested(w, s.callbacks);
    var d := AtDecision(w, s.callbacks);
    hide AtDecision, Rested, ApplyAll, End;
    SwitchLeavesSlice(d.k);
    hide Dispatch, Decide;
    BodyKeepsUsed(Begin(d), s.body, w.k.cfg, Runner(w, s), c, n);
  }
}
