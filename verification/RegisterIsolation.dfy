/**
 * One shared register file, saved and restored at context switches, behaves like a private register file per task.
 */
module RegisterIsolation {
  import opened KernelTypes
  import opened Sequences
  import opened ReadyQueues
  import opened KernelStates
  import opened EventScan
  import opened Worlds
  import opened RunInduction
  import opened Scheduling

  /** The reference machine: every task owns a register file, written only when its function returns. */
  function PrivateFiles(h: History): seq<CpuContext> {
    match h
    case Beginning => []
    case Then(past, Created(_, context)) => PrivateFiles(past) + [context]
    case Then(past, Finished(t, context)) =>
      if 0 <= t < |PrivateFiles(past)| then PrivateFiles(past)[t := context] else PrivateFiles(past)
    case Then(past, _) => PrivateFiles(past)
  }

  /** Every task function is entered with the task's own private registers. */
  ghost predicate AlwaysResumes(h: History) {
    match h
    case Beginning => true
    case Then(past, Started(t, context)) =>
      AlwaysResumes(past) && 0 <= t < |PrivateFiles(past)| && PrivateFiles(past)[t] == context
    case Then(past, _) => AlwaysResumes(past)
  }

  /** The registers of task i in the real machine: live for the current task, saved for the others. */
  function RegistersOf(k: KernelState, i: nat): CpuContext
    requires i < |k.tasks|
  {
    if i == k.current then k.active else k.tasks[i].context
  }

  /** Real and reference machine agree on every task except `writer`. */
  ghost predicate AgreesBut(w: World, writer: int) {
    && -1 <= w.k.current < |w.k.tasks|
    && |PrivateFiles(w.log)| == |w.k.tasks|
    && AlwaysResumes(w.log)
    && forall i :: 0 <= i < |w.k.tasks| && i != writer ==> RegistersOf(w.k, i) == PrivateFiles(w.log)[i]
  }

  ghost predicate Agrees(w: World) {
    AgreesBut(w, -1)
  }

  /** k has the same register files as k0. */
  ghost predicate SameFiles(k0: KernelState, k: KernelState) {
    && |k.tasks| == |k0.tasks| && k.current == k0.current && k.active == k0.active
    && forall i :: 0 <= i < |k.tasks| ==> k.tasks[i].context == k0.tasks[i].context
  }

  predicate KeepsFiles(e: Effect) {
    !e.Add? && !e.SetRegisters?
  }

  lemma SetStateSameFiles(k: KernelState, i: int, state: TaskState, reason: BlockReason)
    ensures SameFiles(k, SetTaskState(k, i, state, reason))
  {
    hide Remove;
  }

  lemma PerformSameFiles(k0: KernelState, k: KernelState, e: Effect)
    requires SameFiles(k0, k) && KeepsFiles(e)
    ensures SameFiles(k0, Perform(k, e))
  {
    hide SetTaskState;
    match e
    case SetState(i, state, reason) => SetStateSameFiles(k, i, state, reason);
    case Nap(i, ticks) =>
      if 0 <= i < |k.tasks| {
        SetStateSameFiles(k.(tasks := k.tasks[i := k.tasks[i].(sleep := ticks)]), i, Blocked, OnSleep);
      }
    case SetTimer(slot, timer) =>
  }

  lemma MostEffectsKeepFiles(w: World, a: Action)
    requires !a.CreateTask? && !a.WriteRegisters?
    ensures forall j :: 0 <= j < |Effects(w, a)| ==> KeepsFiles(Effects(w, a)[j])
  {
    hide SetFlags, WaitFor;
  }

  lemma MostEventsKeepFiles(w: World, a: Action)
    requires !a.CreateTask?
    ensures var h := Objects(w, a).log;
            PrivateFiles(h) == PrivateFiles(w.log) && AlwaysResumes(h) == AlwaysResumes(w.log)
  {
    var h := Objects(w, a).log;
    assert h == w.log || (h.Then? && h.past == w.log
                          && !h.event.Created? && !h.event.Started? && !h.event.Finished?) by {
      hide SetFlags, AfterWait, Clear;
    }
    hide Objects;
  }

  lemma MostCallsKeepFiles(w: World, a: Action)
    requires !a.CreateTask? && !a.WriteRegisters?
    ensures SameFiles(w.k, Apply(w, a).k)
    ensures PrivateFiles(Apply(w, a).log) == PrivateFiles(w.log)
    ensures AlwaysResumes(Apply(w, a).log) == AlwaysResumes(w.log)
  {
    MostEffectsKeepFiles(w, a);
    MostEventsKeepFiles(w, a);
    hide Effects, Objects, Perform, PrivateFiles, AlwaysResumes;
    forall k: KernelState, e: Effect | SameFiles(w.k, k) && KeepsFiles(e) ensures SameFiles(w.k, Perform(k, e)) {
      PerformSameFiles(w.k, k, e);
    }
    PerformAllKeeps(k => SameFiles(w.k, k), e => KeepsFiles(e), w.k, Effects(w, a));
  }

  /** Only the task whose function is executing writes the active registers. */
  lemma ApplyAgrees(w: World, a: Action, writer: int)
    requires AgreesBut(w, writer)
    requires a.WriteRegisters? ==> writer == w.k.current
    ensures AgreesBut(Apply(w, a), writer)
  {
    hide Apply, AgreesBut;
    match a
    case WriteRegisters(context) =>
      WriteAgrees(w, context);
    case CreateTask(priority, entry) =>
      CreationAgrees(w, priority, entry, writer);
    case _ =>
      MostCallsKeepFiles(w, a);
      SameFilesAgree(w, Apply(w, a), writer);
  }

  lemma SameFilesAgree(w: World, w': World, writer: int)
    requires AgreesBut(w, writer) && SameFiles(w.k, w'.k)
    requires PrivateFiles(w'.log) == PrivateFiles(w.log) && AlwaysResumes(w'.log) == AlwaysResumes(w.log)
    ensures AgreesBut(w', writer)
  {
    hide PrivateFiles, AlwaysResumes;
  }

  lemma WriteAgrees(w: World, context: CpuContext)
    requires AgreesBut(w, w.k.current)
    ensures AgreesBut(Apply(w, WriteRegisters(context)), w.k.current)
  {
    hide PrivateFiles, AlwaysResumes;
    PerformOne(w.k, SetRegisters(context));
    hide PerformAll;
  }

  lemma CreationAgrees(w: World, priority: int, entry: bv32, writer: int)
    requires AgreesBut(w, writer)
    ensures AgreesBut(Apply(w, CreateTask(priority, entry)), writer)
  {
    hide SetTaskState;
    PerformOne(w.k, Add(priority, entry));
    hide PerformAll;
    var n := |w.k.tasks|;
    if n < w.k.cfg.maxTasks {
      SetStateSameFiles(w.k.(tasks := w.k.tasks + [NewTcb(n + 1, priority, entry)]), n, Ready, NoReason);
    }
  }

  /** Callbacks and the main program do not write registers. */
  ghost function NoRegisterWrites(): (World, Action) -> bool {
    (w: World, a: Action) => !a.WriteRegisters?
  }

  lemma CallbacksAgree(w: World, callbacks: seq<seq<Action>>)
    requires Agrees(w) && CallbacksOk(NoRegisterWrites(), w, callbacks, 0)
    ensures Agrees(SoftPass(w, callbacks, 0))
  {
    var P := (x: World) => Agrees(x);
    forall x: World, a: Action | P(x) && NoRegisterWrites()(x, a) ensures P(Apply(x, a)) {
      ApplyAgrees(x, a, -1);
    }
    hide Apply, SoftPass, CallbacksOk;
    SoftPassKeeps(P, NoRegisterWrites(), w, callbacks, 0);
  }

  lemma BodyAgrees(w: World, body: seq<Action>)
    requires AgreesBut(w, w.k.current)
    ensures AgreesBut(ApplyAll(w, body), w.k.current)
  {
    var c := w.k.current;
    var P := (x: World) => x.k.current == c && AgreesBut(x, c);
    forall x: World, a: Action | P(x) ensures P(Apply(x, a)) {
      ApplyAgrees(x, a, c);
      PerformAllFrame(x.k, Effects(x, a));
    }
    AnythingIsOk(w, body);
    hide Apply, ApplyAll, AllOk;
    ApplyAllKeeps(P, Anything(), w, body);
  }

  lemma {:induction false} SleepPassSameFiles(k0: KernelState, k: KernelState, i: nat)
    requires SameFiles(k0, k)
    ensures SameFiles(k0, SleepPass(k, i))
    decreases |k.tasks| - i
  {
    if i < |k.tasks| {
      var k1 := k.(tasks := k.tasks[i := k.tasks[i].(sleep := k.tasks[i].sleep - 1)]);
      SetStateSameFiles(k1, i, Ready, NoReason);
      hide SetTaskState;
      SleepPassSameFiles(k0, CountDown(k, i), i + 1);
    }
  }

  /** The dispatch moves register files between the active set and the blocks without mixing them up. */
  lemma DispatchAgrees(d: World)
    requires Agrees(d) && Rested(d.k)
    ensures Decide(d.k) == Idle ==> Agrees(Begin(d))
    ensures Decide(d.k) != Idle ==> AgreesBut(Begin(d), Begin(d).k.current) && Begin(d).k.HasCurrent()
  {
    hide BestOf, SetTaskState;
    match Decide(d.k)
    case Idle =>
    case Switch(next, requeue) =>
      assert Requeue(d.k) == d.k;
      var k1 := LoadContext(d.k.(ready := Remove(d.k.ready, next)), next);
      var k2 := k1.(current := next, tasks := k1.tasks[next := k1.tasks[next].(slice := 1)]);
      SetStateSameFiles(k2, next, Running, NoReason);
    case Continue =>
      var c := d.k.tasks[d.k.current];
      SetStateSameFiles(
        d.k.(tasks := d.k.tasks[d.k.current := c.(slice := c.slice + 1)]), d.k.current, Running, NoReason);
  }

  lemma CycleAgrees(w: World, s: TickScript)
    requires Agrees(w) && Rested(w.k)
    requires TickOk(NoRegisterWrites(), Anything(), w, s)
    ensures Agrees(Cycle(w, s))
  {
    hide SleepPass, SoftPass, Rested, CallbacksOk, AllOk, Dispatch, Decide, ApplyAll, End;
    SleepPassSameFiles(w.k, w.k.(tick := w.k.tick + 1), 0);
    CallbacksAgree(Wake(w), s.callbacks);
    AtDecisionRested(w, s.callbacks);
    var d := AtDecision(w, s.callbacks);
    hide AtDecision;
    DispatchAgrees(d);
    if Decide(d.k) != Idle {
      BodyAgrees(Begin(d), s.body);
      ApplyAllFrame(Begin(d), s.body);
      EndAgrees(ApplyAll(Begin(d), s.body));
    }
  }

  lemma EndAgrees(w: World)
    requires AgreesBut(w, w.k.current) && w.k.HasCurrent()
    ensures Agrees(End(w))
  {
    SetStateSameFiles(w.k, w.k.current, Ready, NoReason);
    hide SetTaskState;
  }

  /** Only task functions write the active registers. */
  ghost predicate OnlyTasksWrite(w: World, steps: seq<Step>) {
    StepsOk(NoRegisterWrites(), Anything(), w, steps)
  }

  lemma {:induction false} RunAgrees(w: World, steps: seq<Step>)
    requires Agrees(w) && Rested(w.k) && OnlyTasksWrite(w, steps)
    ensures Agrees(Run(w, steps))
    decreases |steps|
  {
    hide Agrees, Rested;
    if steps != [] {
      match steps[0] {
        case Tick(s) =>
          CycleAgrees(w, s);
          CycleRested(w, s);
        case Call(a) =>
          CallAgrees(w, a);
      }
      RunAgrees(Do(w, steps[0]), steps[1..]);
    }
  }

  lemma CallAgrees(w: World, a: Action)
    requires Agrees(w) && Rested(w.k) && !a.WriteRegisters?
    ensures Agrees(Apply(w, a)) && Rested(Apply(w, a).k)
  {
    ApplyAgrees(w, a, -1);
    ApplyExact(w, a);
  }

  /**
   * Register isolation: in every run each task function starts with exactly the registers its task left when its
   * function last returned, or its initial context, whatever ran in between; and at every loop head each task's
   * registers are those of its private file.
   */
  lemma TasksResumeTheirRegisters(w: World, steps: seq<Step>)
    requires Initial(w) && OnlyTasksWrite(w, steps)
    ensures var w' := Run(w, steps);
            && AlwaysResumes(w'.log)
            && |PrivateFiles(w'.log)| == |w'.k.tasks|
            && forall i :: 0 <= i < |w'.k.tasks| ==> RegistersOf(w'.k, i) == PrivateFiles(w'.log)[i]
  {
    RunAgrees(w, steps);
  }
}
