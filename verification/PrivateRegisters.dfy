/**
 * The registers of every task, read off the calls of a run: what its creation gave it and what was written while it
 * was current. No hypothesis restricts who writes.
 */
module PrivateRegisters {
  import opened KernelTypes
  import opened Sequences
  import opened ReadyQueues
  import opened KernelStates
  import opened EventScan
  import opened Worlds
  import opened RegisterIsolation
  import opened Traces

  /** A creation that finds room in the task table. */
  predicate Creates(m: Moment) {
    m.call.CreateTask? && |m.before.k.tasks| < m.before.k.cfg.maxTasks
  }

  /** The entry points of the tasks created, in order. */
  function Entries(h: Trace): seq<bv32> {
    if h == [] then []
    else Entries(Earlier(h)) + if Creates(Latest(h)) then [Latest(h).call.entry] else []
  }

  /** The registers with which a task first starts. */
  function FirstRegisters(entry: bv32): CpuContext {
    CpuContext([0, 0, 0, 0, 0, 0, 0, 0, 0, 0, 0, 0, 0], 0xFFFF_FFFD, entry, 0x0100_0000)
  }

  /** The reference machine: a register file per task; a write goes to the file of the current task. */
  function Files(h: Trace): seq<CpuContext> {
    if h == [] then []
    else
      var files, m := Files(Earlier(h)), Latest(h);
      if Creates(m) then files + [FirstRegisters(m.call.entry)]
      else if m.call.WriteRegisters? && 0 <= m.before.k.current < |files| then
        files[m.before.k.current := m.call.context]
      else files
  }

  /** Task t was started before. */
  predicate EverStarted(log: History, t: int) {
    log.Then? && ((log.event.Started? && log.event.task == t) || EverStarted(log.past, t))
  }

  ghost predicate FilesKnown(w: World, h: Trace) {
    && -1 <= w.k.current < |w.k.tasks|
    && |Files(h)| == |Entries(h)| == |w.k.tasks|
    && (w.k.HasCurrent() ==> EverStarted(w.log, w.k.current))
    && forall i :: 0 <= i < |w.k.tasks| ==>
                     && RegistersOf(w.k, i) == Files(h)[i]
                     && (!EverStarted(w.log, i) ==> Files(h)[i] == FirstRegisters(Entries(h)[i]))
  }

  // ---------------------------------------------------------------- calls

  lemma CallsStartNobody(w: World, a: Action, t: int)
    ensures EverStarted(Apply(w, a).log, t) == EverStarted(w.log, t)
  {
    var log := Objects(w, a).log;
    assert log == w.log || (log.Then? && log.past == w.log && !log.event.Started?) by {
      hide SetFlags, AfterWait, Clear;
    }
    hide Objects, Effects;
  }

  lemma CreationKeepsFiles(w: World, priority: int, entry: bv32, h: Trace)
    requires FilesKnown(w, h) && |w.k.tasks| < w.k.cfg.maxTasks
    ensures FilesKnown(Apply(w, CreateTask(priority, entry)), h + [Moment(w, CreateTask(priority, entry))])
  {
    hide SetTaskState, EverStarted, Objects;
    var a := CreateTask(priority, entry);
    var w', n := Apply(w, a), |w.k.tasks|;
    AddedLast(h, Moment(w, a));
    PerformOne(w.k, Add(priority, entry));
    var k1 := w.k.(tasks := w.k.tasks + [NewTcb(n + 1, priority, entry)]);
    SetStateSameFiles(k1, n, Ready, NoReason);
    assert w'.k == SetTaskState(k1, n, Ready, NoReason);
    hide PerformAll;
    assert k1.tasks[n].context == FirstRegisters(entry);
    forall t: int | true ensures EverStarted(w'.log, t) == EverStarted(w.log, t) {
      CallsStartNobody(w, a, t);
    }
  }

  lemma WriteKeepsFiles(w: World, context: CpuContext, h: Trace)
    requires FilesKnown(w, h)
    ensures FilesKnown(Apply(w, WriteRegisters(context)), h + [Moment(w, WriteRegisters(context))])
  {
    hide EverStarted;
    AddedLast(h, Moment(w, WriteRegisters(context)));
    PerformOne(w.k, SetRegisters(context));
    hide PerformAll;
  }

  lemma CallKeepsFiles(w: World, a: Action, h: Trace)
    requires FilesKnown(w, h)
    ensures FilesKnown(Apply(w, a), h + [Moment(w, a)])
  {
    hide Apply, FilesKnown;
    match a
    case CreateTask(priority, entry) =>
      if |w.k.tasks| < w.k.cfg.maxTasks {
        CreationKeepsFiles(w, priority, entry, h);
      } else {
        FullTableRefuses(w, a);
        KnownAgain(w, a, h);
      }
    case WriteRegisters(context) =>
      WriteKeepsFiles(w, context, h);
    case _ =>
      MostCallsKeepFiles(w, a);
      KnownAgain(w, a, h);
  }

  lemma FullTableRefuses(w: World, a: Action)
    requires a.CreateTask? && |w.k.tasks| >= w.k.cfg.maxTasks
    ensures SameFiles(w.k, Apply(w, a).k)
  {
    PerformOne(w.k, Add(a.priority, a.entry));
    hide PerformAll;
  }

  lemma KnownAgain(w: World, a: Action, h: Trace)
    requires FilesKnown(w, h) && SameFiles(w.k, Apply(w, a).k)
    requires !Creates(Moment(w, a)) && !a.WriteRegisters?
    ensures FilesKnown(Apply(w, a), h + [Moment(w, a)])
  {
    hide Apply, EverStarted;
    AddedLast(h, Moment(w, a));
    forall t: int | true ensures EverStarted(Apply(w, a).log, t) == EverStarted(w.log, t) {
      CallsStartNobody(w, a, t);
    }
  }

  // ---------------------------------------------------------------- the scheduler's own moves

  /** Nothing happens to the register files, and nobody is started. */
  ghost predicate Quietly(w: World, w': World) {
    && SameFiles(w.k, w'.k)
    && (w'.log == w.log || (w'.log.Then? && w'.log.past == w.log && !w'.log.event.Started?))
  }

  lemma MovesAreQuiet(w: World)
    ensures forall slot: nat :: slot < |w.k.timers| ==> Quietly(w, CountSlot(w, slot)) && Quietly(w, Rearm(w, slot))
    ensures Quietly(w, Wake(w)) && Quietly(w, Evicted(w)) && Quietly(w, End(w))
  {
    SleepPassSameFiles(w.k, w.k.(tick := w.k.tick + 1), 0);
    SetStateSameFiles(w.k, w.k.current, Ready, NoReason);
    hide SetTaskState, SleepPass;
  }

  lemma QuietMovesKeepFiles(w: World, w': World, h: Trace)
    requires FilesKnown(w, h) && Quietly(w, w')
    ensures FilesKnown(w', h)
  {
    assert forall t: int :: EverStarted(w'.log, t) == EverStarted(w.log, t);
    hide EverStarted;
  }

  /** The dispatch saves and loads the right registers, whoever was current. */
  lemma DispatchKeepsFiles(k: KernelState)
    requires InTable(k.tasks, k.ready) && -1 <= k.current < |k.tasks|
    ensures var k' := Dispatch(k);
            && |k'.tasks| == |k.tasks| && -1 <= k'.current < |k'.tasks|
            && (Decide(k) == Idle ==> k'.current == k.current)
            && (Decide(k) != Idle ==> k'.HasCurrent())
            && forall i :: 0 <= i < |k.tasks| ==> RegistersOf(k', i) == RegistersOf(k, i)
  {
    hide BestOf, SetTaskState, Remove;
    match Decide(k)
    case Idle =>
    case Switch(next, requeue) =>
      SetStateSameFiles(k, k.current, Ready, NoReason);
      SwitchKeepsFiles(if requeue then Requeue(k) else k, next);
    case Continue =>
      var c := k.tasks[k.current];
      SetStateSameFiles(
        k.(tasks := k.tasks[k.current := c.(slice := c.slice + 1)]), k.current, Running, NoReason);
  }

  lemma SwitchKeepsFiles(k: KernelState, next: nat)
    requires -1 <= k.current < |k.tasks| && next < |k.tasks|
    ensures var k' := SwitchTo(k, next);
            && |k'.tasks| == |k.tasks| && k'.current == next
            && forall i :: 0 <= i < |k.tasks| ==> RegistersOf(k', i) == RegistersOf(k, i)
  {
    hide SetTaskState, Remove;
    var k1 := LoadContext(k.(ready := Remove(k.ready, next)), next);
    SetStateSameFiles(k1.(current := next, tasks := k1.tasks[next := k1.tasks[next].(slice := 1)]), next, Running,
                      NoReason);
  }

  lemma BeginKeepsFiles(w: World, h: Trace)
    requires FilesKnown(w, h) && InTable(w.k.tasks, w.k.ready)
    ensures FilesKnown(Begin(w), h)
  {
    hide Dispatch, Decide;
    DispatchKeepsFiles(w.k);
  }

  ghost function Known(): Tracked {
    (w: World, h: Trace) => FilesKnown(w, h)
  }

  lemma KnownIsKept()
    ensures CallsKeep(Known()) && SchedulerKeeps(Known())
  {
    hide Apply, FilesKnown, Quietly, CountSlot, Rearm, Wake, Begin, End, Evicted, InTable;
    forall w: World, a: Action, h: Trace | FilesKnown(w, h) ensures FilesKnown(Apply(w, a), h + [Moment(w, a)]) {
      CallKeepsFiles(w, a, h);
    }
    forall w: World, w': World, h: Trace | FilesKnown(w, h) && Quietly(w, w') ensures FilesKnown(w', h) {
      QuietMovesKeepFiles(w, w', h);
    }
    forall w: World, h: Trace | FilesKnown(w, h) && InTable(w.k.tasks, w.k.ready) ensures FilesKnown(Begin(w), h) {
      BeginKeepsFiles(w, h);
    }
    forall w: World | true
      ensures forall slot: nat :: slot < |w.k.timers| ==> Quietly(w, CountSlot(w, slot)) && Quietly(w, Rearm(w, slot))
      ensures Quietly(w, Wake(w)) && Quietly(w, Evicted(w)) && Quietly(w, End(w))
    {
      MovesAreQuiet(w);
    }
  }

  // ---------------------------------------------------------------- whole runs

  lemma RunIsKnown(w: World, steps: seq<Step>)
    requires Initial(w)
    ensures FilesKnown(Run(w, steps), CallsOf(w, steps))
  {
    assert FilesKnown(w, []);
    hide Run, CallsOf, FilesKnown, CallsKeep, SchedulerKeeps;
    KnownIsKept();
    TracksFromStart(Known(), w, steps);
    assert Known()(Run(w, steps), CallsOf(w, steps));
  }

  /** In every run each task's registers, live or saved, are those of its private file. */
  lemma RegistersArePrivate(w: World, steps: seq<Step>)
    requires Initial(w)
    ensures var w', files := Run(w, steps), Files(CallsOf(w, steps));
            && |files| == |w'.k.tasks|
            && forall i :: 0 <= i < |w'.k.tasks| ==> RegistersOf(w'.k, i) == files[i]
  {
    hide Run, CallsOf, Files;
    RunIsKnown(w, steps);
  }

  /**
   * In every run, whenever a task function is entered: the active registers are the task's private file; and on its
   * first start they are pc = the entry its creation was called with, lr = 0xFFFF_FFFD, xpsr = 0x0100_0000 and zero
   * general registers.
   */
  lemma StartsWithItsRegisters(w: World, steps: seq<Step>, s: TickScript)
    requires Initial(w) && Decide(AtDecision(Run(w, steps), s.callbacks).k) != Idle
    ensures var d := AtDecision(Run(w, steps), s.callbacks);
            var h, t := CallsOf(w, steps) + CallsToDecision(Run(w, steps), s.callbacks), Begin(d).k.current;
            && 0 <= t < |Files(h)| == |Entries(h)|
            && Begin(d).k.active == Files(h)[t]
            && Begin(d).log == Then(d.log, Started(t, Files(h)[t]))
            && (!EverStarted(d.log, t) ==> Files(h)[t] == FirstRegisters(Entries(h)[t]))
  {
    hide Run, CallsOf, Files, Entries, CallsToDecision, AtDecision, FilesKnown, EverStarted, CallsKeep, SchedulerKeeps;
    var d := AtDecision(Run(w, steps), s.callbacks);
    var h := CallsOf(w, steps) + CallsToDecision(Run(w, steps), s.callbacks);
    RunIsKnown(w, steps);
    KnownIsKept();
    DecisionKeeps(Known(), Run(w, steps), s.callbacks, CallsOf(w, steps));
    assert Known()(d, h);
    BeginKeepsFiles(d, h);
    StartsKnown(d, h);
  }

  lemma StartsKnown(d: World, h: Trace)
    requires InTable(d.k.tasks, d.k.ready) && Decide(d.k) != Idle
    requires FilesKnown(d, h) && FilesKnown(Begin(d), h)
    ensures var t := Begin(d).k.current;
            && 0 <= t < |Files(h)| == |Entries(h)|
            && Begin(d).k.active == Files(h)[t]
            && Begin(d).log == Then(d.log, Started(t, Files(h)[t]))
            && (!EverStarted(d.log, t) ==> Files(h)[t] == FirstRegisters(Entries(h)[t]))
  {
    hide Dispatch, Decide, Files, Entries, EverStarted;
    DispatchKeepsFiles(d.k);
  }
}
