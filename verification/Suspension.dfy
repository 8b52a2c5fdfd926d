/** Suspension over whole runs: what ends it, and that a suspended task never gets the CPU. */
module Suspension {
  import opened KernelTypes
  import opened Sequences
  import opened ReadyQueues
  import opened KernelStates
  import opened EventScan
  import opened EventWakes
  import opened Worlds
  import opened RunInduction
  import opened Scheduling
  import opened SleepDeadlines

  predicate IsSuspended(k: KernelState, i: int) {
    0 <= i < |k.tasks| && k.tasks[i].state == TaskState.Suspended
  }

  predicate IsWaiting(k: KernelState, i: int) {
    0 <= i < |k.tasks| && WaitsFor(k.tasks[i], OnEvent)
  }

  // ---------------------------------------------------------------- one call

  /** The call sets flags that reach an entry which task i left in the waiter table of the group. */
  ghost predicate WakesByEvent(w: World, a: Action, i: int) {
    a.EventSet? && a.group < |w.groups| && WillWake(w.groups[a.group], a.mask, i)
  }

  lemma PerformOnOthers(k: KernelState, e: Effect, i: int)
    requires IsSuspended(k, i) && !TargetsTask(e, i)
    ensures IsSuspended(Perform(k, e), i)
  {
    hide Remove;
  }

  lemma SparedStaysSuspended(w: World, a: Action, i: int)
    requires IsSuspended(w.k, i) && LeavesAlone(w, a, i)
    ensures IsSuspended(Apply(w, a).k, i)
  {
    hide Perform, Effects, Objects;
    forall k: KernelState, e: Effect | IsSuspended(k, i) && !TargetsTask(e, i)
      ensures IsSuspended(Perform(k, e), i)
    {
      PerformOnOthers(k, e, i);
    }
    PerformAllKeeps(k => IsSuspended(k, i), e => !TargetsTask(e, i), w.k, Effects(w, a));
  }

  /** Wake-ups make READY every task they name. */
  lemma {:induction false} NamedIsWoken(k: KernelState, woken: seq<EventWaiter>, i: int)
    requires 0 <= i < |k.tasks|
    requires k.tasks[i].state == Ready || Names(woken, i)
    ensures var k' := PerformAll(k, WakeAll(woken)); i < |k'.tasks| && k'.tasks[i].state == Ready
    decreases |woken|
  {
    if woken != [] {
      var k1 := Perform(k, WakeAll(woken)[0]);
      assert WakeAll(woken)[1..] == WakeAll(woken[1..]);
      assert k1.tasks[i].state == Ready || k1.tasks[i] == k.tasks[i] by { hide Remove; }
      hide SetTaskState;
      if k1.tasks[i].state != Ready {
        var j :| 0 <= j < |woken| && woken[j].task == i;
        assert j > 0 && woken[1..][j - 1].task == i;
        assert Names(woken[1..], i);
      }
      NamedIsWoken(k1, woken[1..], i);
    }
  }

  /** What a waking call does to the task it does not name as its caller. */
  lemma WokenBy(w: World, a: Action, i: int)
    requires IsSuspended(w.k, i)
    requires (a.Resume? && IndexFromId(w.k.tasks, a.id) == i) || WakesByEvent(w, a, i)
    ensures i < |Apply(w, a).k.tasks| && Apply(w, a).k.tasks[i].state == Ready
  {
    if a.Resume? {
      hide Remove;
      var e := SetState(i, Ready, NoReason);
      PerformOne(w.k, e);
    } else {
      hide Remove, SetFlags, PerformAll, SetTaskState, WillWake;
      WakesExactlyTheServed(w.groups[a.group], a.mask, i);
      NamedIsWoken(w.k, SetFlags(w.groups[a.group], a.mask).woken, i);
    }
  }

  /** The call blocks its caller: it sleeps, or a primitive cannot serve it at once. */
  ghost predicate BlocksCaller(w: World, a: Action) {
    && w.k.HasCurrent() && Defined(w, a)
    && match a
       case Sleep(_) => true
       case SemWait(s) => w.sems[s] <= 0
       case Lock(m) => w.mutexes[m].locked && w.mutexes[m].owner != w.k.tasks[w.k.current].id
       case Send(q, _) => w.queues[q].count == |w.queues[q].buffer|
       case Receive(q) => w.queues[q].count == 0
       case EventWait(e, mask) => WaitFor(w.groups[e], mask) == MustBlock
       case _ => false
  }

  /** A blocking call takes its caller to BLOCKED, even if the caller was suspended. */
  lemma BlocksItsCaller(w: World, a: Action)
    requires BlocksCaller(w, a)
    ensures var k := Apply(w, a).k; w.k.current < |k.tasks| && k.tasks[w.k.current].state == Blocked
  {
    hide SetFlags, WaitFor, Remove;
    assert |Effects(w, a)| == 1;
    var e := Effects(w, a)[0];
    assert PerformAll(w.k, [e]) == Perform(w.k, e) && Effects(w, a) == [e];
    hide Effects, Objects;
  }

  /** The condition under which a call leaves task i suspended, read off the state before the call. */
  ghost predicate KeepsSuspended(w: World, a: Action, i: int) {
    && !(a.Resume? && IndexFromId(w.k.tasks, a.id) == i)
    && !WakesByEvent(w, a, i)
    && !(i == w.k.current && BlocksCaller(w, a))
  }

  lemma OnlyTheseTouch(w: World, a: Action, i: int)
    requires IsSuspended(w.k, i) && KeepsSuspended(w, a, i)
    ensures LeavesAlone(w, a, i) || (a.Suspend? && IndexFromId(w.k.tasks, a.id) == i)
  {
    hide SetFlags, WaitFor, WillWake;
    if a.EventSet? && a.group < |w.groups| {
      WakesExactlyTheServed(w.groups[a.group], a.mask, i);
    }
  }

  /**
   * `rtos_suspend_task` is meant to hold a task until `rtos_resume_task`. A call ends the suspension exactly when it
   * resumes the task, or sets event flags that reach an entry the task left behind in a waiter table, or blocks
   * its caller in the name of the task itself: its function goes on after it suspended itself, and callbacks run
   * in the name of the last task. The flags reach an entry if they satisfy it and no newer entry takes its bits.
   */
  lemma StaysSuspendedIff(w: World, a: Action, i: int)
    requires IsSuspended(w.k, i)
    ensures IsSuspended(Apply(w, a).k, i) <==>
            KeepsSuspended(w, a, i)
  {
    if (a.Resume? && IndexFromId(w.k.tasks, a.id) == i) || WakesByEvent(w, a, i) {
      WokenBy(w, a, i);
    } else if i == w.k.current && BlocksCaller(w, a) {
      BlocksItsCaller(w, a);
    } else {
      OnlyTheseTouch(w, a, i);
      if LeavesAlone(w, a, i) {
        SparedStaysSuspended(w, a, i);
      } else {
        hide Remove;
        var e := SetState(i, Suspended, NoReason);
        PerformOne(w.k, e);
      }
    }
  }

  /** The newest entry of the table is served first, so setting its own bits always wakes its task. */
  lemma NewestWillWake(g: EventGroup, mask: bv32)
    requires mask != 0 && g.waiters != [] && g.waiters[|g.waiters| - 1].mask == mask
    ensures WillWake(g, mask, g.waiters[|g.waiters| - 1].task)
  {
    assert Satisfied(Join(g.flags, mask), mask);
    hide Satisfied, Join;
    assert Served(Join(g.flags, mask), g.waiters, |g.waiters|, |g.waiters| - 1);
  }

  lemma BlockingMask(g: EventGroup, mask: bv32)
    requires WaitFor(g, mask) == MustBlock
    ensures mask != 0
  {
  }

  /**
   * A task waits for flags and is suspended while it waits; setting the flags makes it READY although nobody
   * resumed it, in every state in which the wait blocks.
   */
  lemma StaleEntryEndsSuspension(w: World, e: nat, mask: bv32)
    requires Exact(w.k) && w.k.HasCurrent() && e < |w.groups| && WaitFor(w.groups[e], mask) == MustBlock
    ensures var i := w.k.current;
            var w1 := Apply(w, EventWait(e, mask));
            var w2 := Apply(w1, Action.Suspend(i + 1));
            var w3 := Apply(w2, EventSet(e, mask));
            IsWaiting(w1.k, i) && IsSuspended(w2.k, i) && IsReady(w3.k.tasks, i)
  {
    hide Apply, WillWake, Exact, WaitFor;
    var i := w.k.current;
    var w1 := Apply(w, EventWait(e, mask));
    var w2 := Apply(w1, Action.Suspend(i + 1));
    assert mask != 0 by { BlockingMask(w.groups[e], mask); }
    BlockingWaitLists(w, e, mask);
    SuspendSuspends(w1, i);
    NewestWillWake(w2.groups[e], mask);
    WokenBy(w2, EventSet(e, mask), i);
  }

  /** A wait that blocks puts its caller last in the waiter table. */
  lemma BlockingWaitLists(w: World, e: nat, mask: bv32)
    requires Exact(w.k) && w.k.HasCurrent() && e < |w.groups| && WaitFor(w.groups[e], mask) == MustBlock
    ensures var i := w.k.current;
            var w1 := Apply(w, EventWait(e, mask));
            && IdsFollowIndices(w1.k) && IsWaiting(w1.k, i)
            && e < |w1.groups| && w1.groups[e].waiters == w.groups[e].waiters + [EventWaiter(i, mask)]
  {
    hide Remove, Satisfied, Clear;
    var block := SetState(w.k.current, Blocked, OnEvent);
    PerformOne(w.k, block);
  }

  lemma SuspendSuspends(w: World, i: int)
    requires IdsFollowIndices(w.k) && 0 <= i < |w.k.tasks|
    ensures var w' := Apply(w, Action.Suspend(i + 1));
            IsSuspended(w'.k, i) && w'.groups == w.groups
  {
    assert w.k.tasks[i].id == i + 1;
    assert IndexFromId(w.k.tasks, i + 1) == i;
    hide Remove, IndexFromId;
    var e := SetState(i, TaskState.Suspended, NoReason);
    PerformOne(w.k, e);
  }

  /** Resuming readies a suspended task, at the tail of the queue, and changes no task that is not suspended. */
  lemma ResumeReadiesOnlySuspended(w: World, id: int)
    requires Exact(w.k)
    ensures var i := IndexFromId(w.k.tasks, id);
            var k := Apply(w, Action.Resume(id)).k;
            if IsSuspended(w.k, i) then
              && k.ready == w.k.ready + [i]
              && k.tasks == w.k.tasks[i := w.k.tasks[i].(state := Ready, reason := NoReason, sleep := 0)]
            else k == w.k
  {
    var i := IndexFromId(w.k.tasks, id);
    if IsSuspended(w.k, i) {
      SetReady(w.k, i, NoReason);
      RemoveAbsent(w.k.ready, i);
      hide Remove, Distinct, SetTaskState;
      var e := SetState(i, Ready, NoReason);
      PerformOne(w.k, e);
    }
  }

  // ---------------------------------------------------------------- whole runs

  /** How often task i was given the CPU. */
  function Starts(h: History, i: int): nat {
    match h
    case Beginning => 0
    case Then(past, e) => Starts(past, i) + if e.Started? && e.task == i then 1 else 0
  }

  ghost predicate Dormant(w: World, i: int, starts: nat) {
    IsSuspended(w.k, i) && Starts(w.log, i) == starts
  }

  lemma CallKeepsDormant(w: World, a: Action, i: int, starts: nat)
    requires Dormant(w, i, starts) && KeepsSuspended(w, a, i)
    ensures Dormant(Apply(w, a), i, starts)
  {
    StaysSuspendedIff(w, a, i);
    var h := Objects(w, a).log;
    assert h == w.log || (h.Then? && h.past == w.log && !h.event.Started?) by { hide SetFlags, AfterWait, Clear; }
    hide Objects, Effects;
  }

  /** Nobody ends the suspension of task i. */
  ghost function KeepingSuspended(i: int): (World, Action) -> bool {
    (w: World, a: Action) => KeepsSuspended(w, a, i)
  }

  lemma BodyKeepsDormant(w: World, acts: seq<Action>, i: int, starts: nat)
    requires Dormant(w, i, starts) && AllOk(KeepingSuspended(i), w, acts)
    ensures Dormant(ApplyAll(w, acts), i, starts)
  {
    var P := (x: World) => Dormant(x, i, starts);
    forall x: World, a: Action | P(x) && KeepingSuspended(i)(x, a) ensures P(Apply(x, a)) {
      CallKeepsDormant(x, a, i, starts);
    }
    hide Apply;
    ApplyAllKeeps(P, KeepingSuspended(i), w, acts);
  }

  lemma CallbacksKeepDormant(w: World, callbacks: seq<seq<Action>>, i: int, starts: nat)
    requires Dormant(w, i, starts) && CallbacksOk(KeepingSuspended(i), w, callbacks, 0)
    ensures Dormant(SoftPass(w, callbacks, 0), i, starts)
  {
    var P := (x: World) => Dormant(x, i, starts);
    forall x: World, a: Action | P(x) && KeepingSuspended(i)(x, a) ensures P(Apply(x, a)) {
      CallKeepsDormant(x, a, i, starts);
    }
    hide Apply;
    SoftPassKeeps(P, KeepingSuspended(i), w, callbacks, 0);
  }

  lemma WakePassesOver(w: World, i: int, starts: nat)
    requires Dormant(w, i, starts)
    ensures Dormant(Wake(w), i, starts)
  {
    SleepPassAt(w.k.(tick := w.k.tick + 1), 0, i);
  }

  lemma DispatchPassesOver(d: World, i: int, starts: nat)
    requires Rested(d.k) && Dormant(d, i, starts)
    ensures Dormant(Begin(d), i, starts)
    ensures Decide(d.k) != Idle ==> Begin(d).k.current != i
  {
    assert InTable(d.k.tasks, d.k.ready);
    hide Dispatch, Decide, Rested;
    DispatchLeaves(d.k, i);
  }

  lemma CycleKeepsDormant(w: World, s: TickScript, i: int, starts: nat)
    requires Rested(w.k) && Dormant(w, i, starts) && TickOk(KeepingSuspended(i), KeepingSuspended(i), w, s)
    ensures Runner(w, s) != i && Dormant(Cycle(w, s), i, starts)
  {
    WakePassesOver(w, i, starts);
    CallbacksKeepDormant(Wake(w), s.callbacks, i, starts);
    AtDecisionRested(w, s.callbacks);
    var d := AtDecision(w, s.callbacks);
    hide AtDecision, Rested;
    DispatchPassesOver(d, i, starts);
    if Decide(d.k) != Idle {
      BodyKeepsDormant(Begin(d), s.body, i, starts);
      hide ApplyAll, Begin;
      ReturnKeepsDormant(ApplyAll(Begin(d), s.body), i, starts);
    }
  }

  lemma ReturnKeepsDormant(w: World, i: int, starts: nat)
    requires Dormant(w, i, starts)
    ensures Dormant(End(w), i, starts)
  {
    hide Remove;
  }

  /**
   * From any loop head of any run: as long as no call is one of those that end a suspension, the task stays suspended
   * and is never given the CPU, for every interleaving of the other tasks and timers.
   */
  lemma {:induction false} SuspendedNeverRuns(w: World, steps: seq<Step>, i: int)
    requires Rested(w.k) && IsSuspended(w.k, i) && StepsOk(KeepingSuspended(i), KeepingSuspended(i), w, steps)
    ensures IsSuspended(Run(w, steps).k, i) && Starts(Run(w, steps).log, i) == Starts(w.log, i)
    decreases |steps|
  {
    hide Rested, IsSuspended, Starts, Do, StepOk;
    if steps != [] {
      StepKeepsDormant(w, steps[0], i);
      SuspendedNeverRuns(Do(w, steps[0]), steps[1..], i);
    }
  }

  lemma StepKeepsDormant(w: World, step: Step, i: int)
    requires Rested(w.k) && IsSuspended(w.k, i) && StepOk(KeepingSuspended(i), KeepingSuspended(i), w, step)
    ensures var w' := Do(w, step); Rested(w'.k) && IsSuspended(w'.k, i) && Starts(w'.log, i) == Starts(w.log, i)
  {
    match step
    case Tick(s) =>
      CycleKeepsDormant(w, s, i, Starts(w.log, i));
      CycleRested(w, s);
    case Call(a) =>
      CallKeepsDormant(w, a, i, Starts(w.log, i));
      ApplyExact(w, a);
  }
}
