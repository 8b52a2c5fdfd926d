/** What every run keeps true of the ready queue, and which task a scheduler cycle runs. */
module Scheduling {
  import opened KernelTypes
  import opened Sequences
  import opened ReadyQueues
  import opened KernelStates
  import opened EventScan
  import opened Worlds
  import opened RunInduction

  /** Task ids count from 1 in the order of the table. */
  ghost predicate IdsFollowIndices(k: KernelState) {
    forall i :: 0 <= i < |k.tasks| ==> k.tasks[i].id == i + 1
  }

  /** The queue holds exactly the READY tasks, each once, and only the current task can be RUNNING. */
  ghost predicate Exact(k: KernelState) {
    && |k.tasks| <= k.cfg.maxTasks
    && -1 <= k.current < |k.tasks|
    && Distinct(k.ready)
    && InTable(k.tasks, k.ready)
    && (forall i :: 0 <= i < |k.tasks| ==> (k.tasks[i].state == Ready <==> i in k.ready))
    && (forall i :: 0 <= i < |k.tasks| && k.tasks[i].state == Running ==> i == k.current)
    && IdsFollowIndices(k)
  }

  /** Between task functions no task is RUNNING. */
  ghost predicate Rested(k: KernelState) {
    Exact(k) && forall i :: 0 <= i < |k.tasks| ==> k.tasks[i].state != Running
  }

  // ---------------------------------------------------------------- one transition

  /** A transition to READY always finds room in the queue: the capacity guard never drops a task. */
  lemma SetReady(k: KernelState, i: int, reason: BlockReason)
    requires Exact(k) && 0 <= i < |k.tasks|
    ensures var k' := SetTaskState(k, i, Ready, reason);
            && Exact(k')
            && k'.ready == Remove(k.ready, i) + [i]
            && k'.tasks == k.tasks[i := k.tasks[i].(state := Ready, reason := NoReason, sleep := 0)]
  {
    var q := Remove(k.ready, i);
    MoveToTail(k.ready, i);
    DistinctFits(q + [i], |k.tasks|);
    assert i !in q by { RemoveMembers(k.ready, i); }
  }

  lemma SetNotReady(k: KernelState, i: int, state: TaskState, reason: BlockReason)
    requires Exact(k)
    requires state == Ready || state == Running ==> i == k.current && state == Running
    requires i == k.current || state != Running
    ensures Exact(SetTaskState(k, i, state, reason))
  {
    if 0 <= i < |k.tasks| {
      RemoveMembers(k.ready, i);
    }
  }

  /** The states an API call can give a task. */
  predicate Public(e: Effect) {
    match e
    case SetState(_, state, _) => state != Running
    case _ => true
  }

  lemma SetTaskStateExact(k: KernelState, i: int, state: TaskState, reason: BlockReason)
    requires Exact(k) && state != Running
    ensures Exact(SetTaskState(k, i, state, reason))
    ensures Rested(k) ==> Rested(SetTaskState(k, i, state, reason))
  {
    if 0 <= i < |k.tasks| {
      if state == Ready {
        SetReady(k, i, reason);
      } else {
        SetNotReady(k, i, state, reason);
      }
    }
  }

  lemma SameTableFits(tasks: seq<Tcb>, tasks': seq<Tcb>, q: seq<int>)
    requires InTable(tasks, q) && |tasks| <= |tasks'|
    ensures InTable(tasks', q) && forall i :: i in q ==> i < |tasks|
  {
  }

  lemma PerformExact(k: KernelState, e: Effect)
    requires Exact(k) && Public(e)
    ensures Exact(Perform(k, e))
    ensures Rested(k) ==> Rested(Perform(k, e))
  {
    hide SetTaskState, Distinct, InTable;
    match e
    case SetState(i, state, reason) => SetTaskStateExact(k, i, state, reason);
    case Nap(i, ticks) =>
      if 0 <= i < |k.tasks| {
        var k1 := k.(tasks := k.tasks[i := k.tasks[i].(sleep := ticks)]);
        SameTableFits(k.tasks, k1.tasks, k.ready);
        SetTaskStateExact(k1, i, Blocked, OnSleep);
      }
    case Add(priority, entry) =>
      if |k.tasks| < k.cfg.maxTasks {
        var n := |k.tasks|;
        SameTableFits(k.tasks, k.tasks + [NewTcb(n + 1, priority, entry)], k.ready);
        SetTaskStateExact(k.(tasks := k.tasks + [NewTcb(n + 1, priority, entry)]), n, Ready, NoReason);
      }
    case SetTimer(slot, timer) =>
    case SetRegisters(context) =>
  }

  lemma EffectsArePublic(w: World, a: Action)
    ensures forall j :: 0 <= j < |Effects(w, a)| ==> Public(Effects(w, a)[j])
  {
    hide SetFlags, WaitFor;
  }

  /** Every API call, from a task, a callback or the main program, keeps the queue exact. */
  lemma ApplyExact(w: World, a: Action)
    requires Exact(w.k)
    ensures Exact(Apply(w, a).k)
    ensures Rested(w.k) ==> Rested(Apply(w, a).k)
  {
    EffectsArePublic(w, a);
    hide Exact, Perform, Effects, Objects;
    forall k: KernelState, e: Effect | Exact(k) && Public(e)
      ensures Exact(Perform(k, e)) && (Rested(k) ==> Rested(Perform(k, e)))
    {
      PerformExact(k, e);
    }
    PerformAllKeeps(k => Exact(k), e => Public(e), w.k, Effects(w, a));
    if Rested(w.k) {
      PerformAllKeeps(k => Rested(k), e => Public(e), w.k, Effects(w, a));
    }
  }

  // ---------------------------------------------------------------- one cycle

  lemma CountDownRested(k: KernelState, i: nat)
    requires Rested(k) && i < |k.tasks|
    ensures Rested(CountDown(k, i))
  {
    hide SetTaskState;
    var left := k.tasks[i].sleep - 1;
    SetTaskStateExact(k.(tasks := k.tasks[i := k.tasks[i].(sleep := left)]), i, Ready, NoReason);
  }

  lemma {:induction false} SleepPassRested(k: KernelState, i: nat)
    requires Rested(k)
    ensures Rested(SleepPass(k, i))
    decreases |k.tasks| - i
  {
    hide Rested, CountDown;
    if i < |k.tasks| {
      CountDownRested(k, i);
      SleepPassRested(CountDown(k, i), i + 1);
    }
  }

  /** At the decision the queue is still exact, and the eviction has nothing to evict. */
  lemma AtDecisionRested(w: World, callbacks: seq<seq<Action>>)
    requires Rested(w.k)
    ensures Rested(AtDecision(w, callbacks).k)
    ensures AtDecision(w, callbacks) == SoftPass(Wake(w), callbacks, 0)
  {
    hide SleepPass, SoftPass, CallbacksOk, Rested, ReadyOnly;
    assert Rested(w.k.(tick := w.k.tick + 1)) by { NextTickRested(w.k); }
    SleepPassRested(w.k.(tick := w.k.tick + 1), 0);
    CallbacksRested(Wake(w), callbacks);
    NothingToEvict(SoftPass(Wake(w), callbacks, 0).k);
  }

  lemma NextTickRested(k: KernelState)
    requires Rested(k)
    ensures Rested(k.(tick := k.tick + 1))
  {
    hide Distinct, InTable;
  }

  /** Timer callbacks, whatever they do, keep the queue exact and nobody RUNNING. */
  lemma CallbacksRested(w: World, callbacks: seq<seq<Action>>)
    requires Rested(w.k)
    ensures Rested(SoftPass(w, callbacks, 0).k)
  {
    hide Rested, SoftPass, CallbacksOk, Apply;
    var P := (x: World) => Rested(x.k);
    forall x: World, a: Action | P(x) ensures P(Apply(x, a)) {
      assert Exact(x.k) by { RestedIsExact(x.k); }
      ApplyExact(x, a);
    }
    forall x: World, slot: nat, t: SoftTimer | P(x) && slot < |x.k.timers| ensures P(WithTimer(x, slot, t)) {
      TimersDoNotMatter(x.k, x.k.timers[slot := t]);
    }
    AnyCallbacksAreOk(w, callbacks, 0);
    SoftPassKeeps(P, Anything(), w, callbacks, 0);
  }

  lemma TimersDoNotMatter(k: KernelState, timers: seq<SoftTimer>)
    requires Rested(k)
    ensures Rested(k.(timers := timers))
  {
    hide Distinct, InTable;
  }

  lemma RestedIsExact(k: KernelState)
    requires Rested(k)
    ensures Exact(k)
  {
  }

  lemma NothingToEvict(k: KernelState)
    requires Rested(k)
    ensures Evict(k) == k
  {
    ReadyOnlyIdentity(k.tasks, k.ready);
  }

  /** The decision, read off the task table. */
  lemma DecideFromTable(k: KernelState)
    requires Rested(k)
    ensures Decide(k) == Idle <==> forall i :: 0 <= i < |k.tasks| ==> k.tasks[i].state != Ready
    ensures Decide(k) != Idle ==>
              var t := Dispatch(k).current;
              && 0 <= t < |k.tasks| && k.tasks[t].state == Ready
              && forall i :: 0 <= i < |k.tasks| && k.tasks[i].state == Ready ==>
                               k.tasks[i].priority <= k.tasks[t].priority
  {
    hide SetTaskState, Dispatch;
    if k.ready != [] {
      assert k.ready[0] in k.ready;
      var p := BestIsFirstMaximum(k.tasks, k.ready);
    }
  }

  /** The dispatched task, and only it, is RUNNING when its function is called. */
  lemma DispatchExact(k: KernelState)
    requires Rested(k) && Decide(k) != Idle
    ensures Exact(Dispatch(k)) && Dispatch(k).HasCurrent()
    ensures Dispatch(k).tasks[Dispatch(k).current].state == Running
    ensures Dispatch(k).ready == Remove(k.ready, Dispatch(k).current)
  {
    hide BestOf;
    match Decide(k)
    case Switch(next, requeue) =>
      assert Requeue(k) == k;
      SwitchExact(k, next);
    case Continue =>
      var k1 := k.(tasks := k.tasks[k.current := k.tasks[k.current].(slice := k.tasks[k.current].slice + 1)]);
      SetNotReady(k1, k.current, Running, NoReason);
  }

  /** What a switch changes: the queue loses the incoming task once, which becomes the RUNNING current task. */
  lemma SwitchShape(k: KernelState, next: int)
    requires Rested(k) && 0 <= next < |k.tasks|
    ensures var k' := SwitchTo(k, next);
            && k'.cfg == k.cfg && k'.current == next && |k'.tasks| == |k.tasks|
            && k'.ready == Remove(k.ready, next)
            && k'.tasks[next].state == Running
            && (forall i :: 0 <= i < |k.tasks| ==> k'.tasks[i].id == k.tasks[i].id)
            && (forall i :: 0 <= i < |k.tasks| && i != next ==> k'.tasks[i].state == k.tasks[i].state)
  {
    RemoveMembers(k.ready, next);
    RemoveAbsent(Remove(k.ready, next), next);
    hide Remove, Distinct, InTable;
  }

  lemma SwitchExact(k: KernelState, next: int)
    requires Rested(k) && 0 <= next < |k.tasks|
    ensures Exact(SwitchTo(k, next))
    ensures SwitchTo(k, next).tasks[next].state == Running
    ensures SwitchTo(k, next).ready == Remove(k.ready, next)
  {
    SwitchShape(k, next);
    RemoveMembers(k.ready, next);
    hide Remove, Distinct, SwitchTo;
  }

  /** The dispatch leaves a task that is not READY as it is, apart from its saved registers and its slice count. */
  lemma DispatchLeaves(k: KernelState, i: int)
    requires Rested(k) && 0 <= i < |k.tasks| && k.tasks[i].state != Ready
    ensures var k' := Dispatch(k);
            && i < |k'.tasks| && k'.tick == k.tick
            && k'.tasks[i] == k.tasks[i].(context := k'.tasks[i].context, slice := k'.tasks[i].slice)
            && (Decide(k) != Idle ==> k'.current != i)
  {
    DecideFromTable(k);
    match Decide(k)
    case Idle =>
    case Continue =>
      hide BestOf, Remove;
    case Switch(next, requeue) =>
      assert Requeue(k) == k;
      hide BestOf, Decide, Requeue, Exact;
      SwitchLeaves(k, next, i);
  }

  lemma SwitchLeaves(k: KernelState, next: nat, i: nat)
    requires next < |k.tasks| && i < |k.tasks| && i != next
    ensures var k' := SwitchTo(k, next);
            && i < |k'.tasks| && k'.tick == k.tick
            && k'.tasks[i] == k.tasks[i].(context := k'.tasks[i].context)
  {
    hide Remove;
  }

  lemma DispatchKeepsTimers(k: KernelState)
    requires InTable(k.tasks, k.ready)
    ensures Dispatch(k).timers == k.timers
  {
    hide BestOf, Remove;
  }

  lemma CycleRested(w: World, s: TickScript)
    requires Rested(w.k)
    ensures Rested(Cycle(w, s).k)
  {
    AtDecisionRested(w, s.callbacks);
    var d := AtDecision(w, s.callbacks);
    if Decide(d.k) != Idle {
      DispatchExact(d.k);
      BodyExact(Begin(d), s.body);
    }
  }

  /** The body and the return of the task function. */
  lemma BodyExact(w: World, body: seq<Action>)
    requires Exact(w.k)
    ensures Exact(ApplyAll(w, body).k)
    ensures Rested(End(ApplyAll(w, body)).k)
  {
    var P := (x: World) => Exact(x.k);
    forall x: World, a: Action | P(x) ensures P(Apply(x, a)) {
      ApplyExact(x, a);
    }
    AnythingIsOk(w, body);
    ApplyAllKeeps(P, Anything(), w, body);
    var k := ApplyAll(w, body).k;
    if k.HasCurrent() && k.tasks[k.current].state == Running {
      SetReady(k, k.current, NoReason);
    }
  }

  // ---------------------------------------------------------------- every run

  /** Ready-queue exactness: at every loop head of every run, for every script. */
  lemma {:induction false} RunRested(w: World, steps: seq<Step>)
    requires Rested(w.k)
    ensures Rested(Run(w, steps).k)
    decreases |steps|
  {
    if steps != [] {
      match steps[0]
      case Tick(s) =>
        CycleRested(w, s);
        RunRested(Cycle(w, s), steps[1..]);
      case Call(a) =>
        ApplyExact(w, a);
        RunRested(Apply(w, a), steps[1..]);
    }
  }

  /** Every theorem about rested kernels applies from initialisation on. */
  lemma InitialIsRested(w: World)
    requires Initial(w)
    ensures Rested(w.k)
  {
  }

  lemma ReadyQueueIsExact(w: World, steps: seq<Step>)
    requires Initial(w)
    ensures Rested(Run(w, steps).k)
  {
    RunRested(w, steps);
  }

  /** The task a cycle runs, or -1 when it idles. */
  function Runner(w: World, s: TickScript): int {
    var d := AtDecision(w, s.callbacks);
    if Decide(d.k) == Idle then -1 else Dispatch(d.k).current
  }

  /**
   * On every tick of every run, the cycle idles exactly when no task is READY after timer processing; otherwise the
   * task it runs was READY and of maximum priority among the READY tasks. The history ends with that task returning.
   */
  lemma HighestPriorityRuns(w: World, steps: seq<Step>, s: TickScript)
    requires Initial(w)
    ensures var w1 := Run(w, steps);
            var k := AtDecision(w1, s.callbacks).k;
            var t := Runner(w1, s);
            && (t == -1 <==> forall i :: 0 <= i < |k.tasks| ==> k.tasks[i].state != Ready)
            && (t != -1 ==>
                  && 0 <= t < |k.tasks| && k.tasks[t].state == Ready
                  && (forall i :: 0 <= i < |k.tasks| && k.tasks[i].state == Ready ==>
                                    k.tasks[i].priority <= k.tasks[t].priority))
            && Cycle(w1, s).log.Then?
            && (if t == -1 then Cycle(w1, s).log.event == Idled
                else Cycle(w1, s).log.event.Finished? && Cycle(w1, s).log.event.task == t)
  {
    hide Run, Rested, AtDecision, Decide, Dispatch, ApplyAll, Initial;
    var w1 := Run(w, steps);
    ReadyQueueIsExact(w, steps);
    AtDecisionRested(w1, s.callbacks);
    var d := AtDecision(w1, s.callbacks);
    DecideFromTable(d.k);
    if Decide(d.k) != Idle {
      ApplyAllFrame(Begin(d), s.body);
    }
  }
}
