/**
 * Induction over runs. A property of kernels is carried through an API call by its elementary effects, a property
 * of worlds through callbacks, task bodies, scheduler cycles and whole runs.
 */
module RunInduction {
  import opened KernelTypes
  import opened Sequences
  import opened ReadyQueues
  import opened KernelStates
  import opened Worlds

  lemma {:induction false} PerformAllKeeps(
      P: KernelState -> bool, E: Effect -> bool, k: KernelState, es: seq<Effect>)
    requires forall x: KernelState, e: Effect :: P(x) && E(e) ==> P(Perform(x, e))
    requires P(k)
    requires forall j :: 0 <= j < |es| ==> E(es[j])
    ensures P(PerformAll(k, es))
    decreases |es|
  {
    if es != [] {
      PerformAllKeeps(P, E, Perform(k, es[0]), es[1..]);
    }
  }

  /** Every call of the script is allowed in the state it is made in. */
  ghost predicate AllOk(ok: (World, Action) -> bool, w: World, acts: seq<Action>)
    decreases |acts|
  {
    acts != [] ==> ok(w, acts[0]) && AllOk(ok, Apply(w, acts[0]), acts[1..])
  }

  /** Every call made by a timer callback, from the given slot on, is allowed. */
  ghost predicate CallbacksOk(ok: (World, Action) -> bool, w: World, callbacks: seq<seq<Action>>, slot: nat)
    decreases |w.k.timers| - slot
  {
    slot < |w.k.timers| ==>
      && (Fires(w, slot) ==> AllOk(ok, CountSlot(w, slot), CallbackOf(callbacks, slot)))
      && CallbacksOk(ok, SoftSlot(w, CallbackOf(callbacks, slot), slot), callbacks, slot + 1)
  }

  /** Every call made during one scheduler cycle is allowed, `ok` for callbacks and `bodyOk` for the task. */
  ghost predicate TickOk(
      ok: (World, Action) -> bool, bodyOk: (World, Action) -> bool, w: World, s: TickScript)
  {
    && CallbacksOk(ok, Wake(w), s.callbacks, 0)
    && var d := AtDecision(w, s.callbacks);
       Decide(d.k) != Idle ==> AllOk(bodyOk, Begin(d), s.body)
  }

  lemma {:induction false} ApplyAllKeeps(
      P: World -> bool, ok: (World, Action) -> bool, w: World, acts: seq<Action>)
    requires forall x: World, a: Action :: P(x) && ok(x, a) ==> P(Apply(x, a))
    requires P(w) && AllOk(ok, w, acts)
    ensures P(ApplyAll(w, acts))
    decreases |acts|
  {
    if acts != [] {
      ApplyAllKeeps(P, ok, Apply(w, acts[0]), acts[1..]);
    }
  }

  /** Every call made during one step is allowed, `ok` for callbacks and the main program and `bodyOk` for tasks. */
  ghost predicate StepOk(ok: (World, Action) -> bool, bodyOk: (World, Action) -> bool, w: World, step: Step) {
    match step
    case Tick(s) => TickOk(ok, bodyOk, w, s)
    case Call(a) => ok(w, a)
  }

  ghost predicate StepsOk(ok: (World, Action) -> bool, bodyOk: (World, Action) -> bool, w: World, steps: seq<Step>)
    decreases |steps|
  {
    steps != [] ==> StepOk(ok, bodyOk, w, steps[0]) && StepsOk(ok, bodyOk, Do(w, steps[0]), steps[1..])
  }

  /** P does not look at the timers or at expiry events. */
  ghost predicate IgnoresTimers(P: World -> bool) {
    && (forall x: World, slot: nat, t: SoftTimer :: P(x) && slot < |x.k.timers| ==> P(WithTimer(x, slot, t)))
    && (forall x: World, slot: nat :: P(x) ==> P(x.Log(Fired(slot))))
  }

  lemma {:induction false} SoftPassKeeps(
      P: World -> bool, ok: (World, Action) -> bool, w: World, callbacks: seq<seq<Action>>, slot: nat)
    requires forall x: World, a: Action :: P(x) && ok(x, a) ==> P(Apply(x, a))
    requires IgnoresTimers(P)
    requires P(w) && CallbacksOk(ok, w, callbacks, slot)
    ensures P(SoftPass(w, callbacks, slot))
    decreases |w.k.timers| - slot
  {
    if slot < |w.k.timers| {
      var acts := CallbackOf(callbacks, slot);
      if w.k.timers[slot].inUse && w.k.timers[slot].active {
        assert P(WithTimer(w, slot, CountSlot(w, slot).k.timers[slot]));
      }
      if Fires(w, slot) {
        ApplyAllKeeps(P, ok, CountSlot(w, slot), acts);
        ApplyAllFrame(CountSlot(w, slot), acts);
      }
      SoftPassKeeps(P, ok, SoftSlot(w, acts, slot), callbacks, slot + 1);
    }
  }

  // ---------------------------------------------------------------- the scheduler's own moves

  /** No new task and no newly blocked task. */
  ghost predicate Shrinks(k: KernelState, k': KernelState) {
    && |k'.tasks| == |k.tasks|
    && k'.cfg == k.cfg
    && (forall i :: 0 <= i < |k.tasks| ==>
          && k'.tasks[i].id == k.tasks[i].id
          && (k'.tasks[i].state == Blocked ==>
                k.tasks[i].state == Blocked && k.tasks[i].reason == k'.tasks[i].reason))
  }

  predicate IsSchedulerEvent(e: Event) {
    e.Fired? || e.Started? || e.Finished? || e.Idled?
  }

  /** What the scheduler and timers do by themselves: the objects stay, no task is blocked. */
  ghost predicate Internal(w: World, w': World) {
    && Shrinks(w.k, w'.k)
    && w'.sems == w.sems && w'.mutexes == w.mutexes && w'.queues == w.queues && w'.groups == w.groups
    && (w'.log == w.log || (w'.log.Then? && w'.log.past == w.log && IsSchedulerEvent(w'.log.event)))
  }

  lemma SetTaskStateShrinks(k: KernelState, i: int, state: TaskState, reason: BlockReason)
    requires state != Blocked
    ensures Shrinks(k, SetTaskState(k, i, state, reason))
  {
  }

  lemma {:induction false} SleepPassShrinks(k: KernelState, i: nat)
    ensures Shrinks(k, SleepPass(k, i))
    decreases |k.tasks| - i
  {
    if i < |k.tasks| {
      var left := k.tasks[i].sleep - 1;
      SetTaskStateShrinks(k.(tasks := k.tasks[i := k.tasks[i].(sleep := left)]), i, Ready, NoReason);
      SleepPassShrinks(CountDown(k, i), i + 1);
    }
  }

  lemma DispatchShrinks(k: KernelState)
    requires InTable(k.tasks, k.ready)
    ensures Shrinks(k, Dispatch(k))
  {
    hide SetTaskState, BestOf, Remove;
    match Decide(k)
    case Idle =>
    case Switch(next, requeue) =>
      var k1 := if requeue then Requeue(k) else k;
      SetTaskStateShrinks(k, k.current, Ready, NoReason);
      var k2 := LoadContext(k1.(ready := Remove(k1.ready, next)), next);
      var k3 := k2.(current := next, tasks := k2.tasks[next := k2.tasks[next].(slice := 1)]);
      assert Shrinks(k1, k3);
      SetTaskStateShrinks(k3, next, Running, NoReason);
    case Continue =>
      var c := k.tasks[k.current];
      SetTaskStateShrinks(
        k.(tasks := k.tasks[k.current := c.(slice := c.slice + 1)]), k.current, Running, NoReason);
  }

  ghost predicate RespectsInternal(P: World -> bool) {
    forall w: World, w': World :: P(w) && Internal(w, w') ==> P(w')
  }

  /** Allowed calls and the scheduler's own moves keep P. */
  ghost predicate Guarded(P: World -> bool, ok: (World, Action) -> bool) {
    && (forall w: World, a: Action :: P(w) && ok(w, a) ==> P(Apply(w, a)))
    && RespectsInternal(P)
  }

  ghost function Anything(): (World, Action) -> bool {
    (w: World, a: Action) => true
  }

  lemma {:induction false} AnythingIsOk(w: World, acts: seq<Action>)
    ensures AllOk(Anything(), w, acts)
    decreases |acts|
  {
    if acts != [] {
      AnythingIsOk(Apply(w, acts[0]), acts[1..]);
    }
  }

  lemma {:induction false} AnyCallbacksAreOk(w: World, callbacks: seq<seq<Action>>, slot: nat)
    ensures CallbacksOk(Anything(), w, callbacks, slot)
    decreases |w.k.timers| - slot
  {
    if slot < |w.k.timers| {
      AnythingIsOk(CountSlot(w, slot), CallbackOf(callbacks, slot));
      AnyCallbacksAreOk(SoftSlot(w, CallbackOf(callbacks, slot), slot), callbacks, slot + 1);
    }
  }

  lemma AnythingGoesInATick(w: World, s: TickScript)
    ensures TickOk(Anything(), Anything(), w, s)
  {
    AnyCallbacksAreOk(Wake(w), s.callbacks, 0);
    var d := AtDecision(w, s.callbacks);
    if Decide(d.k) != Idle {
      AnythingIsOk(Begin(d), s.body);
    }
  }

  lemma {:induction false} AnythingGoes(w: World, steps: seq<Step>)
    ensures StepsOk(Anything(), Anything(), w, steps)
    decreases |steps|
  {
    hide Do;
    if steps != [] {
      if steps[0].Tick? {
        AnythingGoesInATick(w, steps[0].script);
      }
      AnythingGoes(Do(w, steps[0]), steps[1..]);
    }
  }

  lemma InternalIgnoresTimers(P: World -> bool)
    requires RespectsInternal(P)
    ensures IgnoresTimers(P)
  {
    forall x: World, slot: nat, t: SoftTimer | P(x) && slot < |x.k.timers| ensures P(WithTimer(x, slot, t)) {
      assert Internal(x, WithTimer(x, slot, t));
    }
    forall x: World, slot: nat | P(x) ensures P(x.Log(Fired(slot))) {
      assert Internal(x, x.Log(Fired(slot)));
    }
  }

  lemma WakeIsInternal(w: World)
    ensures Internal(w, Wake(w))
  {
    SleepPassShrinks(w.k.(tick := w.k.tick + 1), 0);
  }

  lemma BeginIsInternal(d: World)
    requires InTable(d.k.tasks, d.k.ready)
    ensures Internal(d, Begin(d))
  {
    hide Dispatch, Decide;
    DispatchShrinks(d.k);
  }

  lemma EndIsInternal(w: World)
    ensures Internal(w, End(w))
  {
    SetTaskStateShrinks(w.k, w.k.current, Ready, NoReason);
  }

  /** An invariant of the allowed calls that the scheduler's own moves respect survives to the decision ... */
  lemma AtDecisionKeeps(
      P: World -> bool, ok: (World, Action) -> bool, w: World, callbacks: seq<seq<Action>>)
    requires Guarded(P, ok) && P(w) && CallbacksOk(ok, Wake(w), callbacks, 0)
    ensures P(AtDecision(w, callbacks))
  {
    WakeIsInternal(w);
    InternalIgnoresTimers(P);
    SoftPassKeeps(P, ok, Wake(w), callbacks, 0);
    assert Internal(SoftPass(Wake(w), callbacks, 0), AtDecision(w, callbacks));
  }

  /** ... and through the cycle. */
  lemma CycleKeeps(P: World -> bool, ok: (World, Action) -> bool, w: World, s: TickScript)
    requires Guarded(P, ok) && P(w) && TickOk(ok, ok, w, s)
    ensures P(Cycle(w, s))
  {
    AtDecisionKeeps(P, ok, w, s.callbacks);
    var d := AtDecision(w, s.callbacks);
    BeginIsInternal(d);
    if Decide(d.k) != Idle {
      ApplyAllKeeps(P, ok, Begin(d), s.body);
      EndIsInternal(ApplyAll(Begin(d), s.body));
    }
  }

  /** Such an invariant holds after every run in which all calls are allowed. */
  lemma {:induction false} GuardedRunKeeps(
      P: World -> bool, ok: (World, Action) -> bool, w: World, steps: seq<Step>)
    requires Guarded(P, ok) && P(w) && StepsOk(ok, ok, w, steps)
    ensures P(Run(w, steps))
    decreases |steps|
  {
    if steps != [] {
      match steps[0]
      case Tick(s) =>
        CycleKeeps(P, ok, w, s);
        GuardedRunKeeps(P, ok, Cycle(w, s), steps[1..]);
      case Call(a) =>
        GuardedRunKeeps(P, ok, Apply(w, a), steps[1..]);
    }
  }

  /** If every call keeps P, so does every run. */
  lemma RunKeeps(P: World -> bool, w: World, steps: seq<Step>)
    requires Guarded(P, Anything()) && P(w)
    ensures P(Run(w, steps))
  {
    AnythingGoes(w, steps);
    GuardedRunKeeps(P, Anything(), w, steps);
  }

  // ---------------------------------------------------------------- two guards that agree

  /** Where P holds the guards allow the same calls, and those keep P. */
  ghost predicate Agree(P: World -> bool, ok: (World, Action) -> bool, ok': (World, Action) -> bool) {
    && Guarded(P, ok)
    && forall w: World, a: Action :: P(w) ==> (ok(w, a) <==> ok'(w, a))
  }

  lemma {:induction false} SameCalls(
      P: World -> bool, ok: (World, Action) -> bool, ok': (World, Action) -> bool, w: World, acts: seq<Action>)
    requires Agree(P, ok, ok') && P(w)
    ensures AllOk(ok, w, acts) <==> AllOk(ok', w, acts)
    decreases |acts|
  {
    hide Apply;
    if acts != [] && ok(w, acts[0]) {
      SameCalls(P, ok, ok', Apply(w, acts[0]), acts[1..]);
    }
  }

  lemma {:induction false} SameCallbacks(
      P: World -> bool, ok: (World, Action) -> bool, ok': (World, Action) -> bool, w: World,
      callbacks: seq<seq<Action>>, slot: nat)
    requires Agree(P, ok, ok') && P(w)
    ensures CallbacksOk(ok, w, callbacks, slot) <==> CallbacksOk(ok', w, callbacks, slot)
    decreases |w.k.timers| - slot
  {
    if slot < |w.k.timers| {
      var acts := CallbackOf(callbacks, slot);
      InternalIgnoresTimers(P);
      CountKeeps(P, w, slot);
      if Fires(w, slot) {
        SameCalls(P, ok, ok', CountSlot(w, slot), acts);
      }
      if Fires(w, slot) ==> AllOk(ok, CountSlot(w, slot), acts) {
        SlotKeeps(P, ok, w, acts, slot);
        hide SoftSlot, CountSlot, Fires, AllOk;
        SameCallbacks(P, ok, ok', SoftSlot(w, acts, slot), callbacks, slot + 1);
      }
    }
  }

  lemma CountKeeps(P: World -> bool, w: World, slot: nat)
    requires IgnoresTimers(P) && P(w) && slot < |w.k.timers|
    ensures P(CountSlot(w, slot))
  {
    if w.k.timers[slot].inUse && w.k.timers[slot].active {
      assert P(WithTimer(w, slot, CountSlot(w, slot).k.timers[slot]));
    }
  }

  lemma SlotKeeps(P: World -> bool, ok: (World, Action) -> bool, w: World, acts: seq<Action>, slot: nat)
    requires Guarded(P, ok) && P(w) && slot < |w.k.timers|
    requires Fires(w, slot) ==> AllOk(ok, CountSlot(w, slot), acts)
    ensures P(SoftSlot(w, acts, slot))
  {
    InternalIgnoresTimers(P);
    CountKeeps(P, w, slot);
    if Fires(w, slot) {
      ApplyAllKeeps(P, ok, CountSlot(w, slot), acts);
      ApplyAllFrame(CountSlot(w, slot), acts);
    }
  }

  lemma SameTick(
      P: World -> bool, ok: (World, Action) -> bool, ok': (World, Action) -> bool, w: World, s: TickScript)
    requires Agree(P, ok, ok') && P(w)
    ensures TickOk(ok, ok, w, s) <==> TickOk(ok', ok', w, s)
  {
    WakeIsInternal(w);
    SameCallbacks(P, ok, ok', Wake(w), s.callbacks, 0);
    if CallbacksOk(ok, Wake(w), s.callbacks, 0) {
      AtDecisionKeeps(P, ok, w, s.callbacks);
      var d := AtDecision(w, s.callbacks);
      hide AtDecision, CallbacksOk, Wake;
      BeginIsInternal(d);
      if Decide(d.k) != Idle {
        SameCalls(P, ok, ok', Begin(d), s.body);
      }
    }
  }

  /** From a state where P holds, the guards allow the same runs. */
  lemma {:induction false} SameRuns(
      P: World -> bool, ok: (World, Action) -> bool, ok': (World, Action) -> bool, w: World, steps: seq<Step>)
    requires Agree(P, ok, ok') && P(w)
    ensures StepsOk(ok, ok, w, steps) <==> StepsOk(ok', ok', w, steps)
    decreases |steps|
  {
    hide TickOk, Cycle, Apply;
    if steps != [] {
      match steps[0]
      case Tick(s) =>
        SameTick(P, ok, ok', w, s);
        if TickOk(ok, ok, w, s) {
          CycleKeeps(P, ok, w, s);
          SameRuns(P, ok, ok', Cycle(w, s), steps[1..]);
        }
      case Call(a) =>
        if ok(w, a) {
          SameRuns(P, ok, ok', Apply(w, a), steps[1..]);
        }
    }
  }

  // ---------------------------------------------------------------- calls that leave a task alone

  predicate TargetsTask(e: Effect, t: int) {
    match e
    case SetState(i, _, _) => i == t
    case Nap(i, _) => i == t
    case _ => false
  }

  ghost predicate LeavesAlone(w: World, a: Action, t: int) {
    forall j :: 0 <= j < |Effects(w, a)| ==> !TargetsTask(Effects(w, a)[j], t)
  }

  /** Nobody blocks, suspends, resumes or re-readies task t. */
  ghost function Sparing(t: int): (World, Action) -> bool {
    (w: World, a: Action) => LeavesAlone(w, a, t)
  }

  lemma {:induction false} ApplyAllConcat(w: World, a: seq<Action>, b: seq<Action>)
    ensures ApplyAll(w, a + b) == ApplyAll(ApplyAll(w, a), b)
    decreases |a|
  {
    if a == [] {
      assert a + b == b;
    } else {
      assert (a + b)[1..] == a[1..] + b;
      ApplyAllConcat(Apply(w, a[0]), a[1..], b);
    }
  }
}
