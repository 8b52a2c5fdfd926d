/** The per-tick sleep countdown refines an absolute wake-up time. */
module SleepDeadlines {
  import opened KernelTypes
  import opened Sequences
  import opened KernelStates
  import opened Worlds
  import opened RunInduction
  import opened Scheduling

  predicate Sleeping(k: KernelState, i: int) {
    0 <= i < |k.tasks| && WaitsFor(k.tasks[i], OnSleep)
  }

  function AtLeastOne(n: int): int {
    if n < 1 then 1 else n
  }

  /** The tick whose sleep pass wakes a sleeping task. */
  function WakeTick(k: KernelState, i: int): int
    requires Sleeping(k, i)
  {
    k.tick + AtLeastOne(k.tasks[i].sleep)
  }

  /** Task i sleeps with the given remaining count at the given tick. */
  ghost predicate SleepsWith(k: KernelState, i: int, left: int, tick: nat) {
    Sleeping(k, i) && k.tasks[i].sleep == left && k.tick == tick
  }

  lemma PerformSpares(k: KernelState, e: Effect, i: int)
    requires 0 <= i < |k.tasks| && !TargetsTask(e, i)
    ensures i < |Perform(k, e).tasks| && Perform(k, e).tasks[i] == k.tasks[i] && Perform(k, e).tick == k.tick
  {
    hide Remove;
  }

  lemma ApplySpares(w: World, a: Action, i: int, left: int, tick: nat)
    requires SleepsWith(w.k, i, left, tick) && LeavesAlone(w, a, i)
    ensures SleepsWith(Apply(w, a).k, i, left, tick)
  {
    hide Perform, Effects, Objects;
    forall k: KernelState, e: Effect | SleepsWith(k, i, left, tick) && !TargetsTask(e, i)
      ensures SleepsWith(Perform(k, e), i, left, tick)
    {
      PerformSpares(k, e, i);
    }
    PerformAllKeeps(k => SleepsWith(k, i, left, tick), e => !TargetsTask(e, i), w.k, Effects(w, a));
  }

  lemma BodySpares(w: World, acts: seq<Action>, i: int, left: int, tick: nat)
    requires SleepsWith(w.k, i, left, tick) && AllOk(Sparing(i), w, acts)
    ensures SleepsWith(ApplyAll(w, acts).k, i, left, tick)
  {
    var P := (x: World) => SleepsWith(x.k, i, left, tick);
    forall x: World, a: Action | P(x) && Sparing(i)(x, a) ensures P(Apply(x, a)) {
      ApplySpares(x, a, i, left, tick);
    }
    ApplyAllKeeps(P, Sparing(i), w, acts);
  }

  lemma CallbacksSpare(w: World, callbacks: seq<seq<Action>>, i: int, left: int, tick: nat)
    requires SleepsWith(w.k, i, left, tick) && CallbacksOk(Sparing(i), w, callbacks, 0)
    ensures SleepsWith(SoftPass(w, callbacks, 0).k, i, left, tick)
  {
    var P := (x: World) => SleepsWith(x.k, i, left, tick);
    forall x: World, a: Action | P(x) && Sparing(i)(x, a) ensures P(Apply(x, a)) {
      ApplySpares(x, a, i, left, tick);
    }
    SoftPassKeeps(P, Sparing(i), w, callbacks, 0);
  }

  /** The sleep loop visits task i once; the other iterations leave its block alone. */
  lemma {:induction false} SleepPassAt(k: KernelState, j: nat, i: nat)
    requires i < |k.tasks|
    ensures SleepPass(k, j).tick == k.tick
    ensures SleepPass(k, j).tasks[i] == if j <= i then CountDown(k, i).tasks[i] else k.tasks[i]
    decreases |k.tasks| - j
  {
    if j < |k.tasks| {
      SleepPassAt(CountDown(k, j), j + 1, i);
      CountDownFrame(k, j, i);
    }
  }

  lemma CountDownFrame(k: KernelState, j: nat, i: nat)
    requires j < |k.tasks| && i < |k.tasks|
    ensures CountDown(k, j).tick == k.tick
    ensures i != j ==> CountDown(k, j).tasks[i] == k.tasks[i]
    ensures i != j ==> CountDown(CountDown(k, j), i).tasks[i] == CountDown(k, i).tasks[i]
  {
    hide Remove;
  }

  /** The sleep pass of the next tick wakes the task exactly when that tick is its wake-up tick. */
  lemma WakeIffDue(w: World, i: int)
    requires Sleeping(w.k, i)
    ensures var k := Wake(w).k;
            && k.tick == w.k.tick + 1
            && i < |k.tasks|
            && (k.tasks[i].state == Ready <==> k.tick == WakeTick(w.k, i))
            && (k.tick != WakeTick(w.k, i) ==> SleepsWith(k, i, w.k.tasks[i].sleep - 1, k.tick)
                                               && WakeTick(k, i) == WakeTick(w.k, i))
  {
    SleepPassAt(w.k.(tick := w.k.tick + 1), 0, i);
    hide Remove;
  }

  /** Neither the dispatch nor the return of a task function touches a task that is not READY. */
  lemma DispatchSparesSleeper(k: KernelState, i: int, left: int, tick: nat)
    requires Rested(k) && SleepsWith(k, i, left, tick)
    ensures SleepsWith(Dispatch(k), i, left, tick)
    ensures Decide(k) != Idle ==> Dispatch(k).current != i
  {
    hide Dispatch, Decide, Rested;
    DispatchLeaves(k, i);
  }

  /** A tick that spares a sleeping task either wakes it on time or leaves its wake-up tick unchanged. */
  lemma TickSparesSleeper(w: World, s: TickScript, i: int)
    requires Rested(w.k) && Sleeping(w.k, i) && w.k.tick + 1 < WakeTick(w.k, i)
    requires TickOk(Sparing(i), Sparing(i), w, s)
    ensures var k := Cycle(w, s).k;
            Sleeping(k, i) && k.tick == w.k.tick + 1 && WakeTick(k, i) == WakeTick(w.k, i)
  {
    WakeIffDue(w, i);
    var left, tick := w.k.tasks[i].sleep - 1, w.k.tick + 1;
    CallbacksSpare(Wake(w), s.callbacks, i, left, tick);
    AtDecisionRested(w, s.callbacks);
    var d := AtDecision(w, s.callbacks);
    DispatchSparesSleeper(d.k, i, left, tick);
    if Decide(d.k) != Idle {
      BodySpares(Begin(d), s.body, i, left, tick);
      ApplyAllFrame(Begin(d), s.body);
      EndSpares(ApplyAll(Begin(d), s.body), i, left, tick);
    }
  }

  lemma EndSpares(w: World, i: int, left: int, tick: nat)
    requires SleepsWith(w.k, i, left, tick)
    ensures SleepsWith(End(w).k, i, left, tick)
  {
  }

  // ---------------------------------------------------------------- whole runs

  function TicksOf(step: Step): nat {
    if step.Tick? then 1 else 0
  }

  function Ticks(steps: seq<Step>): nat {
    if steps == [] then 0 else TicksOf(steps[0]) + Ticks(steps[1..])
  }

  lemma StepSparesSleeper(w: World, step: Step, i: int)
    requires Rested(w.k) && Sleeping(w.k, i)
    requires StepOk(Sparing(i), Sparing(i), w, step) && w.k.tick + TicksOf(step) < WakeTick(w.k, i)
    ensures var k := Do(w, step).k;
            && Rested(k) && Sleeping(k, i)
            && k.tick == w.k.tick + TicksOf(step)
            && WakeTick(k, i) == WakeTick(w.k, i)
  {
    match step
    case Tick(s) =>
      TickSparesSleeper(w, s, i);
      CycleRested(w, s);
    case Call(a) =>
      ApplySpares(w, a, i, w.k.tasks[i].sleep, w.k.tick);
      ApplyExact(w, a);
  }

  /** However the other tasks interleave, a spared sleeper stays blocked until its wake-up tick ... */
  lemma {:induction false} SleepsUntilDue(w: World, steps: seq<Step>, i: int)
    requires Rested(w.k) && Sleeping(w.k, i)
    requires StepsOk(Sparing(i), Sparing(i), w, steps) && w.k.tick + Ticks(steps) < WakeTick(w.k, i)
    ensures var k := Run(w, steps).k;
            && Rested(k) && Sleeping(k, i)
            && k.tick == w.k.tick + Ticks(steps)
            && WakeTick(k, i) == WakeTick(w.k, i)
    decreases |steps|
  {
    hide Rested, Sleeping, Do, StepOk;
    if steps != [] {
      StepSparesSleeper(w, steps[0], i);
      SleepsUntilDue(Do(w, steps[0]), steps[1..], i);
    }
  }

  /** `rtos_task_sleep(n)` in tick t sets the wake-up tick to t + max(1, n). */
  lemma SleepSetsWakeTick(w: World, n: int)
    requires w.k.HasCurrent()
    ensures var k := Apply(w, Action.Sleep(n)).k;
            Sleeping(k, w.k.current) && WakeTick(k, w.k.current) == w.k.tick + AtLeastOne(n)
  {
    hide Remove;
    var e := Nap(w.k.current, n);
    PerformOne(w.k, e);
  }

  /** A cycle whose task sleeps n somewhere in its body and is then left alone. */
  lemma CycleSleeps(w: World, callbacks: seq<seq<Action>>, pre: seq<Action>, n: int, post: seq<Action>)
    requires Rested(w.k)
    requires var i := Runner(w, TickScript(callbacks, pre + [Action.Sleep(n)] + post));
             && i != -1
             && AllOk(Sparing(i), ApplyAll(Begin(AtDecision(w, callbacks)), pre + [Action.Sleep(n)]), post)
    ensures var s := TickScript(callbacks, pre + [Action.Sleep(n)] + post);
            var k := Cycle(w, s).k;
            && Sleeping(k, Runner(w, s)) && k.tick == w.k.tick + 1
            && WakeTick(k, Runner(w, s)) == k.tick + AtLeastOne(n)
  {
    hide Rested, Exact, AllOk, ApplyAll, End;
    var d := AtDecision(w, callbacks);
    AtDecisionRested(w, callbacks);
    TickAdvances(w, callbacks);
    hide AtDecision;
    DispatchExact(d.k);
    hide Dispatch, Decide;
    var b := Begin(d);
    ApplyAllConcat(b, pre, [Action.Sleep(n)]);
    ApplyAllConcat(b, pre + [Action.Sleep(n)], post);
    ApplyAllFrame(b, pre);
    SleepCall(ApplyAll(b, pre), n);
    var asleep := ApplyAll(b, pre + [Action.Sleep(n)]);
    ApplyAllFrame(b, pre + [Action.Sleep(n)]);
    BodySpares(asleep, post, b.k.current, asleep.k.tasks[b.k.current].sleep, asleep.k.tick);
    EndSpares(ApplyAll(asleep, post), b.k.current, asleep.k.tasks[b.k.current].sleep, asleep.k.tick);
  }

  lemma SleepCall(w: World, n: int)
    requires w.k.HasCurrent()
    ensures var k := ApplyAll(w, [Action.Sleep(n)]).k;
            Sleeping(k, w.k.current) && WakeTick(k, w.k.current) == w.k.tick + AtLeastOne(n)
  {
    SleepSetsWakeTick(w, n);
    hide Apply;
    assert ApplyAll(w, [Action.Sleep(n)]) == Apply(w, Action.Sleep(n));
  }

  /**
   * A task calls `rtos_task_sleep(n)` anywhere in its body, in tick t of any run; afterwards nobody touches it.
   * After any further run of fewer than max(1, n) ticks it is still blocked, and the sleep pass of the next tick
   * makes it READY exactly when that tick is t + max(1, n).
   */
  lemma SleepIsExact(
      w: World, before: seq<Step>, callbacks: seq<seq<Action>>, pre: seq<Action>, n: int, post: seq<Action>,
      after: seq<Step>)
    requires Initial(w)
    requires var w1 := Run(w, before);
             var d := AtDecision(w1, callbacks);
             var s := TickScript(callbacks, pre + [Action.Sleep(n)] + post);
             var i := Runner(w1, s);
             && i != -1
             && AllOk(Sparing(i), ApplyAll(Begin(d), pre + [Action.Sleep(n)]), post)
             && StepsOk(Sparing(i), Sparing(i), Cycle(w1, s), after)
             && Ticks(after) < AtLeastOne(n)
    ensures var w1 := Run(w, before);
            var s := TickScript(callbacks, pre + [Action.Sleep(n)] + post);
            var i := Runner(w1, s);
            var w2 := Run(Cycle(w1, s), after);
            && Sleeping(w2.k, i)
            && w2.k.tick == w1.k.tick + 1 + Ticks(after)
            && (Wake(w2).k.tasks[i].state == Ready <==> Wake(w2).k.tick == w1.k.tick + 1 + AtLeastOne(n))
  {
    hide *;
    var w1 := Run(w, before);
    var s := TickScript(callbacks, pre + [Action.Sleep(n)] + post);
    ReadyQueueIsExact(w, before);
    CycleRested(w1, s);
    CycleSleeps(w1, callbacks, pre, n, post);
    SleepsUntilDue(Cycle(w1, s), after, Runner(w1, s));
    WakeIffDue(Run(Cycle(w1, s), after), Runner(w1, s));
  }

  // ---------------------------------------------------------------- a sleeper that is most urgent

  /** Spared calls leave a task's whole block alone. */
  lemma SparedBlockStays(w: World, callbacks: seq<seq<Action>>, i: int, t: Tcb)
    requires 0 <= i < |w.k.tasks| && w.k.tasks[i] == t && CallbacksOk(Sparing(i), w, callbacks, 0)
    ensures var k := SoftPass(w, callbacks, 0).k; i < |k.tasks| && k.tasks[i] == t
  {
    var P := (x: World) => BlockIs(x.k, i, t);
    forall x: World, a: Action | P(x) && Sparing(i)(x, a) ensures P(Apply(x, a)) {
      hide Perform, Effects, Objects;
      forall k: KernelState, e: Effect | BlockIs(k, i, t) && !TargetsTask(e, i) ensures BlockIs(Perform(k, e), i, t) {
        PerformSpares(k, e, i);
      }
      PerformAllKeeps(k => BlockIs(k, i, t), e => !TargetsTask(e, i), x.k, Effects(x, a));
    }
    hide Apply;
    SoftPassKeeps(P, Sparing(i), w, callbacks, 0);
  }

  ghost predicate BlockIs(k: KernelState, i: int, t: Tcb) {
    0 <= i < |k.tasks| && k.tasks[i] == t
  }

  /** Every other READY task is less urgent than task i. */
  ghost predicate StrictlyTop(k: KernelState, i: int) {
    && 0 <= i < |k.tasks|
    && forall j :: 0 <= j < |k.tasks| && j != i && k.tasks[j].state == Ready ==>
                     k.tasks[j].priority < k.tasks[i].priority
  }

  /** A task that is READY and strictly most urgent at the decision runs. */
  lemma StrictlyTopRuns(k: KernelState, i: int)
    requires Rested(k) && StrictlyTop(k, i) && k.tasks[i].state == Ready
    ensures Decide(k) != Idle && Dispatch(k).current == i
  {
    hide Decide, Dispatch, Rested;
    DecideFromTable(k);
  }

  /** A sleeper whose wake-up tick is the next one runs in it, if it is strictly most urgent and callbacks spare it. */
  lemma DueSleeperRuns(w: World, s: TickScript, i: int)
    requires Rested(w.k) && Sleeping(w.k, i) && WakeTick(w.k, i) == w.k.tick + 1
    requires CallbacksOk(Sparing(i), Wake(w), s.callbacks, 0)
    requires StrictlyTop(AtDecision(w, s.callbacks).k, i)
    ensures Runner(w, s) == i && AtDecision(w, s.callbacks).k.tick == WakeTick(w.k, i)
  {
    WakeIffDue(w, i);
    TickAdvances(w, s.callbacks);
    AtDecisionRested(w, s.callbacks);
    hide Wake, AtDecision, SoftPass, CallbacksOk, Rested, Dispatch, Decide, StrictlyTop;
    SparedBlockStays(Wake(w), s.callbacks, i, Wake(w).k.tasks[i]);
    StrictlyTopRuns(AtDecision(w, s.callbacks).k, i);
  }

  /**
   * Sleep keeps its appointment: a task that sleeps n in tick t of any run, and that nobody touches until then, gets
   * the CPU in tick t + max(1, n) if it is strictly most urgent at that decision.
   */
  lemma SleeperRunsOnTime(
      w: World, before: seq<Step>, callbacks: seq<seq<Action>>, pre: seq<Action>, n: int, post: seq<Action>,
      after: seq<Step>, s': TickScript)
    requires Initial(w)
    requires var w1 := Run(w, before);
             var d := AtDecision(w1, callbacks);
             var s := TickScript(callbacks, pre + [Action.Sleep(n)] + post);
             var i := Runner(w1, s);
             var w2 := Run(Cycle(w1, s), after);
             && i != -1
             && AllOk(Sparing(i), ApplyAll(Begin(d), pre + [Action.Sleep(n)]), post)
             && StepsOk(Sparing(i), Sparing(i), Cycle(w1, s), after)
             && Ticks(after) == AtLeastOne(n) - 1
             && CallbacksOk(Sparing(i), Wake(w2), s'.callbacks, 0)
             && StrictlyTop(AtDecision(w2, s'.callbacks).k, i)
    ensures var w1 := Run(w, before);
            var s := TickScript(callbacks, pre + [Action.Sleep(n)] + post);
            var w2 := Run(Cycle(w1, s), after);
            && Runner(w2, s') == Runner(w1, s)
            && AtDecision(w2, s'.callbacks).k.tick == w1.k.tick + 1 + AtLeastOne(n)
  {
    hide *;
    var w1 := Run(w, before);
    var s := TickScript(callbacks, pre + [Action.Sleep(n)] + post);
    var w2 := Run(Cycle(w1, s), after);
    SleepIsExact(w, before, callbacks, pre, n, post, after);
    ReadyQueueIsExact(w, before);
    CycleRested(w1, s);
    RunRested(Cycle(w1, s), after);
    WakeIffDue(w2, Runner(w1, s));
    DueSleeperRuns(w2, s', Runner(w1, s));
  }

  lemma TickAdvances(w: World, callbacks: seq<seq<Action>>)
    ensures AtDecision(w, callbacks).k.tick == w.k.tick + 1
    ensures Dispatch(AtDecision(w, callbacks).k).tick == w.k.tick + 1
  {
    SleepPassTick(w.k.(tick := w.k.tick + 1), 0);
    SoftPassTick(Wake(w), callbacks, 0);
  }

  lemma {:induction false} SleepPassTick(k: KernelState, i: nat)
    ensures SleepPass(k, i).tick == k.tick
    decreases |k.tasks| - i
  {
    if i < |k.tasks| {
      SleepPassTick(CountDown(k, i), i + 1);
    }
  }

  lemma {:induction false} SoftPassTick(w: World, callbacks: seq<seq<Action>>, slot: nat)
    ensures SoftPass(w, callbacks, slot).k.tick == w.k.tick
    decreases |w.k.timers| - slot
  {
    if slot < |w.k.timers| {
      ApplyAllFrame(CountSlot(w, slot), CallbackOf(callbacks, slot));
      SoftPassTick(SoftSlot(w, CallbackOf(callbacks, slot), slot), callbacks, slot + 1);
    }
  }
}
