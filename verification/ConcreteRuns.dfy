/** Small runs worked out step by step: two tasks at most, a slice of one tick, scripts without callbacks. */
module ConcreteRuns {
  import opened KernelTypes
  import opened Sequences
  import opened ReadyQueues
  import opened KernelStates
  import opened Worlds

  const IDLE_CONTEXT := InitialContext(0)

  function Task(id: int, priority: int, state: TaskState, reason: BlockReason, slice: nat): Tcb {
    Tcb(id, priority, state, reason, 0, slice, IDLE_CONTEXT)
  }

  /** A kernel with room for two tasks and a slice of one tick, before its first task. */
  function FreshKernel(timers: seq<SoftTimer>): KernelState {
    KernelState(Config(2, 1), [], [], -1, 0, timers, IDLE_CONTEXT)
  }

  /** The kernel with the given queue, current task and task blocks, at the given tick. */
  function KernelAt(ready: seq<int>, current: int, tick: nat, a: Tcb, b: Tcb): KernelState {
    KernelState(Config(2, 1), [a, b], ready, current, tick, [], IDLE_CONTEXT)
  }

  function Body(acts: seq<Action>): Step {
    Tick(TickScript([], acts))
  }

  // ---------------------------------------------------------------- runs, one step at a time

  lemma {:induction false} RunTo(w: World, steps: seq<Step>, n: nat)
    requires n < |steps|
    ensures Run(w, steps[..n + 1]) == Do(Run(w, steps[..n]), steps[n])
    decreases n
  {
    hide Do;
    var s := steps[..n + 1];
    if n == 0 {
      assert s == [steps[0]];
      assert Run(Do(w, steps[0]), s[1..]) == Do(w, steps[0]);
    } else {
      assert s[1..] == steps[1..][..n] && steps[..n][1..] == steps[1..][..n - 1];
      RunTo(Do(w, steps[0]), steps[1..], n - 1);
    }
  }

  /** The last step of a run. */
  lemma RunLast(w: World, steps: seq<Step>)
    requires steps != []
    ensures Run(w, steps) == Do(Run(w, steps[..|steps| - 1]), steps[|steps| - 1])
  {
    hide Run, Do;
    RunTo(w, steps, |steps| - 1);
    assert steps[..|steps|] == steps;
  }

  lemma {:induction false} RunConcat(w: World, a: seq<Step>, b: seq<Step>)
    ensures Run(w, a + b) == Run(Run(w, a), b)
    decreases |a|
  {
    hide Do;
    if a == [] {
      assert a + b == b;
    } else {
      assert (a + b)[1..] == a[1..] + b;
      RunConcat(Do(w, a[0]), a[1..], b);
    }
  }

  lemma RunOne(w: World, s: Step)
    ensures Run(w, [s]) == Do(w, s)
  {
    hide Do;
  }

  lemma RunTwo(w: World, a: Step, b: Step)
    ensures Run(w, [a, b]) == Do(Do(w, a), b)
  {
    hide Do;
    RunTo(w, [a, b], 0);
    RunLast(w, [a, b]);
  }

  lemma RunThree(w: World, a: Step, b: Step, c: Step)
    ensures Run(w, [a, b, c]) == Do(Do(Do(w, a), b), c)
  {
    hide Do;
    RunTo(w, [a, b, c], 0);
    RunTo(w, [a, b, c], 1);
    RunLast(w, [a, b, c]);
  }

  // ---------------------------------------------------------------- creation

  lemma CreatingCall(w: World, priority: int)
    requires |w.k.tasks| < w.k.cfg.maxTasks
    ensures Do(w, Call(CreateTask(priority, 0))) ==
            w.(k := AddTask(w.k, priority, 0), log := Then(w.log, Created(|w.k.tasks|, IDLE_CONTEXT)))
  {
    hide AddTask;
    PerformOne(w.k, Add(priority, 0));
  }

  /** Two creations fill the table; both tasks are READY, in creation order. */
  lemma TwoTasksCreated(w: World, p0: int, p1: int)
    requires w.k == FreshKernel([])
    ensures var w' := Do(Do(w, Call(CreateTask(p0, 0))), Call(CreateTask(p1, 0)));
            && w' == w.(k := w'.k, log := Then(Then(w.log, Created(0, IDLE_CONTEXT)), Created(1, IDLE_CONTEXT)))
            && w'.k == KernelAt([0, 1], -1, 0, Task(1, p0, Ready, NoReason, 0), Task(2, p1, Ready, NoReason, 0))
  {
    var first := Task(1, p0, Ready, NoReason, 0);
    var w1 := Do(w, Call(CreateTask(p0, 0)));
    CreatingCall(w, p0);
    assert w1.k == KernelState(Config(2, 1), [first], [0], -1, 0, [], IDLE_CONTEXT) by { hide Do; }
    hide Do;
    CreatingCall(w1, p1);
  }

  /** The two creations every run with tasks begins with. */
  function Creations(): seq<Step> {
    [Call(CreateTask(1, 0)), Call(CreateTask(1, 0))]
  }

  lemma AfterCreations(w: World, rest: seq<Step>)
    requires w.k == FreshKernel([])
    ensures var w' := Run(w, Creations());
            && w' == w.(k := w'.k, log := Then(Then(w.log, Created(0, IDLE_CONTEXT)), Created(1, IDLE_CONTEXT)))
            && w'.k == KernelAt([0, 1], -1, 0, Task(1, 1, Ready, NoReason, 0), Task(2, 1, Ready, NoReason, 0))
    ensures Run(w, Creations() + rest) == Run(Run(w, Creations()), rest)
  {
    hide Do;
    var s := Creations();
    RunTo(w, s, 0);
    RunLast(w, s);
    TwoTasksCreated(w, 1, 1);
    hide Run;
    RunConcat(w, s, rest);
  }

  // ---------------------------------------------------------------- ticks

  lemma {:induction false} NobodySleeps(k: KernelState, i: nat)
    requires forall j :: 0 <= j < |k.tasks| ==> !WaitsFor(k.tasks[j], OnSleep)
    ensures SleepPass(k, i) == k
    decreases |k.tasks| - i
  {
    if i < |k.tasks| {
      NobodySleeps(k, i + 1);
    }
  }

  /** Without timers, sleepers and stale entries, a tick only advances the clock before the decision. */
  lemma NothingDue(w: World)
    requires w.k.timers == [] && forall j :: 0 <= j < |w.k.tasks| ==> !WaitsFor(w.k.tasks[j], OnSleep)
    requires forall x :: x in w.k.ready ==> IsReady(w.k.tasks, x)
    ensures AtDecision(w, []) == w.(k := w.k.(tick := w.k.tick + 1))
  {
    NobodySleeps(w.k.(tick := w.k.tick + 1), 0);
    ReadyOnlyIdentity(w.k.tasks, w.k.ready);
  }

  /** The first tick after two tasks of equal priority were created. */
  lemma FirstDecision(w: World)
    requires w.k == KernelAt([0, 1], -1, 0, Task(1, 1, Ready, NoReason, 0), Task(2, 1, Ready, NoReason, 0))
    ensures var d := AtDecision(w, []);
            && d == w.(k := d.k)
            && d.k == KernelAt([0, 1], -1, 1, Task(1, 1, Ready, NoReason, 0), Task(2, 1, Ready, NoReason, 0))
            && Decide(d.k) == Switch(0, false)
            && SwitchTo(d.k, 0) == KernelAt([1], 0, 1, Task(1, 1, Running, NoReason, 1), Task(2, 1, Ready, NoReason, 0))
  {
    NothingDue(w);
    hide AtDecision;
  }

  /** The second tick, when the first task has blocked. */
  lemma SecondDecisionAfter(w: World, reason: BlockReason)
    requires reason != OnSleep
    requires w.k == KernelAt([1], 0, 1, Task(1, 1, Blocked, reason, 1), Task(2, 1, Ready, NoReason, 0))
    ensures var d := AtDecision(w, []);
            && d == w.(k := d.k)
            && d.k == KernelAt([1], 0, 2, Task(1, 1, Blocked, reason, 1), Task(2, 1, Ready, NoReason, 0))
            && Decide(d.k) == Switch(1, false)
            && SwitchTo(d.k, 1) ==
               KernelAt([], 1, 2, Task(1, 1, Blocked, reason, 1), Task(2, 1, Running, NoReason, 1))
  {
    NothingDue(w);
    hide AtDecision;
  }

  lemma BestOfTwo(k: KernelState, a: int, b: int)
    requires k.ready == [a, b] && InTable(k.tasks, k.ready) && 0 <= a < |k.tasks| && 0 <= b < |k.tasks|
    requires k.tasks[a].priority == k.tasks[b].priority
    ensures BestOf(k.tasks, k.ready) == a
  {
    assert k.ready[..1] == [a] && [a][..0] == [];
  }

  /** The world when the function of the task the CPU switches to is called. */
  function Switched(d: World, x: nat): World
    requires x < |d.k.tasks|
  {
    d.(k := SwitchTo(d.k, x)).Log(Started(x, SwitchTo(d.k, x).active))
  }

  /** A tick that switches to x. */
  lemma SwitchingTick(w: World, d: World, acts: seq<Action>, x: nat)
    requires d == AtDecision(w, []) && x < |d.k.tasks|
    requires Decide(d.k).Switch? && Decide(d.k).next == x && Requeue(d.k) == d.k
    ensures Do(w, Body(acts)) == End(ApplyAll(Switched(d, x), acts))
    ensures Switched(d, x).k.current == x && Switched(d, x).k.HasCurrent()
  {
    assert Begin(d) == Switched(d, x) by { hide AtDecision, Decide, SetTaskState, LoadContext; }
    hide AtDecision, Decide, Remove, ApplyAll, End;
  }

  /** The dispatched task is still RUNNING when its function returns. */
  lemma EndOfRunning(w: World)
    requires w.k.HasCurrent() && w.k.tasks[w.k.current].state == Running
    ensures End(w).k == SetTaskState(w.k, w.k.current, Ready, NoReason)
  {
    hide SetTaskState;
  }

  /** A body of one call that blocks the running task. */
  lemma BlockingBody(b: World, a: Action, e: Effect)
    requires b.k.HasCurrent() && Effects(b, a) == [e]
    requires Perform(b.k, e).HasCurrent() && Perform(b.k, e).tasks[b.k.current].state != Running
    requires Perform(b.k, e).current == b.k.current
    ensures var w' := End(ApplyAll(b, [a]));
            && w'.k == Perform(b.k, e)
            && w' == Objects(b, a).(k := w'.k, log := Then(Objects(b, a).log, Finished(b.k.current, w'.k.active)))
  {
    PerformOne(b.k, e);
    assert ApplyAll(b, [a]) == Apply(b, a);
    hide Objects, Effects, Perform, ApplyAll, PerformAll;
  }
}
