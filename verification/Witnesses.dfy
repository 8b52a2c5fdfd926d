/** Runs from initialisation in which the promises discussed elsewhere fail: the failing states are reachable. */
module Witnesses {
  import opened KernelTypes
  import opened ReadyQueues
  import opened KernelStates
  import opened EventScan
  import opened EventWakes
  import opened Worlds
  import opened Scheduling
  import opened FreshSlices
  import opened BoundedWaiting
  import opened SoftTimers
  import opened ConcreteRuns

  function StartWith(timers: seq<SoftTimer>, groups: seq<EventGroup>): World {
    World(FreshKernel(timers), [], [], [], groups, Beginning)
  }

  lemma StartsAreInitial(timers: seq<SoftTimer>, groups: seq<EventGroup>)
    requires forall i :: 0 <= i < |timers| ==> timers[i] == FREE_TIMER
    requires forall i :: 0 <= i < |groups| ==> groups[i].flags == 0 && groups[i].waiters == []
    ensures Initial(StartWith(timers, groups))
  {
  }

  // ---------------------------------------------------------------- a slice count that is not reset

  /** Two tasks of equal priority, and one tick. */
  function OneTick(): seq<Step> {
    Creations() + [Body([])]
  }

  lemma FirstRuns(w: World)
    requires w.k == KernelAt([0, 1], -1, 0, Task(1, 1, Ready, NoReason, 0), Task(2, 1, Ready, NoReason, 0))
    ensures Do(w, Body([])).k ==
            KernelAt([1, 0], 0, 1, Task(1, 1, Ready, NoReason, 1), Task(2, 1, Ready, NoReason, 0))
  {
    FirstDecision(w);
    var d := AtDecision(w, []);
    hide AtDecision, Decide, SwitchTo, Do;
    SwitchingTick(w, d, [], 0);
    EndOfRunning(Switched(d, 0));
  }

  lemma SecondRuns(w: World)
    requires w.k == KernelAt([1, 0], 0, 1, Task(1, 1, Ready, NoReason, 1), Task(2, 1, Ready, NoReason, 0))
    ensures Rested(w.k) && Runner(w, TickScript([], [])) == 1
  {
    hide AtDecision, SwitchTo, SetTaskState, Requeue;
    NothingDue(w);
    var k := AtDecision(w, []).k;
    assert BestOf(k.tasks, k.ready) == 1 by { BestOfTwo(k, 1, 0); }
    hide BestOf;
  }

  /** After two ticks the CPU has left the first task for the second, and the first one's slice count is still 1. */
  lemma CountKeptAfterSwitch()
    ensures Initial(StartWith([], []))
    ensures var w := Run(StartWith([], []), OneTick());
            && w.k.HasCurrent() && w.k.current == 0
            && Runner(w, TickScript([], [])) == 1
            && Used(Cycle(w, TickScript([], [])).k, Config(2, 1), 1, 0, 1)
  {
    hide Run, Do, Creations, Initial, Runner, Cycle, Rested;
    StartsAreInitial([], []);
    AfterCreations(StartWith([], []), [Body([])]);
    var w0 := Run(StartWith([], []), Creations());
    RunOne(w0, Body([]));
    FirstRuns(w0);
    var w := Do(w0, Body([]));
    SecondRuns(w);
    SliceSurvivesSwitchAway(w, TickScript([], []));
  }

  // ---------------------------------------------------------------- an idle tick that lets a task jump the queue

  /** One task sleeps for three ticks, then its peer for two: both are due in the same tick. */
  function TwoSleepers(): seq<Step> {
    Creations() + [Body([Action.Sleep(3)]), Body([Action.Sleep(2)])]
  }

  lemma FirstSleeps(w: World)
    requires w.k == KernelAt([0, 1], -1, 0, Task(1, 1, Ready, NoReason, 0), Task(2, 1, Ready, NoReason, 0))
    ensures Do(w, Body([Action.Sleep(3)])).k ==
            KernelAt([1], 0, 1, Task(1, 1, Blocked, OnSleep, 1).(sleep := 3), Task(2, 1, Ready, NoReason, 0))
  {
    FirstDecision(w);
    var d := AtDecision(w, []);
    hide AtDecision, Decide, SwitchTo, Do, End, ApplyAll;
    SwitchingTick(w, d, [Action.Sleep(3)], 0);
    BlockingBody(Switched(d, 0), Action.Sleep(3), Nap(0, 3));
  }

  lemma SecondDecision(w: World)
    requires w.k ==
             KernelAt([1], 0, 1, Task(1, 1, Blocked, OnSleep, 1).(sleep := 3), Task(2, 1, Ready, NoReason, 0))
    ensures var d := AtDecision(w, []);
            && d == w.(k := d.k)
            && d.k == KernelAt([1], 0, 2, Task(1, 1, Blocked, OnSleep, 1).(sleep := 2), Task(2, 1, Ready, NoReason, 0))
            && Decide(d.k) == Switch(1, false)
            && SwitchTo(d.k, 1) ==
               KernelAt([], 1, 2, Task(1, 1, Blocked, OnSleep, 1).(sleep := 2), Task(2, 1, Running, NoReason, 1))
  {
    var k := w.k.(tick := 2);
    assert CountDown(k, 0) ==
           KernelAt([1], 0, 2, Task(1, 1, Blocked, OnSleep, 1).(sleep := 2), Task(2, 1, Ready, NoReason, 0));
    assert CountDown(CountDown(k, 0), 1) == CountDown(k, 0);
    hide CountDown, SetTaskState;
    TwoCounted(k);
  }

  /** The sleep pass over two tasks. */
  lemma TwoCounted(k: KernelState)
    requires |k.tasks| == 2
    ensures SleepPass(k, 0) == CountDown(CountDown(k, 0), 1)
  {
    hide CountDown;
    assert SleepPass(CountDown(CountDown(k, 0), 1), 2) == CountDown(CountDown(k, 0), 1);
  }

  lemma SecondSleeps(w: World)
    requires w.k ==
             KernelAt([1], 0, 1, Task(1, 1, Blocked, OnSleep, 1).(sleep := 3), Task(2, 1, Ready, NoReason, 0))
    ensures Do(w, Body([Action.Sleep(2)])).k ==
            KernelAt([], 1, 2, Task(1, 1, Blocked, OnSleep, 1).(sleep := 2),
                     Task(2, 1, Blocked, OnSleep, 1).(sleep := 2))
  {
    SecondDecision(w);
    var d := AtDecision(w, []);
    hide AtDecision, Decide, SwitchTo, Do, End, ApplyAll;
    SwitchingTick(w, d, [Action.Sleep(2)], 1);
    BlockingBody(Switched(d, 1), Action.Sleep(2), Nap(1, 2));
  }

  function Sleeper(id: int, left: int, slice: nat): Tcb {
    Task(id, 1, Blocked, OnSleep, slice).(sleep := left)
  }

  /** The idle tick. */
  lemma BothSleep(w: World)
    requires w.k == KernelAt([], 1, 2, Sleeper(1, 2, 1), Sleeper(2, 2, 1))
    ensures Rested(w.k) && Runner(w, TickScript([], [])) == -1
    ensures Cycle(w, TickScript([], [])).k == KernelAt([], 1, 3, Sleeper(1, 1, 1), Sleeper(2, 1, 0))
  {
    var k := w.k.(tick := 3);
    TwoCounted(k);
    assert CountDown(k, 0) == KernelAt([], 1, 3, Sleeper(1, 1, 1), Sleeper(2, 2, 1));
    assert CountDown(CountDown(k, 0), 1) == KernelAt([], 1, 3, Sleeper(1, 1, 1), Sleeper(2, 1, 1));
    hide CountDown, SetTaskState, SleepPass;
    var d := AtDecision(w, []);
    assert d.k == KernelAt([], 1, 3, Sleeper(1, 1, 1), Sleeper(2, 1, 1));
    hide AtDecision;
  }

  /** The tick in which both are due. */
  lemma BothWake(w: World)
    requires w.k == KernelAt([], 1, 3, Sleeper(1, 1, 1), Sleeper(2, 1, 0))
    ensures AtDecision(w, []).k ==
            KernelAt([0, 1], 1, 4, Task(1, 1, Ready, NoReason, 1), Task(2, 1, Ready, NoReason, 0))
  {
    var k := w.k.(tick := 4);
    TwoCounted(k);
    var k1 := CountDown(k, 0);
    assert k1 == KernelAt([0], 1, 4, Task(1, 1, Ready, NoReason, 1), Sleeper(2, 1, 0));
    assert CountDown(k1, 1) ==
           KernelAt([0, 1], 1, 4, Task(1, 1, Ready, NoReason, 1), Task(2, 1, Ready, NoReason, 0));
    hide CountDown, SetTaskState, SleepPass;
  }

  lemma FirstInQueueIsZero(k: KernelState)
    requires k == KernelAt([0, 1], 1, 4, Task(1, 1, Ready, NoReason, 1), Task(2, 1, Ready, NoReason, 0))
    ensures InTable(k.tasks, k.ready) && BestOf(k.tasks, k.ready) == 0 && IsTop(k, 1)
  {
  }

  /**
   * Both tasks wake in the same tick, after an idle one. The queue puts task 0 first, and task 0 has waited longer
   * for the CPU, but task 1, which had it last, runs again.
   */
  lemma LastTaskJumpsTheQueue()
    ensures Initial(StartWith([], []))
    ensures var w := Run(StartWith([], []), TwoSleepers());
            var w' := Cycle(w, TickScript([], []));
            && w.k.HasCurrent() && w.k.current == 1 && Runner(w, TickScript([], [])) == -1
            && FirstInQueue(AtDecision(w', []).k, 0)
            && Runner(w', TickScript([], [])) == 1
  {
    hide Run, Do, Creations, Initial, Runner, Cycle, Rested, AtDecision;
    StartsAreInitial([], []);
    AfterCreations(StartWith([], []), [Body([Action.Sleep(3)]), Body([Action.Sleep(2)])]);
    var w0 := Run(StartWith([], []), Creations());
    RunTwo(w0, Body([Action.Sleep(3)]), Body([Action.Sleep(2)]));
    FirstSleeps(w0);
    var w1 := Do(w0, Body([Action.Sleep(3)]));
    SecondSleeps(w1);
    var w := Do(w1, Body([Action.Sleep(2)]));
    BothSleep(w);
    var w' := Cycle(w, TickScript([], []));
    BothWake(w');
    FirstInQueueIsZero(AtDecision(w', []).k);
    IdleTickJumpsTheQueue(w, TickScript([], []), TickScript([], []));
  }

  /** The scan of the queue chooses task t. */
  ghost predicate FirstInQueue(k: KernelState, t: int) {
    InTable(k.tasks, k.ready) && BestOf(k.tasks, k.ready) == t
  }

  // ---------------------------------------------------------------- two tasks that wait for one flag

  function OneGroup(): seq<EventGroup> {
    [EventGroup(2, 0, [])]
  }

  function TwoWaiters(): seq<Step> {
    Creations() + [Body([EventWait(0, 1)]), Body([EventWait(0, 1)])]
  }

  lemma WaitOnClearedFlag(g: EventGroup, t: int)
    requires g.flags == 0 && |g.waiters| < g.capacity
    ensures WaitFor(g, 1) == MustBlock
    ensures AfterWait(g, 1, t) == g.(waiters := g.waiters + [EventWaiter(t, 1)])
  {
  }

  /** A tick that switches to x, whose function waits for a flag that is not set. */
  lemma WaitingTick(w: World, d: World, x: nat)
    requires d == AtDecision(w, []) && d == w.(k := d.k) && x < |d.k.tasks|
    requires Decide(d.k).Switch? && Decide(d.k).next == x && Requeue(d.k) == d.k
    requires |w.groups| == 1 && w.groups[0].flags == 0 && |w.groups[0].waiters| < w.groups[0].capacity
    requires var k := SetTaskState(SwitchTo(d.k, x), x, Blocked, OnEvent);
             k.HasCurrent() && k.current == x && k.tasks[x].state == Blocked
    ensures var w' := Do(w, Body([EventWait(0, 1)]));
            && w'.k == SetTaskState(SwitchTo(d.k, x), x, Blocked, OnEvent)
            && w'.groups == [w.groups[0].(waiters := w.groups[0].waiters + [EventWaiter(x, 1)])]
  {
    hide AtDecision, Decide, SwitchTo, Do, End, ApplyAll, WaitFor, AfterWait, SetTaskState, Requeue;
    WaitOnClearedFlag(w.groups[0], x);
    SwitchingTick(w, d, [EventWait(0, 1)], x);
    BlockingBody(Switched(d, x), EventWait(0, 1), SetState(x, Blocked, OnEvent));
  }

  lemma FirstWaits(w: World)
    requires w.k == KernelAt([0, 1], -1, 0, Task(1, 1, Ready, NoReason, 0), Task(2, 1, Ready, NoReason, 0))
    requires w.groups == OneGroup()
    ensures var w' := Do(w, Body([EventWait(0, 1)]));
            && w'.k == KernelAt([1], 0, 1, Task(1, 1, Blocked, OnEvent, 1), Task(2, 1, Ready, NoReason, 0))
            && w'.groups == [EventGroup(2, 0, [EventWaiter(0, 1)])]
  {
    hide AtDecision, Decide, SwitchTo, Do;
    FirstDecision(w);
    WaitingTick(w, AtDecision(w, []), 0);
    assert [] + [EventWaiter(0, 1)] == [EventWaiter(0, 1)];
  }

  lemma SecondWaits(w: World)
    requires w.k == KernelAt([1], 0, 1, Task(1, 1, Blocked, OnEvent, 1), Task(2, 1, Ready, NoReason, 0))
    requires w.groups == [EventGroup(2, 0, [EventWaiter(0, 1)])]
    ensures var w' := Do(w, Body([EventWait(0, 1)]));
            && w'.k == KernelAt([], 1, 2, Task(1, 1, Blocked, OnEvent, 1), Task(2, 1, Blocked, OnEvent, 1))
            && w'.groups == [EventGroup(2, 0, [EventWaiter(0, 1), EventWaiter(1, 1)])]
  {
    hide AtDecision, Decide, SwitchTo, Do;
    SecondDecisionAfter(w, OnEvent);
    WaitingTick(w, AtDecision(w, []), 1);
    assert [EventWaiter(0, 1)] + [EventWaiter(1, 1)] == [EventWaiter(0, 1), EventWaiter(1, 1)];
  }

  lemma OneFlagWakesTheNewest(g: EventGroup)
    requires g == EventGroup(2, 0, [EventWaiter(0, 1), EventWaiter(1, 1)])
    ensures SetFlags(g, 1) == ScanResult(0, [EventWaiter(0, 1)], [EventWaiter(1, 1)])
    ensures OneEntryEach(Join(g.flags, 1), g.waiters) && !WakesEveryTask(g, 1)
  {
    assert Satisfied(1, 1) && Clear(1, 1) == 0 && !Satisfied(0, 1) && Join(0, 1) == 1;
    hide Satisfied, Clear, Join;
    var one := [EventWaiter(0, 1)];
    assert g.waiters[1 := g.waiters[1]][..1] == one;
    assert Scan(0, one, 1) == ScanResult(0, one, []);
    assert Scan(1, g.waiters, 2) == ScanResult(0, one, [EventWaiter(1, 1)] + []);
    assert !Names([EventWaiter(1, 1)], 0);
    assert g.waiters[0].task == 0;
  }

  lemma OnlyTheNewestIsReady(w: World)
    requires w.k == KernelAt([], 1, 2, Task(1, 1, Blocked, OnEvent, 1), Task(2, 1, Blocked, OnEvent, 1))
    requires w.groups == [EventGroup(2, 0, [EventWaiter(0, 1), EventWaiter(1, 1)])]
    ensures var w' := Do(w, Call(EventSet(0, 1)));
            && w'.k == KernelAt([1], 1, 2, Task(1, 1, Blocked, OnEvent, 1), Task(2, 1, Ready, NoReason, 1))
            && w'.groups == [EventGroup(2, 0, [EventWaiter(0, 1)])]
  {
    OneFlagWakesTheNewest(w.groups[0]);
    hide SetFlags;
    var e := SetState(1, Ready, NoReason);
    assert WakeAll([EventWaiter(1, 1)]) == [e];
    PerformOne(w.k, e);
    hide PerformAll;
  }

  /**
   * Two tasks wait for the same flag and each has one entry. Setting the flag wakes the one that waited last; the
   * other, whose mask was a subset of the flags too, stays blocked.
   */
  lemma SatisfiedTaskNotWoken()
    ensures Initial(StartWith([], OneGroup()))
    ensures var w := Run(StartWith([], OneGroup()), TwoWaiters());
            && w.groups == [EventGroup(2, 0, [EventWaiter(0, 1), EventWaiter(1, 1)])]
            && OneEntryEach(Join(0, 1), [EventWaiter(0, 1), EventWaiter(1, 1)])
            && !WakesEveryTask(EventGroup(2, 0, [EventWaiter(0, 1), EventWaiter(1, 1)]), 1)
            && Do(w, Call(EventSet(0, 1))).k ==
               KernelAt([1], 1, 2, Task(1, 1, Blocked, OnEvent, 1), Task(2, 1, Ready, NoReason, 1))
  {
    hide Run, Do, Creations, Initial, OneEntryEach, WakesEveryTask;
    StartsAreInitial([], OneGroup());
    AfterCreations(StartWith([], OneGroup()), [Body([EventWait(0, 1)]), Body([EventWait(0, 1)])]);
    var w0 := Run(StartWith([], OneGroup()), Creations());
    RunTwo(w0, Body([EventWait(0, 1)]), Body([EventWait(0, 1)]));
    FirstWaits(w0);
    var w1 := Do(w0, Body([EventWait(0, 1)]));
    SecondWaits(w1);
    var w := Do(w1, Body([EventWait(0, 1)]));
    OneFlagWakesTheNewest(w.groups[0]);
    OnlyTheNewestIsReady(w);
  }

  // ---------------------------------------------------------------- a wait dropped by a full table

  /** One group with room for one waiter. */
  function OneSlotGroup(): seq<EventGroup> {
    [EventGroup(1, 0, [])]
  }

  lemma FirstTakesTheSlot(w: World)
    requires w.k == KernelAt([0, 1], -1, 0, Task(1, 1, Ready, NoReason, 0), Task(2, 1, Ready, NoReason, 0))
    requires w.groups == OneSlotGroup()
    ensures var w' := Do(w, Body([EventWait(0, 1)]));
            && w'.k == KernelAt([1], 0, 1, Task(1, 1, Blocked, OnEvent, 1), Task(2, 1, Ready, NoReason, 0))
            && w'.groups == [EventGroup(1, 0, [EventWaiter(0, 1)])]
  {
    hide AtDecision, Decide, SwitchTo, Do;
    FirstDecision(w);
    WaitingTick(w, AtDecision(w, []), 0);
    assert [] + [EventWaiter(0, 1)] == [EventWaiter(0, 1)];
  }

  lemma DroppedWait(b: World)
    requires b.groups == [EventGroup(1, 0, [EventWaiter(0, 1)])]
    ensures WaitFor(b.groups[0], 1) == Dropped && Apply(b, EventWait(0, 1)) == b
  {
    PerformNone(b.k);
    assert b.groups[0 := b.groups[0]] == b.groups;
    hide PerformAll;
  }

  lemma SecondIsDropped(w: World)
    requires w.k == KernelAt([1], 0, 1, Task(1, 1, Blocked, OnEvent, 1), Task(2, 1, Ready, NoReason, 0))
    requires w.groups == [EventGroup(1, 0, [EventWaiter(0, 1)])]
    ensures var w' := Do(w, Body([EventWait(0, 1)]));
            && w'.k == KernelAt([1], 1, 2, Task(1, 1, Blocked, OnEvent, 1), Task(2, 1, Ready, NoReason, 1))
            && w'.groups == w.groups
  {
    hide AtDecision, Decide, SwitchTo, Do;
    SecondDecisionAfter(w, OnEvent);
    var d := AtDecision(w, []);
    SwitchingTick(w, d, [EventWait(0, 1)], 1);
    var b := Switched(d, 1);
    DroppedWait(b);
    assert ApplyAll(b, [EventWait(0, 1)]) == b by { ApplyOne(b, EventWait(0, 1)); }
    hide ApplyAll;
    EndOfRunning(b);
  }

  lemma ApplyOne(w: World, a: Action)
    ensures ApplyAll(w, [a]) == Apply(w, a)
  {
    hide Apply;
  }

  /** The table is full when the second task waits: the wait returns false and the task is READY, not blocked. */
  lemma FullTableDropsAWait()
    ensures Initial(StartWith([], OneSlotGroup()))
    ensures var w := Run(StartWith([], OneSlotGroup()),
                         Creations() + [Body([EventWait(0, 1)]), Body([EventWait(0, 1)])]);
            && w.k == KernelAt([1], 1, 2, Task(1, 1, Blocked, OnEvent, 1), Task(2, 1, Ready, NoReason, 1))
            && w.groups == [EventGroup(1, 0, [EventWaiter(0, 1)])]
  {
    hide Run, Do, Creations, Initial;
    StartsAreInitial([], OneSlotGroup());
    AfterCreations(StartWith([], OneSlotGroup()), [Body([EventWait(0, 1)]), Body([EventWait(0, 1)])]);
    var w0 := Run(StartWith([], OneSlotGroup()), Creations());
    RunTwo(w0, Body([EventWait(0, 1)]), Body([EventWait(0, 1)]));
    FirstTakesTheSlot(w0);
    SecondIsDropped(Do(w0, Body([EventWait(0, 1)])));
  }

  // ---------------------------------------------------------------- timers started by callbacks

  const TWO_SLOTS := [FREE_TIMER, FREE_TIMER]

  /** A kernel without tasks and with two timer slots. */
  function TimerKernel(tick: nat, a: SoftTimer, b: SoftTimer): KernelState {
    KernelState(Config(2, 1), [], [], -1, tick, [a, b], IDLE_CONTEXT)
  }

  function StoppedOneShot(period: nat): SoftTimer {
    SoftTimer(OneShot, period, period, false, true)
  }

  function ArmedOneShot(period: nat): SoftTimer {
    SoftTimer(OneShot, period, period, true, true)
  }

  lemma FirstTimerCreated(w: World)
    requires w.k == FreshKernel(TWO_SLOTS)
    ensures Do(w, Call(TimerCreate(OneShot, 1))).k == TimerKernel(0, StoppedOneShot(1), FREE_TIMER)
  {
    PerformOne(w.k, SetTimer(0, StoppedOneShot(1)));
    hide PerformAll;
  }

  lemma SecondTimerCreated(w: World)
    requires w.k == TimerKernel(0, StoppedOneShot(1), FREE_TIMER)
    ensures Do(w, Call(TimerCreate(OneShot, 2))).k == TimerKernel(0, StoppedOneShot(1), StoppedOneShot(2))
  {
    PerformOne(w.k, SetTimer(1, StoppedOneShot(2)));
    hide PerformAll;
  }

  lemma FirstTimerStarted(w: World, b: SoftTimer)
    requires w.k == TimerKernel(0, StoppedOneShot(1), b)
    ensures Do(w, Call(TimerStart(0))).k == TimerKernel(0, ArmedOneShot(1), b)
  {
    PerformOne(w.k, SetTimer(0, ArmedOneShot(1)));
    hide PerformAll;
  }

  /** A pass over two slots of which only the first expires. */
  lemma OnlyFirstExpires(w: World, start: nat)
    requires start < 2 && w.k.tasks == [] && |w.k.timers| == 2 && Fires(w, 0)
    requires !Fires(SoftSlot(w, [TimerStart(start)], 0), 1)
    ensures var w1 := SoftSlot(w, [TimerStart(start)], 0);
            SoftPass(w, [[TimerStart(start)]], 0) == CountSlot(w1, 1)
  {
    var callbacks := [[TimerStart(start)]];
    var w1 := SoftSlot(w, [TimerStart(start)], 0);
    hide SoftSlot, CountSlot, Fires;
    PassStep(w, callbacks, 0);
    PassStep(w1, callbacks, 1);
    assert SoftSlot(w1, CallbackOf(callbacks, 1), 1) == CountSlot(w1, 1) by { QuietSlot(w1, CallbackOf(callbacks, 1)); }
    assert SoftPass(CountSlot(w1, 1), callbacks, 2) == CountSlot(w1, 1) by { CountKeepsPool(w1, 1); }
  }

  lemma QuietSlot(w: World, callback: seq<Action>)
    requires |w.k.timers| == 2 && !Fires(w, 1)
    ensures SoftSlot(w, callback, 1) == CountSlot(w, 1)
  {
  }

  lemma CountKeepsPool(w: World, slot: nat)
    requires slot < |w.k.timers|
    ensures |CountSlot(w, slot).k.timers| == |w.k.timers|
  {
  }

  /** A tick without tasks is its timer pass. */
  lemma TimerTick(w: World, callbacks: seq<seq<Action>>, a: SoftTimer, b: SoftTimer)
    requires w.k.tasks == [] && SoftPass(Wake(w), callbacks, 0).k == TimerKernel(1, a, b)
    ensures Cycle(w, TickScript(callbacks, [])).k == TimerKernel(1, a, b)
  {
    var d := AtDecision(w, callbacks);
    assert d.k == TimerKernel(1, a, b) by { hide SoftPass, Wake; }
    hide AtDecision;
  }

  lemma NobodyToWakeUp(w: World, a: SoftTimer, b: SoftTimer)
    requires w.k == TimerKernel(0, a, b)
    ensures Wake(w).k == TimerKernel(1, a, b)
  {
  }

  lemma RestartingSlot(w: World, b: SoftTimer)
    requires w.k == TimerKernel(1, ArmedOneShot(1), b)
    ensures Fires(w, 0)
    ensures SoftSlot(w, [TimerStart(0)], 0).k == TimerKernel(1, ArmedOneShot(1).(active := false), b)
  {
    var c := CountSlot(w, 0);
    assert ApplyAll(c, [TimerStart(0)]) == Apply(c, TimerStart(0));
    StartArms(c, 0);
    PerformOne(c.k, SetTimer(0, ArmedOneShot(1)));
    hide PerformAll, ApplyAll;
  }

  lemma StartingSlot(w: World)
    requires w.k == TimerKernel(1, ArmedOneShot(1), StoppedOneShot(2))
    ensures Fires(w, 0)
    ensures SoftSlot(w, [TimerStart(1)], 0).k ==
            TimerKernel(1, ArmedOneShot(1).(remaining := 0, active := false), ArmedOneShot(2))
  {
    var c := CountSlot(w, 0);
    assert ApplyAll(c, [TimerStart(1)]) == Apply(c, TimerStart(1));
    PerformOne(c.k, SetTimer(1, ArmedOneShot(2)));
    hide PerformAll, ApplyAll;
  }

  /** A one-shot of period 1 restarts itself from its callback and is disarmed all the same. */
  lemma OneShotCannotRestartItself()
    ensures Initial(StartWith(TWO_SLOTS, []))
    ensures var w := Run(StartWith(TWO_SLOTS, []), [Call(TimerCreate(OneShot, 1)), Call(TimerStart(0))]);
            && w.k == TimerKernel(0, ArmedOneShot(1), FREE_TIMER)
            && Cycle(w, TickScript([[TimerStart(0)]], [])).k ==
               TimerKernel(1, ArmedOneShot(1).(active := false), FREE_TIMER)
  {
    hide Run, Do, Initial, Cycle, SoftPass, SoftSlot, Wake;
    StartsAreInitial(TWO_SLOTS, []);
    var w0 := StartWith(TWO_SLOTS, []);
    RunTwo(w0, Call(TimerCreate(OneShot, 1)), Call(TimerStart(0)));
    FirstTimerCreated(w0);
    var w1 := Do(w0, Call(TimerCreate(OneShot, 1)));
    FirstTimerStarted(w1, FREE_TIMER);
    var w := Do(w1, Call(TimerStart(0)));
    NobodyToWakeUp(w, ArmedOneShot(1), FREE_TIMER);
    RestartingSlot(Wake(w), FREE_TIMER);
    OnlyFirstExpires(Wake(w), 0);
    TimerTick(w, [[TimerStart(0)]], ArmedOneShot(1).(active := false), FREE_TIMER);
  }

  /** A timer of period 2, started by the callback of an earlier slot, has one tick left at the end of that tick. */
  lemma LaterSlotLosesATick()
    ensures Initial(StartWith(TWO_SLOTS, []))
    ensures var w := Run(StartWith(TWO_SLOTS, []),
                         [Call(TimerCreate(OneShot, 1)), Call(TimerCreate(OneShot, 2)), Call(TimerStart(0))]);
            && w.k == TimerKernel(0, ArmedOneShot(1), StoppedOneShot(2))
            && Cycle(w, TickScript([[TimerStart(1)]], [])).k ==
               TimerKernel(1, ArmedOneShot(1).(remaining := 0, active := false), ArmedOneShot(2).(remaining := 1))
  {
    hide Run, Do, Initial, Cycle, SoftPass, SoftSlot, Wake;
    StartsAreInitial(TWO_SLOTS, []);
    var w0 := StartWith(TWO_SLOTS, []);
    RunThree(w0, Call(TimerCreate(OneShot, 1)), Call(TimerCreate(OneShot, 2)), Call(TimerStart(0)));
    FirstTimerCreated(w0);
    var w1 := Do(w0, Call(TimerCreate(OneShot, 1)));
    SecondTimerCreated(w1);
    var w2 := Do(w1, Call(TimerCreate(OneShot, 2)));
    FirstTimerStarted(w2, StoppedOneShot(2));
    var w := Do(w2, Call(TimerStart(0)));
    NobodyToWakeUp(w, ArmedOneShot(1), StoppedOneShot(2));
    StartingSlot(Wake(w));
    OnlyFirstExpires(Wake(w), 1);
    TimerTick(w, [[TimerStart(1)]], ArmedOneShot(1).(remaining := 0, active := false),
              ArmedOneShot(2).(remaining := 1));
  }
}
