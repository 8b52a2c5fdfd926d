/**
 * Runs with two objects of a kind that leave a task blocked on an object with something to give and nobody woken to
 * take it, one for each kind: semaphores, mutexes, receivers and senders of message queues.
 */
module StrandedWaiters {
  import opened KernelTypes
  import opened Sequences
  import opened ReadyQueues
  import opened KernelStates
  import opened Worlds
  import opened RunInduction
  import opened Waiters
  import opened FairWaiting
  import opened ConcreteRuns

  /** Task 1 is blocked on object 0, which has one item to give, and no woken task is left to take it. */
  ghost predicate Stranded(kind: Kind, w: World) {
    && 0 < ObjectCount(kind, w) && Supply(kind, w, 0) == 1
    && 1 in BlockedOn(kind, w, 0) && WokenFor(kind, w.log, 0) == {}
  }

  /** The objects that last turned away the two tasks; nobody was woken for object 0. */
  ghost predicate Seen(kind: Kind, h: History, first: int, second: int) {
    LastRefusal(kind, h, 0) == first && LastRefusal(kind, h, 1) == second && WokenFor(kind, h, 0) == {}
  }

  lemma QuietEvent(kind: Kind, h: History, e: Event, first: int, second: int)
    requires Seen(kind, h, first, second) && TurnOf(kind, e) == NoTurn
    ensures Seen(kind, Then(h, e), first, second)
  {
  }

  lemma TwoQuietEvents(kind: Kind, h: History, e: Event, e': Event, first: int, second: int)
    requires Seen(kind, h, first, second) && TurnOf(kind, e) == NoTurn && TurnOf(kind, e') == NoTurn
    ensures Seen(kind, Then(Then(h, e), e'), first, second)
  {
    hide Seen, TurnOf;
    QuietEvent(kind, h, e, first, second);
    QuietEvent(kind, Then(h, e), e', first, second);
  }

  /** Two tasks are blocked, the more urgent one on object 1. Giving to object 0 wakes that one. */
  lemma GivingStrands(kind: Kind, w: World, a: Action)
    requires |w.k.tasks| == 2 && w.k.tasks[0].priority == w.k.tasks[1].priority
    requires WaitsFor(w.k.tasks[0], ReasonOf(kind)) && WaitsFor(w.k.tasks[1], ReasonOf(kind))
    requires Seen(kind, w.log, 1, 0)
    requires Gives(kind, w, a) && ObjectOf(a) == 0 && 0 < ObjectCount(kind, w) && Supply(kind, w, 0) == 0
    ensures Stranded(kind, Apply(w, a)) && Seen(kind, Apply(w, a).log, 1, 0)
    ensures Apply(w, a).k == SetTaskState(w.k, 0, Ready, NoReason)
  {
    var w' := Apply(w, a);
    assert MostUrgent(kind, w) == 0;
    GiveResult(kind, w, a);
    WakeOneWaiters(w.k, ReasonOf(kind));
    PerformOne(w.k, SetState(0, Ready, NoReason));
    InBlockedOn(kind, w, 1, 0);
    assert 1 in WaitersOn(w.k.tasks, ReasonOf(kind));
    hide Apply, Gives, WaitersOn, WakeOne, PerformAll, Waiter, BlockedOn, SetTaskState, Supply;
    WokenTurn(kind, w, w', 0, 0);
    TurnKeepsRefusals(kind, w, w', Woke(0), 0);
    TurnKeepsRefusals(kind, w, w', Woke(0), 1);
  }

  /** Returning from a task function adds nothing to what the waiters see. */
  lemma ReturnStillStranded(kind: Kind, w: World)
    requires Stranded(kind, w) && w.k.HasCurrent() && w.k.tasks[w.k.current].state != Running
    ensures Stranded(kind, End(w))
  {
    InBlockedOn(kind, w, 1, 0);
    InBlockedOn(kind, End(w), 1, 0);
    hide WaitersOn, BlockedOn;
  }

  // ---------------------------------------------------------------- a tick that ends in a refusal

  lemma RefusalBlocks(kind: Kind, w: World, a: Action)
    requires Asks(kind, a) && Defined(w, a) && !Granted(kind, w, a)
    ensures Effects(w, a) == [SetState(w.k.current, Blocked, ReasonOf(kind))]
    ensures var w' := Objects(w, a);
            && w' == w.(log := w'.log) && TakesTurn(kind, w, w', TurnedAway(ObjectOf(a), w.k.current))
  {
    hide WakeOne, Waiter;
  }

  lemma RefusedEvent(kind: Kind, h: History, e: Event, x: int, first: int, second: int)
    requires Seen(kind, h, first, second) && TurnOf(kind, e).TurnedAway? && TurnOf(kind, e).task == x
    requires x == 0 || x == 1
    ensures var o := TurnOf(kind, e).obj;
            Seen(kind, Then(h, e), if x == 0 then o else first, if x == 1 then o else second)
  {
  }

  /** b is the world when task x makes its last call, which is refused. */
  lemma RefusedReturn(kind: Kind, b: World, a: Action, x: nat, first: int, second: int)
    requires Asks(kind, a) && Defined(b, a) && !Granted(kind, b, a)
    requires b.k.HasCurrent() && b.k.current == x && (x == 0 || x == 1)
    requires Seen(kind, b.log, first, second)
    ensures var w', o := End(ApplyAll(b, [a])), ObjectOf(a);
            && w'.k == SetTaskState(b.k, x, Blocked, ReasonOf(kind))
            && w' == b.(k := w'.k, log := w'.log)
            && Seen(kind, w'.log, if x == 0 then o else first, if x == 1 then o else second)
  {
    RefusalBlocks(kind, b, a);
    var e := SetState(x, Blocked, ReasonOf(kind));
    assert Perform(b.k, e).tasks[x].state != Running by { hide Remove; }
    hide SetTaskState, Effects, Objects, Asks, Granted, Seen, ApplyAll, End, TurnOf;
    BlockingBody(b, a, e);
    var h := Objects(b, a).log;
    RefusedEvent(kind, b.log, h.event, x, first, second);
    NoTurnToReturn(kind, x, SetTaskState(b.k, x, Blocked, ReasonOf(kind)).active);
    QuietEvent(kind, h, Finished(x, SetTaskState(b.k, x, Blocked, ReasonOf(kind)).active),
               if x == 0 then ObjectOf(a) else first, if x == 1 then ObjectOf(a) else second);
  }

  lemma NoTurnToReturn(kind: Kind, x: int, context: CpuContext)
    ensures TurnOf(kind, Finished(x, context)) == NoTurn
    ensures TurnOf(kind, Event.Started(x, context)) == NoTurn
    ensures TurnOf(kind, Created(x, context)) == NoTurn
  {
  }

  /** The worlds these runs start in. */
  function Start(sems: seq<int>, mutexes: seq<Mutex>, queues: seq<MessageQueue>): World {
    World(FreshKernel([]), sems, mutexes, queues, [], Beginning)
  }

  lemma StartSeen(kind: Kind, w: World)
    requires w.log == Beginning
    ensures Seen(kind, Then(Then(w.log, Created(0, IDLE_CONTEXT)), Created(1, IDLE_CONTEXT)), -1, -1)
  {
    NoTurnToReturn(kind, 0, IDLE_CONTEXT);
    NoTurnToReturn(kind, 1, IDLE_CONTEXT);
    hide TurnOf;
    TwoQuietEvents(kind, Beginning, Created(0, IDLE_CONTEXT), Created(1, IDLE_CONTEXT), -1, -1);
  }

  lemma ServedEvent(kind: Kind, h: History, e: Event, first: int, second: int)
    requires Seen(kind, h, first, second) && TurnOf(kind, e).Served?
    ensures Seen(kind, Then(h, e), first, second)
  {
  }

  // ---------------------------------------------------------------- the first two ticks

  function AtStart(): KernelState {
    KernelAt([0, 1], -1, 0, Task(1, 1, Ready, NoReason, 0), Task(2, 1, Ready, NoReason, 0))
  }

  function FirstRunning(): KernelState {
    KernelAt([1], 0, 1, Task(1, 1, Running, NoReason, 1), Task(2, 1, Ready, NoReason, 0))
  }

  function FirstBlocked(reason: BlockReason): KernelState {
    KernelAt([1], 0, 1, Task(1, 1, Blocked, reason, 1), Task(2, 1, Ready, NoReason, 0))
  }

  function SecondRunning(reason: BlockReason): KernelState {
    KernelAt([], 1, 2, Task(1, 1, Blocked, reason, 1), Task(2, 1, Running, NoReason, 1))
  }

  function BothBlocked(reason: BlockReason): KernelState {
    KernelAt([], 1, 2, Task(1, 1, Blocked, reason, 1), Task(2, 1, Blocked, reason, 1))
  }

  /** The world when the function of task x is called with the given kernel. */
  function Entered(w: World, k: KernelState, x: int): World {
    w.(k := k, log := Then(w.log, Event.Started(x, k.active)))
  }

  lemma FirstTick(w: World, acts: seq<Action>)
    requires w.k == AtStart()
    ensures Do(w, Body(acts)) == End(ApplyAll(Entered(w, FirstRunning(), 0), acts))
  {
    FirstDecision(w);
    hide AtDecision, Decide, Do, End, ApplyAll, SwitchTo;
    SwitchingTick(w, AtDecision(w, []), acts, 0);
  }

  lemma SecondTick(w: World, acts: seq<Action>, reason: BlockReason)
    requires w.k == FirstBlocked(reason) && reason != OnSleep
    ensures Do(w, Body(acts)) == End(ApplyAll(Entered(w, SecondRunning(reason), 1), acts))
  {
    SecondDecisionAfter(w, reason);
    hide AtDecision, Decide, Do, End, ApplyAll, SwitchTo;
    SwitchingTick(w, AtDecision(w, []), acts, 1);
  }

  /** Task 0 makes calls that leave the kernel alone, and then one that object 1 refuses. */
  lemma FirstRefused(kind: Kind, w: World, pre: seq<Action>, a: Action)
    requires w.k == AtStart()
    requires var b := ApplyAll(Entered(w, FirstRunning(), 0), pre);
             && b.k == FirstRunning() && Seen(kind, b.log, -1, -1)
             && Asks(kind, a) && Defined(b, a) && !Granted(kind, b, a) && ObjectOf(a) == 1
    ensures var w', b := Do(w, Body(pre + [a])), ApplyAll(Entered(w, FirstRunning(), 0), pre);
            && w' == b.(k := FirstBlocked(ReasonOf(kind)), log := w'.log)
            && Seen(kind, w'.log, 1, -1)
  {
    var b := ApplyAll(Entered(w, FirstRunning(), 0), pre);
    ApplyAllConcat(Entered(w, FirstRunning(), 0), pre, [a]);
    hide Do, End, ApplyAll, Asks, Granted, Seen, Defined;
    FirstTick(w, pre + [a]);
    RefusedReturn(kind, b, a, 0, -1, -1);
    assert SetTaskState(b.k, 0, Blocked, ReasonOf(kind)) == FirstBlocked(ReasonOf(kind));
  }

  /** Task 1 does the same with object 0. */
  lemma SecondRefused(kind: Kind, w: World, pre: seq<Action>, a: Action)
    requires w.k == FirstBlocked(ReasonOf(kind))
    requires var b := ApplyAll(Entered(w, SecondRunning(ReasonOf(kind)), 1), pre);
             && b.k == SecondRunning(ReasonOf(kind)) && Seen(kind, b.log, 1, -1)
             && Asks(kind, a) && Defined(b, a) && !Granted(kind, b, a) && ObjectOf(a) == 0
    ensures var w', b := Do(w, Body(pre + [a])), ApplyAll(Entered(w, SecondRunning(ReasonOf(kind)), 1), pre);
            && w' == b.(k := BothBlocked(ReasonOf(kind)), log := w'.log)
            && Seen(kind, w'.log, 1, 0)
  {
    var b := ApplyAll(Entered(w, SecondRunning(ReasonOf(kind)), 1), pre);
    ApplyAllConcat(Entered(w, SecondRunning(ReasonOf(kind)), 1), pre, [a]);
    hide Do, End, ApplyAll, Asks, Granted, Seen, Defined;
    SecondTick(w, pre + [a], ReasonOf(kind));
    RefusedReturn(kind, b, a, 1, 1, -1);
    assert SetTaskState(b.k, 1, Blocked, ReasonOf(kind)) == BothBlocked(ReasonOf(kind));
  }

  lemma EnteredSeen(kind: Kind, w: World, k: KernelState, x: int, first: int, second: int)
    requires Seen(kind, w.log, first, second)
    ensures Seen(kind, Entered(w, k, x).log, first, second)
  {
    NoTurnToReturn(kind, x, k.active);
    hide Seen, TurnOf;
    QuietEvent(kind, w.log, Event.Started(x, k.active), first, second);
  }

  /** The run of three steps after the creations. */
  lemma ThreeSteps(w: World, a: Step, b: Step, c: Step)
    requires w.k == FreshKernel([])
    ensures var w0 := Run(w, Creations());
            && Run(w, Creations() + [a, b, c]) == Do(Do(Do(w0, a), b), c)
            && w0.k == AtStart() && w0 == w.(k := w0.k, log := w0.log)
            && (w.log == Beginning ==> forall kind: Kind :: Seen(kind, w0.log, -1, -1))
  {
    hide Do, Run, Creations, Seen;
    AfterCreations(w, [a, b, c]);
    RunThree(Run(w, Creations()), a, b, c);
    if w.log == Beginning {
      forall kind: Kind ensures Seen(kind, Run(w, Creations()).log, -1, -1) {
        StartSeen(kind, w);
      }
    }
  }

  // ---------------------------------------------------------------- semaphores

  /** Task 0 waits for semaphore 1 and task 1 for semaphore 0; semaphore 0 is signalled. */
  function SemaphoreSteps(): seq<Step> {
    Creations() + [Body([] + [SemWait(1)]), Body([] + [SemWait(0)]), Call(SemSignal(0))]
  }

  lemma TwoSemaphoresStrandAWaiter()
    ensures Initial(Start([0, 0], [], []))
    ensures Stranded(SemaphoreWaiters, Run(Start([0, 0], [], []), SemaphoreSteps()))
  {
    var w := Start([0, 0], [], []);
    var w0 := Run(w, Creations());
    hide Run, Creations, Seen, Do, End, ApplyAll, Initial;
    ThreeSteps(w, Body([] + [SemWait(1)]), Body([] + [SemWait(0)]), Call(SemSignal(0)));
    hide Stranded;
    assert Initial(w) by { FreshStart([0, 0], [], []); }
    ApplyNothing(Entered(w0, FirstRunning(), 0));
    EnteredSeen(SemaphoreWaiters, w0, FirstRunning(), 0, -1, -1);
    FirstRefused(SemaphoreWaiters, w0, [], SemWait(1));
    var w1 := Do(w0, Body([] + [SemWait(1)]));
    ApplyNothing(Entered(w1, SecondRunning(OnSemaphore), 1));
    EnteredSeen(SemaphoreWaiters, w1, SecondRunning(OnSemaphore), 1, 1, -1);
    SecondRefused(SemaphoreWaiters, w1, [], SemWait(0));
    var w2 := Do(w1, Body([] + [SemWait(0)]));
    GivingStrands(SemaphoreWaiters, w2, SemSignal(0));
    CallIsApply(w2, SemSignal(0));
  }

  lemma ApplyNothing(w: World)
    ensures ApplyAll(w, []) == w
  {
  }

  lemma CallIsApply(w: World, a: Action)
    ensures Do(w, Call(a)) == Apply(w, a)
  {
  }

  lemma FreshStart(sems: seq<int>, mutexes: seq<Mutex>, queues: seq<MessageQueue>)
    requires forall i :: 0 <= i < |mutexes| ==> mutexes[i] == FREE_MUTEX
    requires forall i :: 0 <= i < |queues| ==> queues[i] == EMPTY_QUEUE
    ensures Initial(Start(sems, mutexes, queues))
  {
  }

  // ---------------------------------------------------------------- receivers

  const EMPTY_QUEUE := MessageQueue([0], 0, 0, 0)
  const FULL_QUEUE := MessageQueue([7], 0, 0, 1)

  /** Task 0 waits for a message in queue 1 and task 1 for one in queue 0; a message is sent to queue 0. */
  function ReceiverSteps(): seq<Step> {
    Creations() + [Body([] + [Receive(1)]), Body([] + [Receive(0)]), Call(Send(0, 7))]
  }

  lemma TwoQueuesStrandAReceiver()
    ensures Initial(Start([], [], [EMPTY_QUEUE, EMPTY_QUEUE]))
    ensures Stranded(Receivers, Run(Start([], [], [EMPTY_QUEUE, EMPTY_QUEUE]), ReceiverSteps()))
  {
    var w := Start([], [], [EMPTY_QUEUE, EMPTY_QUEUE]);
    var w0 := Run(w, Creations());
    hide Run, Creations, Seen, Do, End, ApplyAll, Initial;
    ThreeSteps(w, Body([] + [Receive(1)]), Body([] + [Receive(0)]), Call(Send(0, 7)));
    hide Stranded;
    assert Initial(w) by { FreshStart([], [], [EMPTY_QUEUE, EMPTY_QUEUE]); }
    ApplyNothing(Entered(w0, FirstRunning(), 0));
    EnteredSeen(Receivers, w0, FirstRunning(), 0, -1, -1);
    FirstRefused(Receivers, w0, [], Receive(1));
    var w1 := Do(w0, Body([] + [Receive(1)]));
    ApplyNothing(Entered(w1, SecondRunning(OnQueueEmpty), 1));
    EnteredSeen(Receivers, w1, SecondRunning(OnQueueEmpty), 1, 1, -1);
    SecondRefused(Receivers, w1, [], Receive(0));
    var w2 := Do(w1, Body([] + [Receive(0)]));
    GivingStrands(Receivers, w2, Send(0, 7));
    CallIsApply(w2, Send(0, 7));
  }

  // ---------------------------------------------------------------- senders

  /** Each task fills a queue and waits for room in it, task 0 in queue 1; a message of queue 0 is received. */
  function SenderSteps(): seq<Step> {
    Creations() + [Body([Send(1, 7)] + [Send(1, 7)]), Body([Send(0, 7)] + [Send(0, 7)]), Call(Receive(0))]
  }

  lemma FillsQueue(b: World, q: nat, first: int, second: int)
    requires b.k.HasCurrent() && q < |b.queues| && b.queues[q] == EMPTY_QUEUE
    requires forall i :: 0 <= i < |b.k.tasks| ==> !WaitsFor(b.k.tasks[i], OnQueueEmpty)
    requires Seen(Senders, b.log, first, second)
    ensures var b' := ApplyAll(b, [Send(q, 7)]);
            b' == b.(queues := b.queues[q := FULL_QUEUE], log := b'.log) && Seen(Senders, b'.log, first, second)
  {
    var e := Sent(q, b.k.current, 7, -1);
    assert ApplyAll(b, [Send(q, 7)]) == Apply(b, Send(q, 7));
    assert Waiter(b.k.tasks, OnQueueEmpty, |b.k.tasks|) == -1;
    assert Effects(b, Send(q, 7)) == [];
    assert [0][0 := 7] == [7];
    PerformNone(b.k);
    hide ApplyAll, Effects, PerformAll, Seen;
    assert Apply(b, Send(q, 7)) == b.(queues := b.queues[q := FULL_QUEUE], log := Then(b.log, e));
    ServedEvent(Senders, b.log, e, first, second);
  }

  lemma TwoQueuesStrandASender()
    ensures Initial(Start([], [], [EMPTY_QUEUE, EMPTY_QUEUE]))
    ensures Stranded(Senders, Run(Start([], [], [EMPTY_QUEUE, EMPTY_QUEUE]), SenderSteps()))
  {
    var w := Start([], [], [EMPTY_QUEUE, EMPTY_QUEUE]);
    var w0 := Run(w, Creations());
    hide Run, Creations, Seen, Do, End, ApplyAll, Initial;
    ThreeSteps(w, Body([Send(1, 7)] + [Send(1, 7)]), Body([Send(0, 7)] + [Send(0, 7)]), Call(Receive(0)));
    hide Stranded;
    assert Initial(w) by { FreshStart([], [], [EMPTY_QUEUE, EMPTY_QUEUE]); }
    EnteredSeen(Senders, w0, FirstRunning(), 0, -1, -1);
    FillsQueue(Entered(w0, FirstRunning(), 0), 1, -1, -1);
    FirstRefused(Senders, w0, [Send(1, 7)], Send(1, 7));
    var w1 := Do(w0, Body([Send(1, 7)] + [Send(1, 7)]));
    EnteredSeen(Senders, w1, SecondRunning(OnQueueFull), 1, 1, -1);
    FillsQueue(Entered(w1, SecondRunning(OnQueueFull), 1), 0, 1, -1);
    SecondRefused(Senders, w1, [Send(0, 7)], Send(0, 7));
    var w2 := Do(w1, Body([Send(0, 7)] + [Send(0, 7)]));
    GivingStrands(Senders, w2, Receive(0));
    CallIsApply(w2, Receive(0));
  }

  // ---------------------------------------------------------------- mutexes

  /** Task 0 locks mutex 0, task 1 locks mutex 1 and waits for mutex 0; task 0 waits for mutex 1 and unlocks mutex 0. */
  function MutexSteps(): seq<Step> {
    Creations() + [Body([Lock(0)]), Body([Lock(1)] + [Lock(0)]), Body([Lock(1), Unlock(0)])]
  }

  const HELD_BY_FIRST := Mutex(true, 1)
  const HELD_BY_SECOND := Mutex(true, 2)

  lemma TakesFreeMutex(b: World, m: nat, first: int, second: int)
    requires b.k.HasCurrent() && m < |b.mutexes| && b.mutexes[m] == FREE_MUTEX
    requires Seen(MutexWaiters, b.log, first, second)
    ensures var b' := ApplyAll(b, [Lock(m)]);
            && b' == b.(mutexes := b.mutexes[m := Mutex(true, b.k.tasks[b.k.current].id)], log := b'.log)
            && Seen(MutexWaiters, b'.log, first, second)
  {
    var e := Locked(m, b.k.current);
    assert ApplyAll(b, [Lock(m)]) == Apply(b, Lock(m));
    assert Effects(b, Lock(m)) == [];
    PerformNone(b.k);
    hide ApplyAll, Effects, PerformAll, Seen;
    ServedEvent(MutexWaiters, b.log, e, first, second);
  }

  function FirstReturned(): KernelState {
    KernelAt([1, 0], 0, 1, Task(1, 1, Ready, NoReason, 1), Task(2, 1, Ready, NoReason, 0))
  }

  lemma FirstLocks(w: World)
    requires w.k == AtStart() && w.mutexes == [FREE_MUTEX, FREE_MUTEX] && Seen(MutexWaiters, w.log, -1, -1)
    ensures var w' := Do(w, Body([Lock(0)]));
            && w'.k == FirstReturned() && w'.mutexes == [HELD_BY_FIRST, FREE_MUTEX]
            && Seen(MutexWaiters, w'.log, -1, -1)
  {
    var b := Entered(w, FirstRunning(), 0);
    hide Do, ApplyAll, Seen;
    FirstTick(w, [Lock(0)]);
    EnteredSeen(MutexWaiters, w, FirstRunning(), 0, -1, -1);
    TakesFreeMutex(b, 0, -1, -1);
    var b' := ApplyAll(b, [Lock(0)]);
    EndOfRunning(b');
    assert End(b').k == FirstReturned();
    NoTurnToReturn(MutexWaiters, 0, b'.k.active);
    QuietEvent(MutexWaiters, b'.log, Finished(0, b'.k.active), -1, -1);
  }

  /** The kernel while task 1 runs after task 0's turn, and when it has blocked. */
  function SecondTurn(): KernelState {
    KernelAt([0], 1, 2, Task(1, 1, Ready, NoReason, 1), Task(2, 1, Running, NoReason, 1))
  }

  function SecondTurnBlocked(): KernelState {
    KernelAt([0], 1, 2, Task(1, 1, Ready, NoReason, 1), Task(2, 1, Blocked, OnMutex, 1))
  }

  lemma SecondTurnBegins(w: World, acts: seq<Action>)
    requires w.k == FirstReturned()
    ensures Do(w, Body(acts)) == End(ApplyAll(Entered(w, SecondTurn(), 1), acts))
  {
    NothingDue(w);
    var d := AtDecision(w, []);
    hide AtDecision, Do, End, ApplyAll;
    assert BestOf(d.k.tasks, d.k.ready) == 1 by { BestOfTwo(d.k, 1, 0); }
    hide BestOf;
    assert SwitchTo(d.k, 1) == SecondTurn();
    hide SwitchTo;
    SwitchingTick(w, d, acts, 1);
  }

  lemma SecondLocksAndWaits(w: World)
    requires w.k == FirstReturned() && w.mutexes == [HELD_BY_FIRST, FREE_MUTEX] && Seen(MutexWaiters, w.log, -1, -1)
    ensures var w' := Do(w, Body([Lock(1)] + [Lock(0)]));
            && w'.k == SecondTurnBlocked() && w'.mutexes == [HELD_BY_FIRST, HELD_BY_SECOND]
            && Seen(MutexWaiters, w'.log, -1, 0)
  {
    var b := Entered(w, SecondTurn(), 1);
    hide Do, ApplyAll, Seen, End;
    SecondTurnBegins(w, [Lock(1)] + [Lock(0)]);
    EnteredSeen(MutexWaiters, w, SecondTurn(), 1, -1, -1);
    TakesFreeMutex(b, 1, -1, -1);
    ApplyAllConcat(b, [Lock(1)], [Lock(0)]);
    RefusedReturn(MutexWaiters, ApplyAll(b, [Lock(1)]), Lock(0), 1, -1, -1);
    assert SetTaskState(SecondTurn(), 1, Blocked, OnMutex) == SecondTurnBlocked();
  }

  function ThirdTurn(): KernelState {
    KernelAt([], 0, 3, Task(1, 1, Running, NoReason, 1), Task(2, 1, Blocked, OnMutex, 1))
  }

  lemma ThirdTurnBegins(w: World, acts: seq<Action>)
    requires w.k == SecondTurnBlocked()
    ensures Do(w, Body(acts)) == End(ApplyAll(Entered(w, ThirdTurn(), 0), acts))
  {
    NothingDue(w);
    var d := AtDecision(w, []);
    hide AtDecision, Do, End, ApplyAll;
    assert Decide(d.k) == Switch(0, false);
    assert SwitchTo(d.k, 0) == ThirdTurn();
    hide SwitchTo, Decide;
    SwitchingTick(w, d, acts, 0);
  }

  /** The first task is refused mutex 1 while it still runs. */
  lemma FirstIsRefused(b: World)
    requires b.k == ThirdTurn() && b.mutexes == [HELD_BY_FIRST, HELD_BY_SECOND] && Seen(MutexWaiters, b.log, -1, 0)
    ensures var b' := Apply(b, Lock(1));
            && b'.k == KernelAt([], 0, 3, Task(1, 1, Blocked, OnMutex, 1), Task(2, 1, Blocked, OnMutex, 1))
            && b'.mutexes == b.mutexes && Seen(MutexWaiters, b'.log, 1, 0)
  {
    RefusalBlocks(MutexWaiters, b, Lock(1));
    PerformOne(b.k, SetState(0, Blocked, OnMutex));
    hide Effects, Objects, PerformAll, Seen, TurnOf;
    RefusedEvent(MutexWaiters, b.log, Objects(b, Lock(1)).log.event, 0, -1, 0);
  }

  lemma TwoMutexesStrandAWaiter()
    ensures Initial(Start([], [FREE_MUTEX, FREE_MUTEX], []))
    ensures Stranded(MutexWaiters, Run(Start([], [FREE_MUTEX, FREE_MUTEX], []), MutexSteps()))
  {
    var w := Start([], [FREE_MUTEX, FREE_MUTEX], []);
    var w0 := Run(w, Creations());
    hide Run, Creations, Seen, Do, End, ApplyAll, Initial;
    ThreeSteps(w, Body([Lock(0)]), Body([Lock(1)] + [Lock(0)]), Body([Lock(1), Unlock(0)]));
    hide Stranded;
    assert Initial(w) by { FreshStart([], [FREE_MUTEX, FREE_MUTEX], []); }
    FirstLocks(w0);
    var w1 := Do(w0, Body([Lock(0)]));
    SecondLocksAndWaits(w1);
    var w2 := Do(w1, Body([Lock(1)] + [Lock(0)]));
    ThirdTurnBegins(w2, [Lock(1), Unlock(0)]);
    var b := Entered(w2, ThirdTurn(), 0);
    EnteredSeen(MutexWaiters, w2, ThirdTurn(), 0, -1, 0);
    TwoCalls(b, Lock(1), Unlock(0));
    FirstIsRefused(b);
    GivingStrands(MutexWaiters, Apply(b, Lock(1)), Unlock(0));
    hide Apply, Gives;
    assert SetTaskState(Apply(b, Lock(1)).k, 0, Ready, NoReason).tasks[0].state == Ready by { hide Remove; }
    hide SetTaskState;
    ReturnStillStranded(MutexWaiters, Apply(Apply(b, Lock(1)), Unlock(0)));
  }

  lemma TwoCalls(w: World, a: Action, a': Action)
    ensures ApplyAll(w, [a, a']) == Apply(Apply(w, a), a')
  {
    hide Apply;
    assert [a, a'][1..] == [a'];
    assert ApplyAll(Apply(w, a), [a']) == Apply(Apply(w, a), a');
  }
}
