/**
 * Blocked tasks and what they wait for, over whole runs and for any number of objects. A semaphore has tokens, a free
 * mutex is one token, a queue has messages for receivers and free slots for senders. Wake-ups select a task by the
 * reason it is blocked for and not by the object, so whether an object's waiters are served is a matter of which
 * task the wake-up happens to find.
 */
module FairWaiting {
  import opened KernelTypes
  import opened ReadyQueues
  import opened KernelStates
  import opened EventScan
  import opened Worlds
  import opened RunInduction
  import opened Waiters

  datatype Kind = SemaphoreWaiters | MutexWaiters | Receivers | Senders

  function ReasonOf(kind: Kind): BlockReason {
    match kind
    case SemaphoreWaiters => OnSemaphore
    case MutexWaiters => OnMutex
    case Receivers => OnQueueEmpty
    case Senders => OnQueueFull
  }

  function ObjectCount(kind: Kind, w: World): nat {
    match kind
    case SemaphoreWaiters => |w.sems|
    case MutexWaiters => |w.mutexes|
    case Receivers => |w.queues|
    case Senders => |w.queues|
  }

  /** What object s has to give to waiters of this kind. */
  function Supply(kind: Kind, w: World, s: nat): int
    requires s < ObjectCount(kind, w)
  {
    match kind
    case SemaphoreWaiters => w.sems[s]
    case MutexWaiters => if w.mutexes[s].locked then 0 else 1
    case Receivers => w.queues[s].count
    case Senders => |w.queues[s].buffer| - w.queues[s].count
  }

  // ---------------------------------------------------------------- the history, seen by one kind of waiter

  /** An object served or turned away a task, or a wake-up found the given task, -1 if none. */
  datatype Turn = Served(obj: nat, task: int) | TurnedAway(obj: nat, task: int) | Woke(task: int) | NoTurn

  function TurnOf(kind: Kind, e: Event): Turn {
    match kind
    case SemaphoreWaiters => (
      match e
      case Took(s, t) => Turn.Served(s, t)
      case Waited(s, t) => TurnedAway(s, t)
      case Signalled(_, b) => Woke(b)
      case _ => NoTurn)
    case MutexWaiters => (
      match e
      case Locked(m, t) => Turn.Served(m, t)
      case Refused(m, t) => TurnedAway(m, t)
      case Unlocked(_, _, b) => Woke(b)
      case _ => NoTurn)
    case Receivers => (
      match e
      case Received(q, t, _, _) => Turn.Served(q, t)
      case ReceiveRefused(q, t) => TurnedAway(q, t)
      case Sent(_, _, _, b) => Woke(b)
      case _ => NoTurn)
    case Senders => (
      match e
      case Sent(q, t, _, _) => Turn.Served(q, t)
      case SendRefused(q, t) => TurnedAway(q, t)
      case Received(_, _, _, b) => Woke(b)
      case _ => NoTurn)
  }

  /** The object that last turned task t away, or -1. */
  function LastRefusal(kind: Kind, h: History, t: int): int {
    match h
    case Beginning => -1
    case Then(past, e) =>
      var turn := TurnOf(kind, e);
      if turn.TurnedAway? && turn.task == t then turn.obj else LastRefusal(kind, past, t)
  }

  /** The tasks woken after object s turned them away that have not tried it again since. */
  function WokenFor(kind: Kind, h: History, s: nat): set<int> {
    match h
    case Beginning => {}
    case Then(past, e) =>
      match TurnOf(kind, e)
      case Served(o, t) => if o == s then WokenFor(kind, past, s) - {t} else WokenFor(kind, past, s)
      case TurnedAway(o, t) => if o == s then WokenFor(kind, past, s) - {t} else WokenFor(kind, past, s)
      case Woke(b) =>
        if b >= 0 && LastRefusal(kind, past, b) == s then WokenFor(kind, past, s) + {b} else WokenFor(kind, past, s)
      case NoTurn => WokenFor(kind, past, s)
  }

  /** The tasks blocked for this kind of reason that were last turned away by object s. */
  function BlockedOn(kind: Kind, w: World, s: nat): set<int> {
    set t | t in WaitersOn(w.k.tasks, ReasonOf(kind)) && LastRefusal(kind, w.log, t) == s
  }

  /** While a task is blocked on object s, all it has to give is spoken for by woken tasks. */
  ghost predicate Fair(kind: Kind, w: World, s: nat)
    requires s < ObjectCount(kind, w)
  {
    Balanced(WokenFor(kind, w.log, s), BlockedOn(kind, w, s), Supply(kind, w, s), |w.k.tasks|)
  }

  ghost predicate AllFair(kind: Kind, w: World) {
    forall s: nat :: s < ObjectCount(kind, w) ==> Fair(kind, w, s)
  }

  // ---------------------------------------------------------------- the calls

  /** The call a waiter makes. */
  predicate Asks(kind: Kind, a: Action) {
    match kind
    case SemaphoreWaiters => a.SemWait?
    case MutexWaiters => a.Lock?
    case Receivers => a.Receive?
    case Senders => a.Send?
  }

  /** The call adds to what an object has to give, and wakes the most urgent waiter of the kind. */
  predicate Gives(kind: Kind, w: World, a: Action) {
    && Defined(w, a)
    && match kind
       case SemaphoreWaiters => a.SemSignal?
       case MutexWaiters =>
         a.Unlock? && w.mutexes[a.mutex].locked && w.mutexes[a.mutex].owner == w.k.tasks[w.k.current].id
       case Receivers => a.Send? && w.queues[a.queue].count != |w.queues[a.queue].buffer|
       case Senders => a.Receive? && w.queues[a.queue].count != 0
  }

  /** The object of a call. */
  function ObjectOf(a: Action): nat {
    match a
    case SemWait(s) => s
    case SemSignal(s) => s
    case Lock(m) => m
    case Unlock(m) => m
    case Send(q, _) => q
    case Receive(q) => q
    case _ => 0
  }

  /** The call is served at once. */
  predicate Granted(kind: Kind, w: World, a: Action)
    requires Asks(kind, a) && Defined(w, a)
  {
    match kind
    case SemaphoreWaiters => w.sems[a.sem] > 0
    case MutexWaiters => !w.mutexes[a.mutex].locked || w.mutexes[a.mutex].owner == w.k.tasks[w.k.current].id
    case Receivers => w.queues[a.queue].count != 0
    case Senders => w.queues[a.queue].count != |w.queues[a.queue].buffer|
  }

  /** The objects other than s have the same supply. */
  ghost predicate OnlySupplyOf(kind: Kind, w: World, w': World, s: nat) {
    && s < ObjectCount(kind, w) == ObjectCount(kind, w')
    && forall o: nat :: o < ObjectCount(kind, w) && o != s ==> Supply(kind, w', o) == Supply(kind, w, o)
  }

  /** w' logs one more event, which is the given turn. */
  ghost predicate TakesTurn(kind: Kind, w: World, w': World, turn: Turn) {
    w'.log.Then? && w'.log.past == w.log && TurnOf(kind, w'.log.event) == turn
  }

  ghost predicate NoNewWaiter(kind: Kind, w: World, w': World) {
    && |w.k.tasks| <= |w'.k.tasks|
    && WaitersOn(w'.k.tasks, ReasonOf(kind)) <= WaitersOn(w.k.tasks, ReasonOf(kind))
  }

  lemma GrantedResult(kind: Kind, w: World, a: Action)
    requires Asks(kind, a) && Defined(w, a) && Granted(kind, w, a)
    ensures var w', s := Apply(w, a), ObjectOf(a);
            && OnlySupplyOf(kind, w, w', s) && TakesTurn(kind, w, w', Turn.Served(s, w.k.current))
            && NoNewWaiter(kind, w, w')
            && (Supply(kind, w', s) == Supply(kind, w, s) - 1 || Supply(kind, w', s) == Supply(kind, w, s) == 0)
  {
    hide WakeOne, PerformAll, Waiter, WaitersOn;
    PerformNone(w.k);
    WakeOneShrinks(w.k, OnQueueFull, ReasonOf(kind));
    WakeOneShrinks(w.k, OnQueueEmpty, ReasonOf(kind));
  }

  lemma RefusedResult(kind: Kind, w: World, a: Action)
    requires Asks(kind, a) && Defined(w, a) && !Granted(kind, w, a)
    ensures var w', s, c := Apply(w, a), ObjectOf(a), w.k.current;
            && OnlySupplyOf(kind, w, w', s) && TakesTurn(kind, w, w', TurnedAway(s, c))
            && Supply(kind, w', s) == Supply(kind, w, s) <= 0
            && |w'.k.tasks| == |w.k.tasks|
            && WaitersOn(w'.k.tasks, ReasonOf(kind)) == WaitersOn(w.k.tasks, ReasonOf(kind)) + {c}
  {
    BlockedCallerWaits(w.k, ReasonOf(kind));
    hide PerformAll, Waiter, WaitersOn;
  }

  lemma GiveResult(kind: Kind, w: World, a: Action)
    requires Gives(kind, w, a)
    ensures var w', s, b := Apply(w, a), ObjectOf(a), Waiter(w.k.tasks, ReasonOf(kind), |w.k.tasks|);
            && OnlySupplyOf(kind, w, w', s) && TakesTurn(kind, w, w', Woke(b))
            && Supply(kind, w', s) == Supply(kind, w, s) + 1
            && w'.k == PerformAll(w.k, WakeOne(w.k, ReasonOf(kind)))
  {
    hide WakeOne, PerformAll, Waiter;
  }

  /** A call that neither asks nor gives. */
  lemma OtherResult(kind: Kind, w: World, a: Action)
    requires !(Asks(kind, a) && Defined(w, a)) && !Gives(kind, w, a)
    ensures var w' := Apply(w, a);
            && SameSupplies(kind, w, w') && NoNewWaiter(kind, w, w')
            && (w'.log == w.log || TakesTurn(kind, w, w', NoTurn))
  {
    if Defined(w, a) {
      OtherCallsDoNotBlock(w, a, ReasonOf(kind));
      OtherSupplies(kind, w, a);
    } else {
      PerformNone(w.k);
    }
    hide Apply, WaitersOn, TurnOf;
  }

  ghost predicate SameSupplies(kind: Kind, w: World, w': World) {
    && ObjectCount(kind, w) == ObjectCount(kind, w')
    && forall o: nat :: o < ObjectCount(kind, w) ==> Supply(kind, w', o) == Supply(kind, w, o)
  }

  lemma OtherSupplies(kind: Kind, w: World, a: Action)
    requires !Asks(kind, a) && !Gives(kind, w, a) && Defined(w, a)
    ensures var w' := Apply(w, a);
            SameSupplies(kind, w, w') && (w'.log == w.log || TakesTurn(kind, w, w', NoTurn))
  {
    var w' := Objects(w, a);
    match kind {
      case SemaphoreWaiters => OtherSemaphoreSupplies(w, a);
      case MutexWaiters => OtherMutexSupplies(w, a);
      case _ => OtherQueueSupplies(kind, w, a);
    }
    hide Objects, Effects, PerformAll, Gives, Asks;
  }

  lemma OtherSemaphoreSupplies(w: World, a: Action)
    requires !Asks(SemaphoreWaiters, a) && !Gives(SemaphoreWaiters, w, a) && Defined(w, a)
    ensures var w' := Objects(w, a);
            && w'.sems == w.sems && (w'.log == w.log || TakesTurn(SemaphoreWaiters, w, w', NoTurn))
  {
    hide SetFlags, AfterWait, Clear, Effects, Waiter;
  }

  lemma OtherMutexSupplies(w: World, a: Action)
    requires !Asks(MutexWaiters, a) && !Gives(MutexWaiters, w, a) && Defined(w, a)
    ensures var w' := Objects(w, a);
            && w'.mutexes == w.mutexes && (w'.log == w.log || TakesTurn(MutexWaiters, w, w', NoTurn))
  {
    hide SetFlags, AfterWait, Clear, Effects, Waiter;
  }

  lemma OtherQueueSupplies(kind: Kind, w: World, a: Action)
    requires kind == Receivers || kind == Senders
    requires !Asks(kind, a) && !Gives(kind, w, a) && Defined(w, a)
    ensures var w' := Objects(w, a);
            && w'.queues == w.queues && (w'.log == w.log || TakesTurn(kind, w, w', NoTurn))
  {
    hide SetFlags, AfterWait, Clear, Effects, Waiter;
  }

  // ---------------------------------------------------------------- what the turns do to the sets

  /** A task stays blocked on the object that turned it away until it is woken or turned away again. */
  lemma TurnKeepsRefusals(kind: Kind, w: World, w': World, turn: Turn, t: int)
    requires TakesTurn(kind, w, w', turn)
    ensures LastRefusal(kind, w'.log, t) ==
            if turn.TurnedAway? && turn.task == t then turn.obj else LastRefusal(kind, w.log, t)
  {
  }

  lemma QuietTurn(kind: Kind, w: World, w': World, s: nat)
    requires w'.log == w.log || TakesTurn(kind, w, w', NoTurn)
    requires NoNewWaiter(kind, w, w')
    ensures WokenFor(kind, w'.log, s) == WokenFor(kind, w.log, s)
    ensures BlockedOn(kind, w', s) <= BlockedOn(kind, w, s)
  {
    hide WaitersOn, TurnOf;
  }

  lemma ServedTurn(kind: Kind, w: World, w': World, o: nat, c: int, s: nat)
    requires TakesTurn(kind, w, w', Turn.Served(o, c)) && NoNewWaiter(kind, w, w')
    ensures WokenFor(kind, w'.log, s) == if o == s then WokenFor(kind, w.log, s) - {c} else WokenFor(kind, w.log, s)
    ensures BlockedOn(kind, w', s) <= BlockedOn(kind, w, s)
  {
    hide WaitersOn, TurnOf;
  }

  lemma RefusedTurn(kind: Kind, w: World, w': World, o: nat, c: int, s: nat)
    requires TakesTurn(kind, w, w', TurnedAway(o, c))
    requires WaitersOn(w'.k.tasks, ReasonOf(kind)) == WaitersOn(w.k.tasks, ReasonOf(kind)) + {c}
    ensures WokenFor(kind, w'.log, s) == if o == s then WokenFor(kind, w.log, s) - {c} else WokenFor(kind, w.log, s)
    ensures BlockedOn(kind, w', s) == if o == s then BlockedOn(kind, w, s) + {c} else BlockedOn(kind, w, s) - {c}
  {
    hide WaitersOn, TurnOf;
  }

  lemma WokenTurn(kind: Kind, w: World, w': World, b: int, s: nat)
    requires TakesTurn(kind, w, w', Woke(b)) && b >= -1
    requires WaitersOn(w'.k.tasks, ReasonOf(kind)) == WaitersOn(w.k.tasks, ReasonOf(kind)) - {b}
    ensures WokenFor(kind, w'.log, s) ==
            if b >= 0 && LastRefusal(kind, w.log, b) == s then WokenFor(kind, w.log, s) + {b}
            else WokenFor(kind, w.log, s)
    ensures BlockedOn(kind, w', s) == BlockedOn(kind, w, s) - {b}
  {
    hide WaitersOn, TurnOf;
  }

  // ---------------------------------------------------------------- when giving keeps everybody served

  /** The most urgent waiter of the kind, whom the next wake-up will find, or -1. */
  function MostUrgent(kind: Kind, w: World): int {
    Waiter(w.k.tasks, ReasonOf(kind), |w.k.tasks|)
  }

  /** Nobody is blocked on object s, or the next wake-up finds one of its own waiters. */
  ghost predicate Fits(kind: Kind, w: World, s: nat) {
    BlockedOn(kind, w, s) == {} || MostUrgent(kind, w) in BlockedOn(kind, w, s)
  }

  /** Giving to object s leaves nobody stranded: it fits, or a woken task is left to take what is given. */
  ghost predicate Safe(kind: Kind, w: World, s: nat)
    requires s < ObjectCount(kind, w)
  {
    Fits(kind, w, s) || Supply(kind, w, s) < |WokenFor(kind, w.log, s)|
  }

  lemma MostUrgentWaits(kind: Kind, w: World)
    ensures var b := MostUrgent(kind, w);
            if b == -1 then WaitersOn(w.k.tasks, ReasonOf(kind)) == {}
            else 0 <= b < |w.k.tasks| && b in WaitersOn(w.k.tasks, ReasonOf(kind))
  {
    WakeOneWaiters(w.k, ReasonOf(kind));
    hide WakeOne, PerformAll;
  }

  /** A call that gives to s keeps every other object fair, and s exactly if it is safe. */
  lemma GivingKeepsFairIff(kind: Kind, w: World, a: Action, s: nat)
    requires Gives(kind, w, a) && s < ObjectCount(kind, w) && Fair(kind, w, s)
    ensures s < ObjectCount(kind, Apply(w, a))
    ensures Fair(kind, Apply(w, a), s) <==> (s == ObjectOf(a) ==> Safe(kind, w, s))
  {
    hide Apply, Gives, WokenFor, Supply, WakeOne, PerformAll, Waiter, WaitersOn, LastRefusal;
    var w', b, n := Apply(w, a), MostUrgent(kind, w), |w.k.tasks|;
    GiveResult(kind, w, a);
    WakeOneWaiters(w.k, ReasonOf(kind));
    MostUrgentWaits(kind, w);
    WokenTurn(kind, w, w', b, s);
    assert b != -1 && LastRefusal(kind, w.log, b) == s <==> b in BlockedOn(kind, w, s) by {
      InBlockedOn(kind, w, b, s);
    }
    assert b == -1 ==> BlockedOn(kind, w, s) == {};
    hide BlockedOn;
    GivingBalancesIff(WokenFor(kind, w.log, s), BlockedOn(kind, w, s), Supply(kind, w, s), n, b, s == ObjectOf(a));
  }

  lemma InBlockedOn(kind: Kind, w: World, t: int, s: nat)
    ensures t in BlockedOn(kind, w, s) <==>
            t in WaitersOn(w.k.tasks, ReasonOf(kind)) && LastRefusal(kind, w.log, t) == s
  {
    hide WaitersOn, LastRefusal;
  }

  /** The same on sets: b leaves the blocked tasks and joins the woken ones if it was among them. */
  lemma GivingBalancesIff(woken: set<int>, blocked: set<int>, supply: int, n: nat, b: int, gives: bool)
    requires Balanced(woken, blocked, supply, n) && -1 <= b < n
    requires b == -1 ==> blocked == {}
    ensures Balanced(if b in blocked then woken + {b} else woken, blocked - {b},
                     if gives then supply + 1 else supply, n)
            <==> (gives ==> blocked == {} || b in blocked || supply < |woken|)
  {
  }

  // ---------------------------------------------------------------- every call

  /** Whoever is blocked was turned away by an object that exists. */
  ghost predicate Attributed(kind: Kind, w: World) {
    forall t :: t in WaitersOn(w.k.tasks, ReasonOf(kind)) ==> 0 <= LastRefusal(kind, w.log, t) < ObjectCount(kind, w)
  }

  /** The guard: a call that gives to an object does so when that is safe. */
  ghost predicate SafeCall(kind: Kind, w: World, a: Action) {
    Gives(kind, w, a) ==> ObjectOf(a) < ObjectCount(kind, w) && Safe(kind, w, ObjectOf(a))
  }

  lemma AskingKeepsFair(kind: Kind, w: World, a: Action, s: nat)
    requires Asks(kind, a) && Defined(w, a) && s < ObjectCount(kind, w) && Fair(kind, w, s)
    ensures s < ObjectCount(kind, Apply(w, a)) && Fair(kind, Apply(w, a), s)
  {
    var w', c, n := Apply(w, a), w.k.current, |w.k.tasks|;
    var woken, blocked, supply := WokenFor(kind, w.log, s), BlockedOn(kind, w, s), Supply(kind, w, s);
    if Granted(kind, w, a) {
      GrantedResult(kind, w, a);
      hide Apply, Asks, Granted, WokenFor, BlockedOn, Supply, WaitersOn, LastRefusal, Balanced;
      ServedTurn(kind, w, w', ObjectOf(a), c, s);
      if s == ObjectOf(a) {
        TakingBalances(woken, blocked, supply, Supply(kind, w', s), n, c);
        ShrinkBalances(woken - {c}, blocked, BlockedOn(kind, w', s), Supply(kind, w', s), n, |w'.k.tasks|);
      } else {
        ShrinkBalances(woken, blocked, BlockedOn(kind, w', s), supply, n, |w'.k.tasks|);
      }
    } else {
      RefusedResult(kind, w, a);
      hide Apply, Asks, Granted, WokenFor, BlockedOn, Supply, WaitersOn, LastRefusal, Balanced;
      RefusedTurn(kind, w, w', ObjectOf(a), c, s);
      if s == ObjectOf(a) {
        assert supply == 0 by { CountsAreNatural(woken, blocked, supply, n); }
        BlockBalances(woken, blocked, n, c);
      } else {
        ShrinkBalances(woken, blocked, blocked - {c}, supply, n, n);
      }
    }
  }

  /** Taking the supply, or asking again while there is none. */
  lemma TakingBalances(woken: set<int>, blocked: set<int>, supply: int, left: int, n: nat, t: int)
    requires Balanced(woken, blocked, supply, n)
    requires left == supply - 1 || left == supply == 0
    requires left >= 0
    ensures Balanced(woken - {t}, blocked, left, n)
  {
    if supply > 0 {
      TakeBalances(woken, blocked, supply, n, t);
    }
  }

  lemma OtherCallsKeepFair(kind: Kind, w: World, a: Action, s: nat)
    requires !(Asks(kind, a) && Defined(w, a)) && !Gives(kind, w, a)
    requires s < ObjectCount(kind, w) && Fair(kind, w, s)
    ensures s < ObjectCount(kind, Apply(w, a)) && Fair(kind, Apply(w, a), s)
  {
    var w' := Apply(w, a);
    OtherResult(kind, w, a);
    hide Apply, Asks, Gives, WokenFor, BlockedOn, Supply, WaitersOn, LastRefusal, Balanced;
    QuietTurn(kind, w, w', s);
    ShrinkBalances(WokenFor(kind, w.log, s), BlockedOn(kind, w, s), BlockedOn(kind, w', s), Supply(kind, w, s),
                   |w.k.tasks|, |w'.k.tasks|);
  }

  /** From a fair state, a call leaves everybody fair exactly if it is safe. */
  lemma CallKeepsFairIff(kind: Kind, w: World, a: Action)
    requires AllFair(kind, w)
    ensures AllFair(kind, Apply(w, a)) <==> SafeCall(kind, w, a)
  {
    hide Apply, Asks, Gives, Fair, Safe, Supply;
    ObjectsStay(kind, w, a);
    forall s: nat | s < ObjectCount(kind, w)
      ensures Fair(kind, Apply(w, a), s) <==> (Gives(kind, w, a) && s == ObjectOf(a) ==> Safe(kind, w, s))
    {
      if Gives(kind, w, a) {
        GivingKeepsFairIff(kind, w, a, s);
      } else if Asks(kind, a) && Defined(w, a) {
        AskingKeepsFair(kind, w, a, s);
      } else {
        OtherCallsKeepFair(kind, w, a, s);
      }
    }
  }

  lemma ObjectsStay(kind: Kind, w: World, a: Action)
    ensures ObjectCount(kind, Apply(w, a)) == ObjectCount(kind, w)
    ensures Gives(kind, w, a) ==> ObjectOf(a) < ObjectCount(kind, w)
  {
    hide SetFlags, AfterWait, Clear, Effects, Waiter;
  }

  lemma InternalKeepsFair(kind: Kind, w: World, w': World)
    requires AllFair(kind, w) && Internal(w, w')
    ensures AllFair(kind, w')
  {
    InternalShrinksWaiters(w, w', ReasonOf(kind));
    assert w'.log == w.log || TakesTurn(kind, w, w', NoTurn);
    forall s: nat | s < ObjectCount(kind, w') ensures Fair(kind, w', s) {
      assert Fair(kind, w, s) && Supply(kind, w', s) == Supply(kind, w, s);
      hide WokenFor, BlockedOn, Supply, WaitersOn, LastRefusal, Balanced;
      QuietTurn(kind, w, w', s);
      ShrinkBalances(WokenFor(kind, w.log, s), BlockedOn(kind, w, s), BlockedOn(kind, w', s), Supply(kind, w, s),
                     |w.k.tasks|, |w'.k.tasks|);
    }
  }

  lemma CallKeepsAttributed(kind: Kind, w: World, a: Action)
    requires Attributed(kind, w)
    ensures Attributed(kind, Apply(w, a))
  {
    hide Apply, Asks, Gives, Granted, Supply, WaitersOn, WakeOne, PerformAll, Waiter, ObjectCount, TurnOf;
    var w' := Apply(w, a);
    ObjectsStay(kind, w, a);
    if Gives(kind, w, a) {
      GiveResult(kind, w, a);
      WakeOneWaiters(w.k, ReasonOf(kind));
    } else if Asks(kind, a) && Defined(w, a) {
      if Granted(kind, w, a) {
        GrantedResult(kind, w, a);
      } else {
        RefusedResult(kind, w, a);
      }
    } else {
      OtherResult(kind, w, a);
    }
  }

  lemma InternalKeepsAttributed(kind: Kind, w: World, w': World)
    requires Attributed(kind, w) && Internal(w, w')
    ensures Attributed(kind, w')
  {
    InternalShrinksWaiters(w, w', ReasonOf(kind));
    assert w'.log == w.log || TakesTurn(kind, w, w', NoTurn);
    hide WaitersOn, TurnOf;
  }

  // ---------------------------------------------------------------- every run

  ghost predicate NonNegativeStart(kind: Kind, w: World) {
    kind == SemaphoreWaiters ==> forall s: nat :: s < |w.sems| ==> w.sems[s] >= 0
  }

  lemma StartsFair(kind: Kind, w: World)
    requires Initial(w) && NonNegativeStart(kind, w)
    ensures AllFair(kind, w) && Attributed(kind, w)
  {
    assert WaitersOn(w.k.tasks, ReasonOf(kind)) == {};
  }

  ghost function SafeCalls(kind: Kind): (World, Action) -> bool {
    (w: World, a: Action) => SafeCall(kind, w, a)
  }

  ghost function FairAfter(kind: Kind): (World, Action) -> bool {
    (w: World, a: Action) => AllFair(kind, Apply(w, a))
  }

  lemma SafeCallsKeepFair(kind: Kind)
    ensures Agree((w: World) => AllFair(kind, w), SafeCalls(kind), FairAfter(kind))
  {
    hide AllFair, SafeCall, Apply, Internal;
    forall w: World, a: Action | AllFair(kind, w)
      ensures AllFair(kind, Apply(w, a)) <==> SafeCall(kind, w, a)
    {
      CallKeepsFairIff(kind, w, a);
    }
    forall w: World, w': World | AllFair(kind, w) && Internal(w, w') ensures AllFair(kind, w') {
      InternalKeepsFair(kind, w, w');
    }
  }

  /**
   * For any number of objects: a run leaves everybody fair after every single call exactly if every call that gives
   * to an object is safe when it is made.
   */
  lemma FairThroughoutIff(kind: Kind, w: World, steps: seq<Step>)
    requires Initial(w) && NonNegativeStart(kind, w)
    ensures StepsOk(FairAfter(kind), FairAfter(kind), w, steps) <==>
            StepsOk(SafeCalls(kind), SafeCalls(kind), w, steps)
  {
    StartsFair(kind, w);
    SafeCallsKeepFair(kind);
    hide AllFair, Agree;
    SameRuns(x => AllFair(kind, x), SafeCalls(kind), FairAfter(kind), w, steps);
  }

  /** What fairness means for the tasks blocked on an object. */
  lemma FairMeansServed(kind: Kind, w: World, s: nat)
    requires s < ObjectCount(kind, w) && Fair(kind, w, s)
    ensures BlockedOn(kind, w, s) != {} ==>
              && Supply(kind, w, s) <= |WokenFor(kind, w.log, s)|
              && |BlockedOn(kind, w, s)| + Supply(kind, w, s) <= |w.k.tasks|
  {
    hide WokenFor, LastRefusal, Supply;
    var blocked, woken := BlockedOn(kind, w, s), WokenFor(kind, w.log, s);
    FitsTable(blocked + woken, |w.k.tasks|);
    assert |blocked + woken| == |blocked| + |woken|;
  }

  /**
   * No stranded waiter, for any number of objects: at the end of every run whose giving calls are all safe, while a
   * task is blocked on an object, what the object has to give is at most the number of tasks woken for it that have
   * not tried it again, so blocked tasks and supply together fit the number of tasks.
   */
  lemma SafeRunsStrandNobody(kind: Kind, w: World, steps: seq<Step>, s: nat)
    requires Initial(w) && NonNegativeStart(kind, w)
    requires StepsOk(SafeCalls(kind), SafeCalls(kind), w, steps) && s < ObjectCount(kind, Run(w, steps))
    ensures var w' := Run(w, steps);
            BlockedOn(kind, w', s) != {} ==>
              && Supply(kind, w', s) <= |WokenFor(kind, w'.log, s)|
              && |BlockedOn(kind, w', s)| + Supply(kind, w', s) <= |w'.k.tasks|
  {
    StartsFair(kind, w);
    SafeCallsKeepFair(kind);
    GuardedRunKeeps(x => AllFair(kind, x), SafeCalls(kind), w, steps);
    hide Run, StepsOk, Fair, BlockedOn, WokenFor, Supply;
    FairMeansServed(kind, Run(w, steps), s);
  }

  // ---------------------------------------------------------------- one object

  /** With a single object every giving call is safe. */
  lemma OneObjectIsSafe(kind: Kind, w: World, a: Action)
    requires ObjectCount(kind, w) == 1 && Attributed(kind, w)
    ensures SafeCall(kind, w, a)
    ensures BlockedOn(kind, w, 0) == WaitersOn(w.k.tasks, ReasonOf(kind))
  {
    ObjectsStay(kind, w, a);
    MostUrgentWaits(kind, w);
    hide WaitersOn, LastRefusal, MostUrgent, Gives, Supply, WokenFor;
  }

  ghost predicate OneFairObject(kind: Kind, w: World) {
    ObjectCount(kind, w) == 1 && Attributed(kind, w) && AllFair(kind, w)
  }

  /** With a single object of the kind, nobody is stranded in any run. */
  lemma OneObjectStrandsNobody(kind: Kind, w: World, steps: seq<Step>)
    requires Initial(w) && NonNegativeStart(kind, w) && ObjectCount(kind, w) == 1
    ensures var w' := Run(w, steps);
            var blocked := WaitersOn(w'.k.tasks, ReasonOf(kind));
            && ObjectCount(kind, w') == 1
            && (blocked != {} ==>
                  && Supply(kind, w', 0) <= |WokenFor(kind, w'.log, 0)|
                  && |blocked| + Supply(kind, w', 0) <= |w'.k.tasks|)
  {
    var P := (x: World) => OneFairObject(kind, x);
    forall x: World, a: Action | P(x) ensures P(Apply(x, a)) {
      hide AllFair, Attributed, SafeCall, Apply;
      OneObjectIsSafe(kind, x, a);
      CallKeepsFairIff(kind, x, a);
      CallKeepsAttributed(kind, x, a);
      ObjectsStay(kind, x, a);
    }
    forall x: World, x': World | P(x) && Internal(x, x') ensures P(x') {
      hide AllFair, Attributed;
      InternalKeepsFair(kind, x, x');
      InternalKeepsAttributed(kind, x, x');
    }
    StartsFair(kind, w);
    hide Apply, Run, Internal, BlockedOn, WokenFor, Supply, WaitersOn, Attributed, Fair;
    RunKeeps(P, w, steps);
    OneObjectIsSafe(kind, Run(w, steps), SemWait(0));
    FairMeansServed(kind, Run(w, steps), 0);
  }

  /**
   * With one semaphore of non-negative initial count: while a task is blocked on it, the count is at most the number
   * of tasks woken for it that have not called wait again.
   */
  lemma NoStrandedWaiter(w: World, steps: seq<Step>)
    requires Initial(w) && |w.sems| == 1 && w.sems[0] >= 0
    ensures var w' := Run(w, steps);
            var blocked := WaitersOn(w'.k.tasks, OnSemaphore);
            && |w'.sems| == 1
            && (blocked != {} ==>
                  && w'.sems[0] <= |WokenFor(SemaphoreWaiters, w'.log, 0)|
                  && |blocked| + w'.sems[0] <= |w'.k.tasks|)
  {
    hide Run, Initial, WaitersOn, WokenFor;
    OneObjectStrandsNobody(SemaphoreWaiters, w, steps);
  }

  /** With one mutex, a blocked task implies that it is held or that a woken task has yet to retry. */
  lemma NobodyWaitsForFreeMutex(w: World, steps: seq<Step>)
    requires Initial(w) && |w.mutexes| == 1
    ensures var w' := Run(w, steps);
            && |w'.mutexes| == 1
            && (WaitersOn(w'.k.tasks, OnMutex) != {} ==>
                  w'.mutexes[0].locked || WokenFor(MutexWaiters, w'.log, 0) != {})
  {
    hide Run, Initial, WaitersOn, WokenFor;
    OneObjectStrandsNobody(MutexWaiters, w, steps);
  }

  /**
   * With one queue: while a task is blocked on the empty queue, the buffered messages are at most the receivers woken
   * for them that have not called receive again; while a task is blocked on the full queue, the same holds of the
   * free slots and the senders.
   */
  lemma NoStrandedQueueWaiter(w: World, steps: seq<Step>)
    requires Initial(w) && |w.queues| == 1
    ensures var w' := Run(w, steps);
            && |w'.queues| == 1
            && (WaitersOn(w'.k.tasks, OnQueueEmpty) != {} ==>
                  w'.queues[0].count <= |WokenFor(Receivers, w'.log, 0)|)
            && (WaitersOn(w'.k.tasks, OnQueueFull) != {} ==>
                  |w'.queues[0].buffer| - w'.queues[0].count <= |WokenFor(Senders, w'.log, 0)|)
  {
    hide Run, Initial, WaitersOn, WokenFor;
    OneObjectStrandsNobody(Receivers, w, steps);
    OneObjectStrandsNobody(Senders, w, steps);
  }

  // ---------------------------------------------------------------- whom one wake-up serves

  /**
   * Wake-ups select by block reason, not by object: giving to s makes a task READY that is blocked on s exactly when
   * the most urgent of all waiters for the reason happens to be one.
   */
  lemma GivingServesItsOwnIff(kind: Kind, w: World, a: Action)
    requires Gives(kind, w, a)
    ensures var k', s := Apply(w, a).k, ObjectOf(a);
            && |k'.tasks| == |w.k.tasks|
            && ((exists t :: t in BlockedOn(kind, w, s) && IsReady(k'.tasks, t)) <==>
                MostUrgent(kind, w) in BlockedOn(kind, w, s))
  {
    var k', b, s := Apply(w, a).k, MostUrgent(kind, w), ObjectOf(a);
    GiveResult(kind, w, a);
    MostUrgentWaits(kind, w);
    hide Apply, Gives, LastRefusal;
    if b >= 0 {
      PerformOne(w.k, SetState(b, Ready, NoReason));
      SignalWakes(w.k, b);
      hide SetTaskState, WakeOne, PerformAll;
      assert b in BlockedOn(kind, w, s) ==> IsReady(k'.tasks, b);
    } else {
      PerformNone(w.k);
    }
  }

  lemma SignalWakes(k: KernelState, b: int)
    requires 0 <= b < |k.tasks|
    ensures var k' := SetTaskState(k, b, Ready, NoReason);
            && |k'.tasks| == |k.tasks| && k'.tasks[b].state == Ready
            && forall t :: 0 <= t < |k.tasks| && t != b ==> k'.tasks[t] == k.tasks[t]
  {
  }
}
