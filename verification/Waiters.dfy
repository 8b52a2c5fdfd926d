/** The tasks blocked for one reason, and how calls and the scheduler change that set. */
module Waiters {
  import opened KernelTypes
  import opened Sequences
  import opened KernelStates
  import opened EventScan
  import opened Worlds
  import opened RunInduction

  function WaitersOn(tasks: seq<Tcb>, reason: BlockReason): set<int> {
    set i | 0 <= i < |tasks| && WaitsFor(tasks[i], reason)
  }

  function IndicesBelow(n: nat): (s: set<int>)
    ensures forall i :: i in s <==> 0 <= i < n
    ensures |s| == n
  {
    if n == 0 then {} else IndicesBelow(n - 1) + {n - 1}
  }

  lemma SubsetSize(a: set<int>, b: set<int>)
    requires a <= b
    ensures |a| <= |b|
  {
    assert b == a + (b - a);
  }

  lemma FitsTable(s: set<int>, n: nat)
    requires forall i :: i in s ==> 0 <= i < n
    ensures |s| <= n
  {
    SubsetSize(s, IndicesBelow(n));
  }

  lemma WaitersFit(tasks: seq<Tcb>, reason: BlockReason)
    ensures |WaitersOn(tasks, reason)| <= |tasks|
  {
    FitsTable(WaitersOn(tasks, reason), |tasks|);
  }

  lemma SetStateWaiters(k: KernelState, i: int, state: TaskState, cause: BlockReason, reason: BlockReason)
    requires 0 <= i < |k.tasks|
    ensures var k' := SetTaskState(k, i, state, cause);
            WaitersOn(k'.tasks, reason) ==
            WaitersOn(k.tasks, reason) - {i} + if state == Blocked && cause == reason then {i} else {}
  {
    hide Remove;
  }

  /** One wake-up takes exactly the chosen waiter out of the set, if there is any. */
  lemma WakeOneWaiters(k: KernelState, reason: BlockReason)
    ensures var b := Waiter(k.tasks, reason, |k.tasks|);
            var k' := PerformAll(k, WakeOne(k, reason));
            && |k'.tasks| == |k.tasks|
            && (b == -1 <==> WaitersOn(k.tasks, reason) == {})
            && (b == -1 ==> k' == k)
            && (b != -1 ==> b in WaitersOn(k.tasks, reason))
            && WaitersOn(k'.tasks, reason) == WaitersOn(k.tasks, reason) - {b}
  {
    var b := Waiter(k.tasks, reason, |k.tasks|);
    if b >= 0 {
      assert b in WaitersOn(k.tasks, reason);
      SetStateWaiters(k, b, Ready, NoReason, reason);
      hide SetTaskState;
      assert PerformAll(k, [SetState(b, Ready, NoReason)]) == SetTaskState(k, b, Ready, NoReason);
    } else {
      assert forall i :: i !in WaitersOn(k.tasks, reason);
    }
  }

  predicate BlocksOn(e: Effect, reason: BlockReason) {
    match e
    case SetState(_, state, cause) => state == Blocked && cause == reason
    case Nap(_, _) => reason == OnSleep
    case _ => false
  }

  lemma PerformShrinksWaiters(k: KernelState, e: Effect, reason: BlockReason)
    requires !BlocksOn(e, reason)
    ensures WaitersOn(Perform(k, e).tasks, reason) <= WaitersOn(k.tasks, reason)
    ensures |Perform(k, e).tasks| >= |k.tasks|
  {
    match e
    case SetState(i, state, cause) =>
      if 0 <= i < |k.tasks| {
        hide SetTaskState;
        SetStateWaiters(k, i, state, cause, reason);
      }
    case Nap(i, ticks) =>
      hide SetTaskState;
      if 0 <= i < |k.tasks| {
        var k1 := k.(tasks := k.tasks[i := k.tasks[i].(sleep := ticks)]);
        assert WaitersOn(k1.tasks, reason) <= WaitersOn(k.tasks, reason);
        SetStateWaiters(k1, i, Blocked, OnSleep, reason);
      }
    case Add(priority, entry) =>
      hide SetTaskState;
      var n := |k.tasks|;
      if n < k.cfg.maxTasks {
        var k1 := k.(tasks := k.tasks + [NewTcb(n + 1, priority, entry)]);
        assert WaitersOn(k1.tasks, reason) <= WaitersOn(k.tasks, reason);
        SetStateWaiters(k1, n, Ready, NoReason, reason);
      }
    case SetTimer(slot, timer) =>
    case SetRegisters(context) =>
  }

  /** A call that does not block for this reason only takes waiters away. */
  lemma ApplyShrinksWaiters(w: World, a: Action, reason: BlockReason)
    requires forall j :: 0 <= j < |Effects(w, a)| ==> !BlocksOn(Effects(w, a)[j], reason)
    ensures WaitersOn(Apply(w, a).k.tasks, reason) <= WaitersOn(w.k.tasks, reason)
    ensures |Apply(w, a).k.tasks| >= |w.k.tasks|
  {
    hide Effects, Objects, Perform, WaitersOn;
    var P := (k: KernelState) =>
      WaitersOn(k.tasks, reason) <= WaitersOn(w.k.tasks, reason) && |k.tasks| >= |w.k.tasks|;
    forall k: KernelState, e: Effect | P(k) && !BlocksOn(e, reason) ensures P(Perform(k, e)) {
      PerformShrinksWaiters(k, e, reason);
    }
    PerformAllKeeps(P, e => !BlocksOn(e, reason), w.k, Effects(w, a));
  }

  /** The one call that blocks its caller for the given reason, for reasons other than sleep. */
  predicate CanBlockOn(a: Action, reason: BlockReason) {
    match reason
    case OnSemaphore => a.SemWait?
    case OnMutex => a.Lock?
    case OnQueueEmpty => a.Receive?
    case OnQueueFull => a.Send?
    case OnEvent => a.EventWait?
    case _ => true
  }

  lemma OtherCallsDoNotBlock(w: World, a: Action, reason: BlockReason)
    requires !CanBlockOn(a, reason)
    ensures WaitersOn(Apply(w, a).k.tasks, reason) <= WaitersOn(w.k.tasks, reason)
    ensures |Apply(w, a).k.tasks| >= |w.k.tasks|
  {
    assert forall j :: 0 <= j < |Effects(w, a)| ==> !BlocksOn(Effects(w, a)[j], reason) by {
      hide SetFlags, WaitFor;
    }
    ApplyShrinksWaiters(w, a, reason);
  }

  lemma InternalShrinksWaiters(w: World, w': World, reason: BlockReason)
    requires Internal(w, w')
    ensures WaitersOn(w'.k.tasks, reason) <= WaitersOn(w.k.tasks, reason)
    ensures |w'.k.tasks| == |w.k.tasks|
  {
  }

  /** A call that blocks its caller adds exactly the caller. */
  lemma BlockedCallerWaits(k: KernelState, reason: BlockReason)
    requires k.HasCurrent()
    ensures var k' := PerformAll(k, [SetState(k.current, Blocked, reason)]);
            && |k'.tasks| == |k.tasks|
            && WaitersOn(k'.tasks, reason) == WaitersOn(k.tasks, reason) + {k.current}
  {
    SetStateWaiters(k, k.current, Blocked, reason, reason);
    hide SetTaskState;
    var e := SetState(k.current, Blocked, reason);
    PerformOne(k, e);
  }

  /** A wake-up leaves the waiters for any reason alone or takes one away. */
  lemma WakeOneShrinks(k: KernelState, wakes: BlockReason, reason: BlockReason)
    ensures var k' := PerformAll(k, WakeOne(k, wakes));
            |k'.tasks| == |k.tasks| && WaitersOn(k'.tasks, reason) <= WaitersOn(k.tasks, reason)
  {
    WakeOneWaiters(k, wakes);
    var b := Waiter(k.tasks, wakes, |k.tasks|);
    if b >= 0 {
      PerformOne(k, SetState(b, Ready, NoReason));
      PerformShrinksWaiters(k, SetState(b, Ready, NoReason), reason);
    }
    hide Perform, WaitersOn;
  }

  // ---------------------------------------------------------------- how many

  function CountOn(tasks: seq<Tcb>, reason: BlockReason): nat {
    |WaitersOn(tasks, reason)|
  }

  lemma FewerOn(tasks: seq<Tcb>, tasks': seq<Tcb>, reason: BlockReason)
    requires WaitersOn(tasks', reason) <= WaitersOn(tasks, reason)
    ensures CountOn(tasks', reason) <= CountOn(tasks, reason)
  {
    hide WaitersOn;
    SubsetSize(WaitersOn(tasks', reason), WaitersOn(tasks, reason));
  }

  lemma WakeOneCount(k: KernelState, reason: BlockReason)
    ensures var k' := PerformAll(k, WakeOne(k, reason));
            CountOn(k'.tasks, reason) == if CountOn(k.tasks, reason) == 0 then 0 else CountOn(k.tasks, reason) - 1
  {
    WakeOneWaiters(k, reason);
    hide WaitersOn, WakeOne, PerformAll;
  }

  // ---------------------------------------------------------------- nobody stranded, as arithmetic on sets

  /** Tasks woken and not retrying yet, tasks blocked, and a count, in a table of n tasks. */
  ghost predicate Balanced(woken: set<int>, blocked: set<int>, count: int, n: nat) {
    && count >= 0
    && (forall t :: t in woken ==> 0 <= t < n)
    && woken !! blocked
    && (blocked != {} ==> count <= |woken|)
  }

  lemma TakeBalances(woken: set<int>, blocked: set<int>, count: int, n: nat, t: int)
    requires Balanced(woken, blocked, count, n) && count > 0
    ensures Balanced(woken - {t}, blocked, count - 1, n)
  {
    SubsetSize(woken, woken - {t} + {t});
  }

  lemma BlockBalances(woken: set<int>, blocked: set<int>, n: nat, t: int)
    requires Balanced(woken, blocked, 0, n)
    ensures Balanced(woken - {t}, blocked + {t}, 0, n)
  {
  }

  lemma ShrinkBalances(woken: set<int>, blocked: set<int>, blocked': set<int>, count: int, n: nat, n': nat)
    requires Balanced(woken, blocked, count, n) && blocked' <= blocked && n <= n'
    ensures Balanced(woken, blocked', count, n')
  {
  }

  lemma CountsAreNatural(woken: set<int>, blocked: set<int>, count: int, n: nat)
    requires Balanced(woken, blocked, count, n)
    ensures count >= 0
  {
  }
}
