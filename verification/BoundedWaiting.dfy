/** A READY task of top priority gets the CPU within a bound that its place in the queue determines. */
module BoundedWaiting {
  import opened KernelTypes
  import opened Sequences
  import opened ReadyQueues
  import opened KernelStates
  import opened Worlds
  import opened RunInduction
  import opened Scheduling
  import opened Arithmetic

  /** k is k0 after calls that spare t: t's block is untouched and nobody of its priority got ahead of it. */
  ghost predicate StillWaits(k0: KernelState, k: KernelState, t: int) {
    && Exact(k0) && Exact(k)
    && k.cfg == k0.cfg && k.current == k0.current
    && 0 <= t < |k0.tasks| <= |k.tasks|
    && k.tasks[t] == k0.tasks[t]
    && (forall i :: 0 <= i < |k0.tasks| ==>
          k.tasks[i].priority == k0.tasks[i].priority && k.tasks[i].slice == k0.tasks[i].slice)
    && t in k0.ready && t in k.ready
    && Ahead(k.tasks, k.ready, t) <= Ahead(k0.tasks, k0.ready, t)
  }

  lemma SetKeepsWaiting(k0: KernelState, k: KernelState, t: int, i: int, state: TaskState, reason: BlockReason)
    requires StillWaits(k0, k, t)
    requires i != t && state != Running
    ensures StillWaits(k0, SetTaskState(k, i, state, reason), t)
  {
    if 0 <= i < |k.tasks| {
      SetTaskStateExact(k, i, state, reason);
      SetKeepsOthers(k, i, state, reason);
      hide Exact, SetTaskState;
      SetKeepsPlace(k, t, i, state, reason);
    }
  }

  lemma SetKeepsOthers(k: KernelState, i: int, state: TaskState, reason: BlockReason)
    requires 0 <= i < |k.tasks|
    ensures var k' := SetTaskState(k, i, state, reason);
            && (forall j :: 0 <= j < |k.tasks| && j != i ==> k'.tasks[j] == k.tasks[j])
            && k'.tasks[i].priority == k.tasks[i].priority && k'.tasks[i].slice == k.tasks[i].slice
  {
    hide Remove;
  }

  lemma SetKeepsPlace(k: KernelState, t: int, i: int, state: TaskState, reason: BlockReason)
    requires Exact(k) && 0 <= i < |k.tasks| && 0 <= t < |k.tasks| && t in k.ready
    requires i != t && state != Running
    ensures var k' := SetTaskState(k, i, state, reason);
            && InTable(k'.tasks, k'.ready) && t in k'.ready
            && Ahead(k'.tasks, k'.ready, t) <= Ahead(k.tasks, k.ready, t)
  {
    var k' := SetTaskState(k, i, state, reason);
    var q := Remove(k.ready, i);
    AheadRemove(k.tasks, k.ready, i, t);
    if state == Ready {
      SetReady(k, i, reason);
      AheadAppend(k.tasks, k'.tasks, q, [i], t);
    } else {
      assert q + [] == q;
      AheadAppend(k.tasks, k'.tasks, q, [], t);
    }
  }

  /** Changes that leave the queue, priorities, slices and t's block alone. */
  lemma FieldsKeepWaiting(k0: KernelState, k: KernelState, k1: KernelState, t: int)
    requires StillWaits(k0, k, t) && Exact(k1)
    requires k1.ready == k.ready && k1.cfg == k.cfg && k1.current == k.current && |k.tasks| <= |k1.tasks|
    requires k1.tasks[t] == k.tasks[t]
    requires forall i :: 0 <= i < |k.tasks| ==>
                           k1.tasks[i].priority == k.tasks[i].priority && k1.tasks[i].slice == k.tasks[i].slice
    ensures StillWaits(k0, k1, t)
  {
    assert k.ready + [] == k.ready;
    AheadAppend(k.tasks, k1.tasks, k.ready, [], t);
  }

  lemma PerformKeepsWaiting(k0: KernelState, k: KernelState, t: int, e: Effect)
    requires StillWaits(k0, k, t)
    requires Public(e) && !TargetsTask(e, t)
    ensures StillWaits(k0, Perform(k, e), t)
  {
    hide SetTaskState, Ahead, Distinct;
    match e
    case SetState(i, state, reason) => SetKeepsWaiting(k0, k, t, i, state, reason);
    case Nap(i, ticks) =>
      if 0 <= i < |k.tasks| {
        var k1 := k.(tasks := k.tasks[i := k.tasks[i].(sleep := ticks)]);
        FieldsKeepWaiting(k0, k, k1, t);
        SetKeepsWaiting(k0, k1, t, i, Blocked, OnSleep);
      }
    case Add(priority, entry) =>
      var n := |k.tasks|;
      if n < k.cfg.maxTasks {
        var k1 := k.(tasks := k.tasks + [NewTcb(n + 1, priority, entry)]);
        FieldsKeepWaiting(k0, k, k1, t);
        SetKeepsWaiting(k0, k1, t, n, Ready, NoReason);
      }
    case SetTimer(slot, timer) =>
    case SetRegisters(context) =>
  }

  lemma ApplyKeepsWaiting(k0: KernelState, w: World, t: int, a: Action)
    requires StillWaits(k0, w.k, t) && LeavesAlone(w, a, t)
    ensures StillWaits(k0, Apply(w, a).k, t)
  {
    EffectsArePublic(w, a);
    hide StillWaits, Perform, Effects, Objects;
    forall k: KernelState, e: Effect | StillWaits(k0, k, t) && Public(e) && !TargetsTask(e, t)
      ensures StillWaits(k0, Perform(k, e), t)
    {
      PerformKeepsWaiting(k0, k, t, e);
    }
    PerformAllKeeps(k => StillWaits(k0, k, t), e => Public(e) && !TargetsTask(e, t), w.k, Effects(w, a));
  }

  lemma CountDownKeepsWaiting(k0: KernelState, k: KernelState, t: int, i: nat)
    requires StillWaits(k0, k, t) && k.tasks[t].state == Ready && i < |k.tasks|
    ensures StillWaits(k0, CountDown(k, i), t)
  {
    hide SetTaskState, Ahead, Distinct;
    if WaitsFor(k.tasks[i], OnSleep) {
      var k1 := k.(tasks := k.tasks[i := k.tasks[i].(sleep := k.tasks[i].sleep - 1)]);
      FieldsKeepWaiting(k0, k, k1, t);
      SetKeepsWaiting(k0, k1, t, i, Ready, NoReason);
    }
  }

  lemma {:induction false} SleepPassKeepsWaiting(k0: KernelState, k: KernelState, t: int, i: nat)
    requires StillWaits(k0, k, t) && k.tasks[t].state == Ready
    ensures StillWaits(k0, SleepPass(k, i), t)
    decreases |k.tasks| - i
  {
    if i < |k.tasks| {
      CountDownKeepsWaiting(k0, k, t, i);
      hide CountDown;
      SleepPassKeepsWaiting(k0, CountDown(k, i), t, i + 1);
    }
  }

  // ---------------------------------------------------------------- the measure

  /** Consecutive ticks a task may hold the CPU against its peers; a configured 0 acts as 1. */
  function Quantum(k: KernelState): nat {
    if k.cfg.sliceTicks == 0 then 1 else k.cfg.sliceTicks
  }

  /** What is left of the current task's slice, if it competes with t. */
  function Slack(k: KernelState, t: int): nat
    requires 0 <= t < |k.tasks|
  {
    if k.HasCurrent() && k.tasks[k.current].priority == k.tasks[t].priority && k.tasks[k.current].slice < Quantum(k)
    then Quantum(k) - k.tasks[k.current].slice
    else 0
  }

  function Patience(k: KernelState, t: int): nat
    requires InTable(k.tasks, k.ready) && 0 <= t < |k.tasks|
  {
    Quantum(k) * Ahead(k.tasks, k.ready, t) + Slack(k, t)
  }

  lemma PatienceMonotone(k0: KernelState, k: KernelState, t: int)
    requires StillWaits(k0, k, t)
    ensures Patience(k, t) <= Patience(k0, t)
  {
    MulMonotone(Quantum(k), Ahead(k.tasks, k.ready, t), Ahead(k0.tasks, k0.ready, t));
  }

  /** t has top priority among the READY tasks. */
  ghost predicate IsTop(k: KernelState, t: int) {
    && 0 <= t < |k.tasks|
    && forall i :: 0 <= i < |k.tasks| && k.tasks[i].state == Ready ==> k.tasks[i].priority <= k.tasks[t].priority
  }

  /** What the dispatch does to the slack: a switch starts a slice, continuing uses one tick of it. */
  lemma DispatchSlack(k: KernelState, t: int)
    requires Rested(k) && Decide(k) != Idle && 0 <= t < |k.tasks|
    ensures |Dispatch(k).tasks| == |k.tasks|
    ensures Decide(k).Switch? ==> Slack(Dispatch(k), t) < Quantum(k)
    ensures Decide(k).Continue? ==> Slack(Dispatch(k), t) == if Slack(k, t) > 0 then Slack(k, t) - 1 else 0
  {
    DispatchKeepsPriorities(k);
    hide Dispatch;
  }

  /** The decision as t sees it: the best candidate is its peer, and only an unexpired slice passes it over. */
  lemma DecideAmongPeers(k: KernelState, t: int) returns (p: nat)
    requires Rested(k) && IsTop(k, t) && k.tasks[t].state == Ready
    ensures Decide(k) != Idle && p < |k.ready|
    ensures k.tasks[k.ready[p]].priority == k.tasks[t].priority
    ensures k.ready[p] == t || Before(k.ready, k.ready[p], t)
    ensures Decide(k).Switch? ==> Decide(k).next == k.ready[p]
    ensures Decide(k).Continue? ==> k.current == k.ready[p] || Slack(k, t) > 0
  {
    assert t in k.ready;
    p := BestIsFirstMaximum(k.tasks, k.ready);
    assert k.ready[p] in k.ready;
    var j :| 0 <= j < |k.ready| && k.ready[j] == t;
    if p < j {
      BeforeByIndex(k.ready, p, j);
    }
  }

  /** The dispatched task stands before t or had slice left; either way t's patience shrinks. */
  lemma DispatchSpendsPatience(k: KernelState, t: int)
    requires Rested(k) && IsTop(k, t) && k.tasks[t].state == Ready
    requires Dispatch(k).current != t
    ensures Decide(k) != Idle && Exact(Dispatch(k))
    ensures Dispatch(k).tasks[t].state == Ready && Patience(Dispatch(k), t) < Patience(k, t)
  {
    var p := DecideAmongPeers(k, t);
    DispatchSlack(k, t);
    DispatchAhead(k, t);
    DispatchKeepsPriorities(k);
    hide Decide, Dispatch, Ahead, Slack, Exact, Before;
    SpendOne(Quantum(k), Ahead(k.tasks, k.ready, t), Ahead(Dispatch(k).tasks, Dispatch(k).ready, t),
             Slack(k, t), Slack(Dispatch(k), t));
  }

  /** One place forward pays for a whole new slice. */
  lemma SpendOne(quantum: nat, before: nat, after: nat, slack: nat, slack': nat)
    requires quantum > 0
    requires || (after + 1 == before && (slack' < quantum || slack' <= slack))
             || (after <= before && slack' < slack)
    ensures quantum * after + slack' < quantum * before + slack
  {
    if after + 1 == before {
      assert quantum * before == quantum * after + quantum;
    } else {
      MulMonotone(quantum, after, before);
    }
  }

  /** Where t stands once the dispatched task has left the queue. */
  lemma DispatchAhead(k: KernelState, t: int)
    requires Rested(k) && Decide(k) != Idle && 0 <= t < |k.tasks| && k.tasks[t].state == Ready
    requires Dispatch(k).current != t
    ensures var k' := Dispatch(k);
            var x := k'.current;
            && Exact(k') && 0 <= x < |k.tasks|
            && k'.tasks[t].state == Ready
            && Ahead(k'.tasks, k'.ready, t) ==
               Ahead(k.tasks, k.ready, t)
               - (if Before(k.ready, x, t) && k.tasks[x].priority == k.tasks[t].priority then 1 else 0)
  {
    assert InTable(k.tasks, k.ready) && t in k.ready;
    hide Dispatch, Decide, Before, Ahead;
    DispatchExact(k);
    DispatchKeepsPriorities(k);
    assert InTable(Dispatch(k).tasks, Dispatch(k).ready);
    hide Exact, InTable;
    TakenFromQueue(k, Dispatch(k), Dispatch(k).current, t);
  }

  /** Where t stands once x has left the queue and the priorities are unchanged. */
  lemma TakenFromQueue(k: KernelState, k': KernelState, x: int, t: int)
    requires InTable(k.tasks, k.ready) && InTable(k'.tasks, k'.ready) && k'.ready == Remove(k.ready, x)
    requires |k'.tasks| == |k.tasks| && forall i :: 0 <= i < |k.tasks| ==> k'.tasks[i].priority == k.tasks[i].priority
    requires 0 <= x < |k.tasks| && 0 <= t < |k.tasks| && t in k.ready && x != t
    ensures Ahead(k'.tasks, k'.ready, t) ==
            Ahead(k.tasks, k.ready, t)
            - (if Before(k.ready, x, t) && k.tasks[x].priority == k.tasks[t].priority then 1 else 0)
  {
    hide Before, Ahead;
    AheadRemove(k.tasks, k.ready, x, t);
    hide Remove;
    var q := Remove(k.ready, x);
    assert q + [] == q;
    AheadAppend(k.tasks, k'.tasks, q, [], t);
  }

  lemma DispatchKeepsPriorities(k: KernelState)
    requires Rested(k) && Decide(k) != Idle
    ensures var k' := Dispatch(k);
            && |k'.tasks| == |k.tasks| && k'.cfg == k.cfg
            && 0 <= k'.current < |k.tasks|
            && (forall i :: 0 <= i < |k.tasks| ==> k'.tasks[i].priority == k.tasks[i].priority)
            && (forall i :: 0 <= i < |k.tasks| && i != k'.current ==> k'.tasks[i].state == k.tasks[i].state)
            && k'.tasks[k'.current].slice == if Decide(k).Switch? then 1 else k.tasks[k.current].slice + 1
  {
    hide BestOf;
  }

  // ---------------------------------------------------------------- one tick

  lemma WaitsToDecision(w: World, callbacks: seq<seq<Action>>, t: int)
    requires Rested(w.k) && 0 <= t < |w.k.tasks| && w.k.tasks[t].state == Ready
    requires CallbacksOk(Sparing(t), Wake(w), callbacks, 0)
    ensures StillWaits(w.k, AtDecision(w, callbacks).k, t)
  {
    SleepPassKeepsWaiting(w.k, w.k.(tick := w.k.tick + 1), t, 0);
    SpareCallbacks(w.k, Wake(w), callbacks, t);
    AtDecisionRested(w, callbacks);
  }

  lemma WaitingIgnoresTimers(k0: KernelState, k: KernelState, t: int, timers: seq<SoftTimer>)
    requires StillWaits(k0, k, t)
    ensures StillWaits(k0, k.(timers := timers), t)
  {
    hide Ahead, Distinct, InTable;
  }

  lemma SpareCallbacks(k0: KernelState, w: World, callbacks: seq<seq<Action>>, t: int)
    requires StillWaits(k0, w.k, t) && CallbacksOk(Sparing(t), w, callbacks, 0)
    ensures StillWaits(k0, SoftPass(w, callbacks, 0).k, t)
  {
    hide Apply, SoftPass, CallbacksOk, LeavesAlone, StillWaits;
    var P := (x: World) => StillWaits(k0, x.k, t);
    forall x: World, a: Action | P(x) && Sparing(t)(x, a) ensures P(Apply(x, a)) {
      ApplyKeepsWaiting(k0, x, t, a);
    }
    forall x: World, slot: nat, timer: SoftTimer | P(x) && slot < |x.k.timers|
      ensures P(WithTimer(x, slot, timer))
    {
      WaitingIgnoresTimers(k0, x.k, t, x.k.timers[slot := timer]);
    }
    SoftPassKeeps(P, Sparing(t), w, callbacks, 0);
  }

  lemma SpareBody(k0: KernelState, w: World, body: seq<Action>, t: int)
    requires StillWaits(k0, w.k, t) && AllOk(Sparing(t), w, body)
    ensures StillWaits(k0, ApplyAll(w, body).k, t)
  {
    hide StillWaits, Apply, ApplyAll, AllOk, LeavesAlone;
    var P := (x: World) => StillWaits(k0, x.k, t);
    forall x: World, a: Action | P(x) && Sparing(t)(x, a) ensures P(Apply(x, a)) {
      ApplyKeepsWaiting(k0, x, t, a);
    }
    ApplyAllKeeps(P, Sparing(t), w, body);
  }

  lemma StartsWaiting(k: KernelState, t: int)
    requires Exact(k) && 0 <= t < |k.tasks| && k.tasks[t].state == Ready
    ensures StillWaits(k, k, t)
  {
    hide Ahead, Distinct;
  }

  /** On every tick that does not run t, t's patience strictly decreases. */
  lemma TickSpendsPatience(w: World, s: TickScript, t: int)
    requires Rested(w.k) && 0 <= t < |w.k.tasks| && w.k.tasks[t].state == Ready
    requires TickOk(Sparing(t), Sparing(t), w, s)
    requires IsTop(AtDecision(w, s.callbacks).k, t)
    requires Runner(w, s) != t
    ensures var k' := Cycle(w, s).k;
            && Rested(k') && t < |k'.tasks| && k'.tasks[t].state == Ready
            && Patience(k', t) < Patience(w.k, t)
  {
    hide Rested, Exact, Dispatch, Decide, Ahead, Slack, ApplyAll, CallbacksOk, AllOk;
    var d := AtDecision(w, s.callbacks);
    AtDecisionRested(w, s.callbacks);
    CycleRested(w, s);
    WaitsToDecision(w, s.callbacks, t);
    PatienceMonotone(w.k, d.k, t);
    DecideFromTable(d.k);
    DispatchSpendsPatience(d.k, t);
    DispatchKeepsPriorities(d.k);
    var b := Begin(d);
    StartsWaiting(b.k, t);
    SpareBody(b.k, b, s.body, t);
    var w3 := ApplyAll(b, s.body);
    if w3.k.HasCurrent() && w3.k.tasks[w3.k.current].state == Running {
      SetKeepsWaiting(b.k, w3.k, t, w3.k.current, Ready, NoReason);
    }
    PatienceMonotone(b.k, Cycle(w, s).k, t);
  }

  // ---------------------------------------------------------------- whole runs

  /**
   * Until t gets the CPU, nobody blocks, suspends or re-readies t and it is of top priority at every decision. What
   * t's own function does once it runs is not restricted.
   */
  ghost predicate Undisturbed(w: World, scripts: seq<TickScript>, t: int)
    decreases |scripts|
  {
    scripts != [] ==>
      && CallbacksOk(Sparing(t), Wake(w), scripts[0].callbacks, 0)
      && IsTop(AtDecision(w, scripts[0].callbacks).k, t)
      && (Runner(w, scripts[0]) != t ==>
            TickOk(Sparing(t), Sparing(t), w, scripts[0]) && Undisturbed(Cycle(w, scripts[0]), scripts[1..], t))
  }

  /** Some tick of the run executes t. */
  predicate GetsCpu(w: World, scripts: seq<TickScript>, t: int)
    decreases |scripts|
  {
    scripts != [] && (Runner(w, scripts[0]) == t || GetsCpu(Cycle(w, scripts[0]), scripts[1..], t))
  }

  lemma {:induction false} WaitEnds(w: World, scripts: seq<TickScript>, t: int)
    requires Rested(w.k) && 0 <= t < |w.k.tasks| && w.k.tasks[t].state == Ready
    requires Undisturbed(w, scripts, t) && |scripts| > Patience(w.k, t)
    ensures GetsCpu(w, scripts, t)
    decreases |scripts|
  {
    if Runner(w, scripts[0]) != t {
      TickSpendsPatience(w, scripts[0], t);
      WaitEnds(Cycle(w, scripts[0]), scripts[1..], t);
    }
  }

  /** Bounded waiting: from any loop head of any run, t runs within Patience + 1 ticks. */
  lemma BoundedWait(w: World, steps: seq<Step>, scripts: seq<TickScript>, t: int)
    requires Initial(w)
    requires 0 <= t < |Run(w, steps).k.tasks| && Run(w, steps).k.tasks[t].state == Ready
    requires Undisturbed(Run(w, steps), scripts, t)
    ensures Rested(Run(w, steps).k)
    ensures |scripts| > Patience(Run(w, steps).k, t) ==> GetsCpu(Run(w, steps), scripts, t)
  {
    ReadyQueueIsExact(w, steps);
    if |scripts| > Patience(Run(w, steps).k, t) {
      WaitEnds(Run(w, steps), scripts, t);
    }
  }
}
