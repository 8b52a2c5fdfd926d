/** What the phases of a scheduler cycle do, in full and in terms of the program's own fields. */
module TickPhases {
  import opened KernelTypes
  import opened Sequences
  import opened ReadyQueues
  import opened KernelStates
  import opened Worlds
  import opened Scheduling

  // ---------------------------------------------------------------- the sleep pass

  /** A block after one tick: a sleeper with at most one tick to go is READY, any other counts, the rest stay. */
  function TickedTask(t: Tcb): Tcb {
    if t.state == Blocked && t.reason == OnSleep then
      if t.sleep <= 1 then t.(state := Ready, reason := NoReason, sleep := 0) else t.(sleep := t.sleep - 1)
    else t
  }

  predicate Due(t: Tcb) {
    t.state == Blocked && t.reason == OnSleep && t.sleep <= 1
  }

  /** The due sleepers from index i on, in the order of the table. */
  function DueFrom(tasks: seq<Tcb>, i: nat): seq<int>
    decreases |tasks| - i
  {
    if i >= |tasks| then [] else (if Due(tasks[i]) then [i] else []) + DueFrom(tasks, i + 1)
  }

  lemma CountDownEffect(k: KernelState, i: nat)
    requires Rested(k) && i < |k.tasks|
    ensures CountDown(k, i) ==
            k.(tasks := k.tasks[i := TickedTask(k.tasks[i])], ready := k.ready + if Due(k.tasks[i]) then [i] else [])
  {
    assert k.tasks[i := k.tasks[i]] == k.tasks && k.ready + [] == k.ready;
    var k1 := k.(tasks := k.tasks[i := k.tasks[i].(sleep := k.tasks[i].sleep - 1)]);
    if Due(k.tasks[i]) {
      assert Exact(k1) by { hide Distinct, InTable; SameTableFits(k.tasks, k1.tasks, k.ready); }
      SetReady(k1, i, NoReason);
      RemoveAbsent(k.ready, i);
    }
    hide SetTaskState, Remove, Distinct, InTable;
  }

  lemma {:induction false} DueSame(tasks: seq<Tcb>, tasks': seq<Tcb>, i: nat)
    requires |tasks'| == |tasks| && forall j :: i <= j < |tasks| ==> tasks'[j] == tasks[j]
    ensures DueFrom(tasks', i) == DueFrom(tasks, i)
    decreases |tasks| - i
  {
    if i < |tasks| {
      DueSame(tasks, tasks', i + 1);
    }
  }

  lemma {:induction false} SleepPassEffect(k: KernelState, i: nat)
    requires Rested(k)
    ensures var k' := SleepPass(k, i);
            && k' == k.(tasks := k'.tasks, ready := k.ready + DueFrom(k.tasks, i))
            && |k'.tasks| == |k.tasks|
            && forall j :: 0 <= j < |k.tasks| ==>
                             k'.tasks[j] == if j < i then k.tasks[j] else TickedTask(k.tasks[j])
    decreases |k.tasks| - i
  {
    hide TickedTask, Due, CountDown, Rested;
    if i >= |k.tasks| {
      assert k.ready + [] == k.ready;
    } else {
      var k1 := CountDown(k, i);
      CountDownEffect(k, i);
      CountDownRested(k, i);
      SleepPassEffect(k1, i + 1);
      DueSame(k.tasks, k1.tasks, i + 1);
    }
  }

  /**
   * The start of a tick: the tick count goes up, every sleeper counts once, those that are due are READY and join the
   * queue in the order of the table, and nothing else changes.
   */
  lemma WakeEffect(w: World)
    requires Rested(w.k)
    ensures var k' := Wake(w).k;
            && Wake(w) == w.(k := w.k.(tick := w.k.tick + 1, tasks := k'.tasks,
                                       ready := w.k.ready + DueFrom(w.k.tasks, 0)))
            && |k'.tasks| == |w.k.tasks|
            && forall j :: 0 <= j < |w.k.tasks| ==> k'.tasks[j] == TickedTask(w.k.tasks[j])
  {
    hide Rested, TickedTask, DueFrom;
    NextTickRested(w.k);
    SleepPassEffect(w.k.(tick := w.k.tick + 1), 0);
  }

  // ---------------------------------------------------------------- the dispatch

  /** The task that runs next: nobody, the current one, or the first of the queue's most urgent. */
  predicate KeepsCurrent(k: KernelState, best: int) {
    && 0 <= best < |k.tasks| && k.HasCurrent() && k.tasks[k.current].state == Ready
    && (best == k.current
        || (k.tasks[best].priority == k.tasks[k.current].priority
            && k.tasks[k.current].slice < k.cfg.sliceTicks))
  }

  /** An idle tick zeroes the slice count of the last task. */
  lemma IdleEffect(k: KernelState)
    requires Rested(k) && Decide(k) == Idle
    ensures Dispatch(k) ==
            if k.HasCurrent() then k.(tasks := k.tasks[k.current := k.tasks[k.current].(slice := 0)]) else k
  {
    hide BestOf;
  }

  /** The current task goes on, with one more tick of its slice used. */
  lemma ContinueEffect(k: KernelState)
    requires Rested(k) && k.ready != [] && KeepsCurrent(k, BestOf(k.tasks, k.ready))
    ensures var t := k.tasks[k.current];
            Dispatch(k) ==
            k.(tasks := k.tasks[k.current := t.(state := Running, reason := NoReason, slice := t.slice + 1)],
               ready := Remove(k.ready, k.current))
  {
    var p := BestIsFirstMaximum(k.tasks, k.ready);
    assert k.current in k.ready;
    hide BestOf, Remove, Distinct;
  }

  /** Otherwise the chosen task takes over: registers saved and loaded, a new slice begun. */
  lemma SwitchEffect(k: KernelState)
    requires Rested(k) && k.ready != [] && !KeepsCurrent(k, BestOf(k.tasks, k.ready))
    ensures var t, c := BestOf(k.tasks, k.ready), k.current;
            && 0 <= t < |k.tasks| && t != c
            && var saved := if k.HasCurrent() then k.tasks[c := k.tasks[c].(context := k.active)] else k.tasks;
               Dispatch(k) ==
               k.(tasks := saved[t := k.tasks[t].(state := Running, reason := NoReason, slice := 1)],
                  ready := Remove(k.ready, t), current := t, active := k.tasks[t].context)
  {
    var p := BestIsFirstMaximum(k.tasks, k.ready);
    var t := BestOf(k.tasks, k.ready);
    assert k.ready[p] in k.ready;
    if k.HasCurrent() && k.tasks[k.current].state == Ready {
      assert k.current in k.ready;
    }
    SwitchToEffect(k, t);
    hide BestOf, Remove, SwitchTo, Distinct;
    assert Requeue(k) == k;
  }

  lemma SwitchToEffect(k: KernelState, t: nat)
    requires Rested(k) && t < |k.tasks| && t != k.current
    ensures var c := k.current;
            var saved := if k.HasCurrent() then k.tasks[c := k.tasks[c].(context := k.active)] else k.tasks;
            SwitchTo(k, t) ==
            k.(tasks := saved[t := k.tasks[t].(state := Running, reason := NoReason, slice := 1)],
               ready := Remove(k.ready, t), current := t, active := k.tasks[t].context)
  {
    RemoveMembers(k.ready, t);
    RemoveAbsent(Remove(k.ready, t), t);
    hide Remove, Distinct, InTable;
  }

  // ---------------------------------------------------------------- the return of the task function

  /** A task that is still RUNNING is READY again at the tail of the queue; any other stays as its function left it. */
  lemma EndEffect(w: World)
    requires Exact(w.k)
    ensures var c := w.k.current;
            End(w) ==
            (if w.k.HasCurrent() && w.k.tasks[c].state == Running then
               w.(k := w.k.(tasks := w.k.tasks[c := w.k.tasks[c].(state := Ready, reason := NoReason, sleep := 0)],
                            ready := w.k.ready + [c]))
             else w).Log(Finished(c, w.k.active))
  {
    if w.k.HasCurrent() && w.k.tasks[w.k.current].state == Running {
      SetReady(w.k, w.k.current, NoReason);
      RemoveAbsent(w.k.ready, w.k.current);
    }
    hide SetTaskState, Remove, Distinct;
  }
}
