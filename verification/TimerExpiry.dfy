/** What an expiry leaves behind whatever the callback does, and which calls a timer needs before it fires. */
module TimerExpiry {
  import opened KernelTypes
  import opened KernelStates
  import opened EventScan
  import opened Worlds
  import opened ReadyQueues
  import opened RunInduction
  import opened Scheduling
  import opened SoftTimers
  import opened Traces
  import opened Calls

  // ---------------------------------------------------------------- one slot

  /** Without an expiry the slot only counts, and only if it is claimed and armed. */
  lemma SlotCounts(w: World, callback: seq<Action>, slot: nat)
    requires slot < |w.k.timers|
    ensures var t := w.k.timers[slot];
            && (Fires(w, slot) <==> t.inUse && t.active && t.remaining <= 1)
            && (!Fires(w, slot) ==>
                  SoftSlot(w, callback, slot) ==
                  if t.inUse && t.active then WithTimers(w, w.k.timers[slot := t.(remaining := t.remaining - 1)])
                  else w)
  {
  }

  /** The world in which the callback of an expired slot is called. */
  function Expired(w: World, slot: nat): World
    requires slot < |w.k.timers|
  {
    WithTimers(w, w.k.timers[slot := w.k.timers[slot].(remaining := 0)]).Log(Fired(slot))
  }

  /**
   * An expiry, for any callback: afterwards the timer is armed exactly if the callback left it armed and periodic,
   * a periodic one has a full period to go, and all else is as the callback left it.
   */
  lemma SlotExpires(w: World, callback: seq<Action>, slot: nat)
    requires slot < |w.k.timers| && Fires(w, slot)
    ensures var left, w' := ApplyAll(Expired(w, slot), callback), SoftSlot(w, callback, slot);
            && |left.k.timers| == |w'.k.timers| == |w.k.timers|
            && w' == WithTimers(left, left.k.timers[slot := w'.k.timers[slot]])
            && var t, t' := left.k.timers[slot], w'.k.timers[slot];
               && t'.mode == t.mode && t'.period == t.period && t'.inUse == t.inUse
               && (t'.active <==> t.active && t.mode == Periodic)
               && t'.remaining == if t.mode == Periodic then t.period else t.remaining
  {
    hide ApplyAll;
    assert CountSlot(w, slot) == Expired(w, slot);
    ApplyAllFrame(CountSlot(w, slot), callback);
  }

  // ---------------------------------------------------------------- the turn of a slot

  /** The world when the timer pass reaches slot i. */
  function AtSlot(w: World, callbacks: seq<seq<Action>>, i: nat): (w': World)
    requires i <= |w.k.timers|
    ensures |w'.k.timers| == |w.k.timers|
  {
    if i == 0 then w else SoftSlot(AtSlot(w, callbacks, i - 1), CallbackOf(callbacks, i - 1), i - 1)
  }

  /** The calls of the callbacks before that. */
  function CallsBefore(w: World, callbacks: seq<seq<Action>>, i: nat): Trace
    requires i <= |w.k.timers|
  {
    if i == 0 then []
    else
      var x := AtSlot(w, callbacks, i - 1);
      CallsBefore(w, callbacks, i - 1)
      + if Fires(x, i - 1) then CallsIn(CountSlot(x, i - 1), CallbackOf(callbacks, i - 1)) else []
  }

  /** The pass goes through that world. */
  lemma {:induction false} PassReaches(w: World, callbacks: seq<seq<Action>>, i: nat)
    requires i <= |w.k.timers|
    ensures SoftPass(w, callbacks, 0) == SoftPass(AtSlot(w, callbacks, i), callbacks, i)
    ensures CallbackCalls(w, callbacks, 0) ==
            CallsBefore(w, callbacks, i) + CallbackCalls(AtSlot(w, callbacks, i), callbacks, i)
  {
    hide SoftSlot, Fires, CountSlot, CallsIn;
    if i > 0 {
      PassReaches(w, callbacks, i - 1);
    }
  }

  /** So does every tick: sleepers first, then the slots in order, then the decision. */
  lemma TickReaches(w: World, callbacks: seq<seq<Action>>, i: nat)
    requires Rested(w.k) && i <= |Wake(w).k.timers|
    ensures AtDecision(w, callbacks) == SoftPass(AtSlot(Wake(w), callbacks, i), callbacks, i)
    ensures CallsToDecision(w, callbacks) ==
            CallsBefore(Wake(w), callbacks, i) + CallbackCalls(AtSlot(Wake(w), callbacks, i), callbacks, i)
  {
    hide SoftPass, CallbackCalls, CallsBefore, AtSlot, Wake, AtDecision, Rested;
    AtDecisionRested(w, callbacks);
    PassReaches(Wake(w), callbacks, i);
  }

  lemma {:induction false} TurnKeeps(R: Tracked, w: World, callbacks: seq<seq<Action>>, i: nat, h: Trace)
    requires CallsKeep(R) && SlotsKeep(R) && R(w, h) && i <= |w.k.timers|
    ensures R(AtSlot(w, callbacks, i), h + CallsBefore(w, callbacks, i))
  {
    hide SoftSlot, Fires, CountSlot, CallsIn, CallsKeep, SlotsKeep;
    if i == 0 {
      assert h + [] == h;
    } else {
      var x, acts := AtSlot(w, callbacks, i - 1), CallbackOf(callbacks, i - 1);
      TurnKeeps(R, w, callbacks, i - 1, h);
      OneSlotKeeps(R, x, acts, i - 1, h + CallsBefore(w, callbacks, i - 1));
      var now := if Fires(x, i - 1) then CallsIn(CountSlot(x, i - 1), acts) else [];
      assert h + CallsBefore(w, callbacks, i - 1) + now == h + (CallsBefore(w, callbacks, i - 1) + now);
    }
  }

  // ---------------------------------------------------------------- claims and stops, read off the calls

  /** Slot i is claimed: it was the first free one at a create with a positive period, and was not deleted since. */
  function Claimed(h: Trace, i: nat): bool {
    if h == [] then false
    else
      var m := Latest(h);
      if m.call.TimerCreate? && m.call.period > 0 && FreeSlot(m.before.k.timers, 0) == i then true
      else if m.call == Action.TimerDelete(i) then false
      else Claimed(Earlier(h), i)
  }

  /** The timer in slot i was stopped or deleted, or never started, since it was last started while claimed. */
  function Silenced(h: Trace, i: nat): bool {
    if h == [] then true
    else if Latest(h).call == Action.TimerStart(i) && Claimed(Earlier(h), i) then false
    else if Latest(h).call == Action.TimerStop(i) || Latest(h).call == Action.TimerDelete(i) then true
    else Silenced(Earlier(h), i)
  }

  ghost predicate SlotKnown(w: World, h: Trace, i: nat)
    requires i < |w.k.timers|
  {
    var t := w.k.timers[i];
    && (t.inUse <==> Claimed(h, i))
    && (t.active ==> t.inUse && !Silenced(h, i))
  }

  ghost predicate SlotsKnown(w: World, h: Trace) {
    forall i: nat :: i < |w.k.timers| ==> SlotKnown(w, h, i)
  }

  predicate IsTimerCall(a: Action) {
    a.TimerCreate? || a.TimerStart? || a.TimerStop? || a.TimerDelete?
  }

  lemma OtherCallsLeaveTimers(w: World, a: Action)
    requires !IsTimerCall(a)
    ensures Apply(w, a).k.timers == w.k.timers
  {
    var timers := w.k.timers;
    assert forall j :: 0 <= j < |Effects(w, a)| ==> !Effects(w, a)[j].SetTimer? by {
      hide SetFlags, WaitFor;
    }
    hide Effects, Objects, SetTaskState;
    PerformAllKeeps((k: KernelState) => k.timers == timers, (e: Effect) => !e.SetTimer?, w.k, Effects(w, a));
  }

  lemma CallKeepsSlots(w: World, a: Action, h: Trace)
    requires SlotsKnown(w, h)
    ensures SlotsKnown(Apply(w, a), h + [Moment(w, a)])
  {
    hide Apply, Defined, SlotKnown;
    AddedLast(h, Moment(w, a));
    TimersStay(w, a);
    forall i: nat | i < |w.k.timers| ensures SlotKnown(Apply(w, a), h + [Moment(w, a)], i) {
      CallKeepsSlot(w, a, h, i);
    }
  }

  lemma TimersStay(w: World, a: Action)
    ensures |Apply(w, a).k.timers| == |w.k.timers|
  {
    hide Effects, Objects, PerformAll;
    PerformAllFrame(w.k, Effects(w, a));
  }

  lemma CallKeepsSlot(w: World, a: Action, h: Trace, i: nat)
    requires i < |w.k.timers| == |Apply(w, a).k.timers| && SlotKnown(w, h, i)
    ensures SlotKnown(Apply(w, a), h + [Moment(w, a)], i)
  {
    hide Apply;
    AddedLast(h, Moment(w, a));
    match a
    case TimerCreate(mode, period) => TimerCreateCall(w, mode, period);
    case TimerStart(t) => OneTimerCall(w, a, t);
    case TimerStop(t) => OneTimerCall(w, a, t);
    case TimerDelete(t) => OneTimerCall(w, a, t);
    case _ => OtherCallsLeaveTimers(w, a);
  }

  lemma OneTimerCall(w: World, a: Action, t: nat)
    requires a in {Action.TimerStart(t), Action.TimerStop(t), Action.TimerDelete(t)}
    ensures Apply(w, a) ==
            if t >= |w.k.timers| || !w.k.timers[t].inUse then w
            else
              var s := w.k.timers[t];
              WithTimers(w, w.k.timers[t := if a.TimerStart? then s.(remaining := s.period, active := true)
                                            else s.(active := false, inUse := a.TimerStop?)])
  {
    hide Apply;
    if t < |w.k.timers| {
      TimerCalls(w, t);
    } else {
      SkippedCall(w, a);
    }
  }

  // ---------------------------------------------------------------- whole runs

  /** A move of the scheduler that claims and arms no timer. */
  ghost predicate ArmsNothing(w: World, w': World) {
    && |w'.k.timers| == |w.k.timers|
    && forall i :: 0 <= i < |w.k.timers| ==>
                     && w'.k.timers[i].inUse == w.k.timers[i].inUse
                     && (w'.k.timers[i].active ==> w.k.timers[i].active)
  }

  lemma KnownAfter(w: World, w': World, h: Trace)
    requires SlotsKnown(w, h) && ArmsNothing(w, w')
    ensures SlotsKnown(w', h)
  {
    forall i: nat | i < |w'.k.timers| ensures SlotKnown(w', h, i) {
      assert SlotKnown(w, h, i);
    }
  }

  lemma MovesArmNothing(w: World)
    ensures forall slot: nat :: slot < |w.k.timers| ==>
              ArmsNothing(w, CountSlot(w, slot)) && ArmsNothing(w, Rearm(w, slot))
    ensures ArmsNothing(w, Wake(w)) && ArmsNothing(w, Evicted(w)) && ArmsNothing(w, End(w))
    ensures InTable(w.k.tasks, w.k.ready) ==> ArmsNothing(w, Begin(w))
  {
    hide SleepPass, Dispatch, InTable, SetTaskState;
    SleepPassTimers(w.k.(tick := w.k.tick + 1), 0);
    if InTable(w.k.tasks, w.k.ready) {
      DispatchKeepsTimers(w.k);
    }
  }

  ghost function Known(): Tracked {
    (w: World, h: Trace) => SlotsKnown(w, h)
  }

  lemma KnownIsKept()
    ensures CallsKeep(Known()) && SchedulerKeeps(Known())
  {
    hide Apply, SlotsKnown, ArmsNothing, CountSlot, Rearm, Wake, Begin, End, Evicted;
    forall w: World, a: Action, h: Trace | SlotsKnown(w, h) ensures SlotsKnown(Apply(w, a), h + [Moment(w, a)]) {
      CallKeepsSlots(w, a, h);
    }
    forall w: World, w': World, h: Trace | SlotsKnown(w, h) && ArmsNothing(w, w') ensures SlotsKnown(w', h) {
      KnownAfter(w, w', h);
    }
    forall w: World | true
      ensures forall slot: nat :: slot < |w.k.timers| ==>
                ArmsNothing(w, CountSlot(w, slot)) && ArmsNothing(w, Rearm(w, slot))
      ensures ArmsNothing(w, Wake(w)) && ArmsNothing(w, Evicted(w)) && ArmsNothing(w, End(w))
      ensures InTable(w.k.tasks, w.k.ready) ==> ArmsNothing(w, Begin(w))
    {
      MovesArmNothing(w);
    }
  }

  /**
   * In every run, and in the middle of its timer passes: when the pass reaches slot i, the slot is claimed exactly if
   * the calls so far claimed it, and it does not fire if they stopped or deleted it after its last start, be it from
   * the main program, a task, another timer's callback or its own.
   */
  lemma SilencedNeverFires(w: World, steps: seq<Step>, callbacks: seq<seq<Action>>, i: nat)
    requires Initial(w) && i < |Wake(Run(w, steps)).k.timers|
    ensures var x := AtSlot(Wake(Run(w, steps)), callbacks, i);
            var h := CallsOf(w, steps) + CallsBefore(Wake(Run(w, steps)), callbacks, i);
            && (x.k.timers[i].inUse <==> Claimed(h, i))
            && (x.k.timers[i].active ==> !Silenced(h, i))
            && (Silenced(h, i) ==> !Fires(x, i))
  {
    hide Run, CallsOf, Claimed, Silenced, AtSlot, CallsBefore, CallsKeep, Wake;
    var w1 := Wake(Run(w, steps));
    KnownIsKept();
    KnownAtStart(w);
    RunIsKnown(w, steps);
    TurnKeeps(Known(), w1, callbacks, i, CallsOf(w, steps));
    assert SlotKnown(AtSlot(w1, callbacks, i), CallsOf(w, steps) + CallsBefore(w1, callbacks, i), i);
  }

  lemma KnownAtStart(w: World)
    requires Initial(w)
    ensures Known()(w, [])
  {
  }

  /** In every run: which slots are claimed, and that a silenced timer is disarmed, at the end of the run. */
  lemma RunIsKnown(w: World, steps: seq<Step>)
    requires Initial(w)
    ensures SlotsKnown(Run(w, steps), CallsOf(w, steps))
    ensures SlotsKnown(Wake(Run(w, steps)), CallsOf(w, steps))
  {
    hide Run, CallsOf, SlotsKnown, CallsKeep, Wake;
    KnownIsKept();
    KnownAtStart(w);
    TracksFromStart(Known(), w, steps);
    assert Known()(Run(w, steps), CallsOf(w, steps));
    hide SlotsKeep;
    assert Known()(Wake(Run(w, steps)), CallsOf(w, steps));
  }
}
