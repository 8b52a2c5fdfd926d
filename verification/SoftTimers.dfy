/** Software timers: what the countdown keeps, and when a timer fires. */
module SoftTimers {
  import opened KernelTypes
  import opened KernelStates
  import opened EventScan
  import opened Worlds
  import opened RunInduction
  import opened Scheduling
  import opened SleepDeadlines
  import opened Arithmetic

  // ---------------------------------------------------------------- well-formed timers

  /** A timer outside its own expiry: an armed timer is claimed and has between 1 and period ticks to go. */
  predicate TimerOk(t: SoftTimer) {
    && (t.inUse ==> t.period >= 1)
    && (t.active ==> t.inUse && 1 <= t.remaining <= t.period)
  }

  /** Every timer is well-formed; the one in slot `expiring` may have reached 0. */
  ghost predicate TimersOkBut(k: KernelState, expiring: int) {
    forall i :: 0 <= i < |k.timers| ==>
                  && (k.timers[i].inUse ==> k.timers[i].period >= 1)
                  && (k.timers[i].active ==> k.timers[i].inUse && k.timers[i].remaining <= k.timers[i].period)
                  && (i != expiring ==> TimerOk(k.timers[i]))
  }

  ghost predicate TimersOk(k: KernelState) {
    forall i :: 0 <= i < |k.timers| ==> TimerOk(k.timers[i])
  }

  predicate WritesOkTimer(e: Effect) {
    e.SetTimer? ==> TimerOk(e.timer)
  }

  lemma CallsWriteOkTimers(w: World, a: Action, expiring: int)
    requires TimersOkBut(w.k, expiring)
    ensures forall j :: 0 <= j < |Effects(w, a)| ==> WritesOkTimer(Effects(w, a)[j])
  {
    hide SetFlags, WaitFor;
  }

  lemma ApplyTimersOk(w: World, a: Action, expiring: int)
    requires TimersOkBut(w.k, expiring)
    ensures TimersOkBut(Apply(w, a).k, expiring)
  {
    CallsWriteOkTimers(w, a, expiring);
    hide Effects, Objects, SetTaskState;
    PerformAllKeeps(k => TimersOkBut(k, expiring), e => WritesOkTimer(e), w.k, Effects(w, a));
  }

  lemma CallsTimersOk(w: World, acts: seq<Action>, expiring: int)
    requires TimersOkBut(w.k, expiring)
    ensures TimersOkBut(ApplyAll(w, acts).k, expiring)
  {
    var P := (x: World) => TimersOkBut(x.k, expiring);
    forall x: World, a: Action | P(x) ensures P(Apply(x, a)) {
      ApplyTimersOk(x, a, expiring);
    }
    AnythingIsOk(w, acts);
    ApplyAllKeeps(P, Anything(), w, acts);
  }

  /** Whatever the callback does, even to its own slot, the slot is well-formed afterwards. */
  lemma SoftSlotTimersOk(w: World, callback: seq<Action>, slot: nat)
    requires slot < |w.k.timers| && TimersOk(w.k)
    ensures TimersOk(SoftSlot(w, callback, slot).k)
  {
    if Fires(w, slot) {
      var c := CountSlot(w, slot);
      assert TimersOkBut(c.k, slot);
      CallsTimersOk(c, callback, slot);
      var k := ApplyAll(c, callback).k;
      assert forall i :: 0 <= i < |k.timers| && i != slot ==> TimerOk(k.timers[i]);
      ApplyAllFrame(c, callback);
      assert TimersOk(Rearm(ApplyAll(c, callback), slot).k);
    } else {
      assert TimerOk(w.k.timers[slot]);
    }
  }

  lemma {:induction false} SoftPassTimersOk(w: World, callbacks: seq<seq<Action>>, slot: nat)
    requires TimersOk(w.k)
    ensures TimersOk(SoftPass(w, callbacks, slot).k)
    decreases |w.k.timers| - slot
  {
    if slot < |w.k.timers| {
      SoftSlotTimersOk(w, CallbackOf(callbacks, slot), slot);
      SoftPassTimersOk(SoftSlot(w, CallbackOf(callbacks, slot), slot), callbacks, slot + 1);
    }
  }

  /** The sleep pass does not look at the timers. */
  lemma {:induction false} SleepPassTimers(k: KernelState, i: nat)
    ensures SleepPass(k, i).timers == k.timers
    decreases |k.tasks| - i
  {
    if i < |k.tasks| {
      SleepPassTimers(CountDown(k, i), i + 1);
    }
  }

  lemma CycleTimersOk(w: World, s: TickScript)
    requires TimersOk(w.k)
    ensures TimersOk(SoftPass(Wake(w), s.callbacks, 0).k)
    ensures TimersOk(Cycle(w, s).k)
  {
    SleepPassTimers(w.k.(tick := w.k.tick + 1), 0);
    SoftPassTimersOk(Wake(w), s.callbacks, 0);
    var d := AtDecision(w, s.callbacks);
    DispatchKeepsTimers(d.k);
    if Decide(d.k) != Idle {
      CallsTimersOk(Begin(d), s.body, -1);
    }
  }

  /** At every loop head of every run, and after every timer pass, the whole pool is well-formed. */
  lemma {:induction false} RunTimersOk(w: World, steps: seq<Step>)
    requires TimersOk(w.k)
    ensures TimersOk(Run(w, steps).k)
    decreases |steps|
  {
    if steps != [] {
      match steps[0]
      case Tick(s) =>
        CycleTimersOk(w, s);
        RunTimersOk(Cycle(w, s), steps[1..]);
      case Call(a) =>
        ApplyTimersOk(w, a, -1);
        RunTimersOk(Apply(w, a), steps[1..]);
    }
  }

  // ---------------------------------------------------------------- one timer, left alone

  predicate TargetsTimer(e: Effect, i: nat) {
    e.SetTimer? && e.slot == i
  }

  ghost predicate LeavesTimerAlone(w: World, a: Action, i: nat) {
    forall j :: 0 <= j < |Effects(w, a)| ==> !TargetsTimer(Effects(w, a)[j], i)
  }

  /** Nobody creates, starts, stops or deletes the timer in slot i. */
  ghost function TimerSparing(i: nat): (World, Action) -> bool {
    (w: World, a: Action) => LeavesTimerAlone(w, a, i)
  }

  /** How often the timer in slot i has expired. */
  function Expiries(h: History, i: nat): nat {
    match h
    case Beginning => 0
    case Then(past, event) => Expiries(past, i) + if event == Fired(i) then 1 else 0
  }

  ghost predicate TimerIs(w: World, i: nat, t: SoftTimer, expiries: nat) {
    i < |w.k.timers| && w.k.timers[i] == t && Expiries(w.log, i) == expiries
  }

  lemma ApplySparesTimer(w: World, a: Action, i: nat, t: SoftTimer, n: nat)
    requires TimerIs(w, i, t, n) && LeavesTimerAlone(w, a, i)
    ensures TimerIs(Apply(w, a), i, t, n)
  {
    var P := (k: KernelState) => i < |k.timers| && k.timers[i] == t;
    assert Expiries(Objects(w, a).log, i) == n by { hide SetFlags, AfterWait, Clear, Effects; }
    hide Effects, Objects, SetTaskState;
    PerformAllKeeps(P, e => !TargetsTimer(e, i), w.k, Effects(w, a));
  }

  lemma CallsSpareTimer(w: World, acts: seq<Action>, i: nat, t: SoftTimer, n: nat)
    requires TimerIs(w, i, t, n) && AllOk(TimerSparing(i), w, acts)
    ensures TimerIs(ApplyAll(w, acts), i, t, n)
  {
    var P := (x: World) => TimerIs(x, i, t, n);
    forall x: World, a: Action | P(x) && TimerSparing(i)(x, a) ensures P(Apply(x, a)) {
      ApplySparesTimer(x, a, i, t, n);
    }
    ApplyAllKeeps(P, TimerSparing(i), w, acts);
  }

  /** What one pass does to a timer nobody touches. */
  function AfterPass(t: SoftTimer): SoftTimer {
    if !t.inUse || !t.active then t
    else if t.remaining > 1 then t.(remaining := t.remaining - 1)
    else if t.mode == Periodic then t.(remaining := t.period)
    else t.(remaining := 0, active := false)
  }

  predicate Expires(t: SoftTimer) {
    t.inUse && t.active && t.remaining <= 1
  }

  lemma SlotSparesTimer(w: World, callback: seq<Action>, slot: nat, i: nat, t: SoftTimer, n: nat)
    requires slot < |w.k.timers| && TimerIs(w, i, t, n)
    requires Fires(w, slot) ==> AllOk(TimerSparing(i), CountSlot(w, slot), callback)
    ensures slot != i ==> TimerIs(SoftSlot(w, callback, slot), i, t, n)
    ensures slot == i ==> TimerIs(SoftSlot(w, callback, slot), i, AfterPass(t), n + if Expires(t) then 1 else 0)
  {
    if Fires(w, slot) {
      var c := CountSlot(w, slot);
      CallsSpareTimer(c, callback, i, c.k.timers[i], Expiries(c.log, i));
    }
  }

  /** A timer pass counts a spared timer exactly once. */
  lemma {:induction false} PassCountsOnce(
      w: World, callbacks: seq<seq<Action>>, slot: nat, i: nat, t: SoftTimer, n: nat)
    requires TimerIs(w, i, t, n) && CallbacksOk(TimerSparing(i), w, callbacks, slot)
    ensures slot > i ==> TimerIs(SoftPass(w, callbacks, slot), i, t, n)
    ensures slot <= i ==> TimerIs(SoftPass(w, callbacks, slot), i, AfterPass(t), n + if Expires(t) then 1 else 0)
    decreases |w.k.timers| - slot
  {
    hide SoftSlot, AfterPass, CallbackOf, Expires, Expiries, Fires, AllOk, CountSlot;
    if slot < |w.k.timers| {
      var acts := CallbackOf(callbacks, slot);
      SlotSparesTimer(w, acts, slot, i, t, n);
      var w' := SoftSlot(w, acts, slot);
      PassCountsOnce(w', callbacks, slot + 1, i, w'.k.timers[i], Expiries(w'.log, i));
    }
  }

  lemma CycleCountsOnce(w: World, s: TickScript, i: nat, t: SoftTimer, n: nat)
    requires TimerIs(w, i, t, n) && TickOk(TimerSparing(i), TimerSparing(i), w, s)
    ensures TimerIs(Cycle(w, s), i, AfterPass(t), n + if Expires(t) then 1 else 0)
  {
    hide SleepPass, SoftPass, AfterPass, Expires, CallbacksOk, AllOk, ApplyAll, Dispatch, Decide;
    var n' := n + if Expires(t) then 1 else 0;
    SleepPassTimers(w.k.(tick := w.k.tick + 1), 0);
    PassCountsOnce(Wake(w), s.callbacks, 0, i, t, n);
    var d := AtDecision(w, s.callbacks);
    assert TimerIs(d, i, AfterPass(t), n');
    DispatchKeepsTimers(d.k);
    if Decide(d.k) != Idle {
      CallsSpareTimer(Begin(d), s.body, i, AfterPass(t), n');
    }
  }

  // ---------------------------------------------------------------- whole runs

  /** The timer d ticks after it was armed, in closed form. */
  function AfterTicks(t: SoftTimer, d: nat): SoftTimer
    requires t.period >= 1
  {
    if t.mode == Periodic then t.(remaining := t.period - d % t.period)
    else if d < t.period then t.(remaining := t.period - d)
    else t.(remaining := 0, active := false)
  }

  function ExpiriesAfter(t: SoftTimer, d: nat): nat
    requires t.period >= 1
  {
    if t.mode == Periodic then d / t.period else if d < t.period then 0 else 1
  }

  predicate Armed(t: SoftTimer) {
    t.inUse && t.active && t.period >= 1 && t.remaining == t.period
  }

  lemma ClosedFormStart(t: SoftTimer)
    requires Armed(t)
    ensures AfterTicks(t, 0) == t && ExpiriesAfter(t, 0) == 0
  {
    DivUnique(0, t.period, 0, 0);
  }

  lemma ClosedFormStep(t: SoftTimer, d: nat)
    requires Armed(t)
    ensures AfterTicks(t, d + 1) == AfterPass(AfterTicks(t, d))
    ensures ExpiriesAfter(t, d + 1) == ExpiriesAfter(t, d) + if Expires(AfterTicks(t, d)) then 1 else 0
  {
    DivStep(d, t.period);
  }

  lemma StepCounts(w: World, step: Step, i: nat, t: SoftTimer, n: nat)
    requires TimerIs(w, i, t, n) && StepOk(TimerSparing(i), TimerSparing(i), w, step)
    ensures step.Tick? ==> TimerIs(Do(w, step), i, AfterPass(t), n + if Expires(t) then 1 else 0)
    ensures step.Call? ==> TimerIs(Do(w, step), i, t, n)
  {
    match step
    case Tick(s) => CycleCountsOnce(w, s, i, t, n);
    case Call(a) => ApplySparesTimer(w, a, i, t, n);
  }

  /** The closed form holds after every run that leaves the timer alone. */
  lemma {:induction false} TimerClosedForm(w: World, steps: seq<Step>, i: nat, t: SoftTimer, d: nat, n: nat)
    requires Armed(t) && TimerIs(w, i, AfterTicks(t, d), n + ExpiriesAfter(t, d))
    requires StepsOk(TimerSparing(i), TimerSparing(i), w, steps)
    ensures TimerIs(Run(w, steps), i, AfterTicks(t, d + Ticks(steps)), n + ExpiriesAfter(t, d + Ticks(steps)))
    decreases |steps|
  {
    hide AfterTicks, ExpiriesAfter, AfterPass, Expires, TimerIs, Do, StepOk;
    if steps != [] {
      StepCounts(w, steps[0], i, AfterTicks(t, d), n + ExpiriesAfter(t, d));
      ClosedFormStep(t, d);
      TimerClosedForm(Do(w, steps[0]), steps[1..], i, t, d + TicksOf(steps[0]), n);
    }
  }

  /**
   * A timer armed outside the timer pass and then left alone: a periodic one has expired d / period times after d
   * ticks, a one-shot exactly once from tick `period` on.
   */
  lemma ArmedTimerFires(w: World, steps: seq<Step>, i: nat, t: SoftTimer)
    requires Armed(t) && TimerIs(w, i, t, Expiries(w.log, i)) && StepsOk(TimerSparing(i), TimerSparing(i), w, steps)
    ensures TimerIs(Run(w, steps), i, AfterTicks(t, Ticks(steps)),
                    Expiries(w.log, i) + ExpiriesAfter(t, Ticks(steps)))
  {
    hide AfterTicks, ExpiriesAfter, Run, Do, StepsOk, Ticks, Expiries, TimerIs, Armed;
    ClosedFormStart(t);
    TimerClosedForm(w, steps, i, t, 0, Expiries(w.log, i));
  }

  /** Whether the d-th tick after arming fires the timer. */
  predicate FiresAt(t: SoftTimer, d: nat)
    requires t.period >= 1
  {
    if t.mode == Periodic then d % t.period == 0 else d == t.period
  }

  lemma ExpiresAt(t: SoftTimer, d: nat)
    requires Armed(t)
    ensures Expires(AfterTicks(t, d)) <==> FiresAt(t, d + 1)
  {
    DivStep(d, t.period);
  }

  /** The next tick fires a periodic timer exactly when the period divides the ticks since it was armed. */
  lemma FiresOnMultiples(w: World, steps: seq<Step>, s: TickScript, i: nat, t: SoftTimer)
    requires Armed(t) && TimerIs(w, i, t, Expiries(w.log, i)) && StepsOk(TimerSparing(i), TimerSparing(i), w, steps)
    requires TickOk(TimerSparing(i), TimerSparing(i), Run(w, steps), s)
    ensures Expiries(Cycle(Run(w, steps), s).log, i) ==
            Expiries(Run(w, steps).log, i) + if FiresAt(t, Ticks(steps) + 1) then 1 else 0
  {
    hide AfterTicks, Expires, FiresAt, AfterPass, ExpiriesAfter, Expiries;
    hide Cycle, Run, Do, TickOk, StepsOk, Ticks;
    ArmedTimerFires(w, steps, i, t);
    CycleCountsOnce(Run(w, steps), s, i, AfterTicks(t, Ticks(steps)), Expiries(Run(w, steps).log, i));
    ExpiresAt(t, Ticks(steps));
  }

  /** `timer_soft_start` arms a claimed slot, whatever its countdown was. */
  lemma StartArms(w: World, i: nat)
    requires i < |w.k.timers| && w.k.timers[i].inUse && w.k.timers[i].period >= 1
    ensures var w' := Apply(w, TimerStart(i));
            TimerIs(w', i, w.k.timers[i].(remaining := w.k.timers[i].period, active := true), Expiries(w.log, i))
  {
    var e := SetTimer(i, w.k.timers[i].(remaining := w.k.timers[i].period, active := true));
    PerformOne(w.k, e);
  }

  // ---------------------------------------------------------------- a stopped timer

  lemma {:induction false} DisarmedStaysSilent(w: World, steps: seq<Step>, i: nat, t: SoftTimer, n: nat)
    requires !t.active && TimerIs(w, i, t, n) && StepsOk(TimerSparing(i), TimerSparing(i), w, steps)
    ensures TimerIs(Run(w, steps), i, t, n)
    decreases |steps|
  {
    hide TimerIs, Do, StepOk;
    if steps != [] {
      StepCounts(w, steps[0], i, t, n);
      DisarmedStaysSilent(Do(w, steps[0]), steps[1..], i, t, n);
    }
  }

  /**
   * In every run: once stopped or deleted, a timer does not fire again until somebody starts it, and a deleted
   * one is free for the next `timer_soft_create`.
   */
  lemma StopSilences(w: World, before: seq<Step>, stop: Action, i: nat, after: seq<Step>)
    requires Initial(w) && i < |Run(w, before).k.timers|
    requires stop == Action.TimerStop(i) || stop == Action.TimerDelete(i)
    requires StepsOk(TimerSparing(i), TimerSparing(i), Apply(Run(w, before), stop), after)
    ensures var w1 := Run(w, before);
            var w2 := Run(Apply(w1, stop), after);
            && Expiries(w2.log, i) == Expiries(w1.log, i)
            && i < |w2.k.timers| && !w2.k.timers[i].active
            && (stop.TimerDelete? ==> !w2.k.timers[i].inUse)
  {
    hide Apply, StepsOk, Expiries;
    var w1 := Run(w, before);
    RunTimersOk(w, before);
    hide Run, Initial;
    StopDisarms(w1, stop, i);
    var w2 := Apply(w1, stop);
    DisarmedStaysSilent(w2, after, i, w2.k.timers[i], Expiries(w1.log, i));
  }

  lemma StopDisarms(w: World, stop: Action, i: nat)
    requires i < |w.k.timers| && TimerOk(w.k.timers[i])
    requires stop == Action.TimerStop(i) || stop == Action.TimerDelete(i)
    ensures var w' := Apply(w, stop);
            && i < |w'.k.timers| && !w'.k.timers[i].active
            && (stop.TimerDelete? ==> !w'.k.timers[i].inUse)
            && TimerIs(w', i, w'.k.timers[i], Expiries(w.log, i))
  {
    if w.k.timers[i].inUse {
      PerformOne(w.k, Effects(w, stop)[0]);
    }
  }

  // ---------------------------------------------------------------- starting a timer from a callback

  /** A callback makes any calls, starts the timer in slot i, and then makes calls that leave it alone. */
  ghost predicate StartsTimer(w: World, pre: seq<Action>, i: nat, post: seq<Action>) {
    AllOk(TimerSparing(i), ApplyAll(w, pre + [TimerStart(i)]), post)
  }

  lemma {:induction false} CallsNeverExpire(w: World, acts: seq<Action>, i: nat)
    ensures Expiries(ApplyAll(w, acts).log, i) == Expiries(w.log, i)
    decreases |acts|
  {
    if acts != [] {
      hide Apply;
      CallNeverExpires(w, acts[0], i);
      CallsNeverExpire(Apply(w, acts[0]), acts[1..], i);
    }
  }

  lemma CallNeverExpires(w: World, a: Action, i: nat)
    ensures Expiries(Apply(w, a).log, i) == Expiries(w.log, i)
  {
    hide SetFlags, AfterWait, Clear, Effects;
  }

  /** After such a callback a claimed timer is freshly armed. */
  lemma CallbackArms(w: World, pre: seq<Action>, i: nat, post: seq<Action>)
    requires StartsTimer(w, pre, i, post) && i < |w.k.timers|
    requires i < |ApplyAll(w, pre).k.timers|
    requires ApplyAll(w, pre).k.timers[i].inUse && ApplyAll(w, pre).k.timers[i].period >= 1
    ensures var t := ApplyAll(w, pre).k.timers[i];
            TimerIs(ApplyAll(w, pre + [TimerStart(i)] + post), i, t.(remaining := t.period, active := true),
                    Expiries(w.log, i))
  {
    hide AllOk, Expiries;
    var w1 := ApplyAll(w, pre);
    var w2 := ApplyAll(w, pre + [TimerStart(i)]);
    CallsNeverExpire(w, pre, i);
    ApplyAllConcat(w, pre, [TimerStart(i)]);
    ApplyAllConcat(w, pre + [TimerStart(i)], post);
    assert ApplyAll(w1, [TimerStart(i)]) == Apply(w1, TimerStart(i));
    hide ApplyAll;
    StartArms(w1, i);
    CallsSpareTimer(w2, post, i, w2.k.timers[i], Expiries(w.log, i));
  }

  /** A slot keeps a positive period through a callback, whatever the callback does. */
  lemma PeriodsStayPositive(w: World, from: nat, acts: seq<Action>, i: nat)
    requires from < |w.k.timers| && i < |w.k.timers| && TimersOk(w.k) && Fires(w, from)
    ensures var k := ApplyAll(CountSlot(w, from), acts).k;
            i < |k.timers| && (k.timers[i].inUse ==> k.timers[i].period >= 1)
  {
    var c := CountSlot(w, from);
    assert TimersOkBut(c.k, from);
    CallsTimersOk(c, acts, from);
    ApplyAllFrame(c, acts);
  }

  /**
   * The header promises that starting a running timer restarts its countdown. From the timer's own callback that
   * holds exactly for periodic timers: a one-shot is disarmed after its callback returns.
   */
  lemma SelfRestart(w: World, pre: seq<Action>, slot: nat, post: seq<Action>)
    requires slot < |w.k.timers| && TimersOk(w.k) && Fires(w, slot)
    requires StartsTimer(CountSlot(w, slot), pre, slot, post)
    requires var k := ApplyAll(CountSlot(w, slot), pre).k; slot < |k.timers| && k.timers[slot].inUse
    ensures var t := SoftSlot(w, pre + [TimerStart(slot)] + post, slot).k.timers[slot];
            Armed(t) <==> ApplyAll(CountSlot(w, slot), pre).k.timers[slot].mode == Periodic
  {
    hide ApplyAll, StartsTimer;
    PeriodsStayPositive(w, slot, pre, slot);
    CallbackArms(CountSlot(w, slot), pre, slot, post);
  }

  /** Right after the other slot is done, the started timer is freshly armed and has not expired. */
  lemma OtherSlotArms(w: World, from: nat, pre: seq<Action>, i: nat, post: seq<Action>)
    requires from < |w.k.timers| && i < |w.k.timers| && i != from && TimersOk(w.k) && Fires(w, from)
    requires StartsTimer(CountSlot(w, from), pre, i, post)
    requires var k := ApplyAll(CountSlot(w, from), pre).k; i < |k.timers| && k.timers[i].inUse
    ensures var t := ApplyAll(CountSlot(w, from), pre).k.timers[i];
            && t.period >= 1
            && TimerIs(SoftSlot(w, pre + [TimerStart(i)] + post, from), i, t.(remaining := t.period, active := true),
                       Expiries(w.log, i))
  {
    var c := CountSlot(w, from);
    assert Expiries(c.log, i) == Expiries(w.log, i);
    hide ApplyAll, StartsTimer, Expiries;
    PeriodsStayPositive(w, from, pre, i);
    CallbackArms(c, pre, i, post);
  }

  /** The rest of the pass counts a freshly armed timer once if its slot is still to come. */
  lemma PassAfterArming(w: World, callbacks: seq<seq<Action>>, slot: nat, i: nat, armed: SoftTimer, n: nat)
    requires Armed(armed) && TimerIs(w, i, armed, n) && CallbacksOk(TimerSparing(i), w, callbacks, slot)
    ensures var w' := SoftPass(w, callbacks, slot);
            && TimerIs(w', i, if slot > i then armed else AfterPass(armed),
                       n + if slot <= i && armed.period == 1 then 1 else 0)
            && (Armed(w'.k.timers[i]) <==> slot > i || (armed.period == 1 && armed.mode == Periodic))
  {
    hide SoftPass, CallbacksOk, Expiries;
    PassCountsOnce(w, callbacks, slot, i, armed, n);
  }

  lemma PassStep(w: World, callbacks: seq<seq<Action>>, slot: nat)
    requires slot < |w.k.timers|
    ensures SoftPass(w, callbacks, slot) ==
            SoftPass(SoftSlot(w, CallbackOf(callbacks, slot), slot), callbacks, slot + 1)
  {
  }

  /**
   * A timer started by the callback of another slot loses a tick when its slot comes later in the same pass: the
   * pass counts it once more, and fires it at once if its period is 1. It leaves the pass as it was armed exactly
   * when its slot comes earlier or it reloads every tick.
   */
  lemma StartedByOtherCallback(
      w: World, callbacks: seq<seq<Action>>, from: nat, pre: seq<Action>, i: nat, post: seq<Action>)
    requires from < |w.k.timers| && i < |w.k.timers| && i != from && TimersOk(w.k) && Fires(w, from)
    requires CallbackOf(callbacks, from) == pre + [TimerStart(i)] + post
    requires StartsTimer(CountSlot(w, from), pre, i, post)
    requires var k := ApplyAll(CountSlot(w, from), pre).k; i < |k.timers| && k.timers[i].inUse
    requires CallbacksOk(TimerSparing(i), SoftSlot(w, pre + [TimerStart(i)] + post, from), callbacks, from + 1)
    ensures var t := ApplyAll(CountSlot(w, from), pre).k.timers[i];
            var armed := t.(remaining := t.period, active := true);
            var w' := SoftPass(w, callbacks, from);
            && TimerIs(w', i, if i < from then armed else AfterPass(armed),
                       Expiries(w.log, i) + if i > from && armed.period == 1 then 1 else 0)
            && i < |w'.k.timers|
            && (Armed(w'.k.timers[i]) <==> i < from || (armed.period == 1 && armed.mode == Periodic))
  {
    hide *;
    OtherSlotArms(w, from, pre, i, post);
    var t := ApplyAll(CountSlot(w, from), pre).k.timers[i];
    var armed := t.(remaining := t.period, active := true);
    assert Armed(armed) by { FreshIsArmed(armed); }
    PassStep(w, callbacks, from);
    PassAfterArming(SoftSlot(w, pre + [TimerStart(i)] + post, from), callbacks, from + 1, i, armed, Expiries(w.log, i));
  }

  lemma FreshIsArmed(t: SoftTimer)
    requires t.inUse && t.active && t.period >= 1 && t.remaining == t.period
    ensures Armed(t)
  {
  }
}
