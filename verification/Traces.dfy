/**
 * The API calls a run makes, read off its scripts: every call of every callback that fires, of every task function
 * and of the main program, in order, each with the world it is made in. Nothing here looks at the log.
 */
module Traces {
  import opened ReadyQueues
  import opened KernelStates
  import opened Worlds
  import opened RunInduction

  datatype Moment = Moment(before: World, call: Action)

  type Trace = seq<Moment>

  function CallsIn(w: World, acts: seq<Action>): Trace
    decreases |acts|
  {
    if acts == [] then [] else [Moment(w, acts[0])] + CallsIn(Apply(w, acts[0]), acts[1..])
  }

  /** The calls of the callbacks that fire, from the given slot on. */
  function CallbackCalls(w: World, callbacks: seq<seq<Action>>, slot: nat): Trace
    decreases |w.k.timers| - slot
  {
    if slot >= |w.k.timers| then []
    else
      var acts := CallbackOf(callbacks, slot);
      (if Fires(w, slot) then CallsIn(CountSlot(w, slot), acts) else [])
      + CallbackCalls(SoftSlot(w, acts, slot), callbacks, slot + 1)
  }

  /** The calls of a tick up to the decision. */
  function CallsToDecision(w: World, callbacks: seq<seq<Action>>): Trace {
    CallbackCalls(Wake(w), callbacks, 0)
  }

  function CallsOfStep(w: World, step: Step): Trace {
    match step
    case Call(a) => [Moment(w, a)]
    case Tick(s) =>
      var d := AtDecision(w, s.callbacks);
      CallsToDecision(w, s.callbacks) + if Decide(d.k) == Idle then [] else CallsIn(Begin(d), s.body)
  }

  function CallsOf(w: World, steps: seq<Step>): Trace
    decreases |steps|
  {
    if steps == [] then [] else CallsOfStep(w, steps[0]) + CallsOf(Do(w, steps[0]), steps[1..])
  }

  // ---------------------------------------------------------------- invariants of worlds and the calls so far

  /** The eviction of stale queue entries. */
  function Evicted(w: World): World {
    w.(k := Evict(w.k))
  }

  type Tracked = (World, Trace) -> bool

  /** A call keeps R, with the call added to the trace. */
  ghost predicate CallsKeep(R: Tracked) {
    forall w: World, a: Action, h: Trace :: R(w, h) ==> R(Apply(w, a), h + [Moment(w, a)])
  }

  /** One slot's countdown and reload keep R. */
  ghost predicate SlotsKeep(R: Tracked) {
    && (forall w: World, h: Trace, slot: nat :: R(w, h) && slot < |w.k.timers| ==> R(CountSlot(w, slot), h))
    && (forall w: World, h: Trace, slot: nat :: R(w, h) && slot < |w.k.timers| ==> R(Rearm(w, slot), h))
  }

  /** What the scheduler does by itself keeps R. */
  ghost predicate SchedulerKeeps(R: Tracked) {
    && SlotsKeep(R)
    && (forall w: World, h: Trace :: R(w, h) ==> R(Wake(w), h))
    && (forall w: World, h: Trace :: R(w, h) ==> R(Evicted(w), h))
    && (forall w: World, h: Trace :: R(w, h) && InTable(w.k.tasks, w.k.ready) ==> R(Begin(w), h))
    && (forall w: World, h: Trace :: R(w, h) ==> R(End(w), h))
  }

  lemma {:induction false} CallsInKeep(R: Tracked, w: World, acts: seq<Action>, h: Trace)
    requires CallsKeep(R) && R(w, h)
    ensures R(ApplyAll(w, acts), h + CallsIn(w, acts))
    decreases |acts|
  {
    hide Apply;
    if acts == [] {
      assert h + [] == h;
    } else {
      CallsInKeep(R, Apply(w, acts[0]), acts[1..], h + [Moment(w, acts[0])]);
      var rest := CallsIn(Apply(w, acts[0]), acts[1..]);
      assert h + [Moment(w, acts[0])] + rest == h + ([Moment(w, acts[0])] + rest);
    }
  }

  lemma OneSlotKeeps(R: Tracked, w: World, acts: seq<Action>, slot: nat, h: Trace)
    requires CallsKeep(R) && SlotsKeep(R) && R(w, h) && slot < |w.k.timers|
    ensures R(SoftSlot(w, acts, slot), h + if Fires(w, slot) then CallsIn(CountSlot(w, slot), acts) else [])
  {
    hide CountSlot, Rearm, Fires;
    if Fires(w, slot) {
      CallsInKeep(R, CountSlot(w, slot), acts, h);
      CountKeepsSlots(w, slot);
      ApplyAllFrame(CountSlot(w, slot), acts);
    } else {
      assert h + [] == h;
    }
  }

  lemma CountKeepsSlots(w: World, slot: nat)
    requires slot < |w.k.timers|
    ensures |CountSlot(w, slot).k.timers| == |w.k.timers|
  {
  }

  lemma {:induction false} CallbacksKeep(R: Tracked, w: World, callbacks: seq<seq<Action>>, slot: nat, h: Trace)
    requires CallsKeep(R) && SlotsKeep(R) && R(w, h)
    ensures R(SoftPass(w, callbacks, slot), h + CallbackCalls(w, callbacks, slot))
    decreases |w.k.timers| - slot
  {
    hide SoftSlot, Fires, CountSlot, CallsIn;
    if slot >= |w.k.timers| {
      assert h + [] == h;
    } else {
      var acts := CallbackOf(callbacks, slot);
      var now := if Fires(w, slot) then CallsIn(CountSlot(w, slot), acts) else [];
      var rest := CallbackCalls(SoftSlot(w, acts, slot), callbacks, slot + 1);
      OneSlotKeeps(R, w, acts, slot, h);
      CallbacksKeep(R, SoftSlot(w, acts, slot), callbacks, slot + 1, h + now);
      assert h + now + rest == h + (now + rest);
    }
  }

  /** R at the decision of a tick. */
  lemma DecisionKeeps(R: Tracked, w: World, callbacks: seq<seq<Action>>, h: Trace)
    requires CallsKeep(R) && SchedulerKeeps(R) && R(w, h)
    ensures R(AtDecision(w, callbacks), h + CallsToDecision(w, callbacks))
  {
    hide SoftPass, CallbackCalls, Wake, Evict;
    CallbacksKeep(R, Wake(w), callbacks, 0, h);
    assert AtDecision(w, callbacks) == Evicted(SoftPass(Wake(w), callbacks, 0));
  }

  /** From the decision to the return of the task function. */
  lemma BodyKeeps(R: Tracked, d: World, body: seq<Action>, h: Trace)
    requires CallsKeep(R) && SchedulerKeeps(R) && R(d, h) && InTable(d.k.tasks, d.k.ready)
    ensures R(End(ApplyAll(Begin(d), body)), h + CallsIn(Begin(d), body))
  {
    hide InTable, Begin, End, ApplyAll, CallsIn;
    CallsInKeep(R, Begin(d), body, h);
  }

  lemma IdleKeeps(R: Tracked, d: World, h: Trace)
    requires SchedulerKeeps(R) && R(d, h) && InTable(d.k.tasks, d.k.ready)
    ensures R(Begin(d), h)
  {
    hide InTable, Begin;
  }

  lemma TickKeeps(R: Tracked, w: World, s: TickScript, h: Trace)
    requires CallsKeep(R) && SchedulerKeeps(R) && R(w, h)
    ensures R(Cycle(w, s), h + CallsOfStep(w, Tick(s)))
  {
    hide AtDecision, CallsToDecision, Begin, End, ApplyAll, CallsIn, Decide, CallsKeep, SchedulerKeeps, InTable;
    var d := AtDecision(w, s.callbacks);
    var before := CallsToDecision(w, s.callbacks);
    DecisionKeeps(R, w, s.callbacks, h);
    if Decide(d.k) == Idle {
      IdleKeeps(R, d, h + before);
      assert h + before == h + (before + []);
    } else {
      var calls := CallsIn(Begin(d), s.body);
      BodyKeeps(R, d, s.body, h + before);
      assert h + before + calls == h + (before + calls);
    }
  }

  /** R holds of the world a run ends in and all the calls made so far. */
  lemma StepKeeps(R: Tracked, w: World, step: Step, h: Trace)
    requires CallsKeep(R) && SchedulerKeeps(R) && R(w, h)
    ensures R(Do(w, step), h + CallsOfStep(w, step))
  {
    match step
    case Tick(s) =>
      hide Cycle, CallsKeep, SchedulerKeeps, CallsOfStep;
      TickKeeps(R, w, s, h);
    case Call(a) =>
      hide Apply, SchedulerKeeps;
  }

  /** R holds of the world a run ends in and all the calls made so far. */
  lemma {:induction false} RunTracks(R: Tracked, w: World, steps: seq<Step>, h: Trace)
    requires CallsKeep(R) && SchedulerKeeps(R) && R(w, h)
    ensures R(Run(w, steps), h + CallsOf(w, steps))
    decreases |steps|
  {
    hide CallsOfStep, Do, CallsKeep, SchedulerKeeps;
    if steps == [] {
      assert h + [] == h;
    } else {
      var now := CallsOfStep(w, steps[0]);
      StepKeeps(R, w, steps[0], h);
      RunTracks(R, Do(w, steps[0]), steps[1..], h + now);
      var rest := CallsOf(Do(w, steps[0]), steps[1..]);
      assert h + now + rest == h + (now + rest);
    }
  }

  /** The same for a run from the beginning. */
  lemma TracksFromStart(R: Tracked, w: World, steps: seq<Step>)
    requires CallsKeep(R) && SchedulerKeeps(R) && R(w, [])
    ensures R(Run(w, steps), CallsOf(w, steps))
  {
    hide Run, CallsOf, CallsKeep, SchedulerKeeps;
    RunTracks(R, w, steps, []);
    assert [] + CallsOf(w, steps) == CallsOf(w, steps);
  }

  // ---------------------------------------------------------------- properties the scheduler's own moves respect

  ghost predicate RespectsMoves(R: Tracked) {
    forall w: World, w': World, h: Trace :: R(w, h) && Internal(w, w') ==> R(w', h)
  }

  /** A property that survives every move of the scheduler, as `Internal` describes them. */
  lemma MovesAreInternal(R: Tracked)
    requires RespectsMoves(R)
    ensures SchedulerKeeps(R)
  {
    hide Internal, CountSlot, Rearm, Wake, Evict, Begin, End;
    forall w: World, h: Trace, slot: nat | R(w, h) && slot < |w.k.timers|
      ensures R(CountSlot(w, slot), h) && R(Rearm(w, slot), h)
    {
      TimerMovesAreInternal(w, slot);
    }
    forall w: World, h: Trace | R(w, h) ensures R(Wake(w), h) && R(Evicted(w), h) && R(End(w), h) {
      WakeIsInternal(w);
      EvictIsInternal(w);
      EndIsInternal(w);
    }
    forall w: World, h: Trace | R(w, h) && InTable(w.k.tasks, w.k.ready) ensures R(Begin(w), h) {
      BeginIsInternal(w);
    }
  }

  lemma TimerMovesAreInternal(w: World, slot: nat)
    requires slot < |w.k.timers|
    ensures Internal(w, CountSlot(w, slot)) && Internal(w, Rearm(w, slot))
  {
  }

  lemma EvictIsInternal(w: World)
    ensures Internal(w, Evicted(w))
  {
  }

  // ---------------------------------------------------------------- the last call of a trace

  function Earlier(h: Trace): Trace
    requires h != []
  {
    h[..|h| - 1]
  }

  function Latest(h: Trace): Moment
    requires h != []
  {
    h[|h| - 1]
  }

  lemma AddedLast(h: Trace, m: Moment)
    ensures Earlier(h + [m]) == h && Latest(h + [m]) == m
  {
  }
}
