/** Counting semaphores over whole runs: conservation of tokens. */
module Semaphores {
  import opened KernelStates
  import opened EventScan
  import opened Worlds
  import opened RunInduction
  import opened Traces
  import opened Calls

  function Signals(h: History, s: nat): nat {
    match h
    case Beginning => 0
    case Then(past, e) => Signals(past, s) + if e.Signalled? && e.sem == s then 1 else 0
  }

  function Takes(h: History, s: nat): nat {
    match h
    case Beginning => 0
    case Then(past, e) => Takes(past, s) + if e.Took? && e.sem == s then 1 else 0
  }

  predicate IsSemCall(a: Action) {
    a.SemWait? || a.SemSignal?
  }

  lemma OtherCallsLeaveSemaphores(w: World, a: Action)
    requires !IsSemCall(a)
    ensures Apply(w, a).sems == w.sems
    ensures forall s: nat ::
              Signals(Apply(w, a).log, s) == Signals(w.log, s) && Takes(Apply(w, a).log, s) == Takes(w.log, s)
  {
    var w' := Objects(w, a);
    assert w'.sems == w.sems;
    assert w'.log == w.log || (w'.log.Then? && w'.log.past == w.log
                               && !w'.log.event.Took? && !w'.log.event.Waited? && !w'.log.event.Signalled?) by {
      hide SetFlags, AfterWait, Clear, Signals, Takes;
    }
    hide Objects, Effects;
  }

  // ---------------------------------------------------------------- the calls of a run

  /** How often the trace signals semaphore s. */
  function SignalCalls(h: Trace, s: nat): nat {
    if h == [] then 0 else SignalCalls(Earlier(h), s) + if Latest(h).call == SemSignal(s) then 1 else 0
  }

  /** The task that is current takes a token of semaphore s. */
  predicate TakesToken(m: Moment, s: nat) {
    m.call == SemWait(s) && m.before.k.HasCurrent() && s < |m.before.sems| && m.before.sems[s] > 0
  }

  function TakeCalls(h: Trace, s: nat): nat {
    if h == [] then 0 else TakeCalls(Earlier(h), s) + if TakesToken(Latest(h), s) then 1 else 0
  }

  /** Count and log of semaphore s agree with the calls made. */
  ghost predicate Accounted(w: World, initial: seq<int>, h: Trace, s: nat)
    requires s < |initial| == |w.sems|
  {
    && w.sems[s] == initial[s] + SignalCalls(h, s) - TakeCalls(h, s)
    && Signals(w.log, s) == SignalCalls(h, s) && Takes(w.log, s) == TakeCalls(h, s)
    && (initial[s] >= 0 ==> w.sems[s] >= 0)
  }

  ghost predicate AllAccounted(w: World, initial: seq<int>, h: Trace) {
    |w.sems| == |initial| && forall s: nat :: s < |initial| ==> Accounted(w, initial, h, s)
  }

  lemma CallAccounts(w: World, a: Action, initial: seq<int>, h: Trace)
    requires AllAccounted(w, initial, h)
    ensures AllAccounted(Apply(w, a), initial, h + [Moment(w, a)])
  {
    hide Apply, WakeMostUrgent, BlockCurrent, Waiter;
    AddedLast(h, Moment(w, a));
    if !Defined(w, a) {
      SkippedCall(w, a);
    } else if a.SemSignal? {
      SignalCall(w, a.sem);
    } else if a.SemWait? {
      WaitCall(w, a.sem);
    } else {
      OtherCallsLeaveSemaphores(w, a);
    }
    hide Defined;
    forall s: nat | s < |initial| ensures |Apply(w, a).sems| == |initial|
      ensures Accounted(Apply(w, a), initial, h + [Moment(w, a)], s)
    {
      assert Accounted(w, initial, h, s);
    }
    SizeStays(w, a);
  }

  lemma SizeStays(w: World, a: Action)
    ensures |Apply(w, a).sems| == |w.sems|
  {
    hide Effects, SetFlags, AfterWait, Clear;
  }

  lemma MovesAccount(w: World, w': World, initial: seq<int>, h: Trace)
    requires AllAccounted(w, initial, h) && Internal(w, w')
    ensures AllAccounted(w', initial, h)
  {
    forall s: nat | s < |initial| ensures Accounted(w', initial, h, s) {
      assert Accounted(w, initial, h, s);
    }
  }

  /**
   * Tokens are conserved, over the calls that the scripts of a run make: count = initial count + signals - waits that
   * found a token, and it never goes negative. The log records exactly those calls.
   */
  lemma TokensConserved(w: World, steps: seq<Step>)
    requires Initial(w)
    ensures var w', h := Run(w, steps), CallsOf(w, steps);
            && |w'.sems| == |w.sems|
            && forall s: nat :: s < |w.sems| ==>
                                  && w'.sems[s] == w.sems[s] + SignalCalls(h, s) - TakeCalls(h, s)
                                  && Signals(w'.log, s) == SignalCalls(h, s) && Takes(w'.log, s) == TakeCalls(h, s)
                                  && (w.sems[s] >= 0 ==> w'.sems[s] >= 0)
  {
    var R := (x: World, h: Trace) => AllAccounted(x, w.sems, h);
    forall x: World, a: Action, h: Trace | R(x, h) ensures R(Apply(x, a), h + [Moment(x, a)]) {
      CallAccounts(x, a, w.sems, h);
    }
    forall x: World, x': World, h: Trace | R(x, h) && Internal(x, x') ensures R(x', h) {
      MovesAccount(x, x', w.sems, h);
    }
    assert R(w, []);
    hide Apply, Run, CallsOf, AllAccounted, Internal;
    MovesAreInternal(R);
    TracksFromStart(R, w, steps);
    Unfolded(Run(w, steps), w.sems, CallsOf(w, steps));
  }

  lemma Unfolded(w: World, initial: seq<int>, h: Trace)
    requires AllAccounted(w, initial, h)
    ensures |w.sems| == |initial|
    ensures forall s: nat :: s < |initial| ==>
              && w.sems[s] == initial[s] + SignalCalls(h, s) - TakeCalls(h, s)
              && Signals(w.log, s) == SignalCalls(h, s) && Takes(w.log, s) == TakeCalls(h, s)
              && (initial[s] >= 0 ==> w.sems[s] >= 0)
  {
    hide SignalCalls, TakeCalls, Signals, Takes;
    forall s: nat | s < |initial|
      ensures && w.sems[s] == initial[s] + SignalCalls(h, s) - TakeCalls(h, s)
              && Signals(w.log, s) == SignalCalls(h, s) && Takes(w.log, s) == TakeCalls(h, s)
              && (initial[s] >= 0 ==> w.sems[s] >= 0)
    {
      assert Accounted(w, initial, h, s);
    }
  }
}
