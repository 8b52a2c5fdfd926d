/** Mutual exclusion over whole runs. */
module Mutexes {
  import opened Sequences
  import opened KernelStates
  import opened EventScan
  import opened Worlds
  import opened RunInduction
  import opened Scheduling
  import opened Traces
  import opened Calls

  /** The task whose lock succeeded last and has not been followed by its unlock, or -1. */
  function Holder(h: History, m: nat): int {
    match h
    case Beginning => -1
    case Then(past, Locked(m', t)) => if m' == m then t else Holder(past, m)
    case Then(past, Unlocked(m', _, _)) => if m' == m then -1 else Holder(past, m)
    case Then(past, _) => Holder(past, m)
  }

  /** Locks succeed only for a free mutex or its holder, fail only for others, and only the holder unlocks. */
  ghost predicate Disciplined(h: History) {
    match h
    case Beginning => true
    case Then(past, Locked(m, t)) => Disciplined(past) && Holder(past, m) in {-1, t}
    case Then(past, Refused(m, t)) => Disciplined(past) && Holder(past, m) !in {-1, t}
    case Then(past, Unlocked(m, t, _)) => Disciplined(past) && Holder(past, m) == t
    case Then(past, _) => Disciplined(past)
  }

  lemma ApplyIds(w: World, a: Action)
    requires IdsFollowIndices(w.k)
    ensures IdsFollowIndices(Apply(w, a).k)
  {
    hide Effects, Objects;
    forall k: KernelState, e: Effect | IdsFollowIndices(k) ensures IdsFollowIndices(Perform(k, e)) {
      hide Remove;
    }
    PerformAllKeeps(k => IdsFollowIndices(k), e => true, w.k, Effects(w, a));
  }

  predicate IsMutexCall(a: Action) {
    a.Lock? || a.Unlock?
  }

  predicate IsMutexEvent(e: Event) {
    e.Locked? || e.Refused? || e.Unlocked?
  }

  lemma OtherCallsLeaveMutexes(w: World, a: Action)
    requires !IsMutexCall(a)
    ensures var w' := Apply(w, a);
            && w'.mutexes == w.mutexes
            && (w'.log == w.log || (w'.log.Then? && w'.log.past == w.log && !IsMutexEvent(w'.log.event)))
  {
    hide SetFlags, AfterWait, Clear, Effects;
  }

  // ---------------------------------------------------------------- mutual exclusion, any number of mutexes

  /** The lock bits and owners agree with the history. */
  ghost predicate MutexesTrackHolders(w: World) {
    && IdsFollowIndices(w.k)
    && Disciplined(w.log)
    && forall m: nat :: m < |w.mutexes| ==>
                          && Holder(w.log, m) >= -1
                          && (w.mutexes[m].locked <==> Holder(w.log, m) != -1)
                          && (w.mutexes[m].locked ==> w.mutexes[m].owner == Holder(w.log, m) + 1)
  }

  lemma ApplyTracksHolders(w: World, a: Action)
    requires MutexesTrackHolders(w)
    ensures MutexesTrackHolders(Apply(w, a))
  {
    ApplyIds(w, a);
    if !IsMutexCall(a) {
      OtherCallsLeaveMutexes(w, a);
      hide Apply;
      assert forall m: nat :: Holder(Apply(w, a).log, m) == Holder(w.log, m);
    } else {
      MutexCallTracksHolders(w, a);
    }
  }

  lemma MutexCallTracksHolders(w: World, a: Action)
    requires MutexesTrackHolders(w) && IsMutexCall(a)
    ensures var w' := Objects(w, a);
            && Disciplined(w'.log)
            && forall m: nat :: m < |w'.mutexes| ==>
                          && Holder(w'.log, m) >= -1
                          && (w'.mutexes[m].locked <==> Holder(w'.log, m) != -1)
                          && (w'.mutexes[m].locked ==> w'.mutexes[m].owner == Holder(w'.log, m) + 1)
  {
  }

  lemma InternalTracksHolders(w: World, w': World)
    requires MutexesTrackHolders(w) && Internal(w, w')
    ensures MutexesTrackHolders(w')
  {
    assert forall m: nat :: Holder(w'.log, m) == Holder(w.log, m);
  }

  lemma RunTracksHolders(w: World, steps: seq<Step>)
    requires Initial(w)
    ensures MutexesTrackHolders(Run(w, steps))
  {
    var P := (x: World) => MutexesTrackHolders(x);
    forall x: World, a: Action | P(x) ensures P(Apply(x, a)) {
      ApplyTracksHolders(x, a);
    }
    forall x: World, x': World | P(x) && Internal(x, x') ensures P(x') {
      InternalTracksHolders(x, x');
    }
    hide Apply, Run, Internal;
    RunKeeps(P, w, steps);
  }

  /** h1 is h or an earlier moment of the same history. */
  predicate EarlierOrSame(h1: History, h: History) {
    h1 == h || (h.Then? && EarlierOrSame(h1, h.past))
  }

  /** Task t unlocked m after h1 and up to h. */
  predicate ReleasedBetween(h1: History, h: History, m: nat, t: int) {
    && h != h1
    && h.Then?
    && ((h.event.Unlocked? && h.event.mutex == m && h.event.task == t) || ReleasedBetween(h1, h.past, m, t))
  }

  lemma {:induction false} HeldUntilReleased(h1: History, h: History, m: nat, t: int)
    requires EarlierOrSame(h1, h) && Disciplined(h) && h1.Then? && h1.event == Locked(m, t) && t != -1
    requires !ReleasedBetween(h1, h, m, t)
    ensures Holder(h, m) == t
    decreases h
  {
    if h != h1 {
      HeldUntilReleased(h1, h.past, m, t);
    }
  }

  lemma {:induction false} DisciplinedBefore(h1: History, h: History)
    requires EarlierOrSame(h1, h) && Disciplined(h)
    ensures Disciplined(h1)
    decreases h
  {
    if h != h1 {
      DisciplinedBefore(h1, h.past);
    }
  }

  /**
   * Mutual exclusion in every run, with any number of mutexes: after t locked m successfully, another task's lock
   * of m succeeds only if t unlocked m in between.
   */
  lemma MutualExclusion(
      w: World, steps: seq<Step>, first: History, second: History, m: nat, t: int, u: int)
    requires Initial(w)
    requires first.Then? && first.event == Locked(m, t) && second.Then? && second.event == Locked(m, u)
    requires EarlierOrSame(second, Run(w, steps).log) && EarlierOrSame(first, second.past)
    requires t != u && t != -1
    ensures ReleasedBetween(first, second.past, m, t)
  {
    RunTracksHolders(w, steps);
    hide Run, EarlierOrSame;
    DisciplinedBefore(second, Run(w, steps).log);
    if !ReleasedBetween(first, second.past, m, t) {
      HeldUntilReleased(first, second.past, m, t);
    }
  }

  // ---------------------------------------------------------------- the calls of a run

  /**
   * Who holds mutex m after the calls of a trace: the task that was current at the first lock of a free mutex, until
   * it is current at an unlock.
   */
  function HolderBy(h: Trace, m: nat): int {
    if h == [] then -1
    else
      var past, now := HolderBy(Earlier(h), m), Latest(h);
      if !now.before.k.HasCurrent() || m >= |now.before.mutexes| then past
      else if now.call == Lock(m) && past == -1 then now.before.k.current
      else if now.call == Unlock(m) && past == now.before.k.current then -1
      else past
  }

  ghost predicate HoldersKnown(w: World, h: Trace) {
    MutexesTrackHolders(w) && forall m: nat :: m < |w.mutexes| ==> Holder(w.log, m) == HolderBy(h, m)
  }

  lemma CallKeepsHolders(w: World, a: Action, h: Trace)
    requires HoldersKnown(w, h)
    ensures HoldersKnown(Apply(w, a), h + [Moment(w, a)])
  {
    hide Apply, WakeMostUrgent, BlockCurrent, Waiter, Disciplined;
    ApplyTracksHolders(w, a);
    AddedLast(h, Moment(w, a));
    if !Defined(w, a) {
      SkippedCall(w, a);
    } else if a.Lock? {
      LockCall(w, a.mutex);
    } else if a.Unlock? {
      UnlockCall(w, a.mutex);
    } else {
      OtherCallsLeaveMutexes(w, a);
    }
  }

  lemma MovesKeepHolders(w: World, w': World, h: Trace)
    requires HoldersKnown(w, h) && Internal(w, w')
    ensures HoldersKnown(w', h)
  {
    InternalTracksHolders(w, w');
    assert forall m: nat :: Holder(w'.log, m) == Holder(w.log, m);
  }

  /**
   * In every run, for every mutex, over the calls its scripts make: the mutex is locked exactly if the calls give it a
   * holder, its owner is that task's id, and the log names the same holder.
   */
  lemma HeldAsCalled(w: World, steps: seq<Step>, m: nat)
    requires Initial(w) && m < |Run(w, steps).mutexes|
    ensures var w', t := Run(w, steps), HolderBy(CallsOf(w, steps), m);
            && (w'.mutexes[m].locked <==> t != -1)
            && (t != -1 ==> w'.mutexes[m].owner == t + 1)
            && Holder(w'.log, m) == t
  {
    var R := (x: World, h: Trace) => HoldersKnown(x, h);
    forall x: World, a: Action, h: Trace | R(x, h) ensures R(Apply(x, a), h + [Moment(x, a)]) {
      CallKeepsHolders(x, a, h);
    }
    forall x: World, x': World, h: Trace | R(x, h) && Internal(x, x') ensures R(x', h) {
      MovesKeepHolders(x, x', h);
    }
    assert R(w, []);
    hide Apply, Run, CallsOf, Internal, Holder, HolderBy;
    MovesAreInternal(R);
    TracksFromStart(R, w, steps);
  }
}
