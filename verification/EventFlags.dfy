/** Event-flag groups over whole runs: tables stay quiet and no event waiter is orphaned. */
module EventFlags {
  import opened KernelTypes
  import opened KernelStates
  import opened EventScan
  import opened Worlds
  import opened RunInduction
  import opened Waiters

  /** Task t has a live entry in the group's table. */
  ghost predicate Listed(g: EventGroup, t: int) {
    exists j :: 0 <= j < |g.waiters| && g.waiters[j].task == t
  }

  ghost predicate ListedSomewhere(groups: seq<EventGroup>, t: int) {
    exists e :: 0 <= e < |groups| && Listed(groups[e], t)
  }

  ghost predicate GroupsOk(w: World) {
    && (forall e :: 0 <= e < |w.groups| ==>
          Quiet(w.groups[e].flags, w.groups[e].waiters) && |w.groups[e].waiters| <= w.groups[e].capacity)
    && (forall t :: t in WaitersOn(w.k.tasks, OnEvent) ==> ListedSomewhere(w.groups, t))
  }

  predicate IsEventCall(a: Action) {
    a.EventSet? || a.EventClear? || a.EventWait?
  }

  lemma OtherCallsLeaveGroups(w: World, a: Action)
    requires !IsEventCall(a)
    ensures Apply(w, a).groups == w.groups
  {
  }

  predicate IsWakeUp(e: Effect) {
    e.SetState? && e.state == Ready
  }

  /** A list of wake-ups leaves blocked only tasks it does not name. */
  lemma {:induction false} WokenTasksDoNotWait(k: KernelState, es: seq<Effect>, t: int)
    requires forall j :: 0 <= j < |es| ==> IsWakeUp(es[j])
    requires t in WaitersOn(PerformAll(k, es).tasks, OnEvent)
    ensures t in WaitersOn(k.tasks, OnEvent)
    ensures forall j :: 0 <= j < |es| ==> IsWakeUp(es[j]) && es[j].task != t
    decreases |es|
  {
    if es != [] {
      var k1 := Perform(k, es[0]);
      WokenTasksDoNotWait(k1, es[1..], t);
      assert forall j :: 1 <= j < |es| ==> es[j] == es[1..][j - 1];
      if 0 <= es[0].task < |k.tasks| {
        SetStateWaiters(k, es[0].task, Ready, es[0].reason, OnEvent);
      }
      hide SetTaskState;
    }
  }

  /** What a set call does to the groups and the kernel. */
  lemma SetResult(w: World, e: nat, mask: bv32)
    requires e < |w.groups|
    ensures var w', g, r := Apply(w, EventSet(e, mask)), w.groups[e], SetFlags(w.groups[e], mask);
            && w'.groups == w.groups[e := g.(flags := r.flags, waiters := r.waiters)]
            && w'.k == PerformAll(w.k, WakeAll(r.woken))
  {
    hide PerformAll, SetFlags;
  }

  /** The table loses exactly the woken entries. */
  lemma SetConserves(g: EventGroup, mask: bv32)
    ensures var r := SetFlags(g, mask);
            multiset(r.waiters) + multiset(r.woken) == multiset(g.waiters) && |r.waiters| <= |g.waiters|
  {
    hide Join, Scan;
    if mask != 0 {
      ScanConservesWaiters(Join(g.flags, mask), g.waiters, |g.waiters|);
    }
  }

  /** The scan wakes exactly the tasks whose entries it removes, so whoever is still blocked is still listed. */
  lemma SetOrphansNobody(w: World, e: nat, mask: bv32)
    requires GroupsOk(w) && e < |w.groups|
    ensures GroupsOk(Apply(w, EventSet(e, mask)))
  {
    hide Apply, Quiet, SetFlags, PerformAll, WaitersOn;
    var w' := Apply(w, EventSet(e, mask));
    var g, r := w.groups[e], SetFlags(w.groups[e], mask);
    SetResult(w, e, mask);
    GroupStaysQuiet(g, mask, -1);
    SetConserves(g, mask);
    forall t | t in WaitersOn(w'.k.tasks, OnEvent) ensures ListedSomewhere(w'.groups, t) {
      WokenTasksDoNotWait(w.k, WakeAll(r.woken), t);
      assert forall j :: 0 <= j < |r.woken| ==> WakeAll(r.woken)[j].task != t;
      var e1 :| 0 <= e1 < |w.groups| && Listed(w.groups[e1], t);
      StillListed(g, r, t);
      assert Listed(w'.groups[e1], t);
    }
  }

  /** An entry that was not woken is still in the table. */
  lemma StillListed(g: EventGroup, r: ScanResult, t: int)
    requires multiset(r.waiters) + multiset(r.woken) == multiset(g.waiters)
    requires forall j :: 0 <= j < |r.woken| ==> r.woken[j].task != t
    ensures Listed(g, t) ==> Listed(g.(flags := r.flags, waiters := r.waiters), t)
  {
    if Listed(g, t) {
      var j :| 0 <= j < |g.waiters| && g.waiters[j].task == t;
      var x := g.waiters[j];
      assert x in multiset(r.waiters) + multiset(r.woken);
      assert x !in r.woken;
      assert x in r.waiters;
    }
  }

  lemma EntryKept(groups: seq<EventGroup>, groups': seq<EventGroup>, t: int)
    requires |groups| == |groups'| && ListedSomewhere(groups, t)
    requires forall e :: 0 <= e < |groups| ==> groups[e].waiters <= groups'[e].waiters
    ensures ListedSomewhere(groups', t)
  {
    var e :| 0 <= e < |groups| && Listed(groups[e], t);
    var j :| 0 <= j < |groups[e].waiters| && groups[e].waiters[j].task == t;
    assert groups'[e].waiters[j].task == t;
    assert Listed(groups'[e], t);
  }

  lemma WaitOrphansNobody(w: World, e: nat, mask: bv32)
    requires GroupsOk(w) && e < |w.groups|
    ensures GroupsOk(Apply(w, EventWait(e, mask)))
  {
    var w' := Apply(w, EventWait(e, mask));
    var g := w.groups[e];
    assert w'.groups == w.groups[e := AfterWait(g, mask, w.k.current)];
    hide Satisfied, Join, Clear, Disjoint;
    GroupStaysQuiet(g, mask, w.k.current);
    forall t | t in WaitersOn(w'.k.tasks, OnEvent) ensures ListedSomewhere(w'.groups, t) {
      if WaitFor(g, mask) == MustBlock && t == w.k.current {
        assert AfterWait(g, mask, t).waiters[|g.waiters|].task == t;
        assert Listed(w'.groups[e], t);
      } else {
        BlockOnlyCurrent(w, e, mask, t);
        EntryKept(w.groups, w'.groups, t);
      }
    }
  }

  lemma BlockOnlyCurrent(w: World, e: nat, mask: bv32, t: int)
    requires e < |w.groups| && t in WaitersOn(Apply(w, EventWait(e, mask)).k.tasks, OnEvent)
    requires WaitFor(w.groups[e], mask) == MustBlock ==> t != w.k.current
    ensures t in WaitersOn(w.k.tasks, OnEvent)
  {
    hide WaitFor, Objects;
    var effect := SetState(w.k.current, Blocked, OnEvent);
    if WaitFor(w.groups[e], mask) == MustBlock {
      assert Effects(w, EventWait(e, mask)) == [effect];
      PerformOne(w.k, effect);
      if w.k.HasCurrent() {
        SetStateWaiters(w.k, w.k.current, Blocked, OnEvent, OnEvent);
      }
    } else {
      assert Effects(w, EventWait(e, mask)) == [];
    }
  }

  lemma ClearOrphansNobody(w: World, e: nat, mask: bv32)
    requires GroupsOk(w) && e < |w.groups|
    ensures GroupsOk(Apply(w, EventClear(e, mask)))
  {
    var w' := Apply(w, EventClear(e, mask));
    assert w'.groups == w.groups[e := w.groups[e].(flags := Clear(w.groups[e].flags, mask))] && w'.k == w.k;
    hide Satisfied, Join, Clear, Disjoint;
    GroupStaysQuiet(w.groups[e], mask, -1);
    hide WaitersOn, Quiet, Apply;
    forall t | t in WaitersOn(w'.k.tasks, OnEvent) ensures ListedSomewhere(w'.groups, t) {
      EntryKept(w.groups, w'.groups, t);
    }
  }

  lemma ApplyKeepsGroups(w: World, a: Action)
    requires GroupsOk(w)
    ensures GroupsOk(Apply(w, a))
  {
    hide GroupsOk;
    if !Defined(w, a) {
      assert Apply(w, a) == w;
    } else {
      match a
      case EventSet(e, mask) => SetOrphansNobody(w, e, mask);
      case EventClear(e, mask) => ClearOrphansNobody(w, e, mask);
      case EventWait(e, mask) => WaitOrphansNobody(w, e, mask);
      case _ => OtherCallsKeepGroups(w, a);
    }
  }

  lemma OtherCallsKeepGroups(w: World, a: Action)
    requires GroupsOk(w) && !IsEventCall(a)
    ensures GroupsOk(Apply(w, a))
  {
    OtherCallsLeaveGroups(w, a);
    OtherCallsDoNotBlock(w, a, OnEvent);
    hide Apply, WaitersOn, Quiet;
  }

  lemma InternalKeepsGroups(w: World, w': World)
    requires GroupsOk(w) && Internal(w, w')
    ensures GroupsOk(w')
  {
    InternalShrinksWaiters(w, w', OnEvent);
    hide WaitersOn, Quiet;
  }

  /**
   * In every run, after every call: no live waiter is satisfied by its group's flags, and every task blocked on
   * events has a live entry in some group, through suspensions, resumptions and stale entries.
   */
  lemma EventWaitersNeverOrphaned(w: World, steps: seq<Step>)
    requires Initial(w)
    ensures var w' := Run(w, steps);
            && (forall e :: 0 <= e < |w'.groups| ==>
                  && Quiet(w'.groups[e].flags, w'.groups[e].waiters)
                  && |w'.groups[e].waiters| <= w'.groups[e].capacity)
            && (forall t :: 0 <= t < |w'.k.tasks| && WaitsFor(w'.k.tasks[t], OnEvent) ==>
                  ListedSomewhere(w'.groups, t))
  {
    var P := (x: World) => GroupsOk(x);
    forall x: World, a: Action | P(x) ensures P(Apply(x, a)) {
      ApplyKeepsGroups(x, a);
    }
    forall x: World, x': World | P(x) && Internal(x, x') ensures P(x') {
      InternalKeepsGroups(x, x');
    }
    assert P(w);
    hide Apply, Run, Internal, Quiet;
    RunKeeps(P, w, steps);
  }

  /**
   * The header promises that a wait that returns false has blocked its caller. That holds exactly when the mask is
   * not zero and the table has room; a wait dropped by a full table leaves the caller as it was.
   */
  lemma FalseWaitBlocksIff(w: World, e: nat, mask: bv32)
    requires e < |w.groups| && w.k.HasCurrent()
    requires WaitFor(w.groups[e], mask) != TookFlags
    ensures w.k.current in WaitersOn(Apply(w, EventWait(e, mask)).k.tasks, OnEvent) <==>
            w.k.current in WaitersOn(w.k.tasks, OnEvent)
            || (mask != 0 && |w.groups[e].waiters| < w.groups[e].capacity)
  {
    hide Satisfied, Clear, WaitersOn, Objects;
    if WaitFor(w.groups[e], mask) == MustBlock {
      BlockedCallerWaits(w.k, OnEvent);
    } else {
      assert Effects(w, EventWait(e, mask)) == [];
    }
  }
}
