/** The bits of event groups over whole runs, and the tasks that a set call makes READY. */
module EventBits {
  import opened KernelTypes
  import opened Sequences
  import opened KernelStates
  import opened EventScan
  import opened EventWakes
  import opened Worlds
  import opened RunInduction
  import opened Traces
  import opened Calls

  // ---------------------------------------------------------------- one bit

  predicate SingleBit(b: bv32) {
    b != 0 && b & (b - 1) == 0
  }

  function Has(flags: bv32, b: bv32): int {
    if flags & b == b then 1 else 0
  }

  /** How many entries of the list ask for the bit. */
  function Asking(ws: seq<EventWaiter>, b: bv32): int {
    if ws == [] then 0 else Asking(ws[..|ws| - 1], b) + Has(ws[|ws| - 1].mask, b)
  }

  lemma TakenOnce(flags: bv32, mask: bv32, left: bv32, b: bv32)
    requires SingleBit(b) && Takes(flags, mask, left)
    ensures Has(flags, b) == Has(mask, b) + Has(left, b)
  {
  }

  lemma JoinedBit(flags: bv32, mask: bv32, b: bv32)
    requires SingleBit(b)
    ensures Has(flags, b) <= Has(Join(flags, mask), b) <= Has(flags, b) + Has(mask, b)
  {
  }

  lemma ClearedBit(flags: bv32, mask: bv32, b: bv32)
    ensures Has(Clear(flags, mask), b) <= Has(flags, b)
  {
  }

  // ---------------------------------------------------------------- the scan

  lemma {:induction false} AskingReplaced(ws: seq<EventWaiter>, i: nat, x: EventWaiter, b: bv32)
    requires i < |ws|
    ensures Asking(ws[i := x], b) == Asking(ws, b) - Has(ws[i].mask, b) + Has(x.mask, b)
    decreases |ws|
  {
    hide Has;
    var n := |ws| - 1;
    if i == n {
      assert ws[i := x][..n] == ws[..n];
    } else {
      AskingReplaced(ws[..n], i, x, b);
      assert ws[i := x][..n] == ws[..n][i := x];
    }
  }

  lemma AskingCompacted(ws: seq<EventWaiter>, i: nat, b: bv32)
    requires i < |ws|
    ensures Asking(ws[i := ws[|ws| - 1]][..|ws| - 1], b) == Asking(ws, b) - Has(ws[i].mask, b)
  {
    hide Has;
    var last := |ws| - 1;
    AskingReplaced(ws, i, ws[last], b);
    assert ws[i := ws[last]][last] == ws[last];
  }

  /** Every entry that leaves the table takes the bit it asks for, and there is one bit to take. */
  lemma {:induction false} ScanTakesOnce(flags: bv32, ws: seq<EventWaiter>, n: nat, b: bv32)
    requires n <= |ws| && SingleBit(b)
    ensures var r := Scan(flags, ws, n);
            Asking(ws, b) - Asking(r.waiters, b) + Has(r.flags, b) == Has(flags, b)
    decreases n
  {
    hide Satisfied, Clear, Has, SingleBit, Asking, Takes;
    if n == 0 {
    } else if !Satisfied(flags, ws[n - 1].mask) {
      ScanTakesOnce(flags, ws, n - 1, b);
    } else {
      var m := ws[n - 1].mask;
      TakesItsBits(flags, m);
      TakenOnce(flags, m, Clear(flags, m), b);
      AskingCompacted(ws, n - 1, b);
      ScanTakesOnce(Clear(flags, m), ws[n - 1 := ws[|ws| - 1]][..|ws| - 1], n - 1, b);
    }
  }

  lemma SetTakesOnce(g: EventGroup, mask: bv32, b: bv32)
    requires SingleBit(b)
    ensures var r := SetFlags(g, mask);
            && Asking(g.waiters, b) - Asking(r.waiters, b) + Has(r.flags, b) <= Has(g.flags, b) + Has(mask, b)
            && Has(g.flags, b) <= Asking(g.waiters, b) - Asking(r.waiters, b) + Has(r.flags, b)
  {
    hide SingleBit, Scan, Join, Has, Asking;
    if mask == 0 {
      NoBits(b);
    } else {
      ScanTakesOnce(Join(g.flags, mask), g.waiters, |g.waiters|, b);
      JoinedBit(g.flags, mask, b);
    }
  }

  lemma NoBits(b: bv32)
    requires SingleBit(b)
    ensures Has(0, b) == 0
  {
  }

  // ---------------------------------------------------------------- every call

  /** Whether the call sets the bit in group e. */
  function Sets(m: Moment, e: nat, b: bv32): int {
    if m.call.EventSet? && m.call.group == e then Has(m.call.mask, b) else 0
  }

  /**
   * How many waits for the bit the call satisfies: the entries that a set call takes out of the table, or the wait
   * itself if it returns true.
   */
  function Satisfies(m: Moment, e: nat, b: bv32): int {
    if e >= |m.before.groups| then 0
    else if m.call.EventSet? && m.call.group == e then
      var after := Apply(m.before, m.call).groups;
      Asking(m.before.groups[e].waiters, b) - if e < |after| then Asking(after[e].waiters, b) else 0
    else if m.call.EventWait? && m.call.group == e && m.call.mask != 0
            && AllSet(m.before.groups[e].flags, m.call.mask) then Has(m.call.mask, b)
    else 0
  }

  /** The bit in the flags of group e. */
  function HeldBit(w: World, e: nat, b: bv32): int {
    if e < |w.groups| then Has(w.groups[e].flags, b) else 0
  }

  lemma CallTakesOnce(w: World, a: Action, e: nat, b: bv32)
    requires SingleBit(b)
    ensures Satisfies(Moment(w, a), e, b) + HeldBit(Apply(w, a), e, b) <= HeldBit(w, e, b) + Sets(Moment(w, a), e, b)
    ensures Satisfies(Moment(w, a), e, b) >= 0
  {
    hide Apply, SingleBit, SetFlags, Asking, Has, AllSet, Takes, Clear;
    if a.EventSet? && a.group < |w.groups| {
      SetCall(w, a.group, a.mask);
      SetTakesOnce(w.groups[a.group], a.mask, b);
      SetTakesSome(w.groups[a.group], a.mask, b);
    } else if a.EventClear? && a.group < |w.groups| {
      ClearsBits(w, a.group, a.mask);
      ClearedBit(w.groups[a.group].flags, a.mask, b);
    } else if a.EventWait? && a.group < |w.groups| {
      WaitTakesOnce(w, a.group, a.mask, e, b);
    } else {
      OtherCallsLeaveGroups(w, a);
      BitsCount(if a.EventSet? then a.mask else 0, b);
    }
  }

  lemma BitsCount(flags: bv32, b: bv32)
    ensures 0 <= Has(flags, b) <= 1
  {
  }

  lemma WaitTakesOnce(w: World, g: nat, mask: bv32, e: nat, b: bv32)
    requires SingleBit(b) && g < |w.groups|
    ensures var m := Moment(w, EventWait(g, mask));
            0 <= Satisfies(m, e, b) && Satisfies(m, e, b) + HeldBit(Apply(w, m.call), e, b) <= HeldBit(w, e, b)
  {
    hide Apply, SingleBit, Has, AllSet, Takes;
    WaitFlagsCall(w, g, mask);
    BitsCount(mask, b);
    if mask != 0 && AllSet(w.groups[g].flags, mask) {
      TakenOnce(w.groups[g].flags, mask, Apply(w, EventWait(g, mask)).groups[g].flags, b);
    }
  }

  lemma OtherCallsLeaveGroups(w: World, a: Action)
    requires (a.EventSet? || a.EventClear? || a.EventWait?) ==> a.group >= |w.groups|
    ensures Apply(w, a).groups == w.groups
  {
    hide Effects;
  }

  lemma {:induction false} ScanOnlyRemoves(flags: bv32, ws: seq<EventWaiter>, n: nat, b: bv32)
    requires n <= |ws|
    ensures Asking(Scan(flags, ws, n).waiters, b) <= Asking(ws, b)
    decreases n
  {
    hide Satisfied, Clear, Has, Asking;
    if n == 0 {
    } else if !Satisfied(flags, ws[n - 1].mask) {
      ScanOnlyRemoves(flags, ws, n - 1, b);
    } else {
      AskingCompacted(ws, n - 1, b);
      BitsCount(ws[n - 1].mask, b);
      ScanOnlyRemoves(Clear(flags, ws[n - 1].mask), ws[n - 1 := ws[|ws| - 1]][..|ws| - 1], n - 1, b);
    }
  }

  lemma SetTakesSome(g: EventGroup, mask: bv32, b: bv32)
    ensures Asking(SetFlags(g, mask).waiters, b) <= Asking(g.waiters, b)
  {
    hide Scan, Join, Asking;
    if mask != 0 {
      ScanOnlyRemoves(Join(g.flags, mask), g.waiters, |g.waiters|, b);
    }
  }

  // ---------------------------------------------------------------- every run

  function SetBy(h: Trace, e: nat, b: bv32): int {
    if h == [] then 0 else SetBy(Earlier(h), e, b) + Sets(Latest(h), e, b)
  }

  function SatisfiedBy(h: Trace, e: nat, b: bv32): int {
    if h == [] then 0 else SatisfiedBy(Earlier(h), e, b) + Satisfies(Latest(h), e, b)
  }

  ghost function Bounded(w: World, e: nat, b: bv32): Tracked {
    (w': World, h: Trace) => SatisfiedBy(h, e, b) + HeldBit(w', e, b) <= HeldBit(w, e, b) + SetBy(h, e, b)
  }

  /**
   * A bit set once satisfies at most one wait: over any stretch of any run, the waits for the bit that were satisfied
   * by its calls, be it from the table or at once, are no more than the calls that set it, plus one if the bit was
   * set at the beginning, less one if it is set at the end.
   */
  lemma BitSatisfiesAtMostOneWait(w: World, steps: seq<Step>, e: nat, b: bv32)
    requires SingleBit(b)
    ensures var h := CallsOf(w, steps);
            SatisfiedBy(h, e, b) + HeldBit(Run(w, steps), e, b) <= HeldBit(w, e, b) + SetBy(h, e, b)
  {
    hide Apply, Run, CallsOf, Internal, Sets, Satisfies, SingleBit;
    var R := Bounded(w, e, b);
    forall x: World, a: Action, h: Trace | R(x, h) ensures R(Apply(x, a), h + [Moment(x, a)]) {
      AddedLast(h, Moment(x, a));
      CallTakesOnce(x, a, e, b);
    }
    MovesKeepBits(w, e, b);
    assert R(w, []);
    MovesAreInternal(R);
    TracksFromStart(R, w, steps);
  }

  lemma MovesKeepBits(w: World, e: nat, b: bv32)
    ensures RespectsMoves(Bounded(w, e, b))
  {
    hide HeldBit;
    forall x: World, x': World, h: Trace | Bounded(w, e, b)(x, h) && Internal(x, x')
      ensures Bounded(w, e, b)(x', h)
    {
      SameGroups(x, x', e, b);
    }
  }

  lemma SameGroups(x: World, x': World, e: nat, b: bv32)
    requires x'.groups == x.groups
    ensures HeldBit(x', e, b) == HeldBit(x, e, b)
  {
  }

  // ---------------------------------------------------------------- the tasks a set call makes READY

  lemma {:induction false} WakesTheNamed(k: KernelState, woken: seq<EventWaiter>, t: nat)
    requires t < |k.tasks|
    ensures var k' := PerformAll(k, WakeAll(woken));
            && |k'.tasks| == |k.tasks|
            && k'.tasks[t] ==
               if Names(woken, t) then k.tasks[t].(state := Ready, reason := NoReason, sleep := 0) else k.tasks[t]
    decreases |woken|
  {
    hide Remove;
    if woken == [] {
      PerformNone(k);
    } else {
      var k1 := SetTaskState(k, woken[0].task, Ready, NoReason);
      assert WakeAll(woken)[1..] == WakeAll(woken[1..]);
      assert PerformAll(k, WakeAll(woken)) == PerformAll(k1, WakeAll(woken[1..]));
      WakesTheNamed(k1, woken[1..], t);
      NamedFirstOrLater(woken, t);
      hide PerformAll, Names;
    }
  }

  lemma NamedFirstOrLater(woken: seq<EventWaiter>, t: int)
    requires woken != []
    ensures Names(woken, t) <==> woken[0].task == t || Names(woken[1..], t)
  {
    if Names(woken, t) && woken[0].task != t {
      var j :| 0 <= j < |woken| && woken[j].task == t;
      assert woken[1..][j - 1].task == t;
    }
    if Names(woken[1..], t) {
      var j :| 0 <= j < |woken[1..]| && woken[1..][j].task == t;
      assert woken[j + 1].task == t;
    }
  }

  /** A set call makes READY exactly the tasks with an entry that it serves, and touches no other task. */
  lemma SetReadiesTheServed(w: World, e: nat, mask: bv32, t: nat)
    requires e < |w.groups| && t < |w.k.tasks|
    ensures var w' := Apply(w, EventSet(e, mask));
            && |w'.k.tasks| == |w.k.tasks|
            && w'.k.tasks[t] ==
               if WillWake(w.groups[e], mask, t) then w.k.tasks[t].(state := Ready, reason := NoReason, sleep := 0)
               else w.k.tasks[t]
  {
    hide Apply, SetFlags, PerformAll, Names, WillWake;
    SetCall(w, e, mask);
    WakesExactlyTheServed(w.groups[e], mask, t);
    WakesTheNamed(w.k, SetFlags(w.groups[e], mask).woken, t);
  }
}
