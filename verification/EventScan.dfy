/** The waiter table of an event-flag group and the scan that `event_flags_set` makes over it. */
module EventScan {

  datatype EventWaiter = EventWaiter(task: int, mask: bv32)

  /** `waiters` holds the live entries of the table; `capacity` is RTOS_EVENT_MAX_WAITERS. */
  datatype EventGroup = EventGroup(capacity: nat, flags: bv32, waiters: seq<EventWaiter>)

  datatype ScanResult = ScanResult(flags: bv32, waiters: seq<EventWaiter>, woken: seq<EventWaiter>)

  predicate Satisfied(flags: bv32, mask: bv32) {
    flags & mask == mask
  }

  function Clear(flags: bv32, mask: bv32): bv32 {
    flags & !mask
  }

  function Join(a: bv32, b: bv32): bv32 {
    a | b
  }

  predicate Disjoint(a: bv32, b: bv32) {
    a & b == 0
  }

  /**
   * The reverse scan over the first n entries. A satisfied entry leaves the table, the last entry takes its slot,
   * and its bits are cleared. `woken` lists the satisfied entries in the order they are found.
   */
  function Scan(flags: bv32, ws: seq<EventWaiter>, n: nat): ScanResult
    requires n <= |ws|
    decreases n
  {
    if n == 0 then ScanResult(flags, ws, [])
    else if !Satisfied(flags, ws[n - 1].mask) then Scan(flags, ws, n - 1)
    else
      var last := |ws| - 1;
      var rest := Scan(Clear(flags, ws[n - 1].mask), ws[n - 1 := ws[last]][..last], n - 1);
      rest.(woken := [ws[n - 1]] + rest.woken)
  }

  /** No live waiter is satisfied by the group's flags. */
  ghost predicate Quiet(flags: bv32, ws: seq<EventWaiter>) {
    forall j :: 0 <= j < |ws| ==> !Satisfied(flags, ws[j].mask)
  }

  lemma ClearingSatisfiesNobody(flags: bv32, cleared: bv32, mask: bv32)
    requires Satisfied(Clear(flags, cleared), mask)
    ensures Satisfied(flags, mask)
  {
  }

  /** Despite the compaction and the shrinking flags, the scan leaves no satisfied waiter behind. */
  lemma {:induction false} ScanIsComplete(flags: bv32, ws: seq<EventWaiter>, n: nat)
    requires n <= |ws|
    requires forall j :: n <= j < |ws| ==> !Satisfied(flags, ws[j].mask)
    ensures var r := Scan(flags, ws, n); Quiet(r.flags, r.waiters)
    decreases n
  {
    hide Satisfied, Clear, Join, Disjoint;
    if n == 0 {
    } else if !Satisfied(flags, ws[n - 1].mask) {
      ScanIsComplete(flags, ws, n - 1);
    } else {
      var last := |ws| - 1;
      var flags' := Clear(flags, ws[n - 1].mask);
      var ws' := ws[n - 1 := ws[last]][..last];
      forall j | n - 1 <= j < |ws'| ensures !Satisfied(flags', ws'[j].mask) {
        var from := if j == n - 1 then last else j;
        assert ws'[j] == ws[from];
        if Satisfied(flags', ws[from].mask) {
          ClearingSatisfiesNobody(flags, ws[n - 1].mask, ws[from].mask);
          assert false;
        }
      }
      ScanIsComplete(flags', ws', n - 1);
    }
  }

  /** The bits consumed by a list of waiters. */
  function Bits(ws: seq<EventWaiter>): bv32 {
    if ws == [] then 0 else Join(ws[0].mask, Bits(ws[1..]))
  }

  ghost predicate PairwiseDisjoint(ws: seq<EventWaiter>) {
    forall i, j :: 0 <= i < j < |ws| ==> Disjoint(ws[i].mask, ws[j].mask)
  }

  lemma {:induction false} MemberBits(ws: seq<EventWaiter>, j: nat)
    requires j < |ws|
    ensures Satisfied(Bits(ws), ws[j].mask)
  {
    hide Satisfied, Clear, Join, Disjoint;
    var first, rest := ws[0].mask, Bits(ws[1..]);
    if j == 0 {
      OrFirst(first, rest);
    } else {
      var m := ws[1..][j - 1].mask;
      MemberBits(ws[1..], j - 1);
      OrKeeps(first, rest, m);
    }
  }

  lemma OrKeeps(a: bv32, b: bv32, m: bv32)
    requires Satisfied(b, m)
    ensures Satisfied(Join(a, b), m)
  {
  }

  lemma OrFirst(a: bv32, b: bv32)
    ensures Satisfied(Join(a, b), a)
  {
  }

  lemma NothingJoined(a: bv32)
    ensures Join(a, 0) == a && Disjoint(a, 0)
  {
  }

  lemma SplitOff(flags: bv32, m: bv32, left: bv32, bits: bv32)
    requires Satisfied(flags, m)
    requires Join(left, bits) == Clear(flags, m)
    requires Disjoint(left, bits)
    ensures Join(left, Join(m, bits)) == flags
    ensures Disjoint(left, Join(m, bits))
    ensures Disjoint(m, bits)
  {
  }

  lemma SubsetDisjoint(m: bv32, bits: bv32, part: bv32)
    requires Disjoint(m, bits)
    requires Satisfied(bits, part)
    ensures Disjoint(m, part)
  {
  }

  /** Auto-reset conserves bits: the woken masks and the remaining flags partition the flags scanned. */
  lemma {:induction false} ScanPartitionsFlags(flags: bv32, ws: seq<EventWaiter>, n: nat)
    requires n <= |ws|
    ensures var r := Scan(flags, ws, n);
            && Join(r.flags, Bits(r.woken)) == flags
            && Disjoint(r.flags, Bits(r.woken))
            && PairwiseDisjoint(r.woken)
    decreases n
  {
    hide Satisfied, Clear, Join, Disjoint;
    if n == 0 {
      NothingJoined(flags);
    } else if !Satisfied(flags, ws[n - 1].mask) {
      ScanPartitionsFlags(flags, ws, n - 1);
    } else {
      var last := |ws| - 1;
      var m := ws[n - 1].mask;
      var rest := Scan(Clear(flags, m), ws[n - 1 := ws[last]][..last], n - 1);
      ScanPartitionsFlags(Clear(flags, m), ws[n - 1 := ws[last]][..last], n - 1);
      SplitOff(flags, m, rest.flags, Bits(rest.woken));
      var woken := [ws[n - 1]] + rest.woken;
      assert woken[1..] == rest.woken;
      forall i, j | 0 <= i < j < |woken| ensures Disjoint(woken[i].mask, woken[j].mask) {
        if i == 0 {
          MemberBits(rest.woken, j - 1);
          SubsetDisjoint(m, Bits(rest.woken), rest.woken[j - 1].mask);
        }
      }
    }
  }

  /** Compaction takes out exactly the entry at i. */
  lemma CompactionConserves(ws: seq<EventWaiter>, i: nat)
    requires i < |ws|
    ensures multiset(ws[i := ws[|ws| - 1]][..|ws| - 1]) + multiset{ws[i]} == multiset(ws)
  {
    var last := |ws| - 1;
    if i == last {
      assert ws[i := ws[last]][..last] == ws[..last];
      assert ws == ws[..last] + [ws[last]];
    } else {
      var a, b := ws[..i], ws[i + 1..last];
      assert ws[i := ws[last]][..last] == a + [ws[last]] + b;
      assert ws == a + [ws[i]] + b + [ws[last]];
      SwapLast(a, ws[i], b, ws[last]);
    }
  }

  lemma SwapLast(a: seq<EventWaiter>, x: EventWaiter, b: seq<EventWaiter>, y: EventWaiter)
    ensures multiset(a + [y] + b) + multiset{x} == multiset(a + [x] + b + [y])
  {
  }

  /** The scan neither loses nor duplicates an entry. */
  lemma {:induction false} ScanConservesWaiters(flags: bv32, ws: seq<EventWaiter>, n: nat)
    requires n <= |ws|
    ensures var r := Scan(flags, ws, n);
            && multiset(r.waiters) + multiset(r.woken) == multiset(ws)
            && |r.waiters| + |r.woken| == |ws|
    decreases n
  {
    hide Satisfied, Clear, Join, Disjoint;
    if n == 0 {
    } else if !Satisfied(flags, ws[n - 1].mask) {
      ScanConservesWaiters(flags, ws, n - 1);
    } else {
      var kept := ws[n - 1 := ws[|ws| - 1]][..|ws| - 1];
      ScanConservesWaiters(Clear(flags, ws[n - 1].mask), kept, n - 1);
      CompactionConserves(ws, n - 1);
    }
  }

  /** No two satisfied waiters claim the same bit. */
  ghost predicate SatisfiedDisjoint(flags: bv32, ws: seq<EventWaiter>) {
    forall i, j :: 0 <= i < j < |ws| && Satisfied(flags, ws[i].mask) && Satisfied(flags, ws[j].mask) ==>
                     Disjoint(ws[i].mask, ws[j].mask)
  }

  /** Every waiter that the old flags satisfied is satisfied by the remaining ones too. */
  ghost predicate SatisfiedStay(flags: bv32, flags': bv32, ws: seq<EventWaiter>) {
    forall j :: 0 <= j < |ws| && Satisfied(flags, ws[j].mask) ==> Satisfied(flags', ws[j].mask)
  }

  lemma StillSatisfied(flags: bv32, cleared: bv32, mask: bv32)
    requires Satisfied(flags, mask)
    requires Disjoint(cleared, mask)
    ensures Satisfied(Clear(flags, cleared), mask)
  {
  }

  lemma ClearedIsDisjoint(flags: bv32, cleared: bv32, mask: bv32)
    requires Satisfied(Clear(flags, cleared), mask)
    ensures Disjoint(cleared, mask) && Disjoint(mask, cleared)
  {
  }

  lemma DisjointSymmetric(a: bv32, b: bv32)
    ensures Disjoint(a, b) == Disjoint(b, a)
  {
  }

  /** The table after the entry at i was taken out. */
  function Compacted(ws: seq<EventWaiter>, i: nat): (r: seq<EventWaiter>)
    requires i < |ws|
    ensures |r| == |ws| - 1
    ensures forall j :: 0 <= j < |r| ==> r[j] == ws[if j == i then |ws| - 1 else j]
  {
    ws[i := ws[|ws| - 1]][..|ws| - 1]
  }

  lemma HitKeepsDisjoint(flags: bv32, ws: seq<EventWaiter>, i: nat)
    requires i < |ws| && Satisfied(flags, ws[i].mask) && SatisfiedDisjoint(flags, ws)
    ensures var flags', ws' := Clear(flags, ws[i].mask), Compacted(ws, i);
            SatisfiedStay(flags, flags', ws') && SatisfiedDisjoint(flags', ws')
  {
    hide Satisfied, Clear, Join, Disjoint;
    var m := ws[i].mask;
    var flags', ws' := Clear(flags, m), Compacted(ws, i);
    forall j | 0 <= j < |ws'| && Satisfied(flags, ws'[j].mask) ensures Satisfied(flags', ws'[j].mask) {
      DisjointSymmetric(m, ws'[j].mask);
      StillSatisfied(flags, m, ws'[j].mask);
    }
    forall a, b | 0 <= a < b < |ws'| && Satisfied(flags', ws'[a].mask) && Satisfied(flags', ws'[b].mask)
      ensures Disjoint(ws'[a].mask, ws'[b].mask)
    {
      ClearingSatisfiesNobody(flags, m, ws'[a].mask);
      ClearingSatisfiesNobody(flags, m, ws'[b].mask);
      DisjointSymmetric(ws'[a].mask, ws'[b].mask);
    }
  }

  lemma DisjointBeforeHit(flags: bv32, ws: seq<EventWaiter>, i: nat)
    requires i < |ws|
    requires var flags', ws' := Clear(flags, ws[i].mask), Compacted(ws, i);
             SatisfiedStay(flags, flags', ws') && SatisfiedDisjoint(flags', ws')
    ensures SatisfiedDisjoint(flags, ws)
  {
    hide Satisfied, Clear, Join, Disjoint, Compacted;
    var m, last := ws[i].mask, |ws| - 1;
    var flags', ws' := Clear(flags, m), Compacted(ws, i);
    forall a, b | 0 <= a < b < |ws| && Satisfied(flags, ws[a].mask) && Satisfied(flags, ws[b].mask)
      ensures Disjoint(ws[a].mask, ws[b].mask)
    {
      var a' := if a == last then i else a;
      var b' := if b == last then i else b;
      assert a != i ==> ws'[a'] == ws[a];
      assert b != i ==> ws'[b'] == ws[b];
      if a == i {
        ClearedIsDisjoint(flags, m, ws'[b'].mask);
      } else if b == i {
        ClearedIsDisjoint(flags, m, ws'[a'].mask);
      } else {
        DisjointSymmetric(ws[a].mask, ws[b].mask);
      }
    }
  }

  /** Every waiter left in the table by a scan was in it before. */
  lemma LeftOverIsOld(flags: bv32, ws: seq<EventWaiter>, n: nat, j: nat) returns (i: nat)
    requires n <= |ws| && j < |Scan(flags, ws, n).waiters|
    ensures i < |ws| && ws[i] == Scan(flags, ws, n).waiters[j]
  {
    ScanConservesWaiters(flags, ws, n);
    var x := Scan(flags, ws, n).waiters[j];
    assert x in multiset(Scan(flags, ws, n).waiters);
    assert x in multiset(ws);
    i :| 0 <= i < |ws| && ws[i] == x;
  }

  /** A waiter that is not satisfied when the scan starts stays in the table. */
  lemma {:induction false} UnsatisfiedStays(flags: bv32, ws: seq<EventWaiter>, n: nat, i: nat)
    requires n <= |ws| && i < |ws| && !Satisfied(flags, ws[i].mask)
    ensures ws[i] in Scan(flags, ws, n).waiters
    decreases n
  {
    hide Satisfied, Clear, Join, Disjoint;
    if n == 0 {
    } else if !Satisfied(flags, ws[n - 1].mask) {
      UnsatisfiedStays(flags, ws, n - 1, i);
    } else {
      var m, ws' := ws[n - 1].mask, Compacted(ws, n - 1);
      var i' := if i == |ws| - 1 then n - 1 else i;
      assert ws'[i'] == ws[i];
      if Satisfied(Clear(flags, m), ws[i].mask) {
        ClearingSatisfiesNobody(flags, m, ws[i].mask);
        assert false;
      }
      UnsatisfiedStays(Clear(flags, m), ws', n - 1, i');
    }
  }

  /** Each wake-up clears bits, so every satisfied entry is taken exactly when no two of them share a bit. */
  lemma {:induction false} ScanWakesAllIff(flags: bv32, ws: seq<EventWaiter>, n: nat)
    requires n <= |ws|
    requires forall j :: n <= j < |ws| ==> !Satisfied(flags, ws[j].mask)
    ensures Quiet(flags, Scan(flags, ws, n).waiters) <==> SatisfiedDisjoint(flags, ws)
    decreases n
  {
    hide Satisfied, Clear, Join, Disjoint;
    if n == 0 {
    } else if !Satisfied(flags, ws[n - 1].mask) {
      ScanWakesAllIff(flags, ws, n - 1);
    } else {
      ScanHitWakesAllIff(flags, ws, n);
    }
  }

  lemma {:induction false} ScanHitWakesAllIff(flags: bv32, ws: seq<EventWaiter>, n: nat)
    requires 0 < n <= |ws| && Satisfied(flags, ws[n - 1].mask)
    requires forall j :: n <= j < |ws| ==> !Satisfied(flags, ws[j].mask)
    ensures Quiet(flags, Scan(flags, ws, n).waiters) <==> SatisfiedDisjoint(flags, ws)
    decreases n, 0
  {
    hide Satisfied, Clear, Join, Disjoint, SatisfiedDisjoint;
    var m := ws[n - 1].mask;
    var flags', ws' := Clear(flags, m), Compacted(ws, n - 1);
    var left := Scan(flags', ws', n - 1).waiters;
    assert Scan(flags, ws, n).waiters == left;
    forall j | n - 1 <= j < |ws'| ensures !Satisfied(flags', ws'[j].mask) {
      if Satisfied(flags', ws'[j].mask) {
        ClearingSatisfiesNobody(flags, m, ws'[j].mask);
        assert false;
      }
    }
    ScanWakesAllIff(flags', ws', n - 1);
    ScanIsComplete(flags', ws', n - 1);
    if SatisfiedDisjoint(flags, ws) {
      HitKeepsDisjoint(flags, ws, n - 1);
      forall j | 0 <= j < |left| ensures !Satisfied(flags, left[j].mask) {
        var i := LeftOverIsOld(flags', ws', n - 1, j);
        assert !Satisfied(flags', left[j].mask);
      }
    }
    if Quiet(flags, left) {
      QuietAfterClear(flags, m, left);
      forall j | 0 <= j < |ws'| && Satisfied(flags, ws'[j].mask) ensures Satisfied(flags', ws'[j].mask) {
        if !Satisfied(flags', ws'[j].mask) {
          UnsatisfiedStays(flags', ws', n - 1, j);
          assert false;
        }
      }
      DisjointBeforeHit(flags, ws, n - 1);
    }
  }

  lemma QuietAfterClear(flags: bv32, cleared: bv32, ws: seq<EventWaiter>)
    requires Quiet(flags, ws)
    ensures Quiet(Clear(flags, cleared), ws)
  {
    hide Satisfied, Clear;
    forall j | 0 <= j < |ws| ensures !Satisfied(Clear(flags, cleared), ws[j].mask) {
      if Satisfied(Clear(flags, cleared), ws[j].mask) {
        ClearingSatisfiesNobody(flags, cleared, ws[j].mask);
        assert false;
      }
    }
  }

  // ---------------------------------------------------------------- the operations on a group

  /** `event_flags_set`: a zero mask changes nothing. */
  function SetFlags(g: EventGroup, mask: bv32): (r: ScanResult)
    ensures mask == 0 ==> r == ScanResult(g.flags, g.waiters, [])
  {
    if mask == 0 then ScanResult(g.flags, g.waiters, []) else Scan(Join(g.flags, mask), g.waiters, |g.waiters|)
  }

  /** How `event_flags_wait` ends: it took the bits, blocked the caller, or did neither. */
  datatype WaitOutcome = TookFlags | MustBlock | Dropped

  function WaitFor(g: EventGroup, mask: bv32): WaitOutcome {
    if mask == 0 then Dropped
    else if Satisfied(g.flags, mask) then TookFlags
    else if |g.waiters| >= g.capacity then Dropped
    else MustBlock
  }

  /** The group after task `caller` waited for `mask`. */
  function AfterWait(g: EventGroup, mask: bv32, caller: int): EventGroup {
    match WaitFor(g, mask)
    case TookFlags => g.(flags := Clear(g.flags, mask))
    case MustBlock => g.(waiters := g.waiters + [EventWaiter(caller, mask)])
    case Dropped => g
  }

  /** Every operation on a group leaves it quiet. */
  lemma GroupStaysQuiet(g: EventGroup, mask: bv32, caller: int)
    requires Quiet(g.flags, g.waiters)
    ensures var r := SetFlags(g, mask); Quiet(r.flags, r.waiters)
    ensures var g' := AfterWait(g, mask, caller); Quiet(g'.flags, g'.waiters)
    ensures Quiet(Clear(g.flags, mask), g.waiters)
  {
    hide Satisfied, Clear, Join, Disjoint;
    if mask != 0 {
      ScanIsComplete(Join(g.flags, mask), g.waiters, |g.waiters|);
    }
    forall j | 0 <= j < |g.waiters| ensures !Satisfied(Clear(g.flags, mask), g.waiters[j].mask) {
      if Satisfied(Clear(g.flags, mask), g.waiters[j].mask) {
        ClearingSatisfiesNobody(g.flags, mask, g.waiters[j].mask);
        assert false;
      }
    }
  }

  /**
   * One `event_flags_set` with a non-zero mask: no satisfied waiter stays, the woken masks are pairwise disjoint and
   * with the remaining flags they partition the old flags with the mask added, the table loses exactly the woken
   * entries, and every entry the new flags satisfied is taken exactly when no two of them shared a bit.
   */
  lemma SetFlagsContract(g: EventGroup, mask: bv32)
    requires mask != 0
    ensures var r, all := SetFlags(g, mask), Join(g.flags, mask);
            && Quiet(r.flags, r.waiters)
            && Join(r.flags, Bits(r.woken)) == all && Disjoint(r.flags, Bits(r.woken)) && PairwiseDisjoint(r.woken)
            && multiset(r.waiters) + multiset(r.woken) == multiset(g.waiters)
            && (Quiet(all, r.waiters) <==> SatisfiedDisjoint(all, g.waiters))
  {
    hide Satisfied, Clear, Join, Disjoint, Scan, Bits;
    var all, n := Join(g.flags, mask), |g.waiters|;
    ScanIsComplete(all, g.waiters, n);
    ScanPartitionsFlags(all, g.waiters, n);
    ScanConservesWaiters(all, g.waiters, n);
    ScanWakesAllIff(all, g.waiters, n);
  }
}
