/** Whom `event_flags_set` wakes, read off the flags and the waiter table before the call. */
module EventWakes {
  import opened EventScan

  /** What entry x leaves of the flags it is offered. */
  function LeftBy(flags: bv32, x: EventWaiter): bv32 {
    if Satisfied(flags, x.mask) then Clear(flags, x.mask) else flags
  }

  /** The flags offered to entry i when the first n entries are served from the newest to the oldest. */
  function Offered(flags: bv32, ws: seq<EventWaiter>, n: nat, i: nat): bv32
    requires i < n <= |ws|
    decreases n
  {
    if i == n - 1 then flags else Offered(LeftBy(flags, ws[n - 1]), ws, n - 1, i)
  }

  /** Entry i is served: the newer entries have left it all the bits it needs. */
  predicate Served(flags: bv32, ws: seq<EventWaiter>, n: nat, i: nat)
    requires i < n <= |ws|
  {
    Satisfied(Offered(flags, ws, n, i), ws[i].mask)
  }

  /** The served entries, newest first. */
  function NewestFirst(flags: bv32, ws: seq<EventWaiter>, n: nat): seq<EventWaiter>
    requires n <= |ws|
    decreases n
  {
    if n == 0 then []
    else
      (if Satisfied(flags, ws[n - 1].mask) then [ws[n - 1]] else [])
      + NewestFirst(LeftBy(flags, ws[n - 1]), ws, n - 1)
  }

  lemma {:induction false} SamePrefix(flags: bv32, ws: seq<EventWaiter>, ws': seq<EventWaiter>, n: nat)
    requires n <= |ws| && n <= |ws'| && forall i :: 0 <= i < n ==> ws[i] == ws'[i]
    ensures NewestFirst(flags, ws, n) == NewestFirst(flags, ws', n)
    decreases n
  {
    if n > 0 {
      SamePrefix(LeftBy(flags, ws[n - 1]), ws, ws', n - 1);
    }
  }

  /** Although the scan moves entries around while it walks the table, it serves them from the newest to the oldest. */
  lemma {:induction false} ScanServesNewestFirst(flags: bv32, ws: seq<EventWaiter>, n: nat)
    requires n <= |ws|
    ensures Scan(flags, ws, n).woken == NewestFirst(flags, ws, n)
    decreases n
  {
    hide Satisfied, Clear;
    if n > 0 {
      if Satisfied(flags, ws[n - 1].mask) {
        var flags', ws' := Clear(flags, ws[n - 1].mask), Compacted(ws, n - 1);
        ScanServesNewestFirst(flags', ws', n - 1);
        SamePrefix(flags', ws, ws', n - 1);
      } else {
        ScanServesNewestFirst(flags, ws, n - 1);
      }
    }
  }

  /** x is listed exactly if it is the content of a served entry. */
  lemma {:induction false} ListsTheServed(flags: bv32, ws: seq<EventWaiter>, n: nat, x: EventWaiter)
    requires n <= |ws|
    ensures x in NewestFirst(flags, ws, n) <==> exists i :: 0 <= i < n && Served(flags, ws, n, i) && ws[i] == x
    decreases n
  {
    hide Satisfied, LeftBy;
    if n > 0 {
      var flags' := LeftBy(flags, ws[n - 1]);
      ListsTheServed(flags', ws, n - 1, x);
      assert forall i :: 0 <= i < n - 1 ==> Served(flags, ws, n, i) == Served(flags', ws, n - 1, i);
      assert Served(flags, ws, n, n - 1) == Satisfied(flags, ws[n - 1].mask);
      if x in NewestFirst(flags', ws, n - 1) {
        var i :| 0 <= i < n - 1 && Served(flags', ws, n - 1, i) && ws[i] == x;
        assert Served(flags, ws, n, i);
      }
    }
  }

  lemma StaysSatisfiedIff(flags: bv32, x: EventWaiter, mask: bv32)
    ensures Satisfied(LeftBy(flags, x), mask) <==>
            Satisfied(flags, mask) && (Satisfied(flags, x.mask) ==> Disjoint(x.mask, mask))
  {
    hide Satisfied, Clear, Disjoint;
    if Satisfied(flags, x.mask) {
      if Satisfied(Clear(flags, x.mask), mask) {
        ClearingSatisfiesNobody(flags, x.mask, mask);
        ClearedIsDisjoint(flags, x.mask, mask);
      }
      if Satisfied(flags, mask) && Disjoint(x.mask, mask) {
        StillSatisfied(flags, x.mask, mask);
      }
    }
  }

  /** An entry is served exactly if the flags satisfy it and it shares no bit with a newer entry that is served. */
  lemma {:induction false} ServedIff(flags: bv32, ws: seq<EventWaiter>, n: nat, i: nat)
    requires i < n <= |ws|
    ensures Served(flags, ws, n, i) <==>
            && Satisfied(flags, ws[i].mask)
            && forall j :: i < j < n && Served(flags, ws, n, j) ==> Disjoint(ws[j].mask, ws[i].mask)
    decreases n
  {
    hide Satisfied, LeftBy, Disjoint;
    if i < n - 1 {
      var newest, flags' := ws[n - 1], LeftBy(flags, ws[n - 1]);
      ServedIff(flags', ws, n - 1, i);
      StaysSatisfiedIff(flags, newest, ws[i].mask);
      assert forall j :: 0 <= j < n - 1 ==> Served(flags, ws, n, j) == Served(flags', ws, n - 1, j);
      assert Served(flags, ws, n, n - 1) == Satisfied(flags, newest.mask);
    }
  }

  /** An entry that the flags satisfy and that shares no bit with another satisfied entry is served. */
  lemma UnsharedIsServed(flags: bv32, ws: seq<EventWaiter>, i: nat)
    requires i < |ws| && Satisfied(flags, ws[i].mask)
    requires forall j :: 0 <= j < |ws| && j != i && Satisfied(flags, ws[j].mask) ==> Disjoint(ws[j].mask, ws[i].mask)
    ensures Served(flags, ws, |ws|, i)
  {
    hide Satisfied, Disjoint, Served;
    ServedIff(flags, ws, |ws|, i);
    forall j | i < j < |ws| && Served(flags, ws, |ws|, j) ensures Disjoint(ws[j].mask, ws[i].mask) {
      ServedIff(flags, ws, |ws|, j);
    }
  }

  // ---------------------------------------------------------------- one call

  /** Task t has an entry that setting the mask will serve. */
  ghost predicate WillWake(g: EventGroup, mask: bv32, t: int) {
    && mask != 0
    && exists i :: 0 <= i < |g.waiters| && g.waiters[i].task == t
                   && Served(Join(g.flags, mask), g.waiters, |g.waiters|, i)
  }

  ghost predicate Names(woken: seq<EventWaiter>, t: int) {
    exists j :: 0 <= j < |woken| && woken[j].task == t
  }

  /** The set names exactly the tasks that its input says it will wake. */
  lemma WakesExactlyTheServed(g: EventGroup, mask: bv32, t: int)
    ensures Names(SetFlags(g, mask).woken, t) <==> WillWake(g, mask, t)
  {
    hide Join, Served, Scan, NewestFirst;
    if mask != 0 {
      var all, ws, n := Join(g.flags, mask), g.waiters, |g.waiters|;
      var woken := SetFlags(g, mask).woken;
      ScanServesNewestFirst(all, ws, n);
      if Names(woken, t) {
        var j :| 0 <= j < |woken| && woken[j].task == t;
        ListsTheServed(all, ws, n, woken[j]);
      }
      if WillWake(g, mask, t) {
        var i :| 0 <= i < n && ws[i].task == t && Served(all, ws, n, i);
        ListsTheServed(all, ws, n, ws[i]);
        var j :| 0 <= j < |woken| && woken[j] == ws[i];
      }
    }
  }

  /** Only a task with an entry that the joined flags satisfy is woken ... */
  lemma OnlySatisfiedWillWake(g: EventGroup, mask: bv32, t: int)
    requires WillWake(g, mask, t)
    ensures exists i :: 0 <= i < |g.waiters| && g.waiters[i].task == t
                        && Satisfied(Join(g.flags, mask), g.waiters[i].mask)
  {
    hide Satisfied, Join, Served;
    var i :| 0 <= i < |g.waiters| && g.waiters[i].task == t
             && Served(Join(g.flags, mask), g.waiters, |g.waiters|, i);
    ServedIff(Join(g.flags, mask), g.waiters, |g.waiters|, i);
  }

  /** ... and it is, if one of its entries shares no bit with another satisfied entry. */
  lemma UnsharedWillWake(g: EventGroup, mask: bv32, i: nat)
    requires mask != 0 && i < |g.waiters| && Satisfied(Join(g.flags, mask), g.waiters[i].mask)
    requires forall j :: 0 <= j < |g.waiters| && j != i && Satisfied(Join(g.flags, mask), g.waiters[j].mask) ==>
                           Disjoint(g.waiters[j].mask, g.waiters[i].mask)
    ensures WillWake(g, mask, g.waiters[i].task)
  {
    hide Satisfied, Join, Disjoint, Served;
    UnsharedIsServed(Join(g.flags, mask), g.waiters, i);
  }

  /** The header's promise: every task with an entry that the joined flags satisfy is woken. */
  ghost predicate WakesEveryTask(g: EventGroup, mask: bv32) {
    forall i :: 0 <= i < |g.waiters| && Satisfied(Join(g.flags, mask), g.waiters[i].mask) ==>
                  Names(SetFlags(g, mask).woken, g.waiters[i].task)
  }

  /** Satisfied entries of different tasks share no bit; those of one task may. */
  ghost predicate OwnersDisjoint(flags: bv32, ws: seq<EventWaiter>) {
    forall i, j :: 0 <= i < |ws| && 0 <= j < |ws| && ws[i].task != ws[j].task
                   && Satisfied(flags, ws[i].mask) && Satisfied(flags, ws[j].mask) ==>
                     Disjoint(ws[i].mask, ws[j].mask)
  }

  /** No task owns two satisfied entries. */
  ghost predicate OneEntryEach(flags: bv32, ws: seq<EventWaiter>) {
    forall i, j :: 0 <= i < j < |ws| && Satisfied(flags, ws[i].mask) && Satisfied(flags, ws[j].mask) ==>
                     ws[i].task != ws[j].task
  }

  /**
   * The promise holds exactly if every task with a satisfied entry owns one that shares no bit with the newer entries
   * that are served before it.
   */
  lemma WakesEveryTaskIff(g: EventGroup, mask: bv32)
    requires mask != 0
    ensures var all, ws := Join(g.flags, mask), g.waiters;
            WakesEveryTask(g, mask) <==>
            forall i :: 0 <= i < |ws| && Satisfied(all, ws[i].mask) ==>
                          exists j :: 0 <= j < |ws| && ws[j].task == ws[i].task && Served(all, ws, |ws|, j)
  {
    hide Satisfied, Join, Served, SetFlags, Names;
    forall i | 0 <= i < |g.waiters|
      ensures Names(SetFlags(g, mask).woken, g.waiters[i].task) <==> WillWake(g, mask, g.waiters[i].task)
    {
      WakesExactlyTheServed(g, mask, g.waiters[i].task);
    }
  }

  /** The newest satisfied entry of a task, from entry i on. */
  lemma {:induction false} NewestOf(flags: bv32, ws: seq<EventWaiter>, i: nat) returns (j: nat)
    requires i < |ws| && Satisfied(flags, ws[i].mask)
    ensures i <= j < |ws| && ws[j].task == ws[i].task && Satisfied(flags, ws[j].mask)
    ensures forall m :: j < m < |ws| && Satisfied(flags, ws[m].mask) ==> ws[m].task != ws[i].task
    decreases |ws| - i
  {
    hide Satisfied;
    if m :| i < m < |ws| && Satisfied(flags, ws[m].mask) && ws[m].task == ws[i].task {
      j := NewestOf(flags, ws, m);
    } else {
      j := i;
    }
  }

  /** If different tasks claim different bits, every satisfied task is woken; overlaps within one task do no harm. */
  lemma DisjointOwnersAllWake(g: EventGroup, mask: bv32)
    requires mask != 0 && OwnersDisjoint(Join(g.flags, mask), g.waiters)
    ensures WakesEveryTask(g, mask)
  {
    hide Satisfied, Join, Disjoint, Served, WakesEveryTask;
    var all, ws := Join(g.flags, mask), g.waiters;
    forall i | 0 <= i < |ws| && Satisfied(all, ws[i].mask)
      ensures exists j :: 0 <= j < |ws| && ws[j].task == ws[i].task && Served(all, ws, |ws|, j)
    {
      var j := NewestOf(all, ws, i);
      forall m | j < m < |ws| && Served(all, ws, |ws|, m) ensures Disjoint(ws[m].mask, ws[j].mask) {
        ServedIff(all, ws, |ws|, m);
      }
      ServedIff(all, ws, |ws|, j);
    }
    WakesEveryTaskIff(g, mask);
  }

  /** Where no task owns two satisfied entries, the promise holds exactly if no two satisfied tasks share a bit. */
  lemma SingleEntriesAllWakeIff(g: EventGroup, mask: bv32)
    requires mask != 0 && OneEntryEach(Join(g.flags, mask), g.waiters)
    ensures WakesEveryTask(g, mask) <==> OwnersDisjoint(Join(g.flags, mask), g.waiters)
  {
    hide Satisfied, Join, Disjoint, Served, WakesEveryTask;
    var all, ws := Join(g.flags, mask), g.waiters;
    if OwnersDisjoint(all, ws) {
      DisjointOwnersAllWake(g, mask);
    }
    if WakesEveryTask(g, mask) {
      WakesEveryTaskIff(g, mask);
      forall i | 0 <= i < |ws| && Satisfied(all, ws[i].mask) ensures Served(all, ws, |ws|, i) {
        var j :| 0 <= j < |ws| && ws[j].task == ws[i].task && Served(all, ws, |ws|, j);
        ServedIff(all, ws, |ws|, j);
      }
      AllServedAreDisjoint(all, ws);
    }
  }

  lemma AllServedAreDisjoint(flags: bv32, ws: seq<EventWaiter>)
    requires forall i :: 0 <= i < |ws| && Satisfied(flags, ws[i].mask) ==> Served(flags, ws, |ws|, i)
    ensures OwnersDisjoint(flags, ws)
  {
    hide Satisfied, Disjoint, Served;
    forall i, j | 0 <= i < |ws| && 0 <= j < |ws| && ws[i].task != ws[j].task
                  && Satisfied(flags, ws[i].mask) && Satisfied(flags, ws[j].mask)
      ensures Disjoint(ws[i].mask, ws[j].mask)
    {
      ServedIff(flags, ws, |ws|, if i < j then i else j);
      DisjointSymmetric(ws[i].mask, ws[j].mask);
    }
  }
}
