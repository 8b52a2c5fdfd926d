/** The ready queue as a sequence of task indices, in arrival order. */
module ReadyQueues {
  import opened KernelTypes
  import opened Sequences

  ghost predicate InTable(tasks: seq<Tcb>, q: seq<int>) {
    forall j :: 0 <= j < |q| ==> 0 <= q[j] < |tasks|
  }

  predicate IsReady(tasks: seq<Tcb>, x: int) {
    0 <= x < |tasks| && tasks[x].state == Ready
  }

  /** The stable filter of a queue to its READY entries. */
  function ReadyOnly(tasks: seq<Tcb>, q: seq<int>): (r: seq<int>)
    ensures forall j :: 0 <= j < |r| ==> r[j] in q && IsReady(tasks, r[j])
    ensures |r| <= |q|
  {
    if q == [] then []
    else if IsReady(tasks, q[0]) then [q[0]] + ReadyOnly(tasks, q[1..])
    else ReadyOnly(tasks, q[1..])
  }

  lemma {:induction false} ReadyOnlyIdentity(tasks: seq<Tcb>, q: seq<int>)
    requires forall x :: x in q ==> IsReady(tasks, x)
    ensures ReadyOnly(tasks, q) == q
  {
    if q != [] {
      assert q[0] in q;
      ReadyOnlyIdentity(tasks, q[1..]);
    }
  }

  /** The filter keeps every READY entry and no duplicate. */
  lemma {:induction false} ReadyOnlyMembers(tasks: seq<Tcb>, q: seq<int>)
    requires Distinct(q)
    ensures Distinct(ReadyOnly(tasks, q))
    ensures forall x :: x in ReadyOnly(tasks, q) <==> x in q && IsReady(tasks, x)
  {
    if q != [] {
      ReadyOnlyMembers(tasks, q[1..]);
      assert forall x :: x in q <==> x == q[0] || x in q[1..];
      assert q[0] !in q[1..];
    }
  }

  /** The scan of `ready_queue_peek_highest_priority`: a later entry wins only with a higher priority. */
  function BestOf(tasks: seq<Tcb>, q: seq<int>): (b: int)
    requires InTable(tasks, q)
    ensures q == [] ==> b == -1
    ensures q != [] ==> b in q
  {
    if q == [] then -1 else
      var n := |q| - 1;
      assert q[n] in q;
      assert forall y :: y in q[..n] ==> y in q;
      var b := BestOf(tasks, q[..n]);
      if b < 0 || tasks[q[n]].priority > tasks[b].priority then q[n] else b
  }

  /** The scan finds the first entry of maximum priority. */
  lemma {:induction false} BestIsFirstMaximum(tasks: seq<Tcb>, q: seq<int>) returns (p: nat)
    requires InTable(tasks, q) && q != []
    ensures p < |q| && q[p] == BestOf(tasks, q)
    ensures forall j :: 0 <= j < |q| ==> tasks[q[j]].priority <= tasks[q[p]].priority
    ensures forall j :: 0 <= j < p ==> tasks[q[j]].priority < tasks[q[p]].priority
  {
    var n := |q| - 1;
    if n == 0 {
      p := 0;
    } else {
      assert InTable(tasks, q[..n]) by { assert forall y :: y in q[..n] ==> y in q; }
      p := BestIsFirstMaximum(tasks, q[..n]);
      assert q[..n][p] == q[p];
      assert forall j :: 0 <= j < n ==> q[..n][j] == q[j];
      if tasks[q[n]].priority > tasks[q[p]].priority {
        p := n;
      }
    }
  }

  /** How many entries stand before t in the queue with t's own priority. */
  function Ahead(tasks: seq<Tcb>, q: seq<int>, t: int): nat
    requires InTable(tasks, q) && 0 <= t < |tasks|
  {
    if q == [] || q[0] == t then 0
    else
      assert q[0] in q;
      (if tasks[q[0]].priority == tasks[t].priority then 1 else 0) + Ahead(tasks, q[1..], t)
  }

  /** Appending behind t changes nothing ahead of it; only the priorities of the tasks matter. */
  lemma {:induction false} AheadAppend(tasks: seq<Tcb>, tasks': seq<Tcb>, q: seq<int>, s: seq<int>, t: int)
    requires InTable(tasks, q) && InTable(tasks', q + s) && 0 <= t < |tasks| <= |tasks'|
    requires forall i :: 0 <= i < |tasks| ==> tasks'[i].priority == tasks[i].priority
    requires t in q
    ensures Ahead(tasks', q + s, t) == Ahead(tasks, q, t)
  {
    assert (q + s)[0] == q[0] && q[0] in q;
    if q[0] != t {
      assert (q + s)[1..] == q[1..] + s;
      assert forall x :: x in q[1..] + s ==> x in q + s;
      AheadAppend(tasks, tasks', q[1..], s, t);
    }
  }

  /** x stands before t (or t is absent and x is in the queue). */
  predicate Before(q: seq<int>, x: int, t: int) {
    q != [] && q[0] != t && (q[0] == x || Before(q[1..], x, t))
  }

  lemma {:induction false} BeforeByIndex(q: seq<int>, i: nat, j: nat)
    requires i < j < |q| && Distinct(q)
    ensures Before(q, q[i], q[j])
  {
    if i > 0 {
      BeforeByIndex(q[1..], i - 1, j - 1);
    }
  }

  /** Removing an entry ahead of t with t's priority brings t one place forward; other removals do not matter. */
  lemma {:induction false} AheadRemove(tasks: seq<Tcb>, q: seq<int>, x: int, t: int)
    requires InTable(tasks, q) && 0 <= t < |tasks| && 0 <= x < |tasks|
    requires t in q && x != t
    ensures InTable(tasks, Remove(q, x)) && t in Remove(q, x)
    ensures Ahead(tasks, Remove(q, x), t) ==
            Ahead(tasks, q, t) - (if Before(q, x, t) && tasks[x].priority == tasks[t].priority then 1 else 0)
  {
    if q[0] == t {
      assert Remove(q, x)[0] == t;
    } else if q[0] != x {
      AheadRemove(tasks, q[1..], x, t);
      var r := Remove(q[1..], x);
      assert Remove(q, x) == [q[0]] + r;
      assert ([q[0]] + r)[1..] == r;
    }
  }

  /** The entries of one priority, in queue order. */
  function Peers(tasks: seq<Tcb>, q: seq<int>, p: int): (r: seq<int>)
    requires InTable(tasks, q)
    ensures forall j :: 0 <= j < |r| ==> r[j] in q && tasks[r[j]].priority == p
  {
    if q == [] then []
    else if tasks[q[0]].priority == p then [q[0]] + Peers(tasks, q[1..], p)
    else Peers(tasks, q[1..], p)
  }

  lemma {:induction false} PeersAppend(tasks: seq<Tcb>, q: seq<int>, s: seq<int>, p: int)
    requires InTable(tasks, q) && InTable(tasks, s)
    ensures InTable(tasks, q + s)
    ensures Peers(tasks, q + s, p) == Peers(tasks, q, p) + Peers(tasks, s, p)
  {
    if q == [] {
      assert q + s == s;
    } else {
      assert (q + s)[1..] == q[1..] + s;
      PeersAppend(tasks, q[1..], s, p);
      assert (q + s)[0] == q[0];
    }
  }

  /** The peers see removal as removal, and only the priorities of the tasks matter. */
  lemma {:induction false} PeersRemove(tasks: seq<Tcb>, q: seq<int>, x: int, p: int)
    requires InTable(tasks, q)
    ensures InTable(tasks, Remove(q, x))
    ensures Peers(tasks, Remove(q, x), p) == Remove(Peers(tasks, q, p), x)
  {
    if q != [] {
      PeersRemove(tasks, q[1..], x, p);
      var tail := Peers(tasks, q[1..], p);
      assert ([q[0]] + tail)[1..] == tail;
      if q[0] == x {
        if tasks[x].priority != p {
          RemoveAbsent(tail, x);
        }
      } else {
        var r := Remove(q[1..], x);
        assert ([q[0]] + r)[1..] == r;
      }
    }
  }

  lemma {:induction false} PeersSame(tasks: seq<Tcb>, tasks': seq<Tcb>, q: seq<int>, p: int)
    requires InTable(tasks, q) && |tasks| <= |tasks'|
    requires forall i :: 0 <= i < |tasks| ==> tasks'[i].priority == tasks[i].priority
    ensures InTable(tasks', q) && Peers(tasks', q, p) == Peers(tasks, q, p)
  {
    if q != [] {
      PeersSame(tasks, tasks', q[1..], p);
    }
  }

  lemma {:induction false} PeersNone(tasks: seq<Tcb>, q: seq<int>, p: int)
    requires InTable(tasks, q)
    requires forall j :: 0 <= j < |q| ==> tasks[q[j]].priority != p
    ensures Peers(tasks, q, p) == []
  {
    if q != [] {
      PeersNone(tasks, q[1..], p);
    }
  }

  /** The scan returns the first peer of the top priority. */
  lemma BestIsFirstPeer(tasks: seq<Tcb>, q: seq<int>, p: int)
    requires InTable(tasks, q)
    requires forall j :: 0 <= j < |q| ==> tasks[q[j]].priority <= p
    requires Peers(tasks, q, p) != []
    ensures BestOf(tasks, q) == Peers(tasks, q, p)[0]
  {
    assert Peers(tasks, q, p)[0] in q;
    var b := BestIsFirstMaximum(tasks, q);
    assert q == q[..b] + q[b..];
    PeersNone(tasks, q[..b], p);
    PeersAppend(tasks, q[..b], q[b..], p);
  }

  /** The filter is stable: READY entries keep their relative order. */
  lemma {:induction false} ReadyOnlyIsStable(tasks: seq<Tcb>, q: seq<int>, x: int, y: int)
    requires Before(q, x, y) && IsReady(tasks, x) && IsReady(tasks, y)
    ensures Before(ReadyOnly(tasks, q), x, y)
  {
    var rest := ReadyOnly(tasks, q[1..]);
    assert ([q[0]] + rest)[1..] == rest;
    if q[0] != x {
      ReadyOnlyIsStable(tasks, q[1..], x, y);
    }
  }
}
