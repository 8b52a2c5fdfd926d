/** Duplicate-free integer sequences and removal from them. */
module Sequences {

  ghost predicate Distinct(q: seq<int>) {
    forall i, j :: 0 <= i < j < |q| ==> q[i] != q[j]
  }

  /** The sequence without the first occurrence of x. */
  function Remove(q: seq<int>, x: int): (r: seq<int>)
    ensures |q| - 1 <= |r| <= |q|
    ensures forall j :: 0 <= j < |r| ==> r[j] in q
  {
    if q == [] then []
    else if q[0] == x then q[1..]
    else [q[0]] + Remove(q[1..], x)
  }

  lemma {:induction false} RemoveMembers(q: seq<int>, x: int)
    requires Distinct(q)
    ensures Distinct(Remove(q, x))
    ensures forall y :: y in Remove(q, x) <==> y in q && y != x
    ensures |Remove(q, x)| == if x in q then |q| - 1 else |q|
  {
    if q == [] {
    } else if q[0] == x {
      assert forall y :: y in q <==> y == q[0] || y in q[1..];
    } else {
      RemoveMembers(q[1..], x);
      assert forall y :: y in q <==> y == q[0] || y in q[1..];
      assert q[0] !in q[1..];
    }
  }

  /** Removing x and appending it keeps a sequence duplicate-free. */
  lemma MoveToTail(q: seq<int>, x: int)
    requires Distinct(q)
    ensures Distinct(Remove(q, x) + [x])
    ensures forall y :: y in Remove(q, x) + [x] <==> y in q || y == x
  {
    RemoveMembers(q, x);
  }

  /** Removal at a known position, as the shifting loop does it. */
  lemma {:induction false} RemoveAt(q: seq<int>, i: nat)
    requires i < |q|
    requires q[i] !in q[..i]
    ensures Remove(q, q[i]) == q[..i] + q[i + 1..]
  {
    if i > 0 {
      assert q[0] in q[..i];
      assert q[1..][..i - 1] == q[1..i];
      forall y | y in q[1..i] ensures y in q[..i] {
        var m :| 0 <= m < |q[1..i]| && q[1..i][m] == y;
        assert q[..i][m + 1] == y;
      }
      RemoveAt(q[1..], i - 1);
      assert [q[0]] + (q[1..i] + q[i + 1..]) == q[..i] + q[i + 1..];
    }
  }

  lemma {:induction false} RemoveAbsent(q: seq<int>, x: int)
    requires x !in q
    ensures Remove(q, x) == q
  {
    if q != [] {
      RemoveAbsent(q[1..], x);
    }
  }

  /** A duplicate-free sequence of numbers below n has at most n entries. */
  lemma {:induction false} DistinctFits(q: seq<int>, n: nat)
    requires Distinct(q)
    requires forall j :: 0 <= j < |q| ==> 0 <= q[j] < n
    ensures |q| <= n
    decreases n
  {
    if q != [] {
      assert 0 <= q[0] < n;
      RemoveMembers(q, n - 1);
      DistinctFits(Remove(q, n - 1), n - 1);
    }
  }
}
