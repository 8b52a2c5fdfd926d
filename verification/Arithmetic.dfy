/** Division facts the proofs about slices and periods rest on. */
module Arithmetic {

  lemma MulMonotone(n: nat, a: nat, b: nat)
    requires a <= b
    ensures n * a <= n * b
  {
  }

  lemma DivUnique(n: nat, p: nat, q: nat, r: nat)
    requires r < p && n == p * q + r
    ensures n / p == q && n % p == r
  {
    var q' := n / p;
    assert n == p * q' + n % p;
    assert p * (q + 1) == p * q + p && p * (q' + 1) == p * q' + p;
    if q < q' {
      MulMonotone(p, q + 1, q');
    } else if q' < q {
      MulMonotone(p, q' + 1, q);
    }
  }

  lemma DivStep(d: nat, p: nat)
    requires p >= 1
    ensures (d + 1) % p == if d % p == p - 1 then 0 else d % p + 1
    ensures (d + 1) / p == d / p + if d % p == p - 1 then 1 else 0
  {
    var q, r := d / p, d % p;
    assert d == p * q + r;
    if r == p - 1 {
      assert p * (q + 1) == p * q + p;
      DivUnique(d + 1, p, q + 1, 0);
    } else {
      DivUnique(d + 1, p, q, r + 1);
    }
  }
}
