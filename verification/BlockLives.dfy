/** The pool as its clients see it: how long a block stays its holder's, and what its bytes are meanwhile. */
module BlockLives {
  import opened Sequences
  import opened Arithmetic
  import opened PoolSpec

  /** Freeing the pointer is taken for block i: it is the start of i, or that many times 2^32 blocks further on. */
  predicate Names(ptr: Pointer, i: int, blockSize: nat)
    requires blockSize > 0
  {
    ptr != Null && ptr.offset >= 0 && ptr.offset % blockSize == 0 && ptr.offset / blockSize % TWO_32 == i
  }

  /** The operations that take block i away from its holder. */
  predicate Ends(op: PoolOp, i: int, blockSize: nat)
    requires blockSize > 0
  {
    op.DoInit? || (op.DoFree? && Names(op.ptr, i, blockSize))
  }

  /** A block's life ends exactly with an initialisation or a free of its pointer. */
  lemma LifeEndsIff(p: Pool, free: seq<int>, op: PoolOp, i: int)
    requires Stores(p, free) && IsBlock(p, i) && p.live[i]
    ensures Perform(p, op).live[i] <==> !Ends(op, i, p.blockSize)
  {
    hide Perform;
    StepRefines(p, free, op);
    StackKeepsUnless(|p.storage|, p.blockSize, free, op, i);
  }

  lemma StackKeepsUnless(n: nat, blockSize: nat, free: seq<int>, op: PoolOp, i: int)
    requires blockSize > 0 && 0 <= i < n < TWO_31 && i !in free
    ensures i in StackStep(n, blockSize, free, op) <==> Ends(op, i, blockSize)
  {
    match op
    case DoInit => assert Countdown(0, n)[i] == i;
    case DoAlloc =>
    case DoFree(ptr) =>
    case DoWrite(_, _, _) =>
  }

  /** It begins exactly with the allocation that returns its pointer. */
  lemma LifeBeginsIff(p: Pool, free: seq<int>, op: PoolOp, i: int)
    requires Stores(p, free) && IsBlock(p, i) && !p.live[i]
    ensures Perform(p, op).live[i] <==> op.DoAlloc? && Alloc(p).1 == At(i * p.blockSize)
  {
    hide Perform, ReadLink, PoolSpec.Alloc;
    StepRefines(p, free, op);
    AllocPops(p, free);
    StackTakesTop(|p.storage|, p.blockSize, free, op, i);
    SameStart(free[0], i, p.blockSize);
  }

  lemma StackTakesTop(n: nat, blockSize: nat, free: seq<int>, op: PoolOp, i: int)
    requires blockSize > 0 && 0 <= i < n && i in free && Distinct(free)
    ensures i !in StackStep(n, blockSize, free, op) <==> op.DoAlloc? && i == free[0]
  {
    match op
    case DoInit => assert Countdown(0, n)[i] == i;
    case DoAlloc =>
      if i != free[0] {
        var j :| 0 <= j < |free| && free[j] == i;
        assert free[1..][j - 1] == i;
      }
    case DoFree(ptr) =>
    case DoWrite(_, _, _) =>
  }

  lemma SameStart(i: int, j: int, blockSize: nat)
    requires blockSize > 0 && i >= 0 && j >= 0
    ensures i * blockSize == j * blockSize <==> i == j
  {
    DivUnique(i * blockSize, blockSize, i, 0);
    DivUnique(j * blockSize, blockSize, j, 0);
  }

  // ---------------------------------------------------------------- the bytes of a held block

  /** Byte j of block i after an operation that leaves the block to its holder. */
  lemma HeldByte(p: Pool, op: PoolOp, i: int, j: nat)
    requires Shaped(p) && IsBlock(p, i) && p.live[i] && j < p.blockSize && !Ends(op, i, p.blockSize)
    ensures Perform(p, op).storage[i][j] ==
            if op.DoWrite? && op.block == i && op.offset == j then op.value else p.storage[i][j]
  {
    hide LinkBytes, LinkValue;
  }

  /** The value last stored into byte j of block i, or the given one. */
  function LastStored(ops: seq<PoolOp>, i: int, j: int, initial: uint8): uint8
    decreases |ops|
  {
    if ops == [] then initial
    else
      var op := ops[0];
      LastStored(ops[1..], i, j, if op.DoWrite? && op.block == i && op.offset == j then op.value else initial)
  }

  lemma {:induction false} HeldBytes(p: Pool, free: seq<int>, ops: seq<PoolOp>, i: int, j: nat)
    requires Stores(p, free) && IsBlock(p, i) && p.live[i] && j < p.blockSize
    requires forall m :: 0 <= m < |ops| ==> !Ends(ops[m], i, p.blockSize)
    ensures RunPool(p, ops).live[i]
    ensures RunPool(p, ops).storage[i][j] == LastStored(ops, i, j, p.storage[i][j])
    decreases |ops|
  {
    if ops != [] {
      StepRefines(p, free, ops[0]);
      LifeEndsIff(p, free, ops[0], i);
      HeldByte(p, ops[0], i, j);
      hide Stores, Perform, StackStep, Ends;
      HeldBytes(Perform(p, ops[0]), StackStep(|p.storage|, p.blockSize, free, ops[0]), ops[1..], i, j);
    }
  }

  /**
   * In every run: until a re-initialisation or a free of its pointer, a live block stays live, and each of its bytes
   * is what was last stored into that byte, whatever is allocated, freed and stored elsewhere.
   */
  lemma HoldersKeepTheirBytes(p: Pool, before: seq<PoolOp>, ops: seq<PoolOp>, i: int, j: nat)
    requires Shaped(p) && IsBlock(p, i) && j < p.blockSize && RunPool(InitFrom(p, 0), before).live[i]
    requires forall m :: 0 <= m < |ops| ==> !Ends(ops[m], i, p.blockSize)
    ensures var p1 := RunPool(InitFrom(p, 0), before);
            var p2 := RunPool(p1, ops);
            p2.live[i] && p2.storage[i][j] == LastStored(ops, i, j, p1.storage[i][j])
  {
    hide Stores, InitFrom, RunPool, LastStored, Ends;
    InitStores(p);
    RunRefines(InitFrom(p, 0), Countdown(0, |p.storage|), before);
    var free := RunStack(|p.storage|, p.blockSize, Countdown(0, |p.storage|), before);
    HeldBytes(RunPool(InitFrom(p, 0), before), free, ops, i, j);
  }

  /**
   * In every run: freeing the pointer of a live block ends exactly that block's life and leaves all other blocks and
   * the rest of its own bytes alone; the next allocation returns the same pointer and makes exactly that block live.
   */
  lemma FreedBlockIsNext(p: Pool, ops: seq<PoolOp>, i: int)
    requires Shaped(p) && IsBlock(p, i) && RunPool(InitFrom(p, 0), ops).live[i]
    ensures var p1 := RunPool(InitFrom(p, 0), ops);
            var p2 := Free(p1, At(i * p.blockSize));
            var (p3, ptr) := Alloc(p2);
            && p2.live == p1.live[i := false] && OnlyLinkChanged(p1, p2, i)
            && ptr == At(i * p.blockSize)
            && p3.live == p1.live && p3.head == p1.head && p3.available == p1.available && p3.storage == p2.storage
  {
    hide Stores, InitFrom, RunPool;
    InitStores(p);
    RunRefines(InitFrom(p, 0), Countdown(0, |p.storage|), ops);
    var free := RunStack(|p.storage|, p.blockSize, Countdown(0, |p.storage|), ops);
    FreeThenAlloc(RunPool(InitFrom(p, 0), ops), free, i);
  }

  lemma FreeThenAlloc(p: Pool, free: seq<int>, i: int)
    requires Stores(p, free) && IsBlock(p, i) && p.live[i]
    ensures var p2 := Free(p, At(i * p.blockSize));
            var (p3, ptr) := Alloc(p2);
            && p2.live == p.live[i := false] && OnlyLinkChanged(p, p2, i)
            && ptr == At(i * p.blockSize)
            && p3.live == p.live && p3.head == p.head && p3.available == p.available && p3.storage == p2.storage
  {
    var p2 := Free(p, At(i * p.blockSize));
    FreePushes(p, free, i);
    AllocPops(p2, [i] + free);
    assert ([i] + free)[1..] == free;
    var p3 := Alloc(p2).0;
    SameLive(p, p3, free);
    forall m | 0 <= m < |p.live| ensures p2.live[m] == p.live[i := false][m] {
      assert IsBlock(p2, m) && IsBlock(p, m) && (m in [i] + free <==> m == i || m in free);
    }
    hide Stores, Free, OnlyLinkChanged;
  }

  lemma SameLive(p: Pool, p': Pool, free: seq<int>)
    requires Stores(p, free) && Stores(p', free) && |p.storage| == |p'.storage|
    ensures p'.live == p.live && p'.head == p.head && p'.available == p.available
  {
    hide ReadLink;
    forall m | 0 <= m < |p.live| ensures p'.live[m] == p.live[m] {
      assert IsBlock(p, m) && IsBlock(p', m);
    }
  }

  // ---------------------------------------------------------------- pointers handed out and not given back

  /** The offsets a client holds after an operation, judged by what it was given and what it gave back. */
  function HeldStep(p: Pool, held: set<int>, op: PoolOp): set<int>
    requires Shaped(p)
  {
    match op
    case DoInit => {}
    case DoAlloc => if Alloc(p).1 == Null then held else held + {Alloc(p).1.offset}
    case DoFree(ptr) => if ptr == Null then held else held - {ptr.offset}
    case DoWrite(_, _, _) => held
  }

  function HeldAfter(p: Pool, held: set<int>, ops: seq<PoolOp>): set<int>
    requires Shaped(p)
    decreases |ops|
  {
    if ops == [] then held else HeldAfter(Perform(p, ops[0]), HeldStep(p, held, ops[0]), ops[1..])
  }

  /** The live blocks are the held ones. */
  ghost predicate LiveIffHeld(p: Pool, held: set<int>)
    requires Shaped(p)
  {
    forall i :: IsBlock(p, i) ==> (p.live[i] <==> i * p.blockSize in held)
  }

  /** The quotient of the offset fits an `int`. */
  predicate Near(op: PoolOp, blockSize: nat)
    requires blockSize > 0
  {
    op.DoFree? && op.ptr != Null ==> IsInt32(op.ptr.offset / blockSize)
  }

  lemma NamesItsOffset(ptr: Pointer, i: int, blockSize: nat)
    requires blockSize > 0 && 0 <= i < TWO_31 && Near(DoFree(ptr), blockSize)
    ensures Names(ptr, i, blockSize) <==> ptr == At(i * blockSize)
  {
    DivUnique(i * blockSize, blockSize, i, 0);
    if Names(ptr, i, blockSize) {
      assert ptr.offset == ptr.offset / blockSize * blockSize;
    }
  }

  lemma StepKeepsHeld(p: Pool, free: seq<int>, held: set<int>, op: PoolOp)
    requires Stores(p, free) && LiveIffHeld(p, held) && Near(op, p.blockSize)
    ensures LiveIffHeld(Perform(p, op), HeldStep(p, held, op))
  {
    var p', held' := Perform(p, op), HeldStep(p, held, op);
    forall i | IsBlock(p', i) ensures p'.live[i] <==> i * p'.blockSize in held' {
      BlockKeepsHeld(p, free, held, op, i);
    }
  }

  lemma BlockKeepsHeld(p: Pool, free: seq<int>, held: set<int>, op: PoolOp, i: int)
    requires Stores(p, free) && IsBlock(p, i) && (p.live[i] <==> i * p.blockSize in held) && Near(op, p.blockSize)
    ensures Perform(p, op).live[i] <==> i * p.blockSize in HeldStep(p, held, op)
  {
    if p.live[i] {
      LifeEndsIff(p, free, op, i);
    } else {
      LifeBeginsIff(p, free, op, i);
    }
    if op.DoFree? {
      NamesItsOffset(op.ptr, i, p.blockSize);
    }
    hide Stores, PoolSpec.Alloc, Names, Perform, Near;
  }

  lemma {:induction false} RunKeepsHeld(p: Pool, free: seq<int>, held: set<int>, ops: seq<PoolOp>)
    requires Stores(p, free) && LiveIffHeld(p, held)
    requires forall m :: 0 <= m < |ops| ==> Near(ops[m], p.blockSize)
    ensures LiveIffHeld(RunPool(p, ops), HeldAfter(p, held, ops))
    decreases |ops|
  {
    assert p.blockSize > 0;
    hide LiveIffHeld, Stores, Near, Perform, StackStep, HeldStep;
    if ops != [] {
      StepRefines(p, free, ops[0]);
      StepKeepsHeld(p, free, held, ops[0]);
      RunKeepsHeld(Perform(p, ops[0]), StackStep(|p.storage|, p.blockSize, free, ops[0]), HeldStep(p, held, ops[0]),
                   ops[1..]);
    }
  }

  /**
   * In every run that frees only pointers whose quotient fits an `int`, the blocks marked live are exactly those
   * whose pointers were handed out and not given back, so no allocation hands out a pointer that is still held.
   */
  lemma LiveAreHeld(p: Pool, ops: seq<PoolOp>)
    requires Shaped(p) && forall m :: 0 <= m < |ops| ==> Near(ops[m], p.blockSize)
    ensures var p', held := RunPool(InitFrom(p, 0), ops), HeldAfter(InitFrom(p, 0), {}, ops);
            && LiveIffHeld(p', held)
            && (Alloc(p').1 != Null ==> Alloc(p').1.offset !in held)
  {
    var start := Countdown(0, |p.storage|);
    var p0 := InitFrom(p, 0);
    InitStores(p);
    assert LiveIffHeld(p0, {}) by {
      forall i | IsBlock(p0, i) ensures !p0.live[i] {
        assert start[i] == i;
      }
    }
    RunKeepsHeld(p0, start, {}, ops);
    RunRefines(p0, start, ops);
    AllocPops(RunPool(p0, ops), RunStack(|p.storage|, p.blockSize, start, ops));
    var free := RunStack(|p.storage|, p.blockSize, start, ops);
    hide InitFrom, RunPool, HeldAfter, RunStack, ReadLink, PoolSpec.Alloc, Near;
    if free != [] {
      assert free[0] in free;
    }
  }
}
