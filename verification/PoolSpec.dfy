/**
 * The fixed-size block pool at the level of its bytes. Free blocks hold the index of the next free block in their
 * first four bytes; clients may write anything into the blocks they hold.
 */
module PoolSpec {
  import opened Sequences
  import opened Arithmetic

  newtype uint8 = x: int | 0 <= x < 256

  const LINK_SIZE := 4
  const END_OF_LIST := -1
  const TWO_31: int := 0x8000_0000
  const TWO_32: int := 0x1_0000_0000

  predicate IsInt32(v: int) {
    -TWO_31 <= v < TWO_31
  }

  /** A conversion to a 32-bit `int`: reduction modulo 2^32 to the signed range. */
  function ToInt32(v: int): (r: int)
    ensures IsInt32(r)
    ensures (r - v) % TWO_32 == 0
    ensures IsInt32(v) ==> r == v
  {
    var u := v % TWO_32;
    if u < TWO_31 then u else u - TWO_32
  }

  // ---------------------------------------------------------------- links as bytes

  /** The four bytes of an `int`, least significant first. */
  function LinkBytes(v: int): (b: seq<uint8>)
    ensures |b| == LINK_SIZE
  {
    var u := v % TWO_32;
    [(u % 0x100) as uint8, (u / 0x100 % 0x100) as uint8, (u / 0x1_0000 % 0x100) as uint8, (u / 0x100_0000) as uint8]
  }

  function LinkValue(b: seq<uint8>): int
    requires |b| >= LINK_SIZE
  {
    ToInt32((b[0] as int) + (b[1] as int) * 0x100 + (b[2] as int) * 0x1_0000 + (b[3] as int) * 0x100_0000)
  }

  /** What `write_next_link` stores, `read_next_link` returns. */
  lemma LinkRoundTrip(v: int, rest: seq<uint8>)
    requires IsInt32(v)
    ensures LinkValue(LinkBytes(v) + rest) == v
  {
    var u := v % TWO_32;
    var b := LinkBytes(v) + rest;
    assert b[..4] == LinkBytes(v);
    assert (b[0] as int) == u % 0x100 && (b[1] as int) == u / 0x100 % 0x100;
    assert (b[2] as int) == u / 0x1_0000 % 0x100 && (b[3] as int) == u / 0x100_0000;
    assert u / 0x100 / 0x100 == u / 0x1_0000 && u / 0x1_0000 / 0x100 == u / 0x100_0000;
    assert u == (b[0] as int) + (b[1] as int) * 0x100 + (b[2] as int) * 0x1_0000 + (b[3] as int) * 0x100_0000;
  }

  // ---------------------------------------------------------------- the pool

  datatype Pool = Pool(
    blockSize: nat, storage: seq<seq<uint8>>, live: seq<bool>, head: int, available: int)

  /** A pointer is null or a byte offset from the start of the pool. */
  datatype Pointer = Null | At(offset: int)

  /** The shape of the static arrays: at least one block, blocks large enough for a link, indices that fit an int. */
  predicate Shaped(p: Pool) {
    && 1 <= |p.storage| < TWO_31
    && p.blockSize >= LINK_SIZE
    && |p.live| == |p.storage|
    && forall i :: 0 <= i < |p.storage| ==> |p.storage[i]| == p.blockSize
  }

  predicate IsBlock(p: Pool, i: int) {
    0 <= i < |p.storage|
  }

  function ReadLink(p: Pool, i: int): int
    requires Shaped(p) && IsBlock(p, i)
  {
    LinkValue(p.storage[i])
  }

  function WriteLink(p: Pool, i: int, next: int): (p': Pool)
    requires Shaped(p) && IsBlock(p, i)
    ensures Shaped(p')
  {
    p.(storage := p.storage[i := LinkBytes(next) + p.storage[i][LINK_SIZE..]])
  }

  /** `memory_init` from block i on. */
  function InitFrom(p: Pool, i: nat): (p': Pool)
    requires Shaped(p) && i <= |p.storage|
    ensures Shaped(p') && |p'.storage| == |p.storage| && p'.blockSize == p.blockSize
    decreases |p.storage| - i
  {
    if i == |p.storage| then p.(head := 0, available := |p.storage|)
    else
      var p1 := WriteLink(p, i, if i + 1 < |p.storage| then i + 1 else END_OF_LIST);
      InitFrom(p1.(live := p1.live[i := false]), i + 1)
  }

  /** `memory_alloc`. A head outside the pool, which no run reaches, is left alone. */
  function Alloc(p: Pool): (r: (Pool, Pointer))
    requires Shaped(p)
    ensures Shaped(r.0) && |r.0.storage| == |p.storage| && r.0.blockSize == p.blockSize
  {
    if !IsBlock(p, p.head) then (p, Null)
    else
      (p.(head := ReadLink(p, p.head), live := p.live[p.head := true], available := p.available - 1),
       At(p.head * p.blockSize))
  }

  /** `block_index` for n blocks of the given size: the quotient is narrowed to `int` before the range check. */
  function BlockAt(n: nat, blockSize: nat, offset: int): (i: int)
    requires blockSize > 0
    ensures -1 <= i < n
  {
    if offset < 0 || offset % blockSize != 0 then -1
    else
      var i := ToInt32(offset / blockSize);
      if 0 <= i < n then i else -1
  }

  function BlockIndex(p: Pool, offset: int): (i: int)
    requires Shaped(p)
    ensures i == -1 || IsBlock(p, i)
  {
    BlockAt(|p.storage|, p.blockSize, offset)
  }

  /** `memory_free`. */
  function Free(p: Pool, ptr: Pointer): (p': Pool)
    requires Shaped(p)
    ensures Shaped(p') && |p'.storage| == |p.storage| && p'.blockSize == p.blockSize
  {
    if ptr == Null then p
    else
      var i := BlockIndex(p, ptr.offset);
      if i < 0 || !p.live[i] then p
      else WriteLink(p, i, p.head).(head := i, live := p.live[i := false], available := p.available + 1)
  }

  /** A client stores one byte into a block; a client that does not hold the block does not. */
  function ClientWrite(p: Pool, i: int, offset: int, value: uint8): (p': Pool)
    requires Shaped(p)
    ensures Shaped(p') && |p'.storage| == |p.storage| && p'.blockSize == p.blockSize
  {
    if IsBlock(p, i) && p.live[i] && 0 <= offset < p.blockSize
    then p.(storage := p.storage[i := p.storage[i][offset := value]])
    else p
  }

  // ---------------------------------------------------------------- the free list

  /** The chain of free blocks read from the bytes, for at most `fuel` links. */
  function Chain(p: Pool, i: int, fuel: nat): seq<int>
    requires Shaped(p)
    decreases fuel
  {
    if fuel == 0 || !IsBlock(p, i) then [] else [i] + Chain(p, ReadLink(p, i), fuel - 1)
  }

  function LinkAfter(free: seq<int>, j: nat): int {
    if j < |free| then free[j] else END_OF_LIST
  }

  /** The pool stores exactly this stack of free blocks, top first. */
  ghost predicate Stores(p: Pool, free: seq<int>) {
    && Shaped(p)
    && Distinct(free)
    && (forall j :: 0 <= j < |free| ==> IsBlock(p, free[j]))
    && (forall i :: IsBlock(p, i) ==> (i in free <==> !p.live[i]))
    && p.head == LinkAfter(free, 0)
    && (forall j :: 0 <= j < |free| ==> ReadLink(p, free[j]) == LinkAfter(free, j + 1))
    && p.available == |free|
  }

  /** From free block j on, the chain lists the rest of the stack. */
  lemma {:induction false} ChainFollows(p: Pool, free: seq<int>, j: nat, fuel: nat)
    requires Shaped(p) && j <= |free| && |free| - j <= fuel
    requires forall m :: 0 <= m < |free| ==> IsBlock(p, free[m]) && ReadLink(p, free[m]) == LinkAfter(free, m + 1)
    ensures Chain(p, LinkAfter(free, j), fuel) == free[j..]
    decreases |free| - j
  {
    hide ReadLink, Shaped;
    if j < |free| {
      var rest := Chain(p, LinkAfter(free, j + 1), fuel - 1);
      ChainFollows(p, free, j + 1, fuel - 1);
      assert Chain(p, free[j], fuel) == [free[j]] + rest;
    }
  }

  /** The chain read from the bytes is the stack: acyclic, complete, terminated, and as long as the count says. */
  lemma ChainIsFreeList(p: Pool, free: seq<int>)
    requires Stores(p, free)
    ensures Chain(p, p.head, |p.storage|) == free && |free| <= |p.storage|
  {
    DistinctFits(free, |p.storage|);
    ChainFollows(p, free, 0, |p.storage|);
  }

  // ---------------------------------------------------------------- each operation on the stack

  function Countdown(i: nat, n: nat): (s: seq<int>)
    requires i <= n
    ensures |s| == n - i && forall j :: 0 <= j < |s| ==> s[j] == i + j
    decreases n - i
  {
    if i == n then [] else [i] + Countdown(i + 1, n)
  }

  lemma {:induction false} InitLinks(p: Pool, i: nat)
    requires Shaped(p) && i <= |p.storage|
    requires forall j :: 0 <= j < i ==>
                           && !p.live[j]
                           && ReadLink(p, j) == (if j + 1 < |p.storage| then j + 1 else END_OF_LIST)
    ensures var p' := InitFrom(p, i);
            && (forall j :: 0 <= j < |p'.storage| ==>
                  && !p'.live[j]
                  && ReadLink(p', j) == (if j + 1 < |p'.storage| then j + 1 else END_OF_LIST))
            && p'.head == 0 && p'.available == |p'.storage|
    decreases |p.storage| - i
  {
    if i < |p.storage| {
      var next := if i + 1 < |p.storage| then i + 1 else END_OF_LIST;
      LinkRoundTrip(next, p.storage[i][LINK_SIZE..]);
      hide LinkValue, LinkBytes;
      var p1 := WriteLink(p, i, next);
      var p2 := p1.(live := p1.live[i := false]);
      forall j | 0 <= j < i + 1
        ensures !p2.live[j] && ReadLink(p2, j) == (if j + 1 < |p2.storage| then j + 1 else END_OF_LIST)
      {
        if j < i {
          assert p2.storage[j] == p.storage[j];
        }
      }
      InitLinks(p2, i + 1);
    }
  }

  lemma InitStores(p: Pool)
    requires Shaped(p)
    ensures Stores(InitFrom(p, 0), Countdown(0, |p.storage|))
  {
    InitLinks(p, 0);
    LinkedInOrder(InitFrom(p, 0));
  }

  lemma LinkedInOrder(p: Pool)
    requires Shaped(p) && p.head == 0 && p.available == |p.storage|
    requires forall j :: 0 <= j < |p.storage| ==>
                           && !p.live[j]
                           && ReadLink(p, j) == (if j + 1 < |p.storage| then j + 1 else END_OF_LIST)
    ensures Stores(p, Countdown(0, |p.storage|))
  {
    hide ReadLink, Countdown;
    var free := Countdown(0, |p.storage|);
    assert Distinct(free);
    forall i | IsBlock(p, i) ensures i in free {
      assert free[i] == i;
    }
    forall j | 0 <= j < |free| ensures ReadLink(p, free[j]) == LinkAfter(free, j + 1) {
      assert free[j] == j;
    }
  }

  /** Allocation pops the stack; it fails exactly when the stack is empty. */
  lemma AllocPops(p: Pool, free: seq<int>)
    requires Stores(p, free)
    ensures free == [] ==> Alloc(p) == (p, Null)
    ensures free != [] ==> Stores(Alloc(p).0, free[1..]) && Alloc(p).1 == At(free[0] * p.blockSize)
  {
    hide LinkValue;
    if free != [] {
      var p' := Alloc(p).0;
      forall i | IsBlock(p', i) ensures i in free[1..] <==> !p'.live[i] {
        if i in free && i != free[0] {
          var j :| 0 <= j < |free| && free[j] == i;
          assert free[1..][j - 1] == i;
        }
      }
    }
  }

  /** Free changes nothing outside the links of the block it pushes. */
  predicate OnlyLinkChanged(p: Pool, p': Pool, i: int)
    requires Shaped(p) && Shaped(p') && |p'.storage| == |p.storage| && p'.blockSize == p.blockSize && IsBlock(p, i)
  {
    p'.storage == p.storage[i := p'.storage[i][..LINK_SIZE] + p.storage[i][LINK_SIZE..]]
  }

  lemma PushStores(p: Pool, free: seq<int>, i: int, p': Pool)
    requires Stores(p, free) && IsBlock(p, i) && i !in free
    requires p' == WriteLink(p, i, p.head).(head := i, live := p.live[i := false], available := p.available + 1)
    ensures Stores(p', [i] + free) && OnlyLinkChanged(p, p', i)
  {
    hide ReadLink, LinkBytes;
    PushLinks(p, free, i);
    assert p'.storage == WriteLink(p, i, p.head).storage;
    forall j | 0 <= j < |free| + 1 ensures ReadLink(p', ([i] + free)[j]) == LinkAfter([i] + free, j + 1) {
      SameBytesSameLink(p', WriteLink(p, i, p.head), ([i] + free)[j]);
    }
  }

  lemma SameBytesSameLink(p: Pool, p': Pool, i: int)
    requires Shaped(p) && Shaped(p') && IsBlock(p, i) && IsBlock(p', i) && p.storage[i] == p'.storage[i]
    ensures ReadLink(p, i) == ReadLink(p', i)
  {
  }

  lemma PushLinks(p: Pool, free: seq<int>, i: int)
    requires Stores(p, free) && IsBlock(p, i) && i !in free
    ensures var p', free' := WriteLink(p, i, p.head), [i] + free;
            forall j :: 0 <= j < |free'| ==> ReadLink(p', free'[j]) == LinkAfter(free', j + 1)
  {
    assert IsInt32(p.head);
    LinkRoundTrip(p.head, p.storage[i][LINK_SIZE..]);
    var p', free' := WriteLink(p, i, p.head), [i] + free;
    assert ReadLink(p', i) == p.head by { hide LinkValue, LinkBytes, Distinct; }
    hide ReadLink, Distinct;
    forall j | 0 <= j < |free'| ensures ReadLink(p', free'[j]) == LinkAfter(free', j + 1) {
      if j > 0 {
        assert free'[j] == free[j - 1];
        SameBytesSameLink(p, p', free[j - 1]);
      }
    }
  }

  /** The pointer to the start of a block frees that block if it is live, and does nothing if it is free already. */
  lemma FreePushes(p: Pool, free: seq<int>, i: int)
    requires Stores(p, free) && IsBlock(p, i)
    ensures var p' := Free(p, At(i * p.blockSize));
            if i in free then p' == p else Stores(p', [i] + free) && OnlyLinkChanged(p, p', i)
  {
    hide LinkValue, LinkBytes, ReadLink, OnlyLinkChanged;
    DivUnique(i * p.blockSize, p.blockSize, i, 0);
    if i !in free {
      PushStores(p, free, i, Free(p, At(i * p.blockSize)));
    }
  }

  /** Null, and a pointer that is not the start of a block and whose quotient fits an int, are ignored. */
  lemma FreeRejects(p: Pool, ptr: Pointer)
    requires Shaped(p)
    requires ptr == Null || (!IsBlockStart(p, ptr.offset) && IsInt32(ptr.offset / p.blockSize))
    ensures Free(p, ptr) == p
  {
    hide WriteLink;
  }

  /** Every free, the narrowed ones included, is the step of the reference machine. */
  lemma FreeIsStackStep(p: Pool, free: seq<int>, ptr: Pointer)
    requires Stores(p, free)
    ensures Stores(Free(p, ptr), StackStep(|p.storage|, p.blockSize, free, DoFree(ptr)))
  {
    hide LinkValue, LinkBytes, ReadLink, OnlyLinkChanged;
    if ptr != Null && BlockIndex(p, ptr.offset) >= 0 && BlockIndex(p, ptr.offset) !in free {
      PushStores(p, free, BlockIndex(p, ptr.offset), Free(p, ptr));
    }
  }

  /** A client's bytes never reach the free list. */
  lemma ClientWriteKeeps(p: Pool, free: seq<int>, i: int, offset: int, value: uint8)
    requires Stores(p, free)
    ensures Stores(ClientWrite(p, i, offset, value), free)
  {
    hide LinkValue;
    var p' := ClientWrite(p, i, offset, value);
    forall j | 0 <= j < |free| ensures ReadLink(p', free[j]) == ReadLink(p, free[j]) {
      assert free[j] in free;
    }
  }

  // ---------------------------------------------------------------- every run

  datatype PoolOp = DoInit | DoAlloc | DoFree(ptr: Pointer) | DoWrite(block: int, offset: int, value: uint8)

  function Perform(p: Pool, op: PoolOp): (p': Pool)
    requires Shaped(p)
    ensures Shaped(p') && |p'.storage| == |p.storage| && p'.blockSize == p.blockSize
  {
    match op
    case DoInit => InitFrom(p, 0)
    case DoAlloc => Alloc(p).0
    case DoFree(ptr) => Free(p, ptr)
    case DoWrite(block, offset, value) => ClientWrite(p, block, offset, value)
  }

  function RunPool(p: Pool, ops: seq<PoolOp>): (p': Pool)
    requires Shaped(p)
    ensures Shaped(p') && |p'.storage| == |p.storage| && p'.blockSize == p.blockSize
    decreases |ops|
  {
    if ops == [] then p else RunPool(Perform(p, ops[0]), ops[1..])
  }

  /** The reference machine: a stack of block numbers with no bytes and no bitmap. */
  function StackStep(n: nat, blockSize: nat, free: seq<int>, op: PoolOp): seq<int>
    requires blockSize > 0
  {
    match op
    case DoInit => Countdown(0, n)
    case DoAlloc => if free == [] then [] else free[1..]
    case DoFree(ptr) =>
      if ptr == Null || ptr.offset < 0 || ptr.offset % blockSize != 0 then free
      else
        var i := ptr.offset / blockSize % TWO_32;
        if i < n && i !in free then [i] + free else free
    case DoWrite(_, _, _) => free
  }

  function RunStack(n: nat, blockSize: nat, free: seq<int>, ops: seq<PoolOp>): seq<int>
    requires blockSize > 0
    decreases |ops|
  {
    if ops == [] then free else RunStack(n, blockSize, StackStep(n, blockSize, free, ops[0]), ops[1..])
  }

  lemma StepRefines(p: Pool, free: seq<int>, op: PoolOp)
    requires Stores(p, free)
    ensures Stores(Perform(p, op), StackStep(|p.storage|, p.blockSize, free, op))
  {
    match op
    case DoInit => InitStores(p);
    case DoAlloc => AllocPops(p, free);
    case DoFree(ptr) => FreeIsStackStep(p, free, ptr);
    case DoWrite(block, offset, value) => ClientWriteKeeps(p, free, block, offset, value);
  }

  lemma {:induction false} RunRefines(p: Pool, free: seq<int>, ops: seq<PoolOp>)
    requires Stores(p, free)
    ensures Stores(RunPool(p, ops), RunStack(|p.storage|, p.blockSize, free, ops))
    decreases |ops|
  {
    assert p.blockSize > 0;
    hide Stores;
    if ops != [] {
      StepRefines(p, free, ops[0]);
      RunRefines(Perform(p, ops[0]), StackStep(|p.storage|, p.blockSize, free, ops[0]), ops[1..]);
    }
  }

  /**
   * After any sequence of initialisations, allocations, frees (valid, invalid or double) and client writes, starting
   * from an initialised pool: the chain read from the bytes is exactly the reference stack, so it is acyclic, ends,
   * holds exactly the blocks marked free, and has the advertised length.
   */
  lemma FreeListSurvives(p: Pool, ops: seq<PoolOp>)
    requires Shaped(p)
    ensures var p' := RunPool(InitFrom(p, 0), ops);
            var chain := Chain(p', p'.head, |p'.storage|);
            && chain == RunStack(|p.storage|, p.blockSize, Countdown(0, |p.storage|), ops)
            && Distinct(chain)
            && (forall i :: IsBlock(p', i) ==> (i in chain <==> !p'.live[i]))
            && |chain| == p'.available
            && (if chain == [] then p'.head == END_OF_LIST
                else IsBlock(p', chain[|chain| - 1]) && ReadLink(p', chain[|chain| - 1]) == END_OF_LIST)
  {
    InitStores(p);
    var free := RunStack(|p.storage|, p.blockSize, Countdown(0, |p.storage|), ops);
    RunRefines(InitFrom(p, 0), Countdown(0, |p.storage|), ops);
    var p' := RunPool(InitFrom(p, 0), ops);
    ChainIsFreeList(p', free);
    hide InitFrom, RunPool, RunStack, LinkValue, Chain;
  }

  /**
   * In every such run an allocation returns the start of a block that was not live and is live afterwards, and it
   * fails exactly when all blocks are live.
   */
  lemma AllocNeverReturnsLiveBlock(p: Pool, ops: seq<PoolOp>)
    requires Shaped(p)
    ensures var p1 := RunPool(InitFrom(p, 0), ops);
            var (p2, ptr) := Alloc(p1);
            && (ptr == Null <==> forall i :: IsBlock(p1, i) ==> p1.live[i])
            && (ptr != Null ==>
                  exists i :: IsBlock(p1, i) && ptr == At(i * p1.blockSize) && !p1.live[i]
                              && p2.live == p1.live[i := true])
  {
    InitStores(p);
    var free := RunStack(|p.storage|, p.blockSize, Countdown(0, |p.storage|), ops);
    RunRefines(InitFrom(p, 0), Countdown(0, |p.storage|), ops);
    var p1 := RunPool(InitFrom(p, 0), ops);
    AllocPops(p1, free);
    hide InitFrom, RunPool, RunStack, LinkValue;
    if free != [] {
      assert free[0] in free;
      assert IsBlock(p1, free[0]) && Alloc(p1).0.live == p1.live[free[0] := true];
    }
  }

  // ---------------------------------------------------------------- which pointers are accepted

  /** The offset is the start of a block of the pool. */
  predicate IsBlockStart(p: Pool, offset: int)
    requires Shaped(p)
  {
    0 <= offset && offset % p.blockSize == 0 && offset / p.blockSize < |p.storage|
  }

  /**
   * The header promises that a pointer which is not the start of a pool block is rejected. `block_index` accepts
   * exactly the block starts if and only if the offset quotient survives the narrowing to `int`, or narrows to a
   * number outside the pool.
   */
  lemma AcceptsBlockStartsIff(p: Pool, offset: int)
    requires Shaped(p)
    ensures (BlockIndex(p, offset) >= 0 <==> IsBlockStart(p, offset)) <==>
            (offset < 0 || offset % p.blockSize != 0
             || IsInt32(offset / p.blockSize) || !IsBlock(p, ToInt32(offset / p.blockSize)))
  {
    if offset >= 0 && offset % p.blockSize == 0 {
      hide ToInt32;
    }
  }

  /** 2^32 blocks past the start of the pool the narrowed quotient is 0 again, and block 0 is freed if it is live. */
  lemma DistantPointerAccepted(p: Pool, free: seq<int>)
    requires Stores(p, free) && 0 !in free
    ensures var offset := TWO_32 * p.blockSize;
            && !IsBlockStart(p, offset)
            && Stores(Free(p, At(offset)), [0] + free)
  {
    var offset := TWO_32 * p.blockSize;
    assert offset % p.blockSize == 0 && offset / p.blockSize == TWO_32 by {
      DivUnique(offset, p.blockSize, TWO_32, 0);
    }
    FreeIsStackStep(p, free, At(offset));
    hide Stores, Free;
  }
}
