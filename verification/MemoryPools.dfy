/** The pool as the program keeps it: one block of bytes, a bitmap, a head and a count, updated in place. */
module MemoryPools {
  import opened PoolSpec

  class MemoryPool {
    const storage: array2<uint8>
    const live: array<bool>
    var head: int
    var available: int

    /** The arrays have the shape the compile-time sizes give them. */
    ghost predicate Valid()
      reads this
    {
      && 1 <= storage.Length0 < TWO_31
      && storage.Length1 >= LINK_SIZE
      && live.Length == storage.Length0
    }

    ghost function Row(i: nat): (row: seq<uint8>)
      requires i < storage.Length0
      reads storage
      ensures |row| == storage.Length1
      ensures forall j :: 0 <= j < |row| ==> row[j] == storage[i, j]
    {
      seq(storage.Length1, j requires 0 <= j < storage.Length1 reads storage => storage[i, j])
    }

    ghost function Rows(): (rows: seq<seq<uint8>>)
      reads storage
      ensures |rows| == storage.Length0
      ensures forall i :: 0 <= i < |rows| ==> rows[i] == Row(i)
    {
      seq(storage.Length0, i requires 0 <= i < storage.Length0 reads storage => Row(i))
    }

    ghost function View(): (p: Pool)
      requires Valid()
      reads this, storage, live
      ensures Shaped(p)
    {
      Pool(storage.Length1, Rows(), live[..], head, available)
    }

    /** The statically zeroed pool, before `memory_init`. */
    constructor (blockCount: nat, blockSize: nat)
      requires 1 <= blockCount < TWO_31 && blockSize >= LINK_SIZE
      ensures Valid() && fresh(storage) && fresh(live)
      ensures storage.Length0 == blockCount && storage.Length1 == blockSize
    {
      storage := new uint8[blockCount, blockSize]((_, _) => 0);
      live := new bool[blockCount](_ => false);
      head, available := 0, 0;
    }

    method ReadNextLink(i: nat) returns (next: int)
      requires Valid() && i < storage.Length0
      ensures next == ReadLink(View(), i)
    {
      var u := (storage[i, 0] as int) + (storage[i, 1] as int) * 0x100
      + (storage[i, 2] as int) * 0x1_0000 + (storage[i, 3] as int) * 0x100_0000;
      next := ToInt32(u);
      assert Rows()[i] == Row(i);
    }

    method WriteNextLink(i: nat, next: int)
      requires Valid() && i < storage.Length0
      modifies storage
      ensures View() == WriteLink(old(View()), i, next)
    {
      ghost var before := View();
      var u := next % TWO_32;
      storage[i, 0] := (u % 0x100) as uint8;
      storage[i, 1] := (u / 0x100 % 0x100) as uint8;
      storage[i, 2] := (u / 0x1_0000 % 0x100) as uint8;
      storage[i, 3] := (u / 0x100_0000) as uint8;
      ghost var after := WriteLink(before, i, next);
      assert Row(i) == LinkBytes(next) + before.storage[i][LINK_SIZE..];
      forall r | 0 <= r < storage.Length0 ensures Rows()[r] == after.storage[r] {
        if r != i {
          assert Row(r) == before.storage[r];
        }
      }
      assert Rows() == after.storage;
    }

    /** `memory_init` */
    method Init()
      requires Valid()
      modifies this, storage, live
      ensures Valid() && View() == InitFrom(old(View()), 0)
    {
      ghost var target := InitFrom(View(), 0);
      for i := 0 to storage.Length0
        invariant InitFrom(View(), i) == target
      {
        var next := if i + 1 < storage.Length0 then i + 1 else END_OF_LIST;
        ghost var p := View();
        WriteNextLink(i, next);
        live[i] := false;
        assert View() == WriteLink(p, i, next).(live := p.live[i := false]);
      }
      ghost var last := View();
      head := 0;
      available := storage.Length0;
      assert View() == last.(head := 0, available := storage.Length0);
    }

    /** `memory_alloc` */
    method Alloc() returns (ptr: Pointer)
      requires Valid() && (head == END_OF_LIST || 0 <= head < storage.Length0)
      modifies this, live
      ensures Valid() && (View(), ptr) == PoolSpec.Alloc(old(View()))
    {
      if head == END_OF_LIST {
        return Null;
      }
      ghost var p := View();
      var i := head;
      head := ReadNextLink(i);
      live[i] := true;
      available := available - 1;
      ptr := At(i * storage.Length1);
      assert View() == p.(head := ReadLink(p, i), live := p.live[i := true], available := p.available - 1);
    }

    /** `block_index` */
    method FindBlock(offset: int) returns (i: int)
      requires Valid()
      ensures i == BlockIndex(View(), offset)
    {
      if offset < 0 {
        return -1;
      }
      if offset % storage.Length1 != 0 {
        return -1;
      }
      i := ToInt32(offset / storage.Length1);
      if i < 0 || i >= storage.Length0 {
        return -1;
      }
    }

    /** `memory_free` */
    method Free(ptr: Pointer)
      requires Valid()
      modifies this, storage, live
      ensures Valid() && View() == PoolSpec.Free(old(View()), ptr)
    {
      if ptr == Null {
        return;
      }
      var i := FindBlock(ptr.offset);
      if i < 0 || !live[i] {
        return;
      }
      ghost var p := View();
      WriteNextLink(i, head);
      ghost var q := View();
      head := i;
      live[i] := false;
      available := available + 1;
      assert View() == q.(head := i, live := q.live[i := false], available := q.available + 1);
    }

    /** A client stores one byte into a block; one that does not hold the block does not. */
    method Write(block: int, offset: int, value: uint8)
      requires Valid()
      modifies storage
      ensures View() == ClientWrite(old(View()), block, offset, value)
    {
      if block < 0 || block >= storage.Length0 || !live[block] || offset < 0 || offset >= storage.Length1 {
        return;
      }
      ghost var before := View();
      storage[block, offset] := value;
      assert Row(block) == before.storage[block][offset := value];
      forall r | 0 <= r < storage.Length0 && r != block ensures Rows()[r] == before.storage[r] {
        assert Row(r) == before.storage[r];
      }
      assert Rows() == ClientWrite(before, block, offset, value).storage;
    }

    /** One call by the program or one store by a client. `free` is the stack of free blocks. */
    method Execute(op: PoolOp, ghost free: seq<int>)
      requires Valid() && Stores(View(), free)
      modifies this, storage, live
      ensures Valid() && View() == Perform(old(View()), op)
      ensures Stores(View(), StackStep(storage.Length0, storage.Length1, free, op))
    {
      StepRefines(View(), free, op);
      hide Stores, PoolSpec.Alloc, PoolSpec.Free, InitFrom, ClientWrite, StackStep;
      HeadIsFree(View(), free);
      match op {
        case DoInit => Init();
        case DoAlloc => var ptr := Alloc();
        case DoFree(ptr) => Free(ptr);
        case DoWrite(block, offset, value) => Write(block, offset, value);
      }
    }

    /** Initialisation and any calls and client stores after it, in place: the run of the specification. */
    method RunOps(ops: seq<PoolOp>)
      requires Valid()
      modifies this, storage, live
      ensures Valid() && View() == RunPool(InitFrom(old(View()), 0), ops)
      ensures Stores(View(), RunStack(storage.Length0, storage.Length1, Countdown(0, storage.Length0), ops))
    {
      hide Stores, InitFrom, Perform, StackStep;
      ghost var free := Countdown(0, storage.Length0);
      InitStores(View());
      Init();
      ghost var target, stack := RunPool(View(), ops), RunStack(storage.Length0, storage.Length1, free, ops);
      assert ops[0..] == ops;
      for i := 0 to |ops|
        invariant Valid() && Stores(View(), free)
        invariant RunPool(View(), ops[i..]) == target
        invariant RunStack(storage.Length0, storage.Length1, free, ops[i..]) == stack
      {
        assert ops[i..][0] == ops[i] && ops[i..][1..] == ops[i + 1..];
        Execute(ops[i], free);
        free := StackStep(storage.Length0, storage.Length1, free, ops[i]);
      }
    }
  }

  /** The head of a well-formed pool is a block or the end mark. */
  lemma HeadIsFree(p: Pool, free: seq<int>)
    requires Stores(p, free)
    ensures p.head == END_OF_LIST || IsBlock(p, p.head)
  {
  }
}
