/** The allocator itself: the header struct, the readers of the region and the operations. */
module ImplicitHeap {
  import opened BlockLayout
  import opened Common

  /** The largest request whose block size fits a 32-bit `int`. */
  const MAX_REQUEST: int := 0x7FFF_FFF4

  /** The value a 32-bit two's-complement `int` takes when `n` is converted to it. */
  function ToInt32(n: int): int
  {
    var m := n % 0x1_0000_0000;
    if m < 0x8000_0000 then m else m - 0x1_0000_0000
  }

  /** Payload rounded up to whole words, plus the two tags, with C's conversions to `int`. */
  function GetSizeToAllocate(userSize: int): int
    requires 0 <= userSize < 0x1_0000_0000
  {
    var payloadSize := ToInt32((ToInt32(userSize) + (HEADER_SIZE - 1)) / HEADER_SIZE * HEADER_SIZE);
    ToInt32(payloadSize + 2 * HEADER_SIZE)
  }

  /** The computed size holds the request and its tags exactly for requests up to MAX_REQUEST. */
  lemma SizeHoldsRequest(userSize: int)
    requires 0 <= userSize < 0x1_0000_0000
    ensures GetSizeToAllocate(userSize) >= userSize + 2 * HEADER_SIZE <==> userSize <= MAX_REQUEST
    ensures userSize <= MAX_REQUEST ==>
      var s := GetSizeToAllocate(userSize);
      s % HEADER_SIZE == 0 && userSize + 2 * HEADER_SIZE <= s < userSize + 3 * HEADER_SIZE
    ensures GetSizeToAllocate(userSize) % HEADER_SIZE == 0
    ensures GetSizeToAllocate(userSize) < 2 * HEADER_SIZE <==> MAX_REQUEST < userSize < 0xFFFF_FFFD
  {
    var n := ToInt32(userSize);
    var rounded := (n + (HEADER_SIZE - 1)) / HEADER_SIZE * HEADER_SIZE;
    assert n <= rounded <= n + 3 && rounded % HEADER_SIZE == 0;
    if userSize <= MAX_REQUEST {
      assert n == userSize && ToInt32(rounded) == rounded;
    } else if userSize < 0x8000_0000 {
      assert n == userSize && rounded >= 0x7FFF_FFF8;
    } else {
      assert n == userSize - 0x1_0000_0000;
    }
  }

  /** The number of words, tags included, that a request takes. */
  function WordsNeeded(userSize: int): int
    requires 0 <= userSize < 0x1_0000_0000
  {
    GetSizeToAllocate(userSize) / HEADER_SIZE
  }

  /**
    `NoSpace`: NULL.  `Overflowed`: a block is found, but the computed size has no room for two tags, so the
    program would write its tags outside that block; what happens then is not modelled.
  */
  datatype Allocation = NoSpace | Payload(address: int) | Overflowed

  class Heap {
    const size: int
    const mem: array<int>
    ghost var blocks: Layout

    /** The blocks tile the region and carry their tags. */
    ghost predicate Tiled()
      reads this, mem
    {
      size == HEADER_SIZE * mem.Length && Represents(mem[..], blocks)
    }

    /** The invariant between calls: also, no two neighbours are both free. */
    ghost predicate Valid()
      reads this, mem
    {
      Tiled() && WellFormed(blocks, mem.Length)
    }

    /** The byte address of block `i`. */
    ghost function Address(i: nat): int
      requires i <= |blocks|
      reads this
    {
      HEADER_SIZE * Start(blocks, i)
    }

    /** Block `i` is in use and `payload` is the address its owner was given. */
    ghost predicate Owns(i: nat, payload: int)
      reads this
    {
      i < |blocks| && blocks[i].used && payload == Address(i) + HEADER_SIZE
    }

    predicate InRegion(a: int)
    {
      size == HEADER_SIZE * mem.Length && a % HEADER_SIZE == 0 && 0 <= a < size
    }

    function Load(a: int): int
      requires InRegion(a)
      reads mem
    {
      mem[a / HEADER_SIZE]
    }

    predicate BlockIsInUse(a: int)
      requires InRegion(a)
      reads mem
    {
      Load(a) % 2 == 1
    }

    function GetBlockSize(a: int): int
      requires InRegion(a)
      reads mem
    {
      Load(a) - Load(a) % HEADER_SIZE
    }

    function GetNextBlock(a: int): int
      requires InRegion(a)
      reads mem
    {
      a + GetBlockSize(a)
    }

    function GetPreviousBlock(a: int): int
      requires InRegion(a - HEADER_SIZE)
      reads mem
    {
      a - GetBlockSize(a - HEADER_SIZE)
    }

    predicate IsFirstBlock(a: int)
    {
      a == 0
    }

    predicate IsLastBlock(a: int)
      requires InRegion(a)
      reads mem
    {
      GetNextBlock(a) == size
    }

    predicate IsWithinHeapRange(a: int)
    {
      0 <= a < size
    }

    /** The readers see exactly the block that starts at the given address. */
    lemma Readers(i: nat)
      requires Tiled() && i < |blocks|
      ensures InRegion(Address(i)) && 0 <= Start(blocks, i) && Start(blocks, i) + blocks[i].size <= mem.Length
      ensures BlockIsInUse(Address(i)) == blocks[i].used
      ensures GetBlockSize(Address(i)) == HEADER_SIZE * blocks[i].size
      ensures GetNextBlock(Address(i)) == Address(i + 1)
      ensures IsFirstBlock(Address(i)) <==> i == 0
      ensures IsLastBlock(Address(i)) <==> i == |blocks| - 1
    {
      assert Tagged(mem[..], blocks, i);
      Bounds(blocks, i);
      StartMonotone(blocks, 0, i);
      StartMonotone(blocks, i + 1, |blocks|);
      StartOfLast(blocks);
    }

    /** Following the next block from the first one visits every block and ends at the end of the region. */
    lemma Ends()
      requires Tiled()
      ensures Address(0) == 0 && Address(|blocks|) == size
      ensures forall i: nat :: i < |blocks| ==>
        InRegion(Address(i)) && GetNextBlock(Address(i)) == Address(i + 1) && Address(i) < Address(i + 1)
    {
      forall i: nat | i < |blocks|
        ensures InRegion(Address(i)) && GetNextBlock(Address(i)) == Address(i + 1) && Address(i) < Address(i + 1)
      {
        Readers(i);
        StartStep(blocks, i);
      }
      StartOfLast(blocks);
    }

    /** Stepping back undoes stepping forward at every inner boundary. */
    lemma PreviousUndoesNext(i: nat)
      requires Tiled() && i + 1 < |blocks|
      ensures InRegion(Address(i)) && GetNextBlock(Address(i)) == Address(i + 1)
      ensures InRegion(Address(i + 1) - HEADER_SIZE) && InRegion(Address(i + 1))
      ensures GetPreviousBlock(Address(i + 1)) == Address(i)
    {
      Readers(i);
      Readers(i + 1);
      assert Tagged(mem[..], blocks, i);
      StartStep(blocks, i);
    }

    /** `set_block_header`: the tag goes to the first and to the last word of the block. */
    method SetBlockHeader(a: int, blockSize: int, inUse: bool)
      requires InRegion(a) && a + blockSize <= size
      requires blockSize % HEADER_SIZE == 0 && blockSize >= 2 * HEADER_SIZE
      modifies mem
      ensures mem[..] ==
        Written(old(mem[..]), a / HEADER_SIZE, blockSize / HEADER_SIZE, blockSize + if inUse then 1 else 0)
    {
      var headerValue := blockSize + if inUse then 1 else 0;
      mem[a / HEADER_SIZE] := headerValue;
      mem[(a + blockSize - HEADER_SIZE) / HEADER_SIZE] := headerValue;
    }

    /** `heap_create`: one free block that fills the region. */
    constructor (size: int)
      requires size % HEADER_SIZE == 0 && size >= 2 * HEADER_SIZE
      ensures Valid() && fresh(mem) && this.size == size
      ensures blocks == [Block(size / HEADER_SIZE, false)]
    {
      this.size := size;
      this.mem := new int[size / HEADER_SIZE];
      this.blocks := [Block(size / HEADER_SIZE, false)];
      new;
      SetBlockHeader(0, size, false);
      SingleTotal(blocks[0]);
      assert blocks[..0] == [];
      assert Tagged(mem[..], blocks, 0);
    }

    /** `coalesce`: join block `i` with the next one when both are free. */
    method Coalesce(first: int, ghost i: nat) returns (r: int)
      requires Tiled() && i < |blocks| && first == Address(i)
      modifies this, mem
      ensures Tiled() && r == first
      ensures blocks == if i + 1 < |old(blocks)| && !old(blocks)[i].used && !old(blocks)[i + 1].used
                        then Merged(old(blocks), i) else old(blocks)
      ensures LiveKept(old(mem[..]), mem[..], old(blocks))
    {
      Readers(i);
      ghost var words := mem[..];
      LiveKeptOutside(words, mem[..], blocks, i, 0);
      if !IsLastBlock(first) {
        Readers(i + 1);
        if !BlockIsInUse(first) && !BlockIsInUse(GetNextBlock(first)) {
          MergeRepresents(mem[..], blocks, i);
          SetBlockHeader(first, GetBlockSize(first) + GetBlockSize(GetNextBlock(first)), false);
          StartStep(blocks, i);
          StartStep(blocks, i + 1);
          LiveKeptOutside(words, mem[..], blocks, i, 2);
          blocks := Merged(blocks, i);
        }
      }
      r := first;
    }

    /** `set_block_header(b, get_block_size(b), in_use)`: only the in-use bit of block `i` changes. */
    method MarkBlock(blockStart: int, inUse: bool, ghost i: nat)
      requires Tiled() && i < |blocks| && blockStart == Address(i)
      modifies this, mem
      ensures Tiled() && blocks == Marked(old(blocks), i, inUse)
      ensures LiveKept(old(mem[..]), mem[..], Marked(blocks, i, false))
    {
      Readers(i);
      ghost var words, tag := mem[..], Tag(Block(blocks[i].size, inUse));
      SetBlockHeader(blockStart, GetBlockSize(blockStart), inUse);
      assert mem[..] == Written(words, Start(blocks, i), blocks[i].size, tag);
      MarkRepresents(words, blocks, i, inUse);
      MarkKeepsLive(words, blocks, i, inUse);
      blocks := Marked(blocks, i, inUse);
      assert Marked(blocks, i, false) == Marked(old(blocks), i, false);
    }

    /** Cut the free block `i` in two and mark the first part in use. */
    method SplitBlock(a: int, needed: int, ghost i: nat)
      requires Tiled() && i < |blocks| && a == Address(i) && !blocks[i].used
      requires needed % HEADER_SIZE == 0 && 2 * HEADER_SIZE <= needed <= HEADER_SIZE * (blocks[i].size - 3)
      modifies this, mem
      ensures Tiled() && blocks == Allocated(old(blocks), i, needed / HEADER_SIZE)
      ensures LiveKept(old(mem[..]), mem[..], old(blocks))
    {
      Readers(i);
      ghost var words, start, n, rest := mem[..], Start(blocks, i), needed / HEADER_SIZE,
        blocks[i].size - needed / HEADER_SIZE;
      assert (a + needed) / HEADER_SIZE == start + n && GetBlockSize(a) - needed == HEADER_SIZE * rest;
      SetBlockHeader(a + needed, GetBlockSize(a) - needed, false);
      SetBlockHeader(a, needed, true);
      SplitRepresents(words, blocks, i, n);
      AllocationKeepsLive(words, blocks, i, n);
      assert mem[..] == Written(Written(words, start + n, rest, HEADER_SIZE * rest), start, n, HEADER_SIZE * n + 1);
      blocks := Allocated(blocks, i, n);
    }

    /**
      `split_and_mark_used`: mark block `i` in use, splitting it when the rest is large enough for a
      block with payload.
    */
    method SplitAndMarkUsed(a: int, needed: int, ghost i: nat) returns (payload: int)
      requires Tiled() && i < |blocks| && a == Address(i) && !blocks[i].used
      requires needed % HEADER_SIZE == 0 && 2 * HEADER_SIZE <= needed <= HEADER_SIZE * blocks[i].size
      modifies this, mem
      ensures Tiled() && blocks == Allocated(old(blocks), i, needed / HEADER_SIZE)
      ensures payload == a + HEADER_SIZE
      ensures LiveKept(old(mem[..]), mem[..], old(blocks))
    {
      Readers(i);
      if GetBlockSize(a) - needed >= 3 * HEADER_SIZE {
        SplitBlock(a, needed, i);
      } else {
        MarkBlock(a, true, i);
        assert Marked(blocks, i, false) == old(blocks);
      }
      payload := a + HEADER_SIZE;
    }

    /** `mymalloc`, for every unsigned request: the lowest-addressed free block that fits, or nothing when none does. */
    method MyMalloc(userSize: int) returns (r: Allocation)
      requires Valid() && 0 <= userSize < 0x1_0000_0000
      modifies this, mem
      ensures Valid()
      ensures r.NoSpace? <==> forall i :: 0 <= i < |old(blocks)| ==>
        old(blocks)[i].used || HEADER_SIZE * old(blocks)[i].size < GetSizeToAllocate(userSize)
      ensures r.Overflowed? <==> !r.NoSpace? && MAX_REQUEST < userSize < 0xFFFF_FFFD
      ensures !r.Payload? ==> blocks == old(blocks) && mem[..] == old(mem[..])
      ensures r.Payload? ==> exists i: nat ::
        && i < |old(blocks)| && !old(blocks)[i].used && old(blocks)[i].size >= WordsNeeded(userSize)
        && (forall j :: 0 <= j < i ==> old(blocks)[j].used || old(blocks)[j].size < WordsNeeded(userSize))
        && blocks == Allocated(old(blocks), i, WordsNeeded(userSize))
        && Owns(i, r.address)
      ensures r.Payload? && userSize <= MAX_REQUEST ==>
        exists i: nat :: Owns(i, r.address) && HEADER_SIZE * (blocks[i].size - 2) >= userSize
      ensures LiveKept(old(mem[..]), mem[..], old(blocks))
    {
      SizeHoldsRequest(userSize);
      ghost var needed := WordsNeeded(userSize);
      var blk := 0;
      ghost var i: nat := 0;
      LiveKeptOutside(mem[..], mem[..], blocks, 0, 0);
      Ends();
      while IsWithinHeapRange(blk)
        invariant Valid() && blocks == old(blocks) && mem[..] == old(mem[..])
        invariant i <= |blocks| && blk == Address(i)
        invariant forall j :: 0 <= j < i ==> !Fits(blocks[j], needed)
        decreases |blocks| - i
      {
        assert i < |blocks| by { Ends(); }
        Readers(i);
        if !BlockIsInUse(blk) && GetBlockSize(blk) >= GetSizeToAllocate(userSize) {
          assert Fits(blocks[i], needed);
          if GetSizeToAllocate(userSize) < 2 * HEADER_SIZE {
            return Overflowed;
          }
          AllocatedPayload(blocks, i, needed);
          AllocatedWellFormed(blocks, i, needed, mem.Length);
          var p := SplitAndMarkUsed(blk, GetSizeToAllocate(userSize), i);
          assert IsFirstFit(old(blocks), needed, i) && Owns(i, p);
          return Payload(p);
        }
        blk := GetNextBlock(blk);
        i := i + 1;
      }
      if i < |blocks| { Readers(i); }
      r := NoSpace;
    }

    /** The first join of `myfree`: the free block `i` takes in a free successor. */
    method JoinNext(blockStart: int, ghost i: nat) returns (r: int)
      requires Tiled() && i < |blocks| && blockStart == Address(i) && !blocks[i].used
      modifies this, mem
      ensures Tiled() && i < |blocks| && !blocks[i].used && r == blockStart == Address(i)
      ensures blocks ==
        if i + 1 < |old(blocks)| && !old(blocks)[i + 1].used then Merged(old(blocks), i) else old(blocks)
      ensures LiveKept(old(mem[..]), mem[..], old(blocks))
    {
      Readers(i);
      r := blockStart;
      LiveKeptOutside(mem[..], mem[..], blocks, i, 0);
      if !IsLastBlock(blockStart) {
        Readers(i + 1);
        if IsWithinHeapRange(GetNextBlock(blockStart)) && !BlockIsInUse(GetNextBlock(blockStart)) {
          r := Coalesce(blockStart, i);
          assert blocks[..i] == old(blocks)[..i];
        }
      }
    }

    /** The second join of `myfree`: a free predecessor takes in the free block `i`. */
    method JoinPrevious(blockStart: int, ghost i: nat) returns (r: int)
      requires Tiled() && i < |blocks| && blockStart == Address(i) && !blocks[i].used
      modifies this, mem
      ensures Tiled()
      ensures blocks == if 0 < i && !old(blocks)[i - 1].used then Merged(old(blocks), i - 1) else old(blocks)
      ensures LiveKept(old(mem[..]), mem[..], old(blocks))
    {
      Readers(i);
      r := blockStart;
      LiveKeptOutside(mem[..], mem[..], blocks, i, 0);
      if !IsFirstBlock(blockStart) {
        PreviousUndoesNext(i - 1);
        Readers(i - 1);
        if IsWithinHeapRange(GetPreviousBlock(blockStart)) && !BlockIsInUse(GetPreviousBlock(blockStart)) {
          r := Coalesce(GetPreviousBlock(blockStart), i - 1);
        }
      }
    }

    /** `myfree`: mark the block free and join it with its free neighbours, the following one first. */
    method MyFree(payload: int)
      requires Valid() && exists i :: Owns(i, payload)
      modifies this, mem
      ensures Valid()
      ensures exists i: nat :: old(Owns(i, payload)) && blocks == Freed(old(blocks), i)
      ensures LiveKept(old(mem[..]), mem[..], blocks)
    {
      ghost var i: nat :| Owns(i, payload);
      ghost var before, w0 := blocks, mem[..];
      var blockStart := payload - HEADER_SIZE;
      MarkBlock(blockStart, false, i);
      ghost var marked, w1 := blocks, mem[..];
      assert Marked(marked, i, false) == marked;
      blockStart := JoinNext(blockStart, i);
      ghost var right, w2 := blocks, mem[..];
      blockStart := JoinPrevious(blockStart, i);
      assert old(Owns(i, payload)) && blocks == Freed(before, i);
      FreedCoalesced(before, i);
      FreedTotal(before, i);
      JoinedLive(marked, i);
      LiveKeptTrans(w0, w1, w2, marked, right);
      LiveKeptTrans(w0, w2, mem[..], right, blocks);
    }

    /** A client's write inside a live payload: the structure later calls walk is untouched. */
    method ClientWrite(a: int, value: int)
      requires Valid() && a % HEADER_SIZE == 0 && InLivePayload(blocks, a / HEADER_SIZE)
      modifies mem
      ensures Valid() && blocks == old(blocks) && 0 <= a / HEADER_SIZE < mem.Length
      ensures mem[..] == old(mem[..])[a / HEADER_SIZE := value]
    {
      LivePayloadsCarryNoTags(mem[..], blocks, a / HEADER_SIZE, value);
      mem[a / HEADER_SIZE] := value;
    }
  }
}
