/**
  The implicit free-list allocator with boundary tags (a5/5.5/implicit.c).

  The heap region is an array of 4-byte words.  A ghost sequence of blocks, measured in words, says
  what the words mean: `BlockLayout` holds the laws of that sequence, and the class `Heap` of
  `ImplicitHeap`, whose addresses are byte offsets from `h->start` as in the program, keeps the words
  equal to it.
*/
module BlockLayout {
  import opened Runs

  /** A block of `size` words, its two tags included. */
  datatype Block = Block(size: int, used: bool)

  type Layout = seq<Block>

  /** The number of words in all the blocks. */
  ghost function Total(bs: Layout): int
  {
    if bs == [] then 0 else Total(bs[..|bs| - 1]) + bs[|bs| - 1].size
  }

  /** The word at which block `i` starts. */
  ghost function Start(bs: Layout, i: nat): int
    requires i <= |bs|
  {
    Total(bs[..i])
  }

  /** Every block has room for both tags. */
  ghost predicate WellSized(bs: Layout)
  {
    forall i :: 0 <= i < |bs| ==> bs[i].size >= 2
  }

  /** Blocks `i - 1` and `i` are not both free. */
  ghost predicate Separated(bs: Layout, i: nat)
    requires 0 < i < |bs|
  {
    bs[i - 1].used || bs[i].used
  }

  ghost predicate Coalesced(bs: Layout)
  {
    forall i :: 0 < i < |bs| ==> Separated(bs, i)
  }

  /** Word `a` belongs to the payload of a block in use. */
  ghost predicate InLivePayload(bs: Layout, a: int)
  {
    exists i :: 0 <= i < |bs| && bs[i].used && InPayload(bs, i, a)
  }

  ghost predicate InPayload(bs: Layout, i: nat, a: int)
    requires i < |bs|
  {
    Start(bs, i) < a < Start(bs, i) + bs[i].size - 1
  }

  // ---------- the four things the allocator does to a layout ----------

  /** Blocks `i` and `i + 1` become one free block. */
  ghost function Merged(bs: Layout, i: nat): Layout
    requires i + 1 < |bs|
  {
    bs[..i] + [Block(bs[i].size + bs[i + 1].size, false)] + bs[i + 2..]
  }

  ghost function Split(bs: Layout, i: nat, needed: int): Layout
    requires i < |bs|
  {
    bs[..i] + [Block(needed, false), Block(bs[i].size - needed, false)] + bs[i + 1..]
  }

  ghost function Marked(bs: Layout, i: nat, used: bool): Layout
    requires i < |bs|
  {
    bs[i := Block(bs[i].size, used)]
  }

  /** The free blocks around the free block `i` are joined to it, the following one first. */
  ghost function JoinedAround(bs: Layout, i: nat): Layout
    requires i < |bs|
  {
    var right := if i + 1 < |bs| && !bs[i + 1].used then Merged(bs, i) else bs;
    if 0 < i && !right[i - 1].used then Merged(right, i - 1) else right
  }

  /** What freeing block `i` leaves. */
  ghost function Freed(bs: Layout, i: nat): Layout
    requires i < |bs|
  {
    JoinedAround(Marked(bs, i, false), i)
  }

  /** What allocating `needed` words in block `i` leaves. */
  ghost function Allocated(bs: Layout, i: nat, needed: int): Layout
    requires i < |bs|
  {
    if bs[i].size - needed >= 3 then Marked(Split(bs, i, needed), i, true) else Marked(bs, i, true)
  }

  ghost predicate Fits(b: Block, needed: int)
  {
    !b.used && b.size >= needed
  }

  /** `i` is the lowest-addressed free block of at least `needed` words. */
  ghost predicate IsFirstFit(bs: Layout, needed: int, i: nat)
  {
    i < |bs| && Fits(bs[i], needed) && forall j :: 0 <= j < i ==> !Fits(bs[j], needed)
  }

  // ---------- addresses ----------

  lemma {:induction false} TotalAppend(a: Layout, b: Layout)
    ensures Total(a + b) == Total(a) + Total(b)
  {
    if b == [] {
      assert a + b == a;
    } else {
      TotalAppend(a, b[..|b| - 1]);
      assert (a + b)[..|a + b| - 1] == a + b[..|b| - 1];
    }
  }

  lemma StartStep(bs: Layout, i: nat)
    requires i < |bs|
    ensures Start(bs, i + 1) == Start(bs, i) + bs[i].size
  {
    assert bs[..i + 1][..i] == bs[..i];
  }

  lemma StartOfLast(bs: Layout)
    ensures Start(bs, |bs|) == Total(bs)
  {
    assert bs[..|bs|] == bs;
  }

  /** Blocks start at least two words apart. */
  lemma {:induction false} StartMonotone(bs: Layout, i: nat, j: nat)
    requires WellSized(bs) && i <= j <= |bs|
    ensures Start(bs, i) >= 0
    ensures Start(bs, j) >= Start(bs, i) + 2 * (j - i)
    decreases j
  {
    if j == 0 {
    } else if i == j {
      StartStep(bs, j - 1);
      StartMonotone(bs, j - 1, j - 1);
    } else {
      StartStep(bs, j - 1);
      StartMonotone(bs, i, j - 1);
    }
  }

  lemma Bounds(bs: Layout, i: nat)
    requires WellSized(bs) && i < |bs|
    ensures 0 <= Start(bs, i) < Start(bs, i) + bs[i].size <= Total(bs)
    ensures Start(bs, i + 1) == Start(bs, i) + bs[i].size
  {
    StartMonotone(bs, i, i);
    StartMonotone(bs, i + 1, |bs|);
    StartStep(bs, i);
    StartOfLast(bs);
  }

  /** Different blocks occupy different words. */
  lemma Apart(bs: Layout, i: nat, j: nat)
    requires WellSized(bs) && i < |bs| && j < |bs| && i != j
    ensures Start(bs, j) + bs[j].size <= Start(bs, i) || Start(bs, i) + bs[i].size <= Start(bs, j)
  {
    StartStep(bs, i);
    StartStep(bs, j);
    if i < j { StartMonotone(bs, i + 1, j); } else { StartMonotone(bs, j + 1, i); }
  }

  // ---------- what the words say ----------

  const HEADER_SIZE: int := 4

  /** The tag of a block: its size in bytes and, in the last bit, whether it is in use. */
  function Tag(b: Block): int
  {
    HEADER_SIZE * b.size + if b.used then 1 else 0
  }

  ghost predicate Tagged(words: seq<int>, bs: Layout, i: nat)
    requires i < |bs|
  {
    var first, last := Start(bs, i), Start(bs, i) + bs[i].size - 1;
    0 <= first < |words| && 0 <= last < |words| && words[first] == words[last] == Tag(bs[i])
  }

  /** The blocks tile the region exactly and each carries its tag at both ends. */
  ghost predicate Represents(words: seq<int>, bs: Layout)
  {
    && WellSized(bs)
    && Total(bs) == |words|
    && forall i :: 0 <= i < |bs| ==> Tagged(words, bs, i)
  }

  ghost function Replaced(bs: Layout, i: nat, k: nat, mid: Layout): Layout
    requires i + k <= |bs|
  {
    bs[..i] + mid + bs[i + k..]
  }

  /** Replacing blocks `i..i+k` by others of the same total size moves no other block. */
  lemma ReplacedStarts(bs: Layout, i: nat, k: nat, mid: Layout, j: nat)
    requires i + k <= |bs| && Start(bs, i) + Total(mid) == Start(bs, i + k)
    requires j <= |Replaced(bs, i, k, mid)|
    ensures j <= i ==> Start(Replaced(bs, i, k, mid), j) == Start(bs, j)
    ensures i <= j <= i + |mid| ==> Start(Replaced(bs, i, k, mid), j) == Start(bs, i) + Total(mid[..j - i])
    ensures j >= i + |mid| ==> Start(Replaced(bs, i, k, mid), j) == Start(bs, j - |mid| + k)
  {
    var r := Replaced(bs, i, k, mid);
    if j <= i {
      assert r[..j] == bs[..j];
    }
    if i <= j <= i + |mid| {
      assert r[..j] == bs[..i] + mid[..j - i];
      TotalAppend(bs[..i], mid[..j - i]);
    }
    if j >= i + |mid| {
      var tail := bs[i + k..j - |mid| + k];
      assert r[..j] == bs[..i] + mid + tail;
      TotalAppend(bs[..i] + mid, tail);
      TotalAppend(bs[..i], mid);
      assert bs[..j - |mid| + k] == bs[..i + k] + tail;
      TotalAppend(bs[..i + k], tail);
    }
  }

  /** Only the words of blocks `i..i+k` changed, and they now carry the tags of `mid`. */
  ghost predicate Rewritten(words: seq<int>, words': seq<int>, bs: Layout, i: nat, k: nat, mid: Layout)
    requires i + k <= |bs|
  {
    && |words'| == |words|
    && (forall w :: 0 <= w < |words| && !(Start(bs, i) <= w < Start(bs, i + k)) ==> words'[w] == words[w])
    && forall m :: i <= m < i + |mid| ==> Tagged(words', Replaced(bs, i, k, mid), m)
  }

  /** A block outside the rewritten range keeps its tags. */
  lemma StillTagged(words: seq<int>, words': seq<int>, bs: Layout, i: nat, k: nat, mid: Layout, j: nat, o: nat)
    requires WellSized(bs) && i + k <= |bs| && Rewritten(words, words', bs, i, k, mid)
    requires o < |bs| && (o < i || i + k <= o) && Tagged(words, bs, o)
    requires j < |Replaced(bs, i, k, mid)| && Replaced(bs, i, k, mid)[j] == bs[o]
    requires Start(Replaced(bs, i, k, mid), j) == Start(bs, o)
    ensures Tagged(words', Replaced(bs, i, k, mid), j)
  {
    Bounds(bs, o);
    if o < i { StartMonotone(bs, o + 1, i); } else { StartMonotone(bs, i + k, o); }
  }

  lemma RewrittenTagged(words: seq<int>, words': seq<int>, bs: Layout, i: nat, k: nat, mid: Layout, j: nat)
    requires Represents(words, bs) && i + k <= |bs| && Start(bs, i) + Total(mid) == Start(bs, i + k)
    requires Rewritten(words, words', bs, i, k, mid) && j < |Replaced(bs, i, k, mid)|
    ensures Tagged(words', Replaced(bs, i, k, mid), j)
  {
    ReplacedStarts(bs, i, k, mid, j);
    if j < i {
      StillTagged(words, words', bs, i, k, mid, j, j);
    } else if j >= i + |mid| {
      StillTagged(words, words', bs, i, k, mid, j, j - |mid| + k);
    }
  }

  lemma ReplacedTotal(bs: Layout, i: nat, k: nat, mid: Layout)
    requires i + k <= |bs| && Start(bs, i) + Total(mid) == Start(bs, i + k)
    ensures Total(Replaced(bs, i, k, mid)) == Total(bs)
  {
    var r := Replaced(bs, i, k, mid);
    ReplacedStarts(bs, i, k, mid, |r|);
    StartOfLast(r);
    StartOfLast(bs);
  }

  lemma RewrittenRepresents(words: seq<int>, words': seq<int>, bs: Layout, i: nat, k: nat, mid: Layout)
    requires Represents(words, bs) && WellSized(mid)
    requires i + k <= |bs| && Start(bs, i) + Total(mid) == Start(bs, i + k)
    requires Rewritten(words, words', bs, i, k, mid)
    ensures Represents(words', Replaced(bs, i, k, mid))
  {
    var r := Replaced(bs, i, k, mid);
    ReplacedTotal(bs, i, k, mid);
    forall j | 0 <= j < |r|
      ensures Tagged(words', r, j)
    {
      RewrittenTagged(words, words', bs, i, k, mid, j);
    }
  }

  // ---------- rewriting the tags of one block ----------

  /** What `set_block_header` leaves: `v` in the first and in the last word of the block. */
  ghost function Written(words: seq<int>, a: int, size: int, v: int): seq<int>
    requires 0 <= a < |words| && 0 <= a + size - 1 < |words|
  {
    words[a := v][a + size - 1 := v]
  }

  /** One header write turns blocks `i..i+k` into the single block `b` of the same total size. */
  lemma WriteRepresents(words: seq<int>, bs: Layout, i: nat, k: nat, b: Block)
    requires Represents(words, bs) && i + k <= |bs| && 0 < k
    requires b.size >= 2 && Start(bs, i) + b.size == Start(bs, i + k)
    ensures 0 <= Start(bs, i) && Start(bs, i) + b.size <= |words|
    ensures Represents(Written(words, Start(bs, i), b.size, Tag(b)), Replaced(bs, i, k, [b]))
  {
    Bounds(bs, i);
    Bounds(bs, i + k - 1);
    var words' := Written(words, Start(bs, i), b.size, Tag(b));
    assert Total([b]) == b.size by { assert [b][..0] == []; }
    assert Tagged(words', Replaced(bs, i, k, [b]), i) by { ReplacedStarts(bs, i, k, [b], i); }
    assert Rewritten(words, words', bs, i, k, [b]);
    RewrittenRepresents(words, words', bs, i, k, [b]);
  }

  lemma MarkRepresents(words: seq<int>, bs: Layout, i: nat, used: bool)
    requires Represents(words, bs) && i < |bs|
    ensures Tagged(words, bs, i)
    ensures Represents(Written(words, Start(bs, i), bs[i].size, Tag(Block(bs[i].size, used))), Marked(bs, i, used))
  {
    assert Tagged(words, bs, i);
    StartStep(bs, i);
    assert Replaced(bs, i, 1, [Block(bs[i].size, used)]) == Marked(bs, i, used);
    WriteRepresents(words, bs, i, 1, Block(bs[i].size, used));
  }

  lemma MergeRepresents(words: seq<int>, bs: Layout, i: nat)
    requires Represents(words, bs) && i + 1 < |bs|
    ensures 0 <= Start(bs, i)
    ensures Start(bs, i) + bs[i].size + bs[i + 1].size <= |words|
    ensures var size := bs[i].size + bs[i + 1].size;
      Represents(Written(words, Start(bs, i), size, HEADER_SIZE * size), Merged(bs, i))
  {
    StartStep(bs, i);
    StartStep(bs, i + 1);
    var b := Block(bs[i].size + bs[i + 1].size, false);
    assert Replaced(bs, i, 2, [b]) == Merged(bs, i);
    WriteRepresents(words, bs, i, 2, b);
  }

  lemma TwoBlocks(mid: Layout)
    requires |mid| == 2
    ensures Total(mid[..0]) == 0 && Total(mid[..1]) == mid[0].size && Total(mid) == mid[0].size + mid[1].size
  {
    assert mid[..1][..0] == [] && mid[..1][0] == mid[0];
  }

  /** The two header writes of a split touch only block `i`, and tag its two parts. */
  lemma SplitRewritten(words: seq<int>, bs: Layout, i: nat, needed: int)
    requires Represents(words, bs) && i < |bs|
    requires 2 <= needed && bs[i].size - needed >= 2
    requires 0 <= Start(bs, i) && Start(bs, i) + bs[i].size <= |words|
    ensures var a, rest := Start(bs, i), bs[i].size - needed;
      Rewritten(words,
        Written(Written(words, a + needed, rest, HEADER_SIZE * rest), a, needed, HEADER_SIZE * needed + 1),
        bs, i, 1, [Block(needed, true), Block(rest, false)])
  {
    var mid := [Block(needed, true), Block(bs[i].size - needed, false)];
    TwoBlocks(mid);
    StartStep(bs, i);
    ReplacedStarts(bs, i, 1, mid, i);
    ReplacedStarts(bs, i, 1, mid, i + 1);
  }

  lemma SplitRepresents(words: seq<int>, bs: Layout, i: nat, needed: int)
    requires Represents(words, bs) && i < |bs|
    requires 2 <= needed && bs[i].size - needed >= 2
    ensures 0 <= Start(bs, i) && Start(bs, i) + bs[i].size <= |words|
    ensures var a, rest := Start(bs, i), bs[i].size - needed;
      Represents(Written(Written(words, a + needed, rest, HEADER_SIZE * rest), a, needed, HEADER_SIZE * needed + 1),
        Marked(Split(bs, i, needed), i, true))
  {
    Bounds(bs, i);
    var a, rest := Start(bs, i), bs[i].size - needed;
    var words' := Written(Written(words, a + needed, rest, HEADER_SIZE * rest), a, needed, HEADER_SIZE * needed + 1);
    var mid := [Block(needed, true), Block(rest, false)];
    assert Replaced(bs, i, 1, mid) == Marked(Split(bs, i, needed), i, true);
    TwoBlocks(mid);
    StartStep(bs, i);
    SplitRewritten(words, bs, i, needed);
    RewrittenRepresents(words, words', bs, i, 1, mid);
  }

  // ---------- live payloads ----------

  /** The words of every live payload of `bs` are the same in `words'` as in `words`. */
  ghost predicate LiveKept(words: seq<int>, words': seq<int>, bs: Layout)
  {
    && |words| == |words'|
    && forall a :: InLivePayload(bs, a) ==>
      0 <= a < |words| && words'[a] == words[a]
  }

  lemma PayloadOutside(bs: Layout, i: nat, k: nat, a: int, j: nat)
    requires WellSized(bs) && i + k <= |bs| && j < |bs| && InPayload(bs, j, a) && (j < i || i + k <= j)
    ensures 0 <= a < Total(bs) && !(Start(bs, i) <= a < Start(bs, i + k))
  {
    Bounds(bs, j);
    if j < i { StartMonotone(bs, j + 1, i); } else { StartMonotone(bs, i + k, j); }
  }

  /** A live payload lies outside blocks `i..i+k` when those are free. */
  lemma LiveOutside(bs: Layout, i: nat, k: nat, a: int)
    requires WellSized(bs) && i + k <= |bs| && InLivePayload(bs, a)
    requires forall m :: i <= m < i + k ==> !bs[m].used
    ensures 0 <= a < Total(bs) && !(Start(bs, i) <= a < Start(bs, i + k))
  {
    var j: nat :| j < |bs| && bs[j].used && InPayload(bs, j, a);
    assert !(i <= j < i + k);
    PayloadOutside(bs, i, k, a, j);
  }

  lemma LiveKeptOutside(words: seq<int>, words': seq<int>, bs: Layout, i: nat, k: nat)
    requires WellSized(bs) && i + k <= |bs| && |words| == |words'| && Total(bs) == |words|
    requires forall m :: i <= m < i + k ==> !bs[m].used
    requires forall w :: 0 <= w < |words| && !(Start(bs, i) <= w < Start(bs, i + k)) ==> words'[w] == words[w]
    ensures LiveKept(words, words', bs)
  {
    forall a | InLivePayload(bs, a)
      ensures 0 <= a < |words| && words'[a] == words[a]
    {
      LiveOutside(bs, i, k, a);
    }
  }

  /** Rewriting the tags of block `i` keeps the payloads of all other live blocks. */
  lemma MarkKeepsLive(words: seq<int>, bs: Layout, i: nat, used: bool)
    requires Represents(words, bs) && i < |bs|
    requires 0 <= Start(bs, i) && Start(bs, i) + bs[i].size <= |words|
    ensures LiveKept(words, Written(words, Start(bs, i), bs[i].size, Tag(Block(bs[i].size, used))),
      Marked(bs, i, false))
  {
    var free := Marked(bs, i, false);
    MarkRepresents(words, bs, i, false);
    Bounds(free, i);
    assert free[..i] == bs[..i];
    LiveKeptOutside(words, Written(words, Start(bs, i), bs[i].size, Tag(Block(bs[i].size, used))), free, i, 1);
  }

  lemma ReplacedPayload(bs: Layout, i: nat, k: nat, mid: Layout, a: int, j: nat)
    requires i + k <= |bs| && Start(bs, i) + Total(mid) == Start(bs, i + k)
    requires j < |Replaced(bs, i, k, mid)|
    ensures j < i ==> InPayload(Replaced(bs, i, k, mid), j, a) == InPayload(bs, j, a)
    ensures j >= i + |mid| ==> InPayload(Replaced(bs, i, k, mid), j, a) == InPayload(bs, j - |mid| + k, a)
  {
    ReplacedStarts(bs, i, k, mid, j);
  }

  lemma LiveKeptTrans(w0: seq<int>, w1: seq<int>, w2: seq<int>, bs: Layout, bs': Layout)
    requires LiveKept(w0, w1, bs) && LiveKept(w1, w2, bs')
    requires forall a :: InLivePayload(bs', a) ==> InLivePayload(bs, a)
    ensures LiveKept(w0, w2, bs')
  {
  }

  /** Joining neighbours that are free changes no live payload. */
  lemma JoinedLive(bs: Layout, i: nat)
    requires i < |bs| && !bs[i].used
    ensures var right := if i + 1 < |bs| && !bs[i + 1].used then Merged(bs, i) else bs;
      && (forall a :: InLivePayload(right, a) ==> InLivePayload(bs, a))
      && i < |right| && !right[i].used
      && forall a :: InLivePayload(JoinedAround(bs, i), a) ==> InLivePayload(right, a)
  {
    var right := if i + 1 < |bs| && !bs[i + 1].used then Merged(bs, i) else bs;
    forall a
      ensures InLivePayload(right, a) ==> InLivePayload(bs, a)
      ensures InLivePayload(JoinedAround(bs, i), a) ==> InLivePayload(right, a)
    {
      if i + 1 < |bs| && !bs[i + 1].used { MergedLive(bs, i, a); }
      if 0 < i && !right[i - 1].used { MergedLive(right, i - 1, a); }
    }
  }

  /** Allocating in the free block `i` writes no live payload. */
  lemma AllocationKeepsLive(words: seq<int>, bs: Layout, i: nat, needed: int)
    requires Represents(words, bs) && i < |bs| && !bs[i].used && 2 <= needed
    ensures 0 <= Start(bs, i) && Start(bs, i) + bs[i].size <= |words|
    ensures var a, rest := Start(bs, i), bs[i].size - needed;
      && (rest >= 2 ==> LiveKept(words,
        Written(Written(words, a + needed, rest, HEADER_SIZE * rest), a, needed, HEADER_SIZE * needed + 1), bs))
      && LiveKept(words, Written(words, a, bs[i].size, HEADER_SIZE * bs[i].size + 1), bs)
  {
    Bounds(bs, i);
    var a, rest := Start(bs, i), bs[i].size - needed;
    LiveKeptOutside(words, Written(words, a, bs[i].size, HEADER_SIZE * bs[i].size + 1), bs, i, 1);
    if rest >= 2 {
      LiveKeptOutside(words,
        Written(Written(words, a + needed, rest, HEADER_SIZE * rest), a, needed, HEADER_SIZE * needed + 1), bs, i, 1);
    }
  }

  /** Replacing blocks keeps every live payload outside them ... */
  lemma LiveStays(bs: Layout, i: nat, k: nat, mid: Layout, a: int, j: nat)
    requires i + k <= |bs| && Start(bs, i) + Total(mid) == Start(bs, i + k)
    requires j < |bs| && (j < i || i + k <= j) && bs[j].used && InPayload(bs, j, a)
    ensures InLivePayload(Replaced(bs, i, k, mid), a)
  {
    var n := if j < i then j else j - k + |mid|;
    ReplacedPayload(bs, i, k, mid, a, n);
    assert Replaced(bs, i, k, mid)[n] == bs[j];
  }

  /** ... and adds only those of the new blocks. */
  lemma LiveComesFrom(bs: Layout, i: nat, k: nat, mid: Layout, a: int) returns (n: nat)
    requires i + k <= |bs| && Start(bs, i) + Total(mid) == Start(bs, i + k)
    requires InLivePayload(Replaced(bs, i, k, mid), a)
    ensures n < |Replaced(bs, i, k, mid)| && Replaced(bs, i, k, mid)[n].used && InPayload(Replaced(bs, i, k, mid), n, a)
    ensures n < i ==> bs[n].used && InPayload(bs, n, a)
    ensures n >= i + |mid| ==> bs[n - |mid| + k].used && InPayload(bs, n - |mid| + k, a)
  {
    var r := Replaced(bs, i, k, mid);
    n :| 0 <= n < |r| && r[n].used && InPayload(r, n, a);
    ReplacedPayload(bs, i, k, mid, a, n);
  }

  lemma SingleTotal(b: Block)
    ensures Total([b]) == b.size
  {
    assert [b][..0] == [];
  }

  lemma MergedLive(bs: Layout, i: nat, a: int)
    requires i + 1 < |bs| && !bs[i].used && !bs[i + 1].used
    ensures InLivePayload(Merged(bs, i), a) <==> InLivePayload(bs, a)
  {
    var b := Block(bs[i].size + bs[i + 1].size, false);
    assert Merged(bs, i) == Replaced(bs, i, 2, [b]);
    SingleTotal(b);
    StartStep(bs, i);
    StartStep(bs, i + 1);
    if InLivePayload(bs, a) {
      var j :| 0 <= j < |bs| && bs[j].used && InPayload(bs, j, a);
      LiveStays(bs, i, 2, [b], a, j);
    }
    if InLivePayload(Merged(bs, i), a) {
      var n := LiveComesFrom(bs, i, 2, [b], a);
    }
  }

  lemma MarkedFreeLive(bs: Layout, i: nat, a: int)
    requires WellSized(bs) && i < |bs| && bs[i].used
    ensures InLivePayload(Marked(bs, i, false), a) <==> InLivePayload(bs, a) && !InPayload(bs, i, a)
  {
    var b := Block(bs[i].size, false);
    assert Marked(bs, i, false) == Replaced(bs, i, 1, [b]);
    SingleTotal(b);
    StartStep(bs, i);
    if InLivePayload(bs, a) && !InPayload(bs, i, a) {
      var j :| 0 <= j < |bs| && bs[j].used && InPayload(bs, j, a);
      LiveStays(bs, i, 1, [b], a, j);
    }
    if InLivePayload(Marked(bs, i, false), a) {
      var n := LiveComesFrom(bs, i, 1, [b], a);
      assert n != i;
      Apart(bs, i, n);
    }
  }

  /** After freeing block `i` the live payloads are the old ones without that of block `i`. */
  lemma FreedLive(bs: Layout, i: nat, a: int)
    requires WellSized(bs) && i < |bs| && bs[i].used
    ensures InLivePayload(Freed(bs, i), a) <==> InLivePayload(bs, a) && !InPayload(bs, i, a)
  {
    MarkedFreeLive(bs, i, a);
    var m := Marked(bs, i, false);
    if i + 1 < |m| && !m[i + 1].used { MergedLive(m, i, a); }
    var right := if i + 1 < |m| && !m[i + 1].used then Merged(m, i) else m;
    if 0 < i && !right[i - 1].used { MergedLive(right, i - 1, a); }
  }

  /** The allocated block as `Replaced` sees it. */
  ghost function Carved(bs: Layout, i: nat, needed: int): Layout
    requires i < |bs|
  {
    if bs[i].size - needed >= 3 then [Block(needed, true), Block(bs[i].size - needed, false)]
    else [Block(bs[i].size, true)]
  }

  lemma AllocatedIsReplaced(bs: Layout, i: nat, needed: int)
    requires i < |bs|
    ensures Allocated(bs, i, needed) == Replaced(bs, i, 1, Carved(bs, i, needed))
    ensures Start(bs, i) + Total(Carved(bs, i, needed)) == Start(bs, i + 1)
  {
    var mid := Carved(bs, i, needed);
    StartStep(bs, i);
    SingleTotal(mid[0]);
    if |mid| == 2 { assert mid[..1] == [mid[0]]; }
  }

  /**
    The new block starts where block `i` did, its payload holds the request and is disjoint from
    every payload that was live, no other payload changes status, and less than three words are spare.
  */
  lemma AllocatedPayload(bs: Layout, i: nat, needed: int)
    requires WellSized(bs) && i < |bs| && Fits(bs[i], needed)
    ensures var r := Allocated(bs, i, needed);
      && i < |r| && r[i].used && Start(r, i) == Start(bs, i)
      && needed <= r[i].size < needed + 3
      && (forall a :: InLivePayload(r, a) <==> InLivePayload(bs, a) || InPayload(r, i, a))
      && forall a :: !(InLivePayload(bs, a) && InPayload(r, i, a))
  {
    var r, mid := Allocated(bs, i, needed), Carved(bs, i, needed);
    AllocatedIsReplaced(bs, i, needed);
    ReplacedStarts(bs, i, 1, mid, i);
    StartStep(bs, i);
    forall a
      ensures InLivePayload(r, a) <==> InLivePayload(bs, a) || InPayload(r, i, a)
      ensures !(InLivePayload(bs, a) && InPayload(r, i, a))
    {
      if InLivePayload(bs, a) {
        LiveOutside(bs, i, 1, a);
        var j :| 0 <= j < |bs| && bs[j].used && InPayload(bs, j, a);
        LiveStays(bs, i, 1, mid, a, j);
      }
      if InLivePayload(r, a) {
        var n := LiveComesFrom(bs, i, 1, mid, a);
      }
    }
  }

  // ---------- blocks in use ----------

  ghost predicate IsUsedAt(bs: Layout, k: nat, start: int, size: int)
    requires k < |bs|
  {
    bs[k].used && Start(bs, k) == start && bs[k].size == size
  }

  /** A block in use of that many words starts at that word; its payload may be empty. */
  ghost predicate IsLiveBlock(bs: Layout, start: int, size: int)
  {
    exists k: nat :: k < |bs| && IsUsedAt(bs, k, start, size)
  }

  /** Replacing blocks by others of the same total size keeps all blocks in use outside them ... */
  lemma BlockStays(bs: Layout, i: nat, k: nat, mid: Layout, j: nat)
    requires i + k <= |bs| && Start(bs, i) + Total(mid) == Start(bs, i + k)
    requires j < |bs| && (j < i || i + k <= j) && bs[j].used
    ensures IsLiveBlock(Replaced(bs, i, k, mid), Start(bs, j), bs[j].size)
  {
    var n := if j < i then j else j - k + |mid|;
    ReplacedStarts(bs, i, k, mid, n);
    assert IsUsedAt(Replaced(bs, i, k, mid), n, Start(bs, j), bs[j].size);
  }

  /** ... and adds only those of the new blocks. */
  lemma BlockComesFrom(bs: Layout, i: nat, k: nat, mid: Layout, start: int, size: int) returns (m: nat)
    requires i + k <= |bs| && Start(bs, i) + Total(mid) == Start(bs, i + k)
    requires IsLiveBlock(Replaced(bs, i, k, mid), start, size)
    ensures m < |Replaced(bs, i, k, mid)| && IsUsedAt(Replaced(bs, i, k, mid), m, start, size)
    ensures m < i ==> IsUsedAt(bs, m, start, size)
    ensures m >= i + |mid| ==> IsUsedAt(bs, m - |mid| + k, start, size)
  {
    var r := Replaced(bs, i, k, mid);
    m :| m < |r| && IsUsedAt(r, m, start, size);
    ReplacedStarts(bs, i, k, mid, m);
  }

  lemma MergedBlocks(bs: Layout, i: nat, start: int, size: int)
    requires i + 1 < |bs| && !bs[i].used && !bs[i + 1].used
    ensures IsLiveBlock(Merged(bs, i), start, size) <==> IsLiveBlock(bs, start, size)
  {
    var b := Block(bs[i].size + bs[i + 1].size, false);
    assert Merged(bs, i) == Replaced(bs, i, 2, [b]);
    SingleTotal(b);
    StartStep(bs, i);
    StartStep(bs, i + 1);
    if IsLiveBlock(bs, start, size) {
      var j: nat :| j < |bs| && IsUsedAt(bs, j, start, size);
      BlockStays(bs, i, 2, [b], j);
    }
    if IsLiveBlock(Merged(bs, i), start, size) {
      var m := BlockComesFrom(bs, i, 2, [b], start, size);
    }
  }

  lemma MarkedFreeBlocks(bs: Layout, i: nat, start: int, size: int)
    requires WellSized(bs) && i < |bs|
    ensures IsLiveBlock(Marked(bs, i, false), start, size) <==> IsLiveBlock(bs, start, size) && start != Start(bs, i)
  {
    var b := Block(bs[i].size, false);
    assert Marked(bs, i, false) == Replaced(bs, i, 1, [b]);
    SingleTotal(b);
    StartStep(bs, i);
    if IsLiveBlock(bs, start, size) && start != Start(bs, i) {
      var j: nat :| j < |bs| && IsUsedAt(bs, j, start, size);
      BlockStays(bs, i, 1, [b], j);
    }
    if IsLiveBlock(Marked(bs, i, false), start, size) {
      var m := BlockComesFrom(bs, i, 1, [b], start, size);
      assert m != i;
      Apart(bs, i, m);
    }
  }

  /** Freeing block `i` ends that block, and every other block in use keeps its place and its size. */
  lemma FreedBlocks(bs: Layout, i: nat, start: int, size: int)
    requires WellSized(bs) && i < |bs| && bs[i].used
    ensures IsLiveBlock(Freed(bs, i), start, size) <==> IsLiveBlock(bs, start, size) && start != Start(bs, i)
  {
    MarkedFreeBlocks(bs, i, start, size);
    var m := Marked(bs, i, false);
    if i + 1 < |m| && !m[i + 1].used { MergedBlocks(m, i, start, size); }
    var right := if i + 1 < |m| && !m[i + 1].used then Merged(m, i) else m;
    if 0 < i && !right[i - 1].used { MergedBlocks(right, i - 1, start, size); }
  }

  /**
    Allocating in the free block `i` adds one block in use, and every other keeps its place and its size.  What is
    left becomes a free block of its own exactly when it has room for two tags and a word of payload.
  */
  lemma AllocatedBlocks(bs: Layout, i: nat, needed: int, start: int, size: int)
    requires WellSized(bs) && i < |bs| && !bs[i].used
    ensures var r, taken := Allocated(bs, i, needed), if bs[i].size >= needed + 3 then needed else bs[i].size;
      && (IsLiveBlock(r, start, size) <==>
          IsLiveBlock(bs, start, size) || (start == Start(bs, i) && size == taken))
      && |r| == |bs| + (if bs[i].size >= needed + 3 then 1 else 0)
      && (bs[i].size >= needed + 3 ==> r[i + 1] == Block(bs[i].size - needed, false))
  {
    var r, mid := Allocated(bs, i, needed), Carved(bs, i, needed);
    AllocatedIsReplaced(bs, i, needed);
    ReplacedStarts(bs, i, 1, mid, i);
    if IsLiveBlock(bs, start, size) {
      var j: nat :| j < |bs| && IsUsedAt(bs, j, start, size);
      BlockStays(bs, i, 1, mid, j);
    }
    if start == Start(bs, i) && size == r[i].size { assert IsUsedAt(r, i, start, size); }
    if IsLiveBlock(r, start, size) {
      var m := BlockComesFrom(bs, i, 1, mid, start, size);
    }
  }

  /** No word of a live payload carries a tag, so overwriting it changes no block. */
  lemma LivePayloadsCarryNoTags(words: seq<int>, bs: Layout, a: int, value: int)
    requires Represents(words, bs) && InLivePayload(bs, a)
    ensures 0 <= a < |words| && Represents(words[a := value], bs)
  {
    var i :| 0 <= i < |bs| && bs[i].used && InPayload(bs, i, a);
    Bounds(bs, i);
    var words' := words[a := value];
    forall j | 0 <= j < |bs|
      ensures Tagged(words', bs, j)
    {
      assert Tagged(words, bs, j);
      if j != i { Apart(bs, i, j); }
    }
  }

  // ---------- every run of the allocator ----------

  ghost predicate WellFormed(bs: Layout, total: int)
  {
    bs != [] && WellSized(bs) && Coalesced(bs) && Total(bs) == total
  }

  lemma MergedTotal(bs: Layout, i: nat)
    requires i + 1 < |bs| && WellSized(bs)
    ensures Total(Merged(bs, i)) == Total(bs) && WellSized(Merged(bs, i))
  {
    var b := Block(bs[i].size + bs[i + 1].size, false);
    assert Merged(bs, i) == Replaced(bs, i, 2, [b]);
    SingleTotal(b);
    StartStep(bs, i);
    StartStep(bs, i + 1);
    ReplacedTotal(bs, i, 2, [b]);
  }

  lemma JoinRightCoalesced(m: Layout, i: nat)
    requires i < |m| && !m[i].used
    requires forall k :: 0 < k < |m| && k != i && k != i + 1 ==> Separated(m, k)
    ensures var r := if i + 1 < |m| && !m[i + 1].used then Merged(m, i) else m;
      i < |r| && !r[i].used && forall k :: 0 < k < |r| && k != i ==> Separated(r, k)
  {
    if i + 1 < |m| && !m[i + 1].used {
      var r := Merged(m, i);
      forall k | 0 < k < |r| && k != i
        ensures Separated(r, k)
      {
        assert Separated(m, if k < i then k else if k == i + 1 then i + 2 else k + 1);
      }
    }
  }

  lemma JoinLeftCoalesced(m: Layout, i: nat)
    requires i < |m| && !m[i].used
    requires forall k :: 0 < k < |m| && k != i ==> Separated(m, k)
    ensures Coalesced(if 0 < i && !m[i - 1].used then Merged(m, i - 1) else m)
  {
    if 0 < i && !m[i - 1].used {
      var r := Merged(m, i - 1);
      forall k | 0 < k < |r|
        ensures Separated(r, k)
      {
        assert Separated(m, if k < i then k else k + 1);
      }
    }
  }

  lemma FreedCoalesced(bs: Layout, i: nat)
    requires Coalesced(bs) && i < |bs| && bs[i].used
    ensures Coalesced(Freed(bs, i))
  {
    var m := Marked(bs, i, false);
    forall k | 0 < k < |m| && k != i && k != i + 1
      ensures Separated(m, k)
    {
      assert Separated(bs, k);
    }
    JoinRightCoalesced(m, i);
    JoinLeftCoalesced(if i + 1 < |m| && !m[i + 1].used then Merged(m, i) else m, i);
  }

  lemma FreedTotal(bs: Layout, i: nat)
    requires WellSized(bs) && i < |bs| && bs[i].used
    ensures Total(Freed(bs, i)) == Total(bs) && WellSized(Freed(bs, i)) && Freed(bs, i) != []
  {
    var m := Marked(bs, i, false);
    var right := if i + 1 < |m| && !m[i + 1].used then Merged(m, i) else m;
    MarkedTotal(bs, i);
    if i + 1 < |m| && !m[i + 1].used { MergedTotal(m, i); }
    if 0 < i && !right[i - 1].used { MergedTotal(right, i - 1); }
  }

  lemma MarkedTotal(bs: Layout, i: nat)
    requires i < |bs| && WellSized(bs)
    ensures Total(Marked(bs, i, false)) == Total(bs) && WellSized(Marked(bs, i, false))
  {
    var b := Block(bs[i].size, false);
    assert Marked(bs, i, false) == Replaced(bs, i, 1, [b]);
    SingleTotal(b);
    StartStep(bs, i);
    ReplacedTotal(bs, i, 1, [b]);
  }

  lemma AllocatedWellFormed(bs: Layout, i: nat, needed: int, total: int)
    requires WellFormed(bs, total) && i < |bs| && Fits(bs[i], needed)
    requires needed >= 2
    ensures WellFormed(Allocated(bs, i, needed), total)
  {
    AllocatedIsReplaced(bs, i, needed);
    ReplacedTotal(bs, i, 1, Carved(bs, i, needed));
    var r := Allocated(bs, i, needed);
    forall k | 0 < k < |r|
      ensures Separated(r, k)
    {
      assert i > 0 ==> Separated(bs, i);
      assert i + 1 < |bs| ==> Separated(bs, i + 1);
      assert 0 < k < i ==> Separated(bs, k);
      assert k > i + 1 ==> Separated(bs, if |r| == |bs| then k else k - 1);
    }
  }

  /** One successful allocation or one release of a live block. */
  ghost predicate Next(bs: Layout, bs': Layout)
  {
    || (exists i: nat, needed: int ::
        IsFirstFit(bs, needed, i) && needed >= 2 && bs' == Allocated(bs, i, needed))
    || (exists i: nat :: i < |bs| && bs[i].used && bs' == Freed(bs, i))
  }

  /**
    Whatever is allocated and freed, in any order, the blocks always tile the region with legal
    sizes and no two neighbours are free; when nothing is live the heap is one free block again.
  */
  lemma EveryRunStaysCoalesced(total: int, run: seq<Layout>)
    requires total >= 2
    requires IsRun((bs: Layout) => bs == [Block(total, false)], Next, run)
    ensures forall k :: 0 <= k < |run| ==> WellFormed(run[k], total)
    ensures forall k :: 0 <= k < |run| && (forall j :: 0 <= j < |run[k]| ==> !run[k][j].used) ==>
      run[k] == [Block(total, false)]
  {
    var init, inv := (bs: Layout) => bs == [Block(total, false)],
      (bs: Layout) => WellFormed(bs, total);
    SingleTotal(Block(total, false));
    forall s: Layout, t: Layout | inv(s) && Next(s, t)
      ensures inv(t)
    {
      if i: nat, needed: int :|
        IsFirstFit(s, needed, i) && needed >= 2 && t == Allocated(s, i, needed) {
        AllocatedWellFormed(s, i, needed, total);
      } else {
        var i: nat :| i < |s| && s[i].used && t == Freed(s, i);
        FreedCoalesced(s, i);
        FreedTotal(s, i);
      }
    }
    InvariantAlways(init, Next, inv, run);
    forall k | 0 <= k < |run| && (forall j :: 0 <= j < |run[k]| ==> !run[k][j].used)
      ensures run[k] == [Block(total, false)]
    {
      assert inv(run[k]);
      var bs := run[k];
      assert |bs| > 1 ==> Separated(bs, 1);
      SingleTotal(bs[0]);
      assert bs == [bs[0]];
    }
  }
}
