/** The dynamic tensor allocator: chunks of address space, each with a sorted array of
    free blocks that is shifted in place, and a policy that picks the block to take. */
module DynTallocr {
  import opened FreeList

  const MAX_FREE_BLOCKS: nat := 256
  const MAX_CHUNKS: nat := 16
  const SIZE_MAX: nat := 0xFFFF_FFFF_FFFF_FFFF
  const INT64_MIN: int := -0x8000_0000_0000_0000

  /** A stretch of bytes of one chunk. */
  datatype Region = Region(chunk: nat, offset: nat, size: nat) {
    function End(): nat { offset + size }
  }

  ghost predicate Apart(r: Region, q: Region) {
    r.chunk != q.chunk || r.End() <= q.offset || q.End() <= r.offset
  }

  /** What the allocator knows of one chunk: capacity is the size the chunk was opened with. */
  datatype ChunkState = ChunkState(free: seq<Block>, maxSize: nat, capacity: nat)

  class Chunk {
    const blocks: array<Block>
    var nFree: nat
    var maxSize: nat
    ghost const capacity: nat

    ghost predicate Valid()
      reads this, blocks
    {
      blocks.Length == MAX_FREE_BLOCKS && nFree <= MAX_FREE_BLOCKS
    }

    function Blocks(): seq<Block>
      reads this, blocks
      requires Valid()
    {
      blocks[..nFree]
    }

    ghost function State(): ChunkState
      reads this, blocks
      requires Valid()
    {
      ChunkState(Blocks(), maxSize, capacity)
    }

    /** One free block over the whole of the chunk. */
    constructor (size: nat)
      ensures Valid() && fresh(blocks)
      ensures State() == ChunkState([Block(0, size)], 0, size)
    {
      blocks := new Block[MAX_FREE_BLOCKS](_ => Block(0, 0));
      nFree, maxSize, capacity := 1, 0, size;
      new;
      blocks[0] := Block(0, size);
    }

    /** Fails exactly when the array of free blocks is full. */
    method InsertBlock(offset: nat, size: nat) returns (ok: bool)
      requires Valid() && Canonical(Blocks()) && size > 0
      requires DisjointFrom(Blocks(), offset, offset + size) && TouchesNone(Blocks(), offset, offset + size)
      modifies `nFree, blocks
      ensures Valid()
      ensures ok == (old(nFree) < MAX_FREE_BLOCKS)
      ensures if ok then AddsBytes(old(Blocks()), Blocks(), offset, offset + size) else Blocks() == old(Blocks())
    {
      if nFree >= MAX_FREE_BLOCKS {
        return false;
      }
      ghost var bs := Blocks();
      var pos := 0;
      while pos < nFree && blocks[pos].offset < offset
        invariant 0 <= pos <= nFree
        invariant forall i :: 0 <= i < pos ==> bs[i].offset < offset
      {
        pos := pos + 1;
      }
      InsertedAdds(bs, pos, Block(offset, size));
      PutAt(pos, Block(offset, size));
      ok := true;
    }

    /** Shifts the blocks from pos on to the right and puts b in the gap. */
    method PutAt(pos: nat, b: Block)
      requires Valid() && pos <= nFree < MAX_FREE_BLOCKS
      modifies `nFree, blocks
      ensures Valid()
      ensures Blocks() == Inserted(old(Blocks()), pos, b)
    {
      ghost var bs := Blocks();
      var i := nFree;
      while i > pos
        invariant pos <= i <= nFree == |bs|
        invariant forall k :: 0 <= k < i ==> blocks[k] == bs[k]
        invariant forall k :: i < k <= nFree ==> blocks[k] == bs[k - 1]
      {
        blocks[i] := blocks[i - 1];
        i := i - 1;
      }
      blocks[pos] := b;
      nFree := nFree + 1;
      assert Blocks() == Inserted(bs, pos, b);
    }

    method RemoveBlock(idx: nat)
      requires Valid() && idx < nFree
      modifies `nFree, blocks
      ensures Valid()
      ensures Blocks() == Removed(old(Blocks()), idx)
    {
      ghost var bs := Blocks();
      var i := idx;
      while i < nFree - 1
        invariant idx <= i <= nFree - 1
        invariant nFree == |bs|
        invariant forall k :: 0 <= k < idx ==> blocks[k] == bs[k]
        invariant forall k :: idx <= k < i ==> blocks[k] == bs[k + 1]
        invariant forall k :: i < k < nFree ==> blocks[k] == bs[k]
      {
        blocks[i] := blocks[i + 1];
        i := i + 1;
      }
      nFree := nFree - 1;
      assert Blocks() == Removed(bs, idx);
    }

    /** Takes size bytes from the front of free block i. */
    method Take(i: nat, size: nat)
      requires Valid() && Canonical(Blocks())
      requires i < nFree && 0 < size <= Blocks()[i].size
      modifies this`nFree, this`maxSize, blocks
      ensures Valid()
      ensures Blocks() == Shrunk(old(Blocks()), i, size)
      ensures maxSize == (var e := old(Blocks()[i].offset) + size; if old(maxSize) > e then old(maxSize) else e)
    {
      ghost var bs := Blocks();
      var addr := blocks[i].offset;
      blocks[i] := Block(blocks[i].offset + size, blocks[i].size - size);
      if blocks[i].size == 0 {
        ghost var mid := Blocks();
        RemoveBlock(i);
        assert Removed(mid, i) == Removed(bs, i);
      } else {
        assert Blocks() == Shrunk(bs, i, size);
      }
      maxSize := if maxSize > addr + size then maxSize else addr + size;
    }

    /** Returns [offset, offset + size) to the chunk. Fails exactly when the bytes touch
        no free block and there is no room for another one. */
    method FreeBytes(offset: nat, size: nat) returns (ok: bool)
      requires Valid() && Canonical(Blocks()) && size > 0
      requires DisjointFrom(Blocks(), offset, offset + size)
      modifies `nFree, blocks
      ensures Valid()
      ensures !ok <==> old(nFree) == MAX_FREE_BLOCKS && TouchesNone(old(Blocks()), offset, offset + size)
      ensures if ok then AddsBytes(old(Blocks()), Blocks(), offset, offset + size) else Blocks() == old(Blocks())
    {
      ghost var bs := Blocks();
      var i := 0;
      while i < nFree
        invariant 0 <= i <= nFree && Blocks() == bs
        invariant forall k :: 0 <= k < i ==> bs[k].End() != offset && offset + size != bs[k].offset
      {
        // check if the bytes are at the end of the block
        if blocks[i].offset + blocks[i].size == offset {
          assert bs[i].End() == offset;
          GrownAtEndAdds(bs, i, size);
          GrowAtEnd(i, size);
          return true;
        }
        // check if the bytes are at the beginning of the block
        if offset + size == blocks[i].offset {
          // a block before that ends at offset would have been merged on its own turn
          assert bs[i].offset == offset + size;
          assert i > 0 ==> bs[i - 1].End() != offset;
          GrownAtStartAdds(bs, i, size);
          blocks[i] := Block(offset, blocks[i].size + size);
          if i > 0 && blocks[i - 1].offset + blocks[i - 1].size == blocks[i].offset {
            assert false;
          }
          assert Blocks() == GrownAtStart(bs, i, size);
          return true;
        }
        i := i + 1;
      }
      ok := InsertBlock(offset, size);
    }

    /** Adds size bytes to the end of free block i and merges it with the next one if they now touch. */
    method GrowAtEnd(i: nat, size: nat)
      requires Valid() && i < nFree
      modifies `nFree, blocks
      ensures Valid()
      ensures Blocks() == GrownAtEnd(old(Blocks()), i, size)
    {
      ghost var bs := Blocks();
      blocks[i] := Block(blocks[i].offset, blocks[i].size + size);
      ghost var grown := Blocks();
      assert grown == bs[i := Block(bs[i].offset, bs[i].size + size)];
      if i < nFree - 1 && blocks[i].offset + blocks[i].size == blocks[i + 1].offset {
        blocks[i] := Block(blocks[i].offset, blocks[i].size + blocks[i + 1].size);
        ghost var b := Block(bs[i].offset, bs[i].size + size + bs[i + 1].size);
        assert Blocks() == grown[i := b];
        assert grown[i := b] == bs[i := b];
        RemoveBlock(i + 1);
      }
    }
  }

  function MaxSizes(states: seq<ChunkState>): (r: seq<nat>)
    ensures |r| == |states| && forall c :: 0 <= c < |r| ==> r[c] == states[c].maxSize
  {
    seq(|states|, c requires 0 <= c < |states| => states[c].maxSize)
  }

  /** Bounds only grow. */
  ghost predicate Grows(s: seq<nat>, t: seq<nat>) {
    |s| <= |t| && forall c :: 0 <= c < |s| ==> s[c] <= t[c]
  }

  // ----- what the allocator keeps, over the states of its chunks and the regions handed out

  ghost predicate HoldsLive(live: set<Region>, c: nat, x: int) {
    exists r :: r in live && r.chunk == c && r.offset <= x < r.End()
  }

  /** Chunk c: the free blocks and the live regions are aligned, do not meet, and
      together are exactly the bytes of the chunk; live regions end within max_size. */
  ghost predicate ChunkInv(s: ChunkState, live: set<Region>, c: nat, alignment: nat)
    requires alignment > 0
  {
    && Canonical(s.free)
    && s.maxSize <= s.capacity <= SIZE_MAX / 2
    && (forall i :: 0 <= i < |s.free| ==> s.free[i].offset % alignment == 0 && s.free[i].End() <= s.capacity)
    && (forall r :: r in live && r.chunk == c ==> RegionInv(s, r, alignment))
    && (forall x: int :: 0 <= x < s.capacity ==> Covers(s.free, x) || HoldsLive(live, c, x))
  }

  ghost predicate RegionInv(s: ChunkState, r: Region, alignment: nat)
    requires alignment > 0
  {
    && r.size > 0 && r.End() <= s.maxSize
    && r.offset % alignment == 0 && r.size % alignment == 0
    && DisjointFrom(s.free, r.offset, r.End())
  }

  ghost predicate AllocatorInv(states: seq<ChunkState>, live: set<Region>, alignment: nat)
    requires alignment > 0
  {
    && (forall c :: 0 <= c < |states| ==> ChunkInv(states[c], live, c, alignment))
    && (forall r :: r in live ==> r.chunk < |states|)
    && (forall r, q :: r in live && q in live && r != q ==> Apart(r, q))
  }

  /** Taking the front of a free block keeps the invariant, and the region is new. */
  lemma TakeKeeps(states: seq<ChunkState>, live: set<Region>, alignment: nat, c: nat, i: nat, size: nat, after: ChunkState)
    requires alignment > 0 && AllocatorInv(states, live, alignment)
    requires c < |states| && i < |states[c].free| && 0 < size <= states[c].free[i].size && size % alignment == 0
    requires after.free == Shrunk(states[c].free, i, size) && after.capacity == states[c].capacity
    requires var e := states[c].free[i].offset + size;
             after.maxSize == if states[c].maxSize > e then states[c].maxSize else e
    ensures var r := Region(c, states[c].free[i].offset, size);
            && AllocatorInv(states[c := after], live + {r}, alignment)
            && r !in live && forall q :: q in live ==> Apart(r, q)
  {
    var s := states[c];
    var r := Region(c, s.free[i].offset, size);
    forall q | q in live ensures Apart(r, q) {
      assert ChunkInv(states[c], live, c, alignment);
      if q.chunk == c {
        assert RegionInv(s, q, alignment);
        assert s.free[i].End() <= q.offset || q.End() <= s.free[i].offset;
      }
    }
    assert r !in live by {
      assert r in live ==> Apart(r, r);
    }
    TakeKeepsChunk(s, live, alignment, c, i, size, after);
    forall d | 0 <= d < |states| && d != c ensures ChunkInv(states[d], live + {r}, d, alignment) {
      OtherChunk(states[d], live, live + {r}, d, alignment);
    }
  }

  lemma OtherChunk(s: ChunkState, live: set<Region>, live': set<Region>, c: nat, alignment: nat)
    requires alignment > 0 && ChunkInv(s, live, c, alignment)
    requires forall r: Region :: r.chunk == c ==> (r in live <==> r in live')
    ensures ChunkInv(s, live', c, alignment)
  {
    forall x: int | 0 <= x < s.capacity ensures Covers(s.free, x) || HoldsLive(live', c, x) {
      if !Covers(s.free, x) {
        var r :| r in live && r.chunk == c && r.offset <= x < r.End();
        assert r in live';
      }
    }
  }

  lemma TakeKeepsChunk(s: ChunkState, live: set<Region>, alignment: nat, c: nat, i: nat, size: nat, after: ChunkState)
    requires alignment > 0 && ChunkInv(s, live, c, alignment)
    requires i < |s.free| && 0 < size <= s.free[i].size && size % alignment == 0
    requires after.free == Shrunk(s.free, i, size) && after.capacity == s.capacity
    requires after.maxSize == if s.maxSize > s.free[i].offset + size then s.maxSize else s.free[i].offset + size
    ensures ChunkInv(after, live + {Region(c, s.free[i].offset, size)}, c, alignment)
  {
    var r := Region(c, s.free[i].offset, size);
    ShrunkTakes(s.free, i, size);
    ShrunkAligned(s.free, i, size, alignment, s.capacity);
    forall q | q in live && q.chunk == c ensures RegionInv(after, q, alignment) {
      assert RegionInv(s, q, alignment);
    }
    TakeCoversAll(s, live, c, r, after.free);
  }

  lemma ShrunkAligned(bs: seq<Block>, i: nat, size: nat, alignment: nat, capacity: nat)
    requires alignment > 0 && i < |bs| && size <= bs[i].size && size % alignment == 0
    requires forall k :: 0 <= k < |bs| ==> bs[k].offset % alignment == 0 && bs[k].End() <= capacity
    ensures forall k :: 0 <= k < |Shrunk(bs, i, size)| ==>
              Shrunk(bs, i, size)[k].offset % alignment == 0 && Shrunk(bs, i, size)[k].End() <= capacity
  {
    AddMod(bs[i].offset, size, alignment);
  }

  /** The bytes of r, no longer free, are live instead. */
  lemma TakeCoversAll(s: ChunkState, live: set<Region>, c: nat, r: Region, after: seq<Block>)
    requires r.chunk == c && TakesBytes(s.free, after, r.offset, r.End())
    requires forall x: int :: 0 <= x < s.capacity ==> Covers(s.free, x) || HoldsLive(live, c, x)
    ensures forall x: int :: 0 <= x < s.capacity ==> Covers(after, x) || HoldsLive(live + {r}, c, x)
  {
    var live' := live + {r};
    forall x: int | 0 <= x < s.capacity ensures Covers(after, x) || HoldsLive(live', c, x) {
      if r.offset <= x < r.End() {
        assert r in live';
      } else if !Covers(s.free, x) {
        var q :| q in live && q.chunk == c && q.offset <= x < q.End();
        assert q in live';
      }
    }
  }

  /** What is left of live after the bytes from offset to the end of r are returned. */
  function WithoutTail(live: set<Region>, r: Region, offset: nat): set<Region>
    requires r.offset <= offset < r.End()
  {
    live - {r} + (if offset > r.offset then {Region(r.chunk, r.offset, offset - r.offset)} else {})
  }

  /** Returning a live region, or an aligned tail of it, keeps the invariant. */
  lemma GiveBackKeeps(states: seq<ChunkState>, live: set<Region>, alignment: nat, r: Region, offset: nat, after: ChunkState)
    requires alignment > 0 && AllocatorInv(states, live, alignment)
    requires r in live && r.offset <= offset < r.End() && offset % alignment == 0
    requires after == states[r.chunk].(free := after.free)
    requires AddsBytes(states[r.chunk].free, after.free, offset, r.End())
    ensures AllocatorInv(states[r.chunk := after], WithoutTail(live, r, offset), alignment)
  {
    var live' := WithoutTail(live, r, offset);
    GiveBackKeepsChunk(states[r.chunk], live, alignment, r, offset, after);
    forall d | 0 <= d < |states| && d != r.chunk ensures ChunkInv(states[d], live', d, alignment) {
      OtherChunk(states[d], live, live', d, alignment);
    }
    forall p, q | p in live' && q in live' && p != q ensures Apart(p, q) {
      var p' := if p in live then p else r;
      var q' := if q in live then q else r;
      assert p' in live && q' in live && p' != q';
      assert Apart(p', q');
    }
  }

  lemma GiveBackKeepsChunk(s: ChunkState, live: set<Region>, alignment: nat, r: Region, offset: nat, after: ChunkState)
    requires alignment > 0 && ChunkInv(s, live, r.chunk, alignment)
    requires forall p, q :: p in live && q in live && p != q ==> Apart(p, q)
    requires r in live && r.offset <= offset < r.End() && offset % alignment == 0
    requires after == s.(free := after.free)
    requires AddsBytes(s.free, after.free, offset, r.End())
    ensures ChunkInv(after, WithoutTail(live, r, offset), r.chunk, alignment)
  {
    var live' := WithoutTail(live, r, offset);
    var c := r.chunk;
    assert RegionInv(s, r, alignment);
    forall q | q in live' && q.chunk == c ensures RegionInv(after, q, alignment) {
      if q in live {
        assert RegionInv(s, q, alignment) && Apart(q, r);
        StaysDisjoint(s.free, after.free, offset, r.End(), q.offset, q.End());
      } else {
        AddMod(offset, r.offset, alignment);
        StaysDisjoint(s.free, after.free, offset, r.End(), q.offset, q.End());
      }
    }
    forall i | 0 <= i < |after.free|
      ensures after.free[i].offset % alignment == 0 && after.free[i].End() <= s.capacity
    {
      GrownBlocks(s.free, after.free, offset, r.End(), i);
    }
    forall x: int | 0 <= x < s.capacity ensures Covers(after.free, x) || HoldsLive(live', c, x) {
      if !Covers(after.free, x) {
        var q :| q in live && q.chunk == c && q.offset <= x < q.End();
        var q' := if q == r then Region(r.chunk, r.offset, offset - r.offset) else q;
        assert q' in live';
      }
    }
  }

  /** Bytes [lo, hi) stay apart from the free list when bytes apart from them are added to it. */
  lemma StaysDisjoint(bs: seq<Block>, after: seq<Block>, from: int, to: int, lo: int, hi: int)
    requires AddsBytes(bs, after, from, to)
    requires lo < hi && DisjointFrom(bs, lo, hi) && (hi <= from || to <= lo)
    ensures DisjointFrom(after, lo, hi)
  {
    forall i | 0 <= i < |after| ensures after[i].End() <= lo || hi <= after[i].offset {
      if after[i].End() > lo && hi > after[i].offset {
        var x := if lo >= after[i].offset then lo else after[i].offset;
        CoversAt(after, i, x);
      }
    }
  }

  /** A block of a canonical list to which [lo, hi) was added starts where an old block
      starts or at lo, and ends where an old block ends or at hi. */
  lemma GrownBlocks(bs: seq<Block>, after: seq<Block>, lo: nat, hi: nat, i: nat)
    requires lo < hi && AddsBytes(bs, after, lo, hi) && i < |after|
    ensures after[i].offset == lo || exists k :: 0 <= k < |bs| && bs[k].offset == after[i].offset
    ensures after[i].End() == hi || exists k :: 0 <= k < |bs| && bs[k].End() == after[i].End()
  {
    var start, end := after[i].offset, after[i].End();
    CoversAt(after, i, start);
    NotBefore(after, i);
    if start != lo {
      assert !(lo <= start < hi) by {
        assert lo <= start - 1 < hi ==> Covers(after, start - 1);
      }
      var k :| 0 <= k < |bs| && Holds(bs[k], start);
      if bs[k].offset != start {
        CoversAt(bs, k, start - 1);
      }
    }
    CoversAt(after, i, end - 1);
    if end != hi {
      assert !(lo <= end - 1 < hi) by {
        assert lo <= end < hi ==> Covers(after, end);
      }
      var k :| 0 <= k < |bs| && Holds(bs[k], end - 1);
      if bs[k].End() != end {
        CoversAt(bs, k, end);
      }
    }
  }

  /** The bytes just before and just after a block of a canonical list are not free. */
  lemma NotBefore(bs: seq<Block>, i: nat)
    requires Canonical(bs) && i < |bs|
    ensures !Covers(bs, bs[i].offset - 1) && !Covers(bs, bs[i].End())
  {
    forall k | 0 <= k < |bs| ensures !Holds(bs[k], bs[i].offset - 1) && !Holds(bs[k], bs[i].End()) {
      assert k < i ==> bs[k].End() < bs[i].offset;
      assert k > i ==> bs[i].End() < bs[k].offset;
    }
  }

  /** Opening a chunk keeps the invariant. */
  lemma NewChunkKeeps(states: seq<ChunkState>, live: set<Region>, alignment: nat, size: nat)
    requires alignment > 0 && AllocatorInv(states, live, alignment)
    requires 0 < size <= SIZE_MAX / 2
    ensures AllocatorInv(states + [ChunkState([Block(0, size)], 0, size)], live, alignment)
  {
    var s := ChunkState([Block(0, size)], 0, size);
    forall x: int | 0 <= x < size ensures Covers(s.free, x) {
      CoversAt(s.free, 0, x);
    }
    var all := states + [s];
    assert forall c :: 0 <= c < |states| ==> all[c] == states[c];
  }

  /** With nothing live, every chunk is back to the one block it was opened with, in
      whatever order the regions were returned. */
  lemma AllReturned(states: seq<ChunkState>, alignment: nat, c: nat)
    requires alignment > 0 && AllocatorInv(states, {}, alignment)
    requires c < |states| && states[c].capacity > 0
    ensures states[c].free == [Block(0, states[c].capacity)]
  {
    var s := states[c];
    assert ChunkInv(s, {}, c, alignment);
    forall x: int ensures Covers(s.free, x) <==> 0 <= x < s.capacity {
      if 0 <= x < s.capacity {
        assert !HoldsLive({}, c, x);
      }
    }
    AllFreeIsOneBlock(s.free, s.capacity);
  }

  /** Two allocators with equal chunk sizes and equal live bytes have equal free lists. */
  lemma FreeListsFollowLive(s: ChunkState, s': ChunkState, live: set<Region>, live': set<Region>, alignment: nat, c: nat)
    requires alignment > 0 && ChunkInv(s, live, c, alignment) && ChunkInv(s', live', c, alignment)
    requires s.capacity == s'.capacity
    requires forall x: int :: HoldsLive(live, c, x) <==> HoldsLive(live', c, x)
    ensures s.free == s'.free
  {
    forall x: int ensures Covers(s.free, x) <==> Covers(s'.free, x) {
      FreeIffNotLive(s, live, alignment, c, x);
      FreeIffNotLive(s', live', alignment, c, x);
    }
    CanonicalUnique(s.free, s'.free);
  }

  /** A byte of a chunk is free exactly when no live region holds it. */
  lemma FreeIffNotLive(s: ChunkState, live: set<Region>, alignment: nat, c: nat, x: int)
    requires alignment > 0 && ChunkInv(s, live, c, alignment)
    ensures Covers(s.free, x) <==> 0 <= x < s.capacity && !HoldsLive(live, c, x)
  {
    forall r | r in live && r.chunk == c && r.offset <= x < r.End() ensures !Covers(s.free, x) {
      assert RegionInv(s, r, alignment);
    }
  }

  // ----- the policy

  /** Block i of chunk c fits and is not the last block of its chunk. */
  ghost predicate FitsInside(states: seq<ChunkState>, c: int, i: int, size: nat) {
    0 <= c < |states| && 0 <= i < |states[c].free| - 1 && states[c].free[i].size >= size
  }

  /** The last block of chunk c fits. */
  ghost predicate FitsAtEnd(states: seq<ChunkState>, c: int, size: nat) {
    0 <= c < |states| && states[c].free != [] && states[c].free[|states[c].free| - 1].size >= size
  }

  /** Bytes of chunk c already counted in its max_size that stay unused when size bytes are
      put in its last block; negative when max_size has to grow by as much. */
  ghost function Reuse(s: ChunkState, size: nat): int
    requires s.free != []
  {
    s.maxSize - s.free[|s.free| - 1].offset - size
  }

  /** r is a better reuse than q: less growth and, with no growth at all, less waste. */
  ghost predicate Better(r: int, q: int) {
    (q < 0 && r > q) || 0 <= r < q
  }

  /** The inside block the first search settles on: best fit, the later one on a tie, but
      only among the blocks of the last chunk with a fit. */
  ghost predicate InsideChoice(states: seq<ChunkState>, c: int, i: int, size: nat) {
    && FitsInside(states, c, i, size)
    && (forall d, j :: FitsInside(states, d, j, size) ==> d <= c)
    && (forall j :: FitsInside(states, c, j, size) ==>
          states[c].free[i].size < states[c].free[j].size
          || (states[c].free[i].size == states[c].free[j].size && j <= i))
  }

  /** No inside block that fits, in any chunk, is smaller. */
  ghost predicate LeastInside(states: seq<ChunkState>, c: int, i: int, size: nat) {
    && FitsInside(states, c, i, size)
    && forall d, j :: FitsInside(states, d, j, size) ==> states[c].free[i].size <= states[d].free[j].size
  }

  ghost predicate LastWithFit(states: seq<ChunkState>, c: int, size: nat) {
    (exists k :: FitsInside(states, c, k, size)) && forall d, j :: FitsInside(states, d, j, size) ==> d <= c
  }

  /** No inside block that fits in a chunk before the last one with such a block is smaller than all that
      fit in that one. */
  ghost predicate NoneSmallerBefore(states: seq<ChunkState>, size: nat) {
    forall c, d, j :: LastWithFit(states, c, size) && FitsInside(states, d, j, size) && d < c ==>
      exists k :: FitsInside(states, c, k, size) && states[c].free[k].size <= states[d].free[j].size
  }

  /** Exact condition: the first search finds the best fit of all chunks if and only if no block that fits
      in an earlier chunk is smaller than the least one that fits in the last chunk with a fit. */
  lemma BestFitExactly(states: seq<ChunkState>, c: int, i: int, size: nat)
    requires InsideChoice(states, c, i, size)
    ensures LeastInside(states, c, i, size) <==> NoneSmallerBefore(states, size)
  {
    assert LastWithFit(states, c, size);
    if LeastInside(states, c, i, size) {
      forall b, d, j | LastWithFit(states, b, size) && FitsInside(states, d, j, size) && d < b
        ensures exists k :: FitsInside(states, b, k, size) && states[b].free[k].size <= states[d].free[j].size
      {
        assert b == c;
        assert FitsInside(states, b, i, size) && states[b].free[i].size <= states[d].free[j].size;
      }
    }
    if NoneSmallerBefore(states, size) {
      forall d, j | FitsInside(states, d, j, size) ensures states[c].free[i].size <= states[d].free[j].size {
        if d < c {
          var k :| FitsInside(states, c, k, size) && states[c].free[k].size <= states[d].free[j].size;
        }
      }
    }
  }

  /** Two chunks with a gap each, the smaller one first. */
  const GAPS: seq<ChunkState> := [
    ChunkState([Block(0, 16), Block(32, 128)], 32, 160),
    ChunkState([Block(0, 48), Block(64, 96)], 144, 160)]

  const GAPS_LIVE: set<Region> := {Region(0, 16, 16), Region(1, 48, 16)}

  /** A chunk with one live region, free before and after it. */
  lemma OneLiveIsRight(s: ChunkState, live: set<Region>, r: Region)
    requires r in live && forall q :: q in live && q.chunk == r.chunk ==> q == r
    requires 0 < r.offset < r.End() < s.capacity <= SIZE_MAX / 2 && r.End() <= s.maxSize <= s.capacity
    requires r.offset % 16 == 0 && r.size % 16 == 0
    requires s.free == [Block(0, r.offset), Block(r.End(), s.capacity - r.End())]
    ensures ChunkInv(s, live, r.chunk, 16)
  {
    forall x: int | 0 <= x < s.capacity ensures Covers(s.free, x) || HoldsLive(live, r.chunk, x) {
      if x < r.offset {
        CoversAt(s.free, 0, x);
      } else if x >= r.End() {
        CoversAt(s.free, 1, x);
      }
    }
  }

  lemma GapsAreRight()
    ensures AllocatorInv(GAPS, GAPS_LIVE, 16)
  {
    OneLiveIsRight(GAPS[0], GAPS_LIVE, Region(0, 16, 16));
    OneLiveIsRight(GAPS[1], GAPS_LIVE, Region(1, 48, 16));
  }

  /** A request for the bytes of the first gap takes the second, three times as large. */
  lemma BestFitPassedOver()
    ensures AllocatorInv(GAPS, GAPS_LIVE, 16)
    ensures FitsInside(GAPS, 0, 0, 16) && GAPS[0].free[0].size == 16
    ensures InsideChoice(GAPS, 1, 0, 16) && GAPS[1].free[0].size == 48
    ensures forall c, i :: InsideChoice(GAPS, c, i, 16) ==> c == 1 && i == 0 && !LeastInside(GAPS, c, i, 16)
  {
    GapsAreRight();
    assert FitsInside(GAPS, 1, 0, 16) && FitsInside(GAPS, 0, 0, 16);
  }

  /** The chunk the second search settles on: no other one reuses better, earlier ones reuse worse. */
  ghost predicate EndChoice(states: seq<ChunkState>, c: int, size: nat) {
    && FitsAtEnd(states, c, size)
    && (forall d :: FitsAtEnd(states, d, size) ==> !Better(Reuse(states[d], size), Reuse(states[c], size)))
    && (forall d :: FitsAtEnd(states, d, size) && d < c ==> Better(Reuse(states[c], size), Reuse(states[d], size)))
  }

  /** How much max_size of a chunk grows when size bytes are put in its last block. */
  ghost function Growth(s: ChunkState, size: nat): int
    requires s.free != []
  {
    if Reuse(s, size) < 0 then -Reuse(s, size) else 0
  }

  /** When only last blocks fit, the chunk chosen grows least. */
  lemma EndChoiceGrowsLeast(states: seq<ChunkState>, c: int, d: int, size: nat)
    requires EndChoice(states, c, size) && FitsAtEnd(states, d, size)
    ensures Growth(states[c], size) <= Growth(states[d], size)
    ensures Growth(states[c], size) == Growth(states[d], size) == 0 ==> Reuse(states[c], size) <= Reuse(states[d], size)
  {
    assert !Better(Reuse(states[d], size), Reuse(states[c], size));
  }

  ghost predicate NothingFits(states: seq<ChunkState>, size: nat) {
    && (forall c, i :: !FitsInside(states, c, i, size))
    && (forall c :: !FitsAtEnd(states, c, size))
  }

  /** All chunks there may be are open, or a chunk cannot note another free block. */
  ghost predicate OutOfRoom(states: seq<ChunkState>) {
    |states| == MAX_CHUNKS || exists c :: 0 <= c < |states| && |states[c].free| == MAX_FREE_BLOCKS
  }

  function Max(a: nat, b: nat): nat {
    if a > b then a else b
  }

  /** Room a new chunk gets: the last one allowed has virtually endless memory. */
  function NewCapacity(nChunks: nat, size: nat, maxChunkSize: nat): (n: nat)
    ensures nChunks + 1 == MAX_CHUNKS ==> n == SIZE_MAX / 2
    ensures nChunks + 1 != MAX_CHUNKS ==> n >= size && n >= maxChunkSize && n in {size, maxChunkSize}
  {
    if nChunks == MAX_CHUNKS - 1 then SIZE_MAX / 2 else Max(size, maxChunkSize)
  }

  /** The block of which chunk is taken for a request of size aligned bytes. */
  ghost predicate Chosen(states: seq<ChunkState>, c: int, i: int, size: nat) {
    || InsideChoice(states, c, i, size)
    || ((forall d, j :: !FitsInside(states, d, j, size)) && EndChoice(states, c, size) && i == |states[c].free| - 1)
  }

  /** The allocator proper: it owns its chunks, and live names the regions it has handed out. */
  class DynTallocr {
    const alignment: nat
    const maxChunkSize: nat
    var chunks: seq<Chunk>
    ghost var states: seq<ChunkState>
    ghost var live: set<Region>

    ghost var Repr: set<object>

    ghost predicate Valid()
      reads this, Repr
      ensures Valid() ==> this in Repr
    {
      && this in Repr
      && alignment > 0 && maxChunkSize <= SIZE_MAX / 2
      && |chunks| == |states| <= MAX_CHUNKS
      && (forall i :: 0 <= i < |chunks| ==> chunks[i] in Repr && chunks[i].blocks in Repr)
      && (forall i :: 0 <= i < |chunks| ==> chunks[i].Valid() && chunks[i].State() == states[i])
      && (forall i, j :: 0 <= i < j < |chunks| ==> chunks[i] != chunks[j] && chunks[i].blocks != chunks[j].blocks)
      && AllocatorInv(states, live, alignment)
    }

    constructor (alignment: nat, maxBufferSize: nat)
      requires alignment > 0
      ensures Valid() && fresh(Repr)
      ensures this.alignment == alignment && live == {} && states == []
    {
      this.alignment := alignment;
      maxChunkSize := if maxBufferSize < SIZE_MAX / 2 then maxBufferSize else SIZE_MAX / 2;
      chunks, states, live := [], [], {};
      Repr := {this};
    }

    method Reset()
      requires alignment > 0 && maxChunkSize <= SIZE_MAX / 2
      modifies this
      ensures Valid() && Repr == {this}
      ensures live == {} && states == []
    {
      chunks, states, live, Repr := [], [], {}, {this};
    }

    method MaxSize(chunk: nat) returns (size: nat)
      requires Valid()
      ensures size == if chunk < |states| then states[chunk].maxSize else 0
    {
      size := if chunk < |chunks| then chunks[chunk].maxSize else 0;
    }

    /** First search: the best fitting free block besides the last one. */
    method FindInside(size: nat) returns (c: int, i: int)
      requires Valid() && size > 0
      ensures c == -1 == i || InsideChoice(states, c, i, size)
      ensures c == -1 ==> forall d, j :: !FitsInside(states, d, j, size)
    {
      c, i := -1, -1;
      for d := 0 to |chunks|
        invariant c == -1 == i || (0 <= c < d && FitsInside(states, c, i, size))
        invariant c != -1 ==> forall e, j :: e < d && FitsInside(states, e, j, size) ==> e <= c
        invariant c != -1 ==> forall j :: FitsInside(states, c, j, size) ==>
                    states[c].free[i].size < states[c].free[j].size || (states[c].free[i].size == states[c].free[j].size && j <= i)
        invariant c == -1 ==> forall e, j :: e < d ==> !FitsInside(states, e, j, size)
      {
        var chunk := chunks[d];
        var bestFitSize := SIZE_MAX;
        var bestBlock := -1;
        var j := 0;
        while j < chunk.nFree - 1
          invariant 0 <= j && (chunk.nFree > 0 ==> j <= chunk.nFree - 1) && (chunk.nFree == 0 ==> j == 0)
          invariant chunk.nFree == |states[d].free|
          invariant bestBlock == -1 ==> bestFitSize == SIZE_MAX && forall k :: 0 <= k < j ==> states[d].free[k].size < size
          invariant bestBlock != -1 ==> 0 <= bestBlock < j && states[d].free[bestBlock].size == bestFitSize >= size
          invariant bestBlock != -1 ==> forall k :: 0 <= k < j && states[d].free[k].size >= size ==>
                      bestFitSize < states[d].free[k].size || (bestFitSize == states[d].free[k].size && k <= bestBlock)
        {
          assert chunk.blocks[j] == states[d].free[j];
          assert states[d].free[j].size <= SIZE_MAX by { assert ChunkInv(states[d], live, d, alignment); }
          if chunk.blocks[j].size >= size && chunk.blocks[j].size <= bestFitSize {
            bestBlock, bestFitSize := j, chunk.blocks[j].size;
          }
          j := j + 1;
        }
        if bestBlock != -1 {
          c, i := d, bestBlock;
        }
      }
    }

    /** Second search: among the last blocks that fit, the one that reuses best. */
    method FindAtEnd(size: nat) returns (c: int)
      requires Valid() && size > 0
      ensures c == -1 || EndChoice(states, c, size)
      ensures c == -1 ==> forall d :: !FitsAtEnd(states, d, size)
    {
      c := -1;
      var bestReuse := INT64_MIN;
      for d := 0 to |chunks|
        invariant c == -1 ==> bestReuse == INT64_MIN && forall e :: e < d ==> !FitsAtEnd(states, e, size)
        invariant c != -1 ==> 0 <= c < d && FitsAtEnd(states, c, size) && bestReuse == Reuse(states[c], size)
        invariant forall e :: e < d && FitsAtEnd(states, e, size) ==> !Better(Reuse(states[e], size), bestReuse)
        invariant forall e :: e < c && FitsAtEnd(states, e, size) ==> Better(bestReuse, Reuse(states[e], size))
      {
        var chunk := chunks[d];
        if chunk.nFree > 0 {
          var block := chunk.blocks[chunk.nFree - 1];
          assert block == states[d].free[|states[d].free| - 1];
          assert ChunkInv(states[d], live, d, alignment);
          var reuse := chunk.maxSize - block.offset - size;
          var betterReuse := bestReuse < 0 && reuse > bestReuse;
          var betterFit := reuse >= 0 && reuse < bestReuse;
          if block.size >= size && (betterReuse || betterFit) {
            c, bestReuse := d, reuse;
          }
        }
      }
    }

    /** The two searches, one after the other. */
    method Choose(size: nat) returns (c: int, i: int)
      requires Valid() && size > 0
      ensures c == -1 ==> NothingFits(states, size)
      ensures c != -1 ==> Chosen(states, c, i, size)
    {
      c, i := FindInside(size);
      if c == -1 {
        c := FindAtEnd(size);
        if c != -1 {
          i := chunks[c].nFree - 1;
          assert chunks[c].State() == states[c];
        }
      }
    }

    /** r has been handed out. */
    twostate predicate HandedOut(r: Region)
      reads this
    {
      && live == old(live) + {r} && r !in old(live)
      && (forall q :: q in old(live) ==> Apart(r, q))
      && r.chunk < |states| && r.End() <= states[r.chunk].maxSize
      && Grows(MaxSizes(old(states)), MaxSizes(states))
    }

    /** Hands out size bytes, rounded up to the alignment. Fails only when nothing fits and
        no more chunks may be opened. */
    method Alloc(size: nat) returns (ok: bool, chunk: nat, offset: nat)
      requires Valid() && 0 < size && AlignedSize(size, alignment) <= SIZE_MAX / 2
      modifies Repr
      ensures Valid() && fresh(Repr - old(Repr))
      ensures !ok <==> |old(states)| == MAX_CHUNKS && NothingFits(old(states), AlignedSize(size, alignment))
      ensures if ok then HandedOut(Region(chunk, offset, AlignedSize(size, alignment)))
              else states == old(states) && live == old(live)
      // which block is taken
      ensures ok ==> if chunk < |old(states)| then
                exists i :: Chosen(old(states), chunk, i, AlignedSize(size, alignment)) && old(states)[chunk].free[i].offset == offset
              else
                && NothingFits(old(states), AlignedSize(size, alignment)) && chunk == |old(states)| && offset == 0
                && states[chunk].capacity == NewCapacity(chunk, AlignedSize(size, alignment), maxChunkSize)
    {
      var asize := AlignedSize(size, alignment);
      var c, i := Choose(asize);
      if c != -1 {
        offset := TakeFrom(c, i, asize);
        return true, c, offset;
      }
      if |chunks| >= MAX_CHUNKS {
        return false, 0, 0;
      }
      offset := TakeFromNewChunk(asize);
      return true, |chunks| - 1, offset;
    }

    method TakeFromNewChunk(size: nat) returns (offset: nat)
      requires Valid() && |chunks| < MAX_CHUNKS && 0 < size <= SIZE_MAX / 2 && size % alignment == 0
      modifies Repr
      ensures Valid() && fresh(Repr - old(Repr))
      ensures |states| == |old(states)| + 1 && offset == 0
      ensures HandedOut(Region(|old(states)|, offset, size))
      ensures states[|old(states)|].capacity == NewCapacity(|old(states)|, size, maxChunkSize)
    {
      NewChunk(size);
      offset := TakeFrom(|chunks| - 1, 0, size);
    }

    method NewChunk(size: nat)
      requires Valid() && |chunks| < MAX_CHUNKS && 0 < size <= SIZE_MAX / 2
      modifies this
      ensures Valid() && fresh(Repr - old(Repr)) && live == old(live)
      ensures states == old(states) + [var n := NewCapacity(|old(states)|, size, maxChunkSize); ChunkState([Block(0, n)], 0, n)]
    {
      var room := if |chunks| == MAX_CHUNKS - 1 then SIZE_MAX / 2 else Max(size, maxChunkSize);
      var chunk := new Chunk(room);
      NewChunkKeeps(states, live, alignment, room);
      chunks := chunks + [chunk];
      Repr := Repr + {chunk, chunk.blocks};
      states := states + [ChunkState([Block(0, room)], 0, room)];
    }

    method TakeFrom(c: nat, i: nat, size: nat) returns (offset: nat)
      requires Valid() && c < |chunks| && i < |states[c].free| && 0 < size <= states[c].free[i].size
      requires size % alignment == 0
      modifies Repr
      ensures Valid() && Repr == old(Repr) && chunks == old(chunks)
      ensures offset == old(states)[c].free[i].offset
      ensures HandedOut(Region(c, offset, size))
      ensures |states| == |old(states)| && states[c].capacity == old(states)[c].capacity
    {
      ghost var before := states;
      assert ChunkInv(states[c], live, c, alignment);
      offset := chunks[c].blocks[i].offset;
      chunks[c].Take(i, size);
      ghost var after := chunks[c].State();
      TakeKeeps(before, live, alignment, c, i, size, after);
      states := before[c := after];
      live := live + {Region(c, before[c].free[i].offset, size)};
    }

    /** Takes back the region r, or its tail from offset on. */
    method FreeBytes(chunk: nat, offset: nat, size: nat, ghost r: Region) returns (ok: bool)
      requires Valid() && size > 0
      requires r in live && r.chunk == chunk && r.offset <= offset && offset % alignment == 0
      requires offset + AlignedSize(size, alignment) == r.End()
      modifies Repr
      ensures Valid() && Repr == old(Repr)
      ensures live == if ok then WithoutTail(old(live), r, offset) else old(live)
      ensures MaxSizes(states) == MaxSizes(old(states))
      ensures forall c :: 0 <= c < |states| ==> states[c].capacity == old(states)[c].capacity
      ensures !ok <==> |old(states)[chunk].free| == MAX_FREE_BLOCKS && TouchesNone(old(states)[chunk].free, offset, r.End())
      ensures !ok ==> states == old(states)
    {
      var asize := AlignedSize(size, alignment);
      ghost var before := states;
      assert ChunkInv(states[chunk], live, chunk, alignment) && RegionInv(states[chunk], r, alignment);
      ok := chunks[chunk].FreeBytes(offset, asize);
      if ok {
        ghost var after := chunks[chunk].State();
        GiveBackKeeps(before, live, alignment, r, offset, after);
        states := before[chunk := after];
        live := WithoutTail(live, r, offset);
      }
    }
  }
}
