/** Free lists of one chunk of the graph allocator, as values: sequences of free
    blocks kept sorted by address, and the set of bytes such a sequence covers. */
module FreeList {

  datatype Block = Block(offset: nat, size: nat) {
    function End(): nat { offset + size }
  }

  /** Sorted by address, no empty block, and no two blocks touch. */
  ghost predicate Canonical(bs: seq<Block>) {
    && (forall i :: 0 <= i < |bs| ==> bs[i].size > 0)
    && (forall i, j :: 0 <= i < j < |bs| ==> bs[i].End() < bs[j].offset)
  }

  ghost predicate Holds(b: Block, x: int) {
    b.offset <= x < b.End()
  }

  /** Byte x is free. */
  ghost predicate Covers(bs: seq<Block>, x: int) {
    exists i :: 0 <= i < |bs| && Holds(bs[i], x)
  }

  ghost predicate SameBytes(as_: seq<Block>, bs: seq<Block>) {
    forall x: int :: Covers(as_, x) <==> Covers(bs, x)
  }

  /** No block of bs holds a byte of [lo, hi). */
  ghost predicate DisjointFrom(bs: seq<Block>, lo: int, hi: int) {
    forall i :: 0 <= i < |bs| ==> bs[i].End() <= lo || hi <= bs[i].offset
  }

  /** No block of bs ends at lo or starts at hi. */
  ghost predicate TouchesNone(bs: seq<Block>, lo: int, hi: int) {
    forall i :: 0 <= i < |bs| ==> bs[i].End() != lo && hi != bs[i].offset
  }

  lemma CoversAt(bs: seq<Block>, i: int, x: int)
    requires 0 <= i < |bs| && Holds(bs[i], x)
    ensures Covers(bs, x)
  {
  }

  /** The first block of a canonical list starts at the lowest free byte and
      ends at the first byte after it that is not free. */
  lemma FirstBlock(bs: seq<Block>)
    requires Canonical(bs) && |bs| > 0
    ensures Covers(bs, bs[0].offset)
    ensures forall x: int :: x < bs[0].offset ==> !Covers(bs, x)
    ensures forall x: int :: bs[0].offset <= x < bs[0].End() ==> Covers(bs, x)
    ensures !Covers(bs, bs[0].End())
  {
    assert Holds(bs[0], bs[0].offset);
    forall x: int | bs[0].offset <= x < bs[0].End() ensures Covers(bs, x) {
      CoversAt(bs, 0, x);
    }
  }

  lemma TailCovers(bs: seq<Block>, x: int)
    requires Canonical(bs) && |bs| > 0
    ensures Covers(bs[1..], x) <==> Covers(bs, x) && x >= bs[0].End()
  {
    if Covers(bs[1..], x) {
      var i :| 0 <= i < |bs[1..]| && Holds(bs[1..][i], x);
      assert Holds(bs[i + 1], x);
    }
    if Covers(bs, x) && x >= bs[0].End() {
      var i :| 0 <= i < |bs| && Holds(bs[i], x);
      assert Holds(bs[1..][i - 1], x);
    }
  }

  /** Canonical form: the list is a function of the set of free bytes. Whatever the
      order in which regions were taken and returned, equal free bytes mean an equal list. */
  lemma {:induction false} CanonicalUnique(as_: seq<Block>, bs: seq<Block>)
    requires Canonical(as_) && Canonical(bs) && SameBytes(as_, bs)
    ensures as_ == bs
    decreases |as_|
  {
    if |as_| == 0 {
      if |bs| > 0 {
        CoversAt(bs, 0, bs[0].offset);
      }
    } else {
      FirstBlock(as_);
      assert Covers(bs, as_[0].offset);
      FirstBlock(bs);
      assert as_[0].offset == bs[0].offset;
      assert Covers(as_, as_[0].End()) <==> Covers(bs, as_[0].End());
      assert Covers(as_, bs[0].End()) <==> Covers(bs, bs[0].End());
      assert as_[0].End() == bs[0].End();
      forall x: int ensures Covers(as_[1..], x) <==> Covers(bs[1..], x) {
        TailCovers(as_, x);
        TailCovers(bs, x);
      }
      CanonicalUnique(as_[1..], bs[1..]);
      assert as_ == [as_[0]] + as_[1..];
      assert bs == [bs[0]] + bs[1..];
    }
  }

  /** A chunk all of whose bytes are free holds one block. */
  lemma AllFreeIsOneBlock(bs: seq<Block>, capacity: nat)
    requires Canonical(bs) && capacity > 0
    requires forall x: int :: Covers(bs, x) <==> 0 <= x < capacity
    ensures bs == [Block(0, capacity)]
  {
    var whole := [Block(0, capacity)];
    forall x: int ensures Covers(whole, x) <==> 0 <= x < capacity {
      if 0 <= x < capacity {
        CoversAt(whole, 0, x);
      }
    }
    CanonicalUnique(bs, whole);
  }

  /** bs without its block i. */
  function Removed(bs: seq<Block>, i: nat): (r: seq<Block>)
    requires i < |bs|
    ensures |r| == |bs| - 1
    ensures forall k :: 0 <= k < i ==> r[k] == bs[k]
    ensures forall k :: i <= k < |r| ==> r[k] == bs[k + 1]
  {
    bs[..i] + bs[i + 1..]
  }

  /** bs with b put in at position p. */
  function Inserted(bs: seq<Block>, p: nat, b: Block): (r: seq<Block>)
    requires p <= |bs|
    ensures |r| == |bs| + 1 && r[p] == b
    ensures forall k :: 0 <= k < p ==> r[k] == bs[k]
    ensures forall k :: p < k < |r| ==> r[k] == bs[k - 1]
  {
    bs[..p] + [b] + bs[p..]
  }

  /** Block i of bs shrunk from the front by size, or dropped when used up. */
  function Shrunk(bs: seq<Block>, i: nat, size: nat): (r: seq<Block>)
    requires i < |bs| && size <= bs[i].size
  {
    if bs[i].size == size then Removed(bs, i)
    else bs[i := Block(bs[i].offset + size, bs[i].size - size)]
  }

  /** Block i of bs grown at its end by size, absorbing block i + 1 when they then touch. */
  function GrownAtEnd(bs: seq<Block>, i: nat, size: nat): (r: seq<Block>)
    requires i < |bs|
  {
    var b := Block(bs[i].offset, bs[i].size + size);
    if i + 1 < |bs| && b.End() == bs[i + 1].offset then
      Removed(bs[i := Block(b.offset, b.size + bs[i + 1].size)], i + 1)
    else
      bs[i := b]
  }

  /** Block i of bs grown at its start by size. */
  function GrownAtStart(bs: seq<Block>, i: nat, size: nat): (r: seq<Block>)
    requires i < |bs| && size <= bs[i].offset
  {
    bs[i := Block(bs[i].offset - size, bs[i].size + size)]
  }

  /** Byte x lies in a block of bs other than block i. */
  ghost predicate OthersHold(bs: seq<Block>, i: nat, x: int) {
    exists k :: 0 <= k < |bs| && k != i && Holds(bs[k], x)
  }

  lemma CoversSplit(bs: seq<Block>, i: nat, x: int)
    requires i < |bs|
    ensures Covers(bs, x) <==> OthersHold(bs, i, x) || Holds(bs[i], x)
  {
  }

  lemma ReplacedCovers(bs: seq<Block>, i: nat, b: Block, x: int)
    requires i < |bs|
    ensures Covers(bs[i := b], x) <==> OthersHold(bs, i, x) || Holds(b, x)
  {
    var r := bs[i := b];
    if Covers(r, x) {
      var k :| 0 <= k < |r| && Holds(r[k], x);
      assert k != i ==> Holds(bs[k], x);
    }
    if OthersHold(bs, i, x) {
      var k :| 0 <= k < |bs| && k != i && Holds(bs[k], x);
      CoversAt(r, k, x);
    }
    if Holds(b, x) {
      CoversAt(r, i, x);
    }
  }

  lemma RemovedCovers(bs: seq<Block>, i: nat, x: int)
    requires i < |bs|
    ensures Covers(Removed(bs, i), x) <==> OthersHold(bs, i, x)
  {
    var r := Removed(bs, i);
    if Covers(r, x) {
      var k :| 0 <= k < |r| && Holds(r[k], x);
      var k' := if k >= i then k + 1 else k;
      assert Holds(bs[k'], x);
    }
    if OthersHold(bs, i, x) {
      var k :| 0 <= k < |bs| && k != i && Holds(bs[k], x);
      CoversAt(r, if k > i then k - 1 else k, x);
    }
  }

  lemma ShrunkCanonical(bs: seq<Block>, i: nat, size: nat)
    requires Canonical(bs) && i < |bs| && 0 < size <= bs[i].size
    ensures Canonical(Shrunk(bs, i, size))
  {
  }

  lemma ShrunkCovers(bs: seq<Block>, i: nat, size: nat, x: int)
    requires Canonical(bs) && i < |bs| && 0 < size <= bs[i].size
    ensures Covers(Shrunk(bs, i, size), x) <==>
              Covers(bs, x) && !(bs[i].offset <= x < bs[i].offset + size)
  {
    CoversSplit(bs, i, x);
    if bs[i].size == size {
      RemovedCovers(bs, i, x);
    } else {
      ReplacedCovers(bs, i, Block(bs[i].offset + size, bs[i].size - size), x);
    }
  }

  lemma GrownAtEndCanonical(bs: seq<Block>, i: nat, size: nat)
    requires Canonical(bs) && i < |bs| && size > 0
    requires DisjointFrom(bs, bs[i].End(), bs[i].End() + size)
    ensures Canonical(GrownAtEnd(bs, i, size))
  {
    if i + 1 < |bs| && bs[i].End() + size == bs[i + 1].offset {
      MergedCanonical(bs, i, Block(bs[i].offset, bs[i].size + size + bs[i + 1].size));
    } else {
      ReplacedCanonical(bs, i, Block(bs[i].offset, bs[i].size + size));
    }
  }

  lemma MergedCanonical(bs: seq<Block>, i: nat, b: Block)
    requires Canonical(bs) && i + 1 < |bs| && b.offset == bs[i].offset && b.End() == bs[i + 1].End() && b.size > 0
    ensures Canonical(Removed(bs[i := b], i + 1))
  {
    var short := Removed(bs, i + 1);
    RemovedCanonical(bs, i + 1);
    assert Removed(bs[i := b], i + 1) == short[i := b];
    ReplacedCanonical(short, i, b);
  }

  lemma RemovedCanonical(bs: seq<Block>, i: nat)
    requires Canonical(bs) && i < |bs|
    ensures Canonical(Removed(bs, i))
  {
  }

  lemma ReplacedCanonical(bs: seq<Block>, i: nat, b: Block)
    requires Canonical(bs) && i < |bs| && b.size > 0
    requires i > 0 ==> bs[i - 1].End() < b.offset
    requires i + 1 < |bs| ==> b.End() < bs[i + 1].offset
    ensures Canonical(bs[i := b])
  {
    forall k | 0 <= k < i ensures bs[k].End() < b.offset {
      if k < i - 1 {
        assert bs[k].End() < bs[i - 1].offset;
      }
    }
    forall k | i < k < |bs| ensures b.End() < bs[k].offset {
      if k > i + 1 {
        assert bs[i + 1].End() < bs[k].offset;
      }
    }
  }

  lemma GrownAtEndCovers(bs: seq<Block>, i: nat, size: nat, x: int)
    requires Canonical(bs) && i < |bs| && size > 0
    ensures Covers(GrownAtEnd(bs, i, size), x) <==>
              Covers(bs, x) || bs[i].End() <= x < bs[i].End() + size
  {
    CoversSplit(bs, i, x);
    if i + 1 < |bs| && bs[i].End() + size == bs[i + 1].offset {
      var b := Block(bs[i].offset, bs[i].size + size + bs[i + 1].size);
      var short := Removed(bs, i + 1);
      assert GrownAtEnd(bs, i, size) == short[i := b];
      CoversSplit(bs, i + 1, x);
      RemovedCovers(bs, i + 1, x);
      CoversSplit(short, i, x);
      ReplacedCovers(short, i, b, x);
    } else {
      ReplacedCovers(bs, i, Block(bs[i].offset, bs[i].size + size), x);
    }
  }

  lemma GrownAtStartCanonical(bs: seq<Block>, i: nat, size: nat)
    requires Canonical(bs) && i < |bs| && 0 < size <= bs[i].offset
    requires DisjointFrom(bs, bs[i].offset - size, bs[i].offset)
    requires i > 0 ==> bs[i - 1].End() != bs[i].offset - size
    ensures Canonical(GrownAtStart(bs, i, size))
  {
    ReplacedCanonical(bs, i, Block(bs[i].offset - size, bs[i].size + size));
  }

  lemma GrownAtStartCovers(bs: seq<Block>, i: nat, size: nat, x: int)
    requires i < |bs| && 0 < size <= bs[i].offset
    ensures Covers(GrownAtStart(bs, i, size), x) <==>
              Covers(bs, x) || bs[i].offset - size <= x < bs[i].offset
  {
    CoversSplit(bs, i, x);
    ReplacedCovers(bs, i, Block(bs[i].offset - size, bs[i].size + size), x);
  }

  lemma InsertedCanonical(bs: seq<Block>, p: nat, b: Block)
    requires Canonical(bs) && p <= |bs| && b.size > 0
    requires forall i :: 0 <= i < p ==> bs[i].offset < b.offset
    requires p < |bs| ==> b.offset <= bs[p].offset
    requires DisjointFrom(bs, b.offset, b.End()) && TouchesNone(bs, b.offset, b.End())
    ensures Canonical(Inserted(bs, p, b))
  {
    var r := Inserted(bs, p, b);
    forall i | p <= i < |bs| ensures b.offset <= bs[i].offset {
      assert bs[p].offset <= bs[i].offset;
    }
    assert forall i :: 0 <= i < p ==> bs[i].End() < b.offset;
    assert forall i :: p <= i < |bs| ==> b.End() < bs[i].offset;
    forall i, j | 0 <= i < j < |r| ensures r[i].End() < r[j].offset {
      if i != p && j != p {
        var i', j' := if i < p then i else i - 1, if j < p then j else j - 1;
        assert bs[i'].End() < bs[j'].offset;
      }
    }
  }

  lemma InsertedCovers(bs: seq<Block>, p: nat, b: Block, x: int)
    requires p <= |bs|
    ensures Covers(Inserted(bs, p, b), x) <==> Covers(bs, x) || b.offset <= x < b.End()
  {
    var r := Inserted(bs, p, b);
    if Covers(r, x) {
      var k :| 0 <= k < |r| && Holds(r[k], x);
      if k != p {
        CoversAt(bs, if k < p then k else k - 1, x);
      }
    }
    if Covers(bs, x) {
      var k :| 0 <= k < |bs| && Holds(bs[k], x);
      CoversAt(r, if k < p then k else k + 1, x);
    }
    if b.offset <= x < b.End() {
      CoversAt(r, p, x);
    }
  }

  /** r is canonical and its bytes are those of bs and of [lo, hi). */
  ghost predicate AddsBytes(bs: seq<Block>, r: seq<Block>, lo: int, hi: int) {
    Canonical(r) && forall x: int :: Covers(r, x) <==> Covers(bs, x) || lo <= x < hi
  }

  /** r is canonical and its bytes are those of bs without [lo, hi), all of which were free. */
  ghost predicate TakesBytes(bs: seq<Block>, r: seq<Block>, lo: int, hi: int) {
    && Canonical(r)
    && (forall x: int :: Covers(r, x) <==> Covers(bs, x) && !(lo <= x < hi))
    && (forall x: int :: lo <= x < hi ==> Covers(bs, x))
  }

  lemma ShrunkTakes(bs: seq<Block>, i: nat, size: nat)
    requires Canonical(bs) && i < |bs| && 0 < size <= bs[i].size
    ensures TakesBytes(bs, Shrunk(bs, i, size), bs[i].offset, bs[i].offset + size)
  {
    ShrunkCanonical(bs, i, size);
    forall x: int
      ensures Covers(Shrunk(bs, i, size), x) <==> Covers(bs, x) && !(bs[i].offset <= x < bs[i].offset + size)
    {
      ShrunkCovers(bs, i, size, x);
    }
    forall x: int | bs[i].offset <= x < bs[i].offset + size ensures Covers(bs, x) {
      CoversAt(bs, i, x);
    }
  }

  lemma GrownAtEndAdds(bs: seq<Block>, i: nat, size: nat)
    requires Canonical(bs) && i < |bs| && size > 0
    requires DisjointFrom(bs, bs[i].End(), bs[i].End() + size)
    ensures AddsBytes(bs, GrownAtEnd(bs, i, size), bs[i].End(), bs[i].End() + size)
  {
    GrownAtEndCanonical(bs, i, size);
    forall x: int ensures Covers(GrownAtEnd(bs, i, size), x) <==> Covers(bs, x) || bs[i].End() <= x < bs[i].End() + size {
      GrownAtEndCovers(bs, i, size, x);
    }
  }

  lemma GrownAtStartAdds(bs: seq<Block>, i: nat, size: nat)
    requires Canonical(bs) && i < |bs| && 0 < size <= bs[i].offset
    requires DisjointFrom(bs, bs[i].offset - size, bs[i].offset)
    requires i > 0 ==> bs[i - 1].End() != bs[i].offset - size
    ensures AddsBytes(bs, GrownAtStart(bs, i, size), bs[i].offset - size, bs[i].offset)
  {
    GrownAtStartCanonical(bs, i, size);
    forall x: int ensures Covers(GrownAtStart(bs, i, size), x) <==> Covers(bs, x) || bs[i].offset - size <= x < bs[i].offset {
      GrownAtStartCovers(bs, i, size, x);
    }
  }

  lemma InsertedAdds(bs: seq<Block>, p: nat, b: Block)
    requires Canonical(bs) && p <= |bs| && b.size > 0
    requires forall i :: 0 <= i < p ==> bs[i].offset < b.offset
    requires p < |bs| ==> b.offset <= bs[p].offset
    requires DisjointFrom(bs, b.offset, b.End()) && TouchesNone(bs, b.offset, b.End())
    ensures AddsBytes(bs, Inserted(bs, p, b), b.offset, b.End())
  {
    InsertedCanonical(bs, p, b);
    forall x: int ensures Covers(Inserted(bs, p, b), x) <==> Covers(bs, x) || b.offset <= x < b.End() {
      InsertedCovers(bs, p, b, x);
    }
  }

  /** The smallest multiple of alignment that is at least size (base address NULL). */
  function AlignedSize(size: nat, alignment: nat): (r: nat)
    requires alignment > 0
    ensures r % alignment == 0 && size <= r < size + alignment
  {
    var pad := (alignment - size % alignment) % alignment;
    assert (size + pad) % alignment == 0 by {
      AlignUp(size, alignment);
    }
    size + pad
  }

  lemma AlignUp(size: nat, alignment: nat)
    requires alignment > 0
    ensures (size + (alignment - size % alignment) % alignment) % alignment == 0
  {
    var q, m := size / alignment, size % alignment;
    if m == 0 {
      MultipleMod(1, alignment, alignment);
    } else {
      SmallMod(alignment - m, alignment);
      NextMultiple(size, q, m, alignment);
    }
  }

  lemma NextMultiple(size: nat, q: nat, m: nat, a: nat)
    requires 0 < m < a && size == q * a + m
    ensures (size + (a - m)) % a == 0
  {
    MultipleMod(q + 1, a, size + (a - m));
  }

  lemma MultipleMod(q: nat, a: nat, x: nat)
    requires a > 0 && x == q * a
    ensures x % a == 0
  {
    var d := q - x / a;
    assert x == a * (x / a) + x % a;
    assert a * d == x % a;
  }

  lemma AddMod(x: nat, y: nat, a: nat)
    requires a > 0 && x % a == 0 && y % a == 0
    ensures (x + y) % a == 0
    ensures x >= y ==> (x - y) % a == 0
  {
    var p, q := x / a, y / a;
    assert x == p * a && y == q * a;
    assert x + y == (p + q) * a;
    MultipleMod(p + q, a, x + y);
    if x >= y {
      assert x - y == (p - q) * a;
      assert p >= q;
      MultipleMod(p - q, a, x - y);
    }
  }

  /** AlignedSize is the least multiple: it keeps order, and multiples stay as they are. */
  lemma AlignedSizeLeast(x: nat, y: nat, a: nat)
    requires a > 0 && x <= y
    ensures AlignedSize(x, a) <= AlignedSize(y, a)
    ensures y % a == 0 ==> AlignedSize(x, a) <= y && AlignedSize(y, a) == y
  {
    LeastMultiple(x, AlignedSize(y, a), a);
    if y % a == 0 {
      LeastMultiple(x, y, a);
      LeastMultiple(y, y, a);
    }
  }

  lemma LeastMultiple(x: nat, m: nat, a: nat)
    requires a > 0 && x <= m && m % a == 0
    ensures AlignedSize(x, a) <= m
  {
    var r := AlignedSize(x, a);
    if r > m {
      AddMod(r, m, a);
      SmallMod(r - m, a);
    }
  }

  lemma SmallMod(d: nat, a: nat)
    requires d < a
    ensures d % a == d
  {
  }
}
