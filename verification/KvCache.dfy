/** The key/value cache that all decoders share: cells tagged with the sequences they belong to. */
module KvCache {
  import FreeList

  /** pos is negative for a cell in no sequence. */
  datatype Cell = Cell(pos: int, seqId: set<int>)

  type Cells = seq<Cell>

  datatype BatchToken = BatchToken(token: nat, pos: int, seqId: seq<int>)

  type Batch = seq<BatchToken>

  const MAX_POS := 0x7FFF_FFFF

  const FREE := Cell(-1, {})

  /** A cell is in some sequence at a position, or in none and has no position. */
  predicate TidyCell(c: Cell) {
    if c.pos >= 0 then c.seqId != {} else c == FREE
  }

  predicate Tidy(cells: Cells) {
    forall c :: c in cells ==> TidyCell(c)
  }

  // ----- one cell

  function Lower(p0: int): int {
    if p0 < 0 then 0 else p0
  }

  function Upper(p1: int): int {
    if p1 < 0 then MAX_POS else p1
  }

  predicate InRange(c: Cell, p0: int, p1: int) {
    Lower(p0) <= c.pos < Upper(p1)
  }

  /** Without the sequence, or without any when id is negative; a cell in none is free. */
  function Removed(c: Cell, id: int, p0: int, p1: int): Cell {
    if !InRange(c, p0, p1) || (id >= 0 && id !in c.seqId) then c
    else
      var left := if id < 0 then {} else c.seqId - {id};
      Cell(if left == {} then -1 else c.pos, left)
  }

  function Copied(c: Cell, src: int, dst: int, p0: int, p1: int): Cell {
    if src in c.seqId && InRange(c, p0, p1) then c.(seqId := c.seqId + {dst}) else c
  }

  /** A position from p0 on and before p1, where a negative bound is none. */
  predicate Between(pos: int, p0: int, p1: int) {
    pos >= 0 && pos >= p0 && if p1 < 0 then pos < MAX_POS else pos < p1
  }

  /** Sequence id, or every one if that is negative, is off the cells with positions from p0 to p1 and no
      other is off any; a cell that is left in none has no position. */
  ghost predicate TakenOff(before: Cells, after: Cells, id: int, p0: int, p1: int) {
    && |after| == |before|
    && (forall i, q :: 0 <= i < |after| ==>
          (q in after[i].seqId <==> q in before[i].seqId && !(Between(before[i].pos, p0, p1) && (id < 0 || q == id))))
    && forall i :: 0 <= i < |after| ==> after[i].pos == if after[i].seqId == {} then -1 else before[i].pos
  }

  /** Sequence dst is on the cells of src with positions from p0 to p1, and nothing else has changed. */
  ghost predicate PutOn(before: Cells, after: Cells, src: int, dst: int, p0: int, p1: int) {
    && |after| == |before|
    && forall i, q :: 0 <= i < |after| ==>
         && after[i].pos == before[i].pos
         && (q in after[i].seqId <==> q in before[i].seqId || (q == dst && src in before[i].seqId && Between(before[i].pos, p0, p1)))
  }

  /** The cell a token of a batch leaves when it takes over c. */
  function Taken(c: Cell, t: BatchToken): Cell {
    Cell(t.pos, c.seqId + (set id | id in t.seqId))
  }

  /** Cell i was in use and no longer is. */
  predicate Freed(before: Cells, after: Cells, i: nat) {
    i < |before| && i < |after| && before[i].pos >= 0 && after[i].pos < 0
  }

  // ----- slots

  predicate FreeRun(cells: Cells, at: nat, n: nat) {
    at + n <= |cells| && forall i :: at <= i < at + n ==> cells[i].pos < 0
  }

  /** The next free run from start on; only where there is none, the first one of all. */
  ghost predicate NextRun(cells: Cells, start: nat, n: nat, at: nat) {
    && FreeRun(cells, at, n)
    && if at >= start then forall s: nat :: FreeRun(cells, s, n) ==> s < start || at <= s
       else forall s: nat :: FreeRun(cells, s, n) ==> at <= s < start
  }

  function Written(cells: Cells, at: nat, batch: Batch): (r: Cells)
    requires at + |batch| <= |cells|
    ensures |r| == |cells|
  {
    seq(|cells|, i requires 0 <= i < |cells| => if at <= i < at + |batch| then Taken(cells[i], batch[i - at]) else cells[i])
  }

  /** Every token has a position and a sequence. */
  predicate ProperBatch(batch: Batch) {
    forall t :: t in batch ==> t.pos >= 0 && t.seqId != []
  }

  lemma WrittenTidy(cells: Cells, at: nat, batch: Batch)
    requires Tidy(cells) && at + |batch| <= |cells| && ProperBatch(batch)
    ensures Tidy(Written(cells, at, batch))
  {
    forall c | c in Written(cells, at, batch) ensures TidyCell(c) {
      var i :| 0 <= i < |cells| && Written(cells, at, batch)[i] == c;
      assert cells[i] in cells;
      if at <= i < at + |batch| {
        var t := batch[i - at];
        assert t in batch;
        assert t.seqId[0] in c.seqId;
      }
    }
  }

  /** The cells in use lie below n. */
  predicate Covers(cells: Cells, n: nat) {
    forall i :: n <= i < |cells| ==> cells[i].pos < 0 || cells[i].seqId == {}
  }

  class Cache {
    var head: nat
    var n: nat
    var cells: Cells

    predicate Valid()
      reads this
    {
      |cells| > 0 && head <= |cells| && Tidy(cells)
    }

    constructor (size: nat)
      requires size > 0
      ensures Valid() && |cells| == size && forall c :: c in cells ==> c == FREE
    {
      head, n := 0, 0;
      cells := seq(size, i => FREE);
    }

    /** Looks for room for n tokens from head on and around; which cells have been passed over is
        counted in tested. */
    method Search(want: nat) returns (found: bool)
      requires head <= |cells| && want <= |cells|
      modifies this`head
      ensures head <= |cells|
      ensures found ==> NextRun(cells, old(head), want, head)
      ensures !found ==> forall s: nat :: !FreeRun(cells, s, want)
    {
      ghost var start := head;
      ghost var round := 1;
      var tested := 0;
      while true
        invariant head <= |cells|
        invariant round == 1 ==> start <= head && tested == head - start && forall s: nat :: FreeRun(cells, s, want) ==> s < start || head <= s
        invariant round == 2 ==> tested == |cells| - start + head && forall s: nat :: FreeRun(cells, s, want) ==> head <= s < start
        invariant round == 3 ==> tested >= |cells| && forall s: nat :: !FreeRun(cells, s, want)
        invariant 1 <= round <= 3
        decreases if tested < |cells| then |cells| - tested else 0, if head + want > |cells| then 1 else 0
      {
        if head + want > |cells| {
          tested := tested + (|cells| - head);
          head := 0;
          round := if round == 1 then 2 else 3;
          continue;
        }
        var used := FirstUsed(want);
        if used == want {
          return true;
        }
        head := head + used + 1;
        tested := tested + used + 1;
        if tested >= |cells| {
          return false;
        }
      }
    }

    /** How many of the next cells are free, up to want; a slot reaching over a used cell is none. */
    method FirstUsed(want: nat) returns (i: nat)
      requires head + want <= |cells|
      ensures i <= want && FreeRun(cells, head, i)
      ensures i < want ==> cells[head + i].pos >= 0
      ensures i < want ==> forall s: nat :: head <= s && FreeRun(cells, s, want) ==> head + i < s
    {
      i := 0;
      while i < want && cells[head + i].pos < 0
        invariant i <= want && FreeRun(cells, head, i)
      {
        i := i + 1;
      }
      if i < want {
        forall s: nat | head <= s && FreeRun(cells, s, want) ensures head + i < s {
          assert cells[head + i].pos >= 0;
        }
      }
    }

    /** Takes room for a batch, if there is any at all. */
    method FindSlot(batch: Batch) returns (ok: bool)
      requires Valid()
      modifies this`head, this`cells
      ensures ok <==> exists s: nat :: FreeRun(old(cells), s, |batch|)
      ensures !ok ==> cells == old(cells)
      ensures ok ==> NextRun(old(cells), old(head), |batch|, head) && cells == Written(old(cells), head, batch)
      ensures head <= |cells| && (ProperBatch(batch) || !ok ==> Valid())
    {
      if |batch| > |cells| {
        return false;
      }
      ok := Search(|batch|);
      if ok {
        ghost var before, at := cells, head;
        for i := 0 to |batch|
          invariant head == at && |cells| == |before| && at + |batch| <= |cells|
          invariant cells == Written(before, head, batch[..i])
        {
          cells := cells[head + i := Taken(cells[head + i], batch[i])];
        }
        assert batch[..|batch|] == batch;
        if ProperBatch(batch) {
          WrittenTidy(before, head, batch);
        }
      }
    }

    /** One past the last cell in use, but at least 1. */
    method CellMax() returns (m: nat)
      requires Valid()
      ensures 1 <= m <= |cells| && Covers(cells, m)
      ensures m > 1 ==> cells[m - 1].pos >= 0 && cells[m - 1].seqId != {}
    {
      var i := |cells| - 1;
      while i > 0
        invariant 0 <= i < |cells|
        invariant Covers(cells, i + 1)
      {
        if cells[i].pos >= 0 && cells[i].seqId != {} {
          return i + 1;
        }
        i := i - 1;
      }
      return 1;
    }

    /** How many cells the attention has to look at: all that are in use, padded. */
    method SetN(pad: nat)
      requires Valid() && pad > 0
      modifies this`n
      ensures n <= |cells| && Covers(cells, n) && (n % pad == 0 || n == |cells|)
      ensures forall k: nat :: 0 < k && k % pad == 0 && Covers(cells, k) ==> n <= k
    {
      var m := CellMax();
      var padded := FreeList.AlignedSize(m, pad);
      n := if padded < pad then pad else padded;
      if |cells| < n {
        n := |cells|;
      }
      forall k: nat | 0 < k && k % pad == 0 && Covers(cells, k) ensures n <= k {
        FreeList.LeastMultiple(m, k, pad);
        FreeList.LeastMultiple(1, k, pad);
        PadAtLeast(k, pad);
      }
    }

    method Clear()
      requires |cells| > 0
      modifies this`head, this`cells
      ensures Valid() && |cells| == old(|cells|) && head == 0 && forall c :: c in cells ==> c == FREE
    {
      for i := 0 to |cells|
        invariant |cells| == old(|cells|)
        invariant forall k :: 0 <= k < i ==> cells[k] == FREE
      {
        cells := cells[i := FREE];
      }
      head := 0;
    }

    /** Takes a sequence, or all of them, off the cells with positions in [p0, p1). */
    method SeqRm(id: int, p0: int, p1: int)
      requires Valid()
      modifies this`head, this`cells
      ensures Valid() && |cells| == old(|cells|)
      ensures forall i :: 0 <= i < |cells| ==> cells[i] == Removed(old(cells)[i], id, p0, p1)
      ensures TakenOff(old(cells), cells, id, p0, p1)
      ensures Freed(old(cells), cells, head) || head == old(head)
      ensures forall i :: 0 <= i < |cells| && Freed(old(cells), cells, i) ==> Freed(old(cells), cells, head) && head <= i
    {
      var newHead: nat := |cells|;
      for i := 0 to |cells|
        invariant |cells| == old(|cells|) && newHead <= |cells| && head == old(head)
        invariant newHead < |cells| ==> newHead < i && Freed(old(cells), cells, newHead)
        invariant forall k :: 0 <= k < i && k < newHead ==> old(cells)[k].pos < 0 || cells[k].pos >= 0
        invariant forall k :: 0 <= k < i ==> cells[k] == Removed(old(cells)[k], id, p0, p1)
        invariant forall k :: i <= k < |cells| ==> cells[k] == old(cells)[k]
      {
        var c := cells[i];
        if c.pos >= Lower(p0) && c.pos < Upper(p1) && (id < 0 || id in c.seqId) {
          var left := if id < 0 then {} else c.seqId - {id};
          cells := cells[i := c.(seqId := left)];
          if left == {} {
            cells := cells[i := Cell(-1, left)];
            if newHead == |cells| {
              newHead := i;
            }
          }
        }
      }
      RemovedTidy(old(cells), cells, id, p0, p1);
      if newHead != |cells| {
        head := newHead;
      }
    }

    /** Adds sequence dst to the cells of src with positions in [p0, p1). */
    method SeqCp(src: int, dst: int, p0: int, p1: int)
      requires Valid()
      modifies this`head, this`cells
      ensures Valid() && |cells| == old(|cells|) && head == 0
      ensures forall i :: 0 <= i < |cells| ==> cells[i] == Copied(old(cells)[i], src, dst, p0, p1)
      ensures PutOn(old(cells), cells, src, dst, p0, p1)
    {
      head := 0;
      for i := 0 to |cells|
        invariant |cells| == old(|cells|) && head == 0
        invariant forall k :: 0 <= k < i ==> cells[k] == Copied(old(cells)[k], src, dst, p0, p1)
        invariant forall k :: i <= k < |cells| ==> cells[k] == old(cells)[k]
      {
        var c := cells[i];
        if src in c.seqId && c.pos >= Lower(p0) && c.pos < Upper(p1) {
          cells := cells[i := c.(seqId := c.seqId + {dst})];
        }
      }
      CopiedTidy(old(cells), cells, src, dst, p0, p1);
    }
  }

  lemma PadAtLeast(k: nat, pad: nat)
    requires k > 0 && pad > 0 && k % pad == 0
    ensures pad <= k
  {
  }

  lemma RemovedTidy(before: Cells, after: Cells, id: int, p0: int, p1: int)
    requires Tidy(before) && |after| == |before|
    requires forall i :: 0 <= i < |after| ==> after[i] == Removed(before[i], id, p0, p1)
    ensures Tidy(after) && TakenOff(before, after, id, p0, p1)
  {
    forall c | c in after ensures TidyCell(c) {
      var i :| 0 <= i < |after| && after[i] == c;
      assert before[i] in before;
    }
    forall i | 0 <= i < |after| ensures TidyCell(before[i]) {
      assert before[i] in before;
    }
  }

  lemma CopiedTidy(before: Cells, after: Cells, src: int, dst: int, p0: int, p1: int)
    requires Tidy(before) && |after| == |before|
    requires forall i :: 0 <= i < |after| ==> after[i] == Copied(before[i], src, dst, p0, p1)
    ensures Tidy(after) && PutOn(before, after, src, dst, p0, p1)
  {
    forall c | c in after ensures TidyCell(c) {
      var i :| 0 <= i < |after| && after[i] == c;
      assert before[i] in before;
    }
  }
}
