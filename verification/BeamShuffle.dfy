/** Reassigning the sequences of the shared cache during beam search: every active decoder takes over
    the cells of the decoder its new tokens come from, by way of staging ids. */
module BeamShuffle {
  import opened KvCache
  import opened SharedHistory

  const MAX_DECODERS := 8

  /** The decoder each active decoder takes over from. */
  datatype Moves = Moves(active: seq<bool>, parent: seq<nat>)

  predicate ValidMoves(m: Moves) {
    && |m.active| == |m.parent| <= MAX_DECODERS
    && forall j :: 0 <= j < |m.parent| ==> m.parent[j] < |m.parent|
  }

  predicate Moving(m: Moves, j: int)
    requires ValidMoves(m)
  {
    0 <= j < |m.active| && m.active[j]
  }

  /** A cell of some of n sequences, with a position that counts as one. */
  predicate PlainCell(c: Cell, n: nat) {
    TidyCell(c) && c.pos < MAX_POS && forall id :: id in c.seqId ==> 0 <= id < n
  }

  predicate PlainCells(cells: Cells, n: nat) {
    forall i :: 0 <= i < |cells| ==> PlainCell(cells[i], n)
  }

  /** After the first k decoders have copied their parents' cells to staging ids. */
  ghost predicate Staged(was: Cell, now: Cell, m: Moves, k: nat)
    requires ValidMoves(m)
  {
    && now.pos == was.pos
    && forall id :: id in now.seqId <==>
         id in was.seqId || (MAX_DECODERS <= id < MAX_DECODERS + k && Moving(m, id - MAX_DECODERS) && m.parent[id - MAX_DECODERS] in was.seqId)
  }

  /** Which sequences a cell is in when the first k decoders have taken over. */
  predicate InSequence(was: Cell, m: Moves, k: nat, id: int)
    requires ValidMoves(m)
  {
    if 0 <= id < MAX_DECODERS then
      if id < k && Moving(m, id) then m.parent[id] in was.seqId else id in was.seqId
    else
      k + MAX_DECODERS <= id && Moving(m, id - MAX_DECODERS) && m.parent[id - MAX_DECODERS] in was.seqId
  }

  ghost predicate Moved(was: Cell, now: Cell, m: Moves, k: nat)
    requires ValidMoves(m)
  {
    && (forall id :: id in now.seqId <==> InSequence(was, m, k, id))
    && now.pos == if now.seqId == {} then -1 else was.pos
  }

  lemma StageOne(was: Cell, now: Cell, m: Moves, k: nat)
    requires ValidMoves(m) && k < |m.active| && PlainCell(was, |m.active|) && Staged(was, now, m, k)
    ensures Staged(was, if m.active[k] then Copied(now, m.parent[k], MAX_DECODERS + k, -1, -1) else now, m, k + 1)
  {
    assert m.parent[k] in now.seqId <==> m.parent[k] in was.seqId;
    assert m.parent[k] in was.seqId ==> was.pos >= 0;
  }

  lemma StagedIsMoved(was: Cell, now: Cell, m: Moves)
    requires ValidMoves(m) && PlainCell(was, |m.active|) && Staged(was, now, m, |m.active|)
    ensures Moved(was, now, m, 0)
  {
    forall id ensures id in now.seqId <==> InSequence(was, m, 0, id) {
    }
    if was.seqId != {} {
      forall id | id in was.seqId ensures id in now.seqId {
        assert InSequence(was, m, 0, id);
      }
      assert was.seqId <= now.seqId;
    } else {
      forall id ensures id !in now.seqId {
      }
      assert now.seqId == {};
    }
  }

  /** The three steps by which decoder k takes over from its staging id. */
  function TakenOver(c: Cell, k: nat): Cell {
    Removed(Copied(Removed(c, k, -1, -1), MAX_DECODERS + k, k, -1, -1), MAX_DECODERS + k, -1, -1)
  }

  lemma TakenOverTags(c: Cell, k: nat)
    requires TidyCell(c) && c.pos < MAX_POS && k < MAX_DECODERS
    ensures var now := TakenOver(c, k);
            && now.pos == (if now.seqId == {} then -1 else c.pos)
            && forall id :: id in now.seqId <==>
                 if id == k then MAX_DECODERS + k in c.seqId else id != MAX_DECODERS + k && id in c.seqId
  {
    var a := Removed(c, k, -1, -1);
    assert forall id :: id in a.seqId <==> id != k && id in c.seqId;
    assert a.pos == if a.seqId == {} then -1 else c.pos;
    var b := Copied(a, MAX_DECODERS + k, k, -1, -1);
    assert forall id :: id in b.seqId <==> if id == k then MAX_DECODERS + k in c.seqId else id in c.seqId;
    assert b.pos == a.pos;
  }

  lemma MoveOne(was: Cell, now: Cell, m: Moves, k: nat)
    requires ValidMoves(m) && k < |m.active| && PlainCell(was, |m.active|) && TidyCell(now) && Moved(was, now, m, k)
    ensures Moved(was, if m.active[k] then TakenOver(now, k) else now, m, k + 1)
  {
    if m.active[k] {
      TakenOverTags(now, k);
      var next := TakenOver(now, k);
      forall id ensures id in next.seqId <==> InSequence(was, m, k + 1, id) {
        assert id in now.seqId <==> InSequence(was, m, k, id);
        assert MAX_DECODERS + k in now.seqId <==> InSequence(was, m, k, MAX_DECODERS + k);
      }
      assert next.seqId != {} ==> now.seqId != {};
    } else {
      forall id ensures id in now.seqId <==> InSequence(was, m, k + 1, id) {
        assert InSequence(was, m, k, id) <==> InSequence(was, m, k + 1, id);
      }
    }
  }

  /** In the end each active decoder has its parent's cells, the others their own, all at the same
      time, and no staging id is left. */
  ghost predicate TookOver(was: Cell, now: Cell, m: Moves)
    requires ValidMoves(m)
  {
    && (forall id :: id in now.seqId <==>
          0 <= id < |m.active| && (if m.active[id] then m.parent[id] else id) in was.seqId)
    && now.pos == if now.seqId == {} then -1 else was.pos
  }

  lemma MovedIsTookOver(was: Cell, now: Cell, m: Moves)
    requires ValidMoves(m) && PlainCell(was, |m.active|) && Moved(was, now, m, |m.active|)
    ensures TookOver(was, now, m) && PlainCell(now, |m.active|)
  {
    forall id ensures id in now.seqId <==>
        0 <= id < |m.active| && (if m.active[id] then m.parent[id] else id) in was.seqId
    {
      assert id in now.seqId <==> InSequence(was, m, |m.active|, id);
    }
    if was.seqId == {} {
      assert forall id :: id !in now.seqId;
      assert now.seqId == {};
    }
  }

  ghost predicate AllTookOver(was: Cells, now: Cells, m: Moves)
    requires ValidMoves(m)
  {
    |was| == |now| && forall i :: 0 <= i < |now| ==> TookOver(was[i], now[i], m)
  }

  /** What decoder j carries afterwards is what it took over. */
  function Source(m: Moves, j: nat): (s: nat)
    requires ValidMoves(m) && j < |m.active|
    ensures s < |m.active|
  {
    if m.active[j] then m.parent[j] else j
  }

  lemma TookOverTagged(was: Cells, now: Cells, m: Moves, i: int, j: nat)
    requires ValidMoves(m) && AllTookOver(was, now, m) && j < |m.active|
    ensures Tagged(now, i, j) <==> Tagged(was, i, Source(m, j))
    ensures Tagged(now, i, j) ==> now[i].pos == was[i].pos
  {
    if 0 <= i < |now| {
      assert TookOver(was[i], now[i], m);
    }
  }

  lemma CarriesSource(was: Cells, now: Cells, data: Data, layers: nat, m: Moves, j: nat, tokens: Tokens)
    requires ValidMoves(m) && AllTookOver(was, now, m) && j < |m.active|
    requires Shaped(was, data, layers) && Carries(was, data, layers, Source(m, j), tokens)
    ensures Shaped(now, data, layers) && Carries(now, data, layers, j, tokens)
  {
    var s := Source(m, j);
    forall i ensures Tagged(now, i, j) <==> Tagged(was, i, s)
             ensures Tagged(now, i, j) ==> now[i].pos == was[i].pos {
      TookOverTagged(was, now, m, i, j);
    }
    forall p | 0 <= p < |tokens| ensures HasPosition(now, j, p) {
      var i := CellAt(was, s, p, |tokens|);
      assert Tagged(now, i, j) && now[i].pos == p;
    }
  }
}
