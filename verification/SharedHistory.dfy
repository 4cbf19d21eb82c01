/** What the decoder graph computes from cached keys and values, and what it would compute for one
    sequence of tokens on its own. Keys, values and activations are terms: what a layer does with
    them is left open, except that it sees just the keys the mask lets through. */
module SharedHistory {
  import opened KvCache

  datatype Term = Embed(token: nat, pos: int) | Layer(below: Term, attended: multiset<Term>)

  type Tokens = seq<nat>

  /** For every cell, the keys and values of every layer. */
  type Data = seq<seq<Term>>

  // ----- one sequence on its own

  /** A layer: every token attends to those up to itself. */
  function Causal(below: seq<Term>): (r: seq<Term>)
    ensures |r| == |below|
  {
    seq(|below|, p requires 0 <= p < |below| => Layer(below[p], multiset(below[..p + 1])))
  }

  /** The activations below layer l. */
  function Alone(tokens: Tokens, l: nat): (r: seq<Term>)
    ensures |r| == |tokens|
    decreases l
  {
    if l == 0 then Embedded(tokens) else Causal(Alone(tokens, l - 1))
  }

  function Embedded(tokens: Tokens): (r: seq<Term>)
    ensures |r| == |tokens| && forall p :: 0 <= p < |r| ==> r[p] == Embed(tokens[p], p)
  {
    seq(|tokens|, p requires 0 <= p < |tokens| => Embed(tokens[p], p))
  }

  /** Later tokens do not matter. */
  lemma {:induction false} AloneOfPrefix(a: Tokens, more: Tokens, l: nat)
    ensures Alone(a + more, l)[..|a|] == Alone(a, l)
    decreases l
  {
    if l == 0 {
      assert forall p :: 0 <= p < |a| ==> Embedded(a + more)[p] == Embedded(a)[p];
    } else {
      var below := Alone(a + more, l - 1);
      AloneOfPrefix(a, more, l - 1);
      CausalOfPrefix(below, |a|);
      assert Alone(a + more, l) == Causal(below);
    }
  }

  lemma CausalOfPrefix(below: seq<Term>, n: nat)
    requires n <= |below|
    ensures Causal(below)[..n] == Causal(below[..n])
  {
    forall p | 0 <= p < n ensures Causal(below)[p] == Causal(below[..n])[p] {
      assert below[..n][..p + 1] == below[..p + 1];
    }
  }

  // ----- a sequence in the shared cache

  predicate Tagged(cells: Cells, i: int, j: int) {
    0 <= i < |cells| && j in cells[i].seqId
  }

  ghost predicate HasPosition(cells: Cells, j: int, p: int) {
    exists i :: Tagged(cells, i, j) && cells[i].pos == p
  }

  /** The cells of sequence j hold the positions below m, each once. */
  ghost predicate HoldsPositions(cells: Cells, j: int, m: nat) {
    && (forall i :: Tagged(cells, i, j) ==> 0 <= cells[i].pos < m)
    && (forall i, k :: Tagged(cells, i, j) && Tagged(cells, k, j) && cells[i].pos == cells[k].pos ==> i == k)
    && (forall p :: 0 <= p < m ==> HasPosition(cells, j, p))
  }

  predicate Shaped(cells: Cells, data: Data, layers: nat) {
    |data| == |cells| && forall i :: 0 <= i < |data| ==> |data[i]| == layers
  }

  /** The cells of sequence j hold its tokens: what each layer would cache for them on their own. */
  ghost predicate Carries(cells: Cells, data: Data, layers: nat, j: int, tokens: Tokens)
    requires Shaped(cells, data, layers)
  {
    && HoldsPositions(cells, j, |tokens|)
    && forall i, l: nat :: Tagged(cells, i, j) && l < layers ==> data[i][l] == Alone(tokens, l)[cells[i].pos]
  }

  // ----- attention

  /** The mask: a query of sequence j at position p sees the cells of j up to p. */
  predicate Sees(c: Cell, j: int, p: int) {
    j in c.seqId && c.pos <= p
  }

  /** What a query attends to among the first n cells. */
  function Attended(cells: Cells, keys: seq<Term>, j: int, p: int, n: nat): multiset<Term>
    requires n <= |cells| == |keys|
  {
    if n == 0 then multiset{}
    else Attended(cells, keys, j, p, n - 1) + if Sees(cells[n - 1], j, p) then multiset{keys[n - 1]} else multiset{}
  }

  /** Seeing one position more is attending to one cell more. */
  lemma {:induction false} OnePositionMore(cells: Cells, keys: seq<Term>, j: int, p: int, n: nat, at: nat)
    requires n <= |cells| == |keys| && Tagged(cells, at, j) && cells[at].pos == p
    requires forall i :: Tagged(cells, i, j) && cells[i].pos == p ==> i == at
    ensures Attended(cells, keys, j, p, n) == Attended(cells, keys, j, p - 1, n) + if at < n then multiset{keys[at]} else multiset{}
    decreases n
  {
    if n > 0 {
      var c := cells[n - 1];
      assert Sees(c, j, p) <==> Sees(c, j, p - 1) || (Tagged(cells, n - 1, j) && c.pos == p);
      OnePositionMore(cells, keys, j, p, n - 1, at);
      if n - 1 == at {
        assert Attended(cells, keys, j, p - 1, n) == Attended(cells, keys, j, p - 1, n - 1);
      } else {
        assert Sees(c, j, p) == Sees(c, j, p - 1);
      }
    }
  }

  lemma {:induction false} NothingSeen(cells: Cells, keys: seq<Term>, j: int, p: int, n: nat)
    requires n <= |cells| == |keys| && forall i :: 0 <= i < n ==> !Sees(cells[i], j, p)
    ensures Attended(cells, keys, j, p, n) == multiset{}
    decreases n
  {
    if n > 0 {
      NothingSeen(cells, keys, j, p, n - 1);
    }
  }

  /** The keys of sequence j are those of its tokens on their own, and all below n. */
  ghost predicate KeysRight(cells: Cells, keys: seq<Term>, n: nat, j: int, tokens: Tokens, l: nat)
    requires |cells| == |keys|
  {
    forall i :: Tagged(cells, i, j) ==> i < n && 0 <= cells[i].pos < |tokens| && keys[i] == Alone(tokens, l)[cells[i].pos]
  }

  /** A query attends to just the history of its sequence up to its position. */
  lemma {:induction false} AttendsToHistory(cells: Cells, keys: seq<Term>, j: int, p: int, n: nat, tokens: Tokens, l: nat)
    requires n <= |cells| == |keys| && HoldsPositions(cells, j, |tokens|)
    requires KeysRight(cells, keys, n, j, tokens, l)
    requires -1 <= p < |tokens|
    ensures Attended(cells, keys, j, p, n) == multiset(Alone(tokens, l)[..p + 1])
    decreases p + 1
  {
    if p == -1 {
      forall i | 0 <= i < n ensures !Sees(cells[i], j, p) {
        assert j in cells[i].seqId ==> Tagged(cells, i, j);
      }
      NothingSeen(cells, keys, j, p, n);
    } else {
      var at := CellAt(cells, j, p, |tokens|);
      OnePositionMore(cells, keys, j, p, n, at);
      AttendsToHistory(cells, keys, j, p - 1, n, tokens, l);
      OneMore(Alone(tokens, l), p);
    }
  }

  lemma OneMore(terms: seq<Term>, p: nat)
    requires p < |terms|
    ensures multiset(terms[..p + 1]) == multiset(terms[..p]) + multiset{terms[p]}
  {
    assert terms[..p + 1] == terms[..p] + [terms[p]];
  }

  lemma CellAt(cells: Cells, j: int, p: nat, m: nat) returns (at: nat)
    requires HoldsPositions(cells, j, m) && p < m
    ensures Tagged(cells, at, j) && cells[at].pos == p
    ensures forall i :: Tagged(cells, i, j) && cells[i].pos == p ==> i == at
  {
    assert HasPosition(cells, j, p);
    at :| Tagged(cells, at, j) && cells[at].pos == p;
  }

  // ----- a batch through the layers

  /** The state in which the graph runs: the batch has its slot at head. */
  datatype View = View(cells: Cells, data: Data, layers: nat, head: nat, batch: Batch, n: nat)

  predicate Proper(v: View) {
    Shaped(v.cells, v.data, v.layers) && v.head + |v.batch| <= |v.cells| && v.n <= |v.cells|
  }

  /** The sequence the mask is made for. */
  function SeqOf(t: BatchToken): int {
    if t.seqId == [] then -1 else t.seqId[0]
  }

  predicate InSlot(v: View, i: int) {
    v.head <= i < v.head + |v.batch|
  }

  /** Keys of layer l when it is used: those of the batch, own, have just been written. */
  function Keys(v: View, own: seq<Term>, l: nat): (r: seq<Term>)
    requires Proper(v) && l < v.layers && |own| == |v.batch|
    ensures |r| == |v.cells|
  {
    seq(|v.cells|, i requires 0 <= i < |v.cells| => if InSlot(v, i) then own[i - v.head] else v.data[i][l])
  }

  /** One layer: own are the activations below it. */
  function Up(v: View, own: seq<Term>, l: nat): (r: seq<Term>)
    requires Proper(v) && l < v.layers && |own| == |v.batch|
    ensures |r| == |v.batch|
  {
    var keys := Keys(v, own, l);
    seq(|v.batch|, i requires 0 <= i < |v.batch| =>
      Layer(own[i], Attended(v.cells, keys, SeqOf(v.batch[i]), v.batch[i].pos, v.n)))
  }

  function Embeddings(batch: Batch): (r: seq<Term>)
    ensures |r| == |batch|
  {
    seq(|batch|, i requires 0 <= i < |batch| => Embed(batch[i].token, batch[i].pos))
  }

  /** Activations of the batch below layer l. */
  function Hidden(v: View, l: nat): (r: seq<Term>)
    requires Proper(v) && l <= v.layers
    ensures |r| == |v.batch|
    decreases l
  {
    if l == 0 then Embeddings(v.batch) else Up(v, Hidden(v, l - 1), l - 1)
  }

  /** The slot holds the batch, every sequence of the batch has all its positions in the cache,
      and what was cached of it before is right. */
  ghost predicate Consistent(v: View, tokens: seq<Tokens>)
    requires Proper(v)
  {
    && Covers(v.cells, v.n)
    && (forall i {:trigger v.batch[i]} :: 0 <= i < |v.batch| ==>
          InBatch(v, tokens, i) && HoldsPositions(v.cells, SeqOf(v.batch[i]), |tokens[SeqOf(v.batch[i])]|))
    && (forall i, j: nat :: Tagged(v.cells, i, j) && !InSlot(v, i) && j < |tokens| ==> 0 <= v.cells[i].pos < |tokens[j]|)
    && (forall i, j: nat, l: nat :: Tagged(v.cells, i, j) && !InSlot(v, i) && j < |tokens| && l < v.layers ==>
          v.data[i][l] == Alone(tokens[j], l)[v.cells[i].pos])
  }

  predicate InBatch(v: View, tokens: seq<Tokens>, i: nat)
    requires Proper(v) && i < |v.batch|
  {
    var t := v.batch[i];
    && t.seqId == [SeqOf(t)] && 0 <= SeqOf(t) < |tokens| && 0 <= t.pos < |tokens[SeqOf(t)]|
    && t.token == tokens[SeqOf(t)][t.pos]
    && v.cells[v.head + i] == Cell(t.pos, {SeqOf(t)})
  }

  ghost predicate RightAt(v: View, tokens: seq<Tokens>, own: seq<Term>, l: nat, i: nat)
    requires Proper(v) && |own| == |v.batch| && i < |v.batch|
  {
    InBatch(v, tokens, i) && own[i] == Alone(tokens[SeqOf(v.batch[i])], l)[v.batch[i].pos]
  }

  /** Every activation is what it would be had the sequence been computed on its own. */
  ghost predicate AllRight(v: View, tokens: seq<Tokens>, own: seq<Term>, l: nat)
    requires Proper(v) && |own| == |v.batch|
  {
    forall i :: 0 <= i < |v.batch| ==> RightAt(v, tokens, own, l, i)
  }

  lemma {:induction false} BatchIsAlone(v: View, tokens: seq<Tokens>, l: nat)
    requires Proper(v) && Consistent(v, tokens) && l <= v.layers
    ensures AllRight(v, tokens, Hidden(v, l), l)
    decreases l
  {
    if l == 0 {
      forall i | 0 <= i < |v.batch| ensures RightAt(v, tokens, Hidden(v, 0), 0, i) {
        assert InBatch(v, tokens, i) by {
          assert v.batch[i] == v.batch[i];
        }
      }
    } else {
      BatchIsAlone(v, tokens, l - 1);
      LayerKeepsRight(v, tokens, Hidden(v, l - 1), l - 1);
    }
  }

  lemma LayerKeepsRight(v: View, tokens: seq<Tokens>, own: seq<Term>, l: nat)
    requires Proper(v) && Consistent(v, tokens) && l < v.layers && |own| == |v.batch| && AllRight(v, tokens, own, l)
    ensures AllRight(v, tokens, Up(v, own, l), l + 1)
  {
    var up, m := Up(v, own, l), l + 1;
    forall i | 0 <= i < |v.batch| ensures RightAt(v, tokens, up, m, i) {
      assert RightAt(v, tokens, own, l, i);
      var j := SeqOf(v.batch[i]);
      KeysAreAlone(v, tokens, own, l, j);
      assert v.batch[i] == v.batch[i];
      StepIsAlone(v, tokens[j], own, l, i, j);
    }
  }

  lemma StepIsAlone(v: View, tokens: Tokens, own: seq<Term>, l: nat, i: nat, j: nat)
    requires Proper(v) && l < v.layers && |own| == |v.batch| && i < |v.batch|
    requires SeqOf(v.batch[i]) == j && 0 <= v.batch[i].pos < |tokens|
    requires HoldsPositions(v.cells, j, |tokens|) && KeysRight(v.cells, Keys(v, own, l), v.n, j, tokens, l)
    requires own[i] == Alone(tokens, l)[v.batch[i].pos]
    ensures Up(v, own, l)[i] == Alone(tokens, l + 1)[v.batch[i].pos]
  {
    var p, keys := v.batch[i].pos, Keys(v, own, l);
    assert Up(v, own, l)[i] == Layer(own[i], Attended(v.cells, keys, j, p, v.n));
    NextAlone(tokens, l, p);
    AttendsToHistory(v.cells, keys, j, p, v.n, tokens, l);
  }

  lemma NextAlone(tokens: Tokens, l: nat, p: nat)
    requires p < |tokens|
    ensures Alone(tokens, l + 1)[p] == Layer(Alone(tokens, l)[p], multiset(Alone(tokens, l)[..p + 1]))
  {
  }

  lemma KeysAreAlone(v: View, tokens: seq<Tokens>, own: seq<Term>, l: nat, j: nat)
    requires Proper(v) && Consistent(v, tokens) && l < v.layers && j < |tokens| && |own| == |v.batch|
    requires AllRight(v, tokens, own, l)
    ensures KeysRight(v.cells, Keys(v, own, l), v.n, j, tokens[j], l)
  {
    forall c | Tagged(v.cells, c, j)
      ensures c < v.n && 0 <= v.cells[c].pos < |tokens[j]| && Keys(v, own, l)[c] == Alone(tokens[j], l)[v.cells[c].pos]
    {
      if InSlot(v, c) {
        assert RightAt(v, tokens, own, l, c - v.head);
      } else {
        assert Keys(v, own, l)[c] == v.data[c][l];
      }
    }
  }

  // ----- before and after a batch

  /** The batch gives sequence j the tokens from the end of before to the end of after. */
  ghost predicate Extends(batch: Batch, j: int, before: Tokens, after: Tokens) {
    && before <= after
    && (forall i :: OfSequence(batch, i, j) ==> |before| <= batch[i].pos < |after| && batch[i].token == after[batch[i].pos])
    && (forall i, k :: OfSequence(batch, i, j) && OfSequence(batch, k, j) && batch[i].pos == batch[k].pos ==> i == k)
    && (forall p :: |before| <= p < |after| ==> HasEntry(batch, j, p))
  }

  predicate OfSequence(batch: Batch, i: int, j: int) {
    0 <= i < |batch| && batch[i].seqId == [j]
  }

  ghost predicate HasEntry(batch: Batch, j: int, p: int) {
    exists i :: OfSequence(batch, i, j) && batch[i].pos == p
  }

  ghost predicate AllCarried(cells: Cells, data: Data, layers: nat, tokens: seq<Tokens>) {
    Shaped(cells, data, layers) && forall j :: 0 <= j < |tokens| ==> Carries(cells, data, layers, j, tokens[j])
  }

  /** Every token is of one of n sequences. */
  predicate BatchOf(batch: Batch, n: nat) {
    forall i :: 0 <= i < |batch| ==> 0 <= SeqOf(batch[i]) < n && batch[i].seqId == [SeqOf(batch[i])]
  }

  lemma SlotCell(cells: Cells, at: nat, batch: Batch, i: nat, j: int)
    requires Tidy(cells) && FreeRun(cells, at, |batch|) && i < |batch| && batch[i].seqId == [j]
    ensures Written(cells, at, batch)[at + i] == Cell(batch[i].pos, {j})
  {
    var c := cells[at + i];
    assert c in cells;
    assert (set id | id in batch[i].seqId) == {j};
  }

  /** Which cells are tagged j once the batch has its slot. */
  lemma TagsAfter(cells: Cells, at: nat, batch: Batch, n: nat, i: int, j: int)
    requires Tidy(cells) && FreeRun(cells, at, |batch|) && BatchOf(batch, n)
    ensures Tagged(Written(cells, at, batch), i, j) <==>
              if at <= i < at + |batch| then OfSequence(batch, i - at, j) else Tagged(cells, i, j)
  {
    if at <= i < at + |batch| {
      SlotCell(cells, at, batch, i - at, SeqOf(batch[i - at]));
    }
  }

  lemma PositionsAfter(cells: Cells, at: nat, batch: Batch, n: nat, j: int, before: Tokens, after: Tokens)
    requires Tidy(cells) && FreeRun(cells, at, |batch|) && BatchOf(batch, n)
    requires HoldsPositions(cells, j, |before|) && Extends(batch, j, before, after)
    ensures HoldsPositions(Written(cells, at, batch), j, |after|)
  {
    var now := Written(cells, at, batch);
    forall i | Tagged(now, i, j) ensures 0 <= now[i].pos < |after| {
      TagsAfter(cells, at, batch, n, i, j);
    }
    forall i, k | Tagged(now, i, j) && Tagged(now, k, j) && now[i].pos == now[k].pos ensures i == k {
      TagsAfter(cells, at, batch, n, i, j);
      TagsAfter(cells, at, batch, n, k, j);
    }
    forall p | 0 <= p < |after| ensures HasPosition(now, j, p) {
      if p < |before| {
        var i := CellAt(cells, j, p, |before|);
        TagsAfter(cells, at, batch, n, i, j);
        NotInSlot(cells, at, batch, i, j);
        assert Tagged(now, i, j) && now[i].pos == p;
      } else {
        assert HasEntry(batch, j, p);
        var i :| OfSequence(batch, i, j) && batch[i].pos == p;
        TagsAfter(cells, at, batch, n, at + i, j);
        assert Tagged(now, at + i, j) && now[at + i].pos == p;
      }
    }
  }

  lemma NotInSlot(cells: Cells, at: nat, batch: Batch, i: int, j: int)
    requires Tidy(cells) && FreeRun(cells, at, |batch|) && Tagged(cells, i, j)
    ensures !(at <= i < at + |batch|)
  {
    assert cells[i] in cells;
  }

  /** Once the batch has its slot, the graph runs in a consistent state. */
  lemma SlotIsConsistent(cells: Cells, v: View, before: seq<Tokens>, after: seq<Tokens>)
    requires Tidy(cells) && FreeRun(cells, v.head, |v.batch|) && v.cells == Written(cells, v.head, v.batch)
    requires AllCarried(cells, v.data, v.layers, before) && |after| == |before| && BatchOf(v.batch, |before|)
    requires forall j :: 0 <= j < |before| ==> Extends(v.batch, j, before[j], after[j])
    requires v.n <= |v.cells| && Covers(v.cells, v.n)
    ensures Proper(v) && Consistent(v, after)
    ensures forall j :: 0 <= j < |after| ==> HoldsPositions(v.cells, j, |after[j]|)
  {
    forall j | 0 <= j < |after| ensures HoldsPositions(v.cells, j, |after[j]|) {
      PositionsAfter(cells, v.head, v.batch, |before|, j, before[j], after[j]);
    }
    forall i | 0 <= i < |v.batch| ensures InBatch(v, after, i) {
      var j := SeqOf(v.batch[i]);
      SlotCell(cells, v.head, v.batch, i, j);
      assert OfSequence(v.batch, i, j);
    }
    forall i, j: nat | Tagged(v.cells, i, j) && !InSlot(v, i) && j < |after|
      ensures 0 <= v.cells[i].pos < |after[j]|
      ensures forall l: nat :: l < v.layers ==> v.data[i][l] == Alone(after[j], l)[v.cells[i].pos]
    {
      OldKeysStay(cells, v, before, after, i, j);
    }
  }

  lemma OldKeysStay(cells: Cells, v: View, before: seq<Tokens>, after: seq<Tokens>, i: int, j: nat)
    requires AllCarried(cells, v.data, v.layers, before) && |after| == |before| && j < |after| && before[j] <= after[j]
    requires Tagged(cells, i, j) && i < |v.cells| && v.cells[i] == cells[i]
    ensures 0 <= v.cells[i].pos < |after[j]|
    ensures forall l: nat :: l < v.layers ==> v.data[i][l] == Alone(after[j], l)[v.cells[i].pos]
  {
    assert Carries(cells, v.data, v.layers, j, before[j]);
    forall l: nat | l < v.layers ensures v.data[i][l] == Alone(after[j], l)[v.cells[i].pos] {
      var more := after[j][|before[j]|..];
      assert before[j] + more == after[j];
      AloneOfPrefix(before[j], more, l);
      assert Alone(after[j], l)[..|before[j]|][cells[i].pos] == Alone(before[j], l)[cells[i].pos];
    }
  }

  /** The key of layer l in cell i when the layers below n have stored theirs. */
  function StoredAt(v: View, n: nat, i: nat, l: nat): Term
    requires Proper(v) && i < |v.cells| && l < v.layers
  {
    if InSlot(v, i) && l < n then Hidden(v, l)[i - v.head] else v.data[i][l]
  }

  ghost predicate StoredBelow(v: View, data: Data, n: nat)
    requires Proper(v)
  {
    && Shaped(v.cells, data, v.layers)
    && forall i, l: nat :: 0 <= i < |data| && l < v.layers ==> data[i][l] == StoredAt(v, n, i, l)
  }

  /** The cached keys after the graph has run. */
  ghost predicate KeysStored(v: View, data: Data)
    requires Proper(v)
  {
    StoredBelow(v, data, v.layers)
  }

  lemma StoredIsCarried(v: View, data: Data, tokens: seq<Tokens>, j: nat)
    requires Proper(v) && Consistent(v, tokens) && j < |tokens| && HoldsPositions(v.cells, j, |tokens[j]|)
    requires KeysStored(v, data)
    ensures Carries(v.cells, data, v.layers, j, tokens[j])
  {
    forall i: nat, l: nat | Tagged(v.cells, i, j) && l < v.layers ensures data[i][l] == Alone(tokens[j], l)[v.cells[i].pos] {
      StoredKey(v, data, tokens, i, j, l);
    }
  }

  lemma StoredKey(v: View, data: Data, tokens: seq<Tokens>, i: nat, j: nat, l: nat)
    requires Proper(v) && Consistent(v, tokens) && j < |tokens| && KeysStored(v, data) && Tagged(v.cells, i, j) && l < v.layers
    ensures 0 <= v.cells[i].pos < |tokens[j]| && data[i][l] == Alone(tokens[j], l)[v.cells[i].pos]
  {
    if InSlot(v, i) {
      BatchIsAlone(v, tokens, l);
      var k := i - v.head;
      assert RightAt(v, tokens, Hidden(v, l), l, k);
      assert v.cells[v.head + k] == v.cells[i];
    } else {
      assert data[i][l] == v.data[i][l];
    }
  }
}
