/** The decoding loop of a window: several decoders over one shared cache. At the top of every
    iteration each active decoder has the logits it would have on its own. */
module SharedDecoders {
  import opened KvCache
  import opened SharedHistory
  import opened BeamShuffle

  // ----- the graph

  /** One row of the mask for every token: which of the first n cells it sees. */
  method BuildMask(cells: Cells, batch: Batch, n: nat) returns (mask: seq<seq<bool>>)
    requires n <= |cells|
    ensures |mask| == |batch|
    ensures forall j :: 0 <= j < |mask| ==> MaskRow(cells, batch[j], n, mask[j])
  {
    mask := [];
    for j := 0 to |batch|
      invariant |mask| == j
      invariant forall k :: 0 <= k < j ==> MaskRow(cells, batch[k], n, mask[k])
    {
      var row := [];
      for i := 0 to n
        invariant |row| == i
        invariant forall k :: 0 <= k < i ==> row[k] == Sees(cells[k], SeqOf(batch[j]), batch[j].pos)
      {
        row := row + [!(SeqOf(batch[j]) !in cells[i].seqId || cells[i].pos > batch[j].pos)];
      }
      mask := mask + [row];
    }
  }

  predicate MaskRow(cells: Cells, t: BatchToken, n: nat, row: seq<bool>)
    requires n <= |cells|
  {
    |row| == n && forall i :: 0 <= i < n ==> row[i] == Sees(cells[i], SeqOf(t), t.pos)
  }

  /** The keys that a row of the mask lets through. */
  method Attend(cells: Cells, keys: seq<Term>, t: BatchToken, n: nat, row: seq<bool>) returns (seen: multiset<Term>)
    requires n <= |cells| == |keys| && MaskRow(cells, t, n, row)
    ensures seen == Attended(cells, keys, SeqOf(t), t.pos, n)
  {
    seen := multiset{};
    for i := 0 to n
      invariant seen == Attended(cells, keys, SeqOf(t), t.pos, i)
    {
      if row[i] {
        seen := seen + multiset{keys[i]};
      }
    }
  }

  /** The keys of the batch are stored for layer l. */
  method StoreKeys(v: View, before: Data, own: seq<Term>, l: nat) returns (data: Data)
    requires Proper(v) && l < v.layers && |own| == |v.batch| && Shaped(v.cells, before, v.layers)
    ensures Shaped(v.cells, data, v.layers)
    ensures forall i :: 0 <= i < |data| ==> data[i] == if InSlot(v, i) then before[i][l := own[i - v.head]] else before[i]
  {
    data := before;
    for i := 0 to |v.batch|
      invariant Shaped(v.cells, data, v.layers)
      invariant forall k :: 0 <= k < |data| ==>
                  data[k] == if v.head <= k < v.head + i then before[k][l := own[k - v.head]] else before[k]
    {
      data := data[v.head + i := data[v.head + i][l := own[i]]];
    }
  }

  method KeysOf(v: View, data: Data, l: nat) returns (keys: seq<Term>)
    requires Proper(v) && l < v.layers && Shaped(v.cells, data, v.layers)
    ensures |keys| == |v.cells| && forall i :: 0 <= i < |keys| ==> keys[i] == data[i][l]
  {
    keys := seq(|v.cells|, i requires 0 <= i < |v.cells| => data[i][l]);
  }

  method RunLayer(v: View, own: seq<Term>, l: nat, keys: seq<Term>, mask: seq<seq<bool>>) returns (next: seq<Term>)
    requires Proper(v) && l < v.layers && |own| == |v.batch| == |mask| && keys == Keys(v, own, l)
    requires forall j :: 0 <= j < |mask| ==> MaskRow(v.cells, v.batch[j], v.n, mask[j])
    ensures next == Up(v, own, l)
  {
    next := [];
    for i := 0 to |v.batch|
      invariant next == Up(v, own, l)[..i]
    {
      var seen := Attend(v.cells, keys, v.batch[i], v.n, mask[i]);
      next := next + [Layer(own[i], seen)];
    }
  }

  /** Layer after layer: the batch's keys are stored, then its tokens attend to what the mask shows. */
  method RunGraph(v: View) returns (data: Data, out: seq<Term>)
    requires Proper(v)
    ensures KeysStored(v, data) && out == Hidden(v, v.layers)
  {
    var mask := BuildMask(v.cells, v.batch, v.n);
    data, out := v.data, Embeddings(v.batch);
    for l := 0 to v.layers
      invariant Shaped(v.cells, data, v.layers) && out == Hidden(v, l)
      invariant StoredBelow(v, data, l)
    {
      var before := data;
      data := StoreKeys(v, before, out, l);
      var keys := KeysOf(v, data, l);
      LayerStored(v, before, data, keys, l);
      out := RunLayer(v, out, l, keys, mask);
    }
  }

  lemma LayerStored(v: View, before: Data, data: Data, keys: seq<Term>, l: nat)
    requires Proper(v) && l < v.layers && Shaped(v.cells, before, v.layers) && Shaped(v.cells, data, v.layers)
    requires StoredBelow(v, before, l)
    requires forall i :: 0 <= i < |data| ==> data[i] == if InSlot(v, i) then before[i][l := Hidden(v, l)[i - v.head]] else before[i]
    requires |keys| == |v.cells| && forall i :: 0 <= i < |keys| ==> keys[i] == data[i][l]
    ensures StoredBelow(v, data, l + 1) && keys == Keys(v, Hidden(v, l), l)
  {
    KeysAreRead(v, before, data, keys, l);
    StoredOneUp(v, before, data, l);
  }

  lemma KeysAreRead(v: View, before: Data, data: Data, keys: seq<Term>, l: nat)
    requires Proper(v) && l < v.layers && Shaped(v.cells, before, v.layers) && Shaped(v.cells, data, v.layers)
    requires StoredBelow(v, before, l)
    requires forall i :: 0 <= i < |data| ==> data[i] == if InSlot(v, i) then before[i][l := Hidden(v, l)[i - v.head]] else before[i]
    requires |keys| == |v.cells| && forall i :: 0 <= i < |keys| ==> keys[i] == data[i][l]
    ensures keys == Keys(v, Hidden(v, l), l)
  {
    var own := Hidden(v, l);
    var now := Keys(v, own, l);
    forall i | 0 <= i < |keys| ensures keys[i] == now[i] {
      assert before[i][l] == StoredAt(v, l, i, l);
      assert data[i][l] == if InSlot(v, i) then own[i - v.head] else before[i][l];
    }
  }

  lemma StoredOneUp(v: View, before: Data, data: Data, l: nat)
    requires Proper(v) && l < v.layers && Shaped(v.cells, before, v.layers) && Shaped(v.cells, data, v.layers)
    requires StoredBelow(v, before, l)
    requires forall i :: 0 <= i < |data| ==> data[i] == if InSlot(v, i) then before[i][l := Hidden(v, l)[i - v.head]] else before[i]
    ensures StoredBelow(v, data, l + 1)
  {
    var above := l + 1;
    forall i, k: nat | 0 <= i < |data| && k < v.layers ensures data[i][k] == StoredAt(v, above, i, k) {
      assert before[i][k] == StoredAt(v, l, i, k);
    }
  }

  // ----- decoders

  /** logits stands for what is sampled from: the activations above the last layer. */
  datatype Decoder = Decoder(tokens: Tokens, active: bool, batchIndex: nat, logits: Term)

  type Decoders = seq<Decoder>

  /** A continuation that beam search considers. */
  datatype BeamCandidate = BeamCandidate(decoder: nat, tokens: Tokens)

  /** What the sampler came up with; for beam search, in the order of the scores. */
  datatype Sampled = Greedy(next: Tokens) | Beam(candidates: seq<BeamCandidate>)

  predicate ActiveAt(ds: Decoders, j: int) {
    0 <= j < |ds| && ds[j].active
  }

  /** A candidate is one more token after those of an active decoder. */
  predicate ValidCandidate(ds: Decoders, c: BeamCandidate) {
    ActiveAt(ds, c.decoder) && c.tokens != [] && c.tokens[..|c.tokens| - 1] == ds[c.decoder].tokens
  }

  predicate ValidSample(ds: Decoders, s: Sampled) {
    match s
    case Greedy(next) => |next| == |ds|
    case Beam(candidates) => candidates != [] && forall i :: 0 <= i < |candidates| ==> ValidCandidate(ds, candidates[i])
  }

  /** Active decoders have i tokens, all of them cached behind the prompt. */
  ghost predicate Cached(ds: Decoders, hist: seq<Tokens>, prompt: Tokens, i: nat) {
    && |ds| == |hist|
    && forall j :: ActiveAt(ds, j) ==> |ds[j].tokens| == i && hist[j] == prompt + ds[j].tokens
  }

  /** Active decoders have i + 1 tokens, all but the last cached. */
  ghost predicate Chosen(ds: Decoders, hist: seq<Tokens>, prompt: Tokens, i: nat) {
    && |ds| == |hist|
    && forall j :: ActiveAt(ds, j) ==> |ds[j].tokens| == i + 1 && hist[j] == prompt + ds[j].tokens[..i]
  }

  /** Every active decoder samples from the logits it would have on its own. */
  ghost predicate LogitsAlone(ds: Decoders, hist: seq<Tokens>, layers: nat)
    requires |ds| == |hist|
  {
    forall j :: ActiveAt(ds, j) ==> hist[j] != [] && ds[j].logits == Alone(hist[j], layers)[|hist[j]| - 1]
  }

  /** Entries for the active ones among the first k decoders, in order. */
  predicate BatchFor(batch: Batch, ds: Decoders, k: nat, pos: nat) {
    && k <= |ds|
    && (forall m :: 0 <= m < |batch| ==> EntryFor(batch, ds, k, pos, m))
    && (forall j :: 0 <= j < k && ds[j].active ==> ds[j].batchIndex < |batch| && SeqOf(batch[ds[j].batchIndex]) == j)
  }

  predicate EntryFor(batch: Batch, ds: Decoders, k: nat, pos: nat, m: nat)
    requires k <= |ds| && m < |batch|
  {
    var j := SeqOf(batch[m]);
    && 0 <= j < k && ds[j].active && ds[j].batchIndex == m && ds[j].tokens != []
    && batch[m] == BatchToken(ds[j].tokens[|ds[j].tokens| - 1], pos, [j])
  }

  /** The histories once the batch has been decoded. */
  ghost function HistAfter(ds: Decoders, hist: seq<Tokens>): (r: seq<Tokens>)
    requires |ds| == |hist|
    ensures |r| == |hist|
  {
    seq(|hist|, j requires 0 <= j < |hist| =>
      if ds[j].active && ds[j].tokens != [] then hist[j] + [ds[j].tokens[|ds[j].tokens| - 1]] else hist[j])
  }

  lemma BatchExtends(batch: Batch, ds: Decoders, hist: seq<Tokens>, prompt: Tokens, i: nat, j: nat)
    requires Chosen(ds, hist, prompt, i) && BatchFor(batch, ds, |ds|, |prompt| + i) && j < |ds|
    ensures Extends(batch, j, hist[j], HistAfter(ds, hist)[j])
  {
    var after := HistAfter(ds, hist)[j];
    forall m | OfSequence(batch, m, j) ensures ActiveAt(ds, j) && m == ds[j].batchIndex && batch[m].pos == |hist[j]| {
      assert EntryFor(batch, ds, |ds|, |prompt| + i, m);
    }
    if ActiveAt(ds, j) {
      var m := ds[j].batchIndex;
      assert EntryFor(batch, ds, |ds|, |prompt| + i, m);
      assert OfSequence(batch, m, j);
      forall p | |hist[j]| <= p < |after| ensures HasEntry(batch, j, p) {
        assert OfSequence(batch, m, j) && batch[m].pos == p;
      }
    }
  }

  lemma BatchIsProper(batch: Batch, ds: Decoders, pos: nat)
    requires BatchFor(batch, ds, |ds|, pos)
    ensures ProperBatch(batch) && BatchOf(batch, |ds|)
  {
    forall t | t in batch ensures t.pos >= 0 && t.seqId != [] {
      var m :| 0 <= m < |batch| && batch[m] == t;
      assert EntryFor(batch, ds, |ds|, pos, m);
    }
    forall m | 0 <= m < |batch| ensures 0 <= SeqOf(batch[m]) < |ds| && batch[m].seqId == [SeqOf(batch[m])] {
      assert EntryFor(batch, ds, |ds|, pos, m);
    }
  }

  /** The tokens of active decoders, chosen and decoded, are cached. */
  lemma ChosenIsCached(ds: Decoders, hist: seq<Tokens>, prompt: Tokens, i: nat)
    requires Chosen(ds, hist, prompt, i)
    ensures Cached(ds, HistAfter(ds, hist), prompt, i + 1)
  {
    forall j | ActiveAt(ds, j) ensures HistAfter(ds, hist)[j] == prompt + ds[j].tokens {
      assert ds[j].tokens == ds[j].tokens[..i] + [ds[j].tokens[i]];
    }
  }

  // ----- cells after a batch

  lemma WrittenIsPlain(cells: Cells, at: nat, batch: Batch, n: nat)
    requires PlainCells(cells, n) && FreeRun(cells, at, |batch|) && BatchOf(batch, n)
    requires forall i :: 0 <= i < |batch| ==> 0 <= batch[i].pos < MAX_POS
    ensures PlainCells(Written(cells, at, batch), n)
  {
    var now := Written(cells, at, batch);
    forall i | 0 <= i < |now| ensures PlainCell(now[i], n) {
      if at <= i < at + |batch| {
        TidyOfPlain(cells, n);
        SlotCell(cells, at, batch, i - at, SeqOf(batch[i - at]));
      } else {
        assert now[i] == cells[i];
      }
    }
  }

  lemma TidyOfPlain(cells: Cells, n: nat)
    requires PlainCells(cells, n)
    ensures Tidy(cells)
  {
  }

  lemma NothingCarried(cells: Cells, data: Data, layers: nat, n: nat)
    requires Shaped(cells, data, layers) && forall c :: c in cells ==> c == FREE
    ensures AllCarried(cells, data, layers, seq(n, j => [])) && PlainCells(cells, n)
  {
    var hist: seq<Tokens> := seq(n, j => []);
    forall i | 0 <= i < |cells| ensures PlainCell(cells[i], n) {
      assert cells[i] in cells;
    }
    forall j | 0 <= j < n ensures Carries(cells, data, layers, j, hist[j]) {
      assert hist[j] == [];
      forall i ensures !Tagged(cells, i, j) {
        assert 0 <= i < |cells| ==> cells[i] in cells;
      }
    }
  }

  ghost predicate AllStaged(before: Cells, now: Cells, m: Moves, k: nat)
    requires ValidMoves(m)
  {
    |before| == |now| && forall i :: 0 <= i < |now| ==> Staged(before[i], now[i], m, k)
  }

  ghost predicate AllMoved(before: Cells, now: Cells, m: Moves, k: nat)
    requires ValidMoves(m)
  {
    |before| == |now| && forall i :: 0 <= i < |now| ==> Moved(before[i], now[i], m, k)
  }

  /** The cells of decoder from also get the staging id of decoder k. */
  method StageDecoder(cache: Cache, from: nat, k: nat, ghost before: Cells, ghost m: Moves)
    requires cache.Valid() && ValidMoves(m) && k < |m.active| && PlainCells(before, |m.active|)
    requires m.active[k] && m.parent[k] == from && AllStaged(before, cache.cells, m, k)
    modifies cache
    ensures cache.Valid() && AllStaged(before, cache.cells, m, k + 1)
  {
    ghost var cells := cache.cells;
    cache.SeqCp(from, MAX_DECODERS + k, -1, -1);
    forall i | 0 <= i < |cells| ensures Staged(before[i], cache.cells[i], m, k + 1) {
      StageOne(before[i], cells[i], m, k);
    }
  }

  /** Decoder k gives up its cells and takes those with its staging id, which is given up too. */
  method TakeOverDecoder(cache: Cache, k: nat, ghost before: Cells, ghost m: Moves)
    requires cache.Valid() && ValidMoves(m) && k < |m.active| && PlainCells(before, |m.active|)
    requires m.active[k] && AllMoved(before, cache.cells, m, k)
    modifies cache
    ensures cache.Valid() && AllMoved(before, cache.cells, m, k + 1)
  {
    ghost var cells := cache.cells;
    cache.SeqRm(k, -1, -1);
    cache.SeqCp(MAX_DECODERS + k, k, -1, -1);
    cache.SeqRm(MAX_DECODERS + k, -1, -1);
    forall i | 0 <= i < |cells| ensures Moved(before[i], cache.cells[i], m, k + 1) {
      assert cells[i] in cells;
      MoveOne(before[i], cells[i], m, k);
    }
  }

  lemma NextStays(before: Cells, now: Cells, m: Moves, k: nat)
    requires ValidMoves(m) && k < |m.active| && !m.active[k] && PlainCells(before, |m.active|)
    ensures AllStaged(before, now, m, k) ==> AllStaged(before, now, m, k + 1)
    ensures Tidy(now) && AllMoved(before, now, m, k) ==> AllMoved(before, now, m, k + 1)
  {
    if AllStaged(before, now, m, k) {
      forall i | 0 <= i < |now| ensures Staged(before[i], now[i], m, k + 1) {
        StageOne(before[i], now[i], m, k);
      }
    }
    if Tidy(now) && AllMoved(before, now, m, k) {
      forall i | 0 <= i < |now| ensures Moved(before[i], now[i], m, k + 1) {
        assert now[i] in now;
        MoveOne(before[i], now[i], m, k);
      }
    }
  }

  /** Staging depends on the moves of the decoders staged so far only. */
  lemma StagedSoFar(before: Cells, now: Cells, m: Moves, k: nat, from: nat)
    requires ValidMoves(m) && k < |m.active| && from < |m.active| && AllStaged(before, now, m, k)
    ensures ValidMoves(m.(parent := m.parent[k := from])) && AllStaged(before, now, m.(parent := m.parent[k := from]), k)
  {
    var n := m.(parent := m.parent[k := from]);
    forall i | 0 <= i < |now| ensures Staged(before[i], now[i], n, k) {
      assert Staged(before[i], now[i], m, k);
      forall id ensures id in now[i].seqId <==>
          id in before[i].seqId || (MAX_DECODERS <= id < MAX_DECODERS + k && Moving(n, id - MAX_DECODERS) && n.parent[id - MAX_DECODERS] in before[i].seqId)
      {
        assert MAX_DECODERS <= id < MAX_DECODERS + k ==> n.parent[id - MAX_DECODERS] == m.parent[id - MAX_DECODERS];
      }
    }
  }

  /** Loop over the active decoders: each takes over from its staging id. */
  method TakeOver(cache: Cache, active: seq<bool>, ghost before: Cells, ghost m: Moves)
    requires cache.Valid() && ValidMoves(m) && active == m.active && PlainCells(before, |m.active|)
    requires AllStaged(before, cache.cells, m, |m.active|)
    modifies cache
    ensures cache.Valid() && AllTookOver(before, cache.cells, m) && PlainCells(cache.cells, |m.active|)
  {
    forall i | 0 <= i < |before| ensures Moved(before[i], cache.cells[i], m, 0) {
      StagedIsMoved(before[i], cache.cells[i], m);
    }
    for j := 0 to |active|
      invariant cache.Valid() && AllMoved(before, cache.cells, m, j)
    {
      if active[j] {
        TakeOverDecoder(cache, j, before, m);
      } else {
        NextStays(before, cache.cells, m, j);
      }
    }
    forall i | 0 <= i < |before| ensures TookOver(before[i], cache.cells[i], m) && PlainCell(cache.cells[i], |m.active|) {
      MovedIsTookOver(before[i], cache.cells[i], m);
    }
  }

  function Flags(ds: Decoders): (r: seq<bool>)
    ensures |r| == |ds| && forall j :: 0 <= j < |ds| ==> r[j] == ds[j].active
  {
    seq(|ds|, j requires 0 <= j < |ds| => ds[j].active)
  }

  /** The histories after the active decoders have taken over. */
  ghost function HistTaken(hist: seq<Tokens>, m: Moves): (r: seq<Tokens>)
    requires ValidMoves(m) && |hist| == |m.active|
    ensures |r| == |hist|
  {
    seq(|hist|, j requires 0 <= j < |hist| => hist[Source(m, j)])
  }

  lemma TakenIsCarried(before: Cells, now: Cells, data: Data, layers: nat, m: Moves, hist: seq<Tokens>)
    requires ValidMoves(m) && |hist| == |m.active| && AllTookOver(before, now, m) && AllCarried(before, data, layers, hist)
    ensures AllCarried(now, data, layers, HistTaken(hist, m))
  {
    forall j | 0 <= j < |hist| ensures Carries(now, data, layers, j, HistTaken(hist, m)[j]) {
      CarriesSource(before, now, data, layers, m, j, hist[Source(m, j)]);
    }
  }

  /** The first k decoders have been given candidates; m says from which decoders. */
  ghost predicate Assigned(before: Decoders, now: Decoders, candidates: seq<BeamCandidate>, m: Moves, k: nat, i: nat)
    requires ValidMoves(m)
  {
    && |before| == |now| == |m.active| && k <= |now| && Flags(before) == Flags(now) == m.active
    && forall j :: ActiveAt(now, j) ==> if j < k then GivenFrom(before, now, candidates, m, j, i) else now[j] == before[j]
  }

  predicate GivenFrom(before: Decoders, now: Decoders, candidates: seq<BeamCandidate>, m: Moves, j: nat, i: nat)
    requires ValidMoves(m) && |before| == |now| == |m.active| && j < |now|
  {
    BeamCandidate(m.parent[j], now[j].tokens) in candidates && ActiveAt(before, m.parent[j]) && |now[j].tokens| == i + 1 && now[j].tokens[..i] == before[m.parent[j]].tokens
  }

  lemma GiveCandidate(before: Decoders, now: Decoders, hist: seq<Tokens>, prompt: Tokens, candidates: seq<BeamCandidate>,
                      m: Moves, j: nat, c: BeamCandidate, i: nat)
    requires ValidMoves(m) && Cached(before, hist, prompt, i) && j < |now| && Assigned(before, now, candidates, m, j, i)
    requires now[j].active && c in candidates && ValidCandidate(before, c)
    ensures ValidMoves(m.(parent := m.parent[j := c.decoder]))
    ensures Assigned(before, now[j := now[j].(tokens := c.tokens)], candidates, m.(parent := m.parent[j := c.decoder]), j + 1, i)
  {
    var next, moves := now[j := now[j].(tokens := c.tokens)], m.(parent := m.parent[j := c.decoder]);
    assert Flags(next) == Flags(now);
    forall k | ActiveAt(next, k) ensures if k < j + 1 then GivenFrom(before, next, candidates, moves, k, i) else next[k] == before[k] {
      assert ActiveAt(now, k);
      assert k < j ==> GivenFrom(before, now, candidates, m, k, i);
    }
  }

  /** Decoder j has the tokens of a candidate, and carries what that one's decoder carried. */
  ghost predicate HasCandidate(now: Decoders, before: seq<Tokens>, hist: seq<Tokens>, candidates: seq<BeamCandidate>, j: nat)
    requires j < |now| == |hist| == |before|
  {
    exists c :: c in candidates && c.decoder < |before| && now[j].tokens == c.tokens && hist[j] == before[c.decoder]
  }

  lemma AssignedIsChosen(before: Decoders, now: Decoders, hist: seq<Tokens>, prompt: Tokens, candidates: seq<BeamCandidate>, m: Moves, i: nat)
    requires ValidMoves(m) && Cached(before, hist, prompt, i) && Assigned(before, now, candidates, m, |now|, i)
    ensures |hist| == |m.active| && Chosen(now, HistTaken(hist, m), prompt, i)
    ensures forall j :: ActiveAt(now, j) ==> HasCandidate(now, hist, HistTaken(hist, m), candidates, j)
  {
    forall j | ActiveAt(now, j)
      ensures HistTaken(hist, m)[j] == prompt + now[j].tokens[..i]
      ensures HasCandidate(now, hist, HistTaken(hist, m), candidates, j)
    {
      assert GivenFrom(before, now, candidates, m, j, i);
      assert Flags(now)[j];
      assert BeamCandidate(m.parent[j], now[j].tokens) in candidates;
    }
  }

  // ----- the window

  function Appended(d: Decoder, token: nat): Decoder {
    if d.active then d.(tokens := d.tokens + [token]) else d
  }

  function Stopped(d: Decoder, stop: bool): Decoder {
    d.(active := d.active && !stop)
  }

  predicate SameTokens(was: Decoders, now: Decoders) {
    |was| == |now| && forall j :: 0 <= j < |was| ==> now[j].tokens == was[j].tokens && now[j].active == was[j].active
  }

  /** The candidate after the one at index at, those equal to it skipped except in the first iteration. */
  function CursorPast(candidates: seq<BeamCandidate>, at: nat, next: nat, i: nat): (r: nat)
    requires at < |candidates| && next <= |candidates|
    ensures next <= r <= |candidates|
    decreases |candidates| - next
  {
    if i > 0 && next < |candidates| && candidates[next].tokens == candidates[at].tokens then CursorPast(candidates, at, next + 1, i) else next
  }

  /** The candidate taken from a cursor; at the end it starts over. */
  function TakenAt(candidates: seq<BeamCandidate>, cursor: nat): (at: nat)
    requires candidates != [] && cursor <= |candidates|
    ensures at < |candidates|
  {
    if cursor == |candidates| then 0 else cursor
  }

  /** The cursor when the first j decoders have been given candidates. */
  function Cursor(candidates: seq<BeamCandidate>, active: seq<bool>, i: nat, j: nat): (r: nat)
    requires candidates != [] && j <= |active|
    ensures r <= |candidates|
  {
    if j == 0 then 0
    else
      var before := Cursor(candidates, active, i, j - 1);
      if active[j - 1] then CursorPast(candidates, TakenAt(candidates, before), TakenAt(candidates, before) + 1, i) else before
  }

  /** The candidate decoder j is given. */
  function CandidateFor(candidates: seq<BeamCandidate>, active: seq<bool>, i: nat, j: nat): BeamCandidate
    requires candidates != [] && j <= |active|
  {
    candidates[TakenAt(candidates, Cursor(candidates, active, i, j))]
  }

  /** The first k active decoders have the tokens of the candidates they are given. */
  predicate HaveCandidates(now: Decoders, active: seq<bool>, candidates: seq<BeamCandidate>, i: nat, k: nat)
    requires candidates != [] && k <= |active|
  {
    |now| == |active| && forall j :: 0 <= j < k && active[j] ==> now[j].tokens == CandidateFor(candidates, active, i, j).tokens
  }

  /** The first j active decoders have got their candidates, and cur is where the next one is looked for. */
  predicate Handed(now: Decoders, before: Decoders, candidates: seq<BeamCandidate>, i: nat, j: nat, cur: nat) {
    && candidates != [] && j <= |before| == |now| && Flags(now) == Flags(before)
    && cur == Cursor(candidates, Flags(before), i, j) && HaveCandidates(now, Flags(before), candidates, i, j)
  }

  lemma OneMoreHanded(now: Decoders, before: Decoders, candidates: seq<BeamCandidate>, i: nat, j: nat, cur: nat, c: BeamCandidate, next: nat)
    requires j < |now| && now[j].active && Handed(now, before, candidates, i, j, cur) && cur <= |candidates|
    requires c == candidates[TakenAt(candidates, cur)]
    requires next == CursorPast(candidates, TakenAt(candidates, cur), TakenAt(candidates, cur) + 1, i)
    ensures Handed(now[j := now[j].(tokens := c.tokens)], before, candidates, i, j + 1, next)
  {
    assert Flags(before)[j] == Flags(now)[j];
  }

  lemma NoneHanded(now: Decoders, before: Decoders, candidates: seq<BeamCandidate>, i: nat, j: nat, cur: nat)
    requires j < |now| && !now[j].active && Handed(now, before, candidates, i, j, cur)
    ensures Handed(now, before, candidates, i, j + 1, cur)
  {
    assert Flags(before)[j] == Flags(now)[j];
  }

  /** Every active decoder has got what was sampled for it, and goes on unless it stops. */
  ghost predicate AllContinued(was: Decoders, now: Decoders, sampled: Sampled, stop: seq<bool>, i: nat) {
    && |now| == |was| == |stop| && ValidSample(was, sampled)
    && (forall j :: 0 <= j < |was| ==> now[j].active == (was[j].active && !stop[j]))
    && match sampled
       case Greedy(next) => forall j :: ActiveAt(was, j) ==> now[j].tokens == was[j].tokens + [next[j]]
       case Beam(candidates) => HaveCandidates(now, Flags(was), candidates, i, |was|)
  }

  class Window {
    const cache: Cache
    const layers: nat
    const prompt: Tokens
    const pad: nat
    var data: Data
    var decoders: Decoders
    /** The tokens of every decoder that are in the cache. */
    ghost var hist: seq<Tokens>

    ghost predicate Valid()
      reads this, cache
    {
      && cache.Valid() && pad > 0 && prompt != []
      && 0 < |decoders| == |hist| <= MAX_DECODERS
      && PlainCells(cache.cells, |hist|)
      && AllCarried(cache.cells, data, layers, hist)
    }

    /** The top of iteration i. */
    ghost predicate AtTop(i: nat)
      reads this, cache
    {
      Valid() && Cached(decoders, hist, prompt, i) && LogitsAlone(decoders, hist, layers)
    }

    /** n decoders and an emptied cache, whatever was stored in it. */
    constructor (cache: Cache, data: Data, layers: nat, prompt: Tokens, pad: nat, n: nat)
      requires cache.Valid() && Shaped(cache.cells, data, layers) && prompt != [] && pad > 0 && 0 < n <= MAX_DECODERS
      modifies cache
      ensures Valid() && this.cache == cache && this.layers == layers && this.prompt == prompt
      ensures |decoders| == n && forall j :: 0 <= j < n ==> decoders[j].active && decoders[j].tokens == [] && hist[j] == []
    {
      this.cache, this.layers, this.prompt, this.pad := cache, layers, prompt, pad;
      this.data := data;
      decoders := seq(n, j => Decoder([], true, 0, Embed(0, 0)));
      hist := seq(n, j => []);
      new;
      cache.Clear();
      NothingCarried(cache.cells, data, layers, n);
    }

    /** The prompt is decoded for the first decoder, and shared with the others. */
    method Start() returns (ok: bool)
      requires Valid() && |prompt| <= MAX_POS
      requires forall j :: 0 <= j < |decoders| ==> decoders[j].active && decoders[j].tokens == [] && hist[j] == []
      modifies this, cache
      ensures Valid() && |decoders| == old(|decoders|)
      ensures ok ==> AtTop(0) && AllActive()
      ensures !ok ==> forall s: nat :: !FreeRun(old(cache.cells), s, |prompt|)
    {
      var batch := PromptBatch(prompt);
      PromptExtends(batch, prompt, hist);
      ghost var after := hist[0 := prompt];
      var out;
      ok, out := DecodeInternal(batch, after);
      if !ok {
        return;
      }
      assert OutputAlone(batch, out, after, layers, |prompt| - 1);
      decoders := decoders[0 := decoders[0].(batchIndex := |prompt| - 1, logits := out[|prompt| - 1])];
      ShareWithAll();
    }

    ghost predicate AllActive()
      reads this
    {
      forall j :: 0 <= j < |decoders| ==> decoders[j].active
    }

    /** The first j decoders have the prompt, the others nothing. */
    ghost predicate Sharing(j: nat)
      reads this, cache
    {
      && Valid()
      && (forall k :: 0 <= k < |hist| ==> decoders[k].active && decoders[k].tokens == [] && hist[k] == if k < j then prompt else [])
      && (forall k :: 0 <= k < j && k < |hist| ==> decoders[k].logits == Alone(prompt, layers)[|prompt| - 1])
    }

    method ShareWithAll()
      requires Sharing(1)
      modifies this`decoders, this`hist, cache
      ensures AtTop(0) && |decoders| == old(|decoders|) && AllActive()
    {
      for j := 1 to |decoders|
        invariant Sharing(j) && |decoders| == old(|decoders|)
      {
        SharePrompt(j);
      }
      assert forall k :: 0 <= k < |hist| ==> prompt + decoders[k].tokens == prompt;
    }

    method SharePrompt(j: nat)
      requires Sharing(j) && 0 < j < |hist|
      modifies this`decoders, this`hist, cache
      ensures Sharing(j + 1) && |decoders| == old(|decoders|)
    {
      ghost var cells := cache.cells;
      cache.SeqCp(0, j, -1, -1);
      CopyCarries(cells, cache.cells, data, layers, hist, j);
      hist := hist[j := prompt];
      decoders := decoders[j := decoders[j].(logits := decoders[0].logits)];
    }

    /** One iteration: tokens are chosen, some decoders stop, and the others' tokens are decoded. */
    method Iterate(sampled: Sampled, stop: seq<bool>, i: nat) returns (ok: bool, done: bool)
      requires AtTop(i) && ValidSample(decoders, sampled) && |stop| == |decoders| && |prompt| + i < MAX_POS
      modifies this, cache
      ensures Valid() && |decoders| == old(|decoders|)
      ensures ok && !done ==> AtTop(i + 1) && true in Flags(decoders)
      ensures done ==> ok && true !in Flags(decoders)
      ensures AllContinued(old(decoders), decoders, sampled, stop, i)
    {
      match sampled {
        case Greedy(next) => Append(next, i);
        case Beam(candidates) => Shuffle(candidates, i);
      }
      Stop(stop, i);
      assert AllContinued(old(decoders), decoders, sampled, stop, i);
      done := AllStopped();
      if done {
        return true, true;
      }
      ok := DecodeNext(i);
    }

    /** A whole window: whatever is sampled, in every iteration each active decoder samples from the
        logits it would have on its own, until all have stopped, or the cache has no room. */
    method DecodeWindow(sample: (nat, Decoders) -> (Sampled, seq<bool>), steps: nat) returns (ok: bool, i: nat)
      requires Valid() && |prompt| + steps <= MAX_POS
      requires forall j :: 0 <= j < |decoders| ==> decoders[j].active && decoders[j].tokens == [] && hist[j] == []
      requires forall k, ds :: true in Flags(ds) ==> ValidSample(ds, sample(k, ds).0) && |sample(k, ds).1| == |ds|
      modifies this, cache
      ensures Valid() && |decoders| == old(|decoders|) && i <= steps
      ensures ok && true in Flags(decoders) ==> i == steps && AtTop(i)
    {
      i := 0;
      ok := Start();
      assert ok ==> Flags(decoders)[0];
      while ok && i < steps
        invariant Valid() && |decoders| == old(|decoders|) && i <= steps
        invariant ok ==> AtTop(i) && true in Flags(decoders)
      {
        var s := sample(i, decoders);
        var done;
        ok, done := Iterate(s.0, s.1, i);
        if done {
          return;
        }
        if ok {
          i := i + 1;
        }
      }
    }

    /** The last tokens of the active decoders are decoded. */
    method DecodeNext(i: nat) returns (ok: bool)
      requires Valid() && Chosen(decoders, hist, prompt, i) && |prompt| + i < MAX_POS
      modifies this, cache
      ensures Valid() && SameTokens(old(decoders), decoders)
      ensures ok ==> AtTop(i + 1)
    {
      var batch := NextBatch(i);
      BatchIsProper(batch, decoders, |prompt| + i);
      AllExtend(batch, decoders, hist, prompt, i);
      ghost var after := HistAfter(decoders, hist);
      ChosenIsCached(decoders, hist, prompt, i);
      var out;
      ok, out := DecodeInternal(batch, after);
      if ok {
        ReadLogits(batch, out, i + 1, |prompt| + i);
      }
    }

    method AllStopped() returns (done: bool)
      ensures done <==> true !in Flags(decoders)
    {
      done := true;
      for j := 0 to |decoders|
        invariant done <==> true !in Flags(decoders)[..j]
      {
        assert Flags(decoders)[..j + 1] == Flags(decoders)[..j] + [decoders[j].active];
        if decoders[j].active {
          done := false;
        }
      }
      assert Flags(decoders)[..|decoders|] == Flags(decoders);
    }

    /** Decodes a batch; its activations are what each sequence would have on its own. */
    method DecodeInternal(batch: Batch, ghost after: seq<Tokens>) returns (ok: bool, out: seq<Term>)
      requires Valid() && ProperBatch(batch) && BatchOf(batch, |hist|) && |after| == |hist|
      requires forall m :: 0 <= m < |batch| ==> 0 <= batch[m].pos < MAX_POS
      requires forall j :: 0 <= j < |hist| ==> Extends(batch, j, hist[j], after[j])
      modifies this`data, this`hist, cache
      ensures Valid()
      ensures !ok ==> hist == old(hist) && forall s: nat :: !FreeRun(old(cache.cells), s, |batch|)
      ensures ok ==> hist == after && |out| == |batch| && forall m :: 0 <= m < |batch| ==> OutputAlone(batch, out, after, layers, m)
    {
      ghost var cells := cache.cells;
      out := [];
      ok := cache.FindSlot(batch);
      if !ok {
        return;
      }
      cache.SetN(pad);
      var v := View(cache.cells, data, layers, cache.head, batch, cache.n);
      SlotIsConsistent(cells, v, hist, after);
      var stored;
      stored, out := RunGraph(v);
      AllStored(v, stored, after);
      WrittenIsPlain(cells, cache.head, batch, |hist|);
      OutputsAlone(v, after);
      data, hist := stored, after;
    }

    /** The first j decoders have been looked at. */
    ghost predicate Assigning(candidates: seq<BeamCandidate>, i: nat, j: nat, cur: nat, before: Decoders, cells: Cells, m: Moves)
      reads this, cache
    {
      && cache.Valid() && ValidMoves(m) && j <= |decoders|
      && Cached(before, hist, prompt, i) && ValidSample(before, Beam(candidates)) && PlainCells(cells, |m.active|)
      && AllStaged(cells, cache.cells, m, j) && Assigned(before, decoders, candidates, m, j, i)
      && Handed(decoders, before, candidates, i, j, cur)
    }

    /** Loop over the active decoders: each is given a candidate, and its parent's cells are staged. */
    method AssignCandidates(candidates: seq<BeamCandidate>, i: nat) returns (ghost m: Moves)
      requires Valid() && Cached(decoders, hist, prompt, i) && ValidSample(decoders, Beam(candidates))
      modifies this`decoders, cache
      ensures cache.Valid() && ValidMoves(m) && |m.active| == |decoders|
      ensures AllStaged(old(cache.cells), cache.cells, m, |decoders|) && Assigned(old(decoders), decoders, candidates, m, |decoders|, i)
      ensures HaveCandidates(decoders, Flags(old(decoders)), candidates, i, |decoders|)
    {
      m := Moves(Flags(decoders), seq(|decoders|, j => 0));
      StartAssigning(candidates, i, m);
      m := AssignAll(candidates, i, decoders, cache.cells, m);
    }

    lemma StartAssigning(candidates: seq<BeamCandidate>, i: nat, m: Moves)
      requires Valid() && Cached(decoders, hist, prompt, i) && ValidSample(decoders, Beam(candidates))
      requires m == Moves(Flags(decoders), seq(|decoders|, j => 0))
      ensures Assigning(candidates, i, 0, 0, decoders, cache.cells, m)
    {
    }

    method AssignAll(candidates: seq<BeamCandidate>, i: nat, ghost before: Decoders, ghost cells: Cells, ghost m: Moves)
      returns (ghost now: Moves)
      requires Assigning(candidates, i, 0, 0, before, cells, m)
      modifies this`decoders, cache
      ensures exists cur :: Assigning(candidates, i, |decoders|, cur, before, cells, now)
    {
      now := m;
      var cur: nat := 0;
      for j := 0 to |decoders|
        invariant Assigning(candidates, i, j, cur, before, cells, now)
      {
        cur, now := AssignNext(candidates, i, j, cur, before, cells, now);
      }
    }

    method AssignNext(candidates: seq<BeamCandidate>, i: nat, j: nat, cur: nat, ghost before: Decoders, ghost cells: Cells, ghost m: Moves)
      returns (next: nat, ghost now: Moves)
      requires Assigning(candidates, i, j, cur, before, cells, m) && j < |decoders|
      modifies this`decoders, cache
      ensures |decoders| == old(|decoders|) && Assigning(candidates, i, j + 1, next, before, cells, now)
    {
      next, now := cur, m;
      if decoders[j].active {
        var c;
        c, next := NextCandidate(candidates, cur, i);
        OneMoreHanded(decoders, before, candidates, i, j, cur, c, next);
        now := AssignOne(c, j, candidates, i, before, cells, m);
      } else {
        NoneHanded(decoders, before, candidates, i, j, cur);
        NextStays(cells, cache.cells, m, j);
      }
    }

    /** Decoder j is given candidate c. */
    method AssignOne(c: BeamCandidate, j: nat, ghost candidates: seq<BeamCandidate>, ghost i: nat, ghost before: Decoders,
                     ghost cells: Cells, ghost m: Moves)
      returns (ghost now: Moves)
      requires cache.Valid() && ValidMoves(m) && j < |decoders| && decoders[j].active && c in candidates
      requires Cached(before, hist, prompt, i) && ValidSample(before, Beam(candidates)) && PlainCells(cells, |m.active|)
      requires AllStaged(cells, cache.cells, m, j) && Assigned(before, decoders, candidates, m, j, i)
      modifies this`decoders, cache
      ensures cache.Valid() && ValidMoves(now)
      ensures AllStaged(cells, cache.cells, now, j + 1) && Assigned(before, decoders, candidates, now, j + 1, i)
      ensures j < |old(decoders)| && decoders == old(decoders)[j := old(decoders)[j].(tokens := c.tokens)]
    {
      assert ValidCandidate(before, c);
      StagedSoFar(cells, cache.cells, m, j, c.decoder);
      GiveCandidate(before, decoders, hist, prompt, candidates, m, j, c, i);
      now := m.(parent := m.parent[j := c.decoder]);
      decoders := decoders[j := decoders[j].(tokens := c.tokens)];
      StageDecoder(cache, c.decoder, j, cells, now);
    }

    /** Beam search: candidates are handed out and the cache follows. */
    method Shuffle(candidates: seq<BeamCandidate>, i: nat)
      requires Valid() && Cached(decoders, hist, prompt, i) && ValidSample(decoders, Beam(candidates))
      modifies this`decoders, this`hist, cache
      ensures Valid() && Chosen(decoders, hist, prompt, i)
      ensures |decoders| == old(|decoders|) && Flags(decoders) == old(Flags(decoders))
      ensures forall j :: ActiveAt(decoders, j) ==> HasCandidate(decoders, old(hist), hist, candidates, j)
      ensures HaveCandidates(decoders, Flags(old(decoders)), candidates, i, |decoders|)
    {
      ghost var cells, before := cache.cells, decoders;
      ghost var m := AssignCandidates(candidates, i);
      TakeOver(cache, Flags(decoders), cells, m);
      TakenIsCarried(cells, cache.cells, data, layers, m, hist);
      AssignedIsChosen(before, decoders, hist, prompt, candidates, m, i);
      hist := HistTaken(hist, m);
    }

    /** Greedy sampling: every active decoder gets one more token. */
    method Append(next: Tokens, i: nat)
      requires Valid() && Cached(decoders, hist, prompt, i) && |next| == |decoders|
      modifies this`decoders
      ensures Valid() && Chosen(decoders, hist, prompt, i)
      ensures |decoders| == old(|decoders|) && forall j :: 0 <= j < |decoders| ==> decoders[j] == Appended(old(decoders)[j], next[j])
    {
      for j := 0 to |decoders|
        invariant |decoders| == old(|decoders|)
        invariant forall k :: j <= k < |decoders| ==> decoders[k] == old(decoders)[k]
        invariant forall k :: 0 <= k < j ==> decoders[k] == Appended(old(decoders)[k], next[k])
      {
        if decoders[j].active {
          decoders := decoders[j := decoders[j].(tokens := decoders[j].tokens + [next[j]])];
        }
      }
    }

    /** Some decoders complete or fail. */
    method Stop(stop: seq<bool>, i: nat)
      requires Valid() && Chosen(decoders, hist, prompt, i) && |stop| == |decoders|
      modifies this`decoders
      ensures Valid() && Chosen(decoders, hist, prompt, i)
      ensures |decoders| == old(|decoders|)
      ensures forall j :: 0 <= j < |decoders| ==> decoders[j] == Stopped(old(decoders)[j], stop[j])
    {
      for j := 0 to |decoders|
        invariant |decoders| == |stop| && Chosen(decoders, hist, prompt, i)
        invariant forall k :: 0 <= k < |decoders| ==> decoders[k] == Stopped(old(decoders)[k], k < j && stop[k])
      {
        if stop[j] {
          decoders := decoders[j := decoders[j].(active := false)];
        }
      }
    }

    /** The last token of every active decoder, at the next position. */
    method NextBatch(i: nat) returns (batch: Batch)
      requires Valid() && Chosen(decoders, hist, prompt, i)
      modifies this`decoders
      ensures Valid() && Chosen(decoders, hist, prompt, i)
      ensures SameTokens(old(decoders), decoders)
      ensures BatchFor(batch, decoders, |decoders|, |prompt| + i)
    {
      batch := [];
      for j := 0 to |decoders|
        invariant SameTokens(old(decoders), decoders) && Chosen(decoders, hist, prompt, i)
        invariant BatchFor(batch, decoders, j, |prompt| + i)
      {
        if decoders[j].active {
          ghost var ds := decoders;
          var tokens := decoders[j].tokens;
          decoders := decoders[j := decoders[j].(batchIndex := |batch|)];
          var entry := BatchToken(tokens[|tokens| - 1], |prompt| + i, [j]);
          OneMoreEntry(batch, ds, j, |prompt| + i, entry);
          batch := batch + [entry];
        } else {
          EntriesStay(batch, decoders, decoders, j, j + 1, |prompt| + i);
        }
      }
    }

    /** Every active decoder gets the activations of its entry. */
    method ReadLogits(batch: Batch, out: seq<Term>, i: nat, pos: nat)
      requires Valid() && HaveRead(decoders, hist, prompt, layers, batch, out, i, pos, 0)
      modifies this`decoders
      ensures AtTop(i) && SameTokens(old(decoders), decoders)
    {
      for j := 0 to |decoders|
        invariant Valid() && SameTokens(old(decoders), decoders)
        invariant HaveRead(decoders, hist, prompt, layers, batch, out, i, pos, j)
      {
        ReadOne(batch, out, i, pos, j);
      }
    }

    method ReadOne(batch: Batch, out: seq<Term>, ghost i: nat, ghost pos: nat, j: nat)
      requires Valid() && HaveRead(decoders, hist, prompt, layers, batch, out, i, pos, j) && j < |decoders|
      modifies this`decoders
      ensures Valid() && HaveRead(decoders, hist, prompt, layers, batch, out, i, pos, j + 1)
      ensures SameTokens(old(decoders), decoders)
    {
      if decoders[j].active {
        OneMoreRead(decoders, hist, prompt, layers, batch, out, i, pos, j);
        decoders := decoders[j := decoders[j].(logits := out[decoders[j].batchIndex])];
      }
    }
  }

  /** The first k decoders have the activations of their entries. */
  ghost predicate HaveRead(ds: Decoders, hist: seq<Tokens>, prompt: Tokens, layers: nat,
                           batch: Batch, out: seq<Term>, i: nat, pos: nat, k: nat) {
    && |out| == |batch| && Cached(ds, hist, prompt, i) && BatchFor(batch, ds, |ds|, pos)
    && pos + 1 == |prompt| + i
    && (forall m :: 0 <= m < |batch| ==> OutputAlone(batch, out, hist, layers, m))
    && (forall j :: 0 <= j < k && ActiveAt(ds, j) ==> ds[j].logits == Alone(hist[j], layers)[|hist[j]| - 1])
  }

  lemma OneMoreRead(ds: Decoders, hist: seq<Tokens>, prompt: Tokens, layers: nat,
                    batch: Batch, out: seq<Term>, i: nat, pos: nat, j: nat)
    requires HaveRead(ds, hist, prompt, layers, batch, out, i, pos, j) && ActiveAt(ds, j)
    ensures ds[j].batchIndex < |out|
    ensures HaveRead(ds[j := ds[j].(logits := out[ds[j].batchIndex])], hist, prompt, layers, batch, out, i, pos, j + 1)
  {
    var m := ds[j].batchIndex;
    var now := ds[j := ds[j].(logits := out[m])];
    assert EntryFor(batch, ds, |ds|, pos, m) && OutputAlone(batch, out, hist, layers, m);
    EntriesStay(batch, ds, now, |ds|, |ds|, pos);
    forall k | ActiveAt(now, k) ensures ActiveAt(ds, k) && now[k].tokens == ds[k].tokens {
    }
  }

  predicate OutputAlone(batch: Batch, out: seq<Term>, tokens: seq<Tokens>, layers: nat, m: nat)
    requires m < |batch| == |out|
  {
    && 0 <= SeqOf(batch[m]) < |tokens| && 0 <= batch[m].pos < |tokens[SeqOf(batch[m])]|
    && out[m] == Alone(tokens[SeqOf(batch[m])], layers)[batch[m].pos]
  }

  lemma OutputsAlone(v: View, tokens: seq<Tokens>)
    requires Proper(v) && Consistent(v, tokens)
    ensures forall m :: 0 <= m < |v.batch| ==> OutputAlone(v.batch, Hidden(v, v.layers), tokens, v.layers, m)
  {
    BatchIsAlone(v, tokens, v.layers);
    forall m | 0 <= m < |v.batch| ensures OutputAlone(v.batch, Hidden(v, v.layers), tokens, v.layers, m) {
      assert RightAt(v, tokens, Hidden(v, v.layers), v.layers, m);
    }
  }

  lemma AllStored(v: View, data: Data, tokens: seq<Tokens>)
    requires Proper(v) && Consistent(v, tokens) && KeysStored(v, data)
    requires forall j :: 0 <= j < |tokens| ==> HoldsPositions(v.cells, j, |tokens[j]|)
    ensures AllCarried(v.cells, data, v.layers, tokens)
  {
    forall j | 0 <= j < |tokens| ensures Carries(v.cells, data, v.layers, j, tokens[j]) {
      StoredIsCarried(v, data, tokens, j);
    }
  }

  /** Entries do not depend on logits, nor on decoders that have stopped. */
  lemma EntriesStay(batch: Batch, ds: Decoders, now: Decoders, k: nat, n: nat, pos: nat)
    requires BatchFor(batch, ds, k, pos) && k <= n <= |ds| == |now|
    requires forall j :: 0 <= j < |ds| ==> now[j] == ds[j].(logits := now[j].logits)
    requires forall j :: k <= j < n ==> !ds[j].active
    ensures BatchFor(batch, now, n, pos)
  {
    forall m | 0 <= m < |batch| ensures EntryFor(batch, now, n, pos, m) {
      assert EntryFor(batch, ds, k, pos, m);
    }
  }

  lemma OneMoreEntry(batch: Batch, ds: Decoders, j: nat, pos: nat, entry: BatchToken)
    requires j < |ds| && ds[j].active && ds[j].tokens != [] && BatchFor(batch, ds, j, pos)
    requires entry == BatchToken(ds[j].tokens[|ds[j].tokens| - 1], pos, [j])
    ensures BatchFor(batch + [entry], ds[j := ds[j].(batchIndex := |batch|)], j + 1, pos)
  {
    var next, now := batch + [entry], ds[j := ds[j].(batchIndex := |batch|)];
    var k := j + 1;
    forall m | 0 <= m < |next| ensures EntryFor(next, now, k, pos, m) {
      if m < |batch| {
        assert EntryFor(batch, ds, j, pos, m);
      }
    }
  }

  /** The next candidate in turn, starting over at the end; equal ones after it are skipped,
      but not in the first iteration. */
  method NextCandidate(candidates: seq<BeamCandidate>, from: nat, i: nat) returns (c: BeamCandidate, next: nat)
    requires from <= |candidates| && candidates != []
    ensures c in candidates && next <= |candidates|
    ensures var at := TakenAt(candidates, from);
            && c == candidates[at] && at < next && next == CursorPast(candidates, at, at + 1, i)
            && (forall k :: at < k < next ==> candidates[k].tokens == c.tokens)
            && (i == 0 ==> next == at + 1) && (i > 0 && next < |candidates| ==> candidates[next].tokens != c.tokens)
  {
    var at := if from >= |candidates| then 0 else from;
    c := candidates[at];
    next := at + 1;
    while next < |candidates| && candidates[next].tokens == c.tokens && i > 0
      invariant at < next <= |candidates|
      invariant forall k :: at < k < next ==> candidates[k].tokens == c.tokens
      invariant (i == 0 ==> next == at + 1) && CursorPast(candidates, at, at + 1, i) == CursorPast(candidates, at, next, i)
    {
      next := next + 1;
    }
  }

  function PromptBatch(prompt: Tokens): (r: Batch)
    ensures |r| == |prompt| && forall i :: 0 <= i < |r| ==> r[i] == BatchToken(prompt[i], i, [0])
  {
    seq(|prompt|, i requires 0 <= i < |prompt| => BatchToken(prompt[i], i, [0]))
  }

  lemma PromptExtends(batch: Batch, prompt: Tokens, hist: seq<Tokens>)
    requires batch == PromptBatch(prompt) && hist != [] && forall j :: 0 <= j < |hist| ==> hist[j] == []
    ensures ProperBatch(batch) && BatchOf(batch, |hist|)
    ensures forall j :: 0 <= j < |hist| ==> Extends(batch, j, hist[j], hist[0 := prompt][j])
  {
    forall p | 0 <= p < |prompt| ensures HasEntry(batch, 0, p) {
      assert OfSequence(batch, p, 0) && batch[p].pos == p;
    }
  }

  lemma AllExtend(batch: Batch, ds: Decoders, hist: seq<Tokens>, prompt: Tokens, i: nat)
    requires Chosen(ds, hist, prompt, i) && BatchFor(batch, ds, |ds|, |prompt| + i)
    ensures forall j :: 0 <= j < |ds| ==> Extends(batch, j, hist[j], HistAfter(ds, hist)[j])
    ensures forall m :: 0 <= m < |batch| ==> batch[m].pos == |prompt| + i
  {
    forall j | 0 <= j < |ds| ensures Extends(batch, j, hist[j], HistAfter(ds, hist)[j]) {
      BatchExtends(batch, ds, hist, prompt, i, j);
    }
    forall m | 0 <= m < |batch| ensures batch[m].pos == |prompt| + i {
      assert EntryFor(batch, ds, |ds|, |prompt| + i, m);
    }
  }

  /** Copying decoder 0's cells gives decoder j what decoder 0 carries. */
  lemma CopyCarries(cells: Cells, now: Cells, data: Data, layers: nat, hist: seq<Tokens>, j: nat)
    requires 0 < j < |hist| && hist[j] == [] && AllCarried(cells, data, layers, hist) && PlainCells(cells, |hist|)
    requires |now| == |cells| && forall i :: 0 <= i < |now| ==> now[i] == Copied(cells[i], 0, j, -1, -1)
    ensures AllCarried(now, data, layers, hist[j := hist[0]]) && PlainCells(now, |hist|)
  {
    forall i | 0 <= i < |now| ensures PlainCell(now[i], |hist|) {
      assert PlainCell(cells[i], |hist|);
    }
    var after := hist[j := hist[0]];
    forall k | 0 <= k < |hist| ensures Carries(now, data, layers, k, after[k]) {
      CopiedCarries(cells, now, data, layers, hist, j, k);
    }
  }

  lemma CopiedCarries(cells: Cells, now: Cells, data: Data, layers: nat, hist: seq<Tokens>, j: nat, k: nat)
    requires 0 < j < |hist| && k < |hist| && hist[j] == [] && AllCarried(cells, data, layers, hist) && PlainCells(cells, |hist|)
    requires |now| == |cells| && forall i :: 0 <= i < |now| ==> now[i] == Copied(cells[i], 0, j, -1, -1)
    ensures Shaped(now, data, layers) && Carries(now, data, layers, k, hist[j := hist[0]][k])
  {
    var s := if k == j then 0 else k;
    assert Carries(cells, data, layers, s, hist[s]) && Carries(cells, data, layers, j, hist[j]);
    forall i ensures Tagged(now, i, k) <==> Tagged(cells, i, s)
             ensures Tagged(now, i, k) ==> now[i].pos == cells[i].pos {
      if 0 <= i < |now| {
        assert PlainCell(cells[i], |hist|) && !Tagged(cells, i, j);
      }
    }
    forall p | 0 <= p < |hist[s]| ensures HasPosition(now, k, p) {
      var i := CellAt(cells, s, p, |hist[s]|);
      assert Tagged(now, i, k) && now[i].pos == p;
    }
  }
}
