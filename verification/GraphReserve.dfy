/** Reserving memory for a graph, and placing later graphs of the same structure without
    planning again. */
module GraphReserve {
  import opened Wrappers
  import opened FreeList
  import opened DynTallocr
  import opened TensorGraph
  import opened PlannedMemory
  import opened PlanInvariant
  import opened GraphPlanner

  /** What is remembered of where a tensor went; sizeMax 0 and no buffer for tensors that are
      views or were allocated by somebody else. */
  datatype TensorAlloc = NoAlloc | TensorAlloc(bufferId: nat, chunk: nat, offset: nat, size: nat) {
    function SizeMax(): nat {
      if NoAlloc? then 0 else size
    }
  }

  datatype NodeAlloc = NodeAlloc(dst: TensorAlloc, src: seq<TensorAlloc>)

  function Record(job: Job, hash: seq<HashNode>, t: nat): TensorAlloc
    requires job.g.ValidIds() && t < |hash| == |job.g.tensors|
  {
    if !job.g.Owned(t) then NoAlloc
    else TensorAlloc(hash[t].bufferId, hash[t].chunk, hash[t].offset, job.size(hash[t].bufferId, t))
  }

  /** The records fit the hash table. */
  ghost predicate Recorded(job: Job, hash: seq<HashNode>, nodeAllocs: seq<NodeAlloc>, leafAllocs: seq<TensorAlloc>) {
    && job.g.ValidIds() && |hash| == |job.g.tensors|
    && |nodeAllocs| == |job.g.nodes| && |leafAllocs| == |job.g.leafs|
    && (forall i :: 0 <= i < |nodeAllocs| ==> NodeRecorded(job, hash, nodeAllocs[i], job.g.nodes[i]))
    && (forall i :: 0 <= i < |leafAllocs| ==> leafAllocs[i] == Record(job, hash, job.g.leafs[i]))
  }

  ghost predicate NodeRecorded(job: Job, hash: seq<HashNode>, alloc: NodeAlloc, n: nat)
    requires job.g.ValidIds() && n < |hash| == |job.g.tensors|
  {
    var src := job.g.tensors[n].src;
    && alloc.dst == Record(job, hash, n)
    && |alloc.src| == |src| && forall j :: 0 <= j < |src| ==> alloc.src[j] == Record(job, hash, src[j])
  }

  /** The size of chunk c of a buffer, 0 when there is no such chunk. */
  function ChunkSize(buffer: Option<seq<nat>>, c: nat): nat {
    if buffer.Some? && c < |buffer.value| then buffer.value[c] else 0
  }

  /** Every chunk an allocator planned with is there and large enough. */
  ghost predicate BuffersLarge(buffers: seq<Option<seq<nat>>>, tops: seq<seq<nat>>) {
    && |buffers| == |tops|
    && (forall a, c :: 0 <= a < |tops| && 0 <= c < |tops[a]| ==> tops[a][c] <= ChunkSize(buffers[a], c))
  }

  /** A buffer that has every chunk large enough. */
  predicate FitsIn(buffer: Option<seq<nat>>, top: seq<nat>) {
    buffer.Some? && forall c :: 0 <= c < |top| ==> top[c] <= ChunkSize(buffer, c)
  }

  /** A buffer is kept if it is large enough, and allocated anew otherwise. */
  function Fitted(buffer: Option<seq<nat>>, top: seq<nat>): (r: Option<seq<nat>>)
    ensures FitsIn(r, top)
  {
    if FitsIn(buffer, top) then buffer else Some(top)
  }

  // ----- a later graph of the same structure

  /** Equal but for layouts and sizes. */
  ghost predicate SameStructure(g: Graph, g': Graph) {
    && g'.nodes == g.nodes && g'.leafs == g.leafs && |g'.tensors| == |g.tensors|
    && forall t :: 0 <= t < |g.tensors| ==>
         g'.tensors[t] == g.tensors[t].(layout := g'.tensors[t].layout, nbytes := g'.tensors[t].nbytes)
  }

  /** The memory remembered is enough for t. */
  predicate Fits(job: Job, t: nat, alloc: TensorAlloc)
    requires t < |job.g.tensors|
  {
    if !job.g.Owned(t) then true
    else alloc.TensorAlloc? && job.size(alloc.bufferId, t) <= alloc.SizeMax()
  }

  function SourceAlloc(alloc: NodeAlloc, j: nat): TensorAlloc {
    if j < |alloc.src| then alloc.src[j] else NoAlloc
  }

  ghost predicate NodeFits(job: Job, n: nat, alloc: NodeAlloc)
    requires job.g.ValidIds() && n < |job.g.tensors|
  {
    var src := job.g.tensors[n].src;
    Fits(job, n, alloc.dst) && forall j :: 0 <= j < |src| ==> Fits(job, src[j], SourceAlloc(alloc, j))
  }

  ghost predicate GraphFits(job: Job, nodeAllocs: seq<NodeAlloc>, leafAllocs: seq<TensorAlloc>)
    requires job.g.ValidIds()
  {
    && |nodeAllocs| == |job.g.nodes| && |leafAllocs| == |job.g.leafs|
    && forall i :: 0 <= i < |nodeAllocs| ==> NodeFits(job, job.g.nodes[i], nodeAllocs[i])
  }

  /** Leafs no node uses are not checked for size; they must not have grown. */
  ghost predicate IdleLeafsFit(job: Job, leafAllocs: seq<TensorAlloc>)
    requires job.g.ValidIds() && |leafAllocs| == |job.g.leafs|
  {
    forall i :: 0 <= i < |leafAllocs| && !job.g.IsSource(job.g.leafs[i]) && job.g.leafs[i] !in job.g.nodes ==>
      Fits(job, job.g.leafs[i], leafAllocs[i])
  }

  lemma SameStructureSameLives(g: Graph, g': Graph, t: nat, u: nat)
    requires g.ValidIds() && g'.ValidIds() && SameStructure(g, g') && t < |g.tensors| && u < |g.tensors|
    ensures g.Initial(t) == g'.Initial(t)
    ensures Placed(g, t) == Placed(g', t)
    ensures DoneBefore(g, t, u) ==> DoneBefore(g', t, u)
  {
    SameInitial(g, g', t);
    SameInitial(g, g', u);
    if DoneBefore(g, t, u) {
      var d :| 0 <= d < |g.nodes| && g.nodes[d] == u && g.DefinedBefore(t, d) && !g.NeededFrom(t, d + 1);
      assert g'.DefinedBefore(t, d);
      SameNeeds(g, g', t, d + 1);
      assert g'.nodes[d] == u;
    }
  }

  lemma SameInitial(g: Graph, g': Graph, t: nat)
    requires g.ValidIds() && g'.ValidIds() && SameStructure(g, g') && t < |g.tensors|
    ensures g.IsSource(t) == g'.IsSource(t) && g.Initial(t) == g'.Initial(t)
  {
    if g.IsSource(t) {
      var i :| 0 <= i < |g.nodes| && t in g.tensors[g.nodes[i]].src;
      assert t in g'.tensors[g'.nodes[i]].src;
    }
    if g'.IsSource(t) {
      var i :| 0 <= i < |g'.nodes| && t in g'.tensors[g'.nodes[i]].src;
      assert t in g.tensors[g.nodes[i]].src;
    }
  }

  lemma SameNeeds(g: Graph, g': Graph, t: nat, k: nat)
    requires g.ValidIds() && g'.ValidIds() && SameStructure(g, g') && t < |g.tensors|
    ensures g'.NeededFrom(t, k) ==> g.NeededFrom(t, k)
  {
    if g'.NeededFrom(t, k) && !g.tensors[t].isOutput {
      var i :| k <= i < |g'.nodes| && g'.Accesses(i, t);
      assert g.Accesses(i, t);
    }
  }

  /** The tensors whose sizes are checked against the records: nodes and their sources. */
  ghost predicate Used(g: Graph, t: nat)
    requires g.ValidIds() && t < |g.tensors|
  {
    t in g.nodes || g.IsSource(t)
  }

  /** Every tensor that is used had enough memory remembered for it, and every other one too
      when no idle leaf has grown. */
  lemma PlacedTensorFits(job: Job, job': Job, hash: seq<HashNode>, nodeAllocs: seq<NodeAlloc>, leafAllocs: seq<TensorAlloc>, t: nat)
    requires Recorded(job, hash, nodeAllocs, leafAllocs) && SameStructure(job.g, job'.g) && job'.g.ValidIds()
    requires GraphFits(job', nodeAllocs, leafAllocs)
    requires t < |hash| && job'.g.Owned(t) && (Used(job'.g, t) || (Placed(job'.g, t) && IdleLeafsFit(job', leafAllocs)))
    ensures job'.size(hash[t].bufferId, t) <= job.size(hash[t].bufferId, t)
  {
    var g := job'.g;
    if t in g.nodes {
      var i :| 0 <= i < |g.nodes| && g.nodes[i] == t;
      assert NodeFits(job', t, nodeAllocs[i]) && NodeRecorded(job, hash, nodeAllocs[i], t);
    } else if g.IsSource(t) {
      var i :| 0 <= i < |g.nodes| && t in g.tensors[g.nodes[i]].src;
      var j :| 0 <= j < |g.tensors[g.nodes[i]].src| && g.tensors[g.nodes[i]].src[j] == t;
      assert NodeFits(job', g.nodes[i], nodeAllocs[i]) && NodeRecorded(job, hash, nodeAllocs[i], g.nodes[i]);
      assert Fits(job', t, SourceAlloc(nodeAllocs[i], j));
    } else {
      var i :| 0 <= i < |g.leafs| && g.leafs[i] == t;
      assert leafAllocs[i] == Record(job, hash, t);
    }
  }

  /** Every tensor of the planner's that is used takes no more than was recorded for it. */
  ghost predicate UsedFit(job: Job, job': Job, hash: seq<HashNode>)
    requires job'.g.ValidIds() && |hash| == |job'.g.tensors|
  {
    forall t :: 0 <= t < |hash| && Used(job'.g, t) && job'.g.Owned(t) ==>
      job'.size(hash[t].bufferId, t) <= job.size(hash[t].bufferId, t)
  }

  lemma FitsExactly(job: Job, job': Job, hash: seq<HashNode>, t: nat, alloc: TensorAlloc)
    requires job.g.ValidIds() && SameStructure(job.g, job'.g) && t < |hash| == |job.g.tensors| && alloc == Record(job, hash, t)
    ensures Fits(job', t, alloc) <==> (job'.g.Owned(t) ==> job'.size(hash[t].bufferId, t) <= job.size(hash[t].bufferId, t))
  {
  }

  /** A graph of the structure that was reserved is accepted exactly if its nodes and their sources take no
      more than was recorded. */
  lemma AcceptedExactly(job: Job, job': Job, hash: seq<HashNode>, nodeAllocs: seq<NodeAlloc>, leafAllocs: seq<TensorAlloc>)
    requires Recorded(job, hash, nodeAllocs, leafAllocs) && SameStructure(job.g, job'.g) && job'.g.ValidIds()
    ensures GraphFits(job', nodeAllocs, leafAllocs) <==> UsedFit(job, job', hash)
  {
    var g := job'.g;
    if UsedFit(job, job', hash) {
      forall i | 0 <= i < |nodeAllocs| ensures NodeFits(job', g.nodes[i], nodeAllocs[i]) {
        UsedNodeFits(job, job', hash, nodeAllocs[i], i);
      }
    }
    if GraphFits(job', nodeAllocs, leafAllocs) {
      forall t | 0 <= t < |hash| && Used(g, t) && g.Owned(t) ensures job'.size(hash[t].bufferId, t) <= job.size(hash[t].bufferId, t) {
        PlacedTensorFits(job, job', hash, nodeAllocs, leafAllocs, t);
      }
    }
  }

  lemma UsedNodeFits(job: Job, job': Job, hash: seq<HashNode>, alloc: NodeAlloc, i: nat)
    requires job.g.ValidIds() && job'.g.ValidIds() && SameStructure(job.g, job'.g) && |hash| == |job.g.tensors|
    requires i < |job.g.nodes| && NodeRecorded(job, hash, alloc, job.g.nodes[i]) && UsedFit(job, job', hash)
    ensures NodeFits(job', job'.g.nodes[i], alloc)
  {
    var g, n := job'.g, job'.g.nodes[i];
    FitsExactly(job, job', hash, n, alloc.dst);
    forall j | 0 <= j < |g.tensors[n].src| ensures Fits(job', g.tensors[n].src[j], SourceAlloc(alloc, j)) {
      assert g.IsSource(g.tensors[n].src[j]);
      FitsExactly(job, job', hash, g.tensors[n].src[j], alloc.src[j]);
    }
  }

  /** Every tensor the planner manages takes no more than was recorded for it. */
  ghost predicate AllFit(job: Job, job': Job, hash: seq<HashNode>)
    requires job'.g.ValidIds() && |hash| == |job'.g.tensors|
  {
    forall t :: 0 <= t < |hash| && Placed(job'.g, t) ==> job'.size(hash[t].bufferId, t) <= job.size(hash[t].bufferId, t)
  }

  /** The exact condition under which a graph that is accepted fits the records: the check passes over
      leafs that no node uses, so those must not have grown. */
  lemma AcceptedFitsExactly(job: Job, job': Job, hash: seq<HashNode>, nodeAllocs: seq<NodeAlloc>, leafAllocs: seq<TensorAlloc>)
    requires Recorded(job, hash, nodeAllocs, leafAllocs) && SameStructure(job.g, job'.g) && job'.g.ValidIds()
    requires GraphFits(job', nodeAllocs, leafAllocs)
    ensures AllFit(job, job', hash) <==> IdleLeafsFit(job', leafAllocs)
  {
    if IdleLeafsFit(job', leafAllocs) {
      forall t | 0 <= t < |hash| && Placed(job'.g, t) ensures job'.size(hash[t].bufferId, t) <= job.size(hash[t].bufferId, t) {
        PlacedTensorFits(job, job', hash, nodeAllocs, leafAllocs, t);
      }
    }
    if AllFit(job, job', hash) {
      forall i | 0 <= i < |leafAllocs| ensures Fits(job', job'.g.leafs[i], leafAllocs[i]) {
        var t := job'.g.leafs[i];
        assert leafAllocs[i] == Record(job, hash, t);
        assert job'.g.Owned(t) ==> Placed(job'.g, t);
      }
    }
  }

  /** Leaf i is managed by the planner, and no node uses it. */
  ghost predicate IdleLeaf(g: Graph, i: nat)
    requires g.ValidIds()
  {
    i < |g.leafs| && g.Owned(g.leafs[i]) && !g.IsSource(g.leafs[i]) && g.leafs[i] !in g.nodes
  }

  /** The same graph, with tensor t larger. */
  function Grown(job: Job, t: nat, extra: nat): Job {
    var size := job.size;
    job.(size := (b: nat, u: nat) => if u == t then size(b, u) + extra else size(b, u))
  }

  /** An idle leaf may grow by as much as it likes, and the graph is accepted all the same. */
  lemma IdleLeafMayGrow(bufs: Buffers, job: Job, hash: seq<HashNode>, nodeAllocs: seq<NodeAlloc>, leafAllocs: seq<TensorAlloc>, i: nat, extra: nat)
    requires ValidJob(bufs, job) && Recorded(job, hash, nodeAllocs, leafAllocs) && IdleLeaf(job.g, i) && extra > 0
    requires forall b :: 0 <= b < |bufs.tallocrOf| ==> bufs.Padded(job.size(b, job.g.leafs[i]) + extra, b) <= SIZE_MAX / 2
    ensures var job' := Grown(job, job.g.leafs[i], extra);
            ValidJob(bufs, job') && SameStructure(job.g, job'.g) && GraphFits(job', nodeAllocs, leafAllocs) && !IdleLeafsFit(job', leafAllocs)
  {
    var t := job.g.leafs[i];
    var job' := Grown(job, t, extra);
    forall k | 0 <= k < |nodeAllocs| ensures NodeFits(job', job'.g.nodes[k], nodeAllocs[k]) {
      var n := job.g.nodes[k];
      assert NodeRecorded(job, hash, nodeAllocs[k], n);
      forall j | 0 <= j < |job.g.tensors[n].src| ensures job.g.tensors[n].src[j] != t {
        assert !job.g.IsSource(t);
      }
    }
    assert leafAllocs[i] == Record(job, hash, t);
    assert !Fits(job', t, leafAllocs[i]);
  }

  /** With room for a tensor that starts further up in the same chunk, and holds its value from the start,
      the leaf grows into that one: the addresses recorded are not safe for the graph accepted. */
  lemma IdleLeafMayMeet(bufs: Buffers, job: Job, hash: seq<HashNode>, nodeAllocs: seq<NodeAlloc>, leafAllocs: seq<TensorAlloc>, i: nat, u: nat)
    requires ValidJob(bufs, job) && Recorded(job, hash, nodeAllocs, leafAllocs) && IdleLeaf(job.g, i)
    requires u < |hash| && u != job.g.leafs[i] && Placed(job.g, u) && job.g.Initial(u)
    requires hash[job.g.leafs[i]].bufferId < |bufs.tallocrOf| && hash[u].bufferId < |bufs.tallocrOf|
    requires bufs.tallocrOf[hash[job.g.leafs[i]].bufferId] == bufs.tallocrOf[hash[u].bufferId]
    requires hash[job.g.leafs[i]].chunk == hash[u].chunk && hash[job.g.leafs[i]].offset <= hash[u].offset
    requires forall b :: 0 <= b < |bufs.tallocrOf| ==> bufs.Padded(job.size(b, job.g.leafs[i]) + hash[u].offset + 1, b) <= SIZE_MAX / 2
    ensures var job' := Grown(job, job.g.leafs[i], hash[u].offset + 1);
            && ValidJob(bufs, job') && SameStructure(job.g, job'.g) && GraphFits(job', nodeAllocs, leafAllocs)
            && !SafePlan(job'.g, PlanFrom(bufs, job', hash))
  {
    var t := job.g.leafs[i];
    var job' := Grown(job, t, hash[u].offset + 1);
    IdleLeafMayGrow(bufs, job, hash, nodeAllocs, leafAllocs, i, hash[u].offset + 1);
    var plan := PlanFrom(bufs, job', hash);
    assert plan[t] == PlaceOf(bufs, job', hash[t], t) && plan[u] == PlaceOf(bufs, job', hash[u], u);
    assert Clash(plan[t], plan[u]);
    assert !SafePair(job'.g, plan, t, u);
  }

  lemma SmallerDoesNotClash(bufs: Buffers, job: Job, job': Job, h: HashNode, t: nat, q: Place, q': Place)
    requires bufs.Valid() && h.bufferId < |bufs.tallocrOf| && job'.size(h.bufferId, t) <= job.size(h.bufferId, t)
    requires q'.tallocr == q.tallocr && q'.region.chunk == q.region.chunk && q'.region.offset == q.region.offset && q'.region.size <= q.region.size
    ensures PlaceOf(bufs, job', h, t).region.size <= PlaceOf(bufs, job, h, t).region.size
    ensures Clash(PlaceOf(bufs, job', h, t), q') ==> Clash(PlaceOf(bufs, job, h, t), q)
  {
    AlignedSizeLeast(job'.size(h.bufferId, t), job.size(h.bufferId, t), bufs.alignments[bufs.tallocrOf[h.bufferId]]);
  }

  /** Placed tensors that are used, or all of them when no idle leaf has grown. */
  ghost predicate Covered(job: Job, leafAllocs: seq<TensorAlloc>, t: nat)
    requires job.g.ValidIds() && |leafAllocs| == |job.g.leafs| && t < |job.g.tensors|
  {
    Placed(job.g, t) && (Used(job.g, t) || IdleLeafsFit(job, leafAllocs))
  }

  /** Replay: a graph of the same structure whose nodes and sources fit what is remembered has
      its covered tensors as safely placed at the remembered addresses as the graph they were
      planned for had. */
  lemma ReplayIsSafe(bufs: Buffers, job: Job, job': Job, hash: seq<HashNode>, nodeAllocs: seq<NodeAlloc>, leafAllocs: seq<TensorAlloc>)
    requires ValidJob(bufs, job) && ValidJob(bufs, job') && SameStructure(job.g, job'.g)
    requires Recorded(job, hash, nodeAllocs, leafAllocs)
    requires GraphFits(job', nodeAllocs, leafAllocs)
    requires SafePlan(job.g, PlanFrom(bufs, job, hash))
    requires forall t :: 0 <= t < |hash| && Placed(job.g, t) ==> hash[t].bufferId < |bufs.tallocrOf|
    ensures forall t :: 0 <= t < |hash| && Covered(job', leafAllocs, t) ==>
              hash[t].bufferId < |bufs.tallocrOf|
              && PlaceOf(bufs, job', hash[t], t).region.End() <= PlaceOf(bufs, job, hash[t], t).region.End()
    ensures var plan' := PlanFrom(bufs, job', hash);
            forall t, u :: 0 <= t < |hash| && 0 <= u < |hash| && t != u && Covered(job', leafAllocs, t) && Covered(job', leafAllocs, u) ==>
              SafePair(job'.g, plan', t, u)
    ensures IdleLeafsFit(job', leafAllocs) ==> SafePlan(job'.g, PlanFrom(bufs, job', hash))
  {
    var plan, plan' := PlanFrom(bufs, job, hash), PlanFrom(bufs, job', hash);
    forall t | 0 <= t < |hash| && Covered(job', leafAllocs, t)
      ensures Placed(job.g, t) && plan'[t].region.size <= plan[t].region.size
      ensures plan'[t] == PlaceOf(bufs, job', hash[t], t) && plan[t] == PlaceOf(bufs, job, hash[t], t)
    {
      SameStructureSameLives(job.g, job'.g, t, t);
      PlacedTensorFits(job, job', hash, nodeAllocs, leafAllocs, t);
      SmallerDoesNotClash(bufs, job, job', hash[t], t, plan[t], plan[t]);
    }
    forall t, u | 0 <= t < |hash| && 0 <= u < |hash| && t != u && Covered(job', leafAllocs, t) && Covered(job', leafAllocs, u)
      ensures SafePair(job'.g, plan', t, u)
    {
      PlacedTensorFits(job, job', hash, nodeAllocs, leafAllocs, t);
      SmallerDoesNotClash(bufs, job, job', hash[t], t, plan[u], plan'[u]);
      assert SafePair(job.g, plan, t, u);
      SameStructureSameLives(job.g, job'.g, t, u);
      SameStructureSameLives(job.g, job'.g, u, t);
    }
  }

  /** The address of a tensor: a buffer, a chunk of it and an offset. */
  datatype Spot = Spot(bufferId: nat, chunk: nat, offset: nat)

  function SpotOf(alloc: TensorAlloc): Spot
    requires alloc.TensorAlloc?
  {
    Spot(alloc.bufferId, alloc.chunk, alloc.offset)
  }

  ghost predicate SpotsFrom(g: Graph, hash: seq<HashNode>, spots: seq<Option<Spot>>)
    requires |hash| == |g.tensors|
  {
    && |spots| == |hash|
    && forall t :: 0 <= t < |spots| && spots[t].Some? ==>
         g.Owned(t) && spots[t].value == Spot(hash[t].bufferId, hash[t].chunk, hash[t].offset)
  }

  class Reserve {
    const planner: Gallocr
    var nodeAllocs: seq<NodeAlloc>
    var leafAllocs: seq<TensorAlloc>
    var buffers: seq<Option<seq<nat>>>   // sizes of the chunks, None for a buffer not made yet

    ghost predicate Valid()
      reads this, planner, planner.Repr
    {
      planner.Valid() && this !in planner.Repr && |buffers| == |planner.tallocrs|
    }

    constructor (planner: Gallocr)
      requires planner.Valid()
      ensures Valid() && this.planner == planner && nodeAllocs == [] && leafAllocs == []
    {
      this.planner := planner;
      nodeAllocs, leafAllocs := [], [];
      buffers := seq(|planner.tallocrs|, _ => None);
    }

    /** Reads the records off the hash table. */
    method RecordAllocs(job: Job) returns (nodes: seq<NodeAlloc>, leafs: seq<TensorAlloc>)
      requires ValidJob(planner.bufs, job) && |planner.hash| == |job.g.tensors|
      ensures Recorded(job, planner.hash, nodes, leafs)
    {
      var hash := planner.hash;
      nodes, leafs := [], [];
      for i := 0 to |job.g.nodes|
        invariant |nodes| == i && forall k :: 0 <= k < i ==> NodeRecorded(job, hash, nodes[k], job.g.nodes[k])
      {
        var src := job.g.tensors[job.g.nodes[i]].src;
        var records := [];
        for j := 0 to |src|
          invariant |records| == j && forall k :: 0 <= k < j ==> records[k] == Record(job, hash, src[k])
        {
          records := records + [Record(job, hash, src[j])];
        }
        nodes := nodes + [NodeAlloc(Record(job, hash, job.g.nodes[i]), records)];
      }
      for i := 0 to |job.g.leafs|
        invariant |leafs| == i && forall k :: 0 <= k < i ==> leafs[k] == Record(job, hash, job.g.leafs[k])
      {
        leafs := leafs + [Record(job, hash, job.g.leafs[i])];
      }
    }

    /** The buffer of allocator a: the one there is when all its chunks are large enough. */
    method FitBuffer(a: nat) returns (buffer: Option<seq<nat>>)
      requires Valid() && a < |buffers|
      ensures buffer == Fitted(buffers[a], planner.tops[a])
    {
      var tallocr := planner.tallocrs[a];
      var realloc := buffers[a].None?;
      var sizes: seq<nat> := [];
      for c := 0 to |tallocr.chunks|
        invariant sizes == planner.tops[a][..c]
        invariant !realloc <==> FitsIn(buffers[a], planner.tops[a][..c])
      {
        var newSize := tallocr.MaxSize(c);
        assert planner.tops[a][..c + 1] == planner.tops[a][..c] + [newSize];
        sizes := sizes + [newSize];
        if newSize > ChunkSize(buffers[a], c) {
          realloc := true;
        }
      }
      assert planner.tops[a][..|tallocr.chunks|] == planner.tops[a];
      buffer := if realloc then Some(sizes) else buffers[a];
    }

    method FitBuffers() returns (newBuffers: seq<Option<seq<nat>>>)
      requires Valid()
      ensures BuffersLarge(newBuffers, planner.tops)
      ensures forall a :: 0 <= a < |buffers| ==> newBuffers[a] == Fitted(buffers[a], planner.tops[a])
      ensures forall a :: 0 <= a < |buffers| ==>
                if buffers[a].Some? && forall c :: 0 <= c < |planner.tops[a]| ==> planner.tops[a][c] <= ChunkSize(buffers[a], c)
                then newBuffers[a] == buffers[a] else newBuffers[a] == Some(planner.tops[a])
    {
      newBuffers := [];
      for a := 0 to |buffers|
        invariant |newBuffers| == a
        invariant forall i :: 0 <= i < a ==> newBuffers[i] == Fitted(buffers[i], planner.tops[i])
      {
        var buffer := FitBuffer(a);
        newBuffers := newBuffers + [buffer];
      }
    }

    /** The plan in the hash table is safe, recorded, and has buffers that hold it. */
    ghost predicate Reserved(job: Job)
      reads this, planner
    {
      && ValidJob(planner.bufs, job)
      && Recorded(job, planner.hash, nodeAllocs, leafAllocs)
      && SafePlan(job.g, PlanFrom(planner.bufs, job, planner.hash))
      && BuffersLarge(buffers, planner.tops)
      && InsideBuffers(job)
    }

    method Plan(job: Job) returns (ok: bool)
      requires Valid() && ValidJob(planner.bufs, job)
      modifies planner.Repr
      ensures ok || planner.Exhausted()
      ensures Valid() && fresh(planner.Repr - old(planner.Repr))
      ensures ok ==> |planner.hash| == |job.g.tensors| && SafePlan(job.g, PlanFrom(planner.bufs, job, planner.hash))
      ensures ok ==> InsideBuffers(job) && OnlyWanted(job.g, planner.hash)
    {
      planner.ResetAllocators();
      ok := planner.AllocGraphImpl(job);
    }

    ghost predicate InsideBuffers(job: Job)
      reads this, planner
      requires job.g.ValidIds() && planner.bufs.Valid() && |planner.hash| == |job.g.tensors|
    {
      forall t :: 0 <= t < |planner.hash| && Placed(job.g, t) ==>
        planner.hash[t].bufferId < |planner.bufs.tallocrOf|
        && InBounds(planner.Now(), PlaceOf(planner.bufs, job, planner.hash[t], t))
    }

    /** Plans for a graph and makes room for the plan. */
    method ReserveFor(job: Job) returns (ok: bool)
      requires Valid() && ValidJob(planner.bufs, job)
      modifies this, planner.Repr
      ensures ok || planner.Exhausted()
      ensures Valid() && fresh(planner.Repr - old(planner.Repr))
      ensures ok ==> Reserved(job)
    {
      ok := Plan(job);
      if ok {
        MakeRoom(job);
      }
    }

    method MakeRoom(job: Job)
      requires Valid() && ValidJob(planner.bufs, job) && |planner.hash| == |job.g.tensors|
      requires SafePlan(job.g, PlanFrom(planner.bufs, job, planner.hash)) && InsideBuffers(job)
      modifies this
      ensures Valid() && Reserved(job)
      ensures forall a :: 0 <= a < |buffers| ==> a < |old(buffers)| && buffers[a] == Fitted(old(buffers)[a], planner.tops[a])
    {
      var nodes, leafs := RecordAllocs(job);
      var newBuffers := FitBuffers();
      nodeAllocs, leafAllocs, buffers := nodes, leafs, newBuffers;
    }

    method NodeFitsRecord(job: Job, n: nat, alloc: NodeAlloc) returns (fits: bool)
      requires job.g.ValidIds() && n < |job.g.tensors|
      ensures fits == NodeFits(job, n, alloc)
    {
      if !Fits(job, n, alloc.dst) {
        return false;
      }
      var src := job.g.tensors[n].src;
      for j := 0 to |src|
        invariant forall k :: 0 <= k < j ==> Fits(job, src[k], SourceAlloc(alloc, k))
      {
        if !Fits(job, src[j], SourceAlloc(alloc, j)) {
          return false;
        }
      }
      fits := true;
    }

    method NeedsRealloc(job: Job) returns (needs: bool)
      requires job.g.ValidIds()
      ensures needs == !GraphFits(job, nodeAllocs, leafAllocs)
    {
      if |nodeAllocs| != |job.g.nodes| || |leafAllocs| != |job.g.leafs| {
        return true;
      }
      for i := 0 to |nodeAllocs|
        invariant forall k :: 0 <= k < i ==> NodeFits(job, job.g.nodes[k], nodeAllocs[k])
      {
        var fits := NodeFitsRecord(job, job.g.nodes[i], nodeAllocs[i]);
        if !fits {
          return true;
        }
      }
      needs := false;
    }

    /** Gives tensor t its address, unless it is a view, was allocated by somebody else, or
        has been met before. */
    method InitTensor(job: Job, spots: seq<Option<Spot>>, t: nat, alloc: TensorAlloc) returns (r: seq<Option<Spot>>)
      requires job.g.ValidIds() && t < |spots| == |job.g.tensors| == |planner.hash|
      requires SpotsFrom(job.g, planner.hash, spots)
      requires job.g.Owned(t) ==> alloc.TensorAlloc? && SpotOf(alloc) == Spot(planner.hash[t].bufferId, planner.hash[t].chunk, planner.hash[t].offset)
      ensures SpotsFrom(job.g, planner.hash, r)
      ensures forall u :: 0 <= u < |r| ==> (r[u].Some? <==> spots[u].Some? || (u == t && job.g.Owned(t)))
    {
      r := spots;
      if !job.g.IsView(t) && !job.g.tensors[t].external && spots[t].None? {
        r := spots[t := Some(SpotOf(alloc))];
      }
    }

    /** Addresses of the sources of node i and of the node itself. */
    method InitNode(job: Job, spots: seq<Option<Spot>>, i: nat, ghost was: Job) returns (r: seq<Option<Spot>>)
      requires Recorded(was, planner.hash, nodeAllocs, leafAllocs) && SameStructure(was.g, job.g) && job.g.ValidIds()
      requires i < |nodeAllocs| && SpotsFrom(job.g, planner.hash, spots)
      ensures SpotsFrom(job.g, planner.hash, r)
      ensures forall u :: 0 <= u < |r| && spots[u].Some? ==> r[u].Some?
      ensures var n := job.g.nodes[i];
              && (job.g.Owned(n) ==> r[n].Some?)
              && forall j :: 0 <= j < |job.g.tensors[n].src| && job.g.Owned(job.g.tensors[n].src[j]) ==> r[job.g.tensors[n].src[j]].Some?
    {
      var n := job.g.nodes[i];
      var src := job.g.tensors[n].src;
      var alloc := nodeAllocs[i];
      assert NodeRecorded(was, planner.hash, alloc, n);
      r := spots;
      for j := 0 to |src|
        invariant SpotsFrom(job.g, planner.hash, r)
        invariant forall u :: 0 <= u < |r| && spots[u].Some? ==> r[u].Some?
        invariant forall k :: 0 <= k < j && job.g.Owned(src[k]) ==> r[src[k]].Some?
      {
        assert alloc.src[j] == Record(was, planner.hash, src[j]);
        r := InitTensor(job, r, src[j], alloc.src[j]);
      }
      r := InitTensor(job, r, n, alloc.dst);
    }

    /** Every tensor of the graph the planner manages has its address. */
    ghost predicate AllSpotted(g: Graph, spots: seq<Option<Spot>>)
      requires g.ValidIds()
    {
      |spots| == |g.tensors| && forall t :: 0 <= t < |spots| && Placed(g, t) ==> spots[t].Some?
    }

    method InitAll(job: Job, ghost was: Job) returns (spots: seq<Option<Spot>>)
      requires Recorded(was, planner.hash, nodeAllocs, leafAllocs) && SameStructure(was.g, job.g) && job.g.ValidIds()
      ensures SpotsFrom(job.g, planner.hash, spots) && AllSpotted(job.g, spots)
    {
      spots := seq(|job.g.tensors|, _ => None);
      for i := 0 to |job.g.leafs|
        invariant SpotsFrom(job.g, planner.hash, spots)
        invariant forall k :: 0 <= k < i && job.g.Owned(job.g.leafs[k]) ==> spots[job.g.leafs[k]].Some?
      {
        assert leafAllocs[i] == Record(was, planner.hash, job.g.leafs[i]);
        spots := InitTensor(job, spots, job.g.leafs[i], leafAllocs[i]);
      }
      for i := 0 to |job.g.nodes|
        invariant SpotsFrom(job.g, planner.hash, spots)
        invariant forall k :: 0 <= k < |job.g.leafs| && job.g.Owned(job.g.leafs[k]) ==> spots[job.g.leafs[k]].Some?
        invariant NodesSpotted(job.g, spots, i)
      {
        ghost var before := spots;
        spots := InitNode(job, spots, i, was);
        NodesStaySpotted(job.g, before, spots, i);
      }
      forall t | 0 <= t < |spots| && Placed(job.g, t) ensures spots[t].Some? {
        SpottedByEnd(job.g, spots, t);
      }
    }

    ghost predicate NodesSpotted(g: Graph, spots: seq<Option<Spot>>, k: nat)
      requires g.ValidIds() && k <= |g.nodes| && |spots| == |g.tensors|
    {
      forall i :: 0 <= i < k ==> NodeSpotted(g, spots, g.nodes[i])
    }

    ghost predicate NodeSpotted(g: Graph, spots: seq<Option<Spot>>, n: nat)
      requires g.ValidIds() && n < |spots| == |g.tensors|
    {
      && (g.Owned(n) ==> spots[n].Some?)
      && forall j :: 0 <= j < |g.tensors[n].src| && g.Owned(g.tensors[n].src[j]) ==> spots[g.tensors[n].src[j]].Some?
    }

    lemma NodesStaySpotted(g: Graph, spots: seq<Option<Spot>>, spots': seq<Option<Spot>>, k: nat)
      requires g.ValidIds() && k < |g.nodes| && |spots| == |spots'| == |g.tensors| && NodesSpotted(g, spots, k)
      requires forall u :: 0 <= u < |spots| && spots[u].Some? ==> spots'[u].Some?
      requires NodeSpotted(g, spots', g.nodes[k])
      ensures NodesSpotted(g, spots', k + 1)
    {
      forall i | 0 <= i < k ensures NodeSpotted(g, spots', g.nodes[i]) {
        assert NodeSpotted(g, spots, g.nodes[i]);
      }
    }

    lemma SpottedByEnd(g: Graph, spots: seq<Option<Spot>>, t: nat)
      requires g.ValidIds() && |spots| == |g.tensors| && t < |spots| && Placed(g, t) && NodesSpotted(g, spots, |g.nodes|)
      requires forall k :: 0 <= k < |g.leafs| && g.Owned(g.leafs[k]) ==> spots[g.leafs[k]].Some?
      ensures spots[t].Some?
    {
      if t in g.leafs {
        var k :| 0 <= k < |g.leafs| && g.leafs[k] == t;
      } else if t in g.nodes {
        var i :| 0 <= i < |g.nodes| && g.nodes[i] == t;
        assert NodeSpotted(g, spots, g.nodes[i]);
      } else {
        var i :| 0 <= i < |g.nodes| && t in g.tensors[g.nodes[i]].src;
        assert NodeSpotted(g, spots, g.nodes[i]);
        var j :| 0 <= j < |g.tensors[g.nodes[i]].src| && g.tensors[g.nodes[i]].src[j] == t;
      }
    }

    /** Every tensor has its address; those of covered tensors are inside the buffers, and apart
        where lives meet. */
    ghost predicate GoodSpots(job: Job, spots: seq<Option<Spot>>)
      reads this, planner
      requires ValidJob(planner.bufs, job)
    {
      && |planner.hash| == |job.g.tensors| && |leafAllocs| == |job.g.leafs|
      && SpotsFrom(job.g, planner.hash, spots) && AllSpotted(job.g, spots)
      && (IdleLeafsFit(job, leafAllocs) ==> SafePlan(job.g, PlanFrom(planner.bufs, job, planner.hash)))
      && (forall t, u :: 0 <= t < |spots| && 0 <= u < |spots| && t != u && Covered(job, leafAllocs, t) && Covered(job, leafAllocs, u) ==>
            SafePair(job.g, PlanFrom(planner.bufs, job, planner.hash), t, u))
      && (forall t :: 0 <= t < |spots| && Covered(job, leafAllocs, t) ==> InsideItsBuffer(job, spots[t].value, t))
    }

    /** Why leafs that no node uses must not grow: whatever graph with such a leaf has been reserved, there
        is one of the same structure that is accepted at the addresses recorded, and its leaf then ends
        behind the end of its buffer. */
    lemma IdleLeafMayOverrun(job: Job, i: nat)
      requires Valid() && Reserved(job) && IdleLeaf(job.g, i)
      requires forall b :: 0 <= b < |planner.bufs.tallocrOf| ==>
                 planner.bufs.Padded(job.size(b, job.g.leafs[i]) + RoomOf(job.g.leafs[i]) + 1, b) <= SIZE_MAX / 2
      ensures exists job' :: ValidJob(planner.bufs, job') && SameStructure(job.g, job'.g) && GraphFits(job', nodeAllocs, leafAllocs)
                && !InsideItsBuffer(job', SpotOf(leafAllocs[i]), job.g.leafs[i])
    {
      var t := job.g.leafs[i];
      assert Placed(job.g, t);
      assert leafAllocs[i] == Record(job, planner.hash, t);
      var room := RoomOf(t);
      IdleLeafMayGrow(planner.bufs, job, planner.hash, nodeAllocs, leafAllocs, i, room + 1);
      var job' := Grown(job, t, room + 1);
      assert !InsideItsBuffer(job', SpotOf(leafAllocs[i]), t);
    }

    /** The size of the chunk tensor t is in. */
    ghost function RoomOf(t: nat): nat
      reads this, planner
    {
      if t < |planner.hash| && planner.hash[t].bufferId < |planner.bufs.tallocrOf|
         && planner.bufs.tallocrOf[planner.hash[t].bufferId] < |buffers|
      then ChunkSize(buffers[planner.bufs.tallocrOf[planner.hash[t].bufferId]], planner.hash[t].chunk)
      else 0
    }

    ghost predicate InsideItsBuffer(job: Job, spot: Spot, t: nat)
      reads this
    {
      && spot.bufferId < |planner.bufs.tallocrOf|
      && planner.bufs.tallocrOf[spot.bufferId] < |buffers|
      && spot.offset + job.size(spot.bufferId, t) <= ChunkSize(buffers[planner.bufs.tallocrOf[spot.bufferId]], spot.chunk)
    }

    lemma SpotsAreGood(job: Job, was: Job, spots: seq<Option<Spot>>)
      requires Valid() && Reserved(was) && ValidJob(planner.bufs, job) && SameStructure(was.g, job.g)
      requires GraphFits(job, nodeAllocs, leafAllocs)
      requires SpotsFrom(job.g, planner.hash, spots) && AllSpotted(job.g, spots)
      ensures GoodSpots(job, spots)
    {
      ReplayIsSafe(planner.bufs, was, job, planner.hash, nodeAllocs, leafAllocs);
      forall t | 0 <= t < |spots| && Covered(job, leafAllocs, t)
        ensures InsideItsBuffer(job, spots[t].value, t)
      {
        SameStructureSameLives(was.g, job.g, t, t);
        var q := PlaceOf(planner.bufs, was, planner.hash[t], t);
        assert InBounds(planner.Now(), q);
        assert planner.tops[q.tallocr][q.region.chunk] <= ChunkSize(buffers[q.tallocr], q.region.chunk);
      }
    }

    /** Places a graph that fits at the addresses remembered, which must be those of a graph of the same
        structure. Any other graph is planned anew if there is a single buffer, and refused otherwise. */
    method AllocGraph(job: Job, ghost was: Job) returns (ok: bool, spots: seq<Option<Spot>>)
      requires Valid() && ValidJob(planner.bufs, job)
      requires GraphFits(job, nodeAllocs, leafAllocs) ==> Reserved(was) && SameStructure(was.g, job.g)
      modifies this, planner.Repr
      ensures Valid()
      ensures ok ==> GoodSpots(job, spots)
      ensures old(GraphFits(job, nodeAllocs, leafAllocs)) ==> ok && planner.hash == old(planner.hash) && buffers == old(buffers)
      ensures !old(GraphFits(job, nodeAllocs, leafAllocs)) ==> if |planner.bufs.tallocrOf| != 1 then !ok else ok || planner.Exhausted()
    {
      var needs := NeedsRealloc(job);
      spots := [];
      if needs {
        if |planner.bufs.tallocrOf| != 1 {
          return false, [];
        }
        ok := ReserveFor(job);
        if ok {
          spots := SpotsForReserved(job);
        }
        return;
      }
      spots := InitAll(job, was);
      SpotsAreGood(job, was, spots);
      ok := true;
    }

    method SpotsForReserved(job: Job) returns (spots: seq<Option<Spot>>)
      requires Valid() && Reserved(job)
      ensures GoodSpots(job, spots)
    {
      spots := InitAll(job, job);
      ReservedGraphFits(job);
      SpotsAreGood(job, job, spots);
    }

    /** A graph fits what was reserved for it. */
    lemma ReservedGraphFits(job: Job)
      requires Reserved(job)
      ensures GraphFits(job, nodeAllocs, leafAllocs) && IdleLeafsFit(job, leafAllocs)
    {
      forall i | 0 <= i < |nodeAllocs| ensures NodeFits(job, job.g.nodes[i], nodeAllocs[i]) {
        assert NodeRecorded(job, planner.hash, nodeAllocs[i], job.g.nodes[i]);
      }
    }
  }
}
