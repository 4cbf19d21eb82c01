/** What the graph planner keeps while it walks over a graph: its reference counts, which
    tensors it has placed, and why no two of them are in each other's way. */
module PlanInvariant {
  import opened Wrappers
  import opened FreeList
  import opened DynTallocr
  import opened TensorGraph
  import opened PlannedMemory

  datatype HashNode = HashNode(nChildren: int, nViews: int, bufferId: nat, chunk: nat, offset: nat, isAllocated: bool)

  /** A graph to be planned: size gives the bytes a tensor takes in a buffer, nodeBuffer and
      leafBuffer the buffer each node and leaf is wanted in. */
  datatype Job = Job(g: Graph, size: (nat, nat) -> nat, nodeBuffer: seq<nat>, leafBuffer: seq<nat>)

  /** The buffers: several of them may share one allocator. */
  datatype Buffers = Buffers(tallocrOf: seq<nat>, alignments: seq<nat>) {
    predicate Valid() {
      && (forall b :: 0 <= b < |tallocrOf| ==> tallocrOf[b] < |alignments|)
      && (forall a :: 0 <= a < |alignments| ==> alignments[a] > 0)
    }

    function Padded(size: nat, b: nat): (r: nat)
      requires Valid() && b < |tallocrOf|
      ensures r >= size
    {
      AlignedSize(size, alignments[tallocrOf[b]])
    }
  }

  ghost predicate ValidJob(bufs: Buffers, job: Job) {
    && bufs.Valid() && job.g.WellFormed()
    && |job.nodeBuffer| == |job.g.nodes| && |job.leafBuffer| == |job.g.leafs|
    && (forall i :: 0 <= i < |job.nodeBuffer| ==> job.nodeBuffer[i] < |bufs.tallocrOf|)
    && (forall i :: 0 <= i < |job.leafBuffer| ==> job.leafBuffer[i] < |bufs.tallocrOf|)
    && (forall b, t :: 0 <= b < |bufs.tallocrOf| && 0 <= t < |job.g.tensors| && job.g.Owned(t) ==>
          job.g.tensors[t].nbytes <= job.size(b, t) && 0 < job.size(b, t) && bufs.Padded(job.size(b, t), b) <= SIZE_MAX / 2)
    // asserted by the planner when it reuses the memory of a source of equal layout
    && (forall b, n, p :: 0 <= b < |bufs.tallocrOf| && n in job.g.nodes && MayReuse(job.g, n, p) ==>
          job.size(b, n) <= job.size(b, p))
  }

  /** n can be computed in place and p is one of its sources, laid out alike. */
  predicate MayReuse(g: Graph, n: nat, p: nat)
    requires g.ValidIds() && n < |g.tensors|
  {
    CanInplace(g.tensors[n].op) && p in g.tensors[n].src && g.tensors[n].layout == g.tensors[p].layout
  }

  // ----- counting uses

  /** The sources of the nodes from k on, with their multiplicity. */
  ghost function Uses(g: Graph, k: nat): multiset<nat>
    requires g.ValidIds() && k <= |g.nodes|
    decreases |g.nodes| - k
  {
    if k == |g.nodes| then multiset{} else multiset(g.tensors[g.nodes[k]].src) + Uses(g, k + 1)
  }

  /** The sources of the nodes before k. */
  ghost function UsesBefore(g: Graph, k: nat): multiset<nat>
    requires g.ValidIds() && k <= |g.nodes|
  {
    if k == 0 then multiset{} else UsesBefore(g, k - 1) + multiset(g.tensors[g.nodes[k - 1]].src)
  }

  lemma {:induction false} UsesSplit(g: Graph, k: nat)
    requires g.ValidIds() && k <= |g.nodes|
    ensures UsesBefore(g, k) + Uses(g, k) == Uses(g, 0)
  {
    if k > 0 {
      UsesSplit(g, k - 1);
    }
  }

  lemma {:induction false} UsedLater(g: Graph, k: nat, i: nat, s: nat)
    requires g.ValidIds() && k <= i < |g.nodes| && s in g.tensors[g.nodes[i]].src
    ensures s in Uses(g, k)
    decreases i - k
  {
    if k < i {
      UsedLater(g, k + 1, i, s);
    }
  }

  lemma {:induction false} UsedSomewhere(g: Graph, k: nat, s: nat) returns (i: nat)
    requires g.ValidIds() && k <= |g.nodes| && s in Uses(g, k)
    ensures k <= i < |g.nodes| && s in g.tensors[g.nodes[i]].src
    decreases |g.nodes| - k
  {
    if s in g.tensors[g.nodes[k]].src {
      i := k;
    } else {
      i := UsedSomewhere(g, k + 1, s);
    }
  }

  predicate CountedView(g: Graph, v: nat, r: nat)
    requires v < |g.tensors|
  {
    g.tensors[v].viewSrc == Some(r) && !g.tensors[v].op.OpNone?
  }

  ghost function CountedViewsBefore(g: Graph, r: nat, k: nat): set<nat>
    requires g.ValidIds() && k <= |g.nodes|
  {
    set v | v in g.nodes[..k] && CountedView(g, v, r)
  }

  /** The views of r that hold on to it: those with uses left, and those never used. */
  ghost function Holding(g: Graph, r: nat, rest: multiset<nat>): set<nat>
    requires g.ValidIds()
  {
    set v | v in g.nodes && CountedView(g, v, r) && (v in rest || v !in Uses(g, 0))
  }

  ghost predicate CountsRight(g: Graph, hash: seq<HashNode>, rest: multiset<nat>)
    requires g.ValidIds() && |hash| == |g.tensors|
  {
    && (forall t :: 0 <= t < |hash| ==> hash[t].nChildren == rest[t])
    && (forall t :: 0 <= t < |hash| && !g.External(t) ==> hash[t].nViews == |Holding(g, t, rest)|)
  }

  /** As long as node i >= k accesses r, the counts say so. */
  lemma AccessIsCounted(g: Graph, k: nat, i: nat, r: nat)
    requires g.WellFormed() && k <= i < |g.nodes| && r < |g.tensors| && g.Owned(r) && g.Accesses(i, r)
    ensures r in Uses(g, k) || Holding(g, r, Uses(g, k)) != {}
  {
    var n := g.nodes[i];
    assert g.NodeReady(i);
    if j :| 0 <= j < |g.tensors[n].src| && g.Root(g.tensors[n].src[j]) == r {
      var s := g.tensors[n].src[j];
      assert g.SourceReady(s, i);
      UsedLater(g, k, i, s);
      if s != r {
        assert s in Holding(g, r, Uses(g, k));
      }
    } else {
      if n in Uses(g, 0) {
        var c := UsedSomewhere(g, 0, n);
        assert g.NodeReady(c);
        assert g.SourceReady(n, c);
        UsedLater(g, k, c, n);
      }
      assert n in Holding(g, r, Uses(g, k));
    }
  }

  /** Counts at zero: nothing from node k on wants r. */
  lemma UncountedIsDone(g: Graph, k: nat, r: nat, rest: multiset<nat>)
    requires g.WellFormed() && k <= |g.nodes| && r < |g.tensors| && g.Owned(r) && !g.tensors[r].isOutput
    requires Uses(g, k) <= rest && r !in rest && Holding(g, r, rest) == {}
    ensures !g.NeededFrom(r, k)
  {
    assert Holding(g, r, Uses(g, k)) <= Holding(g, r, rest);
    forall i | k <= i < |g.nodes| ensures !g.Accesses(i, r) {
      if g.Accesses(i, r) {
        AccessIsCounted(g, k, i, r);
      }
    }
  }

  /** One use of p less: a view loses its hold when that was its last use. */
  lemma HoldingAfterUse(g: Graph, r: nat, rest: multiset<nat>, p: nat)
    requires g.ValidIds() && p in rest && rest <= Uses(g, 0) && p < |g.tensors|
    ensures Holding(g, r, rest - multiset{p}) ==
            Holding(g, r, rest) - (if rest[p] == 1 && p in g.nodes && CountedView(g, p, r) then {p} else {})
    ensures rest[p] == 1 && p in g.nodes && CountedView(g, p, r) ==> p in Holding(g, r, rest)
  {
  }

  // ----- placing tensors

  ghost function PlaceOf(bufs: Buffers, job: Job, h: HashNode, t: nat): Place
    requires bufs.Valid() && h.bufferId < |bufs.tallocrOf|
  {
    Place(bufs.tallocrOf[h.bufferId], Region(h.chunk, h.offset, bufs.Padded(job.size(h.bufferId, t), h.bufferId)))
  }

  /** What the planner has done so far: live are the regions its allocators have handed out,
      tops their max_size per chunk; dead tensors are born ones whose memory was given away. */
  datatype Progress = Progress(
    hash: seq<HashNode>, live: seq<set<Region>>, tops: seq<seq<nat>>, born: set<nat>, dead: set<nat>)

  ghost function At(bufs: Buffers, job: Job, p: Progress, t: nat): Place
    requires bufs.Valid() && t < |p.hash| && p.hash[t].bufferId < |bufs.tallocrOf|
  {
    PlaceOf(bufs, job, p.hash[t], t)
  }

  ghost predicate Shape(bufs: Buffers, job: Job, p: Progress) {
    && |p.hash| == |job.g.tensors| && |p.live| == |bufs.alignments| == |p.tops|
    && p.dead <= p.born
    && (forall t :: t in p.born ==> t < |p.hash| && job.g.Owned(t) && p.hash[t].bufferId < |bufs.tallocrOf|)
    && (forall t :: 0 <= t < |p.hash| ==> (p.hash[t].isAllocated <==> t in p.born && t !in p.dead))
  }

  ghost predicate InBounds(p: Progress, q: Place) {
    q.tallocr < |p.tops| && q.region.chunk < |p.tops[q.tallocr]| && q.region.End() <= p.tops[q.tallocr][q.region.chunk]
  }

  /** Tensors that are alive have regions of their own. */
  ghost predicate AliveApart(bufs: Buffers, job: Job, p: Progress)
    requires bufs.Valid() && Shape(bufs, job, p)
  {
    && (forall t :: t in p.born && t !in p.dead ==>
          At(bufs, job, p, t).region in p.live[At(bufs, job, p, t).tallocr])
    && (forall t, u :: t in p.born && u in p.born && t !in p.dead && u !in p.dead && t != u ==>
          !Clash(At(bufs, job, p, t), At(bufs, job, p, u)))
  }

  /** Tensors whose regions meet have lives that do not. */
  ghost predicate LivesApart(bufs: Buffers, job: Job, p: Progress)
    requires bufs.Valid() && job.g.ValidIds() && Shape(bufs, job, p)
  {
    && (forall t, u :: t in p.born && u in p.born && t != u && Clash(At(bufs, job, p, t), At(bufs, job, p, u)) ==>
          DoneBefore(job.g, t, u) || DoneBefore(job.g, u, t))
    && (forall t :: t in p.born ==> InBounds(p, At(bufs, job, p, t)))
  }

  /** Born tensors are defined before node k, dead ones are not wanted from node k on. */
  ghost predicate History(job: Job, p: Progress, k: nat)
    requires job.g.ValidIds()
  {
    && (forall t :: t in p.born ==> t < |job.g.tensors| && job.g.DefinedBefore(t, k))
    && (forall t :: t in p.dead ==> t < |job.g.tensors| && !job.g.NeededFrom(t, k) && forall j :: 0 <= j < |job.g.nodes| && job.g.nodes[j] == t ==> j < k)
  }

  ghost predicate PlanInv(bufs: Buffers, job: Job, p: Progress, k: nat) {
    && ValidJob(bufs, job) && Shape(bufs, job, p)
    && AliveApart(bufs, job, p) && LivesApart(bufs, job, p) && History(job, p, k)
  }

  lemma HistoryLater(job: Job, p: Progress, k: nat)
    requires job.g.ValidIds() && History(job, p, k)
    ensures History(job, p, k + 1)
  {
  }

  /** p' differs from p only in the entries of the tensors in changed, and in counts. */
  ghost predicate SamePlaces(p: Progress, p': Progress, changed: set<nat>) {
    && |p'.hash| == |p.hash|
    && (forall t :: 0 <= t < |p.hash| && t !in changed ==>
          && p'.hash[t].bufferId == p.hash[t].bufferId
          && p'.hash[t].chunk == p.hash[t].chunk && p'.hash[t].offset == p.hash[t].offset)
  }

  ghost predicate TopsGrow(p: Progress, p': Progress) {
    |p'.tops| == |p.tops| && forall a :: 0 <= a < |p.tops| ==> Grows(p.tops[a], p'.tops[a])
  }

  lemma StillInBounds(p: Progress, p': Progress, q: Place)
    requires InBounds(p, q) && TopsGrow(p, p')
    ensures InBounds(p', q)
  {
    assert Grows(p.tops[q.tallocr], p'.tops[q.tallocr]);
  }

  /** Only the counts changed. */
  lemma CountsDoNotMatter(bufs: Buffers, job: Job, p: Progress, p': Progress, k: nat)
    requires PlanInv(bufs, job, p, k) && SamePlaces(p, p', {})
    requires p' == p.(hash := p'.hash)
    requires forall t :: 0 <= t < |p.hash| ==> p'.hash[t].isAllocated == p.hash[t].isAllocated
    ensures PlanInv(bufs, job, p', k)
  {
    forall t | t in p.born ensures At(bufs, job, p', t) == At(bufs, job, p, t) {
      assert t !in {};
    }
  }

  /** The conditions under which tensor t comes to life: either nothing is dead yet, or t is
      the node the planner has arrived at. */
  ghost predicate MayBeBorn(bufs: Buffers, job: Job, p: Progress, k: nat, t: nat) {
    && PlanInv(bufs, job, p, k) && t < |job.g.tensors| && job.g.Owned(t) && t !in p.born
    && ((p.dead == {} && job.g.Initial(t))
        || (k < |job.g.nodes| && job.g.nodes[k] == t && !job.g.Initial(t)))
  }

  ghost function BirthStage(job: Job, k: nat, t: nat): nat
    requires job.g.ValidIds() && t < |job.g.tensors|
  {
    if job.g.Initial(t) then k else k + 1
  }

  lemma DeadAreDone(bufs: Buffers, job: Job, p: Progress, k: nat, t: nat, u: nat)
    requires MayBeBorn(bufs, job, p, k, t) && u in p.born && u < |job.g.tensors|
    requires !job.g.NeededFrom(u, k + 1) && !job.g.Initial(t)
    ensures DoneBefore(job.g, u, t)
  {
    assert job.g.nodes[k] == t && job.g.DefinedBefore(u, k);
  }

  /** t gets a region nobody alive has. */
  ghost predicate FreshStep(bufs: Buffers, job: Job, p: Progress, p': Progress, k: nat, t: nat) {
    && MayBeBorn(bufs, job, p, k, t)
    && SamePlaces(p, p', {t}) && TopsGrow(p, p')
    && p'.born == p.born + {t} && p'.dead == p.dead
    && (forall u :: 0 <= u < |p.hash| ==> (p'.hash[u].isAllocated <==> p.hash[u].isAllocated || u == t))
    && p'.hash[t].bufferId < |bufs.tallocrOf| && |p'.live| == |p.live|
    && var q := At(bufs, job, p', t);
    && InBounds(p', q)
    && (forall r :: r in p.live[q.tallocr] ==> Apart(q.region, r))
    && p'.live == p.live[q.tallocr := p.live[q.tallocr] + {q.region}]
  }

  lemma FreshAlive(bufs: Buffers, job: Job, p: Progress, p': Progress, k: nat, t: nat)
    requires FreshStep(bufs, job, p, p', k, t)
    ensures Shape(bufs, job, p') && AliveApart(bufs, job, p')
  {
    var q := At(bufs, job, p', t);
    forall u | u in p.born && u !in p.dead
      ensures !Clash(q, At(bufs, job, p', u)) && !Clash(At(bufs, job, p', u), q)
    {
      assert At(bufs, job, p', u) == At(bufs, job, p, u);
      assert At(bufs, job, p, u).region in p.live[At(bufs, job, p, u).tallocr];
    }
  }

  lemma FreshBirth(bufs: Buffers, job: Job, p: Progress, p': Progress, k: nat, t: nat)
    requires FreshStep(bufs, job, p, p', k, t)
    ensures PlanInv(bufs, job, p', BirthStage(job, k, t))
  {
    FreshAlive(bufs, job, p, p', k, t);
    HistoryLater(job, p, k);
    forall u | u in p.dead ensures DoneBefore(job.g, u, t) {
      DeadAreDone(bufs, job, p, k, t, u);
    }
    forall u | u in p.born ensures InBounds(p', At(bufs, job, p', u)) && At(bufs, job, p', u) == At(bufs, job, p, u) {
      StillInBounds(p, p', At(bufs, job, p, u));
    }
  }

  lemma InsideDoesNotClash(p: Place, inner: Place, q: Place)
    requires p.tallocr == inner.tallocr && p.region.chunk == inner.region.chunk
    requires p.region.offset == inner.region.offset && inner.region.size <= p.region.size
    requires !Clash(p, q)
    ensures !Clash(inner, q) && !Clash(q, inner)
  {
  }

  /** t takes over the memory of its source s, and s dies. */
  ghost predicate InplaceStep(bufs: Buffers, job: Job, p: Progress, p': Progress, k: nat, t: nat, s: nat) {
    && MayBeBorn(bufs, job, p, k, t) && !job.g.Initial(t)
    && s in p.born && s !in p.dead
    && !job.g.NeededFrom(s, k + 1) && (forall j :: 0 <= j < |job.g.nodes| && job.g.nodes[j] == s ==> j < k + 1)
    && SamePlaces(p, p', {t}) && p'.tops == p.tops
    && p'.born == p.born + {t} && p'.dead == p.dead + {s}
    && (forall u :: 0 <= u < |p.hash| ==> (p'.hash[u].isAllocated <==> (p.hash[u].isAllocated && u != s) || u == t))
    && p'.hash[t].bufferId == p.hash[s].bufferId && p'.hash[t].chunk == p.hash[s].chunk && p'.hash[t].offset == p.hash[s].offset
    && |p'.live| == |p.live|
    && var q, r := At(bufs, job, p, s), At(bufs, job, p', t);
    && r.region.size <= q.region.size
    && p'.live == p.live[q.tallocr := p.live[q.tallocr] - {q.region} + {r.region}]
  }

  lemma InplaceAlive(bufs: Buffers, job: Job, p: Progress, p': Progress, k: nat, t: nat, s: nat)
    requires InplaceStep(bufs, job, p, p', k, t, s)
    ensures Shape(bufs, job, p') && AliveApart(bufs, job, p')
  {
    var q, r := At(bufs, job, p, s), At(bufs, job, p', t);
    forall u | u in p.born && u !in p.dead && u != s
      ensures !Clash(r, At(bufs, job, p', u)) && !Clash(At(bufs, job, p', u), r)
      ensures At(bufs, job, p', u).region in p'.live[At(bufs, job, p', u).tallocr]
    {
      assert At(bufs, job, p', u) == At(bufs, job, p, u);
      assert job.size(p.hash[s].bufferId, s) > 0;
      InsideDoesNotClash(q, r, At(bufs, job, p, u));
    }
  }

  lemma InplaceLives(bufs: Buffers, job: Job, p: Progress, p': Progress, k: nat, t: nat, s: nat)
    requires InplaceStep(bufs, job, p, p', k, t, s) && Shape(bufs, job, p') && AliveApart(bufs, job, p')
    ensures LivesApart(bufs, job, p')
  {
    HistoryLater(job, p, k);
    forall u | u in p'.dead ensures DoneBefore(job.g, u, t) {
      DeadAreDone(bufs, job, p, k, t, u);
    }
    forall u | u in p.born ensures At(bufs, job, p', u) == At(bufs, job, p, u) {
    }
  }

  lemma InplaceBirth(bufs: Buffers, job: Job, p: Progress, p': Progress, k: nat, t: nat, s: nat)
    requires InplaceStep(bufs, job, p, p', k, t, s)
    ensures PlanInv(bufs, job, p', k + 1)
  {
    InplaceAlive(bufs, job, p, p', k, t, s);
    InplaceLives(bufs, job, p, p', k, t, s);
    HistoryLater(job, p, k);
  }

  /** s gives its memory back. */
  lemma Death(bufs: Buffers, job: Job, p: Progress, p': Progress, k: nat, s: nat)
    requires PlanInv(bufs, job, p, k) && s in p.born && s !in p.dead
    requires !job.g.NeededFrom(s, k) && (forall j :: 0 <= j < |job.g.nodes| && job.g.nodes[j] == s ==> j < k)
    requires SamePlaces(p, p', {}) && p'.tops == p.tops && p'.born == p.born && p'.dead == p.dead + {s}
    requires forall u :: 0 <= u < |p.hash| ==> (p'.hash[u].isAllocated <==> p.hash[u].isAllocated && u != s)
    requires var q := At(bufs, job, p, s); p'.live == p.live[q.tallocr := p.live[q.tallocr] - {q.region}]
    ensures PlanInv(bufs, job, p', k)
  {
    var q := At(bufs, job, p, s);
    assert job.size(p.hash[s].bufferId, s) > 0;
    forall u | u in p.born ensures At(bufs, job, p', u) == At(bufs, job, p, u) {
      assert u !in {};
    }
    forall u | u in p.born && u !in p.dead && u != s
      ensures At(bufs, job, p, u).region in p'.live[At(bufs, job, p, u).tallocr]
    {
      assert !Clash(q, At(bufs, job, p, u));
    }
  }

  // ----- the entries the planner writes

  function TakenOver(hash: seq<HashNode>, t: nat, s: nat): (r: seq<HashNode>)
    requires t < |hash| && s < |hash|
    ensures |r| == |hash|
  {
    var h := hash[t := hash[t].(bufferId := hash[s].bufferId, chunk := hash[s].chunk, offset := hash[s].offset, isAllocated := true)];
    h[s := h[s].(isAllocated := false)]
  }

  function Settled(hash: seq<HashNode>, t: nat, b: nat, chunk: nat, offset: nat): (r: seq<HashNode>)
    requires t < |hash|
    ensures |r| == |hash|
  {
    hash[t := hash[t].(bufferId := b, chunk := chunk, offset := offset, isAllocated := true)]
  }

  function Released(hash: seq<HashNode>, s: nat): (r: seq<HashNode>)
    requires s < |hash|
    ensures |r| == |hash|
  {
    hash[s := hash[s].(isAllocated := false)]
  }

  /** Right after node t has been given the place of s, s still has it too. */
  lemma BeforeTakeOver(bufs: Buffers, job: Job, p: Progress, k: nat, t: nat, s: nat)
    requires MayBeBorn(bufs, job, p, k, t) && s < |p.hash| && p.hash[s].isAllocated
    ensures s != t && job.g.Owned(s) && p.hash[s].bufferId < |bufs.tallocrOf|
    ensures TakenOver(p.hash, t, s)[t].bufferId == p.hash[s].bufferId
    ensures TakenOver(p.hash, t, s)[t].chunk == p.hash[s].chunk && TakenOver(p.hash, t, s)[t].offset == p.hash[s].offset
    ensures PlaceOf(bufs, job, TakenOver(p.hash, t, s)[s], s) == At(bufs, job, p, s)
    ensures var q := At(bufs, job, p, s); q.tallocr < |p.live| && q.region in p.live[q.tallocr]
  {
  }

  lemma TakeOverIsInplaceStep(bufs: Buffers, job: Job, p: Progress, p': Progress, k: nat, t: nat, s: nat)
    requires MayBeBorn(bufs, job, p, k, t) && !job.g.Initial(t)
    requires s < |p.hash| && p.hash[s].isAllocated
    requires !job.g.NeededFrom(s, k + 1) && forall j :: 0 <= j < |job.g.nodes| && job.g.nodes[j] == s ==> j < k
    requires p'.hash == TakenOver(p.hash, t, s) && p'.tops == p.tops && p'.born == p.born + {t} && p'.dead == p.dead + {s}
    requires var q, r := At(bufs, job, p, s), PlaceOf(bufs, job, p'.hash[t], t);
             r.region.size <= q.region.size && p'.live == p.live[q.tallocr := p.live[q.tallocr] - {q.region} + {r.region}]
    ensures InplaceStep(bufs, job, p, p', k, t, s)
  {
  }

  lemma AfterTakeOver(bufs: Buffers, job: Job, p: Progress, p': Progress, k: nat, t: nat, s: nat)
    requires MayBeBorn(bufs, job, p, k, t) && !job.g.Initial(t)
    requires s < |p.hash| && t in job.g.nodes && MayReuse(job.g, t, s) && p.hash[s].isAllocated && !job.g.tensors[s].isOutput
    requires CountsRight(job.g, p.hash, Uses(job.g, k)) && p.hash[s].nChildren == 1 && p.hash[s].nViews == 0
    requires p'.hash == TakenOver(p.hash, t, s) && p'.tops == p.tops && p'.born == p.born + {t} && p'.dead == p.dead + {s}
    requires var q, r := At(bufs, job, p, s), PlaceOf(bufs, job, p'.hash[t], t);
             r.region.size <= q.region.size && p'.live == p.live[q.tallocr := p.live[q.tallocr] - {q.region} + {r.region}]
    ensures PlanInv(bufs, job, p', k + 1) && SameCounts(p.hash, p'.hash)
  {
    LastUse(job.g, p.hash, k, s);
    TakeOverIsInplaceStep(bufs, job, p, p', k, t, s);
    InplaceBirth(bufs, job, p, p', k, t, s);
  }

  lemma AfterSettling(bufs: Buffers, job: Job, p: Progress, p': Progress, k: nat, t: nat, b: nat, chunk: nat, offset: nat)
    requires MayBeBorn(bufs, job, p, k, t) && b < |bufs.tallocrOf|
    requires p'.hash == Settled(p.hash, t, b, chunk, offset) && p'.born == p.born + {t} && p'.dead == p.dead
    requires TopsGrow(p, p')
    requires var q := PlaceOf(bufs, job, p'.hash[t], t);
             && InBounds(p', q)
             && (forall r :: r in p.live[q.tallocr] ==> Apart(q.region, r))
             && p'.live == p.live[q.tallocr := p.live[q.tallocr] + {q.region}]
    ensures PlanInv(bufs, job, p', BirthStage(job, k, t)) && SameCounts(p.hash, p'.hash)
  {
    FreshBirth(bufs, job, p, p', k, t);
  }

  lemma AfterRelease(bufs: Buffers, job: Job, p: Progress, p': Progress, k: nat, s: nat)
    requires PlanInv(bufs, job, p, k) && s < |p.hash| && p.hash[s].isAllocated
    requires !job.g.NeededFrom(s, k) && (forall j :: 0 <= j < |job.g.nodes| && job.g.nodes[j] == s ==> j < k)
    requires p'.hash == Released(p.hash, s) && p'.tops == p.tops && p'.born == p.born && p'.dead == p.dead + {s}
    requires var q := At(bufs, job, p, s);
             p'.live == p.live[q.tallocr := WithoutTail(p.live[q.tallocr], q.region, q.region.offset)]
    ensures PlanInv(bufs, job, p', k) && SameCounts(p.hash, p'.hash)
  {
    var q := At(bufs, job, p, s);
    assert WithoutTail(p.live[q.tallocr], q.region, q.region.offset) == p.live[q.tallocr] - {q.region};
    Death(bufs, job, p, p', k, s);
  }

  lemma OnlyOwned(bufs: Buffers, job: Job, p: Progress, k: nat)
    requires PlanInv(bufs, job, p, k)
    ensures job.g.ValidIds() && |p.hash| == |job.g.tensors|
    ensures forall t :: 0 <= t < |p.hash| && p.hash[t].isAllocated ==> job.g.Owned(t)
  {
  }

  /** The region of a live tensor: what handing it back takes. */
  lemma AliveRegion(bufs: Buffers, job: Job, p: Progress, k: nat, s: nat)
    requires PlanInv(bufs, job, p, k) && s < |p.hash| && p.hash[s].isAllocated
    ensures job.g.Owned(s) && s in p.born && p.hash[s].bufferId < |bufs.tallocrOf| && job.size(p.hash[s].bufferId, s) > 0
    ensures var q := At(bufs, job, p, s); q.tallocr < |p.live| && q.region in p.live[q.tallocr] && q.region.size > 0
  {
  }

  /** The plan read off the hash table. */
  ghost function PlanFrom(bufs: Buffers, job: Job, hash: seq<HashNode>): (r: Plan)
    requires bufs.Valid()
    ensures |r| == |hash|
    ensures forall t :: 0 <= t < |hash| && hash[t].bufferId < |bufs.tallocrOf| ==> r[t] == PlaceOf(bufs, job, hash[t], t)
  {
    seq(|hash|, t requires 0 <= t < |hash| =>
      if hash[t].bufferId < |bufs.tallocrOf| then PlaceOf(bufs, job, hash[t], t) else Place(0, Region(0, 0, 0)))
  }

  lemma InvariantGivesSafePlan(bufs: Buffers, job: Job, p: Progress, k: nat)
    requires PlanInv(bufs, job, p, k)
    requires forall t :: 0 <= t < |job.g.tensors| && Placed(job.g, t) ==> t in p.born
    ensures SafePlan(job.g, PlanFrom(bufs, job, p.hash))
    ensures forall t :: 0 <= t < |job.g.tensors| && Placed(job.g, t) ==>
              p.hash[t].bufferId < |bufs.tallocrOf| && InBounds(p, PlaceOf(bufs, job, p.hash[t], t))
  {
  }

  ghost predicate SameCounts(h: seq<HashNode>, h': seq<HashNode>) {
    |h| == |h'| && forall t :: 0 <= t < |h| ==> h'[t].nChildren == h[t].nChildren && h'[t].nViews == h[t].nViews
  }

  /** The only use left of s is by the node at hand: s is done with after it. */
  lemma LastUse(g: Graph, hash: seq<HashNode>, k: nat, s: nat)
    requires g.WellFormed() && k < |g.nodes| && s < |hash| == |g.tensors| && g.Owned(s) && !g.tensors[s].isOutput
    requires CountsRight(g, hash, Uses(g, k)) && s in g.tensors[g.nodes[k]].src
    requires hash[s].nChildren == 1 && hash[s].nViews == 0
    ensures !g.NeededFrom(s, k + 1)
    ensures forall j :: 0 <= j < |g.nodes| && g.nodes[j] == s ==> j < k
  {
    var src := g.tensors[g.nodes[k]].src;
    assert Uses(g, k) == multiset(src) + Uses(g, k + 1);
    assert s in multiset(src);
    assert Holding(g, s, Uses(g, k)) == {};
    assert Holding(g, s, Uses(g, k + 1)) <= Holding(g, s, Uses(g, k));
    UncountedIsDone(g, k + 1, s, Uses(g, k + 1));
    assert g.NodeReady(k);
    assert g.SourceReady(s, k);
  }

  /** Sources of the node at hand that the planner manages are alive. */
  lemma SourceAlive(bufs: Buffers, job: Job, p: Progress, k: nat, s: nat)
    requires PlanInv(bufs, job, p, k) && k < |job.g.nodes| && s in job.g.tensors[job.g.nodes[k]].src
    requires AllPlaced(job, p.born, k)
    ensures s < |p.hash| && (job.g.Owned(s) ==> p.hash[s].isAllocated)
  {
    var g := job.g;
    var n := g.nodes[k];
    var j :| 0 <= j < |g.tensors[n].src| && g.tensors[n].src[j] == s;
    assert g.NodeReady(k);
    assert g.SourceReady(s, k) && g.RootReady(g.Root(s), k);
    if g.Owned(s) {
      assert g.DefinedBefore(s, k);
      assert g.Accesses(k, s);
    }
  }

  /** A node the planner arrives at is alive already, or is about to be born. */
  lemma NodeMayBeBorn(bufs: Buffers, job: Job, p: Progress, k: nat)
    requires PlanInv(bufs, job, p, k) && k < |job.g.nodes|
    requires AllPlaced(job, p.born, k)
    ensures var n := job.g.nodes[k];
            job.g.Owned(n) && !p.hash[n].isAllocated ==> MayBeBorn(bufs, job, p, k, n)
  {
    var n := job.g.nodes[k];
    assert n in p.dead ==> k < k;
  }

  /** The hash table when one use of s is struck off, and with its last use its hold on what
      it is a view of. */
  function Struck(g: Graph, hash: seq<HashNode>, s: nat): (r: seq<HashNode>)
    requires g.ValidIds() && s < |hash| == |g.tensors|
    ensures |r| == |hash|
  {
    var h := hash[s := hash[s].(nChildren := hash[s].nChildren - 1)];
    var root := g.Root(s);
    if h[s].nChildren == 0 && g.IsView(s) then h[root := h[root].(nViews := h[root].nViews - 1)] else h
  }

  lemma StruckViews(g: Graph, hash: seq<HashNode>, rest: multiset<nat>, s: nat, t: nat)
    requires g.ValidIds() && |hash| == |g.tensors| && CountsRight(g, hash, rest)
    requires s < |hash| && s in rest && rest <= Uses(g, 0) && t < |hash| && !g.External(t)
    requires g.IsView(s) && !g.tensors[g.Root(s)].external ==> s in g.nodes && !g.tensors[s].op.OpNone?
    ensures Struck(g, hash, s)[t].nViews == |Holding(g, t, rest - multiset{s})|
  {
    HoldingCount(g, t, rest, s);
    assert hash[s].nChildren == rest[s] && hash[t].nViews == |Holding(g, t, rest)|;
    assert CountedView(g, s, t) ==> g.IsView(s) && g.Root(s) == t;
  }

  lemma HoldingCount(g: Graph, r: nat, rest: multiset<nat>, p: nat)
    requires g.ValidIds() && p in rest && rest <= Uses(g, 0) && p < |g.tensors|
    ensures |Holding(g, r, rest - multiset{p})| ==
            |Holding(g, r, rest)| - (if rest[p] == 1 && p in g.nodes && CountedView(g, p, r) then 1 else 0)
  {
    HoldingAfterUse(g, r, rest, p);
  }

  lemma StrikeOff(g: Graph, hash: seq<HashNode>, rest: multiset<nat>, s: nat)
    requires g.ValidIds() && |hash| == |g.tensors| && CountsRight(g, hash, rest)
    requires s < |hash| && s in rest && rest <= Uses(g, 0)
    requires g.IsView(s) && !g.tensors[g.Root(s)].external ==> s in g.nodes && !g.tensors[s].op.OpNone?
    ensures CountsRight(g, Struck(g, hash, s), rest - multiset{s})
  {
    var h := Struck(g, hash, s);
    forall t | 0 <= t < |hash| && !g.External(t) ensures h[t].nViews == |Holding(g, t, rest - multiset{s})| {
      StruckViews(g, hash, rest, s, t);
    }
    assert forall t :: 0 <= t < |hash| ==> h[t].nChildren == hash[t].nChildren - (if t == s then 1 else 0);
  }

  lemma NoViewsOfViews(g: Graph, v: nat, rest: multiset<nat>)
    requires g.ValidIds() && v < |g.tensors| && g.IsView(v)
    ensures Holding(g, v, rest) == {}
  {
  }

  // ----- the counting walk

  /** Counts of the nodes before k, and of the first j sources of node k. */
  ghost predicate CountedSoFar(g: Graph, hash: seq<HashNode>, k: nat, j: nat, self: bool)
    requires g.ValidIds() && |hash| == |g.tensors| && k <= |g.nodes|
    requires k < |g.nodes| ==> j <= |g.tensors[g.nodes[k]].src|
  {
    && (forall t :: 0 <= t < |hash| ==>
          hash[t].nChildren == (UsesBefore(g, k) + (if k < |g.nodes| then multiset(g.tensors[g.nodes[k]].src[..j]) else multiset{}))[t])
    && (forall t :: 0 <= t < |hash| ==> hash[t].nViews == |CountedViewsBefore(g, t, if self && k < |g.nodes| then k + 1 else k)|)
  }

  /** The entry of what node n is a view of, with one view more. */
  function ViewCounted(g: Graph, hash: seq<HashNode>, n: nat): (r: seq<HashNode>)
    requires g.ValidIds() && n < |hash| == |g.tensors|
    ensures |r| == |hash|
  {
    var root := g.Root(n);
    if g.IsView(n) && !g.tensors[n].op.OpNone? then hash[root := hash[root].(nViews := hash[root].nViews + 1)] else hash
  }

  lemma OneViewMore(g: Graph, k: nat, t: nat)
    requires g.WellFormed() && k < |g.nodes|
    ensures |CountedViewsBefore(g, t, k + 1)| == |CountedViewsBefore(g, t, k)| + (if CountedView(g, g.nodes[k], t) then 1 else 0)
  {
    var n := g.nodes[k];
    assert n !in g.nodes[..k];
    assert g.nodes[..k + 1] == g.nodes[..k] + [n];
    assert CountedViewsBefore(g, t, k + 1) == CountedViewsBefore(g, t, k) + (if CountedView(g, n, t) then {n} else {});
  }

  lemma CountView(g: Graph, hash: seq<HashNode>, k: nat)
    requires g.WellFormed() && |hash| == |g.tensors| && k < |g.nodes| && CountedSoFar(g, hash, k, 0, false)
    ensures CountedSoFar(g, ViewCounted(g, hash, g.nodes[k]), k, 0, true)
  {
    var n := g.nodes[k];
    var h := ViewCounted(g, hash, n);
    forall t | 0 <= t < |hash| ensures h[t].nViews == |CountedViewsBefore(g, t, k + 1)| {
      OneViewMore(g, k, t);
    }
    assert forall t :: 0 <= t < |hash| ==> h[t].nChildren == hash[t].nChildren;
  }

  lemma CountUse(g: Graph, hash: seq<HashNode>, k: nat, j: nat)
    requires g.ValidIds() && |hash| == |g.tensors| && k < |g.nodes| && j < |g.tensors[g.nodes[k]].src|
    requires CountedSoFar(g, hash, k, j, true)
    ensures var s := g.tensors[g.nodes[k]].src[j];
            CountedSoFar(g, hash[s := hash[s].(nChildren := hash[s].nChildren + 1)], k, j + 1, true)
  {
    var src := g.tensors[g.nodes[k]].src;
    assert src[..j + 1] == src[..j] + [src[j]];
  }

  lemma NodeCounted(g: Graph, hash: seq<HashNode>, k: nat)
    requires g.ValidIds() && |hash| == |g.tensors| && k < |g.nodes|
    requires CountedSoFar(g, hash, k, |g.tensors[g.nodes[k]].src|, true)
    ensures CountedSoFar(g, hash, k + 1, 0, false)
  {
    var src := g.tensors[g.nodes[k]].src;
    assert src[..|src|] == src;
    if k + 1 < |g.nodes| {
      assert g.tensors[g.nodes[k + 1]].src[..0] == [];
    }
  }

  lemma AllCounted(g: Graph, hash: seq<HashNode>)
    requires g.ValidIds() && |hash| == |g.tensors| && CountedSoFar(g, hash, |g.nodes|, 0, false)
    ensures CountsRight(g, hash, Uses(g, 0))
  {
    UsesSplit(g, |g.nodes|);
    assert g.nodes[..|g.nodes|] == g.nodes;
    forall t | 0 <= t < |hash| ensures CountedViewsBefore(g, t, |g.nodes|) == Holding(g, t, Uses(g, 0)) {
    }
  }

  lemma SameCountsSoFar(g: Graph, h: seq<HashNode>, h': seq<HashNode>, k: nat, j: nat, self: bool)
    requires g.ValidIds() && |h| == |g.tensors| && k <= |g.nodes|
    requires k < |g.nodes| ==> j <= |g.tensors[g.nodes[k]].src|
    requires CountedSoFar(g, h, k, j, self) && SameCounts(h, h')
    ensures CountedSoFar(g, h', k, j, self)
  {
  }

  /** The state before the walk: no tensor has memory. */
  lemma NothingPlaced(bufs: Buffers, job: Job, p: Progress)
    requires ValidJob(bufs, job) && |p.hash| == |job.g.tensors| && |p.live| == |bufs.alignments| == |p.tops|
    requires p.born == {} && p.dead == {}
    requires forall t :: 0 <= t < |p.hash| ==> p.hash[t] == HashNode(0, 0, 0, 0, 0, false)
    ensures PlanInv(bufs, job, p, 0)
    ensures CountedSoFar(job.g, p.hash, 0, 0, false)
  {
    if |job.g.nodes| > 0 {
      assert job.g.tensors[job.g.nodes[0]].src[..0] == [];
    }
    assert job.g.nodes[..0] == [];
    forall t | 0 <= t < |p.hash| ensures CountedViewsBefore(job.g, t, 0) == {} {
    }
  }

  /** After the last source of the node at hand there is nothing left of its uses. */
  lemma UsesOfSuffix(g: Graph, k: nat, j: nat)
    requires g.ValidIds() && k < |g.nodes| && j < |g.tensors[g.nodes[k]].src|
    ensures var src := g.tensors[g.nodes[k]].src;
            multiset(src[j..]) == multiset{src[j]} + multiset(src[j + 1..])
  {
    var src := g.tensors[g.nodes[k]].src;
    assert src[j..] == [src[j]] + src[j + 1..];
  }

  lemma {:induction false} UsesAreSome(g: Graph, k: nat)
    requires g.ValidIds() && k <= |g.nodes|
    ensures Uses(g, k) <= Uses(g, 0)
  {
    UsesSplit(g, k);
  }

  lemma SourceFacts(g: Graph, k: nat, s: nat)
    requires g.WellFormed() && k < |g.nodes| && s in g.tensors[g.nodes[k]].src
    ensures s < |g.tensors|
    ensures g.IsView(s) && !g.tensors[g.Root(s)].external ==> s in g.nodes && !g.tensors[s].op.OpNone?
    ensures forall j :: 0 <= j < |g.nodes| && g.nodes[j] == g.Root(s) ==> j < k
  {
    var src := g.tensors[g.nodes[k]].src;
    var j :| 0 <= j < |src| && src[j] == s;
    assert g.NodeReady(k);
    assert g.SourceReady(s, k) && g.RootReady(g.Root(s), k);
  }

  /** Counts of a live tensor at zero: unless it is an output, nobody wants it. */
  lemma DoneWith(bufs: Buffers, job: Job, p: Progress, k: nat, t: nat, rest: multiset<nat>)
    requires PlanInv(bufs, job, p, k) && k <= |job.g.nodes| && t < |p.hash| && p.hash[t].isAllocated
    requires CountsRight(job.g, p.hash, rest) && Uses(job.g, k) <= rest
    requires p.hash[t].nChildren == 0 && p.hash[t].nViews == 0
    ensures !job.g.tensors[t].isOutput ==> !job.g.NeededFrom(t, k)
  {
    if !job.g.tensors[t].isOutput {
      assert Holding(job.g, t, rest) == {};
      UncountedIsDone(job.g, k, t, rest);
    }
  }

  /** Everything the planner manages and that is defined before node k has its place. */
  ghost predicate AllPlaced(job: Job, born: set<nat>, k: nat)
    requires job.g.ValidIds()
  {
    forall t :: 0 <= t < |job.g.tensors| && job.g.Owned(t) && job.g.DefinedBefore(t, k) ==> t in born
  }

  /** Node k has been given its place, or needed none. */
  lemma AfterThisNode(bufs: Buffers, job: Job, p: Progress, p': Progress, k: nat)
    requires PlanInv(bufs, job, p, k) && k < |job.g.nodes| && AllPlaced(job, p.born, k)
    requires p.born <= p'.born && (job.g.Owned(job.g.nodes[k]) ==> job.g.nodes[k] in p'.born)
    requires p' == p || PlanInv(bufs, job, p', BirthStage(job, k, job.g.nodes[k]))
    ensures PlanInv(bufs, job, p', k + 1) && AllPlaced(job, p'.born, k + 1)
  {
    HistoryLater(job, p, k);
    if job.g.Initial(job.g.nodes[k]) && p' != p {
      HistoryLater(job, p', k);
    }
  }

  lemma CountsCarryOver(g: Graph, h: seq<HashNode>, h': seq<HashNode>, rest: multiset<nat>)
    requires g.ValidIds() && |h| == |g.tensors| && CountsRight(g, h, rest) && SameCounts(h, h')
    ensures CountsRight(g, h', rest)
  {
  }

  /** The inputs among the nodes before k and their sources have their places, and so have
      node k and its first j sources where they are inputs. */
  ghost predicate InputsPlaced(g: Graph, born: set<nat>, k: nat, j: nat, self: bool)
    requires g.ValidIds()
  {
    && (forall i :: 0 <= i < |g.nodes| && (i < k || (i == k && self)) && g.tensors[g.nodes[i]].isInput && g.Owned(g.nodes[i]) ==> g.nodes[i] in born)
    && (forall i, m :: 0 <= i < |g.nodes| && 0 <= m < |g.tensors[g.nodes[i]].src| && (i < k || (i == k && m < j)) ==>
          InputPlaced(g, born, g.tensors[g.nodes[i]].src[m]))
  }

  predicate InputPlaced(g: Graph, born: set<nat>, t: nat)
    requires t < |g.tensors|
  {
    g.tensors[t].isInput && g.Owned(t) ==> t in born
  }

  lemma SelfPlaced(g: Graph, born: set<nat>, born': set<nat>, k: nat)
    requires g.ValidIds() && k < |g.nodes| && InputsPlaced(g, born, k, 0, false) && born <= born'
    requires InputPlaced(g, born', g.nodes[k])
    ensures InputsPlaced(g, born', k, 0, true)
  {
    forall i, m | 0 <= i < |g.nodes| && 0 <= m < |g.tensors[g.nodes[i]].src| && i < k
      ensures InputPlaced(g, born', g.tensors[g.nodes[i]].src[m])
    {
      assert InputPlaced(g, born, g.tensors[g.nodes[i]].src[m]);
    }
  }

  lemma SourcePlaced(g: Graph, born: set<nat>, born': set<nat>, k: nat, j: nat)
    requires g.ValidIds() && k < |g.nodes| && j < |g.tensors[g.nodes[k]].src|
    requires InputsPlaced(g, born, k, j, true) && born <= born'
    requires InputPlaced(g, born', g.tensors[g.nodes[k]].src[j])
    ensures InputsPlaced(g, born', k, j + 1, true)
  {
    forall i, m | 0 <= i < |g.nodes| && 0 <= m < |g.tensors[g.nodes[i]].src| && (i < k || (i == k && m < j))
      ensures InputPlaced(g, born', g.tensors[g.nodes[i]].src[m])
    {
      assert InputPlaced(g, born, g.tensors[g.nodes[i]].src[m]);
    }
  }

  lemma InitialPlaced(job: Job, p: Progress)
    requires job.g.ValidIds() && LeafsPlaced(job.g, p.born, |job.g.leafs|)
    requires InputsPlaced(job.g, p.born, |job.g.nodes|, 0, false)
    ensures AllPlaced(job, p.born, 0)
  {
    var g := job.g;
    forall t | 0 <= t < |g.tensors| && g.Owned(t) && g.DefinedBefore(t, 0) ensures t in p.born {
      if t in g.leafs {
        var i :| 0 <= i < |g.leafs| && g.leafs[i] == t;
      } else if t !in g.nodes {
        var k :| 0 <= k < |g.nodes| && t in g.tensors[g.nodes[k]].src;
        var m :| 0 <= m < |g.tensors[g.nodes[k]].src| && g.tensors[g.nodes[k]].src[m] == t;
        assert InputPlaced(g, p.born, g.tensors[g.nodes[k]].src[m]);
      }
    }
  }

  ghost predicate LeafsPlaced(g: Graph, born: set<nat>, k: nat)
    requires g.ValidIds() && k <= |g.leafs|
  {
    forall i :: 0 <= i < k && g.Owned(g.leafs[i]) ==> g.leafs[i] in born
  }

  lemma LeafCanBePlaced(bufs: Buffers, job: Job, p: Progress, i: nat)
    requires PlanInv(bufs, job, p, 0) && i < |job.g.leafs|
    ensures job.g.ValidIds() && |job.leafBuffer| == |job.g.leafs| && job.g.leafs[i] < |p.hash|
    ensures job.g.Initial(job.g.leafs[i]) && job.leafBuffer[i] < |bufs.tallocrOf|
  {
  }

  lemma OneMoreLeaf(g: Graph, born: set<nat>, born': set<nat>, i: nat)
    requires g.ValidIds() && i < |g.leafs| && LeafsPlaced(g, born, i) && born <= born'
    requires g.Owned(g.leafs[i]) ==> g.leafs[i] in born'
    ensures LeafsPlaced(g, born', i + 1)
  {
  }

  lemma EveryPlacedTensorBorn(job: Job, p: Progress)
    requires job.g.ValidIds() && AllPlaced(job, p.born, |job.g.nodes|)
    ensures forall t :: 0 <= t < |job.g.tensors| && Placed(job.g, t) ==> t in p.born
  {
    forall t | 0 <= t < |job.g.tensors| && Placed(job.g, t) ensures job.g.DefinedBefore(t, |job.g.nodes|) {
    }
  }

  /** Striking off a use of source s of node k: the counts are right again, nothing else changed. */
  lemma AfterStrikeOff(bufs: Buffers, job: Job, p: Progress, k: nat, s: nat, rest: multiset<nat>)
    requires PlanInv(bufs, job, p, k + 1) && CountsRight(job.g, p.hash, rest)
    requires k < |job.g.nodes| && s in job.g.tensors[job.g.nodes[k]].src
    requires s in rest && rest <= Uses(job.g, 0)
    ensures s < |p.hash| && (job.g.IsView(s) ==> p.hash[s].nViews == 0 && job.g.Root(s) != s)
    ensures var h := Struck(job.g, p.hash, s);
            PlanInv(bufs, job, p.(hash := h), k + 1) && CountsRight(job.g, h, rest - multiset{s})
    ensures forall j :: 0 <= j < |job.g.nodes| && job.g.nodes[j] == job.g.Root(s) ==> j < k + 1
  {
    SourceFacts(job.g, k, s);
    StrikeOff(job.g, p.hash, rest, s);
    if job.g.IsView(s) {
      NoViewsOfViews(job.g, s, rest);
    }
    CountsDoNotMatter(bufs, job, p, p.(hash := Struck(job.g, p.hash, s)), k + 1);
  }

  // ----- what the planner picks, and what it lets go

  /** Node n may take over the memory of its source s. */
  predicate Reusable(g: Graph, hash: seq<HashNode>, n: nat, s: nat)
    requires g.ValidIds() && n < |g.tensors| == |hash| && s < |hash|
  {
    && hash[s].isAllocated && !g.tensors[s].isOutput && !g.tensors[g.Root(s)].isOutput
    && g.tensors[n].layout == g.tensors[s].layout
    && hash[s].nChildren == 1 && hash[s].nViews == 0
  }

  /** None of the first j sources of n can be taken over. */
  predicate NoneReusable(g: Graph, hash: seq<HashNode>, n: nat, j: nat)
    requires g.ValidIds() && n < |g.tensors| == |hash| && j <= |g.tensors[n].src|
  {
    forall i :: 0 <= i < j ==> !Reusable(g, hash, n, g.tensors[n].src[i])
  }

  /** n was given the memory of its source j, the first that can be taken over. */
  predicate GivenSource(g: Graph, was: seq<HashNode>, now: seq<HashNode>, n: nat, j: nat)
    requires g.ValidIds() && n < |g.tensors| == |was|
  {
    && CanInplace(g.tensors[n].op) && j < |g.tensors[n].src|
    && NoneReusable(g, was, n, j) && Reusable(g, was, n, g.tensors[n].src[j])
    && now == TakenOver(was, n, g.tensors[n].src[j])
  }

  /** n was given memory of its own, there being nothing to take over. */
  ghost predicate GivenFresh(g: Graph, was: seq<HashNode>, now: seq<HashNode>, n: nat, b: nat)
    requires g.ValidIds() && n < |g.tensors| == |was|
  {
    && (CanInplace(g.tensors[n].op) ==> NoneReusable(g, was, n, |g.tensors[n].src|))
    && exists chunk, offset :: now == Settled(was, n, b, chunk, offset)
  }

  ghost predicate Given(g: Graph, was: seq<HashNode>, now: seq<HashNode>, n: nat, b: nat)
    requires g.ValidIds() && n < |g.tensors| == |was|
  {
    GivenFresh(g, was, now, n, b) || exists j :: GivenSource(g, was, now, n, j)
  }

  // ----- where a node goes, told by the graph alone

  /** Node k is the last to read s, reads it once, and is laid out alike; s has its own memory, is no
      output, and no view of it is going to be read. */
  ghost predicate DiesAt(g: Graph, k: nat, s: nat)
    requires g.ValidIds() && k < |g.nodes| && s < |g.tensors|
  {
    && g.Owned(s) && !g.tensors[s].isOutput && g.tensors[s].layout == g.tensors[g.nodes[k]].layout
    && Uses(g, k)[s] == 1
    && forall v :: v in g.nodes && g.tensors[v].viewSrc == Some(s) && !g.tensors[v].op.OpNone? ==>
         v in Uses(g, 0) && v !in Uses(g, k)
  }

  /** Source j is the first source of node k that dies there. */
  ghost predicate FirstDying(g: Graph, k: nat, j: nat)
    requires g.ValidIds() && k < |g.nodes|
  {
    var src := g.tensors[g.nodes[k]].src;
    j < |src| && DiesAt(g, k, src[j]) && forall i :: 0 <= i < j ==> !DiesAt(g, k, src[i])
  }

  predicate SameSpot(h: HashNode, h': HashNode) {
    h.bufferId == h'.bufferId && h.chunk == h'.chunk && h.offset == h'.offset
  }

  /** t has a region in this buffer that meets no region handed out before. */
  ghost predicate ApartFromAll(bufs: Buffers, job: Job, p: Progress, now: seq<HashNode>, t: nat, b: nat)
    requires bufs.Valid() && t < |now|
  {
    && now[t].bufferId == b < |bufs.tallocrOf| && bufs.tallocrOf[b] < |p.live|
    && forall r :: r in p.live[bufs.tallocrOf[b]] ==> Apart(PlaceOf(bufs, job, now[t], t).region, r)
  }

  /** Node k, where it is given memory: one that may overwrite a source is where the first source that
      dies there is; any other one has a region of its own in the buffer it is wanted in. */
  ghost predicate NodePlaced(bufs: Buffers, job: Job, p: Progress, now: seq<HashNode>, k: nat)
    requires bufs.Valid() && job.g.ValidIds() && k < |job.g.nodes| == |job.nodeBuffer| && |now| == |p.hash| == |job.g.tensors|
  {
    var n := job.g.nodes[k];
    job.g.Owned(n) && !job.g.Initial(n) ==>
      && (forall j: nat :: CanInplace(job.g.tensors[n].op) && FirstDying(job.g, k, j) ==> SameSpot(now[n], p.hash[job.g.tensors[n].src[j]]))
      && ((forall j: nat :: !(CanInplace(job.g.tensors[n].op) && FirstDying(job.g, k, j))) ==>
            ApartFromAll(bufs, job, p, now, n, job.nodeBuffer[k]))
  }

  /** Every tensor but t is where it was. */
  predicate SpotsKept(h: seq<HashNode>, h': seq<HashNode>, t: nat) {
    |h| == |h'| && forall u :: 0 <= u < |h| && u != t ==> SameSpot(h'[u], h[u])
  }

  lemma SpotsStillKept(h: seq<HashNode>, h': seq<HashNode>, h'': seq<HashNode>, t: nat)
    requires SpotsKept(h, h', t) && SpotsKept(h', h'', |h|)
    ensures SpotsKept(h, h'', t)
    ensures t < |h| ==> SameSpot(h''[t], h'[t])
  {
    forall u | 0 <= u < |h| && u != t ensures SameSpot(h''[u], h[u]) {
      assert SameSpot(h'[u], h[u]) && SameSpot(h''[u], h'[u]);
    }
  }

  lemma AfterUseKeepsSpots(g: Graph, h: seq<HashNode>, s: nat)
    requires g.ValidIds() && s < |h| == |g.tensors|
    ensures SpotsKept(h, AfterUse(g, h, s), |h|)
  {
  }

  lemma GivenKeepsSpots(g: Graph, was: seq<HashNode>, now: seq<HashNode>, n: nat, b: nat)
    requires g.ValidIds() && n < |g.tensors| == |was| && Given(g, was, now, n, b)
    ensures SpotsKept(was, now, n)
  {
  }

  /** The tensor that is placed at node k, if there is one. */
  ghost function PlacedAt(g: Graph, k: nat): nat
    requires g.ValidIds() && k < |g.nodes|
  {
    var n := g.nodes[k];
    if g.Owned(n) && !g.Initial(n) then n else |g.tensors|
  }

  lemma PlacedStays(bufs: Buffers, job: Job, p: Progress, h: seq<HashNode>, h': seq<HashNode>, k: nat)
    requires bufs.Valid() && job.g.ValidIds() && k < |job.g.nodes| == |job.nodeBuffer| && |h| == |p.hash| == |job.g.tensors|
    requires NodePlaced(bufs, job, p, h, k) && SpotsKept(h, h', |h|)
    ensures NodePlaced(bufs, job, p, h', k)
  {
    var n := job.g.nodes[k];
    assert SameSpot(h'[n], h[n]);
  }

  /** Node i, if it may overwrite a source, is where the first source is that dies there. */
  ghost predicate TookOver(g: Graph, hash: seq<HashNode>, i: nat)
    requires g.ValidIds() && i < |g.nodes| && |hash| == |g.tensors|
  {
    var n := g.nodes[i];
    g.Owned(n) && !g.Initial(n) && CanInplace(g.tensors[n].op) ==>
      forall j: nat :: FirstDying(g, i, j) ==> SameSpot(hash[n], hash[g.tensors[n].src[j]])
  }

  ghost predicate AllTookOver(g: Graph, hash: seq<HashNode>, k: nat)
    requires g.ValidIds() && k <= |g.nodes| && |hash| == |g.tensors|
  {
    forall i :: 0 <= i < k ==> TookOver(g, hash, i)
  }

  lemma StillTookOver(g: Graph, h: seq<HashNode>, h': seq<HashNode>, k: nat, i: nat)
    requires g.WellFormed() && i < k < |g.nodes| && |h| == |g.tensors| && TookOver(g, h, i) && SpotsKept(h, h', PlacedAt(g, k))
    ensures TookOver(g, h', i)
  {
    var n := g.nodes[i];
    assert g.nodes[k] != n;
    forall j: nat | FirstDying(g, i, j) ensures g.tensors[n].src[j] != PlacedAt(g, k) {
      assert g.NodeReady(i);
      assert g.SourceReady(g.tensors[n].src[j], i);
    }
  }

  lemma OneMoreTookOver(bufs: Buffers, job: Job, p: Progress, now: seq<HashNode>, k: nat)
    requires bufs.Valid() && job.g.WellFormed() && k < |job.g.nodes| == |job.nodeBuffer| && |now| == |p.hash| == |job.g.tensors|
    requires AllTookOver(job.g, p.hash, k) && NodePlaced(bufs, job, p, now, k) && SpotsKept(p.hash, now, PlacedAt(job.g, k))
    ensures AllTookOver(job.g, now, k + 1)
  {
    forall i | 0 <= i < k ensures TookOver(job.g, now, i) {
      StillTookOver(job.g, p.hash, now, k, i);
    }
    var n := job.g.nodes[k];
    forall j: nat | FirstDying(job.g, k, j) ensures job.g.tensors[n].src[j] != PlacedAt(job.g, k) {
      assert job.g.NodeReady(k);
      assert job.g.SourceReady(job.g.tensors[n].src[j], k);
    }
  }

  lemma NodeIsNew(bufs: Buffers, job: Job, p: Progress, k: nat)
    requires PlanInv(bufs, job, p, k) && k < |job.g.nodes|
    ensures job.g.Owned(job.g.nodes[k]) && !job.g.Initial(job.g.nodes[k]) ==> !p.hash[job.g.nodes[k]].isAllocated
  {
    var n := job.g.nodes[k];
    if n in p.born {
      assert job.g.DefinedBefore(n, k);
    }
  }

  lemma NoHolding(g: Graph, s: nat, k: nat)
    requires g.ValidIds() && k <= |g.nodes| && s < |g.tensors|
    ensures |Holding(g, s, Uses(g, k))| == 0 <==>
              forall v :: v in g.nodes && g.tensors[v].viewSrc == Some(s) && !g.tensors[v].op.OpNone? ==> v in Uses(g, 0) && v !in Uses(g, k)
  {
    var holding := Holding(g, s, Uses(g, k));
    if |holding| == 0 {
      assert holding == {};
      forall v | v in g.nodes && g.tensors[v].viewSrc == Some(s) && !g.tensors[v].op.OpNone?
        ensures v in Uses(g, 0) && v !in Uses(g, k)
      {
        assert v !in holding;
      }
    } else {
      var v :| v in holding;
    }
  }

  /** What the planner reads off its counts is that a source dies at the node. */
  lemma ReusableIsDying(bufs: Buffers, job: Job, p: Progress, k: nat, s: nat)
    requires PlanInv(bufs, job, p, k) && k < |job.g.nodes| && s in job.g.tensors[job.g.nodes[k]].src
    requires AllPlaced(job, p.born, k) && CountsRight(job.g, p.hash, Uses(job.g, k))
    ensures s < |p.hash| && (Reusable(job.g, p.hash, job.g.nodes[k], s) <==> DiesAt(job.g, k, s))
  {
    SourceAlive(bufs, job, p, k, s);
    NoHolding(job.g, s, k);
  }

  /** How a node was given memory decides where it is. */
  lemma GivenIsPlaced(bufs: Buffers, job: Job, p: Progress, now: seq<HashNode>, k: nat)
    requires PlanInv(bufs, job, p, k) && k < |job.g.nodes| && |now| == |p.hash|
    requires AllPlaced(job, p.born, k) && CountsRight(job.g, p.hash, Uses(job.g, k))
    requires Given(job.g, p.hash, now, job.g.nodes[k], job.nodeBuffer[k])
    requires (exists j :: GivenSource(job.g, p.hash, now, job.g.nodes[k], j)) || ApartFromAll(bufs, job, p, now, job.g.nodes[k], job.nodeBuffer[k])
    ensures NodePlaced(bufs, job, p, now, k)
  {
    forall i | 0 <= i < |job.g.tensors[job.g.nodes[k]].src| ensures SameVerdict(job.g, p.hash, k, i) {
      ReusableIsDying(bufs, job, p, k, job.g.tensors[job.g.nodes[k]].src[i]);
    }
    VerdictPlaces(bufs, job, p, now, k);
  }

  ghost predicate SameVerdict(g: Graph, hash: seq<HashNode>, k: nat, i: nat)
    requires g.ValidIds() && k < |g.nodes| && |hash| == |g.tensors| && i < |g.tensors[g.nodes[k]].src|
  {
    var s := g.tensors[g.nodes[k]].src[i];
    Reusable(g, hash, g.nodes[k], s) <==> DiesAt(g, k, s)
  }

  lemma VerdictPlaces(bufs: Buffers, job: Job, p: Progress, now: seq<HashNode>, k: nat)
    requires bufs.Valid() && job.g.ValidIds() && k < |job.g.nodes| == |job.nodeBuffer| && |now| == |p.hash| == |job.g.tensors|
    requires forall i :: 0 <= i < |job.g.tensors[job.g.nodes[k]].src| ==> SameVerdict(job.g, p.hash, k, i)
    requires Given(job.g, p.hash, now, job.g.nodes[k], job.nodeBuffer[k])
    requires (exists j :: GivenSource(job.g, p.hash, now, job.g.nodes[k], j)) || ApartFromAll(bufs, job, p, now, job.g.nodes[k], job.nodeBuffer[k])
    ensures NodePlaced(bufs, job, p, now, k)
  {
    var n := job.g.nodes[k];
    if j: nat :| GivenSource(job.g, p.hash, now, n, j) {
      SourceGiven(job.g, p.hash, now, k, j);
    } else {
      NothingDies(job.g, p.hash, k);
    }
  }

  lemma SourceGiven(g: Graph, was: seq<HashNode>, now: seq<HashNode>, k: nat, j: nat)
    requires g.ValidIds() && k < |g.nodes| && |was| == |g.tensors| && GivenSource(g, was, now, g.nodes[k], j)
    requires forall i :: 0 <= i < |g.tensors[g.nodes[k]].src| ==> SameVerdict(g, was, k, i)
    ensures FirstDying(g, k, j) && forall i: nat :: FirstDying(g, k, i) ==> i == j
    ensures SameSpot(now[g.nodes[k]], was[g.tensors[g.nodes[k]].src[j]])
  {
    assert SameVerdict(g, was, k, j);
    forall i | 0 <= i < j ensures !DiesAt(g, k, g.tensors[g.nodes[k]].src[i]) {
      assert SameVerdict(g, was, k, i);
    }
  }

  lemma NothingDies(g: Graph, was: seq<HashNode>, k: nat)
    requires g.ValidIds() && k < |g.nodes| && |was| == |g.tensors|
    requires forall i :: 0 <= i < |g.tensors[g.nodes[k]].src| ==> SameVerdict(g, was, k, i)
    ensures NoneReusable(g, was, g.nodes[k], |g.tensors[g.nodes[k]].src|) ==> forall j: nat :: !FirstDying(g, k, j)
  {
    forall i | 0 <= i < |g.tensors[g.nodes[k]].src|
      ensures DiesAt(g, k, g.tensors[g.nodes[k]].src[i]) ==> Reusable(g, was, g.nodes[k], g.tensors[g.nodes[k]].src[i])
    {
      assert SameVerdict(g, was, k, i);
    }
  }

  /** t goes unless it is an output, or something is still going to look at it. */
  function FreedIfDone(g: Graph, hash: seq<HashNode>, t: nat): (r: seq<HashNode>)
    requires t < |hash| == |g.tensors|
    ensures |r| == |hash|
  {
    if hash[t].nViews == 0 && hash[t].nChildren == 0 && hash[t].isAllocated && !g.tensors[t].isOutput then Released(hash, t) else hash
  }

  /** The hash table once a use of source s is over. */
  function AfterUse(g: Graph, hash: seq<HashNode>, s: nat): (r: seq<HashNode>)
    requires g.ValidIds() && s < |hash| == |g.tensors|
    ensures |r| == |hash|
  {
    var h := Struck(g, hash, s);
    if h[s].nChildren == 0 && h[s].nViews == 0 then FreedIfDone(g, h, g.Root(s)) else h
  }

  /** Nothing reads t, and nothing is a view of it. */
  ghost predicate Unused(g: Graph, t: nat)
    requires g.ValidIds()
  {
    t !in Uses(g, 0) && Holding(g, t, Uses(g, 0)) == {}
  }

  /** No tensor keeps memory for nothing: it is an output, has uses or views left, or never had any. */
  ghost predicate NoLeak(g: Graph, hash: seq<HashNode>)
    requires g.ValidIds()
  {
    && |hash| == |g.tensors|
    && forall t :: 0 <= t < |hash| && hash[t].isAllocated ==> Kept(g, hash, t)
  }

  ghost predicate Kept(g: Graph, hash: seq<HashNode>, t: nat)
    requires g.ValidIds() && t < |hash| == |g.tensors|
  {
    g.tensors[t].isOutput || hash[t].nChildren > 0 || hash[t].nViews > 0 || Unused(g, t)
  }

  lemma NoLeakAtStart(bufs: Buffers, job: Job, p: Progress)
    requires PlanInv(bufs, job, p, 0) && CountsRight(job.g, p.hash, Uses(job.g, 0))
    ensures NoLeak(job.g, p.hash)
  {
    forall t | 0 <= t < |p.hash| && p.hash[t].isAllocated ensures Kept(job.g, p.hash, t) {
      assert job.g.Owned(t);
    }
  }

  /** A use less: what was held by that use alone goes. */
  lemma NoLeakAfterUse(g: Graph, hash: seq<HashNode>, rest: multiset<nat>, s: nat)
    requires g.ValidIds() && |hash| == |g.tensors| && NoLeak(g, hash)
    requires s < |hash| && CountsRight(g, Struck(g, hash, s), rest)
    requires forall t :: 0 <= t < |hash| && hash[t].isAllocated ==> g.Owned(t)
    ensures NoLeak(g, AfterUse(g, hash, s))
  {
    var h, now := Struck(g, hash, s), AfterUse(g, hash, s);
    if g.IsView(s) {
      NoViewsOfViews(g, s, rest);
    }
    forall t | 0 <= t < |now| && now[t].isAllocated ensures Kept(g, now, t) {
      assert hash[t].isAllocated && Kept(g, hash, t);
      assert h[t].nViews >= 0 && h[t].nChildren >= 0;
    }
  }

  /** A view of node k comes after it, and what reads the view comes after that. */
  lemma StillHolding(g: Graph, k: nat, v: nat)
    requires g.WellFormed() && k < |g.nodes| && v in g.nodes && CountedView(g, v, g.nodes[k])
    ensures v in Uses(g, k) || v !in Uses(g, 0)
  {
    if v in Uses(g, 0) {
      var m := UsedSomewhere(g, 0, v);
      SourceFacts(g, m, v);
      UsedLater(g, k, m, v);
    }
  }

  /** A tensor that is read or looked into at all still is when it is born. */
  lemma BornWithUses(g: Graph, hash: seq<HashNode>, k: nat)
    requires g.WellFormed() && |hash| == |g.tensors| && k < |g.nodes| && CountsRight(g, hash, Uses(g, k))
    requires g.Owned(g.nodes[k])
    ensures Kept(g, hash, g.nodes[k])
  {
    var t := g.nodes[k];
    if t in Uses(g, 0) {
      var i := UsedSomewhere(g, 0, t);
      SourceFacts(g, i, t);
      UsedLater(g, k, i, t);
    } else if Holding(g, t, Uses(g, 0)) != {} {
      var v :| v in Holding(g, t, Uses(g, 0));
      StillHolding(g, k, v);
      assert v in Holding(g, t, Uses(g, k));
    }
  }

  lemma NoLeakAfterBirth(g: Graph, was: seq<HashNode>, now: seq<HashNode>, k: nat, b: nat)
    requires g.WellFormed() && |was| == |now| == |g.tensors| && k < |g.nodes| && CountsRight(g, was, Uses(g, k))
    requires g.Owned(g.nodes[k]) && NoLeak(g, was) && Given(g, was, now, g.nodes[k], b) && SameCounts(was, now)
    ensures NoLeak(g, now)
  {
    BornWithUses(g, was, k);
    forall t | 0 <= t < |now| && now[t].isAllocated ensures Kept(g, now, t) {
      assert t != g.nodes[k] ==> was[t].isAllocated;
      assert Kept(g, was, t);
    }
  }

  /** At the end memory is held for outputs, for what nothing reads, and for the roots of views
      that nothing reads. */
  ghost predicate OnlyWanted(g: Graph, hash: seq<HashNode>)
    requires g.ValidIds()
  {
    && |hash| == |g.tensors|
    && forall t :: 0 <= t < |hash| && hash[t].isAllocated ==>
      g.tensors[t].isOutput || Unused(g, t) || exists v :: IdleView(g, v, t)
  }

  ghost predicate IdleView(g: Graph, v: nat, t: nat)
    requires g.ValidIds()
  {
    v in g.nodes && CountedView(g, v, t) && v !in Uses(g, 0)
  }

  lemma NoLeakAtEnd(bufs: Buffers, job: Job, p: Progress)
    requires PlanInv(bufs, job, p, |job.g.nodes|) && NoLeak(job.g, p.hash)
    requires CountsRight(job.g, p.hash, Uses(job.g, |job.g.nodes|))
    ensures OnlyWanted(job.g, p.hash)
  {
    var g := job.g;
    forall t | 0 <= t < |p.hash| && p.hash[t].isAllocated
      ensures g.tensors[t].isOutput || Unused(g, t) || exists v :: IdleView(g, v, t)
    {
      assert Kept(g, p.hash, t) && g.Owned(t);
      if p.hash[t].nViews > 0 {
        assert Holding(g, t, multiset{}) != {};
        var v :| v in Holding(g, t, multiset{});
        assert IdleView(g, v, t);
      }
    }
  }
}
