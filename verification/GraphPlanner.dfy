/** The graph allocator: walks over a graph once, giving each tensor memory just before it is
    first written and taking it back after its last use. */
module GraphPlanner {
  import opened Wrappers
  import opened FreeList
  import opened DynTallocr
  import opened TensorGraph
  import opened PlannedMemory
  import opened PlanInvariant

  class Gallocr {
    const bufs: Buffers
    const tallocrs: seq<DynTallocr>
    var hash: seq<HashNode>
    ghost var live: seq<set<Region>>
    ghost var tops: seq<seq<nat>>
    ghost var born: set<nat>
    ghost var dead: set<nat>

    ghost var Repr: set<object>

    constructor (bufs: Buffers, tallocrs: seq<DynTallocr>)
      requires bufs.Valid() && |bufs.alignments| == |tallocrs|
      requires forall i :: 0 <= i < |tallocrs| ==> tallocrs[i].Valid() && tallocrs[i].alignment == bufs.alignments[i] && tallocrs[i].live == {}
      requires forall i, j :: 0 <= i < |tallocrs| && 0 <= j < |tallocrs| && i != j ==> tallocrs[i].Repr !! tallocrs[j].Repr
      ensures Valid() && this.bufs == bufs && this.tallocrs == tallocrs
      ensures forall a :: 0 <= a < |live| ==> live[a] == {}
    {
      this.bufs, this.tallocrs := bufs, tallocrs;
      hash, born, dead := [], {}, {};
      live := seq(|tallocrs|, _ => {});
      tops := seq(|tallocrs|, i requires 0 <= i < |tallocrs| reads tallocrs => MaxSizes(tallocrs[i].states));
      ghost var theirs: set<object> := set i, o | 0 <= i < |tallocrs| && o in tallocrs[i].Repr :: o;
      assert forall i :: 0 <= i < |tallocrs| ==> tallocrs[i] in tallocrs[i].Repr;
      assert forall i, o :: 0 <= i < |tallocrs| && o in tallocrs[i].Repr ==> o in theirs;
      Repr := {this} + theirs;
    }

    ghost predicate Valid()
      reads this, Repr
      ensures Valid() ==> this in Repr
    {
      && this in Repr
      && bufs.Valid() && |bufs.alignments| == |tallocrs| == |live| == |tops|
      && (forall i :: 0 <= i < |tallocrs| ==> tallocrs[i] in Repr && tallocrs[i].Repr <= Repr && this !in tallocrs[i].Repr)
      && (forall i :: 0 <= i < |tallocrs| ==> tallocrs[i].Valid() && tallocrs[i].alignment == bufs.alignments[i])
      && (forall i, j :: 0 <= i < |tallocrs| && 0 <= j < |tallocrs| && i != j ==> tallocrs[i].Repr !! tallocrs[j].Repr)
      && (forall i :: 0 <= i < |tallocrs| ==> live[i] == tallocrs[i].live && tops[i] == MaxSizes(tallocrs[i].states))
    }

    ghost function Now(): Progress
      reads this
    {
      Progress(hash, live, tops, born, dead)
    }

    /** Some allocator has opened all the chunks it may, or has no room to note another free block:
        the only reasons to give up. */
    ghost predicate Exhausted()
      reads this, tallocrs
    {
      exists a :: 0 <= a < |tallocrs| && OutOfRoom(tallocrs[a].states)
    }

    /** What allocator a did, it did within its own memory. */
    twostate lemma OthersUntouched(a: nat)
      requires old(Valid()) && a < |tallocrs|
      requires forall o: object :: old(allocated(o)) && o !in old(tallocrs[a].Repr) && o != this ==> unchanged(o)
      requires fresh(tallocrs[a].Repr - old(tallocrs[a].Repr))
      ensures this !in tallocrs[a].Repr
      ensures forall i :: 0 <= i < |tallocrs| && i != a ==>
                tallocrs[i].Repr !! tallocrs[a].Repr && tallocrs[i].Valid() && tallocrs[i].Repr == old(tallocrs[i].Repr)
                && tallocrs[i].live == old(tallocrs[i].live) && tallocrs[i].states == old(tallocrs[i].states)
    {
      forall i | 0 <= i < |tallocrs| && i != a
        ensures tallocrs[i].Repr !! tallocrs[a].Repr && tallocrs[i].Valid() && tallocrs[i].Repr == old(tallocrs[i].Repr)
                && tallocrs[i].live == old(tallocrs[i].live) && tallocrs[i].states == old(tallocrs[i].states)
      {
        assert old(tallocrs[i].Repr !! tallocrs[a].Repr);
        assert unchanged(old(tallocrs[i].Repr));
      }
    }

    /** Takes memory from allocator a; the other allocators are not touched. */
    method Take(a: nat, size: nat) returns (ok: bool, chunk: nat, offset: nat)
      requires Valid() && a < |tallocrs| && 0 < size && AlignedSize(size, bufs.alignments[a]) <= SIZE_MAX / 2
      modifies Repr
      ensures ok || OutOfRoom(tallocrs[a].states)
      ensures Valid() && fresh(Repr - old(Repr)) && hash == old(hash) && born == old(born) && dead == old(dead)
      ensures TopsGrow(old(Now()), Now())
      ensures ok ==> var r := Region(chunk, offset, AlignedSize(size, bufs.alignments[a]));
                && live == old(live)[a := old(live)[a] + {r}]
                && (forall q :: q in old(live)[a] ==> Apart(r, q))
                && InBounds(Now(), Place(a, r))
    {
      ok, chunk, offset := tallocrs[a].Alloc(size);
      OthersUntouched(a);
      Follow(a);
    }

    /** Brings the records up to date with allocator a. */
    ghost method Follow(a: nat)
      requires this in Repr && bufs.Valid() && |bufs.alignments| == |tallocrs| == |live| == |tops| && a < |tallocrs|
      requires forall i :: 0 <= i < |tallocrs| ==> tallocrs[i] in Repr && this !in tallocrs[i].Repr
      requires forall i :: 0 <= i < |tallocrs| ==> tallocrs[i].Valid() && tallocrs[i].alignment == bufs.alignments[i]
      requires forall i, j :: 0 <= i < |tallocrs| && 0 <= j < |tallocrs| && i != j ==> tallocrs[i].Repr !! tallocrs[j].Repr
      requires forall i :: 0 <= i < |tallocrs| && i != a ==>
                 tallocrs[i].Repr <= Repr && live[i] == tallocrs[i].live && tops[i] == MaxSizes(tallocrs[i].states)
      modifies this`Repr, this`live, this`tops
      ensures Valid() && Repr == old(Repr) + tallocrs[a].Repr
      ensures live == old(live)[a := tallocrs[a].live] && tops == old(tops)[a := MaxSizes(tallocrs[a].states)]
    {
      Repr := Repr + tallocrs[a].Repr;
      live := live[a := tallocrs[a].live];
      tops := tops[a := MaxSizes(tallocrs[a].states)];
    }

    /** Returns the region r, or its tail from offset on, to allocator a. */
    method Give(a: nat, chunk: nat, offset: nat, size: nat, ghost r: Region) returns (ok: bool)
      requires Valid() && a < |tallocrs| && size > 0
      requires r in live[a] && r.chunk == chunk && r.offset <= offset && offset % bufs.alignments[a] == 0
      requires offset + AlignedSize(size, bufs.alignments[a]) == r.End()
      modifies Repr
      ensures ok || Exhausted()
      ensures Valid() && Repr == old(Repr) && hash == old(hash) && born == old(born) && dead == old(dead)
      ensures tops == old(tops)
      ensures live == if ok then old(live)[a := WithoutTail(old(live)[a], r, offset)] else old(live)
    {
      ok := tallocrs[a].FreeBytes(chunk, offset, size, r);
      OthersUntouched(a);
      Follow(a);
    }

    /** Writes the hash table and, for the proof, who was born and who died. */
    method Put(h: seq<HashNode>, ghost b: set<nat>, ghost d: set<nat>)
      requires Valid()
      modifies this`hash, this`born, this`dead
      ensures Valid() && Now() == old(Now()).(hash := h, born := b, dead := d)
    {
      hash, born, dead := h, b, d;
    }

    /** t will be given memory by this allocator, or has been. */
    predicate IsAllocated(job: Job, t: nat)
      reads this
      requires t < |job.g.tensors| == |hash|
    {
      job.g.tensors[t].external || hash[t].isAllocated
    }

    /** Returns all but the first bytes of region r. */
    method GiveTail(a: nat, chunk: nat, offset: nat, keep: nat, size: nat, ghost r: Region) returns (ok: bool)
      requires Valid() && a < |tallocrs| && r in live[a] && r == Region(chunk, offset, size)
      requires keep < size && keep % bufs.alignments[a] == 0 && size % bufs.alignments[a] == 0
      modifies Repr
      ensures ok || Exhausted()
      ensures Valid() && Repr == old(Repr) && hash == old(hash) && born == old(born) && dead == old(dead) && tops == old(tops)
      ensures live == if ok then old(live)[a := WithoutTail(old(live)[a], r, offset + keep)] else old(live)
    {
      LiveAligned(a, r);
      AddMod(size, keep, bufs.alignments[a]);
      AddMod(offset, keep, bufs.alignments[a]);
      AlignedSizeLeast(size - keep, size - keep, bufs.alignments[a]);
      ok := Give(a, chunk, offset + keep, size - keep, r);
    }

    /** Returns the end of the memory of parent when node, which has taken it over, is smaller. */
    method FreeExtraSpace(job: Job, node: nat, parent: nat) returns (ok: bool)
      requires Valid() && ValidJob(bufs, job) && |hash| == |job.g.tensors|
      requires node < |hash| && parent < |hash| && job.g.Owned(parent) && job.g.Owned(node)
      requires node in job.g.nodes && MayReuse(job.g, node, parent)
      requires var n, p := hash[node], hash[parent];
               p.bufferId == n.bufferId < |bufs.tallocrOf| && p.chunk == n.chunk && p.offset == n.offset
      requires var q := At(bufs, job, Now(), parent); q.region in live[q.tallocr]
      modifies Repr
      ensures ok || Exhausted()
      ensures Valid() && Repr == old(Repr) && hash == old(hash) && born == old(born) && dead == old(dead) && tops == old(tops)
      ensures ok ==> var q, r := At(bufs, job, Now(), parent), At(bufs, job, Now(), node);
                r.region.size <= q.region.size
                && live == old(live)[q.tallocr := old(live)[q.tallocr] - {q.region} + {r.region}]
    {
      var b := hash[parent].bufferId;
      var a := bufs.tallocrOf[b];
      var parentSize := bufs.Padded(job.size(b, parent), b);
      var nodeSize := bufs.Padded(job.size(hash[node].bufferId, node), hash[node].bufferId);
      AlignedSizeLeast(job.size(b, node), job.size(b, parent), bufs.alignments[a]);
      ok := true;
      if parentSize > nodeSize {
        ok := GiveTail(a, hash[parent].chunk, hash[parent].offset, nodeSize, parentSize, At(bufs, job, Now(), parent).region);
      } else {
        assert live[a] - {At(bufs, job, Now(), parent).region} + {At(bufs, job, Now(), node).region} == live[a];
      }
    }

    lemma LiveAligned(a: nat, r: Region)
      requires Valid() && a < |tallocrs| && r in live[a]
      ensures r.offset % bufs.alignments[a] == 0
    {
      var t := tallocrs[a];
      assert ChunkInv(t.states[r.chunk], t.live, r.chunk, t.alignment);
      assert RegionInv(t.states[r.chunk], r, t.alignment);
    }

    /** node takes over the memory of its source parent, whose last use this is. */
    method TakeOver(job: Job, node: nat, parent: nat, ghost k: nat) returns (ok: bool)
      requires Valid() && MayBeBorn(bufs, job, Now(), k, node) && !job.g.Initial(node)
      requires CountsRight(job.g, hash, Uses(job.g, k))
      requires parent < |hash| && MayReuse(job.g, node, parent)
      requires hash[parent].isAllocated && !job.g.tensors[parent].isOutput
      requires hash[parent].nChildren == 1 && hash[parent].nViews == 0
      modifies Repr
      ensures ok || Exhausted()
      ensures Valid() && Repr == old(Repr)
      ensures ok ==> PlanInv(bufs, job, Now(), k + 1) && born == old(born) + {node} && SameCounts(old(hash), hash)
      ensures ok ==> hash == TakenOver(old(hash), node, parent)
    {
      ghost var before := Now();
      BeforeTakeOver(bufs, job, before, k, node, parent);
      Put(TakenOver(hash, node, parent), born + {node}, dead + {parent});
      ok := FreeExtraSpace(job, node, parent);
      if ok {
        AfterTakeOver(bufs, job, before, Now(), k, node, parent);
      }
    }

    /** Gives node a region of its own from the buffer wanted. */
    method TakeFresh(job: Job, node: nat, bufferId: nat, ghost k: nat) returns (ok: bool)
      requires Valid() && MayBeBorn(bufs, job, Now(), k, node) && bufferId < |bufs.tallocrOf|
      modifies Repr
      ensures ok || Exhausted()
      ensures Valid() && fresh(Repr - old(Repr))
      ensures ok ==> PlanInv(bufs, job, Now(), BirthStage(job, k, node)) && born == old(born) + {node} && dead == old(dead)
      ensures ok ==> SameCounts(old(hash), hash) && exists chunk, offset :: hash == Settled(old(hash), node, bufferId, chunk, offset)
      ensures ok ==> ApartFromAll(bufs, job, old(Now()), hash, node, bufferId)
    {
      ghost var before := Now();
      var a := bufs.tallocrOf[bufferId];
      var chunk, offset;
      ok, chunk, offset := Take(a, job.size(bufferId, node));
      if ok {
        Put(Settled(hash, node, bufferId, chunk, offset), born + {node}, dead);
        AfterSettling(bufs, job, before, Now(), k, node, bufferId, chunk, offset);
      }
    }

    /** Gives node memory unless it has some already or is a view: that of a source it can
        overwrite if there is one, else a region of its own. */
    method AllocateNode(job: Job, node: nat, bufferId: nat, ghost k: nat) returns (ok: bool)
      requires Valid() && PlanInv(bufs, job, Now(), k) && node < |hash| && bufferId < |bufs.tallocrOf|
      requires job.g.Owned(node) && !hash[node].isAllocated ==> MayBeBorn(bufs, job, Now(), k, node)
      requires job.g.Initial(node) || !job.g.Owned(node) || hash[node].isAllocated || CountsRight(job.g, hash, Uses(job.g, k))
      modifies Repr
      ensures ok || Exhausted()
      ensures Valid() && fresh(Repr - old(Repr))
      ensures ok ==> SameCounts(old(hash), hash)
      ensures ok ==> old(born) <= born && (job.g.Owned(node) ==> node in born)
      ensures if old(job.g.Owned(node) && !hash[node].isAllocated) then
                ok ==> PlanInv(bufs, job, Now(), BirthStage(job, k, node)) && born == old(born) + {node}
                       && (job.g.Initial(node) ==> dead == old(dead))
              else ok && Now() == old(Now())
      ensures ok && old(job.g.Owned(node) && !hash[node].isAllocated) ==> Given(job.g, old(hash), hash, node, bufferId)
      ensures ok && old(job.g.Owned(node) && !hash[node].isAllocated) ==>
                (exists j :: GivenSource(job.g, old(hash), hash, node, j)) || ApartFromAll(bufs, job, old(Now()), hash, node, bufferId)
    {
      ok := true;
      if !IsAllocated(job, node) && !job.g.IsView(node) {
        ok := PlaceNode(job, node, bufferId, k);
      }
    }

    /** Memory for a node: that of a source whose last use it is, else its own. */
    method PlaceNode(job: Job, node: nat, bufferId: nat, ghost k: nat) returns (ok: bool)
      requires Valid() && MayBeBorn(bufs, job, Now(), k, node) && bufferId < |bufs.tallocrOf|
      requires job.g.Initial(node) || CountsRight(job.g, hash, Uses(job.g, k))
      modifies Repr
      ensures ok || Exhausted()
      ensures Valid() && fresh(Repr - old(Repr))
      ensures ok ==> PlanInv(bufs, job, Now(), BirthStage(job, k, node)) && born == old(born) + {node} && SameCounts(old(hash), hash)
      ensures ok && job.g.Initial(node) ==> dead == old(dead)
      ensures ok ==> Given(job.g, old(hash), hash, node, bufferId)
      ensures ok ==> (exists j :: GivenSource(job.g, old(hash), hash, node, j)) || ApartFromAll(bufs, job, old(Now()), hash, node, bufferId)
    {
      var j := PickSource(job, node, k);
      if j < |job.g.tensors[node].src| {
        ok := TakeOver(job, node, job.g.tensors[node].src[j], k);
        assert ok ==> GivenSource(job.g, old(hash), hash, node, j);
      } else {
        ok := TakeFresh(job, node, bufferId, k);
      }
    }

    /** The source whose memory node takes over, |src| when it takes over none. */
    method PickSource(job: Job, node: nat, ghost k: nat) returns (j: nat)
      requires Valid() && PlanInv(bufs, job, Now(), k) && node < |hash|
      ensures j <= |job.g.tensors[node].src| && (CanInplace(job.g.tensors[node].op) ==> NoneReusable(job.g, hash, node, j))
      ensures j < |job.g.tensors[node].src| ==>
                CanInplace(job.g.tensors[node].op) && Reusable(job.g, hash, node, job.g.tensors[node].src[j])
    {
      j := |job.g.tensors[node].src|;
      if CanInplace(job.g.tensors[node].op) {
        OnlyOwned(bufs, job, Now(), k);
        j := FindReusable(job, node);
      }
    }

    /** Tries to reuse a source's memory: the first source that can be taken over, |src| if there
        is none. */
    method FindReusable(job: Job, node: nat) returns (j: nat)
      requires job.g.ValidIds() && node < |hash| == |job.g.tensors|
      requires forall t :: 0 <= t < |hash| && hash[t].isAllocated ==> job.g.Owned(t)
      ensures j <= |job.g.tensors[node].src| && NoneReusable(job.g, hash, node, j)
      ensures j < |job.g.tensors[node].src| ==> Reusable(job.g, hash, node, job.g.tensors[node].src[j])
    {
      var src := job.g.tensors[node].src;
      j := 0;
      while j < |src|
        invariant 0 <= j <= |src| && NoneReusable(job.g, hash, node, j)
      {
        var parent := src[j];
        var rootIsOutput := job.g.IsView(parent) && job.g.tensors[job.g.Root(parent)].isOutput;
        if hash[parent].isAllocated && !job.g.tensors[parent].isOutput && !rootIsOutput
           && job.g.tensors[node].layout == job.g.tensors[parent].layout
           && hash[parent].nChildren == 1 && hash[parent].nViews == 0
        {
          if job.g.IsView(parent) {
            // a view is never allocated, so its root is never taken over through it
            assert false;
          } else {
            return;
          }
        }
        j := j + 1;
      }
    }

    /** Takes back the memory of node, unless it is an output. */
    method FreeNode(job: Job, node: nat, ghost k: nat) returns (ok: bool)
      requires Valid() && PlanInv(bufs, job, Now(), k) && node < |hash| && hash[node].isAllocated
      requires !job.g.tensors[node].isOutput ==> !job.g.NeededFrom(node, k)
      requires forall j :: 0 <= j < |job.g.nodes| && job.g.nodes[j] == node ==> j < k
      modifies Repr
      ensures ok || Exhausted()
      ensures Valid() && Repr == old(Repr)
      ensures ok ==> PlanInv(bufs, job, Now(), k) && born == old(born) && SameCounts(old(hash), hash)
      ensures ok ==> hash == if job.g.tensors[node].isOutput then old(hash) else Released(old(hash), node)
    {
      if job.g.tensors[node].isOutput {
        return true;
      }
      ghost var before := Now();
      AliveRegion(bufs, job, before, k, node);
      ok := ReturnMemory(job, node);
      if ok {
        Put(Released(hash, node), born, dead + {node});
        AfterRelease(bufs, job, before, Now(), k, node);
      }
    }

    method ReturnMemory(job: Job, node: nat) returns (ok: bool)
      requires Valid() && node < |hash| && hash[node].bufferId < |bufs.tallocrOf| && job.size(hash[node].bufferId, node) > 0
      requires var q := At(bufs, job, Now(), node); q.region in live[q.tallocr] && q.region.size > 0
      modifies Repr
      ensures ok || Exhausted()
      ensures Valid() && Repr == old(Repr) && hash == old(hash) && born == old(born) && dead == old(dead) && tops == old(tops)
      ensures ok ==> var q := At(bufs, job, Now(), node);
                live == old(live)[q.tallocr := WithoutTail(old(live)[q.tallocr], q.region, q.region.offset)]
    {
      var b := hash[node].bufferId;
      ghost var r := At(bufs, job, Now(), node).region;
      LiveAligned(bufs.tallocrOf[b], r);
      ok := Give(bufs.tallocrOf[b], hash[node].chunk, hash[node].offset, job.size(b, node), r);
    }

    /** Strikes off one use of source s by node k; target is s or, for a view, the tensor it
        looks into, when this may have been the last use of its memory. */
    method StrikeOffUse(job: Job, s: nat, ghost k: nat, ghost rest: multiset<nat>) returns (last: bool, target: nat)
      requires Valid() && PlanInv(bufs, job, Now(), k + 1) && CountsRight(job.g, hash, rest)
      requires k < |job.g.nodes| && s in job.g.tensors[job.g.nodes[k]].src
      requires s in rest && rest <= Uses(job.g, 0)
      modifies this`hash, this`born, this`dead
      ensures Valid() && PlanInv(bufs, job, Now(), k + 1) && CountsRight(job.g, hash, rest - multiset{s})
      ensures born == old(born) && target < |hash| && hash == Struck(job.g, old(hash), s)
      ensures last == (hash[s].nChildren == 0 && hash[s].nViews == 0) && (last ==> target == job.g.Root(s))
      ensures last ==> forall j :: 0 <= j < |job.g.nodes| && job.g.nodes[j] == target ==> j < k + 1
    {
      AfterStrikeOff(bufs, job, Now(), k, s, rest);
      var h := hash[s := hash[s].(nChildren := hash[s].nChildren - 1)];
      last, target := h[s].nChildren == 0 && h[s].nViews == 0, s;
      if last && job.g.IsView(s) {
        target := job.g.Root(s);
        h := h[target := h[target].(nViews := h[target].nViews - 1)];
      }
      assert h == Struck(job.g, hash, s);
      Put(h, born, dead);
    }

    /** One source of node k is dealt with: its use is struck off, and the memory of what
        nobody is going to look at any more is taken back. */
    method ReleaseSource(job: Job, s: nat, ghost k: nat, ghost rest: multiset<nat>) returns (ok: bool)
      requires Valid() && PlanInv(bufs, job, Now(), k + 1) && CountsRight(job.g, hash, rest)
      requires k < |job.g.nodes| && s in job.g.tensors[job.g.nodes[k]].src
      requires s in rest && Uses(job.g, k + 1) <= rest - multiset{s} && rest <= Uses(job.g, 0)
      modifies Repr
      ensures ok || Exhausted()
      ensures Valid() && Repr == old(Repr)
      ensures ok ==> PlanInv(bufs, job, Now(), k + 1) && CountsRight(job.g, hash, rest - multiset{s}) && born == old(born)
      ensures ok ==> hash == AfterUse(job.g, old(hash), s)
    {
      var last, target := StrikeOffUse(job, s, k, rest);
      ok := true;
      if last {
        ok := FreeIfDone(job, target, k + 1, rest - multiset{s});
      }
    }

    method FreeIfDone(job: Job, t: nat, ghost k: nat, ghost rest: multiset<nat>) returns (ok: bool)
      requires Valid() && PlanInv(bufs, job, Now(), k) && CountsRight(job.g, hash, rest) && t < |hash|
      requires k <= |job.g.nodes| && Uses(job.g, k) <= rest
      requires forall j :: 0 <= j < |job.g.nodes| && job.g.nodes[j] == t ==> j < k
      modifies Repr
      ensures ok || Exhausted()
      ensures Valid() && Repr == old(Repr)
      ensures ok ==> PlanInv(bufs, job, Now(), k) && CountsRight(job.g, hash, rest) && born == old(born)
      ensures ok ==> hash == FreedIfDone(job.g, old(hash), t)
    {
      ok := true;
      if hash[t].nViews == 0 && hash[t].nChildren == 0 && hash[t].isAllocated {
        ghost var h := hash;
        DoneWith(bufs, job, Now(), k, t, rest);
        ok := FreeNode(job, t, k);
        if ok {
          CountsCarryOver(job.g, h, hash, rest);
        }
      }
    }

    /** What holds before node k. */
    ghost predicate Ready(job: Job, k: nat)
      reads this, Repr
    {
      && Valid() && k <= |job.g.nodes|
      && PlanInv(bufs, job, Now(), k) && AllPlaced(job, born, k) && NoLeak(job.g, hash)
    }

    /** Allocates the sources of node k: only leafs could be missing, and they have been seen to. */
    method AllocateSources(job: Job, k: nat)
      requires k < |job.g.nodes| && Ready(job, k) && CountsRight(job.g, hash, Uses(job.g, k))
      modifies Repr
      ensures Valid() && Now() == old(Now()) && fresh(Repr - old(Repr))
    {
      var src := job.g.tensors[job.g.nodes[k]].src;
      for j := 0 to |src|
        invariant Valid() && Now() == old(Now()) && fresh(Repr - old(Repr))
      {
        SourceAlive(bufs, job, Now(), k, src[j]);
        var ok := AllocateNode(job, src[j], job.nodeBuffer[k], k);
      }
    }

    method AllocateThisNode(job: Job, k: nat) returns (ok: bool)
      requires k < |job.g.nodes| && Ready(job, k) && CountsRight(job.g, hash, Uses(job.g, k))
      modifies Repr
      ensures ok || Exhausted()
      ensures Valid() && fresh(Repr - old(Repr))
      ensures ok ==> Ready(job, k + 1) && CountsRight(job.g, hash, Uses(job.g, k))
      ensures ok ==> SpotsKept(old(hash), hash, PlacedAt(job.g, k)) && NodePlaced(bufs, job, old(Now()), hash, k)
    {
      ghost var before := Now();
      NodeMayBeBorn(bufs, job, before, k);
      ok := AllocateNode(job, job.g.nodes[k], job.nodeBuffer[k], k);
      if ok {
        AfterThisNode(bufs, job, before, Now(), k);
        if Now() != before {
          NoLeakAfterBirth(job.g, before.hash, hash, k, job.nodeBuffer[k]);
          GivenIsPlaced(bufs, job, before, hash, k);
          GivenKeepsSpots(job.g, before.hash, hash, job.g.nodes[k], job.nodeBuffer[k]);
        } else {
          NodeIsNew(bufs, job, before, k);
        }
        CountsCarryOver(job.g, before.hash, hash, Uses(job.g, k));
      }
    }

    method ReleaseOne(job: Job, s: nat, k: nat, ghost rest: multiset<nat>) returns (ok: bool)
      requires k < |job.g.nodes| && Ready(job, k + 1) && CountsRight(job.g, hash, rest)
      requires s in job.g.tensors[job.g.nodes[k]].src
      requires s in rest && Uses(job.g, k + 1) <= rest - multiset{s} && rest <= Uses(job.g, 0)
      modifies Repr
      ensures ok || Exhausted()
      ensures Valid() && Repr == old(Repr)
      ensures ok ==> Ready(job, k + 1) && CountsRight(job.g, hash, rest - multiset{s}) && SpotsKept(old(hash), hash, |old(hash)|)
    {
      AfterStrikeOff(bufs, job, Now(), k, s, rest);
      NoLeakAfterUse(job.g, hash, rest - multiset{s}, s);
      AfterUseKeepsSpots(job.g, hash, s);
      ok := ReleaseSource(job, s, k, rest);
    }

    /** Strikes off the uses of node k. */
    method ReleaseSources(job: Job, k: nat) returns (ok: bool)
      requires k < |job.g.nodes| && Ready(job, k + 1) && CountsRight(job.g, hash, Uses(job.g, k))
      modifies Repr
      ensures ok || Exhausted()
      ensures Valid() && Repr == old(Repr)
      ensures ok ==> Ready(job, k + 1) && CountsRight(job.g, hash, Uses(job.g, k + 1)) && SpotsKept(old(hash), hash, |old(hash)|)
    {
      var src := job.g.tensors[job.g.nodes[k]].src;
      ghost var later := Uses(job.g, k + 1);
      UsesAreSome(job.g, k);
      ok := true;
      assert src[0..] == src;
      for j := 0 to |src|
        invariant ok && Ready(job, k + 1) && Repr == old(Repr)
        invariant CountsRight(job.g, hash, multiset(src[j..]) + later)
        invariant multiset(src[j..]) + later <= Uses(job.g, 0)
        invariant SpotsKept(old(hash), hash, |old(hash)|)
      {
        ghost var h := hash;
        UsesOfSuffix(job.g, k, j);
        ghost var rest := multiset(src[j..]) + later;
        assert rest - multiset{src[j]} == multiset(src[j + 1..]) + later;
        ok := ReleaseOne(job, src[j], k, rest);
        if !ok {
          return;
        }
        SpotsStillKept(old(hash), h, hash, |old(hash)|);
      }
      assert multiset(src[|src|..]) + later == later;
    }

    /** What holds before the nodes are walked: nothing has been given away. */
    ghost predicate Starting(job: Job)
      reads this, Repr
    {
      Valid() && PlanInv(bufs, job, Now(), 0) && dead == {}
    }

    /** An input or a leaf gets its place before anything else does. */
    method AllocateInitial(job: Job, t: nat, bufferId: nat) returns (ok: bool)
      requires Starting(job) && t < |hash| && job.g.Initial(t) && bufferId < |bufs.tallocrOf|
      modifies Repr
      ensures ok || Exhausted()
      ensures Valid() && fresh(Repr - old(Repr))
      ensures ok ==> Starting(job) && SameCounts(old(hash), hash) && old(born) <= born && (job.g.Owned(t) ==> t in born)
    {
      ok := AllocateNode(job, t, bufferId, 0);
    }

    /** Placing an input leaves counts as they are. */
    method PlaceInput(job: Job, t: nat, bufferId: nat, ghost k: nat, ghost j: nat, ghost self: bool) returns (ok: bool)
      requires Starting(job) && t < |hash| && job.g.Initial(t) && bufferId < |bufs.tallocrOf|
      requires k <= |job.g.nodes| && (k < |job.g.nodes| ==> j <= |job.g.tensors[job.g.nodes[k]].src|)
      requires CountedSoFar(job.g, hash, k, j, self)
      modifies Repr
      ensures ok || Exhausted()
      ensures Valid() && fresh(Repr - old(Repr))
      ensures ok ==> Starting(job) && CountedSoFar(job.g, hash, k, j, self) && old(born) <= born && (job.g.Owned(t) ==> t in born)
    {
      ghost var h := hash;
      ok := AllocateInitial(job, t, bufferId);
      if ok {
        SameCountsSoFar(job.g, h, hash, k, j, self);
      }
    }

    method PlaceIfInput(job: Job, t: nat, bufferId: nat, ghost k: nat, ghost j: nat, ghost self: bool) returns (ok: bool)
      requires Starting(job) && t < |hash| && (job.g.tensors[t].isInput ==> job.g.Initial(t)) && bufferId < |bufs.tallocrOf|
      requires k <= |job.g.nodes| && (k < |job.g.nodes| ==> j <= |job.g.tensors[job.g.nodes[k]].src|)
      requires CountedSoFar(job.g, hash, k, j, self)
      modifies Repr
      ensures ok || Exhausted()
      ensures Valid() && fresh(Repr - old(Repr))
      ensures ok ==> Starting(job) && CountedSoFar(job.g, hash, k, j, self) && old(born) <= born && InputPlaced(job.g, born, t)
    {
      ok := true;
      if job.g.tensors[t].isInput {
        ok := PlaceInput(job, t, bufferId, k, j, self);
      }
    }

    method AllocateLeaf(job: Job, i: nat) returns (ok: bool)
      requires Starting(job) && i < |job.g.leafs| && LeafsPlaced(job.g, born, i) && CountedSoFar(job.g, hash, 0, 0, false)
      modifies Repr
      ensures ok || Exhausted()
      ensures Valid() && fresh(Repr - old(Repr))
      ensures ok ==> Starting(job) && LeafsPlaced(job.g, born, i + 1) && CountedSoFar(job.g, hash, 0, 0, false)
    {
      ghost var was := born;
      LeafCanBePlaced(bufs, job, Now(), i);
      ok := PlaceInput(job, job.g.leafs[i], job.leafBuffer[i], 0, 0, false);
      if ok {
        OneMoreLeaf(job.g, was, born, i);
      }
    }

    method AllocateLeafs(job: Job) returns (ok: bool)
      requires Starting(job) && CountedSoFar(job.g, hash, 0, 0, false)
      modifies Repr
      ensures ok || Exhausted()
      ensures Valid() && fresh(Repr - old(Repr))
      ensures ok ==> Starting(job) && LeafsPlaced(job.g, born, |job.g.leafs|) && CountedSoFar(job.g, hash, 0, 0, false)
    {
      ok := true;
      var i := 0;
      while ok && i < |job.g.leafs|
        invariant (ok || Exhausted()) && i <= |job.g.leafs| && Valid() && fresh(Repr - old(Repr))
        invariant ok ==> Starting(job) && LeafsPlaced(job.g, born, i) && CountedSoFar(job.g, hash, 0, 0, false)
      {
        ok := AllocateLeaf(job, i);
        i := i + 1;
      }
    }

    /** Counts node k as a view, and places it if it is an input. */
    method CountSelf(job: Job, k: nat) returns (ok: bool)
      requires Starting(job) && k < |job.g.nodes| && CountedSoFar(job.g, hash, k, 0, false) && InputsPlaced(job.g, born, k, 0, false)
      modifies Repr
      ensures ok || Exhausted()
      ensures Valid() && fresh(Repr - old(Repr))
      ensures ok ==> old(born) <= born && Starting(job) && CountedSoFar(job.g, hash, k, 0, true) && InputsPlaced(job.g, born, k, 0, true)
    {
      var node := job.g.nodes[k];
      ghost var before := Now();
      CountView(job.g, hash, k);
      Put(ViewCounted(job.g, hash, node), born, dead);
      CountsDoNotMatter(bufs, job, before, Now(), 0);
      ok := PlaceIfInput(job, node, job.nodeBuffer[k], k, 0, true);
      if ok {
        SelfPlaced(job.g, before.born, born, k);
      }
    }

    /** Counts source j of node k as a use, and places it if it is an input. */
    method CountUseOf(job: Job, k: nat, j: nat) returns (ok: bool)
      requires Starting(job) && k < |job.g.nodes| && j < |job.g.tensors[job.g.nodes[k]].src|
      requires CountedSoFar(job.g, hash, k, j, true) && InputsPlaced(job.g, born, k, j, true)
      modifies Repr
      ensures ok || Exhausted()
      ensures Valid() && fresh(Repr - old(Repr))
      ensures ok ==> old(born) <= born && Starting(job) && CountedSoFar(job.g, hash, k, j + 1, true) && InputsPlaced(job.g, born, k, j + 1, true)
    {
      var s := job.g.tensors[job.g.nodes[k]].src[j];
      ghost var b := born;
      BumpUses(job, k, j);
      assert job.g.IsSource(s);
      ok := PlaceIfInput(job, s, job.nodeBuffer[k], k, j + 1, true);
      if ok {
        SourcePlaced(job.g, b, born, k, j);
      }
    }

    method BumpUses(job: Job, k: nat, j: nat)
      requires Starting(job) && k < |job.g.nodes| && j < |job.g.tensors[job.g.nodes[k]].src|
      requires CountedSoFar(job.g, hash, k, j, true)
      modifies this`hash, this`born, this`dead
      ensures Starting(job) && born == old(born) && CountedSoFar(job.g, hash, k, j + 1, true)
    {
      var s := job.g.tensors[job.g.nodes[k]].src[j];
      ghost var before := Now();
      CountUse(job.g, hash, k, j);
      Put(hash[s := hash[s].(nChildren := hash[s].nChildren + 1)], born, dead);
      CountsDoNotMatter(bufs, job, before, Now(), 0);
    }

    method CountUses(job: Job, k: nat) returns (ok: bool)
      requires Starting(job) && k < |job.g.nodes| && CountedSoFar(job.g, hash, k, 0, true) && InputsPlaced(job.g, born, k, 0, true)
      modifies Repr
      ensures ok || Exhausted()
      ensures Valid() && fresh(Repr - old(Repr))
      ensures ok ==> old(born) <= born && Starting(job)
      ensures var n := |job.g.tensors[job.g.nodes[k]].src|;
              ok ==> CountedSoFar(job.g, hash, k, n, true) && InputsPlaced(job.g, born, k, n, true)
    {
      var n := |job.g.tensors[job.g.nodes[k]].src|;
      ok := true;
      var j := 0;
      while ok && j < n
        invariant j <= n && Valid() && fresh(Repr - old(Repr))
        invariant ok || Exhausted()
        invariant ok ==> old(born) <= born && Starting(job)
        invariant ok ==> CountedSoFar(job.g, hash, k, j, true) && InputsPlaced(job.g, born, k, j, true)
      {
        ok := CountUseOf(job, k, j);
        j := j + 1;
      }
    }

    method CountNode(job: Job, k: nat) returns (ok: bool)
      requires Starting(job) && k < |job.g.nodes| && CountedSoFar(job.g, hash, k, 0, false) && InputsPlaced(job.g, born, k, 0, false)
      modifies Repr
      ensures ok || Exhausted()
      ensures Valid() && fresh(Repr - old(Repr))
      ensures ok ==> old(born) <= born && Starting(job) && CountedSoFar(job.g, hash, k + 1, 0, false) && InputsPlaced(job.g, born, k + 1, 0, false)
    {
      ok := CountSelf(job, k);
      if ok {
        ok := CountUses(job, k);
      }
      if ok {
        NodeCounted(job.g, hash, k);
      }
    }

    /** Counts uses and views, and places the inputs first so that nothing overwrites them. */
    method CountAll(job: Job) returns (ok: bool)
      requires Starting(job) && CountedSoFar(job.g, hash, 0, 0, false)
      modifies Repr
      ensures ok || Exhausted()
      ensures Valid() && fresh(Repr - old(Repr))
      ensures ok ==> old(born) <= born && Starting(job) && CountsRight(job.g, hash, Uses(job.g, 0)) && InputsPlaced(job.g, born, |job.g.nodes|, 0, false)
    {
      ok := true;
      var k := 0;
      while ok && k < |job.g.nodes|
        invariant (ok || Exhausted()) && k <= |job.g.nodes| && Valid() && fresh(Repr - old(Repr))
        invariant ok ==> old(born) <= born && Starting(job) && CountedSoFar(job.g, hash, k, 0, false) && InputsPlaced(job.g, born, k, 0, false)
      {
        ok := CountNode(job, k);
        k := k + 1;
      }
      if ok {
        AllCounted(job.g, hash);
      }
    }

    /** Node k: its sources are there, it gets its memory, and what it used last is freed. */
    method PlanNode(job: Job, k: nat) returns (ok: bool)
      requires k < |job.g.nodes| && Ready(job, k) && CountsRight(job.g, hash, Uses(job.g, k))
      modifies Repr
      ensures ok || Exhausted()
      ensures Valid() && fresh(Repr - old(Repr))
      ensures ok ==> Ready(job, k + 1) && CountsRight(job.g, hash, Uses(job.g, k + 1))
      ensures ok ==> SpotsKept(old(hash), hash, PlacedAt(job.g, k)) && NodePlaced(bufs, job, old(Now()), hash, k)
    {
      ghost var before := Now();
      AllocateSources(job, k);
      ok := AllocateThisNode(job, k);
      if ok {
        ghost var h := hash;
        ok := ReleaseSources(job, k);
        if ok {
          SpotsStillKept(before.hash, h, hash, PlacedAt(job.g, k));
          PlacedStays(bufs, job, before, h, hash, k);
        }
      }
    }

    /** Forgets the last plan, then places leafs and inputs. */
    method PlaceInitial(job: Job) returns (ok: bool)
      requires Valid() && ValidJob(bufs, job)
      requires forall a :: 0 <= a < |live| ==> live[a] == {}
      modifies Repr
      ensures ok || Exhausted()
      ensures Valid() && fresh(Repr - old(Repr))
      ensures ok ==> Ready(job, 0) && CountsRight(job.g, hash, Uses(job.g, 0))
    {
      Put(seq(|job.g.tensors|, _ => HashNode(0, 0, 0, 0, 0, false)), {}, {});
      NothingPlaced(bufs, job, Now());
      ok := AllocateLeafs(job);
      if ok {
        ok := CountAll(job);
        if ok {
          InitialPlaced(job, Now());
          NoLeakAtStart(bufs, job, Now());
        }
      }
    }

    /** Walks over the graph. When no allocator gives up on the way, the places in the hash
        table are a safe plan that stays below the sizes the buffers are going to have, and what is
        no longer wanted has been given back. */
    method AllocGraphImpl(job: Job) returns (ok: bool)
      requires Valid() && ValidJob(bufs, job)
      requires forall a :: 0 <= a < |live| ==> live[a] == {}
      modifies Repr
      ensures ok || Exhausted()
      ensures Valid() && fresh(Repr - old(Repr))
      ensures ok ==> |hash| == |job.g.tensors| && SafePlan(job.g, PlanFrom(bufs, job, hash)) && OnlyWanted(job.g, hash)
      ensures ok ==> forall t :: 0 <= t < |hash| && Placed(job.g, t) ==>
                hash[t].bufferId < |bufs.tallocrOf| && InBounds(Now(), PlaceOf(bufs, job, hash[t], t))
      ensures ok ==> AllTookOver(job.g, hash, |job.g.nodes|)
    {
      ok := PlaceInitial(job);
      var k := 0;
      while ok && k < |job.g.nodes|
        invariant (ok || Exhausted()) && k <= |job.g.nodes| && Valid() && fresh(Repr - old(Repr))
        invariant ok ==> Ready(job, k) && CountsRight(job.g, hash, Uses(job.g, k)) && AllTookOver(job.g, hash, k)
      {
        ghost var before := Now();
        ok := PlanNode(job, k);
        if ok {
          OneMoreTookOver(bufs, job, before, hash, k);
        }
        k := k + 1;
      }
      if ok {
        WalkedToTheEnd(job);
      }
    }

    lemma WalkedToTheEnd(job: Job)
      requires Ready(job, |job.g.nodes|) && CountsRight(job.g, hash, Uses(job.g, |job.g.nodes|))
      ensures OnlyWanted(job.g, hash)
      ensures |hash| == |job.g.tensors| && SafePlan(job.g, PlanFrom(bufs, job, hash))
      ensures forall t :: 0 <= t < |hash| && Placed(job.g, t) ==>
                hash[t].bufferId < |bufs.tallocrOf| && InBounds(Now(), PlaceOf(bufs, job, hash[t], t))
    {
      EveryPlacedTensorBorn(job, Now());
      InvariantGivesSafePlan(bufs, job, Now(), |job.g.nodes|);
      NoLeakAtEnd(bufs, job, Now());
    }

    /** Starts every allocator afresh. */
    method ResetAllocators()
      requires Valid()
      modifies Repr
      ensures Valid() && fresh(Repr - old(Repr))
      ensures forall a :: 0 <= a < |live| ==> live[a] == {}
    {
      var a := 0;
      while a < |tallocrs|
        invariant a <= |tallocrs| && Valid() && fresh(Repr - old(Repr))
        invariant forall i :: 0 <= i < a ==> live[i] == {}
      {
        ResetAllocator(a);
        a := a + 1;
      }
    }

    method ResetAllocator(a: nat)
      requires Valid() && a < |tallocrs|
      modifies Repr
      ensures Valid() && fresh(Repr - old(Repr))
      ensures live == old(live)[a := {}]
    {
      tallocrs[a].Reset();
      OthersUntouched(a);
      Follow(a);
    }
  }
}
