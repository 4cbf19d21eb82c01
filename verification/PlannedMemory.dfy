/** Running a graph in planned memory, where buffers overlap, computes what running it with
    one buffer a tensor does, provided the plan is safe. */
module PlannedMemory {
  import opened TensorGraph
  import opened DynTallocr

  /** Where the buffer of a tensor lies: in which address space, and which bytes of it. */
  datatype Place = Place(tallocr: nat, region: Region)

  /** One place a tensor. */
  type Plan = seq<Place>

  ghost predicate Clash(p: Place, q: Place) {
    p.tallocr == q.tallocr && !Apart(p.region, q.region)
  }

  /** The tensors that are given memory. */
  ghost predicate Placed(g: Graph, t: nat)
    requires g.ValidIds() && t < |g.tensors|
  {
    g.Owned(t) && (g.Initial(t) || t in g.nodes)
  }

  /** t is done with by the time u is written for the first time. */
  ghost predicate DoneBefore(g: Graph, t: nat, u: nat)
    requires g.ValidIds() && t < |g.tensors| && u < |g.tensors|
  {
    !g.Initial(u) && exists d :: 0 <= d < |g.nodes| && g.nodes[d] == u && g.DefinedBefore(t, d) && !g.NeededFrom(t, d + 1)
  }

  ghost predicate SafePlan(g: Graph, plan: Plan)
    requires g.ValidIds()
  {
    && |plan| == |g.tensors|
    && (forall t :: 0 <= t < |plan| && Placed(g, t) ==> g.tensors[t].nbytes <= plan[t].region.size)
    && (forall t, u :: 0 <= t < |plan| && 0 <= u < |plan| && t != u && Placed(g, t) && Placed(g, u) ==> SafePair(g, plan, t, u))
  }

  /** If t and u share memory, one is done with before the other is written. */
  ghost predicate SafePair(g: Graph, plan: Plan, t: nat, u: nat)
    requires g.ValidIds() && t < |g.tensors| && u < |g.tensors| && t < |plan| && u < |plan|
  {
    Clash(plan[t], plan[u]) ==> DoneBefore(g, t, u) || DoneBefore(g, u, t)
  }

  // ----- the machine with planned memory

  datatype Loc = Loc(tallocr: nat, chunk: nat, byte: int)

  type Memory = Loc -> int

  /** Memory the plan covers, and the buffers of external tensors. */
  datatype Machine = Machine(mem: Memory, ext: Store)

  ghost predicate Inside(p: Place, l: Loc) {
    l.tallocr == p.tallocr && l.chunk == p.region.chunk && p.region.offset <= l.byte < p.region.End()
  }

  function ReadBytes(mem: Memory, p: Place, n: nat): (r: Bytes)
    ensures |r| == n
  {
    seq(n, k requires 0 <= k < n => mem(Loc(p.tallocr, p.region.chunk, p.region.offset + k)))
  }

  /** The bytes of the region beyond those of the tensor are left in any state. */
  function WriteBytes(mem: Memory, p: Place, bytes: Bytes, junk: Memory): Memory {
    (l: Loc) => if l.tallocr == p.tallocr && l.chunk == p.region.chunk && p.region.offset <= l.byte < p.region.End() then
           (if l.byte - p.region.offset < |bytes| then bytes[l.byte - p.region.offset] else junk(l))
         else mem(l)
  }

  function Read(g: Graph, plan: Plan, m: Machine, r: nat): Bytes
    requires r < |g.tensors| == |plan| == |m.ext|
  {
    if g.tensors[r].external then m.ext[r] else ReadBytes(m.mem, plan[r], g.tensors[r].nbytes)
  }

  function ReadSources(g: Graph, plan: Plan, m: Machine, src: seq<nat>): (r: seq<Bytes>)
    requires g.ValidIds() && |g.tensors| == |plan| == |m.ext|
    requires forall j :: 0 <= j < |src| ==> src[j] < |g.tensors|
    ensures |r| == |src| && forall j :: 0 <= j < |src| ==> r[j] == Read(g, plan, m, g.Root(src[j]))
  {
    seq(|src|, j requires 0 <= j < |src| => Read(g, plan, m, g.Root(src[j])))
  }

  function MachineStep(g: Graph, plan: Plan, kernel: Kernel, n: nat, m: Machine, junk: Memory): (r: Machine)
    requires g.ValidIds() && n < |g.tensors| == |plan| == |m.ext|
    ensures |r.ext| == |m.ext|
  {
    if !g.Writes(n) then m
    else
      var root := g.Root(n);
      var bytes := Result(g, kernel, n, ReadSources(g, plan, m, g.tensors[n].src), Read(g, plan, m, root));
      if g.tensors[root].external then m.(ext := m.ext[root := bytes])
      else m.(mem := WriteBytes(m.mem, plan[root], bytes, junk))
  }

  /** The machine after the first k nodes; junk(i) is what node i leaves in padding bytes. */
  function MachineRun(g: Graph, plan: Plan, kernel: Kernel, m: Machine, junk: nat -> Memory, k: nat): (r: Machine)
    requires g.ValidIds() && k <= |g.nodes| && |g.tensors| == |plan| == |m.ext|
    ensures |r.ext| == |m.ext|
  {
    if k == 0 then m
    else MachineStep(g, plan, kernel, g.nodes[k - 1], MachineRun(g, plan, kernel, m, junk, k - 1), junk(k - 1))
  }

  /** The machine starts with the given inputs, leafs and external tensors in place. */
  ghost predicate Loaded(g: Graph, plan: Plan, m: Machine, init: Store)
    requires g.ValidIds() && |g.tensors| == |plan|
  {
    && StoreFor(g, init) && |m.ext| == |init|
    && (forall t :: 0 <= t < |init| && g.External(t) ==> m.ext[t] == init[t])
    && (forall t :: 0 <= t < |init| && g.Owned(t) && g.Initial(t) ==> Read(g, plan, m, t) == init[t])
  }

  /** Every buffer that holds a value still wanted is the same in both machines. */
  ghost predicate Agree(g: Graph, plan: Plan, m: Machine, st: Store, k: nat)
    requires g.ValidIds() && |g.tensors| == |plan| == |m.ext| == |st|
  {
    && (forall r :: 0 <= r < |st| && g.External(r) ==> m.ext[r] == st[r])
    && (forall r :: 0 <= r < |st| && g.Owned(r) && g.DefinedBefore(r, k) && g.NeededFrom(r, k) ==>
          Read(g, plan, m, r) == st[r])
  }

  lemma ReadBack(mem: Memory, p: Place, bytes: Bytes, junk: Memory)
    requires |bytes| <= p.region.size
    ensures ReadBytes(WriteBytes(mem, p, bytes, junk), p, |bytes|) == bytes
  {
    var after := WriteBytes(mem, p, bytes, junk);
    forall k | 0 <= k < |bytes| ensures ReadBytes(after, p, |bytes|)[k] == bytes[k] {
      var l := Loc(p.tallocr, p.region.chunk, p.region.offset + k);
      assert Inside(p, l) && l.byte - p.region.offset == k;
      assert after(l) == bytes[k];
    }
  }

  lemma ReadElsewhere(mem: Memory, p: Place, bytes: Bytes, junk: Memory, q: Place, n: nat)
    requires !Clash(p, q) && n <= q.region.size
    ensures ReadBytes(WriteBytes(mem, p, bytes, junk), q, n) == ReadBytes(mem, q, n)
  {
  }

  lemma NodeIndexUnique(g: Graph, i: nat, j: nat)
    requires g.WellFormed() && i < |g.nodes| && j < |g.nodes| && g.nodes[i] == g.nodes[j]
    ensures i == j
  {
  }

  /** t, wanted after node k, is not done with by the time the tensor node k writes is first written. */
  lemma WantedNotDone(g: Graph, k: nat, t: nat)
    requires g.WellFormed() && k < |g.nodes| && g.Writes(g.nodes[k]) && t < |g.tensors| && g.NeededFrom(t, k + 1)
    ensures !DoneBefore(g, t, g.Root(g.nodes[k]))
  {
    var n := g.nodes[k];
    assert g.NodeReady(k);
    forall d | 0 <= d < |g.nodes| && g.nodes[d] == g.Root(n) ensures g.NeededFrom(t, d + 1) {
      if !g.IsView(n) {
        NodeIndexUnique(g, d, k);
      }
      assert d <= k;
    }
  }

  /** The tensor node k writes is not done with when t, defined before that, was first written. */
  lemma WrittenNotDone(g: Graph, k: nat, t: nat)
    requires g.WellFormed() && k < |g.nodes| && g.Writes(g.nodes[k]) && t < |g.tensors|
    requires g.Owned(t) && t != g.Root(g.nodes[k]) && g.Owned(g.Root(g.nodes[k])) && g.DefinedBefore(t, k + 1)
    ensures !DoneBefore(g, g.Root(g.nodes[k]), t)
  {
    var n := g.nodes[k];
    var r := g.Root(n);
    if !g.Initial(t) {
      var j :| 0 <= j < k + 1 && j < |g.nodes| && g.nodes[j] == t;
      forall d | 0 <= d < |g.nodes| && g.nodes[d] == t ensures g.DefinedBefore(r, d) ==> g.NeededFrom(r, d + 1) {
        NodeIndexUnique(g, d, j);
        if g.IsView(n) {
          assert g.Accesses(k, r);
        } else {
          assert !g.Initial(r);
        }
      }
    }
  }

  /** What node k writes does not lie over anything wanted after it. */
  lemma WriteClobbersNothing(g: Graph, plan: Plan, k: nat, t: nat)
    requires g.WellFormed() && SafePlan(g, plan) && k < |g.nodes| && g.Writes(g.nodes[k])
    requires t < |g.tensors| && g.Owned(t) && t != g.Root(g.nodes[k]) && g.Owned(g.Root(g.nodes[k]))
    requires g.DefinedBefore(t, k + 1) && g.NeededFrom(t, k + 1)
    ensures !Clash(plan[g.Root(g.nodes[k])], plan[t])
  {
    assert g.NodeReady(k);
    assert Placed(g, t) && Placed(g, g.Root(g.nodes[k]));
    WantedNotDone(g, k, t);
    WrittenNotDone(g, k, t);
    assert SafePair(g, plan, g.Root(g.nodes[k]), t);
  }

  lemma SourcesAgree(g: Graph, plan: Plan, m: Machine, st: Store, k: nat)
    requires g.WellFormed() && k < |g.nodes| && |g.tensors| == |plan| == |m.ext| == |st|
    requires Agree(g, plan, m, st, k)
    ensures ReadSources(g, plan, m, g.tensors[g.nodes[k]].src) == SourceValues(g, g.tensors[g.nodes[k]].src, st)
  {
    var src := g.tensors[g.nodes[k]].src;
    assert g.NodeReady(k);
    forall j | 0 <= j < |src| ensures Read(g, plan, m, g.Root(src[j])) == st[g.Root(src[j])] {
      var r := g.Root(src[j]);
      assert g.SourceReady(src[j], k);
      assert g.RootReady(r, k);
      assert g.Accesses(k, r);
      assert g.NeededFrom(r, k);
      assert g.External(r) || g.DefinedBefore(r, k);
    }
  }

  /** One node: both machines compute the same bytes, and go on agreeing. */
  lemma StepAgrees(g: Graph, plan: Plan, kernel: Kernel, m: Machine, st: Store, junk: Memory, k: nat)
    requires g.WellFormed() && SafePlan(g, plan) && k < |g.nodes| && |m.ext| == |st|
    requires StoreFor(g, st) && Agree(g, plan, m, st, k)
    ensures var n := g.nodes[k];
            var m' := MachineStep(g, plan, kernel, n, m, junk);
            var st' := Step(g, kernel, n, st);
            && Agree(g, plan, m', st', k + 1)
            && (g.Writes(n) ==> Read(g, plan, m', g.Root(n)) == st'[g.Root(n)])
  {
    var n := g.nodes[k];
    var r := g.Root(n);
    var m' := MachineStep(g, plan, kernel, n, m, junk);
    var st' := Step(g, kernel, n, st);
    assert g.NodeReady(k);
    if g.Writes(n) {
      SourcesAgree(g, plan, m, st, k);
      if g.IsView(n) {
        assert g.RootReady(r, k) && g.Accesses(k, r);
        assert g.NeededFrom(r, k);
        assert g.External(r) || g.DefinedBefore(r, k);
      }
      assert Read(g, plan, m', r) == st'[r] by {
        if g.Owned(r) {
          assert Placed(g, r);
          ReadBack(m.mem, plan[r], st'[r], junk);
        }
      }
      forall t | 0 <= t < |st| && g.Owned(t) && g.DefinedBefore(t, k + 1) && g.NeededFrom(t, k + 1) && t != r
        ensures Read(g, plan, m', t) == st'[t]
      {
        StillDefined(g, t, k);
        if g.Owned(r) {
          WriteClobbersNothing(g, plan, k, t);
          assert Placed(g, t);
          ReadElsewhere(m.mem, plan[r], st'[r], junk, plan[t], g.tensors[t].nbytes);
        }
      }
    } else {
      forall t | 0 <= t < |st| && g.Owned(t) && g.DefinedBefore(t, k + 1) && g.NeededFrom(t, k + 1)
        ensures Read(g, plan, m', t) == st'[t]
      {
        assert t == n ==> g.Initial(t);
        StillDefined(g, t, k);
      }
    }
  }

  lemma StillDefined(g: Graph, t: nat, k: nat)
    requires g.WellFormed() && k < |g.nodes| && t < |g.tensors|
    requires t != g.nodes[k] || g.Initial(t)
    requires g.DefinedBefore(t, k + 1) && g.NeededFrom(t, k + 1)
    ensures g.DefinedBefore(t, k) && g.NeededFrom(t, k)
  {
  }

  /** Safe plans preserve meaning: node by node, whatever kernels compute and whatever they
      leave in padding, planned memory holds the bytes that private buffers hold for every
      tensor whose value is still wanted. */
  lemma {:induction false} PlannedRunAgrees(g: Graph, plan: Plan, kernel: Kernel, m: Machine, init: Store, junk: nat -> Memory, k: nat)
    requires g.WellFormed() && SafePlan(g, plan) && k <= |g.nodes|
    requires Loaded(g, plan, m, init)
    ensures Agree(g, plan, MachineRun(g, plan, kernel, m, junk, k), Run(g, kernel, init, k), k)
  {
    if k == 0 {
      AgreeAtStart(g, plan, m, init);
    } else {
      PlannedRunAgrees(g, plan, kernel, m, init, junk, k - 1);
      OneNodeMore(g, plan, kernel, m, init, junk, k - 1);
    }
  }

  lemma OneNodeMore(g: Graph, plan: Plan, kernel: Kernel, m: Machine, init: Store, junk: nat -> Memory, k: nat)
    requires g.WellFormed() && SafePlan(g, plan) && k < |g.nodes|
    requires StoreFor(g, init) && |m.ext| == |init|
    requires Agree(g, plan, MachineRun(g, plan, kernel, m, junk, k), Run(g, kernel, init, k), k)
    ensures Agree(g, plan, MachineRun(g, plan, kernel, m, junk, k + 1), Run(g, kernel, init, k + 1), k + 1)
  {
    RunSizes(g, kernel, init, k);
    NextAgrees(g, plan, kernel, MachineRun(g, plan, kernel, m, junk, k), Run(g, kernel, init, k), junk(k), k,
      MachineRun(g, plan, kernel, m, junk, k + 1), Run(g, kernel, init, k + 1));
  }

  lemma NextAgrees(g: Graph, plan: Plan, kernel: Kernel, m: Machine, st: Store, junk: Memory, k: nat, m': Machine, st': Store)
    requires g.WellFormed() && SafePlan(g, plan) && k < |g.nodes| && |m.ext| == |st|
    requires StoreFor(g, st) && Agree(g, plan, m, st, k)
    requires m' == MachineStep(g, plan, kernel, g.nodes[k], m, junk) && st' == Step(g, kernel, g.nodes[k], st)
    ensures Agree(g, plan, m', st', k + 1)
  {
    StepAgrees(g, plan, kernel, m, st, junk, k);
  }

  lemma AgreeAtStart(g: Graph, plan: Plan, m: Machine, init: Store)
    requires g.WellFormed() && |g.tensors| == |plan| && Loaded(g, plan, m, init)
    ensures Agree(g, plan, m, init, 0)
  {
  }

  /** Each computed node holds, right after it ran, the bytes that private buffers hold. */
  lemma EveryNodeRight(g: Graph, plan: Plan, kernel: Kernel, m: Machine, init: Store, junk: nat -> Memory, k: nat)
    requires g.WellFormed() && SafePlan(g, plan) && k < |g.nodes| && g.Writes(g.nodes[k])
    requires Loaded(g, plan, m, init)
    ensures var r := g.Root(g.nodes[k]);
            Read(g, plan, MachineRun(g, plan, kernel, m, junk, k + 1), r) == Run(g, kernel, init, k + 1)[r]
  {
    PlannedRunAgrees(g, plan, kernel, m, init, junk, k);
    RunSizes(g, kernel, init, k);
    StepAgrees(g, plan, kernel, MachineRun(g, plan, kernel, m, junk, k), Run(g, kernel, init, k), junk(k), k);
  }

  /** Without writes through views, the whole run is plain evaluation: every node when it has
      run, and every output at the end. */
  lemma PlannedMemoryPreservesMeaning(g: Graph, plan: Plan, kernel: Kernel, m: Machine, init: Store, junk: nat -> Memory)
    requires g.WellFormed() && SafePlan(g, plan) && NoWriteThrough(g)
    requires Loaded(g, plan, m, init)
    ensures forall k :: 0 <= k < |g.nodes| && g.Writes(g.nodes[k]) ==>
              Read(g, plan, MachineRun(g, plan, kernel, m, junk, k + 1), g.nodes[k]) == Value(g, kernel, init, g.nodes[k], k + 1)
    ensures forall t :: 0 <= t < |g.tensors| && Placed(g, t) && g.tensors[t].isOutput ==>
              Read(g, plan, MachineRun(g, plan, kernel, m, junk, |g.nodes|), t) == Value(g, kernel, init, t, |g.nodes|)
  {
    forall k | 0 <= k < |g.nodes| && g.Writes(g.nodes[k])
      ensures Read(g, plan, MachineRun(g, plan, kernel, m, junk, k + 1), g.nodes[k]) == Value(g, kernel, init, g.nodes[k], k + 1)
    {
      EveryNodeRight(g, plan, kernel, m, init, junk, k);
      RunIsValue(g, kernel, init, k + 1, g.nodes[k]);
    }
    forall t | 0 <= t < |g.tensors| && Placed(g, t) && g.tensors[t].isOutput
      ensures Read(g, plan, MachineRun(g, plan, kernel, m, junk, |g.nodes|), t) == Value(g, kernel, init, t, |g.nodes|)
    {
      OutputRight(g, plan, kernel, m, init, junk, t);
    }
  }

  lemma OutputRight(g: Graph, plan: Plan, kernel: Kernel, m: Machine, init: Store, junk: nat -> Memory, t: nat)
    requires g.WellFormed() && SafePlan(g, plan) && NoWriteThrough(g) && Loaded(g, plan, m, init)
    requires t < |g.tensors| && Placed(g, t) && g.tensors[t].isOutput
    ensures Read(g, plan, MachineRun(g, plan, kernel, m, junk, |g.nodes|), t) == Value(g, kernel, init, t, |g.nodes|)
  {
    PlannedRunAgrees(g, plan, kernel, m, init, junk, |g.nodes|);
    RunIsValue(g, kernel, init, |g.nodes|, t);
  }
}
