/** The scheduler and the memory planner together: five passes, the graph with copies, and memory planned
    for it make every node of the graph come out right, whatever its operations are. */
module SchedWhole {
  import opened Wrappers
  import opened TensorGraph
  import opened SchedAssign
  import opened SchedSplit
  import opened SchedRun
  import opened SchedMemory
  import D = DynTallocr
  import P = PlannedMemory
  import I = PlanInvariant
  import GraphPlanner

  // ----- the copied graph, built

  /** c is the copy of an input before input j of split k. */
  predicate MadeBefore(g: Graph, plan: Plan, c: nat, k: nat, j: nat)
    requires Runnable(g, plan)
  {
    exists a, b :: 0 <= a < |plan.splits| && 0 <= b < |plan.splits[a].inputs| && CopyAt(g, plan, a, b) == c && Sooner(a, b, k, j)
  }

  lemma OneMoreMade(g: Graph, plan: Plan, c: nat, k: nat, j: nat)
    requires Runnable(g, plan) && k < |plan.splits| && j < |plan.splits[k].inputs|
    ensures MadeBefore(g, plan, c, k, j + 1) <==> MadeBefore(g, plan, c, k, j) || c == CopyAt(g, plan, k, j)
  {
    assert Sooner(k, j, k, j + 1);
  }

  lemma NextSplitMade(g: Graph, plan: Plan, c: nat, k: nat)
    requires Runnable(g, plan) && k < |plan.splits|
    ensures MadeBefore(g, plan, c, k + 1, 0) <==> MadeBefore(g, plan, c, k, |plan.splits[k].inputs|)
  {
    forall a: nat, b: nat | a < |plan.splits| && b < |plan.splits[a].inputs|
      ensures Sooner(a, b, k + 1, 0) <==> Sooner(a, b, k, |plan.splits[k].inputs|)
    {
    }
  }

  lemma AllMade(g: Graph, plan: Plan, c: nat)
    requires Runnable(g, plan) && CopiesFilled(plan)
    ensures MadeBefore(g, plan, c, |plan.splits|, 0) <==> IsCopy(g, plan.copies, c)
  {
    forall a: nat, b: nat | a < |plan.splits| && b < |plan.splits[a].inputs| && CopyAt(g, plan, a, b) == c
      ensures IsCopy(g, plan.copies, c)
    {
      OriginalOfCopy(g, plan, a, b);
    }
    if IsCopy(g, plan.copies, c) {
      var o: (nat, int) :| o in plan.copies && plan.copies[o] == c && o.0 < |g.tensors|;
      var a :| 0 <= a < |plan.splits| && plan.splits[a].backend == o.1 && o.0 in plan.splits[a].inputs;
      var b :| 0 <= b < |plan.splits[a].inputs| && plan.splits[a].inputs[b] == o.0;
      assert CopyAt(g, plan, a, b) == c && Sooner(a, b, |plan.splits|, 0);
    }
  }

  /** The copy c and the dependency that goes with it, as far as they have been made. */
  ghost predicate PairBuilt(g: Graph, plan: Plan, tensors: seq<Tensor>, c: nat, k: nat, j: nat)
    requires Runnable(g, plan) && |g.tensors| <= c < plan.total && |tensors| == 2 * plan.total - |g.tensors|
  {
    var made := MadeBefore(g, plan, c, k, j);
    && tensors[c] == (if made then CopyTensor(g, plan.copies, c) else UNUSED)
    && tensors[c + (plan.total - |g.tensors|)] == if made then DependencyTensor(g, plan.copies, c) else UNUSED
  }

  ghost predicate Built(g: Graph, plan: Plan, tensors: seq<Tensor>, k: nat, j: nat)
    requires Runnable(g, plan)
  {
    && |tensors| == 2 * plan.total - |g.tensors|
    && (forall t :: 0 <= t < |g.tensors| ==> tensors[t] == g.tensors[t].(src := plan.src[t]))
    && forall c :: |g.tensors| <= c < plan.total ==> PairBuilt(g, plan, tensors, c, k, j)
  }

  lemma PairIsBuilt(g: Graph, plan: Plan, tensors: seq<Tensor>, now: seq<Tensor>, k: nat, j: nat)
    requires Laid(g, plan) && k < |plan.splits| && j < |plan.splits[k].inputs| && Built(g, plan, tensors, k, j)
    requires plan.splits[k].inputs[j] < |g.tensors|
    requires now == tensors[CopyAt(g, plan, k, j) := Duplicate(g, plan.splits[k].inputs[j])]
                           [DependencyAt(g, plan, k, j) := Dependency(g, plan.splits[k].inputs[j])]
    ensures Built(g, plan, now, k, j + 1)
  {
    OriginalOfCopy(g, plan, k, j);
    var next := j + 1;
    forall c: nat | |g.tensors| <= c < plan.total ensures PairBuilt(g, plan, now, c, k, next) {
      OneMoreMade(g, plan, c, k, j);
      assert PairBuilt(g, plan, tensors, c, k, j);
    }
  }

  lemma SplitIsBuilt(g: Graph, plan: Plan, tensors: seq<Tensor>, k: nat)
    requires Laid(g, plan) && k < |plan.splits| && Built(g, plan, tensors, k, |plan.splits[k].inputs|)
    ensures Built(g, plan, tensors, k + 1, 0)
  {
    var next := k + 1;
    forall c: nat | |g.tensors| <= c < plan.total ensures PairBuilt(g, plan, tensors, c, next, 0) {
      NextSplitMade(g, plan, c, k);
      assert PairBuilt(g, plan, tensors, c, k, |plan.splits[k].inputs|);
    }
  }

  lemma AllBuilt(g: Graph, plan: Plan, tensors: seq<Tensor>)
    requires Laid(g, plan) && CopiesFilled(plan) && Built(g, plan, tensors, |plan.splits|, 0)
    ensures tensors == AllTensors(g, plan)
  {
    var n, all := |g.tensors|, AllTensors(g, plan);
    forall t: nat | n <= t < |all| ensures tensors[t] == all[t] {
      var c := if t < plan.total then t else t - (plan.total - n);
      AllMade(g, plan, c);
      OtherTensor(g, plan, t);
      assert PairBuilt(g, plan, tensors, c, |plan.splits|, 0);
    }
  }

  /** The tensors of the graph with rewritten sources; a copy of each input of each split, laid out alike,
      and a dependency on the input. */
  method CopyTensors(g: Graph, plan: Plan) returns (tensors: seq<Tensor>)
    requires Laid(g, plan) && CopiesFilled(plan)
    ensures tensors == AllTensors(g, plan)
  {
    var n := |g.tensors|;
    tensors := seq(n, t requires 0 <= t < n => g.tensors[t].(src := plan.src[t])) + seq(2 * (plan.total - n), _ => UNUSED);
    for k := 0 to |plan.splits|
      invariant Built(g, plan, tensors, k, 0)
    {
      for j := 0 to |plan.splits[k].inputs|
        invariant Built(g, plan, tensors, k, j)
      {
        assert SplitRunnable(g, plan, plan.splits[k]);
        var s := plan.splits[k].inputs[j];
        ghost var before := tensors;
        tensors := tensors[CopyAt(g, plan, k, j) := Duplicate(g, s)];
        tensors := tensors[DependencyAt(g, plan, k, j) := Dependency(g, s)];
        PairIsBuilt(g, plan, before, tensors, k, j);
      }
      SplitIsBuilt(g, plan, tensors, k);
    }
    AllBuilt(g, plan, tensors);
  }

  // ----- it can be planned

  /** The bytes a tensor of a layout and so many bytes takes in a buffer. */
  type SizeOf = (nat, nat, nat) -> nat

  predicate SizeRight(bufs: I.Buffers, b: nat, size: nat, nbytes: nat)
    requires bufs.Valid() && b < |bufs.tallocrOf|
  {
    nbytes <= size && 0 < size && bufs.Padded(size, b) <= D.SIZE_MAX / 2
  }

  /** Every backend has a buffer, which can hold what has the size of a tensor of the graph; tensors of
      equal layout have equal sizes. */
  ghost predicate SizesRight(p: Problem, bufs: I.Buffers, sizeOf: SizeOf) {
    && bufs.Valid() && |bufs.tallocrOf| == p.be.n
    && (forall b, t :: 0 <= b < |bufs.tallocrOf| && 0 <= t < |p.g.tensors| ==>
          SizeRight(bufs, b, sizeOf(b, p.g.tensors[t].layout, p.g.tensors[t].nbytes), p.g.tensors[t].nbytes))
    && (forall t, u :: 0 <= t < |p.g.tensors| && 0 <= u < |p.g.tensors| && p.g.tensors[t].layout == p.g.tensors[u].layout ==>
          p.g.tensors[t].nbytes == p.g.tensors[u].nbytes)
  }

  function SizeIn(tensors: seq<Tensor>, sizeOf: SizeOf, b: nat, t: nat): nat {
    if t < |tensors| then sizeOf(b, tensors[t].layout, tensors[t].nbytes) else 0
  }

  function JobOf(h: Graph, sizeOf: SizeOf, nodeBuffer: seq<nat>, leafBuffer: seq<nat>): I.Job {
    I.Job(h, (b: nat, t: nat) => SizeIn(h.tensors, sizeOf, b, t), nodeBuffer, leafBuffer)
  }

  /** A tensor of the copied graph is laid out as one of the graph is, if it needs memory. */
  lemma LaidOutAs(g: Graph, plan: Plan, t: nat) returns (s: nat)
    requires Runnable(g, plan) && plan.splits != [] && t < |GraphCopy(g, plan).tensors|
    requires t < |g.tensors| || IsCopy(g, plan.copies, t) || GraphCopy(g, plan).Owned(t)
    ensures s < |g.tensors|
    ensures GraphCopy(g, plan).tensors[t].layout == g.tensors[s].layout && GraphCopy(g, plan).tensors[t].nbytes == g.tensors[s].nbytes
  {
    if t < |g.tensors| {
      OriginalTensor(g, plan, t);
      s := t;
    } else {
      OtherTensor(g, plan, t);
      var c := if t < plan.total then t else t - (plan.total - |g.tensors|);
      s := OriginalOf(g, plan.copies, c);
    }
  }

  /** What a node of the graph reads is a tensor of the graph or a copy. */
  lemma SourceOfNode(p: Problem, ids: Ids, plan: Plan, n: nat, s: nat)
    requires Planned(p, ids, plan) && n in p.g.nodes && s in plan.src[n]
    ensures s < |p.g.tensors| || IsCopy(p.g, plan.copies, s)
  {
    var m :| 0 <= m < |p.g.nodes| && p.g.nodes[m] == n;
    var j :| 0 <= j < |plan.src[n]| && plan.src[n][j] == s;
    PlannedIsLaid(p, ids, plan);
    var k := SplitOf(p.g, plan, m, |plan.splits| - 1);
    NodeIsRight(p, ids, plan, k, m);
    if !p.IsViewNode(n) {
      assert SourceRight(p, ids, plan, m, k, j);
    }
  }

  lemma SizesHold(p: Problem, ids: Ids, plan: Plan, bufs: I.Buffers, sizeOf: SizeOf, job: I.Job, b: nat, t: nat)
    requires Planned(p, ids, plan) && Laid(p.g, plan) && SizesRight(p, bufs, sizeOf)
    requires job == JobOf(GraphCopy(p.g, plan), sizeOf, job.nodeBuffer, job.leafBuffer)
    requires b < |bufs.tallocrOf| && t < |job.g.tensors| && job.g.Owned(t)
    ensures SizeRight(bufs, b, job.size(b, t), job.g.tensors[t].nbytes)
  {
    var s := LaidOutAs(p.g, plan, t);
  }

  lemma ReuseFits(p: Problem, ids: Ids, plan: Plan, bufs: I.Buffers, sizeOf: SizeOf, job: I.Job, b: nat, n: nat, t: nat)
    requires Planned(p, ids, plan) && Laid(p.g, plan) && SizesRight(p, bufs, sizeOf)
    requires job == JobOf(GraphCopy(p.g, plan), sizeOf, job.nodeBuffer, job.leafBuffer) && job.g.ValidIds()
    requires b < |bufs.tallocrOf| && n in job.g.nodes && I.MayReuse(job.g, n, t)
    ensures job.size(b, n) <= job.size(b, t)
  {
    if n < |p.g.tensors| {
      OriginalTensor(p.g, plan, n);
      NodesOfCopy(p.g, plan);
      SourceOfNode(p, ids, plan, n, t);
      var s := LaidOutAs(p.g, plan, t);
      assert p.g.tensors[n].nbytes == p.g.tensors[s].nbytes;
    } else {
      OtherTensor(p.g, plan, n);
    }
  }

  lemma KnownHasBackend(p: Problem, ids: Ids, t: nat)
    requires Schedulable(p) && Assigned(p, ids) && t < |ids| && Known(p.g, t)
    ensures 0 <= ids[t] < p.be.n
  {
    if t in p.g.nodes {
      var i :| 0 <= i < |p.g.nodes| && p.g.nodes[i] == t;
      assert ids[p.g.nodes[i]] != -1;
    } else {
      var i :| 0 <= i < |p.g.leafs| && p.g.leafs[i] == t;
      assert ids[p.g.leafs[i]] != -1;
    }
  }

  lemma InputHasBackend(p: Problem, ids: Ids, plan: Plan, k: nat, j: nat, n: nat, b: int)
    requires Planned(p, ids, plan) && Assigned(p, ids) && Runnable(p.g, plan) && |ids| == |p.g.tensors|
    requires InputEntry(p.g, plan, n, k, j) && InputBackend(p.g, ids, plan, n, k, j, b)
    ensures 0 <= b < p.be.n
  {
    var s := plan.splits[k].inputs[j];
    assert s in plan.splits[k].inputs;
    assert InputRight(p, ids, plan, plan.splits[k], s);
    var i, at := ReaderOf(p.g, s);
    assert Known(p.g, s);
    KnownHasBackend(p, ids, s);
  }

  /** Every node of the copied graph is wanted in the buffer of a backend. */
  lemma NodesHaveBackends(p: Problem, ids: Ids, plan: Plan, backends: seq<int>)
    requires Planned(p, ids, plan) && Laid(p.g, plan) && Assigned(p, ids) && AllBacked(p.g, ids, plan, AllNodes(p.g, plan), backends)
    ensures forall i :: 0 <= i < |backends| ==> 0 <= backends[i] < p.be.n
  {
    var g := p.g;
    AllEntered(g, plan);
    forall i | 0 <= i < |backends| ensures 0 <= backends[i] < p.be.n {
      var n := AllNodes(g, plan)[i];
      assert n in AllNodes(g, plan);
      assert BackendFor(g, ids, plan, n, backends[i]);
      assert Entry(g, plan, n, |g.nodes|, |plan.splits|, 0);
      if k: nat, j: nat :| InputEntry(g, plan, n, k, j) && Sooner(k, j, |plan.splits|, 0) {
        InputHasBackend(p, ids, plan, k, j, n, backends[i]);
      } else {
        KnownHasBackend(p, ids, n);
      }
    }
  }

  /** The copied graph, with the buffers listed for it, is one the memory planner can take. */
  lemma CopyIsValidJob(p: Problem, ids: Ids, plan: Plan, bufs: I.Buffers, sizeOf: SizeOf, job: I.Job)
    requires Planned(p, ids, plan) && Assigned(p, ids) && SizesRight(p, bufs, sizeOf) && Laid(p.g, plan)
    requires job == JobOf(GraphCopy(p.g, plan), sizeOf, job.nodeBuffer, job.leafBuffer)
    requires AllBacked(p.g, ids, plan, AllNodes(p.g, plan), job.nodeBuffer)
    requires |job.leafBuffer| == |p.g.leafs| && forall i :: 0 <= i < |p.g.leafs| ==> job.leafBuffer[i] == ids[p.g.leafs[i]]
    ensures I.ValidJob(bufs, job)
  {
    GraphCopyWellFormed(p, ids, plan);
    NodesHaveBackends(p, ids, plan, job.nodeBuffer);
    forall i | 0 <= i < |job.leafBuffer| ensures job.leafBuffer[i] < |bufs.tallocrOf| {
      KnownHasBackend(p, ids, p.g.leafs[i]);
    }
    forall b, t | 0 <= b < |bufs.tallocrOf| && 0 <= t < |job.g.tensors| && job.g.Owned(t)
      ensures job.g.tensors[t].nbytes <= job.size(b, t) && 0 < job.size(b, t) && bufs.Padded(job.size(b, t), b) <= D.SIZE_MAX / 2
    {
      SizesHold(p, ids, plan, bufs, sizeOf, job, b, t);
    }
    forall b, n, t | 0 <= b < |bufs.tallocrOf| && n in job.g.nodes && I.MayReuse(job.g, n, t)
      ensures job.size(b, n) <= job.size(b, t)
    {
      ReuseFits(p, ids, plan, bufs, sizeOf, job, b, n, t);
    }
  }

  // ----- all of it

  /** For any operations, and whatever memory holds at first besides the inputs and weights: with the
      splits run in this memory each node of the graph holds, right after it has run, the value that
      running the graph gives it, and every output does at the end. */
  ghost predicate ComesOutRight(p: Problem, ids: Ids, plan: Plan, place: P.Plan) {
    forall compute: Compute, look: Look, init: Store, m: P.Machine, junk: nat -> P.Memory ::
      RightIn(Scene(p, ids, plan, compute, look, init), place, m, junk)
  }

  ghost predicate RightIn(x: Scene, place: P.Plan, m: P.Machine, junk: nat -> P.Memory) {
    Filled(x, place, m) ==> Loaded(x, place, m) && NodesRightIn(x, place, m, junk) && OutputsRightIn(x, place, m, junk)
  }

  /** Memory holds the inputs and weights; nothing is asked of the rest. */
  ghost predicate Filled(x: Scene, place: P.Plan, m: P.Machine) {
    && Laid(x.p.g, x.plan) && x.Copied().ValidIds() && |place| == |m.ext| == |x.Copied().tensors|
    && P.Loaded(x.Copied(), place, m, x.init)
  }

  lemma FilledIsLoaded(x: Scene, place: P.Plan, m: P.Machine)
    requires Planned(x.p, x.ids, x.plan) && Filled(x, place, m) && P.SafePlan(x.Copied(), place)
    ensures Loaded(x, place, m)
  {
    GraphCopyWellFormed(x.p, x.ids, x.plan);
    PlannedWritesNoView(x.p, x.ids, x.plan);
  }

  ghost predicate NodesRightIn(x: Scene, place: P.Plan, m: P.Machine, junk: nat -> P.Memory)
    requires Loaded(x, place, m)
  {
    forall k, i :: 0 <= k < |x.plan.splits| && x.plan.splits[k].start <= i < x.plan.splits[k].end ==> NodeRightIn(x, place, m, junk, k, i)
  }

  ghost predicate NodeRightIn(x: Scene, place: P.Plan, m: P.Machine, junk: nat -> P.Memory, k: nat, i: nat)
    requires Loaded(x, place, m) && k < |x.plan.splits| && x.plan.splits[k].start <= i < x.plan.splits[k].end
  {
    && i < |x.p.g.nodes| && AtNodes(x.p.g, x.plan, k, i + 1) <= x.Copied().nodes
    && var n := x.p.g.nodes[i];
       x.p.g.Writes(n) ==>
         P.Read(x.Copied(), place, CopyingRun(x, place, m, junk, |AtNodes(x.p.g, x.plan, k, i + 1)|), n)
         == RunGraph(x.p.g, x.compute, x.look, x.Whole(), i + 1)[n]
  }

  ghost predicate OutputsRightIn(x: Scene, place: P.Plan, m: P.Machine, junk: nat -> P.Memory)
    requires Loaded(x, place, m)
  {
    forall t :: 0 <= t < |x.p.g.tensors| && x.p.g.tensors[t].isOutput && P.Placed(x.Copied(), t) ==>
      P.Read(x.Copied(), place, CopyingRun(x, place, m, junk, |x.Copied().nodes|), t)
      == RunGraph(x.p.g, x.compute, x.look, x.Whole(), |x.p.g.nodes|)[t]
  }

  lemma SceneComesOutRight(x: Scene, place: P.Plan, m: P.Machine, junk: nat -> P.Memory)
    requires Loaded(x, place, m)
    ensures NodesRightIn(x, place, m, junk) && OutputsRightIn(x, place, m, junk)
  {
    forall k: nat, i: nat | k < |x.plan.splits| && x.plan.splits[k].start <= i < x.plan.splits[k].end
      ensures NodeRightIn(x, place, m, junk, k, i)
    {
      EveryNodeInPlannedMemory(x, place, m, junk, k, i);
    }
    forall t: nat | t < |x.p.g.tensors| && x.p.g.tensors[t].isOutput && P.Placed(x.Copied(), t)
      ensures P.Read(x.Copied(), place, CopyingRun(x, place, m, junk, |x.Copied().nodes|), t)
           == RunGraph(x.p.g, x.compute, x.look, x.Whole(), |x.p.g.nodes|)[t]
    {
      OutputsInPlannedMemory(x, place, m, junk, t);
    }
  }

  lemma AllScenesComeOutRight(p: Problem, ids: Ids, plan: Plan, place: P.Plan)
    requires Planned(p, ids, plan) && Laid(p.g, plan) && GraphCopy(p.g, plan).ValidIds() && P.SafePlan(GraphCopy(p.g, plan), place)
    ensures ComesOutRight(p, ids, plan, place)
  {
    forall compute: Compute, look: Look, init: Store, m: P.Machine, junk: nat -> P.Memory
      ensures RightIn(Scene(p, ids, plan, compute, look, init), place, m, junk)
    {
      FilledIsRight(Scene(p, ids, plan, compute, look, init), place, m, junk);
    }
  }

  lemma FilledIsRight(x: Scene, place: P.Plan, m: P.Machine, junk: nat -> P.Memory)
    requires Planned(x.p, x.ids, x.plan) && Laid(x.p.g, x.plan) && x.Copied().ValidIds() && P.SafePlan(x.Copied(), place)
    ensures RightIn(x, place, m, junk)
  {
    if Filled(x, place, m) {
      FilledIsLoaded(x, place, m);
      SceneComesOutRight(x, place, m, junk);
    }
  }

  /** The graph with copies, and the buffers its nodes and leafs are wanted in. */
  method CopyGraph(p: Problem, ids: Ids, plan: Plan, ghost bufs: I.Buffers, sizeOf: SizeOf) returns (job: I.Job)
    requires Planned(p, ids, plan) && Assigned(p, ids) && SizesRight(p, bufs, sizeOf)
    ensures Laid(p.g, plan) && job.g == GraphCopy(p.g, plan) && I.ValidJob(bufs, job)
  {
    PlannedIsLaid(p, ids, plan);
    var tensors := CopyTensors(p.g, plan);
    var nodes, backends := ListNodes(p, ids, plan);
    NodesHaveBackends(p, ids, plan, backends);
    LeafsHaveBackends(p, ids);
    var nodeBuffer: seq<nat> := backends;
    var leafBuffer: seq<nat> := seq(|p.g.leafs|, i requires 0 <= i < |p.g.leafs| && p.g.leafs[i] < |ids| && ids[p.g.leafs[i]] >= 0 => ids[p.g.leafs[i]]);
    job := JobOf(Graph(tensors, nodes, p.g.leafs), sizeOf, nodeBuffer, leafBuffer);
    CopyIsValidJob(p, ids, plan, bufs, sizeOf, job);
  }

  lemma LeafsHaveBackends(p: Problem, ids: Ids)
    requires Schedulable(p) && Assigned(p, ids)
    ensures forall i :: 0 <= i < |p.g.leafs| ==> p.g.leafs[i] < |ids| && 0 <= ids[p.g.leafs[i]] < p.be.n
  {
    forall i | 0 <= i < |p.g.leafs| ensures p.g.leafs[i] < |ids| && 0 <= ids[p.g.leafs[i]] < p.be.n {
      KnownHasBackend(p, ids, p.g.leafs[i]);
    }
  }

  /** The hash table has a safe plan for the graph with copies, in which the graph comes out right. */
  ghost predicate PlannedFor(p: Problem, ids: Ids, plan: Plan, job: I.Job, bufs: I.Buffers, hash: seq<I.HashNode>) {
    && Laid(p.g, plan) && job.g == GraphCopy(p.g, plan) && I.ValidJob(bufs, job) && |hash| == |job.g.tensors|
    && P.SafePlan(job.g, I.PlanFrom(bufs, job, hash)) && ComesOutRight(p, ids, plan, I.PlanFrom(bufs, job, hash))
  }

  /** The planner has a buffer for each backend, and has handed out nothing yet. */
  ghost predicate Fresh(p: Problem, sizeOf: SizeOf, planner: GraphPlanner.Gallocr)
    reads planner, planner.Repr
  {
    planner.Valid() && SizesRight(p, planner.bufs, sizeOf) && forall a :: 0 <= a < |planner.live| ==> planner.live[a] == {}
  }

  /** Memory for a schedule. */
  method PlanSchedule(p: Problem, ids: Ids, plan: Plan, sizeOf: SizeOf, planner: GraphPlanner.Gallocr) returns (ok: bool, job: I.Job)
    requires Planned(p, ids, plan) && Assigned(p, ids)
    requires Fresh(p, sizeOf, planner)
    modifies planner.Repr
    ensures planner.Valid() && (ok || planner.Exhausted())
    ensures ok ==> PlannedFor(p, ids, plan, job, planner.bufs, planner.hash)
  {
    job := CopyGraph(p, ids, plan, planner.bufs, sizeOf);
    ok := planner.AllocGraphImpl(job);
    if ok {
      AllScenesComeOutRight(p, ids, plan, I.PlanFrom(planner.bufs, job, planner.hash));
    }
  }

  /** What the five passes give. */
  ghost predicate Scheduled(p: Problem, ids: Ids, plan: Plan, stale: int) {
    Planned(p, ids, plan) && Assigned(p, ids) && 0 <= stale < p.be.n && ScheduleOf(p, ids, plan, stale)
  }

  /** Why they may fail. */
  ghost predicate NoSchedule(p: Problem, plan: Plan) {
    p.Valid() && ((exists t :: Known(p.g, t) && Stuck(p, t)) || (plan.splits != [] && |Last(plan).inputs| >= MAX_SPLIT_INPUTS))
  }

  method FivePasses(p: Problem, stale: int) returns (ok: bool, ids: Ids, plan: Plan)
    requires Schedulable(p) && ViewedKept(p) && 0 <= stale < p.be.n
    ensures if ok then Scheduled(p, ids, plan, stale) else NoSchedule(p, plan)
  {
    ok, ids, plan := Schedule(p, stale);
  }

  /** From a graph to memory for it: the five passes, the graph with copies, and the memory planner. Unless
      no backend can run a tensor in its memory, a split has too many inputs, or an allocator is
      exhausted, the graph comes out right in the memory planned, for any operations. */
  method ScheduleAndPlan(p: Problem, stale: int, sizeOf: SizeOf, planner: GraphPlanner.Gallocr)
    returns (ok: bool, ids: Ids, plan: Plan, job: I.Job)
    requires Schedulable(p) && ViewedKept(p) && 0 <= stale < p.be.n
    requires Fresh(p, sizeOf, planner)
    modifies planner.Repr
    ensures planner.Valid()
    ensures ok ==> Scheduled(p, ids, plan, stale) && PlannedFor(p, ids, plan, job, planner.bufs, planner.hash)
    ensures !ok ==> NoSchedule(p, plan) || planner.Exhausted()
  {
    ok, ids, plan := FivePasses(p, stale);
    job := JobOf(Graph([], [], []), sizeOf, [], []);
    if ok {
      ok, job := PlanSchedule(p, ids, plan, sizeOf, planner);
    }
  }
}
