/** The graph the scheduler hands to the memory planner: the nodes of all splits in order, and before
    each split a dependency on every input and the copy of it. Run in memory planned for that graph,
    with the copies made from that memory, the splits compute what the original graph does. */
module SchedMemory {
  import opened Wrappers
  import opened TensorGraph
  import opened SchedAssign
  import opened SchedSplit
  import opened SchedRun
  import P = PlannedMemory

  // ----- the graph with copies

  ghost predicate IsCopy(g: Graph, copies: Copies, c: nat) {
    exists o: (nat, int) :: o in copies && copies[o] == c && o.0 < |g.tensors|
  }

  /** The tensor that copy c is a copy of. */
  ghost function OriginalOf(g: Graph, copies: Copies, c: nat): (s: nat)
    requires IsCopy(g, copies, c)
    ensures s < |g.tensors|
  {
    var o: (nat, int) :| o in copies && copies[o] == c && o.0 < |g.tensors|;
    o.0
  }

  /** A tensor that nothing uses. */
  const UNUSED := Tensor(OpNone, [], None, true, false, false, 0, 0)

  /** A tensor laid out as s, without memory yet. */
  function Duplicate(g: Graph, s: nat): Tensor
    requires s < |g.tensors|
  {
    Tensor(OpNone, [], None, false, false, false, g.tensors[s].layout, g.tensors[s].nbytes)
  }

  /** A view of s that keeps s alive until it has been copied. */
  function Dependency(g: Graph, s: nat): Tensor
    requires s < |g.tensors|
  {
    Tensor(OpNone, [s], Some(g.Root(s)), false, false, false, g.tensors[s].layout, g.tensors[s].nbytes)
  }

  ghost function CopyTensor(g: Graph, copies: Copies, c: nat): Tensor {
    if IsCopy(g, copies, c) then Duplicate(g, OriginalOf(g, copies, c)) else UNUSED
  }

  ghost function DependencyTensor(g: Graph, copies: Copies, c: nat): Tensor {
    if IsCopy(g, copies, c) then Dependency(g, OriginalOf(g, copies, c)) else UNUSED
  }

  /** The tensors of the graph with their rewritten sources, the copies, and a dependency for each. */
  ghost function AllTensors(g: Graph, plan: Plan): (r: seq<Tensor>)
    requires SameCounts(g, plan.src) && |g.tensors| <= plan.total
    ensures |r| == 2 * plan.total - |g.tensors|
  {
    var n := |g.tensors|;
    seq(2 * plan.total - n, t requires 0 <= t < 2 * plan.total - n =>
      if t < n then g.tensors[t].(src := plan.src[t])
      else if t < plan.total then CopyTensor(g, plan.copies, t)
      else DependencyTensor(g, plan.copies, t - (plan.total - n)))
  }

  /** The copy of input j of split k. */
  function CopyAt(g: Graph, plan: Plan, k: nat, j: nat): (c: nat)
    requires Runnable(g, plan) && k < |plan.splits| && j < |plan.splits[k].inputs|
    ensures |g.tensors| <= c < plan.total
  {
    assert SplitRunnable(g, plan, plan.splits[k]);
    plan.copies[(plan.splits[k].inputs[j], plan.splits[k].backend)]
  }

  /** The dependency on input j of split k. */
  function DependencyAt(g: Graph, plan: Plan, k: nat, j: nat): (d: nat)
    requires Runnable(g, plan) && k < |plan.splits| && j < |plan.splits[k].inputs|
    ensures plan.total <= d < 2 * plan.total - |g.tensors|
  {
    CopyAt(g, plan, k, j) + (plan.total - |g.tensors|)
  }

  /** The nodes up to the first j inputs of split k. */
  function AtInputs(g: Graph, plan: Plan, k: nat, j: nat): seq<nat>
    requires Runnable(g, plan) && k < |plan.splits| && j <= |plan.splits[k].inputs|
    decreases k, 0, j
  {
    if j > 0 then AtInputs(g, plan, k, j - 1) + [DependencyAt(g, plan, k, j - 1), CopyAt(g, plan, k, j - 1)]
    else if k == 0 then []
    else
      assert SplitRunnable(g, plan, plan.splits[k - 1]);
      AtNodes(g, plan, k - 1, plan.splits[k - 1].end)
  }

  /** The nodes up to those of split k that come before node m. */
  function AtNodes(g: Graph, plan: Plan, k: nat, m: nat): seq<nat>
    requires Runnable(g, plan) && k < |plan.splits| && plan.splits[k].start <= m <= plan.splits[k].end
    decreases k, 1, m
  {
    assert SplitRunnable(g, plan, plan.splits[k]);
    if m == plan.splits[k].start then AtInputs(g, plan, k, |plan.splits[k].inputs|)
    else AtNodes(g, plan, k, m - 1) + [g.nodes[m - 1]]
  }

  function AllNodes(g: Graph, plan: Plan): seq<nat>
    requires Runnable(g, plan) && plan.splits != []
  {
    var last := |plan.splits| - 1;
    assert SplitRunnable(g, plan, plan.splits[last]);
    AtNodes(g, plan, last, plan.splits[last].end)
  }

  ghost function GraphCopy(g: Graph, plan: Plan): Graph
    requires Runnable(g, plan) && plan.splits != []
  {
    Graph(AllTensors(g, plan), AllNodes(g, plan), g.leafs)
  }

  // ----- what is where

  lemma OriginalOfCopy(g: Graph, plan: Plan, k: nat, j: nat)
    requires Runnable(g, plan) && k < |plan.splits| && j < |plan.splits[k].inputs|
    ensures IsCopy(g, plan.copies, CopyAt(g, plan, k, j))
    ensures OriginalOf(g, plan.copies, CopyAt(g, plan, k, j)) == plan.splits[k].inputs[j] < |g.tensors|
    ensures plan.splits != [] && AllTensors(g, plan)[CopyAt(g, plan, k, j)] == Duplicate(g, plan.splits[k].inputs[j])
    ensures AllTensors(g, plan)[DependencyAt(g, plan, k, j)] == Dependency(g, plan.splits[k].inputs[j])
  {
    assert SplitRunnable(g, plan, plan.splits[k]);
    var o: (nat, int) := (plan.splits[k].inputs[j], plan.splits[k].backend);
    assert o in plan.copies;
    assert IsCopy(g, plan.copies, plan.copies[o]);
    var d := DependencyAt(g, plan, k, j);
    assert AllTensors(g, plan)[d] == DependencyTensor(g, plan.copies, d - (plan.total - |g.tensors|));
    assert d - (plan.total - |g.tensors|) == CopyAt(g, plan, k, j);
  }

  /** Input j of split k comes before input b of split a. */
  predicate Sooner(k: nat, j: nat, a: nat, b: nat) {
    k < a || (k == a && j < b)
  }

  /** t is one of the first m nodes of the graph, or belongs to an input before input b of split a. */
  ghost predicate Entry(g: Graph, plan: Plan, t: nat, m: nat, a: nat, b: nat)
    requires Runnable(g, plan) && m <= |g.nodes|
  {
    (exists x :: 0 <= x < m && t == g.nodes[x]) || (exists k, j :: InputEntry(g, plan, t, k, j) && Sooner(k, j, a, b))
  }

  predicate InputEntry(g: Graph, plan: Plan, t: nat, k: nat, j: nat)
    requires Runnable(g, plan)
  {
    k < |plan.splits| && j < |plan.splits[k].inputs| && (t == CopyAt(g, plan, k, j) || t == DependencyAt(g, plan, k, j))
  }

  ghost predicate AllEntries(g: Graph, plan: Plan, ts: seq<nat>, m: nat, a: nat, b: nat)
    requires Runnable(g, plan) && m <= |g.nodes|
  {
    forall t :: t in ts <==> Entry(g, plan, t, m, a, b)
  }

  predicate NoRepeats(ts: seq<nat>) {
    forall i, j :: 0 <= i < j < |ts| ==> ts[i] != ts[j]
  }

  /** The shape of a plan for the whole graph that lists no input twice. */
  ghost predicate Laid(g: Graph, plan: Plan) {
    && Runnable(g, plan) && InARow(plan.splits, |g.nodes|) && ListedOnce(plan.splits)
    && plan.splits[|plan.splits| - 1].end == |g.nodes| && NoRepeats(g.nodes)
  }

  lemma SameCopySameInput(g: Graph, plan: Plan, k: nat, j: nat, a: nat, b: nat)
    requires Laid(g, plan) && k < |plan.splits| && j < |plan.splits[k].inputs| && a < |plan.splits| && b < |plan.splits[a].inputs|
    requires CopyAt(g, plan, k, j) == CopyAt(g, plan, a, b)
    ensures k == a && j == b
  {
    assert SplitRunnable(g, plan, plan.splits[k]) && SplitRunnable(g, plan, plan.splits[a]);
    assert SameInput(plan.splits, k, j, a, b);
  }

  lemma EntriesAfterInput(g: Graph, plan: Plan, ts: seq<nat>, m: nat, k: nat, j: nat)
    requires Laid(g, plan) && m <= |g.nodes| && k < |plan.splits| && j < |plan.splits[k].inputs|
    requires AllEntries(g, plan, ts, m, k, j) && NoRepeats(ts)
    ensures var now := ts + [DependencyAt(g, plan, k, j), CopyAt(g, plan, k, j)];
            AllEntries(g, plan, now, m, k, j + 1) && NoRepeats(now)
  {
    var d, c := DependencyAt(g, plan, k, j), CopyAt(g, plan, k, j);
    forall a, b | InputEntry(g, plan, d, a, b) || InputEntry(g, plan, c, a, b) ensures a == k && b == j {
      SameCopySameInput(g, plan, a, b, k, j);
    }
    assert d !in ts && c !in ts;
    assert InputEntry(g, plan, d, k, j) && InputEntry(g, plan, c, k, j);
    var now := ts + [d, c];
    forall t ensures t in now <==> Entry(g, plan, t, m, k, j + 1) {
      if t in ts {
        assert Entry(g, plan, t, m, k, j);
      }
    }
  }

  lemma EntriesAfterNode(g: Graph, plan: Plan, ts: seq<nat>, m: nat, k: nat, j: nat)
    requires Laid(g, plan) && m < |g.nodes| && AllEntries(g, plan, ts, m, k, j) && NoRepeats(ts)
    ensures AllEntries(g, plan, ts + [g.nodes[m]], m + 1, k, j) && NoRepeats(ts + [g.nodes[m]])
  {
    assert g.nodes[m] !in ts;
    forall t ensures t in ts + [g.nodes[m]] <==> Entry(g, plan, t, m + 1, k, j) {
      assert t in ts <==> Entry(g, plan, t, m, k, j);
    }
  }

  lemma EntriesOfNextSplit(g: Graph, plan: Plan, ts: seq<nat>, m: nat, k: nat)
    requires Laid(g, plan) && m <= |g.nodes| && k < |plan.splits|
    requires AllEntries(g, plan, ts, m, k, |plan.splits[k].inputs|)
    ensures AllEntries(g, plan, ts, m, k + 1, 0)
  {
    forall t ensures t in ts <==> Entry(g, plan, t, m, k + 1, 0) {
      assert t in ts <==> Entry(g, plan, t, m, k, |plan.splits[k].inputs|);
    }
  }

  lemma {:induction false} InputsEntered(g: Graph, plan: Plan, k: nat, j: nat)
    requires Laid(g, plan) && k < |plan.splits| && j <= |plan.splits[k].inputs|
    ensures plan.splits[k].start <= |g.nodes|
    ensures AllEntries(g, plan, AtInputs(g, plan, k, j), plan.splits[k].start, k, j) && NoRepeats(AtInputs(g, plan, k, j))
    decreases k, 0, j
  {
    assert SplitRunnable(g, plan, plan.splits[k]);
    if j > 0 {
      InputsEntered(g, plan, k, j - 1);
      EntriesAfterInput(g, plan, AtInputs(g, plan, k, j - 1), plan.splits[k].start, k, j - 1);
    } else if k > 0 {
      assert SplitRunnable(g, plan, plan.splits[k - 1]);
      NodesEntered(g, plan, k - 1, plan.splits[k - 1].end);
      EntriesOfNextSplit(g, plan, AtInputs(g, plan, k, 0), plan.splits[k].start, k - 1);
    }
  }

  lemma {:induction false} NodesEntered(g: Graph, plan: Plan, k: nat, m: nat)
    requires Laid(g, plan) && k < |plan.splits| && plan.splits[k].start <= m <= plan.splits[k].end
    ensures m <= |g.nodes|
    ensures AllEntries(g, plan, AtNodes(g, plan, k, m), m, k, |plan.splits[k].inputs|) && NoRepeats(AtNodes(g, plan, k, m))
    decreases k, 1, m
  {
    assert SplitRunnable(g, plan, plan.splits[k]);
    if m == plan.splits[k].start {
      InputsEntered(g, plan, k, |plan.splits[k].inputs|);
    } else {
      NodesEntered(g, plan, k, m - 1);
      EntriesAfterNode(g, plan, AtNodes(g, plan, k, m - 1), m - 1, k, |plan.splits[k].inputs|);
    }
  }

  // ----- the graph with copies is in order

  /** r is there by the time the tensors in before have run. */
  ghost predicate RootThere(h: Graph, before: seq<nat>, r: nat)
    requires h.ValidIds() && r < |h.tensors|
  {
    && (r in h.nodes ==> r in before)
    && (h.tensors[r].external || h.Initial(r) || r in h.nodes)
  }

  ghost predicate SourceThere(h: Graph, before: seq<nat>, s: nat)
    requires h.ValidIds() && s < |h.tensors|
  {
    && (h.Computes(s) && s in h.nodes ==> s in before)
    && RootThere(h, before, h.Root(s))
    && (h.IsView(s) && !h.tensors[h.Root(s)].external ==> s in h.nodes && !h.tensors[s].op.OpNone?)
  }

  ghost predicate SourcesThere(h: Graph, before: seq<nat>, n: nat)
    requires h.ValidIds() && n < |h.tensors|
  {
    && (forall j :: 0 <= j < |h.tensors[n].src| ==> SourceThere(h, before, h.tensors[n].src[j]))
    && !(h.IsView(n) && h.Computes(n))
  }

  /** Every tensor of the list finds its sources there. */
  ghost predicate InOrder(h: Graph, ts: seq<nat>)
    requires h.ValidIds() && forall i :: 0 <= i < |ts| ==> ts[i] < |h.tensors|
  {
    forall i :: 0 <= i < |ts| ==> SourcesThere(h, ts[..i], ts[i])
  }

  lemma OneMoreInOrder(h: Graph, ts: seq<nat>, n: nat)
    requires h.ValidIds() && n < |h.tensors| && (forall i :: 0 <= i < |ts| ==> ts[i] < |h.tensors|)
    requires InOrder(h, ts) && SourcesThere(h, ts, n)
    ensures InOrder(h, ts + [n])
  {
    var now := ts + [n];
    forall i | 0 <= i < |now| ensures SourcesThere(h, now[..i], now[i]) {
      assert now[..i] == ts[..i];
    }
  }

  lemma ThereIsReady(h: Graph, i: nat, s: nat)
    requires h.ValidIds() && NoRepeats(h.nodes) && i < |h.nodes| && s < |h.tensors| && SourceThere(h, h.nodes[..i], s)
    ensures h.SourceReady(s, i)
  {
    forall r, k | r in h.nodes[..i] && 0 <= k < |h.nodes| && h.nodes[k] == r ensures k < i {
      var x :| 0 <= x < i && h.nodes[x] == r;
    }
  }

  lemma InOrderIsReady(h: Graph, i: nat)
    requires h.ValidIds() && NoRepeats(h.nodes) && InOrder(h, h.nodes) && i < |h.nodes|
    ensures h.NodeReady(i)
  {
    var n := h.nodes[i];
    assert SourcesThere(h, h.nodes[..i], n);
    forall j | 0 <= j < |h.tensors[n].src| ensures h.SourceReady(h.tensors[n].src[j], i) {
      ThereIsReady(h, i, h.tensors[n].src[j]);
    }
  }

  /** A plan of the scheduler, with no view into a node moved out of reach of its memory. */
  ghost predicate Planned(p: Problem, ids: Ids, plan: Plan) {
    Schedulable(p) && ViewedKept(p) && ValidPlan(p, ids, plan)
  }

  lemma PlannedIsLaid(p: Problem, ids: Ids, plan: Plan)
    requires Planned(p, ids, plan)
    ensures Laid(p.g, plan)
  {
    ValidIsRunnable(p, ids, plan);
  }

  lemma AllEntered(g: Graph, plan: Plan)
    requires Laid(g, plan)
    ensures AllEntries(g, plan, AllNodes(g, plan), |g.nodes|, |plan.splits|, 0) && NoRepeats(AllNodes(g, plan))
  {
    var last := |plan.splits| - 1;
    assert SplitRunnable(g, plan, plan.splits[last]);
    NodesEntered(g, plan, last, plan.splits[last].end);
    EntriesOfNextSplit(g, plan, AllNodes(g, plan), |g.nodes|, last);
  }

  /** What the nodes of the copied graph are. */
  lemma NodesOfCopy(g: Graph, plan: Plan)
    requires Laid(g, plan)
    ensures forall t :: 0 <= t < |g.tensors| ==> (t in AllNodes(g, plan) <==> t in g.nodes)
    ensures forall k, j :: 0 <= k < |plan.splits| && 0 <= j < |plan.splits[k].inputs| ==>
              DependencyAt(g, plan, k, j) in AllNodes(g, plan) && CopyAt(g, plan, k, j) in AllNodes(g, plan)
  {
    AllEntered(g, plan);
    forall t: nat | t < |g.tensors| ensures t in AllNodes(g, plan) <==> t in g.nodes {
      assert t in AllNodes(g, plan) <==> Entry(g, plan, t, |g.nodes|, |plan.splits|, 0);
    }
    forall k: nat, j: nat | k < |plan.splits| && j < |plan.splits[k].inputs|
      ensures DependencyAt(g, plan, k, j) in AllNodes(g, plan) && CopyAt(g, plan, k, j) in AllNodes(g, plan)
    {
      assert InputEntry(g, plan, DependencyAt(g, plan, k, j), k, j) && InputEntry(g, plan, CopyAt(g, plan, k, j), k, j);
      assert Sooner(k, j, |plan.splits|, 0);
    }
  }

  /** A tensor of the graph is the same in the copied graph, but for its sources. */
  lemma OriginalTensor(g: Graph, plan: Plan, t: nat)
    requires Runnable(g, plan) && plan.splits != [] && t < |g.tensors|
    ensures var h := GraphCopy(g, plan);
            && h.tensors[t] == g.tensors[t].(src := plan.src[t])
            && h.Root(t) == g.Root(t) && h.Computes(t) == g.Computes(t) && h.Writes(t) == g.Writes(t) && h.Owned(t) == g.Owned(t)
  {
  }

  lemma OtherTensor(g: Graph, plan: Plan, t: nat)
    requires Runnable(g, plan) && |g.tensors| <= t < 2 * plan.total - |g.tensors|
    ensures var n := |g.tensors|;
            AllTensors(g, plan)[t] ==
            if t < plan.total then CopyTensor(g, plan.copies, t) else DependencyTensor(g, plan.copies, t - (plan.total - n))
  {
  }

  /** Sources and roots of a tensor of the copied graph are tensors. */
  lemma TensorHasIds(g: Graph, plan: Plan, t: nat)
    requires Runnable(g, plan) && t < |AllTensors(g, plan)|
    ensures var tensor := AllTensors(g, plan)[t];
            && (forall j :: 0 <= j < |tensor.src| ==> tensor.src[j] < plan.total)
            && (tensor.viewSrc.Some? ==> tensor.viewSrc.value < |g.tensors| && !g.IsView(tensor.viewSrc.value))
  {
    if t < |g.tensors| {
      assert AllTensors(g, plan)[t] == g.tensors[t].(src := plan.src[t]);
      assert Below(plan.src[t], plan.total);
    } else {
      OtherTensor(g, plan, t);
    }
  }

  lemma CopyHasIds(g: Graph, plan: Plan)
    requires Laid(g, plan)
    ensures GraphCopy(g, plan).ValidIds()
  {
    var h := GraphCopy(g, plan);
    AllEntered(g, plan);
    forall i | 0 <= i < |h.nodes| ensures h.nodes[i] < |h.tensors| {
      assert h.nodes[i] in h.nodes;
      assert Entry(g, plan, h.nodes[i], |g.nodes|, |plan.splits|, 0);
    }
    forall t | 0 <= t < |h.tensors|
      ensures forall j :: 0 <= j < |h.tensors[t].src| ==> h.tensors[t].src[j] < |h.tensors|
      ensures h.tensors[t].viewSrc.Some? ==> h.tensors[t].viewSrc.value < |g.tensors| && h.tensors[h.tensors[t].viewSrc.value].viewSrc.None?
    {
      TensorHasIds(g, plan, t);
    }
  }

  lemma {:induction false} SplitOf(g: Graph, plan: Plan, x: nat, k: nat) returns (at: nat)
    requires Laid(g, plan) && k < |plan.splits| && x < plan.splits[k].end
    ensures at < |plan.splits| && plan.splits[at].start <= x < plan.splits[at].end
  {
    if plan.splits[k].start <= x {
      at := k;
    } else {
      at := SplitOf(g, plan, x, k - 1);
    }
  }

  lemma NodeIsRight(p: Problem, ids: Ids, plan: Plan, k: nat, m: nat)
    requires Planned(p, ids, plan) && k < |plan.splits| && plan.splits[k].start <= m < plan.splits[k].end
    ensures m < |p.g.nodes| && NodeRight(p, ids, plan, m, k)
  {
    assert InSplit(plan.splits, m, k, |p.g.nodes|);
  }

  /** What a node read it still reads, or a copy of it, and then there is a dependency on it. */
  lemma StillSource(p: Problem, ids: Ids, plan: Plan, t: nat)
    requires Planned(p, ids, plan) && Laid(p.g, plan) && t < |p.g.tensors| && p.g.IsSource(t)
    requires GraphCopy(p.g, plan).ValidIds()
    ensures GraphCopy(p.g, plan).IsSource(t)
  {
    var g, h := p.g, GraphCopy(p.g, plan);
    NodesOfCopy(g, plan);
    var x, j := ReaderOf(g, t);
    var n := g.nodes[x];
    OriginalTensor(g, plan, n);
    var k := SplitOf(g, plan, x, |plan.splits| - 1);
    NodeIsRight(p, ids, plan, k, x);
    if plan.src[n][j] == t {
      assert n in h.nodes && t in h.tensors[n].src;
    } else {
      assert SourceRight(p, ids, plan, x, k, j);
      DependencyOn(g, plan, t, plan.splits[k].backend, k + 1);
    }
  }

  /** The copy of t that split k reads has been made, and there is a dependency on t. */
  lemma DependencyOn(g: Graph, plan: Plan, t: nat, b: int, n: nat)
    requires Laid(g, plan) && n <= |plan.splits| && t < |g.tensors| && FilledBy(plan.splits, t, b, n)
    requires GraphCopy(g, plan).ValidIds()
    ensures GraphCopy(g, plan).IsSource(t)
  {
    var h := GraphCopy(g, plan);
    NodesOfCopy(g, plan);
    var f :| 0 <= f < n && plan.splits[f].backend == b && t in plan.splits[f].inputs;
    var j :| 0 <= j < |plan.splits[f].inputs| && plan.splits[f].inputs[j] == t;
    OriginalOfCopy(g, plan, f, j);
    var d := DependencyAt(g, plan, f, j);
    assert h.tensors[d].src == [t] && d in h.nodes;
    assert t in h.tensors[d].src;
  }

  lemma StillInitial(p: Problem, ids: Ids, plan: Plan, t: nat)
    requires Planned(p, ids, plan) && Laid(p.g, plan) && t < |p.g.tensors| && p.g.Initial(t)
    requires GraphCopy(p.g, plan).ValidIds()
    ensures GraphCopy(p.g, plan).Initial(t)
  {
    NodesOfCopy(p.g, plan);
    OriginalTensor(p.g, plan, t);
    if p.g.IsSource(t) {
      StillSource(p, ids, plan, t);
    }
  }

  /** A source of the graph whose root is not written from node m on is there once the first m nodes
      have run. */
  lemma OriginalThere(p: Problem, ids: Ids, plan: Plan, ts: seq<nat>, m: nat, a: nat, b: nat, s: nat, x: nat)
    requires Planned(p, ids, plan) && Laid(p.g, plan) && GraphCopy(p.g, plan).ValidIds()
    requires m <= |p.g.nodes| && AllEntries(p.g, plan, ts, m, a, b)
    requires s < |p.g.tensors| && p.g.SourceReady(s, x) && SettledBy(p.g, s, m)
    ensures SourceThere(GraphCopy(p.g, plan), ts, s)
  {
    var g, h := p.g, GraphCopy(p.g, plan);
    var r := g.Root(s);
    NodesOfCopy(g, plan);
    OriginalTensor(g, plan, s);
    OriginalTensor(g, plan, r);
    if r in g.nodes {
      assert Entry(g, plan, r, m, a, b);
      assert r in ts;
    }
    if g.Initial(r) {
      StillInitial(p, ids, plan, r);
    }
    if s in g.nodes && g.IsView(s) {
      var y :| 0 <= y < |g.nodes| && g.nodes[y] == s;
      assert p.IsViewNode(s);
    }
  }

  lemma InputSettled(p: Problem, ids: Ids, plan: Plan, k: nat, j: nat) returns (x: nat)
    requires Planned(p, ids, plan) && k < |plan.splits| && j < |plan.splits[k].inputs|
    ensures var s := plan.splits[k].inputs[j];
            s < |p.g.tensors| && SettledBy(p.g, s, plan.splits[k].start) && p.g.SourceReady(s, x)
  {
    var s := plan.splits[k].inputs[j];
    assert InputRight(p, ids, plan, plan.splits[k], s);
    var i;
    x, i := ReaderOf(p.g, s);
    assert p.g.NodeReady(x);
  }

  /** A node that reads s. */
  lemma ReaderOf(g: Graph, s: nat) returns (x: nat, j: nat)
    requires g.ValidIds() && g.IsSource(s)
    ensures x < |g.nodes| && j < |g.tensors[g.nodes[x]].src| && g.tensors[g.nodes[x]].src[j] == s
  {
    x :| x < |g.nodes| && s in g.tensors[g.nodes[x]].src;
    j :| j < |g.tensors[g.nodes[x]].src| && g.tensors[g.nodes[x]].src[j] == s;
  }

  lemma DependencyThere(p: Problem, ids: Ids, plan: Plan, k: nat, j: nat)
    requires Planned(p, ids, plan) && Laid(p.g, plan) && GraphCopy(p.g, plan).ValidIds()
    requires k < |plan.splits| && j < |plan.splits[k].inputs|
    ensures SourcesThere(GraphCopy(p.g, plan), AtInputs(p.g, plan, k, j), DependencyAt(p.g, plan, k, j))
  {
    var s := plan.splits[k].inputs[j];
    var x := InputSettled(p, ids, plan, k, j);
    InputsEntered(p.g, plan, k, j);
    OriginalThere(p, ids, plan, AtInputs(p.g, plan, k, j), plan.splits[k].start, k, j, s, x);
    DependsOnly(p.g, plan, AtInputs(p.g, plan, k, j), k, j);
  }

  lemma DependsOnly(g: Graph, plan: Plan, ts: seq<nat>, k: nat, j: nat)
    requires Laid(g, plan) && GraphCopy(g, plan).ValidIds() && k < |plan.splits| && j < |plan.splits[k].inputs|
    requires plan.splits[k].inputs[j] < |g.tensors| && SourceThere(GraphCopy(g, plan), ts, plan.splits[k].inputs[j])
    ensures SourcesThere(GraphCopy(g, plan), ts, DependencyAt(g, plan, k, j))
  {
    OriginalOfCopy(g, plan, k, j);
  }

  lemma CopyThere(g: Graph, plan: Plan, ts: seq<nat>, k: nat, j: nat)
    requires Laid(g, plan) && GraphCopy(g, plan).ValidIds() && k < |plan.splits| && j < |plan.splits[k].inputs|
    ensures SourcesThere(GraphCopy(g, plan), ts, CopyAt(g, plan, k, j))
  {
    OriginalOfCopy(g, plan, k, j);
  }

  lemma FilledCopyThere(g: Graph, plan: Plan, ts: seq<nat>, m: nat, k: nat, s: nat, b: int)
    requires Laid(g, plan) && GraphCopy(g, plan).ValidIds() && k < |plan.splits| && m <= |g.nodes|
    requires AllEntries(g, plan, ts, m, k, |plan.splits[k].inputs|)
    requires (s, b) in plan.copies && FilledBy(plan.splits, s, b, k + 1)
    ensures plan.copies[(s, b)] < |GraphCopy(g, plan).tensors| && SourceThere(GraphCopy(g, plan), ts, plan.copies[(s, b)])
  {
    var f :| 0 <= f < k + 1 && plan.splits[f].backend == b && s in plan.splits[f].inputs;
    var j :| 0 <= j < |plan.splits[f].inputs| && plan.splits[f].inputs[j] == s;
    var c := CopyAt(g, plan, f, j);
    OriginalOfCopy(g, plan, f, j);
    NodesOfCopy(g, plan);
    assert InputEntry(g, plan, c, f, j) && Sooner(f, j, k, |plan.splits[k].inputs|);
    assert Entry(g, plan, c, m, k, |plan.splits[k].inputs|);
    assert c in ts;
  }

  lemma NodeThere(p: Problem, ids: Ids, plan: Plan, k: nat, m: nat)
    requires Planned(p, ids, plan) && Laid(p.g, plan) && GraphCopy(p.g, plan).ValidIds()
    requires k < |plan.splits| && plan.splits[k].start <= m < plan.splits[k].end
    ensures m < |p.g.nodes| && SourcesThere(GraphCopy(p.g, plan), AtNodes(p.g, plan, k, m), p.g.nodes[m])
  {
    NodeIsRight(p, ids, plan, k, m);
    NodesEntered(p.g, plan, k, m);
    var n := p.g.nodes[m];
    OriginalTensor(p.g, plan, n);
    assert p.g.NodeReady(m);
    forall j | 0 <= j < |plan.src[n]| ensures SourceThere(GraphCopy(p.g, plan), AtNodes(p.g, plan, k, m), plan.src[n][j]) {
      var s := p.g.tensors[n].src[j];
      assert p.g.SourceReady(s, m);
      if plan.src[n][j] == s {
        OriginalThere(p, ids, plan, AtNodes(p.g, plan, k, m), m, k, |plan.splits[k].inputs|, s, m);
      } else {
        assert SourceRight(p, ids, plan, m, k, j);
        FilledCopyThere(p.g, plan, AtNodes(p.g, plan, k, m), m, k, s, plan.splits[k].backend);
      }
    }
  }

  ghost predicate Ordered(g: Graph, plan: Plan, ts: seq<nat>)
    requires Runnable(g, plan) && plan.splits != []
  {
    var h := GraphCopy(g, plan);
    h.ValidIds() && (forall i :: 0 <= i < |ts| ==> ts[i] < |h.tensors|) && InOrder(h, ts)
  }

  lemma OrderedAfter(g: Graph, plan: Plan, ts: seq<nat>, n: nat)
    requires Runnable(g, plan) && plan.splits != [] && Ordered(g, plan, ts)
    requires n < |GraphCopy(g, plan).tensors| && SourcesThere(GraphCopy(g, plan), ts, n)
    ensures Ordered(g, plan, ts + [n])
  {
    OneMoreInOrder(GraphCopy(g, plan), ts, n);
  }

  lemma {:induction false} InputsInOrder(p: Problem, ids: Ids, plan: Plan, k: nat, j: nat)
    requires Planned(p, ids, plan) && Laid(p.g, plan) && GraphCopy(p.g, plan).ValidIds()
    requires k < |plan.splits| && j <= |plan.splits[k].inputs|
    ensures Ordered(p.g, plan, AtInputs(p.g, plan, k, j))
    decreases k, 0, j
  {
    assert SplitRunnable(p.g, plan, plan.splits[k]);
    if j > 0 {
      InputsInOrder(p, ids, plan, k, j - 1);
      InputInOrder(p, ids, plan, k, j - 1);
    } else if k > 0 {
      assert SplitRunnable(p.g, plan, plan.splits[k - 1]);
      NodesInOrder(p, ids, plan, k - 1, plan.splits[k - 1].end);
    }
  }

  lemma InputInOrder(p: Problem, ids: Ids, plan: Plan, k: nat, j: nat)
    requires Planned(p, ids, plan) && Laid(p.g, plan) && GraphCopy(p.g, plan).ValidIds()
    requires k < |plan.splits| && j < |plan.splits[k].inputs|
    requires Ordered(p.g, plan, AtInputs(p.g, plan, k, j))
    ensures Ordered(p.g, plan, AtInputs(p.g, plan, k, j + 1))
  {
    DependencyThere(p, ids, plan, k, j);
    PairInOrder(p.g, plan, AtInputs(p.g, plan, k, j), k, j);
  }

  lemma PairInOrder(g: Graph, plan: Plan, ts: seq<nat>, k: nat, j: nat)
    requires Laid(g, plan) && GraphCopy(g, plan).ValidIds() && k < |plan.splits| && j < |plan.splits[k].inputs|
    requires Ordered(g, plan, ts) && SourcesThere(GraphCopy(g, plan), ts, DependencyAt(g, plan, k, j))
    ensures Ordered(g, plan, ts + [DependencyAt(g, plan, k, j), CopyAt(g, plan, k, j)])
  {
    var d, c := DependencyAt(g, plan, k, j), CopyAt(g, plan, k, j);
    OrderedAfter(g, plan, ts, d);
    CopyThere(g, plan, ts + [d], k, j);
    OrderedAfter(g, plan, ts + [d], c);
    assert ts + [d] + [c] == ts + [d, c];
  }

  lemma FirstInOrder(g: Graph, plan: Plan, k: nat)
    requires Laid(g, plan) && k < |plan.splits| && plan.splits[k].start <= plan.splits[k].end
    requires Ordered(g, plan, AtInputs(g, plan, k, |plan.splits[k].inputs|))
    ensures Ordered(g, plan, AtNodes(g, plan, k, plan.splits[k].start))
  {
  }

  lemma {:induction false} NodesInOrder(p: Problem, ids: Ids, plan: Plan, k: nat, m: nat)
    requires Planned(p, ids, plan) && Laid(p.g, plan) && GraphCopy(p.g, plan).ValidIds()
    requires k < |plan.splits| && plan.splits[k].start <= m <= plan.splits[k].end
    ensures Ordered(p.g, plan, AtNodes(p.g, plan, k, m))
    decreases k, 1, m
  {
    if m == plan.splits[k].start {
      InputsInOrder(p, ids, plan, k, |plan.splits[k].inputs|);
      FirstInOrder(p.g, plan, k);
    } else {
      NodesInOrder(p, ids, plan, k, m - 1);
      NextInOrder(p, ids, plan, k, m);
    }
  }

  lemma NextInOrder(p: Problem, ids: Ids, plan: Plan, k: nat, m: nat)
    requires Planned(p, ids, plan) && Laid(p.g, plan) && GraphCopy(p.g, plan).ValidIds()
    requires k < |plan.splits| && plan.splits[k].start < m <= plan.splits[k].end
    requires Ordered(p.g, plan, AtNodes(p.g, plan, k, m - 1))
    ensures Ordered(p.g, plan, AtNodes(p.g, plan, k, m))
  {
    NodeThere(p, ids, plan, k, m - 1);
    OrderedAfter(p.g, plan, AtNodes(p.g, plan, k, m - 1), p.g.nodes[m - 1]);
  }

  /** The copied graph is one the memory planner can take: everything a node uses is there before it. */
  lemma GraphCopyWellFormed(p: Problem, ids: Ids, plan: Plan)
    requires Planned(p, ids, plan)
    ensures Laid(p.g, plan) && GraphCopy(p.g, plan).WellFormed()
  {
    PlannedIsLaid(p, ids, plan);
    var h := GraphCopy(p.g, plan);
    CopyHasIds(p.g, plan);
    AllEntered(p.g, plan);
    var last := |plan.splits| - 1;
    assert SplitRunnable(p.g, plan, plan.splits[last]);
    NodesInOrder(p, ids, plan, last, plan.splits[last].end);
    forall i | 0 <= i < |h.nodes| ensures h.NodeReady(i) {
      InOrderIsReady(h, i);
    }
    TensorKinds(p.g, plan);
  }

  lemma TensorKinds(g: Graph, plan: Plan)
    requires g.WellFormed() && Runnable(g, plan) && plan.splits != []
    ensures var h := GraphCopy(g, plan);
            && (forall t :: 0 <= t < |h.tensors| && (t in h.leafs || h.tensors[t].isInput) ==> h.tensors[t].op.OpNone?)
            && (forall t :: 0 <= t < |h.tensors| && IsViewOp(h.tensors[t].op) ==> h.IsView(t))
  {
    var h := GraphCopy(g, plan);
    forall t | 0 <= t < |h.tensors|
      ensures t in h.leafs || h.tensors[t].isInput ==> h.tensors[t].op.OpNone?
      ensures IsViewOp(h.tensors[t].op) ==> h.IsView(t)
    {
      if t < |g.tensors| {
        OriginalTensor(g, plan, t);
        assert IsViewOp(g.tensors[t].op) ==> g.IsView(t);
      } else {
        OtherTensor(g, plan, t);
      }
    }
  }

  /** The splits write through no view. */
  lemma PlannedWritesNoView(p: Problem, ids: Ids, plan: Plan)
    requires Planned(p, ids, plan)
    ensures NoWriteThrough(p.g)
  {
    forall i | 0 <= i < |p.g.nodes| && p.g.Computes(p.g.nodes[i]) ensures !p.g.IsView(p.g.nodes[i]) {
      assert p.g.IsView(p.g.nodes[i]) <==> p.IsViewNode(p.g.nodes[i]);
    }
  }

  // ----- where the nodes of the copied graph are

  lemma {:induction false} InputsFirst(g: Graph, plan: Plan, k: nat, j: nat)
    requires Laid(g, plan) && k < |plan.splits| && j <= |plan.splits[k].inputs|
    ensures AtInputs(g, plan, k, j) <= AllNodes(g, plan)
    decreases |plan.splits| - k, 1, |plan.splits[k].inputs| - j
  {
    assert SplitRunnable(g, plan, plan.splits[k]);
    if j < |plan.splits[k].inputs| {
      InputsFirst(g, plan, k, j + 1);
    } else {
      NodesFirst(g, plan, k, plan.splits[k].start);
    }
  }

  lemma {:induction false} NodesFirst(g: Graph, plan: Plan, k: nat, m: nat)
    requires Laid(g, plan) && k < |plan.splits| && plan.splits[k].start <= m <= plan.splits[k].end
    ensures AtNodes(g, plan, k, m) <= AllNodes(g, plan)
    decreases |plan.splits| - k, 0, plan.splits[k].end - m
  {
    assert SplitRunnable(g, plan, plan.splits[k]);
    if m < plan.splits[k].end {
      NodesFirst(g, plan, k, m + 1);
    } else if k + 1 < |plan.splits| {
      InputsFirst(g, plan, k + 1, 0);
    }
  }

  // ----- the runs

  /** A planned graph with its operations, and what the buffers of the copied graph hold at first. */
  datatype Scene = Scene(p: Problem, ids: Ids, plan: Plan, compute: Compute, look: Look, init: Store) {

    ghost predicate Valid() {
      Planned(p, ids, plan) && Sized() && Copied().WellFormed() && StoreFor(Copied(), init)
    }

    /** What the runs themselves ask for. */
    ghost predicate Sized() {
      Laid(p.g, plan) && Copied().ValidIds() && |init| == |Copied().tensors| && NoWriteThrough(p.g)
    }

    ghost function Copied(): Graph
      requires Runnable(p.g, plan) && plan.splits != []
    {
      GraphCopy(p.g, plan)
    }

    /** What the tensors of the graph hold at first. */
    function Whole(): Store
      requires |p.g.tensors| <= |init|
    {
      init[..|p.g.tensors|]
    }

    /** The same, with the copies. */
    function WithCopies(): Store
      requires plan.total <= |init|
    {
      init[..plan.total]
    }
  }

  /** What each copy is filled with. */
  type Arrivals = nat -> Bytes

  /** What an operation sees of the buffers its sources are in. */
  function SeenThrough(g: Graph, look: Look, src: seq<nat>, roots: seq<Bytes>): (r: seq<Bytes>)
    ensures |r| == |roots|
  {
    seq(|roots|, j requires 0 <= j < |roots| =>
      if j < |src| && src[j] < |g.tensors| && g.IsView(src[j]) then Fit(look(src[j], roots[j]), g.tensors[src[j]].nbytes) else roots[j])
  }

  function KernelOf(g: Graph, plan: Plan, compute: Compute, look: Look, arrivals: Arrivals): Kernel {
    (n: nat, roots: seq<Bytes>, before: Bytes) =>
      if n < |g.tensors| && n < |plan.src| then compute(n, SeenThrough(g, look, plan.src[n], roots)) else arrivals(n)
  }

  /** The copies arrive with what their originals hold in the end. */
  ghost function FinalArrivals(x: Scene): Arrivals
    requires x.Sized()
  {
    (c: nat) =>
      if IsCopy(x.p.g, x.plan.copies, c) then
        FinalValue(x.p.g, x.compute, x.look, x.Whole(), OriginalOf(x.p.g, x.plan.copies, c))
      else []
  }

  ghost function FinalKernel(x: Scene): Kernel
    requires x.Sized()
  {
    KernelOf(x.p.g, x.plan, x.compute, x.look, FinalArrivals(x))
  }

  /** After the tensors in ts, the buffers of the graph's own tensors and of the copies are as in st. */
  ghost predicate InStep(x: Scene, ts: seq<nat>, st: Store)
    requires x.Sized()
  {
    && ts <= x.Copied().nodes
    && |st| == x.plan.total
    && Run(x.Copied(), FinalKernel(x), x.init, |ts|)[..x.plan.total] == st
  }

  lemma NextRun(x: Scene, ts: seq<nat>, n: nat)
    requires x.Sized() && ts + [n] <= x.Copied().nodes
    ensures ts <= x.Copied().nodes && n < |x.Copied().tensors|
    ensures Run(x.Copied(), FinalKernel(x), x.init, |ts + [n]|) ==
            Step(x.Copied(), FinalKernel(x), n, Run(x.Copied(), FinalKernel(x), x.init, |ts|))
  {
    assert (ts + [n])[|ts|] == n;
    assert x.Copied().nodes[|ts|] == n;
  }

  /** A dependency does nothing. */
  lemma InStepPastDependency(x: Scene, ts: seq<nat>, st: Store, k: nat, j: nat)
    requires x.Sized() && InStep(x, ts, st) && k < |x.plan.splits| && j < |x.plan.splits[k].inputs|
    requires ts + [DependencyAt(x.p.g, x.plan, k, j)] <= x.Copied().nodes
    ensures InStep(x, ts + [DependencyAt(x.p.g, x.plan, k, j)], st)
  {
    DependencyIdle(x.p.g, x.plan, k, j);
    NextRun(x, ts, DependencyAt(x.p.g, x.plan, k, j));
  }

  /** A copy is filled with what its original holds in the end. */
  lemma CopyStep(x: Scene, st: Store, k: nat, j: nat)
    requires x.Sized() && |st| == |x.Copied().tensors| && k < |x.plan.splits| && j < |x.plan.splits[k].inputs|
    ensures x.plan.splits[k].inputs[j] < |x.p.g.tensors|
    ensures var s, c := x.plan.splits[k].inputs[j], CopyAt(x.p.g, x.plan, k, j);
            Step(x.Copied(), FinalKernel(x), c, st) ==
            st[c := Fit(FinalValue(x.p.g, x.compute, x.look, x.Whole(), s), x.p.g.tensors[s].nbytes)]
  {
    var c := CopyAt(x.p.g, x.plan, k, j);
    CopyArrives(x.p.g, x.plan, k, j);
    OriginalOfCopy(x.p.g, x.plan, k, j);
    ArrivalStep(x.Copied(), FinalKernel(x), c, st);
  }

  lemma ArrivalStep(h: Graph, kernel: Kernel, c: nat, st: Store)
    requires h.ValidIds() && c < |h.tensors| == |st| && h.Arrives(c)
    ensures Step(h, kernel, c, st) == st[c := Fit(kernel(c, SourceValues(h, h.tensors[c].src, st), []), h.tensors[c].nbytes)]
  {
  }

  lemma CopyArrives(g: Graph, plan: Plan, k: nat, j: nat)
    requires Laid(g, plan) && k < |plan.splits| && j < |plan.splits[k].inputs|
    ensures GraphCopy(g, plan).Arrives(CopyAt(g, plan, k, j))
  {
    OriginalOfCopy(g, plan, k, j);
  }

  lemma InStepPastCopy(x: Scene, ts: seq<nat>, st: Store, k: nat, j: nat)
    requires x.Sized() && InStep(x, ts, st) && k < |x.plan.splits| && j < |x.plan.splits[k].inputs|
    requires ts + [CopyAt(x.p.g, x.plan, k, j)] <= x.Copied().nodes
    ensures x.plan.splits[k].inputs[j] < |x.p.g.tensors|
    ensures var s := x.plan.splits[k].inputs[j];
            var value := Fit(FinalValue(x.p.g, x.compute, x.look, x.Whole(), s), x.p.g.tensors[s].nbytes);
            InStep(x, ts + [CopyAt(x.p.g, x.plan, k, j)], st[CopyAt(x.p.g, x.plan, k, j) := value])
  {
    NextRun(x, ts, CopyAt(x.p.g, x.plan, k, j));
    CopyStep(x, Run(x.Copied(), FinalKernel(x), x.init, |ts|), k, j);
  }

  /** A node does to its buffer what it does when the splits run. */
  lemma NodeStep(x: Scene, st: Store, m: nat)
    requires x.Sized() && |st| == |x.Copied().tensors| && m < |x.p.g.nodes|
    ensures var n := x.p.g.nodes[m];
            && Below(x.plan.src[n], x.plan.total)
            && Step(x.Copied(), FinalKernel(x), n, st)[..x.plan.total] ==
               RunNode(x.p.g, x.compute, x.look, st[..x.plan.total], n, x.plan.src[n])
  {
    var g, h := x.p.g, x.Copied();
    var n := g.nodes[m];
    OriginalTensor(g, x.plan, n);
    assert Below(x.plan.src[n], x.plan.total);
    if g.Writes(n) {
      assert !g.IsView(n);
      SeenIsValue(x, st, x.plan.src[n]);
    }
  }

  lemma SeenIsValue(x: Scene, st: Store, src: seq<nat>)
    requires x.Sized() && |st| == |x.Copied().tensors| && Below(src, x.plan.total)
    ensures SeenThrough(x.p.g, x.look, src, SourceValues(x.Copied(), src, st)) == ValuesOf(x.p.g, x.look, st[..x.plan.total], src)
  {
    forall j | 0 <= j < |src|
      ensures st[x.Copied().Root(src[j])] == st[if src[j] < |x.p.g.tensors| then x.p.g.Root(src[j]) else src[j]]
    {
      RootBelow(x.p.g, x.plan, src[j]);
    }
  }

  lemma RootBelow(g: Graph, plan: Plan, t: nat)
    requires Runnable(g, plan) && plan.splits != [] && t < plan.total
    ensures GraphCopy(g, plan).Root(t) == if t < |g.tensors| then g.Root(t) else t
  {
    if t < |g.tensors| {
      OriginalTensor(g, plan, t);
    } else {
      OtherTensor(g, plan, t);
    }
  }

  lemma InStepPastNode(x: Scene, ts: seq<nat>, st: Store, m: nat)
    requires x.Sized() && InStep(x, ts, st) && m < |x.p.g.nodes| && ts + [x.p.g.nodes[m]] <= x.Copied().nodes
    ensures Below(x.plan.src[x.p.g.nodes[m]], x.plan.total)
    ensures InStep(x, ts + [x.p.g.nodes[m]], RunNode(x.p.g, x.compute, x.look, st, x.p.g.nodes[m], x.plan.src[x.p.g.nodes[m]]))
  {
    NextRun(x, ts, x.p.g.nodes[m]);
    NodeStep(x, Run(x.Copied(), FinalKernel(x), x.init, |ts|), m);
  }

  // ----- the copied graph runs as the splits do

  lemma {:induction false} RunGraphSizes(g: Graph, compute: Compute, look: Look, init: Store, k: nat)
    requires g.ValidIds() && k <= |g.nodes| && StoreFor(g, init)
    ensures StoreFor(g, RunGraph(g, compute, look, init, k))
  {
    if k > 0 {
      RunGraphSizes(g, compute, look, init, k - 1);
    }
  }

  lemma FinalSize(x: Scene, s: nat)
    requires x.Valid() && s < |x.p.g.tensors|
    ensures |FinalValue(x.p.g, x.compute, x.look, x.Whole(), s)| == x.p.g.tensors[s].nbytes
    ensures Fit(FinalValue(x.p.g, x.compute, x.look, x.Whole(), s), x.p.g.tensors[s].nbytes) == FinalValue(x.p.g, x.compute, x.look, x.Whole(), s)
  {
    forall t | 0 <= t < |x.p.g.tensors| ensures |x.init[t]| == x.p.g.tensors[t].nbytes {
      OriginalTensor(x.p.g, x.plan, t);
    }
    RunGraphSizes(x.p.g, x.compute, x.look, x.Whole(), |x.p.g.nodes|);
  }

  /** The buffers before the first k splits have run, and then j inputs of split k copied. */
  ghost function Copying(x: Scene, k: nat, j: nat): (r: Store)
    requires x.Sized() && k < |x.plan.splits| && j <= |x.plan.splits[k].inputs|
    ensures |r| == x.plan.total
  {
    CopyInputs(x.p.g, x.look, x.plan, k, RunSplits(x.p.g, x.compute, x.look, x.plan, x.WithCopies(), k), j)
  }

  /** The same once the nodes of split k before node m have run. */
  ghost function Running(x: Scene, k: nat, m: nat): (r: Store)
    requires x.Sized() && k < |x.plan.splits| && x.plan.splits[k].start <= m <= x.plan.splits[k].end
    ensures |r| == x.plan.total
  {
    assert SplitRunnable(x.p.g, x.plan, x.plan.splits[k]);
    RunNodes(x.p.g, x.compute, x.look, x.plan, Copying(x, k, |x.plan.splits[k].inputs|), x.plan.splits[k].start, m)
  }

  /** When an input is copied its original already holds what it holds in the end. */
  lemma CopiedIsFinal(x: Scene, k: nat, j: nat)
    requires x.Valid() && k < |x.plan.splits| && j < |x.plan.splits[k].inputs|
    ensures x.plan.splits[k].inputs[j] < |x.p.g.tensors|
    ensures var s := x.plan.splits[k].inputs[j];
            ValueOf(x.p.g, x.look, Copying(x, k, j), s) == FinalValue(x.p.g, x.compute, x.look, x.Whole(), s)
  {
    var g, plan := x.p.g, x.plan;
    var before := RunSplits(g, x.compute, x.look, plan, x.WithCopies(), k);
    assert SplitRunnable(g, plan, plan.splits[k]);
    SplitsKeepStep(x.p, x.ids, x.compute, x.look, plan, x.WithCopies(), x.Whole(), k);
    assert Covered(plan, k) == plan.splits[k].start;
    CopiedOnly(g, x.look, plan, k, before, j);
    InputIsFinal(x.p, x.ids, x.compute, x.look, plan, x.Whole(), Copying(x, k, j), k, plan.splits[k].inputs[j]);
  }

  lemma NextInputInStep(x: Scene, k: nat, j: nat)
    requires x.Sized() && k < |x.plan.splits| && 0 < j <= |x.plan.splits[k].inputs|
    requires InputsAreInStep(x, k, j - 1) && CopyIsFinal(x, k, j - 1)
    ensures InputsAreInStep(x, k, j)
  {
    InputsFirst(x.p.g, x.plan, k, j);
    PairInStep(x, AtInputs(x.p.g, x.plan, k, j - 1), Copying(x, k, j - 1), k, j - 1);
  }

  /** What is copied for input j of split k is what its original holds in the end. */
  ghost predicate CopyIsFinal(x: Scene, k: nat, j: nat)
    requires x.Sized() && k < |x.plan.splits| && j < |x.plan.splits[k].inputs|
  {
    var s := x.plan.splits[k].inputs[j];
    && s < |x.p.g.tensors|
    && ValueOf(x.p.g, x.look, Copying(x, k, j), s) ==
       Fit(FinalValue(x.p.g, x.compute, x.look, x.Whole(), s), x.p.g.tensors[s].nbytes)
  }

  ghost predicate CopiesAreFinal(x: Scene)
    requires x.Sized()
  {
    forall k, j :: 0 <= k < |x.plan.splits| && 0 <= j < |x.plan.splits[k].inputs| ==> CopyIsFinal(x, k, j)
  }

  lemma AllCopiesFinal(x: Scene)
    requires x.Valid()
    ensures CopiesAreFinal(x)
  {
    forall k, j | 0 <= k < |x.plan.splits| && 0 <= j < |x.plan.splits[k].inputs| ensures CopyIsFinal(x, k, j) {
      CopiedIsFinal(x, k, j);
      FinalSize(x, x.plan.splits[k].inputs[j]);
    }
  }

  lemma PairInStep(x: Scene, ts: seq<nat>, st: Store, k: nat, j: nat)
    requires x.Sized() && InStep(x, ts, st) && k < |x.plan.splits| && j < |x.plan.splits[k].inputs|
    requires ts + [DependencyAt(x.p.g, x.plan, k, j), CopyAt(x.p.g, x.plan, k, j)] <= x.Copied().nodes
    ensures x.plan.splits[k].inputs[j] < |x.p.g.tensors|
    ensures var s := x.plan.splits[k].inputs[j];
            var value := Fit(FinalValue(x.p.g, x.compute, x.look, x.Whole(), s), x.p.g.tensors[s].nbytes);
            InStep(x, ts + [DependencyAt(x.p.g, x.plan, k, j), CopyAt(x.p.g, x.plan, k, j)], st[CopyAt(x.p.g, x.plan, k, j) := value])
  {
    var d, c := DependencyAt(x.p.g, x.plan, k, j), CopyAt(x.p.g, x.plan, k, j);
    assert ts + [d, c] == ts + [d] + [c];
    assert ts + [d] <= ts + [d, c];
    InStepPastDependency(x, ts, st, k, j);
    InStepPastCopy(x, ts + [d], st, k, j);
  }

  lemma NextNodeInStep(x: Scene, k: nat, m: nat)
    requires x.Sized() && k < |x.plan.splits| && x.plan.splits[k].start < m <= x.plan.splits[k].end
    requires NodesAreInStep(x, k, m - 1)
    ensures NodesAreInStep(x, k, m)
  {
    NodeIsNext(x.p.g, x.plan, k, m);
    InStepPastNode(x, AtNodes(x.p.g, x.plan, k, m - 1), Running(x, k, m - 1), m - 1);
    RunningNext(x, k, m);
  }

  lemma NodeIsNext(g: Graph, plan: Plan, k: nat, m: nat)
    requires Laid(g, plan) && k < |plan.splits| && plan.splits[k].start < m <= plan.splits[k].end
    ensures 0 < m <= |g.nodes| && AtNodes(g, plan, k, m) == AtNodes(g, plan, k, m - 1) + [g.nodes[m - 1]]
    ensures AtNodes(g, plan, k, m) <= AllNodes(g, plan)
  {
    assert SplitRunnable(g, plan, plan.splits[k]);
    NodesFirst(g, plan, k, m);
  }

  lemma RunningNext(x: Scene, k: nat, m: nat)
    requires x.Sized() && k < |x.plan.splits| && x.plan.splits[k].start < m <= x.plan.splits[k].end
    ensures m <= |x.p.g.nodes| && Below(x.plan.src[x.p.g.nodes[m - 1]], x.plan.total)
    ensures Running(x, k, m) ==
            RunNode(x.p.g, x.compute, x.look, Running(x, k, m - 1), x.p.g.nodes[m - 1], x.plan.src[x.p.g.nodes[m - 1]])
  {
    assert SplitRunnable(x.p.g, x.plan, x.plan.splits[k]);
    assert Below(x.plan.src[x.p.g.nodes[m - 1]], x.plan.total);
  }

  ghost predicate InputsAreInStep(x: Scene, k: nat, j: nat)
    requires x.Sized() && k < |x.plan.splits| && j <= |x.plan.splits[k].inputs|
  {
    InStep(x, AtInputs(x.p.g, x.plan, k, j), Copying(x, k, j))
  }

  ghost predicate NodesAreInStep(x: Scene, k: nat, m: nat)
    requires x.Sized() && k < |x.plan.splits| && x.plan.splits[k].start <= m <= x.plan.splits[k].end
  {
    InStep(x, AtNodes(x.p.g, x.plan, k, m), Running(x, k, m))
  }

  lemma FirstNodeInStep(x: Scene, k: nat)
    requires x.Sized() && k < |x.plan.splits| && x.plan.splits[k].start <= x.plan.splits[k].end
    requires InputsAreInStep(x, k, |x.plan.splits[k].inputs|)
    ensures NodesAreInStep(x, k, x.plan.splits[k].start)
  {
  }

  lemma FirstInputInStep(x: Scene, k: nat)
    requires x.Sized() && k < |x.plan.splits|
    requires k > 0 ==> x.plan.splits[k - 1].start <= x.plan.splits[k - 1].end && NodesAreInStep(x, k - 1, x.plan.splits[k - 1].end)
    ensures InputsAreInStep(x, k, 0)
  {
    if k > 0 {
      assert SplitRunnable(x.p.g, x.plan, x.plan.splits[k - 1]);
    }
  }

  lemma {:induction false} InputsInStep(x: Scene, k: nat, j: nat)
    requires x.Sized() && CopiesAreFinal(x) && k < |x.plan.splits| && j <= |x.plan.splits[k].inputs|
    ensures InputsAreInStep(x, k, j)
    decreases k, 0, j
  {
    if j > 0 {
      InputsInStep(x, k, j - 1);
      NextInputInStep(x, k, j);
    } else {
      if k > 0 {
        SplitNotBackwards(x.p.g, x.plan, k - 1);
        NodesInStep(x, k - 1, x.plan.splits[k - 1].end);
      }
      FirstInputInStep(x, k);
    }
  }

  lemma SplitNotBackwards(g: Graph, plan: Plan, k: nat)
    requires Runnable(g, plan) && k < |plan.splits|
    ensures plan.splits[k].start <= plan.splits[k].end
  {
    assert SplitRunnable(g, plan, plan.splits[k]);
  }

  /** With one buffer a tensor, the copied graph runs as the splits do. */
  lemma {:induction false} NodesInStep(x: Scene, k: nat, m: nat)
    requires x.Sized() && CopiesAreFinal(x) && k < |x.plan.splits| && x.plan.splits[k].start <= m <= x.plan.splits[k].end
    ensures NodesAreInStep(x, k, m)
    decreases k, 1, m
  {
    if m == x.plan.splits[k].start {
      InputsInStep(x, k, |x.plan.splits[k].inputs|);
      FirstNodeInStep(x, k);
    } else {
      NodesInStep(x, k, m - 1);
      NextNodeInStep(x, k, m);
    }
  }

  // ----- the copied graph in planned memory

  /** What planned memory shows of tensor s of the graph. */
  ghost function ValueIn(x: Scene, place: P.Plan, m: P.Machine, s: nat): Bytes
    requires x.Sized() && |place| == |m.ext| == |x.Copied().tensors| && s < |x.p.g.tensors|
  {
    var bytes := P.Read(x.Copied(), place, m, x.p.g.Root(s));
    if x.p.g.IsView(s) then Fit(x.look(s, bytes), x.p.g.tensors[s].nbytes) else bytes
  }

  /** The copies arrive with what memory shows of their originals. */
  ghost function Shown(x: Scene, place: P.Plan, m: P.Machine): Arrivals
    requires x.Sized() && |place| == |m.ext| == |x.Copied().tensors|
  {
    (c: nat) => if IsCopy(x.p.g, x.plan.copies, c) then ValueIn(x, place, m, OriginalOf(x.p.g, x.plan.copies, c)) else []
  }

  /** The first i nodes of the copied graph in planned memory: each copy is made, when its turn comes,
      from what memory then holds. */
  ghost function CopyingRun(x: Scene, place: P.Plan, m: P.Machine, junk: nat -> P.Memory, i: nat): (r: P.Machine)
    requires x.Sized() && |place| == |m.ext| == |x.Copied().tensors| && i <= |x.Copied().nodes|
    ensures |r.ext| == |m.ext|
  {
    if i == 0 then m
    else
      var before := CopyingRun(x, place, m, junk, i - 1);
      P.MachineStep(x.Copied(), place, KernelOf(x.p.g, x.plan, x.compute, x.look, Shown(x, place, before)), x.Copied().nodes[i - 1], before, junk(i - 1))
  }

  /** The same with the copies arriving from outside with the right values. */
  ghost function ArrivingRun(x: Scene, place: P.Plan, m: P.Machine, junk: nat -> P.Memory, i: nat): (r: P.Machine)
    requires x.Sized() && |place| == |m.ext| == |x.Copied().tensors| && i <= |x.Copied().nodes|
    ensures |r.ext| == |m.ext|
  {
    P.MachineRun(x.Copied(), place, FinalKernel(x), m, junk, i)
  }

  ghost predicate Loaded(x: Scene, place: P.Plan, m: P.Machine) {
    && x.Valid() && P.SafePlan(x.Copied(), place) && |m.ext| == |place| && P.Loaded(x.Copied(), place, m, x.init)
  }

  /** Both runs have come to the same point. */
  ghost predicate Together(x: Scene, place: P.Plan, m: P.Machine, junk: nat -> P.Memory, ts: seq<nat>)
    requires x.Sized() && |place| == |m.ext| == |x.Copied().tensors|
  {
    ts <= x.Copied().nodes && CopyingRun(x, place, m, junk, |ts|) == ArrivingRun(x, place, m, junk, |ts|)
  }

  lemma SameMachineStep(h: Graph, place: P.Plan, one: Kernel, other: Kernel, n: nat, m: P.Machine, junk: P.Memory)
    requires h.ValidIds() && n < |h.tensors| == |place| == |m.ext|
    requires h.Writes(n) ==> forall roots, before :: one(n, roots, before) == other(n, roots, before)
    ensures P.MachineStep(h, place, one, n, m, junk) == P.MachineStep(h, place, other, n, m, junk)
  {
  }

  lemma NextTogether(x: Scene, place: P.Plan, m: P.Machine, junk: nat -> P.Memory, ts: seq<nat>, n: nat)
    requires x.Sized() && |place| == |m.ext| == |x.Copied().tensors| && Together(x, place, m, junk, ts)
    requires ts + [n] <= x.Copied().nodes && n < |x.Copied().tensors|
    requires x.Copied().Writes(n) && n >= |x.p.g.tensors| ==>
               Shown(x, place, ArrivingRun(x, place, m, junk, |ts|))(n) == FinalArrivals(x)(n)
    ensures Together(x, place, m, junk, ts + [n])
  {
    var before := ArrivingRun(x, place, m, junk, |ts|);
    assert (ts + [n])[|ts|] == n;
    assert x.Copied().nodes[|ts|] == n;
    SameMachineStep(x.Copied(), place, KernelOf(x.p.g, x.plan, x.compute, x.look, Shown(x, place, before)), FinalKernel(x), n, before, junk(|ts|));
  }

  lemma PairIsNext(g: Graph, plan: Plan, k: nat, j: nat)
    requires Laid(g, plan) && k < |plan.splits| && j < |plan.splits[k].inputs|
    ensures var ts, d, c := AtInputs(g, plan, k, j), DependencyAt(g, plan, k, j), CopyAt(g, plan, k, j);
            ts + [d] <= AllNodes(g, plan) && ts + [d] + [c] <= AllNodes(g, plan) && AtInputs(g, plan, k, j + 1) == ts + [d] + [c]
  {
    var ts, d, c := AtInputs(g, plan, k, j), DependencyAt(g, plan, k, j), CopyAt(g, plan, k, j);
    InputsFirst(g, plan, k, j + 1);
    assert ts + [d, c] == ts + [d] + [c];
    assert ts + [d] <= ts + [d] + [c];
  }

  /** The dependency keeps the memory of its input as it has to be. */
  lemma DependencyHolds(x: Scene, place: P.Plan, m: P.Machine, junk: nat -> P.Memory, k: nat, j: nat)
    requires Loaded(x, place, m) && k < |x.plan.splits| && j < |x.plan.splits[k].inputs|
    ensures AtInputs(x.p.g, x.plan, k, j) <= x.Copied().nodes && x.plan.splits[k].inputs[j] < |x.p.g.tensors|
    ensures var n, r := |AtInputs(x.p.g, x.plan, k, j)|, x.p.g.Root(x.plan.splits[k].inputs[j]);
            P.Read(x.Copied(), place, ArrivingRun(x, place, m, junk, n), r) == Run(x.Copied(), FinalKernel(x), x.init, n)[r]
  {
    var h, ts, d := x.Copied(), AtInputs(x.p.g, x.plan, k, j), DependencyAt(x.p.g, x.plan, k, j);
    PairIsNext(x.p.g, x.plan, k, j);
    assert (ts + [d])[|ts|] == d;
    assert h.nodes[|ts|] == d;
    OriginalOfCopy(x.p.g, x.plan, k, j);
    var st, now := Run(h, FinalKernel(x), x.init, |ts|), ArrivingRun(x, place, m, junk, |ts|);
    P.PlannedRunAgrees(h, place, FinalKernel(x), m, x.init, junk, |ts|);
    P.SourcesAgree(h, place, now, st, |ts|);
    OriginalTensor(x.p.g, x.plan, x.plan.splits[k].inputs[j]);
    assert P.ReadSources(h, place, now, h.tensors[d].src)[0] == SourceValues(h, h.tensors[d].src, st)[0];
  }

  /** What memory shows of input j of split k when its copy is due is what the input holds in the end. */
  ghost predicate ShownIsFinal(x: Scene, place: P.Plan, m: P.Machine, junk: nat -> P.Memory, k: nat, j: nat)
    requires x.Sized() && |place| == |m.ext| == |x.Copied().tensors| && k < |x.plan.splits| && j < |x.plan.splits[k].inputs|
  {
    && AtInputs(x.p.g, x.plan, k, j) <= x.Copied().nodes
    && var c := CopyAt(x.p.g, x.plan, k, j);
       Shown(x, place, ArrivingRun(x, place, m, junk, |AtInputs(x.p.g, x.plan, k, j)|))(c) == FinalArrivals(x)(c)
  }

  ghost predicate ShownAreFinal(x: Scene, place: P.Plan, m: P.Machine, junk: nat -> P.Memory)
    requires x.Sized() && |place| == |m.ext| == |x.Copied().tensors|
  {
    forall k, j :: 0 <= k < |x.plan.splits| && 0 <= j < |x.plan.splits[k].inputs| ==> ShownIsFinal(x, place, m, junk, k, j)
  }

  lemma InputIsShown(x: Scene, place: P.Plan, m: P.Machine, junk: nat -> P.Memory, k: nat, j: nat)
    requires Loaded(x, place, m) && CopiesAreFinal(x) && k < |x.plan.splits| && j < |x.plan.splits[k].inputs|
    ensures ShownIsFinal(x, place, m, junk, k, j)
  {
    DependencyHolds(x, place, m, junk, k, j);
    OriginalOfCopy(x.p.g, x.plan, k, j);
    InputsInStep(x, k, j);
    CopiedIsFinal(x, k, j);
  }

  lemma AllShownFinal(x: Scene, place: P.Plan, m: P.Machine, junk: nat -> P.Memory)
    requires Loaded(x, place, m)
    ensures ShownAreFinal(x, place, m, junk)
  {
    AllCopiesFinal(x);
    forall k, j | 0 <= k < |x.plan.splits| && 0 <= j < |x.plan.splits[k].inputs| ensures ShownIsFinal(x, place, m, junk, k, j) {
      InputIsShown(x, place, m, junk, k, j);
    }
  }

  lemma NextInputTogether(x: Scene, place: P.Plan, m: P.Machine, junk: nat -> P.Memory, k: nat, j: nat)
    requires x.Sized() && |place| == |m.ext| == |x.Copied().tensors| && k < |x.plan.splits| && 0 < j <= |x.plan.splits[k].inputs|
    requires Together(x, place, m, junk, AtInputs(x.p.g, x.plan, k, j - 1)) && ShownIsFinal(x, place, m, junk, k, j - 1)
    ensures Together(x, place, m, junk, AtInputs(x.p.g, x.plan, k, j))
  {
    var ts, d, c := AtInputs(x.p.g, x.plan, k, j - 1), DependencyAt(x.p.g, x.plan, k, j - 1), CopyAt(x.p.g, x.plan, k, j - 1);
    PairIsNext(x.p.g, x.plan, k, j - 1);
    DependencyIdle(x.p.g, x.plan, k, j - 1);
    NextTogether(x, place, m, junk, ts, d);
    IdleNode(x.Copied(), place, FinalKernel(x), m, junk, ts, d);
    NextTogether(x, place, m, junk, ts + [d], c);
  }

  lemma DependencyIdle(g: Graph, plan: Plan, k: nat, j: nat)
    requires Laid(g, plan) && k < |plan.splits| && j < |plan.splits[k].inputs|
    ensures !GraphCopy(g, plan).Writes(DependencyAt(g, plan, k, j))
  {
    OriginalOfCopy(g, plan, k, j);
  }

  lemma IdleNode(h: Graph, place: P.Plan, kernel: Kernel, m: P.Machine, junk: nat -> P.Memory, ts: seq<nat>, n: nat)
    requires h.ValidIds() && |place| == |m.ext| == |h.tensors| && ts + [n] <= h.nodes && n < |h.tensors| && !h.Writes(n)
    ensures P.MachineRun(h, place, kernel, m, junk, |ts + [n]|) == P.MachineRun(h, place, kernel, m, junk, |ts|)
  {
    assert (ts + [n])[|ts|] == n;
    assert h.nodes[|ts|] == n;
  }

  lemma NextNodeTogether(x: Scene, place: P.Plan, m: P.Machine, junk: nat -> P.Memory, k: nat, i: nat)
    requires x.Sized() && |place| == |m.ext| == |x.Copied().tensors|
    requires k < |x.plan.splits| && x.plan.splits[k].start < i <= x.plan.splits[k].end
    requires Together(x, place, m, junk, AtNodes(x.p.g, x.plan, k, i - 1))
    ensures Together(x, place, m, junk, AtNodes(x.p.g, x.plan, k, i))
  {
    NodeIsNext(x.p.g, x.plan, k, i);
    NextTogether(x, place, m, junk, AtNodes(x.p.g, x.plan, k, i - 1), x.p.g.nodes[i - 1]);
  }

  lemma FirstNodeTogether(x: Scene, place: P.Plan, m: P.Machine, junk: nat -> P.Memory, k: nat)
    requires x.Sized() && |place| == |m.ext| == |x.Copied().tensors|
    requires k < |x.plan.splits| && x.plan.splits[k].start <= x.plan.splits[k].end
    requires Together(x, place, m, junk, AtInputs(x.p.g, x.plan, k, |x.plan.splits[k].inputs|))
    ensures Together(x, place, m, junk, AtNodes(x.p.g, x.plan, k, x.plan.splits[k].start))
  {
  }

  lemma {:induction false} InputsTogether(x: Scene, place: P.Plan, m: P.Machine, junk: nat -> P.Memory, k: nat, j: nat)
    requires x.Sized() && |place| == |m.ext| == |x.Copied().tensors| && ShownAreFinal(x, place, m, junk)
    requires k < |x.plan.splits| && j <= |x.plan.splits[k].inputs|
    ensures Together(x, place, m, junk, AtInputs(x.p.g, x.plan, k, j))
    decreases k, 0, j
  {
    if j > 0 {
      InputsTogether(x, place, m, junk, k, j - 1);
      NextInputTogether(x, place, m, junk, k, j);
    } else if k > 0 {
      SplitNotBackwards(x.p.g, x.plan, k - 1);
      NodesTogether(x, place, m, junk, k - 1, x.plan.splits[k - 1].end);
    }
  }

  /** Copying from planned memory brings the copies what they should hold. */
  lemma {:induction false} NodesTogether(x: Scene, place: P.Plan, m: P.Machine, junk: nat -> P.Memory, k: nat, i: nat)
    requires x.Sized() && |place| == |m.ext| == |x.Copied().tensors| && ShownAreFinal(x, place, m, junk)
    requires k < |x.plan.splits| && x.plan.splits[k].start <= i <= x.plan.splits[k].end
    ensures Together(x, place, m, junk, AtNodes(x.p.g, x.plan, k, i))
    decreases k, 1, i
  {
    if i == x.plan.splits[k].start {
      InputsTogether(x, place, m, junk, k, |x.plan.splits[k].inputs|);
      FirstNodeTogether(x, place, m, junk, k);
    } else {
      NodesTogether(x, place, m, junk, k, i - 1);
      NextNodeTogether(x, place, m, junk, k, i);
    }
  }

  /** While split k runs, the buffers of the graph are those of the graph as it was. */
  lemma RunningIsRunGraph(x: Scene, k: nat, i: nat)
    requires x.Valid() && k < |x.plan.splits| && x.plan.splits[k].start <= i <= x.plan.splits[k].end
    ensures i <= |x.p.g.nodes| && Agrees(x.p.g, Running(x, k, i), RunGraph(x.p.g, x.compute, x.look, x.Whole(), i))
  {
    var g, plan := x.p.g, x.plan;
    var before := RunSplits(g, x.compute, x.look, plan, x.WithCopies(), k);
    assert SplitRunnable(g, plan, plan.splits[k]);
    SplitsKeepStep(x.p, x.ids, x.compute, x.look, plan, x.WithCopies(), x.Whole(), k);
    assert Covered(plan, k) == plan.splits[k].start;
    SplitIsReady(x.p, x.ids, x.compute, x.look, plan, x.WithCopies(), x.Whole(), before, k);
    NodesKeepStep(x.p, x.ids, x.compute, x.look, plan, x.WithCopies(), x.Whole(), Copying(x, k, |plan.splits[k].inputs|), k, i);
  }

  /** While split k runs, the copied graph with one buffer a tensor gives what the graph as it was does. */
  lemma RunIsRunGraph(x: Scene, k: nat, i: nat, t: nat)
    requires x.Valid() && k < |x.plan.splits| && x.plan.splits[k].start <= i <= x.plan.splits[k].end && t < |x.p.g.tensors|
    ensures i <= |x.p.g.nodes| && AtNodes(x.p.g, x.plan, k, i) <= x.Copied().nodes
    ensures Run(x.Copied(), FinalKernel(x), x.init, |AtNodes(x.p.g, x.plan, k, i)|)[t]
            == RunGraph(x.p.g, x.compute, x.look, x.Whole(), i)[t]
  {
    AllCopiesFinal(x);
    NodesInStep(x, k, i);
    RunningIsRunGraph(x, k, i);
  }

  lemma NodeHolds(h: Graph, place: P.Plan, kernel: Kernel, m: P.Machine, init: Store, junk: nat -> P.Memory, ts: seq<nat>, n: nat)
    requires h.WellFormed() && P.SafePlan(h, place) && P.Loaded(h, place, m, init)
    requires ts + [n] <= h.nodes && n < |h.tensors| && h.Writes(n) && !h.IsView(n)
    ensures P.Read(h, place, P.MachineRun(h, place, kernel, m, junk, |ts + [n]|), n) == Run(h, kernel, init, |ts + [n]|)[n]
  {
    assert (ts + [n])[|ts|] == n;
    assert h.nodes[|ts|] == n;
    P.EveryNodeRight(h, place, kernel, m, init, junk, |ts|);
  }

  lemma OutputHolds(h: Graph, place: P.Plan, kernel: Kernel, m: P.Machine, init: Store, junk: nat -> P.Memory, t: nat)
    requires h.WellFormed() && P.SafePlan(h, place) && P.Loaded(h, place, m, init)
    requires t < |h.tensors| && h.tensors[t].isOutput && P.Placed(h, t)
    ensures P.Read(h, place, P.MachineRun(h, place, kernel, m, junk, |h.nodes|), t) == Run(h, kernel, init, |h.nodes|)[t]
  {
    P.PlannedRunAgrees(h, place, kernel, m, init, junk, |h.nodes|);
  }

  lemma NodeIsNoView(x: Scene, i: nat)
    requires x.Sized() && i < |x.p.g.nodes| && x.p.g.Writes(x.p.g.nodes[i])
    ensures x.Copied().Writes(x.p.g.nodes[i]) && !x.Copied().IsView(x.p.g.nodes[i])
  {
    OriginalTensor(x.p.g, x.plan, x.p.g.nodes[i]);
  }

  /** The splits, run in memory planned for the copied graph and with the copies made from that memory,
      compute what the graph does: every node of the graph holds its value right after it has run. */
  lemma EveryNodeInPlannedMemory(x: Scene, place: P.Plan, m: P.Machine, junk: nat -> P.Memory, k: nat, i: nat)
    requires Loaded(x, place, m) && k < |x.plan.splits| && x.plan.splits[k].start <= i < x.plan.splits[k].end
    ensures i < |x.p.g.nodes| && AtNodes(x.p.g, x.plan, k, i + 1) <= x.Copied().nodes
    ensures var n := x.p.g.nodes[i];
            x.p.g.Writes(n) ==>
              P.Read(x.Copied(), place, CopyingRun(x, place, m, junk, |AtNodes(x.p.g, x.plan, k, i + 1)|), n)
              == RunGraph(x.p.g, x.compute, x.look, x.Whole(), i + 1)[n]
  {
    NodeIsNext(x.p.g, x.plan, k, i + 1);
    var n := x.p.g.nodes[i];
    if x.p.g.Writes(n) {
      AllShownFinal(x, place, m, junk);
      NodesTogether(x, place, m, junk, k, i + 1);
      NodeIsNoView(x, i);
      NodeHolds(x.Copied(), place, FinalKernel(x), m, x.init, junk, AtNodes(x.p.g, x.plan, k, i), n);
      RunIsRunGraph(x, k, i + 1, n);
    }
  }

  /** And every output of the graph holds its value at the end. */
  lemma OutputsInPlannedMemory(x: Scene, place: P.Plan, m: P.Machine, junk: nat -> P.Memory, t: nat)
    requires Loaded(x, place, m) && t < |x.p.g.tensors| && x.p.g.tensors[t].isOutput && P.Placed(x.Copied(), t)
    ensures P.Read(x.Copied(), place, CopyingRun(x, place, m, junk, |x.Copied().nodes|), t)
            == RunGraph(x.p.g, x.compute, x.look, x.Whole(), |x.p.g.nodes|)[t]
  {
    var last := |x.plan.splits| - 1;
    var end := x.plan.splits[last].end;
    assert SplitRunnable(x.p.g, x.plan, x.plan.splits[last]);
    AllShownFinal(x, place, m, junk);
    NodesTogether(x, place, m, junk, last, end);
    OriginalTensor(x.p.g, x.plan, t);
    OutputHolds(x.Copied(), place, FinalKernel(x), m, x.init, junk, t);
    RunIsRunGraph(x, last, end, t);
  }

  // ----- how the copied graph is put together

  /** The backend whose memory node n of the copied graph is planned in. */
  ghost predicate BackendFor(g: Graph, ids: Ids, plan: Plan, n: nat, b: int)
    requires Runnable(g, plan) && |ids| == |g.tensors|
  {
    && (n < |g.tensors| ==> b == ids[n])
    && (forall k, j :: InputEntry(g, plan, n, k, j) ==> InputBackend(g, ids, plan, n, k, j, b))
  }

  ghost predicate InputBackend(g: Graph, ids: Ids, plan: Plan, n: nat, k: nat, j: nat, b: int)
    requires Runnable(g, plan) && |ids| == |g.tensors| && InputEntry(g, plan, n, k, j)
  {
    assert SplitRunnable(g, plan, plan.splits[k]);
    b == if n < plan.total then plan.splits[k].backend else ids[plan.splits[k].inputs[j]]
  }

  ghost predicate AllBacked(g: Graph, ids: Ids, plan: Plan, nodes: seq<nat>, backends: seq<int>)
    requires Runnable(g, plan) && |ids| == |g.tensors|
  {
    |backends| == |nodes| && forall i :: 0 <= i < |nodes| ==> BackendFor(g, ids, plan, nodes[i], backends[i])
  }

  lemma PairBacked(g: Graph, ids: Ids, plan: Plan, k: nat, j: nat)
    requires Laid(g, plan) && |ids| == |g.tensors| && k < |plan.splits| && j < |plan.splits[k].inputs|
    ensures plan.splits[k].inputs[j] < |ids|
    ensures BackendFor(g, ids, plan, DependencyAt(g, plan, k, j), ids[plan.splits[k].inputs[j]])
    ensures BackendFor(g, ids, plan, CopyAt(g, plan, k, j), plan.splits[k].backend)
  {
    assert SplitRunnable(g, plan, plan.splits[k]);
    var d, c := DependencyAt(g, plan, k, j), CopyAt(g, plan, k, j);
    forall a, b | InputEntry(g, plan, d, a, b) || InputEntry(g, plan, c, a, b) ensures a == k && b == j {
      SameCopySameInput(g, plan, a, b, k, j);
    }
  }

  /** The nodes of the copied graph, split by split, and the backend each is planned for. */
  method ListNodes(p: Problem, ids: Ids, plan: Plan) returns (nodes: seq<nat>, backends: seq<int>)
    requires Laid(p.g, plan) && |ids| == |p.g.tensors|
    ensures nodes == AllNodes(p.g, plan) && AllBacked(p.g, ids, plan, nodes, backends)
  {
    nodes, backends := [], [];
    for k := 0 to |plan.splits|
      invariant AllBacked(p.g, ids, plan, nodes, backends)
      invariant nodes == if k < |plan.splits| then AtInputs(p.g, plan, k, 0) else AllNodes(p.g, plan)
    {
      nodes, backends := ListInputs(p, ids, plan, k, nodes, backends);
      nodes, backends := ListSplit(p, ids, plan, k, nodes, backends);
    }
  }

  method ListInputs(p: Problem, ids: Ids, plan: Plan, k: nat, before: seq<nat>, backendsBefore: seq<int>)
      returns (nodes: seq<nat>, backends: seq<int>)
    requires Laid(p.g, plan) && |ids| == |p.g.tensors| && k < |plan.splits|
    requires before == AtInputs(p.g, plan, k, 0) && AllBacked(p.g, ids, plan, before, backendsBefore)
    ensures nodes == AtInputs(p.g, plan, k, |plan.splits[k].inputs|) && AllBacked(p.g, ids, plan, nodes, backends)
  {
    nodes, backends := before, backendsBefore;
    for j := 0 to |plan.splits[k].inputs|
      invariant nodes == AtInputs(p.g, plan, k, j) && AllBacked(p.g, ids, plan, nodes, backends)
    {
      PairBacked(p.g, ids, plan, k, j);
      nodes := nodes + [DependencyAt(p.g, plan, k, j), CopyAt(p.g, plan, k, j)];
      backends := backends + [ids[plan.splits[k].inputs[j]], plan.splits[k].backend];
    }
  }

  method ListSplit(p: Problem, ids: Ids, plan: Plan, k: nat, before: seq<nat>, backendsBefore: seq<int>)
      returns (nodes: seq<nat>, backends: seq<int>)
    requires Laid(p.g, plan) && |ids| == |p.g.tensors| && k < |plan.splits|
    requires before == AtInputs(p.g, plan, k, |plan.splits[k].inputs|) && AllBacked(p.g, ids, plan, before, backendsBefore)
    ensures plan.splits[k].start <= plan.splits[k].end
    ensures nodes == AtNodes(p.g, plan, k, plan.splits[k].end) && AllBacked(p.g, ids, plan, nodes, backends)
  {
    assert SplitRunnable(p.g, plan, plan.splits[k]);
    nodes, backends := before, backendsBefore;
    for m := plan.splits[k].start to plan.splits[k].end
      invariant nodes == AtNodes(p.g, plan, k, m) && AllBacked(p.g, ids, plan, nodes, backends)
    {
      nodes, backends := nodes + [p.g.nodes[m]], backends + [ids[p.g.nodes[m]]];
    }
  }
}
