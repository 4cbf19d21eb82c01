/** Running the splits one after the other gives what running the graph gives. */
module SchedRun {
  import opened Wrappers
  import opened TensorGraph
  import opened SchedAssign
  import opened SchedSplit
  import SchedBoundary

  /** What an operation computes from the values of its sources. */
  type Compute = (nat, seq<Bytes>) -> Bytes

  /** What a view shows of its root. */
  type Look = (nat, Bytes) -> Bytes

  // ----- the graph as it is

  function ValueOf(g: Graph, look: Look, st: Store, t: nat): Bytes
    requires g.ValidIds() && |g.tensors| <= |st| && t < |st|
  {
    if t < |g.tensors| && g.IsView(t) then Fit(look(t, st[g.Root(t)]), g.tensors[t].nbytes) else st[t]
  }

  function ValuesOf(g: Graph, look: Look, st: Store, src: seq<nat>): (r: seq<Bytes>)
    requires g.ValidIds() && |g.tensors| <= |st| && forall j :: 0 <= j < |src| ==> src[j] < |st|
    ensures |r| == |src| && forall j :: 0 <= j < |src| ==> r[j] == ValueOf(g, look, st, src[j])
  {
    seq(|src|, j requires 0 <= j < |src| => ValueOf(g, look, st, src[j]))
  }

  /** Runs node n, which reads src. */
  function RunNode(g: Graph, compute: Compute, look: Look, st: Store, n: nat, src: seq<nat>): (r: Store)
    requires g.ValidIds() && n < |g.tensors| <= |st| && forall j :: 0 <= j < |src| ==> src[j] < |st|
    ensures |r| == |st|
  {
    if !g.Writes(n) then st
    else st[n := Fit(compute(n, ValuesOf(g, look, st, src)), g.tensors[n].nbytes)]
  }

  function RunGraph(g: Graph, compute: Compute, look: Look, init: Store, k: nat): (r: Store)
    requires g.ValidIds() && k <= |g.nodes| && |init| == |g.tensors|
    ensures |r| == |init|
  {
    if k == 0 then init
    else RunNode(g, compute, look, RunGraph(g, compute, look, init, k - 1), g.nodes[k - 1], g.tensors[g.nodes[k - 1]].src)
  }

  /** The same with one private buffer for every tensor, as the memory planner sees it. */
  lemma {:induction false} RunGraphIsRun(g: Graph, compute: Compute, look: Look, kernel: Kernel, init: Store, k: nat)
    requires g.ValidIds() && NoWriteThrough(g) && k <= |g.nodes| && |init| == |g.tensors|
    requires forall n: nat, roots: seq<Bytes>, before: Bytes ::
               n < |g.tensors| && |roots| == |g.tensors[n].src| ==> kernel(n, roots, before) == compute(n, Seen(g, look, n, roots))
    ensures RunGraph(g, compute, look, init, k) == Run(g, kernel, init, k)
    decreases k
  {
    if k > 0 {
      RunGraphIsRun(g, compute, look, kernel, init, k - 1);
      var n, st := g.nodes[k - 1], Run(g, kernel, init, k - 1);
      var src := g.tensors[n].src;
      assert ValuesOf(g, look, st, src) == Seen(g, look, n, SourceValues(g, src, st));
    }
  }

  /** What node n sees of the buffers its sources are in. */
  function Seen(g: Graph, look: Look, n: nat, roots: seq<Bytes>): (r: seq<Bytes>)
    requires g.ValidIds() && n < |g.tensors| && |roots| == |g.tensors[n].src|
  {
    var src := g.tensors[n].src;
    seq(|roots|, j requires 0 <= j < |roots| => if g.IsView(src[j]) then Fit(look(src[j], roots[j]), g.tensors[src[j]].nbytes) else roots[j])
  }

  // ----- the splits

  predicate Runnable(g: Graph, plan: Plan) {
    && g.ValidIds() && ValidCopies(g, plan.copies, plan.total) && SameCounts(g, plan.src)
    && SourcesBelow(plan.src, plan.total)
    && (forall k :: 0 <= k < |plan.splits| ==> SplitRunnable(g, plan, plan.splits[k]))
  }

  predicate SplitRunnable(g: Graph, plan: Plan, split: Split) {
    && split.start <= split.end <= |g.nodes|
    && forall m :: 0 <= m < |split.inputs| ==> split.inputs[m] < |g.tensors| && (split.inputs[m], split.backend) in plan.copies
  }

  /** Copies input m of split k. */
  function OneCopied(g: Graph, look: Look, plan: Plan, st: Store, k: nat, m: nat): (r: Store)
    requires Runnable(g, plan) && |st| == plan.total && k < |plan.splits| && m < |plan.splits[k].inputs|
    ensures |r| == |st|
  {
    assert SplitRunnable(g, plan, plan.splits[k]);
    var s := plan.splits[k].inputs[m];
    st[plan.copies[(s, plan.splits[k].backend)] := ValueOf(g, look, st, s)]
  }

  /** Copies the first m inputs of split k. */
  function CopyInputs(g: Graph, look: Look, plan: Plan, k: nat, st: Store, m: nat): (r: Store)
    requires Runnable(g, plan) && |st| == plan.total && k < |plan.splits| && m <= |plan.splits[k].inputs|
    ensures |r| == |st|
  {
    if m == 0 then st else OneCopied(g, look, plan, CopyInputs(g, look, plan, k, st, m - 1), k, m - 1)
  }

  /** Runs nodes from up to end (exclusive) with the rewritten sources. */
  function RunNodes(g: Graph, compute: Compute, look: Look, plan: Plan, st: Store, from: nat, end: nat): (r: Store)
    requires Runnable(g, plan) && |st| == plan.total && from <= end <= |g.nodes|
    ensures |r| == |st|
    decreases end
  {
    if from == end then st
    else RunNode(g, compute, look, RunNodes(g, compute, look, plan, st, from, end - 1), g.nodes[end - 1], plan.src[g.nodes[end - 1]])
  }

  /** The stores after the first k splits. */
  function RunSplits(g: Graph, compute: Compute, look: Look, plan: Plan, init: Store, k: nat): (r: Store)
    requires Runnable(g, plan) && |init| == plan.total && k <= |plan.splits|
    ensures |r| == |init|
  {
    if k == 0 then init
    else
      var split := plan.splits[k - 1];
      var before := RunSplits(g, compute, look, plan, init, k - 1);
      RunNodes(g, compute, look, plan, CopyInputs(g, look, plan, k - 1, before, |split.inputs|), split.start, split.end)
  }

  // ----- why they agree

  /** The buffers of the graph's own tensors agree. */
  predicate Agrees(g: Graph, st: Store, whole: Store) {
    |whole| == |g.tensors| <= |st| && forall t :: 0 <= t < |g.tensors| ==> st[t] == whole[t]
  }

  lemma {:induction false} Settled(g: Graph, compute: Compute, look: Look, init: Store, s: nat, from: nat, end: nat)
    requires g.ValidIds() && from <= end <= |g.nodes| && |init| == |g.tensors| && s < |g.tensors|
    requires SettledBy(g, s, from)
    ensures RunGraph(g, compute, look, init, end)[g.Root(s)] == RunGraph(g, compute, look, init, from)[g.Root(s)]
    decreases end
  {
    if from < end {
      Settled(g, compute, look, init, s, from, end - 1);
    }
  }

  /** The value of s when all nodes have run. */
  function FinalValue(g: Graph, compute: Compute, look: Look, init: Store, s: nat): Bytes
    requires g.ValidIds() && |init| == |g.tensors| && s < |g.tensors|
  {
    ValueOf(g, look, RunGraph(g, compute, look, init, |g.nodes|), s)
  }

  /** All copies that the first n splits have filled hold final values. */
  ghost predicate CopiesFinal(g: Graph, compute: Compute, look: Look, plan: Plan, init: Store, st: Store, n: nat)
    requires Runnable(g, plan) && |init| == |g.tensors| && |st| == plan.total && n <= |plan.splits|
  {
    forall c :: c in plan.copies && c.0 < |g.tensors| && FilledBy(plan.splits, c.0, c.1, n) ==>
      st[plan.copies[c]] == FinalValue(g, compute, look, init, c.0)
  }

  /** A value read when node i is due is final if it is settled by then. */
  lemma SettledIsFinal(g: Graph, compute: Compute, look: Look, init: Store, st: Store, s: nat, start: nat, i: nat)
    requires g.ValidIds() && |init| == |g.tensors| && s < |g.tensors| && start <= i <= |g.nodes|
    requires SettledBy(g, s, start) && Agrees(g, st, RunGraph(g, compute, look, init, i))
    ensures ValueOf(g, look, st, s) == FinalValue(g, compute, look, init, s)
    ensures ValueOf(g, look, RunGraph(g, compute, look, init, i), s) == FinalValue(g, compute, look, init, s)
  {
    assert SettledBy(g, s, i);
    Settled(g, compute, look, init, s, i, |g.nodes|);
  }

  lemma ValidIsRunnable(p: Problem, ids: Ids, plan: Plan)
    requires ValidPlan(p, ids, plan)
    ensures Runnable(p.g, plan)
  {
    forall k | 0 <= k < |plan.splits| ensures SplitRunnable(p.g, plan, plan.splits[k]) {
      forall m | 0 <= m < |plan.splits[k].inputs| ensures InputRight(p, ids, plan, plan.splits[k], plan.splits[k].inputs[m]) {
        assert plan.splits[k].inputs[m] in plan.splits[k].inputs;
      }
    }
  }

  /** The situation in the middle of a run: the first k splits are done, then m inputs of the next
      have been copied, and i nodes have run. */
  ghost predicate Midway(p: Problem, ids: Ids, compute: Compute, look: Look, plan: Plan, init: Store, whole: Store,
                         st: Store, k: nat, i: nat)
  {
    && ValidPlan(p, ids, plan) && ViewedKept(p) && Runnable(p.g, plan) && k <= |plan.splits| && i <= |p.g.nodes|
    && |whole| == |p.g.tensors| && |init| == |st| == plan.total && |plan.splits| > 0
    && Agrees(p.g, st, RunGraph(p.g, compute, look, whole, i))
    && CopiesFinal(p.g, compute, look, plan, whole, st, k)
  }

  /** now is st, but with the first m inputs of split k in their copies. */
  ghost predicate OnlyCopied(g: Graph, look: Look, plan: Plan, k: nat, st: Store, now: Store, m: nat)
    requires Runnable(g, plan) && |st| == |now| == plan.total && k < |plan.splits| && m <= |plan.splits[k].inputs|
  {
    var split := plan.splits[k];
    && (forall t :: 0 <= t < |g.tensors| ==> now[t] == st[t])
    && (forall c :: c in plan.copies && c.0 < |g.tensors| ==>
          now[plan.copies[c]] ==
          if c.1 == split.backend && c.0 in split.inputs[..m] then ValueOf(g, look, st, c.0) else st[plan.copies[c]])
  }

  lemma NothingCopied(g: Graph, look: Look, plan: Plan, k: nat, st: Store)
    requires Runnable(g, plan) && |st| == plan.total && k < |plan.splits|
    ensures OnlyCopied(g, look, plan, k, st, st, 0)
  {
  }

  lemma OneMoreCopied(g: Graph, look: Look, plan: Plan, k: nat, st: Store, now: Store, m: nat)
    requires Runnable(g, plan) && |st| == |now| == plan.total && k < |plan.splits| && m < |plan.splits[k].inputs|
    requires OnlyCopied(g, look, plan, k, st, now, m)
    ensures OnlyCopied(g, look, plan, k, st, OneCopied(g, look, plan, now, k, m), m + 1)
  {
    var split := plan.splits[k];
    var s := split.inputs[m];
    assert split.inputs[..m + 1] == split.inputs[..m] + [s];
    assert SplitRunnable(g, plan, split);
    assert ValueOf(g, look, now, s) == ValueOf(g, look, st, s);
  }

  /** Copying inputs fills their copies, and leaves everything else alone. */
  lemma {:induction false} CopiedOnly(g: Graph, look: Look, plan: Plan, k: nat, st: Store, m: nat)
    requires Runnable(g, plan) && |st| == plan.total && k < |plan.splits| && m <= |plan.splits[k].inputs|
    ensures OnlyCopied(g, look, plan, k, st, CopyInputs(g, look, plan, k, st, m), m)
    decreases m
  {
    if m == 0 {
      NothingCopied(g, look, plan, k, st);
    } else {
      CopiedOnly(g, look, plan, k, st, m - 1);
      NextCopied(g, look, plan, k, st, m - 1);
    }
  }

  lemma NextCopied(g: Graph, look: Look, plan: Plan, k: nat, st: Store, m: nat)
    requires Runnable(g, plan) && |st| == plan.total && k < |plan.splits| && m < |plan.splits[k].inputs|
    requires OnlyCopied(g, look, plan, k, st, CopyInputs(g, look, plan, k, st, m), m)
    ensures OnlyCopied(g, look, plan, k, st, CopyInputs(g, look, plan, k, st, m + 1), m + 1)
  {
    OneMoreCopied(g, look, plan, k, st, CopyInputs(g, look, plan, k, st, m), m);
  }

  lemma InputIsFinal(p: Problem, ids: Ids, compute: Compute, look: Look, plan: Plan, whole: Store, st: Store, k: nat, s: nat)
    requires ValidPlan(p, ids, plan) && ViewedKept(p) && k < |plan.splits| && s in plan.splits[k].inputs && |whole| == |p.g.tensors|
    requires plan.splits[k].start <= |p.g.nodes| && Agrees(p.g, st, RunGraph(p.g, compute, look, whole, plan.splits[k].start))
    ensures s < |p.g.tensors|
    ensures ValueOf(p.g, look, st, s) == FinalValue(p.g, compute, look, whole, s)
  {
    var split := plan.splits[k];
    assert InputRight(p, ids, plan, split, s);
    SettledIsFinal(p.g, compute, look, whole, st, s, split.start, split.start);
  }

  /** The copies of the first k + 1 splits are final once the inputs of split k have been copied. */
  lemma SplitIsReady(p: Problem, ids: Ids, compute: Compute, look: Look, plan: Plan, init: Store, whole: Store, st: Store, k: nat)
    requires k < |plan.splits| && Midway(p, ids, compute, look, plan, init, whole, st, k, plan.splits[k].start)
    ensures var now := CopyInputs(p.g, look, plan, k, st, |plan.splits[k].inputs|);
            Midway(p, ids, compute, look, plan, init, whole, now, k + 1, plan.splits[k].start)
  {
    var n := |plan.splits[k].inputs|;
    var now := CopyInputs(p.g, look, plan, k, st, n);
    CopiedOnly(p.g, look, plan, k, st, n);
    forall c | c in plan.copies && c.0 < |p.g.tensors| && FilledBy(plan.splits, c.0, c.1, k + 1)
      ensures now[plan.copies[c]] == FinalValue(p.g, compute, look, whole, c.0)
    {
      FilledIsFinal(p, ids, compute, look, plan, init, whole, st, k, c);
    }
  }

  lemma FilledIsFinal(p: Problem, ids: Ids, compute: Compute, look: Look, plan: Plan, init: Store, whole: Store, st: Store,
                      k: nat, c: (nat, int))
    requires k < |plan.splits| && Midway(p, ids, compute, look, plan, init, whole, st, k, plan.splits[k].start)
    requires c in plan.copies && c.0 < |p.g.tensors| && FilledBy(plan.splits, c.0, c.1, k + 1)
    ensures CopyInputs(p.g, look, plan, k, st, |plan.splits[k].inputs|)[plan.copies[c]] == FinalValue(p.g, compute, look, whole, c.0)
  {
    var split := plan.splits[k];
    CopiedOnly(p.g, look, plan, k, st, |split.inputs|);
    assert split.inputs[..|split.inputs|] == split.inputs;
    if c.1 == split.backend && c.0 in split.inputs {
      InputIsFinal(p, ids, compute, look, plan, whole, st, k, c.0);
    } else {
      var f :| 0 <= f < k + 1 && plan.splits[f].backend == c.1 && c.0 in plan.splits[f].inputs;
      assert FilledBy(plan.splits, c.0, c.1, k);
    }
  }

  /** Through whatever its split reads a source, node i gets the source's value. */
  lemma SourceGivesValue(p: Problem, ids: Ids, compute: Compute, look: Look, plan: Plan, init: Store, whole: Store,
                         st: Store, k: nat, i: nat, j: nat)
    requires k < |plan.splits| && Midway(p, ids, compute, look, plan, init, whole, st, k + 1, i)
    requires i < |p.g.nodes| && plan.splits[k].start <= i < plan.splits[k].end && j < |p.g.tensors[p.g.nodes[i]].src|
    ensures plan.src[p.g.nodes[i]][j] < plan.total
    ensures ValueOf(p.g, look, st, plan.src[p.g.nodes[i]][j]) ==
            ValueOf(p.g, look, RunGraph(p.g, compute, look, whole, i), p.g.tensors[p.g.nodes[i]].src[j])
  {
    var t := p.g.nodes[i];
    var s, now, b := p.g.tensors[t].src[j], plan.src[t][j], plan.splits[k].backend;
    assert InSplit(plan.splits, i, k, |p.g.nodes|);
    assert NodeRight(p, ids, plan, i, k);
    if now != s {
      assert SourceRight(p, ids, plan, i, k, j);
      var f :| 0 <= f < k + 1 && plan.splits[f].backend == b && s in plan.splits[f].inputs;
      assert InputRight(p, ids, plan, plan.splits[f], s);
      StartsAscend(plan.splits, |p.g.nodes|, f, k);
      SettledIsFinal(p.g, compute, look, whole, st, s, plan.splits[f].start, i);
    }
  }

  lemma {:induction false} StartsAscend(splits: seq<Split>, reach: nat, f: nat, k: nat)
    requires InARow(splits, reach) && f <= k < |splits|
    ensures splits[f].start <= splits[k].start
    decreases k - f
  {
    if f < k {
      StartsAscend(splits, reach, f + 1, k);
    }
  }

  /** Running a node of split k keeps the runs in step. */
  lemma NodeKeepsStep(p: Problem, ids: Ids, compute: Compute, look: Look, plan: Plan, init: Store, whole: Store,
                      st: Store, k: nat, i: nat)
    requires k < |plan.splits| && Midway(p, ids, compute, look, plan, init, whole, st, k + 1, i)
    requires i < |p.g.nodes| && plan.splits[k].start <= i < plan.splits[k].end
    ensures Midway(p, ids, compute, look, plan, init, whole,
                   RunNode(p.g, compute, look, st, p.g.nodes[i], plan.src[p.g.nodes[i]]), k + 1, i + 1)
  {
    var t := p.g.nodes[i];
    var at := RunGraph(p.g, compute, look, whole, i);
    forall j | 0 <= j < |p.g.tensors[t].src| ensures ValueOf(p.g, look, st, plan.src[t][j]) == ValueOf(p.g, look, at, p.g.tensors[t].src[j]) {
      SourceGivesValue(p, ids, compute, look, plan, init, whole, st, k, i, j);
    }
    SameNode(p.g, compute, look, st, at, t, plan.src[t]);
  }

  /** A node computes the same from sources with the same values. */
  lemma SameNode(g: Graph, compute: Compute, look: Look, st: Store, at: Store, t: nat, src: seq<nat>)
    requires g.ValidIds() && t < |g.tensors| && Agrees(g, st, at) && |src| == |g.tensors[t].src|
    requires forall j :: 0 <= j < |src| ==> src[j] < |st|
    requires forall j :: 0 <= j < |src| ==> ValueOf(g, look, st, src[j]) == ValueOf(g, look, at, g.tensors[t].src[j])
    ensures var now := RunNode(g, compute, look, st, t, src);
            && Agrees(g, now, RunNode(g, compute, look, at, t, g.tensors[t].src))
            && forall c :: |g.tensors| <= c < |st| ==> now[c] == st[c]
  {
    assert ValuesOf(g, look, st, src) == ValuesOf(g, look, at, g.tensors[t].src);
  }

  lemma {:induction false} NodesKeepStep(p: Problem, ids: Ids, compute: Compute, look: Look, plan: Plan, init: Store, whole: Store,
                                         st: Store, k: nat, i: nat)
    requires k < |plan.splits| && Midway(p, ids, compute, look, plan, init, whole, st, k + 1, plan.splits[k].start)
    requires plan.splits[k].start <= i <= plan.splits[k].end
    ensures Midway(p, ids, compute, look, plan, init, whole,
                   RunNodes(p.g, compute, look, plan, st, plan.splits[k].start, i), k + 1, i)
    decreases i
  {
    if plan.splits[k].start < i {
      NodesKeepStep(p, ids, compute, look, plan, init, whole, st, k, i - 1);
      NodeKeepsStep(p, ids, compute, look, plan, init, whole, RunNodes(p.g, compute, look, plan, st, plan.splits[k].start, i - 1), k, i - 1);
    }
  }

  /** How many nodes the first k splits cover. */
  function Covered(plan: Plan, k: nat): nat
    requires k <= |plan.splits|
  {
    if k == 0 then 0 else plan.splits[k - 1].end
  }

  lemma {:induction false} SplitsKeepStep(p: Problem, ids: Ids, compute: Compute, look: Look, plan: Plan, init: Store, whole: Store, k: nat)
    requires ValidPlan(p, ids, plan) && ViewedKept(p) && Runnable(p.g, plan) && k <= |plan.splits|
    requires |init| == plan.total && |whole| == |p.g.tensors| && Agrees(p.g, init, whole)
    ensures Midway(p, ids, compute, look, plan, init, whole, RunSplits(p.g, compute, look, plan, init, k), k, Covered(plan, k))
    decreases k
  {
    if k > 0 {
      SplitsKeepStep(p, ids, compute, look, plan, init, whole, k - 1);
      var split := plan.splits[k - 1];
      var before := RunSplits(p.g, compute, look, plan, init, k - 1);
      assert split.start == Covered(plan, k - 1);
      SplitIsReady(p, ids, compute, look, plan, init, whole, before, k - 1);
      NodesKeepStep(p, ids, compute, look, plan, init, whole,
                    CopyInputs(p.g, look, plan, k - 1, before, |split.inputs|), k - 1, split.end);
    }
  }

  /** Splitting preserves meaning: after all splits every tensor of the graph holds what running the
      graph as it was gives it, whatever the copies held before. No view may look into a node that
      was moved up out of reach of its memory: SchedExact.CopyComesLate shows why. */
  lemma SplittingPreservesMeaning(p: Problem, ids: Ids, compute: Compute, look: Look, plan: Plan, init: Store, whole: Store, t: nat)
    requires ValidPlan(p, ids, plan) && ViewedKept(p)
    requires |init| == plan.total && |whole| == |p.g.tensors| && Agrees(p.g, init, whole) && t < |p.g.tensors|
    ensures Runnable(p.g, plan)
    ensures ValueOf(p.g, look, RunSplits(p.g, compute, look, plan, init, |plan.splits|), t) ==
            ValueOf(p.g, look, RunGraph(p.g, compute, look, whole, |p.g.nodes|), t)
  {
    ValidIsRunnable(p, ids, plan);
    SplitsKeepStep(p, ids, compute, look, plan, init, whole, |plan.splits|);
  }

  /** The assignments are those of the first four passes, and the plan that of the fifth. */
  ghost predicate ScheduleOf(p: Problem, ids: Ids, plan: Plan, stale: int)
    requires p.Valid() && 0 <= stale < p.be.n
  {
    Outcome(p, ids) && Splittable(p, ids) && PlanOf(p, ids, stale) == Some(plan)
  }

  /** All five passes. They fail on a tensor whose memory no backend can run it in, and on a node for
      which there is no room in a split. */
  method Schedule(p: Problem, stale: int) returns (ok: bool, ids: Ids, plan: Plan)
    requires Schedulable(p) && 0 <= stale < p.be.n
    ensures ok ==> Assigned(p, ids) && ValidPlan(p, ids, plan) && ScheduleOf(p, ids, plan, stale)
    ensures ok ==> SchedBoundary.SplitWell(p, ids, plan.splits, |p.g.nodes|)
    ensures !ok ==> (exists t :: Known(p.g, t) && Stuck(p, t)) || (plan.splits != [] && |Last(plan).inputs| >= MAX_SPLIT_INPUTS)
    ensures !ok ==> (exists t :: Known(p.g, t) && Stuck(p, t))
                    || (Assigned(p, ids) && exists i: nat :: SchedBoundary.FailsAt(p, ids, stale, i))
  {
    var assigner := new Assigner(p);
    ok := assigner.Assign();
    ids, plan := assigner.ids, Plan([], map[], 0, []);
    if ok {
      var splitter := new Splitter(p, ids);
      ok := splitter.SplitGraph(stale);
      plan := splitter.plan;
      if ok {
        SchedBoundary.PlanOfSplitsWell(p, ids, stale);
      } else {
        SchedBoundary.PlanFailsExactly(p, ids, stale);
      }
    }
  }
}
