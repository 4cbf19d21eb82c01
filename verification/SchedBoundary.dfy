/** Where pass 5 begins its splits, and when it fails, told by the plan and not by the steps that make it. */
module SchedBoundary {
  import opened Wrappers
  import opened TensorGraph
  import opened SchedAssign
  import opened SchedSplit

  /** Backend b cannot use tensor s where it is. */
  predicate OutOfReach(p: Problem, ids: Ids, s: nat, b: int)
    requires p.Valid() && ValidIdsFor(p, ids) && s < |p.g.tensors|
  {
    0 <= b < p.be.n && ids[s] != b && !BufferSupported(p, ids, s, b)
  }

  predicate IsWeight(p: Problem, s: nat)
    requires s < |p.buffer|
  {
    p.buffer[s].Some? && p.buffer[s].value.weights
  }

  /** The last of these splits, which copies something, does not take this source of the next node: a
      weight out of reach, or one copy too many. */
  predicate TakesNot(p: Problem, ids: Ids, splits: seq<Split>, s: nat)
    requires p.Valid() && ValidIdsFor(p, ids) && s < |p.g.tensors| && splits != []
  {
    var last := splits[|splits| - 1];
    && last.inputs != [] && OutOfReach(p, ids, s, last.backend)
    && (IsWeight(p, s) || (|last.inputs| == MAX_SPLIT_INPUTS && !FilledBy(splits, s, last.backend, |splits|)))
  }

  /** The node is on another backend than the last of these splits, or has a source that one does not take. */
  ghost predicate MustSplit(p: Problem, ids: Ids, splits: seq<Split>, i: nat)
    requires p.Valid() && ValidIdsFor(p, ids) && i < |p.g.nodes| && splits != []
  {
    var src := p.g.tensors[p.g.nodes[i]].src;
    ids[p.g.nodes[i]] != splits[|splits| - 1].backend || exists j :: 0 <= j < |src| && TakesNot(p, ids, splits, src[j])
  }

  /** Split k begins with a node that computes and that the splits before it cannot take. */
  ghost predicate BeginsRight(p: Problem, ids: Ids, splits: seq<Split>, k: nat)
    requires p.Valid() && ValidIdsFor(p, ids) && 0 < k < |splits|
  {
    var i := splits[k].start;
    && i < |p.g.nodes| && !p.IsViewNode(p.g.nodes[i]) && ids[p.g.nodes[i]] == splits[k].backend
    && MustSplit(p, ids, splits[..k], i)
  }

  ghost predicate HasFarWeight(p: Problem, ids: Ids, i: nat, b: int)
    requires p.Valid() && ValidIdsFor(p, ids) && i < |p.g.nodes|
  {
    var src := p.g.tensors[p.g.nodes[i]].src;
    exists j :: 0 <= j < |src| && IsWeight(p, src[j]) && OutOfReach(p, ids, src[j], b)
  }

  /** If node i, in a split that began before it, has a weight out of reach, nothing had been copied for the
      split by then: no node m before it has a source that the split copies. */
  ghost predicate WeightFirst(p: Problem, ids: Ids, split: Split, m: nat, i: nat)
    requires p.Valid() && ValidIdsFor(p, ids) && m < i < |p.g.nodes|
  {
    !p.IsViewNode(p.g.nodes[m]) && !p.IsViewNode(p.g.nodes[i]) && HasFarWeight(p, ids, i, split.backend) ==>
      NoInputOf(p, split, m)
  }

  predicate NoInputOf(p: Problem, split: Split, m: nat)
    requires p.g.ValidIds() && m < |p.g.nodes|
  {
    var src := p.g.tensors[p.g.nodes[m]].src;
    forall j :: 0 <= j < |src| ==> src[j] !in split.inputs
  }

  predicate FewInputs(splits: seq<Split>) {
    forall k :: 0 <= k < |splits| ==> |splits[k].inputs| <= MAX_SPLIT_INPUTS
  }

  ghost predicate AllBeginRight(p: Problem, ids: Ids, splits: seq<Split>)
    requires p.Valid() && ValidIdsFor(p, ids)
  {
    forall k :: 0 < k < |splits| ==> BeginsRight(p, ids, splits, k)
  }

  ghost predicate WeightsFirst(p: Problem, ids: Ids, splits: seq<Split>, reach: nat)
    requires p.Valid() && ValidIdsFor(p, ids)
  {
    forall k: nat, m: nat, i: nat :: m < i < |p.g.nodes| && InSplit(splits, m, k, reach) && InSplit(splits, i, k, reach) ==>
      WeightFirst(p, ids, splits[k], m, i)
  }

  /** No split begins without need, and none goes on where the next one has to begin. */
  ghost predicate SplitWell(p: Problem, ids: Ids, splits: seq<Split>, reach: nat)
    requires p.Valid() && ValidIdsFor(p, ids)
  {
    FewInputs(splits) && AllBeginRight(p, ids, splits) && WeightsFirst(p, ids, splits, reach)
  }

  // ----- what reading sources does to the last split

  /** now is plan with more inputs for its last split: sources from src, out of reach, with no copy before. */
  ghost predicate Fed(p: Problem, ids: Ids, plan: Plan, now: Plan, src: seq<nat>)
    requires p.Valid() && ValidIdsFor(p, ids) && Below(src, |ids|)
  {
    && plan.splits != [] && |now.splits| == |plan.splits| && now.splits[..|plan.splits| - 1] == plan.splits[..|plan.splits| - 1]
    && var was, more := Last(plan), Last(now);
       && more.backend == was.backend && more.start == was.start && was.inputs <= more.inputs
       && (|was.inputs| <= MAX_SPLIT_INPUTS ==> |more.inputs| <= MAX_SPLIT_INPUTS)
       && (forall s :: s in more.inputs[|was.inputs|..] ==> s in src && OutOfReach(p, ids, s, was.backend) && (s, was.backend) !in plan.copies)
       && (forall c :: c in plan.copies ==> c in now.copies)
  }

  lemma ReadOneFeeds(p: Problem, ids: Ids, plan: Plan, src: seq<nat>, s: nat)
    requires p.Valid() && ValidIdsFor(p, ids) && Below(src, |ids|) && OnBackend(p, plan) && s in src && ReadSource(p, ids, plan, s).Some?
    ensures Fed(p, ids, plan, ReadSource(p, ids, plan, s).value.0, src)
  {
    var now := ReadSource(p, ids, plan, s).value.0;
    if now != plan {
      assert Last(now).inputs[|Last(plan).inputs|..] == [s];
    }
  }

  lemma FedTwice(p: Problem, ids: Ids, a: Plan, b: Plan, c: Plan, src: seq<nat>)
    requires p.Valid() && ValidIdsFor(p, ids) && Below(src, |ids|) && Fed(p, ids, a, b, src) && Fed(p, ids, b, c, src)
    ensures Fed(p, ids, a, c, src)
  {
    var x, y, z := Last(a).inputs, Last(b).inputs, Last(c).inputs;
    forall s | s in z[|x|..] ensures s in y[|x|..] || s in z[|y|..] {
      var i :| |x| <= i < |z| && z[i] == s;
      if i < |y| {
        assert y[i] == s && y[|x|..][i - |x|] == s;
      } else {
        assert z[|y|..][i - |y|] == s;
      }
    }
  }

  lemma {:induction false} ReadFeeds(p: Problem, ids: Ids, plan: Plan, src: seq<nat>, j: nat, row: seq<nat>)
    requires p.Valid() && ValidIdsFor(p, ids) && OnBackend(p, plan) && Below(src, |ids|) && j == |row| <= |src|
    requires ReadSources(p, ids, plan, src, j, row).Some?
    ensures Fed(p, ids, plan, ReadSources(p, ids, plan, src, j, row).value.0, src)
    decreases |src| - j
  {
    if j < |src| {
      var (now, at) := ReadSource(p, ids, plan, src[j]).value;
      ReadOneFeeds(p, ids, plan, src, src[j]);
      ReadFeeds(p, ids, now, src, j + 1, row + [at]);
      FedTwice(p, ids, plan, now, ReadSources(p, ids, plan, src, j, row).value.0, src);
    }
  }

  // ----- a step keeps splits well

  lemma BeginsStay(p: Problem, ids: Ids, was: seq<Split>, now: seq<Split>)
    requires p.Valid() && ValidIdsFor(p, ids) && AllBeginRight(p, ids, was) && |was| == |now| > 0
    requires was[..|was| - 1] == now[..|was| - 1] && was[|was| - 1].start == now[|was| - 1].start
    requires was[|was| - 1].backend == now[|was| - 1].backend
    ensures AllBeginRight(p, ids, now)
  {
    forall k | 0 < k < |now| ensures BeginsRight(p, ids, now, k) {
      assert BeginsRight(p, ids, was, k);
      assert was[..k] == was[..|was| - 1][..k] == now[..k];
      assert k < |was| - 1 ==> was[k] == was[..|was| - 1][k] == now[k];
    }
  }

  /** Ending the last split does not matter to what it takes. */
  lemma EndedTakesSame(p: Problem, ids: Ids, splits: seq<Split>, end: nat, i: nat)
    requires p.Valid() && ValidIdsFor(p, ids) && i < |p.g.nodes| && splits != []
    ensures var last := |splits| - 1;
            MustSplit(p, ids, splits[last := splits[last].(end := end)], i) <==> MustSplit(p, ids, splits, i)
  {
    var last := |splits| - 1;
    var ended := splits[last := splits[last].(end := end)];
    forall s: nat, b: int ensures FilledBy(ended, s, b, |ended|) <==> FilledBy(splits, s, b, |splits|) {
      SameFilled(splits, ended, s, b);
      SameFilled(ended, splits, s, b);
    }
    forall s: nat | s < |p.g.tensors| ensures TakesNot(p, ids, ended, s) <==> TakesNot(p, ids, splits, s) {
    }
  }

  lemma SameFilled(was: seq<Split>, now: seq<Split>, s: nat, b: int)
    requires |was| == |now| && forall k :: 0 <= k < |was| ==> was[k].backend == now[k].backend && was[k].inputs == now[k].inputs
    ensures FilledBy(was, s, b, |was|) ==> FilledBy(now, s, b, |now|)
  {
    if FilledBy(was, s, b, |was|) {
      var k :| 0 <= k < |was| && was[k].backend == b && s in was[k].inputs;
      assert s in now[k].inputs;
    }
  }

  /** A tensor has a copy exactly if some split has made one. */
  lemma CopiedIsFilled(p: Problem, ids: Ids, plan: Plan, i: nat, s: nat, b: int)
    requires Cut(p, ids, plan, i)
    ensures (s, b) in plan.copies <==> FilledBy(plan.splits, s, b, |plan.splits|)
  {
    if FilledBy(plan.splits, s, b, |plan.splits|) {
      var k :| 0 <= k < |plan.splits| && plan.splits[k].backend == b && s in plan.splits[k].inputs;
      assert InputRight(p, ids, plan, plan.splits[k], s);
    }
  }

  lemma NeedsIsMust(p: Problem, ids: Ids, plan: Plan, i: nat)
    requires Cut(p, ids, plan, i) && OnBackend(p, plan) && i < |p.g.nodes|
    ensures NeedsSplit(p, ids, plan, i) <==> MustSplit(p, ids, plan.splits, i)
  {
    var src, b := p.g.tensors[p.g.nodes[i]].src, Last(plan).backend;
    forall j | 0 <= j < |src| ensures Last(plan).inputs != [] && Crowds(p, ids, plan, src[j]) <==> TakesNot(p, ids, plan.splits, src[j]) {
      CopiedIsFilled(p, ids, plan, i, src[j], b);
    }
  }

  lemma OpenedWell(p: Problem, ids: Ids, plan: Plan, i: nat, backend: int)
    requires Cut(p, ids, plan, i) && i < |p.g.nodes| && SplitWell(p, ids, plan.splits, i)
    requires !p.IsViewNode(p.g.nodes[i]) && ids[p.g.nodes[i]] == backend && MustSplit(p, ids, plan.splits, i)
    ensures SplitWell(p, ids, Opened(plan, i, backend).splits, i)
  {
    var was, now := plan.splits, Opened(plan, i, backend).splits;
    ShapeOpened(plan, i, backend);
    var ended := was[|was| - 1 := was[|was| - 1].(end := i)];
    BeginsStay(p, ids, was, ended);
    EndedTakesSame(p, ids, was, i, i);
    forall k | 0 < k < |now| ensures BeginsRight(p, ids, now, k) {
      assert now[..k] == ended[..k];
      if k < |was| {
        assert BeginsRight(p, ids, ended, k);
      } else {
        assert now[..k] == ended;
      }
    }
    forall k: nat, m: nat, n: nat | m < n < |p.g.nodes| && InSplit(now, m, k, i) && InSplit(now, n, k, i) ensures WeightFirst(p, ids, now[k], m, n) {
      assert InSplit(was, m, k, i) && InSplit(was, n, k, i);
      assert WeightFirst(p, ids, was[k], m, n);
    }
  }

  /** What is new among the inputs is no source of a node before. */
  lemma NewInputsAreNew(p: Problem, ids: Ids, plan: Plan, now: Plan, src: seq<nat>, i: nat, m: nat)
    requires Cut(p, ids, plan, i) && OnBackend(p, plan) && Below(src, |ids|) && Fed(p, ids, plan, now, src)
    requires InSplit(plan.splits, m, |plan.splits| - 1, i) && m < |p.g.nodes| && !p.IsViewNode(p.g.nodes[m])
    ensures NoInputOf(p, Last(plan), m) ==> NoInputOf(p, Last(now), m)
  {
    var k, row := |plan.splits| - 1, p.g.tensors[p.g.nodes[m]].src;
    var was, more := Last(plan).inputs, Last(now).inputs;
    assert NodeRight(p, ids, plan, m, k);
    forall j | 0 <= j < |row| ensures row[j] !in more[|was|..] {
      assert SourceRight(p, ids, plan, m, k, j);
    }
    forall s | s in more && s !in was ensures s in more[|was|..] {
      var n :| 0 <= n < |more| && more[n] == s;
      assert n >= |was|;
      assert more[|was|..][n - |was|] == s;
    }
  }

  /** The sources of node i have been read. */
  lemma FedWell(p: Problem, ids: Ids, plan: Plan, now: Plan, i: nat)
    requires Cut(p, ids, plan, i) && OnBackend(p, plan) && i < |p.g.nodes| && SplitWell(p, ids, plan.splits, i)
    requires !p.IsViewNode(p.g.nodes[i]) && Below(p.g.tensors[p.g.nodes[i]].src, |ids|)
    requires Fed(p, ids, plan, now, p.g.tensors[p.g.nodes[i]].src)
    requires HasFarWeight(p, ids, i, Last(plan).backend) ==> Last(plan).inputs == []
    ensures SplitWell(p, ids, now.splits, i + 1)
  {
    BeginsStay(p, ids, plan.splits, now.splits);
    FewStay(plan.splits, now.splits);
    forall k: nat, m: nat, n: nat | m < n < |p.g.nodes| && InSplit(now.splits, m, k, i + 1) && InSplit(now.splits, n, k, i + 1)
      ensures WeightFirst(p, ids, now.splits[k], m, n)
    {
      StillFirst(p, ids, plan, now, i, m, n, k);
    }
  }

  lemma StillFirst(p: Problem, ids: Ids, plan: Plan, now: Plan, i: nat, m: nat, n: nat, k: nat)
    requires Cut(p, ids, plan, i) && OnBackend(p, plan) && i < |p.g.nodes| && WeightsFirst(p, ids, plan.splits, i)
    requires !p.IsViewNode(p.g.nodes[i]) && Below(p.g.tensors[p.g.nodes[i]].src, |ids|)
    requires Fed(p, ids, plan, now, p.g.tensors[p.g.nodes[i]].src)
    requires HasFarWeight(p, ids, i, Last(plan).backend) ==> Last(plan).inputs == []
    requires m < n < |p.g.nodes| && InSplit(now.splits, m, k, i + 1) && InSplit(now.splits, n, k, i + 1)
    ensures WeightFirst(p, ids, now.splits[k], m, n)
  {
    SamePlaces(p, ids, plan, now, i, m, n, k);
    if n < i {
      assert WeightFirst(p, ids, plan.splits[k], m, n);
    }
    if k == |plan.splits| - 1 && !p.IsViewNode(p.g.nodes[m]) {
      NewInputsAreNew(p, ids, plan, now, p.g.tensors[p.g.nodes[i]].src, i, m);
    }
  }

  lemma FewStay(was: seq<Split>, now: seq<Split>)
    requires |was| == |now| > 0 && was[..|was| - 1] == now[..|was| - 1] && FewInputs(was)
    requires |now[|now| - 1].inputs| <= MAX_SPLIT_INPUTS
    ensures FewInputs(now)
  {
    forall k | 0 <= k < |now| - 1 ensures |now[k].inputs| <= MAX_SPLIT_INPUTS {
      assert now[k] == now[..|was| - 1][k] == was[k];
    }
  }

  /** With node i the last split reaches further, the others are as they were. */
  lemma SamePlaces(p: Problem, ids: Ids, plan: Plan, now: Plan, i: nat, m: nat, n: nat, k: nat)
    requires Cut(p, ids, plan, i) && i < |p.g.nodes| && m < n && Below(p.g.tensors[p.g.nodes[i]].src, |ids|)
    requires Fed(p, ids, plan, now, p.g.tensors[p.g.nodes[i]].src)
    requires InSplit(now.splits, m, k, i + 1) && InSplit(now.splits, n, k, i + 1)
    ensures InSplit(plan.splits, m, k, i) && (n < i ==> InSplit(plan.splits, n, k, i))
    ensures k < |plan.splits| - 1 ==> n < i && now.splits[k] == plan.splits[k]
    ensures k == |plan.splits| - 1 ==> n <= i
  {
    var last := |plan.splits| - 1;
    if k < last {
      assert now.splits[k] == now.splits[..last][k] == plan.splits[..last][k] == plan.splits[k];
      assert plan.splits[k].end <= plan.splits[last].start <= i;
    }
  }

  // ----- all nodes

  lemma PastViewWell(p: Problem, ids: Ids, splits: seq<Split>, i: nat)
    requires p.Valid() && ValidIdsFor(p, ids) && i < |p.g.nodes| && p.IsViewNode(p.g.nodes[i]) && SplitWell(p, ids, splits, i)
    ensures SplitWell(p, ids, splits, i + 1)
  {
    forall k: nat, m: nat, n: nat | m < n < |p.g.nodes| && InSplit(splits, m, k, i + 1) && InSplit(splits, n, k, i + 1)
      ensures WeightFirst(p, ids, splits[k], m, n)
    {
      if n < i {
        assert InSplit(splits, m, k, i) && InSplit(splits, n, k, i);
      }
    }
  }

  lemma BegunWell(p: Problem, ids: Ids, plan: Plan, i: nat)
    requires Cut(p, ids, plan, i) && OnBackend(p, plan) && i < |p.g.nodes| && SplitWell(p, ids, plan.splits, i)
    requires !p.IsViewNode(p.g.nodes[i]) && ids[p.g.nodes[i]] != -1
    ensures var begun := WithSplitFor(p, ids, plan, i);
            && Cut(p, ids, begun, i) && SplitWell(p, ids, begun.splits, i)
            && (HasFarWeight(p, ids, i, Last(begun).backend) ==> Last(begun).inputs == [])
  {
    NeedsIsMust(p, ids, plan, i);
    if NeedsSplit(p, ids, plan, i) {
      CutAtNewSplit(p, ids, plan, i, ids[p.g.nodes[i]]);
      OpenedWell(p, ids, plan, i, ids[p.g.nodes[i]]);
    } else if HasFarWeight(p, ids, i, Last(plan).backend) {
      var src := p.g.tensors[p.g.nodes[i]].src;
      var j :| 0 <= j < |src| && IsWeight(p, src[j]) && OutOfReach(p, ids, src[j], Last(plan).backend);
      assert !TakesNot(p, ids, plan.splits, src[j]);
    }
  }

  lemma StepWell(p: Problem, ids: Ids, plan: Plan, i: nat)
    requires Splittable(p, ids) && Cut(p, ids, plan, i) && OnBackend(p, plan) && i < |p.g.nodes| && SplitWell(p, ids, plan.splits, i)
    requires PlanStep(p, ids, plan, i).Some?
    ensures SplitWell(p, ids, PlanStep(p, ids, plan, i).value.splits, i + 1)
  {
    var t := p.g.nodes[i];
    if p.IsViewNode(t) {
      PastViewWell(p, ids, plan.splits, i);
    } else {
      BegunWell(p, ids, plan, i);
      var begun := WithSplitFor(p, ids, plan, i);
      assert Below(p.g.tensors[t].src, |ids|);
      ReadFeeds(p, ids, begun, p.g.tensors[t].src, 0, []);
      FedWell(p, ids, begun, ReadSources(p, ids, begun, p.g.tensors[t].src, 0, []).value.0, i);
    }
  }

  lemma EndedWell(p: Problem, ids: Ids, plan: Plan)
    requires Cut(p, ids, plan, |p.g.nodes|) && SplitWell(p, ids, plan.splits, |p.g.nodes|)
    ensures SplitWell(p, ids, Ended(plan, |p.g.nodes|).splits, |p.g.nodes|)
  {
    var was, now := plan.splits, Ended(plan, |p.g.nodes|).splits;
    BeginsStay(p, ids, was, now);
    forall k: nat, m: nat, n: nat | m < n < |p.g.nodes| && InSplit(now, m, k, |p.g.nodes|) && InSplit(now, n, k, |p.g.nodes|)
      ensures WeightFirst(p, ids, now[k], m, n)
    {
      assert InSplit(was, m, k, |p.g.nodes|) && InSplit(was, n, k, |p.g.nodes|);
      assert WeightFirst(p, ids, was[k], m, n);
    }
  }

  ghost predicate Good(p: Problem, ids: Ids, plan: Plan, i: nat)
    requires p.Valid() && ValidIdsFor(p, ids)
  {
    OnBackend(p, plan) && Cut(p, ids, plan, i) && SplitWell(p, ids, plan.splits, i)
  }

  lemma StepGood(p: Problem, ids: Ids, plan: Plan, i: nat)
    requires Schedulable(p) && Assigned(p, ids) && i < |p.g.nodes| && Good(p, ids, plan, i) && PlanStep(p, ids, plan, i).Some?
    ensures Good(p, ids, PlanStep(p, ids, plan, i).value, i + 1)
  {
    PlanStepRight(p, ids, plan, i);
    StepWell(p, ids, plan, i);
  }

  /** The plan for the first n nodes; nothing when some split gets too many inputs. */
  ghost function PlanUpTo(p: Problem, ids: Ids, stale: int, n: nat): (r: Option<Plan>)
    requires Splittable(p, ids) && 0 <= stale < p.be.n && n <= |p.g.nodes|
    ensures r.Some? ==> OnBackend(p, r.value)
  {
    if n == 0 then
      FirstBackendIsOne(p, ids, stale, 0);
      Some(FirstPlan(p, ids, stale))
    else
      var before := PlanUpTo(p, ids, stale, n - 1);
      if before.None? then None else PlanStep(p, ids, before.value, n - 1)
  }

  /** Pass 5 goes on from there. */
  lemma {:induction false} UpToGoesOn(p: Problem, ids: Ids, stale: int, n: nat)
    requires Splittable(p, ids) && 0 <= stale < p.be.n && n <= |p.g.nodes|
    ensures var plan := PlanUpTo(p, ids, stale, n);
            PlanOf(p, ids, stale) == if plan.None? then None else PlanFrom(p, ids, plan.value, n)
    decreases n
  {
    if n == 0 {
      FirstBackendIsOne(p, ids, stale, 0);
    } else {
      UpToGoesOn(p, ids, stale, n - 1);
      var before := PlanUpTo(p, ids, stale, n - 1);
      if before.Some? {
        PlanGoesOn(p, ids, before.value, n - 1);
      }
    }
  }

  /** The plans that are good for the first n nodes, with none at all for one that fails. */
  ghost function GoodPlans(p: Problem, ids: Ids, n: nat): iset<Option<Plan>>
    requires p.Valid() && ValidIdsFor(p, ids)
  {
    iset plan: Option<Plan> | plan.Some? ==> Good(p, ids, plan.value, n)
  }

  lemma FirstGood(p: Problem, ids: Ids, stale: int)
    requires Schedulable(p) && Assigned(p, ids) && 0 <= stale < p.be.n
    ensures PlanUpTo(p, ids, stale, 0) in GoodPlans(p, ids, 0)
  {
    FirstBackendIsOne(p, ids, stale, 0);
    FirstCut(p, ids, 0, FirstBackend(p, ids, stale, 0));
    FirstWell(p, ids, FirstBackend(p, ids, stale, 0));
  }

  ghost predicate GoodAt(p: Problem, ids: Ids, stale: int, n: nat)
    requires Splittable(p, ids) && 0 <= stale < p.be.n
  {
    n <= |p.g.nodes| ==> PlanUpTo(p, ids, stale, n) in GoodPlans(p, ids, n)
  }

  lemma NextGood(p: Problem, ids: Ids, stale: int, n: nat)
    requires Schedulable(p) && Assigned(p, ids) && 0 <= stale < p.be.n && n < |p.g.nodes| && GoodAt(p, ids, stale, n)
    ensures GoodAt(p, ids, stale, n + 1)
  {
    var before := PlanUpTo(p, ids, stale, n);
    if before.Some? && PlanStep(p, ids, before.value, n).Some? {
      StepGood(p, ids, before.value, n);
    }
  }

  lemma {:induction false} FromZeroOn(good: nat -> bool, n: nat)
    requires good(0) && forall i: nat :: i < n && good(i) ==> good(i + 1)
    ensures good(n)
  {
    if n > 0 {
      FromZeroOn(good, n - 1);
    }
  }

  lemma UpToGood(p: Problem, ids: Ids, stale: int, n: nat)
    requires Schedulable(p) && Assigned(p, ids) && 0 <= stale < p.be.n && n <= |p.g.nodes|
    ensures PlanUpTo(p, ids, stale, n) in GoodPlans(p, ids, n)
  {
    FirstGood(p, ids, stale);
    forall i: nat | i < n && GoodAt(p, ids, stale, i) ensures GoodAt(p, ids, stale, i + 1) {
      NextGood(p, ids, stale, i);
    }
    FromZeroOn((i: nat) => GoodAt(p, ids, stale, i), n);
  }

  lemma FirstWell(p: Problem, ids: Ids, backend: int)
    requires p.Valid() && ValidIdsFor(p, ids)
    ensures SplitWell(p, ids, [Split(backend, 0, 0, [])], 0)
  {
  }

  /** In the plan of pass 5 splits begin exactly where they have to. */
  lemma PlanOfSplitsWell(p: Problem, ids: Ids, stale: int)
    requires Schedulable(p) && Assigned(p, ids) && 0 <= stale < p.be.n && PlanOf(p, ids, stale).Some?
    ensures SplitWell(p, ids, PlanOf(p, ids, stale).value.splits, |p.g.nodes|)
  {
    UpToGood(p, ids, stale, |p.g.nodes|);
    UpToGoesOn(p, ids, stale, |p.g.nodes|);
    EndedWell(p, ids, PlanUpTo(p, ids, stale, |p.g.nodes|).value);
  }

  // ----- when it fails

  /** The sources that the last split would have to copy. */
  ghost function FarSources(p: Problem, ids: Ids, plan: Plan, src: seq<nat>, j: nat, b: int): set<nat>
    requires p.Valid() && ValidIdsFor(p, ids) && Below(src, |ids|) && j <= |src|
  {
    set s | s in src[j..] && OutOfReach(p, ids, s, b) && (s, b) !in plan.copies
  }

  /** Reading the sources from the j-th on fails exactly if they need more copies than there is room for. */
  ghost predicate FailsExactly(p: Problem, ids: Ids, plan: Plan, src: seq<nat>, j: nat, row: seq<nat>)
    requires p.Valid() && ValidIdsFor(p, ids) && OnBackend(p, plan) && Below(src, |ids|) && j == |row| <= |src|
  {
    ReadSources(p, ids, plan, src, j, row).None? <==>
      |Last(plan).inputs| + |FarSources(p, ids, plan, src, j, Last(plan).backend)| > MAX_SPLIT_INPUTS
  }

  lemma {:induction false} ReadFailsExactly(p: Problem, ids: Ids, plan: Plan, src: seq<nat>, j: nat, row: seq<nat>)
    requires p.Valid() && ValidIdsFor(p, ids) && OnBackend(p, plan) && Below(src, |ids|) && j == |row| <= |src|
    requires |Last(plan).inputs| <= MAX_SPLIT_INPUTS
    ensures FailsExactly(p, ids, plan, src, j, row)
    decreases |src| - j
  {
    if j == |src| {
      assert FarSources(p, ids, plan, src, j, Last(plan).backend) == {};
    } else {
      var read := ReadSource(p, ids, plan, src[j]);
      if read.None? {
        OneTooMany(p, ids, plan, src, j, row);
      } else {
        var (now, at) := read.value;
        FewerThanLimit(p, ids, plan, src[j]);
        ReadFailsExactly(p, ids, now, src, j + 1, row + [at]);
        OneFarLess(p, ids, plan, src, j);
      }
    }
  }

  lemma FewerThanLimit(p: Problem, ids: Ids, plan: Plan, s: nat)
    requires p.Valid() && ValidIdsFor(p, ids) && OnBackend(p, plan) && s < |ids| && ReadSource(p, ids, plan, s).Some?
    requires |Last(plan).inputs| <= MAX_SPLIT_INPUTS
    ensures |Last(ReadSource(p, ids, plan, s).value.0).inputs| <= MAX_SPLIT_INPUTS
  {
  }

  lemma OneTooMany(p: Problem, ids: Ids, plan: Plan, src: seq<nat>, j: nat, row: seq<nat>)
    requires p.Valid() && ValidIdsFor(p, ids) && OnBackend(p, plan) && Below(src, |ids|) && j == |row| < |src|
    requires |Last(plan).inputs| <= MAX_SPLIT_INPUTS && ReadSource(p, ids, plan, src[j]).None?
    ensures FailsExactly(p, ids, plan, src, j, row)
  {
    assert src[j..] == [src[j]] + src[j + 1..];
    SizeAtLeast(FarSources(p, ids, plan, src, j, Last(plan).backend), src[j]);
  }

  lemma SizeAtLeast(s: set<nat>, x: nat)
    requires x in s
    ensures |s| == |s - {x}| + 1
  {
  }

  lemma OneFarLess(p: Problem, ids: Ids, plan: Plan, src: seq<nat>, j: nat)
    requires p.Valid() && ValidIdsFor(p, ids) && OnBackend(p, plan) && Below(src, |ids|) && j < |src|
    requires ReadSource(p, ids, plan, src[j]).Some?
    ensures var now, b := ReadSource(p, ids, plan, src[j]).value.0, Last(plan).backend;
            |Last(now).inputs| + |FarSources(p, ids, now, src, j + 1, b)| == |Last(plan).inputs| + |FarSources(p, ids, plan, src, j, b)|
  {
    var now, b := ReadSource(p, ids, plan, src[j]).value.0, Last(plan).backend;
    assert src[j..] == [src[j]] + src[j + 1..];
    var far, rest := FarSources(p, ids, plan, src, j, b), FarSources(p, ids, now, src, j + 1, b);
    if now == plan {
      assert far == rest;
    } else {
      assert rest == far - {src[j]};
      SizeAtLeast(far, src[j]);
    }
  }

  /** Node i computes, and the sources it would have copied are more than its split has room for: the last
      split, or, if that does not take the node, an empty one. */
  ghost predicate NoRoom(p: Problem, ids: Ids, plan: Plan, i: nat)
    requires p.Valid() && ValidIdsFor(p, ids) && i < |p.g.nodes| && plan.splits != []
  {
    var t := p.g.nodes[i];
    && !p.IsViewNode(t) && Below(p.g.tensors[t].src, |ids|)
    && (if MustSplit(p, ids, plan.splits, i) then 0 else |Last(plan).inputs|)
       + |FarSources(p, ids, plan, p.g.tensors[t].src, 0, ids[t])| > MAX_SPLIT_INPUTS
  }

  lemma StepFailsExactly(p: Problem, ids: Ids, plan: Plan, i: nat)
    requires Splittable(p, ids) && Good(p, ids, plan, i) && i < |p.g.nodes|
    ensures PlanStep(p, ids, plan, i).None? <==> NoRoom(p, ids, plan, i)
  {
    var t := p.g.nodes[i];
    assert Below(p.g.tensors[t].src, |ids|);
    if !p.IsViewNode(t) {
      NeedsIsMust(p, ids, plan, i);
      var begun := WithSplitFor(p, ids, plan, i);
      ReadFailsExactly(p, ids, begun, p.g.tensors[t].src, 0, []);
      assert FailsExactly(p, ids, begun, p.g.tensors[t].src, 0, []);
      assert FarSources(p, ids, begun, p.g.tensors[t].src, 0, ids[t]) == FarSources(p, ids, plan, p.g.tensors[t].src, 0, ids[t]);
    }
  }

  /** There is no room for node i in the plan for the nodes before it. */
  ghost predicate FailsAt(p: Problem, ids: Ids, stale: int, i: nat)
    requires Splittable(p, ids) && 0 <= stale < p.be.n
  {
    i < |p.g.nodes| && PlanUpTo(p, ids, stale, i).Some? && NoRoom(p, ids, PlanUpTo(p, ids, stale, i).value, i)
  }

  ghost predicate ExactAt(p: Problem, ids: Ids, stale: int, i: nat)
    requires Splittable(p, ids) && 0 <= stale < p.be.n && i < |p.g.nodes|
  {
    PlanUpTo(p, ids, stale, i).Some? ==> (PlanUpTo(p, ids, stale, i + 1).None? <==> FailsAt(p, ids, stale, i))
  }

  lemma UpToFailsExactly(p: Problem, ids: Ids, stale: int, i: nat)
    requires Schedulable(p) && Assigned(p, ids) && 0 <= stale < p.be.n && i < |p.g.nodes|
    ensures ExactAt(p, ids, stale, i)
  {
    if PlanUpTo(p, ids, stale, i).Some? {
      UpToGood(p, ids, stale, i);
      StepFailsExactly(p, ids, PlanUpTo(p, ids, stale, i).value, i);
    }
  }

  lemma {:induction false} FirstFailure(p: Problem, ids: Ids, stale: int, n: nat) returns (i: nat)
    requires Splittable(p, ids) && 0 <= stale < p.be.n && n <= |p.g.nodes|
    requires PlanUpTo(p, ids, stale, n).None? && forall k :: 0 <= k < n ==> ExactAt(p, ids, stale, k)
    ensures FailsAt(p, ids, stale, i)
    decreases n
  {
    if PlanUpTo(p, ids, stale, n - 1).None? {
      i := FirstFailure(p, ids, stale, n - 1);
    } else {
      i := n - 1;
      assert ExactAt(p, ids, stale, i);
    }
  }

  lemma FailureShows(p: Problem, ids: Ids, stale: int)
    requires Splittable(p, ids) && 0 <= stale < p.be.n && forall k :: 0 <= k < |p.g.nodes| ==> ExactAt(p, ids, stale, k)
    ensures PlanOf(p, ids, stale).None? <==> exists i: nat :: FailsAt(p, ids, stale, i)
  {
    UpToGoesOn(p, ids, stale, |p.g.nodes|);
    if PlanOf(p, ids, stale).None? {
      var i := FirstFailure(p, ids, stale, |p.g.nodes|);
    }
    if i: nat :| FailsAt(p, ids, stale, i) {
      assert ExactAt(p, ids, stale, i);
      UpToGoesOn(p, ids, stale, i + 1);
    }
  }

  /** Pass 5 fails exactly if it comes to a node for which there is no room. */
  lemma PlanFailsExactly(p: Problem, ids: Ids, stale: int)
    requires Schedulable(p) && Assigned(p, ids) && 0 <= stale < p.be.n
    ensures PlanOf(p, ids, stale).None? <==> exists i: nat :: FailsAt(p, ids, stale, i)
  {
    forall k | 0 <= k < |p.g.nodes| ensures ExactAt(p, ids, stale, k) {
      UpToFailsExactly(p, ids, stale, k);
    }
    FailureShows(p, ids, stale);
  }
}
