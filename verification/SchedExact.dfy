/** Exactly when the scheduler can be trusted with memory: pass 3 compares the buffer types that backends
    allocate, not the memory a node is in, so which backends there are decides it. */
module SchedExact {
  import opened Wrappers
  import opened TensorGraph
  import opened SchedAssign
  import opened SchedSplit
  import opened SchedRun

  ghost predicate ValidBackends(be: Backends) {
    be.n > 0 && |be.bufts| == be.n
  }

  /** Every backend can use what it allocates; the source asserts it when a scheduler is made. */
  ghost predicate OwnBuffers(be: Backends) {
    forall b: nat :: b < be.n && b < |be.bufts| ==> be.supportsBuft(b, be.bufts[b])
  }

  /** Each backend that shares a type of buffer with one after it can use all that the latter can. */
  ghost predicate AllTypesKept(be: Backends) {
    forall x: nat :: TypeKept(be, x)
  }

  /** The problem is one for these backends, whatever operations they run. */
  ghost predicate PosedTo(p: Problem, be: Backends) {
    p.be.n == be.n && p.be.bufts == be.bufts && p.be.supportsBuft == be.supportsBuft
  }

  // ----- the passes as a whole

  lemma {:induction false} SweptFillsIn(p: Problem, ids: Ids, up: bool, skipLast: bool, k: nat)
    requires p.g.ValidIds() && ValidIdsFor(p, ids) && k <= |p.g.nodes|
    ensures FillsIn(ids, Swept(p, ids, up, skipLast, k).0)
  {
    if k > 0 {
      SweptFillsIn(p, ids, up, skipLast, k - 1);
    }
  }

  lemma SpreadFillsIn(p: Problem, ids: Ids)
    requires p.g.ValidIds() && ValidIdsFor(p, ids)
    ensures FillsIn(ids, Spread(p, ids))
  {
    var n := |p.g.nodes|;
    var one := Swept(p, ids, false, true, n).0;
    var two := Swept(p, one, true, true, n).0;
    var three := Swept(p, two, false, false, n).0;
    SweptFillsIn(p, ids, false, true, n);
    SweptFillsIn(p, one, true, true, n);
    SweptFillsIn(p, two, false, false, n);
    SweptFillsIn(p, three, true, false, n);
  }

  lemma SpreadSound(p: Problem, ids: Ids)
    requires LeafsApart(p.g) && Sound(p, ids)
    ensures Sound(p, Spread(p, ids))
  {
    var n := |p.g.nodes|;
    SweptSound(p, ids, false, true, n);
    var one := Swept(p, ids, false, true, n).0;
    SweptSound(p, one, true, true, n);
    var two := Swept(p, one, true, true, n).0;
    SweptSound(p, two, false, false, n);
    SweptSound(p, Swept(p, two, false, false, n).0, true, false, n);
  }

  lemma AfterPassOneSound(p: Problem, first: Ids)
    requires Schedulable(p) && AfterPassOne(p, first)
    ensures Sound(p, first)
  {
    var before := seq(|first|, t requires 0 <= t < |first| => if t in p.g.nodes then -1 else first[t]);
    assert ValidIdsFor(p, before);
    forall i | 0 <= i < |p.g.leafs| ensures FirstChoice(p, p.g.leafs[i], before[p.g.leafs[i]]) {
      assert p.g.leafs[i] !in p.g.nodes;
    }
    PassOneSound(p, before, first);
  }

  lemma WithRootsRooted(p: Problem, ids: Ids)
    requires Shaped(p) && Rooted(p, ids)
    ensures Rooted(p, WithRoots(p, ids)) && PlacedTo(p, WithRoots(p, ids), |p.g.nodes|)
  {
    var now := WithRoots(p, ids);
    forall t | 0 <= t < |ids| && ids[t] == -1 && Known(p.g, t) ensures p.g.IsView(t) && p.IsViewNode(t) && !p.Located(t) && now[t] != -1 {
      OpenViewFollows(p, ids, t);
      var i :| 0 <= i < |p.g.nodes| && p.g.nodes[i] == t;
      assert InReach(p, ids, p.g.nodes[i]);
    }
    forall i | 0 <= i < |p.g.nodes| && p.IsViewNode(p.g.nodes[i]) && !p.Located(p.g.nodes[i]) ensures WithRoot(p, now, p.g.nodes[i]) {
      var v := p.g.nodes[i];
      RootIsNoView(p, v);
      assert WithRoot(p, ids, v) && Known(p.g, p.g.Root(v));
    }
    forall i | 0 <= i < |p.g.nodes| ensures InReach(p, now, p.g.nodes[i]) {
      assert InReach(p, ids, p.g.nodes[i]);
    }
  }

  lemma SoundIsRooted(p: Problem, ids: Ids)
    requires Shaped(p) && Sound(p, ids) && ComputingPlaced(p, ids, |p.g.nodes|)
    ensures Rooted(p, ids)
  {
  }

  /** What the four passes give is an assignment as it should be. */
  lemma OutcomeAssigned(p: Problem, ids: Ids)
    requires Schedulable(p) && Outcome(p, ids)
    ensures Assigned(p, ids)
  {
    var first: Ids :| AfterPassOne(p, first) && ids == AfterFirst(p, first);
    AfterPassOneSound(p, first);
    SpreadSound(p, first);
    var n := |p.g.nodes|;
    ThirdSound(p, Spread(p, first), n);
    SoundIsRooted(p, Third(p, Spread(p, first), n));
    WithRootsRooted(p, Third(p, Spread(p, first), n));
  }

  // ----- when an upgrade keeps memory in reach

  /** Node t is assigned when pass 3 gets to it. */
  predicate Moves(p: Problem, ids: Ids, t: nat)
    requires p.Valid() && ValidIdsFor(p, ids)
  {
    t < |ids| && t in p.g.nodes && !p.IsViewNode(t) && ids[t] != -1
  }

  function Upgraded(p: Problem, ids: Ids, t: nat): (r: Ids)
    requires p.Valid() && ValidIdsFor(p, ids) && Moves(p, ids, t)
    ensures ValidIdsFor(p, r)
  {
    ids[t := FirstTakeOver(p, ids, t, 0)]
  }

  ghost predicate UpgradeKeepsReach(p: Problem, ids: Ids, t: nat) {
    p.Valid() && ValidIdsFor(p, ids) && Moves(p, ids, t) && Holds(p, ids, t) ==> Holds(p, Upgraded(p, ids, t), t)
  }

  /** No upgrade of pass 3, from whatever sound assignments, takes a node out of reach of its memory. */
  ghost predicate UpgradesKeepReach(be: Backends) {
    forall p: Problem, ids: Ids, t: nat :: PosedTo(p, be) && Schedulable(p) && Sound(p, ids) ==> UpgradeKeepsReach(p, ids, t)
  }

  /** What passes 1 and 2 leave for pass 3. */
  ghost predicate BeforePassThree(p: Problem, ids: Ids)
    requires p.Valid()
  {
    exists first: Ids :: AfterPassOne(p, first) && ids == Spread(p, first)
  }

  /** No upgrade that pass 3 starts with does. */
  ghost predicate FirstUpgradesKeepReach(be: Backends) {
    forall p: Problem, ids: Ids, t: nat :: PosedTo(p, be) && Schedulable(p) && BeforePassThree(p, ids) ==> UpgradeKeepsReach(p, ids, t)
  }

  lemma KeptUpgrade(p: Problem, ids: Ids, t: nat)
    requires p.Valid() && AllTypesKept(p.be)
    ensures UpgradeKeepsReach(p, ids, t)
  {
    if ValidIdsFor(p, ids) && Moves(p, ids, t) && Holds(p, ids, t) && p.Located(t) {
      FirstTakeOverIsFirst(p, ids, t, 0);
      var r := FirstTakeOver(p, ids, t, 0);
      assert TypeKept(p.be, p.buffer[p.g.Root(t)].value.buft);
      if r < ids[t] {
        assert SameType(p.be, ids[t], r);
      }
    }
  }

  /** Backends a and b allocate the same type of buffer, but only a, which comes later, can use type x. */
  ghost predicate Differ(be: Backends, a: nat, b: nat, x: nat) {
    b < a < be.n && SameType(be, a, b) && be.supportsBuft(a, x) && !be.supportsBuft(b, x)
  }

  /** One node in memory of type x, which a, b and the last backend can run. */
  function OneNode(be: Backends, a: nat, b: nat, x: nat): Problem {
    Problem(
      Backends(be.n, be.bufts, (c: nat, t: nat) => c == a || c == b || c == be.n - 1, be.supportsBuft, (c: nat, t: nat) => false, false),
      Graph([Tensor(Other(0), [], None, true, false, false, 0, 1)], [0], []),
      [Some(Buffer(x, false, false))])
  }

  lemma OneNodeIsSchedulable(be: Backends, a: nat, b: nat, x: nat)
    requires ValidBackends(be) && Differ(be, a, b, x)
    ensures Schedulable(OneNode(be, a, b, x)) && PosedTo(OneNode(be, a, b, x), be)
  {
    var p := OneNode(be, a, b, x);
    assert p.g.ValidIds() && p.Valid();
    assert p.g.NodeReady(0);
    assert Known(p.g, 0);
    forall t: nat | t < |p.g.tensors| ensures LastSupports(p, t) {
    }
  }

  /** Passes 1 and 2 give the node to a; pass 3 moves it to b, which cannot use its memory. */
  lemma OneNodeIsLost(be: Backends, a: nat, b: nat, x: nat)
    requires ValidBackends(be) && Differ(be, a, b, x)
    ensures var p := OneNode(be, a, b, x);
            Schedulable(p) && PosedTo(p, be) && BeforePassThree(p, [a]) && !UpgradeKeepsReach(p, [a], 0)
  {
    OneNodeIsSchedulable(be, a, b, x);
    var p := OneNode(be, a, b, x);
    var ids: Ids := [a];
    assert FirstChoice(p, 0, a);
    assert AfterPassOne(p, ids);
    SpreadFillsIn(p, ids);
    assert Spread(p, ids) == ids;
    assert CanTakeOver(p, ids, 0, b);
    FirstTakeOverIsFirst(p, ids, 0, 0);
    assert FirstTakeOver(p, ids, 0, 0) == b by {
      var r := FirstTakeOver(p, ids, 0, 0);
      assert r < ids[0] ==> CanTakeOver(p, ids, 0, r);
    }
  }

  /** The exact condition: pass 3 never loses sight of memory, whatever the problem, if and only if each
      backend that shares a type of buffer with one after it can use all that the latter can. */
  lemma UpgradeKeepsReachExactly(be: Backends)
    requires ValidBackends(be)
    ensures UpgradesKeepReach(be) <==> AllTypesKept(be)
    ensures FirstUpgradesKeepReach(be) <==> AllTypesKept(be)
  {
    if AllTypesKept(be) {
      forall p: Problem, ids: Ids, t: nat | PosedTo(p, be) && Schedulable(p) ensures UpgradeKeepsReach(p, ids, t) {
        SameTypesKept(be, p);
        KeptUpgrade(p, ids, t);
      }
    } else {
      var x: nat :| !TypeKept(be, x);
      var a: nat, b: nat :| b < a && SameType(be, a, b) && be.supportsBuft(a, x) && !be.supportsBuft(b, x);
      assert Differ(be, a, b, x);
      OneNodeIsLost(be, a, b, x);
      var p := OneNode(be, a, b, x);
      var ids: Ids := [a];
      var first: Ids :| AfterPassOne(p, first) && ids == Spread(p, first);
      AfterPassOneSound(p, first);
      SpreadSound(p, first);
      assert Sound(p, ids) && BeforePassThree(p, ids) && !UpgradeKeepsReach(p, ids, 0);
    }
  }

  // ----- when splitting preserves meaning

  /** After all splits tensor t has the value it has when the graph runs as it was. */
  ghost predicate SameMeaning(p: Problem, plan: Plan, compute: Compute, look: Look, init: Store, t: nat) {
    Runnable(p.g, plan) && |init| == plan.total && t < |p.g.tensors| ==>
      ValueOf(p.g, look, RunSplits(p.g, compute, look, plan, init, |plan.splits|), t) ==
      ValueOf(p.g, look, RunGraph(p.g, compute, look, init[..|p.g.tensors|], |p.g.nodes|), t)
  }

  /** The plan is what the scheduler makes of a problem for these backends. */
  ghost predicate Scheduled(be: Backends, p: Problem, ids: Ids, plan: Plan, stale: nat) {
    PosedTo(p, be) && Schedulable(p) && stale < be.n && ScheduleOf(p, ids, plan, stale)
  }

  /** Whatever the scheduler makes of a problem for these backends preserves its meaning. */
  ghost predicate SchedulesPreserveMeaning(be: Backends) {
    forall p: Problem, ids: Ids, plan: Plan, stale: nat, compute: Compute, look: Look, init: Store, t: nat ::
      Scheduled(be, p, ids, plan, stale) ==> SameMeaning(p, plan, compute, look, init, t)
  }

  lemma KeptSchedule(p: Problem, ids: Ids, plan: Plan, stale: nat, compute: Compute, look: Look, init: Store, t: nat)
    requires Schedulable(p) && stale < p.be.n && ScheduleOf(p, ids, plan, stale) && AllTypesKept(p.be)
    ensures SameMeaning(p, plan, compute, look, init, t)
  {
    OutcomeAssigned(p, ids);
    PlanOfRight(p, ids, stale);
    assert ViewedKept(p);
    if Runnable(p.g, plan) && |init| == plan.total && t < |p.g.tensors| {
      SplittingPreservesMeaning(p, ids, compute, look, plan, init, init[..|p.g.tensors|], t);
    }
  }

  /** A node, a view of it, a weight, and a node that reads the view and the weight. */
  const VIEWED := Graph([Tensor(Other(0), [], None, true, false, false, 0, 1),
                         Tensor(View, [0], Some(0), false, false, false, 0, 1),
                         Tensor(Other(1), [1, 3], None, false, false, true, 0, 1),
                         Tensor(OpNone, [], None, true, false, false, 0, 1)], [0, 1, 2], [3])

  /** The first node is in memory of type x, the weight in the memory b allocates. */
  function ViewedNode(be: Backends, a: nat, b: nat, x: nat): Problem
    requires |be.bufts| == be.n && b < be.n
  {
    Problem(
      Backends(be.n, be.bufts, (c: nat, t: nat) => c == be.n - 1 || (c == a && t < 2) || (c == b && t != 1), be.supportsBuft,
               (c: nat, t: nat) => false, false),
      VIEWED,
      [Some(Buffer(x, false, false)), None, None, Some(Buffer(be.bufts[b], true, false))])
  }

  lemma ViewedIds()
    ensures VIEWED.ValidIds()
    ensures |VIEWED.nodes| == 3 && VIEWED.nodes[0] == 0 && VIEWED.nodes[1] == 1 && VIEWED.nodes[2] == 2 && VIEWED.leafs == [3]
    ensures VIEWED.tensors[0].src == [] && VIEWED.tensors[1].src == [0] && VIEWED.tensors[2].src == [1, 3]
    ensures VIEWED.Root(0) == 0 && VIEWED.Root(1) == 0 && VIEWED.Root(2) == 2 && VIEWED.Root(3) == 3
  {
  }

  lemma ViewedIsReady()
    ensures VIEWED.ValidIds() && VIEWED.NodeReady(0) && VIEWED.NodeReady(1) && VIEWED.NodeReady(2)
  {
    ViewedIds();
    assert VIEWED.RootReady(0, 1) && VIEWED.RootReady(0, 2);
    assert VIEWED.RootReady(3, 2);
    assert VIEWED.SourceReady(0, 1);
    assert VIEWED.SourceReady(3, 2);
    assert VIEWED.SourceReady(1, 2);
  }

  lemma ViewedIsOrdered()
    ensures VIEWED.WellFormed()
  {
    ViewedIds();
    ViewedIsReady();
    forall i | 0 <= i < |VIEWED.nodes| ensures VIEWED.NodeReady(i) {
      assert i == 0 || i == 1 || i == 2;
    }
  }

  lemma ViewedIsClosed(p: Problem)
    requires p.g == VIEWED && p.Valid() && p.buffer[3].Some?
    ensures Closed(p)
  {
    ViewedIds();
    assert Known(VIEWED, 0) && Known(VIEWED, 1) && Known(VIEWED, 2) && Known(VIEWED, 3);
    forall i | 0 <= i < |VIEWED.nodes|
      ensures Known(VIEWED, VIEWED.Root(VIEWED.nodes[i]))
      ensures forall j :: 0 <= j < |VIEWED.tensors[VIEWED.nodes[i]].src| ==> Known(VIEWED, VIEWED.tensors[VIEWED.nodes[i]].src[j])
    {
      assert i == 0 || i == 1 || i == 2;
    }
  }

  lemma ViewedViews(p: Problem)
    requires p.g == VIEWED && p.Valid()
    ensures ViewNodes(p) && ViewsAreViews(p) && LeafsApart(p.g)
  {
    ViewedIds();
    forall i | 0 <= i < |VIEWED.nodes| ensures VIEWED.IsView(VIEWED.nodes[i]) <==> p.IsViewNode(VIEWED.nodes[i]) {
      assert i == 0 || i == 1 || i == 2;
    }
  }

  lemma ViewedIsSchedulable(be: Backends, a: nat, b: nat, x: nat)
    requires ValidBackends(be) && Differ(be, a, b, x)
    ensures Schedulable(ViewedNode(be, a, b, x)) && PosedTo(ViewedNode(be, a, b, x), be)
  {
    var p := ViewedNode(be, a, b, x);
    ViewedIds();
    ViewedIsOrdered();
    ViewedIsClosed(p);
    ViewedViews(p);
    forall t: nat | t < |p.g.tensors| ensures LastSupports(p, t) {
    }
  }

  lemma ViewedFirst(be: Backends, a: nat, b: nat, x: nat)
    requires ValidBackends(be) && OwnBuffers(be) && Differ(be, a, b, x) && ViewedNode(be, a, b, x).Valid()
    ensures AfterPassOne(ViewedNode(be, a, b, x), [a, a, b, b])
  {
    var p := ViewedNode(be, a, b, x);
    var first: Ids := [a, a, b, b];
    assert FirstChoice(p, 0, a);
    assert FirstChoice(p, 1, a);
    assert FirstChoice(p, 3, b);
    assert NoWeight(p, 2, 1) && p.buffer[p.g.tensors[2].src[1]].value.weights;
    assert DrawnBy(p, 2, p.g.tensors[2].src[1], b, b);
    assert p.Located(p.g.tensors[2].src[1]);
    assert FirstChoice(p, 2, b);
    assert p.g.nodes[0] == 0 && p.g.nodes[1] == 1 && p.g.nodes[2] == 2 && p.g.leafs[0] == 3;
    assert Known(p.g, 0) && Known(p.g, 1) && Known(p.g, 2) && Known(p.g, 3);
  }

  lemma NothingToSpread(p: Problem, ids: Ids)
    requires p.g.ValidIds() && ValidIdsFor(p, ids) && forall t :: 0 <= t < |ids| ==> ids[t] != -1
    ensures Spread(p, ids) == ids && WithRoots(p, ids) == ids
  {
    SpreadFillsIn(p, ids);
  }

  lemma TakenOverBy(p: Problem, ids: Ids, t: nat, b: nat)
    requires p.Valid() && ValidIdsFor(p, ids) && t < |ids| && b <= ids[t]
    requires forall c: nat :: c < b ==> !CanTakeOver(p, ids, t, c)
    requires b == ids[t] || CanTakeOver(p, ids, t, b)
    ensures FirstTakeOver(p, ids, t, 0) == b
  {
    FirstTakeOverIsFirst(p, ids, t, 0);
    var r := FirstTakeOver(p, ids, t, 0);
    assert r < ids[t] ==> CanTakeOver(p, ids, t, r);
    assert b < ids[t] ==> UsesAll(p, ids, t, b);
  }

  lemma ViewedThird(be: Backends, a: nat, b: nat, x: nat)
    requires ValidBackends(be) && Differ(be, a, b, x) && ViewedNode(be, a, b, x).Valid()
    ensures Third(ViewedNode(be, a, b, x), [a, a, b, b], 3) == [b, a, b, b]
  {
    var p := ViewedNode(be, a, b, x);
    var first: Ids, now: Ids := [a, a, b, b], [b, a, b, b];
    TakenOverBy(p, first, 0, b);
    assert ThirdStep(p, first, 0) == now;
    TakenOverBy(p, now, 2, b);
    assert ThirdStep(p, now, 2) == now;
    assert Third(p, first, 0) == first;
    assert Third(p, first, 1) == now;
    assert Third(p, first, 2) == now;
  }

  /** Passes 1 and 2 put the view with its root, on a; pass 3 moves the root alone to b. */
  lemma ViewedOutcome(be: Backends, a: nat, b: nat, x: nat)
    requires ValidBackends(be) && OwnBuffers(be) && Differ(be, a, b, x) && ViewedNode(be, a, b, x).Valid()
    ensures Outcome(ViewedNode(be, a, b, x), [b, a, b, b])
  {
    var p := ViewedNode(be, a, b, x);
    ViewedFirst(be, a, b, x);
    NothingToSpread(p, [a, a, b, b]);
    ViewedThird(be, a, b, x);
    NothingToSpread(p, [b, a, b, b]);
  }

  /** Pass 5 makes one split of it, for b, which copies the view before anything has run. */
  function Before(b: nat): Plan {
    Plan([[], [0], [1, 3], []], map[], 4, [Split(b, 0, 0, [])])
  }

  function Begun(b: nat): Plan {
    Plan([[], [0], [1, 3], []], map[(1, b) := 4], 5, [Split(b, 0, 0, [1])])
  }

  function Read(b: nat): Plan {
    Plan([[], [0], [4, 3], []], map[(1, b) := 4], 5, [Split(b, 0, 0, [1])])
  }

  function Late(b: nat): Plan {
    Plan([[], [0], [4, 3], []], map[(1, b) := 4], 5, [Split(b, 0, 3, [1])])
  }

  lemma ViewCopied(b: nat)
    ensures WithCopy(Before(b), 1) == Begun(b)
  {
    var none: Copies := map[];
    assert none[(1, b) := 4] == Begun(b).copies;
    var nothing: seq<nat> := [];
    assert nothing + [1] == [1];
    assert Before(b).splits[0 := Split(b, 0, 0, [1])] == Begun(b).splits;
  }

  lemma ViewRead(be: Backends, a: nat, b: nat, x: nat)
    requires ValidBackends(be) && Differ(be, a, b, x) && ViewedNode(be, a, b, x).Valid()
    ensures var p, ids: Ids := ViewedNode(be, a, b, x), [b, a, b, b];
            && ValidIdsFor(p, ids) && OnBackend(p, Before(b)) && OnBackend(p, Begun(b))
            && ReadSource(p, ids, Before(b), 1) == Some((Begun(b), 4))
            && ReadSource(p, ids, Begun(b), 3) == Some((Begun(b), 3))
  {
    var p, ids: Ids := ViewedNode(be, a, b, x), [b, a, b, b];
    assert !BufferSupported(p, ids, 1, b);
    ViewCopied(b);
  }

  lemma RowRead(be: Backends, a: nat, b: nat, x: nat)
    requires ValidBackends(be) && Differ(be, a, b, x) && ViewedNode(be, a, b, x).Valid()
    ensures var p, ids: Ids := ViewedNode(be, a, b, x), [b, a, b, b];
            && ValidIdsFor(p, ids) && OnBackend(p, Before(b)) && Below([1, 3], |ids|)
            && ReadSources(p, ids, Before(b), [1, 3], 0, []) == Some((Begun(b), [4, 3]))
  {
    var p, ids: Ids, src: seq<nat> := ViewedNode(be, a, b, x), [b, a, b, b], [1, 3];
    ViewRead(be, a, b, x);
    assert [] + [4] == [4] && [4] + [3] == [4, 3];
    assert ReadSources(p, ids, Begun(b), src, 2, [4, 3]) == Some((Begun(b), [4, 3]));
    assert ReadSources(p, ids, Begun(b), src, 1, [4]) == Some((Begun(b), [4, 3]));
  }

  lemma ViewedSteps(be: Backends, a: nat, b: nat, x: nat)
    requires ValidBackends(be) && Differ(be, a, b, x) && ViewedNode(be, a, b, x).Valid()
    ensures var p, ids: Ids := ViewedNode(be, a, b, x), [b, a, b, b];
            && ValidIdsFor(p, ids) && OnBackend(p, Before(b))
            && PlanStep(p, ids, Before(b), 0) == Some(Before(b)) && PlanStep(p, ids, Before(b), 1) == Some(Before(b))
            && PlanStep(p, ids, Before(b), 2) == Some(Read(b))
  {
    ViewedIds();
    RowRead(be, a, b, x);
    assert Before(b).src[0 := []] == Before(b).src;
    assert Begun(b).src[2 := [4, 3]] == Read(b).src;
  }

  lemma ViewedPlan(be: Backends, a: nat, b: nat, x: nat)
    requires ValidBackends(be) && Differ(be, a, b, x) && ViewedNode(be, a, b, x).Valid()
    ensures var p, ids: Ids := ViewedNode(be, a, b, x), [b, a, b, b];
            Splittable(p, ids) && PlanOf(p, ids, 0) == Some(Late(b))
  {
    var p, ids: Ids := ViewedNode(be, a, b, x), [b, a, b, b];
    ViewedIds();
    ViewedSteps(be, a, b, x);
    assert OriginalSources(p.g) == Before(b).src;
    assert FirstPlan(p, ids, 0) == Before(b);
    assert Ended(Read(b), 3) == Late(b);
    assert PlanFrom(p, ids, Read(b), 3) == Some(Late(b));
    assert PlanFrom(p, ids, Before(b), 2) == Some(Late(b));
    assert PlanFrom(p, ids, Before(b), 1) == Some(Late(b));
  }

  // ----- what the late copy does to the values

  /** The node in memory computes 1, the last one what it reads first. */
  function ComputeLate(): Compute {
    (t: nat, values: seq<Bytes>) => if t == 2 && |values| > 0 then values[0] else [1]
  }

  /** The view shows all of its root. */
  function LookLate(): Look {
    (t: nat, bytes: Bytes) => bytes
  }

  const ZEROS: Store := [[0], [0], [0], [0], [0]]

  lemma LateIsRunnable(b: nat)
    ensures Runnable(VIEWED, Late(b))
  {
    ViewedIds();
    assert SplitRunnable(VIEWED, Late(b), Late(b).splits[0]);
  }

  lemma FitOne(byte: int)
    ensures Fit([byte], 1) == [byte]
  {
  }

  lemma GraphLate()
    ensures VIEWED.ValidIds() && RunGraph(VIEWED, ComputeLate(), LookLate(), ZEROS[..4], 3) == [[1], [0], [1], [0]]
  {
    ViewedIds();
    var init: Store, one: Store, two: Store := [[0], [0], [0], [0]], [[1], [0], [0], [0]], [[1], [0], [1], [0]];
    assert ZEROS[..4] == init;
    FitOne(1);
    FitOne(0);
    assert RunNode(VIEWED, ComputeLate(), LookLate(), init, 0, []) == one;
    assert RunNode(VIEWED, ComputeLate(), LookLate(), one, 1, [0]) == one;
    assert ValueOf(VIEWED, LookLate(), one, 1) == [1];
    assert RunNode(VIEWED, ComputeLate(), LookLate(), one, 2, [1, 3]) == two;
    assert RunGraph(VIEWED, ComputeLate(), LookLate(), init, 1) == one;
    assert RunGraph(VIEWED, ComputeLate(), LookLate(), init, 2) == one;
  }

  lemma SplitsLate(b: nat)
    ensures Runnable(VIEWED, Late(b)) && RunSplits(VIEWED, ComputeLate(), LookLate(), Late(b), ZEROS, 1) == [[1], [0], [0], [0], [0]]
  {
    ViewedIds();
    LateIsRunnable(b);
    var plan, one: Store := Late(b), [[1], [0], [0], [0], [0]];
    FitOne(1);
    FitOne(0);
    assert RunSplits(VIEWED, ComputeLate(), LookLate(), plan, ZEROS, 0) == ZEROS;
    assert ValueOf(VIEWED, LookLate(), ZEROS, 1) == [0];
    assert OneCopied(VIEWED, LookLate(), plan, ZEROS, 0, 0) == ZEROS;
    assert CopyInputs(VIEWED, LookLate(), plan, 0, ZEROS, 0) == ZEROS;
    assert CopyInputs(VIEWED, LookLate(), plan, 0, ZEROS, 1) == ZEROS;
    assert RunNode(VIEWED, ComputeLate(), LookLate(), ZEROS, 0, []) == one;
    assert RunNode(VIEWED, ComputeLate(), LookLate(), one, 1, [0]) == one;
    assert ValueOf(VIEWED, LookLate(), one, 4) == [0];
    assert RunNode(VIEWED, ComputeLate(), LookLate(), one, 2, [4, 3]) == one;
    assert RunNodes(VIEWED, ComputeLate(), LookLate(), plan, ZEROS, 0, 0) == ZEROS;
    assert RunNodes(VIEWED, ComputeLate(), LookLate(), plan, ZEROS, 0, 1) == one;
    assert RunNodes(VIEWED, ComputeLate(), LookLate(), plan, ZEROS, 0, 2) == one;
    assert RunNodes(VIEWED, ComputeLate(), LookLate(), plan, ZEROS, 0, 3) == one;
  }

  lemma LateChangesMeaning(p: Problem, b: nat)
    requires p.g == VIEWED
    ensures !SameMeaning(p, Late(b), ComputeLate(), LookLate(), ZEROS, 2)
  {
    ViewedIds();
    GraphLate();
    SplitsLate(b);
  }

  /** What the scheduler makes of this problem copies the view before its root has been computed, and the
      last node then reads what was there before. */
  lemma CopyComesLate(be: Backends, a: nat, b: nat, x: nat)
    requires ValidBackends(be) && OwnBuffers(be) && Differ(be, a, b, x)
    ensures var p := ViewedNode(be, a, b, x);
            && Schedulable(p) && PosedTo(p, be) && ScheduleOf(p, [b, a, b, b], Late(b), 0)
            && !SameMeaning(p, Late(b), ComputeLate(), LookLate(), ZEROS, 2)
  {
    ViewedIsSchedulable(be, a, b, x);
    ViewedOutcome(be, a, b, x);
    ViewedPlan(be, a, b, x);
    LateChangesMeaning(ViewedNode(be, a, b, x), b);
  }

  lemma KeptSchedules(be: Backends)
    requires AllTypesKept(be)
    ensures SchedulesPreserveMeaning(be)
  {
    forall p: Problem, ids: Ids, plan: Plan, stale: nat, compute: Compute, look: Look, init: Store, t: nat
      | Scheduled(be, p, ids, plan, stale)
      ensures SameMeaning(p, plan, compute, look, init, t)
    {
      SameTypesKept(be, p);
      KeptSchedule(p, ids, plan, stale, compute, look, init, t);
    }
  }

  lemma SameTypesKept(be: Backends, p: Problem)
    requires AllTypesKept(be) && PosedTo(p, be)
    ensures AllTypesKept(p.be)
  {
    assert forall x: nat :: TypeKept(be, x) ==> TypeKept(p.be, x);
  }

  lemma LateSchedule(be: Backends, a: nat, b: nat, x: nat)
    requires ValidBackends(be) && OwnBuffers(be) && Differ(be, a, b, x)
    ensures !SchedulesPreserveMeaning(be)
  {
    CopyComesLate(be, a, b, x);
    assert Scheduled(be, ViewedNode(be, a, b, x), [b, a, b, b], Late(b), 0);
  }

  /** The exact condition: what the scheduler makes of a problem preserves its meaning, whatever the
      problem, if and only if each backend that shares a type of buffer with one after it can use all that
      the latter can. */
  lemma SchedulesPreserveMeaningExactly(be: Backends)
    requires ValidBackends(be) && OwnBuffers(be)
    ensures SchedulesPreserveMeaning(be) <==> AllTypesKept(be)
  {
    if AllTypesKept(be) {
      KeptSchedules(be);
    } else {
      var x: nat :| !TypeKept(be, x);
      var a: nat, b: nat :| b < a && SameType(be, a, b) && be.supportsBuft(a, x) && !be.supportsBuft(b, x);
      assert Differ(be, a, b, x);
      LateSchedule(be, a, b, x);
    }
  }
}
