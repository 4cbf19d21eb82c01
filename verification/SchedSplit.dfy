/** Pass 5 of the scheduler: the nodes are cut into splits that each run on one backend, and sources
    a split cannot use where they are get copies. */
module SchedSplit {
  import opened Wrappers
  import opened TensorGraph
  import opened SchedAssign

  const MAX_SPLIT_INPUTS := 30

  /** Nodes start to end (exclusive) run on one backend, after the inputs have been copied to it. */
  datatype Split = Split(backend: int, start: nat, end: nat, inputs: seq<nat>)

  type Copies = map<(nat, int), nat>

  /** The rewritten sources of every tensor, the copies, and the number of tensors with them. */
  datatype Plan = Plan(src: seq<seq<nat>>, copies: Copies, total: nat, splits: seq<Split>)

  // ----- what a plan has to be

  predicate ValidCopies(g: Graph, copies: Copies, total: nat) {
    && |g.tensors| <= total
    && (forall c :: c in copies ==> |g.tensors| <= copies[c] < total)
    && (forall c, d :: c in copies && d in copies && copies[c] == copies[d] ==> c == d)
  }

  /** The copy of s for backend b is filled by one of the first n splits. */
  predicate FilledBy(splits: seq<Split>, s: nat, b: int, n: nat)
    requires n <= |splits|
  {
    exists k :: 0 <= k < n && splits[k].backend == b && s in splits[k].inputs
  }

  /** The memory of s is not written from node start on. */
  ghost predicate SettledBy(g: Graph, s: nat, start: nat)
    requires g.ValidIds() && s < |g.tensors|
  {
    forall m :: 0 <= m < |g.nodes| && g.nodes[m] == g.Root(s) ==> m < start
  }

  /** Some node reads s where its split cannot use it. The split copies s after s has its value,
      unless it is a view of a node that has been moved up out of reach of its memory. */
  ghost predicate InputRight(p: Problem, ids: Ids, plan: Plan, split: Split, s: nat)
    requires p.Valid() && ValidIdsFor(p, ids)
  {
    && s < |p.g.tensors| && (s, split.backend) in plan.copies
    && 0 <= split.backend < p.be.n && ids[s] != split.backend && !BufferSupported(p, ids, s, split.backend)
    && p.g.IsSource(s) && (ViewedKept(p) ==> SettledBy(p.g, s, split.start))
  }

  /** Source j of node m, which is in split k: it is on the split's backend, or in memory the backend
      can use, or a copy that this split or an earlier one has filled. */
  ghost predicate SourceRight(p: Problem, ids: Ids, plan: Plan, m: nat, k: nat, j: nat)
    requires p.Valid() && ValidIdsFor(p, ids) && |plan.src| == |p.g.tensors|
    requires m < |p.g.nodes| && k < |plan.splits|
    requires j < |p.g.tensors[p.g.nodes[m]].src| == |plan.src[p.g.nodes[m]]|
  {
    var s, now, b := p.g.tensors[p.g.nodes[m]].src[j], plan.src[p.g.nodes[m]][j], plan.splits[k].backend;
    || (now == s && (ids[s] == b || (0 <= b < p.be.n && BufferSupported(p, ids, s, b))))
    || ((s, b) in plan.copies && now == plan.copies[(s, b)] && FilledBy(plan.splits, s, b, k + 1))
  }

  /** No split copies what it or another one has copied to the same backend. */
  ghost predicate ListedOnce(splits: seq<Split>) {
    forall k, j, l, i :: SameInput(splits, k, j, l, i) ==> k == l && j == i
  }

  predicate SameInput(splits: seq<Split>, k: nat, j: nat, l: nat, i: nat) {
    && k < |splits| && l < |splits| && j < |splits[k].inputs| && i < |splits[l].inputs|
    && splits[k].backend == splits[l].backend && splits[k].inputs[j] == splits[l].inputs[i]
  }

  predicate SameCounts(g: Graph, src: seq<seq<nat>>) {
    |src| == |g.tensors| && forall t :: 0 <= t < |src| ==> |src[t]| == |g.tensors[t].src|
  }

  predicate SourcesBelow(src: seq<seq<nat>>, n: nat) {
    forall t :: 0 <= t < |src| ==> Below(src[t], n)
  }

  predicate Below(row: seq<nat>, n: nat) {
    forall j :: 0 <= j < |row| ==> row[j] < n
  }

  /** Node m is in split k, and so far is how far the last split reaches. */
  predicate InSplit(splits: seq<Split>, m: int, k: nat, reach: nat) {
    k < |splits| && splits[k].start <= m < if k == |splits| - 1 then reach else splits[k].end
  }

  /** The splits follow one another from the first node on. */
  predicate InARow(splits: seq<Split>, reach: nat) {
    && splits != [] && splits[0].start == 0
    && (forall k :: 0 <= k < |splits| - 1 ==> splits[k].start <= splits[k].end == splits[k + 1].start)
    && (forall k, l :: 0 <= k < l < |splits| ==> splits[k].end <= splits[l].start)
    && splits[|splits| - 1].start <= reach
  }

  /** Every copy is filled by some split. */
  predicate CopiesFilled(plan: Plan) {
    forall c :: c in plan.copies ==> FilledBy(plan.splits, c.0, c.1, |plan.splits|)
  }

  ghost predicate InputsRight(p: Problem, ids: Ids, plan: Plan)
    requires p.Valid() && ValidIdsFor(p, ids)
  {
    forall k, s :: 0 <= k < |plan.splits| && s in plan.splits[k].inputs ==> InputRight(p, ids, plan, plan.splits[k], s)
  }

  ghost predicate NodesRight(p: Problem, ids: Ids, plan: Plan, reach: nat)
    requires p.Valid() && ValidIdsFor(p, ids) && SameCounts(p.g, plan.src)
  {
    forall k, m :: InSplit(plan.splits, m, k, reach) ==> NodeRight(p, ids, plan, m, k)
  }

  /** What holds of a plan that covers the first reach nodes. */
  ghost predicate Cut(p: Problem, ids: Ids, plan: Plan, reach: nat) {
    && p.Valid() && ValidIdsFor(p, ids) && reach <= |p.g.nodes|
    && ValidCopies(p.g, plan.copies, plan.total) && SameCounts(p.g, plan.src) && SourcesBelow(plan.src, plan.total)
    && InARow(plan.splits, reach) && ListedOnce(plan.splits)
    && CopiesFilled(plan) && InputsRight(p, ids, plan) && NodesRight(p, ids, plan, reach)
    && (forall m :: reach <= m < |p.g.nodes| ==> plan.src[p.g.nodes[m]] == p.g.tensors[p.g.nodes[m]].src)
  }

  /** Node m of split k runs on the split's backend, and its sources are right; views are left alone. */
  ghost predicate NodeRight(p: Problem, ids: Ids, plan: Plan, m: nat, k: nat)
    requires p.Valid() && ValidIdsFor(p, ids) && SameCounts(p.g, plan.src) && k < |plan.splits|
  {
    && m < |p.g.nodes|
    && var t := p.g.nodes[m];
       if p.IsViewNode(t) then plan.src[t] == p.g.tensors[t].src
       else
         && ids[t] == plan.splits[k].backend
         && forall j :: 0 <= j < |plan.src[t]| ==> SourceRight(p, ids, plan, m, k, j)
  }

  /** A complete plan. */
  ghost predicate ValidPlan(p: Problem, ids: Ids, plan: Plan) {
    && Cut(p, ids, plan, |p.g.nodes|)
    && plan.splits[|plan.splits| - 1].end == |p.g.nodes|
  }

  // ----- why copies are made in time

  /** A source that the split of node i cannot use where it is has its value before the split starts. */
  lemma CopyIsEarly(p: Problem, ids: Ids, plan: Plan, i: nat, s: nat)
    requires Schedulable(p) && ViewedKept(p) && Assigned(p, ids) && Cut(p, ids, plan, i) && i < |p.g.nodes|
    requires s in p.g.tensors[p.g.nodes[i]].src
    requires var b := plan.splits[|plan.splits| - 1].backend; 0 <= b < p.be.n && ids[s] != b && !BufferSupported(p, ids, s, b)
    ensures SettledBy(p.g, s, plan.splits[|plan.splits| - 1].start)
  {
    var last := |plan.splits| - 1;
    var r := p.g.Root(s);
    assert p.g.NodeReady(i);
    assert p.g.SourceReady(s, i);
    forall m | 0 <= m < |p.g.nodes| && p.g.nodes[m] == r ensures m < plan.splits[last].start {
      assert m < i;
      if plan.splits[last].start <= m {
        assert InSplit(plan.splits, m, last, i);
        assert NodeRight(p, ids, plan, m, last);
        RootIsNoView(p, s);
        assert !p.IsViewNode(r) && ids[r] == plan.splits[last].backend;
        LocatedWithRoot(p, ids, m, s, i);
      }
    }
  }

  /** When the root of source s is a node on backend b, b can use s where it is. */
  lemma LocatedWithRoot(p: Problem, ids: Ids, m: nat, s: nat, i: nat)
    requires Schedulable(p) && ViewedKept(p) && Assigned(p, ids) && i < |p.g.nodes| && m < |p.g.nodes|
    requires s in p.g.tensors[p.g.nodes[i]].src && p.g.nodes[m] == p.g.Root(s)
    ensures ids[s] == ids[p.g.Root(s)] || BufferSupported(p, ids, s, ids[p.g.Root(s)])
  {
    var r := p.g.Root(s);
    RootIsNoView(p, s);
    if s != r {
      var j :| 0 <= j < |p.g.tensors[p.g.nodes[i]].src| && p.g.tensors[p.g.nodes[i]].src[j] == s;
      assert Known(p.g, s);
      var k :| 0 <= k < |p.g.nodes| && p.g.nodes[k] == s;
      assert p.IsViewNode(s);
      if p.Located(s) {
        assert InReach(p, ids, p.g.nodes[m]) && Kept(p, r);
      } else {
        assert WithRoot(p, ids, s);
      }
    }
  }

  // ----- steps that keep a plan right

  function Last(plan: Plan): Split
    requires plan.splits != []
  {
    plan.splits[|plan.splits| - 1]
  }

  /** now may stand for source s in the last split. */
  ghost predicate MayRead(p: Problem, ids: Ids, plan: Plan, s: nat, now: nat)
    requires p.Valid() && ValidIdsFor(p, ids) && s < |p.g.tensors| && plan.splits != []
  {
    var b := Last(plan).backend;
    || (now == s && (ids[s] == b || (0 <= b < p.be.n && BufferSupported(p, ids, s, b))))
    || ((s, b) in plan.copies && now == plan.copies[(s, b)] && FilledBy(plan.splits, s, b, |plan.splits|))
  }

  ghost predicate RowRight(p: Problem, ids: Ids, plan: Plan, src: seq<nat>, row: seq<nat>)
    requires p.Valid() && ValidIdsFor(p, ids) && plan.splits != [] && |row| <= |src|
    requires forall j :: 0 <= j < |src| ==> src[j] < |p.g.tensors|
  {
    forall j :: 0 <= j < |row| ==> MayRead(p, ids, plan, src[j], row[j])
  }

  lemma FirstCut(p: Problem, ids: Ids, i: nat, backend: int)
    requires p.Valid() && ValidIdsFor(p, ids) && i <= |p.g.nodes|
    requires forall m :: 0 <= m < i ==> p.IsViewNode(p.g.nodes[m])
    ensures Cut(p, ids, Plan(OriginalSources(p.g), map[], |p.g.tensors|, [Split(backend, 0, 0, [])]), i)
  {
  }

  function OriginalSources(g: Graph): (r: seq<seq<nat>>)
    ensures |r| == |g.tensors| && forall t :: 0 <= t < |r| ==> r[t] == g.tensors[t].src
  {
    seq(|g.tensors|, t requires 0 <= t < |g.tensors| => g.tensors[t].src)
  }

  lemma CutPastView(p: Problem, ids: Ids, plan: Plan, i: nat)
    requires Cut(p, ids, plan, i) && i < |p.g.nodes| && p.IsViewNode(p.g.nodes[i])
    ensures Cut(p, ids, plan, i + 1)
  {
    forall k, m | InSplit(plan.splits, m, k, i + 1) ensures NodeRight(p, ids, plan, m, k) {
      if m < i {
        assert InSplit(plan.splits, m, k, i);
      }
    }
  }

  function Opened(plan: Plan, i: nat, backend: int): (r: Plan)
    requires plan.splits != []
  {
    var last := |plan.splits| - 1;
    plan.(splits := plan.splits[last := plan.splits[last].(end := i)] + [Split(backend, i, i, [])])
  }

  lemma ShapeOpened(plan: Plan, i: nat, backend: int)
    requires InARow(plan.splits, i)
    ensures var now := Opened(plan, i, backend);
            InARow(now.splits, i) && Grows(plan, now) && forall k, m :: InSplit(now.splits, m, k, i) ==> InSplit(plan.splits, m, k, i)
  {
  }

  /** Opening and ending splits lists no input twice. */
  lemma StillListedOnce(was: seq<Split>, now: seq<Split>)
    requires ListedOnce(was) && |was| <= |now| && forall k :: 0 <= k < |was| ==> now[k].inputs == was[k].inputs && now[k].backend == was[k].backend
    requires forall k :: |was| <= k < |now| ==> now[k].inputs == []
    ensures ListedOnce(now)
  {
    forall k: nat, j: nat, l: nat, i: nat | SameInput(now, k, j, l, i) ensures k == l && j == i {
      assert SameInput(was, k, j, l, i);
    }
  }

  lemma CutAtNewSplit(p: Problem, ids: Ids, plan: Plan, i: nat, backend: int)
    requires Cut(p, ids, plan, i)
    ensures Cut(p, ids, Opened(plan, i, backend), i)
  {
    var now := Opened(plan, i, backend);
    ShapeOpened(plan, i, backend);
    StillListedOnce(plan.splits, now.splits);
    CopiesStayFilled(plan, now);
    InputsStayRight(p, ids, plan, now);
    NodesStayRight(p, ids, plan, now, i);
  }

  /** Splits keep their backends and inputs, and may get more of both. */
  predicate Continues(was: seq<Split>, now: seq<Split>) {
    |was| <= |now| && forall k :: 0 <= k < |was| ==>
      now[k].backend == was[k].backend && now[k].start == was[k].start && was[k].inputs <= now[k].inputs
  }

  lemma StillFilled(was: seq<Split>, now: seq<Split>, s: nat, b: int, n: nat)
    requires Continues(was, now) && n <= |was| && FilledBy(was, s, b, n)
    ensures FilledBy(now, s, b, n) && FilledBy(now, s, b, |now|)
  {
    var k :| 0 <= k < n && was[k].backend == b && s in was[k].inputs;
    assert s in now[k].inputs;
  }

  lemma NodeStaysRight(p: Problem, ids: Ids, plan: Plan, now: Plan, m: nat, k: nat)
    requires p.Valid() && ValidIdsFor(p, ids) && SameCounts(p.g, plan.src) && SameCounts(p.g, now.src) && k < |plan.splits|
    requires NodeRight(p, ids, plan, m, k) && now.src[p.g.nodes[m]] == plan.src[p.g.nodes[m]]
    requires Continues(plan.splits, now.splits)
    requires forall c :: c in plan.copies ==> c in now.copies && now.copies[c] == plan.copies[c]
    ensures NodeRight(p, ids, now, m, k)
  {
    var t := p.g.nodes[m];
    if !p.IsViewNode(t) {
      forall j | 0 <= j < |plan.src[t]| ensures SourceRight(p, ids, now, m, k, j) {
        assert SourceRight(p, ids, plan, m, k, j);
        var s, b := p.g.tensors[t].src[j], plan.splits[k].backend;
        if FilledBy(plan.splits, s, b, k + 1) {
          StillFilled(plan.splits, now.splits, s, b, k + 1);
        }
      }
    }
  }

  /** now has all copies of plan, and its splits in the same places with no fewer inputs. */
  ghost predicate Grows(plan: Plan, now: Plan) {
    && Continues(plan.splits, now.splits)
    && forall c :: c in plan.copies ==> c in now.copies && now.copies[c] == plan.copies[c]
  }

  lemma NodesStayRight(p: Problem, ids: Ids, plan: Plan, now: Plan, reach: nat)
    requires p.Valid() && ValidIdsFor(p, ids) && SameCounts(p.g, plan.src) && Grows(plan, now) && now.src == plan.src
    requires NodesRight(p, ids, plan, reach)
    requires forall k, m :: InSplit(now.splits, m, k, reach) ==> InSplit(plan.splits, m, k, reach)
    ensures NodesRight(p, ids, now, reach)
  {
    forall k, m | InSplit(now.splits, m, k, reach) ensures NodeRight(p, ids, now, m, k) {
      assert InSplit(plan.splits, m, k, reach);
      NodeStaysRight(p, ids, plan, now, m, k);
    }
  }

  lemma CopiesStayFilled(plan: Plan, now: Plan)
    requires CopiesFilled(plan) && Grows(plan, now)
    ensures forall c :: c in plan.copies ==> FilledBy(now.splits, c.0, c.1, |now.splits|)
  {
    forall c | c in plan.copies ensures FilledBy(now.splits, c.0, c.1, |now.splits|) {
      StillFilled(plan.splits, now.splits, c.0, c.1, |plan.splits|);
    }
  }

  lemma InputsStayRight(p: Problem, ids: Ids, plan: Plan, now: Plan)
    requires p.Valid() && ValidIdsFor(p, ids) && Grows(plan, now) && InputsRight(p, ids, plan)
    requires forall k, s :: 0 <= k < |now.splits| && s in now.splits[k].inputs ==>
               (k < |plan.splits| && s in plan.splits[k].inputs) || InputRight(p, ids, now, now.splits[k], s)
    ensures InputsRight(p, ids, now)
  {
    forall k, s | 0 <= k < |now.splits| && s in now.splits[k].inputs ensures InputRight(p, ids, now, now.splits[k], s) {
      if k < |plan.splits| && s in plan.splits[k].inputs {
        assert InputRight(p, ids, plan, plan.splits[k], s);
      }
    }
  }

  /** A new copy of s for the last split's backend. */
  function WithCopy(plan: Plan, s: nat): Plan
    requires plan.splits != []
  {
    var last := |plan.splits| - 1;
    var split := plan.splits[last];
    plan.(copies := plan.copies[(s, split.backend) := plan.total], total := plan.total + 1,
          splits := plan.splits[last := split.(inputs := split.inputs + [s])])
  }

  lemma CutWithCopy(p: Problem, ids: Ids, plan: Plan, i: nat, s: nat)
    requires Cut(p, ids, plan, i) && s < |p.g.tensors| && p.g.IsSource(s) && (ViewedKept(p) ==> SettledBy(p.g, s, Last(plan).start))
    requires var b := Last(plan).backend; 0 <= b < p.be.n && ids[s] != b && !BufferSupported(p, ids, s, b) && (s, b) !in plan.copies
    ensures Cut(p, ids, WithCopy(plan, s), i) && Grows(plan, WithCopy(plan, s))
  {
    var now := WithCopy(plan, s);
    FilledWithCopy(plan, s);
    ListedOnceMore(p, ids, plan, s);
    InputsWithCopy(p, ids, plan, s);
    ShapeWithCopy(p.g, plan, s, i);
    NodesStayRight(p, ids, plan, now, i);
  }

  lemma CopyMayBeRead(p: Problem, ids: Ids, plan: Plan, s: nat)
    requires p.Valid() && ValidIdsFor(p, ids) && s < |p.g.tensors| && plan.splits != [] && CopiesFilled(plan)
    requires (s, Last(plan).backend) !in plan.copies
    ensures MayRead(p, ids, WithCopy(plan, s), s, plan.total)
  {
    FilledWithCopy(plan, s);
  }

  lemma ShapeWithCopy(g: Graph, plan: Plan, s: nat, i: nat)
    requires ValidCopies(g, plan.copies, plan.total) && InARow(plan.splits, i)
    ensures ValidCopies(g, WithCopy(plan, s).copies, WithCopy(plan, s).total) && InARow(WithCopy(plan, s).splits, i)
  {
  }

  lemma FilledWithCopy(plan: Plan, s: nat)
    requires plan.splits != [] && CopiesFilled(plan) && (s, Last(plan).backend) !in plan.copies
    ensures CopiesFilled(WithCopy(plan, s)) && Grows(plan, WithCopy(plan, s))
    ensures FilledBy(WithCopy(plan, s).splits, s, Last(plan).backend, |plan.splits|)
  {
    var now := WithCopy(plan, s);
    assert s in Last(now).inputs;
    CopiesStayFilled(plan, now);
  }

  lemma InputsWithCopy(p: Problem, ids: Ids, plan: Plan, s: nat)
    requires p.Valid() && ValidIdsFor(p, ids) && plan.splits != [] && InputsRight(p, ids, plan) && Grows(plan, WithCopy(plan, s))
    requires s < |p.g.tensors| && p.g.IsSource(s) && (ViewedKept(p) ==> SettledBy(p.g, s, Last(plan).start))
    requires var b := Last(plan).backend; 0 <= b < p.be.n && ids[s] != b && !BufferSupported(p, ids, s, b) && (s, b) !in plan.copies
    ensures InputsRight(p, ids, WithCopy(plan, s))
  {
    var now := WithCopy(plan, s);
    assert InputRight(p, ids, now, Last(now), s);
    InputsStayRight(p, ids, plan, now);
  }

  lemma ListedOnceMore(p: Problem, ids: Ids, plan: Plan, s: nat)
    requires p.Valid() && ValidIdsFor(p, ids) && plan.splits != [] && InputsRight(p, ids, plan) && ListedOnce(plan.splits)
    requires (s, Last(plan).backend) !in plan.copies
    ensures ListedOnce(WithCopy(plan, s).splits)
  {
    var now := WithCopy(plan, s).splits;
    forall k, j | 0 <= k < |plan.splits| && 0 <= j < |plan.splits[k].inputs|
      ensures plan.splits[k].backend != Last(plan).backend || plan.splits[k].inputs[j] != s
    {
      assert InputRight(p, ids, plan, plan.splits[k], plan.splits[k].inputs[j]);
    }
    forall k: nat, j: nat, l: nat, i: nat | SameInput(now, k, j, l, i) ensures k == l && j == i {
      assert j < |plan.splits[k].inputs| && i < |plan.splits[l].inputs| ==> SameInput(plan.splits, k, j, l, i);
    }
  }

  lemma RowStaysRight(p: Problem, ids: Ids, plan: Plan, now: Plan, src: seq<nat>, row: seq<nat>)
    requires p.Valid() && ValidIdsFor(p, ids) && Grows(plan, now) && plan.splits != [] && |now.splits| == |plan.splits|
    requires |row| <= |src| && forall j :: 0 <= j < |src| ==> src[j] < |p.g.tensors|
    requires RowRight(p, ids, plan, src, row)
    ensures RowRight(p, ids, now, src, row)
  {
    forall j | 0 <= j < |row| ensures MayRead(p, ids, now, src[j], row[j]) {
      assert MayRead(p, ids, plan, src[j], row[j]);
      if FilledBy(plan.splits, src[j], Last(plan).backend, |plan.splits|) {
        StillFilled(plan.splits, now.splits, src[j], Last(plan).backend, |plan.splits|);
      }
    }
  }

  lemma RowGrows(p: Problem, ids: Ids, plan: Plan, src: seq<nat>, row: seq<nat>, now: nat)
    requires p.Valid() && ValidIdsFor(p, ids) && plan.splits != [] && |row| < |src|
    requires forall j :: 0 <= j < |src| ==> src[j] < |p.g.tensors|
    requires RowRight(p, ids, plan, src, row) && MayRead(p, ids, plan, src[|row|], now)
    ensures RowRight(p, ids, plan, src, row + [now])
  {
  }

  function WithRow(plan: Plan, t: nat, row: seq<nat>): Plan
    requires t < |plan.src|
  {
    plan.(src := plan.src[t := row])
  }

  lemma CutPastNode(p: Problem, ids: Ids, plan: Plan, i: nat, row: seq<nat>)
    requires Cut(p, ids, plan, i) && i < |p.g.nodes| && !p.IsViewNode(p.g.nodes[i])
    requires forall m :: 0 <= m < |p.g.nodes| && m != i ==> p.g.nodes[m] != p.g.nodes[i]
    requires ids[p.g.nodes[i]] == Last(plan).backend && |row| == |p.g.tensors[p.g.nodes[i]].src|
    requires RowRight(p, ids, plan, p.g.tensors[p.g.nodes[i]].src, row)
    ensures Cut(p, ids, WithRow(plan, p.g.nodes[i], row), i + 1)
  {
    var now := WithRow(plan, p.g.nodes[i], row);
    CopiesStayFilled(plan, now);
    InputsStayRight(p, ids, plan, now);
    NodesPastRow(p, ids, plan, i, row);
    RowIsBelow(p, ids, plan, p.g.tensors[p.g.nodes[i]].src, row);
  }

  lemma RowIsBelow(p: Problem, ids: Ids, plan: Plan, src: seq<nat>, row: seq<nat>)
    requires p.Valid() && ValidIdsFor(p, ids) && plan.splits != [] && |row| <= |src| && ValidCopies(p.g, plan.copies, plan.total)
    requires (forall j :: 0 <= j < |src| ==> src[j] < |p.g.tensors|) && RowRight(p, ids, plan, src, row)
    ensures Below(row, plan.total)
  {
    forall j | 0 <= j < |row| ensures row[j] < plan.total {
      assert MayRead(p, ids, plan, src[j], row[j]);
    }
  }

  lemma NodesPastRow(p: Problem, ids: Ids, plan: Plan, i: nat, row: seq<nat>)
    requires p.Valid() && ValidIdsFor(p, ids) && SameCounts(p.g, plan.src) && InARow(plan.splits, i) && NodesRight(p, ids, plan, i)
    requires i < |p.g.nodes| && !p.IsViewNode(p.g.nodes[i])
    requires forall m :: 0 <= m < |p.g.nodes| && m != i ==> p.g.nodes[m] != p.g.nodes[i]
    requires ids[p.g.nodes[i]] == Last(plan).backend && |row| == |p.g.tensors[p.g.nodes[i]].src|
    requires RowRight(p, ids, plan, p.g.tensors[p.g.nodes[i]].src, row)
    ensures SameCounts(p.g, WithRow(plan, p.g.nodes[i], row).src) && NodesRight(p, ids, WithRow(plan, p.g.nodes[i], row), i + 1)
  {
    var now := WithRow(plan, p.g.nodes[i], row);
    LastNodeRight(p, ids, plan, i, row);
    forall k: nat, m: nat | InSplit(now.splits, m, k, i + 1) ensures NodeRight(p, ids, now, m, k) {
      if m < i {
        assert InSplit(plan.splits, m, k, i);
        NodeStaysRight(p, ids, plan, now, m, k);
      } else {
        OnlyInLast(plan.splits, i, k);
      }
    }
  }

  lemma OnlyInLast(splits: seq<Split>, i: nat, k: nat)
    requires InARow(splits, i) && InSplit(splits, i, k, i + 1)
    ensures k == |splits| - 1
  {
  }

  lemma LastNodeRight(p: Problem, ids: Ids, plan: Plan, i: nat, row: seq<nat>)
    requires p.Valid() && ValidIdsFor(p, ids) && SameCounts(p.g, plan.src) && InARow(plan.splits, i)
    requires i < |p.g.nodes| && !p.IsViewNode(p.g.nodes[i])
    requires ids[p.g.nodes[i]] == Last(plan).backend && |row| == |p.g.tensors[p.g.nodes[i]].src|
    requires RowRight(p, ids, plan, p.g.tensors[p.g.nodes[i]].src, row)
    ensures NodeRight(p, ids, WithRow(plan, p.g.nodes[i], row), i, |plan.splits| - 1)
  {
    var t := p.g.nodes[i];
    var now := WithRow(plan, t, row);
    var k := |plan.splits| - 1;
    forall j | 0 <= j < |row| ensures SourceRight(p, ids, now, i, k, j) {
      assert MayRead(p, ids, plan, p.g.tensors[t].src[j], row[j]);
    }
  }

  function Ended(plan: Plan, end: nat): Plan
    requires plan.splits != []
  {
    var last := |plan.splits| - 1;
    plan.(splits := plan.splits[last := plan.splits[last].(end := end)])
  }

  lemma ClosedIsValid(p: Problem, ids: Ids, plan: Plan)
    requires Cut(p, ids, plan, |p.g.nodes|)
    ensures ValidPlan(p, ids, Ended(plan, |p.g.nodes|))
  {
    var now := Ended(plan, |p.g.nodes|);
    StillListedOnce(plan.splits, now.splits);
    CopiesStayFilled(plan, now);
    InputsStayRight(p, ids, plan, now);
    NodesStayRight(p, ids, plan, now, |p.g.nodes|);
  }

  // ----- what the splitter computes

  ghost predicate Splittable(p: Problem, ids: Ids) {
    p.Valid() && ValidIdsFor(p, ids) && PlacedTo(p, ids, |p.g.nodes|)
  }

  /** The last split of the plan is on one of the backends. */
  predicate OnBackend(p: Problem, plan: Plan) {
    plan.splits != [] && 0 <= Last(plan).backend < p.be.n && |plan.src| == |p.g.tensors|
  }

  /** A weight in memory the last split's backend cannot use, or one input too many. */
  predicate Crowds(p: Problem, ids: Ids, plan: Plan, s: nat)
    requires p.Valid() && ValidIdsFor(p, ids) && s < |p.g.tensors| && plan.splits != [] && 0 <= Last(plan).backend < p.be.n
  {
    var split := Last(plan);
    && ids[s] != split.backend && !BufferSupported(p, ids, s, split.backend)
    && ((p.buffer[s].Some? && p.buffer[s].value.weights)
        || (|split.inputs| == MAX_SPLIT_INPUTS && (s, split.backend) !in plan.copies))
  }

  predicate Crowded(p: Problem, ids: Ids, plan: Plan, i: nat)
    requires p.Valid() && ValidIdsFor(p, ids) && i < |p.g.nodes| && plan.splits != [] && 0 <= Last(plan).backend < p.be.n
  {
    exists j :: 0 <= j < |p.g.tensors[p.g.nodes[i]].src| && Crowds(p, ids, plan, p.g.tensors[p.g.nodes[i]].src[j])
  }

  /** Node i is on another backend than the last split, or a source of it does not fit in. */
  predicate NeedsSplit(p: Problem, ids: Ids, plan: Plan, i: nat)
    requires p.Valid() && ValidIdsFor(p, ids) && i < |p.g.nodes| && plan.splits != [] && 0 <= Last(plan).backend < p.be.n
  {
    ids[p.g.nodes[i]] != Last(plan).backend || (Last(plan).inputs != [] && Crowded(p, ids, plan, i))
  }

  /** Source s as the last split can read it: where it is, or in a copy, which becomes an input of the
      split if there is none yet. Nothing when the split has too many inputs. */
  function ReadSource(p: Problem, ids: Ids, plan: Plan, s: nat): (r: Option<(Plan, nat)>)
    requires p.Valid() && ValidIdsFor(p, ids) && OnBackend(p, plan) && s < |ids|
    ensures r.Some? ==> OnBackend(p, r.value.0) && Last(r.value.0).backend == Last(plan).backend
  {
    var split := Last(plan);
    if ids[s] == split.backend || BufferSupported(p, ids, s, split.backend) then Some((plan, s))
    else if (s, split.backend) in plan.copies then Some((plan, plan.copies[(s, split.backend)]))
    else if |split.inputs| >= MAX_SPLIT_INPUTS then None
    else Some((WithCopy(plan, s), plan.total))
  }

  /** The sources from the j-th on, row being the first j of them. */
  function ReadSources(p: Problem, ids: Ids, plan: Plan, src: seq<nat>, j: nat, row: seq<nat>): (r: Option<(Plan, seq<nat>)>)
    requires p.Valid() && ValidIdsFor(p, ids) && OnBackend(p, plan) && Below(src, |ids|) && j == |row| <= |src|
    ensures r.Some? ==> OnBackend(p, r.value.0) && Last(r.value.0).backend == Last(plan).backend && |r.value.1| == |src|
    decreases |src| - j
  {
    if j == |src| then Some((plan, row))
    else
      var now := ReadSource(p, ids, plan, src[j]);
      if now.None? then None else ReadSources(p, ids, now.value.0, src, j + 1, row + [now.value.1])
  }

  /** The plan when node i has the split it needs. */
  function WithSplitFor(p: Problem, ids: Ids, plan: Plan, i: nat): (r: Plan)
    requires p.Valid() && ValidIdsFor(p, ids) && OnBackend(p, plan) && i < |p.g.nodes| && ids[p.g.nodes[i]] != -1
    ensures OnBackend(p, r) && Last(r).backend == ids[p.g.nodes[i]]
  {
    if NeedsSplit(p, ids, plan, i) then Opened(plan, i, ids[p.g.nodes[i]]) else plan
  }

  function PlanStep(p: Problem, ids: Ids, plan: Plan, i: nat): (r: Option<Plan>)
    requires p.Valid() && ValidIdsFor(p, ids) && OnBackend(p, plan) && i < |p.g.nodes| && ids[p.g.nodes[i]] != -1
    ensures r.Some? ==> OnBackend(p, r.value)
  {
    var t := p.g.nodes[i];
    if p.IsViewNode(t) then Some(plan)
    else
      assert Below(p.g.tensors[t].src, |ids|);
      var read := ReadSources(p, ids, WithSplitFor(p, ids, plan, i), p.g.tensors[t].src, 0, []);
      if read.None? then None else Some(WithRow(read.value.0, t, read.value.1))
  }

  /** The backend of the first node from i on that is not a view; stale when there is none. */
  function FirstBackend(p: Problem, ids: Ids, stale: int, i: nat): (r: int)
    requires p.Valid() && ValidIdsFor(p, ids) && i <= |p.g.nodes|
    decreases |p.g.nodes| - i
  {
    if i == |p.g.nodes| then stale
    else if p.IsViewNode(p.g.nodes[i]) then FirstBackend(p, ids, stale, i + 1)
    else ids[p.g.nodes[i]]
  }

  lemma {:induction false} FirstBackendIsOne(p: Problem, ids: Ids, stale: int, i: nat)
    requires Splittable(p, ids) && i <= |p.g.nodes| && 0 <= stale < p.be.n
    ensures 0 <= FirstBackend(p, ids, stale, i) < p.be.n
    decreases |p.g.nodes| - i
  {
    if i < |p.g.nodes| {
      FirstBackendIsOne(p, ids, stale, i + 1);
    }
  }

  function FirstPlan(p: Problem, ids: Ids, stale: int): Plan
    requires p.Valid() && ValidIdsFor(p, ids)
  {
    Plan(OriginalSources(p.g), map[], |p.g.tensors|, [Split(FirstBackend(p, ids, stale, 0), 0, 0, [])])
  }

  /** The plan when the nodes from i on have been added; nothing when some split gets too many inputs. */
  ghost function PlanFrom(p: Problem, ids: Ids, plan: Plan, i: nat): Option<Plan>
    requires Splittable(p, ids) && OnBackend(p, plan) && i <= |p.g.nodes|
    decreases |p.g.nodes| - i
  {
    if i == |p.g.nodes| then Some(Ended(plan, i))
    else
      var now := PlanStep(p, ids, plan, i);
      if now.None? then None else PlanFrom(p, ids, now.value, i + 1)
  }

  /** What pass 5 makes of an assignment. */
  ghost function PlanOf(p: Problem, ids: Ids, stale: int): Option<Plan>
    requires Splittable(p, ids) && 0 <= stale < p.be.n
  {
    FirstBackendIsOne(p, ids, stale, 0);
    PlanFrom(p, ids, FirstPlan(p, ids, stale), 0)
  }

  // ----- why it is right

  /** Reading a source keeps the plan, and what has been read before, right. */
  lemma ReadSourceRight(p: Problem, ids: Ids, plan: Plan, i: nat, s: nat, row: seq<nat>)
    requires Schedulable(p) && Assigned(p, ids) && Cut(p, ids, plan, i) && OnBackend(p, plan) && i < |p.g.nodes|
    requires s in p.g.tensors[p.g.nodes[i]].src && ReadSource(p, ids, plan, s).Some?
    requires |row| <= |p.g.tensors[p.g.nodes[i]].src| && RowRight(p, ids, plan, p.g.tensors[p.g.nodes[i]].src, row)
    ensures var (now, at) := ReadSource(p, ids, plan, s).value;
            && Cut(p, ids, now, i) && MayRead(p, ids, now, s, at)
            && RowRight(p, ids, now, p.g.tensors[p.g.nodes[i]].src, row)
  {
    var b := Last(plan).backend;
    if ids[s] != b && !BufferSupported(p, ids, s, b) && (s, b) !in plan.copies {
      if ViewedKept(p) {
        CopyIsEarly(p, ids, plan, i, s);
      }
      CutWithCopy(p, ids, plan, i, s);
      CopyMayBeRead(p, ids, plan, s);
      RowStaysRight(p, ids, plan, WithCopy(plan, s), p.g.tensors[p.g.nodes[i]].src, row);
    }
  }

  /** What has been read is right. */
  ghost predicate ReadRight(p: Problem, ids: Ids, i: nat, plan: Plan, row: seq<nat>)
    requires p.Valid() && ValidIdsFor(p, ids) && i < |p.g.nodes|
  {
    && Cut(p, ids, plan, i) && |row| <= |p.g.tensors[p.g.nodes[i]].src|
    && RowRight(p, ids, plan, p.g.tensors[p.g.nodes[i]].src, row)
  }

  lemma {:induction false} ReadSourcesRight(p: Problem, ids: Ids, plan: Plan, i: nat, j: nat, row: seq<nat>)
    requires Schedulable(p) && Assigned(p, ids) && OnBackend(p, plan) && i < |p.g.nodes|
    requires j == |row| <= |p.g.tensors[p.g.nodes[i]].src| && Below(p.g.tensors[p.g.nodes[i]].src, |ids|)
    requires ReadRight(p, ids, i, plan, row)
    ensures var read := ReadSources(p, ids, plan, p.g.tensors[p.g.nodes[i]].src, j, row);
            read.Some? ==> ReadRight(p, ids, i, read.value.0, read.value.1)
    decreases |p.g.tensors[p.g.nodes[i]].src| - j
  {
    var src := p.g.tensors[p.g.nodes[i]].src;
    if j < |src| {
      var read := ReadSource(p, ids, plan, src[j]);
      if read.Some? {
        NextSourceRight(p, ids, plan, i, j, row);
        ReadSourcesRight(p, ids, read.value.0, i, j + 1, row + [read.value.1]);
      }
    }
  }

  lemma NextSourceRight(p: Problem, ids: Ids, plan: Plan, i: nat, j: nat, row: seq<nat>)
    requires Schedulable(p) && Assigned(p, ids) && OnBackend(p, plan) && i < |p.g.nodes|
    requires j == |row| < |p.g.tensors[p.g.nodes[i]].src| && ReadRight(p, ids, i, plan, row)
    requires ReadSource(p, ids, plan, p.g.tensors[p.g.nodes[i]].src[j]).Some?
    ensures var (now, at) := ReadSource(p, ids, plan, p.g.tensors[p.g.nodes[i]].src[j]).value;
            ReadRight(p, ids, i, now, row + [at])
  {
    var src := p.g.tensors[p.g.nodes[i]].src;
    ReadSourceRight(p, ids, plan, i, src[j], row);
    var (now, at) := ReadSource(p, ids, plan, src[j]).value;
    RowGrows(p, ids, now, src, row, at);
  }

  lemma PlanStepRight(p: Problem, ids: Ids, plan: Plan, i: nat)
    requires Schedulable(p) && Assigned(p, ids) && Cut(p, ids, plan, i) && OnBackend(p, plan) && i < |p.g.nodes|
    requires PlanStep(p, ids, plan, i).Some?
    ensures Cut(p, ids, PlanStep(p, ids, plan, i).value, i + 1)
  {
    var t := p.g.nodes[i];
    if p.IsViewNode(t) {
      CutPastView(p, ids, plan, i);
    } else {
      CutAtNewSplit(p, ids, plan, i, ids[t]);
      var begun := WithSplitFor(p, ids, plan, i);
      assert Below(p.g.tensors[t].src, |ids|);
      ReadSourcesRight(p, ids, begun, i, 0, []);
      var (now, row) := ReadSources(p, ids, begun, p.g.tensors[t].src, 0, []).value;
      CutPastNode(p, ids, now, i, row);
    }
  }

  lemma {:induction false} PlanFromRight(p: Problem, ids: Ids, plan: Plan, i: nat)
    requires Schedulable(p) && Assigned(p, ids) && OnBackend(p, plan) && i <= |p.g.nodes| && Cut(p, ids, plan, i)
    ensures ValidIfAny(p, ids, PlanFrom(p, ids, plan, i))
    decreases |p.g.nodes| - i
  {
    if i == |p.g.nodes| {
      LastPlanRight(p, ids, plan);
    } else if PlanStep(p, ids, plan, i).Some? {
      var next := PlanStep(p, ids, plan, i).value;
      PlanStepRight(p, ids, plan, i);
      PlanFromRight(p, ids, next, i + 1);
      PlanGoesOn(p, ids, plan, i);
    } else {
      PlanGoesOn(p, ids, plan, i);
    }
  }

  lemma PlanGoesOn(p: Problem, ids: Ids, plan: Plan, i: nat)
    requires Splittable(p, ids) && OnBackend(p, plan) && i < |p.g.nodes|
    ensures PlanFrom(p, ids, plan, i)
         == if PlanStep(p, ids, plan, i).None? then None else PlanFrom(p, ids, PlanStep(p, ids, plan, i).value, i + 1)
  {
  }

  ghost predicate ValidIfAny(p: Problem, ids: Ids, plan: Option<Plan>) {
    plan.Some? ==> ValidPlan(p, ids, plan.value)
  }

  lemma LastPlanRight(p: Problem, ids: Ids, plan: Plan)
    requires Splittable(p, ids) && OnBackend(p, plan) && Cut(p, ids, plan, |p.g.nodes|)
    ensures ValidIfAny(p, ids, PlanFrom(p, ids, plan, |p.g.nodes|))
  {
    ClosedIsValid(p, ids, plan);
  }

  /** The plan of pass 5 is right. */
  lemma PlanOfRight(p: Problem, ids: Ids, stale: int)
    requires Schedulable(p) && Assigned(p, ids) && 0 <= stale < p.be.n && PlanOf(p, ids, stale).Some?
    ensures ValidPlan(p, ids, PlanOf(p, ids, stale).value)
  {
    FirstBackendIsOne(p, ids, stale, 0);
    FirstCut(p, ids, 0, FirstBackend(p, ids, stale, 0));
    PlanFromRight(p, ids, FirstPlan(p, ids, stale), 0);
  }

  // ----- the splitter

  class Splitter {
    const p: Problem
    const ids: Ids
    var plan: Plan

    ghost predicate Ready() {
      Schedulable(p) && Assigned(p, ids)
    }

    ghost predicate InRange()
      reads this
    {
      Splittable(p, ids) && OnBackend(p, plan)
    }

    constructor (p: Problem, ids: Ids)
      requires Schedulable(p) && Assigned(p, ids)
      ensures Ready() && this.p == p && this.ids == ids
    {
      this.p, this.ids := p, ids;
      plan := Plan([], map[], 0, []);
    }

    /** The split cannot take node i: a weight it cannot use where it is, or no room for an input. */
    method NeedsNewSplit(i: nat) returns (need: bool)
      requires InRange() && i < |p.g.nodes|
      ensures need <==> Crowded(p, ids, plan, i)
    {
      var src := p.g.tensors[p.g.nodes[i]].src;
      var split := plan.splits[|plan.splits| - 1];
      for j := 0 to |src|
        invariant forall k :: 0 <= k < j ==> !Crowds(p, ids, plan, src[k])
      {
        var s := src[j];
        if p.buffer[s].Some? && p.buffer[s].value.weights {
          if ids[s] != split.backend && !BufferSupported(p, ids, s, split.backend) {
            return true;
          }
        }
        if |split.inputs| == MAX_SPLIT_INPUTS {
          if ids[s] != split.backend && (s, split.backend) !in plan.copies && !BufferSupported(p, ids, s, split.backend) {
            return true;
          }
        }
      }
      need := false;
    }

    /** The sources of a node as its split can read them; new copies become inputs of the split.
        The source aborts when there are too many. */
    method ReadableSources(src: seq<nat>) returns (ok: bool, row: seq<nat>)
      requires InRange() && Below(src, |ids|)
      modifies this
      ensures InRange() && (ok ==> ReadSources(p, ids, old(plan), src, 0, []) == Some((plan, row)))
      ensures !ok ==> ReadSources(p, ids, old(plan), src, 0, []) == None && |Last(plan).inputs| >= MAX_SPLIT_INPUTS
    {
      row := [];
      for j := 0 to |src|
        invariant InRange() && |row| == j
        invariant ReadSources(p, ids, old(plan), src, 0, []) == ReadSources(p, ids, plan, src, j, row)
      {
        var now;
        ok, now := ReadableSource(src[j]);
        if !ok {
          return;
        }
        row := row + [now];
      }
      ok := true;
    }

    method ReadableSource(s: nat) returns (ok: bool, now: nat)
      requires InRange() && s < |ids|
      modifies this
      ensures InRange() && (ok ==> ReadSource(p, ids, old(plan), s) == Some((plan, now)))
      ensures !ok ==> ReadSource(p, ids, old(plan), s) == None && plan == old(plan) && |Last(plan).inputs| >= MAX_SPLIT_INPUTS
    {
      var split := plan.splits[|plan.splits| - 1];
      var b := split.backend;
      ok, now := true, s;
      if ids[s] != b && !BufferSupported(p, ids, s, b) {
        if (s, b) !in plan.copies {
          if |split.inputs| >= MAX_SPLIT_INPUTS {
            return false, s;
          }
          now := plan.total;
          plan := WithCopy(plan, s);
        } else {
          now := plan.copies[(s, b)];
        }
      }
    }

    /** Node i gets a new split if the last one is on another backend, or crowded. */
    method OpenSplitFor(i: nat)
      requires InRange() && i < |p.g.nodes|
      modifies this
      ensures InRange() && plan == WithSplitFor(p, ids, old(plan), i)
    {
      var t := p.g.nodes[i];
      var split := plan.splits[|plan.splits| - 1];
      var need := false;
      if ids[t] == split.backend && split.inputs != [] {
        need := NeedsNewSplit(i);
      }
      if ids[t] != split.backend || need {
        plan := Opened(plan, i, ids[t]);
      }
    }

    method PlanNode(i: nat) returns (ok: bool)
      requires InRange() && i < |p.g.nodes|
      modifies this
      ensures InRange() && (ok ==> PlanStep(p, ids, old(plan), i) == Some(plan))
      ensures !ok ==> PlanStep(p, ids, old(plan), i) == None && |Last(plan).inputs| >= MAX_SPLIT_INPUTS
    {
      var t := p.g.nodes[i];
      if p.IsViewNode(t) {
        return true;
      }
      OpenSplitFor(i);
      var row;
      assert Below(p.g.tensors[t].src, |ids|);
      ok, row := ReadableSources(p.g.tensors[t].src);
      if ok {
        plan := WithRow(plan, t, row);
      }
    }

    /** Pass 5: opens a split where the backend changes or the split is crowded. */
    method SplitGraph(stale: int) returns (ok: bool)
      requires Ready() && 0 <= stale < p.be.n
      modifies this
      ensures ok <==> PlanOf(p, ids, stale).Some?
      ensures ok ==> PlanOf(p, ids, stale) == Some(plan) && ValidPlan(p, ids, plan)
      ensures !ok ==> plan.splits != [] && |Last(plan).inputs| >= MAX_SPLIT_INPUTS
    {
      ok := SplitNodes(stale);
      if ok {
        PlanOfRight(p, ids, stale);
      }
    }

    method SplitNodes(stale: int) returns (ok: bool)
      requires Splittable(p, ids) && 0 <= stale < p.be.n
      modifies this
      ensures ok ==> PlanOf(p, ids, stale) == Some(plan)
      ensures !ok ==> PlanOf(p, ids, stale) == None && plan.splits != [] && |Last(plan).inputs| >= MAX_SPLIT_INPUTS
    {
      var i := SkipViews(stale);
      ok := true;
      while i < |p.g.nodes|
        invariant 0 <= i <= |p.g.nodes| && ok && InRange() && PlanOf(p, ids, stale) == PlanFrom(p, ids, plan, i)
      {
        ok := PlanNode(i);
        if !ok {
          return;
        }
        i := i + 1;
      }
      plan := Ended(plan, |p.g.nodes|);
    }

    /** The first split is on the backend of the first node that is not a view. */
    method SkipViews(stale: int) returns (i: nat)
      requires Splittable(p, ids) && 0 <= stale < p.be.n
      modifies this
      ensures i <= |p.g.nodes| && InRange() && PlanOf(p, ids, stale) == PlanFrom(p, ids, plan, i)
    {
      FirstBackendIsOne(p, ids, stale, 0);
      i := 0;
      while i < |p.g.nodes| && p.IsViewNode(p.g.nodes[i])
        invariant 0 <= i <= |p.g.nodes| && PlanOf(p, ids, stale) == PlanFrom(p, ids, FirstPlan(p, ids, stale), i)
        invariant FirstBackend(p, ids, stale, i) == FirstBackend(p, ids, stale, 0)
      {
        i := i + 1;
      }
      var first := if i < |p.g.nodes| then ids[p.g.nodes[i]] else stale;
      plan := Plan(OriginalSources(p.g), map[], |p.g.tensors|, [Split(first, 0, 0, [])]);
    }
  }
}
