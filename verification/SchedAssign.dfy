/** The backend scheduler assigns a backend to every tensor of a graph, in four passes. */
module SchedAssign {
  import opened Wrappers
  import opened TensorGraph

  /** Memory a tensor has been given before the scheduler runs. */
  datatype Buffer = Buffer(buft: nat, weights: bool, host: bool)

  /** The backends in order of priority, and what the scheduler asks them. */
  datatype Backends = Backends(
    n: nat,
    bufts: seq<nat>,                       // the buffer type each one allocates
    supportsOp: (nat, nat) -> bool,        // backend, tensor
    supportsBuft: (nat, nat) -> bool,      // backend, buffer type
    wantsOffload: (nat, nat) -> bool,      // backend, tensor
    opOffload: bool)

  datatype Problem = Problem(be: Backends, g: Graph, buffer: seq<Option<Buffer>>) {

    ghost predicate Valid() {
      && g.ValidIds() && |buffer| == |g.tensors| && be.n > 0 && |be.bufts| == be.n
      // a view may not know its buffer yet; if it does, it is its root's
      && (forall t :: 0 <= t < |g.tensors| && buffer[t].Some? ==> buffer[t] == buffer[g.Root(t)])
    }

    predicate Located(t: nat)
      requires g.ValidIds() && |buffer| == |g.tensors| && t < |g.tensors|
    {
      buffer[g.Root(t)].Some?
    }

    /** Backend b can use the memory t has and run its operation. */
    predicate CanHold(b: nat, t: nat, op: nat)
      requires g.ValidIds() && |buffer| == |g.tensors| && t < |g.tensors|
    {
      Located(t) && be.supportsBuft(b, buffer[g.Root(t)].value.buft) && be.supportsOp(b, op)
    }

    predicate IsViewNode(t: nat)
      requires t < |g.tensors|
    {
      IsViewOp(g.tensors[t].op)
    }
  }

  type Ids = seq<int>

  predicate ValidIdsFor(p: Problem, ids: Ids) {
    |ids| == |p.g.tensors| && forall t :: 0 <= t < |ids| ==> -1 <= ids[t] < p.be.n
  }

  /** The buffer type t is, or will be, in. */
  function TypeOf(p: Problem, ids: Ids, t: nat): (r: Option<nat>)
    requires p.Valid() && ValidIdsFor(p, ids) && t < |ids|
    ensures p.Located(t) ==> p.buffer[p.g.Root(t)].Some? && r == Some(p.buffer[p.g.Root(t)].value.buft)
    ensures !p.Located(t) && ids[t] != -1 ==> r == Some(p.be.bufts[ids[t]])
    ensures !p.Located(t) && ids[t] == -1 ==> r.Some? == (ids[p.g.Root(t)] != -1) && (r.Some? ==> r.value == p.be.bufts[ids[p.g.Root(t)]])
  {
    var root := p.g.Root(t);
    if p.buffer[root].Some? then Some(p.buffer[root].value.buft)
    else
      var id := if ids[t] == -1 then ids[root] else ids[t];
      if id == -1 then None else Some(p.be.bufts[id])
  }

  predicate BufferSupported(p: Problem, ids: Ids, t: nat, b: nat)
    requires p.Valid() && ValidIdsFor(p, ids) && t < |ids|
  {
    var buft := TypeOf(p, ids, t);
    buft.Some? && p.be.supportsBuft(b, buft.value)
  }

  /** An assigned operation can run where it is assigned. */
  predicate Runs(p: Problem, ids: Ids, t: nat)
    requires ValidIdsFor(p, ids) && t < |ids|
  {
    ids[t] != -1 ==> p.be.supportsOp(ids[t], t)
  }

  /** The tensor stays in memory that its backend can use. */
  predicate Holds(p: Problem, ids: Ids, t: nat)
    requires p.Valid() && ValidIdsFor(p, ids) && t < |ids|
  {
    p.Located(t) ==> ids[t] != -1 && p.be.supportsBuft(ids[t], p.buffer[p.g.Root(t)].value.buft)
  }

  /** What the passes rely on: the last backend runs everything. */
  ghost predicate Fallback(p: Problem) {
    p.be.n > 0 && forall t: nat :: t < |p.g.tensors| ==> LastSupports(p, t)
  }

  /** Whoever can use buffers of type x hands that on to every backend before it that allocates the
      same type of buffer as it does. */
  ghost predicate TypeKept(be: Backends, x: nat) {
    forall a: nat, b: nat :: b < a && SameType(be, a, b) && be.supportsBuft(a, x) ==> be.supportsBuft(b, x)
  }

  /** Moving up cannot take t out of reach of its memory. */
  ghost predicate Kept(p: Problem, t: nat)
    requires p.Valid() && t < |p.g.tensors|
  {
    p.Located(t) ==> TypeKept(p.be, p.buffer[p.g.Root(t)].value.buft)
  }

  /** No view of the graph looks into a node that moving up could take out of reach of its memory. */
  ghost predicate ViewedKept(p: Problem)
    requires p.Valid()
  {
    forall i :: 0 <= i < |p.g.nodes| && p.IsViewNode(p.g.nodes[i]) && p.g.Root(p.g.nodes[i]) in p.g.nodes ==> Kept(p, p.g.nodes[i])
  }

  /** The tensor has a backend if it has memory; the backend can use that memory, unless the tensor
      computes and has been moved up to a backend that cannot. */
  ghost predicate InReach(p: Problem, ids: Ids, t: nat)
    requires p.Valid() && ValidIdsFor(p, ids) && t < |ids|
  {
    (p.Located(t) ==> ids[t] != -1) && (p.IsViewNode(t) || Kept(p, t) ==> Holds(p, ids, t))
  }

  predicate LastSupports(p: Problem, t: nat)
    requires p.be.n > 0
  {
    p.be.supportsOp(p.be.n - 1, t)
  }

  predicate SameType(be: Backends, a: nat, b: nat) {
    a < |be.bufts| && b < |be.bufts| && be.bufts[a] == be.bufts[b]
  }

  /** Whatever the graph uses is a node or a leaf, and every leaf has memory or is an input. */
  ghost predicate Closed(p: Problem)
    requires p.Valid()
  {
    && (forall i :: 0 <= i < |p.g.nodes| ==> Known(p.g, p.g.Root(p.g.nodes[i])))
    && (forall i, j :: 0 <= i < |p.g.nodes| && 0 <= j < |p.g.tensors[p.g.nodes[i]].src| ==>
          Known(p.g, p.g.tensors[p.g.nodes[i]].src[j]))
    && (forall i :: 0 <= i < |p.g.leafs| ==> p.Located(p.g.leafs[i]) || p.g.tensors[p.g.leafs[i]].isInput)
    && (forall i :: 0 <= i < |p.g.leafs| ==> !p.g.IsView(p.g.leafs[i]))
  }

  predicate Known(g: Graph, t: nat) {
    t in g.nodes || t in g.leafs
  }

  /** Nodes that look into other tensors compute nothing. */
  ghost predicate ViewNodes(p: Problem)
    requires p.Valid()
  {
    forall i :: 0 <= i < |p.g.nodes| ==> (p.g.IsView(p.g.nodes[i]) <==> p.IsViewNode(p.g.nodes[i]))
  }

  /** A view has no memory but its root's, looks at nothing but its root, and is no input. */
  ghost predicate ViewsAreViews(p: Problem)
    requires p.Valid()
  {
    forall v :: 0 <= v < |p.g.tensors| && p.g.IsView(v) ==>
      && !p.g.tensors[v].isInput
      && forall j :: 0 <= j < |p.g.tensors[v].src| ==> p.g.Root(p.g.tensors[v].src[j]) == p.g.Root(v)
  }

  /** r is the first backend that can use the memory of t and run op, -1 when there is none. */
  ghost predicate FirstHolder(p: Problem, t: nat, op: nat, r: int)
    requires p.Valid() && t < |p.g.tensors|
  {
    && -1 <= r < p.be.n && (r != -1 ==> p.CanHold(r, t, op))
    && forall b :: 0 <= b < (if r == -1 then p.be.n else r) ==> !p.CanHold(b, t, op)
  }

  /** t goes where its weight s is, or, from host memory of the last backend, to the first one that
      supports it and offers to take it from there. */
  ghost predicate DrawnBy(p: Problem, t: nat, s: nat, home: int, r: int)
    requires p.Valid() && t < |p.g.tensors| && s < |p.g.tensors|
  {
    && FirstHolder(p, s, t, home)
    && if p.be.opOffload && home == p.be.n - 1 && p.buffer[s].Some? && p.buffer[s].value.host
          && exists b: nat :: b < home && p.be.supportsOp(b, t) && p.be.wantsOffload(b, t) then
         && 0 <= r < home && p.be.supportsOp(r, t) && p.be.wantsOffload(r, t)
         && forall c: nat :: c < r && p.be.supportsOp(c, t) ==> !p.be.wantsOffload(c, t)
       else r == home
  }

  /** None of the first j sources of t is a weight. */
  ghost predicate NoWeight(p: Problem, t: nat, j: nat)
    requires p.Valid() && t < |p.g.tensors| && j <= |p.g.tensors[t].src|
  {
    var src := p.g.tensors[t].src;
    forall i :: 0 <= i < j && p.buffer[src[i]].Some? ==> !p.buffer[src[i]].value.weights
  }

  /** The first weight among its sources decides for t; without one it stays open, and so does a rope. */
  ghost predicate WeightChoice(p: Problem, t: nat, r: int)
    requires p.Valid() && t < |p.g.tensors|
  {
    var src := p.g.tensors[t].src;
    if p.g.tensors[t].op.Rope? || NoWeight(p, t, |src|) then r == -1
    else exists j: nat, home: int ::
      && j < |src| && NoWeight(p, t, j) && p.buffer[src[j]].Some? && p.buffer[src[j]].value.weights
      && DrawnBy(p, t, src[j], home, r)
  }

  /** What pass 1 gives a tensor. */
  ghost predicate FirstChoice(p: Problem, t: nat, id: int)
    requires p.Valid() && t < |p.g.tensors|
  {
    && -1 <= id < p.be.n
    && (p.Located(t) ==> 0 <= id && p.CanHold(id, t, t) && forall b :: 0 <= b < id ==> !p.CanHold(b, t, t))
    && (!p.Located(t) && p.g.tensors[t].isInput ==> id == p.be.n - 1)
    && (id != -1 ==> p.be.supportsOp(id, t) || (!p.Located(t) && p.g.tensors[t].isInput))
    && (!p.Located(t) && !p.g.tensors[t].isInput && id != -1 ==>
          exists j :: 0 <= j < |p.g.tensors[t].src| && p.Located(p.g.tensors[t].src[j]))
    && (!p.Located(t) && !p.g.tensors[t].isInput ==> WeightChoice(p, t, id))
  }

  /** No backend can run the tensor in the memory it has. */
  predicate Stuck(p: Problem, t: nat)
    requires p.Valid() && t < |p.g.tensors|
  {
    p.Located(t) && forall b :: 0 <= b < p.be.n ==> !p.CanHold(b, t, t)
  }

  /** Nodes that compute run where they are assigned, and memory is in reach. */
  ghost predicate Sound(p: Problem, ids: Ids) {
    && p.Valid() && ValidIdsFor(p, ids)
    && (forall i :: 0 <= i < |p.g.nodes| ==> InReach(p, ids, p.g.nodes[i]))
    && (forall i :: 0 <= i < |p.g.nodes| && !p.IsViewNode(p.g.nodes[i]) ==> Runs(p, ids, p.g.nodes[i]))
    && (forall i :: 0 <= i < |p.g.leafs| ==> ids[p.g.leafs[i]] != -1 && Holds(p, ids, p.g.leafs[i]))
    && (forall i :: 0 <= i < |p.g.nodes| && p.IsViewNode(p.g.nodes[i]) && !p.Located(p.g.nodes[i]) ==> ids[p.g.nodes[i]] == -1)
  }

  ghost predicate Schedulable(p: Problem) {
    p.Valid() && p.g.WellFormed() && Shaped(p) && ViewsAreViews(p) && Fallback(p)
  }

  /** What the graph uses is in it, leafs are no nodes, and views compute nothing. */
  ghost predicate Shaped(p: Problem) {
    p.Valid() && LeafsApart(p.g) && Closed(p) && ViewNodes(p)
  }

  // ----- pass 2

  /** One step of a sweep: where an assigned node leaves the sweep, or what an unassigned one takes. */
  function SweepStep(p: Problem, ids: Ids, t: nat, cur: int, skipLast: bool): (r: (Ids, int))
    requires ValidIdsFor(p, ids) && t < |ids| && -1 <= cur < p.be.n
    ensures ValidIdsFor(p, r.0) && -1 <= r.1 < p.be.n
  {
    if p.IsViewNode(t) then (ids, cur)
    else if ids[t] != -1 then (ids, if skipLast && ids[t] == p.be.n - 1 then -1 else ids[t])
    else if cur != -1 && p.be.supportsOp(cur, t) then (ids[t := cur], cur)
    else (ids, cur)
  }

  lemma SweepStepSound(p: Problem, ids: Ids, i: nat, cur: int, skipLast: bool)
    requires Sound(p, ids) && i < |p.g.nodes| && -1 <= cur < p.be.n
    requires forall k :: 0 <= k < |p.g.leafs| ==> p.g.leafs[k] != p.g.nodes[i]
    ensures Sound(p, SweepStep(p, ids, p.g.nodes[i], cur, skipLast).0)
  {
  }

  ghost predicate LeafsApart(g: Graph) {
    forall i, k :: 0 <= i < |g.nodes| && 0 <= k < |g.leafs| ==> g.leafs[k] != g.nodes[i]
  }

  /** now fills in what was left open, and changes nothing else. */
  predicate FillsIn(was: Ids, now: Ids) {
    |was| == |now| && forall t :: 0 <= t < |was| && was[t] != -1 ==> now[t] == was[t]
  }

  class Assigner {
    const p: Problem
    /** The backend of every tensor; -1 when it has none yet. */
    var ids: Ids

    ghost predicate Ready()
      reads this
    {
      Schedulable(p) && ValidIdsFor(p, ids)
    }

    constructor (p: Problem)
      requires Schedulable(p)
      ensures Ready() && this.p == p && forall t :: 0 <= t < |ids| ==> ids[t] == -1
    {
      this.p := p;
      ids := seq(|p.g.tensors|, t => -1);
    }

    /** The first backend that can use the memory of t and run op. */
    method FromBuffer(t: nat, op: nat) returns (r: int)
      requires p.Valid() && t < |p.g.tensors|
      ensures FirstHolder(p, t, op, r)
    {
      var root := p.g.Root(t);
      if p.buffer[root].None? {
        return -1;
      }
      for b := 0 to p.be.n
        invariant forall c :: 0 <= c < b ==> !p.CanHold(c, t, op)
      {
        if p.be.supportsBuft(b, p.buffer[root].value.buft) && p.be.supportsOp(b, op) {
          return b;
        }
      }
      r := -1;
    }

    /** The backend suggested by where a tensor and its sources are; the source aborts on a tensor
        whose memory no backend can run it in. */
    method FromCurrent(t: nat) returns (ok: bool, r: int)
      requires p.Valid() && t < |p.g.tensors|
      ensures ok <==> !Stuck(p, t)
      ensures ok ==> FirstChoice(p, t, r)
    {
      r := FromBuffer(t, t);
      if r != -1 {
        return true, r;
      }
      if p.Located(t) {
        return false, -1;
      }
      if p.g.tensors[t].isInput {
        return true, p.be.n - 1;
      }
      ok := true;
      r := FromWeights(t);
    }

    /** Operations go where their weights are, or to a backend that offers to take them from there. */
    method FromWeights(t: nat) returns (r: int)
      requires p.Valid() && t < |p.g.tensors|
      ensures -1 <= r < p.be.n && WeightChoice(p, t, r)
      ensures r != -1 ==> p.be.supportsOp(r, t)
      ensures r != -1 ==> exists j :: 0 <= j < |p.g.tensors[t].src| && p.Located(p.g.tensors[t].src[j])
    {
      for j := 0 to |p.g.tensors[t].src|
        invariant p.g.tensors[t].op.Rope? || NoWeight(p, t, j)
      {
        var s := p.g.tensors[t].src[j];
        if !p.g.tensors[t].op.Rope? && p.buffer[s].Some? && p.buffer[s].value.weights {
          assert p.Located(s);
          ghost var home;
          r, home := FromWeight(t, s);
          assert DrawnBy(p, t, p.g.tensors[t].src[j], home, r);
          return;
        }
      }
      r := -1;
    }

    method FromWeight(t: nat, s: nat) returns (r: int, ghost home: int)
      requires p.Valid() && t < |p.g.tensors| && s < |p.g.tensors| && p.buffer[s].Some?
      ensures DrawnBy(p, t, s, home, r) && -1 <= r < p.be.n && (r != -1 ==> p.be.supportsOp(r, t))
    {
      r := FromBuffer(s, t);
      home := r;
      if p.be.opOffload && r == p.be.n - 1 && p.buffer[s].value.host {
        for b := 0 to r
          invariant forall c: nat :: c < b && p.be.supportsOp(c, t) ==> !p.be.wantsOffload(c, t)
        {
          if p.be.supportsOp(b, t) && p.be.wantsOffload(b, t) {
            return b, home;
          }
        }
      }
    }

    /** Pass 1, for the tensors of a list. */
    method PassOneOver(ts: seq<nat>) returns (ok: bool)
      requires Ready() && forall i :: 0 <= i < |ts| ==> ts[i] < |ids|
      modifies this
      ensures Ready() && FillsIn(old(ids), ids)
      ensures ok ==> forall i :: 0 <= i < |ts| && old(ids)[ts[i]] == -1 ==> FirstChoice(p, ts[i], ids[ts[i]])
      ensures !ok ==> exists i :: 0 <= i < |ts| && Stuck(p, ts[i])
      ensures forall t :: 0 <= t < |ids| && t !in ts ==> ids[t] == old(ids)[t]
    {
      ok := true;
      var i := 0;
      while i < |ts|
        invariant 0 <= i <= |ts| && Ready() && FillsIn(old(ids), ids)
        invariant forall k :: 0 <= k < i && old(ids)[ts[k]] == -1 ==> FirstChoice(p, ts[k], ids[ts[k]])
        invariant forall t :: 0 <= t < |ids| && t !in ts[..i] ==> ids[t] == old(ids)[t]
      {
        if ids[ts[i]] == -1 {
          var r;
          ok, r := FromCurrent(ts[i]);
          if !ok {
            assert Stuck(p, ts[i]);
            return;
          }
          ids := ids[ts[i] := r];
        }
        assert ts[..i + 1] == ts[..i] + [ts[i]];
        i := i + 1;
      }
    }

    /** Pass 1: leafs, then nodes. */
    method PassOne() returns (ok: bool)
      requires Ready() && forall t :: 0 <= t < |ids| ==> ids[t] == -1
      modifies this
      ensures Ready() && (ok ==> Sound(p, ids) && AfterPassOne(p, ids))
      ensures !ok ==> exists t :: Known(p.g, t) && Stuck(p, t)
    {
      ok := PassOneOver(p.g.leafs);
      if ok {
        ghost var first := ids;
        ok := PassOneOver(p.g.nodes);
        if ok {
          PassOneSound(p, first, ids);
        }
      }
    }

    /** One sweep of pass 2, down or up: assigned nodes hand their backend on. */
    method SweepNodes(up: bool, skipLast: bool)
      requires p.Valid() && ValidIdsFor(p, ids)
      modifies this
      ensures ValidIdsFor(p, ids) && ids == Swept(p, old(ids), up, skipLast, |p.g.nodes|).0
    {
      var cur := -1;
      for k := 0 to |p.g.nodes|
        invariant ValidIdsFor(p, ids) && (ids, cur) == Swept(p, old(ids), up, skipLast, k)
      {
        var t := p.g.nodes[NodeAt(p, up, k)];
        if !p.IsViewNode(t) {
          if ids[t] != -1 {
            cur := if skipLast && ids[t] == p.be.n - 1 then -1 else ids[t];
          } else if cur != -1 && p.be.supportsOp(cur, t) {
            ids := ids[t := cur];
          }
        }
      }
    }

    method Sweep(up: bool, skipLast: bool)
      requires Ready() && Sound(p, ids)
      modifies this
      ensures Ready() && Sound(p, ids) && FillsIn(old(ids), ids)
      ensures ids == Swept(p, old(ids), up, skipLast, |p.g.nodes|).0
    {
      SweptSound(p, ids, up, skipLast, |p.g.nodes|);
      SweepNodes(up, skipLast);
    }

    /** Pass 2: other backends than the last spread down and up, then all of them do. */
    method PassTwo()
      requires Ready() && Sound(p, ids)
      modifies this
      ensures Ready() && Sound(p, ids) && FillsIn(old(ids), ids)
      ensures ids == Spread(p, old(ids)) && AllGoRight(p, old(ids), ids)
    {
      SpreadGoesRight(p, ids);
      Sweep(false, true);
      Sweep(true, true);
      Sweep(false, false);
      Sweep(true, false);
    }

    /** The backend that runs t and can use most of its sources where they are; -1 when none runs it. */
    method BestBackend(t: nat) returns (best: int)
      requires p.Valid() && ValidIdsFor(p, ids) && t < |ids|
      ensures best == MostUsable(p, ids, t, p.be.n)
    {
      var most: int := -1;
      best := -1;
      for b := 0 to p.be.n
        invariant best == MostUsable(p, ids, t, b) && most == if best == -1 then -1 else Usable(p, ids, t, best)
      {
        if p.be.supportsOp(b, t) {
          var count := CountUsable(t, b);
          if count > most {
            most, best := count, b;
          }
        }
      }
    }

    method CountUsable(t: nat, b: nat) returns (count: nat)
      requires p.Valid() && ValidIdsFor(p, ids) && t < |ids|
      ensures count == Usable(p, ids, t, b)
    {
      count := 0;
      var src := p.g.tensors[t].src;
      for j := 0 to |src|
        invariant count == UsableUpTo(p, ids, t, b, j)
      {
        var s := src[j];
        if (ids[s] != -1 || (p.g.IsView(s) && ids[p.g.Root(s)] != -1)) && BufferSupported(p, ids, s, b) {
          count := count + 1;
        }
      }
    }

    /** A backend of higher priority with the same type of buffer, if there is one that can take t over. */
    method Upgrade(t: nat) returns (r: nat)
      requires p.Valid() && ValidIdsFor(p, ids) && t < |ids| && ids[t] != -1
      ensures r == FirstTakeOver(p, ids, t, 0)
    {
      for b := 0 to ids[t]
        invariant FirstTakeOver(p, ids, t, 0) == FirstTakeOver(p, ids, t, b)
      {
        if p.be.bufts[b] == p.be.bufts[ids[t]] && p.be.supportsOp(b, t) {
          var supported := true;
          for j := 0 to |p.g.tensors[t].src|
            invariant supported <==> forall k :: 0 <= k < j ==> BufferSupported(p, ids, p.g.tensors[t].src[k], b)
          {
            supported := supported && BufferSupported(p, ids, p.g.tensors[t].src[j], b);
          }
          if supported {
            return b;
          }
        }
      }
      r := ids[t];
    }

    /** Pass 3: the nodes still open are placed, the others moved up where possible. */
    method PassThree()
      requires Ready() && Sound(p, ids)
      modifies this
      ensures Ready() && Sound(p, ids) && ComputingPlaced(p, ids, |p.g.nodes|) && AllMovedUp(p, old(ids), ids)
      ensures ids == Third(p, old(ids), |p.g.nodes|)
    {
      ThirdSound(p, ids, |p.g.nodes|);
      MoveNodes();
    }

    method MoveNodes()
      requires p.Valid() && ValidIdsFor(p, ids)
      modifies this
      ensures ValidIdsFor(p, ids) && ids == Third(p, old(ids), |p.g.nodes|)
    {
      for i := 0 to |p.g.nodes|
        invariant ValidIdsFor(p, ids) && ids == Third(p, old(ids), i)
      {
        var t := p.g.nodes[i];
        if !p.IsViewNode(t) {
          var b: int;
          if ids[t] == -1 {
            b := BestBackend(t);
          } else {
            b := Upgrade(t);
          }
          ids := ids[t := b];
        }
      }
    }

    /** Pass 4: what is still open goes with its root, or with the node that uses it. The assertion
        that ends it never fails. */
    method PassFour() returns (ok: bool)
      requires Ready() && Sound(p, ids) && ComputingPlaced(p, ids, |p.g.nodes|)
      modifies this
      ensures Ready() && ok && Assigned(p, ids)
      ensures ids == WithRoots(p, old(ids))
    {
      ok := true;
      for i := 0 to |p.g.nodes|
        invariant ok && Ready() && InPassFour(p, old(ids), ids) && PlacedTo(p, ids, i)
      {
        PlaceNode(i, old(ids));
        ok := ids[p.g.nodes[i]] != -1;
      }
      EverythingPlaced(p, old(ids), ids);
    }

    /** A view goes with its root, and so do views among the sources. A node could also be open here
        because no backend spread to it; since the last backend runs everything, none is. */
    method PlaceNode(i: nat, ghost was: Ids)
      requires Ready() && InPassFour(p, was, ids) && i < |p.g.nodes| && PlacedTo(p, ids, i)
      modifies this
      ensures Ready() && InPassFour(p, was, ids) && PlacedTo(p, ids, i + 1)
    {
      FollowRoot(p.g.nodes[i], was);
      ghost var own := ids;
      for j := 0 to |p.g.tensors[p.g.nodes[i]].src|
        invariant Ready() && InPassFour(p, was, ids) && FillsIn(own, ids)
      {
        ghost var before := ids;
        FollowRoot(p.g.tensors[p.g.nodes[i]].src[j], was);
        FillsInTwice(own, before, ids);
      }
      OneMorePlaced(p, own, ids, i);
    }

    /** An open tensor is a view and goes with its root. */
    method FollowRoot(t: nat, ghost was: Ids)
      requires Ready() && InPassFour(p, was, ids) && t < |ids| && Known(p.g, t)
      modifies this
      ensures Ready() && InPassFour(p, was, ids) && FillsIn(old(ids), ids) && ids[t] != -1
    {
      if ids[t] == -1 {
        OpenViewFollows(p, ids, t);
        RootIsPlaced(p, was, ids, t);
        ids := ids[t := ids[p.g.Root(t)]];
      }
    }

    /** All four passes; they fail only on a tensor in memory that no backend can run it in. */
    method Assign() returns (ok: bool)
      requires Ready() && forall t :: 0 <= t < |ids| ==> ids[t] == -1
      modifies this
      ensures Ready() && (ok ==> Assigned(p, ids) && Outcome(p, ids))
      ensures !ok ==> exists t :: Known(p.g, t) && Stuck(p, t)
    {
      ok := PassOne();
      if ok {
        ghost var first := ids;
        PassTwo();
        PassThree();
        ok := PassFour();
        assert ids == AfterFirst(p, first);
      }
    }
  }

  /** A node that had a backend has one of no lower priority that allocates the same type of buffer;
      views and leafs are not touched. */
  predicate MovedUp(p: Problem, was: Ids, now: Ids, t: nat)
    requires ValidIdsFor(p, was) && ValidIdsFor(p, now) && t < |p.g.tensors| && |p.be.bufts| == p.be.n
  {
    && (t !in p.g.nodes || p.IsViewNode(t) ==> now[t] == was[t])
    && (was[t] != -1 ==> 0 <= now[t] <= was[t] && p.be.bufts[now[t]] == p.be.bufts[was[t]])
  }

  predicate AllMovedUp(p: Problem, was: Ids, now: Ids) {
    && ValidIdsFor(p, was) && ValidIdsFor(p, now) && |p.be.bufts| == p.be.n
    && forall t :: 0 <= t < |now| ==> MovedUp(p, was, now, t)
  }

  // ----- passes 3 and 4 as functions

  /** The first backend from b on that can take t over, or the one it is on. */
  function FirstTakeOver(p: Problem, ids: Ids, t: nat, b: nat): (r: nat)
    requires p.Valid() && ValidIdsFor(p, ids) && t < |ids| && b <= ids[t]
    ensures b <= r <= ids[t]
    decreases ids[t] - b
  {
    if b == ids[t] || CanTakeOver(p, ids, t, b) then b else FirstTakeOver(p, ids, t, b + 1)
  }

  /** The first of the backends before n that can use most sources of t among those that run it. */
  function MostUsable(p: Problem, ids: Ids, t: nat, n: nat): (r: int)
    requires p.Valid() && ValidIdsFor(p, ids) && t < |ids| && n <= p.be.n
    ensures -1 <= r < n
  {
    if n == 0 then -1
    else
      var r := MostUsable(p, ids, t, n - 1);
      if p.be.supportsOp(n - 1, t) && (r == -1 || Usable(p, ids, t, r) < Usable(p, ids, t, n - 1)) then n - 1 else r
  }

  function ThirdStep(p: Problem, ids: Ids, t: nat): (r: Ids)
    requires p.Valid() && ValidIdsFor(p, ids) && t < |ids|
    ensures ValidIdsFor(p, r)
  {
    if p.IsViewNode(t) then ids
    else ids[t := if ids[t] == -1 then MostUsable(p, ids, t, p.be.n) else FirstTakeOver(p, ids, t, 0)]
  }

  /** Pass 3 over the first k nodes. */
  function Third(p: Problem, ids: Ids, k: nat): (r: Ids)
    requires p.Valid() && ValidIdsFor(p, ids) && k <= |p.g.nodes|
    ensures ValidIdsFor(p, r)
  {
    if k == 0 then ids else ThirdStep(p, Third(p, ids, k - 1), p.g.nodes[k - 1])
  }

  /** What holds once pass 3 has been over the first i nodes. */
  ghost predicate InPassThree(p: Problem, was: Ids, ids: Ids, i: nat) {
    && Sound(p, ids) && ValidIdsFor(p, was) && i <= |p.g.nodes| && ids == Third(p, was, i)
    && ComputingPlaced(p, ids, i) && AllMovedUp(p, was, ids)
  }

  lemma {:induction false} ThirdSound(p: Problem, was: Ids, k: nat)
    requires LeafsApart(p.g) && Fallback(p) && Sound(p, was) && k <= |p.g.nodes|
    ensures InPassThree(p, was, Third(p, was, k), k)
  {
    if k > 0 {
      ThirdSound(p, was, k - 1);
      ThirdStepSound(p, was, Third(p, was, k - 1), k - 1, Third(p, was, k));
    }
  }

  lemma ThirdStepSound(p: Problem, was: Ids, ids: Ids, i: nat, now: Ids)
    requires LeafsApart(p.g) && Fallback(p) && i < |p.g.nodes| && InPassThree(p, was, ids, i)
    requires now == Third(p, was, i + 1)
    ensures InPassThree(p, was, now, i + 1)
  {
    var t := p.g.nodes[i];
    if !p.IsViewNode(t) {
      ChosenRuns(p, ids, i);
      MovedSound(p, ids, i, now[t]);
      MovedUpOnce(p, was, ids, t, now[t]);
    }
  }

  lemma ChosenRuns(p: Problem, ids: Ids, i: nat)
    requires Fallback(p) && Sound(p, ids) && i < |p.g.nodes| && !p.IsViewNode(p.g.nodes[i])
    ensures var t := p.g.nodes[i];
            var b := ThirdStep(p, ids, t)[t];
            0 <= b < p.be.n && p.be.supportsOp(b, t) && (ids[t] != -1 ==> b <= ids[t] && p.be.bufts[b] == p.be.bufts[ids[t]])
  {
    var t := p.g.nodes[i];
    assert LastSupports(p, t);
    MostUsableIsBest(p, ids, t, p.be.n);
    if ids[t] != -1 {
      FirstTakeOverIsFirst(p, ids, t, 0);
    }
  }

  /** No backend of higher priority can take t over than the first that can; without one it stays. */
  lemma {:induction false} FirstTakeOverIsFirst(p: Problem, ids: Ids, t: nat, b: nat)
    requires p.Valid() && ValidIdsFor(p, ids) && t < |ids| && b <= ids[t]
    ensures var r := FirstTakeOver(p, ids, t, b);
            && (r < ids[t] ==> p.be.bufts[r] == p.be.bufts[ids[t]] && p.be.supportsOp(r, t) && UsesAll(p, ids, t, r))
            && forall c :: b <= c < r && p.be.bufts[c] == p.be.bufts[ids[t]] && p.be.supportsOp(c, t) ==> !UsesAll(p, ids, t, c)
    decreases ids[t] - b
  {
    if b < ids[t] && !CanTakeOver(p, ids, t, b) {
      FirstTakeOverIsFirst(p, ids, t, b + 1);
    }
  }

  /** Backend b can use every source of t where it is. */
  predicate UsesAll(p: Problem, ids: Ids, t: nat, b: nat)
    requires p.Valid() && ValidIdsFor(p, ids) && t < |ids|
  {
    forall j :: 0 <= j < |p.g.tensors[t].src| ==> BufferSupported(p, ids, p.g.tensors[t].src[j], b)
  }

  /** Among the first n backends that run t the chosen one can use the most sources, and is the first
      that can use as many. */
  lemma {:induction false} MostUsableIsBest(p: Problem, ids: Ids, t: nat, n: nat)
    requires p.Valid() && ValidIdsFor(p, ids) && t < |ids| && n <= p.be.n
    ensures var r := MostUsable(p, ids, t, n);
            && (r == -1 ==> forall c :: 0 <= c < n ==> !p.be.supportsOp(c, t))
            && (r != -1 ==> p.be.supportsOp(r, t))
            && (forall c :: 0 <= c < n && r != -1 && p.be.supportsOp(c, t) ==> |UsableSources(p, ids, t, c)| <= |UsableSources(p, ids, t, r)|)
            && (forall c :: 0 <= c < r && p.be.supportsOp(c, t) ==> |UsableSources(p, ids, t, c)| < |UsableSources(p, ids, t, r)|)
  {
    forall c | 0 <= c < n ensures Usable(p, ids, t, c) == |UsableSources(p, ids, t, c)| {
      UsableCounted(p, ids, t, c, |p.g.tensors[t].src|);
    }
    MostUsableLeads(p, ids, t, n);
  }

  lemma {:induction false} MostUsableLeads(p: Problem, ids: Ids, t: nat, n: nat)
    requires p.Valid() && ValidIdsFor(p, ids) && t < |ids| && n <= p.be.n
    ensures var r := MostUsable(p, ids, t, n);
            && (r == -1 ==> forall c :: 0 <= c < n ==> !p.be.supportsOp(c, t))
            && (r != -1 ==> p.be.supportsOp(r, t))
            && (forall c :: 0 <= c < n && r != -1 && p.be.supportsOp(c, t) ==> Usable(p, ids, t, c) <= Usable(p, ids, t, r))
            && (forall c :: 0 <= c < r && p.be.supportsOp(c, t) ==> Usable(p, ids, t, c) < Usable(p, ids, t, r))
  {
    if n > 0 {
      MostUsableLeads(p, ids, t, n - 1);
    }
  }

  /** The places of the sources backend b can use where they are: that have a backend, or are views of
      such a tensor, and are in memory it supports. */
  ghost function UsableSources(p: Problem, ids: Ids, t: nat, b: nat): set<nat>
    requires p.Valid() && ValidIdsFor(p, ids) && t < |ids|
  {
    UsableBefore(p, ids, t, b, |p.g.tensors[t].src|)
  }

  ghost function UsableBefore(p: Problem, ids: Ids, t: nat, b: nat, n: nat): set<nat>
    requires p.Valid() && ValidIdsFor(p, ids) && t < |ids| && n <= |p.g.tensors[t].src|
  {
    set j: nat | j < n && UsableAt(p, ids, t, b, j)
  }

  ghost predicate UsableAt(p: Problem, ids: Ids, t: nat, b: nat, j: nat)
    requires p.Valid() && ValidIdsFor(p, ids) && t < |ids| && j < |p.g.tensors[t].src|
  {
    var s := p.g.tensors[t].src[j];
    BufferSupported(p, ids, s, b) && (ids[s] == -1 ==> p.g.IsView(s) && ids[p.g.Root(s)] != -1)
  }

  lemma {:induction false} UsableCounted(p: Problem, ids: Ids, t: nat, b: nat, n: nat)
    requires p.Valid() && ValidIdsFor(p, ids) && t < |ids| && n <= |p.g.tensors[t].src|
    ensures UsableUpTo(p, ids, t, b, n) == |UsableBefore(p, ids, t, b, n)|
  {
    if n > 0 {
      UsableCounted(p, ids, t, b, n - 1);
      OneMoreUsable(p, ids, t, b, n - 1);
    }
  }

  lemma OneMoreUsable(p: Problem, ids: Ids, t: nat, b: nat, n: nat)
    requires p.Valid() && ValidIdsFor(p, ids) && t < |ids| && n < |p.g.tensors[t].src|
    ensures |UsableBefore(p, ids, t, b, n + 1)| == |UsableBefore(p, ids, t, b, n)| + if UsableAt(p, ids, t, b, n) then 1 else 0
  {
    var before := UsableBefore(p, ids, t, b, n);
    if UsableAt(p, ids, t, b, n) {
      assert UsableBefore(p, ids, t, b, n + 1) == before + {n};
    } else {
      assert UsableBefore(p, ids, t, b, n + 1) == before;
    }
  }

  /** Open tensors of the graph go with their roots. */
  function WithRoots(p: Problem, ids: Ids): (r: Ids)
    requires p.g.ValidIds() && |ids| == |p.g.tensors|
    ensures |r| == |ids|
  {
    seq(|ids|, t requires 0 <= t < |ids| => if ids[t] == -1 && Known(p.g, t) then ids[p.g.Root(t)] else ids[t])
  }

  /** What pass 1 leaves behind. */
  ghost predicate AfterPassOne(p: Problem, ids: Ids)
    requires p.Valid()
  {
    && ValidIdsFor(p, ids)
    && (forall i :: 0 <= i < |p.g.leafs| ==> FirstChoice(p, p.g.leafs[i], ids[p.g.leafs[i]]))
    && (forall i :: 0 <= i < |p.g.nodes| ==> FirstChoice(p, p.g.nodes[i], ids[p.g.nodes[i]]))
    && (forall t :: 0 <= t < |ids| && !Known(p.g, t) ==> ids[t] == -1)
  }

  /** Passes 2, 3 and 4. */
  function AfterFirst(p: Problem, first: Ids): Ids
    requires p.Valid() && ValidIdsFor(p, first)
  {
    WithRoots(p, Third(p, Spread(p, first), |p.g.nodes|))
  }

  /** The assignments are those of the four passes. */
  ghost predicate Outcome(p: Problem, ids: Ids)
    requires p.Valid()
  {
    exists first: Ids :: AfterPassOne(p, first) && ids == AfterFirst(p, first)
  }

  lemma MovedUpOnce(p: Problem, was: Ids, now: Ids, t: nat, b: nat)
    requires AllMovedUp(p, was, now) && t < |now| && b < p.be.n && t in p.g.nodes && !p.IsViewNode(t)
    requires now[t] != -1 ==> b <= now[t] && p.be.bufts[b] == p.be.bufts[now[t]]
    ensures AllMovedUp(p, was, now[t := b])
  {
    var moved := now[t := b];
    forall u | 0 <= u < |now| ensures MovedUp(p, was, moved, u) {
      assert MovedUp(p, was, now, u);
    }
  }

  /** As Sound, but views may be where their roots are; only they may be open. */
  ghost predicate Rooted(p: Problem, ids: Ids) {
    && p.Valid() && ValidIdsFor(p, ids)
    && (forall i :: 0 <= i < |p.g.nodes| ==> InReach(p, ids, p.g.nodes[i]))
    && (forall i :: 0 <= i < |p.g.nodes| && !p.IsViewNode(p.g.nodes[i]) ==> ids[p.g.nodes[i]] != -1 && Runs(p, ids, p.g.nodes[i]))
    && (forall i :: 0 <= i < |p.g.leafs| ==> ids[p.g.leafs[i]] != -1 && Holds(p, ids, p.g.leafs[i]))
    && (forall i :: 0 <= i < |p.g.nodes| && p.IsViewNode(p.g.nodes[i]) && !p.Located(p.g.nodes[i]) ==> WithRoot(p, ids, p.g.nodes[i]))
  }

  predicate WithRoot(p: Problem, ids: Ids, v: nat)
    requires p.g.ValidIds() && ValidIdsFor(p, ids) && v < |ids|
  {
    ids[v] == -1 || ids[v] == ids[p.g.Root(v)]
  }

  /** What the four passes achieve: everything the graph uses has a backend, operations run where
      they are, memory can be used where it is, and views are with their roots. */
  ghost predicate Assigned(p: Problem, ids: Ids) {
    Rooted(p, ids) && PlacedTo(p, ids, |p.g.nodes|)
  }

  /** A tensor of the graph that is still open is a view, and can follow its root. */
  lemma OpenViewFollows(p: Problem, ids: Ids, v: nat)
    requires Shaped(p) && Rooted(p, ids) && v < |ids| && ids[v] == -1 && Known(p.g, v)
    ensures p.g.IsView(v) && ids[p.g.Root(v)] != -1 && Rooted(p, ids[v := ids[p.g.Root(v)]])
  {
    var i :| 0 <= i < |p.g.nodes| && p.g.nodes[i] == v;
    var root := p.g.Root(v);
    assert p.IsViewNode(v) && Known(p.g, root);
    RootIsNoView(p, v);
    assert ids[root] != -1;
    var now := ids[v := ids[root]];
    forall k | 0 <= k < |p.g.nodes| && p.IsViewNode(p.g.nodes[k]) && !p.Located(p.g.nodes[k])
      ensures WithRoot(p, now, p.g.nodes[k])
    {
      RootIsNoView(p, p.g.nodes[k]);
    }
  }

  /** What holds during pass 4: some open tensors went with their roots. */
  ghost predicate InPassFour(p: Problem, was: Ids, ids: Ids) {
    && Rooted(p, ids) && Rooted(p, was) && FillsIn(was, ids)
    && forall t :: 0 <= t < |ids| ==> FollowsRoot(p, was, ids, t)
  }

  predicate FollowsRoot(p: Problem, was: Ids, ids: Ids, t: nat)
    requires p.g.ValidIds() && |was| == |ids| == |p.g.tensors| && t < |ids|
  {
    ids[t] == was[t] || (was[t] == -1 && Known(p.g, t) && ids[t] == was[p.g.Root(t)])
  }

  /** The root of an open tensor was not open before pass 4. */
  lemma RootIsPlaced(p: Problem, was: Ids, ids: Ids, t: nat)
    requires Shaped(p) && InPassFour(p, was, ids) && t < |ids| && ids[t] == -1 && Known(p.g, t)
    ensures ids[p.g.Root(t)] == was[p.g.Root(t)] != -1
    ensures var now := ids[t := ids[p.g.Root(t)]];
            FillsIn(was, now) && forall u :: 0 <= u < |now| ==> FollowsRoot(p, was, now, u)
  {
    OpenViewFollows(p, was, t);
    var now := ids[t := ids[p.g.Root(t)]];
    forall u | 0 <= u < |now| ensures FollowsRoot(p, was, now, u) {
      assert FollowsRoot(p, was, ids, u);
    }
  }

  lemma EverythingPlaced(p: Problem, was: Ids, ids: Ids)
    requires InPassFour(p, was, ids) && PlacedTo(p, ids, |p.g.nodes|)
    ensures ids == WithRoots(p, was)
  {
    forall t | 0 <= t < |ids| ensures ids[t] == WithRoots(p, was)[t] {
      assert FollowsRoot(p, was, ids, t);
    }
  }

  lemma RootIsNoView(p: Problem, v: nat)
    requires p.Valid() && v < |p.g.tensors|
    ensures !p.g.IsView(p.g.Root(v))
  {
  }

  lemma PassOneSound(p: Problem, first: Ids, ids: Ids)
    requires Schedulable(p) && ValidIdsFor(p, first) && ValidIdsFor(p, ids)
    requires forall i :: 0 <= i < |p.g.leafs| ==> FirstChoice(p, p.g.leafs[i], first[p.g.leafs[i]])
    requires forall i :: 0 <= i < |p.g.nodes| ==> first[p.g.nodes[i]] == -1 && FirstChoice(p, p.g.nodes[i], ids[p.g.nodes[i]])
    requires forall t :: 0 <= t < |ids| && t !in p.g.nodes ==> ids[t] == first[t]
    ensures Sound(p, ids)
  {
    forall i | 0 <= i < |p.g.leafs| ensures ids[p.g.leafs[i]] != -1 && Holds(p, ids, p.g.leafs[i]) {
      assert p.g.leafs[i] !in p.g.nodes;
      assert FirstChoice(p, p.g.leafs[i], ids[p.g.leafs[i]]);
    }
    forall i | 0 <= i < |p.g.nodes| && p.IsViewNode(p.g.nodes[i]) && !p.Located(p.g.nodes[i]) ensures ids[p.g.nodes[i]] == -1 {
      var v := p.g.nodes[i];
      assert p.g.IsView(v);
      forall j | 0 <= j < |p.g.tensors[v].src| ensures !p.Located(p.g.tensors[v].src[j]) {
        assert p.g.Root(p.g.tensors[v].src[j]) == p.g.Root(v);
      }
    }
    forall i | 0 <= i < |p.g.nodes| ensures Holds(p, ids, p.g.nodes[i]) && (!p.IsViewNode(p.g.nodes[i]) ==> Runs(p, ids, p.g.nodes[i])) {
      assert LastSupports(p, p.g.nodes[i]);
    }
  }

  function NodeAt(p: Problem, up: bool, k: nat): (i: nat)
    requires k < |p.g.nodes|
    ensures i < |p.g.nodes|
  {
    if up then |p.g.nodes| - 1 - k else k
  }

  /** Assignments, and the backend being handed on, after k steps of a sweep. */
  function Swept(p: Problem, ids: Ids, up: bool, skipLast: bool, k: nat): (r: (Ids, int))
    requires p.g.ValidIds() && ValidIdsFor(p, ids) && k <= |p.g.nodes|
    ensures ValidIdsFor(p, r.0) && -1 <= r.1 < p.be.n
  {
    if k == 0 then (ids, -1)
    else
      var s := Swept(p, ids, up, skipLast, k - 1);
      SweepStep(p, s.0, p.g.nodes[NodeAt(p, up, k - 1)], s.1, skipLast)
  }

  /** Pass 2: down and up without the last backend, then down and up with it. */
  function Spread(p: Problem, ids: Ids): (r: Ids)
    requires p.g.ValidIds() && ValidIdsFor(p, ids)
    ensures ValidIdsFor(p, r)
  {
    var n := |p.g.nodes|;
    var down := Swept(p, Swept(p, ids, false, true, n).0, true, true, n).0;
    Swept(p, Swept(p, down, false, false, n).0, true, false, n).0
  }

  // ----- where an open node goes, told by its neighbours alone

  /** A node that is not skipped as a view. */
  predicate Computing(p: Problem, i: int)
    requires p.g.ValidIds()
  {
    0 <= i < |p.g.nodes| && !p.IsViewNode(p.g.nodes[i])
  }

  /** The backend at position i, -1 beyond either end. */
  function BackendAt(p: Problem, ids: Ids, i: int): int
    requires p.g.ValidIds() && ValidIdsFor(p, ids)
  {
    if 0 <= i < |p.g.nodes| then ids[p.g.nodes[i]] else -1
  }

  /** Position i is beyond an end, or has an assigned node that computes. */
  predicate Bound(p: Problem, ids: Ids, i: int)
    requires p.g.ValidIds() && ValidIdsFor(p, ids)
  {
    i == -1 || i == |p.g.nodes| || (Computing(p, i) && BackendAt(p, ids, i) != -1)
  }

  /** All computing nodes from a to z, the bounds left out, are open. */
  ghost predicate OpenBetween(p: Problem, ids: Ids, a: int, z: int)
    requires p.g.ValidIds() && ValidIdsFor(p, ids)
  {
    forall m :: a < m < z && Computing(p, m) ==> BackendAt(p, ids, m) == -1
  }

  /** Open computing node i, with a and z the nearest assigned ones: another backend than the last comes
      first from before, then from behind; the last one comes where no other is near; a node with nothing
      assigned on either side stays open. */
  ghost predicate GoesRight(p: Problem, was: Ids, now: Ids, a: int, i: int, z: int)
    requires p.g.ValidIds() && p.be.n > 0 && ValidIdsFor(p, was) && ValidIdsFor(p, now) && Computing(p, i)
  {
    var t, last := p.g.nodes[i], p.be.n - 1;
    var b, c := BackendAt(p, was, a), BackendAt(p, was, z);
    && (b != -1 && b != last && p.be.supportsOp(b, t) ==> now[t] == b)
    && ((b == -1 || b == last) && c != -1 && c != last && p.be.supportsOp(c, t) ==> now[t] == c)
    && (b == last && (c == -1 || c == last) ==> now[t] == last)
    && (b == -1 && c == last ==> now[t] == last)
    && (b == -1 && c == -1 ==> now[t] == -1)
  }

  ghost predicate AllGoRight(p: Problem, was: Ids, now: Ids)
    requires p.g.ValidIds() && p.be.n > 0 && ValidIdsFor(p, was) && ValidIdsFor(p, now)
  {
    forall a, i, z :: a < i < z && Bound(p, was, a) && Bound(p, was, z) && OpenBetween(p, was, a, z) && Computing(p, i) ==>
      GoesRight(p, was, now, a, i, z)
  }

  // the proof: what one sweep makes of a stretch of open nodes

  function Turned(p: Problem, up: bool, i: int): int {
    if up then |p.g.nodes| - 1 - i else i
  }

  /** What is handed on to step k by the nodes assigned before the sweep. */
  ghost function HandedOn(p: Problem, ids: Ids, up: bool, skipLast: bool, k: nat): (r: int)
    requires p.g.ValidIds() && ValidIdsFor(p, ids) && k <= |p.g.nodes|
    ensures -1 <= r < p.be.n
  {
    if k == 0 then -1
    else
      var t := p.g.nodes[NodeAt(p, up, k - 1)];
      if p.IsViewNode(t) || ids[t] == -1 then HandedOn(p, ids, up, skipLast, k - 1)
      else if skipLast && ids[t] == p.be.n - 1 then -1
      else ids[t]
  }

  /** What open tensor t makes of backend b when it is offered. */
  function Offered(p: Problem, t: nat, b: int): int
    requires -1 <= b < p.be.n
  {
    if b != -1 && p.be.supportsOp(b, t) then b else -1
  }

  /** Tensor t after k steps. */
  ghost predicate SweptAt(p: Problem, ids: Ids, up: bool, skipLast: bool, k: nat, now: Ids, m: nat)
    requires p.g.ValidIds() && ValidIdsFor(p, ids) && ValidIdsFor(p, now) && k <= |p.g.nodes| && m < |p.g.nodes|
  {
    var t := p.g.nodes[NodeAt(p, up, m)];
    now[t] == if m < k && !p.IsViewNode(t) && ids[t] == -1 then Offered(p, t, HandedOn(p, ids, up, skipLast, m)) else ids[t]
  }

  ghost predicate SweptTo(p: Problem, ids: Ids, up: bool, skipLast: bool, k: nat, s: (Ids, int))
    requires p.g.ValidIds() && ValidIdsFor(p, ids) && k <= |p.g.nodes|
  {
    && ValidIdsFor(p, s.0) && s.1 == HandedOn(p, ids, up, skipLast, k)
    && forall m :: 0 <= m < |p.g.nodes| ==> SweptAt(p, ids, up, skipLast, k, s.0, m)
  }

  lemma {:induction false} SweepIsExact(p: Problem, ids: Ids, up: bool, skipLast: bool, k: nat)
    requires p.g.WellFormed() && ValidIdsFor(p, ids) && k <= |p.g.nodes|
    ensures SweptTo(p, ids, up, skipLast, k, Swept(p, ids, up, skipLast, k))
  {
    if k > 0 {
      SweepIsExact(p, ids, up, skipLast, k - 1);
      NextIsExact(p, ids, up, skipLast, k, Swept(p, ids, up, skipLast, k - 1));
    }
  }

  lemma NextIsExact(p: Problem, ids: Ids, up: bool, skipLast: bool, k: nat, s: (Ids, int))
    requires p.g.WellFormed() && ValidIdsFor(p, ids) && 0 < k <= |p.g.nodes| && SweptTo(p, ids, up, skipLast, k - 1, s)
    ensures SweptTo(p, ids, up, skipLast, k, SweepStep(p, s.0, p.g.nodes[NodeAt(p, up, k - 1)], s.1, skipLast))
  {
    var now := SweepStep(p, s.0, p.g.nodes[NodeAt(p, up, k - 1)], s.1, skipLast).0;
    assert SweptAt(p, ids, up, skipLast, k - 1, s.0, k - 1);
    forall m | 0 <= m < |p.g.nodes| ensures SweptAt(p, ids, up, skipLast, k, now, m) {
      assert SweptAt(p, ids, up, skipLast, k - 1, s.0, m);
      assert m != k - 1 ==> p.g.nodes[NodeAt(p, up, m)] != p.g.nodes[NodeAt(p, up, k - 1)];
    }
  }

  function SkippedIf(p: Problem, skipLast: bool, b: int): int {
    if skipLast && b == p.be.n - 1 then -1 else b
  }

  /** Along open nodes what is handed on does not change. */
  lemma {:induction false} HandedAlong(p: Problem, ids: Ids, up: bool, skipLast: bool, a: int, k: nat)
    requires p.g.ValidIds() && ValidIdsFor(p, ids) && -1 <= a < k <= |p.g.nodes| && Bound(p, ids, Turned(p, up, a))
    requires forall m :: a < m < k && Computing(p, Turned(p, up, m)) ==> BackendAt(p, ids, Turned(p, up, m)) == -1
    ensures HandedOn(p, ids, up, skipLast, k) == SkippedIf(p, skipLast, BackendAt(p, ids, Turned(p, up, a)))
    decreases k
  {
    if a < k - 1 {
      HandedAlong(p, ids, up, skipLast, a, k - 1);
      assert NodeAt(p, up, k - 1) == Turned(p, up, k - 1);
    } else if a >= 0 {
      assert NodeAt(p, up, a) == Turned(p, up, a);
    }
  }

  /** One sweep over the open nodes between a and z: each takes what comes from the end the sweep starts
      at, if it runs there. */
  ghost predicate StretchSwept(p: Problem, ids: Ids, now: Ids, up: bool, skipLast: bool, a: int, z: int)
    requires p.g.ValidIds() && ValidIdsFor(p, ids) && ValidIdsFor(p, now)
  {
    var h := SkippedIf(p, skipLast, BackendAt(p, ids, if up then z else a));
    forall i :: a < i < z && Computing(p, i) ==> BackendAt(p, now, i) == Offered(p, p.g.nodes[i], h)
  }

  lemma SweepOfStretch(p: Problem, ids: Ids, up: bool, skipLast: bool, a: int, z: int)
    requires p.g.WellFormed() && ValidIdsFor(p, ids) && -1 <= a < z <= |p.g.nodes|
    requires Bound(p, ids, a) && Bound(p, ids, z) && OpenBetween(p, ids, a, z)
    ensures StretchSwept(p, ids, Swept(p, ids, up, skipLast, |p.g.nodes|).0, up, skipLast, a, z)
  {
    var n := |p.g.nodes|;
    var now := Swept(p, ids, up, skipLast, n).0;
    SweepIsExact(p, ids, up, skipLast, n);
    forall i | a < i < z && Computing(p, i)
      ensures BackendAt(p, now, i) == Offered(p, p.g.nodes[i], SkippedIf(p, skipLast, BackendAt(p, ids, if up then z else a)))
    {
      var k := Turned(p, up, i);
      assert BackendAt(p, ids, i) == -1;
      assert SweptAt(p, ids, up, skipLast, n, now, k);
      HandedAlong(p, ids, up, skipLast, Turned(p, up, if up then z else a), k);
    }
  }

  function AfterSweep(p: Problem, ids: Ids, up: bool, skipLast: bool): (r: Ids)
    requires p.g.ValidIds() && ValidIdsFor(p, ids)
    ensures ValidIdsFor(p, r)
  {
    Swept(p, ids, up, skipLast, |p.g.nodes|).0
  }

  lemma AssignedStays(p: Problem, ids: Ids, up: bool, skipLast: bool, i: int)
    requires p.g.WellFormed() && ValidIdsFor(p, ids) && BackendAt(p, ids, i) != -1
    ensures BackendAt(p, AfterSweep(p, ids, up, skipLast), i) == BackendAt(p, ids, i)
  {
    SweepIsExact(p, ids, up, skipLast, |p.g.nodes|);
    var k := Turned(p, up, i);
    assert SweptAt(p, ids, up, skipLast, |p.g.nodes|, AfterSweep(p, ids, up, skipLast), k);
    assert NodeAt(p, up, k) == i;
  }

  ghost predicate Stretch(p: Problem, ids: Ids, a: int, z: int)
    requires p.g.ValidIds() && ValidIdsFor(p, ids)
  {
    -1 <= a < z <= |p.g.nodes| && Bound(p, ids, a) && Bound(p, ids, z) && OpenBetween(p, ids, a, z)
  }

  lemma BoundStays(p: Problem, ids: Ids, up: bool, skipLast: bool, a: int)
    requires p.g.WellFormed() && ValidIdsFor(p, ids) && Bound(p, ids, a)
    ensures Bound(p, AfterSweep(p, ids, up, skipLast), a) && BackendAt(p, AfterSweep(p, ids, up, skipLast), a) == BackendAt(p, ids, a)
  {
    if 0 <= a < |p.g.nodes| {
      AssignedStays(p, ids, up, skipLast, a);
    }
  }

  /** If nothing is handed on to a stretch, it stays one. */
  lemma StretchStays(p: Problem, ids: Ids, up: bool, skipLast: bool, a: int, z: int)
    requires p.g.WellFormed() && p.be.n > 0 && ValidIdsFor(p, ids) && Stretch(p, ids, a, z)
    requires SkippedIf(p, skipLast, BackendAt(p, ids, if up then z else a)) == -1
    ensures var now := AfterSweep(p, ids, up, skipLast);
            Stretch(p, now, a, z) && BackendAt(p, now, a) == BackendAt(p, ids, a) && BackendAt(p, now, z) == BackendAt(p, ids, z)
  {
    SweepOfStretch(p, ids, up, skipLast, a, z);
    BoundStays(p, ids, up, skipLast, a);
    BoundStays(p, ids, up, skipLast, z);
  }

  /** A node takes what is handed on, if it runs there. */
  lemma NodeTakes(p: Problem, ids: Ids, up: bool, skipLast: bool, a: int, i: int, z: int)
    requires p.g.WellFormed() && p.be.n > 0 && ValidIdsFor(p, ids) && Stretch(p, ids, a, z) && a < i < z && Computing(p, i)
    ensures var b := SkippedIf(p, skipLast, BackendAt(p, ids, if up then z else a));
            BackendAt(p, AfterSweep(p, ids, up, skipLast), i) == Offered(p, p.g.nodes[i], b)
  {
    SweepOfStretch(p, ids, up, skipLast, a, z);
  }

  lemma LastTwoSweeps(p: Problem, ids: Ids, a: int, i: int, z: int)
    requires Schedulable(p) && ValidIdsFor(p, ids) && Stretch(p, ids, a, z) && a < i < z && Computing(p, i)
    requires BackendAt(p, ids, a) == -1 || BackendAt(p, ids, a) == p.be.n - 1
    requires BackendAt(p, ids, z) == -1 || BackendAt(p, ids, z) == p.be.n - 1
    ensures BackendAt(p, AfterSweep(p, AfterSweep(p, ids, false, false), true, false), i)
         == if BackendAt(p, ids, a) == -1 && BackendAt(p, ids, z) == -1 then -1 else p.be.n - 1
  {
    var three := AfterSweep(p, ids, false, false);
    assert LastSupports(p, p.g.nodes[i]);
    NodeTakes(p, ids, false, false, a, i, z);
    if BackendAt(p, ids, a) == -1 {
      StretchStays(p, ids, false, false, a, z);
      NodeTakes(p, three, true, false, a, i, z);
    } else {
      AssignedStays(p, three, true, false, i);
    }
  }

  lemma GoesRightOn(p: Problem, ids: Ids, a: int, i: int, z: int)
    requires Schedulable(p) && ValidIdsFor(p, ids) && Stretch(p, ids, a, z) && a < i < z && Computing(p, i)
    ensures GoesRight(p, ids, Spread(p, ids), a, i, z)
  {
    var last := p.be.n - 1;
    var b, c := BackendAt(p, ids, a), BackendAt(p, ids, z);
    var one := AfterSweep(p, ids, false, true);
    var two := AfterSweep(p, one, true, true);
    var three := AfterSweep(p, two, false, false);
    NodeTakes(p, ids, false, true, a, i, z);
    if b != -1 && b != last {
      if p.be.supportsOp(b, p.g.nodes[i]) {
        AssignedStays(p, one, true, true, i);
        AssignedStays(p, two, false, false, i);
        AssignedStays(p, three, true, false, i);
      }
    } else {
      StretchStays(p, ids, false, true, a, z);
      NodeTakes(p, one, true, true, a, i, z);
      if c != -1 && c != last {
        if p.be.supportsOp(c, p.g.nodes[i]) {
          AssignedStays(p, two, false, false, i);
          AssignedStays(p, three, true, false, i);
        }
      } else {
        StretchStays(p, one, true, true, a, z);
        LastTwoSweeps(p, two, a, i, z);
      }
    }
  }

  /** Pass 2 as a whole: every open node goes where its nearest assigned neighbours send it. */
  lemma SpreadGoesRight(p: Problem, ids: Ids)
    requires Schedulable(p) && ValidIdsFor(p, ids)
    ensures AllGoRight(p, ids, Spread(p, ids))
  {
    forall a, i, z | a < i < z && Bound(p, ids, a) && Bound(p, ids, z) && OpenBetween(p, ids, a, z) && Computing(p, i)
      ensures GoesRight(p, ids, Spread(p, ids), a, i, z)
    {
      GoesRightOn(p, ids, a, i, z);
    }
  }

  /** What a sweep leaves: sound assignments, nothing overwritten, and a backend to hand on or none. */
  ghost predicate SweptWell(p: Problem, was: Ids, s: (Ids, int)) {
    Sound(p, s.0) && FillsIn(was, s.0) && -1 <= s.1 < p.be.n
  }

  lemma {:induction false} SweptSound(p: Problem, ids: Ids, up: bool, skipLast: bool, k: nat)
    requires LeafsApart(p.g) && Sound(p, ids) && k <= |p.g.nodes|
    ensures SweptWell(p, ids, Swept(p, ids, up, skipLast, k))
  {
    if k > 0 {
      SweptSound(p, ids, up, skipLast, k - 1);
      NextSwept(p, ids, up, skipLast, k);
    }
  }

  lemma NextSwept(p: Problem, ids: Ids, up: bool, skipLast: bool, k: nat)
    requires LeafsApart(p.g) && p.g.ValidIds() && ValidIdsFor(p, ids) && 0 < k <= |p.g.nodes|
    requires SweptWell(p, ids, Swept(p, ids, up, skipLast, k - 1))
    ensures SweptWell(p, ids, Swept(p, ids, up, skipLast, k))
  {
    SweepOn(p, ids, Swept(p, ids, up, skipLast, k - 1), NodeAt(p, up, k - 1), skipLast);
  }

  lemma SweepOn(p: Problem, was: Ids, s: (Ids, int), i: nat, skipLast: bool)
    requires LeafsApart(p.g) && SweptWell(p, was, s) && i < |p.g.nodes|
    ensures SweptWell(p, was, SweepStep(p, s.0, p.g.nodes[i], s.1, skipLast))
  {
    SweepStepSound(p, s.0, i, s.1, skipLast);
    SweepStepFillsIn(p, s.0, p.g.nodes[i], s.1, skipLast);
    FillsInTwice(was, s.0, SweepStep(p, s.0, p.g.nodes[i], s.1, skipLast).0);
  }

  lemma SweepStepFillsIn(p: Problem, ids: Ids, t: nat, cur: int, skipLast: bool)
    requires ValidIdsFor(p, ids) && t < |ids| && -1 <= cur < p.be.n
    ensures FillsIn(ids, SweepStep(p, ids, t, cur, skipLast).0)
  {
  }

  /** The nodes among the first n that compute have a backend. */
  predicate ComputingPlaced(p: Problem, ids: Ids, n: nat)
    requires p.g.ValidIds() && |ids| == |p.g.tensors| && n <= |p.g.nodes|
  {
    forall k :: 0 <= k < n && !p.IsViewNode(p.g.nodes[k]) ==> ids[p.g.nodes[k]] != -1
  }

  /** The first n nodes have a backend. */
  predicate PlacedTo(p: Problem, ids: Ids, n: nat)
    requires p.g.ValidIds() && |ids| == |p.g.tensors| && n <= |p.g.nodes|
  {
    forall k :: 0 <= k < n ==> ids[p.g.nodes[k]] != -1
  }

  lemma OneMorePlaced(p: Problem, was: Ids, ids: Ids, n: nat)
    requires p.g.ValidIds() && |was| == |ids| == |p.g.tensors| && n < |p.g.nodes|
    requires PlacedTo(p, was, n) && FillsIn(was, ids) && ids[p.g.nodes[n]] != -1
    ensures PlacedTo(p, ids, n + 1)
  {
  }

  lemma FillsInTwice(a: Ids, b: Ids, c: Ids)
    requires FillsIn(a, b) && FillsIn(b, c)
    ensures FillsIn(a, c)
  {
  }

  /** How many of the first j sources are placed in memory that b can use. */
  function UsableUpTo(p: Problem, ids: Ids, t: nat, b: nat, j: nat): nat
    requires p.Valid() && ValidIdsFor(p, ids) && t < |ids| && j <= |p.g.tensors[t].src|
  {
    if j == 0 then 0
    else
      var s := p.g.tensors[t].src[j - 1];
      UsableUpTo(p, ids, t, b, j - 1)
      + (if (ids[s] != -1 || (p.g.IsView(s) && ids[p.g.Root(s)] != -1)) && BufferSupported(p, ids, s, b) then 1 else 0)
  }

  function Usable(p: Problem, ids: Ids, t: nat, b: nat): nat
    requires p.Valid() && ValidIdsFor(p, ids) && t < |ids|
  {
    UsableUpTo(p, ids, t, b, |p.g.tensors[t].src|)
  }

  /** b allocates the same type of buffer as t's backend, runs t, and can use all its sources. */
  predicate CanTakeOver(p: Problem, ids: Ids, t: nat, b: nat)
    requires p.Valid() && ValidIdsFor(p, ids) && t < |ids| && ids[t] != -1 && b < p.be.n
  {
    && p.be.bufts[b] == p.be.bufts[ids[t]] && p.be.supportsOp(b, t)
    && forall j :: 0 <= j < |p.g.tensors[t].src| ==> BufferSupported(p, ids, p.g.tensors[t].src[j], b)
  }

  lemma MovedSound(p: Problem, ids: Ids, i: nat, b: nat)
    requires LeafsApart(p.g) && Sound(p, ids) && i < |p.g.nodes| && !p.IsViewNode(p.g.nodes[i])
    requires b < p.be.n && p.be.supportsOp(b, p.g.nodes[i])
    requires ids[p.g.nodes[i]] != -1 ==> b <= ids[p.g.nodes[i]] && p.be.bufts[b] == p.be.bufts[ids[p.g.nodes[i]]]
    ensures Sound(p, ids[p.g.nodes[i] := b])
  {
    var t := p.g.nodes[i];
    assert InReach(p, ids, t);
    if p.Located(t) && b != ids[t] {
      assert SameType(p.be, ids[t], b);
    }
  }
}
