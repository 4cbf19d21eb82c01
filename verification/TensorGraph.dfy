/** Computation graphs as the allocator and the scheduler see them, and what running one
    means: every tensor that is not a view has a buffer of its own. */
module TensorGraph {
  import opened Wrappers

  datatype Op =
    | OpNone
    // views of another tensor; nothing is computed
    | View | Reshape | Permute | Transpose
    // the operations that may write over one of their sources
    | Fill | Scale | DiagMaskZero | DiagMaskInf | Add | AddId | Add1 | Sub | Mul | Div
    | Sqr | Sqrt | Log | Unary | Rope | RopeBack | SiluBack | RmsNorm | RmsNormBack
    | SoftMax | SoftMaxBack
    // every other one
    | Other(id: nat)

  predicate IsViewOp(op: Op) {
    op.View? || op.Reshape? || op.Permute? || op.Transpose?
  }

  predicate CanInplace(op: Op) {
    !op.OpNone? && !IsViewOp(op) && !op.Other?
  }

  datatype Tensor = Tensor(
    op: Op,
    src: seq<nat>,          // the sources that are not NULL
    viewSrc: Option<nat>,   // the tensor this one is a view of
    external: bool,         // data or buffer set by somebody else
    isInput: bool,
    isOutput: bool,
    layout: nat,            // equal for tensors of equal type, shape and strides
    nbytes: nat)

  datatype Graph = Graph(tensors: seq<Tensor>, nodes: seq<nat>, leafs: seq<nat>) {

    predicate IsView(t: nat)
      requires t < |tensors|
    {
      tensors[t].viewSrc.Some?
    }

    /** The tensor whose buffer holds the bytes of t. */
    function Root(t: nat): nat
      requires t < |tensors|
    {
      if IsView(t) then tensors[t].viewSrc.value else t
    }

    predicate External(t: nat)
      requires t < |tensors|
    {
      !IsView(t) && tensors[t].external
    }

    /** The allocator has to find memory for t. */
    predicate Owned(t: nat)
      requires t < |tensors|
    {
      !IsView(t) && !tensors[t].external
    }

    predicate Computes(t: nat)
      requires t < |tensors|
    {
      !tensors[t].op.OpNone? && !IsViewOp(tensors[t].op)
    }

    /** t has no operation and holds nothing before the run: somebody else fills it when its turn
        comes, as the scheduler does with the copies it puts among the nodes. */
    predicate Arrives(t: nat)
      requires t < |tensors|
    {
      tensors[t].op.OpNone? && Owned(t) && t !in leafs && !tensors[t].isInput
    }

    /** Running t changes memory. */
    predicate Writes(t: nat)
      requires t < |tensors|
    {
      Computes(t) || Arrives(t)
    }

    ghost predicate IsSource(t: nat)
      requires ValidIds()
    {
      exists i :: 0 <= i < |nodes| && t in tensors[nodes[i]].src
    }

    /** t holds a value before anything runs: a leaf, or a graph input. */
    ghost predicate Initial(t: nat)
      requires ValidIds() && t < |tensors|
    {
      t in leafs || (tensors[t].isInput && (t in nodes || IsSource(t)))
    }

    predicate ValidIds() {
      && (forall i :: 0 <= i < |nodes| ==> nodes[i] < |tensors|)
      && (forall i :: 0 <= i < |leafs| ==> leafs[i] < |tensors|)
      && (forall t, j :: 0 <= t < |tensors| && 0 <= j < |tensors[t].src| ==> tensors[t].src[j] < |tensors|)
      && (forall t :: 0 <= t < |tensors| && tensors[t].viewSrc.Some? ==>
            tensors[t].viewSrc.value < |tensors| && tensors[tensors[t].viewSrc.value].viewSrc.None?)
    }

    /** The buffer of r holds a value by the time node i runs. */
    ghost predicate RootReady(r: nat, i: nat)
      requires ValidIds() && r < |tensors|
    {
      && (forall k :: 0 <= k < |nodes| && nodes[k] == r ==> k < i)
      && (tensors[r].external || Initial(r) || r in nodes)
    }

    /** Source s of node i: ready, after the node that writes it, and if it is a view of memory the
        allocator manages, a node itself. */
    ghost predicate SourceReady(s: nat, i: nat)
      requires ValidIds() && s < |tensors|
    {
      && (Computes(s) ==> forall k :: 0 <= k < |nodes| && nodes[k] == s ==> k < i)
      && RootReady(Root(s), i)
      && (IsView(s) && !tensors[Root(s)].external ==> s in nodes && !tensors[s].op.OpNone?)
    }

    ghost predicate NodeReady(i: nat)
      requires ValidIds() && i < |nodes|
    {
      var n := nodes[i];
      && (forall j :: 0 <= j < |tensors[n].src| ==> SourceReady(tensors[n].src[j], i))
      && (IsView(n) && Computes(n) ==> RootReady(Root(n), i))
    }

    /** Topologically ordered, inputs and leafs have no operation. */
    ghost predicate WellFormed() {
      && ValidIds()
      && (forall i, j :: 0 <= i < j < |nodes| ==> nodes[i] != nodes[j])
      && (forall i :: 0 <= i < |nodes| ==> NodeReady(i))
      && (forall t :: 0 <= t < |tensors| && (t in leafs || tensors[t].isInput) ==> tensors[t].op.OpNone?)
      && (forall t :: 0 <= t < |tensors| && IsViewOp(tensors[t].op) ==> IsView(t))
    }

    /** Node i reads the buffer of r, writes it through a view, or carries a dependency on it. */
    ghost predicate Accesses(i: nat, r: nat)
      requires ValidIds() && i < |nodes|
    {
      var n := nodes[i];
      || (exists j :: 0 <= j < |tensors[n].src| && Root(tensors[n].src[j]) == r)
      || (tensors[n].viewSrc == Some(r) && Computes(n))
    }

    /** r has its value before node k runs. */
    ghost predicate DefinedBefore(r: nat, k: nat)
      requires ValidIds() && r < |tensors|
    {
      Initial(r) || exists j :: 0 <= j < k && j < |nodes| && nodes[j] == r
    }

    /** The value of r is still wanted when node k has yet to run. */
    ghost predicate NeededFrom(r: nat, k: nat)
      requires ValidIds() && r < |tensors|
    {
      tensors[r].isOutput || exists i :: k <= i < |nodes| && Accesses(i, r)
    }
  }

  type Bytes = seq<int>

  /** What the operation of a tensor computes from its sources and, when its result is a view
      into existing memory, from what that memory held; for a tensor without an operation, what
      it is filled with. */
  type Kernel = (nat, seq<Bytes>, Bytes) -> Bytes

  function Fit(bytes: Bytes, n: nat): (r: Bytes)
    ensures |r| == n
  {
    seq(n, k requires 0 <= k => if k < |bytes| then bytes[k] else 0)
  }

  /** The buffers, one a tensor. */
  type Store = seq<Bytes>

  ghost predicate StoreFor(g: Graph, st: Store) {
    |st| == |g.tensors| && forall t :: 0 <= t < |st| ==> |st[t]| == g.tensors[t].nbytes
  }

  function SourceValues(g: Graph, src: seq<nat>, st: Store): (r: seq<Bytes>)
    requires g.ValidIds() && |st| == |g.tensors|
    requires forall j :: 0 <= j < |src| ==> src[j] < |g.tensors|
    ensures |r| == |src| && forall j :: 0 <= j < |src| ==> r[j] == st[g.Root(src[j])]
  {
    seq(|src|, j requires 0 <= j < |src| => st[g.Root(src[j])])
  }

  /** The new contents of the buffer of node n. */
  function Result(g: Graph, kernel: Kernel, n: nat, sources: seq<Bytes>, before: Bytes): (r: Bytes)
    requires g.ValidIds() && n < |g.tensors|
    ensures |r| == g.tensors[g.Root(n)].nbytes
  {
    Fit(kernel(n, sources, if g.IsView(n) then before else []), g.tensors[g.Root(n)].nbytes)
  }

  /** Runs tensor n: a view operation, an input and a leaf do nothing; any other tensor is written
      into its own buffer or, when it is a view, into the buffer it looks into. */
  function Step(g: Graph, kernel: Kernel, n: nat, st: Store): (r: Store)
    requires g.ValidIds() && n < |g.tensors| && |st| == |g.tensors|
    ensures |r| == |st|
  {
    if !g.Writes(n) then st
    else st[g.Root(n) := Result(g, kernel, n, SourceValues(g, g.tensors[n].src, st), st[g.Root(n)])]
  }

  /** The buffers after the first k nodes. */
  function Run(g: Graph, kernel: Kernel, init: Store, k: nat): (r: Store)
    requires g.ValidIds() && k <= |g.nodes| && |init| == |g.tensors|
    ensures |r| == |init|
  {
    if k == 0 then init else Step(g, kernel, g.nodes[k - 1], Run(g, kernel, init, k - 1))
  }

  lemma {:induction false} RunSizes(g: Graph, kernel: Kernel, init: Store, k: nat)
    requires g.ValidIds() && k <= |g.nodes| && StoreFor(g, init)
    ensures StoreFor(g, Run(g, kernel, init, k))
  {
    if k > 0 {
      RunSizes(g, kernel, init, k - 1);
    }
  }

  // ----- plain evaluation: no buffers at all

  /** No node writes through a view. */
  ghost predicate NoWriteThrough(g: Graph)
    requires g.ValidIds()
  {
    forall i :: 0 <= i < |g.nodes| && g.Computes(g.nodes[i]) ==> !g.IsView(g.nodes[i])
  }

  /** The value of a tensor: that of its operation on the values of its sources. Only nodes
      before node k are looked at. */
  function Value(g: Graph, kernel: Kernel, init: Store, r: nat, k: nat): Bytes
    requires g.ValidIds() && r < |g.tensors| && |init| == |g.tensors| && k <= |g.nodes|
    decreases k
  {
    if k == 0 then init[r]
    else if g.nodes[k - 1] == r && g.Writes(r) then
      var src := g.tensors[r].src;
      Fit(kernel(r, seq(|src|, j requires 0 <= j < |src| => Value(g, kernel, init, g.Root(src[j]), k - 1)), []), g.tensors[r].nbytes)
    else Value(g, kernel, init, r, k - 1)
  }

  /** One buffer a tensor computes plain evaluation. */
  lemma {:induction false} RunIsValue(g: Graph, kernel: Kernel, init: Store, k: nat, r: nat)
    requires g.ValidIds() && k <= |g.nodes| && |init| == |g.tensors| && r < |g.tensors|
    requires NoWriteThrough(g)
    ensures Run(g, kernel, init, k)[r] == Value(g, kernel, init, r, k)
    decreases k
  {
    if k > 0 {
      var n := g.nodes[k - 1];
      var st := Run(g, kernel, init, k - 1);
      RunIsValue(g, kernel, init, k - 1, r);
      if n == r && g.Writes(n) {
        var src := g.tensors[r].src;
        forall j | 0 <= j < |src| ensures st[g.Root(src[j])] == Value(g, kernel, init, g.Root(src[j]), k - 1) {
          RunIsValue(g, kernel, init, k - 1, g.Root(src[j]));
        }
        assert SourceValues(g, src, st) == seq(|src|, j requires 0 <= j < |src| => Value(g, kernel, init, g.Root(src[j]), k - 1));
      }
    }
  }
}
