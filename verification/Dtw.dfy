/** Dynamic time warping between text tokens and audio frames: the cost table, the path traced back
    through it, and the timestamps that tokens get from the path. */
module Dtw {

  /** Costs are infinite outside the table's first cell. */
  datatype Cost = Infinite | Finite(value: real)

  predicate Less(a: Cost, b: Cost) {
    a.Finite? && (b.Infinite? || a.value < b.value)
  }

  function Add(x: real, c: Cost): Cost {
    if c.Infinite? then c else Finite(x + c.value)
  }

  /** Rows are text tokens, columns are audio frames. */
  type Matrix = seq<seq<real>>

  predicate Shape(x: Matrix, n: nat, m: nat) {
    |x| == n && forall i :: 0 <= i < n ==> |x[i]| == m
  }

  /** Which of the three neighbours is taken: 0 diagonal, 1 the row before, 2 the column before. */
  function Choice(c0: Cost, c1: Cost, c2: Cost): (t: nat)
    ensures t <= 2
  {
    if Less(c0, c1) && Less(c0, c2) then 0
    else if Less(c1, c0) && Less(c1, c2) then 1
    else 2
  }

  function Chosen(c0: Cost, c1: Cost, c2: Cost): Cost {
    var t := Choice(c0, c1, c2);
    if t == 0 then c0 else if t == 1 then c1 else c2
  }

  /** The cost table; row 0 and column 0 are borders. */
  function CostAt(x: Matrix, n: nat, m: nat, i: nat, j: nat): Cost
    requires Shape(x, n, m) && i <= n && j <= m
    decreases i + j
  {
    if i == 0 && j == 0 then Finite(0.0)
    else if i == 0 || j == 0 then Infinite
    else Add(x[i - 1][j - 1], Chosen(CostAt(x, n, m, i - 1, j - 1), CostAt(x, n, m, i - 1, j), CostAt(x, n, m, i, j - 1)))
  }

  function MoveAt(x: Matrix, n: nat, m: nat, i: nat, j: nat): (t: nat)
    requires Shape(x, n, m) && 0 < i <= n && 0 < j <= m
    ensures t <= 2
  {
    Choice(CostAt(x, n, m, i - 1, j - 1), CostAt(x, n, m, i - 1, j), CostAt(x, n, m, i, j - 1))
  }

  /** Inside the table costs are finite, and moves stay inside until its first cell. */
  lemma {:induction false} StaysInside(x: Matrix, n: nat, m: nat, i: nat, j: nat)
    requires Shape(x, n, m) && 0 < i <= n && 0 < j <= m
    ensures CostAt(x, n, m, i, j).Finite?
    ensures i == 1 && j == 1 ==> MoveAt(x, n, m, i, j) == 0
    ensures i == 1 && j > 1 ==> MoveAt(x, n, m, i, j) == 2
    ensures i > 1 && j == 1 ==> MoveAt(x, n, m, i, j) == 1
    decreases i + j
  {
    if i > 1 {
      StaysInside(x, n, m, i - 1, j);
    }
    if j > 1 {
      StaysInside(x, n, m, i, j - 1);
    }
    if i > 1 && j > 1 {
      StaysInside(x, n, m, i - 1, j - 1);
    }
  }

  // ----- paths

  type Cell = (nat, nat)

  predicate Step(a: Cell, b: Cell) {
    (b.0 == a.0 || b.0 == a.0 + 1) && (b.1 == a.1 || b.1 == a.1 + 1) && a != b
  }

  /** From the first cell to cell last, in unit steps to the right, down, or both. */
  predicate IsPath(p: seq<Cell>, last: Cell) {
    && p != [] && p[0] == (0, 0) && p[|p| - 1] == last
    && forall k :: 0 < k < |p| ==> Step(p[k - 1], p[k])
  }

  predicate Within(p: seq<Cell>, n: nat, m: nat) {
    forall k :: 0 <= k < |p| ==> p[k].0 < n && p[k].1 < m
  }

  function PathCost(x: Matrix, n: nat, m: nat, p: seq<Cell>): real
    requires Shape(x, n, m) && Within(p, n, m)
  {
    if p == [] then 0.0 else PathCost(x, n, m, p[..|p| - 1]) + x[p[|p| - 1].0][p[|p| - 1].1]
  }

  lemma {:induction false} PathGoesOn(p: seq<Cell>, last: Cell, a: nat, b: nat)
    requires IsPath(p, last) && a <= b < |p|
    ensures p[a].0 <= p[b].0 && p[a].1 <= p[b].1
    decreases b - a
  {
    if a < b {
      PathGoesOn(p, last, a, b - 1);
      assert Step(p[b - 1], p[b]);
    }
  }

  /** A path has no more cells than its end is away, plus one. */
  lemma {:induction false} PathIsShort(p: seq<Cell>, last: Cell)
    requires IsPath(p, last)
    ensures |p| <= last.0 + last.1 + 1
    ensures Within(p, last.0 + 1, last.1 + 1)
    decreases |p|
  {
    forall k | 0 <= k < |p| ensures p[k].0 < last.0 + 1 && p[k].1 < last.1 + 1 {
      PathGoesOn(p, last, k, |p| - 1);
    }
    if |p| > 1 {
      assert Step(p[|p| - 2], p[|p| - 1]);
      PathIsShort(p[..|p| - 1], p[|p| - 2]);
    }
  }

  /** The cell a move comes from. */
  function Before(x: Matrix, n: nat, m: nat, i: nat, j: nat): (c: Cell)
    requires Shape(x, n, m) && 0 < i <= n && 0 < j <= m
    ensures c.0 <= n && c.1 <= m && c.0 + c.1 < i + j
  {
    var t := MoveAt(x, n, m, i, j);
    (if t == 2 then i else i - 1, if t == 1 then j else j - 1)
  }

  /** One move: from the first cell out of the table, from any other to another one inside. */
  lemma OneMove(x: Matrix, n: nat, m: nat, i: nat, j: nat)
    requires Shape(x, n, m) && 0 < i <= n && 0 < j <= m
    ensures var c := Before(x, n, m, i, j);
            && (if i == 1 && j == 1 then c == (0, 0) else c.0 > 0 && c.1 > 0)
            && CostAt(x, n, m, c.0, c.1).Finite?
            && CostAt(x, n, m, i, j) == Add(x[i - 1][j - 1], CostAt(x, n, m, c.0, c.1))
  {
    StaysInside(x, n, m, i, j);
  }

  /** The path traced back from a cell of the table. */
  function Traced(x: Matrix, n: nat, m: nat, i: nat, j: nat): (p: seq<Cell>)
    requires Shape(x, n, m) && i <= n && j <= m && (i == 0 <==> j == 0)
    decreases i + j
  {
    if i == 0 then []
    else
      OneMove(x, n, m, i, j);
      var c := Before(x, n, m, i, j);
      Traced(x, n, m, c.0, c.1) + [(i - 1, j - 1)]
  }

  /** It is a path, and what it costs is the entry of the table. */
  lemma {:induction false} TracedIsPath(x: Matrix, n: nat, m: nat, i: nat, j: nat)
    requires Shape(x, n, m) && 0 < i <= n && 0 < j <= m
    ensures IsPath(Traced(x, n, m, i, j), (i - 1, j - 1)) && Within(Traced(x, n, m, i, j), n, m)
    ensures CostAt(x, n, m, i, j) == Finite(PathCost(x, n, m, Traced(x, n, m, i, j)))
    decreases i + j
  {
    OneMove(x, n, m, i, j);
    var c := Before(x, n, m, i, j);
    if i == 1 && j == 1 {
      FirstCell(x, n, m);
      assert Traced(x, n, m, 1, 1) == [(0, 0)];
    } else {
      TracedIsPath(x, n, m, c.0, c.1);
      TracedGoesOn(x, n, m, i, j, c);
    }
  }

  lemma TracedGoesOn(x: Matrix, n: nat, m: nat, i: nat, j: nat, c: Cell)
    requires Shape(x, n, m) && 0 < i <= n && 0 < j <= m && c == Before(x, n, m, i, j) && c.0 > 0 && c.1 > 0
    requires IsPath(Traced(x, n, m, c.0, c.1), (c.0 - 1, c.1 - 1)) && Within(Traced(x, n, m, c.0, c.1), n, m)
    requires CostAt(x, n, m, c.0, c.1) == Finite(PathCost(x, n, m, Traced(x, n, m, c.0, c.1)))
    ensures IsPath(Traced(x, n, m, i, j), (i - 1, j - 1)) && Within(Traced(x, n, m, i, j), n, m)
    ensures CostAt(x, n, m, i, j) == Finite(PathCost(x, n, m, Traced(x, n, m, i, j)))
  {
    OneMove(x, n, m, i, j);
    TracedUnfolds(x, n, m, i, j, c);
    CostGoesOn(x, n, m, Traced(x, n, m, c.0, c.1), (c.0 - 1, c.1 - 1), (i - 1, j - 1),
               CostAt(x, n, m, c.0, c.1), CostAt(x, n, m, i, j));
  }

  lemma CostGoesOn(x: Matrix, n: nat, m: nat, q: seq<Cell>, last: Cell, next: Cell, before: Cost, now: Cost)
    requires Shape(x, n, m) && IsPath(q, last) && Within(q, n, m) && Step(last, next) && next.0 < n && next.1 < m
    requires before == Finite(PathCost(x, n, m, q)) && now == Add(x[next.0][next.1], before)
    ensures IsPath(q + [next], next) && Within(q + [next], n, m) && now == Finite(PathCost(x, n, m, q + [next]))
  {
    OneStepMore(x, n, m, q, last, next);
  }

  lemma TracedUnfolds(x: Matrix, n: nat, m: nat, i: nat, j: nat, c: Cell)
    requires Shape(x, n, m) && 0 < i <= n && 0 < j <= m && c == Before(x, n, m, i, j) && c.0 > 0 && c.1 > 0
    ensures Traced(x, n, m, i, j) == Traced(x, n, m, c.0, c.1) + [(i - 1, j - 1)]
    ensures Step((c.0 - 1, c.1 - 1), (i - 1, j - 1))
  {
    OneMove(x, n, m, i, j);
  }

  lemma FirstCell(x: Matrix, n: nat, m: nat)
    requires Shape(x, n, m) && 0 < n && 0 < m
    ensures var p: seq<Cell> := [(0, 0)];
            IsPath(p, (0, 0)) && Within(p, n, m) && PathCost(x, n, m, p) == x[0][0]
  {
    var p: seq<Cell> := [(0, 0)];
    assert p[..0] == [];
    assert PathCost(x, n, m, p) == PathCost(x, n, m, p[..0]) + x[0][0];
  }

  lemma OneStepMore(x: Matrix, n: nat, m: nat, q: seq<Cell>, last: Cell, next: Cell)
    requires Shape(x, n, m) && IsPath(q, last) && Within(q, n, m) && Step(last, next) && next.0 < n && next.1 < m
    ensures IsPath(q + [next], next) && Within(q + [next], n, m)
    ensures PathCost(x, n, m, q + [next]) == PathCost(x, n, m, q) + x[next.0][next.1]
  {
    var p := q + [next];
    assert p[..|p| - 1] == q;
  }

  // ----- is the path the cheapest one?

  /** The diagonal and the row before cost the same, and less than the column before: the column
      before is taken all the same. */
  predicate BadTie(x: Matrix, n: nat, m: nat, i: nat, j: nat)
    requires Shape(x, n, m) && 0 < i <= n && 0 < j <= m
  {
    CostAt(x, n, m, i - 1, j - 1) == CostAt(x, n, m, i - 1, j) && Less(CostAt(x, n, m, i - 1, j), CostAt(x, n, m, i, j - 1))
  }

  predicate NoBadTie(x: Matrix, n: nat, m: nat)
    requires Shape(x, n, m)
  {
    forall i, j :: 0 < i <= n && 0 < j <= m ==> !BadTie(x, n, m, i, j)
  }

  lemma ChosenIsLeast(c0: Cost, c1: Cost, c2: Cost)
    ensures !Less(c0, Chosen(c0, c1, c2)) && !Less(c1, Chosen(c0, c1, c2)) && !Less(c2, Chosen(c0, c1, c2))
            <==> !(c0 == c1 && Less(c1, c2))
  {
  }

  /** None of the cells on the path has one. */
  predicate NoBadTieOn(x: Matrix, n: nat, m: nat, p: seq<Cell>)
    requires Shape(x, n, m) && Within(p, n, m)
  {
    forall k :: 0 <= k < |p| ==> !BadTie(x, n, m, p[k].0 + 1, p[k].1 + 1)
  }

  /** A path without such ties is not cheaper than the table says. */
  lemma {:induction false} TableIsLeast(x: Matrix, n: nat, m: nat, p: seq<Cell>, i: nat, j: nat)
    requires Shape(x, n, m) && 0 < i <= n && 0 < j <= m
    requires IsPath(p, (i - 1, j - 1)) && Within(p, n, m) && NoBadTieOn(x, n, m, p)
    ensures CostAt(x, n, m, i, j).Finite? && CostAt(x, n, m, i, j).value <= PathCost(x, n, m, p)
    decreases |p|
  {
    if |p| > 1 {
      var q := p[..|p| - 1];
      var a, b := p[|p| - 2].0 + 1, p[|p| - 2].1 + 1;
      assert Step(p[|p| - 2], p[|p| - 1]);
      TableIsLeast(x, n, m, q, a, b);
      assert !BadTie(x, n, m, p[|p| - 1].0 + 1, p[|p| - 1].1 + 1);
      NoBadTieStep(x, n, m, i, j, a, b, PathCost(x, n, m, q));
    } else {
      assert p == [(0, 0)];
      FirstCell(x, n, m);
    }
  }

  /** Without a bad tie a cell costs no more than coming to it from any neighbour. */
  lemma NoBadTieStep(x: Matrix, n: nat, m: nat, i: nat, j: nat, a: nat, b: nat, w: real)
    requires Shape(x, n, m) && 0 < i <= n && 0 < j <= m && !BadTie(x, n, m, i, j)
    requires 0 < a && 0 < b && Step((a - 1, b - 1), (i - 1, j - 1))
    requires CostAt(x, n, m, a, b).Finite? && CostAt(x, n, m, a, b).value <= w
    ensures CostAt(x, n, m, i, j).Finite? && CostAt(x, n, m, i, j).value <= w + x[i - 1][j - 1]
  {
    CostUnfolds(x, n, m, i, j);
    LeastNeighbour(CostAt(x, n, m, i - 1, j - 1), CostAt(x, n, m, i - 1, j), CostAt(x, n, m, i, j - 1),
                   CostAt(x, n, m, a, b), x[i - 1][j - 1], w);
  }

  lemma CostUnfolds(x: Matrix, n: nat, m: nat, i: nat, j: nat)
    requires Shape(x, n, m) && 0 < i <= n && 0 < j <= m
    ensures CostAt(x, n, m, i, j)
         == Add(x[i - 1][j - 1], Chosen(CostAt(x, n, m, i - 1, j - 1), CostAt(x, n, m, i - 1, j), CostAt(x, n, m, i, j - 1)))
  {
  }

  lemma LeastNeighbour(c0: Cost, c1: Cost, c2: Cost, c: Cost, x: real, w: real)
    requires !(c0 == c1 && Less(c1, c2)) && (c == c0 || c == c1 || c == c2) && c.Finite? && c.value <= w
    ensures var sum := Add(x, Chosen(c0, c1, c2)); sum.Finite? && sum.value <= w + x
  {
    ChosenIsLeast(c0, c1, c2);
  }

  /** No path to the cell is cheaper than the table says. */
  ghost predicate LeastAt(x: Matrix, n: nat, m: nat, i: nat, j: nat)
    requires Shape(x, n, m) && 0 < i <= n && 0 < j <= m
  {
    forall p :: IsPath(p, (i - 1, j - 1)) && Within(p, n, m) ==> !Less(Finite(PathCost(x, n, m, p)), CostAt(x, n, m, i, j))
  }

  /** At a bad tie there is a cheaper path: the one to the diagonal neighbour, gone on from there. */
  lemma BadTieCostsMore(x: Matrix, n: nat, m: nat, i: nat, j: nat)
    requires Shape(x, n, m) && 0 < i <= n && 0 < j <= m && BadTie(x, n, m, i, j)
    ensures !LeastAt(x, n, m, i, j)
  {
    StaysInside(x, n, m, i, j);
    var p := Traced(x, n, m, i - 1, j - 1);
    TracedIsPath(x, n, m, i - 1, j - 1);
    OneStepMore(x, n, m, p, (i - 2, j - 2), (i - 1, j - 1));
  }

  /** The table is least at every cell exactly when no cell has a bad tie. */
  lemma LeastExactlyWithoutBadTies(x: Matrix, n: nat, m: nat)
    requires Shape(x, n, m)
    ensures NoBadTie(x, n, m) <==> forall i, j :: 0 < i <= n && 0 < j <= m ==> LeastAt(x, n, m, i, j)
  {
    forall i, j | 0 < i <= n && 0 < j <= m && BadTie(x, n, m, i, j) ensures !LeastAt(x, n, m, i, j) {
      BadTieCostsMore(x, n, m, i, j);
    }
    if NoBadTie(x, n, m) {
      forall i, j | 0 < i <= n && 0 < j <= m ensures LeastAt(x, n, m, i, j) {
        forall p | IsPath(p, (i - 1, j - 1)) && Within(p, n, m)
          ensures !Less(Finite(PathCost(x, n, m, p)), CostAt(x, n, m, i, j))
        {
          TableIsLeast(x, n, m, p, i, j);
        }
      }
    }
  }

  /** No path through the whole matrix is cheaper. */
  ghost predicate LeastPath(x: Matrix, n: nat, m: nat, p: seq<Cell>)
    requires Shape(x, n, m) && n > 0 && m > 0
  {
    && IsPath(p, (n - 1, m - 1)) && Within(p, n, m)
    && forall q :: IsPath(q, (n - 1, m - 1)) && Within(q, n, m) ==> PathCost(x, n, m, p) <= PathCost(x, n, m, q)
  }

  /** Where the table is least, it is so where the move comes from. */
  lemma LeastBefore(x: Matrix, n: nat, m: nat, i: nat, j: nat, c: Cell)
    requires Shape(x, n, m) && 0 < i <= n && 0 < j <= m && c == Before(x, n, m, i, j) && c.0 > 0 && c.1 > 0
    requires LeastAt(x, n, m, i, j)
    ensures LeastAt(x, n, m, c.0, c.1)
  {
    OneMove(x, n, m, i, j);
    forall q | IsPath(q, (c.0 - 1, c.1 - 1)) && Within(q, n, m)
      ensures !Less(Finite(PathCost(x, n, m, q)), CostAt(x, n, m, c.0, c.1))
    {
      OneStepMore(x, n, m, q, (c.0 - 1, c.1 - 1), (i - 1, j - 1));
    }
  }

  lemma OneMoreWithoutBadTie(x: Matrix, n: nat, m: nat, q: seq<Cell>, c: Cell)
    requires Shape(x, n, m) && Within(q, n, m) && NoBadTieOn(x, n, m, q) && c.0 < n && c.1 < m && !BadTie(x, n, m, c.0 + 1, c.1 + 1)
    ensures Within(q + [c], n, m) && NoBadTieOn(x, n, m, q + [c])
  {
    forall k | 0 <= k < |q| + 1 ensures !BadTie(x, n, m, (q + [c])[k].0 + 1, (q + [c])[k].1 + 1) {
      assert k < |q| ==> !BadTie(x, n, m, q[k].0 + 1, q[k].1 + 1);
    }
  }

  lemma LeastHasNoBadTie(x: Matrix, n: nat, m: nat, i: nat, j: nat)
    requires Shape(x, n, m) && 0 < i <= n && 0 < j <= m && LeastAt(x, n, m, i, j)
    ensures !BadTie(x, n, m, i, j)
  {
    if BadTie(x, n, m, i, j) {
      BadTieCostsMore(x, n, m, i, j);
    }
  }

  lemma FirstTraced(x: Matrix, n: nat, m: nat)
    requires Shape(x, n, m) && 0 < n && 0 < m
    ensures Traced(x, n, m, 1, 1) == [] + [(0, 0)]
  {
    OneMove(x, n, m, 1, 1);
  }

  /** So the path traced back from there has no bad tie on it. */
  lemma {:induction false} LeastIsTraced(x: Matrix, n: nat, m: nat, i: nat, j: nat)
    requires Shape(x, n, m) && 0 < i <= n && 0 < j <= m && LeastAt(x, n, m, i, j)
    ensures Within(Traced(x, n, m, i, j), n, m) && NoBadTieOn(x, n, m, Traced(x, n, m, i, j))
    decreases i + j
  {
    OneMove(x, n, m, i, j);
    var c := Before(x, n, m, i, j);
    LeastHasNoBadTie(x, n, m, i, j);
    if i == 1 && j == 1 {
      FirstTraced(x, n, m);
      OneMoreWithoutBadTie(x, n, m, [], (0, 0));
    } else {
      LeastBefore(x, n, m, i, j, c);
      LeastIsTraced(x, n, m, c.0, c.1);
      ClearGoesOn(x, n, m, i, j, c);
    }
  }

  lemma ClearGoesOn(x: Matrix, n: nat, m: nat, i: nat, j: nat, c: Cell)
    requires Shape(x, n, m) && 0 < i <= n && 0 < j <= m && c == Before(x, n, m, i, j) && c.0 > 0 && c.1 > 0
    requires Within(Traced(x, n, m, c.0, c.1), n, m) && NoBadTieOn(x, n, m, Traced(x, n, m, c.0, c.1)) && !BadTie(x, n, m, i, j)
    ensures Within(Traced(x, n, m, i, j), n, m) && NoBadTieOn(x, n, m, Traced(x, n, m, i, j))
  {
    TracedUnfolds(x, n, m, i, j, c);
    OneMoreWithoutBadTie(x, n, m, Traced(x, n, m, c.0, c.1), (i - 1, j - 1));
  }

  /** Exact condition for the path returned: it is of least cost if and only if some path of least cost
      has no bad tie on it. */
  lemma LeastPathExactly(x: Matrix, n: nat, m: nat)
    requires Shape(x, n, m) && n > 0 && m > 0
    ensures LeastPath(x, n, m, Traced(x, n, m, n, m))
            <==> exists p :: LeastPath(x, n, m, p) && NoBadTieOn(x, n, m, p)
  {
    var t := Traced(x, n, m, n, m);
    TracedIsPath(x, n, m, n, m);
    if LeastPath(x, n, m, t) {
      assert LeastAt(x, n, m, n, m);
      LeastIsTraced(x, n, m, n, m);
    }
    forall p | LeastPath(x, n, m, p) && NoBadTieOn(x, n, m, p) ensures LeastPath(x, n, m, t) {
      TableIsLeast(x, n, m, p, n, m);
    }
  }

  /** With one the path may be too expensive: here it costs 1, and going diagonally costs nothing. */
  lemma NotAlwaysLeast()
    ensures exists x: Matrix, p: seq<Cell> ::
              && Shape(x, 2, 2) && IsPath(p, (1, 1)) && Within(p, 2, 2) && BadTie(x, 2, 2, 2, 2)
              && CostAt(x, 2, 2, 2, 2) == Finite(1.0) && PathCost(x, 2, 2, p) == 0.0
  {
    var x: Matrix := [[0.0, 0.0], [1.0, 0.0]];
    var p: seq<Cell> := [(0, 0), (1, 1)];
    assert Shape(x, 2, 2) && IsPath(p, (1, 1)) && Within(p, 2, 2);
    assert CostAt(x, 2, 2, 1, 1) == Finite(0.0);
    assert CostAt(x, 2, 2, 1, 2) == Finite(0.0);
    assert CostAt(x, 2, 2, 2, 1) == Finite(1.0);
    assert p[..1] == [(0, 0)] && p[..1][..0] == [];
    assert PathCost(x, 2, 2, p[..1]) == PathCost(x, 2, 2, p[..1][..0]) + 0.0;
  }

  // ----- the algorithm

  /** Cost and trace for one cell. */
  method FillCell(x: Matrix, n: nat, m: nat, cost: array2<Cost>, trace: array2<int>, i: nat, j: nat)
    requires Shape(x, n, m) && 0 < i <= n && 0 < j <= m
    requires cost.Length0 == trace.Length0 == n + 1 && cost.Length1 == trace.Length1 == m + 1
    requires cost[i - 1, j - 1] == CostAt(x, n, m, i - 1, j - 1)
    requires cost[i - 1, j] == CostAt(x, n, m, i - 1, j) && cost[i, j - 1] == CostAt(x, n, m, i, j - 1)
    modifies cost, trace
    ensures cost[i, j] == CostAt(x, n, m, i, j) && trace[i, j] == MoveAt(x, n, m, i, j)
    ensures forall a, b :: 0 <= a <= n && 0 <= b <= m && (a != i || b != j) ==> cost[a, b] == old(cost[a, b]) && trace[a, b] == old(trace[a, b])
  {
    var c0, c1, c2 := cost[i - 1, j - 1], cost[i - 1, j], cost[i, j - 1];
    var c: Cost, t: int;
    if Less(c0, c1) && Less(c0, c2) {
      c, t := c0, 0;
    } else if Less(c1, c0) && Less(c1, c2) {
      c, t := c1, 1;
    } else {
      c, t := c2, 2;
    }
    cost[i, j] := Add(x[i - 1][j - 1], c);
    trace[i, j] := t;
  }

  /** Cells filled in so far: whole columns before j, and column j up to row i. */
  predicate Done(i: nat, j: nat, a: nat, b: nat) {
    a == 0 || b == 0 || b < j || (b == j && a <= i)
  }

  method FillTables(x: Matrix, n: nat, m: nat) returns (trace: array2<int>)
    requires Shape(x, n, m) && n > 0 && m > 0
    ensures fresh(trace) && Traces(x, n, m, trace)
  {
    var cost := new Cost[n + 1, m + 1]((i, j) => if i == 0 && j == 0 then Finite(0.0) else Infinite);
    trace := new int[n + 1, m + 1]((i, j) => -1);
    for j := 1 to m + 1
      invariant forall a, b :: 0 <= a <= n && 0 <= b <= m && Done(n, j - 1, a, b) ==> cost[a, b] == CostAt(x, n, m, a, b)
      invariant forall a, b :: 0 < a <= n && 0 < b <= m && Done(n, j - 1, a, b) ==> trace[a, b] == MoveAt(x, n, m, a, b)
    {
      for i := 1 to n + 1
        invariant forall a, b :: 0 <= a <= n && 0 <= b <= m && Done(i - 1, j, a, b) ==> cost[a, b] == CostAt(x, n, m, a, b)
        invariant forall a, b :: 0 < a <= n && 0 < b <= m && Done(i - 1, j, a, b) ==> trace[a, b] == MoveAt(x, n, m, a, b)
      {
        FillCell(x, n, m, cost, trace, i, j);
      }
    }
  }

  ghost predicate Traces(x: Matrix, n: nat, m: nat, trace: array2<int>)
    requires Shape(x, n, m)
    reads trace
  {
    && trace.Length0 == n + 1 && trace.Length1 == m + 1
    && forall i, j :: 0 < i <= n && 0 < j <= m ==> trace[i, j] == MoveAt(x, n, m, i, j)
  }

  /** The borders lead to the first cell; the path never gets there. */
  method FillBorders(x: Matrix, n: nat, m: nat, trace: array2<int>)
    requires Shape(x, n, m) && Traces(x, n, m, trace)
    modifies trace
    ensures Traces(x, n, m, trace)
  {
    for i := 0 to m + 1
      invariant Traces(x, n, m, trace)
    {
      trace[0, i] := 2;
    }
    for i := 0 to n + 1
      invariant Traces(x, n, m, trace)
    {
      trace[i, 0] := 1;
    }
  }

  /** Follows the trace back, writing rows from the end of a table that always has room. */
  method Backtrace(x: Matrix, n: nat, m: nat, trace: array2<int>) returns (path: seq<Cell>)
    requires Shape(x, n, m) && n > 0 && m > 0 && Traces(x, n, m, trace)
    ensures path == Traced(x, n, m, n, m)
  {
    var rows := n + m - 1;
    var bt := new Cell[rows](i => (0, 0));
    var row: nat, i: nat, j: nat := rows, n, m;
    TracedIsShort(x, n, m, n, m);
    assert bt[row..] == [];
    while i > 0 || j > 0
      invariant (i == 0 <==> j == 0) && i <= n && j <= m && row <= rows
      invariant Traced(x, n, m, i, j) + bt[row..] == Traced(x, n, m, n, m)
      invariant |Traced(x, n, m, i, j)| <= row
      decreases i + j
    {
      OneTracedBack(x, n, m, i, j, bt[row..]);
      row := WriteRow(bt, row, (i - 1, j - 1));
      i, j := StepBack(x, n, m, trace, i, j);
    }
    path := bt[row..];
  }

  method StepBack(x: Matrix, n: nat, m: nat, trace: array2<int>, i: nat, j: nat) returns (a: nat, b: nat)
    requires Shape(x, n, m) && Traces(x, n, m, trace) && 0 < i <= n && 0 < j <= m
    ensures (a, b) == Before(x, n, m, i, j)
  {
    a, b := i, j;
    var t := trace[i, j];
    if t == 0 {
      a, b := i - 1, j - 1;
    } else if t == 1 {
      a := i - 1;
    } else {
      b := j - 1;
    }
  }

  /** Writes a row in front of those there are. */
  method WriteRow(bt: array<Cell>, row: nat, c: Cell) returns (next: nat)
    requires 0 < row <= bt.Length
    modifies bt
    ensures next == row - 1 && bt[next..] == [c] + old(bt[row..])
  {
    next := row - 1;
    bt[next] := c;
    assert bt[next..] == [c] + bt[row..];
  }

  lemma TracedIsShort(x: Matrix, n: nat, m: nat, i: nat, j: nat)
    requires Shape(x, n, m) && 0 < i <= n && 0 < j <= m
    ensures |Traced(x, n, m, i, j)| <= i + j - 1
  {
    TracedIsPath(x, n, m, i, j);
    PathIsShort(Traced(x, n, m, i, j), (i - 1, j - 1));
  }

  lemma OneTracedBack(x: Matrix, n: nat, m: nat, i: nat, j: nat, behind: seq<Cell>)
    requires Shape(x, n, m) && 0 < i <= n && 0 < j <= m
    ensures var c := Before(x, n, m, i, j);
            && (c.0 == 0 <==> c.1 == 0) && |Traced(x, n, m, i, j)| == |Traced(x, n, m, c.0, c.1)| + 1
            && Traced(x, n, m, i, j) + behind == Traced(x, n, m, c.0, c.1) + ([(i - 1, j - 1)] + behind)
  {
    OneMove(x, n, m, i, j);
    var c := Before(x, n, m, i, j);
    Assembled(Traced(x, n, m, c.0, c.1), (i - 1, j - 1), behind);
  }

  lemma Assembled(p: seq<Cell>, c: Cell, behind: seq<Cell>)
    ensures (p + [c]) + behind == p + ([c] + behind)
  {
  }

  /** The whole of it. */
  method Align(x: Matrix, n: nat, m: nat) returns (path: seq<Cell>)
    requires Shape(x, n, m) && n > 0 && m > 0
    ensures IsPath(path, (n - 1, m - 1)) && Within(path, n, m) && |path| <= n + m - 1
    ensures CostAt(x, n, m, n, m) == Finite(PathCost(x, n, m, path))
    ensures LeastPath(x, n, m, path) <==> exists p :: LeastPath(x, n, m, p) && NoBadTieOn(x, n, m, p)
    ensures NoBadTie(x, n, m) ==> LeastPath(x, n, m, path)
  {
    var trace := FillTables(x, n, m);
    FillBorders(x, n, m, trace);
    path := Backtrace(x, n, m, trace);
    TracedIsPath(x, n, m, n, m);
    TracedIsShort(x, n, m, n, m);
    LeastPathExactly(x, n, m);
    if NoBadTie(x, n, m) {
      LeastExactlyWithoutBadTies(x, n, m);
      assert LeastAt(x, n, m, n, m);
    }
  }

  // ----- timestamps

  datatype Token = Token(id: nat, time: int)

  predicate IsText(t: Token, eot: nat) {
    t.id < eot
  }

  /** How many of the first k tokens are text. */
  function TextBefore(tokens: seq<Token>, eot: nat, k: nat): (c: nat)
    requires k <= |tokens|
    ensures c <= k
  {
    if k == 0 then 0 else TextBefore(tokens, eot, k - 1) + if IsText(tokens[k - 1], eot) then 1 else 0
  }

  lemma {:induction false} TextGrows(tokens: seq<Token>, eot: nat, a: nat, b: nat)
    requires a <= b <= |tokens|
    ensures TextBefore(tokens, eot, a) <= TextBefore(tokens, eot, b)
    ensures a < b && IsText(tokens[a], eot) ==> TextBefore(tokens, eot, a) < TextBefore(tokens, eot, b)
    decreases b - a
  {
    if a < b {
      TextGrows(tokens, eot, a + 1, b);
    }
  }

  /** Only times differ. */
  predicate SameIds(was: seq<Token>, now: seq<Token>) {
    |was| == |now| && forall i :: 0 <= i < |was| ==> now[i].id == was[i].id
  }

  lemma {:induction false} SameText(was: seq<Token>, now: seq<Token>, eot: nat, k: nat)
    requires SameIds(was, now) && k <= |was|
    ensures TextBefore(was, eot, k) == TextBefore(now, eot, k)
    decreases k
  {
    if k > 0 {
      SameText(was, now, eot, k - 1);
    }
  }

  /** Row r is the first one of token row v, v > 0. */
  predicate Enters(path: seq<Cell>, r: nat, v: nat) {
    0 < r < |path| && path[r].0 == v && path[r - 1].0 + 1 == v
  }

  /** A token's time is that of the frame at which the path enters the row after its own. */
  ghost predicate Timed(path: seq<Cell>, was: seq<Token>, now: seq<Token>, eot: nat, seek: int, i: nat, upTo: nat)
    requires i < |was| == |now|
  {
    exists r: nat :: r < upTo && Enters(path, r, TextBefore(was, eot, i) + 1) && now[i].time == path[r].1 * 2 + seek
  }

  /** The tokens of the segments, one after the other, get their times; as many text tokens as the
      path has rows after the first. */
  method PlaceTimes(path: seq<Cell>, m: nat, tokens: array<Token>, eot: nat, seek: int)
    requires m > 0 && IsPath(path, (TextBefore(tokens[..], eot, tokens.Length), m - 1))
    modifies tokens
    ensures SameIds(old(tokens[..]), tokens[..])
    ensures forall i :: 0 <= i < tokens.Length && tokens[i].id >= eot ==> tokens[i] == old(tokens[i])
    ensures forall i :: 0 <= i < tokens.Length && tokens[i].id < eot ==>
              Timed(path, old(tokens[..]), tokens[..], eot, seek, i, |path|)
  {
    ghost var was := tokens[..];
    var last, next: nat := 0, 0;
    for r := 0 to |path|
      invariant next <= tokens.Length && last == TextBefore(was, eot, next)
      invariant r > 0 ==> path[r - 1].0 == last
      invariant r == 0 ==> last == 0
      invariant SameIds(was, tokens[..]) && TimedSoFar(path, was, tokens[..], eot, seek, next, r)
    {
      var v := path[r].0;
      if r > 0 {
        assert Step(path[r - 1], path[r]);
      }
      PathGoesOn(path, (TextBefore(was, eot, tokens.Length), m - 1), r, |path| - 1);
      if v != last {
        last := v;
        next := PlaceOne(path, tokens, eot, seek, next, r, was);
      } else {
        LaterRows(path, was, tokens[..], eot, seek, next, r);
      }
    }
    AllTimed(path, was, tokens[..], eot, seek, next);
  }

  /** The tokens before next have their times, if text; the others are as they were. */
  ghost predicate TimedSoFar(path: seq<Cell>, was: seq<Token>, now: seq<Token>, eot: nat, seek: int, next: nat, r: nat) {
    && |was| == |now| && next <= |was|
    && (forall i :: next <= i < |was| ==> now[i] == was[i])
    && (forall i :: 0 <= i < next && !IsText(was[i], eot) ==> now[i] == was[i])
    && (forall i :: 0 <= i < next && IsText(was[i], eot) ==> Timed(path, was, now, eot, seek, i, r))
  }

  lemma LaterRows(path: seq<Cell>, was: seq<Token>, now: seq<Token>, eot: nat, seek: int, next: nat, r: nat)
    requires TimedSoFar(path, was, now, eot, seek, next, r)
    ensures TimedSoFar(path, was, now, eot, seek, next, r + 1)
  {
    forall i | 0 <= i < next && IsText(was[i], eot) ensures Timed(path, was, now, eot, seek, i, r + 1) {
      assert Timed(path, was, now, eot, seek, i, r);
    }
  }

  lemma AllTimed(path: seq<Cell>, was: seq<Token>, now: seq<Token>, eot: nat, seek: int, next: nat)
    requires SameIds(was, now) && TimedSoFar(path, was, now, eot, seek, next, |path|)
    requires TextBefore(was, eot, next) == TextBefore(was, eot, |was|)
    ensures forall i :: 0 <= i < |now| && !IsText(now[i], eot) ==> now[i] == was[i]
    ensures forall i :: 0 <= i < |now| && IsText(now[i], eot) ==> Timed(path, was, now, eot, seek, i, |path|)
  {
    forall i | next <= i < |was| ensures !IsText(was[i], eot) {
      TextGrows(was, eot, next, i);
      TextGrows(was, eot, i, |was|);
    }
  }

  /** Skips to the next text token, gives it its time, and goes past it. */
  method PlaceOne(path: seq<Cell>, tokens: array<Token>, eot: nat, seek: int, from: nat, r: nat, ghost was: seq<Token>) returns (next: nat)
    requires from <= tokens.Length && 0 < r < |path| && SameIds(was, tokens[..])
    requires TimedSoFar(path, was, tokens[..], eot, seek, from, r)
    requires Enters(path, r, TextBefore(was, eot, from) + 1)
    requires TextBefore(was, eot, from) < TextBefore(was, eot, tokens.Length)
    modifies tokens
    ensures next <= tokens.Length && TextBefore(was, eot, next) == TextBefore(was, eot, from) + 1
    ensures SameIds(was, tokens[..]) && TimedSoFar(path, was, tokens[..], eot, seek, next, r + 1)
  {
    next := from;
    while next < tokens.Length && !IsText(tokens[next], eot)
      invariant from <= next <= tokens.Length
      invariant TextBefore(was, eot, next) == TextBefore(was, eot, from)
      invariant forall i :: from <= i < next ==> !IsText(was[i], eot)
      invariant tokens[..] == old(tokens[..])
    {
      next := next + 1;
    }
    ghost var before := tokens[..];
    tokens[next] := tokens[next].(time := path[r].1 * 2 + seek);
    OneMoreTimed(path, was, before, tokens[..], eot, seek, from, next, r);
    next := next + 1;
  }

  lemma OneMoreTimed(path: seq<Cell>, was: seq<Token>, before: seq<Token>, now: seq<Token>, eot: nat, seek: int,
                     from: nat, at: nat, r: nat)
    requires SameIds(was, before) && from <= at < |was| && r < |path| && IsText(was[at], eot)
    requires TimedSoFar(path, was, before, eot, seek, from, r)
    requires forall i :: from <= i < at ==> !IsText(was[i], eot)
    requires TextBefore(was, eot, at) == TextBefore(was, eot, from) && Enters(path, r, TextBefore(was, eot, from) + 1)
    requires now == before[at := before[at].(time := path[r].1 * 2 + seek)]
    ensures TimedSoFar(path, was, now, eot, seek, at + 1, r + 1)
  {
    forall i | 0 <= i < at + 1 && IsText(was[i], eot) ensures Timed(path, was, now, eot, seek, i, r + 1) {
      if i < from {
        assert Timed(path, was, before, eot, seek, i, r);
        var q: nat :| q < r && Enters(path, q, TextBefore(was, eot, i) + 1) && before[i].time == path[q].1 * 2 + seek;
        assert now[i] == before[i];
      } else {
        assert i == at;
      }
    }
  }

  /** Later text tokens are not earlier in time. */
  lemma TimesInOrder(path: seq<Cell>, last: Cell, was: seq<Token>, now: seq<Token>, eot: nat, seek: int, a: nat, b: nat)
    requires IsPath(path, last) && SameIds(was, now) && a < b < |was| && IsText(was[a], eot) && IsText(was[b], eot)
    requires Timed(path, was, now, eot, seek, a, |path|) && Timed(path, was, now, eot, seek, b, |path|)
    ensures now[a].time <= now[b].time
  {
    var p: nat :| p < |path| && Enters(path, p, TextBefore(was, eot, a) + 1) && now[a].time == path[p].1 * 2 + seek;
    var q: nat :| q < |path| && Enters(path, q, TextBefore(was, eot, b) + 1) && now[b].time == path[q].1 * 2 + seek;
    TextGrows(was, eot, a, b);
    if q < p {
      PathGoesOn(path, last, q, p - 1);
    } else {
      PathGoesOn(path, last, p, q);
    }
  }
}
