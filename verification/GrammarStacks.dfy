/** The grammar simulator: pushdown stacks of rule elements, top last. */
module GrammarStacks {
  import opened GrammarRules

  type Stack = seq<Pos>
  type Stacks = seq<Stack>

  ghost predicate ValidStack(g: Rules, s: Stack) {
    forall i :: 0 <= i < |s| ==> ItemStart(g, s[i]) && !IsEnd(At(g, s[i]))
  }

  function Top(s: Stack): Pos
    requires s != []
  {
    s[|s| - 1]
  }

  function Below(s: Stack): Stack
    requires s != []
  {
    s[..|s| - 1]
  }

  /** Pushes what is left of the alternate at p, unless nothing is. */
  function PushRest(g: Rules, s: Stack, p: Pos): (r: Stack)
    requires ItemStart(g, p)
    ensures ValidStack(g, s) ==> ValidStack(g, r)
  {
    if IsEnd(At(g, p)) then s else s + [p]
  }

  ghost predicate RefOnTop(g: Rules, s: Stack) {
    s != [] && ItemStart(g, Top(s)) && At(g, Top(s)).kind == RULE_REF
  }

  /** The stack with the reference on top replaced by alternate a of its rule. */
  function Expanded(g: Rules, s: Stack, a: nat): (r: Stack)
    requires WellFormed(g) && RefOnTop(g, s) && AltOf(g, At(g, Top(s)).value, a)
    ensures ValidStack(g, s) ==> ValidStack(g, r)
  {
    AfterRefIsItem(g, Top(s));
    AltStartIsItem(g, Pos(At(g, Top(s)).value, a));
    PushRest(g, PushRest(g, Below(s), Next(Top(s))), Pos(At(g, Top(s)).value, a))
  }

  // ----- left recursion

  ghost predicate Nullable(g: Rules, rule: nat)
    requires WellFormed(g)
  {
    RuleDerives(g, rule, [])
  }

  /** From the start of an alternate up to p there are only references to nullable rules. */
  ghost predicate Leads(g: Rules, a: nat, p: Pos)
    requires WellFormed(g) && InRules(g, p)
  {
    && a <= p.idx && AltOf(g, p.rule, a)
    && forall i :: a <= i < p.idx ==> g[p.rule][i].kind == RULE_REF && Nullable(g, g[p.rule][i].value)
  }

  ghost predicate Leading(g: Rules, p: Pos)
    requires WellFormed(g) && InRules(g, p)
  {
    exists a :: Leads(g, a, p)
  }

  /** A derivation of rule can begin with one of first. */
  ghost predicate BeginsWith(g: Rules, rule: nat, first: nat)
    requires WellFormed(g)
  {
    exists i: nat :: InRules(g, Pos(rule, i)) && g[rule][i] == Element(RULE_REF, first) && Leading(g, Pos(rule, i))
  }

  /** The same in n + 1 steps. */
  ghost predicate BeginsIn(g: Rules, rule: nat, first: nat, n: nat)
    requires WellFormed(g)
    decreases n
  {
    if n == 0 then BeginsWith(g, rule, first)
    else exists m: nat :: BeginsWith(g, rule, m) && BeginsIn(g, m, first, n - 1)
  }

  /** No rule begins with itself, empty prefixes included. */
  ghost predicate NotLeftRecursive(g: Rules)
    requires WellFormed(g)
  {
    forall rule, n :: !BeginsIn(g, rule, rule, n)
  }

  ghost predicate Reaches(g: Rules, rule: nat, first: nat)
    requires WellFormed(g)
  {
    exists n :: BeginsIn(g, rule, first, n)
  }

  /** The rules a derivation of rule can begin with, directly or not. */
  ghost function Begins(g: Rules, rule: nat): set<nat>
    requires WellFormed(g)
  {
    set m: nat | m < |g| && Reaches(g, rule, m)
  }

  ghost function Rank(g: Rules, rule: nat): nat
    requires WellFormed(g)
  {
    |Begins(g, rule)|
  }

  lemma Subset(a: set<nat>, b: set<nat>)
    requires a <= b
    ensures |a| <= |b| && (a != b ==> |a| < |b|)
  {
    assert b == a + (b - a);
    assert a != b ==> b - a != {};
  }

  ghost function UpTo(n: nat): (r: set<nat>)
    ensures |r| == n && forall m: nat :: m in r <==> m < n
  {
    if n == 0 then {} else UpTo(n - 1) + {n - 1}
  }

  lemma RankBound(g: Rules, rule: nat)
    requires WellFormed(g)
    ensures Rank(g, rule) <= |g|
  {
    Subset(Begins(g, rule), UpTo(|g|));
  }

  /** Without left recursion, ranks fall along beginnings. */
  lemma RankFalls(g: Rules, rule: nat, first: nat)
    requires WellFormed(g) && NotLeftRecursive(g) && BeginsWith(g, rule, first) && first < |g|
    ensures Rank(g, first) < Rank(g, rule)
  {
    assert BeginsIn(g, rule, first, 0);
    assert first in Begins(g, rule);
    assert first !in Begins(g, first);
    forall m | m in Begins(g, first) ensures m in Begins(g, rule) {
      var n: nat :| BeginsIn(g, first, m, n);
      assert BeginsIn(g, rule, m, n + 1);
    }
    Subset(Begins(g, first), Begins(g, rule));
  }

  // ----- how many expansions are left

  /** Expansions needed from p on before a character is on top or the alternate is used up;
      only rules of rank below lim are looked into. */
  ghost function Cost(g: Rules, p: Pos, lim: nat): nat
    requires WellFormed(g) && ItemStart(g, p)
    decreases lim, |g[p.rule]| - p.idx, 0
  {
    if At(g, p).kind != RULE_REF then 0
    else
      AfterRefIsItem(g, p);
      var rule := At(g, p).value;
      if Rank(g, rule) >= lim then 0
      else 1 + AltsCost(g, rule, 0) + (if Nullable(g, rule) then Cost(g, Next(p), lim) else 0)
  }

  ghost function AltsCost(g: Rules, rule: nat, i: nat): nat
    requires WellFormed(g) && rule < |g| && i <= |g[rule]|
    decreases Rank(g, rule), |g[rule]| - i, 1
  {
    if i == |g[rule]| then 0
    else
      (if AltOf(g, rule, i) then AltStartIsItem(g, Pos(rule, i)); Cost(g, Pos(rule, i), Rank(g, rule)) else 0)
      + AltsCost(g, rule, i + 1)
  }

  ghost function FullCost(g: Rules, p: Pos): nat
    requires WellFormed(g) && ItemStart(g, p)
  {
    Cost(g, p, |g| + 1)
  }

  lemma LeadingNext(g: Rules, p: Pos)
    requires WellFormed(g) && ItemStart(g, p) && Leading(g, p) && At(g, p).kind == RULE_REF && Nullable(g, At(g, p).value)
    ensures ItemStart(g, Next(p)) && Leading(g, Next(p))
  {
    AfterRefIsItem(g, p);
    var a :| Leads(g, a, p);
    assert Leads(g, a, Next(p));
  }

  lemma LeadingRank(g: Rules, p: Pos)
    requires WellFormed(g) && NotLeftRecursive(g) && ItemStart(g, p) && Leading(g, p) && At(g, p).kind == RULE_REF
    ensures At(g, p).value < |g| && Rank(g, At(g, p).value) < Rank(g, p.rule) <= |g|
  {
    AfterRefIsItem(g, p);
    assert g[p.rule][p.idx] == Element(RULE_REF, At(g, p).value);
    assert BeginsWith(g, p.rule, At(g, p).value);
    RankFalls(g, p.rule, At(g, p).value);
    RankBound(g, p.rule);
  }

  lemma {:induction false} LeadingCost(g: Rules, p: Pos)
    requires WellFormed(g) && NotLeftRecursive(g) && ItemStart(g, p) && Leading(g, p)
    ensures Cost(g, p, Rank(g, p.rule)) == FullCost(g, p)
    decreases |g[p.rule]| - p.idx
  {
    if At(g, p).kind == RULE_REF {
      LeadingRank(g, p);
      if Nullable(g, At(g, p).value) {
        LeadingNext(g, p);
        LeadingCost(g, Next(p));
      }
    }
  }

  lemma {:induction false} AltCostCounted(g: Rules, rule: nat, i: nat, a: nat)
    requires WellFormed(g) && rule < |g| && i <= a < |g[rule]| && AltOf(g, rule, a) && ItemStart(g, Pos(rule, a))
    ensures Cost(g, Pos(rule, a), Rank(g, rule)) <= AltsCost(g, rule, i)
    decreases a - i
  {
    if i < a {
      AltCostCounted(g, rule, i + 1, a);
    }
  }

  /** Expansions left for a stack: deeper elements matter only below ones that can vanish. */
  ghost function Work(g: Rules, s: Stack): nat
    requires WellFormed(g) && ValidStack(g, s)
  {
    if s == [] then 0
    else FullCost(g, Top(s)) + (if Derives(g, Top(s), []) then Work(g, Below(s)) else 0)
  }

  lemma WorkAfterPush(g: Rules, s: Stack, p: Pos)
    requires WellFormed(g) && ValidStack(g, s) && ItemStart(g, p)
    ensures Work(g, PushRest(g, s, p)) == FullCost(g, p) + (if Derives(g, p, []) then Work(g, s) else 0)
  {
    if IsEnd(At(g, p)) {
      EndDerives(g, p, []);
    } else {
      var r := s + [p];
      assert Below(r) == s && Top(r) == p;
    }
  }

  lemma CostOfRef(g: Rules, p: Pos)
    requires WellFormed(g) && ItemStart(g, p) && At(g, p).kind == RULE_REF
    ensures ItemStart(g, Next(p)) && At(g, p).value < |g|
    ensures FullCost(g, p) == 1 + AltsCost(g, At(g, p).value, 0) + (if Nullable(g, At(g, p).value) then FullCost(g, Next(p)) else 0)
  {
    AfterRefIsItem(g, p);
    RankBound(g, At(g, p).value);
  }

  lemma AltCost(g: Rules, rule: nat, a: nat)
    requires WellFormed(g) && NotLeftRecursive(g) && rule < |g| && AltOf(g, rule, a) && ItemStart(g, Pos(rule, a))
    ensures FullCost(g, Pos(rule, a)) <= AltsCost(g, rule, 0)
    ensures Derives(g, Pos(rule, a), []) ==> Nullable(g, rule)
  {
    assert Leads(g, a, Pos(rule, a));
    LeadingCost(g, Pos(rule, a));
    AltCostCounted(g, rule, 0, a);
    if Derives(g, Pos(rule, a), []) {
      var d: nat :| DerivesWithin(g, Pos(rule, a), [], d);
      assert AltDerives(g, rule, a, [], d);
    }
  }

  /** Expanding makes the work less: this is why the simulator stops. */
  lemma ExpandingLessens(g: Rules, s: Stack, a: nat)
    requires WellFormed(g) && NotLeftRecursive(g) && ValidStack(g, s) && RefOnTop(g, s) && AltOf(g, At(g, Top(s)).value, a)
    ensures ValidStack(g, Expanded(g, s, a)) && Work(g, Expanded(g, s, a)) < Work(g, s)
  {
    var p := Top(s);
    var rule := At(g, p).value;
    var alt := Pos(rule, a);
    AltStartIsItem(g, alt);
    CostOfRef(g, p);
    AltCost(g, rule, a);
    WorkAfterPush(g, Below(s), Next(p));
    WorkAfterPush(g, PushRest(g, Below(s), Next(p)), alt);
    if Derives(g, alt, []) && Derives(g, Next(p), []) {
      var nothing: Word := [];
      RefDerives(g, p, a, nothing, nothing);
      assert nothing + nothing == nothing;
    }
  }

  // ----- advancing

  /** The END or ALT that closes the alternate at i. */
  function AltEnd(r: Rule, i: nat): (e: nat)
    requires i <= |r|
    ensures i <= e <= |r|
    ensures forall j :: i <= j < e ==> !IsEnd(r[j])
    ensures e < |r| ==> IsEnd(r[e])
    decreases |r| - i
  {
    if i == |r| || IsEnd(r[i]) then i else AltEnd(r, i + 1)
  }

  /** Where the next alternate starts; the length of the rule when this is the last one. */
  function NextAlt(g: Rules, rule: nat, a: nat): (b: nat)
    requires WellFormed(g) && AltOf(g, rule, a)
    ensures AltEnd(g[rule], a) < |g[rule]|
    ensures a < b <= |g[rule]| && (b < |g[rule]| <==> g[rule][AltEnd(g[rule], a)].kind == ALT)
    ensures b < |g[rule]| ==> AltOf(g, rule, b) && b == AltEnd(g[rule], a) + 1
  {
    var r := g[rule];
    assert WellFormedRule(r, |g|);
    assert IsEnd(r[|r| - 1]);
    AltEnd(r, a) + 1
  }

  lemma NoAltBefore(g: Rules, rule: nat, a: nat, b: nat)
    requires WellFormed(g) && AltOf(g, rule, a) && a < b && AltOf(g, rule, b)
    ensures NextAlt(g, rule, a) <= b
  {
    assert IsEnd(g[rule][b - 1]);
  }

  /** All the stacks s can become with a character on top, or nothing left. */
  function Advance(g: Rules, s: Stack): (r: Stacks)
    requires WellFormed(g) && NotLeftRecursive(g) && ValidStack(g, s)
    decreases Work(g, s), 1, 0
  {
    if s == [] then [[]]
    else if At(g, Top(s)).kind == RULE_REF then
      AfterRefIsItem(g, Top(s));
      AdvanceAlts(g, s, 0)
    else [s]
  }

  function AdvanceAlts(g: Rules, s: Stack, a: nat): (r: Stacks)
    requires WellFormed(g) && NotLeftRecursive(g) && ValidStack(g, s) && RefOnTop(g, s) && AltOf(g, At(g, Top(s)).value, a)
    decreases Work(g, s), 0, 2 * (|g[At(g, Top(s)).value]| - a) + 1
  {
    ExpandingLessens(g, s, a);
    Advance(g, Expanded(g, s, a)) + AltsAfter(g, s, a)
  }

  /** The alternates after a. */
  function AltsAfter(g: Rules, s: Stack, a: nat): (r: Stacks)
    requires WellFormed(g) && NotLeftRecursive(g) && ValidStack(g, s) && RefOnTop(g, s) && AltOf(g, At(g, Top(s)).value, a)
    decreases Work(g, s), 0, 2 * (|g[At(g, Top(s)).value]| - a)
  {
    var next := NextAlt(g, At(g, Top(s)).value, a);
    if next < |g[At(g, Top(s)).value]| then AdvanceAlts(g, s, next) else []
  }

  /** A character on top, or nothing at all. */
  ghost predicate Settled(g: Rules, s: Stack) {
    ValidStack(g, s) && (s != [] ==> IsCharStart(At(g, Top(s))))
  }

  ghost predicate AllSettled(g: Rules, stacks: Stacks) {
    forall i :: 0 <= i < |stacks| ==> Settled(g, stacks[i])
  }

  /** Every stack that comes out is settled, and there is at least one. */
  lemma {:induction false} AdvanceSettles(g: Rules, s: Stack)
    requires WellFormed(g) && NotLeftRecursive(g) && ValidStack(g, s)
    ensures AllSettled(g, Advance(g, s)) && Advance(g, s) != []
    decreases Work(g, s), 1, 0
  {
    if s != [] && At(g, Top(s)).kind == RULE_REF {
      AfterRefIsItem(g, Top(s));
      AdvanceAltsSettles(g, s, 0);
    }
  }

  lemma {:induction false} AdvanceAltsSettles(g: Rules, s: Stack, a: nat)
    requires WellFormed(g) && NotLeftRecursive(g) && ValidStack(g, s) && RefOnTop(g, s) && AltOf(g, At(g, Top(s)).value, a)
    ensures AllSettled(g, AdvanceAlts(g, s, a)) && AdvanceAlts(g, s, a) != []
    decreases Work(g, s), 0, 2 * (|g[At(g, Top(s)).value]| - a) + 1
  {
    ExpandingLessens(g, s, a);
    AdvanceSettles(g, Expanded(g, s, a));
    AltsAfterSettle(g, s, a);
  }

  lemma {:induction false} AltsAfterSettle(g: Rules, s: Stack, a: nat)
    requires WellFormed(g) && NotLeftRecursive(g) && ValidStack(g, s) && RefOnTop(g, s) && AltOf(g, At(g, Top(s)).value, a)
    ensures AllSettled(g, AltsAfter(g, s, a))
    decreases Work(g, s), 0, 2 * (|g[At(g, Top(s)).value]| - a)
  {
    var next := NextAlt(g, At(g, Top(s)).value, a);
    if next < |g[At(g, Top(s)).value]| {
      AdvanceAltsSettles(g, s, next);
    }
  }

  /** The stack without its top, with what follows the reference and the alternate pushed. */
  method ExpandStack(g: Rules, s: Stack, a: nat) returns (newStack: Stack)
    requires WellFormed(g) && RefOnTop(g, s) && AltOf(g, At(g, Top(s)).value, a)
    ensures newStack == Expanded(g, s, a)
  {
    var pos := s[|s| - 1];
    var alt := Pos(At(g, pos).value, a);
    AfterRefIsItem(g, pos);
    newStack := s[..|s| - 1];
    if !IsEnd(At(g, Next(pos))) {
      newStack := newStack + [Next(pos)];
    }
    if !IsEnd(At(g, alt)) {
      newStack := newStack + [alt];
    }
  }

  /** Scans to the end of an alternate, and past it if there is another one. */
  method ScanAlternate(g: Rules, rule: nat, a: nat) returns (more: bool, pos: nat)
    requires WellFormed(g) && AltOf(g, rule, a)
    ensures more == (NextAlt(g, rule, a) < |g[rule]|)
    ensures pos == if more then NextAlt(g, rule, a) else NextAlt(g, rule, a) - 1
  {
    ghost var next := NextAlt(g, rule, a);
    pos := a;
    while !IsEnd(g[rule][pos])
      invariant a <= pos <= AltEnd(g[rule], a)
      decreases |g[rule]| - pos
    {
      pos := pos + 1;
    }
    more := g[rule][pos].kind == ALT;
    if more {
      pos := pos + 1;
    }
  }

  /** The simulator's own recursion: appends the stacks s becomes to those found so far. */
  method AdvanceStack(g: Rules, s: Stack, found: Stacks) returns (newStacks: Stacks)
    requires WellFormed(g) && NotLeftRecursive(g) && ValidStack(g, s)
    ensures newStacks == found + Advance(g, s)
    decreases Work(g, s), 1, 0
  {
    if s == [] {
      newStacks := found + [[]];
    } else if At(g, s[|s| - 1]).kind == RULE_REF {
      AfterRefIsItem(g, Top(s));
      newStacks := AdvanceAlternates(g, s, found);
    } else {
      newStacks := found + [s];
    }
  }

  lemma AltsUnfold(g: Rules, s: Stack, a: nat, before: Stacks)
    requires WellFormed(g) && NotLeftRecursive(g) && ValidStack(g, s) && RefOnTop(g, s) && AltOf(g, At(g, Top(s)).value, a)
    ensures ValidStack(g, Expanded(g, s, a)) && Work(g, Expanded(g, s, a)) < Work(g, s)
    ensures before + AdvanceAlts(g, s, a) == (before + Advance(g, Expanded(g, s, a))) + AltsAfter(g, s, a)
  {
    ExpandingLessens(g, s, a);
    assert before + (Advance(g, Expanded(g, s, a)) + AltsAfter(g, s, a)) == (before + Advance(g, Expanded(g, s, a))) + AltsAfter(g, s, a);
  }

  /** One expansion for each alternate of the rule on top. */
  method AdvanceAlternates(g: Rules, s: Stack, found: Stacks) returns (newStacks: Stacks)
    requires WellFormed(g) && NotLeftRecursive(g) && ValidStack(g, s) && RefOnTop(g, s) && AltOf(g, At(g, Top(s)).value, 0)
    ensures newStacks == found + AdvanceAlts(g, s, 0)
    decreases Work(g, s), 0, 0
  {
    var rule := At(g, s[|s| - 1]).value;
    newStacks := found;
    var subpos := 0;
    var more := true;
    while more
      invariant more ==> AltOf(g, rule, subpos) && newStacks + AdvanceAlts(g, s, subpos) == found + AdvanceAlts(g, s, 0)
      invariant !more ==> newStacks == found + AdvanceAlts(g, s, 0)
      invariant subpos <= |g[rule]|
      decreases |g[rule]| - subpos, more
    {
      AltsUnfold(g, s, subpos, newStacks);
      var newStack := ExpandStack(g, s, subpos);
      newStacks := AdvanceStack(g, newStack, newStacks);
      assert newStacks + [] == newStacks;
      more, subpos := ScanAlternate(g, rule, subpos);
    }
  }

  // ----- what stacks stand for

  /** w splits into a word for each element, top first. */
  ghost predicate StackDerives(g: Rules, s: Stack, w: Word)
    requires WellFormed(g) && ValidStack(g, s)
  {
    if s == [] then w == []
    else exists k {:trigger Derives(g, Top(s), w[..k])} ::
           0 <= k <= |w| && Derives(g, Top(s), w[..k]) && StackDerives(g, Below(s), w[k..])
  }

  lemma TopSplit(g: Rules, s: Stack, w: Word) returns (u: Word, v: Word)
    requires WellFormed(g) && ValidStack(g, s) && s != [] && StackDerives(g, s, w)
    ensures w == u + v && Derives(g, Top(s), u) && StackDerives(g, Below(s), v)
  {
    var k :| 0 <= k <= |w| && Derives(g, Top(s), w[..k]) && StackDerives(g, Below(s), w[k..]);
    u, v := w[..k], w[k..];
  }

  lemma TopJoin(g: Rules, s: Stack, u: Word, v: Word)
    requires WellFormed(g) && ValidStack(g, s) && s != [] && Derives(g, Top(s), u) && StackDerives(g, Below(s), v)
    ensures StackDerives(g, s, u + v)
  {
    var w, k := u + v, |u|;
    assert w[..k] == u && w[k..] == v;
    assert Derives(g, Top(s), w[..k]) && StackDerives(g, Below(s), w[k..]);
  }

  ghost predicate StacksDerive(g: Rules, stacks: Stacks, w: Word)
    requires WellFormed(g) && AllSettled(g, stacks)
  {
    exists i :: 0 <= i < |stacks| && StackDerives(g, stacks[i], w)
  }

  /** With the rest at p pushed, a word splits into one for it and one for the stack. */
  lemma PushedSplit(g: Rules, s: Stack, p: Pos, w: Word) returns (u: Word, v: Word)
    requires WellFormed(g) && ValidStack(g, s) && ItemStart(g, p) && StackDerives(g, PushRest(g, s, p), w)
    ensures w == u + v && Derives(g, p, u) && StackDerives(g, s, v)
  {
    if IsEnd(At(g, p)) {
      u, v := [], w;
      EndDerives(g, p, []);
    } else {
      var r := s + [p];
      assert Below(r) == s && Top(r) == p;
      u, v := TopSplit(g, r, w);
    }
  }

  /** A word for the rest at p and one for the stack make one for both. */
  lemma PushedJoin(g: Rules, s: Stack, p: Pos, u: Word, v: Word)
    requires WellFormed(g) && ValidStack(g, s) && ItemStart(g, p) && Derives(g, p, u) && StackDerives(g, s, v)
    ensures StackDerives(g, PushRest(g, s, p), u + v)
  {
    if IsEnd(At(g, p)) {
      EndDerives(g, p, u);
      assert u + v == v;
    } else {
      var r := s + [p];
      assert Below(r) == s && Top(r) == p;
      TopJoin(g, r, u, v);
    }
  }

  lemma ExpandedSplit(g: Rules, s: Stack, a: nat, w: Word) returns (t: Word, u: Word, v: Word)
    requires WellFormed(g) && ValidStack(g, s) && RefOnTop(g, s) && AltOf(g, At(g, Top(s)).value, a)
    requires StackDerives(g, Expanded(g, s, a), w)
    ensures ItemStart(g, Pos(At(g, Top(s)).value, a)) && ItemStart(g, Next(Top(s))) && w == t + (u + v)
    ensures Derives(g, Pos(At(g, Top(s)).value, a), t) && Derives(g, Next(Top(s)), u) && StackDerives(g, Below(s), v)
  {
    AfterRefIsItem(g, Top(s));
    AltStartIsItem(g, Pos(At(g, Top(s)).value, a));
    var rest;
    t, rest := PushedSplit(g, PushRest(g, Below(s), Next(Top(s))), Pos(At(g, Top(s)).value, a), w);
    u, v := PushedSplit(g, Below(s), Next(Top(s)), rest);
  }

  lemma ExpandedJoin(g: Rules, s: Stack, a: nat, t: Word, u: Word, v: Word)
    requires WellFormed(g) && ValidStack(g, s) && RefOnTop(g, s) && AltOf(g, At(g, Top(s)).value, a)
    requires ItemStart(g, Pos(At(g, Top(s)).value, a)) && ItemStart(g, Next(Top(s)))
    requires Derives(g, Pos(At(g, Top(s)).value, a), t) && Derives(g, Next(Top(s)), u) && StackDerives(g, Below(s), v)
    ensures StackDerives(g, Expanded(g, s, a), t + (u + v))
  {
    PushedJoin(g, Below(s), Next(Top(s)), u, v);
    PushedJoin(g, PushRest(g, Below(s), Next(Top(s))), Pos(At(g, Top(s)).value, a), t, u + v);
  }

  lemma Regroup(t: Word, u: Word, v: Word)
    ensures (t + u) + v == t + (u + v)
  {
  }

  /** A stack derives what one of its expansions does. */
  lemma ExpansionDerives(g: Rules, s: Stack, a: nat, w: Word)
    requires WellFormed(g) && ValidStack(g, s) && RefOnTop(g, s) && AltOf(g, At(g, Top(s)).value, a)
    requires StackDerives(g, Expanded(g, s, a), w)
    ensures StackDerives(g, s, w)
  {
    var t, u, v := ExpandedSplit(g, s, a, w);
    RefDerives(g, Top(s), a, t, u);
    TopJoin(g, s, t + u, v);
    Regroup(t, u, v);
  }

  lemma DerivesByExpansion(g: Rules, s: Stack, w: Word) returns (a: nat)
    requires WellFormed(g) && ValidStack(g, s) && RefOnTop(g, s) && StackDerives(g, s, w)
    ensures AltOf(g, At(g, Top(s)).value, a) && StackDerives(g, Expanded(g, s, a), w)
  {
    var tu, v := TopSplit(g, s, w);
    var t, u;
    a, t, u := RefDerivesSplit(g, Top(s), tu);
    ExpandedJoin(g, s, a, t, u, v);
    Regroup(t, u, v);
  }

  /** Advancing keeps what a stack derives. */
  lemma {:induction false} AdvanceDerives(g: Rules, s: Stack, w: Word)
    requires WellFormed(g) && NotLeftRecursive(g) && ValidStack(g, s)
    ensures AllSettled(g, Advance(g, s))
    ensures StackDerives(g, s, w) <==> StacksDerive(g, Advance(g, s), w)
    decreases Work(g, s), 1, 0
  {
    if s == [] || At(g, Top(s)).kind != RULE_REF {
      assert Advance(g, s) == [s];
      assert Advance(g, s)[0] == s;
    } else {
      AfterRefIsItem(g, Top(s));
      AltsDerive(g, s, 0, w);
      if StackDerives(g, s, w) {
        var a := DerivesByExpansion(g, s, w);
      }
      forall a | AltOf(g, At(g, Top(s)).value, a) && StackDerives(g, Expanded(g, s, a), w) ensures StackDerives(g, s, w) {
        ExpansionDerives(g, s, a, w);
      }
    }
  }

  ghost predicate SomeAltDerives(g: Rules, s: Stack, a: nat, w: Word)
    requires WellFormed(g) && ValidStack(g, s) && RefOnTop(g, s)
  {
    exists b: nat :: a <= b && AltOf(g, At(g, Top(s)).value, b) && StackDerives(g, Expanded(g, s, b), w)
  }

  lemma SomeAltSplit(g: Rules, s: Stack, a: nat, w: Word)
    requires WellFormed(g) && ValidStack(g, s) && RefOnTop(g, s) && AltOf(g, At(g, Top(s)).value, a)
    ensures SomeAltDerives(g, s, a, w) <==> StackDerives(g, Expanded(g, s, a), w) || SomeAltDerives(g, s, a + 1, w)
  {
  }

  lemma {:induction false} AltsDerive(g: Rules, s: Stack, a: nat, w: Word)
    requires WellFormed(g) && NotLeftRecursive(g) && ValidStack(g, s) && RefOnTop(g, s) && AltOf(g, At(g, Top(s)).value, a)
    ensures AllSettled(g, AdvanceAlts(g, s, a))
    ensures StacksDerive(g, AdvanceAlts(g, s, a), w) <==> SomeAltDerives(g, s, a, w)
    decreases Work(g, s), 0, 2 * (|g[At(g, Top(s)).value]| - a) + 1
  {
    ExpandingLessens(g, s, a);
    AdvanceDerives(g, Expanded(g, s, a), w);
    AltsAfterDerive(g, s, a, w);
    EitherDerives(g, Advance(g, Expanded(g, s, a)), AltsAfter(g, s, a), w);
    SomeAltSplit(g, s, a, w);
  }

  lemma {:induction false} AltsAfterDerive(g: Rules, s: Stack, a: nat, w: Word)
    requires WellFormed(g) && NotLeftRecursive(g) && ValidStack(g, s) && RefOnTop(g, s) && AltOf(g, At(g, Top(s)).value, a)
    ensures AllSettled(g, AltsAfter(g, s, a))
    ensures StacksDerive(g, AltsAfter(g, s, a), w) <==> SomeAltDerives(g, s, a + 1, w)
    decreases Work(g, s), 0, 2 * (|g[At(g, Top(s)).value]| - a)
  {
    var rule := At(g, Top(s)).value;
    var next := NextAlt(g, rule, a);
    forall b: nat | a + 1 <= b && AltOf(g, rule, b) ensures next <= b {
      NoAltBefore(g, rule, a, b);
    }
    if next < |g[rule]| {
      AltsDerive(g, s, next, w);
    }
  }

  lemma EitherDerives(g: Rules, a: Stacks, b: Stacks, w: Word)
    requires WellFormed(g) && AllSettled(g, a) && AllSettled(g, b)
    ensures AllSettled(g, a + b)
    ensures StacksDerive(g, a + b, w) <==> StacksDerive(g, a, w) || StacksDerive(g, b, w)
  {
    var c := a + b;
    if StacksDerive(g, a, w) {
      var i :| 0 <= i < |a| && StackDerives(g, a[i], w);
      assert c[i] == a[i];
    }
    if StacksDerive(g, b, w) {
      var i :| 0 <= i < |b| && StackDerives(g, b[i], w);
      assert c[|a| + i] == b[i];
    }
  }

  // ----- reading a character

  /** The stacks the grammar starts with: one for each alternate of the start rule, advanced. */
  function InitialStacks(g: Rules, start: nat, a: nat): (r: Stacks)
    requires WellFormed(g) && NotLeftRecursive(g) && AltOf(g, start, a)
    ensures AllSettled(g, r) && r != []
    decreases |g[start]| - a, 1
  {
    AdvanceSettles(g, StartStack(g, start, a));
    Advance(g, StartStack(g, start, a)) + InitialAfter(g, start, a)
  }

  function InitialAfter(g: Rules, start: nat, a: nat): (r: Stacks)
    requires WellFormed(g) && NotLeftRecursive(g) && AltOf(g, start, a)
    ensures AllSettled(g, r)
    decreases |g[start]| - a, 0
  {
    var next := NextAlt(g, start, a);
    if next < |g[start]| then InitialStacks(g, start, next) else []
  }

  function StartStack(g: Rules, start: nat, a: nat): (r: Stack)
    requires WellFormed(g) && AltOf(g, start, a)
    ensures ValidStack(g, r)
  {
    AltStartIsItem(g, Pos(start, a));
    PushRest(g, [], Pos(start, a))
  }

  method Init(g: Rules, start: nat) returns (stacks: Stacks)
    requires WellFormed(g) && NotLeftRecursive(g) && start < |g|
    ensures AltOf(g, start, 0) && stacks == InitialStacks(g, start, 0)
  {
    assert WellFormedRule(g[start], |g|);
    stacks := [];
    var pos := 0;
    var more := true;
    while more
      invariant more ==> AltOf(g, start, pos) && stacks + InitialStacks(g, start, pos) == InitialStacks(g, start, 0)
      invariant !more ==> stacks == InitialStacks(g, start, 0)
      invariant pos <= |g[start]|
      decreases |g[start]| - pos, more
    {
      var stack: Stack := [];
      if !IsEnd(g[start][pos]) {
        stack := [Pos(start, pos)];
      }
      InitUnfold(g, start, pos, stacks, stack);
      stacks := AdvanceStack(g, stack, stacks);
      assert stacks + [] == stacks;
      more, pos := ScanAlternate(g, start, pos);
    }
  }

  lemma InitUnfold(g: Rules, start: nat, a: nat, before: Stacks, stack: Stack)
    requires WellFormed(g) && NotLeftRecursive(g) && AltOf(g, start, a)
    requires stack == if IsEnd(g[start][a]) then [] else [Pos(start, a)]
    ensures ValidStack(g, stack)
    ensures before + InitialStacks(g, start, a) == (before + Advance(g, stack)) + InitialAfter(g, start, a)
  {
    AltStartIsItem(g, Pos(start, a));
    assert stack == StartStack(g, start, a);
  }

  /** What a settled stack with a character on top leaves when that is read. */
  function Popped(g: Rules, s: Stack): (r: Stack)
    requires WellFormed(g) && s != [] && InRules(g, Top(s)) && IsCharStart(At(g, Top(s)))
    ensures ValidStack(g, s) ==> ValidStack(g, r)
  {
    PastClassIsItem(g, Top(s));
    PushRest(g, Below(s), PastClass(g, Top(s)))
  }

  function AcceptOne(g: Rules, s: Stack, chr: nat): (r: Stacks)
    requires WellFormed(g) && NotLeftRecursive(g) && Settled(g, s)
    ensures AllSettled(g, r)
  {
    if s == [] || !Matches(g, Top(s), chr) then []
    else
      AdvanceSettles(g, Popped(g, s));
      Advance(g, Popped(g, s))
  }

  /** The stacks after chr has been read. */
  function Accepted(g: Rules, stacks: Stacks, chr: nat): (r: Stacks)
    requires WellFormed(g) && NotLeftRecursive(g) && AllSettled(g, stacks)
    ensures AllSettled(g, r)
  {
    if stacks == [] then []
    else AcceptOne(g, stacks[0], chr) + Accepted(g, stacks[1..], chr)
  }

  method Accept(g: Rules, stacks: Stacks, chr: nat) returns (newStacks: Stacks)
    requires WellFormed(g) && NotLeftRecursive(g) && AllSettled(g, stacks)
    ensures newStacks == Accepted(g, stacks, chr)
  {
    newStacks := [];
    var i := 0;
    while i < |stacks|
      invariant 0 <= i <= |stacks|
      invariant newStacks + Accepted(g, stacks[i..], chr) == Accepted(g, stacks, chr)
    {
      AcceptUnfold(g, stacks[i..], chr, newStacks);
      assert stacks[i..][1..] == stacks[i + 1..];
      newStacks := AcceptStack(g, stacks[i], chr, newStacks);
      i := i + 1;
    }
  }

  lemma AcceptUnfold(g: Rules, stacks: Stacks, chr: nat, before: Stacks)
    requires WellFormed(g) && NotLeftRecursive(g) && AllSettled(g, stacks) && stacks != []
    ensures before + Accepted(g, stacks, chr) == (before + AcceptOne(g, stacks[0], chr)) + Accepted(g, stacks[1..], chr)
  {
  }

  /** What one stack becomes; an empty one does not take another character. */
  method AcceptStack(g: Rules, stack: Stack, chr: nat, found: Stacks) returns (newStacks: Stacks)
    requires WellFormed(g) && NotLeftRecursive(g) && Settled(g, stack)
    ensures newStacks == found + AcceptOne(g, stack, chr)
  {
    newStacks := found;
    if stack != [] {
      var matched, pos := MatchChar(g, stack[|stack| - 1], chr);
      if matched {
        var newStack := stack[..|stack| - 1];
        if !IsEnd(At(g, pos)) {
          newStack := newStack + [pos];
        }
        assert newStack == Popped(g, stack);
        newStacks := AdvanceStack(g, newStack, newStacks);
      }
    }
  }

  /** Reading a word, one character after the other. */
  function AcceptedAll(g: Rules, stacks: Stacks, w: Word): (r: Stacks)
    requires WellFormed(g) && NotLeftRecursive(g) && AllSettled(g, stacks)
    ensures AllSettled(g, r)
    decreases |w|
  {
    if w == [] then stacks else AcceptedAll(g, Accepted(g, stacks, w[0]), w[1..])
  }

  lemma DerivesPopped(g: Rules, s: Stack, chr: nat, w: Word)
    requires WellFormed(g) && Settled(g, s) && s != [] && StackDerives(g, s, [chr] + w)
    ensures Matches(g, Top(s), chr) && StackDerives(g, Popped(g, s), w)
  {
    var u, v := TopSplit(g, s, [chr] + w);
    CharDerives(g, Top(s), u);
    HeadTail(chr, w, u, v);
    PushedJoin(g, Below(s), PastClass(g, Top(s)), u[1..], v);
  }

  lemma HeadTail(chr: nat, w: Word, u: Word, v: Word)
    requires [chr] + w == u + v && u != []
    ensures u[0] == chr && w == u[1..] + v
  {
    assert ([chr] + w)[0] == (u + v)[0];
    assert ([chr] + w)[1..] == w && (u + v)[1..] == u[1..] + v;
  }

  lemma PoppedDerives(g: Rules, s: Stack, chr: nat, w: Word)
    requires WellFormed(g) && Settled(g, s) && s != [] && Matches(g, Top(s), chr) && StackDerives(g, Popped(g, s), w)
    ensures StackDerives(g, s, [chr] + w)
  {
    PastClassIsItem(g, Top(s));
    var u, v := PushedSplit(g, Below(s), PastClass(g, Top(s)), w);
    var cu := [chr] + u;
    assert cu[1..] == u;
    CharDerives(g, Top(s), cu);
    TopJoin(g, s, cu, v);
    Regroup([chr], u, v);
  }

  /** A settled stack derives chr + w exactly when reading chr leaves something that derives w. */
  lemma AcceptOneDerives(g: Rules, s: Stack, chr: nat, w: Word)
    requires WellFormed(g) && NotLeftRecursive(g) && Settled(g, s)
    ensures StackDerives(g, s, [chr] + w) <==> StacksDerive(g, AcceptOne(g, s, chr), w)
  {
    if s != [] {
      if StackDerives(g, s, [chr] + w) {
        DerivesPopped(g, s, chr, w);
      }
      if Matches(g, Top(s), chr) {
        if StackDerives(g, Popped(g, s), w) {
          PoppedDerives(g, s, chr, w);
        }
        AdvanceDerives(g, Popped(g, s), w);
      }
    }
  }

  lemma {:induction false} AcceptDerives(g: Rules, stacks: Stacks, chr: nat, w: Word)
    requires WellFormed(g) && NotLeftRecursive(g) && AllSettled(g, stacks)
    ensures StacksDerive(g, stacks, [chr] + w) <==> StacksDerive(g, Accepted(g, stacks, chr), w)
    decreases |stacks|
  {
    if stacks != [] {
      AcceptOneDerives(g, stacks[0], chr, w);
      AcceptDerives(g, stacks[1..], chr, w);
      EitherDerives(g, AcceptOne(g, stacks[0], chr), Accepted(g, stacks[1..], chr), w);
      EitherDerives(g, [stacks[0]], stacks[1..], [chr] + w);
      assert [stacks[0]] + stacks[1..] == stacks;
      SingleDerives(g, stacks[0], [chr] + w);
    }
  }

  lemma SingleDerives(g: Rules, s: Stack, w: Word)
    requires WellFormed(g) && Settled(g, s)
    ensures StacksDerive(g, [s], w) <==> StackDerives(g, s, w)
  {
    assert [s][0] == s;
  }

  lemma {:induction false} AcceptAllDerives(g: Rules, stacks: Stacks, u: Word, w: Word)
    requires WellFormed(g) && NotLeftRecursive(g) && AllSettled(g, stacks)
    ensures StacksDerive(g, stacks, u + w) <==> StacksDerive(g, AcceptedAll(g, stacks, u), w)
    decreases |u|
  {
    if u == [] {
      assert u + w == w;
    } else {
      assert u + w == [u[0]] + (u[1..] + w);
      AcceptDerives(g, stacks, u[0], u[1..] + w);
      AcceptAllDerives(g, Accepted(g, stacks, u[0]), u[1..], w);
    }
  }

  /** A settled stack derives the empty word only when it is empty. */
  lemma EmptyDerivesNothing(g: Rules, s: Stack)
    requires WellFormed(g) && Settled(g, s)
    ensures StackDerives(g, s, []) <==> s == []
  {
    if s != [] {
      CharDerives(g, Top(s), []);
      if StackDerives(g, s, []) {
        var u, v := TopSplit(g, s, []);
      }
    }
  }

  ghost predicate AltGives(g: Rules, rule: nat, a: nat, w: Word)
    requires WellFormed(g)
  {
    AltOf(g, rule, a) && exists d: nat :: AltDerives(g, rule, a, w, d)
  }

  /** Some alternate of the rule from position a on derives w. */
  ghost predicate AltFromGives(g: Rules, rule: nat, a: nat, w: Word)
    requires WellFormed(g)
  {
    exists b: nat :: a <= b && AltGives(g, rule, b, w)
  }

  lemma StartStackDerives(g: Rules, start: nat, a: nat, w: Word)
    requires WellFormed(g) && AltOf(g, start, a)
    ensures StackDerives(g, StartStack(g, start, a), w) <==> AltGives(g, start, a, w)
  {
    var p := Pos(start, a);
    AltStartIsItem(g, p);
    if StackDerives(g, StartStack(g, start, a), w) {
      var u, v := PushedSplit(g, [], p, w);
      assert u == w;
      var d: nat :| DerivesWithin(g, p, w, d);
      assert AltDerives(g, start, a, w, d);
    }
    if AltGives(g, start, a, w) {
      var d: nat :| AltDerives(g, start, a, w, d);
      assert DerivesWithin(g, p, w, d);
      PushedJoin(g, [], p, w, []);
      assert w + [] == w;
    }
  }

  lemma {:induction false} InitialDerives(g: Rules, start: nat, a: nat, w: Word)
    requires WellFormed(g) && NotLeftRecursive(g) && AltOf(g, start, a)
    ensures StacksDerive(g, InitialStacks(g, start, a), w) <==> AltFromGives(g, start, a, w)
    decreases |g[start]| - a
  {
    var s := StartStack(g, start, a);
    AdvanceDerives(g, s, w);
    StartStackDerives(g, start, a, w);
    var next := NextAlt(g, start, a);
    AltFromSplit(g, start, a, w);
    if next < |g[start]| {
      InitialDerives(g, start, next, w);
    }
    EitherDerives(g, Advance(g, s), InitialAfter(g, start, a), w);
  }

  lemma AltFromSplit(g: Rules, rule: nat, a: nat, w: Word)
    requires WellFormed(g) && AltOf(g, rule, a)
    ensures AltFromGives(g, rule, a, w) <==>
              AltGives(g, rule, a, w) || (NextAlt(g, rule, a) < |g[rule]| && AltFromGives(g, rule, NextAlt(g, rule, a), w))
  {
    forall b: nat | a < b && AltGives(g, rule, b, w) ensures NextAlt(g, rule, a) <= b {
      NoAltBefore(g, rule, a, b);
    }
  }

  lemma RuleIsAltFromStart(g: Rules, rule: nat, w: Word)
    requires WellFormed(g)
    ensures RuleDerives(g, rule, w) <==> AltFromGives(g, rule, 0, w)
  {
    if RuleDerives(g, rule, w) {
      var a: nat, d: nat :| AltOf(g, rule, a) && AltDerives(g, rule, a, w, d);
      assert AltGives(g, rule, a, w);
    }
  }

  /** After a word has been read, what the stacks still derive are exactly the ways to
      complete it to a word of the language. */
  lemma DerivesCompletions(g: Rules, start: nat, u: Word, w: Word)
    requires WellFormed(g) && NotLeftRecursive(g) && AltOf(g, start, 0)
    ensures StacksDerive(g, AcceptedAll(g, InitialStacks(g, start, 0), u), w) <==> RuleDerives(g, start, u + w)
  {
    RuleIsAltFromStart(g, start, u + w);
    InitialDerives(g, start, 0, u + w);
    AcceptAllDerives(g, InitialStacks(g, start, 0), u, w);
  }

  lemma SettledDeriveNothing(g: Rules, stacks: Stacks)
    requires WellFormed(g) && AllSettled(g, stacks)
    ensures StacksDerive(g, stacks, []) <==> [] in stacks
  {
    forall i | 0 <= i < |stacks| ensures StackDerives(g, stacks[i], []) <==> stacks[i] == [] {
      EmptyDerivesNothing(g, stacks[i]);
    }
  }

  /** The simulator recognises the grammar's language: after a word has been read the empty
      stack is among the stacks exactly when the start rule derives the word. */
  lemma RecognisesLanguage(g: Rules, start: nat, w: Word)
    requires WellFormed(g) && NotLeftRecursive(g) && AltOf(g, start, 0)
    ensures [] in AcceptedAll(g, InitialStacks(g, start, 0), w) <==> RuleDerives(g, start, w)
  {
    DerivesCompletions(g, start, w, []);
    assert w + [] == w;
    SettledDeriveNothing(g, AcceptedAll(g, InitialStacks(g, start, 0), w));
  }
}
