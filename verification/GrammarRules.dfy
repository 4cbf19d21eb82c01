/** Grammar rules as flat arrays of elements, what it means for one to be well formed, and the
    language they stand for. */
module GrammarRules {

  datatype Kind = END | ALT | RULE_REF | CHAR | CHAR_NOT | CHAR_RNG_UPPER | CHAR_ALT

  datatype Element = Element(kind: Kind, value: nat)

  type Rule = seq<Element>
  type Rules = seq<Rule>

  /** An element of a rule. */
  datatype Pos = Pos(rule: nat, idx: nat)

  predicate IsEnd(e: Element) {
    e.kind == END || e.kind == ALT
  }

  predicate IsCharStart(e: Element) {
    e.kind == CHAR || e.kind == CHAR_NOT
  }

  /** Ends in its only END; range ends and alternatives of characters come right after what they extend. */
  predicate WellFormedRule(r: Rule, nRules: nat) {
    && |r| > 0
    && (forall i :: 0 <= i < |r| ==> (r[i].kind == END <==> i == |r| - 1))
    && (forall i :: 0 <= i < |r| && r[i].kind == RULE_REF ==> r[i].value < nRules)
    && (forall i :: 0 <= i < |r| && r[i].kind == CHAR_RNG_UPPER ==> i > 0 && (IsCharStart(r[i - 1]) || r[i - 1].kind == CHAR_ALT))
    && (forall i :: 0 <= i < |r| && r[i].kind == CHAR_ALT ==>
          i > 0 && (IsCharStart(r[i - 1]) || r[i - 1].kind == CHAR_ALT || r[i - 1].kind == CHAR_RNG_UPPER))
  }

  predicate WellFormed(g: Rules) {
    forall i :: 0 <= i < |g| ==> WellFormedRule(g[i], |g|)
  }

  predicate InRules(g: Rules, p: Pos) {
    p.rule < |g| && p.idx < |g[p.rule]|
  }

  function At(g: Rules, p: Pos): Element
    requires InRules(g, p)
  {
    g[p.rule][p.idx]
  }

  /** Not in the middle of a character class. */
  predicate ItemStart(g: Rules, p: Pos) {
    InRules(g, p) && At(g, p).kind != CHAR_RNG_UPPER && At(g, p).kind != CHAR_ALT
  }

  function Next(p: Pos): Pos {
    Pos(p.rule, p.idx + 1)
  }

  /** Where an alternate of a rule starts. */
  predicate AltStart(g: Rules, p: Pos) {
    InRules(g, p) && (p.idx == 0 || g[p.rule][p.idx - 1].kind == ALT)
  }

  lemma AltStartIsItem(g: Rules, p: Pos)
    requires WellFormed(g) && AltStart(g, p)
    ensures ItemStart(g, p)
  {
    assert WellFormedRule(g[p.rule], |g|);
  }

  lemma AfterRefIsItem(g: Rules, p: Pos)
    requires WellFormed(g) && InRules(g, p) && At(g, p).kind == RULE_REF
    ensures ItemStart(g, Next(p)) && At(g, p).value < |g| && AltStart(g, Pos(At(g, p).value, 0))
  {
    assert WellFormedRule(g[p.rule], |g|);
    assert WellFormedRule(g[At(g, p).value], |g|);
  }

  // ----- character classes

  /** Some range of the class part that starts at i holds chr. */
  predicate HasChar(r: Rule, i: nat, chr: nat)
    requires i < |r|
    decreases |r| - i
  {
    if i + 1 < |r| && r[i + 1].kind == CHAR_RNG_UPPER then
      r[i].value <= chr <= r[i + 1].value || (i + 2 < |r| && r[i + 2].kind == CHAR_ALT && HasChar(r, i + 2, chr))
    else
      r[i].value == chr || (i + 1 < |r| && r[i + 1].kind == CHAR_ALT && HasChar(r, i + 1, chr))
  }

  /** The element after the class part that starts at i. */
  function ClassEnd(r: Rule, i: nat): (e: nat)
    requires i < |r|
    ensures i < e <= |r| + 1
    decreases |r| - i
  {
    var j := if i + 1 < |r| && r[i + 1].kind == CHAR_RNG_UPPER then i + 2 else i + 1;
    if j < |r| && r[j].kind == CHAR_ALT then ClassEnd(r, j) else j
  }

  lemma {:induction false} ClassEndIsItem(r: Rule, nRules: nat, i: nat)
    requires WellFormedRule(r, nRules) && i < |r| && (IsCharStart(r[i]) || r[i].kind == CHAR_ALT)
    ensures ClassEnd(r, i) < |r| && r[ClassEnd(r, i)].kind != CHAR_RNG_UPPER && r[ClassEnd(r, i)].kind != CHAR_ALT
    decreases |r| - i
  {
    var j := if i + 1 < |r| && r[i + 1].kind == CHAR_RNG_UPPER then i + 2 else i + 1;
    if j < |r| && r[j].kind == CHAR_ALT {
      ClassEndIsItem(r, nRules, j);
    }
  }

  /** chr satisfies the class, regular or inverse, at p. */
  predicate Matches(g: Rules, p: Pos, chr: nat)
    requires InRules(g, p)
  {
    HasChar(g[p.rule], p.idx, chr) == (At(g, p).kind == CHAR)
  }

  function PastClass(g: Rules, p: Pos): Pos
    requires InRules(g, p)
  {
    Pos(p.rule, ClassEnd(g[p.rule], p.idx))
  }

  lemma PastClassIsItem(g: Rules, p: Pos)
    requires WellFormed(g) && InRules(g, p) && IsCharStart(At(g, p))
    ensures ItemStart(g, PastClass(g, p))
  {
    assert WellFormedRule(g[p.rule], |g|);
    ClassEndIsItem(g[p.rule], |g|, p.idx);
  }

  /** The matcher, going over the ranges of a class one by one. */
  method MatchChar(g: Rules, start: Pos, chr: nat) returns (matched: bool, pos: Pos)
    requires WellFormed(g) && InRules(g, start) && IsCharStart(At(g, start))
    ensures matched == Matches(g, start, chr)
    ensures pos == PastClass(g, start) && ItemStart(g, pos)
  {
    var r := g[start.rule];
    assert WellFormedRule(r, |g|);
    var isPositive := r[start.idx].kind == CHAR;
    var found := false;
    var i := start.idx;
    var more := true;
    while more
      invariant start.idx <= i < |r|
      invariant more ==> IsCharStart(r[i]) || r[i].kind == CHAR_ALT
      invariant more ==> (HasChar(r, start.idx, chr) <==> found || HasChar(r, i, chr))
      invariant more ==> ClassEnd(r, start.idx) == ClassEnd(r, i)
      invariant !more ==> found == HasChar(r, start.idx, chr) && i == ClassEnd(r, start.idx)
      decreases |r| - i, more
    {
      if r[i + 1].kind == CHAR_RNG_UPPER {
        found := found || r[i].value <= chr <= r[i + 1].value;
        i := i + 2;
      } else {
        found := found || r[i].value == chr;
        i := i + 1;
      }
      more := r[i].kind == CHAR_ALT;
    }
    PastClassIsItem(g, start);
    matched, pos := found == isPositive, Pos(start.rule, i);
  }

  // ----- the language of a grammar

  type Word = seq<nat>

  /** What is left of the alternate at p derives w, with references nested at most d deep. */
  ghost predicate DerivesWithin(g: Rules, p: Pos, w: Word, d: nat)
    requires WellFormed(g) && ItemStart(g, p)
    decreases d, |g[p.rule]| - p.idx
  {
    if IsEnd(At(g, p)) then w == []
    else if IsCharStart(At(g, p)) then
      PastClassIsItem(g, p);
      w != [] && Matches(g, p, w[0]) && DerivesWithin(g, PastClass(g, p), w[1..], d)
    else
      AfterRefIsItem(g, p);
      && d > 0
      && exists k, a ::
           && 0 <= k <= |w| && AltOf(g, At(g, p).value, a)
           && AltDerives(g, At(g, p).value, a, w[..k], d - 1)
           && DerivesWithin(g, Next(p), w[k..], d)
  }

  predicate AltOf(g: Rules, rule: nat, a: nat) {
    AltStart(g, Pos(rule, a))
  }

  ghost predicate AltDerives(g: Rules, rule: nat, a: nat, w: Word, d: nat)
    requires WellFormed(g) && AltOf(g, rule, a)
    decreases d, |g[rule]| + 1
  {
    AltStartIsItem(g, Pos(rule, a));
    DerivesWithin(g, Pos(rule, a), w, d)
  }

  ghost predicate Derives(g: Rules, p: Pos, w: Word)
    requires WellFormed(g) && ItemStart(g, p)
  {
    exists d :: DerivesWithin(g, p, w, d)
  }

  /** Some alternate of the rule derives w. */
  ghost predicate RuleDerives(g: Rules, rule: nat, w: Word)
    requires WellFormed(g)
  {
    exists a, d :: AltOf(g, rule, a) && AltDerives(g, rule, a, w, d)
  }

  lemma {:induction false} DeeperDerives(g: Rules, p: Pos, w: Word, d: nat, e: nat)
    requires WellFormed(g) && ItemStart(g, p) && DerivesWithin(g, p, w, d) && d <= e
    ensures DerivesWithin(g, p, w, e)
    decreases d, |g[p.rule]| - p.idx
  {
    if IsEnd(At(g, p)) {
    } else if IsCharStart(At(g, p)) {
      PastClassIsItem(g, p);
      DeeperDerives(g, PastClass(g, p), w[1..], d, e);
    } else {
      AfterRefIsItem(g, p);
      var rule := At(g, p).value;
      var k, a :| 0 <= k <= |w| && AltOf(g, rule, a)
        && AltDerives(g, rule, a, w[..k], d - 1)
        && DerivesWithin(g, Next(p), w[k..], d);
      AltStartIsItem(g, Pos(rule, a));
      DeeperDerives(g, Pos(rule, a), w[..k], d - 1, e - 1);
      DeeperDerives(g, Next(p), w[k..], d, e);
      assert AltDerives(g, rule, a, w[..k], e - 1);
    }
  }

  // ----- the same, without depths

  lemma EndDerives(g: Rules, p: Pos, w: Word)
    requires WellFormed(g) && ItemStart(g, p) && IsEnd(At(g, p))
    ensures Derives(g, p, w) <==> w == []
  {
    assert DerivesWithin(g, p, [], 0);
  }

  lemma CharDerives(g: Rules, p: Pos, w: Word)
    requires WellFormed(g) && ItemStart(g, p) && IsCharStart(At(g, p))
    ensures ItemStart(g, PastClass(g, p))
    ensures Derives(g, p, w) <==> w != [] && Matches(g, p, w[0]) && Derives(g, PastClass(g, p), w[1..])
  {
    PastClassIsItem(g, p);
    if Derives(g, p, w) {
      var d :| DerivesWithin(g, p, w, d);
      assert DerivesWithin(g, PastClass(g, p), w[1..], d);
    }
    if w != [] && Matches(g, p, w[0]) && Derives(g, PastClass(g, p), w[1..]) {
      var d :| DerivesWithin(g, PastClass(g, p), w[1..], d);
      assert DerivesWithin(g, p, w, d);
    }
  }

  /** A reference: an alternate of the rule, then the rest. */
  lemma RefDerives(g: Rules, p: Pos, a: nat, u: Word, v: Word)
    requires WellFormed(g) && ItemStart(g, p) && At(g, p).kind == RULE_REF
    requires AltOf(g, At(g, p).value, a) && ItemStart(g, Pos(At(g, p).value, a)) && Derives(g, Pos(At(g, p).value, a), u)
    requires ItemStart(g, Next(p)) && Derives(g, Next(p), v)
    ensures Derives(g, p, u + v)
  {
    var rule := At(g, p).value;
    var d :| DerivesWithin(g, Pos(rule, a), u, d);
    var e :| DerivesWithin(g, Next(p), v, e);
    var m := d + e + 1;
    DeeperDerives(g, Pos(rule, a), u, d, m - 1);
    DeeperDerives(g, Next(p), v, e, m);
    var w, k := u + v, |u|;
    assert w[..k] == u && w[k..] == v;
    assert AltDerives(g, rule, a, w[..k], m - 1);
    assert DerivesWithin(g, p, w, m);
  }

  lemma RefDerivesSplit(g: Rules, p: Pos, w: Word) returns (a: nat, t: Word, u: Word)
    requires WellFormed(g) && ItemStart(g, p) && At(g, p).kind == RULE_REF && Derives(g, p, w)
    ensures w == t + u && AltOf(g, At(g, p).value, a) && ItemStart(g, Pos(At(g, p).value, a)) && ItemStart(g, Next(p))
    ensures Derives(g, Pos(At(g, p).value, a), t) && Derives(g, Next(p), u)
  {
    AfterRefIsItem(g, p);
    var rule := At(g, p).value;
    var d: nat :| DerivesWithin(g, p, w, d);
    var k: nat, b: nat :| 0 <= k <= |w| && AltOf(g, rule, b)
      && AltDerives(g, rule, b, w[..k], d - 1)
      && DerivesWithin(g, Next(p), w[k..], d);
    AltStartIsItem(g, Pos(rule, b));
    a, t, u := b, w[..k], w[k..];
    assert DerivesWithin(g, Pos(rule, a), t, d - 1);
  }
}
