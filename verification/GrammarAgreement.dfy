/** Where penalising tokens and accepting them part ways, exactly, and where a token that is needed is
    penalised. */
module GrammarAgreement {
  import opened Utf8
  import opened GrammarRules
  import opened GrammarStacks
  import opened GrammarTokens
  import opened GrammarDecoding

  // ----- a code point 0 inside a token

  /** root ::= [^\0] root */
  const ANY_BUT_NUL: Rules := [[Element(CHAR_NOT, 0), Element(RULE_REF, 0), Element(END, 0)]]

  const ANY: Stack := [Pos(0, 0)]

  lemma AnyWellFormed()
    ensures WellFormed(ANY_BUT_NUL) && NotLeftRecursive(ANY_BUT_NUL) && Settled(ANY_BUT_NUL, ANY) && AllSettled(ANY_BUT_NUL, [ANY])
  {
    var g := ANY_BUT_NUL;
    assert WellFormedRule(g[0], |g|);
    forall rule: nat, n: nat ensures !BeginsIn(g, rule, rule, n) {
      NothingBegins(rule, rule, n);
    }
  }

  lemma NothingBegins(rule: nat, first: nat, n: nat)
    requires WellFormed(ANY_BUT_NUL)
    ensures !BeginsIn(ANY_BUT_NUL, rule, first, n)
  {
    var g := ANY_BUT_NUL;
    forall rule: nat, first: nat ensures !BeginsWith(g, rule, first) {
      forall i: nat, a: nat | InRules(g, Pos(rule, i)) && g[rule][i] == Element(RULE_REF, first) ensures !Leads(g, a, Pos(rule, i)) {
        assert rule == 0 && i == 1;
        assert !AltOf(g, 0, 1);
        assert g[0][0].kind != RULE_REF;
      }
    }
  }

  lemma AnyReadsOne(c: nat)
    requires WellFormed(ANY_BUT_NUL) && NotLeftRecursive(ANY_BUT_NUL) && AllSettled(ANY_BUT_NUL, [ANY])
    ensures Accepted(ANY_BUT_NUL, [ANY], c) == if c == 0 then [] else [ANY]
  {
    var g := ANY_BUT_NUL;
    assert Matches(g, Top(ANY), c) <==> c != 0;
    if c != 0 {
      var s := Popped(g, ANY);
      assert s == [Pos(0, 1)];
      ExpandingLessens(g, s, 0);
      assert Expanded(g, s, 0) == ANY;
      assert NextAlt(g, 0, 0) == 3;
      assert AdvanceAlts(g, s, 0) == Advance(g, ANY) + AltsAfter(g, s, 0);
    }
  }

  /** All that is read but a 0 leaves it as it is. */
  lemma {:induction false} AnyReads(w: Word)
    requires WellFormed(ANY_BUT_NUL) && NotLeftRecursive(ANY_BUT_NUL) && AllSettled(ANY_BUT_NUL, [ANY])
    ensures AcceptedAll(ANY_BUT_NUL, [ANY], w) == if 0 in w then [] else [ANY]
    decreases |w|
  {
    if w != [] {
      AnyReadsFirst(w);
      if w[0] != 0 {
        AnyReads(w[1..]);
        assert w == [w[0]] + w[1..];
      }
    }
  }

  lemma AnyReadsFirst(w: Word)
    requires WellFormed(ANY_BUT_NUL) && NotLeftRecursive(ANY_BUT_NUL) && AllSettled(ANY_BUT_NUL, [ANY]) && w != []
    ensures AcceptedAll(ANY_BUT_NUL, [ANY], w) == if w[0] == 0 then [] else AcceptedAll(ANY_BUT_NUL, [ANY], w[1..])
  {
    AnyReadsOne(w[0]);
    NothingAccepts(ANY_BUT_NUL, w[1..]);
    assert AcceptedAll(ANY_BUT_NUL, [ANY], w) == AcceptedAll(ANY_BUT_NUL, Accepted(ANY_BUT_NUL, [ANY], w[0]), w[1..]);
  }

  lemma AnyGoesOn(partial: Partial)
    requires WellFormed(ANY_BUT_NUL) && Plausible(partial) && Completable(partial)
    ensures GoesOn(ANY_BUT_NUL, ANY, partial)
  {
    assert Pow64(1) == 64 && Pow64(2) == 4096 && Pow64(3) == 262144;
  }

  ghost predicate AgreesAlways(text: Text, partial: Partial) {
    forall g: Rules, stacks: Stacks ::
      WellFormed(g) && NotLeftRecursive(g) && AllSettled(g, stacks) && g != [] && stacks != [] ==> Agrees(g, State(stacks, partial), text)
  }

  /** Exact condition, for every text that is no marker and every state the decoder can be in: whatever
      the grammar and its stacks, a token is penalised exactly when accepting it leaves no stack that can
      go on, if and only if it decodes to no code point 0 or leaves a sequence that nothing completes. */
  lemma AgreesExactly(text: Text, partial: Partial)
    requires !([0x5B, 0x5F] <= text) && Plausible(partial)
    ensures AgreesAlways(text, partial) <==> 0 !in PointsOf(text, partial) || !Completable(DecodeText(text, partial).partial)
  {
    var points, rest := PointsOf(text, partial), DecodeText(text, partial).partial;
    if 0 in points && Completable(rest) {
      DecodedPlausible(UpToNul(text), partial);
      AnyWellFormed();
      ZeroParts(text, partial);
      assert !Agrees(ANY_BUT_NUL, State([ANY], partial), text);
    }
    if 0 !in points || !Completable(rest) {
      forall g: Rules, stacks: Stacks |
        WellFormed(g) && NotLeftRecursive(g) && AllSettled(g, stacks) && g != [] && stacks != []
        ensures Agrees(g, State(stacks, partial), text)
      {
        AllowedTokenCanBeAccepted(g, State(stacks, partial), text);
      }
    }
  }

  /** The grammar of all texts without NUL lets a token with a code point 0 be picked, and then is stuck. */
  lemma ZeroParts(text: Text, partial: Partial)
    requires !([0x5B, 0x5F] <= text) && 0 in PointsOf(text, partial)
    requires Plausible(DecodeText(text, partial).partial) && Completable(DecodeText(text, partial).partial)
    requires WellFormed(ANY_BUT_NUL) && NotLeftRecursive(ANY_BUT_NUL) && AllSettled(ANY_BUT_NUL, [ANY])
    ensures Allows(ANY_BUT_NUL, State([ANY], partial), text)
    ensures TokenAccepted(ANY_BUT_NUL, State([ANY], partial), text).stacks == []
  {
    var points := PointsOf(text, partial);
    FirstZero(points);
    AnyReads(points);
    AnyReads(UpToZero(points));
    AnyGoesOn(DecodeText(text, partial).partial);
    assert GoesOn(ANY_BUT_NUL, [ANY][0], DecodeText(text, partial).partial);
    AllowedTokenCanBeAccepted(ANY_BUT_NUL, State([ANY], partial), text);
  }

  /** Concretely: a byte 0xC0 leaves one byte missing, and 0x80 then completes a code point 0. With any
      stack the token 0x80 is allowed, and accepting it leaves none. */
  lemma ZeroIsAllowedAndStuck(g: Rules, s: Stack)
    requires WellFormed(g) && NotLeftRecursive(g) && Settled(g, s) && AllSettled(g, [s]) && g != [] && s != [] && !Matches(g, Top(s), 0)
    ensures DecodeText([0xC0], FRESH).partial == Partial(0, 1) && PointsOf([0x80], Partial(0, 1)) == [0]
    ensures Allows(g, State([s], Partial(0, 1)), [0x80])
    ensures TokenAccepted(g, State([s], Partial(0, 1)), [0x80]).stacks == []
  {
    var st := State([s], Partial(0, 1));
    ZeroDecodes();
    assert AcceptedAll(g, [s], [0]) == AcceptedAll(g, Accepted(g, [s], 0), []);
    assert GoesOn(g, AcceptedAll(g, [s], [])[0], FRESH);
    AllowedTokenCanBeAccepted(g, st, [0x80]);
  }

  lemma ZeroDecodes()
    ensures DecodeText([0xC0], FRESH).partial == Partial(0, 1)
    ensures DecodeText([0x80], Partial(0, 1)) == Decoded([0, 0], FRESH) && PointsOf([0x80], Partial(0, 1)) == [0]
  {
    assert UpToNul([0xC0]) == [0xC0];
    assert UpToNul([0x80]) == [0x80];
    assert CarryOn([0x80], 0, 1) == Carried([], 0, 0);
  }

  // ----- a needed character that an inverse class rejects

  /** root ::= [^é] */
  const NO_E_ACUTE: Rules := [[Element(CHAR_NOT, 0xE9), Element(END, 0)]]

  lemma NoEAcuteWellFormed()
    ensures WellFormed(NO_E_ACUTE) && NotLeftRecursive(NO_E_ACUTE) && RangesOrdered(NO_E_ACUTE) && AltOf(NO_E_ACUTE, 0, 0)
    ensures ItemStart(NO_E_ACUTE, Pos(0, 0)) && InitialStacks(NO_E_ACUTE, 0, 0) == [[Pos(0, 0)]]
  {
    var g := NO_E_ACUTE;
    assert WellFormedRule(g[0], |g|);
    forall rule: nat, n: nat ensures !BeginsIn(g, rule, rule, n) {
      assert forall rule: nat, first: nat :: !BeginsWith(g, rule, first);
    }
    assert NextAlt(g, 0, 0) == 2;
    assert StartStack(g, 0, 0) == [Pos(0, 0)];
    assert Advance(g, [Pos(0, 0)]) == [[Pos(0, 0)]];
  }

  /** The first byte of é is also that of ê, which the grammar takes: the token 0xC3 is needed for it, and
      is penalised. */
  lemma NeededPartialTokenRejected()
    ensures WellFormed(NO_E_ACUTE) && NotLeftRecursive(NO_E_ACUTE) && RangesOrdered(NO_E_ACUTE) && AltOf(NO_E_ACUTE, 0, 0)
    ensures RuleDerives(NO_E_ACUTE, 0, [0xEA]) && Encode(0xEA) == [0xC3, 0xAA]
    ensures DecodeText([0xC3], FRESH) == Decoded([0], Partial(3, 1)) && Completes(Partial(3, 1), 0xEA)
    ensures !Allows(NO_E_ACUTE, State(InitialStacks(NO_E_ACUTE, 0, 0), FRESH), [0xC3])
  {
    NoEAcuteWellFormed();
    EAcuteDecodes();
    EAcuteRejected();
    ECircumflexDerived();
  }

  lemma ECircumflexDerived()
    requires WellFormed(NO_E_ACUTE) && AltOf(NO_E_ACUTE, 0, 0) && ItemStart(NO_E_ACUTE, Pos(0, 0))
    ensures RuleDerives(NO_E_ACUTE, 0, [0xEA])
  {
    var g := NO_E_ACUTE;
    CharDerives(g, Pos(0, 0), [0xEA]);
    EndDerives(g, Pos(0, 1), []);
    var d: nat :| DerivesWithin(g, Pos(0, 0), [0xEA], d);
    assert AltDerives(g, 0, 0, [0xEA], d);
  }

  lemma EAcuteDecodes()
    ensures DecodeText([0xC3], FRESH) == Decoded([0], Partial(3, 1)) && Encode(0xEA) == [0xC3, 0xAA]
    ensures Completes(Partial(3, 1), 0xEA) && Completes(Partial(3, 1), 0xE9)
  {
    assert UpToNul([0xC3]) == [0xC3];
    assert TakeRest([], 3, 1) == Carried([], 3, 1);
    assert Pow64(1) == 64;
    CompletionMeaning(Partial(3, 1), 0xEA);
    CompletionMeaning(Partial(3, 1), 0xE9);
    assert Continuations([0x2A]) == [0xAA];
  }

  lemma EAcuteRejected()
    requires WellFormed(NO_E_ACUTE) && NotLeftRecursive(NO_E_ACUTE) && RangesOrdered(NO_E_ACUTE)
    requires AltOf(NO_E_ACUTE, 0, 0) && InitialStacks(NO_E_ACUTE, 0, 0) == [[Pos(0, 0)]]
    requires DecodeText([0xC3], FRESH) == Decoded([0], Partial(3, 1)) && Completes(Partial(3, 1), 0xE9)
    ensures !Allows(NO_E_ACUTE, State(InitialStacks(NO_E_ACUTE, 0, 0), FRESH), [0xC3])
  {
    assert !Matches(NO_E_ACUTE, Pos(0, 0), 0xE9);
    assert At(NO_E_ACUTE, Pos(0, 0)).kind == CHAR_NOT;
    InversePartialMatchMeaning(NO_E_ACUTE, Pos(0, 0), Partial(3, 1));
    StuckInside(NO_E_ACUTE, [Pos(0, 0)], [0xC3], Partial(3, 1));
  }

  /** A token that is only the beginning of a character the stack cannot go on to is not allowed. */
  lemma StuckInside(g: Rules, s: Stack, text: Text, begun: Partial)
    requires WellFormed(g) && NotLeftRecursive(g) && Settled(g, s) && AllSettled(g, [s]) && !GoesOn(g, s, begun)
    requires DecodeText(text, FRESH) == Decoded([0], begun)
    ensures !Allows(g, State([s], FRESH), text)
  {
    AllowedTokenCanBeAccepted(g, State([s], FRESH), text);
  }
}
