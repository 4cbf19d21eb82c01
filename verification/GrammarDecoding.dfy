/** The grammar's state while tokens are decoded: what rejecting whole candidates has to do with
    accepting code points one by one, and why only the text decoded so far matters. */
module GrammarDecoding {
  import opened Utf8
  import opened GrammarRules
  import opened GrammarStacks
  import opened GrammarTokens

  // ----- rejecting is accepting, looked ahead

  /** Nothing is unfinished, or the character on top may become what is. */
  predicate GoesOn(g: Rules, s: Stack, partial: Partial)
    requires s != [] ==> InRules(g, Top(s))
  {
    partial.remain == 0 || (s != [] && PartialMatches(g, Top(s), partial))
  }

  ghost predicate SomeGoesOn(g: Rules, stacks: Stacks, partial: Partial)
    requires AllSettled(g, stacks)
  {
    exists i :: 0 <= i < |stacks| && GoesOn(g, stacks[i], partial)
  }

  lemma EitherSurvives(g: Rules, a: Stacks, b: Stacks, w: Word, partial: Partial)
    requires WellFormed(g) && NotLeftRecursive(g) && AllSettled(g, a) && AllSettled(g, b)
    ensures AllSettled(g, a + b)
    ensures SomeSurvives(g, a + b, w, partial) <==> SomeSurvives(g, a, w, partial) || SomeSurvives(g, b, w, partial)
  {
    var c := a + b;
    if SomeSurvives(g, a, w, partial) {
      var i :| 0 <= i < |a| && Survives(g, a[i], w, partial);
      assert c[i] == a[i];
    }
    if SomeSurvives(g, b, w, partial) {
      var i :| 0 <= i < |b| && Survives(g, b[i], w, partial);
      assert c[|a| + i] == b[i];
    }
  }

  lemma OneSurvives(g: Rules, s: Stack, chr: nat, w: Word, partial: Partial)
    requires WellFormed(g) && NotLeftRecursive(g) && Settled(g, s)
    ensures Survives(g, s, [chr] + w, partial) <==> SomeSurvives(g, AcceptOne(g, s, chr), w, partial)
  {
    var all := [chr] + w;
    assert all[0] == chr && all[1..] == w;
  }

  lemma {:induction false} ReadingSurvives(g: Rules, stacks: Stacks, chr: nat, w: Word, partial: Partial)
    requires WellFormed(g) && NotLeftRecursive(g) && AllSettled(g, stacks)
    ensures SomeSurvives(g, stacks, [chr] + w, partial) <==> SomeSurvives(g, Accepted(g, stacks, chr), w, partial)
    decreases |stacks|
  {
    if stacks != [] {
      var first := [stacks[0]];
      OneSurvives(g, first[0], chr, w, partial);
      ReadingSurvives(g, stacks[1..], chr, w, partial);
      EitherSurvives(g, AcceptOne(g, stacks[0], chr), Accepted(g, stacks[1..], chr), w, partial);
      EitherSurvives(g, first, stacks[1..], [chr] + w, partial);
      assert first + stacks[1..] == stacks;
    }
  }

  /** Looking ahead through a token agrees with accepting its code points one after the other. */
  lemma {:induction false} SurvivalIsAcceptance(g: Rules, stacks: Stacks, w: Word, partial: Partial)
    requires WellFormed(g) && NotLeftRecursive(g) && AllSettled(g, stacks)
    ensures SomeSurvives(g, stacks, w, partial) <==> SomeGoesOn(g, AcceptedAll(g, stacks, w), partial)
    decreases |w|
  {
    if w == [] {
      assert forall i :: 0 <= i < |stacks| ==> Survives(g, stacks[i], w, partial) == GoesOn(g, stacks[i], partial);
    } else {
      ReadingSurvives(g, stacks, w[0], w[1..], partial);
      assert [w[0]] + w[1..] == w;
      SurvivalIsAcceptance(g, Accepted(g, stacks, w[0]), w[1..], partial);
    }
  }

  /** A token decoded completely survives exactly when some stack is left after it; an invalid
      one never does. */
  lemma WholeTokenSurvives(g: Rules, stacks: Stacks, w: Word, partial: Partial)
    requires WellFormed(g) && NotLeftRecursive(g) && AllSettled(g, stacks)
    ensures partial.remain == 0 ==> (SomeSurvives(g, stacks, w, partial) <==> AcceptedAll(g, stacks, w) != [])
    ensures partial.remain < 0 ==> !SomeSurvives(g, stacks, w, partial)
  {
    SurvivalIsAcceptance(g, stacks, w, partial);
    var after := AcceptedAll(g, stacks, w);
    if partial.remain == 0 && after != [] {
      assert GoesOn(g, after[0], partial);
    }
  }

  lemma {:induction false} AcceptedAllConcat(g: Rules, stacks: Stacks, u: Word, w: Word)
    requires WellFormed(g) && NotLeftRecursive(g) && AllSettled(g, stacks)
    ensures AcceptedAll(g, stacks, u + w) == AcceptedAll(g, AcceptedAll(g, stacks, u), w)
    decreases |u|
  {
    if u == [] {
      assert u + w == w;
    } else {
      assert (u + w)[1..] == u[1..] + w;
      AcceptedAllConcat(g, Accepted(g, stacks, u[0]), u[1..], w);
    }
  }

  lemma {:induction false} NothingAccepts(g: Rules, w: Word)
    requires WellFormed(g) && NotLeftRecursive(g)
    ensures AcceptedAll(g, [], w) == []
    decreases |w|
  {
    if w != [] {
      NothingAccepts(g, w[1..]);
    }
  }

  /** No token is rejected with which the text can still be completed to one of the language. */
  lemma NeededTokenSurvives(g: Rules, start: nat, u: Word, w: Word, x: Word, partial: Partial)
    requires WellFormed(g) && NotLeftRecursive(g) && AltOf(g, start, 0) && partial.remain == 0
    requires RuleDerives(g, start, (u + w) + x)
    ensures SomeSurvives(g, AcceptedAll(g, InitialStacks(g, start, 0), u), w, partial)
  {
    var stacks := AcceptedAll(g, InitialStacks(g, start, 0), u);
    DerivesCompletions(g, start, u + w, x);
    AcceptedAllConcat(g, InitialStacks(g, start, 0), u, w);
    WholeTokenSurvives(g, stacks, w, partial);
  }

  /** What has been read of a character may become one that the class at p takes: for a regular class
      some completion is enough, an inverse class must be satisfied by every one. */
  ghost predicate MayBecome(g: Rules, p: Pos, partial: Partial)
    requires InRules(g, p)
  {
    if At(g, p).kind == CHAR then exists c: nat :: Completes(partial, c) && Matches(g, p, c)
    else Completable(partial) && forall c: nat :: Completes(partial, c) ==> Matches(g, p, c)
  }

  lemma GoesOnMeaning(g: Rules, s: Stack, partial: Partial)
    requires RangesOrdered(g) && Settled(g, s) && Plausible(partial) && partial.remain > 0
    ensures GoesOn(g, s, partial) <==> s != [] && MayBecome(g, Top(s), partial)
  {
    if s != [] {
      if At(g, Top(s)).kind == CHAR {
        PartialMatchMeaning(g, Top(s), partial);
      } else {
        InversePartialMatchMeaning(g, Top(s), partial);
      }
    }
  }

  /** A token that stops inside a character survives exactly when some stack after it has a class on
      top that the character may become one of. */
  lemma PartialTokenSurvivesExactly(g: Rules, stacks: Stacks, w: Word, partial: Partial)
    requires WellFormed(g) && NotLeftRecursive(g) && RangesOrdered(g) && AllSettled(g, stacks)
    requires Plausible(partial) && partial.remain > 0
    ensures SomeSurvives(g, stacks, w, partial) <==>
              exists i :: 0 <= i < |AcceptedAll(g, stacks, w)| && AcceptedAll(g, stacks, w)[i] != []
                && MayBecome(g, Top(AcceptedAll(g, stacks, w)[i]), partial)
  {
    SurvivalIsAcceptance(g, stacks, w, partial);
    var after := AcceptedAll(g, stacks, w);
    forall i | 0 <= i < |after| ensures GoesOn(g, after[i], partial) <==> after[i] != [] && MayBecome(g, Top(after[i]), partial) {
      GoesOnMeaning(g, after[i], partial);
    }
  }

  /** The stack reads c and then x, through a class that is regular, or inverse and satisfied by
      everything the character begun may become. */
  ghost predicate ReadsOn(g: Rules, s: Stack, c: nat, x: Word, partial: Partial)
    requires WellFormed(g) && Settled(g, s)
  {
    && s != [] && StackDerives(g, s, [c] + x)
    && (At(g, Top(s)).kind == CHAR_NOT ==> RangesOrdered(g) && forall d: nat :: Completes(partial, d) ==> Matches(g, Top(s), d))
  }

  ghost predicate SomeReadsOn(g: Rules, stacks: Stacks, c: nat, x: Word, partial: Partial)
    requires WellFormed(g) && AllSettled(g, stacks)
  {
    exists i :: 0 <= i < |stacks| && ReadsOn(g, stacks[i], c, x, partial)
  }

  /** Nor one that stops inside a character which bytes can complete to one that the language goes on
      with, if the class that reads it is regular, or inverse and satisfied by every completion. */
  lemma NeededPartialTokenSurvives(g: Rules, start: nat, u: Word, w: Word, c: nat, x: Word, partial: Partial)
    requires WellFormed(g) && NotLeftRecursive(g) && AltOf(g, start, 0)
    requires Plausible(partial) && partial.remain > 0 && Completes(partial, c)
    requires SomeReadsOn(g, AcceptedAll(g, InitialStacks(g, start, 0), u + w), c, x, partial)
    ensures SomeSurvives(g, AcceptedAll(g, InitialStacks(g, start, 0), u), w, partial)
    ensures RuleDerives(g, start, (u + w) + ([c] + x))
  {
    var stacks := AcceptedAll(g, InitialStacks(g, start, 0), u);
    AcceptedAllConcat(g, InitialStacks(g, start, 0), u, w);
    SurvivalIsAcceptance(g, stacks, w, partial);
    var after := AcceptedAll(g, stacks, w);
    var i :| 0 <= i < |after| && ReadsOn(g, after[i], c, x, partial);
    ReaderGoesOn(g, after[i], c, x, partial);
    DerivesCompletions(g, start, u + w, [c] + x);
  }

  lemma ReaderGoesOn(g: Rules, s: Stack, c: nat, x: Word, partial: Partial)
    requires WellFormed(g) && Settled(g, s) && ReadsOn(g, s, c, x, partial)
    requires Plausible(partial) && partial.remain > 0 && Completes(partial, c)
    ensures GoesOn(g, s, partial)
  {
    CompletionMeaning(partial, c);
    if At(g, Top(s)).kind == CHAR {
      DerivesPopped(g, s, c, x);
      CharMeets(g[Top(s).rule], Top(s).idx, LeastCompletion(partial), GreatestCompletion(partial), c);
    } else {
      InversePartialMatchMeaning(g, Top(s), partial);
    }
  }

  // ----- tokens

  type Text = seq<byte>

  /** Tokens that begin with these two bytes are not part of the text. */
  predicate Marker(text: Text) {
    |text| >= 2 && text[0] == 0x5B && text[1] == 0x5F
  }

  datatype State = State(stacks: Stacks, partial: Partial)

  function PointsOf(text: Text, partial: Partial): Word {
    var d := DecodeText(text, partial);
    d.codePoints[..|d.codePoints| - 1]
  }

  /** What a token does to the state. */
  function TokenAccepted(g: Rules, st: State, text: Text): (r: State)
    requires WellFormed(g) && NotLeftRecursive(g) && AllSettled(g, st.stacks)
    ensures AllSettled(g, r.stacks)
  {
    if g == [] || st.stacks == [] || Marker(text) then st
    else State(AcceptedAll(g, st.stacks, PointsOf(text, st.partial)), DecodeText(text, st.partial).partial)
  }

  function TokensAccepted(g: Rules, st: State, texts: seq<Text>): (r: State)
    requires WellFormed(g) && NotLeftRecursive(g) && AllSettled(g, st.stacks)
    ensures AllSettled(g, r.stacks)
    decreases |texts|
  {
    if texts == [] then st else TokensAccepted(g, TokenAccepted(g, st, texts[0]), texts[1..])
  }

  lemma {:induction false} StuckStays(g: Rules, st: State, texts: seq<Text>)
    requires WellFormed(g) && NotLeftRecursive(g) && st.stacks == []
    ensures TokensAccepted(g, st, texts) == st
    decreases |texts|
  {
    if texts != [] {
      StuckStays(g, st, texts[1..]);
    }
  }

  /** What the texts spell, each up to its first NUL. */
  function Spelt(texts: seq<Text>): Text {
    if texts == [] then [] else UpToNul(texts[0]) + Spelt(texts[1..])
  }

  /** The states that tokens leave are ones the decoder can leave. */
  lemma {:induction false} StatesPlausible(g: Rules, st: State, texts: seq<Text>)
    requires WellFormed(g) && NotLeftRecursive(g) && AllSettled(g, st.stacks) && Plausible(st.partial)
    ensures Plausible(TokensAccepted(g, st, texts).partial)
    decreases |texts|
  {
    if texts != [] {
      DecodedPlausible(UpToNul(texts[0]), st.partial);
      StatesPlausible(g, TokenAccepted(g, st, texts[0]), texts[1..]);
    }
  }

  /** The state after tokens that spell a clean text depends on the text alone, not on how it is
      cut into tokens; once no stack is left what is unfinished is no longer followed. */
  lemma {:induction false} OnlyTheTextMatters(g: Rules, st: State, texts: seq<Text>)
    requires WellFormed(g) && NotLeftRecursive(g) && AllSettled(g, st.stacks) && g != []
    requires Clean(Spelt(texts), st.partial)
    requires forall i :: 0 <= i < |texts| ==> !([0x5B, 0x5F] <= texts[i])
    ensures var fed := Feed(Spelt(texts), st.partial);
            var r := TokensAccepted(g, st, texts);
            && r.stacks == AcceptedAll(g, st.stacks, fed.points)
            && (r.stacks != [] ==> r.partial == fed.partial)
    decreases |texts|
  {
    var fed := Feed(Spelt(texts), st.partial);
    if st.stacks == [] {
      StuckStays(g, st, texts);
      NothingAccepts(g, fed.points);
    } else if texts != [] {
      var first, rest := UpToNul(texts[0]), Spelt(texts[1..]);
      FeedConcat(first, rest, st.partial);
      DecodeFeeds(first, st.partial);
      var fedFirst := Feed(first, st.partial);
      assert PointsOf(texts[0], st.partial) == fedFirst.points;
      OnlyTheTextMatters(g, TokenAccepted(g, st, texts[0]), texts[1..]);
      AcceptedAllConcat(g, st.stacks, fedFirst.points, Feed(rest, fedFirst.partial).points);
    }
  }

  /** From start to end: whatever tokens spell the encoding of a word, the empty stack is among
      the stacks after them exactly when the word is in the grammar's language. */
  lemma TokensSpellLanguage(g: Rules, start: nat, texts: seq<Text>, points: CodePoints)
    requires WellFormed(g) && NotLeftRecursive(g) && AltOf(g, start, 0)
    requires Encodable(points) && Spelt(texts) == EncodeAll(points)
    requires forall i :: 0 <= i < |texts| ==> !([0x5B, 0x5F] <= texts[i])
    ensures [] in TokensAccepted(g, State(InitialStacks(g, start, 0), FRESH), texts).stacks <==> RuleDerives(g, start, points)
  {
    DecodeUndoesEncode(points, FRESH);
    OnlyTheTextMatters(g, State(InitialStacks(g, start, 0), FRESH), texts);
    RecognisesLanguage(g, start, points);
  }

  // ----- the grammar in use

  function CandidateOf(id: nat, text: Text, partial: Partial): (c: Candidate)
    ensures ValidCandidate(c)
  {
    Candidate(id, DecodeText(text, partial).codePoints, 0, DecodeText(text, partial).partial)
  }

  /** The grammar can take the token as it stands. */
  ghost predicate Allows(g: Rules, st: State, text: Text)
    requires WellFormed(g) && NotLeftRecursive(g) && AllSettled(g, st.stacks)
  {
    var c := CandidateOf(0, text, st.partial);
    SomeSurvives(g, st.stacks, WordOf(c), c.partial)
  }

  /** The code points before the first 0. */
  function UpToZero(w: Word): Word {
    if w == [] || w[0] == 0 then [] else [w[0]] + UpToZero(w[1..])
  }

  lemma {:induction false} FirstZero(w: Word)
    ensures UpToZero(w) <= w && 0 !in UpToZero(w)
    ensures |UpToZero(w)| < |w| ==> w[|UpToZero(w)|] == 0
    ensures 0 in w <==> UpToZero(w) != w
    decreases |w|
  {
    if w != [] && w[0] != 0 {
      FirstZero(w[1..]);
    }
  }

  lemma {:induction false} UnreadUpToZero(points: CodePoints, at: nat)
    requires at <= |points|
    ensures Unread(points + [0], at) == UpToZero(points[at..])
    decreases |points| - at
  {
    if at < |points| {
      UnreadUpToZero(points, at + 1);
      assert points[at..][1..] == points[at + 1..];
    }
  }

  /** Being allowed is what accepting the token says of it. */
  ghost predicate Agrees(g: Rules, st: State, text: Text)
    requires WellFormed(g) && NotLeftRecursive(g) && AllSettled(g, st.stacks)
  {
    Allows(g, st, text) <==> SomeGoesOn(g, TokenAccepted(g, st, text).stacks, TokenAccepted(g, st, text).partial)
  }

  lemma AllowedUpToZero(g: Rules, st: State, text: Text)
    requires WellFormed(g) && NotLeftRecursive(g) && AllSettled(g, st.stacks)
    ensures Allows(g, st, text) <==>
              SomeGoesOn(g, AcceptedAll(g, st.stacks, UpToZero(PointsOf(text, st.partial))), DecodeText(text, st.partial).partial)
  {
    var c := CandidateOf(0, text, st.partial);
    var points := PointsOf(text, st.partial);
    assert c.codePoints == points + [0];
    UnreadUpToZero(points, 0);
    assert points[0..] == points;
    SurvivalIsAcceptance(g, st.stacks, UpToZero(points), c.partial);
  }

  /** A token is allowed exactly when accepting its code points, up to the first that is 0, leaves a
      stack that can go on; so it is when accepting all of it does, if none is 0. */
  lemma AllowedTokenCanBeAccepted(g: Rules, st: State, text: Text)
    requires WellFormed(g) && NotLeftRecursive(g) && AllSettled(g, st.stacks)
    ensures Allows(g, st, text) <==>
              SomeGoesOn(g, AcceptedAll(g, st.stacks, UpToZero(PointsOf(text, st.partial))), DecodeText(text, st.partial).partial)
    ensures g != [] && st.stacks != [] && !([0x5B, 0x5F] <= text) && 0 !in PointsOf(text, st.partial) ==> Agrees(g, st, text)
  {
    AllowedUpToZero(g, st, text);
    FirstZero(PointsOf(text, st.partial));
  }

  ghost predicate Penalised(g: Rules, st: State, texts: seq<Text>, id: nat)
    requires WellFormed(g) && NotLeftRecursive(g) && AllSettled(g, st.stacks)
  {
    g != [] && st.stacks != [] && id < |texts| && texts[id] != [] && !Allows(g, st, texts[id])
  }

  /** The candidates are the non-empty texts, each once. */
  ghost predicate CandidatesOf(texts: seq<Text>, partial: Partial, n: nat, cs: seq<Candidate>) {
    && n <= |texts|
    && (forall c :: c in cs ==> c.id < n && texts[c.id] != [] && c == CandidateOf(c.id, texts[c.id], partial))
    && (forall id :: 0 <= id < n && texts[id] != [] ==> multiset(cs)[CandidateOf(id, texts[id], partial)] == 1)
  }

  lemma AcceptNext(g: Rules, stacks: Stacks, points: Word, i: nat)
    requires WellFormed(g) && NotLeftRecursive(g) && AllSettled(g, stacks) && i < |points|
    ensures AcceptedAll(g, stacks, points[i..]) == AcceptedAll(g, Accepted(g, stacks, points[i]), points[i + 1..])
  {
    assert points[i..][1..] == points[i + 1..];
  }

  class Grammar {
    var rules: Rules
    var stacks: Stacks
    var partial: Partial

    ghost predicate Valid()
      reads this
    {
      WellFormed(rules) && NotLeftRecursive(rules) && AllSettled(rules, stacks)
    }

    ghost function Now(): State
      reads this
    {
      State(stacks, partial)
    }

    constructor (g: Rules, start: nat)
      requires WellFormed(g) && NotLeftRecursive(g) && start < |g|
      ensures Valid() && rules == g
      ensures AltOf(g, start, 0) && Now() == State(InitialStacks(g, start, 0), FRESH)
    {
      rules, partial := g, FRESH;
      var initial := Init(g, start);
      stacks := initial;
    }

    method AcceptPoints(points: Word)
      requires Valid()
      modifies this`stacks
      ensures Valid() && stacks == AcceptedAll(rules, old(stacks), points)
    {
      ghost var all := AcceptedAll(rules, stacks, points);
      assert points[0..] == points;
      for i := 0 to |points|
        invariant Valid() && AcceptedAll(rules, stacks, points[i..]) == all
      {
        AcceptNext(rules, stacks, points, i);
        stacks := Accept(rules, stacks, points[i]);
      }
    }

    method AcceptToken(text: Text)
      requires Valid()
      modifies this
      ensures Valid() && rules == old(rules)
      ensures Now() == TokenAccepted(rules, old(Now()), text)
      // exactly the texts that begin with these two bytes are skipped
      ensures [0x5B, 0x5F] <= text || rules == [] || old(stacks) == [] ==> Now() == old(Now())
      ensures !([0x5B, 0x5F] <= text) && rules != [] && old(stacks) != [] ==>
                && stacks == AcceptedAll(rules, old(stacks), PointsOf(text, old(partial)))
                && partial == DecodeText(text, old(partial)).partial
    {
      if rules == [] || stacks == [] {
        return;
      }
      if |text| >= 2 && text[0] == 0x5B && text[1] == 0x5F {
        return;
      }
      var decoded := Decode(text, partial);
      var points := decoded.codePoints[..|decoded.codePoints| - 1];
      AcceptPoints(points);
      partial := decoded.partial;
    }

    method Candidates(texts: seq<Text>) returns (cs: seq<Candidate>)
      ensures CandidatesOf(texts, partial, |texts|, cs)
    {
      cs := [];
      for id := 0 to |texts|
        invariant CandidatesOf(texts, partial, id, cs)
      {
        if texts[id] != [] {
          var decoded := Decode(texts[id], partial);
          OneMoreCandidate(texts, partial, id, cs);
          cs := cs + [Candidate(id, decoded.codePoints, 0, decoded.partial)];
        }
      }
    }

    /** Takes the penalty off the logit of every token that the grammar cannot take, once. */
    method SuppressInvalid(texts: seq<Text>, logits: array<real>, penalty: real)
      requires Valid() && logits.Length >= |texts|
      modifies logits
      ensures forall id :: 0 <= id < logits.Length ==>
                logits[id] == old(logits[id]) - if Penalised(rules, Now(), texts, id) then penalty else 0.0
    {
      if rules == [] || stacks == [] {
        return;
      }
      var cs := Candidates(texts);
      var rejects := Rejects(cs);
      RejectedOnce(rules, Now(), texts, cs, rejects);
      Penalise(rejects, logits, penalty);
    }

    method Rejects(cs: seq<Candidate>) returns (rejects: seq<Candidate>)
      requires Valid() && AllValid(cs) && stacks != []
      ensures RejectsOfAll(rules, stacks, cs, rejects)
    {
      ghost var n := LongestOf(cs);
      rejects := RejectCandidates(rules, stacks, cs, n);
    }
  }

  ghost function LongestOf(cs: seq<Candidate>): (n: nat)
    requires AllValid(cs)
    ensures ReadableWithin(cs, n)
  {
    if cs == [] then 0
    else
      var m := LongestOf(cs[..|cs| - 1]);
      var k := |cs[|cs| - 1].codePoints|;
      if m < k then k else m
  }

  predicate HasId(cs: seq<Candidate>, id: nat) {
    exists i :: 0 <= i < |cs| && cs[i].id == id
  }

  method Penalise(rejects: seq<Candidate>, logits: array<real>, penalty: real)
    requires forall i :: 0 <= i < |rejects| ==> rejects[i].id < logits.Length
    requires forall i, j :: 0 <= i < j < |rejects| ==> rejects[i].id != rejects[j].id
    modifies logits
    ensures forall id :: 0 <= id < logits.Length ==> logits[id] == old(logits[id]) - if HasId(rejects, id) then penalty else 0.0
  {
    for i := 0 to |rejects|
      invariant forall id :: 0 <= id < logits.Length ==>
                  logits[id] == old(logits[id]) - if HasId(rejects[..i], id) then penalty else 0.0
    {
      OneMoreId(rejects, i);
      logits[rejects[i].id] := logits[rejects[i].id] - penalty;
    }
    assert rejects[..|rejects|] == rejects;
  }

  lemma OneMoreId(cs: seq<Candidate>, i: nat)
    requires i < |cs|
    requires forall k, j :: 0 <= k < j < |cs| ==> cs[k].id != cs[j].id
    ensures !HasId(cs[..i], cs[i].id)
    ensures forall id: nat :: HasId(cs[..i + 1], id) <==> HasId(cs[..i], id) || id == cs[i].id
  {
    forall id: nat ensures HasId(cs[..i + 1], id) <==> HasId(cs[..i], id) || id == cs[i].id {
      assert cs[..i + 1][i] == cs[i];
      if HasId(cs[..i], id) {
        var k :| 0 <= k < i && cs[..i][k].id == id;
        assert cs[..i + 1][k].id == id;
      }
    }
  }

  lemma OneMoreCandidate(texts: seq<Text>, partial: Partial, id: nat, cs: seq<Candidate>)
    requires id < |texts| && texts[id] != [] && CandidatesOf(texts, partial, id, cs)
    ensures CandidatesOf(texts, partial, id + 1, cs + [CandidateOf(id, texts[id], partial)])
  {
    var c := CandidateOf(id, texts[id], partial);
    assert c !in cs;
    assert multiset(cs)[c] == 0;
  }

  /** Rejected ids are different from each other, and are those of the penalised tokens. */
  lemma RejectedOnce(g: Rules, st: State, texts: seq<Text>, cs: seq<Candidate>, rejects: seq<Candidate>)
    requires WellFormed(g) && NotLeftRecursive(g) && AllSettled(g, st.stacks) && g != [] && st.stacks != []
    requires CandidatesOf(texts, st.partial, |texts|, cs) && AllValid(cs) && RejectsOfAll(g, st.stacks, cs, rejects)
    ensures forall i :: 0 <= i < |rejects| ==> rejects[i].id < |texts|
    ensures forall i, j :: 0 <= i < j < |rejects| ==> rejects[i].id != rejects[j].id
    ensures forall id: nat :: HasId(rejects, id) <==> Penalised(g, st, texts, id)
  {
    forall i, j | 0 <= i < j < |rejects| ensures rejects[i].id != rejects[j].id {
      if rejects[i].id == rejects[j].id {
        assert rejects[i] in cs && rejects[j] in cs;
        assert rejects[i] == rejects[j];
        TwiceCounts(rejects, i, j);
      }
    }
    forall id: nat ensures HasId(rejects, id) <==> Penalised(g, st, texts, id) {
      RejectedIsPenalised(g, st, texts, cs, rejects, id);
    }
  }

  lemma TwiceCounts(cs: seq<Candidate>, i: nat, j: nat)
    requires i < j < |cs| && cs[i] == cs[j]
    ensures multiset(cs)[cs[i]] >= 2
  {
    assert cs == cs[..i] + [cs[i]] + cs[i + 1..j] + [cs[j]] + cs[j + 1..];
  }

  lemma RejectedIsPenalised(g: Rules, st: State, texts: seq<Text>, cs: seq<Candidate>, rejects: seq<Candidate>, id: nat)
    requires WellFormed(g) && NotLeftRecursive(g) && AllSettled(g, st.stacks) && g != [] && st.stacks != []
    requires CandidatesOf(texts, st.partial, |texts|, cs) && AllValid(cs) && RejectsOfAll(g, st.stacks, cs, rejects)
    ensures HasId(rejects, id) <==> Penalised(g, st, texts, id)
  {
    if id < |texts| && texts[id] != [] {
      var c := CandidateOf(id, texts[id], st.partial);
      assert multiset(cs)[c] == 1;
      assert c in cs;
      if HasId(rejects, id) {
        var i :| 0 <= i < |rejects| && rejects[i].id == id;
        assert rejects[i] in cs;
        assert c in rejects;
        assert multiset(rejects)[c] > 0;
      }
      if !Allows(g, st, texts[id]) {
        assert multiset(rejects)[c] == 1;
        assert c in rejects;
      }
    } else {
      forall i | 0 <= i < |rejects| ensures rejects[i].id != id {
        assert rejects[i] in cs;
      }
    }
  }
}
