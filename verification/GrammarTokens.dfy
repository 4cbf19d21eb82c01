/** The grammar as the decoder uses it: tokens are texts, cut anywhere, and candidates that the
    grammar cannot take are rejected in one go. */
module GrammarTokens {
  import opened Utf8
  import opened GrammarRules
  import opened GrammarStacks

  // ----- characters that have not arrived whole

  function Pow64(n: nat): (r: nat)
    ensures r >= 1
  {
    if n == 0 then 1 else 64 * Pow64(n - 1)
  }

  /** The least code point a partial sequence can be completed to; shorter encodings excluded. */
  function LeastCompletion(partial: Partial): nat
    requires partial.remain > 0
  {
    var low := (partial.value * Pow64(partial.remain)) % 0x1_0000_0000;
    if low == 0 && partial.remain == 2 then 0x800
    else if low == 0 && partial.remain == 3 then 0x10000
    else low
  }

  function GreatestCompletion(partial: Partial): nat
    requires partial.remain > 0
  {
    (partial.value * Pow64(partial.remain)) % 0x1_0000_0000 + Pow64(partial.remain) - 1
  }

  /** Some range of the class part at i meets [low, high]. */
  predicate ClassMeets(r: Rule, i: nat, low: nat, high: nat)
    requires i < |r|
    decreases |r| - i
  {
    if i + 1 < |r| && r[i + 1].kind == CHAR_RNG_UPPER then
      (r[i].value <= high && low <= r[i + 1].value) || (i + 2 < |r| && r[i + 2].kind == CHAR_ALT && ClassMeets(r, i + 2, low, high))
    else
      low <= r[i].value <= high || (i + 1 < |r| && r[i + 1].kind == CHAR_ALT && ClassMeets(r, i + 1, low, high))
  }

  /** Neither an invalid sequence nor a seven-bit character in two bytes. */
  predicate Completable(partial: Partial) {
    !(partial.remain < 0 || (partial.remain == 1 && partial.value < 2))
  }

  predicate PartialMatches(g: Rules, p: Pos, partial: Partial)
    requires InRules(g, p) && partial.remain != 0
  {
    Completable(partial)
    && ClassMeets(g[p.rule], p.idx, LeastCompletion(partial), GreatestCompletion(partial)) == (At(g, p).kind == CHAR)
  }

  method MatchPartialChar(g: Rules, start: Pos, partial: Partial) returns (matched: bool)
    requires WellFormed(g) && InRules(g, start) && IsCharStart(At(g, start)) && partial.remain != 0
    ensures matched == PartialMatches(g, start, partial)
  {
    var r := g[start.rule];
    assert WellFormedRule(r, |g|);
    var isPositive := r[start.idx].kind == CHAR;
    if partial.remain < 0 || (partial.remain == 1 && partial.value < 2) {
      return false;
    }
    var low: nat := (partial.value * Pow64(partial.remain)) % 0x1_0000_0000;
    var high: nat := low + (Pow64(partial.remain) - 1);
    if low == 0 {
      if partial.remain == 2 {
        low := 0x800;
      } else if partial.remain == 3 {
        low := 0x10000;
      }
    }
    var i := start.idx;
    var more := true;
    while more
      invariant start.idx <= i < |r|
      invariant more ==> IsCharStart(r[i]) || r[i].kind == CHAR_ALT
      invariant more ==> ClassMeets(r, start.idx, low, high) == ClassMeets(r, i, low, high)
      invariant !more ==> !ClassMeets(r, start.idx, low, high)
      decreases |r| - i, more
    {
      if r[i + 1].kind == CHAR_RNG_UPPER {
        if r[i].value <= high && low <= r[i + 1].value {
          return isPositive;
        }
        i := i + 2;
      } else {
        if low <= r[i].value <= high {
          return isPositive;
        }
        i := i + 1;
      }
      more := r[i].kind == CHAR_ALT;
    }
    matched := !isPositive;
  }

  /** No range is upside down. */
  predicate RangesOrdered(g: Rules) {
    forall r, i :: 0 <= r < |g| && 0 < i < |g[r]| && g[r][i].kind == CHAR_RNG_UPPER ==> g[r][i - 1].value <= g[r][i].value
  }

  /** A character of the class in [low, high] makes the class meet it. */
  lemma {:induction false} CharMeets(r: Rule, i: nat, low: nat, high: nat, c: nat)
    requires i < |r| && low <= c <= high && HasChar(r, i, c)
    ensures ClassMeets(r, i, low, high)
    decreases |r| - i
  {
    if i + 1 < |r| && r[i + 1].kind == CHAR_RNG_UPPER {
      if !(r[i].value <= c <= r[i + 1].value) {
        CharMeets(r, i + 2, low, high, c);
      }
    } else if r[i].value != c {
      CharMeets(r, i + 1, low, high, c);
    }
  }

  /** With no range upside down, a class that meets [low, high] has a character in it. */
  lemma {:induction false} MeetsInChar(g: Rules, rule: nat, i: nat, low: nat, high: nat) returns (c: nat)
    requires RangesOrdered(g) && rule < |g| && i < |g[rule]| && low <= high && ClassMeets(g[rule], i, low, high)
    ensures low <= c <= high && HasChar(g[rule], i, c)
    decreases |g[rule]| - i
  {
    var r := g[rule];
    if i + 1 < |r| && r[i + 1].kind == CHAR_RNG_UPPER {
      if r[i].value <= high && low <= r[i + 1].value {
        c := if low <= r[i].value then r[i].value else low;
      } else {
        c := MeetsInChar(g, rule, i + 2, low, high);
      }
    } else if low <= r[i].value <= high {
      c := r[i].value;
    } else {
      c := MeetsInChar(g, rule, i + 1, low, high);
    }
  }

  // ----- what the range stands for

  /** These bytes complete the sequence to the character c, and c could not have been written in fewer
      bytes than the sequence has at least. */
  predicate CompletedBy(partial: Partial, bytes: seq<byte>, c: nat) {
    |bytes| == partial.remain && Clean(bytes, partial) && Feed(bytes, partial).points == [c] && BytesNeeded(c) > partial.remain
  }

  ghost predicate Completes(partial: Partial, c: nat) {
    exists bytes: seq<byte> :: CompletedBy(partial, bytes, c)
  }

  /** value with the payload of the bytes behind it. */
  function Number(value: nat, bytes: seq<byte>): nat
    decreases |bytes|
  {
    if bytes == [] then value else Number(value * 64 + bytes[0] % 64, bytes[1..])
  }

  lemma {:induction false} FedIsNumber(bytes: seq<byte>, partial: Partial)
    requires Plausible(partial) && |bytes| == partial.remain > 0 && Clean(bytes, partial)
    ensures Feed(bytes, partial).points == [Number(partial.value, bytes)]
    decreases |bytes|
  {
    var next := FeedByte(partial, bytes[0]).partial;
    assert next == Partial(partial.value * 64 + bytes[0] % 64, partial.remain - 1);
    if partial.remain > 1 {
      FedIsNumber(bytes[1..], next);
    }
  }

  lemma {:induction false} ContinuationsAreClean(bytes: seq<byte>, partial: Partial)
    requires |bytes| <= partial.remain && forall i :: 0 <= i < |bytes| ==> IsContinuation(bytes[i])
    ensures Clean(bytes, partial)
    decreases |bytes|
  {
    if bytes != [] {
      ContinuationsAreClean(bytes[1..], FeedByte(partial, bytes[0]).partial);
    }
  }

  lemma NumberOfOne(value: nat, a: byte)
    ensures Number(value, [a]) == value * 64 + a % 64
  {
    assert [a][1..] == [];
  }

  lemma NumberOfTwo(value: nat, a: byte, b: byte)
    ensures Number(value, [a, b]) == (value * 64 + a % 64) * 64 + b % 64
  {
    assert [a, b][1..] == [b];
    NumberOfOne(value * 64 + a % 64, b);
  }

  lemma NumberOfThree(value: nat, a: byte, b: byte, c: byte)
    ensures Number(value, [a, b, c]) == ((value * 64 + a % 64) * 64 + b % 64) * 64 + c % 64
  {
    assert [a, b, c][1..] == [b, c];
    NumberOfTwo(value * 64 + a % 64, b, c);
  }

  /** The number lies in the range the value leaves open. */
  lemma NumberInRange(value: nat, bytes: seq<byte>)
    requires 0 < |bytes| <= 3
    ensures value * Pow64(|bytes|) <= Number(value, bytes) < value * Pow64(|bytes|) + Pow64(|bytes|)
  {
    if |bytes| == 1 {
      assert bytes == [bytes[0]];
      NumberOfOne(value, bytes[0]);
    } else if |bytes| == 2 {
      assert bytes == [bytes[0], bytes[1]];
      NumberOfTwo(value, bytes[0], bytes[1]);
      assert Pow64(2) == 4096;
    } else {
      assert bytes == [bytes[0], bytes[1], bytes[2]];
      NumberOfThree(value, bytes[0], bytes[1], bytes[2]);
      assert Pow64(2) == 4096 && Pow64(3) == 262144;
    }
  }

  /** Continuation bytes for every number in that range. */
  lemma BytesFor(value: nat, n: nat, rest: nat) returns (bytes: seq<byte>)
    requires 0 < n <= 3 && rest < Pow64(n)
    ensures |bytes| == n && Number(value, bytes) == value * Pow64(n) + rest
    ensures forall i :: 0 <= i < n ==> IsContinuation(bytes[i])
  {
    assert Pow64(1) == 64 && Pow64(2) == 4096 && Pow64(3) == 262144;
    if n == 1 {
      bytes := [Six(rest)];
      NumberOfOne(value, bytes[0]);
    } else if n == 2 {
      TwoDigits(rest);
      bytes := [Six(rest / 64), Six(rest % 64)];
      NumberOfTwo(value, bytes[0], bytes[1]);
    } else {
      ThreeDigits(rest);
      bytes := [Six(rest / 4096), Six(rest / 64 % 64), Six(rest % 64)];
      NumberOfThree(value, bytes[0], bytes[1], bytes[2]);
    }
  }

  /** The continuation byte with this payload. */
  function Six(digit: nat): (b: byte)
    requires digit < 64
    ensures IsContinuation(b) && b % 64 == digit
  {
    0x80 + digit
  }

  lemma TwoDigits(rest: nat)
    requires rest < 4096
    ensures rest / 64 < 64 && rest / 64 * 64 + rest % 64 == rest
  {
  }

  lemma ThreeDigits(rest: nat)
    requires rest < 262144
    ensures rest / 4096 < 64 && rest / 64 % 64 < 64 && (rest / 4096 * 64 + rest / 64 % 64) * 64 + rest % 64 == rest
  {
    var q := rest / 64;
    assert rest / 4096 == q / 64;
  }

  lemma RangeOf(partial: Partial)
    requires Plausible(partial) && partial.remain > 0
    ensures GreatestCompletion(partial) == partial.value * Pow64(partial.remain) + Pow64(partial.remain) - 1
    ensures Completable(partial) ==> forall c: nat ::
              LeastCompletion(partial) <= c <= GreatestCompletion(partial) <==>
              partial.value * Pow64(partial.remain) <= c <= GreatestCompletion(partial) && BytesNeeded(c) > partial.remain
    ensures !Completable(partial) ==> forall c: nat :: c <= GreatestCompletion(partial) ==> BytesNeeded(c) <= partial.remain
  {
    assert Pow64(1) == 64 && Pow64(2) == 4096 && Pow64(3) == 262144;
  }

  /** What the range stands for: the characters in it are those that some bytes complete the sequence to. */
  lemma CompletionMeaning(partial: Partial, c: nat)
    requires Plausible(partial) && partial.remain > 0
    ensures Completes(partial, c) <==> Completable(partial) && LeastCompletion(partial) <= c <= GreatestCompletion(partial)
  {
    RangeOf(partial);
    forall bytes: seq<byte> | CompletedBy(partial, bytes, c)
      ensures Completable(partial) && LeastCompletion(partial) <= c <= GreatestCompletion(partial)
    {
      FedIsNumber(bytes, partial);
      NumberInRange(partial.value, bytes);
    }
    if Completable(partial) && LeastCompletion(partial) <= c <= GreatestCompletion(partial) {
      var bytes := BytesFor(partial.value, partial.remain, c - partial.value * Pow64(partial.remain));
      ContinuationsAreClean(bytes, partial);
      FedIsNumber(bytes, partial);
      assert CompletedBy(partial, bytes, c);
    }
  }

  /** A regular class matches a partial sequence exactly when bytes can complete it to a character of
      the class. */
  lemma PartialMatchMeaning(g: Rules, p: Pos, partial: Partial)
    requires RangesOrdered(g) && InRules(g, p) && At(g, p).kind == CHAR
    requires Plausible(partial) && partial.remain > 0
    ensures PartialMatches(g, p, partial) <==> exists c: nat :: Completes(partial, c) && Matches(g, p, c)
  {
    var low, high := LeastCompletion(partial), GreatestCompletion(partial);
    if PartialMatches(g, p, partial) {
      RangeNotEmpty(partial);
      var c := MeetsInChar(g, p.rule, p.idx, low, high);
      CompletionMeaning(partial, c);
      assert Completes(partial, c) && Matches(g, p, c);
    }
    forall c: nat | Completes(partial, c) && Matches(g, p, c) ensures PartialMatches(g, p, partial) {
      CompletionMeaning(partial, c);
      CharMeets(g[p.rule], p.idx, low, high, c);
    }
  }

  /** An inverse class matches only when every character that bytes can complete the sequence to
      satisfies it. */
  lemma InversePartialMatchMeaning(g: Rules, p: Pos, partial: Partial)
    requires RangesOrdered(g) && InRules(g, p) && At(g, p).kind == CHAR_NOT
    requires Plausible(partial) && partial.remain > 0
    ensures PartialMatches(g, p, partial) <==> Completable(partial) && forall c: nat :: Completes(partial, c) ==> Matches(g, p, c)
  {
    var low, high := LeastCompletion(partial), GreatestCompletion(partial);
    if Completable(partial) && !PartialMatches(g, p, partial) {
      RangeNotEmpty(partial);
      var c := MeetsInChar(g, p.rule, p.idx, low, high);
      CompletionMeaning(partial, c);
      assert Completes(partial, c) && !Matches(g, p, c);
    }
    forall c: nat | Completes(partial, c) && !Matches(g, p, c) ensures !PartialMatches(g, p, partial) {
      CompletionMeaning(partial, c);
      CharMeets(g[p.rule], p.idx, low, high, c);
    }
  }

  lemma RangeNotEmpty(partial: Partial)
    requires Plausible(partial) && partial.remain > 0
    ensures LeastCompletion(partial) <= GreatestCompletion(partial)
  {
    assert Pow64(1) == 64 && Pow64(2) == 4096 && Pow64(3) == 262144;
  }

  // ----- candidates

  /** A token: its code points with the terminating 0, how far they have been read, and what
      it leaves unfinished. */
  datatype Candidate = Candidate(id: nat, codePoints: CodePoints, at: nat, partial: Partial)

  predicate ValidCandidate(c: Candidate) {
    c.at < |c.codePoints| && c.codePoints[|c.codePoints| - 1] == 0
  }

  /** The code points from here to the next 0. */
  function Unread(points: CodePoints, at: nat): Word
    requires at <= |points|
    decreases |points| - at
  {
    if at == |points| || points[at] == 0 then [] else [points[at]] + Unread(points, at + 1)
  }

  function WordOf(c: Candidate): Word
    requires ValidCandidate(c)
  {
    Unread(c.codePoints, c.at)
  }

  function Read(c: Candidate): Candidate {
    c.(at := c.at + 1)
  }

  /** The stack can take the word and can still go on to what is unfinished. */
  ghost predicate Survives(g: Rules, s: Stack, w: Word, partial: Partial)
    requires WellFormed(g) && NotLeftRecursive(g) && Settled(g, s)
    decreases |w|, 0
  {
    if s == [] then w == [] && partial.remain == 0
    else if w == [] then partial.remain == 0 || PartialMatches(g, Top(s), partial)
    else
      AdvanceSettles(g, Popped(g, s));
      Matches(g, Top(s), w[0]) && SomeSurvives(g, Advance(g, Popped(g, s)), w[1..], partial)
  }

  ghost predicate SomeSurvives(g: Rules, stacks: Stacks, w: Word, partial: Partial)
    requires WellFormed(g) && NotLeftRecursive(g) && AllSettled(g, stacks)
    decreases |w|, 1
  {
    exists i :: 0 <= i < |stacks| && Survives(g, stacks[i], w, partial)
  }

  ghost predicate AllValid(cs: seq<Candidate>) {
    forall i :: 0 <= i < |cs| ==> ValidCandidate(cs[i])
  }

  /** rejects are the candidates the stack does not let survive, each as often as it was there. */
  ghost predicate RejectsOf(g: Rules, s: Stack, candidates: seq<Candidate>, rejects: seq<Candidate>)
    requires WellFormed(g) && NotLeftRecursive(g) && Settled(g, s) && AllValid(candidates)
  {
    && (forall c :: c in rejects ==> c in candidates)
    && (forall c :: c in candidates ==>
          multiset(rejects)[c] == if Survives(g, s, WordOf(c), c.partial) then 0 else multiset(candidates)[c])
  }

  ghost predicate RejectsOfAll(g: Rules, stacks: Stacks, candidates: seq<Candidate>, rejects: seq<Candidate>)
    requires WellFormed(g) && NotLeftRecursive(g) && AllSettled(g, stacks) && AllValid(candidates)
  {
    && (forall c :: c in rejects ==> c in candidates)
    && (forall c :: c in candidates ==>
          multiset(rejects)[c] == if SomeSurvives(g, stacks, WordOf(c), c.partial) then 0 else multiset(candidates)[c])
  }

  ghost predicate ReadableWithin(cs: seq<Candidate>, n: nat) {
    forall i :: 0 <= i < |cs| ==> ValidCandidate(cs[i]) && |cs[i].codePoints| - cs[i].at <= n
  }

  /** The empty stack takes only what has been read completely. */
  method RejectAtEnd(g: Rules, candidates: seq<Candidate>) returns (rejects: seq<Candidate>)
    requires WellFormed(g) && NotLeftRecursive(g) && AllValid(candidates)
    ensures RejectsOf(g, [], candidates, rejects)
  {
    rejects := [];
    for i := 0 to |candidates|
      invariant forall c :: c in rejects ==> c in candidates[..i]
      invariant forall c :: c in candidates[..i] ==>
                  multiset(rejects)[c] == if Survives(g, [], WordOf(c), c.partial) then 0 else multiset(candidates[..i])[c]
    {
      var tok := candidates[i];
      assert candidates[..i + 1] == candidates[..i] + [tok];
      if tok.codePoints[tok.at] != 0 || tok.partial.remain != 0 {
        rejects := rejects + [tok];
      }
    }
    assert candidates[..|candidates|] == candidates;
  }

  /** Top takes the next code point of c. */
  predicate PassesOn(g: Rules, p: Pos, c: Candidate)
    requires InRules(g, p) && ValidCandidate(c)
  {
    c.codePoints[c.at] != 0 && Matches(g, p, c.codePoints[c.at])
  }

  /** Rejected at once: the next code point does not match, or what is unfinished cannot. */
  predicate RejectedHere(g: Rules, p: Pos, c: Candidate)
    requires InRules(g, p) && ValidCandidate(c)
  {
    if c.codePoints[c.at] == 0 then c.partial.remain != 0 && !PartialMatches(g, p, c.partial)
    else !Matches(g, p, c.codePoints[c.at])
  }

  ghost predicate AllRead(cs: seq<Candidate>) {
    forall c :: c in cs ==> c.at > 0
  }

  function RejectedAt(g: Rules, top: Pos, cs: seq<Candidate>): seq<Candidate>
    requires InRules(g, top) && AllValid(cs)
  {
    if cs == [] then []
    else RejectedAt(g, top, cs[..|cs| - 1]) + if RejectedHere(g, top, cs[|cs| - 1]) then [cs[|cs| - 1]] else []
  }

  function PassedOnAt(g: Rules, top: Pos, cs: seq<Candidate>): seq<Candidate>
    requires InRules(g, top) && AllValid(cs)
  {
    if cs == [] then []
    else PassedOnAt(g, top, cs[..|cs| - 1]) + if PassesOn(g, top, cs[|cs| - 1]) then [Read(cs[|cs| - 1])] else []
  }

  lemma {:induction false} RejectedCount(g: Rules, top: Pos, cs: seq<Candidate>, c: Candidate)
    requires InRules(g, top) && AllValid(cs) && ValidCandidate(c)
    ensures multiset(RejectedAt(g, top, cs))[c] == if RejectedHere(g, top, c) then multiset(cs)[c] else 0
  {
    if cs != [] {
      RejectedCount(g, top, cs[..|cs| - 1], c);
      assert cs == cs[..|cs| - 1] + [cs[|cs| - 1]];
    }
  }

  lemma {:induction false} PassedOnCount(g: Rules, top: Pos, cs: seq<Candidate>, c: Candidate)
    requires InRules(g, top) && AllValid(cs) && ValidCandidate(c)
    ensures multiset(PassedOnAt(g, top, cs))[Read(c)] == if PassesOn(g, top, c) then multiset(cs)[c] else 0
  {
    if cs != [] {
      var front, last := cs[..|cs| - 1], cs[|cs| - 1];
      PassedOnCount(g, top, front, c);
      assert cs == front + [last];
      AppendedCount(front, last, c);
      AppendedCount(PassedOnAt(g, top, front), Read(last), Read(c));
    }
  }

  lemma AppendedCount(cs: seq<Candidate>, last: Candidate, c: Candidate)
    ensures multiset(cs + [last])[c] == multiset(cs)[c] + if last == c then 1 else 0
  {
  }

  lemma {:induction false} FromCandidates(g: Rules, top: Pos, cs: seq<Candidate>, c: Candidate)
    requires InRules(g, top) && AllValid(cs)
    ensures c in RejectedAt(g, top, cs) || Read(c) in PassedOnAt(g, top, cs) ==> c in cs
  {
    if cs != [] {
      FromCandidates(g, top, cs[..|cs| - 1], c);
      assert cs == cs[..|cs| - 1] + [cs[|cs| - 1]];
    }
  }

  /** Sorts candidates by what the character class on top of a stack does to them. */
  method SortOut(g: Rules, top: Pos, candidates: seq<Candidate>, ghost n: nat) returns (rejects: seq<Candidate>, next: seq<Candidate>)
    requires WellFormed(g) && InRules(g, top) && IsCharStart(At(g, top)) && n > 0 && ReadableWithin(candidates, n)
    ensures ReadableWithin(next, n - 1) && AllRead(next)
    ensures rejects == RejectedAt(g, top, candidates) && next == PassedOnAt(g, top, candidates)
  {
    rejects, next := [], [];
    for i := 0 to |candidates|
      invariant ReadableWithin(next, n - 1) && AllRead(next)
      invariant rejects == RejectedAt(g, top, candidates[..i]) && next == PassedOnAt(g, top, candidates[..i])
    {
      var tok := candidates[i];
      assert candidates[..i + 1][..i] == candidates[..i];
      var reject, pass := JudgeCandidate(g, top, tok);
      if reject {
        rejects := rejects + [tok];
      } else if pass {
        next := next + [Read(tok)];
      }
    }
    assert candidates[..|candidates|] == candidates;
  }

  method JudgeCandidate(g: Rules, top: Pos, tok: Candidate) returns (reject: bool, pass: bool)
    requires WellFormed(g) && InRules(g, top) && IsCharStart(At(g, top)) && ValidCandidate(tok)
    ensures reject == RejectedHere(g, top, tok) && pass == PassesOn(g, top, tok)
  {
    reject, pass := false, false;
    if tok.codePoints[tok.at] == 0 {
      if tok.partial.remain != 0 {
        var possible := MatchPartialChar(g, top, tok.partial);
        reject := !possible;
      }
    } else {
      var matched, _ := MatchChar(g, top, tok.codePoints[tok.at]);
      reject, pass := !matched, matched;
    }
  }

  /** Puts the pointers of rejects back by one and appends them. */
  method PutBack(rejects: seq<Candidate>, further: seq<Candidate>) returns (all: seq<Candidate>)
    requires AllRead(further)
    ensures forall c :: multiset(all)[c] == multiset(rejects)[c] + multiset(further)[Read(c)]
  {
    all := rejects;
    for i := 0 to |further|
      invariant forall c :: multiset(all)[c] == multiset(rejects)[c] + multiset(further[..i])[Read(c)]
    {
      assert further[..i + 1] == further[..i] + [further[i]];
      all := all + [further[i].(at := further[i].at - 1)];
    }
    assert further[..|further|] == further;
  }

  lemma SurvivesStep(g: Rules, s: Stack, c: Candidate)
    requires WellFormed(g) && NotLeftRecursive(g) && Settled(g, s) && s != [] && ValidCandidate(c)
    ensures ValidStack(g, Popped(g, s)) && AllSettled(g, Advance(g, Popped(g, s)))
    ensures PassesOn(g, Top(s), c) ==> ValidCandidate(Read(c))
    ensures PassesOn(g, Top(s), c) ==>
              (Survives(g, s, WordOf(c), c.partial) <==> SomeSurvives(g, Advance(g, Popped(g, s)), WordOf(Read(c)), c.partial))
    ensures !PassesOn(g, Top(s), c) ==> (Survives(g, s, WordOf(c), c.partial) <==> !RejectedHere(g, Top(s), c))
  {
    AdvanceSettles(g, Popped(g, s));
    if PassesOn(g, Top(s), c) {
      assert WordOf(c)[1..] == WordOf(Read(c));
    }
  }

  /** What the candidates that were passed on are rejected by, this stack rejects. */
  lemma RejectsTogether(g: Rules, s: Stack, candidates: seq<Candidate>, further: seq<Candidate>, rejects: seq<Candidate>)
    requires WellFormed(g) && NotLeftRecursive(g) && Settled(g, s) && s != [] && AllValid(candidates)
    requires AllSettled(g, Advance(g, Popped(g, s))) && AllValid(PassedOnAt(g, Top(s), candidates))
    requires RejectsOfAll(g, Advance(g, Popped(g, s)), PassedOnAt(g, Top(s), candidates), further)
    requires forall c :: multiset(rejects)[c] == multiset(RejectedAt(g, Top(s), candidates))[c] + multiset(further)[Read(c)]
    ensures RejectsOf(g, s, candidates, rejects)
  {
    forall c | c in rejects ensures c in candidates {
      assert multiset(rejects)[c] > 0;
      FromCandidates(g, Top(s), candidates, c);
    }
    forall c | c in candidates
      ensures multiset(rejects)[c] == if Survives(g, s, WordOf(c), c.partial) then 0 else multiset(candidates)[c]
    {
      SurvivesStep(g, s, c);
      RejectedCount(g, Top(s), candidates, c);
      PassedOnCount(g, Top(s), candidates, c);
      NotRejectedUnlessThere(PassedOnAt(g, Top(s), candidates), further, Read(c));
    }
  }

  lemma NotRejectedUnlessThere(candidates: seq<Candidate>, rejects: seq<Candidate>, c: Candidate)
    requires forall d :: d in rejects ==> d in candidates
    ensures c !in candidates ==> multiset(rejects)[c] == 0 && multiset(candidates)[c] == 0
    ensures c in candidates ==> multiset(candidates)[c] > 0
  {
    if c !in candidates {
      assert c !in rejects;
    }
  }

  /** The candidates one stack rejects. */
  method RejectForStack(g: Rules, stack: Stack, candidates: seq<Candidate>, ghost n: nat) returns (rejects: seq<Candidate>)
    requires WellFormed(g) && NotLeftRecursive(g) && Settled(g, stack) && n > 0 && ReadableWithin(candidates, n)
    ensures RejectsOf(g, stack, candidates, rejects)
    decreases n, 0
  {
    if stack == [] {
      rejects := RejectAtEnd(g, candidates);
      return;
    }
    var top := stack[|stack| - 1];
    var here, next := SortOut(g, top, candidates, n);
    var _, after := MatchChar(g, top, 0);
    var stackAfter := stack[..|stack| - 1];
    if !IsEnd(At(g, after)) {
      stackAfter := stackAfter + [after];
    }
    assert stackAfter == Popped(g, stack);
    AdvanceSettles(g, stackAfter);
    var nextStacks := AdvanceStack(g, stackAfter, []);
    assert nextStacks == Advance(g, stackAfter);
    var further := RejectCandidates(g, nextStacks, next, n - 1);
    rejects := PutBack(here, further);
    RejectsTogether(g, stack, candidates, further, rejects);
  }

  lemma RejectsChain(g: Rules, stacks: Stacks, s: Stack, candidates: seq<Candidate>, before: seq<Candidate>, rejects: seq<Candidate>)
    requires WellFormed(g) && NotLeftRecursive(g) && AllSettled(g, stacks) && Settled(g, s) && AllValid(candidates) && AllValid(before)
    requires RejectsOfAll(g, stacks, candidates, before) && RejectsOf(g, s, before, rejects)
    ensures AllSettled(g, stacks + [s]) && RejectsOfAll(g, stacks + [s], candidates, rejects)
  {
    var all := stacks + [s];
    forall c | c in candidates
      ensures multiset(rejects)[c] == if SomeSurvives(g, all, WordOf(c), c.partial) then 0 else multiset(candidates)[c]
    {
      SomeSurvivesMore(g, stacks, s, WordOf(c), c.partial);
      if c !in before {
        assert c !in rejects;
        assert multiset(rejects)[c] == 0;
        assert multiset(before)[c] == 0;
        assert c in multiset(candidates);
      }
    }
  }

  lemma SomeSurvivesMore(g: Rules, stacks: Stacks, s: Stack, w: Word, partial: Partial)
    requires WellFormed(g) && NotLeftRecursive(g) && AllSettled(g, stacks) && Settled(g, s)
    ensures AllSettled(g, stacks + [s])
    ensures SomeSurvives(g, stacks + [s], w, partial) <==> SomeSurvives(g, stacks, w, partial) || Survives(g, s, w, partial)
  {
    var all := stacks + [s];
    assert all[|stacks|] == s;
    forall i | 0 <= i < |stacks| ensures all[i] == stacks[i] {
    }
  }

  lemma NoneRejectedYet(g: Rules, candidates: seq<Candidate>)
    requires WellFormed(g) && NotLeftRecursive(g) && AllValid(candidates)
    ensures RejectsOfAll(g, [], candidates, candidates)
  {
  }

  /** The candidates every stack rejects; with no stack at all nothing is rejected. */
  method RejectCandidates(g: Rules, stacks: Stacks, candidates: seq<Candidate>, ghost n: nat) returns (rejects: seq<Candidate>)
    requires WellFormed(g) && NotLeftRecursive(g) && AllSettled(g, stacks) && ReadableWithin(candidates, n)
    ensures if stacks == [] then rejects == [] else RejectsOfAll(g, stacks, candidates, rejects)
    decreases n, 1
  {
    if candidates == [] || stacks == [] {
      return [];
    }
    rejects := candidates;
    NoneRejectedYet(g, candidates);
    assert ValidCandidate(candidates[0]);
    for i := 0 to |stacks|
      invariant AllSettled(g, stacks[..i]) && ReadableWithin(rejects, n) && RejectsOfAll(g, stacks[..i], candidates, rejects)
    {
      var before := rejects;
      rejects := RejectForStack(g, stacks[i], before, n);
      RejectsChain(g, stacks[..i], stacks[i], candidates, before, rejects);
      assert stacks[..i + 1] == stacks[..i] + [stacks[i]];
    }
    assert stacks[..|stacks|] == stacks;
  }
}
