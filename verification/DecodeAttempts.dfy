/** Windows and the attempts made at each: several decoders at a time, ranked, at one temperature after
    the other, and the best of them kept from one attempt to the next. */
module DecodeAttempts {
  import opened Wrappers
  import opened DecodeLoop
  import opened DecodeResults

  /** At a temperature: whether prompts get history, and how many decoders are asked for. */
  datatype Temperature = Temperature(history: bool, decoders: int)

  /** How many decoders there are: one at least. */
  function Width(t: Temperature): (n: nat)
    ensures n >= 1 && n >= t.decoders && (n == 1 || n == t.decoders)
  {
    if t.decoders < 1 then 1 else t.decoders
  }

  /** What a transcription is set up with: init are the tokens that say what to do, prev the token before
      any history, and decoders how many decoders there are in all. */
  datatype Setup = Setup(v: Vocab, textCtx: nat, maxTextCtx: nat, deltaMin: int, window: Window, carry: bool, prev: nat, init: Tokens,
                         temperatures: seq<Temperature>, decoders: nat)

  predicate ValidSetup(u: Setup) {
    && ValidVocab(u.v) && u.deltaMin >= 2 && u.temperatures != []
    && 0 < |u.init| <= 4 && u.init[0] != u.prev
    && forall k :: 0 <= k < |u.temperatures| ==> Width(u.temperatures[k]) <= u.decoders
  }

  /** What is not decided here, at window n, temperature k and for decoder j: which tokens are picked,
      whether a result repeats itself, what its score is, if it is more than minus infinity, whether the
      best one is unlikely, and whether a window is taken to hold no speech. */
  datatype Model = Model(sampler: (nat, nat, nat) -> Sampler, repeats: (nat, nat, nat) -> bool, score: (nat, nat, nat) -> Option<real>,
                         unlikely: (nat, nat) -> bool, noSpeech: nat -> bool)

  ghost predicate ValidModel(u: Setup, m: Model) {
    forall n: nat, k: nat, j: nat :: ValidSampler(u.v, m.sampler(n, k, j))
  }

  /** The carried tokens leave room in a prompt; the source has none for a carried prompt of one token
      when one token is all the history there may be. */
  predicate ValidCarried(u: Setup, carried: Tokens) {
    var max := MaxPrompt(u.maxTextCtx, u.textCtx);
    |carried| <= CarryLimit(max) && (max == 1 ==> carried == []) && (!u.carry ==> carried == [])
  }

  // ----- what an attempt makes of its decoders

  /** A decoder that has not failed keeps the tokens of its result, and fails if that repeats itself. */
  function Judged(d: Track, repeats: bool): Track
    requires d.resultLen <= |d.tokens|
  {
    if d.failed then d else d.(tokens := d.tokens[..d.resultLen], failed := d.resultLen > 32 && repeats)
  }

  lemma {:induction false} RunResult(v: Vocab, w: DecodeLoop.Window, s: Sampler, d: Track)
    requires d.resultLen <= |d.tokens| && d.seekDelta >= 2
    ensures Run(v, w, s, d).resultLen <= |Run(v, w, s, d).tokens| && Run(v, w, s, d).seekDelta >= 2
    decreases w.steps - |d.tokens|
  {
    if |d.tokens| < w.steps && Active(d) {
      RunResult(v, w, s, Stepped(v, w, s, d));
    }
  }

  /** Decoder j after attempt k at window n. */
  function Made(u: Setup, m: Model, w: DecodeLoop.Window, n: nat, k: nat, j: nat): (d: Track)
    ensures d.resultLen <= |d.tokens| && d.seekDelta >= 2
  {
    RunResult(u.v, w, m.sampler(n, k, j), START);
    Judged(Run(u.v, w, m.sampler(n, k, j), START), m.repeats(n, k, j))
  }

  /** Decoder j is ranked: it has not failed, and it has a score. */
  predicate Ranked(u: Setup, m: Model, w: DecodeLoop.Window, n: nat, k: nat, j: nat) {
    !Made(u, m, w, n, k, j).failed && m.score(n, k, j).Some?
  }

  /** None of the first decoders is ranked. */
  predicate NoneRanked(u: Setup, m: Model, w: DecodeLoop.Window, n: nat, k: nat, width: nat) {
    forall j :: 0 <= j < width ==> !Ranked(u, m, w, n, k, j)
  }

  /** Of the first decoders, decoder b has the highest score, and is the first that has it. */
  predicate Leads(u: Setup, m: Model, w: DecodeLoop.Window, n: nat, k: nat, b: nat, width: nat) {
    && b < width && Ranked(u, m, w, n, k, b)
    && forall j :: 0 <= j < width && Ranked(u, m, w, n, k, j) ==>
         m.score(n, k, j).value <= m.score(n, k, b).value && (j < b ==> m.score(n, k, j).value < m.score(n, k, b).value)
  }

  /** After some attempts the best decoder is the leader of the last one that ranked any, or the first. */
  predicate IsBest(u: Setup, m: Model, w: DecodeLoop.Window, n: nat, attempts: nat, b: nat)
    requires attempts <= |u.temperatures|
  {
    || (exists a :: 0 <= a < attempts && LedLast(u, m, w, n, attempts, b, a))
    || (b == 0 && forall k :: 0 <= k < attempts ==> NoneRanked(u, m, w, n, k, Width(u.temperatures[k])))
  }

  predicate LedLast(u: Setup, m: Model, w: DecodeLoop.Window, n: nat, attempts: nat, b: nat, a: nat)
    requires a < attempts <= |u.temperatures|
  {
    && Leads(u, m, w, n, a, b, Width(u.temperatures[a]))
    && forall k :: a < k < attempts ==> NoneRanked(u, m, w, n, k, Width(u.temperatures[k]))
  }

  /** The last attempt that had so many decoders that b is one of them. */
  predicate MadeLastIn(u: Setup, b: nat, attempts: nat, a: nat)
    requires attempts <= |u.temperatures|
  {
    && a < attempts && b < Width(u.temperatures[a])
    && forall k :: a < k < attempts ==> b >= Width(u.temperatures[k])
  }

  /** The positions of the batches of an attempt are inside the text context. */
  predicate FitsContext(textCtx: nat, positions: seq<nat>) {
    Consecutive(positions) && (textCtx >= 8 ==> |positions| <= textCtx)
  }

  predicate AllFit(textCtx: nat, runs: seq<seq<nat>>) {
    forall r :: 0 <= r < |runs| ==> FitsContext(textCtx, runs[r])
  }

  /** A prompt ends with the tokens that say what to do, and starts with prev only before history. */
  predicate PromptFor(u: Setup, prompt: Tokens)
    requires ValidSetup(u)
  {
    && |prompt| <= MaxPrompt(u.maxTextCtx, u.textCtx) + |u.init|
    && |prompt| >= |u.init| && prompt[|prompt| - |u.init|..] == u.init
    && (prompt[0] == u.prev ==> |prompt| > |u.init|)
  }

  /** The state of all decoders once the first of them have been through attempt k. */
  predicate AfterAttempt(u: Setup, m: Model, w: DecodeLoop.Window, n: nat, k: nat, width: nat, before: seq<Track>, tracks: seq<Track>) {
    && |tracks| == |before|
    && forall j :: 0 <= j < |tracks| ==> tracks[j] == if j < width then Made(u, m, w, n, k, j) else before[j]
  }

  /** As AfterAttempt, before the decoders are ranked. */
  predicate AfterRuns(u: Setup, m: Model, w: DecodeLoop.Window, n: nat, k: nat, width: nat, before: seq<Track>, tracks: seq<Track>) {
    && |tracks| == |before|
    && forall j :: 0 <= j < |tracks| ==> tracks[j] == if j < width then Run(u.v, w, m.sampler(n, k, j), START) else before[j]
  }

  /** How many of its tokens have been decoded in a batch: all but the last, unless it goes on. */
  function Decoded(d: Track): int {
    if Active(d) then |d.tokens| else |d.tokens| - 1
  }

  lemma PromptEnds(prompt: Tokens, init: Tokens)
    ensures (exists history: Tokens :: prompt == history + init) ==> |prompt| >= |init| && prompt[|prompt| - |init|..] == init
  {
  }

  /** The decoders of an attempt go through the window independently of each other; a batch has a token
      of each that is active, all at one position. */
  method RunAll(u: Setup, m: Model, w: DecodeLoop.Window, n: nat, k: nat, width: nat, prompt: nat, before: seq<Track>)
    returns (tracks: seq<Track>, positions: seq<nat>)
    requires ValidVocab(u.v) && ValidModel(u, m) && 0 < width <= |before|
    ensures AfterRuns(u, m, w, n, k, width, before, tracks)
    ensures Consecutive(positions) && Longest(tracks, width, |positions| - prompt)
  {
    ghost var wentBack;
    var d;
    d, positions, wentBack := DecodeWindow(u.v, w, m.sampler(n, k, 0), prompt);
    tracks := before[0 := d];
    NoRunYet(u, m, w, n, k, before);
    OneMoreRun(u, m, w, n, k, 0, before, before, d);
    assert Longest(tracks, 1, |positions| - prompt);
    for j := 1 to width
      invariant AfterRuns(u, m, w, n, k, j, before, tracks)
      invariant Consecutive(positions) && Longest(tracks, j, |positions| - prompt)
    {
      var more;
      ghost var earlier, most := tracks, |positions| - prompt;
      d, more, wentBack := DecodeWindow(u.v, w, m.sampler(n, k, j), prompt);
      tracks := tracks[j := d];
      if |more| > |positions| {
        positions := more;
      }
      OneMoreLongest(earlier, j, d, most);
      OneMoreRun(u, m, w, n, k, j, before, earlier, d);
    }
  }

  lemma OneMoreRun(u: Setup, m: Model, w: DecodeLoop.Window, n: nat, k: nat, j: nat, before: seq<Track>, tracks: seq<Track>, d: Track)
    requires j < |tracks| && AfterRuns(u, m, w, n, k, j, before, tracks) && d == Run(u.v, w, m.sampler(n, k, j), START)
    ensures AfterRuns(u, m, w, n, k, j + 1, before, tracks[j := d])
  {
  }

  lemma NoRunYet(u: Setup, m: Model, w: DecodeLoop.Window, n: nat, k: nat, before: seq<Track>)
    ensures AfterRuns(u, m, w, n, k, 0, before, before)
  {
  }

  /** The most that any of the first decoders has decoded. */
  predicate Longest(tracks: seq<Track>, width: nat, most: int) {
    && width <= |tracks|
    && (forall j :: 0 <= j < width ==> Decoded(tracks[j]) <= most)
    && (exists j :: 0 <= j < width && Decoded(tracks[j]) == most)
  }

  lemma OneMoreLongest(tracks: seq<Track>, j: nat, d: Track, most: int)
    requires j < |tracks| && Longest(tracks, j, most)
    ensures Longest(tracks[j := d], j + 1, if Decoded(d) > most then Decoded(d) else most)
  {
    var i :| 0 <= i < j && Decoded(tracks[i]) == most;
    assert tracks[j := d][i] == tracks[i] && tracks[j := d][j] == d;
  }

  lemma {:induction false} RunLength(v: Vocab, w: DecodeLoop.Window, s: Sampler, d: Track)
    requires |d.tokens| <= w.steps
    ensures |Run(v, w, s, d).tokens| <= w.steps
    decreases w.steps - |d.tokens|
  {
    if |d.tokens| < w.steps && Active(d) {
      RunLength(v, w, s, Stepped(v, w, s, d));
    }
  }

  /** No decoder decodes more than there are iterations. */
  lemma LongestInSteps(u: Setup, m: Model, w: DecodeLoop.Window, n: nat, k: nat, width: nat, before: seq<Track>, tracks: seq<Track>, most: int)
    requires AfterRuns(u, m, w, n, k, width, before, tracks) && Longest(tracks, width, most)
    ensures most <= w.steps
  {
    var j :| 0 <= j < width && Decoded(tracks[j]) == most;
    RunLength(u.v, w, m.sampler(n, k, j), START);
  }

  lemma AttemptFits(u: Setup, prompt: nat, most: int)
    requires ValidSetup(u) && prompt <= MaxPrompt(u.maxTextCtx, u.textCtx) + |u.init| && most <= Iterations(u.textCtx)
    ensures u.textCtx >= 8 ==> prompt + most <= u.textCtx
  {
  }

  /** The prompt of an attempt. */
  function PromptAt(u: Setup, carried: Tokens, rolling: Tokens, k: nat): Tokens
    requires k < |u.temperatures| && ValidCarried(u, carried)
  {
    PromptOf(carried, rolling, u.init, u.prev, u.temperatures[k].history, MaxPrompt(u.maxTextCtx, u.textCtx))
  }

  lemma PromptFits(u: Setup, carried: Tokens, rolling: Tokens, k: nat)
    requires ValidSetup(u) && ValidCarried(u, carried) && k < |u.temperatures|
    ensures PromptFor(u, PromptAt(u, carried, rolling, k))
  {
    PromptEnds(PromptAt(u, carried, rolling, k), u.init);
  }

  /** The decoders behind a prompt of a length that is allowed. */
  method RunFitting(u: Setup, m: Model, w: DecodeLoop.Window, n: nat, k: nat, width: nat, prompt: nat, before: seq<Track>)
    returns (tracks: seq<Track>, positions: seq<nat>)
    requires ValidSetup(u) && ValidModel(u, m) && 0 < width <= |before| && w.steps == Iterations(u.textCtx)
    requires prompt <= MaxPrompt(u.maxTextCtx, u.textCtx) + |u.init|
    ensures AfterRuns(u, m, w, n, k, width, before, tracks) && FitsContext(u.textCtx, positions)
    ensures Longest(tracks, width, |positions| - prompt)
  {
    tracks, positions := RunAll(u, m, w, n, k, width, prompt, before);
    LongestInSteps(u, m, w, n, k, width, before, tracks, |positions| - prompt);
    AttemptFits(u, prompt, |positions| - prompt);
  }

  /** One attempt at a window, at temperature k: its prompt, and its decoders. */
  method Attempt(u: Setup, m: Model, w: DecodeLoop.Window, n: nat, k: nat, carried: Tokens, rolling: Tokens, before: seq<Track>)
    returns (prompt: Tokens, tracks: seq<Track>, positions: seq<nat>)
    requires ValidSetup(u) && ValidModel(u, m) && ValidCarried(u, carried) && k < |u.temperatures| && |before| == u.decoders
    requires w.steps == Iterations(u.textCtx)
    ensures prompt == PromptAt(u, carried, rolling, k) && PromptFor(u, prompt) && FitsContext(u.textCtx, positions)
    ensures AfterRuns(u, m, w, n, k, Width(u.temperatures[k]), before, tracks)
    ensures Longest(tracks, Width(u.temperatures[k]), |positions| - |prompt|)
  {
    ghost var taken;
    prompt, taken := BuildPrompt(carried, rolling, u.init, u.prev, u.temperatures[k].history, MaxPrompt(u.maxTextCtx, u.textCtx));
    PromptFits(u, carried, rolling, k);
    tracks, positions := RunFitting(u, m, w, n, k, Width(u.temperatures[k]), |prompt|, before);
  }

  /** Ranks the decoders of an attempt; the best one stays as it was if none is ranked. */
  method Rank(u: Setup, m: Model, w: DecodeLoop.Window, n: nat, k: nat, width: nat, ghost before: seq<Track>, ran: seq<Track>, best: nat)
    returns (tracks: seq<Track>, b: nat)
    requires width <= |ran| && AfterRuns(u, m, w, n, k, width, before, ran)
    ensures AfterAttempt(u, m, w, n, k, width, before, tracks)
    ensures if NoneRanked(u, m, w, n, k, width) then b == best else Leads(u, m, w, n, k, b, width)
  {
    tracks, b := ran, best;
    var bestScore: Option<real> := None;
    for j := 0 to width
      invariant |tracks| == |ran| && forall i :: 0 <= i < |tracks| ==> tracks[i] == if i < j then Made(u, m, w, n, k, i) else ran[i]
      invariant if bestScore.None? then NoneRanked(u, m, w, n, k, j) && b == best
                else Leads(u, m, w, n, k, b, j) && bestScore == m.score(n, k, b)
    {
      RunResult(u.v, w, m.sampler(n, k, j), START);
      tracks := tracks[j := Judged(tracks[j], m.repeats(n, k, j))];
      if !tracks[j].failed && m.score(n, k, j).Some? && (bestScore.None? || bestScore.value < m.score(n, k, j).value) {
        b, bestScore := j, m.score(n, k, j);
      }
    }
  }

  /** The best decoder after an attempt, and the last attempt that made it. */
  datatype Try = Try(best: nat, from: nat)

  predicate BestAfter(u: Setup, m: Model, w: DecodeLoop.Window, n: nat, k: nat, t: Try) {
    k < |u.temperatures| && IsBest(u, m, w, n, k + 1, t.best) && MadeLastIn(u, t.best, k + 1, t.from)
  }

  /** It has failed, has found more than 32 tokens that repeat themselves, or is unlikely. */
  predicate NotEnough(u: Setup, m: Model, w: DecodeLoop.Window, n: nat, k: nat, t: Try) {
    var run := Run(u.v, w, m.sampler(n, t.from, t.best), START);
    run.failed || (run.resultLen > 32 && m.repeats(n, t.from, t.best)) || m.unlikely(n, k)
  }

  /** All attempts so far, none of them enough. */
  predicate Tried(u: Setup, m: Model, w: DecodeLoop.Window, n: nat, tries: seq<Try>) {
    forall k :: 0 <= k < |tries| ==> BestAfter(u, m, w, n, k, tries[k]) && NotEnough(u, m, w, n, k, tries[k])
  }

  /** The decoders after attempt k, whose best one is t. */
  predicate AfterTry(u: Setup, m: Model, w: DecodeLoop.Window, n: nat, k: nat, t: Try, tracks: seq<Track>) {
    && k < |u.temperatures| && |tracks| == u.decoders && t.best < |tracks|
    && BestAfter(u, m, w, n, k, t) && Current(u, m, w, n, k + 1, tracks) && tracks[t.best] == Made(u, m, w, n, t.from, t.best)
  }

  lemma OneMoreTry(u: Setup, m: Model, w: DecodeLoop.Window, n: nat, k: nat, tries: seq<Try>, t: Try, tracks: seq<Track>)
    requires |tries| == k && Tried(u, m, w, n, tries) && AfterTry(u, m, w, n, k, t, tracks)
    requires tracks[t.best].failed || m.unlikely(n, k)
    ensures Tried(u, m, w, n, tries + [t])
  {
  }

  lemma BestTry(u: Setup, m: Model, w: DecodeLoop.Window, n: nat, k: nat, tracks: seq<Track>, best: nat) returns (t: Try)
    requires ValidSetup(u) && k < |u.temperatures| && |tracks| == u.decoders && best < |tracks|
    requires IsBest(u, m, w, n, k + 1, best) && Current(u, m, w, n, k + 1, tracks)
    ensures t.best == best && AfterTry(u, m, w, n, k, t, tracks)
  {
    BestIsMade(u, m, w, n, k + 1, best);
    var from :| 0 <= from < k + 1 && MadeLastIn(u, best, k + 1, from);
    t := Try(best, from);
  }

  /** Each attempt but the last was not enough, and the last was, or there are no more temperatures. */
  predicate TriesRight(u: Setup, m: Model, w: DecodeLoop.Window, n: nat, tries: seq<Try>) {
    && 0 < |tries| <= |u.temperatures|
    && var last := |tries| - 1;
       && Tried(u, m, w, n, tries[..last]) && BestAfter(u, m, w, n, last, tries[last])
       && (|tries| < |u.temperatures| ==> !NotEnough(u, m, w, n, last, tries[last]))
  }

  /** The best decoder after the last attempt. */
  function Chosen(u: Setup, m: Model, w: DecodeLoop.Window, n: nat, tries: seq<Try>): (d: Track)
    requires tries != []
    ensures d.resultLen <= |d.tokens| && d.seekDelta >= 2
  {
    Made(u, m, w, n, tries[|tries| - 1].from, tries[|tries| - 1].best)
  }

  /** All that was picked for it. */
  function ChosenRun(u: Setup, m: Model, w: DecodeLoop.Window, n: nat, tries: seq<Try>): (d: Track)
    requires tries != []
    ensures d.resultLen <= |d.tokens|
  {
    RunResult(u.v, w, m.sampler(n, tries[|tries| - 1].from, tries[|tries| - 1].best), START);
    Run(u.v, w, m.sampler(n, tries[|tries| - 1].from, tries[|tries| - 1].best), START)
  }

  /** The attempts at a window, one temperature after the other until the best decoder is good enough.
      That one may be left over from an earlier attempt: if no decoder of the last ones is ranked, and
      they had fewer. */
  method Attempts(u: Setup, m: Model, w: DecodeLoop.Window, n: nat, carried: Tokens, rolling: Tokens, before: seq<Track>)
    returns (prompt: Tokens, tracks: seq<Track>, best: nat, runs: seq<seq<nat>>, ghost tries: seq<Try>)
    requires ValidSetup(u) && ValidModel(u, m) && ValidCarried(u, carried) && |before| == u.decoders
    requires w.steps == Iterations(u.textCtx)
    ensures 0 < |runs| <= |u.temperatures| && AllFit(u.textCtx, runs)
    ensures prompt == PromptAt(u, carried, rolling, |runs| - 1)
    ensures |tries| == |runs| && TriesRight(u, m, w, n, tries)
    ensures |tracks| == u.decoders && best < |tracks| && tracks[best] == Chosen(u, m, w, n, tries)
  {
    var positions;
    ghost var t;
    prompt, tracks, best, positions, t := NextAttempt(u, m, w, n, 0, carried, rolling, before, 0, Try(0, 0));
    runs, tries := [positions], [];
    var k := 0;
    while k < |u.temperatures| - 1 && (tracks[best].failed || m.unlikely(n, k))
      invariant 0 <= k < |u.temperatures| && |runs| == k + 1 && AllFit(u.textCtx, runs)
      invariant prompt == PromptAt(u, carried, rolling, k)
      invariant t.best == best && AfterTry(u, m, w, n, k, t, tracks)
      invariant |tries| == k && Tried(u, m, w, n, tries)
    {
      OneMoreTry(u, m, w, n, k, tries, t, tracks);
      k, tries := k + 1, tries + [t];
      prompt, tracks, best, positions, t := NextAttempt(u, m, w, n, k, carried, rolling, tracks, best, t);
      runs := runs + [positions];
    }
    LastTry(u, m, w, n, tries, t, tracks);
    tries := tries + [t];
  }

  lemma LastTry(u: Setup, m: Model, w: DecodeLoop.Window, n: nat, tries: seq<Try>, t: Try, tracks: seq<Track>)
    requires Tried(u, m, w, n, tries) && AfterTry(u, m, w, n, |tries|, t, tracks)
    requires |tries| + 1 < |u.temperatures| ==> !tracks[t.best].failed && !m.unlikely(n, |tries|)
    ensures TriesRight(u, m, w, n, tries + [t]) && tracks[t.best] == Chosen(u, m, w, n, tries + [t])
  {
    assert (tries + [t])[..|tries|] == tries;
  }

  /** Attempt k, after those before it. */
  method NextAttempt(u: Setup, m: Model, w: DecodeLoop.Window, n: nat, k: nat, carried: Tokens, rolling: Tokens,
                     before: seq<Track>, bestBefore: nat, ghost tBefore: Try)
    returns (prompt: Tokens, tracks: seq<Track>, best: nat, positions: seq<nat>, ghost t: Try)
    requires ValidSetup(u) && ValidModel(u, m) && ValidCarried(u, carried) && k < |u.temperatures| && |before| == u.decoders
    requires w.steps == Iterations(u.textCtx)
    requires if k == 0 then bestBefore == 0 else tBefore.best == bestBefore && AfterTry(u, m, w, n, k - 1, tBefore, before)
    ensures prompt == PromptAt(u, carried, rolling, k) && FitsContext(u.textCtx, positions)
    ensures t.best == best && AfterTry(u, m, w, n, k, t, tracks)
  {
    var ran;
    prompt, ran, positions := Attempt(u, m, w, n, k, carried, rolling, before);
    tracks, best := Rank(u, m, w, n, k, Width(u.temperatures[k]), before, ran, bestBefore);
    AttemptKeeps(u, m, w, n, k, before, tracks, bestBefore, best);
    t := BestTry(u, m, w, n, k, tracks, best);
  }

  lemma AttemptKeeps(u: Setup, m: Model, w: DecodeLoop.Window, n: nat, k: nat, before: seq<Track>, tracks: seq<Track>, bestBefore: nat, best: nat)
    requires ValidSetup(u) && k < |u.temperatures| && |before| == u.decoders
    requires if k == 0 then bestBefore == 0 else IsBest(u, m, w, n, k, bestBefore) && Current(u, m, w, n, k, before)
    requires AfterAttempt(u, m, w, n, k, Width(u.temperatures[k]), before, tracks)
    requires if NoneRanked(u, m, w, n, k, Width(u.temperatures[k])) then best == bestBefore
             else Leads(u, m, w, n, k, best, Width(u.temperatures[k]))
    ensures best < u.decoders && IsBest(u, m, w, n, k + 1, best) && Current(u, m, w, n, k + 1, tracks)
  {
    OneMoreAttempt(u, m, w, n, k, bestBefore, best);
    StillCurrent(u, m, w, n, k, before, tracks);
    BestIsMade(u, m, w, n, k + 1, best);
  }

  /** Every decoder that any attempt so far had is as the last such attempt made it. */
  predicate Current(u: Setup, m: Model, w: DecodeLoop.Window, n: nat, attempts: nat, tracks: seq<Track>)
    requires attempts <= |u.temperatures|
  {
    forall j, a :: 0 <= j < |tracks| && 0 <= a < attempts && MadeLastIn(u, j, attempts, a) ==> tracks[j] == Made(u, m, w, n, a, j)
  }

  lemma OneMoreAttempt(u: Setup, m: Model, w: DecodeLoop.Window, n: nat, k: nat, before: nat, best: nat)
    requires k < |u.temperatures| && (if k == 0 then before == 0 else IsBest(u, m, w, n, k, before))
    requires if NoneRanked(u, m, w, n, k, Width(u.temperatures[k])) then best == before
             else Leads(u, m, w, n, k, best, Width(u.temperatures[k]))
    ensures IsBest(u, m, w, n, k + 1, best)
  {
    if NoneRanked(u, m, w, n, k, Width(u.temperatures[k])) {
      if k > 0 {
        StillBest(u, m, w, n, k, best);
      }
    } else {
      assert LedLast(u, m, w, n, k + 1, best, k);
    }
  }

  lemma StillBest(u: Setup, m: Model, w: DecodeLoop.Window, n: nat, k: nat, best: nat)
    requires k < |u.temperatures| && IsBest(u, m, w, n, k, best) && NoneRanked(u, m, w, n, k, Width(u.temperatures[k]))
    ensures IsBest(u, m, w, n, k + 1, best)
  {
    if a :| 0 <= a < k && LedLast(u, m, w, n, k, best, a) {
      assert LedLast(u, m, w, n, k + 1, best, a);
    }
  }

  lemma StillCurrent(u: Setup, m: Model, w: DecodeLoop.Window, n: nat, k: nat, before: seq<Track>, tracks: seq<Track>)
    requires k < |u.temperatures| && (k > 0 ==> Current(u, m, w, n, k, before))
    requires AfterAttempt(u, m, w, n, k, Width(u.temperatures[k]), before, tracks)
    ensures Current(u, m, w, n, k + 1, tracks)
  {
    forall j, a | 0 <= j < |tracks| && 0 <= a < k + 1 && MadeLastIn(u, j, k + 1, a) ensures tracks[j] == Made(u, m, w, n, a, j) {
      if a < k {
        assert j >= Width(u.temperatures[k]);
        assert MadeLastIn(u, j, k, a);
      }
    }
  }

  /** The best decoder was in some attempt, so there is a last one that made it. */
  lemma BestIsMade(u: Setup, m: Model, w: DecodeLoop.Window, n: nat, attempts: nat, best: nat)
    requires ValidSetup(u) && 0 < attempts <= |u.temperatures| && IsBest(u, m, w, n, attempts, best)
    ensures best < u.decoders && exists a :: 0 <= a < attempts && MadeLastIn(u, best, attempts, a)
  {
    var b := 0;
    if a :| 0 <= a < attempts && LedLast(u, m, w, n, attempts, best, a) {
      b := a;
    }
    assert best < Width(u.temperatures[b]);
    LastWide(u, best, attempts, b);
  }

  lemma {:induction false} LastWide(u: Setup, best: nat, attempts: nat, b: nat)
    requires b < attempts <= |u.temperatures| && best < Width(u.temperatures[b])
    ensures exists a :: 0 <= a < attempts && MadeLastIn(u, best, attempts, a)
    decreases attempts - b
  {
    if k :| b < k < attempts && best < Width(u.temperatures[k]) {
      LastWide(u, best, attempts, k);
    } else {
      assert MadeLastIn(u, best, attempts, b);
    }
  }

  // ----- windows

  /** What goes from one window to the next. */
  datatype Stand = Stand(seek: int, carried: Tokens, rolling: Tokens)

  /** What was done at a window: the last prompt, and the attempts. */
  datatype Pass = Pass(prompt: Tokens, tries: seq<Try>)

  function WindowAt(u: Setup, seek: int, seekEnd: int): DecodeLoop.Window {
    u.window.(seek := seek, seekEnd := seekEnd, deltaMin := u.deltaMin, steps := Iterations(u.textCtx))
  }

  /** What the window that begins here is decoded with. */
  function Refreshed(s: Stand, seekStart: int, seekEnd: int): Stand {
    if s.seek > seekStart && s.seek + 500 >= seekEnd then s.(carried := [], rolling := []) else s
  }

  /** Where the next window begins, told by the tokens that were picked for the best decoder: a timestamp
      right behind text at the end of those that are kept takes the whole chunk; otherwise the next window
      begins at the last timestamp, unless none is wanted. */
  predicate MovesOn(v: Vocab, w: DecodeLoop.Window, run: Track, next: int)
    requires run.resultLen <= |run.tokens|
  {
    var kept := if run.failed then run.tokens else run.tokens[..run.resultLen];
    var last := |kept| - 1;
    next == w.seek +
      if last > 0 && kept[last - 1] < v.beg < kept[last] then (if w.seekEnd - w.seek < 100 * CHUNK then w.seekEnd - w.seek else 100 * CHUNK)
      else if run.failed then ByMark(v, Kept(v, run.tokens))
      else if run.completed && (w.singleSegment || w.noTimestamps) then 100 * CHUNK
      else ByMark(v, kept)
  }

  /** The rolling history ends with the text; before that comes what the prompt had between prev and init,
      unless it is carried anyway. */
  predicate RollsOn(u: Setup, prompt: Tokens, text: Tokens, rolling: Tokens) {
    && |text| <= |rolling| && rolling[|rolling| - |text|..] == text
    && var history := rolling[..|rolling| - |text|];
       if u.carry || |prompt| <= |u.init| then history == [] else prompt == [u.prev] + history + u.init
  }

  /** Window n: the attempts that were made, and where the next window begins. */
  predicate AttemptsRight(u: Setup, m: Model, seekEnd: int, n: nat, before: Stand, p: Pass, after: Stand) {
    var w := u.window.(seek := before.seek, seekEnd := seekEnd, deltaMin := u.deltaMin, steps := Iterations(u.textCtx));
    TriesRight(u, m, w, n, p.tries) && MovesOn(u.v, w, ChosenRun(u, m, w, n, p.tries), after.seek)
  }

  /** Its prompt, and the history it leaves for the next one. The last 5 s are decoded without history,
      unless there is nothing before them. */
  predicate HistoryRight(u: Setup, m: Model, seekStart: int, seekEnd: int, n: nat, before: Stand, p: Pass, after: Stand) {
    var late := before.seek > seekStart && before.seek + 500 >= seekEnd;
    var carried, rolling := if late then [] else before.carried, if late then [] else before.rolling;
    var w := u.window.(seek := before.seek, seekEnd := seekEnd, deltaMin := u.deltaMin, steps := Iterations(u.textCtx));
    && ValidCarried(u, carried) && 0 < |p.tries| <= |u.temperatures|
    && p.prompt == PromptAt(u, carried, rolling, |p.tries| - 1)
    && after.carried == carried
    && var run := ChosenRun(u, m, w, n, p.tries);
       RollsOn(u, p.prompt, if m.noSpeech(n) then [] else run.tokens[..run.resultLen], after.rolling)
  }

  predicate PassRight(u: Setup, m: Model, seekStart: int, seekEnd: int, n: nat, before: Stand, p: Pass, after: Stand) {
    AttemptsRight(u, m, seekEnd, n, before, p, after) && HistoryRight(u, m, seekStart, seekEnd, n, before, p, after)
  }

  /** What a decoder has found. */
  function Text(d: Track, noSpeech: bool): Tokens
    requires d.resultLen <= |d.tokens|
  {
    if noSpeech then [] else d.tokens[..d.resultLen]
  }

  predicate SingleMarkEnding(v: Vocab, tokens: Tokens) {
    |tokens| > 1 && tokens[|tokens| - 2] < v.beg && tokens[|tokens| - 1] > v.beg
  }

  /** The rolling history after a window: the history of its prompt, unless that is carried anyway, and
      what has been decoded, unless it was no speech. */
  function Rolled(u: Setup, prompt: Tokens, d: Track, noSpeech: bool): Tokens
    requires ValidSetup(u) && PromptFor(u, prompt) && d.resultLen <= |d.tokens|
  {
    (if !u.carry && prompt[0] == u.prev then prompt[1..|prompt| - |u.init|] else [])
    + Text(d, noSpeech)
  }

  lemma PromptRolls(u: Setup, s: Stand, k: nat, prompt: Tokens, d: Track, noSpeech: bool)
    requires ValidSetup(u) && ValidCarried(u, s.carried) && d.resultLen <= |d.tokens| && PromptFor(u, prompt)
    requires k < |u.temperatures| && prompt == PromptAt(u, s.carried, s.rolling, k)
    ensures RollsOn(u, prompt, Text(d, noSpeech), Rolled(u, prompt, d, noSpeech))
  {
    var text := Text(d, noSpeech);
    var kept := if !u.carry && prompt[0] == u.prev then prompt[1..|prompt| - |u.init|] else [];
    var rolling := Rolled(u, prompt, d, noSpeech);
    assert rolling == kept + text;
    assert rolling[..|kept|] == kept && rolling[|kept|..] == text;
    if !u.carry && |prompt| > |u.init| {
      assert prompt[0] == u.prev;
      assert prompt == [u.prev] + kept + u.init;
    }
  }

  /** How far the window moves on, as the decoder's fields say it. */
  function Advance(v: Vocab, w: DecodeLoop.Window, d: Track): int {
    if SingleMarkEnding(v, d.tokens) then (if w.seekEnd - w.seek < 100 * CHUNK then w.seekEnd - w.seek else 100 * CHUNK)
    else d.seekDelta
  }

  lemma AdvanceMovesOn(v: Vocab, w: DecodeLoop.Window, s: Sampler, repeats: bool)
    requires ValidVocab(v) && Run(v, w, s, START).resultLen <= |Run(v, w, s, START).tokens|
    ensures var run := Run(v, w, s, START);
            var d := Judged(run, repeats);
            MovesOn(v, w, run, w.seek + Advance(v, w, d))
  {
    WindowResult(v, w, s);
    var run := Run(v, w, s, START);
    if !run.failed {
      KeptMark(v, w, run);
      if !run.completed {
        assert ByMark(v, Judged(run, repeats).tokens) == run.seekDelta;
      }
    }
  }

  lemma ChosenMovesOn(u: Setup, m: Model, w: DecodeLoop.Window, n: nat, tries: seq<Try>)
    requires ValidVocab(u.v) && tries != []
    ensures MovesOn(u.v, w, ChosenRun(u, m, w, n, tries), w.seek + Advance(u.v, w, Chosen(u, m, w, n, tries)))
    ensures var run, d := ChosenRun(u, m, w, n, tries), Chosen(u, m, w, n, tries);
            d.tokens[..d.resultLen] == run.tokens[..run.resultLen]
  {
    var t := tries[|tries| - 1];
    RunResult(u.v, w, m.sampler(n, t.from, t.best), START);
    AdvanceMovesOn(u.v, w, m.sampler(n, t.from, t.best), m.repeats(n, t.from, t.best));
  }

  /** What the best decoder leaves for the next window. */
  method Leave(u: Setup, s: Stand, w: DecodeLoop.Window, k: nat, prompt: Tokens, d: Track, noSpeech: bool) returns (after: Stand)
    requires ValidSetup(u) && ValidCarried(u, s.carried) && d.resultLen <= |d.tokens| && k < |u.temperatures|
    requires prompt == PromptAt(u, s.carried, s.rolling, k)
    ensures after.seek == s.seek + Advance(u.v, w, d) && after.carried == s.carried
    ensures RollsOn(u, prompt, Text(d, noSpeech), after.rolling)
  {
    PromptFits(u, s.carried, s.rolling, k);
    PromptRolls(u, s, k, prompt, d, noSpeech);
    after := Stand(s.seek + Advance(u.v, w, d), s.carried, Rolled(u, prompt, d, noSpeech));
  }

  /** One window. */
  method NextWindow(u: Setup, m: Model, seekStart: int, seekEnd: int, n: nat, before: Stand, tracksBefore: seq<Track>)
    returns (after: Stand, tracks: seq<Track>, runs: seq<seq<nat>>, ghost p: Pass)
    requires ValidSetup(u) && ValidModel(u, m) && ValidCarried(u, before.carried) && |tracksBefore| == u.decoders
    requires before.seek + u.deltaMin < seekEnd
    ensures PassRight(u, m, seekStart, seekEnd, n, before, p, after)
    ensures after.seek >= before.seek + 2 && ValidCarried(u, after.carried) && |tracks| == u.decoders
    ensures AllFit(u.textCtx, runs) && 0 < |runs| == |p.tries|
  {
    var s, w := Refreshed(before, seekStart, seekEnd), WindowAt(u, before.seek, seekEnd);
    var prompt, best;
    ghost var tries;
    prompt, tracks, best, runs, tries := Attempts(u, m, w, n, s.carried, s.rolling, tracksBefore);
    after := Leave(u, s, w, |runs| - 1, prompt, tracks[best], m.noSpeech(n));
    p := Pass(prompt, tries);
    WindowIsRight(u, m, seekStart, seekEnd, n, before, p, after);
  }

  lemma WindowIsRight(u: Setup, m: Model, seekStart: int, seekEnd: int, n: nat, before: Stand, p: Pass, after: Stand)
    requires ValidVocab(u.v) && u.deltaMin >= 2 && ValidCarried(u, before.carried) && before.seek + u.deltaMin < seekEnd
    requires TriesRight(u, m, WindowAt(u, before.seek, seekEnd), n, p.tries)
    requires var s := Refreshed(before, seekStart, seekEnd);
             p.prompt == PromptAt(u, s.carried, s.rolling, |p.tries| - 1) && after.carried == s.carried
    requires var w := WindowAt(u, before.seek, seekEnd);
             var d := Chosen(u, m, w, n, p.tries);
             after.seek == before.seek + Advance(u.v, w, d) && RollsOn(u, p.prompt, Text(d, m.noSpeech(n)), after.rolling)
    ensures PassRight(u, m, seekStart, seekEnd, n, before, p, after) && after.seek >= before.seek + 2
  {
    AttemptsAreRight(u, m, seekEnd, n, before, p, after);
    ChosenMovesOn(u, m, WindowAt(u, before.seek, seekEnd), n, p.tries);
  }

  lemma AttemptsAreRight(u: Setup, m: Model, seekEnd: int, n: nat, before: Stand, p: Pass, after: Stand)
    requires ValidVocab(u.v) && TriesRight(u, m, WindowAt(u, before.seek, seekEnd), n, p.tries)
    requires var w := WindowAt(u, before.seek, seekEnd); after.seek == before.seek + Advance(u.v, w, Chosen(u, m, w, n, p.tries))
    ensures AttemptsRight(u, m, seekEnd, n, before, p, after)
  {
    ChosenMovesOn(u, m, WindowAt(u, before.seek, seekEnd), n, p.tries);
  }

  /** Every window was right, and was needed, from the first stand to the last. */
  predicate AllRight(u: Setup, m: Model, seekStart: int, seekEnd: int, stands: seq<Stand>, log: seq<Pass>) {
    |stands| == |log| + 1 && forall n: nat :: n < |log| ==> RightAt(u, m, seekStart, seekEnd, stands, log, n)
  }

  predicate RightAt(u: Setup, m: Model, seekStart: int, seekEnd: int, stands: seq<Stand>, log: seq<Pass>, n: nat)
    requires n < |log| < |stands|
  {
    stands[n].seek + u.deltaMin < seekEnd && PassRight(u, m, seekStart, seekEnd, n, stands[n], log[n], stands[n + 1])
  }

  lemma OneMoreRight(u: Setup, m: Model, seekStart: int, seekEnd: int, stands: seq<Stand>, log: seq<Pass>, p: Pass, after: Stand)
    requires AllRight(u, m, seekStart, seekEnd, stands, log)
    requires PassRight(u, m, seekStart, seekEnd, |log|, stands[|log|], p, after) && stands[|log|].seek + u.deltaMin < seekEnd
    ensures AllRight(u, m, seekStart, seekEnd, stands + [after], log + [p])
  {
    forall n: nat | n < |log| + 1 ensures RightAt(u, m, seekStart, seekEnd, stands + [after], log + [p], n) {
      if n < |log| {
        assert RightAt(u, m, seekStart, seekEnd, stands, log, n);
      }
    }
  }

  /** One window more, behind those that have been decoded. */
  method OneMoreWindow(u: Setup, m: Model, seekStart: int, seekEnd: int, n: nat, before: Stand, tracksBefore: seq<Track>,
                       ghost standsBefore: seq<Stand>, ghost logBefore: seq<Pass>)
    returns (after: Stand, tracks: seq<Track>, runs: seq<seq<nat>>, ghost stands: seq<Stand>, ghost log: seq<Pass>)
    requires ValidSetup(u) && ValidModel(u, m) && ValidCarried(u, before.carried) && |tracksBefore| == u.decoders
    requires before.seek + u.deltaMin < seekEnd
    requires |logBefore| == n && AllRight(u, m, seekStart, seekEnd, standsBefore, logBefore) && standsBefore[n] == before
    ensures |log| == n + 1 && AllRight(u, m, seekStart, seekEnd, stands, log) && stands[n + 1] == after && stands[0] == standsBefore[0]
    ensures after.seek >= before.seek + 2 && ValidCarried(u, after.carried) && |tracks| == u.decoders
    ensures AllFit(u.textCtx, runs) && 0 < |runs|
  {
    ghost var p;
    after, tracks, runs, p := NextWindow(u, m, seekStart, seekEnd, n, before, tracksBefore);
    OneMoreRight(u, m, seekStart, seekEnd, standsBefore, logBefore, p, after);
    stands, log := standsBefore + [after], logBefore + [p];
  }

  /** Each window begins where the tokens of the one before say. Whatever is picked, windows move on by at
      least 2, the loop ends with nothing left worth decoding, and no batch of any attempt at any window
      leaves the text context. */
  method Windows(u: Setup, m: Model, seekStart: int, seekEnd: int, carriedAtFirst: Tokens, rollingAtFirst: Tokens)
    returns (seek: int, passes: nat, runs: seq<seq<nat>>, ghost stands: seq<Stand>, ghost log: seq<Pass>)
    requires ValidSetup(u) && ValidModel(u, m) && ValidCarried(u, carriedAtFirst) && seekEnd >= seekStart
    ensures |log| == passes && AllRight(u, m, seekStart, seekEnd, stands, log)
    ensures stands[0] == Stand(seekStart, carriedAtFirst, rollingAtFirst) && stands[passes].seek == seek
    ensures seek + u.deltaMin >= seekEnd
    ensures seekStart + 2 * passes <= seek && 2 * passes <= seekEnd - seekStart
    ensures AllFit(u.textCtx, runs) && passes <= |runs|
  {
    passes, runs := 0, [];
    var stand := Stand(seekStart, carriedAtFirst, rollingAtFirst);
    stands, log := [stand], [];
    var tracks := seq(u.decoders, j requires 0 <= j < u.decoders => START);
    while stand.seek + u.deltaMin < seekEnd
      invariant seekStart + 2 * passes <= stand.seek && ValidCarried(u, stand.carried) && |tracks| == u.decoders
      invariant passes > 0 ==> 2 * (passes - 1) + u.deltaMin < seekEnd - seekStart
      invariant AllFit(u.textCtx, runs) && passes <= |runs|
      invariant |log| == passes && AllRight(u, m, seekStart, seekEnd, stands, log) && stands[passes] == stand
      invariant stands[0] == Stand(seekStart, carriedAtFirst, rollingAtFirst)
      decreases seekEnd - stand.seek
    {
      var more;
      stand, tracks, more, stands, log := OneMoreWindow(u, m, seekStart, seekEnd, passes, stand, tracks, stands, log);
      runs := runs + more;
      passes := passes + 1;
    }
    seek := stand.seek;
  }

  // ----- runs

  const VOCAB := Vocab(100, 200, 2000)

  /** Picks text, and in the last iteration a timestamp 20 s into the window. */
  function FillSampler(steps: nat): Sampler {
    Sampler((i, t) => false, i => false, None, (i, mask) => if i + 1 == steps then 1200 else 0)
  }

  function FillWindow(textCtx: nat): DecodeLoop.Window {
    DecodeLoop.Window(0, 10000, 2, 0, false, false, Iterations(textCtx))
  }

  function FillSetup(textCtx: nat): Setup {
    Setup(VOCAB, textCtx, textCtx, 2, FillWindow(textCtx), false, 1990, [1991, 1992, 1993, 1994], [Temperature(true, 1)], 1)
  }

  function FillModel(textCtx: nat): Model {
    Model((n, k, j) => FillSampler(Iterations(textCtx)), (n, k, j) => false, (n, k, j) => None, (n, k) => false, n => false)
  }

  lemma {:induction false} FillGoesOn(w: DecodeLoop.Window, d: Track)
    requires w.seek == 0 && w.seekEnd == 10000 && w.deltaMin == 2 && w.maxTokens == 0 && |d.tokens| < w.steps
    requires Active(d) && !d.hasTs && d.resultLen == 0 && d.seekDelta == 100 * CHUNK
    ensures var r := Run(VOCAB, w, FillSampler(w.steps), d); Active(r) && |r.tokens| == w.steps
    decreases w.steps - |d.tokens|
  {
    var r := Stepped(VOCAB, w, FillSampler(w.steps), d);
    if |d.tokens| + 1 < w.steps {
      FillGoesOn(w, r);
    }
  }

  /** The bound is reached: with these tokens picked, behind enough history, the last batch of an attempt
      is at the last position of the text context, or the one before it if their number is odd. */
  lemma ContextIsFilled(textCtx: nat, rolling: Tokens)
    requires textCtx >= 10 && |rolling| >= textCtx / 2
    ensures var u, m := FillSetup(textCtx), FillModel(textCtx);
            && ValidSetup(u) && ValidModel(u, m) && ValidCarried(u, [])
            && |PromptOf([], rolling, u.init, u.prev, u.temperatures[0].history, MaxPrompt(u.maxTextCtx, u.textCtx))|
               + Decoded(Run(u.v, u.window, m.sampler(0, 0, 0), START)) == textCtx - textCtx % 2
  {
    FillGoesOn(FillWindow(textCtx), START);
  }

  const LEFT_WINDOW := DecodeLoop.Window(0, 10000, 2, 0, false, false, 220)

  const LEFT_SETUP := Setup(VOCAB, 448, 448, 2, LEFT_WINDOW, false, 1990, [1991], [Temperature(true, 2), Temperature(true, 1)], 2)

  /** Decoder 1 gets a timestamp and then the end of text, decoder 0 at once the end of text. */
  function LeftSampler(j: nat): Sampler {
    Sampler((i, t) => false, i => false, None, (i, mask) => if j == 1 && i == 0 then 1200 else 100)
  }

  const LEFT_MODEL :=
    Model((n: nat, k: nat, j: nat) => LeftSampler(j), (n, k, j) => false, (n, k, j) => Some(0.0), (n, k) => true, n => false)

  lemma LeftRuns(k: nat)
    ensures Made(LEFT_SETUP, LEFT_MODEL, LEFT_WINDOW, 0, k, 0).failed
    ensures !Made(LEFT_SETUP, LEFT_MODEL, LEFT_WINDOW, 0, k, 1).failed
  {
    var s := LeftSampler(1);
    var first := Stepped(VOCAB, LEFT_WINDOW, s, START);
    assert first == Track([1200], true, 2000, 1, false, false);
    var second := Stepped(VOCAB, LEFT_WINDOW, s, first);
    assert second == Track([1200, 100], true, 2000, 1, false, true);
    assert Run(VOCAB, LEFT_WINDOW, s, START) == Run(VOCAB, LEFT_WINDOW, s, first) == second;
    var failed := Stepped(VOCAB, LEFT_WINDOW, LeftSampler(0), START);
    assert failed == Track([100], false, 3000, 0, true, false);
    assert Run(VOCAB, LEFT_WINDOW, LeftSampler(0), START) == Run(VOCAB, LEFT_WINDOW, LeftSampler(0), failed) == failed;
  }

  /** A track that is left over is used: after two attempts, of which the second has one decoder less and
      ranks none, the best decoder is one that only the first had. */
  lemma LeftOverIsBest(best: nat)
    requires IsBest(LEFT_SETUP, LEFT_MODEL, LEFT_WINDOW, 0, 2, best)
    ensures ValidSetup(LEFT_SETUP) && ValidModel(LEFT_SETUP, LEFT_MODEL)
    ensures best == 1 && MadeLastIn(LEFT_SETUP, best, 2, 0)
  {
    LeftRuns(0);
    LeftRuns(1);
    assert Ranked(LEFT_SETUP, LEFT_MODEL, LEFT_WINDOW, 0, 0, 1);
    assert !NoneRanked(LEFT_SETUP, LEFT_MODEL, LEFT_WINDOW, 0, 0, 2);
  }
}
