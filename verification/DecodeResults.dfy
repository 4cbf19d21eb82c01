/** What a window's tokens say about its result: where a decoder stops, which of its tokens are kept, how
    far the window then moves on, and exactly which tokens the timestamp rules forbid. */
module DecodeResults {
  import opened Wrappers
  import opened DecodeLoop

  // ----- the result, told by the tokens alone

  /** The result ends with the last timestamp; there is none before the first one. */
  predicate EndsAtMark(v: Vocab, d: Track) {
    match LastLaterMark(v, d.tokens)
    case None => d.resultLen == 0
    case Some(t) =>
      && 0 < d.resultLen <= |d.tokens| && d.tokens[d.resultLen - 1] == t
      && forall k :: d.resultLen <= k < |d.tokens| ==> !IsLaterMark(v, d.tokens[k])
  }

  /** How far a window moves on by its last timestamp: to where it points, or by the whole chunk. */
  function ByMark(v: Vocab, tokens: Tokens): int {
    match LastLaterMark(v, tokens)
    case None => 100 * CHUNK
    case Some(t) => 2 * (t - v.beg)
  }

  /** The last token is a timestamp before the last one, and not right behind it. */
  predicate BackInTime(v: Vocab, tokens: Tokens) {
    && |tokens| >= 2
    && var i := |tokens| - 1;
       && IsLaterMark(v, tokens[i]) && !IsLaterMark(v, tokens[i - 1])
       && LastLaterMark(v, tokens[..i]).Some? && tokens[i] < LastLaterMark(v, tokens[..i]).value
  }

  /** All tokens but one that goes back in time. */
  function Kept(v: Vocab, tokens: Tokens): Tokens {
    if BackInTime(v, tokens) then tokens[..|tokens| - 1] else tokens
  }

  /** How long the result of a decoder is, and how far the window moves on. */
  predicate ResultRight(v: Vocab, w: Window, d: Track) {
    && (!d.completed && !d.failed ==> EndsAtMark(v, d) && d.seekDelta == ByMark(v, d.tokens))
    && (d.completed && (w.singleSegment || w.noTimestamps) ==> d.resultLen == |d.tokens| && d.seekDelta == 100 * CHUNK)
    && (d.completed && !w.singleSegment && !w.noTimestamps ==>
          && d.seekDelta == ByMark(v, d.tokens)
          && if LastLaterMark(v, d.tokens).Some? then EndsAtMark(v, d) else d.resultLen == |d.tokens|)
    && (d.failed ==> EndsAtMark(v, d.(tokens := Kept(v, d.tokens))) && d.seekDelta == ByMark(v, Kept(v, d.tokens)))
  }

  lemma FollowedEndsAtMark(v: Vocab, d: Track, t: nat)
    requires EndsAtMark(v, d) && Knows(v, d)
    ensures var now := Followed(v, d.(tokens := d.tokens + [t]), |d.tokens|);
            EndsAtMark(v, now) && Knows(v, now) && now.seekDelta == ByMark(v, now.tokens)
  {
    var tokens := d.tokens + [t];
    assert tokens[..|tokens| - 1] == d.tokens;
  }

  lemma BackExactly(v: Vocab, d: Track, t: nat)
    requires Knows(v, d) && EndsAtMark(v, d)
    ensures GoesBack(v, d.(tokens := d.tokens + [t]), |d.tokens|) <==> BackInTime(v, d.tokens + [t])
  {
    assert (d.tokens + [t])[..|d.tokens|] == d.tokens;
    if d.tokens != [] && IsLaterMark(v, d.tokens[|d.tokens| - 1]) {
      assert d.resultLen == |d.tokens|;
    }
  }

  lemma OutcomeRight(v: Vocab, w: Window, d: Track)
    requires Active(d) && Knows(v, d) && EndsAtMark(v, d) && d.tokens != [] && d.seekDelta == ByMark(v, d.tokens)
    requires !BackInTime(v, d.tokens)
    ensures var now := DecodeLoop.Outcome(v, w, d, |d.tokens| - 1);
            ResultRight(v, w, now) && (Active(now) ==> Knows(v, now))
  {
  }

  lemma SteppedRight(v: Vocab, w: Window, s: Sampler, d: Track)
    requires ValidVocab(v) && Active(d) && ResultRight(v, w, d) && Knows(v, d)
    ensures var now := Stepped(v, w, s, d); ResultRight(v, w, now) && (Active(now) ==> Knows(v, now))
  {
    var t := s.pick(|d.tokens|, MaskAfter(v, s, d.tokens));
    var now := d.(tokens := d.tokens + [t]);
    BackExactly(v, d, t);
    if GoesBack(v, now, |d.tokens|) {
      assert Kept(v, now.tokens) == d.tokens;
    } else {
      FollowedEndsAtMark(v, d, t);
      OutcomeRight(v, w, Followed(v, now, |d.tokens|));
    }
  }

  lemma {:induction false} RunRight(v: Vocab, w: Window, s: Sampler, d: Track)
    requires ValidVocab(v) && ResultRight(v, w, d) && (Active(d) ==> Knows(v, d))
    ensures ResultRight(v, w, Run(v, w, s, d))
    decreases w.steps - |d.tokens|
  {
    if |d.tokens| < w.steps && Active(d) {
      SteppedRight(v, w, s, d);
      RunRight(v, w, s, Stepped(v, w, s, d));
    }
  }

  /** Cutting the tokens off behind the result loses no timestamp. */
  lemma KeptMark(v: Vocab, w: Window, d: Track)
    requires ResultRight(v, w, d) && !d.failed && d.resultLen <= |d.tokens|
    ensures LastLaterMark(v, d.tokens[..d.resultLen]) == LastLaterMark(v, d.tokens)
  {
    if d.resultLen == |d.tokens| {
      assert d.tokens[..d.resultLen] == d.tokens;
    } else if LastLaterMark(v, d.tokens).Some? {
      var kept := d.tokens[..d.resultLen];
      MarkIsLater(v, d.tokens);
      assert kept[|kept| - 1] == d.tokens[d.resultLen - 1];
    }
  }

  lemma {:induction false} MarkIsLater(v: Vocab, tokens: Tokens)
    ensures LastLaterMark(v, tokens).Some? ==> IsLaterMark(v, LastLaterMark(v, tokens).value)
    decreases |tokens|
  {
    if tokens != [] {
      MarkIsLater(v, tokens[..|tokens| - 1]);
    }
  }

  // ----- where a decoder stops

  /** The last of these tokens ends the window: the end of text, one too many, or the timestamps have come
      to the end of the audio. */
  predicate EndsWith(v: Vocab, w: Window, tokens: Tokens) {
    && tokens != []
    && var i := |tokens| - 1;
       || tokens[i] == v.eot
       || (w.maxTokens > 0 && i >= w.maxTokens)
       || (LastLaterMark(v, tokens).Some? && w.seek + ByMark(v, tokens) + w.deltaMin >= w.seekEnd)
  }

  /** None of the first n tokens does. */
  predicate NotBefore(v: Vocab, w: Window, tokens: Tokens, n: nat) {
    n <= |tokens| && forall k :: 0 < k <= n ==> !EndsWith(v, w, tokens[..k])
  }

  /** At the end of the window nothing has been found: no timestamp, where one is wanted, and more audio. */
  predicate NothingFound(v: Vocab, w: Window, tokens: Tokens) {
    LastLaterMark(v, tokens).None? && !w.noTimestamps && w.seek + 100 * CHUNK + w.deltaMin < w.seekEnd
  }

  /** No token but the last ends the window. A decoder fails at one that goes back in time. At one that
      ends the window it fails if nothing has been found, and completes otherwise; at any other one it
      fails in the last iteration, if it has come less than half way, and goes on otherwise. */
  predicate StopsRight(v: Vocab, w: Window, d: Track) {
    && NotBefore(v, w, d.tokens, if d.tokens == [] then 0 else |d.tokens| - 1)
    && d.failed == FailsAt(v, w, d.tokens)
    && d.completed == (EndsWith(v, w, d.tokens) && !BackInTime(v, d.tokens) && !NothingFound(v, w, d.tokens))
    && (!d.completed && !d.failed ==> NotBefore(v, w, d.tokens, |d.tokens|))
  }

  predicate FailsAt(v: Vocab, w: Window, tokens: Tokens) {
    && tokens != []
    && (|| BackInTime(v, tokens)
        || if EndsWith(v, w, tokens) then NothingFound(v, w, tokens)
           else |tokens| == w.steps && (LastLaterMark(v, tokens).None? || ByMark(v, tokens) < 100 * CHUNK / 2))
  }

  lemma OneMoreNotBefore(v: Vocab, w: Window, tokens: Tokens, t: nat)
    requires NotBefore(v, w, tokens, |tokens|)
    ensures NotBefore(v, w, tokens + [t], |tokens|)
    ensures !EndsWith(v, w, tokens + [t]) ==> NotBefore(v, w, tokens + [t], |tokens| + 1)
  {
    var more := tokens + [t];
    assert more[..|more|] == more;
    forall k | 0 < k <= |tokens| ensures !EndsWith(v, w, more[..k]) {
      assert more[..k] == tokens[..k];
    }
  }

  lemma SteppedStops(v: Vocab, w: Window, s: Sampler, d: Track)
    requires ValidVocab(v) && Active(d) && Knows(v, d) && EndsAtMark(v, d) && NotBefore(v, w, d.tokens, |d.tokens|)
    ensures StopsRight(v, w, Stepped(v, w, s, d))
  {
    var t := s.pick(|d.tokens|, MaskAfter(v, s, d.tokens));
    OneMoreNotBefore(v, w, d.tokens, t);
    TokenStops(v, w, d, t);
  }

  /** What the token t makes of a decoder. */
  lemma TokenStops(v: Vocab, w: Window, d: Track, t: nat)
    requires ValidVocab(v) && Active(d) && Knows(v, d) && EndsAtMark(v, d)
    requires NotBefore(v, w, d.tokens + [t], |d.tokens|)
    requires !EndsWith(v, w, d.tokens + [t]) ==> NotBefore(v, w, d.tokens + [t], |d.tokens| + 1)
    ensures var now := d.(tokens := d.tokens + [t]);
            StopsRight(v, w, if GoesBack(v, now, |d.tokens|) then now.(failed := true)
                             else DecodeLoop.Outcome(v, w, Followed(v, now, |d.tokens|), |d.tokens|))
  {
    var now := d.(tokens := d.tokens + [t]);
    assert now.tokens[..|d.tokens|] == d.tokens;
    BackExactly(v, d, t);
    if !GoesBack(v, now, |d.tokens|) {
      FollowedEndsAtMark(v, d, t);
      FollowedStops(v, w, Followed(v, now, |d.tokens|));
    }
  }

  lemma FollowedStops(v: Vocab, w: Window, d: Track)
    requires ValidVocab(v) && Active(d) && Knows(v, d) && EndsAtMark(v, d) && d.tokens != [] && d.seekDelta == ByMark(v, d.tokens)
    requires NotBefore(v, w, d.tokens, |d.tokens| - 1) && !BackInTime(v, d.tokens)
    requires !EndsWith(v, w, d.tokens) ==> NotBefore(v, w, d.tokens, |d.tokens|)
    ensures StopsRight(v, w, DecodeLoop.Outcome(v, w, d, |d.tokens| - 1))
  {
    assert EndsWith(v, w, d.tokens) <==> Ends(v, w, d, |d.tokens| - 1);
    assert HasResult(w, d) <==> !NothingFound(v, w, d.tokens);
  }

  lemma {:induction false} RunStops(v: Vocab, w: Window, s: Sampler, d: Track)
    requires ValidVocab(v) && StopsRight(v, w, d) && ResultRight(v, w, d) && (Active(d) ==> Knows(v, d))
    ensures StopsRight(v, w, Run(v, w, s, d))
    ensures var r := Run(v, w, s, d); !r.completed && !r.failed ==> |r.tokens| >= w.steps
    decreases w.steps - |d.tokens|
  {
    if |d.tokens| < w.steps && Active(d) {
      SteppedStops(v, w, s, d);
      SteppedRight(v, w, s, d);
      RunStops(v, w, s, Stepped(v, w, s, d));
    }
  }

  /** A whole window: where the decoder stops, what it keeps, and how far the window moves on. */
  lemma WindowResult(v: Vocab, w: Window, s: Sampler)
    requires ValidVocab(v)
    ensures var d := Run(v, w, s, START); ResultRight(v, w, d) && StopsRight(v, w, d)
    ensures var d := Run(v, w, s, START); !d.completed && !d.failed ==> |d.tokens| >= w.steps
  {
    RunRight(v, w, s, START);
    RunStops(v, w, s, START);
  }

  // ----- the timestamp rules

  /** Of a history that keeps the rules, exactly those tokens are forbidden that would break the pairing,
      go back in time, or begin with a timestamp that is too late. */
  lemma ForbiddenExactly(v: Vocab, d: Track, maxInitial: Option<nat>, t: nat)
    requires ValidVocab(v) && OnRails(v, d)
    ensures Forbidden(v, d.tokens, d.hasTs, d.seekDelta, maxInitial, t) <==>
              || !Paired(v, d.tokens + [t]) || !NeverBack(v, d.tokens + [t])
              || (d.tokens == [] && maxInitial.Some? && t > v.beg + maxInitial.value)
  {
    var more := d.tokens + [t];
    if Paired(v, more) && d.tokens != [] {
      assert PairedAt(v, more, |d.tokens|);
    }
    if NeverBack(v, more) && d.hasTs {
      var k := MarkAt(v, d.tokens);
      assert more[k] == d.tokens[k] && more[|d.tokens|] == t;
    }
    if !Forbidden(v, d.tokens, d.hasTs, d.seekDelta, maxInitial, t) {
      StillNeverBack(v, d, t, maxInitial);
      StillPaired(v, d.tokens, d.hasTs, d.seekDelta, maxInitial, t);
    }
  }

  lemma {:induction false} MarkAt(v: Vocab, tokens: Tokens) returns (k: nat)
    requires LastLaterMark(v, tokens).Some?
    ensures k < |tokens| && tokens[k] == LastLaterMark(v, tokens).value && IsLaterMark(v, tokens[k])
    decreases |tokens|
  {
    if IsLaterMark(v, tokens[|tokens| - 1]) {
      k := |tokens| - 1;
    } else {
      k := MarkAt(v, tokens[..|tokens| - 1]);
    }
  }

  /** A window does not begin with a timestamp later than the first one may be. */
  lemma FirstMarkIsEarly(v: Vocab, s: Sampler, tokens: Tokens)
    requires Unmasked(v, s, tokens) && tokens != [] && s.maxInitial.Some?
    ensures tokens[0] <= v.beg + s.maxInitial.value
  {
    assert !MaskedAfter(v, s, tokens[..0], tokens[0]);
  }
}
