/** What keeps decoding on its rails: which tokens the logit filters leave, how a decoder follows the
    timestamps it emits, how long a prompt may be, and why windows move on. */
module DecodeLoop {
  import opened Wrappers

  /** Text tokens come before eot, timestamps from beg on; beg itself is the window's start. */
  datatype Vocab = Vocab(eot: nat, beg: nat, size: nat)

  type Tokens = seq<nat>

  const CHUNK := 30

  predicate ValidVocab(v: Vocab) {
    v.eot < v.beg < v.size
  }

  predicate IsMark(v: Vocab, t: nat) {
    t >= v.beg
  }

  predicate IsLaterMark(v: Vocab, t: nat) {
    t > v.beg
  }

  // ----- filters

  predicate LastIsMark(v: Vocab, tokens: Tokens) {
    tokens != [] && IsMark(v, tokens[|tokens| - 1])
  }

  /** True also when there is no token before the last. */
  predicate OneBeforeIsMark(v: Vocab, tokens: Tokens) {
    |tokens| < 2 || IsMark(v, tokens[|tokens| - 2])
  }

  /** The timestamp rules forbid token t after these. */
  predicate Forbidden(v: Vocab, tokens: Tokens, hasTs: bool, seekDelta: int, maxInitial: Option<nat>, t: nat) {
    || (LastIsMark(v, tokens) && OneBeforeIsMark(v, tokens) && IsMark(v, t))
    || (LastIsMark(v, tokens) && !OneBeforeIsMark(v, tokens) && t < v.eot)
    || (tokens == [] && maxInitial.Some? && t > v.beg + maxInitial.value)
    || (hasTs && v.beg <= t < v.beg + seekDelta / 2)
  }

  method MaskRange(masked: array<bool>, from: nat, end: int)
    requires end <= masked.Length
    modifies masked
    ensures forall i :: 0 <= i < masked.Length ==> (masked[i] <==> old(masked[i]) || from <= i < end)
  {
    var i := from;
    while i < end
      invariant from <= i && (if from <= end then i <= end else i == from)
      invariant forall k :: 0 <= k < masked.Length ==> (masked[k] <==> old(masked[k]) || from <= k < i)
    {
      masked[i] := true;
      i := i + 1;
    }
  }

  /** The timestamp rules, on top of whatever other filters and callbacks have masked. When timestamps
      are together more likely than any other token, those are masked as well. */
  method MaskTimestamps(v: Vocab, tokens: Tokens, hasTs: bool, seekDelta: int, maxInitial: Option<nat>, preferMarks: bool,
                        masked: array<bool>)
    requires ValidVocab(v) && masked.Length == v.size && (hasTs ==> v.beg + seekDelta / 2 <= v.size)
    modifies masked
    ensures forall t: nat :: t < v.size ==>
              (masked[t] <==> old(masked[t]) || Forbidden(v, tokens, hasTs, seekDelta, maxInitial, t) || (preferMarks && t < v.beg))
  {
    var last := |tokens| > 0 && tokens[|tokens| - 1] >= v.beg;
    var oneBefore := |tokens| < 2 || tokens[|tokens| - 2] >= v.beg;
    if last {
      if oneBefore {
        MaskRange(masked, v.beg, v.size);
      } else {
        MaskRange(masked, 0, v.eot);
      }
    }
    if tokens == [] && maxInitial.Some? {
      MaskRange(masked, v.beg + maxInitial.value + 1, v.size);
    }
    if hasTs {
      MaskRange(masked, v.beg, v.beg + seekDelta / 2);
    }
    if preferMarks {
      MaskRange(masked, 0, v.beg);
    }
  }

  // ----- one decoder

  datatype Track = Track(tokens: Tokens, hasTs: bool, seekDelta: int, resultLen: nat, failed: bool, completed: bool)

  /** How a window is decoded. */
  datatype Window = Window(seek: int, seekEnd: int, deltaMin: int, maxTokens: nat, singleSegment: bool, noTimestamps: bool, steps: nat)

  const START := Track([], false, 100 * CHUNK, 0, false, false)

  predicate Active(d: Track) {
    !d.failed && !d.completed
  }

  /** The failure for a timestamp that is earlier than the last. */
  predicate GoesBack(v: Vocab, d: Track, i: nat)
    requires d.tokens != []
  {
    var t := d.tokens[|d.tokens| - 1];
    IsLaterMark(v, t) && d.hasTs && d.seekDelta > 2 * (t - v.beg) && d.resultLen < i
  }

  /** Follows the last token of a decoder in iteration i. */
  method Follow(v: Vocab, w: Window, before: Track, i: nat) returns (d: Track, ghost wentBack: bool)
    requires ValidVocab(v) && Active(before) && before.tokens != []
    ensures wentBack == GoesBack(v, before, i)
    ensures d.tokens == before.tokens
    ensures d == if GoesBack(v, before, i) then before.(failed := true) else Outcome(v, w, Followed(v, before, i), i)
    ensures Active(d) ==> !GoesBack(v, before, i) && d == Followed(v, before, i)
    ensures !GoesBack(v, before, i) && d.failed ==> d.resultLen == 0 || i + 1 == w.steps
    ensures d.completed ==> d.resultLen > 0
    ensures before.resultLen <= i ==> d.resultLen <= i + 1
    ensures before.seekDelta >= 2 ==> d.seekDelta >= 2
    ensures before.tokens[|before.tokens| - 1] == v.eot ==> !Active(d)
  {
    d, wentBack := before, false;
    var t := d.tokens[|d.tokens| - 1];
    if t > v.beg {
      var next := 2 * (t - v.beg);
      if d.hasTs && d.seekDelta > next && d.resultLen < i {
        wentBack := true;
        d := d.(failed := true);
        return;
      }
      d := d.(seekDelta := next, resultLen := i + 1, hasTs := true);
    }
    if t == v.eot || (w.maxTokens > 0 && i >= w.maxTokens) || (d.hasTs && w.seek + d.seekDelta + w.deltaMin >= w.seekEnd) {
      if d.resultLen == 0 && !w.noTimestamps {
        if w.seek + d.seekDelta + w.deltaMin >= w.seekEnd {
          d := d.(resultLen := i + 1);
        } else {
          d := d.(failed := true);
          return;
        }
      }
      if w.singleSegment || w.noTimestamps {
        d := d.(resultLen := i + 1, seekDelta := 100 * CHUNK);
      }
      d := d.(completed := true);
      return;
    }
    if i + 1 == w.steps && (d.resultLen == 0 || d.seekDelta < 100 * CHUNK / 2) {
      d := d.(failed := true);
    }
  }

  predicate NearEnd(w: Window, d: Track) {
    w.seek + d.seekDelta + w.deltaMin >= w.seekEnd
  }

  /** The end of text, enough tokens, or the end of the audio. */
  predicate Ends(v: Vocab, w: Window, d: Track, i: nat)
    requires d.tokens != []
  {
    d.tokens[|d.tokens| - 1] == v.eot || (w.maxTokens > 0 && i >= w.maxTokens) || (d.hasTs && NearEnd(w, d))
  }

  /** There is something to keep: a timestamp, or no need of one. */
  predicate HasResult(w: Window, d: Track) {
    d.resultLen > 0 || w.noTimestamps || NearEnd(w, d)
  }

  /** What a decoder that goes on keeps of its last token. */
  function Followed(v: Vocab, d: Track, i: nat): Track
    requires d.tokens != []
  {
    var t := d.tokens[|d.tokens| - 1];
    if IsLaterMark(v, t) then d.(seekDelta := 2 * (t - v.beg), resultLen := i + 1, hasTs := true) else d
  }

  /** Whether a decoder completes, fails, or goes on, once its last token has been looked at. */
  function Outcome(v: Vocab, w: Window, d: Track, i: nat): Track
    requires d.tokens != []
  {
    if Ends(v, w, d, i) then
      if HasResult(w, d) then Finished(w, d, i) else d.(failed := true)
    else if i + 1 == w.steps && (d.resultLen == 0 || d.seekDelta < 100 * CHUNK / 2) then d.(failed := true)
    else d
  }

  /** A completed decoder keeps everything up to its last timestamp; all its tokens where there is no
      timestamp, or none is wanted. */
  function Finished(w: Window, d: Track, i: nat): Track {
    if w.singleSegment || w.noTimestamps then d.(resultLen := i + 1, seekDelta := 100 * CHUNK, completed := true)
    else d.(resultLen := if d.resultLen == 0 then i + 1 else d.resultLen, completed := true)
  }

  /** The place of the last timestamp after beg. */
  function LastLaterMark(v: Vocab, tokens: Tokens): Option<nat> {
    if tokens == [] then None
    else if IsLaterMark(v, tokens[|tokens| - 1]) then Some(tokens[|tokens| - 1])
    else LastLaterMark(v, tokens[..|tokens| - 1])
  }

  /** The decoder knows its last timestamp. */
  predicate Knows(v: Vocab, d: Track) {
    var last := LastLaterMark(v, d.tokens);
    && d.hasTs == last.Some?
    && (last.Some? ==> d.seekDelta == 2 * (last.value - v.beg) && last.value > v.beg)
    && (last.None? ==> d.seekDelta == 100 * CHUNK)
  }

  // ----- runs

  /** No timestamp is earlier than one before it. */
  predicate NeverBack(v: Vocab, tokens: Tokens) {
    forall a, b :: 0 <= a < b < |tokens| && IsLaterMark(v, tokens[a]) && IsMark(v, tokens[b]) ==> tokens[a] <= tokens[b]
  }

  /** After a leading timestamp, or two in a row, comes no third; after one behind text comes no text. */
  predicate Paired(v: Vocab, tokens: Tokens) {
    forall k :: 0 < k < |tokens| ==> PairedAt(v, tokens, k)
  }

  predicate PairedAt(v: Vocab, tokens: Tokens, k: nat)
    requires 0 < k < |tokens|
  {
    IsMark(v, tokens[k - 1]) ==>
      if k == 1 || IsMark(v, tokens[k - 2]) then !IsMark(v, tokens[k]) else tokens[k] >= v.eot
  }

  /** Everything said here about a decoder, in whatever way it was sampled. */
  predicate OnRails(v: Vocab, d: Track) {
    Knows(v, d) && NeverBack(v, d.tokens) && Paired(v, d.tokens)
  }

  lemma {:induction false} MarksBelowLast(v: Vocab, tokens: Tokens, a: nat)
    requires NeverBack(v, tokens) && a < |tokens| && IsLaterMark(v, tokens[a])
    ensures LastLaterMark(v, tokens).Some? && tokens[a] <= LastLaterMark(v, tokens).value
    decreases |tokens|
  {
    var last := |tokens| - 1;
    if !IsLaterMark(v, tokens[last]) {
      MarksBelowLast(v, tokens[..last], a);
    }
  }

  lemma StillNeverBack(v: Vocab, d: Track, t: nat, maxInitial: Option<nat>)
    requires OnRails(v, d) && !Forbidden(v, d.tokens, d.hasTs, d.seekDelta, maxInitial, t)
    ensures NeverBack(v, d.tokens + [t])
    ensures IsLaterMark(v, t) && d.hasTs ==> d.seekDelta <= 2 * (t - v.beg)
  {
    var tokens := d.tokens + [t];
    forall a | 0 <= a < |d.tokens| && IsLaterMark(v, tokens[a]) && IsMark(v, t) ensures tokens[a] <= t {
      MarksBelowLast(v, d.tokens, a);
    }
  }

  lemma StillPaired(v: Vocab, tokens: Tokens, hasTs: bool, seekDelta: int, maxInitial: Option<nat>, t: nat)
    requires Paired(v, tokens) && !Forbidden(v, tokens, hasTs, seekDelta, maxInitial, t)
    ensures Paired(v, tokens + [t])
  {
    forall k | 0 < k < |tokens| + 1 ensures PairedAt(v, tokens + [t], k) {
      if k < |tokens| {
        assert PairedAt(v, tokens, k);
      }
    }
  }

  lemma StillKnows(v: Vocab, d: Track, t: nat, i: nat)
    requires Knows(v, d)
    ensures Knows(v, Followed(v, d.(tokens := d.tokens + [t]), i))
  {
    var tokens := d.tokens + [t];
    assert tokens[..|tokens| - 1] == d.tokens;
  }

  /** A sampled token that was not forbidden does not go back in time, and keeps the decoder on rails. */
  lemma UnmaskedKeepsRails(v: Vocab, d: Track, t: nat, maxInitial: Option<nat>, i: nat)
    requires ValidVocab(v) && OnRails(v, d) && !Forbidden(v, d.tokens, d.hasTs, d.seekDelta, maxInitial, t)
    ensures var now := d.(tokens := d.tokens + [t]);
            && !GoesBack(v, now, i) && OnRails(v, Followed(v, now, i)) && now.seekDelta >= 2
  {
    StillNeverBack(v, d, t, maxInitial);
    StillPaired(v, d.tokens, d.hasTs, d.seekDelta, maxInitial, t);
    StillKnows(v, d, t, i);
  }

  lemma StartOnRails(v: Vocab)
    ensures OnRails(v, START)
  {
  }

  /** What a decoder does not decide itself: the tokens that other filters and callbacks mask in an
      iteration, whether timestamps are together more likely there, and what is then picked. */
  datatype Sampler = Sampler(masked: (nat, nat) -> bool, prefers: nat -> bool, maxInitial: Option<nat>, pick: (nat, seq<bool>) -> nat)

  /** It picks tokens of the vocabulary. */
  ghost predicate ValidSampler(v: Vocab, s: Sampler) {
    forall i, mask :: |mask| == v.size ==> s.pick(i, mask) < v.size
  }

  predicate InVocab(v: Vocab, tokens: Tokens) {
    forall k :: 0 <= k < |tokens| ==> tokens[k] < v.size
  }

  /** Token t is masked when these tokens have been decoded. */
  predicate MaskedAfter(v: Vocab, s: Sampler, tokens: Tokens, t: nat) {
    var last := LastLaterMark(v, tokens);
    || s.masked(|tokens|, t)
    || Forbidden(v, tokens, last.Some?, if last.Some? then 2 * (last.value - v.beg) else 100 * CHUNK, s.maxInitial, t)
    || (s.prefers(|tokens|) && t < v.beg)
  }

  function MaskAfter(v: Vocab, s: Sampler, tokens: Tokens): (mask: seq<bool>)
    ensures |mask| == v.size && forall t :: 0 <= t < v.size ==> mask[t] == MaskedAfter(v, s, tokens, t)
  {
    seq(v.size, t requires 0 <= t < v.size => MaskedAfter(v, s, tokens, t))
  }

  /** Each token was picked, given those before it. */
  ghost predicate PickedBy(v: Vocab, s: Sampler, tokens: Tokens) {
    forall k :: 0 <= k < |tokens| ==> tokens[k] == s.pick(k, MaskAfter(v, s, tokens[..k]))
  }

  /** No token was masked when it was picked. */
  predicate Unmasked(v: Vocab, s: Sampler, tokens: Tokens) {
    forall k :: 0 <= k < |tokens| ==> !MaskedAfter(v, s, tokens[..k], tokens[k])
  }

  lemma OneMorePicked(v: Vocab, s: Sampler, tokens: Tokens, t: nat)
    requires PickedBy(v, s, tokens) && t == s.pick(|tokens|, MaskAfter(v, s, tokens))
    ensures PickedBy(v, s, tokens + [t])
    ensures Unmasked(v, s, tokens + [t]) <==> Unmasked(v, s, tokens) && !MaskedAfter(v, s, tokens, t)
  {
    var more := tokens + [t];
    assert forall k :: 0 <= k <= |tokens| ==> more[..k] == tokens[..k];
    assert more[..|tokens|] == tokens[..|tokens|] == tokens;
    if Unmasked(v, s, more) {
      assert !MaskedAfter(v, s, more[..|tokens|], more[|tokens|]);
      forall k | 0 <= k < |tokens| ensures !MaskedAfter(v, s, tokens[..k], tokens[k]) {
        assert !MaskedAfter(v, s, more[..k], more[k]);
      }
    }
  }

  /** Unless its sampler picks masked tokens, a decoder that has results is on rails. */
  predicate Decoding(v: Vocab, s: Sampler, d: Track) {
    Knows(v, d) && (Unmasked(v, s, d.tokens) ==> OnRails(v, d))
  }

  /** Masks the logits and picks a token. */
  method PickToken(v: Vocab, s: Sampler, d: Track) returns (t: nat)
    requires ValidVocab(v) && Knows(v, d) && InVocab(v, d.tokens)
    ensures t == s.pick(|d.tokens|, MaskAfter(v, s, d.tokens))
  {
    LastIsInVocab(v, d.tokens);
    var i := |d.tokens|;
    var masked := new bool[v.size](t => t >= 0 && s.masked(i, t));
    MaskTimestamps(v, d.tokens, d.hasTs, d.seekDelta, s.maxInitial, s.prefers(i), masked);
    assert masked[..] == MaskAfter(v, s, d.tokens);
    t := s.pick(i, masked[..]);
  }

  /** What the pick of t does. */
  lemma AfterPick(v: Vocab, s: Sampler, before: Track, t: nat)
    requires ValidVocab(v) && Decoding(v, s, before) && PickedBy(v, s, before.tokens)
    requires t == s.pick(|before.tokens|, MaskAfter(v, s, before.tokens))
    ensures var now := before.(tokens := before.tokens + [t]);
            && PickedBy(v, s, now.tokens) && Decoding(v, s, Followed(v, now, |before.tokens|))
            && (Unmasked(v, s, now.tokens) ==>
                  !GoesBack(v, now, |before.tokens|) && NeverBack(v, now.tokens) && Paired(v, now.tokens))
  {
    OneMorePicked(v, s, before.tokens, t);
    StillKnows(v, before, t, |before.tokens|);
    if Unmasked(v, s, before.tokens + [t]) {
      UnmaskedKeepsRails(v, before, t, s.maxInitial, |before.tokens|);
    }
  }

  /** The token picked in an iteration, and what it makes of the decoder. */
  function Stepped(v: Vocab, w: Window, s: Sampler, d: Track): (r: Track)
    ensures |r.tokens| == |d.tokens| + 1
  {
    var i := |d.tokens|;
    var now := d.(tokens := d.tokens + [s.pick(i, MaskAfter(v, s, d.tokens))]);
    if GoesBack(v, now, i) then now.(failed := true) else Outcome(v, w, Followed(v, now, i), i)
  }

  /** All iterations that are left. */
  function Run(v: Vocab, w: Window, s: Sampler, d: Track): Track
    decreases w.steps - |d.tokens|
  {
    if |d.tokens| >= w.steps || !Active(d) then d else Run(v, w, s, Stepped(v, w, s, d))
  }

  /** One iteration of a decoder, for any logits. */
  method Iterate(v: Vocab, w: Window, s: Sampler, before: Track) returns (d: Track, ghost wentBack: bool)
    requires ValidVocab(v) && ValidSampler(v, s) && Active(before) && Decoding(v, s, before)
    requires InVocab(v, before.tokens) && PickedBy(v, s, before.tokens) && before.resultLen <= |before.tokens|
    ensures d == Stepped(v, w, s, before) && InVocab(v, d.tokens) && PickedBy(v, s, d.tokens)
    ensures |d.tokens| == |before.tokens| + 1 && d.tokens[..|before.tokens|] == before.tokens && d.resultLen <= |d.tokens|
    ensures before.seekDelta >= 2 ==> d.seekDelta >= 2
    ensures Active(d) ==> Decoding(v, s, d)
    ensures Unmasked(v, s, d.tokens) ==> NeverBack(v, d.tokens) && Paired(v, d.tokens)
    ensures Unmasked(v, s, d.tokens) ==> !wentBack
    ensures Unmasked(v, s, d.tokens) && d.failed ==> d.resultLen == 0 || |d.tokens| == w.steps
    ensures d.completed ==> d.resultLen > 0
  {
    var t := PickToken(v, s, before);
    AfterPick(v, s, before, t);
    d, wentBack := Follow(v, w, before.(tokens := before.tokens + [t]), |before.tokens|);
  }

  lemma {:induction false} LastIsInVocab(v: Vocab, tokens: Tokens)
    requires InVocab(v, tokens)
    ensures LastLaterMark(v, tokens).Some? ==> LastLaterMark(v, tokens).value < v.size
    decreases |tokens|
  {
    if tokens != [] {
      LastIsInVocab(v, tokens[..|tokens| - 1]);
    }
  }

  lemma UnmaskedSoFar(v: Vocab, s: Sampler, tokens: Tokens, n: nat)
    requires n <= |tokens| && Unmasked(v, s, tokens)
    ensures Unmasked(v, s, tokens[..n])
  {
    forall k | 0 <= k < n ensures !MaskedAfter(v, s, tokens[..n][..k], tokens[..n][k]) {
      assert tokens[..n][..k] == tokens[..k];
    }
  }

  /** The positions from 0 on. */
  predicate Consecutive(positions: seq<nat>) {
    forall k :: 0 <= k < |positions| ==> positions[k] == k
  }

  /** A decoder through a window, behind a prompt. Whatever is picked, the window moves on by at least 2.
      If nothing masked is picked, timestamps never go back and stay in pairs, the branch for going back in
      time is never taken, and a decoder that has a result fails in the last iteration or not at all. The
      positions of the batches, prompt first, are consecutive. */
  method DecodeWindow(v: Vocab, w: Window, s: Sampler, prompt: nat) returns (d: Track, positions: seq<nat>, ghost wentBack: bool)
    requires ValidVocab(v) && ValidSampler(v, s)
    ensures d == Run(v, w, s, START) && InVocab(v, d.tokens) && PickedBy(v, s, d.tokens)
    ensures |d.tokens| <= w.steps && (|d.tokens| < w.steps ==> !Active(d))
    ensures d.resultLen <= |d.tokens| && (d.completed ==> d.resultLen > 0)
    ensures d.seekDelta >= 2
    ensures Unmasked(v, s, d.tokens) ==> NeverBack(v, d.tokens) && Paired(v, d.tokens) && !wentBack
    ensures Unmasked(v, s, d.tokens) && d.failed ==> d.resultLen == 0 || |d.tokens| == w.steps
    ensures Consecutive(positions) && |positions| == prompt + if Active(d) then |d.tokens| else |d.tokens| - 1
  {
    StartOnRails(v);
    d, wentBack := START, false;
    positions := seq(prompt, k requires 0 <= k => k);
    while |d.tokens| < w.steps && Active(d)
      invariant Run(v, w, s, d) == Run(v, w, s, START)
      invariant |d.tokens| <= w.steps && InVocab(v, d.tokens) && PickedBy(v, s, d.tokens) && d.resultLen <= |d.tokens|
      invariant d.seekDelta >= 2 && (d.completed ==> d.resultLen > 0) && (Active(d) ==> Decoding(v, s, d))
      invariant Unmasked(v, s, d.tokens) ==> NeverBack(v, d.tokens) && Paired(v, d.tokens) && !wentBack
      invariant Unmasked(v, s, d.tokens) && d.failed ==> d.resultLen == 0 || |d.tokens| == w.steps
      invariant Consecutive(positions) && |positions| == prompt + if Active(d) then |d.tokens| else |d.tokens| - 1
      decreases w.steps - |d.tokens|
    {
      ghost var before, back := d, wentBack;
      d, positions, wentBack := NextStep(v, w, s, d, positions, prompt);
      if Unmasked(v, s, d.tokens) {
        UnmaskedSoFar(v, s, d.tokens, |before.tokens|);
      }
      wentBack := wentBack || back;
    }
  }

  /** An iteration, and the batch for the next one when the decoder goes on. */
  method NextStep(v: Vocab, w: Window, s: Sampler, before: Track, positionsBefore: seq<nat>, prompt: nat)
    returns (d: Track, positions: seq<nat>, ghost wentBack: bool)
    requires ValidVocab(v) && ValidSampler(v, s) && Active(before) && Decoding(v, s, before)
    requires InVocab(v, before.tokens) && PickedBy(v, s, before.tokens) && before.resultLen <= |before.tokens|
    requires Consecutive(positionsBefore) && |positionsBefore| == prompt + |before.tokens| && before.seekDelta >= 2
    ensures d == Stepped(v, w, s, before) && InVocab(v, d.tokens) && PickedBy(v, s, d.tokens)
    ensures |d.tokens| == |before.tokens| + 1 && d.tokens[..|before.tokens|] == before.tokens && d.resultLen <= |d.tokens|
    ensures d.seekDelta >= 2 && (d.completed ==> d.resultLen > 0) && (Active(d) ==> Decoding(v, s, d))
    ensures Unmasked(v, s, d.tokens) ==> NeverBack(v, d.tokens) && Paired(v, d.tokens) && !wentBack
    ensures Unmasked(v, s, d.tokens) && d.failed ==> d.resultLen == 0 || |d.tokens| == w.steps
    ensures Consecutive(positions) && |positions| == prompt + if Active(d) then |d.tokens| else |d.tokens| - 1
  {
    d, wentBack := Iterate(v, w, s, before);
    positions := positionsBefore;
    if Active(d) {
      var i := |d.tokens| - 1;
      positions := positions + [prompt + i];
    }
  }

  // ----- prompts and positions

  /** The history a prompt has room for. */
  function MaxPrompt(maxTextCtx: nat, textCtx: nat): (n: nat)
    ensures n <= maxTextCtx && 2 * n <= textCtx && (n == maxTextCtx || 2 * n + 1 >= textCtx)
  {
    if maxTextCtx < textCtx / 2 then maxTextCtx else textCtx / 2
  }

  /** How much of a carried prompt is kept. */
  function CarryLimit(maxPrompt: nat): nat {
    if maxPrompt < 2 then 1 else maxPrompt - 1
  }

  /** The tokens of an initial prompt that is carried along: the last ones that fit. */
  method CarryPrompt(prompt: Tokens, maxPrompt: nat) returns (carried: Tokens)
    ensures |carried| <= CarryLimit(maxPrompt) && |carried| <= |prompt| && carried == prompt[|prompt| - |carried|..]
    ensures |carried| == CarryLimit(maxPrompt) || carried == prompt
  {
    var max := CarryLimit(maxPrompt);
    var n := if |prompt| < max then |prompt| else max;
    carried := prompt[|prompt| - n..];
  }

  /** What a prompt is made of. */
  function PromptOf(carried: Tokens, rolling: Tokens, init: Tokens, prev: nat, useHistory: bool, maxPrompt: nat): Tokens
    requires |carried| <= CarryLimit(maxPrompt) && (maxPrompt == 1 ==> carried == [])
  {
    if useHistory && maxPrompt > 0 && (carried != [] || rolling != []) then
      var room := maxPrompt - |carried| - 1;
      [prev] + carried + rolling[|rolling| - (if room < |rolling| then room else |rolling|)..] + init
    else init
  }

  /** The prompt of a window: the carried tokens, the latest of the rolling ones that fit behind them,
      and the tokens that say what to do. A carried prompt with room for one token only is not covered. */
  method BuildPrompt(carried: Tokens, rolling: Tokens, init: Tokens, prev: nat, useHistory: bool, maxPrompt: nat)
    returns (prompt: Tokens, ghost taken: nat)
    requires |carried| <= CarryLimit(maxPrompt) && (maxPrompt == 1 ==> carried == [])
    ensures if useHistory && maxPrompt > 0 && (carried != [] || rolling != []) then
              && taken <= |rolling| && prompt == [prev] + carried + rolling[|rolling| - taken..] + init
              && taken == (if maxPrompt - |carried| - 1 < |rolling| then maxPrompt - |carried| - 1 else |rolling|)
            else prompt == init
    ensures prompt == PromptOf(carried, rolling, init, prev, useHistory, maxPrompt)
    ensures |prompt| <= maxPrompt + |init|
  {
    prompt, taken := [], 0;
    if useHistory {
      if maxPrompt > 0 && (carried != [] || rolling != []) {
        prompt := [prev];
        var n := 0;
        if carried != [] {
          n := |carried|;
          prompt := prompt + carried[|carried| - n..];
        }
        var room := maxPrompt - n - 1;
        var m := if room < |rolling| then room else |rolling|;
        taken := m;
        prompt := prompt + rolling[|rolling| - m..];
      }
    }
    prompt := prompt + init;
  }

  /** How many iterations a window has. */
  function Steps(textCtx: nat): int {
    textCtx / 2 - 4
  }

  /** What a run through a window may use of the text context. */
  function Iterations(textCtx: nat): nat {
    if Steps(textCtx) < 0 then 0 else Steps(textCtx)
  }
}
