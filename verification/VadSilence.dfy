/** What silence does to speech segments: a long one is in none of them, none ends without a reason, and
    one that is too long is split at its last pause. Nothing here names the steps of the machine: it is
    said of segments and of the probabilities of the windows. */
module VadSilence {
  import opened VadMachine

  /** Windows a to b are all quiet. */
  predicate QuietRun(p: Params, probs: seq<real>, a: nat, b: nat) {
    a <= b < |probs| && forall k :: a <= k <= b ==> probs[k] < NegThreshold(p)
  }

  /** There is a window from one to another, the last not included, and none of them is loud. */
  predicate NoLoud(p: Params, probs: seq<real>, from: nat, to: nat) {
    from < to <= |probs| && forall k :: from <= k < to ==> probs[k] < p.threshold
  }

  /** Window x is quiet, and begins at this position. */
  predicate QuietAt(p: Params, probs: seq<real>, window: nat, at: int, x: nat) {
    x < |probs| && probs[x] < NegThreshold(p) && x * window == at
  }

  /** At window k, and at none before, speech from start on is longer than the maximum. */
  predicate TooLongAt(p: Params, window: nat, start: int, k: nat)
    requires window > 0
  {
    MaxSpeech(p, window) < k * window - start <= MaxSpeech(p, window) + window
  }

  lemma {:induction false} Order(a: nat, b: nat, window: nat)
    requires a <= b
    ensures a * window <= b * window && (a < b ==> a * window + window <= b * window)
    decreases b
  {
    if a < b {
      Order(a, b - 1, window);
      assert b * window == (b - 1) * window + window;
    }
  }

  // ----- every end has a reason

  /** Silence has lasted since this position, up to window n, that one not included. */
  predicate SilentSince(p: Params, probs: seq<real>, window: nat, at: int, n: nat) {
    exists x: nat :: x < n && QuietAt(p, probs, window, at, x) && NoLoud(p, probs, x, n)
  }

  /** A pause begins at this position, quiet again at one of the windows before n, and by then long
      enough for speech to be split there. */
  predicate PauseAt(p: Params, probs: seq<real>, window: nat, at: int, n: nat) {
    exists q: nat :: q < n && LongPause(p, probs, window, at, q)
  }

  predicate LongPause(p: Params, probs: seq<real>, window: nat, at: int, q: nat) {
    q < |probs| && probs[q] < NegThreshold(p) && SilentSince(p, probs, window, at, q + 1) && q * window - at > SPLIT_SILENCE
  }

  /** Silence that ends speech, quiet again at one of the windows before n. */
  predicate HushAt(p: Params, probs: seq<real>, window: nat, at: int, n: nat) {
    exists m: nat :: m < n && LongHush(p, probs, window, at, m)
  }

  predicate LongHush(p: Params, probs: seq<real>, window: nat, at: int, m: nat) {
    m < |probs| && probs[m] < NegThreshold(p) && SilentSince(p, probs, window, at, m + 1) && m * window - at >= MinSilence(p)
  }

  /** The segment became too long at window k, and ends there, or at a pause before that was too short to
      end it. */
  predicate LimitedAt(p: Params, probs: seq<real>, window: nat, s: Speech, k: nat)
    requires window > 0
  {
    && TooLongAt(p, window, s.start, k)
    && (|| s.end == k * window
        || (s.end - s.start <= MaxSpeech(p, window) && PauseAt(p, probs, window, s.end, k) && !HushAt(p, probs, window, s.end, k)))
  }

  predicate LimitedBefore(p: Params, probs: seq<real>, window: nat, s: Speech, n: nat)
    requires window > 0
  {
    exists k: nat :: k < n && LimitedAt(p, probs, window, s, k)
  }

  /** Speech that is long enough to keep ends in silence. */
  predicate EndsQuietly(p: Params, probs: seq<real>, window: nat, s: Speech, n: nat) {
    s.end - s.start > MinSpeech(p) && HushAt(p, probs, window, s.end, n)
  }

  /** A segment that has ended before window n. */
  predicate EndsWell(p: Params, probs: seq<real>, window: nat, s: Speech, n: nat)
    requires window > 0
  {
    EndsQuietly(p, probs, window, s, n) || LimitedBefore(p, probs, window, s, n)
  }

  ghost predicate AllEndWell(p: Params, probs: seq<real>, window: nat, ss: Speeches, n: nat)
    requires window > 0
  {
    forall i :: 0 <= i < |ss| ==> EndsWell(p, probs, window, ss[i], n)
  }

  predicate LoudBefore(p: Params, probs: seq<real>, window: nat, at: int, n: nat) {
    exists y: nat :: y < n && LoudAt(p, probs, window, at, y)
  }

  predicate LoudAt(p: Params, probs: seq<real>, window: nat, at: int, y: nat) {
    y < |probs| && probs[y] >= p.threshold && y * window == at
  }

  /** What the machine remembers of open speech: the silence it is in, up to window n, and, from before
      window m, the last long pause, and where speech went on after it. */
  predicate Remembers(p: Params, probs: seq<real>, window: nat, s: State, n: nat, m: nat)
    requires window > 0
  {
    && (s.tempEnd != 0 ==> s.tempEnd - s.start <= MaxSpeech(p, window) && SilentSince(p, probs, window, s.tempEnd, n))
    && (s.prevEnd != 0 ==>
          && s.prevEnd - s.start <= MaxSpeech(p, window) && PauseAt(p, probs, window, s.prevEnd, m)
          && !HushAt(p, probs, window, s.prevEnd, m) && (SilentSince(p, probs, window, s.prevEnd, n) ==> s.tempEnd == s.prevEnd))
    && (s.nextStart != 0 ==> LoudBefore(p, probs, window, s.nextStart, n))
  }

  ghost predicate Reasoned(p: Params, probs: seq<real>, window: nat, g: Progress, n: nat)
    requires window > 0
  {
    AllEndWell(p, probs, window, g.found, n) && (g.state.inSpeech ==> Remembers(p, probs, window, g.state, n, n))
  }

  lemma LaterEnd(p: Params, probs: seq<real>, window: nat, s: Speech, n: nat)
    requires window > 0 && EndsWell(p, probs, window, s, n)
    ensures EndsWell(p, probs, window, s, n + 1)
  {
    if EndsQuietly(p, probs, window, s, n) {
      var m: nat :| m < n && LongHush(p, probs, window, s.end, m);
    } else {
      var k: nat :| k < n && LimitedAt(p, probs, window, s, k);
    }
  }

  lemma AllLaterEnd(p: Params, probs: seq<real>, window: nat, ss: Speeches, n: nat)
    requires window > 0 && AllEndWell(p, probs, window, ss, n)
    ensures AllEndWell(p, probs, window, ss, n + 1)
  {
    forall i | 0 <= i < |ss| ensures EndsWell(p, probs, window, ss[i], n + 1) {
      LaterEnd(p, probs, window, ss[i], n);
    }
  }

  lemma StillSilent(p: Params, probs: seq<real>, window: nat, at: int, n: nat)
    requires SilentSince(p, probs, window, at, n) && n < |probs| && probs[n] < p.threshold
    ensures SilentSince(p, probs, window, at, n + 1)
  {
    var x: nat :| x < n && QuietAt(p, probs, window, at, x) && NoLoud(p, probs, x, n);
    assert NoLoud(p, probs, x, n + 1);
  }

  lemma LaterPause(p: Params, probs: seq<real>, window: nat, at: int, m: nat)
    requires PauseAt(p, probs, window, at, m)
    ensures PauseAt(p, probs, window, at, m + 1)
  {
    var q: nat :| q < m && LongPause(p, probs, window, at, q);
  }

  lemma LaterLoud(p: Params, probs: seq<real>, window: nat, at: int, n: nat)
    requires LoudBefore(p, probs, window, at, n)
    ensures LoudBefore(p, probs, window, at, n + 1)
  {
    var y: nat :| y < n && LoudAt(p, probs, window, at, y);
  }

  lemma SilentBefore(p: Params, probs: seq<real>, window: nat, at: int, n: nat)
    requires SilentSince(p, probs, window, at, n + 1) && at < n * window
    ensures SilentSince(p, probs, window, at, n) && probs[n] < p.threshold
  {
    var x: nat :| x < n + 1 && QuietAt(p, probs, window, at, x) && NoLoud(p, probs, x, n + 1);
    assert x < n && NoLoud(p, probs, x, n);
  }

  lemma NoLaterHush(p: Params, probs: seq<real>, window: nat, at: int, n: nat)
    requires !HushAt(p, probs, window, at, n) && !LongHush(p, probs, window, at, n)
    ensures !HushAt(p, probs, window, at, n + 1)
  {
  }

  lemma BackRemembers(p: Params, probs: seq<real>, window: nat, s: State, n: nat)
    requires window > 0 && n < |probs| && Remembers(p, probs, window, s, n, n) && s.prevEnd < n * window
    ensures Remembers(p, probs, window, Back(p, probs[n], s, n * window), n + 1, n)
  {
    var next := Back(p, probs[n], s, n * window);
    if next.tempEnd != 0 {
      StillSilent(p, probs, window, s.tempEnd, n);
    }
    if s.prevEnd != 0 && SilentSince(p, probs, window, s.prevEnd, n + 1) {
      SilentBefore(p, probs, window, s.prevEnd, n);
    }
    if next.nextStart != 0 {
      if next.nextStart == s.nextStart {
        LaterLoud(p, probs, window, s.nextStart, n);
      } else {
        assert LoudAt(p, probs, window, next.nextStart, n);
      }
    }
  }

  lemma LimitReasoned(p: Params, probs: seq<real>, window: nat, s: State, ss: Speeches, n: nat)
    requires window > 0 && n < |probs| && TooLongAt(p, window, s.start, n)
    requires AllEndWell(p, probs, window, ss, n + 1) && Remembers(p, probs, window, s, n + 1, n)
    ensures var g := Limit(s, ss, n * window);
            AllEndWell(p, probs, window, g.found, n + 1) && (g.state.inSpeech ==> Remembers(p, probs, window, g.state, n + 1, n))
  {
    var seg := Speech(s.start, if s.prevEnd == 0 then n * window else s.prevEnd);
    assert LimitedAt(p, probs, window, seg, n);
    assert EndsWell(p, probs, window, seg, n + 1);
  }

  lemma QuietenReasoned(p: Params, probs: seq<real>, window: nat, s: State, ss: Speeches, n: nat)
    requires window > 0 && n < |probs| && probs[n] < NegThreshold(p) && p.threshold >= 0.01 && n * window - s.start <= MaxSpeech(p, window)
    requires AllEndWell(p, probs, window, ss, n + 1) && Remembers(p, probs, window, s, n + 1, n)
    ensures Reasoned(p, probs, window, Quieten(p, s, ss, n * window), n + 1)
  {
    var r := Remember(s, n * window);
    if s.tempEnd == 0 {
      assert QuietAt(p, probs, window, n * window, n) && NoLoud(p, probs, n, n + 1);
    }
    assert SilentSince(p, probs, window, r.tempEnd, n + 1);
    if n * window - r.tempEnd >= MinSilence(p) {
      assert LongHush(p, probs, window, r.tempEnd, n);
    } else {
      StillRemembers(p, probs, window, s, n);
    }
  }

  /** Silence goes on, and is not long enough yet. */
  lemma StillRemembers(p: Params, probs: seq<real>, window: nat, s: State, n: nat)
    requires window > 0 && n < |probs| && probs[n] < NegThreshold(p) && n * window - s.start <= MaxSpeech(p, window)
    requires Remembers(p, probs, window, s, n + 1, n) && n * window - Remember(s, n * window).tempEnd < MinSilence(p)
    requires SilentSince(p, probs, window, Remember(s, n * window).tempEnd, n + 1)
    ensures Remembers(p, probs, window, Remember(s, n * window), n + 1, n + 1)
  {
    var r := Remember(s, n * window);
    if n * window - r.tempEnd > SPLIT_SILENCE {
      assert LongPause(p, probs, window, r.tempEnd, n);
      NoHushYet(p, probs, window, r.tempEnd, n);
    } else if s.prevEnd != 0 {
      LaterPause(p, probs, window, s.prevEnd, n);
      NoLaterHush(p, probs, window, s.prevEnd, n);
    }
  }

  lemma NoHushYet(p: Params, probs: seq<real>, window: nat, at: int, n: nat)
    requires n * window - at < MinSilence(p)
    ensures !HushAt(p, probs, window, at, n + 1)
  {
    if HushAt(p, probs, window, at, n + 1) {
      var m: nat :| m < n + 1 && LongHush(p, probs, window, at, m);
      Order(m, n, window);
    }
  }

  lemma StepReasoned(p: Params, probs: seq<real>, window: nat, g: Progress, n: nat)
    requires window > 0 && p.threshold >= 0.01 && n < |probs| && Timely(p, window, g, n * window) && Reasoned(p, probs, window, g, n)
    ensures Reasoned(p, probs, window, Step(p, window, probs[n], g, n * window), n + 1)
  {
    AllLaterEnd(p, probs, window, g.found, n);
    if g.state.inSpeech {
      BackRemembers(p, probs, window, g.state, n);
      var s := Back(p, probs[n], g.state, n * window);
      if n * window - s.start > MaxSpeech(p, window) {
        LimitReasoned(p, probs, window, s, g.found, n);
        var after := Limit(s, g.found, n * window);
        if after.state.inSpeech {
          RestReasoned(p, probs, window, after.state, after.found, n);
        }
      } else {
        RestReasoned(p, probs, window, s, g.found, n);
      }
    }
  }

  lemma RestReasoned(p: Params, probs: seq<real>, window: nat, s: State, ss: Speeches, n: nat)
    requires window > 0 && n < |probs| && p.threshold >= 0.01 && n * window - s.start <= MaxSpeech(p, window)
    requires AllEndWell(p, probs, window, ss, n + 1) && Remembers(p, probs, window, s, n + 1, n)
    ensures Reasoned(p, probs, window, if probs[n] < NegThreshold(p) then Quieten(p, s, ss, n * window) else Progress(s, ss), n + 1)
  {
    if probs[n] < NegThreshold(p) {
      QuietenReasoned(p, probs, window, s, ss, n);
    } else if s.prevEnd != 0 {
      LaterPause(p, probs, window, s.prevEnd, n);
    }
  }

  // ----- a long silence is in no segment

  /** Speech ends at one of the windows after a, up to b, as it is too long there. */
  predicate CutIn(p: Params, window: nat, s: Speech, a: nat, b: nat)
    requires window > 0
  {
    exists k: nat :: a < k <= b && s.end == k * window && TooLongAt(p, window, s.start, k)
  }

  /** Speech from start on follows a segment that was too long at one of the windows after a, up to b, and
      has gone on from before that window. Silence is counted from there. */
  predicate GoesOn(p: Params, probs: seq<real>, window: nat, before: Speech, start: int, a: nat, b: nat)
    requires window > 0
  {
    exists k: nat :: a < k <= b && LimitedAt(p, probs, window, before, k) && start < k * window
  }

  predicate Continues(p: Params, probs: seq<real>, window: nat, ss: Speeches, i: nat, start: int, a: nat, b: nat)
    requires window > 0
  {
    0 < i <= |ss| && GoesOn(p, probs, window, ss[i - 1], start, a, b)
  }

  /** The segment has something of windows a to b, the last not included. */
  predicate Meets(window: nat, s: Speech, a: nat, b: nat) {
    s.start < b * window && s.end > a * window
  }

  predicate Spared(p: Params, probs: seq<real>, window: nat, ss: Speeches, i: nat, a: nat, b: nat)
    requires window > 0 && i < |ss|
  {
    Meets(window, ss[i], a, b) ==> CutIn(p, window, ss[i], a, b) || Continues(p, probs, window, ss, i, ss[i].start, a, b)
  }

  ghost predicate AllSpared(p: Params, probs: seq<real>, window: nat, ss: Speeches, a: nat, b: nat)
    requires window > 0
  {
    forall i :: 0 <= i < |ss| ==> Spared(p, probs, window, ss, i, a, b)
  }

  /** Silence that is long enough ends speech: of quiet windows for the least silence a segment has
      something exactly if it was too long there, or it goes on from before where the one before was. */
  ghost predicate SilenceEnds(p: Params, probs: seq<real>, window: nat, ss: Speeches)
    requires window > 0
  {
    forall a: nat, b: nat, i: nat :: QuietRun(p, probs, a, b) && b * window - a * window >= MinSilence(p) && i < |ss| ==>
      (Meets(window, ss[i], a, b) <==> CutIn(p, window, ss[i], a, b) || Continues(p, probs, window, ss, i, ss[i].start, a, b))
  }

  lemma SameBefore(p: Params, probs: seq<real>, window: nat, ss: Speeches, s: Speech, i: nat, start: int, a: nat, b: nat)
    requires window > 0 && i <= |ss|
    ensures Continues(p, probs, window, ss + [s], i, start, a, b) <==> Continues(p, probs, window, ss, i, start, a, b)
  {
    if i > 0 {
      assert (ss + [s])[i - 1] == ss[i - 1];
    }
  }

  // ----- inside the silence

  /** Segment i ended before window a, or at one up to m for being too long, or is the rest of such a one. */
  predicate EndedBefore(p: Params, probs: seq<real>, window: nat, ss: Speeches, i: nat, a: nat, m: nat)
    requires window > 0 && i < |ss|
  {
    ss[i].end <= a * window || CutIn(p, window, ss[i], a, m) || Continues(p, probs, window, ss, i, ss[i].start, a, m)
  }

  ghost predicate AllEndedBefore(p: Params, probs: seq<real>, window: nat, ss: Speeches, a: nat, m: nat)
    requires window > 0
  {
    forall i :: 0 <= i < |ss| ==> EndedBefore(p, probs, window, ss, i, a, m)
  }

  /** At window m of the silence speech is still open: not for long. */
  predicate Waiting(p: Params, probs: seq<real>, window: nat, s: State, ss: Speeches, a: nat, m: nat)
    requires window > 0
  {
    && s.tempEnd != 0 && m * window - s.tempEnd < MinSilence(p)
    && (m * window - s.tempEnd > SPLIT_SILENCE ==> s.prevEnd == s.tempEnd)
    && ((s.tempEnd <= a * window && s.prevEnd <= a * window) || (Continues(p, probs, window, ss, |ss|, s.start, a, m) && s.nextStart == 0))
  }

  /** Windows a to m of a silence have been heard. */
  ghost predicate InRun(p: Params, probs: seq<real>, window: nat, g: Progress, a: nat, m: nat)
    requires window > 0
  {
    AllEndedBefore(p, probs, window, g.found, a, m) && (g.state.inSpeech ==> Waiting(p, probs, window, g.state, g.found, a, m))
  }

  /** Window m is to come. */
  predicate Ready(p: Params, probs: seq<real>, window: nat, s: State, ss: Speeches, a: nat, m: nat)
    requires window > 0
  {
    || (s.tempEnd <= a * window && s.prevEnd <= a * window && (s.tempEnd == 0 ==> m == a))
    || (Continues(p, probs, window, ss, |ss|, s.start, a, m) && s.nextStart == 0)
  }

  lemma OneMoreEnded(p: Params, probs: seq<real>, window: nat, ss: Speeches, s: Speech, a: nat, m: nat)
    requires window > 0 && AllEndedBefore(p, probs, window, ss, a, m)
    requires s.end <= a * window || CutIn(p, window, s, a, m) || Continues(p, probs, window, ss, |ss|, s.start, a, m)
    ensures AllEndedBefore(p, probs, window, ss + [s], a, m)
  {
    forall i | 0 <= i < |ss| + 1 ensures EndedBefore(p, probs, window, ss + [s], i, a, m) {
      SameBefore(p, probs, window, ss, s, i, (ss + [s])[i].start, a, m);
      if i < |ss| {
        assert EndedBefore(p, probs, window, ss, i, a, m);
      }
    }
  }

  lemma QuietenInRun(p: Params, probs: seq<real>, window: nat, s: State, ss: Speeches, a: nat, m: nat)
    requires window > 0 && a <= m && m * window > 0 && s.inSpeech
    requires AllEndedBefore(p, probs, window, ss, a, m) && Ready(p, probs, window, s, ss, a, m)
    ensures InRun(p, probs, window, Quieten(p, s, ss, m * window), a, m)
  {
    Order(a, m, window);
    var r := Remember(s, m * window);
    if m * window - r.tempEnd >= MinSilence(p) && r.tempEnd - r.start > MinSpeech(p) {
      OneMoreEnded(p, probs, window, ss, Speech(r.start, r.tempEnd), a, m);
    }
  }

  /** The segment is too long at window m of the silence. */
  lemma LimitInRun(p: Params, probs: seq<real>, window: nat, s: State, ss: Speeches, a: nat, m: nat)
    requires window > 0 && a <= m && TooLongAt(p, window, s.start, m) && s.prevEnd <= m * window && s.nextStart < m * window
    requires s.prevEnd != 0 ==> LimitedAt(p, probs, window, Speech(s.start, s.prevEnd), m)
    requires AllEndedBefore(p, probs, window, ss, a, m) && Ready(p, probs, window, s, ss, a, m)
    ensures var g := Limit(s, ss, m * window);
            AllEndedBefore(p, probs, window, g.found, a, m) && (g.state.inSpeech ==> Ready(p, probs, window, g.state, g.found, a, m))
  {
    var seg := Speech(s.start, if s.prevEnd == 0 then m * window else s.prevEnd);
    OneMoreEnded(p, probs, window, ss, seg, a, m);
    assert (ss + [seg])[|ss|] == seg;
    var g := Limit(s, ss, m * window);
    if a < m && g.state.inSpeech {
      assert GoesOn(p, probs, window, seg, g.state.start, a, m);
    }
  }

  lemma ReadyNext(p: Params, probs: seq<real>, window: nat, g: Progress, a: nat, m: nat)
    requires window > 0 && a < m && InRun(p, probs, window, g, a, m - 1)
    ensures AllEndedBefore(p, probs, window, g.found, a, m) && (g.state.inSpeech ==> Ready(p, probs, window, g.state, g.found, a, m))
  {
    forall i | 0 <= i < |g.found| ensures EndedBefore(p, probs, window, g.found, i, a, m) {
      assert EndedBefore(p, probs, window, g.found, i, a, m - 1);
    }
  }

  lemma StepInRun(p: Params, probs: seq<real>, window: nat, g: Progress, a: nat, m: nat)
    requires window > 0 && p.threshold >= 0.01 && QuietRun(p, probs, a, m)
    requires Timely(p, window, g, m * window) && Reasoned(p, probs, window, g, m)
    requires AllEndedBefore(p, probs, window, g.found, a, m) && (g.state.inSpeech ==> Ready(p, probs, window, g.state, g.found, a, m))
    ensures InRun(p, probs, window, Step(p, window, probs[m], g, m * window), a, m)
  {
    var s, now := g.state, m * window;
    if s.inSpeech {
      if now - s.start > MaxSpeech(p, window) {
        LimitInRun(p, probs, window, s, g.found, a, m);
        var after := Limit(s, g.found, now);
        if after.state.inSpeech {
          QuietenInRun(p, probs, window, after.state, after.found, a, m);
        }
      } else {
        QuietenInRun(p, probs, window, s, g.found, a, m);
      }
    }
  }

  lemma EndedSoFar(p: Params, probs: seq<real>, window: nat, s: Speech, n: nat)
    requires window > 0 && EndsWell(p, probs, window, s, n)
    ensures s.end <= n * window
  {
    if EndsQuietly(p, probs, window, s, n) {
      var m: nat :| m < n && LongHush(p, probs, window, s.end, m);
      Order(m, n, window);
    } else {
      var k: nat :| k < n && LimitedAt(p, probs, window, s, k);
      Order(k, n, window);
    }
  }

  lemma ReadyFirst(p: Params, probs: seq<real>, window: nat, g: Progress, a: nat)
    requires window > 0 && Timely(p, window, g, a * window) && AllEndWell(p, probs, window, g.found, a)
    ensures AllEndedBefore(p, probs, window, g.found, a, a) && (g.state.inSpeech ==> Ready(p, probs, window, g.state, g.found, a, a))
  {
    forall i | 0 <= i < |g.found| ensures EndedBefore(p, probs, window, g.found, i, a, a) {
      EndedSoFar(p, probs, window, g.found[i], a);
    }
  }

  // ----- behind the silence

  /** Speech that is open has begun behind window b, or is the rest of what was too long before it. */
  predicate OpenPast(p: Params, probs: seq<real>, window: nat, s: State, ss: Speeches, a: nat, b: nat)
    requires window > 0
  {
    && (s.start >= b * window || Continues(p, probs, window, ss, |ss|, s.start, a, b))
    && (s.nextStart != 0 ==> s.nextStart >= b * window)
  }

  ghost predicate Past(p: Params, probs: seq<real>, window: nat, g: Progress, a: nat, b: nat)
    requires window > 0
  {
    AllSpared(p, probs, window, g.found, a, b) && (g.state.inSpeech ==> OpenPast(p, probs, window, g.state, g.found, a, b))
  }

  lemma OneMoreSpared(p: Params, probs: seq<real>, window: nat, ss: Speeches, s: Speech, a: nat, b: nat)
    requires window > 0 && AllSpared(p, probs, window, ss, a, b)
    requires s.start >= b * window || Continues(p, probs, window, ss, |ss|, s.start, a, b)
    ensures AllSpared(p, probs, window, ss + [s], a, b)
  {
    forall i | 0 <= i < |ss| + 1 ensures Spared(p, probs, window, ss + [s], i, a, b) {
      SameBefore(p, probs, window, ss, s, i, (ss + [s])[i].start, a, b);
      if i < |ss| {
        assert Spared(p, probs, window, ss, i, a, b);
      }
    }
  }

  /** A silence that was long enough is over, and has ended speech. */
  lemma RunIsPast(p: Params, probs: seq<real>, window: nat, g: Progress, a: nat, b: nat)
    requires window > 0 && a <= b && InRun(p, probs, window, g, a, b) && b * window - a * window >= MinSilence(p)
    ensures Past(p, probs, window, g, a, b)
  {
    forall i | 0 <= i < |g.found| ensures Spared(p, probs, window, g.found, i, a, b) {
      assert EndedBefore(p, probs, window, g.found, i, a, b);
    }
  }

  lemma QuietenPast(p: Params, probs: seq<real>, window: nat, s: State, ss: Speeches, a: nat, b: nat, now: int)
    requires window > 0 && now >= b * window && s.inSpeech && AllSpared(p, probs, window, ss, a, b) && OpenPast(p, probs, window, s, ss, a, b)
    ensures Past(p, probs, window, Quieten(p, s, ss, now), a, b)
  {
    var r := Remember(s, now);
    OneMoreSpared(p, probs, window, ss, Speech(r.start, r.tempEnd), a, b);
  }

  lemma LimitPast(p: Params, probs: seq<real>, window: nat, s: State, ss: Speeches, a: nat, b: nat, now: int)
    requires window > 0 && now >= b * window && AllSpared(p, probs, window, ss, a, b) && OpenPast(p, probs, window, s, ss, a, b)
    requires s.prevEnd >= 0
    ensures Past(p, probs, window, Limit(s, ss, now), a, b)
  {
    OneMoreSpared(p, probs, window, ss, Speech(s.start, if s.prevEnd == 0 then now else s.prevEnd), a, b);
  }

  lemma StepPast(p: Params, probs: seq<real>, window: nat, prob: real, g: Progress, a: nat, b: nat, now: int)
    requires window > 0 && now >= b * window && now >= 0 && Timely(p, window, g, now) && Past(p, probs, window, g, a, b)
    ensures Past(p, probs, window, Step(p, window, prob, g, now), a, b)
  {
    if g.state.inSpeech {
      var s := Back(p, prob, g.state, now);
      var limited := now - s.start > MaxSpeech(p, window);
      LimitPast(p, probs, window, s, g.found, a, b, now);
      var after := if limited then Limit(s, g.found, now) else Progress(s, g.found);
      if after.state.inSpeech {
        QuietenPast(p, probs, window, after.state, after.found, a, b, now);
      }
    }
  }

  // ----- pauses

  /** Of windows a to b, a pause long enough to split speech at: speech with such a pause inside does not
      go on and on. Segment i begins behind it, or is the rest of one that was too long in it, or ended
      quietly, or was too long already before; or it has a pause still later, or ends where this begins. */
  predicate Divided(p: Params, probs: seq<real>, window: nat, ss: Speeches, i: nat, a: nat, b: nat)
    requires window > 0 && i < |ss|
  {
    || ss[i].start >= b * window || Continues(p, probs, window, ss, i, ss[i].start, a, b)
    || EndsQuietly(p, probs, window, ss[i], |probs|) || LimitedBefore(p, probs, window, ss[i], b + 1)
    || (ss[i].end > b * window && ss[i].end - ss[i].start <= MaxSpeech(p, window))
    || SilentSince(p, probs, window, ss[i].end, b + 1)
  }

  ghost predicate AllDivided(p: Params, probs: seq<real>, window: nat, ss: Speeches, a: nat, b: nat)
    requires window > 0
  {
    forall i :: 0 <= i < |ss| ==> Divided(p, probs, window, ss, i, a, b)
  }

  /** Speech that is open behind the pause remembers it, or a later one. */
  predicate OpenDivided(p: Params, probs: seq<real>, window: nat, s: State, ss: Speeches, a: nat, b: nat)
    requires window > 0
  {
    || s.start >= b * window
    || (Continues(p, probs, window, ss, |ss|, s.start, a, b) && (s.nextStart == 0 || s.nextStart >= b * window))
    || (s.prevEnd != 0 && (s.prevEnd > b * window || SilentSince(p, probs, window, s.prevEnd, b + 1)))
  }

  ghost predicate PastPause(p: Params, probs: seq<real>, window: nat, g: Progress, a: nat, b: nat)
    requires window > 0
  {
    AllDivided(p, probs, window, g.found, a, b) && (g.state.inSpeech ==> OpenDivided(p, probs, window, g.state, g.found, a, b))
  }

  lemma QuietlyForGood(p: Params, probs: seq<real>, window: nat, s: Speech, n: nat)
    requires EndsQuietly(p, probs, window, s, n) && n <= |probs|
    ensures EndsQuietly(p, probs, window, s, |probs|)
  {
    var m: nat :| m < n && LongHush(p, probs, window, s.end, m);
  }

  lemma RunIsPause(p: Params, probs: seq<real>, window: nat, g: Progress, a: nat, b: nat)
    requires window > 0 && QuietRun(p, probs, a, b) && b * window - a * window > SPLIT_SILENCE
    requires InRun(p, probs, window, g, a, b) && Reasoned(p, probs, window, g, b + 1)
    ensures PastPause(p, probs, window, g, a, b)
  {
    forall i | 0 <= i < |g.found| ensures Divided(p, probs, window, g.found, i, a, b) {
      if EndsQuietly(p, probs, window, g.found[i], b + 1) {
        QuietlyForGood(p, probs, window, g.found[i], b + 1);
      }
    }
  }

  lemma OneMoreDivided(p: Params, probs: seq<real>, window: nat, ss: Speeches, s: Speech, a: nat, b: nat)
    requires window > 0 && AllDivided(p, probs, window, ss, a, b)
    requires Divided(p, probs, window, ss + [s], |ss|, a, b)
    ensures AllDivided(p, probs, window, ss + [s], a, b)
  {
    forall i | 0 <= i < |ss| + 1 ensures Divided(p, probs, window, ss + [s], i, a, b) {
      if i < |ss| {
        SameBefore(p, probs, window, ss, s, i, (ss + [s])[i].start, a, b);
        assert Divided(p, probs, window, ss, i, a, b);
      }
    }
  }

  /** Silence that has come so far began behind window b, or lasted already then. */
  lemma SilenceBehind(p: Params, probs: seq<real>, window: nat, at: int, b: nat, n: nat)
    requires window > 0 && SilentSince(p, probs, window, at, n) && b < n
    ensures at > b * window || SilentSince(p, probs, window, at, b + 1)
  {
    var x: nat :| x < n && QuietAt(p, probs, window, at, x) && NoLoud(p, probs, x, n);
    if x <= b {
      assert NoLoud(p, probs, x, b + 1);
    } else {
      Order(b, x, window);
    }
  }

  /** Where speech goes on after a pause that lasted until window b is behind that window. */
  lemma NextBehind(p: Params, probs: seq<real>, window: nat, next: int, at: int, b: nat, n: nat)
    requires window > 0 && LoudBefore(p, probs, window, next, n) && SilentSince(p, probs, window, at, b + 1) && next >= at
    ensures next >= b * window
  {
    var y: nat :| y < n && LoudAt(p, probs, window, next, y);
    var x: nat :| x < b + 1 && QuietAt(p, probs, window, at, x) && NoLoud(p, probs, x, b + 1);
    if y < x {
      Order(y, x, window);
    } else {
      Order(b, y, window);
    }
  }

  lemma LimitDivided(p: Params, probs: seq<real>, window: nat, s: State, ss: Speeches, a: nat, b: nat, n: nat)
    requires window > 0 && b < n < |probs| && n * window > b * window && s.inSpeech
    requires s.prevEnd >= 0 && (s.nextStart != 0 ==> s.nextStart > s.start)
    requires Remembers(p, probs, window, s, n + 1, n)
    requires AllDivided(p, probs, window, ss, a, b) && OpenDivided(p, probs, window, s, ss, a, b)
    ensures PastPause(p, probs, window, Limit(s, ss, n * window), a, b)
  {
    var seg := Speech(s.start, if s.prevEnd == 0 then n * window else s.prevEnd);
    SameBefore(p, probs, window, ss, seg, |ss|, seg.start, a, b);
    assert (ss + [seg])[|ss|] == seg;
    OneMoreDivided(p, probs, window, ss, seg, a, b);
    if s.prevEnd != 0 && s.nextStart >= s.prevEnd && SilentSince(p, probs, window, s.prevEnd, b + 1) {
      NextBehind(p, probs, window, s.nextStart, s.prevEnd, b, n + 1);
    }
  }

  lemma QuietenDivided(p: Params, probs: seq<real>, window: nat, s: State, ss: Speeches, a: nat, b: nat, n: nat)
    requires window > 0 && b < n < |probs| && n * window > b * window && s.inSpeech
    requires Remembers(p, probs, window, s, n + 1, n)
    requires probs[n] < NegThreshold(p) && p.threshold >= 0.01
    requires AllDivided(p, probs, window, ss, a, b) && OpenDivided(p, probs, window, s, ss, a, b)
    ensures PastPause(p, probs, window, Quieten(p, s, ss, n * window), a, b)
  {
    var r := Remember(s, n * window);
    if s.tempEnd != 0 {
      SilenceBehind(p, probs, window, s.tempEnd, b, n + 1);
    }
    if n * window - r.tempEnd >= MinSilence(p) && r.tempEnd - r.start > MinSpeech(p) {
      var seg := Speech(r.start, r.tempEnd);
      HushIsLong(p, probs, window, s, n);
      QuietlyForGood(p, probs, window, seg, n + 1);
      OneMoreDivided(p, probs, window, ss, seg, a, b);
    }
  }

  lemma HushIsLong(p: Params, probs: seq<real>, window: nat, s: State, n: nat)
    requires window > 0 && n < |probs| && probs[n] < NegThreshold(p) && p.threshold >= 0.01
    requires Remembers(p, probs, window, s, n + 1, n)
    ensures var r := Remember(s, n * window);
            n * window - r.tempEnd >= MinSilence(p) ==> HushAt(p, probs, window, r.tempEnd, n + 1)
  {
    var r := Remember(s, n * window);
    if s.tempEnd == 0 {
      assert QuietAt(p, probs, window, n * window, n) && NoLoud(p, probs, n, n + 1);
    }
    if n * window - r.tempEnd >= MinSilence(p) {
      assert LongHush(p, probs, window, r.tempEnd, n);
    }
  }

  lemma StepPastPause(p: Params, probs: seq<real>, window: nat, g: Progress, a: nat, b: nat, n: nat)
    requires window > 0 && p.threshold >= 0.01 && b < n < |probs| && Timely(p, window, g, n * window)
    requires Reasoned(p, probs, window, g, n) && PastPause(p, probs, window, g, a, b)
    ensures PastPause(p, probs, window, Step(p, window, probs[n], g, n * window), a, b)
  {
    Order(b, n, window);
    if g.state.inSpeech {
      BackRemembers(p, probs, window, g.state, n);
      var s := Back(p, probs[n], g.state, n * window);
      if n * window - s.start > MaxSpeech(p, window) {
        AllLaterEnd(p, probs, window, g.found, n);
        LimitReasoned(p, probs, window, s, g.found, n);
        LimitDivided(p, probs, window, s, g.found, a, b, n);
        var after := Limit(s, g.found, n * window);
        if after.state.inSpeech && probs[n] < NegThreshold(p) {
          QuietenDivided(p, probs, window, after.state, after.found, a, b, n);
        }
      } else if probs[n] < NegThreshold(p) {
        QuietenDivided(p, probs, window, s, g.found, a, b, n);
      }
    }
  }

  // ----- what follows a segment that is too long

  /** If the segment before was too long at a window that speech has gone on from before, speech does not
      end until then. */
  ghost predicate Outlasts(p: Params, probs: seq<real>, window: nat, before: Speech, s: Speech)
    requires window > 0
  {
    forall k: nat :: LimitedAt(p, probs, window, before, k) && s.start < k * window ==> s.end >= k * window
  }

  ghost predicate AllOutlast(p: Params, probs: seq<real>, window: nat, ss: Speeches)
    requires window > 0
  {
    forall i :: 1 <= i < |ss| ==> Outlasts(p, probs, window, ss[i - 1], ss[i])
  }

  /** Speech that is open before window n does not remember any silence from before. */
  predicate ForgetsAt(p: Params, window: nat, s: State, n: nat, k: nat) {
    k < n && (s.inSpeech && s.start < k * window ==> (s.tempEnd == 0 || s.tempEnd >= k * window) && (s.prevEnd == 0 || s.prevEnd >= k * window))
  }

  ghost predicate Forgets(p: Params, probs: seq<real>, window: nat, s: State, ss: Speeches, n: nat)
    requires window > 0
  {
    ss != [] ==> forall k: nat :: LimitedAt(p, probs, window, ss[|ss| - 1], k) ==> ForgetsAt(p, window, s, n, k)
  }

  lemma OneWindowOnly(p: Params, window: nat, start: int, k: nat, n: nat)
    requires window > 0 && TooLongAt(p, window, start, k) && TooLongAt(p, window, start, n)
    ensures k == n
  {
    if k < n {
      Order(k, n, window);
    } else {
      Order(n, k, window);
    }
  }

  lemma OneMoreOutlasts(p: Params, probs: seq<real>, window: nat, ss: Speeches, s: Speech)
    requires window > 0 && AllOutlast(p, probs, window, ss) && (ss != [] ==> Outlasts(p, probs, window, ss[|ss| - 1], s))
    ensures AllOutlast(p, probs, window, ss + [s])
  {
  }

  lemma LimitForgets(p: Params, probs: seq<real>, window: nat, s: State, ss: Speeches, n: nat)
    requires window > 0 && TooLongAt(p, window, s.start, n) && s.inSpeech
    requires AllOutlast(p, probs, window, ss) && Forgets(p, probs, window, s, ss, n)
    ensures var g := Limit(s, ss, n * window);
            AllOutlast(p, probs, window, g.found) && Forgets(p, probs, window, g.state, g.found, n + 1)
  {
    var seg := Speech(s.start, if s.prevEnd == 0 then n * window else s.prevEnd);
    if ss != [] {
      forall k: nat | LimitedAt(p, probs, window, ss[|ss| - 1], k) && seg.start < k * window ensures seg.end >= k * window {
        assert ForgetsAt(p, window, s, n, k);
        Order(k, n, window);
      }
    }
    OneMoreOutlasts(p, probs, window, ss, seg);
    forall k: nat | LimitedAt(p, probs, window, seg, k) ensures k == n {
      OneWindowOnly(p, window, seg.start, k, n);
    }
  }

  /** A segment that ends quietly at window n never was too long. */
  lemma NeverLimited(p: Params, probs: seq<real>, window: nat, s: Speech, n: nat, k: nat)
    requires window > 0 && HushAt(p, probs, window, s.end, n + 1) && s.end <= n * window && n * window - s.start <= MaxSpeech(p, window)
    ensures !LimitedAt(p, probs, window, s, k)
  {
    if k <= n {
      Order(k, n, window);
    } else {
      Order(n, k, window);
      var m: nat :| m < n + 1 && LongHush(p, probs, window, s.end, m);
      assert HushAt(p, probs, window, s.end, k);
    }
  }

  lemma QuietenForgets(p: Params, probs: seq<real>, window: nat, s: State, ss: Speeches, n: nat)
    requires window > 0 && p.threshold >= 0.01 && n < |probs| && probs[n] < NegThreshold(p) && s.inSpeech
    requires 0 < n * window <= s.start + MaxSpeech(p, window) && s.tempEnd <= n * window && Remembers(p, probs, window, s, n + 1, n)
    requires AllOutlast(p, probs, window, ss) && Forgets(p, probs, window, s, ss, n + 1)
    ensures var g := Quieten(p, s, ss, n * window);
            AllOutlast(p, probs, window, g.found) && Forgets(p, probs, window, g.state, g.found, n + 1)
  {
    RememberForgets(p, probs, window, s, ss, n);
    var r := Remember(s, n * window);
    if n * window - r.tempEnd >= MinSilence(p) && r.tempEnd - r.start > MinSpeech(p) {
      HushEnds(p, probs, window, s, ss, n, Speech(r.start, r.tempEnd));
    }
  }

  lemma RememberForgets(p: Params, probs: seq<real>, window: nat, s: State, ss: Speeches, n: nat)
    requires window > 0 && s.inSpeech && Forgets(p, probs, window, s, ss, n + 1)
    ensures Forgets(p, probs, window, Remember(s, n * window), ss, n + 1) && Forgets(p, probs, window, Over(s), ss, n + 1)
  {
    if ss != [] {
      var later, r := n + 1, Remember(s, n * window);
      forall k: nat | LimitedAt(p, probs, window, ss[|ss| - 1], k) ensures ForgetsAt(p, window, r, later, k) && ForgetsAt(p, window, Over(s), later, k) {
        assert ForgetsAt(p, window, s, later, k);
        Order(k, n, window);
      }
    }
  }

  lemma HushEnds(p: Params, probs: seq<real>, window: nat, s: State, ss: Speeches, n: nat, seg: Speech)
    requires window > 0 && p.threshold >= 0.01 && n < |probs| && probs[n] < NegThreshold(p) && s.inSpeech
    requires n * window - s.start <= MaxSpeech(p, window) && s.tempEnd <= n * window && Remembers(p, probs, window, s, n + 1, n)
    requires var r := Remember(s, n * window);
             && n * window - r.tempEnd >= MinSilence(p) && seg == Speech(r.start, r.tempEnd) && r.tempEnd != 0
             && AllOutlast(p, probs, window, ss) && Forgets(p, probs, window, r, ss, n + 1)
    ensures AllOutlast(p, probs, window, ss + [seg]) && Forgets(p, probs, window, Over(s), ss + [seg], n + 1)
  {
    var r := Remember(s, n * window);
    if ss != [] {
      forall k: nat | LimitedAt(p, probs, window, ss[|ss| - 1], k) && seg.start < k * window ensures seg.end >= k * window {
        assert ForgetsAt(p, window, r, n + 1, k);
      }
    }
    OneMoreOutlasts(p, probs, window, ss, seg);
    HushIsLong(p, probs, window, s, n);
    forall k: nat ensures !LimitedAt(p, probs, window, seg, k) {
      NeverLimited(p, probs, window, seg, n, k);
    }
  }

  lemma StillForgets(p: Params, probs: seq<real>, window: nat, s: State, ss: Speeches, n: nat, next: State)
    requires window > 0 && Forgets(p, probs, window, s, ss, n)
    requires next.inSpeech ==> s.inSpeech && next.start == s.start && next.tempEnd in {0, s.tempEnd} && next.prevEnd == s.prevEnd
    ensures Forgets(p, probs, window, next, ss, n) && Forgets(p, probs, window, next, ss, n + 1)
  {
    if ss != [] {
      var later := n + 1;
      forall k: nat | LimitedAt(p, probs, window, ss[|ss| - 1], k) ensures ForgetsAt(p, window, next, n, k) && ForgetsAt(p, window, next, later, k) {
        assert ForgetsAt(p, window, s, n, k);
      }
    }
  }

  lemma StartForgets(p: Params, probs: seq<real>, window: nat, s: State, ss: Speeches, n: nat, next: State)
    requires window > 0 && Forgets(p, probs, window, s, ss, n) && next.start == n * window
    ensures Forgets(p, probs, window, next, ss, n + 1)
  {
    if ss != [] {
      var later := n + 1;
      forall k: nat | LimitedAt(p, probs, window, ss[|ss| - 1], k) ensures ForgetsAt(p, window, next, later, k) {
        assert ForgetsAt(p, window, s, n, k);
        Order(k, n, window);
      }
    }
  }

  ghost predicate Following(p: Params, probs: seq<real>, window: nat, g: Progress, n: nat)
    requires window > 0
  {
    AllOutlast(p, probs, window, g.found) && Forgets(p, probs, window, g.state, g.found, n)
  }

  lemma StepFollows(p: Params, probs: seq<real>, window: nat, g: Progress, n: nat)
    requires window > 0 && p.threshold >= 0.01 && n < |probs| && Timely(p, window, g, n * window) && Reasoned(p, probs, window, g, n)
    requires Following(p, probs, window, g, n)
    ensures Following(p, probs, window, Step(p, window, probs[n], g, n * window), n + 1)
  {
    var s, now := Back(p, probs[n], g.state, n * window), n * window;
    if g.state.inSpeech {
      BackRemembers(p, probs, window, g.state, n);
      StillForgets(p, probs, window, g.state, g.found, n, s);
      if now - s.start > MaxSpeech(p, window) {
        LimitForgets(p, probs, window, s, g.found, n);
        AllLaterEnd(p, probs, window, g.found, n);
        LimitReasoned(p, probs, window, s, g.found, n);
        var after := Limit(s, g.found, now);
        if after.state.inSpeech && probs[n] < NegThreshold(p) {
          QuietenForgets(p, probs, window, after.state, after.found, n);
        }
      } else if probs[n] < NegThreshold(p) {
        QuietenForgets(p, probs, window, s, g.found, n);
      }
    } else if probs[n] >= p.threshold {
      StartForgets(p, probs, window, g.state, g.found, n, Step(p, window, probs[n], g, now).state);
    } else {
      StillForgets(p, probs, window, g.state, g.found, n, s);
    }
  }

  // ----- all windows

  lemma {:induction false} AfterFollows(p: Params, probs: seq<real>, window: nat, n: nat)
    requires window > 0 && p.threshold >= 0.01 && n <= |probs|
    ensures Following(p, probs, window, After(p, probs[..n], window), n)
    decreases n
  {
    if n > 0 {
      AfterFollows(p, probs, window, n - 1);
      OneMoreFollows(p, probs, window, n - 1);
    }
  }

  lemma OneMoreFollows(p: Params, probs: seq<real>, window: nat, n: nat)
    requires window > 0 && p.threshold >= 0.01 && n < |probs| && Following(p, probs, window, After(p, probs[..n], window), n)
    ensures Following(p, probs, window, After(p, probs[..n + 1], window), n + 1)
  {
    AfterReasoned(p, probs, window, n);
    OneWindowMore(p, probs, window, n);
    StepFollows(p, probs, window, After(p, probs[..n], window), n);
  }

  lemma {:induction false} AfterReasoned(p: Params, probs: seq<real>, window: nat, n: nat)
    requires window > 0 && p.threshold >= 0.01 && n <= |probs|
    ensures Timely(p, window, After(p, probs[..n], window), n * window) && Reasoned(p, probs, window, After(p, probs[..n], window), n)
    decreases n
  {
    AfterTimely(p, probs[..n], window);
    if n > 0 {
      AfterReasoned(p, probs, window, n - 1);
      OneMoreReasoned(p, probs, window, n - 1);
    }
  }

  lemma OneMoreReasoned(p: Params, probs: seq<real>, window: nat, n: nat)
    requires window > 0 && p.threshold >= 0.01 && n < |probs|
    requires Timely(p, window, After(p, probs[..n], window), n * window) && Reasoned(p, probs, window, After(p, probs[..n], window), n)
    ensures Reasoned(p, probs, window, After(p, probs[..n + 1], window), n + 1)
  {
    OneWindowMore(p, probs, window, n);
    StepReasoned(p, probs, window, After(p, probs[..n], window), n);
  }

  lemma {:induction false} AfterInRun(p: Params, probs: seq<real>, window: nat, a: nat, m: nat)
    requires window > 0 && p.threshold >= 0.01 && QuietRun(p, probs, a, m)
    ensures InRun(p, probs, window, After(p, probs[..m + 1], window), a, m)
    decreases m
  {
    var g := After(p, probs[..m], window);
    AfterReasoned(p, probs, window, m);
    OneWindowMore(p, probs, window, m);
    if m == a {
      ReadyFirst(p, probs, window, g, a);
    } else {
      AfterInRun(p, probs, window, a, m - 1);
      ReadyNext(p, probs, window, g, a, m);
    }
    StepInRun(p, probs, window, g, a, m);
  }

  lemma {:induction false} AfterSilence(p: Params, probs: seq<real>, window: nat, a: nat, b: nat, n: nat)
    requires window > 0 && p.threshold >= 0.01 && QuietRun(p, probs, a, b) && b < n <= |probs|
    requires b * window - a * window >= MinSilence(p)
    ensures Past(p, probs, window, After(p, probs[..n], window), a, b)
    decreases n
  {
    if n == b + 1 {
      AfterInRun(p, probs, window, a, b);
      RunIsPast(p, probs, window, After(p, probs[..n], window), a, b);
    } else {
      AfterSilence(p, probs, window, a, b, n - 1);
      OneMorePast(p, probs, window, a, b, n - 1);
    }
  }

  lemma TimelyAt(p: Params, probs: seq<real>, window: nat, n: nat)
    requires window > 0 && p.threshold >= 0.01 && n <= |probs|
    ensures Timely(p, window, After(p, probs[..n], window), n * window) && n * window >= 0
  {
    AfterTimely(p, probs[..n], window);
  }

  lemma OneMorePast(p: Params, probs: seq<real>, window: nat, a: nat, b: nat, n: nat)
    requires window > 0 && p.threshold >= 0.01 && b < n < |probs| && Past(p, probs, window, After(p, probs[..n], window), a, b)
    ensures Past(p, probs, window, After(p, probs[..n + 1], window), a, b)
  {
    TimelyAt(p, probs, window, n);
    OneWindowMore(p, probs, window, n);
    Order(b, n, window);
    StepPast(p, probs, window, probs[n], After(p, probs[..n], window), a, b, n * window);
  }

  lemma {:induction false} AfterPause(p: Params, probs: seq<real>, window: nat, a: nat, b: nat, n: nat)
    requires window > 0 && p.threshold >= 0.01 && QuietRun(p, probs, a, b) && b < n <= |probs|
    requires b * window - a * window > SPLIT_SILENCE
    ensures PastPause(p, probs, window, After(p, probs[..n], window), a, b)
    decreases n
  {
    if n == b + 1 {
      AfterInRun(p, probs, window, a, b);
      AfterReasoned(p, probs, window, n);
      RunIsPause(p, probs, window, After(p, probs[..n], window), a, b);
    } else {
      AfterPause(p, probs, window, a, b, n - 1);
      AfterReasoned(p, probs, window, n - 1);
      OneWindowMore(p, probs, window, n - 1);
      StepPastPause(p, probs, window, After(p, probs[..n - 1], window), a, b, n - 1);
    }
  }

  /** Every segment ends in silence, for its length, or with the audio; those that do not end for their
      length are long enough to keep. */
  ghost predicate EndsHaveReasons(p: Params, probs: seq<real>, window: nat, ss: Speeches)
    requires window > 0
  {
    forall i :: 0 <= i < |ss| ==>
      || EndsWell(p, probs, window, ss[i], |probs|)
      || (ss[i].end == |probs| * window && ss[i].end - ss[i].start > MinSpeech(p))
  }

  /** A segment that is too long is split at its last pause. */
  ghost predicate PausesDivide(p: Params, probs: seq<real>, window: nat, ss: Speeches)
    requires window > 0
  {
    forall a: nat, b: nat, i: nat :: QuietRun(p, probs, a, b) && b * window - a * window > SPLIT_SILENCE && i < |ss| ==>
      Divided(p, probs, window, ss, i, a, b) || ss[i].end == |probs| * window
  }

  ghost predicate Settled(p: Params, probs: seq<real>, window: nat, ss: Speeches)
    requires window > 0
  {
    SilenceEnds(p, probs, window, ss) && EndsHaveReasons(p, probs, window, ss) && PausesDivide(p, probs, window, ss)
  }

  lemma FoundSpared(p: Params, probs: seq<real>, window: nat, a: nat, b: nat)
    requires window > 0 && p.threshold >= 0.01 && QuietRun(p, probs, a, b) && b * window - a * window >= MinSilence(p)
    ensures AllSpared(p, probs, window, Found(p, probs, window), a, b)
  {
    assert probs[..|probs|] == probs;
    AfterSilence(p, probs, window, a, b, |probs|);
    AfterTimely(p, probs, window);
    var g := After(p, probs, window);
    if g.state.inSpeech {
      OneMoreSpared(p, probs, window, g.found, Speech(g.state.start, |probs| * window), a, b);
    }
  }

  lemma FoundOutlasts(p: Params, probs: seq<real>, window: nat)
    requires window > 0 && p.threshold >= 0.01
    ensures AllOutlast(p, probs, window, Found(p, probs, window))
  {
    assert probs[..|probs|] == probs;
    AfterFollows(p, probs, window, |probs|);
    var g := After(p, probs, window);
    var seg := Speech(g.state.start, |probs| * window);
    if g.found != [] {
      forall k: nat | LimitedAt(p, probs, window, g.found[|g.found| - 1], k) ensures seg.end >= k * window {
        assert ForgetsAt(p, window, g.state, |probs|, k);
        Order(k, |probs|, window);
      }
    }
    OneMoreOutlasts(p, probs, window, g.found, seg);
  }

  lemma MeetsExactly(p: Params, probs: seq<real>, window: nat, ss: Speeches, i: nat, a: nat, b: nat)
    requires window > 0 && i < |ss| && Spared(p, probs, window, ss, i, a, b) && AllOutlast(p, probs, window, ss)
    ensures Meets(window, ss[i], a, b) <==> CutIn(p, window, ss[i], a, b) || Continues(p, probs, window, ss, i, ss[i].start, a, b)
  {
    if CutIn(p, window, ss[i], a, b) {
      var k: nat :| a < k <= b && ss[i].end == k * window && TooLongAt(p, window, ss[i].start, k);
      Order(a, k, window);
      Order(k, b, window);
    } else if Continues(p, probs, window, ss, i, ss[i].start, a, b) {
      var k: nat :| a < k <= b && LimitedAt(p, probs, window, ss[i - 1], k) && ss[i].start < k * window;
      assert Outlasts(p, probs, window, ss[i - 1], ss[i]);
      Order(a, k, window);
      Order(k, b, window);
    }
  }

  lemma FoundMeets(p: Params, probs: seq<real>, window: nat, ss: Speeches, a: nat, b: nat, i: nat)
    requires window > 0 && p.threshold >= 0.01 && QuietRun(p, probs, a, b) && b * window - a * window >= MinSilence(p)
    requires ss == Found(p, probs, window) && i < |ss|
    ensures Meets(window, ss[i], a, b) <==> CutIn(p, window, ss[i], a, b) || Continues(p, probs, window, ss, i, ss[i].start, a, b)
  {
    FoundSpared(p, probs, window, a, b);
    assert Spared(p, probs, window, ss, i, a, b);
    FoundOutlasts(p, probs, window);
    MeetsExactly(p, probs, window, ss, i, a, b);
  }

  lemma FoundDivided(p: Params, probs: seq<real>, window: nat, a: nat, b: nat, i: nat)
    requires window > 0 && p.threshold >= 0.01 && QuietRun(p, probs, a, b) && b * window - a * window > SPLIT_SILENCE
    requires i < |Found(p, probs, window)|
    ensures Divided(p, probs, window, Found(p, probs, window), i, a, b) || Found(p, probs, window)[i].end == |probs| * window
  {
    assert probs[..|probs|] == probs;
    AfterPause(p, probs, window, a, b, |probs|);
    var g := After(p, probs, window);
    if i < |g.found| {
      assert Divided(p, probs, window, g.found, i, a, b);
      SameBefore(p, probs, window, g.found, Speech(g.state.start, |probs| * window), i, g.found[i].start, a, b);
    }
  }

  /** What is given up in a window ends quietly there. */
  lemma GivenUpQuietly(p: Params, probs: seq<real>, window: nat, g: Progress, n: nat)
    requires window > 0 && p.threshold >= 0.01 && n < |probs| && Timely(p, window, g, n * window) && Reasoned(p, probs, window, g, n)
    ensures AllHushed(p, probs, window, GivenUpIn(p, window, probs[n], g, n * window), n + 1)
  {
    if g.state.inSpeech && probs[n] < NegThreshold(p) {
      BackRemembers(p, probs, window, g.state, n);
      var s := Back(p, probs[n], g.state, n * window);
      if n * window - s.start > MaxSpeech(p, window) {
        AllLaterEnd(p, probs, window, g.found, n);
        LimitReasoned(p, probs, window, s, g.found, n);
        var after := Limit(s, g.found, n * window);
        if after.state.inSpeech {
          HushIsLong(p, probs, window, after.state, n);
        }
      } else {
        HushIsLong(p, probs, window, s, n);
      }
    }
  }

  /** Each of these ends in silence that was long enough, before window n. */
  predicate AllHushed(p: Params, probs: seq<real>, window: nat, ss: Speeches, n: nat) {
    forall i :: 0 <= i < |ss| ==> HushAt(p, probs, window, ss[i].end, n)
  }

  lemma OneMoreHushed(p: Params, probs: seq<real>, window: nat, before: Speeches, ss: Speeches, n: nat)
    requires AllHushed(p, probs, window, before, n) && AllHushed(p, probs, window, ss, n + 1)
    ensures AllHushed(p, probs, window, before + ss, n + 1)
  {
    forall i | 0 <= i < |before| ensures HushAt(p, probs, window, before[i].end, n + 1) {
      var s := before[i];
      assert HushAt(p, probs, window, s.end, n);
      var m: nat :| m < n && LongHush(p, probs, window, s.end, m);
    }
  }

  /** Of all the segments that are found. */
  lemma FoundSettled(p: Params, probs: seq<real>, window: nat)
    requires window > 0 && p.threshold >= 0.01
    ensures var ss := Found(p, probs, window);
            Settled(p, probs, window, ss)
  {
    var ss := Found(p, probs, window);
    forall a: nat, b: nat, i: nat | QuietRun(p, probs, a, b) && b * window - a * window >= MinSilence(p) && i < |ss|
      ensures Meets(window, ss[i], a, b) <==> CutIn(p, window, ss[i], a, b) || Continues(p, probs, window, ss, i, ss[i].start, a, b)
    {
      FoundMeets(p, probs, window, ss, a, b, i);
    }
    forall a: nat, b: nat, i: nat | QuietRun(p, probs, a, b) && b * window - a * window > SPLIT_SILENCE && i < |ss|
      ensures Divided(p, probs, window, ss, i, a, b) || ss[i].end == |probs| * window
    {
      FoundDivided(p, probs, window, a, b, i);
    }
    assert probs[..|probs|] == probs;
    AfterReasoned(p, probs, window, |probs|);
  }

  // ----- a silence that does not end speech

  const LONG_WINDOW := 2000

  const GOING_ON := Params(0.5, 0, 250, 1.0, 187)

  const LOUD_AGAIN := [1.0, 0.0, 0.0, 1.0, 0.0, 0.0, 0.0, 1.0]

  /** The states of the machine, before each window and at the end. */
  const GOING_ON_STATES := [
    IDLE, State(true, true, 0, 0, 0, 0), State(true, true, 0, 2000, 0, 0), State(true, true, 0, 2000, 2000, 0),
    State(true, true, 0, 0, 2000, 6000), State(true, true, 0, 8000, 2000, 6000), State(true, true, 6000, 10000, 0, 0),
    State(true, true, 6000, 10000, 10000, 0), State(true, true, 6000, 0, 10000, 14000)]

  function GoingOn(n: nat): Progress
    requires n <= 8
  {
    Progress(GOING_ON_STATES[n], if n < 6 then [] else [Speech(0, 2000)])
  }

  lemma GoesOnStep(n: nat)
    requires n < 8
    ensures Step(GOING_ON, LONG_WINDOW, LOUD_AGAIN[n], GoingOn(n), n * LONG_WINDOW) == GoingOn(n + 1)
  {
  }

  lemma {:induction false} GoesOnSoFar(n: nat)
    requires n <= 8
    ensures After(GOING_ON, LOUD_AGAIN[..n], LONG_WINDOW) == GoingOn(n)
  {
    if n > 0 {
      GoesOnSoFar(n - 1);
      GoesOnStep(n - 1);
      OneWindowMore(GOING_ON, LOUD_AGAIN, LONG_WINDOW, n - 1);
    }
  }

  /** Silence that lasts for the least silence may be in the midst of a segment that is nowhere cut: the
      one before became too long in it, so it counts from later on. */
  lemma SilenceMayNotEnd()
    ensures QuietRun(GOING_ON, LOUD_AGAIN, 4, 6) && 6 * LONG_WINDOW - 4 * LONG_WINDOW >= MinSilence(GOING_ON)
    ensures Found(GOING_ON, LOUD_AGAIN, LONG_WINDOW) == [Speech(0, 2000), Speech(6000, 16000)]
  {
    GoesOnSoFar(8);
    assert LOUD_AGAIN[..8] == LOUD_AGAIN;
  }
}
