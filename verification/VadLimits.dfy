/** How long speech segments can be: when the maximum duration is kept by what merging makes of the raw
    segments, exactly, and what it is computed for. */
module VadLimits {
  import opened Vad
  import opened VadMachine

  /** The maximum is used as it is given, neither absent nor too small for a window and its padding. */
  predicate MaximumUsed(p: Params, window: nat) {
    p.maxSpeechSeconds <= 100000.0 && window + 2 * Pad(p) <= SAMPLE_RATE * p.maxSpeechSeconds.Floor
  }

  /** Raw segments are no longer than the maximum and one more window, and at least a window apart. */
  lemma FoundTimely(p: Params, probs: seq<real>, window: nat)
    requires window > 0 && p.threshold >= 0.01
    ensures Limited(Found(p, probs, window), MaxSpeech(p, window) + window) && Apart(Found(p, probs, window), window)
  {
    AfterTimely(p, probs, window);
    var g := After(p, probs, window);
    if g.state.inSpeech {
      AppendApart(g.found, Speech(g.state.start, |probs| * window), MaxSpeech(p, window) + window, window);
    }
  }

  // ----- windows of at least 200 ms

  lemma {:induction false} NothingMerges(ss: Speeches, i: nat)
    requires Apart(ss, MERGE_GAP)
    ensures Merged(ss, i) == ss
    decreases |ss| - i
  {
    if i + 1 < |ss| {
      NothingMerges(ss, i + 1);
    }
  }

  // ----- shorter windows

  /** n windows just loud enough. */
  function Loud(p: Params, n: nat): (probs: seq<real>)
    ensures |probs| == n
  {
    if n == 0 then [] else Loud(p, n - 1) + [p.threshold]
  }

  /** The window at which speech that has begun with window 0 is cut. */
  function CutWindow(p: Params, window: nat): (c: nat)
    requires window > 0
    ensures c > 0 && (c - 1) * window <= MaxSpeech(p, window) < c * window
  {
    var most := MaxSpeech(p, window);
    assert most == most / window * window + most % window;
    assert (most / window + 1) * window == most / window * window + window;
    most / window + 1
  }

  /** The machine after the first k of them. */
  function LoudRun(p: Params, window: nat, k: nat): Progress
    requires window > 0
  {
    if k == 0 then Progress(IDLE, []) else Step(p, window, p.threshold, LoudRun(p, window, k - 1), (k - 1) * window)
  }

  lemma {:induction false} AfterLoud(p: Params, window: nat, k: nat)
    requires window > 0
    ensures After(p, Loud(p, k), window) == LoudRun(p, window, k)
  {
    if k > 0 {
      AfterLoud(p, window, k - 1);
      assert Loud(p, k)[..k - 1] == Loud(p, k - 1);
    }
  }

  predicate Idle(s: State) {
    !s.inSpeech && s.tempEnd == s.prevEnd == s.nextStart == 0
  }

  lemma OpenStep(p: Params, window: nat, s: State, ss: Speeches, now: int)
    requires window > 0 && p.threshold >= 0.01 && s == State(true, true, s.start, 0, 0, 0)
    ensures Step(p, window, p.threshold, Progress(s, ss), now)
         == if now - s.start <= MaxSpeech(p, window) then Progress(s, ss) else Progress(Over(s), ss + [Speech(s.start, now)])
  {
  }

  lemma FirstStep(p: Params, window: nat, g: Progress, now: int)
    requires window > 0 && p.threshold >= 0.01 && Idle(g.state)
    ensures Step(p, window, p.threshold, g, now) == Progress(State(true, true, now, 0, 0, 0), g.found)
  {
  }

  /** Speech that begins with window n is open until it is too long. */
  lemma {:induction false} LoudStaysOpen(p: Params, window: nat, n: nat, j: nat, g: Progress)
    requires window > 0 && p.threshold >= 0.01 && j < CutWindow(p, window) && g == LoudRun(p, window, n) && Idle(g.state)
    ensures LoudRun(p, window, n + j + 1) == Progress(State(true, true, n * window, 0, 0, 0), g.found)
    decreases j
  {
    if j == 0 {
      FirstStep(p, window, g, n * window);
    } else {
      LoudStaysOpen(p, window, n, j - 1, g);
      BeforeCut(p, window, n, j);
      OpenStep(p, window, State(true, true, n * window, 0, 0, 0), g.found, (n + j) * window);
    }
  }

  lemma BeforeCut(p: Params, window: nat, n: nat, j: nat)
    requires window > 0 && j < CutWindow(p, window)
    ensures (n + j) * window - n * window <= MaxSpeech(p, window)
  {
    Distributed(n, j, window);
    Distributed(j, CutWindow(p, window) - 1 - j, window);
  }

  lemma Distributed(a: nat, b: nat, c: nat)
    ensures (a + b) * c == a * c + b * c && b * c >= 0
  {
  }

  /** It is cut there, and nothing is open any more. */
  lemma LoudIsCut(p: Params, window: nat, n: nat, c: nat, g: Progress)
    requires window > 0 && p.threshold >= 0.01 && g == LoudRun(p, window, n) && Idle(g.state) && c == CutWindow(p, window)
    ensures LoudRun(p, window, n + c + 1) == Progress(IDLE.(start := n * window), g.found + [Speech(n * window, (n + c) * window)])
  {
    LoudStaysOpen(p, window, n, c - 1, g);
    Distributed(n, c, window);
    OpenStep(p, window, State(true, true, n * window, 0, 0, 0), g.found, (n + c) * window);
  }

  function TwoCuts(c: nat, window: nat): Speeches {
    [Speech(0, c * window), Speech((c + 1) * window, (c + 1 + c) * window)]
  }

  lemma CutTwice(p: Params, window: nat, c: nat)
    requires window > 0 && p.threshold >= 0.01 && c == CutWindow(p, window)
    ensures LoudRun(p, window, 2 * c + 2) == Progress(IDLE.(start := (c + 1) * window), TwoCuts(c, window))
  {
    LoudIsCut(p, window, 0, c, Progress(IDLE, []));
    LoudIsCut(p, window, c + 1, c, LoudRun(p, window, c + 1));
  }

  /** Two cuts, with one window between the end of a segment and the start of the next. */
  lemma LoudThroughout(p: Params, window: nat, c: nat)
    requires window > 0 && p.threshold >= 0.01 && c == CutWindow(p, window)
    ensures Found(p, Loud(p, 2 * c + 2), window) == TwoCuts(c, window)
  {
    CutTwice(p, window, c);
    AfterLoud(p, window, 2 * c + 2);
  }

  /** With windows shorter than 200 ms, loud throughout, the two become one that is too long. */
  lemma MergedTooLong(p: Params, window: nat)
    requires 0 < window < MERGE_GAP && p.threshold >= 0.01
    ensures exists probs: seq<real> :: !Limited(Merged(Found(p, probs, window), 0), MaxSpeech(p, window) + window)
  {
    var c := CutWindow(p, window);
    LoudThroughout(p, window, c);
    TwoMerge(c, window);
    Distributed(c, 1, window);
    Distributed(c + 1, c, window);
    var probs := Loud(p, 2 * c + 2);
    assert Merged(Found(p, probs, window), 0)[0].end > MaxSpeech(p, window) + window;
    assert !Limited(Merged(Found(p, probs, window), 0), MaxSpeech(p, window) + window);
  }

  lemma TwoMerge(c: nat, window: nat)
    requires window < MERGE_GAP
    ensures Merged(TwoCuts(c, window), 0) == [Speech(0, (c + 1 + c) * window)]
  {
    var ss := TwoCuts(c, window);
    Distributed(c, 1, window);
    assert WithJoined(ss, 0) == [Speech(0, (c + 1 + c) * window)];
    assert Merged(ss, 0) == Merged(WithJoined(ss, 0), 0);
  }

  // ----- the exact condition, and what the maximum is for

  /** No merged segment of any recording is longer than the maximum and one more window, exactly when a
      window is at least as long as the gaps that merging closes. */
  lemma MaximumKeptExactly(p: Params, window: nat)
    requires window > 0 && p.threshold >= 0.01
    ensures (forall probs: seq<real> :: Limited(Merged(Found(p, probs, window), 0), MaxSpeech(p, window) + window))
            <==> window >= MERGE_GAP
  {
    if window >= MERGE_GAP {
      forall probs: seq<real> ensures Limited(Merged(Found(p, probs, window), 0), MaxSpeech(p, window) + window) {
        FoundTimely(p, probs, window);
        NothingMerges(Found(p, probs, window), 0);
      }
    } else {
      MergedTooLong(p, window);
    }
  }

  /** When the maximum is used as given, a padded segment that merging has not made of several lasts no
      longer than the seconds asked for; with windows as long as the gaps closed, none does. kept are
      those of the merged segments that are long enough. */
  lemma PaddedWithinSeconds(p: Params, probs: seq<real>, window: nat, kept: Speeches, padded: Speeches)
    requires window > 0 && p.threshold >= 0.01 && MaximumUsed(p, window)
    requires kept == LongEnough(Merged(Found(p, probs, window), 0), MinSpeech(p))
    requires Padded(kept, padded, Pad(p), |probs| * window)
    ensures PaddedLimited(Found(p, probs, window), kept, padded, SAMPLE_RATE * p.maxSpeechSeconds.Floor)
    ensures window >= MERGE_GAP ==> Limited(padded, SAMPLE_RATE * p.maxSpeechSeconds.Floor)
  {
    var raw := Found(p, probs, window);
    FoundTimely(p, probs, window);
    FilterMembers(Merged(raw, 0), MinSpeech(p));
    NoneTooLong(raw, kept, padded, MaxSpeech(p, window) + window, Pad(p));
    if window >= MERGE_GAP {
      NothingMerges(raw, 0);
      forall k | 0 <= k < |kept| ensures kept[k] in raw {
        assert kept[k] in kept;
      }
    }
  }
}
