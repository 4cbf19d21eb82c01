/** The state machine that finds speech: segments open at windows that are loud and close at silence, or
    when they are too long. Probabilities are real numbers. */
module VadMachine {

  const SAMPLE_RATE := 16000
  const INT_MAX := 0x7FFF_FFFF
  const MERGE_GAP := SAMPLE_RATE * 200 / 1000
  const SPLIT_SILENCE := SAMPLE_RATE * 98 / 1000

  datatype Params = Params(
    threshold: real,
    minSpeechMs: nat,
    minSilenceMs: nat,
    maxSpeechSeconds: real,
    padMs: nat)

  datatype Speech = Speech(start: int, end: int)

  type Speeches = seq<Speech>

  function MinSpeech(p: Params): (r: nat)
    ensures r == 16 * p.minSpeechMs
  {
    SAMPLE_RATE * p.minSpeechMs / 1000
  }

  function MinSilence(p: Params): (r: nat)
    ensures r == 16 * p.minSilenceMs
  {
    SAMPLE_RATE * p.minSilenceMs / 1000
  }

  function Pad(p: Params): (r: nat)
    ensures r == 16 * p.padMs
  {
    SAMPLE_RATE * p.padMs / 1000
  }

  /** The samples after which speech is split; never negative. */
  function MaxSpeech(p: Params, window: nat): (r: nat)
    requires window > 0
    ensures r <= INT_MAX
  {
    if p.maxSpeechSeconds > 100000.0 then INT_MAX / 2
    else
      var samples := SAMPLE_RATE * p.maxSpeechSeconds.Floor - window - 2 * Pad(p);
      if samples > INT_MAX || samples < 0 then INT_MAX / 2 else samples
  }

  function NegThreshold(p: Params): (r: real)
    ensures r >= 0.01 && r >= p.threshold - 0.15 && (r == 0.01 || r == p.threshold - 0.15)
    ensures p.threshold >= 0.01 ==> r <= p.threshold
  {
    if p.threshold - 0.15 < 0.01 then 0.01 else p.threshold - 0.15
  }

  /** Non-empty, one after the other, inside [0, end]. */
  predicate InOrder(ss: Speeches, end: int) {
    && (forall i :: 0 <= i < |ss| ==> 0 <= ss[i].start < ss[i].end <= end)
    && (forall i, j :: 0 <= i < j < |ss| ==> ss[i].end <= ss[j].start)
  }

  function LastEnd(ss: Speeches): int {
    if ss == [] then 0 else ss[|ss| - 1].end
  }

  lemma AppendInOrder(ss: Speeches, s: Speech, end: int)
    requires InOrder(ss, end) && LastEnd(ss) <= s.start < s.end <= end
    ensures InOrder(ss + [s], end)
  {
    assert ss != [] ==> 0 <= ss[|ss| - 1].start < LastEnd(ss);
    forall i | 0 <= i < |ss| ensures ss[i].end <= s.start {
      assert i < |ss| - 1 ==> ss[i].end <= ss[|ss| - 1].start;
    }
  }

  /** x lies in one of the segments. */
  predicate InSome(ss: Speeches, x: int) {
    exists i :: 0 <= i < |ss| && ss[i].start <= x < ss[i].end
  }

  lemma InSomeOfMore(a: Speeches, b: Speeches, x: int)
    ensures InSome(a + b, x) <==> InSome(a, x) || InSome(b, x)
  {
    var c := a + b;
    if InSome(a, x) {
      var i :| 0 <= i < |a| && a[i].start <= x < a[i].end;
      assert c[i] == a[i];
    }
    if InSome(b, x) {
      var i :| 0 <= i < |b| && b[i].start <= x < b[i].end;
      assert c[|a| + i] == b[i];
    }
  }

  // ----- the state machine

  /** Sample positions; 0 stands for none. */
  datatype State = State(inSpeech: bool, has: bool, start: int, tempEnd: int, prevEnd: int, nextStart: int)

  const IDLE := State(false, false, 0, 0, 0, 0)

  // ----- one window, as a function

  /** The state of the machine, and the segments found so far. */
  datatype Progress = Progress(state: State, found: Speeches)

  /** Speech is back: the silence before it is forgotten, but it may be where the next part starts. */
  function Back(p: Params, prob: real, s: State, now: int): State {
    if prob >= p.threshold && s.tempEnd != 0 then
      s.(tempEnd := 0, nextStart := if s.nextStart < s.prevEnd then now else s.nextStart)
    else s
  }

  /** Not in speech; where it last started is kept. */
  function Over(s: State): State {
    IDLE.(start := s.start)
  }

  /** A segment that is too long ends at its last long silence, or here. */
  function Limit(s: State, ss: Speeches, now: int): Progress {
    if s.prevEnd == 0 then Progress(Over(s), ss + [Speech(s.start, now)])
    else
      Progress(if s.nextStart < s.prevEnd then Over(s) else State(true, true, s.nextStart, 0, 0, 0),
               ss + [Speech(s.start, s.prevEnd)])
  }

  /** A silence is remembered. */
  function Remember(s: State, now: int): State {
    var end := if s.tempEnd == 0 then now else s.tempEnd;
    s.(tempEnd := end, prevEnd := if now - end > SPLIT_SILENCE then end else s.prevEnd)
  }

  /** One that has lasted long enough ends the segment, which is kept if it is long enough. */
  function Quieten(p: Params, s: State, ss: Speeches, now: int): Progress {
    var r := Remember(s, now);
    if now - r.tempEnd < MinSilence(p) then Progress(r, ss)
    else Progress(Over(r), if r.tempEnd - r.start > MinSpeech(p) then ss + [Speech(r.start, r.tempEnd)] else ss)
  }

  function Step(p: Params, window: nat, prob: real, g: Progress, now: int): Progress
    requires window > 0
  {
    var s := Back(p, prob, g.state, now);
    if prob >= p.threshold && !s.inSpeech then Progress(State(true, true, now, s.tempEnd, s.prevEnd, s.nextStart), g.found)
    else
      var limited := s.inSpeech && now - s.start > MaxSpeech(p, window);
      var after := if limited then Limit(s, g.found, now) else Progress(s, g.found);
      if (limited && s.prevEnd == 0) || prob >= NegThreshold(p) || !after.state.inSpeech then after
      else Quieten(p, after.state, after.found, now)
  }

  /** Speech that silence ends, but that is too short to keep. */
  function TooShort(p: Params, s: State, now: int): Speeches {
    var r := Remember(s, now);
    if now - r.tempEnd >= MinSilence(p) && r.tempEnd - r.start <= MinSpeech(p) then [Speech(r.start, r.tempEnd)] else []
  }

  /** What is given up in a window. */
  function GivenUpIn(p: Params, window: nat, prob: real, g: Progress, now: int): Speeches
    requires window > 0
  {
    var s := Back(p, prob, g.state, now);
    if !s.inSpeech || prob >= NegThreshold(p) then []
    else if now - s.start <= MaxSpeech(p, window) then TooShort(p, s, now)
    else
      var after := Limit(s, g.found, now);
      if after.state.inSpeech then TooShort(p, after.state, now) else []
  }

  // ----- lengths and gaps

  predicate Limited(ss: Speeches, most: int) {
    forall i :: 0 <= i < |ss| ==> ss[i].end - ss[i].start <= most
  }

  predicate Apart(ss: Speeches, least: int) {
    forall i :: 0 <= i < |ss| - 1 ==> ss[i + 1].start - ss[i].end >= least
  }

  lemma AppendApart(ss: Speeches, s: Speech, most: int, least: int)
    requires Limited(ss, most) && Apart(ss, least) && s.end - s.start <= most
    requires ss != [] ==> s.start - LastEnd(ss) >= least
    ensures Limited(ss + [s], most) && Apart(ss + [s], least)
  {
    var more := ss + [s];
    forall i | 0 <= i < |more| - 1 ensures more[i + 1].start - more[i].end >= least {
      assert i < |ss| - 1 ==> ss[i + 1].start - ss[i].end >= least;
    }
  }

  /** Before the window that starts at sample now: no segment is longer than the maximum and one more
      window, nor is the open one, and between segments there is at least one window. */
  predicate Timely(p: Params, window: nat, g: Progress, now: int)
    requires window > 0
  {
    var s := g.state;
    && Limited(g.found, MaxSpeech(p, window) + window) && Apart(g.found, window) && s.has == s.inSpeech
    && if s.inSpeech then
         && 0 <= s.start && window <= now - s.start <= MaxSpeech(p, window) + window
         && (g.found != [] ==> s.start - LastEnd(g.found) >= window)
         && (s.tempEnd != 0 ==> s.start < s.tempEnd <= now - window && s.nextStart < s.tempEnd)
         && (s.prevEnd != 0 ==> s.start < s.prevEnd <= now - window)
         && (s.nextStart != 0 ==> s.start + window <= s.nextStart <= now - window)
         && (s.prevEnd != 0 && s.nextStart >= s.prevEnd ==> s.nextStart - s.prevEnd >= window)
         && (s.nextStart >= s.prevEnd || s.tempEnd != 0)
       else
         s.tempEnd == 0 && s.prevEnd == 0 && s.nextStart == 0 && (g.found != [] ==> now - LastEnd(g.found) >= window)
  }

  /** Inside the window that starts at sample now, in speech. */
  predicate TimelyInside(p: Params, window: nat, s: State, ss: Speeches, now: int, most: int)
    requires window > 0
  {
    && Limited(ss, MaxSpeech(p, window) + window) && Apart(ss, window)
    && s.inSpeech && s.has && 0 <= s.start && 0 <= now - s.start <= most && (ss != [] ==> s.start - LastEnd(ss) >= window)
    && (s.tempEnd != 0 ==> s.start < s.tempEnd <= now - window && s.nextStart < s.tempEnd)
    && (s.prevEnd != 0 ==> s.start < s.prevEnd <= now - window)
    && (s.nextStart != 0 ==> s.start + window <= s.nextStart <= now)
    && (s.prevEnd != 0 && s.nextStart >= s.prevEnd ==> s.nextStart - s.prevEnd >= window)
    && (s.nextStart >= s.prevEnd || s.tempEnd != 0)
  }

  lemma LimitTimely(p: Params, window: nat, s: State, ss: Speeches, now: int)
    requires window > 0 && now >= 0 && TimelyInside(p, window, s, ss, now, MaxSpeech(p, window) + window)
    ensures var g := Limit(s, ss, now);
            if g.state.inSpeech then TimelyInside(p, window, g.state, g.found, now, MaxSpeech(p, window)) && g.state.nextStart == 0
            else Timely(p, window, g, now + window)
  {
    AppendApart(ss, Speech(s.start, if s.prevEnd == 0 then now else s.prevEnd), MaxSpeech(p, window) + window, window);
  }

  lemma QuietenTimely(p: Params, window: nat, s: State, ss: Speeches, now: int)
    requires window > 0 && now >= 0 && TimelyInside(p, window, s, ss, now, MaxSpeech(p, window))
    requires s.start < now && (s.nextStart != 0 ==> s.nextStart <= now - window)
    ensures Timely(p, window, Quieten(p, s, ss, now), now + window)
  {
    var r := Remember(s, now);
    AppendApart(ss, Speech(r.start, r.tempEnd), MaxSpeech(p, window) + window, window);
  }

  lemma BackTimely(p: Params, window: nat, prob: real, g: Progress, now: int)
    requires window > 0 && now >= 0 && Timely(p, window, g, now) && g.state.inSpeech
    ensures TimelyInside(p, window, Back(p, prob, g.state, now), g.found, now, MaxSpeech(p, window) + window)
    ensures prob < p.threshold ==> Back(p, prob, g.state, now) == g.state
  {
  }

  lemma InsideTimely(p: Params, window: nat, s: State, ss: Speeches, now: int)
    requires window > 0 && now >= 0 && TimelyInside(p, window, s, ss, now, MaxSpeech(p, window))
    ensures Timely(p, window, Progress(s, ss), now + window)
  {
  }

  lemma RestTimely(p: Params, window: nat, prob: real, s: State, ss: Speeches, now: int)
    requires window > 0 && now >= 0 && TimelyInside(p, window, s, ss, now, MaxSpeech(p, window))
    requires prob < NegThreshold(p) ==> s.start < now && (s.nextStart != 0 ==> s.nextStart <= now - window)
    ensures Timely(p, window, if prob < NegThreshold(p) then Quieten(p, s, ss, now) else Progress(s, ss), now + window)
  {
    if prob < NegThreshold(p) {
      QuietenTimely(p, window, s, ss, now);
    } else {
      InsideTimely(p, window, s, ss, now);
    }
  }

  lemma StepTimely(p: Params, window: nat, prob: real, g: Progress, now: int)
    requires window > 0 && now >= 0 && p.threshold >= 0.01 && Timely(p, window, g, now)
    ensures Timely(p, window, Step(p, window, prob, g, now), now + window)
  {
    if g.state.inSpeech {
      BackTimely(p, window, prob, g, now);
      var s := Back(p, prob, g.state, now);
      if now - s.start > MaxSpeech(p, window) {
        LimitTimely(p, window, s, g.found, now);
        var after := Limit(s, g.found, now);
        if after.state.inSpeech {
          RestTimely(p, window, prob, after.state, after.found, now);
        }
      } else {
        RestTimely(p, window, prob, s, g.found, now);
      }
    }
  }

  // ----- all windows

  /** The state after all windows. */
  function After(p: Params, probs: seq<real>, window: nat): Progress
    requires window > 0
  {
    if probs == [] then Progress(IDLE, [])
    else
      var last := |probs| - 1;
      Step(p, window, probs[last], After(p, probs[..last], window), last * window)
  }

  /** Speech that is open at the end is a segment too, if it is long enough. */
  function Found(p: Params, probs: seq<real>, window: nat): Speeches
    requires window > 0
  {
    var g := After(p, probs, window);
    var end := |probs| * window;
    if g.state.has && end - g.state.start > MinSpeech(p) then g.found + [Speech(g.state.start, end)] else g.found
  }

  lemma {:induction false} AfterTimely(p: Params, probs: seq<real>, window: nat)
    requires window > 0 && p.threshold >= 0.01
    ensures Timely(p, window, After(p, probs, window), |probs| * window)
    decreases |probs|
  {
    if probs != [] {
      var last := |probs| - 1;
      AfterTimely(p, probs[..last], window);
      assert |probs| * window == last * window + window;
      StepTimely(p, window, probs[last], After(p, probs[..last], window), last * window);
    }
  }

  /** The windows at or above the threshold. */
  function LoudWindows(p: Params, probs: seq<real>, window: nat): (r: set<int>)
  {
    if probs == [] then {}
    else
      LoudWindows(p, probs[..|probs| - 1], window)
      + if probs[|probs| - 1] >= p.threshold then {(|probs| - 1) * window} else {}
  }

  function QuietWindows(p: Params, probs: seq<real>, window: nat): (r: set<int>)
  {
    if probs == [] then {}
    else
      QuietWindows(p, probs[..|probs| - 1], window)
      + if probs[|probs| - 1] < NegThreshold(p) then {(|probs| - 1) * window} else {}
  }

  lemma OneWindowMore(p: Params, probs: seq<real>, window: nat, i: nat)
    requires window > 0 && i < |probs|
    ensures (i + 1) * window == i * window + window
    ensures After(p, probs[..i + 1], window) == Step(p, window, probs[i], After(p, probs[..i], window), i * window)
    ensures LoudWindows(p, probs[..i + 1], window)
         == LoudWindows(p, probs[..i], window) + if probs[i] >= p.threshold then {i * window} else {}
    ensures QuietWindows(p, probs[..i + 1], window)
         == QuietWindows(p, probs[..i], window) + if probs[i] < NegThreshold(p) then {i * window} else {}
  {
    assert probs[..i + 1][..i] == probs[..i];
  }
}
