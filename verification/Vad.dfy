/** From speech probabilities, one a window of samples, to speech segments: the state machine as the
    source runs it, and three passes over what it finds. */
module Vad {
  import opened VadMachine
  import VadSilence

  /** What has been heard so far: the windows at or above the threshold, and those below the lower
      one; speech that was given up as too short; windows at which a segment was cut. */
  datatype Heard = Heard(loud: set<int>, quiet: set<int>, dropped: Speeches, cuts: set<int>)

  /** Before the window that starts at sample now. */
  predicate Coherent(s: State, ss: Speeches, now: int) {
    && s.has == s.inSpeech
    && InOrder(ss, now)
    && if s.inSpeech then
         && LastEnd(ss) <= s.start < now
         && (s.tempEnd != 0 ==> s.start < s.tempEnd < now)
         && (s.prevEnd != 0 ==> s.start < s.prevEnd < now)
         && (s.nextStart == 0 || s.start < s.nextStart < now)
         && (s.nextStart >= s.prevEnd || s.tempEnd != 0)
       else s.tempEnd == 0 && s.prevEnd == 0 && s.nextStart == 0
  }

  /** Segments begin in loud windows, and end in quiet ones or because they are too long; speech given
      up was short, from a loud window to a quiet one. */
  ghost predicate Justified(p: Params, window: nat, ss: Speeches, h: Heard)
    requires window > 0
  {
    && (forall i :: 0 <= i < |ss| ==> ss[i].start in h.loud && EndsRight(p, window, ss[i], h))
    && (forall i :: 0 <= i < |h.dropped| ==> GivenUpRight(p, h.dropped[i], h))
    && (forall x :: x in h.cuts ==> CutAt(p, window, ss, x))
  }

  predicate GivenUpRight(p: Params, s: Speech, h: Heard) {
    s.start in h.loud && s.end in h.quiet && s.end - s.start <= MinSpeech(p)
  }

  /** A segment was too long, and ends at x. */
  predicate CutAt(p: Params, window: nat, ss: Speeches, x: int)
    requires window > 0
  {
    exists i :: 0 <= i < |ss| && ss[i].end == x && x - ss[i].start > MaxSpeech(p, window)
  }

  lemma StillCut(p: Params, window: nat, ss: Speeches, s: Speech, cuts: set<int>)
    requires window > 0 && forall x :: x in cuts ==> CutAt(p, window, ss, x)
    ensures forall x :: x in cuts ==> CutAt(p, window, ss + [s], x)
    ensures s.end - s.start > MaxSpeech(p, window) ==> CutAt(p, window, ss + [s], s.end)
  {
    forall x | x in cuts ensures CutAt(p, window, ss + [s], x) {
      var i :| 0 <= i < |ss| && ss[i].end == x && x - ss[i].start > MaxSpeech(p, window);
      assert (ss + [s])[i] == ss[i];
    }
    assert (ss + [s])[|ss|] == s;
  }

  predicate EndsRight(p: Params, window: nat, s: Speech, h: Heard)
    requires window > 0
  {
    s.end in h.quiet || s.end - s.start > MaxSpeech(p, window)
  }

  /** The open segment begins in a loud window, and its silences in quiet ones. */
  predicate OpenJustified(s: State, h: Heard) {
    s.inSpeech ==>
      && s.start in h.loud
      && (s.tempEnd != 0 ==> s.tempEnd in h.quiet) && (s.prevEnd != 0 ==> s.prevEnd in h.quiet)
      && (s.nextStart != 0 ==> s.nextStart in h.loud)
  }

  /** x is in the open segment, before the silence it is in, and outside the gap it may be split at. */
  predicate Open(s: State, x: int) {
    && s.inSpeech && s.start <= x && (s.tempEnd != 0 ==> x < s.tempEnd)
    && (s.prevEnd != 0 ==> x < s.prevEnd || (s.prevEnd <= s.nextStart <= x))
  }

  /** Every loud window is in a segment, or in speech given up, or one at which speech was cut, or open. */
  predicate Accounted(s: State, ss: Speeches, h: Heard, x: int) {
    InSome(ss, x) || InSome(h.dropped, x) || x in h.cuts || Open(s, x)
  }

  ghost predicate AllAccounted(s: State, ss: Speeches, h: Heard) {
    forall x :: x in h.loud ==> Accounted(s, ss, h, x)
  }

  ghost predicate Running(p: Params, window: nat, s: State, ss: Speeches, h: Heard, now: int)
    requires window > 0
  {
    && Coherent(s, ss, now) && Justified(p, window, ss, h) && OpenJustified(s, h) && AllAccounted(s, ss, h)
    && forall x :: x in h.loud || x in h.cuts ==> x < now
  }

  /** The state with one more window heard. */
  function Hear(p: Params, h: Heard, prob: real, now: int): Heard {
    h.(loud := if prob >= p.threshold then h.loud + {now} else h.loud,
       quiet := if prob < NegThreshold(p) then h.quiet + {now} else h.quiet)
  }

  /** The open segment ends at end and is kept; more has the end as a cut if that is why. */
  lemma Pushed(p: Params, window: nat, s: State, ss: Speeches, h: Heard, more: Heard, end: int, now: int, next: State)
    requires window > 0 && Justified(p, window, ss, h) && s.start in h.loud && AllAccounted(s, ss, h)
    requires InOrder(ss, now) && LastEnd(ss) <= s.start < end <= now && EndsRight(p, window, Speech(s.start, end), h)
    requires more == h || (more == h.(cuts := h.cuts + {end}) && end - s.start > MaxSpeech(p, window))
    requires forall x :: x in h.loud && Open(s, x) ==> x < end || x in more.cuts || Open(next, x)
    ensures InOrder(ss + [Speech(s.start, end)], now) && Justified(p, window, ss + [Speech(s.start, end)], more)
    ensures AllAccounted(next, ss + [Speech(s.start, end)], more)
  {
    var seg := Speech(s.start, end);
    AppendInOrder(ss, seg, now);
    StillCut(p, window, ss, seg, h.cuts);
    forall i | 0 <= i < |h.dropped| ensures GivenUpRight(p, h.dropped[i], more) {
      assert GivenUpRight(p, h.dropped[i], h);
    }
    forall x | x in h.loud ensures Accounted(next, ss + [seg], more, x) {
      InSomeOfMore(ss, [seg], x);
      assert [seg][0] == seg;
      assert Accounted(s, ss, h, x);
    }
  }

  lemma GivenUp(s: State, ss: Speeches, h: Heard, end: int, next: State)
    requires AllAccounted(s, ss, h)
    requires forall x :: x in h.loud && Open(s, x) ==> x < end
    ensures AllAccounted(next, ss, h.(dropped := h.dropped + [Speech(s.start, end)]))
  {
    var seg := Speech(s.start, end);
    forall x | x in h.loud ensures Accounted(next, ss, h.(dropped := h.dropped + [seg]), x) {
      InSomeOfMore(h.dropped, [seg], x);
      assert [seg][0] == seg;
      assert Accounted(s, ss, h, x);
    }
  }

  lemma OneMoreGivenUp(p: Params, window: nat, ss: Speeches, h: Heard, s: Speech)
    requires window > 0 && Justified(p, window, ss, h) && GivenUpRight(p, s, h)
    ensures Justified(p, window, ss, h.(dropped := h.dropped + [s]))
  {
    var more := h.(dropped := h.dropped + [s]);
    forall i | 0 <= i < |more.dropped| ensures GivenUpRight(p, more.dropped[i], more) {
      assert i < |h.dropped| ==> GivenUpRight(p, h.dropped[i], h);
    }
  }

  lemma MoreHeard(p: Params, window: nat, ss: Speeches, h: Heard, more: Heard)
    requires window > 0 && Justified(p, window, ss, h) && h.loud <= more.loud && h.quiet <= more.quiet
    requires more.dropped == h.dropped && more.cuts == h.cuts
    ensures Justified(p, window, ss, more)
  {
    forall i | 0 <= i < |h.dropped| ensures GivenUpRight(p, more.dropped[i], more) {
      assert GivenUpRight(p, h.dropped[i], h);
    }
  }

  /** What holds inside a window, once it has been heard and silence before it has been forgotten. */
  ghost predicate Midway(p: Params, window: nat, s: State, ss: Speeches, h: Heard, now: int)
    requires window > 0
  {
    && s.has == s.inSpeech && InOrder(ss, now) && Justified(p, window, ss, h) && OpenJustified(s, h) && AllAccounted(s, ss, h)
    && LastEnd(ss) <= s.start <= now
    && (s.tempEnd != 0 ==> s.start < s.tempEnd < now) && (s.prevEnd != 0 ==> s.start < s.prevEnd < now)
    && (s.nextStart == 0 || s.start < s.nextStart <= now) && s.inSpeech
    && (forall x :: x in h.loud || x in h.cuts ==> x <= now)
  }

  // ----- one window, as the source does it

  /** A silence that has lasted long enough ends the segment; a shorter one is remembered. */
  method Silence(p: Params, window: nat, s: State, ss: Speeches, ghost h: Heard, now: int)
    returns (next: State, out: Speeches, ghost after: Heard)
    requires window > 0 && now >= 0 && Midway(p, window, s, ss, h, now) && s.start < now
    requires now in h.quiet && now !in h.loud && now !in h.cuts && (s.nextStart != 0 ==> s.nextStart < now)
    ensures Progress(next, out) == Quieten(p, s, ss, now)
    ensures Running(p, window, next, out, after, now + window)
    ensures Coherent(next, out, now + window)
    ensures after.loud == h.loud && after.quiet == h.quiet && after.cuts == h.cuts && after.dropped == h.dropped + TooShort(p, s, now)
  {
    next, out, after := s, ss, h;
    if next.tempEnd == 0 {
      next := next.(tempEnd := now);
    }
    if now - next.tempEnd > SPLIT_SILENCE {
      next := next.(prevEnd := next.tempEnd);
    }
    Remembered(p, window, s, ss, h, now, next);
    if now - next.tempEnd >= MinSilence(p) {
      next, out, after := EndSegment(p, window, next, ss, h, now);
    } else {
      StillRunning(p, window, next, ss, h, now);
    }
  }

  lemma StillRunning(p: Params, window: nat, s: State, ss: Speeches, h: Heard, now: int)
    requires window > 0 && now >= 0 && InSilence(p, window, s, ss, h, now)
    ensures Running(p, window, s, ss, h, now + window) && Coherent(s, ss, now + window)
  {
    Later(ss, now, now + window);
  }

  /** In a silence that began at tempEnd, at the window now or before. */
  ghost predicate InSilence(p: Params, window: nat, s: State, ss: Speeches, h: Heard, now: int)
    requires window > 0
  {
    && s.inSpeech && s.has && InOrder(ss, now) && Justified(p, window, ss, h) && OpenJustified(s, h) && AllAccounted(s, ss, h)
    && LastEnd(ss) <= s.start < s.tempEnd <= now && 0 <= s.start
    && (s.prevEnd != 0 ==> s.start < s.prevEnd <= now) && (s.nextStart == 0 || s.start < s.nextStart < now)
    && (forall x :: x in h.loud || x in h.cuts ==> x < now)
  }

  lemma Remembered(p: Params, window: nat, s: State, ss: Speeches, h: Heard, now: int, next: State)
    requires window > 0 && now >= 0 && Midway(p, window, s, ss, h, now) && s.start < now
    requires now in h.quiet && now !in h.loud && now !in h.cuts && (s.nextStart != 0 ==> s.nextStart < now)
    requires next == Remember(s, now)
    ensures InSilence(p, window, next, ss, h, now)
  {
    StillAccounted(s, ss, h, now, next);
    assert ss != [] ==> 0 <= ss[|ss| - 1].start;
  }

  lemma StillAccounted(s: State, ss: Speeches, h: Heard, now: int, next: State)
    requires AllAccounted(s, ss, h) && s.inSpeech && next == Remember(s, now)
    requires (s.tempEnd != 0 ==> s.tempEnd < now) && (s.prevEnd != 0 ==> s.prevEnd < now) && now !in h.loud
    requires forall x :: x in h.loud || x in h.cuts ==> x <= now
    ensures AllAccounted(next, ss, h)
  {
    forall x | x in h.loud ensures Accounted(next, ss, h, x) {
      assert Accounted(s, ss, h, x);
    }
  }

  method EndSegment(p: Params, window: nat, s: State, ss: Speeches, ghost h: Heard, now: int)
    returns (next: State, out: Speeches, ghost after: Heard)
    requires window > 0 && now >= 0 && InSilence(p, window, s, ss, h, now)
    ensures next == Over(s)
    ensures out == if s.tempEnd - s.start > MinSpeech(p) then ss + [Speech(s.start, s.tempEnd)] else ss
    ensures Running(p, window, next, out, after, now + window)
    ensures Coherent(next, out, now + window)
    ensures after.loud == h.loud && after.quiet == h.quiet && after.cuts == h.cuts
    ensures after.dropped == h.dropped + if s.tempEnd - s.start > MinSpeech(p) then [] else [Speech(s.start, s.tempEnd)]
  {
    next, out, after := Over(s), ss, h;
    if s.tempEnd - s.start > MinSpeech(p) {
      Pushed(p, window, s, ss, h, h, s.tempEnd, now, next);
      out := ss + [Speech(s.start, s.tempEnd)];
    } else {
      GivenUp(s, ss, h, s.tempEnd, next);
      after := h.(dropped := h.dropped + [Speech(s.start, s.tempEnd)]);
      OneMoreGivenUp(p, window, ss, h, Speech(s.start, s.tempEnd));
    }
    Later(out, now, now + window);
  }

  /** The segment is too long: it ends at the last long silence, or is cut. */
  method TooLong(p: Params, window: nat, s: State, ss: Speeches, ghost h: Heard, now: int)
    returns (next: State, out: Speeches, goOn: bool, ghost after: Heard)
    requires window > 0 && now >= 0 && Midway(p, window, s, ss, h, now) && now - s.start > MaxSpeech(p, window)
    requires now !in h.cuts && (now in h.loud ==> s.prevEnd <= s.nextStart)
    ensures Progress(next, out) == Limit(s, ss, now) && goOn == (s.prevEnd != 0)
    ensures after.loud == h.loud && after.quiet == h.quiet && after.dropped == h.dropped
    ensures if goOn && next.inSpeech then
              Midway(p, window, next, out, after, now) && after.cuts == h.cuts && next.tempEnd == next.prevEnd == next.nextStart == 0
              && next.start == s.nextStart
            else Running(p, window, next, out, after, now + window)
  {
    out, after := ss, h;
    if s.prevEnd != 0 {
      next := if s.nextStart < s.prevEnd then Over(s) else State(true, true, s.nextStart, 0, 0, 0);
      Pushed(p, window, s, ss, h, h, s.prevEnd, now, next);
      out := ss + [Speech(s.start, s.prevEnd)];
      goOn := true;
      Later(out, now, now + window);
    } else {
      after := h.(cuts := h.cuts + {now});
      next := Over(s);
      Pushed(p, window, s, ss, h, after, now, now, next);
      out := ss + [Speech(s.start, now)];
      goOn := false;
      Later(out, now, now + window);
    }
  }

  method Resume(p: Params, prob: real, s: State, now: int) returns (next: State)
    ensures next == Back(p, prob, s, now)
  {
    next := s;
    if prob >= p.threshold && next.tempEnd != 0 {
      next := next.(tempEnd := 0);
      if next.nextStart < next.prevEnd {
        next := next.(nextStart := now);
      }
    }
  }

  lemma Resumed(p: Params, window: nat, prob: real, s: State, ss: Speeches, h: Heard, now: int, next: State)
    requires window > 0 && p.threshold >= 0.01 && Running(p, window, s, ss, h, now) && s.inSpeech
    requires next == Back(p, prob, s, now)
    ensures Midway(p, window, next, ss, Hear(p, h, prob, now), now)
  {
    var more := Hear(p, h, prob, now);
    MoreHeard(p, window, ss, h, more);
    forall x | x in more.loud ensures Accounted(next, ss, more, x) {
      if x != now {
        assert Accounted(s, ss, h, x);
      }
    }
  }

  /** One window. */
  method Window(p: Params, window: nat, prob: real, s: State, ss: Speeches, ghost h: Heard, now: int)
    returns (next: State, out: Speeches, ghost after: Heard)
    requires window > 0 && now >= 0 && p.threshold >= 0.01 && Running(p, window, s, ss, h, now)
    ensures Progress(next, out) == Step(p, window, prob, Progress(s, ss), now)
    ensures Running(p, window, next, out, after, now + window)
    ensures Coherent(next, out, now + window)
    ensures after.loud == Hear(p, h, prob, now).loud && after.quiet == Hear(p, h, prob, now).quiet
    ensures after.dropped == h.dropped + GivenUpIn(p, window, prob, Progress(s, ss), now)
  {
    out, after := ss, Hear(p, h, prob, now);
    next := Resume(p, prob, s, now);
    Later(ss, now, now + window);
    MoreHeard(p, window, ss, h, after);
    if prob >= p.threshold && !next.inSpeech {
      next := next.(inSpeech := true, has := true, start := now);
      Started(s, ss, h, after, now, next);
      return;
    }
    if s.inSpeech {
      Resumed(p, window, prob, s, ss, h, now, next);
    }
    var goOn := true;
    if next.inSpeech && now - next.start > MaxSpeech(p, window) {
      next, out, goOn, after := TooLong(p, window, next, out, after, now);
    }
    if goOn && prob < NegThreshold(p) && next.inSpeech {
      next, out, after := Silence(p, window, next, out, after, now);
    }
  }

  lemma Started(s: State, ss: Speeches, h: Heard, more: Heard, now: int, next: State)
    requires !s.inSpeech && AllAccounted(s, ss, h) && more.loud == h.loud + {now} && more.cuts == h.cuts && more.dropped == h.dropped
    requires next.inSpeech && next.start == now && next.tempEnd == 0 && next.prevEnd == 0
    ensures AllAccounted(next, ss, more)
  {
    forall x | x in more.loud ensures Accounted(next, ss, more, x) {
      if x != now {
        assert Accounted(s, ss, h, x);
      }
    }
  }

  lemma Later(ss: Speeches, a: int, b: int)
    requires InOrder(ss, a) && a <= b
    ensures InOrder(ss, b)
  {
  }

  // ----- all windows

  /** Each begins in a loud window and ends in a quiet one, where it is too long, or with the audio. */
  ghost predicate Placed(p: Params, probs: seq<real>, window: nat, ss: Speeches)
    requires window > 0
  {
    forall i :: 0 <= i < |ss| ==>
      && ss[i].start in LoudWindows(p, probs, window)
      && (|| ss[i].end in QuietWindows(p, probs, window) || ss[i].end == |probs| * window
          || ss[i].end - ss[i].start > MaxSpeech(p, window))
  }

  /** Speech that is given up is too short, from a loud window to silence that ends it, or to the end. */
  ghost predicate ShortOnly(p: Params, probs: seq<real>, window: nat, dropped: Speeches)
    requires window > 0
  {
    forall i :: 0 <= i < |dropped| ==>
      && dropped[i].end - dropped[i].start <= MinSpeech(p) && dropped[i].start in LoudWindows(p, probs, window)
      && (|| dropped[i].end == |probs| * window
          || (dropped[i].end in QuietWindows(p, probs, window) && VadSilence.HushAt(p, probs, window, dropped[i].end, |probs|)))
  }

  /** What raw segments promise: they are in order and not empty, begin and end where they should, are no
      longer than the maximum and one more window, and at least one window apart; silence that is long
      enough ends them, every end has a reason, and what is too long is split at its last pause; and every
      loud window is in one, unless it was in speech too short to keep, or a segment was cut at it. */
  ghost predicate Raw(p: Params, probs: seq<real>, window: nat, ss: Speeches, dropped: Speeches, cuts: set<int>)
    requires window > 0
  {
    && InOrder(ss, |probs| * window) && Limited(ss, MaxSpeech(p, window) + window) && Apart(ss, window)
    && Placed(p, probs, window, ss) && ShortOnly(p, probs, window, dropped) && VadSilence.Settled(p, probs, window, ss)
    && AllInSome(p, probs, window, ss, dropped, cuts)
  }

  ghost predicate AllInSome(p: Params, probs: seq<real>, window: nat, ss: Speeches, dropped: Speeches, cuts: set<int>)
    requires window > 0
  {
    && (forall x :: x in cuts ==> CutAt(p, window, ss, x))
    && (forall x :: x in LoudWindows(p, probs, window) ==> InSome(ss, x) || InSome(dropped, x) || x in cuts)
  }

  /** The first n windows have been heard. */
  ghost predicate HeardTo(p: Params, probs: seq<real>, window: nat, g: Progress, h: Heard, n: nat)
    requires window > 0
  {
    && n <= |probs| && g == After(p, probs[..n], window) && Running(p, window, g.state, g.found, h, n * window)
    && h.loud == LoudWindows(p, probs[..n], window) && h.quiet == QuietWindows(p, probs[..n], window)
    && VadSilence.AllHushed(p, probs, window, h.dropped, n)
  }

  method DetectAll(p: Params, probs: seq<real>, window: nat) returns (s: State, ss: Speeches, ghost h: Heard)
    requires window > 0 && p.threshold >= 0.01
    ensures Progress(s, ss) == After(p, probs, window) && Running(p, window, s, ss, h, |probs| * window)
    ensures h.loud == LoudWindows(p, probs, window) && h.quiet == QuietWindows(p, probs, window)
    ensures VadSilence.AllHushed(p, probs, window, h.dropped, |probs|)
  {
    s, ss, h := IDLE, [], Heard({}, {}, [], {});
    for i := 0 to |probs|
      invariant HeardTo(p, probs, window, Progress(s, ss), h, i)
    {
      s, ss, h := NextWindow(p, probs, window, s, ss, h, i);
    }
    assert probs[..|probs|] == probs;
  }

  method NextWindow(p: Params, probs: seq<real>, window: nat, s: State, ss: Speeches, ghost h: Heard, i: nat)
    returns (next: State, out: Speeches, ghost after: Heard)
    requires window > 0 && p.threshold >= 0.01 && i < |probs| && HeardTo(p, probs, window, Progress(s, ss), h, i)
    ensures HeardTo(p, probs, window, Progress(next, out), after, i + 1)
  {
    var now := i * window;
    next, out, after := Window(p, window, probs[i], s, ss, h, now);
    OneMoreHeard(p, probs, window, Progress(s, ss), h, i, now, Progress(next, out), after);
  }

  lemma OneMoreHeard(p: Params, probs: seq<real>, window: nat, g: Progress, h: Heard, i: nat, now: int, next: Progress, after: Heard)
    requires window > 0 && p.threshold >= 0.01 && i < |probs| && now == i * window && g == After(p, probs[..i], window)
    requires h.loud == LoudWindows(p, probs[..i], window) && h.quiet == QuietWindows(p, probs[..i], window)
    requires VadSilence.AllHushed(p, probs, window, h.dropped, i)
    requires next == Step(p, window, probs[i], g, now) && Running(p, window, next.state, next.found, after, now + window)
    requires after.loud == Hear(p, h, probs[i], now).loud && after.quiet == Hear(p, h, probs[i], now).quiet
    requires after.dropped == h.dropped + GivenUpIn(p, window, probs[i], g, now)
    ensures HeardTo(p, probs, window, next, after, i + 1)
  {
    OneWindowMore(p, probs, window, i);
    GivenUpHushed(p, probs, window, i, h.dropped);
  }

  lemma GivenUpHushed(p: Params, probs: seq<real>, window: nat, n: nat, dropped: Speeches)
    requires window > 0 && p.threshold >= 0.01 && n < |probs| && VadSilence.AllHushed(p, probs, window, dropped, n)
    ensures VadSilence.AllHushed(p, probs, window,
              dropped + GivenUpIn(p, window, probs[n], After(p, probs[..n], window), n * window), n + 1)
  {
    var g := After(p, probs[..n], window);
    VadSilence.AfterReasoned(p, probs, window, n);
    VadSilence.GivenUpQuietly(p, probs, window, g, n);
    VadSilence.OneMoreHushed(p, probs, window, dropped, GivenUpIn(p, window, probs[n], g, n * window), n);
  }

  method Detect(p: Params, probs: seq<real>, window: nat) returns (ss: Speeches, ghost dropped: Speeches, ghost cuts: set<int>)
    requires window > 0 && p.threshold >= 0.01
    ensures Raw(p, probs, window, ss, dropped, cuts) && ss == Found(p, probs, window)
    ensures InOrder(ss, |probs| * window)
  {
    var s;
    ghost var h;
    s, ss, h := DetectAll(p, probs, window);
    var now := |probs| * window;
    dropped, cuts := h.dropped, h.cuts;
    DroppedRight(p, probs, window, ss, h);
    AfterTimely(p, probs, window);
    if s.has && now - s.start > MinSpeech(p) {
      LastSegment(p, probs, window, s, ss, h);
      ss := ss + [Speech(s.start, now)];
    } else if s.has {
      dropped := h.dropped + [Speech(s.start, now)];
      LastGivenUp(p, probs, window, s, ss, h);
    }
    VadSilence.FoundSettled(p, probs, window);
  }

  lemma DroppedRight(p: Params, probs: seq<real>, window: nat, ss: Speeches, h: Heard)
    requires window > 0 && Justified(p, window, ss, h) && VadSilence.AllHushed(p, probs, window, h.dropped, |probs|)
    requires h.loud == LoudWindows(p, probs, window) && h.quiet == QuietWindows(p, probs, window)
    ensures ShortOnly(p, probs, window, h.dropped) && Placed(p, probs, window, ss)
  {
    forall i | 0 <= i < |h.dropped|
      ensures h.dropped[i].end - h.dropped[i].start <= MinSpeech(p) && h.dropped[i].start in h.loud && h.dropped[i].end in h.quiet
    {
      assert GivenUpRight(p, h.dropped[i], h);
    }
  }

  lemma LastSegment(p: Params, probs: seq<real>, window: nat, s: State, ss: Speeches, h: Heard)
    requires window > 0 && Running(p, window, s, ss, h, |probs| * window) && s.inSpeech
    requires Timely(p, window, Progress(s, ss), |probs| * window)
    requires h.loud == LoudWindows(p, probs, window) && h.quiet == QuietWindows(p, probs, window)
    ensures var out := ss + [Speech(s.start, |probs| * window)];
            && InOrder(out, |probs| * window) && Limited(out, MaxSpeech(p, window) + window) && Apart(out, window)
            && Placed(p, probs, window, out) && AllInSome(p, probs, window, out, h.dropped, h.cuts)
  {
    var seg := Speech(s.start, |probs| * window);
    AppendInOrder(ss, seg, |probs| * window);
    AppendApart(ss, seg, MaxSpeech(p, window) + window, window);
    StillCut(p, window, ss, seg, h.cuts);
    forall x | x in h.loud ensures InSome(ss + [seg], x) || InSome(h.dropped, x) || x in h.cuts {
      InSomeOfMore(ss, [seg], x);
      assert [seg][0] == seg;
      assert Accounted(s, ss, h, x);
    }
  }

  lemma LastGivenUp(p: Params, probs: seq<real>, window: nat, s: State, ss: Speeches, h: Heard)
    requires window > 0 && Running(p, window, s, ss, h, |probs| * window) && s.inSpeech
    requires |probs| * window - s.start <= MinSpeech(p) && ShortOnly(p, probs, window, h.dropped)
    requires h.loud == LoudWindows(p, probs, window) && h.quiet == QuietWindows(p, probs, window)
    ensures var dropped := h.dropped + [Speech(s.start, |probs| * window)];
            ShortOnly(p, probs, window, dropped) && AllInSome(p, probs, window, ss, dropped, h.cuts)
  {
    var seg := Speech(s.start, |probs| * window);
    forall x | x in h.loud ensures InSome(ss, x) || InSome(h.dropped + [seg], x) || x in h.cuts {
      InSomeOfMore(h.dropped, [seg], x);
      assert [seg][0] == seg;
      assert Accounted(s, ss, h, x);
    }
  }

  // ----- the passes over the segments

  /** out has come from ss by joining neighbours, over short gaps only; up to segment i gaps are wide. */
  ghost predicate Joined(ss: Speeches, out: Speeches, i: nat, end: int) {
    && InOrder(out, end)
    && (forall k :: 0 < k <= i && k < |out| ==> out[k].start - out[k - 1].end >= MERGE_GAP)
    && (forall x :: InSome(ss, x) ==> InSome(out, x))
    && (forall k :: 0 <= k < |out| ==> StartOf(ss, out[k].start) && EndOf(ss, out[k].end))
  }

  /** A segment that is far enough from the next ends one of those that come out. */
  predicate WideGapsStay(ss: Speeches, out: Speeches) {
    forall j :: 0 <= j < |ss| - 1 && ss[j + 1].start - ss[j].end >= MERGE_GAP ==> EndOf(out, ss[j].end)
  }

  function WithJoined(ss: Speeches, i: nat): Speeches
    requires i + 1 < |ss|
  {
    ss[..i] + [Speech(ss[i].start, ss[i + 1].end)] + ss[i + 2..]
  }

  /** From segment i on, a segment closer than the least gap to the one before it is joined to it. */
  function Merged(ss: Speeches, i: nat): Speeches
    decreases |ss| - i
  {
    if i + 1 >= |ss| then ss
    else if ss[i + 1].start - ss[i].end < MERGE_GAP then Merged(WithJoined(ss, i), i)
    else Merged(ss, i + 1)
  }

  /** As Joined, with all wide gaps still there. */
  ghost predicate Joining(ss: Speeches, out: Speeches, i: nat, end: int) {
    Joined(ss, out, i, end) && WideGapsStay(ss, out)
  }

  /** Close segments become one; a part of the merged one that was in none is a short gap. */
  method Merge(ss: Speeches, end: int) returns (out: Speeches)
    requires InOrder(ss, end)
    ensures Joined(ss, out, |out|, end) && WideGapsStay(ss, out) && out == Merged(ss, 0)
  {
    out := ss;
    var i := 0;
    StartsAndEnds(ss, end);
    while i < |out| - 1
      invariant 0 <= i && (out == [] || i < |out|) && Joining(ss, out, i, end)
      invariant Merged(out, i) == Merged(ss, 0)
      decreases |out| - i
    {
      if out[i + 1].start - out[i].end < MERGE_GAP {
        OneJoined(ss, out, i, end);
        out := WithJoined(out, i);
      } else {
        OneGapMore(ss, out, i, end);
        i := i + 1;
      }
    }
    AllGaps(ss, out, i, end);
  }

  lemma OneGapMore(ss: Speeches, out: Speeches, i: nat, end: int)
    requires Joining(ss, out, i, end) && i + 1 < |out| && out[i + 1].start - out[i].end >= MERGE_GAP
    ensures Joining(ss, out, i + 1, end)
  {
  }

  lemma AllGaps(ss: Speeches, out: Speeches, i: nat, end: int)
    requires Joined(ss, out, i, end) && i >= |out| - 1
    ensures Joined(ss, out, |out|, end)
  {
  }

  lemma StartsAndEnds(ss: Speeches, end: int)
    requires InOrder(ss, end)
    ensures Joining(ss, ss, 0, end)
  {
  }

  /** The gap that is closed is not a wide one. */
  lemma WideGapsStayWide(ss: Speeches, out: Speeches, i: nat, end: int)
    requires InOrder(ss, end) && Joined(ss, out, i, end) && WideGapsStay(ss, out)
    requires i + 1 < |out| && out[i + 1].start - out[i].end < MERGE_GAP
    ensures WideGapsStay(ss, WithJoined(out, i))
  {
    forall j | 0 <= j < |ss| - 1 && ss[j + 1].start - ss[j].end >= MERGE_GAP ensures EndOf(WithJoined(out, i), ss[j].end) {
      var k :| 0 <= k < |out| && out[k].end == ss[j].end;
      if k == i {
        NotClosed(ss, out, i, end, j);
      }
      EndsStay(out, i, k);
    }
  }

  lemma EndsStay(out: Speeches, i: nat, k: nat)
    requires i + 1 < |out| && k < |out| && k != i
    ensures EndOf(WithJoined(out, i), out[k].end)
  {
    assert WithJoined(out, i)[if k < i then k else k - 1].end == out[k].end;
  }

  /** No gap of out that begins with a wide one is closed. */
  lemma NotClosed(ss: Speeches, out: Speeches, i: nat, end: int, j: nat)
    requires InOrder(ss, end) && InOrder(out, end) && i + 1 < |out| && j + 1 < |ss| && out[i].end == ss[j].end
    requires StartOf(ss, out[i + 1].start) && forall x :: InSome(ss, x) ==> InSome(out, x)
    ensures out[i + 1].start == ss[j + 1].start
  {
    var n :| 0 <= n < |ss| && ss[n].start == out[i + 1].start;
    StartBehind(ss, j, n, end, ss[j].end);
    assert ss[j].end <= ss[j + 1].start;
    assert InSome(ss, ss[j + 1].start);
    NothingBetween(out, i, end, ss[j + 1].start);
  }

  lemma StartBehind(ss: Speeches, j: nat, n: nat, end: int, from: int)
    requires InOrder(ss, end) && j + 1 < |ss| && n < |ss| && ss[n].start >= from == ss[j].end
    ensures ss[n].start >= ss[j + 1].start
  {
  }

  lemma NothingBetween(out: Speeches, i: nat, end: int, x: int)
    requires InOrder(out, end) && i + 1 < |out| && InSome(out, x) && out[i].end <= x
    ensures out[i + 1].start <= x
  {
    var k :| 0 <= k < |out| && out[k].start <= x < out[k].end;
    if k > i + 1 {
      assert out[i + 1].end <= out[k].start;
    }
  }

  lemma OneJoined(ss: Speeches, out: Speeches, i: nat, end: int)
    requires InOrder(ss, end) && Joining(ss, out, i, end) && i + 1 < |out| && out[i + 1].start - out[i].end < MERGE_GAP
    ensures Joining(ss, WithJoined(out, i), i, end)
  {
    WideGapsStayWide(ss, out, i, end);
    StillJoined(ss, out, i, end);
  }

  lemma StillJoined(ss: Speeches, out: Speeches, i: nat, end: int)
    requires Joined(ss, out, i, end) && i + 1 < |out|
    ensures Joined(ss, WithJoined(out, i), i, end)
  {
    var now := WithJoined(out, i);
    JoinedInOrder(out, i, end);
    forall x | InSome(ss, x) ensures InSome(now, x) {
      CoversStill(out, i, end, x);
    }
    forall k | 0 <= k < |now| ensures StartOf(ss, now[k].start) && EndOf(ss, now[k].end) {
      assert now[k].start == out[if k <= i then k else k + 1].start;
      assert now[k].end == out[if k < i then k else k + 1].end;
    }
  }

  lemma JoinedInOrder(out: Speeches, i: nat, end: int)
    requires InOrder(out, end) && i + 1 < |out|
    ensures InOrder(WithJoined(out, i), end)
  {
    var now := WithJoined(out, i);
    forall k | 0 <= k < |now| ensures now[k].start == out[if k <= i then k else k + 1].start && now[k].end == out[if k < i then k else k + 1].end {
    }
    assert out[i].end <= out[i + 1].start;
  }

  lemma CoversStill(out: Speeches, i: nat, end: int, x: int)
    requires InOrder(out, end) && i + 1 < |out| && InSome(out, x)
    ensures InSome(WithJoined(out, i), x)
  {
    var now := WithJoined(out, i);
    var k :| 0 <= k < |out| && out[k].start <= x < out[k].end;
    var at := if k <= i then k else k - 1;
    assert out[i].end <= out[i + 1].start;
    assert now[at].start <= x < now[at].end;
  }

  predicate StartOf(ss: Speeches, x: int) {
    exists i :: 0 <= i < |ss| && ss[i].start == x
  }

  predicate EndOf(ss: Speeches, x: int) {
    exists i :: 0 <= i < |ss| && ss[i].end == x
  }

  /** The segments that are long enough. */
  function LongEnough(ss: Speeches, least: int): Speeches {
    if ss == [] then []
    else (if ss[0].end - ss[0].start < least then [] else [ss[0]]) + LongEnough(ss[1..], least)
  }

  /** Those that are too short are taken out. */
  method Filter(ss: Speeches, least: int) returns (out: Speeches)
    ensures out == LongEnough(ss, least)
  {
    out := ss;
    var i := 0;
    while i < |out|
      invariant 0 <= i <= |out| && out[..i] + LongEnough(out[i..], least) == LongEnough(ss, least)
      decreases |out| - i
    {
      ghost var rest := out[i..];
      if out[i].end - out[i].start < least {
        out := out[..i] + out[i + 1..];
        assert out[i..] == rest[1..];
      } else {
        i := i + 1;
        assert out[i..] == rest[1..];
      }
    }
  }

  /** Filtering keeps order, loses no long segment, and adds none. */
  lemma {:induction false} FilterMembers(ss: Speeches, least: int)
    ensures forall s :: s in LongEnough(ss, least) <==> s in ss && s.end - s.start >= least
    decreases |ss|
  {
    if ss != [] {
      FilterMembers(ss[1..], least);
      assert ss == [ss[0]] + ss[1..];
    }
  }

  lemma {:induction false} FilterInOrder(ss: Speeches, least: int, end: int)
    requires InOrder(ss, end)
    ensures InOrder(LongEnough(ss, least), end)
    decreases |ss|
  {
    if ss != [] {
      var rest := LongEnough(ss[1..], least);
      TailInOrder(ss, end);
      FilterInOrder(ss[1..], least, end);
      FilterMembers(ss[1..], least);
      PrependInOrder(ss, rest, end);
      assert LongEnough(ss, least) == if ss[0].end - ss[0].start < least then rest else [ss[0]] + rest;
    }
  }

  lemma TailInOrder(ss: Speeches, end: int)
    requires ss != [] && InOrder(ss, end)
    ensures InOrder(ss[1..], end)
  {
  }

  lemma PrependInOrder(ss: Speeches, rest: Speeches, end: int)
    requires ss != [] && InOrder(ss, end) && InOrder(rest, end) && forall s :: s in rest ==> s in ss[1..]
    ensures InOrder([ss[0]] + rest, end)
  {
    forall i | 0 <= i < |rest| ensures ss[0].end <= rest[i].start {
      assert rest[i] in ss[1..];
    }
  }

  // ----- padding

  /** Segment i + 1 and the end of segment i move towards each other. */
  method PadGap(ss: Speeches, i: nat, pad: nat, length: int) returns (out: Speeches)
    requires i + 1 < |ss|
    ensures out == GapPadded(ss, i, pad, length)
  {
    out := ss;
    var silence := out[i + 1].start - out[i].end;
    if silence < 2 * pad {
      out := out[i := out[i].(end := out[i].end + silence / 2)];
      out := out[i + 1 := out[i + 1].(start := if out[i + 1].start > silence / 2 then out[i + 1].start - silence / 2 else 0)];
    } else {
      out := out[i := out[i].(end := if out[i].end + pad < length then out[i].end + pad else length)];
      out := out[i + 1 := out[i + 1].(start := if out[i + 1].start > pad then out[i + 1].start - pad else 0)];
    }
  }

  function GapPadded(ss: Speeches, i: nat, pad: nat, length: int): Speeches
    requires i + 1 < |ss|
  {
    var silence := ss[i + 1].start - ss[i].end;
    var d := if silence < 2 * pad then silence / 2 else pad;
    var end := if silence >= 2 * pad && ss[i].end + d >= length then length else ss[i].end + d;
    ss[i := ss[i].(end := end)][i + 1 := ss[i + 1].(start := if ss[i + 1].start > d then ss[i + 1].start - d else 0)]
  }

  /** Every segment has grown, by no more than pad on either side. */
  predicate Grown(was: Speeches, now: Speeches, pad: nat) {
    |was| == |now| && forall i :: 0 <= i < |was| ==>
      now[i].start <= was[i].start <= now[i].start + pad && was[i].end <= now[i].end <= was[i].end + pad
  }

  /** Between segments k and k + 1 either side gets the padding, or half of what there is. */
  predicate GapRight(was: Speeches, now: Speeches, k: nat, pad: nat)
    requires k + 1 < |was| == |now|
  {
    var silence := was[k + 1].start - was[k].end;
    var d := if silence < 2 * pad then silence / 2 else pad;
    now[k].end == was[k].end + d && now[k + 1].start == was[k + 1].start - d
  }

  /** The outermost segments get the padding there is room for. */
  predicate EdgesRight(was: Speeches, now: Speeches, pad: nat, length: int)
    requires |was| == |now| > 0
  {
    var last := |was| - 1;
    && now[0].start == (if was[0].start > pad then was[0].start - pad else 0)
    && now[last].end == if was[last].end + pad < length then was[last].end + pad else length
  }

  lemma GapPaddedKeeps(was: Speeches, ss: Speeches, i: nat, pad: nat, length: int)
    requires InOrder(ss, length) && i + 1 < |ss| && Grown(was, ss, pad)
    requires was[i].end == ss[i].end && was[i + 1].start == ss[i + 1].start
    ensures InOrder(GapPadded(ss, i, pad, length), length) && Grown(was, GapPadded(ss, i, pad, length), pad)
  {
    assert ss[i].end <= ss[i + 1].start;
  }

  lemma GapPaddedRight(was: Speeches, ss: Speeches, i: nat, pad: nat, length: int)
    requires InOrder(ss, length) && i + 1 < |ss| == |was|
    requires was[i].end == ss[i].end && was[i + 1].start == ss[i + 1].start
    ensures GapRight(was, GapPadded(ss, i, pad, length), i, pad)
  {
    assert ss[i].end <= ss[i + 1].start;
  }

  /** Start and end in centiseconds: the nearest, halves going up. */
  function Centiseconds(samples: int): int {
    (samples + SAMPLE_RATE / 200) / (SAMPLE_RATE / 100)
  }

  lemma CentisecondsInOrder(a: int, b: int)
    requires a <= b
    ensures Centiseconds(a) <= Centiseconds(b)
  {
  }

  /** Segments before i are padded; of segment i only the start is, the others are as they were. */
  ghost predicate PaddedTo(ss: Speeches, out: Speeches, i: nat, pad: nat, length: int) {
    && InOrder(out, length) && Grown(ss, out, pad) && i <= |ss|
    && (forall k :: i < k < |ss| ==> out[k] == ss[k])
    && (i < |ss| ==> out[i].end == ss[i].end && (i == 0 ==> out[i] == ss[i]))
    && GapsRight(ss, out, i, pad)
    && (i > 0 ==> out[0].start == if ss[0].start > pad then ss[0].start - pad else 0)
    && (0 < i == |ss| ==> EdgesRight(ss, out, pad, length))
  }

  predicate GapsRight(was: Speeches, now: Speeches, n: nat, pad: nat) {
    |was| == |now| && forall k :: 0 <= k < n && k + 1 < |was| ==> GapRight(was, now, k, pad)
  }

  /** Gap i comes to those before, which stay as they were. */
  lemma OneGapRight(ss: Speeches, before: Speeches, out: Speeches, i: nat, pad: nat)
    requires i < |ss| == |before| == |out| && GapsRight(ss, before, i, pad)
    requires out[i].start == before[i].start && forall k :: 0 <= k < i ==> out[k] == before[k]
    requires i + 1 < |ss| ==> GapRight(ss, out, i, pad)
    ensures GapsRight(ss, out, i + 1, pad)
  {
    forall k | 0 <= k < i + 1 && k + 1 < |ss| ensures GapRight(ss, out, k, pad) {
      if k < i {
        assert GapRight(ss, before, k, pad);
      }
    }
  }

  /** As PaddedTo, with the start of segment i in place. */
  ghost predicate Begun(ss: Speeches, out: Speeches, i: nat, pad: nat, length: int) {
    && InOrder(out, length) && Grown(ss, out, pad) && i < |ss|
    && (forall k :: i < k < |ss| ==> out[k] == ss[k]) && out[i].end == ss[i].end
    && GapsRight(ss, out, i, pad)
    && out[0].start == if ss[0].start > pad then ss[0].start - pad else 0
  }

  lemma PaddedPastGap(ss: Speeches, started: Speeches, i: nat, pad: nat, length: int)
    requires Begun(ss, started, i, pad, length) && i + 1 < |ss|
    ensures PaddedTo(ss, GapPadded(started, i, pad, length), i + 1, pad, length)
  {
    GapPaddedKeeps(ss, started, i, pad, length);
    GapPaddedRight(ss, started, i, pad, length);
    OneGapRight(ss, started, GapPadded(started, i, pad, length), i, pad);
  }

  function EndPadded(ss: Speeches, i: nat, pad: nat, length: int): Speeches
    requires i < |ss|
  {
    ss[i := ss[i].(end := if ss[i].end + pad < length then ss[i].end + pad else length)]
  }

  lemma PaddedPastEnd(ss: Speeches, started: Speeches, i: nat, pad: nat, length: int)
    requires Begun(ss, started, i, pad, length) && i + 1 == |ss|
    ensures PaddedTo(ss, EndPadded(started, i, pad, length), i + 1, pad, length)
  {
    OneGapRight(ss, started, EndPadded(started, i, pad, length), i, pad);
  }

  method PadOne(ss: Speeches, before: Speeches, i: nat, pad: nat, length: int) returns (out: Speeches)
    requires PaddedTo(ss, before, i, pad, length) && i < |ss|
    ensures PaddedTo(ss, out, i + 1, pad, length)
    ensures forall k :: 0 <= k < i ==> out[k] == before[k]
  {
    out := before;
    if i == 0 {
      out := PadFirst(ss, out, pad, length);
    }
    if i < |ss| - 1 {
      PaddedPastGap(ss, out, i, pad, length);
      out := PadGap(out, i, pad, length);
    } else {
      PaddedPastEnd(ss, out, i, pad, length);
      out := EndPadded(out, i, pad, length);
    }
  }

  method PadFirst(ss: Speeches, before: Speeches, pad: nat, length: int) returns (out: Speeches)
    requires PaddedTo(ss, before, 0, pad, length) && ss != []
    ensures Begun(ss, out, 0, pad, length)
  {
    out := before[0 := before[0].(start := if before[0].start > pad then before[0].start - pad else 0)];
  }

  method PadAll(ss: Speeches, pad: nat, length: int) returns (out: Speeches, cs: Speeches)
    requires InOrder(ss, length)
    ensures InOrder(out, length) && Grown(ss, out, pad) && (ss != [] ==> EdgesRight(ss, out, pad, length))
    ensures GapsRight(ss, out, |ss|, pad)
    ensures |cs| == |out| && forall i :: 0 <= i < |cs| ==> cs[i] == Speech(Centiseconds(out[i].start), Centiseconds(out[i].end))
  {
    out, cs := ss, [];
    for i := 0 to |ss|
      invariant PaddedTo(ss, out, i, pad, length) && |cs| == i
      invariant forall k :: 0 <= k < i ==> cs[k] == Speech(Centiseconds(out[k].start), Centiseconds(out[k].end))
    {
      out := PadOne(ss, out, i, pad, length);
      cs := cs + [Speech(Centiseconds(out[i].start), Centiseconds(out[i].end))];
    }
  }

  /** In centiseconds segments are in order too, though a very short one may be empty. */
  predicate InOrderCs(cs: Speeches, end: int) {
    && (forall i :: 0 <= i < |cs| ==> 0 <= cs[i].start <= cs[i].end <= end)
    && (forall i, j :: 0 <= i < j < |cs| ==> cs[i].end <= cs[j].start)
  }

  lemma RoundedInOrder(ss: Speeches, cs: Speeches, length: int)
    requires InOrder(ss, length) && |cs| == |ss|
    requires forall i :: 0 <= i < |cs| ==> cs[i] == Speech(Centiseconds(ss[i].start), Centiseconds(ss[i].end))
    ensures InOrderCs(cs, Centiseconds(length))
  {
    forall i | 0 <= i < |cs| ensures 0 <= cs[i].start <= cs[i].end <= Centiseconds(length) {
      CentisecondsInOrder(0, ss[i].start);
      CentisecondsInOrder(ss[i].start, ss[i].end);
      CentisecondsInOrder(ss[i].end, length);
    }
    forall i, j | 0 <= i < j < |cs| ensures cs[i].end <= cs[j].start {
      CentisecondsInOrder(ss[i].end, ss[j].start);
    }
  }

  predicate Padded(was: Speeches, now: Speeches, pad: nat, length: int) {
    && Grown(was, now, pad) && (was != [] ==> EdgesRight(was, now, pad, length))
    && GapsRight(was, now, |was|, pad)
  }

  /** All of it: segments in centiseconds, in order, inside the audio. A loud window is in the padded
      segment it comes from unless speech was too short, or was cut there; and a segment that is not one
      of several joined lasts no longer than the maximum, one more window and the padding. */
  method Segments(p: Params, probs: seq<real>, window: nat)
    returns (cs: Speeches, padded: Speeches, merged: Speeches, ghost raw: Speeches, ghost dropped: Speeches, ghost cuts: set<int>)
    requires window > 0 && p.threshold >= 0.01
    ensures Raw(p, probs, window, raw, dropped, cuts) && Joined(raw, merged, |merged|, |probs| * window)
    ensures WideGapsStay(raw, merged) && raw == Found(p, probs, window) && merged == Merged(raw, 0)
    ensures PaddedLimited(raw, LongEnough(merged, MinSpeech(p)), padded, MaxSpeech(p, window) + window + 2 * Pad(p))
    ensures InOrder(padded, |probs| * window) && Padded(LongEnough(merged, MinSpeech(p)), padded, Pad(p), |probs| * window)
    ensures |cs| == |padded| && forall i :: 0 <= i < |cs| ==> cs[i] == Speech(Centiseconds(padded[i].start), Centiseconds(padded[i].end))
    ensures InOrderCs(cs, Centiseconds(|probs| * window))
    ensures forall x :: x in LoudWindows(p, probs, window) ==>
              InSome(padded, x) || InSome(dropped, x) || x in cuts || InShort(merged, MinSpeech(p), x)
  {
    var found;
    found, dropped, cuts := Detect(p, probs, window);
    raw := found;
    merged := Merge(found, |probs| * window);
    var kept := Filter(merged, MinSpeech(p));
    FilterMembers(merged, MinSpeech(p));
    FilterInOrder(merged, MinSpeech(p), |probs| * window);
    padded, cs := PadAll(kept, Pad(p), |probs| * window);
    RoundedInOrder(padded, cs, |probs| * window);
    NoneTooLong(raw, kept, padded, MaxSpeech(p, window) + window, Pad(p));
    forall x | InSome(merged, x) ensures InSome(padded, x) || InShort(merged, MinSpeech(p), x) {
      KeptOrShort(merged, kept, padded, MinSpeech(p), Pad(p), x);
    }
  }

  /** Those of kept that are raw segments are at most that long once they are padded. */
  predicate PaddedLimited(raw: Speeches, kept: Speeches, padded: Speeches, most: int) {
    |kept| == |padded| && forall k :: 0 <= k < |kept| && kept[k] in raw ==> padded[k].end - padded[k].start <= most
  }

  lemma NoneTooLong(raw: Speeches, kept: Speeches, padded: Speeches, most: int, pad: nat)
    requires Limited(raw, most) && Grown(kept, padded, pad)
    ensures PaddedLimited(raw, kept, padded, most + 2 * pad)
  {
    forall k | 0 <= k < |kept| && kept[k] in raw ensures padded[k].end - padded[k].start <= most + 2 * pad {
      var i :| 0 <= i < |raw| && raw[i] == kept[k];
      assert raw[i].end - raw[i].start <= most;
    }
  }

  /** x is in a segment that is too short. */
  predicate InShort(ss: Speeches, least: int, x: int) {
    exists i :: 0 <= i < |ss| && ss[i].start <= x < ss[i].end && ss[i].end - ss[i].start < least
  }

  lemma KeptOrShort(ss: Speeches, kept: Speeches, padded: Speeches, least: int, pad: nat, x: int)
    requires InSome(ss, x) && Grown(kept, padded, pad)
    requires forall s :: s in kept <==> s in ss && s.end - s.start >= least
    ensures InSome(padded, x) || InShort(ss, least, x)
  {
    var i :| 0 <= i < |ss| && ss[i].start <= x < ss[i].end;
    if ss[i].end - ss[i].start >= least {
      assert ss[i] in kept;
      var k :| 0 <= k < |kept| && kept[k] == ss[i];
      assert padded[k].start <= x < padded[k].end;
    }
  }
}
