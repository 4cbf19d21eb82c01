/** The table that takes times in the audio with silence removed back to times in the original one.
    Times are centiseconds. */
module TimeMap {
  import opened Vad
  import opened VadMachine

  datatype Mapping = Mapping(processed: int, original: int)

  type Mappings = seq<Mapping>

  const SILENCE := SAMPLE_RATE / 10
  const LONG := 100
  const INTERVAL := 20

  function Samples(cs: int): int {
    cs * (SAMPLE_RATE / 100)
  }

  function Min(a: int, b: int): int {
    if a < b then a else b
  }

  // ----- building the table

  /** A later processed time is never an earlier original one. */
  predicate Agree(a: Mapping, b: Mapping) {
    a.processed < b.processed ==> a.original <= b.original
  }

  ghost predicate Consistent(t: Mappings) {
    forall i, j :: 0 <= i < |t| && 0 <= j < |t| ==> Agree(t[i], t[j])
  }

  /** All entries lie at or before a corner, and no original time before first. */
  predicate Before(t: Mappings, first: int, corner: Mapping) {
    forall i :: 0 <= i < |t| ==> t[i].processed <= corner.processed && first <= t[i].original <= corner.original
  }

  /** All entries lie at or after a corner. */
  predicate After(t: Mappings, corner: Mapping) {
    forall i :: 0 <= i < |t| ==> corner.processed <= t[i].processed && corner.original <= t[i].original
  }

  lemma Joined(a: Mappings, b: Mappings, first: int, corner: Mapping, next: Mapping)
    requires Consistent(a) && Consistent(b) && Before(a, first, corner) && After(b, corner)
    requires Before(b, first, next) && corner.processed <= next.processed && corner.original <= next.original
    ensures Consistent(a + b) && Before(a + b, first, next)
  {
  }

  /** A part of the audio that is kept, in processed and in original time. */
  datatype Kept = Kept(vadStart: int, vadEnd: int, origStart: int, origEnd: int)

  /** Linear between start and end, rounded down. */
  function Inside(k: Kept, time: int): int
    requires k.vadStart < k.vadEnd
  {
    k.origStart + (time - k.vadStart) * (k.origEnd - k.origStart) / (k.vadEnd - k.vadStart)
  }

  lemma DivideInOrder(a: int, b: int, n: int)
    requires a <= b && n > 0
    ensures a / n <= b / n
  {
    var d := a / n - b / n;
    assert a == n * (a / n) + a % n && b == n * (b / n) + b % n;
    assert n * d == a - b - a % n + b % n;
    if d > 0 {
      NotSmall(n, d);
    }
  }

  lemma ProductInOrder(a: int, b: int, d: int)
    requires a <= b && d >= 0
    ensures a * d <= b * d
  {
  }

  lemma DivideProduct(n: int, d: int)
    requires n > 0
    ensures n * d / n == d
  {
    var e := n * d / n - d;
    assert n * d == n * (n * d / n) + n * d % n;
    assert n * e == -(n * d % n);
    if e != 0 {
      NotSmall(n, e);
    }
  }

  lemma NotSmall(n: int, e: int)
    requires n > 0 && e != 0
    ensures n * e >= n || n * e <= -n
  {
  }

  lemma InsideInOrder(k: Kept, a: int, b: int)
    requires k.vadStart < k.vadEnd && k.origStart <= k.origEnd && a <= b
    ensures Inside(k, a) <= Inside(k, b)
    ensures Inside(k, k.vadStart) == k.origStart && Inside(k, k.vadEnd) == k.origEnd
  {
    var d, n := k.origEnd - k.origStart, k.vadEnd - k.vadStart;
    ProductInOrder(a - k.vadStart, b - k.vadStart, d);
    DivideInOrder((a - k.vadStart) * d, (b - k.vadStart) * d, n);
    DivideProduct(n, d);
    assert (k.vadStart - k.vadStart) * d == 0;
  }

  /** Every entry is on the line from start to end. */
  predicate OnLine(k: Kept, t: Mappings) {
    && k.vadStart < k.vadEnd
    && forall i :: 0 <= i < |t| ==> k.vadStart <= t[i].processed <= k.vadEnd && t[i].original == Inside(k, t[i].processed)
  }

  predicate ValidKept(k: Kept) {
    k.vadStart <= k.vadEnd && k.origStart <= k.origEnd
  }

  lemma OnLineIsConsistent(k: Kept, t: Mappings)
    requires ValidKept(k) && OnLine(k, t)
    ensures Consistent(t) && After(t, Mapping(k.vadStart, k.origStart)) && Before(t, k.origStart, Mapping(k.vadEnd, k.origEnd))
  {
    forall i, j | 0 <= i < |t| && 0 <= j < |t| ensures Agree(t[i], t[j]) {
      if t[i].processed < t[j].processed {
        InsideInOrder(k, t[i].processed, t[j].processed);
      }
    }
    forall i | 0 <= i < |t| ensures k.origStart <= t[i].original <= k.origEnd {
      InsideInOrder(k, k.vadStart, t[i].processed);
      InsideInOrder(k, t[i].processed, k.vadEnd);
    }
  }

  /** The points of a kept part: its ends, and more in between when it is long. */
  method Points(k: Kept) returns (t: Mappings)
    requires ValidKept(k)
    ensures Consistent(t) && After(t, Mapping(k.vadStart, k.origStart)) && Before(t, k.origStart, Mapping(k.vadEnd, k.origEnd))
    ensures Mapping(k.vadStart, k.origStart) in t && Mapping(k.vadEnd, k.origEnd) in t
    ensures k.vadEnd - k.vadStart > LONG ==> Dense(k, t)
  {
    t := [Mapping(k.vadStart, k.origStart), Mapping(k.vadEnd, k.origEnd)];
    if k.vadEnd - k.vadStart > LONG {
      InsideInOrder(k, k.vadStart, k.vadEnd);
      var points := (k.vadEnd - k.vadStart) / INTERVAL - 1;
      for j := 1 to points + 1
        invariant OnLine(k, t) && |t| >= 2 && t[0] == Mapping(k.vadStart, k.origStart) && t[1] == Mapping(k.vadEnd, k.origEnd)
        invariant forall i :: 1 <= i < j ==> PointAt(k, t, k.vadStart + i * INTERVAL)
      {
        var time := k.vadStart + j * INTERVAL;
        ghost var before := t;
        if time < k.vadEnd {
          t := t + [Mapping(time, k.origStart + (time - k.vadStart) * (k.origEnd - k.origStart) / (k.vadEnd - k.vadStart))];
          assert t[|before|] == Mapping(time, Inside(k, time));
        }
        forall i | 1 <= i < j ensures PointAt(k, t, k.vadStart + i * INTERVAL) {
          assert PointAt(k, before, k.vadStart + i * INTERVAL);
        }
      }
      OnLineIsConsistent(k, t);
    }
  }

  /** The table has the point of the line at this time. */
  predicate PointAt(k: Kept, t: Mappings, time: int)
    requires k.vadStart < k.vadEnd
  {
    Mapping(time, Inside(k, time)) in t
  }

  /** There is a point every INTERVAL, up to the last one or two. */
  predicate Dense(k: Kept, t: Mappings)
    requires k.vadStart < k.vadEnd
  {
    forall i :: 1 <= i <= (k.vadEnd - k.vadStart) / INTERVAL - 1 ==> PointAt(k, t, k.vadStart + i * INTERVAL)
  }

  /** How many samples of segment i are kept. */
  function KeptLength(segments: Speeches, samples: int, overlap: nat, i: nat): int
    requires i < |segments|
  {
    var end := Samples(segments[i].end) + if i < |segments| - 1 then overlap else 0;
    Min(end, samples - 1) - Min(Samples(segments[i].start), samples - 1)
  }

  /** Where segment i begins in the processed audio. */
  function OffsetOf(segments: Speeches, samples: int, overlap: nat, i: nat): (r: nat)
    requires i <= |segments|
  {
    if i == 0 then 0
    else
      var length := KeptLength(segments, samples, overlap, i - 1);
      OffsetOf(segments, samples, overlap, i - 1) + if length <= 0 then 0 else if i < |segments| then length + SILENCE else length
  }

  /** What is kept of a segment are its samples, those of the overlap with it unless it is the last, as far
      as there are any before the last sample of the audio. */
  lemma KeptExactly(segments: Speeches, samples: int, overlap: nat, i: nat, x: int)
    requires i < |segments| && segments[i].start <= segments[i].end
    ensures var from, length := Samples(segments[i].start), KeptLength(segments, samples, overlap, i);
            from <= x < from + length <==>
              from <= x < samples - 1 && (x < Samples(segments[i].end) || (i + 1 < |segments| && x < Samples(segments[i].end) + overlap))
  {
  }

  lemma {:induction false} NothingKept(segments: Speeches, samples: int, overlap: nat, i: nat, j: nat)
    requires i <= j <= |segments| && forall k :: i <= k < j ==> KeptLength(segments, samples, overlap, k) <= 0
    ensures OffsetOf(segments, samples, overlap, j) == OffsetOf(segments, samples, overlap, i)
    decreases j
  {
    if i < j {
      NothingKept(segments, samples, overlap, i, j - 1);
    }
  }

  predicate NoneKept(segments: Speeches, samples: int, overlap: nat, i: nat, j: nat)
    requires j <= |segments|
  {
    forall k :: i <= k < j ==> KeptLength(segments, samples, overlap, k) <= 0
  }

  /** In the processed audio the first segment of which something is kept begins at 0. */
  lemma FirstKept(segments: Speeches, samples: int, overlap: nat, i: nat)
    requires i <= |segments| && NoneKept(segments, samples, overlap, 0, i)
    ensures OffsetOf(segments, samples, overlap, i) == 0
  {
    NothingKept(segments, samples, overlap, 0, i);
  }

  /** The next one after segment i begins behind it and a silence, but there is none behind the last of all. */
  lemma NextKept(segments: Speeches, samples: int, overlap: nat, i: nat, j: nat)
    requires i < j <= |segments| && NoneKept(segments, samples, overlap, i + 1, j) && KeptLength(segments, samples, overlap, i) > 0
    ensures OffsetOf(segments, samples, overlap, j)
         == OffsetOf(segments, samples, overlap, i) + KeptLength(segments, samples, overlap, i) + if i + 1 < |segments| then SILENCE else 0
  {
    NothingKept(segments, samples, overlap, i + 1, j);
    assert OffsetOf(segments, samples, overlap, i + 1)
        == OffsetOf(segments, samples, overlap, i) + KeptLength(segments, samples, overlap, i) + if i + 1 < |segments| then SILENCE else 0;
  }

  /** Both ends of segment i are in the table, if any of it is kept. */
  predicate Charted(table: Mappings, segments: Speeches, samples: int, overlap: nat, i: nat)
    requires i < |segments|
  {
    var offset, length := OffsetOf(segments, samples, overlap, i), KeptLength(segments, samples, overlap, i);
    length > 0 ==>
      && Mapping(Centiseconds(offset), segments[i].start) in table
      && Mapping(Centiseconds(offset + length), segments[i].end) in table
  }

  predicate ChartedTo(table: Mappings, segments: Speeches, samples: int, overlap: nat, n: nat)
    requires n <= |segments|
  {
    forall i :: 0 <= i < n ==> Charted(table, segments, samples, overlap, i)
  }

  lemma OneMoreCharted(before: Mappings, table: Mappings, segments: Speeches, samples: int, overlap: nat, i: nat)
    requires i < |segments| && before <= table
    requires ChartedTo(before, segments, samples, overlap, i) && Charted(table, segments, samples, overlap, i)
    ensures ChartedTo(table, segments, samples, overlap, i + 1)
  {
    forall k | 0 <= k < i ensures Charted(table, segments, samples, overlap, k) {
      assert Charted(before, segments, samples, overlap, k);
      forall m | m in before ensures m in table {
        var at :| 0 <= at < |before| && before[at] == m;
        assert table[at] == m;
      }
    }
  }

  method SegmentLength(segments: Speeches, samples: int, overlap: nat, i: nat) returns (length: int)
    requires i < |segments|
    ensures length == KeptLength(segments, samples, overlap, i)
  {
    var from, end := Samples(segments[i].start), Samples(segments[i].end);
    if i < |segments| - 1 {
      end := end + overlap;
    }
    length := Min(end, samples - 1) - Min(from, samples - 1);
  }

  lemma StillChart(segments: Speeches, table: Mappings, offset: int, corner: Mapping, i: nat)
    requires i < |segments| && InOrderCs(segments, segments[|segments| - 1].end) && Chart(segments, table, offset, corner, i)
    ensures Chart(segments, table, offset, corner, i + 1)
  {
    assert i + 1 < |segments| ==> segments[i].start <= segments[i].end <= segments[i + 1].start;
  }

  /** Segments in centiseconds, as the segmenter leaves them; samples is the length of the audio. */
  method BuildTable(segments: Speeches, samples: int, overlap: nat) returns (table: Mappings, offset: int)
    requires segments != [] && InOrderCs(segments, segments[|segments| - 1].end) && samples > 0
    ensures Consistent(table)
    ensures Before(table, segments[0].start, Mapping(Centiseconds(offset), segments[|segments| - 1].end))
    ensures After(table, Mapping(0, segments[0].start))
    ensures offset == OffsetOf(segments, samples, overlap, |segments|)
    ensures ChartedTo(table, segments, samples, overlap, |segments|)
  {
    table, offset := [], 0;
    ghost var corner := Mapping(0, segments[0].start);
    for i := 0 to |segments|
      invariant Chart(segments, table, offset, corner, i) && offset == OffsetOf(segments, samples, overlap, i)
      invariant ChartedTo(table, segments, samples, overlap, i)
    {
      ghost var before := table;
      var length := SegmentLength(segments, samples, overlap, i);
      if length > 0 {
        table, offset, corner := ChartSegment(segments, i, table, offset, length, corner);
      } else {
        StillChart(segments, table, offset, corner, i);
      }
      OneMoreCharted(before, table, segments, samples, overlap, i);
    }
    Later(table, segments[0].start, corner, Mapping(Centiseconds(offset), segments[|segments| - 1].end));
  }

  /** The table before segment i. */
  predicate Chart(segments: Speeches, table: Mappings, offset: int, corner: Mapping, i: nat)
    requires segments != [] && i <= |segments|
  {
    && (forall k, l :: 0 <= k < |table| && 0 <= l < |table| ==> Agree(table[k], table[l]))
    && Before(table, segments[0].start, corner) && After(table, Mapping(0, segments[0].start))
    && offset >= 0 && 0 <= corner.processed <= Centiseconds(offset) && segments[0].start <= corner.original
    && corner.original <= if i < |segments| then segments[i].start else segments[|segments| - 1].end
  }

  method ChartSegment(segments: Speeches, i: nat, table: Mappings, offset: int, length: int, ghost corner: Mapping)
    returns (out: Mappings, next: int, ghost now: Mapping)
    requires i < |segments| && InOrderCs(segments, segments[|segments| - 1].end)
    requires Chart(segments, table, offset, corner, i) && length > 0
    ensures Chart(segments, out, next, now, i + 1)
    ensures next == offset + length + if i < |segments| - 1 then SILENCE else 0
    ensures table <= out && Mapping(Centiseconds(offset), segments[i].start) in out
    ensures Mapping(Centiseconds(offset + length), segments[i].end) in out
  {
    var following := if i < |segments| - 1 then segments[i + 1].start else segments[i].end;
    out, now := AddSegment(table, segments[i], segments[0].start, corner, offset, length, i < |segments| - 1, following);
    next := offset + length;
    if i < |segments| - 1 {
      next := next + SILENCE;
    }
    CentisecondsInOrder(0, next);
  }

  lemma Later(t: Mappings, first: int, a: Mapping, b: Mapping)
    requires Before(t, first, a) && a.processed <= b.processed && a.original <= b.original
    ensures Before(t, first, b)
  {
  }

  /** The entries for one kept segment, and for the silence behind it. */
  method AddSegment(table: Mappings, s: Speech, ghost first: int, ghost corner: Mapping, offset: int, length: int,
                    silence: bool, next: int)
    returns (out: Mappings, ghost now: Mapping)
    requires Consistent(table) && Before(table, first, corner) && After(table, Mapping(0, first))
    requires offset >= 0 && length > 0 && 0 <= corner.processed <= Centiseconds(offset)
    requires first <= corner.original <= s.start <= s.end <= next
    ensures Consistent(out) && Before(out, first, now) && After(out, Mapping(0, first))
    ensures table <= out && Mapping(Centiseconds(offset), s.start) in out && Mapping(Centiseconds(offset + length), s.end) in out
    ensures now == if silence then Mapping(Centiseconds(offset + length + SILENCE), next) else Mapping(Centiseconds(offset + length), s.end)
  {
    CentisecondsInOrder(0, offset);
    CentisecondsInOrder(offset, offset + length);
    CentisecondsInOrder(offset + length, offset + length + SILENCE);
    var k := Kept(Centiseconds(offset), Centiseconds(offset + length), s.start, s.end);
    var points := Points(k);
    ghost var end := Mapping(k.vadEnd, k.origEnd);
    Joined(table, points, first, corner, end);
    out, now := table + points, end;
    if silence {
      var gap := [Mapping(Centiseconds(offset + length), s.end), Mapping(Centiseconds(offset + length + SILENCE), next)];
      now := Mapping(Centiseconds(offset + length + SILENCE), next);
      Joined(out, gap, first, end, now);
      out := out + gap;
    }
  }

  // ----- sorting out

  predicate SortedByTime(t: Mappings) {
    forall i, j :: 0 <= i < j < |t| ==> t[i].processed <= t[j].processed
  }

  /** What a lookup relies on. */
  predicate Lookup(t: Mappings) {
    && (forall i, j :: 0 <= i < j < |t| ==> t[i].processed < t[j].processed)
    && (forall i, j :: 0 <= i < j < |t| ==> t[i].original <= t[j].original)
  }

  /** t has one entry for every time among the first n. */
  predicate UniqueTo(sorted: Mappings, t: Mappings, n: nat)
    requires n <= |sorted|
  {
    && (forall k :: 0 <= k < |t| ==> t[k] in sorted)
    && (forall k, l :: 0 <= k < l < |t| ==> t[k].processed < t[l].processed)
    && (forall k :: 0 <= k < n ==> HasTime(t, sorted[k].processed))
    && if n == 0 then t == [] else t != [] && t[0] == sorted[0] && t[|t| - 1].processed == sorted[n - 1].processed
  }

  /** Of entries with the same time only the first one stays, whichever sorting put first. */
  method Unique(sorted: Mappings) returns (t: Mappings)
    requires SortedByTime(sorted)
    ensures UniqueTo(sorted, t, |sorted|)
  {
    t := [];
    for i := 0 to |sorted|
      invariant UniqueTo(sorted, t, i)
    {
      if t == [] || t[|t| - 1].processed != sorted[i].processed {
        NewTimeAdded(sorted, t, i);
        t := t + [sorted[i]];
      } else {
        SameTimeSkipped(sorted, t, i);
      }
    }
  }

  lemma SameTimeSkipped(sorted: Mappings, t: Mappings, i: nat)
    requires i < |sorted| && UniqueTo(sorted, t, i) && t != [] && t[|t| - 1].processed == sorted[i].processed
    ensures UniqueTo(sorted, t, i + 1)
  {
    assert HasTime(t, sorted[i].processed);
  }

  lemma NewTimeAdded(sorted: Mappings, t: Mappings, i: nat)
    requires SortedByTime(sorted) && i < |sorted| && UniqueTo(sorted, t, i)
    requires t == [] || t[|t| - 1].processed != sorted[i].processed
    ensures UniqueTo(sorted, t + [sorted[i]], i + 1)
  {
    var now := t + [sorted[i]];
    forall k | 0 <= k < i + 1 ensures HasTime(now, sorted[k].processed) {
      if k < i {
        TimeStays(t, now, sorted[k].processed);
      } else {
        assert now[|t|].processed == sorted[k].processed;
      }
    }
    LastIsBelow(sorted, t, i);
    AddedInOrder(sorted, t, sorted[i]);
  }

  lemma AddedInOrder(sorted: Mappings, t: Mappings, m: Mapping)
    requires m in sorted && forall k :: 0 <= k < |t| ==> t[k] in sorted && t[k].processed < m.processed
    requires forall k, l :: 0 <= k < l < |t| ==> t[k].processed < t[l].processed
    ensures forall k :: 0 <= k < |t| + 1 ==> (t + [m])[k] in sorted
    ensures forall k, l :: 0 <= k < l < |t| + 1 ==> (t + [m])[k].processed < (t + [m])[l].processed
  {
  }

  lemma LastIsBelow(sorted: Mappings, t: Mappings, i: nat)
    requires SortedByTime(sorted) && i < |sorted| && UniqueTo(sorted, t, i)
    requires t == [] || t[|t| - 1].processed != sorted[i].processed
    ensures forall k :: 0 <= k < |t| ==> t[k].processed < sorted[i].processed
  {
    if i > 0 {
      assert sorted[i - 1].processed <= sorted[i].processed;
    }
  }

  lemma TimeStays(t: Mappings, now: Mappings, time: int)
    requires t <= now && HasTime(t, time)
    ensures HasTime(now, time)
  {
    var j :| 0 <= j < |t| && t[j].processed == time;
    assert now[j] == t[j];
  }

  predicate HasTime(t: Mappings, time: int) {
    exists i :: 0 <= i < |t| && t[i].processed == time
  }

  /** The table is ready for lookups, in whatever order equal times have been sorted. */
  lemma TableIsLookup(table: Mappings, sorted: Mappings, t: Mappings)
    requires Consistent(table) && multiset(sorted) == multiset(table)
    requires (forall i :: 0 <= i < |t| ==> t[i] in sorted) && forall i, j :: 0 <= i < j < |t| ==> t[i].processed < t[j].processed
    ensures Lookup(t)
  {
    forall i, j | 0 <= i < j < |t| ensures t[i].original <= t[j].original {
      assert t[i] in multiset(sorted) && t[j] in multiset(sorted);
      var a :| 0 <= a < |table| && table[a] == t[i];
      var b :| 0 <= b < |table| && table[b] == t[j];
      assert Agree(table[a], table[b]);
    }
  }

  // ----- lookup

  /** The first entry at or after time. */
  function LowerBound(t: Mappings, time: int): (i: nat)
    ensures i <= |t|
    ensures forall k :: 0 <= k < i ==> t[k].processed < time
    ensures i < |t| ==> t[i].processed >= time
  {
    if t == [] || t[0].processed >= time then 0 else 1 + LowerBound(t[1..], time)
  }

  /** Original time; between entries linear, rounded down. */
  function Original(t: Mappings, time: int): int {
    if t == [] then time
    else if time <= t[0].processed then t[0].original
    else if time >= t[|t| - 1].processed then t[|t| - 1].original
    else
      var upper := LowerBound(t, time);
      if t[upper].processed == time then t[upper].original
      else
        var n := t[upper].processed - t[upper - 1].processed;
        if n == 0 then t[upper - 1].original
        else t[upper - 1].original + (time - t[upper - 1].processed) * (t[upper].original - t[upper - 1].original) / n
  }

  /** Between entries i and i + 1, ends included, a lookup is on the line between them. */
  lemma Bracket(t: Mappings, i: nat, time: int)
    requires Lookup(t) && i + 1 < |t| && t[i].processed <= time <= t[i + 1].processed
    ensures var k := Kept(t[i].processed, t[i + 1].processed, t[i].original, t[i + 1].original);
            k.vadStart < k.vadEnd && Original(t, time) == Inside(k, time)
    ensures t[i].original <= Original(t, time) <= t[i + 1].original
  {
    var k := Kept(t[i].processed, t[i + 1].processed, t[i].original, t[i + 1].original);
    InsideInOrder(k, k.vadStart, time);
    InsideInOrder(k, time, k.vadEnd);
    var upper := LowerBound(t, time);
    if time == t[i].processed {
      assert upper == i;
    } else {
      assert upper == i + 1;
    }
  }

  lemma FindBracket(t: Mappings, time: int) returns (i: nat)
    requires Lookup(t) && t != [] && t[0].processed < time < t[|t| - 1].processed
    ensures i + 1 < |t| && t[i].processed < time <= t[i + 1].processed
  {
    i := LowerBound(t, time) - 1;
  }

  /** Table points are exact. */
  lemma ExactAtPoints(t: Mappings, i: nat)
    requires Lookup(t) && i < |t|
    ensures Original(t, t[i].processed) == t[i].original
  {
    if 0 < i < |t| - 1 {
      assert LowerBound(t, t[i].processed) == i;
    }
  }

  /** Lookups stay between the first and the last original time. */
  lemma StaysInRange(t: Mappings, time: int)
    requires Lookup(t) && t != []
    ensures t[0].original <= Original(t, time) <= t[|t| - 1].original
  {
    assert t[0].original <= t[|t| - 1].original;
    if t[0].processed < time < t[|t| - 1].processed {
      var i := FindBracket(t, time);
      Bracket(t, i, time);
      assert t[0].original <= t[i].original && t[i + 1].original <= t[|t| - 1].original;
    }
  }

  /** Time never runs backwards. */
  lemma Monotone(t: Mappings, a: int, b: int)
    requires Lookup(t) && a <= b
    ensures Original(t, a) <= Original(t, b)
  {
    if t != [] {
      StaysInRange(t, a);
      StaysInRange(t, b);
      if t[0].processed < a && b < t[|t| - 1].processed {
        var i := FindBracket(t, a);
        var j := FindBracket(t, b);
        Bracket(t, i, a);
        Bracket(t, j, b);
        if i == j {
          InsideInOrder(Kept(t[i].processed, t[i + 1].processed, t[i].original, t[i + 1].original), a, b);
        } else {
          assert i < j;
          assert t[i + 1].original <= t[j].original;
        }
      }
    }
  }

  /** So does every lookup in a table made from segments: inside the first start and the last end. */
  lemma InsideTheAudio(table: Mappings, sorted: Mappings, t: Mappings, first: int, corner: Mapping, time: int)
    requires Before(table, first, corner) && multiset(sorted) == multiset(table) && Lookup(t) && t != []
    requires forall i :: 0 <= i < |t| ==> t[i] in sorted
    ensures first <= Original(t, time) <= corner.original
  {
    StaysInRange(t, time);
    assert t[0] in multiset(sorted) && t[|t| - 1] in multiset(sorted);
    var a :| 0 <= a < |table| && table[a] == t[0];
    var b :| 0 <= b < |table| && table[b] == t[|t| - 1];
  }
}
