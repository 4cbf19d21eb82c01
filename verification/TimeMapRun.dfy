/** From speech probabilities to times in the original audio: segments, table, sorting and lookups
    together. */
module TimeMapRun {
  import opened Vad
  import opened VadMachine
  import opened TimeMap

  /** Sorts by processed time; entries with equal times may come in any order. */
  ghost predicate Sorts(sort: Mappings -> Mappings) {
    forall t: Mappings :: SortedByTime(sort(t)) && multiset(sort(t)) == multiset(t)
  }

  /** The ends of every kept segment are times of the table. */
  ghost predicate EndsKnown(t: Mappings, segments: Speeches, samples: int, overlap: nat) {
    forall i :: 0 <= i < |segments| && KeptLength(segments, samples, overlap, i) > 0 ==>
      && HasTime(t, Centiseconds(OffsetOf(segments, samples, overlap, i)))
      && HasTime(t, Centiseconds(OffsetOf(segments, samples, overlap, i) + KeptLength(segments, samples, overlap, i)))
  }

  lemma InSorted(table: Mappings, sorted: Mappings, t: Mappings, m: Mapping)
    requires multiset(sorted) == multiset(table) && UniqueTo(sorted, t, |sorted|) && m in table
    ensures HasTime(t, m.processed)
  {
    assert m in multiset(table);
    assert m in sorted;
  }

  lemma ChartedEndsKnown(table: Mappings, sorted: Mappings, t: Mappings, segments: Speeches, samples: int, overlap: nat)
    requires multiset(sorted) == multiset(table) && UniqueTo(sorted, t, |sorted|)
    requires ChartedTo(table, segments, samples, overlap, |segments|)
    ensures EndsKnown(t, segments, samples, overlap)
  {
    forall i | 0 <= i < |segments| && KeptLength(segments, samples, overlap, i) > 0
      ensures HasTime(t, Centiseconds(OffsetOf(segments, samples, overlap, i)))
      ensures HasTime(t, Centiseconds(OffsetOf(segments, samples, overlap, i) + KeptLength(segments, samples, overlap, i)))
    {
      assert Charted(table, segments, samples, overlap, i);
      var offset, length := OffsetOf(segments, samples, overlap, i), KeptLength(segments, samples, overlap, i);
      InSorted(table, sorted, t, Mapping(Centiseconds(offset), segments[i].start));
      InSorted(table, sorted, t, Mapping(Centiseconds(offset + length), segments[i].end));
    }
  }

  /** Lookups never run backwards, and stay between the first start and the last end. */
  ghost predicate Faithful(t: Mappings, segments: Speeches) {
    && (forall a, b :: a <= b ==> Original(t, a) <= Original(t, b))
    && (t != [] ==> segments != [] && forall time :: segments[0].start <= Original(t, time) <= segments[|segments| - 1].end)
  }

  /** Sorts the table of some segments and takes equal times out. */
  method Sorted(segments: Speeches, samples: int, overlap: nat, table: Mappings, offset: int, sort: Mappings -> Mappings)
    returns (t: Mappings)
    requires segments != [] && Sorts(sort) && Consistent(table) && ChartedTo(table, segments, samples, overlap, |segments|)
    requires Before(table, segments[0].start, Mapping(Centiseconds(offset), segments[|segments| - 1].end))
    ensures Lookup(t) && Faithful(t, segments) && EndsKnown(t, segments, samples, overlap)
  {
    var sorted := sort(table);
    t := Unique(sorted);
    TableIsLookup(table, sorted, t);
    ChartedEndsKnown(table, sorted, t, segments, samples, overlap);
    forall a, b | a <= b ensures Original(t, a) <= Original(t, b) {
      Monotone(t, a, b);
    }
    if t != [] {
      forall time ensures segments[0].start <= Original(t, time) <= segments[|segments| - 1].end {
        InsideTheAudio(table, sorted, t, segments[0].start, Mapping(Centiseconds(offset), segments[|segments| - 1].end), time);
      }
    }
  }

  /** All of it: whatever the probabilities and however equal times are sorted, times in the audio with
      silence removed are taken back to original times in order, inside the audio, and the ends of kept
      segments are times of the table, where lookups are exact. */
  method MapTimes(p: Params, probs: seq<real>, window: nat, samples: int, overlap: nat, sort: Mappings -> Mappings)
    returns (segments: Speeches, t: Mappings)
    requires window > 0 && p.threshold >= 0.01 && samples > 0 && Sorts(sort)
    ensures InOrderCs(segments, Centiseconds(|probs| * window))
    ensures Lookup(t) && Faithful(t, segments) && EndsKnown(t, segments, samples, overlap)
    ensures t != [] ==> forall time :: 0 <= Original(t, time) <= Centiseconds(|probs| * window)
  {
    var padded, merged;
    ghost var raw, dropped, cuts;
    segments, padded, merged, raw, dropped, cuts := Segments(p, probs, window);
    t := [];
    if segments != [] {
      var table, offset := BuildTable(segments, samples, overlap);
      t := Sorted(segments, samples, overlap, table, offset, sort);
    }
  }
}
