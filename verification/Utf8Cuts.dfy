/** Exactly which texts the decoder reads alike however they are cut into pieces. The bytes after the
    first one of a sequence are only looked at when they come in a later piece. */
module Utf8Cuts {
  import opened Utf8

  const REFUSED := Fed([], Partial(0, -1))

  function Whole(bytes: seq<byte>, start: Partial): Fed {
    var d := DecodeFrom(bytes, start);
    Fed(d.codePoints[..|d.codePoints| - 1], d.partial)
  }

  /** Whatever the pieces, they give r. */
  ghost predicate AllCutsGive(bytes: seq<byte>, start: Partial, r: Fed) {
    forall pieces: seq<seq<byte>> :: Joined(pieces) == bytes ==> DecodePieces(pieces, start) == r
  }

  ghost predicate CutsDoNotShow(bytes: seq<byte>, start: Partial) {
    AllCutsGive(bytes, start, Whole(bytes, start))
  }

  predicate AllContinue(bytes: seq<byte>) {
    forall i :: 0 <= i < |bytes| ==> IsContinuation(bytes[i])
  }

  /** The open sequence is broken off, and only continuation bytes come after that. */
  predicate BrokenOff(bytes: seq<byte>, remain: int) {
    exists k :: 0 <= k < |bytes| && BreaksAt(bytes, remain, k)
  }

  predicate BreaksAt(bytes: seq<byte>, remain: int, k: nat)
    requires k < |bytes|
  {
    k < remain && AllContinue(bytes[..k]) && !IsContinuation(bytes[k]) && AllContinue(bytes[k + 1..])
  }

  /** The state in which a text is read: an invalid one before it leaves no trace. */
  function Opened(start: Partial): Partial {
    if start.remain < 0 then FRESH else start
  }

  /** The texts that read alike however cut: clean ones, those that are refused whole and in all parts. */
  predicate Cuttable(bytes: seq<byte>, start: Partial) {
    || Clean(bytes, Opened(start))
    || (start.remain <= 0 && AllContinue(bytes))
    || BrokenOff(bytes, start.remain)
  }

  // ----- pieces

  lemma TwoPieces(a: seq<byte>, b: seq<byte>, start: Partial)
    ensures Joined([a, b]) == a + b
    ensures var first := Whole(a, start); var second := Whole(b, first.partial);
            DecodePieces([a, b], start) == Fed(first.points + second.points, second.partial)
  {
    assert [a, b][1..] == [b] && [b][1..] == [];
    OnePiece(b, Whole(a, start).partial);
  }

  lemma OnePiece(a: seq<byte>, start: Partial)
    ensures Joined([a]) == a && DecodePieces([a], start) == Whole(a, start)
  {
    assert [a][1..] == [];
  }

  /** What all cuts give, the whole gives. */
  lemma WholeIsACut(bytes: seq<byte>, start: Partial, r: Fed)
    requires AllCutsGive(bytes, start, r)
    ensures Whole(bytes, start) == r
  {
    OnePiece(bytes, start);
    assert Joined([bytes]) == bytes;
  }

  /** When all cuts give nothing, neither does a first piece, and the rest is read alike however cut. */
  lemma CutOff(a: seq<byte>, b: seq<byte>, start: Partial)
    requires AllCutsGive(a + b, start, REFUSED)
    ensures Whole(a, start).points == [] && AllCutsGive(b, Whole(a, start).partial, REFUSED)
  {
    TwoPieces(a, b, start);
    assert Joined([a, b]) == a + b;
    var state := Whole(a, start).partial;
    forall pieces: seq<seq<byte>> | Joined(pieces) == b ensures DecodePieces(pieces, state) == REFUSED {
      var more := [a] + pieces;
      assert more[1..] == pieces;
      assert Joined(more) == a + b;
    }
  }

  // ----- texts that are cut without harm

  /** Continuation bytes with no sequence open are refused, however cut. */
  lemma {:induction false} ContinuationsRefused(pieces: seq<seq<byte>>, start: Partial)
    requires start.remain <= 0 && AllContinue(Joined(pieces))
    ensures DecodePieces(pieces, start) == if Joined(pieces) == [] then Fed([], start) else REFUSED
    decreases |pieces|
  {
    if pieces != [] {
      var first, rest := pieces[0], Joined(pieces[1..]);
      assert forall i :: 0 <= i < |first| ==> first[i] == Joined(pieces)[i];
      assert forall i :: 0 <= i < |rest| ==> rest[i] == Joined(pieces)[|first| + i];
      if first != [] {
        assert SequenceLength(first[0]) == 0;
      }
      ContinuationsRefused(pieces[1..], DecodeFrom(first, start).partial);
    }
  }

  /** Nothing but continuation bytes of the open sequence: it is carried on. */
  lemma {:induction false} StillOpen(bytes: seq<byte>, value: nat, remain: nat)
    requires AllContinue(bytes) && |bytes| <= remain
    ensures var c := CarryOn(bytes, value, remain); c.Carried? && c.rest == [] && c.remain == remain - |bytes|
    decreases |bytes|
  {
    if bytes != [] {
      StillOpen(bytes[1..], Shifted(value, bytes[0]), remain - 1);
    }
  }

  lemma {:induction false} BreaksInPiece(bytes: seq<byte>, value: nat, remain: nat, k: nat)
    requires k < |bytes| && k < remain && AllContinue(bytes[..k]) && !IsContinuation(bytes[k])
    ensures CarryOn(bytes, value, remain) == Broken
    decreases k
  {
    if k > 0 {
      assert bytes[..k][0] == bytes[0];
      assert bytes[1..][..k - 1] == bytes[..k][1..];
      BreaksInPiece(bytes[1..], Shifted(value, bytes[0]), remain - 1, k - 1);
    }
  }

  lemma {:induction false} BrokenIsRefused(pieces: seq<seq<byte>>, start: Partial, k: nat)
    requires k < |Joined(pieces)| && BreaksAt(Joined(pieces), start.remain, k)
    ensures DecodePieces(pieces, start) == REFUSED
    decreases |pieces|
  {
    var bytes, first, rest := Joined(pieces), pieces[0], Joined(pieces[1..]);
    assert bytes == first + rest;
    if k < |first| {
      assert first[..k] == bytes[..k] && first[k] == bytes[k];
      BreaksInPiece(first, start.value, start.remain, k);
      forall i | 0 <= i < |rest| ensures IsContinuation(rest[i]) {
        assert rest[i] == bytes[k + 1..][|first| + i - k - 1];
      }
      ContinuationsRefused(pieces[1..], Partial(0, -1));
    } else {
      assert forall i :: 0 <= i < |first| ==> first[i] == bytes[..k][i];
      StillOpen(first, start.value, start.remain);
      assert rest[..k - |first|] == bytes[..k][|first|..] && rest[k - |first|] == bytes[k];
      assert rest[k - |first| + 1..] == bytes[k + 1..];
      BrokenIsRefused(pieces[1..], DecodeFrom(first, start).partial, k - |first|);
    }
  }

  lemma {:induction false} NothingRead(pieces: seq<seq<byte>>, start: Partial)
    requires Joined(pieces) == []
    ensures DecodePieces(pieces, start) == Fed([], start)
    decreases |pieces|
  {
    if pieces != [] {
      NothingRead(pieces[1..], start);
    }
  }

  /** After an invalid text the next one is read as if it were the first. */
  lemma {:induction false} InvalidLeavesNoTrace(pieces: seq<seq<byte>>, start: Partial)
    requires start.remain < 0 && Joined(pieces) != []
    ensures DecodePieces(pieces, start) == DecodePieces(pieces, FRESH)
    decreases |pieces|
  {
    if pieces[0] == [] {
      InvalidLeavesNoTrace(pieces[1..], start);
    }
  }

  lemma CleanIsCuttable(bytes: seq<byte>, start: Partial)
    requires Clean(bytes, Opened(start))
    ensures CutsDoNotShow(bytes, start)
  {
    forall pieces: seq<seq<byte>> | Joined(pieces) == bytes ensures DecodePieces(pieces, start) == Whole(bytes, start) {
      OnePiece(bytes, start);
      if bytes == [] {
        NothingRead(pieces, start);
      } else {
        if start.remain < 0 {
          InvalidLeavesNoTrace(pieces, start);
          InvalidLeavesNoTrace([bytes], start);
        }
        OnePiece(bytes, Opened(start));
        CutsDoNotMatter(pieces, Opened(start));
        CutsDoNotMatter([bytes], Opened(start));
      }
    }
  }

  lemma CuttableSuffices(bytes: seq<byte>, start: Partial)
    requires Cuttable(bytes, start)
    ensures CutsDoNotShow(bytes, start)
  {
    if Clean(bytes, Opened(start)) {
      CleanIsCuttable(bytes, start);
    } else {
      forall pieces: seq<seq<byte>> | Joined(pieces) == bytes ensures DecodePieces(pieces, start) == Whole(bytes, start) {
        OnePiece(bytes, start);
        if start.remain <= 0 && AllContinue(bytes) {
          ContinuationsRefused(pieces, start);
          ContinuationsRefused([bytes], start);
        } else {
          var k :| 0 <= k < |bytes| && BreaksAt(bytes, start.remain, k);
          BrokenIsRefused(pieces, start, k);
          BrokenIsRefused([bytes], start, k);
        }
      }
    }
  }

  // ----- texts that are not

  lemma {:induction false} FirstUnexpected(bytes: seq<byte>, partial: Partial) returns (u: nat)
    requires partial.remain >= 0 && !Clean(bytes, partial)
    ensures u < |bytes| && Clean(bytes[..u], partial) && !Expected(Feed(bytes[..u], partial).partial, bytes[u])
    decreases |bytes|
  {
    u := 0;
    if Expected(partial, bytes[0]) {
      var v := FirstUnexpected(bytes[1..], FeedByte(partial, bytes[0]).partial);
      u := v + 1;
      assert bytes[..u][1..] == bytes[1..][..v];
    }
  }

  lemma UnexpectedIsRefused(bytes: seq<byte>, state: Partial)
    requires bytes != [] && !Expected(Opened(state), bytes[0])
    ensures Whole(bytes, state) == REFUSED
  {
    assert IsContinuation(bytes[0]) <==> SequenceLength(bytes[0]) == 0;
  }

  lemma {:induction false} ScannedIsValid(bytes: seq<byte>, last: Partial)
    requires bytes != [] && Scan(bytes, last).Scanned?
    ensures Scan(bytes, last).partial.remain >= 0
    decreases |bytes|
  {
    var n := SequenceLength(bytes[0]) - 1;
    var c := TakeRest(bytes[1..], FirstBits(bytes[0], n), n);
    if c.rest != [] {
      ScannedIsValid(c.rest, Partial(c.value, c.remain));
    }
  }

  /** A text is only left invalid by being refused. */
  lemma InvalidIsRefused(bytes: seq<byte>, start: Partial)
    requires bytes != [] && Whole(bytes, start).partial.remain < 0
    ensures Whole(bytes, start) == REFUSED
  {
    if start.remain > 0 {
      var c := CarryOn(bytes, start.value, start.remain);
      if c.Carried? && c.rest != [] && Scan(c.rest, Partial(c.value, c.remain)).Scanned? {
        ScannedIsValid(c.rest, Partial(c.value, c.remain));
      }
    } else if Scan(bytes, start).Scanned? {
      ScannedIsValid(bytes, start);
    }
  }

  /** A text that is not clean but read alike however cut is refused, and so are all its cuts. */
  lemma UncleanIsRefused(bytes: seq<byte>, start: Partial)
    requires !Clean(bytes, Opened(start)) && CutsDoNotShow(bytes, start)
    ensures AllCutsGive(bytes, start, REFUSED)
  {
    var u := FirstUnexpected(bytes, Opened(start));
    var a, b := bytes[..u], bytes[u..];
    assert a + b == bytes;
    TwoPieces(a, b, start);
    if a != [] {
      DecodeFeeds(a, Opened(start));
    }
    UnexpectedIsRefused(b, Whole(a, start).partial);
    assert Joined([a, b]) == bytes;
    InvalidIsRefused(bytes, start);
  }

  lemma {:induction false} TakenWhole(bytes: seq<byte>, value: nat, remain: nat)
    requires |bytes| <= remain
    ensures var c := TakeRest(bytes, value, remain); c.rest == [] && c.remain == remain - |bytes|
    decreases |bytes|
  {
    if bytes != [] {
      TakenWhole(bytes[1..], Shifted(value, bytes[0]), remain - 1);
    }
  }

  /** The first sequence of a text, or what there is of it, is read. */
  lemma FirstSequenceIsRead(bytes: seq<byte>, start: Partial)
    requires start.remain <= 0 && 0 < |bytes| <= SequenceLength(bytes[0])
    ensures Whole(bytes, start).partial.remain == SequenceLength(bytes[0]) - |bytes|
    ensures |bytes| == SequenceLength(bytes[0]) ==> Whole(bytes, start).points != []
  {
    var n := SequenceLength(bytes[0]) - 1;
    TakenWhole(bytes[1..], FirstBits(bytes[0], n), n);
    var c := TakeRest(bytes[1..], FirstBits(bytes[0], n), n);
    assert Scan(c.rest, Partial(c.value, c.remain)) == Scanned([], Partial(c.value, c.remain));
    assert Scan(bytes, start) == Scanned(if c.remain == 0 then [c.value] else [], Partial(c.value, c.remain));
  }

  lemma FirstContinues(bytes: seq<byte>, start: Partial)
    requires start.remain <= 0 && bytes != [] && AllCutsGive(bytes, start, REFUSED)
    ensures IsContinuation(bytes[0])
  {
    var n := SequenceLength(bytes[0]);
    if n > 0 {
      var first := bytes[..if n < |bytes| then n else |bytes|];
      FirstSequenceIsRead(first, start);
      if n <= |bytes| {
        assert bytes == first + bytes[n..];
        CutOff(first, bytes[n..], start);
      } else {
        assert first == bytes;
        WholeIsACut(bytes, start, REFUSED);
      }
    }
  }

  lemma {:induction false} RefusedContinue(bytes: seq<byte>, start: Partial)
    requires start.remain <= 0 && AllCutsGive(bytes, start, REFUSED)
    ensures AllContinue(bytes)
    decreases |bytes|
  {
    if bytes != [] {
      FirstContinues(bytes, start);
      assert bytes == bytes[..1] + bytes[1..];
      CutOff(bytes[..1], bytes[1..], start);
      assert SequenceLength(bytes[..1][0]) == 0;
      assert Whole(bytes[..1], start) == REFUSED;
      RefusedContinue(bytes[1..], Partial(0, -1));
    }
  }

  /** How many of the first n bytes are continuation bytes with nothing else before them. */
  lemma {:induction false} Leading(bytes: seq<byte>, n: nat) returns (k: nat)
    ensures k <= n && k <= |bytes| && AllContinue(bytes[..k])
    ensures k == n || k == |bytes| || !IsContinuation(bytes[k])
    decreases n
  {
    k := 0;
    if n > 0 && bytes != [] && IsContinuation(bytes[0]) {
      var j := Leading(bytes[1..], n - 1);
      k := j + 1;
      assert bytes[..k] == [bytes[0]] + bytes[1..][..j];
    }
  }

  lemma RefusedIsBrokenOff(bytes: seq<byte>, start: Partial)
    requires start.remain > 0 && AllCutsGive(bytes, start, REFUSED)
    ensures BrokenOff(bytes, start.remain)
  {
    var k := Leading(bytes, start.remain);
    var first := bytes[..k];
    StillOpen(first, start.value, start.remain);
    assert bytes == first + bytes[k..];
    CutOff(first, bytes[k..], start);
    assert k < start.remain;
    if k == |bytes| {
      assert first == bytes;
      WholeIsACut(bytes, start, REFUSED);
    } else {
      var broken := bytes[..k + 1];
      assert broken[..k] == first && bytes == broken + bytes[k + 1..];
      BreaksInPiece(broken, start.value, start.remain, k);
      CutOff(broken, bytes[k + 1..], start);
      RefusedContinue(bytes[k + 1..], Partial(0, -1));
      assert BreaksAt(bytes, start.remain, k);
    }
  }

  /** The exact condition: bytes are read alike however they are cut if and only if they are clean, or
      continuation bytes alone with no sequence open, or break off the open sequence with nothing but
      continuation bytes after that. These are the bytes before a NUL, at which a text ends; what comes
      after one is read only if the text is cut there. */
  lemma CutsDoNotShowExactly(bytes: seq<byte>, start: Partial)
    ensures CutsDoNotShow(bytes, start) <==> Cuttable(bytes, start)
  {
    if Cuttable(bytes, start) {
      CuttableSuffices(bytes, start);
    } else if CutsDoNotShow(bytes, start) {
      UncleanIsRefused(bytes, start);
      if start.remain > 0 {
        RefusedIsBrokenOff(bytes, start);
      } else {
        RefusedContinue(bytes, start);
      }
    }
  }

  /** Reads pieces one after the other as texts, each up to its first NUL. */
  function ReadPieces(pieces: seq<seq<byte>>, start: Partial): Fed {
    if pieces == [] then Fed([], start)
    else
      var first := DecodeText(pieces[0], start);
      var rest := ReadPieces(pieces[1..], first.partial);
      Fed(first.codePoints[..|first.codePoints| - 1] + rest.points, rest.partial)
  }

  lemma {:induction false} PiecesWithoutNul(pieces: seq<seq<byte>>, start: Partial)
    requires 0 !in Joined(pieces)
    ensures ReadPieces(pieces, start) == DecodePieces(pieces, start)
    decreases |pieces|
  {
    if pieces != [] {
      WithoutNul(pieces[0], start);
      PiecesWithoutNul(pieces[1..], DecodeFrom(pieces[0], start).partial);
    }
  }

  ghost predicate AllReadAs(text: seq<byte>, start: Partial, r: Fed) {
    forall pieces: seq<seq<byte>> :: Joined(pieces) == text ==> ReadPieces(pieces, start) == r
  }

  lemma ReadsAreCuts(text: seq<byte>, start: Partial, r: Fed)
    requires 0 !in text
    ensures AllReadAs(text, start, r) <==> AllCutsGive(text, start, r)
  {
    forall pieces: seq<seq<byte>> | Joined(pieces) == text ensures ReadPieces(pieces, start) == DecodePieces(pieces, start) {
      PiecesWithoutNul(pieces, start);
    }
  }

  lemma ReadWhole(text: seq<byte>, start: Partial)
    requires 0 !in text
    ensures ReadPieces([text], start) == Whole(text, start)
  {
    assert Joined([text]) == text;
    PiecesWithoutNul([text], start);
    OnePiece(text, start);
  }

  /** For texts without NUL this is what the decoder reads. */
  lemma TextCutsDoNotShowExactly(text: seq<byte>, start: Partial)
    requires 0 !in text
    ensures AllReadAs(text, start, ReadPieces([text], start)) <==> Cuttable(text, start)
  {
    CutsDoNotShowExactly(text, start);
    ReadWhole(text, start);
    ReadsAreCuts(text, start, Whole(text, start));
  }

  /** The second byte of this text is not a continuation byte. Seen together with the first it is taken
      for one, so the text is read as a character; cut between them it is refused. */
  lemma CutsMayShow()
    ensures !CutsDoNotShow([0xC3, 0x41], FRESH)
    ensures Whole([0xC3, 0x41], FRESH) == Fed([0xC1], Partial(0xC1, 0))
    ensures DecodePieces([[0xC3], [0x41]], FRESH) == REFUSED
  {
    var a: seq<byte>, b: seq<byte> := [0xC3], [0x41];
    TogetherTaken();
    ApartRefused();
    TwoPieces(a, b, FRESH);
    assert a + b == [0xC3, 0x41];
    assert Joined([a, b]) == [0xC3, 0x41];
  }

  lemma TogetherTaken()
    ensures Whole([0xC3, 0x41], FRESH) == Fed([0xC1], Partial(0xC1, 0))
  {
    var ab: seq<byte>, b: seq<byte> := [0xC3, 0x41], [0x41];
    assert ab[1..] == b && b[1..] == [];
    assert TakeRest(b, 3, 1) == Carried([], 0xC1, 0);
  }

  lemma ApartRefused()
    ensures Whole([0xC3], FRESH) == Fed([], Partial(3, 1)) && Whole([0x41], Partial(3, 1)) == REFUSED
  {
    var a: seq<byte> := [0xC3];
    assert a[1..] == [];
  }
}
