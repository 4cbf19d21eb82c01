/** Incremental UTF-8 decoding: a text may stop in the middle of a sequence, and the next one
    carries on from there. */
module Utf8 {

  type byte = b: int | 0 <= b < 256
  type CodePoints = seq<nat>

  /** What a text that stopped early leaves behind: the bits so far, and how many bytes are
      missing; -1 missing bytes mark an invalid text. */
  datatype Partial = Partial(value: nat, remain: int)

  /** The code points with a terminating 0, and what is left over. */
  datatype Decoded = Decoded(codePoints: CodePoints, partial: Partial)

  const FRESH := Partial(0, 0)

  function SequenceLength(first: byte): (r: nat)
    ensures r <= 4
  {
    var highBits := first / 16;
    if highBits < 8 then 1
    else if highBits < 12 then 0
    else if highBits < 14 then 2
    else if highBits == 14 then 3
    else 4
  }

  /** The bits of a first byte that count when n more bytes follow. */
  function FirstBits(first: byte, n: nat): nat
    requires n <= 3
  {
    match n
    case 0 => first % 128
    case 1 => first % 64
    case 2 => first % 32
    case 3 => first % 16
  }

  /** value << 6, plus six more bits, in 32 bits. */
  function Shifted(value: nat, b: byte): nat {
    (value * 64 + b % 64) % 0x1_0000_0000
  }

  predicate IsContinuation(b: byte) {
    b / 64 == 2
  }

  // ----- what the decoder computes

  /** Carries on a sequence begun in an earlier text; None when a byte does not continue it. */
  datatype Carried = Broken | Carried(rest: seq<byte>, value: nat, remain: nat)

  function CarryOn(bytes: seq<byte>, value: nat, remain: nat): (r: Carried)
    ensures r.Carried? ==> |r.rest| + remain == |bytes| + r.remain
    decreases remain
  {
    if remain == 0 || bytes == [] then Carried(bytes, value, remain)
    else if !IsContinuation(bytes[0]) then Broken
    else CarryOn(bytes[1..], Shifted(value, bytes[0]), remain - 1)
  }

  /** The bytes after a first byte are taken without looking at their high bits. */
  function TakeRest(bytes: seq<byte>, value: nat, remain: nat): (r: Carried)
    ensures r.Carried? && |r.rest| <= |bytes|
    decreases remain
  {
    if remain == 0 || bytes == [] then Carried(bytes, value, remain)
    else TakeRest(bytes[1..], Shifted(value, bytes[0]), remain - 1)
  }

  /** Decodes from a point between sequences; None for a byte no sequence starts with. */
  datatype Scanned = Invalid | Scanned(points: CodePoints, partial: Partial)

  function Scan(bytes: seq<byte>, last: Partial): Scanned
    decreases |bytes|
  {
    if bytes == [] then Scanned([], last)
    else if SequenceLength(bytes[0]) == 0 then Invalid
    else
      var n := SequenceLength(bytes[0]) - 1;
      var c := TakeRest(bytes[1..], FirstBits(bytes[0], n), n);
      match Scan(c.rest, Partial(c.value, c.remain))
      case Invalid => Invalid
      case Scanned(points, partial) => Scanned((if c.remain == 0 then [c.value] else []) + points, partial)
  }

  function DecodeFrom(bytes: seq<byte>, start: Partial): (r: Decoded)
    ensures |r.codePoints| > 0
  {
    if start.remain > 0 then
      match CarryOn(bytes, start.value, start.remain)
      case Broken => Decoded([0], Partial(0, -1))
      case Carried(rest, value, remain) =>
        match Scan(rest, Partial(value, remain))
        case Invalid => Decoded([0], Partial(0, -1))
        case Scanned(points, partial) => Decoded((if remain == 0 then [value] else []) + points + [0], partial)
    else
      match Scan(bytes, start)
      case Invalid => Decoded([0], Partial(0, -1))
      case Scanned(points, partial) => Decoded(points + [0], partial)
  }

  /** The bytes before the first NUL, which ends a text. */
  function UpToNul(text: seq<byte>): seq<byte> {
    if text == [] || text[0] == 0 then [] else [text[0]] + UpToNul(text[1..])
  }

  lemma {:induction false} FirstNul(text: seq<byte>)
    ensures UpToNul(text) <= text && 0 !in UpToNul(text)
    ensures |UpToNul(text)| < |text| ==> text[|UpToNul(text)|] == 0
  {
    if text != [] && text[0] != 0 {
      FirstNul(text[1..]);
    }
  }

  /** What is made of a text: it ends at its first NUL. */
  function DecodeText(text: seq<byte>, start: Partial): (r: Decoded)
    ensures |r.codePoints| > 0
  {
    DecodeFrom(UpToNul(text), start)
  }

  lemma WithoutNul(text: seq<byte>, start: Partial)
    requires 0 !in text
    ensures UpToNul(text) == text && DecodeText(text, start) == DecodeFrom(text, start)
  {
    FirstNul(text);
  }

  // ----- the decoder as it runs, byte by byte

  lemma NextByte(src: seq<byte>, pos: nat)
    requires pos < |src| && src[pos] != 0
    ensures UpToNul(src[pos..]) == [src[pos]] + UpToNul(src[pos + 1..])
  {
    assert src[pos..][1..] == src[pos + 1..];
  }

  /** Continues a previous decode; ok is false on a byte that does not belong to it. */
  method ContinueSequence(src: seq<byte>, start: Partial) returns (ok: bool, pos: nat, value: nat, remain: nat)
    requires start.remain > 0
    ensures pos <= |src|
    ensures CarryOn(UpToNul(src), start.value, start.remain) == if ok then Carried(UpToNul(src[pos..]), value, remain) else Broken
  {
    pos, value, remain := 0, start.value, start.remain;
    assert src[0..] == src;
    while pos < |src| && src[pos] != 0 && remain > 0
      invariant pos <= |src|
      invariant CarryOn(UpToNul(src), start.value, start.remain) == CarryOn(UpToNul(src[pos..]), value, remain)
      decreases remain
    {
      NextByte(src, pos);
      if src[pos] / 64 != 2 {
        return false, pos, value, remain;
      }
      value := Shifted(value, src[pos]);
      pos := pos + 1;
      remain := remain - 1;
    }
    ok := true;
  }

  /** The bytes after the first one of a sequence, as far as there are any. */
  method RestOfSequence(src: seq<byte>, from: nat, bits: nat, missing: nat) returns (pos: nat, value: nat, remain: nat)
    requires from <= |src|
    ensures from <= pos <= |src|
    ensures TakeRest(UpToNul(src[from..]), bits, missing) == Carried(UpToNul(src[pos..]), value, remain)
  {
    pos, value, remain := from, bits, missing;
    while pos < |src| && src[pos] != 0 && remain > 0
      invariant from <= pos <= |src|
      invariant TakeRest(UpToNul(src[from..]), bits, missing) == TakeRest(UpToNul(src[pos..]), value, remain)
      decreases remain
    {
      NextByte(src, pos);
      value := Shifted(value, src[pos]);
      pos := pos + 1;
      remain := remain - 1;
    }
  }

  /** What scanning gives when some points have been found already. */
  ghost function After(points: CodePoints, rest: Scanned): Scanned {
    match rest
    case Invalid => Invalid
    case Scanned(more, partial) => Scanned(points + more, partial)
  }

  /** Decodes whole sequences, of which the last may be incomplete. */
  method ScanSequences(src: seq<byte>, from: nat, last: Partial) returns (r: Scanned)
    requires from <= |src|
    ensures r == Scan(UpToNul(src[from..]), last)
  {
    var pos := from;
    var partial := last;
    var points: CodePoints := [];
    while pos < |src| && src[pos] != 0
      invariant from <= pos <= |src|
      invariant Scan(UpToNul(src[from..]), last) == After(points, Scan(UpToNul(src[pos..]), partial))
    {
      NextByte(src, pos);
      var missing := SequenceLength(src[pos]) - 1;
      if missing < 0 {
        return Invalid;
      }
      ghost var here := UpToNul(src[pos..]);
      assert here[1..] == UpToNul(src[pos + 1..]);
      var next, value, remain := RestOfSequence(src, pos + 1, FirstBits(src[pos], missing), missing);
      ScanOne(points, here, partial, Carried(UpToNul(src[next..]), value, remain));
      if remain == 0 {
        points := points + [value];
      }
      pos, partial := next, Partial(value, remain);
    }
    r := Scanned(points, partial);
  }

  /** One sequence scanned: c is what is left of here after its first sequence. */
  lemma ScanOne(points: CodePoints, here: seq<byte>, partial: Partial, c: Carried)
    requires here != [] && SequenceLength(here[0]) > 0 && c.Carried?
    requires var n := SequenceLength(here[0]) - 1; TakeRest(here[1..], FirstBits(here[0], n), n) == c
    ensures After(points, Scan(here, partial)) ==
            After(if c.remain == 0 then points + [c.value] else points, Scan(c.rest, Partial(c.value, c.remain)))
  {
    var found := if c.remain == 0 then [c.value] else [];
    AfterAfter(points, found, Scan(c.rest, Partial(c.value, c.remain)));
  }

  lemma AfterAfter(points: CodePoints, found: CodePoints, rest: Scanned)
    ensures After(points, After(found, rest)) == After(points + found, rest)
  {
    if rest.Scanned? {
      assert points + (found + rest.points) == (points + found) + rest.points;
    }
  }

  method Decode(src: seq<byte>, start: Partial) returns (r: Decoded)
    ensures r == DecodeText(src, start)
  {
    var codePoints: CodePoints := [];
    var pos, partial := 0, start;
    if start.remain > 0 {
      var ok, next, value, remain := ContinueSequence(src, start);
      if !ok {
        return Decoded([0], Partial(0, -1));
      }
      if remain == 0 {
        codePoints := [value];
      }
      pos, partial := next, Partial(value, remain);
    }
    assert src[0..] == src;
    var scanned := ScanSequences(src, pos, partial);
    if scanned.Invalid? {
      return Decoded([0], Partial(0, -1));
    }
    r := Decoded(codePoints + scanned.points + [0], scanned.partial);
    assert [] + scanned.points == scanned.points;
  }

  // ----- one byte at a time

  /** A decoder that is fed byte by byte: the points complete so far, and the state. */
  datatype Fed = Fed(points: CodePoints, partial: Partial)

  /** The byte fits the state: it carries on the open sequence, or starts a new one. */
  predicate Expected(partial: Partial, b: byte) {
    partial.remain >= 0 && if partial.remain > 0 then IsContinuation(b) else SequenceLength(b) > 0
  }

  function FeedByte(partial: Partial, b: byte): (r: Fed)
    requires Expected(partial, b)
    ensures r.partial.remain >= 0
  {
    var next :=
      if partial.remain > 0 then Partial(Shifted(partial.value, b), partial.remain - 1)
      else var n := SequenceLength(b) - 1; Partial(FirstBits(b, n), n);
    Fed(if next.remain == 0 then [next.value] else [], next)
  }

  /** Every byte is one the state before it expects. */
  predicate Clean(bytes: seq<byte>, partial: Partial) {
    partial.remain >= 0 && (bytes == [] || (Expected(partial, bytes[0]) && Clean(bytes[1..], FeedByte(partial, bytes[0]).partial)))
  }

  function Feed(bytes: seq<byte>, partial: Partial): (r: Fed)
    requires Clean(bytes, partial)
    ensures r.partial.remain >= 0
  {
    if bytes == [] then Fed([], partial)
    else
      var first := FeedByte(partial, bytes[0]);
      var rest := Feed(bytes[1..], first.partial);
      Fed(first.points + rest.points, rest.partial)
  }

  lemma {:induction false} FeedConcat(a: seq<byte>, b: seq<byte>, partial: Partial)
    ensures Clean(a + b, partial) <==> Clean(a, partial) && Clean(b, Feed(a, partial).partial)
    ensures Clean(a + b, partial) ==>
              Feed(a + b, partial) == Fed(Feed(a, partial).points + Feed(b, Feed(a, partial).partial).points, Feed(b, Feed(a, partial).partial).partial)
    decreases |a|
  {
    if a == [] {
      assert a + b == b;
    } else {
      assert (a + b)[1..] == a[1..] + b;
      if Expected(partial, a[0]) {
        FeedConcat(a[1..], b, FeedByte(partial, a[0]).partial);
      }
    }
  }

  /** Carrying on an open sequence is feeding bytes one at a time. */
  lemma {:induction false} CarryOnFeeds(bytes: seq<byte>, value: nat, remain: nat)
    requires remain > 0 && Clean(bytes, Partial(value, remain))
    ensures var c := CarryOn(bytes, value, remain);
            && c.Carried? && TakeRest(bytes, value, remain) == c && Clean(c.rest, Partial(c.value, c.remain))
            && Feed(bytes, Partial(value, remain)) ==
               Fed((if c.remain == 0 then [c.value] else []) + Feed(c.rest, Partial(c.value, c.remain)).points, Feed(c.rest, Partial(c.value, c.remain)).partial)
            && (c.remain > 0 ==> c.rest == [])
    decreases remain
  {
    if bytes != [] && remain > 1 {
      CarryOnFeeds(bytes[1..], Shifted(value, bytes[0]), remain - 1);
    }
  }

  lemma {:induction false} ScanFeeds(bytes: seq<byte>, last: Partial)
    requires last.remain == 0 || bytes == []
    requires Clean(bytes, last)
    ensures Scan(bytes, last) == Scanned(Feed(bytes, last).points, Feed(bytes, last).partial)
    decreases |bytes|
  {
    if bytes != [] {
      var n := SequenceLength(bytes[0]) - 1;
      var v := FirstBits(bytes[0], n);
      if n > 0 {
        CarryOnFeeds(bytes[1..], v, n);
      }
      var c := TakeRest(bytes[1..], v, n);
      ScanFeeds(c.rest, Partial(c.value, c.remain));
    }
  }

  /** On a text in which every byte is expected, decoding is feeding bytes one at a time. */
  lemma DecodeFeeds(bytes: seq<byte>, start: Partial)
    requires Clean(bytes, start)
    ensures DecodeFrom(bytes, start) == Decoded(Feed(bytes, start).points + [0], Feed(bytes, start).partial)
  {
    if start.remain > 0 {
      CarryOnFeeds(bytes, start.value, start.remain);
      var c := CarryOn(bytes, start.value, start.remain);
      ScanFeeds(c.rest, Partial(c.value, c.remain));
    } else {
      ScanFeeds(bytes, start);
    }
  }

  // ----- texts cut into pieces

  /** Decodes pieces one after the other, each from where the one before stopped. */
  function DecodePieces(pieces: seq<seq<byte>>, start: Partial): Fed {
    if pieces == [] then Fed([], start)
    else
      var first := DecodeFrom(pieces[0], start);
      var rest := DecodePieces(pieces[1..], first.partial);
      Fed(first.codePoints[..|first.codePoints| - 1] + rest.points, rest.partial)
  }

  function Joined(pieces: seq<seq<byte>>): seq<byte> {
    if pieces == [] then [] else pieces[0] + Joined(pieces[1..])
  }

  /** Where a clean text is cut does not matter: pieces give the points of the whole, and
      leave the decoder in the same state. */
  lemma {:induction false} CutsDoNotMatter(pieces: seq<seq<byte>>, start: Partial)
    requires Clean(Joined(pieces), start)
    ensures DecodePieces(pieces, start) == Feed(Joined(pieces), start)
    ensures var whole := DecodeFrom(Joined(pieces), start);
            whole == Decoded(DecodePieces(pieces, start).points + [0], DecodePieces(pieces, start).partial)
    decreases |pieces|
  {
    DecodeFeeds(Joined(pieces), start);
    if pieces != [] {
      FeedConcat(pieces[0], Joined(pieces[1..]), start);
      DecodeFeeds(pieces[0], start);
      CutsDoNotMatter(pieces[1..], Feed(pieces[0], start).partial);
    }
  }

  // ----- what a state can be

  /** The states the decoder leaves: at most three bytes are missing, and the bits so far are no more
      than those of the bytes there have been. */
  predicate Plausible(partial: Partial) {
    && partial.remain <= 3
    && (partial.remain == 3 ==> partial.value < 16)
    && (partial.remain == 2 ==> partial.value < 1024)
    && (partial.remain == 1 ==> partial.value < 65536)
  }

  lemma {:induction false} CarriedPlausible(bytes: seq<byte>, value: nat, remain: nat)
    requires Plausible(Partial(value, remain))
    ensures var c := CarryOn(bytes, value, remain); c.Carried? ==> Plausible(Partial(c.value, c.remain))
    ensures var c := TakeRest(bytes, value, remain); Plausible(Partial(c.value, c.remain))
    decreases remain
  {
    if remain > 0 && bytes != [] {
      CarriedPlausible(bytes[1..], Shifted(value, bytes[0]), remain - 1);
    }
  }

  lemma {:induction false} ScannedPlausible(bytes: seq<byte>, last: Partial)
    requires Plausible(last)
    ensures Scan(bytes, last).Scanned? ==> Plausible(Scan(bytes, last).partial)
    decreases |bytes|
  {
    if bytes != [] && SequenceLength(bytes[0]) > 0 {
      var n := SequenceLength(bytes[0]) - 1;
      CarriedPlausible(bytes[1..], FirstBits(bytes[0], n), n);
      var c := TakeRest(bytes[1..], FirstBits(bytes[0], n), n);
      ScannedPlausible(c.rest, Partial(c.value, c.remain));
    }
  }

  lemma DecodedPlausible(bytes: seq<byte>, start: Partial)
    requires Plausible(start)
    ensures Plausible(DecodeFrom(bytes, start).partial)
  {
    if start.remain > 0 {
      CarriedPlausible(bytes, start.value, start.remain);
      var c := CarryOn(bytes, start.value, start.remain);
      if c.Carried? {
        ScannedPlausible(c.rest, Partial(c.value, c.remain));
      }
    } else {
      ScannedPlausible(bytes, start);
    }
  }

  // ----- encoding

  /** One byte with six bits of payload for each digit. */
  function Continuations(digits: seq<nat>): (r: seq<byte>)
    requires forall i :: 0 <= i < |digits| ==> digits[i] < 64
    ensures |r| == |digits|
  {
    seq(|digits|, i requires 0 <= i < |digits| => 0x80 + digits[i])
  }

  /** UTF-8 as section 3 of RFC 3629 lays it down. */
  function Encode(c: nat): (r: seq<byte>)
    requires 0 < c <= 0x10FFFF
  {
    if c < 0x80 then [c]
    else if c < 0x800 then [0xC0 + c / 64] + Continuations([c % 64])
    else if c < 0x10000 then [0xE0 + c / 4096] + Continuations([c / 64 % 64, c % 64])
    else [0xF0 + c / 262144] + Continuations([c / 4096 % 64, c / 64 % 64, c % 64])
  }

  /** The length of the shortest encoding of c. */
  function BytesNeeded(c: nat): (r: nat)
    ensures 0 < c <= 0x10FFFF ==> r == |Encode(c)|
  {
    if c < 0x80 then 1 else if c < 0x800 then 2 else if c < 0x10000 then 3 else 4
  }

  predicate Encodable(points: CodePoints) {
    forall i :: 0 <= i < |points| ==> 0 < points[i] <= 0x10FFFF
  }

  function EncodeAll(points: CodePoints): seq<byte>
    requires Encodable(points)
  {
    if points == [] then [] else Encode(points[0]) + EncodeAll(points[1..])
  }

  /** An encoded code point is fed back as that code point. */
  lemma EncodedIsFedBack(c: nat, start: Partial)
    requires 0 < c <= 0x10FFFF && start.remain == 0
    ensures Clean(Encode(c), start) && Feed(Encode(c), start) == Fed([c], Partial(c, 0))
  {
    if c < 0x80 {
      assert Encode(c)[1..] == [];
    } else if c < 0x800 {
      FeedSequence(0xC0 + c / 64, c / 64, [c % 64], start);
      Joined2(c / 64, c % 64);
    } else if c < 0x10000 {
      ThreeByteFedBack(c, start);
    } else {
      FourByteFedBack(c, start);
    }
  }

  lemma ThreeByteFedBack(c: nat, start: Partial)
    requires 0x800 <= c < 0x10000 && start.remain == 0
    ensures Clean(Encode(c), start) && Feed(Encode(c), start) == Fed([c], Partial(c, 0))
  {
    FeedSequence(0xE0 + c / 4096, c / 4096, [c / 64 % 64, c % 64], start);
    Joined3(c / 4096, c / 64 % 64, c % 64);
    assert (c / 4096 * 64 + c / 64 % 64) * 64 + c % 64 == c;
  }

  lemma FourByteFedBack(c: nat, start: Partial)
    requires 0x10000 <= c <= 0x10FFFF && start.remain == 0
    ensures Clean(Encode(c), start) && Feed(Encode(c), start) == Fed([c], Partial(c, 0))
  {
    FeedSequence(0xF0 + c / 262144, c / 262144, [c / 4096 % 64, c / 64 % 64, c % 64], start);
    Joined4(c / 262144, c / 4096 % 64, c / 64 % 64, c % 64);
    FourDigits(c);
  }

  lemma FourDigits(c: nat)
    ensures ((c / 262144 * 64 + c / 4096 % 64) * 64 + c / 64 % 64) * 64 + c % 64 == c
  {
    var q := c / 64;
    var p := q / 64;
    assert c / 4096 == p;
    assert c / 262144 == p / 64;
  }

  lemma Joined2(a: nat, b: nat)
    ensures Joined64(a, [b]) == a * 64 + b
  {
    assert [b][1..] == [];
  }

  lemma Joined3(a: nat, b: nat, c: nat)
    ensures Joined64(a, [b, c]) == (a * 64 + b) * 64 + c
  {
    assert [b, c][1..] == [c];
    Joined2(a * 64 + b, c);
  }

  lemma Joined4(a: nat, b: nat, c: nat, d: nat)
    ensures Joined64(a, [b, c, d]) == ((a * 64 + b) * 64 + c) * 64 + d
  {
    assert [b, c, d][1..] == [c, d];
    Joined3(a * 64 + b, c, d);
  }

  /** A first byte and the continuation bytes of digits. */
  lemma FeedSequence(first: byte, bits: nat, digits: seq<nat>, start: Partial)
    requires start.remain == 0 && 0 < |digits| <= 3 && forall i :: 0 <= i < |digits| ==> digits[i] < 64
    requires SequenceLength(first) == |digits| + 1 && FirstBits(first, |digits|) == bits < 64
    ensures var bytes: seq<byte> := [first] + Continuations(digits);
            var v := Joined64(bits, digits);
            Clean(bytes, start) && Feed(bytes, start) == Fed([v], Partial(v, 0))
  {
    var bytes: seq<byte> := [first] + Continuations(digits);
    assert bytes[1..] == Continuations(digits);
    FeedTail(bytes[1..], bits, digits);
  }

  function Joined64(value: nat, digits: seq<nat>): nat
    decreases |digits|
  {
    if digits == [] then value else Joined64(value * 64 + digits[0], digits[1..])
  }

  /** Continuation bytes put their six bits behind those there are. */
  lemma {:induction false} FeedTail(bytes: seq<byte>, value: nat, digits: seq<nat>)
    requires |bytes| == |digits| > 0 && |digits| <= 3
    requires forall i :: 0 <= i < |digits| ==> digits[i] < 64 && bytes[i] == 0x80 + digits[i]
    requires value < if |digits| == 1 then 0x400_0000 else if |digits| == 2 then 0x10_0000 else 0x4000
    ensures var v := Joined64(value, digits);
            Clean(bytes, Partial(value, |digits|)) && Feed(bytes, Partial(value, |digits|)) == Fed([v], Partial(v, 0))
    decreases |digits|
  {
    assert IsContinuation(bytes[0]);
    assert Shifted(value, bytes[0]) == value * 64 + digits[0];
    if |digits| == 1 {
      assert bytes[1..] == [] && digits[1..] == [];
    } else {
      FeedTail(bytes[1..], value * 64 + digits[0], digits[1..]);
    }
  }

  /** Round trip: decoding undoes encoding, for every text without NUL. */
  lemma {:induction false} DecodeUndoesEncode(points: CodePoints, start: Partial)
    requires Encodable(points) && start.remain == 0
    ensures Clean(EncodeAll(points), start) && Feed(EncodeAll(points), start).points == points
    ensures DecodeFrom(EncodeAll(points), start).codePoints == points + [0]
    ensures DecodeFrom(EncodeAll(points), start).partial.remain == 0
    decreases |points|
  {
    if points != [] {
      EncodedIsFedBack(points[0], start);
      DecodeUndoesEncode(points[1..], Partial(points[0], 0));
      FeedConcat(Encode(points[0]), EncodeAll(points[1..]), start);
      assert [points[0]] + points[1..] == points;
    }
    FedRemainder(points, start);
    DecodeFeeds(EncodeAll(points), start);
  }

  lemma {:induction false} FedRemainder(points: CodePoints, start: Partial)
    requires Encodable(points) && start.remain == 0
    requires Clean(EncodeAll(points), start)
    ensures Feed(EncodeAll(points), start).partial.remain == 0
    decreases |points|
  {
    if points != [] {
      EncodedIsFedBack(points[0], start);
      FeedConcat(Encode(points[0]), EncodeAll(points[1..]), start);
      FedRemainder(points[1..], Partial(points[0], 0));
    }
  }
}
