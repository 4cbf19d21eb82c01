/** The set of tensors that allocator and scheduler number their tensors with: linear probing over
    an array of keys, with one bit for each slot in use. */
module HashSet {

  // ----- bit sets

  /** Five binary digits, lowest first. */
  datatype Digits = Digits(a: nat, b: nat, c: nat, d: nat, e: nat)

  predicate Binary(x: Digits) {
    x.a < 2 && x.b < 2 && x.c < 2 && x.d < 2 && x.e < 2
  }

  function Number(x: Digits): nat {
    x.a + 2 * x.b + 4 * x.c + 8 * x.d + 16 * x.e
  }

  /** The low digits of i. */
  function DigitsOf(i: nat): (r: Digits)
    ensures Binary(r) && Number(r) == i % 32
  {
    var a := i / 2;
    var b := a / 2;
    var c := b / 2;
    var d := c / 2;
    var r := Digits(i % 2, a % 2, b % 2, c % 2, d % 2);
    Remainder(i, d / 2, Number(r));
    r
  }

  lemma Remainder(i: nat, q: nat, s: nat)
    requires i == 32 * q + s && s < 32
    ensures i % 32 == s
  {
  }

  /** i & 31 as a shift amount. */
  function LowDigits(i: nat): (r: bv32)
    ensures r < 32
  {
    var x := DigitsOf(i);
    Weighed(x.a == 1, x.b == 1, x.c == 1, x.d == 1, x.e == 1)
  }

  function Weighed(a: bool, b: bool, c: bool, d: bool, e: bool): (r: bv32)
    ensures r < 32
  {
    (if a then 1 else 0) | (if b then 2 else 0) | (if c then 4 else 0) | (if d then 8 else 0) | (if e then 16 else 0)
  }

  /** The bit of a word that stands for slot i. */
  function Mask(i: nat): bv32 {
    OneBit(LowDigits(i))
  }

  function OneBit(a: bv32): bv32
    requires a < 32
  {
    1 << a
  }

  function WordsFor(n: nat): nat {
    (n + 31) / 32
  }

  predicate BitGet(words: seq<bv32>, i: nat)
    requires i / 32 < |words|
  {
    HasBit(words[i / 32], i)
  }

  lemma WeighedDistinct(a: bool, b: bool, c: bool, d: bool, e: bool, f: bool, g: bool, h: bool, k: bool, l: bool)
    requires Weighed(a, b, c, d, e) == Weighed(f, g, h, k, l)
    ensures a == f && b == g && c == h && d == k && e == l
  {
  }

  /** Binary digits are determined by the number. */
  lemma SameNumber(x: Digits, y: Digits)
    requires Binary(x) && Binary(y) && Number(x) == Number(y)
    ensures x == y
  {
  }

  lemma SameDigits(x: Digits, y: Digits)
    requires Binary(x) && Binary(y)
    requires Weighed(x.a == 1, x.b == 1, x.c == 1, x.d == 1, x.e == 1) == Weighed(y.a == 1, y.b == 1, y.c == 1, y.d == 1, y.e == 1)
    ensures x == y
  {
    WeighedDistinct(x.a == 1, x.b == 1, x.c == 1, x.d == 1, x.e == 1, y.a == 1, y.b == 1, y.c == 1, y.d == 1, y.e == 1);
  }

  lemma LowDigitsDistinct(i: nat, j: nat)
    ensures LowDigits(i) == LowDigits(j) <==> i % 32 == j % 32
  {
    var x, y := DigitsOf(i), DigitsOf(j);
    if LowDigits(i) == LowDigits(j) {
      SameDigits(x, y);
    }
    if Number(x) == Number(y) {
      SameNumber(x, y);
    }
  }

  lemma MasksApart(a: bv32, b: bv32)
    requires a < 32 && b < 32
    ensures a != b ==> OneBit(a) & OneBit(b) == 0
    ensures OneBit(a) != 0
  {
  }

  lemma OtherBitsStay(w: bv32, m: bv32, k: bv32)
    requires m & k == 0
    ensures (w | m) & k == w & k
    ensures (w & !m) & k == w & k
  {
  }

  lemma OwnBits(w: bv32, m: bv32)
    ensures (w | m) & m == m
    ensures (w & !m) & m == 0
  {
  }

  /** What setting and clearing bit i of its word does to bit j of the same word. */
  lemma BitAfter(w: bv32, i: nat, j: nat)
    ensures (w | Mask(i)) & Mask(j) != 0 <==> i % 32 == j % 32 || w & Mask(j) != 0
    ensures (w & !Mask(i)) & Mask(j) != 0 <==> i % 32 != j % 32 && w & Mask(j) != 0
  {
    LowDigitsDistinct(i, j);
    MasksApart(LowDigits(i), LowDigits(j));
    if i % 32 == j % 32 {
      assert Mask(i) == Mask(j);
      OwnBits(w, Mask(i));
    } else {
      OtherBitsStay(w, Mask(i), Mask(j));
    }
  }

  function WithBit(w: bv32, i: nat): bv32 {
    w | Mask(i)
  }

  function WithoutBit(w: bv32, i: nat): bv32 {
    w & !Mask(i)
  }

  predicate HasBit(w: bv32, i: nat) {
    w & Mask(i) != 0
  }

  lemma BitAfterInWord(w: bv32, i: nat, j: nat)
    requires i / 32 == j / 32
    ensures HasBit(WithBit(w, i), j) <==> i == j || HasBit(w, j)
    ensures HasBit(WithoutBit(w, i), j) <==> i != j && HasBit(w, j)
  {
    BitAfter(w, i, j);
    SameWordAndDigits(i, j);
  }

  /** Setting a bit changes just that one, in whatever word it lies. */
  method BitSet(words: array<bv32>, i: nat)
    requires i / 32 < words.Length
    modifies words
    ensures forall j: nat :: j / 32 < words.Length ==> (BitGet(words[..], j) <==> i == j || old(BitGet(words[..], j)))
  {
    ghost var before := words[..];
    words[i / 32] := WithBit(words[i / 32], i);
    assert words[..] == before[i / 32 := WithBit(before[i / 32], i)];
    forall j: nat | j / 32 < words.Length ensures BitGet(words[..], j) <==> i == j || BitGet(before, j) {
      if i / 32 == j / 32 {
        BitAfterInWord(before[i / 32], i, j);
      }
    }
  }

  method BitClear(words: array<bv32>, i: nat)
    requires i / 32 < words.Length
    modifies words
    ensures forall j: nat :: j / 32 < words.Length ==> (BitGet(words[..], j) <==> i != j && old(BitGet(words[..], j)))
  {
    ghost var before := words[..];
    words[i / 32] := WithoutBit(words[i / 32], i);
    assert words[..] == before[i / 32 := WithoutBit(before[i / 32], i)];
    forall j: nat | j / 32 < words.Length ensures BitGet(words[..], j) <==> i != j && BitGet(before, j) {
      if i / 32 == j / 32 {
        BitAfterInWord(before[i / 32], i, j);
      }
    }
  }

  lemma SameWordAndDigits(i: nat, j: nat)
    ensures i / 32 == j / 32 && i % 32 == j % 32 ==> i == j
  {
  }

  // ----- linear probing

  /** A tensor, by its address. */
  type Key = nat

  datatype Slot = Free | Holds(key: Key)

  type Slots = seq<Slot>

  datatype Found = Full | At(index: nat)

  function Home(key: Key, size: nat): (h: nat)
    requires size > 0
    ensures h < size
  {
    key / 16 % size
  }

  /** The slot d steps after home, around the end. */
  function Probe(home: nat, d: nat, size: nat): (i: nat)
    requires home < size && d <= size
    ensures i < size
  {
    if home + d < size then home + d else home + d - size
  }

  lemma NextProbe(home: nat, d: nat, size: nat)
    requires home < size && d < size
    ensures Probe(home, d + 1, size) == if Probe(home, d, size) + 1 == size then 0 else Probe(home, d, size) + 1
    ensures Probe(home, d + 1, size) == home <==> d + 1 == size
  {
  }

  /** Probing for key ends here: it is here, or it is nowhere further on. */
  predicate Stops(s: Slot, key: Key) {
    s.Free? || s.key == key
  }

  /** The first stop at least d steps from home; size when there is none. */
  function FirstStop(slots: Slots, key: Key, d: nat): (r: nat)
    requires d <= |slots| && slots != []
    ensures d <= r <= |slots|
    decreases |slots| - d
  {
    if d == |slots| || StopsAfter(slots, key, d) then d else FirstStop(slots, key, d + 1)
  }

  predicate StopsAfter(slots: Slots, key: Key, d: nat)
    requires d < |slots|
  {
    Stops(slots[Probe(Home(key, |slots|), d, |slots|)], key)
  }

  lemma {:induction false} FirstStopIsFirst(slots: Slots, key: Key, d: nat)
    requires d <= |slots| && slots != []
    ensures var r := FirstStop(slots, key, d);
            && (forall e :: d <= e < r ==> !StopsAfter(slots, key, e))
            && (r < |slots| ==> StopsAfter(slots, key, r))
    decreases |slots| - d
  {
    if !(d == |slots| || StopsAfter(slots, key, d)) {
      FirstStopIsFirst(slots, key, d + 1);
    }
  }

  function FindIn(slots: Slots, key: Key): (r: Found)
    requires slots != []
    ensures r.At? ==> r.index < |slots| && Stops(slots[r.index], key)
  {
    var d := FirstStop(slots, key, 0);
    FirstStopIsFirst(slots, key, 0);
    if d == |slots| then Full else At(Probe(Home(key, |slots|), d, |slots|))
  }

  /** Probing has come to slot i, d steps from home, without a stop. */
  predicate Reached(slots: Slots, key: Key, d: nat, i: nat) {
    d < |slots| && i == Probe(Home(key, |slots|), d, |slots|) && FirstStop(slots, key, 0) == FirstStop(slots, key, d)
  }

  lemma StepOn(slots: Slots, key: Key, d: nat, i: nat)
    requires Reached(slots, key, d, i) && !Stops(slots[i], key)
    ensures var next := if i + 1 == |slots| then 0 else i + 1;
            if next == Home(key, |slots|) then d + 1 == |slots| == FirstStop(slots, key, 0)
            else Reached(slots, key, d + 1, next)
  {
    NextProbe(Home(key, |slots|), d, |slots|);
    assert !StopsAfter(slots, key, d);
  }

  lemma StopHere(slots: Slots, key: Key, d: nat, i: nat)
    requires Reached(slots, key, d, i) && Stops(slots[i], key)
    ensures FirstStop(slots, key, 0) == d
  {
    assert StopsAfter(slots, key, d);
  }

  /** How far i is from home. */
  function Distance(home: nat, i: nat, size: nat): (d: nat)
    requires home < size && i < size
    ensures d < size && Probe(home, d, size) == i
  {
    if home <= i then i - home else i + size - home
  }

  /** No key is held twice, and there is no free slot between a key's home and the key. */
  ghost predicate Chained(slots: Slots) {
    && (forall i, j :: 0 <= i < |slots| && 0 <= j < |slots| && slots[i].Holds? && slots[j] == slots[i] ==> i == j)
    && (forall i :: 0 <= i < |slots| && slots[i].Holds? ==> NoGap(slots, i))
  }

  ghost predicate NoGap(slots: Slots, i: nat)
    requires i < |slots| && slots[i].Holds?
  {
    var home := Home(slots[i].key, |slots|);
    forall d :: 0 <= d < Distance(home, i, |slots|) ==> slots[Probe(home, d, |slots|)].Holds?
  }

  ghost predicate Contains(slots: Slots, key: Key) {
    Holds(key) in slots
  }

  /** A key is found in the slot that holds it. */
  lemma FoundInItsSlot(slots: Slots, i: nat)
    requires Chained(slots) && i < |slots| && slots[i].Holds?
    ensures FindIn(slots, slots[i].key) == At(i)
  {
    var key, n := slots[i].key, |slots|;
    var home := Home(key, n);
    var d := Distance(home, i, n);
    var r := FirstStop(slots, key, 0);
    FirstStopIsFirst(slots, key, 0);
    assert NoGap(slots, i) && StopsAfter(slots, key, d);
    if r < d {
      assert StopsAfter(slots, key, r) && slots[Probe(home, r, n)].Holds?;
      assert Probe(home, r, n) == i;
    }
  }

  /** Finding says whether the key is there; no slot is returned only when others hold them all. */
  lemma FindMeans(slots: Slots, key: Key)
    requires slots != [] && Chained(slots)
    ensures FindIn(slots, key) == Full <==> forall i :: 0 <= i < |slots| ==> slots[i].Holds? && slots[i].key != key
    ensures Contains(slots, key) <==> FindIn(slots, key).At? && slots[FindIn(slots, key).index] == Holds(key)
  {
    if Contains(slots, key) {
      var i :| 0 <= i < |slots| && slots[i] == Holds(key);
      FoundInItsSlot(slots, i);
    }
    var home, n := Home(key, |slots|), |slots|;
    if FindIn(slots, key) == Full {
      FirstStopIsFirst(slots, key, 0);
      forall i | 0 <= i < n ensures slots[i].Holds? && slots[i].key != key {
        assert !StopsAfter(slots, key, Distance(home, i, n));
      }
    }
  }

  /** Putting a key where it is found keeps the chains; every other key stays where it is. */
  lemma InsertKeeps(slots: Slots, key: Key)
    requires slots != [] && Chained(slots) && FindIn(slots, key).At?
    ensures Chained(slots[FindIn(slots, key).index := Holds(key)])
  {
    var at := FindIn(slots, key).index;
    var now := slots[at := Holds(key)];
    FindMeans(slots, key);
    if slots[at] == Holds(key) {
      assert now == slots;
      return;
    }
    forall i | 0 <= i < |slots| ensures slots[i] != Holds(key) {
      assert slots[i] == Holds(key) ==> Contains(slots, key);
    }
    forall i | 0 <= i < |now| && now[i].Holds? ensures NoGap(now, i) {
      if i != at {
        assert NoGap(slots, i);
      } else {
        ChainToFound(slots, key);
      }
    }
  }

  lemma ChainToFound(slots: Slots, key: Key)
    requires slots != [] && FindIn(slots, key).At?
    ensures NoGap(slots[FindIn(slots, key).index := Holds(key)], FindIn(slots, key).index)
  {
    var at, n := FindIn(slots, key).index, |slots|;
    var home, r := Home(key, |slots|), FirstStop(slots, key, 0);
    var now := slots[at := Holds(key)];
    FirstStopIsFirst(slots, key, 0);
    assert Distance(home, at, n) == r;
    forall d | 0 <= d < r ensures now[Probe(home, d, n)].Holds? {
      assert !StopsAfter(slots, key, d);
    }
  }

  // ----- histories of insertions

  /** The slots after keys have been inserted one after the other; insertion into a full set aborts. */
  function Inserted(slots: Slots, keys: seq<Key>): (r: Slots)
    requires slots != []
    ensures |r| == |slots|
    decreases |keys|
  {
    if keys == [] then slots
    else match FindIn(slots, keys[0])
      case Full => slots
      case At(i) => Inserted(slots[i := Holds(keys[0])], keys[1..])
  }

  /** Whatever is inserted later, a key keeps its slot. */
  lemma {:induction false} SlotsAreStable(slots: Slots, keys: seq<Key>, i: nat)
    requires Chained(slots) && i < |slots| && slots[i].Holds?
    ensures Chained(Inserted(slots, keys))
    ensures Inserted(slots, keys)[i] == slots[i]
    ensures FindIn(Inserted(slots, keys), slots[i].key) == At(i)
    decreases |keys|
  {
    if keys == [] {
      FoundInItsSlot(slots, i);
    } else {
      match FindIn(slots, keys[0])
      case Full =>
        FoundInItsSlot(slots, i);
      case At(k) =>
        InsertKeeps(slots, keys[0]);
        SlotsAreStable(slots[k := Holds(keys[0])], keys[1..], i);
    }
  }

  /** Different keys have different slots. */
  lemma SlotsAreDistinct(slots: Slots, a: Key, b: Key)
    requires slots != [] && Chained(slots) && Contains(slots, a) && Contains(slots, b)
    ensures FindIn(slots, a).At? && FindIn(slots, b).At?
    ensures FindIn(slots, a) == FindIn(slots, b) <==> a == b
  {
    FindMeans(slots, a);
    FindMeans(slots, b);
  }

  class TensorSet {
    const size: nat
    const used: array<bv32>
    const keys: array<Key>

    /** What the set holds. */
    ghost var slots: Slots

    predicate InUse(i: nat)
      requires i / 32 < used.Length
      reads used
    {
      BitGet(used[..], i)
    }

    ghost predicate Allocated() {
      size > 0 && keys.Length == size && used.Length == WordsFor(size) && (used as object) != (keys as object)
    }

    ghost predicate Reflected()
      reads this, used, keys
    {
      && Allocated() && |slots| == size
      && forall i: nat {:trigger InUse(i)} :: i < size ==> i / 32 < used.Length && slots[i] == if InUse(i) then Holds(keys[i]) else Free
    }

    ghost predicate Valid()
      reads this, used, keys
    {
      Reflected() && Chained(slots)
    }

    constructor (minSize: nat)
      ensures Valid() && fresh(used) && fresh(keys) && size >= minSize
      ensures forall i :: 0 <= i < size ==> slots[i] == Free
    {
      var n := HashSize(minSize);
      size := n;
      keys := new Key[n];
      var words := new bv32[WordsFor(n)](i => 0);
      used := words;
      slots := seq(n, i => Free);
      new;
      forall i: nat | i < size ensures i / 32 < used.Length && !InUse(i) {
        NoBits(i);
      }
    }

    method Reset()
      requires Allocated()
      modifies this`slots, used
      ensures Valid() && forall i :: 0 <= i < size ==> slots[i] == Free
    {
      for i := 0 to used.Length
        invariant forall k :: 0 <= k < i ==> used[k] == 0
      {
        used[i] := 0;
      }
      slots := seq(size, i => Free);
      forall i: nat | i < size ensures i / 32 < used.Length && !InUse(i) {
        NoBits(i);
      }
    }

    method Advance(i: nat) returns (j: nat)
      requires i < size
      ensures j == if i + 1 == size then 0 else i + 1
    {
      j := (i + 1) % size;
    }

    /** What a probe sees. */
    method Look(i: nat) returns (s: Slot)
      requires Reflected() && i < size
      ensures s == slots[i]
    {
      WordOfSlot(i, size);
      s := if InUse(i) then Holds(keys[i]) else Free;
    }

    /** Linear probing, until a slot is free or holds the key, or home is reached again. */
    method Search(key: Key) returns (stopped: bool, i: nat)
      requires Reflected()
      ensures stopped == (FirstStop(slots, key, 0) < size)
      ensures stopped ==> i == Probe(Home(key, size), FirstStop(slots, key, 0), size)
    {
      var h := Home(key, size);
      i := h;
      ghost var d := 0;
      var s := Look(i);
      while !Stops(s, key)
        invariant Reached(slots, key, d, i) && s == slots[i]
        decreases size - d
      {
        StepOn(slots, key, d, i);
        i := Advance(i);
        d := d + 1;
        if i == h {
          return false, i;
        }
        s := Look(i);
      }
      StopHere(slots, key, d, i);
      stopped := true;
    }

    method Find(key: Key) returns (r: Found)
      requires Reflected()
      ensures r == FindIn(slots, key)
    {
      var stopped, i := Search(key);
      r := if stopped then At(i) else Full;
    }

    method Includes(key: Key) returns (b: bool)
      requires Valid()
      ensures b <==> Contains(slots, key)
    {
      FindMeans(slots, key);
      var r := Find(key);
      b := false;
      if r.At? {
        var s := Look(r.index);
        b := s.Holds?;
      }
    }

    /** Puts a key in a slot. */
    method Occupy(i: nat, key: Key)
      requires Reflected() && i < size
      modifies this`slots, used, keys
      ensures Reflected() && slots == old(slots)[i := Holds(key)]
    {
      WordOfSlot(i, size);
      ghost var before := used[..];
      BitSet(used, i);
      ghost var words := used[..];
      keys[i] := key;
      assert used[..] == words;
      slots := slots[i := Holds(key)];
      forall j: nat | j < size ensures j / 32 < used.Length && slots[j] == if InUse(j) then Holds(keys[j]) else Free {
        WordOfSlot(j, size);
        assert BitGet(words, j) <==> i == j || BitGet(before, j);
        assert old(InUse(j)) == BitGet(before, j);
      }
    }

    /** The slot of the key, which is put there if it was in none; Full where the source aborts. */
    method FindOrInsert(key: Key) returns (r: Found)
      requires Valid()
      modifies this`slots, used, keys
      ensures Valid() && r == FindIn(old(slots), key)
      ensures slots == if r.At? then old(slots)[r.index := Holds(key)] else old(slots)
    {
      var stopped, i := Search(key);
      if !stopped {
        return Full;
      }
      InsertKeeps(slots, key);
      var s := Look(i);
      if s.Free? {
        Occupy(i, key);
      }
      r := At(i);
    }
  }

  lemma WordOfSlot(i: nat, n: nat)
    requires i < n
    ensures i / 32 < WordsFor(n)
  {
  }

  lemma NoBits(i: nat)
    ensures !HasBit(0, i)
  {
  }

  /** The sizes that are used: the next primes after powers of two. */
  const PRIMES: seq<nat> := [
    2, 3, 5, 11, 17, 37, 67, 131, 257, 521, 1031,
    2053, 4099, 8209, 16411, 32771, 65537, 131101,
    262147, 524309, 1048583, 2097169, 4194319, 8388617,
    16777259, 33554467, 67108879, 134217757, 268435459,
    536870923, 1073741827, 2147483659
  ]

  /** The least of these sizes that is enough; beyond them the next odd number. */
  method HashSize(minSize: nat) returns (size: nat)
    ensures size >= minSize && size > 0
    ensures size in PRIMES || (size % 2 == 1 && size <= minSize + 1)
    ensures forall k :: 0 <= k < |PRIMES| && PRIMES[k] < size ==> PRIMES[k] < minSize
  {
    PrimesAscend();
    size := LeastOf(PRIMES, minSize);
  }

  method LeastOf(sizes: seq<nat>, minSize: nat) returns (size: nat)
    requires forall i, j :: 0 <= i < j < |sizes| ==> 0 < sizes[i] < sizes[j]
    requires sizes != [] && sizes[0] > 0
    ensures size >= minSize && size > 0
    ensures size in sizes || (size % 2 == 1 && size <= minSize + 1)
    ensures forall k :: 0 <= k < |sizes| && sizes[k] < size ==> sizes[k] < minSize
  {
    var l, r := 0, |sizes|;
    while l < r
      invariant 0 <= l <= r <= |sizes|
      invariant forall k :: 0 <= k < l ==> sizes[k] < minSize
      invariant forall k :: r <= k < |sizes| ==> sizes[k] >= minSize
    {
      var m := (l + r) / 2;
      if sizes[m] < minSize {
        l := m + 1;
      } else {
        r := m;
      }
    }
    size := if l < |sizes| then sizes[l] else if minSize % 2 == 0 then minSize + 1 else minSize;
  }

  lemma PrimesAscend()
    ensures forall i, j :: 0 <= i < j < |PRIMES| ==> 0 < PRIMES[i] < PRIMES[j]
  {
  }
}
