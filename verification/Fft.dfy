/** The Fourier transform of the spectrogram: the recursive one computes the naive one. Arithmetic is
    exact; the table of sines and cosines is any one that obeys the laws of roots of unity. */
module Fft {

  datatype Complex = Complex(re: real, im: real)

  const ZERO := Complex(0.0, 0.0)

  function Plus(a: Complex, b: Complex): Complex {
    Complex(a.re + b.re, a.im + b.im)
  }

  function Minus(a: Complex, b: Complex): Complex {
    Complex(a.re - b.re, a.im - b.im)
  }

  function Times(a: Complex, b: Complex): Complex {
    Complex(a.re * b.re - a.im * b.im, a.re * b.im + a.im * b.re)
  }

  function Scaled(x: real, a: Complex): Complex {
    Complex(x * a.re, x * a.im)
  }

  // ----- the table

  /** Entry i stands for the angle 2*pi*i/size. */
  datatype Table = Table(cos: seq<real>, sin: seq<real>)

  predicate Sized(t: Table) {
    |t.cos| == |t.sin| > 0
  }

  function Size(t: Table): nat {
    |t.cos|
  }

  /** The root with a negative angle, as the transform uses it. */
  function Entry(t: Table, i: nat): Complex
    requires Sized(t) && i < Size(t)
  {
    Complex(t.cos[i], -t.sin[i])
  }

  /** Adding angles multiplies, a whole turn is 1, half a turn is -1. */
  ghost predicate Roots(t: Table) {
    && Sized(t) && Entry(t, 0) == Complex(1.0, 0.0)
    && (forall i: nat, j: nat :: i < Size(t) && j < Size(t) ==> Multiplies(t, i, j))
    && (Size(t) % 2 == 0 ==> Entry(t, Size(t) / 2) == Complex(-1.0, 0.0))
  }

  predicate Multiplies(t: Table, i: nat, j: nat)
    requires Sized(t) && i < Size(t) && j < Size(t)
  {
    Entry(t, (i + j) % Size(t)) == Times(Entry(t, i), Entry(t, j))
  }

  /** The root for any multiple of the angle of entry 1. */
  function W(t: Table, e: nat): Complex
    requires Sized(t)
  {
    Entry(t, e % Size(t))
  }

  lemma ModOfSum(a: nat, b: nat, m: nat)
    requires m > 0
    ensures (a % m + b % m) % m == (a + b) % m
  {
    var q, r := a / m + b / m, a % m + b % m;
    assert a == a / m * m + a % m && b == b / m * m + b % m;
    assert a + b == q * m + r;
    AddedMultiple(r, q, m);
  }

  lemma {:induction false} AddedMultiple(r: nat, q: nat, m: nat)
    requires m > 0
    ensures (q * m + r) % m == r % m
    decreases q
  {
    if q > 0 {
      AddedMultiple(r, q - 1, m);
      OneMore((q - 1) * m + r, m);
      assert q * m + r == (q - 1) * m + r + m;
    }
  }

  lemma OneMore(x: nat, m: nat)
    requires m > 0
    ensures (x + m) % m == x % m
  {
    var q, r := x / m, x % m;
    assert x == q * m + r;
    var d := (x + m) / m - (q + 1);
    assert x + m == (q + 1) * m + r;
    assert d * m + (x + m) % m == r;
    if d != 0 {
      NotSmall(d, m);
    }
  }

  lemma NotSmall(d: int, m: nat)
    requires d != 0
    ensures d * m >= m || d * m <= -(m as int)
  {
  }

  lemma AnglesAdd(t: Table, a: nat, b: nat)
    requires Roots(t)
    ensures W(t, a + b) == Times(W(t, a), W(t, b))
  {
    var n := Size(t);
    ModOfSum(a, b, n);
    assert Multiplies(t, a % n, b % n);
  }

  lemma WholeTurns(t: Table, e: nat, q: nat)
    requires Sized(t)
    ensures W(t, q * Size(t) + e) == W(t, e)
  {
    AddedMultiple(e, q, Size(t));
  }

  lemma HalfTurn(t: Table, e: nat)
    requires Roots(t) && Size(t) % 2 == 0
    ensures W(t, e + Size(t) / 2) == Complex(-W(t, e).re, -W(t, e).im)
  {
    var h := Size(t) / 2;
    AnglesAdd(t, e, h);
    SmallMod(h, Size(t));
  }

  lemma SmallMod(x: nat, m: nat)
    requires x < m
    ensures x % m == x
  {
  }

  // ----- the naive transform

  /** Term n of bin k; step is the table's size over the number of samples. */
  function Term(t: Table, x: seq<real>, step: nat, k: nat, n: nat): Complex
    requires Sized(t) && n < |x|
  {
    Scaled(x[n], W(t, k * n * step))
  }

  function Terms(t: Table, x: seq<real>, step: nat, k: nat): (r: seq<Complex>)
    requires Sized(t)
    ensures |r| == |x|
  {
    seq(|x|, n requires 0 <= n < |x| => Term(t, x, step, k, n))
  }

  /** The sum of the first m. */
  function Sum(c: seq<Complex>, m: nat): Complex
    requires m <= |c|
  {
    if m == 0 then ZERO else Plus(Sum(c, m - 1), c[m - 1])
  }

  /** The angle of entry step, n times, is a whole turn. */
  predicate Turns(t: Table, n: nat, step: nat) {
    n > 0 && n * step == Size(t)
  }

  /** Bin k of the discrete Fourier transform. */
  function Bin(t: Table, x: seq<real>, step: nat, k: nat): Complex
    requires Sized(t)
  {
    Sum(Terms(t, x, step, k), |x|)
  }

  function Evens(x: seq<real>): (r: seq<real>)
    requires |x| % 2 == 0
    ensures |r| == |x| / 2 && forall i :: 0 <= i < |r| ==> r[i] == x[2 * i]
  {
    seq(|x| / 2, i requires 0 <= i < |x| / 2 => x[2 * i])
  }

  function Odds(x: seq<real>): (r: seq<real>)
    requires |x| % 2 == 0
    ensures |r| == |x| / 2 && forall i :: 0 <= i < |r| ==> r[i] == x[2 * i + 1]
  {
    seq(|x| / 2, i requires 0 <= i < |x| / 2 => x[2 * i + 1])
  }

  // ----- one level of the recursion

  lemma EvenTerm(t: Table, x: seq<real>, step: nat, k: nat, i: nat)
    requires Roots(t) && |x| % 2 == 0 && i < |x| / 2
    ensures Term(t, x, step, k, 2 * i) == Term(t, Evens(x), 2 * step, k, i)
  {
    assert k * (2 * i) * step == k * i * (2 * step);
  }

  lemma OddTerm(t: Table, x: seq<real>, step: nat, k: nat, i: nat)
    requires Roots(t) && |x| % 2 == 0 && i < |x| / 2
    ensures Term(t, x, step, k, 2 * i + 1) == Times(W(t, k * step), Term(t, Odds(x), 2 * step, k, i))
  {
    assert k * (2 * i + 1) * step == k * step + k * i * (2 * step) by {
      assert k * (2 * i + 1) == k * (2 * i) + k;
      assert (k * (2 * i) + k) * step == k * (2 * i) * step + k * step;
      assert k * (2 * i) * step == k * i * (2 * step);
    }
    AnglesAdd(t, k * step, k * i * (2 * step));
    ScaleThenTimes(x[2 * i + 1], W(t, k * step), W(t, k * i * (2 * step)));
  }

  lemma ScaleThenTimes(x: real, a: Complex, b: Complex)
    ensures Scaled(x, Times(a, b)) == Times(a, Scaled(x, b))
  {
  }

  lemma TimesPlus(w: Complex, a: Complex, b: Complex)
    ensures Times(w, Plus(a, b)) == Plus(Times(w, a), Times(w, b))
  {
  }

  /** A common factor comes out of a sum. */
  lemma {:induction false} SumTimes(c: seq<Complex>, o: seq<Complex>, w: Complex, m: nat)
    requires |c| == |o| && m <= |o| && forall i :: 0 <= i < |o| ==> c[i] == Times(w, o[i])
    ensures Sum(c, m) == Times(w, Sum(o, m))
    decreases m
  {
    if m > 0 {
      SumTimes(c, o, w, m - 1);
      TimesPlus(w, Sum(o, m - 1), o[m - 1]);
    }
  }

  predicate Interleaves(c: seq<Complex>, e: seq<Complex>, o: seq<Complex>) {
    |c| == 2 * |e| && |o| == |e| && forall i :: 0 <= i < |e| ==> PairAt(c, e, o, i)
  }

  predicate PairAt(c: seq<Complex>, e: seq<Complex>, o: seq<Complex>, i: nat)
    requires |c| == 2 * |e| && |o| == |e| && i < |e|
  {
    c[2 * i] == e[i] && c[2 * i + 1] == o[i]
  }

  /** A sum falls into one over the even places and one over the odd ones. */
  lemma {:induction false} SumSplits(c: seq<Complex>, e: seq<Complex>, o: seq<Complex>, m: nat)
    requires Interleaves(c, e, o) && m <= |e|
    ensures Sum(c, 2 * m) == Plus(Sum(e, m), Sum(o, m))
    decreases m
  {
    if m > 0 {
      SumSplits(c, e, o, m - 1);
      SumSplitsOnce(c, e, o, m - 1);
    }
  }

  lemma SumSplitsOnce(c: seq<Complex>, e: seq<Complex>, o: seq<Complex>, n: nat)
    requires Interleaves(c, e, o) && n < |e|
    requires Sum(c, 2 * n) == Plus(Sum(e, n), Sum(o, n))
    ensures Sum(c, 2 * (n + 1)) == Plus(Sum(e, n + 1), Sum(o, n + 1))
  {
    SumOfTwoMore(c, 2 * n);
    assert PairAt(c, e, o, n);
    Regroup(Sum(e, n), Sum(o, n), e[n], o[n]);
  }

  lemma SumOfTwoMore(c: seq<Complex>, m: nat)
    requires m + 2 <= |c|
    ensures Sum(c, m + 2) == Plus(Plus(Sum(c, m), c[m]), c[m + 1])
  {
    assert Sum(c, m + 1) == Plus(Sum(c, m), c[m]);
  }

  lemma Regroup(a: Complex, b: Complex, c: Complex, d: Complex)
    ensures Plus(Plus(Plus(a, b), c), d) == Plus(Plus(a, c), Plus(b, d))
  {
  }

  lemma Shifted(k: nat, n: nat, i: nat, step: nat)
    ensures (k + n) * i * step == i * (n * step) + k * i * step
  {
    assert (k + n) * i == k * i + n * i;
    assert (k * i + n * i) * step == k * i * step + n * i * step;
    assert n * i * step == i * (n * step);
  }

  /** Bins repeat after as many as there are samples. */
  lemma TermsRepeat(t: Table, x: seq<real>, step: nat, k: nat)
    requires Sized(t) && Turns(t, |x|, step)
    ensures Terms(t, x, step, k + |x|) == Terms(t, x, step, k)
  {
    forall i | 0 <= i < |x| ensures Term(t, x, step, k + |x|, i) == Term(t, x, step, k, i) {
      Shifted(k, |x|, i, step);
      WholeTurns(t, k * i * step, i);
    }
  }

  lemma HalfTheSamples(t: Table, n: nat, step: nat)
    requires Turns(t, n, step) && n % 2 == 0
    ensures Turns(t, n / 2, 2 * step) && Size(t) % 2 == 0 && n / 2 * step == Size(t) / 2
  {
    var h := n / 2;
    assert n == 2 * h;
    assert n * step == 2 * (h * step) == h * (2 * step);
  }

  /** Lower half of the bins: even part plus turned odd part. */
  lemma LowBin(t: Table, x: seq<real>, step: nat, k: nat)
    requires Roots(t) && |x| % 2 == 0
    ensures Bin(t, x, step, k) == Plus(Bin(t, Evens(x), 2 * step, k), Times(W(t, k * step), Bin(t, Odds(x), 2 * step, k)))
  {
    var c, w := Terms(t, x, step, k), W(t, k * step);
    var e, o := Terms(t, Evens(x), 2 * step, k), Terms(t, Odds(x), 2 * step, k);
    var turned := seq(|o|, i requires 0 <= i < |o| => Times(w, o[i]));
    forall i | 0 <= i < |e| ensures PairAt(c, e, turned, i) {
      EvenTerm(t, x, step, k, i);
      OddTerm(t, x, step, k, i);
    }
    SumSplits(c, e, turned, |e|);
    SumTimes(turned, o, w, |o|);
  }

  lemma BinRepeats(t: Table, x: seq<real>, step: nat, k: nat)
    requires Sized(t) && Turns(t, |x|, step)
    ensures Bin(t, x, step, k + |x|) == Bin(t, x, step, k)
  {
    TermsRepeat(t, x, step, k);
  }

  lemma TimesNegated(w: Complex, a: Complex, b: Complex)
    ensures Plus(a, Times(Complex(-w.re, -w.im), b)) == Minus(a, Times(w, b))
  {
  }

  lemma TurnedHalf(t: Table, n: nat, step: nat, k: nat)
    requires Roots(t) && Turns(t, n, step) && n % 2 == 0
    ensures W(t, (k + n / 2) * step) == Complex(-W(t, k * step).re, -W(t, k * step).im)
  {
    HalfTheSamples(t, n, step);
    assert (k + n / 2) * step == k * step + n / 2 * step;
    HalfTurn(t, k * step);
  }

  /** Upper half: the same with a minus sign. */
  lemma HighBin(t: Table, x: seq<real>, step: nat, k: nat)
    requires Roots(t) && |x| % 2 == 0 && Turns(t, |x|, step)
    ensures Bin(t, x, step, k + |x| / 2) ==
            Minus(Bin(t, Evens(x), 2 * step, k), Times(W(t, k * step), Bin(t, Odds(x), 2 * step, k)))
  {
    var h := |x| / 2;
    HalfTheSamples(t, |x|, step);
    BinRepeats(t, Evens(x), 2 * step, k);
    BinRepeats(t, Odds(x), 2 * step, k);
    LowBin(t, x, step, k + h);
    var a, b := Bin(t, Evens(x), 2 * step, k), Bin(t, Odds(x), 2 * step, k);
    assert Bin(t, x, step, k + h) == Plus(a, Times(W(t, (k + h) * step), b));
    TurnedHalf(t, |x|, step, k);
    TimesNegated(W(t, k * step), a, b);
  }

  /** A single sample is its own transform. */
  lemma SingleBin(t: Table, x: seq<real>, step: nat)
    requires Roots(t) && |x| == 1
    ensures Bin(t, x, step, 0) == Complex(x[0], 0.0)
  {
    assert 0 * 0 * step == 0;
    SmallMod(0, Size(t));
    assert Sum(Terms(t, x, step, 0), 1) == Plus(Sum(Terms(t, x, step, 0), 0), Term(t, x, step, 0, 0));
  }

  // ----- the transforms as they run, on parts of buffers

  /** Samples n from at on. */
  function Samples(a: array<real>, at: nat, n: nat): (r: seq<real>)
    requires at + n <= a.Length
    reads a
    ensures |r| == n
  {
    a[at..at + n]
  }

  /** The complex number k of those stored from at on. */
  function Stored(a: seq<real>, at: nat, k: nat): Complex
    requires at + 2 * k + 2 <= |a|
  {
    Complex(a[at + 2 * k], a[at + 2 * k + 1])
  }

  /** The transform of x is stored from at on. */
  ghost predicate HoldsBins(t: Table, x: seq<real>, step: nat, a: seq<real>, at: nat, n: nat)
    requires Sized(t) && at + 2 * n <= |a|
  {
    forall k: nat :: k < n ==> Stored(a, at, k) == Bin(t, x, step, k)
  }

  /** b is a outside [from, end). */
  predicate SameOutside(a: seq<real>, b: seq<real>, from: nat, end: nat) {
    |a| == |b| && forall i :: 0 <= i < |a| && !(from <= i < end) ==> b[i] == a[i]
  }

  /** The naive transform. */
  method Dft(t: Table, input: array<real>, at: nat, n: nat, out: array<real>, place: nat, ghost step: nat)
    requires Roots(t) && Turns(t, n, step) && input != out && at + n <= input.Length && place + 2 * n <= out.Length
    modifies out
    ensures HoldsBins(t, Samples(input, at, n), step, out[..], place, n)
    ensures SameOutside(old(out[..]), out[..], place, place + 2 * n)
  {
    var turn := Size(t) / n;
    StepIs(t, n, step);
    ghost var x := Samples(input, at, n);
    for k := 0 to n
      invariant SameOutside(old(out[..]), out[..], place, place + 2 * n)
      invariant HoldsBins(t, x, step, out[..], place, k)
    {
      var re, im := NaiveBin(t, input, at, n, turn, k);
      out[place + 2 * k] := re;
      out[place + 2 * k + 1] := im;
    }
  }

  method NaiveBin(t: Table, input: array<real>, at: nat, n: nat, step: nat, k: nat) returns (re: real, im: real)
    requires Sized(t) && at + n <= input.Length
    ensures Complex(re, im) == Bin(t, Samples(input, at, n), step, k)
  {
    ghost var x := Samples(input, at, n);
    re, im := 0.0, 0.0;
    for i := 0 to n
      invariant Complex(re, im) == Sum(Terms(t, x, step, k), i)
    {
      var idx := k * i * step % Size(t);
      assert Term(t, x, step, k, i) == Scaled(x[i], Entry(t, idx));
      re := re + input[at + i] * t.cos[idx];
      im := im - input[at + i] * t.sin[idx];
    }
  }

  lemma StepIs(t: Table, n: nat, step: nat)
    requires Turns(t, n, step)
    ensures Size(t) / n == step
  {
    var d := Size(t) / n - step;
    assert Size(t) == n * (Size(t) / n) + Size(t) % n;
    assert d * n == -(Size(t) % n);
    if d != 0 {
      NotSmall(d, n);
    }
  }

  /** Copies every second of 2h samples, from the first or the second on, behind them. */
  method Gather(input: array<real>, at: nat, h: nat, odd: bool)
    requires at + 3 * h <= input.Length
    modifies input
    ensures SameOutside(old(input[..]), input[..], at + 2 * h, at + 3 * h)
    ensures Samples(input, at, 2 * h) == old(Samples(input, at, 2 * h))
    ensures Samples(input, at + 2 * h, h) == if odd then Odds(Samples(input, at, 2 * h)) else Evens(Samples(input, at, 2 * h))
  {
    ghost var x := Samples(input, at, 2 * h);
    var first := if odd then 1 else 0;
    for i := 0 to h
      invariant SameOutside(old(input[..]), input[..], at + 2 * h, at + 3 * h)
      invariant forall k :: 0 <= k < i ==> input[at + 2 * h + k] == x[2 * k + first]
    {
      var sample := input[at + (2 * i + first)];
      assert sample == x[2 * i + first];
      input[at + 2 * h + i] := sample;
    }
    assert Samples(input, at, 2 * h) == x;
  }

  /** b is a but for the numbers k and k + h stored from place on. */
  predicate OnlyPair(a: seq<real>, b: seq<real>, place: nat, h: nat, k: nat) {
    |a| == |b| && forall i :: 0 <= i < |a| && !OfPair(i, place, h, k) ==> b[i] == a[i]
  }

  predicate OfPair(i: int, place: nat, h: nat, k: nat) {
    i == place + 2 * k || i == place + 2 * k + 1 || i == place + 2 * (k + h) || i == place + 2 * (k + h) + 1
  }

  /** One butterfly: numbers k and k + h out of number k of both halves, which are stored behind. */
  method Butterfly(out: array<real>, place: nat, h: nat, re: real, im: real, k: nat)
    requires k < h && place + 8 * h <= out.Length
    modifies out
    ensures OnlyPair(old(out[..]), out[..], place, h, k)
    ensures var e, o := old(Stored(out[..], place + 4 * h, k)), old(Stored(out[..], place + 6 * h, k));
            && Stored(out[..], place, k) == Plus(e, Times(Complex(re, im), o))
            && Stored(out[..], place, k + h) == Minus(e, Times(Complex(re, im), o))
  {
    var even, odd := place + 4 * h, place + 6 * h;
    var reOdd, imOdd := out[odd + 2 * k], out[odd + 2 * k + 1];
    out[place + 2 * k] := out[even + 2 * k] + re * reOdd - im * imOdd;
    out[place + 2 * k + 1] := out[even + 2 * k + 1] + re * imOdd + im * reOdd;
    out[place + 2 * (k + h)] := out[even + 2 * k] - re * reOdd + im * imOdd;
    out[place + 2 * (k + h) + 1] := out[even + 2 * k + 1] - re * imOdd - im * reOdd;
  }

  /** The first k numbers of both halves of the result are in place. */
  ghost predicate Combined(t: Table, x: seq<real>, step: nat, a: seq<real>, place: nat, h: nat, k: nat)
    requires Sized(t) && k <= h && place + 4 * h <= |a|
  {
    forall i: nat :: i < k ==> PairRight(t, x, step, a, place, h, i)
  }

  predicate PairRight(t: Table, x: seq<real>, step: nat, a: seq<real>, place: nat, h: nat, i: nat)
    requires Sized(t) && i < h && place + 4 * h <= |a|
  {
    Stored(a, place, i) == Bin(t, x, step, i) && Stored(a, place, i + h) == Bin(t, x, step, i + h)
  }

  lemma Twiddle(t: Table, h: nat, step: nat, k: nat)
    requires Sized(t) && Turns(t, 2 * h, step) && k < h
    ensures k * step < Size(t) && W(t, k * step) == Entry(t, k * step)
  {
    Positive(2 * h, step);
    Ordered(k, 2 * h, step);
    SmallMod(k * step, Size(t));
  }

  lemma Positive(n: nat, step: nat)
    requires n * step > 0
    ensures step > 0
  {
  }

  lemma Ordered(k: nat, n: nat, step: nat)
    requires k < n && step > 0
    ensures k * step < n * step
  {
    assert n * step == k * step + (n - k) * step;
    NotSmall(n - k, step);
  }

  lemma CombinedIsAll(t: Table, x: seq<real>, step: nat, a: seq<real>, place: nat, h: nat)
    requires Sized(t) && place + 4 * h <= |a| && Combined(t, x, step, a, place, h, h)
    ensures HoldsBins(t, x, step, a, place, 2 * h)
  {
    forall k: nat | k < 2 * h ensures Stored(a, place, k) == Bin(t, x, step, k) {
      if k >= h {
        assert PairRight(t, x, step, a, place, h, k - h);
      } else {
        assert PairRight(t, x, step, a, place, h, k);
      }
    }
  }

  lemma KeptBins(t: Table, x: seq<real>, step: nat, a: seq<real>, b: seq<real>, at: nat, n: nat)
    requires Sized(t) && at + 2 * n <= |a| == |b| && HoldsBins(t, x, step, a, at, n)
    requires forall i :: at <= i < at + 2 * n ==> b[i] == a[i]
    ensures HoldsBins(t, x, step, b, at, n)
  {
    forall k: nat | k < n ensures Stored(b, at, k) == Bin(t, x, step, k) {
      assert Stored(b, at, k) == Stored(a, at, k);
    }
  }

  /** All butterflies of one level. */
  method Combine(t: Table, ghost x: seq<real>, out: array<real>, place: nat, h: nat, step: nat)
    requires Roots(t) && |x| == 2 * h && Turns(t, 2 * h, step) && place + 8 * h <= out.Length
    requires HoldsBins(t, Evens(x), 2 * step, out[..], place + 4 * h, h)
    requires HoldsBins(t, Odds(x), 2 * step, out[..], place + 6 * h, h)
    modifies out
    ensures HoldsBins(t, x, step, out[..], place, 2 * h)
    ensures SameOutside(old(out[..]), out[..], place, place + 4 * h)
  {
    ghost var before := out[..];
    for k := 0 to h
      invariant SameOutside(before, out[..], place, place + 4 * h)
      invariant Combined(t, x, step, out[..], place, h, k)
    {
      ghost var a := out[..];
      KeptBins(t, Evens(x), 2 * step, before, a, place + 4 * h, h);
      KeptBins(t, Odds(x), 2 * step, before, a, place + 6 * h, h);
      CombineOne(t, x, out, place, h, step, k);
      OneMoreCombined(t, x, step, a, out[..], place, h, k);
    }
    CombinedIsAll(t, x, step, out[..], place, h);
  }

  method CombineOne(t: Table, ghost x: seq<real>, out: array<real>, place: nat, h: nat, step: nat, k: nat)
    requires Roots(t) && |x| == 2 * h && Turns(t, 2 * h, step) && place + 8 * h <= out.Length && k < h
    requires HoldsBins(t, Evens(x), 2 * step, out[..], place + 4 * h, h)
    requires HoldsBins(t, Odds(x), 2 * step, out[..], place + 6 * h, h)
    modifies out
    ensures OnlyPair(old(out[..]), out[..], place, h, k)
    ensures PairRight(t, x, step, out[..], place, h, k)
  {
    Twiddle(t, h, step, k);
    ghost var a := out[..];
    Butterfly(out, place, h, t.cos[k * step], -t.sin[k * step], k);
    PairFromHalves(t, x, step, a, out[..], place, h, k);
  }

  lemma PairFromHalves(t: Table, x: seq<real>, step: nat, a: seq<real>, b: seq<real>, place: nat, h: nat, k: nat)
    requires Roots(t) && |x| == 2 * h && Turns(t, 2 * h, step) && place + 8 * h <= |a| == |b| && k < h && k * step < Size(t)
    requires HoldsBins(t, Evens(x), 2 * step, a, place + 4 * h, h) && HoldsBins(t, Odds(x), 2 * step, a, place + 6 * h, h)
    requires Stored(b, place, k) == Plus(Stored(a, place + 4 * h, k), Times(Entry(t, k * step), Stored(a, place + 6 * h, k)))
    requires Stored(b, place, k + h) == Minus(Stored(a, place + 4 * h, k), Times(Entry(t, k * step), Stored(a, place + 6 * h, k)))
    ensures PairRight(t, x, step, b, place, h, k)
  {
    Twiddle(t, h, step, k);
    assert Stored(a, place + 4 * h, k) == Bin(t, Evens(x), 2 * step, k);
    assert Stored(a, place + 6 * h, k) == Bin(t, Odds(x), 2 * step, k);
    LowBin(t, x, step, k);
    HighBin(t, x, step, k);
  }

  lemma OneMoreCombined(t: Table, x: seq<real>, step: nat, a: seq<real>, b: seq<real>, place: nat, h: nat, k: nat)
    requires Sized(t) && k < h && place + 4 * h <= |a| == |b| && Combined(t, x, step, a, place, h, k)
    requires OnlyPair(a, b, place, h, k) && PairRight(t, x, step, b, place, h, k)
    ensures Combined(t, x, step, b, place, h, k + 1)
  {
    forall i: nat | i < k ensures PairRight(t, x, step, b, place, h, i) {
      assert PairRight(t, x, step, a, place, h, i);
      assert Stored(b, place, i) == Stored(a, place, i);
      assert Stored(b, place, i + h) == Stored(a, place, i + h);
    }
  }

  /** The recursive transform: it leaves the bins of the naive one, keeps the samples, and stays
      inside 2n numbers of the input buffer and 6n of the output buffer. */
  method Transform(t: Table, input: array<real>, at: nat, n: nat, out: array<real>, place: nat, ghost step: nat)
    requires Roots(t) && Turns(t, n, step) && input != out && at + 2 * n <= input.Length && place + 6 * n <= out.Length
    modifies input, out
    ensures HoldsBins(t, old(Samples(input, at, n)), step, out[..], place, n)
    ensures SameOutside(old(input[..]), input[..], at + n, at + 2 * n)
    ensures SameOutside(old(out[..]), out[..], place, place + 6 * n)
    decreases n, 2
  {
    ghost var x := Samples(input, at, n);
    if n == 1 {
      SingleBin(t, x, step);
      out[place] := input[at];
      out[place + 1] := 0.0;
      return;
    }
    var h := n / 2;
    if n - h * 2 == 1 {
      Dft(t, input, at, n, out, place, step);
      return;
    }
    TransformEven(t, input, at, h, out, place, step);
  }

  /** The halves of 2h samples, and their butterflies. */
  method TransformEven(t: Table, input: array<real>, at: nat, h: nat, out: array<real>, place: nat, ghost step: nat)
    requires Roots(t) && Turns(t, 2 * h, step) && input != out && at + 4 * h <= input.Length && place + 12 * h <= out.Length
    modifies input, out
    ensures HoldsBins(t, old(Samples(input, at, 2 * h)), step, out[..], place, 2 * h)
    ensures SameOutside(old(input[..]), input[..], at + 2 * h, at + 4 * h)
    ensures SameOutside(old(out[..]), out[..], place, place + 12 * h)
    decreases 2 * h, 1
  {
    ghost var x := Samples(input, at, 2 * h);
    var n := 2 * h;
    TransformHalf(t, input, at, h, false, out, place + 2 * n, step);
    ghost var evens := out[..];
    TransformHalf(t, input, at, h, true, out, place + 3 * n, step);
    KeptBins(t, Evens(x), 2 * step, evens, out[..], place + 4 * h, h);
    var turn := Size(t) / n;
    StepIs(t, n, step);
    Combine(t, x, out, place, h, turn);
  }

  /** Transforms every second sample, with the rest of the input buffer as room to work in. */
  method TransformHalf(t: Table, input: array<real>, at: nat, h: nat, odd: bool, out: array<real>, place: nat, ghost step: nat)
    requires Roots(t) && Turns(t, 2 * h, step) && input != out && at + 4 * h <= input.Length && place + 6 * h <= out.Length
    modifies input, out
    ensures var x := old(Samples(input, at, 2 * h));
            HoldsBins(t, if odd then Odds(x) else Evens(x), 2 * step, out[..], place, h)
    ensures SameOutside(old(input[..]), input[..], at + 2 * h, at + 4 * h)
    ensures Samples(input, at, 2 * h) == old(Samples(input, at, 2 * h))
    ensures SameOutside(old(out[..]), out[..], place, place + 6 * h)
    decreases 2 * h, 0
  {
    HalfTheSamples(t, 2 * h, step);
    ghost var x := Samples(input, at, 2 * h);
    Gather(input, at, h, odd);
    Transform(t, input, at + 2 * h, h, out, place, 2 * step);
    assert Samples(input, at, 2 * h) == x;
  }

  // ----- a table

  /** Quarter turns: the sines and cosines of the table of size 4. */
  const QUARTERS := Table([1.0, 0.0, -1.0, 0.0], [0.0, 1.0, 0.0, -1.0])

  lemma QuarterEntries()
    ensures Entry(QUARTERS, 0) == Complex(1.0, 0.0) && Entry(QUARTERS, 1) == Complex(0.0, -1.0)
    ensures Entry(QUARTERS, 2) == Complex(-1.0, 0.0) && Entry(QUARTERS, 3) == Complex(0.0, 1.0)
  {
  }

  /** a turned back by j quarters. */
  function Turned(a: Complex, j: nat): Complex
    requires j < 4
  {
    if j == 0 then a else if j == 1 then Complex(a.im, -a.re) else if j == 2 then Complex(-a.re, -a.im) else Complex(-a.im, a.re)
  }

  lemma TimesIsTurned(a: Complex, j: nat)
    requires j < 4
    ensures Times(a, Entry(QUARTERS, j)) == Turned(a, j)
  {
    QuarterEntries();
    if j == 0 {
      assert Entry(QUARTERS, j) == Complex(1.0, 0.0);
    } else if j == 1 {
      assert Entry(QUARTERS, j) == Complex(0.0, -1.0);
    } else if j == 2 {
      assert Entry(QUARTERS, j) == Complex(-1.0, 0.0);
    } else {
      assert Entry(QUARTERS, j) == Complex(0.0, 1.0);
    }
  }

  lemma EntryIsTurned(i: nat, j: nat)
    requires i < 4 && j < 4
    ensures Entry(QUARTERS, (i + j) % 4) == Turned(Entry(QUARTERS, i), j)
  {
    QuarterEntries();
    if i + j < 4 {
      assert (i + j) % 4 == i + j;
    } else {
      assert (i + j) % 4 == i + j - 4;
    }
  }

  /** There is a table that obeys the laws. */
  lemma QuartersAreRoots()
    ensures Roots(QUARTERS)
  {
    QuarterEntries();
    forall i: nat, j: nat | i < 4 && j < 4 ensures Multiplies(QUARTERS, i, j) {
      TimesIsTurned(Entry(QUARTERS, i), j);
      EntryIsTurned(i, j);
    }
  }
}
