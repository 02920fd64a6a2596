/** src/FIR.c: the convolution engine, the windowed-sinc filter designer and
    the orchestrator that filters the samples of a WAV record.

    Floating point is abstracted: weights are reals, PI is the literal of the
    source, sin and cos are parameters (Trig), and the float product of a
    sample and a weight together with its cast back to int16_t is a parameter
    too (Term). Everything the source does with integers and indices is kept:
    array lengths, loop bounds, the tap guard, the int16 accumulation and the
    centre-tap tests. */
module Fir {
  import opened FixedWidth
  import opened WavFile

  /** `(int16_t)(data[i-j] * filter[j])`: one tap's contribution, already
      truncated to int16_t. */
  type Term = (Int16, real) -> Int16

  /** sin and cos of math.h. */
  datatype Trig = Trig(sin: real -> real, cos: real -> real)

  const PI: real := 3.14159265358979

  // =====================================================================
  // Convolution engine: convolve
  // =====================================================================

  /** Tap j of output i reads a sample that exists. */
  predicate InBounds(i: int, j: int, dataSize: int)
  {
    0 <= i - j < dataSize
  }

  /** The tap guard as the source writes it: skip when i-j < 0 or
      i-j > data_size, which lets i-j == data_size through. */
  predicate AdmittedAsWritten(i: int, j: int, dataSize: int)
  {
    !(i - j < 0 || i - j > dataSize)
  }

  /** result[i] after the taps j < k have been added in, each truncated term
      stored back into the int16_t accumulator. An output none of whose taps
      reaches into the data stays at its initial zero. */
  function Accumulated(data: seq<Int16>, filter: seq<real>, term: Term, i: int, k: nat): (r: Int16)
    requires k <= |filter|
    ensures i < 0 || i - k + 1 >= |data| ==> r == 0
  {
    if k == 0 then 0
    else
      var acc := Accumulated(data, filter, term, i, k - 1);
      if InBounds(i, k - 1, |data|) then Wrap16(acc + term(data[i - (k - 1)], filter[k - 1])) else acc
  }

  /** The sum of the truncated terms of the in-bounds taps j < k, in
      unbounded integers. */
  function TermSum(data: seq<Int16>, filter: seq<real>, term: Term, i: int, k: nat): int
    requires k <= |filter|
  {
    if k == 0 then 0
    else TermSum(data, filter, term, i, k - 1)
         + (if InBounds(i, k - 1, |data|) then term(data[i - (k - 1)], filter[k - 1]) as int else 0)
  }

  /** The int16_t accumulator wraps the way a single narrowing of the exact
      sum of the truncated terms would. */
  lemma {:induction false} AccumulatedIsWrappedSum(data: seq<Int16>, filter: seq<real>, term: Term, i: int, k: nat)
    requires k <= |filter|
    ensures Accumulated(data, filter, term, i, k) == Wrap16(TermSum(data, filter, term, i, k))
  {
    if k > 0 {
      AccumulatedIsWrappedSum(data, filter, term, i, k - 1);
      if InBounds(i, k - 1, |data|) {
        WrapAbsorbs(TermSum(data, filter, term, i, k - 1), term(data[i - (k - 1)], filter[k - 1]));
      }
    }
  }

  /** The full convolution: data_size + filter_size - 1 outputs, output i
      being result[i] after every tap. */
  function Convolution(data: seq<Int16>, filter: seq<real>, term: Term): (r: seq<Int16>)
    requires |data| + |filter| >= 1
    ensures |r| == |data| + |filter| - 1
  {
    seq(|data| + |filter| - 1, i requires 0 <= i < |data| + |filter| - 1 => Accumulated(data, filter, term, i, |filter|))
  }

  /** Each output is the int16 wrap-around of the sum, over the taps j whose
      sample index i-j lies in the data, of the truncated term of that tap. */
  lemma ConvolutionIsWrappedSum(data: seq<Int16>, filter: seq<real>, term: Term, i: nat)
    requires |data| + |filter| >= 1 && i < |data| + |filter| - 1
    ensures Convolution(data, filter, term)[i] == Wrap16(TermSum(data, filter, term, i, |filter|))
  {
    AccumulatedIsWrappedSum(data, filter, term, i, |filter|);
  }

  /** convolve with the tap guard restricted to real samples: a fresh buffer
      of data_size + filter_size - 1 int16_t values, each zeroed and then
      accumulated tap by tap. */
  method Convolve(data: seq<Int16>, filter: seq<real>, term: Term) returns (result: seq<Int16>)
    requires |data| + |filter| >= 1
    ensures result == Convolution(data, filter, term)
  {
    var len := |data| + |filter| - 1;
    var buffer := new Int16[len];
    for i := 0 to len
      invariant forall p :: 0 <= p < i ==> buffer[p] == Accumulated(data, filter, term, p, |filter|)
    {
      buffer[i] := 0;
      for j := 0 to |filter|
        invariant buffer[i] == Accumulated(data, filter, term, i, j)
        invariant forall p :: 0 <= p < i ==> buffer[p] == Accumulated(data, filter, term, p, |filter|)
      {
        if !(i - j < 0 || i - j >= |data|) {
          buffer[i] := Wrap16(buffer[i] + term(data[i - j], filter[j]));
        }
      }
    }
    result := buffer[..];
  }

  /** A single-sample input gives the truncated filter weights back: the
      impulse response of the convolution is the filter. */
  lemma {:induction false} ImpulseTermSum(s: Int16, filter: seq<real>, term: Term, i: nat, k: nat)
    requires k <= |filter|
    ensures TermSum([s], filter, term, i, k) == if i < k then term(s, filter[i]) as int else 0
  {
    if k > 0 {
      ImpulseTermSum(s, filter, term, i, k - 1);
    }
  }

  lemma ImpulseResponse(s: Int16, filter: seq<real>, term: Term)
    ensures |Convolution([s], filter, term)| == |filter|
    ensures forall i :: 0 <= i < |filter| ==> Convolution([s], filter, term)[i] == term(s, filter[i])
  {
    forall i | 0 <= i < |filter|
      ensures Convolution([s], filter, term)[i] == term(s, filter[i])
    {
      ConvolutionIsWrappedSum([s], filter, term, i);
      ImpulseTermSum(s, filter, term, i, |filter|);
    }
  }

  /** A one-tap filter scales every sample by its weight and keeps the
      length. */
  lemma SingleTap(data: seq<Int16>, w: real, term: Term)
    ensures |Convolution(data, [w], term)| == |data|
    ensures forall i :: 0 <= i < |data| ==> Convolution(data, [w], term)[i] == term(data[i], w)
  {
    forall i | 0 <= i < |data|
      ensures Convolution(data, [w], term)[i] == term(data[i], w)
    {
      assert Accumulated(data, [w], term, i, 0) == 0;
    }
  }

  // ---------------------------------------------------------------------
  // The guard as written
  // ---------------------------------------------------------------------

  /** The as-written guard admits every in-bounds tap and exactly one more
      kind: the one whose sample index is data_size, one past the end. */
  lemma GuardAsWrittenAdmits(i: int, j: int, dataSize: nat)
    ensures AdmittedAsWritten(i, j, dataSize) <==> InBounds(i, j, dataSize) || i - j == dataSize
  {
  }

  /** With two taps or more, the as-written guard reads past the end of the
      data: some output i and tap j within the loop bounds pass the guard
      with sample index i - j == data_size. */
  lemma AsWrittenReadsPastEnd(dataSize: nat, filterSize: nat)
    requires filterSize >= 2
    ensures exists i, j :: 0 <= i < dataSize + filterSize - 1 && 0 <= j < filterSize
                           && AdmittedAsWritten(i, j, dataSize) && i - j == dataSize
  {
    assert AdmittedAsWritten(dataSize, 0, dataSize);
  }

  /** result[i] as the source computes it, `beyond` standing for the int16_t
      that lies just past the data in memory. */
  function AccumulatedAsWritten(data: seq<Int16>, beyond: Int16, filter: seq<real>, term: Term, i: int, k: nat): (r: Int16)
    requires k <= |filter|
    ensures i < 0 || i - k + 1 > |data| ==> r == 0
  {
    if k == 0 then 0
    else
      var acc := AccumulatedAsWritten(data, beyond, filter, term, i, k - 1);
      if AdmittedAsWritten(i, k - 1, |data|)
      then Wrap16(acc + term((data + [beyond])[i - (k - 1)], filter[k - 1]))
      else acc
  }

  /** The extra term the as-written guard adds to output i among the taps
      j < k: that of tap i - data_size, which reads the value past the end. */
  function PastEndTerm(dataSize: nat, beyond: Int16, filter: seq<real>, term: Term, i: int, k: nat): int
    requires k <= |filter|
  {
    if 0 <= i - dataSize < k then term(beyond, filter[i - dataSize]) as int else 0
  }

  /** The as-written accumulator wraps the exact sum of the in-bounds terms
      plus the extra term of the value past the end. */
  lemma {:induction false} AccumulatedAsWrittenIsWrappedSum(data: seq<Int16>, beyond: Int16, filter: seq<real>, term: Term, i: int, k: nat)
    requires k <= |filter|
    ensures AccumulatedAsWritten(data, beyond, filter, term, i, k)
            == Wrap16(TermSum(data, filter, term, i, k) + PastEndTerm(|data|, beyond, filter, term, i, k))
  {
    if k > 0 {
      var j := k - 1;
      AccumulatedAsWrittenIsWrappedSum(data, beyond, filter, term, i, j);
      var total := TermSum(data, filter, term, i, j) + PastEndTerm(|data|, beyond, filter, term, i, j);
      if AdmittedAsWritten(i, j, |data|) {
        var t: int := term((data + [beyond])[i - j], filter[j]);
        WrapAbsorbs(total, t);
        if InBounds(i, j, |data|) {
          assert (data + [beyond])[i - j] == data[i - j];
        } else {
          assert (data + [beyond])[i - j] == beyond;
        }
      }
    }
  }

  /** The as-written result: the same first data_size outputs, and every
      later output polluted by one extra term of the value past the end. */
  lemma AsWrittenPollutesTail(data: seq<Int16>, beyond: Int16, filter: seq<real>, term: Term, i: int, k: nat)
    requires k <= |filter|
    ensures AccumulatedAsWritten(data, beyond, filter, term, i, k)
            == Wrap16(Accumulated(data, filter, term, i, k) + PastEndTerm(|data|, beyond, filter, term, i, k))
  {
    AccumulatedAsWrittenIsWrappedSum(data, beyond, filter, term, i, k);
    AccumulatedIsWrappedSum(data, filter, term, i, k);
    WrapAbsorbs(TermSum(data, filter, term, i, k), PastEndTerm(|data|, beyond, filter, term, i, k));
  }

  /** The as-written convolution against the corrected one: the first
      data_size outputs agree, and each later output i carries one extra
      term, that of tap i - data_size applied to the value past the end. */
  lemma AsWrittenOutput(data: seq<Int16>, beyond: Int16, filter: seq<real>, term: Term, i: nat)
    requires |data| + |filter| >= 1 && i < |data| + |filter| - 1
    ensures i < |data| ==> AccumulatedAsWritten(data, beyond, filter, term, i, |filter|) == Convolution(data, filter, term)[i]
    ensures |data| <= i ==> AccumulatedAsWritten(data, beyond, filter, term, i, |filter|)
                            == Wrap16(Convolution(data, filter, term)[i] + term(beyond, filter[i - |data|]))
  {
    AsWrittenPollutesTail(data, beyond, filter, term, i, |filter|);
  }

  // =====================================================================
  // Ideal-filter weights: lowpass_filter, highpass_filter
  // =====================================================================

  /** Trunc of an integer is that integer. */
  lemma TruncOfInt(n: int)
    ensures Trunc(n as real) == n
  {
  }

  /** sin(2*PI*ft*d) / (PI*d): the ideal lowpass response at distance d from
      the centre of the filter. */
  function Sinc(sin: real -> real, ft: real, d: real): real
    requires d != 0.0
  {
    sin(2.0 * PI * ft * d) / (PI * d)
  }

  /** lowpass_filter(m, n, ft): 2*ft at the centre tap n == (int)(m/2),
      otherwise the sinc value at distance n - m/2. */
  function LowpassWeight(sin: real -> real, m: real, n: int, ft: real): real
  {
    if n == Trunc(m / 2.0) then 2.0 * ft
    else
      TruncOfInt(n);
      Sinc(sin, ft, n as real - m / 2.0)
  }

  /** highpass_filter(m, n, ft): 1 - 2*ft at the centre tap n == m/2 (a
      comparison of reals, no truncation), otherwise the negated sinc. */
  function HighpassWeight(sin: real -> real, m: real, n: int, ft: real): real
  {
    if n as real == m / 2.0 then 1.0 - 2.0 * ft
    else -1.0 * Sinc(sin, ft, n as real - m / 2.0)
  }

  // =====================================================================
  // Filter designer: compute_filter
  // =====================================================================

  /** The normalised cut-off ft = cutOff / F_sampling, a float division. */
  function CutOffRatio(cutOff: int, sampling: int): (ft: real)
    requires sampling != 0
    ensures ft * sampling as real == cutOff as real
  {
    cutOff as real / sampling as real
  }

  /** The window strings that multiply the weights; every other string means
      the rectangular window. */
  predicate Tapered(windowType: string)
  {
    windowType == "-hamming" || windowType == "-hanning" || windowType == "-blackman"
  }

  /** cos stays within [-1, 1]. */
  ghost predicate CosBounded(cos: real -> real)
  {
    forall x :: -1.0 <= cos(x) <= 1.0
  }

  /** The factor a tapering window applies to tap n of a filter of order m. */
  function WindowCoefficient(cos: real -> real, windowType: string, n: int, m: real): real
    requires Tapered(windowType) && m != 0.0
  {
    if windowType == "-hamming" then 0.54 - 0.46 * cos(2.0 * PI * (n as real) / m)
    else if windowType == "-hanning" then 0.5 - 0.5 * cos(2.0 * PI * (n as real) / m)
    else (0.42 - 0.5 * cos(2.0 * PI * (n as real) / m)) + 0.08 * cos(4.0 * PI * (n as real) / m)
  }

  /** The raw weight of tap n after the window pass: multiplied by the
      window coefficient for a tapering window, untouched otherwise. */
  function Windowed(cos: real -> real, windowType: string, raw: real, n: int, m: real): real
    requires Tapered(windowType) ==> m != 0.0
  {
    if Tapered(windowType) then raw * WindowCoefficient(cos, windowType, n, m) else raw
  }

  function RealAbs(x: real): real { if x < 0.0 then -x else x }

  /** Scaling by a factor within [-1, 1] does not increase the magnitude. */
  lemma ScaledByAtMostOne(x: real, c: real)
    ensures -1.0 <= c <= 1.0 ==> RealAbs(x * c) <= RealAbs(x)
  {
    if c < -1.0 || 1.0 < c {
    } else if x >= 0.0 {
      assert x * c <= x * 1.0 && x * c >= x * -1.0;
    } else {
      assert x * c >= x * 1.0 && x * c <= x * -1.0;
    }
  }

  /** For a cos within [-1, 1] the Hamming and Hanning factors lie in
      [0, 1] and the Blackman factor in [-0.16, 1]. */
  lemma WindowCoefficientBounds(cos: real -> real, windowType: string, n: int, m: real)
    requires Tapered(windowType) && m != 0.0 && CosBounded(cos)
    ensures -0.16 <= WindowCoefficient(cos, windowType, n, m) <= 1.0
    ensures windowType != "-blackman" ==> 0.0 <= WindowCoefficient(cos, windowType, n, m)
  {
    var x, y := 2.0 * PI * (n as real) / m, 4.0 * PI * (n as real) / m;
    assert -1.0 <= cos(x) <= 1.0 && -1.0 <= cos(y) <= 1.0;
  }

  /** For a cos within [-1, 1] the window pass never increases the magnitude
      of a weight. */
  lemma WindowNeverAmplifies(cos: real -> real, windowType: string, raw: real, n: int, m: real)
    requires (Tapered(windowType) ==> m != 0.0) && CosBounded(cos)
    ensures RealAbs(Windowed(cos, windowType, raw, n, m)) <= RealAbs(raw)
  {
    if Tapered(windowType) {
      var c := WindowCoefficient(cos, windowType, n, m);
      WindowCoefficientBounds(cos, windowType, n, m);
      ScaledByAtMostOne(raw, c);
    }
  }

  /** The unwindowed weight of tap n: highpass on an exact "-highpass",
      lowpass for every other string. */
  function Kernel(sin: real -> real, size: nat, ft: real, filterType: string, n: int): real
  {
    var m := (size - 1) as real;
    if filterType == "-highpass" then HighpassWeight(sin, m, n, ft) else LowpassWeight(sin, m, n, ft)
  }

  /** filter[n] as compute_filter leaves it. */
  function Tap(trig: Trig, ft: real, size: nat, filterType: string, windowType: string, n: int): real
    requires size != 1 || !Tapered(windowType)
  {
    Windowed(trig.cos, windowType, Kernel(trig.sin, size, ft, filterType, n), n, (size - 1) as real)
  }

  /** The weight vector of compute_filter. */
  function FilterWeights(trig: Trig, ft: real, size: nat, filterType: string, windowType: string): (f: seq<real>)
    requires size != 1 || !Tapered(windowType)
    ensures |f| == size
  {
    seq(size, n requires 0 <= n < size => Tap(trig, ft, size, filterType, windowType, n))
  }

  /** compute_filter: fill a buffer of filter_size weights, each the ideal
      weight of the chosen type, then multiplied in place by the window. */
  method ComputeFilter(trig: Trig, cutOff: int, sampling: int, size: nat, filterType: string, windowType: string)
    returns (filter: seq<real>)
    requires sampling != 0
    requires size != 1 || !Tapered(windowType)
    ensures filter == FilterWeights(trig, CutOffRatio(cutOff, sampling), size, filterType, windowType)
  {
    var weights := new real[size];
    var m := (size - 1) as real;
    var ft := cutOff as real / sampling as real;
    for n := 0 to size
      invariant forall k :: 0 <= k < n ==> weights[k] == Tap(trig, ft, size, filterType, windowType, k)
    {
      if filterType == "-highpass" {
        weights[n] := HighpassWeight(trig.sin, m, n, ft);
      } else {
        weights[n] := LowpassWeight(trig.sin, m, n, ft);
      }
      ghost var raw := weights[n];
      assert raw == Kernel(trig.sin, size, ft, filterType, n);
      if Tapered(windowType) {
        weights[n] := weights[n] * WindowCoefficient(trig.cos, windowType, n, m);
      }
      assert weights[n] == Windowed(trig.cos, windowType, raw, n, m);
    }
    filter := weights[..];
  }

  // ---------------------------------------------------------------------
  // Properties of the designer
  // ---------------------------------------------------------------------

  /** Any filter type other than "-highpass" designs the lowpass filter. */
  lemma UnknownTypeIsLowpass(trig: Trig, ft: real, size: nat, filterType: string, windowType: string)
    requires size != 1 || !Tapered(windowType)
    requires filterType != "-highpass"
    ensures FilterWeights(trig, ft, size, filterType, windowType)
            == FilterWeights(trig, ft, size, "-lowpass", windowType)
  {
    assert "-lowpass" != "-highpass";
    forall n | 0 <= n < size
      ensures Tap(trig, ft, size, filterType, windowType, n) == Tap(trig, ft, size, "-lowpass", windowType, n)
    {
      assert Kernel(trig.sin, size, ft, filterType, n) == Kernel(trig.sin, size, ft, "-lowpass", n);
    }
  }

  /** Any window other than the three tapering ones leaves every weight equal
      to the raw kernel value. */
  lemma UnknownWindowIsRectangular(trig: Trig, ft: real, size: nat, filterType: string, windowType: string)
    requires !Tapered(windowType)
    ensures forall n :: 0 <= n < size ==>
              FilterWeights(trig, ft, size, filterType, windowType)[n] == Kernel(trig.sin, size, ft, filterType, n)
  {
  }

  /** Truncating half of a natural number is its integer half. */
  lemma TruncHalf(k: nat)
    ensures Trunc(k as real / 2.0) == k / 2
  {
    var q := k / 2;
    assert k == 2 * q || k == 2 * q + 1;
    assert q as real <= k as real / 2.0 < q as real + 1.0;
  }

  /** For an odd filter size, m = filter_size - 1 is even and the lowpass
      test n == (int)(m/2) and the highpass test n == m/2 pick the same single
      tap, n = (filter_size - 1) / 2. */
  lemma CenterTapUnique(size: nat, n: int)
    requires size % 2 == 1
    ensures var m := (size - 1) as real;
            (n == Trunc(m / 2.0) <==> n == (size - 1) / 2)
            && (n as real == m / 2.0 <==> n == (size - 1) / 2)
  {
    TruncHalf(size - 1);
    assert ((size - 1) / 2) as real == (size - 1) as real / 2.0;
  }

  /** With an even filter size the two tests disagree: the lowpass kernel has
      a centre tap at (filter_size - 2) / 2, the highpass kernel none. */
  lemma EvenSizeCenterMismatch(size: nat, n: int)
    requires size >= 2 && size % 2 == 0
    ensures var m := (size - 1) as real;
            (n == Trunc(m / 2.0) <==> n == (size - 2) / 2) && n as real != m / 2.0
  {
    TruncHalf(size - 1);
    var q := (size - 2) / 2;
    assert (size - 1) as real / 2.0 == q as real + 0.5;
  }

  /** Centre taps of an odd-size filter: 2*ft for lowpass, 1 - 2*ft for
      highpass. */
  lemma CenterTapWeights(sin: real -> real, size: nat, ft: real)
    requires size % 2 == 1
    ensures Kernel(sin, size, ft, "-lowpass", (size - 1) / 2) == 2.0 * ft
    ensures Kernel(sin, size, ft, "-highpass", (size - 1) / 2) == 1.0 - 2.0 * ft
  {
    CenterTapUnique(size, (size - 1) / 2);
  }

  /** For an odd size the highpass kernel is the spectral inversion of the
      lowpass one: a unit impulse at the centre minus the lowpass weight. */
  lemma SpectralInversion(sin: real -> real, size: nat, ft: real, n: int)
    requires size % 2 == 1
    ensures Kernel(sin, size, ft, "-highpass", n)
            == (if n == (size - 1) / 2 then 1.0 else 0.0) - Kernel(sin, size, ft, "-lowpass", n)
  {
    CenterTapUnique(size, n);
  }

  /** sin is odd. */
  ghost predicate OddFunction(f: real -> real)
  {
    forall x, y :: x + y == 0.0 ==> f(y) == -f(x)
  }

  /** f takes equal values at points that add up to c. */
  ghost predicate ReflectsAbout(f: real -> real, c: real)
  {
    forall x, y :: x + y == c ==> f(x) == f(y)
  }

  /** Negating both the numerator and the denominator keeps a quotient. */
  lemma NegatedQuotient(a: real, b: real)
    requires b != 0.0
    ensures (-a) / (-b) == a / b
  {
  }

  /** For an odd sin the sinc value is even in the distance d. */
  lemma SincEven(sin: real -> real, ft: real, d: real)
    requires d != 0.0 && OddFunction(sin)
    ensures Sinc(sin, ft, -d) == Sinc(sin, ft, d)
  {
    var x := 2.0 * PI * ft * d;
    assert 2.0 * PI * ft * (-d) == -x;
    assert sin(-x) == -sin(x);
    assert PI * (-d) == -(PI * d);
    NegatedQuotient(sin(x), PI * d);
  }

  /** For an odd size and an odd sin, the kernel is symmetric about its
      centre: tap n equals tap m - n. */
  lemma KernelSymmetric(sin: real -> real, size: nat, ft: real, filterType: string, n: int)
    requires size % 2 == 1 && OddFunction(sin)
    ensures Kernel(sin, size, ft, filterType, n) == Kernel(sin, size, ft, filterType, size - 1 - n)
  {
    var m := (size - 1) as real;
    var n' := size - 1 - n;
    CenterTapUnique(size, n);
    CenterTapUnique(size, n');
    if n != (size - 1) / 2 {
      var d := n as real - m / 2.0;
      assert n' as real - m / 2.0 == -d;
      SincEven(sin, ft, d);
    }
  }

  /** c*x/m and c*y/m add up to c when x and y add up to m. */
  lemma SumOfQuotients(c: real, x: real, y: real, m: real)
    requires m != 0.0 && x + y == m
    ensures c * x / m + c * y / m == c
  {
    assert c * x / m + c * y / m == (c * x + c * y) / m;
    assert c * x + c * y == c * m;
  }

  lemma Reflect(f: real -> real, c: real, x: real, y: real)
    requires ReflectsAbout(f, c) && x + y == c
    ensures f(x) == f(y)
  {
  }

  /** For cos symmetric about 2*PI and 4*PI, each window coefficient is
      symmetric about the centre: coefficients n and n' agree when
      n + n' == m. */
  lemma WindowSymmetric(cos: real -> real, windowType: string, n: int, n': int, m: real)
    requires Tapered(windowType) && m != 0.0 && (n + n') as real == m
    requires ReflectsAbout(cos, 2.0 * PI) && ReflectsAbout(cos, 4.0 * PI)
    ensures WindowCoefficient(cos, windowType, n, m) == WindowCoefficient(cos, windowType, n', m)
  {
    var a, a' := 2.0 * PI * (n as real) / m, 2.0 * PI * (n' as real) / m;
    var b, b' := 4.0 * PI * (n as real) / m, 4.0 * PI * (n' as real) / m;
    SumOfQuotients(2.0 * PI, n as real, n' as real, m);
    SumOfQuotients(4.0 * PI, n as real, n' as real, m);
    Reflect(cos, 2.0 * PI, a, a');
    Reflect(cos, 4.0 * PI, b, b');
  }

  /** For an odd sin, every odd-size filter compute_filter designs is
      symmetric: weight n equals weight filter_size - 1 - n. A tapering
      window needs cos to reflect about 2*PI and 4*PI as well; the
      rectangular window needs nothing of cos. */
  lemma FilterSymmetric(trig: Trig, ft: real, size: nat, filterType: string, windowType: string, n: nat)
    requires size % 2 == 1 && (size != 1 || !Tapered(windowType))
    requires OddFunction(trig.sin)
    requires Tapered(windowType) ==> ReflectsAbout(trig.cos, 2.0 * PI) && ReflectsAbout(trig.cos, 4.0 * PI)
    requires n < size
    ensures FilterWeights(trig, ft, size, filterType, windowType)[n]
            == FilterWeights(trig, ft, size, filterType, windowType)[size - 1 - n]
  {
    var n' := size - 1 - n;
    KernelSymmetric(trig.sin, size, ft, filterType, n);
    if Tapered(windowType) {
      WindowSymmetric(trig.cos, windowType, n, n', (size - 1) as real);
    }
    MirroredTaps(trig, ft, size, filterType, windowType, n);
  }

  /** Weights n and filter_size - 1 - n agree when their kernel values and
      window coefficients do. */
  lemma MirroredTaps(trig: Trig, ft: real, size: nat, filterType: string, windowType: string, n: nat)
    requires (size != 1 || !Tapered(windowType)) && n < size
    requires Kernel(trig.sin, size, ft, filterType, n) == Kernel(trig.sin, size, ft, filterType, size - 1 - n)
    requires Tapered(windowType) ==>
               WindowCoefficient(trig.cos, windowType, n, (size - 1) as real)
               == WindowCoefficient(trig.cos, windowType, size - 1 - n, (size - 1) as real)
    ensures FilterWeights(trig, ft, size, filterType, windowType)[n]
            == FilterWeights(trig, ft, size, filterType, windowType)[size - 1 - n]
  {
    var f := FilterWeights(trig, ft, size, filterType, windowType);
    var n' := size - 1 - n;
    var m := (size - 1) as real;
    WindowedAgree(trig.cos, windowType, Kernel(trig.sin, size, ft, filterType, n), n, n', m);
    assert f[n] == Tap(trig, ft, size, filterType, windowType, n);
    assert f[n'] == Tap(trig, ft, size, filterType, windowType, n');
  }

  lemma WindowedAgree(cos: real -> real, windowType: string, raw: real, n: int, n': int, m: real)
    requires Tapered(windowType) ==> m != 0.0
    requires Tapered(windowType) ==> WindowCoefficient(cos, windowType, n, m) == WindowCoefficient(cos, windowType, n', m)
    ensures Windowed(cos, windowType, raw, n, m) == Windowed(cos, windowType, raw, n', m)
  {
  }

  // =====================================================================
  // Orchestrator: FIR_Filter
  // =====================================================================

  /** The filter size FIR_Filter uses: the least odd number not below the
      requested length. */
  function FilterSize(filterLength: int): (size: int)
    ensures size % 2 == 1
    ensures filterLength <= size <= filterLength + 1
  {
    if filterLength % 2 == 0 then filterLength + 1 else filterLength
  }

  /** FIR_Filter: force an odd size, design the filter at the record's sample
      rate, convolve the samples and extend the sample count by
      filter_size - 1; the header and chunk header are copied unchanged. */
  method FirFilter(trig: Trig, term: Term, audio: Wav, cutOff: int, filterLength: int, filterType: string, windowType: string)
    returns (result: Wav)
    requires audio.Valid()
    requires filterLength >= 0
    requires audio.header.sampleRate != 0
    requires FilterSize(filterLength) != 1 || !Tapered(windowType)
    ensures result.Valid()
    ensures result.header == audio.header && result.chunk == audio.chunk
    ensures result.noSamples == audio.noSamples + FilterSize(filterLength) - 1
    ensures result.samples
            == Convolution(audio.samples,
                           FilterWeights(trig, CutOffRatio(cutOff, audio.header.sampleRate), FilterSize(filterLength), filterType, windowType),
                           term)
  {
    result := audio;

    var filterSize := filterLength;
    if filterLength % 2 == 0 {
      filterSize := filterSize + 1;
    }

    var filter := ComputeFilter(trig, cutOff, result.header.sampleRate, filterSize, filterType, windowType);

    assert result.samples[..result.noSamples] == audio.samples;
    var samples := Convolve(result.samples[..result.noSamples], filter, term);
    result := result.(samples := samples);
    result := result.(noSamples := result.noSamples + filterSize - 1);
  }

  /** A cut-off at a quarter of the sample rate gives ft = 0.25. */
  lemma QuarterRatio(cutOff: int)
    requires cutOff != 0
    ensures CutOffRatio(cutOff, 4 * cutOff) == 0.25
  {
    var c := cutOff as real;
    assert (4 * cutOff) as real == 4.0 * c;
    assert c / (4.0 * c) == 0.25 by {
      assert 0.25 * (4.0 * c) == c;
    }
  }

  /** 100 samples through a 5-tap lowpass rectangular filter with the cut-off
      at a quarter of the sample rate: 104 output samples, centre weight 0.5. */
  lemma FiveTapScenario(trig: Trig, cutOff: int, data: seq<Int16>, term: Term)
    requires cutOff != 0 && |data| == 100
    ensures var f := FilterWeights(trig, CutOffRatio(cutOff, 4 * cutOff), FilterSize(5), "-lowpass", "-rectangular");
            |f| == 5 && f[2] == 0.5 && |Convolution(data, f, term)| == 104
  {
    QuarterRatio(cutOff);
    CenterTapWeights(trig.sin, 5, 0.25);
  }
}
