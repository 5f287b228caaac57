/** Conversion to the canonical form: downmix to mono and linear interpolation to the target
    rate. Positions between samples are exact rationals here. */
module Resample {
  import opened Arithmetic
  import opened Pcm

  const TARGET_RATE := 44100

  /** Go's integer division, for a positive divisor. */
  function TruncDiv(a: int, b: int): int
    requires b > 0
  {
    if a >= 0 then a / b else -((-a) / b)
  }

  /** int32 arithmetic. */
  function Int32(v: int): int {
    var m := v % 0x1_0000_0000;
    if m < 0x8000_0000 then m else m - 0x1_0000_0000
  }

  function Abs(v: int): int {
    if v < 0 then -v else v
  }

  /** q is v / d with the fraction cut off: q * d is the multiple of d next to v toward zero. */
  ghost predicate IsTruncated(q: int, v: int, d: int) {
    Abs(q * d) <= Abs(v) < Abs(q * d) + d && q * v >= 0
  }

  lemma TruncDivTruncates(v: int, d: int)
    requires d > 0
    ensures IsTruncated(TruncDiv(v, d), v, d)
  {
    var q := Abs(v) / d;
    DivMod(Abs(v), d);
    FloorMonotone(0, Abs(v), d);
    assert (-q) * d == -(q * d);
    if v >= 0 {
      assert q * v >= 0;
    } else {
      assert (-q) * v == q * -v >= 0;
    }
  }

  lemma TruncDivBounds(a: int, b: int, lo: int, hi: int)
    requires b > 0 && lo * b <= a <= hi * b
    ensures lo <= TruncDiv(a, b) <= hi
  {
    assert (-hi) * b == -(hi * b) && (-lo) * b == -(lo * b);
    if a >= 0 {
      FloorBounds(a, b, lo, hi);
    } else {
      FloorBounds(-a, b, -hi, -lo);
    }
  }

  lemma TruncDivMonotone(a: int, a': int, b: int)
    requires b > 0 && a <= a'
    ensures TruncDiv(a, b) <= TruncDiv(a', b)
  {
    FloorMonotone(a, a', b);
    FloorMonotone(-a', -a, b);
    FloorMonotone(0, if a' >= 0 then a' else -a', b);
    FloorMonotone(0, if a >= 0 then a else -a, b);
  }

  // ---- Downmix ----

  /** The sum of n samples from position start. */
  function FrameSum(pcm: seq<Sample>, start: nat, n: nat): int
    requires start + n <= |pcm|
  {
    if n == 0 then 0 else FrameSum(pcm, start, n - 1) + pcm[start + n - 1]
  }

  lemma {:induction false} FrameSumBounds(pcm: seq<Sample>, start: nat, n: nat, lo: int, hi: int)
    requires start + n <= |pcm|
    requires forall k :: start <= k < start + n ==> lo <= pcm[k] <= hi
    ensures lo * n <= FrameSum(pcm, start, n) <= hi * n
  {
    if n > 0 {
      FrameSumBounds(pcm, start, n - 1, lo, hi);
      assert lo * (n - 1) + lo == lo * n && hi * (n - 1) + hi == hi * n;
    }
  }

  /** A frame sum is what it has to be: zero for silence, and a changed sample changes it by the
      difference if it is in the frame, and not at all otherwise. */
  lemma {:induction false} FrameSumIsAdditive(pcm: seq<Sample>, start: nat, n: nat, k: nat, v: Sample)
    requires start + n <= |pcm| && k < |pcm|
    ensures FrameSum(pcm[k := v], start, n)
         == FrameSum(pcm, start, n) + if start <= k < start + n then v - pcm[k] else 0
    ensures (forall j :: start <= j < start + n ==> pcm[j] == 0) ==> FrameSum(pcm, start, n) == 0
  {
    if n > 0 {
      FrameSumIsAdditive(pcm, start, n - 1, k, v);
    }
  }

  /** One sample for each whole frame: the mean of its samples, cut off toward zero. */
  ghost predicate IsDownmix(pcm: seq<Sample>, channels: nat, mono: seq<Sample>)
    requires channels > 0
  {
    && |mono| == |pcm| / channels
    && forall i :: 0 <= i < |mono| ==>
      i * channels + channels <= |pcm| && IsTruncated(mono[i], FrameSum(pcm, i * channels, channels), channels)
  }

  lemma FrameInside(length: nat, channels: nat, i: nat)
    requires channels > 0 && i < length / channels
    ensures i * channels + channels <= length
  {
    var q := length / channels;
    DivMod(length, channels);
    MulLess(q, i + 1, channels);
    assert (i + 1) * channels == i * channels + channels;
  }

  /** The mono sample of frame i. */
  function MonoSample(pcm: seq<Sample>, channels: nat, i: nat): int
    requires channels > 0 && i * channels + channels <= |pcm|
  {
    TruncDiv(FrameSum(pcm, i * channels, channels), channels)
  }

  /** A mono sample lies between any bounds of its frame. */
  lemma MonoSampleBetween(pcm: seq<Sample>, channels: nat, i: nat, lo: int, hi: int)
    requires channels > 0 && i * channels + channels <= |pcm|
    requires forall k :: i * channels <= k < i * channels + channels ==> lo <= pcm[k] <= hi
    ensures lo <= MonoSample(pcm, channels, i) <= hi
  {
    FrameSumBounds(pcm, i * channels, channels, lo, hi);
    TruncDivBounds(FrameSum(pcm, i * channels, channels), channels, lo, hi);
  }

  /** The int32 accumulator does not overflow for any channel count a file can declare. */
  lemma AccumulatorFits(pcm: seq<Sample>, start: nat, n: nat)
    requires start + n <= |pcm| && n <= 65535
    ensures Int32(FrameSum(pcm, start, n)) == FrameSum(pcm, start, n)
  {
    FrameSumBounds(pcm, start, n, -32768, 32767);
  }

  /** The frame of one mono sample: the inner loop. */
  method SumFrame(pcm: seq<Sample>, start: nat, channels: nat) returns (sum: int)
    requires start + channels <= |pcm| && channels <= 65535
    ensures sum == FrameSum(pcm, start, channels)
  {
    sum := 0;
    for ch := 0 to channels
      invariant sum == FrameSum(pcm, start, ch)
    {
      AccumulatorFits(pcm, start, ch + 1);
      sum := Int32(sum + pcm[start + ch]);
    }
  }

  method Downmix(pcm: seq<Sample>, channels: nat) returns (mono: seq<Sample>)
    requires 0 < channels <= 65535
    ensures |mono| == |pcm| / channels
    ensures forall i :: 0 <= i < |mono| ==>
      i * channels + channels <= |pcm| && mono[i] == MonoSample(pcm, channels, i)
    ensures IsDownmix(pcm, channels, mono)
  {
    var result := new Sample[|pcm| / channels];
    for i := 0 to result.Length
      invariant forall k :: 0 <= k < i ==>
        k * channels + channels <= |pcm| && result[k] == MonoSample(pcm, channels, k)
    {
      FrameInside(|pcm|, channels, i);
      var sum := SumFrame(pcm, i * channels, channels);
      MonoSampleBetween(pcm, channels, i, -32768, 32767);
      result[i] := Int16(TruncDiv(sum, channels));
    }
    mono := result[..];
    MonoIsDownmix(pcm, channels, mono);
  }

  lemma MonoIsDownmix(pcm: seq<Sample>, channels: nat, mono: seq<Sample>)
    requires channels > 0 && |mono| == |pcm| / channels
    requires forall i :: 0 <= i < |mono| ==>
      i * channels + channels <= |pcm| && mono[i] == MonoSample(pcm, channels, i)
    ensures IsDownmix(pcm, channels, mono)
  {
    forall i | 0 <= i < |mono|
      ensures IsTruncated(mono[i], FrameSum(pcm, i * channels, channels), channels)
    {
      TruncDivTruncates(FrameSum(pcm, i * channels, channels), channels);
    }
  }

  // ---- Interpolation ----

  /** Output position i lies at source position i * src / dst. */
  lemma PositionInside(n: nat, src: nat, dst: nat, i: nat)
    requires src > 0 && dst > 0 && i < n * dst / src
    ensures i * src / dst < n
  {
    DivMod(n * dst, src);
    MulLess(i, n * dst / src, src);
    DivMod(i * src, dst);
    MulLess(i * src / dst, n, dst);
  }

  /** The index after idx0, or idx0 itself at the end. */
  function Next(n: nat, idx0: nat): nat
    requires idx0 < n
  {
    if idx0 + 1 >= n then n - 1 else idx0 + 1
  }

  /** dst times the interpolated value r / dst of the way from sample idx0 to the next. */
  function Interpolated(pcm: seq<Sample>, dst: nat, idx0: nat, r: nat): int
    requires idx0 < |pcm|
  {
    pcm[idx0] * (dst - r) + pcm[Next(|pcm|, idx0)] * r
  }

  /** That value, truncated toward zero. */
  function SampleFrom(pcm: seq<Sample>, dst: nat, idx0: nat, r: nat): int
    requires dst > 0 && idx0 < |pcm|
  {
    TruncDiv(Interpolated(pcm, dst, idx0, r), dst)
  }

  lemma InterpolatedBetween(pcm: seq<Sample>, dst: nat, idx0: nat, r: nat, lo: int, hi: int)
    requires idx0 < |pcm| && r <= dst
    requires lo <= pcm[idx0] <= hi && lo <= pcm[Next(|pcm|, idx0)] <= hi
    ensures lo * dst <= Interpolated(pcm, dst, idx0, r) <= hi * dst
  {
    var a, b := pcm[idx0], pcm[Next(|pcm|, idx0)];
    assert lo * (dst - r) <= a * (dst - r) <= hi * (dst - r);
    assert lo * r <= b * r <= hi * r;
    assert lo * (dst - r) + lo * r == lo * dst && hi * (dst - r) + hi * r == hi * dst;
  }

  lemma SampleFromBetween(pcm: seq<Sample>, dst: nat, idx0: nat, r: nat, lo: int, hi: int)
    requires dst > 0 && idx0 < |pcm| && r <= dst
    requires lo <= pcm[idx0] <= hi && lo <= pcm[Next(|pcm|, idx0)] <= hi
    ensures lo <= SampleFrom(pcm, dst, idx0, r) <= hi
  {
    InterpolatedBetween(pcm, dst, idx0, r, lo, hi);
    TruncDivBounds(Interpolated(pcm, dst, idx0, r), dst, lo, hi);
  }

  /** The arithmetic of the loop body. */
  method InterpolateAt(pcm: seq<Sample>, dst: nat, idx0: nat, r: nat) returns (s: Sample)
    requires dst > 0 && idx0 < |pcm| && r <= dst
    ensures s == SampleFrom(pcm, dst, idx0, r)
  {
    var idx1 := idx0 + 1;
    if idx1 >= |pcm| {
      idx1 := |pcm| - 1;
    }
    var val := TruncDiv(pcm[idx0] * (dst - r) + pcm[idx1] * r, dst);
    SampleFromBetween(pcm, dst, idx0, r, -32768, 32767);
    s := Int16(val);
  }

  /** s is output sample i. */
  ghost predicate IsSampleAt(pcm: seq<Sample>, src: nat, dst: nat, i: nat, s: int) {
    dst > 0 && i * src / dst < |pcm| && s == SampleFrom(pcm, dst, i * src / dst, i * src % dst)
  }

  /** Output sample i lies at position i * src / dst of the input, so r / dst of the way from
      sample p to the next: it is the value there on the straight line between them, cut off
      toward zero. Behind the last sample the line is level. */
  ghost predicate IsOnLine(pcm: seq<Sample>, src: nat, dst: nat, i: nat, s: int)
    requires dst > 0
  {
    var p, r := i * src / dst, i * src % dst;
    p < |pcm| &&
    IsTruncated(s, if p + 1 < |pcm| then pcm[p] * (dst - r) + pcm[p + 1] * r else pcm[p] * dst, dst)
  }

  ghost predicate IsInterpolation(pcm: seq<Sample>, src: nat, dst: nat, out: seq<Sample>)
    requires src > 0 && dst > 0
  {
    && |out| == |pcm| * dst / src
    && forall i :: 0 <= i < |out| ==> IsOnLine(pcm, src, dst, i, out[i])
  }

  lemma Level(x: int, dst: int, r: int)
    ensures x * (dst - r) + x * r == x * dst
  {
  }

  lemma FromIsOnLine(pcm: seq<Sample>, dst: nat, p: nat, r: nat)
    requires dst > 0 && p < |pcm|
    ensures IsTruncated(SampleFrom(pcm, dst, p, r),
                        if p + 1 < |pcm| then pcm[p] * (dst - r) + pcm[p + 1] * r else pcm[p] * dst, dst)
  {
    TruncDivTruncates(Interpolated(pcm, dst, p, r), dst);
    Level(pcm[p], dst, r);
  }

  lemma SampleIsOnLine(pcm: seq<Sample>, src: nat, dst: nat, i: nat, s: int)
    requires dst > 0 && IsSampleAt(pcm, src, dst, i, s)
    ensures IsOnLine(pcm, src, dst, i, s)
  {
    var p, r := i * src / dst, i * src % dst;
    FromIsOnLine(pcm, dst, p, r);
  }

  /** Both neighbours of an output sample exist, and it lies between them. */
  lemma SampleBetweenNeighbours(pcm: seq<Sample>, src: nat, dst: nat, i: nat, s: int)
    requires src > 0 && dst > 0 && i < |pcm| * dst / src && IsSampleAt(pcm, src, dst, i, s)
    ensures var a := i * src / dst;
      var b := Next(|pcm|, a);
      && a < |pcm| && b < |pcm|
      && (pcm[a] <= s <= pcm[b] || pcm[b] <= s <= pcm[a])
  {
    var a := i * src / dst;
    var b := Next(|pcm|, a);
    DivMod(i * src, dst);
    SampleFromBetween(pcm, dst, a, i * src % dst,
                      if pcm[a] < pcm[b] then pcm[a] else pcm[b], if pcm[a] < pcm[b] then pcm[b] else pcm[a]);
  }

  method Interpolate(pcm: seq<Sample>, src: nat, dst: nat) returns (out: seq<Sample>)
    requires src > 0 && dst > 0
    ensures |out| == |pcm| * dst / src
    ensures forall i :: 0 <= i < |out| ==> IsSampleAt(pcm, src, dst, i, out[i])
    ensures IsInterpolation(pcm, src, dst, out)
  {
    var resampled := new Sample[|pcm| * dst / src];
    for i := 0 to resampled.Length
      invariant forall k :: 0 <= k < i ==> IsSampleAt(pcm, src, dst, k, resampled[k])
    {
      PositionInside(|pcm|, src, dst, i);
      DivMod(i * src, dst);
      resampled[i] := InterpolateAt(pcm, dst, i * src / dst, i * src % dst);
      assert IsSampleAt(pcm, src, dst, i, resampled[i]);
    }
    out := resampled[..];
    forall i | 0 <= i < |out|
      ensures IsOnLine(pcm, src, dst, i, out[i])
    {
      SampleIsOnLine(pcm, src, dst, i, out[i]);
    }
  }

  // ---- The whole conversion ----

  ghost predicate Within(pcm: seq<Sample>, lo: int, hi: int) {
    forall i :: 0 <= i < |pcm| ==> lo <= pcm[i] <= hi
  }

  /** resampleToTarget, to mono at the target rate. Channel counts come from a 16-bit field.
      The output never leaves the range of the input. */
  method ResampleToTarget(pcm: seq<Sample>, srcRate: nat, srcChannels: nat)
    returns (out: seq<Sample>, ghost mono: seq<Sample>)
    requires srcRate > 0 && srcChannels <= 65535
    ensures srcRate == 44100 && srcChannels <= 1 ==> out == pcm
    ensures var frames := if srcChannels > 1 then |pcm| / srcChannels else |pcm|;
      |out| == if srcRate == 44100 then frames else frames * 44100 / srcRate
    ensures forall lo, hi :: Within(pcm, lo, hi) ==> Within(out, lo, hi)
    // The samples are those of the downmix, if there is one, and then of the interpolation to 44.1 kHz.
    ensures if srcChannels > 1 then IsDownmix(pcm, srcChannels, mono) else mono == pcm
    ensures if srcRate == 44100 then out == mono else IsInterpolation(mono, srcRate, 44100, out)
  {
    out, mono := pcm, pcm;
    if srcRate == TARGET_RATE && srcChannels == 1 {
      return;
    }
    if srcChannels > 1 {
      out := Downmix(out, srcChannels);
      forall lo, hi | Within(pcm, lo, hi) {
        DownmixWithin(pcm, srcChannels, out, lo, hi);
      }
    }
    mono := out;
    if srcRate != TARGET_RATE {
      out := Interpolate(out, srcRate, TARGET_RATE);
      forall lo, hi | Within(mono, lo, hi) {
        InterpolateWithin(mono, srcRate, TARGET_RATE, out, lo, hi);
      }
    }
  }

  lemma DownmixWithin(pcm: seq<Sample>, channels: nat, mono: seq<Sample>, lo: int, hi: int)
    requires channels > 0 && Within(pcm, lo, hi)
    requires forall i :: 0 <= i < |mono| ==>
      i * channels + channels <= |pcm| && mono[i] == MonoSample(pcm, channels, i)
    ensures Within(mono, lo, hi)
  {
    forall i | 0 <= i < |mono|
      ensures lo <= mono[i] <= hi
    {
      MonoSampleBetween(pcm, channels, i, lo, hi);
    }
  }

  lemma InterpolateWithin(pcm: seq<Sample>, src: nat, dst: nat, out: seq<Sample>, lo: int, hi: int)
    requires src > 0 && dst > 0 && |out| == |pcm| * dst / src && Within(pcm, lo, hi)
    requires forall i :: 0 <= i < |out| ==> IsSampleAt(pcm, src, dst, i, out[i])
    ensures Within(out, lo, hi)
  {
    forall i | 0 <= i < |out|
      ensures lo <= out[i] <= hi
    {
      SampleBetweenNeighbours(pcm, src, dst, i, out[i]);
    }
  }

  // ---- Order ----

  ghost predicate Nondecreasing(pcm: seq<Sample>) {
    forall i, j :: 0 <= i <= j < |pcm| ==> pcm[i] <= pcm[j]
  }

  lemma PositionMonotone(src: nat, dst: nat, i: nat, j: nat)
    requires dst > 0 && i <= j
    ensures i * src / dst <= j * src / dst
    ensures i * src / dst == j * src / dst ==> i * src % dst <= j * src % dst
  {
    assert j * src == i * src + (j - i) * src;
    assert (j - i) * src >= 0;
    FloorMonotone(i * src, j * src, dst);
    DivMod(i * src, dst);
    DivMod(j * src, dst);
  }

  lemma OrderWithinStep(pcm: seq<Sample>, dst: nat, p: nat, r: nat, t: nat)
    requires dst > 0 && p < |pcm| && r <= t && Nondecreasing(pcm)
    ensures SampleFrom(pcm, dst, p, r) <= SampleFrom(pcm, dst, p, t)
  {
    var a, b := pcm[p], pcm[Next(|pcm|, p)];
    assert (b - a) * (t - r) >= 0;
    assert a * (dst - t) + b * t == a * (dst - r) + b * r + (b - a) * (t - r);
    TruncDivMonotone(Interpolated(pcm, dst, p, r), Interpolated(pcm, dst, p, t), dst);
  }

  lemma OrderAcrossSteps(pcm: seq<Sample>, dst: nat, p: nat, r: nat, q: nat, t: nat)
    requires dst > 0 && p < q < |pcm| && r <= dst && t <= dst && Nondecreasing(pcm)
    ensures SampleFrom(pcm, dst, p, r) <= SampleFrom(pcm, dst, q, t)
  {
    SampleFromBetween(pcm, dst, p, r, pcm[p], pcm[q]);
    SampleFromBetween(pcm, dst, q, t, pcm[q], pcm[Next(|pcm|, q)]);
  }

  /** A nondecreasing input gives a nondecreasing output, truncation included. */
  lemma InterpolationKeepsOrder(pcm: seq<Sample>, src: nat, dst: nat, i: nat, j: nat, s: int, s': int)
    requires dst > 0 && i <= j && Nondecreasing(pcm)
    requires IsSampleAt(pcm, src, dst, i, s) && IsSampleAt(pcm, src, dst, j, s')
    ensures s <= s'
  {
    PositionMonotone(src, dst, i, j);
    DivMod(i * src, dst);
    DivMod(j * src, dst);
    var p, q := i * src / dst, j * src / dst;
    if p == q {
      OrderWithinStep(pcm, dst, p, i * src % dst, j * src % dst);
    } else {
      OrderAcrossSteps(pcm, dst, p, i * src % dst, q, j * src % dst);
    }
  }

  /** A straight line is reproduced up to truncation, as far as there are samples on both sides. */
  lemma LineIsReproduced(pcm: seq<Sample>, src: nat, dst: nat, out: seq<Sample>, a: int, b: int, i: nat)
    requires src > 0 && dst > 0 && IsInterpolation(pcm, src, dst, out) && i < |out|
    requires forall k :: 0 <= k < |pcm| ==> pcm[k] == a + b * k
    requires i * src / dst + 1 < |pcm| || i * src % dst == 0
    ensures IsTruncated(out[i], a * dst + b * (i * src), dst)
  {
    var p, r := i * src / dst, i * src % dst;
    var s: int := out[i];
    assert IsOnLine(pcm, src, dst, i, out[i]);
    var x := i * src;
    PositionSplits(x, dst);
    LineAt(pcm, dst, p, r, s, a, b, x);
  }

  lemma LineAt(pcm: seq<Sample>, dst: nat, p: nat, r: nat, s: int, a: int, b: int, x: int)
    requires p < |pcm| && (p + 1 < |pcm| || r == 0) && forall k :: 0 <= k < |pcm| ==> pcm[k] == a + b * k
    requires IsTruncated(s, if p + 1 < |pcm| then pcm[p] * (dst - r) + pcm[p + 1] * r else pcm[p] * dst, dst)
    requires x == p * dst + r
    ensures IsTruncated(s, a * dst + b * x, dst)
  {
    LineValue(pcm, a, b, p, r, dst);
  }

  lemma PositionSplits(x: nat, dst: nat)
    requires dst > 0
    ensures x / dst * dst + x % dst == x
  {
    DivMod(x, dst);
  }

  lemma LineValue(pcm: seq<Sample>, a: int, b: int, p: nat, r: nat, dst: nat)
    requires p < |pcm| && (p + 1 < |pcm| || r == 0) && forall k :: 0 <= k < |pcm| ==> pcm[k] == a + b * k
    ensures (if p + 1 < |pcm| then pcm[p] * (dst - r) + pcm[p + 1] * r else pcm[p] * dst) == a * dst + b * (p * dst + r)
  {
    LineSum(a, b, p, r, dst);
  }

  lemma LineSum(a: int, b: int, p: int, r: int, dst: int)
    ensures (a + b * p) * (dst - r) + (a + b * (p + 1)) * r == a * dst + b * (p * dst + r)
    ensures (a + b * p) * dst == a * dst + b * (p * dst)
  {
    var x := a + b * p;
    assert a + b * (p + 1) == x + b;
    assert x * (dst - r) + (x + b) * r == x * dst + b * r;
    assert x * dst == a * dst + b * p * dst;
    assert b * p * dst == b * (p * dst);
    assert b * (p * dst + r) == b * (p * dst) + b * r;
  }

  /** For instance half way between two samples. */
  lemma HalfWay(out: seq<Sample>)
    requires IsInterpolation([0, 100], 22050, 44100, out)
    ensures out == [0, 50, 100, 100]
  {
    assert IsOnLine([0, 100], 22050, 44100, 0, out[0]) && IsOnLine([0, 100], 22050, 44100, 1, out[1]);
    assert IsOnLine([0, 100], 22050, 44100, 2, out[2]) && IsOnLine([0, 100], 22050, 44100, 3, out[3]);
  }

  /** An output sample that falls on a source sample copies it. */
  lemma ExactPositionsAreCopied(pcm: seq<Sample>, src: nat, dst: nat, i: nat, s: int)
    requires IsSampleAt(pcm, src, dst, i, s) && i * src % dst == 0
    ensures s == pcm[i * src / dst]
  {
    var x := pcm[i * src / dst];
    TruncDivBounds(x * dst, dst, x, x);
  }
}
