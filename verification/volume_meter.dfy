/** The volume figure emitted on every metering tick: the mean of the
    analyser's byte frequency bins divided by 128.

    The sum of at most 512 bytes is an exact integer, and dividing it by 512
    and then by 128 (both powers of two) is exact in double arithmetic, so
    the `real` quotient below is the value audio-recorder.ts emits. */
module VolumeMeter {
  import opened AudioEncoding

  /** The analyser's FFT size; its `frequencyBinCount` is half of it. */
  const FftSize: nat := 1024
  const BinCount: nat := FftSize / 2

  /** The reference the average is divided by. */
  const Reference: real := 128.0

  /** The loudest possible figure: every bin at 255. */
  const MaxVolume: real := 255.0 / 128.0

  /** Sum of the bins, accumulated from the front as the loop in audio-recorder.ts does. */
  function Sum(bins: seq<Byte>): (s: nat)
    ensures s <= 255 * |bins|
  {
    if |bins| == 0 then 0 else Sum(bins[..|bins| - 1]) + bins[|bins| - 1]
  }

  predicate AllSilent(bins: seq<Byte>) {
    forall i :: 0 <= i < |bins| ==> bins[i] == 0
  }

  predicate AllFull(bins: seq<Byte>) {
    forall i :: 0 <= i < |bins| ==> bins[i] == 255
  }

  /** A sum of bytes is zero exactly when every byte is. */
  lemma {:induction false} SumZero(bins: seq<Byte>)
    ensures Sum(bins) == 0 <==> AllSilent(bins)
  {
    if |bins| > 0 {
      var init := bins[..|bins| - 1];
      SumZero(init);
      assert forall i :: 0 <= i < |init| ==> init[i] == bins[i];
    }
  }

  /** A sum of bytes reaches its bound exactly when every byte is 255. */
  lemma {:induction false} SumFull(bins: seq<Byte>)
    ensures Sum(bins) == 255 * |bins| <==> AllFull(bins)
  {
    if |bins| > 0 {
      var init := bins[..|bins| - 1];
      SumFull(init);
      assert forall i :: 0 <= i < |init| ==> init[i] == bins[i];
    }
  }

  lemma {:induction false} SumMonotone(a: seq<Byte>, b: seq<Byte>)
    requires |a| == |b|
    requires forall i :: 0 <= i < |a| ==> a[i] <= b[i]
    ensures Sum(a) <= Sum(b)
  {
    if |a| > 0 {
      var n := |a| - 1;
      SumMonotone(a[..n], b[..n]);
    }
  }

  /** `(sum / length) / 128`. The figure lies in [0, 255/128] rather than the
      [0, 1] a comment beside it suggests; it is 0 exactly for a silent
      block and 255/128 exactly when every bin is saturated. */
  function Volume(bins: seq<Byte>): (v: real)
    requires |bins| > 0
    ensures 0.0 <= v <= MaxVolume
    ensures v == 0.0 <==> AllSilent(bins)
    ensures v == MaxVolume <==> AllFull(bins)
    ensures v * Reference * (|bins| as real) == Sum(bins) as real
  {
    SumZero(bins);
    SumFull(bins);
    Quotient(Sum(bins), |bins|);
    (Sum(bins) as real / |bins| as real) / Reference
  }

  /** The exact average of `n` bytes summing to `s`, and its range. */
  lemma Quotient(s: nat, n: nat)
    requires 0 < n
    requires s <= 255 * n
    ensures var q := s as real / n as real;
      && q * n as real == s as real
      && 0.0 <= q <= 255.0
      && (q == 0.0 <==> s == 0)
      && (q == 255.0 <==> s == 255 * n)
  {
  }

  /** Division by a positive amount keeps the order. */
  lemma DivideMonotone(x: real, y: real, d: real)
    requires x <= y
    requires d > 0.0
    ensures x / d <= y / d
  {
  }

  /** A louder spectrum, bin by bin, never gives a smaller figure. */
  lemma VolumeMonotone(a: seq<Byte>, b: seq<Byte>)
    requires 0 < |a| == |b|
    requires forall i :: 0 <= i < |a| ==> a[i] <= b[i]
    ensures Volume(a) <= Volume(b)
  {
    SumMonotone(a, b);
    DivideMonotone(Sum(a) as real, Sum(b) as real, |a| as real);
    DivideMonotone(Sum(a) as real / |a| as real, Sum(b) as real / |b| as real, Reference);
  }

  /** The metering loop as written: sum the bins one at a time, average, and
      normalise against 128. */
  method MeasureVolume(bins: seq<Byte>) returns (volume: real)
    requires |bins| > 0
    ensures volume == Volume(bins)
    ensures 0.0 <= volume <= MaxVolume
    ensures volume == 0.0 <==> AllSilent(bins)
  {
    var sum: nat := 0;
    for i := 0 to |bins|
      invariant sum == Sum(bins[..i])
    {
      assert bins[..i + 1][..i] == bins[..i];
      sum := sum + bins[i];
    }
    assert bins[..|bins|] == bins;
    var average := sum as real / |bins| as real;
    volume := average / Reference;
  }
}
