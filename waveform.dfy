/** The overview waveform drawn inside a clip: 200 bars, each the mean
    absolute sample value of one block of channel 0, normalised by the
    loudest bar. Division follows JavaScript numbers: 0 / 0 is NaN and a
    positive value over 0 is Infinity, so a too-short or silent channel
    yields NaN bars rather than zeros. */
module Waveform {
  import AudioTypes

  /** A JavaScript number as it can arise here. */
  datatype Amplitude = Finite(value: real) | Infinity | NaN

  /** Number of bars getWaveformData produces. */
  const Bars: nat := 200

  predicate NonNegative(a: Amplitude) {
    a.Finite? ==> a.value >= 0.0
  }

  function Abs(x: real): (r: real)
    ensures r >= 0.0 && (r == x || r == -x)
  {
    if x < 0.0 then -x else x
  }

  /** Sum of |channel[start + j]| for j < count. */
  function BlockSum(channel: seq<real>, start: nat, count: nat): (sum: real)
    requires start + count <= |channel|
    ensures sum >= 0.0
  {
    if count == 0 then 0.0 else BlockSum(channel, start, count - 1) + Abs(channel[start + count - 1])
  }

  /** Samples per bar: floor(length / 200). */
  function BlockSize(channel: seq<real>): nat {
    |channel| / Bars
  }

  lemma BucketInRange(i: nat, blockSize: nat, length: nat)
    requires i < Bars && blockSize == length / Bars
    ensures i * blockSize + blockSize <= length
  {
    assert length == Bars * blockSize + length % Bars;
    AudioTypes.MulMonotone(i + 1, Bars, blockSize);
  }

  /** Bar i's block ends within the first Bars * blockSize samples. */
  lemma BucketWithinBars(i: nat, blockSize: nat)
    requires i < Bars
    ensures i * blockSize + blockSize <= Bars * blockSize
  {
    AudioTypes.MulMonotone(i + 1, Bars, blockSize);
    assert (i + 1) * blockSize == i * blockSize + blockSize;
  }

  /** sum / blockSize for bar i; with an empty block the sum is 0 and 0 / 0 is NaN. */
  function BucketMean(channel: seq<real>, i: nat): (a: Amplitude)
    requires i < Bars
    ensures NonNegative(a) && !a.Infinity?
    ensures a.NaN? <==> BlockSize(channel) == 0
  {
    var blockSize := BlockSize(channel);
    BucketInRange(i, blockSize, |channel|);
    if blockSize == 0 then NaN
    else Finite(BlockSum(channel, i * blockSize, blockSize) / blockSize as real)
  }

  /** The 200 unnormalised bars. */
  function RawLevels(channel: seq<real>): (raw: seq<Amplitude>)
    ensures |raw| == Bars
  {
    seq(Bars, i requires 0 <= i < Bars => BucketMean(channel, i))
  }

  /** Math.max of two numbers: NaN if either is NaN. */
  function Max2(a: Amplitude, b: Amplitude): Amplitude {
    if a.NaN? || b.NaN? then NaN
    else if a.Infinity? || b.Infinity? then Infinity
    else if a.value >= b.value then a else b
  }

  /** Math.max(...s) for a non-empty s. */
  function MaxOf(s: seq<Amplitude>): (m: Amplitude)
    requires |s| > 0
    ensures m.NaN? <==> exists k :: 0 <= k < |s| && s[k].NaN?
    ensures m.Finite? ==> forall k :: 0 <= k < |s| ==> s[k].Finite? && s[k].value <= m.value
    ensures m.Finite? ==> exists k :: 0 <= k < |s| && s[k] == m
    ensures (forall k :: 0 <= k < |s| ==> NonNegative(s[k])) ==> NonNegative(m)
    ensures (forall k :: 0 <= k < |s| ==> !s[k].Infinity?) ==> !m.Infinity?
  {
    if |s| == 1 then s[0]
    else
      var m := Max2(MaxOf(s[..|s| - 1]), s[|s| - 1]);
      assert forall k :: 0 <= k < |s| - 1 ==> s[..|s| - 1][k] == s[k];
      m
  }

  /** v / m for the non-negative numbers that occur here. */
  function Ratio(v: Amplitude, m: Amplitude): (r: Amplitude)
    requires NonNegative(v) && NonNegative(m)
    ensures v.Finite? && m.Finite? && m.value > 0.0 ==> r == Finite(v.value / m.value)
    ensures v.NaN? || m.NaN? ==> r.NaN?
  {
    match (v, m)
    case (NaN, _) => NaN
    case (_, NaN) => NaN
    case (Infinity, Infinity) => NaN
    case (Infinity, Finite(_)) => Infinity
    case (Finite(_), Infinity) => Finite(0.0)
    case (Finite(a), Finite(b)) =>
      if b > 0.0 then Finite(a / b) else if a == 0.0 then NaN else Infinity
  }

  /** The bars getWaveformData returns for a decoded channel 0. */
  function Levels(channel: seq<real>): (levels: seq<Amplitude>)
    ensures |levels| == Bars
  {
    var raw := RawLevels(channel);
    var m := MaxOf(raw);
    seq(Bars, i requires 0 <= i < Bars => Ratio(raw[i], m))
  }

  /** getWaveformData's two loops and its normalisation: bar i sums the absolute
      values of block i, divides by the block size, and every bar is divided
      by the largest. */
  method BucketLevels(channelData: seq<real>) returns (levels: seq<Amplitude>)
    ensures levels == Levels(channelData)
  {
    var samples := Bars;
    var blockSize := |channelData| / samples;
    var waveform: seq<Amplitude> := [];
    for i := 0 to samples
      invariant waveform == RawLevels(channelData)[..i]
    {
      BucketInRange(i, blockSize, |channelData|);
      var sum := 0.0;
      for j := 0 to blockSize
        invariant sum == BlockSum(channelData, i * blockSize, j)
      {
        sum := sum + Abs(channelData[i * blockSize + j]);
      }
      waveform := waveform + [if blockSize == 0 then NaN else Finite(sum / blockSize as real)];
    }
    assert waveform == RawLevels(channelData);
    var max := MaxOf(waveform);
    levels := seq(samples, k requires 0 <= k < samples => Ratio(waveform[k], max));
  }

  /** A block sums to zero exactly when every sample in it is zero. */
  lemma {:induction false} BlockSumZero(channel: seq<real>, start: nat, count: nat)
    requires start + count <= |channel|
    ensures BlockSum(channel, start, count) == 0.0
        <==> forall j :: start <= j < start + count ==> channel[j] == 0.0
  {
    if count > 0 {
      BlockSumZero(channel, start, count - 1);
    }
  }

  /** A channel shorter than 200 samples gives 200 NaN bars. */
  lemma ShortChannelAllNaN(channel: seq<real>)
    requires |channel| < Bars
    ensures forall i :: 0 <= i < Bars ==> Levels(channel)[i].NaN?
  {
    var raw := RawLevels(channel);
    assert raw[0].NaN?;
  }

  /** With at least one block per bar, a channel whose covered samples are all
      zero gives 200 NaN bars too (every mean is 0 and 0 / 0 is NaN). */
  lemma SilentChannelAllNaN(channel: seq<real>)
    requires forall j :: 0 <= j < Bars * BlockSize(channel) ==> channel[j] == 0.0
    ensures forall i :: 0 <= i < Bars ==> Levels(channel)[i].NaN?
  {
    var blockSize := BlockSize(channel);
    if blockSize > 0 {
      var raw := RawLevels(channel);
      forall i | 0 <= i < Bars
        ensures raw[i] == Finite(0.0)
      {
        BucketInRange(i, blockSize, |channel|);
        BucketWithinBars(i, blockSize);
        BlockSumZero(channel, i * blockSize, blockSize);
      }
      var m := MaxOf(raw);
      assert m == Finite(0.0);
    } else {
      ShortChannelAllNaN(channel);
    }
  }

  /** Sample k lies in bar k / blockSize. */
  lemma SampleInBar(k: nat, blockSize: nat)
    requires blockSize > 0 && k < Bars * blockSize
    ensures k / blockSize < Bars
    ensures (k / blockSize) * blockSize <= k < (k / blockSize) * blockSize + blockSize
  {
  }

  /** A channel of at least 200 samples with a non-zero sample in the covered
      region gives 200 finite bars in [0, 1], and the loudest bar is exactly 1. */
  lemma AudibleChannelNormalised(channel: seq<real>, k: nat)
    requires k < Bars * BlockSize(channel) && channel[k] != 0.0
    ensures forall i :: 0 <= i < Bars ==>
      Levels(channel)[i].Finite? && 0.0 <= Levels(channel)[i].value <= 1.0
    ensures exists i :: 0 <= i < Bars && Levels(channel)[i] == Finite(1.0)
  {
    var blockSize := BlockSize(channel);
    var raw := RawLevels(channel);
    var b := k / blockSize;
    SampleInBar(k, blockSize);
    BucketInRange(b, blockSize, |channel|);
    BlockSumZero(channel, b * blockSize, blockSize);
    var sum := BlockSum(channel, b * blockSize, blockSize);
    assert sum > 0.0;
    assert raw[b] == Finite(sum / blockSize as real);
    var m := MaxOf(raw);
    assert m.Finite? && m.value > 0.0 by {
      assert !raw[b].NaN?;
      assert raw[b].Finite? && raw[b].value <= m.value;
    }
    forall i | 0 <= i < Bars
      ensures Levels(channel)[i].Finite? && 0.0 <= Levels(channel)[i].value <= 1.0
    {
      RatioUnit(raw[i], m);
    }
    var peak :| 0 <= peak < Bars && raw[peak] == m;
    RatioUnit(raw[peak], m);
    assert Levels(channel)[peak] == Finite(1.0);
  }

  /** A finite non-negative value over a positive maximum it does not exceed lies in [0, 1]. */
  lemma RatioUnit(v: Amplitude, m: Amplitude)
    requires v.Finite? && m.Finite? && 0.0 <= v.value <= m.value && m.value > 0.0
    ensures Ratio(v, m).Finite? && 0.0 <= Ratio(v, m).value <= 1.0
    ensures v == m ==> Ratio(v, m) == Finite(1.0)
  {
  }

  /** Samples after the last full block never influence the bars. */
  lemma IgnoresRemainder(a: seq<real>, b: seq<real>)
    requires BlockSize(a) == BlockSize(b)
    requires a[..Bars * BlockSize(a)] == b[..Bars * BlockSize(b)]
    ensures Levels(a) == Levels(b)
  {
    var blockSize := BlockSize(a);
    forall i | 0 <= i < Bars
      ensures RawLevels(a)[i] == RawLevels(b)[i]
    {
      BucketInRange(i, blockSize, |a|);
      BucketWithinBars(i, blockSize);
      BlockSumPrefix(a, b, i * blockSize, blockSize, Bars * blockSize);
    }
    assert RawLevels(a) == RawLevels(b);
  }

  lemma {:induction false} BlockSumPrefix(a: seq<real>, b: seq<real>, start: nat, count: nat, n: nat)
    requires start + count <= n <= |a| && n <= |b| && a[..n] == b[..n]
    ensures BlockSum(a, start, count) == BlockSum(b, start, count)
  {
    if count > 0 {
      BlockSumPrefix(a, b, start, count - 1, n);
      assert a[start + count - 1] == a[..n][start + count - 1];
    }
  }
}
