/** The mixer panel's derived values: whether any track is soloed, which
    strips show as muted, the level each strip's meter reads from the
    analyser's byte snapshot, and the dB readout under each fader. */
module Mixer {
  import opened AudioTypes

  /** tracks.some(t => t.solo). */
  function HasSolo(tracks: seq<Track>): (r: bool)
    ensures r <==> exists k :: 0 <= k < |tracks| && tracks[k].solo
  {
    if |tracks| == 0 then false
    else
      assert forall k :: 1 <= k < |tracks| ==> tracks[1..][k - 1] == tracks[k];
      tracks[0].solo || HasSolo(tracks[1..])
  }

  /** A strip is shown muted when its own mute is on, or when another track
      is soloed and this one is not. */
  predicate EffectiveMuted(t: Track, hasSolo: bool) {
    t.muted || (hasSolo && !t.solo)
  }

  /** The three consequences of the rule: mute always wins; without any solo
      the strip follows its own mute; an unmuted soloed strip is never muted. */
  lemma EffectiveMutedRules(t: Track, hasSolo: bool)
    ensures t.muted ==> EffectiveMuted(t, hasSolo)
    ensures !hasSolo ==> (EffectiveMuted(t, hasSolo) <==> t.muted)
    ensures !t.muted && t.solo ==> !EffectiveMuted(t, hasSolo)
  {
  }

  /** Within a track list, strip i is live exactly when it is unmuted and
      either it is soloed or no track is. */
  lemma StripLive(tracks: seq<Track>, i: nat)
    requires i < |tracks|
    ensures !EffectiveMuted(tracks[i], HasSolo(tracks)) <==>
      !tracks[i].muted && (tracks[i].solo || forall k :: 0 <= k < |tracks| ==> !tracks[k].solo)
  {
  }

  /** floor(a / b) over the reals is the integer quotient a / b. */
  lemma FloorOfQuotient(a: nat, b: nat)
    requires b > 0
    ensures (a as real / b as real).Floor == a / b
  {
    var q, r := a / b, a % b;
    assert a as real == q as real * b as real + r as real;
    assert a as real / b as real == q as real + r as real / b as real;
    assert 0.0 <= r as real / b as real < 1.0;
  }

  /** Math.floor((index / trackCount) * dataLength): strip `index` of
      `trackCount` reads the analyser bin at the same fraction of the data,
      which is the integer index * dataLength / trackCount and always a valid bin. */
  function DataIndex(index: nat, trackCount: nat, dataLength: nat): (k: int)
    requires index < trackCount && dataLength > 0
    ensures k == index * dataLength / trackCount
    ensures 0 <= k < dataLength
  {
    var x := index as real / trackCount as real * dataLength as real;
    assert x == (index * dataLength) as real / trackCount as real;
    FloorOfQuotient(index * dataLength, trackCount);
    assert index * dataLength < trackCount * dataLength;
    x.Floor
  }

  /** getMeterLevel(index): 0 with no analyser data, otherwise the byte at the
      strip's bin (DataIndex) divided by 255, so always within [0, 1]. */
  function MeterLevel(index: nat, trackCount: nat, analyserData: seq<uint8>): (level: real)
    requires index < trackCount
    ensures 0.0 <= level <= 1.0
    ensures |analyserData| == 0 ==> level == 0.0
    ensures |analyserData| > 0 ==>
      level * 255.0 == analyserData[DataIndex(index, trackCount, |analyserData|)] as real
  {
    if |analyserData| == 0 then 0.0
    else
      var byte := analyserData[DataIndex(index, trackCount, |analyserData|)];
      assert 0 <= byte as int <= 255;
      byte as real / 255.0
  }

  /** The meter height of strip `index`: 0 for a strip shown muted, the
      analyser level otherwise. */
  function StripMeter(tracks: seq<Track>, index: nat, analyserData: seq<uint8>): (level: real)
    requires index < |tracks|
    ensures 0.0 <= level <= 1.0
    ensures EffectiveMuted(tracks[index], HasSolo(tracks)) ==> level == 0.0
    ensures !EffectiveMuted(tracks[index], HasSolo(tracks)) ==> level == MeterLevel(index, |tracks|, analyserData)
  {
    if EffectiveMuted(tracks[index], HasSolo(tracks)) then 0.0 else MeterLevel(index, |tracks|, analyserData)
  }

  /** A master meter: (analyserData[channel] || 0) / 255, where a missing
      byte reads as 0. */
  function MasterMeter(analyserData: seq<uint8>, channel: nat): (level: real)
    ensures 0.0 <= level <= 1.0
    ensures channel >= |analyserData| ==> level == 0.0
    ensures channel < |analyserData| ==> level * 255.0 == analyserData[channel] as real
  {
    if channel < |analyserData| then analyserData[channel] as real / 255.0 else 0.0
  }

  /** Math.round: the nearest integer, halves rounded up. */
  function Round(x: real): (n: int)
    ensures n as real - 0.5 <= x < n as real + 0.5
  {
    (x + 0.5).Floor
  }

  /** What the readout under a fader shows. */
  datatype DbReadout = MinusInfinity | Decibels(db: int)

  /** The readout for a volume (a track's or the master's): "-∞" at exactly 0,
      otherwise (volume - 1) * 12 rounded, in whole dB. */
  function Readout(volume: real): (r: DbReadout)
    ensures r.MinusInfinity? <==> volume == 0.0
    ensures r.Decibels? ==> r.db as real - 0.5 <= (volume - 1.0) * 12.0 < r.db as real + 0.5
  {
    if volume == 0.0 then MinusInfinity else Decibels(Round((volume - 1.0) * 12.0))
  }

  /** Over the fader's range (0, 1] the readout runs from -12 dB to 0 dB, and
      full volume reads 0 dB. */
  lemma ReadoutRange(volume: real)
    requires 0.0 < volume <= 1.0
    ensures Readout(volume).Decibels?
    ensures -12 <= Readout(volume).db <= 0
    ensures volume == 1.0 ==> Readout(volume) == Decibels(0)
  {
  }

  /** The readout never decreases as the fader goes up. */
  lemma ReadoutMonotone(v: real, w: real)
    requires 0.0 < v <= w
    ensures Readout(v).db <= Readout(w).db
  {
    assert (v - 1.0) * 12.0 + 0.5 <= (w - 1.0) * 12.0 + 0.5;
  }
}
