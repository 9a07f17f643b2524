/** Offline mixdown for export: a fresh stereo 44.1 kHz context whose length
    is the duration in frames, one gain and pan stage per unmuted track, and
    one scheduled voice per clip that has a decoded buffer. What the renderer
    produces from that graph is an input here; the model states what graph
    the exporter builds and that the bytes returned are the WAV encoding of
    the rendered buffer. */
module Export {
  import opened AudioTypes
  import opened Scheduling
  import opened Wav

  const ExportSampleRate: nat := 44100
  const ExportChannels: nat := 2

  /** The gain and pan of one unmuted track's offline stage. */
  datatype OfflineStage = OfflineStage(gain: real, pan: real)

  /** A clip's voice in the offline graph: it plays `buffer` through `stage`,
      starting at arrangement time `when` and reading from `sourceOffset`. */
  datatype Placement = Placement(clipId: string, buffer: AudioBuffer, stage: OfflineStage, when: real, sourceOffset: real)

  /** What exportMix resolves to: the WAV bytes together with the graph they
      were rendered from, or the NotSupportedError the offline context throws
      for a zero length. */
  datatype ExportResult =
    | Exported(stages: seq<OfflineStage>, placements: seq<Placement>, wav: seq<uint8>)
    | NotSupportedError

  /** The length argument `duration * 44100` as an unsigned long: the fraction
      is dropped toward zero and the value taken modulo 2^32. */
  function FrameCount(duration: real): (frames: nat)
    ensures frames < 0x1_0000_0000
    ensures 0.0 <= duration * 44100.0 < 4294967296.0 ==>
      frames as real <= duration * 44100.0 < frames as real + 1.0
  {
    Trunc(duration * 44100.0) % 0x1_0000_0000
  }

  /** A track's stage: its volume as gain (a muted track has none) and its pan. */
  function StageOf(t: Track): OfflineStage {
    OfflineStage(t.volume, t.pan)
  }

  /** The voice for a clip: started at the clip's own start time, from its trim. */
  function Place(c: AudioClip, t: Track, buffers: map<string, AudioBuffer>): (p: Placement)
    requires c.id in buffers
    ensures p.clipId == c.id && p.buffer == buffers[c.id] && p.stage == StageOf(t)
  {
    Placement(c.id, buffers[c.id], StageOf(t), c.startTime, c.offset)
  }

  /** Stages for the unmuted tracks, in track order. */
  function OfflineStages(tracks: seq<Track>): seq<OfflineStage> {
    if |tracks| == 0 then []
    else
      var last := tracks[|tracks| - 1];
      OfflineStages(tracks[..|tracks| - 1]) + (if last.muted then [] else [StageOf(last)])
  }

  /** Voices for the buffered clips among `clips`, in clip order. */
  function ClipPlacements(clips: seq<AudioClip>, t: Track, buffers: map<string, AudioBuffer>): seq<Placement> {
    if |clips| == 0 then []
    else
      var c := clips[|clips| - 1];
      ClipPlacements(clips[..|clips| - 1], t, buffers) + (if c.id in buffers then [Place(c, t, buffers)] else [])
  }

  /** Voices for every unmuted track's buffered clips, track by track. */
  function OfflinePlacements(tracks: seq<Track>, buffers: map<string, AudioBuffer>): seq<Placement> {
    if |tracks| == 0 then []
    else
      var last := tracks[|tracks| - 1];
      OfflinePlacements(tracks[..|tracks| - 1], buffers)
        + (if last.muted then [] else ClipPlacements(last.clips, last, buffers))
  }

  /** exportMix's loop: skip muted tracks, give each other track a stage, and
      schedule each of its clips that has a buffer. */
  method BuildOfflineGraph(tracks: seq<Track>, buffers: map<string, AudioBuffer>)
    returns (stages: seq<OfflineStage>, placements: seq<Placement>)
    ensures stages == OfflineStages(tracks)
    ensures placements == OfflinePlacements(tracks, buffers)
  {
    stages := [];
    placements := [];
    for i := 0 to |tracks|
      invariant stages == OfflineStages(tracks[..i])
      invariant placements == OfflinePlacements(tracks[..i], buffers)
    {
      var track := tracks[i];
      assert tracks[..i + 1][..i] == tracks[..i];
      if track.muted {
        continue;
      }
      stages := stages + [StageOf(track)];
      ghost var before := placements;
      for j := 0 to |track.clips|
        invariant placements == before + ClipPlacements(track.clips[..j], track, buffers)
      {
        var clip := track.clips[j];
        assert track.clips[..j + 1][..j] == track.clips[..j];
        if clip.id in buffers {
          placements := placements + [Placement(clip.id, buffers[clip.id], StageOf(track), clip.startTime, clip.offset)];
        }
      }
      assert track.clips[..|track.clips|] == track.clips;
    }
    assert tracks[..|tracks|] == tracks;
  }

  /** A voice is scheduled exactly for each buffered clip of an unmuted track. */
  lemma {:induction false} OfflinePlacementsMeaning(tracks: seq<Track>, buffers: map<string, AudioBuffer>, p: Placement)
    ensures p in OfflinePlacements(tracks, buffers) <==>
      exists t, c :: t in tracks && !t.muted && c in t.clips && c.id in buffers && p == Place(c, t, buffers)
  {
    if |tracks| > 0 {
      var init := tracks[..|tracks| - 1];
      var last := tracks[|tracks| - 1];
      OfflinePlacementsMeaning(init, buffers, p);
      if !last.muted {
        ClipPlacementsMeaning(last.clips, last, buffers, p);
      }
      assert forall t :: t in tracks <==> t in init || t == last;
    }
  }

  lemma {:induction false} ClipPlacementsMeaning(clips: seq<AudioClip>, t: Track, buffers: map<string, AudioBuffer>, p: Placement)
    ensures p in ClipPlacements(clips, t, buffers) <==>
      exists c :: c in clips && c.id in buffers && p == Place(c, t, buffers)
  {
    if |clips| > 0 {
      var init := clips[..|clips| - 1];
      ClipPlacementsMeaning(init, t, buffers, p);
      assert forall c :: c in clips <==> c in init || c == clips[|clips| - 1];
    }
  }

  /** One stage per unmuted track. */
  lemma {:induction false} OfflineStagesCount(tracks: seq<Track>)
    ensures |OfflineStages(tracks)| == |set k | 0 <= k < |tracks| && !tracks[k].muted|
  {
    if |tracks| > 0 {
      var n := |tracks| - 1;
      OfflineStagesCount(tracks[..n]);
      var before := set k | 0 <= k < n && !tracks[..n][k].muted;
      var after := set k | 0 <= k < |tracks| && !tracks[k].muted;
      assert before == set k | 0 <= k < n && !tracks[k].muted;
      if tracks[n].muted {
        assert after == before;
      } else {
        assert after == before + {n};
      }
    }
  }

  /** An exported voice is timed as the live engine times it when playing from
      0 with the clock at 0, for a clip that starts at or after 0; its stage
      has the gain the live engine gives the unmuted track. */
  lemma ExportMatchesLiveFromZero(c: AudioClip, t: Track, buffers: map<string, AudioBuffer>)
    requires c.id in buffers && !t.muted && c.startTime >= 0.0
    ensures Place(c, t, buffers).when == VoiceStartAt(c.startTime, 0.0, 0.0)
    ensures Place(c, t, buffers).sourceOffset == VoiceSourceOffset(c.offset, c.startTime, 0.0)
    ensures Place(c, t, buffers).stage.gain == (if t.muted then 0.0 else t.volume)
  {
  }

  /** exportMix: a zero frame count is refused by the offline context; otherwise
      the graph is built, `rendered` (the renderer's two channels of `frames`
      samples) is wrapped as a 44.1 kHz buffer and encoded as WAV. */
  method ExportMix(tracks: seq<Track>, duration: real, buffers: map<string, AudioBuffer>,
                   rendered: seq<seq<real>>) returns (r: ExportResult)
    requires FrameCount(duration) > 0 ==>
      |rendered| == ExportChannels && forall c :: 0 <= c < |rendered| ==> |rendered[c]| == FrameCount(duration)
    ensures FrameCount(duration) == 0 <==> r.NotSupportedError?
    ensures r.Exported? ==>
      && r.stages == OfflineStages(tracks)
      && r.placements == OfflinePlacements(tracks, buffers)
      && r.wav == WavFile(AudioBuffer(ExportSampleRate, FrameCount(duration), rendered))
  {
    var frames := FrameCount(duration);
    if frames == 0 {
      return NotSupportedError;
    }
    var stages, placements := BuildOfflineGraph(tracks, buffers);
    var renderedBuffer := AudioBuffer(ExportSampleRate, frames, rendered);
    var wav := AudioBufferToWav(renderedBuffer);
    r := Exported(stages, placements, wav);
  }

  /** The exported file carries the header for two channels at 44100 Hz and
      4 * frames data bytes (whose fields read back as HeaderFormat and
      HeaderSizes state), followed by four bytes per frame. */
  lemma ExportedWavLayout(frames: nat, rendered: seq<seq<real>>)
    requires |rendered| == ExportChannels && forall c :: 0 <= c < |rendered| ==> |rendered[c]| == frames
    ensures var w := WavFile(AudioBuffer(ExportSampleRate, frames, rendered));
      |w| == 44 + 4 * frames && w[..44] == Header(2, 44100, 4 * frames)
  {
    var b := AudioBuffer(ExportSampleRate, frames, rendered);
    assert b.length * (|b.channels| * 2) == 4 * frames;
    WavLength(b);
  }
}
