/** The audio engine hook as an object: its refs and state become fields that
    its operations update in place. The audio context's clock (`now`) and the
    results of fetching and decoding are parameters; the node graph is kept
    as the stage and voice maps of MixGraph. */
module Engine {
  import opened AudioTypes
  import opened MixGraph
  import opened Waveform
  import Wav
  import Export

  /** The transport: where playback was anchored, where it paused, whether it
      plays, and the position shown to the user. */
  datatype Transport = Transport(startTime: real, pauseTime: real, isPlaying: bool, currentTime: real)

  class AudioEngine {
    /** Whether the AudioContext (with its master gain and analyser) exists yet. */
    var hasContext: bool
    /** Decoded buffers by clip id. */
    var buffers: map<string, AudioBuffer>
    /** The most recently started voice of each clip id. */
    var sources: map<string, Voice>
    /** Per-track gain and pan stages. */
    var gainNodes: map<string, GainNode>
    var panNodes: map<string, PanNode>
    /** Track and voice nodes created so far; the next one gets this number. */
    var nodesCreated: nat
    /** Voice nodes on which stop() has been called. */
    var stopped: set<nat>
    var startTime: real
    var pauseTime: real
    var isPlaying: bool
    var currentTime: real

    function Graph(): MixGraph.Graph
      reads this
    {
      MixGraph.Graph(gainNodes, panNodes, sources, nodesCreated)
    }

    function TransportState(): Transport
      reads this
    {
      Transport(startTime, pauseTime, isPlaying, currentTime)
    }

    /** Nothing is created before the context is; the graph is well numbered. */
    ghost predicate Valid()
      reads this
    {
      && Graph().Valid()
      && (!hasContext ==> gainNodes == map[] && panNodes == map[] && sources == map[] && buffers == map[])
    }

    constructor()
      ensures Valid() && !hasContext
      ensures Graph() == MixGraph.Graph(map[], map[], map[], 0) && buffers == map[] && stopped == {}
      ensures TransportState() == Transport(0.0, 0.0, false, 0.0)
    {
      hasContext := false;
      buffers := map[];
      sources := map[];
      gainNodes := map[];
      panNodes := map[];
      nodesCreated := 0;
      stopped := {};
      startTime := 0.0;
      pauseTime := 0.0;
      isPlaying := false;
      currentTime := 0.0;
    }

    /** initAudioContext: create the context on first use, never again. */
    method InitAudioContext()
      requires Valid()
      modifies this
      ensures Valid() && hasContext
      ensures Graph() == old(Graph()) && buffers == old(buffers) && stopped == old(stopped)
      ensures TransportState() == old(TransportState())
    {
      if !hasContext {
        hasContext := true;
      }
    }

    /** loadAudioBuffer: `decoded` is what fetching and decoding the url gave
        (None when either failed). A decoded buffer is stored under the clip
        id, replacing any earlier one, and returned. */
    method LoadAudioBuffer(clipId: string, decoded: Option<AudioBuffer>) returns (r: Option<AudioBuffer>)
      requires Valid()
      modifies this
      ensures Valid() && hasContext
      ensures r == decoded
      ensures decoded.Some? ==> buffers == old(buffers)[clipId := decoded.value]
      ensures decoded.None? ==> buffers == old(buffers)
      ensures Graph() == old(Graph()) && stopped == old(stopped)
      ensures TransportState() == old(TransportState())
    {
      InitAudioContext();
      match decoded {
        case Some(audioBuffer) =>
          buffers := buffers[clipId := audioBuffer];
          r := Some(audioBuffer);
        case None =>
          r := None;
      }
    }

    /** getWaveformData: 200 bars of channel 0 of the decoded file, or no bars
        when fetching or decoding failed or there is no channel 0. */
    method GetWaveformData(decoded: Option<AudioBuffer>) returns (levels: seq<Amplitude>)
      requires Valid()
      modifies this
      ensures Valid() && hasContext
      ensures decoded.None? || decoded.value.channels == [] ==> levels == []
      ensures decoded.Some? && decoded.value.channels != [] ==> levels == Levels(decoded.value.channels[0])
      ensures Graph() == old(Graph()) && buffers == old(buffers) && stopped == old(stopped)
      ensures TransportState() == old(TransportState())
    {
      InitAudioContext();
      if decoded.None? || decoded.value.channels == [] {
        return [];
      }
      levels := BucketLevels(decoded.value.channels[0]);
    }

    /** createTrackNodes: the track's stage, made if missing, re-synced from
        the track; the gain stage is returned. */
    method CreateTrackNodes(track: Track) returns (gain: GainNode)
      requires Valid()
      modifies this
      ensures Valid() && hasContext
      ensures Graph() == WithStage(old(Graph()), track)
      ensures track.id in gainNodes && gain == gainNodes[track.id]
      ensures buffers == old(buffers) && stopped == old(stopped)
      ensures TransportState() == old(TransportState())
    {
      InitAudioContext();
      ghost var target := WithStage(Graph(), track);
      var gainNode, panNode;
      if track.id !in gainNodes {
        gainNode := GainNode(nodesCreated, 1.0);
        panNode := PanNode(nodesCreated + 1, 0.0);
        nodesCreated := nodesCreated + 2;
      } else {
        gainNode := gainNodes[track.id];
        panNode := panNodes[track.id];
      }
      gainNodes := gainNodes[track.id := gainNode.(gain := if track.muted then 0.0 else track.volume)];
      panNodes := panNodes[track.id := panNode.(pan := track.pan)];
      gain := gainNodes[track.id];
      assert gainNodes == target.gains && panNodes == target.pans && nodesCreated == target.nodesCreated;
      assert Graph() == target;
    }

    /** playClip: start a voice for the clip if it has a buffer, through its
        track's stage (or the master bus), and keep it under the clip id. */
    method PlayClip(clip: AudioClip, trackId: string, startOffset: real, now: real)
      requires Valid()
      modifies this
      ensures Valid() && hasContext
      ensures Graph() == StartVoice(old(Graph()), clip, trackId, startOffset, now, buffers)
      ensures buffers == old(buffers) && stopped == old(stopped)
      ensures TransportState() == old(TransportState())
    {
      InitAudioContext();
      if clip.id !in buffers {
        return;
      }
      ghost var target := StartVoice(Graph(), clip, trackId, startOffset, now, buffers);
      var buffer := buffers[clip.id];
      var output := if trackId in gainNodes then TrackGain(gainNodes[trackId].node) else MasterGain;
      var clipOffset := if startOffset - clip.startTime > 0.0 then startOffset - clip.startTime else 0.0;
      var when := if clip.startTime - startOffset > 0.0 then clip.startTime - startOffset else 0.0;
      var source := Voice(nodesCreated, clip.id, buffer, output, now + when, clip.offset + clipOffset);
      nodesCreated := nodesCreated + 1;
      sources := sources[clip.id := source];
      assert sources == target.voices && nodesCreated == target.nodesCreated;
      assert Graph() == target;
    }

    /** play's first loop: createTrackNodes for every track, in order. */
    method SyncTrackNodes(tracks: seq<Track>)
      requires Valid() && hasContext
      modifies this
      ensures Valid() && hasContext
      ensures Graph() == SyncStages(old(Graph()), tracks)
      ensures buffers == old(buffers) && stopped == old(stopped)
      ensures TransportState() == old(TransportState())
    {
      for i := 0 to |tracks|
        invariant Valid() && hasContext
        invariant Graph() == SyncStages(old(Graph()), tracks[..i])
        invariant buffers == old(buffers) && stopped == old(stopped)
        invariant TransportState() == old(TransportState())
      {
        assert tracks[..i + 1][..i] == tracks[..i];
        var _ := CreateTrackNodes(tracks[i]);
      }
      assert tracks[..|tracks|] == tracks;
    }

    /** play's inner loop: playClip for every clip of the track that has a buffer. */
    method PlayTrackClips(track: Track, fromTime: real, now: real)
      requires Valid() && hasContext
      modifies this
      ensures Valid() && hasContext
      ensures Graph() == StartClips(old(Graph()), track.clips, track.id, fromTime, now, buffers)
      ensures buffers == old(buffers) && stopped == old(stopped)
      ensures TransportState() == old(TransportState())
    {
      for j := 0 to |track.clips|
        invariant Valid() && hasContext
        invariant Graph() == StartClips(old(Graph()), track.clips[..j], track.id, fromTime, now, buffers)
        invariant buffers == old(buffers) && stopped == old(stopped)
        invariant TransportState() == old(TransportState())
      {
        var clip := track.clips[j];
        assert track.clips[..j + 1][..j] == track.clips[..j];
        ghost var before := Graph();
        if clip.id in buffers {
          PlayClip(clip, track.id, fromTime, now);
        } else {
          assert StartVoice(before, clip, track.id, fromTime, now, buffers) == before;
        }
        assert Graph() == StartVoice(before, clip, track.id, fromTime, now, buffers);
      }
      assert track.clips[..|track.clips|] == track.clips;
    }

    /** play's second loop: the clips of every track that is not muted. */
    method PlayTracks(tracks: seq<Track>, fromTime: real, now: real)
      requires Valid() && hasContext
      modifies this
      ensures Valid() && hasContext
      ensures Graph() == StartTracks(old(Graph()), tracks, fromTime, now, buffers)
      ensures buffers == old(buffers) && stopped == old(stopped)
      ensures TransportState() == old(TransportState())
    {
      for i := 0 to |tracks|
        invariant Valid() && hasContext
        invariant Graph() == StartTracks(old(Graph()), tracks[..i], fromTime, now, buffers)
        invariant buffers == old(buffers) && stopped == old(stopped)
        invariant TransportState() == old(TransportState())
      {
        var track := tracks[i];
        assert tracks[..i + 1][..i] == tracks[..i];
        if !track.muted {
          PlayTrackClips(track, fromTime, now);
        }
      }
      assert tracks[..|tracks|] == tracks;
    }

    /** play: sync every track's stage, then start the buffered clips of every
        unmuted track, then anchor the transport so that `now` is `fromTime`. */
    method Play(tracks: seq<Track>, fromTime: real, now: real)
      requires Valid()
      modifies this
      ensures Valid() && hasContext
      ensures Graph() == PlayGraph(old(Graph()), tracks, fromTime, now, buffers)
      ensures buffers == old(buffers) && stopped == old(stopped)
      ensures TransportState() == old(TransportState()).(startTime := now - fromTime, isPlaying := true)
    {
      InitAudioContext();
      SyncTrackNodes(tracks);
      PlayTracks(tracks, fromTime, now);
      startTime := now - fromTime;
      isPlaying := true;
    }

    /** Nodes of the voices stored under `ids`. */
    ghost function VoiceNodes(voices: map<string, Voice>, ids: set<string>): set<nat>
      requires ids <= voices.Keys
    {
      set id | id in ids :: voices[id].node
    }

    /** stop's loop: stop() is called on every stored voice (a voice that has
        already ended throws, and the error is swallowed). */
    method StopVoices()
      modifies this`stopped
      ensures stopped == old(stopped) + VoiceNodes(sources, sources.Keys)
    {
      var remaining := sources.Keys;
      while remaining != {}
        invariant remaining <= sources.Keys
        invariant stopped == old(stopped) + VoiceNodes(sources, sources.Keys - remaining)
        decreases remaining
      {
        var id :| id in remaining;
        stopped := stopped + {sources[id].node};
        assert VoiceNodes(sources, sources.Keys - (remaining - {id}))
            == VoiceNodes(sources, sources.Keys - remaining) + {sources[id].node};
        remaining := remaining - {id};
      }
      assert sources.Keys - remaining == sources.Keys;
    }

    /** stop: call stop() on every stored voice, forget them all, remember the
        position when there is a context, and mark the transport stopped. */
    method Stop(now: real)
      requires Valid()
      modifies this
      ensures Valid()
      ensures sources == map[]
      ensures stopped == old(stopped) + VoiceNodes(old(sources), old(sources).Keys)
      ensures gainNodes == old(gainNodes) && panNodes == old(panNodes) && nodesCreated == old(nodesCreated)
      ensures buffers == old(buffers) && hasContext == old(hasContext)
      ensures TransportState() == old(TransportState()).(
        pauseTime := if hasContext then now - startTime else old(pauseTime), isPlaying := false)
    {
      StopVoices();
      sources := map[];
      if hasContext {
        pauseTime := now - startTime;
      }
      isPlaying := false;
    }

    /** pause: remember the position, then stop; the same effect as stop. */
    method Pause(now: real)
      requires Valid()
      modifies this
      ensures Valid()
      ensures sources == map[]
      ensures stopped == old(stopped) + VoiceNodes(old(sources), old(sources).Keys)
      ensures gainNodes == old(gainNodes) && panNodes == old(panNodes) && nodesCreated == old(nodesCreated)
      ensures buffers == old(buffers) && hasContext == old(hasContext)
      ensures TransportState() == old(TransportState()).(
        pauseTime := if hasContext then now - startTime else old(pauseTime), isPlaying := false)
    {
      if hasContext {
        pauseTime := now - startTime;
      }
      Stop(now);
    }

    /** updateTrackVolume: only an existing stage changes; no stage is made. */
    method UpdateTrackVolume(trackId: string, volume: real, muted: bool)
      requires Valid()
      modifies this
      ensures Valid()
      ensures trackId in old(gainNodes) ==>
        gainNodes == old(gainNodes)[trackId := old(gainNodes)[trackId].(gain := StageGain(volume, muted))]
      ensures trackId !in old(gainNodes) ==> gainNodes == old(gainNodes)
      ensures panNodes == old(panNodes) && sources == old(sources) && nodesCreated == old(nodesCreated)
      ensures hasContext == old(hasContext) && buffers == old(buffers) && stopped == old(stopped)
      ensures TransportState() == old(TransportState())
    {
      if trackId in gainNodes {
        gainNodes := gainNodes[trackId := gainNodes[trackId].(gain := if muted then 0.0 else volume)];
      }
    }

    /** updateTrackPan: only an existing stage changes; no stage is made. */
    method UpdateTrackPan(trackId: string, pan: real)
      requires Valid()
      modifies this
      ensures Valid()
      ensures trackId in old(panNodes) ==>
        panNodes == old(panNodes)[trackId := old(panNodes)[trackId].(pan := pan)]
      ensures trackId !in old(panNodes) ==> panNodes == old(panNodes)
      ensures gainNodes == old(gainNodes) && sources == old(sources) && nodesCreated == old(nodesCreated)
      ensures hasContext == old(hasContext) && buffers == old(buffers) && stopped == old(stopped)
      ensures TransportState() == old(TransportState())
    {
      if trackId in panNodes {
        panNodes := panNodes[trackId := panNodes[trackId].(pan := pan)];
      }
    }

    /** The setCurrentTime the hook returns: both the paused position and the
        displayed position become `time`. */
    method SetCurrentTime(time: real)
      requires Valid()
      modifies this
      ensures Valid()
      ensures TransportState() == old(TransportState()).(pauseTime := time, currentTime := time)
      ensures Graph() == old(Graph()) && buffers == old(buffers) && stopped == old(stopped)
      ensures hasContext == old(hasContext)
    {
      pauseTime := time;
      currentTime := time;
    }

    /** One animation frame while playing: the displayed position becomes the
        clock minus the anchor, i.e. fromTime plus the time since play. */
    method UpdateTime(now: real)
      requires Valid()
      modifies this
      ensures Valid()
      ensures isPlaying && hasContext ==> currentTime == now - startTime
      ensures !(isPlaying && hasContext) ==> currentTime == old(currentTime)
      ensures TransportState() == old(TransportState()).(currentTime := currentTime)
      ensures Graph() == old(Graph()) && buffers == old(buffers) && stopped == old(stopped)
      ensures hasContext == old(hasContext)
    {
      if isPlaying && hasContext {
        currentTime := now - startTime;
      }
    }

    /** exportMix over the engine's decoded buffers; `rendered` is what the
        offline context renders. */
    method ExportMix(tracks: seq<Track>, duration: real, rendered: seq<seq<real>>) returns (r: Export.ExportResult)
      requires Export.FrameCount(duration) > 0 ==>
        |rendered| == Export.ExportChannels
        && forall c :: 0 <= c < |rendered| ==> |rendered[c]| == Export.FrameCount(duration)
      ensures Export.FrameCount(duration) == 0 <==> r.NotSupportedError?
      ensures r.Exported? ==>
        && r.stages == Export.OfflineStages(tracks)
        && r.placements == Export.OfflinePlacements(tracks, buffers)
        && r.wav == Wav.WavFile(AudioBuffer(Export.ExportSampleRate, Export.FrameCount(duration), rendered))
    {
      r := Export.ExportMix(tracks, duration, buffers, rendered);
    }
  }
}
