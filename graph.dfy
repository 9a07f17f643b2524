/** The live mix graph as a value: per-track gain and pan stages, the voice
    map (one entry per clip id) and the number of audio nodes created so far,
    which gives every node an identity. The engine's methods are specified by
    the functions here; the lemmas say what a whole `play` does. */
module MixGraph {
  import opened AudioTypes
  import opened Scheduling

  datatype GainNode = GainNode(node: nat, gain: real)
  datatype PanNode = PanNode(node: nat, pan: real)

  /** Where a voice is connected: its track's gain stage, or the master bus
      when the track has no stage. */
  datatype Output = TrackGain(node: nat) | MasterGain

  /** One started buffer source: its node number, the clip it plays, the
      buffer, its output, the clock time it starts and the source position it
      starts from. It is given no stop time. */
  datatype Voice = Voice(
    node: nat,
    clipId: string,
    buffer: AudioBuffer,
    output: Output,
    startAt: real,
    sourceOffset: real)

  datatype Graph = Graph(
    gains: map<string, GainNode>,
    pans: map<string, PanNode>,
    voices: map<string, Voice>,
    nodesCreated: nat)
  {
    /** Stages come in gain/pan pairs, and every node was numbered before
        the counter moved past it. */
    ghost predicate Valid() {
      && gains.Keys == pans.Keys
      && (forall id :: id in gains ==> gains[id].node < nodesCreated)
      && (forall id :: id in pans ==> pans[id].node < nodesCreated)
      && (forall id :: id in voices ==> voices[id].node < nodesCreated)
    }
  }

  /** The gain a track stage is set to: silent when muted, else the volume. */
  function StageGain(volume: real, muted: bool): (g: real)
    ensures muted ==> g == 0.0
    ensures !muted ==> g == volume
  {
    if muted then 0.0 else volume
  }

  /** createTrackNodes: make the stage if the track has none, then re-sync
      its gain and pan from the track. */
  function WithStage(g: Graph, t: Track): (r: Graph)
    requires g.Valid()
    ensures r.Valid()
  {
    var n := g.nodesCreated;
    var gain := if t.id in g.gains then g.gains[t.id] else GainNode(n, 1.0);
    var pan := if t.id in g.gains then g.pans[t.id] else PanNode(n + 1, 0.0);
    g.(gains := g.gains[t.id := gain.(gain := StageGain(t.volume, t.muted))],
       pans := g.pans[t.id := pan.(pan := t.pan)],
       nodesCreated := if t.id in g.gains then n else n + 2)
  }

  /** The track ends up with a stage set from it; an existing stage keeps its
      nodes, a missing one gets the next two node numbers; no other stage and
      no voice changes. */
  lemma WithStageEffect(g: Graph, t: Track)
    requires g.Valid()
    ensures var r := WithStage(g, t);
      && t.id in r.gains && t.id in r.pans
      && r.gains[t.id].gain == StageGain(t.volume, t.muted) && r.pans[t.id].pan == t.pan
      && (t.id in g.gains ==>
        && r.gains[t.id].node == g.gains[t.id].node
        && r.pans[t.id].node == g.pans[t.id].node
        && r.nodesCreated == g.nodesCreated)
      && (t.id !in g.gains ==>
        && r.gains[t.id].node == g.nodesCreated
        && r.pans[t.id].node == g.nodesCreated + 1
        && r.nodesCreated == g.nodesCreated + 2)
      && (forall id :: id != t.id ==>
        && (id in r.gains <==> id in g.gains)
        && (id in g.gains ==> r.gains[id] == g.gains[id] && r.pans[id] == g.pans[id]))
      && r.voices == g.voices
  {
  }

  /** Re-syncing a stage twice is the same as once: no second stage is made. */
  lemma WithStageIdempotent(g: Graph, t: Track)
    requires g.Valid()
    ensures WithStage(WithStage(g, t), t) == WithStage(g, t)
  {
    var once := WithStage(g, t);
    var twice := WithStage(once, t);
    WithStageEffect(g, t);
    assert twice.gains == once.gains;
    assert twice.pans == once.pans;
  }

  /** The voice `playClip` starts for `clip` from `fromTime` with the clock at `now`. */
  predicate StartsClip(v: Voice, clip: AudioClip, buffer: AudioBuffer, output: Output, fromTime: real, now: real)
  {
    && v.clipId == clip.id
    && v.buffer == buffer
    && v.output == output
    && v.startAt == VoiceStartAt(clip.startTime, fromTime, now)
    && v.sourceOffset == VoiceSourceOffset(clip.offset, clip.startTime, fromTime)
  }

  /** The output a voice of track `trackId` is connected to. */
  function OutputFor(gains: map<string, GainNode>, trackId: string): (o: Output)
    ensures o.TrackGain? <==> trackId in gains
    ensures o.TrackGain? ==> o.node == gains[trackId].node
  {
    if trackId in gains then TrackGain(gains[trackId].node) else MasterGain
  }

  /** playClip: no buffer, nothing happens; otherwise a fresh voice is stored
      under the clip id, replacing whatever voice was there. */
  function StartVoice(g: Graph, clip: AudioClip, trackId: string, fromTime: real, now: real,
                      buffers: map<string, AudioBuffer>): (r: Graph)
    requires g.Valid()
    ensures r.Valid()
  {
    if clip.id !in buffers then g
    else
      var v := Voice(g.nodesCreated, clip.id, buffers[clip.id], OutputFor(g.gains, trackId),
                     VoiceStartAt(clip.startTime, fromTime, now),
                     VoiceSourceOffset(clip.offset, clip.startTime, fromTime));
      g.(voices := g.voices[clip.id := v], nodesCreated := g.nodesCreated + 1)
  }

  /** Without a buffer nothing changes; with one, the clip id maps to the voice
      the clip calls for, on the next node, and every other entry and every
      stage stays as it was. */
  lemma StartVoiceEffect(g: Graph, clip: AudioClip, trackId: string, fromTime: real, now: real,
                         buffers: map<string, AudioBuffer>)
    requires g.Valid()
    ensures var r := StartVoice(g, clip, trackId, fromTime, now, buffers);
      && (clip.id !in buffers ==> r == g)
      && (clip.id in buffers ==>
        && r.voices.Keys == g.voices.Keys + {clip.id}
        && (forall id :: id in g.voices && id != clip.id ==> r.voices[id] == g.voices[id])
        && StartsClip(r.voices[clip.id], clip, buffers[clip.id], OutputFor(g.gains, trackId), fromTime, now)
        && r.voices[clip.id].node == g.nodesCreated
        && r.nodesCreated == g.nodesCreated + 1)
      && r.gains == g.gains && r.pans == g.pans
  {
  }

  /** createTrackNodes for every track, in order. */
  function SyncStages(g: Graph, tracks: seq<Track>): (r: Graph)
    requires g.Valid()
    ensures r.Valid()
    decreases |tracks|
  {
    if tracks == [] then g
    else WithStage(SyncStages(g, tracks[..|tracks| - 1]), tracks[|tracks| - 1])
  }

  /** playClip for every clip of one track, in order. */
  function StartClips(g: Graph, clips: seq<AudioClip>, trackId: string, fromTime: real, now: real,
                      buffers: map<string, AudioBuffer>): (r: Graph)
    requires g.Valid()
    ensures r.Valid()
    decreases |clips|
  {
    if clips == [] then g
    else StartVoice(StartClips(g, clips[..|clips| - 1], trackId, fromTime, now, buffers),
                    clips[|clips| - 1], trackId, fromTime, now, buffers)
  }

  /** The second loop of `play`: only the track's `muted` flag is looked at. */
  function StartTrack(g: Graph, t: Track, fromTime: real, now: real,
                      buffers: map<string, AudioBuffer>): (r: Graph)
    requires g.Valid()
    ensures r.Valid()
    ensures t.muted ==> r == g
  {
    if t.muted then g else StartClips(g, t.clips, t.id, fromTime, now, buffers)
  }

  function StartTracks(g: Graph, tracks: seq<Track>, fromTime: real, now: real,
                       buffers: map<string, AudioBuffer>): (r: Graph)
    requires g.Valid()
    ensures r.Valid()
    decreases |tracks|
  {
    if tracks == [] then g
    else StartTrack(StartTracks(g, tracks[..|tracks| - 1], fromTime, now, buffers),
                    tracks[|tracks| - 1], fromTime, now, buffers)
  }

  /** What `play` does to the graph: all stages first, then the voices. */
  function PlayGraph(g: Graph, tracks: seq<Track>, fromTime: real, now: real,
                     buffers: map<string, AudioBuffer>): (r: Graph)
    requires g.Valid()
    ensures r.Valid()
  {
    StartTracks(SyncStages(g, tracks), tracks, fromTime, now, buffers)
  }

  /** Ids of the given tracks. */
  function TrackIds(tracks: seq<Track>): set<string>
    decreases |tracks|
  {
    if tracks == [] then {} else TrackIds(tracks[..|tracks| - 1]) + {tracks[|tracks| - 1].id}
  }

  /** The last track in `tracks` with the given id: the one whose settings a
      stage ends up with when ids repeat. */
  function LastWithId(tracks: seq<Track>, id: string): (t: Track)
    requires id in TrackIds(tracks)
    ensures t in tracks && t.id == id
    decreases |tracks|
  {
    if tracks[|tracks| - 1].id == id then tracks[|tracks| - 1]
    else
      var t := LastWithId(tracks[..|tracks| - 1], id);
      assert t in tracks[..|tracks| - 1];
      t
  }

  /** Clip ids among `clips` that have a decoded buffer. */
  function BufferedIds(clips: seq<AudioClip>, buffers: map<string, AudioBuffer>): set<string>
    decreases |clips|
  {
    if clips == [] then {}
    else BufferedIds(clips[..|clips| - 1], buffers) +
         (if clips[|clips| - 1].id in buffers then {clips[|clips| - 1].id} else {})
  }

  /** Clip ids that `play` starts: clips with a buffer on tracks that are not muted. */
  function PlayableIds(tracks: seq<Track>, buffers: map<string, AudioBuffer>): set<string>
    decreases |tracks|
  {
    if tracks == [] then {}
    else PlayableIds(tracks[..|tracks| - 1], buffers) +
         (if tracks[|tracks| - 1].muted then {} else BufferedIds(tracks[|tracks| - 1].clips, buffers))
  }

  lemma {:induction false} TrackIdsMeaning(tracks: seq<Track>, id: string)
    ensures id in TrackIds(tracks) <==> exists t :: t in tracks && t.id == id
    decreases |tracks|
  {
    if tracks != [] {
      var init := tracks[..|tracks| - 1];
      assert tracks == init + [tracks[|tracks| - 1]];
      TrackIdsMeaning(init, id);
    }
  }

  lemma {:induction false} BufferedIdsMeaning(clips: seq<AudioClip>, buffers: map<string, AudioBuffer>, id: string)
    ensures id in BufferedIds(clips, buffers) <==> exists c :: c in clips && c.id in buffers && c.id == id
    decreases |clips|
  {
    if clips != [] {
      var init := clips[..|clips| - 1];
      assert clips == init + [clips[|clips| - 1]];
      BufferedIdsMeaning(init, buffers, id);
    }
  }

  /** A clip id is playable exactly when some unmuted track holds a clip with
      that id and the clip has a decoded buffer. */
  lemma {:induction false} PlayableIdsMeaning(tracks: seq<Track>, buffers: map<string, AudioBuffer>, id: string)
    ensures id in PlayableIds(tracks, buffers) <==>
      exists t, c :: t in tracks && !t.muted && c in t.clips && c.id in buffers && c.id == id
    decreases |tracks|
  {
    if tracks != [] {
      var init := tracks[..|tracks| - 1];
      var last := tracks[|tracks| - 1];
      assert tracks == init + [last];
      PlayableIdsMeaning(init, buffers, id);
      BufferedIdsMeaning(last.clips, buffers, id);
      if id in PlayableIds(tracks, buffers) && id !in PlayableIds(init, buffers) {
        var c :| c in last.clips && c.id in buffers && c.id == id;
        assert last in tracks;
      }
    }
  }

  /** `id` is started by some clip of an unmuted track, with the voice that clip calls for. */
  predicate StartedBy(v: Voice, id: string, tracks: seq<Track>, gains: map<string, GainNode>,
                      fromTime: real, now: real, buffers: map<string, AudioBuffer>)
    requires id in buffers
  {
    exists t, c :: t in tracks && !t.muted && c in t.clips && c.id == id &&
      StartsClip(v, c, buffers[id], OutputFor(gains, t.id), fromTime, now)
  }

  /** After the first loop of `play` every track has a stage; stages that
      existed keep their nodes, no other id gets one, and the voices are
      untouched. */
  lemma {:induction false} SyncStagesKeys(g: Graph, tracks: seq<Track>)
    requires g.Valid()
    ensures var r := SyncStages(g, tracks);
      && r.gains.Keys == g.gains.Keys + TrackIds(tracks)
      && r.pans.Keys == g.pans.Keys + TrackIds(tracks)
      && (forall id :: id in g.gains ==> r.gains[id].node == g.gains[id].node && r.pans[id].node == g.pans[id].node)
      && r.voices == g.voices
      && r.nodesCreated >= g.nodesCreated
    decreases |tracks|
  {
    if tracks != [] {
      SyncStagesKeys(g, tracks[..|tracks| - 1]);
    }
  }

  /** ...and each stage carries the gain and pan of the last track with its id. */
  lemma {:induction false} SyncStagesSettings(g: Graph, tracks: seq<Track>, id: string)
    requires g.Valid()
    requires id in TrackIds(tracks)
    ensures var r := SyncStages(g, tracks);
      var t := LastWithId(tracks, id);
      && id in r.gains && id in r.pans
      && r.gains[id].gain == StageGain(t.volume, t.muted)
      && r.pans[id].pan == t.pan
    decreases |tracks|
  {
    if tracks[|tracks| - 1].id != id {
      SyncStagesSettings(g, tracks[..|tracks| - 1], id);
    }
  }

  /** Starting clips changes neither the stages nor moves the node counter back. */
  lemma {:induction false} StartClipsFrame(g: Graph, clips: seq<AudioClip>, trackId: string,
                                            fromTime: real, now: real, buffers: map<string, AudioBuffer>)
    requires g.Valid()
    ensures var r := StartClips(g, clips, trackId, fromTime, now, buffers);
      r.gains == g.gains && r.pans == g.pans && r.nodesCreated >= g.nodesCreated
    decreases |clips|
  {
    if clips != [] {
      StartClipsFrame(g, clips[..|clips| - 1], trackId, fromTime, now, buffers);
    }
  }

  /** The voice map entries of one track's clips: exactly the buffered ones are (re)set. */
  lemma {:induction false} StartClipsKeys(g: Graph, clips: seq<AudioClip>, trackId: string,
                                           fromTime: real, now: real, buffers: map<string, AudioBuffer>)
    requires g.Valid()
    ensures var r := StartClips(g, clips, trackId, fromTime, now, buffers);
      && r.voices.Keys == g.voices.Keys + BufferedIds(clips, buffers)
      && (forall id :: id in g.voices && id !in BufferedIds(clips, buffers) ==> r.voices[id] == g.voices[id])
    decreases |clips|
  {
    if clips != [] {
      StartClipsKeys(g, clips[..|clips| - 1], trackId, fromTime, now, buffers);
    }
  }

  /** Each buffered clip of an unmuted track gets the voice it calls for, on a fresh node. */
  lemma {:induction false} StartClipsStarted(g: Graph, t: Track, clips: seq<AudioClip>, tracks: seq<Track>,
                                              fromTime: real, now: real, buffers: map<string, AudioBuffer>)
    requires g.Valid()
    requires t in tracks && !t.muted
    requires forall c :: c in clips ==> c in t.clips
    ensures var r := StartClips(g, clips, t.id, fromTime, now, buffers);
      forall id :: id in BufferedIds(clips, buffers) ==>
        id in buffers && id in r.voices &&
        StartedBy(r.voices[id], id, tracks, g.gains, fromTime, now, buffers) &&
        r.voices[id].node >= g.nodesCreated
    decreases |clips|
  {
    if clips != [] {
      var init := clips[..|clips| - 1];
      var last := clips[|clips| - 1];
      assert clips == init + [last];
      StartClipsStarted(g, t, init, tracks, fromTime, now, buffers);
      StartClipsFrame(g, init, t.id, fromTime, now, buffers);
      var mid := StartClips(g, init, t.id, fromTime, now, buffers);
      var r := StartClips(g, clips, t.id, fromTime, now, buffers);
      assert r == StartVoice(mid, last, t.id, fromTime, now, buffers);
      if last.id in buffers {
        assert last in t.clips;
        assert StartsClip(r.voices[last.id], last, buffers[last.id], OutputFor(g.gains, t.id), fromTime, now);
      }
      forall id | id in BufferedIds(clips, buffers)
        ensures id in buffers && id in r.voices
        ensures StartedBy(r.voices[id], id, tracks, g.gains, fromTime, now, buffers)
        ensures r.voices[id].node >= g.nodesCreated
      {
        if last.id in buffers && id == last.id {
          assert t in tracks && !t.muted && last in t.clips && last.id == id &&
            StartsClip(r.voices[id], last, buffers[id], OutputFor(g.gains, t.id), fromTime, now);
        } else {
          assert id in BufferedIds(init, buffers);
          assert r.voices[id] == mid.voices[id];
        }
      }
    }
  }

  /** The second loop of `play` leaves the stages alone and only moves the node counter forward. */
  lemma {:induction false} StartTracksFrame(g: Graph, tracks: seq<Track>, fromTime: real, now: real,
                                             buffers: map<string, AudioBuffer>)
    requires g.Valid()
    ensures var r := StartTracks(g, tracks, fromTime, now, buffers);
      r.gains == g.gains && r.pans == g.pans && r.nodesCreated >= g.nodesCreated
    decreases |tracks|
  {
    if tracks != [] {
      var init := tracks[..|tracks| - 1];
      var last := tracks[|tracks| - 1];
      StartTracksFrame(g, init, fromTime, now, buffers);
      if !last.muted {
        StartClipsFrame(StartTracks(g, init, fromTime, now, buffers), last.clips, last.id, fromTime, now, buffers);
      }
    }
  }

  /** After the second loop of `play`, the voice map keys: an entry is added
      or replaced exactly for the clips of unmuted tracks that have a buffer,
      and all other entries are untouched. */
  lemma {:induction false} StartTracksKeys(g: Graph, tracks: seq<Track>, fromTime: real, now: real,
                                            buffers: map<string, AudioBuffer>)
    requires g.Valid()
    ensures var r := StartTracks(g, tracks, fromTime, now, buffers);
      && r.voices.Keys == g.voices.Keys + PlayableIds(tracks, buffers)
      && (forall id :: id in g.voices && id !in PlayableIds(tracks, buffers) ==> r.voices[id] == g.voices[id])
    decreases |tracks|
  {
    if tracks != [] {
      var init := tracks[..|tracks| - 1];
      var last := tracks[|tracks| - 1];
      StartTracksKeys(g, init, fromTime, now, buffers);
      var mid := StartTracks(g, init, fromTime, now, buffers);
      assert StartTracks(g, tracks, fromTime, now, buffers) == StartTrack(mid, last, fromTime, now, buffers);
      assert PlayableIds(tracks, buffers) ==
        PlayableIds(init, buffers) + (if last.muted then {} else BufferedIds(last.clips, buffers));
      if !last.muted {
        StartClipsKeys(mid, last.clips, last.id, fromTime, now, buffers);
      }
    }
  }

  /** ...and each of those entries holds the voice its clip calls for: started
      at `now` plus the clip's delay, reading from the clip's trim plus the
      entry offset, connected to its track's stage, on a node made by this
      call. Solo is not consulted. */
  lemma {:induction false} StartTracksVoices(g: Graph, tracks: seq<Track>, fromTime: real, now: real,
                                              buffers: map<string, AudioBuffer>)
    requires g.Valid()
    ensures var r := StartTracks(g, tracks, fromTime, now, buffers);
      forall id :: id in PlayableIds(tracks, buffers) ==>
        id in buffers && id in r.voices &&
        StartedBy(r.voices[id], id, tracks, g.gains, fromTime, now, buffers) &&
        r.voices[id].node >= g.nodesCreated
    decreases |tracks|
  {
    if tracks != [] {
      var init := tracks[..|tracks| - 1];
      var last := tracks[|tracks| - 1];
      assert tracks == init + [last];
      StartTracksVoices(g, init, fromTime, now, buffers);
      StartTracksKeys(g, init, fromTime, now, buffers);
      StartTracksFrame(g, init, fromTime, now, buffers);
      var mid := StartTracks(g, init, fromTime, now, buffers);
      var r := StartTracks(g, tracks, fromTime, now, buffers);
      if last.muted {
        forall id | id in PlayableIds(tracks, buffers)
          ensures StartedBy(r.voices[id], id, tracks, g.gains, fromTime, now, buffers)
        {
          var t, c :| t in init && !t.muted && c in t.clips && c.id == id &&
            StartsClip(mid.voices[id], c, buffers[id], OutputFor(g.gains, t.id), fromTime, now);
          assert t in tracks;
        }
      } else {
        StartClipsKeys(mid, last.clips, last.id, fromTime, now, buffers);
        StartClipsFrame(mid, last.clips, last.id, fromTime, now, buffers);
        StartClipsStarted(mid, last, last.clips, tracks, fromTime, now, buffers);
        forall id | id in PlayableIds(tracks, buffers)
          ensures id in buffers && id in r.voices
          ensures StartedBy(r.voices[id], id, tracks, g.gains, fromTime, now, buffers)
          ensures r.voices[id].node >= g.nodesCreated
        {
          if id !in BufferedIds(last.clips, buffers) {
            var t, c :| t in init && !t.muted && c in t.clips && c.id == id &&
              StartsClip(mid.voices[id], c, buffers[id], OutputFor(g.gains, t.id), fromTime, now);
            assert t in tracks;
            assert r.voices[id] == mid.voices[id];
          }
        }
      }
    }
  }

  /** Played from a graph with no voices (after `stop`), voices exist exactly
      for the clips of unmuted tracks that have a buffer, and every track has
      a stage. */
  lemma PlayAfterStopVoices(g: Graph, tracks: seq<Track>, fromTime: real, now: real,
                            buffers: map<string, AudioBuffer>)
    requires g.Valid() && g.voices == map[]
    ensures var r := PlayGraph(g, tracks, fromTime, now, buffers);
      && r.voices.Keys == PlayableIds(tracks, buffers)
      && (forall t :: t in tracks ==> t.id in r.gains && t.id in r.pans)
  {
    var staged := SyncStages(g, tracks);
    SyncStagesKeys(g, tracks);
    StartTracksKeys(staged, tracks, fromTime, now, buffers);
    StartTracksFrame(staged, tracks, fromTime, now, buffers);
    forall t | t in tracks ensures t.id in staged.gains && t.id in staged.pans {
      TrackIdsMeaning(tracks, t.id);
    }
  }

  /** Playing again while voices are running does not stop them: a clip that
      is started again gets a new voice on a new node, which replaces the
      earlier voice in the voice map, so a later `stop` no longer reaches the
      earlier one. */
  lemma ReplayDropsEarlierVoice(g: Graph, tracks: seq<Track>, fromTime: real, now: real,
                                buffers: map<string, AudioBuffer>, id: string)
    requires g.Valid()
    requires id in g.voices && id in PlayableIds(tracks, buffers)
    ensures var r := PlayGraph(g, tracks, fromTime, now, buffers);
      id in r.voices && r.voices[id].node > g.voices[id].node
  {
    var staged := SyncStages(g, tracks);
    SyncStagesKeys(g, tracks);
    StartTracksVoices(staged, tracks, fromTime, now, buffers);
  }
}
