/** The arrangement view's arithmetic: the zoom buttons, the time under the
    pointer for seeking and dropping, which dropped file is taken as audio,
    the two clip-resize edits, the width of the scrollable area, the bar and
    beat lines of the ruler, and the mute and solo toggles of a track header.
    Zoom is pixels per second; x positions are pixels from the timeline's
    left edge, scroll included. */
module Timeline {
  import opened AudioTypes
  import opened Scheduling

  const MinZoom: real := 20.0
  const MaxZoom: real := 200.0
  const ZoomStep: real := 20.0
  const MinTimelineWidth: real := 2000.0

  /** Zoom out: Math.max(20, zoom - 20). */
  function ZoomOut(zoom: real): (z: real)
    ensures z >= MinZoom
    ensures zoom >= MinZoom ==> z <= zoom
    ensures zoom > MinZoom ==> z < zoom
    ensures MinZoom <= zoom <= MaxZoom ==> MinZoom <= z <= MaxZoom
    ensures zoom - ZoomStep >= MinZoom ==> z == zoom - ZoomStep
    ensures zoom - ZoomStep < MinZoom ==> z == MinZoom
  {
    if zoom - ZoomStep > MinZoom then zoom - ZoomStep else MinZoom
  }

  /** Zoom in: Math.min(200, zoom + 20). */
  function ZoomIn(zoom: real): (z: real)
    ensures z <= MaxZoom
    ensures zoom <= MaxZoom ==> z >= zoom
    ensures zoom < MaxZoom ==> z > zoom
    ensures MinZoom <= zoom <= MaxZoom ==> MinZoom <= z <= MaxZoom
    ensures zoom + ZoomStep <= MaxZoom ==> z == zoom + ZoomStep
    ensures zoom + ZoomStep > MaxZoom ==> z == MaxZoom
  {
    if zoom + ZoomStep < MaxZoom then zoom + ZoomStep else MaxZoom
  }

  /** Away from the clamps, zooming in and back out (or out and back in)
      returns to the same zoom. */
  lemma ZoomRoundTrip(zoom: real)
    ensures MinZoom <= zoom <= MaxZoom - ZoomStep ==> ZoomOut(ZoomIn(zoom)) == zoom
    ensures MinZoom + ZoomStep <= zoom <= MaxZoom ==> ZoomIn(ZoomOut(zoom)) == zoom
  {
  }

  /** Where the playhead for time t is drawn: t * pixelsPerSecond. */
  function PlayheadX(t: real, pixelsPerSecond: real): real {
    t * pixelsPerSecond
  }

  /** The time under a pointer at x, as seeking and dropping compute it:
      Math.max(0, x / pixelsPerSecond). */
  function TimeAtPixel(x: real, pixelsPerSecond: real): (t: real)
    requires pixelsPerSecond > 0.0
    ensures t >= 0.0
    ensures x <= 0.0 ==> t == 0.0
  {
    var time := x / pixelsPerSecond;
    if 0.0 > time then 0.0 else time
  }

  /** Seeking to a point right of the timeline's origin puts the playhead
      exactly under the pointer; a point left of it seeks to 0. */
  lemma SeekUnderPointer(x: real, pixelsPerSecond: real)
    requires pixelsPerSecond > 0.0
    ensures x >= 0.0 ==> PlayheadX(TimeAtPixel(x, pixelsPerSecond), pixelsPerSecond) == x
    ensures x < 0.0 ==> PlayheadX(TimeAtPixel(x, pixelsPerSecond), pixelsPerSecond) == 0.0
  {
  }

  /** The scrollable width: Math.max(duration * zoom, 2000). */
  function TimelineWidth(duration: real, pixelsPerSecond: real): (w: real)
    ensures w >= MinTimelineWidth
    ensures w >= duration * pixelsPerSecond
  {
    var span := duration * pixelsPerSecond;
    if span > MinTimelineWidth then span else MinTimelineWidth
  }

  /** The playhead of any time within the arrangement lies inside the timeline. */
  lemma PlayheadInsideTimeline(t: real, duration: real, pixelsPerSecond: real)
    requires 0.0 <= t <= duration && pixelsPerSecond >= 0.0
    ensures 0.0 <= PlayheadX(t, pixelsPerSecond) <= TimelineWidth(duration, pixelsPerSecond)
  {
    assert t * pixelsPerSecond <= duration * pixelsPerSecond;
  }

  /** A file dropped on a track: its name and its MIME type. */
  datatype DroppedFile = DroppedFile(name: string, mimeType: string)

  /** The extensions the drop filter accepts, without the dot. */
  const AudioExtensions: seq<string> := ["wav", "mp3", "aac", "flac", "ogg", "m4a"]

  /** ASCII lower case, which is how an `/i` pattern without the `u` flag
      compares these letters. */
  function Lower(c: char): (l: char)
    ensures 'A' <= c <= 'Z' ==> l as int == c as int + 32
    ensures !('A' <= c <= 'Z') ==> l == c
  {
    if 'A' <= c <= 'Z' then (c as int + 32) as char else c
  }

  function LowerAll(s: string): (l: string)
    ensures |l| == |s|
    ensures forall i :: 0 <= i < |s| ==> l[i] == Lower(s[i])
  {
    seq(|s|, i requires 0 <= i < |s| => Lower(s[i]))
  }

  predicate StartsWith(s: string, prefix: string) {
    |prefix| <= |s| && s[..|prefix|] == prefix
  }

  /** The name ends in a dot followed by `ext`, letters compared case-insensitively. */
  predicate EndsWithExtension(name: string, ext: string) {
    |name| > |ext| && name[|name| - |ext| - 1] == '.' && LowerAll(name[|name| - |ext|..]) == ext
  }

  /** The drop filter: an `audio/` MIME type, or a name matching
      /\.(wav|mp3|aac|flac|ogg|m4a)$/i. */
  predicate IsAudioFile(f: DroppedFile) {
    StartsWith(f.mimeType, "audio/")
    || exists i :: 0 <= i < |AudioExtensions| && EndsWithExtension(f.name, AudioExtensions[i])
  }

  /** files.find(isAudio), as an index: the first audio file, if any. */
  function FirstAudioFile(files: seq<DroppedFile>): (r: Option<nat>)
    ensures r.Some? ==> r.value < |files| && IsAudioFile(files[r.value])
    ensures r.Some? ==> forall j :: 0 <= j < r.value ==> !IsAudioFile(files[j])
    ensures r.None? <==> forall j :: 0 <= j < |files| ==> !IsAudioFile(files[j])
  {
    if |files| == 0 then None
    else if IsAudioFile(files[0]) then Some(0)
    else
      assert forall j :: 1 <= j < |files| ==> files[1..][j - 1] == files[j];
      match FirstAudioFile(files[1..])
      case None => None
      case Some(k) => Some(k + 1)
  }

  /** What a drop does: nothing, or add `file` to the track at `startTime`. */
  datatype DropAction = Ignored | AddClip(file: DroppedFile, startTime: real)

  /** handleDrop: take the first audio file among the dropped ones and start
      it at the time under the pointer. */
  function HandleDrop(files: seq<DroppedFile>, x: real, pixelsPerSecond: real): (d: DropAction)
    requires pixelsPerSecond > 0.0
    ensures d.AddClip? <==> exists j :: 0 <= j < |files| && IsAudioFile(files[j])
    ensures d.AddClip? ==> IsAudioFile(d.file) && d.file in files && d.startTime >= 0.0
    ensures d.AddClip? ==>
      exists k :: 0 <= k < |files| && d.file == files[k] && forall j :: 0 <= j < k ==> !IsAudioFile(files[j])
    ensures d.AddClip? && x >= 0.0 ==> PlayheadX(d.startTime, pixelsPerSecond) == x
  {
    match FirstAudioFile(files)
    case None => Ignored
    case Some(k) => AddClip(files[k], TimeAtPixel(x, pixelsPerSecond))
  }

  /** Names and types that pass the filter: the extension in any case, and
      any `audio/` type whatever the name. */
  lemma AudioFilesAccepted()
    ensures IsAudioFile(DroppedFile("Take 1.WAV", ""))
    ensures IsAudioFile(DroppedFile("loop.m4a", "application/octet-stream"))
    ensures IsAudioFile(DroppedFile("recording", "audio/webm"))
  {
    assert EndsWithExtension("Take 1.WAV", AudioExtensions[0]);
    assert EndsWithExtension("loop.m4a", AudioExtensions[5]);
    assert "audio/webm"[..6] == "audio/";
  }

  /** Names that do not: the extension must come last, after a dot. */
  lemma NonAudioFilesRejected()
    ensures !IsAudioFile(DroppedFile("notes.wav.txt", "text/plain"))
    ensures !IsAudioFile(DroppedFile("mp3", ""))
  {
    assert "text/plain"[0] == 't';
    forall i | 0 <= i < |AudioExtensions|
      ensures !EndsWithExtension("notes.wav.txt", AudioExtensions[i])
    {
      var ext := AudioExtensions[i];
      if |ext| == 3 {
        assert LowerAll("notes.wav.txt"[10..])[0] == 't' != ext[0];
      } else {
        assert "notes.wav.txt"[8] == 'v';
      }
    }
  }

  /** Dragging a clip's left edge to `newDuration`: the end stays put and the
      source stays aligned, so start and trim both move by the change. */
  function ResizeFromStart(c: AudioClip, newDuration: real): (r: AudioClip)
    ensures r.duration == newDuration
    ensures r.startTime + r.duration == c.startTime + c.duration
    ensures r.startTime - r.offset == c.startTime - c.offset
    ensures r.id == c.id && r.name == c.name && r.url == c.url && r.color == c.color
  {
    var delta := c.duration - newDuration;
    c.(duration := newDuration, startTime := c.startTime + delta, offset := c.offset + delta)
  }

  /** Dragging a clip's right edge: only the duration changes. */
  function ResizeFromEnd(c: AudioClip, newDuration: real): (r: AudioClip)
    ensures r.duration == newDuration
    ensures r.startTime == c.startTime && r.offset == c.offset
    ensures r.id == c.id && r.name == c.name && r.url == c.url && r.color == c.color
  {
    c.(duration := newDuration)
  }

  /** After a resize from the start, playback from any point inside both the
      old and the new clip reads the same source position as before. */
  lemma ResizeFromStartKeepsAudio(c: AudioClip, newDuration: real, fromTime: real)
    requires fromTime >= c.startTime && fromTime >= ResizeFromStart(c, newDuration).startTime
    ensures var r := ResizeFromStart(c, newDuration);
      VoiceSourceOffset(r.offset, r.startTime, fromTime) == VoiceSourceOffset(c.offset, c.startTime, fromTime)
  {
  }

  /** Math.ceil. */
  function Ceil(x: real): (n: int)
    ensures n as real - 1.0 < x <= n as real
  {
    -((-x).Floor)
  }

  /** Beats per second, bpm / 60. */
  function BeatsPerSecond(bpm: real): real {
    bpm / 60.0
  }

  /** Pixels per beat: zoom / beatsPerSecond. */
  function PixelsPerBeat(pixelsPerSecond: real, bpm: real): real
    requires bpm > 0.0
  {
    pixelsPerSecond / BeatsPerSecond(bpm)
  }

  /** Pixels per 4/4 bar. */
  function PixelsPerBar(pixelsPerSecond: real, bpm: real): real
    requires bpm > 0.0
  {
    PixelsPerBeat(pixelsPerSecond, bpm) * 4.0
  }

  /** The last bar the ruler draws: Math.ceil(duration * beatsPerSecond / 4) + 10. */
  function TotalBars(duration: real, bpm: real): int {
    Ceil(duration * BeatsPerSecond(bpm) / 4.0) + 10
  }

  /** The ruler loops `bar = 0 .. totalBars`: this many bars, none when
      totalBars is negative. */
  function BarCount(totalBars: int): nat {
    if totalBars >= 0 then totalBars + 1 else 0
  }

  /** A ruler line: a bar line labelled with its 1-based number, or one of
      the three beat lines inside a bar. */
  datatype Marker = BarLine(bar: nat, number: nat, x: real) | BeatLine(bar: nat, beat: nat, x: real)

  /** The four lines for one bar: the bar line at bar * pixelsPerBar, then
      beats 1, 2 and 3 one pixelsPerBeat apart. */
  function BarGroup(bar: nat, pixelsPerBar: real, pixelsPerBeat: real): (g: seq<Marker>)
    ensures |g| == 4
  {
    var x := bar as real * pixelsPerBar;
    [BarLine(bar, bar + 1, x),
     BeatLine(bar, 1, x + 1 as real * pixelsPerBeat),
     BeatLine(bar, 2, x + 2 as real * pixelsPerBeat),
     BeatLine(bar, 3, x + 3 as real * pixelsPerBeat)]
  }

  /** The lines for bars 0 .. bars - 1, in the order they are pushed. */
  function Ruler(bars: nat, pixelsPerBar: real, pixelsPerBeat: real): seq<Marker> {
    if bars == 0 then [] else Ruler(bars - 1, pixelsPerBar, pixelsPerBeat) + BarGroup(bars - 1, pixelsPerBar, pixelsPerBeat)
  }

  /** renderTimeRuler: for each bar push its bar line, then its three beat lines. */
  method RenderTimeRuler(duration: real, bpm: real, pixelsPerSecond: real) returns (markers: seq<Marker>)
    requires bpm > 0.0
    ensures markers == Ruler(BarCount(TotalBars(duration, bpm)), PixelsPerBar(pixelsPerSecond, bpm), PixelsPerBeat(pixelsPerSecond, bpm))
  {
    var beatsPerSecond := bpm / 60.0;
    var pixelsPerBeat := pixelsPerSecond / beatsPerSecond;
    var pixelsPerBar := pixelsPerBeat * 4.0;
    var totalBars := Ceil(duration * beatsPerSecond / 4.0) + 10;
    markers := [];
    var bar: nat := 0;
    while bar <= totalBars
      invariant bar <= BarCount(totalBars)
      invariant markers == Ruler(bar, pixelsPerBar, pixelsPerBeat)
      decreases totalBars - bar
    {
      var x := bar as real * pixelsPerBar;
      ghost var before := markers;
      markers := markers + [BarLine(bar, bar + 1, x)];
      for beat := 1 to 4
        invariant markers == before + BarGroup(bar, pixelsPerBar, pixelsPerBeat)[..beat]
      {
        ghost var group := BarGroup(bar, pixelsPerBar, pixelsPerBeat);
        assert group[beat] == BeatLine(bar, beat, x + beat as real * pixelsPerBeat) by {
          assert beat == 1 || beat == 2 || beat == 3;
        }
        assert group[..beat + 1] == group[..beat] + [group[beat]];
        markers := markers + [BeatLine(bar, beat, x + beat as real * pixelsPerBeat)];
      }
      bar := bar + 1;
    }
    assert totalBars == TotalBars(duration, bpm) && bar == BarCount(totalBars);
    assert pixelsPerBeat == PixelsPerBeat(pixelsPerSecond, bpm);
  }

  /** Line 4 * bar + beat of a ruler of n bars: beat 0 is the bar line of
      `bar` at bar * pixelsPerBar, beats 1 to 3 are its beat lines at
      pixelsPerBeat steps after it. So the ruler holds 4 * n lines, exactly n
      of them bar lines. */
  lemma {:induction false} RulerAt(n: nat, pixelsPerBar: real, pixelsPerBeat: real, bar: nat, beat: nat)
    requires bar < n && beat < 4
    ensures |Ruler(n, pixelsPerBar, pixelsPerBeat)| == 4 * n
    ensures var x := bar as real * pixelsPerBar;
      Ruler(n, pixelsPerBar, pixelsPerBeat)[4 * bar + beat] ==
        if beat == 0 then BarLine(bar, bar + 1, x)
        else BeatLine(bar, beat, x + beat as real * pixelsPerBeat)
  {
    var prev := Ruler(n - 1, pixelsPerBar, pixelsPerBeat);
    RulerLength(n - 1, pixelsPerBar, pixelsPerBeat);
    RulerLength(n, pixelsPerBar, pixelsPerBeat);
    if bar < n - 1 {
      RulerAt(n - 1, pixelsPerBar, pixelsPerBeat, bar, beat);
      assert Ruler(n, pixelsPerBar, pixelsPerBeat)[4 * bar + beat] == prev[4 * bar + beat];
    } else {
      assert bar == n - 1 && 4 * bar + beat - |prev| == beat;
      assert Ruler(n, pixelsPerBar, pixelsPerBeat)[4 * bar + beat] == BarGroup(bar, pixelsPerBar, pixelsPerBeat)[beat];
    }
  }

  lemma {:induction false} RulerLength(n: nat, pixelsPerBar: real, pixelsPerBeat: real)
    ensures |Ruler(n, pixelsPerBar, pixelsPerBeat)| == 4 * n
  {
    if n > 0 {
      RulerLength(n - 1, pixelsPerBar, pixelsPerBeat);
    }
  }

  /** For an arrangement of non-negative length the ruler has at least 11
      bars, and its bar lines run at least 10 bars past the arrangement's end:
      the bar line of bar totalBars - 10 is at or right of duration * zoom. */
  lemma RulerCoversArrangement(duration: real, bpm: real, pixelsPerSecond: real)
    requires duration >= 0.0 && bpm > 0.0 && pixelsPerSecond > 0.0
    ensures TotalBars(duration, bpm) >= 10
    ensures (TotalBars(duration, bpm) - 10) as real * PixelsPerBar(pixelsPerSecond, bpm) >= duration * pixelsPerSecond
  {
    var bps := BeatsPerSecond(bpm);
    var bars := TotalBars(duration, bpm) - 10;
    assert bars as real >= duration * bps / 4.0;
    var ppBar := PixelsPerBar(pixelsPerSecond, bpm);
    assert ppBar == pixelsPerSecond * 4.0 / bps;
    assert bars as real * ppBar >= (duration * bps / 4.0) * ppBar;
    assert (duration * bps / 4.0) * ppBar == duration * pixelsPerSecond;
  }

  /** The patch a track header's callback sends with the track's id: the
      fields of a Partial<Track> that it sets. */
  datatype TrackPatch = TrackPatch(muted: Option<bool>, solo: Option<bool>)

  /** onMuteToggle: { muted: !track.muted } for this track's id. */
  function MuteToggle(t: Track): (u: (string, TrackPatch))
    ensures u.0 == t.id && u.1.solo.None?
  {
    (t.id, TrackPatch(Some(!t.muted), None))
  }

  /** onSoloToggle: { solo: !track.solo } for this track's id. */
  function SoloToggle(t: Track): (u: (string, TrackPatch))
    ensures u.0 == t.id && u.1.muted.None?
  {
    (t.id, TrackPatch(None, Some(!t.solo)))
  }

  /** The track with a patch spread over it ({ ...track, ...patch }). */
  function Patched(t: Track, p: TrackPatch): Track {
    var m := if p.muted.Some? then p.muted.value else t.muted;
    var s := if p.solo.Some? then p.solo.value else t.solo;
    t.(muted := m, solo := s)
  }

  /** Each toggle flips its own flag and nothing else, and toggling twice
      restores the track. */
  lemma TogglesFlipOneFlag(t: Track)
    ensures Patched(t, MuteToggle(t).1) == t.(muted := !t.muted)
    ensures Patched(t, SoloToggle(t).1) == t.(solo := !t.solo)
    ensures var once := Patched(t, MuteToggle(t).1); Patched(once, MuteToggle(once).1) == t
    ensures var once := Patched(t, SoloToggle(t).1); Patched(once, SoloToggle(once).1) == t
  {
  }
}
