# Music audio studio: playback engine, WAV export, mixer and timeline arithmetic

This project models the core of a browser DAW (digital audio workstation) in Dafny:

- the audio engine hook, which keeps decoded buffers, per-track gain and pan stages and the started
  voices, schedules clips against a transport clock, stops and pauses;
- the offline mixdown, and the encoder that writes the rendered buffer as a 16-bit PCM RIFF/WAVE file;
- the 200-bar overview waveform computed from a decoded channel;
- the mixer panel's solo/mute rule, meter indexing and dB readout;
- the timeline's zoom, seek, drop, resize and ruler arithmetic.

Times, volumes and samples are mathematical reals. The audio context's clock is a parameter `now`.
Fetching and decoding are parameters too: an `Option<AudioBuffer>` that is `None` on failure.

Modules, one per file:

| file | module | what it holds |
|---|---|---|
| types.dfy | `AudioTypes` | `AudioClip`, `Track` and `AudioBuffer` as in the project's types, `Option`, the byte type `uint8` |
| scheduling.dfy | `Scheduling` | the start delay (`when`) and entry offset (`clipOffset`) of a voice |
| graph.dfy | `MixGraph` | the live node graph as a value (stages, voices, a node counter), what each engine step does to it, and what `play` leaves behind |
| engine.dfy | `Engine` | class `AudioEngine`, whose fields are the hook's refs and state; each method is proved to move the graph as the matching `MixGraph` function says |
| waveform.dfy | `Waveform` | `getWaveformData`'s bucketing, with JavaScript's `NaN` and `Infinity` explicit |
| wav.dfy | `Wav` | the WAV layout as byte sequences, the encoder over an `array<uint8>`, and read-back lemmas |
| export.dfy | `Export` | the offline graph `exportMix` builds, and the exported bytes |
| mixer.dfy | `Mixer` | `hasSolo`, the effective-mute rule, the meters, the dB readout |
| timeline.dfy | `Timeline` | zoom clamps, seek and drop times, the drop filter, clip resizing, the ruler, the mute/solo toggles |

Node identity is explicit. Every gain, pan and buffer-source node the engine creates gets the next number
from a counter. This makes two facts observable: `createTrackNodes` never replaces an existing stage, and a
clip started again replaces its earlier voice in the voice map without stopping it.

The model follows the code as written. Five behaviours of the code that are easy to miss:

- `play` only looks at `track.muted`. Solo is not applied to playback or to export. It only changes what
  is shown: the mixer panel's meters and solo buttons, and the track headers, which receive `hasSolo`.
- `play` does not stop voices that are already running. A clip started again gets a new voice, which
  overwrites the earlier one under the clip's id (`MixGraph.ReplayDropsEarlierVoice`).
- Clips that ended before the play position are still started. They start at once, from a source position
  past the clip's end.
- `source.start` gets no duration, so a voice is not cut off after `clip.duration`. No voice in the model
  carries a duration.
- Stages are created for every track, muted ones included.

The export length `duration * 44100` is truncated to a whole frame count, so the data size is
`4 * trunc(duration * 44100)` bytes. It is not exactly `duration * 44100 * 4` unless that product is whole.

## Model

| member | source | states |
|---|---|---|
| Scheduling.StartDelay | music-audio-studio-1/src/hooks/useAudioEngine.ts:130 | `when` is non-negative and at least `startTime - fromTime` |
| Scheduling.EntryOffset | music-audio-studio-1/src/hooks/useAudioEngine.ts:129-130 | `clipOffset` is non-negative; `when - clipOffset == startTime - fromTime`; at most one of the two is non-zero |
| Scheduling.VoiceStartAt | music-audio-studio-1/src/hooks/useAudioEngine.ts:132 | a voice starts no earlier than `now`: at `now` itself or at `now + (startTime - fromTime)` |
| Scheduling.VoiceSourceOffset | music-audio-studio-1/src/hooks/useAudioEngine.ts:129-132 | the first source position is the clip's trim, plus how far the play position is inside the clip when it is |
| Scheduling.VoiceAlignedWithTransport | music-audio-studio-1/src/hooks/useAudioEngine.ts:129-159 | at any clock time after its start, a voice reads the source position that belongs to the transport's arrangement position (anchor `now - fromTime`) |
| Scheduling.MidClipEntryExample | music-audio-studio-1/src/hooks/useAudioEngine.ts:129-130 | a clip at 2 s played from 3 s starts with no delay, one second into the clip |
| MixGraph.StageGain | music-audio-studio-1/src/hooks/useAudioEngine.ts:107 | a stage's gain is 0 when muted, else the volume |
| MixGraph.WithStage | music-audio-studio-1/src/hooks/useAudioEngine.ts:93-111 | creating or re-syncing a stage keeps the graph well numbered |
| MixGraph.WithStageEffect | music-audio-studio-1/src/hooks/useAudioEngine.ts:96-108 | the track has a stage with gain `muted ? 0 : volume` and its pan; an existing stage keeps its nodes; a missing one gets the next two node numbers; no other stage and no voice changes |
| MixGraph.WithStageIdempotent | music-audio-studio-1/src/hooks/useAudioEngine.ts:96-108 | syncing the same track twice equals syncing it once: no second stage is created |
| MixGraph.OutputFor | music-audio-studio-1/src/hooks/useAudioEngine.ts:122-127 | a voice goes to its track's gain node when that stage exists, else to the master gain |
| MixGraph.StartVoice | music-audio-studio-1/src/hooks/useAudioEngine.ts:113-134 | starting a clip keeps the graph well numbered |
| MixGraph.StartVoiceEffect | music-audio-studio-1/src/hooks/useAudioEngine.ts:115-133 | without a buffer nothing changes; with one, exactly the clip's entry is set to a fresh voice with its buffer, output, start time and source offset, and all other entries and stages are untouched |
| MixGraph.SyncStages | music-audio-studio-1/src/hooks/useAudioEngine.ts:144-146 | `play`'s first loop keeps the graph well numbered |
| MixGraph.StartClips | music-audio-studio-1/src/hooks/useAudioEngine.ts:151-155 | one track's clip loop keeps the graph well numbered |
| MixGraph.StartTrack | music-audio-studio-1/src/hooks/useAudioEngine.ts:149-157 | a muted track starts nothing |
| MixGraph.StartTracks | music-audio-studio-1/src/hooks/useAudioEngine.ts:149-157 | `play`'s second loop keeps the graph well numbered |
| MixGraph.PlayGraph | music-audio-studio-1/src/hooks/useAudioEngine.ts:144-157 | `play`'s effect on the graph keeps it well numbered |
| MixGraph.LastWithId | music-audio-studio-1/src/hooks/useAudioEngine.ts:144-146 | the track whose settings a stage ends with is in the list and has that id |
| MixGraph.TrackIdsMeaning | music-audio-studio-1/src/hooks/useAudioEngine.ts:144-146 | an id is among the track ids exactly when some track has it |
| MixGraph.BufferedIdsMeaning | music-audio-studio-1/src/hooks/useAudioEngine.ts:151-155 | a clip id is buffered exactly when some clip with that id has a decoded buffer |
| MixGraph.PlayableIdsMeaning | music-audio-studio-1/src/hooks/useAudioEngine.ts:149-155 | a clip id is playable exactly when an unmuted track holds a clip with that id and a buffer |
| MixGraph.SyncStagesKeys | music-audio-studio-1/src/hooks/useAudioEngine.ts:144-146 | after the first loop, the stages are the earlier ones plus one per track id; existing stages keep their nodes; voices are unchanged |
| MixGraph.SyncStagesSettings | music-audio-studio-1/src/hooks/useAudioEngine.ts:144-146 | each stage carries the gain and pan of the last track with its id |
| MixGraph.StartClipsFrame | music-audio-studio-1/src/hooks/useAudioEngine.ts:151-155 | the clip loop leaves the stages alone and never moves the node counter back |
| MixGraph.StartClipsKeys | music-audio-studio-1/src/hooks/useAudioEngine.ts:151-155 | the clip loop adds or replaces voice entries for exactly the buffered clips, and every other entry is unchanged |
| MixGraph.StartClipsStarted | music-audio-studio-1/src/hooks/useAudioEngine.ts:151-155 | each buffered clip of an unmuted track gets the voice it calls for, on a node created by the loop |
| MixGraph.StartTracksFrame | music-audio-studio-1/src/hooks/useAudioEngine.ts:149-157 | the second loop leaves the stages alone and never moves the node counter back |
| MixGraph.StartTracksKeys | music-audio-studio-1/src/hooks/useAudioEngine.ts:149-157 | after the second loop, the voice keys are the earlier ones plus the playable clip ids, and every other entry is unchanged |
| MixGraph.StartTracksVoices | music-audio-studio-1/src/hooks/useAudioEngine.ts:149-157 | every playable clip id holds a voice for some clip of an unmuted track with that id, with the start time, source offset and output that clip calls for, on a node created by the loop |
| MixGraph.PlayAfterStopVoices | music-audio-studio-1/src/hooks/useAudioEngine.ts:144-157 | played after a stop, voices exist exactly for the buffered clips of unmuted tracks, and every track has a stage |
| MixGraph.ReplayDropsEarlierVoice | music-audio-studio-1/src/hooks/useAudioEngine.ts:133 | playing again replaces a running clip's voice with one on a newer node |
| Waveform.BlockSum | music-audio-studio-1/src/hooks/useAudioEngine.ts:78-81 | the sum of absolute samples of a block is non-negative |
| Waveform.BucketMean | music-audio-studio-1/src/hooks/useAudioEngine.ts:82 | a bar's mean is non-negative and finite, and NaN exactly when the block size is 0 |
| Waveform.RawLevels | music-audio-studio-1/src/hooks/useAudioEngine.ts:77-83 | there are exactly 200 unnormalised bars |
| Waveform.MaxOf | music-audio-studio-1/src/hooks/useAudioEngine.ts:85 | `Math.max` is NaN exactly when an element is NaN; otherwise it bounds every element and is one of them |
| Waveform.Ratio | music-audio-studio-1/src/hooks/useAudioEngine.ts:86 | `v / max` is the real quotient for a finite positive max, and NaN when either side is NaN |
| Waveform.Levels | music-audio-studio-1/src/hooks/useAudioEngine.ts:72-86 | there are always 200 bars |
| Waveform.BucketLevels | music-audio-studio-1/src/hooks/useAudioEngine.ts:72-86 | the nested loops and the normalisation compute `Levels` |
| Waveform.BlockSumZero | music-audio-studio-1/src/hooks/useAudioEngine.ts:78-81 | a block sums to zero exactly when all its samples are zero |
| Waveform.ShortChannelAllNaN | music-audio-studio-1/src/hooks/useAudioEngine.ts:74-82 | a channel of fewer than 200 samples gives 200 NaN bars |
| Waveform.SilentChannelAllNaN | music-audio-studio-1/src/hooks/useAudioEngine.ts:74-86 | a channel whose covered samples are all zero gives 200 NaN bars (0 / 0) |
| Waveform.SampleInBar | music-audio-studio-1/src/hooks/useAudioEngine.ts:79-80 | each covered sample index falls in exactly one of the 200 bars |
| Waveform.AudibleChannelNormalised | music-audio-studio-1/src/hooks/useAudioEngine.ts:85-86 | with a non-zero covered sample, every bar is finite in [0, 1] and some bar is exactly 1 |
| Waveform.RatioUnit | music-audio-studio-1/src/hooks/useAudioEngine.ts:86 | a value over a positive maximum it does not exceed lies in [0, 1], and the maximum itself maps to 1 |
| Waveform.IgnoresRemainder | music-audio-studio-1/src/hooks/useAudioEngine.ts:74-80 | samples after the last full block never affect the bars |
| Wav.U16LE | music-audio-studio-1/src/hooks/useAudioEngine.ts:344 | `setUint16(_, x, true)` writes two bytes |
| Wav.U32LE | music-audio-studio-1/src/hooks/useAudioEngine.ts:340 | `setUint32(_, x, true)` writes four bytes |
| Wav.Ascii | music-audio-studio-1/src/hooks/useAudioEngine.ts:371-375 | `writeString` writes one byte per character |
| Wav.U16RoundTrip | music-audio-studio-1/src/hooks/useAudioEngine.ts:344-349 | a 16-bit field reads back as the value modulo 2^16 |
| Wav.U32RoundTrip | music-audio-studio-1/src/hooks/useAudioEngine.ts:340-351 | a 32-bit field reads back as the value modulo 2^32 |
| Wav.I16RoundTrip | music-audio-studio-1/src/hooks/useAudioEngine.ts:363 | a sample in the signed 16-bit range reads back as itself |
| Wav.Clamp | music-audio-studio-1/src/hooks/useAudioEngine.ts:362 | the clamped sample lies in [-1, 1]; it is the sample itself inside that range and the nearer bound outside it |
| Wav.Trunc | music-audio-studio-1/src/hooks/useAudioEngine.ts:363 | dropping the fraction rounds toward zero |
| Wav.Quantize | music-audio-studio-1/src/hooks/useAudioEngine.ts:362-363 | a stored sample always lies in [-32768, 32767], keeps the sign, and full scale maps to 32767 and -32768 |
| Wav.Header | music-audio-studio-1/src/hooks/useAudioEngine.ts:339-351 | the header is 44 bytes |
| Wav.ChannelBytes | music-audio-studio-1/src/hooks/useAudioEngine.ts:361-365 | the first `k` channels of a frame take `2k` bytes |
| Wav.FrameDataLength | music-audio-studio-1/src/hooks/useAudioEngine.ts:359-366 | `n` frames take `2 * n * channels` bytes |
| Wav.FrameDataAt | music-audio-studio-1/src/hooks/useAudioEngine.ts:359-366 | sample `i` of channel `c` is the two bytes at `2 * (i * channels + c)` of the frame data |
| Wav.WavLength | music-audio-studio-1/src/hooks/useAudioEngine.ts:332-335 | the file is `44 + frames * channels * 2` bytes |
| Wav.HeaderTags | music-audio-studio-1/src/hooks/useAudioEngine.ts:339-350 | `RIFF`, `WAVE`, `fmt ` and `data` sit at bytes 0, 8, 12 and 36 |
| Wav.HeaderSizes | music-audio-studio-1/src/hooks/useAudioEngine.ts:340-351 | the RIFF size reads `36 + dataLength`, the fmt size 16, the data size `dataLength` (each modulo 2^32) |
| Wav.HeaderFormat | music-audio-studio-1/src/hooks/useAudioEngine.ts:344-349 | the header reads back PCM format 1, the channel count, the sample rate, byte rate `sampleRate * blockAlign`, block align `channels * 2` and 16 bits |
| Wav.WavHeaderFields | music-audio-studio-1/src/hooks/useAudioEngine.ts:339-351 | a buffer's file reads back every header field with data length `frames * channels * 2` |
| Wav.SampleAfterHeader | music-audio-studio-1/src/hooks/useAudioEngine.ts:359-366 | behind any 44-byte header, each sample reads back as its quantised value |
| Wav.WavSampleAt | music-audio-studio-1/src/hooks/useAudioEngine.ts:359-366 | frame `i` of channel `c` reads back at byte `44 + 2 * (i * channels + c)` as its clamped, scaled sample |
| Wav.WriteString | music-audio-studio-1/src/hooks/useAudioEngine.ts:371-375 | the characters' codes land at the offset; no other byte changes |
| Wav.SetUint16 | music-audio-studio-1/src/hooks/useAudioEngine.ts:344 | two little-endian bytes land at the offset; no other byte changes |
| Wav.SetUint32 | music-audio-studio-1/src/hooks/useAudioEngine.ts:340 | four little-endian bytes land at the offset; no other byte changes |
| Wav.WriteHeader | music-audio-studio-1/src/hooks/useAudioEngine.ts:339-351 | the twelve header writes leave exactly `Header` in the first 44 bytes, and every byte from 44 on is unchanged |
| Wav.WriteFrame | music-audio-studio-1/src/hooks/useAudioEngine.ts:361-365 | the channel loop appends one frame's samples and advances the offset by `2 * channels`; every byte from the new offset on is unchanged |
| Wav.AudioBufferToWav | music-audio-studio-1/src/hooks/useAudioEngine.ts:323-369 | the encoder's output is exactly the header followed by the interleaved frames |
| Export.FrameCount | music-audio-studio-1/src/hooks/useAudioEngine.ts:269 | the offline length is `duration * 44100` truncated, below 2^32 |
| Export.Place | music-audio-studio-1/src/hooks/useAudioEngine.ts:283-290 | a clip's offline voice plays its own buffer through its track's stage |
| Export.BuildOfflineGraph | music-audio-studio-1/src/hooks/useAudioEngine.ts:273-292 | the loop builds exactly one stage per unmuted track and the placements of their buffered clips |
| Export.OfflinePlacementsMeaning | music-audio-studio-1/src/hooks/useAudioEngine.ts:273-292 | a voice is scheduled exactly for each buffered clip of an unmuted track, at the clip's start and trim |
| Export.ClipPlacementsMeaning | music-audio-studio-1/src/hooks/useAudioEngine.ts:283-291 | within one track, exactly the buffered clips are placed |
| Export.OfflineStagesCount | music-audio-studio-1/src/hooks/useAudioEngine.ts:273-282 | there is one stage per unmuted track |
| Export.ExportMatchesLiveFromZero | music-audio-studio-1/src/hooks/useAudioEngine.ts:289 | an exported voice is timed as live playback from position 0 times it, with gain equal to the live stage's |
| Export.ExportMix | music-audio-studio-1/src/hooks/useAudioEngine.ts:268-299 | a zero frame count fails; otherwise the result is the offline graph and the WAV of the rendered 44.1 kHz buffer |
| Export.ExportedWavLayout | music-audio-studio-1/src/hooks/useAudioEngine.ts:294-297 | the exported file has a 2-channel, 44100 Hz header with `4 * frames` data bytes and is `44 + 4 * frames` bytes long |
| Engine.AudioEngine.constructor | music-audio-studio-1/src/hooks/useAudioEngine.ts:20-37 | a new engine has no context, no buffers, no stages, no voices, and a stopped transport at 0 |
| Engine.AudioEngine.InitAudioContext | music-audio-studio-1/src/hooks/useAudioEngine.ts:39-49 | the context exists afterwards; nothing else changes |
| Engine.AudioEngine.LoadAudioBuffer | music-audio-studio-1/src/hooks/useAudioEngine.ts:51-63 | a decoded buffer is stored under the clip id and returned; a failure returns nothing and stores nothing |
| Engine.AudioEngine.GetWaveformData | music-audio-studio-1/src/hooks/useAudioEngine.ts:65-91 | returns the 200 `Levels` of channel 0, or no bars when decoding failed or there is no channel 0 |
| Engine.AudioEngine.CreateTrackNodes | music-audio-studio-1/src/hooks/useAudioEngine.ts:93-111 | the graph becomes `WithStage` of the old one, and the track's gain stage is returned |
| Engine.AudioEngine.PlayClip | music-audio-studio-1/src/hooks/useAudioEngine.ts:113-134 | the graph becomes `StartVoice` of the old one |
| Engine.AudioEngine.SyncTrackNodes | music-audio-studio-1/src/hooks/useAudioEngine.ts:144-146 | the graph becomes `SyncStages` of the old one |
| Engine.AudioEngine.PlayTrackClips | music-audio-studio-1/src/hooks/useAudioEngine.ts:151-155 | the graph becomes `StartClips` of the old one |
| Engine.AudioEngine.PlayTracks | music-audio-studio-1/src/hooks/useAudioEngine.ts:149-157 | the graph becomes `StartTracks` of the old one |
| Engine.AudioEngine.Play | music-audio-studio-1/src/hooks/useAudioEngine.ts:136-161 | the graph becomes `PlayGraph` of the old one; the anchor is `now - fromTime`; the transport is playing |
| Engine.AudioEngine.StopVoices | music-audio-studio-1/src/hooks/useAudioEngine.ts:164-168 | `stop()` reaches the node of every stored voice |
| Engine.AudioEngine.Stop | music-audio-studio-1/src/hooks/useAudioEngine.ts:163-176 | every stored voice is stopped and the voice map emptied; the paused position is `now - startTime` when a context exists; the transport is stopped; stages and buffers are unchanged |
| Engine.AudioEngine.Pause | music-audio-studio-1/src/hooks/useAudioEngine.ts:178-183 | the same effect as `Stop` |
| Engine.AudioEngine.UpdateTrackVolume | music-audio-studio-1/src/hooks/useAudioEngine.ts:224-228 | only an existing stage's gain changes, to `muted ? 0 : volume`; an unknown track changes nothing; no voice is added |
| Engine.AudioEngine.UpdateTrackPan | music-audio-studio-1/src/hooks/useAudioEngine.ts:230-234 | only an existing stage's pan changes; an unknown track changes nothing; no voice is added |
| Engine.AudioEngine.SetCurrentTime | music-audio-studio-1/src/hooks/useAudioEngine.ts:316-319 | the paused and the displayed positions both become the given time |
| Engine.AudioEngine.UpdateTime | music-audio-studio-1/src/hooks/useAudioEngine.ts:249-255 | while playing, the displayed position is `now - startTime`, which is `fromTime` plus the time since `play` |
| Engine.AudioEngine.ExportMix | music-audio-studio-1/src/hooks/useAudioEngine.ts:268-299 | the export over the engine's decoded buffers, as `Export.ExportMix` states |
| Mixer.HasSolo | music-audio-studio-1/src/components/daw/MixerPanel.tsx:26 | true exactly when some track is soloed |
| Mixer.EffectiveMutedRules | music-audio-studio-1/src/components/daw/MixerPanel.tsx:38 | mute always wins; with no solo anywhere the strip follows its own mute; an unmuted soloed strip is never muted |
| Mixer.StripLive | music-audio-studio-1/src/components/daw/MixerPanel.tsx:38 | a strip is live exactly when it is unmuted and either soloed or no track is soloed |
| Mixer.DataIndex | music-audio-studio-1/src/components/daw/MixerPanel.tsx:30 | the analyser index is `index * dataLength / trackCount` and always a valid index |
| Mixer.MeterLevel | music-audio-studio-1/src/components/daw/MixerPanel.tsx:28-32 | the level lies in [0, 1]; it is 0 for empty data, otherwise the byte at the strip's index over 255 |
| Mixer.StripMeter | music-audio-studio-1/src/components/daw/MixerPanel.tsx:39 | a strip shown muted reads 0; otherwise it reads its `MeterLevel` |
| Mixer.MasterMeter | music-audio-studio-1/src/components/daw/MixerPanel.tsx:157 | a master meter lies in [0, 1]; a missing byte reads 0, otherwise the byte over 255 |
| Mixer.Round | music-audio-studio-1/src/components/daw/MixerPanel.tsx:137 | `Math.round` gives the integer within half a unit, halves rounded up |
| Mixer.Readout | music-audio-studio-1/src/components/daw/MixerPanel.tsx:137 | the readout is `-∞` exactly at volume 0; otherwise it is within half a dB of `(volume - 1) * 12` |
| Mixer.ReadoutRange | music-audio-studio-1/src/components/daw/MixerPanel.tsx:137 | for volume in (0, 1] the readout lies in [-12, 0] dB, and full volume reads 0 dB |
| Mixer.ReadoutMonotone | music-audio-studio-1/src/components/daw/MixerPanel.tsx:137 | the readout never goes down as the fader goes up |
| Timeline.ZoomOut | music-audio-studio-1/src/components/daw/Timeline.tsx:174 | zooming out lowers the zoom by 20 when that stays at or above 20, and gives 20 otherwise; it keeps [20, 200] |
| Timeline.ZoomIn | music-audio-studio-1/src/components/daw/Timeline.tsx:186 | zooming in raises the zoom by 20 when that stays at or below 200, and gives 200 otherwise; it keeps [20, 200] |
| Timeline.ZoomRoundTrip | music-audio-studio-1/src/components/daw/Timeline.tsx:174-186 | away from the clamps, zooming in then out (or out then in) returns to the same zoom |
| Timeline.TimeAtPixel | music-audio-studio-1/src/components/daw/Timeline.tsx:75-76 | the seek time is never negative, and is 0 left of the origin |
| Timeline.SeekUnderPointer | music-audio-studio-1/src/components/daw/Timeline.tsx:71-76 | after a seek right of the origin the playhead is drawn exactly under the pointer; left of it, at 0 |
| Timeline.TimelineWidth | music-audio-studio-1/src/components/daw/Timeline.tsx:64 | the width is at least 2000 and at least the arrangement's width |
| Timeline.PlayheadInsideTimeline | music-audio-studio-1/src/components/daw/Timeline.tsx:246 | the playhead of any time within the arrangement lies inside the timeline |
| Timeline.Lower | music-audio-studio-1/src/components/daw/Timeline.tsx:95 | case-insensitive matching folds only `A`-`Z` |
| Timeline.LowerAll | music-audio-studio-1/src/components/daw/Timeline.tsx:95 | a folded name is folded character by character |
| Timeline.FirstAudioFile | music-audio-studio-1/src/components/daw/Timeline.tsx:93-96 | `find` returns the first file that passes the filter, and nothing exactly when none does |
| Timeline.HandleDrop | music-audio-studio-1/src/components/daw/Timeline.tsx:88-104 | a clip is added exactly when some dropped file passes the filter; it is the first dropped file that passes; its start time is never negative and puts the playhead under the drop point |
| Timeline.AudioFilesAccepted | music-audio-studio-1/src/components/daw/Timeline.tsx:93-96 | an upper-case extension, an `m4a` name with another type, and an `audio/` type with no extension all pass |
| Timeline.NonAudioFilesRejected | music-audio-studio-1/src/components/daw/Timeline.tsx:93-96 | an audio extension that is not last, or has no dot before it, does not pass |
| Timeline.ResizeFromStart | music-audio-studio-1/src/components/daw/Timeline.tsx:279-286 | resizing from the start keeps the clip's end and its source alignment `startTime - offset`, and takes the new duration |
| Timeline.ResizeFromEnd | music-audio-studio-1/src/components/daw/Timeline.tsx:288 | resizing from the end changes only the duration |
| Timeline.ResizeFromStartKeepsAudio | music-audio-studio-1/src/components/daw/Timeline.tsx:281-286 | after a resize from the start, playing from a point inside the clip reads the same source position as before |
| Timeline.Ceil | music-audio-studio-1/src/components/daw/Timeline.tsx:108 | `Math.ceil` gives the least integer not below its argument |
| Timeline.BarGroup | music-audio-studio-1/src/components/daw/Timeline.tsx:111-134 | each bar pushes four lines |
| Timeline.RenderTimeRuler | music-audio-studio-1/src/components/daw/Timeline.tsx:106-138 | the nested loops push exactly the lines of `Ruler` for `totalBars + 1` bars |
| Timeline.RulerAt | music-audio-studio-1/src/components/daw/Timeline.tsx:110-134 | a ruler of `n` bars has `4n` lines; line `4 * bar` is bar `bar`'s line at `bar * pixelsPerBar` numbered `bar + 1`, and the next three are its beat lines at `x + beat * pixelsPerBeat` |
| Timeline.RulerLength | music-audio-studio-1/src/components/daw/Timeline.tsx:110-135 | a ruler of `n` bars has `4n` lines: one bar line and three beat lines per bar |
| Timeline.RulerCoversArrangement | music-audio-studio-1/src/components/daw/Timeline.tsx:108-111 | `totalBars` is at least 10, and the ruler reaches ten bars past the arrangement's end |
| Timeline.MuteToggle | music-audio-studio-1/src/components/daw/Timeline.tsx:211 | the mute toggle sends a patch for this track's id that leaves solo alone |
| Timeline.SoloToggle | music-audio-studio-1/src/components/daw/Timeline.tsx:212 | the solo toggle sends a patch for this track's id that leaves mute alone |
| Timeline.TogglesFlipOneFlag | music-audio-studio-1/src/components/daw/Timeline.tsx:211-212 | each toggle flips its own flag and nothing else, and toggling twice restores the track |

## Left out

- Web Audio itself is not modelled: creating the context, master gain and analyser, connecting nodes,
  `fetch`, `decodeAudioData`, and `ctx.resume()` for a suspended context. The clock is the parameter `now`.
  Fetching and decoding give an `Option<AudioBuffer>`. Connections are recorded as each voice's `Output`.
- What the offline context renders is not modelled: signal summation and panning. The rendered channels are
  a parameter of `ExportMix`. Only the graph the exporter builds and the WAV encoding are modelled.
- `source.start` throws a `RangeError` for a negative time or offset. The model does not throw. A negative
  `clip.offset`, or a negative clock time, would do so in the browser.
- Floating point is not modelled: reals replace IEEE doubles and `Float32Array` samples. `NaN` and
  `Infinity` are kept only in the waveform, where the code produces them (0 / 0 for an empty block or a silent
  channel).
- The animation-frame loop that polls the clock, and the analyser's frequency snapshot, are not modelled.
  `UpdateTime` models one frame's position update. The analyser bytes are an input to the mixer's meters.
- Recording (`startRecording`, `stopRecording`) is not modelled: it is device I/O with asynchronous callbacks.
- `audioBufferToWav` first gathers each channel's data into an array. The model reads the channels from
  the buffer directly; this gives the same samples.
- Object keys inherited from JavaScript's `Object.prototype` (a track or clip id such as `constructor`) are
  not modelled. Ids are plain map keys.
- Timeline.PixelsPerBeat and Timeline.PixelsPerBar require `bpm > 0`. Timeline.TimeAtPixel and
  Timeline.HandleDrop require a positive zoom. With a zero divisor the browser computes `Infinity` or
  `NaN`. The zoom buttons keep the zoom in [20, 200], so it is positive.
- Mixer.MeterLevel and Mixer.DataIndex require `index < trackCount`. The panel only calls them with indices
  of its own track list.
- Timeline.HandleDrop does not model the case where the timeline element is not mounted (`timelineRef` is
  null), in which the drop is ignored. Seeking likewise. It also does not model the drop-highlight state.
- The parent component that applies the patches sent by the track header and the clip callbacks (mute, solo,
  move, resize) is not part of this model. `Timeline.Patched` models a patch as a spread over the track.
- The volume, pan, arm, name and colour callbacks of the track header are not modelled; they forward a
  value unchanged. Clip move, delete, duplicate and split are not modelled either; they only forward to the
  parent.
- The zoom indicator's width and the drag/scroll state of the timeline are display state and are not modelled.
- The metronome, the project browser, the assistant service, the canvas waveform component, and the app
  shell and build configuration are not part of this model: they are timers, network calls, random data,
  drawing and routing.
