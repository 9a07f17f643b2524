/** The arrangement's data: tracks holding clips, decoded buffers, and the
    small Option wrapper used for the engine's "may be absent" results. */
module AudioTypes {

  datatype Option<+T> = None | Some(value: T)

  /** A byte, as stored in a Uint8Array or written by DataView.setUint8. */
  newtype uint8 = x: int | 0 <= x < 256

  /** Multiplying by a natural keeps the order of naturals; the buffer and
      waveform index bounds rest on it. */
  lemma MulMonotone(a: nat, b: nat, m: nat)
    requires a <= b
    ensures a * m <= b * m
  {
  }

  /** A clip placed on a track. Times are arrangement seconds:
      it starts sounding at `startTime`, lasts `duration`, and reads its
      source from `offset` seconds in. Name, url and colour are display data. */
  datatype AudioClip = AudioClip(
    id: string,
    name: string,
    url: string,
    startTime: real,
    duration: real,
    offset: real,
    color: string)

  /** A track: mixer settings plus its clips in order. */
  datatype Track = Track(
    id: string,
    name: string,
    color: string,
    volume: real,
    pan: real,
    muted: bool,
    solo: bool,
    armed: bool,
    clips: seq<AudioClip>)

  /** Decoded sample data: `channels[c][i]` is frame `i` of channel `c`. */
  datatype AudioBuffer = AudioBuffer(sampleRate: nat, length: nat, channels: seq<seq<real>>)
  {
    /** Every channel holds exactly `length` frames, as a Web Audio buffer does. */
    predicate Valid() {
      forall c :: 0 <= c < |channels| ==> |channels[c]| == length
    }

    function NumberOfChannels(): nat {
      |channels|
    }
  }
}
