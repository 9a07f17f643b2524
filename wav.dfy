/** The WAV serialiser: a RIFF file of form WAVE with a `fmt ` chunk
    describing 16-bit PCM and a `data` chunk of interleaved little-endian
    signed 16-bit frames, written byte by byte into a zero-filled buffer
    exactly as large as the file. */
module Wav {
  import opened AudioTypes

  /** Bytes DataView.setUint16(_, x, true) writes: x modulo 2^16, low byte first.
      setInt16 writes the same bytes for an integral x (two's complement). */
  function U16LE(x: int): (b: seq<uint8>)
    ensures |b| == 2
  {
    var v := x % 0x1_0000;
    [(v % 0x100) as uint8, (v / 0x100) as uint8]
  }

  /** Bytes DataView.setUint32(_, x, true) writes: x modulo 2^32, low byte first. */
  function U32LE(x: int): (b: seq<uint8>)
    ensures |b| == 4
  {
    var v := x % 0x1_0000_0000;
    [(v % 0x100) as uint8, (v / 0x100 % 0x100) as uint8,
     (v / 0x1_0000 % 0x100) as uint8, (v / 0x100_0000) as uint8]
  }

  /** Bytes writeString stores: each character code, as setUint8 truncates it to 8 bits. */
  function Ascii(s: string): (b: seq<uint8>)
    ensures |b| == |s|
  {
    seq(|s|, i requires 0 <= i < |s| => ((s[i] as int) % 0x100) as uint8)
  }

  /** Reading back what the writers above store. */
  function ReadU16LE(b: seq<uint8>, off: nat): int
    requires off + 2 <= |b|
  {
    b[off] as int + 0x100 * b[off + 1] as int
  }

  function ReadU32LE(b: seq<uint8>, off: nat): int
    requires off + 4 <= |b|
  {
    b[off] as int + 0x100 * b[off + 1] as int + 0x1_0000 * b[off + 2] as int + 0x100_0000 * b[off + 3] as int
  }

  function ReadI16LE(b: seq<uint8>, off: nat): int
    requires off + 2 <= |b|
  {
    var u := ReadU16LE(b, off);
    if u >= 0x8000 then u - 0x1_0000 else u
  }

  lemma U16RoundTrip(x: int)
    ensures ReadU16LE(U16LE(x), 0) == x % 0x1_0000
  {
    var v := x % 0x1_0000;
    assert v == (v / 0x100) * 0x100 + v % 0x100;
  }

  lemma U32RoundTrip(x: int)
    ensures ReadU32LE(U32LE(x), 0) == x % 0x1_0000_0000
  {
    var v := x % 0x1_0000_0000;
    var b := U32LE(x);
    var q1 := v / 0x100;
    var q2 := q1 / 0x100;
    var q3 := q2 / 0x100;
    assert v == q1 * 0x100 + v % 0x100;
    assert q1 == q2 * 0x100 + q1 % 0x100;
    assert q2 == q3 * 0x100 + q2 % 0x100;
    assert v / 0x1_0000 == q2;
    assert v / 0x100_0000 == q3;
    assert b[0] as int == v % 0x100 && b[1] as int == q1 % 0x100;
    assert b[2] as int == q2 % 0x100 && b[3] as int == q3;
  }

  /** A 16-bit sample written with setInt16 reads back as itself. */
  lemma I16RoundTrip(x: int)
    requires -0x8000 <= x < 0x8000
    ensures ReadI16LE(U16LE(x), 0) == x
  {
    U16RoundTrip(x);
  }

  /** Math.max(-1, Math.min(1, s)). */
  function Clamp(s: real): (c: real)
    ensures -1.0 <= c <= 1.0
    ensures -1.0 <= s <= 1.0 ==> c == s
    ensures s > 1.0 ==> c == 1.0
    ensures s < -1.0 ==> c == -1.0
  {
    var m := if s < 1.0 then s else 1.0;
    if m > -1.0 then m else -1.0
  }

  /** ToInt16's first step: drop the fraction, rounding toward zero. */
  function Trunc(x: real): (n: int)
    ensures x >= 0.0 ==> 0 <= n && n as real <= x < n as real + 1.0
    ensures x < 0.0 ==> n <= 0 && n as real - 1.0 < x <= n as real
  {
    if x < 0.0 then -((-x).Floor) else x.Floor
  }

  /** The integer stored for one sample: clamped to [-1, 1], then scaled by
      0x8000 below zero and by 0x7FFF otherwise, then truncated. */
  function Quantize(s: real): (q: int)
    ensures -0x8000 <= q <= 0x7FFF
    ensures s >= 1.0 ==> q == 0x7FFF
    ensures s <= -1.0 ==> q == -0x8000
    ensures s >= 0.0 ==> q >= 0
    ensures s < 0.0 ==> q <= 0
  {
    var c := Clamp(s);
    Trunc(if c < 0.0 then c * 32768.0 else c * 32767.0)
  }

  /** The 44-byte header for `numChannels` channels of 16-bit PCM at
      `sampleRate` with `dataLength` bytes of sample data. */
  function Header(numChannels: nat, sampleRate: nat, dataLength: nat): (h: seq<uint8>)
    ensures |h| == 44
  {
    Ascii("RIFF") + U32LE(36 + dataLength) + Ascii("WAVE") + Ascii("fmt ") +
    U32LE(16) + U16LE(1) + U16LE(numChannels) + U32LE(sampleRate) +
    U32LE(sampleRate * (numChannels * 2)) + U16LE(numChannels * 2) + U16LE(16) +
    Ascii("data") + U32LE(dataLength)
  }

  /** Channels 0..k-1 of frame i, two bytes each. */
  function ChannelBytes(b: AudioBuffer, i: nat, k: nat): (r: seq<uint8>)
    requires b.Valid() && i < b.length && k <= |b.channels|
    ensures |r| == 2 * k
  {
    if k == 0 then [] else ChannelBytes(b, i, k - 1) + U16LE(Quantize(b.channels[k - 1][i]))
  }

  /** Frames 0..n-1, interleaved. */
  function FrameData(b: AudioBuffer, n: nat): (r: seq<uint8>)
    requires b.Valid() && n <= b.length
  {
    if n == 0 then [] else FrameData(b, n - 1) + ChannelBytes(b, n - 1, |b.channels|)
  }

  /** The whole file for a buffer. */
  function WavFile(b: AudioBuffer): seq<uint8>
    requires b.Valid()
  {
    Header(|b.channels|, b.sampleRate, b.length * (|b.channels| * 2)) + FrameData(b, b.length)
  }

  lemma {:induction false} FrameDataLength(b: AudioBuffer, n: nat)
    requires b.Valid() && n <= b.length
    ensures |FrameData(b, n)| == 2 * (n * |b.channels|)
  {
    if n > 0 {
      FrameDataLength(b, n - 1);
      assert n * |b.channels| == (n - 1) * |b.channels| + |b.channels|;
    }
  }

  lemma {:induction false} ChannelBytesAt(b: AudioBuffer, i: nat, k: nat, c: nat)
    requires b.Valid() && i < b.length && c < k <= |b.channels|
    ensures ChannelBytes(b, i, k)[2 * c..2 * c + 2] == U16LE(Quantize(b.channels[c][i]))
  {
    if c < k - 1 {
      ChannelBytesAt(b, i, k - 1, c);
    }
  }

  lemma SliceOfRight(a: seq<uint8>, b: seq<uint8>, k: nat, m: nat)
    requires |a| <= k && k + m <= |a| + |b|
    ensures (a + b)[k..k + m] == b[k - |a|..k - |a| + m]
  {
  }

  /** The first m frames are a prefix of the first n. */
  lemma {:induction false} FrameDataPrefix(b: AudioBuffer, m: nat, n: nat)
    requires b.Valid() && m <= n <= b.length
    ensures FrameData(b, m) <= FrameData(b, n)
    decreases n
  {
    if m < n {
      FrameDataPrefix(b, m, n - 1);
      assert FrameData(b, n) == FrameData(b, n - 1) + ChannelBytes(b, n - 1, |b.channels|);
    }
  }

  /** Sample i of channel c is the two bytes at 2 * (i * channels + c) of
      the frame data, which frame i opens with 2 * (i * channels) bytes before it. */
  lemma {:induction false} FrameDataAt(b: AudioBuffer, n: nat, i: nat, c: nat)
    requires b.Valid() && i < n <= b.length && c < |b.channels|
    ensures 2 * (i * |b.channels| + c) + 2 <= |FrameData(b, n)|
    ensures FrameData(b, n)[2 * (i * |b.channels| + c)..2 * (i * |b.channels| + c) + 2]
         == U16LE(Quantize(b.channels[c][i]))
  {
    var nc := |b.channels|;
    var before := FrameData(b, i);
    var frame := ChannelBytes(b, i, nc);
    var k := 2 * (i * nc + c);
    FrameDataLength(b, i);
    assert k == |before| + 2 * c;
    assert FrameData(b, i + 1) == before + frame;
    FrameDataPrefix(b, i + 1, n);
    ChannelBytesAt(b, i, nc, c);
    SliceOfRight(before, frame, k, 2);
    assert FrameData(b, n)[k..k + 2] == FrameData(b, i + 1)[k..k + 2];
  }

  /** The file is the header plus two bytes per sample per channel. */
  lemma WavLength(b: AudioBuffer)
    requires b.Valid()
    ensures |WavFile(b)| == 44 + 2 * (b.length * |b.channels|)
  {
    FrameDataLength(b, b.length);
  }

  /** The chunk tags of a header read back as written. */
  lemma HeaderTags(w: seq<uint8>, nc: nat, sampleRate: nat, dataLength: nat)
    requires |w| >= 44 && w[..44] == Header(nc, sampleRate, dataLength)
    ensures w[0..4] == Ascii("RIFF") && w[8..12] == Ascii("WAVE")
    ensures w[12..16] == Ascii("fmt ") && w[36..40] == Ascii("data")
  {
    var h := Header(nc, sampleRate, dataLength);
    assert w[0..4] == h[0..4] && w[8..12] == h[8..12];
    assert w[12..16] == h[12..16] && w[36..40] == h[36..40];
  }

  /** The sizes of a header: RIFF size, fmt chunk size and data size. */
  lemma HeaderSizes(w: seq<uint8>, nc: nat, sampleRate: nat, dataLength: nat)
    requires |w| >= 44 && w[..44] == Header(nc, sampleRate, dataLength)
    ensures ReadU32LE(w, 4) == (36 + dataLength) % 0x1_0000_0000
    ensures ReadU32LE(w, 16) == 16
    ensures ReadU32LE(w, 40) == dataLength % 0x1_0000_0000
  {
    var h := Header(nc, sampleRate, dataLength);
    U32RoundTrip(36 + dataLength);
    assert w[4..8] == h[4..8] == U32LE(36 + dataLength);
    U32RoundTrip(16);
    assert w[16..20] == h[16..20] == U32LE(16);
    U32RoundTrip(dataLength);
    assert w[40..44] == h[40..44] == U32LE(dataLength);
  }

  /** The format of a header: PCM, channel count, rates and sample size. */
  lemma HeaderFormat(w: seq<uint8>, nc: nat, sampleRate: nat, dataLength: nat)
    requires |w| >= 44 && w[..44] == Header(nc, sampleRate, dataLength)
    ensures ReadU16LE(w, 20) == 1
    ensures ReadU16LE(w, 22) == nc % 0x1_0000
    ensures ReadU32LE(w, 24) == sampleRate % 0x1_0000_0000
    ensures ReadU32LE(w, 28) == (sampleRate * (nc * 2)) % 0x1_0000_0000
    ensures ReadU16LE(w, 32) == (nc * 2) % 0x1_0000
    ensures ReadU16LE(w, 34) == 16
  {
    var h := Header(nc, sampleRate, dataLength);
    U16RoundTrip(1);
    assert w[20..22] == h[20..22] == U16LE(1);
    U16RoundTrip(nc);
    assert w[22..24] == h[22..24] == U16LE(nc);
    U32RoundTrip(sampleRate);
    assert w[24..28] == h[24..28] == U32LE(sampleRate);
    U32RoundTrip(sampleRate * (nc * 2));
    assert w[28..32] == h[28..32] == U32LE(sampleRate * (nc * 2));
    U16RoundTrip(nc * 2);
    assert w[32..34] == h[32..34] == U16LE(nc * 2);
    U16RoundTrip(16);
    assert w[34..36] == h[34..36] == U16LE(16);
  }

  /** Reading the header back gives the chunk tags, the RIFF size 36 + data
      length, PCM format 1, the channel count, the sample rate, the byte rate
      sampleRate * blockAlign, blockAlign = 2 * channels, 16 bits per sample
      and the data length, each modulo its field width. */
  lemma WavHeaderFields(b: AudioBuffer)
    requires b.Valid()
    ensures var w := WavFile(b);
      var nc := |b.channels|;
      var dataLength := b.length * (nc * 2);
      && |w| >= 44
      && w[0..4] == Ascii("RIFF")
      && ReadU32LE(w, 4) == (36 + dataLength) % 0x1_0000_0000
      && w[8..12] == Ascii("WAVE")
      && w[12..16] == Ascii("fmt ")
      && ReadU32LE(w, 16) == 16
      && ReadU16LE(w, 20) == 1
      && ReadU16LE(w, 22) == nc % 0x1_0000
      && ReadU32LE(w, 24) == b.sampleRate % 0x1_0000_0000
      && ReadU32LE(w, 28) == (b.sampleRate * (nc * 2)) % 0x1_0000_0000
      && ReadU16LE(w, 32) == (nc * 2) % 0x1_0000
      && ReadU16LE(w, 34) == 16
      && w[36..40] == Ascii("data")
      && ReadU32LE(w, 40) == dataLength % 0x1_0000_0000
  {
    var w := WavFile(b);
    var nc := |b.channels|;
    var dataLength := b.length * (nc * 2);
    assert w[..44] == Header(nc, b.sampleRate, dataLength);
    HeaderTags(w, nc, b.sampleRate, dataLength);
    HeaderSizes(w, nc, b.sampleRate, dataLength);
    HeaderFormat(w, nc, b.sampleRate, dataLength);
  }

  /** Behind any 44-byte header, frame i of channel c reads back as its quantised sample. */
  lemma SampleAfterHeader(h: seq<uint8>, b: AudioBuffer, i: nat, c: nat)
    requires |h| == 44 && b.Valid() && i < b.length && c < |b.channels|
    ensures 44 + 2 * (i * |b.channels| + c) + 2 <= |h + FrameData(b, b.length)|
    ensures ReadI16LE(h + FrameData(b, b.length), 44 + 2 * (i * |b.channels| + c))
         == Quantize(b.channels[c][i])
  {
    var k := 2 * (i * |b.channels| + c);
    var q := Quantize(b.channels[c][i]);
    FrameDataAt(b, b.length, i, c);
    SliceOfRight(h, FrameData(b, b.length), 44 + k, 2);
    I16RoundTrip(q);
  }

  /** The byte at which sample i of channel c starts in a file of nc channels. */
  function SampleOffset(nc: nat, i: nat, c: nat): nat {
    44 + 2 * (i * nc + c)
  }

  /** Frame i of channel c sits at byte 44 + 2 * (i * channels + c) and reads
      back as the clamped, scaled sample. */
  lemma WavSampleAt(b: AudioBuffer, i: nat, c: nat)
    requires b.Valid() && i < b.length && c < |b.channels|
    ensures SampleOffset(|b.channels|, i, c) + 2 <= |WavFile(b)|
    ensures ReadI16LE(WavFile(b), SampleOffset(|b.channels|, i, c)) == Quantize(b.channels[c][i])
  {
    SampleAfterHeader(Header(|b.channels|, b.sampleRate, b.length * (|b.channels| * 2)), b, i, c);
  }

  /** writeString: the characters' codes at `offset`, nothing else touched. */
  method WriteString(view: array<uint8>, offset: nat, s: string)
    requires offset + |s| <= view.Length
    modifies view
    ensures view[..offset + |s|] == old(view[..offset]) + Ascii(s)
    ensures view[offset + |s|..] == old(view[offset + |s|..])
    ensures forall k :: 0 <= k < view.Length && !(offset <= k < offset + |s|) ==> view[k] == old(view[k])
  {
    for i := 0 to |s|
      invariant view[..offset + i] == old(view[..offset]) + Ascii(s)[..i]
      invariant view[offset + i..] == old(view[offset + i..])
      invariant forall k :: 0 <= k < view.Length && !(offset <= k < offset + i) ==> view[k] == old(view[k])
    {
      view[offset + i] := ((s[i] as int) % 0x100) as uint8;
      assert Ascii(s)[..i + 1] == Ascii(s)[..i] + [Ascii(s)[i]];
    }
  }

  /** DataView.setUint16 / setInt16 (little-endian). */
  method SetUint16(view: array<uint8>, offset: nat, x: int)
    requires offset + 2 <= view.Length
    modifies view
    ensures view[..offset + 2] == old(view[..offset]) + U16LE(x)
    ensures view[offset + 2..] == old(view[offset + 2..])
    ensures forall k :: 0 <= k < view.Length && !(offset <= k < offset + 2) ==> view[k] == old(view[k])
  {
    var b := U16LE(x);
    view[offset] := b[0];
    view[offset + 1] := b[1];
    assert view[..offset + 2] == view[..offset] + [b[0], b[1]];
  }

  /** DataView.setUint32 (little-endian). */
  method SetUint32(view: array<uint8>, offset: nat, x: int)
    requires offset + 4 <= view.Length
    modifies view
    ensures view[..offset + 4] == old(view[..offset]) + U32LE(x)
    ensures view[offset + 4..] == old(view[offset + 4..])
    ensures forall k :: 0 <= k < view.Length && !(offset <= k < offset + 4) ==> view[k] == old(view[k])
  {
    var b := U32LE(x);
    view[offset] := b[0];
    view[offset + 1] := b[1];
    view[offset + 2] := b[2];
    view[offset + 3] := b[3];
    assert view[..offset + 4] == view[..offset] + [b[0], b[1], b[2], b[3]];
  }

  /** Arithmetic of the running offset: the next two bytes still fit. */
  lemma NextSampleFits(i: nat, channel: nat, length: nat, nc: nat)
    requires i < length && channel < nc
    ensures 2 * (i * nc + channel) + 2 <= length * (nc * 2)
  {
    MulMonotone(i + 1, length, nc);
    assert (i + 1) * nc == i * nc + nc;
    DataBytes(length, nc);
  }

  lemma OffsetFits(i: nat, channel: nat, length: nat, nc: nat)
    requires (i < length && channel <= nc) || (i == length && channel == 0)
    ensures 2 * (i * nc + channel) <= length * (nc * 2)
  {
    if i < length {
      MulMonotone(i + 1, length, nc);
    }
    DataBytes(length, nc);
  }

  lemma DataBytes(length: nat, nc: nat)
    ensures length * (nc * 2) == 2 * (length * nc)
  {
  }

  lemma NextFrameOffset(i: nat, nc: nat)
    ensures i * nc + nc == (i + 1) * nc
  {
  }

  /** Appending one more channel's sample extends the frame being written. */
  lemma ExtendFrame(b: AudioBuffer, i: nat, channel: nat, done: seq<uint8>)
    requires b.Valid() && i < b.length && channel < |b.channels|
    ensures done + ChannelBytes(b, i, channel) + U16LE(Quantize(b.channels[channel][i]))
         == done + ChannelBytes(b, i, channel + 1)
  {
  }

  /** Appending frame i's channels extends the frames written so far. */
  lemma NextFrame(header: seq<uint8>, b: AudioBuffer, i: nat)
    requires b.Valid() && i < b.length
    ensures header + FrameData(b, i) + ChannelBytes(b, i, |b.channels|) == header + FrameData(b, i + 1)
  {
  }

  /** The header writes of audioBufferToWav, in the order the encoder issues them. */
  method WriteHeader(view: array<uint8>, numChannels: nat, sampleRate: nat, dataLength: nat)
    requires 44 <= view.Length
    modifies view
    ensures view[..44] == Header(numChannels, sampleRate, dataLength)
    ensures view[44..] == old(view[44..])
    ensures forall k :: 44 <= k < view.Length ==> view[k] == old(view[k])
  {
    var format := 1;
    var bitDepth := 16;
    var blockAlign := numChannels * (bitDepth / 8);
    assert blockAlign == numChannels * 2;
    ghost var h := Ascii("RIFF");
    WriteString(view, 0, "RIFF");
    assert view[..4] == h;
    SetUint32(view, 4, 36 + dataLength);
    h := h + U32LE(36 + dataLength);
    assert view[..8] == h;
    WriteString(view, 8, "WAVE");
    h := h + Ascii("WAVE");
    assert view[..12] == h;
    WriteString(view, 12, "fmt ");
    h := h + Ascii("fmt ");
    assert view[..16] == h;
    SetUint32(view, 16, 16);
    h := h + U32LE(16);
    assert view[..20] == h;
    SetUint16(view, 20, format);
    h := h + U16LE(format);
    assert view[..22] == h;
    SetUint16(view, 22, numChannels);
    h := h + U16LE(numChannels);
    assert view[..24] == h;
    SetUint32(view, 24, sampleRate);
    h := h + U32LE(sampleRate);
    assert view[..28] == h;
    SetUint32(view, 28, sampleRate * blockAlign);
    h := h + U32LE(sampleRate * blockAlign);
    assert view[..32] == h;
    SetUint16(view, 32, blockAlign);
    h := h + U16LE(blockAlign);
    assert view[..34] == h;
    SetUint16(view, 34, bitDepth);
    h := h + U16LE(bitDepth);
    assert view[..36] == h;
    WriteString(view, 36, "data");
    h := h + Ascii("data");
    assert view[..40] == h;
    SetUint32(view, 40, dataLength);
    h := h + U32LE(dataLength);
    assert view[..44] == h;
  }

  /** One frame of audioBufferToWav's sample loop: every channel's sample for
      frame `i`, clamped, scaled and stored with setInt16 at a running offset. */
  method WriteFrame(view: array<uint8>, offset: nat, buffer: AudioBuffer, i: nat) returns (next: nat)
    requires buffer.Valid() && i < buffer.length
    requires offset + 2 * |buffer.channels| <= view.Length
    modifies view
    ensures next == offset + 2 * |buffer.channels|
    ensures view[..next] == old(view[..offset]) + ChannelBytes(buffer, i, |buffer.channels|)
    ensures view[next..] == old(view[next..])
  {
    ghost var done := view[..offset];
    next := offset;
    for channel := 0 to |buffer.channels|
      invariant next == offset + 2 * channel
      invariant view[..next] == done + ChannelBytes(buffer, i, channel)
      invariant view[next..] == old(view[next..])
    {
      var sample := Clamp(buffer.channels[channel][i]);
      SetUint16(view, next, Trunc(if sample < 0.0 then sample * 32768.0 else sample * 32767.0));
      assert Trunc(if sample < 0.0 then sample * 32768.0 else sample * 32767.0)
          == Quantize(buffer.channels[channel][i]);
      ExtendFrame(buffer, i, channel, done);
      next := next + 2;
    }
  }

  /** audioBufferToWav: header fields in order, then every frame's samples
      channel by channel with a running byte offset. */
  method AudioBufferToWav(buffer: AudioBuffer) returns (wav: seq<uint8>)
    requires buffer.Valid()
    ensures wav == WavFile(buffer)
  {
    var numChannels := buffer.NumberOfChannels();
    var sampleRate := buffer.sampleRate;
    var bitDepth := 16;
    var bytesPerSample := bitDepth / 8;
    var blockAlign := numChannels * bytesPerSample;
    var dataLength := buffer.length * blockAlign;
    var bufferLength := 44 + dataLength;

    assert blockAlign == numChannels * 2 && dataLength == buffer.length * (numChannels * 2);

    var view := new uint8[bufferLength](_ => 0);
    WriteHeader(view, numChannels, sampleRate, dataLength);
    ghost var header := Header(numChannels, sampleRate, dataLength);

    var offset: nat := 44;
    for i := 0 to buffer.length
      invariant offset == 44 + 2 * (i * numChannels)
      invariant offset <= view.Length
      invariant view[..offset] == header + FrameData(buffer, i)
    {
      OffsetFits(i + 1, 0, buffer.length, numChannels);
      NextFrameOffset(i, numChannels);
      offset := WriteFrame(view, offset, buffer, i);
      NextFrame(header, buffer, i);
    }
    DataBytes(buffer.length, numChannels);
    wav := view[..];
    assert wav == view[..offset] == header + FrameData(buffer, buffer.length);
  }
}
