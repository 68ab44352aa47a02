/** What the recorder's three exporters write (src/Recorder.cpp): a RIFF/WAVE PCM file, a
    Standard MIDI File of format 0, and a plain-text event list, each as the sequence of
    bytes or characters that ends up in the file. Integers the source copies straight from
    memory are laid out as a little-endian host stores them. Each format comes with a reader,
    and the round-trip lemmas say the reader recovers what was written. */
module FileFormats {
  import opened Numeric
  import opened NoteEvents

  datatype Option<T> = None | Some(value: T)

  type Byte = x: int | 0 <= x < 256

  function Pow256(n: nat): (p: nat)
    ensures p >= 1
  {
    if n == 0 then 1 else 256 * Pow256(n - 1)
  }

  lemma PowersUsed()
    ensures Pow256(1) == 0x100 && Pow256(2) == 0x1_0000 && Pow256(4) == 0x1_0000_0000
  {
    assert Pow256(2) == 256 * Pow256(1);
    assert Pow256(4) == 256 * (256 * Pow256(2));
  }

  /** The conversions to uint8_t, uint16_t and uint32_t: the value modulo 2^8, 2^16 or 2^32,
      which is the identity on values that fit. */
  function Uint8(x: int): (u: nat)
    ensures u < 0x100 && (0 <= x < 0x100 ==> u == x)
  {
    x % 0x100
  }

  function Uint16(x: int): (u: nat)
    ensures u < 0x1_0000 && (0 <= x < 0x1_0000 ==> u == x)
  {
    x % 0x1_0000
  }

  function Uint32(x: int): (u: nat)
    ensures u < 0x1_0000_0000 && (0 <= x < 0x1_0000_0000 ==> u == x)
  {
    x % 0x1_0000_0000
  }

  // ---------------------------------------------------------------- byte orders

  /** The n low-order bytes of x, least significant first. */
  function LE(x: nat, n: nat): (b: seq<Byte>)
    ensures |b| == n
  {
    if n == 0 then [] else [x % 256] + LE(x / 256, n - 1)
  }

  /** The n low-order bytes of x, most significant first. */
  function BE(x: nat, n: nat): (b: seq<Byte>)
    ensures |b| == n
  {
    if n == 0 then [] else BE(x / 256, n - 1) + [x % 256]
  }

  function ReadLE(b: seq<Byte>): (x: nat)
    ensures x < Pow256(|b|)
  {
    if b == [] then 0 else b[0] + 256 * ReadLE(b[1..])
  }

  function ReadBE(b: seq<Byte>): (x: nat)
    ensures x < Pow256(|b|)
  {
    if b == [] then 0 else 256 * ReadBE(b[..|b| - 1]) + b[|b| - 1]
  }

  /** Reading back n little-endian bytes gives the value that was written. */
  lemma {:induction false} LERoundTrip(x: nat, n: nat)
    requires x < Pow256(n)
    ensures ReadLE(LE(x, n)) == x
  {
    if n > 0 {
      LERoundTrip(x / 256, n - 1);
      assert LE(x, n)[1..] == LE(x / 256, n - 1);
    }
  }

  /** And the bytes are the only encoding of their value: writing what was read gives them back. */
  lemma {:induction false} ReadLERoundTrip(b: seq<Byte>)
    ensures LE(ReadLE(b), |b|) == b
  {
    if b != [] {
      var r := ReadLE(b[1..]);
      assert (b[0] + 256 * r) % 256 == b[0] && (b[0] + 256 * r) / 256 == r;
      ReadLERoundTrip(b[1..]);
    }
  }

  lemma {:induction false} BERoundTrip(x: nat, n: nat)
    requires x < Pow256(n)
    ensures ReadBE(BE(x, n)) == x
  {
    if n > 0 {
      BERoundTrip(x / 256, n - 1);
      assert BE(x, n)[..n - 1] == BE(x / 256, n - 1);
    }
  }

  /** The two byte orders are each other's reversal. */
  lemma {:induction false} BEReversesLE(x: nat, n: nat)
    ensures forall i :: 0 <= i < n ==> BE(x, n)[i] == LE(x, n)[n - 1 - i]
  {
    if n > 0 {
      BEReversesLE(x / 256, n - 1);
    }
  }

  // ---------------------------------------------------------------- WAV

  /** An int16_t as two bytes in memory: its two's-complement bit pattern, low byte first. */
  function Int16Bytes(v: int): (b: seq<Byte>)
    ensures |b| == 2
  {
    LE(Uint16(v), 2)
  }

  function ReadInt16(b: seq<Byte>): int
    requires |b| == 2
  {
    var u := ReadLE(b);
    if u < 0x8000 then u else u - 0x1_0000
  }

  /** Every int16_t value survives the trip through its two bytes. */
  lemma Int16RoundTrip(v: int)
    requires -0x8000 <= v < 0x8000
    ensures ReadInt16(Int16Bytes(v)) == v
  {
    PowersUsed();
    LERoundTrip(Uint16(v), 2);
  }

  const PcmFullScale: real := 32767.0

  /** One sample of exportToWAV: clamped to [-1, 1], scaled by 32767 and truncated toward
      zero by the cast to int16_t. */
  function PcmSample(x: real): (v: int)
    ensures -32767 <= v <= 32767
  {
    Trunc(Clamp(x, -1.0, 1.0) * PcmFullScale)
  }

  /** The conversion keeps the order of samples, hits full scale exactly at and beyond +-1,
      and, because the cast truncates toward zero, is symmetric about zero. */
  lemma PcmSampleShape(x: real, y: real)
    ensures x <= y ==> PcmSample(x) <= PcmSample(y)
    ensures x >= 1.0 ==> PcmSample(x) == 32767
    ensures x <= -1.0 ==> PcmSample(x) == -32767
    ensures PcmSample(-x) == -PcmSample(x)
  {
    if x <= y {
      TruncMonotone(Clamp(x, -1.0, 1.0) * PcmFullScale, Clamp(y, -1.0, 1.0) * PcmFullScale);
    }
    assert Clamp(-x, -1.0, 1.0) == -Clamp(x, -1.0, 1.0);
  }

  /** The pcmData vector: one converted sample per recorded sample. */
  function PcmSamples(audio: seq<real>): (vs: seq<int>)
    ensures |vs| == |audio|
  {
    if audio == [] then [] else PcmSamples(audio[..|audio| - 1]) + [PcmSample(audio[|audio| - 1])]
  }

  lemma {:induction false} PcmSamplesAt(audio: seq<real>, i: int)
    requires 0 <= i < |audio|
    ensures PcmSamples(audio)[i] == PcmSample(audio[i])
  {
    if i < |audio| - 1 {
      PcmSamplesAt(audio[..|audio| - 1], i);
    }
  }

  /** The data chunk: the samples' bytes, one after another. */
  function SampleData(vs: seq<int>): (b: seq<Byte>)
    ensures |b| == 2 * |vs|
  {
    if vs == [] then [] else Int16Bytes(vs[0]) + SampleData(vs[1..])
  }

  /** Two bytes at a time; a trailing odd byte is ignored. */
  function ReadSamples(b: seq<Byte>): seq<int>
  {
    if |b| < 2 then [] else [ReadInt16(b[..2])] + ReadSamples(b[2..])
  }

  predicate Int16Range(vs: seq<int>) {
    forall i :: 0 <= i < |vs| ==> -0x8000 <= vs[i] < 0x8000
  }

  lemma {:induction false} SampleDataRoundTrip(vs: seq<int>)
    requires Int16Range(vs)
    ensures ReadSamples(SampleData(vs)) == vs
  {
    if vs != [] {
      var b := SampleData(vs);
      assert b[..2] == Int16Bytes(vs[0]);
      assert b[2..] == SampleData(vs[1..]);
      SampleDataRoundTrip(vs[1..]);
      Int16RoundTrip(vs[0]);
    }
  }

  lemma {:induction false} PcmSamplesInRange(audio: seq<real>)
    ensures Int16Range(PcmSamples(audio))
  {
    forall i | 0 <= i < |audio| {
      PcmSamplesAt(audio, i);
    }
  }

  // ---------------------------------------------------------------- fixed-width fields

  /** A header written field by field, one after another. */
  function Concat(fields: seq<seq<Byte>>): seq<Byte>
  {
    if fields == [] then [] else fields[0] + Concat(fields[1..])
  }

  function Widths(fields: seq<seq<Byte>>): (w: seq<nat>)
    ensures |w| == |fields| && forall i :: 0 <= i < |fields| ==> w[i] == |fields[i]|
  {
    seq(|fields|, i requires 0 <= i < |fields| => |fields[i]|)
  }

  /** A reader's view of a header: cut off fields of the given widths, in order, and return
      them with the bytes after them. It stops early when the input runs out. */
  function Cut(b: seq<Byte>, widths: seq<nat>): (r: (seq<seq<Byte>>, seq<Byte>))
    ensures |r.0| <= |widths|
  {
    if widths == [] || |b| < widths[0] then ([], b)
    else
      var rest := Cut(b[widths[0]..], widths[1..]);
      ([b[..widths[0]]] + rest.0, rest.1)
  }

  /** Cutting a written header at its own widths gives back each field and what follows. */
  lemma {:induction false} CutConcat(fields: seq<seq<Byte>>, rest: seq<Byte>)
    ensures Cut(Concat(fields) + rest, Widths(fields)) == (fields, rest)
  {
    if fields == [] {
      assert Concat(fields) + rest == rest;
    } else {
      var f0, tail := fields[0], Concat(fields[1..]) + rest;
      var w := Widths(fields);
      assert Concat(fields) + rest == f0 + tail;
      assert w[0] == |f0| && w[1..] == Widths(fields[1..]);
      SplitAt(f0, tail);
      CutConcat(fields[1..], rest);
      assert [f0] + fields[1..] == fields;
    }
  }

  /** The first |x| bytes of x + y are x and the others y. */
  lemma SplitAt(x: seq<Byte>, y: seq<Byte>)
    ensures (x + y)[..|x|] == x && (x + y)[|x|..] == y
  {
  }

  // ---------------------------------------------------------------- WAV

  const PcmFormat: int := 1
  const RiffTag: seq<Byte> := [0x52, 0x49, 0x46, 0x46]   // "RIFF"
  const WaveTag: seq<Byte> := [0x57, 0x41, 0x56, 0x45]   // "WAVE"
  const FmtTag: seq<Byte> := [0x66, 0x6D, 0x74, 0x20]    // "fmt "
  const DataTag: seq<Byte> := [0x64, 0x61, 0x74, 0x61]   // "data"

  /** The byte widths of the WAVHeader struct's thirteen fields, 44 bytes in all. */
  const WavWidths: seq<nat> := [4, 4, 4, 4, 4, 2, 2, 4, 4, 2, 2, 4, 4]

  /** writeWAVHeader: the WAVHeader struct's fields in order: "RIFF", the size of everything
      after these eight bytes, "WAVE", "fmt ", the fmt chunk size 16, PCM, mono, the sample
      rate, the byte rate (rate times block align), block align 2, 16 bits per sample,
      "data" and the data size. The sample rate and data size are taken modulo 2^32 as the
      uint32_t fields store them. */
  function WavFields(sampleRate: int, dataSize: int): (f: seq<seq<Byte>>)
    ensures Widths(f) == WavWidths
  {
    var rate := Uint32(sampleRate);
    var size := Uint32(dataSize);
    [RiffTag, LE(Uint32(36 + size), 4), WaveTag,
     FmtTag, LE(16, 4), LE(PcmFormat, 2), LE(1, 2), LE(rate, 4), LE(Uint32(rate * 2), 4),
     LE(2, 2), LE(16, 2),
     DataTag, LE(size, 4)]
  }

  /** exportToWAV: nothing at all when no audio was recorded, otherwise the header followed by
      two bytes per sample. */
  function WavFile(audio: seq<real>, sampleRate: int): Option<seq<Byte>>
  {
    if audio == [] then None
    else Some(Concat(WavFields(sampleRate, 2 * |audio|)) + SampleData(PcmSamples(audio)))
  }

  datatype WavInfo = WavInfo(sampleRate: int, samples: seq<int>)

  /** The header checks of the reader: the chunk tags, sizes that agree with dataSize bytes
      of samples, the fmt chunk of 16 bytes describing PCM, mono, 16 bits per sample with
      block align 2, and a byte rate of twice the sample rate. */
  predicate WavHeaderOk(f: seq<seq<Byte>>, dataSize: int)
    requires |f| == |WavWidths|
  {
    && f[0] == RiffTag && f[2] == WaveTag && f[3] == FmtTag && f[11] == DataTag
    && ReadLE(f[1]) == 36 + dataSize && ReadLE(f[12]) == dataSize
    && ReadLE(f[4]) == 16 && ReadLE(f[5]) == PcmFormat && ReadLE(f[6]) == 1
    && ReadLE(f[8]) == 2 * ReadLE(f[7]) && ReadLE(f[9]) == 2 && ReadLE(f[10]) == 16
  }

  /** A reader for the files exportToWAV writes: the header checks, then the samples. */
  function ParseWav(b: seq<Byte>): Option<WavInfo>
  {
    var (f, data) := Cut(b, WavWidths);
    if |f| != |WavWidths| || !WavHeaderOk(f, |data|) then None
    else Some(WavInfo(ReadLE(f[7]), ReadSamples(data)))
  }

  /** The header written for a rate and size that fit passes the reader's checks. */
  lemma WavFieldsOk(sampleRate: int, size: int)
    requires 0 < sampleRate < 0x8000_0000 && 0 <= size && 36 + size < 0x1_0000_0000
    ensures WavHeaderOk(WavFields(sampleRate, size), size)
    ensures ReadLE(WavFields(sampleRate, size)[7]) == sampleRate
  {
    WavSizesRead(sampleRate, size);
    WavFormatRead(sampleRate, size);
  }

  lemma WavSizesRead(sampleRate: int, size: int)
    requires 0 <= size && 36 + size < 0x1_0000_0000
    ensures var f := WavFields(sampleRate, size);
      ReadLE(f[1]) == 36 + size && ReadLE(f[12]) == size
  {
    PowersUsed();
    LERoundTrip(36 + size, 4);
    LERoundTrip(size, 4);
  }

  lemma WavFormatRead(sampleRate: int, size: int)
    requires 0 < sampleRate < 0x8000_0000
    ensures var f := WavFields(sampleRate, size);
      && ReadLE(f[4]) == 16 && ReadLE(f[5]) == PcmFormat && ReadLE(f[6]) == 1
      && ReadLE(f[7]) == sampleRate && ReadLE(f[8]) == 2 * sampleRate
      && ReadLE(f[9]) == 2 && ReadLE(f[10]) == 16
  {
    PowersUsed();
    LERoundTrip(16, 4);
    LERoundTrip(PcmFormat, 2);
    LERoundTrip(1, 2);
    LERoundTrip(sampleRate, 4);
    LERoundTrip(sampleRate * 2, 4);
    LERoundTrip(2, 2);
    LERoundTrip(16, 2);
  }

  /** Any header that passes the checks is read as its sample rate and the samples of the
      bytes after it. */
  lemma ParseWavAccepts(f: seq<seq<Byte>>, data: seq<Byte>)
    requires Widths(f) == WavWidths && WavHeaderOk(f, |data|)
    ensures ParseWav(Concat(f) + data) == Some(WavInfo(ReadLE(f[7]), ReadSamples(data)))
  {
    CutConcat(f, data);
  }

  /** The WAV file round trip: for any recording that fits the 32-bit size fields, the reader
      accepts the file and recovers the sample rate and every converted sample. */
  lemma WavRoundTrip(audio: seq<real>, sampleRate: int)
    requires audio != [] && 0 < sampleRate < 0x8000_0000
    requires 44 + 2 * |audio| < 0x1_0000_0000
    ensures WavFile(audio, sampleRate).Some?
    ensures ParseWav(WavFile(audio, sampleRate).value) == Some(WavInfo(sampleRate, PcmSamples(audio)))
  {
    var vs := PcmSamples(audio);
    var d := SampleData(vs);
    WavFieldsOk(sampleRate, 2 * |audio|);
    ParseWavAccepts(WavFields(sampleRate, 2 * |audio|), d);
    PcmSamplesInRange(audio);
    SampleDataRoundTrip(vs);
  }

  /** The sum of a list of field widths. */
  function Total(ws: seq<nat>): nat
  {
    if ws == [] then 0 else ws[0] + Total(ws[1..])
  }

  /** Concatenated fields are as long as their widths add up to. */
  lemma {:induction false} ConcatLength(fields: seq<seq<Byte>>)
    ensures |Concat(fields)| == Total(Widths(fields))
  {
    if fields != [] {
      ConcatLength(fields[1..]);
      assert Widths(fields)[1..] == Widths(fields[1..]);
    }
  }

  /** A WAV export of N samples is the 44-byte header and two bytes per sample, and when the
      sizes fit, the RIFF size field announces exactly the bytes after its own eight. */
  lemma WavFileSize(audio: seq<real>, sampleRate: int)
    requires audio != []
    ensures |WavFile(audio, sampleRate).value| == 44 + 2 * |audio|
    ensures 0 < sampleRate < 0x8000_0000 && 44 + 2 * |audio| < 0x1_0000_0000 ==>
      ReadLE(WavFields(sampleRate, 2 * |audio|)[1]) == |WavFile(audio, sampleRate).value| - 8
  {
    ConcatLength(WavFields(sampleRate, 2 * |audio|));
    assert Total(WavWidths) == 44;
    if 0 < sampleRate < 0x8000_0000 && 44 + 2 * |audio| < 0x1_0000_0000 {
      WavFieldsOk(sampleRate, 2 * |audio|);
    }
  }

  // ---------------------------------------------------------------- MIDI

  /** Ticks per quarter note in the header's division field. */
  const Division: int := 480
  const MThdTag: seq<Byte> := [0x4D, 0x54, 0x68, 0x64]   // "MThd"
  const MTrkTag: seq<Byte> := [0x4D, 0x54, 0x72, 0x6B]   // "MTrk"
  const NoteOnStatus: Byte := 0x90
  const NoteOffStatus: Byte := 0x80
  const EndOfTrack: seq<Byte> := [0x00, 0xFF, 0x2F, 0x00]

  /** The delta-time byte: the gap in ticks, truncated and taken as a uint32_t; a gap of 128
      ticks or more is written as 0. So the byte is always a complete one-byte variable-length
      quantity, exact for short gaps and collapsed to zero for long ones. */
  function DeltaTicks(gap: real): (d: Byte)
    ensures d < 128
    ensures 0.0 <= gap * Division as real < 128.0 ==> d == Trunc(gap * Division as real)
    ensures 128.0 <= gap * Division as real < 0x1_0000_0000 as real ==> d == 0
  {
    PowersUsed();
    var t := Uint32(Trunc(gap * Division as real));
    if t < 128 then t else 0
  }

  /** One event's four track bytes: delta, status (note-on or note-off on channel 0), the note
      and the velocity scaled to 0..127, each cast to uint8_t. */
  function EventBytes(e: NoteEvent, lastTime: real): (b: seq<Byte>)
    ensures |b| == 4
  {
    [DeltaTicks(e.timestamp - lastTime),
     if e.isNoteOn then NoteOnStatus else NoteOffStatus,
     Uint8(e.note),
     Uint8(Trunc(e.velocity * 127.0))]
  }

  /** The event loop of writeMIDIFile, each delta measured from the previous event's stamp. */
  function TrackEvents(ev: seq<NoteEvent>, lastTime: real): (b: seq<Byte>)
    ensures |b| == 4 * |ev|
  {
    if ev == [] then [] else EventBytes(ev[0], lastTime) + TrackEvents(ev[1..], ev[0].timestamp)
  }

  /** The stamp the i-th event's delta is measured from. */
  function Previous(ev: seq<NoteEvent>, lastTime: real, i: int): real
    requires 0 <= i < |ev|
  {
    if i == 0 then lastTime else ev[i - 1].timestamp
  }

  /** Event i of the log occupies bytes 4i..4i+4 of the track, in log order. */
  lemma {:induction false} TrackLayout(ev: seq<NoteEvent>, lastTime: real, i: int)
    requires 0 <= i < |ev|
    ensures TrackEvents(ev, lastTime)[4 * i..4 * i + 4] == EventBytes(ev[i], Previous(ev, lastTime, i))
  {
    var t := TrackEvents(ev, lastTime);
    if i > 0 {
      TrackLayout(ev[1..], ev[0].timestamp, i - 1);
      assert t[4 * i..4 * i + 4] == TrackEvents(ev[1..], ev[0].timestamp)[4 * (i - 1)..4 * (i - 1) + 4];
    }
  }

  /** The track chunk's data: the events, then the end-of-track meta event. */
  function TrackData(ev: seq<NoteEvent>): (b: seq<Byte>)
    ensures |b| == 4 * |ev| + 4
  {
    TrackEvents(ev, 0.0) + EndOfTrack
  }

  /** The widths of the header chunk's fields and of the track chunk's tag and length. */
  const MidiWidths: seq<nat> := [4, 4, 2, 2, 2, 4, 4]

  /** The header chunk of a format-0 file with one track and 480 ticks per quarter note, then
      the track chunk's tag and length, given the four bytes the header length is written
      as. Format, track count, division and track length are byte-swapped to big-endian. */
  function MidiFields(headerLength: seq<Byte>, track: seq<Byte>): (f: seq<seq<Byte>>)
    requires |headerLength| == 4
    ensures Widths(f) == MidiWidths
  {
    [MThdTag, headerLength, BE(0, 2), BE(1, 2), BE(Division, 2), MTrkTag, BE(Uint32(|track|), 4)]
  }

  function MidiFileWith(headerLength: seq<Byte>, ev: seq<NoteEvent>): seq<Byte>
    requires |headerLength| == 4
  {
    Concat(MidiFields(headerLength, TrackData(ev))) + TrackData(ev)
  }

  /** writeMIDIFile as written: the header length 6 is written before it is byte-swapped, so a
      little-endian host writes 06 00 00 00. */
  function MidiFileAsWritten(ev: seq<NoteEvent>): seq<Byte>
  {
    MidiFileWith(LE(6, 4), ev)
  }

  /** writeMIDIFile with the header length big-endian, as Standard MIDI Files 1.0 requires. */
  function MidiFile(ev: seq<NoteEvent>): seq<Byte>
  {
    MidiFileWith(BE(6, 4), ev)
  }

  /** A MIDI file is the MThd tag, the four header-length bytes, then the rest of the header
      and the track chunk, which do not depend on the header length. */
  lemma MidiFileSplit(headerLength: seq<Byte>, ev: seq<NoteEvent>)
    requires |headerLength| == 4
    ensures MidiFileWith(headerLength, ev) == MThdTag + headerLength + MidiRest(ev)
  {
    var f := MidiFields(headerLength, TrackData(ev));
    assert f[1..][1..] == f[2..];
    assert Concat(f) == f[0] + (f[1] + Concat(f[2..]));
  }

  /** Everything after the header length: format, track count, division and the track chunk. */
  function MidiRest(ev: seq<NoteEvent>): seq<Byte>
  {
    var track := TrackData(ev);
    Concat([BE(0, 2), BE(1, 2), BE(Division, 2), MTrkTag, BE(Uint32(|track|), 4)]) + track
  }

  /** The file the program writes and the corrected file differ only in bytes 4 to 7, the
      header length: everything before and after them is the same. */
  lemma MidiFilesDifferInHeaderLength(ev: seq<NoteEvent>)
    ensures |MidiFileAsWritten(ev)| == |MidiFile(ev)| >= 8
    ensures MidiFile(ev)[4..8] == BE(6, 4) && MidiFileAsWritten(ev)[4..8] == LE(6, 4)
    ensures MidiFileAsWritten(ev) == MidiFile(ev)[..4] + LE(6, 4) + MidiFile(ev)[8..]
  {
    MidiFileSplit(BE(6, 4), ev);
    MidiFileSplit(LE(6, 4), ev);
    var b, l, rest := BE(6, 4), LE(6, 4), MidiRest(ev);
    assert (MThdTag + b + rest)[..4] == MThdTag;
    assert (MThdTag + b + rest)[4..8] == b;
    assert (MThdTag + b + rest)[8..] == rest;
    assert (MThdTag + l + rest)[4..8] == l;
  }

  datatype MidiInfo = MidiInfo(format: int, tracks: int, division: int, track: seq<Byte>)

  /** A reader for a single-track Standard MIDI File: a header chunk of length 6, then one
      track chunk whose length covers the rest of the file. */
  function ParseMidi(b: seq<Byte>): Option<MidiInfo>
  {
    var (f, track) := Cut(b, MidiWidths);
    if |f| != |MidiWidths| || f[0] != MThdTag || ReadBE(f[1]) != 6 || f[5] != MTrkTag
       || ReadBE(f[6]) != |track|
    then None
    else Some(MidiInfo(ReadBE(f[2]), ReadBE(f[3]), ReadBE(f[4]), track))
  }

  /** The corrected file reads back as format 0, one track, 480 ticks per quarter note and
      exactly the track bytes written. */
  lemma MidiRoundTrip(ev: seq<NoteEvent>)
    requires |TrackData(ev)| < 0x1_0000_0000
    ensures ParseMidi(MidiFile(ev)) == Some(MidiInfo(0, 1, Division, TrackData(ev)))
  {
    PowersUsed();
    CutConcat(MidiFields(BE(6, 4), TrackData(ev)), TrackData(ev));
    BERoundTrip(6, 4);
    BERoundTrip(0, 2);
    BERoundTrip(1, 2);
    BERoundTrip(Division, 2);
    BERoundTrip(|TrackData(ev)|, 4);
  }

  /** The file as written announces a header of 0x06000000 bytes, so a reader that follows the
      standard rejects it, whatever the events. */
  lemma MidiHeaderLengthAsWritten(ev: seq<NoteEvent>)
    ensures LE(6, 4) == [6, 0, 0, 0] && ReadBE(LE(6, 4)) == 0x0600_0000
    ensures ParseMidi(MidiFileAsWritten(ev)) == None
  {
    CutConcat(MidiFields(LE(6, 4), TrackData(ev)), TrackData(ev));
    assert LE(6, 4) == [6, 0, 0, 0];
    assert ReadBE([6, 0, 0, 0]) == 0x0600_0000 by {
      assert [6, 0, 0, 0][..3] == [6, 0, 0];
      assert [6, 0, 0][..2] == [6, 0];
      assert [6, 0][..1] == [6];
    }
  }

  // ---------------------------------------------------------------- text

  const TextTitle: string := "# VSynth Note Events Export"
  const TextColumns: string := "# Format: timestamp note velocity on/off"

  function DigitChar(d: int): char
    requires 0 <= d < 10
  {
    ('0' as int + d) as char
  }

  /** The decimal digits of n, as an output stream prints an int. */
  function Digits(n: nat): (s: string)
    ensures |s| >= 1 && forall i :: 0 <= i < |s| ==> '0' <= s[i] <= '9'
  {
    if n < 10 then [DigitChar(n)] else Digits(n / 10) + [DigitChar(n % 10)]
  }

  function Decimal(n: int): string
  {
    if n < 0 then "-" + Digits(-n) else Digits(n)
  }

  function ReadDigits(s: string): int
  {
    if s == [] then 0 else 10 * ReadDigits(s[..|s| - 1]) + (s[|s| - 1] as int - '0' as int)
  }

  function ReadDecimal(s: string): int
  {
    if |s| > 0 && s[0] == '-' then -ReadDigits(s[1..]) else ReadDigits(s)
  }

  lemma {:induction false} DigitsRoundTrip(n: nat)
    ensures ReadDigits(Digits(n)) == n
  {
    if n >= 10 {
      DigitsRoundTrip(n / 10);
      assert Digits(n)[..|Digits(n)| - 1] == Digits(n / 10);
    }
  }

  /** The note column reads back as the note. */
  lemma DecimalRoundTrip(n: int)
    ensures ReadDecimal(Decimal(n)) == n
  {
    if n < 0 {
      DigitsRoundTrip(-n);
      assert Decimal(n)[1..] == Digits(-n);
    } else {
      DigitsRoundTrip(n);
    }
  }

  /** How the output stream prints a float is not modelled: `show` stands for it. The round
      trips need only that it prints neither a space nor a newline. */
  ghost predicate Plain(show: real -> string) {
    forall x: real :: ' ' !in show(x) && '\n' !in show(x)
  }

  function OnOff(isNoteOn: bool): string {
    if isNoteOn then "on" else "off"
  }

  /** The words of a line, separated by single spaces. */
  function Spaced(ws: seq<string>): string
    requires |ws| >= 1
  {
    if |ws| == 1 then ws[0] else ws[0] + " " + Spaced(ws[1..])
  }

  /** One event's line: timestamp, note, velocity and on/off. */
  function EventLine(e: NoteEvent, show: real -> string): string
  {
    Spaced([show(e.timestamp), Decimal(e.note), show(e.velocity), OnOff(e.isNoteOn)])
  }

  function EventLines(ev: seq<NoteEvent>, show: real -> string): (ls: seq<string>)
    ensures |ls| == |ev|
  {
    if ev == [] then [] else [EventLine(ev[0], show)] + EventLines(ev[1..], show)
  }

  /** The lines of exportNoteEvents: the two comment lines, then one line per event. */
  function NoteEventLines(ev: seq<NoteEvent>, show: real -> string): seq<string>
  {
    [TextTitle, TextColumns] + EventLines(ev, show)
  }

  /** Each line followed by a newline. */
  function Joined(ls: seq<string>): string
  {
    if ls == [] then [] else ls[0] + "\n" + Joined(ls[1..])
  }

  /** exportNoteEvents: the text written to the file. */
  function NoteEventsText(ev: seq<NoteEvent>, show: real -> string): string
  {
    Joined(NoteEventLines(ev, show))
  }

  /** The position of the first c in s, or |s| when there is none. */
  function Find(s: string, c: char): (k: nat)
    ensures k <= |s| && (k < |s| ==> s[k] == c)
    ensures forall j :: 0 <= j < k ==> s[j] != c
  {
    if s == [] then 0 else if s[0] == c then 0 else 1 + Find(s[1..], c)
  }

  /** The text cut into newline-terminated lines. */
  function SplitLines(s: string): seq<string>
    decreases |s|
  {
    if s == [] then []
    else
      var k := Find(s, '\n');
      if k == |s| then [s] else [s[..k]] + SplitLines(s[k + 1..])
  }

  /** A line cut at its spaces. */
  function Fields(s: string): seq<string>
    decreases |s|
  {
    var k := Find(s, ' ');
    if k == |s| then [s] else [s[..k]] + Fields(s[k + 1..])
  }

  lemma {:induction false} FindAfter(w: string, c: char, rest: string)
    requires c !in w
    ensures Find(w + [c] + rest, c) == |w|
  {
    if w != [] {
      assert (w + [c] + rest)[1..] == w[1..] + [c] + rest;
      FindAfter(w[1..], c, rest);
    }
  }

  lemma FindNone(w: string, c: char)
    requires c !in w
    ensures Find(w, c) == |w|
  {
  }

  lemma {:induction false} SplitJoined(ls: seq<string>)
    requires forall i :: 0 <= i < |ls| ==> '\n' !in ls[i]
    ensures SplitLines(Joined(ls)) == ls
  {
    if ls != [] {
      var s := Joined(ls);
      assert s == ls[0] + ['\n'] + Joined(ls[1..]);
      FindAfter(ls[0], '\n', Joined(ls[1..]));
      assert s[..|ls[0]|] == ls[0];
      assert s[|ls[0]| + 1..] == Joined(ls[1..]);
      SplitJoined(ls[1..]);
    }
  }

  lemma {:induction false} FieldsSpaced(ws: seq<string>)
    requires |ws| >= 1
    requires forall i :: 0 <= i < |ws| ==> ' ' !in ws[i]
    ensures Fields(Spaced(ws)) == ws
  {
    if |ws| == 1 {
      FindNone(ws[0], ' ');
    } else {
      var s := Spaced(ws);
      assert s == ws[0] + [' '] + Spaced(ws[1..]);
      FindAfter(ws[0], ' ', Spaced(ws[1..]));
      assert s[..|ws[0]|] == ws[0];
      assert s[|ws[0]| + 1..] == Spaced(ws[1..]);
      FieldsSpaced(ws[1..]);
    }
  }

  lemma DecimalIsOneWord(n: int)
    ensures ' ' !in Decimal(n) && '\n' !in Decimal(n)
  {
    var s := Decimal(n);
    forall i | 0 <= i < |s|
      ensures s[i] != ' ' && s[i] != '\n'
    {
      if n < 0 && i > 0 {
        assert s[i] == Digits(-n)[i - 1];
      }
    }
  }

  lemma {:induction false} SpacedHasNoNewline(ws: seq<string>)
    requires |ws| >= 1
    requires forall i :: 0 <= i < |ws| ==> '\n' !in ws[i]
    ensures '\n' !in Spaced(ws)
  {
    if |ws| > 1 {
      SpacedHasNoNewline(ws[1..]);
    }
  }

  /** An event's line reads back field by field: the printed timestamp and velocity, the note
      and whether it was a note-on. */
  lemma EventLineRoundTrip(e: NoteEvent, show: real -> string)
    requires Plain(show)
    ensures var f := Fields(EventLine(e, show));
      && |f| == 4 && f[0] == show(e.timestamp) && ReadDecimal(f[1]) == e.note
      && f[2] == show(e.velocity) && (f[3] == "on" <==> e.isNoteOn)
    ensures '\n' !in EventLine(e, show)
  {
    var ws := [show(e.timestamp), Decimal(e.note), show(e.velocity), OnOff(e.isNoteOn)];
    DecimalIsOneWord(e.note);
    assert ' ' !in show(e.timestamp) && ' ' !in show(e.velocity);
    assert ' ' !in OnOff(e.isNoteOn) && '\n' !in OnOff(e.isNoteOn);
    FieldsSpaced(ws);
    SpacedHasNoNewline(ws);
    DecimalRoundTrip(e.note);
  }

  lemma {:induction false} EventLinesAt(ev: seq<NoteEvent>, show: real -> string, i: int)
    requires 0 <= i < |ev|
    ensures EventLines(ev, show)[i] == EventLine(ev[i], show)
  {
    if i > 0 {
      EventLinesAt(ev[1..], show, i - 1);
    }
  }

  /** The text file splits back into its lines: two comment lines, then the i-th event's line
      at position i + 2, in log order. */
  lemma NoteEventsTextRoundTrip(ev: seq<NoteEvent>, show: real -> string)
    requires Plain(show)
    ensures var ls := SplitLines(NoteEventsText(ev, show));
      && |ls| == |ev| + 2 && ls[0] == TextTitle && ls[1] == TextColumns
      && forall i :: 0 <= i < |ev| ==> ls[i + 2] == EventLine(ev[i], show)
  {
    var ls := NoteEventLines(ev, show);
    forall i | 0 <= i < |ls|
      ensures '\n' !in ls[i]
    {
      if i >= 2 {
        EventLinesAt(ev, show, i - 2);
        EventLineRoundTrip(ev[i - 2], show);
      }
    }
    SplitJoined(ls);
    forall i | 0 <= i < |ev|
      ensures ls[i + 2] == EventLine(ev[i], show)
    {
      EventLinesAt(ev, show, i);
    }
  }
}
