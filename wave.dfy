/** The RIFF/WAVE header parser of the OpenAL extension (loadWavFile, its
    header checks, offsets and format mapping), over an in-memory byte buffer.

    The layout modelled is the packed, little-endian one the code intends:
    a 12-byte RIFF header, a 24-byte fmt header, an optional 2-byte skip,
    an 8-byte data header and then the payload. C `long` fields are 4-byte
    signed integers and `short` fields 2-byte signed integers. Where the C
    code would read past the end of the buffer, the model fails with
    Truncated instead. */
module Wave {

  newtype byte = b: int | 0 <= b < 256

  /* ---------- little-endian integer fields ---------- */

  const TWO_15: int := 0x8000
  const TWO_16: int := 0x1_0000
  const TWO_31: int := 0x8000_0000
  const TWO_32: int := 0x1_0000_0000

  predicate IsInt16(v: int) { -TWO_15 <= v < TWO_15 }
  predicate IsInt32(v: int) { -TWO_31 <= v < TWO_31 }

  /** The signed 16-bit value stored little-endian at s[at..at+2]. */
  function Int16At(s: seq<byte>, at: nat): (v: int)
    requires at + 2 <= |s|
    ensures IsInt16(v)
  {
    var u := s[at] as int + 0x100 * (s[at + 1] as int);
    if u >= TWO_15 then u - TWO_16 else u
  }

  /** The signed 32-bit value stored little-endian at s[at..at+4]. */
  function Int32At(s: seq<byte>, at: nat): (v: int)
    requires at + 4 <= |s|
    ensures IsInt32(v)
  {
    var u := s[at] as int + 0x100 * (s[at + 1] as int)
             + 0x1_0000 * (s[at + 2] as int) + 0x100_0000 * (s[at + 3] as int);
    if u >= TWO_31 then u - TWO_32 else u
  }

  /** Two's-complement little-endian encoding of a 16-bit value. */
  function Int16Bytes(v: int): (r: seq<byte>)
    requires IsInt16(v)
    ensures |r| == 2 && Int16At(r, 0) == v
  {
    var u := if v < 0 then v + TWO_16 else v;
    [(u % 0x100) as byte, (u / 0x100) as byte]
  }

  /** Two's-complement little-endian encoding of a 32-bit value. */
  function Int32Bytes(v: int): (r: seq<byte>)
    requires IsInt32(v)
    ensures |r| == 4 && Int32At(r, 0) == v
  {
    var u := if v < 0 then v + TWO_32 else v;
    var q1 := u / 0x100;
    var q2 := q1 / 0x100;
    DigitSplit(u, u % 0x100, q1);
    DigitSplit(q1, q1 % 0x100, q2);
    DigitSplit(q2, q2 % 0x100, q2 / 0x100);
    [(u % 0x100) as byte, (q1 % 0x100) as byte, (q2 % 0x100) as byte, (q2 / 0x100) as byte]
  }

  /** Reading a field and encoding it again gives back the same bytes. */
  lemma Int16BytesOfRead(s: seq<byte>, at: nat)
    requires at + 2 <= |s|
    ensures Int16Bytes(Int16At(s, at)) == s[at..at + 2]
  {
  }

  lemma Int32BytesOfRead(s: seq<byte>, at: nat)
    requires at + 4 <= |s|
    ensures Int32Bytes(Int32At(s, at)) == s[at..at + 4]
  {
    var b0, b1, b2, b3 := s[at] as int, s[at + 1] as int, s[at + 2] as int, s[at + 3] as int;
    var u := b0 + 0x100 * (b1 + 0x100 * (b2 + 0x100 * b3));
    DigitSplit(u, b0, b1 + 0x100 * (b2 + 0x100 * b3));
    DigitSplit(u / 0x100, b1, b2 + 0x100 * b3);
    DigitSplit(u / 0x100 / 0x100, b2, b3);
  }

  /** Division by 256 peels off the lowest base-256 digit. */
  lemma DigitSplit(u: int, low: int, high: int)
    requires 0 <= low < 0x100 && u == low + 0x100 * high
    ensures u % 0x100 == low && u / 0x100 == high
  {
  }

  /* ---------- chunk tags and layout constants ---------- */

  const RIFF_TAG: seq<byte> := [0x52, 0x49, 0x46, 0x46]  // "RIFF"
  const WAVE_TAG: seq<byte> := [0x57, 0x41, 0x56, 0x45]  // "WAVE"
  const FMT_TAG: seq<byte> := [0x66, 0x6D, 0x74, 0x20]   // "fmt "
  const DATA_TAG: seq<byte> := [0x64, 0x61, 0x74, 0x61]  // "data"

  /** sizeof(RIFF_Header), sizeof(WAVE_Format), sizeof(WAVE_Data), sizeof(short) */
  const RIFF_HEADER_SIZE: nat := 12
  const WAVE_FORMAT_SIZE: nat := 24
  const WAVE_DATA_SIZE: nat := 8
  const EXTRA_SKIP: nat := 2

  /** A fmt chunk longer than this carries extra parameters. */
  const PLAIN_FMT_SIZE: int := 16

  /** Byte offsets of the fields read, from the start of the buffer. */
  const FMT_AT: nat := RIFF_HEADER_SIZE
  const FMT_SIZE_AT: nat := FMT_AT + 4
  const CHANNELS_AT: nat := FMT_AT + 10
  const SAMPLE_RATE_AT: nat := FMT_AT + 12
  const BITS_PER_SAMPLE_AT: nat := FMT_AT + 22
  const FMT_END: nat := RIFF_HEADER_SIZE + WAVE_FORMAT_SIZE

  /** The four bytes at s[at..at+4], compared as strncmp(..., 4) does. */
  function Tag(s: seq<byte>, at: nat): seq<byte>
    requires at + 4 <= |s|
  {
    s[at..at + 4]
  }

  /** Where the data header starts: after the fmt header, plus exactly two
      bytes when the fmt chunk declares a size above 16, whatever that size. */
  function DataHeaderAt(s: seq<byte>): (at: nat)
    requires FMT_END <= |s|
    ensures at == FMT_END || at == FMT_END + EXTRA_SKIP
    ensures at == FMT_END + EXTRA_SKIP <==> Int32At(s, FMT_SIZE_AT) > PLAIN_FMT_SIZE
  {
    FMT_END + (if Int32At(s, FMT_SIZE_AT) > PLAIN_FMT_SIZE then EXTRA_SKIP else 0)
  }

  /* ---------- results ---------- */

  /** AL_FORMAT_MONO8, AL_FORMAT_MONO16, AL_FORMAT_STEREO8, AL_FORMAT_STEREO16 */
  datatype Format = Mono8 | Mono16 | Stereo8 | Stereo16 {
    function Code(): int {
      match this
      case Mono8 => 0x1100
      case Mono16 => 0x1101
      case Stereo8 => 0x1102
      case Stereo16 => 0x1103
    }
  }

  /** What the parser hands to alBufferData: format, frequency and the payload
      (whose length is the size argument). */
  datatype Wav = Wav(format: Format, frequency: int, data: seq<byte>)

  datatype WavError =
    | Truncated      // the buffer ends before a header or the payload it declares
    | BadRiffHeader  // "Invalid RIFF or WAVE header"
    | BadFmtHeader   // "Invalid fmt header", logged for the fmt tag
    | BadDataHeader  // "Invalid fmt header", logged again for the data tag
    | BadDataSize    // a negative subChunk2Size, which no allocation can satisfy

  datatype Result<T> = Ok(value: T) | Err(error: WavError)

  /** The output format chosen from the channel count and the bit depth;
      every combination other than the four named ones falls back to MONO8. */
  function FormatOf(channels: int, bits: int): (f: Format)
    ensures f == Mono16 <==> channels == 1 && bits == 16
    ensures f == Stereo8 <==> channels == 2 && bits == 8
    ensures f == Stereo16 <==> channels == 2 && bits == 16
    ensures f == Mono8 <==> !((channels == 1 || channels == 2) && (bits == 8 || bits == 16))
                            || (channels == 1 && bits == 8)
  {
    if channels == 1 then
      if bits == 16 then Mono16 else Mono8
    else if channels == 2 then
      if bits == 8 then Stereo8 else if bits == 16 then Stereo16 else Mono8
    else Mono8
  }

  /** The four buffer formats are handed to the library as four different AL enums. */
  lemma FormatCodesDistinct(a: Format, b: Format)
    ensures a != b ==> a.Code() != b.Code()
  {
  }

  /* ---------- the parser ---------- */

  /** loadWavFile's header walk. Each check happens in the order of the source,
      after the struct it inspects has been read in full. */
  function ParseWav(s: seq<byte>): (r: Result<Wav>)
    // the first four bytes must be "RIFF" or "WAVE"; bytes 4..12 are never looked at
    ensures r.Ok? ==> FMT_END <= |s| && (Tag(s, 0) == RIFF_TAG || Tag(s, 0) == WAVE_TAG)
    ensures RIFF_HEADER_SIZE <= |s| && Tag(s, 0) != RIFF_TAG && Tag(s, 0) != WAVE_TAG
            ==> r == Err(BadRiffHeader)
    // the fmt header must follow the RIFF header directly
    ensures r.Ok? ==> Tag(s, FMT_AT) == FMT_TAG
    ensures (FMT_END <= |s| && (Tag(s, 0) == RIFF_TAG || Tag(s, 0) == WAVE_TAG)
             && Tag(s, FMT_AT) != FMT_TAG) ==> r == Err(BadFmtHeader)
    // the data header sits at DataHeaderAt(s)
    ensures r.Ok? ==> DataHeaderAt(s) + WAVE_DATA_SIZE <= |s| && Tag(s, DataHeaderAt(s)) == DATA_TAG
    ensures (FMT_END <= |s| && (Tag(s, 0) == RIFF_TAG || Tag(s, 0) == WAVE_TAG)
             && Tag(s, FMT_AT) == FMT_TAG && DataHeaderAt(s) + WAVE_DATA_SIZE <= |s|
             && Tag(s, DataHeaderAt(s)) != DATA_TAG) ==> r == Err(BadDataHeader)
    // on success: the payload is exactly the subChunk2Size bytes after the
    // data header, and the frequency and format come from the fmt fields
    ensures r.Ok? ==>
      var payloadAt := DataHeaderAt(s) + WAVE_DATA_SIZE;
      && |r.value.data| == Int32At(s, DataHeaderAt(s) + 4)
      && payloadAt + |r.value.data| <= |s|
      && r.value.data == s[payloadAt..payloadAt + |r.value.data|]
      && r.value.frequency == Int32At(s, SAMPLE_RATE_AT)
      && r.value.format == FormatOf(Int16At(s, CHANNELS_AT), Int16At(s, BITS_PER_SAMPLE_AT))
  {
    if |s| < RIFF_HEADER_SIZE then Err(Truncated)
    else if Tag(s, 0) != RIFF_TAG && Tag(s, 0) != WAVE_TAG then Err(BadRiffHeader)
    else if |s| < FMT_END then Err(Truncated)
    else if Tag(s, FMT_AT) != FMT_TAG then Err(BadFmtHeader)
    else
      var dataAt := DataHeaderAt(s);
      if |s| < dataAt + WAVE_DATA_SIZE then Err(Truncated)
      else if Tag(s, dataAt) != DATA_TAG then Err(BadDataHeader)
      else
        var size := Int32At(s, dataAt + 4);
        var payloadAt := dataAt + WAVE_DATA_SIZE;
        if size < 0 then Err(BadDataSize)
        else if |s| < payloadAt + size then Err(Truncated)
        else
          var format := FormatOf(Int16At(s, CHANNELS_AT), Int16At(s, BITS_PER_SAMPLE_AT));
          Ok(Wav(format, Int32At(s, SAMPLE_RATE_AT), s[payloadAt..payloadAt + size]))
  }

  /* ---------- the partner: writing a file the parser reads ---------- */

  /** Every field of the three headers, including those the parser skips,
      and the bytes that sit where the parser skips two. */
  datatype Header = Header(
    chunkId: seq<byte>, chunkSize: int, formType: seq<byte>,
    fmtSize: int, audioFormat: int, channels: int,
    sampleRate: int, byteRate: int, blockAlign: int, bitsPerSample: int,
    extra: seq<byte>)

  predicate ValidHeader(h: Header) {
    && |h.chunkId| == 4 && IsInt32(h.chunkSize) && |h.formType| == 4
    && IsInt32(h.fmtSize) && IsInt16(h.audioFormat) && IsInt16(h.channels)
    && IsInt32(h.sampleRate) && IsInt32(h.byteRate)
    && IsInt16(h.blockAlign) && IsInt16(h.bitsPerSample)
    && |h.extra| == (if h.fmtSize > PLAIN_FMT_SIZE then EXTRA_SKIP else 0)
  }

  function RiffHeaderBytes(h: Header): (r: seq<byte>)
    requires ValidHeader(h)
    ensures |r| == RIFF_HEADER_SIZE
  {
    h.chunkId + Int32Bytes(h.chunkSize) + h.formType
  }

  function FmtHeaderBytes(h: Header): (r: seq<byte>)
    requires ValidHeader(h)
    ensures |r| == WAVE_FORMAT_SIZE
  {
    FMT_TAG + Int32Bytes(h.fmtSize) + Int16Bytes(h.audioFormat) + Int16Bytes(h.channels)
    + Int32Bytes(h.sampleRate) + Int32Bytes(h.byteRate)
    + Int16Bytes(h.blockAlign) + Int16Bytes(h.bitsPerSample)
  }

  function DataHeaderBytes(size: int): (r: seq<byte>)
    requires IsInt32(size)
    ensures |r| == WAVE_DATA_SIZE
  {
    DATA_TAG + Int32Bytes(size)
  }

  /** A WAVE file laid out as the parser expects it. */
  function Serialize(h: Header, payload: seq<byte>): (r: seq<byte>)
    requires ValidHeader(h) && |payload| < TWO_31
    ensures |r| == FMT_END + |h.extra| + WAVE_DATA_SIZE + |payload|
  {
    RiffHeaderBytes(h) + FmtHeaderBytes(h) + h.extra + DataHeaderBytes(|payload|) + payload
  }

  /** The header fields of a buffer, read at the parser's offsets. */
  function HeaderOf(s: seq<byte>): (h: Header)
    requires FMT_END <= |s| && DataHeaderAt(s) <= |s|
    ensures ValidHeader(h)
  {
    Header(s[0..4], Int32At(s, 4), s[8..12],
           Int32At(s, FMT_SIZE_AT), Int16At(s, FMT_AT + 8), Int16At(s, CHANNELS_AT),
           Int32At(s, SAMPLE_RATE_AT), Int32At(s, FMT_AT + 16),
           Int16At(s, FMT_AT + 20), Int16At(s, BITS_PER_SAMPLE_AT),
           s[FMT_END..DataHeaderAt(s)])
  }

  /* ---------- properties of the parser ---------- */

  /** Writing a file and parsing it gives back the format, the sample rate
      and exactly the payload, whatever the skipped fields hold. */
  lemma {:induction false} SerializeThenParse(h: Header, payload: seq<byte>)
    requires ValidHeader(h) && |payload| < TWO_31
    requires h.chunkId == RIFF_TAG || h.chunkId == WAVE_TAG
    ensures ParseWav(Serialize(h, payload))
            == Ok(Wav(FormatOf(h.channels, h.bitsPerSample), h.sampleRate, payload))
  {
    var s := Serialize(h, payload);
    SerializedHeaders(h, payload);
    SerializedData(h, payload);
    ParseOfFields(s, FMT_END + |h.extra|, |payload|);
  }

  /** The parser accepts every buffer whose checked fields are right and which
      holds the payload its data header declares. */
  lemma ParseOfFields(s: seq<byte>, dataAt: nat, size: nat)
    requires FMT_END <= |s| && (Tag(s, 0) == RIFF_TAG || Tag(s, 0) == WAVE_TAG)
    requires Tag(s, FMT_AT) == FMT_TAG && DataHeaderAt(s) == dataAt
    requires dataAt + WAVE_DATA_SIZE + size <= |s|
    requires Tag(s, dataAt) == DATA_TAG && Int32At(s, dataAt + 4) == size
    ensures ParseWav(s) == Ok(Wav(FormatOf(Int16At(s, CHANNELS_AT), Int16At(s, BITS_PER_SAMPLE_AT)),
                                  Int32At(s, SAMPLE_RATE_AT),
                                  s[dataAt + WAVE_DATA_SIZE..dataAt + WAVE_DATA_SIZE + size]))
  {
  }

  /** The RIFF and fmt fields of a serialized file read back as written. */
  lemma SerializedHeaders(h: Header, payload: seq<byte>)
    requires ValidHeader(h) && |payload| < TWO_31
    ensures var s := Serialize(h, payload);
      && FMT_END <= |s| && Tag(s, 0) == h.chunkId && Tag(s, FMT_AT) == FMT_TAG
      && Int32At(s, FMT_SIZE_AT) == h.fmtSize
      && Int16At(s, CHANNELS_AT) == h.channels && Int32At(s, SAMPLE_RATE_AT) == h.sampleRate
      && Int16At(s, BITS_PER_SAMPLE_AT) == h.bitsPerSample
  {
    var s := Serialize(h, payload);
    var riff, fmt := RiffHeaderBytes(h), FmtHeaderBytes(h);
    var dh := DataHeaderBytes(|payload|);
    assert s == (riff + fmt) + (h.extra + dh + payload);
    SliceOfPrefix(riff + fmt, h.extra + dh + payload, 0, FMT_END);
    SliceOfPrefix(riff, fmt, 0, 4);
    FmtFields(h);
    FieldOfFmt(s, riff, fmt, 0, 4);
    FieldOfFmt(s, riff, fmt, 4, 8);
    FieldOfFmt(s, riff, fmt, 10, 12);
    FieldOfFmt(s, riff, fmt, 12, 16);
    FieldOfFmt(s, riff, fmt, 22, 24);
    ReadAt32(s, FMT_SIZE_AT, h.fmtSize);
    ReadAt32(s, SAMPLE_RATE_AT, h.sampleRate);
    ReadAt16(s, CHANNELS_AT, h.channels);
    ReadAt16(s, BITS_PER_SAMPLE_AT, h.bitsPerSample);
  }

  /** The data header of a serialized file sits after the skipped bytes and
      declares the payload that follows it. */
  lemma SerializedData(h: Header, payload: seq<byte>)
    requires ValidHeader(h) && |payload| < TWO_31
    ensures var s, dataAt := Serialize(h, payload), FMT_END + |h.extra|;
      && dataAt + WAVE_DATA_SIZE + |payload| == |s|
      && Tag(s, dataAt) == DATA_TAG && Int32At(s, dataAt + 4) == |payload|
      && s[dataAt + WAVE_DATA_SIZE..dataAt + WAVE_DATA_SIZE + |payload|] == payload
  {
    var s := Serialize(h, payload);
    var head := RiffHeaderBytes(h) + FmtHeaderBytes(h) + h.extra;
    var dataAt := |head|;
    var dh := DataHeaderBytes(|payload|);
    assert s == head + (dh + payload);
    SliceAfterPrefix(head, dh + payload, 0, 4);
    SliceAfterPrefix(head, dh + payload, 4, 8);
    SliceOfPrefix(dh, payload, 0, 4);
    SliceOfPrefix(dh, payload, 4, 8);
    ReadAt32(s, dataAt + 4, |payload|);
    assert s == (head + dh) + payload;
    SliceAfterPrefix(head + dh, payload, 0, |payload|);
  }

  /** Where each field read by the parser sits inside the fmt header. */
  lemma FmtFields(h: Header)
    requires ValidHeader(h)
    ensures FmtHeaderBytes(h)[0..4] == FMT_TAG
    ensures FmtHeaderBytes(h)[4..8] == Int32Bytes(h.fmtSize)
    ensures FmtHeaderBytes(h)[10..12] == Int16Bytes(h.channels)
    ensures FmtHeaderBytes(h)[12..16] == Int32Bytes(h.sampleRate)
    ensures FmtHeaderBytes(h)[22..24] == Int16Bytes(h.bitsPerSample)
  {
    var p1 := FMT_TAG + Int32Bytes(h.fmtSize);
    var p2 := p1 + Int16Bytes(h.audioFormat);
    var p3 := p2 + Int16Bytes(h.channels);
    var p4 := p3 + Int32Bytes(h.sampleRate);
    var p5 := p4 + Int32Bytes(h.byteRate);
    var p6 := p5 + Int16Bytes(h.blockAlign);
    var bits := Int16Bytes(h.bitsPerSample);
    assert FmtHeaderBytes(h) == p6 + bits;
    SliceAfterPrefix(p6, bits, 0, 2);
    // every earlier field lies inside p6, p5, p4, ...
    SliceOfPrefix(p6, bits, 0, 4);  SliceOfPrefix(p6, bits, 4, 8);
    SliceOfPrefix(p6, bits, 10, 12); SliceOfPrefix(p6, bits, 12, 16);
    SliceOfPrefix(p5, Int16Bytes(h.blockAlign), 0, 4);
    SliceOfPrefix(p5, Int16Bytes(h.blockAlign), 4, 8);
    SliceOfPrefix(p5, Int16Bytes(h.blockAlign), 10, 12);
    SliceOfPrefix(p5, Int16Bytes(h.blockAlign), 12, 16);
    SliceOfPrefix(p4, Int32Bytes(h.byteRate), 0, 4);
    SliceOfPrefix(p4, Int32Bytes(h.byteRate), 4, 8);
    SliceOfPrefix(p4, Int32Bytes(h.byteRate), 10, 12);
    SliceOfPrefix(p4, Int32Bytes(h.byteRate), 12, 16);
    SliceAfterPrefix(p3, Int32Bytes(h.sampleRate), 0, 4);
    SliceOfPrefix(p3, Int32Bytes(h.sampleRate), 0, 4);
    SliceOfPrefix(p3, Int32Bytes(h.sampleRate), 4, 8);
    SliceOfPrefix(p3, Int32Bytes(h.sampleRate), 10, 12);
    SliceAfterPrefix(p2, Int16Bytes(h.channels), 0, 2);
    SliceOfPrefix(p2, Int16Bytes(h.channels), 0, 4);
    SliceOfPrefix(p2, Int16Bytes(h.channels), 4, 8);
    SliceOfPrefix(p1, Int16Bytes(h.audioFormat), 0, 4);
    SliceOfPrefix(p1, Int16Bytes(h.audioFormat), 4, 8);
    SliceAfterPrefix(FMT_TAG, Int32Bytes(h.fmtSize), 0, 4);
    SliceOfPrefix(FMT_TAG, Int32Bytes(h.fmtSize), 0, 4);
  }

  /** A slice of the fmt header inside a serialized file. */
  lemma FieldOfFmt(s: seq<byte>, riff: seq<byte>, fmt: seq<byte>, a: nat, b: nat)
    requires |riff| == RIFF_HEADER_SIZE && |fmt| == WAVE_FORMAT_SIZE && a <= b <= WAVE_FORMAT_SIZE
    requires FMT_END <= |s| && s[..FMT_END] == riff + fmt
    ensures s[FMT_AT + a..FMT_AT + b] == fmt[a..b]
  {
    assert s[FMT_AT + a..FMT_AT + b] == s[..FMT_END][FMT_AT + a..FMT_AT + b];
    SliceAfterPrefix(riff, fmt, a, b);
  }

  lemma SliceOfPrefix(p: seq<byte>, q: seq<byte>, a: nat, b: nat)
    requires a <= b <= |p|
    ensures (p + q)[a..b] == p[a..b]
  {
  }

  lemma SliceAfterPrefix(p: seq<byte>, q: seq<byte>, a: nat, b: nat)
    requires a <= b <= |q|
    ensures (p + q)[|p| + a..|p| + b] == q[a..b]
  {
  }

  /** A field whose bytes are an encoding of v reads back as v. */
  lemma ReadAt32(s: seq<byte>, at: nat, v: int)
    requires IsInt32(v) && at + 4 <= |s| && s[at..at + 4] == Int32Bytes(v)
    ensures Int32At(s, at) == v
  {
    var b := Int32Bytes(v);
    assert s[at] == b[0] && s[at + 1] == b[1] && s[at + 2] == b[2] && s[at + 3] == b[3];
  }

  lemma ReadAt16(s: seq<byte>, at: nat, v: int)
    requires IsInt16(v) && at + 2 <= |s| && s[at..at + 2] == Int16Bytes(v)
    ensures Int16At(s, at) == v
  {
    var b := Int16Bytes(v);
    assert s[at] == b[0] && s[at + 1] == b[1];
  }

  /** Conversely, an accepted buffer starts with the serialization of the
      header fields found at the parser's offsets followed by the payload;
      whatever comes after the payload is never read. */
  lemma {:induction false} ParseThenSerialize(s: seq<byte>)
    requires ParseWav(s).Ok?
    ensures var w, h := ParseWav(s).value, HeaderOf(s);
      && (h.chunkId == RIFF_TAG || h.chunkId == WAVE_TAG)
      && |w.data| < TWO_31
      && w == Wav(FormatOf(h.channels, h.bitsPerSample), h.sampleRate, w.data)
      && Serialize(h, w.data) == s[..FMT_END + |h.extra| + WAVE_DATA_SIZE + |w.data|]
  {
    var w, h := ParseWav(s).value, HeaderOf(s);
    var dataAt := DataHeaderAt(s);
    var payloadAt := dataAt + WAVE_DATA_SIZE;
    var end := payloadAt + |w.data|;
    HeadersOfRead(s);
    Int32BytesOfRead(s, dataAt + 4);
    assert DataHeaderBytes(|w.data|) == s[dataAt..payloadAt];
    assert w.data == s[payloadAt..end];
    SplitSlice(s, 0, payloadAt, end);
    SplitSlice(s, 0, dataAt, payloadAt);
    SplitSlice(s, 0, FMT_END, dataAt);
    SplitSlice(s, 0, FMT_AT, FMT_END);
    assert s[..end] == s[0..end];
  }

  /** The RIFF and fmt headers rebuilt from the fields read are the bytes read. */
  lemma HeadersOfRead(s: seq<byte>)
    requires FMT_END <= |s| && DataHeaderAt(s) <= |s| && Tag(s, FMT_AT) == FMT_TAG
    ensures RiffHeaderBytes(HeaderOf(s)) == s[0..FMT_AT]
    ensures FmtHeaderBytes(HeaderOf(s)) == s[FMT_AT..FMT_END]
    ensures HeaderOf(s).extra == s[FMT_END..DataHeaderAt(s)]
  {
    var h := HeaderOf(s);
    Int32BytesOfRead(s, 4);
    SplitSlice(s, 0, 8, 12);
    SplitSlice(s, 0, 4, 8);
    FmtHeaderOfRead(s, h);
  }

  /** The fmt header rebuilt from its eight fields is the 24 bytes read. */
  lemma FmtHeaderOfRead(s: seq<byte>, h: Header)
    requires FMT_END <= |s| && DataHeaderAt(s) <= |s| && Tag(s, FMT_AT) == FMT_TAG
    requires h == HeaderOf(s)
    ensures FmtHeaderBytes(h) == s[FMT_AT..FMT_END]
  {
    Int32BytesOfRead(s, FMT_SIZE_AT);
    Int16BytesOfRead(s, FMT_AT + 8);
    Int16BytesOfRead(s, CHANNELS_AT);
    Int32BytesOfRead(s, SAMPLE_RATE_AT);
    Int32BytesOfRead(s, FMT_AT + 16);
    Int16BytesOfRead(s, FMT_AT + 20);
    Int16BytesOfRead(s, BITS_PER_SAMPLE_AT);
    SplitSlice(s, 12, 34, 36);
    SplitSlice(s, 12, 32, 34);
    SplitSlice(s, 12, 28, 32);
    SplitSlice(s, 12, 24, 28);
    SplitSlice(s, 12, 22, 24);
    SplitSlice(s, 12, 20, 22);
    SplitSlice(s, 12, 16, 20);
  }

  lemma SplitSlice(s: seq<byte>, a: nat, b: nat, c: nat)
    requires a <= b <= c <= |s|
    ensures s[a..c] == s[a..b] + s[b..c]
  {
  }

  /** Bytes after the payload do not change what the parser returns. */
  lemma TrailingBytesIgnored(s: seq<byte>, rest: seq<byte>)
    requires ParseWav(s).Ok?
    ensures ParseWav(s + rest) == ParseWav(s)
  {
    var t := s + rest;
    assert t[..|s|] == s;
    assert forall i :: 0 <= i < |s| ==> t[i] == s[i];
    ReadSame32(s, t, FMT_SIZE_AT);
    var dataAt := DataHeaderAt(s);
    ReadSame32(s, t, dataAt + 4);
    ReadSame32(s, t, SAMPLE_RATE_AT);
    ReadSame16(s, t, CHANNELS_AT);
    ReadSame16(s, t, BITS_PER_SAMPLE_AT);
    assert Tag(t, 0) == Tag(s, 0);
    assert Tag(t, FMT_AT) == Tag(s, FMT_AT);
    assert Tag(t, dataAt) == Tag(s, dataAt);
    var payloadAt := dataAt + WAVE_DATA_SIZE;
    var size := Int32At(s, dataAt + 4);
    assert t[payloadAt..payloadAt + size] == s[payloadAt..payloadAt + size];
  }

  /** Two buffers that agree on a field's bytes read the same value there. */
  lemma ReadSame32(s: seq<byte>, t: seq<byte>, at: nat)
    requires at + 4 <= |s| && at + 4 <= |t|
    requires forall i :: at <= i < at + 4 ==> s[i] == t[i]
    ensures Int32At(s, at) == Int32At(t, at)
  {
    assert s[at] == t[at] && s[at + 1] == t[at + 1] && s[at + 2] == t[at + 2] && s[at + 3] == t[at + 3];
  }

  lemma ReadSame16(s: seq<byte>, t: seq<byte>, at: nat)
    requires at + 2 <= |s| && at + 2 <= |t|
    requires forall i :: at <= i < at + 2 ==> s[i] == t[i]
    ensures Int16At(s, at) == Int16At(t, at)
  {
    assert s[at] == t[at] && s[at + 1] == t[at + 1];
  }

  /** Offsets whose bytes the parser never inspects: the RIFF chunk size and
      form type, the audio format, the byte rate and block align, and the
      bytes skipped before the data header (which ends at dataAt). */
  predicate Unread(i: int, dataAt: int) {
    || 4 <= i < RIFF_HEADER_SIZE
    || FMT_AT + 8 <= i < CHANNELS_AT
    || FMT_AT + 16 <= i < BITS_PER_SAMPLE_AT
    || FMT_END <= i < dataAt
  }

  /** Where the skipped bytes end, for a buffer of any length. */
  function SkipEnd(s: seq<byte>): nat {
    if FMT_END <= |s| then DataHeaderAt(s) else FMT_END
  }

  /** Two buffers of one length that differ only in the unread header fields
      (RIFF size and form type, audio format, byte rate, block align, skipped
      bytes) and in the fmt size, and agree on whether that size exceeds 16,
      parse alike: the fmt size field matters only through that comparison. */
  lemma {:induction false} OnlyReadFieldsMatter(s: seq<byte>, t: seq<byte>)
    requires |s| == |t|
    requires FMT_END <= |s| ==>
      (Int32At(s, FMT_SIZE_AT) > PLAIN_FMT_SIZE) == (Int32At(t, FMT_SIZE_AT) > PLAIN_FMT_SIZE)
    requires forall i :: (0 <= i < |s| && !(FMT_SIZE_AT <= i < FMT_SIZE_AT + 4)
                          && !Unread(i, SkipEnd(s))) ==> s[i] == t[i]
    ensures ParseWav(s) == ParseWav(t)
  {
    if RIFF_HEADER_SIZE <= |s| {
      assert Tag(s, 0) == Tag(t, 0);
    }
    if FMT_END <= |s| {
      assert Tag(s, FMT_AT) == Tag(t, FMT_AT);
      ReadSame32(s, t, SAMPLE_RATE_AT);
      ReadSame16(s, t, CHANNELS_AT);
      ReadSame16(s, t, BITS_PER_SAMPLE_AT);
      var dataAt := DataHeaderAt(s);
      assert DataHeaderAt(t) == dataAt;
      if dataAt + WAVE_DATA_SIZE <= |s| {
        assert Tag(s, dataAt) == Tag(t, dataAt);
        ReadSame32(s, t, dataAt + 4);
        var size := Int32At(s, dataAt + 4);
        var payloadAt := dataAt + WAVE_DATA_SIZE;
        if 0 <= size && payloadAt + size <= |s| {
          assert s[payloadAt..payloadAt + size] == t[payloadAt..payloadAt + size];
        }
      }
    }
  }

  /** "RIFF" (or "WAVE") followed by any chunk size and any form type is
      accepted alike: bytes 4 to 12 are never checked. */
  lemma FormTypeNotChecked(s: seq<byte>, sizeAndForm: seq<byte>)
    requires RIFF_HEADER_SIZE <= |s| && |sizeAndForm| == 8
    ensures ParseWav(s[..4] + sizeAndForm + s[RIFF_HEADER_SIZE..]) == ParseWav(s)
  {
    var t := s[..4] + sizeAndForm + s[RIFF_HEADER_SIZE..];
    assert forall i :: 0 <= i < |s| && !(4 <= i < RIFF_HEADER_SIZE) ==> s[i] == t[i];
    if FMT_END <= |s| {
      ReadSame32(s, t, FMT_SIZE_AT);
    }
    OnlyReadFieldsMatter(s, t);
  }

  /** The skip before the data header is two bytes for every fmt size above
      16, never the size minus 16: changing one such size to another does
      not change the result. */
  lemma SkipIsAlwaysTwo(s: seq<byte>, fmtSize: int)
    requires FMT_END <= |s| && Int32At(s, FMT_SIZE_AT) > PLAIN_FMT_SIZE
    requires IsInt32(fmtSize) && fmtSize > PLAIN_FMT_SIZE
    ensures ParseWav(s[..FMT_SIZE_AT] + Int32Bytes(fmtSize) + s[FMT_SIZE_AT + 4..]) == ParseWav(s)
  {
    var t := s[..FMT_SIZE_AT] + Int32Bytes(fmtSize) + s[FMT_SIZE_AT + 4..];
    assert t[FMT_SIZE_AT..FMT_SIZE_AT + 4] == Int32Bytes(fmtSize);
    ReadAt32(t, FMT_SIZE_AT, fmtSize);
    assert forall i :: 0 <= i < |s| && !(FMT_SIZE_AT <= i < FMT_SIZE_AT + 4) ==> s[i] == t[i];
    OnlyReadFieldsMatter(s, t);
  }
}
