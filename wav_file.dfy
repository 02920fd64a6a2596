/** The WAV container of src/wav.h: the 36-byte RIFF/fmt header, the 8-byte
    chunk header, reading a file (header, scan for the "data" chunk, samples)
    and saving one (header, chunk header, samples, then the two length fields
    patched in place). A file is a sequence of bytes; the FILE* cursor is a
    position in it. */
module WavFile {
  import opened FixedWidth

  /** A four-character chunk or format identifier, as raw bytes. */
  type Tag = s: seq<Byte> | |s| == 4 witness [0, 0, 0, 0]

  /** `Header` of src/wav.h: packed, 36 bytes, every field little-endian. */
  datatype Header = Header(
    fileId: Tag,          // offset  0, "RIFF"
    fileSize: Int32,      // offset  4
    fileType: Tag,        // offset  8, "WAVE"
    fmtId: Tag,           // offset 12, "fmt "
    fmtSize: Int32,       // offset 16
    audioFormat: Int16,   // offset 20
    numChannels: Int16,   // offset 22
    sampleRate: Int32,    // offset 24
    byteRate: Int32,      // offset 28
    blockAlign: Int16,    // offset 32
    bitsPerSample: Int16) // offset 34

  /** `Chunk` of src/wav.h: an id and the byte length of the chunk's body. */
  datatype Chunk = Chunk(id: Tag, dataSize: Int32)

  /** `WAV` of src/wav.h: the header, the data chunk header, the samples and
      their count. The C record keeps the count beside a bare pointer; Valid
      says the two agree. */
  datatype Wav = Wav(header: Header, chunk: Chunk, samples: seq<Int16>, noSamples: int)
  {
    predicate Valid() { noSamples == |samples| }
  }

  const HeaderSize: nat := 36
  const ChunkHeaderSize: nat := 8

  /** "data" read as a little-endian 32-bit integer. */
  const DataId: int := 0x61746164
  /** The bytes 'd', 'a', 't', 'a'. */
  const DataTag: Tag := [0x64, 0x61, 0x74, 0x61]

  /** Why a file could not be read. The source has no error path: each of
      these is a case where it loops forever, reads past the end of the file
      or works with indeterminate or overflowed values. */
  datatype ReadError =
    | TruncatedHeader      // fewer than 36 bytes
    | NoDataChunk          // the scan reaches the end without a "data" chunk
    | NegativeChunkSize    // a skipped chunk declares a negative length
    | UnsupportedDepth     // bits_per_sample is not 16
    | SampleCountOverflow  // data_size * 8 overflows int
    | NegativeSampleCount  // data_size * 8 / bits_per_sample is negative

  datatype Result<T> = Ok(value: T) | Err(error: ReadError)

  // ---------------------------------------------------------------------
  // Layout
  // ---------------------------------------------------------------------

  function EncodeHeader(h: Header): (s: seq<Byte>)
    ensures |s| == HeaderSize
  {
    h.fileId + EncodeI32(h.fileSize) + h.fileType + h.fmtId + EncodeI32(h.fmtSize)
    + EncodeI16(h.audioFormat) + EncodeI16(h.numChannels) + EncodeI32(h.sampleRate)
    + EncodeI32(h.byteRate) + EncodeI16(h.blockAlign) + EncodeI16(h.bitsPerSample)
  }

  /** The header fields at their fixed offsets from the start of b: the
      fread of sizeof(Header) bytes. */
  function DecodeHeader(b: seq<Byte>): Header
    requires |b| >= HeaderSize
  {
    Header(b[0..4], I32At(b, 4), b[8..12], b[12..16], I32At(b, 16),
           I16At(b, 20), I16At(b, 22), I32At(b, 24), I32At(b, 28),
           I16At(b, 32), I16At(b, 34))
  }

  /** Every one of the 36 header bytes lands in a field: encoding the
      decoded header gives them back. */
  lemma DecodeHeaderInverse(b: seq<Byte>)
    requires |b| >= HeaderSize
    ensures EncodeHeader(DecodeHeader(b)) == b[..HeaderSize]
  {
    EncodeI32At(b, 4);
    EncodeI32At(b, 16);
    EncodeI16At(b, 20);
    EncodeI16At(b, 22);
    EncodeI32At(b, 24);
    EncodeI32At(b, 28);
    EncodeI16At(b, 32);
    EncodeI16At(b, 34);
    JoinSlices(b, 0, 4, 8);
    JoinSlices(b, 0, 8, 12);
    JoinSlices(b, 0, 12, 16);
    JoinSlices(b, 0, 16, 20);
    JoinSlices(b, 0, 20, 22);
    JoinSlices(b, 0, 22, 24);
    JoinSlices(b, 0, 24, 28);
    JoinSlices(b, 0, 28, 32);
    JoinSlices(b, 0, 32, 34);
    JoinSlices(b, 0, 34, 36);
  }

  lemma JoinSlices(b: seq<Byte>, i: nat, j: nat, k: nat)
    requires i <= j <= k <= |b|
    ensures b[i..j] + b[j..k] == b[i..k]
  {
  }

  function EncodeChunk(c: Chunk): (s: seq<Byte>)
    ensures |s| == ChunkHeaderSize
  {
    c.id + EncodeI32(c.dataSize)
  }

  /** The fread of sizeof(Chunk) bytes at the cursor. */
  function DecodeChunk(b: seq<Byte>, pos: nat): Chunk
    requires pos + ChunkHeaderSize <= |b|
  {
    Chunk(b[pos..pos + 4], I32At(b, pos + 4))
  }

  /** Encoding the decoded chunk header gives its eight bytes back. */
  lemma DecodeChunkInverse(b: seq<Byte>, pos: nat)
    requires pos + ChunkHeaderSize <= |b|
    ensures EncodeChunk(DecodeChunk(b, pos)) == b[pos..pos + ChunkHeaderSize]
  {
    EncodeI32At(b, pos + 4);
    assert b[pos..pos + ChunkHeaderSize] == b[pos..pos + 4] + b[pos + 4..pos + 8];
  }

  /** The samples as fwrite lays out an int16_t array: two bytes each, low
      byte first. */
  function EncodeSamples(s: seq<Int16>): (r: seq<Byte>)
    ensures |r| == 2 * |s|
  {
    seq(2 * |s|, k requires 0 <= k < 2 * |s| => EncodeI16(s[k / 2])[k % 2])
  }

  /** Each sample occupies its own two bytes. */
  lemma EncodeSamplesAt(s: seq<Int16>, i: nat)
    requires i < |s|
    ensures EncodeSamples(s)[2 * i] == EncodeI16(s[i])[0]
    ensures EncodeSamples(s)[2 * i + 1] == EncodeI16(s[i])[1]
  {
    assert (2 * i) / 2 == i && (2 * i) % 2 == 0;
    assert (2 * i + 1) / 2 == i && (2 * i + 1) % 2 == 1;
  }

  /** The header fields are read back from the 36 bytes they were written to,
      whatever follows them. */
  lemma HeaderRoundTrip(h: Header, rest: seq<Byte>)
    ensures DecodeHeader(EncodeHeader(h) + rest) == h
  {
    var b := EncodeHeader(h) + rest;
    assert b[0..4] == h.fileId;
    assert b[8..12] == h.fileType;
    assert b[12..16] == h.fmtId;
    I32AtEncoded(b, 4, h.fileSize);
    I32AtEncoded(b, 16, h.fmtSize);
    I16AtEncoded(b, 20, h.audioFormat);
    I16AtEncoded(b, 22, h.numChannels);
    I32AtEncoded(b, 24, h.sampleRate);
    I32AtEncoded(b, 28, h.byteRate);
    I16AtEncoded(b, 32, h.blockAlign);
    I16AtEncoded(b, 34, h.bitsPerSample);
  }

  /** sample_rate sits at offset 24 and bits_per_sample at offset 34 of the
      header; the header ends at 36, where the chunk scan starts. */
  lemma HeaderOffsets(h: Header)
    ensures EncodeHeader(h)[24..28] == EncodeI32(h.sampleRate)
    ensures EncodeHeader(h)[34..36] == EncodeI16(h.bitsPerSample)
    ensures EncodeHeader(h)[4..8] == EncodeI32(h.fileSize)
  {
  }

  /** The id test of the scan, a 32-bit comparison with 0x61746164, holds of
      exactly the four bytes "data". */
  lemma DataIdIsDataTag(t: Tag)
    ensures I32At(t, 0) == DataId <==> t == DataTag
  {
    if I32At(t, 0) == DataId {
      assert U32At(t, 0) == 0x61746164;
      assert t[0] == 0x64 && t[1] == 0x61 && t[2] == 0x74 && t[3] == 0x61;
    }
  }

  // ---------------------------------------------------------------------
  // Reading
  // ---------------------------------------------------------------------

  /** The chunk scan of read_wav_file from position pos: the position of the
      first chunk header whose id is "data", skipping each other chunk by its
      declared length. */
  function FindDataChunk(b: seq<Byte>, pos: nat): (r: Result<nat>)
    ensures r.Ok? ==> pos <= r.value && r.value + ChunkHeaderSize <= |b| && I32At(b, r.value) == DataId
    ensures r.Err? ==> r.error == NoDataChunk || r.error == NegativeChunkSize
    decreases |b| - pos
  {
    if pos + ChunkHeaderSize > |b| then Err(NoDataChunk)
    else if I32At(b, pos) == DataId then Ok(pos)
    else
      var size := I32At(b, pos + 4);
      if size < 0 then Err(NegativeChunkSize)
      else FindDataChunk(b, pos + ChunkHeaderSize + size)
  }

  /** The sample stored at off; a sample the file does not hold stays at the
      zero written by memset. */
  function SampleAt(b: seq<Byte>, off: nat): Int16
  {
    if off + 2 <= |b| then I16At(b, off) else 0
  }

  /** A sample the file holds is the int16 whose two bytes sit at off; one
      it does not hold is zero. */
  lemma SampleAtInverse(b: seq<Byte>, off: nat)
    ensures off + 2 <= |b| ==> EncodeI16(SampleAt(b, off)) == b[off..off + 2]
    ensures off + 2 > |b| ==> SampleAt(b, off) == 0
  {
    if off + 2 <= |b| {
      EncodeI16At(b, off);
    }
  }

  function SamplesFrom(b: seq<Byte>, start: nat, count: nat): (s: seq<Int16>)
    ensures |s| == count
  {
    seq(count, i requires 0 <= i < count => SampleAt(b, start + 2 * i))
  }

  /** What read_wav_file makes of the bytes of a file. */
  function ParseWav(b: seq<Byte>): (r: Result<Wav>)
    ensures r.Ok? ==> r.value.Valid()
    ensures r.Ok? ==> |b| >= HeaderSize && r.value.header == DecodeHeader(b)
    ensures r.Ok? ==> r.value.header.bitsPerSample == 16 && r.value.chunk.id == DataTag
  {
    if |b| < HeaderSize then Err(TruncatedHeader)
    else
      var header := DecodeHeader(b);
      match FindDataChunk(b, HeaderSize)
      case Err(e) => Err(e)
      case Ok(p) =>
        var chunk := DecodeChunk(b, p);
        DataIdIsDataTag(chunk.id);
        I32AtSlice(b, p);
        if header.bitsPerSample != 16 then Err(UnsupportedDepth)
        else if !InInt32(chunk.dataSize * 8) then Err(SampleCountOverflow)
        else
          var count := CDiv(chunk.dataSize * 8, header.bitsPerSample);
          if count < 0 then Err(NegativeSampleCount)
          else Ok(Wav(header, chunk, SamplesFrom(b, p + ChunkHeaderSize, count), count))
  }

  /** The chunk loop of read_wav_file: read a chunk header at the cursor,
      stop at "data", otherwise seek past the chunk's payload. Returns the
      position of the "data" chunk header. */
  method ScanChunks(file: seq<Byte>) returns (r: Result<nat>)
    ensures r == FindDataChunk(file, HeaderSize)
  {
    var pos: nat := HeaderSize;
    while true
      invariant FindDataChunk(file, pos) == FindDataChunk(file, HeaderSize)
      decreases |file| - pos
    {
      if pos + ChunkHeaderSize > |file| {
        return Err(NoDataChunk);
      }
      var chunk := DecodeChunk(file, pos);
      I32AtSlice(file, pos);
      pos := pos + ChunkHeaderSize;
      if I32At(chunk.id, 0) == DataId {
        return Ok(pos - ChunkHeaderSize);
      }
      if chunk.dataSize < 0 {
        return Err(NegativeChunkSize);
      }
      pos := pos + chunk.dataSize;
    }
  }

  /** The sample loop of read_wav_file: a zeroed buffer of count samples,
      each filled from the file at the cursor while the file still holds two
      bytes there. */
  method ReadSamples(file: seq<Byte>, start: nat, count: nat) returns (s: seq<Int16>)
    ensures s == SamplesFrom(file, start, count)
  {
    var samples := new Int16[count](_ => 0);
    var pos := start;
    for i := 0 to count
      invariant pos == start + 2 * i
      invariant forall k :: 0 <= k < i ==> samples[k] == SampleAt(file, start + 2 * k)
      invariant forall k :: i <= k < count ==> samples[k] == 0
    {
      if pos + 2 <= |file| {
        samples[i] := I16At(file, pos);
      }
      pos := pos + 2;
    }
    s := samples[..];
  }

  /** read_wav_file over the bytes of the file. */
  method ReadWav(file: seq<Byte>) returns (r: Result<Wav>)
    ensures r == ParseWav(file)
  {
    if |file| < HeaderSize {
      return Err(TruncatedHeader);
    }
    var header := DecodeHeader(file);
    var found := ScanChunks(file);
    if found.Err? {
      return Err(found.error);
    }
    var chunk := DecodeChunk(file, found.value);

    if header.bitsPerSample != 16 {
      return Err(UnsupportedDepth);
    }
    if !InInt32(chunk.dataSize * 8) {
      return Err(SampleCountOverflow);
    }
    var count := CDiv(chunk.dataSize * 8, header.bitsPerSample);
    if count < 0 {
      return Err(NegativeSampleCount);
    }
    var samples := ReadSamples(file, found.value + ChunkHeaderSize, count);
    r := Ok(Wav(header, chunk, samples, count));
  }

  // ---------------------------------------------------------------------
  // Saving
  // ---------------------------------------------------------------------

  /** Writing bytes over part of a file that already holds them: fseek
      followed by fwrite. */
  function Overwrite(file: seq<Byte>, off: nat, bytes: seq<Byte>): (r: seq<Byte>)
    requires off + |bytes| <= |file|
    ensures |r| == |file| && r[off..off + |bytes|] == bytes
    ensures forall k :: 0 <= k < |file| && !(off <= k < off + |bytes|) ==> r[k] == file[k]
  {
    file[..off] + bytes + file[off + |bytes|..]
  }

  /** A record whose saved file length fits the int that holds it. */
  predicate SaveFits(w: Wav)
  {
    InInt32(HeaderSize + ChunkHeaderSize + 2 * |w.samples|)
  }

  /** The file save_wav_file leaves behind: the in-memory header and chunk
      header with their two length fields replaced by the true lengths, then
      the samples. */
  function Saved(w: Wav): (file: seq<Byte>)
    requires SaveFits(w)
    ensures |file| == HeaderSize + ChunkHeaderSize + 2 * |w.samples|
  {
    var n := |w.samples|;
    EncodeHeader(w.header.(fileSize := HeaderSize + 2 * n))
    + EncodeChunk(w.chunk.(dataSize := 2 * n))
    + EncodeSamples(w.samples)
  }

  /** Replacing the file-size field changes bytes 4..7 of the header only. */
  lemma EncodeHeaderWithFileSize(h: Header, x: Int32)
    ensures EncodeHeader(h.(fileSize := x)) == EncodeHeader(h)[..4] + EncodeI32(x) + EncodeHeader(h)[8..]
  {
  }

  /** The bytes written before the two lengths are patched. */
  function Unpatched(w: Wav): (raw: seq<Byte>)
  {
    EncodeHeader(w.header) + EncodeChunk(w.chunk) + EncodeSamples(w.samples)
  }

  /** Overwriting the middle part of a three-part file replaces that part. */
  lemma OverwriteMiddle(p: seq<Byte>, q: seq<Byte>, r: seq<Byte>, x: seq<Byte>)
    requires |q| == |x|
    ensures Overwrite(p + q + r, |p|, x) == p + x + r
  {
    var f := Overwrite(p + q + r, |p|, x);
    forall k | 0 <= k < |f|
      ensures f[k] == (p + x + r)[k]
    {
      if k < |p| {
      } else if k < |p| + |x| {
        assert f[|p|..|p| + |x|][k - |p|] == x[k - |p|];
      }
    }
  }

  /** Patching bytes 40..43 replaces the chunk's data length. */
  lemma PatchDataLength(h: Header, c: Chunk, s: seq<Byte>, x: Int32)
    ensures Overwrite(EncodeHeader(h) + EncodeChunk(c) + s, HeaderSize + 4, EncodeI32(x))
            == EncodeHeader(h) + EncodeChunk(c.(dataSize := x)) + s
  {
    var e := EncodeHeader(h);
    assert e + EncodeChunk(c) + s == (e + c.id) + EncodeI32(c.dataSize) + s;
    OverwriteMiddle(e + c.id, EncodeI32(c.dataSize), s, EncodeI32(x));
    assert (e + c.id) + EncodeI32(x) + s == e + EncodeChunk(c.(dataSize := x)) + s;
  }

  /** Patching bytes 4..7 replaces the header's RIFF length. */
  lemma PatchRiffLength(h: Header, a: seq<Byte>, b: seq<Byte>, x: Int32)
    ensures Overwrite(EncodeHeader(h) + a + b, 4, EncodeI32(x)) == EncodeHeader(h.(fileSize := x)) + a + b
  {
    var e := EncodeHeader(h);
    assert e + a + b == e[..4] + e[4..8] + (e[8..] + a + b);
    OverwriteMiddle(e[..4], e[4..8], e[8..] + a + b, EncodeI32(x));
    EncodeHeaderWithFileSize(h, x);
  }

  /** Patching bytes 40..43 and then 4..7 of the unpatched bytes with the
      true lengths gives the saved file. */
  lemma PatchedIsSaved(w: Wav)
    requires SaveFits(w)
    ensures var raw := Unpatched(w);
            Overwrite(Overwrite(raw, 40, EncodeI32(|raw| - 44)), 4, EncodeI32(|raw| - 8)) == Saved(w)
  {
    var n := |w.samples|;
    var s := EncodeSamples(w.samples);
    var raw := Unpatched(w);
    assert |raw| == 44 + 2 * n;
    var once := Overwrite(raw, 40, EncodeI32(2 * n));
    PatchDataLength(w.header, w.chunk, s, 2 * n);
    assert once == EncodeHeader(w.header) + EncodeChunk(w.chunk.(dataSize := 2 * n)) + s;
    PatchRiffLength(w.header, EncodeChunk(w.chunk.(dataSize := 2 * n)), s, HeaderSize + 2 * n);
  }

  /** save_wav_file over a fresh file: write header, chunk header and samples,
      take the length, then seek back to patch the data length (bytes 40..43)
      and the RIFF length (bytes 4..7). */
  method SaveWav(wav: Wav) returns (file: seq<Byte>)
    requires wav.Valid() && SaveFits(wav)
    ensures file == Saved(wav)
  {
    file := EncodeHeader(wav.header);
    file := file + EncodeChunk(wav.chunk);
    file := file + EncodeSamples(wav.samples[..wav.noSamples]);
    assert file == Unpatched(wav);

    var fileLength := |file|;
    var dataLength := fileLength - (HeaderSize + ChunkHeaderSize);
    file := Overwrite(file, HeaderSize + ChunkHeaderSize - 4, EncodeI32(dataLength));

    var riffLength := fileLength - 8;
    file := Overwrite(file, 4, EncodeI32(riffLength));
    PatchedIsSaved(wav);
  }

  /** The first 44 bytes of a saved file: bytes 4..7 hold the file length
      minus 8 and bytes 40..43 the length minus 44; every other header byte
      is the in-memory header's and bytes 36..39 are the chunk id. */
  lemma SavedHeaderLayout(w: Wav)
    requires SaveFits(w)
    ensures |Saved(w)| == HeaderSize + ChunkHeaderSize + 2 * |w.samples|
    ensures Saved(w)[4..8] == EncodeI32(|Saved(w)| - 8)
    ensures Saved(w)[40..44] == EncodeI32(|Saved(w)| - 44)
    ensures forall k :: 0 <= k < HeaderSize && !(4 <= k < 8) ==> Saved(w)[k] == EncodeHeader(w.header)[k]
    ensures Saved(w)[36..40] == w.chunk.id
  {
    var n := |w.samples|;
    var h' := EncodeHeader(w.header.(fileSize := HeaderSize + 2 * n));
    var c' := EncodeChunk(w.chunk.(dataSize := 2 * n));
    var f := Saved(w);
    assert f == h' + c' + EncodeSamples(w.samples);
    EncodeHeaderWithFileSize(w.header, HeaderSize + 2 * n);
    assert f[4..8] == h'[4..8];
    assert f[36..40] == c'[..4];
    assert f[40..44] == c'[4..];
  }

  /** After the 44 header bytes a saved file holds each sample in two
      bytes. */
  lemma SavedSampleBytes(w: Wav, i: nat)
    requires SaveFits(w) && i < |w.samples|
    ensures |Saved(w)| == HeaderSize + ChunkHeaderSize + 2 * |w.samples|
    ensures Saved(w)[44 + 2 * i..46 + 2 * i] == EncodeI16(w.samples[i])
  {
    var f := Saved(w);
    var e := EncodeSamples(w.samples);
    assert f == f[..44] + e;
    EncodeSamplesAt(w.samples, i);
    assert f[44 + 2 * i] == e[2 * i] && f[45 + 2 * i] == e[2 * i + 1];
  }

  /** The body of a saved file: after the 44 bytes that SavedHeaderLayout
      describes come all the samples, each in its own two bytes. */
  lemma SavedLayout(w: Wav)
    requires SaveFits(w)
    ensures forall i :: 0 <= i < |w.samples| ==> Saved(w)[44 + 2 * i..46 + 2 * i] == EncodeI16(w.samples[i])
  {
    forall i | 0 <= i < |w.samples|
      ensures Saved(w)[44 + 2 * i..46 + 2 * i] == EncodeI16(w.samples[i])
    {
      SavedSampleBytes(w, i);
    }
  }

  /** The chunk header of a saved file, read back at offset 36, is the
      record's with the true data length. */
  lemma SavedChunk(w: Wav)
    requires SaveFits(w)
    ensures |Saved(w)| >= 44 && DecodeChunk(Saved(w), 36) == w.chunk.(dataSize := 2 * |w.samples|)
  {
    SavedHeaderLayout(w);
    I32AtEncoded(Saved(w), 40, 2 * |w.samples|);
  }

  /** Samples encoded after any prefix decode back from the end of the
      prefix. */
  lemma DecodeEncodedSamples(prefix: seq<Byte>, s: seq<Int16>)
    ensures SamplesFrom(prefix + EncodeSamples(s), |prefix|, |s|) == s
  {
    var e := EncodeSamples(s);
    var f := prefix + e;
    var decoded := SamplesFrom(f, |prefix|, |s|);
    forall i | 0 <= i < |s|
      ensures decoded[i] == s[i]
    {
      var off := |prefix| + 2 * i;
      EncodeSamplesAt(s, i);
      assert f[off] == e[2 * i] && f[off + 1] == e[2 * i + 1];
      I16AtSameBytes(f, off, EncodeI16(s[i]), 0);
      assert decoded[i] == SampleAt(f, off);
    }
  }

  /** The samples of a saved file, read back from offset 44, are the record's. */
  lemma SavedSamples(w: Wav)
    requires SaveFits(w)
    ensures SamplesFrom(Saved(w), 44, |w.samples|) == w.samples
  {
    var f := Saved(w);
    var prefix := f[..44];
    assert f == prefix + EncodeSamples(w.samples);
    DecodeEncodedSamples(prefix, w.samples);
  }

  /** Round trip: a 16-bit record whose chunk id is "data", once saved and
      read back, has the same header except for the patched RIFF length, the
      chunk header with the true data length, and the same samples. */
  lemma RoundTrip(w: Wav)
    requires w.Valid() && w.header.bitsPerSample == 16 && w.chunk.id == DataTag
    requires InInt32(16 * |w.samples|)
    ensures SaveFits(w)
    ensures ParseWav(Saved(w)) == Ok(Wav(
              w.header.(fileSize := HeaderSize + 2 * |w.samples|),
              w.chunk.(dataSize := 2 * |w.samples|),
              w.samples, w.noSamples))
  {
    var n := |w.samples|;
    var f := Saved(w);
    var h' := w.header.(fileSize := HeaderSize + 2 * n);
    var c' := w.chunk.(dataSize := 2 * n);
    HeaderRoundTrip(h', EncodeChunk(c') + EncodeSamples(w.samples));
    assert f == EncodeHeader(h') + (EncodeChunk(c') + EncodeSamples(w.samples));
    assert DecodeHeader(f) == h';
    SavedChunk(w);
    DataIdIsDataTag(f[36..40]);
    I32AtSlice(f, 36);
    assert FindDataChunk(f, HeaderSize) == Ok(36);
    assert CDiv(2 * n * 8, 16) == n;
    SavedSamples(w);
  }

  /** Samples read from bytes the file holds encode back to those bytes. */
  lemma EncodeDecodedSamples(b: seq<Byte>, start: nat, count: nat)
    requires start + 2 * count <= |b|
    ensures EncodeSamples(SamplesFrom(b, start, count)) == b[start..start + 2 * count]
  {
    var s := SamplesFrom(b, start, count);
    var e := EncodeSamples(s);
    forall k | 0 <= k < 2 * count
      ensures e[k] == b[start + k]
    {
      var off := start + 2 * (k / 2);
      SampleAtInverse(b, off);
      assert s[k / 2] == SampleAt(b, off);
      assert e[k] == b[off..off + 2][k % 2];
    }
  }

  /** A file laid out as save_wav_file writes it: a 16-bit header whose RIFF
      length is the file length minus 8, directly followed by the "data"
      chunk, whose length is the rest of the file. */
  predicate Canonical(b: seq<Byte>)
  {
    |b| >= HeaderSize + ChunkHeaderSize && (|b| - 44) % 2 == 0
    && b[36..40] == DataTag
    && I32At(b, 4) == |b| - 8 && I32At(b, 40) == |b| - 44
    && I16At(b, 34) == 16 && InInt32(8 * (|b| - 44))
  }

  /** Reading such a file finds the data chunk right after the header and
      takes every remaining pair of bytes as a sample. */
  lemma CanonicalFileParses(b: seq<Byte>)
    requires Canonical(b)
    ensures ParseWav(b) == Ok(Wav(DecodeHeader(b), DecodeChunk(b, HeaderSize),
                                  SamplesFrom(b, 44, (|b| - 44) / 2), (|b| - 44) / 2))
  {
    DataIdIsDataTag(b[36..40]);
    I32AtSlice(b, 36);
    assert FindDataChunk(b, HeaderSize) == Ok(36);
    assert CDiv(DecodeChunk(b, HeaderSize).dataSize * 8, 16) == (|b| - 44) / 2;
  }

  /** A record whose two length fields already hold the true lengths is
      saved exactly as first written: the patches change nothing. */
  lemma SavedWhenLengthsTrue(w: Wav)
    requires SaveFits(w)
    requires w.header.fileSize == HeaderSize + 2 * |w.samples|
    requires w.chunk.dataSize == 2 * |w.samples|
    ensures Saved(w) == Unpatched(w)
  {
    assert w.header.(fileSize := HeaderSize + 2 * |w.samples|) == w.header;
    assert w.chunk.(dataSize := 2 * |w.samples|) == w.chunk;
  }

  /** The other round trip: such a file is read and saved back byte for
      byte. */
  lemma CanonicalFileRoundTrip(b: seq<Byte>)
    requires Canonical(b)
    ensures ParseWav(b).Ok? && SaveFits(ParseWav(b).value)
    ensures Saved(ParseWav(b).value) == b
  {
    var n := (|b| - 44) / 2;
    CanonicalFileParses(b);
    var w := Wav(DecodeHeader(b), DecodeChunk(b, HeaderSize), SamplesFrom(b, 44, n), n);
    SavedWhenLengthsTrue(w);
    DecodeHeaderInverse(b);
    DecodeChunkInverse(b, HeaderSize);
    EncodeDecodedSamples(b, 44, n);
    JoinSlices(b, 0, 36, 44);
    JoinSlices(b, 0, 44, |b|);
  }

  /** A saved record whose chunk id is not "data" cannot be read back: the
      scan skips its only chunk and reaches the end of the file. */
  lemma SavedForeignChunkUnreadable(w: Wav)
    requires SaveFits(w) && w.chunk.id != DataTag
    ensures ParseWav(Saved(w)) == Err(NoDataChunk)
  {
    var n := |w.samples|;
    var f := Saved(w);
    SavedHeaderLayout(w);
    DataIdIsDataTag(f[36..40]);
    I32AtSlice(f, 36);
    I32AtEncoded(f, 40, 2 * n);
    assert FindDataChunk(f, 44 + 2 * n) == Err(NoDataChunk);
  }

  /** A "LIST" chunk declaring 10 bytes ahead of the data chunk is skipped and
      the data chunk found at 36 + 8 + 10 = 54. */
  lemma ListChunkSkipped(header: seq<Byte>, list: Tag, payload: seq<Byte>, dataSize: Int32, rest: seq<Byte>)
    requires |header| == HeaderSize && |payload| == 10 && list != DataTag
    ensures FindDataChunk(header + EncodeChunk(Chunk(list, 10)) + payload + EncodeChunk(Chunk(DataTag, dataSize)) + rest, HeaderSize)
            == Ok(54)
  {
    var b := header + EncodeChunk(Chunk(list, 10)) + payload + EncodeChunk(Chunk(DataTag, dataSize)) + rest;
    assert b[36..40] == list;
    assert b[40..44] == EncodeI32(10);
    assert b[54..58] == DataTag;
    DataIdIsDataTag(list);
    DataIdIsDataTag(DataTag);
    I32AtSlice(b, 36);
    I32AtEncoded(b, 40, 10);
    I32AtSlice(b, 54);
  }
}
