/**
 * An encoder for the ".org" container, and the proof that the decoder and
 * the encoder are inverse: every well-formed song survives encoding and
 * decoding, and every accepted buffer is, up to the last byte the decoder
 * reads, the encoding of the song it decodes to.
 */
module SongCodec {
  import opened Wrappers
  import opened Bytes
  import opened SongFormat

  predicate InstrumentFits(x: Instrument)
  {
    IsI16(x.freq) && IsU16(x.notes)
  }

  predicate TrackFits(notes: seq<Note>)
  {
    forall j :: 0 <= j < |notes| ==> IsI32(notes[j].pos)
  }

  /** A song the container can hold: every scalar within its field's width,
      16 instruments, 16 tracks, each as long as its instrument's note count. */
  predicate WellFormed(s: Song)
  {
    && IsU16(s.wait) && IsI32(s.start) && IsI32(s.end)
    && |s.instruments| == TrackCount && |s.tracks| == TrackCount
    && (forall i :: 0 <= i < TrackCount ==> InstrumentFits(s.instruments[i]))
    && (forall i :: 0 <= i < TrackCount ==> |s.tracks[i]| == s.instruments[i].notes)
    && (forall i :: 0 <= i < TrackCount ==> TrackFits(s.tracks[i]))
  }

  // --------------------------------------------------------------- encoder

  function HeaderBytes(s: Song): (r: seq<byte>)
    requires WellFormed(s)
    ensures |r| == HeaderSize
  {
    LeU32(OrgMagic) + LeU16(OrgVersion) + LeU16(s.wait) + [s.meas.0, s.meas.1]
      + LeI32(s.start) + LeI32(s.end)
  }

  function InstrumentBytes(x: Instrument): (r: seq<byte>)
    requires InstrumentFits(x)
    ensures |r| == InstrumentSize
  {
    LeI16(x.freq) + [x.wave, x.pipi] + LeU16(x.notes)
  }

  function FieldOf(note: Note, f: ByteField): byte
  {
    match f
    case KeyField => note.key
    case LenField => note.len
    case VolField => note.vol
    case PanField => note.pan
  }

  function PosChunks(notes: seq<Note>): (r: seq<seq<byte>>)
    requires TrackFits(notes)
    ensures |r| == |notes|
  {
    seq(|notes|, j requires 0 <= j < |notes| => LeI32(notes[j].pos))
  }

  function FieldBytes(notes: seq<Note>, f: ByteField): (r: seq<byte>)
    ensures |r| == |notes|
  {
    seq(|notes|, j requires 0 <= j < |notes| => FieldOf(notes[j], f))
  }

  /** One track: the position array, then the key, length, volume and pan arrays. */
  function TrackBytes(notes: seq<Note>): seq<byte>
    requires TrackFits(notes)
  {
    Join(PosChunks(notes)) + FieldBytes(notes, KeyField) + FieldBytes(notes, LenField)
      + FieldBytes(notes, VolField) + FieldBytes(notes, PanField)
  }

  function InstrumentChunks(s: Song): (r: seq<seq<byte>>)
    requires WellFormed(s)
    ensures |r| == TrackCount
  {
    seq(TrackCount, i requires 0 <= i < TrackCount => InstrumentBytes(s.instruments[i]))
  }

  function TrackChunks(s: Song): (r: seq<seq<byte>>)
    requires WellFormed(s)
    ensures |r| == TrackCount
  {
    seq(TrackCount, i requires 0 <= i < TrackCount => TrackBytes(s.tracks[i]))
  }

  function EncodeSong(s: Song): seq<byte>
    requires WellFormed(s)
  {
    HeaderBytes(s) + Join(InstrumentChunks(s)) + Join(TrackChunks(s))
  }

  // --------------------------------------------------------- sizes of parts

  lemma JoinAll(chunks: seq<seq<byte>>)
    ensures |Join(chunks)| == JoinOffset(chunks, |chunks|)
  {
    JoinLength(chunks, |chunks|);
    assert chunks[..|chunks|] == chunks;
  }

  lemma PosBytesLayout(notes: seq<Note>)
    requires TrackFits(notes)
    ensures |Join(PosChunks(notes))| == 4 * |notes|
    ensures forall j :: 0 <= j < |notes| ==> JoinOffset(PosChunks(notes), j) == 4 * j
  {
    var c := PosChunks(notes);
    JoinAll(c);
    JoinUniformOffset(c, 4, |c|);
    forall j | 0 <= j < |notes| ensures JoinOffset(c, j) == 4 * j {
      JoinUniformOffset(c, 4, j);
    }
  }

  lemma TrackBytesLength(notes: seq<Note>)
    requires TrackFits(notes)
    ensures |TrackBytes(notes)| == 8 * |notes|
  {
    PosBytesLayout(notes);
  }

  lemma InstrumentsLayout(s: Song)
    requires WellFormed(s)
    ensures |Join(InstrumentChunks(s))| == InstrumentSize * TrackCount
    ensures forall i :: 0 <= i <= TrackCount ==> JoinOffset(InstrumentChunks(s), i) == InstrumentSize * i
  {
    var c := InstrumentChunks(s);
    JoinAll(c);
    assert forall k :: 0 <= k < |c| ==> |c[k]| == InstrumentSize;
    forall i | 0 <= i <= TrackCount ensures JoinOffset(c, i) == InstrumentSize * i {
      JoinUniformOffset(c, InstrumentSize, i);
    }
  }

  /** In an encoded song, track i starts where the decoder looks for it. */
  lemma {:induction false} TrackChunksOffset(s: Song, i: nat)
    requires WellFormed(s) && i <= TrackCount
    ensures TrackOffset(s.instruments, i) == InstrumentsEnd + JoinOffset(TrackChunks(s), i)
  {
    if i > 0 {
      TrackChunksOffset(s, i - 1);
      TrackBytesLength(s.tracks[i - 1]);
    }
  }

  // ------------------------------------------------------ decode (encode s)

  lemma ReadInstrumentBytes(data: seq<byte>, off: nat, x: Instrument)
    requires InstrumentFits(x)
    requires off + InstrumentSize <= |data| && data[off..off + InstrumentSize] == InstrumentBytes(x)
    ensures InstrumentAt(data, off) == x
  {
    var w := InstrumentBytes(x);
    assert w[0..2] == LeI16(x.freq) && w[4..6] == LeU16(x.notes);
    SubSlice(data, off, w, 0, 2);
    assert data[off..off + 2] == LeI16(x.freq);
    ReadLeI16(data, off, x.freq);
    SubSlice(data, off, w, 4, 6);
    ReadLeU16(data, off + 4, x.notes);
    SliceAt(data, off, w, 2);
    SliceAt(data, off, w, 3);
  }

  /** Element i of a slice is the element off + i of the sequence. */
  lemma SliceAt(data: seq<byte>, off: nat, w: seq<byte>, i: nat)
    requires off + |w| <= |data| && data[off..off + |w|] == w && i < |w|
    ensures data[off + i] == w[i]
  {
    assert data[off..off + |w|][i] == data[off + i];
  }

  /** An encoded track is its position array followed by its four byte arrays. */
  lemma TrackBytesParts(notes: seq<Note>)
    requires TrackFits(notes)
    ensures var n, w := |notes|, TrackBytes(notes);
      && |w| == 8 * n
      && w[..4 * n] == Join(PosChunks(notes))
      && w[4 * n..5 * n] == FieldBytes(notes, KeyField)
      && w[5 * n..6 * n] == FieldBytes(notes, LenField)
      && w[6 * n..7 * n] == FieldBytes(notes, VolField)
      && w[7 * n..] == FieldBytes(notes, PanField)
  {
    PosBytesLayout(notes);
    var a := Join(PosChunks(notes));
    var a1 := a + FieldBytes(notes, KeyField);
    var a2 := a1 + FieldBytes(notes, LenField);
    var a3 := a2 + FieldBytes(notes, VolField);
    var w := a3 + FieldBytes(notes, PanField);
    var n := |notes|;
    assert w[..7 * n] == a3;
    assert a3[..6 * n] == a2;
    assert a2[..5 * n] == a1;
    assert w[..4 * n] == a1[..4 * n] == a;
    assert w[4 * n..5 * n] == a1[4 * n..];
    assert w[5 * n..6 * n] == a2[5 * n..];
    assert w[6 * n..7 * n] == a3[6 * n..];
  }

  /** Where the fields of note j sit inside an encoded track. */
  lemma TrackBytesAt(notes: seq<Note>, j: nat)
    requires TrackFits(notes) && j < |notes|
    ensures |TrackBytes(notes)| == 8 * |notes|
    ensures TrackBytes(notes)[4 * j..4 * j + 4] == LeI32(notes[j].pos)
    ensures TrackBytes(notes)[4 * |notes| + j] == notes[j].key
    ensures TrackBytes(notes)[5 * |notes| + j] == notes[j].len
    ensures TrackBytes(notes)[6 * |notes| + j] == notes[j].vol
    ensures TrackBytes(notes)[7 * |notes| + j] == notes[j].pan
  {
    var n := |notes|;
    var pos := PosChunks(notes);
    var w := TrackBytes(notes);
    TrackBytesParts(notes);
    PosBytesLayout(notes);
    JoinAt(pos, j);
    JoinUniformOffset(pos, 4, j + 1);
    SubSlice(w, 0, Join(pos), 4 * j, 4 * j + 4);
    SliceAt(w, 4 * n, FieldBytes(notes, KeyField), j);
    SliceAt(w, 5 * n, FieldBytes(notes, LenField), j);
    SliceAt(w, 6 * n, FieldBytes(notes, VolField), j);
    assert w[7 * n..] == w[7 * n..7 * n + n];
    SliceAt(w, 7 * n, FieldBytes(notes, PanField), j);
  }

  /** A note read from bytes laid out as the encoder lays out note j. */
  lemma ReadNoteFrom(data: seq<byte>, off: nat, w: seq<byte>, n: nat, j: nat, note: Note)
    requires j < n && |w| == 8 * n && IsI32(note.pos)
    requires off + 8 * n <= |data| && data[off..off + 8 * n] == w
    requires w[4 * j..4 * j + 4] == LeI32(note.pos)
    requires w[4 * n + j] == note.key && w[5 * n + j] == note.len
    requires w[6 * n + j] == note.vol && w[7 * n + j] == note.pan
    ensures NoteAt(data, off, n, j) == note
  {
    SubSlice(data, off, w, 4 * j, 4 * j + 4);
    ReadLeI32(data, off + 4 * j, note.pos);
    SliceAt(data, off, w, 4 * n + j);
    SliceAt(data, off, w, 5 * n + j);
    SliceAt(data, off, w, 6 * n + j);
    SliceAt(data, off, w, 7 * n + j);
  }

  lemma ReadNoteBytes(data: seq<byte>, off: nat, notes: seq<Note>, j: nat)
    requires TrackFits(notes) && j < |notes|
    requires off + 8 * |notes| <= |data| && data[off..off + 8 * |notes|] == TrackBytes(notes)
    ensures NoteAt(data, off, |notes|, j) == notes[j]
  {
    TrackBytesAt(notes, j);
    ReadNoteFrom(data, off, TrackBytes(notes), |notes|, j, notes[j]);
  }

  lemma ReadTrackBytes(data: seq<byte>, off: nat, notes: seq<Note>)
    requires TrackFits(notes)
    requires off + 8 * |notes| <= |data| && data[off..off + 8 * |notes|] == TrackBytes(notes)
    ensures TrackAt(data, off, |notes|) == notes
  {
    forall j | 0 <= j < |notes| ensures NoteAt(data, off, |notes|, j) == notes[j] {
      ReadNoteBytes(data, off, notes, j);
    }
  }

  lemma EncodedParts(s: Song)
    requires WellFormed(s)
    ensures |EncodeSong(s)| == InstrumentsEnd + |Join(TrackChunks(s))|
    ensures |EncodeSong(s)| == TrackOffset(s.instruments, TrackCount)
    ensures EncodeSong(s)[..HeaderSize] == HeaderBytes(s)
    ensures EncodeSong(s)[HeaderSize..InstrumentsEnd] == Join(InstrumentChunks(s))
    ensures EncodeSong(s)[InstrumentsEnd..] == Join(TrackChunks(s))
  {
    InstrumentsLayout(s);
    JoinAll(TrackChunks(s));
    TrackChunksOffset(s, TrackCount);
  }

  lemma EncodedHeader(s: Song)
    requires WellFormed(s)
    ensures |EncodeSong(s)| >= InstrumentsEnd
    ensures U32(EncodeSong(s), 0) == OrgMagic && U16(EncodeSong(s), 4) == OrgVersion
    ensures U16(EncodeSong(s), 6) == s.wait && (EncodeSong(s)[8], EncodeSong(s)[9]) == s.meas
    ensures I32(EncodeSong(s), 10) == s.start && I32(EncodeSong(s), 14) == s.end
  {
    var e, h := EncodeSong(s), HeaderBytes(s);
    EncodedParts(s);
    TrackOffsetMono(s.instruments, 0, TrackCount);
    SubSlice(e, 0, h, 0, 4);
    ReadLeU32(e, 0, OrgMagic);
    SubSlice(e, 0, h, 4, 6);
    ReadLeU16(e, 4, OrgVersion);
    SubSlice(e, 0, h, 6, 8);
    ReadLeU16(e, 6, s.wait);
    SubSlice(e, 0, h, 10, 14);
    ReadLeI32(e, 10, s.start);
    SubSlice(e, 0, h, 14, 18);
    ReadLeI32(e, 14, s.end);
    assert e[8] == h[8] && e[9] == h[9];
  }

  lemma EncodedInstruments(s: Song)
    requires WellFormed(s)
    ensures |EncodeSong(s)| >= InstrumentsEnd
    ensures DecodeInstruments(EncodeSong(s)) == s.instruments
  {
    var e, ic := EncodeSong(s), InstrumentChunks(s);
    EncodedParts(s);
    InstrumentsLayout(s);
    TrackOffsetMono(s.instruments, 0, TrackCount);
    forall i | 0 <= i < TrackCount
      ensures InstrumentAt(e, HeaderSize + InstrumentSize * i) == s.instruments[i]
    {
      JoinAt(ic, i);
      SubSlice(e, HeaderSize, Join(ic), InstrumentSize * i, InstrumentSize * i + InstrumentSize);
      ReadInstrumentBytes(e, HeaderSize + InstrumentSize * i, s.instruments[i]);
    }
  }

  /** The bytes of track i sit at TrackOffset(s.instruments, i) of the encoding. */
  lemma EncodedTrackBytes(s: Song, i: nat)
    requires WellFormed(s) && i < TrackCount
    ensures TrackOffset(s.instruments, i) + 8 * |s.tracks[i]| <= |EncodeSong(s)|
    ensures EncodeSong(s)[TrackOffset(s.instruments, i)..TrackOffset(s.instruments, i) + 8 * |s.tracks[i]|]
         == TrackBytes(s.tracks[i])
  {
    var e, tc := EncodeSong(s), TrackChunks(s);
    EncodedParts(s);
    JoinTailAt(e, InstrumentsEnd, tc, i);
    TrackChunksOffset(s, i);
    TrackBytesLength(s.tracks[i]);
  }

  lemma EncodedTrack(s: Song, i: nat)
    requires WellFormed(s) && i < TrackCount
    ensures |EncodeSong(s)| == TrackOffset(s.instruments, TrackCount)
    ensures DecodeTrack(EncodeSong(s), s.instruments, i) == s.tracks[i]
  {
    EncodedParts(s);
    EncodedTrackBytes(s, i);
    ReadTrackBytes(EncodeSong(s), TrackOffset(s.instruments, i), s.tracks[i]);
  }

  /** Decoding an encoded well-formed song gives the song back. */
  lemma EncodeDecode(s: Song)
    requires WellFormed(s)
    ensures DecodeSong(EncodeSong(s)) == Ok(s)
  {
    var e := EncodeSong(s);
    EncodedParts(s);
    EncodedHeader(s);
    EncodedInstruments(s);
    forall i | 0 <= i < TrackCount ensures s.tracks[i] == DecodeTrack(e, s.instruments, i) {
      EncodedTrack(s, i);
    }
    ReadFromDecodes(e, s);
  }

  // ------------------------------------------------------ encode (decode data)

  /** A buffer whose fields read as those of s decodes to s. */
  lemma ReadFromDecodes(data: seq<byte>, s: Song)
    requires ReadFrom(data, s)
    ensures DecodeSong(data) == Ok(s)
  {
    assert seq(TrackCount, i requires 0 <= i < TrackCount => DecodeTrack(data, s.instruments, i)) == s.tracks;
  }

  lemma DecodedWellFormed(data: seq<byte>, s: Song)
    requires DecodeSong(data) == Ok(s)
    ensures WellFormed(s) && ReadFrom(data, s)
  {
    DecodedReadFrom(data, s);
    forall i | 0 <= i < TrackCount ensures TrackFits(s.tracks[i]) {
      assert s.tracks[i] == DecodeTrack(data, s.instruments, i);
    }
  }

  lemma WriteInstrument(data: seq<byte>, off: nat)
    requires off + InstrumentSize <= |data|
    ensures InstrumentFits(InstrumentAt(data, off))
    ensures InstrumentBytes(InstrumentAt(data, off)) == data[off..off + InstrumentSize]
  {
    WriteI16(data, off);
    WriteU16(data, off + 4);
    assert data[off..off + InstrumentSize] == data[off..off + 2] + data[off + 2..off + 4] + data[off + 4..off + 6];
  }

  lemma WritePositions(data: seq<byte>, off: nat, n: nat)
    requires off + 8 * n <= |data|
    ensures TrackFits(TrackAt(data, off, n))
    ensures Join(PosChunks(TrackAt(data, off, n))) == data[off..off + 4 * n]
  {
    var notes := TrackAt(data, off, n);
    var pos := PosChunks(notes);
    JoinUniformOffset(pos, 4, n);
    forall k | 0 <= k < n ensures ChunkIsSlice(pos, data, off, k) {
      PosChunkAt(data, off, n, pos, k);
    }
    JoinAllSlices(pos, data, off);
  }

  lemma PosChunkAt(data: seq<byte>, off: nat, n: nat, pos: seq<seq<byte>>, k: nat)
    requires off + 8 * n <= |data| && k < n
    requires TrackFits(TrackAt(data, off, n)) && pos == PosChunks(TrackAt(data, off, n))
    ensures ChunkIsSlice(pos, data, off, k)
  {
    UniformOffsets(pos, 4, k);
    PosBytesAt(data, off, n, k);
  }

  lemma UniformOffsets(chunks: seq<seq<byte>>, w: nat, k: nat)
    requires k < |chunks| && forall j :: 0 <= j < |chunks| ==> |chunks[j]| == w
    ensures JoinOffset(chunks, k) == w * k && JoinOffset(chunks, k + 1) == w * k + w
  {
    JoinUniformOffset(chunks, w, k);
    JoinUniformOffset(chunks, w, k + 1);
  }

  lemma PosBytesAt(data: seq<byte>, off: nat, n: nat, k: nat)
    requires off + 8 * n <= |data| && k < n && TrackFits(TrackAt(data, off, n))
    ensures PosChunks(TrackAt(data, off, n))[k] == data[off + 4 * k..off + 4 * k + 4]
  {
    assert TrackAt(data, off, n)[k] == NoteAt(data, off, n, k);
    WriteI32(data, off + 4 * k);
  }

  lemma WriteField(data: seq<byte>, off: nat, n: nat, f: ByteField, from: nat)
    requires off + 8 * n <= |data|
    requires from == match f
      case KeyField => off + 4 * n
      case LenField => off + 5 * n
      case VolField => off + 6 * n
      case PanField => off + 7 * n
    ensures FieldBytes(TrackAt(data, off, n), f) == data[from..from + n]
  {
  }

  lemma FiveSlices(data: seq<byte>, a: nat, b: nat, c: nat, d: nat, e: nat, f: nat)
    requires a <= b <= c <= d <= e <= f <= |data|
    ensures data[a..f] == data[a..b] + data[b..c] + data[c..d] + data[d..e] + data[e..f]
  {
    SliceSplit(data, a, e, f);
    SliceSplit(data, a, d, e);
    SliceSplit(data, a, c, d);
    SliceSplit(data, a, b, c);
  }

  lemma AssembleTrack(notes: seq<Note>, data: seq<byte>, a: nat, b: nat, c: nat, d: nat, e: nat, f: nat)
    requires TrackFits(notes) && a <= b <= c <= d <= e <= f <= |data|
    requires Join(PosChunks(notes)) == data[a..b]
    requires FieldBytes(notes, KeyField) == data[b..c]
    requires FieldBytes(notes, LenField) == data[c..d]
    requires FieldBytes(notes, VolField) == data[d..e]
    requires FieldBytes(notes, PanField) == data[e..f]
    ensures TrackBytes(notes) == data[a..f]
  {
    FiveSlices(data, a, b, c, d, e, f);
  }

  lemma WriteTrack(data: seq<byte>, off: nat, n: nat)
    requires off + 8 * n <= |data|
    ensures TrackFits(TrackAt(data, off, n))
    ensures TrackBytes(TrackAt(data, off, n)) == data[off..off + 8 * n]
  {
    var notes := TrackAt(data, off, n);
    WritePositions(data, off, n);
    var a, b, c, d, e, f := off, off + 4 * n, off + 5 * n, off + 6 * n, off + 7 * n, off + 8 * n;
    WriteField(data, off, n, KeyField, b);
    WriteField(data, off, n, LenField, c);
    WriteField(data, off, n, VolField, d);
    WriteField(data, off, n, PanField, e);
    AssembleTrack(notes, data, a, b, c, d, e, f);
  }

  lemma DecodedHeader(data: seq<byte>, s: Song)
    requires WellFormed(s) && ReadFrom(data, s)
    ensures HeaderBytes(s) == data[..HeaderSize]
  {
    WriteU32(data, 0);
    WriteU16(data, 4);
    WriteU16(data, 6);
    WriteI32(data, 10);
    WriteI32(data, 14);
    assert data[..HeaderSize] == data[0..4] + data[4..6] + data[6..8] + data[8..10] + data[10..14] + data[14..18];
  }

  lemma DecodedInstruments(data: seq<byte>, s: Song)
    requires WellFormed(s) && InstrumentsEnd <= |data| && s.instruments == DecodeInstruments(data)
    ensures Join(InstrumentChunks(s)) == data[HeaderSize..InstrumentsEnd]
  {
    var ic := InstrumentChunks(s);
    InstrumentsLayout(s);
    forall k | 0 <= k < TrackCount ensures ChunkIsSlice(ic, data, HeaderSize, k) {
      InstrumentChunkAt(data, s, ic, k);
    }
    JoinAllSlices(ic, data, HeaderSize);
  }

  lemma InstrumentChunkAt(data: seq<byte>, s: Song, ic: seq<seq<byte>>, k: nat)
    requires WellFormed(s) && InstrumentsEnd <= |data| && s.instruments == DecodeInstruments(data)
    requires ic == InstrumentChunks(s) && k < TrackCount
    requires JoinOffset(ic, k) == InstrumentSize * k && JoinOffset(ic, k + 1) == InstrumentSize * (k + 1)
    ensures ChunkIsSlice(ic, data, HeaderSize, k)
  {
    var off := HeaderSize + InstrumentSize * k;
    assert ic[k] == InstrumentBytes(InstrumentAt(data, off));
    WriteInstrument(data, off);
  }

  lemma DecodedTrackChunk(data: seq<byte>, s: Song, k: nat)
    requires WellFormed(s) && TrackOffset(s.instruments, TrackCount) <= |data| && k < TrackCount
    requires s.tracks[k] == DecodeTrack(data, s.instruments, k)
    ensures ChunkIsSlice(TrackChunks(s), data, InstrumentsEnd, k)
  {
    TrackChunksOffset(s, k);
    TrackChunksOffset(s, k + 1);
    TrackOffsetMono(s.instruments, k + 1, TrackCount);
    WriteTrack(data, TrackOffset(s.instruments, k), s.instruments[k].notes);
  }

  lemma DecodedTrackChunks(data: seq<byte>, s: Song)
    requires WellFormed(s) && TrackOffset(s.instruments, TrackCount) <= |data|
    requires forall i :: 0 <= i < TrackCount ==> s.tracks[i] == DecodeTrack(data, s.instruments, i)
    ensures forall k :: 0 <= k < TrackCount ==> ChunkIsSlice(TrackChunks(s), data, InstrumentsEnd, k)
  {
    forall k | 0 <= k < TrackCount ensures ChunkIsSlice(TrackChunks(s), data, InstrumentsEnd, k) {
      DecodedTrackChunk(data, s, k);
    }
  }

  lemma DecodedTracks(data: seq<byte>, s: Song)
    requires WellFormed(s) && TrackOffset(s.instruments, TrackCount) <= |data|
    requires forall k :: 0 <= k < TrackCount ==> ChunkIsSlice(TrackChunks(s), data, InstrumentsEnd, k)
    ensures InstrumentsEnd <= TrackOffset(s.instruments, TrackCount)
    ensures Join(TrackChunks(s)) == data[InstrumentsEnd..TrackOffset(s.instruments, TrackCount)]
  {
    TrackOffsetMono(s.instruments, 0, TrackCount);
    JoinAllSlices(TrackChunks(s), data, InstrumentsEnd);
    TrackChunksOffset(s, TrackCount);
  }

  lemma ThreeSlices(data: seq<byte>, l: nat, a: seq<byte>, b: seq<byte>, c: seq<byte>)
    requires InstrumentsEnd <= l <= |data|
    requires a == data[..HeaderSize] && b == data[HeaderSize..InstrumentsEnd] && c == data[InstrumentsEnd..l]
    ensures a + b + c == data[..l]
  {
    SliceSplit(data, 0, HeaderSize, InstrumentsEnd);
    SliceSplit(data, 0, InstrumentsEnd, l);
    assert data[..l] == data[0..l];
    assert data[..HeaderSize] == data[0..HeaderSize];
  }

  /** An accepted buffer, cut after the last byte the decoder reads
      (offset 114 + 8 * total notes), is exactly the encoding of its song. */
  lemma DecodeEncode(data: seq<byte>, s: Song)
    requires DecodeSong(data) == Ok(s)
    ensures WellFormed(s)
    ensures TrackOffset(s.instruments, TrackCount) == InstrumentsEnd + 8 * SumNotes(s.instruments)
    ensures TrackOffset(s.instruments, TrackCount) <= |data|
    ensures EncodeSong(s) == data[..TrackOffset(s.instruments, TrackCount)]
  {
    DecodedWellFormed(data, s);
    DecodedHeader(data, s);
    DecodedInstruments(data, s);
    DecodedTrackChunks(data, s);
    DecodedTracks(data, s);
    TrackOffsetTotal(s.instruments, TrackCount);
    assert s.instruments[..TrackCount] == s.instruments;
    var l := TrackOffset(s.instruments, TrackCount);
    ThreeSlices(data, l, HeaderBytes(s), Join(InstrumentChunks(s)), Join(TrackChunks(s)));
  }

  /** The decoder reads nothing past offset 114 + 8 * total notes: the
      buffer cut there decodes to the same song. */
  lemma DecodeIgnoresTail(data: seq<byte>, s: Song)
    requires DecodeSong(data) == Ok(s)
    ensures InstrumentsEnd + 8 * SumNotes(s.instruments) <= |data|
    ensures DecodeSong(data[..InstrumentsEnd + 8 * SumNotes(s.instruments)]) == Ok(s)
  {
    DecodeEncode(data, s);
    EncodeDecode(s);
  }
}
