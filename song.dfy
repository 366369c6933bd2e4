/**
 * The Organya ".org" song container and its decoder (the `Song` constructor).
 *
 * Layout, all integers little-endian:
 *   0  u32  magic "Org-"          4  u16  version "02"
 *   6  u16  wait                   8  u8   meas[0]     9  u8  meas[1]
 *  10  i32  loop start            14  i32  loop end
 *  18  16 instrument records of 6 bytes: i16 freq, u8 wave, u8 pipi, u16 note count
 * 114  for each track in turn, five arrays of that track's note count:
 *      i32 pos[], u8 key[], u8 len[], u8 vol[], u8 pan[]
 */
module SongFormat {
  import opened Wrappers
  import opened Bytes

  const OrgMagic: int := 0x2d67724f     // "Org-"
  const OrgVersion: int := 0x3230       // "02"
  const TrackCount: nat := 16
  const HeaderSize: nat := 18
  const InstrumentSize: nat := 6
  const InstrumentsEnd: nat := 114      // HeaderSize + TrackCount * InstrumentSize

  datatype Instrument = Instrument(freq: int, wave: byte, pipi: byte, notes: nat)

  datatype Note = Note(pos: int, key: byte, len: byte, vol: byte, pan: byte)

  datatype Song = Song(
    wait: int,
    meas: (byte, byte),
    start: int,
    end: int,
    instruments: seq<Instrument>,
    tracks: seq<seq<Note>>)

  /** What makes the constructor throw. */
  datatype SongError = BadMagic | BadVersion | Truncated

  // ------------------------------------------------------------- the layout

  /** The instrument record at offset off. */
  function InstrumentAt(data: seq<byte>, off: nat): Instrument
    requires off + InstrumentSize <= |data|
  {
    Instrument(I16(data, off), data[off + 2], data[off + 3], U16(data, off + 4))
  }

  /** Note j of a track of n notes whose arrays start at offset off. */
  function NoteAt(data: seq<byte>, off: nat, n: nat, j: nat): Note
    requires j < n && off + 8 * n <= |data|
  {
    Note(I32(data, off + 4 * j),
         data[off + 4 * n + j],
         data[off + 5 * n + j],
         data[off + 6 * n + j],
         data[off + 7 * n + j])
  }

  /** The n notes whose arrays start at offset off, zipped. */
  function TrackAt(data: seq<byte>, off: nat, n: nat): seq<Note>
    requires off + 8 * n <= |data|
  {
    seq(n, j requires 0 <= j < n => NoteAt(data, off, n, j))
  }

  /** Where the arrays of track i start: past the instrument records and
      the eight bytes per note of every earlier track. */
  function TrackOffset(ins: seq<Instrument>, i: nat): nat
    requires i <= |ins|
  {
    if i == 0 then InstrumentsEnd else TrackOffset(ins, i - 1) + 8 * ins[i - 1].notes
  }

  lemma {:induction false} TrackOffsetMono(ins: seq<Instrument>, i: nat, j: nat)
    requires i <= j <= |ins|
    ensures TrackOffset(ins, i) <= TrackOffset(ins, j)
  {
    if i < j {
      TrackOffsetMono(ins, i, j - 1);
    }
  }

  /** Total note count of the instrument records. */
  function SumNotes(ins: seq<Instrument>): nat
  {
    if ins == [] then 0 else SumNotes(ins[..|ins| - 1]) + ins[|ins| - 1].notes
  }

  /** The cursor before track k stands at 114 + 8 * (notes of the earlier
      tracks); after the last track, at 114 + 8 * (total note count). */
  lemma {:induction false} TrackOffsetTotal(ins: seq<Instrument>, k: nat)
    requires k <= |ins|
    ensures TrackOffset(ins, k) == InstrumentsEnd + 8 * SumNotes(ins[..k])
  {
    if k > 0 {
      TrackOffsetTotal(ins, k - 1);
      assert ins[..k][..k - 1] == ins[..k - 1];
    }
  }

  // ------------------------------------------------------------- the decoder

  function DecodeInstruments(data: seq<byte>): (ins: seq<Instrument>)
    requires InstrumentsEnd <= |data|
    ensures |ins| == TrackCount
  {
    seq(TrackCount, i requires 0 <= i < TrackCount => InstrumentAt(data, HeaderSize + InstrumentSize * i))
  }

  /** Track i of a song whose arrays all fit in data. */
  function DecodeTrack(data: seq<byte>, ins: seq<Instrument>, i: nat): seq<Note>
    requires i < |ins| && TrackOffset(ins, |ins|) <= |data|
  {
    TrackOffsetMono(ins, i + 1, |ins|);
    TrackAt(data, TrackOffset(ins, i), ins[i].notes)
  }

  /** Track k of the instruments ins fits in data and reads as t. */
  predicate TrackReadAs(data: seq<byte>, ins: seq<Instrument>, k: nat, t: seq<Note>)
    requires k < |ins|
  {
    TrackOffset(ins, k) + 8 * ins[k].notes <= |data| &&
    t == TrackAt(data, TrackOffset(ins, k), ins[k].notes)
  }

  /** What `new Song(data)` produces, or why it throws. */
  function DecodeSong(data: seq<byte>): Result<Song, SongError>
  {
    if |data| < 4 then Err(Truncated)
    else if U32(data, 0) != OrgMagic then Err(BadMagic)
    else if |data| < 6 then Err(Truncated)
    else if U16(data, 4) != OrgVersion then Err(BadVersion)
    else if |data| < InstrumentsEnd then Err(Truncated)
    else
      var ins := DecodeInstruments(data);
      if |data| < TrackOffset(ins, TrackCount) then Err(Truncated)
      else
        Ok(Song(U16(data, 6), (data[8], data[9]), I32(data, 10), I32(data, 14), ins,
                seq(TrackCount, i requires 0 <= i < TrackCount => DecodeTrack(data, ins, i))))
  }

  /** The decoder accepts exactly the buffers with the magic, the version,
      and room for every instrument record and every track's arrays; a
      wrong magic or version is reported as such whenever it could be read. */
  lemma DecodeOutcome(data: seq<byte>)
    ensures DecodeSong(data).Ok? <==>
      && InstrumentsEnd <= |data| && U32(data, 0) == OrgMagic && U16(data, 4) == OrgVersion
      && TrackOffset(DecodeInstruments(data), TrackCount) <= |data|
    ensures DecodeSong(data) == Err(BadMagic) <==> 4 <= |data| && U32(data, 0) != OrgMagic
    ensures DecodeSong(data) == Err(BadVersion) <==>
      6 <= |data| && U32(data, 0) == OrgMagic && U16(data, 4) != OrgVersion
  {
  }

  /** The fields of s are what the decoder reads out of data. */
  predicate ReadFrom(data: seq<byte>, s: Song)
  {
    && InstrumentsEnd <= |data|
    && U32(data, 0) == OrgMagic && U16(data, 4) == OrgVersion
    && s.wait == U16(data, 6) && s.meas == (data[8], data[9])
    && s.start == I32(data, 10) && s.end == I32(data, 14)
    && s.instruments == DecodeInstruments(data)
    && TrackOffset(s.instruments, TrackCount) <= |data|
    && |s.tracks| == TrackCount
    && (forall i :: 0 <= i < TrackCount ==> s.tracks[i] == DecodeTrack(data, s.instruments, i))
  }

  /** An accepted buffer's song is read from it field by field. */
  lemma DecodedReadFrom(data: seq<byte>, s: Song)
    requires DecodeSong(data) == Ok(s)
    ensures ReadFrom(data, s)
  {
  }

  /** Where every field of an accepted song comes from: the header scalars
      at offsets 6, 8, 9, 10 and 14, instrument i at 18 + 6i, track i as
      long as its instrument's note count with note j zipped from entry j
      of the five arrays, and the last array ending at 114 + 8 * (total
      note count). */
  lemma DecodedLayout(data: seq<byte>, s: Song)
    requires DecodeSong(data) == Ok(s)
    ensures InstrumentsEnd <= |data|
    ensures s.wait == U16(data, 6) && s.meas == (data[8], data[9])
    ensures s.start == I32(data, 10) && s.end == I32(data, 14)
    ensures |s.instruments| == TrackCount && |s.tracks| == TrackCount
    ensures forall i :: 0 <= i < TrackCount ==> s.instruments[i] == InstrumentAt(data, HeaderSize + InstrumentSize * i)
    ensures TrackOffset(s.instruments, TrackCount) == InstrumentsEnd + 8 * SumNotes(s.instruments) <= |data|
    ensures forall i :: 0 <= i < TrackCount ==>
      && TrackOffset(s.instruments, i) + 8 * s.instruments[i].notes <= |data|
      && |s.tracks[i]| == s.instruments[i].notes
      && forall j :: 0 <= j < |s.tracks[i]| ==>
           s.tracks[i][j] == NoteAt(data, TrackOffset(s.instruments, i), s.instruments[i].notes, j)
  {
    DecodedReadFrom(data, s);
    InstrumentRecords(data);
    TrackOffsetTotal(s.instruments, TrackCount);
    assert s.instruments[..TrackCount] == s.instruments;
    TracksLayout(data, s.instruments, s.tracks);
  }

  lemma InstrumentRecords(data: seq<byte>)
    requires InstrumentsEnd <= |data|
    ensures forall i :: 0 <= i < TrackCount ==>
      DecodeInstruments(data)[i] == InstrumentAt(data, HeaderSize + InstrumentSize * i)
  {
  }

  lemma TracksLayout(data: seq<byte>, ins: seq<Instrument>, tracks: seq<seq<Note>>)
    requires |ins| == TrackCount && TrackOffset(ins, TrackCount) <= |data| && |tracks| == TrackCount
    requires forall i :: 0 <= i < TrackCount ==> tracks[i] == DecodeTrack(data, ins, i)
    ensures forall i :: 0 <= i < TrackCount ==>
      && TrackOffset(ins, i) + 8 * ins[i].notes <= |data|
      && |tracks[i]| == ins[i].notes
      && forall j :: 0 <= j < |tracks[i]| ==> tracks[i][j] == NoteAt(data, TrackOffset(ins, i), ins[i].notes, j)
  {
    forall i | 0 <= i < TrackCount
      ensures TrackOffset(ins, i) + 8 * ins[i].notes <= |data|
      ensures |tracks[i]| == ins[i].notes
      ensures forall j :: 0 <= j < |tracks[i]| ==> tracks[i][j] == NoteAt(data, TrackOffset(ins, i), ins[i].notes, j)
    {
      TrackOffsetMono(ins, i + 1, TrackCount);
      TrackNotes(data, TrackOffset(ins, i), ins[i].notes, tracks[i]);
    }
  }

  lemma TrackNotes(data: seq<byte>, off: nat, n: nat, t: seq<Note>)
    requires off + 8 * n <= |data| && t == TrackAt(data, off, n)
    ensures |t| == n && forall j :: 0 <= j < n ==> t[j] == NoteAt(data, off, n, j)
  {
  }

  /** The one-byte fields of a note, filled by the four byte-array loops. */
  datatype ByteField = KeyField | LenField | VolField | PanField

  function WithField(note: Note, f: ByteField, b: byte): Note
  {
    match f
    case KeyField => note.(key := b)
    case LenField => note.(len := b)
    case VolField => note.(vol := b)
    case PanField => note.(pan := b)
  }

  /** The position loop: note k's pos is the i32 at off + 4k. */
  method ReadPositions(data: seq<byte>, off: nat, track: array<Note>)
    requires off + 4 * track.Length <= |data|
    modifies track
    ensures forall k :: 0 <= k < track.Length ==> track[k] == old(track[k]).(pos := I32(data, off + 4 * k))
  {
    var q := off;
    for j := 0 to track.Length
      invariant q == off + 4 * j
      invariant forall k :: 0 <= k < j ==> track[k] == old(track[k]).(pos := I32(data, off + 4 * k))
      invariant forall k :: j <= k < track.Length ==> track[k] == old(track[k])
    {
      track[j] := track[j].(pos := I32(data, q)); q := q + 4;
    }
  }

  /** One byte-array loop: note k's field f is the byte at off + k. */
  method ReadBytes(data: seq<byte>, off: nat, track: array<Note>, f: ByteField)
    requires off + track.Length <= |data|
    modifies track
    ensures forall k :: 0 <= k < track.Length ==> track[k] == WithField(old(track[k]), f, data[off + k])
  {
    var q := off;
    for j := 0 to track.Length
      invariant q == off + j
      invariant forall k :: 0 <= k < j ==> track[k] == WithField(old(track[k]), f, data[off + k])
      invariant forall k :: j <= k < track.Length ==> track[k] == old(track[k])
    {
      track[j] := WithField(track[j], f, data[q]); q := q + 1;
    }
  }

  /** The five array loops of one track: positions, keys, lengths, volumes,
      pans, each filling one field of every note record. */
  method ReadTrack(data: seq<byte>, p: nat, n: nat) returns (notes: seq<Note>)
    requires p + 8 * n <= |data|
    ensures notes == TrackAt(data, p, n)
  {
    var track := new Note[n](_ => Note(0, 0, 0, 0, 0));
    ReadPositions(data, p, track);
    ReadBytes(data, p + 4 * n, track, KeyField);
    ReadBytes(data, p + 5 * n, track, LenField);
    ReadBytes(data, p + 6 * n, track, VolField);
    ReadBytes(data, p + 7 * n, track, PanField);
    notes := track[..];
  }

  /** The 16 instrument records that follow the header, each six bytes
      from offset 18 on; None when a record runs past the end. */
  method ReadInstruments(data: seq<byte>) returns (r: Option<seq<Instrument>>)
    ensures r.None? <==> |data| < InstrumentsEnd
    ensures r.Some? ==> r.value == DecodeInstruments(data)
  {
    var p: nat := HeaderSize;
    var instruments: seq<Instrument> := [];
    for i := 0 to TrackCount
      invariant p == HeaderSize + InstrumentSize * i
      invariant i > 0 ==> p <= |data|
      invariant |instruments| == i
      invariant forall k :: 0 <= k < i ==>
        HeaderSize + InstrumentSize * k + InstrumentSize <= |data| &&
        instruments[k] == InstrumentAt(data, HeaderSize + InstrumentSize * k)
    {
      if |data| < p + InstrumentSize { return None; }
      var freq := I16(data, p); p := p + 2;
      var wave := data[p]; p := p + 1;
      var pipi := data[p]; p := p + 1;
      var notes := U16(data, p); p := p + 2;
      instruments := instruments + [Instrument(freq, wave, pipi, notes)];
    }
    r := Some(instruments);
  }

  /** The arrays of every track in turn, from offset 114 on; None when a
      track's arrays run past the end. */
  method ReadTracks(data: seq<byte>, instruments: seq<Instrument>) returns (r: Option<seq<seq<Note>>>)
    requires |instruments| == TrackCount
    ensures r.None? <==> |data| < TrackOffset(instruments, TrackCount)
    ensures r.Some? ==> r.value == seq(TrackCount, i requires 0 <= i < TrackCount => DecodeTrack(data, instruments, i))
  {
    var p: nat := InstrumentsEnd;
    var tracks: seq<seq<Note>> := [];
    for i := 0 to TrackCount
      invariant p == TrackOffset(instruments, i) <= |data| || (i == 0 && p == InstrumentsEnd)
      invariant |tracks| == i
      invariant forall k :: 0 <= k < i ==> TrackReadAs(data, instruments, k, tracks[k])
    {
      var n := instruments[i].notes;
      if |data| < p + 8 * n {
        TrackOffsetMono(instruments, i + 1, TrackCount);
        return None;
      }
      var track := ReadTrack(data, p, n);
      ghost var before := tracks;
      tracks := tracks + [track];
      assert forall k :: 0 <= k < i ==> tracks[k] == before[k];
      p := p + 8 * n;
    }
    assert TrackOffset(instruments, TrackCount) <= |data|;
    assert tracks == seq(TrackCount, i requires 0 <= i < TrackCount => DecodeTrack(data, instruments, i));
    r := Some(tracks);
  }

  /**
   * The `Song` constructor: a cursor walks the buffer; the header is read
   * first, then 16 instrument records, then every track's arrays.
   * DataView throws at the first read past the end; checking the header,
   * each record and each track's arrays before reading them gives the same
   * outcome, since a thrown constructor leaves nothing behind.
   */
  method ParseSong(data: seq<byte>) returns (r: Result<Song, SongError>)
    ensures r == DecodeSong(data)
  {
    var p: nat := 0;
    if |data| < p + 4 { return Err(Truncated); }
    var org1 := U32(data, p); p := p + 4;
    if org1 != OrgMagic { return Err(BadMagic); }

    if |data| < p + 2 { return Err(Truncated); }
    var orgVersion := U16(data, p); p := p + 2;
    if orgVersion != OrgVersion { return Err(BadVersion); }

    if |data| < HeaderSize { return Err(Truncated); }
    var wait := U16(data, p); p := p + 2;
    var meas := (data[p], data[p + 1]); p := p + 2;
    var start := I32(data, p); p := p + 4;
    var end := I32(data, p); p := p + 4;

    var instruments := ReadInstruments(data);
    if instruments.None? { return Err(Truncated); }
    var tracks := ReadTracks(data, instruments.value);
    if tracks.None? { return Err(Truncated); }
    r := Ok(Song(wait, meas, start, end, instruments.value, tracks.value));
  }
}
